/**
 * The mock client's function bodies: a success response is selected, an example is found for
 * it (following schema references), and the body returns that example.
 */
module MockBody {
  import opened Common
  import opened Diagnostics
  import opened Syntax
  import opened OpenApi

  /** The key under which a single example is stored. */
  const Response := "response"
  /** Created, the status a POST prefers (section 15.3.2 of RFC 9110). */
  const Http201 := "201"
  /** The lower-cased method name of a POST. */
  const Post := "post"

  /** A status code in the successful class 2xx (section 15.3 of RFC 9110). */
  predicate IsSuccessCode(code: string) {
    StartsWith(code, "2")
  }

  /** The success responses of an operation. */
  function SuccessResponses(responses: map<string, ApiResponse>): (r: map<string, ApiResponse>)
    ensures forall k :: k in r <==> k in responses && IsSuccessCode(k)
    ensures forall k :: k in r ==> r[k] == responses[k]
  {
    map k | k in responses && IsSuccessCode(k) :: responses[k]
  }

  /** An example made from a bare value. */
  function ValueExample(value: string): Example {
    Example(Some(value), None)
  }

  // ---------------------------------------------------------------------------
  // Examples from a schema
  // ---------------------------------------------------------------------------

  /** What deriving examples from a schema yields: the examples, an invalid reference, or an
      exception. */
  datatype SchemaExamples =
    | Found(examples: map<string, Example>)
    | InvalidRef(diagnostic: Diagnostic)
    | Crashed(thrown: Thrown)

  /**
   * `getExamplesFromSchema`: the schema's `example`, else the first of its `examples`, else
   * whatever the schema it references yields; a reference to a missing schema yields nothing.
   * The source follows references without a cycle guard; `fuel` bounds that recursion.
   */
  function ExamplesFromSchema(schema: Schema?, document: Document, resolveRef: string -> RefResolution,
                              fuel: nat): (r: SchemaExamples)
    ensures r.Found? ==> forall k :: k in r.examples ==> k == Response
    ensures r.Found? && Response in r.examples ==> r.examples[Response].value.Some? && r.examples[Response].ref.None?
    ensures schema != null && schema.example.Some? ==> r == Found(map[Response := ValueExample(schema.example.value)])
    ensures schema != null && schema.example.None? && schema.examples.Some? && schema.examples.value != [] ==>
      r == Found(map[Response := ValueExample(schema.examples.value[0])])
    ensures schema != null && schema.example.None? && schema.examples == Some([]) ==> r == Crashed(ListIndexOutOfBounds)
    ensures schema != null && schema.example.None? && schema.examples.None? && schema.ref.None? ==> r == Found(map[])
    decreases fuel
  {
    if schema == null then Crashed(NullPointer)
    else if schema.example.Some? then Found(map[Response := ValueExample(schema.example.value)])
    else if schema.examples.Some? then
      if schema.examples.value == [] then Crashed(ListIndexOutOfBounds)
      else Found(map[Response := ValueExample(schema.examples.value[0])])
    else if schema.ref.Some? then
      match resolveRef(schema.ref.value)
      case InvalidReference(d) => InvalidRef(d)
      case Resolved(name) =>
        if document.components.None? || document.components.value.schemas.None? then Crashed(NullPointer)
        else match Get(document.components.value.schemas.value, name)
          case None => Found(map[])
          case Some(referenced) =>
            if fuel == 0 then Crashed(StackOverflow)
            else ExamplesFromSchema(referenced, document, resolveRef, fuel - 1)
    else Found(map[])
  }

  /** Following a reference yields exactly what the referenced schema yields. */
  lemma ReferenceYieldsTarget(schema: Schema, document: Document, resolveRef: string -> RefResolution, fuel: nat,
                              name: string, target: Schema)
    requires schema.example.None? && schema.examples.None? && schema.ref.Some?
    requires resolveRef(schema.ref.value) == Resolved(name)
    requires document.components.Some? && document.components.value.schemas.Some?
    requires name in document.components.value.schemas.value && document.components.value.schemas.value[name] == target
    requires fuel > 0
    ensures ExamplesFromSchema(schema, document, resolveRef, fuel) == ExamplesFromSchema(target, document, resolveRef, fuel - 1)
  {
  }

  // ---------------------------------------------------------------------------
  // Examples over the media types of a response
  // ---------------------------------------------------------------------------

  /** The examples gathered so far, or why gathering stopped. */
  datatype Collected =
    | Gathered(examples: map<string, Example>)
    | Unresolved
    | Aborted(thrown: Thrown)

  /**
   * One media type's contribution: its `examples` replace what was gathered; otherwise its
   * single `example` is added under `response`; otherwise its schema's examples replace what
   * was gathered.
   */
  function MediaExamples(gathered: map<string, Example>, media: MediaType, document: Document,
                         resolveRef: string -> RefResolution, fuel: nat): (r: Collected)
    ensures media.examples.Some? ==> r == Gathered(media.examples.value)
    ensures media.examples.None? && media.example.Some? ==>
      r == Gathered(gathered[Response := ValueExample(media.example.value)])
  {
    if media.examples.Some? then Gathered(media.examples.value)
    else if media.example.Some? then Gathered(gathered[Response := ValueExample(media.example.value)])
    else match ExamplesFromSchema(media.schema, document, resolveRef, fuel)
      case Found(examples) => Gathered(examples)
      case InvalidRef(_) => Unresolved
      case Crashed(t) => Aborted(t)
  }

  /** The examples gathered over the media types in order, stopping at the first failure. */
  function CollectExamples(content: seq<(string, MediaType)>, document: Document,
                           resolveRef: string -> RefResolution, fuel: nat): Collected
    decreases |content|
  {
    if content == [] then Gathered(map[])
    else
      match CollectExamples(content[..|content| - 1], document, resolveRef, fuel)
      case Gathered(examples) => MediaExamples(examples, content[|content| - 1].1, document, resolveRef, fuel)
      case failed => failed
  }

  /**
   * Later media types overwrite earlier ones: once a media type with an `examples` map has
   * been gathered, the result is decided by the media types after it alone.
   */
  lemma {:induction false} LaterMediaTypesOverwrite(before: seq<(string, MediaType)>, media: (string, MediaType),
                                                    after: seq<(string, MediaType)>, document: Document,
                                                    resolveRef: string -> RefResolution, fuel: nat)
    requires media.1.examples.Some?
    requires CollectExamples(before, document, resolveRef, fuel).Gathered?
    ensures CollectExamples(before + [media] + after, document, resolveRef, fuel)
            == CollectFrom(media.1.examples.value, after, document, resolveRef, fuel)
    decreases |after|
  {
    var all := before + [media] + after;
    if after == [] {
      assert all[..|all| - 1] == before;
    } else {
      var init := before + [media] + after[..|after| - 1];
      assert all[..|all| - 1] == init;
      assert all[|all| - 1] == after[|after| - 1];
      LaterMediaTypesOverwrite(before, media, after[..|after| - 1], document, resolveRef, fuel);
    }
  }

  /** Gathering continued from `gathered` over `content`. */
  function CollectFrom(gathered: map<string, Example>, content: seq<(string, MediaType)>, document: Document,
                       resolveRef: string -> RefResolution, fuel: nat): Collected
    decreases |content|
  {
    if content == [] then Gathered(gathered)
    else
      match CollectFrom(gathered, content[..|content| - 1], document, resolveRef, fuel)
      case Gathered(examples) => MediaExamples(examples, content[|content| - 1].1, document, resolveRef, fuel)
      case failed => failed
  }

  // ---------------------------------------------------------------------------
  // The return statement
  // ---------------------------------------------------------------------------

  /** What the status-code record generator yields for the advanced client. */
  datatype RecordReturn =
    | RecordReturn(typeSource: string, diagnostics: seq<Diagnostic>)
    | RecordInvalidReference(diagnostic: Diagnostic)

  /**
   * The collaborators whose code is not part of this model: `extractReferenceType`, the
   * status-code record generator of the advanced client, and `HTTP_CODES_DES`.
   */
  datatype Collaborators = Collaborators(
    resolveRef: string -> RefResolution,
    statusCodeRecord: (Option<string>, ApiResponse) -> RecordReturn,
    httpCodes: map<string, string>)

  /** The advanced client returns a status-code record whose body is the example. */
  function AdvanceStatement(typeSource: string, exampleValue: string): string {
    "return  <" + typeSource + " > {\n" + "            body : " + exampleValue + "\n" + "        };"
  }

  /** The statement for the plain client. */
  function ReturnExample(exampleValue: string): (r: string)
    ensures |r| == |exampleValue| + 8
    ensures r[..7] == "return " && r[7..|r| - 1] == exampleValue && r[|r| - 1] == ';'
  {
    "return " + exampleValue + ";"
  }

  /** A body, or why there is none, with the diagnostics it adds. */
  datatype BodyResult = BodyResult(body: Result<Option<FunctionBody>>, diagnostics: seq<Diagnostic>)

  /**
   * The body for a chosen example: a referenced example is looked up among the component
   * examples (an invalid reference reports its diagnostic; a missing one dereferences null),
   * and its value is returned.
   */
  function ExampleBody(example: Example, response: ApiResponse, code: string, isAdvanceClient: bool,
                       document: Document, c: Collaborators): (r: BodyResult)
    ensures example.ref.None? && example.value.Some? && !isAdvanceClient ==>
      r == BodyResult(Ok(Some(Block([ReturnExample(example.value.value)]))), [])
    ensures example.ref.None? && example.value.None? ==> r == BodyResult(Err(NullPointer), [])
    ensures r.body.Ok? && r.body.value.Some? ==> r.body.value.value.Block? && |r.body.value.value.statements| == 1
  {
    var resolved: Result<Option<Example>> :=
      if example.ref.None? then Ok(Some(example))
      else match c.resolveRef(example.ref.value)
        case InvalidReference(_) => Ok(None)
        case Resolved(name) =>
          if document.components.None? || document.components.value.examples.None? then Err(NullPointer)
          else match Get(document.components.value.examples.value, name)
            case None => Err(NullPointer)
            case Some(e) => Ok(Some(e));
    match resolved
    case Err(t) => BodyResult(Err(t), [])
    case Ok(None) => BodyResult(Ok(None), [c.resolveRef(example.ref.value).diagnostic])
    case Ok(Some(e)) =>
      if e.value.None? then BodyResult(Err(NullPointer), [])
      else if !isAdvanceClient then BodyResult(Ok(Some(Block([ReturnExample(e.value.value)]))), [])
      else match c.statusCodeRecord(Get(c.httpCodes, code), response)
        case RecordInvalidReference(d) => BodyResult(Ok(None), [d])
        case RecordReturn(source, ds) => BodyResult(Ok(Some(Block([AdvanceStatement(source, e.value.value)]))), ds)
  }

  /** The example used: the one under `response` when there is one, otherwise any. */
  predicate ValidExampleChoice(examples: map<string, Example>, key: string) {
    key in examples && (Response in examples ==> key == Response)
  }

  /** `exampleKey` is a valid choice among the examples the response yields. */
  predicate FitsResponse(response: ApiResponse, exampleKey: string, document: Document, c: Collaborators, fuel: nat) {
    response.content.Some? ==>
      var collected := CollectExamples(response.content.value, document, c.resolveRef, fuel);
      collected.Gathered? && collected.examples != map[] ==> ValidExampleChoice(collected.examples, exampleKey)
  }

  /** The selected success response's body: no content (OAS_CLIENT_115), an invalid schema
      reference (OAS_CLIENT_117) and no example (OAS_CLIENT_116) give none. */
  function ResponseBody(response: ApiResponse, code: string, exampleKey: string, path: string, httpMethod: HttpMethod,
                        isAdvanceClient: bool, document: Document, c: Collaborators, fuel: nat): (r: BodyResult)
    requires FitsResponse(response, exampleKey, document, c, fuel)
    ensures response.content.None? ==> r == BodyResult(Ok(None), [Diag(OAS_CLIENT_115, [path, MethodName(httpMethod)])])
    ensures response.content.Some? && CollectExamples(response.content.value, document, c.resolveRef, fuel) == Gathered(map[]) ==>
      r == BodyResult(Ok(None), [Diag(OAS_CLIENT_116, [path, MethodName(httpMethod)])])
    ensures response.content.Some? && CollectExamples(response.content.value, document, c.resolveRef, fuel).Unresolved? ==>
      r == BodyResult(Ok(None), [Diag(OAS_CLIENT_117, [path, MethodName(httpMethod)])])
  {
    var args := [path, MethodName(httpMethod)];
    if response.content.None? then BodyResult(Ok(None), [Diag(OAS_CLIENT_115, args)])
    else match CollectExamples(response.content.value, document, c.resolveRef, fuel)
      case Unresolved => BodyResult(Ok(None), [Diag(OAS_CLIENT_117, args)])
      case Aborted(t) => BodyResult(Err(t), [])
      case Gathered(examples) =>
        if examples == map[] then BodyResult(Ok(None), [Diag(OAS_CLIENT_116, args)])
        else ExampleBody(examples[exampleKey], response, code, isAdvanceClient, document, c)
  }

  /** The plain client returns the `response` example's value whenever the response yields one. */
  lemma PreferResponseExample(response: ApiResponse, code: string, exampleKey: string, path: string,
                              httpMethod: HttpMethod, document: Document, c: Collaborators, fuel: nat)
    requires FitsResponse(response, exampleKey, document, c, fuel)
    requires response.content.Some?
    requires var collected := CollectExamples(response.content.value, document, c.resolveRef, fuel);
      collected.Gathered? && Response in collected.examples
    requires var e := CollectExamples(response.content.value, document, c.resolveRef, fuel).examples[Response];
      e.ref.None? && e.value.Some?
    ensures var e := CollectExamples(response.content.value, document, c.resolveRef, fuel).examples[Response];
      ResponseBody(response, code, exampleKey, path, httpMethod, false, document, c, fuel)
        == BodyResult(Ok(Some(Block(["return " + e.value.value + ";"]))), [])
  {
  }

  // ---------------------------------------------------------------------------
  // The generator
  // ---------------------------------------------------------------------------

  class MockFunctionBodyGenerator {
    const path: string
    const operation: (HttpMethod, Operation)
    const openAPI: Document
    const isAdvanceClient: bool
    const collaborators: Collaborators
    var diagnostics: seq<Diagnostic>

    constructor(path: string, operation: (HttpMethod, Operation), openAPI: Document, isAdvanceClient: bool,
                collaborators: Collaborators)
      ensures this.path == path && this.operation == operation && this.openAPI == openAPI
      ensures this.isAdvanceClient == isAdvanceClient && this.collaborators == collaborators
      ensures diagnostics == []
    {
      this.path := path;
      this.operation := operation;
      this.openAPI := openAPI;
      this.isAdvanceClient := isAdvanceClient;
      this.collaborators := collaborators;
      diagnostics := [];
    }

    /**
     * `getFunctionBodyNode`. Which success response (when a POST has no 201) and which
     * example (when none is keyed `response`) are used depends on hash-map iteration order;
     * the choices made are returned as `code` and `exampleKey`.
     */
    method GetFunctionBodyNode(fuel: nat) returns (r: Result<Option<FunctionBody>>, ghost code: string,
                                                   ghost exampleKey: string)
      modifies this
      ensures var success := SuccessResponses(operation.1.responses);
        && (success == map[] ==>
              r == Ok(None) && diagnostics == old(diagnostics) + [Diag(OAS_CLIENT_115, [path, MethodName(operation.0)])])
        && (success != map[] ==>
              && code in success
              && (ToLowerAscii(MethodName(operation.0)) == Post && Http201 in success ==> code == Http201)
              && FitsResponse(success[code], exampleKey, openAPI, collaborators, fuel)
              && var out := ResponseBody(success[code], ToLowerAscii(code), exampleKey, path, operation.0,
                                         isAdvanceClient, openAPI, collaborators, fuel);
                 r == out.body && diagnostics == old(diagnostics) + out.diagnostics)
    {
      var responses := operation.1.responses;
      var httpMethod := ToLowerAscii(MethodName(operation.0));
      var successResponses := SuccessResponses(responses);
      if successResponses == map[] {
        code, exampleKey := "", "";
        diagnostics := diagnostics + [Diag(OAS_CLIENT_115, [path, MethodName(operation.0)])];
        return Ok(None), code, exampleKey;
      }
      var key: string;
      if httpMethod == Post && Http201 in successResponses {
        key := Http201;
      } else {
        key :| key in successResponses;
      }
      code := key;
      r, exampleKey := SuccessResponseBody(successResponses[key], ToLowerAscii(key), fuel);
    }

    /** The rest of `getFunctionBodyNode` once the success response is chosen: its examples are
        gathered and the body is built from the `response` example or, failing that, any one. */
    method SuccessResponseBody(successResponse: ApiResponse, codeText: string, fuel: nat)
      returns (r: Result<Option<FunctionBody>>, ghost exampleKey: string)
      modifies this
      ensures FitsResponse(successResponse, exampleKey, openAPI, collaborators, fuel)
      ensures var out := ResponseBody(successResponse, codeText, exampleKey, path, operation.0,
                                      isAdvanceClient, openAPI, collaborators, fuel);
        r == out.body && diagnostics == old(diagnostics) + out.diagnostics
    {
      var c := collaborators;
      var args := [path, MethodName(operation.0)];
      exampleKey := "";
      if successResponse.content.None? {
        diagnostics := diagnostics + [Diag(OAS_CLIENT_115, args)];
        return Ok(None), exampleKey;
      }
      var content := successResponse.content.value;
      var collected := GatherExamples(content, fuel);
      match collected {
        case Unresolved =>
          diagnostics := diagnostics + [Diag(OAS_CLIENT_117, args)];
          return Ok(None), exampleKey;
        case Aborted(t) =>
          return Err(t), exampleKey;
        case Gathered(_) =>
      }
      var examples := collected.examples;
      if examples == map[] {
        diagnostics := diagnostics + [Diag(OAS_CLIENT_116, args)];
        return Ok(None), exampleKey;
      }
      var chosen: string;
      if Response in examples {
        chosen := Response;
      } else {
        chosen :| chosen in examples;
      }
      exampleKey := chosen;
      var outcome := ExampleBody(examples[chosen], successResponse, codeText, isAdvanceClient, openAPI, c);
      diagnostics := diagnostics + outcome.diagnostics;
      r := outcome.body;
    }

    /** The loop over the success response's media types: it gathers their examples in order
        and stops at the first schema whose examples cannot be derived. */
    method GatherExamples(content: seq<(string, MediaType)>, fuel: nat) returns (collected: Collected)
      ensures collected == CollectExamples(content, openAPI, collaborators.resolveRef, fuel)
    {
      var c := collaborators;
      var examples: map<string, Example> := map[];
      for i := 0 to |content|
        invariant CollectExamples(content[..i], openAPI, c.resolveRef, fuel) == Gathered(examples)
      {
        assert content[..i + 1][..i] == content[..i];
        var media := content[i].1;
        if media.examples.Some? {
          examples := media.examples.value;
        } else if media.example.Some? {
          examples := examples[Response := ValueExample(media.example.value)];
        } else {
          var derived := ExamplesFromSchema(media.schema, openAPI, c.resolveRef, fuel);
          match derived {
            case InvalidRef(_) =>
              assert CollectExamples(content[..i + 1], openAPI, c.resolveRef, fuel).Unresolved?;
              CollectStops(content, i + 1, openAPI, c.resolveRef, fuel);
              return Unresolved;
            case Crashed(t) =>
              assert CollectExamples(content[..i + 1], openAPI, c.resolveRef, fuel) == Aborted(t);
              CollectStops(content, i + 1, openAPI, c.resolveRef, fuel);
              return Aborted(t);
            case Found(found) =>
              examples := found;
          }
        }
      }
      assert content[..|content|] == content;
      return Gathered(examples);
    }
  }

  /** Once gathering has failed, further media types do not change the failure. */
  lemma {:induction false} CollectStops(content: seq<(string, MediaType)>, i: nat, document: Document,
                                        resolveRef: string -> RefResolution, fuel: nat)
    requires i <= |content|
    requires !CollectExamples(content[..i], document, resolveRef, fuel).Gathered?
    ensures CollectExamples(content, document, resolveRef, fuel) == CollectExamples(content[..i], document, resolveRef, fuel)
    decreases |content| - i
  {
    if i < |content| {
      assert content[..i + 1][..i] == content[..i];
      CollectStops(content, i + 1, document, resolveRef, fuel);
    } else {
      assert content[..i] == content;
    }
  }
}
