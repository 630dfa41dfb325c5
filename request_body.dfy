/**
 * The request-body parameter of a client function: which type the payload gets, what the
 * parameter is called, and which multipart encoding headers become header parameters.
 */
module RequestBody {
  import opened Common
  import opened Diagnostics
  import opened Syntax
  import opened OpenApi

  /** `application/octet-stream`, the media type of a raw byte payload. */
  const ApplicationOctetStream := "application/octet-stream"
  /** `multipart/form-data`. */
  const MultipartFormData := "multipart/form-data"
  /** The Ballerina type of a payload sent as a whole HTTP request. */
  const HttpRequest := "http:Request"

  /** Characters the regular-expression `.` does not match (Java's line terminators). */
  predicate IsLineTerminator(c: char) {
    c == '\n' || c == '\r' || c == '\U{0085}' || c == '\U{2028}' || c == '\U{2029}'
  }

  /** `s.matches(prefix + ".*" + suffix)` for literal `prefix` and `suffix`. */
  predicate MatchesAround(s: string, prefix: string, suffix: string) {
    && |prefix| + |suffix| <= |s|
    && s[..|prefix|] == prefix
    && s[|s| - |suffix|..] == suffix
    && forall i :: |prefix| <= i < |s| - |suffix| ==> !IsLineTerminator(s[i])
  }

  /** A vendor octet-stream media type: `application/.*\+octet-stream`. */
  predicate IsOctetStream(key: string) {
    key == ApplicationOctetStream || MatchesAround(key, "application/", "+octet-stream")
  }

  /** A multipart form media type: `multipart/.*\+form-data`. */
  predicate IsMultipartForm(key: string) {
    key == MultipartFormData || MatchesAround(key, "multipart/", "+form-data")
  }

  /** Whether a source text mentions `needle`. */
  predicate Contains(s: string, needle: string) {
    exists i :: 0 <= i <= |s| - |needle| && OccursAt(s, needle, i)
  }

  predicate OccursAt(s: string, needle: string, i: int)
    requires 0 <= i <= |s| - |needle|
  {
    s[i..i + |needle|] == needle
  }

  /** What the header-parameter generator makes of one encoding header. */
  datatype HeaderOutcome = HeaderOutcome(parameter: Option<Parameter>, diagnostics: seq<Diagnostic>)

  /**
   * The collaborators of the request-body generator whose code is not part of this model:
   * `extractReferenceType`, `isSupportedMediaType`, `getBallerinaMediaType`, the type
   * handler, `escapeIdentifier` and the header-parameter generator.
   */
  datatype Collaborators = Collaborators(
    resolveRef: string -> RefResolution,
    isSupportedMediaType: (string, MediaType) -> bool,
    mediaTypeName: string -> string,
    typeOf: Schema -> Option<TypeDesc>,
    escape: string -> string,
    headerParameter: (string, Header) -> HeaderOutcome)

  // ---------------------------------------------------------------------------
  // The payload type
  // ---------------------------------------------------------------------------

  /** What the first content entry decides: the payload type, and whether headers are read. */
  datatype EntryOutcome = EntryOutcome(typ: Option<TypeDesc>, extractsHeaders: bool)

  /** The media type's own Ballerina name, as a simple type reference. */
  function MediaTypeNode(key: string, c: Collaborators): TypeDesc {
    Simple(c.mediaTypeName(key))
  }

  /** The media type's Ballerina name as an array type reference. */
  function MediaTypeArrayNode(key: string, c: Collaborators): TypeDesc {
    Simple(c.mediaTypeName(key) + "[]")
  }

  /** The payload type of a supported entry that has a schema. */
  function SupportedEntryType(key: string, schema: Schema, c: Collaborators): Option<TypeDesc> {
    if IsOctetStream(key) then Some(MediaTypeNode(key, c))
    else if schema.ref.Some? then c.typeOf(schema)
    else if schema.openApiType.Some? || schema.properties.Some? then
      match c.typeOf(schema)
      case None => Some(if schema.isArraySchema then MediaTypeArrayNode(key, c) else MediaTypeNode(key, c))
      case Some(t) =>
        Some(if schema.isArraySchema && Contains(Source(t), "anydata") then MediaTypeArrayNode(key, c) else t)
    else Some(MediaTypeNode(key, c))
  }

  /**
   * The decision for the one content entry the generator looks at. A supported entry with a
   * schema gets a type from its schema (octet streams are raw bytes, an unresolvable
   * reference gives up before headers are read); any other entry is typed by its media type,
   * except a plain multipart form with encodings, which yields headers and no payload.
   */
  function FirstEntry(key: string, media: MediaType, c: Collaborators): (r: EntryOutcome)
    ensures media.schema != null && c.isSupportedMediaType(key, media) && IsOctetStream(key) ==>
      r.typ == Some(MediaTypeNode(key, c))
    ensures r.typ.None? <==>
      if media.schema != null && c.isSupportedMediaType(key, media)
      then !IsOctetStream(key) && media.schema.ref.Some? && c.typeOf(media.schema).None?
      else key == MultipartFormData && media.encoding.Some?
    ensures r.extractsHeaders ==> r.typ.Some? || key == MultipartFormData
    ensures r.extractsHeaders ==> IsMultipartForm(key)
    ensures !(media.schema != null && c.isSupportedMediaType(key, media)) && r.typ.Some? ==>
      r.typ == Some(MediaTypeNode(key, c)) && !r.extractsHeaders
  {
    var schema := media.schema;
    if schema != null && c.isSupportedMediaType(key, media) then
      var typ := SupportedEntryType(key, schema, c);
      EntryOutcome(typ, typ.Some? && IsMultipartForm(key))
    else if key == MultipartFormData && media.encoding.Some? then
      EntryOutcome(None, true)
    else
      EntryOutcome(Some(MediaTypeNode(key, c)), false)
  }

  /** The parameter name: `request` for a whole `http:Request`, otherwise `payload`. */
  function PayloadName(t: TypeDesc): (r: string)
    ensures r == "request" <==> Source(t) == HttpRequest
    ensures r == "payload" <==> Source(t) != HttpRequest
  {
    if Source(t) == HttpRequest then "request" else "payload"
  }

  /**
   * The request-body parameter for a content map: decided by its FIRST entry alone, and a
   * required parameter named after its type.
   */
  function BodyParameter(content: Option<seq<(string, MediaType)>>, c: Collaborators): (r: Option<ParamNode>)
    ensures content.None? || content.value == [] ==> r.None?
    ensures content.Some? && content.value != [] ==>
      (r.Some? <==> FirstEntry(content.value[0].0, content.value[0].1, c).typ.Some?)
    ensures r.Some? ==>
      && r.value.Required?
      && Some(r.value.typ) == FirstEntry(content.value[0].0, content.value[0].1, c).typ
      && r.value.name == PayloadName(r.value.typ)
  {
    if content.None? || content.value == [] then None
    else
      var entry := content.value[0];
      match FirstEntry(entry.0, entry.1, c).typ
      case None => None
      case Some(t) => Some(Required(PayloadName(t), t))
  }

  /** How the generator finds the content it examines. */
  datatype ContentSource =
    | UnresolvedReference                 // `extractReferenceType` throws: OAS_CLIENT_109
    | MissingComponent                    // the referenced body is not in the components
    | Inline                              // the body's own content
    | Referenced(component: RequestBody)  // the referenced component body

  function ResolveContent(body: RequestBody, document: Document, c: Collaborators): (r: ContentSource)
    ensures body.ref.None? <==> r.Inline?
    ensures r.Referenced? ==>
      && document.components.Some? && document.components.value.requestBodies.Some?
      && var bodies := document.components.value.requestBodies.value;
         exists name :: name in bodies && bodies[name] == r.component
  {
    if body.ref.None? then Inline
    else match c.resolveRef(body.ref.value)
      case InvalidReference(_) => UnresolvedReference
      case Resolved(name) =>
        var key := Trim(name);
        if document.components.None? || document.components.value.requestBodies.None? then MissingComponent
        else match Get(document.components.value.requestBodies.value, key)
          case None => MissingComponent
          case Some(component) => Referenced(component)
  }

  // ---------------------------------------------------------------------------
  // Encoding headers
  // ---------------------------------------------------------------------------

  /** The header names seen so far (escaped), and the header parameters and diagnostics. */
  datatype HeaderState = HeaderState(headerList: seq<string>, headerSchemas: seq<Parameter>,
                                     diagnostics: seq<Diagnostic>)

  function HeadersOf(encoding: Encoding): seq<(string, Header)> {
    if encoding.headers.Some? then encoding.headers.value else []
  }

  /** Generates the header parameter for `header` and records its escaped name. */
  function Admit(st: HeaderState, header: (string, Header), c: Collaborators): (r: HeaderState)
    ensures r.headerList == st.headerList + [c.escape(header.0)]
  {
    var outcome := c.headerParameter(header.0, header.1);
    HeaderState(st.headerList + [c.escape(header.0)],
                st.headerSchemas + (if outcome.parameter.Some? then [outcome.parameter.value] else []),
                st.diagnostics + outcome.diagnostics)
  }

  /** One header: admitted unless a header with the same escaped name was admitted before. */
  function AddHeader(st: HeaderState, header: (string, Header), c: Collaborators): HeaderState {
    if c.escape(header.0) in st.headerList then st else Admit(st, header, c)
  }

  /** The headers of one encoding, in order. */
  function AddHeaders(st: HeaderState, headers: seq<(string, Header)>, c: Collaborators): HeaderState
    decreases |headers|
  {
    if headers == [] then st else AddHeaders(AddHeader(st, headers[0], c), headers[1..], c)
  }

  /** The headers of all encodings, encoding by encoding. */
  function AddEncodings(st: HeaderState, encodings: seq<(string, Encoding)>, c: Collaborators): HeaderState
    decreases |encodings|
  {
    if encodings == [] then st
    else AddEncodings(AddHeaders(st, HeadersOf(encodings[0].1), c), encodings[1..], c)
  }

  /** All headers of all encodings, in document order. */
  function AllHeaders(encodings: seq<(string, Encoding)>): seq<(string, Header)>
    decreases |encodings|
  {
    if encodings == [] then [] else HeadersOf(encodings[0].1) + AllHeaders(encodings[1..])
  }

  /** Admits every header given, unconditionally. */
  function AdmitAll(st: HeaderState, headers: seq<(string, Header)>, c: Collaborators): HeaderState
    decreases |headers|
  {
    if headers == [] then st else AdmitAll(Admit(st, headers[0], c), headers[1..], c)
  }

  /** The escaped names of some headers. */
  function EscapedNames(headers: seq<(string, Header)>, c: Collaborators): (r: seq<string>)
    ensures |r| == |headers|
    ensures forall i :: 0 <= i < |headers| ==> r[i] == c.escape(headers[i].0)
  {
    seq(|headers|, i requires 0 <= i < |headers| => c.escape(headers[i].0))
  }

  /**
   * Reference definition: the headers whose escaped name has not occurred before them (nor
   * in `seen`), each at its first occurrence.
   */
  function FirstOccurrences(headers: seq<(string, Header)>, seen: seq<string>, c: Collaborators)
    : seq<(string, Header)>
    decreases |headers|
  {
    if headers == [] then []
    else if c.escape(headers[0].0) in seen then FirstOccurrences(headers[1..], seen, c)
    else [headers[0]] + FirstOccurrences(headers[1..], seen + [c.escape(headers[0].0)], c)
  }

  /** `headers[j]` is the first header with its escaped name, which is not in `seen`. */
  predicate EarliestAt(headers: seq<(string, Header)>, j: int, seen: seq<string>, c: Collaborators)
    requires 0 <= j < |headers|
  {
    && c.escape(headers[j].0) !in seen
    && forall i :: 0 <= i < j ==> c.escape(headers[i].0) != c.escape(headers[j].0)
  }

  /** Header processing admits exactly the first occurrences, in order. */
  lemma {:induction false} AddHeadersAdmitsFirstOccurrences(st: HeaderState, headers: seq<(string, Header)>,
                                                            c: Collaborators)
    ensures AddHeaders(st, headers, c) == AdmitAll(st, FirstOccurrences(headers, st.headerList, c), c)
    decreases |headers|
  {
    if headers != [] {
      var e := c.escape(headers[0].0);
      if e in st.headerList {
        AddHeadersAdmitsFirstOccurrences(st, headers[1..], c);
      } else {
        var next := Admit(st, headers[0], c);
        AddHeadersAdmitsFirstOccurrences(next, headers[1..], c);
        var rest := FirstOccurrences(headers[1..], st.headerList + [e], c);
        assert FirstOccurrences(headers, st.headerList, c) == [headers[0]] + rest;
        assert ([headers[0]] + rest)[1..] == rest;
      }
    }
  }

  /** Admitting headers appends their escaped names, in order. */
  lemma {:induction false} AdmitAllNames(st: HeaderState, headers: seq<(string, Header)>, c: Collaborators)
    ensures AdmitAll(st, headers, c).headerList == st.headerList + EscapedNames(headers, c)
    decreases |headers|
  {
    if headers != [] {
      AdmitAllNames(Admit(st, headers[0], c), headers[1..], c);
      assert EscapedNames(headers, c) == [c.escape(headers[0].0)] + EscapedNames(headers[1..], c);
    }
  }

  /** The first occurrences have distinct escaped names, none of them already seen. */
  lemma {:induction false} FirstOccurrencesDistinct(headers: seq<(string, Header)>, seen: seq<string>, c: Collaborators)
    ensures var names := EscapedNames(FirstOccurrences(headers, seen, c), c);
      && NoDup(names)
      && forall k :: 0 <= k < |names| ==> names[k] !in seen
    decreases |headers|
  {
    if headers != [] {
      var e := c.escape(headers[0].0);
      var t := headers[1..];
      if e in seen {
        FirstOccurrencesDistinct(t, seen, c);
      } else {
        var seen' := seen + [e];
        FirstOccurrencesDistinct(t, seen', c);
        var rest := EscapedNames(FirstOccurrences(t, seen', c), c);
        var names := EscapedNames(FirstOccurrences(headers, seen, c), c);
        assert names == [e] + rest;
        forall k | 0 <= k < |rest| ensures rest[k] != e && rest[k] !in seen {
          assert rest[k] !in seen';
        }
      }
    }
  }

  /** Each first occurrence is the earliest header with its escaped name: its position. */
  lemma {:induction false} FirstOccurrenceIndex(headers: seq<(string, Header)>, seen: seq<string>, c: Collaborators, k: int)
    returns (j: int)
    requires 0 <= k < |FirstOccurrences(headers, seen, c)|
    ensures 0 <= j < |headers| && FirstOccurrences(headers, seen, c)[k] == headers[j]
    ensures EarliestAt(headers, j, seen, c)
    decreases |headers|
  {
    var e := c.escape(headers[0].0);
    var t := headers[1..];
    var seen' := if e in seen then seen else seen + [e];
    var rest := FirstOccurrences(t, seen', c);
    var f := FirstOccurrences(headers, seen, c);
    assert f == if e in seen then rest else [headers[0]] + rest;
    if e !in seen && k == 0 {
      j := 0;
    } else {
      var k' := if e in seen then k else k - 1;
      assert 0 <= k' < |rest| && f[k] == rest[k'];
      var j' := FirstOccurrenceIndex(t, seen', c, k');
      EarliestShift(headers, j', seen, seen', c);
      j := j' + 1;
    }
  }

  /** Every first occurrence is the earliest header with its escaped name. */
  lemma FirstOccurrencesEarliest(headers: seq<(string, Header)>, seen: seq<string>, c: Collaborators)
    ensures forall k :: 0 <= k < |FirstOccurrences(headers, seen, c)| ==>
      exists j :: 0 <= j < |headers| && FirstOccurrences(headers, seen, c)[k] == headers[j] && EarliestAt(headers, j, seen, c)
  {
    var f := FirstOccurrences(headers, seen, c);
    forall k | 0 <= k < |f|
      ensures exists j :: 0 <= j < |headers| && f[k] == headers[j] && EarliestAt(headers, j, seen, c)
    {
      var j := FirstOccurrenceIndex(headers, seen, c, k);
      assert 0 <= j < |headers| && f[k] == headers[j] && EarliestAt(headers, j, seen, c);
    }
    assert forall k :: 0 <= k < |f| ==>
      exists j :: 0 <= j < |headers| && f[k] == headers[j] && EarliestAt(headers, j, seen, c);
  }

  /** An earliest header of the tail is an earliest header of the whole, given the first
      header's name is in `seen'` and `seen'` only adds that name to `seen`. */
  lemma EarliestShift(headers: seq<(string, Header)>, j': int, seen: seq<string>, seen': seq<string>,
                      c: Collaborators)
    requires |headers| > 0 && 0 <= j' < |headers| - 1
    requires seen' == seen || seen' == seen + [c.escape(headers[0].0)]
    requires c.escape(headers[0].0) in seen'
    requires EarliestAt(headers[1..], j', seen', c)
    ensures EarliestAt(headers, j' + 1, seen, c)
  {
    var t := headers[1..];
    assert headers[j' + 1] == t[j'];
    forall i | 0 <= i < j' + 1
      ensures c.escape(headers[i].0) != c.escape(headers[j' + 1].0)
    {
      if i > 0 { assert headers[i] == t[i - 1]; }
    }
  }

  /** Every header's escaped name is either seen already or among the first occurrences. */
  lemma {:induction false} FirstOccurrencesComplete(headers: seq<(string, Header)>, seen: seq<string>, c: Collaborators)
    ensures var names := EscapedNames(FirstOccurrences(headers, seen, c), c);
      forall j :: 0 <= j < |headers| ==> c.escape(headers[j].0) in seen || c.escape(headers[j].0) in names
    decreases |headers|
  {
    if headers != [] {
      var e := c.escape(headers[0].0);
      var t := headers[1..];
      var seen' := if e in seen then seen else seen + [e];
      FirstOccurrencesComplete(t, seen', c);
      var rest := EscapedNames(FirstOccurrences(t, seen', c), c);
      var names := EscapedNames(FirstOccurrences(headers, seen, c), c);
      assert names == if e in seen then rest else [e] + rest;
      forall j | 0 <= j < |headers|
        ensures c.escape(headers[j].0) in seen || c.escape(headers[j].0) in names
      {
        if j > 0 {
          assert headers[j] == t[j - 1];
        }
      }
    }
  }

  /** Processing encoding by encoding is processing all their headers in one run. */
  lemma {:induction false} AddEncodingsFlattens(st: HeaderState, encodings: seq<(string, Encoding)>, c: Collaborators)
    ensures AddEncodings(st, encodings, c) == AddHeaders(st, AllHeaders(encodings), c)
    decreases |encodings|
  {
    if encodings != [] {
      var first := HeadersOf(encodings[0].1);
      AddHeadersAppend(st, first, AllHeaders(encodings[1..]), c);
      AddEncodingsFlattens(AddHeaders(st, first, c), encodings[1..], c);
    }
  }

  lemma {:induction false} AddHeadersAppend(st: HeaderState, a: seq<(string, Header)>, b: seq<(string, Header)>,
                                            c: Collaborators)
    ensures AddHeaders(st, a + b, c) == AddHeaders(AddHeaders(st, a, c), b, c)
    decreases |a|
  {
    if a == [] {
      assert a + b == b;
    } else {
      assert (a + b)[0] == a[0];
      assert (a + b)[1..] == a[1..] + b;
      AddHeadersAppend(AddHeader(st, a[0], c), a[1..], b, c);
    }
  }

  /**
   * Header extraction over all encodings, starting with no names seen: one header parameter
   * per distinct escaped name, generated from that name's first occurrence, and the names
   * recorded once each.
   */
  lemma ExtractHeadersOncePerName(st: HeaderState, encodings: seq<(string, Encoding)>, c: Collaborators)
    requires st.headerList == []
    ensures var all := AllHeaders(encodings);
      var firsts := FirstOccurrences(all, [], c);
      && AddEncodings(st, encodings, c) == AdmitAll(st, firsts, c)
      && AddEncodings(st, encodings, c).headerList == EscapedNames(firsts, c)
      && NoDup(AddEncodings(st, encodings, c).headerList)
      && (forall j :: 0 <= j < |all| ==> c.escape(all[j].0) in AddEncodings(st, encodings, c).headerList)
      && (forall k :: 0 <= k < |firsts| ==> exists j :: 0 <= j < |all| && firsts[k] == all[j] && EarliestAt(all, j, [], c))
  {
    var all := AllHeaders(encodings);
    AddEncodingsFlattens(st, encodings, c);
    AddHeadersAdmitsFirstOccurrences(st, all, c);
    AdmitAllNames(st, FirstOccurrences(all, [], c), c);
    FirstOccurrencesDistinct(all, [], c);
    FirstOccurrencesEarliest(all, [], c);
    FirstOccurrencesComplete(all, [], c);
  }

  // ---------------------------------------------------------------------------
  // The generator
  // ---------------------------------------------------------------------------

  class RequestBodyGenerator {
    const openAPI: Document
    const requestBody: RequestBody
    const collaborators: Collaborators
    var diagnostics: seq<Diagnostic>
    var headerSchemas: seq<Parameter>

    constructor(requestBody: RequestBody, openAPI: Document, collaborators: Collaborators)
      ensures this.requestBody == requestBody && this.openAPI == openAPI
      ensures this.collaborators == collaborators
      ensures diagnostics == [] && headerSchemas == []
    {
      this.requestBody := requestBody;
      this.openAPI := openAPI;
      this.collaborators := collaborators;
      diagnostics := [];
      headerSchemas := [];
    }

    /**
     * `generateParameterNode`. A reference that cannot be resolved to a name reports
     * OAS_CLIENT_109; one whose component is missing throws; a referenced body lends its
     * content and description. The payload parameter and the headers come from the first
     * content entry only.
     */
    method GenerateParameterNode() returns (r: Result<Option<ParamNode>>)
      modifies this, requestBody
      ensures var src := ResolveContent(requestBody, openAPI, collaborators);
        && (src.UnresolvedReference? ==>
              && r == Ok(None) && headerSchemas == old(headerSchemas)
              && diagnostics == old(diagnostics) + [Diag(OAS_CLIENT_109, [requestBody.ref.value])]
              && requestBody.description == old(requestBody.description))
        && (src.MissingComponent? ==>
              && r == Err(NullPointer) && headerSchemas == old(headerSchemas)
              && diagnostics == old(diagnostics) && requestBody.description == old(requestBody.description))
        && (src.Inline? ==> requestBody.description == old(requestBody.description))
        && (src.Referenced? ==> requestBody.description == old(src.component.description))
        && ((src.Inline? || src.Referenced?) ==>
              var content := if src.Inline? then requestBody.content else src.component.content;
              && r == Ok(BodyParameter(content, collaborators))
              && var st := HeaderState([], old(headerSchemas), old(diagnostics));
                 var after :=
                   if content.Some? && content.value != []
                      && FirstEntry(content.value[0].0, content.value[0].1, collaborators).extractsHeaders
                      && content.value[0].1.encoding.Some?
                   then AddEncodings(st, content.value[0].1.encoding.value, collaborators)
                   else st;
                 headerSchemas == after.headerSchemas && diagnostics == after.diagnostics)
    {
      var c := collaborators;
      var src := ResolveContent(requestBody, openAPI, c);
      var content: Option<seq<(string, MediaType)>>;
      if requestBody.ref.Some? {
        if src.UnresolvedReference? {
          diagnostics := diagnostics + [Diag(OAS_CLIENT_109, [requestBody.ref.value])];
          return Ok(None);
        }
        if src.MissingComponent? {
          return Err(NullPointer);
        }
        var referenced := src.component;
        content := referenced.content;
        requestBody.description := referenced.description;
      } else {
        content := requestBody.content;
      }
      if content.None? || content.value == [] {
        return Ok(None);
      }
      var key := content.value[0].0;
      var media := content.value[0].1;
      var entry := FirstEntry(key, media, c);
      if entry.extractsHeaders {
        ExtractHeaders(media);
      }
      match entry.typ {
        case None => r := Ok(None);
        case Some(t) => r := Ok(Some(Required(PayloadName(t), t)));
      }
    }

    /** `extractHeaders`: the encoding headers, once per escaped name. */
    method ExtractHeaders(media: MediaType)
      modifies this
      ensures var st := HeaderState([], old(headerSchemas), old(diagnostics));
        var after := if media.encoding.Some? then AddEncodings(st, media.encoding.value, collaborators) else st;
        headerSchemas == after.headerSchemas && diagnostics == after.diagnostics
    {
      if media.encoding.None? {
        return;
      }
      var encodings := media.encoding.value;
      var headerList: seq<string> := [];
      ghost var start := HeaderState([], headerSchemas, diagnostics);
      for i := 0 to |encodings|
        invariant AddEncodings(HeaderState(headerList, headerSchemas, diagnostics), encodings[i..], collaborators)
                  == AddEncodings(start, encodings, collaborators)
      {
        assert encodings[i..][1..] == encodings[i + 1..];
        var headers := HeadersOf(encodings[i].1);
        ghost var before := HeaderState(headerList, headerSchemas, diagnostics);
        for k := 0 to |headers|
          invariant AddHeaders(HeaderState(headerList, headerSchemas, diagnostics), headers[k..], collaborators)
                    == AddHeaders(before, headers, collaborators)
        {
          assert headers[k..][1..] == headers[k + 1..];
          ghost var cur := HeaderState(headerList, headerSchemas, diagnostics);
          var name := collaborators.escape(headers[k].0);
          if name !in headerList {
            var outcome := collaborators.headerParameter(headers[k].0, headers[k].1);
            if outcome.parameter.Some? {
              headerSchemas := headerSchemas + [outcome.parameter.value];
            }
            diagnostics := diagnostics + outcome.diagnostics;
            headerList := headerList + [name];
          }
          assert HeaderState(headerList, headerSchemas, diagnostics) == AddHeader(cur, headers[k], collaborators);
        }
        assert headers[|headers|..] == [];
      }
    }
  }
}
