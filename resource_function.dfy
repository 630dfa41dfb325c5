/**
 * The resource-function pipeline for one operation: relative resource path, then signature,
 * then body, then the `resource isolated function <method> <path>` definition. The path,
 * signature and body generators are collaborators: the model is given what they report.
 */
module ResourceFunction {
  import opened Common
  import opened Diagnostics
  import opened Syntax

  /** What `GeneratorUtils.getRelativeResourcePath` does: the path segments and the diagnostics
      it collected, or a thrown `BallerinaOpenApiException`. */
  datatype PathOutcome = PathOk(segments: seq<string>, pathDiagnostics: seq<Diagnostic>) | PathThrows

  /** The path diagnostic code that marks an unsupported path-parameter type. */
  const UnsupportedPathParameter := "OAS_COMMON_204"

  /** Whether a path diagnostic reports an unsupported path-parameter type. */
  predicate IsUnsupported(d: Diagnostic) {
    CodeOf(d) == UnsupportedPathParameter
  }

  /** How many of the path diagnostics report an unsupported path-parameter type. */
  function UnsupportedCount(pathDiagnostics: seq<Diagnostic>): (n: nat)
    ensures n <= |pathDiagnostics|
  {
    if pathDiagnostics == [] then 0
    else
      UnsupportedCount(pathDiagnostics[..|pathDiagnostics| - 1])
        + (if IsUnsupported(pathDiagnostics[|pathDiagnostics| - 1]) then 1 else 0)
  }

  /** The diagnostics a rejected path turns into: one OAS_CLIENT_110 naming the path and the
      method for every OAS_COMMON_204, and nothing for any other path diagnostic. */
  function Translate204(pathDiagnostics: seq<Diagnostic>, path: string, methodName: string): (r: seq<Diagnostic>)
    ensures |r| <= |pathDiagnostics|
  {
    if pathDiagnostics == [] then []
    else
      var init := pathDiagnostics[..|pathDiagnostics| - 1];
      var last := pathDiagnostics[|pathDiagnostics| - 1];
      assert forall i :: 0 <= i < |init| ==> init[i] == pathDiagnostics[i];
      Translate204(init, path, methodName)
        + (if IsUnsupported(last) then [Diag(OAS_CLIENT_110, [path, methodName])] else [])
  }

  /** Translating one more path diagnostic appends at most one OAS_CLIENT_110. */
  lemma Translate204Snoc(pathDiagnostics: seq<Diagnostic>, d: Diagnostic, path: string, methodName: string)
    ensures Translate204(pathDiagnostics + [d], path, methodName) ==
      Translate204(pathDiagnostics, path, methodName) + (if IsUnsupported(d) then [Diag(OAS_CLIENT_110, [path, methodName])] else [])
  {
    assert (pathDiagnostics + [d])[..|pathDiagnostics|] == pathDiagnostics;
  }

  /** A rejected path yields one OAS_CLIENT_110 for this path and method per OAS_COMMON_204, and nothing else. */
  lemma {:induction false} Translate204Count(pathDiagnostics: seq<Diagnostic>, path: string, methodName: string)
    ensures |Translate204(pathDiagnostics, path, methodName)| == UnsupportedCount(pathDiagnostics)
    ensures forall d :: d in Translate204(pathDiagnostics, path, methodName) ==> d == Diag(OAS_CLIENT_110, [path, methodName])
  {
    if pathDiagnostics != [] {
      Translate204Count(pathDiagnostics[..|pathDiagnostics| - 1], path, methodName);
    }
  }

  /** A rejected path yields some OAS_CLIENT_110 exactly when one of its diagnostics is an OAS_COMMON_204. */
  lemma {:induction false} Translate204NonEmpty(pathDiagnostics: seq<Diagnostic>, path: string, methodName: string)
    ensures Translate204(pathDiagnostics, path, methodName) != [] <==>
      exists i :: 0 <= i < |pathDiagnostics| && IsUnsupported(pathDiagnostics[i])
  {
    if pathDiagnostics != [] {
      var n := |pathDiagnostics| - 1;
      var init := pathDiagnostics[..n];
      Translate204NonEmpty(init, path, methodName);
      if IsUnsupported(pathDiagnostics[n]) {
        assert Translate204(pathDiagnostics, path, methodName) != [];
      } else if Translate204(pathDiagnostics, path, methodName) != [] {
        var i :| 0 <= i < |init| && IsUnsupported(init[i]);
        assert pathDiagnostics[i] == init[i];
      } else {
        forall i | 0 <= i < |pathDiagnostics|
          ensures !IsUnsupported(pathDiagnostics[i])
        {
          if i < n {
            assert pathDiagnostics[i] == init[i];
          }
        }
      }
    }
  }

  /** The function definition a resource function generator builds. */
  function ResourceDefinition(httpMethod: HttpMethod, segments: seq<string>, signature: Signature, body: FunctionBody)
    : (f: FunctionDef)
    ensures f.kind == ResourceAccessor && f.qualifiers == [Resource, Isolated]
    ensures f.name == Some(LowerMethodName(httpMethod)) && f.relativePath == segments
    ensures f.signature == signature && f.body == body
  {
    FunctionDef(ResourceAccessor, [Resource, Isolated], Some(LowerMethodName(httpMethod)), segments, signature, body)
  }

  /**
   * What generating one resource function yields. Any path diagnostic means no function; a
   * thrown path exception means no function and no diagnostic; signature diagnostics are
   * merged once the path is accepted; body diagnostics only when no body was produced.
   */
  function ResourcePipeline(httpMethod: HttpMethod, path: string, paths: PathOutcome, sig: SignatureOutcome,
                    body: BodyGenerator): (g: Generated)
    ensures g.definition.Some? <==>
      paths.PathOk? && paths.pathDiagnostics == [] && sig.signature.Some?
      && body(sig.hasHeaders, sig.hasDefaultHeaders, sig.hasQueries).body.Some?
    ensures g.definition.Some? ==>
      g.definition.value == ResourceDefinition(httpMethod, paths.segments, sig.signature.value,
        body(sig.hasHeaders, sig.hasDefaultHeaders, sig.hasQueries).body.value)
    ensures paths.PathThrows? ==> g.diagnostics == []
    ensures paths.PathOk? && paths.pathDiagnostics != [] ==>
      g.diagnostics == Translate204(paths.pathDiagnostics, path, LowerMethodName(httpMethod))
    ensures paths.PathOk? && paths.pathDiagnostics == [] && (sig.signature.None? || g.definition.Some?) ==>
      g.diagnostics == sig.diagnostics
    ensures paths.PathOk? && paths.pathDiagnostics == [] && sig.signature.Some? && g.definition.None? ==>
      g.diagnostics == sig.diagnostics + body(sig.hasHeaders, sig.hasDefaultHeaders, sig.hasQueries).diagnostics
  {
    match paths
    case PathThrows => Generated(None, [])
    case PathOk(segments, pathDiagnostics) =>
      if pathDiagnostics != [] then Generated(None, Translate204(pathDiagnostics, path, LowerMethodName(httpMethod)))
      else if sig.signature.None? then Generated(None, sig.diagnostics)
      else
        var b := body(sig.hasHeaders, sig.hasDefaultHeaders, sig.hasQueries);
        if b.body.None? then Generated(None, sig.diagnostics + b.diagnostics)
        else Generated(Some(ResourceDefinition(httpMethod, segments, sig.signature.value, b.body.value)), sig.diagnostics)
  }

  class ResourceFunctionGenerator {
    const httpMethod: HttpMethod
    const path: string
    /** What the relative-resource-path helper reports for this operation. */
    const pathGenerator: PathOutcome
    /** What the resource function signature generator reports for this operation. */
    const signatureGenerator: SignatureOutcome
    /** The body generator for this operation. */
    const bodyGenerator: BodyGenerator
    var diagnostics: seq<Diagnostic>

    constructor(httpMethod: HttpMethod, path: string, pathGenerator: PathOutcome,
                signatureGenerator: SignatureOutcome, bodyGenerator: BodyGenerator)
      ensures this.httpMethod == httpMethod && this.path == path && this.pathGenerator == pathGenerator
      ensures this.signatureGenerator == signatureGenerator && this.bodyGenerator == bodyGenerator
      ensures diagnostics == []
    {
      this.httpMethod := httpMethod;
      this.path := path;
      this.pathGenerator := pathGenerator;
      this.signatureGenerator := signatureGenerator;
      this.bodyGenerator := bodyGenerator;
      diagnostics := [];
    }

    method GenerateFunction() returns (r: Option<FunctionDef>)
      modifies this
      ensures r == ResourcePipeline(httpMethod, path, pathGenerator, signatureGenerator, bodyGenerator).definition
      ensures diagnostics ==
        old(diagnostics) + ResourcePipeline(httpMethod, path, pathGenerator, signatureGenerator, bodyGenerator).diagnostics
    {
      ghost var g := ResourcePipeline(httpMethod, path, pathGenerator, signatureGenerator, bodyGenerator);
      var methodName := LowerMethodName(httpMethod);
      if pathGenerator.PathThrows? {
        return None;
      }
      var pathDiagnostics := pathGenerator.pathDiagnostics;
      if pathDiagnostics != [] {
        ReportPathDiagnostics(pathDiagnostics, methodName);
        return None;
      }
      var sig := signatureGenerator;
      diagnostics := diagnostics + sig.diagnostics;
      if sig.signature.None? {
        return None;
      }
      var body := GetFunctionBodyNode(sig.hasHeaders, sig.hasDefaultHeaders, sig.hasQueries);
      if body.None? {
        return None;
      }
      r := Some(ResourceDefinition(httpMethod, pathGenerator.segments, sig.signature.value, body.value));
    }

    /** Turns every OAS_COMMON_204 path diagnostic into an OAS_CLIENT_110 of this generator. */
    method ReportPathDiagnostics(pathDiagnostics: seq<Diagnostic>, methodName: string)
      modifies this
      ensures diagnostics == old(diagnostics) + Translate204(pathDiagnostics, path, methodName)
    {
      for i := 0 to |pathDiagnostics|
        invariant diagnostics == old(diagnostics) + Translate204(pathDiagnostics[..i], path, methodName)
      {
        assert pathDiagnostics[..i + 1] == pathDiagnostics[..i] + [pathDiagnostics[i]];
        Translate204Snoc(pathDiagnostics[..i], pathDiagnostics[i], path, methodName);
        if IsUnsupported(pathDiagnostics[i]) {
          diagnostics := diagnostics + [Diag(OAS_CLIENT_110, [path, methodName])];
        }
      }
      assert pathDiagnostics[..|pathDiagnostics|] == pathDiagnostics;
    }

    /** Runs the body generator; its diagnostics are kept only when it produced no body. */
    method GetFunctionBodyNode(hasHeaders: bool, hasDefaultHeaders: bool, hasQueries: bool)
      returns (r: Option<FunctionBody>)
      modifies this
      ensures r == bodyGenerator(hasHeaders, hasDefaultHeaders, hasQueries).body
      ensures r.Some? ==> diagnostics == old(diagnostics)
      ensures r.None? ==> diagnostics == old(diagnostics) + bodyGenerator(hasHeaders, hasDefaultHeaders, hasQueries).diagnostics
    {
      var outcome := bodyGenerator(hasHeaders, hasDefaultHeaders, hasQueries);
      if outcome.body.None? {
        diagnostics := diagnostics + outcome.diagnostics;
      }
      r := outcome.body;
    }

    /** Delegates to the signature generator. */
    function HasDefaultStatusCodeBinding(): bool {
      signatureGenerator.hasDefaultStatusCodeBinding
    }

    /** Delegates to the signature generator. */
    function GetNonDefaultStatusCodes(): seq<string> {
      signatureGenerator.nonDefaultStatusCodes
    }
  }
}
