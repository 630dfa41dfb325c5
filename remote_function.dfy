/**
 * The remote-function pipeline for one operation: signature first, then body, then the
 * `remote isolated function <operationId>` definition. The signature generator and the body
 * generator are collaborators: the model is given what they report.
 */
module RemoteFunction {
  import opened Common
  import opened Diagnostics
  import opened Syntax

  /** The function definition a remote function generator builds from a signature and a body. */
  function RemoteDefinition(operationId: Option<string>, signature: Signature, body: FunctionBody): (f: FunctionDef)
    ensures f.kind == ObjectMethod && f.qualifiers == [Remote, Isolated]
    ensures f.name == operationId && f.relativePath == []
    ensures f.signature == signature && f.body == body
  {
    FunctionDef(ObjectMethod, [Remote, Isolated], operationId, [], signature, body)
  }

  /**
   * What generating one remote function yields, given the signature generator's report and
   * the body generator. Signature diagnostics are always merged; body diagnostics only when
   * no body was produced; a missing signature stops the pipeline before any body exists.
   */
  function RemotePipeline(operationId: Option<string>, sig: SignatureOutcome, body: BodyGenerator): (g: Generated)
    ensures g.definition.Some? <==>
      sig.signature.Some? && body(sig.hasHeaders, sig.hasDefaultHeaders, sig.hasQueries).body.Some?
    ensures g.definition.Some? ==>
      g.definition.value == RemoteDefinition(operationId, sig.signature.value,
        body(sig.hasHeaders, sig.hasDefaultHeaders, sig.hasQueries).body.value)
    ensures sig.signature.None? || g.definition.Some? ==> g.diagnostics == sig.diagnostics
    ensures sig.signature.Some? && g.definition.None? ==>
      g.diagnostics == sig.diagnostics + body(sig.hasHeaders, sig.hasDefaultHeaders, sig.hasQueries).diagnostics
  {
    if sig.signature.None? then Generated(None, sig.diagnostics)
    else
      var b := body(sig.hasHeaders, sig.hasDefaultHeaders, sig.hasQueries);
      if b.body.None? then Generated(None, sig.diagnostics + b.diagnostics)
      else Generated(Some(RemoteDefinition(operationId, sig.signature.value, b.body.value)), sig.diagnostics)
  }

  class RemoteFunctionGenerator {
    const operationId: Option<string>
    /** What the remote function signature generator reports for this operation. */
    const signatureGenerator: SignatureOutcome
    /** The body generator for this operation. */
    const bodyGenerator: BodyGenerator
    var diagnostics: seq<Diagnostic>

    constructor(operationId: Option<string>, signatureGenerator: SignatureOutcome, bodyGenerator: BodyGenerator)
      ensures this.operationId == operationId && this.signatureGenerator == signatureGenerator
      ensures this.bodyGenerator == bodyGenerator && diagnostics == []
    {
      this.operationId := operationId;
      this.signatureGenerator := signatureGenerator;
      this.bodyGenerator := bodyGenerator;
      diagnostics := [];
    }

    method GenerateFunction() returns (r: Option<FunctionDef>)
      modifies this
      ensures r == RemotePipeline(operationId, signatureGenerator, bodyGenerator).definition
      ensures diagnostics == old(diagnostics) + RemotePipeline(operationId, signatureGenerator, bodyGenerator).diagnostics
    {
      var sig := signatureGenerator;
      diagnostics := diagnostics + sig.diagnostics;
      if sig.signature.None? {
        return None;
      }
      var body := GetFunctionBodyNode(sig.hasHeaders, sig.hasDefaultHeaders, sig.hasQueries);
      if body.None? {
        return None;
      }
      r := Some(RemoteDefinition(operationId, sig.signature.value, body.value));
    }

    /** Runs the body generator; its diagnostics are kept only when it produced no body. */
    method GetFunctionBodyNode(hasHeaders: bool, hasDefaultHeaders: bool, hasQueries: bool)
      returns (r: Option<FunctionBody>)
      modifies this
      ensures r == bodyGenerator(hasHeaders, hasDefaultHeaders, hasQueries).body
      ensures r.Some? ==> diagnostics == old(diagnostics)
      ensures r.None? ==> diagnostics == old(diagnostics) + bodyGenerator(hasHeaders, hasDefaultHeaders, hasQueries).diagnostics
    {
      var outcome := bodyGenerator(hasHeaders, hasDefaultHeaders, hasQueries);
      if outcome.body.None? {
        diagnostics := diagnostics + outcome.diagnostics;
      }
      r := outcome.body;
    }

    /** Delegates to the signature generator. */
    function HasDefaultStatusCodeBinding(): bool {
      signatureGenerator.hasDefaultStatusCodeBinding
    }

    /** Delegates to the signature generator. */
    function GetNonDefaultStatusCodes(): seq<string> {
      signatureGenerator.nonDefaultStatusCodes
    }
  }
}
