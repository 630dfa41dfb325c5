/**
 * The client generator variant that binds status-code responses: five module-level helper
 * declarations, an extra `jballerina.java` import, and a private `...Impl` function paired
 * with every public function. The variant extends the client generator; here its overriding
 * methods take the base generator object and call the base methods on it.
 */
module StatusCodeBinding {
  import opened Common
  import opened Diagnostics
  import opened Syntax
  import opened OpenApi
  import opened RemoteFunction
  import opened ResourceFunction
  import opened ClientGenerator

  /** A module-level declaration of the generated client module. */
  datatype ModuleMember =
    | SetModuleFunction        // `function setModule() = @java:Method {...} external;`
    | ModuleInitFunction       // `function init() { setModule(); }`
    | ClientMethodImplType     // `type ClientMethodImpl record {| string name; |};`
    | MethodImplAnnotation     // `annotation ClientMethodImpl MethodImpl on function;`
    | ClientErrorType          // `type ClientMethodInvocationError http:ClientError;`
    | ClientClass              // the client class itself

  /** An import declaration `import <org>/<name>;`. */
  datatype Import = Import(org: string, moduleName: string)

  const HttpImport := Import("ballerina", "http")
  const JavaImport := Import("ballerina", "jballerina.java")

  /** The five helper declarations, in the order they are emitted. */
  const Helpers: seq<ModuleMember> :=
    [SetModuleFunction, ModuleInitFunction, ClientMethodImplType, MethodImplAnnotation, ClientErrorType]

  /** The base generator's module members: the client class alone. */
  function BaseModuleMembers(): (r: seq<ModuleMember>)
    ensures r == [ClientClass]
  {
    [ClientClass]
  }

  /** The helper declarations, then the base generator's declarations. */
  function ModuleMemberDeclarations(): (r: seq<ModuleMember>)
    ensures |r| == 6 && r[..5] == Helpers && r[5..] == BaseModuleMembers()
    ensures forall h :: h in Helpers ==> multiset(r)[h] == 1
    ensures r[|r| - 1] == ClientClass
  {
    Helpers + BaseModuleMembers()
  }

  /** The base generator's imports: `ballerina/http`. */
  function BaseImportDeclarations(): (r: seq<Import>)
    ensures r == [HttpImport]
  {
    [HttpImport]
  }

  /** The base generator's imports, then `ballerina/jballerina.java`. */
  function ImportDeclarations(): (r: seq<Import>)
    ensures |r| == 2 && r[..1] == BaseImportDeclarations() && r[1] == JavaImport
    ensures NoDup(r)
  {
    BaseImportDeclarations() + [JavaImport]
  }

  /**
   * The impl signature generator as the impl builder uses it. The body generator is handed its
   * header and query flags as they stand right after construction, before any signature is
   * generated; `generated` is what generating the signature afterwards reports.
   */
  datatype ImplSignatureGenerator = ImplSignatureGenerator(
    hasHeaders: bool,
    hasDefaultHeaders: bool,
    hasQueries: bool,
    generated: SignatureOutcome)

  /** The impl function's body generator, given the impl signature generator's header and
      query flags, whether there is a default response, and the other status codes. */
  type ImplBodyGenerator = (bool, bool, bool, bool, seq<string>) -> BodyOutcome

  /** The impl function's name: the operation id (`null` when absent) followed by "Impl". */
  function ImplName(operationId: Option<string>): (r: string)
    ensures |r| >= 4 && r[|r| - 4..] == "Impl"
    ensures operationId.Some? ==> r[..|r| - 4] == operationId.value
  {
    NullText(operationId) + "Impl"
  }

  /** `private isolated function <operationId>Impl`. */
  function ImplDefinition(operationId: Option<string>, signature: Signature, body: FunctionBody): (f: FunctionDef)
    ensures f.kind == ObjectMethod && f.qualifiers == [Private, Isolated]
    ensures f.name == Some(ImplName(operationId)) && f.relativePath == []
    ensures f.signature == signature && f.body == body
  {
    FunctionDef(ObjectMethod, [Private, Isolated], Some(ImplName(operationId)), [], signature, body)
  }

  /**
   * What building an impl function yields: the body comes first and its diagnostics are
   * always kept; the signature diagnostics never are. No body, or no signature, means no
   * impl function.
   */
  function ImplPipeline(operationId: Option<string>, implSig: ImplSignatureGenerator, body: ImplBodyGenerator,
                        hasDefaultResponse: bool, nonDefaultStatusCodes: seq<string>): (g: Generated)
    ensures var b := body(implSig.hasHeaders, implSig.hasDefaultHeaders, implSig.hasQueries, hasDefaultResponse,
                          nonDefaultStatusCodes);
      && g.diagnostics == b.diagnostics
      && (g.definition.Some? <==> b.body.Some? && implSig.generated.signature.Some?)
      && (g.definition.Some? ==>
            g.definition.value == ImplDefinition(operationId, implSig.generated.signature.value, b.body.value))
  {
    var b := body(implSig.hasHeaders, implSig.hasDefaultHeaders, implSig.hasQueries, hasDefaultResponse,
                  nonDefaultStatusCodes);
    if b.body.None? then Generated(None, b.diagnostics)
    else if implSig.generated.signature.None? then Generated(None, b.diagnostics)
    else Generated(Some(ImplDefinition(operationId, implSig.generated.signature.value, b.body.value)), b.diagnostics)
  }

  /** The impl body sees only the flags read before the signature is generated: whatever
      generating the signature reports about headers and queries changes nothing. */
  lemma ImplBodyIgnoresLateFlags(operationId: Option<string>, implSig: ImplSignatureGenerator, late: SignatureOutcome,
                                 body: ImplBodyGenerator, hasDefaultResponse: bool, nonDefaultStatusCodes: seq<string>)
    requires late.signature == implSig.generated.signature
    ensures ImplPipeline(operationId, implSig.(generated := late), body, hasDefaultResponse, nonDefaultStatusCodes)
         == ImplPipeline(operationId, implSig, body, hasDefaultResponse, nonDefaultStatusCodes)
  {
  }

  /** The diagnostic recorded when no impl function could be built. */
  function ImplFailure(operationId: Option<string>): (d: Diagnostic)
    ensures d.Client? && d.message == OAS_CLIENT_112 && d.args == [NullText(operationId)]
  {
    Diag(OAS_CLIENT_112, [NullText(operationId)])
  }

  /**
   * The node list and diagnostics after pairing the just-added public function with its impl:
   * the impl is appended, or else the public function is dropped and OAS_CLIENT_112 recorded.
   */
  function PairWithImpl(nodes: seq<FunctionDef>, diagnostics: seq<Diagnostic>, operationId: Option<string>,
                        impl: Generated): (r: (seq<FunctionDef>, seq<Diagnostic>))
    requires nodes != []
    ensures impl.definition.Some? ==> r.0 == nodes + [impl.definition.value] && r.1 == diagnostics + impl.diagnostics
    ensures impl.definition.None? ==>
      r.0 == nodes[..|nodes| - 1] && r.1 == diagnostics + impl.diagnostics + [ImplFailure(operationId)]
  {
    if impl.definition.Some? then (nodes + [impl.definition.value], diagnostics + impl.diagnostics)
    else (nodes[..|nodes| - 1], diagnostics + impl.diagnostics + [ImplFailure(operationId)])
  }

  /** A public function just added is either followed by its impl or removed again, which gives
      back the list as it was before the public function was added. */
  lemma PairWithImplOutcome(before: seq<FunctionDef>, public: FunctionDef, diagnostics: seq<Diagnostic>,
                            operationId: Option<string>, impl: Generated)
    ensures var r := PairWithImpl(before + [public], diagnostics, operationId, impl);
      && (impl.definition.Some? ==> r.0 == before + [public, impl.definition.value] && |r.0| == |before| + 2)
      && (impl.definition.None? ==> r.0 == before && ImplFailure(operationId) in r.1)
  {
    var nodes := before + [public];
    assert nodes[..|nodes| - 1] == before;
  }

  /** Builds the impl function, merging the body generator's diagnostics into the client's. */
  method CreateImplFunction(g: BallerinaClientGenerator, operation: Operation, implSig: ImplSignatureGenerator,
                            implBody: ImplBodyGenerator, hasDefaultResponse: bool, nonDefaultStatusCodes: seq<string>)
    returns (r: Option<FunctionDef>)
    modifies g
    ensures var impl := ImplPipeline(operation.operationId, implSig, implBody, hasDefaultResponse, nonDefaultStatusCodes);
      r == impl.definition && g.diagnostics == old(g.diagnostics) + impl.diagnostics
    ensures g.remoteFunctionNameList == old(g.remoteFunctionNameList) && g.serverURL == old(g.serverURL)
    ensures g.apiKeyNameList == old(g.apiKeyNameList)
  {
    var functionName := ImplName(operation.operationId);
    var bodyOutcome := implBody(implSig.hasHeaders, implSig.hasDefaultHeaders, implSig.hasQueries,
      hasDefaultResponse, nonDefaultStatusCodes);
    g.diagnostics := g.diagnostics + bodyOutcome.diagnostics;
    if bodyOutcome.body.None? {
      return None;
    }
    var functionBodyNode := bodyOutcome.body.value;
    var functionSignatureNode := implSig.generated.signature;
    if functionSignatureNode.None? {
      return None;
    }
    r := Some(FunctionDef(ObjectMethod, [Private, Isolated], Some(functionName), [], functionSignatureNode.value,
      functionBodyNode));
  }

  /** Pairs the last function of the list with its impl, or removes it when no impl is built. */
  method AddClientFunctionImpl(g: BallerinaClientGenerator, operation: Operation, clientFunctionNodes: FunctionList,
                               implSig: ImplSignatureGenerator, implBody: ImplBodyGenerator,
                               hasDefaultResponse: bool, nonDefaultStatusCodes: seq<string>)
    requires clientFunctionNodes.nodes != []
    modifies g, clientFunctionNodes
    ensures var impl := ImplPipeline(operation.operationId, implSig, implBody, hasDefaultResponse, nonDefaultStatusCodes);
      (clientFunctionNodes.nodes, g.diagnostics)
      == PairWithImpl(old(clientFunctionNodes.nodes), old(g.diagnostics), operation.operationId, impl)
    ensures g.remoteFunctionNameList == old(g.remoteFunctionNameList) && g.serverURL == old(g.serverURL)
    ensures g.apiKeyNameList == old(g.apiKeyNameList)
  {
    var implFunction := CreateImplFunction(g, operation, implSig, implBody, hasDefaultResponse, nonDefaultStatusCodes);
    if implFunction.Some? {
      clientFunctionNodes.nodes := clientFunctionNodes.nodes + [implFunction.value];
    } else {
      g.diagnostics := g.diagnostics + [Diag(OAS_CLIENT_112, [NullText(operation.operationId)])];
      clientFunctionNodes.nodes := clientFunctionNodes.nodes[..|clientFunctionNodes.nodes| - 1];
    }
  }

  /**
   * The overriding `addRemoteFunction`: the base method, then, on success only, the impl
   * pairing. The base result is returned unchanged, even when the impl failed.
   */
  method AddRemoteFunction(g: BallerinaClientGenerator, operation: Operation, path: string,
                           sig: SignatureOutcome, body: BodyGenerator, functionNodes: FunctionList,
                           implSig: ImplSignatureGenerator, implBody: ImplBodyGenerator)
    returns (result: FunctionGeneratorResults)
    modifies g, functionNodes
    ensures var base := RemotePipeline(operation.operationId, sig, body);
      && g.remoteFunctionNameList == old(g.remoteFunctionNameList) + [operation.operationId]
      && result.isSuccess == base.definition.Some?
      && (result.isSuccess ==>
            result.hasDefaultStatusCodeBinding == sig.hasDefaultStatusCodeBinding
            && result.nonDefaultStatusCodes == sig.nonDefaultStatusCodes)
      && (!result.isSuccess ==>
            result == FromStatus(false) && functionNodes.nodes == old(functionNodes.nodes)
            && g.diagnostics == old(g.diagnostics) + base.diagnostics)
      && (result.isSuccess ==>
            var impl := ImplPipeline(operation.operationId, implSig, implBody,
              sig.hasDefaultStatusCodeBinding, sig.nonDefaultStatusCodes);
            (functionNodes.nodes, g.diagnostics)
            == PairWithImpl(old(functionNodes.nodes) + [base.definition.value], old(g.diagnostics) + base.diagnostics,
                 operation.operationId, impl))
    ensures g.serverURL == old(g.serverURL) && g.apiKeyNameList == old(g.apiKeyNameList)
  {
    result := g.AddRemoteFunction(operation, path, sig, body, functionNodes);
    if result.isSuccess {
      AddClientFunctionImpl(g, operation, functionNodes, implSig, implBody,
        result.hasDefaultStatusCodeBinding, result.nonDefaultStatusCodes);
    }
  }

  /** The overriding `addResourceFunction`, under the same rules. */
  method AddResourceFunction(g: BallerinaClientGenerator, httpMethod: HttpMethod, operation: Operation,
                             path: string, paths: PathOutcome, sig: SignatureOutcome, body: BodyGenerator,
                             functionNodes: FunctionList, implSig: ImplSignatureGenerator, implBody: ImplBodyGenerator)
    returns (result: FunctionGeneratorResults)
    modifies g, functionNodes
    ensures var base := ResourcePipeline(httpMethod, path, paths, sig, body);
      && g.remoteFunctionNameList == old(g.remoteFunctionNameList) + [operation.operationId]
      && result.isSuccess == base.definition.Some?
      && (result.isSuccess ==>
            result.hasDefaultStatusCodeBinding == sig.hasDefaultStatusCodeBinding
            && result.nonDefaultStatusCodes == sig.nonDefaultStatusCodes)
      && (!result.isSuccess ==>
            result == FromStatus(false) && functionNodes.nodes == old(functionNodes.nodes)
            && g.diagnostics == old(g.diagnostics) + base.diagnostics)
      && (result.isSuccess ==>
            var impl := ImplPipeline(operation.operationId, implSig, implBody,
              sig.hasDefaultStatusCodeBinding, sig.nonDefaultStatusCodes);
            (functionNodes.nodes, g.diagnostics)
            == PairWithImpl(old(functionNodes.nodes) + [base.definition.value], old(g.diagnostics) + base.diagnostics,
                 operation.operationId, impl))
    ensures g.serverURL == old(g.serverURL) && g.apiKeyNameList == old(g.apiKeyNameList)
  {
    result := g.AddResourceFunction(httpMethod, operation, path, paths, sig, body, functionNodes);
    if result.isSuccess {
      AddClientFunctionImpl(g, operation, functionNodes, implSig, implBody,
        result.hasDefaultStatusCodeBinding, result.nonDefaultStatusCodes);
    }
  }
}
