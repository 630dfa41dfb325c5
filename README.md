# A verified model of the openapi-tools client generator core

This project models in Dafny the parts of `openapi-tools` that turn an OpenAPI document into a
Ballerina HTTP client, together with two pieces of tooling around it, and proves properties of
the model. The parts modelled are:

- **The client generator** (`ClientGenerator`). It filters operations by tag and operation id.
  It orders the `init` function's parameters: required ones first, then defaultable ones, each
  group in ascending name order, separated by commas. It builds the `init` body, records the
  server URL, and adds one remote or resource function per operation.
- **The status-code-binding client** (`StatusCodeBinding`). It adds the helper declarations and
  the Java import. It pairs every public function with a private `…Impl` function, or drops the
  public function and reports OAS_CLIENT_112.
- **The remote and resource function pipelines** (`RemoteFunction`, `ResourceFunction`). Each
  runs path, then signature, then body, and merges diagnostics by fixed rules.
- **Status-code return types** (`StatusCodeReturnType`): how each response adds a return type,
  a default binding or a non-default status code.
- **The parameter generators** (`Parameters`, `RequestBody`). This covers path parameters, the
  request-body payload parameter, and the multipart encoding headers, each admitted once per
  escaped name.
- **The array type generator** (`ArrayType`). It hoists constrained item types into named types,
  registered once before their definition is generated. It clamps `maxItems`, adds one array
  dimension and parenthesises union and enum items.
- **The mock client body generator** (`MockBody`). It selects a success response, then an
  example, and writes the `return` statement.
- **The `add` command** (`SourceGenerator`): option parsing, required-argument checks, and the
  `[[tool.openapi]]` entry written to `Ballerina.toml`.
- **The build extension's service analysis** (`ServiceAnalysis`). It names the generated
  contract of each HTTP service so that services sharing a base path get different files. It
  also prints the "generation skipped" notice at most once.
- **The client diagnostic catalogue** (`Diagnostics`).

Some things are modelled by fixed conventions:

- **Exceptions** are `Result` values. `Err(Thrown(exception, message))` carries the exception's
  class and message. A dereferenced `null` is `NullPointerException`, an empty-list `get(0)` is
  `IndexOutOfBoundsException`, indexing an empty array is `ArrayIndexOutOfBoundsException`, and unbounded recursion that runs out of fuel is
  `StackOverflowError`.
- **Objects whose fields the source updates are classes.** These are the generators, `Schema`,
  `RequestBody`, the caller's function list and the error latch. Their methods are proved
  against specification functions of the old state.
- **Collaborators whose code is not part of this model are parameters.** These are the type
  handler, the signature and body generators, `escapeIdentifier`, `extractReferenceType`,
  `getBallerinaMediaType`, the status-code table and the normaliser of file names. The model is
  given what they return.

## Model

| member | source | states |
|---|---|---|
| ClientGenerator.ShouldFilterOperation | openapi-core/src/main/java/io/ballerina/openapi/core/generators/client/BallerinaClientGenerator.java:308-320 | Without filters every operation is kept. Otherwise an operation is kept iff one of its tags is in the tag filter or its id is in the operation filter; a null tag list or id never matches |
| ClientGenerator.FilterEdgeCases | openapi-core/src/main/java/io/ballerina/openapi/core/generators/client/BallerinaClientGenerator.java:308-320 | No filter keeps every operation; under a filter an operation with neither tags nor id is dropped |
| ClientGenerator.KeptOperations | openapi-core/src/main/java/io/ballerina/openapi/core/generators/client/BallerinaClientGenerator.java:288-295 | A path keeps exactly the operations that pass the filter, unchanged |
| ClientGenerator.FilteredPaths | openapi-core/src/main/java/io/ballerina/openapi/core/generators/client/BallerinaClientGenerator.java:278-303 | The result holds exactly the paths with at least one kept operation, each with exactly its kept operations |
| ClientGenerator.NoFilterKeepsEverything | openapi-core/src/main/java/io/ballerina/openapi/core/generators/client/BallerinaClientGenerator.java:278-303 | Without a filter every path with an operation is kept whole |
| ClientGenerator.FilterPathOperations | openapi-core/src/main/java/io/ballerina/openapi/core/generators/client/BallerinaClientGenerator.java:288-295 | The inner loop, in any visiting order, builds exactly the kept operations of the path |
| ClientGenerator.FilterOperations | openapi-core/src/main/java/io/ballerina/openapi/core/generators/client/BallerinaClientGenerator.java:278-303 | The outer loop, in any visiting order, returns exactly the filtered paths |
| ClientGenerator.LastOfKindIsLast | openapi-core/src/main/java/io/ballerina/openapi/core/generators/client/BallerinaClientGenerator.java:484-495 | The name map holds, for each name, the last parameter of that kind given under it |
| ClientGenerator.DistinctOfSorted | openapi-core/src/main/java/io/ballerina/openapi/core/generators/client/BallerinaClientGenerator.java:496-506 | The distinct names of a sorted list are strictly ascending (what the insertion-ordered set keeps) |
| ClientGenerator.SortedGroupIsLast | openapi-core/src/main/java/io/ballerina/openapi/core/generators/client/BallerinaClientGenerator.java:484-506 | Every parameter of an output group has the group's kind and is the last one given its name |
| ClientGenerator.SortedGroupAscending | openapi-core/src/main/java/io/ballerina/openapi/core/generators/client/BallerinaClientGenerator.java:496-506 | Each output group is in strictly ascending name order |
| ClientGenerator.SortedGroupComplete | openapi-core/src/main/java/io/ballerina/openapi/core/generators/client/BallerinaClientGenerator.java:484-506 | A group has a parameter for every name of its kind and for no other name |
| ClientGenerator.SortParametersGroups | openapi-core/src/main/java/io/ballerina/openapi/core/generators/client/BallerinaClientGenerator.java:477-515 | The output parameters are the required group followed by the defaultable group; other kinds are dropped |
| ClientGenerator.SortParametersSeparators | openapi-core/src/main/java/io/ballerina/openapi/core/generators/client/BallerinaClientGenerator.java:500-513 | The list is empty iff there is no required or defaultable parameter; otherwise it starts with a parameter and holds one comma fewer than the required and defaultable names it was given (a trailing comma is gone only when names are distinct; see `SortParametersAlternate`) |
| ClientGenerator.SortParametersAlternate | openapi-core/src/main/java/io/ballerina/openapi/core/generators/client/BallerinaClientGenerator.java:500-513 | With no repeated name within a kind, parameters and commas alternate and the list ends with a parameter |
| ClientGenerator.SortParameters | openapi-core/src/main/java/io/ballerina/openapi/core/generators/client/BallerinaClientGenerator.java:477-515 | The method's loops produce exactly the specified node list |
| ClientGenerator.AppendGroup | openapi-core/src/main/java/io/ballerina/openapi/core/generators/client/BallerinaClientGenerator.java:500-507 | One group loop adds each name's parameter unless already in the set, always followed by a new comma |
| ClientGenerator.PartitionParameters | openapi-core/src/main/java/io/ballerina/openapi/core/generators/client/BallerinaClientGenerator.java:484-495 | The first loop yields the names in input order and the last-wins name maps, per kind |
| Common.AscendingOrder | openapi-core/src/main/java/io/ballerina/openapi/core/generators/client/BallerinaClientGenerator.java:517-521 | The result is sorted by `compareTo` and is a permutation of the input |
| Common.SortedPermutationUnique | openapi-core/src/main/java/io/ballerina/openapi/core/generators/client/BallerinaClientGenerator.java:517-521 | Any two sorted permutations of a list are equal, so the sort's result is determined by its input |
| ClientGenerator.InitStatementOrder | openapi-core/src/main/java/io/ballerina/openapi/core/generators/client/BallerinaClientGenerator.java:395-435 | The body opens with the config variable and its do-statement, then creates the client and stores it, and ends with `return`. The mixed-auth branch appears only with API keys and HTTP/OAuth, and the API-key assignment only with API keys alone |
| ClientGenerator.InitStatementsDistinct | openapi-core/src/main/java/io/ballerina/openapi/core/generators/client/BallerinaClientGenerator.java:395-435 | No statement of the `init` body appears twice |
| ClientGenerator.BallerinaClientGenerator.GetInitFunctionBodyNode | openapi-core/src/main/java/io/ballerina/openapi/core/generators/client/BallerinaClientGenerator.java:395-435 | Returns the specified statements; with API keys the header then query key names are recorded, otherwise the list is left as it was |
| ClientGenerator.ServerUrlText | openapi-core/src/main/java/io/ballerina/openapi/core/generators/client/BallerinaClientGenerator.java:447-449 | The recorded URL has no double quote and no leading or trailing whitespace |
| ClientGenerator.ServerUrlOfLiteral | openapi-core/src/main/java/io/ballerina/openapi/core/generators/client/BallerinaClientGenerator.java:447-449 | A quoted string default gives back the URL it quotes, when the URL has no quote and is already trimmed |
| ClientGenerator.ServerUrlTextIdempotent | openapi-core/src/main/java/io/ballerina/openapi/core/generators/client/BallerinaClientGenerator.java:447-449 | Deriving the URL from an already derived URL changes nothing |
| ClientGenerator.BallerinaClientGenerator.GetInitFunctionSignatureNode | openapi-core/src/main/java/io/ballerina/openapi/core/generators/client/BallerinaClientGenerator.java:443-475 | The parameters are the server URL parameter and the auth parameters in sorted order. The server URL is the derived text for a `serviceUrl` default, `/` for a required parameter, and unchanged otherwise. Both generators' diagnostics are merged, the server URL's first |
| ClientGenerator.FromStatus | openapi-core/src/main/java/io/ballerina/openapi/core/generators/client/BallerinaClientGenerator.java:613-615 | The one-argument result has no default binding and no status codes |
| ClientGenerator.BallerinaClientGenerator.AddRemoteFunction | openapi-core/src/main/java/io/ballerina/openapi/core/generators/client/BallerinaClientGenerator.java:618-630 | The operation id is always recorded and the generator's diagnostics always merged. The function is appended and success reported exactly when the pipeline produced one |
| ClientGenerator.BallerinaClientGenerator.AddResourceFunction | openapi-core/src/main/java/io/ballerina/openapi/core/generators/client/BallerinaClientGenerator.java:649-661 | The same rules for a resource function |
| RemoteFunction.RemoteDefinition | openapi-core/src/main/java/io/ballerina/openapi/core/generators/client/RemoteFunctionGenerator.java:98-107 | A `remote isolated` object method named by the operation id, with no relative path, the given signature and body |
| RemoteFunction.RemotePipeline | openapi-core/src/main/java/io/ballerina/openapi/core/generators/client/RemoteFunctionGenerator.java:60-96 | A function exists iff both signature and body exist. Signature diagnostics are always kept; body diagnostics only when there is a signature and no body |
| RemoteFunction.RemoteFunctionGenerator.GenerateFunction | openapi-core/src/main/java/io/ballerina/openapi/core/generators/client/RemoteFunctionGenerator.java:60-85 | The method returns the pipeline's function and appends exactly its diagnostics |
| RemoteFunction.RemoteFunctionGenerator.GetFunctionBodyNode | openapi-core/src/main/java/io/ballerina/openapi/core/generators/client/RemoteFunctionGenerator.java:87-96 | Returns the body generator's body and keeps its diagnostics only when there is no body |
| ResourceFunction.Translate204 | openapi-core/src/main/java/io/ballerina/openapi/core/generators/client/ResourceFunctionGenerator.java:76-85 | The translation never yields more diagnostics than the path reported |
| ResourceFunction.Translate204Count | openapi-core/src/main/java/io/ballerina/openapi/core/generators/client/ResourceFunctionGenerator.java:76-85 | Exactly one diagnostic per OAS_COMMON_204 path diagnostic and none for the others, each an OAS_CLIENT_110 naming the path and the method |
| ResourceFunction.Translate204NonEmpty | openapi-core/src/main/java/io/ballerina/openapi/core/generators/client/ResourceFunctionGenerator.java:76-85 | Some OAS_CLIENT_110 is reported iff some path diagnostic is OAS_COMMON_204 |
| ResourceFunction.Translate204Snoc | openapi-core/src/main/java/io/ballerina/openapi/core/generators/client/ResourceFunctionGenerator.java:78-84 | Each further path diagnostic adds one OAS_CLIENT_110 if it is OAS_COMMON_204 and nothing otherwise, in order |
| ResourceFunction.ResourceDefinition | openapi-core/src/main/java/io/ballerina/openapi/core/generators/client/ResourceFunctionGenerator.java:118-126 | A `resource isolated` accessor named by the lower-case method, with the path segments, signature and body |
| ResourceFunction.ResourcePipeline | openapi-core/src/main/java/io/ballerina/openapi/core/generators/client/ResourceFunctionGenerator.java:64-104 | A function exists iff the path has no diagnostics, and signature and body exist. A thrown path exception gives no diagnostics, a rejected path only the translated ones, and signature and body diagnostics merge as for remote functions |
| ResourceFunction.ResourceFunctionGenerator.GenerateFunction | openapi-core/src/main/java/io/ballerina/openapi/core/generators/client/ResourceFunctionGenerator.java:64-104 | The method returns the pipeline's function and appends exactly its diagnostics |
| ResourceFunction.ResourceFunctionGenerator.ReportPathDiagnostics | openapi-core/src/main/java/io/ballerina/openapi/core/generators/client/ResourceFunctionGenerator.java:76-85 | The loop appends exactly the translated diagnostics |
| ResourceFunction.ResourceFunctionGenerator.GetFunctionBodyNode | openapi-core/src/main/java/io/ballerina/openapi/core/generators/client/ResourceFunctionGenerator.java:107-116 | Returns the body generator's body and keeps its diagnostics only when there is no body |
| StatusCodeBinding.ModuleMemberDeclarations | openapi-core/src/main/java/io/ballerina/openapi/core/generators/client/BallerinaClientGeneratorWithStatusCodeBinding.java:140-151 | The five helper declarations in fixed order, each once, then the base members, ending with the client class |
| StatusCodeBinding.ImportDeclarations | openapi-core/src/main/java/io/ballerina/openapi/core/generators/client/BallerinaClientGeneratorWithStatusCodeBinding.java:132-138 | The base imports followed by `ballerina/jballerina.java`, with no repeats |
| StatusCodeBinding.ImplName | openapi-core/src/main/java/io/ballerina/openapi/core/generators/client/BallerinaClientGeneratorWithStatusCodeBinding.java:221 | The operation id followed by `Impl` |
| StatusCodeBinding.ImplDefinition | openapi-core/src/main/java/io/ballerina/openapi/core/generators/client/BallerinaClientGeneratorWithStatusCodeBinding.java:219-238 | A `private isolated` object method named `<operationId>Impl` with the given signature and body |
| StatusCodeBinding.ImplPipeline | openapi-core/src/main/java/io/ballerina/openapi/core/generators/client/BallerinaClientGeneratorWithStatusCodeBinding.java:210-239 | The body generator is given the header and query flags the impl signature generator reports before the signature is generated (lines 223-229 and 259-261). An impl exists iff the body and the signature exist; the body's diagnostics are always kept and the signature's never |
| StatusCodeBinding.ImplBodyIgnoresLateFlags | openapi-core/src/main/java/io/ballerina/openapi/core/generators/client/BallerinaClientGeneratorWithStatusCodeBinding.java:223-235 | Whatever generating the signature later reports about headers and queries does not change the impl or its diagnostics |
| StatusCodeBinding.ImplFailure | openapi-core/src/main/java/io/ballerina/openapi/core/generators/client/BallerinaClientGeneratorWithStatusCodeBinding.java:186-187 | The failure is OAS_CLIENT_112 naming the operation id |
| StatusCodeBinding.PairWithImpl | openapi-core/src/main/java/io/ballerina/openapi/core/generators/client/BallerinaClientGeneratorWithStatusCodeBinding.java:176-191 | The impl is appended, or the last function is removed and OAS_CLIENT_112 recorded |
| StatusCodeBinding.PairWithImplOutcome | openapi-core/src/main/java/io/ballerina/openapi/core/generators/client/BallerinaClientGeneratorWithStatusCodeBinding.java:176-191 | A public function just added ends up followed by its impl or removed again, giving back the list from before it was added |
| StatusCodeBinding.CreateImplFunction | openapi-core/src/main/java/io/ballerina/openapi/core/generators/client/BallerinaClientGeneratorWithStatusCodeBinding.java:210-239 | Runs the body generator on the flags read before signature generation, then generates the signature; returns the pipeline's impl and merges the body's diagnostics into the client's, changing nothing else |
| StatusCodeBinding.AddClientFunctionImpl | openapi-core/src/main/java/io/ballerina/openapi/core/generators/client/BallerinaClientGeneratorWithStatusCodeBinding.java:176-191 | The caller's list and the diagnostics become what PairWithImpl gives |
| StatusCodeBinding.AddRemoteFunction | openapi-core/src/main/java/io/ballerina/openapi/core/generators/client/BallerinaClientGeneratorWithStatusCodeBinding.java:152-161 | The base method runs first; only on its success is the impl paired; the base result is returned unchanged |
| StatusCodeBinding.AddResourceFunction | openapi-core/src/main/java/io/ballerina/openapi/core/generators/client/BallerinaClientGeneratorWithStatusCodeBinding.java:192-202 | The same rules for a resource function |
| StatusCodeReturnType.UnknownCodeOnlyDiagnoses | openapi-core/src/main/java/io/ballerina/openapi/core/generators/client/FunctionStatusCodeReturnTypeGenerator.java:61-65 | A code with no table entry adds OAS_CLIENT_113 naming it and changes nothing else |
| StatusCodeReturnType.PopulateAppends | openapi-core/src/main/java/io/ballerina/openapi/core/generators/client/FunctionStatusCodeReturnTypeGenerator.java:58-84 | One call only appends, adding at most one return type, exactly one when the code is mapped and its record was generated |
| StatusCodeReturnType.PopulateMonotone | openapi-core/src/main/java/io/ballerina/openapi/core/generators/client/FunctionStatusCodeReturnTypeGenerator.java:71-76 | The default-binding flags never go from true back to false |
| StatusCodeReturnType.BoundNonDefault | openapi-core/src/main/java/io/ballerina/openapi/core/generators/client/FunctionStatusCodeReturnTypeGenerator.java:66-78 | The bound non-default codes, in call order, never include `default` |
| StatusCodeReturnType.PopulateAllNonDefault | openapi-core/src/main/java/io/ballerina/openapi/core/generators/client/FunctionStatusCodeReturnTypeGenerator.java:58-93 | After any sequence of calls the non-default codes are the earlier ones followed by exactly the bound non-default codes |
| StatusCodeReturnType.PopulateAllDefault | openapi-core/src/main/java/io/ballerina/openapi/core/generators/client/FunctionStatusCodeReturnTypeGenerator.java:71-76 | Both default flags are set after a sequence of calls iff some call bound `default` or they were set before |
| StatusCodeReturnType.FunctionStatusCodeReturnTypeGenerator.PopulateReturnType | openapi-core/src/main/java/io/ballerina/openapi/core/generators/client/FunctionStatusCodeReturnTypeGenerator.java:58-84 | The method moves the state as the specification function does and always answers false |
| Diagnostics.Diag | openapi-core/src/main/java/io/ballerina/openapi/core/generators/client/diagnostic/DiagnosticMessages.java:22-88 | A client diagnostic of the given entry with the given arguments. It may only be built with as many arguments as the entry is raised with, and every generator in this model raises its client diagnostics through it, so the count is checked at each raise site |
| Diagnostics.DiagFillsTemplate | openapi-core/src/main/java/io/ballerina/openapi/core/generators/client/diagnostic/DiagnosticMessages.java:24-65 | A diagnostic built through `Diag` has exactly as many arguments as its template has `%s` placeholders |
| Diagnostics.CodeIsEntryName | openapi-core/src/main/java/io/ballerina/openapi/core/generators/client/diagnostic/DiagnosticMessages.java:24-65 | Every code is `OAS_CLIENT_` followed by the entry's number, between 100 and 117 |
| Diagnostics.CodesDistinct | openapi-core/src/main/java/io/ballerina/openapi/core/generators/client/diagnostic/DiagnosticMessages.java:24-65 | No two entries share a code |
| Diagnostics.ErrorEntries | openapi-core/src/main/java/io/ballerina/openapi/core/generators/client/diagnostic/DiagnosticMessages.java:24-65 | Exactly entries 100, 103, 104 and 112 are errors; all others are warnings |
| Diagnostics.PlaceholderCount | openapi-core/src/main/java/io/ballerina/openapi/core/generators/client/diagnostic/DiagnosticMessages.java:24-65 | Every template has exactly as many `%s` placeholders as the arguments it is raised with |
| Parameters.GetSchemaWithDetails | openapi-core/src/main/java/io/ballerina/openapi/core/generators/client/parameter/ParameterGenerator.java:35-44 | Returns the parameter's schema; when there is one, its description, deprecation and extensions become the parameter's and its `maxItems` is untouched |
| Parameters.PathParameter | openapi-core/src/main/java/io/ballerina/openapi/core/generators/client/parameter/PathParameterGenerator.java:52-72 | A parameter exists iff the type is resolved and is neither an array nor a record, and it is required and escaped-named. Otherwise there is exactly one OAS_CLIENT_101 naming the parameter |
| Parameters.PathParameterGenerator.GenerateParameterNode | openapi-core/src/main/java/io/ballerina/openapi/core/generators/client/parameter/PathParameterGenerator.java:52-72 | Returns the specified parameter and appends exactly its diagnostics |
| RequestBody.FirstEntry | openapi-core/src/main/java/io/ballerina/openapi/core/generators/client/parameter/RequestBodyGenerator.java:96-154 | For the first media type: a supported octet-stream gives the media-type name. No type arises iff a supported non-octet referenced schema has no type, or an unsupported multipart form has encodings. Headers are read only for multipart forms |
| RequestBody.PayloadName | openapi-core/src/main/java/io/ballerina/openapi/core/generators/client/parameter/RequestBodyGenerator.java:157 | The parameter is named `request` iff its type is `http:Request`, otherwise `payload` |
| RequestBody.BodyParameter | openapi-core/src/main/java/io/ballerina/openapi/core/generators/client/parameter/RequestBodyGenerator.java:93-162 | Missing or empty content gives no parameter. Otherwise a parameter exists iff the first entry yields a type, and it is required with that type and the payload name |
| RequestBody.ResolveContent | openapi-core/src/main/java/io/ballerina/openapi/core/generators/client/parameter/RequestBodyGenerator.java:75-92 | Inline content iff there is no reference; a resolved reference names a request-body component |
| RequestBody.Admit | openapi-core/src/main/java/io/ballerina/openapi/core/generators/client/parameter/RequestBodyGenerator.java:176-182 | Admitting a header records exactly its escaped name after the names seen so far |
| RequestBody.AddHeadersAdmitsFirstOccurrences | openapi-core/src/main/java/io/ballerina/openapi/core/generators/client/parameter/RequestBodyGenerator.java:171-186 | Walking the headers admits exactly the first occurrence of each escaped name not seen before |
| RequestBody.FirstOccurrencesDistinct | openapi-core/src/main/java/io/ballerina/openapi/core/generators/client/parameter/RequestBodyGenerator.java:175-183 | The admitted names are pairwise distinct and none was seen before |
| RequestBody.FirstOccurrencesEarliest | openapi-core/src/main/java/io/ballerina/openapi/core/generators/client/parameter/RequestBodyGenerator.java:175-183 | Each admitted header is the earliest with its escaped name |
| RequestBody.FirstOccurrencesComplete | openapi-core/src/main/java/io/ballerina/openapi/core/generators/client/parameter/RequestBodyGenerator.java:175-183 | Every header's escaped name was either seen before or is admitted |
| RequestBody.AddEncodingsFlattens | openapi-core/src/main/java/io/ballerina/openapi/core/generators/client/parameter/RequestBodyGenerator.java:171-186 | The nested loops over encodings and their headers equal one walk over all headers in order |
| RequestBody.ExtractHeadersOncePerName | openapi-core/src/main/java/io/ballerina/openapi/core/generators/client/parameter/RequestBodyGenerator.java:165-187 | Starting from an empty name list, the recorded names are the escaped names of the admitted headers. They are distinct, cover every header, and each admitted header is the earliest with its name |
| RequestBody.RequestBodyGenerator.GenerateParameterNode | openapi-core/src/main/java/io/ballerina/openapi/core/generators/client/parameter/RequestBodyGenerator.java:70-163 | An unresolvable reference gives OAS_CLIENT_109 and no parameter, and a missing component a NullPointerException. A referenced body takes the component's description. Otherwise the result is the specified parameter, and headers are extracted exactly when the first entry asks for it |
| RequestBody.RequestBodyGenerator.ExtractHeaders | openapi-core/src/main/java/io/ballerina/openapi/core/generators/client/parameter/RequestBodyGenerator.java:165-187 | The nested loops leave the header schemas and diagnostics as the specified walk over the encodings does |
| ArrayType.Register | openapi-core/src/main/java/io/ballerina/openapi/core/generators/type/generators/ArrayTypeGenerator.java:107-113 | A claimed name is left alone. Otherwise the name is claimed with a placeholder, and the definition is recorded if it was generated. Earlier entries are kept |
| ArrayType.RegisterIdempotent | openapi-core/src/main/java/io/ballerina/openapi/core/generators/type/generators/ArrayTypeGenerator.java:107-113 | Registering a name a second time changes nothing, whatever the second definition |
| ArrayType.Clamp | openapi-core/src/main/java/io/ballerina/openapi/core/generators/type/generators/ArrayTypeGenerator.java:136-142 | `maxItems` above the ceiling becomes the ceiling with one OAS_TYPE_101 warning naming the old value; otherwise it is unchanged and nothing is reported |
| ArrayType.ClampIdempotent | openapi-core/src/main/java/io/ballerina/openapi/core/generators/type/generators/ArrayTypeGenerator.java:136-142 | Clamping a clamped value changes nothing and warns about nothing |
| ArrayType.FoldDimension | openapi-core/src/main/java/io/ballerina/openapi/core/generators/type/generators/ArrayTypeGenerator.java:143-155 | An array item lends its member and adds one dimension, anything else becomes a one-dimensional member. Either way the source text gains exactly `[]` |
| ArrayType.Parenthesise | openapi-core/src/main/java/io/ballerina/openapi/core/generators/type/generators/ArrayTypeGenerator.java:127-130 | When needed the source text is the item's in parentheses, otherwise unchanged |
| ArrayType.StripOptional | openapi-core/src/main/java/io/ballerina/openapi/core/generators/type/generators/ArrayTypeGenerator.java:131-134 | An optional item loses exactly its trailing `?`; anything else is unchanged |
| ArrayType.Claim | openapi-core/src/main/java/io/ballerina/openapi/core/generators/type/generators/ArrayTypeGenerator.java:94-117 | Hoisting renames the type and registers it once, keeping earlier entries, and adds imports only when the name is new. Without hoisting the state is unchanged |
| ArrayType.ArrayTypeGenerator.ClaimItemType | openapi-core/src/main/java/io/ballerina/openapi/core/generators/type/generators/ArrayTypeGenerator.java:94-117 | The hoisting block moves the fields as the specification gives; a hoisted item always leaves a type name set |
| ArrayType.GenerateRegistersOnce | openapi-core/src/main/java/io/ballerina/openapi/core/generators/type/generators/ArrayTypeGenerator.java:92-158 | A whole generation keeps every earlier registry entry and registers the hoisted name. An already claimed name is neither regenerated nor re-recorded |
| ArrayType.GenerateShape | openapi-core/src/main/java/io/ballerina/openapi/core/generators/type/generators/ArrayTypeGenerator.java:119-157 | A result is an array, nullable as the nullable rule says. Its text is the hoisted name, or the item descriptor, non-optional and parenthesised when needed, followed by `[]` |
| ArrayType.GenerateClampsMaxItems | openapi-core/src/main/java/io/ballerina/openapi/core/generators/type/generators/ArrayTypeGenerator.java:136-142 | After a successful generation `maxItems` is at most the ceiling or unchanged; lowering it adds exactly one OAS_TYPE_101 warning |
| ArrayType.ArrayTypeGenerator.GenerateTypeDescriptorNode | openapi-core/src/main/java/io/ballerina/openapi/core/generators/type/generators/ArrayTypeGenerator.java:92-158 | The method's result and new fields (type name, both maps, imports, diagnostics, `maxItems`) are what the specification function gives for the old fields |
| ArrayType.ArrayTypeGenerator.FinishTypeDescriptorNode | openapi-core/src/main/java/io/ballerina/openapi/core/generators/type/generators/ArrayTypeGenerator.java:127-157 | Once the item descriptor is known, the result and the new imports, diagnostics and `maxItems` are what the specification gives: parentheses, no optional marker, the clamp, one dimension and the nullable wrapper |
| ArrayType.ArraySchemaType | openapi-core/src/main/java/io/ballerina/openapi/core/generators/type/generators/ArrayTypeGenerator.java:163-226 | Every successful result is an array of exactly one dimension. The registry only grows, and null items give a NullPointerException unless the recursion bound is already spent |
| ArrayType.NestedArraySchemaType | openapi-core/src/main/java/io/ballerina/openapi/core/generators/type/generators/ArrayTypeGenerator.java:202-203 | Nested item arrays nest one-dimensional arrays (`T[]` inside another `[]`); they are not folded |
| ArrayType.ReferenceItemRegistered | openapi-core/src/main/java/io/ballerina/openapi/core/generators/type/generators/ArrayTypeGenerator.java:168-192 | A reference item is named by its escaped component name, claimed in the registry once, and parenthesised only for enums |
| ArrayType.ArrayTypeGenerator.GetTypeDescNodeForArraySchema | openapi-core/src/main/java/io/ballerina/openapi/core/generators/type/generators/ArrayTypeGenerator.java:163-217 | The recursive method returns what the specification function gives and leaves the maps as it says |
| MockBody.SuccessResponses | openapi-core/src/main/java/io/ballerina/openapi/core/generators/client/mock/MockFunctionBodyGenerator.java:90-95 | Exactly the responses whose code starts with `2`, unchanged |
| MockBody.ExamplesFromSchema | openapi-core/src/main/java/io/ballerina/openapi/core/generators/client/mock/MockFunctionBodyGenerator.java:194-216 | At most one example, under `response`. A schema `example` wins over `examples[0]`, which wins over following the reference; an empty `examples` list throws `IndexOutOfBoundsException`, and no example and no reference give nothing |
| MockBody.ReferenceYieldsTarget | openapi-core/src/main/java/io/ballerina/openapi/core/generators/client/mock/MockFunctionBodyGenerator.java:207-213 | Following a reference yields exactly what the referenced schema yields |
| MockBody.MediaExamples | openapi-core/src/main/java/io/ballerina/openapi/core/generators/client/mock/MockFunctionBodyGenerator.java:120-139 | A media type's `examples` map replaces what was gathered; a single `example` is stored under `response`; otherwise the schema's examples are used |
| MockBody.LaterMediaTypesOverwrite | openapi-core/src/main/java/io/ballerina/openapi/core/generators/client/mock/MockFunctionBodyGenerator.java:119-140 | A media type with an `examples` map discards everything gathered before it |
| MockBody.CollectStops | openapi-core/src/main/java/io/ballerina/openapi/core/generators/client/mock/MockFunctionBodyGenerator.java:131-138 | Once gathering fails on an invalid reference, later media types change nothing |
| MockBody.ReturnExample | openapi-core/src/main/java/io/ballerina/openapi/core/generators/client/mock/MockFunctionBodyGenerator.java:167 | The plain statement is `return `, the example value and `;` |
| MockBody.ExampleBody | openapi-core/src/main/java/io/ballerina/openapi/core/generators/client/mock/MockFunctionBodyGenerator.java:153-178 | A body is one statement; the plain client returns the value; an example without a value throws a NullPointerException |
| MockBody.ResponseBody | openapi-core/src/main/java/io/ballerina/openapi/core/generators/client/mock/MockFunctionBodyGenerator.java:112-178 | No content gives OAS_CLIENT_115, an invalid reference OAS_CLIENT_117, and no examples OAS_CLIENT_116, each with no body |
| MockBody.PreferResponseExample | openapi-core/src/main/java/io/ballerina/openapi/core/generators/client/mock/MockFunctionBodyGenerator.java:149-152 | The plain client returns the value under `response` whenever the response yields one |
| MockBody.MockFunctionBodyGenerator.GetFunctionBodyNode | openapi-core/src/main/java/io/ballerina/openapi/core/generators/client/mock/MockFunctionBodyGenerator.java:82-179 | Without success responses there is one OAS_CLIENT_115 and no body. Otherwise the code chosen is a success code, `201` for a POST that has one, and the result and diagnostics are the chosen response's body |
| MockBody.MockFunctionBodyGenerator.SuccessResponseBody | openapi-core/src/main/java/io/ballerina/openapi/core/generators/client/mock/MockFunctionBodyGenerator.java:111-179 | For the chosen success response, the result and the new diagnostics are what ResponseBody gives, and the example chosen is a valid one |
| MockBody.MockFunctionBodyGenerator.GatherExamples | openapi-core/src/main/java/io/ballerina/openapi/core/generators/client/mock/MockFunctionBodyGenerator.java:118-139 | The loop over the media types yields what CollectExamples specifies: the examples gathered in order, or the first failure |
| SourceGenerator.Parse | openapi-cli/src/main/java/io/ballerina/openapi/service/SourceGenerator.java:80-102 | A successful parse only adds known keys and keeps every key it started from |
| SourceGenerator.ArgumentsParser | openapi-cli/src/main/java/io/ballerina/openapi/service/SourceGenerator.java:80-102 | The token-consuming loop gives exactly the specified parse, and a successful result holds only known keys |
| SourceGenerator.ParseAppend | openapi-cli/src/main/java/io/ballerina/openapi/service/SourceGenerator.java:82-101 | Parsing more tokens after a successful parse continues from its map: the parser is a left fold over the options |
| SourceGenerator.LastValueWins | openapi-cli/src/main/java/io/ballerina/openapi/service/SourceGenerator.java:86-94 | A value option given again overrides the earlier value |
| SourceGenerator.TrailingValueOptionFails | openapi-cli/src/main/java/io/ballerina/openapi/service/SourceGenerator.java:95-99 | A value option as the last token fails with "Missing value for option", whatever came before |
| SourceGenerator.ValidateArguments | openapi-cli/src/main/java/io/ballerina/openapi/service/SourceGenerator.java:180-190 | No failure iff input, module and id are all present; otherwise the first missing one in that order is named |
| SourceGenerator.WarpWithQuotes | openapi-cli/src/main/java/io/ballerina/openapi/service/SourceGenerator.java:192-194 | The value with one double quote on each side |
| SourceGenerator.OptionLine | openapi-cli/src/main/java/io/ballerina/openapi/service/SourceGenerator.java:151-176 | Mode and licence are quoted and skipped when blank; the switches give `= true` only for "true"; tags and operations are unquoted and skipped when blank; header and unknown keys throw |
| SourceGenerator.ParsedOptionsKnown | openapi-cli/src/main/java/io/ballerina/openapi/service/SourceGenerator.java:151-176 | For a parsed map, whatever order its keys come in, the unknown-key throw is never reached |
| SourceGenerator.BalTomlEntry | openapi-cli/src/main/java/io/ballerina/openapi/service/SourceGenerator.java:145-178 | The entry is the table header and the quoted id, module and input lines, then one option line per non-header key, each key once. A map holding only known keys never throws |
| SourceGenerator.LicenceHeader | openapi-cli/src/main/java/io/ballerina/openapi/service/SourceGenerator.java:202-203 | Empty iff the licence is missing or blank; otherwise the licence followed by a newline |
| ServiceAnalysis.ExtractServiceNodes | openapi-build-extension/src/main/java/io/ballerina/openapi/build/HttpServiceAnalysisTask.java:193-215 | The loop gives the specified names. Each registered base path is listed exactly once, and the map gains exactly the hashes of the HTTP service declarations with a service symbol |
| ServiceAnalysis.ExtractPaths | openapi-build-extension/src/main/java/io/ballerina/openapi/build/HttpServiceAnalysisTask.java:205-211 | `allServices` has no repeats and holds exactly the base paths of the registering members |
| ServiceAnalysis.ExtractKeys | openapi-build-extension/src/main/java/io/ballerina/openapi/build/HttpServiceAnalysisTask.java:196-213 | Only HTTP service declarations with a service symbol add a key; other members are ignored |
| ServiceAnalysis.ExtractNames | openapi-build-extension/src/main/java/io/ballerina/openapi/build/HttpServiceAnalysisTask.java:205-213 | The first service with a base path keeps it, and a later one is named path, hyphen and hash. Each hash ends with the name of the last member carrying it |
| ServiceAnalysis.ReplaceAllChar | openapi-build-extension/src/main/java/io/ballerina/openapi/build/HttpServiceAnalysisTask.java:159 | Replacing a character by text that lacks it removes every occurrence; a string without the character is unchanged |
| Common.SplitHead | openapi-build-extension/src/main/java/io/ballerina/openapi/build/HttpServiceAnalysisTask.java:159 | The text before the first separator, which it never contains; it throws iff the string is non-empty and made only of separators, as Java drops trailing empty strings |
| ServiceAnalysis.BalFileName | openapi-build-extension/src/main/java/io/ballerina/openapi/build/HttpServiceAnalysisTask.java:159 | The path with slashes replaced, cut before its first dot; it throws iff the replaced path is non-empty and made only of dots |
| ServiceAnalysis.ConstructFileName | openapi-build-extension/src/main/java/io/ballerina/openapi/build/HttpServiceAnalysisTask.java:157-166 | Every name ends with the OpenAPI suffix and the YAML extension; a path that cannot be cut throws |
| ServiceAnalysis.RootServiceFileName | openapi-build-extension/src/main/java/io/ballerina/openapi/build/HttpServiceAnalysisTask.java:160-161 | The root path names the contract after the source file alone |
| ServiceAnalysis.HashedFileName | openapi-build-extension/src/main/java/io/ballerina/openapi/build/HttpServiceAnalysisTask.java:162-163 | A blank name, or a de-duplicated root path `/-…`, gives the source file's name, an underscore and the hash |
| ServiceAnalysis.PlainFileName | openapi-build-extension/src/main/java/io/ballerina/openapi/build/HttpServiceAnalysisTask.java:165 | Any other name without a hyphen is kept as it is |
| ServiceAnalysis.AllHyphensThrows | openapi-build-extension/src/main/java/io/ballerina/openapi/build/HttpServiceAnalysisTask.java:162 | A name made only of hyphens makes the split come back empty and the indexing throw |
| ServiceAnalysis.ErrorLatch.SetIsWarningPrinted | openapi-build-extension/src/main/java/io/ballerina/openapi/build/HttpServiceAnalysisTask.java:78-80 | The flag is set afterwards |
| ServiceAnalysis.ErrorLatch.OnCompilation | openapi-build-extension/src/main/java/io/ballerina/openapi/build/HttpServiceAnalysisTask.java:109-116 | The notice prints iff there are errors and it has not been printed; the flag becomes set once there are errors and never goes back |
| ServiceAnalysis.NoticeAtMostOnce | openapi-build-extension/src/main/java/io/ballerina/openapi/build/HttpServiceAnalysisTask.java:76-80 | Over any series of analyses the notice prints at most once, and exactly once iff some analysis had errors while the flag was down |
| ServiceAnalysis.RunAnalyses | openapi-build-extension/src/main/java/io/ballerina/openapi/build/HttpServiceAnalysisTask.java:109-116 | Running the analyses one after another on one latch prints the specified number of notices, at most one |

## Left out

- The syntax-tree library (node factory, parser, formatter) is not part of this model. Syntax
  nodes are small datatypes (`TypeDesc`, `ParamNode`, `FunctionDef`) compared by value.
- The type handler, the signature and body generators, `escapeIdentifier`,
  `extractReferenceType`, `getBallerinaMediaType`, `isSupportedMediaType`, `hasConstraints`,
  the auth-config and server-URL generators, `HTTP_CODES_DES` and `getNormalizedFileName` are
  not part of this model. Each is a parameter whose answer the model takes as given.
- HashMap iteration order is unspecified. The loops over maps choose keys with `:|`, and
  nothing is proved that depends on the order. This affects `filterOperations`, the option
  lines of the TOML entry, the success response picked by the mock generator and the example
  picked when there is no `response` key.
- ClientGenerator.SortParameters: a parameter is kept in the output set by name, not by object
  identity, so two distinct parameter objects with the same kind and name count as one.
- `createRemoteFunctions`, `createResourceFunctions`, the class and documentation builders, and
  `generateSyntaxTree` of the client generator are not modelled. They only call the modelled
  add functions in map order, or build documentation text.
- ClientGenerator.BallerinaClientGenerator.GetInitFunctionBodyNode: the API-key names are taken
  in the order the auth generator's maps yield them. That order is not modelled.
- ArrayType.ArraySchemaType: the recursion through nested item schemas is bounded by fuel. Running
  out of fuel is reported as `StackOverflowError`. The Java code has no bound.
- ArrayType.ArraySchemaType: in `getTypeDescNodeForArraySchema` the empty-result branch at line
  209 cannot be reached, because line 168 dereferences the items first. A null `items` is
  therefore a NullPointerException. In `generateTypeDescriptorNode` the model throws at once
  for a null `items`, whereas the Java code may first hand the null item to `getTypeGenerator`
  on the nullable path. The exception is the same; only the order of those earlier effects
  differs.
- ArrayType.ArrayTypeGenerator.GenerateTypeDescriptorNode: the nested generator returned by
  `getTypeGenerator` is given as a value. It does not see or update the shared maps, so
  re-entrant registration by the item generator is not modelled. Imports are plain strings.
- MockBody.ExamplesFromSchema: the `$ref` chain is followed with fuel, for the same reason.
- MockBody.MockFunctionBodyGenerator.GetFunctionBodyNode: an `examples` map taken from the
  document is not shared with it, so aliasing with the document's own map is not modelled. A
  media type with no examples, no example and no schema throws a NullPointerException, as the
  Java code does. The advanced-client status-code record is a parameter. The operation's
  `responses` map is always present here, whereas the Java code throws a NullPointerException at
  `MockFunctionBodyGenerator.java:91` when an operation has none.
- RequestBody.RequestBodyGenerator.GenerateParameterNode: only the first content entry is
  examined, because the loop ends with an unconditional `break`, as the comment at
  `RequestBodyGenerator.java:97` says ("first content type"). The first entry is used even when
  a later one has a supported media type.
- ClientGenerator.SortParametersSeparators: with a repeated parameter name within one kind, the
  separator list still ends in a comma, as the Java code's does; the no-trailing-comma shape is
  proved only for distinct names (`SortParametersAlternate`).
- Common.AscendingOrder: names are compared by Unicode scalar value, while `String.compareTo`
  compares UTF-16 code units. The two orders differ when one name has a character above U+FFFF
  and the other a character in U+E000 to U+FFFF at the same position.
- ArrayType.ArrayTypeGenerator.GenerateTypeDescriptorNode: the hoisted item-type name is
  capitalised with an ASCII-only `Capitalize`, whereas `StringUtils.capitalize` title-cases any
  first code point. Names starting with a non-ASCII letter keep their first character.
- ArrayType.ArrayTypeGenerator.GetTypeDescNodeForArraySchema: the `subTypesMap` argument is the
  generator's own map. Within this class every call passes that map, but a caller outside it that
  hands in a different map is not modelled.
- StatusCodeBinding.AddRemoteFunction: the status-code-binding client installs the external
  remote and resource function generators, whose code is not part of this model. Their signature
  and body are taken to behave like the base generators' (the same holds for
  `StatusCodeBinding.AddResourceFunction`).
- `GeneratorUtils.addCommonParamsToOperationParams` is not modelled. The remote and resource
  function generators call it first (`RemoteFunctionGenerator.java:61`,
  `ResourceFunctionGenerator.java:65`), and it merges the path-level parameters into the
  operation's own parameters in place. The signature generators' outcomes, given as
  parameters, are taken to reflect that merge, including for the impl signature generator of
  the status-code-binding client.
- `RequestBodyHeaderParameter` is not part of this model. The header parameter it builds and its
  diagnostics are a parameter.
- SourceGenerator.BalTomlEntry: the line separator is a parameter. The option lines follow the
  map's order, which is returned and not fixed.
- `genBalTomlTableEntry`, `generate` (apart from the licence rule) and `generateSourceFiles` of
  the `add` command are not modelled. They read and write files, parse TOML and produce editor
  text edits.
- ServiceAnalysis.ConstructFileName: the normaliser's output is an input, and the separator and
  suffix constants are parameters. The regular-expression calls are modelled for literal
  one-character patterns.
- `perform` and `writeOpenAPIYaml` of the build extension are not modelled beyond the
  compilation-error branch. They are compiler-plugin plumbing: semantic model, build options,
  directories and file writing.
- The `OpenApiToolService` adapter is not modelled. It is a thin bridge to a command framework
  that is not part of this model.
