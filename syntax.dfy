/**
 * Abstract Ballerina syntax the generators produce: type descriptors, parameters, function
 * definitions and their parts. Only the structure the generators inspect or decide on is kept;
 * building and printing real syntax-tree nodes is not part of this model.
 */
module Syntax {
  import opened Common
  import opened Diagnostics

  /** `PathItem.HttpMethod`. */
  datatype HttpMethod = GET | PUT | POST | DELETE | OPTIONS | HEAD | PATCH | TRACE

  /** `HttpMethod.toString()`: the upper-case constant name. */
  function MethodName(m: HttpMethod): string {
    match m
    case GET => "GET" case PUT => "PUT" case POST => "POST" case DELETE => "DELETE"
    case OPTIONS => "OPTIONS" case HEAD => "HEAD" case PATCH => "PATCH" case TRACE => "TRACE"
  }

  /** The lower-cased method name, used as the name of a resource function. The HTTP method
      names are all ASCII, so lower-casing ASCII letters alone agrees with Java's `toLowerCase`. */
  function LowerMethodName(m: HttpMethod): string {
    ToLowerAscii(MethodName(m))
  }

  /** A Ballerina type descriptor. */
  datatype TypeDesc =
    | Simple(name: string)                    // a type reference or built-in simple type
    | ArrayOf(member: TypeDesc, dims: nat)    // `member[]...[]` with `dims` dimensions
    | Union(members: seq<TypeDesc>)
    | Record(fields: seq<string>)
    | Optional(inner: TypeDesc)               // `inner?`
    | Paren(inner: TypeDesc)                  // `(inner)`

  function Brackets(dims: nat): string {
    if dims == 0 then "" else "[]" + Brackets(dims - 1)
  }

  function JoinBar(parts: seq<string>): string {
    if parts == [] then "" else if |parts| == 1 then parts[0] else parts[0] + "|" + JoinBar(parts[1..])
  }

  /** The source text of a type descriptor, without formatting whitespace. */
  function Source(t: TypeDesc): string
    decreases t
  {
    match t
    case Simple(n) => n
    case ArrayOf(m, d) => Source(m) + Brackets(d)
    case Union(ms) => JoinBar(seq(|ms|, i requires 0 <= i < |ms| => Source(ms[i])))
    case Record(fs) => "record {" + JoinBar(fs) + "}"
    case Optional(inner) => Source(inner) + "?"
    case Paren(inner) => "(" + Source(inner) + ")"
  }

  /** A parameter of a function signature. */
  datatype ParamNode =
    | Required(name: string, typ: TypeDesc)
    | Defaultable(name: string, typ: TypeDesc, defaultExpr: string)
    | IncludedRecord(name: string, typ: TypeDesc)
    | Rest(name: string, typ: TypeDesc)

  /** An element of a signature's parameter list: a parameter or a separating comma. */
  datatype SignatureNode = Param(param: ParamNode) | Comma

  datatype Qualifier = Public | Private | Remote | Resource | Isolated

  datatype FunctionKind = ObjectMethod | ResourceAccessor

  datatype Signature = Signature(params: seq<ParamNode>, returnType: Option<TypeDesc>)

  datatype FunctionBody = Block(statements: seq<string>) | External

  datatype FunctionDef = FunctionDef(
    kind: FunctionKind,
    qualifiers: seq<Qualifier>,
    name: Option<string>,
    relativePath: seq<string>,
    signature: Signature,
    body: FunctionBody)

  /** What a function-signature generator reports after generating a signature. */
  datatype SignatureOutcome = SignatureOutcome(
    signature: Option<Signature>,
    diagnostics: seq<Diagnostic>,
    hasHeaders: bool,
    hasDefaultHeaders: bool,
    hasQueries: bool,
    hasDefaultStatusCodeBinding: bool,
    nonDefaultStatusCodes: seq<string>)

  /** What a function-body generator reports: the body, if any, and its diagnostics. */
  datatype BodyOutcome = BodyOutcome(body: Option<FunctionBody>, diagnostics: seq<Diagnostic>)

  /** What a per-operation function generator yields: the function, if one was built, and the
      diagnostics it merged into its own list. */
  datatype Generated = Generated(definition: Option<FunctionDef>, diagnostics: seq<Diagnostic>)

  /** A body generator, given whether the signature has headers, defaultable headers and
      query parameters. */
  type BodyGenerator = (bool, bool, bool) -> BodyOutcome
}
