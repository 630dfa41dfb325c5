/**
 * Parameter generators: path parameters, and the schema-details helper every parameter
 * generator shares.
 */
module Parameters {
  import opened Common
  import opened Diagnostics
  import opened Syntax
  import opened OpenApi

  /**
   * `getSchemaWithDetails`: the parameter's schema with the parameter's description,
   * deprecation flag and extensions copied onto it (nulls included); `null` without a schema.
   */
  method GetSchemaWithDetails(parameter: Parameter) returns (schema: Schema?)
    modifies parameter.schema
    ensures schema == parameter.schema
    ensures schema != null ==>
      && schema.description == parameter.description
      && schema.deprecated == parameter.deprecated
      && schema.extensions == parameter.extensions
      && schema.maxItems == old(schema.maxItems)
  {
    schema := parameter.schema;
    if schema == null {
      return null;
    }
    schema.description := parameter.description;
    schema.deprecated := parameter.deprecated;
    schema.extensions := parameter.extensions;
  }

  /** A path parameter of an array or record type cannot be written in a resource path. */
  predicate UnsupportedPathType(t: TypeDesc) {
    t.ArrayOf? || t.Record?
  }

  /**
   * What generating a path parameter yields, given the type the type handler resolved (if
   * any) and the escaped name: a required parameter, or OAS_CLIENT_101 with the raw name.
   */
  function PathParameter(name: string, escapedName: string, typeNode: Option<TypeDesc>)
    : (r: (Option<ParamNode>, seq<Diagnostic>))
    ensures r.0.Some? <==> typeNode.Some? && !UnsupportedPathType(typeNode.value)
    ensures r.0.Some? ==> r.0.value == Required(escapedName, typeNode.value) && r.1 == []
    ensures r.0.None? ==> r.1 == [Diag(OAS_CLIENT_101, [name])]
    ensures |r.1| <= 1
  {
    if typeNode.None? then (None, [Diag(OAS_CLIENT_101, [name])])
    else if UnsupportedPathType(typeNode.value) then (None, [Diag(OAS_CLIENT_101, [name])])
    else (Some(Required(escapedName, typeNode.value)), [])
  }

  class PathParameterGenerator {
    const parameter: Parameter
    var diagnostics: seq<Diagnostic>

    constructor(parameter: Parameter)
      ensures this.parameter == parameter && diagnostics == []
    {
      this.parameter := parameter;
      diagnostics := [];
    }

    /** `escape` is `escapeIdentifier`; `typeOf` is the type handler's answer for a schema. */
    method GenerateParameterNode(escape: string -> string, typeOf: Schema? -> Option<TypeDesc>)
      returns (r: Option<ParamNode>)
      modifies this
      ensures var p := PathParameter(parameter.name, escape(parameter.name), typeOf(parameter.schema));
        r == p.0 && diagnostics == old(diagnostics) + p.1
    {
      var paramName := escape(parameter.name);
      var parameterSchema := parameter.schema;
      var typeNode := typeOf(parameterSchema);
      if typeNode.None? {
        diagnostics := diagnostics + [Diag(OAS_CLIENT_101, [parameter.name])];
        return None;
      }
      var typeDescNode := typeNode.value;
      if typeDescNode.ArrayOf? || typeDescNode.Record? {
        var diagnostic := Diag(OAS_CLIENT_101, [parameter.name]);
        diagnostics := diagnostics + [diagnostic];
        return None;
      }
      return Some(Required(paramName, typeDescNode));
    }
  }
}
