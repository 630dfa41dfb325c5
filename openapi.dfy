/**
 * The parts of an OpenAPI document (as the swagger-parser object model presents it) that the
 * generators read. Objects the generators update in place are classes; the rest are values.
 * A Java `null` is `None` (or a `null` reference for class-typed fields).
 */
module OpenApi {
  import opened Common
  import opened Diagnostics
  import opened Syntax

  /**
   * A schema object. Only the fields that the generators overwrite through setters are
   * mutable: `description`, `deprecated` and `extensions` (parameter details) and `maxItems`
   * (array length clamping). Everything else is fixed when the document is parsed.
   */
  class Schema {
    var description: Option<string>
    var deprecated: Option<bool>
    var extensions: Option<map<string, string>>
    var maxItems: Option<int>
    const ref: Option<string>
    /** The OpenAPI `type` as `GeneratorUtils.getOpenAPIType` reports it. */
    const openApiType: Option<string>
    /** `getItems()`; meaningful for array schemas. */
    const items: Schema?
    /** `instanceof ArraySchema`. */
    const isArraySchema: bool
    const enumValues: Option<seq<string>>
    const properties: Option<seq<string>>
    /** `getExample()`, as the text `toString` gives it. */
    const example: Option<string>
    /** `getExamples()`, each as the text `toString` gives it. */
    const examples: Option<seq<string>>

    constructor(description: Option<string>, deprecated: Option<bool>,
                extensions: Option<map<string, string>>, maxItems: Option<int>,
                ref: Option<string>, openApiType: Option<string>, items: Schema?,
                isArraySchema: bool, enumValues: Option<seq<string>>,
                properties: Option<seq<string>>, example: Option<string>,
                examples: Option<seq<string>>)
      ensures this.description == description && this.deprecated == deprecated
      ensures this.extensions == extensions && this.maxItems == maxItems
      ensures this.ref == ref && this.openApiType == openApiType && this.items == items
      ensures this.isArraySchema == isArraySchema && this.enumValues == enumValues
      ensures this.properties == properties && this.example == example && this.examples == examples
    {
      this.description := description;
      this.deprecated := deprecated;
      this.extensions := extensions;
      this.maxItems := maxItems;
      this.ref := ref;
      this.openApiType := openApiType;
      this.items := items;
      this.isArraySchema := isArraySchema;
      this.enumValues := enumValues;
      this.properties := properties;
      this.example := example;
      this.examples := examples;
    }
  }

  /** An example object: an inline value or a reference to a component example. */
  datatype Example = Example(value: Option<string>, ref: Option<string>)

  /** A header of a multipart encoding; the generators only pass it on. */
  datatype Header = Header(description: Option<string>, schema: Schema?)

  /** An encoding object: its headers in document order. */
  datatype Encoding = Encoding(headers: Option<seq<(string, Header)>>)

  /** A media type object. */
  datatype MediaType = MediaType(
    schema: Schema?,
    examples: Option<map<string, Example>>,
    example: Option<string>,
    encoding: Option<seq<(string, Encoding)>>)

  /** A response object: its content entries in document order. */
  datatype ApiResponse = ApiResponse(content: Option<seq<(string, MediaType)>>)

  /** An operation object. */
  datatype Operation = Operation(
    operationId: Option<string>,
    tags: Option<seq<string>>,
    responses: map<string, ApiResponse>)

  /** A parameter object. */
  datatype Parameter = Parameter(
    name: string,
    schema: Schema?,
    description: Option<string>,
    deprecated: Option<bool>,
    extensions: Option<map<string, string>>)

  /** A request body; its description is overwritten when it is a reference. */
  class RequestBody {
    var description: Option<string>
    const ref: Option<string>
    const content: Option<seq<(string, MediaType)>>

    constructor(description: Option<string>, ref: Option<string>, content: Option<seq<(string, MediaType)>>)
      ensures this.description == description && this.ref == ref && this.content == content
    {
      this.description := description;
      this.ref := ref;
      this.content := content;
    }
  }

  /** The `components` section. */
  datatype Components = Components(
    schemas: Option<map<string, Schema>>,
    requestBodies: Option<map<string, RequestBody>>,
    examples: Option<map<string, Example>>)

  /** The document: its paths (each with its operations per method) and its components. */
  datatype Document = Document(
    paths: map<string, map<HttpMethod, Operation>>,
    components: Option<Components>)

  /** `Map.get`: the value, or `null` for a missing key. */
  function Get<K, V>(m: map<K, V>, k: K): (r: Option<V>)
    ensures r.Some? <==> k in m
    ensures r.Some? ==> r.value == m[k]
  {
    if k in m then Some(m[k]) else None
  }

  /** What `GeneratorUtils.extractReferenceType` makes of a `$ref`: the component name, or
      the invalid-reference exception it throws with its diagnostic. */
  datatype RefResolution = Resolved(name: string) | InvalidReference(diagnostic: Diagnostic)
}
