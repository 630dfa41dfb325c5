/**
 * The array type generator: the Ballerina type descriptor of an array schema, with its
 * constrained item type hoisted into a named type that is registered once, `maxItems`
 * clamped, and nested dimensions folded into one descriptor.
 */
module ArrayType {
  import opened Common
  import opened Diagnostics
  import opened Syntax
  import opened OpenApi

  /** The kind of generator the type-generator factory picks for a schema. */
  datatype GeneratorKind = PrimitiveGenerator | ArrayGenerator | UnionGenerator | OtherGenerator

  /**
   * What the generator picked for a schema produces: its kind, its type descriptor and the
   * body of a named type definition (each of which may throw), and its imports.
   */
  datatype ItemGenerator = ItemGenerator(
    kind: GeneratorKind,
    descriptor: Result<TypeDesc>,
    definition: Result<TypeDesc>,
    imports: seq<string>)

  /** A generated type definition `type name body;`. */
  datatype TypeDefinition = TypeDefinition(name: string, body: TypeDesc)

  /**
   * The collaborators whose code is not part of this model: the nullable setting, the
   * constraint test, the special-character filter, `escapeIdentifier`, the generator factory,
   * the nullable wrapper decision, `MAX_ARRAY_LENGTH`, `extractReferenceType`, the component
   * schema lookup and the primitive type conversion.
   */
  datatype Collaborators = Collaborators(
    isNullable: bool,
    hasConstraints: Schema -> bool,
    stripSpecial: string -> string,
    escape: string -> string,
    generatorFor: (Schema?, Option<string>, Option<string>) -> ItemGenerator,
    nullableType: (Schema, bool) -> bool,
    maxArrayLength: int,
    resolveRef: string -> Result<string>,
    componentSchema: string -> Schema?,
    builtinName: Schema -> Result<string>)

  // ---------------------------------------------------------------------------
  // The register-once rule
  // ---------------------------------------------------------------------------

  /** `pregeneratedTypeMap` (names claimed) and `subTypesMap` (definitions generated). */
  datatype Registry = Registry(pregenerated: map<string, TypeDesc>, subTypes: map<string, TypeDefinition>)

  /** Every generated definition has its name claimed. */
  predicate Consistent(reg: Registry) {
    forall k :: k in reg.subTypes ==> k in reg.pregenerated
  }

  /** Every entry of `before` is still in `after`, unchanged. */
  predicate Extends(before: Registry, after: Registry) {
    && (forall k :: k in before.pregenerated ==> k in after.pregenerated && after.pregenerated[k] == before.pregenerated[k])
    && (forall k :: k in before.subTypes ==> k in after.subTypes && after.subTypes[k] == before.subTypes[k])
  }

  /**
   * Registering a named type: a name already claimed is left alone; otherwise the name is
   * claimed with a placeholder reference BEFORE its definition is generated, and the
   * definition is recorded once generated (a throwing definition leaves the placeholder).
   */
  function Register(reg: Registry, name: string, definition: Result<TypeDesc>): (r: (Registry, Option<Thrown>))
    ensures Consistent(reg) ==> Consistent(r.0) && Extends(reg, r.0)
    ensures name in r.0.pregenerated
    ensures name in reg.pregenerated ==> r == (reg, None)
    ensures name !in reg.pregenerated ==>
      && r.0.pregenerated == reg.pregenerated[name := Simple(name)]
      && (r.1.None? <==> definition.Ok?)
      && (r.1.None? ==> r.0.subTypes == reg.subTypes[name := TypeDefinition(name, definition.value)])
      && (r.1.Some? ==> r.0.subTypes == reg.subTypes && r.1.value == definition.thrown)
  {
    if name in reg.pregenerated then (reg, None)
    else
      var placed := reg.(pregenerated := reg.pregenerated[name := Simple(name)]);
      match definition
      case Err(e) => (placed, Some(e))
      case Ok(body) => (placed.(subTypes := placed.subTypes[name := TypeDefinition(name, body)]), None)
  }

  /** Registering a name a second time changes nothing, whatever the second definition. */
  lemma RegisterIdempotent(reg: Registry, name: string, first: Result<TypeDesc>, second: Result<TypeDesc>)
    ensures Register(Register(reg, name, first).0, name, second) == (Register(reg, name, first).0, None)
  {
  }

  // ---------------------------------------------------------------------------
  // Pieces of the descriptor
  // ---------------------------------------------------------------------------

  /** `maxItems` above the ceiling is lowered to it, with an OAS_TYPE_101 warning. */
  function Clamp(maxItems: Option<int>, ceiling: int): (r: (Option<int>, seq<Diagnostic>))
    ensures r.0.None? <==> maxItems.None?
    ensures r.0.Some? ==> r.0.value <= maxItems.value
    ensures r.0.Some? && maxItems.value > ceiling ==> r.0.value == ceiling
    ensures r.0.Some? && maxItems.value <= ceiling ==> r.0 == maxItems
    ensures r.1 != [] <==> maxItems.Some? && maxItems.value > ceiling
    ensures r.1 != [] ==> r.1 == [Other("OAS_TYPE_101", [IntToString(maxItems.value)])]
  {
    if maxItems.Some? && maxItems.value > ceiling then
      (Some(ceiling), [Other("OAS_TYPE_101", [IntToString(maxItems.value)])])
    else (maxItems, [])
  }

  /** Clamping a clamped value changes nothing and warns about nothing. */
  lemma ClampIdempotent(maxItems: Option<int>, ceiling: int)
    ensures Clamp(Clamp(maxItems, ceiling).0, ceiling) == (Clamp(maxItems, ceiling).0, [])
  {
  }

  lemma {:induction false} BracketsSnoc(d: nat)
    ensures Brackets(d + 1) == Brackets(d) + "[]"
  {
    if d > 0 {
      BracketsSnoc(d - 1);
    }
  }

  /**
   * One more dimension: an array item type lends its member and dimensions to the new
   * descriptor, anything else becomes the member. Either way the source text gains exactly
   * one `[]`.
   */
  function FoldDimension(t: TypeDesc): (r: TypeDesc)
    ensures r.ArrayOf?
    ensures t.ArrayOf? ==> r.member == t.member && r.dims == t.dims + 1
    ensures !t.ArrayOf? ==> r.member == t && r.dims == 1
    ensures Source(r) == Source(t) + "[]"
  {
    if t.ArrayOf? then
      BracketsSnoc(t.dims);
      ArrayOf(t.member, t.dims + 1)
    else ArrayOf(t, 1)
  }

  /** The item type in parentheses when it is a union or an enum. */
  function Parenthesise(t: TypeDesc, needed: bool): (r: TypeDesc)
    ensures needed ==> Source(r) == "(" + Source(t) + ")"
    ensures !needed ==> r == t
  {
    if needed then Paren(t) else t
  }

  /** An optional item type loses its `?`: array members are never optional. */
  function StripOptional(t: TypeDesc): (r: TypeDesc)
    ensures t.Optional? ==> Source(t) == Source(r) + "?"
    ensures !t.Optional? ==> r == t
  {
    if t.Optional? then t.inner else t
  }

  /** Whether the item type is hoisted into a named type of its own. */
  predicate Hoists(c: Collaborators, items: Schema, typeName: Option<string>) {
    !c.isNullable && c.hasConstraints(items) && typeName.Some?
  }

  /** The hoisted item type's name: parent type, capitalised field name, `Items`, capitalised item type. */
  function HoistedName(typeName: string, parentType: Option<string>, items: Schema, c: Collaborators): string {
    var fieldName := NullText(Capitalize(Some(Trim(c.stripSpecial(typeName)))));
    var itemType := NullText(Capitalize(items.openApiType));
    c.escape((if parentType.Some? then parentType.value else "") + fieldName + "Items" + itemType)
  }

  // ---------------------------------------------------------------------------
  // generateTypeDescriptorNode
  // ---------------------------------------------------------------------------

  /** The generator's state: its type name, the shared maps, its imports and diagnostics,
      and the schema's `maxItems`. */
  datatype GenState = GenState(
    typeName: Option<string>,
    registry: Registry,
    imports: seq<string>,
    diagnostics: seq<Diagnostic>,
    maxItems: Option<int>)

  /** Whether the item type is enclosed in parentheses. */
  predicate NeedsParens(gen: ItemGenerator, items: Schema) {
    gen.kind.UnionGenerator? || (items.enumValues.Some? && items.enumValues.value != [])
  }

  /** The hoisting stage: the new type name, the generator for the items, and the
      registration of the hoisted name (with the imports of a definition generated now). */
  datatype Claimed = Claimed(state: GenState, gen: ItemGenerator, thrown: Option<Thrown>)

  function Claim(st: GenState, items: Schema, parentType: Option<string>, c: Collaborators): (r: Claimed)
    ensures r.state.diagnostics == st.diagnostics && r.state.maxItems == st.maxItems
    ensures Hoists(c, items, st.typeName) ==>
      && r.state.typeName == Some(HoistedName(st.typeName.value, parentType, items, c))
      && r.state.typeName.value in r.state.registry.pregenerated
      && (Consistent(st.registry) ==> Consistent(r.state.registry) && Extends(st.registry, r.state.registry))
      && (r.state.typeName.value in st.registry.pregenerated ==>
            r.state.registry == st.registry && r.state.imports == st.imports && r.thrown.None?)
    ensures !Hoists(c, items, st.typeName) ==> r.state == st && r.thrown.None?
    ensures r.gen == c.generatorFor(items, r.state.typeName, None)
  {
    if Hoists(c, items, st.typeName) then
      var name := HoistedName(st.typeName.value, parentType, items, c);
      var gen := c.generatorFor(items, Some(name), None);
      var registered := Register(st.registry, name, gen.definition);
      var definedNow := name !in st.registry.pregenerated && registered.1.None?;
      Claimed(st.(typeName := Some(name), registry := registered.0,
                  imports := st.imports + (if definedNow then gen.imports else [])),
              gen, registered.1)
    else Claimed(st, c.generatorFor(items, st.typeName, None), None)
  }

  /** The item descriptor: the hoisted name for hoisted primitive and array items, otherwise
      whatever the item generator produces. */
  function ItemDescriptor(hoisted: bool, typeName: Option<string>, gen: ItemGenerator): Result<TypeDesc>
    requires hoisted ==> typeName.Some?
  {
    if hoisted && (gen.kind.PrimitiveGenerator? || gen.kind.ArrayGenerator?) then Ok(Simple(typeName.value))
    else gen.descriptor
  }

  /** The array built around an item descriptor, and the clamped `maxItems` and its warning. */
  function Finish(st: GenState, descriptor: TypeDesc, gen: ItemGenerator, schema: Schema, items: Schema,
                  ignoreNullableFlag: bool, c: Collaborators): (Result<TypeDesc>, GenState)
  {
    var item := StripOptional(Parenthesise(descriptor, NeedsParens(gen, items)));
    var clamped := Clamp(st.maxItems, c.maxArrayLength);
    var folded := FoldDimension(item);
    (Ok(if c.nullableType(schema, ignoreNullableFlag) then Optional(folded) else folded),
     st.(imports := st.imports + gen.imports, diagnostics := st.diagnostics + clamped.1, maxItems := clamped.0))
  }

  /**
   * `generateTypeDescriptorNode` as a function of the old state: the result (or what was
   * thrown) and the new state. Without items the generator dereferences null.
   */
  function Generate(st: GenState, schema: Schema, ignoreNullableFlag: bool, parentType: Option<string>,
                    c: Collaborators): (Result<TypeDesc>, GenState)
  {
    var items := schema.items;
    if items == null then (Err(NullPointer), st)
    else
      var claimed := Claim(st, items, parentType, c);
      if claimed.thrown.Some? then (Err(claimed.thrown.value), claimed.state)
      else
        var hoisted := Hoists(c, items, st.typeName);
        match ItemDescriptor(hoisted, claimed.state.typeName, claimed.gen)
        case Err(e) => (Err(e), claimed.state)
        case Ok(descriptor) => Finish(claimed.state, descriptor, claimed.gen, schema, items, ignoreNullableFlag, c)
  }

  /**
   * Hoisting registers the hoisted name, keeping every earlier entry; a name that was already
   * claimed is neither regenerated nor re-recorded, and its definition's imports are not
   * added again.
   */
  lemma GenerateRegistersOnce(st: GenState, schema: Schema, ignoreNullableFlag: bool, parentType: Option<string>,
                              c: Collaborators)
    requires schema.items != null
    ensures var r := Generate(st, schema, ignoreNullableFlag, parentType, c);
      && (Consistent(st.registry) ==> Extends(st.registry, r.1.registry))
      && (Hoists(c, schema.items, st.typeName) ==>
            && r.1.typeName == Some(HoistedName(st.typeName.value, parentType, schema.items, c))
            && r.1.typeName.value in r.1.registry.pregenerated)
      && (!Hoists(c, schema.items, st.typeName) ==> r.1.typeName == st.typeName && r.1.registry == st.registry)
      && (Hoists(c, schema.items, st.typeName) && HoistedName(st.typeName.value, parentType, schema.items, c) in st.registry.pregenerated ==>
            && r.1.registry == st.registry
            && r.1.imports == st.imports + (if r.0.Ok? then c.generatorFor(schema.items, r.1.typeName, None).imports else []))
  {
    var claimed := Claim(st, schema.items, parentType, c);
    if claimed.thrown.None? {
      var hoisted := Hoists(c, schema.items, st.typeName);
      var descriptor := ItemDescriptor(hoisted, claimed.state.typeName, claimed.gen);
      if descriptor.Ok? {
        var r := Finish(claimed.state, descriptor.value, claimed.gen, schema, schema.items, ignoreNullableFlag, c);
        assert r.1.registry == claimed.state.registry && r.1.typeName == claimed.state.typeName;
      }
    }
  }

  /**
   * A generated descriptor is an array (possibly made nullable) whose source text is the
   * item's followed by one `[]`, the item being a non-optional, parenthesised-if-needed form
   * of the item generator's descriptor, or the hoisted name itself.
   */
  lemma GenerateShape(st: GenState, schema: Schema, ignoreNullableFlag: bool, parentType: Option<string>,
                      c: Collaborators)
    requires schema.items != null
    ensures var r := Generate(st, schema, ignoreNullableFlag, parentType, c);
      var gen := c.generatorFor(schema.items, r.1.typeName, None);
      r.0.Ok? ==>
        var arr := if r.0.value.Optional? then r.0.value.inner else r.0.value;
        && arr.ArrayOf?
        && (r.0.value.Optional? <==> c.nullableType(schema, ignoreNullableFlag))
        && (Hoists(c, schema.items, st.typeName) && (gen.kind.PrimitiveGenerator? || gen.kind.ArrayGenerator?)
            && !NeedsParens(gen, schema.items) ==>
              Source(arr) == r.1.typeName.value + "[]")
        && (!Hoists(c, schema.items, st.typeName) && !NeedsParens(gen, schema.items) && !gen.descriptor.value.Optional? ==>
              Source(arr) == Source(gen.descriptor.value) + "[]")
        && (NeedsParens(gen, schema.items) && !Hoists(c, schema.items, st.typeName) ==>
              Source(arr) == "(" + Source(gen.descriptor.value) + ")[]")
  {
  }

  /** A successful generation leaves `maxItems` at most the ceiling, warning once if it lowered it. */
  lemma GenerateClampsMaxItems(st: GenState, schema: Schema, ignoreNullableFlag: bool, parentType: Option<string>,
                               c: Collaborators)
    ensures var r := Generate(st, schema, ignoreNullableFlag, parentType, c);
      r.0.Ok? ==>
        && (r.1.maxItems.Some? ==> r.1.maxItems.value <= c.maxArrayLength || r.1.maxItems == st.maxItems)
        && (st.maxItems.Some? && st.maxItems.value > c.maxArrayLength ==>
              && r.1.maxItems == Some(c.maxArrayLength)
              && r.1.diagnostics == st.diagnostics + [Other("OAS_TYPE_101", [IntToString(st.maxItems.value)])])
        && (st.maxItems.None? || st.maxItems.value <= c.maxArrayLength ==>
              r.1.maxItems == st.maxItems && r.1.diagnostics == st.diagnostics)
  {
  }

  // ---------------------------------------------------------------------------
  // getTypeDescNodeForArraySchema
  // ---------------------------------------------------------------------------

  /** The primitive OpenAPI types whose items map to a built-in Ballerina type. */
  predicate IsPrimitiveType(t: Option<string>) {
    t == Some("integer") || t == Some("number") || t == Some("boolean") || t == Some("string")
  }

  /**
   * `getTypeDescNodeForArraySchema` as a function of the registry: the member type of the
   * items (a reference by escaped name, registered once; a built-in name; a nested array; or
   * the generator's descriptor), parenthesised for enums and unions, in exactly ONE dimension.
   * `fuel` bounds the recursion through nested item schemas, which the source does not bound.
   */
  function ArraySchemaType(schema: Schema, reg: Registry, typeName: Option<string>, parentType: Option<string>,
                           c: Collaborators, fuel: nat): (r: (Result<TypeDesc>, Registry))
    ensures Consistent(reg) ==> Consistent(r.1) && Extends(reg, r.1)
    ensures r.0.Ok? ==> r.0.value.ArrayOf? && r.0.value.dims == 1
    ensures schema.items == null ==> r == (Err(NullPointer), reg) || fuel == 0
    decreases fuel
  {
    if fuel == 0 then (Err(StackOverflow), reg)
    else
      var items := schema.items;
      if items == null then (Err(NullPointer), reg)
      else
        var member: (Result<TypeDesc>, Registry) :=
          if items.ref.Some? then
            match c.resolveRef(items.ref.value)
            case Err(e) => (Err(e), reg)
            case Ok(name) =>
              var validTypeName := c.escape(name);
              var gen := c.generatorFor(c.componentSchema(name), Some(validTypeName), None);
              var registered := Register(reg, validTypeName, gen.definition);
              if registered.1.Some? then (Err(registered.1.value), registered.0)
              else (Ok(Simple(validTypeName)), registered.0)
          else if IsPrimitiveType(items.openApiType) then
            match c.builtinName(items)
            case Err(e) => (Err(e), reg)
            case Ok(b) => (Ok(Simple(b)), reg)
          else if items.openApiType == Some("array") then
            ArraySchemaType(items, reg, typeName, parentType, c, fuel - 1)
          else
            (c.generatorFor(items, typeName, parentType).descriptor, reg);
        match member.0
        case Err(e) => (Err(e), member.1)
        case Ok(m) =>
          var parenthesised := if items.enumValues.Some? || m.Union? then Paren(m) else m;
          (Ok(ArrayOf(parenthesised, 1)), member.1)
  }

  /** Nested item arrays become nested one-dimensional arrays: `T[]` inside `T[][]`, not folded. */
  lemma NestedArraySchemaType(schema: Schema, reg: Registry, typeName: Option<string>, parentType: Option<string>,
                              c: Collaborators, fuel: nat)
    requires fuel > 0 && schema.items != null && schema.items.ref.None?
    requires schema.items.openApiType == Some("array") && schema.items.enumValues.None?
    ensures var outer := ArraySchemaType(schema, reg, typeName, parentType, c, fuel);
      var inner := ArraySchemaType(schema.items, reg, typeName, parentType, c, fuel - 1);
      && (outer.0.Ok? <==> inner.0.Ok?)
      && (outer.0.Ok? ==> outer.0.value == ArrayOf(inner.0.value, 1)
                          && Source(outer.0.value) == Source(inner.0.value) + "[]")
  {
    var inner := ArraySchemaType(schema.items, reg, typeName, parentType, c, fuel - 1);
    if inner.0.Ok? {
      assert Brackets(1) == "[]";
    }
  }

  /** A reference item is named by its escaped component name and claimed in the registry. */
  lemma ReferenceItemRegistered(schema: Schema, reg: Registry, typeName: Option<string>, parentType: Option<string>,
                                c: Collaborators, fuel: nat)
    requires fuel > 0 && schema.items != null && schema.items.ref.Some?
    requires c.resolveRef(schema.items.ref.value).Ok?
    ensures var name := c.escape(c.resolveRef(schema.items.ref.value).value);
      var r := ArraySchemaType(schema, reg, typeName, parentType, c, fuel);
      && name in r.1.pregenerated
      && (name in reg.pregenerated ==> r.1 == reg)
      && (r.0.Ok? ==> r.0.value.member == (if schema.items.enumValues.Some? then Paren(Simple(name)) else Simple(name)))
  {
  }

  // ---------------------------------------------------------------------------
  // The generator
  // ---------------------------------------------------------------------------

  class ArrayTypeGenerator {
    const schema: Schema
    var typeName: Option<string>
    const ignoreNullableFlag: bool
    const parentType: Option<string>
    var subTypesMap: map<string, TypeDefinition>
    var pregeneratedTypeMap: map<string, TypeDesc>
    var imports: seq<string>
    var diagnostics: seq<Diagnostic>
    const collaborators: Collaborators

    constructor(schema: Schema, typeName: Option<string>, ignoreNullableFlag: bool, parentType: Option<string>,
                subTypesMap: map<string, TypeDefinition>, pregeneratedTypeMap: map<string, TypeDesc>,
                collaborators: Collaborators)
      ensures this.schema == schema && this.typeName == typeName
      ensures this.ignoreNullableFlag == ignoreNullableFlag && this.parentType == parentType
      ensures this.subTypesMap == subTypesMap && this.pregeneratedTypeMap == pregeneratedTypeMap
      ensures imports == [] && diagnostics == [] && this.collaborators == collaborators
    {
      this.schema := schema;
      this.typeName := typeName;
      this.ignoreNullableFlag := ignoreNullableFlag;
      this.parentType := parentType;
      this.subTypesMap := subTypesMap;
      this.pregeneratedTypeMap := pregeneratedTypeMap;
      imports := [];
      diagnostics := [];
      this.collaborators := collaborators;
    }

    function State(): GenState
      reads this, schema
    {
      GenState(typeName, Registry(pregeneratedTypeMap, subTypesMap), imports, diagnostics, schema.maxItems)
    }

    /** `generateTypeDescriptorNode`. */
    method GenerateTypeDescriptorNode() returns (r: Result<TypeDesc>)
      modifies this, schema
      ensures (r, State()) == Generate(old(State()), schema, ignoreNullableFlag, parentType, collaborators)
    {
      var c := collaborators;
      var items := schema.items;
      if items == null {
        return Err(NullPointer);
      }
      ghost var st0 := State();
      ghost var claimed := Claim(st0, items, parentType, c);
      var isConstraintsAvailable, typeGenerator, thrown := ClaimItemType(items);
      if thrown.Some? {
        assert Generate(st0, schema, ignoreNullableFlag, parentType, c) == (Err(thrown.value), State());
        return Err(thrown.value);
      }
      ghost var descriptor := ItemDescriptor(isConstraintsAvailable, typeName, typeGenerator);
      var typeDescriptorNode: TypeDesc;
      if (typeGenerator.kind.PrimitiveGenerator? || typeGenerator.kind.ArrayGenerator?) && isConstraintsAvailable {
        typeDescriptorNode := Simple(typeName.value);
      } else {
        if typeGenerator.descriptor.Err? {
          assert Generate(st0, schema, ignoreNullableFlag, parentType, c) == (Err(typeGenerator.descriptor.thrown), State());
          return Err(typeGenerator.descriptor.thrown);
        }
        typeDescriptorNode := typeGenerator.descriptor.value;
      }
      assert descriptor == Ok(typeDescriptorNode);
      assert Generate(st0, schema, ignoreNullableFlag, parentType, c)
          == Finish(State(), typeDescriptorNode, typeGenerator, schema, items, ignoreNullableFlag, c);
      r := FinishTypeDescriptorNode(typeDescriptorNode, typeGenerator, items);
    }

    /** The rest of `generateTypeDescriptorNode` once the item descriptor is known: parentheses,
        the optional marker, the `maxItems` ceiling and the array dimension. */
    method FinishTypeDescriptorNode(descriptor: TypeDesc, typeGenerator: ItemGenerator, items: Schema)
      returns (r: Result<TypeDesc>)
      modifies this, schema
      ensures (r, State())
        == Finish(old(State()), descriptor, typeGenerator, schema, items, ignoreNullableFlag, collaborators)
    {
      var c := collaborators;
      ghost var finished := Finish(State(), descriptor, typeGenerator, schema, items, ignoreNullableFlag, c);
      var typeDescriptorNode := descriptor;
      if typeGenerator.kind.UnionGenerator? || (items.enumValues.Some? && items.enumValues.value != []) {
        typeDescriptorNode := Paren(typeDescriptorNode);
      }
      if typeDescriptorNode.Optional? {
        typeDescriptorNode := typeDescriptorNode.inner;
      }
      if schema.maxItems.Some? {
        if schema.maxItems.value > c.maxArrayLength {
          diagnostics := diagnostics + [Other("OAS_TYPE_101", [IntToString(schema.maxItems.value)])];
          schema.maxItems := Some(c.maxArrayLength);
        }
      }
      var arrayTypeDescriptorNode := FoldDimension(typeDescriptorNode);
      imports := imports + typeGenerator.imports;
      if c.nullableType(schema, ignoreNullableFlag) {
        r := Ok(Optional(arrayTypeDescriptorNode));
      } else {
        r := Ok(arrayTypeDescriptorNode);
      }
      assert r == finished.0;
      assert State() == finished.1;
    }

    /** The hoisting block of `generateTypeDescriptorNode`: the hoisted name becomes the type
        name and is registered once; the items' generator is picked. */
    method ClaimItemType(items: Schema) returns (hoisted: bool, typeGenerator: ItemGenerator, thrown: Option<Thrown>)
      modifies this
      ensures var claimed := Claim(old(State()), items, parentType, collaborators);
        && State() == claimed.state && typeGenerator == claimed.gen && thrown == claimed.thrown
        && hoisted == Hoists(collaborators, items, old(typeName))
      ensures hoisted ==> typeName.Some?
    {
      var c := collaborators;
      hoisted := !c.isNullable && c.hasConstraints(items) && typeName.Some?;
      thrown := None;
      if hoisted {
        typeName := Some(HoistedName(typeName.value, parentType, items, c));
        typeGenerator := c.generatorFor(items, typeName, None);
        if typeName.value !in pregeneratedTypeMap {
          pregeneratedTypeMap := pregeneratedTypeMap[typeName.value := Simple(typeName.value)];
          if typeGenerator.definition.Err? {
            return hoisted, typeGenerator, Some(typeGenerator.definition.thrown);
          }
          imports := imports + typeGenerator.imports;
          subTypesMap := subTypesMap[typeName.value := TypeDefinition(typeName.value, typeGenerator.definition.value)];
        }
      } else {
        typeGenerator := c.generatorFor(items, typeName, None);
      }
    }

    /** `getTypeDescNodeForArraySchema`, recursing through nested item arrays. */
    method GetTypeDescNodeForArraySchema(arraySchema: Schema, fuel: nat) returns (r: Result<TypeDesc>)
      modifies this
      ensures var expected := ArraySchemaType(arraySchema, old(Registry(pregeneratedTypeMap, subTypesMap)),
                                              typeName, parentType, collaborators, fuel);
        r == expected.0 && Registry(pregeneratedTypeMap, subTypesMap) == expected.1
      ensures typeName == old(typeName) && imports == old(imports) && diagnostics == old(diagnostics)
      decreases fuel
    {
      var c := collaborators;
      if fuel == 0 {
        return Err(StackOverflow);
      }
      var items := arraySchema.items;
      if items == null {
        return Err(NullPointer);
      }
      var member: TypeDesc;
      if items.ref.Some? {
        var resolved := c.resolveRef(items.ref.value);
        if resolved.Err? {
          return Err(resolved.thrown);
        }
        var validTypeName := c.escape(resolved.value);
        var typeGenerator := c.generatorFor(c.componentSchema(resolved.value), Some(validTypeName), None);
        if validTypeName !in pregeneratedTypeMap {
          pregeneratedTypeMap := pregeneratedTypeMap[validTypeName := Simple(validTypeName)];
          if typeGenerator.definition.Err? {
            return Err(typeGenerator.definition.thrown);
          }
          subTypesMap := subTypesMap[validTypeName := TypeDefinition(validTypeName, typeGenerator.definition.value)];
        }
        member := Simple(validTypeName);
      } else if IsPrimitiveType(items.openApiType) {
        var builtin := c.builtinName(items);
        if builtin.Err? {
          return Err(builtin.thrown);
        }
        member := Simple(builtin.value);
      } else if items.openApiType == Some("array") {
        var nested := GetTypeDescNodeForArraySchema(items, fuel - 1);
        if nested.Err? {
          return nested;
        }
        member := nested.value;
      } else {
        var descriptor := c.generatorFor(items, typeName, parentType).descriptor;
        if descriptor.Err? {
          return Err(descriptor.thrown);
        }
        member := descriptor.value;
      }
      if items.enumValues.Some? || member.Union? {
        member := Paren(member);
      }
      return Ok(ArrayOf(member, 1));
    }
  }
}
