/** Mapping of a SplashKit type descriptor to the type token used at the C
    library boundary (`lib_map_type_for` and `lib_type_for` of
    src/translators/clib.rb). */
module TypeMap {
  import opened Results
  import opened Ruby
  import opened Descriptors

  /** The raw kinds the direct table knows. */
  const DirectKinds: set<string> :=
    {"void", "int", "float", "double", "byte", "bool", "enum", "struct", "string", "typealias"}

  /** The C types the direct table can produce without the library prefix. */
  const CBuiltins: set<string> := {"void", "int", "float", "double", "unsigned char"}

  /** The prefix of every type the C library defines itself. */
  const LibPrefix: string := "__sklib_"

  /** The `direct_map` hash: raw kind to C type; a struct keeps its own name. */
  function DirectMap(typeName: string): map<string, string>
  {
    map[
      "void" := "void",
      "int" := "int",
      "float" := "float",
      "double" := "double",
      "byte" := "unsigned char",
      "bool" := "int",
      "enum" := "int",
      "struct" := LibPrefix + typeName,
      "string" := "__sklib_string",
      "typealias" := "__sklib_ptr"
    ]
  }

  /** The table has the ten raw kinds as its keys; a struct keeps its own
      name behind the library prefix, every other kind gives the same entry
      whatever the name, and every entry is a C builtin or a library type. */
  lemma DirectMapShape(typeName: string, other: string)
    ensures DirectMap(typeName).Keys == DirectKinds
    ensures DirectMap(typeName)["struct"] == LibPrefix + typeName
    ensures forall k | k in DirectKinds && k != "struct" :: DirectMap(typeName)[k] == DirectMap(other)[k]
    ensures forall k | k in DirectKinds :: DirectMap(typeName)[k] in CBuiltins || LibPrefix <= DirectMap(typeName)[k]
  {
  }

  /** `direct_map[raw_type_for(type_name)]`: `None` (Ruby's `nil`) when the
      name has no raw kind or a raw kind outside the table. */
  function LibMapTypeFor(reg: Registry, typeName: string): (r: Option<string>)
    ensures r.Some? <==> typeName in reg.rawTypes && reg.rawTypes[typeName] in DirectKinds
    ensures r.Some? ==> r.value in CBuiltins || LibPrefix <= r.value
    ensures r.Some? && reg.rawTypes[typeName] == "struct" ==> r.value == LibPrefix + typeName
  {
    if typeName in reg.rawTypes && reg.rawTypes[typeName] in DirectMap(typeName) then
      Some(DirectMap(typeName)[reg.rawTypes[typeName]])
    else
      None
  }

  /** The element type of a template as Ruby interpolates it: "" for `nil`. */
  function TypePText(d: TypeData): string {
    OptText(d.typeP)
  }

  /** The conditions under which `lib_type_for` finds a C type. */
  predicate Mappable(reg: Registry, d: TypeData) {
    || MatchesUnsigned(d.typ)
    || (d.typ == "void" && d.isPointer)
    || d.typ in reg.functionPointers
    || d.typ == "vector"
    || (d.typ in reg.rawTypes && reg.rawTypes[d.typ] in DirectKinds)
  }

  /** `lib_type_for`: the first matching rule decides; a type no rule maps
      raises an error naming it. The result is never empty, and is either a
      plain C type, a library-prefixed type or the unsigned type itself. */
  function LibTypeFor(reg: Registry, d: TypeData): (r: Result<string>)
    ensures r.Ok? <==> Mappable(reg, d)
    ensures r.Err? ==> r.error == UnmappedType(d.typ)
    ensures r.Ok? ==> |r.value| > 0
    ensures r.Ok? ==> r.value in CBuiltins || LibPrefix <= r.value || (MatchesUnsigned(d.typ) && r.value == d.typ)
  {
    var t := d.typ;
    if MatchesUnsigned(t) then Ok(t)
    else if t == "void" && d.isPointer then Ok("__sklib_ptr")
    else if t in reg.functionPointers then Ok(LibPrefix + t)
    else if t == "vector" then Ok("__sklib_vector_" + TypePText(d))
    else
      match LibMapTypeFor(reg, t)
      case None => Err(UnmappedType(t))
      case Some(c) => Ok(c)
  }

  /** The rules of `lib_type_for` in their order of precedence: an unsigned
      type passes through even when it is also registered elsewhere, a
      `void *` is the opaque pointer whatever the registry says about
      `void`, a registered function pointer wins over the template rule and
      the table, `vector` wins over the table (and takes "" for a missing
      element type), and only then is the table consulted. */
  lemma FirstMatchWins(reg: Registry, d: TypeData)
    ensures MatchesUnsigned(d.typ) ==> LibTypeFor(reg, d) == Ok(d.typ)
    ensures d.typ == "void" && d.isPointer ==> LibTypeFor(reg, d) == Ok("__sklib_ptr")
    ensures !MatchesUnsigned(d.typ) && !(d.typ == "void" && d.isPointer) && d.typ in reg.functionPointers
      ==> LibTypeFor(reg, d) == Ok(LibPrefix + d.typ)
    ensures d.typ == "vector" && d.typ !in reg.functionPointers
      ==> LibTypeFor(reg, d) == Ok("__sklib_vector_" + TypePText(d))
    ensures d.typ == "vector" && d.typeP.None? && d.typ !in reg.functionPointers
      ==> LibTypeFor(reg, d) == Ok("__sklib_vector_")
    ensures !MatchesUnsigned(d.typ) && !(d.typ == "void" && d.isPointer)
      && d.typ !in reg.functionPointers && d.typ != "vector"
      ==> LibTypeFor(reg, d) == (match LibMapTypeFor(reg, d.typ)
                                 case None => Err(UnmappedType(d.typ))
                                 case Some(c) => Ok(c))
  {
    if d.typ == "void" || d.typ == "vector" {
      assert !MatchesUnsigned(d.typ);
    }
    if d.typeP.None? {
      assert "__sklib_vector_" + TypePText(d) == "__sklib_vector_";
    }
  }

  /** Only the declared type, the element type of `vector` and whether a
      `void` is a pointer decide the mapping: references, arrays, `const`
      and dimensions never do. */
  lemma MappingIgnoresOtherModifiers(reg: Registry, d: TypeData, e: TypeData)
    requires d.typ == e.typ
    requires d.typ == "vector" ==> d.typeP == e.typeP
    requires d.typ == "void" ==> d.isPointer == e.isPointer
    ensures LibTypeFor(reg, d) == LibTypeFor(reg, e)
  {
    if d.typ == "void" || d.typ == "vector" {
      assert !MatchesUnsigned(d.typ);
    }
  }

  /** What the direct table gives each raw kind, read through `raw_type_for`. */
  lemma DirectTableEntries(reg: Registry, name: string)
    requires name in reg.rawTypes
    ensures var k := reg.rawTypes[name];
      && (k == "void" ==> LibMapTypeFor(reg, name) == Some("void"))
      && (k == "int" ==> LibMapTypeFor(reg, name) == Some("int"))
      && (k == "float" ==> LibMapTypeFor(reg, name) == Some("float"))
      && (k == "double" ==> LibMapTypeFor(reg, name) == Some("double"))
      && (k == "byte" ==> LibMapTypeFor(reg, name) == Some("unsigned char"))
      && (k == "bool" ==> LibMapTypeFor(reg, name) == Some("int"))
      && (k == "enum" ==> LibMapTypeFor(reg, name) == Some("int"))
      && (k == "struct" ==> LibMapTypeFor(reg, name) == Some("__sklib_" + name))
      && (k == "string" ==> LibMapTypeFor(reg, name) == Some("__sklib_string"))
      && (k == "typealias" ==> LibMapTypeFor(reg, name) == Some("__sklib_ptr"))
      && (k !in DirectKinds ==> LibMapTypeFor(reg, name) == None)
  {
  }
}
