/** Names of the adapter functions that convert a value between its
    SplashKit and its C library representation (`sk_adapter_fn_for` and
    `lib_adapter_fn_for` of src/translators/clib.rb). */
module Adapters {
  import opened Results
  import opened Ruby
  import opened Descriptors
  import opened TypeMap

  const AdapterPrefix: string := "__skadapter__to_"

  /** `sk_adapter_fn_for`, the adapter into SplashKit's own type, named
      after the first rule that applies: "sklib_ptr" for `void *`, an
      unsigned type with its spaces as underscores, "unsigned_char" for
      `byte`, the type and its element type for a template, and otherwise
      the declared type as it is. */
  function SkAdapterFnFor(d: TypeData): (r: string)
    ensures AdapterPrefix <= r
    ensures d.typ == "void" && d.isPointer ==> r == AdapterPrefix + "sklib_ptr"
    ensures MatchesUnsigned(d.typ) ==> r == AdapterPrefix + TrSpace(d.typ)
    ensures d.typ == "byte" ==> r == AdapterPrefix + "unsigned_char"
    ensures !(d.typ == "void" && d.isPointer) && !MatchesUnsigned(d.typ) && d.typ != "byte"
      ==> r == AdapterPrefix + d.typ + (if d.typeP.Some? then "_" + d.typeP.value else "")
  {
    var typ :=
      if d.typ == "void" && d.isPointer then "sklib_ptr"
      else if MatchesUnsigned(d.typ) then TrSpace(d.typ)
      else if d.typ == "byte" then "unsigned_char"
      else if d.typeP.Some? then d.typ + "_" + d.typeP.value
      else d.typ;
    AdapterPrefix + typ
  }

  /** `lib_adapter_fn_for`, the adapter into the C library's type: the C
      type of the descriptor, without its first two characters when a line
      of it starts with "__", with its spaces as underscores. It fails
      exactly when the C type cannot be found, and its name never holds a
      space. */
  function LibAdapterFnFor(reg: Registry, d: TypeData): (r: Result<string>)
    ensures r.Ok? <==> LibTypeFor(reg, d).Ok?
    ensures r.Err? ==> r.error == UnmappedType(d.typ)
    ensures r.Ok? ==> AdapterPrefix <= r.value && ' ' !in r.value
    ensures r.Ok? ==> var t := LibTypeFor(reg, d).value;
      '\n' !in t ==> r.value == AdapterPrefix + TrSpace(if "__" <= t then t[2..] else t)
  {
    var t :- LibTypeFor(reg, d);
    var stripped := if LeadingDoubleUnderscore(t) then t[2..] else t;
    LeadingDoubleUnderscoreOneLineIfNoBreak(t);
    Ok(AdapterPrefix + TrSpace(stripped))
  }

  lemma LeadingDoubleUnderscoreOneLineIfNoBreak(t: string)
    ensures '\n' !in t ==> (LeadingDoubleUnderscore(t) <==> "__" <= t)
  {
    if '\n' !in t {
      LeadingDoubleUnderscoreOneLine(t);
    }
  }

  /** A C type that starts with "__" loses those two characters. */
  lemma LibAdapterOfPrefixedType(reg: Registry, d: TypeData, rest: string)
    requires LibTypeFor(reg, d) == Ok("__" + rest)
    requires ' ' !in rest
    ensures LibAdapterFnFor(reg, d) == Ok(AdapterPrefix + rest)
  {
    var t := "__" + rest;
    assert AtLineStart(t, 0) && t[0] == '_' && t[1] == '_';
    assert LeadingDoubleUnderscore(t);
    assert t[2..] == rest;
    TrSpaceIdentity(rest);
  }

  /** A one-line C type that does not start with "__" keeps all its
      characters. */
  lemma LibAdapterOfPlainType(reg: Registry, d: TypeData, t: string)
    requires LibTypeFor(reg, d) == Ok(t)
    requires '\n' !in t && !("__" <= t)
    ensures LibAdapterFnFor(reg, d) == Ok(AdapterPrefix + TrSpace(t))
  {
    LeadingDoubleUnderscoreOneLine(t);
  }

  // Where the C type is SplashKit's own type, both directions use the same
  // adapter name: `void *`, the unsigned types, `byte`, and the plain `int`,
  // `float` and `double` whose raw kind is the type itself.

  /** `void *` gives "__skadapter__to_sklib_ptr" both ways, whatever the
      registry holds. */
  lemma AdapterNamesAgreeOnVoidPointer(reg: Registry, d: TypeData)
    requires d.typ == "void" && d.isPointer
    ensures LibAdapterFnFor(reg, d) == Ok(SkAdapterFnFor(d)) == Ok(AdapterPrefix + "sklib_ptr")
  {
    FirstMatchWins(reg, d);
    assert "__sklib_ptr" == "__" + "sklib_ptr";
    LibAdapterOfPrefixedType(reg, d, "sklib_ptr");
  }

  /** An unsigned type on one line gives the same name both ways. */
  lemma AdapterNamesAgreeOnUnsigned(reg: Registry, d: TypeData)
    requires MatchesUnsigned(d.typ) && '\n' !in d.typ
    ensures LibAdapterFnFor(reg, d) == Ok(SkAdapterFnFor(d))
  {
    FirstMatchWins(reg, d);
    MatchesUnsignedOneLine(d.typ);
    assert d.typ[0] == 'u';
  }

  /** `byte` gives "__skadapter__to_unsigned_char" both ways. */
  lemma AdapterNamesAgreeOnByte(reg: Registry, d: TypeData)
    requires d.typ == "byte" && d.typ !in reg.functionPointers
    requires d.typ in reg.rawTypes && reg.rawTypes[d.typ] == "byte"
    ensures LibAdapterFnFor(reg, d) == Ok(SkAdapterFnFor(d)) == Ok(AdapterPrefix + "unsigned_char")
  {
    LibAdapterOfByte(reg, d);
    assert !MatchesUnsigned(d.typ);
  }

  lemma LibAdapterOfByte(reg: Registry, d: TypeData)
    requires d.typ == "byte" && d.typ !in reg.functionPointers
    requires d.typ in reg.rawTypes && reg.rawTypes[d.typ] == "byte"
    ensures LibAdapterFnFor(reg, d) == Ok(AdapterPrefix + "unsigned_char")
  {
    FirstMatchWins(reg, d);
    assert LibTypeFor(reg, d) == Ok("unsigned char");
    UnsignedCharIsPlain();
    LibAdapterOfPlainType(reg, d, "unsigned char");
    UnsignedCharText();
  }

  lemma UnsignedCharText()
    ensures TrSpace("unsigned char") == "unsigned_char"
  {
    TrSpaceOneSpace("unsigned", "char");
    assert "unsigned" + " " + "char" == "unsigned char";
    assert "unsigned" + "_" + "char" == "unsigned_char";
  }

  lemma UnsignedCharIsPlain()
    ensures '\n' !in "unsigned char" && !("__" <= "unsigned char")
  {
    assert "unsigned char"[0] == 'u';
  }

  /** `int`, `float` and `double` keep their own name both ways. */
  lemma AdapterNamesAgreeOnPrimitives(reg: Registry, d: TypeData)
    requires d.typ in {"int", "float", "double"} && d.typeP.None? && d.typ !in reg.functionPointers
    requires d.typ in reg.rawTypes && reg.rawTypes[d.typ] == d.typ
    ensures LibAdapterFnFor(reg, d) == Ok(SkAdapterFnFor(d)) == Ok(AdapterPrefix + d.typ)
  {
    FirstMatchWins(reg, d);
    assert LibTypeFor(reg, d) == Ok(d.typ);
    PrimitiveIsPlain(d.typ);
    LibAdapterOfPlainType(reg, d, d.typ);
  }

  lemma PrimitiveIsPlain(t: string)
    requires t in {"int", "float", "double"}
    ensures '\n' !in t && !("__" <= t) && TrSpace(t) == t
  {
    assert t[0] != '_' && ' ' !in t;
    TrSpaceIdentity(t);
  }

  /** For a type the C library defines itself, the two directions differ:
      the adapter into the C library carries the "sklib_" of the C type
      (a struct, a function pointer), the one into SplashKit does not. */
  lemma AdapterNamesForLibraryTypes(reg: Registry, d: TypeData)
    requires ' ' !in d.typ && '\n' !in d.typ
    requires !MatchesUnsigned(d.typ) && d.typ !in {"void", "byte", "vector"} && d.typeP.None?
    ensures d.typ in reg.functionPointers
      ==> LibAdapterFnFor(reg, d) == Ok(AdapterPrefix + "sklib_" + d.typ)
    ensures d.typ !in reg.functionPointers && d.typ in reg.rawTypes && reg.rawTypes[d.typ] == "struct"
      ==> LibAdapterFnFor(reg, d) == Ok(AdapterPrefix + "sklib_" + d.typ)
    ensures SkAdapterFnFor(d) == AdapterPrefix + d.typ
  {
    FirstMatchWins(reg, d);
    var t := LibPrefix + d.typ;
    assert "__" <= t && t[2..] == "sklib_" + d.typ;
    assert ' ' !in "sklib_" + d.typ;
    TrSpaceIdentity("sklib_" + d.typ);
    assert '\n' !in t;
    assert AdapterPrefix + ("sklib_" + d.typ) == AdapterPrefix + "sklib_" + d.typ;
  }
}
