/** The C declarations the generator writes: parameter lists, full function
    signatures and struct fields (`lib_parameter_list_for`,
    `lib_signature_for` and `lib_struct_field_for` of
    src/translators/clib.rb). */
module Declarations {
  import opened Results
  import opened Ruby
  import opened Descriptors
  import opened TypeMap
  import opened Mangling
  import opened ArrayFlattening

  /** The position of the first parameter whose type has no C type, or the
      number of parameters when every one maps. */
  function FirstUnmapped(reg: Registry, ps: seq<Param>): (k: nat)
    ensures k <= |ps|
    ensures forall j | 0 <= j < k :: Mappable(reg, ps[j].data)
    ensures k < |ps| ==> !Mappable(reg, ps[k].data)
  {
    if ps == [] then 0
    else if !Mappable(reg, ps[0].data) then 0
    else 1 + FirstUnmapped(reg, ps[1..])
  }

  /** One parameter as the block of `reduce` renders it: "const " when the
      parameter is `const`, the C type, a space, "*" when it is a pointer or
      a reference (C has no references), then its name. */
  function RenderParam(reg: Registry, p: Param): (r: Result<string>)
    ensures r.Ok? <==> Mappable(reg, p.data)
    ensures r.Err? ==> r.error == UnmappedType(p.data.typ)
    ensures r.Ok? ==> var t := LibTypeFor(reg, p.data).value;
      && (p.data.isConst ==> "const " + t + " " <= r.value)
      && (!p.data.isConst ==> t + " " <= r.value)
      && |r.value| > |p.name|
      && r.value[|r.value| - |p.name|..] == p.name
      && (r.value[|r.value| - |p.name| - 1] == '*' <==> p.data.isPointer || p.data.isReference)
      && |r.value| == (if p.data.isConst then 6 else 0) + |t| + 1
           + (if p.data.isPointer || p.data.isReference then 1 else 0) + |p.name|
  {
    var t :- LibTypeFor(reg, p.data);
    var ptr := if p.data.isPointer || p.data.isReference then "*" else "";
    var const_ := if p.data.isConst then "const " else "";
    Ok(const_ + t + " " + ptr + p.name)
  }

  /** Every parameter rendered, in order; the first that cannot be rendered
      decides the error. */
  function RenderAll(reg: Registry, ps: seq<Param>): (r: Result<seq<string>>)
    ensures r.Ok? <==> FirstUnmapped(reg, ps) == |ps|
    ensures r.Err? ==> r.error == UnmappedType(ps[FirstUnmapped(reg, ps)].data.typ)
    ensures r.Ok? ==> |r.value| == |ps|
    ensures r.Ok? ==> forall i | 0 <= i < |ps| :: RenderParam(reg, ps[i]) == Ok(r.value[i])
  {
    if ps == [] then Ok([])
    else
      var head :- RenderParam(reg, ps[0]);
      var tail :- RenderAll(reg, ps[1..]);
      Ok([head] + tail)
  }

  /** The strings joined with ", " between them. */
  function Join(ss: seq<string>): string {
    if ss == [] then ""
    else if |ss| == 1 then ss[0]
    else ss[0] + ", " + Join(ss[1..])
  }

  lemma JoinCons(head: string, tail: seq<string>)
    ensures Join([head] + tail) == if tail == [] then head else head + ", " + Join(tail)
  {
    assert ([head] + tail)[1..] == tail;
  }

  /** The block of `reduce('')` in `lib_parameter_list_for`: each rendered
      parameter is appended after ", "; the first that cannot be rendered
      aborts the fold. */
  function FoldParamList(reg: Registry, memo: string, ps: seq<Param>): (r: Result<string>)
    ensures r.Ok? <==> FirstUnmapped(reg, ps) == |ps|
    ensures r.Err? ==> r.error == UnmappedType(ps[FirstUnmapped(reg, ps)].data.typ)
    ensures r.Ok? ==> memo <= r.value
    ensures r.Ok? && ps != [] ==> |r.value| > |memo| + 2 && r.value[|memo|..|memo| + 2] == ", "
    decreases ps
  {
    if ps == [] then Ok(memo)
    else
      var s :- RenderParam(reg, ps[0]);
      var next := memo + ", " + s;
      var r := FoldParamList(reg, next, ps[1..]);
      assert r.Ok? ==> memo <= r.value && r.value[|memo|..|memo| + 2] == ", " by {
        if r.Ok? {
          assert next <= r.value && next[|memo|..|memo| + 2] == ", ";
        }
      }
      r
  }

  /** One step of the fold, on the strings alone. */
  lemma JoinStep(memo: string, s: string, ts: seq<string>)
    ensures memo + ", " + s + (if ts == [] then "" else ", " + Join(ts)) == memo + (", " + Join([s] + ts))
  {
    JoinCons(s, ts);
    if ts == [] {
      assert memo + ", " + s + "" == memo + (", " + s);
    } else {
      assert memo + ", " + s + (", " + Join(ts)) == memo + (", " + (s + ", " + Join(ts)));
    }
  }

  /** The fold only ever extends its memo: a non-empty parameter list comes
      out as one leading ", " and the rendered parameters joined by ", ";
      it fails exactly when rendering them fails, with the same error. */
  lemma {:induction false} FoldParamListJoins(reg: Registry, memo: string, ps: seq<Param>)
    ensures RenderAll(reg, ps).Err? ==> FoldParamList(reg, memo, ps) == Err(RenderAll(reg, ps).error)
    ensures RenderAll(reg, ps).Ok? ==>
      FoldParamList(reg, memo, ps) == Ok(memo + (if ps == [] then "" else ", " + Join(RenderAll(reg, ps).value)))
    decreases ps
  {
    if ps == [] {
      assert memo + "" == memo;
    } else {
      var h := RenderParam(reg, ps[0]);
      var tail := ps[1..];
      if h.Err? {
        assert FoldParamList(reg, memo, ps) == Err(h.error);
        assert RenderAll(reg, ps) == Err(h.error);
      } else {
        var s := h.value;
        assert FoldParamList(reg, memo, ps) == FoldParamList(reg, memo + ", " + s, tail);
        FoldParamListJoins(reg, memo + ", " + s, tail);
        if RenderAll(reg, tail).Err? {
          assert RenderAll(reg, ps) == Err(RenderAll(reg, tail).error);
        } else {
          var ts := RenderAll(reg, tail).value;
          assert RenderAll(reg, ps) == Ok([s] + ts);
          assert ts == [] <==> tail == [];
          JoinStep(memo, s, ts);
        }
      }
    }
  }

  /** `lib_parameter_list_for`: the fold with its leading ", " cut off by
      `[2..-1]`. The rendered parameters joined by ", ", or `nil` when there
      are no parameters; the first parameter without a C type aborts with
      its type name. */
  function LibParameterListFor(reg: Registry, f: Function): (r: Result<Option<string>>)
    ensures r.Ok? <==> FirstUnmapped(reg, f.params) == |f.params|
    ensures r.Err? ==> r.error == UnmappedType(f.params[FirstUnmapped(reg, f.params)].data.typ)
    ensures r.Ok? && f.params == [] ==> r.value == None
    ensures r.Ok? && f.params != [] ==> r.value == Some(Join(RenderAll(reg, f.params).value))
  {
    FoldParamListJoins(reg, "", f.params);
    var folded :- FoldParamList(reg, "", f.params);
    assert f.params == [] ==> folded == "";
    assert f.params != [] ==> folded == ", " + Join(RenderAll(reg, f.params).value);
    assert f.params != [] ==> folded[2..] == Join(RenderAll(reg, f.params).value);
    Ok(DropTwo(folded))
  }

  /** `lib_signature_for`: the C return type, a space, the mangled symbol and
      the parameter list in parentheses (empty for no parameters). An
      unmapped return type is reported before any parameter; otherwise the
      first unmapped parameter is. */
  function LibSignatureFor(reg: Registry, f: Function): (r: Result<string>)
    ensures r.Ok? <==> Mappable(reg, f.ret) && FirstUnmapped(reg, f.params) == |f.params|
    ensures !Mappable(reg, f.ret) ==> r == Err(UnmappedType(f.ret.typ))
    ensures Mappable(reg, f.ret) && r.Err? ==> r.error == UnmappedType(f.params[FirstUnmapped(reg, f.params)].data.typ)
    ensures r.Ok? ==>
      r.value == LibTypeFor(reg, f.ret).value + " " + LibFunctionName(f) + "(" + Join(RenderAll(reg, f.params).value) + ")"
  {
    var name := LibFunctionName(f);
    var returnType :- LibTypeFor(reg, f.ret);
    var parameterList :- LibParameterListFor(reg, f);
    Ok(returnType + " " + name + "(" + OptText(parameterList) + ")")
  }

  /** The "[n]" suffix of a field: for an array its flattened size, or "[]"
      when there are no dimensions (`inject` gives `nil`); nothing for any
      other field. */
  function ArrayDecl(d: TypeData): (r: string)
    ensures !d.isArray ==> r == ""
    ensures d.isArray && d.dims != [] ==> r == "[" + IntToString(Product(d.dims)) + "]"
    ensures d.isArray && d.dims == [] ==> r == "[]"
  {
    if d.isArray then "[" + (match ArraySizeAs1d(d.dims) case None => "" case Some(n) => IntToString(n)) + "]"
    else ""
  }

  predicate EndsWith(s: string, suffix: string) {
    |suffix| <= |s| && s[|s| - |suffix|..] == suffix
  }

  /** The shape of a declaration "__sklib_<type> [*]<name><array>": its
      head, and its tail from the star or the space before the name. */
  lemma FieldShape(typ: string, ptrStar: string, name: string, decl: string)
    requires ptrStar == "*" || ptrStar == ""
    ensures LibPrefix + typ + " " <= LibPrefix + typ + " " + ptrStar + name + decl
    ensures EndsWith(LibPrefix + typ + " " + ptrStar + name + decl,
      (if ptrStar == "*" then "*" else " ") + name + decl)
  {
    var field := LibPrefix + typ + " " + ptrStar + name + decl;
    var head := LibPrefix + typ + " ";
    assert field == head + (ptrStar + name + decl);
    var suffix := (if ptrStar == "*" then "*" else " ") + name + decl;
    var lead := LibPrefix + typ + (if ptrStar == "*" then " " else "");
    assert field == lead + suffix;
    assert field[|lead|..] == suffix;
  }

  /** `lib_struct_field_for`: a `void *` field is the opaque pointer type and
      its name, nothing else; any other field is "__sklib_" and its declared
      type (not its C type), a space, "*" for a pointer, the name and, for an
      array, its flattened size in brackets. */
  function LibStructFieldFor(fieldName: string, d: TypeData): (r: string)
    ensures d.isPointer && d.typ == "void" ==> r == "__sklib_ptr " + fieldName
    ensures !(d.isPointer && d.typ == "void") ==> LibPrefix + d.typ + " " <= r
    ensures !(d.isPointer && d.typ == "void") ==>
      EndsWith(r, (if d.isPointer then "*" else " ") + fieldName + ArrayDecl(d))
    ensures !(d.isPointer && d.typ == "void") ==>
      |r| == |LibPrefix| + |d.typ| + 1 + (if d.isPointer then 1 else 0) + |fieldName| + |ArrayDecl(d)|
  {
    var ptrStar := if d.isPointer then "*" else "";
    var arrayDecl := ArrayDecl(d);
    FieldShape(d.typ, ptrStar, fieldName, arrayDecl);
    if d.isPointer && d.typ == "void" then "__sklib_ptr " + fieldName
    else LibPrefix + d.typ + " " + ptrStar + fieldName + arrayDecl
  }

  /** A field whose type is a struct or a function pointer of the library
      is declared with the same C type `lib_type_for` gives a parameter of
      that type: the field text starts with it and a space. */
  lemma StructFieldUsesLibType(reg: Registry, fieldName: string, d: TypeData)
    requires !MatchesUnsigned(d.typ) && d.typ != "vector" && !(d.typ == "void" && d.isPointer)
    requires d.typ in reg.functionPointers || (d.typ in reg.rawTypes && reg.rawTypes[d.typ] == "struct")
    ensures LibTypeFor(reg, d).Ok?
    ensures LibTypeFor(reg, d).value + " " <= LibStructFieldFor(fieldName, d)
  {
    FirstMatchWins(reg, d);
  }
}
