/** Concrete declarations as the generator writes them for a small shapes
    library: a function taking a struct by reference and a float, a const
    pointer parameter, an opaque pointer, and a two-dimensional struct
    field. */
module Scenarios {
  import opened Results
  import opened Ruby
  import opened Descriptors
  import opened TypeMap
  import opened Mangling
  import opened ArrayFlattening
  import opened Declarations

  /** A declared type without modifiers. */
  function Plain(t: string): TypeData {
    TypeData(t, None, false, false, false, false, [])
  }

  /** A registry where `circle` is a struct and the C builtins are themselves. */
  function Shapes(): Registry {
    Registry(map["circle" := "struct", "float" := "float", "void" := "void", "int" := "int"], {})
  }

  function CircleRef(): TypeData {
    TypeData("circle", None, false, true, false, false, [])
  }

  /** `void move_circle(circle &circle, float dx)`. */
  function MoveCircle(): Function {
    Function("move_circle", [Param("circle", CircleRef()), Param("dx", Plain("float"))], Plain("void"))
  }

  lemma MoveCircleSegments()
    ensures Segment(CircleRef()) == "__circle_ref"
    ensures Segment(Plain("float")) == "__float"
  {
    TrSpaceIdentity("circle");
    TrSpaceIdentity("float");
  }

  /** The symbol of a two-parameter function: the name, then both
      segments in order. */
  lemma SymbolOfTwo(f: Function)
    requires |f.params| == 2
    ensures LibFunctionName(f) == SymbolPrefix + f.name + Segment(f.params[0].data) + Segment(f.params[1].data)
  {
    var p, q := f.params[0], f.params[1];
    SegmentsSnoc([], p);
    SegmentsSnoc([p], q);
    assert [p] + [q] == f.params;
  }

  /** The reference parameter adds "_ref" to its segment; the symbol lists
      both parameters in order. */
  lemma MoveCircleSymbol()
    ensures LibFunctionName(MoveCircle()) == SymbolPrefix + "move_circle" + "__circle_ref" + "__float"
    ensures LibFunctionName(MoveCircle()) == "__sklib__move_circle__circle_ref__float"
  {
    SymbolOfTwo(MoveCircle());
    MoveCircleSegments();
    MoveCircleSymbolText();
  }

  lemma MoveCircleSymbolText()
    ensures SymbolPrefix + "move_circle" + "__circle_ref" + "__float" == "__sklib__move_circle__circle_ref__float"
  {
  }

  lemma MoveCircleTypes()
    ensures LibTypeFor(Shapes(), CircleRef()) == Ok("__sklib_circle")
    ensures LibTypeFor(Shapes(), Plain("float")) == Ok("float")
    ensures LibTypeFor(Shapes(), Plain("void")) == Ok("void")
  {
    RegisteredType(Shapes(), CircleRef());
    RegisteredType(Shapes(), Plain("float"));
    RegisteredType(Shapes(), Plain("void"));
    assert LibPrefix + "circle" == "__sklib_circle";
  }

  /** A short registered name other than `vector` and `void *` goes
      through the direct table. */
  lemma RegisteredType(reg: Registry, d: TypeData)
    requires |d.typ| < 10 && d.typ != "vector" && !(d.typ == "void" && d.isPointer)
    requires d.typ !in reg.functionPointers && d.typ in reg.rawTypes
    ensures reg.rawTypes[d.typ] == "struct" ==> LibTypeFor(reg, d) == Ok(LibPrefix + d.typ)
    ensures reg.rawTypes[d.typ] in {"void", "int", "float", "double"} ==> LibTypeFor(reg, d) == Ok(reg.rawTypes[d.typ])
  {
    FirstMatchWins(reg, d);
  }

  /** A parameter whose C type is known renders as its parts in order. */
  lemma RenderedParam(reg: Registry, p: Param, t: string)
    requires LibTypeFor(reg, p.data) == Ok(t)
    ensures RenderParam(reg, p) == Ok((if p.data.isConst then "const " else "") + t + " "
      + (if p.data.isPointer || p.data.isReference then "*" else "") + p.name)
  {
  }

  lemma MoveCircleParams()
    ensures RenderAll(Shapes(), MoveCircle().params) == Ok(["__sklib_circle *circle", "float dx"])
  {
    var ps := MoveCircle().params;
    MoveCircleTypes();
    RenderedParam(Shapes(), ps[0], "__sklib_circle");
    assert "" + "__sklib_circle" + " " + "*" + "circle" == "__sklib_circle *circle";
    RenderedParam(Shapes(), ps[1], "float");
    assert "" + "float" + " " + "" + "dx" == "float dx";
    assert Mappable(Shapes(), ps[0].data) && Mappable(Shapes(), ps[1].data);
    assert FirstUnmapped(Shapes(), ps) == 2;
    var r := RenderAll(Shapes(), ps).value;
    assert |r| == 2 && Ok(r[0]) == RenderParam(Shapes(), ps[0]) && Ok(r[1]) == RenderParam(Shapes(), ps[1]);
    assert r == ["__sklib_circle *circle", "float dx"];
  }

  lemma JoinTwo(a: string, b: string)
    ensures Join([a, b]) == a + ", " + b
  {
    assert [a, b][1..] == [b];
  }

  /** The reference becomes a C pointer and the struct its library type:
      "void __sklib__move_circle__circle_ref__float(__sklib_circle *circle, float dx)". */
  lemma MoveCircleSignature()
    ensures LibSignatureFor(Shapes(), MoveCircle())
      == Ok("void" + " " + "__sklib__move_circle__circle_ref__float"
            + "(" + ("__sklib_circle *circle" + ", " + "float dx") + ")")
  {
    MoveCircleSymbol();
    MoveCircleTypes();
    MoveCircleParams();
    JoinTwo("__sklib_circle *circle", "float dx");
    assert FirstUnmapped(Shapes(), MoveCircle().params) == |MoveCircle().params|;
  }

  /** A function without parameters has no parameter list at all (`nil`),
      and its signature has empty parentheses: "void __sklib__refresh()". */
  lemma NoParameters()
    ensures LibParameterListFor(Shapes(), Function("refresh", [], Plain("void"))) == Ok(None)
    ensures LibSignatureFor(Shapes(), Function("refresh", [], Plain("void")))
      == Ok("void" + " " + (SymbolPrefix + "refresh") + "(" + "" + ")")
  {
    var f := Function("refresh", [], Plain("void"));
    MoveCircleTypes();
    assert FirstUnmapped(Shapes(), f.params) == 0;
    assert RenderAll(Shapes(), f.params).value == [];
  }

  /** `const int *p` keeps its `const`, and a `void *` parameter is the
      opaque pointer type. */
  lemma ConstAndOpaqueParameters()
    ensures RenderParam(Shapes(), Param("p", TypeData("int", None, true, false, false, true, [])))
      == Ok("const int *p")
    ensures RenderParam(Shapes(), Param("data", TypeData("void", None, true, false, false, false, [])))
      == Ok("__sklib_ptr *data")
  {
    var p := Param("p", TypeData("int", None, true, false, false, true, []));
    var q := Param("data", TypeData("void", None, true, false, false, false, []));
    RegisteredType(Shapes(), p.data);
    RenderedParam(Shapes(), p, "int");
    assert "const " + "int" + " " + "*" + "p" == "const int *p";
    FirstMatchWins(Shapes(), q.data);
    RenderedParam(Shapes(), q, "__sklib_ptr");
    assert "" + "__sklib_ptr" + " " + "*" + "data" == "__sklib_ptr *data";
  }

  /** An unknown type aborts the parameter list with its name. */
  lemma UnknownParameterType()
    ensures LibParameterListFor(Shapes(), Function("f", [Param("w", Plain("window"))], Plain("void")))
      == Err(UnmappedType("window"))
  {
    FirstMatchWins(Shapes(), Plain("window"));
  }

  /** The struct field `float m[3][3]` becomes one array of nine floats. */
  lemma MatrixField()
    ensures LibStructFieldFor("m", TypeData("float", None, false, false, true, false, [3, 3]))
      == "__sklib_float m[9]"
  {
    assert Product([3, 3]) == 9;
    assert NatToString(9) == "9";
  }

  lemma Sizes()
    ensures ArraySizeAs1d([3, 3]) == Some(9)
    ensures ArraySizeAs1d([4]) == Some(4)
    ensures ArraySizeAs1d([2, 3, 4]) == Some(24)
    ensures ArraySizeAs1d([]) == None
  {
    assert Product([3, 3]) == 9;
    assert Product([2, 3, 4]) == 24 by {
      assert [2, 3, 4][1..] == [3, 4];
      assert Product([3, 4]) == 12;
    }
  }

  lemma SmallNumerals()
    ensures IntToString(1) == "1" && IntToString(3) == "3"
  {
    assert DigitChar(1) == '1' && DigitChar(3) == '3';
  }

  /** Flat index 4 of a 3-by-3 field is its centre; a one-dimensional field
      keeps the index. */
  lemma Indices()
    ensures NdArrayIndexAs1d([3, 3], 4) == Ok("[1][1]")
    ensures NdArrayIndexAs1d([5], 3) == Ok("[3]")
  {
    assert FloorDiv(4, 3) == 1 && FloorMod(4, 3) == 1;
    SmallNumerals();
    assert "[" + "1" + "][" + "1" + "]" == "[1][1]";
    assert "[" + "3" + "]" == "[3]";
  }
}
