/** The C library's symbol for a SplashKit function (`lib_function_name_for`
    of src/translators/clib.rb): the function's name followed by one segment
    per parameter, built by a left fold over the parameters. */
module Mangling {
  import opened Results
  import opened Ruby
  import opened Descriptors

  const SymbolPrefix: string := "__sklib__"

  /** The part of a parameter that its segment encodes. */
  datatype MangleKey = MangleKey(typ: string, isReference: bool, isPointer: bool, isArray: bool)

  function KeyOf(d: TypeData): MangleKey {
    MangleKey(d.typ, d.isReference, d.isPointer, d.isArray)
  }

  function Keys(ps: seq<Param>): seq<MangleKey> {
    seq(|ps|, i requires 0 <= i < |ps| => KeyOf(ps[i].data))
  }

  /** The declared types of the parameters, in order. */
  function Types(ps: seq<Param>): seq<string> {
    seq(|ps|, i requires 0 <= i < |ps| => ps[i].data.typ)
  }

  /** The modifier part of a segment: "_ref", "_ptr" and "_array", each only
      when its modifier is set, always in that order. */
  function Suffix(isReference: bool, isPointer: bool, isArray: bool): string {
    (if isReference then "_ref" else "")
      + (if isPointer then "_ptr" else "")
      + (if isArray then "_array" else "")
  }

  /** One parameter's segment: "__", the declared type with its spaces as
      underscores, then the modifier suffix. */
  function Segment(d: TypeData): (s: string)
    ensures "__" + TrSpace(d.typ) <= s
    ensures ' ' !in s
  {
    SuffixShape(d.isReference, d.isPointer, d.isArray);
    "__" + TrSpace(d.typ) + Suffix(d.isReference, d.isPointer, d.isArray)
  }

  /** No two underscores in a row, and no underscore at the end. */
  predicate Unglued(s: string) {
    && (forall i | 0 <= i < |s| - 1 :: !(s[i] == '_' && s[i + 1] == '_'))
    && (|s| > 0 ==> s[|s| - 1] != '_')
  }

  lemma SuffixShape(isReference: bool, isPointer: bool, isArray: bool)
    ensures Unglued(Suffix(isReference, isPointer, isArray))
    ensures ' ' !in Suffix(isReference, isPointer, isArray)
  {
  }

  /** The suffix gives the modifiers back: its length is 4 per "_ref" or
      "_ptr" and 6 for "_array", and its second character tells "_ref" from
      "_ptr". */
  lemma SuffixDeterminesModifiers(r1: bool, p1: bool, a1: bool, r2: bool, p2: bool, a2: bool)
    requires Suffix(r1, p1, a1) == Suffix(r2, p2, a2)
    ensures r1 == r2 && p1 == p2 && a1 == a2
  {
    SuffixLayout(r1, p1, a1);
    SuffixLayout(r2, p2, a2);
  }

  lemma SuffixLayout(isReference: bool, isPointer: bool, isArray: bool)
    ensures |Suffix(isReference, isPointer, isArray)|
      == (if isReference then 4 else 0) + (if isPointer then 4 else 0) + (if isArray then 6 else 0)
    ensures isReference ==> Suffix(isReference, isPointer, isArray)[1] == 'r'
    ensures !isReference && isPointer ==> Suffix(isReference, isPointer, isArray)[1] == 'p'
  {
  }

  /** A string without "__" inside and no trailing "_", followed by nothing
      or by something that starts with "__", can be split only one way. */
  lemma UngluedSplit(s1: string, x1: string, s2: string, x2: string)
    requires Unglued(s1) && Unglued(s2)
    requires x1 == [] || "__" <= x1
    requires x2 == [] || "__" <= x2
    requires s1 + x1 == s2 + x2
    ensures s1 == s2 && x1 == x2
  {
    if |s1| < |s2| {
      ShorterSplit(s1, x1, s2, x2);
    } else if |s2| < |s1| {
      ShorterSplit(s2, x2, s1, x1);
    }
    var w := s1 + x1;
    assert s1 == w[..|s1|] == s2;
  }

  /** Where a shorter first part is followed by "__", the longer first part
      holds "__" or ends with "_". */
  lemma ShorterSplit(s1: string, x1: string, s2: string, x2: string)
    requires x1 == [] || "__" <= x1
    requires s1 + x1 == s2 + x2
    requires |s1| < |s2|
    ensures x1 != []
    ensures || (|s1| + 1 < |s2| && s2[|s1|] == '_' && s2[|s1| + 1] == '_')
            || s2[|s2| - 1] == '_'
  {
    var w := s1 + x1;
    assert |w| == |s2 + x2| >= |s2| > |s1|;
    var k := |s1|;
    assert w[k] == x1[0] == '_' && w[k + 1] == x1[1] == '_';
    assert s2[k] == w[k];
    if k + 1 < |s2| {
      assert s2[k + 1] == w[k + 1];
    }
  }

  /** For one declared type the segment gives the modifiers back. */
  lemma SegmentDeterminesModifiers(d: TypeData, e: TypeData)
    requires d.typ == e.typ && Segment(d) == Segment(e)
    ensures KeyOf(d) == KeyOf(e)
  {
    var head := "__" + TrSpace(d.typ);
    var sd := Suffix(d.isReference, d.isPointer, d.isArray);
    var se := Suffix(e.isReference, e.isPointer, e.isArray);
    assert sd == Segment(d)[|head|..];
    assert se == Segment(e)[|head|..];
    SuffixDeterminesModifiers(d.isReference, d.isPointer, d.isArray, e.isReference, e.isPointer, e.isArray);
  }

  /** The segments of all parameters, in declaration order. */
  function Segments(ps: seq<Param>): string {
    if ps == [] then "" else Segment(ps[0].data) + Segments(ps[1..])
  }

  /** The block of `reduce`: the symbol so far, extended by the segments of
      the remaining parameters one at a time. The memo is never rewritten,
      only extended by the segments in order. */
  function FoldMangle(memo: string, ps: seq<Param>): (r: string)
    ensures r == memo + Segments(ps)
    decreases ps
  {
    if ps == [] then memo
    else
      var seg := Segment(ps[0].data);
      assert Segments(ps) == seg + Segments(ps[1..]);
      assert memo + seg + Segments(ps[1..]) == memo + (seg + Segments(ps[1..]));
      FoldMangle(memo + seg, ps[1..])
  }

  /** `lib_function_name_for`: "__sklib__", the name, then the parameters'
      segments in declaration order; with no parameters, exactly
      "__sklib__" followed by the name. */
  function LibFunctionName(f: Function): (r: string)
    ensures r == SymbolPrefix + f.name + Segments(f.params)
    ensures f.params == [] ==> r == SymbolPrefix + f.name
  {
    FoldMangle(SymbolPrefix + f.name, f.params)
  }

  /** Adding a parameter at the end adds its segment at the end. */
  lemma {:induction false} SegmentsSnoc(ps: seq<Param>, p: Param)
    ensures Segments(ps + [p]) == Segments(ps) + Segment(p.data)
  {
    if ps == [] {
      assert [p][1..] == [];
    } else {
      assert (ps + [p])[1..] == ps[1..] + [p];
      SegmentsSnoc(ps[1..], p);
    }
  }

  /** Parameters with the same keys in the same order give the same
      segments: parameter names never matter. */
  lemma {:induction false} SegmentsDependOnKeysOnly(ps: seq<Param>, qs: seq<Param>)
    requires Keys(ps) == Keys(qs)
    ensures Segments(ps) == Segments(qs)
  {
    assert |ps| == |Keys(ps)| == |Keys(qs)| == |qs|;
    if ps != [] {
      assert KeyOf(ps[0].data) == Keys(ps)[0] == Keys(qs)[0] == KeyOf(qs[0].data);
      assert Keys(ps[1..]) == Keys(ps)[1..];
      assert Keys(qs[1..]) == Keys(qs)[1..];
      SegmentsDependOnKeysOnly(ps[1..], qs[1..]);
    }
  }

  /** The symbol is a function of the function's name and its parameters'
      types and modifiers only: parameter names, `const`, element types,
      array sizes and the return type never change it. */
  lemma MangledNameIgnoresNamesAndReturn(f: Function, g: Function)
    requires f.name == g.name
    requires Keys(f.params) == Keys(g.params)
    ensures LibFunctionName(f) == LibFunctionName(g)
  {
    SegmentsDependOnKeysOnly(f.params, g.params);
  }

  lemma SegmentsStart(ps: seq<Param>)
    ensures ps == [] || "__" <= Segments(ps)
  {
  }

  /** Parameters of the same declared types with the same segments have the
      same modifiers: segments can be told apart once the types are known. */
  lemma {:induction false} SegmentsDetermineKeys(ps: seq<Param>, qs: seq<Param>)
    requires Types(ps) == Types(qs)
    requires Segments(ps) == Segments(qs)
    ensures Keys(ps) == Keys(qs)
  {
    assert |ps| == |Types(ps)| == |Types(qs)| == |qs|;
    if ps != [] {
      assert ps[0].data.typ == Types(ps)[0] == Types(qs)[0] == qs[0].data.typ;
      SegmentsStart(ps[1..]);
      SegmentsStart(qs[1..]);
      SegmentSplit(ps[0].data, Segments(ps[1..]), qs[0].data, Segments(qs[1..]));
      assert Types(ps[1..]) == Types(ps)[1..];
      assert Types(qs[1..]) == Types(qs)[1..];
      SegmentsDetermineKeys(ps[1..], qs[1..]);
      assert Keys(ps) == [KeyOf(ps[0].data)] + Keys(ps[1..]);
      assert Keys(qs) == [KeyOf(qs[0].data)] + Keys(qs[1..]);
    }
  }

  lemma CancelHead(h: string, a: string, b: string)
    requires h + a == h + b
    ensures a == b
  {
    assert a == (h + a)[|h|..];
    assert b == (h + b)[|h|..];
  }

  lemma CancelHead2(h: string, a: string, x: string, b: string, y: string)
    requires h + a + x == h + b + y
    ensures a + x == b + y
  {
    assert h + a + x == h + (a + x);
    assert h + b + y == h + (b + y);
    CancelHead(h, a + x, b + y);
  }

  /** A segment followed by further segments splits off only one way, once
      its declared type is known. */
  lemma SegmentSplit(d: TypeData, rp: string, e: TypeData, rq: string)
    requires d.typ == e.typ
    requires rp == [] || "__" <= rp
    requires rq == [] || "__" <= rq
    requires Segment(d) + rp == Segment(e) + rq
    ensures KeyOf(d) == KeyOf(e) && rp == rq
  {
    var head := "__" + TrSpace(d.typ);
    var sd := Suffix(d.isReference, d.isPointer, d.isArray);
    var se := Suffix(e.isReference, e.isPointer, e.isArray);
    CancelHead2(head, sd, rp, se, rq);
    SuffixSplit(d.isReference, d.isPointer, d.isArray, rp, e.isReference, e.isPointer, e.isArray, rq);
  }

  lemma SuffixSplit(r1: bool, p1: bool, a1: bool, rp: string, r2: bool, p2: bool, a2: bool, rq: string)
    requires rp == [] || "__" <= rp
    requires rq == [] || "__" <= rq
    requires Suffix(r1, p1, a1) + rp == Suffix(r2, p2, a2) + rq
    ensures r1 == r2 && p1 == p2 && a1 == a2 && rp == rq
  {
    SuffixShape(r1, p1, a1);
    SuffixShape(r2, p2, a2);
    UngluedSplit(Suffix(r1, p1, a1), rp, Suffix(r2, p2, a2), rq);
    SuffixDeterminesModifiers(r1, p1, a1, r2, p2, a2);
  }

  /** The half of injectivity that holds: two functions of the same name
      whose parameters have the same declared types get the same symbol
      only when their parameters also have the same modifiers. */
  lemma MangledNameDeterminesModifiers(f: Function, g: Function)
    requires f.name == g.name && Types(f.params) == Types(g.params)
    requires LibFunctionName(f) == LibFunctionName(g)
    ensures Keys(f.params) == Keys(g.params)
  {
    var head := SymbolPrefix + f.name;
    assert Segments(f.params) == LibFunctionName(f)[|head|..];
    assert Segments(g.params) == LibFunctionName(g)[|head|..];
    SegmentsDetermineKeys(f.params, g.params);
  }

  /** The symbol is not injective, although overloads rely on it: a
      parameter of a type literally called "int_ref" and an `int &`
      parameter give the same segment, and the name "draw__int" without
      parameters collides with "draw" taking an `int`. */
  lemma MangledNamesCollide()
    ensures var plain := TypeData("int_ref", None, false, false, false, false, []);
      var byRef := TypeData("int", None, false, true, false, false, []);
      var intArg := TypeData("int", None, false, false, false, false, []);
      var ret := TypeData("void", None, false, false, false, false, []);
      && KeyOf(plain) != KeyOf(byRef)
      && LibFunctionName(Function("f", [Param("a", plain)], ret))
         == LibFunctionName(Function("f", [Param("a", byRef)], ret))
      && LibFunctionName(Function("draw__int", [], ret))
         == LibFunctionName(Function("draw", [Param("x", intArg)], ret))
  {
    var plain := TypeData("int_ref", None, false, false, false, false, []);
    var byRef := TypeData("int", None, false, true, false, false, []);
    var intArg := TypeData("int", None, false, false, false, false, []);
    var ret := TypeData("void", None, false, false, false, false, []);
    CollidingSegments();
    SymbolOfOne(Function("f", [Param("a", plain)], ret));
    SymbolOfOne(Function("f", [Param("a", byRef)], ret));
    SymbolOfOne(Function("draw", [Param("x", intArg)], ret));
    assert SymbolPrefix + "draw__int" == SymbolPrefix + "draw" + "__int";
  }

  lemma CollidingSegments()
    ensures Segment(TypeData("int_ref", None, false, false, false, false, [])) == "__int_ref"
    ensures Segment(TypeData("int", None, false, true, false, false, [])) == "__int_ref"
    ensures Segment(TypeData("int", None, false, false, false, false, [])) == "__int"
  {
    TrSpaceIdentity("int_ref");
    TrSpaceIdentity("int");
  }

  /** The symbol of a one-parameter function: the name, then its segment. */
  lemma SymbolOfOne(f: Function)
    requires |f.params| == 1
    ensures LibFunctionName(f) == SymbolPrefix + f.name + Segment(f.params[0].data)
  {
    SegmentsSnoc([], f.params[0]);
    assert [] + [f.params[0]] == f.params;
  }
}
