/** Comparisons in rule bodies as conditions on the bits of an alternative. */
module CompareQuery {
  import opened BddRef
  import opened BddSem
  import opened BddStore
  import opened BddSat
  import opened Circuits
  import opened BodyBits
  import Q = BodyQuery

  // ----- the tag of numbers

  /** Numbers are shifted by two with tag 2, characters with tag 1, symbols with tag 0. */
  function Number(x: nat): nat {
    4 * x + 2
  }

  function Character(x: nat): nat {
    4 * x + 1
  }

  function Symbol(x: nat): nat {
    4 * x
  }

  lemma TagOf(v: nat)
    ensures D.IsNum(v) <==> exists x :: v == Number(x)
    ensures !D.IsNum(v) <== exists x :: v == Character(x) || v == Symbol(x)
    ensures D.IsNum(v) <==> !HasBit(v, 0) && HasBit(v, 1)
  {
    assert v == 4 * (v / 4) + v % 4;
    if D.IsNum(v) { assert v == Number(v / 4); }
    assert Pow2(0) == 1 && Pow2(1) == 2;
  }

  ghost function NumberFn(n: nat, args: nat, bits: nat): Fn
    requires n < args
  {
    iset a: Asg | D.IsNum(Read(a, args, bits)[n])
  }

  /** An argument is a number exactly when the adder takes it for one. */
  lemma NumberTagged(a: Asg, n: nat, t: Sum)
    requires n < t.args && t.bits >= 2
    ensures D.IsNum(Read(a, t.args, t.bits)[n]) <==> TaggedNumber(a, n, t)
  {
    var v := Read(a, t.args, t.bits)[n];
    NumBound(a, n, t.args, t.bits, 0, t.bits);
    SmallMod(v, Pow2(t.bits));
    BitsOfNum(a, n, t.args, t.bits, v, t.bits, 0);
    BitsOfNum(a, n, t.args, t.bits, v, t.bits, 1);
    TagOf(v);
  }

  lemma NumberParts(n: nat, args: nat, bits: nat)
    requires n < args && bits >= 2
    ensures NumberFn(n, args, bits) ==
      Mux(Var(1, n, args, bits), All(), iset{}) * Mux(Var(0, n, args, bits), iset{}, All())
  {
    forall a: Asg
      ensures D.IsNum(Read(a, args, bits)[n]) <==> Var(1, n, args, bits) in a && Var(0, n, args, bits) !in a
    {
      NumberTagged(a, n, Sum(n, n, n, args, bits));
    }
  }

  /** The constraint that an argument is a number. */
  method ConstrainToNum(s: Store, n: nat, args: nat, bits: nat) returns (r: Ref)
    requires s.Valid() && n < args && bits >= 2
    modifies s`V, s`ids, s`C
    ensures s.Valid() && old(s.V) <= s.V && Wf(s.V, r)
    ensures Den(s.V, r) == NumberFn(n, args, bits)
  {
    NumberParts(n, args, bits);
    var high := s.FromBit(Pos(1, n, args, bits), true);
    ghost var V1 := s.V;
    var low := s.FromBit(Pos(0, n, args, bits), false);
    Grow(V1, s.V, high);
    r := s.And(high, low);
  }

  // ----- comparisons

  /** Where a comparison holds of the arguments. */
  ghost function CompareFn(t: D.Term, vm: map<int, nat>, len: nat, bits: nat): Fn
    requires !t.Rel? && D.Covers(vm, t.Arguments()) && forall x :: x in vm ==> vm[x] < len
  {
    iset a: Asg | D.Holds(t, D.SubOf(vm, Read(a, len, bits)), [])
  }

  ghost predicate Comparable(t: D.Term, vm: map<int, nat>, len: nat, bits: nat) {
    !t.Rel? && VarsFit(t.Arguments(), vm, len) && SymbolsFit(t.Arguments(), bits)
  }

  /** The value of an argument in an assignment. */
  ghost function ValueOf(x: int, vm: map<int, nat>, a: Asg, len: nat, bits: nat): nat
    requires (x < 0 ==> x in vm) && forall y :: y in vm ==> vm[y] < len
  {
    if x < 0 then Read(a, len, bits)[vm[x]] else x
  }

  lemma Operands(t: D.Term, vm: map<int, nat>, len: nat, bits: nat)
    requires Comparable(t, vm, len, bits)
    ensures (t.x < 0 ==> t.x in vm) && (t.y < 0 ==> t.y in vm)
    ensures (t.x >= 0 ==> t.x < Pow2(bits)) && (t.y >= 0 ==> t.y < Pow2(bits))
    ensures t.x < 0 && t.y < 0 && t.x != t.y ==> vm[t.x] != vm[t.y]
  {
    assert t.x in t.Arguments() && t.y in t.Arguments();
  }

  /** The order of two values, demanded of numbers wherever variables are compared. */
  predicate AtMostNum(t: D.Term, x: nat, y: nat)
    requires !t.Rel?
  {
    (x <= y) != t.neg && (t.x != t.y ==> (t.x < 0 ==> D.IsNum(x)) && (t.y < 0 ==> D.IsNum(y)))
  }

  lemma CompareAt(t: D.Term, vm: map<int, nat>, len: nat, bits: nat, a: Asg)
    requires Comparable(t, vm, len, bits)
    ensures (t.x < 0 ==> t.x in vm) && (t.y < 0 ==> t.y in vm)
    ensures var x, y := ValueOf(t.x, vm, a, len, bits), ValueOf(t.y, vm, a, len, bits);
      && (t.Eq? ==> (a in CompareFn(t, vm, len, bits) <==> (x == y) != t.neg))
      && (t.Leq? ==> (a in CompareFn(t, vm, len, bits) <==> AtMostNum(t, x, y)))
  {
    Operands(t, vm, len, bits);
  }

  /** The equality of the two operands, at least one of which is a variable. */
  ghost function SameFn(t: D.Term, vm: map<int, nat>, len: nat, bits: nat): Fn
    requires Comparable(t, vm, len, bits)
  {
    Operands(t, vm, len, bits);
    iset a: Asg | ValueOf(t.x, vm, a, len, bits) == ValueOf(t.y, vm, a, len, bits)
  }

  ghost function AtMostFn(t: D.Term, vm: map<int, nat>, len: nat, bits: nat): Fn
    requires Comparable(t, vm, len, bits)
  {
    Operands(t, vm, len, bits);
    iset a: Asg | ValueOf(t.x, vm, a, len, bits) <= ValueOf(t.y, vm, a, len, bits)
  }

  /** The variables among the operands are numbers. */
  ghost function NumbersFn(t: D.Term, vm: map<int, nat>, len: nat, bits: nat): Fn
    requires Comparable(t, vm, len, bits)
  {
    Operands(t, vm, len, bits);
    (if t.x < 0 then NumberFn(vm[t.x], len, bits) else All()) *
    (if t.y < 0 then NumberFn(vm[t.y], len, bits) else All())
  }

  ghost function Signed(neg: bool, X: Fn): Fn {
    if neg then Not(X) else X
  }

  lemma CompareParts(t: D.Term, vm: map<int, nat>, len: nat, bits: nat)
    requires Comparable(t, vm, len, bits)
    ensures t.Eq? ==> CompareFn(t, vm, len, bits) == Signed(t.neg, SameFn(t, vm, len, bits))
    ensures t.Leq? && t.x != t.y ==>
      CompareFn(t, vm, len, bits) == Signed(t.neg, AtMostFn(t, vm, len, bits)) * NumbersFn(t, vm, len, bits)
  {
    Operands(t, vm, len, bits);
    forall a: Asg
      ensures t.Eq? ==> (a in CompareFn(t, vm, len, bits) <==> a in Signed(t.neg, SameFn(t, vm, len, bits)))
      ensures t.Leq? && t.x != t.y ==> (a in CompareFn(t, vm, len, bits) <==>
        a in Signed(t.neg, AtMostFn(t, vm, len, bits)) && a in NumbersFn(t, vm, len, bits))
    {
      CompareAt(t, vm, len, bits, a);
    }
  }

  /** Equal or constant operands are decided beforehand. */
  lemma Decided(t: D.Term, vm: map<int, nat>, len: nat, bits: nat)
    requires Comparable(t, vm, len, bits) && (t.x == t.y || (t.x >= 0 && t.y >= 0))
    ensures var yes := if t.x == t.y || t.Leq? then (t.x == t.y || t.x <= t.y) != t.neg else t.neg;
      CompareFn(t, vm, len, bits) == if yes then All() else iset{}
  {
    forall a: Asg { CompareAt(t, vm, len, bits, a); }
  }

  /** c is cut down to where the comparison holds; or the comparison never holds. */
  ghost predicate Restricted(V0: seq<Node>, V: seq<Node>, ok: bool, c0: Ref, c: Ref, X: Fn)
    requires NodesOk(V0) && NodesOk(V) && Wf(V0, c0)
  {
    if ok then Wf(V, c) && Den(V, c) == Den(V0, c0) * X else X == iset{}
  }

  /** Conjunction with a condition or with its negation. */
  method AndSigned(s: Store, neg: bool, c: Ref, q: Ref) returns (r: Ref)
    requires s.Valid() && Wf(s.V, c) && Wf(s.V, q)
    modifies s`V, s`ids, s`C
    ensures s.Valid() && old(s.V) <= s.V && Wf(s.V, r)
    ensures Den(s.V, r) == Den(old(s.V), c) * Signed(neg, Den(old(s.V), q))
  {
    DenFlip(s.V, q);
    r := s.And(c, if neg then Flip(q) else q);
  }

  method EqRef(s: Store, t: D.Term, vm: map<int, nat>, len: nat, bits: nat) returns (q: Ref)
    requires s.Valid() && Comparable(t, vm, len, bits) && t.x != t.y && (t.x < 0 || t.y < 0)
    modifies s`V, s`ids, s`C
    ensures s.Valid() && old(s.V) <= s.V && Wf(s.V, q)
    ensures Den(s.V, q) == SameFn(t, vm, len, bits)
  {
    Operands(t, vm, len, bits);
    if t.x < 0 && t.y < 0 {
      q := Q.FromSymEq(s, vm[t.x], vm[t.y], len, bits);
    } else if t.x < 0 {
      q := Q.FromSym(s, vm[t.x], len, t.y, bits);
    } else {
      q := Q.FromSym(s, vm[t.y], len, t.x, bits);
    }
  }

  /** The constraint of an equality. */
  method HandlerEq(s: Store, t: D.Term, vm: map<int, nat>, len: nat, bits: nat, c0: Ref) returns (ok: bool, c: Ref)
    requires s.Valid() && Wf(s.V, c0) && t.Eq? && Comparable(t, vm, len, bits)
    modifies s`V, s`ids, s`C
    ensures s.Valid() && old(s.V) <= s.V
    ensures Restricted(old(s.V), s.V, ok, c0, c, CompareFn(t, vm, len, bits))
  {
    c := c0;
    if t.x == t.y { Decided(t, vm, len, bits); return !t.neg, c; }
    if t.x >= 0 && t.y >= 0 { Decided(t, vm, len, bits); return t.neg != (t.x == t.y), c; }
    ghost var V0 := s.V;
    CompareParts(t, vm, len, bits);
    var q := EqRef(s, t, vm, len, bits);
    Grow(V0, s.V, c0);
    c := AndSigned(s, t.neg, c0, q);
    ok := true;
  }

  method LeqRef(s: Store, t: D.Term, vm: map<int, nat>, len: nat, bits: nat) returns (q: Ref)
    requires s.Valid() && Comparable(t, vm, len, bits) && t.x != t.y && (t.x < 0 || t.y < 0) && bits > 0
    modifies s`V, s`ids, s`C
    ensures s.Valid() && old(s.V) <= s.V && Wf(s.V, q)
    ensures Den(s.V, q) == AtMostFn(t, vm, len, bits)
  {
    Operands(t, vm, len, bits);
    if t.x < 0 && t.y < 0 {
      q := LeqVar(s, vm[t.x], vm[t.y], len, bits, bits);
    } else if t.x < 0 {
      SmallMod(t.y, Pow2(bits));
      q := LeqConst(s, t.y, vm[t.x], len, bits, bits);
    } else {
      q := GeqConst(s, t.x, vm[t.y], len, bits);
      assert Den(s.V, q) == AtMostFn(t, vm, len, bits);
    }
  }

  /** At least the constant: not at most it, or equal to it. */
  method GeqConst(s: Store, c: nat, n: nat, len: nat, bits: nat) returns (q: Ref)
    requires s.Valid() && n < len && bits > 0 && c < Pow2(bits)
    modifies s`V, s`ids, s`C
    ensures s.Valid() && old(s.V) <= s.V && Wf(s.V, q)
    ensures Den(s.V, q) == iset a: Asg | c <= Read(a, len, bits)[n]
  {
    SmallMod(c, Pow2(bits));
    var l := LeqConst(s, c, n, len, bits, bits);
    ghost var V1 := s.V;
    DenFlip(V1, l);
    var e := Q.FromSym(s, n, len, c, bits);
    Grow(V1, s.V, Flip(l));
    q := s.Or(Flip(l), e);
    NotAtMost(c, n, len, bits);
  }

  lemma NotAtMost(c: nat, n: nat, len: nat, bits: nat)
    requires n < len && c < Pow2(bits)
    ensures Not(AtMost(c, n, len, bits, bits)) + Q.SymFn(n, len, bits, c) == iset a: Asg | c <= Read(a, len, bits)[n]
  {
    SmallMod(c, Pow2(bits));
  }

  /** The constraint that the variables compared are numbers. */
  method NumbersRef(s: Store, t: D.Term, vm: map<int, nat>, len: nat, bits: nat) returns (q: Ref)
    requires s.Valid() && Comparable(t, vm, len, bits) && (t.x < 0 || t.y < 0) && bits >= 2
    modifies s`V, s`ids, s`C
    ensures s.Valid() && old(s.V) <= s.V && Wf(s.V, q)
    ensures Den(s.V, q) == NumbersFn(t, vm, len, bits)
  {
    Operands(t, vm, len, bits);
    if t.x < 0 && t.y < 0 {
      var x := ConstrainToNum(s, vm[t.x], len, bits);
      ghost var V1 := s.V;
      var y := ConstrainToNum(s, vm[t.y], len, bits);
      Grow(V1, s.V, x);
      q := s.And(x, y);
    } else if t.x < 0 {
      q := ConstrainToNum(s, vm[t.x], len, bits);
    } else {
      q := ConstrainToNum(s, vm[t.y], len, bits);
    }
  }

  method AndLeq(s: Store, t: D.Term, vm: map<int, nat>, len: nat, bits: nat, c0: Ref) returns (c: Ref)
    requires s.Valid() && Wf(s.V, c0) && Comparable(t, vm, len, bits) && t.x != t.y && (t.x < 0 || t.y < 0) && bits > 0
    modifies s`V, s`ids, s`C
    ensures s.Valid() && old(s.V) <= s.V && Wf(s.V, c)
    ensures Den(s.V, c) == Den(old(s.V), c0) * Signed(t.neg, AtMostFn(t, vm, len, bits))
  {
    ghost var V0 := s.V;
    hide AtMostFn, NodesOk, Comparable;
    var q := LeqRef(s, t, vm, len, bits);
    Grow(V0, s.V, c0);
    c := AndSigned(s, t.neg, c0, q);
  }

  /** The constraint of an order comparison: signed, but in either case of numbers only. */
  method HandlerLeq(s: Store, t: D.Term, vm: map<int, nat>, len: nat, bits: nat, c0: Ref) returns (ok: bool, c: Ref)
    requires s.Valid() && Wf(s.V, c0) && t.Leq? && Comparable(t, vm, len, bits) && bits >= 2
    modifies s`V, s`ids, s`C
    ensures s.Valid() && old(s.V) <= s.V
    ensures Restricted(old(s.V), s.V, ok, c0, c, CompareFn(t, vm, len, bits))
  {
    c := c0;
    if t.x == t.y { Decided(t, vm, len, bits); return !t.neg, c; }
    if t.x >= 0 && t.y >= 0 { Decided(t, vm, len, bits); return t.neg != (t.x <= t.y), c; }
    ghost var V0 := s.V;
    CompareParts(t, vm, len, bits);
    hide CompareFn, AtMostFn, NumbersFn, NodesOk;
    var num := NumbersRef(s, t, vm, len, bits);
    ghost var V1 := s.V;
    Grow(V0, s.V, c0);
    c := AndLeq(s, t, vm, len, bits, c0);
    Grow(V1, s.V, num);
    c := s.And(c, num);
    ok := true;
  }

  /** The condition on the bits is the evaluator's restriction of a set of valuations, bit by bit. */
  lemma SetLevel(t: D.Term, vm: map<int, nat>, len: nat, bits: nat, C: set<Tuple>, R: set<Tuple>)
    requires Comparable(t, vm, len, bits) && D.Restricts(Pow2(bits), t, vm, len, C, R)
    ensures Codes(R, len, bits) == Codes(C, len, bits) * CompareFn(t, vm, len, bits)
  {
    forall a: Asg
      ensures a in Codes(R, len, bits) <==> a in Codes(C, len, bits) && a in CompareFn(t, vm, len, bits)
    {
      Q.ReadOk(a, len, bits);
    }
  }
}
