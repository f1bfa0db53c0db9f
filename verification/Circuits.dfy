/** The arithmetic circuits over tuple bits: comparison with a constant, comparison of two arguments, addition. */
module Circuits {
  import opened BddRef
  import opened BddSem
  import opened BddAlgebra
  import opened BddIte
  import opened BddStore
  import opened BddSat

  /** The position of a bit of an argument; the variable is one more. The most significant bits come first. */
  function Pos(bit: nat, arg: nat, args: nat, bits: nat): nat
    requires bit < bits
  {
    (bits - bit - 1) * args + arg
  }

  function Var(bit: nat, arg: nat, args: nat, bits: nat): nat
    requires bit < bits
  {
    Pos(bit, arg, args, bits) + 1
  }

  lemma MulMono(q: nat, p: nat, n: nat)
    requires q < p
    ensures q * n + n <= p * n
    decreases p - q
  {
    assert (q + 1) * n == q * n + n;
    if q + 1 < p { MulMono(q + 1, p, n); }
  }

  /** Distinct bits or arguments have distinct variables. */
  lemma VarInjective(b: nat, x: nat, c: nat, y: nat, args: nat, bits: nat)
    requires b < bits && c < bits && x < args && y < args
    ensures Var(b, x, args, bits) == Var(c, y, args, bits) <==> b == c && x == y
  {
    if b < c { MulMono(bits - c - 1, bits - b - 1, args); }
    if c < b { MulMono(bits - b - 1, bits - c - 1, args); }
  }

  /** The number formed by the bits from b0 to k - 1 of an argument. */
  ghost function Num(a: Asg, arg: nat, args: nat, bits: nat, b0: nat, k: nat): nat
    requires b0 <= k <= bits
    decreases k
  {
    if k == b0 then 0
    else Num(a, arg, args, bits, b0, k - 1) + (if Var(k - 1, arg, args, bits) in a then Pow2(k - 1 - b0) else 0)
  }

  lemma {:induction false} NumBound(a: Asg, arg: nat, args: nat, bits: nat, b0: nat, k: nat)
    requires b0 <= k <= bits
    ensures Num(a, arg, args, bits, b0, k) < Pow2(k - b0)
    decreases k
  {
    if k > b0 {
      NumBound(a, arg, args, bits, b0, k - 1);
      assert Pow2(k - b0) == 2 * Pow2(k - 1 - b0);
    }
  }

  lemma {:induction false} NumIndep(a: Asg, arg: nat, args: nat, bits: nat, b0: nat, k: nat, v: nat)
    requires b0 <= k <= bits && forall b :: b0 <= b < k ==> v != Var(b, arg, args, bits)
    ensures Num(a + iset{v}, arg, args, bits, b0, k) == Num(a - iset{v}, arg, args, bits, b0, k)
    decreases k
  {
    if k > b0 { NumIndep(a, arg, args, bits, b0, k - 1, v); }
  }

  // ----- conditional with a condition on other variables

  ghost function Bit(v: nat): Fn {
    Mux(v, All(), iset{})
  }

  ghost predicate Apart(X: Fn, Y: Fn) {
    forall v: nat :: Indep(X, v) || Indep(Y, v)
  }

  lemma ApartVars(V: seq<Node>, x: Ref, y: Ref)
    requires NodesOk(V) && Wf(V, x) && Wf(V, y) && Apart(Den(V, x), Den(V, y))
    ensures Vars(V, x) !! Vars(V, y)
  {
    forall v | v in Vars(V, x) ensures v !in Vars(V, y) {
      VarsExact(V, x, v); VarsExact(V, y, v);
    }
  }

  lemma BitApart(v: nat, Y: Fn)
    requires Indep(Y, v)
    ensures Apart(Bit(v), Y)
  {
  }

  lemma NotApart(X: Fn, Y: Fn)
    requires Apart(X, Y)
    ensures Apart(X, Not(Y)) && Apart(Y, X)
  {
    forall v: nat | Indep(Y, v) ensures Indep(Not(Y), v) { IndepSets(Y, Y, v); }
  }

  method Choose(s: Store, x: Ref, y: Ref, z: Ref) returns (r: Ref)
    requires s.Valid() && Wf(s.V, x) && Wf(s.V, y) && Wf(s.V, z)
    requires Apart(Den(s.V, x), Den(s.V, y)) && Apart(Den(s.V, x), Den(s.V, z))
    modifies s`V, s`ids, s`C
    ensures s.Valid() && old(s.V) <= s.V && Wf(s.V, r)
    ensures Den(s.V, r) == IfThenElse(Den(old(s.V), x), Den(old(s.V), y), Den(old(s.V), z))
  {
    ApartVars(s.V, x, y); ApartVars(s.V, x, z);
    DisjointExact(s.V, x, y, z);
    IteExactIff(s.V, x, y, z);
    r := s.Ite(x, y, z);
  }

  // ----- comparison with a constant

  /** The low k bits of the argument are at most those of c. */
  ghost function AtMost(c: nat, arg: nat, args: nat, bits: nat, k: nat): Fn
    requires k <= bits
  {
    iset a: Asg | Num(a, arg, args, bits, 0, k) <= c % Pow2(k)
  }

  predicate HasBit(c: nat, k: nat) {
    (c / Pow2(k)) % 2 == 1
  }

  lemma ModStep(c: nat, k: nat)
    ensures c % Pow2(k + 1) == c % Pow2(k) + (if HasBit(c, k) then Pow2(k) else 0)
  {
    ModDouble(c, Pow2(k));
  }

  lemma ModDouble(c: nat, p: nat)
    requires p > 0
    ensures c % (2 * p) == c % p + (if (c / p) % 2 == 1 then p else 0)
  {
    var q, r := c / p, c % p;
    var h, b := q / 2, q % 2;
    Product(h, b, p);
    ModUnique(c, 2 * p, h, (if b == 1 then p else 0) + r);
  }

  lemma Product(h: nat, b: nat, p: nat)
    requires b < 2
    ensures (2 * h + b) * p == h * (2 * p) + (if b == 1 then p else 0)
  {
  }

  lemma ModUnique(c: nat, n: nat, q: nat, r: nat)
    requires n > 0 && c == q * n + r && r < n
    ensures c % n == r
  {
    var q', r' := c / n, c % n;
    assert c == q' * n + r';
    if q < q' { MulMono(q, q', n); } else if q' < q { MulMono(q', q, n); }
  }

  lemma AtMostStep(c: nat, arg: nat, args: nat, bits: nat, k: nat)
    requires k < bits
    ensures AtMost(c, arg, args, bits, k + 1) ==
      Mux(Var(k, arg, args, bits),
        if HasBit(c, k) then AtMost(c, arg, args, bits, k) else iset{},
        if HasBit(c, k) then All() else AtMost(c, arg, args, bits, k))
  {
    ModStep(c, k);
    forall a: Asg
      ensures Num(a, arg, args, bits, 0, k + 1) ==
        Num(a, arg, args, bits, 0, k) + (if Var(k, arg, args, bits) in a then Pow2(k) else 0)
      ensures Num(a, arg, args, bits, 0, k) < Pow2(k)
    {
      NumBound(a, arg, args, bits, 0, k);
    }
  }

  lemma AtMostIndep(c: nat, arg: nat, args: nat, bits: nat, k: nat)
    requires k < bits && arg < args
    ensures Indep(AtMost(c, arg, args, bits, k), Var(k, arg, args, bits))
  {
    var v := Var(k, arg, args, bits);
    forall b | 0 <= b < k ensures v != Var(b, arg, args, bits) { VarInjective(k, arg, b, arg, args, bits); }
    forall a: Asg
      ensures a + iset{v} in AtMost(c, arg, args, bits, k) <==> a - iset{v} in AtMost(c, arg, args, bits, k)
    {
      NumIndep(a, arg, args, bits, 0, k, v);
    }
  }

  lemma ConstIndep(v: nat)
    ensures Indep(All(), v) && Indep(iset{}, v)
  {
  }

  /** The assignments whose low bits, as a number, are at most c. */
  method LeqConst(s: Store, c: nat, arg: nat, args: nat, bits: nat, bit0: nat) returns (r: Ref)
    requires s.Valid() && arg < args && 0 < bit0 <= bits
    modifies s`V, s`ids, s`C
    ensures s.Valid() && old(s.V) <= s.V && Wf(s.V, r)
    ensures Den(s.V, r) == AtMost(c, arg, args, bits, bit0)
    decreases bit0
  {
    DenLeaf(s.V);
    var bit := bit0 - 1;
    AtMostStep(c, arg, args, bits, bit);
    if bit == 0 {
      AtMostBase(c, arg, args, bits);
      if HasBit(c, 0) { MuxSame(Var(0, arg, args, bits), All()); return T; }
      r := s.FromBit(Pos(0, arg, args, bits), false);
      return;
    }
    r := LeqConst(s, c, arg, args, bits, bit);
    DenLeaf(s.V);
    AtMostIndep(c, arg, args, bits, bit);
    ConstIndep(Var(bit, arg, args, bits));
    if HasBit(c, bit) {
      r := s.IteVar(Pos(bit, arg, args, bits), r, T);
    } else {
      r := s.IteVar(Pos(bit, arg, args, bits), F, r);
    }
  }

  lemma AtMostBase(c: nat, arg: nat, args: nat, bits: nat)
    ensures AtMost(c, arg, args, bits, 0) == All()
  {
    assert Pow2(0) == 1;
    forall a: Asg ensures a in AtMost(c, arg, args, bits, 0) {
      assert Num(a, arg, args, bits, 0, 0) == 0;
    }
  }

  // ----- comparison of two arguments

  ghost function Leq(x: nat, y: nat, args: nat, bits: nat, k: nat): Fn
    requires k <= bits
  {
    iset a: Asg | Num(a, x, args, bits, 0, k) <= Num(a, y, args, bits, 0, k)
  }

  lemma LeqStep(x: nat, y: nat, args: nat, bits: nat, k: nat)
    requires k < bits
    ensures var L := Leq(x, y, args, bits, k);
      Leq(x, y, args, bits, k + 1) ==
      IfThenElse(Bit(Var(k, y, args, bits)), Mux(Var(k, x, args, bits), L, All()),
        Mux(Var(k, x, args, bits), iset{}, L))
  {
    forall a: Asg
      ensures Num(a, x, args, bits, 0, k + 1) ==
        Num(a, x, args, bits, 0, k) + (if Var(k, x, args, bits) in a then Pow2(k) else 0)
      ensures Num(a, y, args, bits, 0, k + 1) ==
        Num(a, y, args, bits, 0, k) + (if Var(k, y, args, bits) in a then Pow2(k) else 0)
      ensures Num(a, x, args, bits, 0, k) < Pow2(k) && Num(a, y, args, bits, 0, k) < Pow2(k)
    {
      NumBound(a, x, args, bits, 0, k);
      NumBound(a, y, args, bits, 0, k);
    }
  }

  lemma LeqIndep(x: nat, y: nat, args: nat, bits: nat, k: nat, z: nat)
    requires k < bits && x < args && y < args && z < args
    ensures Indep(Leq(x, y, args, bits, k), Var(k, z, args, bits))
  {
    var v := Var(k, z, args, bits);
    forall b | 0 <= b < k ensures v != Var(b, x, args, bits) && v != Var(b, y, args, bits) {
      VarInjective(k, z, b, x, args, bits);
      VarInjective(k, z, b, y, args, bits);
    }
    forall a: Asg ensures a + iset{v} in Leq(x, y, args, bits, k) <==> a - iset{v} in Leq(x, y, args, bits, k) {
      NumIndep(a, x, args, bits, 0, k, v);
      NumIndep(a, y, args, bits, 0, k, v);
    }
  }

  lemma LeqBase(x: nat, y: nat, args: nat, bits: nat)
    ensures Leq(x, y, args, bits, 0) == All()
  {
    forall a: Asg ensures a in Leq(x, y, args, bits, 0) {
      assert Num(a, x, args, bits, 0, 0) == 0;
    }
  }

  /** The assignments whose low bits of argument x, as a number, are at most those of argument y. */
  method LeqVar(s: Store, x: nat, y: nat, args: nat, bits: nat, bit0: nat) returns (r: Ref)
    requires s.Valid() && x < args && y < args && x != y && 0 < bit0 <= bits
    modifies s`V, s`ids, s`C
    ensures s.Valid() && old(s.V) <= s.V && Wf(s.V, r)
    ensures Den(s.V, r) == Leq(x, y, args, bits, bit0)
    decreases bit0, 0
  {
    var k := bit0 - 1;
    var vx, vy := Pos(k, x, args, bits), Pos(k, y, args, bits);
    LeqStep(x, y, args, bits, k);
    LeqIndep(x, y, args, bits, k, x);
    LeqIndep(x, y, args, bits, k, y);
    VarInjective(k, x, k, y, args, bits);
    ConstIndep(vx + 1); ConstIndep(vy + 1);
    ghost var L := Leq(x, y, args, bits, k);
    var high, low := LeqBranches(s, x, y, args, bits, k);
    r := ChooseBit(s, vy, high, low, Mux(vx + 1, L, All()), Mux(vx + 1, iset{}, L));
  }

  /** The two branches of the comparison at bit k of y. */
  method LeqBranches(s: Store, x: nat, y: nat, args: nat, bits: nat, k: nat) returns (high: Ref, low: Ref)
    requires s.Valid() && x < args && y < args && x != y && k < bits
    modifies s`V, s`ids, s`C
    ensures s.Valid() && old(s.V) <= s.V && Wf(s.V, high) && Wf(s.V, low)
    ensures Den(s.V, high) == Mux(Var(k, x, args, bits), Leq(x, y, args, bits, k), All())
    ensures Den(s.V, low) == Mux(Var(k, x, args, bits), iset{}, Leq(x, y, args, bits, k))
    decreases k, 1
  {
    var vx := Pos(k, x, args, bits);
    LeqIndep(x, y, args, bits, k, x);
    ConstIndep(vx + 1);
    DenLeaf(s.V);
    if k == 0 {
      LeqBase(x, y, args, bits);
      MuxSame(vx + 1, All());
      high := T;
      low := s.FromBit(vx, false);
      DenLeaf(s.V);
    } else {
      var l1 := LeqVar(s, x, y, args, bits, k);
      DenLeaf(s.V);
      high := s.IteVar(vx, l1, T);
      ghost var V1 := s.V;
      var l2 := LeqVar(s, x, y, args, bits, k);
      DenLeaf(s.V);
      low := s.IteVar(vx, F, l2);
      Grow(V1, s.V, high);
    }
  }

  /** A conditional on a bit that the branches do not mention. */
  method ChooseBit(s: Store, v: nat, y: Ref, z: Ref, ghost Y: Fn, ghost Z: Fn) returns (r: Ref)
    requires s.Valid() && Wf(s.V, y) && Wf(s.V, z) && Den(s.V, y) == Y && Den(s.V, z) == Z
    requires Indep(Y, v + 1) && Indep(Z, v + 1)
    modifies s`V, s`ids, s`C
    ensures s.Valid() && old(s.V) <= s.V && Wf(s.V, r)
    ensures Den(s.V, r) == IfThenElse(Bit(v + 1), Y, Z)
  {
    ghost var V0 := s.V;
    var b := s.FromBit(v, true);
    Grow(V0, s.V, y); Grow(V0, s.V, z);
    BitApart(v + 1, Y); BitApart(v + 1, Z);
    r := Choose(s, b, y, z);
  }

  // ----- addition

  /** The arguments of an addition x + y = z in a tuple of args arguments. */
  datatype Sum = Sum(x: nat, y: nat, z: nat, args: nat, bits: nat)

  predicate SumOk(t: Sum) {
    t.x < t.args && t.y < t.args && t.z < t.args && t.x != t.y && t.x != t.z && t.y != t.z && t.bits >= 2
  }

  ghost predicate On(a: Asg, b: nat, arg: nat, t: Sum) {
    b < t.bits && Var(b, arg, t.args, t.bits) in a
  }

  /** The carry out of bits 2 to b. */
  ghost predicate Carry(a: Asg, b: nat, t: Sum) {
    if b <= 1 then false
    else if Carry(a, b - 1, t) then On(a, b, t.x, t) || On(a, b, t.y, t)
    else On(a, b, t.x, t) && On(a, b, t.y, t)
  }

  ghost predicate SumBit(a: Asg, b: nat, t: Sum)
    requires b >= 2
  {
    (On(a, b, t.x, t) != On(a, b, t.y, t)) != Carry(a, b - 1, t)
  }

  ghost function CarryFn(b: nat, t: Sum): Fn {
    iset a: Asg | Carry(a, b, t)
  }

  ghost function SumFn(b: nat, t: Sum): Fn
    requires b >= 2
  {
    iset a: Asg | SumBit(a, b, t)
  }

  lemma {:induction false} CarryIndep(a: Asg, b: nat, t: Sum, v: nat)
    requires SumOk(t)
    requires forall c :: 2 <= c <= b && c < t.bits ==>
      v != Var(c, t.x, t.args, t.bits) && v != Var(c, t.y, t.args, t.bits)
    ensures Carry(a + iset{v}, b, t) == Carry(a - iset{v}, b, t)
  {
    if b > 1 { CarryIndep(a, b - 1, t, v); }
  }

  lemma CarryFnIndep(b: nat, t: Sum, c: nat, arg: nat)
    requires SumOk(t) && b < c < t.bits && arg < t.args
    ensures Indep(CarryFn(b, t), Var(c, arg, t.args, t.bits))
  {
    var v := Var(c, arg, t.args, t.bits);
    forall d | 2 <= d <= b && d < t.bits ensures v != Var(d, t.x, t.args, t.bits) && v != Var(d, t.y, t.args, t.bits) {
      VarInjective(c, arg, d, t.x, t.args, t.bits);
      VarInjective(c, arg, d, t.y, t.args, t.bits);
    }
    forall a: Asg ensures a + iset{v} in CarryFn(b, t) <==> a - iset{v} in CarryFn(b, t) {
      CarryIndep(a, b, t, v);
    }
  }

  lemma TwoBits(u: nat, v: nat)
    requires u != v
    ensures Indep(Bit(v), u) && Indep(Not(Bit(v)), u)
  {
  }

  /** A function of bits other than u and v is apart from every function of u and v. */
  lemma ApartTwo(X: Fn, Y: Fn, u: nat, v: nat)
    requires Indep(X, u) && Indep(X, v) && forall w: nat :: w != u && w != v ==> Indep(Y, w)
    ensures Apart(X, Y)
  {
  }

  ghost function ArgFn(b: nat, arg: nat, t: Sum, on: bool): Fn
    requires b < t.bits
  {
    if on then Bit(Var(b, arg, t.args, t.bits)) else Not(Bit(Var(b, arg, t.args, t.bits)))
  }

  method BitRef(s: Store, b: nat, arg: nat, t: Sum, on: bool) returns (r: Ref)
    requires s.Valid() && b < t.bits
    modifies s`V, s`ids
    ensures s.Valid() && old(s.V) <= s.V && Wf(s.V, r)
    ensures Den(s.V, r) == ArgFn(b, arg, t, on)
  {
    r := s.FromBit(Pos(b, arg, t.args, t.bits), on);
    assert Mux(Var(b, arg, t.args, t.bits), iset{}, All()) == Not(Bit(Var(b, arg, t.args, t.bits)));
  }

  /** "if x then y' else z'" at bit b, where the branches are constants or bit b of y, possibly complemented. */
  datatype Arm = ArmTrue | ArmFalse | ArmBit(on: bool)

  ghost function ArmFn(m: Arm, v: nat): Fn {
    match m
    case ArmTrue => All()
    case ArmFalse => iset{}
    case ArmBit(on) => if on then Bit(v) else Not(Bit(v))
  }

  method ArmRef(s: Store, m: Arm, b: nat, t: Sum) returns (r: Ref)
    requires s.Valid() && b < t.bits
    modifies s`V, s`ids
    ensures s.Valid() && old(s.V) <= s.V && Wf(s.V, r)
    ensures Den(s.V, r) == ArmFn(m, Var(b, t.y, t.args, t.bits))
  {
    DenLeaf(s.V);
    match m
    case ArmTrue => r := T;
    case ArmFalse => r := F;
    case ArmBit(on) => r := BitRef(s, b, t.y, t, on);
  }

  method ArmRefs(s: Store, b: nat, t: Sum, high: Arm, low: Arm) returns (h: Ref, l: Ref)
    requires s.Valid() && b < t.bits
    modifies s`V, s`ids
    ensures s.Valid() && old(s.V) <= s.V && Wf(s.V, h) && Wf(s.V, l)
    ensures var v := Var(b, t.y, t.args, t.bits); Den(s.V, h) == ArmFn(high, v) && Den(s.V, l) == ArmFn(low, v)
  {
    hide ArmFn, NodesOk, Wf, Den;
    h := ArmRef(s, high, b, t);
    ghost var V1 := s.V;
    l := ArmRef(s, low, b, t);
    Grow(V1, s.V, h);
  }

  method Arms(s: Store, b: nat, t: Sum, high: Arm, low: Arm) returns (r: Ref)
    requires s.Valid() && b < t.bits && SumOk(t)
    modifies s`V, s`ids, s`C
    ensures s.Valid() && old(s.V) <= s.V && Wf(s.V, r)
    ensures var u, v := Var(b, t.x, t.args, t.bits), Var(b, t.y, t.args, t.bits);
      Den(s.V, r) == IfThenElse(Bit(u), ArmFn(high, v), ArmFn(low, v))
  {
    ghost var u, v := Var(b, t.x, t.args, t.bits), Var(b, t.y, t.args, t.bits);
    VarInjective(b, t.x, b, t.y, t.args, t.bits);
    ArmsIndep(u, v, high, low);
    hide ArmFn, Indep, IfThenElse, NodesOk, Bit, Den, Wf;
    var h, l := ArmRefs(s, b, t, high, low);
    r := ChooseBit(s, Pos(b, t.x, t.args, t.bits), h, l, ArmFn(high, v), ArmFn(low, v));
  }

  lemma ArmsIndep(u: nat, v: nat, high: Arm, low: Arm)
    requires u != v
    ensures Indep(ArmFn(high, v), u) && Indep(ArmFn(low, v), u)
  {
    ConstIndep(u);
    TwoBits(u, v);
  }

  lemma ArmsApart(X: Fn, u: nat, v: nat, high: Arm, low: Arm)
    requires u != v && Indep(X, u) && Indep(X, v)
    ensures Apart(X, IfThenElse(Bit(u), ArmFn(high, v), ArmFn(low, v)))
  {
    var Y := IfThenElse(Bit(u), ArmFn(high, v), ArmFn(low, v));
    forall w: nat | w != u && w != v ensures Indep(Y, w) {
      ConstIndep(w);
      IndepIte(Bit(u), ArmFn(high, v), ArmFn(low, v), w);
    }
    ApartTwo(X, Y, u, v);
  }

  method FullAdderCarry(s: Store, t: Sum, b: nat) returns (r: Ref)
    requires s.Valid() && SumOk(t) && 1 <= b < t.bits
    modifies s`V, s`ids, s`C
    ensures s.Valid() && old(s.V) <= s.V && Wf(s.V, r)
    ensures Den(s.V, r) == CarryFn(b, t)
    decreases b
  {
    DenLeaf(s.V);
    if b == 1 { return F; }
    var c := FullAdderCarry(s, t, b - 1);
    r := Combine(s, t, b, c, CarryFn(b - 1, t), ArmTrue, ArmBit(true), ArmBit(true), ArmFalse);
  }

  /** "if carry then (if x then .. else ..) else (if x then .. else ..)" at bit b. */
  method Combine(s: Store, t: Sum, b: nat, c: Ref, ghost X: Fn, hh: Arm, hl: Arm, lh: Arm, ll: Arm) returns (r: Ref)
    requires s.Valid() && SumOk(t) && 2 <= b < t.bits && Wf(s.V, c) && Den(s.V, c) == X && X == CarryFn(b - 1, t)
    modifies s`V, s`ids, s`C
    ensures s.Valid() && old(s.V) <= s.V && Wf(s.V, r)
    ensures var u, v := Var(b, t.x, t.args, t.bits), Var(b, t.y, t.args, t.bits);
      Den(s.V, r) == IfThenElse(X, IfThenElse(Bit(u), ArmFn(hh, v), ArmFn(hl, v)),
        IfThenElse(Bit(u), ArmFn(lh, v), ArmFn(ll, v)))
  {
    ghost var u, v := Var(b, t.x, t.args, t.bits), Var(b, t.y, t.args, t.bits);
    VarInjective(b, t.x, b, t.y, t.args, t.bits);
    CarryFnIndep(b - 1, t, b, t.x);
    CarryFnIndep(b - 1, t, b, t.y);
    ArmsApart(X, u, v, hh, hl);
    ArmsApart(X, u, v, lh, ll);
    ghost var V0 := s.V;
    var h := Arms(s, b, t, hh, hl);
    ghost var V1 := s.V;
    var l := Arms(s, b, t, lh, ll);
    Grow(V1, s.V, h); Grow(V0, s.V, c);
    r := Choose(s, c, h, l);
  }

  /** Bit b of the sum; for the two tag bits the conjunction, as coded. */
  method FullAdder(s: Store, t: Sum, b: nat) returns (r: Ref)
    requires s.Valid() && SumOk(t) && b < t.bits
    modifies s`V, s`ids, s`C
    ensures s.Valid() && old(s.V) <= s.V && Wf(s.V, r)
    ensures b >= 2 ==> Den(s.V, r) == SumFn(b, t)
    ensures b < 2 ==> Den(s.V, r) == Bit(Var(b, t.x, t.args, t.bits)) * Bit(Var(b, t.y, t.args, t.bits))
  {
    if b < 2 {
      var x := BitRef(s, b, t.x, t, true);
      ghost var V1 := s.V;
      var y := BitRef(s, b, t.y, t, true);
      Grow(V1, s.V, x);
      r := s.And(x, y);
    } else if b == 2 {
      r := Arms(s, b, t, ArmBit(false), ArmBit(true));
    } else {
      var carry := FullAdderCarry(s, t, b - 1);
      r := Combine(s, t, b, carry, CarryFn(b - 1, t), ArmBit(true), ArmBit(false), ArmBit(false), ArmBit(true));
    }
  }

  /** What the circuit demands of bit b: the tag bits are 0 and 1, the others are those of the sum. */
  ghost predicate GoodBit(a: Asg, b: nat, t: Sum) {
    if b == 0 then !On(a, 0, t.x, t) && !On(a, 0, t.y, t) && !On(a, 0, t.z, t)
    else if b == 1 then On(a, 1, t.x, t) && On(a, 1, t.y, t) && On(a, 1, t.z, t)
    else On(a, b, t.z, t) == SumBit(a, b, t)
  }

  ghost function GoodFn(b: nat, t: Sum): Fn {
    iset a: Asg | GoodBit(a, b, t)
  }

  method GoodRef(s: Store, t: Sum, b: nat) returns (r: Ref)
    requires s.Valid() && SumOk(t) && b < t.bits
    modifies s`V, s`ids, s`C
    ensures s.Valid() && old(s.V) <= s.V && Wf(s.V, r)
    ensures Den(s.V, r) == GoodFn(b, t)
  {
    if b < 2 { r := TagRef(s, t, b); } else { r := EqualRef(s, t, b); }
  }

  lemma TagMeans(b: nat, t: Sum)
    requires b < 2 && b < t.bits
    ensures var on := b == 1;
      GoodFn(b, t) == (ArgFn(b, t.x, t, on) * ArgFn(b, t.y, t, on)) * ArgFn(b, t.z, t, on)
  {
  }

  /** Bit b of all three arguments is b. */
  method TagRef(s: Store, t: Sum, b: nat) returns (r: Ref)
    requires s.Valid() && SumOk(t) && b < 2
    modifies s`V, s`ids, s`C
    ensures s.Valid() && old(s.V) <= s.V && Wf(s.V, r)
    ensures Den(s.V, r) == GoodFn(b, t)
  {
    ghost var on := b == 1;
    ghost var X, Y, Z := ArgFn(b, t.x, t, on), ArgFn(b, t.y, t, on), ArgFn(b, t.z, t, on);
    TagMeans(b, t);
    hide NodesOk, Wf, GoodFn, ArgFn, Den;
    var x := BitRef(s, b, t.x, t, b == 1);
    ghost var V1 := s.V;
    var y := BitRef(s, b, t.y, t, b == 1);
    Grow(V1, s.V, x);
    var fa := s.And(x, y);
    ghost var V2 := s.V;
    var z := BitRef(s, b, t.z, t, b == 1);
    Grow(V2, s.V, fa);
    r := s.And(fa, z);
  }

  /** Bit b of z is the sum bit. */
  method EqualRef(s: Store, t: Sum, b: nat) returns (r: Ref)
    requires s.Valid() && SumOk(t) && 2 <= b < t.bits
    modifies s`V, s`ids, s`C
    ensures s.Valid() && old(s.V) <= s.V && Wf(s.V, r)
    ensures Den(s.V, r) == GoodFn(b, t)
  {
    ghost var v := Var(b, t.z, t.args, t.bits);
    SumFnIndep(b, t);
    BitApart(v, SumFn(b, t));
    NotApart(Bit(v), SumFn(b, t));
    NotApart(SumFn(b, t), Bit(v));
    assert GoodFn(b, t) == IfThenElse(SumFn(b, t), Bit(v), Not(Bit(v)));
    var fa := FullAdder(s, t, b);
    ghost var V1 := s.V;
    var z1 := BitRef(s, b, t.z, t, true);
    ghost var V2 := s.V;
    var z0 := BitRef(s, b, t.z, t, false);
    Grow(V1, s.V, fa); Grow(V2, s.V, z1);
    r := Choose(s, fa, z1, z0);
  }

  lemma SumFnIndep(b: nat, t: Sum)
    requires SumOk(t) && 2 <= b < t.bits
    ensures Indep(SumFn(b, t), Var(b, t.z, t.args, t.bits))
  {
    var v := Var(b, t.z, t.args, t.bits);
    VarInjective(b, t.x, b, t.z, t.args, t.bits);
    VarInjective(b, t.y, b, t.z, t.args, t.bits);
    CarryFnIndep(b - 1, t, b, t.z);
    forall a: Asg ensures a + iset{v} in SumFn(b, t) <==> a - iset{v} in SumFn(b, t) {
      assert a + iset{v} in CarryFn(b - 1, t) <==> a - iset{v} in CarryFn(b - 1, t);
    }
  }

  ghost function GoodUpTo(k: nat, t: Sum): Fn {
    iset a: Asg | AllGood(a, k, t)
  }

  ghost predicate AllGood(a: Asg, k: nat, t: Sum) {
    forall b :: 0 <= b < k ==> GoodBit(a, b, t)
  }

  /** The relation x + y = z. */
  method AddVarEq(s: Store, t: Sum) returns (r: Ref)
    requires s.Valid() && SumOk(t)
    modifies s`V, s`ids, s`C
    ensures s.Valid() && old(s.V) <= s.V && Wf(s.V, r)
    ensures Den(s.V, r) == GoodUpTo(t.bits, t)
  {
    r := T;
    DenLeaf(s.V);
    var b := 0;
    while b != t.bits
      invariant 0 <= b <= t.bits && s.Valid() && old(s.V) <= s.V && Wf(s.V, r)
      invariant Den(s.V, r) == GoodUpTo(b, t)
    {
      ghost var V1 := s.V;
      var g := GoodRef(s, t, b);
      Grow(V1, s.V, r);
      r := s.And(r, g);
      assert GoodUpTo(b, t) * GoodFn(b, t) == GoodUpTo(b + 1, t);
      b := b + 1;
    }
  }

  // ----- the arithmetic meaning of the adder

  /** The number formed by the sum bits 2 to k - 1. */
  ghost function SumNum(a: Asg, k: nat, t: Sum): nat
    requires 2 <= k <= t.bits
  {
    if k == 2 then 0 else SumNum(a, k - 1, t) + (if SumBit(a, k - 1, t) then Pow2(k - 3) else 0)
  }

  lemma {:induction false} SumCarries(a: Asg, k: nat, t: Sum)
    requires SumOk(t) && 2 <= k <= t.bits
    ensures Num(a, t.x, t.args, t.bits, 2, k) + Num(a, t.y, t.args, t.bits, 2, k)
         == SumNum(a, k, t) + (if Carry(a, k - 1, t) then Pow2(k - 2) else 0)
    ensures SumNum(a, k, t) < Pow2(k - 2)
  {
    if k > 2 {
      SumCarries(a, k - 1, t);
      assert Pow2(k - 2) == 2 * Pow2(k - 3);
    }
  }

  lemma {:induction false} SameBits(a: Asg, k: nat, t: Sum)
    requires SumOk(t) && 2 <= k <= t.bits
    ensures Num(a, t.z, t.args, t.bits, 2, k) == SumNum(a, k, t) <==> forall b :: 2 <= b < k ==> GoodBit(a, b, t)
  {
    if k > 2 {
      SameBits(a, k - 1, t);
      SumCarries(a, k - 1, t);
      NumBound(a, t.z, t.args, t.bits, 2, k - 1);
      assert (forall b :: 2 <= b < k ==> GoodBit(a, b, t)) <==>
        (forall b :: 2 <= b < k - 1 ==> GoodBit(a, b, t)) && GoodBit(a, k - 1, t);
    }
  }

  ghost predicate TaggedNumber(a: Asg, arg: nat, t: Sum) {
    !On(a, 0, arg, t) && On(a, 1, arg, t)
  }

  /** The circuit accepts exactly the correctly tagged numbers with x + y = z modulo 2^(bits - 2). */
  lemma AdderMeaning(a: Asg, t: Sum)
    requires SumOk(t)
    ensures a in GoodUpTo(t.bits, t) <==>
      && TaggedNumber(a, t.x, t) && TaggedNumber(a, t.y, t) && TaggedNumber(a, t.z, t)
      && (Num(a, t.x, t.args, t.bits, 2, t.bits) + Num(a, t.y, t.args, t.bits, 2, t.bits)) % Pow2(t.bits - 2)
         == Num(a, t.z, t.args, t.bits, 2, t.bits)
  {
    var k, p := t.bits, Pow2(t.bits - 2);
    SumCarries(a, k, t);
    SameBits(a, k, t);
    var n := Num(a, t.x, t.args, t.bits, 2, k) + Num(a, t.y, t.args, t.bits, 2, k);
    ModUnique(n, p, if Carry(a, k - 1, t) then 1 else 0, SumNum(a, k, t));
    assert AllGood(a, k, t) <==> GoodBit(a, 0, t) && GoodBit(a, 1, t) && forall b :: 2 <= b < k ==> GoodBit(a, b, t);
  }
}
