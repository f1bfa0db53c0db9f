/** Body literals and alternatives evaluated by fused queries on the BDDs of the tables. */
module BodyQuery {
  import opened BddRef
  import opened BddSem
  import opened BddQuery
  import opened BddLists
  import opened BddSteps
  import opened BddStore
  import opened BddSat
  import opened Circuits
  import opened BodyBits

  // ----- symbols and repeated variables

  ghost function SymUpTo(n: nat, args: nat, bits: nat, x: nat, k: nat): Fn
    requires k <= bits
  {
    iset a: Asg | SymBits(a, n, args, bits, x, k)
  }

  ghost predicate SymBits(a: Asg, n: nat, args: nat, bits: nat, x: nat, k: nat)
    requires k <= bits
  {
    forall b :: 0 <= b < k ==> (Var(b, n, args, bits) in a <==> HasBit(x, b))
  }

  ghost function EqUpTo(n: nat, m: nat, args: nat, bits: nat, k: nat): Fn
    requires k <= bits
  {
    iset a: Asg | EqBits(a, n, m, args, bits, k)
  }

  ghost predicate EqBits(a: Asg, n: nat, m: nat, args: nat, bits: nat, k: nat)
    requires k <= bits
  {
    forall b :: 0 <= b < k ==> (Var(b, n, args, bits) in a <==> Var(b, m, args, bits) in a)
  }

  /** Argument n is the symbol x. */
  ghost function SymFn(n: nat, args: nat, bits: nat, x: nat): Fn
    requires n < args
  {
    iset a: Asg | Read(a, args, bits)[n] == x
  }

  /** Arguments n and m are equal. */
  ghost function EqFn(n: nat, m: nat, args: nat, bits: nat): Fn
    requires n < args && m < args
  {
    iset a: Asg | Read(a, args, bits)[n] == Read(a, args, bits)[m]
  }

  lemma SymStep(n: nat, args: nat, bits: nat, x: nat, k: nat)
    requires k < bits
    ensures var on := HasBit(x, k);
      SymUpTo(n, args, bits, x, k) *
      Mux(Var(k, n, args, bits), if on then All() else iset{}, if on then iset{} else All())
        == SymUpTo(n, args, bits, x, k + 1)
  {
    hide HasBit, Var;
  }

  lemma EqStep(n: nat, m: nat, args: nat, bits: nat, k: nat)
    requires k < bits
    ensures var u, v := Var(k, n, args, bits), Var(k, m, args, bits);
      EqUpTo(n, m, args, bits, k) * IfThenElse(Bit(u), Bit(v), Not(Bit(v))) == EqUpTo(n, m, args, bits, k + 1)
  {
    hide Var;
  }

  lemma SymMeans(n: nat, args: nat, bits: nat, x: nat)
    requires n < args && x < Pow2(bits)
    ensures SymUpTo(n, args, bits, x, bits) == SymFn(n, args, bits, x)
  {
    SmallMod(x, Pow2(bits));
    forall a: Asg ensures a in SymUpTo(n, args, bits, x, bits) <==> a in SymFn(n, args, bits, x) {
      if a in SymUpTo(n, args, bits, x, bits) { NumOfBits(a, n, args, bits, x, bits); }
      if a in SymFn(n, args, bits, x) {
        forall b | 0 <= b < bits ensures Var(b, n, args, bits) in a <==> HasBit(x, b) {
          BitsOfNum(a, n, args, bits, x, bits, b);
        }
      }
    }
  }

  lemma EqMeans(n: nat, m: nat, args: nat, bits: nat)
    requires n < args && m < args
    ensures EqUpTo(n, m, args, bits, bits) == EqFn(n, m, args, bits)
  {
    forall a: Asg ensures a in EqUpTo(n, m, args, bits, bits) <==> a in EqFn(n, m, args, bits) {
      if a in EqUpTo(n, m, args, bits, bits) { NumSame(a, n, args, a, m, args, bits, bits); }
      if a in EqFn(n, m, args, bits) {
        forall b | 0 <= b < bits ensures Var(b, n, args, bits) in a <==> Var(b, m, args, bits) in a {
          BitsSame(a, n, args, a, m, args, bits, bits, b);
        }
      }
    }
  }

  method AndSymBit(s: Store, r0: Ref, n: nat, args: nat, x: nat, bits: nat, b: nat) returns (r: Ref)
    requires s.Valid() && b < bits && Wf(s.V, r0) && Den(s.V, r0) == SymUpTo(n, args, bits, x, b)
    modifies s`V, s`ids, s`C
    ensures s.Valid() && old(s.V) <= s.V && Wf(s.V, r) && Den(s.V, r) == SymUpTo(n, args, bits, x, b + 1)
  {
    ghost var V1 := s.V;
    var c := s.FromBit(Pos(b, n, args, bits), HasBit(x, b));
    Grow(V1, s.V, r0);
    SymStep(n, args, bits, x, b);
    r := s.And(r0, c);
  }

  /** The assignments in which argument n is the symbol x. */
  method FromSym(s: Store, n: nat, args: nat, x: nat, bits: nat) returns (r: Ref)
    requires s.Valid() && n < args && x < Pow2(bits)
    modifies s`V, s`ids, s`C
    ensures s.Valid() && old(s.V) <= s.V && Wf(s.V, r)
    ensures Den(s.V, r) == SymFn(n, args, bits, x)
  {
    DenLeaf(s.V);
    SymMeans(n, args, bits, x);
    assert SymUpTo(n, args, bits, x, 0) == All();
    hide NodesOk, Wf, Den, SymUpTo, SymFn;
    r := T;
    for b := 0 to bits
      invariant s.Valid() && old(s.V) <= s.V && Wf(s.V, r) && Den(s.V, r) == SymUpTo(n, args, bits, x, b)
    {
      r := AndSymBit(s, r, n, args, x, bits, b);
    }
  }

  /** The assignments in which two variables are equal. */
  method FromEq(s: Store, x: nat, y: nat) returns (r: Ref)
    requires s.Valid() && x != y
    modifies s`V, s`ids, s`C
    ensures s.Valid() && old(s.V) <= s.V && Wf(s.V, r)
    ensures Den(s.V, r) == IfThenElse(Bit(x + 1), Bit(y + 1), Not(Bit(y + 1)))
  {
    var h := s.FromBit(y, true);
    ghost var V1 := s.V;
    var l := s.FromBit(y, false);
    Grow(V1, s.V, h);
    ghost var v := y + 1;
    assert Mux(v, iset{}, All()) == Not(Bit(v));
    TwoBits(x + 1, v);
    r := ChooseBit(s, x, h, l, Bit(v), Not(Bit(v)));
  }

  method AndEqBit(s: Store, r0: Ref, n: nat, m: nat, args: nat, bits: nat, b: nat) returns (r: Ref)
    requires s.Valid() && n < args && m < args && n != m && b < bits
    requires Wf(s.V, r0) && Den(s.V, r0) == EqUpTo(n, m, args, bits, b)
    modifies s`V, s`ids, s`C
    ensures s.Valid() && old(s.V) <= s.V && Wf(s.V, r) && Den(s.V, r) == EqUpTo(n, m, args, bits, b + 1)
  {
    ghost var V1 := s.V;
    VarInjective(b, n, b, m, args, bits);
    var c := FromEq(s, Pos(b, n, args, bits), Pos(b, m, args, bits));
    Grow(V1, s.V, r0);
    EqStep(n, m, args, bits, b);
    r := s.And(r0, c);
  }

  /** The assignments in which arguments n and m are equal. */
  method FromSymEq(s: Store, n: nat, m: nat, args: nat, bits: nat) returns (r: Ref)
    requires s.Valid() && n < args && m < args && n != m
    modifies s`V, s`ids, s`C
    ensures s.Valid() && old(s.V) <= s.V && Wf(s.V, r)
    ensures Den(s.V, r) == EqFn(n, m, args, bits)
  {
    DenLeaf(s.V);
    EqMeans(n, m, args, bits);
    assert EqUpTo(n, m, args, bits, 0) == All();
    hide NodesOk, Wf, Den, EqUpTo, EqFn;
    r := T;
    for b := 0 to bits
      invariant s.Valid() && old(s.V) <= s.V && Wf(s.V, r) && Den(s.V, r) == EqUpTo(n, m, args, bits, b)
    {
      r := AndEqBit(s, r, n, m, args, bits, b);
    }
  }

  // ----- the vectors

  /** The entry of a vector for bit b of argument n. */
  function At<T>(p: seq<T>, args: nat, bits: nat, n: nat, b: nat): T
    requires |p| == args * bits && n < args && b < bits
  {
    F.PosRange(b, n, args, bits);
    p[Pos(b, n, args, bits)]
  }

  function Put<T>(p: seq<T>, args: nat, bits: nat, n: nat, b: nat, x: T): seq<T>
    requires |p| == args * bits && n < args && b < bits
  {
    F.PosRange(b, n, args, bits);
    p[Pos(b, n, args, bits) := x]
  }

  lemma PutAt<T>(p: seq<T>, args: nat, bits: nat, n: nat, b: nat, x: T, m: nat, c: nat)
    requires |p| == args * bits && n < args && b < bits && m < args && c < bits
    ensures At(Put(p, args, bits, n, b, x), args, bits, m, c)
      == if m == n && c == b then x else At(p, args, bits, m, c)
  {
    F.PosRange(b, n, args, bits);
    F.PosRange(c, m, args, bits);
    VarInjective(c, m, b, n, args, bits);
  }

  /** Only the bits of argument n differ. */
  ghost predicate SameBut<T>(p: seq<T>, q: seq<T>, args: nat, bits: nat, n: nat) {
    |p| == |q| == args * bits &&
    forall m: nat, b: nat :: m < args && b < bits && m != n ==> At(q, args, bits, m, b) == At(p, args, bits, m, b)
  }

  method PermInit(n: nat) returns (p: seq<nat>)
    ensures |p| == n && forall i :: 0 <= i < n ==> p[i] == i
  {
    p := [];
    while |p| < n
      invariant |p| <= n && forall i :: 0 <= i < |p| ==> p[i] == i
    {
      p := p + [|p|];
    }
  }

  /** Sends the bits of argument n to those of argument m of another tuple. */
  method Send(p0: seq<nat>, args: nat, bits: nat, n: nat, m: nat, len: nat) returns (p: seq<nat>)
    requires |p0| == args * bits && n < args
    ensures SameBut(p0, p, args, bits, n)
    ensures forall b: nat :: b < bits ==> At(p, args, bits, n, b) == Pos(b, m, len, bits)
  {
    p := p0;
    for b := 0 to bits
      invariant SameBut(p0, p, args, bits, n)
      invariant forall c: nat :: c < b ==> At(p, args, bits, n, c) == Pos(c, m, len, bits)
    {
      forall i: nat, c: nat | i < args && c < bits { PutAt(p, args, bits, n, b, Pos(b, m, len, bits), i, c); }
      p := Put(p, args, bits, n, b, Pos(b, m, len, bits));
    }
  }

  /** Quantifies the bits of argument n away. */
  method GetVarEx(ex0: seq<bool>, args: nat, bits: nat, n: nat) returns (ex: seq<bool>)
    requires |ex0| == args * bits && n < args
    ensures SameBut(ex0, ex, args, bits, n)
    ensures forall b: nat :: b < bits ==> At(ex, args, bits, n, b)
  {
    ex := ex0;
    for b := 0 to bits
      invariant SameBut(ex0, ex, args, bits, n)
      invariant forall c: nat :: c < b ==> At(ex, args, bits, n, c)
    {
      forall i: nat, c: nat | i < args && c < bits { PutAt(ex, args, bits, n, b, true, i, c); }
      ex := Put(ex, args, bits, n, b, true);
    }
  }

  /** The entries of the arguments before k are those of the permutation, the others are untouched. */
  ghost predicate PermUpTo(p: seq<nat>, args: seq<int>, vm: map<int, nat>, len: nat, bits: nat, k: nat)
    requires D.Covers(vm, args)
  {
    |p| == |args| * bits && forall n: nat, b: nat :: n < |args| && b < bits ==>
      At(p, |args|, bits, n, b) == if n < k then Sent(args, vm, len, bits, n, b) else Pos(b, n, |args|, bits)
  }

  ghost function Sent(args: seq<int>, vm: map<int, nat>, len: nat, bits: nat, n: nat, b: nat): nat
    requires D.Covers(vm, args) && n < |args| && b < bits
  {
    assert args[n] in args;
    if args[n] < 0 then Pos(b, vm[args[n]], len, bits) else Pos(b, n, |args|, bits)
  }

  lemma PermStep(p: seq<nat>, q: seq<nat>, args: seq<int>, vm: map<int, nat>, len: nat, bits: nat, k: nat)
    requires D.Covers(vm, args) && k < |args| && PermUpTo(p, args, vm, len, bits, k) && SameBut(p, q, |args|, bits, k)
    requires forall b: nat :: b < bits ==> At(q, |args|, bits, k, b) == Sent(args, vm, len, bits, k, b)
    ensures PermUpTo(q, args, vm, len, bits, k + 1)
  {
    var m := k + 1;
    forall n: nat, b: nat | n < |args| && b < bits
      ensures At(q, |args|, bits, n, b) == if n < m then Sent(args, vm, len, bits, n, b) else Pos(b, n, |args|, bits)
    {
      if n != k { assert At(q, |args|, bits, n, b) == At(p, |args|, bits, n, b); }
    }
  }

  lemma PermDone(p: seq<nat>, args: seq<int>, vm: map<int, nat>, len: nat, bits: nat)
    requires D.Covers(vm, args) && PermUpTo(p, args, vm, len, bits, |args|)
    ensures IsPerm(p, args, vm, len, bits)
  {
    forall n, b | 0 <= n < |args| && 0 <= b < bits ensures PermAt(p, args, vm, len, bits, n, b) {
      assert args[n] in args;
      assert At(p, |args|, bits, n, b) == Sent(args, vm, len, bits, n, b);
    }
  }

  /** The permutation of a body literal. */
  method GetPerm(args: seq<int>, vm: map<int, nat>, len: nat, bits: nat) returns (p: seq<nat>)
    requires D.Covers(vm, args)
    ensures IsPerm(p, args, vm, len, bits)
  {
    p := PermInit(|args| * bits);
    for n := 0 to |args|
      invariant PermUpTo(p, args, vm, len, bits, n)
    {
      ghost var p1 := p;
      assert args[n] in args;
      if args[n] < 0 { p := Send(p, |args|, bits, n, vm[args[n]], len); }
      PermStep(p1, p, args, vm, len, bits, n);
    }
    PermDone(p, args, vm, len, bits);
  }

  // ----- body literals

  /** The first occurrences met before argument k. */
  ghost predicate FirstsAre(m: map<int, nat>, args: seq<int>, k: nat)
    requires k <= |args|
  {
    && (forall x :: x in m ==> m[x] < k && args[m[x]] == x && First(args, m[x]))
    && (forall n :: 0 <= n < k && args[n] < 0 ==> args[n] in m)
  }

  lemma FirstsStep(m: map<int, nat>, args: seq<int>, k: nat)
    requires k < |args| && FirstsAre(m, args, k)
    ensures args[k] < 0 && args[k] !in m ==> First(args, k) && FirstsAre(m[args[k] := k], args, k + 1)
    ensures args[k] >= 0 || args[k] in m ==> !First(args, k) && FirstsAre(m, args, k + 1)
  {
  }

  /** The arguments before k are quantified away unless first occurrences; the others are kept. */
  ghost predicate ExUpTo(ex: seq<bool>, args: seq<int>, bits: nat, k: nat) {
    |ex| == |args| * bits && forall n: nat, b: nat :: n < |args| && b < bits ==>
      At(ex, |args|, bits, n, b) == (n < k && !First(args, n))
  }

  lemma ExStep(ex: seq<bool>, ex': seq<bool>, args: seq<int>, bits: nat, k: nat)
    requires k < |args| && ExUpTo(ex, args, bits, k) && SameBut(ex, ex', |args|, bits, k)
    requires forall b: nat :: b < bits ==> At(ex', |args|, bits, k, b) == !First(args, k)
    ensures ExUpTo(ex', args, bits, k + 1)
  {
    var m := k + 1;
    forall n: nat, b: nat | n < |args| && b < bits ensures At(ex', |args|, bits, n, b) == (n < m && !First(args, n)) {
      if n != k { assert At(ex', |args|, bits, n, b) == At(ex, |args|, bits, n, b); }
    }
  }

  lemma ExDone(ex: seq<bool>, args: seq<int>, bits: nat)
    requires ExUpTo(ex, args, bits, |args|)
    ensures IsEx(ex, args, bits)
  {
    forall n, b | 0 <= n < |args| && 0 <= b < bits ensures ExAt(ex, args, bits, n, b) {
      assert At(ex, |args|, bits, n, b) == !First(args, n);
    }
  }

  ghost function FitStep(args: seq<int>, bits: nat, n: nat): Fn
    requires n < |args|
  {
    iset a: Asg | FitsAt(args, Read(a, |args|, bits), n)
  }

  lemma FitUnfold(args: seq<int>, bits: nat, n: nat)
    requires n < |args|
    ensures FitFn(args, bits, n) * FitStep(args, bits, n) == FitFn(args, bits, n + 1)
  {
    hide FitsAt, Num;
    var m := n + 1;
    forall a: Asg ensures a in FitFn(args, bits, n) * FitStep(args, bits, n) <==> a in FitFn(args, bits, m) {
      var t := Read(a, |args|, bits);
      if BodyBits.Fits(args, t, n) && FitsAt(args, t, n) { forall i | 0 <= i < m ensures FitsAt(args, t, i) { } }
    }
  }

  /** What argument n adds to the fit of the arguments before it. */
  lemma FitAdds(args: seq<int>, bits: nat, n: nat, m: map<int, nat>)
    requires n < |args| && FirstsAre(m, args, n)
    ensures args[n] >= 0 ==> FitStep(args, bits, n) == SymFn(n, |args|, bits, args[n])
    ensures args[n] < 0 && args[n] !in m ==> FitStep(args, bits, n) == All()
    ensures args[n] < 0 && args[n] in m ==>
      FitFn(args, bits, n) * FitStep(args, bits, n) == FitFn(args, bits, n) * EqFn(n, m[args[n]], |args|, bits)
  {
    hide Num;
    if args[n] < 0 && args[n] in m {
      var k := m[args[n]];
      forall a: Asg | a in FitFn(args, bits, n)
        ensures a in FitStep(args, bits, n) <==> a in EqFn(n, k, |args|, bits)
      {
        SameAsFirst(args, Read(a, |args|, bits), n, k);
      }
    }
  }

  lemma SameAsFirst(args: seq<int>, t: Tuple, n: nat, k: nat)
    requires k < n < |args| == |t| && First(args, k) && args[k] == args[n] && BodyBits.Fits(args, t, n)
    ensures FitsAt(args, t, n) <==> t[n] == t[k]
  {
    forall i | 0 <= i < n && args[i] == args[n] ensures t[i] == t[k] {
      assert FitsAt(args, t, i);
      assert First(args, k) ==> i >= k;
    }
  }

  /** The compiled body literal: its condition on the table's bits, the quantified bits and the permutation. */
  method GetBody(s: Store, args: seq<int>, vm: map<int, nat>, len: nat, bits: nat)
    returns (q: Ref, ex: seq<bool>, p: seq<nat>)
    requires s.Valid() && D.Covers(vm, args) && SymbolsFit(args, bits)
    modifies s`V, s`ids, s`C
    ensures s.Valid() && old(s.V) <= s.V && Wf(s.V, q) && Den(s.V, q) == FitFn(args, bits, |args|)
    ensures IsPerm(p, args, vm, len, bits) && IsEx(ex, args, bits)
  {
    p := GetPerm(args, vm, len, bits);
    q, ex := T, seq(|args| * bits, i => false);
    DenLeaf(s.V);
    var m: map<int, nat> := map[];
    for n := 0 to |args|
      invariant s.Valid() && old(s.V) <= s.V && Wf(s.V, q) && Den(s.V, q) == FitFn(args, bits, n)
      invariant ExUpTo(ex, args, bits, n) && FirstsAre(m, args, n)
    {
      FirstsStep(m, args, n);
      q, ex, m := BodyArg(s, args, bits, n, q, ex, m);
    }
    ExDone(ex, args, bits);
  }

  /** One argument of a body literal. */
  method BodyArg(s: Store, args: seq<int>, bits: nat, n: nat, q0: Ref, ex0: seq<bool>, m0: map<int, nat>)
    returns (q: Ref, ex: seq<bool>, m: map<int, nat>)
    requires s.Valid() && SymbolsFit(args, bits) && n < |args| && Wf(s.V, q0) && Den(s.V, q0) == FitFn(args, bits, n)
    requires ExUpTo(ex0, args, bits, n) && FirstsAre(m0, args, n)
    modifies s`V, s`ids, s`C
    ensures s.Valid() && old(s.V) <= s.V && Wf(s.V, q) && Den(s.V, q) == FitFn(args, bits, n + 1)
    ensures ExUpTo(ex, args, bits, n + 1) && FirstsAre(m, args, n + 1)
  {
    FirstsStep(m0, args, n);
    FitUnfold(args, bits, n);
    FitAdds(args, bits, n, m0);
    assert args[n] in args;
    q, ex, m := q0, ex0, m0;
    if args[n] < 0 && args[n] !in m0 {
      m := m0[args[n] := n];
    } else {
      q := Narrow(s, args, bits, n, q0, m0);
      ex := GetVarEx(ex0, |args|, bits, n);
    }
    ExStep(ex0, ex, args, bits, n);
  }

  /** The condition of a symbol or of a repeated variable joins the others. */
  method Narrow(s: Store, args: seq<int>, bits: nat, n: nat, q0: Ref, m: map<int, nat>) returns (q: Ref)
    requires s.Valid() && SymbolsFit(args, bits) && n < |args| && Wf(s.V, q0) && FirstsAre(m, args, n)
    requires args[n] >= 0 || args[n] in m
    modifies s`V, s`ids, s`C
    ensures s.Valid() && old(s.V) <= s.V && Wf(s.V, q)
    ensures Den(s.V, q) == Den(old(s.V), q0) *
      if args[n] >= 0 then SymFn(n, |args|, bits, args[n]) else EqFn(n, m[args[n]], |args|, bits)
  {
    ghost var V0 := s.V;
    assert args[n] in args;
    var c;
    if args[n] >= 0 {
      c := FromSym(s, n, |args|, args[n], bits);
    } else {
      c := FromSymEq(s, n, m[args[n]], |args|, bits);
    }
    Grow(V0, s.V, q0);
    q := s.And(q0, c);
  }

  // ----- the fused queries

  /** The function depends on the tuple that an assignment stands for, and on nothing else. */
  ghost predicate ByTuple(X: Fn, args: nat, bits: nat) {
    forall a: Asg, c: Asg :: Read(a, args, bits) == Read(c, args, bits) ==> (a in X <==> c in X)
  }

  lemma ReadOther(a: Asg, args: nat, bits: nat, v: nat)
    requires !IsBitVar(v, args, bits)
    ensures Read(a + iset{v}, args, bits) == Read(a - iset{v}, args, bits)
  {
    forall n | 0 <= n < args
      ensures Num(a + iset{v}, n, args, bits, 0, bits) == Num(a - iset{v}, n, args, bits, 0, bits)
    {
      forall b | 0 <= b < bits ensures v != Var(b, n, args, bits) { VarIsBit(b, n, args, bits); }
      NumIndep(a, n, args, bits, 0, bits, v);
    }
  }

  /** Such a function lies within the variables of the tuple. */
  lemma TupleRange(V: seq<Node>, r: Ref, args: nat, bits: nat)
    requires NodesOk(V) && Wf(V, r) && ByTuple(Den(V, r), args, bits)
    ensures InRange(V, r, 1, args * bits)
  {
    var X := Den(V, r);
    hide Den, Read, Wf;
    forall v: nat | v > args * bits || v <= 0 ensures Indep(X, v) {
      forall a: Asg ensures a + iset{v} in X <==> a - iset{v} in X { ReadOther(a, args, bits, v); }
    }
    AboveIfIndep(V, r, 0);
  }

  lemma TuplesRange(V: seq<Node>, s: seq<Ref>, args: nat, bits: nat)
    requires NodesOk(V) && AllWf(V, s) && forall i :: 0 <= i < |s| ==> ByTuple(Den(V, s[i]), args, bits)
    ensures AllInRange(V, s, 1, args * bits)
  {
    forall r | r in s ensures InRange(V, r, 1, args * bits) {
      var i :| 0 <= i < |s| && s[i] == r;
      TupleRange(V, r, args, bits);
    }
  }

  /** Distinct first occurrences stay distinct. */
  lemma BodyFits(args: seq<int>, vm: map<int, nat>, len: nat, bits: nat, ex: seq<bool>, p: seq<nat>)
    requires VarsFit(args, vm, len) && IsPerm(p, args, vm, len, bits) && IsEx(ex, args, bits)
    ensures QueryFits(ExistsRename(ex, p), |args| * bits)
  {
    var q, k := ExistsRename(ex, p), |args| * bits;
    forall v: nat, w: nat | v <= k && w <= k && !q.Quantified(v) && !q.Quantified(w) && q.Target(v) == q.Target(w)
      ensures v == w
    {
      if v > 0 && w > 0 {
        var b, n := BitOf(v, |args|, bits);
        var c, m := BitOf(w, |args|, bits);
        KeptVar(args, vm, len, bits, ex, p, b, n);
        KeptVar(args, vm, len, bits, ex, p, c, m);
        VarInjective(b, vm[args[n]], c, vm[args[m]], len, bits);
      } else {
        ZeroKept(q, v); ZeroKept(q, w);
      }
    }
  }

  lemma ZeroKept(q: Query, v: nat)
    ensures !q.Quantified(0) && (q.Target(v) == 0 <==> v == 0)
  {
  }

  /** The valuations under which a compiled body literal holds of the tuples R, on the bits of the valuation. */
  ghost function HoldsFn(b: D.BodyDef, len: nat, bits: nat, R: set<Tuple>): Fn
    requires D.BodyOk(b, len)
  {
    Codes(D.BodyRel(Pow2(bits), b, R), len, bits)
  }

  lemma ReadOk(x: Asg, len: nat, bits: nat)
    ensures D.ValOk(Read(x, len, bits), Pow2(bits), len)
  {
    forall n | 0 <= n < len ensures Read(x, len, bits)[n] < Pow2(bits) { NumBound(x, n, len, bits, 0, bits); }
  }

  lemma HoldsAt(b: D.BodyDef, len: nat, bits: nat, R: set<Tuple>, x: Asg)
    requires D.BodyOk(b, len)
    ensures x in HoldsFn(b, len, bits, R) <==> D.BodyHolds(b, Read(x, len, bits), R)
  {
    ReadOk(x, len, bits);
    D.ValsExact(Pow2(bits), len, Read(x, len, bits));
  }

  lemma AskedMeans(neg: bool, tab: nat, args: seq<int>, vm: map<int, nat>, v: Tuple, R: set<Tuple>)
    requires VarsFit(args, vm, |v|)
    ensures D.BodyHolds(D.GetBody(D.Rel(neg, tab, args), vm, |v|), v, R) <==> (Asked(args, vm, v) in R) != neg
  {
    var b := D.GetBody(D.Rel(neg, tab, args), vm, |v|);
    assert D.Fetch(b.args, v) == Asked(args, vm, v);
  }

  lemma TableMeans(V: seq<Node>, t: Ref, R: set<Tuple>, neg: bool, args: nat, bits: nat)
    requires NodesOk(V) && Wf(V, t) && Den(V, t) == Codes(R, args, bits)
    ensures var x := if neg then Flip(t) else t; Wf(V, x) && Den(V, x) == TableFn(R, neg, args, bits)
  {
    DenFlip(V, t);
  }

  lemma BodyMeans(neg: bool, tab: nat, args: seq<int>, vm: map<int, nat>, len: nat, bits: nat,
      ex: seq<bool>, p: seq<nat>, R: set<Tuple>)
    requires VarsFit(args, vm, len) && SymbolsFit(args, bits) && IsPerm(p, args, vm, len, bits) && IsEx(ex, args, bits)
    ensures Image(ExistsRename(ex, p), FitFn(args, bits, |args|) * TableFn(R, neg, |args|, bits))
      == HoldsFn(D.GetBody(D.Rel(neg, tab, args), vm, len), len, bits, R)
  {
    BodyImage(args, vm, len, bits, ex, p, R, neg);
    forall a: Asg
      ensures a in HoldsFn(D.GetBody(D.Rel(neg, tab, args), vm, len), len, bits, R)
        <==> (Asked(args, vm, Read(a, len, bits)) in R) != neg
    {
      AskedMeans(neg, tab, args, vm, Read(a, len, bits), R);
      HoldsAt(D.GetBody(D.Rel(neg, tab, args), vm, len), len, bits, R, a);
    }
  }

  /** The fused query of a body literal on the BDD of its table: exactly the valuations under which it holds. */
  method BodyQuery(s: Store, neg: bool, ghost tab: nat, ghost args: seq<int>, ghost vm: map<int, nat>, ghost len: nat,
      ghost bits: nat, q: Ref, ex: seq<bool>, p: seq<nat>, t: Ref, ghost R: set<Tuple>)
    returns (r: Ref)
    requires s.Valid() && VarsFit(args, vm, len) && SymbolsFit(args, bits)
    requires IsPerm(p, args, vm, len, bits) && IsEx(ex, args, bits)
    requires Wf(s.V, q) && Den(s.V, q) == FitFn(args, bits, |args|)
    requires Wf(s.V, t) && Den(s.V, t) == Codes(R, |args|, bits)
    modifies s`V, s`ids, s`C, s`one, s`pair
    ensures s.Valid() && old(s.V) <= s.V && Wf(s.V, r)
    ensures Den(s.V, r) == HoldsFn(D.GetBody(D.Rel(neg, tab, args), vm, len), len, bits, R)
  {
    TableMeans(s.V, t, R, neg, |args|, bits);
    var x := if neg then Flip(t) else t;
    TupleRange(s.V, q, |args|, bits);
    TupleRange(s.V, x, |args|, bits);
    BodyFits(args, vm, len, bits, ex, p);
    BodyMeans(neg, tab, args, vm, len, bits, ex, p, R);
    var last := Store.LastTouched(ExistsRename(ex, p));
    r := s.PairQuery(q, x, ExistsRename(ex, p), last, 1, |args| * bits);
  }

  // ----- alternatives

  /** The vectors that cut a valuation of len1 arguments to its first len2. */
  method DelTail(len1: nat, len2: nat, bits: nat) returns (ex: seq<bool>, p: seq<nat>)
    ensures IsTail(ex, p, len1, len2, bits)
  {
    ex := seq(len1 * bits, i => false);
    p := PermInit(len1 * bits);
    for n := 0 to len1
      invariant TailUpTo(ex, p, len1, len2, bits, n)
    {
      ghost var ex1, p1 := ex, p;
      if n >= len2 {
        ex := GetVarEx(ex, len1, bits, n);
      } else {
        p := Send(p, len1, bits, n, n, len2);
      }
      TailStep(ex1, p1, ex, p, len1, len2, bits, n);
    }
    TailDone(ex, p, len1, len2, bits);
  }

  ghost predicate TailUpTo(ex: seq<bool>, p: seq<nat>, len1: nat, len2: nat, bits: nat, k: nat) {
    |ex| == |p| == len1 * bits && forall n: nat, b: nat :: n < len1 && b < bits ==>
      TailEntry(ex, p, len1, len2, bits, k, n, b)
  }

  ghost predicate TailEntry(ex: seq<bool>, p: seq<nat>, len1: nat, len2: nat, bits: nat, k: nat, n: nat, b: nat)
    requires |ex| == |p| == len1 * bits && n < len1 && b < bits
  {
    && At(ex, len1, bits, n, b) == (n < k && n >= len2)
    && (n < k && n < len2 ==> At(p, len1, bits, n, b) == Pos(b, n, len2, bits))
  }

  lemma TailStep(ex: seq<bool>, p: seq<nat>, ex': seq<bool>, p': seq<nat>, len1: nat, len2: nat, bits: nat, k: nat)
    requires k < len1 && TailUpTo(ex, p, len1, len2, bits, k)
    requires SameBut(ex, ex', len1, bits, k) && SameBut(p, p', len1, bits, k)
    requires if k >= len2 then forall b: nat :: b < bits ==> At(ex', len1, bits, k, b)
      else ex' == ex && forall b: nat :: b < bits ==> At(p', len1, bits, k, b) == Pos(b, k, len2, bits)
    ensures TailUpTo(ex', p', len1, len2, bits, k + 1)
  {
    var m := k + 1;
    forall n: nat, b: nat | n < len1 && b < bits ensures TailEntry(ex', p', len1, len2, bits, m, n, b) {
      assert TailEntry(ex, p, len1, len2, bits, k, n, b);
      if n != k {
        assert At(ex', len1, bits, n, b) == At(ex, len1, bits, n, b);
        assert At(p', len1, bits, n, b) == At(p, len1, bits, n, b);
      }
    }
  }

  lemma TailDone(ex: seq<bool>, p: seq<nat>, len1: nat, len2: nat, bits: nat)
    requires TailUpTo(ex, p, len1, len2, bits, len1)
    ensures IsTail(ex, p, len1, len2, bits)
  {
    forall n, b | 0 <= n < len1 && 0 <= b < bits ensures TailAt(ex, p, len1, len2, bits, n, b) {
      assert TailEntry(ex, p, len1, len2, bits, len1, n, b);
    }
  }

  lemma TailFits(ex: seq<bool>, p: seq<nat>, len1: nat, len2: nat, bits: nat)
    requires IsTail(ex, p, len1, len2, bits)
    ensures QueryFits(ExistsRename(ex, p), len1 * bits)
  {
    var q, k := ExistsRename(ex, p), len1 * bits;
    forall v: nat, w: nat | v <= k && w <= k && !q.Quantified(v) && !q.Quantified(w) && q.Target(v) == q.Target(w)
      ensures v == w
    {
      if v > 0 && w > 0 {
        var b, n := BitOf(v, len1, bits);
        var c, m := BitOf(w, len1, bits);
        TailVar(ex, p, len1, len2, bits, n, b);
        TailVar(ex, p, len1, len2, bits, m, c);
        VarInjective(b, n, c, m, len2, bits);
      } else {
        ZeroKept(q, v); ZeroKept(q, w);
      }
    }
  }

  /** The conjuncts of an alternative: its two constraints and its body literals, on the bits of the valuations. */
  ghost predicate ConjunctsOk(V: seq<Node>, rng: Ref, eq: Ref, bs: seq<Ref>, a: D.AltDef, bodies: seq<D.BodyDef>,
      db: D.DB, bits: nat)
    requires NodesOk(V) && D.AltOk(a, bodies)
  {
    && Wf(V, rng) && Den(V, rng) == Codes(a.rng, a.len, bits)
    && Wf(V, eq) && Den(V, eq) == Codes(a.eq, a.len, bits)
    && |bs| == |a.bodies| && forall i :: 0 <= i < |bs| ==> ConjunctAt(V, bs, a, bodies, db, bits, i)
  }

  ghost predicate ConjunctAt(V: seq<Node>, bs: seq<Ref>, a: D.AltDef, bodies: seq<D.BodyDef>, db: D.DB, bits: nat,
        i: nat)
    requires NodesOk(V) && D.AltOk(a, bodies) && i < |bs| == |a.bodies|
  {
    assert a.bodies[i] in a.bodies;
    var b := bodies[a.bodies[i]];
    Wf(V, bs[i]) && Den(V, bs[i]) == HoldsFn(b, a.len, bits, D.Contents(db, b.tab))
  }

  lemma ConjunctsMean(V: seq<Node>, rng: Ref, eq: Ref, bs: seq<Ref>, a: D.AltDef, bodies: seq<D.BodyDef>,
      db: D.DB, bits: nat)
    requires NodesOk(V) && D.AltOk(a, bodies) && ConjunctsOk(V, rng, eq, bs, a, bodies, db, bits)
    ensures AllWf(V, [rng, eq] + bs) && AllInRange(V, [rng, eq] + bs, 1, a.len * bits)
    ensures Conj(V, [rng, eq] + bs) == Codes(D.AltVals(Pow2(bits), a, bodies, db), a.len, bits)
  {
    var s := [rng, eq] + bs;
    forall i | 0 <= i < |s| ensures Wf(V, s[i]) && ByTuple(Den(V, s[i]), a.len, bits) {
      if i >= 2 { assert ConjunctAt(V, bs, a, bodies, db, bits, i - 2); }
    }
    TuplesRange(V, s, a.len, bits);
    forall x: Asg ensures x in Conj(V, s) <==> Read(x, a.len, bits) in D.AltVals(Pow2(bits), a, bodies, db) {
      ConjunctsAt(V, rng, eq, bs, a, bodies, db, bits, x);
    }
  }

  lemma SemOfDen(V: seq<Node>, s: seq<Ref>, x: Asg)
    requires NodesOk(V) && AllWf(V, s) && forall r :: r in s ==> x in Den(V, r)
    ensures x in Conj(V, s)
  {
    forall r | r in s ensures Sem(V, r, x) { assert x in Den(V, r); }
  }

  lemma ConjunctsAt(V: seq<Node>, rng: Ref, eq: Ref, bs: seq<Ref>, a: D.AltDef, bodies: seq<D.BodyDef>,
      db: D.DB, bits: nat, x: Asg)
    requires NodesOk(V) && D.AltOk(a, bodies) && ConjunctsOk(V, rng, eq, bs, a, bodies, db, bits)
    requires AllWf(V, [rng, eq] + bs)
    ensures x in Conj(V, [rng, eq] + bs) <==> Read(x, a.len, bits) in D.AltVals(Pow2(bits), a, bodies, db)
  {
    var s, v := [rng, eq] + bs, Read(x, a.len, bits);
    ReadOk(x, a.len, bits);
    D.ValsExact(Pow2(bits), a.len, v);
    assert s[0] == rng && s[1] == eq && forall i :: 0 <= i < |bs| ==> s[i + 2] == bs[i];
    if x in Conj(V, s) {
      forall k | k in a.bodies ensures D.BodyHolds(bodies[k], v, D.Contents(db, bodies[k].tab)) {
        var i :| 0 <= i < |a.bodies| && a.bodies[i] == k;
        assert ConjunctAt(V, bs, a, bodies, db, bits, i);
        assert s[i + 2] in s && x in Den(V, bs[i]);
        HoldsAt(bodies[k], a.len, bits, D.Contents(db, bodies[k].tab), x);
      }
      assert s[0] in s && s[1] in s && x in Den(V, rng) && x in Den(V, eq);
    }
    if v in D.AltVals(Pow2(bits), a, bodies, db) {
      forall r | r in s ensures x in Den(V, r) {
        var i :| 0 <= i < |s| && s[i] == r;
        if i >= 2 {
          assert ConjunctAt(V, bs, a, bodies, db, bits, i - 2);
          assert a.bodies[i - 2] in a.bodies;
          var b := bodies[a.bodies[i - 2]];
          HoldsAt(b, a.len, bits, D.Contents(db, b.tab), x);
        }
      }
      SemOfDen(V, s, x);
    }
  }

  /** The fused query of an alternative on the BDDs of its conjuncts: exactly what it contributes to the head. */
  method AltQuery(s: Store, rng: Ref, eq: Ref, bs: seq<Ref>, ghost a: D.AltDef, ghost bodies: seq<D.BodyDef>,
      ghost db: D.DB, ghost bits: nat, ex: seq<bool>, p: seq<nat>)
    returns (r: Ref)
    requires s.Valid() && D.AltOk(a, bodies) && ConjunctsOk(s.V, rng, eq, bs, a, bodies, db, bits)
    requires IsTail(ex, p, a.len, a.headLen, bits)
    modifies s`V, s`ids, s`C, s`one, s`pair, s`many
    ensures s.Valid() && old(s.V) <= s.V && Wf(s.V, r)
    ensures Den(s.V, r) == Codes(D.AltRel(Pow2(bits), a, bodies, db), a.headLen, bits)
  {
    ConjunctsMean(s.V, rng, eq, bs, a, bodies, db, bits);
    TailFits(ex, p, a.len, a.headLen, bits);
    ghost var S := D.AltVals(Pow2(bits), a, bodies, db);
    forall u | u in S ensures |u| == a.len && InBits(u, bits) { D.ValsExact(Pow2(bits), a.len, u); }
    TailImage(ex, p, a.len, a.headLen, bits, S);
    r := s.RunQuery([rng, eq] + bs, ExistsRename(ex, p), a.len * bits);
  }
}
