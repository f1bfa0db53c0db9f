/** Subsumption, enumeration and counting of satisfying assignments. */
module BddSat {
  import opened BddRef
  import opened BddSem
  import opened BddAlgebra
  import opened BddIte
  import opened BddLists

  // ----- subsumption

  /** Does y imply x? */
  predicate Subsumes(V: seq<Node>, x: Ref, y: Ref)
    requires NodesOk(V) && Wf(V, x) && Wf(V, y)
    decreases x.id + y.id
  {
    if x == T then true
    else if x == F then y == F
    else if y == T then false
    else if y == F then true
    else if x.shift < y.shift then Subsumes(V, Hi(V, x), y) && Subsumes(V, Lo(V, x), y)
    else if x.shift > y.shift then Subsumes(V, x, Hi(V, y)) && Subsumes(V, x, Lo(V, y))
    else Subsumes(V, Hi(V, x), Hi(V, y)) && Subsumes(V, Lo(V, x), Lo(V, y))
  }

  lemma MuxSubset(v: nat, H: Fn, L: Fn, H': Fn, L': Fn)
    requires Indep(H, v) && Indep(L, v) && Indep(H', v) && Indep(L', v)
    ensures Mux(v, H, L) <= Mux(v, H', L') <==> H <= H' && L <= L'
  {
    var X, X' := Mux(v, H, L), Mux(v, H', L');
    forall a: Asg
      ensures (a in H <==> a + iset{v} in X) && (a in L <==> a - iset{v} in X)
      ensures (a in H' <==> a + iset{v} in X') && (a in L' <==> a - iset{v} in X')
    {
      MuxAt(v, H, L, X, a);
      MuxAt(v, H', L', X', a);
    }
  }

  lemma SubsumesTerminal(V: seq<Node>, x: Ref, y: Ref)
    requires NodesOk(V) && Wf(V, x) && Wf(V, y) && (x.id == 1 || y.id == 1)
    ensures Subsumes(V, x, y) <==> Den(V, y) <= Den(V, x)
  {
    DenLeaf(V);
    Canonical(V, x, T); Canonical(V, y, F);
    if y == T && Den(V, y) <= Den(V, x) { assert Den(V, x) == All(); }
    if x == F && Den(V, y) <= Den(V, x) { assert Den(V, y) == iset{}; }
  }

  /** The recursive test decides implication. */
  lemma {:induction false} SubsumesIff(V: seq<Node>, x: Ref, y: Ref)
    requires NodesOk(V) && Wf(V, x) && Wf(V, y)
    ensures Subsumes(V, x, y) <==> Den(V, y) <= Den(V, x)
    decreases x.id + y.id
  {
    if x.id == 1 || y.id == 1 {
      SubsumesTerminal(V, x, y);
    } else {
      var v := Min(x.shift, y.shift);
      var x1, x0, y1, y0 := Cof(V, x, v, true), Cof(V, x, v, false), Cof(V, y, v, true), Cof(V, y, v, false);
      SubsumesIff(V, x1, y1);
      SubsumesIff(V, x0, y0);
      CofMux(V, x, v); CofMux(V, y, v);
      DenIndep(V, x1, v); DenIndep(V, x0, v); DenIndep(V, y1, v); DenIndep(V, y0, v);
      MuxSubset(v, Den(V, y1), Den(V, y0), Den(V, x1), Den(V, x0));
    }
  }

  // ----- enumeration

  predicate Holds(s: seq<bool>, i: nat) {
    1 <= i <= |s| && s[i - 1]
  }

  /** The assignment written in a vector: variable i is position i - 1. */
  ghost function AsgOf(s: seq<bool>): Asg {
    iset i: nat | Holds(s, i)
  }

  ghost predicate Distinct<A>(r: seq<A>) {
    forall i, j :: 0 <= i < j < |r| ==> r[i] != r[j]
  }

  /** The vectors of length n that start with the first v - 1 entries of p and satisfy t. */
  ghost predicate Extends(V: seq<Node>, t: Ref, p: seq<bool>, v: nat, s: seq<bool>)
    requires NodesOk(V) && Wf(V, t) && 0 < v <= |p| + 1
  {
    |s| == |p| && s[..v - 1] == p[..v - 1] && Sem(V, t, AsgOf(s))
  }

  /** out lists each satisfying extension exactly once. */
  ghost predicate Lists(V: seq<Node>, t: Ref, p: seq<bool>, v: nat, out: seq<seq<bool>>)
    requires NodesOk(V) && Wf(V, t) && 0 < v <= |p| + 1
  {
    Distinct(out) && forall s :: s in out <==> Extends(V, t, p, v, s)
  }

  /** Enumerates from variable v on; nvars is one past the last variable. The buffer p is overwritten from
      position v - 1 on. */
  method Sat(V: seq<Node>, v: nat, nvars: nat, t: Ref, p0: seq<bool>, r0: seq<seq<bool>>)
    returns (p: seq<bool>, r: seq<seq<bool>>, ghost out: seq<seq<bool>>)
    requires 0 < v <= nvars && NodesOk(V) && InRange(V, t, v, nvars - 1) && |p0| == nvars - 1
    ensures |p| == |p0| && p[..v - 1] == p0[..v - 1]
    ensures r == r0 + out && Lists(V, t, p0, v, out)
    decreases nvars - v
  {
    p, r, out := p0, r0, [];
    if t == F { return; }
    if v == nvars { Exhausted(V, t, v, nvars); }
    if (!Leaf(t) && v < t.shift) || v != nvars {
      var high := if !Leaf(t) && v < t.shift then t else Hi(V, t);
      var low := if !Leaf(t) && v < t.shift then t else Lo(V, t);
      StepRange(V, t, v, nvars - 1, high, low);
      ghost var o1, o2;
      p := p[v - 1 := true];
      ghost var p1 := p;
      p, r, o1 := Sat(V, v + 1, nvars, high, p, r);
      p := p[v - 1 := false];
      ghost var p2 := p;
      p, r, o2 := Sat(V, v + 1, nvars, low, p, r);
      out := o1 + o2;
      StepLists(V, t, v, p0, p1, p2, high, low, o1, o2);
    } else {
      r := r + [p];
      out := [p];
      LastLists(V, p0, v);
    }
  }

  lemma Exhausted(V: seq<Node>, t: Ref, v: nat, nvars: nat)
    requires 0 < v == nvars && NodesOk(V) && InRange(V, t, v, nvars - 1)
    ensures t.id == 1
  {
    if t.id > 1 { InRangeTop(V, t, v, nvars - 1); }
  }

  lemma StepRange(V: seq<Node>, t: Ref, v: nat, n: nat, high: Ref, low: Ref)
    requires NodesOk(V) && InRange(V, t, v, n) && high == Cof(V, t, v, true) && low == Cof(V, t, v, false)
    ensures InRange(V, high, v + 1, n) && InRange(V, low, v + 1, n)
  {
    CofInRange(V, t, v, n, true);
    CofInRange(V, t, v, n, false);
  }

  lemma StepExtends(V: seq<Node>, t: Ref, v: nat, p: seq<bool>, q: seq<bool>, b: bool, s: seq<bool>)
    requires NodesOk(V) && Wf(V, t) && AtLeast(t, v) && 0 < v <= |p| && |q| == |p|
    requires q[..v - 1] == p[..v - 1] && q[v - 1] == b
    ensures Extends(V, Cof(V, t, v, b), q, v + 1, s) <==> Extends(V, t, p, v, s) && s[v - 1] == b
  {
    if |s| == |p| {
      assert v in AsgOf(s) <==> s[v - 1];
      assert q[..v] == q[..v - 1] + [b];
      assert s[..v] == s[..v - 1] + [s[v - 1]];
      if s[v - 1] == b {
        CofSem(V, t, v, b, AsgOf(s));
      }
    }
  }

  lemma CofSem(V: seq<Node>, t: Ref, v: nat, b: bool, a: Asg)
    requires NodesOk(V) && Wf(V, t) && (v in a) == b
    ensures Sem(V, Cof(V, t, v, b), a) == Sem(V, t, a)
  {
  }

  lemma StepLists(V: seq<Node>, t: Ref, v: nat, p: seq<bool>, p1: seq<bool>, p2: seq<bool>, high: Ref, low: Ref,
      o1: seq<seq<bool>>, o2: seq<seq<bool>>)
    requires NodesOk(V) && Wf(V, t) && AtLeast(t, v) && 0 < v <= |p| && |p1| == |p2| == |p|
    requires p1[..v - 1] == p[..v - 1] && p1[v - 1] && p2[..v - 1] == p[..v - 1] && !p2[v - 1]
    requires high == Cof(V, t, v, true) && low == Cof(V, t, v, false)
    requires Lists(V, high, p1, v + 1, o1) && Lists(V, low, p2, v + 1, o2)
    ensures Lists(V, t, p, v, o1 + o2)
  {
    forall s
      ensures s in o1 <==> Extends(V, t, p, v, s) && s[v - 1]
      ensures s in o2 <==> Extends(V, t, p, v, s) && !s[v - 1]
    {
      StepExtends(V, t, v, p, p1, true, s);
      StepExtends(V, t, v, p, p2, false, s);
    }
    forall i, j | 0 <= i < j < |o1 + o2| ensures (o1 + o2)[i] != (o1 + o2)[j] {
      if i < |o1| <= j { assert o1[i] in o1 && o2[j - |o1|] in o2; }
    }
  }

  lemma LastLists(V: seq<Node>, p: seq<bool>, v: nat)
    requires NodesOk(V) && v == |p| + 1
    ensures Wf(V, T) && Lists(V, T, p, v, [p])
  {
    DenLeaf(V);
    forall s ensures s in [p] <==> Extends(V, T, p, v, s) {
      if |s| == |p| { assert s[..v - 1] == s && p[..v - 1] == p; }
    }
  }

  /** All satisfying vectors over the variables 1 to nvars, each exactly once. */
  method AllSat(V: seq<Node>, x: Ref, nvars: nat) returns (r: seq<seq<bool>>)
    requires NodesOk(V) && InRange(V, x, 1, nvars)
    ensures Distinct(r)
    ensures forall s :: s in r <==> |s| == nvars && AsgOf(s) in Den(V, x)
  {
    var p := seq(nvars, i => false);
    var p', r', out := Sat(V, 1, nvars + 1, x, p, []);
    r := r';
    assert r == out;
    forall s ensures s in r <==> |s| == nvars && AsgOf(s) in Den(V, x) {
      assert s in out <==> Extends(V, x, p, 1, s);
    }
  }

  // ----- counting

  function Pow2(k: nat): (r: nat)
    ensures r >= 1
  {
    if k == 0 then 1 else 2 * Pow2(k - 1)
  }

  lemma {:induction false} Pow2Add(i: nat, j: nat)
    ensures Pow2(i + j) == Pow2(i) * Pow2(j)
  {
    if i > 0 {
      Pow2Add(i - 1, j);
      assert Pow2(i + j) == 2 * Pow2((i - 1) + j);
    }
  }

  /** The number of ways to choose the variables from v to bits so that t holds. */
  ghost function Count(V: seq<Node>, t: Ref, v: nat, bits: nat): nat
    requires NodesOk(V) && Wf(V, t) && v <= bits + 1
    decreases bits + 1 - v
  {
    if v == bits + 1 then (if t == F then 0 else 1)
    else Count(V, Cof(V, t, v, true), v + 1, bits) + Count(V, Cof(V, t, v, false), v + 1, bits)
  }

  lemma {:induction false} CountLeaf(V: seq<Node>, v: nat, bits: nat)
    requires NodesOk(V) && v <= bits + 1
    ensures Wf(V, T) && Wf(V, F) && Count(V, T, v, bits) == Pow2(bits + 1 - v) && Count(V, F, v, bits) == 0
    decreases bits + 1 - v
  {
    if v <= bits { CountLeaf(V, v + 1, bits); }
  }

  /** Skipped variables double the count. */
  lemma {:induction false} CountSkip(V: seq<Node>, t: Ref, v: nat, bits: nat)
    requires NodesOk(V) && Wf(V, t) && t.id > 1 && v <= t.shift <= bits
    ensures Count(V, t, v, bits) == Pow2(t.shift - v) * Count(V, t, t.shift, bits)
    decreases t.shift - v
  {
    if v < t.shift {
      var n := v + 1;
      var c, p := Count(V, t, t.shift, bits), Pow2(t.shift - n);
      CountOver(V, t, v, n, bits);
      CountSkip(V, t, n, bits);
      assert Pow2(t.shift - v) == 2 * p;
      hide Count, Pow2, Wf, NodesOk;
      Assoc(2, p, c);
    }
  }

  lemma CountOver(V: seq<Node>, t: Ref, v: nat, n: nat, bits: nat)
    requires NodesOk(V) && Wf(V, t) && t.id > 1 && v < t.shift <= bits && n == v + 1
    ensures Count(V, t, v, bits) == 2 * Count(V, t, n, bits)
  {
    assert Cof(V, t, v, true) == t == Cof(V, t, v, false);
  }

  /** The count from the top variable of t on; a terminal is counted from variable bit + 1 on. */
  ghost function TopCount(V: seq<Node>, t: Ref, bit: nat, bits: nat): nat
    requires NodesOk(V) && InRange(V, t, bit + 1, bits) && bit <= bits
  {
    if t.id > 1 then InRangeTop(V, t, bit + 1, bits); Count(V, t, t.shift, bits) else Count(V, t, bit + 1, bits)
  }

  /** The recursion of the counter: bit is the last variable already decided, factor the weight of t. */
  method SatCountArith(V: seq<Node>, t: Ref, bit: nat, bits: nat, factor: nat, count0: nat) returns (count: nat)
    requires NodesOk(V) && InRange(V, t, bit + 1, bits) && bit <= bits
    ensures count == count0 + factor * TopCount(V, t, bit, bits)
    decreases t.id, 0
  {
    count := count0;
    CountLeaf(V, bit + 1, bits);
    if t == F { return; }
    if t == T { return count + factor * Pow2(bits - bit); }
    InRangeTop(V, t, bit + 1, bits);
    var av, h, l := t.shift, Hi(V, t), Lo(V, t);
    assert InRange(V, t, av, bits);
    StepRange(V, t, av, bits, h, l);
    count := AddChild(V, h, av, bits, factor, count);
    count := AddChild(V, l, av, bits, factor, count);
    Distribute(factor, Count(V, h, av + 1, bits), Count(V, l, av + 1, bits));
  }

  method AddChild(V: seq<Node>, c: Ref, av: nat, bits: nat, factor: nat, count0: nat) returns (count: nat)
    requires NodesOk(V) && InRange(V, c, av + 1, bits) && av <= bits
    ensures count == count0 + factor * Count(V, c, av + 1, bits)
    decreases c.id, 1
  {
    count := count0;
    CountLeaf(V, av + 1, bits);
    if c != F {
      var delta := Delta(V, c, av, bits);
      count := SatCountArith(V, c, av, bits, factor * delta, count);
      Weight(V, c, av, bits, factor, delta);
    }
  }

  lemma Distribute(f: nat, a: nat, b: nat)
    ensures f * (a + b) == f * a + f * b
  {
  }

  /** The weight of the variables skipped below a child. */
  method Delta(V: seq<Node>, c: Ref, av: nat, bits: nat) returns (delta: nat)
    requires NodesOk(V) && InRange(V, c, av + 1, bits)
    ensures delta == if c.id > 1 then Pow2(c.shift - av - 1) else 1
  {
    if c == T { return 1; }
    delta := if c.id > 1 then Pow2(c.shift - av - 1) else 1;
  }

  lemma Weight(V: seq<Node>, c: Ref, av: nat, bits: nat, factor: nat, delta: nat)
    requires NodesOk(V) && InRange(V, c, av + 1, bits) && av <= bits
    requires delta == if c.id > 1 then Pow2(c.shift - av - 1) else 1
    ensures factor * delta * TopCount(V, c, av, bits)
         == factor * Count(V, c, av + 1, bits)
  {
    if c.id > 1 {
      InRangeTop(V, c, av + 1, bits);
      CountSkip(V, c, av + 1, bits);
      Assoc(factor, delta, Count(V, c, c.shift, bits));
    }
  }

  lemma Assoc(a: nat, b: nat, c: nat)
    ensures a * b * c == a * (b * c)
  {
  }

  /** The number of satisfying vectors over the variables 1 to bits. */
  method SatCount(V: seq<Node>, x: Ref, bits: nat) returns (count: nat)
    requires NodesOk(V) && InRange(V, x, 1, bits)
    ensures count == Count(V, x, 1, bits)
  {
    if x.id > 1 { InRangeTop(V, x, 1, bits); CountSkip(V, x, 1, bits); }
    var factor := if x.id > 1 then Pow2(x.shift - 1) else 1;
    var bit := if x.id > 1 then x.shift - 1 else 0;
    assert InRange(V, x, bit + 1, bits);
    count := SatCountArith(V, x, bit, bits, factor, 0);
  }

  /** The counter agrees with any complete enumeration without repetitions. */
  lemma {:induction false} ListsCount(V: seq<Node>, t: Ref, p: seq<bool>, v: nat, out: seq<seq<bool>>)
    requires NodesOk(V) && InRange(V, t, v, |p|) && 0 < v <= |p| + 1 && Lists(V, t, p, v, out)
    ensures |out| == Count(V, t, v, |p|)
    decreases |p| + 1 - v
  {
    if v == |p| + 1 {
      Exhausted(V, t, v, v);
      if t == F {
        if out != [] && Extends(V, t, p, v, out[0]) { assert false; }
      } else {
        assert t == T;
        LastLists(V, p, v);
        assert p in [p] && p in out;
        forall i | 0 <= i < |out| ensures out[i] == p {
          assert out[i] in out && out[i] in [p];
        }
        assert |out| <= 1;
      }
    } else {
      var high, low := Cof(V, t, v, true), Cof(V, t, v, false);
      StepRange(V, t, v, |p|, high, low);
      var o1, o2 := Having(out, v - 1, true), Having(out, v - 1, false);
      var p1, p2 := p[v - 1 := true], p[v - 1 := false];
      HavingLists(V, t, p, p1, v, true, out);
      HavingLists(V, t, p, p2, v, false, out);
      ListsCount(V, high, p1, v + 1, o1);
      ListsCount(V, low, p2, v + 1, o2);
      HavingSplit(out, v - 1, |p|);
    }
  }

  /** The vectors of a list whose entry k is b. */
  function Having(out: seq<seq<bool>>, k: nat, b: bool): (o: seq<seq<bool>>)
    ensures forall s :: s in o <==> s in out && k < |s| && s[k] == b
  {
    if out == [] then []
    else
      assert out == [out[0]] + out[1..];
      (if k < |out[0]| && out[0][k] == b then [out[0]] else []) + Having(out[1..], k, b)
  }

  lemma {:induction false} HavingSplit(out: seq<seq<bool>>, k: nat, n: nat)
    requires k < n && forall s :: s in out ==> |s| == n
    ensures |Having(out, k, true)| + |Having(out, k, false)| == |out|
  {
    if out != [] { HavingSplit(out[1..], k, n); }
  }

  lemma {:induction false} HavingDistinct(out: seq<seq<bool>>, k: nat, b: bool)
    requires Distinct(out)
    ensures Distinct(Having(out, k, b))
  {
    if out != [] {
      HavingDistinct(out[1..], k, b);
      var rest := Having(out[1..], k, b);
      forall i | 0 <= i < |rest| ensures rest[i] != out[0] {
        assert rest[i] in rest;
        var j :| 0 <= j < |out[1..]| && out[1..][j] == rest[i];
        assert out[0] != out[j + 1];
      }
    }
  }

  lemma HavingLists(V: seq<Node>, t: Ref, p: seq<bool>, q: seq<bool>, v: nat, b: bool, out: seq<seq<bool>>)
    requires NodesOk(V) && InRange(V, t, v, |p|) && 0 < v <= |p| && Lists(V, t, p, v, out) && q == p[v - 1 := b]
    ensures Lists(V, Cof(V, t, v, b), q, v + 1, Having(out, v - 1, b))
  {
    HavingDistinct(out, v - 1, b);
    var o, c := Having(out, v - 1, b), Cof(V, t, v, b);
    forall s: seq<bool> ensures s in o <==> Extends(V, c, q, v + 1, s) {
      StepExtends(V, t, v, p, q, b, s);
    }
  }

  /** satcount is the length of allsat. */
  lemma SatCountIsAllSat(V: seq<Node>, x: Ref, nvars: nat, r: seq<seq<bool>>)
    requires NodesOk(V) && InRange(V, x, 1, nvars)
    requires Distinct(r) && forall s :: s in r <==> |s| == nvars && AsgOf(s) in Den(V, x)
    ensures |r| == Count(V, x, 1, nvars)
  {
    var p := seq(nvars, i => false);
    forall s ensures s in r <==> Extends(V, x, p, 1, s) {
    }
    ListsCount(V, x, p, 1, r);
  }
}
