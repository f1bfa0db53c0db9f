/** Operand lists: sorting, normalising, and their cofactors. */
module BddLists {
  import opened BddRef
  import opened BddSem
  import opened BddAlgebra
  import opened BddIte
  import opened BddQuery

  ghost predicate Proper(s: seq<Ref>) {
    forall r :: r in s ==> r.id >= 1 && (r.id == 1 ==> r.shift == 0 && !r.invIn)
  }

  predicate AmLe(x: Ref, y: Ref) {
    !AmLt(y, x)
  }

  ghost predicate AmSorted(s: seq<Ref>) {
    forall i, j :: 0 <= i < j < |s| ==> AmLe(s[i], s[j])
  }

  /** A normal list: strictly increasing absolute values and no terminal; so neither duplicates nor complements. */
  ghost predicate AmNormal(s: seq<Ref>) {
    && (forall i, j :: 0 <= i < j < |s| ==> AbsLt(s[i], s[j]))
    && T !in s && F !in s
  }

  function Insert(r: Ref, s: seq<Ref>): (t: seq<Ref>)
    ensures multiset(t) == multiset(s) + multiset{r}
  {
    if s == [] then [r]
    else if AmLe(r, s[0]) then [r] + s
    else
      assert s == [s[0]] + s[1..];
      [s[0]] + Insert(r, s[1..])
  }

  /** The library sort under the operand order. */
  function Sort(s: seq<Ref>): (t: seq<Ref>)
    ensures multiset(t) == multiset(s)
  {
    if s == [] then []
    else
      assert s == [s[0]] + s[1..];
      Insert(s[0], Sort(s[1..]))
  }

  lemma {:induction false} InsertSorted(r: Ref, s: seq<Ref>)
    requires AmSorted(s)
    ensures AmSorted(Insert(r, s))
  {
    if s != [] && !AmLe(r, s[0]) {
      InsertSorted(r, s[1..]);
      var t := Insert(r, s[1..]);
      forall x | x in t ensures AmLe(s[0], x) {
        assert x in multiset(t);
        assert x in s[1..] || x == r;
      }
    }
  }

  lemma {:induction false} SortSorted(s: seq<Ref>)
    ensures AmSorted(Sort(s))
  {
    if s != [] {
      SortSorted(s[1..]);
      InsertSorted(s[0], Sort(s[1..]));
    }
  }

  lemma SortMembers(s: seq<Ref>)
    ensures forall r :: r in Sort(s) <==> r in s
  {
    forall r ensures r in Sort(s) <==> r in s {
      assert r in multiset(Sort(s)) <==> r in multiset(s);
    }
  }

  /** Some operand is false or two operands are complementary. */
  ghost predicate Contradictory(s: seq<Ref>) {
    F in s || exists r :: r in s && r.id >= 1 && Flip(r) in s
  }

  function Erase(s: seq<Ref>, n: nat): seq<Ref>
    requires n < |s|
  {
    s[..n] + s[n + 1..]
  }

  lemma EraseMembers(s: seq<Ref>, n: nat)
    requires n < |s|
    ensures forall r :: r in s <==> r in Erase(s, n) || r == s[n]
  {
    assert s == s[..n] + [s[n]] + s[n + 1..];
  }

  /** Sorts an operand list and drops true and repeated operands; collapses a contradictory list to [F]. */
  method AmSort(v: seq<Ref>) returns (b: seq<Ref>)
    requires Proper(v)
    ensures (b == [F] && Contradictory(v)) ||
      (AmNormal(b) && !Contradictory(v) && forall r :: r in b <==> r in v && r != T)
    ensures Proper(b)
  {
    b := Sort(v);
    SortSorted(v);
    SortMembers(v);
    var n := 0;
    hide AmSorted;
    while n < |b|
      invariant 0 <= n <= |b| && AmSorted(b) && SameOperands(b, v) && NormalTo(b, n)
      decreases |b| - n
    {
      if b[n] == T {
        EraseKeeps(b, n, v);
        b := Erase(b, n);
      } else if b[n] == F {
        assert b[n] in v;
        b := [F];
        return;
      } else if n == 0 {
        NormalNext(b, n, v);
        n := n + 1;
      } else if b[n] == b[n - 1] {
        EraseKeeps(b, n, v);
        b := Erase(b, n);
      } else if b[n] == Flip(b[n - 1]) {
        assert b[n - 1] in v && b[n] in v;
        b := [F];
        return;
      } else {
        NormalNext(b, n, v);
        n := n + 1;
      }
    }
    NormalConsistent(b, v);
  }

  /** The operands are those of v, except for true ones. */
  ghost predicate SameOperands(b: seq<Ref>, v: seq<Ref>) {
    (forall r :: r in b ==> r in v) && (forall r :: r in v ==> r in b || r == T)
  }

  /** The first n operands are in normal form. */
  ghost predicate NormalTo(b: seq<Ref>, n: nat) {
    && n <= |b|
    && (forall i, j :: 0 <= i < j < n ==> AbsLt(b[i], b[j]))
    && (forall i :: 0 <= i < n ==> b[i] != T && b[i] != F)
  }

  lemma EraseKeeps(b: seq<Ref>, n: nat, v: seq<Ref>)
    requires AmSorted(b) && SameOperands(b, v) && NormalTo(b, n) && n < |b|
    requires b[n] == T || (n > 0 && b[n] == b[n - 1])
    ensures AmSorted(Erase(b, n)) && SameOperands(Erase(b, n), v) && NormalTo(Erase(b, n), n)
  {
    EraseMembers(b, n);
    if n > 0 && b[n] == b[n - 1] { assert b[n - 1] == Erase(b, n)[n - 1]; }
  }

  /** A sorted operand that differs from the one before it in more than the sign is above all before it. */
  lemma NormalNext(b: seq<Ref>, n: nat, v: seq<Ref>)
    requires Proper(v) && AmSorted(b) && SameOperands(b, v) && NormalTo(b, n) && n < |b| && b[n] != T && b[n] != F
    requires n > 0 ==> b[n] != b[n - 1] && b[n] != Flip(b[n - 1])
    ensures NormalTo(b, n + 1)
  {
    if n > 0 {
      assert b[n - 1] in v && b[n] in v && AmLe(b[n - 1], b[n]);
      assert AbsLt(b[n - 1], b[n]);
      forall i | 0 <= i < n ensures AbsLt(b[i], b[n]) {
        if i < n - 1 { assert AbsLt(b[i], b[n - 1]); }
      }
    }
  }

  lemma NormalConsistent(b: seq<Ref>, v: seq<Ref>)
    requires AmNormal(b) && Proper(v) && (forall r :: r in b ==> r in v) && (forall r :: r in v ==> r in b || r == T)
    ensures !Contradictory(v)
  {
    if Contradictory(v) {
      assert F !in v;
      var r :| r in v && r.id >= 1 && Flip(r) in v;
      assert Flip(T) == F && Flip(F) == T;
      var i :| 0 <= i < |b| && b[i] == r;
      var j :| 0 <= j < |b| && b[j] == Flip(r);
    }
  }

  /** Binary search in a sorted list is membership. */
  predicate HasSorted(s: seq<Ref>, r: Ref)
    requires AmSorted(s)
  {
    r in s
  }

  /** The common elements of two sorted lists without repetitions. */
  function Common(h: seq<Ref>, l: seq<Ref>): (x: seq<Ref>)
    ensures forall r :: r in x <==> r in h && r in l
  {
    if h == [] then []
    else
      assert h == [h[0]] + h[1..];
      (if h[0] in l then [h[0]] else []) + Common(h[1..], l)
  }

  /** Removes from h every element of the sorted list x. */
  method EraseAll(h: seq<Ref>, x: seq<Ref>) returns (g: seq<Ref>)
    requires AmSorted(x)
    ensures forall r :: r in g <==> r in h && r !in x
    ensures AmNormal(h) ==> AmNormal(g)
  {
    g := h;
    var n := 0;
    while n < |g|
      invariant 0 <= n <= |g|
      invariant forall r :: r in g ==> r in h
      invariant forall r :: r in h && r !in x ==> r in g
      invariant forall i :: 0 <= i < n ==> g[i] !in x
      invariant AmNormal(h) ==> AmNormal(g)
      decreases |g| - n
    {
      if HasSorted(x, g[n]) {
        EraseMembers(g, n);
        g := Erase(g, n);
      } else {
        n := n + 1;
      }
    }
  }

  lemma NormalSorted(s: seq<Ref>)
    requires AmNormal(s)
    ensures AmSorted(s)
  {
  }

  // ----- ranges of variables

  /** All variables of r lie between lo and n. */
  ghost predicate InRange(V: seq<Node>, r: Ref, lo: nat, n: nat)
    requires NodesOk(V)
  {
    Wf(V, r) && AtLeast(r, lo) && Bounded(Den(V, r), n)
  }

  ghost predicate AllInRange(V: seq<Node>, s: seq<Ref>, lo: nat, n: nat)
    requires NodesOk(V)
  {
    forall r :: r in s ==> InRange(V, r, lo, n)
  }

  lemma InRangeTop(V: seq<Node>, r: Ref, lo: nat, n: nat)
    requires NodesOk(V) && InRange(V, r, lo, n) && r.id > 1
    ensures r.shift <= n
  {
    VarsExact(V, r, r.shift);
  }

  lemma AllInRangeGrow(V: seq<Node>, W: seq<Node>, s: seq<Ref>, lo: nat, n: nat)
    requires NodesOk(V) && NodesOk(W) && V <= W && AllInRange(V, s, lo, n)
    ensures AllInRange(W, s, lo, n) && AllWf(V, s) && AllWf(W, s) && Conj(W, s) == Conj(V, s)
  {
    ConjGrow(V, W, s);
    forall r | r in s ensures InRange(W, r, lo, n) {
      Grow(V, W, r);
    }
  }

  /** A reference for the conjunction of a list stays in the range of the list. */
  lemma ConjInRange(V: seq<Node>, s: seq<Ref>, lo: nat, n: nat, r: Ref)
    requires NodesOk(V) && AllInRange(V, s, lo, n) && Wf(V, r) && AllWf(V, s) && Den(V, r) == Conj(V, s)
    ensures InRange(V, r, lo, n)
  {
    forall v: nat | v > n ensures Indep(Den(V, r), v) {
      ConjIndep(V, s, v);
    }
    if lo > 0 {
      forall v: nat | v <= lo - 1 ensures Indep(Den(V, r), v) {
        forall x | x in s ensures Indep(Den(V, x), v) { DenIndep(V, x, lo - 1); }
        ConjIndep(V, s, v);
      }
      AboveIfIndep(V, r, lo - 1);
    }
  }

  // ----- cofactors of lists

  ghost predicate CofAll(V: seq<Node>, s: seq<Ref>, m: nat, b: bool, a: Asg)
    requires NodesOk(V) && AllWf(V, s)
  {
    forall r :: r in s ==> Sem(V, Cof(V, r, m, b), a)
  }

  ghost function ConjCof(V: seq<Node>, s: seq<Ref>, m: nat, b: bool): Fn
    requires NodesOk(V) && AllWf(V, s)
  {
    iset a: Asg | CofAll(V, s, m, b, a)
  }

  /** Shannon expansion of a conjunction. */
  lemma ConjMux(V: seq<Node>, s: seq<Ref>, m: nat)
    requires NodesOk(V) && AllWf(V, s) && forall r :: r in s ==> AtLeast(r, m)
    ensures Conj(V, s) == Mux(m, ConjCof(V, s, m, true), ConjCof(V, s, m, false))
  {
    forall a: Asg
      ensures a in Conj(V, s) <==> a in Mux(m, ConjCof(V, s, m, true), ConjCof(V, s, m, false))
    {
      forall r | r in s
        ensures Sem(V, r, a) == Sem(V, Cof(V, r, m, m in a), a)
      {
      }
    }
  }

  lemma CofInRange(V: seq<Node>, r: Ref, m: nat, n: nat, b: bool)
    requires NodesOk(V) && InRange(V, r, m, n)
    ensures InRange(V, Cof(V, r, m, b), m + 1, n)
  {
    var c := Cof(V, r, m, b);
    CofMux(V, r, m);
    forall v: nat | v > n ensures Indep(Den(V, c), v) {
      VarsExact(V, r, v);
      CofVars(V, r, m);
      VarsExact(V, c, v);
    }
  }

  /** The m-cofactors of all operands, or dead if one of them is false. Operands not branching on m are kept,
      true cofactors are dropped. */
  method Cofactors(V: seq<Node>, v: seq<Ref>, m: nat, b: bool, ghost n: nat) returns (dead: bool, out: seq<Ref>)
    requires NodesOk(V) && AllInRange(V, v, m, n) && AllWf(V, v) && m > 0
    ensures dead ==> ConjCof(V, v, m, b) == iset{}
    ensures AllInRange(V, out, m + 1, n) && AllWf(V, out)
    ensures !dead ==> Conj(V, out) == ConjCof(V, v, m, b)
  {
    dead, out := false, [];
    var i := 0;
    while i < |v|
      invariant 0 <= i <= |v|
      invariant forall r :: r in out ==> exists j :: 0 <= j < i && r == Cof(V, v[j], m, b)
      invariant forall j :: 0 <= j < i ==> Cof(V, v[j], m, b) in out || Cof(V, v[j], m, b) == T
    {
      var c := if b then Hi(V, v[i]) else Lo(V, v[i]);
      assert v[i].shift == m ==> c == Cof(V, v[i], m, b);
      if v[i].shift != m {
        out := out + [v[i]];
      } else if !Leaf(c) {
        out := out + [c];
      } else if !TrueLeaf(c) {
        dead := true;
        assert c == F;
        CofDead(V, v, m, b, v[i]);
        break;
      }
      i := i + 1;
    }
    forall r | r in out
      ensures InRange(V, r, m + 1, n)
    {
      var j :| 0 <= j < |v| && r == Cof(V, v[j], m, b);
      CofInRange(V, v[j], m, n, b);
    }
    if !dead { CofConj(V, v, m, b, out); }
  }

  lemma CofDead(V: seq<Node>, v: seq<Ref>, m: nat, b: bool, r: Ref)
    requires NodesOk(V) && AllWf(V, v) && r in v && Cof(V, r, m, b) == F
    ensures ConjCof(V, v, m, b) == iset{}
  {
    forall a: Asg ensures a !in ConjCof(V, v, m, b) {
      assert !Sem(V, F, a);
    }
  }

  lemma CofConj(V: seq<Node>, v: seq<Ref>, m: nat, b: bool, out: seq<Ref>)
    requires NodesOk(V) && AllWf(V, v) && AllWf(V, out)
    requires forall r :: r in out ==> exists j :: 0 <= j < |v| && r == Cof(V, v[j], m, b)
    requires forall j :: 0 <= j < |v| ==> Cof(V, v[j], m, b) in out || Cof(V, v[j], m, b) == T
    ensures Conj(V, out) == ConjCof(V, v, m, b)
  {
    forall a: Asg
      ensures a in Conj(V, out) <==> a in ConjCof(V, v, m, b)
    {
      if a in Conj(V, out) {
        forall r | r in v ensures Sem(V, Cof(V, r, m, b), a) {
          var j :| 0 <= j < |v| && v[j] == r;
        }
      }
    }
  }

  /** Sorting an operand list keeps its conjunction. */
  lemma AmSortConj(V: seq<Node>, v: seq<Ref>, b: seq<Ref>)
    requires NodesOk(V) && AllWf(V, v)
    requires (b == [F] && Contradictory(v)) || (forall r :: r in b <==> r in v && r != T)
    ensures AllWf(V, b) && Conj(V, b) == Conj(V, v)
  {
    DenLeaf(V);
    forall a: Asg
      ensures a in Conj(V, b) <==> a in Conj(V, v)
    {
      if b == [F] && Contradictory(v) {
        assert F in b && !Sem(V, F, a);
        if F !in v {
          var r :| r in v && r.id >= 1 && Flip(r) in v;
          SemFlip(V, r, a);
        }
      }
    }
  }

  lemma AmSortRange(V: seq<Node>, v: seq<Ref>, b: seq<Ref>, lo: nat, n: nat)
    requires NodesOk(V) && AllInRange(V, v, lo, n)
    requires (b == [F] && Contradictory(v)) || (forall r :: r in b <==> r in v && r != T)
    ensures AllInRange(V, b, lo, n) && AllWf(V, v) && AllWf(V, b) && Conj(V, b) == Conj(V, v)
  {
    AmSortConj(V, v, b);
    DenLeaf(V);
    assert Bounded(Den(V, F), n);
  }

}
