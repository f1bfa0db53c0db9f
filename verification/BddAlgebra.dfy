/** Shifts, cofactors and the set algebra of the functions that BDD references denote. */
module BddAlgebra {
  import opened BddRef
  import opened BddSem

  // ----- shifting all variables

  ghost predicate HoldsAt(a: Asg, i: nat, k: nat) {
    i + k in a
  }

  ghost function Down(k: nat, a: Asg): Asg {
    iset i: nat | HoldsAt(a, i, k)
  }

  /** The function X with every variable moved up by k. */
  ghost function Up(k: nat, X: Fn): Fn {
    iset a: Asg | Down(k, a) in X
  }

  lemma {:induction false} SemPlus(V: seq<Node>, r: Ref, k: nat, a: Asg)
    requires NodesOk(V) && Wf(V, r)
    ensures Wf(V, Plus(r, k)) && Sem(V, Plus(r, k), a) == Sem(V, r, Down(k, a))
    decreases r.id
  {
    if r.id > 1 {
      var s := Plus(r, k);
      assert r.shift in Down(k, a) <==> s.shift in a;
      assert Hi(V, s) == Plus(Hi(V, r), k) && Lo(V, s) == Plus(Lo(V, r), k);
      SemPlus(V, Hi(V, r), k, a);
      SemPlus(V, Lo(V, r), k, a);
    }
  }

  /** Shifting a reference shifts the variables of its function. */
  lemma DenPlus(V: seq<Node>, r: Ref, k: nat)
    requires NodesOk(V) && Wf(V, r)
    ensures Wf(V, Plus(r, k)) && Den(V, Plus(r, k)) == Up(k, Den(V, r))
  {
    forall a: Asg { SemPlus(V, r, k, a); }
  }

  lemma DenMinus(V: seq<Node>, r: Ref, k: nat)
    requires NodesOk(V) && Wf(V, r) && (r.id > 1 ==> k <= r.shift)
    ensures Wf(V, Minus(r, k)) && Plus(Minus(r, k), k) == r
    ensures Den(V, r) == Up(k, Den(V, Minus(r, k)))
  {
    DenPlus(V, Minus(r, k), k);
  }

  lemma UpSets(k: nat, X: Fn, Y: Fn)
    ensures Up(k, X * Y) == Up(k, X) * Up(k, Y)
    ensures Up(k, X + Y) == Up(k, X) + Up(k, Y)
    ensures Up(k, Not(X)) == Not(Up(k, X))
    ensures Up(k, iset{}) == iset{}
  {
  }

  // ----- cofactors with respect to an arbitrary variable not below the root

  function Cof(V: seq<Node>, r: Ref, v: nat, b: bool): (c: Ref)
    requires NodesOk(V) && Wf(V, r)
    ensures Wf(V, c)
    ensures c.id <= r.id
    ensures r.id > 1 && r.shift == v ==> c.id < r.id
  {
    if r.id > 1 && r.shift == v then (if b then Hi(V, r) else Lo(V, r)) else r
  }

  predicate AtLeast(r: Ref, v: nat) {
    r.id > 1 ==> r.shift >= v
  }

  lemma CofMux(V: seq<Node>, r: Ref, v: nat)
    requires NodesOk(V) && Wf(V, r) && AtLeast(r, v)
    ensures Above(Cof(V, r, v, true), v) && Above(Cof(V, r, v, false), v)
    ensures Den(V, r) == Mux(v, Den(V, Cof(V, r, v, true)), Den(V, Cof(V, r, v, false)))
  {
    if r.id > 1 && r.shift == v {
      DenMux(V, r);
    } else {
      MuxSame(v, Den(V, r));
    }
  }

  // ----- set algebra

  lemma MuxSets(v: nat, H: Fn, L: Fn, H': Fn, L': Fn)
    ensures Mux(v, H, L) * Mux(v, H', L') == Mux(v, H * H', L * L')
    ensures Mux(v, H, L) + Mux(v, H', L') == Mux(v, H + H', L + L')
    ensures Not(Mux(v, H, L)) == Mux(v, Not(H), Not(L))
  {
  }

  lemma IndepSets(X: Fn, Y: Fn, v: nat)
    requires Indep(X, v) && Indep(Y, v)
    ensures Indep(X * Y, v) && Indep(X + Y, v) && Indep(Not(X), v)
  {
  }

  lemma IndepUpToSets(X: Fn, Y: Fn, v: nat)
    requires IndepUpTo(X, v) && IndepUpTo(Y, v)
    ensures IndepUpTo(X * Y, v) && IndepUpTo(X + Y, v)
  {
    forall u: nat | u <= v { IndepSets(X, Y, u); }
  }

  lemma IndepMux(X: Fn, Y: Fn, v: nat, u: nat)
    requires u != v && Indep(X, u) && Indep(Y, u)
    ensures Indep(Mux(v, X, Y), u)
  {
  }

  lemma MuxIte(v: nat, X: Fn, X': Fn, Y: Fn, Y': Fn, Z: Fn, Z': Fn)
    ensures IfThenElse(Mux(v, X, X'), Mux(v, Y, Y'), Mux(v, Z, Z'))
         == Mux(v, IfThenElse(X, Y, Z), IfThenElse(X', Y', Z'))
  {
  }

  /** Conjunction of two functions that lie above v stays above v. */
  lemma AndAbove(V: seq<Node>, r: Ref, X: Fn, Y: Fn, v: nat)
    requires NodesOk(V) && Wf(V, r) && Den(V, r) == X * Y
    requires IndepUpTo(X, v) && IndepUpTo(Y, v)
    ensures Above(r, v)
  {
    IndepUpToSets(X, Y, v);
    AboveIfIndep(V, r, v);
  }
}
