/** The node table and the Boolean functions its references denote. */
module BddSem {
  import opened BddRef

  /** An assignment is the set of variables it makes true; a function is the set of its models. */
  type Asg = iset<nat>
  type Fn = iset<iset<nat>>

  datatype Node = Node(h: Ref, l: Ref)

  /** A well-formed reference: an existing node, no attribute on terminals, and an input inverter only where
      the node's high edge is not inverted. The last clause is what makes attributed edges unique. */
  predicate Wf(V: seq<Node>, r: Ref) {
    && 1 <= r.id < |V|
    && (r.id == 1 ==> r.shift == 0 && !r.invIn)
    && (r.id > 1 && r.invIn ==> !V[r.id].h.invOut)
  }

  predicate Above(r: Ref, v: nat) {
    r.id > 1 ==> r.shift > v
  }

  predicate NodeOk(V: seq<Node>, i: nat)
    requires i < |V|
  {
    var n := V[i];
    && Wf(V, n.h) && Wf(V, n.l)
    && n.h.id < i && n.l.id < i
    && Above(n.h, 0) && Above(n.l, 0)
    && !n.l.invOut
    && Lt(n.h, n.l)
  }

  predicate NodesOk(V: seq<Node>) {
    && |V| >= 2
    && V[0] == Node(MakeRef(0, 0, false, false), MakeRef(0, 0, false, false))
    && V[1] == Node(T, T)
    && (forall i :: 2 <= i < |V| ==> NodeOk(V, i))
    && (forall i, j :: 0 <= i < j < |V| ==> V[i] != V[j])
  }

  /** The cofactors of a reference with its top variable set to one and to zero. */
  function Hi(V: seq<Node>, r: Ref): (c: Ref)
    requires NodesOk(V) && Wf(V, r)
    ensures Wf(V, c)
    ensures r.id > 1 ==> c.id < r.id && Above(c, r.shift)
  {
    assert r.id > 1 ==> NodeOk(V, r.id);
    var n := V[r.id];
    var c := Plus(if r.invIn then n.l else n.h, r.shift);
    if r.invOut then Flip(c) else c
  }

  function Lo(V: seq<Node>, r: Ref): (c: Ref)
    requires NodesOk(V) && Wf(V, r)
    ensures Wf(V, c)
    ensures r.id > 1 ==> c.id < r.id && Above(c, r.shift)
  {
    assert r.id > 1 ==> NodeOk(V, r.id);
    var n := V[r.id];
    var c := Plus(if r.invIn then n.h else n.l, r.shift);
    if r.invOut then Flip(c) else c
  }

  ghost predicate Sem(V: seq<Node>, r: Ref, a: Asg)
    requires NodesOk(V) && Wf(V, r)
    decreases r.id
  {
    if r.id == 1 then !r.invOut
    else if r.shift in a then Sem(V, Hi(V, r), a)
    else Sem(V, Lo(V, r), a)
  }

  ghost function Den(V: seq<Node>, r: Ref): Fn
    requires NodesOk(V) && Wf(V, r)
  {
    iset a: Asg | Sem(V, r, a)
  }

  // ----- algebra of functions

  ghost function All(): Fn {
    Not(iset{})
  }

  ghost function Not(X: Fn): Fn {
    iset a: Asg | a !in X
  }

  ghost function Mux(v: nat, H: Fn, L: Fn): Fn {
    iset a: Asg | if v in a then a in H else a in L
  }

  ghost function IfThenElse(X: Fn, Y: Fn, Z: Fn): Fn {
    iset a: Asg | if a in X then a in Y else a in Z
  }

  /** X does not depend on variable v. */
  ghost predicate Indep(X: Fn, v: nat) {
    forall a: Asg :: (a + iset{v} in X) <==> (a - iset{v} in X)
  }

  ghost predicate IndepUpTo(X: Fn, v: nat) {
    forall u: nat :: u <= v ==> Indep(X, u)
  }

  // ----- the meaning of references

  lemma {:induction false} SemFlip(V: seq<Node>, r: Ref, a: Asg)
    requires NodesOk(V) && Wf(V, r)
    ensures Wf(V, Flip(r)) && Sem(V, Flip(r), a) == !Sem(V, r, a)
    decreases r.id
  {
    if r.id > 1 {
      SemFlip(V, Hi(V, r), a);
      SemFlip(V, Lo(V, r), a);
      assert Hi(V, Flip(r)) == Flip(Hi(V, r)) && Lo(V, Flip(r)) == Flip(Lo(V, r));
    }
  }

  lemma DenFlip(V: seq<Node>, r: Ref)
    requires NodesOk(V) && Wf(V, r)
    ensures Wf(V, Flip(r)) && Den(V, Flip(r)) == Not(Den(V, r))
  {
    forall a: Asg { SemFlip(V, r, a); }
  }

  lemma DenLeaf(V: seq<Node>)
    requires NodesOk(V)
    ensures Wf(V, T) && Wf(V, F) && Den(V, T) == All() && Den(V, F) == iset{}
  {
  }

  lemma DenMux(V: seq<Node>, r: Ref)
    requires NodesOk(V) && Wf(V, r) && r.id > 1
    ensures Den(V, r) == Mux(r.shift, Den(V, Hi(V, r)), Den(V, Lo(V, r)))
  {
  }

  /** A reference does not depend on variables above its top variable. */
  lemma {:induction false} SemIndep(V: seq<Node>, r: Ref, v: nat, a: Asg)
    requires NodesOk(V) && Wf(V, r) && Above(r, v)
    ensures Sem(V, r, a + iset{v}) == Sem(V, r, a - iset{v})
    decreases r.id
  {
    if r.id > 1 {
      SemIndep(V, Hi(V, r), v, a);
      SemIndep(V, Lo(V, r), v, a);
    }
  }

  lemma DenIndep(V: seq<Node>, r: Ref, v: nat)
    requires NodesOk(V) && Wf(V, r) && Above(r, v)
    ensures IndepUpTo(Den(V, r), v)
  {
    forall u: nat, a: Asg | u <= v
      ensures a + iset{u} in Den(V, r) <==> a - iset{u} in Den(V, r)
    {
      SemIndep(V, r, u, a);
    }
  }

  // ----- renumbering and growth

  /** Rewrites the id of a reference by the table p, whose zero entries mean "unchanged". */
  function Renumber(p: seq<nat>, r: Ref): Ref
    requires r.id < |p|
  {
    r.(id := if p[r.id] != 0 then p[r.id] else r.id)
  }

  function RenumberNode(p: seq<nat>, n: Node): Node
    requires n.h.id < |p| && n.l.id < |p|
  {
    Node(Renumber(p, n.h), Renumber(p, n.l))
  }

  ghost predicate NodeEmbeds(V: seq<Node>, W: seq<Node>, S: set<nat>, p: seq<nat>, i: nat)
    requires i < |V| && i < |p|
  {
    && 1 < p[i] < |W|
    && NodeOk(V, i) && i < |p|
    && V[i].h.id in S && V[i].l.id in S
    && W[p[i]] == RenumberNode(p, V[i])
  }

  /** The child-closed set S of nodes of V reappears in W under the new numbers p. */
  ghost predicate Embeds(V: seq<Node>, W: seq<Node>, S: set<nat>, p: seq<nat>)
    requires NodesOk(V)
  {
    && |p| == |V| && p[1] == 1 && 1 in S && |W| > 1
    && (forall i :: i in S ==> i < |V|)
    && (forall i {:trigger NodeEmbeds(V, W, S, p, i)} :: i in S && i > 1 ==> NodeEmbeds(V, W, S, p, i))
    && (forall i, j :: i in S && j in S && p[i] == p[j] ==> i == j)
  }

  lemma EmbedWf(V: seq<Node>, W: seq<Node>, S: set<nat>, p: seq<nat>, r: Ref)
    requires NodesOk(V) && Embeds(V, W, S, p) && Wf(V, r) && r.id in S
    ensures Wf(W, Renumber(p, r)) && (r.id > 1 <==> Renumber(p, r).id > 1)
    ensures r.id > 1 ==> Renumber(p, r).id == p[r.id]
    ensures Renumber(p, Flip(r)) == Flip(Renumber(p, r))
  {
    if r.id > 1 { assert NodeEmbeds(V, W, S, p, r.id); }
  }

  lemma EmbedRef(V: seq<Node>, W: seq<Node>, S: set<nat>, p: seq<nat>, r: Ref)
    requires NodesOk(V) && NodesOk(W) && Embeds(V, W, S, p) && Wf(V, r) && r.id in S && r.id > 1
    ensures Wf(W, Renumber(p, r)) && Renumber(p, r).id > 1
    ensures Hi(V, r).id in S && Hi(W, Renumber(p, r)) == Renumber(p, Hi(V, r))
    ensures Lo(V, r).id in S && Lo(W, Renumber(p, r)) == Renumber(p, Lo(V, r))
  {
    EmbedWf(V, W, S, p, r);
    assert NodeEmbeds(V, W, S, p, r.id);
    var n := V[r.id];
    EmbedWf(V, W, S, p, n.h);
    EmbedWf(V, W, S, p, n.l);
  }

  lemma {:induction false} SemEmbed(V: seq<Node>, W: seq<Node>, S: set<nat>, p: seq<nat>, r: Ref, a: Asg)
    requires NodesOk(V) && NodesOk(W) && Embeds(V, W, S, p) && Wf(V, r) && r.id in S
    ensures Wf(W, Renumber(p, r)) && Sem(W, Renumber(p, r), a) == Sem(V, r, a)
    decreases r.id
  {
    EmbedWf(V, W, S, p, r);
    if r.id > 1 {
      EmbedRef(V, W, S, p, r);
      SemEmbed(V, W, S, p, Hi(V, r), a);
      SemEmbed(V, W, S, p, Lo(V, r), a);
    }
  }

  /** A renumbered reference denotes the same function. */
  lemma DenEmbed(V: seq<Node>, W: seq<Node>, S: set<nat>, p: seq<nat>, r: Ref)
    requires NodesOk(V) && NodesOk(W) && Embeds(V, W, S, p) && Wf(V, r) && r.id in S
    ensures Wf(W, Renumber(p, r)) && Den(W, Renumber(p, r)) == Den(V, r)
  {
    EmbedWf(V, W, S, p, r);
    forall a: Asg { SemEmbed(V, W, S, p, r, a); }
  }

  ghost function Identity(n: nat): (p: seq<nat>)
  {
    seq(n, i => i)
  }

  ghost function Ids(n: nat): (S: set<nat>)
    ensures forall i: nat :: i in S <==> i < n
  {
    if n == 0 then {} else Ids(n - 1) + {n - 1}
  }

  /** Appending nodes is the renumbering that changes nothing. */
  lemma GrowEmbeds(V: seq<Node>, W: seq<Node>)
    requires NodesOk(V) && NodesOk(W) && V <= W
    ensures Embeds(V, W, Ids(|V|), Identity(|V|))
    ensures forall r: Ref :: r.id < |V| ==> Renumber(Identity(|V|), r) == r
  {
    forall i: nat | 1 < i < |V|
      ensures NodeEmbeds(V, W, Ids(|V|), Identity(|V|), i)
    {
      assert NodeOk(V, i);
    }
  }

  /** Appending nodes changes the meaning of no existing reference. */
  lemma Grow(V: seq<Node>, W: seq<Node>, r: Ref)
    requires NodesOk(V) && NodesOk(W) && V <= W && Wf(V, r)
    ensures Wf(W, r) && Den(W, r) == Den(V, r)
  {
    GrowEmbeds(V, W);
    DenEmbed(V, W, Ids(|V|), Identity(|V|), r);
  }

  // ----- canonicity

  lemma MuxAt(v: nat, H: Fn, L: Fn, X: Fn, a: Asg)
    requires X == Mux(v, H, L) && Indep(H, v) && Indep(L, v)
    ensures a in H <==> a + iset{v} in X
    ensures a in L <==> a - iset{v} in X
  {
    if v in a {
      assert a + iset{v} == a;
    } else {
      assert a - iset{v} == a;
    }
  }

  /** Independent parts of a two-way branch are determined by the whole. */
  lemma MuxUnique(v: nat, H: Fn, L: Fn, H': Fn, L': Fn)
    requires Indep(H, v) && Indep(L, v) && Indep(H', v) && Indep(L', v)
    requires Mux(v, H, L) == Mux(v, H', L')
    ensures H == H' && L == L'
  {
    var X := Mux(v, H, L);
    forall a: Asg
      ensures (a in H <==> a in H') && (a in L <==> a in L')
    {
      MuxAt(v, H, L, X, a);
      MuxAt(v, H', L', X, a);
    }
  }

  lemma MuxSame(v: nat, X: Fn)
    ensures Mux(v, X, X) == X
  {
  }

  /** The attributes of a reference are recovered from its cofactors. */
  lemma CofactorsInjective(V: seq<Node>, x: Ref, y: Ref)
    requires NodesOk(V) && Wf(V, x) && Wf(V, y) && x.id > 1 && y.id > 1
    requires x.shift == y.shift && Hi(V, x) == Hi(V, y) && Lo(V, x) == Lo(V, y)
    ensures x == y
  {
    assert NodeOk(V, x.id) && NodeOk(V, y.id);
    var n, m := V[x.id], V[y.id];
    assert x.invOut == Lo(V, x).invOut && y.invOut == Lo(V, y).invOut;
    if x.invIn == y.invIn {
      assert n.h == m.h && n.l == m.l;
    } else {
      assert false;
    }
  }

  lemma HiNotLo(V: seq<Node>, x: Ref)
    requires NodesOk(V) && Wf(V, x) && x.id > 1
    ensures Hi(V, x) != Lo(V, x)
  {
    assert NodeOk(V, x.id);
  }

  /** If a function is independent of the top variable of x then x does not denote it. */
  lemma {:induction false} TopMatters(V: seq<Node>, x: Ref, X: Fn)
    requires NodesOk(V) && Wf(V, x) && x.id > 1
    requires Indep(X, x.shift)
    ensures Den(V, x) != X
    decreases x.id, 0
  {
    if Den(V, x) == X {
      var h, l := Hi(V, x), Lo(V, x);
      DenMux(V, x);
      DenIndep(V, h, x.shift); DenIndep(V, l, x.shift);
      MuxSame(x.shift, X);
      MuxUnique(x.shift, Den(V, h), Den(V, l), X, X);
      HiNotLo(V, x);
      Canonical(V, h, l);
    }
  }

  /** Canonicity: two well-formed references denote the same function exactly when they are equal. */
  lemma {:induction false} Canonical(V: seq<Node>, x: Ref, y: Ref)
    requires NodesOk(V) && Wf(V, x) && Wf(V, y)
    ensures Den(V, x) == Den(V, y) <==> x == y
    decreases if x.id < y.id then y.id else x.id, 1
  {
    if Den(V, x) == Den(V, y) {
      if x.id == 1 && y.id == 1 {
        assert iset{} in Den(V, x) <==> !x.invOut;
        assert iset{} in Den(V, y) <==> !y.invOut;
      } else if x.id > 1 && Above(y, x.shift) {
        DenIndep(V, y, x.shift);
        TopMatters(V, x, Den(V, y));
      } else if y.id > 1 && Above(x, y.shift) {
        DenIndep(V, x, y.shift);
        TopMatters(V, y, Den(V, x));
      } else {
        var v := x.shift;
        DenMux(V, x); DenMux(V, y);
        DenIndep(V, Hi(V, x), v); DenIndep(V, Lo(V, x), v);
        DenIndep(V, Hi(V, y), v); DenIndep(V, Lo(V, y), v);
        MuxUnique(v, Den(V, Hi(V, x)), Den(V, Lo(V, x)), Den(V, Hi(V, y)), Den(V, Lo(V, y)));
        Canonical(V, Hi(V, x), Hi(V, y));
        Canonical(V, Lo(V, x), Lo(V, y));
        CofactorsInjective(V, x, y);
      }
    }
  }

  /** A reference whose function ignores all variables up to v has its top variable after v. */
  lemma AboveIfIndep(V: seq<Node>, r: Ref, v: nat)
    requires NodesOk(V) && Wf(V, r) && IndepUpTo(Den(V, r), v)
    ensures Above(r, v)
  {
    if r.id > 1 && r.shift <= v { TopMatters(V, r, Den(V, r)); }
  }
}
