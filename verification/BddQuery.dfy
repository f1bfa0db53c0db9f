/** The and/exists/rename queries of the BDD package, as operations on functions. */
module BddQuery {
  import opened BddRef
  import opened BddSem

  /** What is done to a conjunction: nothing, quantify some variables away, rename them, or both.
      Position v - 1 of the vectors speaks about variable v. */
  datatype Query =
    | AndOnly
    | Exists(ex: seq<bool>)
    | Rename(p: seq<nat>)
    | ExistsRename(ex: seq<bool>, p: seq<nat>)
  {
    predicate Quantified(v: nat) {
      (Exists? || ExistsRename?) && 1 <= v <= |ex| && ex[v - 1]
    }

    function Target(v: nat): nat {
      if (Rename? || ExistsRename?) && 1 <= v <= |p| then p[v - 1] + 1 else v
    }

    /** No two kept variables up to n are renamed to the same variable. */
    ghost predicate InjectiveUpTo(n: nat) {
      forall v: nat, w: nat :: v <= n && w <= n && !Quantified(v) && !Quantified(w) && Target(v) == Target(w) ==> v == w
    }

    /** Beyond variable k the query neither quantifies nor renames. */
    ghost predicate IdleAfter(k: nat) {
      forall v: nat :: v > k ==> !Quantified(v) && Target(v) == v
    }
  }

  ghost predicate Matches(q: Query, a: Asg, c: Asg) {
    forall v: nat :: !q.Quantified(v) ==> (v in c <==> q.Target(v) in a)
  }

  ghost predicate InImage(q: Query, X: Fn, a: Asg) {
    exists c: Asg :: c in X && Matches(q, a, c)
  }

  /** The models of "exists ex. X, with the kept variables renamed". */
  ghost function Image(q: Query, X: Fn): Fn {
    iset a: Asg | InImage(q, X, a)
  }

  /** X depends on no variable beyond n. */
  ghost predicate Bounded(X: Fn, n: nat) {
    forall v: nat :: v > n ==> Indep(X, v)
  }

  // ----- agreement outside a set of irrelevant variables

  ghost predicate AgreeOutside(W: set<nat>, a: Asg, c: Asg) {
    forall v: nat :: v !in W ==> (v in a <==> v in c)
  }

  lemma {:induction false} Irrelevant(X: Fn, W: set<nat>, a: Asg, c: Asg)
    requires forall v :: v in W ==> Indep(X, v)
    requires AgreeOutside(W, a, c)
    ensures a in X <==> c in X
    decreases W
  {
    if W == {} {
      assert a == c;
    } else {
      var v :| v in W;
      var d := if v in c then a + iset{v} else a - iset{v};
      assert a == (if v in a then a + iset{v} else a - iset{v});
      assert Indep(X, v);
      Irrelevant(X, W - {v}, d, c);
    }
  }

  function UpTo(k: nat): (W: set<nat>)
    ensures forall v: nat :: v in W <==> v <= k
  {
    if k == 0 then {0} else UpTo(k - 1) + {k}
  }

  // ----- laws of queries

  ghost function Pull(q: Query, a: Asg): Asg {
    iset v: nat | !q.Quantified(v) && q.Target(v) in a
  }

  lemma PullMatches(q: Query, a: Asg)
    ensures Matches(q, a, Pull(q, a))
  {
  }

  lemma ImageConstant(q: Query)
    ensures Image(q, iset{}) == iset{} && Image(q, All()) == All()
  {
    forall a: Asg ensures a in Image(q, All()) {
      PullMatches(q, a);
      assert Pull(q, a) in All();
    }
  }

  /** A function of untouched variables is its own image. */
  lemma ImageIdle(q: Query, X: Fn, k: nat)
    requires IndepUpTo(X, k) && q.IdleAfter(k)
    ensures Image(q, X) == X
  {
    forall a: Asg
      ensures a in Image(q, X) <==> a in X
    {
      if a in X {
        var c := Pull(q, a);
        PullMatches(q, a);
        Irrelevant(X, UpTo(k), a, c);
      } else if a in Image(q, X) {
        var c: Asg :| c in X && Matches(q, a, c);
        Irrelevant(X, UpTo(k), a, c);
      }
    }
  }

  /** Branching on a kept variable becomes branching on its new name. */
  lemma ImageKept(q: Query, v: nat, H: Fn, L: Fn)
    requires !q.Quantified(v)
    ensures Image(q, Mux(v, H, L)) == Mux(q.Target(v), Image(q, H), Image(q, L))
  {
    var X := Mux(v, H, L);
    forall a: Asg
      ensures a in Image(q, X) <==> a in Mux(q.Target(v), Image(q, H), Image(q, L))
    {
      if a in Image(q, X) {
        var c: Asg :| c in X && Matches(q, a, c);
        assert v in c <==> q.Target(v) in a;
      }
      if a in Mux(q.Target(v), Image(q, H), Image(q, L)) {
        if q.Target(v) in a {
          var c: Asg :| c in H && Matches(q, a, c);
          assert v in c && c in X;
        } else {
          var c: Asg :| c in L && Matches(q, a, c);
          assert v !in c && c in X;
        }
      }
    }
  }

  /** Branching on a quantified variable becomes a disjunction. */
  lemma ImageQuantified(q: Query, v: nat, H: Fn, L: Fn)
    requires q.Quantified(v) && Indep(H, v) && Indep(L, v)
    ensures Image(q, Mux(v, H, L)) == Image(q, H) + Image(q, L)
    ensures Image(q, H) + Image(q, L) == Image(q, H + L)
  {
    var X := Mux(v, H, L);
    forall a: Asg
      ensures a in Image(q, X) <==> a in Image(q, H + L)
      ensures a in Image(q, H) + Image(q, L) <==> a in Image(q, H + L)
    {
      if a in Image(q, X) {
        var c: Asg :| c in X && Matches(q, a, c);
        assert c in H + L;
      }
      if a in Image(q, H + L) {
        var c: Asg :| c in H + L && Matches(q, a, c);
        MuxAt(v, H, L, X, c);
        var d := if c in H then c + iset{v} else c - iset{v};
        assert d in X && Matches(q, a, d);
      }
    }
  }

  /** The image does not depend on a variable that renames only irrelevant kept variables. */
  lemma ImageIndep(q: Query, X: Fn, t: nat)
    requires forall w: nat :: !q.Quantified(w) && q.Target(w) == t ==> Indep(X, w)
    ensures Indep(Image(q, X), t)
  {
    forall a: Asg
      ensures a + iset{t} in Image(q, X) <==> a - iset{t} in Image(q, X)
    {
      if a + iset{t} in Image(q, X) { Toggle(q, X, t, a + iset{t}, a - iset{t}); }
      if a - iset{t} in Image(q, X) { Toggle(q, X, t, a - iset{t}, a + iset{t}); }
    }
  }

  function Renamed(q: Query, t: nat): set<nat> {
    set w | w in UpTo(t + if q.Rename? || q.ExistsRename? then |q.p| else 0) && !q.Quantified(w) && q.Target(w) == t
  }

  lemma Toggle(q: Query, X: Fn, t: nat, a: Asg, b: Asg)
    requires forall w: nat :: !q.Quantified(w) && q.Target(w) == t ==> Indep(X, w)
    requires forall u: nat :: u != t ==> (u in a <==> u in b)
    requires a in Image(q, X)
    ensures b in Image(q, X)
  {
    var c: Asg :| c in X && Matches(q, a, c);
    var W := Renamed(q, t);
    var d := iset w: nat | if w in W then t in b else w in c;
    assert AgreeOutside(W, c, d);
    Irrelevant(X, W, c, d);
    assert Matches(q, b, d);
  }

  /** Renaming a kept variable keeps it apart from the other variables. */
  lemma ImageApart(q: Query, X: Fn, n: nat, v: nat)
    requires q.InjectiveUpTo(n) && Bounded(X, n) && Indep(X, v) && v <= n && !q.Quantified(v)
    ensures Indep(Image(q, X), q.Target(v))
  {
    forall w: nat | !q.Quantified(w) && q.Target(w) == q.Target(v)
      ensures Indep(X, w)
    {
      if w <= n { assert w == v; }
    }
    ImageIndep(q, X, q.Target(v));
  }

  /** Quantification keeps independence of the variables up to v. */
  lemma ExistsAbove(b: seq<bool>, X: Fn, v: nat)
    requires IndepUpTo(X, v)
    ensures IndepUpTo(Image(Exists(b), X), v)
  {
    forall u: nat | u <= v
      ensures Indep(Image(Exists(b), X), u)
    {
      ImageIndep(Exists(b), X, u);
    }
  }

  // ----- conjunctions of lists

  ghost predicate AllWf(V: seq<Node>, s: seq<Ref>)
    requires NodesOk(V)
  {
    forall r :: r in s ==> Wf(V, r)
  }

  ghost predicate SemAll(V: seq<Node>, s: seq<Ref>, a: Asg)
    requires NodesOk(V) && AllWf(V, s)
  {
    forall r :: r in s ==> Sem(V, r, a)
  }

  ghost function Conj(V: seq<Node>, s: seq<Ref>): Fn
    requires NodesOk(V) && AllWf(V, s)
  {
    iset a: Asg | SemAll(V, s, a)
  }

  lemma ConjSame(V: seq<Node>, s: seq<Ref>, t: seq<Ref>)
    requires NodesOk(V) && AllWf(V, s) && AllWf(V, t)
    requires forall r :: r in s <==> r in t
    ensures Conj(V, s) == Conj(V, t)
  {
  }

  lemma ConjAppend(V: seq<Node>, s: seq<Ref>, t: seq<Ref>)
    requires NodesOk(V) && AllWf(V, s) && AllWf(V, t)
    ensures AllWf(V, s + t) && Conj(V, s + t) == Conj(V, s) * Conj(V, t)
  {
    forall a: Asg
      ensures a in Conj(V, s + t) <==> a in Conj(V, s) && a in Conj(V, t)
    {
      assert forall r :: r in s + t <==> r in s || r in t;
    }
  }

  lemma ConjSmall(V: seq<Node>, x: Ref, y: Ref)
    requires NodesOk(V) && Wf(V, x) && Wf(V, y)
    ensures Conj(V, []) == All() && Conj(V, [x]) == Den(V, x) && Conj(V, [x, y]) == Den(V, x) * Den(V, y)
  {
    assert forall r :: r in [x, y] <==> r == x || r == y;
    assert x in [x] && x in [x, y] && y in [x, y];
  }

  lemma ConjHas(V: seq<Node>, s: seq<Ref>, r: Ref)
    requires NodesOk(V) && AllWf(V, s) && r in s
    ensures Conj(V, s) <= Den(V, r)
    ensures Den(V, r) == iset{} ==> Conj(V, s) == iset{}
  {
  }

  lemma ConjIndep(V: seq<Node>, s: seq<Ref>, v: nat)
    requires NodesOk(V) && AllWf(V, s)
    requires forall r :: r in s ==> Indep(Den(V, r), v)
    ensures Indep(Conj(V, s), v)
  {
    forall a: Asg
      ensures a + iset{v} in Conj(V, s) <==> a - iset{v} in Conj(V, s)
    {
      forall r | r in s
        ensures Sem(V, r, a + iset{v}) <==> Sem(V, r, a - iset{v})
      {
        assert a + iset{v} in Den(V, r) <==> a - iset{v} in Den(V, r);
      }
    }
  }

  lemma {:induction false} ConjEmbed(V: seq<Node>, W: seq<Node>, S: set<nat>, p: seq<nat>, s: seq<Ref>, t: seq<Ref>)
    requires NodesOk(V) && NodesOk(W) && Embeds(V, W, S, p) && AllWf(V, s)
    requires |t| == |s| && forall i :: 0 <= i < |s| ==> s[i].id in S && t[i] == Renumber(p, s[i])
    ensures AllWf(W, t) && Conj(W, t) == Conj(V, s)
  {
    forall r | r in t ensures Wf(W, r) {
      var i :| 0 <= i < |t| && t[i] == r;
      DenEmbed(V, W, S, p, s[i]);
    }
    forall a: Asg
      ensures a in Conj(W, t) <==> a in Conj(V, s)
    {
      forall i | 0 <= i < |s|
        ensures Sem(W, t[i], a) == Sem(V, s[i], a)
      {
        SemEmbed(V, W, S, p, s[i], a);
      }
    }
  }

  lemma ConjGrow(V: seq<Node>, W: seq<Node>, s: seq<Ref>)
    requires NodesOk(V) && NodesOk(W) && V <= W && AllWf(V, s)
    ensures AllWf(W, s) && Conj(W, s) == Conj(V, s)
  {
    forall r | r in s ensures Wf(W, r) && Den(W, r) == Den(V, r) {
      Grow(V, W, r);
    }
    forall a: Asg
      ensures a in Conj(W, s) <==> a in Conj(V, s)
    {
      forall r | r in s
        ensures Sem(W, r, a) == Sem(V, r, a)
      {
        assert a in Den(W, r) <==> a in Den(V, r);
      }
    }
  }
}
