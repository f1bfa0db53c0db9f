/** The plain form of a grammar yields the same words. */
module EbnfMeans {
  import opened Grammar
  import opened Ebnf

  // ----- more fuel

  lemma {:induction false} LitMore(P: seq<Reading>, l: Lit, w: string, i: nat, j: nat, k: nat, m: nat)
    requires LitGen(P, l, w, i, j, k) && k <= m
    ensures LitGen(P, l, w, i, j, m)
    decreases k, l
  {
    if l.NT? {
      var p :| 0 <= p < |P| && P[p].head == l.n && AltsGen(P, P[p].alts, w, i, j, k - 1);
      AltsMore(P, P[p].alts, w, i, j, k - 1, m - 1);
    }
  }

  lemma {:induction false} BaseMore(P: seq<Reading>, b: Base, w: string, i: nat, j: nat, k: nat, m: nat)
    requires BaseGen(P, b, w, i, j, k) && k <= m
    ensures BaseGen(P, b, w, i, j, m)
    decreases k, b, 0
  {
    match b
    case Leaf(l) => LitMore(P, l, w, i, j, k, m);
    case Group(_, a) => AltsMore(P, a, w, i, j, k, m);
  }

  lemma {:induction false} RepMore(P: seq<Reading>, b: Base, plus: bool, w: string, i: nat, j: nat, k: nat, m: nat)
    requires RepGen(P, b, plus, w, i, j, k) && k <= m
    ensures RepGen(P, b, plus, w, i, j, m)
    decreases k, b, 1
  {
    if if plus then BaseGen(P, b, w, i, j, k) else i == j {
      if plus { BaseMore(P, b, w, i, j, k, m); }
    } else {
      var n: nat :| BaseGen(P, b, w, i, n, k) && RepGen(P, b, plus, w, n, j, k - 1);
      BaseMore(P, b, w, i, n, k, m);
      RepMore(P, b, plus, w, n, j, k - 1, m - 1);
    }
  }

  lemma {:induction false} FactorMore(P: seq<Reading>, f: Factor, w: string, i: nat, j: nat, k: nat, m: nat)
    requires FactorGen(P, f, w, i, j, k) && k <= m
    ensures FactorGen(P, f, w, i, j, m)
    decreases k, f
  {
    match f
    case Plain(b) =>
      if b.Leaf? || b.kind == Round { BaseMore(P, b, w, i, j, k, m); }
      else if b.kind == Square { if i != j { BaseMore(P, b, w, i, j, k, m); } }
      else { RepMore(P, b, false, w, i, j, k, m); }
    case Rep(b, plus) => RepMore(P, b, plus, w, i, j, k, m);
  }

  lemma {:induction false} AltMore(P: seq<Reading>, a: Alt, w: string, i: nat, j: nat, k: nat, m: nat)
    requires AltGen(P, a, w, i, j, k) && k <= m
    ensures AltGen(P, a, w, i, j, m)
    decreases k, a
  {
    if a.Last? {
      FactorMore(P, a.f, w, i, j, k, m);
    } else {
      var n: nat :| FactorGen(P, a.f, w, i, n, k) && AltGen(P, a.next, w, n, j, k);
      FactorMore(P, a.f, w, i, n, k, m);
      AltMore(P, a.next, w, n, j, k, m);
    }
  }

  lemma {:induction false} AltsMore(P: seq<Reading>, a: Alts, w: string, i: nat, j: nat, k: nat, m: nat)
    requires AltsGen(P, a, w, i, j, k) && k <= m
    ensures AltsGen(P, a, w, i, j, m)
    decreases k, a
  {
    if AltGen(P, a.a, w, i, j, k) { AltMore(P, a.a, w, i, j, k, m); } else { AltsMore(P, a.rest, w, i, j, k, m); }
  }

  // ----- what the plain grammar holds

  ghost predicate Has(G: Prods, a: nat, s: seq<Lit>) {
    exists p: nat :: Uses(G, a, p) && G[p][1..] == s
  }

  /** The productions of the nonterminal are exactly the alternatives of the definition. */
  ghost predicate Exact(G: Prods, d: Def) {
    forall s :: Has(G, d.head, s) <==> s in d.alts
  }

  ghost predicate AllExact(G: Prods, defs: seq<Def>) {
    forall d :: d in defs ==> Exact(G, d)
  }

  /** G is the plain form of the readings: nonterminals below n have the plain alternatives of their readings, fresh
      ones their definitions. */
  ghost predicate PlainOf(G: Prods, P: seq<Reading>, ns: seq<nat>, n: nat) {
    && |ns| == |P|
    && (forall p :: 0 <= p < |P| ==>
       AltsBelow(P[p].alts, n) && AltsOk(P[p].alts) && AllExact(G, AltsPlain(P[p].alts, ns[p]).defs))
    && (forall a: nat, s :: a < n ==> (Has(G, a, s) <==> HasPlain(P, ns, a, s)))
  }

  ghost predicate HasPlain(P: seq<Reading>, ns: seq<nat>, a: nat, s: seq<Lit>)
    requires |ns| == |P|
  {
    exists p :: 0 <= p < |P| && P[p].head == a && s in AltsPlain(P[p].alts, ns[p]).s
  }

  ghost predicate SomeDerives(G: Prods, alts: seq<seq<Lit>>, w: string, i: nat, j: nat) {
    exists s :: s in alts && SeqDerives(G, s, w, i, j)
  }

  lemma SeqJoin(G: Prods, s: seq<Lit>, t: seq<Lit>, w: string, i: nat, m: nat, j: nat)
    requires SeqDerives(G, s, w, i, m) && SeqDerives(G, t, w, m, j)
    ensures SeqDerives(G, s + t, w, i, j)
  {
    var k1: nat :| Der(G, s, w, i, m, k1);
    var k2: nat :| Der(G, t, w, m, j, k2);
    var k := if k1 <= k2 then k2 else k1;
    DerMono(G, s, w, i, m, k1, k);
    DerMono(G, t, w, m, j, k2, k);
    DerCat(G, s, t, w, i, m, j, k);
  }

  lemma {:induction false} DerSplit(G: Prods, s: seq<Lit>, t: seq<Lit>, w: string, i: nat, j: nat, k: nat)
    returns (m: nat)
    requires Der(G, s + t, w, i, j, k)
    ensures Der(G, s, w, i, m, k) && Der(G, t, w, m, j, k)
    decreases |s|
  {
    if s == [] {
      assert s + t == t;
      m := i;
    } else {
      assert (s + t)[1..] == s[1..] + t;
      match s[0]
      case Ch(c) =>
        m := DerSplit(G, s[1..], t, w, if c == EPSILON then i else i + 1, j, k);
      case NT(a) =>
        var p: nat, n: nat :| Uses(G, a, p) && Der(G, G[p][1..], w, i, n, k - 1) && Der(G, s[1..] + t, w, n, j, k);
        m := DerSplit(G, s[1..], t, w, n, j, k);
    }
  }

  lemma NothingOnly(G: Prods, w: string, i: nat, j: nat, k: nat)
    requires Der(G, EMPTY, w, i, j, k)
    ensures i == j
  {
    var s := EMPTY;
    assert s[0] == Ch(EPSILON) && s[1..] == [];
    assert Der(G, s[1..], w, i, j, k);
  }

  lemma HasDerives(G: Prods, a: nat, s: seq<Lit>, w: string, i: nat, j: nat)
    requires Has(G, a, s) && SeqDerives(G, s, w, i, j)
    ensures SeqDerives(G, [NT(a)], w, i, j)
  {
    var p: nat :| Uses(G, a, p) && G[p][1..] == s;
    ProdDerives(G, p, a, w, i, j);
  }

  lemma NothingDerives(G: Prods, w: string, i: nat)
    ensures SeqDerives(G, EMPTY, w, i, i)
  {
    CharDerives(G, EPSILON, w, i);
  }

  /** A nonterminal derives through one of its right-hand sides. */
  lemma DerThrough(G: Prods, a: nat, w: string, i: nat, j: nat, k: nat) returns (s: seq<Lit>)
    requires Der(G, [NT(a)], w, i, j, k)
    ensures k > 0 && Has(G, a, s) && Der(G, s, w, i, j, k - 1)
  {
    assert [NT(a)][1..] == [];
    var p: nat, m: nat :| Uses(G, a, p) && Der(G, G[p][1..], w, i, m, k - 1) && Der(G, [NT(a)][1..], w, m, j, k);
    s := G[p][1..];
  }

  // ----- readings derive in the plain form

  ghost predicate Defined<A>(G: Prods, c: Out<A>) {
    AllExact(G, c.defs)
  }

  /** The step of a repetition. */
  function Step(c: Out<seq<seq<Lit>>>): seq<Lit>
    requires |c.s| > 0
  {
    if |c.s| > 1 then [NT(c.next)] else c.s[0]
  }

  function RepHead(c: Out<seq<seq<Lit>>>): nat {
    if |c.s| > 1 then c.next + 1 else c.next
  }

  /** What the definitions of a repetition say. */
  lemma RepeatedDefs(G: Prods, c: Out<seq<seq<Lit>>>, plus: bool)
    requires |c.s| > 0 && Defined(G, Repeated(c, plus))
    ensures Defined(G, c) && Repeated(c, plus).s == [NT(RepHead(c))]
    ensures forall s :: Has(G, RepHead(c), s) <==>
      s == Step(c) + [NT(RepHead(c))] || s == if plus then Step(c) else EMPTY
    ensures |c.s| > 1 ==> forall s :: Has(G, c.next, s) <==> s in c.s
  {
    var defs, r, x := Repeated(c, plus).defs, RepHead(c), Step(c);
    var d := StepDef(x, r, plus);
    assert d in defs && Exact(G, d);
    if |c.s| > 1 { assert Def(c.next, c.s) in defs && Exact(G, Def(c.next, c.s)); }
    forall e | e in c.defs ensures Exact(G, e) { assert e in defs; }
  }

  lemma StepDerives(G: Prods, c: Out<seq<seq<Lit>>>, plus: bool, w: string, i: nat, j: nat)
    requires |c.s| > 0 && Defined(G, Repeated(c, plus)) && SomeDerives(G, c.s, w, i, j)
    ensures SeqDerives(G, Step(c), w, i, j)
  {
    RepeatedDefs(G, c, plus);
    var s :| s in c.s && SeqDerives(G, s, w, i, j);
    if |c.s| > 1 { HasDerives(G, c.next, s, w, i, j); }
  }

  lemma {:induction false} LitTo(G: Prods, P: seq<Reading>, ns: seq<nat>, n: nat, l: Lit, w: string, i: nat, j: nat,
        k: nat)
    requires PlainOf(G, P, ns, n) && LitBelow(l, n) && LitGen(P, l, w, i, j, k)
    ensures SeqDerives(G, [l], w, i, j)
    decreases k, l
  {
    match l
    case Ch(c) => CharDerives(G, c, w, i);
    case NT(a) =>
      var p :| 0 <= p < |P| && P[p].head == a && AltsGen(P, P[p].alts, w, i, j, k - 1);
      AltsTo(G, P, ns, n, P[p].alts, ns[p], w, i, j, k - 1);
      var s :| s in AltsPlain(P[p].alts, ns[p]).s && SeqDerives(G, s, w, i, j);
      assert HasPlain(P, ns, a, s);
      HasDerives(G, a, s, w, i, j);
  }

  lemma {:induction false} BaseTo(G: Prods, P: seq<Reading>, ns: seq<nat>, n: nat, b: Base, q: nat, w: string, i: nat,
        j: nat, k: nat)
    requires PlainOf(G, P, ns, n) && BaseBelow(b, n) && BaseOk(b) && Defined(G, BasePlain(b, q))
    requires BaseGen(P, b, w, i, j, k)
    ensures SomeDerives(G, BasePlain(b, q).s, w, i, j)
    decreases k, b, 0
  {
    match b
    case Leaf(l) => LitTo(G, P, ns, n, l, w, i, j, k); assert [l] in BasePlain(b, q).s;
    case Group(_, a) => AltsTo(G, P, ns, n, a, q, w, i, j, k);
  }

  lemma {:induction false} RepTo(G: Prods, P: seq<Reading>, ns: seq<nat>, n: nat, b: Base, plus: bool, q: nat,
        w: string, i: nat, j: nat, k: nat)
    requires PlainOf(G, P, ns, n) && BaseBelow(b, n) && BaseOk(b) && Defined(G, Repeated(BasePlain(b, q), plus))
    requires RepGen(P, b, plus, w, i, j, k)
    ensures SeqDerives(G, Repeated(BasePlain(b, q), plus).s, w, i, j)
    decreases k, b, 1
  {
    var c := BasePlain(b, q);
    var r, x := RepHead(c), Step(c);
    RepeatedDefs(G, c, plus);
    if if plus then BaseGen(P, b, w, i, j, k) else i == j {
      if plus {
        BaseTo(G, P, ns, n, b, q, w, i, j, k);
        StepDerives(G, c, plus, w, i, j);
        HasDerives(G, r, x, w, i, j);
      } else {
        NothingDerives(G, w, i);
        HasDerives(G, r, EMPTY, w, i, j);
      }
    } else {
      var m: nat :| BaseGen(P, b, w, i, m, k) && RepGen(P, b, plus, w, m, j, k - 1);
      BaseTo(G, P, ns, n, b, q, w, i, m, k);
      StepDerives(G, c, plus, w, i, m);
      RepTo(G, P, ns, n, b, plus, q, w, m, j, k - 1);
      SeqJoin(G, x, [NT(r)], w, i, m, j);
      HasDerives(G, r, x + [NT(r)], w, i, j);
    }
  }

  /** What the definition of a bracket says. */
  lemma GroupDefs(G: Prods, kind: Kind, a: Alts, q: nat)
    requires kind != Curly && Defined(G, FactorPlain(Plain(Group(kind, a)), q))
    ensures Defined(G, AltsPlain(a, q))
    ensures forall s :: Has(G, AltsPlain(a, q).next, s) <==> s in AltsPlain(a, q).s || (kind == Square && s == EMPTY)
  {
    var c := AltsPlain(a, q);
    var d := Def(c.next, c.s + if kind == Square then [EMPTY] else []);
    var defs := FactorPlain(Plain(Group(kind, a)), q).defs;
    assert defs == c.defs + [d];
    assert d in defs && Exact(G, d);
    forall e | e in c.defs ensures Exact(G, e) { assert e in defs; }
  }

  lemma {:induction false} FactorTo(G: Prods, P: seq<Reading>, ns: seq<nat>, n: nat, f: Factor, q: nat, w: string,
        i: nat, j: nat, k: nat)
    requires PlainOf(G, P, ns, n) && BaseBelow(f.b, n) && FactorOk(f) && Defined(G, FactorPlain(f, q))
    requires FactorGen(P, f, w, i, j, k)
    ensures SeqDerives(G, FactorPlain(f, q).s, w, i, j)
    decreases k, f
  {
    match f
    case Plain(Leaf(l)) => LitTo(G, P, ns, n, l, w, i, j, k);
    case Plain(Group(kind, a)) =>
      if kind == Curly {
        RepTo(G, P, ns, n, f.b, false, q, w, i, j, k);
      } else {
        GroupDefs(G, kind, a, q);
        if AltsGen(P, a, w, i, j, k) {
          AltsTo(G, P, ns, n, a, q, w, i, j, k);
          var s :| s in AltsPlain(a, q).s && SeqDerives(G, s, w, i, j);
          HasDerives(G, AltsPlain(a, q).next, s, w, i, j);
        } else {
          NothingDerives(G, w, i);
          HasDerives(G, AltsPlain(a, q).next, EMPTY, w, i, j);
        }
      }
    case Rep(b, plus) => RepTo(G, P, ns, n, b, plus, q, w, i, j, k);
  }

  lemma AllExactParts(G: Prods, d: seq<Def>, e: seq<Def>)
    requires AllExact(G, d + e)
    ensures AllExact(G, d) && AllExact(G, e)
  {
    forall x | x in d ensures Exact(G, x) { assert x in d + e; }
    forall x | x in e ensures Exact(G, x) { assert x in d + e; }
  }

  lemma {:induction false} AltTo(G: Prods, P: seq<Reading>, ns: seq<nat>, n: nat, a: Alt, q: nat, w: string, i: nat,
        j: nat, k: nat)
    requires PlainOf(G, P, ns, n) && AltBelow(a, n) && AltOk(a) && Defined(G, AltPlain(a, q))
    requires AltGen(P, a, w, i, j, k)
    ensures SeqDerives(G, AltPlain(a, q).s, w, i, j)
    decreases k, a
  {
    var c := FactorPlain(a.f, q);
    if a.Last? {
      FactorTo(G, P, ns, n, a.f, q, w, i, j, k);
    } else {
      var d := AltPlain(a.next, c.next);
      AllExactParts(G, c.defs, d.defs);
      var m: nat :| FactorGen(P, a.f, w, i, m, k) && AltGen(P, a.next, w, m, j, k);
      FactorTo(G, P, ns, n, a.f, q, w, i, m, k);
      AltTo(G, P, ns, n, a.next, c.next, w, m, j, k);
      SeqJoin(G, c.s, d.s, w, i, m, j);
    }
  }

  lemma {:induction false} AltsTo(G: Prods, P: seq<Reading>, ns: seq<nat>, n: nat, a: Alts, q: nat, w: string, i: nat,
        j: nat, k: nat)
    requires PlainOf(G, P, ns, n) && AltsBelow(a, n) && AltsOk(a) && Defined(G, AltsPlain(a, q))
    requires AltsGen(P, a, w, i, j, k)
    ensures SomeDerives(G, AltsPlain(a, q).s, w, i, j)
    decreases k, a
  {
    var c := AltPlain(a.a, q);
    if a.Or? {
      var d := AltsPlain(a.rest, c.next);
      AllExactParts(G, c.defs, d.defs);
      if !AltGen(P, a.a, w, i, j, k) {
        AltsTo(G, P, ns, n, a.rest, c.next, w, i, j, k);
        var s :| s in d.s && SeqDerives(G, s, w, i, j);
        assert s in AltsPlain(a, q).s;
      }
    }
    if AltGen(P, a.a, w, i, j, k) {
      AltTo(G, P, ns, n, a.a, q, w, i, j, k);
      assert c.s in AltsPlain(a, q).s;
    }
  }

  // ----- and nothing else

  lemma {:induction false} LitFrom(G: Prods, P: seq<Reading>, ns: seq<nat>, n: nat, l: Lit, w: string, i: nat, j: nat,
        k: nat)
    returns (m: nat)
    requires PlainOf(G, P, ns, n) && LitBelow(l, n) && Der(G, [l], w, i, j, k)
    ensures LitGen(P, l, w, i, j, m)
    decreases k, l
  {
    match l
    case Ch(c) =>
      assert [l][1..] == [];
      m := 0;
    case NT(a) =>
      var s := DerThrough(G, a, w, i, j, k);
      assert HasPlain(P, ns, a, s);
      var p :| 0 <= p < |P| && P[p].head == a && s in AltsPlain(P[p].alts, ns[p]).s;
      m := AltsFrom(G, P, ns, n, P[p].alts, ns[p], s, w, i, j, k - 1);
      m := m + 1;
  }

  lemma {:induction false} BaseFrom(G: Prods, P: seq<Reading>, ns: seq<nat>, n: nat, b: Base, q: nat, s: seq<Lit>,
        w: string, i: nat, j: nat, k: nat)
    returns (m: nat)
    requires PlainOf(G, P, ns, n) && BaseBelow(b, n) && BaseOk(b) && Defined(G, BasePlain(b, q))
    requires s in BasePlain(b, q).s && Der(G, s, w, i, j, k)
    ensures BaseGen(P, b, w, i, j, m)
    decreases k, b, 0
  {
    match b
    case Leaf(l) => m := LitFrom(G, P, ns, n, l, w, i, j, k);
    case Group(_, a) => m := AltsFrom(G, P, ns, n, a, q, s, w, i, j, k);
  }

  /** A step of a repetition is one of the alternatives. */
  lemma StepThrough(G: Prods, c: Out<seq<seq<Lit>>>, plus: bool, w: string, i: nat, j: nat, k: nat)
    returns (s: seq<Lit>, k': nat)
    requires |c.s| > 0 && Defined(G, Repeated(c, plus)) && Der(G, Step(c), w, i, j, k)
    ensures s in c.s && k' <= k && Der(G, s, w, i, j, k')
  {
    RepeatedDefs(G, c, plus);
    if |c.s| > 1 {
      s := DerThrough(G, c.next, w, i, j, k);
      k' := k - 1;
    } else {
      s, k' := c.s[0], k;
    }
  }

  lemma {:induction false} RepFrom(G: Prods, P: seq<Reading>, ns: seq<nat>, n: nat, b: Base, plus: bool, q: nat,
        w: string, i: nat, j: nat, k: nat)
    returns (m: nat)
    requires PlainOf(G, P, ns, n) && BaseBelow(b, n) && BaseOk(b) && Defined(G, Repeated(BasePlain(b, q), plus))
    requires Der(G, Repeated(BasePlain(b, q), plus).s, w, i, j, k)
    ensures RepGen(P, b, plus, w, i, j, m)
    decreases k, b, 1
  {
    var c := BasePlain(b, q);
    var r, x := RepHead(c), Step(c);
    RepeatedDefs(G, c, plus);
    var s := DerThrough(G, r, w, i, j, k);
    if s == x + [NT(r)] {
      var h := DerSplit(G, x, [NT(r)], w, i, j, k - 1);
      var t, k' := StepThrough(G, c, plus, w, i, h, k - 1);
      var m1 := BaseFrom(G, P, ns, n, b, q, t, w, i, h, k');
      var m2 := RepFrom(G, P, ns, n, b, plus, q, w, h, j, k - 1);
      m := m1 + m2 + 1;
      BaseMore(P, b, w, i, h, m1, m);
      RepMore(P, b, plus, w, h, j, m2, m - 1);
    } else if plus {
      var t, k' := StepThrough(G, c, plus, w, i, j, k - 1);
      m := BaseFrom(G, P, ns, n, b, q, t, w, i, j, k');
    } else {
      NothingOnly(G, w, i, j, k - 1);
      m := 0;
    }
  }

  lemma {:induction false} FactorFrom(G: Prods, P: seq<Reading>, ns: seq<nat>, n: nat, f: Factor, q: nat, w: string,
        i: nat, j: nat, k: nat)
    returns (m: nat)
    requires PlainOf(G, P, ns, n) && BaseBelow(f.b, n) && FactorOk(f) && Defined(G, FactorPlain(f, q))
    requires Der(G, FactorPlain(f, q).s, w, i, j, k)
    ensures FactorGen(P, f, w, i, j, m)
    decreases k, f
  {
    match f
    case Plain(Leaf(l)) => m := LitFrom(G, P, ns, n, l, w, i, j, k);
    case Plain(Group(kind, a)) =>
      if kind == Curly {
        m := RepFrom(G, P, ns, n, f.b, false, q, w, i, j, k);
      } else {
        GroupDefs(G, kind, a, q);
        var s := DerThrough(G, AltsPlain(a, q).next, w, i, j, k);
        if s in AltsPlain(a, q).s {
          m := AltsFrom(G, P, ns, n, a, q, s, w, i, j, k - 1);
        } else {
          NothingOnly(G, w, i, j, k - 1);
          m := 0;
        }
      }
    case Rep(b, plus) => m := RepFrom(G, P, ns, n, b, plus, q, w, i, j, k);
  }

  lemma {:induction false} AltFrom(G: Prods, P: seq<Reading>, ns: seq<nat>, n: nat, a: Alt, q: nat, w: string, i: nat,
        j: nat, k: nat)
    returns (m: nat)
    requires PlainOf(G, P, ns, n) && AltBelow(a, n) && AltOk(a) && Defined(G, AltPlain(a, q))
    requires Der(G, AltPlain(a, q).s, w, i, j, k)
    ensures AltGen(P, a, w, i, j, m)
    decreases k, a
  {
    var c := FactorPlain(a.f, q);
    if a.Last? {
      m := FactorFrom(G, P, ns, n, a.f, q, w, i, j, k);
    } else {
      var d := AltPlain(a.next, c.next);
      AllExactParts(G, c.defs, d.defs);
      var h := DerSplit(G, c.s, d.s, w, i, j, k);
      var m1 := FactorFrom(G, P, ns, n, a.f, q, w, i, h, k);
      var m2 := AltFrom(G, P, ns, n, a.next, c.next, w, h, j, k);
      m := m1 + m2;
      FactorMore(P, a.f, w, i, h, m1, m);
      AltMore(P, a.next, w, h, j, m2, m);
    }
  }

  lemma {:induction false} AltsFrom(G: Prods, P: seq<Reading>, ns: seq<nat>, n: nat, a: Alts, q: nat, s: seq<Lit>,
        w: string, i: nat, j: nat, k: nat)
    returns (m: nat)
    requires PlainOf(G, P, ns, n) && AltsBelow(a, n) && AltsOk(a) && Defined(G, AltsPlain(a, q))
    requires s in AltsPlain(a, q).s && Der(G, s, w, i, j, k)
    ensures AltsGen(P, a, w, i, j, m)
    decreases k, a
  {
    var c := AltPlain(a.a, q);
    if a.Or? { AllExactParts(G, c.defs, AltsPlain(a.rest, c.next).defs); }
    if s == c.s {
      m := AltFrom(G, P, ns, n, a.a, q, w, i, j, k);
    } else {
      m := AltsFrom(G, P, ns, n, a.rest, c.next, s, w, i, j, k);
    }
  }

  /** The plain form derives from every nonterminal of the readings exactly the words it yields. */
  lemma PlainMeans(G: Prods, P: seq<Reading>, ns: seq<nat>, n: nat, a: nat, w: string, i: nat, j: nat)
    requires PlainOf(G, P, ns, n) && a < n
    ensures Derives(G, NT(a), w, i, j) <==> Yields(P, a, w, i, j)
  {
    if Yields(P, a, w, i, j) {
      var k: nat :| LitGen(P, NT(a), w, i, j, k);
      LitTo(G, P, ns, n, NT(a), w, i, j, k);
    }
    if Derives(G, NT(a), w, i, j) {
      var k: nat :| Der(G, [NT(a)], w, i, j, k);
      var m := LitFrom(G, P, ns, n, NT(a), w, i, j, k);
    }
  }
}
