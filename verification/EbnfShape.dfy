/** What the plain form of a right-hand side looks like. */
module EbnfShape {
  import opened Grammar
  import opened Ebnf

  // ----- fresh nonterminals

  /** The definitions have distinct heads from lo on and below hi. */
  predicate FreshDefs(defs: seq<Def>, lo: nat, hi: nat) {
    && lo <= hi
    && (forall i :: 0 <= i < |defs| ==> lo <= defs[i].head < hi)
    && (forall i, j :: 0 <= i < j < |defs| ==> defs[i].head != defs[j].head)
  }

  lemma FreshJoin(d: seq<Def>, e: seq<Def>, lo: nat, mid: nat, hi: nat)
    requires FreshDefs(d, lo, mid) && FreshDefs(e, mid, hi)
    ensures FreshDefs(d + e, lo, hi)
  {
    forall i, j | 0 <= i < j < |d + e| ensures (d + e)[i].head != (d + e)[j].head {
      if j < |d| { assert d[i].head != d[j].head; }
      if i >= |d| { assert e[i - |d|].head != e[j - |d|].head; }
    }
  }

  lemma FreshOne(d: Def, hi: nat)
    requires d.head < hi
    ensures FreshDefs([d], d.head, hi)
  {
  }

  // ----- alternatives

  /** An alternative is not empty, and if eps is false the empty word stands alone. */
  predicate Solid(s: seq<Lit>, eps: bool) {
    |s| > 0 && (eps || Ch(EPSILON) !in s || s == EMPTY)
  }

  /** The alternative does not even consist of the empty word, unless eps is true. */
  predicate Strong(s: seq<Lit>, eps: bool) {
    |s| > 0 && (eps || Ch(EPSILON) !in s)
  }

  predicate AllStrong(alts: seq<seq<Lit>>, eps: bool) {
    forall s :: s in alts ==> Strong(s, eps)
  }

  predicate AllSolid(defs: seq<Def>, eps: bool) {
    forall d :: d in defs ==> DefSolid(d, eps)
  }

  predicate DefSolid(d: Def, eps: bool) {
    |d.alts| > 0 && forall s :: s in d.alts ==> Solid(s, eps)
  }

  lemma SolidJoin(d: seq<Def>, e: seq<Def>, eps: bool)
    requires AllSolid(d, eps) && AllSolid(e, eps)
    ensures AllSolid(d + e, eps)
  {
  }

  /** The symbols of the reading. */
  predicate LitIn(l: Lit, n: nat, eps: bool) {
    (l.NT? ==> l.n < n) && (eps || l != Ch(EPSILON))
  }

  predicate BaseIn(b: Base, n: nat, eps: bool) {
    match b case Leaf(l) => LitIn(l, n, eps) case Group(_, a) => AltsIn(a, n, eps)
  }

  predicate AltIn(a: Alt, n: nat, eps: bool) {
    BaseIn(a.f.b, n, eps) && (a.Then? ==> AltIn(a.next, n, eps))
  }

  predicate AltsIn(a: Alts, n: nat, eps: bool) {
    AltIn(a.a, n, eps) && (a.Or? ==> AltsIn(a.rest, n, eps))
  }

  predicate ToksIn(s: seq<Tok>, n: nat, eps: bool) {
    forall t :: t in s && t.Sym? ==> LitIn(t.l, n, eps)
  }

  lemma ToksInParts(s: seq<Tok>, t: seq<Tok>, n: nat, eps: bool)
    requires ToksIn(s + t, n, eps)
    ensures ToksIn(s, n, eps) && ToksIn(t, n, eps)
  {
    forall x | x in s && x.Sym? ensures LitIn(x.l, n, eps) { assert x in s + t; }
    forall x | x in t && x.Sym? ensures LitIn(x.l, n, eps) { assert x in s + t; }
  }

  lemma {:induction false} BaseToksIn(b: Base, n: nat, eps: bool)
    requires ToksIn(BaseToks(b), n, eps)
    ensures BaseIn(b, n, eps) && BaseBelow(b, n)
    decreases b
  {
    match b
    case Leaf(l) => assert Sym(l) in BaseToks(b);
    case Group(kind, a) =>
      ToksInParts([Open(kind)] + AltsToks(a), [Close(kind)], n, eps);
      ToksInParts([Open(kind)], AltsToks(a), n, eps);
      AltsToksIn(a, n, eps);
  }

  lemma FactorToksIn(f: Factor, n: nat, eps: bool)
    requires ToksIn(FactorToks(f), n, eps)
    ensures ToksIn(BaseToks(f.b), n, eps)
  {
    match f
    case Plain(b) =>
    case Rep(b, plus) => ToksInParts(BaseToks(b), [Times(plus)], n, eps);
  }

  lemma {:induction false} AltToksIn(a: Alt, n: nat, eps: bool)
    requires ToksIn(AltToks(a), n, eps)
    ensures AltIn(a, n, eps) && AltBelow(a, n)
    decreases a
  {
    if a.Then? {
      ToksInParts(FactorToks(a.f), AltToks(a.next), n, eps);
      AltToksIn(a.next, n, eps);
    } else {
      assert AltToks(a) == FactorToks(a.f);
    }
    FactorToksIn(a.f, n, eps);
    BaseToksIn(a.f.b, n, eps);
  }

  /** A reading mentions what its tokens mention. */
  lemma {:induction false} AltsToksIn(a: Alts, n: nat, eps: bool)
    requires ToksIn(AltsToks(a), n, eps)
    ensures AltsIn(a, n, eps) && AltsBelow(a, n)
    decreases a
  {
    if a.Or? {
      ToksInParts(AltToks(a.a) + [Bar], AltsToks(a.rest), n, eps);
      ToksInParts(AltToks(a.a), [Bar], n, eps);
      AltsToksIn(a.rest, n, eps);
    }
    AltToksIn(a.a, n, eps);
  }

  // ----- the plain form

  /** Definitions with fresh heads, starting at n, and solid alternatives. */
  predicate Sound<A>(c: Out<A>, n: nat, eps: bool) {
    FreshDefs(c.defs, n, c.next) && AllSolid(c.defs, eps)
  }

  lemma SoundMore<A>(c: Out<A>, d: Def, next: nat, n: nat, eps: bool)
    requires Sound(c, n, eps) && DefSolid(d, eps) && c.next <= d.head < next
    ensures FreshDefs(c.defs + [d], n, next) && AllSolid(c.defs + [d], eps)
  {
    FreshOne(d, next);
    assert FreshDefs([d], c.next, next);
    FreshJoin(c.defs, [d], n, c.next, next);
  }

  lemma StepSolid(x: seq<Lit>, r: nat, plus: bool, eps: bool)
    requires Strong(x, eps)
    ensures DefSolid(StepDef(x, r, plus), eps)
  {
    forall s | s in StepDef(x, r, plus).alts ensures Solid(s, eps) {
      assert s == x + [NT(r)] || s == if plus then x else EMPTY;
    }
  }

  lemma RepeatedSound(c: Out<seq<seq<Lit>>>, plus: bool, n: nat, eps: bool)
    requires |c.s| > 0 && Sound(c, n, eps) && AllStrong(c.s, eps)
    ensures Sound(Repeated(c, plus), n, eps) && Strong(Repeated(c, plus).s, eps)
  {
    if |c.s| > 1 {
      var d, x, r := Def(c.next, c.s), [NT(c.next)], c.next + 1;
      SoundMore(c, d, r, n, eps);
      StepSolid(x, r, plus, eps);
      SoundMore(Out(c.s, c.defs + [d], r), StepDef(x, r, plus), r + 1, n, eps);
    } else {
      assert c.s[0] in c.s;
      StepSolid(c.s[0], c.next, plus, eps);
      SoundMore(c, StepDef(c.s[0], c.next, plus), c.next + 1, n, eps);
    }
  }

  lemma {:induction false} FactorSound(f: Factor, n: nat, m: nat, eps: bool)
    requires BaseIn(f.b, n, eps)
    ensures Sound(FactorPlain(f, m), m, eps) && Strong(FactorPlain(f, m).s, eps)
    decreases f
  {
    match f
    case Plain(Leaf(l)) =>
    case Plain(Group(kind, a)) =>
      AltsSound(a, n, m, eps);
      var c := AltsPlain(a, m);
      if kind == Curly {
        RepeatedSound(c, false, m, eps);
      } else {
        SoundMore(c, Def(c.next, c.s + if kind == Square then [EMPTY] else []), c.next + 1, m, eps);
      }
    case Rep(b, plus) =>
      if b.Group? { AltsSound(b.alts, n, m, eps); }
      RepeatedSound(BasePlain(b, m), plus, m, eps);
  }

  lemma {:induction false} AltSound(a: Alt, n: nat, m: nat, eps: bool)
    requires AltIn(a, n, eps)
    ensures Sound(AltPlain(a, m), m, eps) && Strong(AltPlain(a, m).s, eps)
    decreases a
  {
    FactorSound(a.f, n, m, eps);
    if a.Then? {
      var c := FactorPlain(a.f, m);
      AltSound(a.next, n, c.next, eps);
      FreshJoin(c.defs, AltPlain(a.next, c.next).defs, m, c.next, AltPlain(a.next, c.next).next);
      SolidJoin(c.defs, AltPlain(a.next, c.next).defs, eps);
    }
  }

  /** The plain form of alternatives has solid alternatives and fresh definitions. */
  lemma {:induction false} AltsSound(a: Alts, n: nat, m: nat, eps: bool)
    requires AltsIn(a, n, eps)
    ensures Sound(AltsPlain(a, m), m, eps) && AllStrong(AltsPlain(a, m).s, eps)
    decreases a
  {
    AltSound(a.a, n, m, eps);
    if a.Or? {
      var c := AltPlain(a.a, m);
      AltsSound(a.rest, n, c.next, eps);
      FreshJoin(c.defs, AltsPlain(a.rest, c.next).defs, m, c.next, AltsPlain(a.rest, c.next).next);
      SolidJoin(c.defs, AltsPlain(a.rest, c.next).defs, eps);
    }
  }

  // ----- plain alternatives read back

  function PlainAlt(s: seq<Lit>): Alt
    requires |s| > 0
  {
    if |s| == 1 then Last(Plain(Leaf(s[0]))) else Then(Plain(Leaf(s[0])), PlainAlt(s[1..]))
  }

  function PlainAlts(alts: seq<seq<Lit>>): Alts
    requires |alts| > 0 && forall s :: s in alts ==> |s| > 0
  {
    if |alts| == 1 then One(PlainAlt(alts[0])) else Or(PlainAlt(alts[0]), PlainAlts(alts[1..]))
  }

  lemma {:induction false} PlainAltSame(s: seq<Lit>, n: nat)
    requires |s| > 0
    ensures AltOk(PlainAlt(s)) && AltPlain(PlainAlt(s), n) == Out(s, [], n)
  {
    if |s| > 1 {
      PlainAltSame(s[1..], n);
      assert s == [s[0]] + s[1..];
    } else {
      assert s == [s[0]];
    }
  }

  /** The plain form of plain alternatives is themselves. */
  lemma {:induction false} PlainAltsSame(alts: seq<seq<Lit>>, n: nat)
    requires |alts| > 0 && forall s :: s in alts ==> |s| > 0
    ensures AltsOk(PlainAlts(alts)) && AltsPlain(PlainAlts(alts), n) == Out(alts, [], n)
  {
    PlainAltSame(alts[0], n);
    if |alts| > 1 {
      PlainAltsSame(alts[1..], n);
      assert alts == [alts[0]] + alts[1..];
    } else {
      assert alts == [alts[0]];
    }
  }
}
