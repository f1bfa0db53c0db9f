/** Desugaring a whole grammar: every production is rewritten to plain form and split at its bars. */
module EbnfDesugar {
  import opened Grammar
  import opened Ebnf
  import opened EbnfShape
  import opened EbnfParse
  import M = EbnfMeans

  /** The production reads as r, with a bar behind it if bar is true. */
  ghost predicate ReadsAs(p: Production, r: Reading, bar: bool) {
    p.head == r.head && AltsOk(r.alts) && p.toks == AltsToks(r.alts) + (if bar then [Bar] else [])
  }

  /** The plain alternatives of a reading; a bar at the end adds an empty one. */
  function Rewrite(r: Reading, n: nat, bar: bool): (d: Def)
    ensures |d.alts| > 0
  {
    Def(r.head, AltsPlain(r.alts, n).s + (if bar then [[]] else []))
  }

  lemma RewriteToks(r: Reading, n: nat, bar: bool)
    ensures DefProd(Rewrite(r, n, bar)) ==
      Production(r.head, FlatToks(AltsPlain(r.alts, n).s) + (if bar then [Bar] else []))
  {
    var s := AltsPlain(r.alts, n).s;
    if bar { FlatMore(s, []); } else { assert s + [] == s; }
  }

  /** Rewrites one production. */
  method Visit(p: Production, n: nat, ghost want: Want<Alts>)
    returns (ok: bool, p': Production, lp: seq<Production>, n': nat, ghost a: Alts, ghost bar: bool)
    requires WantAlts(want, p.toks) && (want.Known? ==> want.rest == [])
    ensures ok ==> ReadsAs(p, Reading(p.head, a), bar) && p' == DefProd(Rewrite(Reading(p.head, a), n, bar))
    ensures ok ==> Built([], lp, n', AltsPlain(a, n))
    ensures want.Known? ==> ok && !bar && a == want.a
  {
    var t := new PTransformer(p.toks, n);
    ghost var rest;
    var cur;
    assert p.toks[0..] == p.toks;
    ok, cur, a, rest, bar := t.ParseAlts(0, want);
    if |t.body| > cur { ok := false; }
    p', lp, n' := Production(p.head, t.body), t.lp, t.count;
    if ok {
      RewriteToks(Reading(p.head, a), n, bar);
      assert rest == [];
    }
  }

  // ----- plain productions are left alone

  lemma {:induction false} PlainAltToks(s: seq<Lit>)
    requires |s| > 0
    ensures AltToks(PlainAlt(s)) == LitToks(s)
  {
    assert BaseToks(Leaf(s[0])) == [Sym(s[0])];
    assert FactorToks(Plain(Leaf(s[0]))) == [Sym(s[0])];
    if |s| > 1 {
      PlainAltToks(s[1..]);
      assert AltToks(PlainAlt(s)) == [Sym(s[0])] + AltToks(PlainAlt(s[1..]));
    } else {
      assert AltToks(PlainAlt(s)) == FactorToks(Plain(Leaf(s[0])));
    }
  }

  lemma {:induction false} PlainAltsToks(alts: seq<seq<Lit>>)
    requires |alts| > 0 && forall s :: s in alts ==> |s| > 0
    ensures AltsToks(PlainAlts(alts)) == FlatToks(alts)
  {
    PlainAltToks(alts[0]);
    if |alts| > 1 {
      PlainAltsToks(alts[1..]);
      FlatJoin([alts[0]], alts[1..]);
      assert [alts[0]] + alts[1..] == alts;
    }
  }

  /** Visiting a plain production changes nothing. */
  method VisitPlain(p: Production, n: nat, ghost d: Def)
    returns (ok: bool, p': Production, lp: seq<Production>, n': nat)
    requires |d.alts| > 0 && p == DefProd(d) && forall s :: s in d.alts ==> |s| > 0
    ensures ok && p' == p && lp == [] && n' == n
  {
    ghost var a, bar;
    ghost var want := PlainAlts(d.alts);
    PlainAltsSame(d.alts, n);
    PlainAltsToks(d.alts);
    assert p.toks == AltsToks(want) + [];
    ok, p', lp, n', a, bar := Visit(p, n, Known(want, []));
    assert Rewrite(Reading(p.head, want), n, false) == d by { assert d.alts + [] == d.alts; }
    assert [] + DefProds([]) == [];
  }

  // ----- the growing list of productions

  /** The first productions have been rewritten, the next are as they were, and the new definitions follow. */
  ghost predicate Swept(g: seq<Production>, g0: seq<Production>, P: seq<Reading>, ns: seq<nat>, bars: seq<bool>,
        defs: seq<Def>) {
    && |P| == |ns| == |bars| <= |g0| && DefsOk(defs)
    && (forall i :: 0 <= i < |P| ==> ReadsAs(g0[i], P[i], bars[i]) && AllIn(AltsPlain(P[i].alts, ns[i]).defs, defs))
    && g == Rewritings(P, ns, bars) + g0[|P|..] + DefProds(defs)
  }

  predicate AllIn(d: seq<Def>, e: seq<Def>) {
    forall x :: x in d ==> x in e
  }

  function RewriteAll(P: seq<Reading>, ns: seq<nat>, bars: seq<bool>): (defs: seq<Def>)
    requires |P| == |ns| == |bars|
    ensures DefsOk(defs)
  {
    seq(|P|, i requires 0 <= i < |P| => Rewrite(P[i], ns[i], bars[i]))
  }

  function Rewritings(P: seq<Reading>, ns: seq<nat>, bars: seq<bool>): seq<Production>
    requires |P| == |ns| == |bars|
  {
    DefProds(RewriteAll(P, ns, bars))
  }

  lemma SweptMore(g: seq<Production>, g0: seq<Production>, P: seq<Reading>, ns: seq<nat>, bars: seq<bool>,
        defs: seq<Def>, r: Reading, n: nat, bar: bool, lp: seq<Production>, n': nat)
    requires Swept(g, g0, P, ns, bars, defs) && |P| < |g0| && ReadsAs(g0[|P|], r, bar)
    requires Built([], lp, n', AltsPlain(r.alts, n))
    ensures Swept(g[|P| := DefProd(Rewrite(r, n, bar))] + lp, g0, P + [r], ns + [n], bars + [bar],
      defs + AltsPlain(r.alts, n).defs)
  {
    var k, more, d := |P|, AltsPlain(r.alts, n).defs, Rewrite(r, n, bar);
    RewritingsMore(P, ns, bars, r, n, bar);
    DefProdsJoin(defs, more);
    assert [] + DefProds(more) == DefProds(more);
    Splice(Rewritings(P, ns, bars), g0, k, DefProds(defs), DefProd(d), lp);
    var P', ns' := P + [r], ns + [n];
    forall i | 0 <= i < |P'| ensures AllIn(AltsPlain(P'[i].alts, ns'[i]).defs, defs + more) {
      if i < k { assert AllIn(AltsPlain(P[i].alts, ns[i]).defs, defs); }
    }
  }

  lemma RewritingsMore(P: seq<Reading>, ns: seq<nat>, bars: seq<bool>, r: Reading, n: nat, bar: bool)
    requires |P| == |ns| == |bars|
    ensures Rewritings(P + [r], ns + [n], bars + [bar]) == Rewritings(P, ns, bars) + [DefProd(Rewrite(r, n, bar))]
  {
    var d := Rewrite(r, n, bar);
    assert RewriteAll(P + [r], ns + [n], bars + [bar]) == RewriteAll(P, ns, bars) + [d];
    DefProdsJoin(RewriteAll(P, ns, bars), [d]);
    assert DefProds([d]) == [DefProd(d)];
  }

  lemma Splice(done: seq<Production>, g0: seq<Production>, k: nat, after: seq<Production>, p: Production,
        lp: seq<Production>)
    requires |done| == k < |g0|
    ensures (done + g0[k..] + after)[k := p] + lp == (done + [p]) + g0[k + 1..] + (after + lp)
  {
  }

  /** All productions are about nonterminals below n, and about the empty word only if eps is true. */
  predicate GrammarIn(g: seq<Production>, n: nat, eps: bool) {
    forall i :: 0 <= i < |g| ==> g[i].head < n && ToksIn(g[i].toks, n, eps)
  }

  /** The readings of all productions, if they are known. */
  ghost predicate WantAll(want: Option<seq<Reading>>, g: seq<Production>) {
    want.Some? ==> |want.value| == |g| && forall i :: 0 <= i < |g| ==> ReadsAs(g[i], want.value[i], false)
  }

  function WantOne(want: Option<seq<Reading>>, k: nat): Want<Alts>
    requires want.Some? ==> k < |want.value|
  {
    if want.None? then Any else Known(want.value[k].alts, [])
  }

  lemma ReadSound(p: Production, r: Reading, bar: bool, n0: nat, n: nat, eps: bool, defs: seq<Def>)
    requires ReadsAs(p, r, bar) && ToksIn(p.toks, n0, eps) && FreshDefs(defs, n0, n) && AllSolid(defs, eps)
    ensures var c := AltsPlain(r.alts, n);
      FreshDefs(defs + c.defs, n0, c.next) && AllSolid(defs + c.defs, eps)
  {
    ToksInParts(AltsToks(r.alts), if bar then [Bar] else [], n0, eps);
    AltsToksIn(r.alts, n0, eps);
    AltsSound(r.alts, n0, n, eps);
    var c := AltsPlain(r.alts, n);
    FreshJoin(defs, c.defs, n0, n, c.next);
    SolidJoin(defs, c.defs, eps);
  }

  /** What has been swept, and that it is what was expected. */
  ghost predicate Progress(g: seq<Production>, g0: seq<Production>, P: seq<Reading>, ns: seq<nat>, bars: seq<bool>,
        defs: seq<Def>, n0: nat, n: nat, eps: bool, want: Option<seq<Reading>>)
  {
    && Swept(g, g0, P, ns, bars, defs) && FreshDefs(defs, n0, n) && AllSolid(defs, eps) && Expected(P, bars, want)
  }

  ghost predicate Expected(P: seq<Reading>, bars: seq<bool>, want: Option<seq<Reading>>) {
    want.Some? ==> |P| <= |want.value| && P == want.value[..|P|] && forall i :: 0 <= i < |bars| ==> !bars[i]
  }

  lemma ProgressMore(g: seq<Production>, g0: seq<Production>, P: seq<Reading>, ns: seq<nat>, bars: seq<bool>,
        defs: seq<Def>, n0: nat, n: nat, eps: bool, want: Option<seq<Reading>>, a: Alts, bar: bool,
        lp: seq<Production>, n': nat)
    requires Progress(g, g0, P, ns, bars, defs, n0, n, eps, want) && GrammarIn(g0, n0, eps) && WantAll(want, g0)
    requires |P| < |g0|
    requires ReadsAs(g0[|P|], Reading(g0[|P|].head, a), bar) && Built([], lp, n', AltsPlain(a, n))
    requires want.Some? ==> !bar && a == want.value[|P|].alts
    ensures var r := Reading(g0[|P|].head, a);
      Progress(g[|P| := DefProd(Rewrite(r, n, bar))] + lp, g0, P + [r], ns + [n], bars + [bar],
        defs + AltsPlain(a, n).defs, n0, n', eps, want)
  {
    var k, r := |P|, Reading(g0[|P|].head, a);
    SweptMore(g, g0, P, ns, bars, defs, r, n, bar, lp, n');
    GrammarAt(g0, n0, eps, k);
    ReadSound(g0[k], r, bar, n0, n, eps, defs);
    if want.Some? {
      assert ReadsAs(g0[k], want.value[k], false);
      assert P + [r] == want.value[..k + 1];
    }
  }

  lemma ProgressAt(g: seq<Production>, g0: seq<Production>, P: seq<Reading>, ns: seq<nat>, bars: seq<bool>,
        defs: seq<Def>, n0: nat, n: nat, eps: bool, want: Option<seq<Reading>>, k: nat)
    requires Progress(g, g0, P, ns, bars, defs, n0, n, eps, want) && |P| <= k < |g|
    ensures |g| == |g0| + |defs| && (k < |g0| ==> g[k] == g0[k])
    ensures k >= |g0| ==> |defs[k - |g0|].alts| > 0 && g[k] == DefProd(defs[k - |g0|])
    ensures k >= |g0| ==> forall s :: s in defs[k - |g0|].alts ==> |s| > 0
  {
    SweptAt(g, g0, P, ns, bars, defs, k);
    if k >= |g0| { SolidAt(defs, eps, k - |g0|); }
  }

  lemma ProgressStart(g: seq<Production>, n: nat, eps: bool, want: Option<seq<Reading>>)
    ensures Progress(g, g, [], [], [], [], n, n, eps, want)
  {
    assert Rewritings([], [], []) + g[0..] + DefProds([]) == g;
  }

  /** Rewrites all productions, the new ones included. */
  method TransformEbnf(g0: seq<Production>, n0: nat, ghost eps: bool, ghost want: Option<seq<Reading>>)
    returns (ok: bool, g: seq<Production>, n: nat, ghost P: seq<Reading>, ghost ns: seq<nat>,
      ghost bars: seq<bool>, ghost defs: seq<Def>)
    requires GrammarIn(g0, n0, eps) && WantAll(want, g0)
    ensures ok ==> Progress(g, g0, P, ns, bars, defs, n0, n, eps, want) && |P| == |g0|
    ensures want.Some? ==> ok
  {
    ok, g, n, P, ns, bars, defs := true, g0, n0, [], [], [], [];
    ProgressStart(g0, n0, eps, want);
    hide Progress, GrammarIn, WantAll, Built;
    var k := 0;
    while k != |g|
      invariant k <= |g| && |g0| <= |g| && |P| == (if k < |g0| then k else |g0|) && ok
      invariant Progress(g, g0, P, ns, bars, defs, n0, n, eps, want)
      decreases |g0| - |P|, |g| - k
    {
      var lp, p;
      ProgressAt(g, g0, P, ns, bars, defs, n0, n, eps, want, k);
      if k < |g0| {
        ghost var m := n;
        ghost var a, bar;
        WantedOne(want, g0, k);
        ok, p, lp, n, a, bar := Visit(g[k], n, WantOne(want, k));
        if !ok { return; }
        ProgressMore(g, g0, P, ns, bars, defs, n0, m, eps, want, a, bar, lp, n);
        P, ns, bars, defs := P + [Reading(g0[k].head, a)], ns + [m], bars + [bar], defs + AltsPlain(a, m).defs;
      } else {
        ok, p, lp, n := VisitPlain(g[k], n, defs[k - |g0|]);
        assert g[k := p] + lp == g;
      }
      g := g[k := p] + lp;
      k := k + 1;
    }
  }

  lemma GrammarAt(g: seq<Production>, n: nat, eps: bool, k: nat)
    requires GrammarIn(g, n, eps) && k < |g|
    ensures g[k].head < n && ToksIn(g[k].toks, n, eps)
  {
  }

  lemma SolidAt(defs: seq<Def>, eps: bool, k: nat)
    requires AllSolid(defs, eps) && k < |defs|
    ensures |defs[k].alts| > 0 && forall s :: s in defs[k].alts ==> |s| > 0
  {
    assert defs[k] in defs && DefSolid(defs[k], eps);
    forall s | s in defs[k].alts ensures |s| > 0 { assert Solid(s, eps); }
  }

  lemma SweptAt(g: seq<Production>, g0: seq<Production>, P: seq<Reading>, ns: seq<nat>, bars: seq<bool>,
        defs: seq<Def>, k: nat)
    requires Swept(g, g0, P, ns, bars, defs) && |P| <= k < |g|
    ensures |g| == |g0| + |defs|
    ensures k < |g0| ==> g[k] == g0[k]
    ensures k >= |g0| ==> g[k] == DefProd(defs[k - |g0|])
  {
  }

  lemma WantedOne(want: Option<seq<Reading>>, g: seq<Production>, k: nat)
    requires WantAll(want, g) && k < |g|
    ensures (want.Some? ==> k < |want.value|) && WantAlts(WantOne(want, k), g[k].toks)
    ensures want.Some? ==> want.value[k] == Reading(g[k].head, want.value[k].alts)
  {
    if want.Some? { assert ReadsAs(g[k], want.value[k], false); }
  }

  // ----- splitting at the bars

  ghost predicate HasAlt(defs: seq<Def>, a: nat, s: seq<Lit>) {
    exists i :: 0 <= i < |defs| && defs[i].head == a && s in defs[i].alts
  }

  lemma HasAltJoin(d: seq<Def>, e: seq<Def>, a: nat, s: seq<Lit>)
    ensures HasAlt(d + e, a, s) <==> HasAlt(d, a, s) || HasAlt(e, a, s)
  {
    if i :| 0 <= i < |d| && d[i].head == a && s in d[i].alts { assert (d + e)[i] == d[i]; }
    if i :| 0 <= i < |e| && e[i].head == a && s in e[i].alts { var j := |d| + i; assert (d + e)[j] == e[i]; }
  }

  /** How many bars there are. */
  function Bars(defs: seq<Def>): nat
    requires DefsOk(defs)
  {
    if defs == [] then 0 else Bars(defs[..|defs| - 1]) + |defs[|defs| - 1].alts| - 1
  }

  lemma {:induction false} BarsJoin(d: seq<Def>, e: seq<Def>)
    requires DefsOk(d) && DefsOk(e)
    ensures Bars(d + e) == Bars(d) + Bars(e)
    decreases |e|
  {
    if e == [] {
      assert d + e == d;
    } else {
      var n := |e| - 1;
      assert (d + e)[..|d + e| - 1] == d + e[..n];
      BarsJoin(d, e[..n]);
    }
  }

  /** The first bar, or the end. */
  method FindBar(toks: seq<Tok>) returns (n: nat)
    ensures n <= |toks| && (n < |toks| ==> toks[n] == Bar) && (forall j :: 0 <= j < n ==> toks[j] != Bar)
  {
    n := 0;
    while n < |toks| && toks[n] != Bar
      invariant n <= |toks| && (forall j :: 0 <= j < n ==> toks[j] != Bar)
    {
      n := n + 1;
    }
  }

  lemma FlatOne(alts: seq<seq<Lit>>)
    requires |alts| == 1
    ensures FlatToks(alts) == LitToks(alts[0])
  {
  }

  /** The first bar separates the first alternative from the others. */
  lemma SplitAt(alts: seq<seq<Lit>>, n: nat)
    requires |alts| > 0 && n <= |FlatToks(alts)| && (n < |FlatToks(alts)| ==> FlatToks(alts)[n] == Bar)
    requires forall j :: 0 <= j < n ==> FlatToks(alts)[j] != Bar
    ensures |alts| == 1 <==> n == |FlatToks(alts)|
    ensures |alts| > 1 ==> FlatToks(alts)[..n] == LitToks(alts[0]) && FlatToks(alts)[n + 1..] == FlatToks(alts[1..])
  {
    var f, first := FlatToks(alts), LitToks(alts[0]);
    forall j | 0 <= j < |first| ensures first[j] != Bar {}
    hide FlatToks, LitToks;
    if |alts| == 1 {
      assert f == first by { FlatOne(alts); }
    } else {
      FlatOne([alts[0]]);
      FlatJoin([alts[0]], alts[1..]);
      assert alts == [alts[0]] + alts[1..];
      assert f == first + [Bar] + FlatToks(alts[1..]);
      assert f[|first|] == Bar;
      assert n == |first|;
    }
  }

  function Halves(d: Def): seq<Def>
    requires |d.alts| > 1
  {
    [Def(d.head, d.alts[..1]), Def(d.head, d.alts[1..])]
  }

  lemma BarsThree(d: seq<Def>, e: seq<Def>, f: seq<Def>)
    requires DefsOk(d) && DefsOk(e) && DefsOk(f)
    ensures DefsOk(d + e + f) && Bars(d + e + f) == Bars(d) + Bars(e) + Bars(f)
  {
    BarsJoin(d + e, f);
    BarsJoin(d, e);
  }

  lemma HalvesBars(d: Def)
    requires |d.alts| > 1
    ensures DefsOk(Halves(d)) && Bars(Halves(d)) < Bars([d])
  {
    var two := Halves(d);
    assert [d][..0] == [] && Bars([d]) == |d.alts| - 1;
    assert two[..1] == [two[0]] && [two[0]][..0] == [] && Bars(two) == |d.alts| - 2;
  }

  /** There is one bar less. */
  lemma SplitBars(defs: seq<Def>, k: nat)
    requires DefsOk(defs) && k < |defs| && |defs[k].alts| > 1
    ensures DefsOk(defs[..k] + defs[k + 1..] + Halves(defs[k]))
    ensures Bars(defs[..k] + defs[k + 1..] + Halves(defs[k])) < Bars(defs)
  {
    hide Bars, Halves;
    HalvesBars(defs[k]);
    BarsThree(defs[..k], defs[k + 1..], Halves(defs[k]));
    BarsThree(defs[..k], [defs[k]], defs[k + 1..]);
    assert defs == defs[..k] + [defs[k]] + defs[k + 1..];
  }

  /** The alternatives are the same. */
  lemma SplitAlts(defs: seq<Def>, k: nat, a: nat, s: seq<Lit>)
    requires k < |defs| && |defs[k].alts| > 1
    ensures HasAlt(defs[..k] + defs[k + 1..] + Halves(defs[k]), a, s) <==> HasAlt(defs, a, s)
  {
    var d, before, after := defs[k], defs[..k], defs[k + 1..];
    hide HasAlt;
    assert defs == before + ([d] + after);
    SplitAlt(d, a, s);
    HasAltJoin(before + after, Halves(d), a, s);
    HasAltJoin(before, after, a, s);
    HasAltJoin([d], after, a, s);
    HasAltJoin(before, [d] + after, a, s);
  }

  lemma SplitAlt(d: Def, a: nat, s: seq<Lit>)
    requires |d.alts| > 1
    ensures HasAlt(Halves(d), a, s) <==> HasAlt([d], a, s)
  {
    var two := Halves(d);
    assert d.alts == d.alts[..1] + d.alts[1..];
    if HasAlt([d], a, s) { assert [d][0].head == a && (s in two[0].alts || s in two[1].alts); }
    if HasAlt(two, a, s) { assert [d][0].head == a && s in [d][0].alts; }
  }

  /** A production without a right-hand side is reported. */
  ghost predicate NoneEmpty(defs: seq<Def>) {
    forall i, s :: 0 <= i < |defs| && s in defs[i].alts ==> s != []
  }

  /** The first k productions have a single alternative each. */
  ghost predicate Single(defs: seq<Def>, k: nat) {
    k <= |defs| && forall i :: 0 <= i < k ==> |defs[i].alts| == 1
  }

  /** Splits the k-th production at its first bar. */
  method SplitOne(g: seq<Production>, k: nat, n: nat, ghost defs: seq<Def>)
    returns (g': seq<Production>, ghost defs': seq<Def>)
    requires DefsOk(defs) && g == DefProds(defs) && k < |g| && Single(defs, k)
    requires n < |g[k].toks| && g[k].toks[n] == Bar && forall j :: 0 <= j < n ==> g[k].toks[j] != Bar
    ensures DefsOk(defs') && g' == DefProds(defs') && Single(defs', k) && Bars(defs') < Bars(defs)
    ensures forall i :: 0 <= i < k ==> defs'[i] == defs[i]
    ensures forall a, s :: HasAlt(defs', a, s) <==> HasAlt(defs, a, s)
  {
    var p := g[k];
    ghost var d := defs[k];
    assert p == DefProd(d);
    SplitAt(d.alts, n);
    hide HasAlt, Bars, FlatToks, LitToks, DefProd, Halves;
    g' := g + [Production(p.head, p.toks[..n])] + [Production(p.head, p.toks[n + 1..])];
    g' := g'[..k] + g'[k + 1..];
    defs' := defs[..k] + defs[k + 1..] + Halves(d);
    SplitBars(defs, k);
    SplitProds(defs, k);
    HalvesProds(d);
    forall a, s ensures HasAlt(defs', a, s) <==> HasAlt(defs, a, s) { SplitAlts(defs, k, a, s); }
  }

  lemma SplitProds(defs: seq<Def>, k: nat)
    requires DefsOk(defs) && k < |defs| && |defs[k].alts| > 1
    ensures DefsOk(defs[..k] + defs[k + 1..] + Halves(defs[k])) && DefsOk(Halves(defs[k]))
    ensures DefProds(defs[..k] + defs[k + 1..] + Halves(defs[k])) ==
      DefProds(defs)[..k] + DefProds(defs)[k + 1..] + DefProds(Halves(defs[k]))
  {
    DefProdsJoin(defs[..k] + defs[k + 1..], Halves(defs[k]));
    DefProdsJoin(defs[..k], defs[k + 1..]);
  }

  lemma HalvesProds(d: Def)
    requires |d.alts| > 1
    ensures DefProds(Halves(d)) ==
      [Production(d.head, LitToks(d.alts[0]))] + [Production(d.head, FlatToks(d.alts[1..]))]
  {
    var two := Halves(d);
    assert DefProds(two) == [DefProd(two[0])] + [DefProd(two[1])];
  }

  /** Splits every production at its bars, and reports those without a right-hand side. */
  method TransformAlts(g0: seq<Production>, ghost defs0: seq<Def>)
    returns (ok: bool, g: seq<Production>, ghost defs: seq<Def>)
    requires DefsOk(defs0) && g0 == DefProds(defs0)
    ensures DefsOk(defs) && g == DefProds(defs) && Single(defs, |defs|)
    ensures forall a, s :: HasAlt(defs, a, s) <==> HasAlt(defs0, a, s)
    ensures ok <==> NoneEmpty(defs)
  {
    ok, g, defs := true, g0, defs0;
    var k := 0;
    while k != |g|
      invariant k <= |g| && DefsOk(defs) && g == DefProds(defs) && Single(defs, k)
      invariant ok <==> forall i :: 0 <= i < k ==> defs[i].alts[0] != []
      invariant forall a, s :: HasAlt(defs, a, s) <==> HasAlt(defs0, a, s)
      decreases Bars(defs), |g| - k
    {
      var empty := |g[k].toks| == 0;
      var n := FindBar(g[k].toks);
      SplitAt(defs[k].alts, n);
      if n == |g[k].toks| {
        assert g[k] == DefProd(defs[k]) && g[k].toks == LitToks(defs[k].alts[0]);
        if empty { ok := false; }
        k := k + 1;
      } else {
        g, defs := SplitOne(g, k, n, defs);
      }
    }
    forall i | 0 <= i < |defs| ensures defs[i].alts == [defs[i].alts[0]] && defs[i].alts[0] in defs[i].alts {}
  }

  // ----- the plain grammar

  predicate AllSyms(s: seq<Tok>) {
    forall t :: t in s ==> t.Sym?
  }

  /** The symbols of a right-hand side without bars, brackets or repetitions. */
  function Symbols(s: seq<Tok>): seq<Lit>
    requires AllSyms(s)
  {
    seq(|s|, i requires 0 <= i < |s| => assert s[i] in s; s[i].l)
  }

  predicate AllPlain(g: seq<Production>) {
    forall i :: 0 <= i < |g| ==> AllSyms(g[i].toks)
  }

  function ToProds(g: seq<Production>): Prods
    requires AllPlain(g)
  {
    seq(|g|, i requires 0 <= i < |g| => [NT(g[i].head)] + Symbols(g[i].toks))
  }

  lemma SymbolsOf(s: seq<Lit>)
    ensures AllSyms(LitToks(s)) && Symbols(LitToks(s)) == s
  {
  }

  /** The productions of a nonterminal are its alternatives. */
  lemma ProdsHave(g: seq<Production>, defs: seq<Def>)
    requires DefsOk(defs) && g == DefProds(defs) && Single(defs, |defs|)
    ensures AllPlain(g) && forall a: nat, s :: M.Has(ToProds(g), a, s) <==> HasAlt(defs, a, s)
    ensures forall p :: 0 <= p < |g| ==>
      |ToProds(g)[p]| > 0 && ToProds(g)[p][0].NT? && HasAlt(defs, g[p].head, ToProds(g)[p][1..])
  {
    forall i | 0 <= i < |g|
      ensures AllSyms(g[i].toks) && Symbols(g[i].toks) == defs[i].alts[0] && defs[i].alts == [defs[i].alts[0]]
      ensures g[i].head == defs[i].head
    {
      assert g[i] == DefProd(defs[i]);
      SymbolsOf(defs[i].alts[0]);
    }
    var G := ToProds(g);
    forall i | 0 <= i < |g| ensures G[i][1..] == defs[i].alts[0] && G[i][0] == NT(defs[i].head) {}
    forall a: nat, s ensures M.Has(G, a, s) <==> HasAlt(defs, a, s) {
      if HasAlt(defs, a, s) {
        var i: nat :| i < |defs| && defs[i].head == a && s in defs[i].alts;
        assert Uses(G, a, i) && G[i][1..] == s;
      }
      if M.Has(G, a, s) {
        var p: nat :| Uses(G, a, p) && G[p][1..] == s;
        assert s in defs[p].alts;
      }
    }
  }

  /** A fresh nonterminal has the alternatives of its definition and no others. */
  lemma FreshExact(old0: seq<Def>, defs: seq<Def>, n0: nat, n: nat, d: Def, s: seq<Lit>)
    requires FreshDefs(defs, n0, n) && d in defs && forall i :: 0 <= i < |old0| ==> old0[i].head < n0
    ensures HasAlt(old0 + defs, d.head, s) <==> s in d.alts
  {
    var k :| 0 <= k < |defs| && defs[k] == d;
    HasAltJoin(old0, defs, d.head, s);
    if s in d.alts { assert defs[k].head == d.head && s in defs[k].alts; }
    if i :| 0 <= i < |defs| && defs[i].head == d.head && s in defs[i].alts { assert i == k; }
  }

  lemma OldExact(P: seq<Reading>, ns: seq<nat>, bars: seq<bool>, defs: seq<Def>, n0: nat, n: nat, a: nat, s: seq<Lit>)
    requires |P| == |ns| == |bars| && FreshDefs(defs, n0, n) && a < n0 && NoBars(bars)
    ensures HasAlt(RewriteAll(P, ns, bars) + defs, a, s) <==> M.HasPlain(P, ns, a, s)
  {
    var old0 := RewriteAll(P, ns, bars);
    HasAltJoin(old0, defs, a, s);
    forall i | 0 <= i < |P| ensures old0[i].head == P[i].head && old0[i].alts == AltsPlain(P[i].alts, ns[i]).s {
      assert AltsPlain(P[i].alts, ns[i]).s + [] == AltsPlain(P[i].alts, ns[i]).s;
    }
    if HasAlt(old0, a, s) {
      var i :| 0 <= i < |old0| && old0[i].head == a && s in old0[i].alts;
      assert P[i].head == a && s in AltsPlain(P[i].alts, ns[i]).s;
    }
    if p :| 0 <= p < |P| && P[p].head == a && s in AltsPlain(P[p].alts, ns[p]).s {
      assert old0[p].head == a && s in old0[p].alts;
    }
  }

  /** With a bar at the end of a production there is an empty alternative. */
  lemma NoBarsAtEnd(P: seq<Reading>, ns: seq<nat>, bars: seq<bool>, defs: seq<Def>, k: nat)
    requires |P| == |ns| == |bars| && k < |bars| && bars[k]
    ensures HasAlt(RewriteAll(P, ns, bars) + defs, P[k].head, [])
  {
    var all := RewriteAll(P, ns, bars) + defs;
    assert all[k] == Rewrite(P[k], ns[k], true) && [] in all[k].alts;
  }

  /** The plain grammar holds exactly the plain forms of the readings. */
  lemma DesugaredPlain(G: Prods, split: seq<Def>, g: seq<Production>, g0: seq<Production>, P: seq<Reading>,
        ns: seq<nat>, bars: seq<bool>, defs: seq<Def>, n0: nat, n: nat, eps: bool, want: Option<seq<Reading>>)
    requires Progress(g, g0, P, ns, bars, defs, n0, n, eps, want) && |P| == |g0| && GrammarIn(g0, n0, eps)
    requires NoBars(bars)
    requires forall a: nat, s :: M.Has(G, a, s) <==> HasAlt(split, a, s)
    requires SameAlts(RewriteAll(P, ns, bars) + defs, split)
    ensures M.PlainOf(G, P, ns, n0)
  {
    var old0 := RewriteAll(P, ns, bars);
    forall i | 0 <= i < |P|
      ensures P[i].head < n0 && AltsBelow(P[i].alts, n0) && AltsOk(P[i].alts) && old0[i].head < n0
    {
      GrammarAt(g0, n0, eps, i);
      assert ReadsAs(g0[i], P[i], bars[i]);
      ToksInParts(AltsToks(P[i].alts), [], n0, eps);
      AltsToksIn(P[i].alts, n0, eps);
    }
    forall p | 0 <= p < |P| ensures M.AllExact(G, AltsPlain(P[p].alts, ns[p]).defs) {
      assert AllIn(AltsPlain(P[p].alts, ns[p]).defs, defs);
      forall d | d in AltsPlain(P[p].alts, ns[p]).defs ensures M.Exact(G, d) {
        forall s ensures M.Has(G, d.head, s) <==> s in d.alts { FreshExact(old0, defs, n0, n, d, s); }
      }
    }
    forall a: nat, s | a < n0 ensures M.Has(G, a, s) <==> M.HasPlain(P, ns, a, s) {
      OldExact(P, ns, bars, defs, n0, n, a, s);
    }
  }

  /** Every alternative is solid, so the parser accepts the grammar if the source does not mention the empty word. */
  lemma DesugaredOk(g: seq<Production>, g0: seq<Production>, P: seq<Reading>, ns: seq<nat>, bars: seq<bool>,
        defs: seq<Def>, n0: nat, n: nat, eps: bool, want: Option<seq<Reading>>, a: nat, s: seq<Lit>)
    requires Progress(g, g0, P, ns, bars, defs, n0, n, eps, want) && |P| == |g0| && GrammarIn(g0, n0, eps)
    requires NoBars(bars)
    requires HasAlt(RewriteAll(P, ns, bars) + defs, a, s)
    ensures Solid(s, eps)
  {
    var old0 := RewriteAll(P, ns, bars);
    HasAltJoin(old0, defs, a, s);
    if i :| 0 <= i < |old0| && old0[i].head == a && s in old0[i].alts {
      GrammarAt(g0, n0, eps, i);
      assert ReadsAs(g0[i], P[i], bars[i]);
      ToksInParts(AltsToks(P[i].alts), [], n0, eps);
      AltsToksIn(P[i].alts, n0, eps);
      AltsSound(P[i].alts, n0, ns[i], eps);
      assert s in AltsPlain(P[i].alts, ns[i]).s;
    } else {
      var i :| 0 <= i < |defs| && defs[i].head == a && s in defs[i].alts;
      assert DefSolid(defs[i], eps);
    }
  }

  lemma SweptAll(g: seq<Production>, g0: seq<Production>, P: seq<Reading>, ns: seq<nat>, bars: seq<bool>,
        defs: seq<Def>)
    requires Swept(g, g0, P, ns, bars, defs) && |P| == |g0|
    ensures DefsOk(RewriteAll(P, ns, bars) + defs) && g == DefProds(RewriteAll(P, ns, bars) + defs)
  {
    DefProdsJoin(RewriteAll(P, ns, bars), defs);
    assert g0[|P|..] == [];
  }

  ghost predicate NoBars(bars: seq<bool>) {
    forall i :: 0 <= i < |bars| ==> !bars[i]
  }

  ghost predicate SameAlts(defs: seq<Def>, defs': seq<Def>) {
    forall a, s :: HasAlt(defs', a, s) <==> HasAlt(defs, a, s)
  }

  /** No empty alternatives means no bars at the ends. */
  lemma NoneEmptyNoBars(P: seq<Reading>, ns: seq<nat>, bars: seq<bool>, defs: seq<Def>, split: seq<Def>)
    requires |P| == |ns| == |bars| && SameAlts(RewriteAll(P, ns, bars) + defs, split) && NoneEmpty(split)
    ensures NoBars(bars)
  {
    forall i | 0 <= i < |bars| ensures !bars[i] {
      if bars[i] {
        NoBarsAtEnd(P, ns, bars, defs, i);
      }
    }
  }

  /** What was expected has no bars at the ends, so no alternative is empty. */
  lemma ExpectedNoneEmpty(split: seq<Def>, g: seq<Production>, g0: seq<Production>, P: seq<Reading>, ns: seq<nat>,
        bars: seq<bool>, defs: seq<Def>, n0: nat, n: nat, eps: bool, want: Option<seq<Reading>>)
    requires Progress(g, g0, P, ns, bars, defs, n0, n, eps, want) && |P| == |g0| && GrammarIn(g0, n0, eps)
    requires NoBars(bars) && SameAlts(RewriteAll(P, ns, bars) + defs, split)
    ensures NoneEmpty(split)
  {
    forall i, s | 0 <= i < |split| && s in split[i].alts ensures s != [] {
      assert HasAlt(split, split[i].head, s);
      DesugaredOk(g, g0, P, ns, bars, defs, n0, n, eps, want, split[i].head, s);
    }
  }

  lemma DesugaredFine(G: Prods, h: seq<Production>, split: seq<Def>, g: seq<Production>, g0: seq<Production>,
    P: seq<Reading>, ns: seq<nat>, bars: seq<bool>, defs: seq<Def>, n0: nat, n: nat, want: Option<seq<Reading>>)
    requires Progress(g, g0, P, ns, bars, defs, n0, n, false, want) && |P| == |g0| && GrammarIn(g0, n0, false)
    requires NoBars(bars) && SameAlts(RewriteAll(P, ns, bars) + defs, split) && |G| == |h|
    requires forall p :: 0 <= p < |G| ==> |G[p]| > 0 && G[p][0].NT? && HasAlt(split, h[p].head, G[p][1..])
    ensures GrammarOk(G)
  {
    forall p | 0 <= p < |G| ensures ProdOk(G[p]) {
      var s := G[p][1..];
      DesugaredOk(g, g0, P, ns, bars, defs, n0, n, false, want, h[p].head, s);
      assert Solid(s, false) && G[p] == [G[p][0]] + s;
      forall k | 1 <= k < |G[p]| && G[p][k] == Ch(EPSILON) ensures |G[p]| == 2 { assert s[k - 1] in s; }
    }
  }

  lemma DesugaredReads(g: seq<Production>, g0: seq<Production>, P: seq<Reading>, ns: seq<nat>, bars: seq<bool>,
        defs: seq<Def>)
    requires Swept(g, g0, P, ns, bars, defs) && |P| == |g0| && NoBars(bars)
    ensures WantAll(Some(P), g0)
  {
    forall i | 0 <= i < |g0| ensures ReadsAs(g0[i], P[i], false) { assert ReadsAs(g0[i], P[i], bars[i]); }
  }

  lemma DesugaredMeans(G: Prods, P: seq<Reading>, ns: seq<nat>, n: nat)
    requires M.PlainOf(G, P, ns, n)
    ensures forall a: nat, w, i: nat, j: nat :: a < n ==> (Derives(G, NT(a), w, i, j) <==> Yields(P, a, w, i, j))
  {
    forall a: nat, w, i: nat, j: nat | a < n ensures Derives(G, NT(a), w, i, j) <==> Yields(P, a, w, i, j) {
      M.PlainMeans(G, P, ns, n, a, w, i, j);
    }
  }

  /** Turns a grammar with brackets, repetition and alternatives into a plain one. It fails exactly on a production
      that has no reading; otherwise every nonterminal of the grammar derives the words it yields, and only them. */
  method Desugar(g0: seq<Production>, n0: nat, ghost eps: bool, ghost want: Option<seq<Reading>>)
    returns (ok: bool, G: Prods, ghost P: seq<Reading>)
    requires GrammarIn(g0, n0, eps) && WantAll(want, g0)
    ensures ok ==> WantAll(Some(P), g0)
    ensures ok ==> forall a: nat, w, i: nat, j: nat :: a < n0 ==>
      (Derives(G, NT(a), w, i, j) <==> Yields(P, a, w, i, j))
    ensures ok && !eps ==> GrammarOk(G)
    ensures want.Some? ==> ok && P == want.value
  {
    ghost var ns, bars, defs;
    var g, n;
    ok, g, n, P, ns, bars, defs := TransformEbnf(g0, n0, eps, want);
    G := [];
    if !ok { return; }
    assert want.Some? ==> NoBars(bars) && P == want.value;
    SweptAll(g, g0, P, ns, bars, defs);
    ghost var all := RewriteAll(P, ns, bars) + defs;
    var h;
    ghost var split;
    ok, h, split := TransformAlts(g, all);
    assert SameAlts(all, split);
    ProdsHave(h, split);
    G := ToProds(h);
    hide Progress, Swept, HasAlt, GrammarIn, NoneEmpty, Yields, Derives, GrammarOk, ToProds;
    if NoBars(bars) { ExpectedNoneEmpty(split, g, g0, P, ns, bars, defs, n0, n, eps, want); }
    if !ok { return; }
    NoneEmptyNoBars(P, ns, bars, defs, split);
    DesugaredReads(g, g0, P, ns, bars, defs);
    DesugaredPlain(G, split, g, g0, P, ns, bars, defs, n0, n, eps, want);
    DesugaredMeans(G, P, ns, n0);
    if !eps { DesugaredFine(G, h, split, g, g0, P, ns, bars, defs, n0, n, want); }
  }
}
