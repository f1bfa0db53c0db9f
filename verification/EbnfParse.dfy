/** Rewriting productions to plain form while reading them. */
module EbnfParse {
  import opened Grammar
  import opened Ebnf

  datatype Production = Production(head: nat, toks: seq<Tok>)

  function LitToks(s: seq<Lit>): (r: seq<Tok>)
    ensures |r| == |s|
  {
    seq(|s|, i requires 0 <= i < |s| => Sym(s[i]))
  }

  /** Alternatives as they are written. */
  function FlatToks(alts: seq<seq<Lit>>): seq<Tok>
    requires |alts| > 0
  {
    var n := |alts| - 1;
    if n == 0 then LitToks(alts[0]) else FlatToks(alts[..n]) + [Bar] + LitToks(alts[n])
  }

  function DefProd(d: Def): Production
    requires |d.alts| > 0
  {
    Production(d.head, FlatToks(d.alts))
  }

  predicate DefsOk(defs: seq<Def>) {
    forall i :: 0 <= i < |defs| ==> |defs[i].alts| > 0
  }

  function DefProds(defs: seq<Def>): seq<Production>
    requires DefsOk(defs)
  {
    seq(|defs|, i requires 0 <= i < |defs| => DefProd(defs[i]))
  }

  lemma DefProdsJoin(d: seq<Def>, e: seq<Def>)
    requires DefsOk(d) && DefsOk(e)
    ensures DefsOk(d + e) && DefProds(d + e) == DefProds(d) + DefProds(e)
  {
  }

  lemma LitToksJoin(s: seq<Lit>, t: seq<Lit>)
    ensures LitToks(s + t) == LitToks(s) + LitToks(t)
  {
  }

  lemma FlatMore(alts: seq<seq<Lit>>, s: seq<Lit>)
    requires |alts| > 0
    ensures FlatToks(alts + [s]) == FlatToks(alts) + [Bar] + LitToks(s)
  {
    assert (alts + [s])[..|alts|] == alts;
  }

  lemma {:induction false} FlatBars(alts: seq<seq<Lit>>)
    requires |alts| > 0
    ensures Bar in FlatToks(alts) <==> |alts| > 1
  {
    var n := |alts| - 1;
    forall t | t in LitToks(alts[n]) ensures t != Bar { var i :| 0 <= i < |alts[n]| && LitToks(alts[n])[i] == t; }
  }

  lemma {:induction false} FlatJoin(a: seq<seq<Lit>>, b: seq<seq<Lit>>)
    requires |a| > 0 && |b| > 0
    ensures FlatToks(a + b) == FlatToks(a) + [Bar] + FlatToks(b)
    decreases |b|
  {
    var n := |b| - 1;
    if n == 0 {
      assert b == [b[0]];
      FlatMore(a, b[0]);
    } else {
      FlatJoin(a, b[..n]);
      FlatMore(a + b[..n], b[n]);
      assert a + b[..n] + [b[n]] == a + b;
    }
  }

  // ----- readings grown to the right

  datatype Option<A> = None | Some(value: A)

  function Snoc(a: Alt, f: Factor): Alt {
    match a case Last(g) => Then(g, Last(f)) case Then(g, rest) => Then(g, Snoc(rest, f))
  }

  function Chain(a: Alt, b: Alt): Alt {
    match a case Last(g) => Then(g, b) case Then(g, rest) => Then(g, Chain(rest, b))
  }

  function AddFactor(done: Option<Alt>, f: Factor): Alt {
    if done.None? then Last(f) else Snoc(done.value, f)
  }

  function SnocAlt(a: Alts, b: Alt): Alts {
    match a case One(c) => Or(c, One(b)) case Or(c, rest) => Or(c, SnocAlt(rest, b))
  }

  function ChainAlts(a: Alts, b: Alts): Alts {
    match a case One(c) => Or(c, b) case Or(c, rest) => Or(c, ChainAlts(rest, b))
  }

  function AddAlt(done: Option<Alts>, a: Alt): Alts {
    if done.None? then One(a) else SnocAlt(done.value, a)
  }

  lemma {:induction false} SnocMeans(a: Alt, f: Factor, n: nat)
    ensures AltToks(Snoc(a, f)) == AltToks(a) + FactorToks(f) && (AltOk(a) && FactorOk(f) ==> AltOk(Snoc(a, f)))
    ensures var c := AltPlain(a, n);
      var d := FactorPlain(f, c.next);
      AltPlain(Snoc(a, f), n) == Out(c.s + d.s, c.defs + d.defs, d.next)
  {
    if a.Then? {
      var c := FactorPlain(a.f, n);
      SnocMeans(a.next, f, c.next);
      var e := AltPlain(a.next, c.next);
      var d := FactorPlain(f, e.next);
      assert c.s + (e.s + d.s) == c.s + e.s + d.s && c.defs + (e.defs + d.defs) == c.defs + e.defs + d.defs;
      assert FactorToks(a.f) + (AltToks(a.next) + FactorToks(f)) == FactorToks(a.f) + AltToks(a.next) + FactorToks(f);
    }
  }

  lemma {:induction false} SnocAltMeans(a: Alts, b: Alt, n: nat)
    ensures AltsToks(SnocAlt(a, b)) == AltsToks(a) + [Bar] + AltToks(b)
    ensures AltsOk(a) && AltOk(b) ==> AltsOk(SnocAlt(a, b))
    ensures var c := AltsPlain(a, n);
      var d := AltPlain(b, c.next);
      AltsPlain(SnocAlt(a, b), n) == Out(c.s + [d.s], c.defs + d.defs, d.next)
  {
    if a.Or? {
      var c := AltPlain(a.a, n);
      SnocAltMeans(a.rest, b, c.next);
      var e := AltsPlain(a.rest, c.next);
      var d := AltPlain(b, e.next);
      assert [c.s] + (e.s + [d.s]) == [c.s] + e.s + [d.s] && c.defs + (e.defs + d.defs) == c.defs + e.defs + d.defs;
      assert AltToks(a.a) + [Bar] + (AltsToks(a.rest) + [Bar] + AltToks(b)) ==
        AltToks(a.a) + [Bar] + AltsToks(a.rest) + [Bar] + AltToks(b);
    }
  }

  /** w is what has been read followed by what is left. */
  ghost predicate Parts(w: Alt, done: Option<Alt>, left: Option<Alt>) {
    if done.None? then left == Some(w) else if left.None? then done == Some(w) else w == Chain(done.value, left.value)
  }

  ghost predicate PartsAlts(w: Alts, done: Option<Alts>, left: Option<Alts>) {
    if done.None? then left == Some(w)
    else if left.None? then done == Some(w)
    else w == ChainAlts(done.value, left.value)
  }

  lemma {:induction false} PartsStep(w: Alt, done: Option<Alt>, l: Alt)
    requires Parts(w, done, Some(l))
    ensures Parts(w, Some(AddFactor(done, l.f)), if l.Last? then None else Some(l.next))
    decreases w
  {
    if done.Some? && done.value.Then? { PartsStep(w.next, Some(done.value.next), l); }
  }

  lemma {:induction false} PartsAltsStep(w: Alts, done: Option<Alts>, l: Alts)
    requires PartsAlts(w, done, Some(l))
    ensures PartsAlts(w, Some(AddAlt(done, l.a)), if l.One? then None else Some(l.rest))
    decreases w
  {
    if done.Some? && done.value.Or? { PartsAltsStep(w.rest, Some(done.value.rest), l); }
  }

  // ----- rewriting in place

  /** At cur, what was written as src is now written as dst, and cur' is behind it; rest follows. */
  ghost predicate Rewritten(before: seq<Tok>, after: seq<Tok>, cur: nat, cur': nat, src: seq<Tok>, dst: seq<Tok>,
        rest: seq<Tok>) {
    cur <= |before| && before[cur..] == src + rest && after == before[..cur] + dst + rest && cur' == cur + |dst|
  }

  lemma RewrittenThen(b0: seq<Tok>, b1: seq<Tok>, b2: seq<Tok>, i: nat, j: nat, k: nat,
    src1: seq<Tok>, dst1: seq<Tok>, rest1: seq<Tok>, src2: seq<Tok>, dst2: seq<Tok>, rest2: seq<Tok>)
    requires Rewritten(b0, b1, i, j, src1, dst1, rest1) && Rewritten(b1, b2, j, k, src2, dst2, rest2)
    ensures Rewritten(b0, b2, i, k, src1 + src2, dst1 + dst2, rest2)
  {
    assert b1[j..] == rest1 && b1[..j] == b0[..i] + dst1;
    assert b0[i..] == src1 + (src2 + rest2) == src1 + src2 + rest2;
    assert b0[..i] + dst1 + dst2 + rest2 == b0[..i] + (dst1 + dst2) + rest2;
  }

  /** What is expected to be read, if anything is, and what is to follow it. */
  datatype Want<A> = Any | Known(a: A, rest: seq<Tok>)

  predicate NoTimes(s: seq<Tok>) {
    |s| > 0 ==> !s[0].Times?
  }

  predicate EndsAlt(s: seq<Tok>) {
    |s| > 0 ==> s[0].Bar? || s[0].Close?
  }

  predicate EndsAlts(s: seq<Tok>) {
    |s| > 0 ==> s[0].Close?
  }

  ghost predicate WantFactor(w: Want<Factor>, toks: seq<Tok>) {
    w.Known? ==> FactorOk(w.a) && toks == FactorToks(w.a) + w.rest && NoTimes(w.rest)
  }

  ghost predicate WantAlt(w: Want<Alt>, toks: seq<Tok>) {
    w.Known? ==> AltOk(w.a) && toks == AltToks(w.a) + w.rest && EndsAlt(w.rest)
  }

  ghost predicate WantAlts(w: Want<Alts>, toks: seq<Tok>) {
    w.Known? ==> AltsOk(w.a) && toks == AltsToks(w.a) + w.rest && EndsAlts(w.rest)
  }

  /** What was defined has been appended, and the fresh nonterminals have been counted. */
  ghost predicate Built<A>(lp0: seq<Production>, lp: seq<Production>, n: nat, c: Out<A>) {
    DefsOk(c.defs) && lp == lp0 + DefProds(c.defs) && n == c.next
  }

  predicate IsFirst(t: Tok) {
    t.Sym? || t.Open?
  }

  /** Definitions made for a piece come before those made around it. */
  lemma RepeatedAfter(c: Out<seq<seq<Lit>>>, plus: bool)
    requires |c.s| > 0
    ensures var e := Repeated(Out(c.s, [], c.next), plus);
      Repeated(c, plus) == Out(e.s, c.defs + e.defs, e.next)
  {
  }

  /** A repetition as it is written. */
  lemma RepeatedToks(x: seq<Lit>, r: nat, plus: bool)
    ensures FlatToks([x + [NT(r)], if plus then x else EMPTY]) ==
      LitToks(x) + [Sym(NT(r))] + [Bar] + (if plus then LitToks(x) else [Sym(Ch(EPSILON))])
  {
    var a, y := [x + [NT(r)]], if plus then x else EMPTY;
    FlatMore(a, y);
    assert a + [y] == [x + [NT(r)], y];
    LitToksJoin(x, [NT(r)]);
    assert LitToks(EMPTY) == [Sym(Ch(EPSILON))];
  }

  /** A factor was read at cur and rewritten in place. */
  ghost predicate ReadFactor(b0: seq<Tok>, b: seq<Tok>, cur: nat, cur': nat, f: Factor, rest: seq<Tok>,
    lp0: seq<Production>, lp: seq<Production>, n0: nat, n: nat)
  {
    && FactorOk(f) && Rewritten(b0, b, cur, cur', FactorToks(f), LitToks(FactorPlain(f, n0).s), rest)
    && Built(lp0, lp, n, FactorPlain(f, n0))
  }

  /** An alternative has been read up to cur, if anything has been read yet. */
  ghost predicate ReadAlt(b0: seq<Tok>, b: seq<Tok>, cur: nat, cur': nat, done: Option<Alt>, rest: seq<Tok>,
    lp0: seq<Production>, lp: seq<Production>, n0: nat, n: nat)
  {
    if done.None? then b == b0 && cur' == cur <= |b| && rest == b[cur..] && lp == lp0 && n == n0
    else
      && AltOk(done.value) && Built(lp0, lp, n, AltPlain(done.value, n0))
      && Rewritten(b0, b, cur, cur', AltToks(done.value), LitToks(AltPlain(done.value, n0).s), rest)
  }

  ghost predicate ReadAlts(b0: seq<Tok>, b: seq<Tok>, cur: nat, cur': nat, done: Option<Alts>, rest: seq<Tok>,
    lp0: seq<Production>, lp: seq<Production>, n0: nat, n: nat)
  {
    if done.None? then b == b0 && cur' == cur <= |b| && rest == b[cur..] && lp == lp0 && n == n0
    else
      && AltsOk(done.value) && Built(lp0, lp, n, AltsPlain(done.value, n0))
      && Rewritten(b0, b, cur, cur', AltsToks(done.value), FlatToks(AltsPlain(done.value, n0).s), rest)
  }

  /** What is still expected, after what has been read. */
  ghost predicate StillAlt(want: Want<Alt>, done: Option<Alt>, left: Option<Alt>, toks: seq<Tok>) {
    want.Known? ==>
      && Parts(want.a, done, left) && EndsAlt(want.rest) && (left.Some? ==> AltOk(left.value))
      && toks == (if left.Some? then AltToks(left.value) else []) + want.rest
  }

  ghost predicate StillAlts(want: Want<Alts>, done: Option<Alts>, left: Option<Alts>, toks: seq<Tok>) {
    want.Known? ==>
      && PartsAlts(want.a, done, left) && EndsAlts(want.rest) && (left.Some? ==> AltsOk(left.value))
      && toks == (if left.Some? then AltsToks(left.value) else []) + want.rest
  }

  function NextFactor(want: Want<Alt>, left: Option<Alt>): Want<Factor> {
    if want.Any? || left.None? then Any
    else Known(left.value.f, (if left.value.Then? then AltToks(left.value.next) else []) + want.rest)
  }

  function NextLeft(left: Option<Alt>): Option<Alt> {
    if left.None? || left.value.Last? then None else Some(left.value.next)
  }

  function NextAlt(want: Want<Alts>, left: Option<Alts>): Want<Alt> {
    if want.Any? || left.None? then Any
    else Known(left.value.a, (if left.value.Or? then [Bar] + AltsToks(left.value.rest) else []) + want.rest)
  }

  function NextLefts(left: Option<Alts>): Option<Alts> {
    if left.None? || left.value.One? then None else Some(left.value.rest)
  }

  lemma WantNextFactor(want: Want<Alt>, done: Option<Alt>, left: Option<Alt>, toks: seq<Tok>)
    requires StillAlt(want, done, left, toks)
    ensures WantFactor(NextFactor(want, left), toks)
  {
    if want.Known? && left.Some? && left.value.Then? {
      assert FactorToks(left.value.f) + (AltToks(left.value.next) + want.rest) == AltToks(left.value) + want.rest;
    }
  }

  lemma WantNextAlt(want: Want<Alts>, done: Option<Alts>, left: Option<Alts>, toks: seq<Tok>)
    requires StillAlts(want, done, left, toks)
    ensures WantAlt(NextAlt(want, left), toks)
  {
    if want.Known? && left.Some? && left.value.Or? {
      assert AltToks(left.value.a) + ([Bar] + AltsToks(left.value.rest) + want.rest) ==
        AltsToks(left.value) + want.rest;
    }
  }

  /** One more factor has been read. */
  lemma MoreAlt(b0: seq<Tok>, b1: seq<Tok>, b2: seq<Tok>, cur: nat, c1: nat, c2: nat, done: Option<Alt>, f: Factor,
        rest1: seq<Tok>, rest2: seq<Tok>, lp0: seq<Production>, lp1: seq<Production>, lp2: seq<Production>, n0: nat,
        n1: nat, n2: nat)
    requires ReadAlt(b0, b1, cur, c1, done, rest1, lp0, lp1, n0, n1)
    requires ReadFactor(b1, b2, c1, c2, f, rest2, lp1, lp2, n1, n2)
    ensures ReadAlt(b0, b2, cur, c2, Some(AddFactor(done, f)), rest2, lp0, lp2, n0, n2)
  {
    if done.Some? {
      var a := done.value;
      SnocMeans(a, f, n0);
      var c, d := AltPlain(a, n0), FactorPlain(f, n1);
      LitToksJoin(c.s, d.s);
      RewrittenThen(b0, b1, b2, cur, c1, c2, AltToks(a), LitToks(c.s), rest1, FactorToks(f), LitToks(d.s), rest2);
      DefProdsJoin(c.defs, d.defs);
    }
  }

  lemma StillMoreAlt(want: Want<Alt>, done: Option<Alt>, left: Option<Alt>, toks: seq<Tok>, f: Factor, rest: seq<Tok>)
    requires StillAlt(want, done, left, toks)
    requires NextFactor(want, left).Known? ==> f == left.value.f && rest == NextFactor(want, left).rest
    requires want.Known? ==> left.Some?
    ensures StillAlt(want, Some(AddFactor(done, f)), NextLeft(left), rest)
  {
    if want.Known? { PartsStep(want.a, done, left.value); }
  }

  /** One more alternative has been read. */
  lemma MoreAlts(b0: seq<Tok>, b1: seq<Tok>, b2: seq<Tok>, cur: nat, c1: nat, c2: nat, done: Option<Alts>, a: Alt,
        rest1: seq<Tok>, rest2: seq<Tok>, lp0: seq<Production>, lp1: seq<Production>, lp2: seq<Production>, n0: nat,
        n1: nat, n2: nat)
    requires done.Some? ==> c1 > 0 && ReadAlts(b0, b1, cur, c1 - 1, done, [Bar] + rest1, lp0, lp1, n0, n1)
    requires done.None? ==> ReadAlts(b0, b1, cur, c1, done, rest1, lp0, lp1, n0, n1)
    requires ReadAlt(b1, b2, c1, c2, Some(a), rest2, lp1, lp2, n1, n2)
    ensures ReadAlts(b0, b2, cur, c2, Some(AddAlt(done, a)), rest2, lp0, lp2, n0, n2)
  {
    if done.Some? {
      var e := done.value;
      SnocAltMeans(e, a, n0);
      var c, d := AltsPlain(e, n0), AltPlain(a, n1);
      FlatMore(c.s, d.s);
      BarKept(b0, b1, cur, c1, AltsToks(e), FlatToks(c.s), rest1);
      RewrittenThen(b0, b1, b2, cur, c1, c2, AltsToks(e) + [Bar], FlatToks(c.s) + [Bar],
        rest1, AltToks(a), LitToks(d.s), rest2);
      DefProdsJoin(c.defs, d.defs);
    }
  }

  lemma BarKept(b0: seq<Tok>, b1: seq<Tok>, cur: nat, c1: nat, src: seq<Tok>, dst: seq<Tok>, rest: seq<Tok>)
    requires c1 > 0 && Rewritten(b0, b1, cur, c1 - 1, src, dst, [Bar] + rest)
    ensures Rewritten(b0, b1, cur, c1, src + [Bar], dst + [Bar], rest)
  {
    assert src + ([Bar] + rest) == src + [Bar] + rest;
    assert b0[..cur] + dst + ([Bar] + rest) == b0[..cur] + (dst + [Bar]) + rest;
  }

  lemma StillMoreAlts(want: Want<Alts>, done: Option<Alts>, left: Option<Alts>, toks: seq<Tok>, a: Alt, rest: seq<Tok>)
    requires StillAlts(want, done, left, toks) && (want.Known? ==> left.Some?)
    requires NextAlt(want, left).Known? ==> a == left.value.a && rest == NextAlt(want, left).rest
    ensures want.Known? && left.value.Or? ==>
      rest != [] && rest[0] == Bar && StillAlts(want, Some(AddAlt(done, a)), NextLefts(left), rest[1..])
    ensures want.Known? && left.value.One? ==> EndsAlts(rest) && rest == want.rest && AddAlt(done, a) == want.a
  {
    if want.Known? {
      PartsAltsStep(want.a, done, left.value);
      if left.value.Or? { assert rest == [Bar] + (AltsToks(left.value.rest) + want.rest); }
    }
  }

  lemma FactorMoved(b0: seq<Tok>, b: seq<Tok>, cur: nat, cur': nat, f: Factor, rest: seq<Tok>,
    lp0: seq<Production>, lp: seq<Production>, n0: nat, n: nat)
    requires ReadFactor(b0, b, cur, cur', f, rest, lp0, lp, n0, n)
    ensures cur' <= |b| && b[cur'..] == rest && |b| - cur' < |b0| - cur
  {
  }

  lemma AltMoved(b0: seq<Tok>, b: seq<Tok>, cur: nat, cur': nat, a: Alt, rest: seq<Tok>,
    lp0: seq<Production>, lp: seq<Production>, n0: nat, n: nat)
    requires ReadAlt(b0, b, cur, cur', Some(a), rest, lp0, lp, n0, n)
    ensures cur' <= |b| && b[cur'..] == rest && |b| - cur' < |b0| - cur
  {
  }

  function Repetition(f: Factor): seq<Tok> {
    if f.Rep? then [Times(f.plus)] else []
  }

  lemma SameFactor(f: Factor, g: Factor, rest: seq<Tok>, rest': seq<Tok>)
    requires f.b == g.b && Repetition(f) + rest == Repetition(g) + rest'
    requires (f.Plain? && g.Plain?) || ((f.Plain? ==> NoTimes(rest)) && (g.Plain? ==> NoTimes(rest')))
    ensures f == g && rest == rest'
  {
    var s := Repetition(f) + rest;
    assert s[|Repetition(f)|..] == rest && s[|Repetition(g)|..] == rest';
    if f.Rep? { assert s[0] == Times(f.plus); }
    if g.Rep? { assert s[0] == Times(g.plus); }
  }

  /** What was read at a symbol is what was expected. */
  lemma LeafToks(l: Lit)
    ensures [Sym(l)] == LitToks([l]) == FlatToks([[l]])
  {
  }

  lemma LeafBuilt(lp0: seq<Production>, lp: seq<Production>, l: Lit, plus: bool, n0: nat, n: nat)
    requires Built(lp0, lp, n, Repeated(Out([[l]], [], n0), plus))
    ensures n > 0 && Built(lp0, lp, n, FactorPlain(Rep(Leaf(l), plus), n0))
    ensures LitToks(FactorPlain(Rep(Leaf(l), plus), n0).s) == [Sym(NT(n - 1))]
  {
    assert FactorPlain(Rep(Leaf(l), plus), n0) == Repeated(Out([[l]], [], n0), plus);
  }

  /** A repeated symbol has become the nonterminal of its production. */
  lemma LeafRepeated(b0: seq<Tok>, b1: seq<Tok>, cur: nat, l: Lit, plus: bool, lp0: seq<Production>,
        lp: seq<Production>, n0: nat, n: nat)
    requires cur + 1 < |b0| && b0[cur] == Sym(l) && b0[cur + 1] == Times(plus) && n > 0
    requires b1 == b0[..cur] + [Sym(NT(n - 1))] + b0[cur + 2..]
    requires Built(lp0, lp, n, Repeated(Out([[l]], [], n0), plus))
    ensures ReadFactor(b0, b1, cur, cur + 1, Rep(Leaf(l), plus), b0[cur + 2..], lp0, lp, n0, n)
    ensures b0[cur..] == FactorToks(Rep(Leaf(l), plus)) + b0[cur + 2..]
  {
    LeafBuilt(lp0, lp, l, plus, n0, n);
    hide Built, Repeated;
    assert FactorToks(Rep(Leaf(l), plus)) == [Sym(l), Times(plus)];
    assert b0[cur..] == [Sym(l), Times(plus)] + b0[cur + 2..];
    assert FactorOk(Rep(Leaf(l), plus));
  }

  lemma LeafPlain(b: seq<Tok>, cur: nat, l: Lit, lp: seq<Production>, n: nat)
    requires cur < |b| && b[cur] == Sym(l)
    ensures ReadFactor(b, b, cur, cur + 1, Plain(Leaf(l)), b[cur + 1..], lp, lp, n, n)
    ensures b[cur..] == FactorToks(Plain(Leaf(l))) + b[cur + 1..]
  {
    assert b == b[..cur] + b[cur..];
    assert LitToks(FactorPlain(Plain(Leaf(l)), n).s) == [Sym(l)];
    assert DefProds([]) == [];
  }

  lemma SymbolWanted(want: Want<Factor>, toks: seq<Tok>, l: Lit, f: Factor, rest: seq<Tok>)
    requires WantFactor(want, toks) && f.b == Leaf(l) && toks == FactorToks(f) + rest
    requires f.Plain? ==> NoTimes(rest)
    ensures want.Known? ==> f == want.a && rest == want.rest
  {
    if want.Known? {
      var g := want.a;
      assert toks[0] == Sym(l) && g.b == Leaf(l);
      assert FactorToks(f) == [Sym(l)] + Repetition(f) && FactorToks(g) == [Sym(l)] + Repetition(g);
      assert [Sym(l)] + Repetition(f) + rest == [Sym(l)] + (Repetition(f) + rest);
      assert [Sym(l)] + Repetition(g) + want.rest == [Sym(l)] + (Repetition(g) + want.rest);
      assert toks[1..] == Repetition(f) + rest == Repetition(g) + want.rest;
      SameFactor(f, g, rest, want.rest);
    }
  }

  /** What is expected inside a bracket. */
  function Inside(want: Want<Factor>, kind: Kind): Want<Alts> {
    if want.Any? || want.a.b.Leaf? then Any
    else Known(want.a.b.alts, [Close(kind)] + Repetition(want.a) + want.rest)
  }

  lemma WantInside(want: Want<Factor>, kind: Kind, b: seq<Tok>, cur: nat)
    requires cur < |b| && b[cur] == Open(kind) && WantFactor(want, b[cur..])
    ensures WantAlts(Inside(want, kind), b[cur + 1..]) && (want.Known? ==> want.a.b.Group? && want.a.b.kind == kind)
  {
    if want.Known? {
      assert BaseOk(want.a.b) && b[cur..][0] == Open(kind) && b[cur..][1..] == b[cur + 1..];
      var a := want.a.b.alts;
      var end := [Close(kind)] + Repetition(want.a);
      assert FactorToks(want.a) == [Open(kind)] + (AltsToks(a) + end);
      assert FactorToks(want.a) + want.rest == [Open(kind)] + (AltsToks(a) + (end + want.rest));
    }
  }

  /** What was read in a bracket whose inside ends at r. */
  ghost predicate Closed(kind: Kind, a: Alts, r: seq<Tok>, f: Factor, rest: seq<Tok>) {
    && f.b == Group(kind, a) && r == [Close(kind)] + Repetition(f) + rest
    && (f.Plain? && kind == Round ==> NoTimes(rest)) && (f.Rep? ==> kind == Round)
  }

  lemma GroupWanted(want: Want<Factor>, toks: seq<Tok>, kind: Kind, a: Alts, r: seq<Tok>, f: Factor, rest: seq<Tok>)
    requires WantFactor(want, toks) && Closed(kind, a, r, f, rest)
    requires want.Known? ==> want.a.b.Group? && want.a.b.kind == kind
    requires Inside(want, kind).Known? ==> a == Inside(want, kind).a && r == Inside(want, kind).rest
    ensures want.Known? ==> f == want.a && rest == want.rest
  {
    if want.Known? {
      var g := want.a;
      assert r == [Close(kind)] + (Repetition(g) + want.rest) == [Close(kind)] + (Repetition(f) + rest);
      assert r[1..] == Repetition(g) + want.rest == Repetition(f) + rest;
      SameFactor(f, g, rest, want.rest);
    }
  }

  lemma InsideToks(b0: seq<Tok>, b1: seq<Tok>, cur: nat, close: nat, a: Alts, r: seq<Tok>, lp0: seq<Production>,
        lp: seq<Production>, n0: nat, n: nat)
    requires ReadAlts(b0, b1, cur + 1, close, Some(a), r, lp0, lp, n0, n) && cur < |b0| && close <= |b1|
    ensures b1[cur + 1..close] == FlatToks(AltsPlain(a, n0).s) && cur < close && b1[..cur] == b0[..cur]
  {
    assert b0[..cur + 1][..cur] == b0[..cur];
  }

  /** The new productions of a bracket come after those for what is inside. */
  lemma GroupBuilt(f: Factor, a: Alts, lp0: seq<Production>, lp1: seq<Production>, lp2: seq<Production>, n0: nat,
        n: nat)
    requires f.b.Group? && f.b.alts == a && FactorOk(f) && Built(lp0, lp1, AltsPlain(a, n0).next, AltsPlain(a, n0))
    requires Built(lp1, lp2, n, GroupOut(f, AltsPlain(a, n0)))
    ensures Built(lp0, lp2, n, FactorPlain(f, n0)) && LitToks(FactorPlain(f, n0).s) == [Sym(NT(n - 1))] && n > 0
  {
    var c := AltsPlain(a, n0);
    DefProdsJoin(c.defs, GroupOut(f, c).defs);
    if f.Rep? || f.b.kind == Curly { RepeatedAfter(c, f.Rep? && f.plus); }
    assert FactorPlain(f, n0) == Out(GroupOut(f, c).s, c.defs + GroupOut(f, c).defs, GroupOut(f, c).next);
    hide FactorPlain;
  }

  /** What a bracket adds to the productions for what is inside. */
  function GroupOut(f: Factor, c: Out<seq<seq<Lit>>>): Out<seq<Lit>>
    requires f.b.Group? && |c.s| > 0
  {
    if f.Rep? || f.b.kind == Curly then Repeated(Out(c.s, [], c.next), f.Rep? && f.plus)
    else Out([NT(c.next)], [Def(c.next, c.s + if f.b.kind == Square then [EMPTY] else [])], c.next + 1)
  }

  lemma GroupRewritten(b0: seq<Tok>, b1: seq<Tok>, b2: seq<Tok>, cur: nat, close: nat, till: nat, f: Factor, a: Alts,
        n0: nat, r: seq<Tok>, rest: seq<Tok>, n: nat)
    requires f.b.Group? && cur < |b0| && b0[cur] == Open(f.b.kind) && Closed(f.b.kind, a, r, f, rest) && n > 0
    requires Rewritten(b0, b1, cur + 1, close, AltsToks(a), FlatToks(AltsPlain(a, n0).s), r)
    requires till <= |b1| && rest == b1[till..] && b2 == b1[..cur] + [Sym(NT(n - 1))] + b1[till..]
    requires b1[..cur] == b0[..cur]
    requires LitToks(FactorPlain(f, n0).s) == [Sym(NT(n - 1))]
    ensures Rewritten(b0, b2, cur, cur + 1, FactorToks(f), LitToks(FactorPlain(f, n0).s), rest)
  {
    var end := [Close(f.b.kind)] + Repetition(f);
    assert b0[cur..] == [Open(f.b.kind)] + b0[cur + 1..];
    assert FactorToks(f) == [Open(f.b.kind)] + (AltsToks(a) + end);
    assert b0[cur..] == [Open(f.b.kind)] + (AltsToks(a) + (end + rest));
  }

  /** What has been read before an alternative: nothing, or alternatives and a bar. */
  ghost predicate BeforeAlt(b0: seq<Tok>, b1: seq<Tok>, cur: nat, c1: nat, done: Option<Alts>, rest: seq<Tok>,
    lp0: seq<Production>, lp1: seq<Production>, n0: nat, n1: nat)
  {
    && (done.None? ==> ReadAlts(b0, b1, cur, c1, done, rest, lp0, lp1, n0, n1))
    && (done.Some? ==> c1 > 0 && ReadAlts(b0, b1, cur, c1 - 1, done, [Bar] + rest, lp0, lp1, n0, n1))
  }

  lemma StartAlts(want: Want<Alts>, b: seq<Tok>, cur: nat, lp: seq<Production>, n: nat)
    requires cur <= |b| && WantAlts(want, b[cur..])
    ensures BeforeAlt(b, b, cur, cur, None, b[cur..], lp, lp, n, n)
    ensures StillAlts(want, None, if want.Known? then Some(want.a) else None, b[cur..])
  {
  }

  /** As long as something is expected, something follows. */
  lemma MoreExpected(want: Want<Alts>, done: Option<Alts>, left: Option<Alts>, toks: seq<Tok>)
    requires StillAlts(want, done, left, toks) && (want.Known? ==> left.Some?)
    ensures want.Known? ==> toks != []
  {
  }

  /** One more alternative has been read, and it is the one that was expected. */
  lemma AltsStep(b0: seq<Tok>, b1: seq<Tok>, b2: seq<Tok>, cur: nat, c1: nat, c2: nat, done: Option<Alts>, a: Alt,
        rest1: seq<Tok>, rest2: seq<Tok>, lp0: seq<Production>, lp1: seq<Production>, lp2: seq<Production>, n0: nat,
        n1: nat, n2: nat, want: Want<Alts>, left: Option<Alts>)
    requires BeforeAlt(b0, b1, cur, c1, done, rest1, lp0, lp1, n0, n1)
    requires ReadAlt(b1, b2, c1, c2, Some(a), rest2, lp1, lp2, n1, n2)
    requires StillAlts(want, done, left, rest1) && (want.Known? ==> left.Some?)
    requires NextAlt(want, left).Known? ==> a == left.value.a && rest2 == NextAlt(want, left).rest
    ensures c2 <= |b2| && b2[c2..] == rest2 && |b2| - c2 < |b1| - c1
    ensures ReadAlts(b0, b2, cur, c2, Some(AddAlt(done, a)), rest2, lp0, lp2, n0, n2)
    ensures rest2 != [] && rest2[0] == Bar ==>
      StillAlts(want, Some(AddAlt(done, a)), NextLefts(left), rest2[1..]) && (want.Known? ==> NextLefts(left).Some?)
    ensures want.Known? && left.value.Or? ==> rest2 != [] && rest2[0] == Bar
    ensures want.Known? && left.value.One? ==> EndsAlts(rest2) && rest2 == want.rest && AddAlt(done, a) == want.a
  {
    AltMoved(b1, b2, c1, c2, a, rest2, lp1, lp2, n1, n2);
    MoreAlts(b0, b1, b2, cur, c1, c2, done, a, rest1, rest2, lp0, lp1, lp2, n0, n1, n2);
    StillMoreAlts(want, done, left, rest1, a, rest2);
  }

  lemma AfterBar(rest: seq<Tok>)
    requires rest != [] && rest[0] == Bar
    ensures rest == [Bar] + rest[1..]
  {
  }

  lemma StepToks(x: seq<Lit>, r: nat, plus: bool)
    ensures DefProd(StepDef(x, r, plus)) ==
      Production(r, LitToks(x) + [Sym(NT(r))] + [Bar] + (if plus then LitToks(x) else [Sym(Ch(EPSILON))]))
  {
    RepeatedToks(x, r, plus);
  }

  lemma OneBuilt(lp0: seq<Production>, d: Def, c: Out<seq<Lit>>)
    requires |d.alts| > 0 && c.defs == [d]
    ensures Built(lp0, lp0 + [DefProd(d)], c.next, c)
  {
    assert DefProds([d]) == [DefProd(d)];
  }

  lemma TwoBuilt(lp0: seq<Production>, e: Def, d: Def, c: Out<seq<Lit>>)
    requires |d.alts| > 0 && |e.alts| > 0 && c.defs == [e] + [d]
    ensures Built(lp0, lp0 + [DefProd(e)] + [DefProd(d)], c.next, c)
  {
    assert DefProds([e] + [d]) == [DefProd(e)] + [DefProd(d)];
  }

  /** The production of a repetition with a single alternative. */
  lemma RecurOne(alts: seq<seq<Lit>>, n0: nat, plus: bool, lp0: seq<Production>)
    requires |alts| == 1
    ensures Built(lp0, lp0 + [DefProd(StepDef(alts[0], n0, plus))], n0 + 1, Repeated(Out(alts, [], n0), plus))
  {
    var d := StepDef(alts[0], n0, plus);
    assert Repeated(Out(alts, [], n0), plus) == Out([NT(n0)], [d], n0 + 1);
    OneBuilt(lp0, d, Out([NT(n0)], [d], n0 + 1));
  }

  /** The two productions of a repetition with several alternatives. */
  lemma RecurMany(alts: seq<seq<Lit>>, n0: nat, plus: bool, lp0: seq<Production>)
    requires |alts| > 1
    ensures Built(lp0, lp0 + [DefProd(Def(n0, alts))] + [DefProd(StepDef([NT(n0)], n0 + 1, plus))], n0 + 2,
      Repeated(Out(alts, [], n0), plus))
  {
    var e, d := Def(n0, alts), StepDef([NT(n0)], n0 + 1, plus);
    assert Repeated(Out(alts, [], n0), plus) == Out([NT(n0 + 1)], [e] + [d], n0 + 2);
    TwoBuilt(lp0, e, d, Out([NT(n0 + 1)], [e] + [d], n0 + 2));
  }

  /** A single production for all alternatives. */
  lemma PlainBuilt(alts: seq<seq<Lit>>, n0: nat, lp0: seq<Production>)
    requires |alts| > 0
    ensures Built(lp0, lp0 + [Production(n0, FlatToks(alts))], n0 + 1, Out([NT(n0)], [Def(n0, alts)], n0 + 1))
  {
    OneBuilt(lp0, Def(n0, alts), Out([NT(n0)], [Def(n0, alts)], n0 + 1));
  }

  lemma DefProdOf(d: Def)
    requires |d.alts| > 0
    ensures DefProd(d) == Production(d.head, FlatToks(d.alts))
  {
  }

  /** The alternatives as they are written, with the empty word added if asked for. */
  lemma NotRecur(alts: seq<seq<Lit>>, balt: bool, np: seq<Tok>, toks: seq<Tok>)
    requires |alts| > 0 && toks == FlatToks(alts) && np == if balt then toks + [Bar] + [Sym(Ch(EPSILON))] else toks
    ensures np == FlatToks(alts + if balt then [EMPTY] else [])
  {
    if balt {
      FlatMore(alts, EMPTY);
      assert LitToks(EMPTY) == [Sym(Ch(EPSILON))];
    } else {
      assert alts + [] == alts;
    }
  }

  class PTransformer {
    var body: seq<Tok>
    var lp: seq<Production>
    var count: nat

    constructor (toks: seq<Tok>, n: nat)
      ensures body == toks && lp == [] && count == n
    {
      body, lp, count := toks, [], n;
    }

    /** A new production over the given alternatives: alone, with the empty word, or as a repetition. */
    method SynthRecur(toks: seq<Tok>, bnull: bool, brecur: bool, balt: bool, ghost alts: seq<seq<Lit>>)
      requires |alts| > 0 && toks == FlatToks(alts) && (if brecur then balt else bnull == balt)
      modifies this`lp, this`count
      ensures brecur ==> Built(old(lp), lp, count, Repeated(Out(alts, [], old(count)), !bnull))
      ensures !brecur ==>
        Built(old(lp), lp, count,
          Out([NT(old(count))], [Def(old(count), alts + if balt then [EMPTY] else [])], old(count) + 1))
      ensures !brecur ==> lp == old(lp) + [DefProd(Def(old(count), alts + if balt then [EMPTY] else []))]
      ensures lp != [] && lp[|lp| - 1].head + 1 == count
      decreases if brecur then 1 else 0
    {
      FlatBars(alts);
      ghost var lp0, n0 := lp, count;
      var x := toks;
      ghost var step := alts[0];
      if brecur && Bar in toks {
        SynthRecur(toks, false, false, false, alts);
        assert alts + [] == alts;
        assert lp == lp0 + [DefProd(Def(n0, alts))];
        x := [Sym(NT(lp[|lp| - 1].head))];
        step := [NT(n0)];
        assert LitToks(step) == x;
      }
      var sym := count;
      count := count + 1;
      var np := x;
      if brecur { np := np + [Sym(NT(sym))]; }
      if balt { np := np + [Bar]; }
      if balt && bnull { np := np + [Sym(Ch(EPSILON))]; }
      else if balt { np := np + x; }
      lp := lp + [Production(sym, np)];
      hide Built, Repeated, LitToks, FlatToks;
      if brecur {
        StepToks(step, sym, !bnull);
        if |alts| > 1 { RecurMany(alts, n0, !bnull, lp0); } else { RecurOne(alts, n0, !bnull, lp0); }
      } else {
        NotRecur(alts, balt, np, toks);
        PlainBuilt(alts + if balt then [EMPTY] else [], n0, lp0);
        DefProdOf(Def(n0, alts + if balt then [EMPTY] else []));
      }
    }

    /** Reads factors as long as one can start, rewriting each. */
    method ParseAlt(cur0: nat, ghost want: Want<Alt>) returns (ok: bool, cur: nat, ghost a: Alt, ghost rest: seq<Tok>)
      requires cur0 <= |body| && WantAlt(want, body[cur0..])
      modifies this
      ensures ok ==> ReadAlt(old(body), body, cur0, cur, Some(a), rest, old(lp), lp, old(count), count)
      ensures want.Known? ==> ok && a == want.a && rest == want.rest
      decreases |body| - cur0, 2
    {
      ok, cur, a := false, cur0, Last(Plain(Leaf(Ch(EPSILON))));
      ghost var done: Option<Alt> := None;
      ghost var left := if want.Known? then Some(want.a) else None;
      rest := body[cur0..];
      hide ReadFactor;
      while cur < |body| && IsFirst(body[cur])
        invariant ReadAlt(old(body), body, cur0, cur, done, rest, old(lp), lp, old(count), count)
        invariant StillAlt(want, done, left, rest) && ok == done.Some? && cur <= |body| && rest == body[cur..]
        invariant |body| - cur <= old(|body|) - cur0
        decreases |body| - cur
      {
        ghost var b1, lp1, n1, c1, rest1 := body, lp, count, cur, rest;
        WantNextFactor(want, done, left, rest);
        ghost var f;
        ok, cur, f, rest := ParseFactor(cur, NextFactor(want, left));
        if !ok { break; }
        assert ReadFactor(b1, body, c1, cur, f, rest, lp1, lp, n1, count);
        FactorMoved(b1, body, c1, cur, f, rest, lp1, lp, n1, count);
        MoreAlt(old(body), b1, body, cur0, c1, cur, done, f, rest1, rest, old(lp), lp1, lp, old(count), n1, count);
        StillMoreAlt(want, done, left, rest1, f, rest);
        done, left := Some(AddFactor(done, f)), NextLeft(left);
      }
      if ok { a := done.value; }
    }

    /** Reads one alternative and passes over the bar behind it, if there is one. */
    method ParseNext(cur: nat, ghost b0: seq<Tok>, ghost cur0: nat, ghost done: Option<Alts>,
          ghost left: Option<Alts>, ghost rest: seq<Tok>, ghost want: Want<Alts>, ghost lp0: seq<Production>,
          ghost n0: nat)
      returns (ok: bool, cur': nat, more: bool, ghost a: Alts, ghost rest': seq<Tok>)
      requires cur < |body| && rest == body[cur..] && BeforeAlt(b0, body, cur0, cur, done, rest, lp0, lp, n0, count)
      requires StillAlts(want, done, left, rest) && (want.Known? ==> left.Some?)
      modifies this
      ensures want.Known? ==> ok
      ensures ok ==> cur' <= |body| && rest' == body[cur'..] && |body| - cur' < old(|body|) - cur
      ensures ok && !more ==> ReadAlts(b0, body, cur0, cur', Some(a), rest', lp0, lp, n0, count)
      ensures ok && !more && want.Known? ==> a == want.a && rest' == want.rest
      ensures ok && more ==> BeforeAlt(b0, body, cur0, cur', Some(a), rest', lp0, lp, n0, count)
      ensures ok && more ==> StillAlts(want, Some(a), NextLefts(left), rest') && (want.Known? ==> NextLefts(left).Some?)
      decreases |body| - cur, 3
    {
      hide ReadAlt, ReadAlts, StillAlts, WantAlt, AddAlt;
      ghost var b1, lp1, n1 := body, lp, count;
      more, a := false, One(Last(Plain(Leaf(Ch(EPSILON)))));
      WantNextAlt(want, done, left, rest);
      ghost var alt;
      ok, cur', alt, rest' := ParseAlt(cur, NextAlt(want, left));
      if !ok { return; }
      AltsStep(b0, b1, body, cur0, cur, cur', done, alt, rest, rest', lp0, lp1, lp, n0, n1, count, want, left);
      a := AddAlt(done, alt);
      more := cur' < |body| && body[cur'] == Bar;
      if more {
        AfterBar(rest');
        cur', rest' := cur' + 1, rest'[1..];
      }
    }

    /** Reads alternatives separated by bars, rewriting each. A bar that ends the production is passed over. */
    method ParseAlts(cur0: nat, ghost want: Want<Alts>)
      returns (ok: bool, cur: nat, ghost a: Alts, ghost rest: seq<Tok>, ghost bar: bool)
      requires cur0 <= |body| && WantAlts(want, body[cur0..])
      modifies this
      ensures ok && !bar ==> ReadAlts(old(body), body, cur0, cur, Some(a), rest, old(lp), lp, old(count), count)
      ensures ok && !bar ==> rest == body[cur..]
      ensures ok && bar ==> cur > 0 && cur == |body| && rest == []
      ensures ok && bar ==> ReadAlts(old(body), body, cur0, cur - 1, Some(a), [Bar], old(lp), lp, old(count), count)
      ensures want.Known? ==> ok && !bar && a == want.a && rest == want.rest
      decreases |body| - cur0, 4
    {
      ok, cur, bar, a := false, cur0, false, One(Last(Plain(Leaf(Ch(EPSILON)))));
      ghost var done: Option<Alts> := None;
      ghost var left := if want.Known? then Some(want.a) else None;
      rest := body[cur0..];
      ghost var b0, lp0, n0 := body, lp, count;
      StartAlts(want, body, cur0, lp, count);
      hide ReadAlts, StillAlts, WantAlts;
      while cur < |body|
        invariant cur <= |body| && rest == body[cur..] && ok == done.Some? == bar && (done.Some? ==> a == done.value)
        invariant BeforeAlt(b0, body, cur0, cur, done, rest, lp0, lp, n0, count)
        invariant StillAlts(want, done, left, rest) && (want.Known? ==> left.Some?)
        invariant |body| - cur <= |b0| - cur0
        decreases |body| - cur
      {
        var more;
        ok, cur, more, a, rest := ParseNext(cur, b0, cur0, done, left, rest, want, lp0, n0);
        bar := ok && more;
        if !ok || !more { return; }
        done, left := Some(a), NextLefts(left);
      }
      if done.Some? { assert rest == [] && [Bar] + rest == [Bar]; }
      MoreExpected(want, done, left, rest);
    }

    /** Puts the nonterminal of the last new production in place of what it was made from. */
    method Replace(from: nat, till: nat)
      requires from <= till <= |body| && lp != []
      modifies this`body
      ensures body == old(body)[..from] + [Sym(NT(lp[|lp| - 1].head))] + old(body)[till..]
    {
      body := body[..from] + [Sym(NT(lp[|lp| - 1].head))] + body[till..];
    }

    /** Reads a symbol or a bracket and the repetition behind it, and rewrites it to a symbol. */
    method ParseFactor(cur: nat, ghost want: Want<Factor>)
      returns (ok: bool, cur': nat, ghost f: Factor, ghost rest: seq<Tok>)
      requires cur <= |body| && WantFactor(want, body[cur..])
      modifies this
      ensures ok ==> ReadFactor(old(body), body, cur, cur', f, rest, old(lp), lp, old(count), count)
      ensures want.Known? ==> ok && f == want.a && rest == want.rest
      decreases |body| - cur, 1
    {
      ok, cur', f, rest := false, cur, Plain(Leaf(Ch(EPSILON))), [];
      if cur >= |body| { return; }
      match body[cur]
      case Sym(l) => ok, cur', f, rest := ParseSymbol(cur, l, want);
      case Open(kind) => ok, cur', f, rest := ParseGroup(cur, kind, want);
      case _ =>
    }

    method ParseSymbol(cur: nat, l: Lit, ghost want: Want<Factor>)
      returns (ok: bool, cur': nat, ghost f: Factor, ghost rest: seq<Tok>)
      requires cur < |body| && body[cur] == Sym(l) && WantFactor(want, body[cur..])
      modifies this
      ensures ok && ReadFactor(old(body), body, cur, cur', f, rest, old(lp), lp, old(count), count)
      ensures want.Known? ==> f == want.a && rest == want.rest
    {
      ghost var b0, lp0, n0 := body, lp, count;
      ok, cur' := true, cur + 1;
      hide Built, Repeated, ReadFactor, FactorToks;
      if cur + 1 < |body| && body[cur + 1].Times? {
        var plus := body[cur + 1].plus;
        f, rest := Rep(Leaf(l), plus), body[cur + 2..];
        LeafToks(l);
        SynthRecur([Sym(l)], !plus, true, true, [[l]]);
        Replace(cur, cur + 2);
        LeafRepeated(b0, body, cur, l, plus, lp0, lp, n0, count);
      } else {
        f, rest := Plain(Leaf(l)), body[cur + 1..];
        LeafPlain(b0, cur, l, lp, count);
      }
      SymbolWanted(want, b0[cur..], l, f, rest);
    }

    /** Reads a bracket, makes a new production for what is inside, and leaves its nonterminal in place. */
    method ParseGroup(cur: nat, kind: Kind, ghost want: Want<Factor>)
      returns (ok: bool, cur': nat, ghost f: Factor, ghost rest: seq<Tok>)
      requires cur < |body| && body[cur] == Open(kind) && WantFactor(want, body[cur..])
      modifies this
      ensures ok ==> ReadFactor(old(body), body, cur, cur', f, rest, old(lp), lp, old(count), count)
      ensures want.Known? ==> ok && f == want.a && rest == want.rest
      decreases |body| - cur, 0
    {
      f, rest := Plain(Leaf(Ch(EPSILON))), [];
      ghost var a, r, bar;
      WantInside(want, kind, body, cur);
      ok, cur', a, r, bar := ParseAlts(cur + 1, Inside(want, kind));
      if !ok { return; }
      ok := cur' < |body| && body[cur'] == Close(kind);
      if !ok { return; }
      cur', f, rest := CloseGroup(cur, kind, cur', a, r, old(body), old(lp), old(count));
      GroupWanted(want, old(body)[cur..], kind, a, r, f, rest);
    }

    /** The closing bracket has been reached. */
    method CloseGroup(cur: nat, kind: Kind, close: nat, ghost a: Alts, ghost r: seq<Tok>, ghost b0: seq<Tok>,
          ghost lp0: seq<Production>, ghost n0: nat)
      returns (cur': nat, ghost f: Factor, ghost rest: seq<Tok>)
      requires cur < |b0| && b0[cur] == Open(kind) && close < |body| && body[close] == Close(kind) && r == body[close..]
      requires ReadAlts(b0, body, cur + 1, close, Some(a), r, lp0, lp, n0, count)
      modifies this
      ensures ReadFactor(b0, body, cur, cur', f, rest, lp0, lp, n0, count) && Closed(kind, a, r, f, rest)
    {
      var inside, till := body[cur + 1..close], close + 1;
      ghost var b1 := body;
      InsideToks(b0, body, cur, close, a, r, lp0, lp, n0, count);
      var rep := kind == Round && till < |body| && body[till].Times?;
      var plus := rep && body[till].plus;
      f := SynthGroup(inside, kind, rep, plus, a, lp0, n0);
      hide Built, FactorPlain, AltsPlain, ReadAlts, ReadFactor, FlatToks, LitToks, AltsToks;
      if rep { till := till + 1; }
      Replace(cur, till);
      cur', rest := cur + 1, b1[till..];
      assert r == [Close(kind)] + Repetition(f) + rest;
      GroupRewritten(b0, b1, body, cur, close, till, f, a, n0, r, rest, count);
    }

    /** The new production of a bracket. */
    method SynthGroup(inside: seq<Tok>, kind: Kind, rep: bool, plus: bool, ghost a: Alts, ghost lp0: seq<Production>,
          ghost n0: nat)
      returns (ghost f: Factor)
      requires inside == FlatToks(AltsPlain(a, n0).s) && AltsOk(a) && Built(lp0, lp, count, AltsPlain(a, n0))
      requires rep ==> kind == Round
      modifies this`lp, this`count
      ensures f == if rep then Rep(Group(kind, a), plus) else Plain(Group(kind, a))
      ensures FactorOk(f) && Built(lp0, lp, count, FactorPlain(f, n0))
      ensures LitToks(FactorPlain(f, n0).s) == [Sym(NT(count - 1))]
      ensures count > 0 && lp != [] && lp[|lp| - 1].head + 1 == count
    {
      ghost var lp1, c := lp, AltsPlain(a, n0);
      assert count == c.next;
      hide Built, FactorPlain, FlatToks, AltsPlain, AltsOk;
      f := if rep then Rep(Group(kind, a), plus) else Plain(Group(kind, a));
      SynthKind(inside, kind, rep, plus, f, c);
      GroupBuilt(f, a, lp0, lp1, lp, n0, count);
    }

    /** Groups are one production; options and repetitions have the empty word besides, repetitions recur. */
    method SynthKind(inside: seq<Tok>, kind: Kind, rep: bool, plus: bool, ghost f: Factor,
          ghost c: Out<seq<seq<Lit>>>)
      requires |c.s| > 0 && inside == FlatToks(c.s) && count == c.next && f.b.Group? && f.b.kind == kind
      requires if rep then f.Rep? && f.plus == plus && kind == Round else f.Plain?
      modifies this`lp, this`count
      ensures Built(old(lp), lp, count, GroupOut(f, c))
      ensures lp != [] && lp[|lp| - 1].head + 1 == count
    {
      hide Built, Repeated, FlatToks, DefProd;
      if rep { SynthRecur(inside, !plus, true, true, c.s); }
      else if kind == Round { SynthRecur(inside, false, false, false, c.s); }
      else if kind == Square { SynthRecur(inside, true, false, true, c.s); }
      else { SynthRecur(inside, true, true, true, c.s); }
    }
  }
}
