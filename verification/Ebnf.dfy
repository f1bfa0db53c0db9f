/** Productions with brackets, repetition and alternatives: their words and their plain form. */
module Ebnf {
  import opened Grammar

  datatype Kind = Square | Round | Curly

  /** The elements of a production's right-hand side as they are written. */
  datatype Tok = Sym(l: Lit) | Bar | Open(kind: Kind) | Close(kind: Kind) | Times(plus: bool)

  /** How a right-hand side is read. */
  datatype Alts = One(a: Alt) | Or(a: Alt, rest: Alts)
  datatype Alt = Last(f: Factor) | Then(f: Factor, next: Alt)
  datatype Factor = Plain(b: Base) | Rep(b: Base, plus: bool)
  datatype Base = Leaf(l: Lit) | Group(kind: Kind, alts: Alts)

  /** Only symbols and round brackets are repeated. */
  predicate FactorOk(f: Factor) {
    BaseOk(f.b) && (f.Rep? && f.b.Group? ==> f.b.kind == Round)
  }

  predicate BaseOk(b: Base) {
    b.Group? ==> AltsOk(b.alts)
  }

  predicate AltOk(a: Alt) {
    FactorOk(a.f) && (a.Then? ==> AltOk(a.next))
  }

  predicate AltsOk(a: Alts) {
    AltOk(a.a) && (a.Or? ==> AltsOk(a.rest))
  }

  // ----- how they are written

  function BaseToks(b: Base): (s: seq<Tok>)
    ensures |s| > 0 && s[0] == if b.Leaf? then Sym(b.l) else Open(b.kind)
  {
    match b
    case Leaf(l) => [Sym(l)]
    case Group(kind, a) => [Open(kind)] + AltsToks(a) + [Close(kind)]
  }

  function FactorToks(f: Factor): (s: seq<Tok>)
    ensures |s| > 0 && s[0] == if f.b.Leaf? then Sym(f.b.l) else Open(f.b.kind)
  {
    match f
    case Plain(b) => BaseToks(b)
    case Rep(b, plus) => BaseToks(b) + [Times(plus)]
  }

  function AltToks(a: Alt): (s: seq<Tok>)
    ensures |s| > 0 && (s[0].Sym? || s[0].Open?)
  {
    if a.Last? then FactorToks(a.f) else FactorToks(a.f) + AltToks(a.next)
  }

  function AltsToks(a: Alts): (s: seq<Tok>)
    ensures |s| > 0 && (s[0].Sym? || s[0].Open?)
  {
    if a.One? then AltToks(a.a) else AltToks(a.a) + [Bar] + AltsToks(a.rest)
  }

  // ----- the words they stand for

  datatype Reading = Reading(head: nat, alts: Alts)

  /** The symbol yields the word between positions i and j, with at most k nested or repeated steps. */
  ghost predicate LitGen(P: seq<Reading>, l: Lit, w: string, i: nat, j: nat, k: nat)
    decreases k, l
  {
    match l
    case Ch(c) => if c == EPSILON then i == j else i < |w| && w[i] == c && j == i + 1
    case NT(a) => k > 0 && exists p :: 0 <= p < |P| && P[p].head == a && AltsGen(P, P[p].alts, w, i, j, k - 1)
  }

  ghost predicate BaseGen(P: seq<Reading>, b: Base, w: string, i: nat, j: nat, k: nat)
    decreases k, b, 0
  {
    match b
    case Leaf(l) => LitGen(P, l, w, i, j, k)
    case Group(_, a) => AltsGen(P, a, w, i, j, k)
  }

  /** One or more repetitions, or none if plus is not asked for. */
  ghost predicate RepGen(P: seq<Reading>, b: Base, plus: bool, w: string, i: nat, j: nat, k: nat)
    decreases k, b, 1
  {
    (if plus then BaseGen(P, b, w, i, j, k) else i == j)
    || (k > 0 && exists m: nat :: BaseGen(P, b, w, i, m, k) && RepGen(P, b, plus, w, m, j, k - 1))
  }

  ghost predicate FactorGen(P: seq<Reading>, f: Factor, w: string, i: nat, j: nat, k: nat)
    decreases k, f
  {
    match f
    case Plain(b) =>
      if b.Leaf? || b.kind == Round then BaseGen(P, b, w, i, j, k)
      else if b.kind == Square then i == j || BaseGen(P, b, w, i, j, k)
      else RepGen(P, b, false, w, i, j, k)
    case Rep(b, plus) => RepGen(P, b, plus, w, i, j, k)
  }

  ghost predicate AltGen(P: seq<Reading>, a: Alt, w: string, i: nat, j: nat, k: nat)
    decreases k, a
  {
    if a.Last? then FactorGen(P, a.f, w, i, j, k)
    else exists m: nat :: FactorGen(P, a.f, w, i, m, k) && AltGen(P, a.next, w, m, j, k)
  }

  ghost predicate AltsGen(P: seq<Reading>, a: Alts, w: string, i: nat, j: nat, k: nat)
    decreases k, a
  {
    AltGen(P, a.a, w, i, j, k) || (a.Or? && AltsGen(P, a.rest, w, i, j, k))
  }

  /** The nonterminal yields the word between positions i and j. */
  ghost predicate Yields(P: seq<Reading>, a: nat, w: string, i: nat, j: nat) {
    exists k: nat :: LitGen(P, NT(a), w, i, j, k)
  }

  // ----- the plain form

  /** All alternatives of a nonterminal. */
  datatype Def = Def(head: nat, alts: seq<seq<Lit>>)

  /** A piece in plain form, the nonterminals defined on the way, and the next fresh one. */
  datatype Out<A> = Out(s: A, defs: seq<Def>, next: nat)

  const EMPTY: seq<Lit> := [Ch(EPSILON)]

  /** A repetition is a step and itself again, or the step alone or nothing. */
  function StepDef(x: seq<Lit>, r: nat, plus: bool): Def {
    Def(r, [x + [NT(r)], if plus then x else EMPTY])
  }

  /** A nonterminal for repetition. A step with several alternatives gets a nonterminal of its own. */
  function Repeated(c: Out<seq<seq<Lit>>>, plus: bool): Out<seq<Lit>>
    requires |c.s| > 0
  {
    if |c.s| > 1 then
      var x, r := [NT(c.next)], c.next + 1;
      Out([NT(r)], c.defs + [Def(c.next, c.s)] + [StepDef(x, r, plus)], r + 1)
    else
      var x, r := c.s[0], c.next;
      Out([NT(r)], c.defs + [StepDef(x, r, plus)], r + 1)
  }

  function BasePlain(b: Base, n: nat): (c: Out<seq<seq<Lit>>>)
    ensures |c.s| > 0
  {
    match b
    case Leaf(l) => Out([[l]], [], n)
    case Group(_, a) => AltsPlain(a, n)
  }

  function FactorPlain(f: Factor, n: nat): Out<seq<Lit>> {
    match f
    case Plain(Leaf(l)) => Out([l], [], n)
    case Plain(Group(kind, a)) =>
      var c := AltsPlain(a, n);
      if kind == Curly then Repeated(c, false)
      else Out([NT(c.next)], c.defs + [Def(c.next, c.s + if kind == Square then [EMPTY] else [])], c.next + 1)
    case Rep(b, plus) => Repeated(BasePlain(b, n), plus)
  }

  function AltPlain(a: Alt, n: nat): Out<seq<Lit>> {
    var c := FactorPlain(a.f, n);
    if a.Last? then c
    else
      var d := AltPlain(a.next, c.next);
      Out(c.s + d.s, c.defs + d.defs, d.next)
  }

  function AltsPlain(a: Alts, n: nat): (c: Out<seq<seq<Lit>>>)
    ensures |c.s| > 0
  {
    var c := AltPlain(a.a, n);
    if a.One? then Out([c.s], c.defs, c.next)
    else
      var d := AltsPlain(a.rest, c.next);
      Out([c.s] + d.s, c.defs + d.defs, d.next)
  }

  /** The nonterminals a reading mentions are below n. */
  predicate LitBelow(l: Lit, n: nat) {
    l.NT? ==> l.n < n
  }

  predicate BaseBelow(b: Base, n: nat) {
    match b case Leaf(l) => LitBelow(l, n) case Group(_, a) => AltsBelow(a, n)
  }

  predicate AltBelow(a: Alt, n: nat) {
    BaseBelow(a.f.b, n) && (a.Then? ==> AltBelow(a.next, n))
  }

  predicate AltsBelow(a: Alts, n: nat) {
    AltBelow(a.a, n) && (a.Or? ==> AltsBelow(a.rest, n))
  }
}
