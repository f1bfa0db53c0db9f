/** What the recogniser reads: derivations in which the start symbol's own items at position 0 get no nullable
    shortcut. */
module EarleyReads {
  import opened Grammar

  /** Productions of this symbol at this position are those whose items are put in directly. */
  predicate AtStart(start: nat, a: nat, i: nat) {
    a == start && i == 0
  }

  /** The symbols read the word between positions i and j, by a reading of height at most k. First says that they are
      the whole right-hand side of a production of start at position 0: then the first symbol is not passed over as
      null. */
  ghost predicate Reads(G: Prods, start: nat, nulls: set<nat>, s: seq<Lit>, w: string, i: nat, j: nat, k: nat,
      first: bool)
    decreases k, |s|
  {
    if s == [] then i == j
    else match s[0]
      case Ch(c) =>
        if c == EPSILON then !first && Reads(G, start, nulls, s[1..], w, i, j, k, false)
        else i < |w| && w[i] == c && Reads(G, start, nulls, s[1..], w, i + 1, j, k, false)
      case NT(a) =>
        || (!first && a in nulls && Reads(G, start, nulls, s[1..], w, i, j, k, false))
        || (k > 0 && exists p: nat, m: nat ::
             Uses(G, a, p) && Reads(G, start, nulls, G[p][1..], w, i, m, k - 1, AtStart(start, a, i)) &&
             Reads(G, start, nulls, s[1..], w, m, j, k, false))
  }

  ghost predicate SeqReads(G: Prods, start: nat, nulls: set<nat>, s: seq<Lit>, w: string, i: nat, j: nat, first: bool) {
    exists k: nat :: Reads(G, start, nulls, s, w, i, j, k, first)
  }

  /** The nonterminal reads the stretch by one of its productions, without the shortcut for itself. */
  ghost predicate SymbolReads(G: Prods, start: nat, nulls: set<nat>, a: nat, w: string, i: nat, j: nat) {
    exists p: nat :: Uses(G, a, p) && SeqReads(G, start, nulls, G[p][1..], w, i, j, AtStart(start, a, i))
  }

  /** The start symbol reads the whole input. */
  ghost predicate Accepts(G: Prods, start: nat, nulls: set<nat>, w: string) {
    SymbolReads(G, start, nulls, start, w, 0, |w|)
  }

  lemma {:induction false} ReadsMono(G: Prods, start: nat, nulls: set<nat>, s: seq<Lit>, w: string, i: nat, j: nat,
        k: nat, k': nat, first: bool)
    requires Reads(G, start, nulls, s, w, i, j, k, first) && k <= k'
    ensures Reads(G, start, nulls, s, w, i, j, k', first)
    decreases k, |s|
  {
    if s != [] {
      match s[0]
      case Ch(c) =>
        ReadsMono(G, start, nulls, s[1..], w, if c == EPSILON then i else i + 1, j, k, k', false);
      case NT(a) =>
        if !first && a in nulls && Reads(G, start, nulls, s[1..], w, i, j, k, false) {
          ReadsMono(G, start, nulls, s[1..], w, i, j, k, k', false);
        } else {
          var p: nat, m: nat :| Uses(G, a, p)
            && Reads(G, start, nulls, G[p][1..], w, i, m, k - 1, AtStart(start, a, i))
            && Reads(G, start, nulls, s[1..], w, m, j, k, false);
          ReadsMono(G, start, nulls, G[p][1..], w, i, m, k - 1, k' - 1, AtStart(start, a, i));
          ReadsMono(G, start, nulls, s[1..], w, m, j, k, k', false);
        }
    }
  }

  lemma {:induction false} ReadsCat(G: Prods, start: nat, nulls: set<nat>, s: seq<Lit>, t: seq<Lit>, w: string, i: nat,
        m: nat, j: nat, k: nat, first: bool)
    requires Reads(G, start, nulls, s, w, i, m, k, first) && Reads(G, start, nulls, t, w, m, j, k, first && s == [])
    ensures Reads(G, start, nulls, s + t, w, i, j, k, first)
    decreases k, |s|
  {
    if s == [] {
      assert s + t == t;
    } else {
      assert (s + t)[1..] == s[1..] + t;
      match s[0]
      case Ch(c) =>
        ReadsCat(G, start, nulls, s[1..], t, w, if c == EPSILON then i else i + 1, m, j, k, false);
      case NT(a) =>
        if !first && a in nulls && Reads(G, start, nulls, s[1..], w, i, m, k, false) {
          ReadsCat(G, start, nulls, s[1..], t, w, i, m, j, k, false);
        } else {
          var p: nat, n: nat :| Uses(G, a, p)
            && Reads(G, start, nulls, G[p][1..], w, i, n, k - 1, AtStart(start, a, i))
            && Reads(G, start, nulls, s[1..], w, n, m, k, false);
          ReadsCat(G, start, nulls, s[1..], t, w, n, m, j, k, false);
        }
    }
  }

  /** A reading of a prefix extended by one symbol. */
  lemma ReadsExtend(G: Prods, start: nat, nulls: set<nat>, s: seq<Lit>, l: Lit, w: string, i: nat, m: nat, j: nat,
        first: bool)
    requires SeqReads(G, start, nulls, s, w, i, m, first) && SeqReads(G, start, nulls, [l], w, m, j, first && s == [])
    ensures SeqReads(G, start, nulls, s + [l], w, i, j, first)
  {
    var k1: nat :| Reads(G, start, nulls, s, w, i, m, k1, first);
    var k2: nat :| Reads(G, start, nulls, [l], w, m, j, k2, first && s == []);
    var k := if k1 <= k2 then k2 else k1;
    ReadsMono(G, start, nulls, s, w, i, m, k1, k, first);
    ReadsMono(G, start, nulls, [l], w, m, j, k2, k, first && s == []);
    ReadsCat(G, start, nulls, s, [l], w, i, m, j, k, first);
  }

  lemma NothingRead(G: Prods, start: nat, nulls: set<nat>, w: string, i: nat, first: bool)
    ensures Reads(G, start, nulls, [], w, i, i, 0, first) && SeqReads(G, start, nulls, [], w, i, i, first)
  {
    assert Reads(G, start, nulls, [], w, i, i, 0, first);
  }

  /** A null symbol that is not the first reads nothing. */
  lemma NullRead(G: Prods, start: nat, nulls: set<nat>, l: Lit, w: string, i: nat)
    requires IsNull(nulls, l)
    ensures SeqReads(G, start, nulls, [l], w, i, i, false)
  {
    assert [l][1..] == [];
    NothingRead(G, start, nulls, w, i, false);
    assert Reads(G, start, nulls, [l], w, i, i, 0, false);
  }

  lemma CharRead(G: Prods, start: nat, nulls: set<nat>, c: char, w: string, i: nat, first: bool)
    requires c != EPSILON && i < |w| && w[i] == c
    ensures SeqReads(G, start, nulls, [Ch(c)], w, i, i + 1, first)
  {
    assert [Ch(c)][1..] == [];
    NothingRead(G, start, nulls, w, i + 1, false);
    assert Reads(G, start, nulls, [Ch(c)], w, i, i + 1, 0, first);
  }

  /** What a production reads, its left-hand side reads, wherever it stands. */
  lemma ProdReads(G: Prods, start: nat, nulls: set<nat>, p: nat, a: nat, w: string, i: nat, j: nat, first: bool)
    requires Uses(G, a, p) && SeqReads(G, start, nulls, G[p][1..], w, i, j, AtStart(start, a, i))
    ensures SeqReads(G, start, nulls, [NT(a)], w, i, j, first)
  {
    var k: nat :| Reads(G, start, nulls, G[p][1..], w, i, j, k, AtStart(start, a, i));
    var s, n := [NT(a)], k + 1;
    assert s[1..] == [];
    assert Reads(G, start, nulls, [], w, j, j, n, false);
    assert Reads(G, start, nulls, G[p][1..], w, i, j, n - 1, AtStart(start, a, i));
    assert Reads(G, start, nulls, s, w, i, j, n, first);
  }

  /** The grammar S = "" or S a is not ready, and the input "a" is not read although S derives it. */
  function LeftLoop(): Prods {
    [[NT(0), Ch(EPSILON)], [NT(0), NT(0), Ch('a')]]
  }

  lemma {:induction false} LoopReadsNothing(nulls: set<nat>, w: string, j: nat, k: nat, p: nat)
    requires p < 2
    ensures !Reads(LeftLoop(), 0, nulls, LeftLoop()[p][1..], w, 0, j, k, true)
    decreases k
  {
    var G := LeftLoop();
    if p == 1 && k > 0 {
      assert G[1][1..][0] == NT(0);
      var n := k - 1;
      forall q: nat, m: nat | Uses(G, 0, q) ensures !Reads(G, 0, nulls, G[q][1..], w, 0, m, n, AtStart(0, 0, 0)) {
        LoopReadsNothing(nulls, w, m, n, q);
      }
    }
  }

  lemma LoopRejected(nulls: set<nat>)
    ensures GrammarOk(LeftLoop()) && Derives(LeftLoop(), NT(0), "a", 0, 1) && !Accepts(LeftLoop(), 0, nulls, "a")
  {
    var G, w := LeftLoop(), "a";
    forall p: nat, k: nat | p < 2 ensures !Reads(G, 0, nulls, G[p][1..], w, 0, 1, k, true) {
      LoopReadsNothing(nulls, w, 1, k, p);
    }
    EmptyIn(w);
    CharDerives(G, 'a', w, 0);
    assert G[1][1..] == [NT(0)] + [Ch('a')];
    var k0: nat :| Der(G, [NT(0)], w, 0, 0, k0);
    SeqExtend(G, [NT(0)], Ch('a'), w, 0, 0, 1);
    ProdDerives(G, 1, 0, w, 0, 1);
  }

  lemma EmptyIn(w: string)
    ensures Derives(LeftLoop(), NT(0), w, 0, 0)
  {
    var G := LeftLoop();
    CharDerives(G, EPSILON, w, 0);
    assert G[0][1..] == [Ch(EPSILON)];
    ProdDerives(G, 0, 0, w, 0, 0);
  }
}
