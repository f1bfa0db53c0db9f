/** Earley items and what a saturated item set says about derivations. */
module EarleyItems {
  import opened Grammar
  import opened EarleyReads

  /** A production with a dot, the position where it was predicted and the position reached. */
  datatype Item = Item(at: nat, prod: nat, from: nat, dot: nat)

  predicate ItemOk(G: Prods, x: Item, w: string) {
    x.prod < |G| && 1 <= x.dot <= |G[x.prod]| && x.from <= x.at <= |w|
  }

  predicate Completed(G: Prods, x: Item)
    requires x.prod < |G|
  {
    |G[x.prod]| == x.dot
  }

  function Next(G: Prods, x: Item): Lit
    requires x.prod < |G| && x.dot < |G[x.prod]|
  {
    G[x.prod][x.dot]
  }

  function Advance(x: Item, at: nat): Item {
    Item(at, x.prod, x.from, x.dot + 1)
  }

  predicate NullableNext(G: Prods, nulls: set<nat>, x: Item) {
    x.prod < |G| && x.dot < |G[x.prod]| && IsNull(nulls, G[x.prod][x.dot])
  }

  /** An item put in at the start, without the nullable shortcut. */
  predicate StartItem(G: Prods, start: nat, x: Item) {
    x.at == 0 && x.from == 0 && x.dot == 1 && Uses(G, start, x.prod)
  }

  /** What every item says: the symbols before the dot derive the stretch from its origin to its position. */
  ghost predicate Sound(G: Prods, w: string, x: Item)
    requires ItemOk(G, x, w)
  {
    SeqDerives(G, G[x.prod][1..x.dot], w, x.from, x.at)
  }

  /** And more: they read it, by the rules of the recogniser. */
  ghost predicate Read(G: Prods, start: nat, nulls: set<nat>, w: string, x: Item)
    requires ItemOk(G, x, w)
  {
    SeqReads(G, start, nulls, G[x.prod][1..x.dot], w, x.from, x.at, AtOrigin(G, start, x))
  }

  predicate AtOrigin(G: Prods, start: nat, x: Item) {
    x.from == 0 && Uses(G, start, x.prod)
  }

  /** If start is nullable, some start production with a null right-hand side begins with another nonterminal. */
  predicate StartReady(G: Prods, start: nat, nulls: set<nat>) {
    start in nulls ==> exists p :: 0 <= p < |G| && ReadyProd(G, start, nulls, p)
  }

  predicate ReadyProd(G: Prods, start: nat, nulls: set<nat>, p: nat) {
    Uses(G, start, p) && AllNulls(nulls, G[p]) && |G[p]| > 1 && G[p][1].NT? && G[p][1] != NT(start)
  }

  /** At position 0 an empty start production never moves, and without a ready start production start items move only
      past another nonterminal. */
  predicate ZeroOk(G: Prods, start: nat, nulls: set<nat>, x: Item) {
    x.prod < |G| && 1 < x.dot <= |G[x.prod]| && x.at == 0 && Uses(G, start, x.prod) ==>
      G[x.prod][1] != Ch(EPSILON) && (!StartReady(G, start, nulls) ==> G[x.prod][1].NT? && G[x.prod][1] != NT(start))
  }

  ghost predicate Fine(G: Prods, start: nat, nulls: set<nat>, w: string, x: Item) {
    ItemOk(G, x, w) && Sound(G, w, x) && Read(G, start, nulls, w, x) && ZeroOk(G, start, nulls, x)
  }

  /** The nullable shortcut was taken from x, unless x was put in directly: a start item, or an item reached by
      scanning. */
  predicate NullOk(G: Prods, start: nat, nulls: set<nat>, R: set<Item>, x: Item) {
    NullableNext(G, nulls, x) ==>
      Advance(x, x.at) in R || StartItem(G, start, x) || (x.at > 0 && G[x.prod][x.dot].NT?)
  }

  // ----- saturation

  ghost predicate Predicted(G: Prods, R: set<Item>, x: Item)
    requires x.prod < |G| && x.dot < |G[x.prod]|
  {
    forall p: nat :: p < |G| && |G[p]| > 0 && G[p][0] == Next(G, x) ==> Item(x.at, p, x.at, 1) in R
  }

  predicate Waiting(G: Prods, x: Item, y: Item) {
    y.prod < |G| && x.prod < |G| && |G[x.prod]| > 0 && y.at == x.from && y.dot < |G[y.prod]| &&
      Next(G, y) == G[x.prod][0]
  }

  /** All items of S that wait for the left-hand side of x where x began have been advanced. */
  ghost predicate Finished(G: Prods, S: set<Item>, R: set<Item>, x: Item) {
    forall y :: y in S && Waiting(G, x, y) ==> Advance(y, x.at) in R
  }

  predicate Scanned(G: Prods, S: set<Item>, w: string, x: Item)
    requires x.prod < |G| && x.dot < |G[x.prod]|
  {
    Next(G, x).Ch? && x.at < |w| && Next(G, x) == Ch(w[x.at]) ==> Advance(x, x.at + 1) in S
  }

  /** The step of the recogniser on x has been done, with results in R. */
  ghost predicate Stepped(G: Prods, S: set<Item>, R: set<Item>, w: string, x: Item) {
    x.prod < |G| && x.dot <= |G[x.prod]| &&
    if Completed(G, x) then Finished(G, S, R, x)
    else if Next(G, x).NT? then Predicted(G, R, x)
    else Scanned(G, S, w, x)
  }

  /** All items up to position n have been processed and nothing is missing. */
  ghost predicate Saturated(G: Prods, S: set<Item>, w: string, n: nat) {
    forall x {:trigger Stepped(G, S, S, w, x)} :: x in S && x.at < n ==> Stepped(G, S, S, w, x)
  }

  ghost predicate AllFine(G: Prods, start: nat, nulls: set<nat>, w: string, R: set<Item>) {
    forall x {:trigger Fine(G, start, nulls, w, x)} :: x in R ==> Fine(G, start, nulls, w, x)
  }

  ghost predicate AllNullOk(G: Prods, start: nat, nulls: set<nat>, R: set<Item>) {
    forall x {:trigger NullOk(G, start, nulls, R, x)} :: x in R ==> NullOk(G, start, nulls, R, x)
  }

  ghost predicate HasStart(G: Prods, start: nat, S: set<Item>) {
    forall p: nat :: Uses(G, start, p) ==> Item(0, p, 0, 1) in S
  }

  /** The final item set, or the set after all positions before n. */
  ghost predicate Chart(G: Prods, start: nat, nulls: set<nat>, S: set<Item>, w: string, n: nat) {
    && GrammarOk(G) && NullsExact(G, nulls) && EPSILON !in w && HasStart(G, start, S)
    && AllFine(G, start, nulls, w, S) && AllNullOk(G, start, nulls, S) && Saturated(G, S, w, n)
  }

  // ----- completeness

  /** If start has an empty production, some start item is complete at position 0. */
  ghost predicate StartDone(G: Prods, start: nat, S: set<Item>) {
    (exists p: nat :: Uses(G, start, p) && EmptyProd(G, p)) ==>
    exists q: nat :: Uses(G, start, q) && Item(0, q, 0, |G[q]|) in S
  }

  predicate EmptyProd(G: Prods, p: nat) {
    p < |G| && |G[p]| == 2 && G[p][1] == Ch(EPSILON)
  }

  /** From an item in the set, the symbols after its dot lead through everything they derive. */
  lemma {:induction false} Complete(G: Prods, start: nat, nulls: set<nat>, S: set<Item>, w: string, x: Item, e: nat,
        j: nat, k: nat)
    requires Chart(G, start, nulls, S, w, |w| + 1) && (x.at > 0 || StartDone(G, start, S))
    requires x in S && x.prod < |G| && x.dot <= e <= |G[x.prod]| && j <= |w|
    requires !(StartItem(G, start, x) && EmptyProd(G, x.prod))
    requires Der(G, G[x.prod][x.dot..e], w, x.at, j, k)
    ensures Item(j, x.prod, x.from, e) in S
    decreases k, e - x.dot
  {
    assert Fine(G, start, nulls, w, x);
    var s := G[x.prod][x.dot..e];
    if x.dot < e {
      assert s[0] == Next(G, x) && s[1..] == G[x.prod][x.dot + 1..e];
      assert Stepped(G, S, S, w, x);
      match s[0]
      case Ch(c) =>
        CompleteChar(G, start, nulls, S, w, x, c);
        Complete(G, start, nulls, S, w, Advance(x, if c == EPSILON then x.at else x.at + 1), e, j, k);
      case NT(a) =>
        var p: nat, m: nat :| Uses(G, a, p) && Der(G, G[p][1..], w, x.at, m, k - 1) && Der(G, s[1..], w, m, j, k);
        DerSpan(G, G[p][1..], w, x.at, m, k - 1);
        DerSpan(G, s[1..], w, m, j, k);
        var y := Item(x.at, p, x.at, 1);
        assert y in S;
        var q := p;
        if StartItem(G, start, y) && EmptyProd(G, p) {
          q :| Uses(G, start, q) && Item(0, q, 0, |G[q]|) in S;
          EmptyDer(G, p, w, x.at, m, k - 1);
        } else {
          assert G[p][1..|G[p]|] == G[p][1..];
          Complete(G, start, nulls, S, w, y, |G[p]|, m, k - 1);
        }
        var z := Item(m, q, x.at, |G[q]|);
        assert z in S && Stepped(G, S, S, w, z) && Waiting(G, z, x);
        Complete(G, start, nulls, S, w, Advance(x, m), e, j, k);
    }
  }

  lemma EmptyDer(G: Prods, p: nat, w: string, i: nat, j: nat, k: nat)
    requires EmptyProd(G, p) && Der(G, G[p][1..], w, i, j, k)
    ensures i == j
  {
    var s := G[p][1..];
    assert s[0] == Ch(EPSILON) && s[1..] == [];
    assert Der(G, s[1..], w, i, j, k);
  }

  lemma CompleteChar(G: Prods, start: nat, nulls: set<nat>, S: set<Item>, w: string, x: Item, c: char)
    requires Chart(G, start, nulls, S, w, |w| + 1) && x in S && ItemOk(G, x, w)
    requires x.dot < |G[x.prod]| && Next(G, x) == Ch(c) && !(StartItem(G, start, x) && EmptyProd(G, x.prod))
    requires c == EPSILON || (x.at < |w| && w[x.at] == c)
    ensures Advance(x, if c == EPSILON then x.at else x.at + 1) in S
  {
    assert ProdOk(G[x.prod]);
    assert Stepped(G, S, S, w, x) && NullOk(G, start, nulls, S, x);
  }

  // ----- the start symbol

  /** At position 0 the nullable shortcut has been taken from every item but the start items. */
  lemma {:induction false} NullAdvance(G: Prods, start: nat, nulls: set<nat>, S: set<Item>, w: string, x: Item)
    requires Chart(G, start, nulls, S, w, |w| + 1) && x in S && x.at == 0 && !StartItem(G, start, x)
    requires x.prod < |G| && x.dot <= |G[x.prod]| && AllNulls(nulls, G[x.prod])
    ensures Item(0, x.prod, x.from, |G[x.prod]|) in S
    decreases |G[x.prod]| - x.dot
  {
    assert Fine(G, start, nulls, w, x);
    if x.dot < |G[x.prod]| {
      assert NullOk(G, start, nulls, S, x);
      NullAdvance(G, start, nulls, S, w, Advance(x, 0));
    }
  }

  lemma NullUses(G: Prods, nulls: set<nat>, a: nat) returns (p: nat)
    requires NullsExact(G, nulls) && a in nulls
    ensures Uses(G, a, p) && AllNulls(nulls, G[p])
  {
    assert Nullable(G, a);
    p := DerivesProd(G, a, "", 0, 0);
    NullSymbols(G, nulls, p, "", 0);
  }

  lemma NullSymbols(G: Prods, nulls: set<nat>, p: nat, w: string, i: nat)
    requires NullsExact(G, nulls) && p < |G| && |G[p]| > 0 && SeqDerives(G, G[p][1..], w, i, i)
    ensures AllNulls(nulls, G[p])
  {
    NullsClosedIf(G, nulls);
    var k: nat :| Der(G, G[p][1..], w, i, i, k);
    NullsComplete(G, nulls, G[p][1..], w, i, k);
    forall q | 1 <= q < |G[p]| ensures IsNull(nulls, G[p][q]) { assert G[p][1..][q - 1] in G[p][1..]; }
  }

  /** A ready start production is completed at position 0. */
  lemma ReadyDone(G: Prods, start: nat, nulls: set<nat>, S: set<Item>, w: string)
    requires Chart(G, start, nulls, S, w, |w| + 1) && StartReady(G, start, nulls)
    ensures StartDone(G, start, S)
  {
    if p: nat :| Uses(G, start, p) && EmptyProd(G, p) {
      NullsClosedIf(G, nulls);
      assert AllNulls(nulls, G[p]);
      var r :| 0 <= r < |G| && ReadyProd(G, start, nulls, r);
      var x := Item(0, r, 0, 1);
      assert x in S;
      var a := G[r][1].n;
      assert IsNull(nulls, G[r][1]);
      var q := NullUses(G, nulls, a);
      var y := Item(0, q, 0, 1);
      assert Stepped(G, S, S, w, x);
      assert y in S;
      NullAdvance(G, start, nulls, S, w, y);
      var z := Item(0, q, 0, |G[q]|);
      assert Stepped(G, S, S, w, z) && Waiting(G, z, x);
      NullAdvance(G, start, nulls, S, w, Item(0, r, 0, 2));
    }
  }

  /** The answer of the recogniser: a start production is complete over the whole input. */
  ghost predicate Recognized(G: Prods, start: nat, S: set<Item>, w: string) {
    exists p: nat :: Uses(G, start, p) && Item(|w|, p, 0, |G[p]|) in S
  }

  lemma RecognizedSound(G: Prods, start: nat, nulls: set<nat>, S: set<Item>, w: string)
    requires Chart(G, start, nulls, S, w, |w| + 1) && Recognized(G, start, S, w)
    ensures Derives(G, NT(start), w, 0, |w|)
  {
    var p: nat :| Uses(G, start, p) && Item(|w|, p, 0, |G[p]|) in S;
    assert Fine(G, start, nulls, w, Item(|w|, p, 0, |G[p]|));
    assert G[p][1..|G[p]|] == G[p][1..];
    ProdDerives(G, p, start, w, 0, |w|);
  }

  lemma RecognizedComplete(G: Prods, start: nat, nulls: set<nat>, S: set<Item>, w: string)
    requires Chart(G, start, nulls, S, w, |w| + 1) && StartReady(G, start, nulls) && Derives(G, NT(start), w, 0, |w|)
    ensures Recognized(G, start, S, w)
  {
    ReadyDone(G, start, nulls, S, w);
    var p := DerivesProd(G, start, w, 0, |w|);
    var k: nat :| Der(G, G[p][1..], w, 0, |w|, k);
    if EmptyProd(G, p) {
      EmptyDer(G, p, w, 0, |w|, k);
    } else {
      assert G[p][1..|G[p]|] == G[p][1..];
      Complete(G, start, nulls, S, w, Item(0, p, 0, 1), |G[p]|, |w|, k);
    }
  }

  /** A null symbol is passed over by every item but the start items: by the shortcut, or by completion. */
  lemma PassNull(G: Prods, start: nat, nulls: set<nat>, S: set<Item>, w: string, x: Item)
    requires Chart(G, start, nulls, S, w, |w| + 1) && x in S && x.prod < |G| && x.dot < |G[x.prod]|
    requires IsNull(nulls, Next(G, x)) && !StartItem(G, start, x)
    ensures Advance(x, x.at) in S
  {
    assert Fine(G, start, nulls, w, x) && NullOk(G, start, nulls, S, x);
    if Advance(x, x.at) !in S {
      NullDerives(G, nulls, Next(G, x), w, x.at);
      var k: nat :| Der(G, [Next(G, x)], w, x.at, x.at, k);
      assert G[x.prod][x.dot..x.dot + 1] == [Next(G, x)];
      Complete(G, start, nulls, S, w, x, x.dot + 1, x.at, k);
    }
  }

  /** From an item in the set, the symbols after its dot lead through everything they read. */
  lemma {:induction false} CompleteRead(G: Prods, start: nat, nulls: set<nat>, S: set<Item>, w: string, x: Item,
        e: nat, j: nat, k: nat)
    requires Chart(G, start, nulls, S, w, |w| + 1)
    requires x in S && x.prod < |G| && x.dot <= e <= |G[x.prod]|
    requires Reads(G, start, nulls, G[x.prod][x.dot..e], w, x.at, j, k, StartItem(G, start, x))
    ensures Item(j, x.prod, x.from, e) in S
    decreases k, e - x.dot
  {
    assert Fine(G, start, nulls, w, x);
    var s := G[x.prod][x.dot..e];
    if x.dot < e {
      assert s[0] == Next(G, x) && s[1..] == G[x.prod][x.dot + 1..e];
      assert Stepped(G, S, S, w, x);
      match s[0]
      case Ch(c) =>
        if c == EPSILON {
          PassNull(G, start, nulls, S, w, x);
          CompleteRead(G, start, nulls, S, w, Advance(x, x.at), e, j, k);
        } else {
          CompleteRead(G, start, nulls, S, w, Advance(x, x.at + 1), e, j, k);
        }
      case NT(a) =>
        if !StartItem(G, start, x) && a in nulls && Reads(G, start, nulls, s[1..], w, x.at, j, k, false) {
          PassNull(G, start, nulls, S, w, x);
          CompleteRead(G, start, nulls, S, w, Advance(x, x.at), e, j, k);
        } else {
          var p: nat, m: nat :| Uses(G, a, p)
            && Reads(G, start, nulls, G[p][1..], w, x.at, m, k - 1, AtStart(start, a, x.at))
            && Reads(G, start, nulls, s[1..], w, m, j, k, false);
          var y := Item(x.at, p, x.at, 1);
          assert y in S && G[p][1..|G[p]|] == G[p][1..];
          CompleteRead(G, start, nulls, S, w, y, |G[p]|, m, k - 1);
          var z := Item(m, p, x.at, |G[p]|);
          assert z in S && Fine(G, start, nulls, w, z) && Stepped(G, S, S, w, z) && Waiting(G, z, x);
          CompleteRead(G, start, nulls, S, w, Advance(x, m), e, j, k);
        }
    }
  }

  /** The recogniser accepts exactly what the start symbol reads. */
  lemma RecognizedReads(G: Prods, start: nat, nulls: set<nat>, S: set<Item>, w: string)
    requires Chart(G, start, nulls, S, w, |w| + 1)
    ensures Recognized(G, start, S, w) <==> Accepts(G, start, nulls, w)
  {
    if p: nat :| Uses(G, start, p) && Item(|w|, p, 0, |G[p]|) in S {
      var x := Item(|w|, p, 0, |G[p]|);
      assert Fine(G, start, nulls, w, x) && AtOrigin(G, start, x);
      assert G[p][1..|G[p]|] == G[p][1..];
      assert SeqReads(G, start, nulls, G[p][1..], w, 0, |w|, true);
    }
    if p: nat :| Uses(G, start, p) && SeqReads(G, start, nulls, G[p][1..], w, 0, |w|, true) {
      var k: nat :| Reads(G, start, nulls, G[p][1..], w, 0, |w|, k, true);
      assert G[p][1..|G[p]|] == G[p][1..];
      CompleteRead(G, start, nulls, S, w, Item(0, p, 0, 1), |G[p]|, |w|, k);
    }
  }

  /** Without a ready start production the empty input is rejected although start derives it. */
  lemma NotReady(G: Prods, start: nat, nulls: set<nat>, S: set<Item>, w: string)
    requires Chart(G, start, nulls, S, w, |w| + 1) && !StartReady(G, start, nulls) && w == ""
    ensures !Recognized(G, start, S, w) && Derives(G, NT(start), w, 0, |w|)
  {
    assert Nullable(G, start);
    if p: nat :| Uses(G, start, p) && Item(0, p, 0, |G[p]|) in S {
      assert Fine(G, start, nulls, w, Item(0, p, 0, |G[p]|));
      assert G[p][1..|G[p]|] == G[p][1..];
      NullSymbols(G, nulls, p, w, 0);
      assert ReadyProd(G, start, nulls, p);
    }
  }

  /** A grammar that is not ready: its only start production is the empty one. */
  lemma EmptyStartUnready(nulls: set<nat>)
    requires NullsExact([[NT(0), Ch(EPSILON)]], nulls)
    ensures GrammarOk([[NT(0), Ch(EPSILON)]]) && !StartReady([[NT(0), Ch(EPSILON)]], 0, nulls)
  {
    var G := [[NT(0), Ch(EPSILON)]];
    NullsClosedIf(G, nulls);
    assert AllNulls(nulls, G[0]) && G[0][0].n in nulls;
  }

  // ----- steps on item sets

  lemma SteppedGrow(G: Prods, S: set<Item>, R: set<Item>, S': set<Item>, R': set<Item>, w: string, x: Item)
    requires Stepped(G, S, R, w, x) && S <= S' && R <= R' && forall y :: y in S' && y !in S ==> y.at != x.from
    ensures Stepped(G, S', R', w, x)
  {
  }

  /** The item after a null symbol. */
  lemma NullFine(G: Prods, start: nat, nulls: set<nat>, w: string, x: Item)
    requires NullsExact(G, nulls) && Fine(G, start, nulls, w, x) && NullableNext(G, nulls, x) && !StartItem(G, start, x)
    ensures Fine(G, start, nulls, w, Advance(x, x.at))
  {
    NullDerives(G, nulls, Next(G, x), w, x.at);
    AdvanceSound(G, w, x, x.at);
    NullRead(G, start, nulls, Next(G, x), w, x.at);
    AdvanceRead(G, start, nulls, w, x, x.at);
  }

  lemma AdvanceSound(G: Prods, w: string, x: Item, j: nat)
    requires ItemOk(G, x, w) && Sound(G, w, x) && x.dot < |G[x.prod]| && Derives(G, Next(G, x), w, x.at, j)
    requires x.at <= j <= |w|
    ensures ItemOk(G, Advance(x, j), w) && Sound(G, w, Advance(x, j))
  {
    SeqExtend(G, G[x.prod][1..x.dot], Next(G, x), w, x.from, x.at, j);
    assert G[x.prod][1..x.dot] + [Next(G, x)] == G[x.prod][1..x.dot + 1];
  }

  lemma AdvanceRead(G: Prods, start: nat, nulls: set<nat>, w: string, x: Item, j: nat)
    requires ItemOk(G, x, w) && Sound(G, w, x) && Read(G, start, nulls, w, x) && x.dot < |G[x.prod]|
    requires x.at <= j <= |w| && SeqReads(G, start, nulls, [Next(G, x)], w, x.at, j, StartItem(G, start, x))
    ensures Read(G, start, nulls, w, Advance(x, j))
  {
    var s := G[x.prod][1..x.dot];
    assert s + [Next(G, x)] == G[x.prod][1..x.dot + 1];
    if AtOrigin(G, start, x) && s == [] {
      var k: nat :| Der(G, s, w, x.from, x.at, k);
      assert StartItem(G, start, x);
    }
    ReadsExtend(G, start, nulls, s, Next(G, x), w, x.from, x.at, j, AtOrigin(G, start, x));
  }

  lemma ScanFine(G: Prods, start: nat, nulls: set<nat>, R: set<Item>, w: string, x: Item)
    requires Fine(G, start, nulls, w, x) && GrammarOk(G) && EPSILON !in w
    requires x.dot < |G[x.prod]| && x.at < |w| && Next(G, x) == Ch(w[x.at])
    ensures Fine(G, start, nulls, w, Advance(x, x.at + 1))
    ensures NullOk(G, start, nulls, R, Advance(x, x.at + 1))
  {
    CharDerives(G, w[x.at], w, x.at);
    AdvanceSound(G, w, x, x.at + 1);
    CharRead(G, start, nulls, w[x.at], w, x.at, StartItem(G, start, x));
    AdvanceRead(G, start, nulls, w, x, x.at + 1);
    assert ProdOk(G[x.prod]);
  }

  lemma PredictFine(G: Prods, start: nat, nulls: set<nat>, w: string, p: nat, n: nat)
    requires p < |G| && |G[p]| > 0 && n <= |w|
    ensures Fine(G, start, nulls, w, Item(n, p, n, 1))
  {
    assert Der(G, G[p][1..1], w, n, n, 0);
    NothingRead(G, start, nulls, w, n, AtOrigin(G, start, Item(n, p, n, 1)));
  }

  lemma CompleteFine(G: Prods, start: nat, nulls: set<nat>, w: string, x: Item, y: Item)
    requires NullsExact(G, nulls) && GrammarOk(G)
    requires Fine(G, start, nulls, w, x) && Fine(G, start, nulls, w, y) && Completed(G, x) && Waiting(G, x, y)
    ensures Fine(G, start, nulls, w, Advance(y, x.at))
  {
    assert G[x.prod][1..x.dot] == G[x.prod][1..] && ProdOk(G[x.prod]);
    ProdDerives(G, x.prod, G[x.prod][0].n, w, x.from, x.at);
    AdvanceSound(G, w, y, x.at);
    ProdReads(G, start, nulls, x.prod, G[x.prod][0].n, w, x.from, x.at, StartItem(G, start, y));
    AdvanceRead(G, start, nulls, w, y, x.at);
    if x.at == 0 && Uses(G, start, y.prod) && !StartReady(G, start, nulls) && y.dot == 1 {
      NullSymbols(G, nulls, x.prod, w, 0);
      if G[y.prod][1] == NT(start) {
        assert ReadyProd(G, start, nulls, x.prod);
      }
    }
  }

  // ----- the items there can be

  function Universe(G: Prods, w: string): set<Item> {
    set a, p, f, d | 0 <= a <= |w| && 0 <= p < |G| && 0 <= f <= |w| && 0 <= d <= |G[p]| :: Item(a, p, f, d)
  }

  lemma InUniverse(G: Prods, start: nat, nulls: set<nat>, w: string, S: set<Item>)
    requires AllFine(G, start, nulls, w, S)
    ensures S <= Universe(G, w)
  {
    forall x | x in S ensures x in Universe(G, w) { assert Fine(G, start, nulls, w, x); }
  }

  lemma SubsetSize<A>(X: set<A>, Y: set<A>)
    requires X <= Y
    ensures |X| <= |Y| && (|X| == |Y| ==> X == Y)
  {
    if y :| y in Y && y !in X {
      SubsetSize(X, Y - {y});
    } else {
      assert X == Y;
    }
  }
}
