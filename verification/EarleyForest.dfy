/** What a packed parse forest says. */
module EarleyForest {
  import opened Grammar
  import opened EarleyReads
  import opened EarleyItems

  /** A symbol with the stretch of input it spans. */
  datatype PNode = PNode(l: Lit, first: nat, second: nat)

  /** The nodes laid end to end cover the input from i to j, one for each symbol, each derivable. */
  ghost predicate Tiles(G: Prods, s: seq<Lit>, w: string, i: nat, j: nat, kids: seq<PNode>)
    decreases |s|
  {
    if s == [] then kids == [] && i == j
    else
      && |kids| > 0 && kids[0].l == s[0] && kids[0].first == i && Derives(G, s[0], w, i, kids[0].second)
      && Tiles(G, s[1..], w, kids[0].second, j, kids[1..])
  }

  /** A completed item for the nonterminal. */
  ghost predicate CompletedAt(G: Prods, S: set<Item>, a: nat, i: nat, m: nat) {
    exists x :: x in S && CompletedFor(G, x, a, i) && x.at == m
  }

  predicate CompletedFor(G: Prods, x: Item, a: nat, i: nat) {
    x.prod < |G| && Completed(G, x) && Uses(G, a, x.prod) && x.from == i
  }

  /** The same with the children the parser looks at: matching characters, nonterminals with a completed item. */
  ghost predicate Built(G: Prods, S: set<Item>, s: seq<Lit>, w: string, i: nat, j: nat, kids: seq<PNode>)
    decreases |s|
  {
    if s == [] then kids == [] && i == j
    else
      && |kids| > 0 && kids[0].l == s[0] && kids[0].first == i && ChildAt(G, S, s[0], w, i, kids[0].second)
      && Built(G, S, s[1..], w, kids[0].second, j, kids[1..])
  }

  ghost predicate ChildAt(G: Prods, S: set<Item>, l: Lit, w: string, i: nat, m: nat) {
    match l
    case NT(a) => CompletedAt(G, S, a, i, m)
    case Ch(c) => if c == EPSILON then m == i else i < |w| && w[i] == c && m == i + 1
  }

  /** A way to build a node from a completed item. */
  ghost predicate PackOf(G: Prods, S: set<Item>, w: string, node: PNode, x: Item, kids: seq<PNode>) {
    node.l.NT? && CompletedFor(G, x, node.l.n, node.first) && x.at == node.second
    && Built(G, S, G[x.prod][1..], w, node.first, node.second, kids)
  }

  ghost predicate IsPack(G: Prods, S: set<Item>, w: string, node: PNode, kids: seq<PNode>) {
    exists x :: x in S && PackOf(G, S, w, node, x, kids)
  }

  type Forest = map<PNode, set<seq<PNode>>>

  /** The entry of a node holds all ways to build it, and the nonterminals in them have entries. */
  ghost predicate EntryOk(G: Prods, S: set<Item>, w: string, f: Forest, node: PNode)
    requires node in f
  {
    && node.l.NT? && CompletedAt(G, S, node.l.n, node.first, node.second)
    && (forall kids :: kids in f[node] <==> IsPack(G, S, w, node, kids))
    && (forall kids: seq<PNode>, k :: kids in f[node] && 0 <= k < |kids| && kids[k].l.NT? ==> kids[k] in f)
  }

  ghost predicate ForestOk(G: Prods, S: set<Item>, w: string, f: Forest) {
    forall node :: node in f ==> EntryOk(G, S, w, f, node)
  }

  lemma {:induction false} BuiltSpan(G: Prods, start: nat, nulls: set<nat>, S: set<Item>, s: seq<Lit>, w: string,
      i: nat, j: nat, kids: seq<PNode>)
    requires AllFine(G, start, nulls, w, S) && Built(G, S, s, w, i, j, kids)
    ensures i <= j && |kids| == |s|
    decreases |s|
  {
    if s != [] {
      BuiltSpan(G, start, nulls, S, s[1..], w, kids[0].second, j, kids[1..]);
      if s[0].NT? {
        var x :| x in S && CompletedFor(G, x, s[0].n, i) && x.at == kids[0].second;
        assert Fine(G, start, nulls, w, x);
      }
    }
  }

  // ----- children in the forest are exactly the derivable ones

  /** Every production of the nonterminal has been started at position i. */
  ghost predicate PredictedAt(G: Prods, S: set<Item>, a: nat, i: nat) {
    forall p: nat :: Uses(G, a, p) ==> Item(i, p, i, 1) in S
  }

  /** The start item of an empty start production, which never completes. */
  predicate Stuck(G: Prods, start: nat, p: nat, i: nat) {
    i == 0 && Uses(G, start, p) && EmptyProd(G, p)
  }

  lemma CompletedIff(G: Prods, start: nat, nulls: set<nat>, S: set<Item>, w: string, a: nat, i: nat, j: nat)
    requires Chart(G, start, nulls, S, w, |w| + 1) && StartReady(G, start, nulls) && PredictedAt(G, S, a, i) && i <= |w|
    ensures CompletedAt(G, S, a, i, j) <==> Derives(G, NT(a), w, i, j)
  {
    if CompletedAt(G, S, a, i, j) {
      var x :| x in S && CompletedFor(G, x, a, i) && x.at == j;
      assert Fine(G, start, nulls, w, x);
      assert G[x.prod][1..x.dot] == G[x.prod][1..];
      ProdDerives(G, x.prod, a, w, i, j);
    }
    if Derives(G, NT(a), w, i, j) {
      ReadyDone(G, start, nulls, S, w);
      var p := DerivesProd(G, a, w, i, j);
      if Stuck(G, start, p, i) {
        var k: nat :| Der(G, G[p][1..], w, i, j, k);
        EmptyDer(G, p, w, i, j, k);
        var q: nat :| Uses(G, start, q) && Item(0, q, 0, |G[q]|) in S;
        assert CompletedFor(G, Item(0, q, 0, |G[q]|), a, i);
      } else {
        ProdCompleted(G, start, nulls, S, w, p, i, j);
        assert CompletedFor(G, Item(j, p, i, |G[p]|), a, i);
      }
    }
  }

  lemma ProdCompleted(G: Prods, start: nat, nulls: set<nat>, S: set<Item>, w: string, p: nat, i: nat, j: nat)
    requires Chart(G, start, nulls, S, w, |w| + 1) && StartDone(G, start, S)
    requires p < |G| && Item(i, p, i, 1) in S && !Stuck(G, start, p, i) && SeqDerives(G, G[p][1..], w, i, j)
    ensures Item(j, p, i, |G[p]|) in S
  {
    assert Fine(G, start, nulls, w, Item(i, p, i, 1));
    var k: nat :| Der(G, G[p][1..], w, i, j, k);
    DerSpan(G, G[p][1..], w, i, j, k);
    assert G[p][1..|G[p]|] == G[p][1..];
    Complete(G, start, nulls, S, w, Item(i, p, i, 1), |G[p]|, j, k);
  }

  lemma ChildIff(G: Prods, start: nat, nulls: set<nat>, S: set<Item>, w: string, x: Item, m: nat)
    requires Chart(G, start, nulls, S, w, |w| + 1) && StartReady(G, start, nulls)
    requires x in S && x.prod < |G| && x.dot < |G[x.prod]|
    ensures ChildAt(G, S, Next(G, x), w, x.at, m) <==> Derives(G, Next(G, x), w, x.at, m)
  {
    assert Fine(G, start, nulls, w, x);
    match Next(G, x)
    case Ch(c) =>
      CharDerives(G, c, w, x.at);
      if Derives(G, Ch(c), w, x.at, m) { CharOnly(G, c, w, x.at, m); }
    case NT(a) =>
      assert Stepped(G, S, S, w, x);
      CompletedIff(G, start, nulls, S, w, a, x.at, m);
  }

  lemma CharOnly(G: Prods, c: char, w: string, i: nat, m: nat)
    requires Derives(G, Ch(c), w, i, m)
    ensures if c == EPSILON then m == i else i < |w| && w[i] == c && m == i + 1
  {
    var s := [Ch(c)];
    var k: nat :| Der(G, s, w, i, m, k);
    assert s[0] == Ch(c) && s[1..] == [];
    assert Der(G, [], w, if c == EPSILON then i else i + 1, m, k) by { assert Der(G, s, w, i, m, k); }
  }

  /** From an item on, the tilings the parser sees are the tilings there are. */
  lemma {:induction false} BuiltIff(G: Prods, start: nat, nulls: set<nat>, S: set<Item>, w: string, x: Item, j: nat,
        kids: seq<PNode>)
    requires Chart(G, start, nulls, S, w, |w| + 1) && StartReady(G, start, nulls)
    requires x in S && x.prod < |G| && x.dot <= |G[x.prod]| && !(x.dot == 1 && Stuck(G, start, x.prod, x.at))
    ensures Built(G, S, G[x.prod][x.dot..], w, x.at, j, kids) <==> Tiles(G, G[x.prod][x.dot..], w, x.at, j, kids)
    decreases |G[x.prod]| - x.dot
  {
    assert Fine(G, start, nulls, w, x);
    if x.dot < |G[x.prod]| && |kids| > 0 {
      var s, m := G[x.prod][x.dot..], kids[0].second;
      assert s[0] == Next(G, x) && s[1..] == G[x.prod][x.dot + 1..];
      ChildIff(G, start, nulls, S, w, x, m);
      if Derives(G, s[0], w, x.at, m) {
        ChildAdvance(G, start, nulls, S, w, x, m);
        BuiltIff(G, start, nulls, S, w, Advance(x, m), j, kids[1..]);
      }
    }
  }

  lemma ChildAdvance(G: Prods, start: nat, nulls: set<nat>, S: set<Item>, w: string, x: Item, m: nat)
    requires Chart(G, start, nulls, S, w, |w| + 1) && StartReady(G, start, nulls)
    requires x in S && x.prod < |G| && x.dot < |G[x.prod]| && !(x.dot == 1 && Stuck(G, start, x.prod, x.at))
    requires Derives(G, Next(G, x), w, x.at, m)
    ensures Advance(x, m) in S
  {
    assert Fine(G, start, nulls, w, x);
    ReadyDone(G, start, nulls, S, w);
    var k: nat :| Der(G, [Next(G, x)], w, x.at, m, k);
    DerSpan(G, [Next(G, x)], w, x.at, m, k);
    assert G[x.prod][x.dot..x.dot + 1] == [Next(G, x)];
    Complete(G, start, nulls, S, w, x, x.dot + 1, m, k);
  }

  lemma {:induction false} TilesDerive(G: Prods, s: seq<Lit>, w: string, i: nat, j: nat, kids: seq<PNode>)
    requires Tiles(G, s, w, i, j, kids)
    ensures SeqDerives(G, s, w, i, j)
    decreases |s|
  {
    if s == [] {
      assert Der(G, s, w, i, j, 0);
    } else {
      var m := kids[0].second;
      TilesDerive(G, s[1..], w, m, j, kids[1..]);
      var k1: nat :| Der(G, [s[0]], w, i, m, k1);
      var k2: nat :| Der(G, s[1..], w, m, j, k2);
      var k := if k1 <= k2 then k2 else k1;
      DerMono(G, [s[0]], w, i, m, k1, k); DerMono(G, s[1..], w, m, j, k2, k);
      DerCat(G, [s[0]], s[1..], w, i, m, j, k);
      assert [s[0]] + s[1..] == s;
    }
  }

  /** The packs of a node are exactly the tilings of its stretch by right-hand sides of its symbol, save the empty
      start production at position 0. */
  lemma PackIff(G: Prods, start: nat, nulls: set<nat>, S: set<Item>, w: string, node: PNode, kids: seq<PNode>)
    requires Chart(G, start, nulls, S, w, |w| + 1) && StartReady(G, start, nulls)
    requires node.l.NT? && node.first <= |w| && PredictedAt(G, S, node.l.n, node.first)
    ensures IsPack(G, S, w, node, kids) <==> exists p: nat :: Tiling(G, start, w, node, p, kids)
  {
    var i, j := node.first, node.second;
    if IsPack(G, S, w, node, kids) {
      var x :| x in S && PackOf(G, S, w, node, x, kids);
      assert Fine(G, start, nulls, w, x) && ProdOk(G[x.prod]);
      CompletedNotStuck(G, start, nulls, w, x);
      BuiltIff(G, start, nulls, S, w, Item(i, x.prod, i, 1), j, kids);
      assert Tiling(G, start, w, node, x.prod, kids);
    }
    if p: nat :| Tiling(G, start, w, node, p, kids) {
      ReadyDone(G, start, nulls, S, w);
      TilesDerive(G, G[p][1..], w, i, j, kids);
      ProdCompleted(G, start, nulls, S, w, p, i, j);
      BuiltIff(G, start, nulls, S, w, Item(i, p, i, 1), j, kids);
      assert PackOf(G, S, w, node, Item(j, p, i, |G[p]|), kids);
    }
  }

  lemma CompletedNotStuck(G: Prods, start: nat, nulls: set<nat>, w: string, x: Item)
    requires Fine(G, start, nulls, w, x) && Completed(G, x) && |G[x.prod]| >= 2
    ensures !Stuck(G, start, x.prod, x.from)
  {
    hide Read;
    if Stuck(G, start, x.prod, x.from) {
      assert G[x.prod][1..x.dot] == G[x.prod][1..];
      var k: nat :| Der(G, G[x.prod][1..], w, x.from, x.at, k);
      EmptyDer(G, x.prod, w, x.from, x.at, k);
    }
  }

  ghost predicate Tiling(G: Prods, start: nat, w: string, node: PNode, p: nat, kids: seq<PNode>) {
    node.l.NT? && Uses(G, node.l.n, p) && !Stuck(G, start, p, node.first)
    && Tiles(G, G[p][1..], w, node.first, node.second, kids)
  }

  // ----- packs in terms of what the symbols read, for every grammar

  /** Completed items are those whose nonterminal reads the stretch. */
  lemma CompletedReads(G: Prods, start: nat, nulls: set<nat>, S: set<Item>, w: string, a: nat, i: nat, j: nat)
    requires Chart(G, start, nulls, S, w, |w| + 1) && PredictedAt(G, S, a, i) && i <= |w|
    ensures CompletedAt(G, S, a, i, j) <==> SymbolReads(G, start, nulls, a, w, i, j)
  {
    if CompletedAt(G, S, a, i, j) {
      var x :| x in S && CompletedFor(G, x, a, i) && x.at == j;
      assert Fine(G, start, nulls, w, x);
      assert G[x.prod][1..x.dot] == G[x.prod][1..] && AtOrigin(G, start, x) == AtStart(start, a, i);
    }
    if p: nat :| Uses(G, a, p) && SeqReads(G, start, nulls, G[p][1..], w, i, j, AtStart(start, a, i)) {
      var k: nat :| Reads(G, start, nulls, G[p][1..], w, i, j, k, AtStart(start, a, i));
      var x := Item(i, p, i, 1);
      assert x in S && G[p][1..|G[p]|] == G[p][1..];
      assert StartItem(G, start, x) == AtStart(start, a, i);
      CompleteRead(G, start, nulls, S, w, x, |G[p]|, j, k);
      assert CompletedFor(G, Item(j, p, i, |G[p]|), a, i);
    }
  }

  /** A child as the grammar sees it: a matching character, or a nonterminal that reads its stretch. */
  ghost predicate ReadChild(G: Prods, start: nat, nulls: set<nat>, l: Lit, w: string, i: nat, m: nat) {
    match l
    case NT(a) => SymbolReads(G, start, nulls, a, w, i, m)
    case Ch(c) => if c == EPSILON then m == i else i < |w| && w[i] == c && m == i + 1
  }

  /** The nodes laid end to end cover the input from i to j, one for each symbol, each reading its stretch. */
  ghost predicate ReadTiles(G: Prods, start: nat, nulls: set<nat>, s: seq<Lit>, w: string, i: nat, j: nat,
        kids: seq<PNode>)
    decreases |s|
  {
    if s == [] then kids == [] && i == j
    else
      && |kids| > 0 && kids[0].l == s[0] && kids[0].first == i
      && ReadChild(G, start, nulls, s[0], w, i, kids[0].second)
      && ReadTiles(G, start, nulls, s[1..], w, kids[0].second, j, kids[1..])
  }

  ghost predicate ReadTiling(G: Prods, start: nat, nulls: set<nat>, w: string, node: PNode, p: nat, kids: seq<PNode>) {
    node.l.NT? && Uses(G, node.l.n, p) && !Stuck(G, start, p, node.first)
    && ReadTiles(G, start, nulls, G[p][1..], w, node.first, node.second, kids)
  }

  /** A child that is there takes the item one symbol further. */
  lemma ChildMoves(G: Prods, start: nat, nulls: set<nat>, S: set<Item>, w: string, x: Item, m: nat)
    requires Chart(G, start, nulls, S, w, |w| + 1)
    requires x in S && x.prod < |G| && x.dot < |G[x.prod]| && !(x.dot == 1 && Stuck(G, start, x.prod, x.at))
    requires ChildAt(G, S, Next(G, x), w, x.at, m)
    ensures Advance(x, m) in S
  {
    assert Fine(G, start, nulls, w, x);
    match Next(G, x)
    case Ch(c) => CompleteChar(G, start, nulls, S, w, x, c);
    case NT(a) =>
      var z :| z in S && CompletedFor(G, z, a, x.at) && z.at == m;
      assert Fine(G, start, nulls, w, z) && Stepped(G, S, S, w, z) && Waiting(G, z, x);
  }

  /** Where an item waits, a child is there exactly when it reads its stretch. */
  lemma ChildReads(G: Prods, start: nat, nulls: set<nat>, S: set<Item>, w: string, x: Item, m: nat)
    requires Chart(G, start, nulls, S, w, |w| + 1) && x in S && x.prod < |G| && x.dot < |G[x.prod]|
    ensures ChildAt(G, S, Next(G, x), w, x.at, m) <==> ReadChild(G, start, nulls, Next(G, x), w, x.at, m)
  {
    assert Fine(G, start, nulls, w, x);
    if Next(G, x).NT? {
      assert Stepped(G, S, S, w, x);
      CompletedReads(G, start, nulls, S, w, Next(G, x).n, x.at, m);
    }
  }

  /** From an item on, the tilings the parser sees are those the symbols read, and they lead to the item's end. */
  lemma {:induction false} BuiltReads(G: Prods, start: nat, nulls: set<nat>, S: set<Item>, w: string, x: Item, j: nat,
        kids: seq<PNode>)
    requires Chart(G, start, nulls, S, w, |w| + 1)
    requires x in S && x.prod < |G| && x.dot <= |G[x.prod]| && !(x.dot == 1 && Stuck(G, start, x.prod, x.at))
    ensures Built(G, S, G[x.prod][x.dot..], w, x.at, j, kids) <==>
      ReadTiles(G, start, nulls, G[x.prod][x.dot..], w, x.at, j, kids)
    ensures Built(G, S, G[x.prod][x.dot..], w, x.at, j, kids) ==> Item(j, x.prod, x.from, |G[x.prod]|) in S
    decreases |G[x.prod]| - x.dot
  {
    assert Fine(G, start, nulls, w, x);
    if x.dot < |G[x.prod]| && |kids| > 0 {
      var s, m := G[x.prod][x.dot..], kids[0].second;
      assert s[0] == Next(G, x) && s[1..] == G[x.prod][x.dot + 1..];
      ChildReads(G, start, nulls, S, w, x, m);
      if ChildAt(G, S, s[0], w, x.at, m) {
        ChildMoves(G, start, nulls, S, w, x, m);
        BuiltReads(G, start, nulls, S, w, Advance(x, m), j, kids[1..]);
      }
    }
  }

  /** For every grammar, the packs of a node are exactly the tilings of its stretch by children that read theirs, save
      the empty start production at position 0. */
  lemma PackReads(G: Prods, start: nat, nulls: set<nat>, S: set<Item>, w: string, node: PNode, kids: seq<PNode>)
    requires Chart(G, start, nulls, S, w, |w| + 1)
    requires node.l.NT? && node.first <= |w| && PredictedAt(G, S, node.l.n, node.first)
    ensures IsPack(G, S, w, node, kids) <==> exists p: nat :: ReadTiling(G, start, nulls, w, node, p, kids)
  {
    var i, j := node.first, node.second;
    if IsPack(G, S, w, node, kids) {
      var x :| x in S && PackOf(G, S, w, node, x, kids);
      assert Fine(G, start, nulls, w, x) && ProdOk(G[x.prod]);
      CompletedNotStuck(G, start, nulls, w, x);
      BuiltReads(G, start, nulls, S, w, Item(i, x.prod, i, 1), j, kids);
      assert ReadTiling(G, start, nulls, w, node, x.prod, kids);
    }
    if p: nat :| ReadTiling(G, start, nulls, w, node, p, kids) {
      BuiltReads(G, start, nulls, S, w, Item(i, p, i, 1), j, kids);
      assert PackOf(G, S, w, node, Item(j, p, i, |G[p]|), kids);
    }
  }

  /** The nonterminals of a pack have been predicted where they begin. */
  lemma {:induction false} KidsPredicted(G: Prods, start: nat, nulls: set<nat>, S: set<Item>, w: string, x: Item,
        j: nat, kids: seq<PNode>, k: nat)
    requires Chart(G, start, nulls, S, w, |w| + 1)
    requires x in S && x.prod < |G| && x.dot <= |G[x.prod]| && !(x.dot == 1 && Stuck(G, start, x.prod, x.at))
    requires Built(G, S, G[x.prod][x.dot..], w, x.at, j, kids) && k < |kids| && kids[k].l.NT?
    ensures PredictedAt(G, S, kids[k].l.n, kids[k].first) && kids[k].first <= |w|
    decreases |G[x.prod]| - x.dot
  {
    assert Fine(G, start, nulls, w, x);
    var s := G[x.prod][x.dot..];
    assert s[0] == Next(G, x) && s[1..] == G[x.prod][x.dot + 1..];
    if k == 0 {
      assert Stepped(G, S, S, w, x);
    } else {
      ChildMoves(G, start, nulls, S, w, x, kids[0].second);
      KidsPredicted(G, start, nulls, S, w, Advance(x, kids[0].second), j, kids[1..], k - 1);
    }
  }

  lemma PackPredicted(G: Prods, start: nat, nulls: set<nat>, S: set<Item>, w: string, node: PNode, kids: seq<PNode>,
        k: nat)
    requires Chart(G, start, nulls, S, w, |w| + 1)
    requires node.l.NT? && node.first <= |w| && PredictedAt(G, S, node.l.n, node.first)
    requires IsPack(G, S, w, node, kids) && k < |kids| && kids[k].l.NT?
    ensures PredictedAt(G, S, kids[k].l.n, kids[k].first) && kids[k].first <= |w|
  {
    var x :| x in S && PackOf(G, S, w, node, x, kids);
    assert Fine(G, start, nulls, w, x) && ProdOk(G[x.prod]);
    CompletedNotStuck(G, start, nulls, w, x);
    KidsPredicted(G, start, nulls, S, w, Item(node.first, x.prod, node.first, 1), node.second, kids, k);
  }

  // ----- enumeration of packs

  /** kids continues the nodes chosen so far, which reach position i, to the end of the completed item x. */
  ghost predicate Ext(G: Prods, S: set<Item>, w: string, x: Item, cur: seq<PNode>, i: nat, kids: seq<PNode>)
    requires x.prod < |G| && |cur| < |G[x.prod]|
  {
    |kids| >= |cur| && kids[..|cur|] == cur && Built(G, S, G[x.prod][|cur| + 1..], w, i, x.at, kids[|cur|..])
  }

  lemma ExtEnd(G: Prods, S: set<Item>, w: string, x: Item, cur: seq<PNode>, i: nat, kids: seq<PNode>)
    requires x.prod < |G| && |cur| + 1 == |G[x.prod]|
    ensures Ext(G, S, w, x, cur, i, kids) <==> kids == cur && i == x.at
  {
    if Ext(G, S, w, x, cur, i, kids) || kids == cur {
      assert kids == kids[..|cur|] + kids[|cur|..];
    }
  }

  lemma ExtStep(G: Prods, S: set<Item>, w: string, x: Item, cur: seq<PNode>, i: nat, kids: seq<PNode>)
    requires x.prod < |G| && |cur| + 1 < |G[x.prod]|
    ensures var l := G[x.prod][|cur| + 1];
      Ext(G, S, w, x, cur, i, kids) <==> exists m: nat :: ExtVia(G, S, w, x, cur, i, kids, l, m)
  {
    var c, l := |cur|, G[x.prod][|cur| + 1];
    var s := G[x.prod][c + 1..];
    assert s[0] == l && s[1..] == G[x.prod][c + 2..];
    if Ext(G, S, w, x, cur, i, kids) {
      var m := kids[c].second;
      assert kids[c..][0] == kids[c] && kids[c..][1..] == kids[c + 1..];
      assert kids[..c + 1] == cur + [PNode(l, i, m)];
      assert ExtVia(G, S, w, x, cur, i, kids, l, m);
    }
    if m: nat :| ExtVia(G, S, w, x, cur, i, kids, l, m) {
      assert kids[..c + 1] == cur + [PNode(l, i, m)];
      assert kids[c] == kids[..c + 1][c] && kids[..c] == kids[..c + 1][..c];
      assert kids[c..][0] == kids[c] && kids[c..][1..] == kids[c + 1..];
    }
  }

  ghost predicate ExtVia(G: Prods, S: set<Item>, w: string, x: Item, cur: seq<PNode>, i: nat, kids: seq<PNode>,
        l: Lit, m: nat)
    requires x.prod < |G| && |cur| + 1 < |G[x.prod]|
  {
    ChildAt(G, S, l, w, i, m) && Ext(G, S, w, x, cur + [PNode(l, i, m)], m, kids)
  }

  /** The completed items by nonterminal and origin. */
  ghost predicate SortedOk(G: Prods, S: set<Item>, sorted: map<(nat, nat), seq<Item>>) {
    forall x, a, i :: x in Lookup(sorted, a, i) <==> x in S && CompletedFor(G, x, a, i)
  }

  function Lookup(sorted: map<(nat, nat), seq<Item>>, a: nat, i: nat): seq<Item> {
    if (a, i) in sorted then sorted[(a, i)] else []
  }

  /** The nodes that can have an entry. */
  function Nodes(G: Prods, w: string): set<PNode> {
    set p, i, j | 0 <= p < |G| && 0 <= i <= |w| && 0 <= j <= |w| && |G[p]| > 0 :: PNode(G[p][0], i, j)
  }

  lemma NodeIn(G: Prods, start: nat, nulls: set<nat>, S: set<Item>, w: string, x: Item)
    requires AllFine(G, start, nulls, w, S) && x in S
    ensures x.prod < |G| && |G[x.prod]| > 0 && PNode(G[x.prod][0], x.from, x.at) in Nodes(G, w)
  {
    assert Fine(G, start, nulls, w, x);
  }

  // ----- growth of the forest

  /** f has grown to g: entries are kept. */
  ghost predicate Grown(f: Forest, g: Forest) {
    forall node :: node in f ==> node in g && g[node] == f[node]
  }

  /** Entries of all nodes but the open ones are finished. */
  ghost predicate FinishedBut(G: Prods, S: set<Item>, w: string, f: Forest, open: set<PNode>) {
    forall node :: node in f && node !in open ==> EntryOk(G, S, w, f, node)
  }

  /** Nonterminal nodes of a set of packs have entries. */
  ghost predicate KidsIn(packs: set<seq<PNode>>, f: Forest) {
    forall kids: seq<PNode>, k :: kids in packs && 0 <= k < |kids| && kids[k].l.NT? ==> kids[k] in f
  }

  lemma FirstExt(G: Prods, S: set<Item>, w: string, x: Item, node: PNode, kids: seq<PNode>)
    requires node.l.NT? && CompletedFor(G, x, node.l.n, node.first) && x.at == node.second
    ensures Ext(G, S, w, x, [], node.first, kids) <==> PackOf(G, S, w, node, x, kids)
  {
    assert kids[..0] == [] && kids[0..] == kids;
  }

  /** The nonterminals in a pack have completed items. */
  lemma {:induction false} BuiltCompleted(G: Prods, S: set<Item>, s: seq<Lit>, w: string, i: nat, j: nat,
        kids: seq<PNode>, k: nat)
    requires Built(G, S, s, w, i, j, kids) && k < |kids| && kids[k].l.NT?
    ensures CompletedAt(G, S, kids[k].l.n, kids[k].first, kids[k].second)
    decreases |s|
  {
    if k > 0 { BuiltCompleted(G, S, s[1..], w, kids[0].second, j, kids[1..], k - 1); }
  }

  /** The node's nonterminal has been predicted where it begins. */
  ghost predicate Reached(G: Prods, S: set<Item>, w: string, node: PNode) {
    node.l.NT? && node.first <= |w| && PredictedAt(G, S, node.l.n, node.first)
  }

  ghost predicate AllReached(G: Prods, S: set<Item>, w: string, f: Forest) {
    forall node {:trigger Reached(G, S, w, node)} :: node in f ==> Reached(G, S, w, node)
  }
}
