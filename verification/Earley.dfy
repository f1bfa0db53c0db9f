/** The Earley recogniser. */
module EarleyParser {
  import opened Grammar
  import opened EarleyReads
  import opened EarleyItems
  import opened EarleyForest

  class Earley {
    const G: Prods
    const start: nat
    var nullables: set<nat>
    var S: set<Item>
    var inputstr: string
    var sorted: map<(nat, nat), seq<Item>>
    var pfgraph: Forest

    ghost predicate Ready()
      reads this
    {
      GrammarOk(G) && NullsExact(G, nullables)
    }

    constructor (g: Prods, s: nat)
      requires GrammarOk(g)
      ensures Ready() && G == g && start == s && sorted == map[]
    {
      G, start := g, s;
      S, inputstr, sorted, pfgraph := {}, "", map[], map[];
      var nulls := Earley.FindNullables(g);
      nullables := nulls;
    }

    /** The least fixpoint of nullability: rounds over all productions until a round adds nothing. */
    static method FindNullables(G: Prods) returns (nulls: set<nat>)
      requires GrammarOk(G)
      ensures NullsExact(G, nulls)
    {
      nulls := {};
      var grown := true;
      ghost var heads := set p | 0 <= p < |G| && ProdOk(G[p]) :: G[p][0].n;
      while grown
        invariant NullsSound(G, nulls) && nulls <= heads
        invariant !grown ==> NullsClosed(G, nulls)
        decreases |heads| - |nulls|, grown
      {
        var k := |nulls|;
        ghost var before := nulls;
        for p := 0 to |G|
          invariant NullsSound(G, nulls) && before <= nulls <= heads
          invariant forall q :: 0 <= q < p && AllNulls(before, G[q]) ==> G[q][0].n in nulls
        {
          assert ProdOk(G[p]);
          if AllNulls(nulls, G[p]) {
            NullProd(G, nulls, p);
            nulls := nulls + {G[p][0].n};
          }
        }
        grown := k != |nulls|;
        SubsetSize(before, nulls); SubsetSize(nulls, heads);
      }
      NullsExactIf(G, nulls);
    }

    /** Items found in this round but not yet in the set. */
    ghost predicate Fresh(t: set<Item>, w: string, n: nat)
      reads this
    {
      forall x {:trigger x in t} :: x in t ==>
        x !in S && x.at == n && Fine(G, start, nullables, w, x) && NullOk(G, start, nullables, S + t, x)
    }

    /** Adds an item to the round unless it is known, together with the items after the null symbols at its dot. */
    method Add(t: set<Item>, i: Item, ghost w: string) returns (r: set<Item>)
      requires Ready() && HasStart(G, start, S) && Fine(G, start, nullables, w, i)
      ensures t <= r && i in S + r
      ensures forall x {:trigger x in r} :: x in r && x !in t ==>
        x !in S && x.at == i.at && Fine(G, start, nullables, w, x) && NullOk(G, start, nullables, S + r, x)
      decreases |G[i.prod]| - i.dot
    {
      if i in S || i in t { return t; }
      r := t + {i};
      if NullableNext(G, nullables, i) {
        assert !StartItem(G, start, i);
        NullFine(G, start, nullables, w, i);
        r := Add(r, Item(i.at, i.prod, i.from, i.dot + 1), w);
      }
    }

    /** Advances every item that waits, where i began, for what i has completed. */
    method Complete(i: Item, t: set<Item>, ghost w: string) returns (r: set<Item>)
      requires Ready() && HasStart(G, start, S) && AllFine(G, start, nullables, w, S)
      requires i in S && i.prod < |G| && Completed(G, i) && Fresh(t, w, i.at)
      ensures Fresh(r, w, i.at) && t <= r && Finished(G, S, S + r, i)
    {
      r := t;
      assert Fine(G, start, nullables, w, i);
      var todo := set y | y in S && y.at == i.from;
      while todo != {}
        invariant Fresh(r, w, i.at) && t <= r && todo <= S
        invariant forall y :: y in S && Waiting(G, i, y) && y !in todo ==> Advance(y, i.at) in S + r
      {
        var y :| y in todo;
        todo := todo - {y};
        assert Fine(G, start, nullables, w, y);
        if y.dot < |G[y.prod]| && G[y.prod][y.dot] == G[i.prod][0] && y.at == i.from {
          CompleteFine(G, start, nullables, w, i, y);
          r := Add(r, Item(i.at, y.prod, y.from, y.dot + 1), w);
        }
      }
    }

    /** Starts every production of the nonterminal at the dot. */
    method Predict(i: Item, t: set<Item>, ghost w: string) returns (r: set<Item>)
      requires Ready() && HasStart(G, start, S) && Fine(G, start, nullables, w, i)
      requires i.dot < |G[i.prod]| && Fresh(t, w, i.at)
      ensures Fresh(r, w, i.at) && t <= r && Predicted(G, S + r, i)
    {
      r := t;
      for p := 0 to |G|
        invariant Fresh(r, w, i.at) && t <= r
        invariant forall q: nat :: q < p && |G[q]| > 0 && G[q][0] == Next(G, i) ==> Item(i.at, q, i.at, 1) in S + r
      {
        if |G[p]| > 0 && G[p][0] == G[i.prod][i.dot] {
          PredictFine(G, start, nullables, w, p, i.at);
          r := Add(r, Item(i.at, p, i.at, 1), w);
        }
      }
    }

    /** Moves over a matching character, straight into the set of the next position. */
    method Scan(i: Item, n: nat, ch: char, ghost w: string)
      requires Ready() && Fine(G, start, nullables, w, i) && i.at == n && EPSILON !in w
      requires i.dot < |G[i.prod]| && Next(G, i).Ch? && n < |w| && ch == w[n]
      modifies `S
      ensures old(S) <= S && Scanned(G, S, w, i)
      ensures forall x {:trigger x in S} :: x in S && x !in old(S) ==>
        x.at == n + 1 && Fine(G, start, nullables, w, x) && NullOk(G, start, nullables, S, x)
    {
      if Ch(ch) != G[i.prod][i.dot] { return; }
      S := S + {Item(n + 1, i.prod, i.from, i.dot + 1)};
      ScanFine(G, start, nullables, S, w, i);
    }

    /** The item set and the round's items t while position n is being processed; todo is still to be looked at. */
    ghost predicate InRound(w: string, n: nat, t: set<Item>, todo: set<Item>)
      reads this
    {
      && Chart(G, start, nullables, S, w, n) && n <= |w| && Fresh(t, w, n)
      && (forall x {:trigger x in todo} :: x in todo ==> x in S && x.at == n)
      && (forall x {:trigger Stepped(G, S, S + t, w, x)} :: x in S && x.at == n && x !in todo ==>
         Stepped(G, S, S + t, w, x))
    }

    /** Processes one item: completion, prediction or scanning. */
    method Step(x: Item, n: nat, s: string, t: set<Item>, ghost todo: set<Item>) returns (r: set<Item>)
      requires InRound(s, n, t, todo) && x in todo
      modifies `S
      ensures old(S) <= S && InRound(s, n, r, todo - {x})
    {
      assert Fine(G, start, nullables, s, x);
      ghost var S0 := S;
      r := t;
      if |G[x.prod]| == x.dot {
        r := Complete(x, t, s);
      } else if G[x.prod][x.dot].NT? {
        r := Predict(x, t, s);
      } else if n < |s| {
        Scan(x, n, s[n], s);
        ScanChart(S0, s, n);
      }
      StepRound(S0, s, n, t, r, todo, x);
    }

    lemma ScanChart(S0: set<Item>, w: string, n: nat)
      requires Chart(G, start, nullables, S0, w, n) && S0 <= S
      requires forall x {:trigger x in S} :: x in S && x !in S0 ==>
        x.at >= n && Fine(G, start, nullables, w, x) && NullOk(G, start, nullables, S, x)
      ensures Chart(G, start, nullables, S, w, n)
    {
      forall x | x in S ensures Fine(G, start, nullables, w, x) && NullOk(G, start, nullables, S, x) {
        if x in S0 { assert Fine(G, start, nullables, w, x) && NullOk(G, start, nullables, S0, x); }
      }
      forall x | x in S && x.at < n ensures Stepped(G, S, S, w, x) {
        assert Fine(G, start, nullables, w, x) && Stepped(G, S0, S0, w, x);
        SteppedGrow(G, S0, S0, S, S, w, x);
      }
    }

    lemma StepRound(S0: set<Item>, w: string, n: nat, t: set<Item>, r: set<Item>, todo: set<Item>, x: Item)
      requires Chart(G, start, nullables, S, w, n) && S0 <= S && n <= |w| && t <= r && Fresh(r, w, n)
      requires forall y {:trigger y in S} :: y in S && y !in S0 ==> y.at == n + 1
      requires forall y {:trigger y in todo} :: y in todo ==> y in S0 && y.at == n
      requires forall y {:trigger Stepped(G, S0, S0 + t, w, y)} :: y in S0 && y.at == n && y !in todo ==>
        Stepped(G, S0, S0 + t, w, y)
      requires x in todo && Stepped(G, S, S + r, w, x)
      ensures InRound(w, n, r, todo - {x})
    {
      forall y | y in S && y.at == n && y !in todo - {x} ensures Stepped(G, S, S + r, w, y) {
        assert Fine(G, start, nullables, w, y);
        if y != x {
          assert Stepped(G, S0, S0 + t, w, y);
          SteppedGrow(G, S0, S0 + t, S, S + r, w, y);
        }
      }
    }

    /** One pass over the items at position n. */
    method Round(n: nat, s: string) returns (t: set<Item>)
      requires Chart(G, start, nullables, S, s, n) && n <= |s|
      modifies `S
      ensures old(S) <= S && InRound(s, n, t, {})
    {
      t := {};
      var todo := set x | x in S && x.at == n;
      while todo != {}
        invariant old(S) <= S && InRound(s, n, t, todo)
      {
        var x :| x in todo;
        t := Step(x, n, s, t, todo);
        todo := todo - {x};
      }
    }

    /** Passes over position n until one finds nothing new. */
    method Position(n: nat, s: string)
      requires Chart(G, start, nullables, S, s, n) && n <= |s|
      modifies `S
      ensures old(S) <= S && Chart(G, start, nullables, S, s, n + 1)
    {
      var t := {};
      var again := true;
      InUniverse(G, start, nullables, s, S);
      while again
        invariant old(S) <= S && Chart(G, start, nullables, S, s, n) && Fresh(t, s, n)
        invariant !again ==> t == {} && InRound(s, n, {}, {})
        invariant S + t <= Universe(G, s)
        decreases again, |Universe(G, s)| - |S|, t == {}
      {
        ghost var S0, t0 := S, t;
        S := S + t;
        ScanChart(S0, s, n);
        t := Round(n, s);
        again := t != {};
        InUniverse(G, start, nullables, s, S);
        InUniverse(G, start, nullables, s, S + t);
        SubsetSize(S0, S); SubsetSize(S, Universe(G, s)); SubsetSize(S0, Universe(G, s));
      }
      assert S + {} == S;
    }

    // ----- the forest

    /** Collects the completed items by nonterminal and origin. */
    method SortItems()
      requires Ready() && sorted == map[] && forall x :: x in S ==> x.prod < |G|
      modifies `sorted
      ensures SortedOk(G, S, sorted)
    {
      var todo := S;
      assert forall a: nat, i: nat :: Lookup(sorted, a, i) == [];
      while todo != {}
        invariant todo <= S
        invariant forall x, a, i :: x in Lookup(sorted, a, i) <==> x in S && x !in todo && CompletedFor(G, x, a, i)
      {
        var x :| x in todo;
        todo := todo - {x};
        assert ProdOk(G[x.prod]);
        if |G[x.prod]| == x.dot {
          var a := G[x.prod][0].n;
          sorted := sorted[(a, x.from) := Lookup(sorted, a, x.from) + [x]];
        }
      }
    }

    ghost predicate Parsed(w: string)
      reads this
    {
      Ready() && Chart(G, start, nullables, S, w, |w| + 1) && SortedOk(G, S, sorted) && inputstr == w
    }

    /** All ways to continue the nodes chosen so far to the end of a completed item. */
    method SblChdForest(eitem: Item, curchd: seq<PNode>, xfrom: nat, ambset: set<seq<PNode>>, ghost w: string)
      returns (amb: set<seq<PNode>>)
      requires Parsed(w) && eitem in S && eitem.prod < |G| && |curchd| < |G[eitem.prod]|
      requires curchd == [] || curchd[|curchd| - 1].second == xfrom
      ensures forall kids :: kids in amb <==> kids in ambset || Ext(G, S, w, eitem, curchd, xfrom, kids)
      decreases |G[eitem.prod]| - |curchd|
    {
      var rhs := G[eitem.prod];
      assert ProdOk(rhs);
      amb := ambset;
      if |rhs| <= |curchd| + 1 {
        forall kids ensures Ext(G, S, w, eitem, curchd, xfrom, kids) <==> kids == curchd && xfrom == eitem.at {
          ExtEnd(G, S, w, eitem, curchd, xfrom, kids);
        }
        if curchd[|curchd| - 1].second == eitem.at { amb := amb + {curchd}; }
        return;
      }
      var l := rhs[|curchd| + 1];
      forall kids
        ensures Ext(G, S, w, eitem, curchd, xfrom, kids) <==>
          exists m: nat :: ExtVia(G, S, w, eitem, curchd, xfrom, kids, l, m)
      {
        ExtStep(G, S, w, eitem, curchd, xfrom, kids);
      }
      if !l.NT? {
        var to := xfrom;
        if l.c != EPSILON {
          if xfrom < |inputstr| && inputstr[xfrom] == l.c { to := xfrom + 1; } else { return; }
        }
        assert forall m: nat :: ChildAt(G, S, l, w, xfrom, m) <==> m == to;
        amb := SblChdForest(eitem, curchd + [PNode(l, xfrom, to)], to, ambset, w);
        assert forall kids :: ExtVia(G, S, w, eitem, curchd, xfrom, kids, l, to) <==>
          Ext(G, S, w, eitem, curchd + [PNode(l, xfrom, to)], to, kids);
      } else {
        amb := Children(eitem, curchd, xfrom, ambset, l, w);
      }
    }

    /** The choices for a nonterminal child. */
    method Children(eitem: Item, curchd: seq<PNode>, xfrom: nat, ambset: set<seq<PNode>>, l: Lit, ghost w: string)
      returns (amb: set<seq<PNode>>)
      requires Parsed(w) && eitem in S && eitem.prod < |G| && |curchd| + 1 < |G[eitem.prod]|
      requires l == G[eitem.prod][|curchd| + 1] && l.NT?
      ensures forall kids :: kids in amb <==>
        kids in ambset || exists m: nat :: ExtVia(G, S, w, eitem, curchd, xfrom, kids, l, m)
      decreases |G[eitem.prod]| - |curchd|, 0
    {
      amb := ambset;
      var froms := Lookup(sorted, l.n, xfrom);
      var k := 0;
      while k < |froms|
        invariant 0 <= k <= |froms|
        invariant forall kids :: kids in amb <==>
          kids in ambset || exists n ::
            0 <= n < k && froms[n].at <= eitem.at && ExtVia(G, S, w, eitem, curchd, xfrom, kids, l, froms[n].at)
      {
        var v := froms[k];
        assert v in froms && CompletedFor(G, v, l.n, xfrom);
        if v.at <= eitem.at {
          amb := SblChdForest(eitem, curchd + [PNode(l, xfrom, v.at)], v.at, amb, w);
        }
        k := k + 1;
      }
      forall kids, m: nat | ExtVia(G, S, w, eitem, curchd, xfrom, kids, l, m)
        ensures exists n :: 0 <= n < |froms| && froms[n].at <= eitem.at && froms[n].at == m
      {
        var x :| x in S && CompletedFor(G, x, l.n, xfrom) && x.at == m;
        assert x in froms;
        BuiltSpan(G, start, nullables, S, G[eitem.prod][|curchd| + 2..], w, m, eitem.at, kids[|curchd| + 1..]);
      }
    }

    ghost predicate Growing(w: string, open: set<PNode>)
      reads this
    {
      Parsed(w) && FinishedBut(G, S, w, pfgraph, open) && AllReached(G, S, w, pfgraph)
    }

    /** The packs of the first k completed items. */
    ghost predicate PacksTo(root: PNode, nxtset: seq<Item>, k: nat, ambset: set<seq<PNode>>, w: string)
      reads `S
    {
      k <= |nxtset| && forall kids :: kids in ambset <==>
        exists n :: 0 <= n < k && PackOf(G, S, w, root, nxtset[n], kids)
    }

    /** One of the first k items ends where the node does. */
    ghost predicate EndsTo(root: PNode, nxtset: seq<Item>, k: nat) {
      k <= |nxtset| && exists n :: 0 <= n < k && nxtset[n].at == root.second
    }

    lemma PacksMore(root: PNode, nxtset: seq<Item>, k: nat, m: nat, ambset: set<seq<PNode>>, ambset': set<seq<PNode>>,
          w: string)
      requires PacksTo(root, nxtset, k, ambset, w) && k < |nxtset| && m == k + 1
      requires forall kids :: kids in ambset' <==> kids in ambset || PackOf(G, S, w, root, nxtset[k], kids)
      ensures PacksTo(root, nxtset, m, ambset', w)
    {
      forall kids ensures kids in ambset' <==> exists n :: 0 <= n < m && PackOf(G, S, w, root, nxtset[n], kids) {
        if n :| 0 <= n < m && PackOf(G, S, w, root, nxtset[n], kids) { assert n < k || n == k; }
      }
    }

    lemma EndsMore(root: PNode, nxtset: seq<Item>, k: nat, m: nat)
      requires k < |nxtset| && m == k + 1
      ensures EndsTo(root, nxtset, m) <==> EndsTo(root, nxtset, k) || nxtset[k].at == root.second
    {
      if n :| 0 <= n < k && nxtset[n].at == root.second { assert n < m; }
    }

    lemma NotPack(root: PNode, cur: Item, w: string)
      requires cur.at != root.second
      ensures forall kids :: !PackOf(G, S, w, root, cur, kids)
    {
    }

    lemma PacksAre(root: PNode, nxtset: seq<Item>, k: nat, ambset: set<seq<PNode>>, w: string)
      requires PacksTo(root, nxtset, k, ambset, w) && forall x :: x in nxtset ==> x in S
      ensures forall kids :: kids in ambset ==> IsPack(G, S, w, root, kids)
    {
    }

    /** Enters a node and everything below it, unless it is known already. */
    method BuildForest(root: PNode, ghost w: string, ghost open: set<PNode>)
      requires Growing(w, open) && (root.l.NT? ==> Reached(G, S, w, root))
      modifies `pfgraph
      ensures Growing(w, open) && Grown(old(pfgraph), pfgraph)
      ensures root.l.NT? && CompletedAt(G, S, root.l.n, root.first, root.second) ==> root in pfgraph
      decreases Nodes(G, w) - pfgraph.Keys, 0
    {
      if !root.l.NT? || root in pfgraph { return; }
      ghost var f0 := pfgraph;
      var nxtset := Lookup(sorted, root.l.n, root.first);
      var ambset := {};
      var k := 0;
      assert Growing(w, open + {root}) && Grown(f0, f0) && KidsIn({}, f0) && PacksTo(root, nxtset, 0, {}, w);
      hide FinishedBut, AllReached, PackOf, Nodes, KidsIn, Grown, Chart, Reached, PacksTo, EndsTo;
      assert !EndsTo(root, nxtset, 0) by { NoEnd(root, nxtset); }
      while k < |nxtset|
        invariant 0 <= k <= |nxtset| && Growing(w, open + {root}) && Grown(f0, pfgraph)
        invariant root in pfgraph <==> EndsTo(root, nxtset, k)
        invariant root in pfgraph ==> pfgraph[root] == ambset
        invariant KidsIn(ambset, pfgraph) && PacksTo(root, nxtset, k, ambset, w)
      {
        var cur := nxtset[k];
        ghost var before, m := ambset, k + 1;
        assert cur in nxtset && CompletedFor(G, cur, root.l.n, root.first);
        if cur.at == root.second {
          PacksAre(root, nxtset, k, ambset, w);
          RootIn(root, cur, w);
          ghost var f1 := pfgraph;
          GrownKeys(f0, pfgraph);
          ambset := AddPacks(root, cur, ambset, w, open);
          GrownAround(f0, f1, pfgraph, root);
        } else {
          NotPack(root, cur, w);
        }
        PacksMore(root, nxtset, k, m, before, ambset, w);
        EndsMore(root, nxtset, k, m);
        k := k + 1;
      }
      NodeDone(f0, root, ambset, nxtset, w, open);
    }

    lemma NoEnd(root: PNode, nxtset: seq<Item>)
      ensures !EndsTo(root, nxtset, 0)
    {
    }

    lemma GrownAround(f0: Forest, f1: Forest, f2: Forest, root: PNode)
      requires Grown(f0, f1) && root !in f0
      requires forall node :: node in f1 && node != root ==> node in f2 && f2[node] == f1[node]
      ensures Grown(f0, f2)
    {
    }

    /** Adds the packs of one completed item. */
    method AddPacks(root: PNode, cur: Item, ambset0: set<seq<PNode>>, ghost w: string, ghost open: set<PNode>)
      returns (ambset: set<seq<PNode>>)
      requires Growing(w, open + {root}) && Reached(G, S, w, root)
      requires cur in S && root.l.NT? && CompletedFor(G, cur, root.l.n, root.first) && cur.at == root.second
      requires forall kids :: kids in ambset0 ==> IsPack(G, S, w, root, kids)
      modifies `pfgraph
      ensures Growing(w, open + {root}) && root in pfgraph && pfgraph[root] == ambset && KidsIn(ambset, pfgraph)
      ensures forall node :: node in old(pfgraph) && node != root ==>
        node in pfgraph && pfgraph[node] == old(pfgraph)[node]
      ensures forall kids :: kids in ambset <==> kids in ambset0 || PackOf(G, S, w, root, cur, kids)
      decreases Nodes(G, w) - pfgraph.Keys - {root}, 2
    {
      forall kids ensures Ext(G, S, w, cur, [], cur.from, kids) <==> PackOf(G, S, w, root, cur, kids) {
        FirstExt(G, S, w, cur, root, kids);
      }
      hide FinishedBut, AllReached, Ext, PackOf, Nodes, KidsIn, Grown, Chart, Reached;
      ambset := SblChdForest(cur, [], cur.from, ambset0, w);
      Enter(root, ambset, w, open);
    }

    lemma RootIn(root: PNode, cur: Item, w: string)
      requires Parsed(w) && cur in S && root.l.NT? && CompletedFor(G, cur, root.l.n, root.first)
      requires cur.at == root.second
      ensures root in Nodes(G, w)
    {
      NodeIn(G, start, nullables, S, w, cur);
    }

    lemma GrownKeys(f: Forest, g: Forest)
      requires Grown(f, g)
      ensures f.Keys <= g.Keys
    {
    }

    /** Enters the packs found so far for a node, then everything they contain. */
    method Enter(root: PNode, ambset: set<seq<PNode>>, ghost w: string, ghost open: set<PNode>)
      requires Growing(w, open + {root}) && Reached(G, S, w, root)
      requires CompletedAt(G, S, root.l.n, root.first, root.second)
      requires forall kids :: kids in ambset ==> IsPack(G, S, w, root, kids)
      modifies `pfgraph
      ensures Growing(w, open + {root}) && root in pfgraph && pfgraph[root] == ambset && KidsIn(ambset, pfgraph)
      ensures forall node :: node in old(pfgraph) && node != root ==>
        node in pfgraph && pfgraph[node] == old(pfgraph)[node]
      decreases Nodes(G, w) - pfgraph.Keys - {root}, 1
    {
      ghost var f0 := pfgraph;
      pfgraph := pfgraph[root := ambset];
      ghost var f1 := pfgraph;
      forall node | node in pfgraph && node !in open + {root} ensures EntryOk(G, S, w, pfgraph, node) {
        assert EntryOk(G, S, w, f0, node);
      }
      assert Growing(w, open + {root});
      var todo := set kids, k | kids in ambset && 0 <= k < |kids| :: kids[k];
      ghost var all := todo;
      while todo != {}
        invariant Growing(w, open + {root}) && Grown(f1, pfgraph) && todo <= all
        invariant forall nxt: PNode :: nxt in all && nxt !in todo && nxt.l.NT? ==> nxt in pfgraph
      {
        var nxt :| nxt in todo;
        todo := todo - {nxt};
        KidReady(root, ambset, nxt, w);
        BuildForest(nxt, w, open + {root});
      }
    }

    lemma KidReady(root: PNode, ambset: set<seq<PNode>>, nxt: PNode, w: string)
      requires Parsed(w) && Reached(G, S, w, root)
      requires forall kids :: kids in ambset ==> IsPack(G, S, w, root, kids)
      requires exists kids, k :: kids in ambset && 0 <= k < |kids| && kids[k] == nxt
      ensures nxt.l.NT? ==> Reached(G, S, w, nxt) && CompletedAt(G, S, nxt.l.n, nxt.first, nxt.second)
    {
      var kids, k :| kids in ambset && 0 <= k < |kids| && kids[k] == nxt;
      if nxt.l.NT? {
        var x :| x in S && PackOf(G, S, w, root, x, kids);
        BuiltCompleted(G, S, G[x.prod][1..], w, root.first, root.second, kids, k);
        PackPredicted(G, start, nullables, S, w, root, kids, k);
      }
    }

    lemma NodeDone(f0: Forest, root: PNode, ambset: set<seq<PNode>>, nxtset: seq<Item>, w: string, open: set<PNode>)
      requires Growing(w, open + {root}) && root.l.NT? && nxtset == Lookup(sorted, root.l.n, root.first)
      requires root in pfgraph <==> EndsTo(root, nxtset, |nxtset|)
      requires root in pfgraph ==> pfgraph[root] == ambset
      requires KidsIn(ambset, pfgraph)
      requires PacksTo(root, nxtset, |nxtset|, ambset, w)
      ensures Growing(w, open)
      ensures CompletedAt(G, S, root.l.n, root.first, root.second) ==> root in pfgraph
    {
      if x :| x in S && CompletedFor(G, x, root.l.n, root.first) && x.at == root.second {
        assert x in nxtset;
      }
      if root in pfgraph {
        forall kids ensures kids in ambset <==> IsPack(G, S, w, root, kids) {
          if n :| 0 <= n < |nxtset| && PackOf(G, S, w, root, nxtset[n], kids) { assert nxtset[n] in nxtset; }
          if x :| x in S && PackOf(G, S, w, root, x, kids) { assert x in nxtset; }
        }
        var n :| 0 <= n < |nxtset| && nxtset[n].at == root.second;
        assert nxtset[n] in nxtset && CompletedFor(G, nxtset[n], root.l.n, root.first);
        assert EntryOk(G, S, w, pfgraph, root);
      }
    }

    /** The parse forest below the start symbol over the whole input. */
    method BuildAll(ghost w: string)
      requires Ready() && sorted == map[] && Chart(G, start, nullables, S, w, |w| + 1) && inputstr == w
      modifies `pfgraph, `sorted
      ensures Parsed(w) && ForestOk(G, S, w, pfgraph) && AllReached(G, S, w, pfgraph)
      ensures CompletedAt(G, S, start, 0, |w|) ==> PNode(NT(start), 0, |w|) in pfgraph
    {
      pfgraph := map[];
      forall x | x in S ensures x.prod < |G| { assert Fine(G, start, nullables, w, x); }
      SortItems();
      BuildForest(PNode(NT(start), 0, |inputstr|), w, {});
    }

    /** Recognition, then the forest. The answer is yes exactly for what the start symbol reads, which it also derives.
        For a ready start symbol the answer is right on every input; otherwise the empty input, at least, is rejected
        although it is derivable. For every grammar, each entry of the forest holds exactly the ways to tile its stretch
        by a right-hand side of its symbol, save the empty start production at position 0, with children that read their
        stretch; for a ready start symbol these are the children that derive it. */
    method Recognize(s: string) returns (found: bool)
      requires Ready() && EPSILON !in s && sorted == map[]
      modifies `S, `inputstr, `pfgraph, `sorted
      ensures found <==> Accepts(G, start, nullables, s)
      ensures found ==> Derives(G, NT(start), s, 0, |s|)
      ensures StartReady(G, start, nullables) ==> (found <==> Derives(G, NT(start), s, 0, |s|))
      ensures !StartReady(G, start, nullables) && s == "" ==> !found && Derives(G, NT(start), s, 0, |s|)
      ensures found <==> PNode(NT(start), 0, |s|) in pfgraph
      ensures Packed(s)
      ensures StartReady(G, start, nullables) ==> Exact(s)
    {
      inputstr := s;
      S := set p | 0 <= p < |G| && Uses(G, start, p) :: Item(0, p, 0, 1);
      StartChart(s);
      for n := 0 to |s| + 1
        invariant Chart(G, start, nullables, S, s, n) && inputstr == s && sorted == map[]
      {
        Position(n, s);
      }
      found := false;
      for n := 0 to |G|
        invariant found <==> exists p: nat :: p < n && Uses(G, start, p) && Item(|s|, p, 0, |G[p]|) in S
      {
        if Uses(G, start, n) && Item(|s|, n, 0, |G[n]|) in S { found := true; }
      }
      assert found <==> Recognized(G, start, S, s);
      Answer(s);
      BuildAll(s);
      if found {
        var p: nat :| Uses(G, start, p) && Item(|s|, p, 0, |G[p]|) in S;
        assert CompletedFor(G, Item(|s|, p, 0, |G[p]|), start, 0);
      }
      ForestPacked(s);
      if StartReady(G, start, nullables) { ForestExact(s); }
    }

    /** The packs of every entry are exactly the tilings of its stretch by children that read theirs, and their
        nonterminals have entries. */
    ghost predicate Packed(w: string)
      reads this
    {
      forall node :: node in pfgraph ==>
        && node.l.NT? && SymbolReads(G, start, nullables, node.l.n, w, node.first, node.second)
        && (forall kids :: kids in pfgraph[node] <==>
              exists p: nat :: ReadTiling(G, start, nullables, w, node, p, kids))
        && KidsIn(pfgraph[node], pfgraph)
    }

    lemma ForestPacked(w: string)
      requires Parsed(w) && ForestOk(G, S, w, pfgraph) && AllReached(G, S, w, pfgraph)
      ensures Packed(w)
    {
      forall node | node in pfgraph
        ensures node.l.NT? && SymbolReads(G, start, nullables, node.l.n, w, node.first, node.second)
        ensures KidsIn(pfgraph[node], pfgraph)
        ensures forall kids :: kids in pfgraph[node] <==>
          exists p: nat :: ReadTiling(G, start, nullables, w, node, p, kids)
      {
        assert EntryOk(G, S, w, pfgraph, node) && Reached(G, S, w, node);
        CompletedReads(G, start, nullables, S, w, node.l.n, node.first, node.second);
        forall kids
          ensures kids in pfgraph[node] <==> exists p: nat :: ReadTiling(G, start, nullables, w, node, p, kids)
        {
          PackReads(G, start, nullables, S, w, node, kids);
        }
      }
    }

    /** The packs of every entry are exactly the tilings of its stretch, and their nonterminals have entries. */
    ghost predicate Exact(w: string)
      reads this
    {
      forall node :: node in pfgraph ==>
        && node.l.NT? && Derives(G, node.l, w, node.first, node.second)
        && (forall kids :: kids in pfgraph[node] <==> exists p: nat :: Tiling(G, start, w, node, p, kids))
        && KidsIn(pfgraph[node], pfgraph)
    }

    lemma ForestExact(w: string)
      requires Parsed(w) && ForestOk(G, S, w, pfgraph) && AllReached(G, S, w, pfgraph)
      requires StartReady(G, start, nullables)
      ensures Exact(w)
    {
      forall node | node in pfgraph
        ensures node.l.NT? && Derives(G, node.l, w, node.first, node.second) && KidsIn(pfgraph[node], pfgraph)
        ensures forall kids :: kids in pfgraph[node] <==> exists p: nat :: Tiling(G, start, w, node, p, kids)
      {
        assert EntryOk(G, S, w, pfgraph, node) && Reached(G, S, w, node);
        CompletedIff(G, start, nullables, S, w, node.l.n, node.first, node.second);
        forall kids ensures kids in pfgraph[node] <==> exists p: nat :: Tiling(G, start, w, node, p, kids) {
          PackIff(G, start, nullables, S, w, node, kids);
        }
      }
    }

    lemma StartChart(w: string)
      requires Ready() && EPSILON !in w
      requires S == set p | 0 <= p < |G| && Uses(G, start, p) :: Item(0, p, 0, 1)
      ensures Chart(G, start, nullables, S, w, 0)
    {
      forall x | x in S ensures Fine(G, start, nullables, w, x) && NullOk(G, start, nullables, S, x) {
        PredictFine(G, start, nullables, w, x.prod, 0);
      }
    }

    lemma Answer(w: string)
      requires Chart(G, start, nullables, S, w, |w| + 1)
      ensures Recognized(G, start, S, w) <==> Accepts(G, start, nullables, w)
      ensures Recognized(G, start, S, w) ==> Derives(G, NT(start), w, 0, |w|)
      ensures StartReady(G, start, nullables) ==> (Recognized(G, start, S, w) <==> Derives(G, NT(start), w, 0, |w|))
      ensures !StartReady(G, start, nullables) && w == "" ==>
        !Recognized(G, start, S, w) && Derives(G, NT(start), w, 0, |w|)
    {
      RecognizedReads(G, start, nullables, S, w);
      if Recognized(G, start, S, w) { RecognizedSound(G, start, nullables, S, w); }
      if StartReady(G, start, nullables) && Derives(G, NT(start), w, 0, |w|) {
        RecognizedComplete(G, start, nullables, S, w);
      }
      if !StartReady(G, start, nullables) && w == "" { NotReady(G, start, nullables, S, w); }
    }
  }
}
