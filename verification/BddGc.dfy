/** Mark and compact: the facts behind the garbage collector. */
module BddGc {
  import opened BddRef
  import opened BddSem
  import opened BddIte
  import opened BddQuery
  import opened BddTables
  import opened BddLists

  /** The inner nodes reachable from node i. */
  function Reach(V: seq<Node>, i: nat): (S: set<nat>)
    requires NodesOk(V) && i < |V|
    ensures forall j :: j in S ==> 1 < j <= i
    decreases i
  {
    if i <= 1 then {}
    else
      assert NodeOk(V, i);
      {i} + Reach(V, V[i].h.id) + Reach(V, V[i].l.id)
  }

  lemma {:induction false} ReachTransitive(V: seq<Node>, i: nat, j: nat)
    requires NodesOk(V) && i < |V| && j in Reach(V, i)
    ensures Reach(V, j) <= Reach(V, i)
    decreases i
  {
    assert NodeOk(V, i);
    if j != i {
      if j in Reach(V, V[i].h.id) { ReachTransitive(V, V[i].h.id, j); } else { ReachTransitive(V, V[i].l.id, j); }
    }
  }

  ghost predicate Closed(V: seq<Node>, S: set<nat>)
    requires NodesOk(V)
  {
    forall i :: i in S ==> 1 < i < |V| && Reach(V, i) <= S
  }

  lemma CofactorIds(V: seq<Node>, r: Ref)
    requires NodesOk(V) && Wf(V, r) && r.id > 1
    ensures Wf(V, Hi(V, r)) && Wf(V, Lo(V, r)) && Hi(V, r).id < r.id && Lo(V, r).id < r.id
    ensures Reach(V, r.id) == {r.id} + Reach(V, Hi(V, r).id) + Reach(V, Lo(V, r).id)
  {
  }

  lemma ClosedUnion(V: seq<Node>, S: set<nat>, i: nat)
    requires NodesOk(V) && Closed(V, S) && i < |V|
    ensures Closed(V, S + Reach(V, i))
  {
    forall j | j in Reach(V, i) ensures Reach(V, j) <= Reach(V, i) {
      ReachTransitive(V, i, j);
    }
  }

  // ----- compaction

  /** The node w is the renumbered copy of node i. */
  ghost predicate CopyOk(V: seq<Node>, S: set<nat>, p: seq<nat>, i: nat, w: Node)
    requires |p| == |V| && i < |V|
  {
    NodeOk(V, i) && V[i].h.id in S && V[i].l.id in S && w == RenumberNode(p, V[i])
  }

  /** W consists of the renumbered nodes of V with the ids src, which are exactly the marked ids in increasing
      order; p maps each marked id to its position. */
  ghost predicate Compacted(V: seq<Node>, W: seq<Node>, S: set<nat>, p: seq<nat>, src: seq<nat>)
    requires NodesOk(V)
  {
    && |p| == |V| && |src| == |W| >= 2 && src[0] == 0 && src[1] == 1
    && W[0] == V[0] && W[1] == V[1]
    && (forall j :: 0 <= j < |W| ==> src[j] in S && src[j] < |V| && p[src[j]] == j)
    && (forall i :: i in S ==> i < |V| && p[i] < |W| && src[p[i]] == i)
    && (forall j, k :: 0 <= j < k < |W| ==> src[j] < src[k])
    && (forall j {:trigger CopyOk(V, S, p, src[j], W[j])} :: 2 <= j < |W| ==> CopyOk(V, S, p, src[j], W[j]))
  }

  lemma Monotone(V: seq<Node>, W: seq<Node>, S: set<nat>, p: seq<nat>, src: seq<nat>, i: nat, j: nat)
    requires NodesOk(V) && Compacted(V, W, S, p, src) && i in S && j in S
    ensures i < j <==> p[i] < p[j]
    ensures i == j <==> p[i] == p[j]
    ensures p[1] == 1 && (i > 1 <==> p[i] > 1) && (i == 1 <==> p[i] == 1)
  {
    assert src[p[i]] == i && src[p[j]] == j && p[src[1]] == 1 && p[src[0]] == 0;
  }

  lemma CompactedEmbeds(V: seq<Node>, W: seq<Node>, S: set<nat>, p: seq<nat>, src: seq<nat>)
    requires NodesOk(V) && Compacted(V, W, S, p, src)
    ensures Embeds(V, W, S, p)
  {
    assert src[1] in S && p[src[1]] == 1;
    forall i | i in S && i > 1 ensures NodeEmbeds(V, W, S, p, i) {
      Monotone(V, W, S, p, src, i, i);
      assert CopyOk(V, S, p, src[p[i]], W[p[i]]);
    }
  }

  /** Orders survive a renumbering that is monotone on the two ids. */
  lemma OrdersRenumbered(p: seq<nat>, x: Ref, y: Ref)
    requires x.id < |p| && y.id < |p| && p[x.id] > 0 && p[y.id] > 0
    requires (x.id < y.id <==> p[x.id] < p[y.id]) && (x.id == y.id <==> p[x.id] == p[y.id])
    ensures Lt(Renumber(p, x), Renumber(p, y)) <==> Lt(x, y)
    ensures AmLt(Renumber(p, x), Renumber(p, y)) <==> AmLt(x, y)
  {
  }

  lemma RenumberOrders(V: seq<Node>, W: seq<Node>, S: set<nat>, p: seq<nat>, src: seq<nat>, x: Ref, y: Ref)
    requires NodesOk(V) && Compacted(V, W, S, p, src) && Wf(V, x) && Wf(V, y) && x.id in S && y.id in S
    ensures Lt(Renumber(p, x), Renumber(p, y)) <==> Lt(x, y)
    ensures AmLt(Renumber(p, x), Renumber(p, y)) <==> AmLt(x, y)
  {
    Monotone(V, W, S, p, src, x.id, y.id);
    Monotone(V, W, S, p, src, y.id, x.id);
    OrdersRenumbered(p, x, y);
  }

  lemma CompactedNode(V: seq<Node>, W: seq<Node>, S: set<nat>, p: seq<nat>, src: seq<nat>, j: nat)
    requires NodesOk(V) && Compacted(V, W, S, p, src) && Embeds(V, W, S, p) && 2 <= j < |W|
    ensures NodeOk(W, j)
  {
    var i := src[j];
    assert CopyOk(V, S, p, i, W[j]);
    var n := V[i];
    EmbedWf(V, W, S, p, n.h); EmbedWf(V, W, S, p, n.l);
    RenumberOrders(V, W, S, p, src, n.h, n.l);
    Monotone(V, W, S, p, src, n.h.id, i);
    Monotone(V, W, S, p, src, n.l.id, i);
  }

  lemma CopiesDistinct(V: seq<Node>, W: seq<Node>, S: set<nat>, p: seq<nat>, x: nat, y: nat, w: Node, u: Node)
    requires NodesOk(V) && Embeds(V, W, S, p) && x < |V| && y < |V| && V[x] != V[y]
    requires CopyOk(V, S, p, x, w) && CopyOk(V, S, p, y, u)
    ensures w != u
  {
    RenumberInjective(V, W, S, p, V[x].h, V[y].h);
    RenumberInjective(V, W, S, p, V[x].l, V[y].l);
  }

  lemma CompactedDistinct(V: seq<Node>, W: seq<Node>, S: set<nat>, p: seq<nat>, src: seq<nat>, j: nat, k: nat)
    requires NodesOk(V) && Compacted(V, W, S, p, src) && Embeds(V, W, S, p) && j < k < |W|
    ensures W[j] != W[k]
  {
    if k < 2 {
    } else if j < 2 {
      CompactedNode(V, W, S, p, src, k);
    } else {
      assert src[j] < src[k] < |V|;
      assert CopyOk(V, S, p, src[j], W[j]) && CopyOk(V, S, p, src[k], W[k]);
      CopiesDistinct(V, W, S, p, src[j], src[k], W[j], W[k]);
    }
  }

  /** Compaction keeps the node table canonical: ordered edges, children before parents, no node twice. */
  lemma CompactedNodesOk(V: seq<Node>, W: seq<Node>, S: set<nat>, p: seq<nat>, src: seq<nat>)
    requires NodesOk(V) && Compacted(V, W, S, p, src)
    ensures Embeds(V, W, S, p) && NodesOk(W)
  {
    CompactedEmbeds(V, W, S, p, src);
    forall j: nat | 2 <= j < |W| ensures NodeOk(W, j) {
      CompactedNode(V, W, S, p, src, j);
    }
    forall j, k | 0 <= j < k < |W| ensures W[j] != W[k] {
      CompactedDistinct(V, W, S, p, src, j, k);
    }
  }

  // ----- memo tables

  /** The operand-list memo is keyed by sorted lists. */
  ghost predicate KeysSorted(m: map<Query, Table>) {
    forall q, k :: Has(m, q, k) ==> AmSorted(k)
  }

  predicate Bounds(k: seq<Ref>, n: nat) {
    forall i :: 0 <= i < |k| ==> k[i].id < n
  }

  function RenumberKey(p: seq<nat>, k: seq<Ref>): (k': seq<Ref>)
    requires Bounds(k, |p|)
    ensures |k'| == |k| && forall i :: 0 <= i < |k| ==> k'[i] == Renumber(p, k[i])
  {
    seq(|k|, i requires 0 <= i < |k| => Renumber(p, k[i]))
  }

  predicate Live(S: set<nat>, k: seq<Ref>, r: Ref) {
    (forall i :: 0 <= i < |k| ==> k[i].id in S) && r.id in S
  }

  ghost predicate TableBounds(t: Table, n: nat) {
    forall k :: k in t ==> Bounds(k, n) && t[k].id < n
  }

  ghost predicate Comes(t: Table, S: set<nat>, p: seq<nat>, k': seq<Ref>, r': Ref)
    requires TableBounds(t, |p|)
  {
    exists k :: k in t && Live(S, k, t[k]) && k' == RenumberKey(p, k) && r' == Renumber(p, t[k])
  }

  /** u consists of the entries of t all of whose references are live, renumbered. */
  ghost predicate Remapped(t: Table, u: Table, S: set<nat>, p: seq<nat>)
    requires TableBounds(t, |p|)
  {
    && (forall k' :: k' in u ==> Comes(t, S, p, k', u[k']))
    && (forall k :: k in t && Live(S, k, t[k]) ==>
          RenumberKey(p, k) in u && u[RenumberKey(p, k)] == Renumber(p, t[k]))
  }

  ghost predicate InjectiveOn(S: set<nat>, p: seq<nat>) {
    forall i, j :: i in S && j in S && i < |p| && j < |p| && p[i] == p[j] ==> i == j
  }

  lemma KeyInjective(S: set<nat>, p: seq<nat>, k: seq<Ref>, l: seq<Ref>)
    requires InjectiveOn(S, p) && Bounds(k, |p|) && Bounds(l, |p|) && RenumberKey(p, k) == RenumberKey(p, l)
    requires (forall i :: 0 <= i < |k| ==> k[i].id in S) && (forall i :: 0 <= i < |l| ==> l[i].id in S)
    requires forall i :: i in S && 0 < i < |p| ==> p[i] > 0
    ensures k == l
  {
    assert |RenumberKey(p, k)| == |k| && |RenumberKey(p, l)| == |l|;
    forall i | 0 <= i < |k| ensures k[i] == l[i] {
      assert Renumber(p, k[i]) == Renumber(p, l[i]);
      if k[i].id == 0 || l[i].id == 0 {
        assert k[i].id == l[i].id;
      }
    }
  }

  /** Keeps the live entries of a memo table under their new names. */
  method RemapTable(t: Table, S: set<nat>, p: seq<nat>) returns (u: Table)
    requires TableBounds(t, |p|) && InjectiveOn(S, p) && forall i :: i in S && 0 < i < |p| ==> p[i] > 0
    requires |p| > 0 && p[0] == 0
    ensures Remapped(t, u, S, p)
  {
    u := map[];
    var todo := t.Keys;
    while todo != {}
      invariant todo <= t.Keys
      invariant forall k' :: k' in u ==> Comes(t, S, p, k', u[k'])
      invariant forall k :: k in t && k !in todo && Live(S, k, t[k]) ==>
        RenumberKey(p, k) in u && u[RenumberKey(p, k)] == Renumber(p, t[k])
      decreases |todo|
    {
      var k :| k in todo;
      todo := todo - {k};
      if Live(S, k, t[k]) {
        var k' := RenumberKey(p, k);
        if k' !in u {
          u := u[k' := Renumber(p, t[k])];
        } else {
          assert Comes(t, S, p, k', u[k']);
          var l :| l in t && Live(S, l, t[l]) && k' == RenumberKey(p, l) && u[k'] == Renumber(p, t[l]);
          KeyInjective(S, p, k, l);
        }
      }
    }
  }

  ghost predicate MemoBounds(m: map<Query, Table>, n: nat) {
    forall q :: q in m ==> TableBounds(m[q], n)
  }

  ghost predicate RemappedAll(m: map<Query, Table>, u: map<Query, Table>, S: set<nat>, p: seq<nat>)
    requires MemoBounds(m, |p|)
  {
    && (forall q :: q in u ==> q in m && Remapped(m[q], u[q], S, p))
    && (forall q :: q in m && q !in u ==> Remapped(m[q], map[], S, p))
  }

  /** Remaps the tables of all queries, dropping those left empty. */
  method RemapMemos(m: map<Query, Table>, S: set<nat>, p: seq<nat>) returns (u: map<Query, Table>)
    requires MemoBounds(m, |p|) && InjectiveOn(S, p) && forall i :: i in S && 0 < i < |p| ==> p[i] > 0
    requires |p| > 0 && p[0] == 0
    ensures RemappedAll(m, u, S, p)
  {
    u := map[];
    var todo := m.Keys;
    while todo != {}
      invariant todo <= m.Keys
      invariant forall q :: q in u ==> q in m && q !in todo && Remapped(m[q], u[q], S, p)
      invariant forall q :: q in m && q !in todo && q !in u ==> Remapped(m[q], map[], S, p)
      decreases |todo|
    {
      var q :| q in todo;
      todo := todo - {q};
      var t := RemapTable(m[q], S, p);
      if t != map[] { u := u[q := t]; }
    }
  }

  lemma MemosBounded(V: seq<Node>, m: map<Query, Table>)
    requires NodesOk(V) && MemosOk(V, m)
    ensures MemoBounds(m, |V|)
  {
    forall q, k: seq<Ref> | q in m && k in m[q] ensures Bounds(k, |V|) && m[q][k].id < |V| {
      assert Has(m, q, k);
      assert EntryOk(V, q, k, m[q][k]);
      forall i | 0 <= i < |k| ensures k[i].id < |V| { assert k[i] in k; }
    }
  }

  lemma CacheBounded(V: seq<Node>, C: Table)
    requires NodesOk(V) && CacheOk(V, C)
    ensures TableBounds(C, |V|)
  {
    forall k | k in C ensures Bounds(k, |V|) && C[k].id < |V| {
      assert CacheEntryOk(V, k, C[k]);
    }
  }

  /** Every surviving memo entry is true in the compacted table. */
  lemma RemappedMemosOk(V: seq<Node>, W: seq<Node>, S: set<nat>, p: seq<nat>, m: map<Query, Table>,
        u: map<Query, Table>)
    requires NodesOk(V) && NodesOk(W) && Embeds(V, W, S, p) && MemosOk(V, m) && MemoBounds(m, |p|)
    requires RemappedAll(m, u, S, p)
    ensures MemosOk(W, u)
  {
    forall q, k' | Has(u, q, k')
      ensures EntryOk(W, q, k', u[q][k'])
    {
      assert Comes(m[q], S, p, k', u[q][k']);
      var k :| k in m[q] && Live(S, k, m[q][k]) && k' == RenumberKey(p, k) && u[q][k'] == Renumber(p, m[q][k]);
      assert Has(m, q, k);
      EntryEmbed(V, W, S, p, q, k, k', m[q][k]);
    }
  }

  lemma RemappedCacheOk(V: seq<Node>, W: seq<Node>, S: set<nat>, p: seq<nat>, C: Table, u: Table)
    requires NodesOk(V) && NodesOk(W) && Embeds(V, W, S, p) && CacheOk(V, C) && TableBounds(C, |p|)
    requires Remapped(C, u, S, p)
    ensures CacheOk(W, u)
  {
    forall k' | k' in u
      ensures CacheEntryOk(W, k', u[k'])
    {
      assert Comes(C, S, p, k', u[k']);
      var k :| k in C && Live(S, k, C[k]) && k' == RenumberKey(p, k) && u[k'] == Renumber(p, C[k]);
      assert CacheEntryOk(V, k, C[k]);
      CacheEntryEmbed(V, W, S, p, k, k', C[k]);
    }
  }

  // ----- the collector's passes

  /** Adds to S everything reachable from r. */
  method MarkAll(V: seq<Node>, r: Ref, S: set<nat>) returns (S': set<nat>)
    requires NodesOk(V) && Wf(V, r) && Closed(V, S)
    ensures S' == S + Reach(V, r.id) && Closed(V, S')
    decreases r.id
  {
    S' := S;
    if r.id >= 2 && r.id !in S {
      CofactorIds(V, r);
      ClosedUnion(V, S, r.id);
      hide Closed, NodesOk, Wf, Reach, Hi, Lo;
      S' := MarkAll(V, Hi(V, r), S');
      S' := MarkAll(V, Lo(V, r), S');
      S' := S' + {r.id};
    } else if r.id in S {
      assert Reach(V, r.id) <= S;
    }
  }

  /** The marked ids below n are copied: src lists them in increasing order and p inverts it. */
  ghost predicate Copied(V: seq<Node>, S: set<nat>, n: nat, v1: seq<Node>, p: seq<nat>, src: seq<nat>) {
    && |p| == |V| && |v1| == |src|
    && (forall j :: 0 <= j < |src| ==>
       src[j] in S && src[j] < n && src[j] < |V| && p[src[j]] == j && v1[j] == V[src[j]])
    && (forall i :: i in S && i < n && i < |V| ==> p[i] < |src| && src[p[i]] == i)
    && (forall j, k :: 0 <= j < k < |src| ==> src[j] < src[k])
  }

  lemma FirstTwo(V: seq<Node>, S: set<nat>, n: nat, v1: seq<Node>, p: seq<nat>, src: seq<nat>)
    requires n == |V| >= 2 && Copied(V, S, n, v1, p, src) && 0 in S && 1 in S
    ensures |src| >= 2 && src[0] == 0 && src[1] == 1
  {
    assert src[p[0]] == 0 && src[p[1]] == 1;
  }

  lemma CopyStep(V: seq<Node>, S: set<nat>, n: nat, v1: seq<Node>, p: seq<nat>, src: seq<nat>)
    requires n < |V| && Copied(V, S, n, v1, p, src)
    ensures if n in S then Copied(V, S, n + 1, v1 + [V[n]], p[n := |v1|], src + [n])
      else Copied(V, S, n + 1, v1, p, src)
  {
    if n in S {
      var v2, p2, src2 := v1 + [V[n]], p[n := |v1|], src + [n];
      forall i | i in S && i < n + 1 && i < |V| ensures p2[i] < |src2| && src2[p2[i]] == i {
        if i < n { assert p[i] < |src| && src[p[i]] == i; }
      }
    }
  }

  /** Copies the marked nodes to a new table, in order, and then renumbers their edges. */
  method Compact(V: seq<Node>, S: set<nat>) returns (W: seq<Node>, p: seq<nat>, ghost src: seq<nat>)
    requires NodesOk(V) && MarkedOk(V, S)
    ensures NodesOk(W) && Embeds(V, W, S, p)
    ensures Compacted(V, W, S, p, src)
  {
    p := seq(|V|, i => 0);
    var v1: seq<Node> := [];
    src := [];
    var n := 0;
    while n < |V|
      invariant n <= |V| && Copied(V, S, n, v1, p, src)
    {
      CopyStep(V, S, n, v1, p, src);
      if n in S {
        p := p[n := |v1|];
        v1 := v1 + [V[n]];
        src := src + [n];
      }
      n := n + 1;
    }
    FirstTwo(V, S, n, v1, p, src);
    W := Relabel(V, v1, S, p, src);
    CompactedNodesOk(V, W, S, p, src);
  }

  /** The marked set contains the two terminals' ids and the children of all marked inner nodes. */
  ghost predicate MarkedOk(V: seq<Node>, S: set<nat>)
    requires NodesOk(V)
  {
    && 0 in S && 1 in S
    && (forall i :: i in S ==> i < |V|)
    && (forall i {:trigger ChildrenMarked(V, S, i)} :: i in S && i > 1 ==> ChildrenMarked(V, S, i))
  }

  ghost predicate ChildrenMarked(V: seq<Node>, S: set<nat>, i: nat)
    requires i < |V|
  {
    NodeOk(V, i) && V[i].h.id in S && V[i].l.id in S
  }

  method Relabel(V: seq<Node>, v1: seq<Node>, ghost S: set<nat>, p: seq<nat>, ghost src: seq<nat>)
    returns (W: seq<Node>)
    requires NodesOk(V) && MarkedOk(V, S) && |p| == |V| && |src| == |v1| >= 2 && src[0] == 0 && src[1] == 1
    requires forall j :: 0 <= j < |v1| ==> src[j] in S && src[j] < |V| && p[src[j]] == j && v1[j] == V[src[j]]
    requires forall i :: i in S ==> i < |V| && p[i] < |v1| && src[p[i]] == i
    requires forall j, k :: 0 <= j < k < |v1| ==> src[j] < src[k]
    ensures Compacted(V, W, S, p, src)
  {
    W := v1;
    var n := 2;
    while n < |W|
      invariant 2 <= n <= |W| == |v1| && W[0] == V[0] && W[1] == V[1]
      invariant forall j :: n <= j < |W| ==> W[j] == v1[j]
      invariant forall j :: 2 <= j < n ==> CopyOk(V, S, p, src[j], W[j])
    {
      assert src[1] < src[n];
      assert ChildrenMarked(V, S, src[n]);
      W := W[n := RenumberNode(p, W[n])];
      n := n + 1;
    }
  }

  lemma MarkedChildren(V: seq<Node>, S: set<nat>)
    requires NodesOk(V) && Closed(V, S)
    ensures MarkedOk(V, S + {0, 1})
  {
    var S' := S + {0, 1};
    forall i | i in S' && i > 1
      ensures ChildrenMarked(V, S', i)
    {
      MarkedChild(V, S, i);
    }
  }

  lemma MarkedChild(V: seq<Node>, S: set<nat>, i: nat)
    requires NodesOk(V) && Closed(V, S) && i in S
    ensures i < |V| && NodeOk(V, i) && V[i].h.id in S + {0, 1} && V[i].l.id in S + {0, 1}
  {
    assert NodeOk(V, i);
    var h, l := V[i].h.id, V[i].l.id;
    assert Reach(V, i) == {i} + Reach(V, h) + Reach(V, l);
    assert h > 1 ==> h in Reach(V, h);
    assert l > 1 ==> l in Reach(V, l);
  }

  /** The unique table rebuilt from the node table. */
  method Index(V: seq<Node>) returns (ids: map<Node, nat>)
    requires NodesOk(V)
    ensures UniqueOk(V, ids)
  {
    ids := map[];
    var n := 0;
    while n < |V|
      invariant 0 <= n <= |V|
      invariant forall i :: 0 <= i < n ==> V[i] in ids && ids[V[i]] == i
      invariant forall m :: m in ids ==> ids[m] < n && V[ids[m]] == m
    {
      ids := ids[V[n] := n];
      n := n + 1;
    }
  }

  // ----- the registry of live references

  ghost predicate HandleOk(V: seq<Node>, registry: map<Ref, nat>, handles: map<nat, Ref>, next: nat, h: nat)
    requires h in handles
  {
    h < next && Wf(V, handles[h]) && Above(handles[h], 0) && handles[h] in registry && registry[handles[h]] == h
  }

  /** Each live handle has its own reference and is registered under it. */
  ghost predicate RegistryOk(V: seq<Node>, registry: map<Ref, nat>, handles: map<nat, Ref>, next: nat) {
    && (forall r :: r in registry ==> registry[r] in handles && handles[registry[r]] == r)
    && (forall h :: h in handles ==> HandleOk(V, registry, handles, next, h))
  }

  ghost predicate RootsMarked(S: set<nat>, handles: map<nat, Ref>) {
    forall h :: h in handles ==> handles[h].id in S
  }

  lemma RegistryAdd(V: seq<Node>, registry: map<Ref, nat>, handles: map<nat, Ref>, next: nat, h: nat, r: Ref)
    requires RegistryOk(V, registry, handles, next) && h !in handles && r !in registry
    requires h < next && Wf(V, r) && Above(r, 0)
    ensures RegistryOk(V, registry[r := h], handles[h := r], next)
  {
    forall g: nat | g in handles || g == h ensures HandleOk(V, registry[r := h], handles[h := r], next, g) {
      if g != h { assert HandleOk(V, registry, handles, next, g); }
    }
  }

  lemma RegistryNew(V: seq<Node>, registry: map<Ref, nat>, handles: map<nat, Ref>, next: nat, r: Ref)
    requires RegistryOk(V, registry, handles, next) && r !in registry && Wf(V, r) && Above(r, 0)
    ensures next !in handles && RegistryOk(V, registry[r := next], handles[next := r], next + 1)
  {
    if next in handles && HandleOk(V, registry, handles, next, next) { assert false; }
    forall h | h in handles ensures HandleOk(V, registry, handles, next + 1, h) {
      assert HandleOk(V, registry, handles, next, h);
    }
    RegistryAdd(V, registry, handles, next + 1, next, r);
  }

  lemma RegistryGrow(V: seq<Node>, W: seq<Node>, registry: map<Ref, nat>, handles: map<nat, Ref>, next: nat)
    requires NodesOk(V) && NodesOk(W) && V <= W && RegistryOk(V, registry, handles, next)
    ensures RegistryOk(W, registry, handles, next)
    ensures forall h :: h in handles ==>
      Wf(V, handles[h]) && Wf(W, handles[h]) && Den(W, handles[h]) == Den(V, handles[h])
  {
    forall h | h in handles
      ensures HandleOk(W, registry, handles, next, h)
      ensures Wf(V, handles[h]) && Wf(W, handles[h]) && Den(W, handles[h]) == Den(V, handles[h])
    {
      assert HandleOk(V, registry, handles, next, h);
      Grow(V, W, handles[h]);
    }
  }

  /** Rewrites the reference of every live handle. */
  method Update(V: seq<Node>, W: seq<Node>, ghost S: set<nat>, p: seq<nat>, handles: map<nat, Ref>,
        ghost registry: map<Ref, nat>, next: nat)
    returns (registry': map<Ref, nat>, handles': map<nat, Ref>)
    requires NodesOk(V) && NodesOk(W) && Embeds(V, W, S, p) && RegistryOk(V, registry, handles, next)
    requires RootsMarked(S, handles)
    ensures RegistryOk(W, registry', handles', next) && handles'.Keys == handles.Keys
    ensures forall h :: h in handles ==> handles[h].id < |p| && handles'[h] == Renumber(p, handles[h])
  {
    registry', handles' := map[], map[];
    var todo := handles.Keys;
    while todo != {}
      invariant todo <= handles.Keys && handles'.Keys == handles.Keys - todo
      invariant forall h :: h in handles' ==> handles[h].id < |p| && handles'[h] == Renumber(p, handles[h])
      invariant RegistryOk(W, registry', handles', next)
      decreases |todo|
    {
      var h :| h in todo;
      assert HandleOk(V, registry, handles, next, h);
      var r := Renumber(p, handles[h]);
      EmbedWf(V, W, S, p, handles[h]);
      if r in registry' {
        var g := registry'[r];
        SameHandle(V, W, S, p, handles, registry, next, g, h);
      }
      RegistryAdd(W, registry', handles', next, h, r);
      todo := todo - {h};
      registry', handles' := registry'[r := h], handles'[h := r];
    }
  }

  lemma SameHandle(V: seq<Node>, W: seq<Node>, S: set<nat>, p: seq<nat>, handles: map<nat, Ref>,
        registry: map<Ref, nat>, next: nat, g: nat, h: nat)
    requires NodesOk(V) && Embeds(V, W, S, p) && RegistryOk(V, registry, handles, next) && RootsMarked(S, handles)
    requires g in handles && h in handles && handles[g].id < |p| && handles[h].id < |p|
    requires Renumber(p, handles[g]) == Renumber(p, handles[h])
    ensures g == h
  {
    assert HandleOk(V, registry, handles, next, g) && HandleOk(V, registry, handles, next, h);
    RenumberInjective(V, W, S, p, handles[g], handles[h]);
  }

  /** Node i is reachable from some live handle. */
  ghost predicate ReachedBy(V: seq<Node>, handles: map<nat, Ref>, i: nat)
    requires NodesOk(V)
  {
    exists h :: h in handles && handles[h].id < |V| && i in Reach(V, handles[h].id)
  }

  ghost predicate OnlyReached(V: seq<Node>, handles: map<nat, Ref>, S: set<nat>)
    requires NodesOk(V)
  {
    forall i {:trigger ReachedBy(V, handles, i)} :: i in S && i > 1 ==> ReachedBy(V, handles, i)
  }

  /** Remaps all memo tables. */
  method RemapAll(V: seq<Node>, W: seq<Node>, S: set<nat>, p: seq<nat>, ghost src: seq<nat>,
      C: Table, one: map<Query, Table>, pair: map<Query, Table>, many: map<Query, Table>)
    returns (C': Table, one': map<Query, Table>, pair': map<Query, Table>, many': map<Query, Table>)
    requires NodesOk(V) && NodesOk(W) && Compacted(V, W, S, p, src) && Embeds(V, W, S, p)
    requires CacheOk(V, C) && MemosOk(V, one) && MemosOk(V, pair) && MemosOk(V, many) && KeysSorted(many)
    ensures CacheOk(W, C') && MemosOk(W, one') && MemosOk(W, pair') && MemosOk(W, many') && KeysSorted(many')
  {
    CacheBounded(V, C); MemosBounded(V, one); MemosBounded(V, pair); MemosBounded(V, many);
    CompactedInjective(V, W, S, p, src);
    C' := RemapTable(C, S, p);
    one' := RemapMemos(one, S, p);
    pair' := RemapMemos(pair, S, p);
    many' := RemapMemos(many, S, p);
    RemappedCacheOk(V, W, S, p, C, C');
    RemappedMemosOk(V, W, S, p, one, one');
    RemappedMemosOk(V, W, S, p, pair, pair');
    RemappedMemosOk(V, W, S, p, many, many');
    RemappedSorted(V, W, S, p, src, many, many');
  }

  lemma CompactedInjective(V: seq<Node>, W: seq<Node>, S: set<nat>, p: seq<nat>, src: seq<nat>)
    requires NodesOk(V) && Compacted(V, W, S, p, src)
    ensures InjectiveOn(S, p) && p[0] == 0 && forall i :: i in S && 0 < i < |p| ==> p[i] > 0
  {
    assert p[src[0]] == 0;
    forall i | i in S && 0 < i < |p| ensures p[i] > 0 {
      Monotone(V, W, S, p, src, i, i);
    }
    forall i, j | i in S && j in S && i < |p| && j < |p| && p[i] == p[j] ensures i == j {
      Monotone(V, W, S, p, src, i, j);
    }
  }

  lemma {:induction false} ReachEmbed(V: seq<Node>, W: seq<Node>, S: set<nat>, p: seq<nat>, src: seq<nat>, i: nat,
        j: nat)
    requires NodesOk(V) && NodesOk(W) && Compacted(V, W, S, p, src) && i in S && j in Reach(V, i)
    ensures j in S && p[j] in Reach(W, p[i])
    decreases i
  {
    Monotone(V, W, S, p, src, i, i);
    assert CopyOk(V, S, p, src[p[i]], W[p[i]]);
    assert NodeOk(W, p[i]);
    var n, m := V[i], W[p[i]];
    Monotone(V, W, S, p, src, n.h.id, n.h.id);
    Monotone(V, W, S, p, src, n.l.id, n.l.id);
    if j != i {
      if j in Reach(V, n.h.id) {
        ReachEmbed(V, W, S, p, src, n.h.id, j);
      } else {
        ReachEmbed(V, W, S, p, src, n.l.id, j);
      }
    }
  }

  ghost predicate Follows(V: seq<Node>, p: seq<nat>, handles: map<nat, Ref>, handles': map<nat, Ref>) {
    && handles'.Keys == handles.Keys
    && forall h :: h in handles ==> Wf(V, handles[h]) && handles[h].id < |p| && handles'[h] == Renumber(p, handles[h])
  }

  lemma LiveMeaning(V: seq<Node>, W: seq<Node>, S: set<nat>, p: seq<nat>, src: seq<nat>, handles: map<nat, Ref>,
        handles': map<nat, Ref>)
    requires NodesOk(V) && NodesOk(W) && Compacted(V, W, S, p, src) && Embeds(V, W, S, p) && RootsMarked(S, handles)
    requires Follows(V, p, handles, handles')
    ensures forall h :: h in handles ==> Wf(W, handles'[h]) && Den(W, handles'[h]) == Den(V, handles[h])
    ensures forall g, h :: g in handles && h in handles ==>
      (Lt(handles'[g], handles'[h]) <==> Lt(handles[g], handles[h]))
  {
    forall h | h in handles ensures Wf(W, handles'[h]) && Den(W, handles'[h]) == Den(V, handles[h]) {
      DenEmbed(V, W, S, p, handles[h]);
    }
    forall g, h | g in handles && h in handles
      ensures Lt(handles'[g], handles'[h]) <==> Lt(handles[g], handles[h])
    {
      RenumberOrders(V, W, S, p, src, handles[g], handles[h]);
    }
  }

  lemma LiveReached(V: seq<Node>, W: seq<Node>, S: set<nat>, p: seq<nat>, src: seq<nat>, handles: map<nat, Ref>,
        handles': map<nat, Ref>, i: nat)
    requires NodesOk(V) && NodesOk(W) && Compacted(V, W, S, p, src) && RootsMarked(S, handles)
    requires Follows(V, p, handles, handles') && 1 < i < |W|
    requires ReachedBy(V, handles, src[i])
    ensures ReachedBy(W, handles', i)
  {
    var k := src[i];
    var h :| h in handles && handles[h].id < |V| && k in Reach(V, handles[h].id);
    assert p[k] == i;
    ReachEmbed(V, W, S, p, src, handles[h].id, k);
    Monotone(V, W, S, p, src, handles[h].id, handles[h].id);
    assert handles'[h].id == p[handles[h].id];
  }

  /** Renumbering by a monotone numbering keeps sorted memo keys sorted. */
  lemma RemappedSorted(V: seq<Node>, W: seq<Node>, S: set<nat>, p: seq<nat>, src: seq<nat>, m: map<Query, Table>,
        u: map<Query, Table>)
    requires NodesOk(V) && Compacted(V, W, S, p, src) && MemosOk(V, m) && MemoBounds(m, |p|) && RemappedAll(m, u, S, p)
    requires KeysSorted(m)
    ensures KeysSorted(u)
  {
    forall q, k' | Has(u, q, k') ensures AmSorted(k') {
      assert Comes(m[q], S, p, k', u[q][k']);
      var k :| k in m[q] && Live(S, k, m[q][k]) && k' == RenumberKey(p, k) && u[q][k'] == Renumber(p, m[q][k]);
      assert Has(m, q, k) && EntryOk(V, q, k, m[q][k]);
      forall i, j | 0 <= i < j < |k'| ensures AmLe(k'[i], k'[j]) {
        assert AmLe(k[i], k[j]) && Wf(V, k[i]) && Wf(V, k[j]);
        RenumberOrders(V, W, S, p, src, k[j], k[i]);
      }
    }
  }

  /** The live handles mean in W what they meant in V, in the same order, and reach every inner node of W. */
  ghost predicate HandlesMoved(V: seq<Node>, W: seq<Node>, handles: map<nat, Ref>, handles': map<nat, Ref>)
    requires NodesOk(V) && NodesOk(W)
  {
    && handles'.Keys == handles.Keys
    && (forall h :: h in handles ==>
       Wf(V, handles[h]) && Wf(W, handles'[h]) && Den(W, handles'[h]) == Den(V, handles[h]))
    && (forall g, h :: g in handles && h in handles ==> (Lt(handles'[g], handles'[h]) <==> Lt(handles[g], handles[h])))
    && (forall i: nat {:trigger ReachedBy(W, handles', i)} :: 1 < i < |W| ==> ReachedBy(W, handles', i))
  }

  /** Moves the handles to the compacted table. */
  method MoveHandles(V: seq<Node>, W: seq<Node>, ghost S: set<nat>, p: seq<nat>, ghost src: seq<nat>,
      handles: map<nat, Ref>, registry: map<Ref, nat>, next: nat)
    returns (registry': map<Ref, nat>, handles': map<nat, Ref>)
    requires NodesOk(V) && NodesOk(W) && Compacted(V, W, S, p, src) && Embeds(V, W, S, p)
    requires RegistryOk(V, registry, handles, next) && RootsMarked(S, handles)
    requires OnlyReached(V, handles, S)
    ensures RegistryOk(W, registry', handles', next) && HandlesMoved(V, W, handles, handles')
  {
    registry', handles' := Update(V, W, S, p, handles, registry, next);
    forall h | h in handles ensures Wf(V, handles[h]) {
      assert HandleOk(V, registry, handles, next, h);
    }
    LiveMeaning(V, W, S, p, src, handles, handles');
    forall i: nat | 1 < i < |W| ensures ReachedBy(W, handles', i) {
      Monotone(V, W, S, p, src, src[i], src[i]);
      assert ReachedBy(V, handles, src[i]);
      LiveReached(V, W, S, p, src, handles, handles', i);
    }
  }

  /** Compacts the marked part of a store. */
  method Collect(V: seq<Node>, S: set<nat>, handles: map<nat, Ref>, registry: map<Ref, nat>, next: nat,
      C: Table, one: map<Query, Table>, pair: map<Query, Table>, many: map<Query, Table>)
    returns (W: seq<Node>, registry': map<Ref, nat>, handles': map<nat, Ref>,
      C': Table, one': map<Query, Table>, pair': map<Query, Table>, many': map<Query, Table>)
    requires NodesOk(V) && MarkedOk(V, S) && RegistryOk(V, registry, handles, next) && RootsMarked(S, handles)
    requires OnlyReached(V, handles, S)
    requires CacheOk(V, C) && MemosOk(V, one) && MemosOk(V, pair) && MemosOk(V, many) && KeysSorted(many)
    ensures NodesOk(W) && RegistryOk(W, registry', handles', next) && HandlesMoved(V, W, handles, handles')
    ensures CacheOk(W, C') && MemosOk(W, one') && MemosOk(W, pair') && MemosOk(W, many') && KeysSorted(many')
  {
    var p;
    ghost var src;
    W, p, src := Compact(V, S);
    C', one', pair', many' := RemapAll(V, W, S, p, src, C, one, pair, many);
    registry', handles' := MoveHandles(V, W, S, p, src, handles, registry, next);
  }
}
