/** The unique table and the memo tables, and what makes their entries true. */
module BddTables {
  import opened BddRef
  import opened BddSem
  import opened BddIte
  import opened BddQuery

  type Table = map<seq<Ref>, Ref>

  /** The unique table is exactly the inverse of the node table. */
  ghost predicate UniqueOk(V: seq<Node>, ids: map<Node, nat>) {
    && (forall i :: 0 <= i < |V| ==> V[i] in ids && ids[V[i]] == i)
    && (forall n :: n in ids ==> ids[n] < |V| && V[ids[n]] == n)
  }

  // ----- the cache shared by bdd_and and bdd_ite

  /** A key [x, y, F] caches a conjunction; any other key caches what bdd_ite computes. */
  ghost predicate CacheEntryOk(V: seq<Node>, k: seq<Ref>, r: Ref)
    requires NodesOk(V)
  {
    && |k| == 3 && AllWf(V, k) && Wf(V, r)
    && Wf(V, k[0]) && Wf(V, k[1]) && Wf(V, k[2])
    && Den(V, r) == if k[2] == F then Den(V, k[0]) * Den(V, k[1]) else IteFn(V, k[0], k[1], k[2])
  }

  ghost predicate CacheOk(V: seq<Node>, C: Table)
    requires NodesOk(V)
  {
    forall k :: k in C ==> CacheEntryOk(V, k, C[k])
  }

  // ----- the query memos

  ghost predicate EntryOk(V: seq<Node>, q: Query, k: seq<Ref>, r: Ref)
    requires NodesOk(V)
  {
    AllWf(V, k) && Wf(V, r) && Den(V, r) == Image(q, Conj(V, k))
  }

  predicate Has(m: map<Query, Table>, q: Query, k: seq<Ref>) {
    q in m && k in m[q]
  }

  ghost predicate MemosOk(V: seq<Node>, m: map<Query, Table>)
    requires NodesOk(V)
  {
    forall q, k :: Has(m, q, k) ==> EntryOk(V, q, k, m[q][k])
  }

  /** Insertion that keeps an existing entry. */
  function Emplace(m: map<Query, Table>, q: Query, k: seq<Ref>, r: Ref): (m': map<Query, Table>)
    ensures Has(m', q, k)
    ensures forall q', k' :: Has(m', q', k') <==> Has(m, q', k') || (q' == q && k' == k)
    ensures forall q', k' :: Has(m, q', k') ==> Has(m', q', k') && m'[q'][k'] == m[q'][k']
    ensures !Has(m, q, k) ==> m'[q][k] == r
  {
    if q !in m then m[q := map[k := r]]
    else if k in m[q] then m
    else m[q := m[q][k := r]]
  }

  lemma EmplaceOk(V: seq<Node>, m: map<Query, Table>, q: Query, k: seq<Ref>, r: Ref)
    requires NodesOk(V) && MemosOk(V, m) && EntryOk(V, q, k, r)
    ensures MemosOk(V, Emplace(m, q, k, r))
  {
  }

  // ----- renumbering keeps entries true; growth is a special case

  lemma CacheEntryEmbed(V: seq<Node>, W: seq<Node>, S: set<nat>, p: seq<nat>, k: seq<Ref>, k': seq<Ref>, r: Ref)
    requires NodesOk(V) && NodesOk(W) && Embeds(V, W, S, p) && CacheEntryOk(V, k, r) && r.id in S
    requires |k'| == |k| && forall i :: 0 <= i < |k| ==> k[i].id in S && k'[i] == Renumber(p, k[i])
    ensures CacheEntryOk(W, k', Renumber(p, r))
  {
    var x, y, z := k[0], k[1], k[2];
    ConjEmbed(V, W, S, p, k, k');
    DenEmbed(V, W, S, p, r);
    DenLeaf(V);
    RenumberInjective(V, W, S, p, z, F);
    if z == F {
      DenEmbed(V, W, S, p, x); DenEmbed(V, W, S, p, y);
    } else {
      IteFnEmbed(V, W, S, p, x, y, z);
    }
  }

  lemma EntryEmbed(V: seq<Node>, W: seq<Node>, S: set<nat>, p: seq<nat>, q: Query, k: seq<Ref>, k': seq<Ref>, r: Ref)
    requires NodesOk(V) && NodesOk(W) && Embeds(V, W, S, p) && EntryOk(V, q, k, r) && r.id in S
    requires |k'| == |k| && forall i :: 0 <= i < |k| ==> k[i].id in S && k'[i] == Renumber(p, k[i])
    ensures EntryOk(W, q, k', Renumber(p, r))
  {
    ConjEmbed(V, W, S, p, k, k');
    DenEmbed(V, W, S, p, r);
  }

  lemma IteFnGrow(V: seq<Node>, W: seq<Node>, x: Ref, y: Ref, z: Ref)
    requires NodesOk(V) && NodesOk(W) && V <= W && Wf(V, x) && Wf(V, y) && Wf(V, z)
    ensures Wf(W, x) && Wf(W, y) && Wf(W, z) && IteFn(W, x, y, z) == IteFn(V, x, y, z)
  {
    GrowEmbeds(V, W);
    IteFnEmbed(V, W, Ids(|V|), Identity(|V|), x, y, z);
  }

  lemma CacheGrow(V: seq<Node>, W: seq<Node>, C: Table)
    requires NodesOk(V) && NodesOk(W) && V <= W && CacheOk(V, C)
    ensures CacheOk(W, C)
  {
    forall k | k in C
      ensures CacheEntryOk(W, k, C[k])
    {
      assert CacheEntryOk(V, k, C[k]);
      Grow(V, W, k[0]); Grow(V, W, k[1]); Grow(V, W, k[2]); Grow(V, W, C[k]);
      if k[2] != F { IteFnGrow(V, W, k[0], k[1], k[2]); }
    }
  }

  lemma MemosGrow(V: seq<Node>, W: seq<Node>, m: map<Query, Table>)
    requires NodesOk(V) && NodesOk(W) && V <= W && MemosOk(V, m)
    ensures MemosOk(W, m)
  {
    forall q, k | Has(m, q, k)
      ensures EntryOk(W, q, k, m[q][k])
    {
      ConjGrow(V, W, k);
      Grow(V, W, m[q][k]);
    }
  }
}
