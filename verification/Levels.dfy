/** Ordering relations by what they need, level by level. */
module Levels {
  import opened Formula
  import opened Inlining

  /** Which relations with rules each relation with rules needs. */
  type Graph = map<Rel, set<Rel>>

  predicate Closed(g: Graph) {
    forall w :: w in g ==> g[w] <= g.Keys
  }

  function Union(levels: seq<set<Rel>>): set<Rel> {
    if levels == [] then {} else Union(levels[..|levels| - 1]) + levels[|levels| - 1]
  }

  lemma {:induction false} UnionIn(levels: seq<set<Rel>>, w: Rel)
    ensures w in Union(levels) <==> exists i :: 0 <= i < |levels| && w in levels[i]
  {
    if levels != [] {
      var n := |levels| - 1;
      UnionIn(levels[..n], w);
      if i :| 0 <= i < n && w in levels[i] { assert w in levels[..n][i]; }
      if i :| 0 <= i < n && w in levels[..n][i] { assert w in levels[i]; }
    }
  }

  /** Levels are disjoint, and what a relation needs lies in lower levels. */
  ghost predicate Ranked(g: Graph, levels: seq<set<Rel>>) {
    forall i, w :: 0 <= i < |levels| && w in levels[i] ==> RankedAt(g, levels, i, w)
  }

  ghost predicate RankedAt(g: Graph, levels: seq<set<Rel>>, i: nat, w: Rel)
    requires i <= |levels|
  {
    w in g && w !in Union(levels[..i]) && g[w] <= Union(levels[..i])
  }

  /** Some relations each need another one of them. */
  ghost predicate Cyclic(g: Graph) {
    exists s: set<Rel> :: s != {} && Circle(g, s)
  }

  ghost predicate Circle(g: Graph, s: set<Rel>) {
    s <= g.Keys && forall w :: w in s ==> g[w] * s != {}
  }

  // ----- Kahn's algorithm

  /** What is left to wait for, when the relations of done have been placed. */
  ghost predicate Waiting(g: Graph, left: Graph, done: set<Rel>) {
    left.Keys == g.Keys && forall w :: w in g ==> left[w] == g[w] - done
  }

  function Needers(g: Graph, n: Rel): set<Rel> {
    set m | m in g && n in g[m]
  }

  /** The relations not placed yet that wait for nothing. */
  ghost predicate IsLevel(g: Graph, current: set<Rel>, done: set<Rel>) {
    forall w :: w in current <==> w in g && w !in done && g[w] <= done
  }

  /** The relations for which the last thing they waited for is among placed. */
  ghost predicate NextOk(g: Graph, next: set<Rel>, done: set<Rel>, placed: set<Rel>) {
    forall w :: w in next <==> w in g && !(g[w] <= done) && g[w] <= done + placed
  }

  /** Everything a placed relation needs is placed. */
  ghost predicate Full(g: Graph, done: set<Rel>) {
    forall w :: w in done ==> w in g && g[w] <= done
  }

  /** Removes a placed relation from the lists of those that wait for it. */
  method Release(g: Graph, n: Rel, left0: Graph, next0: set<Rel>, ghost done: set<Rel>, ghost placed: set<Rel>)
    returns (left: Graph, next: set<Rel>)
    requires Waiting(g, left0, done + placed) && NextOk(g, next0, done, placed) && n !in done + placed
    ensures Waiting(g, left, done + (placed + {n})) && NextOk(g, next, done, placed + {n})
  {
    left, next := left0, next0;
    var todo := Needers(g, n);
    while todo != {}
      invariant todo <= Needers(g, n) && left.Keys == g.Keys
      invariant forall w :: w in g ==>
        left[w] == if w in todo then g[w] - (done + placed) else g[w] - (done + placed) - {n}
      invariant forall w :: w in next <==> w in next0 || (w in Needers(g, n) && w !in todo && left[w] == {})
    {
      var m :| m in todo;
      todo := todo - {m};
      left := left[m := left[m] - {n}];
      if left[m] == {} { next := next + {m}; }
    }
  }

  /** Places a whole level and finds the next one. */
  method PlaceLevel(g: Graph, current: set<Rel>, left0: Graph, ghost done: set<Rel>)
    returns (left: Graph, next: set<Rel>)
    requires Waiting(g, left0, done) && IsLevel(g, current, done)
    requires Full(g, done)
    ensures Waiting(g, left, done + current) && IsLevel(g, next, done + current)
  {
    left, next := left0, {};
    var todo := current;
    assert current - todo == {} && done + {} == done;
    while todo != {}
      invariant todo <= current && Waiting(g, left, done + (current - todo)) && NextOk(g, next, done, current - todo)
    {
      var n :| n in todo;
      left, next := Release(g, n, left, next, done, current - todo);
      assert (current - todo) + {n} == current - (todo - {n});
      todo := todo - {n};
    }
    assert current - todo == current;
  }

  /** Levels of relations, each needing only lower levels. All relations are placed unless some wait in a circle. */
  method Kahn(g: Graph) returns (levels: seq<set<Rel>>)
    requires Closed(g)
    ensures Ranked(g, levels) && AllFilled(levels) && Tight(g, levels)
    ensures Full(g, Union(levels))
    ensures Union(levels) == g.Keys <==> !Cyclic(g)
  {
    var left: Graph := g;
    var current := set w | w in g && g[w] == {};
    levels := [];
    assert Union(levels) == {} && Full(g, {}) && Waiting(g, left, {}) && IsLevel(g, current, {});
    hide Waiting, Union, Ranked, Cyclic, Full, IsLevel, AllFilled, AllReady;
    while current != {}
      invariant Ranked(g, levels) && Waiting(g, left, Union(levels)) && IsLevel(g, current, Union(levels))
      invariant Full(g, Union(levels)) && AllFilled(levels) && AllReady(g, levels)
      decreases g.Keys - Union(levels)
    {
      ghost var before := levels;
      var next;
      left, next := PlaceLevel(g, current, left, Union(levels));
      levels := levels + [current];
      Placed(g, before, current, levels);
      ReadyMore(g, before, current, levels);
      current := next;
    }
    Stuck(g, levels);
    ReadyTight(g, levels);
  }

  /** Every level holds all relations that are ready when it is placed. */
  ghost predicate AllReady(g: Graph, levels: seq<set<Rel>>) {
    forall i :: 0 <= i < |levels| ==> IsLevel(g, levels[i], Union(levels[..i]))
  }

  /** Every relation is placed as early as it can be: above the lowest level, it needs one of the level below. */
  ghost predicate Tight(g: Graph, levels: seq<set<Rel>>) {
    forall i, w :: 0 < i < |levels| && w in levels[i] ==> NeedsOne(g, w, levels[i - 1])
  }

  ghost predicate NeedsOne(g: Graph, w: Rel, below: set<Rel>) {
    w in g && exists v :: v in g[w] && v in below
  }

  lemma ReadyMore(g: Graph, before: seq<set<Rel>>, current: set<Rel>, levels: seq<set<Rel>>)
    requires AllReady(g, before) && IsLevel(g, current, Union(before)) && levels == before + [current]
    ensures AllReady(g, levels)
  {
    forall i | 0 <= i < |levels| ensures IsLevel(g, levels[i], Union(levels[..i])) {
      assert levels[..i] == before[..i];
      if i == |before| { assert before[..i] == before; }
    }
  }

  lemma ReadyTight(g: Graph, levels: seq<set<Rel>>)
    requires AllReady(g, levels)
    ensures Tight(g, levels)
  {
    forall i, w | 0 < i < |levels| && w in levels[i] ensures NeedsOne(g, w, levels[i - 1]) {
      var k := i - 1;
      assert levels[..i] == levels[..k] + [levels[k]] && levels[..i][..k] == levels[..k];
      assert IsLevel(g, levels[i], Union(levels[..i])) && IsLevel(g, levels[k], Union(levels[..k]));
      assert Union(levels[..i]) == Union(levels[..k]) + levels[k];
    }
  }

  ghost predicate AllFilled(levels: seq<set<Rel>>) {
    forall i :: 0 <= i < |levels| ==> levels[i] != {}
  }

  lemma Placed(g: Graph, before: seq<set<Rel>>, current: set<Rel>, levels: seq<set<Rel>>)
    requires Ranked(g, before) && AllFilled(before) && Full(g, Union(before)) && current != {}
    requires IsLevel(g, current, Union(before)) && levels == before + [current]
    ensures Ranked(g, levels) && AllFilled(levels) && Union(levels) == Union(before) + current && Full(g, Union(levels))
    ensures g.Keys - Union(levels) < g.Keys - Union(before)
  {
    assert levels[..|before|] == before;
    var v :| v in current;
    assert v in g.Keys - Union(before) && v !in g.Keys - Union(levels);
    forall i, w | 0 <= i < |levels| && w in levels[i] ensures RankedAt(g, levels, i, w) {
      if i < |before| {
        assert levels[i] == before[i] && levels[..i] == before[..i];
        assert w in before[i] && RankedAt(g, before, i, w);
      }
    }
  }

  lemma Stuck(g: Graph, levels: seq<set<Rel>>)
    requires Closed(g) && Ranked(g, levels) && IsLevel(g, {}, Union(levels)) && Full(g, Union(levels))
    ensures Union(levels) == g.Keys <==> !Cyclic(g)
  {
    var rest := g.Keys - Union(levels);
    if rest != {} {
      forall w | w in rest ensures g[w] * rest != {} {
        var d :| d in g[w] && d !in Union(levels);
        assert d in g[w] * rest;
      }
      assert Circle(g, rest);
    }
    if s: set<Rel> :| s != {} && Circle(g, s) {
      NoCircle(g, levels, s, |levels|);
      assert levels[..|levels|] == levels;
      var w :| w in s;
      assert w in rest;
    }
  }

  /** No member of a circle is placed. */
  lemma {:induction false} NoCircle(g: Graph, levels: seq<set<Rel>>, s: set<Rel>, n: nat)
    requires Ranked(g, levels) && n <= |levels| && Circle(g, s)
    ensures s !! Union(levels[..n])
  {
    if n > 0 {
      var below := levels[..n - 1];
      NoCircle(g, levels, s, n - 1);
      assert levels[..n][..n - 1] == below;
      forall w | w in levels[n - 1] ensures w !in s {
        assert RankedAt(g, levels, n - 1, w) && g[w] * s <= Union(below) * s;
      }
    }
  }

  // ----- the graph of a program

  function FormRels(f: Form): set<Rel> {
    match f
    case Lit(a) => {a.rel}
    case Equal(_, _) => {}
    case Not(g) => FormRels(g)
    case Bin(_, l, r) => FormRels(l) + FormRels(r)
    case Quant(_, _, g) => FormRels(g)
  }

  /** The dependencies among the relations that have rules. */
  ghost predicate IsGraph(g: Graph, rs: seq<Rule>) {
    && (forall w :: w in g <==> HasRules(rs, w))
    && (forall w, d {:trigger d in g[w]} :: w in g ==> (d in g[w] <==> d in g && Mentions(rs, w, d)))
  }

  ghost predicate Mentions(rs: seq<Rule>, w: Rel, d: Rel) {
    exists i :: 0 <= i < |rs| && rs[i].head.rel == w && d in FormRels(rs[i].body)
  }

  /** The relations with rules. */
  method Partition(rs: seq<Rule>) returns (heads: set<Rel>)
    ensures forall w :: w in heads <==> HasRules(rs, w)
  {
    heads := {};
    var k := 0;
    while k < |rs|
      invariant 0 <= k <= |rs| && forall w :: w in heads <==> HasRules(rs[..k], w)
    {
      OneMoreRule(rs, k);
      heads := heads + {rs[k].head.rel};
      k := k + 1;
    }
    assert rs[..k] == rs;
  }

  lemma OneMoreRule(rs: seq<Rule>, k: nat)
    requires k < |rs|
    ensures forall w :: HasRules(rs[..k + 1], w) <==> HasRules(rs[..k], w) || w == rs[k].head.rel
    ensures forall w, d :: Mentions(rs[..k + 1], w, d) <==>
      Mentions(rs[..k], w, d) || (w == rs[k].head.rel && d in FormRels(rs[k].body))
  {
    var n := k + 1;
    assert rs[..n] == rs[..k] + [rs[k]] && rs[..n][k] == rs[k];
    forall w ensures HasRules(rs[..n], w) <==> HasRules(rs[..k], w) || w == rs[k].head.rel {
      if i :| 0 <= i < k && rs[..k][i].head.rel == w { assert rs[..n][i].head.rel == w; }
    }
    forall w, d
      ensures Mentions(rs[..n], w, d) <==> Mentions(rs[..k], w, d) || (w == rs[k].head.rel && d in FormRels(rs[k].body))
    {
      if i :| 0 <= i < k && rs[..k][i].head.rel == w && d in FormRels(rs[..k][i].body) {
        assert rs[..n][i] == rs[..k][i];
      }
      if i :| 0 <= i < k && rs[..n][i].head.rel == w && d in FormRels(rs[..n][i].body) {
        assert rs[..k][i] == rs[..n][i];
      }
    }
  }

  method Dependencies(rs: seq<Rule>) returns (g: Graph)
    ensures IsGraph(g, rs) && Closed(g)
  {
    var heads := Partition(rs);
    g := map w | w in heads :: {};
    var k := 0;
    while k < |rs|
      invariant 0 <= k <= |rs| && g.Keys == heads
      invariant forall w, d {:trigger d in g[w]} :: w in g ==> (d in g[w] <==> d in heads && Mentions(rs[..k], w, d))
    {
      OneMoreRule(rs, k);
      var w := rs[k].head.rel;
      assert HasRules(rs, w);
      g := g[w := g[w] + FormRels(rs[k].body) * heads];
      k := k + 1;
    }
    assert rs[..k] == rs;
  }
}
