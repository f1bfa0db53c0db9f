/** Cached, incremental evaluation of a compiled program. */
module Evaluator {
  import opened Datalog
  import opened DatalogCompile
  import opened DatalogStep
  import opened DatalogRuns
  import opened BddSat

  /** The table a body literal was last evaluated on, and the result. */
  datatype BodyCache = BodyCache(tlast: Option<set<Tuple>>, rlast: set<Tuple>)

  /** The conjuncts an alternative was last evaluated on, and the result. */
  datatype AltCache = AltCache(last: multiset<set<Tuple>>, rlast: set<Tuple>)

  /** The alternatives' results a rule was last evaluated on, and the result. */
  datatype RuleCache = RuleCache(last: seq<set<Tuple>>, rlast: set<Tuple>)

  /** A table with the additions and deletions of the current step. */
  datatype Table = Table(t: set<Tuple>, add: seq<set<Tuple>>, del: seq<set<Tuple>>, unsat: bool)

  function Union(s: seq<set<Tuple>>): set<Tuple> {
    if s == [] then {} else Union(s[..|s| - 1]) + s[|s| - 1]
  }

  /** The tuples common to all conjuncts, cut to the head's positions. */
  function Joined(dom: nat, a: AltDef, ms: multiset<set<Tuple>>): set<Tuple> {
    Cut((set v | v in Vals(dom, a.len) && forall x :: x in ms ==> v in x), a.headLen)
  }

  lemma InEach(s: seq<set<Tuple>>, v: Tuple)
    ensures (forall x :: x in multiset(s) ==> v in x) <==> (forall i :: 0 <= i < |s| ==> v in s[i])
  {
    forall i | 0 <= i < |s| ensures s[i] in multiset(s) { }
    if forall i :: 0 <= i < |s| ==> v in s[i] {
      forall x | x in multiset(s) ensures v in x {
        assert x in s;
      }
    }
  }

  predicate BodyCacheOk(dom: nat, b: BodyDef, c: BodyCache)
    requires BodyOk(b, b.len)
  {
    c.tlast.Some? ==> c.rlast == BodyRel(dom, b, c.tlast.value)
  }

  predicate AltCacheOk(dom: nat, a: AltDef, c: AltCache) {
    c.last != multiset{} ==> c.rlast == Joined(dom, a, c.last)
  }

  predicate RuleCacheOk(r: RuleDef, c: RuleCache) {
    (c.last == [] || |c.last| == |r.alts|) && (|c.last| == |r.alts| ==> c.rlast == Union(c.last) * r.eq)
  }

  // ----- what has been pushed in a step

  /** What the first n rules have pushed to a table. In a program without negative heads a rule whose alternatives have
      not changed pushes nothing: its tuples are in the table already. */
  ghost predicate Pushed(code: Code, datalog: bool, b: Table, n: nat, db: DB, tab: nat)
    requires code.Ok() && n <= |code.rules| && tab < |db|
  {
    && b.t == db[tab] && !b.unsat && NoneEmpty(b.add) && NoneEmpty(b.del)
    && Union(b.del) == code.Total(true, tab, db, n)
    && Union(b.add) <= code.Total(false, tab, db, n)
    && code.Total(false, tab, db, n) <= Union(b.add) + (if datalog then db[tab] else {})
  }

  /** The last result of a rule is in its table, or about to be. */
  ghost predicate Absorbed(datalog: bool, x: set<Tuple>, b: Table) {
    datalog ==> x <= b.t + Union(b.add)
  }

  ghost predicate AllPushed(code: Code, datalog: bool, tbls: seq<Table>, n: nat, db: DB)
    requires code.Ok() && n <= |code.rules| && |db| == |tbls|
  {
    forall tab :: 0 <= tab < |tbls| ==> Pushed(code, datalog, tbls[tab], n, db, tab)
  }

  ghost predicate TabsOk(code: Code, n: nat) {
    forall i :: 0 <= i < |code.rules| ==> code.rules[i].tab < n
  }

  /** The last results of all rules but the given one are in their tables. */
  ghost predicate AllAbsorbed(code: Code, datalog: bool, tbls: seq<Table>, rc: seq<RuleCache>, but: int)
    requires TabsOk(code, |tbls|) && |rc| == |code.rules|
  {
    forall i :: 0 <= i < |rc| && i != but ==> Absorbed(datalog, rc[i].rlast, tbls[code.rules[i].tab])
  }

  function PushTo(b: Table, neg: bool, x: set<Tuple>): Table {
    if x == {} then b else if neg then b.(del := b.del + [x]) else b.(add := b.add + [x])
  }

  lemma {:induction false} UnionIn(s: seq<set<Tuple>>, u: Tuple)
    ensures u in Union(s) <==> exists i :: 0 <= i < |s| && u in s[i]
  {
    if s != [] { UnionIn(s[..|s| - 1], u); }
  }

  lemma UnionPush(s: seq<set<Tuple>>, x: set<Tuple>)
    ensures Union(s + [x]) == Union(s) + x
  {
    assert (s + [x])[..|s|] == s;
  }


  predicate NoneEmpty(s: seq<set<Tuple>>) {
    forall i :: 0 <= i < |s| ==> s[i] != {}
  }

  lemma NoneEmptyPush(s: seq<set<Tuple>>, x: set<Tuple>)
    requires NoneEmpty(s) && x != {}
    ensures NoneEmpty(s + [x])
  {
  }

  lemma PushToDone(b: Table, neg: bool, x: set<Tuple>)
    requires NoneEmpty(b.add) && NoneEmpty(b.del)
    ensures PushTo(b, neg, x).t == b.t && PushTo(b, neg, x).unsat == b.unsat && NoneEmpty(PushTo(b, neg, x).add)
    ensures NoneEmpty(PushTo(b, neg, x).del)
    ensures Union(PushTo(b, neg, x).add) == if neg then Union(b.add) else Union(b.add) + x
    ensures Union(PushTo(b, neg, x).del) == if neg then Union(b.del) + x else Union(b.del)
  {
    if x == {} {
      assert Union(b.add) + x == Union(b.add) && Union(b.del) + x == Union(b.del);
    } else if neg {
      UnionPush(b.del, x); NoneEmptyPush(b.del, x);
    } else {
      UnionPush(b.add, x); NoneEmptyPush(b.add, x);
    }
  }

  lemma PushedStep(code: Code, datalog: bool, b: Table, i: nat, db: DB, tab: nat, x: set<Tuple>)
    requires code.Ok() && i < |code.rules| && tab < |db| && Pushed(code, datalog, b, i, db, tab) && x == code.Rel(i, db)
    ensures code.rules[i].tab == tab ==> Pushed(code, datalog, PushTo(b, code.rules[i].neg, x), i + 1, db, tab)
    ensures code.rules[i].tab != tab ==> Pushed(code, datalog, b, i + 1, db, tab)
  {
    PushToDone(b, code.rules[i].neg, x);
  }

  lemma PushDone(code: Code, datalog: bool, tbls: seq<Table>, rc: seq<RuleCache>, i: nat, x: set<Tuple>, db: DB)
    requires code.Ok() && TabsOk(code, |tbls|) && |rc| == |code.rules| && i < |rc| && |db| == |tbls|
    requires AllPushed(code, datalog, tbls, i, db) && AllAbsorbed(code, datalog, tbls, rc, i)
    requires x == code.Rel(i, db) && rc[i].rlast == x && (datalog ==> !code.rules[i].neg)
    ensures var r := code.rules[i];
      var ts := tbls[r.tab := PushTo(tbls[r.tab], r.neg, x)];
      AllPushed(code, datalog, ts, i + 1, db) && AllAbsorbed(code, datalog, ts, rc, -1)
  {
    var r := code.rules[i];
    var ts := tbls[r.tab := PushTo(tbls[r.tab], r.neg, x)];
    forall tab | 0 <= tab < |ts| ensures Pushed(code, datalog, ts[tab], i + 1, db, tab) {
      PushedStep(code, datalog, tbls[tab], i, db, tab, x);
    }
    assert Pushed(code, datalog, tbls[r.tab], i, db, r.tab);
    PushToDone(tbls[r.tab], r.neg, x);
    forall j | 0 <= j < |rc| ensures Absorbed(datalog, rc[j].rlast, ts[code.rules[j].tab]) {
      if j != i { assert Absorbed(datalog, rc[j].rlast, tbls[code.rules[j].tab]); }
    }
  }

  lemma PushFacts(tbls: seq<Table>, tab: nat, neg: bool, x: set<Tuple>)
    requires tab < |tbls|
    ensures FactsOf(tbls[tab := PushTo(tbls[tab], neg, x)]) == FactsOf(tbls)
  {
  }

  lemma EmptyUnion(s: seq<set<Tuple>>)
    requires NoneEmpty(s)
    ensures s == [] <==> Union(s) == {}
  {
    if s != [] {
      var u :| u in s[|s| - 1];
      assert u in Union(s);
    }
  }

  lemma {:induction false} NoDeletions(code: Code, tab: nat, db: DB, n: nat)
    requires code.Ok() && n <= |code.rules| && forall r :: r in code.rules ==> !r.neg
    ensures code.Total(true, tab, db, n) == {}
  {
    if n > 0 {
      NoDeletions(code, tab, db, n - 1);
      assert code.rules[n - 1] in code.rules;
    }
  }

  /** What committing a fully pushed table must do. */
  lemma CommitMeans(code: Code, datalog: bool, b: Table, db: DB, tab: nat)
    requires code.Ok() && tab < |db| && Pushed(code, datalog, b, |code.rules|, db, tab)
    requires datalog ==> forall r :: r in code.rules ==> !r.neg
    ensures code.Conflict(tab, db) <==> b.add != [] && b.del != [] && Union(b.add) <= Union(b.del)
    ensures code.Next(tab, db) == (b.t + Union(b.add)) - Union(b.del)
    ensures b.add == [] ==> Union(b.add) == {}
    ensures b.del == [] ==> Union(b.del) == {}
  {
    EmptyUnion(b.add); EmptyUnion(b.del);
    if datalog { NoDeletions(code, tab, db, |code.rules|); }
  }

  /** Nothing is waiting to be committed. */
  predicate Clean(b: Table) {
    b.add == [] && b.del == [] && !b.unsat
  }

  /** The first n tables have been committed without conflict. */
  ghost predicate Committed(code: Code, ts: seq<Table>, us: seq<Table>, db: DB, n: nat)
    requires code.Ok() && |ts| == |us| == |db| && n <= |db|
  {
    && (forall i :: n <= i < |us| ==> us[i] == ts[i])
    && (forall i :: 0 <= i < n ==>
       !code.Conflict(i, db) && us[i] == ts[i].(t := code.Next(i, db), add := [], del := []))
  }

  ghost predicate SomeChange(code: Code, db: DB, n: nat)
    requires code.Ok() && n <= |db|
  {
    exists i :: 0 <= i < n && code.Next(i, db) != db[i]
  }

  lemma CommitDone(code: Code, datalog: bool, lens: seq<nat>, ts: seq<Table>, us: seq<Table>, db: DB,
        rc: seq<RuleCache>)
    requires code.Ok() && |lens| == |ts| == |us| == |db| && Committed(code, ts, us, db, |db|)
    requires AllPushed(code, datalog, ts, |code.rules|, db) && Within(code.dom, lens, db)
    requires TabsOk(code, |ts|) && |rc| == |code.rules| && AllAbsorbed(code, datalog, ts, rc, -1)
    requires datalog ==> forall r :: r in code.rules ==> !r.neg
    requires forall i :: 0 <= i < |code.rules| ==> code.rules[i].eq <= Vals(code.dom, lens[code.rules[i].tab])
    ensures FactsOf(us) == code.Step(db) && !code.AnyConflict(db) && (SomeChange(code, db, |db|) <==> FactsOf(us) != db)
    ensures forall i :: 0 <= i < |us| ==> Clean(us[i])
    ensures AllAbsorbed(code, datalog, us, rc, -1) && Within(code.dom, lens, FactsOf(us))
  {
    forall i | 0 <= i < |rc| ensures Absorbed(datalog, rc[i].rlast, us[code.rules[i].tab]) {
      var tab := code.rules[i].tab;
      assert Absorbed(datalog, rc[i].rlast, ts[tab]) && Pushed(code, datalog, ts[tab], |code.rules|, db, tab);
      CommitMeans(code, datalog, ts[tab], db, tab);
      if datalog { NoDeletions(code, tab, db, |code.rules|); }
    }
    forall tab | 0 <= tab < |db| ensures FactsOf(us)[tab] <= Vals(code.dom, lens[tab]) {
      AddedWithin(code, lens, db, tab, |code.rules|);
    }
    if FactsOf(us) != db {
      assert exists i :: 0 <= i < |db| && FactsOf(us)[i] != db[i];
    }
  }

  lemma {:induction false} AddedWithin(code: Code, lens: seq<nat>, db: DB, tab: nat, n: nat)
    requires code.Ok() && n <= |code.rules| && tab < |lens| && TabsOk(code, |lens|)
    requires forall i :: 0 <= i < |code.rules| ==> code.rules[i].eq <= Vals(code.dom, lens[code.rules[i].tab])
    ensures code.Total(false, tab, db, n) <= Vals(code.dom, lens[tab])
  {
    if n > 0 { AddedWithin(code, lens, db, tab, n - 1); }
  }

  lemma SkipDone(code: Code, datalog: bool, tbls: seq<Table>, rc: seq<RuleCache>, i: nat, db: DB)
    requires code.Ok() && TabsOk(code, |tbls|) && |rc| == |code.rules| && i < |rc| && |db| == |tbls| && datalog
    requires AllPushed(code, datalog, tbls, i, db) && AllAbsorbed(code, datalog, tbls, rc, -1)
    requires rc[i].rlast == code.Rel(i, db) && !code.rules[i].neg
    ensures AllPushed(code, datalog, tbls, i + 1, db)
  {
    forall tab | 0 <= tab < |tbls| ensures Pushed(code, datalog, tbls[tab], i + 1, db, tab) {
      assert Pushed(code, datalog, tbls[tab], i, db, tab);
    }
  }

  ghost predicate AltResult(code: Code, i: nat, n: nat, x: set<Tuple>, db: DB)
    requires code.Ok() && i < |code.rules| && n < |code.rules[i].alts|
  {
    assert code.rules[i] in code.rules && code.rules[i].alts[n] in code.rules[i].alts;
    x == AltRel(code.dom, code.alts[code.rules[i].alts[n]], code.bodies, db)
  }

  /** The results of the first alternatives of a rule. */
  ghost predicate SomeResults(code: Code, i: nat, v: seq<set<Tuple>>, db: DB)
    requires code.Ok() && i < |code.rules|
  {
    |v| <= |code.rules[i].alts| && forall n :: 0 <= n < |v| ==> AltResult(code, i, n, v[n], db)
  }

  lemma SomeResultsPush(code: Code, i: nat, v: seq<set<Tuple>>, x: set<Tuple>, db: DB)
    requires code.Ok() && i < |code.rules| && |v| < |code.rules[i].alts|
    requires SomeResults(code, i, v, db) && AltResult(code, i, |v|, x, db)
    ensures SomeResults(code, i, v + [x], db)
  {
  }

  /** A rule's result from its alternatives' results. */
  lemma RuleJoined(code: Code, i: nat, v: seq<set<Tuple>>, db: DB)
    requires code.Ok() && i < |code.rules| && |v| == |code.rules[i].alts| && SomeResults(code, i, v, db)
    ensures Union(v) * code.rules[i].eq == code.Rel(i, db)
  {
    var r := code.rules[i];
    assert r in code.rules;
    forall u ensures u in Union(v) * r.eq <==> u in code.Rel(i, db) {
      UnionIn(v, u);
      if u in code.Rel(i, db) {
        var k :| k in r.alts && u in AltRel(code.dom, code.alts[k], code.bodies, db);
        var n :| 0 <= n < |r.alts| && r.alts[n] == k;
        assert AltResult(code, i, n, v[n], db) && u in v[n];
      }
      if n :| 0 <= n < |v| && u in v[n] {
        assert AltResult(code, i, n, v[n], db) && r.alts[n] in r.alts;
      }
    }
  }

  function FactsOf(ts: seq<Table>): DB {
    seq(|ts|, i requires 0 <= i < |ts| => ts[i].t)
  }

  // ----- the final cycle

  /** Each front is one step from the one before, and all are over the ground tuples. */
  ghost predicate FrontsOk(code: Code, lens: seq<nat>, fronts: seq<DB>)
    requires code.Ok()
  {
    forall i :: 0 <= i < |fronts| ==> FrontOk(code, lens, fronts, i)
  }

  ghost predicate FrontOk(code: Code, lens: seq<nat>, fronts: seq<DB>, i: nat)
    requires code.Ok() && i < |fronts|
  {
    Within(code.dom, lens, fronts[i]) && (i > 0 ==> fronts[i] == code.Step(fronts[i - 1]))
  }

  lemma {:induction false} FrontIsRun(code: Code, lens: seq<nat>, fronts: seq<DB>, i: nat)
    requires code.Ok() && FrontsOk(code, lens, fronts) && i < |fronts|
    ensures fronts[i] == code.Run(fronts[0], i)
  {
    if i > 0 {
      FrontIsRun(code, lens, fronts, i - 1);
      assert FrontOk(code, lens, fronts, i);
      RunStep(code, fronts[0], i - 1, i, fronts[i - 1], fronts[i]);
    }
  }

  /** All steps before n are free of conflicts. */
  ghost predicate Smooth(code: Code, db: DB, n: nat)
    requires code.Ok()
  {
    forall i: nat :: i < n ==> !code.AnyConflict(code.Run(db, i))
  }

  /** The fronts recorded by a run that starts at db and has met no conflict. */
  ghost predicate Trace(code: Code, lens: seq<nat>, db: DB, fronts: seq<DB>)
    requires code.Ok()
    decreases |fronts|
  {
    var n := |fronts|;
    && n > 0 && Within(code.dom, lens, fronts[n - 1])
    && if n == 1 then fronts[0] == db
       else
         && Trace(code, lens, db, fronts[..n - 1])
         && !code.AnyConflict(fronts[n - 2])
         && fronts[n - 1] == code.Step(fronts[n - 2])
  }

  lemma TraceStart(code: Code, lens: seq<nat>, db: DB)
    requires code.Ok() && Within(code.dom, lens, db)
    ensures Trace(code, lens, db, [db])
  {
  }

  lemma TraceStep(code: Code, lens: seq<nat>, db: DB, fronts: seq<DB>, d: DB)
    requires code.Ok() && Trace(code, lens, db, fronts) && !code.AnyConflict(fronts[|fronts| - 1])
    requires d == code.Step(fronts[|fronts| - 1]) && Within(code.dom, lens, d)
    ensures Trace(code, lens, db, fronts + [d])
  {
    assert (fronts + [d])[..|fronts|] == fronts;
  }

  lemma {:induction false} TraceFronts(code: Code, lens: seq<nat>, db: DB, fronts: seq<DB>)
    requires code.Ok() && Trace(code, lens, db, fronts)
    ensures FrontsOk(code, lens, fronts) && fronts[0] == db
    decreases |fronts|
  {
    var n := |fronts|;
    if n > 1 {
      var p := fronts[..n - 1];
      TraceFronts(code, lens, db, p);
      forall i | 0 <= i < n - 1 ensures FrontOk(code, lens, fronts, i) { assert FrontOk(code, lens, p, i); }
    }
  }

  /** A trace is the beginning of the run, without conflicts. */
  lemma {:induction false} TraceSays(code: Code, lens: seq<nat>, db: DB, fronts: seq<DB>, n: nat)
    requires code.Ok() && Trace(code, lens, db, fronts) && n == |fronts| - 1
    ensures Smooth(code, db, n) && fronts[n] == code.Run(db, n)
    decreases |fronts|
  {
    TraceFronts(code, lens, db, fronts);
    FrontIsRun(code, lens, fronts, n);
    hide Code.Ok, Code.Step, Code.AnyConflict, FrontsOk, Within;
    if n > 0 { TraceSays(code, lens, db, fronts[..n], n - 1); }
  }

  lemma TraceBound(code: Code, lens: seq<nat>, db: DB, fronts: seq<DB>)
    requires code.Ok() && Trace(code, lens, db, fronts) && Distinct(fronts)
    ensures |fronts| <= Pow2(|Ground(code.dom, lens)|)
  {
    TraceFronts(code, lens, db, fronts);
    forall i | 0 <= i < |fronts| ensures Within(code.dom, lens, fronts[i]) { assert FrontOk(code, lens, fronts, i); }
    DistinctBound(code.dom, lens, fronts);
  }

  /** The database has occurred before step n. */
  ghost predicate Repeats(code: Code, db: DB, n: nat, d: DB)
    requires code.Ok()
  {
    exists i: nat :: i < n && code.Run(db, i) == d
  }

  /** The databases of the run up to the n-th differ from each other. */
  ghost predicate NoRepeat(code: Code, db: DB, n: nat)
    requires code.Ok()
  {
    forall i: nat, j: nat :: i < j <= n ==> code.Run(db, i) != code.Run(db, j)
  }

  lemma TraceDistinct(code: Code, lens: seq<nat>, db: DB, fronts: seq<DB>)
    requires code.Ok() && Trace(code, lens, db, fronts) && Distinct(fronts)
    ensures |fronts| > 0 && NoRepeat(code, db, |fronts| - 1)
  {
    TraceFronts(code, lens, db, fronts);
    var n := |fronts| - 1;
    forall i: nat | i <= n ensures code.Run(db, i) == fronts[i] { FrontIsRun(code, lens, fronts, i); }
  }

  /** A repeated front is a repetition in the run. */
  lemma TraceRepeats(code: Code, lens: seq<nat>, db: DB, fronts: seq<DB>, d: DB)
    requires code.Ok() && Trace(code, lens, db, fronts) && d in fronts
    ensures Repeats(code, db, |fronts|, d)
  {
    TraceFronts(code, lens, db, fronts);
    var i: nat :| i < |fronts| && fronts[i] == d;
    FrontIsRun(code, lens, fronts, i);
  }

  /** The position of the last front's previous occurrence, or -1. */
  method CycleStart(fronts: seq<DB>) returns (s: int)
    ensures s == -1 ==> |fronts| < 2 || fronts[|fronts| - 1] !in fronts[..|fronts| - 1]
    ensures s != -1 ==> 0 <= s < |fronts| - 1 && fronts[s] == fronts[|fronts| - 1]
  {
    if |fronts| < 2 { return -1; }
    s := |fronts| - 2;
    while s >= 0 && fronts[s] != fronts[|fronts| - 1]
      invariant -1 <= s <= |fronts| - 2 && fronts[|fronts| - 1] !in fronts[s + 1..|fronts| - 1]
    {
      s := s - 1;
    }
  }

  function Meet(univ: set<Tuple>, s: seq<set<Tuple>>): set<Tuple> {
    set u | u in univ && forall i :: 0 <= i < |s| ==> u in s[i]
  }

  /** The three readings of a table's facts in the infinite run. */
  ghost predicate Reading(code: Code, lens: seq<nat>, db: DB, tab: nat, t: set<Tuple>, f: set<Tuple>, u: set<Tuple>)
    requires code.Ok() && tab < |lens|
  {
    && u <= Vals(code.dom, lens[tab])
    && forall x :: x in Vals(code.dom, lens[tab]) ==> ReadAt(code, db, tab, t, f, u, x)
  }

  ghost predicate ReadAt(code: Code, db: DB, tab: nat, t: set<Tuple>, f: set<Tuple>, u: set<Tuple>, x: Tuple)
    requires code.Ok()
  {
    && (x in t <==> Always(code, db, tab, x))
    && (x in f <==> NeverAgain(code, db, tab, x))
    && (x in u <==> Flips(code, db, tab, x))
  }

  /** What a table goes through after the given front. */
  function CycleOf(fronts: seq<DB>, tab: nat, s: nat): (cycle: seq<set<Tuple>>)
    requires s < |fronts|
    ensures |cycle| == |fronts| - 1 - s
  {
    seq(|fronts| - 1 - s, i requires 0 <= i < |fronts| - 1 - s => Contents(fronts[s + 1 + i], tab))
  }

  /** The fact has the same value throughout. */
  ghost predicate Constant(cycle: seq<set<Tuple>>, u: Tuple, b: bool) {
    forall i :: 0 <= i < |cycle| ==> (u in cycle[i]) == b
  }

  lemma CycleFacts(code: Code, lens: seq<nat>, fronts: seq<DB>, tab: nat, s: nat, cycle: seq<set<Tuple>>, u: Tuple,
        b: bool)
    requires code.Ok() && FrontsOk(code, lens, fronts) && s < |fronts| && cycle == CycleOf(fronts, tab, s)
    ensures Constant(cycle, u, b) <==> forall i: nat :: s < i <= |fronts| - 1 ==> Fact(code, fronts[0], tab, u, i) == b
  {
    hide FrontsOk, Code.Run, Code.Step;
    if Constant(cycle, u, b) {
      forall i: nat | s < i <= |fronts| - 1 ensures Fact(code, fronts[0], tab, u, i) == b {
        FrontIsRun(code, lens, fronts, i);
        assert cycle[i - s - 1] == Contents(fronts[i], tab);
      }
    }
    if forall i: nat :: s < i <= |fronts| - 1 ==> Fact(code, fronts[0], tab, u, i) == b {
      forall i | 0 <= i < |cycle| ensures (u in cycle[i]) == b {
        FrontIsRun(code, lens, fronts, s + 1 + i);
        assert Fact(code, fronts[0], tab, u, s + 1 + i) == b;
      }
    }
  }

  lemma FactRead(code: Code, lens: seq<nat>, fronts: seq<DB>, tab: nat, s: nat, cycle: seq<set<Tuple>>, x: Tuple)
    requires code.Ok() && FrontsOk(code, lens, fronts) && tab < |lens|
    requires s < |fronts| - 1 && fronts[s] == fronts[|fronts| - 1] && cycle == CycleOf(fronts, tab, s)
    ensures Constant(cycle, x, true) <==> Always(code, fronts[0], tab, x)
    ensures Constant(cycle, x, false) <==> NeverAgain(code, fronts[0], tab, x)
    ensures Flips(code, fronts[0], tab, x) <==> !Always(code, fronts[0], tab, x) && !NeverAgain(code, fronts[0], tab, x)
  {
    hide Constant, Always, NeverAgain, Flips, Fact;
    FrontIsRun(code, lens, fronts, s); FrontIsRun(code, lens, fronts, |fronts| - 1);
    CycleFacts(code, lens, fronts, tab, s, cycle, x, true);
    CycleFacts(code, lens, fronts, tab, s, cycle, x, false);
    CycleMeans(code, fronts[0], s, |fronts| - 1, tab, x);
  }

  lemma CycleRead(code: Code, lens: seq<nat>, fronts: seq<DB>, tab: nat, s: nat, univ: set<Tuple>,
        cycle: seq<set<Tuple>>, t: set<Tuple>, f: set<Tuple>)
    requires code.Ok() && FrontsOk(code, lens, fronts) && tab < |lens| && univ == Vals(code.dom, lens[tab])
    requires s < |fronts| - 1 && fronts[s] == fronts[|fronts| - 1] && cycle == CycleOf(fronts, tab, s)
    requires t == Meet(univ, cycle) && f == univ - Union(cycle)
    ensures Reading(code, lens, fronts[0], tab, t, f, univ - (t + f))
  {
    forall x | x in univ ensures ReadAt(code, fronts[0], tab, t, f, univ - (t + f), x) {
      FactRead(code, lens, fronts, tab, s, cycle, x);
      UnionIn(cycle, x);
    }
  }

  /** No visible fact keeps flipping. */
  ghost predicate Settles(code: Code, db: DB, hidden: seq<bool>)
    requires code.Ok()
  {
    forall tab, u :: 0 <= tab < |hidden| && !hidden[tab] ==> !Flips(code, db, tab, u)
  }

  /** Only ground tuples can flip. */
  lemma FlipsWithin(code: Code, lens: seq<nat>, fronts: seq<DB>, tab: nat, s: nat, u: Tuple)
    requires code.Ok() && FrontsOk(code, lens, fronts) && tab < |lens| && s < |fronts| - 1
    requires fronts[s] == fronts[|fronts| - 1]
    requires Flips(code, fronts[0], tab, u)
    ensures u in Vals(code.dom, lens[tab])
  {
    var cycle := CycleOf(fronts, tab, s);
    FactRead(code, lens, fronts, tab, s, cycle, u);
    var i :| 0 <= i < |cycle| && u in cycle[i];
    var d := fronts[s + 1 + i];
    assert FrontOk(code, lens, fronts, s + 1 + i) && cycle[i] == Contents(d, tab);
    assert u in d[tab];
  }

  /** A flipping fact is among the undefined ones. */
  lemma FlipsRead(code: Code, lens: seq<nat>, fronts: seq<DB>, tab: nat, s: nat, t: set<Tuple>, f: set<Tuple>,
        undef: set<Tuple>)
    requires code.Ok() && FrontsOk(code, lens, fronts) && tab < |lens| && s < |fronts| - 1
    requires fronts[s] == fronts[|fronts| - 1]
    requires Reading(code, lens, fronts[0], tab, t, f, undef)
    ensures forall u :: Flips(code, fronts[0], tab, u) <==> u in undef
  {
    forall u | Flips(code, fronts[0], tab, u) ensures u in undef {
      FlipsWithin(code, lens, fronts, tab, s, u);
      assert ReadAt(code, fronts[0], tab, t, f, undef, u);
    }
    forall u | u in undef ensures Flips(code, fronts[0], tab, u) {
      assert ReadAt(code, fronts[0], tab, t, f, undef, u);
    }
  }

  /** How a run ends: with a fixed point, not yet, with visible facts that never settle, or with a conflict. */
  datatype Outcome = Fixpoint | Unfinished | Infloop | Contradiction

  class Tables {
    const code: Code
    const lens: seq<nat>
    const hidden: seq<bool>
    var datalog: bool
    var unsat: bool
    var nstep: nat
    var tbls: seq<Table>
    var bodyCache: seq<BodyCache>
    var order: seq<seq<nat>>
    var altCache: seq<AltCache>
    var ruleCache: seq<RuleCache>
    var fronts: seq<DB>

    /** Compiles the rules and loads the facts. */
    constructor (dom: nat, rs: seq<Rule>, lens': seq<nat>, hidden': seq<bool>, db: DB)
      requires dom > 0 && Within(dom, lens', db) && |hidden'| == |lens'|
      requires forall i :: 0 <= i < |rs| ==>
        HeadOk(dom, rs[i]) && rs[i].head.tab < |lens'| && |rs[i].head.args| == lens'[rs[i].head.tab]
      ensures Valid() && Facts() == db && !unsat && fronts == [] && lens == lens' && hidden == hidden'
      ensures code.dom == dom && ProgramMeans(dom, rs, code.rules, code.alts, code.bodies)
    {
      var ds, alts, bodies := GetRules(dom, rs);
      code := Code(dom, ds, alts, bodies);
      lens, hidden := lens', hidden';
      datalog := forall i :: 0 <= i < |rs| ==> !rs[i].head.neg;
      unsat, nstep, fronts := false, 0, [];
      tbls := seq(|db|, i requires 0 <= i < |db| => Table(db[i], [], [], false));
      bodyCache := seq(|bodies|, _ => BodyCache(None, {}));
      order := seq(|alts|, i requires 0 <= i < |alts| => alts[i].bodies);
      altCache := seq(|alts|, _ => AltCache(multiset{}, {}));
      ruleCache := seq(|ds|, _ => RuleCache([], {}));
      new;
      hide AltOk, BodyOk, AltCacheOk;
      forall r | r in code.rules ensures RuleOk(r, code.alts, code.bodies) && (datalog ==> !r.neg) {
        var i :| 0 <= i < |code.rules| && code.rules[i] == r;
        assert RuleMeans(dom, rs[i], ds[i], alts, bodies);
      }
      assert Facts() == db;
    }

    function Facts(): DB
      reads this`tbls
    {
      FactsOf(tbls)
    }

    ghost predicate Static()
      reads this`datalog, this`tbls, this`bodyCache, this`order, this`altCache, this`ruleCache
    {
      && code.Ok()
      && (forall i :: 0 <= i < |code.alts| ==> AltOk(code.alts[i], code.bodies))
      && (forall i :: 0 <= i < |code.bodies| ==> BodyOk(code.bodies[i], code.bodies[i].len))
      && |bodyCache| == |code.bodies| && |order| == |altCache| == |code.alts| && |ruleCache| == |code.rules|
      && (datalog ==> forall r :: r in code.rules ==> !r.neg)
      && TabsOk(code, |tbls|) && |lens| == |hidden| == |tbls|
      && (forall i :: 0 <= i < |code.rules| ==> code.rules[i].eq <= Vals(code.dom, lens[code.rules[i].tab]))
    }

    /** Every cache entry is the result for the argument it was recorded with. */
    ghost predicate CachesOk()
      requires Static()
      reads this`datalog, this`tbls, this`bodyCache, this`order, this`altCache, this`ruleCache
    {
      && (forall i :: 0 <= i < |bodyCache| ==> BodyCacheOk(code.dom, code.bodies[i], bodyCache[i]))
      && (forall i :: 0 <= i < |order| ==> multiset(order[i]) == multiset(code.alts[i].bodies))
      && (forall i :: 0 <= i < |altCache| ==> AltCacheOk(code.dom, code.alts[i], altCache[i]))
      && (forall i :: 0 <= i < |ruleCache| ==> RuleCacheOk(code.rules[i], ruleCache[i]))
    }

    ghost predicate Sound()
      reads this`datalog, this`tbls, this`bodyCache, this`order, this`altCache, this`ruleCache
    {
      Static() && CachesOk()
    }

    /** Evaluates a body literal, reusing the last result while its table has not changed. */
    method BodyQuery(k: nat) returns (r: set<Tuple>)
      requires Sound() && k < |code.bodies|
      modifies `bodyCache
      ensures Sound()
      ensures r == BodyRel(code.dom, code.bodies[k], Contents(Facts(), code.bodies[k].tab))
    {
      var b := code.bodies[k];
      var t := if b.tab < |tbls| then tbls[b.tab].t else {};
      if bodyCache[k].tlast == Some(t) { return bodyCache[k].rlast; }
      r := BodyRel(code.dom, b, t);
      bodyCache := bodyCache[k := BodyCache(Some(t), r)];
    }

    /** Evaluates an alternative, reusing the last result while its conjuncts have not changed. */
    method AltQuery(k: nat) returns (r: set<Tuple>)
      requires Sound() && k < |code.alts|
      modifies `bodyCache, `order, `altCache
      ensures Sound()
      ensures r == AltRel(code.dom, code.alts[k], code.bodies, Facts())
    {
      var v1 := Conjuncts(k);
      if v1.None? { return {}; }
      var ms := multiset(v1.value);
      if ms == altCache[k].last { return altCache[k].rlast; }
      r := Joined(code.dom, code.alts[k], ms);
      altCache := altCache[k := AltCache(ms, r)];
    }

    /** The conjuncts of an alternative. A body literal without solutions ends the evaluation and is moved to the
        front. */
    method Conjuncts(k: nat) returns (v1: Option<seq<set<Tuple>>>)
      requires Sound() && k < |code.alts|
      modifies `bodyCache, `order
      ensures Sound()
      ensures v1.None? ==> AltRel(code.dom, code.alts[k], code.bodies, Facts()) == {}
      ensures v1.Some? ==> multiset(v1.value) != multiset{}
      ensures v1.Some? ==>
        Joined(code.dom, code.alts[k], multiset(v1.value)) == AltRel(code.dom, code.alts[k], code.bodies, Facts())
    {
      RefsOk(k);
      hide AltRel, AltVals, BodyOk, AltOk, Joined, BodyRel, BodyCacheOk, AltCacheOk, RuleCacheOk, RuleOk;
      var refs := order[k];
      var v := [code.alts[k].rng, code.alts[k].eq];
      for n := 0 to |refs|
        invariant Sound() && order == old(order) && InRange(refs)
        invariant v == [code.alts[k].rng, code.alts[k].eq] + Results(refs, n, Facts())
      {
        assert refs[n] in refs;
        var x := BodyQuery(refs[n]);
        if x == {} {
          EmptyConjunct(k, refs, n, Facts());
          MoveFirst(k, n);
          return None;
        }
        v := v + [x];
      }
      ConjunctsMean(k, refs, Facts(), v);
      return Some(v);
    }

    method MoveFirst(k: nat, n: nat)
      requires Sound() && k < |code.alts| && n < |order[k]|
      modifies `order
      ensures Sound()
    {
      var refs := order[k];
      Reordered(refs, n);
      order := order[k := [refs[n]] + refs[..n] + refs[n + 1..]];
    }

    ghost predicate InRange(refs: seq<nat>) {
      forall r :: r in refs ==> r < |code.bodies| && BodyOk(code.bodies[r], code.bodies[r].len)
    }

    ghost function Results(refs: seq<nat>, n: nat, db: DB): seq<set<Tuple>>
      requires InRange(refs) && n <= |refs|
    {
      seq(n, i requires 0 <= i < n => assert refs[i] in refs;
        BodyRel(code.dom, code.bodies[refs[i]], Contents(db, code.bodies[refs[i]].tab)))
    }

    lemma RefsOk(k: nat)
      requires Sound() && k < |code.alts|
      ensures InRange(order[k]) && forall r :: r in order[k] <==> r in code.alts[k].bodies
    {
      assert AltOk(code.alts[k], code.bodies);
      forall r ensures r in order[k] <==> r in code.alts[k].bodies {
        assert r in order[k] <==> r in multiset(order[k]);
        assert r in code.alts[k].bodies <==> r in multiset(code.alts[k].bodies);
      }
    }

    lemma Reordered(refs: seq<nat>, n: nat)
      requires n < |refs|
      ensures multiset([refs[n]] + refs[..n] + refs[n + 1..]) == multiset(refs)
    {
      assert refs == refs[..n] + [refs[n]] + refs[n + 1..];
    }

    lemma EmptyConjunct(k: nat, refs: seq<nat>, n: nat, db: DB)
      requires Static() && k < |code.alts| && n < |refs| && InRange(refs) && refs[n] in code.alts[k].bodies
      requires BodyRel(code.dom, code.bodies[refs[n]], Contents(db, code.bodies[refs[n]].tab)) == {}
      ensures AltRel(code.dom, code.alts[k], code.bodies, db) == {}
    {
      var a, b := code.alts[k], code.bodies[refs[n]];
      forall v | v in AltVals(code.dom, a, code.bodies, db) ensures v in BodyRel(code.dom, b, Contents(db, b.tab)) {
        assert b.len == a.len;
      }
      assert AltVals(code.dom, a, code.bodies, db) == {};
    }

    lemma ConjunctsMean(k: nat, refs: seq<nat>, db: DB, s: seq<set<Tuple>>)
      requires Static() && k < |code.alts| && InRange(refs)
      requires forall r :: r in refs <==> r in code.alts[k].bodies
      requires s == [code.alts[k].rng, code.alts[k].eq] + Results(refs, |refs|, db)
      ensures Joined(code.dom, code.alts[k], multiset(s)) == AltRel(code.dom, code.alts[k], code.bodies, db)
      ensures multiset(s) != multiset{}
    {
      var a := code.alts[k];
      assert s[0] in multiset(s);
      forall v | v in Vals(code.dom, a.len)
        ensures (forall x :: x in multiset(s) ==> v in x) <==> v in AltVals(code.dom, a, code.bodies, db)
      {
        ValsExact(code.dom, a.len, v);
        InEach(s, v);
        ConjunctsAt(k, refs, db, s, v);
      }
      assert (set v | v in Vals(code.dom, a.len) && forall x :: x in multiset(s) ==> v in x) ==
        AltVals(code.dom, a, code.bodies, db);
    }

    lemma ConjunctsAt(k: nat, refs: seq<nat>, db: DB, s: seq<set<Tuple>>, v: Tuple)
      requires Static() && k < |code.alts| && InRange(refs)
      requires forall r :: r in refs <==> r in code.alts[k].bodies
      requires s == [code.alts[k].rng, code.alts[k].eq] + Results(refs, |refs|, db)
      requires v in Vals(code.dom, code.alts[k].len) && |v| == code.alts[k].len
      ensures (forall i :: 0 <= i < |s| ==> v in s[i]) <==> v in AltVals(code.dom, code.alts[k], code.bodies, db)
    {
      var a := code.alts[k];
      assert s[0] == a.rng && s[1] == a.eq;
      forall i | 0 <= i < |refs|
        ensures refs[i] in refs
        ensures v in s[i + 2] <==> BodyHolds(code.bodies[refs[i]], v, Contents(db, code.bodies[refs[i]].tab))
      {
        assert refs[i] in refs && refs[i] in a.bodies;
        assert s[i + 2] == Results(refs, |refs|, db)[i];
      }
      if forall i :: 0 <= i < |s| ==> v in s[i] {
        forall r | r in a.bodies ensures BodyHolds(code.bodies[r], v, Contents(db, code.bodies[r].tab)) {
          var i :| 0 <= i < |refs| && refs[i] == r;
          assert v in s[i + 2];
        }
      }
      if v in AltVals(code.dom, a, code.bodies, db) {
        forall i | 0 <= i < |s| ensures v in s[i] {
          if i >= 2 { assert refs[i - 2] in refs && v in s[(i - 2) + 2]; }
        }
      }
    }

    // ----- one step

    ghost predicate Collected(n: nat)
      reads this`datalog, this`tbls, this`bodyCache, this`order, this`altCache, this`ruleCache
    {
      && Sound() && n <= |code.rules|
      && AllPushed(code, datalog, tbls, n, Facts()) && AllAbsorbed(code, datalog, tbls, ruleCache, -1)
    }

    method AltAt(i: nat, n: nat) returns (x: set<Tuple>)
      requires Sound() && i < |code.rules| && n < |code.rules[i].alts|
      modifies `bodyCache, `order, `altCache
      ensures Sound() && AltResult(code, i, n, x, Facts())
    {
      var r := code.rules[i];
      assert r in code.rules && r.alts[n] in r.alts;
      x := AltQuery(r.alts[n]);
    }

    /** The results of a rule's alternatives. */
    method AltResults(i: nat) returns (v: seq<set<Tuple>>)
      requires Sound() && i < |code.rules|
      modifies `bodyCache, `order, `altCache
      ensures Sound() && |v| == |code.rules[i].alts| && Union(v) * code.rules[i].eq == code.Rel(i, Facts())
    {
      ghost var db := Facts();
      v := [];
      for n := 0 to |code.rules[i].alts|
        invariant Sound() && |v| == n && SomeResults(code, i, v, db)
      {
        var x := AltAt(i, n);
        SomeResultsPush(code, i, v, x, db);
        v := v + [x];
      }
      RuleJoined(code, i, v, db);
    }

    /** Evaluates one rule and pushes its result. */
    method FwdRule(i: nat)
      requires i < |code.rules| && Collected(i)
      modifies `bodyCache, `order, `altCache, `ruleCache, `tbls
      ensures Facts() == old(Facts()) && Collected(i + 1) && |tbls| == |old(tbls)|
    {
      assert code.rules[i] in code.rules;
      var v := AltResults(i);
      var x;
      if v == ruleCache[i].last {
        x := ruleCache[i].rlast;
        if datalog {
          SkipDone(code, datalog, tbls, ruleCache, i, Facts());
          return;
        }
      } else {
        x := Union(v) * code.rules[i].eq;
        ruleCache := ruleCache[i := RuleCache(v, x)];
      }
      Push(i, x);
    }

    method Push(i: nat, x: set<Tuple>)
      requires Sound() && i < |code.rules| && x == code.Rel(i, Facts()) && ruleCache[i].rlast == x
      requires AllPushed(code, datalog, tbls, i, Facts()) && AllAbsorbed(code, datalog, tbls, ruleCache, i)
      modifies `tbls
      ensures Facts() == old(Facts()) && Collected(i + 1) && |tbls| == |old(tbls)|
    {
      ghost var db := Facts();
      var r := code.rules[i];
      assert r in code.rules;
      PushDone(code, datalog, tbls, ruleCache, i, x, db);
      PushFacts(tbls, r.tab, r.neg, x);
      Install(tbls[r.tab := PushTo(tbls[r.tab], r.neg, x)]);
    }

    /** Caches do not depend on what is waiting in the tables. */
    method Install(ts: seq<Table>)
      requires Sound() && |ts| == |tbls|
      modifies `tbls
      ensures Sound() && tbls == ts
    {
      tbls := ts;
    }

    /** Applies the additions and deletions of a step to a table. */
    method Commit(tab: nat, ghost db: DB) returns (changed: bool)
      requires Static() && tab < |tbls| == |db| && Pushed(code, datalog, tbls[tab], |code.rules|, db, tab)
      modifies `tbls
      ensures |tbls| == |old(tbls)| && forall i :: 0 <= i < |tbls| && i != tab ==> tbls[i] == old(tbls)[i]
      ensures code.Conflict(tab, db) ==> changed && tbls[tab].unsat && tbls[tab].t == db[tab]
      ensures !code.Conflict(tab, db) ==>
        tbls[tab] == old(tbls)[tab].(t := code.Next(tab, db), add := [], del := []) &&
          (changed <==> code.Next(tab, db) != db[tab])
    {
      var b := tbls[tab];
      CommitMeans(code, datalog, b, db, tab);
      if b.add == [] && b.del == [] { return false; }
      var x;
      if b.add == [] {
        x := b.t - Union(b.del);
      } else if b.del == [] {
        UnionPush(b.add, b.t);
        x := Union(b.add + [b.t]);
      } else {
        var a, d := Union(b.add), Union(b.del);
        if a - d == {} {
          tbls := tbls[tab := b.(add := [], del := [], unsat := true)];
          return true;
        }
        x := (b.t + a) - d;
      }
      changed := x != b.t;
      tbls := tbls[tab := b.(t := x, add := [], del := [])];
    }

    /** Between steps: caches hold and nothing is waiting to be committed. */
    ghost predicate Valid()
      reads this`datalog, this`tbls, this`bodyCache, this`order, this`altCache, this`ruleCache
    {
      && Sound() && AllAbsorbed(code, datalog, tbls, ruleCache, -1) && Within(code.dom, lens, Facts())
      && forall tab :: 0 <= tab < |tbls| ==> Clean(tbls[tab])
    }

    /** One step. Without a conflict it takes the database to the next one and says whether anything changed. */
    method Fwd() returns (b: bool)
      requires Valid()
      modifies `bodyCache, `order, `altCache, `ruleCache, `tbls, `unsat
      ensures code.Ok() && |tbls| == |old(tbls)|
      ensures !code.AnyConflict(old(Facts())) ==>
        && Valid() && unsat == old(unsat) && Facts() == code.Step(old(Facts())) && (b <==> Facts() != old(Facts()))
        && Within(code.dom, lens, Facts())
      ensures code.AnyConflict(old(Facts())) ==> b && unsat
    {
      ghost var db := Facts();
      for i := 0 to |code.rules|
        invariant Collected(i) && Facts() == db && |tbls| == |old(tbls)| && unsat == old(unsat)
      {
        FwdRule(i);
      }
      b := CommitAll(db);
    }

    method CommitAll(ghost db: DB) returns (b: bool)
      requires Collected(|code.rules|) && Facts() == db && Within(code.dom, lens, db)
      modifies `tbls, `unsat
      ensures |tbls| == |old(tbls)|
      ensures !code.AnyConflict(db) ==>
        Valid() && unsat == old(unsat) && Facts() == code.Step(db) && (b <==> Facts() != db)
      ensures code.AnyConflict(db) ==> b && unsat
    {
      b := false;
      ghost var ts := tbls;
      hide RuleOk, Within, Union, Code.Next, Code.Conflict, Code.Step, Code.Total;
      for tab := 0 to |tbls|
        invariant |tbls| == |ts| == |db| && Static() && unsat == old(unsat)
        invariant AllPushed(code, datalog, ts, |code.rules|, db)
        invariant Committed(code, ts, tbls, db, tab)
        invariant b <==> SomeChange(code, db, tab)
      {
        assert Pushed(code, datalog, ts[tab], |code.rules|, db, tab);
        var changed := Commit(tab, db);
        b := b || changed;
        if tbls[tab].unsat {
          unsat := true;
          return true;
        }
      }
      CommitDone(code, datalog, lens, ts, tbls, db, ruleCache);
    }

    // ----- runs

    /** Reads the final cycle: facts that hold for ever, facts that never hold again, and the rest. */
    method ComputeFixpoint()
      returns (ok: bool, trues: seq<set<Tuple>>, falses: seq<set<Tuple>>, undefs: seq<set<Tuple>>)
      requires code.Ok() && FrontsOk(code, lens, fronts)
      ensures ok <==> |fronts| >= 2 && fronts[|fronts| - 1] in fronts[..|fronts| - 1]
      ensures ok ==> |trues| == |falses| == |undefs| == |lens|
      ensures ok ==> forall tab :: 0 <= tab < |lens| ==>
        Reading(code, lens, fronts[0], tab, trues[tab], falses[tab], undefs[tab])
    {
      var s := CycleStart(fronts);
      trues, falses, undefs := [], [], [];
      if s == -1 { return false, trues, falses, undefs; }
      for n := 0 to |lens|
        invariant |trues| == |falses| == |undefs| == n
        invariant forall tab :: 0 <= tab < n ==>
          Reading(code, lens, fronts[0], tab, trues[tab], falses[tab], undefs[tab])
      {
        var cycle := CycleOf(fronts, n, s);
        var univ := Vals(code.dom, lens[n]);
        var t, f := Meet(univ, cycle), univ - Union(cycle);
        CycleRead(code, lens, fronts, n, s, univ, cycle, t, f);
        trues, falses, undefs := trues + [t], falses + [f], undefs + [univ - (t + f)];
      }
      assert fronts[s] in fronts[..|fronts| - 1];
      ok := true;
    }

    /** Does some visible fact keep flipping? */
    method IsInfloop(ghost db: DB) returns (r: bool)
      requires code.Ok() && Trace(code, lens, db, fronts) && |lens| == |hidden|
      requires |fronts| >= 2 && fronts[|fronts| - 1] in fronts[..|fronts| - 1]
      ensures r <==> !Settles(code, db, hidden)
    {
      TraceFronts(code, lens, db, fronts);
      var ok, trues, falses, undefs := ComputeFixpoint();
      ghost var s :| 0 <= s < |fronts| - 1 && fronts[s] == fronts[|fronts| - 1];
      for n := 0 to |undefs|
        invariant forall tab, u :: 0 <= tab < n && !hidden[tab] ==> !Flips(code, fronts[0], tab, u)
      {
        FlipsRead(code, lens, fronts, n, s, trues[n], falses[n], undefs[n]);
        if !hidden[n] && undefs[n] != {} { return true; }
      }
      r := false;
    }

    ghost predicate Running(db: DB)
      reads this
    {
      Valid() && code.Ok() && |lens| == |hidden| && !unsat && |fronts| == nstep + 1 &&
        Trace(code, lens, db, fronts) && fronts[nstep] == Facts()
    }

    /** One step of the run and its front. */
    method Advance(ghost db: DB) returns (changed: bool)
      requires Running(db)
      modifies this
      ensures code.Ok() && nstep == old(nstep) + 1
      ensures unsat <==> code.AnyConflict(old(fronts)[old(nstep)])
      ensures !unsat ==>
        Running(db) && fronts[..nstep] == old(fronts) && (changed <==> fronts[nstep] != fronts[nstep - 1])
    {
      hide Valid, Trace, Code.AnyConflict, Code.Step;
      nstep := nstep + 1;
      changed := Fwd();
      var l := Facts();
      if !unsat { TraceStep(code, lens, db, fronts, l); }
      assert (fronts + [l])[..nstep] == fronts;
      fronts := fronts + [l];
    }

    /** A limit of 0 is none. */
    static predicate WithinLimit(limit: nat, n: nat) {
      limit > 0 ==> n <= limit
    }

    /** One turn of the loop. When it is the last, the outcome says why. */
    method Turn(nsteps: nat, breakOn: nat, ghost db: DB) returns (done: bool, r: Outcome)
      requires Running(db)
      modifies this
      ensures code.Ok() && nstep == old(nstep) + 1 && (done || !unsat)
      ensures !unsat ==> Running(db) && fronts == old(fronts) + [Facts()]
      ensures !done ==> Facts() !in old(fronts)
      ensures done ==> unsat == r.Contradiction? && (unsat <==> code.AnyConflict(old(fronts)[old(nstep)]))
      ensures done && !unsat ==> (r.Unfinished? <==> nstep == breakOn || nstep == nsteps)
      ensures !done ==> nstep != breakOn && nstep != nsteps
      ensures done && (r.Fixpoint? || r.Infloop?) ==>
        Facts() in old(fronts) && (r.Fixpoint? <==> Settles(code, db, hidden))
    {
      hide Valid, Trace, Settles, Code.AnyConflict, FactsOf;
      ghost var before := fronts;
      var changed := Advance(db);
      if unsat { return true, Contradiction; }
      assert fronts == before + [fronts[nstep]];
      if (breakOn != 0 && nstep == breakOn) || (nsteps != 0 && nstep == nsteps) { return true, Unfinished; }
      if !changed || fronts[nstep] in fronts[..nstep] {
        assert before[nstep - 1] == fronts[nstep - 1];
        var loops := IsInfloop(db);
        return true, if loops then Infloop else Fixpoint;
      }
      return false, Unfinished;
    }

    /** The loop of a run. before is the conflict-free part of the run that precedes the last step. */
    method Loop(nsteps: nat, breakOn: nat, ghost db: DB) returns (r: Outcome, ghost before: seq<DB>)
      requires Running(db) && nstep == 0
      modifies this
      ensures code.Ok() && unsat == r.Contradiction? && |before| == nstep <= Pow2(|Ground(code.dom, lens)|)
      ensures Trace(code, lens, db, before) && (r.Contradiction? <==> code.AnyConflict(before[nstep - 1]))
      ensures !r.Contradiction? ==> Running(db)
      ensures Distinct(before) && WithinLimit(nsteps, nstep) && WithinLimit(breakOn, nstep)
      ensures r.Unfinished? <==> !r.Contradiction? && (nstep == breakOn || nstep == nsteps)
      ensures r.Fixpoint? || r.Infloop? ==> Facts() in before && (r.Fixpoint? <==> Settles(code, db, hidden))
    {
      hide Valid, Trace, Settles, Code.AnyConflict, FactsOf;
      var done := false;
      while true
        invariant Running(db) && Distinct(fronts)
        invariant (nsteps > 0 ==> nstep < nsteps) && (breakOn > 0 ==> nstep < breakOn)
        decreases Pow2(|Ground(code.dom, lens)|) - nstep
      {
        TraceBound(code, lens, db, fronts);
        before := fronts;
        done, r := Turn(nsteps, breakOn, db);
        if done { return r, before; }
        StillDistinct(before, Facts());
      }
    }

    lemma StillDistinct(s: seq<DB>, d: DB)
      requires Distinct(s) && d !in s
      ensures Distinct(s + [d])
    {
    }

    lemma ValidSays()
      requires Valid()
      ensures code.Ok() && |lens| == |hidden| && Within(code.dom, lens, Facts())
    {
    }

    /** What the recorded part of a run says about it. */
    lemma BeforeSays(db: DB, before: seq<DB>)
      requires code.Ok() && |before| == nstep && Trace(code, lens, db, before) && (!unsat ==> Running(db))
      requires Distinct(before)
      ensures NoRepeat(code, db, nstep - 1)
      ensures nstep > 0 && Smooth(code, db, nstep - 1) && before[nstep - 1] == code.Run(db, nstep - 1)
      ensures !unsat ==> Facts() == code.Run(db, nstep)
      ensures Facts() in before ==> Repeats(code, db, nstep, Facts())
    {
      assert nstep > 0;
      hide Valid, Within, Trace, Smooth, Settles, Repeats, NoRepeat, Code.Ok, Code.Run, Code.AnyConflict, FactsOf;
      TraceSays(code, lens, db, before, nstep - 1);
      if !unsat { TraceSays(code, lens, db, fronts, nstep); }
      if Facts() in before { TraceRepeats(code, lens, db, before, Facts()); }
      TraceDistinct(code, lens, db, before);
    }

    /** The run from its first front on. */
    method RunOn(nsteps: nat, breakOn: nat, ghost db: DB) returns (r: Outcome)
      requires Running(db) && nstep == 0
      modifies this
      ensures code.Ok() && unsat == r.Contradiction? && 1 <= nstep <= Pow2(|Ground(code.dom, lens)|)
      ensures Smooth(code, db, nstep - 1) && (r.Contradiction? <==> code.AnyConflict(code.Run(db, nstep - 1)))
      ensures !r.Contradiction? ==> Facts() == code.Run(db, nstep)
      ensures WithinLimit(nsteps, nstep) && WithinLimit(breakOn, nstep)
      ensures r.Unfinished? <==> !r.Contradiction? && (nstep == breakOn || nstep == nsteps)
      ensures NoRepeat(code, db, nstep - 1)
      ensures r.Fixpoint? || r.Infloop? ==> Repeats(code, db, nstep, Facts())
      ensures r.Fixpoint? ==> Settles(code, db, hidden)
      ensures r.Infloop? ==> !Settles(code, db, hidden)
    {
      hide Valid, Within, Trace, Smooth, Settles, Repeats, NoRepeat, Code.Ok, Code.Run, Code.AnyConflict, FactsOf,
        Ground, Pow2, Running;
      ghost var before;
      r, before := Loop(nsteps, breakOn, db);
      BeforeSays(db, before);
    }

    /** Runs the program until a database repeats, a conflict occurs or a step limit is reached. A limit of 0 is
        none. */
    method Pfp(nsteps: nat, breakOn: nat) returns (r: Outcome)
      requires Valid() && fronts == [] && !unsat && nstep == 0
      modifies this
      ensures code.Ok() && unsat == r.Contradiction? && 1 <= nstep <= Pow2(|Ground(code.dom, lens)|)
      ensures Smooth(code, old(Facts()), nstep - 1)
      ensures r.Contradiction? <==> code.AnyConflict(code.Run(old(Facts()), nstep - 1))
      ensures !r.Contradiction? ==> Facts() == code.Run(old(Facts()), nstep)
      ensures WithinLimit(nsteps, nstep) && WithinLimit(breakOn, nstep)
      ensures r.Unfinished? <==> !r.Contradiction? && (nstep == breakOn || nstep == nsteps)
      ensures NoRepeat(code, old(Facts()), nstep - 1)
      ensures r.Fixpoint? || r.Infloop? ==> Repeats(code, old(Facts()), nstep, Facts())
      ensures r.Fixpoint? ==> Settles(code, old(Facts()), hidden)
      ensures r.Infloop? ==> !Settles(code, old(Facts()), hidden)
    {
      ValidSays();
      hide Valid, Within, Trace, Smooth, Settles, Repeats, NoRepeat, Code.Ok, Code.Run, Code.AnyConflict, FactsOf,
        Ground, Pow2;
      ghost var db := Facts();
      fronts := [Facts()];
      TraceStart(code, lens, db);
      r := RunOn(nsteps, breakOn, db);
    }
  }
}
