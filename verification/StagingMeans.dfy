/** The staged program simulates the program it was made from. */
module StagingMeans {
  import opened Formula
  import opened Inlining
  import opened Pdatalog
  import opened Levels
  import opened Staging
  import opened StagingRuns
  import C = Clock

  /** The staged program of a plan over a graph that places every relation. */
  ghost predicate Ready(out: seq<Rule>, p: Plan, nexts: map<Rel, nat>, dom: nat) {
    IsStaged(out, p, nexts) && PlanOk(p) && RulesOk(out, dom) && RulesOk(p.rs, dom) && 0 < |p.levels|
  }

  /** Inner relations hold what their outer relations hold, and auxiliary relations nothing. */
  ghost predicate Mirrored(p: Plan, d: Db) {
    forall u: Fact :: u.rel in Union(p.levels) ==> MirroredAt(p, d, u)
  }

  ghost predicate MirroredAt(p: Plan, d: Db, u: Fact) {
    u in d <==> u.rel.name in p.unfreeze && Fact(Outer(p, u.rel), u.args) in d
  }

  lemma BackMirrored(p: Plan, db: Db)
    requires PlanOk(p)
    ensures Mirrored(p, BackStep(p, db))
  {
    forall u: Fact | u.rel in Union(p.levels) ensures MirroredAt(p, BackStep(p, db), u) {
      if v :| Behind(p, v, u.rel) { OnlyBehind(p, v, u.rel); }
      if u.rel.name in p.unfreeze {
        var o := Fact(Outer(p, u.rel), u.args);
        assert Behind(p, u.rel, o.rel);
        OnlyBehind(p, u.rel, o.rel);
      }
    }
  }

  // ----- rules that mean the program

  /** Read in a solution, the rules of the plan derive for the inner relations what the program derives for the outer
      ones. */
  ghost predicate Preserves(p: Plan, prog: seq<Rule>, dom: nat) {
    forall d, e :: DbOk(d, dom) && Mirrored(p, d) && Solves(p, d, e, dom) ==> PreservesAt(p, prog, d, e, dom)
  }

  ghost predicate PreservesAt(p: Plan, prog: seq<Rule>, d: Db, e: Db, dom: nat) {
    forall u: Fact, neg: bool :: u.rel.name < p.base ==>
      (SomeSigned(prog, neg, d, dom, u) <==> Through(p, neg, e, dom, u))
  }

  ghost predicate Through(p: Plan, neg: bool, e: Db, dom: nat, u: Fact) {
    exists w :: Behind(p, w, u.rel) && SomeSigned(p.rs, neg, e, dom, Fact(w, u.args))
  }

  /** What is written back after a cycle is one step of the program. */
  lemma CycleMeans(p: Plan, g: Graph, prog: seq<Rule>, d: Db, e: Db, dom: nat)
    requires PlanOk(p) && Levelled(p, g) && AllRulesBelow(prog, p.base) && RulesOk(prog, dom)
    requires DbOk(d, dom) && Mirrored(p, d) && Solves(p, d, e, dom) && PreservesAt(p, prog, d, e, dom)
    ensures Part(BackStep(p, e), p.base) == TmlStep(prog, Part(d, p.base), dom)
  {
    var x := Part(d, p.base);
    assert Part(x, p.base) == x;
    forall u: Fact ensures u in Part(BackStep(p, e), p.base) <==> u in TmlStep(prog, x, dom) {
      InStep(prog, x, dom, u);
      SignedPart(prog, false, d, x, p.base, dom, u);
      SignedPart(prog, true, d, x, p.base, dom, u);
      DerivedOk(prog, false, x, dom, u, p.base);
      if u.rel.name < p.base { WrittenBack(p, prog, d, e, dom, u); }
    }
  }

  lemma WrittenBack(p: Plan, prog: seq<Rule>, d: Db, e: Db, dom: nat, u: Fact)
    requires PlanOk(p) && Mirrored(p, d) && Solves(p, d, e, dom) && PreservesAt(p, prog, d, e, dom)
    requires u.rel.name < p.base
    ensures u in BackStep(p, e) <==>
      (u in d || SomeSigned(prog, false, d, dom, u)) && !SomeSigned(prog, true, d, dom, u)
  {
    assert forall neg: bool :: SomeSigned(prog, neg, d, dom, u) <==> Through(p, neg, e, dom, u);
    hide SomeSigned, PreservesAt;
    if w :| Behind(p, w, u.rel) {
      OnlyBehind(p, w, u.rel);
      var v := Fact(w, u.args);
      assert MirroredAt(p, d, v);
      assert v in e <==> SolvedAt(p, d, e, dom, v);
      assert forall neg: bool :: Through(p, neg, e, dom, u) <==> SomeSigned(p.rs, neg, e, dom, v);
      assert Copied(p, e, u) <==> v in e;
    } else {
      assert u in e <==> SolvedAt(p, d, e, dom, u);
    }
  }

  // ----- whole runs

  lemma {:induction false} TmlRunAdd(rs: seq<Rule>, db: Db, dom: nat, n: nat, k: nat, m: nat)
    requires m == n + k
    ensures TmlRun(rs, db, dom, m) == TmlRun(rs, TmlRun(rs, db, dom, n), dom, k)
    decreases k
  {
    if k > 0 {
      TmlRunAdd(rs, db, dom, n, k - 1, m - 1);
      C.TmlRunStep(rs, db, dom, m - 1, m);
      C.TmlRunStep(rs, TmlRun(rs, db, dom, n), dom, k - 1, k);
    }
  }

  /** Steps needed for n cycles of the clock, counted from its first state. */
  function Span(p: Plan, n: nat): nat {
    if n == 0 then 0 else Span(p, n - 1) + |p.levels| + 1
  }

  /** One cycle: the relations become the one solution of the rules over what was written back. */
  lemma OneCycle(out: seq<Rule>, p: Plan, nexts: map<Rel, nat>, g: Graph, db: Db, dom: nat)
    requires Ready(out, p, nexts, dom) && Levelled(p, g) && DbOk(db, dom) && InState(p, db, 0)
    ensures var db' := TmlRun(out, db, dom, |p.levels| + 1);
      && InState(p, db', 0) && DbOk(db', dom)
      && Solves(p, BackStep(p, Part(db, p.name)), Part(db', p.name), dom)
  {
    Ascent(out, p, nexts, db, dom, |p.levels|, |p.levels| + 1);
    RaiseSolves(p, g, BackStep(p, Part(db, p.name)), dom);
  }

  /** What the outer relations hold once written back. */
  ghost function Written(p: Plan, db: Db): Db {
    Part(BackStep(p, Part(db, p.name)), p.base)
  }

  /** After n cycles, the clock is in its first state again and the outer relations, once written back, have made n
      steps of the program. */
  lemma {:induction false} Cycles(out: seq<Rule>, p: Plan, nexts: map<Rel, nat>, g: Graph, prog: seq<Rule>, db: Db,
        dom: nat, n: nat)
    requires Ready(out, p, nexts, dom) && Levelled(p, g) && AllRulesBelow(prog, p.base) && RulesOk(prog, dom)
    requires Preserves(p, prog, dom) && DbOk(db, dom) && InState(p, db, 0)
    ensures var db' := TmlRun(out, db, dom, Span(p, n));
      && InState(p, db', 0) && DbOk(db', dom)
      && Written(p, db') == TmlRun(prog, Written(p, db), dom, n)
  {
    hide Ready, Levelled, Preserves, InState, DbOk, BackStep, Part, TmlStep, RulesOk, AllRulesBelow;
    if n > 0 {
      Cycles(out, p, nexts, g, prog, db, dom, n - 1);
      var mid := TmlRun(out, db, dom, Span(p, n - 1));
      TmlRunAdd(out, db, dom, Span(p, n - 1), |p.levels| + 1, Span(p, n));
      OneCycle(out, p, nexts, g, mid, dom);
      OneStep(out, p, nexts, g, prog, mid, TmlRun(out, db, dom, Span(p, n)), dom);
      C.TmlRunStep(prog, Written(p, db), dom, n - 1, n);
    }
  }

  lemma OneStep(out: seq<Rule>, p: Plan, nexts: map<Rel, nat>, g: Graph, prog: seq<Rule>, mid: Db, end: Db, dom: nat)
    requires Ready(out, p, nexts, dom) && Levelled(p, g) && AllRulesBelow(prog, p.base) && RulesOk(prog, dom)
    requires Preserves(p, prog, dom) && DbOk(mid, dom)
    requires Solves(p, BackStep(p, Part(mid, p.name)), Part(end, p.name), dom)
    ensures Written(p, end) == TmlStep(prog, Written(p, mid), dom)
  {
    hide Levelled, TmlStep, RulesOk, AllRulesBelow, IsStaged, BackStep, Solves, Mirrored;
    var d := BackStep(p, Part(mid, p.name));
    PartOk(p, mid, dom);
    PartOk(p, Part(mid, p.name), dom);
    BackMirrored(p, Part(mid, p.name));
    CycleMeans(p, g, prog, d, Part(end, p.name), dom);
  }

  /** The state of the clock n steps after its first state. */
  function StateAt(p: Plan, n: nat): (s: nat)
    ensures s <= |p.levels|
  {
    if n == 0 then 0 else Next(p, StateAt(p, n - 1))
  }

  /** From the first state on, exactly one clock fact holds at every step, and they take turns. */
  lemma {:induction false} OneClock(out: seq<Rule>, p: Plan, nexts: map<Rel, nat>, db: Db, dom: nat, n: nat)
    requires Ready(out, p, nexts, dom) && InState(p, db, 0)
    ensures InState(p, TmlRun(out, db, dom, n), StateAt(p, n))
  {
    if n > 0 {
      OneClock(out, p, nexts, db, dom, n - 1);
      hide IsStaged, PlanOk, InState, RulesOk, TmlStep, Next;
      ClockMoves(out, p, nexts, TmlRun(out, db, dom, n - 1), dom, StateAt(p, n - 1));
    }
  }

  // ----- conflicts

  /** In the first state nothing conflicts, and in the state of a level only its own rules can. */
  lemma ConflictAt(out: seq<Rule>, p: Plan, nexts: map<Rel, nat>, db: Db, dom: nat, s: nat, rel: Rel)
    requires Ready(out, p, nexts, dom) && s <= |p.levels| && InState(p, db, s)
    ensures Conflict(out, db, dom, rel) <==> 0 < s && rel in p.levels[s - 1] && Conflict(p.rs, db, dom, rel)
  {
    if 0 < s && rel in p.levels[s - 1] {
      InUnion(p, s - 1, rel);
      forall u: Fact, neg: bool | u.rel == rel
        ensures SomeSigned(out, neg, db, dom, u) <==> SomeSigned(p.rs, neg, db, dom, u)
      {
        if FactOk(u, dom) {
          InnerSigned(out, p, nexts, db, dom, s - 1, u);
        } else {
          C.NotOk(out, neg, db, dom, u);
          C.NotOk(p.rs, neg, db, dom, u);
        }
      }
    } else if u: Fact :| u.rel == rel && SomeSigned(out, false, db, dom, u) {
      if !FactOk(u, dom) { C.NotOk(out, false, db, dom, u); }
      NoLoss(out, p, nexts, db, dom, s, u);
    }
  }

  /** What is added outside the running level is not removed. */
  lemma NoLoss(out: seq<Rule>, p: Plan, nexts: map<Rel, nat>, db: Db, dom: nat, s: nat, u: Fact)
    requires Ready(out, p, nexts, dom) && s <= |p.levels| && InState(p, db, s) && FactOk(u, dom)
    requires !(0 < s && u.rel in p.levels[s - 1]) && SomeSigned(out, false, db, dom, u)
    ensures !SomeSigned(out, true, db, dom, u)
  {
    if u.rel.name >= p.name {
      NoLossFlag(out, p, nexts, db, dom, s, u);
    } else if u.rel in Union(p.levels) {
      UnionIn(p.levels, u.rel);
      var j: nat :| j < |p.levels| && u.rel in p.levels[j];
      var c := j + 1;
      assert !On(db, Clock(p, c));
      hide InState;
      InnerSigned(out, p, nexts, db, dom, j, u);
    } else if w :| Behind(p, w, u.rel) {
      OnlyBehind(p, w, u.rel);
      OuterSigned(out, p, nexts, db, dom, w, u.args);
    } else {
      OtherSigned(out, p, nexts, db, dom, u, false);
    }
  }

  lemma NoLossFlag(out: seq<Rule>, p: Plan, nexts: map<Rel, nat>, db: Db, dom: nat, s: nat, u: Fact)
    requires Ready(out, p, nexts, dom) && s <= |p.levels| && InState(p, db, s) && FactOk(u, dom)
    requires u.rel.name >= p.name && SomeSigned(out, false, db, dom, u)
    ensures !SomeSigned(out, true, db, dom, u)
  {
    var r :| r in out && !r.neg && Fires(r, db, dom, u);
    OfFlag(out, p, nexts, r);
    if r == Starts(p)[0] {
      assert u == Fact(Stage(p, 1), []);
      StageSigned(out, p, nexts, db, dom, 1, true);
    } else {
      FlagClock(p, r, u);
      var i := u.rel.name - p.name;
      assert u == Fact(Clock(p, i), []);
      ClockSigned(out, p, nexts, db, dom, i);
      var j := Previous(p, i);
      assert On(db, Clock(p, j)) <==> j == s;
    }
  }

  lemma FlagClock(p: Plan, r: Rule, u: Fact)
    requires (IsTick(r, p) || r == Starts(p)[1]) && u.rel == r.head.rel && |u.args| == u.rel.arity
    ensures 0 <= u.rel.name - p.name <= |p.levels| && u == Fact(Clock(p, u.rel.name - p.name), [])
  {
    if i :| 0 <= i <= |p.levels| && r in Ticks(p, i) { assert r == Ticks(p, i)[0] || r == Ticks(p, i)[1]; }
  }

  /** The staged program conflicts in the state of a level exactly if the program conflicts there. */
  lemma ConflictMeans(p: Plan, g: Graph, prog: seq<Rule>, d: Db, e: Db, dom: nat, i: nat, w: Rel)
    requires PlanOk(p) && Levelled(p, g) && e == Raise(p, d, dom, |p.levels|) && PreservesAt(p, prog, d, e, dom)
    requires i < |p.levels| && w in p.levels[i] && w.name in p.unfreeze
    ensures Conflict(p.rs, Raise(p, d, dom, i), dom, w) <==> Conflict(prog, d, dom, Outer(p, w))
  {
    var o, below := Outer(p, w), Raise(p, d, dom, i);
    InUnion(p, i, w);
    assert Behind(p, w, o);
    OnlyBehind(p, w, o);
    forall v | Mentions(p.rs, w, v) ensures SameRel(below, e, v) {
      forall j | i <= j < |p.levels| ensures v !in p.levels[j] { Lower(p, g, i, w, v, j); }
      RaiseKeeps(p, d, dom, i, |p.levels|, v);
    }
    forall t: Tuple, neg: bool
      ensures SomeSigned(p.rs, neg, below, dom, Fact(w, t)) <==> SomeSigned(prog, neg, d, dom, Fact(o, t))
    {
      SignedSameRels(p.rs, neg, below, e, dom, Fact(w, t));
      assert Through(p, neg, e, dom, Fact(o, t)) <==> SomeSigned(p.rs, neg, e, dom, Fact(w, t));
    }
    SameConflict(p.rs, below, w, prog, d, o, dom);
  }

  lemma SameConflict(rs: seq<Rule>, d: Db, w: Rel, rs': seq<Rule>, d': Db, o: Rel, dom: nat)
    requires forall t: Tuple, neg: bool :: SomeSigned(rs, neg, d, dom, Fact(w, t)) <==>
      SomeSigned(rs', neg, d', dom, Fact(o, t))
    ensures Conflict(rs, d, dom, w) <==> Conflict(rs', d', dom, o)
  {
    hide SomeSigned;
    forall u: Fact | u.rel == w ensures u == Fact(w, u.args) {}
    forall u: Fact | u.rel == o ensures u == Fact(o, u.args) {}
    if Conflict(rs, d, dom, w) {
      var u: Fact :| u.rel == w && SomeSigned(rs, false, d, dom, u);
      assert SomeSigned(rs', false, d', dom, Fact(o, u.args));
    }
    if Conflict(rs', d', dom, o) {
      var u: Fact :| u.rel == o && SomeSigned(rs', false, d', dom, u);
      assert SomeSigned(rs, false, d, dom, Fact(w, u.args));
    }
  }
}
