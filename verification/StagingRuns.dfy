/** The runs of a staged program. */
module StagingRuns {
  import opened Formula
  import opened Inlining
  import opened Pdatalog
  import opened Levels
  import opened Staging
  import C = Clock

  /** The clock is in the s-th state, and has been started. */
  ghost predicate InState(p: Plan, db: Db, s: nat) {
    && (forall i: nat :: i <= |p.levels| ==> (On(db, Clock(p, i)) <==> i == s))
    && On(db, Stage(p, 0)) && On(db, Stage(p, 1))
  }

  /** The clock has not been started yet. */
  ghost predicate Unstarted(p: Plan, db: Db) {
    && (forall i: nat :: i <= |p.levels| ==> !On(db, Clock(p, i)))
    && On(db, Stage(p, 0)) && !On(db, Stage(p, 1))
  }

  lemma InStep(out: seq<Rule>, db: Db, dom: nat, u: Fact)
    ensures u in TmlStep(out, db, dom) <==>
      (u in db || SomeSigned(out, false, db, dom, u)) && !SomeSigned(out, true, db, dom, u)
  {
  }

  lemma ClockMoves(out: seq<Rule>, p: Plan, nexts: map<Rel, nat>, db: Db, dom: nat, s: nat)
    requires IsStaged(out, p, nexts) && PlanOk(p) && |p.levels| > 0 && s <= |p.levels| && InState(p, db, s)
    ensures InState(p, TmlStep(out, db, dom), Next(p, s))
  {
    var db' := TmlStep(out, db, dom);
    hide IsStaged, PlanOk, SomeSigned, TmlStep;
    forall i: nat | i <= |p.levels| ensures On(db', Clock(p, i)) <==> i == Next(p, s) {
      ClockSigned(out, p, nexts, db, dom, i);
      InStep(out, db, dom, Fact(Clock(p, i), []));
    }
    forall k: nat | k < 2 ensures On(db', Stage(p, k)) {
      StageSigned(out, p, nexts, db, dom, k, false);
      StageSigned(out, p, nexts, db, dom, k, true);
      InStep(out, db, dom, Fact(Stage(p, k), []));
    }
  }

  lemma ClockStarts(out: seq<Rule>, p: Plan, nexts: map<Rel, nat>, db: Db, dom: nat)
    requires IsStaged(out, p, nexts) && PlanOk(p) && |p.levels| > 0 && Unstarted(p, db)
    ensures InState(p, TmlStep(out, db, dom), 0)
  {
    var db' := TmlStep(out, db, dom);
    hide IsStaged, PlanOk, SomeSigned, TmlStep;
    forall i: nat | i <= |p.levels| ensures On(db', Clock(p, i)) <==> i == 0 {
      ClockSigned(out, p, nexts, db, dom, i);
      InStep(out, db, dom, Fact(Clock(p, i), []));
    }
    forall k: nat | k < 2 ensures On(db', Stage(p, k)) {
      StageSigned(out, p, nexts, db, dom, k, false);
      StageSigned(out, p, nexts, db, dom, k, true);
      InStep(out, db, dom, Fact(Stage(p, k), []));
    }
  }

  // ----- what a step does to the relations of the program

  /** One step of the rules of a level. */
  ghost function LevelStep(rs: seq<Rule>, level: set<Rel>, db: Db, dom: nat): Db {
    iset u: Fact | if u.rel in level then u in TmlStep(rs, db, dom) else u in db
  }

  ghost predicate IsOuter(p: Plan, o: Rel) {
    exists w :: Behind(p, w, o)
  }

  ghost predicate Copied(p: Plan, db: Db, u: Fact) {
    exists w :: Behind(p, w, u.rel) && Fact(w, u.args) in db
  }

  predicate IsAux(p: Plan, w: Rel) {
    w in Union(p.levels) && w.name !in p.unfreeze
  }

  /** Outer relations become their inner ones, and auxiliary relations are emptied. */
  ghost function BackStep(p: Plan, db: Db): Db {
    iset u: Fact | if IsOuter(p, u.rel) then Copied(p, db, u) else u in db && !IsAux(p, u.rel)
  }

  lemma OnlyBehind(p: Plan, w: Rel, o: Rel)
    requires PlanOk(p) && Behind(p, w, o)
    ensures o !in Union(p.levels) && o.name < p.base
    ensures forall v :: Behind(p, v, o) ==> v == w
  {
  }

  /** What the staged program derives for a relation of the program in the s-th state. */
  lemma LevelAt(out: seq<Rule>, p: Plan, nexts: map<Rel, nat>, db: Db, dom: nat, i: nat, s: nat, u: Fact)
    requires IsStaged(out, p, nexts) && PlanOk(p) && i < |p.levels| && s == i + 1 && InState(p, db, s)
    requires u.rel.name < p.name && FactOk(u, dom)
    ensures u in TmlStep(out, db, dom) <==> u in LevelStep(p.rs, p.levels[i], db, dom)
  {
    InStep(out, db, dom, u);
    InStep(p.rs, db, dom, u);
    UnionIn(p.levels, u.rel);
    if u.rel in Union(p.levels) {
      var j: nat :| j < |p.levels| && u.rel in p.levels[j];
      InnerSigned(out, p, nexts, db, dom, j, u);
      var c := j + 1;
      assert On(db, Clock(p, c)) <==> c == s;
    } else if w :| Behind(p, w, u.rel) {
      OnlyBehind(p, w, u.rel);
      OuterSigned(out, p, nexts, db, dom, w, u.args);
    } else {
      OtherSigned(out, p, nexts, db, dom, u, false);
      OtherSigned(out, p, nexts, db, dom, u, true);
    }
  }

  lemma BackAt(out: seq<Rule>, p: Plan, nexts: map<Rel, nat>, db: Db, dom: nat, u: Fact)
    requires IsStaged(out, p, nexts) && PlanOk(p) && InState(p, db, 0) && u.rel.name < p.name && FactOk(u, dom)
    ensures u in TmlStep(out, db, dom) <==> u in BackStep(p, db)
  {
    InStep(out, db, dom, u);
    UnionIn(p.levels, u.rel);
    if u.rel in Union(p.levels) {
      var j: nat :| j < |p.levels| && u.rel in p.levels[j];
      InnerSigned(out, p, nexts, db, dom, j, u);
      var c := j + 1;
      assert !On(db, Clock(p, c)) && !IsOuter(p, u.rel);
    } else if w :| Behind(p, w, u.rel) {
      OnlyBehind(p, w, u.rel);
      OuterSigned(out, p, nexts, db, dom, w, u.args);
      assert Copied(p, db, u) <==> Fact(w, u.args) in db;
    } else {
      OtherSigned(out, p, nexts, db, dom, u, false);
      OtherSigned(out, p, nexts, db, dom, u, true);
    }
  }

  lemma UnstartedAt(out: seq<Rule>, p: Plan, nexts: map<Rel, nat>, db: Db, dom: nat, u: Fact)
    requires IsStaged(out, p, nexts) && PlanOk(p) && Unstarted(p, db) && u.rel.name < p.name && FactOk(u, dom)
    ensures u in TmlStep(out, db, dom) <==> u in db
  {
    InStep(out, db, dom, u);
    UnionIn(p.levels, u.rel);
    if u.rel in Union(p.levels) {
      var j: nat :| j < |p.levels| && u.rel in p.levels[j];
      InnerSigned(out, p, nexts, db, dom, j, u);
      var c := j + 1;
      assert !On(db, Clock(p, c));
    } else if w :| Behind(p, w, u.rel) {
      OnlyBehind(p, w, u.rel);
      OuterSigned(out, p, nexts, db, dom, w, u.args);
    } else {
      OtherSigned(out, p, nexts, db, dom, u, false);
      OtherSigned(out, p, nexts, db, dom, u, true);
    }
  }

  // ----- the part of the database the program speaks of

  lemma PartOk(p: Plan, db: Db, dom: nat)
    requires DbOk(db, dom)
    ensures DbOk(Part(db, p.name), dom) && DbOk(BackStep(p, db), dom)
    ensures Part(Part(db, p.name), p.name) == Part(db, p.name)
  {
    forall u: Fact | u in BackStep(p, db) ensures FactOk(u, dom) {
      if w :| Behind(p, w, u.rel) && Fact(w, u.args) in db { assert FactOk(Fact(w, u.args), dom); }
    }
  }

  lemma BackPart(out: seq<Rule>, p: Plan, nexts: map<Rel, nat>, db: Db, dom: nat)
    requires IsStaged(out, p, nexts) && PlanOk(p) && RulesOk(out, dom) && DbOk(db, dom) && InState(p, db, 0)
    ensures Part(TmlStep(out, db, dom), p.name) == BackStep(p, Part(db, p.name))
  {
    var db' := TmlStep(out, db, dom);
    var d := Part(db, p.name);
    C.TmlStepOk(out, db, dom);
    PartOk(p, db, dom);
    PartOk(p, d, dom);
    forall u: Fact ensures u in Part(db', p.name) <==> u in BackStep(p, d) {
      CopiedPart(p, db, u);
      if u.rel.name < p.name && FactOk(u, dom) { BackAt(out, p, nexts, db, dom, u); }
    }
  }

  lemma CopiedPart(p: Plan, db: Db, u: Fact)
    requires PlanOk(p)
    ensures Copied(p, Part(db, p.name), u) <==> Copied(p, db, u)
    ensures IsOuter(p, u.rel) ==> u.rel.name < p.name
  {
    if w :| Behind(p, w, u.rel) { OnlyBehind(p, w, u.rel); }
    if w :| Behind(p, w, u.rel) && Fact(w, u.args) in db { assert Fact(w, u.args) in Part(db, p.name); }
  }

  lemma LevelPart(out: seq<Rule>, p: Plan, nexts: map<Rel, nat>, db: Db, dom: nat, i: nat, s: nat)
    requires IsStaged(out, p, nexts) && PlanOk(p) && RulesOk(out, dom) && RulesOk(p.rs, dom) && DbOk(db, dom)
    requires i < |p.levels| && s == i + 1 && InState(p, db, s)
    ensures Part(TmlStep(out, db, dom), p.name) == LevelStep(p.rs, p.levels[i], Part(db, p.name), dom)
  {
    var db', d := TmlStep(out, db, dom), Part(db, p.name);
    C.TmlStepOk(out, db, dom);
    PartOk(p, db, dom);
    C.TmlStepOk(p.rs, d, dom);
    forall u: Fact ensures u in Part(db', p.name) <==> u in LevelStep(p.rs, p.levels[i], d, dom) {
      if u.rel in p.levels[i] { InUnion(p, i, u.rel); }
      if u.rel.name < p.name && FactOk(u, dom) {
        LevelAt(out, p, nexts, db, dom, i, s, u);
        SignedPart(p.rs, false, db, d, p.name, dom, u);
        SignedPart(p.rs, true, db, d, p.name, dom, u);
      }
    }
  }

  lemma UnstartedPart(out: seq<Rule>, p: Plan, nexts: map<Rel, nat>, db: Db, dom: nat)
    requires IsStaged(out, p, nexts) && PlanOk(p) && RulesOk(out, dom) && DbOk(db, dom) && Unstarted(p, db)
    ensures Part(TmlStep(out, db, dom), p.name) == Part(db, p.name)
  {
    C.TmlStepOk(out, db, dom);
    forall u: Fact ensures u in Part(TmlStep(out, db, dom), p.name) <==> u in Part(db, p.name) {
      if u.rel.name < p.name && FactOk(u, dom) { UnstartedAt(out, p, nexts, db, dom, u); }
    }
  }

  // ----- a cycle of the clock

  /** The first n levels run one after the other. */
  ghost function Raise(p: Plan, d: Db, dom: nat, n: nat): Db
    requires n <= |p.levels|
  {
    if n == 0 then d else LevelStep(p.rs, p.levels[n - 1], Raise(p, d, dom, n - 1), dom)
  }

  /** From the first state on, n more states have been passed: what was copied has been raised through n levels. */
  lemma {:induction false} Ascent(out: seq<Rule>, p: Plan, nexts: map<Rel, nat>, db: Db, dom: nat, n: nat, m: nat)
    requires IsStaged(out, p, nexts) && PlanOk(p) && RulesOk(out, dom) && RulesOk(p.rs, dom) && DbOk(db, dom)
    requires InState(p, db, 0) && 0 < |p.levels| && n <= |p.levels| && m == n + 1
    ensures InState(p, TmlRun(out, db, dom, m), Next(p, n)) && DbOk(TmlRun(out, db, dom, m), dom)
    ensures Part(TmlRun(out, db, dom, m), p.name) == Raise(p, BackStep(p, Part(db, p.name)), dom, n)
  {
    hide IsStaged, PlanOk, RulesOk, DbOk, InState, TmlStep, BackStep, LevelStep, Part;
    C.TmlRunStep(out, db, dom, n, m);
    if n == 0 {
      assert TmlRun(out, db, dom, n) == db;
      ClockMoves(out, p, nexts, db, dom, n);
      BackPart(out, p, nexts, db, dom);
      C.TmlStepOk(out, db, dom);
    } else {
      Ascent(out, p, nexts, db, dom, n - 1, n);
      var mid := TmlRun(out, db, dom, n);
      assert Next(p, n - 1) == n;
      ClockMoves(out, p, nexts, mid, dom, n);
      LevelPart(out, p, nexts, mid, dom, n - 1, n);
      C.TmlStepOk(out, mid, dom);
    }
  }

  // ----- the meaning of a cycle does not depend on the levels

  /** Every placed relation holds what its rules, read in e itself, make of what it held before. */
  ghost predicate Solves(p: Plan, d: Db, e: Db, dom: nat) {
    forall u: Fact :: u in e <==> SolvedAt(p, d, e, dom, u)
  }

  ghost predicate SolvedAt(p: Plan, d: Db, e: Db, dom: nat, u: Fact) {
    if u.rel in Union(p.levels)
    then (u in d || SomeSigned(p.rs, false, e, dom, u)) && !SomeSigned(p.rs, true, e, dom, u)
    else u in d
  }

  /** The two databases agree on the relation. */
  ghost predicate SameRel(d: Db, e: Db, w: Rel) {
    forall u: Fact :: u.rel == w ==> (u in d <==> u in e)
  }

  lemma {:induction false} EvalSameRels(f: Form, env: Env, d: Db, e: Db, dom: nat)
    requires forall w :: w in FormRels(f) ==> SameRel(d, e, w)
    ensures Eval(f, env, d, dom) == Eval(f, env, e, dom)
  {
    match f
    case Lit(a) => assert SameRel(d, e, a.rel);
    case Equal(_, _) =>
    case Not(g) => EvalSameRels(g, env, d, e, dom);
    case Bin(_, l, r) => EvalSameRels(l, env, d, e, dom); EvalSameRels(r, env, d, e, dom);
    case Quant(q, v, g) =>
      forall c: nat | c < dom ensures Eval(g, Put(env, v, c), d, dom) == Eval(g, Put(env, v, c), e, dom) {
        EvalSameRels(g, Put(env, v, c), d, e, dom);
      }
      assert Holders(g, env, d, dom, v) == Holders(g, env, e, dom, v);
  }

  lemma SignedSameRels(rs: seq<Rule>, neg: bool, d: Db, e: Db, dom: nat, u: Fact)
    requires forall w :: Mentions(rs, u.rel, w) ==> SameRel(d, e, w)
    ensures SomeSigned(rs, neg, d, dom, u) == SomeSigned(rs, neg, e, dom, u)
  {
    forall r | r in rs && r.head.rel == u.rel ensures Fires(r, d, dom, u) == Fires(r, e, dom, u) {
      var i :| 0 <= i < |rs| && rs[i] == r;
      forall w | w in FormRels(r.body) ensures SameRel(d, e, w) { assert Mentions(rs, u.rel, w); }
      forall env: Env ensures FiresWith(r, d, dom, u, env) == FiresWith(r, e, dom, u, env) {
        EvalSameRels(r.body, env, d, e, dom);
      }
    }
  }

  /** The levels respect what the rules mention. */
  ghost predicate Levelled(p: Plan, g: Graph) {
    IsGraph(g, p.rs) && Ranked(g, p.levels)
  }

  lemma RankedApart(g: Graph, levels: seq<set<Rel>>)
    requires Ranked(g, levels)
    ensures Apart(levels)
  {
    forall i, j, w | 0 <= i < j < |levels| && w in levels[i] ensures w !in levels[j] {
      UnionIn(levels[..j], w);
      assert levels[..j][i] == levels[i];
    }
  }

  /** What a relation of level n needs is in no level from n on. */
  lemma Lower(p: Plan, g: Graph, n: nat, w: Rel, v: Rel, j: nat)
    requires Levelled(p, g) && n < |p.levels| && w in p.levels[n] && Mentions(p.rs, w, v) && n <= j < |p.levels|
    ensures v !in p.levels[j]
  {
    RankedApart(g, p.levels);
    assert RankedAt(g, p.levels, n, w) && (v in p.levels[j] ==> RankedAt(g, p.levels, j, v));
    assert v in g ==> v in g[w];
    UnionIn(p.levels[..n], v);
    if i :| 0 <= i < n && v in p.levels[..n][i] { assert v in p.levels[i]; }
  }

  lemma {:induction false} RaiseKeeps(p: Plan, d: Db, dom: nat, n: nat, m: nat, w: Rel)
    requires n <= m <= |p.levels| && forall j :: n <= j < m ==> w !in p.levels[j]
    ensures SameRel(Raise(p, d, dom, n), Raise(p, d, dom, m), w)
    decreases m
  {
    if n < m {
      RaiseKeeps(p, d, dom, n, m - 1, w);
      assert w !in p.levels[m - 1];
    }
  }

  /** Running the levels in order gives a solution. */
  lemma RaiseSolves(p: Plan, g: Graph, d: Db, dom: nat)
    requires Levelled(p, g)
    ensures Solves(p, d, Raise(p, d, dom, |p.levels|), dom)
  {
    var e, m := Raise(p, d, dom, |p.levels|), |p.levels|;
    RankedApart(g, p.levels);
    forall u: Fact ensures u in e <==> SolvedAt(p, d, e, dom, u) {
      UnionIn(p.levels, u.rel);
      if u.rel in Union(p.levels) {
        var n: nat :| n < m && u.rel in p.levels[n];
        RaiseSolvesAt(p, g, d, dom, n, n + 1, u);
      } else {
        RaiseKeeps(p, d, dom, 0, m, u.rel);
      }
    }
  }

  lemma RaiseSolvesAt(p: Plan, g: Graph, d: Db, dom: nat, n: nat, k: nat, u: Fact)
    requires Levelled(p, g) && Apart(p.levels) && n < |p.levels| && u.rel in p.levels[n] && k == n + 1
    ensures u in Raise(p, d, dom, |p.levels|) <==> SolvedAt(p, d, Raise(p, d, dom, |p.levels|), dom, u)
  {
    var e, m := Raise(p, d, dom, |p.levels|), |p.levels|;
    var below := Raise(p, d, dom, n);
    InUnion(p, n, u.rel);
    RaiseKeeps(p, d, dom, 0, n, u.rel);
    RaiseKeeps(p, d, dom, k, m, u.rel);
    forall v | Mentions(p.rs, u.rel, v) ensures SameRel(below, e, v) {
      forall j | n <= j < m ensures v !in p.levels[j] { Lower(p, g, n, u.rel, v, j); }
      RaiseKeeps(p, d, dom, n, m, v);
    }
    SignedSameRels(p.rs, false, below, e, dom, u);
    SignedSameRels(p.rs, true, below, e, dom, u);
    InStep(p.rs, below, dom, u);
    assert Raise(p, d, dom, k) == LevelStep(p.rs, p.levels[n], below, dom);
  }

  /** There is only one solution. */
  lemma SolutionUnique(p: Plan, g: Graph, d: Db, e: Db, e': Db, dom: nat)
    requires Levelled(p, g) && Solves(p, d, e, dom) && Solves(p, d, e', dom)
    ensures e == e'
  {
    forall u: Fact ensures u in e <==> u in e' {
      assert SolvedAt(p, d, e, dom, u) <==> u in e;
      assert SolvedAt(p, d, e', dom, u) <==> u in e';
      UnionIn(p.levels, u.rel);
      if u.rel in Union(p.levels) {
        var n: nat :| n < |p.levels| && u.rel in p.levels[n];
        SolutionsAgree(p, g, d, e, e', dom, n);
      }
    }
  }

  lemma {:induction false} SolutionsAgree(p: Plan, g: Graph, d: Db, e: Db, e': Db, dom: nat, n: nat)
    requires Levelled(p, g) && Solves(p, d, e, dom) && Solves(p, d, e', dom) && n < |p.levels|
    ensures forall w :: w in p.levels[n] ==> SameRel(e, e', w)
    decreases n
  {
    forall w | w in p.levels[n] ensures SameRel(e, e', w) {
      forall v | Mentions(p.rs, w, v) ensures SameRel(e, e', v) {
        UnionIn(p.levels, v);
        if j :| 0 <= j < |p.levels| && v in p.levels[j] {
          if j >= n { Lower(p, g, n, w, v, j); }
          SolutionsAgree(p, g, d, e, e', dom, j);
        }
      }
      forall u: Fact | u.rel == w ensures u in e <==> u in e' {
        SignedSameRels(p.rs, false, e, e', dom, u);
        SignedSameRels(p.rs, true, e, e', dom, u);
        assert SolvedAt(p, d, e, dom, u) <==> SolvedAt(p, d, e', dom, u);
      }
    }
  }
}
