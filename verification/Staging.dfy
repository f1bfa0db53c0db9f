/** One step of a program spread over the stages of a clock. */
module Staging {
  import opened Formula
  import opened Inlining
  import opened Pdatalog
  import opened Levels
  import C = Clock

  /** The rules to run, the levels they run in, the outer name of an inner relation, and two bounds on names: those of
      the outer relations lie below base, those of all relations in the rules below name. */
  datatype Plan = Plan(rs: seq<Rule>, levels: seq<set<Rel>>, unfreeze: map<nat, nat>, base: nat, name: nat)

  function Clock(p: Plan, i: nat): Rel {
    Rel(p.name + i, 0)
  }

  function Stage(p: Plan, k: nat): Rel {
    Rel(p.name + |p.levels| + 1 + k, 0)
  }

  function Flag(c: Rel): Form {
    Lit(Atom(c, []))
  }

  function Next(p: Plan, i: nat): nat {
    if i == |p.levels| then 0 else i + 1
  }

  function Outer(p: Plan, w: Rel): Rel
    requires w.name in p.unfreeze
  {
    Rel(p.unfreeze[w.name], w.arity)
  }

  // ----- the rules of the staged program

  /** The clock moves from one state to the next. */
  function Ticks(p: Plan, i: nat): seq<Rule> {
    [ Rule(false, Atom(Clock(p, Next(p, i)), []), Flag(Clock(p, i))),
      Rule(true, Atom(Clock(p, i), []), Flag(Clock(p, i))) ]
  }

  /** In the first state an inner relation is copied to its outer relation, or emptied if it has none. */
  function CopyBack(p: Plan, w: Rel, next: nat): seq<Rule> {
    var args := General(w, next).args;
    var inner, on := Lit(Atom(w, args)), Flag(Clock(p, 0));
    if w.name !in p.unfreeze then [ Rule(true, Atom(w, args), Bin(And, inner, on)) ]
    else [ Rule(true, Atom(Outer(p, w), args), Bin(And, Not(inner), on)),
           Rule(false, Atom(Outer(p, w), args), Bin(And, inner, on)) ]
  }

  function Conditioned(r: Rule, c: Rel): Rule {
    Rule(r.neg, r.head, Bin(And, r.body, Flag(c)))
  }

  /** The k-th rule, run in the state of the i-th level. */
  function Body(p: Plan, i: nat, k: nat): Rule
    requires k < |p.rs|
  {
    Conditioned(p.rs[k], Clock(p, i + 1))
  }

  /** The clock is started once. */
  function Starts(p: Plan): seq<Rule> {
    [ Rule(false, Atom(Stage(p, 1), []), Flag(Stage(p, 0))),
      Rule(false, Atom(Clock(p, 0), []), Bin(And, Flag(Stage(p, 0)), Not(Flag(Stage(p, 1))))) ]
  }

  ghost predicate IsTick(r: Rule, p: Plan) {
    exists i :: 0 <= i <= |p.levels| && r in Ticks(p, i)
  }

  ghost predicate IsBack(r: Rule, p: Plan, nexts: map<Rel, nat>) {
    exists w :: w in Union(p.levels) && w in nexts && r in CopyBack(p, w, nexts[w])
  }

  ghost predicate InLevel(p: Plan, i: nat, k: nat) {
    i < |p.levels| && k < |p.rs| && p.rs[k].head.rel in p.levels[i]
  }

  ghost predicate IsBody(r: Rule, p: Plan) {
    exists i, k :: InLevel(p, i, k) && r == Body(p, i, k)
  }

  /** out holds exactly these rules. */
  ghost predicate IsStaged(out: seq<Rule>, p: Plan, nexts: map<Rel, nat>) {
    && (forall r :: r in out ==> IsTick(r, p) || IsBack(r, p, nexts) || IsBody(r, p) || r in Starts(p))
    && (forall i, r :: 0 <= i <= |p.levels| && r in Ticks(p, i) ==> r in out)
    && (forall w :: w in Union(p.levels) ==> w in nexts)
    && (forall w, r :: w in Union(p.levels) && r in CopyBack(p, w, nexts[w]) ==> r in out)
    && (forall i, k :: InLevel(p, i, k) ==> Body(p, i, k) in out)
    && (forall r :: r in Starts(p) ==> r in out)
  }

  /** Inner names lie between the bounds, outer names below, and no two inner relations share an outer one. */
  ghost predicate PlanOk(p: Plan) {
    && p.base <= p.name && AllRulesBelow(p.rs, p.name) && Apart(p.levels)
    && (forall w :: w in Union(p.levels) ==> p.base <= w.name < p.name)
    && (forall n :: n in p.unfreeze ==> p.unfreeze[n] < p.base)
    && (forall n, m :: n in p.unfreeze && m in p.unfreeze && p.unfreeze[n] == p.unfreeze[m] ==> n == m)
  }

  ghost predicate Apart(levels: seq<set<Rel>>) {
    forall i, j, w :: 0 <= i < |levels| && 0 <= j < |levels| && w in levels[i] && w in levels[j] ==> i == j
  }

  // ----- what each kind of rule derives

  ghost predicate On(db: Db, c: Rel) {
    Fact(c, []) in db
  }

  lemma FlagMeans(c: Rel, env: Env, db: Db, dom: nat)
    ensures Eval(Flag(c), env, db, dom) <==> On(db, c)
    ensures Eval(Not(Flag(c)), env, db, dom) <==> !On(db, c)
  {
    assert Values([], env) == [];
    assert Eval(Not(Flag(c)), env, db, dom) == !Eval(Flag(c), env, db, dom);
  }

  /** A rule about a flag derives it when its body holds. */
  lemma FlagFires(r: Rule, db: Db, dom: nat, b: bool)
    requires r.head.args == [] && forall env: Env :: Eval(r.body, env, db, dom) <==> b
    ensures Fires(r, db, dom, Fact(r.head.rel, [])) <==> b
  {
    assert forall env: Env :: Values([], env) == [];
    if b { assert FiresWith(r, db, dom, Fact(r.head.rel, []), map[]); }
  }

  lemma TicksFire(p: Plan, i: nat, db: Db, dom: nat)
    ensures forall r :: r in Ticks(p, i) ==> (Fires(r, db, dom, Fact(r.head.rel, [])) <==> On(db, Clock(p, i)))
  {
    forall r | r in Ticks(p, i) ensures Fires(r, db, dom, Fact(r.head.rel, [])) <==> On(db, Clock(p, i)) {
      forall env: Env
        ensures Eval(r.body, env, db, dom) <==> On(db, Clock(p, i))
      {
        FlagMeans(Clock(p, i), env, db, dom);
      }
      FlagFires(r, db, dom, On(db, Clock(p, i)));
    }
  }

  lemma StartsFire(p: Plan, db: Db, dom: nat)
    ensures Fires(Starts(p)[0], db, dom, Fact(Stage(p, 1), [])) <==> On(db, Stage(p, 0))
    ensures Fires(Starts(p)[1], db, dom, Fact(Clock(p, 0), [])) <==> On(db, Stage(p, 0)) && !On(db, Stage(p, 1))
  {
    var s, t := Stage(p, 0), Stage(p, 1);
    forall env: Env
      ensures Eval(Starts(p)[0].body, env, db, dom) <==> On(db, s)
      ensures Eval(Starts(p)[1].body, env, db, dom) <==> On(db, s) && !On(db, t)
    {
      FlagMeans(s, env, db, dom);
      FlagMeans(t, env, db, dom);
      C.AndMeans(Flag(s), Not(Flag(t)), env, db, dom);
    }
    FlagFires(Starts(p)[0], db, dom, On(db, s));
    FlagFires(Starts(p)[1], db, dom, On(db, s) && !On(db, t));
  }

  lemma ConditionedFires(r: Rule, c: Rel, db: Db, dom: nat, u: Fact)
    ensures Fires(Conditioned(r, c), db, dom, u) <==> On(db, c) && Fires(r, db, dom, u)
  {
    forall env: Env
      ensures FiresWith(Conditioned(r, c), db, dom, u, env) <==> On(db, c) && FiresWith(r, db, dom, u, env)
    {
      FlagMeans(c, env, db, dom);
      C.AndMeans(r.body, Flag(c), env, db, dom);
    }
  }

  /** Copying and emptying, in the first state. */
  lemma BackFires(p: Plan, w: Rel, next: nat, r: Rule, db: Db, dom: nat, t: Tuple)
    requires r in CopyBack(p, w, next) && FactOk(Fact(w, t), dom)
    ensures Fires(r, db, dom, Fact(r.head.rel, t)) <==>
      On(db, Clock(p, 0)) && (w.name in p.unfreeze && r.neg <==> Fact(w, t) !in db)
  {
    var inner, c := Lit(Atom(w, r.head.args)), Clock(p, 0);
    var b := On(db, c) && (w.name in p.unfreeze && r.neg <==> Fact(w, t) !in db);
    assert General(w, next).args == General(r.head.rel, next).args;
    forall env: Env | Values(r.head.args, env) == t ensures Eval(r.body, env, db, dom) <==> b {
      FlagMeans(c, env, db, dom);
      assert Eval(inner, env, db, dom) <==> Fact(w, t) in db;
      assert Eval(Not(inner), env, db, dom) == !Eval(inner, env, db, dom);
      C.AndMeans(inner, Flag(c), env, db, dom);
      C.AndMeans(Not(inner), Flag(c), env, db, dom);
    }
    GeneralFires(r, next, db, dom, Fact(r.head.rel, t), b);
  }

  // ----- which rules are about a relation

  lemma BackHead(p: Plan, w: Rel, next: nat, r: Rule)
    requires r in CopyBack(p, w, next)
    ensures r.head.rel == if w.name in p.unfreeze then Outer(p, w) else w
    ensures w.name !in p.unfreeze ==> r.neg
  {
  }

  lemma InUnion(p: Plan, i: nat, w: Rel)
    requires i < |p.levels| && w in p.levels[i]
    ensures w in Union(p.levels)
  {
    UnionIn(p.levels, w);
  }

  lemma TickHead(r: Rule, p: Plan)
    requires IsTick(r, p) || r in Starts(p)
    ensures r.head.rel.name >= p.name
  {
    if i :| 0 <= i <= |p.levels| && r in Ticks(p, i) { assert r == Ticks(p, i)[0] || r == Ticks(p, i)[1]; }
  }

  lemma BodyHead(r: Rule, p: Plan)
    requires IsBody(r, p)
    ensures r.head.rel in Union(p.levels)
  {
    var i: nat, k: nat :| InLevel(p, i, k) && r == Body(p, i, k);
    InUnion(p, i, r.head.rel);
  }

  /** The relation a copying rule copies or empties. */
  ghost predicate BackOf(r: Rule, p: Plan, nexts: map<Rel, nat>, w: Rel) {
    w in Union(p.levels) && w in nexts && r in CopyBack(p, w, nexts[w])
  }

  lemma BackHeads(r: Rule, p: Plan, nexts: map<Rel, nat>) returns (w: Rel)
    requires IsBack(r, p, nexts)
    ensures BackOf(r, p, nexts, w) && r.head.rel == (if w.name in p.unfreeze then Outer(p, w) else w)
  {
    w :| w in Union(p.levels) && w in nexts && r in CopyBack(p, w, nexts[w]);
    BackHead(p, w, nexts[w], r);
  }

  lemma OfFlag(out: seq<Rule>, p: Plan, nexts: map<Rel, nat>, r: Rule)
    requires IsStaged(out, p, nexts) && PlanOk(p) && r in out && r.head.rel.name >= p.name
    ensures IsTick(r, p) || r in Starts(p)
  {
    if IsBack(r, p, nexts) { var w := BackHeads(r, p, nexts); }
    if IsBody(r, p) { BodyHead(r, p); }
  }

  lemma OfRelation(out: seq<Rule>, p: Plan, nexts: map<Rel, nat>, r: Rule)
    requires IsStaged(out, p, nexts) && PlanOk(p) && r in out && r.head.rel.name < p.name
    ensures IsBack(r, p, nexts) || IsBody(r, p)
  {
    if IsTick(r, p) || r in Starts(p) { TickHead(r, p); }
  }

  /** A rule of a level is about a relation of that level only. */
  lemma OfLevel(p: Plan, i: nat, k: nat, j: nat, w: Rel)
    requires PlanOk(p) && InLevel(p, i, k) && j < |p.levels| && w in p.levels[j] && p.rs[k].head.rel == w
    ensures i == j
  {
  }

  // ----- what the staged program derives

  /** The previous state of the clock. */
  function Previous(p: Plan, i: nat): nat {
    if i == 0 then |p.levels| else i - 1
  }

  lemma OfClock(out: seq<Rule>, p: Plan, nexts: map<Rel, nat>, r: Rule, i: nat)
    requires IsStaged(out, p, nexts) && PlanOk(p) && i <= |p.levels| && r in out && r.head.rel == Clock(p, i)
    ensures r == Ticks(p, Previous(p, i))[0] || r == Ticks(p, i)[1] || (i == 0 && r == Starts(p)[1])
  {
    OfFlag(out, p, nexts, r);
    if IsTick(r, p) { var k :| 0 <= k <= |p.levels| && r in Ticks(p, k); }
  }

  lemma ClockSigned(out: seq<Rule>, p: Plan, nexts: map<Rel, nat>, db: Db, dom: nat, i: nat)
    requires IsStaged(out, p, nexts) && PlanOk(p) && i <= |p.levels|
    ensures SomeSigned(out, false, db, dom, Fact(Clock(p, i), [])) <==>
      On(db, Clock(p, Previous(p, i))) || (i == 0 && On(db, Stage(p, 0)) && !On(db, Stage(p, 1)))
    ensures SomeSigned(out, true, db, dom, Fact(Clock(p, i), [])) <==> On(db, Clock(p, i))
  {
    var u, j := Fact(Clock(p, i), []), Previous(p, i);
    TicksFire(p, i, db, dom);
    TicksFire(p, j, db, dom);
    StartsFire(p, db, dom);
    assert Next(p, j) == i && Ticks(p, j)[0] in out && Ticks(p, i)[1] in out && Starts(p)[1] in out;
    hide IsStaged, On, PlanOk;
    forall r | r in out && r.head.rel == u.rel
      ensures r == Ticks(p, j)[0] || r == Ticks(p, i)[1] || (i == 0 && r == Starts(p)[1])
    {
      OfClock(out, p, nexts, r, i);
    }
  }

  lemma StageSigned(out: seq<Rule>, p: Plan, nexts: map<Rel, nat>, db: Db, dom: nat, k: nat, neg: bool)
    requires IsStaged(out, p, nexts) && PlanOk(p) && k < 2
    ensures SomeSigned(out, neg, db, dom, Fact(Stage(p, k), [])) <==> !neg && k == 1 && On(db, Stage(p, 0))
  {
    StartsFire(p, db, dom);
    assert Starts(p)[0] in out;
    hide IsStaged, On;
    forall r | r in out && r.head.rel == Stage(p, k) ensures k == 1 && r == Starts(p)[0] {
      OfFlag(out, p, nexts, r);
      if IsTick(r, p) { var i :| 0 <= i <= |p.levels| && r in Ticks(p, i); }
    }
  }

  /** An inner relation is derived by its own rules, in the state of its level, and emptied in the first state if it
      has no outer relation. */
  lemma InnerSigned(out: seq<Rule>, p: Plan, nexts: map<Rel, nat>, db: Db, dom: nat, i: nat, u: Fact)
    requires IsStaged(out, p, nexts) && PlanOk(p) && i < |p.levels| && u.rel in p.levels[i] && FactOk(u, dom)
    ensures SomeSigned(out, false, db, dom, u) <==> On(db, Clock(p, i + 1)) && SomeSigned(p.rs, false, db, dom, u)
    ensures SomeSigned(out, true, db, dom, u) <==>
      || (On(db, Clock(p, i + 1)) && SomeSigned(p.rs, true, db, dom, u))
      || (On(db, Clock(p, 0)) && u.rel.name !in p.unfreeze && u in db)
  {
    var w := u.rel;
    InUnion(p, i, w);
    BodiesSigned(out, p, nexts, db, dom, i, u, false);
    BodiesSigned(out, p, nexts, db, dom, i, u, true);
    if w.name !in p.unfreeze {
      var b := CopyBack(p, w, nexts[w])[0];
      assert b in out;
      BackFires(p, w, nexts[w], b, db, dom, u.args);
    }
    hide IsStaged, PlanOk;
    forall r | r in out && Fires(r, db, dom, u)
      ensures IsBody(r, p) || (w.name !in p.unfreeze && r == CopyBack(p, w, nexts[w])[0])
    {
      OfInner(out, p, nexts, r);
    }
  }

  lemma OfInner(out: seq<Rule>, p: Plan, nexts: map<Rel, nat>, r: Rule)
    requires IsStaged(out, p, nexts) && PlanOk(p) && r in out && r.head.rel in Union(p.levels)
    ensures IsBody(r, p) || (r.head.rel.name !in p.unfreeze && r == CopyBack(p, r.head.rel, nexts[r.head.rel])[0])
  {
    OfRelation(out, p, nexts, r);
    if IsBack(r, p, nexts) { var w := BackHeads(r, p, nexts); }
  }

  ghost predicate SomeBody(out: seq<Rule>, p: Plan, neg: bool, db: Db, dom: nat, u: Fact) {
    exists r :: r in out && IsBody(r, p) && r.neg == neg && Fires(r, db, dom, u)
  }

  lemma BodiesSigned(out: seq<Rule>, p: Plan, nexts: map<Rel, nat>, db: Db, dom: nat, i: nat, u: Fact, neg: bool)
    requires IsStaged(out, p, nexts) && PlanOk(p) && i < |p.levels| && u.rel in p.levels[i]
    ensures SomeBody(out, p, neg, db, dom, u) <==> On(db, Clock(p, i + 1)) && SomeSigned(p.rs, neg, db, dom, u)
  {
    var c := Clock(p, i + 1);
    if On(db, c) && SomeSigned(p.rs, neg, db, dom, u) {
      var r :| r in p.rs && r.neg == neg && Fires(r, db, dom, u);
      var k :| 0 <= k < |p.rs| && p.rs[k] == r;
      assert InLevel(p, i, k);
      ConditionedFires(r, c, db, dom, u);
      assert IsBody(Body(p, i, k), p);
    }
    if r :| r in out && IsBody(r, p) && r.neg == neg && Fires(r, db, dom, u) {
      var j: nat, k: nat :| InLevel(p, j, k) && r == Body(p, j, k);
      OfLevel(p, j, k, i, u.rel);
      ConditionedFires(p.rs[k], c, db, dom, u);
      assert p.rs[k] in p.rs;
    }
  }

  /** An outer relation becomes its inner relation, in the first state. */
  lemma OuterSigned(out: seq<Rule>, p: Plan, nexts: map<Rel, nat>, db: Db, dom: nat, w: Rel, t: Tuple)
    requires IsStaged(out, p, nexts) && PlanOk(p) && w in Union(p.levels) && w.name in p.unfreeze
    requires FactOk(Fact(w, t), dom)
    ensures SomeSigned(out, false, db, dom, Fact(Outer(p, w), t)) <==> On(db, Clock(p, 0)) && Fact(w, t) in db
    ensures SomeSigned(out, true, db, dom, Fact(Outer(p, w), t)) <==> On(db, Clock(p, 0)) && Fact(w, t) !in db
  {
    var b := CopyBack(p, w, nexts[w]);
    assert b[0] in out && b[1] in out;
    BackFires(p, w, nexts[w], b[0], db, dom, t);
    BackFires(p, w, nexts[w], b[1], db, dom, t);
    hide IsStaged, PlanOk, On;
    forall r | r in out && r.head.rel == Outer(p, w) ensures r == b[0] || r == b[1] {
      OfOuter(out, p, nexts, r, w);
    }
  }

  lemma OfOuter(out: seq<Rule>, p: Plan, nexts: map<Rel, nat>, r: Rule, w: Rel)
    requires IsStaged(out, p, nexts) && PlanOk(p) && r in out
    requires w in Union(p.levels) && w.name in p.unfreeze && r.head.rel == Outer(p, w)
    ensures r in CopyBack(p, w, nexts[w])
  {
    OfRelation(out, p, nexts, r);
    if IsBody(r, p) { BodyHead(r, p); }
    if IsBack(r, p, nexts) { var v := BackHeads(r, p, nexts); }
  }

  /** The inner relation behind an outer one. */
  ghost predicate Behind(p: Plan, w: Rel, o: Rel) {
    w in Union(p.levels) && w.name in p.unfreeze && Outer(p, w) == o
  }

  /** No rule is about any other relation of the program. */
  lemma OtherSigned(out: seq<Rule>, p: Plan, nexts: map<Rel, nat>, db: Db, dom: nat, u: Fact, neg: bool)
    requires IsStaged(out, p, nexts) && PlanOk(p) && u.rel.name < p.name && u.rel !in Union(p.levels)
    requires forall w :: !Behind(p, w, u.rel)
    ensures !SomeSigned(out, neg, db, dom, u)
  {
    forall r | r in out ensures !Fires(r, db, dom, u) {
      if r.head.rel == u.rel {
        OfRelation(out, p, nexts, r);
        if IsBody(r, p) { BodyHead(r, p); }
        if IsBack(r, p, nexts) {
          var w := BackHeads(r, p, nexts);
          assert w.name in p.unfreeze ==> Behind(p, w, u.rel);
        }
      }
    }
  }
}
