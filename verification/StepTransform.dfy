/** Making a transformed program take its steps one at a time. */
module StepTransform {
  import opened Formula
  import opened Inlining
  import opened Pdatalog
  import opened Levels
  import opened DnfShape
  import opened Staging
  import opened StagingRuns
  import opened StagingMeans
  import C = Clock
  import D = Dnf
  import S = Speedup

  // ----- inner names for the heads

  /** freeze gives names below base fresh names below next, and unfreeze takes them back. */
  ghost predicate NamesFrozen(freeze: map<nat, nat>, unfreeze: map<nat, nat>, base: nat, next: nat) {
    && (forall n :: n in freeze ==> n < base <= freeze[n] < next && freeze[n] in unfreeze && unfreeze[freeze[n]] == n)
    && (forall m :: m in unfreeze ==> unfreeze[m] in freeze && freeze[unfreeze[m]] == m)
  }

  predicate Covers(freeze: map<nat, nat>, a: Atom) {
    a.rel.name in freeze
  }

  function Inner(freeze: map<nat, nat>, a: Atom): Atom
    requires Covers(freeze, a)
  {
    Atom(Rel(freeze[a.rel.name], a.rel.arity), a.args)
  }

  function Thawed(unfreeze: map<nat, nat>, a: Atom): Atom {
    if a.rel.name in unfreeze then Atom(Rel(unfreeze[a.rel.name], a.rel.arity), a.args) else a
  }

  ghost predicate Grown(freeze: map<nat, nat>, freeze': map<nat, nat>) {
    forall n :: n in freeze ==> n in freeze' && freeze'[n] == freeze[n]
  }

  method FreezeHead(a: Atom, freeze0: map<nat, nat>, unfreeze0: map<nat, nat>, next: nat, ghost base: nat)
    returns (b: Atom, freeze: map<nat, nat>, unfreeze: map<nat, nat>, next': nat)
    requires NamesFrozen(freeze0, unfreeze0, base, next) && a.rel.name < base <= next
    ensures NamesFrozen(freeze, unfreeze, base, next') && Grown(freeze0, freeze) && next <= next'
    ensures Covers(freeze, a) && b == Inner(freeze, a)
  {
    freeze, unfreeze, next' := freeze0, unfreeze0, next;
    if a.rel.name !in freeze {
      freeze, unfreeze, next' := freeze[a.rel.name := next], unfreeze[next := a.rel.name], next + 1;
    }
    b := Inner(freeze, a);
  }

  ghost predicate AtomsFrozen(freeze: map<nat, nat>, facts: seq<Atom>, frozen: seq<Atom>, n: nat) {
    n <= |frozen| && n <= |facts| && forall i :: 0 <= i < n ==>
      Covers(freeze, facts[i]) && frozen[i] == Inner(freeze, facts[i])
  }

  ghost predicate RulesFrozen(freeze: map<nat, nat>, prog: seq<Rule>, frozen: seq<Rule>, n: nat) {
    n <= |frozen| && n <= |prog| && forall i :: 0 <= i < n ==>
      Covers(freeze, prog[i].head) && frozen[i] == Rule(prog[i].neg, Inner(freeze, prog[i].head), prog[i].body)
  }

  /** Gives the heads of rules and facts their inner names. */
  method Freeze(prog: seq<Rule>, facts: seq<Atom>, base: nat)
    returns (rs: seq<Rule>, frozen: seq<Atom>, ghost freeze: map<nat, nat>, unfreeze: map<nat, nat>, next: nat)
    requires AllRulesBelow(prog, base) && forall i :: 0 <= i < |facts| ==> facts[i].rel.name < base
    ensures NamesFrozen(freeze, unfreeze, base, next) && base <= next && |rs| == |prog| && |frozen| == |facts|
    ensures RulesFrozen(freeze, prog, rs, |prog|) && AtomsFrozen(freeze, facts, frozen, |facts|)
  {
    var there: map<nat, nat>;
    rs, frozen, there, unfreeze, next := [], [], map[], map[], base;
    for k := 0 to |prog|
      invariant NamesFrozen(there, unfreeze, base, next) && base <= next && |rs| == k && RulesFrozen(there, prog, rs, k)
    {
      assert RuleBelow(prog[k], base);
      var h;
      h, there, unfreeze, next := FreezeHead(prog[k].head, there, unfreeze, next, base);
      rs := rs + [Rule(prog[k].neg, h, prog[k].body)];
    }
    for k := 0 to |facts|
      invariant NamesFrozen(there, unfreeze, base, next) && base <= next && |frozen| == k && |rs| == |prog|
      invariant RulesFrozen(there, prog, rs, |prog|) && AtomsFrozen(there, facts, frozen, k)
    {
      var h;
      h, there, unfreeze, next := FreezeHead(facts[k], there, unfreeze, next, base);
      frozen := frozen + [h];
    }
    freeze := there;
  }

  // ----- writing the staged program

  ghost predicate Kind(r: Rule, p: Plan, nexts: map<Rel, nat>) {
    IsTick(r, p) || IsBack(r, p, nexts) || IsBody(r, p) || r in Starts(p)
  }

  ghost predicate AllKind(out: seq<Rule>, p: Plan, nexts: map<Rel, nat>) {
    forall r :: r in out ==> Kind(r, p, nexts)
  }

  ghost predicate All(rs: seq<Rule>, out: seq<Rule>) {
    forall r :: r in rs ==> r in out
  }

  /** Fresh variables for the heads of the relations. */
  method FreshHeads(ws: set<Rel>, next: nat) returns (nexts: map<Rel, nat>, next': nat)
    ensures nexts.Keys == ws && next <= next'
    ensures forall w :: w in ws ==> next <= nexts[w] && nexts[w] + w.arity <= next'
  {
    nexts, next' := map[], next;
    var todo := ws;
    while todo != {}
      invariant todo <= ws && nexts.Keys == ws - todo && next <= next'
      invariant forall w :: w in nexts ==> next <= nexts[w] && nexts[w] + w.arity <= next'
    {
      var w :| w in todo;
      todo := todo - {w};
      nexts, next' := nexts[w := next'], next' + w.arity;
    }
  }

  /** The rules of one relation of a level. */
  method EmitRelation(p: Plan, nexts: map<Rel, nat>, i: nat, w: Rel) returns (out: seq<Rule>)
    requires i < |p.levels| && w in p.levels[i] && w in nexts
    ensures AllKind(out, p, nexts) && All(CopyBack(p, w, nexts[w]), out)
    ensures forall k: nat :: InLevel(p, i, k) && p.rs[k].head.rel == w ==> Body(p, i, k) in out
  {
    out := CopyBack(p, w, nexts[w]);
    InUnion(p, i, w);
    assert AllKind(out, p, nexts);
    for k := 0 to |p.rs|
      invariant AllKind(out, p, nexts) && All(CopyBack(p, w, nexts[w]), out)
      invariant forall j :: 0 <= j < k && p.rs[j].head.rel == w ==> Body(p, i, j) in out
    {
      if p.rs[k].head.rel == w {
        assert InLevel(p, i, k) && IsBody(Body(p, i, k), p);
        out := out + [Body(p, i, k)];
      }
    }
  }

  method EmitLevel(p: Plan, nexts: map<Rel, nat>, i: nat) returns (out: seq<Rule>)
    requires i < |p.levels| && forall w :: w in p.levels[i] ==> w in nexts
    ensures AllKind(out, p, nexts) && All(Ticks(p, i), out)
    ensures forall w :: w in p.levels[i] ==> All(CopyBack(p, w, nexts[w]), out)
    ensures forall k: nat :: InLevel(p, i, k) ==> Body(p, i, k) in out
  {
    out := Ticks(p, i);
    assert AllKind(out, p, nexts) by { forall r | r in out ensures IsTick(r, p) {} }
    hide Kind, CopyBack, Ticks;
    var todo := p.levels[i];
    while todo != {}
      invariant todo <= p.levels[i] && AllKind(out, p, nexts) && All(Ticks(p, i), out)
      invariant forall w :: w in p.levels[i] - todo ==> All(CopyBack(p, w, nexts[w]), out)
      invariant forall k: nat :: InLevel(p, i, k) && p.rs[k].head.rel !in todo ==> Body(p, i, k) in out
    {
      var w :| w in todo;
      todo := todo - {w};
      var more := EmitRelation(p, nexts, i, w);
      out := out + more;
    }
  }

  /** The whole staged program. */
  method Emit(p: Plan, nexts: map<Rel, nat>) returns (out: seq<Rule>)
    requires forall w :: w in Union(p.levels) ==> w in nexts
    ensures IsStaged(out, p, nexts)
  {
    out := [];
    for i := 0 to |p.levels|
      invariant AllKind(out, p, nexts)
      invariant forall j :: 0 <= j < i ==> All(Ticks(p, j), out)
      invariant forall j, w :: 0 <= j < i && w in p.levels[j] ==> w in nexts && All(CopyBack(p, w, nexts[w]), out)
      invariant forall j: nat, k: nat :: InLevel(p, j, k) && j < i ==> Body(p, j, k) in out
    {
      forall w | w in p.levels[i] ensures w in nexts { InUnion(p, i, w); }
      var more := EmitLevel(p, nexts, i);
      out := out + more;
    }
    assert forall r :: r in Ticks(p, |p.levels|) ==> IsTick(r, p);
    out := out + Starts(p) + Ticks(p, |p.levels|);
    forall w, r | w in Union(p.levels) && r in CopyBack(p, w, nexts[w]) ensures r in out { UnionIn(p.levels, w); }
  }

  /** Facts of a relation that is staged stay inside; the others move out. */
  method PlaceFacts(frozen: seq<Atom>, g: Graph, unfreeze: map<nat, nat>) returns (fs: seq<Atom>)
    ensures |fs| == |frozen| && forall i :: 0 <= i < |fs| ==> fs[i] == PlaceOf(frozen[i], g, unfreeze)
  {
    fs := [];
    for i := 0 to |frozen|
      invariant |fs| == i && forall j :: 0 <= j < i ==> fs[j] == PlaceOf(frozen[j], g, unfreeze)
    {
      fs := fs + [if frozen[i].rel in g then frozen[i] else Thawed(unfreeze, frozen[i])];
    }
  }

  function PlaceOf(a: Atom, g: Graph, unfreeze: map<nat, nat>): Atom {
    if a.rel in g then a else Thawed(unfreeze, a)
  }

  /** The rule with its head moved out. */
  function ThawedRule(unfreeze: map<nat, nat>, r: Rule): Rule {
    Rule(r.neg, Thawed(unfreeze, r.head), r.body)
  }

  method ThawAll(rs: seq<Rule>, frozen: seq<Atom>, unfreeze: map<nat, nat>) returns (out: seq<Rule>, fs: seq<Atom>)
    ensures |out| == |rs| && forall i :: 0 <= i < |rs| ==> out[i] == ThawedRule(unfreeze, rs[i])
    ensures |fs| == |frozen| && forall i :: 0 <= i < |fs| ==> fs[i] == Thawed(unfreeze, frozen[i])
  {
    out, fs := [], [];
    for i := 0 to |rs|
      invariant |out| == i && forall j :: 0 <= j < i ==> out[j] == ThawedRule(unfreeze, rs[j])
    {
      out := out + [ThawedRule(unfreeze, rs[i])];
    }
    for i := 0 to |frozen|
      invariant |fs| == i && forall j :: 0 <= j < i ==> fs[j] == Thawed(unfreeze, frozen[j])
    {
      fs := fs + [Thawed(unfreeze, frozen[i])];
    }
  }

  // ----- facts

  ghost predicate InstanceBy(a: Atom, dom: nat, u: Fact, env: Env) {
    EnvBelow(env, dom) && u == Fact(a.rel, Values(a.args, env))
  }

  ghost predicate Instance(a: Atom, dom: nat, u: Fact) {
    exists env: Env :: InstanceBy(a, dom, u, env)
  }

  /** The database the facts of a program assert. */
  ghost function FactsDb(fs: seq<Atom>, dom: nat): Db {
    iset u: Fact | Asserted(fs, dom, u)
  }

  ghost predicate Asserted(fs: seq<Atom>, dom: nat, u: Fact) {
    exists i :: 0 <= i < |fs| && Instance(fs[i], dom, u)
  }

  predicate AtomsOk(fs: seq<Atom>, dom: nat) {
    dom > 0 && forall i :: 0 <= i < |fs| ==> AtomOk(fs[i], dom)
  }

  lemma FactsDbOk(fs: seq<Atom>, dom: nat)
    requires AtomsOk(fs, dom)
    ensures DbOk(FactsDb(fs, dom), dom)
  {
    forall u: Fact | u in FactsDb(fs, dom) ensures FactOk(u, dom) {
      var i :| 0 <= i < |fs| && Instance(fs[i], dom, u);
      var env: Env :| InstanceBy(fs[i], dom, u, env);
      forall j | 0 <= j < |u.args| ensures u.args[j] < dom { assert fs[i].args[j] in fs[i].args; }
    }
  }

  /** An atom under another name has the same instances under that name. */
  lemma InstanceRenamed(a: Atom, b: Atom, dom: nat, t: Tuple)
    requires a.args == b.args
    ensures Instance(a, dom, Fact(a.rel, t)) <==> Instance(b, dom, Fact(b.rel, t))
    ensures forall u: Fact :: Instance(a, dom, u) ==> u.rel == a.rel
  {
    forall env: Env ensures InstanceBy(a, dom, Fact(a.rel, t), env) <==> InstanceBy(b, dom, Fact(b.rel, t), env) {}
  }

  // ----- the plan of a transformed program

  /** What the transformation in between must leave: rules for inner and new relations only, well formed, with names
      below the bound, and with no relations that wait for each other in a circle. */
  ghost predicate Fine(p: Plan, g: Graph, dom: nat) {
    && p.base <= p.name && AllRulesBelow(p.rs, p.name) && RulesOk(p.rs, dom) && !Cyclic(g)
    && forall i :: 0 <= i < |p.rs| ==> p.base <= p.rs[i].head.rel.name
  }

  lemma PlanFine(p: Plan, g: Graph, freeze: map<nat, nat>, next: nat, dom: nat)
    requires Levelled(p, g) && NamesFrozen(freeze, p.unfreeze, p.base, next) && Fine(p, g, dom)
    ensures PlanOk(p)
  {
    RankedApart(g, p.levels);
    forall w | w in Union(p.levels) ensures p.base <= w.name < p.name {
      UnionIn(p.levels, w);
      var i: nat :| i < |p.levels| && w in p.levels[i];
      assert RankedAt(g, p.levels, i, w);
      var k :| 0 <= k < |p.rs| && p.rs[k].head.rel == w;
      assert RuleBelow(p.rs[k], p.name);
    }
  }

  lemma KindOk(r: Rule, p: Plan, nexts: map<Rel, nat>, dom: nat)
    requires Kind(r, p, nexts) && RulesOk(p.rs, dom)
    ensures RuleOk(r, dom)
  {
    if IsTick(r, p) {
      var i :| 0 <= i <= |p.levels| && r in Ticks(p, i);
      assert r == Ticks(p, i)[0] || r == Ticks(p, i)[1];
    } else if IsBack(r, p, nexts) {
      var w :| w in Union(p.levels) && w in nexts && r in CopyBack(p, w, nexts[w]);
      S.GeneralOk(w, nexts[w], dom);
      var args := General(w, nexts[w]).args;
      assert FormOk(Lit(Atom(w, args)), dom) && FormOk(Not(Lit(Atom(w, args))), dom);
    } else if IsBody(r, p) {
      var i: nat, k: nat :| InLevel(p, i, k) && r == Body(p, i, k);
      assert RuleOk(p.rs[k], dom);
    } else {
      assert r == Starts(p)[0] || r == Starts(p)[1];
    }
  }

  lemma StagedOk(out: seq<Rule>, p: Plan, nexts: map<Rel, nat>, dom: nat)
    requires IsStaged(out, p, nexts) && RulesOk(p.rs, dom)
    ensures RulesOk(out, dom)
  {
    forall i | 0 <= i < |out| ensures RuleOk(out[i], dom) {
      assert out[i] in out && Kind(out[i], p, nexts);
      KindOk(out[i], p, nexts, dom);
    }
  }

  // ----- the start

  /** fs are the staged facts: the frozen ones in their places, and the flag that starts the clock. */
  ghost predicate Placed(fs: seq<Atom>, p: Plan, g: Graph, frozen: seq<Atom>) {
    && |fs| == |frozen| + 1 && fs[|frozen|] == Atom(Stage(p, 0), [])
    && forall i :: 0 <= i < |frozen| ==> fs[i] == PlaceOf(frozen[i], g, p.unfreeze)
  }

  lemma PlaceName(p: Plan, g: Graph, freeze: map<nat, nat>, next: nat, a: Atom)
    requires NamesFrozen(freeze, p.unfreeze, p.base, next) && Covers(freeze, a)
    ensures var b := PlaceOf(Inner(freeze, a), g, p.unfreeze);
      b.args == a.args && b.rel.name < next &&
      b.rel == if Inner(freeze, a).rel in g then Inner(freeze, a).rel else a.rel
  {
  }

  lemma StartState(fs: seq<Atom>, p: Plan, g: Graph, freeze: map<nat, nat>, next: nat, facts: seq<Atom>,
        frozen: seq<Atom>, dom: nat)
    requires Placed(fs, p, g, frozen) && AtomsFrozen(freeze, facts, frozen, |facts|) && |frozen| == |facts|
    requires NamesFrozen(freeze, p.unfreeze, p.base, next) && next <= p.name && AtomsOk(facts, dom)
    ensures Unstarted(p, FactsDb(fs, dom)) && AtomsOk(fs, dom)
  {
    forall i | 0 <= i < |frozen| ensures fs[i].rel.name < p.name && AtomOk(fs[i], dom) {
      PlaceName(p, g, freeze, next, facts[i]);
    }
    forall u: Fact | u in FactsDb(fs, dom) && u.rel.name >= p.name ensures u.rel == Stage(p, 0) {
      var i :| 0 <= i < |fs| && Instance(fs[i], dom, u);
    }
    assert InstanceBy(fs[|frozen|], dom, Fact(Stage(p, 0), []), map[]);
    assert Instance(fs[|frozen|], dom, Fact(Stage(p, 0), []));
  }

  /** The inner relations of the plan are all relations with rules. */
  lemma AllPlaced(p: Plan, g: Graph, w: Rel)
    requires Levelled(p, g) && Union(p.levels) == g.Keys
    ensures w in Union(p.levels) <==> HasRules(p.rs, w)
  {
    assert w in g <==> HasRules(p.rs, w);
  }

  /** Once written back, the staged facts are the facts. */
  lemma StartWritten(fs: seq<Atom>, p: Plan, g: Graph, freeze: map<nat, nat>, next: nat, facts: seq<Atom>,
        frozen: seq<Atom>, dom: nat)
    requires Placed(fs, p, g, frozen) && AtomsFrozen(freeze, facts, frozen, |facts|) && |frozen| == |facts|
    requires NamesFrozen(freeze, p.unfreeze, p.base, next) && next <= p.name && PlanOk(p) && Union(p.levels) == g.Keys
    requires forall i :: 0 <= i < |facts| ==> facts[i].rel.name < p.base
    ensures Written(p, FactsDb(fs, dom)) == FactsDb(facts, dom)
  {
    var db := FactsDb(fs, dom);
    forall u: Fact ensures u in Written(p, db) <==> u in FactsDb(facts, dom) {
      CopiedPart(p, db, u);
      if i :| 0 <= i < |facts| && Instance(facts[i], dom, u) {
        InstanceRenamed(facts[i], facts[i], dom, u.args);
        WrittenFact(fs, p, g, freeze, next, facts, frozen, dom, i, u);
      }
      if u in Written(p, db) { FactWritten(fs, p, g, freeze, next, facts, frozen, dom, u); }
    }
  }

  lemma WrittenFact(fs: seq<Atom>, p: Plan, g: Graph, freeze: map<nat, nat>, next: nat, facts: seq<Atom>,
        frozen: seq<Atom>, dom: nat, i: nat, u: Fact)
    requires Placed(fs, p, g, frozen) && AtomsFrozen(freeze, facts, frozen, |facts|) && |frozen| == |facts|
    requires NamesFrozen(freeze, p.unfreeze, p.base, next) && next <= p.name && PlanOk(p) && Union(p.levels) == g.Keys
    requires i < |facts| && Instance(facts[i], dom, u) && u.rel == facts[i].rel && u.rel.name < p.base
    ensures u in Written(p, FactsDb(fs, dom))
  {
    var a, w := facts[i], Inner(freeze, facts[i]).rel;
    PlaceName(p, g, freeze, next, a);
    InstanceRenamed(a, fs[i], dom, u.args);
    var v := Fact(fs[i].rel, u.args);
    assert v in FactsDb(fs, dom) && v in Part(FactsDb(fs, dom), p.name);
    if w in g {
      assert Behind(p, w, u.rel);
      assert Copied(p, Part(FactsDb(fs, dom), p.name), u);
    } else {
      assert v == u;
      forall o ensures !Behind(p, o, u.rel) { if o.name in p.unfreeze && Outer(p, o) == u.rel { assert o == w; } }
    }
  }

  lemma FactWritten(fs: seq<Atom>, p: Plan, g: Graph, freeze: map<nat, nat>, next: nat, facts: seq<Atom>,
        frozen: seq<Atom>, dom: nat, u: Fact)
    requires Placed(fs, p, g, frozen) && AtomsFrozen(freeze, facts, frozen, |facts|) && |frozen| == |facts|
    requires NamesFrozen(freeze, p.unfreeze, p.base, next) && next <= p.name && PlanOk(p)
    requires forall i :: 0 <= i < |facts| ==> facts[i].rel.name < p.base
    requires u in Written(p, FactsDb(fs, dom))
    ensures u in FactsDb(facts, dom)
  {
    var d := Part(FactsDb(fs, dom), p.name);
    var v := u;
    if w :| Behind(p, w, u.rel) && Fact(w, u.args) in d {
      v := Fact(w, u.args);
      OnlyBehind(p, w, u.rel);
    }
    var i :| 0 <= i < |fs| && Instance(fs[i], dom, v);
    InstanceRenamed(fs[i], fs[i], dom, v.args);
    assert i < |frozen|;
    PlaceName(p, g, freeze, next, facts[i]);
    InstanceRenamed(fs[i], facts[i], dom, u.args);
    assert facts[i].rel == u.rel;
  }

  /** Two steps start the clock and write the facts back, and every cycle then makes one step of the program. */
  lemma Staged(out: seq<Rule>, p: Plan, nexts: map<Rel, nat>, g: Graph, prog: seq<Rule>, db: Db, dom: nat, n: nat)
    requires Ready(out, p, nexts, dom) && Levelled(p, g) && AllRulesBelow(prog, p.base) && RulesOk(prog, dom)
    requires Preserves(p, prog, dom) && DbOk(db, dom) && Unstarted(p, db)
    ensures Part(TmlRun(out, db, dom, Span(p, n) + 2), p.base) == TmlRun(prog, Written(p, db), dom, n)
  {
    var first := TmlStep(out, db, dom);
    C.TmlRunStep(out, db, dom, 0, 1);
    ClockStarts(out, p, nexts, db, dom);
    UnstartedPart(out, p, nexts, db, dom);
    C.TmlStepOk(out, db, dom);
    Cycles(out, p, nexts, g, prog, first, dom, n);
    var last := TmlRun(out, first, dom, Span(p, n));
    TmlRunAdd(out, db, dom, 1, Span(p, n), Span(p, n) + 1);
    C.TmlRunStep(out, db, dom, Span(p, n) + 1, Span(p, n) + 2);
    BackPart(out, p, nexts, last, dom);
    assert Part(TmlStep(out, last, dom), p.base) == Part(Part(TmlStep(out, last, dom), p.name), p.base);
  }

  // ----- without interdependencies

  /** The outer relations with copies of themselves inside. */
  ghost function Mirror(p: Plan, x: Db): Db {
    iset u: Fact | if u.rel in Union(p.levels)
      then u.rel.name in p.unfreeze && Fact(Outer(p, u.rel), u.args) in x
      else u in x
  }

  lemma MirrorMirrors(p: Plan, x: Db, dom: nat)
    requires PlanOk(p) && DbOk(x, dom)
    ensures Mirrored(p, Mirror(p, x)) && DbOk(Mirror(p, x), dom) && Part(Mirror(p, x), p.base) == Part(x, p.base)
  {
    forall u: Fact | u.rel in Union(p.levels) ensures MirroredAt(p, Mirror(p, x), u) {
      if u.rel.name in p.unfreeze { assert Outer(p, u.rel) !in Union(p.levels); }
    }
    forall u: Fact | u in Mirror(p, x) ensures FactOk(u, dom) {
      if u.rel in Union(p.levels) { assert FactOk(Fact(Outer(p, u.rel), u.args), dom); }
    }
  }

  /** The rules of a single level mention no relation with rules. */
  lemma SingleLevel(p: Plan, g: Graph, x: Db, e: Db, dom: nat, w: Rel, v: Rel)
    requires Levelled(p, g) && |p.levels| <= 1 && w in Union(p.levels) && Mentions(p.rs, w, v)
    requires Solves(p, Mirror(p, x), e, dom)
    ensures SameRel(x, e, v)
  {
    UnionIn(p.levels, w);
    UnionIn(p.levels, v);
    assert RankedAt(g, p.levels, 0, w);
    assert v in Union(p.levels) ==> RankedAt(g, p.levels, 0, v);
    assert v !in Union(p.levels);
    forall u: Fact | u.rel == v ensures u in x <==> u in e { assert SolvedAt(p, Mirror(p, x), e, dom, u) <==> u in e; }
  }

  /** A rule moved out derives for the outer relation what it derives for the inner one. */
  lemma ThawedFires(p: Plan, r: Rule, db: Db, dom: nat, w: Rel, u: Fact)
    requires PlanOk(p) && w.name in p.unfreeze && Outer(p, w) == u.rel && p.base <= r.head.rel.name
    ensures Fires(ThawedRule(p.unfreeze, r), db, dom, u) <==> Fires(r, db, dom, Fact(w, u.args))
  {
    forall env: Env
      ensures FiresWith(ThawedRule(p.unfreeze, r), db, dom, u, env) <==> FiresWith(r, db, dom, Fact(w, u.args), env)
    {
    }
  }

  ghost predicate ThawedFrom(out: seq<Rule>, p: Plan) {
    |out| == |p.rs| && forall i :: 0 <= i < |out| ==> out[i] == ThawedRule(p.unfreeze, p.rs[i])
  }

  lemma ThawedSigned(out: seq<Rule>, p: Plan, g: Graph, x: Db, e: Db, dom: nat, u: Fact, neg: bool)
    requires PlanOk(p) && Levelled(p, g) && Fine(p, g, dom) && |p.levels| <= 1 && Union(p.levels) == g.Keys
    requires ThawedFrom(out, p) && Solves(p, Mirror(p, x), e, dom) && u.rel.name < p.base
    ensures SomeSigned(out, neg, x, dom, u) <==> Through(p, neg, e, dom, u)
  {
    forall w | Behind(p, w, u.rel)
      ensures SomeSigned(p.rs, neg, x, dom, Fact(w, u.args)) <==> SomeSigned(p.rs, neg, e, dom, Fact(w, u.args))
    {
      forall v | Mentions(p.rs, w, v) ensures SameRel(x, e, v) { SingleLevel(p, g, x, e, dom, w, v); }
      SignedSameRels(p.rs, neg, x, e, dom, Fact(w, u.args));
    }
    if w :| Behind(p, w, u.rel) && SomeSigned(p.rs, neg, x, dom, Fact(w, u.args)) {
      var r :| r in p.rs && r.neg == neg && Fires(r, x, dom, Fact(w, u.args));
      var k :| 0 <= k < |p.rs| && p.rs[k] == r;
      ThawedFires(p, r, x, dom, w, u);
      assert out[k] in out;
    }
    if SomeSigned(out, neg, x, dom, u) { ThawedFrozen(out, p, g, x, dom, u, neg); }
  }

  lemma ThawedFrozen(out: seq<Rule>, p: Plan, g: Graph, x: Db, dom: nat, u: Fact, neg: bool)
    requires PlanOk(p) && Levelled(p, g) && Fine(p, g, dom) && Union(p.levels) == g.Keys
    requires ThawedFrom(out, p) && u.rel.name < p.base && SomeSigned(out, neg, x, dom, u)
    ensures exists w :: Behind(p, w, u.rel) && SomeSigned(p.rs, neg, x, dom, Fact(w, u.args))
  {
    var r :| r in out && r.neg == neg && Fires(r, x, dom, u);
    var k :| 0 <= k < |out| && out[k] == r;
    var w := p.rs[k].head.rel;
    AllPlaced(p, g, w);
    assert r.head.rel == u.rel && p.base <= w.name;
    assert Behind(p, w, u.rel);
    ThawedFires(p, p.rs[k], x, dom, w, u);
    assert p.rs[k] in p.rs;
  }

  /** When one level is all there is, a step of the rules moved out is a step of the program. */
  lemma Unstaged(out: seq<Rule>, p: Plan, g: Graph, prog: seq<Rule>, x: Db, dom: nat)
    requires PlanOk(p) && Levelled(p, g) && Fine(p, g, dom) && |p.levels| <= 1 && Union(p.levels) == g.Keys
    requires ThawedFrom(out, p) && AllRulesBelow(prog, p.base) && RulesOk(prog, dom) && Preserves(p, prog, dom)
    requires DbOk(x, dom)
    ensures Part(TmlStep(out, x, dom), p.base) == TmlStep(prog, Part(x, p.base), dom)
  {
    var d := Mirror(p, x);
    var e := Raise(p, d, dom, |p.levels|);
    MirrorMirrors(p, x, dom);
    RaiseSolves(p, g, d, dom);
    assert PreservesAt(p, prog, d, e, dom);
    var y := Part(x, p.base);
    assert Part(y, p.base) == y;
    forall u: Fact ensures u in Part(TmlStep(out, x, dom), p.base) <==> u in TmlStep(prog, y, dom) {
      InStep(out, x, dom, u);
      InStep(prog, y, dom, u);
      DerivedOk(prog, false, y, dom, u, p.base);
      if u.rel.name < p.base {
        forall neg: bool ensures SomeSigned(out, neg, x, dom, u) <==> SomeSigned(prog, neg, y, dom, u) {
          ThawedSigned(out, p, g, x, e, dom, u, neg);
          SignedPart(prog, neg, d, y, p.base, dom, u);
        }
      }
    }
  }

  lemma ThawedOk(out: seq<Rule>, p: Plan, dom: nat)
    requires ThawedFrom(out, p) && RulesOk(p.rs, dom)
    ensures RulesOk(out, dom)
  {
    forall i | 0 <= i < |out| ensures RuleOk(out[i], dom) { assert RuleOk(p.rs[i], dom); }
  }

  lemma {:induction false} UnstagedRun(out: seq<Rule>, p: Plan, g: Graph, prog: seq<Rule>, x: Db, dom: nat, n: nat)
    requires PlanOk(p) && Levelled(p, g) && Fine(p, g, dom) && |p.levels| <= 1 && Union(p.levels) == g.Keys
    requires ThawedFrom(out, p) && AllRulesBelow(prog, p.base) && RulesOk(prog, dom) && Preserves(p, prog, dom)
    requires DbOk(x, dom)
    ensures Part(TmlRun(out, x, dom, n), p.base) == TmlRun(prog, Part(x, p.base), dom, n)
    ensures DbOk(TmlRun(out, x, dom, n), dom)
  {
    if n > 0 {
      UnstagedRun(out, p, g, prog, x, dom, n - 1);
      ThawedOk(out, p, dom);
      Unstaged(out, p, g, prog, TmlRun(out, x, dom, n - 1), dom);
      C.TmlStepOk(out, TmlRun(out, x, dom, n - 1), dom);
    }
  }

  // ----- the whole transformation

  /** After so many steps of the result, its outer relations have made n steps of the program. */
  function StepsFor(p: Plan, n: nat): nat {
    if |p.levels| > 1 then Span(p, n) + 2 else n
  }

  ghost predicate Simulates(out: seq<Rule>, fs: seq<Atom>, p: Plan, prog: seq<Rule>, facts: seq<Atom>, dom: nat) {
    forall n: nat :: Part(TmlRun(out, FactsDb(fs, dom), dom, StepsFor(p, n)), p.base) ==
      TmlRun(prog, FactsDb(facts, dom), dom, n)
  }

  /** The rules are staged if there is more than one level, and moved out unchanged otherwise. */
  ghost predicate Sequenced(out: seq<Rule>, fs: seq<Atom>, p: Plan, g: Graph, nexts: map<Rel, nat>, frozen: seq<Atom>) {
    && Levelled(p, g) && Tight(g, p.levels) && AllFilled(p.levels) && (Union(p.levels) == g.Keys <==> !Cyclic(g))
    && if |p.levels| > 1 then IsStaged(out, p, nexts) && Placed(fs, p, g, frozen)
       else ThawedFrom(out, p) && AtomsThawed(fs, p, frozen)
  }

  ghost predicate AtomsThawed(fs: seq<Atom>, p: Plan, frozen: seq<Atom>) {
    |fs| == |frozen| && forall i :: 0 <= i < |fs| ==> fs[i] == Thawed(p.unfreeze, frozen[i])
  }

  /** Orders the relations by their dependencies. */
  method Order(p0: Plan) returns (p: Plan, g: Graph)
    ensures p == p0.(levels := p.levels) && Levelled(p, g) && Tight(g, p.levels) && AllFilled(p.levels)
    ensures Union(p.levels) == g.Keys <==> !Cyclic(g)
  {
    g := Dependencies(p0.rs);
    var levels := Kahn(g);
    p := p0.(levels := levels);
  }

  method StageAll(p: Plan, g: Graph, frozen: seq<Atom>, next: nat)
    returns (out: seq<Rule>, fs: seq<Atom>, ghost nexts: map<Rel, nat>)
    ensures IsStaged(out, p, nexts) && Placed(fs, p, g, frozen)
  {
    var heads, next' := FreshHeads(Union(p.levels), next);
    nexts := heads;
    hide IsStaged, PlaceOf, Union;
    out := Emit(p, heads);
    fs := PlaceFacts(frozen, g, p.unfreeze);
    fs := fs + [Atom(Stage(p, 0), [])];
  }

  /** Orders the rules, and stages them if some depend on others. */
  method Sequence(p0: Plan, frozen: seq<Atom>, next: nat)
    returns (out: seq<Rule>, fs: seq<Atom>, p: Plan, ghost g: Graph, ghost nexts: map<Rel, nat>)
    ensures p == p0.(levels := p.levels) && Sequenced(out, fs, p, g, nexts, frozen)
    ensures forall ors :: AllShaped(p.rs, ors) ==> AllShaped(out, ors)
  {
    hide Levelled, Tight, AllFilled, Cyclic, IsStaged, Placed, ThawedRule, Thawed, Union;
    var deps;
    p, deps := Order(p0);
    g, nexts := deps, map[];
    if |p.levels| > 1 {
      out, fs, nexts := StageAll(p, deps, frozen, next);
    } else {
      out, fs := ThawAll(p.rs, frozen, p.unfreeze);
    }
    forall ors | AllShaped(p.rs, ors) ensures AllShaped(out, ors) {
      SequencedShaped(out, fs, p, g, nexts, frozen, ors);
    }
  }

  /** Sequencing adds conditions and literals only, so bodies in normal form stay so. */
  lemma SequencedShaped(out: seq<Rule>, fs: seq<Atom>, p: Plan, g: Graph, nexts: map<Rel, nat>, frozen: seq<Atom>,
        ors: bool)
    requires Sequenced(out, fs, p, g, nexts, frozen) && AllShaped(p.rs, ors)
    ensures AllShaped(out, ors)
  {
    forall k | 0 <= k < |out| ensures D.Shaped(out[k].body, ors) {
      if |p.levels| > 1 {
        assert out[k] in out;
        StagedShaped(p, nexts, out[k], ors);
      } else {
        assert out[k].body == p.rs[k].body;
      }
    }
  }

  lemma StagedShaped(p: Plan, nexts: map<Rel, nat>, r: Rule, ors: bool)
    requires IsTick(r, p) || IsBack(r, p, nexts) || IsBody(r, p) || r in Starts(p)
    requires AllShaped(p.rs, ors)
    ensures D.Shaped(r.body, ors)
  {
    if r in Starts(p) {
      var s, t := Flag(Stage(p, 0)), Flag(Stage(p, 1));
      BothShaped(s, Not(t), ors);
      assert r == Starts(p)[0] || r == Starts(p)[1];
    } else if IsBody(r, p) {
      var i: nat, k: nat :| InLevel(p, i, k) && r == Body(p, i, k);
      BothShaped(p.rs[k].body, Flag(Clock(p, i + 1)), ors);
    } else if IsTick(r, p) {
      var i: nat :| 0 <= i <= |p.levels| && r in Ticks(p, i);
      assert D.Literal(Flag(Clock(p, i)));
      assert r == Ticks(p, i)[0] || r == Ticks(p, i)[1];
    } else {
      var w :| w in Union(p.levels) && w in nexts && r in CopyBack(p, w, nexts[w]);
      var inner, on := Lit(Atom(w, General(w, nexts[w]).args)), Flag(Clock(p, 0));
      BothShaped(inner, on, ors);
      BothShaped(Not(inner), on, ors);
    }
  }

  lemma BothShaped(f: Form, lit: Form, ors: bool)
    requires D.Shaped(f, ors) || D.Literal(f)
    requires D.Literal(lit)
    ensures D.Shaped(f, ors) && D.Shaped(Bin(And, f, lit), ors)
  {
    assert D.Shaped(lit, ors);
  }

  /** The transformation in between has left rules that are fine and mean the program. */
  ghost predicate Means(p: Plan, g: Graph, prog: seq<Rule>, facts: seq<Atom>, name: nat, dom: nat) {
    && RulesOk(prog, dom) && AtomsOk(facts, dom) && name <= p.name
    && Fine(p, g, dom) && Preserves(p, prog, dom)
  }

  /** Freezes a program, applies the transformation f to it, and sequences the result. If what f returns is fine and
      means the program, then the result runs the program, whether it is staged or not. */
  method Transform(prog: seq<Rule>, facts: seq<Atom>, f: (seq<Rule>, nat) -> (seq<Rule>, nat), base: nat, next: nat)
    returns (out: seq<Rule>, fs: seq<Atom>, p: Plan, ghost g: Graph, ghost frozen: seq<Rule>,
      ghost freeze: map<nat, nat>, ghost name: nat, ghost nexts: map<Rel, nat>, ghost fz: seq<Atom>)
    requires AllRulesBelow(prog, base) && forall i :: 0 <= i < |facts| ==> facts[i].rel.name < base
    ensures |frozen| == |prog| && RulesFrozen(freeze, prog, frozen, |prog|)
    ensures NamesFrozen(freeze, p.unfreeze, base, name)
    ensures p.rs == f(frozen, name).0 && p.name == f(frozen, name).1 && p.base == base
    ensures |fz| == |facts| && AtomsFrozen(freeze, facts, fz, |facts|) && Sequenced(out, fs, p, g, nexts, fz)
    ensures forall ors :: AllShaped(p.rs, ors) ==> AllShaped(out, ors)
    ensures forall dom :: Means(p, g, prog, facts, name, dom) ==> Simulates(out, fs, p, prog, facts, dom)
  {
    var rs, inner, unfreeze, nm;
    rs, inner, freeze, unfreeze, nm := Freeze(prog, facts, base);
    var (rs', name') := f(rs, nm);
    out, fs, p, g, nexts := Sequence(Plan(rs', [], unfreeze, base, name'), inner, next);
    frozen, name, fz := rs, nm, inner;
    forall dom | Means(p, g, prog, facts, name, dom) ensures Simulates(out, fs, p, prog, facts, dom) {
      SequencedSimulates(out, fs, p, g, nexts, freeze, nm, prog, facts, fz, dom);
    }
  }

  /** What has been sequenced runs the program. */
  lemma SequencedSimulates(out: seq<Rule>, fs: seq<Atom>, p: Plan, g: Graph, nexts: map<Rel, nat>,
        freeze: map<nat, nat>, next: nat, prog: seq<Rule>, facts: seq<Atom>, frozen: seq<Atom>, dom: nat)
    requires Sequenced(out, fs, p, g, nexts, frozen) && Means(p, g, prog, facts, next, dom)
    requires AllRulesBelow(prog, p.base)
    requires NamesFrozen(freeze, p.unfreeze, p.base, next) && AtomsFrozen(freeze, facts, frozen, |facts|)
    requires |frozen| == |facts|
    requires forall i :: 0 <= i < |facts| ==> facts[i].rel.name < p.base
    ensures Simulates(out, fs, p, prog, facts, dom)
  {
    PlanFine(p, g, freeze, next, dom);
    if |p.levels| > 1 {
      StagedSimulates(out, fs, p, g, nexts, freeze, next, prog, facts, frozen, dom);
    } else {
      UnstagedSimulates(out, fs, p, g, freeze, next, prog, facts, frozen, dom);
    }
  }

  lemma StagedSimulates(out: seq<Rule>, fs: seq<Atom>, p: Plan, g: Graph, nexts: map<Rel, nat>, freeze: map<nat, nat>,
        next: nat, prog: seq<Rule>, facts: seq<Atom>, frozen: seq<Atom>, dom: nat)
    requires IsStaged(out, p, nexts) && PlanOk(p) && Levelled(p, g) && Fine(p, g, dom) && Union(p.levels) == g.Keys
    requires 0 < |p.levels|
    requires |p.levels| > 1 && Placed(fs, p, g, frozen) && AtomsFrozen(freeze, facts, frozen, |facts|)
    requires |frozen| == |facts|
    requires NamesFrozen(freeze, p.unfreeze, p.base, next) && next <= p.name && AtomsOk(facts, dom)
    requires AllRulesBelow(prog, p.base) && RulesOk(prog, dom) && Preserves(p, prog, dom)
    requires forall i :: 0 <= i < |facts| ==> facts[i].rel.name < p.base
    ensures Simulates(out, fs, p, prog, facts, dom)
  {
    StagedOk(out, p, nexts, dom);
    StartState(fs, p, g, freeze, next, facts, frozen, dom);
    StartWritten(fs, p, g, freeze, next, facts, frozen, dom);
    FactsDbOk(fs, dom);
    forall n: nat
      ensures Part(TmlRun(out, FactsDb(fs, dom), dom, StepsFor(p, n)), p.base) ==
        TmlRun(prog, FactsDb(facts, dom), dom, n)
    {
      Staged(out, p, nexts, g, prog, FactsDb(fs, dom), dom, n);
    }
  }

  lemma UnstagedSimulates(out: seq<Rule>, fs: seq<Atom>, p: Plan, g: Graph, freeze: map<nat, nat>, next: nat,
    prog: seq<Rule>, facts: seq<Atom>, frozen: seq<Atom>, dom: nat)
    requires ThawedFrom(out, p) && PlanOk(p) && Levelled(p, g) && Fine(p, g, dom) && Union(p.levels) == g.Keys
    requires |p.levels| <= 1
    requires AtomsThawed(fs, p, frozen)
    requires AtomsFrozen(freeze, facts, frozen, |facts|) && |frozen| == |facts|
    requires NamesFrozen(freeze, p.unfreeze, p.base, next) && next <= p.name && AtomsOk(facts, dom)
    requires AllRulesBelow(prog, p.base) && RulesOk(prog, dom) && Preserves(p, prog, dom)
    requires forall i :: 0 <= i < |facts| ==> facts[i].rel.name < p.base
    ensures Simulates(out, fs, p, prog, facts, dom)
  {
    assert fs == facts;
    var db := FactsDb(facts, dom);
    FactsDbOk(facts, dom);
    forall u: Fact | u in db ensures u.rel.name < p.base {
      var i :| 0 <= i < |facts| && Instance(facts[i], dom, u);
    }
    assert Part(db, p.base) == db;
    forall n: nat
      ensures Part(TmlRun(out, db, dom, StepsFor(p, n)), p.base) == TmlRun(prog, db, dom, n)
    {
      UnstagedRun(out, p, g, prog, db, dom, n);
    }
  }
}
