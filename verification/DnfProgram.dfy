/** Compiling the formulas of a whole program, and running the result step by step. */
module DnfProgram {
  import opened Formula
  import opened Inlining
  import opened Pdatalog
  import opened Dnf
  import opened DnfShape
  import opened ToDnf
  import opened Levels
  import G = Staging
  import R = StagingRuns
  import M = StagingMeans
  import T = StepTransform

  // ----- all rules of a program

  /** Evaluating the rules adds facts of new relations only. */
  ghost predicate Adds(aux: seq<Rule>, name: nat, name': nat, dom: nat) {
    forall db :: NoneFrom(db, name) ==> AddsAt(aux, name, name', dom, db)
  }

  ghost predicate AddsAt(aux: seq<Rule>, name: nat, name': nat, dom: nat, db: Db) {
    Part(BottomUp(aux, db, dom), name) == db && NoneFrom(BottomUp(aux, db, dom), name')
  }

  /** After evaluating the rules the new formula means the old one. */
  ghost predicate Same(f: Form, f': Form, aux: seq<Rule>, name: nat, dom: nat) {
    forall db :: NoneFrom(db, name) ==> SameAt(f, f', aux, dom, db)
  }

  ghost predicate SameAt(f: Form, f': Form, aux: seq<Rule>, dom: nat, db: Db) {
    forall env: Env :: EnvBelow(env, dom) ==> (Eval(f', env, BottomUp(aux, db, dom), dom) <==> Eval(f, env, db, dom))
  }

  lemma AddsMore(t: Form, lit: Signed, aux: seq<Rule>, more: seq<Rule>, name: nat, m: nat, name': nat, dom: nat)
    requires Adds(aux, name, m, dom) && Converts(t, lit, more, m, name', dom) && name <= m
    ensures Adds(aux + more, name, name', dom)
  {
    forall db | NoneFrom(db, name) ensures AddsAt(aux + more, name, name', dom, db) {
      var d := BottomUp(aux, db, dom);
      assert AddsAt(aux, name, m, dom, db) && ConvertsAt(t, lit, more, m, name', dom, d);
      BottomUpJoined(aux, more, db, dom);
      PartBelow(BottomUp(more, d, dom), d, name, m);
    }
  }

  /** A formula already compiled keeps its meaning when more rules follow. */
  lemma SameMore(f: Form, f': Form, t: Form, lit: Signed, aux: seq<Rule>, more: seq<Rule>, name: nat, m: nat,
        name': nat, dom: nat)
    requires Same(f, f', aux, name, dom) && Adds(aux, name, m, dom) && Converts(t, lit, more, m, name', dom)
    requires NamesBelow(f', m) && name <= m
    ensures Same(f, f', aux + more, name, dom)
  {
    forall db | NoneFrom(db, name) ensures SameAt(f, f', aux + more, dom, db) {
      var d := BottomUp(aux, db, dom);
      assert AddsAt(aux, name, m, dom, db) && ConvertsAt(t, lit, more, m, name', dom, d) && SameAt(f, f', aux, dom, db);
      BottomUpJoined(aux, more, db, dom);
      PartAll(d, m);
      forall env: Env | EnvBelow(env, dom)
        ensures Eval(f', env, BottomUp(more, d, dom), dom) <==> Eval(f, env, db, dom)
      {
        EvalPart(f', env, BottomUp(more, d, dom), d, m, dom);
      }
    }
  }

  lemma SameNew(f: Form, lit: Signed, aux: seq<Rule>, more: seq<Rule>, name: nat, m: nat, name': nat, dom: nat)
    requires Adds(aux, name, m, dom) && Converts(f, lit, more, m, name', dom) && NamesBelow(f, name) && name <= m
    ensures Same(f, TermTree(lit), aux + more, name, dom)
  {
    forall db | NoneFrom(db, name) ensures SameAt(f, TermTree(lit), aux + more, dom, db) {
      var d := BottomUp(aux, db, dom);
      assert AddsAt(aux, name, m, dom, db) && ConvertsAt(f, lit, more, m, name', dom, d);
      BottomUpJoined(aux, more, db, dom);
      PartAll(db, name);
      forall env: Env | EnvBelow(env, dom)
        ensures Eval(TermTree(lit), env, BottomUp(more, d, dom), dom) <==> Eval(f, env, db, dom)
      {
        SignMeans(lit, env, BottomUp(more, d, dom), dom);
        EvalPart(f, env, d, db, name, dom);
      }
    }
  }

  /** The rule with its body compiled. */
  ghost predicate BodyDone(r: Rule, r': Rule, aux: seq<Rule>, low: nat, name: nat, name': nat, dom: nat) {
    && r'.head == r.head && r'.neg == r.neg && NamesBelow(r'.body, name')
    && Same(r.body, r'.body, aux, name, dom) && From(r'.body, aux, low, name, dom)
  }

  /** The variables of the head and the free variables of the body. */
  function RuleVars(r: Rule): set<nat> {
    ArgVars(r.head.args) + FreeVars(r.body)
  }

  ghost predicate AllSource(rs: seq<Rule>, low: nat, name: nat, next: nat, dom: nat) {
    forall k :: 0 <= k < |rs| ==> Source(rs[k].body, RuleVars(rs[k]), low, name, next, dom)
  }

  /** The rules from the i-th on have been compiled, the others not touched. */
  ghost predicate DoneFrom(rs: seq<Rule>, main: seq<Rule>, aux: seq<Rule>, i: nat, low: nat, name: nat, name': nat,
        dom: nat) {
    && |main| == |rs| && name <= name' && Adds(aux, name, name', dom) && Shape(aux, low, name, name', dom)
    && (forall k :: 0 <= k < i && k < |rs| ==> main[k] == rs[k])
    && (forall k :: i <= k < |rs| ==> BodyDone(rs[k], main[k], aux, low, name, name', dom))
  }

  lemma Untouched(rs: seq<Rule>, main: seq<Rule>, aux: seq<Rule>, i: nat, low: nat, name: nat, name': nat, dom: nat)
    requires DoneFrom(rs, main, aux, i + 1, low, name, name', dom) && i < |rs|
    requires NamesBelow(rs[i].body, low) && FormOk(rs[i].body, dom) && low <= name
    ensures DoneFrom(rs, main, aux, i, low, name, name', dom)
  {
    var f := rs[i].body;
    RelsBelow(f, low);
    TreeNames(f, low, name');
    TreeNames(f, low, name);
    forall db | NoneFrom(db, name) ensures SameAt(f, f, aux, dom, db) {
      assert AddsAt(aux, name, name', dom, db);
      PartAll(db, name);
      forall env: Env ensures Eval(f, env, BottomUp(aux, db, dom), dom) <==> Eval(f, env, db, dom) {
        EvalPart(f, env, BottomUp(aux, db, dom), db, name, dom);
      }
    }
    assert BodyDone(rs[i], main[i], aux, low, name, name', dom);
  }

  lemma Touched(rs: seq<Rule>, main: seq<Rule>, aux: seq<Rule>, i: nat, lit: Signed, more: seq<Rule>, low: nat,
        name: nat, m: nat, name': nat, dom: nat)
    requires DoneFrom(rs, main, aux, i + 1, low, name, m, dom) && i < |rs| && NamesBelow(rs[i].body, low) && low <= name
    requires Compiled(rs[i].body, lit, more, low, m, name', dom)
    ensures DoneFrom(rs, main[i := Rule(rs[i].neg, rs[i].head, TermTree(lit))], aux + more, i, low, name, name', dom)
  {
    hide Adds, Converts, Same, Shape, From;
    var f, f' := rs[i].body, TermTree(lit);
    var main' := main[i := Rule(rs[i].neg, rs[i].head, f')];
    AddsMore(f, lit, aux, more, name, m, name', dom);
    ShapeJoined(aux, more, low, name, m, name', dom);
    TreeNames(f, low, name);
    SameNew(f, lit, aux, more, name, m, name', dom);
    FromLater(lit.term, aux, more, low, name, m, dom);
    FromSigned(lit, aux + more, low, name, dom);
    forall k | i <= k < |rs| ensures BodyDone(rs[k], main'[k], aux + more, low, name, name', dom) {
      if k > i {
        assert BodyDone(rs[k], main[k], aux, low, name, m, dom);
        SameMore(rs[k].body, main[k].body, f, lit, aux, more, name, m, name', dom);
        FromMore(main[k].body, aux, more, low, name, dom);
        TreeNames(main[k].body, m, name');
      }
    }
  }

  lemma NothingDone(rs: seq<Rule>, low: nat, name: nat, dom: nat)
    requires low <= name
    ensures DoneFrom(rs, rs, [], |rs|, low, name, name, dom)
  {
    forall db | NoneFrom(db, name) ensures AddsAt([], name, name, dom, db) { PartAll(db, name); }
  }

  /** From the i-th rule on, bodies that were formulas have become literals, the others are as they were. */
  predicate FormsGone(rs: seq<Rule>, isForm: seq<bool>, main: seq<Rule>, i: nat) {
    |isForm| == |rs| == |main| &&
    forall k :: 0 <= k < |rs| ==> if i <= k && isForm[k] then Literal(main[k].body) else main[k].body == rs[k].body
  }

  /** If the bodies that are not formulas are free of quantifiers, implications and negations above a connective, so is
      everything compiled. */
  lemma CompiledShaped(rs: seq<Rule>, isForm: seq<bool>, main: seq<Rule>, aux: seq<Rule>, ors: bool)
    requires FormsGone(rs, isForm, main, 0) && AllShaped(aux, false)
    requires forall k :: 0 <= k < |rs| && !isForm[k] ==> Shaped(rs[k].body, ors)
    ensures AllShaped(main + aux, ors)
  {
    forall k | 0 <= k < |main + aux| ensures Shaped((main + aux)[k].body, ors) {
      if k < |main| { assert isForm[k] ==> Literal(main[k].body); }
      else { ShapedAnyway(aux[k - |main|].body, ors); }
    }
  }

  /** Compiles the bodies that are formulas, from the last rule to the first. */
  method CompileAll(rs: seq<Rule>, isForm: seq<bool>, name: nat, next: nat, ghost low: nat, ghost dom: nat)
    returns (main: seq<Rule>, aux: seq<Rule>, name': nat, next': nat)
    requires AllSource(rs, low, name, next, dom) && |isForm| == |rs| && low <= name
    ensures DoneFrom(rs, main, aux, 0, low, name, name', dom) && next <= next'
    ensures FormsGone(rs, isForm, main, 0) && AllShaped(aux, false)
  {
    hide DoneFrom, Compiled;
    main, aux, name', next' := rs, [], name, next;
    NothingDone(rs, low, name, dom);
    var i: nat := |rs|;
    while i > 0
      invariant i <= |rs| && next <= next' && name <= name' && DoneFrom(rs, main, aux, i, low, name, name', dom)
      invariant |main| == |rs| && FormsGone(rs, isForm, main, i) && AllShaped(aux, false)
    {
      i := i - 1;
      var r := rs[i];
      assert Source(r.body, RuleVars(r), low, name, next, dom);
      if isForm[i] {
        BelowMore(r.body, next, next');
        var lit, more, n, m := Compile(r.body, RuleVars(r), name', next', low, dom);
        Touched(rs, main, aux, i, lit, more, low, name, name', n, dom);
        CompiledNames(r.body, lit, more, low, name', n, dom);
        ShapedMore(aux, more, lit, r.head);
        assert Literal(TermTree(lit));
        main, aux, name', next' := main[i := Rule(r.neg, r.head, TermTree(lit))], aux + more, n, m;
      } else {
        Untouched(rs, main, aux, i, low, name, name', dom);
      }
    }
  }

  lemma CompiledNames(t: Form, lit: Signed, out: seq<Rule>, low: nat, name: nat, name': nat, dom: nat)
    requires Compiled(t, lit, out, low, name, name', dom)
    ensures name < name' && SignedOk(lit) && AllShaped(out, false)
  {
  }

  // ----- the fixed point of ordered rules

  /** Every relation with rules holds what its rules, read in e itself, derive. */
  ghost predicate Supported(aux: seq<Rule>, e: Db, dom: nat) {
    forall u: Fact :: HasRules(aux, u.rel) ==> (u in e <==> SomeFires(aux, e, dom, u))
  }

  lemma {:induction false} BottomUpFires(aux: seq<Rule>, db: Db, dom: nat, k: nat, u: Fact)
    requires k <= |aux|
    ensures u in BottomUp(aux[..k], db, dom) <==>
      u in db || exists j :: 0 <= j < k && FiresAfter(aux, db, dom, j, u)
  {
    if k > 0 {
      BottomUpFires(aux, db, dom, k - 1, u);
      assert aux[..k][..k - 1] == aux[..k - 1] && aux[..k][k - 1] == aux[k - 1];
      assert u in BottomUp(aux[..k], db, dom) <==>
        u in BottomUp(aux[..k - 1], db, dom) || FiresAfter(aux, db, dom, k - 1, u);
    }
  }

  /** The j-th rule derives the fact once the earlier ones have been evaluated. */
  ghost predicate FiresAfter(aux: seq<Rule>, db: Db, dom: nat, j: nat, u: Fact)
    requires j < |aux|
  {
    Fires(aux[j], BottomUp(aux[..j], db, dom), dom, u)
  }

  lemma FiresSameRels(r: Rule, d: Db, e: Db, dom: nat, u: Fact)
    requires forall v :: v in FormRels(r.body) ==> R.SameRel(d, e, v)
    ensures Fires(r, d, dom, u) == Fires(r, e, dom, u)
  {
    forall env: Env ensures FiresWith(r, d, dom, u, env) == FiresWith(r, e, dom, u, env) {
      R.EvalSameRels(r.body, env, d, e, dom);
    }
  }

  /** Rules evaluated in order reach what supports itself. */
  lemma {:induction false} Settled(aux: seq<Rule>, db: Db, e: Db, low: nat, name: nat, name': nat, dom: nat, k: nat,
        v: Rel)
    requires Shape(aux, low, name, name', dom) && Supported(aux, e, dom) && k <= |aux|
    requires NoneFrom(db, low) && forall w: Rel :: w.name < low ==> R.SameRel(db, e, w)
    requires v.name < low || (HasRules(aux, v) && !HasRules(aux[k..], v))
    ensures R.SameRel(BottomUp(aux[..k], db, dom), e, v)
    decreases k
  {
    forall u: Fact | u.rel == v ensures u in BottomUp(aux[..k], db, dom) <==> u in e {
      BottomUpFires(aux, db, dom, k, u);
      forall j | 0 <= j < |aux| && aux[j].head.rel == v
        ensures j < k && (FiresAfter(aux, db, dom, j, u) <==> Fires(aux[j], e, dom, u))
      {
        SettledRule(aux, low, name, name', dom, k, j, v);
        forall w | w in FormRels(aux[j].body) ensures R.SameRel(BottomUp(aux[..j], db, dom), e, w) {
          assert Earlier(aux, j, w, low, name);
          if w.name >= low {
            assert aux == aux[..j] + aux[j..];
            HasJoined(aux[..j], aux[j..], w);
          }
          Settled(aux, db, e, low, name, name', dom, j, w);
        }
        FiresSameRels(aux[j], BottomUp(aux[..j], db, dom), e, dom, u);
      }
      if v.name < low {
        assert R.SameRel(db, e, v);
        if HasRules(aux, v) { HasNames(aux, low, name, name', dom, v); }
      } else {
        assert u in e <==> SomeFires(aux, e, dom, u);
      }
    }
  }

  lemma HasAt(rs: seq<Rule>, k: nat, j: nat)
    requires k <= j < |rs|
    ensures HasRules(rs[k..], rs[j].head.rel)
  {
    assert rs[k..][j - k] == rs[j];
  }

  lemma SettledRule(aux: seq<Rule>, low: nat, name: nat, name': nat, dom: nat, k: nat, j: nat, v: Rel)
    requires Shape(aux, low, name, name', dom) && k <= |aux| && j < |aux| && aux[j].head.rel == v
    requires v.name < low || !HasRules(aux[k..], v)
    ensures j < k && GoodAt(aux, j, low, name, name', dom)
  {
    assert GoodAt(aux, j, low, name, name', dom);
    if j >= k { HasAt(aux, k, j); }
  }

  // ----- the compiled program means the program

  /** A program, its frozen rules and the names they got, the compiled rules that replace them and the new ones, the
      first name free for new relations, and the plan and dependencies they lead to. */
  datatype Job = Job(p: G.Plan, g: Graph, prog: seq<Rule>, frozen: seq<Rule>, freeze: map<nat, nat>,
    main: seq<Rule>, aux: seq<Rule>, name: nat, dom: nat)

  /** The plan of a program whose frozen rules have been compiled: the rules that replace them, and the new ones. */
  ghost predicate IsDnf(c: Job) {
    && |c.main| == |c.frozen| == |c.prog| && T.RulesFrozen(c.freeze, c.prog, c.frozen, |c.prog|)
    && T.NamesFrozen(c.freeze, c.p.unfreeze, c.p.base, c.name) && c.p.base <= c.name
    && AllRulesBelow(c.prog, c.p.base) && RulesOk(c.prog, c.dom)
    && DoneFrom(c.frozen, c.main, c.aux, 0, c.p.base, c.name, c.p.name, c.dom) && c.p.rs == c.main + c.aux
  }

  /** The k-th rule compiled: the head of an inner relation over the compiled body. */
  lemma MainRule(c: Job, k: nat)
    requires IsDnf(c) && k < |c.prog|
    ensures BodyDone(c.frozen[k], c.main[k], c.aux, c.p.base, c.name, c.p.name, c.dom)
    ensures c.prog[k].head.rel.name in c.freeze && c.prog[k].head.rel.name < c.p.base && RuleOk(c.prog[k], c.dom)
    ensures c.main[k].neg == c.prog[k].neg && c.frozen[k].body == c.prog[k].body && NamesBelow(c.prog[k].body, c.p.base)
    ensures c.main[k].head == T.Inner(c.freeze, c.prog[k].head) && c.p.base <= c.main[k].head.rel.name < c.name
  {
    assert BodyDone(c.frozen[k], c.main[k], c.aux, c.p.base, c.name, c.p.name, c.dom);
    assert T.Covers(c.freeze, c.prog[k].head) && RuleBelow(c.prog[k], c.p.base);
  }

  lemma AuxRule(c: Job, k: nat)
    requires IsDnf(c) && k < |c.aux|
    ensures GoodAt(c.aux, k, c.p.base, c.name, c.p.name, c.dom)
    ensures c.name <= c.aux[k].head.rel.name < c.p.name && !c.aux[k].neg && RuleOk(c.aux[k], c.dom)
    ensures forall v :: v in FormRels(c.aux[k].body) ==> v.name < c.p.base || (c.name <= v.name && HasRules(c.aux, v))
  {
    assert GoodAt(c.aux, k, c.p.base, c.name, c.p.name, c.dom);
    forall v | v in FormRels(c.aux[k].body) ensures v.name < c.p.base || (c.name <= v.name && HasRules(c.aux, v)) {
      assert Earlier(c.aux, k, v, c.p.base, c.name);
      assert c.aux == c.aux[..k] + c.aux[k..];
      HasJoined(c.aux[..k], c.aux[k..], v);
    }
  }

  lemma {:induction false} RelsNames(f: Form, n: nat)
    requires forall v :: v in FormRels(f) ==> v.name < n
    ensures NamesBelow(f, n)
  {
    match f
    case Lit(a) => assert a.rel in FormRels(f);
    case Equal(_, _) =>
    case Not(g) => RelsNames(g, n);
    case Bin(_, l, r) => RelsNames(l, n); RelsNames(r, n);
    case Quant(_, _, g) => RelsNames(g, n);
  }

  /** The compiled rules wait for each other in no circle. */
  lemma NoCircle(c: Job)
    requires IsDnf(c) && IsGraph(c.g, c.p.rs)
    ensures !Cyclic(c.g)
  {
    hide IsDnf, IsGraph;
    if s: set<Rel> :| s != {} && Circle(c.g, s) {
      var w :| w in s;
      var v :| v in c.g[w] * s;
      Needed(c, w, v);
      assert c.aux[|c.aux|..] == [];
      NoneIn(c, s, v, |c.aux|);
    }
  }

  /** Only new relations are needed, and a new relation needs earlier ones. */
  lemma Needed(c: Job, w: Rel, v: Rel)
    requires IsDnf(c) && IsGraph(c.g, c.p.rs) && w in c.g && v in c.g[w]
    ensures HasRules(c.aux, v)
    ensures HasRules(c.aux, w) ==> exists k :: 0 <= k < |c.aux| && c.aux[k].head.rel == w && !HasRules(c.aux[k..], v)
  {
    assert Mentions(c.p.rs, w, v) && HasRules(c.p.rs, v);
    var i :| 0 <= i < |c.p.rs| && c.p.rs[i].head.rel == w && v in FormRels(c.p.rs[i].body);
    HeadsNotBelow(c, v);
    if i < |c.main| {
      MainRule(c, i);
      if HasRules(c.aux, w) { HasNames(c.aux, c.p.base, c.name, c.p.name, c.dom, w); }
    } else {
      var k := i - |c.main|;
      AuxRule(c, k);
      assert Earlier(c.aux, k, v, c.p.base, c.name);
    }
  }

  lemma HeadsNotBelow(c: Job, v: Rel)
    requires IsDnf(c) && HasRules(c.p.rs, v)
    ensures c.p.base <= v.name < c.p.name && (HasRules(c.aux, v) <==> c.name <= v.name)
  {
    var i :| 0 <= i < |c.p.rs| && c.p.rs[i].head.rel == v;
    if i < |c.main| {
      MainRule(c, i);
      if HasRules(c.aux, v) { HasNames(c.aux, c.p.base, c.name, c.p.name, c.dom, v); }
    } else {
      AuxRule(c, i - |c.main|);
      assert c.aux[i - |c.main|].head.rel == v;
    }
  }

  lemma {:induction false} NoneIn(c: Job, s: set<Rel>, w: Rel, n: nat)
    requires IsDnf(c) && IsGraph(c.g, c.p.rs) && Circle(c.g, s)
    requires n <= |c.aux| && HasRules(c.aux, w) && !HasRules(c.aux[n..], w)
    ensures w !in s
    decreases n
  {
    hide HasRules, IsDnf, IsGraph;
    if w in s {
      var v :| v in c.g[w] * s;
      Needed(c, w, v);
      var k :| 0 <= k < |c.aux| && c.aux[k].head.rel == w && !HasRules(c.aux[k..], v);
      if k >= n { HasAt(c.aux, n, k); }
      NoneIn(c, s, v, k);
    }
  }

  /** Compiled rules are fine to sequence. */
  lemma DnfFine(c: Job)
    requires IsDnf(c) && IsGraph(c.g, c.p.rs)
    ensures T.Fine(c.p, c.g, c.dom)
  {
    NoCircle(c);
    forall i | 0 <= i < |c.p.rs|
      ensures RuleBelow(c.p.rs[i], c.p.name) && RuleOk(c.p.rs[i], c.dom) && c.p.base <= c.p.rs[i].head.rel.name
    {
      if i < |c.main| {
        MainRule(c, i);
      } else {
        var k := i - |c.main|;
        AuxRule(c, k);
        forall v | v in FormRels(c.aux[k].body) ensures v.name < c.p.name {
          if v.name >= c.p.base { HasNames(c.aux, c.p.base, c.name, c.p.name, c.dom, v); }
        }
        RelsNames(c.aux[k].body, c.p.name);
      }
    }
  }

  /** Every relation with rules is on some level. */
  ghost predicate Placed(c: Job) {
    R.Levelled(c.p, c.g) && Union(c.p.levels) == c.g.Keys
  }

  /** e solves the rules over a database that has just been written back. */
  ghost predicate Solution(c: Job, d: Db, e: Db) {
    M.Mirrored(c.p, d) && R.Solves(c.p, d, e, c.dom)
  }

  /** In a solution the new relations are what evaluating their rules in order gives. */
  lemma AuxSettled(c: Job, d: Db, e: Db, v: Rel)
    requires IsDnf(c) && Placed(c)
    requires Solution(c, d, e) && (v.name < c.p.base || HasRules(c.aux, v))
    ensures R.SameRel(BottomUp(c.aux, Part(d, c.p.base), c.dom), e, v)
  {
    var db := Part(d, c.p.base);
    forall u: Fact | HasRules(c.aux, u.rel) ensures u in e <==> SomeFires(c.aux, e, c.dom, u) {
      AuxSupported(c, d, e, u);
    }
    forall w: Rel | w.name < c.p.base ensures R.SameRel(db, e, w) {
      OuterKept(c, d, e, w);
    }
    assert c.aux[..|c.aux|] == c.aux && c.aux[|c.aux|..] == [];
    Settled(c.aux, db, e, c.p.base, c.name, c.p.name, c.dom, |c.aux|, v);
  }

  lemma OuterKept(c: Job, d: Db, e: Db, w: Rel)
    requires IsDnf(c) && Placed(c)
    requires R.Solves(c.p, d, e, c.dom) && w.name < c.p.base
    ensures R.SameRel(Part(d, c.p.base), e, w)
  {
    T.AllPlaced(c.p, c.g, w);
    if HasRules(c.p.rs, w) { HeadsNotBelow(c, w); }
    hide IsDnf, Placed;
    forall u: Fact | u.rel == w
      ensures u in Part(d, c.p.base) <==> u in e
    {
      assert u in e <==> R.SolvedAt(c.p, d, e, c.dom, u);
    }
  }

  lemma AuxSupported(c: Job, d: Db, e: Db, u: Fact)
    requires IsDnf(c) && Placed(c)
    requires Solution(c, d, e) && HasRules(c.aux, u.rel)
    ensures u in e <==> SomeFires(c.aux, e, c.dom, u)
  {
    HasNames(c.aux, c.p.base, c.name, c.p.name, c.dom, u.rel);
    HasJoined(c.main, c.aux, u.rel);
    T.AllPlaced(c.p, c.g, u.rel);
    assert u.rel.name !in c.p.unfreeze && M.MirroredAt(c.p, d, u);
    assert u in e <==> R.SolvedAt(c.p, d, e, c.dom, u);
    AuxSigned(c, e, u);
  }

  lemma AuxSigned(c: Job, e: Db, u: Fact)
    requires IsDnf(c) && u.rel.name >= c.name
    ensures SomeSigned(c.p.rs, false, e, c.dom, u) <==> SomeFires(c.aux, e, c.dom, u)
    ensures !SomeSigned(c.p.rs, true, e, c.dom, u)
  {
    forall r | r in c.p.rs && Fires(r, e, c.dom, u) ensures !r.neg && SomeFires(c.aux, e, c.dom, u) {
      var i :| 0 <= i < |c.p.rs| && c.p.rs[i] == r;
      if i < |c.main| {
        MainRule(c, i);
      } else {
        AuxRule(c, i - |c.main|);
        assert c.aux[i - |c.main|] == r;
      }
    }
    if k :| 0 <= k < |c.aux| && Fires(c.aux[k], e, c.dom, u) {
      AuxRule(c, k);
      var i := |c.main| + k;
      assert c.p.rs[i] == c.aux[k];
    }
  }

  /** A compiled rule derives for the inner relation what the rule derives for the outer one. */
  lemma MainFires(c: Job, d: Db, e: Db, k: nat, w: Rel, u: Fact)
    requires IsDnf(c) && Placed(c)
    requires Solution(c, d, e) && k < |c.prog| && G.Behind(c.p, w, u.rel)
    ensures Fires(c.main[k], e, c.dom, Fact(w, u.args)) <==> Fires(c.prog[k], d, c.dom, u)
  {
    MainRule(c, k);
    var db, f := Part(d, c.p.base), c.main[k].body;
    assert Part(db, c.p.base) == db;
    forall v | v in FormRels(f) ensures R.SameRel(BottomUp(c.aux, db, c.dom), e, v) {
      AuxSettled(c, d, e, v);
    }
    forall env: Env | EnvBelow(env, c.dom) ensures Eval(f, env, e, c.dom) <==> Eval(c.prog[k].body, env, d, c.dom) {
      R.EvalSameRels(f, env, BottomUp(c.aux, db, c.dom), e, c.dom);
      assert SameAt(c.frozen[k].body, f, c.aux, c.dom, db);
      EvalPart(c.prog[k].body, env, db, d, c.p.base, c.dom);
    }
    assert c.main[k].head.rel == w <==> c.prog[k].head.rel == u.rel;
    hide IsDnf, Eval, Solution, Placed;
    forall env: Env
      ensures FiresWith(c.main[k], e, c.dom, Fact(w, u.args), env) <==> FiresWith(c.prog[k], d, c.dom, u, env)
    {
    }
  }

  /** The compiled program means the program. */
  lemma DnfPreserves(c: Job)
    requires IsDnf(c) && Placed(c)
    ensures M.Preserves(c.p, c.prog, c.dom)
  {
    forall d, e | DbOk(d, c.dom) && Solution(c, d, e) ensures M.PreservesAt(c.p, c.prog, d, e, c.dom) {
      forall u: Fact, neg: bool | u.rel.name < c.p.base
        ensures SomeSigned(c.prog, neg, d, c.dom, u) <==> M.Through(c.p, neg, e, c.dom, u)
      {
        if SomeSigned(c.prog, neg, d, c.dom, u) {
          ThroughIf(c, d, e, u, neg);
        }
        if M.Through(c.p, neg, e, c.dom, u) {
          ThroughOnly(c, d, e, u, neg);
        }
      }
    }
  }

  lemma ThroughIf(c: Job, d: Db, e: Db, u: Fact, neg: bool)
    requires IsDnf(c) && Placed(c)
    requires Solution(c, d, e) && SomeSigned(c.prog, neg, d, c.dom, u)
    ensures M.Through(c.p, neg, e, c.dom, u)
  {
    var r :| r in c.prog && r.neg == neg && Fires(r, d, c.dom, u);
    var k :| 0 <= k < |c.prog| && c.prog[k] == r;
    MainRule(c, k);
    var w := c.main[k].head.rel;
    assert c.p.rs[k] == c.main[k] && HasRules(c.p.rs, w);
    T.AllPlaced(c.p, c.g, w);
    assert u.rel == r.head.rel && G.Behind(c.p, w, u.rel);
    MainFires(c, d, e, k, w, u);
    assert SomeSigned(c.p.rs, neg, e, c.dom, Fact(w, u.args));
  }

  lemma ThroughOnly(c: Job, d: Db, e: Db, u: Fact, neg: bool)
    requires IsDnf(c) && Placed(c)
    requires Solution(c, d, e) && M.Through(c.p, neg, e, c.dom, u)
    ensures SomeSigned(c.prog, neg, d, c.dom, u)
  {
    var i, w := ThroughRule(c.p, neg, e, c.dom, u);
    AuxSilent(c, e, u, w);
    InMain(c, e, i, Fact(w, u.args));
    hide IsDnf, Placed, Solution, Fires, SomeSigned, M.Through, G.Behind;
    MainThrough(c, d, e, u, i, w);
  }

  /** The rules of new relations derive nothing for an inner relation with an outer one. */
  lemma AuxSilent(c: Job, e: Db, u: Fact, w: Rel)
    requires IsDnf(c) && G.Behind(c.p, w, u.rel)
    ensures forall k :: 0 <= k < |c.aux| ==> !Fires(c.aux[k], e, c.dom, Fact(w, u.args))
  {
    forall k | 0 <= k < |c.aux| ensures !Fires(c.aux[k], e, c.dom, Fact(w, u.args)) {
      NotInner(c, k);
    }
  }

  lemma InMain(c: Job, e: Db, i: nat, u: Fact)
    requires IsDnf(c) && i < |c.p.rs| && Fires(c.p.rs[i], e, c.dom, u)
    requires forall k :: 0 <= k < |c.aux| ==> !Fires(c.aux[k], e, c.dom, u)
    ensures i < |c.main| && c.main[i] == c.p.rs[i]
  {
    assert c.p.rs == c.main + c.aux;
    hide IsDnf, Fires;
  }

  /** The rule and the inner relation through which a fact is derived. */
  lemma ThroughRule(p: G.Plan, neg: bool, e: Db, dom: nat, u: Fact) returns (i: nat, w: Rel)
    requires M.Through(p, neg, e, dom, u)
    ensures i < |p.rs| && G.Behind(p, w, u.rel) && p.rs[i].neg == neg && Fires(p.rs[i], e, dom, Fact(w, u.args))
  {
    w :| G.Behind(p, w, u.rel) && SomeSigned(p.rs, neg, e, dom, Fact(w, u.args));
    hide G.Behind, Fires;
    var r :| r in p.rs && r.neg == neg && Fires(r, e, dom, Fact(w, u.args));
    i :| 0 <= i < |p.rs| && p.rs[i] == r;
  }

  lemma MainThrough(c: Job, d: Db, e: Db, u: Fact, i: nat, w: Rel)
    requires IsDnf(c) && Placed(c) && Solution(c, d, e) && G.Behind(c.p, w, u.rel)
    requires i < |c.main| && Fires(c.main[i], e, c.dom, Fact(w, u.args))
    ensures SomeSigned(c.prog, c.main[i].neg, d, c.dom, u)
  {
    MainRule(c, i);
    MainFires(c, d, e, i, w, u);
    hide IsDnf, Placed, Solution, Fires;
    assert c.prog[i] in c.prog;
  }

  lemma NotInner(c: Job, k: nat)
    requires IsDnf(c) && k < |c.aux|
    ensures c.aux[k].head.rel.name !in c.p.unfreeze
  {
    AuxRule(c, k);
  }

  // ----- the whole pipeline

  /** The bodies that are not compiled are free of quantifiers, implications, co-implications and negations above a
      connective, and of disjunctions unless these are allowed. */
  predicate OthersShaped(prog: seq<Rule>, isForm: seq<bool>, ors: bool)
    requires |isForm| == |prog|
  {
    forall k :: 0 <= k < |prog| && !isForm[k] ==> Shaped(prog[k].body, ors)
  }

  lemma FrozenSource(prog: seq<Rule>, frozen: seq<Rule>, freeze: map<nat, nat>, base: nat, name: nat, next: nat,
        dom: nat)
    requires T.RulesFrozen(freeze, prog, frozen, |prog|) && |frozen| == |prog| && base <= name
    requires AllRulesBelow(prog, base) && RulesOk(prog, dom) && RulesBelow(prog, next)
    ensures AllSource(frozen, base, name, next, dom)
  {
    forall k | 0 <= k < |frozen| ensures Source(frozen[k].body, RuleVars(frozen[k]), base, name, next, dom) {
      assert frozen[k].body == prog[k].body && RuleBelow(prog[k], base) && RuleOk(prog[k], dom);
    }
  }

  /** Compiles the formulas of a program and stages the result, which then runs the program: after the start, every
      cycle of the clock takes the outer relations one step further. */
  method StepDnf(prog: seq<Rule>, isForm: seq<bool>, facts: seq<Atom>, base: nat, next: nat, ghost dom: nat)
    returns (out: seq<Rule>, fs: seq<Atom>, p: G.Plan, ghost c: Job, ghost nexts: map<Rel, nat>, ghost fz: seq<Atom>)
    requires AllRulesBelow(prog, base) && RulesOk(prog, dom) && RulesBelow(prog, next) && |isForm| == |prog|
    requires T.AtomsOk(facts, dom) && forall i :: 0 <= i < |facts| ==> facts[i].rel.name < base
    ensures T.Simulates(out, fs, p, prog, facts, dom) && p.base == base
    ensures IsDnf(c) && c.p == p && c.prog == prog && FormsGone(c.frozen, isForm, c.main, 0) && AllShaped(c.aux, false)
    ensures T.Sequenced(out, fs, p, c.g, nexts, fz) && Union(p.levels) == c.g.Keys
    ensures forall ors :: OthersShaped(prog, isForm, ors) ==> AllShaped(out, ors)
  {
    var rs, inner, unfreeze, name;
    ghost var freeze, g;
    rs, inner, freeze, unfreeze, name := T.Freeze(prog, facts, base);
    FrozenSource(prog, rs, freeze, base, name, next, dom);
    var main, aux, name', next' := CompileAll(rs, isForm, name, next, base, dom);
    out, fs, p, g, nexts := T.Sequence(G.Plan(main + aux, [], unfreeze, base, name'), inner, next');
    c, fz := Job(p, g, prog, rs, freeze, main, aux, name, dom), inner;
    assert IsDnf(c);
    DnfFine(c);
    DnfPreserves(c);
    T.SequencedSimulates(out, fs, p, g, nexts, freeze, name, prog, facts, fz, dom);
    forall ors | OthersShaped(prog, isForm, ors) ensures AllShaped(out, ors) {
      CompiledShaped(rs, isForm, main, aux, ors);
    }
  }
}
