/** Rules with formulas in disjunctive normal form, as the rules of the tables: the same steps. */
module TableRules {
  import opened Formula
  import I = Inlining
  import P = Pdatalog
  import B = Dnf
  import D = Datalog
  import C = DatalogCompile
  import S = DatalogStep

  // ----- the translation

  /** Variables become negative numbers. */
  function NameOf(v: nat): int {
    -1 - v
  }

  function VarOf(x: int): (v: nat)
    requires x < 0
    ensures NameOf(v) == x
  {
    -1 - x
  }

  function FromArg(x: Arg): int {
    match x case Var(v) => NameOf(v) case Sym(c) => c
  }

  function FromArgs(args: seq<Arg>): seq<int> {
    seq(|args|, i requires 0 <= i < |args| => FromArg(args[i]))
  }

  predicate TermIn(s: B.Signed, order: seq<Rel>) {
    B.SignedOk(s) && (s.term.Lit? ==> s.term.a.rel in order)
  }

  function FromTerm(s: B.Signed, order: seq<Rel>): D.Term
    requires TermIn(s, order)
  {
    match s.term
    case Lit(a) => D.Rel(s.neg, P.Index(order, a.rel), FromArgs(a.args))
    case Equal(x, y) => D.Eq(s.neg, FromArg(x), FromArg(y))
  }

  predicate ConjIn(c: seq<B.Signed>, order: seq<Rel>) {
    forall i :: 0 <= i < |c| ==> TermIn(c[i], order)
  }

  function FromConj(c: seq<B.Signed>, order: seq<Rel>): seq<D.Term>
    requires ConjIn(c, order)
  {
    seq(|c|, i requires 0 <= i < |c| => FromTerm(c[i], order))
  }

  predicate BodyIn(b: B.Body, order: seq<Rel>) {
    forall i :: 0 <= i < |b| ==> ConjIn(b[i], order)
  }

  /** The body is in disjunctive normal form over the relations of the tables. */
  predicate RuleIn(r: I.Rule, order: seq<Rel>) {
    r.head.rel in order && B.GetBody(r.body).Some? && BodyIn(B.GetBody(r.body).value, order)
  }

  predicate RulesIn(rs: seq<I.Rule>, order: seq<Rel>) {
    forall i :: 0 <= i < |rs| ==> RuleIn(rs[i], order)
  }

  function FromRule(r: I.Rule, order: seq<Rel>): D.Rule
    requires RuleIn(r, order)
  {
    var b := B.GetBody(r.body).value;
    D.Rule(D.Head(r.neg, P.Index(order, r.head.rel), FromArgs(r.head.args)),
      seq(|b|, i requires 0 <= i < |b| => FromConj(b[i], order)))
  }

  function FromRules(rs: seq<I.Rule>, order: seq<Rel>): seq<D.Rule>
    requires RulesIn(rs, order)
  {
    seq(|rs|, i requires 0 <= i < |rs| => FromRule(rs[i], order))
  }

  /** The facts in the tables. */
  ghost function Facts(order: seq<Rel>, db: D.DB): Db {
    iset u: Fact | u.rel in order && u.args in D.Contents(db, P.Index(order, u.rel))
  }

  lemma IndexOf(order: seq<Rel>, t: nat)
    requires P.Ordered(order) && t < |order|
    ensures order[t] in order && P.Index(order, order[t]) == t
  {
    assert order[P.Index(order, order[t])] == order[t];
  }

  // ----- environments and substitutions

  /** Both give the variables among the arguments the same values. */
  ghost predicate Agree(env: Env, s: D.Sub, args: seq<Arg>) {
    forall x :: x in args && x.Var? ==> FromArg(x) in s && s[FromArg(x)] == Get(env, x.v)
  }

  lemma AgreeValues(env: Env, s: D.Sub, args: seq<Arg>)
    requires Agree(env, s, args)
    ensures D.Covers(s, FromArgs(args)) && D.Inst(s, FromArgs(args)) == Values(args, env)
  {
    forall i | 0 <= i < |args|
      ensures FromArgs(args)[i] < 0 ==> FromArgs(args)[i] in s
      ensures FromArgs(args)[i] < 0 ==> s[FromArgs(args)[i]] == Value(args[i], env)
    {
      assert args[i] in args;
    }
  }

  function TermArgs(s: B.Signed): seq<Arg>
    requires B.SignedOk(s)
  {
    match s.term
    case Lit(a) => a.args
    case Equal(x, y) => [x, y]
  }

  lemma AgreeTerm(env: Env, s: D.Sub, t: B.Signed, order: seq<Rel>, db: D.DB, dom: nat)
    requires TermIn(t, order) && Agree(env, s, TermArgs(t))
    ensures var d := FromTerm(t, order);
      D.Covers(s, d.Arguments()) && (D.Holds(d, s, db) <==> Eval(t.term, env, Facts(order, db), dom) != t.neg)
  {
    AgreeValues(env, s, TermArgs(t));
    match t.term
    case Lit(a) =>
      assert FromTerm(t, order).Arguments() == FromArgs(a.args);
    case Equal(x, y) =>
      assert x in [x, y] && y in [x, y];
      var d := FromTerm(t, order);
      assert d.Arguments() == FromArgs([x, y]);
      assert D.Val(s, d.x) == Value(x, env) && D.Val(s, d.y) == Value(y, env);
  }

  ghost predicate AgreeConj(env: Env, s: D.Sub, c: seq<B.Signed>, order: seq<Rel>)
    requires ConjIn(c, order)
  {
    forall i :: 0 <= i < |c| ==> Agree(env, s, TermArgs(c[i]))
  }

  lemma ConjSame(env: Env, s: D.Sub, c: seq<B.Signed>, order: seq<Rel>, db: D.DB, dom: nat)
    requires ConjIn(c, order) && AgreeConj(env, s, c, order)
    ensures var al := FromConj(c, order);
      D.CoversAll(s, al) && (D.AllHold(al, s, db) <==> B.ConjHolds(c, env, Facts(order, db), dom))
  {
    var al := FromConj(c, order);
    forall i | 0 <= i < |c|
      ensures D.Covers(s, al[i].Arguments())
      ensures D.Holds(al[i], s, db) <==> Eval(c[i].term, env, Facts(order, db), dom) != c[i].neg
    {
      AgreeTerm(env, s, c[i], order, db, dom);
    }
    if D.AllHold(al, s, db) {
      forall i | 0 <= i < |c| ensures Eval(c[i].term, env, Facts(order, db), dom) != c[i].neg { assert al[i] in al; }
    }
  }

  /** The variables of an environment with these names, as a substitution. */
  ghost function SubFrom(env: Env, names: set<int>): D.Sub {
    map x | x in names && x < 0 :: Get(env, VarOf(x))
  }

  ghost function VarNames(s: D.Sub): set<nat> {
    set x | x in s && x < 0 :: VarOf(x)
  }

  ghost function EnvFrom(s: D.Sub): Env {
    map v | v in VarNames(s) :: s[NameOf(v)]
  }

  lemma EnvFromAgrees(s: D.Sub, args: seq<Arg>, dom: nat)
    requires D.InDomain(s, dom) && D.Covers(s, FromArgs(args))
    ensures Agree(EnvFrom(s), s, args) && I.EnvBelow(EnvFrom(s), dom)
  {
    forall x | x in args && x.Var? ensures FromArg(x) in s && s[FromArg(x)] == Get(EnvFrom(s), x.v) {
      var i :| 0 <= i < |args| && args[i] == x;
      assert FromArgs(args)[i] == NameOf(x.v) && VarOf(NameOf(x.v)) == x.v;
      assert NameOf(x.v) in FromArgs(args);
      assert x.v in VarNames(s);
    }
  }

  lemma SubFromAgrees(env: Env, names: set<int>, args: seq<Arg>, dom: nat)
    requires I.EnvBelow(env, dom) && dom > 0 && forall x :: x in FromArgs(args) ==> x in names
    ensures Agree(env, SubFrom(env, names), args) && D.InDomain(SubFrom(env, names), dom)
  {
    forall x | x in args && x.Var? ensures FromArg(x) in SubFrom(env, names) {
      var i :| 0 <= i < |args| && args[i] == x;
      assert FromArgs(args)[i] in FromArgs(args);
    }
  }

  ghost function Names(h: seq<int>, al: seq<D.Term>): set<int> {
    (set x | x in h) + (set t, x | t in al && x in t.Arguments() :: x)
  }

  // ----- rules

  lemma TermNames(c: seq<B.Signed>, order: seq<Rel>, i: nat)
    requires ConjIn(c, order) && i < |c|
    ensures FromConj(c, order)[i].Arguments() == FromArgs(TermArgs(c[i]))
  {
    if c[i].term.Equal? {
      assert FromArgs([c[i].term.x, c[i].term.y]) == [FromArg(c[i].term.x), FromArg(c[i].term.y)];
    }
  }

  /** One list of a body fires as a formula exactly when it fires as an alternative. */
  ghost predicate FormFires(h: seq<Arg>, c: seq<B.Signed>, db: Db, dom: nat, u: Tuple) {
    exists env: Env :: FormFiresWith(h, c, db, dom, u, env)
  }

  ghost predicate FormFiresWith(h: seq<Arg>, c: seq<B.Signed>, db: Db, dom: nat, u: Tuple, env: Env) {
    I.EnvBelow(env, dom) && u == Values(h, env) && B.ConjHolds(c, env, db, dom)
  }

  lemma FiresSame(h: seq<Arg>, c: seq<B.Signed>, order: seq<Rel>, db: D.DB, dom: nat, u: Tuple)
    requires ConjIn(c, order) && dom > 0
    ensures FormFires(h, c, Facts(order, db), dom, u) <==> D.Fires(dom, FromArgs(h), FromConj(c, order), db, u)
  {
    var al := FromConj(c, order);
    if env: Env :| FormFiresWith(h, c, Facts(order, db), dom, u, env) {
      var s := SubFrom(env, Names(FromArgs(h), al));
      SubFromAgrees(env, Names(FromArgs(h), al), h, dom);
      AgreeValues(env, s, h);
      forall i | 0 <= i < |c| ensures Agree(env, s, TermArgs(c[i])) {
        TermNames(c, order, i);
        assert al[i] in al;
        SubFromAgrees(env, Names(FromArgs(h), al), TermArgs(c[i]), dom);
      }
      ConjSame(env, s, c, order, db, dom);
      assert D.FiresWith(dom, FromArgs(h), al, db, u, s);
    }
    if s: D.Sub :| D.FiresWith(dom, FromArgs(h), al, db, u, s) {
      var env := EnvFrom(s);
      EnvFromAgrees(s, h, dom);
      AgreeValues(env, s, h);
      forall i | 0 <= i < |c| ensures Agree(env, s, TermArgs(c[i])) {
        TermNames(c, order, i);
        assert al[i] in al;
        EnvFromAgrees(s, TermArgs(c[i]), dom);
      }
      ConjSame(env, s, c, order, db, dom);
      assert FormFiresWith(h, c, Facts(order, db), dom, u, env);
    }
  }

  /** The rule derives the same tuples before and after the translation. */
  lemma DerivedSame(r: I.Rule, order: seq<Rel>, db: D.DB, dom: nat, u: Tuple)
    requires RuleIn(r, order) && dom > 0
    ensures I.Fires(r, Facts(order, db), dom, Fact(r.head.rel, u)) <==> D.Derived(dom, FromRule(r, order), db, u)
  {
    var b, F := B.GetBody(r.body).value, Facts(order, db);
    var d := FromRule(r, order);
    forall i | 0 <= i < |b|
      ensures FormFires(r.head.args, b[i], F, dom, u) <==> D.Fires(dom, d.head.args, d.alts[i], db, u)
    {
      FiresSame(r.head.args, b[i], order, db, dom, u);
    }
    if env: Env :| I.FiresWith(r, F, dom, Fact(r.head.rel, u), env) {
      B.BodyMeans(r.body, env, F, dom);
      var i :| 0 <= i < |b| && B.ConjHolds(b[i], env, F, dom);
      assert FormFiresWith(r.head.args, b[i], F, dom, u, env);
      assert D.Fires(dom, d.head.args, d.alts[i], db, u);
    }
    if i :| 0 <= i < |d.alts| && D.Fires(dom, d.head.args, d.alts[i], db, u) {
      var env: Env :| FormFiresWith(r.head.args, b[i], F, dom, u, env);
      B.BodyMeans(r.body, env, F, dom);
      assert I.FiresWith(r, F, dom, Fact(r.head.rel, u), env);
    }
  }

  /** Some rule of the program says the same of a tuple. */
  lemma SaysSame(rs: seq<I.Rule>, order: seq<Rel>, neg: bool, t: nat, db: D.DB, dom: nat, u: Tuple)
    requires RulesIn(rs, order) && P.Ordered(order) && t < |order| && dom > 0
    ensures P.SomeSigned(rs, neg, Facts(order, db), dom, Fact(order[t], u))
      <==> S.SomeSays(dom, FromRules(rs, order), neg, t, db, u)
  {
    var ds := FromRules(rs, order);
    IndexOf(order, t);
    forall i: nat | i < |rs|
      ensures S.Says(dom, ds, neg, t, db, u, i)
        <==> rs[i].neg == neg && I.Fires(rs[i], Facts(order, db), dom, Fact(order[t], u))
    {
      RuleSays(rs[i], order, neg, t, db, dom, u);
    }
    if P.SomeSigned(rs, neg, Facts(order, db), dom, Fact(order[t], u)) {
      var r :| r in rs && r.neg == neg && I.Fires(r, Facts(order, db), dom, Fact(order[t], u));
      var i: nat :| i < |rs| && rs[i] == r;
      assert S.Says(dom, ds, neg, t, db, u, i);
    }
  }

  lemma RuleSays(r: I.Rule, order: seq<Rel>, neg: bool, t: nat, db: D.DB, dom: nat, u: Tuple)
    requires RuleIn(r, order) && P.Ordered(order) && t < |order| && dom > 0
    ensures var d := FromRule(r, order);
      (d.head.neg == neg && d.head.tab == t && D.Derived(dom, d, db, u)) <==>
      (r.neg == neg && I.Fires(r, Facts(order, db), dom, Fact(order[t], u)))
  {
    IndexOf(order, t);
    DerivedSame(r, order, db, dom, u);
  }

  // ----- steps

  /** The compiled program of rules in disjunctive normal form takes the same step on the tables as the rules take on
      the facts. */
  lemma StepSame(rs: seq<I.Rule>, order: seq<Rel>, c: S.Code, db: D.DB)
    requires RulesIn(rs, order) && P.Ordered(order) && |db| == |order| && c.dom > 0
    requires c.Ok() && C.ProgramMeans(c.dom, FromRules(rs, order), c.rules, c.alts, c.bodies)
    ensures |c.Step(db)| == |order| && Facts(order, c.Step(db)) == P.TmlStep(rs, Facts(order, db), c.dom)
  {
    forall u: Fact ensures u in Facts(order, c.Step(db)) <==> u in P.TmlStep(rs, Facts(order, db), c.dom) {
      if u.rel in order {
        var t := P.Index(order, u.rel);
        S.StepMeans(c, FromRules(rs, order), db, t, u.args);
        SaysSame(rs, order, false, t, db, c.dom, u.args);
        SaysSame(rs, order, true, t, db, c.dom, u.args);
        assert u == Fact(order[t], u.args);
      } else {
        forall r | r in rs ensures !I.Fires(r, Facts(order, db), c.dom, u) { assert r.head.rel in order; }
      }
    }
  }

  /** Every run of the compiled program is the run of the rules. */
  lemma {:induction false} RunSame(rs: seq<I.Rule>, order: seq<Rel>, c: S.Code, db: D.DB, n: nat)
    requires RulesIn(rs, order) && P.Ordered(order) && |db| == |order| && c.dom > 0
    requires c.Ok() && C.ProgramMeans(c.dom, FromRules(rs, order), c.rules, c.alts, c.bodies)
    ensures |c.Run(db, n)| == |order| && Facts(order, c.Run(db, n)) == P.TmlRun(rs, Facts(order, db), c.dom, n)
  {
    if n > 0 {
      RunSame(rs, order, c, db, n - 1);
      StepSame(rs, order, c, c.Run(db, n - 1));
    }
  }

  /** A table conflicts exactly when its relation does. */
  lemma ConflictSame(rs: seq<I.Rule>, order: seq<Rel>, c: S.Code, db: D.DB, t: nat)
    requires RulesIn(rs, order) && P.Ordered(order) && |db| == |order| && c.dom > 0 && t < |order|
    requires c.Ok() && C.ProgramMeans(c.dom, FromRules(rs, order), c.rules, c.alts, c.bodies)
    ensures c.Conflict(t, db) <==> P.Conflict(rs, Facts(order, db), c.dom, order[t])
  {
    var F, ds := Facts(order, db), FromRules(rs, order);
    S.ConflictMeans(c, ds, db, t);
    forall neg, u: Tuple
      ensures P.SomeSigned(rs, neg, F, c.dom, Fact(order[t], u)) <==> S.SomeSays(c.dom, ds, neg, t, db, u)
    {
      SaysSame(rs, order, neg, t, db, c.dom, u);
    }
    forall u: Fact, neg | u.rel == order[t]
      ensures P.SomeSigned(rs, neg, F, c.dom, u) <==> S.SomeSays(c.dom, ds, neg, t, db, u.args)
    {
      assert u == Fact(order[t], u.args);
    }
  }
}
