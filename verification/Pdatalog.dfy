/** The passage to rules that forget and back, and the speed-up by squaring. */
module Pdatalog {
  import opened Formula
  import opened Inlining
  import opened BddSat

  // ----- steps that keep

  ghost predicate SomeSigned(rs: seq<Rule>, neg: bool, db: Db, dom: nat, u: Fact) {
    exists r :: r in rs && r.neg == neg && Fires(r, db, dom, u)
  }

  /** One step of a program: facts stay unless a negative rule removes them. */
  ghost function TmlStep(rs: seq<Rule>, db: Db, dom: nat): Db {
    iset u: Fact | (u in db || SomeSigned(rs, false, db, dom, u)) && !SomeSigned(rs, true, db, dom, u)
  }

  /** Everything that is added to the relation is also removed. */
  ghost predicate Conflict(rs: seq<Rule>, db: Db, dom: nat, rel: Rel) {
    && (exists u: Fact :: u.rel == rel && SomeSigned(rs, false, db, dom, u))
    && forall u: Fact :: u.rel == rel && SomeSigned(rs, false, db, dom, u) ==> SomeSigned(rs, true, db, dom, u)
  }

  ghost function TmlRun(rs: seq<Rule>, db: Db, dom: nat, n: nat): Db {
    if n == 0 then db else TmlStep(rs, TmlRun(rs, db, dom, n - 1), dom)
  }

  ghost function PRun(rs: seq<Rule>, db: Db, dom: nat, n: nat): Db {
    if n == 0 then db else PStep(rs, PRun(rs, db, dom, n - 1), dom)
  }

  predicate FactOk(u: Fact, dom: nat) {
    |u.args| == u.rel.arity && forall i :: 0 <= i < |u.args| ==> u.args[i] < dom
  }

  ghost predicate DbOk(db: Db, dom: nat) {
    forall u: Fact :: u in db ==> FactOk(u, dom)
  }

  /** No relation at or above the name has facts. */
  ghost predicate NoneFrom(db: Db, name: nat) {
    forall u: Fact :: u in db ==> u.rel.name < name
  }

  /** The facts of the relations below the name. */
  ghost function Part(db: Db, name: nat): Db {
    iset u: Fact | u in db && u.rel.name < name
  }

  lemma FiresOk(r: Rule, db: Db, dom: nat, u: Fact)
    requires RuleOk(r, dom) && dom > 0 && Fires(r, db, dom, u)
    ensures FactOk(u, dom) && u.rel == r.head.rel
  {
    var env: Env :| FiresWith(r, db, dom, u, env);
    forall i | 0 <= i < |u.args| ensures u.args[i] < dom { assert r.head.args[i] in r.head.args; }
  }

  // ----- names in formulas

  predicate RuleBelow(r: Rule, name: nat) {
    r.head.rel.name < name && NamesBelow(r.body, name)
  }

  predicate AllRulesBelow(rs: seq<Rule>, name: nat) {
    forall i :: 0 <= i < |rs| ==> RuleBelow(rs[i], name)
  }

  lemma {:induction false} EvalPart(f: Form, env: Env, db: Db, db': Db, name: nat, dom: nat)
    requires NamesBelow(f, name) && Part(db, name) == Part(db', name)
    ensures Eval(f, env, db, dom) == Eval(f, env, db', dom)
  {
    match f
    case Lit(a) =>
      var u := Fact(a.rel, Values(a.args, env));
      assert u in db <==> u in Part(db, name);
      assert u in db' <==> u in Part(db', name);
    case Equal(_, _) =>
    case Not(g) => EvalPart(g, env, db, db', name, dom);
    case Bin(_, l, r) => EvalPart(l, env, db, db', name, dom); EvalPart(r, env, db, db', name, dom);
    case Quant(q, v, g) =>
      forall d: nat | d < dom ensures Eval(g, Put(env, v, d), db, dom) == Eval(g, Put(env, v, d), db', dom) {
        EvalPart(g, Put(env, v, d), db, db', name, dom);
      }
      assert Holders(g, env, db, dom, v) == Holders(g, env, db', dom, v);
  }

  lemma FiresPart(r: Rule, db: Db, db': Db, name: nat, dom: nat, u: Fact)
    requires NamesBelow(r.body, name) && Part(db, name) == Part(db', name)
    ensures Fires(r, db, dom, u) == Fires(r, db', dom, u)
  {
    forall env: Env ensures FiresWith(r, db, dom, u, env) == FiresWith(r, db', dom, u, env) {
      EvalPart(r.body, env, db, db', name, dom);
    }
  }

  // ----- general heads

  /** Distinct variables for the arguments of a relation. */
  function General(rel: Rel, next: nat): Atom {
    Atom(rel, seq(rel.arity, i requires 0 <= i < rel.arity => Var(next + i)))
  }

  ghost function Bind(t: Tuple, next: nat): Env {
    if t == [] then map[] else Bind(t[..|t| - 1], next)[next + |t| - 1 := t[|t| - 1]]
  }

  lemma {:induction false} Bound(t: Tuple, next: nat, dom: nat)
    requires forall i :: 0 <= i < |t| ==> t[i] < dom
    ensures EnvBelow(Bind(t, next), dom) && forall i :: 0 <= i < |t| ==> Get(Bind(t, next), next + i) == t[i]
  {
    if t != [] { Bound(t[..|t| - 1], next, dom); }
  }

  lemma GeneralBound(rel: Rel, next: nat, t: Tuple, dom: nat)
    requires |t| == rel.arity && forall i :: 0 <= i < |t| ==> t[i] < dom
    ensures Values(General(rel, next).args, Bind(t, next)) == t && EnvBelow(Bind(t, next), dom)
  {
    Bound(t, next, dom);
  }

  /** A rule with a general head derives a fact exactly when its body holds of the fact's arguments. */
  lemma GeneralFires(r: Rule, next: nat, db: Db, dom: nat, u: Fact, b: bool)
    requires r.head == General(r.head.rel, next) && u.rel == r.head.rel && FactOk(u, dom)
    requires forall env: Env :: Values(r.head.args, env) == u.args ==> (Eval(r.body, env, db, dom) <==> b)
    ensures Fires(r, db, dom, u) <==> b
  {
    if b {
      GeneralBound(r.head.rel, next, u.args, dom);
      assert FiresWith(r, db, dom, u, Bind(u.args, next));
    }
  }

  // ----- rules that forget

  /** The auxiliary relations of the k-th relation: insertions, deletions, and what held before. */
  function Ins(order: seq<Rel>, name: nat, k: nat): Rel
    requires k < |order|
  {
    Rel(name + 2 * k, order[k].arity)
  }

  function Del(order: seq<Rel>, name: nat, k: nat): Rel
    requires k < |order|
  {
    Rel(name + 2 * k + 1, order[k].arity)
  }

  function Prev(order: seq<Rel>, name: nat, k: nat): Rel
    requires k < |order|
  {
    Rel(name + 2 * |order| + k, order[k].arity)
  }

  function Index(order: seq<Rel>, rel: Rel): (k: nat)
    requires rel in order
    ensures k < |order| && order[k] == rel
  {
    if order[0] == rel then 0 else 1 + Index(order[1..], rel)
  }

  predicate Ordered(order: seq<Rel>) {
    forall i, j :: 0 <= i < j < |order| ==> order[i] != order[j]
  }

  /** The rule with its head moved to the insertions or deletions of its relation. */
  function Frozen(r: Rule, order: seq<Rel>, name: nat): Rule
    requires r.head.rel in order
  {
    var k := Index(order, r.head.rel);
    Rule(false, Atom(if r.neg then Del(order, name, k) else Ins(order, name, k), r.head.args), r.body)
  }

  /** The rules that compute a relation from its insertions, deletions and previous contents. */
  function Carry(order: seq<Rel>, name: nat, k: nat, next: nat): seq<Rule>
    requires k < |order|
  {
    var args := General(order[k], next).args;
    var del := Not(Lit(Atom(Del(order, name, k), args)));
    [ Rule(false, Atom(Prev(order, name, k), args), Lit(Atom(order[k], args))),
      Rule(false, Atom(order[k], args), Bin(And, Lit(Atom(Ins(order, name, k), args)), del)),
      Rule(false, Atom(order[k], args), Bin(And, Lit(Atom(Prev(order, name, k), args)), del)) ]
  }

  /** out holds the frozen rules and the carrying rules of every relation, and nothing else. */
  ghost predicate Pre(out: seq<Rule>, rs: seq<Rule>, order: seq<Rel>, name: nat, nexts: seq<nat>) {
    && Ordered(order) && |nexts| == |order|
    && (forall i :: 0 <= i < |rs| ==> rs[i].head.rel in order)
    && (forall i :: 0 <= i < |rs| ==> Frozen(rs[i], order, name) in out)
    && (forall k, j :: 0 <= k < |order| && 0 <= j < 3 ==> Carry(order, name, k, nexts[k])[j] in out)
    && (forall r :: r in out ==> IsFrozen(r, rs, order, name) || IsCarry(r, order, name, nexts))
  }

  ghost predicate IsFrozen(r: Rule, rs: seq<Rule>, order: seq<Rel>, name: nat)
    requires forall i :: 0 <= i < |rs| ==> rs[i].head.rel in order
  {
    exists i :: 0 <= i < |rs| && r == Frozen(rs[i], order, name)
  }

  ghost predicate IsCarry(r: Rule, order: seq<Rel>, name: nat, nexts: seq<nat>)
    requires |nexts| == |order|
  {
    exists k :: 0 <= k < |order| && r in Carry(order, name, k, nexts[k])
  }

  lemma InPStep(rs: seq<Rule>, db: Db, dom: nat, u: Fact, r: Rule)
    requires r in rs && r.head.rel == u.rel
    ensures HasRules(rs, u.rel) && (Fires(r, db, dom, u) ==> u in PStep(rs, db, dom))
  {
    var i :| 0 <= i < |rs| && rs[i] == r;
  }

  /** The previous contents are what the relation held. */
  lemma PrevStep(out: seq<Rule>, rs: seq<Rule>, order: seq<Rel>, name: nat, nexts: seq<nat>, db: Db, dom: nat, k: nat,
        t: Tuple)
    requires Pre(out, rs, order, name, nexts) && AllRulesBelow(rs, name) && AllBelowName(order, name) && k < |order|
    requires FactOk(Fact(order[k], t), dom)
    ensures Fact(Prev(order, name, k), t) in PStep(out, db, dom) <==> Fact(order[k], t) in db
  {
    var u := Fact(Prev(order, name, k), t);
    var c := Carry(order, name, k, nexts[k])[0];
    GeneralFires(c, nexts[k], db, dom, u, Fact(order[k], t) in db);
    InPStep(out, db, dom, u, c);
    if u in PStep(out, db, dom) {
      var i :| 0 <= i < |out| && Fires(out[i], db, dom, u);
      assert out[i] in out && out[i].head.rel == u.rel;
      if IsCarry(out[i], order, name, nexts) {
        var j :| 0 <= j < |order| && out[i] in Carry(order, name, j, nexts[j]);
        assert out[i] == c;
      }
    }
  }

  predicate AllBelowName(order: seq<Rel>, name: nat) {
    forall k :: 0 <= k < |order| ==> order[k].name < name
  }

  function Side(order: seq<Rel>, name: nat, k: nat, neg: bool): Rel
    requires k < |order|
  {
    if neg then Del(order, name, k) else Ins(order, name, k)
  }

  /** The insertions or deletions are what the original rules derive. */
  lemma FrozenStep(out: seq<Rule>, rs: seq<Rule>, order: seq<Rel>, name: nat, nexts: seq<nat>, db: Db, dom: nat,
        k: nat, t: Tuple, neg: bool)
    requires Pre(out, rs, order, name, nexts) && AllRulesBelow(rs, name) && AllBelowName(order, name) && k < |order|
    requires forall u: Fact :: u in db && u.rel.name >= name ==> HasRules(out, u.rel)
    ensures Fact(Side(order, name, k, neg), t) in PStep(out, db, dom) <==>
      SomeSigned(rs, neg, db, dom, Fact(order[k], t))
  {
    var u, v := Fact(Side(order, name, k, neg), t), Fact(order[k], t);
    if SomeSigned(rs, neg, db, dom, v) {
      var r :| r in rs && r.neg == neg && Fires(r, db, dom, v);
      var i :| 0 <= i < |rs| && rs[i] == r;
      FrozenFires(r, order, name, db, dom, k, t);
      InPStep(out, db, dom, u, Frozen(r, order, name));
    }
    if u in PStep(out, db, dom) {
      var i :| 0 <= i < |out| && Fires(out[i], db, dom, u);
      FrozenFrom(out[i], out, rs, order, name, nexts, db, dom, k, t, neg);
    }
  }

  /** A rule that derives an insertion or deletion is a frozen rule. */
  lemma FrozenFrom(r: Rule, out: seq<Rule>, rs: seq<Rule>, order: seq<Rel>, name: nat, nexts: seq<nat>, db: Db,
        dom: nat, k: nat, t: Tuple, neg: bool)
    requires Pre(out, rs, order, name, nexts) && AllRulesBelow(rs, name) && AllBelowName(order, name) && k < |order|
    requires r in out && Fires(r, db, dom, Fact(Side(order, name, k, neg), t))
    ensures SomeSigned(rs, neg, db, dom, Fact(order[k], t))
  {
    assert r.head.rel == Side(order, name, k, neg);
    if IsFrozen(r, rs, order, name) {
      var j :| 0 <= j < |rs| && r == Frozen(rs[j], order, name);
      FrozenFires(rs[j], order, name, db, dom, k, t);
      assert rs[j] in rs;
    }
  }

  lemma FrozenFires(r: Rule, order: seq<Rel>, name: nat, db: Db, dom: nat, k: nat, t: Tuple)
    requires r.head.rel in order && Ordered(order) && k < |order|
    ensures Fires(r, db, dom, Fact(order[k], t)) <==>
      Index(order, r.head.rel) == k && Fires(Frozen(r, order, name), db, dom, Fact(Side(order, name, k, r.neg), t))
    ensures !Fires(Frozen(r, order, name), db, dom, Fact(Side(order, name, k, !r.neg), t))
    ensures Fires(Frozen(r, order, name), db, dom, Fact(Side(order, name, k, r.neg), t)) ==>
      Index(order, r.head.rel) == k
  {
    var j := Index(order, r.head.rel);
    if Fires(r, db, dom, Fact(order[k], t)) { assert order[j] == order[k]; }
    if j == k {
      forall env: Env
        ensures FiresWith(r, db, dom, Fact(order[k], t), env)
          <==> FiresWith(Frozen(r, order, name), db, dom, Fact(Side(order, name, k, r.neg), t), env)
      {
      }
    }
  }

  lemma AndNotMeans(a: Atom, b: Atom, env: Env, db: Db, dom: nat)
    ensures Eval(Bin(And, Lit(a), Not(Lit(b))), env, db, dom)
      <==> Fact(a.rel, Values(a.args, env)) in db && Fact(b.rel, Values(b.args, env)) !in db
  {
    assert Eval(Not(Lit(b)), env, db, dom) == !Eval(Lit(b), env, db, dom);
  }

  /** What the two rules for a relation derive. */
  lemma CarryFires(order: seq<Rel>, name: nat, k: nat, next: nat, db: Db, dom: nat, t: Tuple)
    requires k < |order| && FactOk(Fact(order[k], t), dom)
    ensures var u, c := Fact(order[k], t), Carry(order, name, k, next);
      var del := Fact(Del(order, name, k), t) in db;
      && (Fires(c[1], db, dom, u) <==> Fact(Ins(order, name, k), t) in db && !del)
      && (Fires(c[2], db, dom, u) <==> Fact(Prev(order, name, k), t) in db && !del)
  {
    var u, c := Fact(order[k], t), Carry(order, name, k, next);
    var del := Fact(Del(order, name, k), t) in db;
    forall env: Env | Values(c[1].head.args, env) == t
      ensures Eval(c[1].body, env, db, dom) <==> Fact(Ins(order, name, k), t) in db && !del
      ensures Eval(c[2].body, env, db, dom) <==> Fact(Prev(order, name, k), t) in db && !del
    {
      AndNotMeans(Atom(Ins(order, name, k), c[1].head.args), Atom(Del(order, name, k), c[1].head.args), env, db, dom);
      AndNotMeans(Atom(Prev(order, name, k), c[1].head.args), Atom(Del(order, name, k), c[1].head.args), env, db, dom);
    }
    GeneralFires(c[1], next, db, dom, u, Fact(Ins(order, name, k), t) in db && !del);
    GeneralFires(c[2], next, db, dom, u, Fact(Prev(order, name, k), t) in db && !del);
  }

  lemma CarryHead(order: seq<Rel>, name: nat, k: nat, next: nat, r: Rule)
    requires k < |order| && r in Carry(order, name, k, next)
    ensures var c := Carry(order, name, k, next);
      (r == c[0] && r.head.rel == Prev(order, name, k)) || ((r == c[1] || r == c[2]) && r.head.rel == order[k])
  {
    var c := Carry(order, name, k, next);
    assert r == c[0] || r == c[1] || r == c[2];
  }

  /** A rule about the relation is one of its two. */
  lemma OfCarried(out: seq<Rule>, rs: seq<Rule>, order: seq<Rel>, name: nat, nexts: seq<nat>, k: nat, r: Rule)
    requires Pre(out, rs, order, name, nexts) && AllBelowName(order, name) && k < |order| && r in out
    requires r.head.rel == order[k]
    ensures var c := Carry(order, name, k, nexts[k]); r == c[1] || r == c[2]
  {
    assert order[k].name < name && IsCarry(r, order, name, nexts);
    var j :| 0 <= j < |order| && r in Carry(order, name, j, nexts[j]);
    hide Carry;
    CarryHead(order, name, j, nexts[j], r);
  }

  /** A relation is its insertions and previous contents, less its deletions. */
  lemma CarryStep(out: seq<Rule>, rs: seq<Rule>, order: seq<Rel>, name: nat, nexts: seq<nat>, db: Db, dom: nat,
        k: nat, t: Tuple)
    requires Pre(out, rs, order, name, nexts) && AllRulesBelow(rs, name) && AllBelowName(order, name) && k < |order|
    requires FactOk(Fact(order[k], t), dom)
    ensures Fact(order[k], t) in PStep(out, db, dom) <==>
      (Fact(Del(order, name, k), t) !in db &&
       (Fact(Ins(order, name, k), t) in db || Fact(Prev(order, name, k), t) in db))
  {
    var u := Fact(order[k], t);
    var c := Carry(order, name, k, nexts[k]);
    CarryFires(order, name, k, nexts[k], db, dom, t);
    assert c[1] in out && c[2] in out && c[1].head.rel == u.rel == c[2].head.rel;
    InPStep(out, db, dom, u, c[1]);
    InPStep(out, db, dom, u, c[2]);
    if u in PStep(out, db, dom) {
      var i :| 0 <= i < |out| && Fires(out[i], db, dom, u);
      OfCarried(out, rs, order, name, nexts, k, out[i]);
    }
  }

  // ----- two steps of the rules that forget are one step of the program

  /** Auxiliary relations hold nothing unless some rule fills them. */
  ghost predicate Tidy(out: seq<Rule>, db: Db, name: nat) {
    forall u: Fact :: u in db && u.rel.name >= name ==> HasRules(out, u.rel)
  }

  lemma PStepOk(rs: seq<Rule>, db: Db, dom: nat)
    requires RulesOk(rs, dom) && DbOk(db, dom)
    ensures DbOk(PStep(rs, db, dom), dom)
  {
    forall u: Fact | u in PStep(rs, db, dom) ensures FactOk(u, dom) {
      if HasRules(rs, u.rel) {
        var i :| 0 <= i < |rs| && Fires(rs[i], db, dom, u);
        FiresOk(rs[i], db, dom, u);
      }
    }
  }

  lemma SignedPart(rs: seq<Rule>, neg: bool, db: Db, db': Db, name: nat, dom: nat, u: Fact)
    requires AllRulesBelow(rs, name) && Part(db, name) == Part(db', name)
    ensures SomeSigned(rs, neg, db, dom, u) == SomeSigned(rs, neg, db', dom, u)
  {
    forall r | r in rs ensures Fires(r, db, dom, u) == Fires(r, db', dom, u) {
      var i :| 0 <= i < |rs| && rs[i] == r;
      assert RuleBelow(rs[i], name);
      FiresPart(r, db, db', name, dom, u);
    }
  }

  lemma TwoStepsAt(out: seq<Rule>, rs: seq<Rule>, order: seq<Rel>, name: nat, nexts: seq<nat>, db: Db, dom: nat,
        u: Fact)
    requires Pre(out, rs, order, name, nexts) && AllRulesBelow(rs, name) && AllBelowName(order, name)
    requires Tidy(out, db, name) && u.rel.name < name && FactOk(u, dom)
    ensures u in PStep(out, PStep(out, db, dom), dom) <==> u in TmlStep(rs, db, dom)
  {
    var mid := PStep(out, db, dom);
    if u.rel in order {
      var k := Index(order, u.rel);
      CarryStep(out, rs, order, name, nexts, mid, dom, k, u.args);
      PrevStep(out, rs, order, name, nexts, db, dom, k, u.args);
      FrozenStep(out, rs, order, name, nexts, db, dom, k, u.args, false);
      FrozenStep(out, rs, order, name, nexts, db, dom, k, u.args, true);
    } else {
      NoRules(out, rs, order, name, nexts, u.rel);
      forall r | r in rs ensures !Fires(r, db, dom, u) {
        var i :| 0 <= i < |rs| && rs[i] == r;
        assert rs[i].head.rel in order;
      }
    }
  }

  lemma NoRules(out: seq<Rule>, rs: seq<Rule>, order: seq<Rel>, name: nat, nexts: seq<nat>, rel: Rel)
    requires Pre(out, rs, order, name, nexts) && rel.name < name && rel !in order
    ensures !HasRules(out, rel)
  {
    forall i | 0 <= i < |out| ensures out[i].head.rel != rel {
      assert out[i] in out;
    }
  }

  /** On the relations of the program, two steps of the rules that forget are one step of the program. */
  lemma TwoSteps(out: seq<Rule>, rs: seq<Rule>, order: seq<Rel>, name: nat, nexts: seq<nat>, db: Db, dom: nat)
    requires Pre(out, rs, order, name, nexts) && AllRulesBelow(rs, name) && AllBelowName(order, name)
    requires RulesOk(out, dom) && RulesOk(rs, dom) && Tidy(out, db, name) && DbOk(db, dom)
    ensures Part(PStep(out, PStep(out, db, dom), dom), name) == TmlStep(rs, Part(db, name), dom)
    ensures Tidy(out, PStep(out, db, dom), name) && DbOk(PStep(out, db, dom), dom)
  {
    var before, after := Part(db, name), PStep(out, PStep(out, db, dom), dom);
    PStepOk(out, db, dom);
    PStepOk(out, PStep(out, db, dom), dom);
    assert Part(before, name) == before;
    forall u: Fact ensures u in Part(after, name) <==> u in TmlStep(rs, before, dom) {
      SignedPart(rs, false, db, before, name, dom, u);
      SignedPart(rs, true, db, before, name, dom, u);
      if u.rel.name < name && FactOk(u, dom) {
        TwoStepsAt(out, rs, order, name, nexts, db, dom, u);
      } else if u in TmlStep(rs, before, dom) {
        DerivedOk(rs, false, before, dom, u, name);
      }
    }
  }

  lemma DerivedOk(rs: seq<Rule>, neg: bool, db: Db, dom: nat, u: Fact, name: nat)
    requires RulesOk(rs, dom) && AllRulesBelow(rs, name)
    ensures SomeSigned(rs, neg, db, dom, u) ==> FactOk(u, dom) && u.rel.name < name
  {
    if r :| r in rs && r.neg == neg && Fires(r, db, dom, u) {
      var i :| 0 <= i < |rs| && rs[i] == r;
      assert RuleBelow(rs[i], name);
      FiresOk(r, db, dom, u);
    }
  }

  /** Twice n steps of the rules that forget are n steps of the program. */
  lemma {:induction false} TwiceSteps(out: seq<Rule>, rs: seq<Rule>, order: seq<Rel>, name: nat, nexts: seq<nat>,
        db: Db, dom: nat, n: nat)
    requires Pre(out, rs, order, name, nexts) && AllRulesBelow(rs, name) && AllBelowName(order, name)
    requires RulesOk(out, dom) && RulesOk(rs, dom) && Tidy(out, db, name) && DbOk(db, dom)
    ensures Part(PRun(out, db, dom, 2 * n), name) == TmlRun(rs, Part(db, name), dom, n)
    ensures Tidy(out, PRun(out, db, dom, 2 * n), name) && DbOk(PRun(out, db, dom, 2 * n), dom)
  {
    if n > 0 {
      TwiceSteps(out, rs, order, name, nexts, db, dom, n - 1);
      var d := PRun(out, db, dom, 2 * (n - 1));
      TwoSteps(out, rs, order, name, nexts, d, dom);
      TwoSteps(out, rs, order, name, nexts, PStep(out, d, dom), dom);
      PRunStep(out, db, dom, 2 * (n - 1), 2 * n - 1);
      PRunStep(out, db, dom, 2 * n - 1, 2 * n);
    }
  }

  lemma PRunStep(rs: seq<Rule>, db: Db, dom: nat, n: nat, m: nat)
    requires m == n + 1
    ensures PRun(rs, db, dom, m) == PStep(rs, PRun(rs, db, dom, n), dom)
  {
  }

  /** Squaring k times makes one step of two to the k steps. */
  method SquareTimes(rs: seq<Rule>, k: nat, next: nat, ghost dom: nat, ghost name: nat)
    returns (ss: seq<Rule>, next': nat)
    requires RulesOk(rs, dom) && RulesBelow(rs, next) && BodiesBelow(rs, name)
    ensures RulesOk(ss, dom) && RulesBelow(ss, next') && BodiesBelow(ss, name) && |ss| == |rs|
    ensures forall i :: 0 <= i < |rs| ==> ss[i].head == rs[i].head && ss[i].neg == rs[i].neg
    ensures forall db :: PStep(ss, db, dom) == PRun(rs, db, dom, Pow2(k))
  {
    ss, next' := rs, next;
    forall db ensures PStep(ss, db, dom) == PRun(rs, db, dom, Pow2(0)) { PRunStep(rs, db, dom, 0, 1); }
    for i := 0 to k
      invariant RulesOk(ss, dom) && RulesBelow(ss, next') && BodiesBelow(ss, name) && |ss| == |rs|
      invariant forall i :: 0 <= i < |rs| ==> ss[i].head == rs[i].head && ss[i].neg == rs[i].neg
      invariant forall db :: PStep(ss, db, dom) == PRun(rs, db, dom, Pow2(i))
    {
      ghost var before, j := ss, i + 1;
      ss, next' := SquareProgram(ss, next', dom, name);
      forall db ensures PStep(ss, db, dom) == PRun(rs, db, dom, Pow2(j)) {
        PRunAdd(rs, db, dom, Pow2(i), Pow2(i), Pow2(j));
        assert PStep(before, db, dom) == PRun(rs, db, dom, Pow2(i));
      }
    }
  }

  lemma {:induction false} PRunAdd(rs: seq<Rule>, db: Db, dom: nat, n: nat, k: nat, m: nat)
    requires m == n + k
    ensures PRun(rs, db, dom, m) == PRun(rs, PRun(rs, db, dom, n), dom, k)
    decreases k
  {
    if k > 0 {
      PRunAdd(rs, db, dom, n, k - 1, m - 1);
      PRunStep(rs, db, dom, m - 1, m);
      PRunStep(rs, PRun(rs, db, dom, n), dom, k - 1, k);
    }
  }
}
