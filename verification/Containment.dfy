/** Containment of conjunctive rules by evaluating one on the frozen body of the other. */
module Containment {
  import opened Formula
  import opened Inlining
  import opened Dnf
  import opened Minimize
  import opened Redundancy

  // ----- freezing

  /** A frozen piece of a rule, the symbols chosen for variables so far, and the next unused symbol. */
  datatype Frozen<A> = Frozen(t: A, m: Env, next: nat)

  /** A variable stands for the symbol chosen for it; a new one is chosen at its first occurrence. */
  function QuoteArg(x: Arg, m: Env, next: nat): Frozen<nat> {
    if x.Sym? then Frozen(x.c, m, next)
    else if x.v in m then Frozen(m[x.v], m, next)
    else Frozen(next, m[x.v := next], next + 1)
  }

  function QuoteArgs(args: seq<Arg>, m: Env, next: nat): Frozen<Tuple> {
    if args == [] then Frozen([], m, next)
    else
      var a := QuoteArgs(args[..|args| - 1], m, next);
      var x := QuoteArg(args[|args| - 1], a.m, a.next);
      Frozen(a.t + [x.t], x.m, x.next)
  }

  function QuoteTerms(c: seq<Signed>, m: Env, next: nat): Frozen<seq<Fact>>
    requires forall i :: 0 <= i < |c| ==> c[i].term.Lit?
  {
    if c == [] then Frozen([], m, next)
    else
      var a := QuoteTerms(c[..|c| - 1], m, next);
      var x := QuoteArgs(c[|c| - 1].term.a.args, a.m, a.next);
      Frozen(a.t + [Fact(c[|c| - 1].term.a.rel, x.t)], x.m, x.next)
  }

  /** The symbols have grown: old choices are kept, new ones are distinct and fresh. */
  ghost predicate Grown(m: Env, next: nat, m': Env, next': nat) {
    && next <= next'
    && (forall v :: v in m ==> v in m' && m'[v] == m[v])
    && (forall v :: v in m' && v !in m ==> next <= m'[v] < next')
    && (forall u, v :: u in m' && v in m' && u !in m && v !in m && m'[u] == m'[v] ==> u == v)
  }

  lemma GrownTrans(m: Env, next: nat, m1: Env, next1: nat, m2: Env, next2: nat)
    requires Grown(m, next, m1, next1) && Grown(m1, next1, m2, next2)
    ensures Grown(m, next, m2, next2)
  {
  }

  ghost predicate Covered(args: seq<Arg>, m: Env) {
    forall x :: x in args && x.Var? ==> x.v in m
  }

  lemma QuoteArgShape(x: Arg, m: Env, next: nat)
    ensures var y := QuoteArg(x, m, next);
      Grown(m, next, y.m, y.next) && (x.Var? ==> x.v in y.m) && y.t == Value(x, y.m)
  {
  }

  lemma {:induction false} QuoteArgsShape(args: seq<Arg>, m: Env, next: nat)
    ensures var x := QuoteArgs(args, m, next);
      Grown(m, next, x.m, x.next) && Covered(args, x.m) && x.t == Values(args, x.m)
  {
    if args != [] {
      var n := |args| - 1;
      var a := QuoteArgs(args[..n], m, next);
      var x := QuoteArg(args[n], a.m, a.next);
      QuoteArgsShape(args[..n], m, next);
      QuoteArgShape(args[n], a.m, a.next);
      GrownTrans(m, next, a.m, a.next, x.m, x.next);
      assert args == args[..n] + [args[n]];
      ValuesKept(args[..n], a.m, x.m);
      hide QuoteArg;
      assert Values(args, x.m) == Values(args[..n], x.m) + [x.t];
    }
  }

  lemma ValuesKept(args: seq<Arg>, m: Env, m': Env)
    requires Covered(args, m) && forall v :: v in m ==> v in m' && m'[v] == m[v]
    ensures Covered(args, m') && Values(args, m) == Values(args, m')
  {
    forall i | 0 <= i < |args| ensures Value(args[i], m) == Value(args[i], m') { assert args[i] in args; }
  }

  function FactOf(a: Atom, m: Env): Fact {
    Fact(a.rel, Values(a.args, m))
  }

  lemma {:induction false} QuoteTermsShape(c: seq<Signed>, m: Env, next: nat)
    requires forall i :: 0 <= i < |c| ==> c[i].term.Lit?
    ensures var x := QuoteTerms(c, m, next);
      Grown(m, next, x.m, x.next) && |x.t| == |c|
    ensures var x := QuoteTerms(c, m, next);
      forall i :: 0 <= i < |c| ==> Covered(c[i].term.a.args, x.m) && x.t[i] == FactOf(c[i].term.a, x.m)
  {
    if c != [] {
      var n := |c| - 1;
      var a := QuoteTerms(c[..n], m, next);
      var x := QuoteArgs(c[n].term.a.args, a.m, a.next);
      QuoteTermsShape(c[..n], m, next);
      QuoteArgsShape(c[n].term.a.args, a.m, a.next);
      GrownTrans(m, next, a.m, a.next, x.m, x.next);
      forall i | 0 <= i < n
        ensures Covered(c[i].term.a.args, x.m) && FactOf(c[i].term.a, a.m) == FactOf(c[i].term.a, x.m)
      {
        assert c[..n][i] == c[i];
        ValuesKept(c[i].term.a.args, a.m, x.m);
      }
    }
  }

  // ----- conjunctive rules

  /** A single conjunction of positive atoms. */
  predicate IsCq(r: RawRule) {
    r.body.Lists? && |r.body.b| == 1 && forall i :: 0 <= i < |r.body.b[0]| ==>
      !r.body.b[0][i].neg && r.body.b[0][i].term.Lit?
  }

  function Conj(r: RawRule): seq<Signed>
    requires IsCq(r)
  {
    r.body.b[0]
  }

  /** The variables of the head occur in the body. */
  predicate Safe(r: RawRule)
    requires IsCq(r)
  {
    forall x :: x in r.head.args && x.Var? ==> OccursIn(x.v, Conj(r))
  }

  predicate OccursIn(v: nat, c: seq<Signed>)
    requires forall i :: 0 <= i < |c| ==> c[i].term.Lit?
  {
    exists i :: 0 <= i < |c| && Var(v) in c[i].term.a.args
  }

  function BodyVars(c: seq<Signed>): set<nat>
    requires forall i :: 0 <= i < |c| ==> c[i].term.Lit?
  {
    set i, x | 0 <= i < |c| && x in c[i].term.a.args && x.Var? :: x.v
  }

  /** All symbols of the rule lie below n. */
  predicate SymbolsBelow(r: RawRule, n: nat)
    requires IsCq(r)
  {
    SymsBelow(r.head.args, n) && forall i :: 0 <= i < |Conj(r)| ==> SymsBelow(Conj(r)[i].term.a.args, n)
  }

  datatype FrozenRule = FrozenRule(head: Fact, body: seq<Fact>, m: Env, next: nat)

  /** The rule with a fresh symbol in place of every variable. */
  function FreezeRule(r: RawRule, next: nat): FrozenRule
    requires IsCq(r)
  {
    var h := QuoteArgs(r.head.args, map[], next);
    var b := QuoteTerms(Conj(r), h.m, h.next);
    FrozenRule(Fact(r.head.rel, h.t), b.t, b.m, b.next)
  }

  lemma FreezeShape(r: RawRule, next: nat)
    requires IsCq(r)
    ensures var z := FreezeRule(r, next);
      && Grown(map[], next, z.m, z.next) && Covered(r.head.args, z.m) && z.head == FactOf(r.head, z.m)
      && |z.body| == |Conj(r)|
      && forall i :: 0 <= i < |Conj(r)| ==>
         Covered(Conj(r)[i].term.a.args, z.m) && z.body[i] == FactOf(Conj(r)[i].term.a, z.m)
  {
    var h := QuoteArgs(r.head.args, map[], next);
    var b := QuoteTerms(Conj(r), h.m, h.next);
    QuoteArgsShape(r.head.args, map[], next);
    QuoteTermsShape(Conj(r), h.m, h.next);
    GrownTrans(map[], next, h.m, h.next, b.m, b.next);
    ValuesKept(r.head.args, h.m, b.m);
  }

  ghost function Canonical(z: FrozenRule): Db {
    iset u: Fact | u in z.body
  }

  /** The second rule derives the frozen head of the first from its frozen body, in one step. */
  ghost predicate OneStep(r: RawRule, s: RawRule, next: nat) {
    IsCq(r) && IsCq(s) && r.head.rel == s.head.rel
    && var z := FreezeRule(r, next); Answers(s, Canonical(z), z.next, z.head)
  }

  lemma CqHolds(r: RawRule, env: Env, db: Db, dom: nat)
    requires IsCq(r)
    ensures RawHolds(r.body, env, db, dom) <==> forall i :: 0 <= i < |Conj(r)| ==> FactOf(Conj(r)[i].term.a, env) in db
  {
    var c := Conj(r);
    forall i | 0 <= i < |c| ensures (Eval(c[i].term, env, db, dom) != c[i].neg) <==> FactOf(c[i].term.a, env) in db { }
    assert BodyHolds(r.body.b, env, db, dom) <==> ConjHolds(r.body.b[0], env, db, dom);
    if ConjHolds(c, env, db, dom) {
      forall i | 0 <= i < |c| ensures FactOf(c[i].term.a, env) in db { }
    }
    if forall i :: 0 <= i < |c| ==> FactOf(c[i].term.a, env) in db {
      forall i | 0 <= i < |c|
        ensures Eval(c[i].term, env, db, dom) != c[i].neg
      {
        assert FactOf(c[i].term.a, env) in db;
      }
    }
  }

  // ----- the homomorphism theorem

  /** What a symbol of the frozen rule stands for under the values of the rule's variables. */
  ghost function Thaw(m: Env, env: Env, x: nat): nat {
    if v: nat :| v in m && m[v] == x then Get(env, v) else x
  }

  lemma ThawValue(x: Arg, m: Env, next: nat, next': nat, env: Env)
    requires Grown(map[], next, m, next') && (x.Var? ==> x.v in m) && (x.Sym? ==> x.c < next)
    ensures Thaw(m, env, Value(x, m)) == Value(x, env)
  {
    if x.Var? { assert forall u :: u in m && m[u] == m[x.v] ==> u == x.v; }
  }

  lemma ThawValues(args: seq<Arg>, m: Env, next: nat, next': nat, env: Env, i: nat)
    requires Grown(map[], next, m, next') && Covered(args, m) && SymsBelow(args, next) && i < |args|
    ensures Thaw(m, env, Values(args, m)[i]) == Values(args, env)[i]
  {
    assert args[i] in args;
    ThawValue(args[i], m, next, next', env);
  }

  /** The values of the second rule's variables on the database, through the homomorphism. */
  ghost function Through(hom: Env, m: Env, env: Env, s: RawRule): Env
    requires IsCq(s)
  {
    map v | v in BodyVars(Conj(s)) :: Thaw(m, env, Get(hom, v))
  }

  lemma OneStepSound(r: RawRule, s: RawRule, next: nat, dom: nat)
    requires OneStep(r, s, next) && Safe(s) && SymbolsBelow(r, next) && SymbolsBelow(s, next)
    requires SymbolsBelow(r, dom) && dom > 0
    ensures Contained(r, s, dom)
  {
    var z := FreezeRule(r, next);
    FreezeShape(r, next);
    var hom: Env :| AnswersWith(s, Canonical(z), z.next, z.head, hom);
    forall db, u, env: Env | AnswersWith(r, db, dom, u, env) ensures Answers(s, db, dom, u) {
      Homomorphism(r, s, next, dom, hom, db, u, env);
    }
  }

  lemma Homomorphism(r: RawRule, s: RawRule, next: nat, dom: nat, hom: Env, db: Db, u: Fact, env: Env)
    requires IsCq(r) && IsCq(s) && r.head.rel == s.head.rel && Safe(s)
    requires SymbolsBelow(r, next) && SymbolsBelow(s, next) && SymbolsBelow(r, dom) && dom > 0
    requires var z := FreezeRule(r, next); AnswersWith(s, Canonical(z), z.next, z.head, hom)
    requires AnswersWith(r, db, dom, u, env)
    ensures Answers(s, db, dom, u)
  {
    var z := FreezeRule(r, next);
    FreezeShape(r, next);
    CqHolds(s, hom, Canonical(z), z.next);
    CqHolds(r, env, db, dom);
    var env' := Through(hom, z.m, env, s);
    assert |s.head.args| == |r.head.args| by { assert |Values(s.head.args, hom)| == |Values(r.head.args, z.m)|; }
    forall i | 0 <= i < |Conj(s)| ensures FactOf(Conj(s)[i].term.a, env') in db {
      var k := AtomThrough(r, s, next, hom, db, env, i);
    }
    CqHolds(s, env', db, dom);
    forall v | v in env' ensures env'[v] < dom {
      VarThrough(r, s, next, dom, hom, db, env, v);
    }
    forall j | 0 <= j < |s.head.args| ensures Value(s.head.args[j], env') == Value(r.head.args[j], env) {
      HeadThrough(r, s, next, hom, env, j);
    }
    assert Values(s.head.args, env') == Values(r.head.args, env);
    assert AnswersWith(s, db, dom, u, env');
  }

  lemma ThawSym(m: Env, next: nat, next': nat, env: Env, c: nat)
    requires Grown(map[], next, m, next') && c < next
    ensures Thaw(m, env, c) == c
  {
  }

  /** An argument of the second rule's body goes where the homomorphism and then the thawing take it. */
  lemma ArgThrough(s: RawRule, hom: Env, m: Env, next: nat, next': nat, env: Env, x: Arg)
    requires IsCq(s) && Grown(map[], next, m, next')
    requires if x.Sym? then x.c < next else OccursIn(x.v, Conj(s))
    ensures Value(x, Through(hom, m, env, s)) == Thaw(m, env, Value(x, hom))
  {
    if x.Sym? {
      ThawSym(m, next, next', env, x.c);
    } else {
      var i :| 0 <= i < |Conj(s)| && Var(x.v) in Conj(s)[i].term.a.args;
      assert x in Conj(s)[i].term.a.args && x.v in BodyVars(Conj(s));
    }
  }

  /** An atom of the second rule goes to a frozen atom of the first, hence to a fact. */
  lemma AtomThrough(r: RawRule, s: RawRule, next: nat, hom: Env, db: Db, env: Env, i: nat) returns (k: nat)
    requires IsCq(r) && IsCq(s) && SymbolsBelow(r, next) && SymbolsBelow(s, next) && i < |Conj(s)|
    requires var z := FreezeRule(r, next); FactOf(Conj(s)[i].term.a, hom) in Canonical(z)
    requires forall k :: 0 <= k < |Conj(r)| ==> FactOf(Conj(r)[k].term.a, env) in db
    ensures FactOf(Conj(s)[i].term.a, Through(hom, FreezeRule(r, next).m, env, s)) in db
    ensures k < |Conj(r)| && |Conj(s)[i].term.a.args| == |Conj(r)[k].term.a.args|
    ensures forall j :: 0 <= j < |Conj(s)[i].term.a.args| ==>
      Value(Conj(s)[i].term.a.args[j], Through(hom, FreezeRule(r, next).m, env, s)) ==
        Value(Conj(r)[k].term.a.args[j], env)
  {
    var z := FreezeRule(r, next);
    FreezeShape(r, next);
    var a := Conj(s)[i].term.a;
    k :| 0 <= k < |z.body| && z.body[k] == FactOf(a, hom);
    var b := Conj(r)[k].term.a;
    var env' := Through(hom, z.m, env, s);
    assert |a.args| == |Values(a.args, hom)| == |Values(b.args, z.m)| == |b.args|;
    forall j | 0 <= j < |a.args| ensures Value(a.args[j], env') == Value(b.args[j], env) {
      assert Values(a.args, hom)[j] == Values(b.args, z.m)[j];
      ThawValues(b.args, z.m, next, z.next, env, j);
      assert a.args[j] in a.args;
      ArgThrough(s, hom, z.m, next, z.next, env, a.args[j]);
    }
    assert Values(a.args, env') == Values(b.args, env);
    assert FactOf(b, env) in db;
  }

  lemma VarThrough(r: RawRule, s: RawRule, next: nat, dom: nat, hom: Env, db: Db, env: Env, v: nat)
    requires IsCq(r) && IsCq(s) && SymbolsBelow(r, next) && SymbolsBelow(s, next) && SymbolsBelow(r, dom) && dom > 0
    requires var z := FreezeRule(r, next); forall i :: 0 <= i < |Conj(s)| ==>
      FactOf(Conj(s)[i].term.a, hom) in Canonical(z)
    requires forall k :: 0 <= k < |Conj(r)| ==> FactOf(Conj(r)[k].term.a, env) in db
    requires EnvBelow(env, dom) && v in BodyVars(Conj(s))
    ensures Get(Through(hom, FreezeRule(r, next).m, env, s), v) < dom
  {
    var i, x :| 0 <= i < |Conj(s)| && x in Conj(s)[i].term.a.args && x == Var(v);
    var j :| 0 <= j < |Conj(s)[i].term.a.args| && Conj(s)[i].term.a.args[j] == x;
    var k := AtomThrough(r, s, next, hom, db, env, i);
    var y := Conj(r)[k].term.a.args[j];
    assert y in Conj(r)[k].term.a.args;
    assert Value(y, env) < dom;
  }

  lemma HeadThrough(r: RawRule, s: RawRule, next: nat, hom: Env, env: Env, j: nat)
    requires IsCq(r) && IsCq(s) && Safe(s) && SymbolsBelow(r, next) && SymbolsBelow(s, next)
    requires var z := FreezeRule(r, next); Values(s.head.args, hom) == z.head.args
    requires j < |s.head.args| == |r.head.args|
    ensures Value(s.head.args[j], Through(hom, FreezeRule(r, next).m, env, s)) == Value(r.head.args[j], env)
  {
    var z := FreezeRule(r, next);
    FreezeShape(r, next);
    assert Values(s.head.args, hom)[j] == Values(r.head.args, z.m)[j];
    ThawValues(r.head.args, z.m, next, z.next, env, j);
    assert s.head.args[j] in s.head.args;
    ArgThrough(s, hom, z.m, next, z.next, env, s.head.args[j]);
  }

  /** The frozen rule is itself an instance of the rule: its head is an answer on its frozen body. */
  lemma FrozenAnswers(r: RawRule, next: nat)
    requires IsCq(r) && SymbolsBelow(r, next)
    ensures var z := FreezeRule(r, next); Answers(r, Canonical(z), z.next, z.head)
  {
    var z := FreezeRule(r, next);
    FreezeShape(r, next);
    forall i | 0 <= i < |Conj(r)| ensures FactOf(Conj(r)[i].term.a, z.m) in Canonical(z) { assert z.body[i] in z.body; }
    CqHolds(r, z.m, Canonical(z), z.next);
    assert AnswersWith(r, Canonical(z), z.next, z.head, z.m);
  }

  /** Homomorphism theorem: for conjunctive rules, the second safe, the frozen head of the first is an answer of the
      second on its frozen body if and only if the first is contained in the second on every database over every
      universe with the first rule's symbols. */
  lemma OneStepIff(r: RawRule, s: RawRule, next: nat)
    requires IsCq(r) && IsCq(s) && Safe(s) && next > 0 && r.head.rel == s.head.rel
    requires SymbolsBelow(r, next) && SymbolsBelow(s, next)
    ensures OneStep(r, s, next) <==> forall dom :: dom > 0 && SymbolsBelow(r, dom) ==> Contained(r, s, dom)
  {
    var z := FreezeRule(r, next);
    FreezeShape(r, next);
    FrozenAnswers(r, next);
    if OneStep(r, s, next) {
      forall dom | dom > 0 && SymbolsBelow(r, dom) ensures Contained(r, s, dom) { OneStepSound(r, s, next, dom); }
    }
    if forall dom :: dom > 0 && SymbolsBelow(r, dom) ==> Contained(r, s, dom) {
      SymbolsMore(r, next, z.next);
      assert Contained(r, s, z.next);
    }
  }

  lemma SymbolsMore(r: RawRule, n: nat, m: nat)
    requires IsCq(r) && SymbolsBelow(r, n) && n <= m
    ensures SymbolsBelow(r, m)
  {
  }

  // ----- running a rule to a fixed point

  /** The rule with its derived facts kept in a relation of their own, and copied back. */
  function Wedb(s: RawRule, name: nat): seq<RawRule> {
    var derived := Atom(Rel(name, s.head.rel.arity), s.head.args);
    [ RawRule(derived, s.body), RawRule(s.head, Lists([[Signed(false, Lit(derived))]])) ]
  }

  /** One step of positive rules. */
  ghost function PosStep(rs: seq<RawRule>, db: Db, dom: nat): Db {
    iset u: Fact | u in db || SomeAnswer(rs, db, dom, u)
  }

  ghost predicate SomeAnswer(rs: seq<RawRule>, db: Db, dom: nat, u: Fact) {
    exists i :: 0 <= i < |rs| && Answers(rs[i], db, dom, u)
  }

  ghost function PosRun(rs: seq<RawRule>, db: Db, dom: nat, n: nat): Db {
    if n == 0 then db else PosStep(rs, PosRun(rs, db, dom, n - 1), dom)
  }

  /** The fact is derived at some step of the run. */
  ghost predicate Derived(s: RawRule, name: nat, db: Db, dom: nat, u: Fact) {
    u.rel == s.head.rel && exists n: nat ::
      Fact(Rel(name, s.head.rel.arity), u.args) in PosRun(Wedb(s, name), db, dom, n)
  }

  lemma {:induction false} PosRunGrows(rs: seq<RawRule>, db: Db, dom: nat, n: nat, m: nat)
    requires n <= m
    ensures PosRun(rs, db, dom, n) <= PosRun(rs, db, dom, m)
    decreases m
  {
    if n < m { PosRunGrows(rs, db, dom, n, m - 1); }
  }

  lemma {:induction false} PosRunStays(rs: seq<RawRule>, db: Db, dom: nat, n: nat, m: nat)
    requires PosStep(rs, PosRun(rs, db, dom, n), dom) == PosRun(rs, db, dom, n) && n <= m
    ensures PosRun(rs, db, dom, m) == PosRun(rs, db, dom, n)
    decreases m
  {
    if n < m { PosRunStays(rs, db, dom, n, m - 1); }
  }

  /** Once the run has reached a fixed point, what is derived is what it holds. */
  lemma DerivedAtEnd(s: RawRule, name: nat, db: Db, dom: nat, n: nat, u: Fact)
    requires u.rel == s.head.rel
    requires PosStep(Wedb(s, name), PosRun(Wedb(s, name), db, dom, n), dom) == PosRun(Wedb(s, name), db, dom, n)
    ensures Derived(s, name, db, dom, u) <==>
      Fact(Rel(name, s.head.rel.arity), u.args) in PosRun(Wedb(s, name), db, dom, n)
  {
    var v := Fact(Rel(name, s.head.rel.arity), u.args);
    if m: nat :| v in PosRun(Wedb(s, name), db, dom, m) {
      if m <= n { PosRunGrows(Wedb(s, name), db, dom, m, n); } else { PosRunStays(Wedb(s, name), db, dom, n, m); }
    }
  }

  /** The containment test: both rules are conjunctive and about the same relation, and the second, run on the frozen
      body of the first, derives its frozen head. */
  ghost predicate Cqc(r: RawRule, s: RawRule, next: nat, name: nat) {
    IsCq(r) && IsCq(s) && r.head.rel == s.head.rel
    && var z := FreezeRule(r, next); Derived(s, name, Canonical(z), z.next, z.head)
  }

  // ----- derivations follow homomorphisms

  function MapTuple(h: nat -> nat, t: Tuple): Tuple {
    seq(|t|, i requires 0 <= i < |t| => h(t[i]))
  }

  function MapFact(h: nat -> nat, u: Fact): Fact {
    Fact(u.rel, MapTuple(h, u.args))
  }

  /** Every fact of db goes to a fact of db2, into the universe. */
  ghost predicate Maps(h: nat -> nat, db: Db, db2: Db, dom: nat) {
    forall u: Fact :: u in db ==> MapFact(h, u) in db2 && TupleBelow(MapTuple(h, u.args), dom)
  }

  predicate TupleBelow(t: Tuple, dom: nat) {
    forall i :: 0 <= i < |t| ==> t[i] < dom
  }

  /** The symbols of the rule stay, and lie in the universe. */
  ghost predicate Fixes(h: nat -> nat, r: RawRule, dom: nat)
    requires IsCq(r)
  {
    SymsFixed(h, r.head.args, dom) && forall i :: 0 <= i < |Conj(r)| ==> SymsFixed(h, Conj(r)[i].term.a.args, dom)
  }

  ghost predicate SymsFixed(h: nat -> nat, args: seq<Arg>, dom: nat) {
    forall x :: x in args && x.Sym? ==> h(x.c) == x.c < dom
  }

  ghost function MapEnv(h: nat -> nat, env: Env, vars: set<nat>): Env {
    map v | v in vars :: h(Get(env, v))
  }

  lemma MapValues(h: nat -> nat, args: seq<Arg>, env: Env, vars: set<nat>, dom: nat)
    requires SymsFixed(h, args, dom) && forall x :: x in args && x.Var? ==> x.v in vars
    ensures Values(args, MapEnv(h, env, vars)) == MapTuple(h, Values(args, env))
  {
    forall i | 0 <= i < |args| ensures Value(args[i], MapEnv(h, env, vars)) == h(Value(args[i], env)) {
      assert args[i] in args;
    }
  }

  /** An answer goes to an answer. */
  lemma AnswerMaps(r: RawRule, h: nat -> nat, db: Db, dom1: nat, db2: Db, dom2: nat, u: Fact)
    requires IsCq(r) && Safe(r) && Fixes(h, r, dom2) && Maps(h, db, db2, dom2) && Answers(r, db, dom1, u)
    ensures Answers(r, db2, dom2, MapFact(h, u)) && TupleBelow(MapTuple(h, u.args), dom2)
  {
    var env: Env :| AnswersWith(r, db, dom1, u, env);
    CqHolds(r, env, db, dom1);
    var vars := BodyVars(Conj(r));
    var env2 := MapEnv(h, env, vars);
    forall i | 0 <= i < |Conj(r)| ensures FactOf(Conj(r)[i].term.a, env2) in db2 {
      assert FactOf(Conj(r)[i].term.a, env) in db;
      MapValues(h, Conj(r)[i].term.a.args, env, vars, dom2);
    }
    CqHolds(r, env2, db2, dom2);
    forall v | v in env2 ensures env2[v] < dom2 { VarBelow(r, h, env, db, db2, dom2, v); }
    forall x | x in r.head.args && x.Var? ensures x.v in vars {
      var i :| 0 <= i < |Conj(r)| && Var(x.v) in Conj(r)[i].term.a.args;
    }
    MapValues(h, r.head.args, env, vars, dom2);
    assert AnswersWith(r, db2, dom2, MapFact(h, u), env2);
    forall j | 0 <= j < |u.args| ensures MapTuple(h, u.args)[j] < dom2 {
      assert r.head.args[j] in r.head.args;
      assert MapTuple(h, u.args)[j] == Value(r.head.args[j], env2);
    }
  }

  lemma VarBelow(r: RawRule, h: nat -> nat, env: Env, db: Db, db2: Db, dom: nat, v: nat)
    requires IsCq(r) && Maps(h, db, db2, dom) && v in BodyVars(Conj(r))
    requires forall i :: 0 <= i < |Conj(r)| ==> FactOf(Conj(r)[i].term.a, env) in db
    ensures h(Get(env, v)) < dom
  {
    var i, x :| 0 <= i < |Conj(r)| && x in Conj(r)[i].term.a.args && x == Var(v);
    var j :| 0 <= j < |Conj(r)[i].term.a.args| && Conj(r)[i].term.a.args[j] == x;
    var u := FactOf(Conj(r)[i].term.a, env);
    assert u in db && MapTuple(h, u.args)[j] == h(Get(env, v));
  }

  ghost predicate AllSafe(rs: seq<RawRule>, h: nat -> nat, dom: nat) {
    forall i :: 0 <= i < |rs| ==> IsCq(rs[i]) && Safe(rs[i]) && Fixes(h, rs[i], dom)
  }

  lemma {:induction false} RunMaps(rs: seq<RawRule>, h: nat -> nat, db: Db, dom1: nat, db2: Db, dom2: nat, n: nat)
    requires AllSafe(rs, h, dom2) && Maps(h, db, db2, dom2)
    ensures Maps(h, PosRun(rs, db, dom1, n), PosRun(rs, db2, dom2, n), dom2)
  {
    if n > 0 {
      var d, d2 := PosRun(rs, db, dom1, n - 1), PosRun(rs, db2, dom2, n - 1);
      RunMaps(rs, h, db, dom1, db2, dom2, n - 1);
      forall u: Fact | u in PosStep(rs, d, dom1)
        ensures MapFact(h, u) in PosStep(rs, d2, dom2) && TupleBelow(MapTuple(h, u.args), dom2)
      {
        if i :| 0 <= i < |rs| && Answers(rs[i], d, dom1, u) { AnswerMaps(rs[i], h, d, dom1, d2, dom2, u); }
      }
    }
  }

  lemma WedbSafe(s: RawRule, name: nat, h: nat -> nat, dom: nat)
    requires IsCq(s) && Safe(s) && Fixes(h, s, dom)
    ensures AllSafe(Wedb(s, name), h, dom)
  {
    var rs := Wedb(s, name);
    var c := Conj(rs[1]);
    assert Conj(rs[0]) == Conj(s) && |c| == 1 && c[0].term.a.args == s.head.args;
    forall x | x in s.head.args && x.Var? ensures OccursIn(x.v, Conj(rs[0])) && OccursIn(x.v, c) {
      assert OccursIn(x.v, Conj(s)) && Var(x.v) in c[0].term.a.args;
    }
    assert Fixes(h, rs[0], dom) && Fixes(h, rs[1], dom) && Safe(rs[0]) && Safe(rs[1]);
  }

  // ----- what the test decides

  /** The frozen rule goes to any answer of the rule. */
  lemma CanonicalMaps(r: RawRule, next: nat, db: Db, dom: nat, u: Fact, env: Env)
    requires IsCq(r) && SymbolsBelow(r, next) && SymbolsBelow(r, dom) && dom > 0 && AnswersWith(r, db, dom, u, env)
    ensures var z := FreezeRule(r, next);
      var h := x => Thaw(z.m, env, x);
      Maps(h, Canonical(z), db, dom) && MapFact(h, z.head) == u
  {
    var z := FreezeRule(r, next);
    var h := x => Thaw(z.m, env, x);
    FreezeShape(r, next);
    CqHolds(r, env, db, dom);
    forall f: Fact | f in Canonical(z) ensures MapFact(h, f) in db && TupleBelow(MapTuple(h, f.args), dom) {
      var i :| 0 <= i < |z.body| && z.body[i] == f;
      var a := Conj(r)[i].term.a;
      assert FactOf(a, env) in db;
      forall j | 0 <= j < |a.args| ensures h(f.args[j]) == Value(a.args[j], env) < dom {
        ThawValues(a.args, z.m, next, z.next, env, j);
        assert a.args[j] in a.args;
      }
      assert MapTuple(h, f.args) == Values(a.args, env);
    }
    forall j | 0 <= j < |r.head.args| ensures h(z.head.args[j]) == Value(r.head.args[j], env) {
      ThawValues(r.head.args, z.m, next, z.next, env, j);
    }
    assert MapTuple(h, z.head.args) == Values(r.head.args, env);
  }

  /** Every answer of the first rule is derived by the second, on databases without facts from the name on. */
  ghost predicate AllDerived(r: RawRule, s: RawRule, name: nat, dom: nat) {
    forall db, u :: Answers(r, db, dom, u) ==> Derived(s, name, db, dom, u)
  }

  lemma CqcSound(r: RawRule, s: RawRule, next: nat, name: nat, dom: nat)
    requires Cqc(r, s, next, name) && Safe(s) && SymbolsBelow(r, next) && SymbolsBelow(s, next)
    requires SymbolsBelow(r, dom) && SymbolsBelow(s, dom) && dom > 0
    ensures AllDerived(r, s, name, dom)
  {
    var z := FreezeRule(r, next);
    FreezeShape(r, next);
    var v := Fact(Rel(name, s.head.rel.arity), z.head.args);
    var n: nat :| v in PosRun(Wedb(s, name), Canonical(z), z.next, n);
    forall db, u | Answers(r, db, dom, u) ensures Derived(s, name, db, dom, u) {
      var env: Env :| AnswersWith(r, db, dom, u, env);
      var h := x => Thaw(z.m, env, x);
      CanonicalMaps(r, next, db, dom, u, env);
      forall c: nat | c < next ensures h(c) == c { ThawSym(z.m, next, z.next, env, c); }
      WedbSafe(s, name, h, dom);
      RunMaps(Wedb(s, name), h, Canonical(z), z.next, db, dom, n);
      assert MapFact(h, v) in PosRun(Wedb(s, name), db, dom, n);
      assert MapFact(h, v) == Fact(v.rel, u.args) by { assert MapFact(h, z.head) == u; }
    }
  }

  /** For conjunctive rules, the second safe, the test holds if and only if on every database the answers of the first
      are among the facts the second derives when it is run to a fixed point. */
  lemma CqcDerives(r: RawRule, s: RawRule, next: nat, name: nat)
    requires IsCq(r) && IsCq(s) && r.head.rel == s.head.rel && Safe(s) && next > 0
    requires SymbolsBelow(r, next) && SymbolsBelow(s, next)
    ensures Cqc(r, s, next, name) <==>
      forall dom :: dom > 0 && SymbolsBelow(r, dom) && SymbolsBelow(s, dom) ==> AllDerived(r, s, name, dom)
  {
    var z := FreezeRule(r, next);
    FreezeShape(r, next);
    FrozenAnswers(r, next);
    if Cqc(r, s, next, name) {
      forall dom | dom > 0 && SymbolsBelow(r, dom) && SymbolsBelow(s, dom) ensures AllDerived(r, s, name, dom) {
        CqcSound(r, s, next, name, dom);
      }
    }
    if forall dom :: dom > 0 && SymbolsBelow(r, dom) && SymbolsBelow(s, dom) ==> AllDerived(r, s, name, dom) {
      SymbolsMore(r, next, z.next);
      SymbolsMore(s, next, z.next);
      assert AllDerived(r, s, name, z.next);
    }
  }

  /** An answer is derived in one step. */
  lemma AnswerDerived(s: RawRule, name: nat, db: Db, dom: nat, u: Fact)
    requires IsCq(s) && Answers(s, db, dom, u)
    ensures Derived(s, name, db, dom, u)
  {
    var env: Env :| AnswersWith(s, db, dom, u, env);
    var rs := Wedb(s, name);
    var v := Fact(Rel(name, s.head.rel.arity), u.args);
    assert AnswersWith(rs[0], db, dom, v, env);
    assert Answers(rs[0], db, dom, v);
    assert PosRun(rs, db, dom, 0) == db;
    assert v in PosRun(rs, db, dom, 1);
  }

  /** Containment is always noticed. */
  lemma ContainedCqc(r: RawRule, s: RawRule, next: nat, name: nat)
    requires IsCq(r) && IsCq(s) && r.head.rel == s.head.rel && next > 0 && SymbolsBelow(r, next)
    requires forall dom :: dom > 0 && SymbolsBelow(r, dom) ==> Contained(r, s, dom)
    ensures Cqc(r, s, next, name)
  {
    var z := FreezeRule(r, next);
    FreezeShape(r, next);
    FrozenAnswers(r, next);
    SymbolsMore(r, next, z.next);
    assert Contained(r, s, z.next);
    AnswerDerived(s, name, Canonical(z), z.next, z.head);
  }

  /** The head relation does not occur in the body. */
  predicate NotRecursive(s: RawRule)
    requires IsCq(s)
  {
    forall i :: 0 <= i < |Conj(s)| ==> Conj(s)[i].term.a.rel != s.head.rel
  }

  /** The relations of the rule are named below the name. */
  predicate RelsBelow(s: RawRule, name: nat)
    requires IsCq(s)
  {
    s.head.rel.name < name && forall i :: 0 <= i < |Conj(s)| ==> Conj(s)[i].term.a.rel.name < name
  }

  /** No fact has the name given to the derived facts. */
  ghost predicate Unnamed(db: Db, name: nat) {
    forall u: Fact :: u in db ==> u.rel.name != name
  }

  /** The relations of the body keep their facts throughout the run, and what is derived is an answer. */
  lemma {:induction false} RunPlain(s: RawRule, name: nat, db: Db, dom: nat, n: nat)
    requires IsCq(s) && NotRecursive(s) && RelsBelow(s, name) && Unnamed(db, name)
    ensures forall u: Fact ::
      u in PosRun(Wedb(s, name), db, dom, n) && u.rel.name != name && u.rel != s.head.rel ==> u in db
    ensures forall u: Fact :: u in PosRun(Wedb(s, name), db, dom, n) && u.rel.name == name ==>
      Answers(s, db, dom, Fact(s.head.rel, u.args))
  {
    if n > 0 {
      var rs, d := Wedb(s, name), PosRun(Wedb(s, name), db, dom, n - 1);
      RunPlain(s, name, db, dom, n - 1);
      PosRunGrows(rs, db, dom, 0, n - 1);
      forall u: Fact, i | 0 <= i < |rs| && Answers(rs[i], d, dom, u)
        ensures if i == 0 then u.rel.name == name && Answers(s, db, dom, Fact(s.head.rel, u.args))
          else u.rel == s.head.rel
      {
        var env: Env :| AnswersWith(rs[i], d, dom, u, env);
        if i == 0 {
          CqHolds(rs[0], env, d, dom);
          forall k | 0 <= k < |Conj(s)| ensures FactOf(Conj(s)[k].term.a, env) in db {
            assert Conj(rs[0]) == Conj(s) && FactOf(Conj(s)[k].term.a, env) in d;
          }
          CqHolds(s, env, db, dom);
          assert AnswersWith(s, db, dom, Fact(s.head.rel, u.args), env);
        }
      }
    }
  }

  lemma DerivedPlain(s: RawRule, name: nat, db: Db, dom: nat, u: Fact)
    requires IsCq(s) && NotRecursive(s) && RelsBelow(s, name) && Unnamed(db, name) && u.rel == s.head.rel
    ensures Derived(s, name, db, dom, u) <==> Answers(s, db, dom, u)
  {
    if Answers(s, db, dom, u) { AnswerDerived(s, name, db, dom, u); }
    if Derived(s, name, db, dom, u) {
      var n: nat :| Fact(Rel(name, s.head.rel.arity), u.args) in PosRun(Wedb(s, name), db, dom, n);
      RunPlain(s, name, db, dom, n);
      assert u == Fact(s.head.rel, u.args);
    }
  }

  /** For conjunctive rules, the second safe and not recursive, the test holds if and only if the first is contained in
      the second on every database over every universe with the first rule's symbols. */
  lemma CqcIff(r: RawRule, s: RawRule, next: nat, name: nat)
    requires IsCq(r) && IsCq(s) && r.head.rel == s.head.rel && Safe(s) && next > 0
    requires SymbolsBelow(r, next) && SymbolsBelow(s, next) && RelsBelow(r, name) && RelsBelow(s, name)
    requires NotRecursive(s)
    ensures Cqc(r, s, next, name) <==> forall dom :: dom > 0 && SymbolsBelow(r, dom) ==> Contained(r, s, dom)
  {
    var z := FreezeRule(r, next);
    FreezeShape(r, next);
    assert Unnamed(Canonical(z), name);
    DerivedPlain(s, name, Canonical(z), z.next, z.head);
    OneStepIff(r, s, next);
  }

  /** The rules the test is used on: conjunctive, with the same head relation, the second one safe and not recursive,
      all symbols and names below the fresh ones. */
  predicate Testable(r: RawRule, s: RawRule, next: nat, name: nat, dom: nat) {
    && IsCq(r) && IsCq(s) && r.head.rel == s.head.rel && Safe(s) && NotRecursive(s)
    && SymbolsBelow(r, next) && SymbolsBelow(s, next) && RelsBelow(r, name) && RelsBelow(s, name)
    && SymbolsBelow(r, dom)
  }

  /** A test that says yes only where this one does, on such rules, may be used to minimize and to subsume. */
  lemma CqcTestSound(f: (RawRule, RawRule) -> bool, next: nat, name: nat, dom: nat)
    requires dom > 0 && next > 0
    requires forall r, s :: f(r, s) ==> Testable(r, s, next, name, dom) && Cqc(r, s, next, name)
    ensures Sound(f, dom)
  {
    forall r, s | f(r, s) ensures Contained(r, s, dom) {
      CqcIff(r, s, next, name);
    }
  }

  // ----- without the condition the test errs

  function Edge(x: nat, y: nat): Signed {
    Signed(false, Lit(Atom(Rel(0, 2), [Var(x), Var(y)])))
  }

  function Path(x: nat, y: nat, c: seq<Signed>): RawRule {
    RawRule(Atom(Rel(0, 2), [Var(x), Var(y)]), Lists([c]))
  }

  function EdgeFact(x: nat, y: nat): Fact {
    Fact(Rel(0, 2), [x, y])
  }

  /** A path of three edges, and the recursive rule for two. */
  function Three(): RawRule {
    Path(0, 3, [Edge(0, 1), Edge(1, 2), Edge(2, 3)])
  }

  function Two(): RawRule {
    Path(0, 2, [Edge(0, 1), Edge(1, 2)])
  }

  lemma QuoteMore(args: seq<Arg>, x: Arg, m: Env, next: nat)
    ensures var a := QuoteArgs(args, m, next);
      var y := QuoteArg(x, a.m, a.next);
      QuoteArgs(args + [x], m, next) == Frozen(a.t + [y.t], y.m, y.next)
  {
    assert (args + [x])[..|args|] == args;
  }

  lemma QuoteTwo(x: nat, y: nat, m: Env, next: nat)
    ensures var a := QuoteArg(Var(x), m, next);
      var b := QuoteArg(Var(y), a.m, a.next);
      QuoteArgs([Var(x), Var(y)], m, next) == Frozen([a.t, b.t], b.m, b.next)
  {
    var a := QuoteArg(Var(x), m, next);
    var b := QuoteArg(Var(y), a.m, a.next);
    QuoteMore([], Var(x), m, next);
    QuoteMore([Var(x)], Var(y), m, next);
    assert [] + [Var(x)] == [Var(x)] && [Var(x)] + [Var(y)] == [Var(x), Var(y)] && [] + [a.t] == [a.t] &&
      [a.t] + [b.t] == [a.t, b.t];
  }

  lemma QuoteEdge(c: seq<Signed>, x: nat, y: nat, m: Env, next: nat, z: Frozen<seq<Fact>>, a: Frozen<nat>,
        b: Frozen<nat>)
    requires (forall i :: 0 <= i < |c| ==> c[i].term.Lit?) && QuoteTerms(c, m, next) == z
    requires QuoteArg(Var(x), z.m, z.next) == a && QuoteArg(Var(y), a.m, a.next) == b
    ensures QuoteTerms(c + [Edge(x, y)], m, next) == Frozen(z.t + [EdgeFact(a.t, b.t)], b.m, b.next)
  {
    QuoteTwo(x, y, z.m, z.next);
    assert (c + [Edge(x, y)])[..|c|] == c;
  }

  lemma QuoteNone(m: Env, next: nat)
    ensures QuoteTerms([], m, next) == Frozen([], m, next)
  {
  }

  lemma ThreeNames(m1: Env, m2: Env, m3: Env)
    requires m1 == map[0 := 1, 3 := 2] && m2 == m1[1 := 3] && m3 == m2[2 := 4]
    ensures QuoteArg(Var(0), m1, 3) == Frozen(1, m1, 3) && QuoteArg(Var(1), m1, 3) == Frozen(3, m2, 4)
    ensures QuoteArg(Var(1), m2, 4) == Frozen(3, m2, 4) && QuoteArg(Var(2), m2, 4) == Frozen(4, m3, 5)
    ensures QuoteArg(Var(2), m3, 5) == Frozen(4, m3, 5) && QuoteArg(Var(3), m3, 5) == Frozen(2, m3, 5)
  {
  }

  /** The body of the path of three edges, its head's variables already frozen. */
  lemma ThreeQuoted(m1: Env, m2: Env, m3: Env)
    requires m1 == map[0 := 1, 3 := 2] && m2 == m1[1 := 3] && m3 == m2[2 := 4]
    ensures QuoteTerms([Edge(0, 1), Edge(1, 2), Edge(2, 3)], m1, 3) ==
      Frozen([EdgeFact(1, 3), EdgeFact(3, 4), EdgeFact(4, 2)], m3, 5)
  {
    QuoteNone(m1, 3);
    ThreeNames(m1, m2, m3);
    hide QuoteTerms, QuoteArg;
    var e, f, g := Edge(0, 1), Edge(1, 2), Edge(2, 3);
    QuoteEdge([], 0, 1, m1, 3, Frozen([], m1, 3), Frozen(1, m1, 3), Frozen(3, m2, 4));
    QuoteEdge([] + [e], 1, 2, m1, 3, Frozen([] + [EdgeFact(1, 3)], m2, 4), Frozen(3, m2, 4), Frozen(4, m3, 5));
    QuoteEdge([] + [e] + [f], 2, 3, m1, 3, Frozen([] + [EdgeFact(1, 3)] + [EdgeFact(3, 4)], m3, 5),
      Frozen(4, m3, 5), Frozen(2, m3, 5));
    assert [] + [e] + [f] + [g] == [e, f, g];
    assert [] + [EdgeFact(1, 3)] + [EdgeFact(3, 4)] + [EdgeFact(4, 2)] ==
      [EdgeFact(1, 3), EdgeFact(3, 4), EdgeFact(4, 2)];
  }

  /** The frozen form of the path of three edges. */
  lemma FrozenThree()
    ensures FreezeRule(Three(), 1) == FrozenRule(EdgeFact(1, 2), [EdgeFact(1, 3), EdgeFact(3, 4), EdgeFact(4, 2)],
      map[0 := 1, 3 := 2, 1 := 3, 2 := 4], 5)
  {
    var m1: Env := map[0 := 1, 3 := 2];
    QuoteTwo(0, 3, map[], 1);
    assert QuoteArgs([Var(0), Var(3)], map[], 1) == Frozen([1, 2], m1, 3);
    hide QuoteTerms, QuoteArgs, QuoteArg;
    ThreeQuoted(m1, m1[1 := 3], m1[1 := 3][2 := 4]);
    assert m1[1 := 3][2 := 4] == map[0 := 1, 3 := 2, 1 := 3, 2 := 4];
  }

  lemma TwoAnswers(x: nat, y: nat, z: nat, db: Db, dom: nat)
    requires EdgeFact(x, y) in db && EdgeFact(y, z) in db && x < dom && y < dom && z < dom
    ensures Answers(Two(), db, dom, EdgeFact(x, z))
  {
    var env: Env := map[0 := x, 1 := y, 2 := z];
    assert Values([Var(0), Var(1)], env) == [x, y] && Values([Var(1), Var(2)], env) == [y, z] &&
      Values([Var(0), Var(2)], env) == [x, z];
    CqHolds(Two(), env, db, dom);
    assert AnswersWith(Two(), db, dom, EdgeFact(x, z), env);
  }

  /** A path of two edges is derived, and is an edge two steps later. */
  lemma TwoDerived(x: nat, y: nat, z: nat, name: nat, db: Db, dom: nat, n: nat, n1: nat, n2: nat)
    requires var d := PosRun(Wedb(Two(), name), db, dom, n); EdgeFact(x, y) in d && EdgeFact(y, z) in d
    requires x < dom && y < dom && z < dom && n1 == n + 1 && n2 == n + 2
    ensures Fact(Rel(name, 2), [x, z]) in PosRun(Wedb(Two(), name), db, dom, n1)
    ensures EdgeFact(x, z) in PosRun(Wedb(Two(), name), db, dom, n2)
  {
    var rs, d := Wedb(Two(), name), PosRun(Wedb(Two(), name), db, dom, n);
    TwoAnswers(x, y, z, d, dom);
    var env: Env :| AnswersWith(Two(), d, dom, EdgeFact(x, z), env);
    var v := Fact(Rel(name, 2), [x, z]);
    assert AnswersWith(rs[0], d, dom, v, env);
    assert Answers(rs[0], d, dom, v) && v in PosRun(rs, db, dom, n1);
    var e: Env := map[0 := x, 2 := z];
    var d1 := PosRun(rs, db, dom, n1);
    assert Values([Var(0), Var(2)], e) == [x, z];
    CqHolds(rs[1], e, d1, dom);
    assert FactOf(Conj(rs[1])[0].term.a, e) == v;
    assert AnswersWith(rs[1], d1, dom, EdgeFact(x, z), e);
    assert Answers(rs[1], d1, dom, EdgeFact(x, z));
  }

  lemma RecursiveDerives(name: nat)
    ensures Cqc(Three(), Two(), 1, name)
  {
    var z := FreezeRule(Three(), 1);
    FrozenThree();
    var db := Canonical(z);
    var e1, e2, e3 := EdgeFact(1, 3), EdgeFact(3, 4), EdgeFact(4, 2);
    assert z.body[0] == e1 && z.body[1] == e2 && z.body[2] == e3;
    assert e1 in db && e2 in db && e3 in db;
    hide FreezeRule, Canonical, Wedb, PosRun;
    assert PosRun(Wedb(Two(), name), db, 5, 0) == db by { RunStart(Wedb(Two(), name), db, 5); }
    TwoDerived(1, 3, 4, name, db, 5, 0, 1, 2);
    PosRunGrows(Wedb(Two(), name), db, 5, 0, 2);
    TwoDerived(1, 4, 2, name, db, 5, 2, 3, 4);
    assert z.next == 5 && Fact(Rel(name, 2), z.head.args) in PosRun(Wedb(Two(), name), db, z.next, 3);
  }

  lemma RunStart(rs: seq<RawRule>, db: Db, dom: nat)
    ensures PosRun(rs, db, dom, 0) == db
  {
  }

  lemma ThreeNotContained()
    ensures !Contained(Three(), Two(), 5)
  {
    var db := Canonical(FreezeRule(Three(), 1));
    FrozenThree();
    FrozenAnswers(Three(), 1);
    NotInTwo(db);
    hide Answers, FreezeRule;
    assert Answers(Three(), db, 5, EdgeFact(1, 2)) && !Answers(Two(), db, 5, EdgeFact(1, 2));
  }

  /** For the recursive rule the test says yes, although the path of three edges is not contained in it. */
  lemma RecursiveNotContained(name: nat)
    ensures IsCq(Three()) && IsCq(Two()) && Safe(Three()) && Safe(Two()) && !NotRecursive(Two())
    ensures Cqc(Three(), Two(), 1, name) && !Contained(Three(), Two(), 5)
  {
    BothSafe();
    RecursiveDerives(name);
    ThreeNotContained();
    hide Cqc, Contained, Safe, NotRecursive;
  }

  lemma BothSafe()
    ensures Safe(Three()) && Safe(Two()) && !NotRecursive(Two())
  {
    var c, d := Conj(Three()), Conj(Two());
    assert Var(0) in c[0].term.a.args && Var(3) in c[2].term.a.args && Var(0) in d[0].term.a.args &&
      Var(2) in d[1].term.a.args;
    assert d[0].term.a.rel == Two().head.rel;
  }

  lemma NotInTwo(db: Db)
    requires forall u: Fact :: u in db <==> u == EdgeFact(1, 3) || u == EdgeFact(3, 4) || u == EdgeFact(4, 2)
    ensures !Answers(Two(), db, 5, EdgeFact(1, 2))
  {
    forall env: Env ensures !AnswersWith(Two(), db, 5, EdgeFact(1, 2), env) {
      CqHolds(Two(), env, db, 5);
      var c, a, b := Get(env, 0), Get(env, 1), Get(env, 2);
      assert FactOf(Conj(Two())[0].term.a, env).args == [c, a] && FactOf(Conj(Two())[1].term.a, env).args == [a, b];
      assert Values(Two().head.args, env) == [c, b];
      assert c == 1 && b == 2 ==>
        !(FactOf(Conj(Two())[0].term.a, env) in db && FactOf(Conj(Two())[1].term.a, env) in db) by {
        assert EdgeFact(c, a).args[0] == c && EdgeFact(a, b).args[1] == b && EdgeFact(c, a).args[1] == a &&
          EdgeFact(a, b).args[0] == a;
      }
    }
  }
}
