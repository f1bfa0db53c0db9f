/** Replacing an atom by the bodies of its rules, and squaring a program. */
module Inlining {
  import opened Formula

  datatype Rule = Rule(neg: bool, head: Atom, body: Form)

  // ----- rules and steps

  predicate SymsBelow(args: seq<Arg>, dom: nat) {
    forall x :: x in args && x.Sym? ==> x.c < dom
  }

  predicate AtomOk(a: Atom, dom: nat) {
    |a.args| == a.rel.arity && SymsBelow(a.args, dom)
  }

  /** Atoms have the arity of their relation, and all symbols lie in the universe. */
  predicate FormOk(f: Form, dom: nat) {
    match f
    case Lit(a) => AtomOk(a, dom)
    case Equal(x, y) => SymsBelow([x, y], dom)
    case Not(g) => FormOk(g, dom)
    case Bin(_, l, r) => FormOk(l, dom) && FormOk(r, dom)
    case Quant(_, _, g) => FormOk(g, dom)
  }

  predicate RuleOk(r: Rule, dom: nat) {
    AtomOk(r.head, dom) && FormOk(r.body, dom)
  }

  predicate RulesOk(rs: seq<Rule>, dom: nat) {
    dom > 0 && forall i :: 0 <= i < |rs| ==> RuleOk(rs[i], dom)
  }

  predicate EnvBelow(env: Env, dom: nat) {
    forall v :: v in env ==> env[v] < dom
  }

  /** The rule derives the fact with these values of its variables. */
  ghost predicate FiresWith(r: Rule, db: Db, dom: nat, u: Fact, env: Env) {
    EnvBelow(env, dom) && u == Fact(r.head.rel, Values(r.head.args, env)) && Eval(r.body, env, db, dom)
  }

  ghost predicate Fires(r: Rule, db: Db, dom: nat, u: Fact) {
    exists env: Env :: FiresWith(r, db, dom, u, env)
  }

  predicate HasRules(rs: seq<Rule>, rel: Rel) {
    exists i :: 0 <= i < |rs| && rs[i].head.rel == rel
  }

  ghost predicate SomeFires(rs: seq<Rule>, db: Db, dom: nat, u: Fact) {
    exists i :: 0 <= i < |rs| && Fires(rs[i], db, dom, u)
  }

  /** One step that forgets: a relation with rules holds exactly what they derive, the others stay. */
  ghost function PStep(rs: seq<Rule>, db: Db, dom: nat): Db {
    iset u: Fact | if HasRules(rs, u.rel) then SomeFires(rs, db, dom, u) else u in db
  }

  // ----- unfolding an atom by one rule

  /** The head's variables stand for the arguments of the atom; a later occurrence wins. */
  function HeadRenaming(h: seq<Arg>, use: seq<Arg>, n: nat): (ren: Renaming)
    requires n <= |h| == |use|
    ensures forall i :: 0 <= i < n && h[i].Var? ==> h[i].v in ren
    ensures forall v :: v in ren ==> exists i :: 0 <= i < n && h[i] == Var(v) && ren[v] == use[i]
  {
    if n == 0 then map[]
    else
      var m := HeadRenaming(h, use, n - 1);
      if h[n - 1].Var? then m[h[n - 1].v := use[n - 1]] else m
  }

  /** env' differs from env at most on the variables of W, where its values lie in the universe. */
  ghost predicate Differ(env: Env, env': Env, W: set<nat>, dom: nat) {
    forall v: nat :: if v in W then Get(env', v) < dom else Get(env', v) == Get(env, v)
  }

  ghost predicate EvalSome(f: Form, env: Env, W: set<nat>, db: Db, dom: nat) {
    exists env': Env :: Differ(env, env', W, dom) && Eval(f, env', db, dom)
  }

  lemma EvalSomeNone(f: Form, env: Env, db: Db, dom: nat)
    ensures EvalSome(f, env, {}, db, dom) <==> Eval(f, env, db, dom)
  {
    if Eval(f, env, db, dom) { assert Differ(env, env, {}, dom); }
    if EvalSome(f, env, {}, db, dom) {
      var env': Env :| Differ(env, env', {}, dom) && Eval(f, env', db, dom);
      EvalSame(f, env, env', db, dom);
    }
  }

  /** Quantifying one more variable. */
  lemma EvalSomeMore(f: Form, g: Form, q: Form, env: Env, W: set<nat>, w: nat, db: Db, dom: nat)
    requires w !in W && q == Quant(Exists, w, g)
    requires forall e: Env :: Eval(g, e, db, dom) <==> EvalSome(f, e, W, db, dom)
    ensures Eval(q, env, db, dom) <==> EvalSome(f, env, W + {w}, db, dom)
  {
    var H := Holders(g, env, db, dom, w);
    if Eval(q, env, db, dom) {
      var d: nat :| d in H;
      assert EvalSome(f, env[w := d], W, db, dom);
      var env': Env :| Differ(env[w := d], env', W, dom) && Eval(f, env', db, dom);
      assert Get(env[w := d], w) == d && Get(env', w) == d;
      assert Differ(env, env', W + {w}, dom);
    }
    if EvalSome(f, env, W + {w}, db, dom) {
      var env': Env :| Differ(env, env', W + {w}, dom) && Eval(f, env', db, dom);
      assert w in W + {w};
      var d := Get(env', w);
      assert Differ(env[w := d], env', W, dom);
      assert EvalSome(f, env[w := d], W, db, dom);
      assert Eval(g, env[w := d], db, dom);
      assert d in H;
    }
  }

  /** The equations between the arguments of the atom and of the head hold. */
  ghost predicate Linked(h: seq<Arg>, use: seq<Arg>, ren: Renaming, n: nat, env: Env)
    requires n <= |h| == |use| && forall i :: 0 <= i < |h| && h[i].Var? ==> h[i].v in ren
  {
    forall i :: 0 <= i < n ==> Value(use[i], env) == Value(NewName(h[i], ren), env)
  }

  function NewName(x: Arg, ren: Renaming): Arg
    requires x.Var? ==> x.v in ren
  {
    if x.Var? then ren[x.v] else x
  }

  function Generated(ren: Renaming, use: seq<Arg>): set<nat> {
    set v | v in ren && ren[v].Var? && ren[v] !in use :: ren[v].v
  }

  /** The atom's fact is derived if and only if the renamed body holds for some values of the generated variables and
      the arguments are linked. */
  lemma Unfolded(use: Atom, def: Rule, ren0: Renaming, x: Renamed<Form>, next: nat, env: Env, db: Db, dom: nat)
    requires use.rel == def.head.rel && |use.args| == |def.head.args| && AtomOk(use, dom) && RuleOk(def, dom) && dom > 0
    requires BelowArgs(use.args, next) && ren0 == HeadRenaming(def.head.args, use.args, |use.args|)
    requires x == Rename(def.body, ren0, next, true) && EnvBelow(env, dom)
    ensures AllBelow(ren0, next) && Extends(ren0, next, x.ren, x.next)
    ensures EvalSome(x.t, env, Generated(x.ren, use.args), db, dom) &&
      Linked(def.head.args, use.args, x.ren, |use.args|, env)
      <==> Fires(def, db, dom, Fact(use.rel, Values(use.args, env)))
  {
    RenamingBelow(def.head.args, use.args, ren0, next);
    RenameShape(def.body, ren0, next);
    var W := Generated(x.ren, use.args);
    if EvalSome(x.t, env, W, db, dom) && Linked(def.head.args, use.args, x.ren, |use.args|, env) {
      var env2: Env :| Differ(env, env2, W, dom) && Eval(x.t, env2, db, dom);
      UnfoldedOnly(use, def, ren0, x, next, env, env2, db, dom);
    }
    if Fires(def, db, dom, Fact(use.rel, Values(use.args, env))) {
      var env1: Env :| FiresWith(def, db, dom, Fact(use.rel, Values(use.args, env)), env1);
      UnfoldedIf(use, def, ren0, x, next, env, env1, db, dom);
    }
  }

  lemma RenamingBelow(h: seq<Arg>, use: seq<Arg>, ren: Renaming, next: nat)
    requires |h| == |use| && ren == HeadRenaming(h, use, |use|) && BelowArgs(use, next)
    ensures AllBelow(ren, next)
  {
    forall v | v in ren ensures BelowArg(ren[v], next) {
      var i :| 0 <= i < |use| && h[i] == Var(v) && ren[v] == use[i];
      assert use[i] in use;
    }
  }

  /** The values the renamed variables give to the rule's own variables. */
  ghost function Back(ren: Renaming, env: Env): Env {
    map v | v in ren :: Value(ren[v], env)
  }

  lemma UnfoldedOnly(use: Atom, def: Rule, ren0: Renaming, x: Renamed<Form>, next: nat, env: Env, env2: Env, db: Db,
        dom: nat)
    requires use.rel == def.head.rel && |use.args| == |def.head.args| && AtomOk(use, dom) && AtomOk(def.head, dom)
    requires dom > 0
    requires ren0 == HeadRenaming(def.head.args, use.args, |use.args|) && AllBelow(ren0, next)
    requires x == Rename(def.body, ren0, next, true) && Extends(ren0, next, x.ren, x.next)
    requires FreeVars(def.body) <= x.ren.Keys
    requires EnvBelow(env, dom) && Differ(env, env2, Generated(x.ren, use.args), dom) && Eval(x.t, env2, db, dom)
    requires Linked(def.head.args, use.args, x.ren, |use.args|, env)
    ensures Fires(def, db, dom, Fact(use.rel, Values(use.args, env)))
  {
    var h := def.head.args;
    var env1 := Back(x.ren, env2);
    RenameMeans(def.body, ren0, next, env1, env2, db, dom);
    forall v | v in env1 ensures env1[v] < dom {
      BackBelow(use.args, h, ren0, x.ren, next, x.next, env, env2, v, dom);
    }
    BackValues(use.args, h, ren0, x.ren, next, x.next, env, env2, dom);
    hide Rename, Eval, Differ, Linked, Back, Generated, HeadRenaming;
    assert FiresWith(def, db, dom, Fact(use.rel, Values(use.args, env)), env1);
  }

  lemma BackValues(use: seq<Arg>, h: seq<Arg>, ren0: Renaming, ren: Renaming, next: nat, next': nat, env: Env,
        env2: Env, dom: nat)
    requires |use| == |h| && ren0 == HeadRenaming(h, use, |use|) && Extends(ren0, next, ren, next')
    requires Differ(env, env2, Generated(ren, use), dom) && Linked(h, use, ren, |use|, env)
    ensures Values(h, Back(ren, env2)) == Values(use, env)
  {
    var env1 := Back(ren, env2);
    forall i | 0 <= i < |h| ensures Value(h[i], env1) == Value(use[i], env) {
      if h[i].Var? {
        var j :| 0 <= j < |h| && h[j] == Var(h[i].v) && ren0[h[i].v] == use[j];
        assert use[j] in use && Value(use[j], env2) == Value(use[j], env);
      }
    }
  }

  lemma BackBelow(use: seq<Arg>, h: seq<Arg>, ren0: Renaming, ren: Renaming, next: nat, next': nat, env: Env,
        env2: Env, v: nat, dom: nat)
    requires |use| == |h| && ren0 == HeadRenaming(h, use, |use|) && Extends(ren0, next, ren, next') && v in ren
    requires SymsBelow(use, dom) && dom > 0 && EnvBelow(env, dom) && Differ(env, env2, Generated(ren, use), dom)
    ensures Value(ren[v], env2) < dom
  {
    if v in ren0 {
      var j :| 0 <= j < |h| && h[j] == Var(v) && ren0[v] == use[j];
      assert use[j] in use;
    }
  }

  /** env with the generated variables set to what env1 gives the variables they replace. */
  ghost function Forth(ren: Renaming, W: set<nat>, env: Env, env1: Env): Env
  {
    map w | w in env.Keys + W ::
      if w in W && exists v :: v in ren && ren[v] == Var(w)
      then (var v :| v in ren && ren[v] == Var(w); Get(env1, v))
      else Get(env, w)
  }

  lemma UnfoldedIf(use: Atom, def: Rule, ren0: Renaming, x: Renamed<Form>, next: nat, env: Env, env1: Env, db: Db,
        dom: nat)
    requires use.rel == def.head.rel && |use.args| == |def.head.args| && dom > 0 && BelowArgs(use.args, next)
    requires ren0 == HeadRenaming(def.head.args, use.args, |use.args|) && AllBelow(ren0, next)
    requires x == Rename(def.body, ren0, next, true) && Extends(ren0, next, x.ren, x.next)
    requires FreeVars(def.body) <= x.ren.Keys
    requires Injective(ren0, x.ren)
    requires FiresWith(def, db, dom, Fact(use.rel, Values(use.args, env)), env1)
    ensures EvalSome(x.t, env, Generated(x.ren, use.args), db, dom)
    ensures Linked(def.head.args, use.args, x.ren, |use.args|, env)
  {
    var W := Generated(x.ren, use.args);
    var env2 := Forth(x.ren, W, env, env1);
    forall v | v in FreeVars(def.body) ensures v in x.ren && Get(env1, v) == Value(x.ren[v], env2) {
      ForthAt(use.args, def.head.args, ren0, x.ren, next, x.next, env, env1, v);
    }
    RenameMeans(def.body, ren0, next, env1, env2, db, dom);
    ForthDiffers(x.ren, use.args, env, env1, dom);
    LinkedIf(def.head.args, use.args, ren0, x.ren, env, env1);
  }

  lemma ForthDiffers(ren: Renaming, use: seq<Arg>, env: Env, env1: Env, dom: nat)
    requires dom > 0 && EnvBelow(env1, dom)
    ensures Differ(env, Forth(ren, Generated(ren, use), env, env1), Generated(ren, use), dom)
  {
  }

  lemma LinkedIf(h: seq<Arg>, use: seq<Arg>, ren0: Renaming, ren: Renaming, env: Env, env1: Env)
    requires |h| == |use| && ren0 == HeadRenaming(h, use, |use|) && Values(h, env1) == Values(use, env)
    requires forall v :: v in ren0 ==> v in ren && ren[v] == ren0[v]
    ensures Linked(h, use, ren, |use|, env)
  {
    forall i | 0 <= i < |h| ensures Value(use[i], env) == Value(NewName(h[i], ren), env) {
      assert Values(use, env)[i] == Values(h, env1)[i];
      if h[i].Var? {
        var j :| 0 <= j < |h| && h[j] == Var(h[i].v) && ren0[h[i].v] == use[j];
        assert Values(use, env)[j] == Values(h, env1)[j];
      }
    }
  }

  lemma ForthAt(use: seq<Arg>, h: seq<Arg>, ren0: Renaming, ren: Renaming, next: nat, next': nat, env: Env, env1: Env,
        v: nat)
    requires |use| == |h| && ren0 == HeadRenaming(h, use, |use|) && Extends(ren0, next, ren, next')
    requires Injective(ren0, ren)
    requires BelowArgs(use, next) && Values(h, env1) == Values(use, env) && v in ren
    ensures Value(ren[v], Forth(ren, Generated(ren, use), env, env1)) == Get(env1, v)
  {
    var W := Generated(ren, use);
    if v in ren0 {
      var j :| 0 <= j < |h| && h[j] == Var(v) && ren0[v] == use[j];
      assert use[j] in use && Values(h, env1)[j] == Values(use, env)[j];
    } else {
      var w := ren[v].v;
      assert ren[v] !in use && w in W;
      forall u | u in ren0 ensures ren[u] != Var(w) {
        var j :| 0 <= j < |h| && h[j] == Var(u) && ren0[u] == use[j];
        assert use[j] in use;
      }
    }
  }

  // ----- renaming keeps formulas well formed

  ghost predicate RenSyms(ren: Renaming, dom: nat) {
    forall v :: v in ren && ren[v].Sym? ==> ren[v].c < dom
  }

  lemma ArgsOk(args: seq<Arg>, ren: Renaming, next: nat, dom: nat)
    requires SymsBelow(args, dom) && RenSyms(ren, dom)
    ensures var x := RenameArgs(args, ren, next, true); SymsBelow(x.t, dom) && RenSyms(x.ren, dom)
  {
    ArgsRenamed(args, ren, next);
    var x := RenameArgs(args, ren, next, true);
    forall y | y in x.t && y.Sym? ensures y.c < dom {
      var i :| 0 <= i < |args| && x.t[i] == y;
      assert NameOf(args[i], x.t[i], x.ren) && args[i] in args;
    }
  }

  lemma {:induction false} RenameOk(f: Form, ren: Renaming, next: nat, dom: nat)
    requires FormOk(f, dom) && RenSyms(ren, dom)
    ensures var x := Rename(f, ren, next, true); FormOk(x.t, dom) && RenSyms(x.ren, dom)
    decreases f
  {
    match f
    case Lit(a) =>
      ArgsOk(a.args, ren, next, dom);
      ArgsRenamed(a.args, ren, next);
    case Equal(x, y) =>
      assert x in [x, y] && y in [x, y];
    case Not(g) => RenameOk(g, ren, next, dom);
    case Bin(_, l, r) =>
      var a := Rename(l, ren, next, true);
      RenameOk(l, ren, next, dom);
      RenameOk(r, a.ren, a.next, dom);
    case Quant(_, v, g) => RenameOk(g, ren[v := Var(next)], next + 1, dom);
  }

  // ----- expansion of atoms

  /** f holds exactly when the rule derives the fact of the atom. */
  ghost predicate Unfolds(f: Form, use: Atom, def: Rule, dom: nat) {
    forall env: Env, db :: UnfoldsAt(f, use, def, dom, env, db)
  }

  ghost predicate UnfoldsAt(f: Form, use: Atom, def: Rule, dom: nat, env: Env, db: Db) {
    EnvBelow(env, dom) ==> (Eval(f, env, db, dom) <==> Fires(def, db, dom, Fact(use.rel, Values(use.args, env))))
  }

  ghost predicate MeansSome(g: Form, f: Form, W: set<nat>, dom: nat) {
    forall env: Env, db :: MeansSomeAt(g, f, W, dom, env, db)
  }

  ghost predicate MeansSomeAt(g: Form, f: Form, W: set<nat>, dom: nat, env: Env, db: Db) {
    Eval(g, env, db, dom) <==> EvalSome(f, env, W, db, dom)
  }

  /** The generated variables among the given keys of the renaming. */
  function GeneratedIn(keys: set<nat>, ren: Renaming, use: seq<Arg>): set<nat> {
    set v | v in keys && v in ren && ren[v].Var? && ren[v] !in use :: ren[v].v
  }

  /** Quantifies the generated variables of a renamed body. */
  method QuantifyGenerated(x: Renamed<Form>, use: seq<Arg>, ghost ren0: Renaming, ghost next: nat, ghost dom: nat,
        ghost name: nat)
    returns (f: Form)
    requires NamesBelow(x.t, name)
    requires Extends(ren0, next, x.ren, x.next) && Injective(ren0, x.ren) && Below(x.t, x.next) && FormOk(x.t, dom)
    requires forall v :: v in ren0 ==> ren0[v] in use
    ensures MeansSome(f, x.t, Generated(x.ren, use), dom) && Below(f, x.next) && FormOk(f, dom) && NamesBelow(f, name)
  {
    f := x.t;
    var todo := x.ren.Keys;
    forall env: Env, db ensures MeansSomeAt(f, x.t, {}, dom, env, db) { EvalSomeNone(x.t, env, db, dom); }
    assert GeneratedIn(x.ren.Keys - todo, x.ren, use) == {};
    while todo != {}
      invariant todo <= x.ren.Keys && Below(f, x.next) && FormOk(f, dom) && NamesBelow(f, name)
      invariant MeansSome(f, x.t, GeneratedIn(x.ren.Keys - todo, x.ren, use), dom)
    {
      var v :| v in todo;
      ghost var W := GeneratedIn(x.ren.Keys - todo, x.ren, use);
      ghost var W' := GeneratedIn(x.ren.Keys - (todo - {v}), x.ren, use);
      if x.ren[v] !in use {
        var w := x.ren[v].v;
        assert w !in W;
        assert W' == W + {w};
        MeansSomeMore(f, x.t, W, w, W', dom);
        f := Quant(Exists, w, f);
      } else {
        assert W' == W;
      }
      todo := todo - {v};
    }
    assert GeneratedIn(x.ren.Keys - todo, x.ren, use) == Generated(x.ren, use);
  }

  lemma MeansSomeMore(g: Form, f: Form, W: set<nat>, w: nat, W': set<nat>, dom: nat)
    requires MeansSome(g, f, W, dom) && w !in W && W' == W + {w}
    ensures MeansSome(Quant(Exists, w, g), f, W', dom)
  {
    var q := Quant(Exists, w, g);
    forall env: Env, db ensures MeansSomeAt(q, f, W', dom, env, db) {
      forall e: Env
        ensures Eval(g, e, db, dom) <==> EvalSome(f, e, W, db, dom)
      {
        assert MeansSomeAt(g, f, W, dom, e, db);
      }
      EvalSomeMore(f, g, q, env, W, w, db, dom);
    }
  }

  /** The body of a rule with the arguments of an atom for its head, ready to be put in the atom's place. */
  method ExpandTerm(use: Atom, def: Rule, next: nat, ghost dom: nat, ghost name: nat) returns (f: Form, next': nat)
    requires NamesBelow(def.body, name)
    requires use.rel == def.head.rel && AtomOk(use, dom) && RuleOk(def, dom) && dom > 0 && BelowArgs(use.args, next)
    ensures next <= next' && Below(f, next') && FormOk(f, dom) && NamesBelow(f, name) && Unfolds(f, use, def, dom)
  {
    var h := def.head.args;
    var ren0 := HeadRenaming(h, use.args, |h|);
    RenamingBelow(h, use.args, ren0, next);
    var x := Rename(def.body, ren0, next, true);
    RenameShape(def.body, ren0, next);
    RenamingSyms(h, use.args, ren0, dom);
    RenameOk(def.body, ren0, next, dom);
    RenameNames(def.body, ren0, next, true, name);
    var g := QuantifyGenerated(x, use.args, ren0, next, dom, name);
    next' := x.next;
    BelowUse(use.args, next, next');
    f := LinkArguments(g, h, use.args, x.ren, next', dom, name);
    forall env: Env, db ensures UnfoldsAt(f, use, def, dom, env, db) {
      if EnvBelow(env, dom) {
        assert MeansSomeAt(g, x.t, Generated(x.ren, use.args), dom, env, db);
        assert LinkedAt(f, g, h, use.args, x.ren, |h|, dom, env, db);
        Unfolded(use, def, ren0, x, next, env, db, dom);
      }
    }
  }

  lemma RenamingSyms(h: seq<Arg>, use: seq<Arg>, ren: Renaming, dom: nat)
    requires |h| == |use| && ren == HeadRenaming(h, use, |use|) && SymsBelow(use, dom)
    ensures RenSyms(ren, dom) && forall v :: v in ren ==> ren[v] in use
  {
    forall v | v in ren ensures ren[v] in use {
      var i :| 0 <= i < |use| && h[i] == Var(v) && ren[v] == use[i];
    }
  }

  lemma BelowUse(use: seq<Arg>, n: nat, m: nat)
    requires BelowArgs(use, n) && n <= m
    ensures BelowArgs(use, m)
  {
  }

  ghost predicate LinkedAt(f: Form, g: Form, h: seq<Arg>, use: seq<Arg>, ren: Renaming, n: nat, dom: nat, env: Env,
        db: Db)
    requires n <= |h| == |use| && forall i :: 0 <= i < |h| && h[i].Var? ==> h[i].v in ren
  {
    Eval(f, env, db, dom) <==> Eval(g, env, db, dom) && Linked(h, use, ren, n, env)
  }

  /** Adds an equation for each argument the renaming has not already taken care of. */
  method LinkArguments(g: Form, h: seq<Arg>, use: seq<Arg>, ren: Renaming, ghost next: nat, ghost dom: nat,
        ghost name: nat)
    returns (f: Form)
    requires NamesBelow(g, name)
    requires |h| == |use| && (forall i :: 0 <= i < |h| && h[i].Var? ==> h[i].v in ren)
    requires Below(g, next) && FormOk(g, dom) && BelowArgs(use, next) && AllBelow(ren, next)
    requires SymsBelow(use, dom) && SymsBelow(h, dom) && RenSyms(ren, dom)
    ensures Below(f, next) && FormOk(f, dom) && NamesBelow(f, name)
    ensures forall env: Env, db :: LinkedAt(f, g, h, use, ren, |h|, dom, env, db)
  {
    f := g;
    for i := 0 to |h|
      invariant Below(f, next) && FormOk(f, dom) && NamesBelow(f, name)
      invariant forall env: Env, db :: LinkedAt(f, g, h, use, ren, i, dom, env, db)
    {
      var name := NewName(h[i], ren);
      assert use[i] in use && h[i] in h;
      ghost var f0, j := f, i + 1;
      if name != use[i] { f := Bin(And, f, Equal(use[i], name)); }
      forall env: Env, db ensures LinkedAt(f, g, h, use, ren, j, dom, env, db) {
        assert LinkedAt(f0, g, h, use, ren, i, dom, env, db);
      }
    }
  }

  // ----- squaring

  /** g says about a database what f says about the database after one step. */
  ghost predicate Expands(g: Form, f: Form, rs: seq<Rule>, dom: nat) {
    forall env: Env, db :: ExpandsAt(g, f, rs, dom, env, db)
  }

  ghost predicate ExpandsAt(g: Form, f: Form, rs: seq<Rule>, dom: nat, env: Env, db: Db) {
    EnvBelow(env, dom) ==> Eval(g, env, db, dom) == Eval(f, env, PStep(rs, db, dom), dom)
  }

  /** The disjunction of the unfoldings by the first n rules of a relation. */
  ghost predicate UnfoldsSome(f: Form, use: Atom, rs: seq<Rule>, n: nat, dom: nat)
    requires n <= |rs|
  {
    forall env: Env, db :: UnfoldsSomeAt(f, use, rs, n, dom, env, db)
  }

  ghost predicate UnfoldsSomeAt(f: Form, use: Atom, rs: seq<Rule>, n: nat, dom: nat, env: Env, db: Db)
    requires n <= |rs|
  {
    EnvBelow(env, dom) ==> (Eval(f, env, db, dom) <==>
      SomeFires(rs[..n], db, dom, Fact(use.rel, Values(use.args, env))))
  }

  /** Replaces an atom by the disjunction of its unfoldings; an atom without rules stays. */
  method ExpandAtom(use: Atom, rs: seq<Rule>, next: nat, ghost dom: nat, ghost name: nat) returns (g: Form, next': nat)
    requires BodiesBelow(rs, name) && use.rel.name < name
    requires RulesOk(rs, dom) && AtomOk(use, dom) && BelowArgs(use.args, next)
    ensures next <= next' && Below(g, next') && FormOk(g, dom) && NamesBelow(g, name) && Expands(g, Lit(use), rs, dom)
  {
    g, next' := Lit(use), next;
    var found := false;
    for i := 0 to |rs|
      invariant next <= next' && Below(g, next') && FormOk(g, dom) && NamesBelow(g, name) && BelowArgs(use.args, next')
      invariant found <==> exists j :: 0 <= j < i && rs[j].head.rel == use.rel
      invariant if found then UnfoldsSome(g, use, rs, i, dom) else g == Lit(use)
    {
      var j := i + 1;
      if rs[i].head.rel == use.rel {
        var f;
        ghost var g0, n0 := g, next';
        f, next' := ExpandTerm(use, rs[i], next', dom, name);
        BelowUse(use.args, n0, next');
        if found {
          BelowMore(g, n0, next');
          g := Bin(Or, g, f);
        } else {
          g := f;
        }
        DisjunctAdded(g0, f, g, found, use, rs, i, j, dom);
        found := true;
      } else if found {
        DisjunctSkipped(g, use, rs, i, j, dom);
      }
    }
    AtomExpanded(g, use, rs, found, dom);
  }

  lemma DisjunctAdded(g0: Form, f: Form, g: Form, found: bool, use: Atom, rs: seq<Rule>, i: nat, j: nat, dom: nat)
    requires j == i + 1 <= |rs| && rs[i].head.rel == use.rel && Unfolds(f, use, rs[i], dom)
    requires found <==> exists k :: 0 <= k < i && rs[k].head.rel == use.rel
    requires if found then UnfoldsSome(g0, use, rs, i, dom) && g == Bin(Or, g0, f) else g == f
    ensures UnfoldsSome(g, use, rs, j, dom)
  {
    forall env: Env, db ensures UnfoldsSomeAt(g, use, rs, j, dom, env, db) {
      assert UnfoldsAt(f, use, rs[i], dom, env, db);
      if found { assert UnfoldsSomeAt(g0, use, rs, i, dom, env, db); }
      SomeFiresMore(rs, i, j, db, dom, Fact(use.rel, Values(use.args, env)));
    }
  }

  lemma DisjunctSkipped(g: Form, use: Atom, rs: seq<Rule>, i: nat, j: nat, dom: nat)
    requires j == i + 1 <= |rs| && rs[i].head.rel != use.rel && UnfoldsSome(g, use, rs, i, dom)
    ensures UnfoldsSome(g, use, rs, j, dom)
  {
    forall env: Env, db ensures UnfoldsSomeAt(g, use, rs, j, dom, env, db) {
      assert UnfoldsSomeAt(g, use, rs, i, dom, env, db);
      SomeFiresMore(rs, i, j, db, dom, Fact(use.rel, Values(use.args, env)));
    }
  }

  /** Only rules for the fact's relation can derive it. */
  lemma SomeFiresMore(rs: seq<Rule>, i: nat, j: nat, db: Db, dom: nat, u: Fact)
    requires j == i + 1 <= |rs|
    ensures SomeFires(rs[..j], db, dom, u) <==> SomeFires(rs[..i], db, dom, u) || Fires(rs[i], db, dom, u)
    ensures Fires(rs[i], db, dom, u) ==> rs[i].head.rel == u.rel
    ensures SomeFires(rs[..i], db, dom, u) ==> exists k :: 0 <= k < i && rs[k].head.rel == u.rel
  {
    if SomeFires(rs[..j], db, dom, u) {
      var k :| 0 <= k < j && Fires(rs[..j][k], db, dom, u);
      if k < i { assert rs[..i][k] == rs[..j][k]; }
    }
    if SomeFires(rs[..i], db, dom, u) {
      var k :| 0 <= k < i && Fires(rs[..i][k], db, dom, u);
      assert rs[..j][k] == rs[..i][k] == rs[k];
    }
    if Fires(rs[i], db, dom, u) { assert rs[..j][i] == rs[i]; }
  }

  lemma AtomExpanded(g: Form, use: Atom, rs: seq<Rule>, found: bool, dom: nat)
    requires found <==> exists j :: 0 <= j < |rs| && rs[j].head.rel == use.rel
    requires if found then UnfoldsSome(g, use, rs, |rs|, dom) else g == Lit(use)
    ensures Expands(g, Lit(use), rs, dom)
  {
    var f := Lit(use);
    forall env: Env, db ensures ExpandsAt(g, f, rs, dom, env, db) {
      if found { assert UnfoldsSomeAt(g, use, rs, |rs|, dom, env, db); }
      assert rs[..|rs|] == rs;
    }
  }

  /** Expands every atom of a formula. */
  method ExpandTree(f: Form, rs: seq<Rule>, next: nat, ghost dom: nat, ghost name: nat) returns (g: Form, next': nat)
    requires BodiesBelow(rs, name) && NamesBelow(f, name)
    requires RulesOk(rs, dom) && FormOk(f, dom) && Below(f, next)
    ensures next <= next' && Below(g, next') && FormOk(g, dom) && NamesBelow(g, name) && Expands(g, f, rs, dom)
    decreases f
  {
    match f
    case Lit(a) => g, next' := ExpandAtom(a, rs, next, dom, name);
    case Equal(x, y) => g, next' := f, next;
    case Not(h) =>
      g, next' := ExpandTree(h, rs, next, dom, name);
      ExpandsNot(g, h, rs, dom);
      g := Not(g);
    case Bin(op, l, r) =>
      var a, b, n;
      a, n := ExpandTree(l, rs, next, dom, name);
      BelowMore(r, next, n);
      b, next' := ExpandTree(r, rs, n, dom, name);
      BelowMore(a, n, next');
      ExpandsBin(op, a, l, b, r, rs, dom);
      g := Bin(op, a, b);
    case Quant(q, v, h) =>
      g, next' := ExpandTree(h, rs, next, dom, name);
      ExpandsQuant(q, v, g, h, rs, dom);
      g := Quant(q, v, g);
  }

  lemma ExpandsNot(g: Form, f: Form, rs: seq<Rule>, dom: nat)
    requires Expands(g, f, rs, dom)
    ensures Expands(Not(g), Not(f), rs, dom)
  {
    var g', f' := Not(g), Not(f);
    forall env: Env, db ensures ExpandsAt(g', f', rs, dom, env, db) { assert ExpandsAt(g, f, rs, dom, env, db); }
  }

  lemma ExpandsBin(op: Op, a: Form, l: Form, b: Form, r: Form, rs: seq<Rule>, dom: nat)
    requires Expands(a, l, rs, dom) && Expands(b, r, rs, dom)
    ensures Expands(Bin(op, a, b), Bin(op, l, r), rs, dom)
  {
    var g', f' := Bin(op, a, b), Bin(op, l, r);
    forall env: Env, db ensures ExpandsAt(g', f', rs, dom, env, db) {
      assert ExpandsAt(a, l, rs, dom, env, db) && ExpandsAt(b, r, rs, dom, env, db);
    }
  }

  lemma ExpandsQuant(q: Quantifier, v: nat, g: Form, f: Form, rs: seq<Rule>, dom: nat)
    requires Expands(g, f, rs, dom)
    ensures Expands(Quant(q, v, g), Quant(q, v, f), rs, dom)
  {
    var g', f' := Quant(q, v, g), Quant(q, v, f);
    forall env: Env, db ensures ExpandsAt(g', f', rs, dom, env, db) {
      if EnvBelow(env, dom) {
        forall d: nat | d < dom
          ensures Eval(g, Put(env, v, d), db, dom) == Eval(f, Put(env, v, d), PStep(rs, db, dom), dom)
        {
          assert ExpandsAt(g, f, rs, dom, Put(env, v, d), db);
        }
        assert Holders(g, env, db, dom, v) == Holders(f, env, PStep(rs, db, dom), dom, v);
      }
    }
  }

  predicate BodiesBelow(rs: seq<Rule>, name: nat) {
    forall i :: 0 <= i < |rs| ==> NamesBelow(rs[i].body, name)
  }

  predicate RulesBelow(rs: seq<Rule>, next: nat) {
    forall i :: 0 <= i < |rs| ==> Below(rs[i].body, next)
  }

  /** The squared rule derives from a database what the rule derives after one step. */
  ghost predicate Squares(s: Rule, r: Rule, rs: seq<Rule>, dom: nat) {
    s.neg == r.neg && s.head == r.head && Expands(s.body, r.body, rs, dom)
  }

  /** Squares a program: every atom of every body is replaced by the bodies of its relation. One step of the result is
      two steps of the program. */
  method SquareProgram(rs: seq<Rule>, next: nat, ghost dom: nat, ghost name: nat) returns (ss: seq<Rule>, next': nat)
    requires RulesOk(rs, dom) && RulesBelow(rs, next) && BodiesBelow(rs, name)
    ensures next <= next' && RulesOk(ss, dom) && RulesBelow(ss, next') && BodiesBelow(ss, name) && |ss| == |rs|
    ensures forall i :: 0 <= i < |rs| ==> ss[i].head == rs[i].head && ss[i].neg == rs[i].neg
    ensures forall db :: PStep(ss, db, dom) == PStep(rs, PStep(rs, db, dom), dom)
  {
    ss, next' := [], next;
    for i := 0 to |rs|
      invariant next <= next' && |ss| == i && RulesOk(ss, dom) && RulesBelow(ss, next') && BodiesBelow(ss, name)
      invariant forall j :: 0 <= j < i ==> Squares(ss[j], rs[j], rs, dom)
    {
      var body;
      ghost var n := next';
      BelowMore(rs[i].body, next, n);
      body, next' := ExpandTree(rs[i].body, rs, next', dom, name);
      RulesBelowMore(ss, n, next');
      ss := ss + [Rule(rs[i].neg, rs[i].head, body)];
    }
    forall db ensures PStep(ss, db, dom) == PStep(rs, PStep(rs, db, dom), dom) {
      SquareStep(ss, rs, db, dom);
    }
  }

  lemma RulesBelowMore(rs: seq<Rule>, n: nat, m: nat)
    requires RulesBelow(rs, n) && n <= m
    ensures RulesBelow(rs, m)
  {
    forall i | 0 <= i < |rs| ensures Below(rs[i].body, m) { BelowMore(rs[i].body, n, m); }
  }

  lemma SquareStep(ss: seq<Rule>, rs: seq<Rule>, db: Db, dom: nat)
    requires |ss| == |rs| && forall i :: 0 <= i < |rs| ==> Squares(ss[i], rs[i], rs, dom)
    ensures PStep(ss, db, dom) == PStep(rs, PStep(rs, db, dom), dom)
  {
    var mid := PStep(rs, db, dom);
    forall u: Fact
      ensures HasRules(ss, u.rel) == HasRules(rs, u.rel) && (SomeFires(ss, db, dom, u) <==> SomeFires(rs, mid, dom, u))
    {
      forall i | 0 <= i < |rs|
        ensures ss[i].head == rs[i].head && (Fires(ss[i], db, dom, u) <==> Fires(rs[i], mid, dom, u))
      {
        SquareFires(ss[i], rs[i], rs, db, dom, u);
      }
    }
  }

  lemma SquareFires(s: Rule, r: Rule, rs: seq<Rule>, db: Db, dom: nat, u: Fact)
    requires Squares(s, r, rs, dom)
    ensures Fires(s, db, dom, u) <==> Fires(r, PStep(rs, db, dom), dom, u)
  {
    forall env: Env ensures FiresWith(s, db, dom, u, env) <==> FiresWith(r, PStep(rs, db, dom), dom, u, env) {
      assert ExpandsAt(s.body, r.body, rs, dom, env, db);
    }
  }
}
