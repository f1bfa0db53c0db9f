/** Formula trees over relations, their meaning in a database, and the renaming of their variables. */
module Formula {

  /** A relation is known by its name and arity. */
  datatype Rel = Rel(name: nat, arity: nat)

  datatype Arg = Var(v: nat) | Sym(c: nat)

  datatype Atom = Atom(rel: Rel, args: seq<Arg>)

  datatype Op = And | Or | Implies | Coimplies
  datatype Quantifier = Exists | Forall | Unique

  datatype Form =
    | Lit(a: Atom)
    | Equal(x: Arg, y: Arg)
    | Not(f: Form)
    | Bin(op: Op, l: Form, r: Form)
    | Quant(q: Quantifier, v: nat, f: Form)

  type Tuple = seq<nat>

  datatype Fact = Fact(rel: Rel, args: Tuple)

  type Db = iset<Fact>

  type Env = map<nat, nat>

  function Put(env: Env, v: nat, d: nat): Env {
    env[v := d]
  }

  function Get(env: Env, v: nat): nat {
    if v in env then env[v] else 0
  }

  function Value(x: Arg, env: Env): nat {
    match x case Var(v) => Get(env, v) case Sym(c) => c
  }

  function Values(args: seq<Arg>, env: Env): Tuple {
    seq(|args|, i requires 0 <= i < |args| => Value(args[i], env))
  }

  predicate Truth(op: Op, a: bool, b: bool) {
    match op
    case And => a && b
    case Or => a || b
    case Implies => a ==> b
    case Coimplies => a <==> b
  }

  /** The formula holds in the database; quantifiers range over the numbers below dom. */
  ghost predicate Eval(f: Form, env: Env, db: Db, dom: nat)
    decreases f, 0
  {
    match f
    case Lit(a) => Fact(a.rel, Values(a.args, env)) in db
    case Equal(x, y) => Value(x, env) == Value(y, env)
    case Not(g) => !Eval(g, env, db, dom)
    case Bin(op, l, r) => Truth(op, Eval(l, env, db, dom), Eval(r, env, db, dom))
    case Quant(q, v, g) => Quantified(q, Holders(g, env, db, dom, v), dom)
  }

  /** The values of v below dom for which the formula holds. */
  ghost function Holders(f: Form, env: Env, db: Db, dom: nat, v: nat): iset<nat>
    decreases f, 1
  {
    iset d: nat | d < dom && Eval(f, Put(env, v, d), db, dom)
  }

  ghost predicate Quantified(q: Quantifier, s: iset<nat>, dom: nat) {
    match q
    case Exists => exists d :: d in s
    case Forall => forall d: nat :: d < dom ==> d in s
    case Unique => exists d :: d in s && Only(s, d)
  }

  ghost predicate Only(s: iset<nat>, d: nat) {
    forall c :: c in s ==> c == d
  }

  lemma BinMeans(op: Op, l: Form, r: Form, env: Env, db: Db, dom: nat)
    ensures Eval(Bin(op, l, r), env, db, dom) == Truth(op, Eval(l, env, db, dom), Eval(r, env, db, dom))
  {
  }

  lemma QuantMeans(q: Quantifier, v: nat, f: Form, env: Env, db: Db, dom: nat)
    ensures Eval(Quant(q, v, f), env, db, dom) == Quantified(q, Holders(f, env, db, dom, v), dom)
    ensures forall d: nat :: d in Holders(f, env, db, dom, v) <==> d < dom && Eval(f, Put(env, v, d), db, dom)
  {
  }

  function ArgVars(args: seq<Arg>): set<nat> {
    set x | x in args && x.Var? :: x.v
  }

  function FreeVars(f: Form): set<nat> {
    match f
    case Lit(a) => ArgVars(a.args)
    case Equal(x, y) => ArgVars([x, y])
    case Not(g) => FreeVars(g)
    case Bin(_, l, r) => FreeVars(l) + FreeVars(r)
    case Quant(_, v, g) => FreeVars(g) - {v}
  }

  ghost predicate SameOn(s: set<nat>, env: Env, env': Env) {
    forall v :: v in s ==> Get(env, v) == Get(env', v)
  }

  lemma ValuesSame(args: seq<Arg>, env: Env, env': Env)
    requires SameOn(ArgVars(args), env, env')
    ensures Values(args, env) == Values(args, env')
  {
    forall i | 0 <= i < |args| ensures Value(args[i], env) == Value(args[i], env') {
      if args[i].Var? { assert args[i] in args && args[i].v in ArgVars(args); }
    }
  }

  lemma SameBound(s: set<nat>, v: nat, env: Env, env': Env, d: nat)
    requires SameOn(s - {v}, env, env')
    ensures SameOn(s, env[v := d], env'[v := d])
  {
    forall u | u in s ensures Get(env[v := d], u) == Get(env'[v := d], u) {
      if u != v { assert u in s - {v}; }
    }
  }

  /** Only the free variables matter. */
  lemma {:induction false} EvalSame(f: Form, env: Env, env': Env, db: Db, dom: nat)
    requires SameOn(FreeVars(f), env, env')
    ensures Eval(f, env, db, dom) == Eval(f, env', db, dom)
  {
    match f
    case Lit(a) => ValuesSame(a.args, env, env');
    case Equal(x, y) =>
      assert x in [x, y] && y in [x, y];
    case Not(g) => EvalSame(g, env, env', db, dom);
    case Bin(_, l, r) => EvalSame(l, env, env', db, dom); EvalSame(r, env, env', db, dom);
    case Quant(q, v, g) =>
      forall d: nat | d < dom ensures Eval(g, Put(env, v, d), db, dom) == Eval(g, Put(env', v, d), db, dom) {
        SameBound(FreeVars(g), v, env, env', d);
        EvalSame(g, env[v := d], env'[v := d], db, dom);
      }
      assert Holders(g, env, db, dom, v) == Holders(g, env', db, dom, v);
  }

  // ----- renaming

  type Renaming = map<nat, Arg>

  /** A renamed piece of a tree, the renaming grown on the way, and the next unused variable. */
  datatype Renamed<A> = Renamed(t: A, ren: Renaming, next: nat)

  /** A variable without a new name gets a fresh one, or itself when none are generated. */
  function RenameArg(x: Arg, ren: Renaming, next: nat, gen: bool): Renamed<Arg> {
    if x.Sym? then Renamed(x, ren, next)
    else if x.v in ren then Renamed(ren[x.v], ren, next)
    else if gen then Renamed(Var(next), ren[x.v := Var(next)], next + 1)
    else Renamed(x, ren[x.v := x], next)
  }

  function RenameArgs(args: seq<Arg>, ren: Renaming, next: nat, gen: bool): Renamed<seq<Arg>> {
    if args == [] then Renamed([], ren, next)
    else
      var a := RenameArgs(args[..|args| - 1], ren, next, gen);
      var x := RenameArg(args[|args| - 1], a.ren, a.next, gen);
      Renamed(a.t + [x.t], x.ren, x.next)
  }

  /** Renames the variables of a formula. A bound variable gets a new name for its scope only. */
  function Rename(f: Form, ren: Renaming, next: nat, gen: bool): Renamed<Form> {
    match f
    case Lit(a) =>
      var x := RenameArgs(a.args, ren, next, gen);
      Renamed(Lit(Atom(a.rel, x.t)), x.ren, x.next)
    case Equal(x, y) =>
      var a := RenameArg(x, ren, next, gen);
      var b := RenameArg(y, a.ren, a.next, gen);
      Renamed(Equal(a.t, b.t), b.ren, b.next)
    case Not(g) =>
      var a := Rename(g, ren, next, gen);
      Renamed(Not(a.t), a.ren, a.next)
    case Bin(op, l, r) =>
      var a := Rename(l, ren, next, gen);
      var b := Rename(r, a.ren, a.next, gen);
      Renamed(Bin(op, a.t, b.t), b.ren, b.next)
    case Quant(q, v, g) =>
      var w := if gen then next else v;
      var a := Rename(g, ren[v := Var(w)], if gen then next + 1 else next, gen);
      Renamed(Quant(q, w, a.t), Restore(v, ren, a.ren), a.next)
  }

  /** Puts back what the bound variable meant outside its scope. */
  function Restore(v: nat, outer: Renaming, inner: Renaming): Renaming {
    if v in outer then inner[v := outer[v]] else inner - {v}
  }

  // ----- fresh renaming is substitution

  predicate BelowArg(x: Arg, n: nat) {
    x.Var? ==> x.v < n
  }

  predicate BelowArgs(args: seq<Arg>, n: nat) {
    forall x :: x in args ==> BelowArg(x, n)
  }

  /** All variables of the formula are below n. */
  predicate Below(f: Form, n: nat) {
    match f
    case Lit(a) => BelowArgs(a.args, n)
    case Equal(x, y) => BelowArg(x, n) && BelowArg(y, n)
    case Not(g) => Below(g, n)
    case Bin(_, l, r) => Below(l, n) && Below(r, n)
    case Quant(_, v, g) => v < n && Below(g, n)
  }

  /** The formula speaks only of relations below the name. */
  predicate NamesBelow(f: Form, name: nat) {
    match f
    case Lit(a) => a.rel.name < name
    case Equal(_, _) => true
    case Not(g) => NamesBelow(g, name)
    case Bin(_, l, r) => NamesBelow(l, name) && NamesBelow(r, name)
    case Quant(_, _, g) => NamesBelow(g, name)
  }

  lemma {:induction false} RenameNames(f: Form, ren: Renaming, next: nat, gen: bool, name: nat)
    requires NamesBelow(f, name)
    ensures NamesBelow(Rename(f, ren, next, gen).t, name)
    decreases f
  {
    match f
    case Lit(_) =>
    case Equal(_, _) =>
    case Not(g) => RenameNames(g, ren, next, gen, name);
    case Bin(_, l, r) =>
      var a := Rename(l, ren, next, gen);
      RenameNames(l, ren, next, gen, name);
      RenameNames(r, a.ren, a.next, gen, name);
    case Quant(_, v, g) =>
      RenameNames(g, ren[v := Var(if gen then next else v)], if gen then next + 1 else next, gen, name);
  }

  /** The renaming has grown: old entries are kept, new ones are fresh variables. */
  ghost predicate Extends(ren: Renaming, next: nat, ren': Renaming, next': nat) {
    && next <= next'
    && (forall v :: v in ren ==> v in ren' && ren'[v] == ren[v])
    && (forall v :: v in ren' && v !in ren ==> ren'[v].Var? && next <= ren'[v].v < next')
  }

  ghost predicate AllBelow(ren: Renaming, next: nat) {
    forall v :: v in ren ==> BelowArg(ren[v], next)
  }

  /** env gives each of the variables what env' gives its new name. */
  ghost predicate Agree(ren: Renaming, s: set<nat>, env: Env, env': Env) {
    forall v :: v in s ==> v in ren && Get(env, v) == Value(ren[v], env')
  }

  /** New names are given to one variable each. */
  ghost predicate Injective(ren: Renaming, ren': Renaming) {
    forall u, v :: u in ren' && v in ren' && u !in ren && v !in ren && ren'[u] == ren'[v] ==> u == v
  }

  lemma InjectiveThrough(ren: Renaming, next: nat, mid: Renaming, next1: nat, ren': Renaming, next2: nat)
    requires Extends(ren, next, mid, next1) && Extends(mid, next1, ren', next2)
    requires Injective(ren, mid) && Injective(mid, ren')
    ensures Extends(ren, next, ren', next2) && Injective(ren, ren')
  {
  }

  lemma ArgRenamed(x: Arg, ren: Renaming, next: nat)
    ensures var y := RenameArg(x, ren, next, true);
      && Extends(ren, next, y.ren, y.next) && Injective(ren, y.ren) && NameOf(x, y.t, y.ren)
      && (AllBelow(ren, next) ==> AllBelow(y.ren, y.next) && BelowArg(y.t, y.next))
  {
  }

  lemma NamesMore(args: seq<Arg>, args': seq<Arg>, ren: Renaming, ren': Renaming)
    requires NamesOf(args, args', ren) && forall v :: v in ren ==> v in ren' && ren'[v] == ren[v]
    ensures NamesOf(args, args', ren')
  {
    forall i | 0 <= i < |args| ensures NameOf(args[i], args'[i], ren') { assert NameOf(args[i], args'[i], ren); }
  }

  lemma {:induction false} ArgsRenamed(args: seq<Arg>, ren: Renaming, next: nat)
    ensures var x := RenameArgs(args, ren, next, true);
      Extends(ren, next, x.ren, x.next) && |x.t| == |args| && NamesOf(args, x.t, x.ren) && Injective(ren, x.ren)
    ensures var x := RenameArgs(args, ren, next, true);
      AllBelow(ren, next) ==> AllBelow(x.ren, x.next) && BelowArgs(x.t, x.next)
  {
    if args != [] {
      var n := |args| - 1;
      var a := RenameArgs(args[..n], ren, next, true);
      var y := RenameArg(args[n], a.ren, a.next, true);
      ArgsRenamed(args[..n], ren, next);
      ArgRenamed(args[n], a.ren, a.next);
      InjectiveThrough(ren, next, a.ren, a.next, y.ren, y.next);
      NamesMore(args[..n], a.t, a.ren, y.ren);
      hide RenameArg, Injective, AllBelow, Extends;
      assert args == args[..n] + [args[n]];
    }
  }

  /** The new arguments are the new names of the old ones. */
  ghost predicate NamesOf(args: seq<Arg>, args': seq<Arg>, ren: Renaming) {
    |args'| == |args| && forall i :: 0 <= i < |args| ==> NameOf(args[i], args'[i], ren)
  }

  ghost predicate NameOf(x: Arg, x': Arg, ren: Renaming) {
    if x.Sym? then x' == x else x.v in ren && x' == ren[x.v]
  }

  lemma NamesMean(args: seq<Arg>, args': seq<Arg>, ren: Renaming, env: Env, env': Env)
    requires NamesOf(args, args', ren) && Agree(ren, ArgVars(args), env, env')
    ensures Values(args', env') == Values(args, env)
  {
    forall i | 0 <= i < |args| ensures Value(args'[i], env') == Value(args[i], env) {
      assert NameOf(args[i], args'[i], ren);
      if args[i].Var? { assert args[i] in args && args[i].v in ArgVars(args); }
    }
  }

  /** The shape of a fresh renaming: it grows with fresh names, covers the free variables, and stays below next. */
  lemma {:induction false} RenameShape(f: Form, ren: Renaming, next: nat)
    requires AllBelow(ren, next)
    ensures var x := Rename(f, ren, next, true);
      Extends(ren, next, x.ren, x.next) && Injective(ren, x.ren)
      && AllBelow(x.ren, x.next) && Below(x.t, x.next) && FreeVars(f) <= x.ren.Keys
    decreases f
  {
    match f
    case Lit(a) =>
      ArgsRenamed(a.args, ren, next);
      ArgsCovered(a.args, RenameArgs(a.args, ren, next, true).t, RenameArgs(a.args, ren, next, true).ren);
    case Equal(x, y) =>
    case Not(g) => RenameShape(g, ren, next);
    case Bin(op, l, r) =>
      var a := Rename(l, ren, next, true);
      RenameShape(l, ren, next);
      RenameShape(r, a.ren, a.next);
      var b := Rename(r, a.ren, a.next, true);
      BelowMore(a.t, a.next, b.next);
      InjectiveThrough(ren, next, a.ren, a.next, b.ren, b.next);
      assert Rename(f, ren, next, true) == Renamed(Bin(op, a.t, b.t), b.ren, b.next);
      hide Injective, AllBelow;
      assert FreeVars(l) <= a.ren.Keys <= b.ren.Keys;
    case Quant(q, v, g) =>
      var a := Rename(g, ren[v := Var(next)], next + 1, true);
      RenameShape(g, ren[v := Var(next)], next + 1);
      RestoreShape(ren, next, a.ren, a.next, v);
      assert Rename(f, ren, next, true) == Renamed(Quant(q, next, a.t), Restore(v, ren, a.ren), a.next);
      hide Injective, AllBelow, Extends;
      assert FreeVars(f) <= FreeVars(g);
  }

  lemma RestoreShape(ren: Renaming, next: nat, inner: Renaming, next': nat, v: nat)
    requires AllBelow(ren, next) && Extends(ren[v := Var(next)], next + 1, inner, next') && AllBelow(inner, next')
    requires Injective(ren[v := Var(next)], inner)
    ensures Extends(ren, next, Restore(v, ren, inner), next') && AllBelow(Restore(v, ren, inner), next')
    ensures Injective(ren, Restore(v, ren, inner))
  {
  }

  lemma ArgsCovered(args: seq<Arg>, args': seq<Arg>, ren: Renaming)
    requires NamesOf(args, args', ren)
    ensures ArgVars(args) <= ren.Keys
  {
    forall x | x in args && x.Var? ensures x.v in ren {
      var i :| 0 <= i < |args| && args[i] == x;
      assert NameOf(args[i], args'[i], ren);
    }
  }

  lemma {:induction false} BelowMore(f: Form, n: nat, m: nat)
    requires Below(f, n) && n <= m
    ensures Below(f, m)
  {
    match f
    case Lit(a) =>
    case Equal(x, y) =>
    case Not(g) => BelowMore(g, n, m);
    case Bin(_, l, r) => BelowMore(l, n, m); BelowMore(r, n, m);
    case Quant(_, v, g) => BelowMore(g, n, m);
  }

  /** Inside a quantifier the bound variable is read through its new name, which is the new name of nothing else. */
  lemma AgreeBound(ren: Renaming, next: nat, inner: Renaming, next': nat, v: nat, s: set<nat>, env: Env, env': Env,
        d: nat)
    requires AllBelow(ren, next) && Extends(ren[v := Var(next)], next + 1, inner, next') && s <= inner.Keys
    requires Agree(Restore(v, ren, inner), s - {v}, env, env')
    ensures Agree(inner, s, env[v := d], env'[next := d])
  {
    forall u | u in s ensures Get(env[v := d], u) == Value(inner[u], env'[next := d]) {
      if u != v {
        assert u in s - {v} && Restore(v, ren, inner)[u] == inner[u];
        assert inner[u] != Var(next);
      }
    }
  }

  /** Agreement on a binary formula is agreement on its operands, each under its own renaming. */
  lemma AgreeParts(f: Form, l: Form, r: Form, ren: Renaming, next: nat, env: Env, env': Env)
    requires f.Bin? && f.l == l && f.r == r && AllBelow(ren, next)
    requires Agree(Rename(f, ren, next, true).ren, FreeVars(f), env, env')
    ensures var a := Rename(l, ren, next, true);
      var b := Rename(r, a.ren, a.next, true);
      && Agree(a.ren, FreeVars(l), env, env') && Agree(b.ren, FreeVars(r), env, env') && AllBelow(a.ren, a.next)
      && Rename(f, ren, next, true).t == Bin(f.op, a.t, b.t)
  {
    var a := Rename(l, ren, next, true);
    RenameShape(l, ren, next);
    RenameShape(r, a.ren, a.next);
  }

  /** A formula with freshly renamed variables means what the formula means, with each free variable read through its
      new name. Nothing is captured. */
  lemma {:induction false} RenameMeans(f: Form, ren: Renaming, next: nat, env: Env, env': Env, db: Db, dom: nat)
    requires AllBelow(ren, next)
    requires Agree(Rename(f, ren, next, true).ren, FreeVars(f), env, env')
    ensures Eval(Rename(f, ren, next, true).t, env', db, dom) == Eval(f, env, db, dom)
    decreases f
  {
    match f
    case Lit(_) => LeafRenamed(f, ren, next, env, env', db, dom);
    case Equal(_, _) => LeafRenamed(f, ren, next, env, env', db, dom);
    case Not(g) => RenameMeans(g, ren, next, env, env', db, dom);
    case Bin(op, l, r) =>
      var a := Rename(l, ren, next, true);
      var b := Rename(r, a.ren, a.next, true);
      RenameShape(l, ren, next);
      RenameShape(r, a.ren, a.next);
      AgreeParts(f, l, r, ren, next, env, env');
      RenameMeans(l, ren, next, env, env', db, dom);
      RenameMeans(r, a.ren, a.next, env, env', db, dom);
      hide Agree, AllBelow, Rename, FreeVars;
      BinMeans(op, l, r, env, db, dom);
      BinMeans(op, a.t, b.t, env', db, dom);
    case Quant(q, v, g) =>
      var a := Rename(g, ren[v := Var(next)], next + 1, true);
      RenameShape(g, ren[v := Var(next)], next + 1);
      assert Agree(Restore(v, ren, a.ren), FreeVars(g) - {v}, env, env');
      assert AllBelow(ren[v := Var(next)], next + 1);
      assert Rename(f, ren, next, true).t == Quant(q, next, a.t);
      hide Agree, Rename, FreeVars, AllBelow;
      forall d: nat | d < dom ensures Eval(a.t, Put(env', next, d), db, dom) == Eval(g, Put(env, v, d), db, dom) {
        AgreeBound(ren, next, a.ren, a.next, v, FreeVars(g), env, env', d);
        RenameMeans(g, ren[v := Var(next)], next + 1, env[v := d], env'[next := d], db, dom);
      }
      QuantSame(q, v, g, next, a.t, env, env', db, dom);
  }

  lemma LeafRenamed(f: Form, ren: Renaming, next: nat, env: Env, env': Env, db: Db, dom: nat)
    requires (f.Lit? || f.Equal?) && AllBelow(ren, next)
    requires Agree(Rename(f, ren, next, true).ren, FreeVars(f), env, env')
    ensures Eval(Rename(f, ren, next, true).t, env', db, dom) == Eval(f, env, db, dom)
  {
    match f
    case Lit(a) =>
      ArgsRenamed(a.args, ren, next);
      var x := RenameArgs(a.args, ren, next, true);
      NamesMean(a.args, x.t, x.ren, env, env');
    case Equal(x, y) =>
      assert x in [x, y] && y in [x, y];
  }

  lemma QuantSame(q: Quantifier, v: nat, g: Form, u: nat, t: Form, env: Env, env': Env, db: Db, dom: nat)
    requires forall d: nat :: d < dom ==> Eval(t, Put(env', u, d), db, dom) == Eval(g, Put(env, v, d), db, dom)
    ensures Eval(Quant(q, u, t), env', db, dom) == Eval(Quant(q, v, g), env, db, dom)
  {
    assert Holders(t, env', db, dom, u) == Holders(g, env, db, dom, v);
  }
}
