/** Compilation of first-order formulas to conjunctive rules over auxiliary relations. */
module ToDnf {
  import opened Formula
  import opened Inlining
  import opened Pdatalog
  import opened Dnf
  import opened DnfShape

  // ----- expansion of the derived operators

  /** Reduces implication, co-implication and uniqueness at the root; next is an unused variable. */
  function ExpandNode(t: Form, next: nat): Form {
    match t
    case Bin(Implies, l, r) => Bin(Or, Not(l), r)
    case Bin(Coimplies, l, r) => Bin(And, Bin(Implies, l, r), Bin(Implies, r, l))
    case Quant(Unique, v, g) =>
      Quant(Exists, v, Bin(And, g, Others(v, g, next)))
    case _ => t
  }

  predicate Derived(t: Form) {
    (t.Bin? && (t.op == Implies || t.op == Coimplies)) || (t.Quant? && t.q == Unique)
  }

  /** All entries keep their name, except that v is called e. */
  ghost predicate IdBut(ren: Renaming, v: nat, e: nat) {
    forall x :: x in ren ==> ren[x] == Var(x) || (x == v && ren[x] == Var(e))
  }

  ghost predicate Keeps(ren: Renaming, ren': Renaming) {
    forall x :: x in ren ==> x in ren' && ren'[x] == ren[x]
  }

  lemma {:induction false} ArgsId(args: seq<Arg>, ren: Renaming, next: nat, v: nat, e: nat)
    requires IdBut(ren, v, e)
    ensures var x := RenameArgs(args, ren, next, false);
      IdBut(x.ren, v, e) && Keeps(ren, x.ren) && x.next == next && NamesOf(args, x.t, x.ren)
  {
    if args != [] { ArgsId(args[..|args| - 1], ren, next, v, e); }
  }

  lemma {:induction false} IdShape(f: Form, ren: Renaming, next: nat, v: nat, e: nat)
    requires IdBut(ren, v, e)
    ensures var x := Rename(f, ren, next, false);
      IdBut(x.ren, v, e) && Keeps(ren, x.ren) && x.next == next && FreeVars(f) <= x.ren.Keys
    decreases f
  {
    match f
    case Lit(a) =>
      ArgsId(a.args, ren, next, v, e);
      var x := RenameArgs(a.args, ren, next, false);
      ArgsCovered(a.args, x.t, x.ren);
    case Equal(x, y) =>
    case Not(g) => IdShape(g, ren, next, v, e);
    case Bin(_, l, r) =>
      var a := Rename(l, ren, next, false);
      IdShape(l, ren, next, v, e);
      IdShape(r, a.ren, a.next, v, e);
    case Quant(_, u, g) =>
      var a := Rename(g, ren[u := Var(u)], next, false);
      IdShape(g, ren[u := Var(u)], next, v, e);
      RestoreId(ren, a.ren, u, v, e);
      assert FreeVars(f) <= FreeVars(g);
  }

  lemma RestoreId(ren: Renaming, inner: Renaming, u: nat, v: nat, e: nat)
    requires IdBut(ren, v, e) && IdBut(inner, v, e) && Keeps(ren[u := Var(u)], inner)
    ensures IdBut(Restore(u, ren, inner), v, e) && Keeps(ren, Restore(u, ren, inner))
    ensures forall x :: x in inner && x != u ==> x in Restore(u, ren, inner)
  {
  }

  /** A copy in which only v is renamed, to a variable that does not occur, means the same with v read through it. */
  lemma {:induction false} CopyMeans(f: Form, ren: Renaming, next: nat, v: nat, e: nat, env: Env, env': Env, db: Db,
        dom: nat)
    requires IdBut(ren, v, e) && Below(f, e)
    requires Agree(Rename(f, ren, next, false).ren, FreeVars(f), env, env')
    ensures Eval(Rename(f, ren, next, false).t, env', db, dom) == Eval(f, env, db, dom)
    decreases f
  {
    match f
    case Lit(a) =>
      ArgsId(a.args, ren, next, v, e);
      var x := RenameArgs(a.args, ren, next, false);
      NamesMean(a.args, x.t, x.ren, env, env');
    case Equal(x, y) =>
      assert x in [x, y] && y in [x, y];
    case Not(g) => CopyMeans(g, ren, next, v, e, env, env', db, dom);
    case Bin(_, l, r) =>
      var a := Rename(l, ren, next, false);
      IdShape(l, ren, next, v, e);
      IdShape(r, a.ren, a.next, v, e);
      CopyMeans(l, ren, next, v, e, env, env', db, dom);
      CopyMeans(r, a.ren, a.next, v, e, env, env', db, dom);
    case Quant(q, u, g) =>
      var a := Rename(g, ren[u := Var(u)], next, false);
      IdShape(g, ren[u := Var(u)], next, v, e);
      forall d: nat | d < dom ensures Eval(a.t, Put(env', u, d), db, dom) == Eval(g, Put(env, u, d), db, dom) {
        AgreeUnder(ren, a.ren, u, v, e, FreeVars(g), env, env', d);
        CopyMeans(g, ren[u := Var(u)], next, v, e, env[u := d], env'[u := d], db, dom);
      }
      assert Holders(a.t, env', db, dom, u) == Holders(g, env, db, dom, u);
  }

  lemma AgreeUnder(ren: Renaming, inner: Renaming, u: nat, v: nat, e: nat, s: set<nat>, env: Env, env': Env, d: nat)
    requires IdBut(inner, v, e) && Keeps(ren[u := Var(u)], inner) && s <= inner.Keys && u < e
    requires Agree(Restore(u, ren, inner), s - {u}, env, env')
    ensures Agree(inner, s, env[u := d], env'[u := d])
  {
    forall x | x in s ensures Get(env[u := d], x) == Value(inner[x], env'[u := d]) {
      if x != u { assert x in s - {u} && Restore(u, ren, inner)[x] == inner[x]; }
    }
  }

  /** The free variables of a copy are e and those of the original, without v where v is called e. */
  ghost predicate FromCopy(s: set<nat>, t: set<nat>, ren: Renaming, v: nat, e: nat) {
    forall y :: y in s ==> y == e || (y in t && (v in ren && ren[v] == Var(e) ==> y != v))
  }

  lemma CopyShapeEqual(x: Arg, y: Arg, ren: Renaming, next: nat, v: nat, e: nat)
    requires IdBut(ren, v, e) && Below(Equal(x, y), e) && v < e
    ensures var z := Rename(Equal(x, y), ren, next, false);
      Below(z.t, e + 1) && FromCopy(FreeVars(z.t), FreeVars(Equal(x, y)), ren, v, e)
  {
    var a := RenameArg(x, ren, next, false);
    var b := RenameArg(y, a.ren, a.next, false);
    assert NameOf([x, y][0], [a.t, b.t][0], b.ren) && NameOf([x, y][1], [a.t, b.t][1], b.ren);
    ArgsFree([x, y], [a.t, b.t], b.ren, v, e);
    assert a.t in [a.t, b.t] && b.t in [a.t, b.t];
  }

  /** What the copy of a binary formula, or of a quantified one, takes from the copies of its parts. */
  lemma CopyShapeBin(s: set<nat>, t: set<nat>, s': set<nat>, t': set<nat>, ren: Renaming, mid: Renaming, v: nat, e: nat)
    requires FromCopy(s, t, ren, v, e) && FromCopy(s', t', mid, v, e) && Keeps(ren, mid)
    ensures FromCopy(s + s', t + t', ren, v, e)
  {
  }

  lemma CopyShapeQuant(s: set<nat>, t: set<nat>, ren: Renaming, u: nat, v: nat, e: nat)
    requires FromCopy(s, t, ren[u := Var(u)], v, e)
    ensures FromCopy(s - {u}, t - {u}, ren, v, e)
  {
  }

  lemma {:induction false} CopyShape(f: Form, ren: Renaming, next: nat, v: nat, e: nat)
    requires IdBut(ren, v, e) && Below(f, e) && v < e
    ensures var x := Rename(f, ren, next, false);
      Below(x.t, e + 1) && FromCopy(FreeVars(x.t), FreeVars(f), ren, v, e)
    decreases f
  {
    match f
    case Lit(a) =>
      ArgsId(a.args, ren, next, v, e);
      var x := RenameArgs(a.args, ren, next, false);
      ArgsFree(a.args, x.t, x.ren, v, e);
    case Equal(x, y) => CopyShapeEqual(x, y, ren, next, v, e);
    case Not(g) => CopyShape(g, ren, next, v, e);
    case Bin(_, l, r) =>
      var a := Rename(l, ren, next, false);
      var b := Rename(r, a.ren, a.next, false);
      IdShape(l, ren, next, v, e);
      CopyShape(l, ren, next, v, e);
      CopyShape(r, a.ren, a.next, v, e);
      CopyShapeBin(FreeVars(a.t), FreeVars(l), FreeVars(b.t), FreeVars(r), ren, a.ren, v, e);
      hide FromCopy, IdBut, Keeps;
    case Quant(q, u, g) =>
      var a := Rename(g, ren[u := Var(u)], next, false);
      CopyShape(g, ren[u := Var(u)], next, v, e);
      CopyShapeQuant(FreeVars(a.t), FreeVars(g), ren, u, v, e);
      hide FromCopy, IdBut;
  }

  lemma {:induction false} CopyWeight(f: Form, ren: Renaming, next: nat)
    ensures Weight(Rename(f, ren, next, false).t) == Weight(f)
    decreases f
  {
    match f
    case Lit(_) =>
    case Equal(_, _) =>
    case Not(g) => CopyWeight(g, ren, next);
    case Bin(_, l, r) =>
      var a := Rename(l, ren, next, false);
      CopyWeight(l, ren, next);
      CopyWeight(r, a.ren, a.next);
    case Quant(_, u, g) => CopyWeight(g, ren[u := Var(u)], next);
  }

  lemma ArgsFree(args: seq<Arg>, args': seq<Arg>, ren: Renaming, v: nat, e: nat)
    requires NamesOf(args, args', ren) && IdBut(ren, v, e) && BelowArgs(args, e)
    requires v < e
    ensures FromCopy(ArgVars(args'), ArgVars(args), ren, v, e) && BelowArgs(args', e + 1)
  {
    forall x | x in args' ensures BelowArg(x, e + 1) && (x.Var? ==> FromCopy({x.v}, ArgVars(args), ren, v, e)) {
      var i :| 0 <= i < |args'| && args'[i] == x;
      assert NameOf(args[i], args'[i], ren) && args[i] in args && BelowArg(args[i], e);
      if x.Var? { assert args[i].v in ArgVars(args); }
    }
  }

  /** A measure that the expansions decrease. */
  function Weight(f: Form): nat {
    match f
    case Lit(_) => 1
    case Equal(_, _) => 1
    case Not(g) => Weight(g) + 1
    case Bin(op, l, r) =>
      (match op case And => Weight(l) + Weight(r) + 1 case Or => Weight(l) + Weight(r) + 1
                case Implies => Weight(l) + Weight(r) + 3 case Coimplies => 2 * (Weight(l) + Weight(r)) + 8)
    case Quant(q, _, g) =>
      (match q case Exists => Weight(g) + 1 case Forall => Weight(g) + 4 case Unique => 2 * Weight(g) + 11)
  }

  function Copy(v: nat, g: Form, next: nat): Form {
    Rename(g, map[v := Var(next)], next + 1, false).t
  }

  function Others(v: nat, g: Form, next: nat): Form {
    Quant(Forall, next, Bin(Implies, Copy(v, g, next), Equal(Var(next), Var(v))))
  }

  /** No other value than v's makes the formula true. */
  lemma OthersMean(v: nat, g: Form, next: nat, env: Env, db: Db, dom: nat, d: nat, G: iset<nat>)
    requires Below(g, next) && v < next && d < dom && G == Holders(g, env, db, dom, v)
    ensures Eval(Others(v, g, next), Put(env, v, d), db, dom) <==> Only(G, d)
  {
    var copy, same, env1 := Copy(v, g, next), Equal(Var(next), Var(v)), Put(env, v, d);
    var imp := Bin(Implies, copy, same);
    forall c: nat | c < dom ensures Eval(imp, Put(env1, next, c), db, dom) <==> (c in G ==> c == d) {
      CopyAt(g, v, next, env, d, c);
      CopyMeans(g, map[v := Var(next)], next + 1, v, next, Put(env, v, c), Put(env1, next, c), db, dom);
      assert Eval(same, Put(env1, next, c), db, dom) <==> c == d;
      BinMeans(Implies, copy, same, Put(env1, next, c), db, dom);
    }
    QuantMeans(Forall, next, imp, env1, db, dom);
    OnlyForall(G, Holders(imp, env1, db, dom, next), d, dom);
  }

  lemma OnlyForall(G: iset<nat>, H: iset<nat>, d: nat, dom: nat)
    requires forall c: nat :: c in G ==> c < dom
    requires forall c: nat :: c in H <==> c < dom && (c in G ==> c == d)
    ensures Quantified(Forall, H, dom) <==> Only(G, d)
  {
    if Quantified(Forall, H, dom) {
      forall c | c in G ensures c == d { assert c in H; }
    }
  }

  lemma UniqueMeans(v: nat, g: Form, next: nat, env: Env, db: Db, dom: nat)
    requires Below(g, next) && v < next
    ensures Eval(ExpandNode(Quant(Unique, v, g), next), env, db, dom) <==> Eval(Quant(Unique, v, g), env, db, dom)
  {
    var others, G := Others(v, g, next), Holders(g, env, db, dom, v);
    var both := Bin(And, g, others);
    var W := Holders(both, env, db, dom, v);
    QuantMeans(Exists, v, both, env, db, dom);
    QuantMeans(Unique, v, g, env, db, dom);
    forall d: nat ensures d in W <==> d in G && Only(G, d) {
      if d < dom {
        OthersMean(v, g, next, env, db, dom, d, G);
        BinMeans(And, g, others, Put(env, v, d), db, dom);
      }
    }
    UniqueExists(G, W, dom);
  }

  lemma UniqueExists(G: iset<nat>, W: iset<nat>, dom: nat)
    requires forall d: nat :: d in W <==> d in G && Only(G, d)
    ensures Quantified(Exists, W, dom) <==> Quantified(Unique, G, dom)
  {
    hide Only;
    if Quantified(Unique, G, dom) {
      var d :| d in G && Only(G, d);
      assert d in W;
    }
  }

  /** The copy is evaluated where v has the value of the new variable. */
  lemma CopyAt(g: Form, v: nat, next: nat, env: Env, d: nat, c: nat)
    requires Below(g, next) && v < next
    ensures var x := Rename(g, map[v := Var(next)], next + 1, false);
      Agree(x.ren, FreeVars(g), Put(env, v, c), Put(Put(env, v, d), next, c))
  {
    IdShape(g, map[v := Var(next)], next + 1, v, next);
    FreeBelow(g, next);
  }

  lemma {:induction false} FreeBelow(f: Form, n: nat)
    requires Below(f, n)
    ensures forall v :: v in FreeVars(f) ==> v < n
  {
    match f
    case Lit(a) =>
    case Equal(x, y) =>
    case Not(g) => FreeBelow(g, n);
    case Bin(_, l, r) => FreeBelow(l, n); FreeBelow(r, n);
    case Quant(_, _, g) => FreeBelow(g, n);
  }

  /** The expansion means the same and is smaller. */
  lemma ExpandMeans(t: Form, next: nat, env: Env, db: Db, dom: nat)
    requires Below(t, next)
    ensures Eval(ExpandNode(t, next), env, db, dom) <==> Eval(t, env, db, dom)
  {
    if t.Quant? && t.q == Unique {
      UniqueMeans(t.v, t.f, next, env, db, dom);
    } else if t.Bin? {
      var l, r, n := t.l, t.r, Not(t.l);
      assert Eval(n, env, db, dom) == !Eval(l, env, db, dom);
      var a, b := Bin(Implies, l, r), Bin(Implies, r, l);
      assert Eval(a, env, db, dom) == (Eval(l, env, db, dom) ==> Eval(r, env, db, dom));
      assert Eval(b, env, db, dom) == (Eval(r, env, db, dom) ==> Eval(l, env, db, dom));
    }
  }

  lemma ExpandShape(t: Form, next: nat, name: nat)
    requires Below(t, next) && NamesBelow(t, name) && Derived(t)
    ensures Below(ExpandNode(t, next), next + 1) && NamesBelow(ExpandNode(t, next), name)
    ensures FreeVars(ExpandNode(t, next)) <= FreeVars(t) && Weight(ExpandNode(t, next)) < Weight(t)
  {
    if t.Bin? {
      BelowMore(t.l, next, next + 1); BelowMore(t.r, next, next + 1);
    } else {
      var v, g := t.v, t.f;
      var others := Others(v, g, next);
      var both := Bin(And, g, others);
      OthersShape(v, g, next, name);
      BelowMore(g, next, next + 1);
      assert ExpandNode(t, next) == Quant(Exists, v, both);
      hide Others;
      assert Below(both, next + 1) && NamesBelow(both, name) && Weight(both) == 2 * Weight(g) + 9;
      assert FreeVars(both) - {v} <= FreeVars(g) - {v};
    }
  }

  lemma CopyFree(s: set<nat>, t: set<nat>, ren: Renaming, v: nat, e: nat)
    requires FromCopy(s, t, ren, v, e) && v in ren && ren[v] == Var(e)
    ensures s <= t - {v} + {e}
  {
  }

  lemma CopyFacts(v: nat, g: Form, next: nat, name: nat)
    requires Below(g, next) && NamesBelow(g, name) && v < next
    ensures var copy := Copy(v, g, next);
      Below(copy, next + 1) && NamesBelow(copy, name) && Weight(copy) == Weight(g) &&
        FreeVars(copy) <= FreeVars(g) - {v} + {next}
  {
    var ren: Renaming := map[v := Var(next)];
    var copy := Rename(g, ren, next + 1, false).t;
    CopyShape(g, ren, next + 1, v, next);
    CopyFree(FreeVars(copy), FreeVars(g), ren, v, next);
    hide Rename, Weight, Below, NamesBelow, FreeVars, FromCopy;
    CopyWeight(g, ren, next + 1);
    RenameNames(g, ren, next + 1, false, name);
    assert copy == Copy(v, g, next);
  }

  lemma OthersShape(v: nat, g: Form, next: nat, name: nat)
    requires Below(g, next) && NamesBelow(g, name) && v < next
    ensures var o := Others(v, g, next);
      Below(o, next + 1) && NamesBelow(o, name) && Weight(o) == Weight(g) + 8 && FreeVars(o) <= FreeVars(g) + {v}
  {
    var copy, same := Copy(v, g, next), Equal(Var(next), Var(v));
    CopyFacts(v, g, next, name);
    SameVars(next, v);
    hide Copy;
    var imp := Bin(Implies, copy, same);
    ImpliesShape(copy, same, next + 1, name);
    assert Below(same, next + 1) && NamesBelow(same, name) && Weight(same) == 1;
    assert FreeVars(imp) <= FreeVars(g) - {v} + {next, v};
  }

  lemma ImpliesShape(f: Form, g: Form, next: nat, name: nat)
    ensures var imp := Bin(Implies, f, g);
      && Weight(imp) == Weight(f) + Weight(g) + 3 && FreeVars(imp) == FreeVars(f) + FreeVars(g)
      && (Below(imp, next) <==> Below(f, next) && Below(g, next)) &&
         (NamesBelow(imp, name) <==> NamesBelow(f, name) && NamesBelow(g, name))
  {
  }

  lemma SameVars(x: nat, y: nat)
    ensures FreeVars(Equal(Var(x), Var(y))) == {x, y}
  {
    var args := [Var(x), Var(y)];
    assert args[0] in args && args[1] in args;
    assert ArgVars(args) == {x, y};
  }

  // ----- heads over sets of variables

  predicate Least(m: nat, s: set<nat>) {
    m in s && forall y :: y in s ==> m <= y
  }

  lemma {:induction false} LeastExists(s: set<nat>)
    requires s != {}
    ensures exists m :: Least(m, s)
    decreases |s|
  {
    var x :| x in s;
    var rest := s - {x};
    if rest == {} {
      assert forall y :: y in s ==> y == x || y in rest;
      assert Least(x, s);
    } else {
      LeastExists(rest);
      var k :| Least(k, rest);
      assert forall y :: y in s ==> y == x || y in rest;
      assert Least(if x <= k then x else k, s);
    }
  }

  /** The variables of a set in ascending order. */
  function Listing(s: set<nat>): seq<Arg>
    decreases |s|
  {
    if s == {} then []
    else
      LeastExists(s);
      var m :| Least(m, s);
      [Var(m)] + Listing(s - {m})
  }

  lemma {:induction false} ListingIn(s: set<nat>, x: Arg)
    ensures x in Listing(s) <==> x.Var? && x.v in s
    decreases |s|
  {
    if s != {} {
      LeastExists(s);
      var m :| Least(m, s) && Listing(s) == [Var(m)] + Listing(s - {m});
      ListingIn(s - {m}, x);
    }
  }

  lemma ListingVars(s: set<nat>)
    ensures ArgVars(Listing(s)) == s
  {
    forall v ensures v in ArgVars(Listing(s)) <==> v in s { ListingIn(s, Var(v)); }
  }

  lemma ListingSame(s: set<nat>, env: Env, env': Env)
    ensures Values(Listing(s), env) == Values(Listing(s), env') <==> SameOn(s, env, env')
  {
    ListingVars(s);
    if SameOn(s, env, env') { ValuesSame(Listing(s), env, env'); }
    if Values(Listing(s), env) == Values(Listing(s), env') {
      forall v | v in s ensures Get(env, v) == Get(env', v) {
        var x :| x in Listing(s) && x.Var? && x.v == v;
        var i :| 0 <= i < |Listing(s)| && Listing(s)[i] == x;
        assert Values(Listing(s), env)[i] == Values(Listing(s), env')[i];
      }
    }
  }

  function Head(part: nat, fv: set<nat>): Atom {
    Atom(Rel(part, |Listing(fv)|), Listing(fv))
  }

  // ----- bottom-up evaluation of the emitted rules

  /** Evaluates the rules in the order they were emitted, each on what the earlier ones have derived. */
  ghost function BottomUp(rs: seq<Rule>, db: Db, dom: nat): Db {
    if rs == [] then db
    else
      var d := BottomUp(rs[..|rs| - 1], db, dom);
      iset u: Fact | u in d || Fires(rs[|rs| - 1], d, dom, u)
  }

  lemma {:induction false} BottomUpJoined(a: seq<Rule>, b: seq<Rule>, db: Db, dom: nat)
    ensures BottomUp(a + b, db, dom) == BottomUp(b, BottomUp(a, db, dom), dom)
    decreases |b|
  {
    if b == [] {
      assert a + b == a;
    } else {
      var n := |b| - 1;
      assert (a + b)[..|a + b| - 1] == a + b[..n] && (a + b)[|a + b| - 1] == b[n];
      BottomUpJoined(a, b[..n], db, dom);
    }
  }

  ghost predicate LitHolds(s: Signed, env: Env, db: Db, dom: nat) {
    Eval(s.term, env, db, dom) != s.neg
  }

  /** Evaluating the rules adds facts of relations from name to name' only, and makes the literal mean the formula. */
  ghost predicate Converts(t: Form, lit: Signed, out: seq<Rule>, name: nat, name': nat, dom: nat) {
    forall db :: NoneFrom(db, name) ==> ConvertsAt(t, lit, out, name, name', dom, db)
  }

  ghost predicate ConvertsAt(t: Form, lit: Signed, out: seq<Rule>, name: nat, name': nat, dom: nat, db: Db) {
    var d := BottomUp(out, db, dom);
    && Part(d, name) == db && NoneFrom(d, name')
    && forall env: Env :: EnvBelow(env, dom) ==> (LitHolds(lit, env, d, dom) <==> Eval(t, env, db, dom))
  }

  lemma PartBelow(d: Db, db: Db, n: nat, m: nat)
    requires Part(d, m) == db && n <= m
    ensures Part(d, n) == Part(db, n)
  {
    forall u: Fact ensures u in Part(d, n) <==> u in Part(db, n) {
      assert u in db <==> u in Part(d, m);
    }
  }

  /** A new relation holds what its rule derives. */
  lemma NewRelation(r: Rule, d: Db, name: nat, name': nat, dom: nat, u: Fact)
    requires name <= r.head.rel.name < name' && NoneFrom(d, name')
    ensures Part(BottomUp([r], d, dom), name) == Part(d, name) && NoneFrom(BottomUp([r], d, dom), name')
    ensures u.rel == r.head.rel ==> (u in BottomUp([r], d, dom) <==> u in d || Fires(r, d, dom, u))
  {
    assert [r][..0] == [] && [r][0] == r;
    assert BottomUp([r][..0], d, dom) == d;
  }

  /** A rule whose head lists the variables of fv derives the head's instance exactly when its body holds for some
      values of the other variables. */
  lemma HeadFires(part: nat, fv: set<nat>, body: Form, d: Db, dom: nat, env: Env)
    requires EnvBelow(env, dom)
    ensures Fires(Rule(false, Head(part, fv), body), d, dom, Fact(Head(part, fv).rel, Values(Listing(fv), env)))
      <==> exists e: Env :: EnvBelow(e, dom) && SameOn(fv, e, env) && Eval(body, e, d, dom)
  {
    var r, u := Rule(false, Head(part, fv), body), Fact(Head(part, fv).rel, Values(Listing(fv), env));
    if Fires(r, d, dom, u) {
      var e: Env :| FiresWith(r, d, dom, u, e);
      ListingSame(fv, e, env);
    }
    if e: Env :| EnvBelow(e, dom) && SameOn(fv, e, env) && Eval(body, e, d, dom) {
      ListingSame(fv, e, env);
      assert FiresWith(r, d, dom, u, e);
    }
  }

  // ----- pieces of formulas

  lemma {:induction false} FlattenShape(op: Op, f: Form, next: nat, name: nat)
    requires Below(f, next) && NamesBelow(f, name) && (op == And || op == Or)
    ensures Flatten(op, f) != []
    ensures forall g :: g in Flatten(op, f) ==>
      Below(g, next) && NamesBelow(g, name) && FreeVars(g) <= FreeVars(f) && Weight(g) <= Weight(f)
    ensures f.Bin? && f.op == op ==> forall g :: g in Flatten(op, f) ==> Weight(g) < Weight(f)
  {
    if f.Bin? && f.op == op {
      FlattenShape(op, f.l, next, name);
      FlattenShape(op, f.r, next, name);
    }
  }

  /** The body below a chain of equal quantifiers, and the variables of the chain. */
  function Inner(q: Quantifier, f: Form): Form {
    if f.Quant? && f.q == q then Inner(q, f.f) else f
  }

  function Chain(q: Quantifier, f: Form): set<nat> {
    if f.Quant? && f.q == q then {f.v} + Chain(q, f.f) else {}
  }

  lemma {:induction false} InnerShape(q: Quantifier, f: Form, next: nat, name: nat)
    requires Below(f, next) && NamesBelow(f, name) && q != Unique
    ensures Below(Inner(q, f), next) && NamesBelow(Inner(q, f), name)
    ensures FreeVars(Inner(q, f)) - Chain(q, f) <= FreeVars(f)
    ensures Chain(q, f) !! FreeVars(f) && forall v :: v in Chain(q, f) ==> v < next
    ensures Weight(Inner(q, f)) + (if q == Forall then 4 else 1) * |Chain(q, f)| <= Weight(f)
    ensures f.Quant? && f.q == q ==> Weight(Inner(q, f)) < Weight(f) && Chain(q, f) != {}
  {
    if f.Quant? && f.q == q {
      InnerShape(q, f.f, next, name);
      ChainSize(f.v, Chain(q, f.f));
      assert FreeVars(f) <= FreeVars(f.f);
    }
  }

  lemma ChainSize(v: nat, s: set<nat>)
    ensures |{v} + s| <= |s| + 1
  {
    if v in s { assert {v} + s == s; }
  }

  /** A chain of existential quantifiers asks for values of its variables. */
  lemma {:induction false} ExistsChain(f: Form, env: Env, db: Db, dom: nat)
    ensures Eval(f, env, db, dom) <==> EvalSome(Inner(Exists, f), env, Chain(Exists, f), db, dom)
    decreases f
  {
    if f.Quant? && f.q == Exists {
      var W := Chain(Exists, f.f);
      forall e: Env
        ensures Eval(f.f, e, db, dom) <==> EvalSome(Inner(Exists, f.f), e, W, db, dom)
      {
        ExistsChain(f.f, e, db, dom);
      }
      ChainStep(Inner(Exists, f), f.f, f, env, W, f.v, db, dom);
    } else {
      EvalSomeNone(f, env, db, dom);
    }
  }

  /** Quantifying a variable that may be among the inner ones. */
  lemma ChainStep(f: Form, g: Form, q: Form, env: Env, W: set<nat>, w: nat, db: Db, dom: nat)
    requires q == Quant(Exists, w, g)
    requires forall e: Env :: Eval(g, e, db, dom) <==> EvalSome(f, e, W, db, dom)
    ensures Eval(q, env, db, dom) <==> EvalSome(f, env, {w} + W, db, dom)
  {
    if w !in W {
      EvalSomeMore(f, g, q, env, W, w, db, dom);
      assert {w} + W == W + {w};
    } else {
      assert {w} + W == W;
      QuantMeans(Exists, w, g, env, db, dom);
      if d :| d in Holders(g, env, db, dom, w) {
        assert EvalSome(f, Put(env, w, d), W, db, dom);
        var e: Env :| Differ(Put(env, w, d), e, W, dom) && Eval(f, e, db, dom);
        assert Differ(env, e, W, dom);
      }
      if EvalSome(f, env, W, db, dom) {
        var e: Env :| Differ(env, e, W, dom) && Eval(f, e, db, dom);
        var d := Get(e, w);
        assert Differ(Put(env, w, d), e, W, dom);
        assert EvalSome(f, Put(env, w, d), W, db, dom);
        assert d in Holders(g, env, db, dom, w);
      }
    }
  }

  /** g is f under existential quantifiers over the given variables. */
  ghost predicate Under(g: Form, f: Form, vars: set<nat>, next: nat, name: nat) {
    && Inner(Exists, g) == f && Chain(Exists, g) == vars && Weight(g) == Weight(f) + |vars|
    && Below(g, next) && NamesBelow(g, name) && FreeVars(g) == FreeVars(f) - vars
  }

  lemma UnderNone(f: Form, next: nat, name: nat)
    requires !(f.Quant? && f.q == Exists) && Below(f, next) && NamesBelow(f, name)
    ensures Under(f, f, {}, next, name)
  {
  }

  lemma UnderMore(g: Form, f: Form, vars: set<nat>, v: nat, next: nat, name: nat)
    requires Under(g, f, vars, next, name) && v !in vars && v < next
    ensures Under(Quant(Exists, v, g), f, vars + {v}, next, name)
  {
    assert {v} + vars == vars + {v};
  }

  /** Existential quantifiers over a set of variables, in any order. */
  method ExistsOver(vars: set<nat>, f: Form, ghost next: nat, ghost name: nat) returns (g: Form)
    requires !(f.Quant? && f.q == Exists) && Below(f, next) && NamesBelow(f, name) && forall v :: v in vars ==> v < next
    ensures Under(g, f, vars, next, name)
  {
    hide Under;
    g := f;
    var todo := vars;
    assert vars - todo == {};
    UnderNone(f, next, name);
    while todo != {}
      invariant todo <= vars && Under(g, f, vars - todo, next, name)
    {
      var v :| v in todo;
      UnderMore(g, f, vars - todo, v, next, name);
      assert vars - (todo - {v}) == (vars - todo) + {v};
      g := Quant(Exists, v, g);
      todo := todo - {v};
    }
    assert vars - todo == vars;
  }

  /** A chain of universal quantifiers denies the existence of a counterexample. */
  lemma {:induction false} ForallChain(f: Form, env: Env, db: Db, dom: nat)
    ensures Eval(f, env, db, dom) <==> !EvalSome(Not(Inner(Forall, f)), env, Chain(Forall, f), db, dom)
    decreases f
  {
    var n := Not(Inner(Forall, f));
    if f.Quant? && f.q == Forall {
      var W, g := Chain(Forall, f.f), Not(f.f);
      forall e: Env ensures Eval(g, e, db, dom) <==> EvalSome(n, e, W, db, dom) { ForallChain(f.f, e, db, dom); }
      ChainStep(n, g, Quant(Exists, f.v, g), env, W, f.v, db, dom);
      QuantMeans(Exists, f.v, g, env, db, dom);
      QuantMeans(Forall, f.v, f.f, env, db, dom);
      var H, N := Holders(f.f, env, db, dom, f.v), Holders(g, env, db, dom, f.v);
      forall d: nat | d < dom ensures d in H <==> d !in N { }
      assert Quantified(Forall, H, dom) <==> !Quantified(Exists, N, dom);
    } else {
      EvalSomeNone(n, env, db, dom);
    }
  }

  // ----- meaning of the emitted rules

  lemma LitKept(s: Signed, env: Env, d: Db, d2: Db, name: nat, dom: nat)
    requires SignedOk(s) && NamesBelow(s.term, name) && Part(d, name) == Part(d2, name)
    ensures LitHolds(s, env, d, dom) <==> LitHolds(s, env, d2, dom)
  {
    EvalPart(s.term, env, d, d2, name, dom);
  }

  lemma PartAll(db: Db, name: nat)
    requires NoneFrom(db, name)
    ensures Part(db, name) == db
  {
  }

  lemma ConvertsDown(t: Form, lit: Signed, out: seq<Rule>, name: nat, m: nat, name': nat, dom: nat)
    requires Converts(t, lit, out, m, name', dom) && name <= m
    ensures Converts(t, lit, out, name, name', dom)
  {
    forall db | NoneFrom(db, name) ensures ConvertsAt(t, lit, out, name, name', dom, db) {
      assert NoneFrom(db, m) && ConvertsAt(t, lit, out, m, name', dom, db);
      var d := BottomUp(out, db, dom);
      PartBelow(d, db, name, m);
      PartAll(db, name);
    }
  }

  /** The literals of the first formulas, after evaluating the rules emitted for them. */
  ghost predicate ConvertsAll(ts: seq<Form>, c: seq<Signed>, out: seq<Rule>, name: nat, name': nat, dom: nat) {
    && |c| <= |ts| && name <= name'
    && (forall j :: 0 <= j < |c| ==> SignedOk(c[j]) && NamesBelow(c[j].term, name'))
    && (forall db :: NoneFrom(db, name) ==> ConvertsAllAt(ts, c, out, name, name', dom, db))
  }

  ghost predicate ConvertsAllAt(ts: seq<Form>, c: seq<Signed>, out: seq<Rule>, name: nat, name': nat, dom: nat, db: Db)
    requires |c| <= |ts|
  {
    var d := BottomUp(out, db, dom);
    && Part(d, name) == db && NoneFrom(d, name')
    && forall j, env: Env :: 0 <= j < |c| && EnvBelow(env, dom) ==>
       (LitHolds(c[j], env, d, dom) <==> Eval(ts[j], env, db, dom))
  }

  lemma ConvertsMore(ts: seq<Form>, c: seq<Signed>, out: seq<Rule>, lit: Signed, more: seq<Rule>, name: nat, m: nat,
        name': nat, dom: nat)
    requires ConvertsAll(ts, c, out, name, m, dom) && |c| < |ts| && NamesBelow(ts[|c|], name)
    requires SignedOk(lit) && NamesBelow(lit.term, name') && m <= name' && Converts(ts[|c|], lit, more, m, name', dom)
    ensures ConvertsAll(ts, c + [lit], out + more, name, name', dom)
  {
    var c', out' := c + [lit], out + more;
    forall j | 0 <= j < |c'| ensures SignedOk(c'[j]) && NamesBelow(c'[j].term, name') {
      if j < |c| { TermNames(c[j].term, m, name'); }
    }
    forall db | NoneFrom(db, name) ensures ConvertsAllAt(ts, c', out', name, name', dom, db) {
      var d := BottomUp(out, db, dom);
      var d2 := BottomUp(more, d, dom);
      assert ConvertsAllAt(ts, c, out, name, m, dom, db) && ConvertsAt(ts[|c|], lit, more, m, name', dom, d);
      BottomUpJoined(out, more, db, dom);
      PartBelow(d2, d, name, m);
      PartAll(db, name);
      PartAll(d, m);
      forall j, env: Env | 0 <= j < |c'| && EnvBelow(env, dom)
        ensures LitHolds(c'[j], env, d2, dom) <==> Eval(ts[j], env, db, dom)
      {
        if j < |c| {
          LitKept(c[j], env, d, d2, m, dom);
        } else {
          EvalPart(ts[j], env, d, db, name, dom);
        }
      }
    }
  }

  lemma TermNames(f: Form, n: nat, m: nat)
    requires (f.Lit? || f.Equal?) && NamesBelow(f, n) && n <= m
    ensures NamesBelow(f, m)
  {
  }

  lemma {:induction false} ConjTreeMeans(c: seq<Signed>, env: Env, db: Db, dom: nat)
    requires c != []
    ensures Eval(ConjTree(c), env, db, dom) <==> forall j :: 0 <= j < |c| ==> LitHolds(c[j], env, db, dom)
  {
    var n := |c| - 1;
    SignMeans(c[n], env, db, dom);
    if n > 0 {
      ConjTreeMeans(c[..n], env, db, dom);
      BinMeans(And, ConjTree(c[..n]), TermTree(c[n]), env, db, dom);
    }
  }

  lemma SignMeans(s: Signed, env: Env, db: Db, dom: nat)
    ensures Eval(TermTree(s), env, db, dom) <==> LitHolds(s, env, db, dom)
  {
  }

  /** The head of a new rule, as a literal. */
  function Part0(part: nat, fv: set<nat>): Signed {
    Signed(false, Lit(Head(part, fv)))
  }

  lemma PartHolds(part: nat, fv: set<nat>, env: Env, db: Db, dom: nat)
    ensures LitHolds(Part0(part, fv), env, db, dom) <==> Fact(Head(part, fv).rel, Values(Listing(fv), env)) in db
  {
  }

  /** One rule for a conjunction: its head holds exactly when the conjunction does. */
  lemma AndConverts(t: Form, fv: set<nat>, ts: seq<Form>, c: seq<Signed>, out: seq<Rule>, part: nat, name': nat,
        dom: nat)
    requires ts == Flatten(And, t) && |c| == |ts| && c != [] && part < name'
    requires ConvertsAll(ts, c, out, part + 1, name', dom)
    requires FreeVars(t) <= fv
    ensures Converts(t, Part0(part, fv), out + [Rule(false, Head(part, fv), ConjTree(c))], part, name', dom)
  {
    hide Projects, Flatten;
    var r := Rule(false, Head(part, fv), ConjTree(c));
    forall db | NoneFrom(db, part) ensures ConvertsAt(t, Part0(part, fv), out + [r], part, name', dom, db) {
      var d := BottomUp(out, db, dom);
      assert NoneFrom(db, part + 1) && ConvertsAllAt(ts, c, out, part + 1, name', dom, db);
      forall e: Env | EnvBelow(e, dom) ensures Eval(ConjTree(c), e, d, dom) <==> Eval(t, e, db, dom) {
        ConjunctsAt(t, ts, c, e, d, db, dom);
      }
      SameProjects(t, fv, ConjTree(c), d, db, dom);
      RuleConverts(t, fv, ConjTree(c), out, part, name', dom, db);
    }
  }

  lemma ConjunctsAt(t: Form, ts: seq<Form>, c: seq<Signed>, e: Env, d: Db, db: Db, dom: nat)
    requires ts == Flatten(And, t) && |c| == |ts| && c != [] && EnvBelow(e, dom)
    requires forall j :: 0 <= j < |c| ==> (LitHolds(c[j], e, d, dom) <==> Eval(ts[j], e, db, dom))
    ensures Eval(ConjTree(c), e, d, dom) <==> Eval(t, e, db, dom)
  {
    ConjTreeMeans(c, e, d, dom);
    FlattenMeans(And, t, e, db, dom);
  }

  /** Choosing the other variables of the body makes it mean the formula. */
  ghost predicate Projects(t: Form, fv: set<nat>, body: Form, d: Db, db: Db, dom: nat) {
    forall env: Env :: EnvBelow(env, dom) ==> (SomeSame(fv, body, env, d, dom) <==> Eval(t, env, db, dom))
  }

  ghost predicate SomeSame(fv: set<nat>, body: Form, env: Env, d: Db, dom: nat) {
    exists e: Env :: EnvBelow(e, dom) && SameOn(fv, e, env) && Eval(body, e, d, dom)
  }

  lemma SameProjects(t: Form, fv: set<nat>, body: Form, d: Db, db: Db, dom: nat)
    requires FreeVars(t) <= fv
    requires forall e: Env :: EnvBelow(e, dom) ==> (Eval(body, e, d, dom) <==> Eval(t, e, db, dom))
    ensures Projects(t, fv, body, d, db, dom)
  {
    forall env: Env | EnvBelow(env, dom) ensures SomeSame(fv, body, env, d, dom) <==> Eval(t, env, db, dom) {
      if Eval(t, env, db, dom) { assert SameOn(fv, env, env) && Eval(body, env, d, dom); }
      if e: Env :| EnvBelow(e, dom) && SameOn(fv, e, env) && Eval(body, e, d, dom) {
        EvalSame(t, e, env, db, dom);
      }
    }
  }

  /** A single rule for a new relation converts the formula its body projects to. */
  lemma RuleConverts(t: Form, fv: set<nat>, body: Form, out: seq<Rule>, part: nat, name': nat, dom: nat, db: Db)
    requires NoneFrom(db, part) && part < name'
    requires Part(BottomUp(out, db, dom), part + 1) == db && NoneFrom(BottomUp(out, db, dom), name')
    requires Projects(t, fv, body, BottomUp(out, db, dom), db, dom)
    ensures ConvertsAt(t, Part0(part, fv), out + [Rule(false, Head(part, fv), body)], part, name', dom, db)
  {
    var r := Rule(false, Head(part, fv), body);
    var d := BottomUp(out, db, dom);
    var d3 := BottomUp([r], d, dom);
    BottomUpJoined(out, [r], db, dom);
    PartBelow(d, db, part, part + 1);
    PartAll(db, part);
    NewRelation(r, d, part, name', dom, Fact(r.head.rel, []));
    forall env: Env | EnvBelow(env, dom) ensures LitHolds(Part0(part, fv), env, d3, dom) <==> Eval(t, env, db, dom) {
      var u := Fact(r.head.rel, Values(Listing(fv), env));
      NewRelation(r, d, part, name', dom, u);
      HeadFires(part, fv, body, d, dom, env);
      PartHolds(part, fv, env, d3, dom);
      assert u in d <==> u in Part(d, r.head.rel.name + 1);
      assert SomeSame(fv, body, env, d, dom) <==> Eval(t, env, db, dom);
    }
  }

  // ----- disjunctions

  /** The rules so far make the new relation hold exactly where one of the first formulas does. */
  ghost predicate ConvertsSome(ts: seq<Form>, fv: set<nat>, out: seq<Rule>, part: nat, name': nat, dom: nat) {
    forall db :: NoneFrom(db, part) ==> ConvertsSomeAt(ts, fv, out, part, name', dom, db)
  }

  ghost predicate ConvertsSomeAt(ts: seq<Form>, fv: set<nat>, out: seq<Rule>, part: nat, name': nat, dom: nat, db: Db) {
    var d := BottomUp(out, db, dom);
    && Part(d, part) == db && NoneFrom(d, name')
    && forall env: Env :: EnvBelow(env, dom) ==>
       (LitHolds(Part0(part, fv), env, d, dom) <==> OneHolds(ts, env, db, dom))
  }

  /** One more disjunct with its own rule. */
  lemma SomeMore(ts: seq<Form>, g: Form, fv: set<nat>, out: seq<Rule>, lit: Signed, more: seq<Rule>, part: nat,
        m: nat, name': nat, dom: nat)
    requires ConvertsSome(ts, fv, out, part, m, dom) && part < m <= name' && NamesBelow(g, part) && FreeVars(g) <= fv
    requires Converts(g, lit, more, m, name', dom)
    ensures ConvertsSome(ts + [g], fv, out + more + [Rule(false, Head(part, fv), TermTree(lit))], part, name', dom)
  {
    var r := Rule(false, Head(part, fv), TermTree(lit));
    forall db | NoneFrom(db, part) ensures ConvertsSomeAt(ts + [g], fv, out + more + [r], part, name', dom, db) {
      var d := BottomUp(out, db, dom);
      var d2 := BottomUp(more, d, dom);
      var d3 := BottomUp([r], d2, dom);
      assert ConvertsSomeAt(ts, fv, out, part, m, dom, db) && ConvertsAt(g, lit, more, m, name', dom, d);
      BottomUpJoined(out, more, db, dom);
      BottomUpJoined(out + more, [r], db, dom);
      PartBelow(d2, d, part, m);
      PartAll(db, part);
      PartAll(d, m);
      NewRelation(r, d2, part, name', dom, Fact(r.head.rel, []));
      forall e: Env | EnvBelow(e, dom) ensures Eval(TermTree(lit), e, d2, dom) <==> Eval(g, e, db, dom) {
        SignMeans(lit, e, d2, dom);
        EvalPart(g, e, d, db, part, dom);
      }
      SameProjects(g, fv, TermTree(lit), d2, db, dom);
      forall env: Env | EnvBelow(env, dom)
        ensures LitHolds(Part0(part, fv), env, d3, dom) <==> OneHolds(ts + [g], env, db, dom)
      {
        DisjunctAt(ts, g, fv, r, lit, d, d2, db, part, m, name', dom, env);
      }
    }
  }

  lemma DisjunctAt(ts: seq<Form>, g: Form, fv: set<nat>, r: Rule, lit: Signed, d: Db, d2: Db, db: Db, part: nat,
        m: nat, name': nat, dom: nat, env: Env)
    requires r == Rule(false, Head(part, fv), TermTree(lit)) && part < m <= name' && EnvBelow(env, dom)
    requires NoneFrom(d2, name') && Part(d2, m) == d && Projects(g, fv, TermTree(lit), d2, db, dom)
    requires LitHolds(Part0(part, fv), env, d, dom) <==> OneHolds(ts, env, db, dom)
    ensures LitHolds(Part0(part, fv), env, BottomUp([r], d2, dom), dom) <==> OneHolds(ts + [g], env, db, dom)
  {
    var u := Fact(r.head.rel, Values(Listing(fv), env));
    NewRelation(r, d2, part, name', dom, u);
    HeadFires(part, fv, TermTree(lit), d2, dom, env);
    PartHolds(part, fv, env, BottomUp([r], d2, dom), dom);
    PartHolds(part, fv, env, d, dom);
    assert u in d <==> u in Part(d2, m);
    assert SomeSame(fv, TermTree(lit), env, d2, dom) <==> Eval(g, env, db, dom);
    Joined(ts, [g], env, db, dom);
    assert OneHolds([g], env, db, dom) <==> Eval([g][0], env, db, dom);
  }

  // ----- quantifiers

  /** The rule of an existential chain: its head leaves out the quantified variables. */
  lemma ExistsConverts(t: Form, fv: set<nat>, lit: Signed, out: seq<Rule>, part: nat, name': nat, dom: nat, next: nat)
    requires t.Quant? && t.q == Exists && FreeVars(t) <= fv && Below(t, next) && NamesBelow(t, part) && dom > 0
    requires Converts(Inner(Exists, t), lit, out, part + 1, name', dom) && part < name'
    ensures Converts(t, Part0(part, fv - Chain(Exists, t)),
      out + [Rule(false, Head(part, fv - Chain(Exists, t)), TermTree(lit))], part, name', dom)
  {
    var W, inner := Chain(Exists, t), Inner(Exists, t);
    var fv' := fv - W;
    InnerShape(Exists, t, next, part);
    forall db | NoneFrom(db, part)
      ensures ConvertsAt(t, Part0(part, fv'), out + [Rule(false, Head(part, fv'), TermTree(lit))], part, name', dom, db)
    {
      var d := BottomUp(out, db, dom);
      assert NoneFrom(db, part + 1) && ConvertsAt(inner, lit, out, part + 1, name', dom, db);
      forall env: Env | EnvBelow(env, dom)
        ensures SomeSame(fv', TermTree(lit), env, d, dom) <==> Eval(t, env, db, dom)
      {
        ExistsChain(t, env, db, dom);
        if SomeSame(fv', TermTree(lit), env, d, dom) { ExistsOnly(inner, W, fv', lit, d, db, dom, env); }
        if EvalSome(inner, env, W, db, dom) { ExistsIf(inner, W, fv', lit, d, db, dom, env); }
      }
      RuleConverts(t, fv', TermTree(lit), out, part, name', dom, db);
    }
  }

  /** e on W, env elsewhere. */
  ghost function Mixed(env: Env, e: Env, W: set<nat>): Env {
    map v | v in env.Keys + W :: if v in W then Get(e, v) else Get(env, v)
  }

  lemma MixedShape(env: Env, e: Env, W: set<nat>, fv: set<nat>, dom: nat)
    requires fv !! W && EnvBelow(env, dom) && dom > 0
    ensures SameOn(fv, e, env) ==> SameOn(fv + W, e, Mixed(env, e, W))
    ensures EnvBelow(e, dom) ==> Differ(env, Mixed(env, e, W), W, dom)
    ensures Differ(env, e, W, dom) ==>
      EnvBelow(Mixed(env, e, W), dom) && SameOn(fv + W, e, Mixed(env, e, W)) && SameOn(fv, Mixed(env, e, W), env)
  {
  }

  lemma ExistsOnly(inner: Form, W: set<nat>, fv: set<nat>, lit: Signed, d: Db, db: Db, dom: nat, env: Env)
    requires fv !! W && FreeVars(inner) <= fv + W && EnvBelow(env, dom) && dom > 0
    requires forall e: Env :: EnvBelow(e, dom) ==> (LitHolds(lit, e, d, dom) <==> Eval(inner, e, db, dom))
    requires SomeSame(fv, TermTree(lit), env, d, dom)
    ensures EvalSome(inner, env, W, db, dom)
  {
    var e: Env :| EnvBelow(e, dom) && SameOn(fv, e, env) && Eval(TermTree(lit), e, d, dom);
    SignMeans(lit, e, d, dom);
    var e' := Mixed(env, e, W);
    MixedShape(env, e, W, fv, dom);
    EvalSame(inner, e, e', db, dom);
    assert Differ(env, e', W, dom) && Eval(inner, e', db, dom);
  }

  lemma ExistsIf(inner: Form, W: set<nat>, fv: set<nat>, lit: Signed, d: Db, db: Db, dom: nat, env: Env)
    requires fv !! W && FreeVars(inner) <= fv + W && EnvBelow(env, dom) && dom > 0
    requires forall e: Env :: EnvBelow(e, dom) ==> (LitHolds(lit, e, d, dom) <==> Eval(inner, e, db, dom))
    requires EvalSome(inner, env, W, db, dom)
    ensures SomeSame(fv, TermTree(lit), env, d, dom)
  {
    var e: Env :| Differ(env, e, W, dom) && Eval(inner, e, db, dom);
    var e' := Mixed(env, e, W);
    MixedShape(env, e, W, fv, dom);
    EvalSame(inner, e, e', db, dom);
    SignMeans(lit, e', d, dom);
    assert EnvBelow(e', dom) && SameOn(fv, e', env) && Eval(TermTree(lit), e', d, dom);
  }

  lemma NotConverts(f: Form, lit: Signed, out: seq<Rule>, name: nat, name': nat, dom: nat)
    requires Converts(f, lit, out, name, name', dom)
    ensures Converts(Not(f), Signed(!lit.neg, lit.term), out, name, name', dom)
  {
    var t, l := Not(f), Signed(!lit.neg, lit.term);
    forall db | NoneFrom(db, name) ensures ConvertsAt(t, l, out, name, name', dom, db) {
      assert ConvertsAt(f, lit, out, name, name', dom, db);
    }
  }

  /** Two formulas with the same meaning convert alike. */
  lemma SameConverts(f: Form, t: Form, lit: Signed, out: seq<Rule>, name: nat, name': nat, dom: nat)
    requires Converts(f, lit, out, name, name', dom)
    requires forall env: Env, db :: Eval(f, env, db, dom) <==> Eval(t, env, db, dom)
    ensures Converts(t, lit, out, name, name', dom)
  {
    forall db | NoneFrom(db, name) ensures ConvertsAt(t, lit, out, name, name', dom, db) {
      assert ConvertsAt(f, lit, out, name, name', dom, db);
    }
  }

  // ----- the compilation

  /** The variables a conjunct shares with the head and the other conjuncts, counted with multiplicity. */
  function Exported(fvs: set<nat>, all: multiset<nat>): set<nat> {
    fvs * (set v | v in all - multiset(fvs))
  }

  /** The variables of the head and of every conjunct, with multiplicity. */
  function AllVars(fv: set<nat>, ts: seq<Form>): multiset<nat> {
    if ts == [] then multiset(fv) else AllVars(fv, ts[..|ts| - 1]) + multiset(FreeVars(ts[|ts| - 1]))
  }

  lemma {:induction false} AllVarsCount(fv: set<nat>, ts: seq<Form>, i: nat, v: nat)
    requires i < |ts| && v in fv && v in FreeVars(ts[i])
    ensures AllVars(fv, ts)[v] >= 2
  {
    var n := |ts| - 1;
    if i < n {
      AllVarsCount(fv, ts[..n], i, v);
    } else {
      AllVarsHead(fv, ts[..n], v);
    }
  }

  lemma {:induction false} AllVarsHead(fv: set<nat>, ts: seq<Form>, v: nat)
    requires v in fv
    ensures AllVars(fv, ts)[v] >= 1
  {
    if ts != [] { AllVarsHead(fv, ts[..|ts| - 1], v); }
  }

  /** Where all free variables are in the head, all of a conjunct's variables are exported. */
  lemma ExportedAll(fv: set<nat>, ts: seq<Form>, i: nat)
    requires i < |ts| && FreeVars(ts[i]) <= fv
    ensures Exported(FreeVars(ts[i]), AllVars(fv, ts)) == FreeVars(ts[i])
  {
    forall v | v in FreeVars(ts[i]) ensures v in AllVars(fv, ts) - multiset(FreeVars(ts[i])) {
      AllVarsCount(fv, ts, i, v);
    }
  }

  // ----- compiled rules are well formed

  lemma HeadOk(part: nat, fv: set<nat>, dom: nat)
    ensures AtomOk(Head(part, fv), dom)
  {
    forall x | x in Listing(fv) ensures x.Var? { ListingIn(fv, x); }
  }

  lemma ArgsCopyOk(args: seq<Arg>, ren: Renaming, next: nat, v: nat, e: nat, dom: nat)
    requires SymsBelow(args, dom) && IdBut(ren, v, e)
    ensures var x := RenameArgs(args, ren, next, false); SymsBelow(x.t, dom) && |x.t| == |args|
  {
    ArgsId(args, ren, next, v, e);
    var x := RenameArgs(args, ren, next, false);
    forall y | y in x.t && y.Sym? ensures y.c < dom {
      var i :| 0 <= i < |args| && x.t[i] == y;
      assert NameOf(args[i], x.t[i], x.ren) && args[i] in args;
    }
  }

  lemma {:induction false} CopyOk(f: Form, ren: Renaming, next: nat, v: nat, e: nat, dom: nat)
    requires FormOk(f, dom) && IdBut(ren, v, e)
    ensures FormOk(Rename(f, ren, next, false).t, dom)
    decreases f
  {
    match f
    case Lit(a) => ArgsCopyOk(a.args, ren, next, v, e, dom);
    case Equal(x, y) =>
      assert x in [x, y] && y in [x, y];
    case Not(g) => CopyOk(g, ren, next, v, e, dom);
    case Bin(_, l, r) =>
      var a := Rename(l, ren, next, false);
      IdShape(l, ren, next, v, e);
      CopyOk(l, ren, next, v, e, dom);
      CopyOk(r, a.ren, a.next, v, e, dom);
    case Quant(_, u, g) => CopyOk(g, ren[u := Var(u)], next, v, e, dom);
  }

  lemma ExpandOk(t: Form, next: nat, dom: nat)
    requires FormOk(t, dom) && Derived(t)
    ensures FormOk(ExpandNode(t, next), dom)
  {
    if t.Quant? {
      CopyOk(t.f, map[t.v := Var(next)], next + 1, t.v, next, dom);
      var same, others := Equal(Var(next), Var(t.v)), Others(t.v, t.f, next);
      assert FormOk(same, dom) && FormOk(Bin(Implies, Copy(t.v, t.f, next), same), dom);
      assert FormOk(Bin(And, t.f, others), dom);
    }
  }

  lemma {:induction false} InnerOk(q: Quantifier, f: Form, low: nat, dom: nat)
    ensures FormOk(Inner(q, f), dom) <==> FormOk(f, dom)
    ensures NamesBelow(Inner(q, f), low) <==> NamesBelow(f, low)
  {
    if f.Quant? && f.q == q { InnerOk(q, f.f, low, dom); }
  }

  /** A formula to compile: well formed, over source relations. */
  ghost predicate Source(t: Form, fv: set<nat>, low: nat, name: nat, next: nat, dom: nat) {
    FreeVars(t) <= fv && FormOk(t, dom) && NamesBelow(t, low) && Below(t, next) && low <= name && dom > 0
  }

  /** The literal means the formula once the rules, which come in order, have been evaluated. */
  ghost predicate Compiled(t: Form, lit: Signed, out: seq<Rule>, low: nat, name: nat, name': nat, dom: nat) {
    && name < name' && SignedOk(lit) && NamesBelow(lit.term, name') && Converts(t, lit, out, name, name', dom)
    && Shape(out, low, name, name', dom) && From(lit.term, out, low, name, dom) && AllShaped(out, false)
  }

  lemma CompiledDown(t: Form, lit: Signed, out: seq<Rule>, low: nat, name: nat, m: nat, name': nat, dom: nat)
    requires Compiled(t, lit, out, low, m, name', dom) && low <= name <= m
    ensures Compiled(t, lit, out, low, name, name', dom)
  {
    hide Converts;
    ConvertsDown(t, lit, out, name, m, name', dom);
    ShapeDown(out, low, name, m, name', dom);
  }

  /** Compiles a formula whose free variables are in fv to a literal and rules for new relations. */
  method Compile(t: Form, fv: set<nat>, name: nat, next: nat, ghost low: nat, ghost dom: nat)
    returns (lit: Signed, out: seq<Rule>, name': nat, next': nat)
    requires Source(t, fv, low, name, next, dom)
    ensures Compiled(t, lit, out, low, name, name', dom) && next <= next'
    decreases Weight(t), 1
  {
    hide Shape, From, Converts;
    var part := name;
    if Derived(t) {
      ExpandShape(t, next, low);
      ExpandOk(t, next, dom);
      var e := ExpandNode(t, next);
      lit, out, name', next' := Compile(e, fv, part + 1, next + 1, low, dom);
      forall env: Env, db
        ensures Eval(e, env, db, dom) <==> Eval(t, env, db, dom)
      {
        ExpandMeans(t, next, env, db, dom);
      }
      SameConverts(e, t, lit, out, part + 1, name', dom);
      CompiledDown(t, lit, out, low, name, part + 1, name', dom);
    } else {
      match t {
        case Bin(op, _, _) =>
          if op == And { lit, out, name', next' := CompileAnd(t, fv, name, next, low, dom); }
          else { lit, out, name', next' := CompileOr(t, fv, name, next, low, dom); }
        case Not(g) =>
          lit, out, name', next' := Compile(g, fv, part + 1, next, low, dom);
          CompiledDown(g, lit, out, low, name, part + 1, name', dom);
          NotConverts(g, lit, out, name, name', dom);
          lit := Signed(!lit.neg, lit.term);
        case Quant(q, _, _) =>
          if q == Exists { lit, out, name', next' := CompileExists(t, fv, name, next, low, dom); }
          else { lit, out, name', next' := CompileForall(t, fv, name, next, low, dom); }
        case Lit(_) => lit, out, name', next' := CompileLeaf(t, name, next, low, dom);
        case Equal(_, _) => lit, out, name', next' := CompileLeaf(t, name, next, low, dom);
      }
    }
  }

  lemma {:induction false} TreeNames(f: Form, n: nat, m: nat)
    requires NamesBelow(f, n) && n <= m
    ensures NamesBelow(f, m)
  {
    match f
    case Lit(_) =>
    case Equal(_, _) =>
    case Not(g) => TreeNames(g, n, m);
    case Bin(_, l, r) => TreeNames(l, n, m); TreeNames(r, n, m);
    case Quant(_, _, g) => TreeNames(g, n, m);
  }

  method CompileLeaf(t: Form, name: nat, next: nat, ghost low: nat, ghost dom: nat)
    returns (lit: Signed, out: seq<Rule>, name': nat, next': nat)
    requires (t.Lit? || t.Equal?) && FormOk(t, dom) && NamesBelow(t, low) && low <= name
    ensures Compiled(t, lit, out, low, name, name', dom) && next <= next'
  {
    lit, out, name', next' := Signed(false, t), [], name + 1, next;
    RelsBelow(t, low);
    forall db | NoneFrom(db, name) ensures ConvertsAt(t, lit, out, name, name', dom, db) {
      PartAll(db, name);
    }
  }

  /** The conjuncts compiled so far, with their rules in order. */
  ghost predicate Conjuncts(ts: seq<Form>, c: seq<Signed>, out: seq<Rule>, low: nat, name: nat, name': nat, dom: nat) {
    && name <= name' && ConvertsAll(ts, c, out, name, name', dom) && Shape(out, low, name, name', dom)
    && AllShaped(out, false)
    && forall j :: 0 <= j < |c| ==> From(c[j].term, out, low, name, dom)
  }

  lemma ConjunctsMore(ts: seq<Form>, c: seq<Signed>, out: seq<Rule>, lit: Signed, more: seq<Rule>, low: nat,
        name: nat, m: nat, name': nat, dom: nat)
    requires Conjuncts(ts, c, out, low, name, m, dom) && |c| < |ts| && NamesBelow(ts[|c|], name)
    requires Compiled(ts[|c|], lit, more, low, m, name', dom)
    ensures Conjuncts(ts, c + [lit], out + more, low, name, name', dom)
  {
    hide Converts, ConvertsAll, Shape, From;
    ConvertsMore(ts, c, out, lit, more, name, m, name', dom);
    ShapeJoined(out, more, low, name, m, name', dom);
    var c' := c + [lit];
    forall j | 0 <= j < |c'| ensures From(c'[j].term, out + more, low, name, dom) {
      if j < |c| {
        FromMore(c[j].term, out, more, low, name, dom);
      } else {
        FromLater(lit.term, out, more, low, name, m, dom);
      }
    }
  }

  method CompileAnd(t: Form, fv: set<nat>, name: nat, next: nat, ghost low: nat, ghost dom: nat)
    returns (lit: Signed, out: seq<Rule>, name': nat, next': nat)
    requires t.Bin? && t.op == And && Source(t, fv, low, name, next, dom)
    ensures Compiled(t, lit, out, low, name, name', dom) && next <= next'
    decreases Weight(t), 0
  {
    var ands := Flatten(And, t);
    FlattenShape(And, t, next, low);
    FlattenOk(And, t, low, dom);
    var all := AllVars(fv, ands);
    var c: seq<Signed> := [];
    out, name', next' := [], name + 1, next;
    NothingYet(ands, name + 1, dom);
    assert Conjuncts(ands, c, out, low, name + 1, name', dom);
    hide Conjuncts, Flatten;
    for i := 0 to |ands|
      invariant name < name' && next <= next' && |c| == i && Conjuncts(ands, c, out, low, name + 1, name', dom)
    {
      var g := ands[i];
      assert g in ands;
      ExportedAll(fv, ands, i);
      TreeNames(g, low, name + 1); BelowMore(g, next, next');
      var l, more, n, m := Compile(g, Exported(FreeVars(g), all), name', next', low, dom);
      ConjunctsMore(ands, c, out, l, more, low, name + 1, name', n, dom);
      c, out, name', next' := c + [l], out + more, n, m;
    }
    AndCompiled(t, fv, ands, c, out, low, name, name', dom);
    lit := Part0(name, fv);
    out := out + [Rule(false, Head(name, fv), ConjTree(c))];
  }

  lemma AndCompiled(t: Form, fv: set<nat>, ts: seq<Form>, c: seq<Signed>, out: seq<Rule>, low: nat, name: nat,
        name': nat, dom: nat)
    requires ts == Flatten(And, t) && |c| == |ts| && c != [] && name < name' && low <= name && FreeVars(t) <= fv
    requires Conjuncts(ts, c, out, low, name + 1, name', dom)
    ensures Compiled(t, Part0(name, fv), out + [Rule(false, Head(name, fv), ConjTree(c))], low, name, name', dom)
  {
    hide Converts, ConvertsAll, Shape, From;
    var r, m := Rule(false, Head(name, fv), ConjTree(c)), name + 1;
    AndConverts(t, fv, ts, c, out, name, name', dom);
    HeadOk(name, fv, dom);
    FromConj(c, out, low, m, dom);
    ShapeDown(out, low, name, m, name', dom);
    ShapeMore(out, r, low, name, m, name', dom);
    SignsOk(ts, c, out, m, name', dom);
    ConjShaped(c);
    FromHead(out + [r], r.head, low, name, dom);
  }

  lemma SignsOk(ts: seq<Form>, c: seq<Signed>, out: seq<Rule>, name: nat, name': nat, dom: nat)
    requires ConvertsAll(ts, c, out, name, name', dom) && c != []
    ensures ConjOk(c)
  {
  }

  lemma NothingYet(ts: seq<Form>, name: nat, dom: nat)
    ensures ConvertsAll(ts, [], [], name, name, dom)
  {
    forall db | NoneFrom(db, name) ensures ConvertsAllAt(ts, [], [], name, name, dom, db) { PartAll(db, name); }
  }

  method CompileOr(t: Form, fv: set<nat>, name: nat, next: nat, ghost low: nat, ghost dom: nat)
    returns (lit: Signed, out: seq<Rule>, name': nat, next': nat)
    requires t.Bin? && t.op == Or && Source(t, fv, low, name, next, dom)
    ensures Compiled(t, lit, out, low, name, name', dom) && next <= next'
    decreases Weight(t), 0
  {
    var alts := Flatten(Or, t);
    FlattenShape(Or, t, next, low);
    FlattenOk(Or, t, low, dom);
    lit, out, name', next' := Part0(name, fv), [], name + 1, next;
    NoneSome(fv, name, dom);
    assert Shape(out, low, name, name', dom);
    hide ConvertsSome, Shape, From, Flatten, Converts;
    for i := 0 to |alts|
      invariant name < name' && next <= next' && ConvertsSome(alts[..i], fv, out, name, name', dom)
      invariant Shape(out, low, name, name', dom) && (i > 0 ==> HasRules(out, Head(name, fv).rel))
      invariant AllShaped(out, false)
    {
      var g := alts[i];
      assert g in alts && alts[..i + 1] == alts[..i] + [g];
      TreeNames(g, low, name); BelowMore(g, next, next');
      var l, more, n, m := Compile(g, fv, name', next', low, dom);
      SomeMore(alts[..i], g, fv, out, l, more, name, name', n, dom);
      OneMore(fv, out, l, more, low, name, name', n, dom);
      ShapedMore(out, more, l, Head(name, fv));
      out, name', next' := out + more + [Rule(false, Head(name, fv), TermTree(l))], n, m;
    }
    assert alts[..|alts|] == alts;
    HeadOk(name, fv, dom);
    FromHead(out, Head(name, fv), low, name, dom);
    OrConverts(t, fv, out, name, name', dom);
  }

  lemma OrConverts(t: Form, fv: set<nat>, out: seq<Rule>, name: nat, name': nat, dom: nat)
    requires ConvertsSome(Flatten(Or, t), fv, out, name, name', dom)
    ensures Converts(t, Part0(name, fv), out, name, name', dom)
  {
    var alts, lit := Flatten(Or, t), Part0(name, fv);
    forall db | NoneFrom(db, name) ensures ConvertsAt(t, lit, out, name, name', dom, db) {
      assert ConvertsSomeAt(alts, fv, out, name, name', dom, db);
      forall env: Env
        ensures Eval(t, env, db, dom) <==> OneHolds(alts, env, db, dom)
      {
        FlattenMeans(Or, t, env, db, dom);
      }
    }
  }

  /** The rules of one more disjunct, and its rule. */
  lemma OneMore(fv: set<nat>, out: seq<Rule>, lit: Signed, more: seq<Rule>, low: nat, name: nat, m: nat, name': nat,
        dom: nat)
    requires Shape(out, low, name, m, dom) && Shape(more, low, m, name', dom) && name < m < name'
    requires From(lit.term, more, low, m, dom)
    ensures var r := Rule(false, Head(name, fv), TermTree(lit));
      Shape(out + more + [r], low, name, name', dom) && HasRules(out + more + [r], Head(name, fv).rel)
  {
    hide Shape, From;
    var r := Rule(false, Head(name, fv), TermTree(lit));
    HeadOk(name, fv, dom);
    ShapeJoined(out, more, low, name, m, name', dom);
    FromLater(lit.term, out, more, low, m, m, dom);
    FromSigned(lit, out + more, low, m, dom);
    ShapeMore(out + more, r, low, name, m, name', dom);
  }

  lemma NoneSome(fv: set<nat>, name: nat, dom: nat)
    ensures ConvertsSome([], fv, [], name, name + 1, dom)
  {
    var m := name + 1;
    forall db | NoneFrom(db, name) ensures ConvertsSomeAt([], fv, [], name, m, dom, db) {
      PartAll(db, name);
      forall env: Env ensures !LitHolds(Part0(name, fv), env, db, dom) { PartHolds(name, fv, env, db, dom); }
    }
  }

  method CompileExists(t: Form, fv: set<nat>, name: nat, next: nat, ghost low: nat, ghost dom: nat)
    returns (lit: Signed, out: seq<Rule>, name': nat, next': nat)
    requires t.Quant? && t.q == Exists && Source(t, fv, low, name, next, dom)
    ensures Compiled(t, lit, out, low, name, name', dom) && next <= next'
    decreases Weight(t), 0
  {
    hide Converts, Shape, From;
    InnerShape(Exists, t, next, low);
    InnerOk(Exists, t, low, dom);
    var g, qvars := Inner(Exists, t), Chain(Exists, t);
    TreeNames(t, low, name);
    var l;
    l, out, name', next' := Compile(g, fv + qvars, name + 1, next, low, dom);
    ExistsConverts(t, fv, l, out, name, name', dom, next);
    ghost var m := name + 1;
    assert [] + out == out;
    NoShape(low, name, m, dom);
    OneMore(fv - qvars, [], l, out, low, name, m, name', dom);
    ShapedMore([], out, l, Head(name, fv - qvars));
    lit := Part0(name, fv - qvars);
    out := out + [Rule(false, Head(name, fv - qvars), TermTree(l))];
    HeadOk(name, fv - qvars, dom);
    FromHead(out, Head(name, fv - qvars), low, name, dom);
  }

  lemma NoShape(low: nat, lo: nat, hi: nat, dom: nat)
    requires low <= lo <= hi
    ensures Shape([], low, lo, hi, dom)
  {
  }

  method CompileForall(t: Form, fv: set<nat>, name: nat, next: nat, ghost low: nat, ghost dom: nat)
    returns (lit: Signed, out: seq<Rule>, name': nat, next': nat)
    requires t.Quant? && t.q == Forall && Source(t, fv, low, name, next, dom)
    ensures Compiled(t, lit, out, low, name, name', dom) && next <= next'
    decreases Weight(t), 0
  {
    InnerShape(Forall, t, next, low);
    InnerOk(Forall, t, low, dom);
    var qvars := Chain(Forall, t);
    var n := Not(Inner(Forall, t));
    var e := ExistsOver(qvars, n, next, low);
    InnerOk(Exists, e, low, dom);
    var g := Not(e);
    assert Weight(g) < Weight(t);
    lit, out, name', next' := Compile(g, fv, name + 1, next, low, dom);
    hide Converts, Shape, From;
    forall env: Env, db ensures Eval(g, env, db, dom) <==> Eval(t, env, db, dom) {
      ForallChain(t, env, db, dom);
      ExistsChain(e, env, db, dom);
    }
    SameConverts(g, t, lit, out, name + 1, name', dom);
    CompiledDown(t, lit, out, low, name, name + 1, name', dom);
  }
}
