/** Disjunctive normal form as lists of signed terms, as a tree, and back. */
module Dnf {
  import opened Formula

  /** A term with its sign: an atom or an equation, possibly negated. */
  datatype Signed = Signed(neg: bool, term: Form)

  type Body = seq<seq<Signed>>

  predicate SignedOk(s: Signed) {
    s.term.Lit? || s.term.Equal?
  }

  /** A proper body: no empty conjunction, and terms only. */
  predicate BodyOk(b: Body) {
    b != [] && forall i :: 0 <= i < |b| ==> ConjOk(b[i])
  }

  predicate ConjOk(c: seq<Signed>) {
    c != [] && forall i :: 0 <= i < |c| ==> SignedOk(c[i])
  }

  ghost predicate ConjHolds(c: seq<Signed>, env: Env, db: Db, dom: nat) {
    forall i :: 0 <= i < |c| ==> Eval(c[i].term, env, db, dom) != c[i].neg
  }

  ghost predicate BodyHolds(b: Body, env: Env, db: Db, dom: nat) {
    exists i :: 0 <= i < |b| && ConjHolds(b[i], env, db, dom)
  }

  function TermTree(s: Signed): Form {
    if s.neg then Not(s.term) else s.term
  }

  /** The conjunction as a tree leaning to the left. */
  function ConjTree(c: seq<Signed>): Form
    requires c != []
  {
    if |c| == 1 then TermTree(c[0]) else Bin(And, ConjTree(c[..|c| - 1]), TermTree(c[|c| - 1]))
  }

  function GetTree(b: Body): Form
    requires BodyOk(b)
  {
    if |b| == 1 then ConjTree(b[0])
    else
      assert BodyOk(b[..|b| - 1]);
      Bin(Or, GetTree(b[..|b| - 1]), ConjTree(b[|b| - 1]))
  }

  /** The operands of a tree of one associative operator. */
  function Flatten(op: Op, f: Form): seq<Form> {
    if f.Bin? && f.op == op then Flatten(op, f.l) + Flatten(op, f.r) else [f]
  }

  datatype Option<T> = None | Some(value: T)

  /** Strips negations, keeping their parity. */
  function Strip(f: Form, neg: bool): Signed {
    if f.Not? then Strip(f.f, !neg) else Signed(neg, f)
  }

  function Terms(fs: seq<Form>): Option<seq<Signed>> {
    if fs == [] then Some([])
    else
      var rest, s := Terms(fs[..|fs| - 1]), Strip(fs[|fs| - 1], false);
      if rest.Some? && SignedOk(s) then Some(rest.value + [s]) else None
  }

  function Conjs(fs: seq<Form>): Option<Body> {
    if fs == [] then Some([])
    else
      var rest, c := Conjs(fs[..|fs| - 1]), Terms(Flatten(And, fs[|fs| - 1]));
      if rest.Some? && c.Some? then Some(rest.value + [c.value]) else None
  }

  /** The lists a tree stands for, if it is in disjunctive normal form. */
  function GetBody(f: Form): Option<Body> {
    Conjs(Flatten(Or, f))
  }

  // ----- which trees can be read

  /** A term, possibly negated any number of times. */
  predicate Literal(f: Form) {
    f.Lit? || f.Equal? || (f.Not? && Literal(f.f))
  }

  /** Literals joined by conjunctions, and by disjunctions where these are allowed. */
  predicate Shaped(f: Form, ors: bool) {
    Literal(f) || (f.Bin? && (f.op == And || (ors && f.op == Or)) && Shaped(f.l, ors) && Shaped(f.r, ors))
  }

  /** Disjunctions, nested either way, of conjunctions of literals. */
  predicate Normal(f: Form) {
    Shaped(f, false) || (f.Bin? && f.op == Or && Normal(f.l) && Normal(f.r))
  }

  lemma {:induction false} StripLiteral(f: Form, neg: bool)
    ensures SignedOk(Strip(f, neg)) <==> Literal(f)
  {
    if f.Not? { StripLiteral(f.f, !neg); }
  }

  predicate Literals(fs: seq<Form>) {
    forall g :: g in fs ==> Literal(g)
  }

  predicate Conjunctions(fs: seq<Form>) {
    forall g :: g in fs ==> Shaped(g, false)
  }

  lemma {:induction false} TermsSome(fs: seq<Form>)
    ensures Terms(fs).Some? <==> Literals(fs)
  {
    if fs != [] {
      var n := |fs| - 1;
      TermsSome(fs[..n]);
      StripLiteral(fs[n], false);
      assert fs == fs[..n] + [fs[n]];
    }
  }

  lemma {:induction false} FlattenLiterals(f: Form)
    ensures Literals(Flatten(And, f)) <==> Shaped(f, false)
  {
    if f.Bin? && f.op == And {
      FlattenLiterals(f.l);
      FlattenLiterals(f.r);
    } else {
      OneOnly(f);
    }
  }

  lemma {:induction false} ConjsSome(fs: seq<Form>)
    ensures Conjs(fs).Some? <==> Conjunctions(fs)
  {
    if fs != [] {
      var n := |fs| - 1;
      ConjsSome(fs[..n]);
      TermsSome(Flatten(And, fs[n]));
      FlattenLiterals(fs[n]);
      assert fs == fs[..n] + [fs[n]];
    }
  }

  lemma {:induction false} FlattenNormal(f: Form)
    ensures Conjunctions(Flatten(Or, f)) <==> Normal(f)
  {
    if f.Bin? && f.op == Or {
      FlattenNormal(f.l);
      FlattenNormal(f.r);
    } else {
      OneOnly(f);
    }
  }

  lemma OneOnly(f: Form)
    ensures Literals([f]) <==> Literal(f)
    ensures Conjunctions([f]) <==> Shaped(f, false)
  {
    assert f in [f];
  }

  /** Exactly the trees in disjunctive normal form can be read as lists. */
  lemma GetBodyIff(f: Form)
    ensures GetBody(f).Some? <==> Normal(f)
  {
    ConjsSome(Flatten(Or, f));
    FlattenNormal(f);
  }

  // ----- round trip

  lemma {:induction false} FlattenConj(c: seq<Signed>)
    requires ConjOk(c)
    ensures Flatten(And, ConjTree(c)) == seq(|c|, i requires 0 <= i < |c| => TermTree(c[i]))
    ensures !(ConjTree(c).Bin? && ConjTree(c).op == Or)
  {
    if |c| == 1 {
      assert SignedOk(c[0]);
    } else {
      var n := |c| - 1;
      FlattenConj(c[..n]);
      assert SignedOk(c[n]);
      assert Flatten(And, TermTree(c[n])) == [TermTree(c[n])];
    }
  }

  lemma {:induction false} TermsBack(c: seq<Signed>, fs: seq<Form>)
    requires |fs| == |c| && forall i :: 0 <= i < |c| ==> SignedOk(c[i]) && fs[i] == TermTree(c[i])
    ensures Terms(fs) == Some(c)
  {
    if c != [] {
      var n := |c| - 1;
      TermsBack(c[..n], fs[..n]);
      assert Strip(fs[n], false) == c[n];
      assert c == c[..n] + [c[n]];
    }
  }

  lemma {:induction false} FlattenTree(b: Body)
    requires BodyOk(b)
    ensures Flatten(Or, GetTree(b)) == seq(|b|, i requires 0 <= i < |b| => ConjTree(b[i]))
  {
    var n := |b| - 1;
    assert ConjOk(b[n]);
    FlattenConj(b[n]);
    if n > 0 {
      assert BodyOk(b[..n]);
      FlattenTree(b[..n]);
    }
  }

  lemma {:induction false} ConjsBack(b: Body, fs: seq<Form>)
    requires |fs| == |b| && forall i :: 0 <= i < |b| ==> ConjOk(b[i]) && fs[i] == ConjTree(b[i])
    ensures Conjs(fs) == Some(b)
  {
    if b != [] {
      var n := |b| - 1;
      ConjsBack(b[..n], fs[..n]);
      FlattenConj(b[n]);
      TermsBack(b[n], Flatten(And, fs[n]));
      assert b == b[..n] + [b[n]];
    }
  }

  /** Lists to tree to lists is the identity. */
  lemma BodyRoundTrip(b: Body)
    requires BodyOk(b)
    ensures GetBody(GetTree(b)) == Some(b)
  {
    FlattenTree(b);
    ConjsBack(b, Flatten(Or, GetTree(b)));
  }

  // ----- meaning

  ghost predicate AllHold(fs: seq<Form>, env: Env, db: Db, dom: nat) {
    forall i :: 0 <= i < |fs| ==> Eval(fs[i], env, db, dom)
  }

  ghost predicate OneHolds(fs: seq<Form>, env: Env, db: Db, dom: nat) {
    exists i :: 0 <= i < |fs| && Eval(fs[i], env, db, dom)
  }

  lemma {:induction false} FlattenMeans(op: Op, f: Form, env: Env, db: Db, dom: nat)
    requires op == And || op == Or
    ensures Eval(f, env, db, dom) <==>
      if op == And then AllHold(Flatten(op, f), env, db, dom) else OneHolds(Flatten(op, f), env, db, dom)
  {
    if f.Bin? && f.op == op {
      FlattenMeans(op, f.l, env, db, dom);
      FlattenMeans(op, f.r, env, db, dom);
      Joined(Flatten(op, f.l), Flatten(op, f.r), env, db, dom);
    } else {
      assert Flatten(op, f)[0] == f;
    }
  }

  lemma Joined(a: seq<Form>, b: seq<Form>, env: Env, db: Db, dom: nat)
    ensures AllHold(a + b, env, db, dom) <==> AllHold(a, env, db, dom) && AllHold(b, env, db, dom)
    ensures OneHolds(a + b, env, db, dom) <==> OneHolds(a, env, db, dom) || OneHolds(b, env, db, dom)
  {
    forall i | 0 <= i < |a| ensures (a + b)[i] == a[i] { }
    forall i | 0 <= i < |b| ensures (a + b)[|a| + i] == b[i] { }
    if OneHolds(a, env, db, dom) {
      var i :| 0 <= i < |a| && Eval(a[i], env, db, dom);
      assert (a + b)[i] == a[i];
    }
    if OneHolds(b, env, db, dom) {
      var i :| 0 <= i < |b| && Eval(b[i], env, db, dom);
      assert (a + b)[|a| + i] == b[i];
    }
    if AllHold(a + b, env, db, dom) {
      forall i | 0 <= i < |b| ensures Eval(b[i], env, db, dom) { assert (a + b)[|a| + i] == b[i]; }
      forall i | 0 <= i < |a| ensures Eval(a[i], env, db, dom) { assert (a + b)[i] == a[i]; }
    }
  }

  lemma {:induction false} StripMeans(f: Form, neg: bool, env: Env, db: Db, dom: nat)
    ensures var s := Strip(f, neg); (Eval(s.term, env, db, dom) != s.neg) == (Eval(f, env, db, dom) != neg)
  {
    if f.Not? { StripMeans(f.f, !neg, env, db, dom); }
  }

  lemma {:induction false} TermsMean(fs: seq<Form>, env: Env, db: Db, dom: nat)
    requires Terms(fs).Some?
    ensures |Terms(fs).value| == |fs| && (ConjHolds(Terms(fs).value, env, db, dom) <==> AllHold(fs, env, db, dom))
  {
    if fs != [] {
      var n := |fs| - 1;
      TermsMean(fs[..n], env, db, dom);
      StripMeans(fs[n], false, env, db, dom);
      Joined(fs[..n], [fs[n]], env, db, dom);
      assert fs == fs[..n] + [fs[n]];
      ConjJoined(Terms(fs[..n]).value, Strip(fs[n], false), env, db, dom);
      assert AllHold([fs[n]], env, db, dom) <==> Eval([fs[n]][0], env, db, dom);
    }
  }

  lemma ConjJoined(c: seq<Signed>, s: Signed, env: Env, db: Db, dom: nat)
    ensures ConjHolds(c + [s], env, db, dom) <==> ConjHolds(c, env, db, dom) && Eval(s.term, env, db, dom) != s.neg
  {
    var d := c + [s];
    assert d[|c|] == s;
    if ConjHolds(d, env, db, dom) {
      forall i | 0 <= i < |c| ensures Eval(c[i].term, env, db, dom) != c[i].neg { assert d[i] == c[i]; }
    }
  }

  lemma {:induction false} ConjsMean(fs: seq<Form>, env: Env, db: Db, dom: nat)
    requires Conjs(fs).Some?
    ensures |Conjs(fs).value| == |fs| && (BodyHolds(Conjs(fs).value, env, db, dom) <==> OneHolds(fs, env, db, dom))
  {
    if fs != [] {
      var n := |fs| - 1;
      var t := Flatten(And, fs[n]);
      ConjsMean(fs[..n], env, db, dom);
      FlattenMeans(And, fs[n], env, db, dom);
      TermsMean(t, env, db, dom);
      Joined(fs[..n], [fs[n]], env, db, dom);
      assert fs == fs[..n] + [fs[n]];
      BodyJoined(Conjs(fs[..n]).value, Terms(t).value, env, db, dom);
      assert OneHolds([fs[n]], env, db, dom) <==> Eval([fs[n]][0], env, db, dom);
    }
  }

  lemma BodyJoined(b: Body, c: seq<Signed>, env: Env, db: Db, dom: nat)
    ensures BodyHolds(b + [c], env, db, dom) <==> BodyHolds(b, env, db, dom) || ConjHolds(c, env, db, dom)
  {
    if BodyHolds(b, env, db, dom) {
      var i :| 0 <= i < |b| && ConjHolds(b[i], env, db, dom);
      assert (b + [c])[i] == b[i];
    }
    if ConjHolds(c, env, db, dom) { assert (b + [c])[|b|] == c; }
  }

  /** The lists read off a tree mean what the tree means. */
  lemma BodyMeans(f: Form, env: Env, db: Db, dom: nat)
    requires GetBody(f).Some?
    ensures BodyHolds(GetBody(f).value, env, db, dom) <==> Eval(f, env, db, dom)
  {
    FlattenMeans(Or, f, env, db, dom);
    ConjsMean(Flatten(Or, f), env, db, dom);
  }

  /** The tree of a body means what the body means. */
  lemma TreeMeans(b: Body, env: Env, db: Db, dom: nat)
    requires BodyOk(b)
    ensures Eval(GetTree(b), env, db, dom) <==> BodyHolds(b, env, db, dom)
  {
    BodyRoundTrip(b);
    BodyMeans(GetTree(b), env, db, dom);
  }
}
