/** Minimisation of rules by removing subtrees, and removal of subsumed rules. */
module Minimize {
  import opened Formula
  import opened Dnf
  import opened Redundancy

  /** A containment test that errs only on the safe side. */
  ghost predicate Sound(f: (RawRule, RawRule) -> bool, dom: nat) {
    forall r, s :: f(r, s) ==> Contained(r, s, dom)
  }

  /** A containment test that never errs. */
  ghost predicate Decides(f: (RawRule, RawRule) -> bool, dom: nat) {
    forall r, s :: f(r, s) <==> Contained(r, s, dom)
  }

  // ----- minimisation

  /** Tests whether an operand may take the place of a binary formula at a position. An operand of a conjunction is
      weaker than the whole, one of a disjunction or implication stronger. One direction of the equivalence follows from
      the parity, the other is tested. */
  method TryPart(h: Atom, c: Context, op: Op, whole: Form, part: Form, sign: bool, f: (RawRule, RawRule) -> bool,
        ghost dom: nat)
    returns (ok: bool)
    requires Parity(c, sign) && Sound(f, dom)
    requires if op != And then Entails(part, whole, dom) else Entails(whole, part, dom)
    ensures ok ==> Replaceable(h, c, whole, part, dom)
    ensures Decides(f, dom) ==> (ok <==> Replaceable(h, c, whole, part, dom))
  {
    var ref, variant := At(h, c, whole), At(h, c, part);
    var less := op != And;
    AsListsSame(ref, dom);
    AsListsSame(variant, dom);
    if sign == less {
      ok := f(AsLists(ref), AsLists(variant));
    } else {
      ok := f(AsLists(variant), if op == Implies then ref else AsLists(ref));
    }
    Moves(h, c, whole, part, sign, sign != less, dom);
    hide Contained, AsLists;
    if sign == less {
      TestMeans(ref, variant, AsLists(ref), AsLists(variant), dom);
    } else {
      TestMeans(variant, ref, AsLists(variant), if op == Implies then ref else AsLists(ref), dom);
    }
  }

  /** Containment does not depend on the form of the rules. */
  lemma TestMeans(r: RawRule, s: RawRule, r': RawRule, s': RawRule, dom: nat)
    requires Same(r', r, dom) && (Same(s', s, dom) || s' == s)
    ensures Contained(r', s', dom) <==> Contained(r, s, dom)
  {
  }

  /** Removes redundant operands below a position, innermost first. */
  method MinimizeAux(h: Atom, c: Context, t: Form, sign: bool, f: (RawRule, RawRule) -> bool, ghost dom: nat)
    returns (m: Form)
    requires Parity(c, sign) && Sound(f, dom)
    ensures Same(At(h, c, t), At(h, c, m), dom) && Pruned(t, m)
    ensures Decides(f, dom) ==> m == Greedy(h, c, t, dom)
    decreases t
  {
    m := t;
    match t {
      case Bin(op, l, r) =>
        if op != Coimplies {
          var l' := MinimizeAux(h, LeftOf(c, op, r), l, LeftSign(op, sign), f, dom);
          var r' := MinimizeAux(h, RightOf(c, op, l'), r, sign, f, dom);
          m := MinimizeBin(h, c, op, l', r', sign, f, dom);
          assert At(h, RightOf(c, op, l'), r) == At(h, LeftOf(c, op, r), l');
          ghost var t' := Bin(op, l', r');
          assert BothKept(t, t') && FirstKept(t, First(op, l'));
        }
      case Not(g) =>
        var g' := MinimizeAux(h, UnderNot(c), g, !sign, f, dom);
        m := Not(g');
      case Quant(q, v, g) =>
        if q != Unique {
          var g' := MinimizeAux(h, UnderQuant(c, q, v), g, sign, f, dom);
          m := Quant(q, v, g');
        }
      case Lit(_) =>
      case Equal(_, _) =>
    }
  }

  /** Tries each operand of a binary formula in turn. */
  method MinimizeBin(h: Atom, c: Context, op: Op, l: Form, r: Form, sign: bool, f: (RawRule, RawRule) -> bool,
        ghost dom: nat)
    returns (m: Form)
    requires Parity(c, sign) && Sound(f, dom) && op != Coimplies
    ensures Replaceable(h, c, Bin(op, l, r), m, dom) && m in {Bin(op, l, r), First(op, l), r}
    ensures Decides(f, dom) ==> m == Drop(h, c, op, l, r, dom)
  {
    m := Bin(op, l, r);
    PartsEntail(op, l, r, dom);
    hide Sound, Decides, Replaceable, Entails, Parity;
    var ok := TryPart(h, c, op, m, First(op, l), sign, f, dom);
    if ok { return First(op, l); }
    ok := TryPart(h, c, op, m, r, sign, f, dom);
    if ok { return r; }
    StaysSame(h, c, m, dom);
  }

  lemma StaysSame(h: Atom, c: Context, t: Form, dom: nat)
    ensures Replaceable(h, c, t, t, dom)
  {
  }

  /** s is r without some of its operands, in the same form. */
  predicate Trimmed(r: RawRule, s: RawRule) {
    RawOk(r) && RawOk(s) && s.head == r.head &&
    match r.body
    case NoBody => s.body.NoBody?
    case Lists(b) => s.body.Lists? && Pruned(GetTree(b), GetTree(s.body.b))
    case Tree(g) => s.body.Tree? && Pruned(g, s.body.f)
  }

  /** The rule's body as a tree is the tree of r after everything that could be dropped was. */
  ghost predicate Reduced(r: RawRule, m: RawRule, dom: nat)
    requires RawOk(r) && RawOk(m)
  {
    match AsTree(r).body
    case Tree(t) => AsTree(m).body == Tree(Greedy(r.head, Top, t, dom))
    case _ => m == r
  }

  /** Minimises a rule and gives it back in its original form where possible. */
  method MinimizeRule(r: RawRule, f: (RawRule, RawRule) -> bool, ghost dom: nat) returns (m: RawRule)
    requires RawOk(r) && Sound(f, dom)
    ensures Same(r, m, dom) && Trimmed(r, m)
    ensures Decides(f, dom) ==> Reduced(r, m, dom)
  {
    if r.body.NoBody? { return r; }
    var t := AsTree(r);
    AsTreeSame(r, dom);
    var g := MinimizeAux(r.head, Top, t.body.f, true, f, dom);
    m := RawRule(r.head, Tree(g));
    AsListsSame(m, dom);
    if r.body.Lists? {
      ListsBack(r.body.b, g);
      m := AsLists(m);
    }
  }

  /** A rule is never larger than before, and smaller unless it is the same. */
  lemma TrimmedSmaller(r: RawRule, m: RawRule)
    requires Trimmed(r, m)
    ensures RuleSize(m) <= RuleSize(r) && (RuleSize(m) == RuleSize(r) ==> m == r)
  {
    match r.body
    case NoBody =>
    case Lists(b) =>
      PrunedSmaller(GetTree(b), GetTree(m.body.b));
      BodyRoundTrip(b);
      BodyRoundTrip(m.body.b);
    case Tree(g) => PrunedSmaller(g, m.body.f);
  }

  function RuleSize(r: RawRule): nat
    requires RawOk(r)
  {
    match AsTree(r).body
    case Tree(t) => Size(t)
    case _ => 0
  }

  /** With an exact test a rule stays as it is exactly if nothing can be dropped. From a rule in disjunctive normal form
      no term of a conjunction can be dropped afterwards, and from one in which dropping always moves the rule the same
      way, as from a single conjunction, nothing at all. */
  lemma MinimizedIrreducible(r: RawRule, m: RawRule, dom: nat)
    requires RawOk(r) && RawOk(m) && !r.body.NoBody? && m.head == r.head && Reduced(r, m, dom)
    ensures !m.body.NoBody?
    ensures AsTree(m).body == AsTree(r).body <==> Irreducible(r.head, Top, AsTree(r).body.f, dom)
    ensures r.body.Lists? ==> Tidy(r.head, Top, AsTree(m).body.f, dom)
    ensures (exists up :: Uniform(AsTree(r).body.f, true, up)) ==> Irreducible(r.head, Top, AsTree(m).body.f, dom)
    ensures r.body.Lists? && |r.body.b| == 1 ==> Irreducible(r.head, Top, AsTree(m).body.f, dom)
  {
    var t := AsTree(r).body.f;
    GreedyFixed(r.head, Top, t, dom);
    forall up | Uniform(t, true, up) ensures Irreducible(r.head, Top, AsTree(m).body.f, dom) {
      GreedyIrreducible(r.head, Top, t, true, up, dom);
    }
    if r.body.Lists? {
      BodyDisjunctive(r.body.b);
      GreedyTidy(r.head, Top, t, dom);
    }
  }

  /** A rule in disjunctive normal form that is minimised twice has nothing left to drop. */
  lemma MinimizedTwice(r: RawRule, m: RawRule, n: RawRule, dom: nat)
    requires RawOk(r) && RawOk(m) && RawOk(n) && r.body.Lists? && m.head == r.head
    requires Reduced(r, m, dom) && Reduced(m, n, dom)
    ensures !n.body.NoBody? && Irreducible(r.head, Top, AsTree(n).body.f, dom)
  {
    BodyDisjunctive(r.body.b);
    TwoPasses(r.head, GetTree(r.body.b), dom);
  }

  // ----- lists of terms stay lists of terms

  lemma TermUniform(s: Signed, up: bool)
    requires SignedOk(s)
    ensures Uniform(TermTree(s), true, up)
  {
  }

  lemma {:induction false} ConjUniform(c: seq<Signed>)
    requires ConjOk(c)
    ensures Uniform(ConjTree(c), true, true)
    ensures !(ConjTree(c).Bin? && ConjTree(c).op == Or)
  {
    var n := |c| - 1;
    assert SignedOk(c[n]);
    TermUniform(c[n], true);
    if n > 0 { ConjUniform(c[..n]); }
  }

  lemma {:induction false} BodyDisjunctive(b: Body)
    requires BodyOk(b)
    ensures Disjunctive(GetTree(b)) && (|b| == 1 ==> Uniform(GetTree(b), true, true))
  {
    var n := |b| - 1;
    assert ConjOk(b[n]);
    ConjUniform(b[n]);
    if n > 0 {
      assert BodyOk(b[..n]);
      BodyDisjunctive(b[..n]);
    }
  }

  /** Nothing can be dropped from a term. */
  lemma TermBack(s: Signed, g: Form)
    requires SignedOk(s) && Pruned(TermTree(s), g)
    ensures g == TermTree(s)
  {
    if s.neg { assert Pruned(s.term, g.f); }
  }

  lemma {:induction false} ConjBack(c: seq<Signed>, g: Form) returns (c': seq<Signed>)
    requires ConjOk(c) && Pruned(ConjTree(c), g)
    ensures ConjOk(c') && ConjTree(c') == g
  {
    var n := |c| - 1;
    assert SignedOk(c[n]);
    var t := ConjTree(c);
    if n == 0 { TermBack(c[0], g); }
    if n == 0 || g == t { return c; }
    if BothKept(t, g) {
      TermBack(c[n], g.r);
      var d := ConjBack(c[..n], g.l);
      c' := d + [c[n]];
      assert c'[..|d|] == d;
    } else if FirstKept(t, g) {
      c' := ConjBack(c[..n], g);
    } else {
      TermBack(c[n], g);
      c' := [c[n]];
    }
  }

  lemma {:induction false} TreeBack(b: Body, g: Form) returns (b': Body)
    requires BodyOk(b) && Pruned(GetTree(b), g)
    ensures BodyOk(b') && GetTree(b') == g
  {
    var n := |b| - 1;
    assert ConjOk(b[n]);
    var t := GetTree(b);
    if n == 0 {
      var c := ConjBack(b[0], g);
      return [c];
    }
    assert BodyOk(b[..n]);
    if g == t {
      b' := b;
    } else if BothKept(t, g) {
      var d := TreeBack(b[..n], g.l);
      var c := ConjBack(b[n], g.r);
      b' := d + [c];
      assert b'[..|d|] == d;
    } else if FirstKept(t, g) {
      b' := TreeBack(b[..n], g);
    } else {
      var c := ConjBack(b[n], g);
      b' := [c];
    }
  }

  /** What is left of a rule in lists of terms can be read as lists again. */
  lemma ListsBack(b: Body, g: Form)
    requires BodyOk(b) && Pruned(GetTree(b), g)
    ensures GetBody(g).Some? && BodyOk(GetBody(g).value) && GetTree(GetBody(g).value) == g
  {
    var b' := TreeBack(b, g);
    BodyRoundTrip(b');
  }

  // ----- subsumption

  ghost predicate SomeAnswers(rs: seq<RawRule>, db: Db, dom: nat, u: Fact) {
    exists i :: 0 <= i < |rs| && Answers(rs[i], db, dom, u)
  }

  /** No rule of the list is contained in another one. */
  ghost predicate Antichain(ss: seq<RawRule>, dom: nat) {
    forall i, j :: 0 <= i < |ss| && 0 <= j < |ss| && i != j ==> !Contained(ss[i], ss[j], dom)
  }

  ghost predicate CoveredBy(r: RawRule, ss: seq<RawRule>, dom: nat) {
    exists s :: s in ss && Contained(r, s, dom)
  }

  ghost predicate AllCovered(rs: seq<RawRule>, ss: seq<RawRule>, dom: nat) {
    forall r :: r in rs ==> CoveredBy(r, ss, dom)
  }

  /** s is what minimisation makes of some rule of the list. */
  ghost predicate Minimized(s: RawRule, rs: seq<RawRule>, exact: bool, dom: nat) {
    exists r :: r in rs && MinimizedFrom(r, s, exact, dom)
  }

  ghost predicate MinimizedFrom(r: RawRule, s: RawRule, exact: bool, dom: nat) {
    Same(r, s, dom) && Trimmed(r, s) && (exact ==> Reduced(r, s, dom))
  }

  ghost predicate AllMinimized(ss: seq<RawRule>, rs: seq<RawRule>, exact: bool, dom: nat) {
    forall s :: s in ss ==> Minimized(s, rs, exact, dom)
  }

  /** The rule is not contained in any of the list, nor contains one. */
  ghost predicate Unrelated(r: RawRule, ss: seq<RawRule>, dom: nat) {
    forall s :: s in ss ==> !Contained(r, s, dom) && !Contained(s, r, dom)
  }

  /** Compares a rule with the kept ones: drops those it contains, stops at one that contains it. */
  method Compare(r: RawRule, ss0: seq<RawRule>, f: (RawRule, RawRule) -> bool, ghost dom: nat)
    returns (subsumed: bool, ss: seq<RawRule>)
    requires Sound(f, dom)
    ensures forall s :: s in ss ==> s in ss0
    ensures forall s :: s in ss0 ==> s in ss || Contained(s, r, dom)
    ensures Antichain(ss0, dom) ==> Antichain(ss, dom)
    ensures subsumed ==> CoveredBy(r, ss, dom)
    ensures !subsumed && Decides(f, dom) ==> Unrelated(r, ss, dom)
  {
    ss := ss0;
    var n := 0;
    while n < |ss|
      invariant 0 <= n <= |ss|
      invariant forall s :: s in ss ==> s in ss0
      invariant forall s :: s in ss0 ==> s in ss || Contained(s, r, dom)
      invariant Antichain(ss0, dom) ==> Antichain(ss, dom)
      invariant Decides(f, dom) ==> Unrelated(r, ss[..n], dom)
      decreases |ss| - n
    {
      if f(r, ss[n]) {
        return true, ss;
      } else if f(ss[n], r) {
        DropOne(ss, n, dom);
        ss := ss[..n] + ss[n + 1..];
      } else {
        assert ss[..n + 1] == ss[..n] + [ss[n]];
        n := n + 1;
      }
    }
    assert ss[..n] == ss;
    subsumed := false;
  }

  lemma DropOne(ss: seq<RawRule>, n: nat, dom: nat)
    requires n < |ss|
    ensures var ts := ss[..n] + ss[n + 1..]; ts[..n] == ss[..n] && (Antichain(ss, dom) ==> Antichain(ts, dom))
    ensures forall s :: s in ss ==> s == ss[n] || s in ss[..n] + ss[n + 1..]
  {
    hide Contained;
    var ts := ss[..n] + ss[n + 1..];
    forall s | s in ss && s != ss[n] ensures s in ts {
      var k :| 0 <= k < |ss| && ss[k] == s;
      assert ts[if k < n then k else k - 1] == s;
    }
    if Antichain(ss, dom) {
      forall i, j | 0 <= i < |ts| && 0 <= j < |ts| && i != j ensures !Contained(ts[i], ts[j], dom) {
        var i', j' := if i < n then i else i + 1, if j < n then j else j + 1;
        assert ts[i] == ss[i'] && ts[j] == ss[j'];
      }
    }
  }

  /** A rule that is unrelated to the kept ones may be added, minimised. */
  lemma PushOne(ss: seq<RawRule>, r: RawRule, m: RawRule, dom: nat)
    requires Antichain(ss, dom) && Unrelated(r, ss, dom) && Same(r, m, dom)
    ensures Antichain(ss + [m], dom)
  {
    var ts := ss + [m];
    forall i, j | 0 <= i < |ts| && 0 <= j < |ts| && i != j ensures !Contained(ts[i], ts[j], dom) {
      if i == |ss| {
        assert ts[j] in ss;
        if Contained(m, ts[j], dom) { ContainedTrans(r, m, ts[j], dom); }
      } else if j == |ss| {
        assert ts[i] in ss;
        if Contained(ts[i], m, dom) { ContainedTrans(ts[i], m, r, dom); }
      }
    }
  }

  /** What was covered stays covered when the dropped rules are contained in a covered one. */
  lemma StillCovered(rs: seq<RawRule>, ss: seq<RawRule>, ts: seq<RawRule>, r: RawRule, dom: nat)
    requires AllCovered(rs, ss, dom) && CoveredBy(r, ts, dom)
    requires forall s :: s in ss ==> s in ts || Contained(s, r, dom)
    ensures AllCovered(rs + [r], ts, dom)
  {
    var t :| t in ts && Contained(r, t, dom);
    forall q | q in rs + [r] ensures CoveredBy(q, ts, dom) {
      if q != r {
        assert q in rs;
        var s :| s in ss && Contained(q, s, dom);
        if s !in ts {
          ContainedTrans(q, s, r, dom);
          ContainedTrans(q, r, t, dom);
        }
      }
    }
  }

  /** Rules that cover the others and come from them have the same answers. */
  lemma CoveredAnswers(rs: seq<RawRule>, ss: seq<RawRule>, exact: bool, dom: nat, db: Db, u: Fact)
    requires AllCovered(rs, ss, dom) && AllMinimized(ss, rs, exact, dom)
    ensures SomeAnswers(ss, db, dom, u) <==> SomeAnswers(rs, db, dom, u)
  {
    hide Answers, Trimmed, Reduced;
    if SomeAnswers(rs, db, dom, u) {
      var i :| 0 <= i < |rs| && Answers(rs[i], db, dom, u);
      assert CoveredBy(rs[i], ss, dom);
      var s :| s in ss && Contained(rs[i], s, dom);
      var j :| 0 <= j < |ss| && ss[j] == s;
    }
    if SomeAnswers(ss, db, dom, u) {
      var j :| 0 <= j < |ss| && Answers(ss[j], db, dom, u);
      assert Minimized(ss[j], rs, exact, dom);
      var r :| r in rs && MinimizedFrom(r, ss[j], exact, dom);
      var i :| 0 <= i < |rs| && rs[i] == r;
    }
  }

  /** Keeps only rules that no other contains, minimised; the answers of the program stay the same. */
  method SubsumeQueries(rs: seq<RawRule>, f: (RawRule, RawRule) -> bool, ghost dom: nat) returns (ss: seq<RawRule>)
    requires Sound(f, dom) && forall i :: 0 <= i < |rs| ==> RawOk(rs[i])
    ensures forall db, u :: SomeAnswers(ss, db, dom, u) <==> SomeAnswers(rs, db, dom, u)
    ensures AllCovered(rs, ss, dom) && AllMinimized(ss, rs, Decides(f, dom), dom)
    ensures Decides(f, dom) ==> Antichain(ss, dom)
  {
    ss := [];
    assert Antichain(ss, dom);
    hide Contained, Same, Trimmed, Reduced, Antichain, Decides;
    ghost var exact := Decides(f, dom);
    for i := 0 to |rs|
      invariant AllCovered(rs[..i], ss, dom) && AllMinimized(ss, rs[..i], exact, dom)
      invariant exact ==> Antichain(ss, dom)
    {
      ss := Admit(rs[i], rs[..i], ss, f, dom);
      assert rs[..i + 1] == rs[..i] + [rs[i]];
    }
    assert rs[..|rs|] == rs;
    forall db, u ensures SomeAnswers(ss, db, dom, u) <==> SomeAnswers(rs, db, dom, u) {
      CoveredAnswers(rs, ss, exact, dom, db, u);
    }
  }

  /** Adds one rule to the kept ones unless one of them contains it. */
  method Admit(r: RawRule, ghost rs: seq<RawRule>, ss0: seq<RawRule>, f: (RawRule, RawRule) -> bool, ghost dom: nat)
    returns (ss: seq<RawRule>)
    requires Sound(f, dom) && RawOk(r)
    requires AllCovered(rs, ss0, dom) && AllMinimized(ss0, rs, Decides(f, dom), dom)
    requires Decides(f, dom) ==> Antichain(ss0, dom)
    ensures AllCovered(rs + [r], ss, dom) && AllMinimized(ss, rs + [r], Decides(f, dom), dom)
    ensures Decides(f, dom) ==> Antichain(ss, dom)
  {
    var subsumed;
    subsumed, ss := Compare(r, ss0, f, dom);
    ghost var exact := Decides(f, dom);
    if !subsumed {
      var m := MinimizeRule(r, f, dom);
      if exact { PushOne(ss, r, m, dom); }
      ss := ss + [m];
      assert m in ss;
      assert MinimizedFrom(r, m, exact, dom);
    }
    StillCovered(rs, ss0, ss, r, dom);
    forall s | s in ss ensures Minimized(s, rs + [r], exact, dom) {
      if s in ss0 {
        var q :| q in rs && MinimizedFrom(q, s, exact, dom);
        assert q in rs + [r];
      } else {
        assert r in rs + [r] && MinimizedFrom(r, s, exact, dom);
      }
    }
  }
}
