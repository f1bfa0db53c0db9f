/** Which operands of a rule are redundant, and what is left when they are dropped one after the other. */
module Redundancy {
  import opened Formula
  import opened Inlining
  import opened Dnf

  /** A rule's body: none for a fact, lists of terms, or a tree. */
  datatype RawBody = NoBody | Lists(b: Body) | Tree(f: Form)
  datatype RawRule = RawRule(head: Atom, body: RawBody)

  predicate RawOk(r: RawRule) {
    r.body.Lists? ==> BodyOk(r.body.b)
  }

  ghost predicate RawHolds(b: RawBody, env: Env, db: Db, dom: nat) {
    match b
    case NoBody => true
    case Lists(c) => BodyHolds(c, env, db, dom)
    case Tree(f) => Eval(f, env, db, dom)
  }

  ghost predicate AnswersWith(r: RawRule, db: Db, dom: nat, u: Fact, env: Env) {
    EnvBelow(env, dom) && u == Fact(r.head.rel, Values(r.head.args, env)) && RawHolds(r.body, env, db, dom)
  }

  /** The fact is an answer of the rule. */
  ghost predicate Answers(r: RawRule, db: Db, dom: nat, u: Fact) {
    exists env: Env :: AnswersWith(r, db, dom, u, env)
  }

  /** On every database the answers of r are answers of s. */
  ghost predicate Contained(r: RawRule, s: RawRule, dom: nat) {
    forall db, u :: Answers(r, db, dom, u) ==> Answers(s, db, dom, u)
  }

  ghost predicate Same(r: RawRule, s: RawRule, dom: nat) {
    Contained(r, s, dom) && Contained(s, r, dom)
  }

  function AsTree(r: RawRule): (t: RawRule)
    requires RawOk(r)
    ensures t.body.NoBody? == r.body.NoBody?
  {
    if r.body.Lists? then RawRule(r.head, Tree(GetTree(r.body.b))) else r
  }

  /** The rule in lists of terms when its tree allows it. */
  function AsLists(r: RawRule): RawRule {
    if r.body.Tree? && GetBody(r.body.f).Some? then RawRule(r.head, Lists(GetBody(r.body.f).value)) else r
  }

  lemma AsTreeSame(r: RawRule, dom: nat)
    requires RawOk(r)
    ensures Same(AsTree(r), r, dom)
  {
    if r.body.Lists? {
      forall env: Env, db ensures RawHolds(AsTree(r).body, env, db, dom) <==> RawHolds(r.body, env, db, dom) {
        TreeMeans(r.body.b, env, db, dom);
      }
      BodiesSame(AsTree(r), r, dom);
    }
  }

  lemma AsListsSame(r: RawRule, dom: nat)
    ensures Same(AsLists(r), r, dom)
  {
    if r.body.Tree? && GetBody(r.body.f).Some? {
      forall env: Env, db ensures RawHolds(AsLists(r).body, env, db, dom) <==> RawHolds(r.body, env, db, dom) {
        BodyMeans(r.body.f, env, db, dom);
      }
      BodiesSame(AsLists(r), r, dom);
    }
  }

  lemma BodiesSame(r: RawRule, s: RawRule, dom: nat)
    requires r.head == s.head
    requires forall env: Env, db :: RawHolds(r.body, env, db, dom) <==> RawHolds(s.body, env, db, dom)
    ensures Same(r, s, dom)
  {
    forall db, u, env: Env ensures AnswersWith(r, db, dom, u, env) <==> AnswersWith(s, db, dom, u, env) { }
  }

  // ----- positions in a tree

  /** A position in a tree: what surrounds it, from the inside out. */
  datatype Context =
    | Top
    | UnderNot(up: Context)
    | LeftOf(up: Context, op: Op, r: Form)
    | RightOf(up: Context, op: Op, l: Form)
    | UnderQuant(up: Context, q: Quantifier, v: nat)

  function Plug(c: Context, t: Form): Form {
    match c
    case Top => t
    case UnderNot(up) => Plug(up, Not(t))
    case LeftOf(up, op, r) => Plug(up, Bin(op, t, r))
    case RightOf(up, op, l) => Plug(up, Bin(op, l, t))
    case UnderQuant(up, q, v) => Plug(up, Quant(q, v, t))
  }

  /** The parity of the negations around a position; co-implications and uniqueness quantifiers have none. */
  predicate Parity(c: Context, sign: bool) {
    match c
    case Top => sign
    case UnderNot(up) => Parity(up, !sign)
    case LeftOf(up, op, _) => op != Coimplies && Parity(up, if op == Implies then !sign else sign)
    case RightOf(up, op, _) => op != Coimplies && Parity(up, sign)
    case UnderQuant(up, q, _) => q != Unique && Parity(up, sign)
  }

  /** s holds wherever t holds. */
  ghost predicate Entails(t: Form, s: Form, dom: nat) {
    forall env: Env, db :: Eval(t, env, db, dom) ==> Eval(s, env, db, dom)
  }

  /** Replacing a formula by a weaker one at a position of positive parity weakens the whole, at one of negative parity
      strengthens it. */
  lemma {:induction false} Monotone(c: Context, sign: bool, t: Form, s: Form, dom: nat)
    requires Parity(c, sign) && Entails(t, s, dom)
    ensures if sign then Entails(Plug(c, t), Plug(c, s), dom) else Entails(Plug(c, s), Plug(c, t), dom)
    decreases c
  {
    match c
    case Top =>
    case UnderNot(up) =>
      NotEntails(t, s, dom);
      Monotone(up, !sign, Not(s), Not(t), dom);
    case LeftOf(up, op, r) =>
      BinEntails(op, t, s, r, dom);
      if op == Implies {
        Monotone(up, !sign, Bin(op, s, r), Bin(op, t, r), dom);
      } else {
        Monotone(up, sign, Bin(op, t, r), Bin(op, s, r), dom);
      }
    case RightOf(up, op, l) =>
      BinEntails(op, t, s, l, dom);
      Monotone(up, sign, Bin(op, l, t), Bin(op, l, s), dom);
    case UnderQuant(up, q, v) =>
      QuantEntails(q, v, t, s, dom);
      Monotone(up, sign, Quant(q, v, t), Quant(q, v, s), dom);
  }

  lemma NotEntails(t: Form, s: Form, dom: nat)
    requires Entails(t, s, dom)
    ensures Entails(Not(s), Not(t), dom)
  {
    var a, b := Not(s), Not(t);
    forall env: Env, db ensures Eval(a, env, db, dom) ==> Eval(b, env, db, dom) { }
  }

  lemma BinEntails(op: Op, t: Form, s: Form, r: Form, dom: nat)
    requires Entails(t, s, dom) && op != Coimplies
    ensures if op == Implies then Entails(Bin(op, s, r), Bin(op, t, r), dom)
      else Entails(Bin(op, t, r), Bin(op, s, r), dom)
    ensures Entails(Bin(op, r, t), Bin(op, r, s), dom)
  {
    var a, b, c, d := Bin(op, t, r), Bin(op, s, r), Bin(op, r, t), Bin(op, r, s);
    forall env: Env, db
      ensures if op == Implies then Eval(b, env, db, dom) ==> Eval(a, env, db, dom)
        else Eval(a, env, db, dom) ==> Eval(b, env, db, dom)
      ensures Eval(c, env, db, dom) ==> Eval(d, env, db, dom)
    {
    }
  }

  lemma QuantEntails(q: Quantifier, v: nat, t: Form, s: Form, dom: nat)
    requires Entails(t, s, dom) && q != Unique
    ensures Entails(Quant(q, v, t), Quant(q, v, s), dom)
  {
    var a, b := Quant(q, v, t), Quant(q, v, s);
    forall env: Env, db ensures Eval(a, env, db, dom) ==> Eval(b, env, db, dom) {
      assert Holders(t, env, db, dom, v) <= Holders(s, env, db, dom, v);
    }
  }

  lemma EntailsContained(h: Atom, t: Form, s: Form, dom: nat)
    requires Entails(t, s, dom)
    ensures Contained(RawRule(h, Tree(t)), RawRule(h, Tree(s)), dom)
  {
    var r, r' := RawRule(h, Tree(t)), RawRule(h, Tree(s));
    forall db, u, env: Env ensures AnswersWith(r, db, dom, u, env) ==> AnswersWith(r', db, dom, u, env) { }
  }

  /** The operands that may stand for a binary formula, and whether they are stronger or weaker. */
  lemma PartsEntail(op: Op, l: Form, r: Form, dom: nat)
    ensures op == And ==> Entails(Bin(op, l, r), l, dom) && Entails(Bin(op, l, r), r, dom)
    ensures op == Or ==> Entails(l, Bin(op, l, r), dom) && Entails(r, Bin(op, l, r), dom)
    ensures op == Implies ==> Entails(Not(l), Bin(op, l, r), dom) && Entails(r, Bin(op, l, r), dom)
  {
    var w, n := Bin(op, l, r), Not(l);
    forall env: Env, db
      ensures op == And ==> (Eval(w, env, db, dom) ==> Eval(l, env, db, dom) && Eval(r, env, db, dom))
      ensures op == Or ==> (Eval(l, env, db, dom) || Eval(r, env, db, dom) ==> Eval(w, env, db, dom))
      ensures op == Implies ==> (Eval(n, env, db, dom) || Eval(r, env, db, dom) ==> Eval(w, env, db, dom))
    {
    }
  }

  /** The rule with a formula at a position of its body. */
  function At(h: Atom, c: Context, t: Form): RawRule {
    RawRule(h, Tree(Plug(c, t)))
  }

  lemma ContainedTrans(r: RawRule, s: RawRule, t: RawRule, dom: nat)
    requires Contained(r, s, dom) && Contained(s, t, dom)
    ensures Contained(r, t, dom)
  {
    forall db, u ensures Answers(r, db, dom, u) ==> Answers(t, db, dom, u) { }
  }

  /** A change of a formula makes the rule weaker if it goes up, and stronger if it goes down: both turn round under a
      negation. */
  lemma Moves(h: Atom, c: Context, t: Form, s: Form, sign: bool, up: bool, dom: nat)
    requires Parity(c, sign)
    requires if sign == up then Entails(t, s, dom) else Entails(s, t, dom)
    ensures if up then Contained(At(h, c, t), At(h, c, s), dom) else Contained(At(h, c, s), At(h, c, t), dom)
  {
    if sign == up { Monotone(c, sign, t, s, dom); } else { Monotone(c, sign, s, t, dom); }
    var a, b := Plug(c, t), Plug(c, s);
    if up { EntailsContained(h, a, b, dom); } else { EntailsContained(h, b, a, dom); }
  }

  // ----- dropping operands

  /** The left operand as it stands alone: an implication is a disjunction with its left operand negated. */
  function First(op: Op, l: Form): Form {
    if op == Implies then Not(l) else l
  }

  /** The parity of the left operand. */
  predicate LeftSign(op: Op, sign: bool) {
    if op == Implies then !sign else sign
  }

  /** One formula at a position may take the place of another. */
  ghost predicate Replaceable(h: Atom, c: Context, whole: Form, part: Form, dom: nat) {
    Same(At(h, c, whole), At(h, c, part), dom)
  }

  /** Drops operands from the inside out, the left one first, whenever the rule stays equivalent to what it is at that
      moment. */
  ghost function Greedy(h: Atom, c: Context, t: Form, dom: nat): Form
    decreases t
  {
    match t
    case Bin(op, l, r) =>
      if op == Coimplies then t
      else
        var l' := Greedy(h, LeftOf(c, op, r), l, dom);
        var r' := Greedy(h, RightOf(c, op, l'), r, dom);
        Drop(h, c, op, l', r', dom)
    case Not(g) => Not(Greedy(h, UnderNot(c), g, dom))
    case Quant(q, v, g) => if q == Unique then t else Quant(q, v, Greedy(h, UnderQuant(c, q, v), g, dom))
    case _ => t
  }

  /** One of the operands if it may stand for the whole. */
  ghost function Drop(h: Atom, c: Context, op: Op, l: Form, r: Form, dom: nat): Form {
    var whole := Bin(op, l, r);
    if Replaceable(h, c, whole, First(op, l), dom) then First(op, l)
    else if Replaceable(h, c, whole, r, dom) then r
    else whole
  }

  /** No conjunction, disjunction or implication can be replaced by one of its operands. */
  ghost predicate Irreducible(h: Atom, c: Context, t: Form, dom: nat)
    decreases t
  {
    match t
    case Bin(op, l, r) =>
      op == Coimplies ||
      ( Needed(h, c, op, l, r, dom) &&
        Irreducible(h, LeftOf(c, op, r), l, dom) && Irreducible(h, RightOf(c, op, l), r, dom))
    case Not(g) => Irreducible(h, UnderNot(c), g, dom)
    case Quant(q, v, g) => q == Unique || Irreducible(h, UnderQuant(c, q, v), g, dom)
    case _ => true
  }

  ghost predicate Needed(h: Atom, c: Context, op: Op, l: Form, r: Form, dom: nat) {
    var whole := Bin(op, l, r);
    !Replaceable(h, c, whole, First(op, l), dom) && !Replaceable(h, c, whole, r, dom)
  }

  /** m is what is left of t when some operands are dropped. */
  predicate Pruned(t: Form, m: Form)
    decreases t, 1
  {
    m == t ||
    match t
    case Bin(op, _, r) => op != Coimplies && (BothKept(t, m) || FirstKept(t, m) || Pruned(r, m))
    case Not(g) => m.Not? && Pruned(g, m.f)
    case Quant(q, v, g) => q != Unique && m.Quant? && m.q == q && m.v == v && Pruned(g, m.f)
    case _ => false
  }

  predicate BothKept(t: Form, m: Form)
    requires t.Bin?
    decreases t, 0
  {
    m.Bin? && m.op == t.op && Pruned(t.l, m.l) && Pruned(t.r, m.r)
  }

  predicate FirstKept(t: Form, m: Form)
    requires t.Bin?
    decreases t, 0
  {
    if t.op == Implies then m.Not? && Pruned(t.l, m.f) else Pruned(t.l, m)
  }

  function Size(f: Form): nat {
    match f
    case Lit(_) => 1
    case Equal(_, _) => 1
    case Not(g) => 1 + Size(g)
    case Bin(_, l, r) => 1 + Size(l) + Size(r)
    case Quant(_, _, g) => 1 + Size(g)
  }

  /** What is left is never larger, and smaller unless nothing was dropped. */
  lemma {:induction false} PrunedSmaller(t: Form, m: Form)
    requires Pruned(t, m)
    ensures Size(m) <= Size(t) && (Size(m) == Size(t) ==> m == t)
  {
    if m != t {
      match t
      case Bin(op, l, r) =>
        if BothKept(t, m) {
          PrunedSmaller(l, m.l);
          PrunedSmaller(r, m.r);
        } else if FirstKept(t, m) {
          PrunedSmaller(l, if op == Implies then m.f else m);
        } else {
          PrunedSmaller(r, m);
        }
      case Not(g) => PrunedSmaller(g, m.f);
      case Quant(_, _, g) => PrunedSmaller(g, m.f);
      case _ =>
    }
  }

  lemma {:induction false} GreedyPruned(h: Atom, c: Context, t: Form, dom: nat)
    ensures Pruned(t, Greedy(h, c, t, dom))
    decreases t
  {
    match t
    case Bin(op, l, r) =>
      if op != Coimplies {
        var l' := Greedy(h, LeftOf(c, op, r), l, dom);
        GreedyPruned(h, LeftOf(c, op, r), l, dom);
        GreedyPruned(h, RightOf(c, op, l'), r, dom);
        DropPruned(h, c, op, l, r, l', Greedy(h, RightOf(c, op, l'), r, dom), dom);
      }
    case Not(g) => GreedyPruned(h, UnderNot(c), g, dom);
    case Quant(q, v, g) => if q != Unique { GreedyPruned(h, UnderQuant(c, q, v), g, dom); }
    case _ =>
  }

  lemma DropPruned(h: Atom, c: Context, op: Op, l: Form, r: Form, l': Form, r': Form, dom: nat)
    requires op != Coimplies && Pruned(l, l') && Pruned(r, r')
    ensures Pruned(Bin(op, l, r), Drop(h, c, op, l', r', dom))
  {
    var t := Bin(op, l, r);
    assert BothKept(t, Bin(op, l', r')) && FirstKept(t, First(op, l'));
  }

  /** Dropping leaves the rule equivalent. */
  lemma {:induction false} GreedySame(h: Atom, c: Context, t: Form, dom: nat)
    ensures Same(At(h, c, t), At(h, c, Greedy(h, c, t, dom)), dom)
    decreases t
  {
    match t
    case Bin(op, l, r) =>
      if op != Coimplies {
        var l' := Greedy(h, LeftOf(c, op, r), l, dom);
        var r' := Greedy(h, RightOf(c, op, l'), r, dom);
        GreedySame(h, LeftOf(c, op, r), l, dom);
        GreedySame(h, RightOf(c, op, l'), r, dom);
        assert At(h, RightOf(c, op, l'), r) == At(h, LeftOf(c, op, r), l');
        assert Replaceable(h, c, Bin(op, l', r'), Drop(h, c, op, l', r', dom), dom);
      }
    case Not(g) => GreedySame(h, UnderNot(c), g, dom);
    case Quant(q, v, g) => if q != Unique { GreedySame(h, UnderQuant(c, q, v), g, dom); }
    case _ =>
  }

  /** Nothing is dropped exactly from what is irreducible. */
  lemma {:induction false} GreedyFixed(h: Atom, c: Context, t: Form, dom: nat)
    ensures Greedy(h, c, t, dom) == t <==> Irreducible(h, c, t, dom)
    decreases t
  {
    match t
    case Bin(op, l, r) =>
      if op != Coimplies {
        var l' := Greedy(h, LeftOf(c, op, r), l, dom);
        var r' := Greedy(h, RightOf(c, op, l'), r, dom);
        GreedyFixed(h, LeftOf(c, op, r), l, dom);
        GreedyFixed(h, RightOf(c, op, l'), r, dom);
        GreedyPruned(h, LeftOf(c, op, r), l, dom);
        GreedyPruned(h, RightOf(c, op, l'), r, dom);
        PrunedSmaller(l, l');
        PrunedSmaller(r, r');
        DropFixed(h, c, op, l, r, l', r', dom);
      }
    case Not(g) => GreedyFixed(h, UnderNot(c), g, dom);
    case Quant(q, v, g) => if q != Unique { GreedyFixed(h, UnderQuant(c, q, v), g, dom); }
    case _ =>
  }

  lemma DropFixed(h: Atom, c: Context, op: Op, l: Form, r: Form, l': Form, r': Form, dom: nat)
    requires Size(l') <= Size(l) && Size(r') <= Size(r)
    ensures Drop(h, c, op, l', r', dom) == Bin(op, l, r) <==> l' == l && r' == r && Needed(h, c, op, l, r, dom)
  {
    hide Replaceable;
    if Drop(h, c, op, l', r', dom) == Bin(op, l, r) {
      assert Size(First(op, l')) < Size(Bin(op, l, r)) && Size(r') < Size(Bin(op, l, r)) by { SizePositive(r); }
    }
  }

  lemma SizePositive(f: Form)
    ensures Size(f) > 0
  {
  }

  // ----- when a single pass leaves nothing to drop

  /** All operands that can be dropped move the rule the same way: dropping one makes it weaker, or all make it
      stronger. */
  predicate Uniform(t: Form, sign: bool, up: bool) {
    match t
    case Bin(op, l, r) =>
      op == Coimplies ||
      (((op == And) == sign) == up && Uniform(l, LeftSign(op, sign), up) && Uniform(r, sign, up))
    case Not(g) => Uniform(g, !sign, up)
    case Quant(q, _, g) => q == Unique || Uniform(g, sign, up)
    case _ => true
  }

  lemma {:induction false} PrunedUniform(t: Form, m: Form, sign: bool, up: bool)
    requires Pruned(t, m) && Uniform(t, sign, up)
    ensures Uniform(m, sign, up)
  {
    if m != t {
      match t
      case Bin(op, l, r) =>
        if BothKept(t, m) {
          PrunedUniform(l, m.l, LeftSign(op, sign), up);
          PrunedUniform(r, m.r, sign, up);
        } else if FirstKept(t, m) {
          PrunedUniform(l, if op == Implies then m.f else m, LeftSign(op, sign), up);
        } else {
          PrunedUniform(r, m, sign, up);
        }
      case Not(g) => PrunedUniform(g, m.f, !sign, up);
      case Quant(_, _, g) => PrunedUniform(g, m.f, sign, up);
      case _ =>
    }
  }

  ghost predicate Moved(t: Form, m: Form, sign: bool, up: bool, dom: nat) {
    if sign == up then Entails(t, m, dom) else Entails(m, t, dom)
  }

  lemma MovedTrans(t: Form, s: Form, m: Form, sign: bool, up: bool, dom: nat)
    requires Moved(t, s, sign, up, dom) && Moved(s, m, sign, up, dom)
    ensures Moved(t, m, sign, up, dom)
  {
  }

  /** Dropping operands moves a uniform formula that way. */
  lemma {:induction false} PrunedMoves(t: Form, m: Form, sign: bool, up: bool, dom: nat)
    requires Pruned(t, m) && Uniform(t, sign, up)
    ensures Moved(t, m, sign, up, dom)
  {
    if m != t {
      match t
      case Bin(op, l, r) =>
        PartsMove(op, l, r, sign, up, dom);
        if BothKept(t, m) {
          PrunedMoves(l, m.l, LeftSign(op, sign), up, dom);
          PrunedMoves(r, m.r, sign, up, dom);
          BothMove(op, l, r, m.l, m.r, sign, up, dom);
        } else if FirstKept(t, m) {
          var k := if op == Implies then m.f else m;
          PrunedMoves(l, k, LeftSign(op, sign), up, dom);
          FirstMoves(op, l, k, sign, up, dom);
          MovedTrans(t, First(op, l), m, sign, up, dom);
        } else {
          PrunedMoves(r, m, sign, up, dom);
          MovedTrans(t, r, m, sign, up, dom);
        }
      case Not(g) =>
        PrunedMoves(g, m.f, !sign, up, dom);
        if sign == up { NotEntails(m.f, g, dom); } else { NotEntails(g, m.f, dom); }
      case Quant(q, v, g) =>
        PrunedMoves(g, m.f, sign, up, dom);
        if sign == up { QuantEntails(q, v, g, m.f, dom); } else { QuantEntails(q, v, m.f, g, dom); }
      case _ =>
    }
  }

  lemma PartsMove(op: Op, l: Form, r: Form, sign: bool, up: bool, dom: nat)
    requires op != Coimplies && ((op == And) == sign) == up
    ensures Moved(Bin(op, l, r), First(op, l), sign, up, dom) && Moved(Bin(op, l, r), r, sign, up, dom)
  {
    PartsEntail(op, l, r, dom);
  }

  lemma BothMove(op: Op, l: Form, r: Form, l': Form, r': Form, sign: bool, up: bool, dom: nat)
    requires op != Coimplies && Moved(l, l', LeftSign(op, sign), up, dom) && Moved(r, r', sign, up, dom)
    ensures Moved(Bin(op, l, r), Bin(op, l', r'), sign, up, dom)
  {
    if LeftSign(op, sign) == up { BinEntails(op, l, l', r, dom); } else { BinEntails(op, l', l, r, dom); }
    if sign == up { BinEntails(op, r, r', l', dom); } else { BinEntails(op, r', r, l', dom); }
    MovedTrans(Bin(op, l, r), Bin(op, l', r), Bin(op, l', r'), sign, up, dom);
  }

  lemma FirstMoves(op: Op, l: Form, l': Form, sign: bool, up: bool, dom: nat)
    requires Moved(l, l', LeftSign(op, sign), up, dom)
    ensures Moved(First(op, l), First(op, l'), sign, up, dom)
  {
    if op == Implies {
      if LeftSign(op, sign) == up { NotEntails(l, l', dom); } else { NotEntails(l', l, dom); }
    }
  }

  /** Whatever fits into the second context without leaving the rule R on one side fits into the first. */
  ghost predicate Keeps(h: Atom, c: Context, c': Context, R: RawRule, up: bool, dom: nat) {
    forall x :: Fits(h, c', x, R, up, dom) ==> Fits(h, c, x, R, up, dom)
  }

  ghost predicate Fits(h: Atom, c: Context, x: Form, R: RawRule, up: bool, dom: nat) {
    if up then Contained(At(h, c, x), R, dom) else Contained(R, At(h, c, x), dom)
  }

  lemma KeepsUnder(h: Atom, c: Context, c': Context, R: RawRule, up: bool, dom: nat, op: Op, s: Form, q: Quantifier,
        v: nat)
    requires Keeps(h, c, c', R, up, dom)
    ensures Keeps(h, UnderNot(c), UnderNot(c'), R, up, dom)
    ensures Keeps(h, LeftOf(c, op, s), LeftOf(c', op, s), R, up, dom)
    ensures Keeps(h, RightOf(c, op, s), RightOf(c', op, s), R, up, dom)
    ensures Keeps(h, UnderQuant(c, q, v), UnderQuant(c', q, v), R, up, dom)
  {
    hide Contained;
    forall x: Form
      ensures Fits(h, UnderNot(c'), x, R, up, dom) ==> Fits(h, UnderNot(c), x, R, up, dom)
      ensures Fits(h, LeftOf(c', op, s), x, R, up, dom) ==> Fits(h, LeftOf(c, op, s), x, R, up, dom)
      ensures Fits(h, RightOf(c', op, s), x, R, up, dom) ==> Fits(h, RightOf(c, op, s), x, R, up, dom)
      ensures Fits(h, UnderQuant(c', q, v), x, R, up, dom) ==> Fits(h, UnderQuant(c, q, v), x, R, up, dom)
    {
      var a, b, d, e := Not(x), Bin(op, x, s), Bin(op, s, x), Quant(q, v, x);
      assert Fits(h, c', a, R, up, dom) ==> Fits(h, c, a, R, up, dom);
      assert Fits(h, c', b, R, up, dom) ==> Fits(h, c, b, R, up, dom);
      assert Fits(h, c', d, R, up, dom) ==> Fits(h, c, d, R, up, dom);
      assert Fits(h, c', e, R, up, dom) ==> Fits(h, c, e, R, up, dom);
    }
  }

  /** What could not be dropped before the surroundings changed cannot be dropped afterwards. */
  lemma {:induction false} Shift(h: Atom, c: Context, c': Context, t: Form, R: RawRule, sign: bool, up: bool, dom: nat)
    requires Parity(c, sign) && Parity(c', sign) && Uniform(t, sign, up)
    requires Same(At(h, c, t), R, dom) && Same(At(h, c', t), R, dom)
    requires Keeps(h, c, c', R, up, dom) && Irreducible(h, c, t, dom)
    ensures Irreducible(h, c', t, dom)
    decreases t
  {
    hide Same, Keeps, Contained;
    match t
    case Bin(op, l, r) =>
      if op != Coimplies {
        KeepsUnder(h, c, c', R, up, dom, op, r, Exists, 0);
        KeepsUnder(h, c, c', R, up, dom, op, l, Exists, 0);
        Shift(h, LeftOf(c, op, r), LeftOf(c', op, r), l, R, LeftSign(op, sign), up, dom);
        Shift(h, RightOf(c, op, l), RightOf(c', op, l), r, R, sign, up, dom);
        PartsMove(op, l, r, sign, up, dom);
        ShiftPart(h, c, c', t, First(op, l), R, sign, up, dom);
        ShiftPart(h, c, c', t, r, R, sign, up, dom);
      }
    case Not(g) =>
      KeepsUnder(h, c, c', R, up, dom, And, g, Exists, 0);
      Shift(h, UnderNot(c), UnderNot(c'), g, R, !sign, up, dom);
    case Quant(q, v, g) =>
      if q != Unique {
        KeepsUnder(h, c, c', R, up, dom, And, g, q, v);
        Shift(h, UnderQuant(c, q, v), UnderQuant(c', q, v), g, R, sign, up, dom);
      }
    case _ =>
  }

  lemma ShiftPart(h: Atom, c: Context, c': Context, t: Form, part: Form, R: RawRule, sign: bool, up: bool, dom: nat)
    requires Parity(c, sign) && Moved(t, part, sign, up, dom)
    requires Same(At(h, c, t), R, dom) && Same(At(h, c', t), R, dom) && Keeps(h, c, c', R, up, dom)
    ensures Replaceable(h, c', t, part, dom) ==> Replaceable(h, c, t, part, dom)
  {
    Moves(h, c, t, part, sign, up, dom);
    var a, b, d, e := At(h, c, t), At(h, c', t), At(h, c, part), At(h, c', part);
    if Replaceable(h, c', t, part, dom) {
      if up { ContainedTrans(e, b, R, dom); } else { ContainedTrans(R, b, e, dom); }
      assert Fits(h, c', part, R, up, dom);
      if up { ContainedTrans(d, R, a, dom); } else { ContainedTrans(a, R, d, dom); }
    }
  }

  /** A change of the surroundings that moves the rule that way keeps what fits. */
  lemma KeepsMoved(h: Atom, c: Context, c': Context, R: RawRule, up: bool, dom: nat)
    requires forall x ::
      if up then Contained(At(h, c, x), At(h, c', x), dom) else Contained(At(h, c', x), At(h, c, x), dom)
    ensures Keeps(h, c, c', R, up, dom)
  {
    forall x: Form ensures Fits(h, c', x, R, up, dom) ==> Fits(h, c, x, R, up, dom) {
      if Fits(h, c', x, R, up, dom) {
        var a, b := At(h, c, x), At(h, c', x);
        if up { ContainedTrans(a, b, R, dom); } else { ContainedTrans(R, b, a, dom); }
      }
    }
  }

  /** A single pass over a uniform formula leaves nothing to drop. */
  lemma {:induction false} GreedyIrreducible(h: Atom, c: Context, t: Form, sign: bool, up: bool, dom: nat)
    requires Parity(c, sign) && Uniform(t, sign, up)
    ensures Irreducible(h, c, Greedy(h, c, t, dom), dom)
    decreases t
  {
    match t
    case Bin(op, l, r) =>
      if op != Coimplies {
        var l' := Greedy(h, LeftOf(c, op, r), l, dom);
        var r' := Greedy(h, RightOf(c, op, l'), r, dom);
        GreedyIrreducible(h, LeftOf(c, op, r), l, LeftSign(op, sign), up, dom);
        GreedyIrreducible(h, RightOf(c, op, l'), r, sign, up, dom);
        GreedyPruned(h, LeftOf(c, op, r), l, dom);
        GreedyPruned(h, RightOf(c, op, l'), r, dom);
        GreedySame(h, RightOf(c, op, l'), r, dom);
        hide Irreducible, Greedy, Uniform;
        PrunedUniform(l, l', LeftSign(op, sign), up);
        PrunedUniform(r, r', sign, up);
        PrunedMoves(r, r', sign, up, dom);
        RightChanged(h, c, op, l', r, r', sign, up, dom);
        DropIrreducible(h, c, op, l', r', sign, up, dom);
      }
    case Not(g) => GreedyIrreducible(h, UnderNot(c), g, !sign, up, dom);
    case Quant(q, v, g) => if q != Unique { GreedyIrreducible(h, UnderQuant(c, q, v), g, sign, up, dom); }
    case _ =>
  }

  /** The left operand stays irreducible when the right one has been reduced. */
  lemma RightChanged(h: Atom, c: Context, op: Op, l: Form, r: Form, r': Form, sign: bool, up: bool, dom: nat)
    requires op != Coimplies && Parity(c, sign) && Uniform(l, LeftSign(op, sign), up) && Moved(r, r', sign, up, dom)
    requires Same(At(h, RightOf(c, op, l), r), At(h, RightOf(c, op, l), r'), dom)
    requires Irreducible(h, LeftOf(c, op, r), l, dom)
    ensures Irreducible(h, LeftOf(c, op, r'), l, dom)
  {
    var d, e, R := LeftOf(c, op, r), LeftOf(c, op, r'), At(h, RightOf(c, op, l), r);
    forall x: Form
      ensures if up then Contained(At(h, d, x), At(h, e, x), dom) else Contained(At(h, e, x), At(h, d, x), dom)
    {
      Moves(h, RightOf(c, op, x), r, r', sign, up, dom);
    }
    KeepsMoved(h, d, e, R, up, dom);
    Shift(h, d, e, l, R, LeftSign(op, sign), up, dom);
  }

  /** Irreducible operands of a conjunction, disjunction or implication leave an irreducible formula once those that can
      be dropped are. */
  lemma DropIrreducible(h: Atom, c: Context, op: Op, l: Form, r: Form, sign: bool, up: bool, dom: nat)
    requires op != Coimplies && Parity(c, sign) && ((op == And) == sign) == up
    requires Uniform(l, LeftSign(op, sign), up) && Uniform(r, sign, up)
    requires Irreducible(h, LeftOf(c, op, r), l, dom) && Irreducible(h, RightOf(c, op, l), r, dom)
    ensures Irreducible(h, c, Drop(h, c, op, l, r, dom), dom)
  {
    var whole := Bin(op, l, r);
    var R := At(h, c, whole);
    if Replaceable(h, c, whole, First(op, l), dom) {
      var d, e := LeftOf(c, op, r), if op == Implies then UnderNot(c) else c;
      forall x: Form
        ensures if up then Contained(At(h, d, x), At(h, e, x), dom) else Contained(At(h, e, x), At(h, d, x), dom)
      {
        PartsMove(op, x, r, sign, up, dom);
        Moves(h, c, Bin(op, x, r), First(op, x), sign, up, dom);
      }
      KeepsMoved(h, d, e, R, up, dom);
      Shift(h, d, e, l, R, LeftSign(op, sign), up, dom);
    } else if Replaceable(h, c, whole, r, dom) {
      var d := RightOf(c, op, l);
      forall x: Form
        ensures if up then Contained(At(h, d, x), At(h, c, x), dom) else Contained(At(h, c, x), At(h, d, x), dom)
      {
        PartsMove(op, l, x, sign, up, dom);
        Moves(h, c, Bin(op, l, x), x, sign, up, dom);
      }
      KeepsMoved(h, d, c, R, up, dom);
      Shift(h, d, c, r, R, sign, up, dom);
    }
  }

  // ----- disjunctive normal form

  /** Only disjunctions surround the position. */
  predicate OrOnly(c: Context) {
    match c
    case Top => true
    case LeftOf(up, op, _) => op == Or && OrOnly(up)
    case RightOf(up, op, _) => op == Or && OrOnly(up)
    case _ => false
  }

  /** Disjunctions of formulas in which dropping an operand makes the rule weaker. */
  predicate Disjunctive(t: Form) {
    if t.Bin? && t.op == Or then Disjunctive(t.l) && Disjunctive(t.r) else Uniform(t, true, true)
  }

  /** Nothing can be dropped inside the disjuncts. */
  ghost predicate Tidy(h: Atom, c: Context, t: Form, dom: nat)
    decreases t
  {
    if t.Bin? && t.op == Or then Tidy(h, LeftOf(c, Or, t.r), t.l, dom) && Tidy(h, RightOf(c, Or, t.l), t.r, dom)
    else Irreducible(h, c, t, dom)
  }

  lemma {:induction false} OrPlug(c: Context, x: Form, y: Form, env: Env, db: Db, dom: nat)
    requires OrOnly(c)
    ensures Eval(x, env, db, dom) ==> Eval(Plug(c, x), env, db, dom)
    ensures Eval(Plug(c, x), env, db, dom) ==> Eval(x, env, db, dom) || Eval(Plug(c, y), env, db, dom)
    ensures Parity(c, true)
    decreases c
  {
    match c
    case Top =>
    case LeftOf(up, op, r) =>
      OrPlug(up, Bin(Or, x, r), Bin(Or, y, r), env, db, dom);
      BinMeans(Or, x, r, env, db, dom);
      BinMeans(Or, y, r, env, db, dom);
      OrPlug(up, Bin(Or, y, r), Bin(Or, y, r), env, db, dom);
    case RightOf(up, op, l) =>
      OrPlug(up, Bin(Or, l, x), Bin(Or, l, y), env, db, dom);
      BinMeans(Or, l, x, env, db, dom);
      BinMeans(Or, l, y, env, db, dom);
      OrPlug(up, Bin(Or, l, y), Bin(Or, l, y), env, db, dom);
  }

  /** The other disjuncts do not matter for what fits into the rule. */
  lemma OrKeeps(h: Atom, c: Context, c': Context, t: Form, R: RawRule, dom: nat)
    requires OrOnly(c) && OrOnly(c') && Contained(At(h, c, t), R, dom)
    ensures Keeps(h, c, c', R, true, dom)
  {
    forall x: Form ensures Fits(h, c', x, R, true, dom) ==> Fits(h, c, x, R, true, dom) {
      if Fits(h, c', x, R, true, dom) { OrFits(h, c, c', t, x, R, dom); }
    }
  }

  lemma OrFits(h: Atom, c: Context, c': Context, t: Form, x: Form, R: RawRule, dom: nat)
    requires OrOnly(c) && OrOnly(c') && Contained(At(h, c, t), R, dom) && Contained(At(h, c', x), R, dom)
    ensures Contained(At(h, c, x), R, dom)
  {
    forall db, u: Fact ensures Answers(At(h, c, x), db, dom, u) ==> Answers(R, db, dom, u) {
      if Answers(At(h, c, x), db, dom, u) {
        var env: Env :| AnswersWith(At(h, c, x), db, dom, u, env);
        OrPlug(c, x, t, env, db, dom);
        OrPlug(c', x, x, env, db, dom);
        assert AnswersWith(At(h, c, t), db, dom, u, env) || AnswersWith(At(h, c', x), db, dom, u, env);
      }
    }
  }

  lemma OrPositive(c: Context)
    requires OrOnly(c)
    ensures Parity(c, true)
  {
    match c
    case Top =>
    case LeftOf(up, _, _) => OrPositive(up);
    case RightOf(up, _, _) => OrPositive(up);
  }

  /** What happens to the other disjuncts leaves the disjuncts of a formula tidy. */
  lemma {:induction false} TidyShift(h: Atom, c: Context, c': Context, t: Form, dom: nat)
    requires OrOnly(c) && OrOnly(c') && Disjunctive(t) && Same(At(h, c, t), At(h, c', t), dom) && Tidy(h, c, t, dom)
    ensures Tidy(h, c', t, dom)
    decreases t
  {
    if t.Bin? && t.op == Or {
      TidyShift(h, LeftOf(c, Or, t.r), LeftOf(c', Or, t.r), t.l, dom);
      TidyShift(h, RightOf(c, Or, t.l), RightOf(c', Or, t.l), t.r, dom);
    } else {
      var R := At(h, c, t);
      OrPositive(c);
      OrPositive(c');
      OrKeeps(h, c, c', t, R, dom);
      Shift(h, c, c', t, R, true, true, dom);
    }
  }

  lemma {:induction false} PrunedDisjunctive(t: Form, m: Form)
    requires Pruned(t, m) && Disjunctive(t)
    ensures Disjunctive(m)
  {
    if m != t {
      if t.Bin? && t.op == Or {
        if BothKept(t, m) {
          PrunedDisjunctive(t.l, m.l);
          PrunedDisjunctive(t.r, m.r);
        } else if FirstKept(t, m) {
          PrunedDisjunctive(t.l, m);
        } else {
          PrunedDisjunctive(t.r, m);
        }
      } else {
        PrunedUniform(t, m, true, true);
      }
    }
  }

  /** A single pass over a disjunction leaves nothing to drop inside its disjuncts. */
  lemma {:induction false} GreedyTidy(h: Atom, c: Context, t: Form, dom: nat)
    requires OrOnly(c) && Disjunctive(t)
    ensures Tidy(h, c, Greedy(h, c, t, dom), dom)
    decreases t
  {
    GreedyPruned(h, c, t, dom);
    if t.Bin? && t.op == Or {
      var l, r := t.l, t.r;
      var l' := Greedy(h, LeftOf(c, Or, r), l, dom);
      var r' := Greedy(h, RightOf(c, Or, l'), r, dom);
      GreedyTidy(h, LeftOf(c, Or, r), l, dom);
      GreedyTidy(h, RightOf(c, Or, l'), r, dom);
      GreedyPruned(h, LeftOf(c, Or, r), l, dom);
      GreedyPruned(h, RightOf(c, Or, l'), r, dom);
      GreedySame(h, RightOf(c, Or, l'), r, dom);
      PrunedDisjunctive(l, l');
      PrunedDisjunctive(r, r');
      hide Tidy, Greedy, Same;
      TidyShift(h, LeftOf(c, Or, r), LeftOf(c, Or, r'), l', dom);
      DropTidy(h, c, l', r', dom);
    } else {
      OrPositive(c);
      PrunedUniform(t, Greedy(h, c, t, dom), true, true);
      GreedyIrreducible(h, c, t, true, true, dom);
    }
  }

  lemma DropTidy(h: Atom, c: Context, l: Form, r: Form, dom: nat)
    requires OrOnly(c) && Disjunctive(l) && Disjunctive(r)
    requires Tidy(h, LeftOf(c, Or, r), l, dom) && Tidy(h, RightOf(c, Or, l), r, dom)
    ensures Tidy(h, c, Drop(h, c, Or, l, r, dom), dom)
  {
    var whole := Bin(Or, l, r);
    if Replaceable(h, c, whole, l, dom) {
      TidyShift(h, LeftOf(c, Or, r), c, l, dom);
    } else if Replaceable(h, c, whole, r, dom) {
      TidyShift(h, RightOf(c, Or, l), c, r, dom);
    }
  }

  // ----- a second pass over a disjunction

  /** If nothing can be dropped inside the disjuncts, only disjuncts are dropped. */
  lemma {:induction false} TidyStronger(h: Atom, c: Context, t: Form, dom: nat)
    requires OrOnly(c) && Disjunctive(t) && Tidy(h, c, t, dom)
    ensures Entails(Greedy(h, c, t, dom), t, dom)
    decreases t
  {
    if t.Bin? && t.op == Or {
      var l, r := t.l, t.r;
      var l' := Greedy(h, LeftOf(c, Or, r), l, dom);
      var r' := Greedy(h, RightOf(c, Or, l'), r, dom);
      TidyStronger(h, LeftOf(c, Or, r), l, dom);
      LeftTidied(h, c, l, r, dom);
      TidyStronger(h, RightOf(c, Or, l'), r, dom);
      PartsMove(Or, l', r', true, false, dom);
      BothMove(Or, l, r, l', r', true, false, dom);
      MovedTrans(t, Bin(Or, l', r'), Drop(h, c, Or, l', r', dom), true, false, dom);
    } else {
      GreedyFixed(h, c, t, dom);
    }
  }

  /** The right disjunct stays tidy when the left one has been reduced. */
  lemma LeftTidied(h: Atom, c: Context, l: Form, r: Form, dom: nat)
    requires OrOnly(c) && Disjunctive(r) && Tidy(h, RightOf(c, Or, l), r, dom)
    ensures Tidy(h, RightOf(c, Or, Greedy(h, LeftOf(c, Or, r), l, dom)), r, dom)
  {
    var l' := Greedy(h, LeftOf(c, Or, r), l, dom);
    GreedySame(h, LeftOf(c, Or, r), l, dom);
    TidyShift(h, RightOf(c, Or, l), RightOf(c, Or, l'), r, dom);
  }

  /** A disjunction that is irreducible stays so when other disjuncts are dropped. */
  lemma {:induction false} ShiftDown(h: Atom, c: Context, c': Context, t: Form, R: RawRule, dom: nat)
    requires OrOnly(c) && OrOnly(c') && Disjunctive(t) && Keeps(h, c, c', R, false, dom)
    requires Same(At(h, c, t), R, dom) && Same(At(h, c', t), R, dom) && Irreducible(h, c, t, dom)
    ensures Irreducible(h, c', t, dom)
    decreases t
  {
    hide Same, Keeps, Contained;
    OrPositive(c);
    OrPositive(c');
    if t.Bin? && t.op == Or {
      var l, r := t.l, t.r;
      KeepsUnder(h, c, c', R, false, dom, Or, r, Exists, 0);
      KeepsUnder(h, c, c', R, false, dom, Or, l, Exists, 0);
      ShiftDown(h, LeftOf(c, Or, r), LeftOf(c', Or, r), l, R, dom);
      ShiftDown(h, RightOf(c, Or, l), RightOf(c', Or, l), r, R, dom);
      PartsMove(Or, l, r, true, false, dom);
      ShiftPart(h, c, c', t, l, R, true, false, dom);
      ShiftPart(h, c, c', t, r, R, true, false, dom);
    } else {
      assert Contained(At(h, c, t), R, dom) by { SameContained(At(h, c, t), R, dom); }
      OrKeeps(h, c, c', t, R, dom);
      Shift(h, c, c', t, R, true, true, dom);
    }
  }

  lemma SameContained(r: RawRule, s: RawRule, dom: nat)
    requires Same(r, s, dom)
    ensures Contained(r, s, dom)
  {
  }

  /** A pass over a disjunction in whose disjuncts nothing can be dropped leaves nothing to drop. */
  lemma {:induction false} TidyIrreducible(h: Atom, c: Context, t: Form, dom: nat)
    requires OrOnly(c) && Disjunctive(t) && Tidy(h, c, t, dom)
    ensures Irreducible(h, c, Greedy(h, c, t, dom), dom)
    decreases t
  {
    if t.Bin? && t.op == Or {
      var l, r := t.l, t.r;
      var l' := Greedy(h, LeftOf(c, Or, r), l, dom);
      var r' := Greedy(h, RightOf(c, Or, l'), r, dom);
      LeftTidied(h, c, l, r, dom);
      TidyIrreducible(h, LeftOf(c, Or, r), l, dom);
      TidyIrreducible(h, RightOf(c, Or, l'), r, dom);
      TidyStronger(h, RightOf(c, Or, l'), r, dom);
      GreedySame(h, RightOf(c, Or, l'), r, dom);
      GreedyPruned(h, LeftOf(c, Or, r), l, dom);
      GreedyPruned(h, RightOf(c, Or, l'), r, dom);
      PrunedDisjunctive(l, l');
      PrunedDisjunctive(r, r');
      hide Irreducible, Greedy, Same, Disjunctive;
      DisjunctDropped(h, c, l', r, r', dom);
      DropDisjunct(h, c, l', r', dom);
    } else {
      GreedyFixed(h, c, t, dom);
    }
  }

  lemma DisjunctDropped(h: Atom, c: Context, l: Form, r: Form, r': Form, dom: nat)
    requires OrOnly(c) && Disjunctive(l) && Entails(r', r, dom) && Irreducible(h, LeftOf(c, Or, r), l, dom)
    requires Same(At(h, RightOf(c, Or, l), r), At(h, RightOf(c, Or, l), r'), dom)
    ensures Irreducible(h, LeftOf(c, Or, r'), l, dom)
  {
    OrPositive(c);
    var d, e, R := LeftOf(c, Or, r), LeftOf(c, Or, r'), At(h, RightOf(c, Or, l), r);
    forall x: Form ensures Contained(At(h, e, x), At(h, d, x), dom) {
      Moves(h, RightOf(c, Or, x), r, r', true, false, dom);
    }
    KeepsMoved(h, d, e, R, false, dom);
    ShiftDown(h, d, e, l, R, dom);
  }

  lemma DropDisjunct(h: Atom, c: Context, l: Form, r: Form, dom: nat)
    requires OrOnly(c) && Disjunctive(l) && Disjunctive(r)
    requires Irreducible(h, LeftOf(c, Or, r), l, dom) && Irreducible(h, RightOf(c, Or, l), r, dom)
    ensures Irreducible(h, c, Drop(h, c, Or, l, r, dom), dom)
  {
    OrPositive(c);
    var whole := Bin(Or, l, r);
    var R := At(h, c, whole);
    if Replaceable(h, c, whole, First(Or, l), dom) {
      var d := LeftOf(c, Or, r);
      forall x: Form ensures Contained(At(h, c, x), At(h, d, x), dom) {
        PartsMove(Or, x, r, true, false, dom);
        Moves(h, c, Bin(Or, x, r), x, true, false, dom);
      }
      KeepsMoved(h, d, c, R, false, dom);
      ShiftDown(h, d, c, l, R, dom);
    } else if Replaceable(h, c, whole, r, dom) {
      var d := RightOf(c, Or, l);
      forall x: Form ensures Contained(At(h, c, x), At(h, d, x), dom) {
        PartsMove(Or, l, x, true, false, dom);
        Moves(h, c, Bin(Or, l, x), x, true, false, dom);
      }
      KeepsMoved(h, d, c, R, false, dom);
      ShiftDown(h, d, c, r, R, dom);
    }
  }

  /** Two passes over a disjunction leave nothing to drop. */
  lemma TwoPasses(h: Atom, t: Form, dom: nat)
    requires Disjunctive(t)
    ensures var m := Greedy(h, Top, t, dom); Irreducible(h, Top, Greedy(h, Top, m, dom), dom)
  {
    var m := Greedy(h, Top, t, dom);
    GreedyTidy(h, Top, t, dom);
    GreedyPruned(h, Top, t, dom);
    PrunedDisjunctive(t, m);
    TidyIrreducible(h, Top, m, dom);
  }

  // ----- when a single pass does not suffice

  lemma Differ(h: Atom, t: Form, s: Form, db: Db, dom: nat)
    requires h.args == [] && FreeVars(t) == {} && FreeVars(s) == {}
    requires Eval(t, map[], db, dom) && !Eval(s, map[], db, dom)
    ensures !Same(RawRule(h, Tree(t)), RawRule(h, Tree(s)), dom)
  {
    var r, q, u := RawRule(h, Tree(t)), RawRule(h, Tree(s)), Fact(h.rel, []);
    var none: Env := map[];
    assert AnswersWith(r, db, dom, u, none);
    if Answers(q, db, dom, u) {
      var env: Env :| AnswersWith(q, db, dom, u, env);
      EvalSame(s, env, none, db, dom);
    }
  }

  function Flag(n: nat): Form {
    Lit(Atom(Rel(n, 0), []))
  }

  ghost function OnlyFlag(n: nat): Db {
    iset{Fact(Rel(n, 0), [])}
  }

  lemma FlagMeans(n: nat, env: Env, db: Db, dom: nat)
    ensures Eval(Flag(n), env, db, dom) <==> Fact(Rel(n, 0), []) in db
    ensures FreeVars(Flag(n)) == {}
  {
    assert Values([], env) == [];
  }

  /** The body a; b; ~a, ~b. */
  function Disjuncts(): (t: Form)
    ensures GetBody(t) == Some([[Signed(false, Flag(1))], [Signed(false, Flag(2))],
      [Signed(true, Flag(1)), Signed(true, Flag(2))]])
  {
    var a, b := Signed(false, Flag(1)), Signed(false, Flag(2));
    var body := [[a], [b], [a.(neg := true), b.(neg := true)]];
    BodyRoundTrip(body);
    GetTree(body)
  }

  lemma DisjunctsTree()
    ensures Disjuncts() == Bin(Or, Bin(Or, Flag(1), Flag(2)), Bin(And, Not(Flag(1)), Not(Flag(2))))
  {
    var a, b := Signed(false, Flag(1)), Signed(false, Flag(2));
    var c := [a.(neg := true), b.(neg := true)];
    assert c[..1] == [c[0]];
    assert ConjTree(c) == Bin(And, Not(Flag(1)), Not(Flag(2)));
    var two, body := [[a], [b]], [[a], [b], c];
    assert two[..1] == [[a]] && body[..2] == two;
    assert GetTree(two) == Bin(Or, Flag(1), Flag(2)) by { assert GetTree([[a]]) == Flag(1); }
  }

  lemma TwoFlags(env: Env, db: Db, dom: nat)
    ensures var a, b := Flag(1), Flag(2);
      var a', b' := Fact(Rel(1, 0), []) in db, Fact(Rel(2, 0), []) in db;
      Eval(Bin(Or, a, b), env, db, dom) == (a' || b') &&
      Eval(Bin(And, Not(a), Not(b)), env, db, dom) == !(a' || b') && Eval(Not(a), env, db, dom) == !a'
  {
    FlagMeans(1, env, db, dom);
    FlagMeans(2, env, db, dom);
    BinMeans(And, Not(Flag(1)), Not(Flag(2)), env, db, dom);
  }

  /** Both of two atoms are needed while the third disjunct is as it was. */
  lemma FirstTwo(dom: nat)
    ensures var l, d := Bin(Or, Flag(1), Flag(2)), Bin(And, Not(Flag(1)), Not(Flag(2)));
      Greedy(Atom(Rel(0, 0), []), LeftOf(Top, Or, d), l, dom) == l
  {
    var h, a, b := Atom(Rel(0, 0), []), Flag(1), Flag(2);
    var l, d := Bin(Or, a, b), Bin(And, Not(a), Not(b));
    var c, none: Env := LeftOf(Top, Or, d), map[];
    TwoFlags(none, OnlyFlag(1), dom);
    TwoFlags(none, OnlyFlag(2), dom);
    FlagMeans(1, none, OnlyFlag(2), dom);
    FlagMeans(2, none, OnlyFlag(1), dom);
    Differ(h, Plug(c, l), Plug(c, a), OnlyFlag(2), dom);
    Differ(h, Plug(c, l), Plug(c, b), OnlyFlag(1), dom);
    assert Greedy(h, LeftOf(c, Or, b), a, dom) == a && Greedy(h, RightOf(c, Or, a), b, dom) == b;
  }

  /** In the third disjunct one literal suffices. */
  lemma ThirdReduced(dom: nat)
    ensures var l, d := Bin(Or, Flag(1), Flag(2)), Bin(And, Not(Flag(1)), Not(Flag(2)));
      Greedy(Atom(Rel(0, 0), []), RightOf(Top, Or, l), d, dom) == Not(Flag(1))
  {
    var h, a, b := Atom(Rel(0, 0), []), Flag(1), Flag(2);
    var l, d := Bin(Or, a, b), Bin(And, Not(a), Not(b));
    var c := RightOf(Top, Or, l);
    var r, s := At(h, c, d), At(h, c, Not(a));
    forall env: Env, db ensures RawHolds(r.body, env, db, dom) <==> RawHolds(s.body, env, db, dom) {
      TwoFlags(env, db, dom);
    }
    BodiesSame(r, s, dom);
    var c' := LeftOf(c, And, Not(b));
    assert Greedy(h, c', Not(a), dom) == Not(a) && Greedy(h, RightOf(c, And, Not(a)), Not(b), dom) == Not(b);
  }

  /** A single pass may leave something to drop: of p :- a; b; ~a, ~b it leaves p :- a; b; ~a, where b is redundant. The
      atom b is needed as long as the third disjunct is not reduced, and it is not looked at again. */
  lemma NotAlwaysIrreducible(dom: nat)
    ensures var h, a, b := Atom(Rel(0, 0), []), Flag(1), Flag(2);
      var m := Bin(Or, Bin(Or, a, b), Not(a));
      Greedy(h, Top, Disjuncts(), dom) == m && !Irreducible(h, Top, m, dom) &&
      Replaceable(h, Top, m, Bin(Or, a, Not(a)), dom)
  {
    var h, a, b := Atom(Rel(0, 0), []), Flag(1), Flag(2);
    var l, d, none: Env := Bin(Or, a, b), Bin(And, Not(a), Not(b)), map[];
    DisjunctsTree();
    FirstTwo(dom);
    ThirdReduced(dom);
    var m := Bin(Or, l, Not(a));
    TwoFlags(none, iset{}, dom);
    TwoFlags(none, OnlyFlag(1), dom);
    FlagMeans(1, none, iset{}, dom);
    FlagMeans(2, none, iset{}, dom);
    Differ(h, m, l, iset{}, dom);
    Differ(h, m, Not(a), OnlyFlag(1), dom);
    assert Greedy(h, Top, Bin(Or, l, d), dom) == Drop(h, Top, Or, l, Not(a), dom);
    Spare(h, a, b, dom);
  }

  lemma Spare(h: Atom, a: Form, b: Form, dom: nat)
    ensures var m := Bin(Or, Bin(Or, a, b), Not(a));
      !Irreducible(h, Top, m, dom) && Replaceable(h, Top, m, Bin(Or, a, Not(a)), dom)
  {
    var l, n := Bin(Or, a, b), Not(a);
    var r, s := At(h, Top, Bin(Or, l, n)), At(h, Top, Bin(Or, a, n));
    forall env: Env, db ensures RawHolds(r.body, env, db, dom) <==> RawHolds(s.body, env, db, dom) {
      BinMeans(Or, l, n, env, db, dom);
      BinMeans(Or, a, n, env, db, dom);
    }
    BodiesSame(r, s, dom);
    var c := LeftOf(Top, Or, n);
    assert Replaceable(h, c, l, First(Or, a), dom);
    assert !Irreducible(h, c, l, dom);
  }
}
