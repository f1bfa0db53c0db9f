/** The whole transformation: rules that forget, squared k times, run under a clock. */
module Speedup {
  import opened Formula
  import opened Inlining
  import opened BddSat
  import opened Pdatalog
  import opened Clock

  /** Adds a relation to the list unless it is there. */
  method Note(order0: seq<Rel>, rel: Rel) returns (order: seq<Rel>)
    requires Ordered(order0)
    ensures Ordered(order) && order0 <= order && rel in order
    ensures forall r :: r in order ==> r in order0 || r == rel
  {
    order := order0;
    if rel !in order0 { order := order0 + [rel]; }
  }

  /** The relations the rules and facts are about. */
  method Relations(rs: seq<Rule>, facts: seq<Rel>, ghost name: nat) returns (order: seq<Rel>)
    requires AllRulesBelow(rs, name) && AllBelowName(facts, name)
    ensures Ordered(order) && AllBelowName(order, name)
    ensures forall i :: 0 <= i < |rs| ==> rs[i].head.rel in order
    ensures forall r :: r in order ==> HasRules(rs, r) || r in facts
  {
    order := [];
    for i := 0 to |rs|
      invariant Ordered(order) && forall j :: 0 <= j < i ==> rs[j].head.rel in order
      invariant forall r :: r in order ==> HasRules(rs, r)
    {
      order := Note(order, rs[i].head.rel);
    }
    for i := 0 to |facts|
      invariant Ordered(order) && forall j :: 0 <= j < |rs| ==> rs[j].head.rel in order
      invariant forall r :: r in order ==> HasRules(rs, r) || r in facts
    {
      order := Note(order, facts[i]);
    }
    forall k | 0 <= k < |order| ensures order[k].name < name {
      assert order[k] in order;
      if HasRules(rs, order[k]) {
        var i :| 0 <= i < |rs| && rs[i].head.rel == order[k];
        assert RuleBelow(rs[i], name);
      } else {
        var i :| 0 <= i < |facts| && facts[i] == order[k];
      }
    }
  }

  lemma {:induction false} NamesMore(f: Form, n: nat, m: nat)
    requires NamesBelow(f, n) && n <= m
    ensures NamesBelow(f, m)
  {
    match f
    case Lit(_) =>
    case Equal(_, _) =>
    case Not(g) => NamesMore(g, n, m);
    case Bin(_, l, r) => NamesMore(l, n, m); NamesMore(r, n, m);
    case Quant(_, _, g) => NamesMore(g, n, m);
  }

  lemma GeneralOk(rel: Rel, next: nat, dom: nat)
    ensures AtomOk(Atom(rel, General(rel, next).args), dom) && BelowArgs(General(rel, next).args, next + rel.arity)
  {
  }

  /** Everything a produced rule must satisfy. */
  ghost predicate Good(r: Rule, dom: nat, next: nat, name: nat) {
    RuleOk(r, dom) && Below(r.body, next) && RuleBelow(r, name)
  }

  ghost predicate AllGood(rs: seq<Rule>, dom: nat, next: nat, name: nat) {
    forall r :: r in rs ==> Good(r, dom, next, name)
  }

  lemma GoodMore(rs: seq<Rule>, dom: nat, next: nat, next': nat, name: nat)
    requires AllGood(rs, dom, next, name) && next <= next'
    ensures AllGood(rs, dom, next', name)
  {
    forall r | r in rs ensures Good(r, dom, next', name) { BelowMore(r.body, next, next'); }
  }

  lemma GoodRules(rs: seq<Rule>, dom: nat, next: nat, name: nat)
    requires AllGood(rs, dom, next, name) && dom > 0
    ensures RulesOk(rs, dom) && RulesBelow(rs, next) && AllRulesBelow(rs, name)
  {
    forall i | 0 <= i < |rs| ensures Good(rs[i], dom, next, name) { assert rs[i] in rs; }
  }

  lemma LitGood(a: Atom, dom: nat, next: nat, name: nat)
    requires AtomOk(a, dom) && BelowArgs(a.args, next) && a.rel.name < name
    ensures FormOk(Lit(a), dom) && Below(Lit(a), next) && NamesBelow(Lit(a), name)
  {
  }

  lemma FrozenGood(r: Rule, order: seq<Rel>, name: nat, dom: nat, next: nat)
    requires r.head.rel in order && RuleOk(r, dom) && Below(r.body, next) && RuleBelow(r, name)
    ensures Good(Frozen(r, order, name), dom, next, name + 3 * |order|)
  {
    NamesMore(r.body, name, name + 3 * |order|);
  }

  lemma CarryGood(order: seq<Rel>, name: nat, k: nat, dom: nat, next: nat)
    requires k < |order| && AllBelowName(order, name)
    ensures forall r :: r in Carry(order, name, k, next) ==> Good(r, dom, next + order[k].arity, name + 3 * |order|)
  {
    var c, m := Carry(order, name, k, next), name + 3 * |order|;
    var args := General(order[k], next).args;
    GeneralOk(order[k], next, dom);
    var del := Not(Lit(Atom(Del(order, name, k), args)));
    assert FormOk(del, dom) && Below(del, next + order[k].arity) && NamesBelow(del, m);
    LitGood(Atom(order[k], args), dom, next + order[k].arity, m);
    LitGood(Atom(Ins(order, name, k), args), dom, next + order[k].arity, m);
    LitGood(Atom(Prev(order, name, k), args), dom, next + order[k].arity, m);
    forall r | r in c ensures Good(r, dom, next + order[k].arity, m) {
      assert r == c[0] || r == c[1] || r == c[2];
    }
  }

  method FreezeAll(rs: seq<Rule>, order: seq<Rel>, name: nat, ghost next: nat, ghost dom: nat) returns (out: seq<Rule>)
    requires RulesOk(rs, dom) && RulesBelow(rs, next) && AllRulesBelow(rs, name)
    requires forall i :: 0 <= i < |rs| ==> rs[i].head.rel in order
    ensures AllGood(out, dom, next, name + 3 * |order|)
    ensures forall i :: 0 <= i < |rs| ==> Frozen(rs[i], order, name) in out
    ensures forall r :: r in out ==> IsFrozen(r, rs, order, name)
  {
    out := [];
    for i := 0 to |rs|
      invariant AllGood(out, dom, next, name + 3 * |order|)
      invariant forall j :: 0 <= j < i ==> Frozen(rs[j], order, name) in out
      invariant forall r :: r in out ==> IsFrozen(r, rs, order, name)
    {
      assert RuleBelow(rs[i], name);
      FrozenGood(rs[i], order, name, dom, next);
      out := out + [Frozen(rs[i], order, name)];
    }
  }

  ghost predicate CarryUpto(r: Rule, order: seq<Rel>, name: nat, nexts: seq<nat>, n: nat)
    requires n <= |nexts| <= |order|
  {
    exists i :: 0 <= i < n && r in Carry(order, name, i, nexts[i])
  }

  method CarryAll(order: seq<Rel>, name: nat, next: nat, ghost dom: nat)
    returns (out: seq<Rule>, ghost nexts: seq<nat>, next': nat)
    requires AllBelowName(order, name)
    ensures next <= next' && |nexts| == |order| && AllGood(out, dom, next', name + 3 * |order|)
    ensures forall i, j :: 0 <= i < |order| && 0 <= j < 3 ==> Carry(order, name, i, nexts[i])[j] in out
    ensures forall r :: r in out ==> IsCarry(r, order, name, nexts)
  {
    out, nexts, next' := [], [], next;
    for k := 0 to |order|
      invariant next <= next' && |nexts| == k && AllGood(out, dom, next', name + 3 * |order|)
      invariant forall i, j :: 0 <= i < k && 0 <= j < 3 ==> Carry(order, name, i, nexts[i])[j] in out
      invariant forall r :: r in out ==> CarryUpto(r, order, name, nexts, k)
    {
      ghost var before, n := nexts, k + 1;
      CarryGood(order, name, k, dom, next');
      GoodMore(out, dom, next', next' + order[k].arity, name + 3 * |order|);
      nexts := nexts + [next'];
      forall r | r in out + Carry(order, name, k, next') ensures CarryUpto(r, order, name, nexts, n) {
        if r in out {
          var i :| 0 <= i < k && r in Carry(order, name, i, before[i]);
          assert nexts[i] == before[i];
        } else {
          assert nexts[k] == next';
        }
      }
      out := out + Carry(order, name, k, next');
      next' := next' + order[k].arity;
    }
  }

  /** The program as rules that forget. */
  method Prepare(rs: seq<Rule>, facts: seq<Rel>, name: nat, next: nat, ghost dom: nat)
    returns (out: seq<Rule>, order: seq<Rel>, ghost nexts: seq<nat>, next': nat)
    requires RulesOk(rs, dom) && RulesBelow(rs, next) && AllRulesBelow(rs, name) && AllBelowName(facts, name)
    ensures Pre(out, rs, order, name, nexts) && AllBelowName(order, name)
    ensures next <= next' && AllGood(out, dom, next', name + 3 * |order|)
  {
    order := Relations(rs, facts, name);
    var frozen := FreezeAll(rs, order, name, next, dom);
    var carry;
    carry, nexts, next' := CarryAll(order, name, next, dom);
    GoodMore(frozen, dom, next, next', name + 3 * |order|);
    out := frozen + carry;
  }

  lemma LowGood(r: Rule, order: seq<Rel>, name: nat, dom: nat, next: nat)
    requires r.head.rel in order && RuleOk(r, dom) && Below(r.body, next) && RuleBelow(r, name)
    ensures Good(Low(r, order, name), dom, next, name + |order| + 1)
  {
    NamesMore(r.body, name, name + |order| + 1);
    var t := Not(Ticking(order, name));
    assert FormOk(t, dom) && Below(t, next) && NamesBelow(t, name + |order| + 1);
  }

  lemma WriteBackGood(order: seq<Rel>, name: nat, k: nat, dom: nat, next: nat)
    requires k < |order| && AllBelowName(order, name)
    ensures forall r :: r in WriteBack(order, name, k, next) ==> Good(r, dom, next + order[k].arity, name + |order| + 1)
  {
    var w, m, n := WriteBack(order, name, k, next), name + |order| + 1, next + order[k].arity;
    GeneralOk(order[k], next, dom);
    var scratch := Lit(Atom(Scratch(order, name, k), General(order[k], next).args));
    assert FormOk(scratch, dom) && Below(scratch, n) && NamesBelow(scratch, m);
    assert FormOk(Not(scratch), dom) && Below(Not(scratch), n) && NamesBelow(Not(scratch), m);
    assert FormOk(Ticking(order, name), dom) && Below(Ticking(order, name), n) && NamesBelow(Ticking(order, name), m);
    forall r | r in w ensures Good(r, dom, n, m) {
      assert r == w[0] || r == w[1] || r == w[2];
    }
  }

  method LowAll(ps: seq<Rule>, order: seq<Rel>, name: nat, ghost next: nat, ghost dom: nat) returns (ts: seq<Rule>)
    requires RulesOk(ps, dom) && RulesBelow(ps, next) && AllRulesBelow(ps, name)
    requires forall i :: 0 <= i < |ps| ==> ps[i].head.rel in order
    ensures AllGood(ts, dom, next, name + |order| + 1)
    ensures forall i :: 0 <= i < |ps| ==> Low(ps[i], order, name) in ts
    ensures forall r :: r in ts ==> IsLow(r, ps, order, name)
  {
    ts := [];
    for i := 0 to |ps|
      invariant AllGood(ts, dom, next, name + |order| + 1)
      invariant forall j :: 0 <= j < i ==> Low(ps[j], order, name) in ts
      invariant forall r :: r in ts ==> IsLow(r, ps, order, name)
    {
      assert RuleBelow(ps[i], name);
      LowGood(ps[i], order, name, dom, next);
      ts := ts + [Low(ps[i], order, name)];
    }
  }

  ghost predicate WriteBackUpto(r: Rule, order: seq<Rel>, name: nat, nexts: seq<nat>, n: nat)
    requires n <= |nexts| <= |order|
  {
    exists i :: 0 <= i < n && r in WriteBack(order, name, i, nexts[i])
  }

  method WriteBackAll(order: seq<Rel>, name: nat, next: nat, ghost dom: nat)
    returns (ts: seq<Rule>, ghost nexts: seq<nat>, next': nat)
    requires AllBelowName(order, name)
    ensures next <= next' && |nexts| == |order| && AllGood(ts, dom, next', name + |order| + 1)
    ensures forall i, j :: 0 <= i < |order| && 0 <= j < 3 ==> WriteBack(order, name, i, nexts[i])[j] in ts
    ensures forall r :: r in ts ==> IsWriteBack(r, order, name, nexts)
  {
    ts, nexts, next' := [], [], next;
    for k := 0 to |order|
      invariant next <= next' && |nexts| == k && AllGood(ts, dom, next', name + |order| + 1)
      invariant forall i, j :: 0 <= i < k && 0 <= j < 3 ==> WriteBack(order, name, i, nexts[i])[j] in ts
      invariant forall r :: r in ts ==> WriteBackUpto(r, order, name, nexts, k)
    {
      ghost var before, n := nexts, k + 1;
      WriteBackGood(order, name, k, dom, next');
      GoodMore(ts, dom, next', next' + order[k].arity, name + |order| + 1);
      nexts := nexts + [next'];
      forall r | r in ts + WriteBack(order, name, k, next') ensures WriteBackUpto(r, order, name, nexts, n) {
        if r in ts {
          var i :| 0 <= i < k && r in WriteBack(order, name, i, before[i]);
          assert nexts[i] == before[i];
        } else {
          assert nexts[k] == next';
        }
      }
      ts := ts + WriteBack(order, name, k, next');
      next' := next' + order[k].arity;
    }
  }

  /** The rules that forget, under a clock. */
  method RunByClock(ps: seq<Rule>, name: nat, next: nat, ghost dom: nat)
    returns (ts: seq<Rule>, order: seq<Rel>, ghost nexts: seq<nat>)
    requires RulesOk(ps, dom) && RulesBelow(ps, next) && AllRulesBelow(ps, name)
    ensures Post(ts, ps, order, name, nexts) && AllBelowName(order, name) && RulesOk(ts, dom)
  {
    order := Relations(ps, [], name);
    forall k | 0 <= k < |order| ensures HasRules(ps, order[k]) { assert order[k] in order; }
    hide Post, Good, HasRules, IsLow, IsWriteBack, RulesOk, RulesBelow, AllRulesBelow, AllGood, Low, WriteBack,
      Toggle, AllBelowName, Ordered;
    var low := LowAll(ps, order, name, next, dom);
    var back, next';
    back, nexts, next' := WriteBackAll(order, name, next, dom);
    GoodMore(low, dom, next, next', name + |order| + 1);
    ToggleGood(order, name, dom, next');
    ts := low + back + Toggle(order, name);
    GoodJoined(low, back, Toggle(order, name), dom, next', name + |order| + 1);
    GoodRules(ts, dom, next', name + |order| + 1);
    PostJoined(ts, low, back, ps, order, name, nexts);
  }

  lemma GoodJoined(a: seq<Rule>, b: seq<Rule>, c: seq<Rule>, dom: nat, next: nat, name: nat)
    requires AllGood(a, dom, next, name) && AllGood(b, dom, next, name)
    requires forall r :: r in c ==> Good(r, dom, next, name)
    ensures AllGood(a + b + c, dom, next, name)
  {
  }

  lemma PostJoined(ts: seq<Rule>, low: seq<Rule>, back: seq<Rule>, ps: seq<Rule>, order: seq<Rel>, name: nat,
        nexts: seq<nat>)
    requires ts == low + back + Toggle(order, name) && Ordered(order) && |nexts| == |order|
    requires forall i :: 0 <= i < |ps| ==> ps[i].head.rel in order
    requires forall k :: 0 <= k < |order| ==> HasRules(ps, order[k])
    requires forall i :: 0 <= i < |ps| ==> Low(ps[i], order, name) in low
    requires forall r :: r in low ==> IsLow(r, ps, order, name)
    requires forall i, j :: 0 <= i < |order| && 0 <= j < 3 ==> WriteBack(order, name, i, nexts[i])[j] in back
    requires forall r :: r in back ==> IsWriteBack(r, order, name, nexts)
    ensures Post(ts, ps, order, name, nexts)
  {
    forall j | 0 <= j < 2 ensures Toggle(order, name)[j] in ts { assert Toggle(order, name)[j] in Toggle(order, name); }
  }

  lemma ToggleGood(order: seq<Rel>, name: nat, dom: nat, next: nat)
    ensures forall r :: r in Toggle(order, name) ==> Good(r, dom, next, name + |order| + 1)
  {
    var t := Ticking(order, name);
    assert FormOk(t, dom) && Below(t, next) && NamesBelow(t, name + |order| + 1);
    assert FormOk(Not(t), dom) && Below(Not(t), next) && NamesBelow(Not(t), name + |order| + 1);
    forall r | r in Toggle(order, name) ensures Good(r, dom, next, name + |order| + 1) {
      assert r == Toggle(order, name)[0] || r == Toggle(order, name)[1];
    }
  }

  // ----- the whole transformation

  /** A step of ss is p steps of out. */
  ghost predicate Powered(ss: seq<Rule>, out: seq<Rule>, dom: nat, p: nat) {
    forall d :: PStep(ss, d, dom) == PRun(out, d, dom, p)
  }

  lemma {:induction false} PRunPower(ss: seq<Rule>, rs: seq<Rule>, db: Db, dom: nat, p: nat, n: nat, m: nat)
    requires Powered(ss, rs, dom, p) && m == n * p
    ensures PRun(ss, db, dom, n) == PRun(rs, db, dom, m)
    decreases n
  {
    if n > 0 {
      assert m - p == (n - 1) * p;
      PRunPower(ss, rs, db, dom, p, n - 1, m - p);
      PRunStep(ss, db, dom, n - 1, n);
      PRunAdd(rs, db, dom, m - p, p, m);
    } else {
      assert m == 0;
    }
  }

  lemma Whole(ts: seq<Rule>, ss: seq<Rule>, out: seq<Rule>, rs: seq<Rule>, order: seq<Rel>, name: nat, nexts: seq<nat>,
      order2: seq<Rel>, name': nat, nexts2: seq<nat>, db: Db, dom: nat, k: nat, n: nat)
    requires Pre(out, rs, order, name, nexts) && AllRulesBelow(rs, name) && AllBelowName(order, name) && k >= 1
    requires Post(ts, ss, order2, name', nexts2) && AllBelowName(order2, name') && name <= name'
    requires RulesOk(out, dom) && RulesOk(rs, dom) && RulesOk(ts, dom) && RulesOk(ss, dom)
    requires Powered(ss, out, dom, Pow2(k))
    requires NoneFrom(db, name) && DbOk(db, dom)
    ensures Part(TmlRun(ts, db, dom, 2 * n), name) == TmlRun(rs, db, dom, n * Pow2(k - 1))
  {
    var m, p := n * Pow2(k - 1), Pow2(k);
    assert n * p == 2 * m;
    assert Part(db, name) == db && Tidy(out, db, name) && NoneFrom(db, name');
    hide Pre, Post, AllRulesBelow, AllBelowName, RulesOk, DbOk, NoneFrom, Powered, Tidy, Part, TmlRun, PRun, Pow2;
    Cycles(ts, ss, order2, name', nexts2, db, dom, n);
    PRunPower(ss, out, db, dom, p, n, 2 * m);
    TwiceSteps(out, rs, order, name, nexts, db, dom, m);
  }

  /** Transforms a program so that each two-step cycle of the clock makes two to the k - 1 steps of the program. */
  method Iterate(rs: seq<Rule>, facts: seq<Rel>, k: nat, name: nat, next: nat, ghost dom: nat)
    returns (ts: seq<Rule>)
    requires RulesOk(rs, dom) && RulesBelow(rs, next) && AllRulesBelow(rs, name) && AllBelowName(facts, name) && k >= 1
    ensures RulesOk(ts, dom)
    ensures forall db, n: nat :: NoneFrom(db, name) && DbOk(db, dom) ==>
      Part(TmlRun(ts, db, dom, 2 * n), name) == TmlRun(rs, db, dom, n * Pow2(k - 1))
    ensures forall db, rel :: !Conflict(ts, db, dom, rel)
  {
    var out, order, nexts, next' := Prepare(rs, facts, name, next, dom);
    var name' := name + 3 * |order|;
    GoodRules(out, dom, next', name');
    forall i | 0 <= i < |out| ensures RuleBelow(out[i], name') { assert Good(out[i], dom, next', name'); }
    var ss, next2 := SquareTimes(out, k, next', dom, name');
    forall i | 0 <= i < |ss| ensures RuleBelow(ss[i], name') { assert RuleBelow(out[i], name'); }
    var order2;
    ghost var nexts2;
    ts, order2, nexts2 := RunByClock(ss, name', next2, dom);
    forall db, n: nat | NoneFrom(db, name) && DbOk(db, dom)
      ensures Part(TmlRun(ts, db, dom, 2 * n), name) == TmlRun(rs, db, dom, n * Pow2(k - 1))
    {
      Whole(ts, ss, out, rs, order, name, nexts, order2, name', nexts2, db, dom, k, n);
    }
    forall db, rel ensures !Conflict(ts, db, dom, rel) { NoConflict(ts, ss, order2, name', nexts2, db, dom, rel); }
  }
}
