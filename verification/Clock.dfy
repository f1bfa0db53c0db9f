/** Running rules that forget inside a program that keeps: a two-step clock with scratch relations. */
module Clock {
  import opened Formula
  import opened Inlining
  import opened Pdatalog

  /** The scratch relation of the k-th relation, and the clock. */
  function Scratch(order: seq<Rel>, name: nat, k: nat): Rel
    requires k < |order|
  {
    Rel(name + k, order[k].arity)
  }

  function Tick(order: seq<Rel>, name: nat): Rel {
    Rel(name + |order|, 0)
  }

  function Ticking(order: seq<Rel>, name: nat): Form {
    Lit(Atom(Tick(order, name), []))
  }

  /** The rule moved to the scratch relation and to the low state of the clock. */
  function Low(r: Rule, order: seq<Rel>, name: nat): Rule
    requires r.head.rel in order
  {
    Rule(false, Atom(Scratch(order, name, Index(order, r.head.rel)), r.head.args),
      Bin(And, r.body, Not(Ticking(order, name))))
  }

  /** In the high state a relation becomes its scratch relation, which is emptied. */
  function WriteBack(order: seq<Rel>, name: nat, k: nat, next: nat): seq<Rule>
    requires k < |order|
  {
    var args := General(order[k], next).args;
    var scratch := Lit(Atom(Scratch(order, name, k), args));
    [ Rule(false, Atom(order[k], args), Bin(And, scratch, Ticking(order, name))),
      Rule(true, Atom(order[k], args), Bin(And, Not(scratch), Ticking(order, name))),
      Rule(true, Atom(Scratch(order, name, k), args), Ticking(order, name)) ]
  }

  function Toggle(order: seq<Rel>, name: nat): seq<Rule> {
    var tick := Atom(Tick(order, name), []);
    [ Rule(false, tick, Not(Ticking(order, name))), Rule(true, tick, Ticking(order, name)) ]
  }

  ghost predicate IsLow(r: Rule, ps: seq<Rule>, order: seq<Rel>, name: nat)
    requires forall i :: 0 <= i < |ps| ==> ps[i].head.rel in order
  {
    exists i :: 0 <= i < |ps| && r == Low(ps[i], order, name)
  }

  ghost predicate IsWriteBack(r: Rule, order: seq<Rel>, name: nat, nexts: seq<nat>)
    requires |nexts| == |order|
  {
    exists k :: 0 <= k < |order| && r in WriteBack(order, name, k, nexts[k])
  }

  /** ts holds exactly the low rules, the write-back rules of every relation, and the clock. */
  ghost predicate Post(ts: seq<Rule>, ps: seq<Rule>, order: seq<Rel>, name: nat, nexts: seq<nat>) {
    && Ordered(order) && |nexts| == |order|
    && (forall i :: 0 <= i < |ps| ==> ps[i].head.rel in order)
    && (forall k :: 0 <= k < |order| ==> HasRules(ps, order[k]))
    && (forall i :: 0 <= i < |ps| ==> Low(ps[i], order, name) in ts)
    && (forall k, j :: 0 <= k < |order| && 0 <= j < 3 ==> WriteBack(order, name, k, nexts[k])[j] in ts)
    && (forall j :: 0 <= j < 2 ==> Toggle(order, name)[j] in ts)
    && (forall r :: r in ts ==>
       IsLow(r, ps, order, name) || IsWriteBack(r, order, name, nexts) || r in Toggle(order, name))
  }

  ghost predicate High(db: Db, order: seq<Rel>, name: nat) {
    Fact(Tick(order, name), []) in db
  }

  lemma TickMeans(order: seq<Rel>, name: nat, env: Env, db: Db, dom: nat)
    ensures Eval(Ticking(order, name), env, db, dom) <==> High(db, order, name)
    ensures Eval(Not(Ticking(order, name)), env, db, dom) <==> !High(db, order, name)
  {
    assert Values([], env) == [];
    assert Eval(Not(Ticking(order, name)), env, db, dom) == !Eval(Ticking(order, name), env, db, dom);
  }

  lemma AndMeans(f: Form, g: Form, env: Env, db: Db, dom: nat)
    ensures Eval(Bin(And, f, g), env, db, dom) <==> Eval(f, env, db, dom) && Eval(g, env, db, dom)
  {
  }

  // ----- what each kind of rule derives

  lemma LowFires(r: Rule, order: seq<Rel>, name: nat, db: Db, dom: nat, k: nat, t: Tuple)
    requires r.head.rel in order && Ordered(order) && k < |order|
    ensures Fires(Low(r, order, name), db, dom, Fact(Scratch(order, name, k), t))
      <==> !High(db, order, name) && Fires(r, db, dom, Fact(order[k], t))
  {
    var j := Index(order, r.head.rel);
    if Fires(r, db, dom, Fact(order[k], t)) { assert order[j] == order[k]; }
    if j == k {
      forall env: Env
        ensures FiresWith(Low(r, order, name), db, dom, Fact(Scratch(order, name, k), t), env)
          <==> !High(db, order, name) && FiresWith(r, db, dom, Fact(order[k], t), env)
      {
        TickMeans(order, name, env, db, dom);
        AndMeans(r.body, Not(Ticking(order, name)), env, db, dom);
      }
    }
  }

  lemma WriteBackFires(order: seq<Rel>, name: nat, k: nat, next: nat, db: Db, dom: nat, t: Tuple)
    requires k < |order| && FactOk(Fact(order[k], t), dom)
    ensures var w := WriteBack(order, name, k, next);
      var s := Fact(Scratch(order, name, k), t);
      && (Fires(w[0], db, dom, Fact(order[k], t)) <==> High(db, order, name) && s in db)
      && (Fires(w[1], db, dom, Fact(order[k], t)) <==> High(db, order, name) && s !in db)
      && (Fires(w[2], db, dom, s) <==> High(db, order, name))
  {
    var w := WriteBack(order, name, k, next);
    var s := Fact(Scratch(order, name, k), t);
    var scratch := Lit(Atom(s.rel, w[0].head.args));
    forall env: Env | Values(w[0].head.args, env) == t
      ensures Eval(w[0].body, env, db, dom) <==> High(db, order, name) && s in db
      ensures Eval(w[1].body, env, db, dom) <==> High(db, order, name) && s !in db
      ensures Eval(w[2].body, env, db, dom) <==> High(db, order, name)
    {
      TickMeans(order, name, env, db, dom);
      assert Eval(scratch, env, db, dom) <==> s in db;
      assert Eval(Not(scratch), env, db, dom) == !Eval(scratch, env, db, dom);
      AndMeans(scratch, Ticking(order, name), env, db, dom);
      AndMeans(Not(scratch), Ticking(order, name), env, db, dom);
    }
    GeneralFires(w[0], next, db, dom, Fact(order[k], t), High(db, order, name) && s in db);
    GeneralFires(w[1], next, db, dom, Fact(order[k], t), High(db, order, name) && s !in db);
    GeneralFires(w[2], next, db, dom, s, High(db, order, name));
  }

  lemma ToggleFires(order: seq<Rel>, name: nat, db: Db, dom: nat)
    ensures var u := Fact(Tick(order, name), []);
      && (Fires(Toggle(order, name)[0], db, dom, u) <==> !High(db, order, name))
      && (Fires(Toggle(order, name)[1], db, dom, u) <==> High(db, order, name))
  {
    var u := Fact(Tick(order, name), []);
    TickMeans(order, name, map[], db, dom);
    assert Values([], map[]) == [];
    if !High(db, order, name) { assert FiresWith(Toggle(order, name)[0], db, dom, u, map[]); }
    if High(db, order, name) { assert FiresWith(Toggle(order, name)[1], db, dom, u, map[]); }
    forall env: Env
      ensures FiresWith(Toggle(order, name)[0], db, dom, u, env) ==> !High(db, order, name)
    {
      TickMeans(order, name, env, db, dom);
    }
    forall env: Env
      ensures FiresWith(Toggle(order, name)[1], db, dom, u, env) ==> High(db, order, name)
    {
      TickMeans(order, name, env, db, dom);
    }
  }

  // ----- what the clocked program derives for each relation

  lemma BackHead(r: Rule, order: seq<Rel>, name: nat, nexts: seq<nat>) returns (j: nat)
    requires |nexts| == |order| && IsWriteBack(r, order, name, nexts)
    ensures j < |order| && r in WriteBack(order, name, j, nexts[j])
    ensures r.head.rel == if r == WriteBack(order, name, j, nexts[j])[2] then Scratch(order, name, j) else order[j]
  {
    j :| 0 <= j < |order| && r in WriteBack(order, name, j, nexts[j]);
    var w := WriteBack(order, name, j, nexts[j]);
    assert r == w[0] || r == w[1] || r == w[2];
  }

  lemma LowHead(r: Rule, ps: seq<Rule>, order: seq<Rel>, name: nat)
    requires (forall i :: 0 <= i < |ps| ==> ps[i].head.rel in order) && IsLow(r, ps, order, name)
    ensures name <= r.head.rel.name < name + |order|
  {
  }

  lemma ToggleHead(r: Rule, order: seq<Rel>, name: nat)
    requires r in Toggle(order, name)
    ensures r.head.rel == Tick(order, name)
  {
  }

  /** Every rule is of one of the three kinds. */
  lemma KindOf(ts: seq<Rule>, ps: seq<Rule>, order: seq<Rel>, name: nat, nexts: seq<nat>, r: Rule)
    requires Post(ts, ps, order, name, nexts) && r in ts
    ensures Ordered(order) && |nexts| == |order|
    ensures forall i :: 0 <= i < |ps| ==> ps[i].head.rel in order
    ensures IsLow(r, ps, order, name) || IsWriteBack(r, order, name, nexts) || r in Toggle(order, name)
  {
  }

  lemma OfRelation(ts: seq<Rule>, ps: seq<Rule>, order: seq<Rel>, name: nat, nexts: seq<nat>, k: nat, r: Rule)
    requires Post(ts, ps, order, name, nexts) && AllBelowName(order, name) && k < |order|
    requires r in ts && r.head.rel == order[k]
    ensures r == WriteBack(order, name, k, nexts[k])[0] || r == WriteBack(order, name, k, nexts[k])[1]
  {
    KindOf(ts, ps, order, name, nexts, r);
    hide Post, IsLow, IsWriteBack, Toggle;
    if IsWriteBack(r, order, name, nexts) {
      var j := BackHead(r, order, name, nexts);
    } else if r in Toggle(order, name) {
      ToggleHead(r, order, name);
    } else {
      LowHead(r, ps, order, name);
    }
  }

  lemma OfScratch(ts: seq<Rule>, ps: seq<Rule>, order: seq<Rel>, name: nat, nexts: seq<nat>, k: nat, r: Rule)
    requires Post(ts, ps, order, name, nexts) && AllBelowName(order, name) && k < |order|
    requires r in ts && r.head.rel == Scratch(order, name, k)
    ensures r == WriteBack(order, name, k, nexts[k])[2] || IsLow(r, ps, order, name)
  {
    KindOf(ts, ps, order, name, nexts, r);
    hide Post, IsLow, IsWriteBack, Toggle;
    if IsWriteBack(r, order, name, nexts) {
      var j := BackHead(r, order, name, nexts);
    } else if r in Toggle(order, name) {
      ToggleHead(r, order, name);
    }
  }

  lemma InPost(ts: seq<Rule>, ps: seq<Rule>, order: seq<Rel>, name: nat, nexts: seq<nat>, k: nat)
    requires Post(ts, ps, order, name, nexts) && k < |order|
    ensures var w := WriteBack(order, name, k, nexts[k]); w[0] in ts && w[1] in ts && w[2] in ts
  {
    var w := WriteBack(order, name, k, nexts[k]);
    assert WriteBack(order, name, k, nexts[k])[0] in ts && WriteBack(order, name, k, nexts[k])[1] in ts
      && WriteBack(order, name, k, nexts[k])[2] in ts;
  }

  lemma RelationSigned(ts: seq<Rule>, ps: seq<Rule>, order: seq<Rel>, name: nat, nexts: seq<nat>, db: Db, dom: nat,
        k: nat, t: Tuple)
    requires Post(ts, ps, order, name, nexts) && AllBelowName(order, name) && k < |order|
    requires FactOk(Fact(order[k], t), dom)
    ensures var u, s := Fact(order[k], t), Fact(Scratch(order, name, k), t);
      && (SomeSigned(ts, false, db, dom, u) <==> High(db, order, name) && s in db)
      && (SomeSigned(ts, true, db, dom, u) <==> High(db, order, name) && s !in db)
  {
    var u := Fact(order[k], t);
    var w := WriteBack(order, name, k, nexts[k]);
    hide Post, High;
    WriteBackFires(order, name, k, nexts[k], db, dom, t);
    InPost(ts, ps, order, name, nexts, k);
    forall r | r in ts && Fires(r, db, dom, u) ensures r == w[0] || r == w[1] {
      OfRelation(ts, ps, order, name, nexts, k, r);
    }
  }

  lemma LowSigned(ts: seq<Rule>, ps: seq<Rule>, order: seq<Rel>, name: nat, nexts: seq<nat>, db: Db, dom: nat, k: nat,
        t: Tuple)
    requires Post(ts, ps, order, name, nexts) && k < |order|
    ensures (exists r :: r in ts && IsLow(r, ps, order, name) && Fires(r, db, dom, Fact(Scratch(order, name, k), t)))
      <==> !High(db, order, name) && SomeFires(ps, db, dom, Fact(order[k], t))
    ensures forall r :: IsLow(r, ps, order, name) ==> !r.neg
  {
    var u, s := Fact(order[k], t), Fact(Scratch(order, name, k), t);
    forall i | 0 <= i < |ps|
      ensures Fires(Low(ps[i], order, name), db, dom, s) <==> !High(db, order, name) && Fires(ps[i], db, dom, u)
    {
      LowFires(ps[i], order, name, db, dom, k, t);
    }
    if !High(db, order, name) && SomeFires(ps, db, dom, u) {
      var i :| 0 <= i < |ps| && Fires(ps[i], db, dom, u);
      assert Low(ps[i], order, name) in ts && IsLow(Low(ps[i], order, name), ps, order, name);
    }
  }

  lemma ScratchSigned(ts: seq<Rule>, ps: seq<Rule>, order: seq<Rel>, name: nat, nexts: seq<nat>, db: Db, dom: nat,
        k: nat, t: Tuple)
    requires Post(ts, ps, order, name, nexts) && AllBelowName(order, name) && k < |order|
    requires FactOk(Fact(order[k], t), dom)
    ensures var u, s := Fact(order[k], t), Fact(Scratch(order, name, k), t);
      && (SomeSigned(ts, false, db, dom, s) <==> !High(db, order, name) && SomeFires(ps, db, dom, u))
      && (SomeSigned(ts, true, db, dom, s) <==> High(db, order, name))
  {
    hide High, SomeFires;
    var s := Fact(Scratch(order, name, k), t);
    var w := WriteBack(order, name, k, nexts[k]);
    WriteBackFires(order, name, k, nexts[k], db, dom, t);
    InPost(ts, ps, order, name, nexts, k);
    LowSigned(ts, ps, order, name, nexts, db, dom, k, t);
    forall r | r in ts && Fires(r, db, dom, s) ensures r == w[2] || IsLow(r, ps, order, name) {
      OfScratch(ts, ps, order, name, nexts, k, r);
    }
  }

  lemma OfTick(ts: seq<Rule>, ps: seq<Rule>, order: seq<Rel>, name: nat, nexts: seq<nat>, r: Rule)
    requires Post(ts, ps, order, name, nexts) && AllBelowName(order, name) && r in ts && r.head.rel == Tick(order, name)
    ensures r in Toggle(order, name)
  {
    KindOf(ts, ps, order, name, nexts, r);
    hide Post, IsLow, IsWriteBack, Toggle;
    if IsWriteBack(r, order, name, nexts) { var j := BackHead(r, order, name, nexts); }
    if IsLow(r, ps, order, name) { LowHead(r, ps, order, name); }
  }

  lemma TickSigned(ts: seq<Rule>, ps: seq<Rule>, order: seq<Rel>, name: nat, nexts: seq<nat>, db: Db, dom: nat)
    requires Post(ts, ps, order, name, nexts) && AllBelowName(order, name)
    ensures var u := Fact(Tick(order, name), []);
      && (SomeSigned(ts, false, db, dom, u) <==> !High(db, order, name))
      && (SomeSigned(ts, true, db, dom, u) <==> High(db, order, name))
  {
    var u := Fact(Tick(order, name), []);
    ToggleFires(order, name, db, dom);
    assert Toggle(order, name)[0] in ts && Toggle(order, name)[1] in ts;
    hide Post, High;
    forall r | r in ts && Fires(r, db, dom, u) ensures r in Toggle(order, name) {
      OfTick(ts, ps, order, name, nexts, r);
    }
  }

  /** No rule is about any other relation. */
  lemma OtherSigned(ts: seq<Rule>, ps: seq<Rule>, order: seq<Rel>, name: nat, nexts: seq<nat>, db: Db, dom: nat,
        u: Fact, neg: bool)
    requires Post(ts, ps, order, name, nexts) && u.rel !in order && u.rel != Tick(order, name)
    requires forall k :: 0 <= k < |order| ==> u.rel != Scratch(order, name, k)
    ensures !SomeSigned(ts, neg, db, dom, u)
  {
    forall r | r in ts ensures !Fires(r, db, dom, u) {
      if IsWriteBack(r, order, name, nexts) { var j := BackHead(r, order, name, nexts); }
    }
  }

  // ----- one cycle of the clock

  lemma TmlStepOk(rs: seq<Rule>, db: Db, dom: nat)
    requires RulesOk(rs, dom) && DbOk(db, dom)
    ensures DbOk(TmlStep(rs, db, dom), dom)
  {
    forall u: Fact | u in TmlStep(rs, db, dom) ensures FactOk(u, dom) {
      if u !in db {
        var r :| r in rs && !r.neg && Fires(r, db, dom, u);
        var i :| 0 <= i < |rs| && rs[i] == r;
        FiresOk(r, db, dom, u);
      }
    }
  }

  lemma NotOk(rs: seq<Rule>, neg: bool, db: Db, dom: nat, u: Fact)
    requires RulesOk(rs, dom) && !FactOk(u, dom)
    ensures !SomeSigned(rs, neg, db, dom, u)
  {
    forall r | r in rs ensures !Fires(r, db, dom, u) {
      var i :| 0 <= i < |rs| && rs[i] == r;
      if Fires(r, db, dom, u) { FiresOk(r, db, dom, u); }
    }
  }

  /** The state between the two steps: relations as before, scratch relations filled, the clock high. */
  ghost predicate Middle(mid: Db, db: Db, ps: seq<Rule>, order: seq<Rel>, name: nat, dom: nat) {
    && High(mid, order, name) && DbOk(mid, dom)
    && (forall u: Fact :: u.rel.name < name ==> (u in mid <==> u in db))
    && (forall k, t :: 0 <= k < |order| && FactOk(Fact(order[k], t), dom) ==>
      (Fact(Scratch(order, name, k), t) in mid <==> SomeFires(ps, db, dom, Fact(order[k], t))))
    && (forall u: Fact :: u in mid && u.rel.name >= name ==> OfClock(u.rel, order, name))
  }

  predicate OfClock(rel: Rel, order: seq<Rel>, name: nat) {
    rel == Tick(order, name) || exists k :: 0 <= k < |order| && rel == Scratch(order, name, k)
  }

  lemma LowStep(ts: seq<Rule>, ps: seq<Rule>, order: seq<Rel>, name: nat, nexts: seq<nat>, db: Db, dom: nat)
    requires Post(ts, ps, order, name, nexts) && AllBelowName(order, name) && RulesOk(ts, dom)
    requires NoneFrom(db, name) && DbOk(db, dom)
    ensures Middle(TmlStep(ts, db, dom), db, ps, order, name, dom)
  {
    var mid := TmlStep(ts, db, dom);
    TmlStepOk(ts, db, dom);
    assert !High(db, order, name);
    TickSigned(ts, ps, order, name, nexts, db, dom);
    forall k, t | 0 <= k < |order| && FactOk(Fact(order[k], t), dom)
      ensures Fact(Scratch(order, name, k), t) in mid <==> SomeFires(ps, db, dom, Fact(order[k], t))
    {
      ScratchSigned(ts, ps, order, name, nexts, db, dom, k, t);
    }
    forall u: Fact | u.rel.name < name ensures u in mid <==> u in db {
      Untouched(ts, ps, order, name, nexts, db, dom, u);
    }
    forall u: Fact | u in mid && u.rel.name >= name ensures OfClock(u.rel, order, name) {
      if !OfClock(u.rel, order, name) { OtherSigned(ts, ps, order, name, nexts, db, dom, u, false); }
    }
  }

  /** In the low state nothing happens to the relations themselves. */
  lemma Untouched(ts: seq<Rule>, ps: seq<Rule>, order: seq<Rel>, name: nat, nexts: seq<nat>, db: Db, dom: nat, u: Fact)
    requires Post(ts, ps, order, name, nexts) && AllBelowName(order, name) && RulesOk(ts, dom)
    requires !High(db, order, name) && u.rel.name < name
    ensures !SomeSigned(ts, false, db, dom, u) && !SomeSigned(ts, true, db, dom, u)
  {
    if !FactOk(u, dom) {
      NotOk(ts, false, db, dom, u); NotOk(ts, true, db, dom, u);
    } else if u.rel in order {
      RelationSigned(ts, ps, order, name, nexts, db, dom, Index(order, u.rel), u.args);
    } else {
      OtherSigned(ts, ps, order, name, nexts, db, dom, u, false);
      OtherSigned(ts, ps, order, name, nexts, db, dom, u, true);
    }
  }

  lemma HighStepAt(ts: seq<Rule>, ps: seq<Rule>, order: seq<Rel>, name: nat, nexts: seq<nat>, db: Db, mid: Db,
        dom: nat, u: Fact)
    requires Post(ts, ps, order, name, nexts) && AllBelowName(order, name) && RulesOk(ts, dom)
    requires NoneFrom(db, name) && DbOk(db, dom) && Middle(mid, db, ps, order, name, dom) && FactOk(u, dom)
    ensures u in TmlStep(ts, mid, dom) <==> u in PStep(ps, db, dom)
  {
    if u.rel in order {
      var k := Index(order, u.rel);
      RelationSigned(ts, ps, order, name, nexts, mid, dom, k, u.args);
      assert HasRules(ps, order[k]);
      assert u == Fact(order[k], u.args);
    } else {
      assert !HasRules(ps, u.rel);
      if u.rel == Tick(order, name) {
        TickSigned(ts, ps, order, name, nexts, mid, dom);
        assert u == Fact(Tick(order, name), []);
      } else if k :| 0 <= k < |order| && u.rel == Scratch(order, name, k) {
        assert FactOk(Fact(order[k], u.args), dom);
        ScratchSigned(ts, ps, order, name, nexts, mid, dom, k, u.args);
      } else {
        OtherSigned(ts, ps, order, name, nexts, mid, dom, u, false);
        OtherSigned(ts, ps, order, name, nexts, mid, dom, u, true);
        assert !OfClock(u.rel, order, name);
      }
    }
  }

  /** One cycle of the clock is one step of the rules that forget, and leaves no trace. */
  lemma Cycle(ts: seq<Rule>, ps: seq<Rule>, order: seq<Rel>, name: nat, nexts: seq<nat>, db: Db, dom: nat)
    requires Post(ts, ps, order, name, nexts) && AllBelowName(order, name) && RulesOk(ts, dom) && RulesOk(ps, dom)
    requires NoneFrom(db, name) && DbOk(db, dom)
    ensures TmlStep(ts, TmlStep(ts, db, dom), dom) == PStep(ps, db, dom)
    ensures NoneFrom(PStep(ps, db, dom), name) && DbOk(PStep(ps, db, dom), dom)
  {
    var mid := TmlStep(ts, db, dom);
    var end := TmlStep(ts, mid, dom);
    LowStep(ts, ps, order, name, nexts, db, dom);
    TmlStepOk(ts, mid, dom);
    PStepOk(ps, db, dom);
    forall u: Fact ensures u in end <==> u in PStep(ps, db, dom) {
      if FactOk(u, dom) { HighStepAt(ts, ps, order, name, nexts, db, mid, dom, u); }
    }
    forall u: Fact | u in PStep(ps, db, dom) ensures u.rel.name < name {
      if HasRules(ps, u.rel) {
        var i :| 0 <= i < |ps| && ps[i].head.rel == u.rel;
        var k := Index(order, ps[i].head.rel);
      }
    }
  }

  /** The clocked program never conflicts. */
  lemma NoConflict(ts: seq<Rule>, ps: seq<Rule>, order: seq<Rel>, name: nat, nexts: seq<nat>, db: Db, dom: nat,
        rel: Rel)
    requires Post(ts, ps, order, name, nexts) && AllBelowName(order, name) && RulesOk(ts, dom)
    ensures !Conflict(ts, db, dom, rel)
  {
    if u: Fact :| u.rel == rel && SomeSigned(ts, false, db, dom, u) {
      if !FactOk(u, dom) { NotOk(ts, false, db, dom, u); }
      if rel in order {
        RelationSigned(ts, ps, order, name, nexts, db, dom, Index(order, rel), u.args);
      } else if rel == Tick(order, name) {
        TickSigned(ts, ps, order, name, nexts, db, dom);
        assert u == Fact(Tick(order, name), []);
      } else if k :| 0 <= k < |order| && rel == Scratch(order, name, k) {
        assert FactOk(Fact(order[k], u.args), dom);
        ScratchSigned(ts, ps, order, name, nexts, db, dom, k, u.args);
      } else {
        OtherSigned(ts, ps, order, name, nexts, db, dom, u, false);
      }
    }
  }

  lemma {:induction false} Cycles(ts: seq<Rule>, ps: seq<Rule>, order: seq<Rel>, name: nat, nexts: seq<nat>, db: Db,
        dom: nat, n: nat)
    requires Post(ts, ps, order, name, nexts) && AllBelowName(order, name) && RulesOk(ts, dom) && RulesOk(ps, dom)
    requires NoneFrom(db, name) && DbOk(db, dom)
    ensures TmlRun(ts, db, dom, 2 * n) == PRun(ps, db, dom, n)
    ensures NoneFrom(PRun(ps, db, dom, n), name) && DbOk(PRun(ps, db, dom, n), dom)
  {
    if n > 0 {
      Cycles(ts, ps, order, name, nexts, db, dom, n - 1);
      var d := PRun(ps, db, dom, n - 1);
      Cycle(ts, ps, order, name, nexts, d, dom);
      TmlRunStep(ts, db, dom, 2 * (n - 1), 2 * n - 1);
      TmlRunStep(ts, db, dom, 2 * n - 1, 2 * n);
    }
  }

  lemma TmlRunStep(rs: seq<Rule>, db: Db, dom: nat, n: nat, m: nat)
    requires m == n + 1
    ensures TmlRun(rs, db, dom, m) == TmlStep(rs, TmlRun(rs, db, dom, n), dom)
  {
  }
}
