/** Datalog rules with negation, their meaning, and their compiled form. */
module Datalog {

  type Tuple = seq<nat>
  type DB = seq<set<Tuple>>
  type Sub = map<int, nat>

  /** Arguments: negative numbers are variables, the others are symbols. */
  datatype Term =
    | Rel(neg: bool, tab: nat, args: seq<int>)
    | Eq(neg: bool, x: int, y: int)
    | Leq(neg: bool, x: int, y: int)
  {
    function Arguments(): seq<int> {
      if Rel? then args else [x, y]
    }
  }

  datatype Head = Head(neg: bool, tab: nat, args: seq<int>)
  datatype Rule = Rule(head: Head, alts: seq<seq<Term>>)

  function Contents(db: DB, tab: nat): set<Tuple> {
    if tab < |db| then db[tab] else {}
  }

  predicate Covers(s: Sub, args: seq<int>) {
    forall x :: x in args && x < 0 ==> x in s
  }

  function Val(s: Sub, x: int): nat
    requires x < 0 ==> x in s
  {
    if x < 0 then s[x] else x
  }

  function Inst(s: Sub, args: seq<int>): Tuple
    requires Covers(s, args)
  {
    seq(|args|, i requires 0 <= i < |args| => assert args[i] in args; Val(s, args[i]))
  }

  /** Numbers are tagged in their two lowest bits. */
  predicate IsNum(v: nat) {
    v % 4 == 2
  }

  predicate Tagged(s: Sub, x: int)
    requires x < 0 ==> x in s
  {
    x < 0 ==> IsNum(s[x])
  }

  /** A literal under a substitution. Comparing a variable forces its value to be a number, even under negation. */
  predicate Holds(t: Term, s: Sub, db: DB)
    requires Covers(s, t.Arguments())
  {
    match t
    case Rel(neg, tab, args) => (Inst(s, args) in Contents(db, tab)) != neg
    case Eq(neg, x, y) =>
      assert x in t.Arguments() && y in t.Arguments();
      (Val(s, x) == Val(s, y)) != neg
    case Leq(neg, x, y) =>
      assert x in t.Arguments() && y in t.Arguments();
      (Val(s, x) <= Val(s, y)) != neg && (x != y ==> Tagged(s, x) && Tagged(s, y))
  }

  predicate CoversAll(s: Sub, al: seq<Term>) {
    forall t :: t in al ==> Covers(s, t.Arguments())
  }

  predicate AllHold(al: seq<Term>, s: Sub, db: DB)
    requires CoversAll(s, al)
  {
    forall t :: t in al ==> Holds(t, s, db)
  }

  predicate InDomain(s: Sub, dom: nat) {
    forall x :: x in s ==> s[x] < dom
  }

  /** The tuple is an instance of the head whose body holds. */
  ghost predicate FiresWith(dom: nat, h: seq<int>, al: seq<Term>, db: DB, u: Tuple, s: Sub) {
    InDomain(s, dom) && Covers(s, h) && CoversAll(s, al) && Inst(s, h) == u && AllHold(al, s, db)
  }

  ghost predicate Fires(dom: nat, h: seq<int>, al: seq<Term>, db: DB, u: Tuple) {
    exists s: Sub :: FiresWith(dom, h, al, db, u, s)
  }

  ghost predicate Derived(dom: nat, r: Rule, db: DB, u: Tuple) {
    exists i :: 0 <= i < |r.alts| && Fires(dom, r.head.args, r.alts[i], db, u)
  }

  // ----- valuations of the positions of an alternative

  function Vals(dom: nat, len: nat): set<Tuple> {
    if len == 0 then {[]}
    else set v, d | v in Vals(dom, len - 1) && 0 <= d < dom :: v + [d]
  }

  predicate ValOk(v: Tuple, dom: nat, len: nat) {
    |v| == len && forall i :: 0 <= i < len ==> v[i] < dom
  }

  lemma ValsExtend(dom: nat, len: nat, w: Tuple, d: nat)
    requires len > 0 && w in Vals(dom, len - 1) && d < dom
    ensures w + [d] in Vals(dom, len)
  {
  }

  lemma {:induction false} ValsExact(dom: nat, len: nat, v: Tuple)
    ensures v in Vals(dom, len) <==> ValOk(v, dom, len)
    decreases len
  {
    if len > 0 {
      if v in Vals(dom, len) {
        var w, d :| w in Vals(dom, len - 1) && 0 <= d < dom && v == w + [d];
        ValsExact(dom, len - 1, w);
      }
      if ValOk(v, dom, len) {
        var w, d := v[..len - 1], v[len - 1];
        ValsExact(dom, len - 1, w);
        assert v == w + [d] && ValOk(w, dom, len - 1);
        ValsExtend(dom, len, w, d);
      }
    }
  }

  /** Variables of the head sit at their first position there; the others follow. */
  ghost predicate Numbered(vm: map<int, nat>, h: seq<int>, len: nat) {
    && len >= |h|
    && (forall x :: x in vm ==> x < 0 && vm[x] < len && (x in h || vm[x] >= |h|))
    && (forall x, y :: x in vm && y in vm && vm[x] == vm[y] ==> x == y)
    && (forall n :: 0 <= n < |h| ==> FirstAt(vm, h, n))
  }

  predicate FirstAt(vm: map<int, nat>, h: seq<int>, n: nat)
    requires n < |h|
  {
    h[n] < 0 ==> h[n] in vm && vm[h[n]] <= n && h[vm[h[n]]] == h[n]
  }

  ghost predicate VarmapOk(vm: map<int, nat>, h: seq<int>, al: seq<Term>, len: nat) {
    Numbered(vm, h, len) && CoversAll(vm, al)
  }

  /** Numbers the variables of an alternative. */
  method GetVarmap(h: seq<int>, al: seq<Term>) returns (vm: map<int, nat>, len: nat)
    ensures VarmapOk(vm, h, al, len)
  {
    vm := map[];
    for n := 0 to |h|
      invariant forall x :: x in vm ==> x < 0 && vm[x] < n && h[vm[x]] == x
      invariant forall m :: 0 <= m < n ==> FirstAt(vm, h, m)
    {
      ghost var vm0 := vm;
      if h[n] < 0 && h[n] !in vm { vm := vm[h[n] := n]; }
      forall m | 0 <= m <= n ensures FirstAt(vm, h, m) {
        if m < n { assert FirstAt(vm0, h, m); }
      }
    }
    len := |h|;
    for k := 0 to |al|
      invariant Numbered(vm, h, len) && forall j :: 0 <= j < k ==> Covers(vm, al[j].Arguments())
    {
      ghost var vm0 := vm;
      vm, len := NumberArgs(h, al[k].Arguments(), vm, len);
      forall j | 0 <= j < k ensures Covers(vm, al[j].Arguments()) { assert Covers(vm0, al[j].Arguments()); }
    }
  }

  method NumberArgs(h: seq<int>, args: seq<int>, vm0: map<int, nat>, len0: nat) returns (vm: map<int, nat>, len: nat)
    requires Numbered(vm0, h, len0)
    ensures Numbered(vm, h, len) && vm0.Keys <= vm.Keys && Covers(vm, args)
  {
    vm, len := vm0, len0;
    for n := 0 to |args|
      invariant Numbered(vm, h, len) && vm0.Keys <= vm.Keys
      invariant forall m :: 0 <= m < n && args[m] < 0 ==> args[m] in vm
    {
      if args[n] < 0 && args[n] !in vm {
        NumberOne(vm, h, len, args[n]);
        vm, len := vm[args[n] := len], len + 1;
      }
    }
  }

  lemma NumberOne(vm: map<int, nat>, h: seq<int>, len: nat, x: int)
    requires Numbered(vm, h, len) && x < 0 && x !in vm
    ensures Numbered(vm[x := len], h, len + 1)
  {
    var vm' := vm[x := len];
    forall n | 0 <= n < |h| ensures FirstAt(vm', h, n) { assert FirstAt(vm, h, n); }
  }

  ghost function SubOf(vm: map<int, nat>, v: Tuple): Sub
    requires forall x :: x in vm ==> vm[x] < |v|
  {
    map x | x in vm :: v[vm[x]]
  }

  // ----- compiled rules

  /** A symbol, or the position that holds the variable. */
  datatype Arg = Sym(c: nat) | At(n: nat)

  datatype BodyDef = BodyDef(neg: bool, tab: nat, args: seq<Arg>, len: nat)

  datatype AltDef = AltDef(vm: map<int, nat>, len: nat, headLen: nat, rng: set<Tuple>, eq: set<Tuple>, bodies: seq<nat>)

  datatype RuleDef = RuleDef(neg: bool, tab: nat, eq: set<Tuple>, alts: seq<nat>)

  predicate BodyOk(b: BodyDef, len: nat) {
    b.len == len && forall i :: 0 <= i < |b.args| && b.args[i].At? ==> b.args[i].n < len
  }

  function Fetch(args: seq<Arg>, v: Tuple): Tuple
    requires forall i :: 0 <= i < |args| && args[i].At? ==> args[i].n < |v|
  {
    seq(|args|, i requires 0 <= i < |args| => if args[i].Sym? then args[i].c else v[args[i].n])
  }

  predicate BodyHolds(b: BodyDef, v: Tuple, R: set<Tuple>)
    requires BodyOk(b, |v|)
  {
    (Fetch(b.args, v) in R) != b.neg
  }

  /** The valuations under which a body literal holds of a table. */
  function BodyRel(dom: nat, b: BodyDef, R: set<Tuple>): set<Tuple>
    requires BodyOk(b, b.len)
  {
    set v | v in Vals(dom, b.len) && |v| == b.len && BodyHolds(b, v, R)
  }

  function GetBody(t: Term, vm: map<int, nat>, len: nat): (b: BodyDef)
    requires t.Rel? && Covers(vm, t.args) && forall x :: x in vm ==> vm[x] < len
    ensures BodyOk(b, len) && b.tab == t.tab
    ensures forall v: Tuple, db :: |v| == len ==> (BodyHolds(b, v, Contents(db, b.tab)) <==> Holds(t, SubOf(vm, v), db))
  {
    var b := BodyDef(t.neg, t.tab, seq(|t.args|, i requires 0 <= i < |t.args| =>
      assert t.args[i] in t.args; if t.args[i] >= 0 then Sym(t.args[i]) else At(vm[t.args[i]])), len);
    assert forall v: Tuple | |v| == len :: Fetch(b.args, v) == Inst(SubOf(vm, v), t.args);
    b
  }

  // ----- alternatives

  datatype Option<T> = None | Some(value: T)

  predicate AltOk(a: AltDef, bodies: seq<BodyDef>) {
    a.headLen <= a.len && forall k :: k in a.bodies ==> k < |bodies| && BodyOk(bodies[k], a.len)
  }

  /** All body literals of an alternative hold. */
  predicate BodiesHold(refs: seq<nat>, bodies: seq<BodyDef>, v: Tuple, db: DB)
    requires forall k :: k in refs ==> k < |bodies| && BodyOk(bodies[k], |v|)
  {
    forall k :: k in refs ==> BodyHolds(bodies[k], v, Contents(db, bodies[k].tab))
  }

  function AltVals(dom: nat, a: AltDef, bodies: seq<BodyDef>, db: DB): set<Tuple>
    requires AltOk(a, bodies)
  {
    set v | v in Vals(dom, a.len) && |v| == a.len && v in a.rng && v in a.eq && BodiesHold(a.bodies, bodies, v, db)
  }

  /** What an alternative contributes to the head: the valuations cut to the head's positions. */
  function AltRel(dom: nat, a: AltDef, bodies: seq<BodyDef>, db: DB): set<Tuple>
    requires AltOk(a, bodies)
  {
    Cut(AltVals(dom, a, bodies, db), a.headLen)
  }

  function Cut(s: set<Tuple>, n: nat): set<Tuple> {
    set v | v in s && n <= |v| :: v[..n]
  }

  predicate RuleOk(r: RuleDef, alts: seq<AltDef>, bodies: seq<BodyDef>) {
    forall k :: k in r.alts ==> k < |alts| && AltOk(alts[k], bodies)
  }

  function RuleRel(dom: nat, r: RuleDef, alts: seq<AltDef>, bodies: seq<BodyDef>, db: DB): set<Tuple>
    requires RuleOk(r, alts, bodies)
  {
    set u | u in r.eq && exists k :: k in r.alts && u in AltRel(dom, alts[k], bodies, db)
  }

  /** r is what is left of c when the comparison holds. */
  ghost predicate Restricts(dom: nat, t: Term, vm: map<int, nat>, len: nat, c: set<Tuple>, r: set<Tuple>)
    requires Covers(vm, t.Arguments()) && forall x :: x in vm ==> vm[x] < len
  {
    forall v :: ValOk(v, dom, len) ==> (v in r <==> v in c && Holds(t, SubOf(vm, v), []))
  }

  /** The constraint of a comparison between two arguments, or nothing if the alternative can never hold. */
  method HandlerEq(dom: nat, t: Term, vm: map<int, nat>, len: nat, c: set<Tuple>) returns (r: Option<set<Tuple>>)
    requires t.Eq? && Covers(vm, t.Arguments()) && forall x :: x in vm ==> vm[x] < len
    ensures r.None? ==> forall s: Sub, db :: Covers(s, t.Arguments()) ==> !Holds(t, s, db)
    ensures r.Some? ==> Restricts(dom, t, vm, len, c, r.value)
  {
    assert t.x in t.Arguments() && t.y in t.Arguments();
    if t.x == t.y { return if t.neg then None else Some(c); }
    if t.x >= 0 && t.y >= 0 { return if t.neg == (t.x == t.y) then None else Some(c); }
    var q;
    if t.x < 0 && t.y < 0 {
      q := set v | v in Vals(dom, len) && |v| == len && v[vm[t.x]] == v[vm[t.y]];
    } else if t.x < 0 {
      q := set v | v in Vals(dom, len) && |v| == len && v[vm[t.x]] == t.y;
    } else {
      q := set v | v in Vals(dom, len) && |v| == len && v[vm[t.y]] == t.x;
    }
    forall v | ValOk(v, dom, len) ensures v in q <==> Val(SubOf(vm, v), t.x) == Val(SubOf(vm, v), t.y) {
      ValsExact(dom, len, v);
    }
    return Some(if t.neg then c - q else c * q);
  }

  method HandlerLeq(dom: nat, t: Term, vm: map<int, nat>, len: nat, c: set<Tuple>) returns (r: Option<set<Tuple>>)
    requires t.Leq? && Covers(vm, t.Arguments()) && forall x :: x in vm ==> vm[x] < len
    ensures r.None? ==> forall s: Sub, db :: Covers(s, t.Arguments()) ==> !Holds(t, s, db)
    ensures r.Some? ==> Restricts(dom, t, vm, len, c, r.value)
  {
    assert t.x in t.Arguments() && t.y in t.Arguments();
    if t.x == t.y { return if t.neg then None else Some(c); }
    if t.x >= 0 && t.y >= 0 { return if t.neg == (t.x <= t.y) then None else Some(c); }
    var q, num;
    if t.x < 0 && t.y < 0 {
      q := set v | v in Vals(dom, len) && |v| == len && v[vm[t.x]] <= v[vm[t.y]];
      num := set v | v in Vals(dom, len) && |v| == len && IsNum(v[vm[t.x]]) && IsNum(v[vm[t.y]]);
    } else if t.x < 0 {
      q := set v | v in Vals(dom, len) && |v| == len && v[vm[t.x]] <= t.y;
      num := set v | v in Vals(dom, len) && |v| == len && IsNum(v[vm[t.x]]);
    } else {
      q := set v | v in Vals(dom, len) && |v| == len && (!(v[vm[t.y]] <= t.x) || v[vm[t.y]] == t.x);
      num := set v | v in Vals(dom, len) && |v| == len && IsNum(v[vm[t.y]]);
    }
    forall v | ValOk(v, dom, len)
      ensures v in q <==> Val(SubOf(vm, v), t.x) <= Val(SubOf(vm, v), t.y)
      ensures v in num <==> Tagged(SubOf(vm, v), t.x) && Tagged(SubOf(vm, v), t.y)
    {
      ValsExact(dom, len, v);
    }
    return Some((if t.neg then c - q else c * q) * num);
  }

  /** The compiled alternative stands for the list of literals. */
  ghost predicate AltMeans(dom: nat, h: seq<int>, al: seq<Term>, a: AltDef, bodies: seq<BodyDef>)
    requires AltOk(a, bodies)
  {
    && VarmapOk(a.vm, h, al, a.len) && a.headLen == |h|
    && forall v, db :: ValOk(v, dom, a.len) ==> (v in AltVals(dom, a, bodies, db) <==> AllHold(al, SubOf(a.vm, v), db))
  }

  /** The literals compiled so far. */
  ghost predicate PartMeans(dom: nat, al: seq<Term>, n: nat, vm: map<int, nat>, len: nat, rng: set<Tuple>,
        eq: set<Tuple>, refs: seq<nat>, bodies: seq<BodyDef>)
    requires CoversAll(vm, al) && n <= |al| && forall x :: x in vm ==> vm[x] < len
  {
    && (forall k :: k in refs ==> k < |bodies| && BodyOk(bodies[k], len))
    && forall v, db :: PartAt(dom, al, n, vm, len, rng, eq, refs, bodies, v, db)
  }

  ghost predicate PartAt(dom: nat, al: seq<Term>, n: nat, vm: map<int, nat>, len: nat, rng: set<Tuple>, eq: set<Tuple>,
      refs: seq<nat>, bodies: seq<BodyDef>, v: Tuple, db: DB)
    requires CoversAll(vm, al) && n <= |al| && forall x :: x in vm ==> vm[x] < len
    requires forall k :: k in refs ==> k < |bodies| && BodyOk(bodies[k], len)
  {
    ValOk(v, dom, len) ==> (v in rng && v in eq && BodiesHold(refs, bodies, v, db) <==> Upto(al, n, SubOf(vm, v), db))
  }

  ghost predicate Upto(al: seq<Term>, n: nat, s: Sub, db: DB)
    requires CoversAll(s, al) && n <= |al|
  {
    forall i :: 0 <= i < n ==> assert al[i] in al; Holds(al[i], s, db)
  }

  method AddBody(b: BodyDef, bodies0: seq<BodyDef>) returns (k: nat, bodies: seq<BodyDef>)
    ensures bodies0 <= bodies && k < |bodies| && bodies[k] == b
    ensures forall i :: |bodies0| <= i < |bodies| ==> bodies[i] == b
  {
    bodies := bodies0;
    for i := 0 to |bodies0| {
      if bodies0[i] == b { return i, bodies; }
    }
    k, bodies := |bodies0|, bodies0 + [b];
  }

  /** Compiles an alternative. Equal body literals are shared between alternatives. */
  method GetAlt(dom: nat, h: seq<int>, al: seq<Term>, bodies0: seq<BodyDef>)
    returns (r: Option<AltDef>, bodies: seq<BodyDef>)
    ensures bodies0 <= bodies && forall i :: |bodies0| <= i < |bodies| ==> BodyOk(bodies[i], bodies[i].len)
    ensures r.None? ==> forall s: Sub, db :: CoversAll(s, al) ==> !AllHold(al, s, db)
    ensures r.Some? ==> AltOk(r.value, bodies) && AltMeans(dom, h, al, r.value, bodies)
  {
    var vm, len := GetVarmap(h, al);
    var rng, eq, refs := Vals(dom, len), Vals(dom, len), [];
    bodies := bodies0;
    forall v, db ensures PartAt(dom, al, 0, vm, len, rng, eq, refs, bodies, v, db) { ValsExact(dom, len, v); }
    for n := 0 to |al|
      invariant bodies0 <= bodies && forall i :: |bodies0| <= i < |bodies| ==> BodyOk(bodies[i], bodies[i].len)
      invariant PartMeans(dom, al, n, vm, len, rng, eq, refs, bodies)
    {
      assert al[n] in al;
      match al[n] {
        case Rel(_, _, _) =>
          var k;
          ghost var before := bodies;
          k, bodies := AddBody(GetBody(al[n], vm, len), bodies);
          RelStep(dom, al, n, vm, len, rng, eq, refs, before, bodies, k);
          refs := refs + [k];
        case Eq(_, _, _) =>
          var c := HandlerEq(dom, al[n], vm, len, eq);
          if c.None? { return None, bodies; }
          TestStep(dom, al, n, vm, len, rng, eq, rng, c.value, refs, bodies);
          eq := c.value;
        case Leq(_, _, _) =>
          var c := HandlerLeq(dom, al[n], vm, len, rng);
          if c.None? { return None, bodies; }
          TestStep(dom, al, n, vm, len, rng, eq, c.value, eq, refs, bodies);
          rng := c.value;
      }
    }
    r := Some(AltDef(vm, len, |h|, rng, eq, refs));
    AltDone(dom, h, al, r.value, bodies);
  }

  lemma RelStep(dom: nat, al: seq<Term>, n: nat, vm: map<int, nat>, len: nat, rng: set<Tuple>, eq: set<Tuple>,
      refs: seq<nat>, before: seq<BodyDef>, bodies: seq<BodyDef>, k: nat)
    requires CoversAll(vm, al) && n < |al| && al[n] in al && al[n].Rel? && forall x :: x in vm ==> vm[x] < len
    requires PartMeans(dom, al, n, vm, len, rng, eq, refs, before) && before <= bodies
    requires k < |bodies| && bodies[k] == GetBody(al[n], vm, len)
    ensures PartMeans(dom, al, n + 1, vm, len, rng, eq, refs + [k], bodies)
  {
    forall j | j in refs + [k] ensures j < |bodies| && BodyOk(bodies[j], len) { assert j in refs || j == k; }
    var m, refs' := n + 1, refs + [k];
    forall v, db ensures PartAt(dom, al, m, vm, len, rng, eq, refs', bodies, v, db) {
      assert PartAt(dom, al, n, vm, len, rng, eq, refs, before, v, db);
      if ValOk(v, dom, len) {
        assert forall j :: j in refs + [k] <==> j in refs || j == k;
        assert BodyHolds(bodies[k], v, Contents(db, bodies[k].tab)) <==> Holds(al[n], SubOf(vm, v), db);
        assert Upto(al, n + 1, SubOf(vm, v), db) <==> Upto(al, n, SubOf(vm, v), db) && Holds(al[n], SubOf(vm, v), db);
      }
    }
  }

  lemma TestStep(dom: nat, al: seq<Term>, n: nat, vm: map<int, nat>, len: nat, rng: set<Tuple>, eq: set<Tuple>,
      rng': set<Tuple>, eq': set<Tuple>, refs: seq<nat>, bodies: seq<BodyDef>)
    requires CoversAll(vm, al) && n < |al| && al[n] in al && forall x :: x in vm ==> vm[x] < len
    requires PartMeans(dom, al, n, vm, len, rng, eq, refs, bodies)
    requires !al[n].Rel?
    requires (rng' == rng && Restricts(dom, al[n], vm, len, eq, eq')) ||
      (eq' == eq && Restricts(dom, al[n], vm, len, rng, rng'))
    ensures PartMeans(dom, al, n + 1, vm, len, rng', eq', refs, bodies)
  {
    var m := n + 1;
    forall v, db ensures PartAt(dom, al, m, vm, len, rng', eq', refs, bodies, v, db) {
      assert PartAt(dom, al, n, vm, len, rng, eq, refs, bodies, v, db);
      if ValOk(v, dom, len) {
        assert Holds(al[n], SubOf(vm, v), db) == Holds(al[n], SubOf(vm, v), []);
        assert Upto(al, n + 1, SubOf(vm, v), db) <==> Upto(al, n, SubOf(vm, v), db) && Holds(al[n], SubOf(vm, v), db);
      }
    }
  }

  lemma UptoAll(al: seq<Term>, s: Sub, db: DB)
    requires CoversAll(s, al)
    ensures Upto(al, |al|, s, db) <==> AllHold(al, s, db)
  {
    if Upto(al, |al|, s, db) {
      forall t | t in al ensures Holds(t, s, db) {
        var i :| 0 <= i < |al| && al[i] == t;
        assert Holds(al[i], s, db);
      }
    } else {
      var i :| 0 <= i < |al| && !(assert al[i] in al; Holds(al[i], s, db));
      assert al[i] in al;
    }
  }

  lemma AltDone(dom: nat, h: seq<int>, al: seq<Term>, a: AltDef, bodies: seq<BodyDef>)
    requires VarmapOk(a.vm, h, al, a.len) && a.headLen == |h|
    requires PartMeans(dom, al, |al|, a.vm, a.len, a.rng, a.eq, a.bodies, bodies)
    ensures AltOk(a, bodies) && AltMeans(dom, h, al, a, bodies)
  {
    forall v, db | ValOk(v, dom, a.len)
      ensures v in AltVals(dom, a, bodies, db) <==> AllHold(al, SubOf(a.vm, v), db)
    {
      ValsExact(dom, a.len, v);
      assert PartAt(dom, al, |al|, a.vm, a.len, a.rng, a.eq, a.bodies, bodies, v, db);
      UptoAll(al, SubOf(a.vm, v), db);
    }
  }
}
