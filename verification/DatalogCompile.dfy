/** Compiled rules derive exactly what the rules say. */
module DatalogCompile {
  import opened Datalog

  /** The tuple fits the head: its symbols, and equal values for equal variables. */
  predicate HeadMatches(h: seq<int>, u: Tuple) {
    |u| == |h| && (forall n :: 0 <= n < |h| && h[n] >= 0 ==> u[n] == h[n])
    && forall n, m :: 0 <= n < |h| && 0 <= m < |h| && h[n] < 0 && h[n] == h[m] ==> u[n] == u[m]
  }

  /** The constraint of a head, symbol by symbol and repetition by repetition. */
  method HeadEq(dom: nat, h: seq<int>) returns (eq: set<Tuple>)
    ensures forall u :: u in eq <==> ValOk(u, dom, |h|) && HeadMatches(h, u)
  {
    eq := Vals(dom, |h|);
    forall u ensures u in eq <==> ValOk(u, dom, |h|) { ValsExact(dom, |h|, u); }
    var first: map<int, nat> := map[];
    for n := 0 to |h|
      invariant forall x :: x in first ==> first[x] < n && h[first[x]] == x
      invariant forall m :: 0 <= m < n && h[m] < 0 ==> h[m] in first
      invariant forall u :: u in eq <==> ValOk(u, dom, |h|) && MatchesUpto(h, u, n, first)
    {
      if h[n] >= 0 {
        eq := set u | u in eq && |u| == |h| && u[n] == h[n];
      } else if h[n] !in first {
        first := first[h[n] := n];
      } else {
        var m := first[h[n]];
        eq := set u | u in eq && |u| == |h| && u[n] == u[m];
      }
    }
    forall u | ValOk(u, dom, |h|) ensures MatchesUpto(h, u, |h|, first) <==> HeadMatches(h, u) {
      MatchesAll(h, u, first);
    }
  }

  predicate MatchesUpto(h: seq<int>, u: Tuple, n: nat, first: map<int, nat>)
    requires n <= |h|
    requires forall x :: x in first ==> first[x] < n && h[first[x]] == x
    requires forall m :: 0 <= m < n && h[m] < 0 ==> h[m] in first
  {
    |u| == |h| && forall m :: 0 <= m < n ==> if h[m] >= 0 then u[m] == h[m] else u[m] == u[first[h[m]]]
  }

  lemma MatchesAll(h: seq<int>, u: Tuple, first: map<int, nat>)
    requires forall x :: x in first ==> first[x] < |h| && h[first[x]] == x
    requires forall m :: 0 <= m < |h| && h[m] < 0 ==> h[m] in first
    ensures MatchesUpto(h, u, |h|, first) <==> HeadMatches(h, u)
  {
    if MatchesUpto(h, u, |h|, first) {
      forall n, m | 0 <= n < |h| && 0 <= m < |h| && h[n] < 0 && h[n] == h[m] ensures u[n] == u[m] { }
    }
  }

  lemma HoldsAgree(t: Term, s: Sub, s': Sub, db: DB)
    requires Covers(s, t.Arguments()) && Covers(s', t.Arguments())
    requires forall x :: x in t.Arguments() && x < 0 ==> s[x] == s'[x]
    ensures Holds(t, s, db) == Holds(t, s', db)
  {
    if t.Rel? {
      assert Inst(s, t.args) == Inst(s', t.args) by {
        forall i | 0 <= i < |t.args| ensures Inst(s, t.args)[i] == Inst(s', t.args)[i] { assert t.args[i] in t.args; }
      }
    } else {
      assert t.x in t.Arguments() && t.y in t.Arguments();
    }
  }

  // ----- one alternative

  lemma AltFiresOnly(dom: nat, h: seq<int>, al: seq<Term>, a: AltDef, bodies: seq<BodyDef>, db: DB, u: Tuple)
    requires AltOk(a, bodies) && AltMeans(dom, h, al, a, bodies)
    requires u in AltRel(dom, a, bodies, db) && HeadMatches(h, u)
    ensures Fires(dom, h, al, db, u)
  {
    var v :| v in AltVals(dom, a, bodies, db) && v[..a.headLen] == u;
    ValsExact(dom, a.len, v);
    var s := SubOf(a.vm, v);
    forall x | x in h && x < 0 ensures x in s {
      var n :| 0 <= n < |h| && h[n] == x;
      assert FirstAt(a.vm, h, n);
    }
    forall n | 0 <= n < |h| ensures Inst(s, h)[n] == u[n] {
      assert FirstAt(a.vm, h, n);
      if h[n] < 0 { assert u[a.vm[h[n]]] == v[a.vm[h[n]]]; }
    }
    assert Inst(s, h) == u;
    assert FiresWith(dom, h, al, db, u, s);
  }

  /** A valuation that puts the head's tuple first and the substitution's values at the other positions. */
  ghost function Spread(vm: map<int, nat>, len: nat, u: Tuple, s: Sub): Tuple
    requires len >= |u|
  {
    seq(len, p requires 0 <= p < len =>
      if p < |u| then u[p] else if x: int :| x in vm && x in s && vm[x] == p then s[x] else 0)
  }

  lemma AltFiresIf(dom: nat, h: seq<int>, al: seq<Term>, a: AltDef, bodies: seq<BodyDef>, db: DB, u: Tuple)
    requires dom > 0 && AltOk(a, bodies) && AltMeans(dom, h, al, a, bodies) && ValOk(u, dom, |h|)
    requires Fires(dom, h, al, db, u)
    ensures u in AltRel(dom, a, bodies, db)
  {
    var s: Sub :| FiresWith(dom, h, al, db, u, s);
    var v := Spread(a.vm, a.len, u, s);
    assert ValOk(v, dom, a.len);
    forall t | t in al ensures Holds(t, SubOf(a.vm, v), db) {
      assert Covers(s, t.Arguments()) && Covers(a.vm, t.Arguments());
      forall x | x in t.Arguments() && x < 0 ensures SubOf(a.vm, v)[x] == s[x] {
        SpreadAt(h, a.vm, a.len, u, s, x);
      }
      HoldsAgree(t, s, SubOf(a.vm, v), db);
    }
    assert v in AltVals(dom, a, bodies, db);
    assert v[..a.headLen] == u;
  }

  lemma SpreadAt(h: seq<int>, vm: map<int, nat>, len: nat, u: Tuple, s: Sub, x: int)
    requires Numbered(vm, h, len) && Covers(s, h) && Inst(s, h) == u && x in vm && x in s
    ensures Spread(vm, len, u, s)[vm[x]] == s[x]
  {
    if x in h {
      var n :| 0 <= n < |h| && h[n] == x;
      assert FirstAt(vm, h, n);
      assert Inst(s, h)[vm[x]] == Val(s, h[vm[x]]);
    } else {
      assert exists y: int :: y in vm && y in s && vm[y] == vm[x];
    }
  }

  // ----- rules

  /** The compiled rule derives exactly the instances of the head whose body holds. */
  ghost predicate RuleMeans(dom: nat, r: Rule, d: RuleDef, alts: seq<AltDef>, bodies: seq<BodyDef>) {
    && d.neg == r.head.neg && d.tab == r.head.tab && RuleOk(d, alts, bodies)
    && forall db, u :: RuleAt(dom, r, d, alts, bodies, db, u)
  }

  ghost predicate RuleAt(dom: nat, r: Rule, d: RuleDef, alts: seq<AltDef>, bodies: seq<BodyDef>, db: DB, u: Tuple)
    requires RuleOk(d, alts, bodies)
  {
    u in RuleRel(dom, d, alts, bodies, db) <==> Derived(dom, r, db, u)
  }

  /** The symbols of a head lie in the domain. */
  predicate HeadOk(dom: nat, r: Rule) {
    forall n :: 0 <= n < |r.head.args| ==> r.head.args[n] < dom
  }

  /** Every kept alternative is compiled, and every literal list that can hold was kept. */
  ghost predicate AltsMean(dom: nat, h: seq<int>, als: seq<seq<Term>>, n: nat, refs: seq<nat>, alts: seq<AltDef>,
        bodies: seq<BodyDef>)
    requires n <= |als|
  {
    && (forall k :: k in refs ==> k < |alts| && AltOk(alts[k], bodies))
    && (forall k :: k in refs ==> Stands(dom, h, als, n, alts[k], bodies))
    && (forall i :: 0 <= i < n ==> Kept(dom, h, als[i], refs, alts, bodies) || Never(als[i]))
  }

  ghost predicate Stands(dom: nat, h: seq<int>, als: seq<seq<Term>>, n: nat, a: AltDef, bodies: seq<BodyDef>)
    requires n <= |als| && AltOk(a, bodies)
  {
    exists i :: 0 <= i < n && AltMeans(dom, h, als[i], a, bodies)
  }

  ghost predicate Kept(dom: nat, h: seq<int>, al: seq<Term>, refs: seq<nat>, alts: seq<AltDef>, bodies: seq<BodyDef>)
  {
    exists k :: k in refs && k < |alts| && AltOk(alts[k], bodies) && AltMeans(dom, h, al, alts[k], bodies)
  }

  ghost predicate Never(al: seq<Term>) {
    forall s: Sub, db :: CoversAll(s, al) ==> !AllHold(al, s, db)
  }

  lemma RuleOnly(dom: nat, r: Rule, d: RuleDef, alts: seq<AltDef>, bodies: seq<BodyDef>, db: DB, u: Tuple)
    requires RuleOk(d, alts, bodies) && AltsMean(dom, r.head.args, r.alts, |r.alts|, d.alts, alts, bodies)
    requires u in RuleRel(dom, d, alts, bodies, db) && HeadMatches(r.head.args, u)
    ensures Derived(dom, r, db, u)
  {
    var h := r.head.args;
    var k :| k in d.alts && u in AltRel(dom, alts[k], bodies, db);
    assert Stands(dom, h, r.alts, |r.alts|, alts[k], bodies);
    var i :| 0 <= i < |r.alts| && AltMeans(dom, h, r.alts[i], alts[k], bodies);
    AltFiresOnly(dom, h, r.alts[i], alts[k], bodies, db, u);
  }

  lemma RuleIf(dom: nat, r: Rule, refs: seq<nat>, alts: seq<AltDef>, bodies: seq<BodyDef>, db: DB, u: Tuple)
    returns (k: nat)
    requires dom > 0 && HeadOk(dom, r) && Derived(dom, r, db, u)
    requires AltsMean(dom, r.head.args, r.alts, |r.alts|, refs, alts, bodies)
    ensures ValOk(u, dom, |r.head.args|) && HeadMatches(r.head.args, u)
    ensures k in refs && k < |alts| && AltOk(alts[k], bodies) && u in AltRel(dom, alts[k], bodies, db)
  {
    var h := r.head.args;
    var i :| 0 <= i < |r.alts| && Fires(dom, h, r.alts[i], db, u);
    var s: Sub :| FiresWith(dom, h, r.alts[i], db, u, s);
    InstMatches(dom, h, s, u);
    hide AltMeans, AltRel, HeadMatches;
    assert !Never(r.alts[i]) && Kept(dom, h, r.alts[i], refs, alts, bodies);
    k :| k in refs && k < |alts| && AltOk(alts[k], bodies) && AltMeans(dom, h, r.alts[i], alts[k], bodies);
    AltFiresIf(dom, h, r.alts[i], alts[k], bodies, db, u);
  }

  lemma RuleDone(dom: nat, r: Rule, d: RuleDef, alts: seq<AltDef>, bodies: seq<BodyDef>, db: DB, u: Tuple)
    requires dom > 0 && HeadOk(dom, r) && RuleOk(d, alts, bodies)
    requires AltsMean(dom, r.head.args, r.alts, |r.alts|, d.alts, alts, bodies)
    requires forall v :: v in d.eq <==> ValOk(v, dom, |r.head.args|) && HeadMatches(r.head.args, v)
    ensures RuleAt(dom, r, d, alts, bodies, db, u)
  {
    hide AltsMean, AltRel, AltOk, Derived, HeadMatches, ValOk;
    if u in RuleRel(dom, d, alts, bodies, db) { RuleOnly(dom, r, d, alts, bodies, db, u); }
    if Derived(dom, r, db, u) { var k := RuleIf(dom, r, d.alts, alts, bodies, db, u); }
  }

  lemma InstMatches(dom: nat, h: seq<int>, s: Sub, u: Tuple)
    requires Covers(s, h) && InDomain(s, dom) && Inst(s, h) == u && forall n :: 0 <= n < |h| ==> h[n] < dom
    ensures ValOk(u, dom, |h|) && HeadMatches(h, u)
  {
    forall n | 0 <= n < |h| ensures u[n] == Val(s, h[n]) && u[n] < dom { assert h[n] in h; }
  }

  // ----- growth of the lists of definitions

  lemma AltGrow(dom: nat, h: seq<int>, al: seq<Term>, a: AltDef, bodies: seq<BodyDef>, bodies': seq<BodyDef>)
    requires AltOk(a, bodies) && bodies <= bodies'
    ensures AltOk(a, bodies')
    ensures AltMeans(dom, h, al, a, bodies) ==> AltMeans(dom, h, al, a, bodies')
  {
    forall db ensures AltVals(dom, a, bodies, db) == AltVals(dom, a, bodies', db) { }
  }

  lemma AltsGrow(dom: nat, h: seq<int>, als: seq<seq<Term>>, n: nat, refs: seq<nat>,
      alts: seq<AltDef>, bodies: seq<BodyDef>, alts': seq<AltDef>, bodies': seq<BodyDef>)
    requires n <= |als| && AltsMean(dom, h, als, n, refs, alts, bodies) && alts <= alts' && bodies <= bodies'
    ensures AltsMean(dom, h, als, n, refs, alts', bodies')
  {
    forall k, i | k in refs && 0 <= i < n
      ensures AltOk(alts[k], bodies')
      ensures AltMeans(dom, h, als[i], alts[k], bodies) ==> AltMeans(dom, h, als[i], alts[k], bodies')
    {
      AltGrow(dom, h, als[i], alts[k], bodies, bodies');
    }
    forall k | k in refs ensures k < |alts'| && AltOk(alts'[k], bodies') && Stands(dom, h, als, n, alts'[k], bodies') {
      AltGrow(dom, h, [], alts[k], bodies, bodies');
      var i :| 0 <= i < n && AltMeans(dom, h, als[i], alts[k], bodies);
    }
    forall i | 0 <= i < n && Kept(dom, h, als[i], refs, alts, bodies)
      ensures Kept(dom, h, als[i], refs, alts', bodies')
    {
      var k :| k in refs && k < |alts| && AltOk(alts[k], bodies) && AltMeans(dom, h, als[i], alts[k], bodies);
      assert alts'[k] == alts[k];
    }
  }

  lemma RuleGrow(dom: nat, r: Rule, d: RuleDef, alts: seq<AltDef>, bodies: seq<BodyDef>, alts': seq<AltDef>,
        bodies': seq<BodyDef>)
    requires RuleMeans(dom, r, d, alts, bodies) && alts <= alts' && bodies <= bodies'
    ensures RuleMeans(dom, r, d, alts', bodies')
  {
    forall k | k in d.alts
      ensures k < |alts'| && AltOk(alts'[k], bodies')
    {
      AltGrow(dom, [], [], alts[k], bodies, bodies');
    }
    forall db, u ensures RuleAt(dom, r, d, alts', bodies', db, u) {
      assert RuleAt(dom, r, d, alts, bodies, db, u);
      forall k | k in d.alts ensures AltRel(dom, alts[k], bodies, db) == AltRel(dom, alts'[k], bodies', db) {
        assert AltVals(dom, alts[k], bodies, db) == AltVals(dom, alts'[k], bodies', db);
      }
    }
  }

  // ----- compilation

  method AddAlt(a: AltDef, alts0: seq<AltDef>) returns (k: nat, alts: seq<AltDef>)
    ensures alts0 <= alts && k < |alts| && alts[k] == a && forall i :: |alts0| <= i < |alts| ==> alts[i] == a
  {
    alts := alts0;
    for i := 0 to |alts0| {
      if alts0[i] == a { return i, alts; }
    }
    k, alts := |alts0|, alts0 + [a];
  }

  /** All definitions compiled so far are well formed. */
  predicate PoolOk(alts: seq<AltDef>, bodies: seq<BodyDef>) {
    && (forall i :: 0 <= i < |alts| ==> AltOk(alts[i], bodies))
    && (forall i :: 0 <= i < |bodies| ==> BodyOk(bodies[i], bodies[i].len))
  }

  lemma PoolGrow(alts: seq<AltDef>, bodies: seq<BodyDef>, alts': seq<AltDef>, bodies': seq<BodyDef>)
    requires PoolOk(alts, bodies) && alts <= alts' && bodies <= bodies'
    requires forall i :: |bodies| <= i < |bodies'| ==> BodyOk(bodies'[i], bodies'[i].len)
    requires forall i :: |alts| <= i < |alts'| ==> AltOk(alts'[i], bodies')
    ensures PoolOk(alts', bodies')
  {
    forall i | 0 <= i < |alts'| ensures AltOk(alts'[i], bodies') {
      if i < |alts| { assert AltOk(alts[i], bodies); }
    }
  }

  method GetRule(dom: nat, r: Rule, alts0: seq<AltDef>, bodies0: seq<BodyDef>)
    returns (d: RuleDef, alts: seq<AltDef>, bodies: seq<BodyDef>)
    requires dom > 0 && HeadOk(dom, r)
    requires PoolOk(alts0, bodies0)
    ensures alts0 <= alts && bodies0 <= bodies && RuleMeans(dom, r, d, alts, bodies)
    ensures PoolOk(alts, bodies) && d.eq <= Vals(dom, |r.head.args|)
  {
    alts, bodies := alts0, bodies0;
    var h := r.head.args;
    var eq := HeadEq(dom, h);
    var refs := [];
    for i := 0 to |r.alts|
      invariant alts0 <= alts && bodies0 <= bodies && AltsMean(dom, h, r.alts, i, refs, alts, bodies)
      invariant PoolOk(alts, bodies)
    {
      ghost var alts1, bodies1 := alts, bodies;
      var a;
      a, bodies := GetAlt(dom, h, r.alts[i], bodies);
      PoolGrow(alts1, bodies1, alts1, bodies);
      if a.Some? {
        var k;
        k, alts := AddAlt(a.value, alts);
        PoolGrow(alts1, bodies, alts, bodies);
        AltsGrow(dom, h, r.alts, i, refs, alts1, bodies1, alts, bodies);
        AltAdded(dom, h, r.alts, i, refs, alts, bodies, k);
        refs := refs + [k];
      } else {
        AltsGrow(dom, h, r.alts, i, refs, alts1, bodies1, alts, bodies);
        assert Never(r.alts[i]);
      }
    }
    d := RuleDef(r.head.neg, r.head.tab, eq, refs);
    forall db, u ensures RuleAt(dom, r, d, alts, bodies, db, u) { RuleDone(dom, r, d, alts, bodies, db, u); }
    forall u | u in d.eq ensures u in Vals(dom, |h|) { ValsExact(dom, |h|, u); }
  }

  lemma StandsNow(dom: nat, h: seq<int>, als: seq<seq<Term>>, n: nat, m: nat, a: AltDef, bodies: seq<BodyDef>)
    requires n < m <= |als| && AltOk(a, bodies)
    requires Stands(dom, h, als, n, a, bodies) || AltMeans(dom, h, als[n], a, bodies)
    ensures Stands(dom, h, als, m, a, bodies)
  {
  }

  lemma KeptMore(dom: nat, h: seq<int>, al: seq<Term>, refs: seq<nat>, k: nat, alts: seq<AltDef>, bodies: seq<BodyDef>)
    requires Kept(dom, h, al, refs, alts, bodies)
      || (k < |alts| && AltOk(alts[k], bodies) && AltMeans(dom, h, al, alts[k], bodies))
    ensures Kept(dom, h, al, refs + [k], alts, bodies)
  {
    if Kept(dom, h, al, refs, alts, bodies) {
      var j :| j in refs && j < |alts| && AltOk(alts[j], bodies) && AltMeans(dom, h, al, alts[j], bodies);
      assert j in refs + [k];
    } else {
      assert k in refs + [k];
    }
  }

  lemma AltAdded(dom: nat, h: seq<int>, als: seq<seq<Term>>, n: nat, refs: seq<nat>, alts: seq<AltDef>,
        bodies: seq<BodyDef>, k: nat)
    requires n < |als| && AltsMean(dom, h, als, n, refs, alts, bodies)
    requires k < |alts| && AltOk(alts[k], bodies) && AltMeans(dom, h, als[n], alts[k], bodies)
    ensures AltsMean(dom, h, als, n + 1, refs + [k], alts, bodies)
  {
    var m, refs' := n + 1, refs + [k];
    forall j | j in refs' ensures j < |alts| && AltOk(alts[j], bodies) && Stands(dom, h, als, m, alts[j], bodies) {
      assert j in refs || j == k;
      StandsNow(dom, h, als, n, m, alts[j], bodies);
    }
    forall i | 0 <= i < m ensures Kept(dom, h, als[i], refs', alts, bodies) || Never(als[i]) {
      if i == n || Kept(dom, h, als[i], refs, alts, bodies) { KeptMore(dom, h, als[i], refs, k, alts, bodies); }
    }
  }

  ghost predicate ProgramMeans(dom: nat, rs: seq<Rule>, ds: seq<RuleDef>, alts: seq<AltDef>, bodies: seq<BodyDef>) {
    |ds| == |rs| && forall i :: 0 <= i < |rs| ==> RuleMeans(dom, rs[i], ds[i], alts, bodies)
  }

  /** Compiles all rules, sharing equal alternatives and body literals. */
  method GetRules(dom: nat, rs: seq<Rule>) returns (ds: seq<RuleDef>, alts: seq<AltDef>, bodies: seq<BodyDef>)
    requires dom > 0 && forall i :: 0 <= i < |rs| ==> HeadOk(dom, rs[i])
    ensures ProgramMeans(dom, rs, ds, alts, bodies) && PoolOk(alts, bodies)
    ensures forall i :: 0 <= i < |rs| ==> ds[i].eq <= Vals(dom, |rs[i].head.args|)
  {
    ds, alts, bodies := [], [], [];
    for n := 0 to |rs|
      invariant |ds| == n && forall i :: 0 <= i < n ==> RuleMeans(dom, rs[i], ds[i], alts, bodies)
      invariant PoolOk(alts, bodies) && forall i :: 0 <= i < n ==> ds[i].eq <= Vals(dom, |rs[i].head.args|)
    {
      ghost var alts1, bodies1 := alts, bodies;
      var d;
      d, alts, bodies := GetRule(dom, rs[n], alts, bodies);
      forall i | 0 <= i < n ensures RuleMeans(dom, rs[i], ds[i], alts, bodies) {
        RuleGrow(dom, rs[i], ds[i], alts1, bodies1, alts, bodies);
      }
      ds := ds + [d];
    }
  }
}
