/** The facts behind each step of the BDD operations. */
module BddSteps {
  import opened BddRef
  import opened BddSem
  import opened BddAlgebra
  import opened BddIte
  import opened BddQuery
  import opened BddTables
  import opened BddLists

  // ----- steps of the queries

  /** What a query demands of its vectors when the operands' variables go up to n. */
  ghost predicate QueryFits(q: Query, n: nat) {
    && q.InjectiveUpTo(n)
    && (q.Exists? ==> q.ex != [])
    && (q.ExistsRename? ==> |q.ex| == |q.p| && n <= |q.ex|)
  }

  ghost predicate FusedOk(q: Query, last: nat, n: nat) {
    (q.Exists? || q.ExistsRename?) && QueryFits(q, n) && q.IdleAfter(last + 1) && (q.Exists? ==> last < |q.ex|)
  }

  lemma IdleRef(V: seq<Node>, q: Query, x: Ref, k: nat)
    requires NodesOk(V) && Wf(V, x) && q.IdleAfter(k) && Above(x, k)
    ensures Image(q, Den(V, x)) == Den(V, x)
  {
    DenIndep(V, x, k);
    ImageIdle(q, Den(V, x), k);
  }

  lemma IdlePair(V: seq<Node>, q: Query, x: Ref, y: Ref, k: nat)
    requires NodesOk(V) && Wf(V, x) && Wf(V, y) && q.IdleAfter(k) && Above(x, k) && Above(y, k)
    ensures Image(q, Den(V, x) * Den(V, y)) == Den(V, x) * Den(V, y)
  {
    DenIndep(V, x, k); DenIndep(V, y, k);
    IndepUpToSets(Den(V, x), Den(V, y), k);
    ImageIdle(q, Den(V, x) * Den(V, y), k);
  }

  lemma OneHit(V: seq<Node>, m: map<Query, Table>, q: Query, x: Ref)
    requires NodesOk(V) && MemosOk(V, m) && Wf(V, x) && Has(m, q, [x])
    ensures Wf(V, m[q][[x]]) && Den(V, m[q][[x]]) == Image(q, Den(V, x))
  {
    assert EntryOk(V, q, [x], m[q][[x]]);
    ConjShort(V, [x]);
  }

  lemma PairHit(V: seq<Node>, m: map<Query, Table>, q: Query, x: Ref, y: Ref)
    requires NodesOk(V) && MemosOk(V, m) && Wf(V, x) && Wf(V, y) && Has(m, q, [x, y])
    ensures Wf(V, m[q][[x, y]]) && Den(V, m[q][[x, y]]) == Image(q, Den(V, x) * Den(V, y))
  {
    assert EntryOk(V, q, [x, y], m[q][[x, y]]);
    ConjShort(V, [x, y]);
  }

  lemma PairRange(V: seq<Node>, x: Ref, y: Ref, v: nat, lo: nat, n: nat)
    requires NodesOk(V) && InRange(V, x, lo, n) && InRange(V, y, lo, n) && x.id > 1 && y.id > 1
    requires v == Min(x.shift, y.shift)
    ensures lo <= v <= n
    ensures forall b: bool :: InRange(V, Cof(V, x, v, b), v + 1, n) && InRange(V, Cof(V, y, v, b), v + 1, n)
    ensures forall b: bool ::
      var X := Den(V, Cof(V, x, v, b)) * Den(V, Cof(V, y, v, b)); IndepUpTo(X, v) && Bounded(X, n)
    ensures Den(V, x) * Den(V, y) == Mux(v, Den(V, Cof(V, x, v, true)) * Den(V, Cof(V, y, v, true)),
                                            Den(V, Cof(V, x, v, false)) * Den(V, Cof(V, y, v, false)))
  {
    InRangeTop(V, x, lo, n); InRangeTop(V, y, lo, n);
    CofMux(V, x, v); CofMux(V, y, v);
    MuxSets(v, Den(V, Cof(V, x, v, true)), Den(V, Cof(V, x, v, false)), Den(V, Cof(V, y, v, true)),
      Den(V, Cof(V, y, v, false)));
    forall b: bool
      ensures InRange(V, Cof(V, x, v, b), v + 1, n) && InRange(V, Cof(V, y, v, b), v + 1, n)
      ensures var X := Den(V, Cof(V, x, v, b)) * Den(V, Cof(V, y, v, b)); IndepUpTo(X, v) && Bounded(X, n)
    {
      var c, d := Cof(V, x, v, b), Cof(V, y, v, b);
      assert InRange(V, x, v, n) && InRange(V, y, v, n);
      CofInRange(V, x, v, n, b); CofInRange(V, y, v, n, b);
      DenIndep(V, c, v); DenIndep(V, d, v);
      IndepUpToSets(Den(V, c), Den(V, d), v);
      forall u: nat | u > n ensures Indep(Den(V, c) * Den(V, d), u) {
        IndepSets(Den(V, c), Den(V, d), u);
      }
    }
  }

  lemma NormalNonLeaf(V: seq<Node>, v: seq<Ref>)
    requires NodesOk(V) && AllWf(V, v) && AmNormal(v)
    ensures forall r :: r in v ==> r.id > 1
  {
  }

  /** The cofactors of a split lie strictly above the split variable. */
  lemma PartsRange(V: seq<Node>, m: nat, n: nat, code: nat, h: seq<Ref>, l: seq<Ref>)
    requires NodesOk(V) && code <= 3
    requires code == 0 || code == 2 ==> AllInRange(V, h, m + 1, n) && AllWf(V, h)
    requires code == 0 || code == 3 ==> AllInRange(V, l, m + 1, n) && AllWf(V, l)
    ensures IndepUpTo(HighPart(V, code, h), m) && Bounded(HighPart(V, code, h), n)
    ensures IndepUpTo(LowPart(V, code, l), m) && Bounded(LowPart(V, code, l), n)
  {
    if code == 0 || code == 2 { PartRange(V, h, m, n); }
    if code == 0 || code == 3 { PartRange(V, l, m, n); }
  }

  lemma PartRange(V: seq<Node>, h: seq<Ref>, m: nat, n: nat)
    requires NodesOk(V) && AllInRange(V, h, m + 1, n) && AllWf(V, h)
    ensures IndepUpTo(Conj(V, h), m) && Bounded(Conj(V, h), n)
  {
    forall u: nat | u <= m ensures Indep(Conj(V, h), u) {
      forall r | r in h ensures Indep(Den(V, r), u) {
        assert InRange(V, r, m + 1, n);
        DenIndep(V, r, m);
      }
      ConjIndep(V, h, u);
    }
    forall u: nat | u > n ensures Indep(Conj(V, h), u) {
      ConjIndep(V, h, u);
    }
  }

  lemma IdleSplit(V0: seq<Node>, V: seq<Node>, q: Query, v: seq<Ref>, m: nat, n: nat, code: nat, h: seq<Ref>,
        l: seq<Ref>, k: nat)
    requires NodesOk(V0) && NodesOk(V) && SplitOk(V0, V, v, m, n, code, h, l) && k < m && q.IdleAfter(k)
    ensures Image(q, Conj(V0, v)) == Conj(V0, v)
  {
    PartsRange(V, m, n, code, h, l);
    forall u: nat | u <= k ensures Indep(Conj(V0, v), u) {
      IndepMux(HighPart(V, code, h), LowPart(V, code, l), m, u);
    }
    ImageIdle(q, Conj(V0, v), k);
  }

  /** A query that quantifies nothing is the conjunction itself. */
  lemma PlainQuery(q: Query, X: Fn)
    requires q.AndOnly? || (q.Exists? && true !in q.ex)
    ensures Image(q, X) == X
  {
    forall v: nat ensures !q.Quantified(v) && q.Target(v) == v {
      if q.Exists? && 1 <= v <= |q.ex| { assert q.ex[v - 1] in q.ex; }
    }
    forall a: Asg
      ensures a in Image(q, X) <==> a in X
    {
      assert Matches(q, a, a);
      if a in Image(q, X) {
        var c: Asg :| c in X && Matches(q, a, c);
        assert c == a;
      }
    }
  }

  /** The result of a query on variables from one on again has its variables from one on. */
  lemma ResultAbove(V: seq<Node>, W: seq<Node>, q: Query, s: seq<Ref>, n: nat, r: Ref)
    requires NodesOk(V) && NodesOk(W) && AllInRange(V, s, 1, n) && AllWf(V, s)
    requires Wf(W, r) && Den(W, r) == Image(q, Conj(V, s))
    ensures Above(r, 0)
  {
    PartRange(V, s, 0, n);
    ImageIndep(q, Conj(V, s), 0);
    AboveIfIndep(W, r, 0);
  }

  lemma CofactorRange(V: seq<Node>, x: Ref, n: nat)
    requires NodesOk(V) && Wf(V, x) && x.id > 1 && Bounded(Den(V, x), n)
    ensures InRange(V, Hi(V, x), x.shift + 1, n) && InRange(V, Lo(V, x), x.shift + 1, n)
    ensures Den(V, x) == Mux(x.shift, Den(V, Hi(V, x)), Den(V, Lo(V, x)))
    ensures IndepUpTo(Den(V, Hi(V, x)), x.shift) && IndepUpTo(Den(V, Lo(V, x)), x.shift)
  {
    DenMux(V, x);
    assert InRange(V, x, x.shift, n);
    CofInRange(V, x, x.shift, n, true);
    CofInRange(V, x, x.shift, n, false);
    DenIndep(V, Hi(V, x), x.shift);
    DenIndep(V, Lo(V, x), x.shift);
  }

  lemma InRangeGrow(V: seq<Node>, W: seq<Node>, r: Ref, lo: nat, n: nat)
    requires NodesOk(V) && NodesOk(W) && V <= W && InRange(V, r, lo, n)
    ensures InRange(W, r, lo, n) && Den(W, r) == Den(V, r)
  {
    Grow(V, W, r);
  }

  lemma OrInRange(V: seq<Node>, H: Fn, L: Fn, v: nat, n: nat, o: Ref)
    requires NodesOk(V) && Wf(V, o) && Den(V, o) == H + L
    requires IndepUpTo(H, v) && IndepUpTo(L, v) && Bounded(H, n) && Bounded(L, n)
    ensures InRange(V, o, v + 1, n)
  {
    IndepUpToSets(H, L, v);
    AboveIfIndep(V, o, v);
    forall u: nat | u > n ensures Indep(Den(V, o), u) {
      IndepSets(H, L, u);
    }
  }

  // ----- steps of the list conjunction

  function PairKey(x: Ref, y: Ref): seq<Ref> {
    if UnsignedLt(y, x) then [y, x, F] else [x, y, F]
  }

  lemma PairCached(V: seq<Node>, C: Table, v: seq<Ref>, k: nat, i: nat, lo: nat, n: nat)
    requires NodesOk(V) && CacheOk(V, C) && AllInRange(V, v, lo, n) && AllWf(V, v) && k < i < |v|
    requires PairKey(v[k], v[i]) in C
    ensures var t := Erase(Erase(v, k), i - 1) + [C[PairKey(v[k], v[i])]];
      AllInRange(V, t, lo, n) && AllWf(V, t) && Conj(V, t) == Conj(V, v)
  {
    var x, y, key := v[k], v[i], PairKey(v[k], v[i]);
    var r := C[key];
    assert CacheEntryOk(V, key, r);
    assert Den(V, r) == Den(V, x) * Den(V, y);
    ConjSmall(V, x, y);
    ConjInRange(V, [x, y], lo, n, r);
    var rest := Erase(Erase(v, k), i - 1);
    EraseMembers(v, k);
    EraseMembers(Erase(v, k), i - 1);
    ConjAppend(V, rest, [r]);
    ConjSmall(V, r, r);
    ConjAppend(V, rest, [x, y]);
    ConjSame(V, v, rest + [x, y]);
  }

  ghost function HighPart(V: seq<Node>, code: nat, h: seq<Ref>): Fn
    requires NodesOk(V) && (code == 0 || code == 2 ==> AllWf(V, h))
  {
    if code == 0 || code == 2 then Conj(V, h) else iset{}
  }

  ghost function LowPart(V: seq<Node>, code: nat, l: seq<Ref>): Fn
    requires NodesOk(V) && (code == 0 || code == 3 ==> AllWf(V, l))
  {
    if code == 0 || code == 3 then Conj(V, l) else iset{}
  }

  ghost predicate SortedOperands(s: seq<Ref>) {
    s == [F] || AmNormal(s)
  }

  /** The lists h and l, as far as the code says they count, are the m-cofactors of the conjunction of v. */
  ghost predicate SplitOk(V0: seq<Node>, V: seq<Node>, v: seq<Ref>, m: nat, n: nat, code: nat, h: seq<Ref>, l: seq<Ref>)
    requires NodesOk(V0) && NodesOk(V)
  {
    && AllWf(V0, v) && code <= 3
    && (code == 0 || code == 2 ==> AllInRange(V, h, m + 1, n) && AllWf(V, h) && SortedOperands(h))
    && (code == 0 || code == 3 ==> AllInRange(V, l, m + 1, n) && AllWf(V, l) && SortedOperands(l))
    && Conj(V0, v) == Mux(m, HighPart(V, code, h), LowPart(V, code, l))
  }

  lemma MuxEmpty(m: nat)
    ensures Mux(m, iset{}, iset{}) == iset{}
  {
  }

  lemma FirstFalse(V: seq<Node>, s: seq<Ref>)
    requires NodesOk(V) && AllWf(V, s) && s != [] && s[0] == F
    ensures Conj(V, s) == iset{}
  {
    DenLeaf(V);
    ConjHas(V, s, F);
  }

  lemma RangeFrom(V: seq<Node>, v: seq<Ref>, lo: nat, m: nat, n: nat)
    requires NodesOk(V) && AllInRange(V, v, lo, n) && forall j :: 0 <= j < |v| ==> AtLeast(v[j], m)
    ensures AllInRange(V, v, m, n)
  {
    forall r | r in v ensures InRange(V, r, m, n) {
      var j :| 0 <= j < |v| && v[j] == r;
    }
  }

  lemma ConjShort(V: seq<Node>, v: seq<Ref>)
    requires NodesOk(V) && AllWf(V, v)
    ensures v == [] ==> Wf(V, T) && Den(V, T) == Conj(V, v)
    ensures |v| == 1 ==> Wf(V, v[0]) && Den(V, v[0]) == Conj(V, v)
    ensures |v| == 2 ==> Wf(V, v[0]) && Wf(V, v[1]) && Den(V, v[0]) * Den(V, v[1]) == Conj(V, v)
  {
    DenLeaf(V);
    ConjSmall(V, T, T);
    if |v| == 1 { ConjSmall(V, v[0], v[0]); assert v == [v[0]]; }
    if |v| == 2 { ConjSmall(V, v[0], v[1]); assert v == [v[0], v[1]]; }
  }

  lemma NormalInner(V: seq<Node>, v: seq<Ref>)
    requires NodesOk(V) && AllWf(V, v) && AmNormal(v) && v != []
    ensures v[0].id > 1
  {
    assert v[0] in v;
  }

  lemma RangeAfter(V: seq<Node>, W: seq<Node>, s: seq<Ref>, lo: nat, n: nat, r: Ref)
    requires NodesOk(V) && NodesOk(W) && V <= W && AllInRange(V, s, lo, n) && AllWf(V, s)
    requires Wf(W, r) && Den(W, r) == Conj(V, s)
    ensures InRange(W, r, lo, n)
  {
    AllInRangeGrow(V, W, s, lo, n);
    ConjInRange(W, s, lo, n, r);
  }

  /** Removing the common part x from h and adding its conjunction r back keeps the conjunction. */
  lemma SharedPart(V0: seq<Node>, V: seq<Node>, h0: seq<Ref>, h1: seq<Ref>, x: seq<Ref>, lo: nat, n: nat, r: Ref)
    requires NodesOk(V0) && NodesOk(V) && V0 <= V
    requires AllInRange(V0, h0, lo, n) && AllWf(V0, h0) && AllWf(V0, x)
    requires (forall y :: y in x ==> y in h0) && (forall y :: y in h1 <==> y in h0 && y !in x)
    requires Wf(V, r) && Den(V, r) == Conj(V0, x)
    ensures AllInRange(V, h1, lo, n) && AllWf(V, h1)
    ensures Conj(V0, h0) == Conj(V, h1) * Den(V, r)
  {
    AllInRangeGrow(V0, V, h1, lo, n);
    ConjAppend(V0, h1, x);
    ConjSame(V0, h0, h1 + x);
  }

  lemma MuxConstIndep(v: nat, b: bool)
    requires v > 0
    ensures IndepUpTo(Mux(v, if b then All() else iset{}, if b then iset{} else All()), v - 1)
  {
  }

  // ----- steps of the conjunction

  lemma AndDecided(V: seq<Node>, x: Ref, y: Ref)
    requires NodesOk(V) && Wf(V, x) && Wf(V, y)
    ensures Wf(V, F) && Den(V, F) == iset{}
    ensures x == F || y == F || x == Flip(y) ==> Den(V, x) * Den(V, y) == iset{}
    ensures x == T || x == y ==> Den(V, x) * Den(V, y) == Den(V, y)
    ensures y == T ==> Den(V, x) * Den(V, y) == Den(V, x)
  {
    DenLeaf(V);
    DenFlip(V, y);
  }

  lemma AndMinus(V: seq<Node>, x: Ref, y: Ref, k: nat)
    requires NodesOk(V) && Wf(V, x) && Wf(V, y) && AtLeast(x, k) && AtLeast(y, k)
    ensures Wf(V, Minus(x, k)) && Wf(V, Minus(y, k))
    ensures Den(V, x) * Den(V, y) == Up(k, Den(V, Minus(x, k)) * Den(V, Minus(y, k)))
  {
    DenMinus(V, x, k); DenMinus(V, y, k);
    UpSets(k, Den(V, Minus(x, k)), Den(V, Minus(y, k)));
  }

  lemma AndChildren(V0: seq<Node>, V1: seq<Node>, V2: seq<Node>, x: Ref, y: Ref, v: nat, h: Ref, l: Ref)
    requires NodesOk(V0) && NodesOk(V1) && NodesOk(V2) && V0 <= V1 <= V2
    requires Wf(V0, x) && Wf(V0, y) && AtLeast(x, v) && AtLeast(y, v)
    requires Wf(V1, h) && Den(V1, h) == Den(V0, Cof(V0, x, v, true)) * Den(V0, Cof(V0, y, v, true))
    requires Wf(V2, l) && Den(V2, l) == Den(V0, Cof(V0, x, v, false)) * Den(V0, Cof(V0, y, v, false))
    ensures Wf(V2, h) && Above(h, v) && Above(l, v)
    ensures Mux(v, Den(V2, h), Den(V2, l)) == Den(V0, x) * Den(V0, y)
  {
    var xh, xl, yh, yl := Cof(V0, x, v, true), Cof(V0, x, v, false), Cof(V0, y, v, true), Cof(V0, y, v, false);
    Grow(V1, V2, h);
    CofMux(V0, x, v); CofMux(V0, y, v);
    DenIndep(V0, xh, v); DenIndep(V0, xl, v); DenIndep(V0, yh, v); DenIndep(V0, yl, v);
    AndAbove(V2, h, Den(V0, xh), Den(V0, yh), v);
    AndAbove(V2, l, Den(V0, xl), Den(V0, yl), v);
    MuxSets(v, Den(V0, xh), Den(V0, xl), Den(V0, yh), Den(V0, yl));
  }

  // ----- steps of the three-way operation

  lemma IteMinus(V: seq<Node>, x: Ref, y: Ref, z: Ref, k: nat)
    requires NodesOk(V) && Wf(V, x) && Wf(V, y) && Wf(V, z) && !x.invOut && !Decided(x, y, z) && k == Top3(x, y, z)
    ensures Wf(V, Minus(x, k)) && Wf(V, Minus(y, k)) && Wf(V, Minus(z, k))
    ensures !Decided(Minus(x, k), Minus(y, k), Minus(z, k))
    ensures IteFn(V, x, y, z) == Up(k, IteFn(V, Minus(x, k), Minus(y, k), Minus(z, k)))
  {
    DenMinus(V, x, k); DenMinus(V, y, k); DenMinus(V, z, k);
    IteFnPlus(V, Minus(x, k), Minus(y, k), Minus(z, k), k);
  }

  lemma IteChildren(V0: seq<Node>, V1: seq<Node>, V2: seq<Node>, x: Ref, y: Ref, z: Ref, v: nat, h: Ref, l: Ref)
    requires NodesOk(V0) && NodesOk(V1) && NodesOk(V2) && V0 <= V1 <= V2
    requires Wf(V0, x) && Wf(V0, y) && Wf(V0, z) && !x.invOut && !Decided(x, y, z) && v == Top3(x, y, z)
    requires Wf(V1, h) && Den(V1, h) == IteFn(V0, Cof(V0, x, v, true), Cof(V0, y, v, true), Cof(V0, z, v, true))
    requires Wf(V1, Cof(V0, x, v, false)) && Wf(V1, Cof(V0, y, v, false)) && Wf(V1, Cof(V0, z, v, false))
    requires Wf(V2, l) && Den(V2, l) == IteFn(V1, Cof(V0, x, v, false), Cof(V0, y, v, false), Cof(V0, z, v, false))
    ensures Wf(V2, h) && Above(h, v) && Above(l, v)
    ensures Mux(v, Den(V2, h), Den(V2, l)) == IteFn(V0, x, y, z)
  {
    Grow(V1, V2, h);
    IteFnGrow(V0, V1, Cof(V0, x, v, false), Cof(V0, y, v, false), Cof(V0, z, v, false));
    CofMux(V0, x, v); CofMux(V0, y, v); CofMux(V0, z, v);
    IteFnIndep(V0, Cof(V0, x, v, true), Cof(V0, y, v, true), Cof(V0, z, v, true), v);
    IteFnIndep(V0, Cof(V0, x, v, false), Cof(V0, y, v, false), Cof(V0, z, v, false), v);
    AboveIfIndep(V2, h, v);
    AboveIfIndep(V2, l, v);
  }

  lemma CacheAddIte(V0: seq<Node>, V: seq<Node>, C: Table, x: Ref, y: Ref, z: Ref, r: Ref)
    requires NodesOk(V0) && NodesOk(V) && V0 <= V && CacheOk(V, C)
    requires Wf(V0, x) && Wf(V0, y) && Wf(V0, z) && Wf(V, r) && Den(V, r) == IteFn(V0, x, y, z) && z != F
    ensures CacheOk(V, Remember(C, [x, y, z], r))
  {
    IteFnGrow(V0, V, x, y, z);
    assert CacheEntryOk(V, [x, y, z], r);
  }

  lemma BitExact(V: seq<Node>, x: nat, b: Ref, y: Ref, z: Ref)
    requires NodesOk(V) && Wf(V, b) && Wf(V, y) && Wf(V, z)
    requires Den(V, b) == Mux(x + 1, All(), iset{})
    requires Indep(Den(V, y), x + 1) && Indep(Den(V, z), x + 1)
    ensures IteFn(V, b, y, z) == Mux(x + 1, Den(V, y), Den(V, z))
  {
    BitVars(V, x, b);
    VarsExact(V, y, x + 1); VarsExact(V, z, x + 1);
    DisjointExact(V, b, y, z);
    IteExactIff(V, b, y, z);
    IteBit(x + 1, Den(V, y), Den(V, z));
  }

  lemma BitVars(V: seq<Node>, x: nat, b: Ref)
    requires NodesOk(V) && Wf(V, b) && Den(V, b) == Mux(x + 1, All(), iset{})
    ensures Vars(V, b) <= {x + 1}
  {
    forall u | u in Vars(V, b) ensures u == x + 1 {
      VarsExact(V, b, u);
    }
  }

  lemma IteBit(v: nat, Y: Fn, Z: Fn)
    ensures IfThenElse(Mux(v, All(), iset{}), Y, Z) == Mux(v, Y, Z)
  {
  }

  lemma OrSets(X: Fn, Y: Fn)
    ensures Not(Not(X) * Not(Y)) == X + Y
  {
  }

  lemma CacheHit(V: seq<Node>, key: seq<Ref>, r: Ref)
    requires NodesOk(V) && CacheEntryOk(V, key, r)
    ensures Wf(V, r)
  {
  }

  /** Insertion that keeps an existing entry. */
  function Remember(C: Table, key: seq<Ref>, r: Ref): Table {
    if key in C then C else C[key := r]
  }

  lemma CacheAddAnd(V0: seq<Node>, V: seq<Node>, C: Table, x: Ref, y: Ref, r: Ref)
    requires NodesOk(V0) && NodesOk(V) && V0 <= V && CacheOk(V, C)
    requires Wf(V0, x) && Wf(V0, y) && Wf(V, r) && Den(V, r) == Den(V0, x) * Den(V0, y)
    ensures CacheOk(V, Remember(C, [x, y, F], r))
  {
    Grow(V0, V, x); Grow(V0, V, y);
    DenLeaf(V);
    assert CacheEntryOk(V, [x, y, F], r);
  }

  /** The node stored for (h, l): branches moved down by v, low edge not inverted, smaller edge first. */
  ghost predicate IsNormalNode(v: nat, h: Ref, l: Ref, n: Node)
    requires Above(h, v) && Above(l, v)
  {
    var h' := if l.invOut then Flip(Minus(h, v)) else Minus(h, v);
    var l' := if l.invOut then Flip(Minus(l, v)) else Minus(l, v);
    n == if Lt(l', h') then Node(l', h') else Node(h', l')
  }

  lemma NormalNode(V: seq<Node>, v: nat, h: Ref, l: Ref, n: Node)
    requires NodesOk(V) && Wf(V, h) && Wf(V, l) && Above(h, v) && Above(l, v) && h != l
    requires IsNormalNode(v, h, l, n)
    ensures Wf(V, n.h) && Wf(V, n.l) && Above(n.h, 0) && Above(n.l, 0) && !n.l.invOut && Lt(n.h, n.l)
    ensures n != V[0] && n != V[1]
  {
  }

  lemma AddMeans(V: seq<Node>, W: seq<Node>, v: nat, h: Ref, l: Ref, r: Ref)
    requires NodesOk(V) && NodesOk(W) && V <= W
    requires Wf(V, h) && Wf(V, l) && Above(h, v) && Above(l, v) && h != l
    requires 1 < r.id < |W| && IsNormalNode(v, h, l, W[r.id])
    requires r.shift == v && r.invOut == l.invOut
    requires r.invIn == Lt(if l.invOut then Flip(Minus(l, v)) else Minus(l, v),
      if l.invOut then Flip(Minus(h, v)) else Minus(h, v))
    requires r.id < |V| || W == V + [W[r.id]]
    ensures Wf(W, r) && Den(W, r) == Mux(v, Den(V, h), Den(V, l))
    ensures r.id >= |V| ==> forall x :: Wf(V, x) ==> Den(V, x) != Den(W, r)
  {
    Grow(V, W, h); Grow(V, W, l);
    assert Hi(W, r) == h && Lo(W, r) == l;
    DenMux(W, r);
    if r.id >= |V| {
      forall x | Wf(V, x)
        ensures Den(V, x) != Den(W, r)
      {
        Grow(V, W, x);
        Canonical(W, x, r);
      }
    }
  }

  lemma AppendOk(V: seq<Node>, ids: map<Node, nat>, n: Node)
    requires NodesOk(V) && UniqueOk(V, ids) && Wf(V, n.h) && Wf(V, n.l) && Above(n.h, 0) && Above(n.l, 0)
    requires !n.l.invOut && Lt(n.h, n.l) && n !in ids
    ensures n !in V && NodesOk(V + [n]) && UniqueOk(V + [n], ids[n := |V|])
  {
    var W := V + [n];
    forall i: nat | 2 <= i < |W| ensures NodeOk(W, i) {
      if i < |V| { assert NodeOk(V, i); }
    }
  }
}
