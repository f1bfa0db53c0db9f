/** The BDD package: a hash-consed node table with memo tables, and its operations. */
module BddStore {
  import opened BddRef
  import opened BddSem
  import opened BddAlgebra
  import opened BddIte
  import opened BddQuery
  import opened BddTables
  import opened BddLists
  import opened BddSteps
  import opened BddGc

  class Store {
    /** Maps a node id to its definition. */
    var V: seq<Node>
    /** Maps a definition to its node id. */
    var ids: map<Node, nat>
    /** Cache of bdd_and and bdd_ite. */
    var C: Table
    /** Memos of the queries on one reference, on pairs, and on operand lists. */
    var one: map<Query, Table>
    var pair: map<Query, Table>
    var many: map<Query, Table>
    /** Live handles: the registry maps a reference to its handle, handles maps back; next is a fresh handle. */
    var registry: map<Ref, nat>
    var handles: map<nat, Ref>
    var next: nat
    var gcLimit: nat
    var gcEnabled: bool

    ghost predicate Valid()
      reads this
    {
      && NodesOk(V) && UniqueOk(V, ids)
      && CacheOk(V, C) && MemosOk(V, one) && MemosOk(V, pair) && MemosOk(V, many)
      && KeysSorted(many)
    }

    ghost predicate ValidHandles()
      reads this
    {
      Valid() && RegistryOk(V, registry, handles, next)
    }

    /** The function a live handle stands for. */
    ghost function Meaning(h: nat): Fn
      requires ValidHandles() && h in handles
      reads this
    {
      Den(V, handles[h])
    }

    constructor (limit: nat)
      ensures ValidHandles() && |V| == 2 && C == map[] && one == pair == many == map[] && handles == map[]
    {
      gcLimit, gcEnabled := limit, true;
      var dummy := Node(MakeRef(0, 0, false, false), MakeRef(0, 0, false, false));
      V := [dummy, Node(T, T)];
      ids := map[dummy := 0, Node(T, T) := 1];
      C, one, pair, many := map[], map[], map[], map[];
      registry, handles, next := map[], map[], 0;
    }

    /** The reference whose function is "if v then h else l", sharing an existing node whenever one denotes it. */
    method Add(v: nat, h: Ref, l: Ref) returns (r: Ref)
      requires Valid() && Wf(V, h) && Wf(V, l) && Above(h, v) && Above(l, v)
      modifies `V, `ids
      ensures Valid() && old(V) <= V && Wf(V, r)
      ensures Den(V, r) == Mux(v, Den(old(V), h), Den(old(V), l))
      ensures V != old(V) ==> forall x :: Wf(old(V), x) ==> Den(old(V), x) != Den(V, r)
    {
      if h == l {
        MuxSame(v, Den(V, h));
        return h;
      }
      var invOut := l.invOut;
      var h' := if invOut then Flip(Minus(h, v)) else Minus(h, v);
      var l' := if invOut then Flip(Minus(l, v)) else Minus(l, v);
      var invIn := Lt(l', h');
      if invIn { h', l' := l', h'; }
      var n := Node(h', l');
      NormalNode(V, v, h, l, n);
      ghost var V0 := V;
      var id := Intern(n);
      r := MakeRef(id, v, invIn, invOut);
      AddMeans(V0, V, v, h, l, r);
    }

    /** Variable b as a reference (variables are numbered from one), or its complement. */
    method FromBit(b: nat, v: bool) returns (r: Ref)
      requires Valid()
      modifies `V, `ids
      ensures Valid() && old(V) <= V && Wf(V, r) && Above(r, b)
      ensures Den(V, r) == Mux(b + 1, if v then All() else iset{}, if v then iset{} else All())
    {
      DenLeaf(V);
      if v { r := Add(b + 1, T, F); } else { r := Add(b + 1, F, T); }
      MuxConstIndep(b + 1, v);
      AboveIfIndep(V, r, b);
    }

    /** Conjunction. */
    method And(x0: Ref, y0: Ref) returns (r: Ref)
      requires Valid() && Wf(V, x0) && Wf(V, y0)
      modifies `V, `ids, `C
      ensures Valid() && old(V) <= V && Wf(V, r)
      ensures Den(V, r) == Den(old(V), x0) * Den(old(V), y0)
      decreases x0.id + y0.id, 1
    {
      AndDecided(V, x0, y0);
      if x0 == F || y0 == F || x0 == Flip(y0) { return F; }
      if x0 == T || x0 == y0 { return y0; }
      if y0 == T { return x0; }
      ghost var V0 := V;
      var x, y := x0, y0;
      if Lt(y, x) { x, y := y, x; }
      var k := Min(x.shift, y.shift);
      AndMinus(V, x, y, k);
      x, y := Minus(x, k), Minus(y, k);
      var key := [x, y, F];
      if key in C {
        r := C[key];
        CacheHit(V, key, r);
      } else {
        r := AndMiss(x, y);
      }
      DenPlus(V, r, k);
      r := Plus(r, k);
    }

    /** The cofactor step of the conjunction, caching its result. */
    method AndMiss(x: Ref, y: Ref) returns (r: Ref)
      requires Valid() && Wf(V, x) && Wf(V, y) && x.id > 1 && y.id > 1
      modifies `V, `ids, `C
      ensures Valid() && old(V) <= V && Wf(V, r)
      ensures Den(V, r) == Den(old(V), x) * Den(old(V), y)
      decreases x.id + y.id, 0
    {
      hide NodesOk, CacheOk, UniqueOk, MemosOk;
      ghost var V0 := V;
      var v := Min(x.shift, y.shift);
      var xh, xl, yh, yl := Cof(V, x, v, true), Cof(V, x, v, false), Cof(V, y, v, true), Cof(V, y, v, false);
      var h := And(xh, yh);
      ghost var V1 := V;
      Grow(V0, V1, xl); Grow(V0, V1, yl);
      var l := And(xl, yl);
      AndChildren(V0, V1, V, x, y, v, h, l);
      r := Add(v, h, l);
      if |C| < gcLimit {
        CacheAddAnd(V0, V, C, x, y, r);
        C := Remember(C, [x, y, F], r);
      }
    }

    method Or(x: Ref, y: Ref) returns (r: Ref)
      requires Valid() && Wf(V, x) && Wf(V, y)
      modifies `V, `ids, `C
      ensures Valid() && old(V) <= V && Wf(V, r)
      ensures Den(V, r) == Den(old(V), x) + Den(old(V), y)
    {
      DenFlip(V, x); DenFlip(V, y);
      OrSets(Den(V, x), Den(V, y));
      var a := And(Flip(x), Flip(y));
      DenFlip(V, a);
      r := Flip(a);
    }

    /** The id of a node, appended to the table if it is new. */
    method Intern(n: Node) returns (id: nat)
      requires Valid() && Wf(V, n.h) && Wf(V, n.l) && Above(n.h, 0) && Above(n.l, 0) && !n.l.invOut && Lt(n.h, n.l)
      modifies `V, `ids
      ensures Valid() && id < |V| && V[id] == n
      ensures V == if n in old(V) then old(V) else old(V) + [n]
      ensures id < |old(V)| <==> n in old(V)
    {
      if n in ids {
        id := ids[n];
      } else {
        ghost var V0 := V;
        AppendOk(V, ids, n);
        V, ids := V + [n], ids[n := |V|];
        id := |V| - 1;
        CacheGrow(V0, V, C); MemosGrow(V0, V, one); MemosGrow(V0, V, pair); MemosGrow(V0, V, many);
      }
    }

    /** The three-way operation, exactly as coded; IteExactIff says when this is if-then-else. */
    method Ite(x0: Ref, y0: Ref, z0: Ref) returns (r: Ref)
      requires Valid() && Wf(V, x0) && Wf(V, y0) && Wf(V, z0)
      modifies `V, `ids, `C
      ensures Valid() && old(V) <= V && Wf(V, r)
      ensures Den(V, r) == IteFn(old(V), x0, y0, z0)
      decreases x0.id + y0.id + z0.id, if x0.invOut then 2 else 1
    {
      hide UniqueOk, MemosOk;
      DenFlip(V, x0);
      if x0.invOut {
        r := Ite(Flip(x0), z0, y0);
        return;
      }
      if x0 == T || y0 == z0 { return y0; }
      if x0 == Flip(y0) || x0 == z0 { DenLeaf(V); return F; }
      if y0 == T { r := Or(x0, z0); return; }
      if y0 == F { r := And(Flip(x0), z0); return; }
      if z0 == F { r := And(x0, y0); return; }
      if z0 == T { r := Or(Flip(x0), y0); return; }
      var k := Top3(x0, y0, z0);
      var x, y, z := Minus(x0, k), Minus(y0, k), Minus(z0, k);
      IteMinus(V, x0, y0, z0, k);
      var key := [x, y, z];
      if key in C {
        r := C[key];
        CacheHit(V, key, r);
      } else {
        r := IteMiss(x, y, z);
      }
      DenPlus(V, r, k);
      r := Plus(r, k);
    }

    /** The cofactor step of the three-way operation, caching its result. */
    method IteMiss(x: Ref, y: Ref, z: Ref) returns (r: Ref)
      requires Valid() && Wf(V, x) && Wf(V, y) && Wf(V, z) && !x.invOut && !Decided(x, y, z)
      modifies `V, `ids, `C
      ensures Valid() && old(V) <= V && Wf(V, r)
      ensures Den(V, r) == IteFn(old(V), x, y, z)
      decreases x.id + y.id + z.id, 0
    {
      hide NodesOk, CacheOk, UniqueOk, MemosOk;
      ghost var V0 := V;
      var v := Top3(x, y, z);
      var xl, yl, zl := Cof(V, x, v, false), Cof(V, y, v, false), Cof(V, z, v, false);
      var h := Ite(Cof(V, x, v, true), Cof(V, y, v, true), Cof(V, z, v, true));
      ghost var V1 := V;
      Grow(V0, V1, xl); Grow(V0, V1, yl); Grow(V0, V1, zl);
      var l := Ite(xl, yl, zl);
      IteChildren(V0, V1, V, x, y, z, v, h, l);
      r := Add(v, h, l);
      if |C| <= gcLimit {
        CacheAddIte(V0, V, C, x, y, z, r);
        C := Remember(C, [x, y, z], r);
      }
    }

    /** Exclusive or. */
    method Xor(x: Ref, y: Ref) returns (r: Ref)
      requires Valid() && Wf(V, x) && Wf(V, y)
      modifies `V, `ids, `C
      ensures Valid() && old(V) <= V && Wf(V, r)
      ensures Den(V, r) == (Den(old(V), x) - Den(old(V), y)) + (Den(old(V), y) - Den(old(V), x))
    {
      DenFlip(V, y);
      ComplementExact(V, x, y);
      IteExactIff(V, x, Flip(y), y);
      r := Ite(x, Flip(y), y);
    }

    /** Branch on variable x + 1, wherever it lies relative to the variables of y and z. */
    method IteVar(x: nat, y: Ref, z: Ref) returns (r: Ref)
      requires Valid() && Wf(V, y) && Wf(V, z)
      requires Indep(Den(V, y), x + 1) && Indep(Den(V, z), x + 1)
      modifies `V, `ids, `C
      ensures Valid() && old(V) <= V && Wf(V, r)
      ensures Den(V, r) == Mux(x + 1, Den(old(V), y), Den(old(V), z))
    {
      if x + 1 < y.shift && x + 1 < z.shift {
        r := Add(x + 1, y, z);
      } else {
        ghost var V0 := V;
        var b := FromBit(x, true);
        Grow(V0, V, y); Grow(V0, V, z);
        BitExact(V, x, b, y, z);
        r := Ite(b, y, z);
      }
    }

    /** Replaces pairs of operands whose conjunction is cached by that conjunction. */
    method UseCached(v0: seq<Ref>, ghost lo: nat, ghost n: nat) returns (v: seq<Ref>)
      requires Valid() && AllInRange(V, v0, lo, n) && AllWf(V, v0)
      ensures AllInRange(V, v, lo, n) && AllWf(V, v) && Conj(V, v) == Conj(V, v0)
    {
      v := v0;
      var i := 0;
      while i < |v|
        invariant AllInRange(V, v, lo, n) && AllWf(V, v) && Conj(V, v) == Conj(V, v0)
        decreases |v|, |v| - i
      {
        var k, found := 0, false;
        while k < i && !found
          invariant 0 <= k <= i
          invariant found ==> k < i && PairKey(v[k], v[i]) in C
          decreases i - k, !found
        {
          if PairKey(v[k], v[i]) in C { found := true; } else { k := k + 1; }
        }
        if found {
          var r := C[PairKey(v[k], v[i])];
          PairCached(V, C, v, k, i, lo, n);
          v := Erase(Erase(v, k), i - 1) + [r];
          i := 1;
        } else {
          i := i + 1;
        }
      }
    }

    /** Splits the conjunction of a list at its least variable m. The code says which of the two cofactor lists
        are to be used: 0 both, 1 neither (the conjunction is false), 2 only the high one, 3 only the low one. */
    method AndManyIter(v: seq<Ref>, ghost lo: nat, ghost n: nat)
      returns (code: nat, h: seq<Ref>, l: seq<Ref>, m: nat)
      requires Valid() && AllInRange(V, v, lo, n) && AllWf(V, v) && lo > 0 && v != [] && v[0].id > 1
      modifies `V, `ids, `C, `many
      ensures Valid() && old(V) <= V && lo <= m <= n
      ensures SplitOk(old(V), V, v, m, n, code, h, l)
      decreases n + 1 - lo, 0
    {
      InRangeTop(V, v[0], lo, n);
      m := v[0].shift;
      var i := 1;
      while i < |v|
        invariant 1 <= i <= |v| && lo <= m <= n
        invariant forall j :: 0 <= j < i ==> AtLeast(v[j], m)
      {
        assert InRange(V, v[i], lo, n);
        if !Leaf(v[i]) {
          if v[i].shift < m { m := v[i].shift; }
        } else if !TrueLeaf(v[i]) {
          assert v[i] == F;
          DenLeaf(V);
          ConjHas(V, v, F);
          return 1, [], [], m;
        }
        i := i + 1;
      }
      RangeFrom(V, v, lo, m, n);
      ConjMux(V, v, m);
      var deadH, hs := Cofactors(V, v, m, true, n);
      h := hs;
      if !deadH {
        h := Sorted(h, m + 1, n);
        if h != [] && h[0] == F { deadH := true; FirstFalse(V, h); }
      }
      var deadL, ls := Cofactors(V, v, m, false, n);
      l := ls;
      if deadL {
        MuxEmpty(m);
        return if deadH then 1 else 2, h, l, m;
      }
      l := Sorted(l, m + 1, n);
      if l != [] && l[0] == F {
        FirstFalse(V, l);
        return if deadH then 3 else 2, h, l, m;
      }
      if deadH { return 3, h, l, m; }
      code, h, l := ShareCommon(v, h, l, m, n);
    }

    method Sorted(s: seq<Ref>, ghost lo: nat, ghost n: nat) returns (b: seq<Ref>)
      requires Valid() && AllInRange(V, s, lo, n) && AllWf(V, s)
      ensures AllInRange(V, b, lo, n) && AllWf(V, b) && Conj(V, b) == Conj(V, s)
      ensures b == [F] || (AmNormal(b) && forall r :: r in b ==> r in s)
    {
      b := AmSort(s);
      AmSortRange(V, s, b, lo, n);
    }

    /** Computes the conjunction of the operands common to both cofactor lists once. */
    method ShareCommon(v: seq<Ref>, h0: seq<Ref>, l0: seq<Ref>, m: nat, ghost n: nat)
      returns (code: nat, h: seq<Ref>, l: seq<Ref>)
      requires Valid() && AllInRange(V, h0, m + 1, n) && AllInRange(V, l0, m + 1, n) && m <= n
      requires AllWf(V, v) && AllWf(V, h0) && AllWf(V, l0) && AmNormal(h0) && AmNormal(l0)
      requires Conj(V, v) == Mux(m, Conj(V, h0), Conj(V, l0))
      modifies `V, `ids, `C, `many
      ensures Valid() && old(V) <= V
      ensures SplitOk(old(V), V, v, m, n, code, h, l)
      decreases n + 1 - (m + 1), 3
    {
      NormalSorted(h0); NormalSorted(l0);
      var common := Common(h0, l0);
      var x := Sorted(common, m + 1, n);
      if |x| <= 1 { return 0, h0, l0; }
      NormalSorted(x);
      h := EraseAll(h0, x);
      l := EraseAll(l0, x);
      ghost var V0 := V;
      var r := AndMany(x, m + 1, n);
      SharedPart(V0, V, h0, h, x, m + 1, n, r);
      SharedPart(V0, V, l0, l, x, m + 1, n, r);
      RangeAfter(V0, V, x, m + 1, n, r);
      DenLeaf(V);
      if r == F {
        MuxEmpty(m);
        return 1, h, l;
      }
      h := AddFactor(h, r, m + 1, n);
      l := AddFactor(l, r, m + 1, n);
      code := 0;
    }

    method AddFactor(h: seq<Ref>, r: Ref, ghost lo: nat, ghost n: nat) returns (g: seq<Ref>)
      requires Valid() && AllInRange(V, h, lo, n) && AllWf(V, h) && InRange(V, r, lo, n) && AmNormal(h)
      ensures AllInRange(V, g, lo, n) && AllWf(V, g) && Conj(V, g) == Conj(V, h) * Den(V, r)
      ensures SortedOperands(g)
    {
      NormalSorted(h);
      ConjAppend(V, h, [r]);
      ConjSmall(V, r, r);
      DenLeaf(V);
      g := h;
      if r != T {
        if !HasSorted(h, r) { g := Sorted(h + [r], lo, n); } else { ConjHas(V, h, r); }
      } else {
        assert Conj(V, h) * All() == Conj(V, h);
      }
    }

    /** Conjunction of a list. */
    method AndMany(v0: seq<Ref>, ghost lo: nat, ghost n: nat) returns (r: Ref)
      requires Valid() && AllInRange(V, v0, lo, n) && AllWf(V, v0) && 0 < lo <= n + 1
      modifies `V, `ids, `C, `many
      ensures Valid() && old(V) <= V && Wf(V, r)
      ensures Den(V, r) == Conj(old(V), v0)
      decreases n + 1 - lo, 2
    {
      var v := UseCached(v0, lo, n);
      ConjShort(V, v);
      if v == [] { return T; }
      if |v| == 1 { return v[0]; }
      v := Sorted(v, lo, n);
      ConjShort(V, v);
      if v == [] { return T; }
      if |v| == 1 { return v[0]; }
      if Has(many, AndOnly, v) {
        r := many[AndOnly][v];
        assert EntryOk(V, AndOnly, v, r);
        PlainQuery(AndOnly, Conj(V, v));
        return;
      }
      r := AndManyMiss(v, lo, n);
    }

    /** The memo miss of a conjunction of at least two normal operands. */
    method AndManyMiss(v: seq<Ref>, ghost lo: nat, ghost n: nat) returns (r: Ref)
      requires Valid() && AllInRange(V, v, lo, n) && AllWf(V, v) && 0 < lo <= n + 1 && |v| >= 2 && AmNormal(v)
      modifies `V, `ids, `C, `many
      ensures Valid() && old(V) <= V && Wf(V, r)
      ensures Den(V, r) == Conj(old(V), v)
      decreases n + 1 - lo, 1
    {
      ghost var V0 := V;
      if |v| == 2 {
        ConjShort(V, v);
        r := And(v[0], v[1]);
      } else {
        NormalInner(V, v);
        var code, vh, vl, m := AndManyIter(v, lo, n);
        r := JoinSplit(V0, v, code, vh, vl, m, n);
      }
      PlainQuery(AndOnly, Conj(V0, v));
      r := RememberMany(V0, AndOnly, v, r);
    }

    /** Recombines the two cofactor lists of a split. */
    method JoinSplit(ghost V0: seq<Node>, ghost v: seq<Ref>, code: nat, vh: seq<Ref>, vl: seq<Ref>, m: nat,
          ghost n: nat)
      returns (r: Ref)
      requires Valid() && NodesOk(V0) && V0 <= V && 0 < m <= n && SplitOk(V0, V, v, m, n, code, vh, vl)
      modifies `V, `ids, `C, `many
      ensures Valid() && old(V) <= V && Wf(V, r)
      ensures Den(V, r) == Conj(V0, v)
      decreases n - m, 3
    {
      ghost var V1 := V;
      DenLeaf(V);
      if code == 1 {
        MuxEmpty(m);
        return F;
      }
      var l, h := F, F;
      if code != 2 {
        l := AndMany(vl, m + 1, n);
        RangeAfter(V1, V, vl, m + 1, n, l);
      }
      ghost var V2 := V;
      if code != 3 {
        if code == 0 || code == 2 { AllInRangeGrow(V1, V, vh, m + 1, n); }
        h := AndMany(vh, m + 1, n);
        RangeAfter(V2, V, vh, m + 1, n, h);
      }
      Grow(V2, V, l);
      DenLeaf(V);
      r := Add(m, h, l);
    }

    /** Stores a query result unless one is already there, and returns the stored one. */
    method RememberMany(ghost V0: seq<Node>, q: Query, v: seq<Ref>, r0: Ref) returns (r: Ref)
      requires Valid() && NodesOk(V0) && V0 <= V && AllWf(V0, v) && Wf(V, r0) && Den(V, r0) == Image(q, Conj(V0, v))
      requires AmNormal(v)
      modifies `many
      ensures Valid() && Wf(V, r) && Den(V, r) == Image(q, Conj(V0, v))
    {
      ConjGrow(V0, V, v);
      EmplaceOk(V, many, q, v, r0);
      NormalSorted(v);
      many := Emplace(many, q, v, r0);
      r := many[q][v];
      assert EntryOk(V, q, v, r);
    }

    /** The last quantified (or renamed) position of a query, 0 if there is none. */
    static method LastTouched(q: Query) returns (last: nat)
      requires q.Exists? || (q.ExistsRename? && |q.ex| == |q.p|)
      ensures q.IdleAfter(last + 1)
      ensures last == 0 || last < |q.ex|
    {
      last := 0;
      var n := 0;
      while n < |q.ex|
        invariant 0 <= n <= |q.ex| && (last == 0 || last < n)
        invariant forall i :: last < i < n ==> !q.ex[i] && (q.ExistsRename? ==> q.p[i] == i)
      {
        if q.ex[n] || (q.ExistsRename? && q.p[n] != n) { last := n; }
        n := n + 1;
      }
      forall v: nat | v > last + 1
        ensures !q.Quantified(v) && q.Target(v) == v
      {
        if v <= |q.ex| { assert last < v - 1 < |q.ex|; }
      }
    }

    /** Combines the results for the two cofactors at variable v. */
    method Branch(q: Query, v: nat, h: Ref, l: Ref, ghost H: Fn, ghost L: Fn, ghost n: nat) returns (r: Ref)
      requires Valid() && Wf(V, h) && Wf(V, l) && QueryFits(q, n) && !q.AndOnly?
      requires 0 < v <= n && IndepUpTo(H, v) && IndepUpTo(L, v) && Bounded(H, n) && Bounded(L, n)
      requires (q.Exists? ==> v <= |q.ex|) && (q.Rename? ==> v <= |q.p|)
      requires Den(V, h) == Image(q, H) && Den(V, l) == Image(q, L)
      modifies `V, `ids, `C
      ensures Valid() && old(V) <= V && Wf(V, r)
      ensures Den(V, r) == Image(q, Mux(v, H, L))
    {
      hide NodesOk, CacheOk, UniqueOk, MemosOk, Wf;
      if !q.Rename? && q.ex[v - 1] {
        ImageQuantified(q, v, H, L);
        r := Or(h, l);
      } else if q.Exists? {
        ImageKept(q, v, H, L);
        ExistsAbove(q.ex, H, v); ExistsAbove(q.ex, L, v);
        AboveIfIndep(V, h, v); AboveIfIndep(V, l, v);
        r := Add(v, h, l);
      } else {
        ImageKept(q, v, H, L);
        ImageApart(q, H, n, v); ImageApart(q, L, n, v);
        r := IteVar(q.p[v - 1], h, l);
      }
    }

    /** Existential quantification. */
    method Ex(x: Ref, b: seq<bool>, last: nat, ghost lo: nat, ghost n: nat) returns (r: Ref)
      requires Valid() && InRange(V, x, lo, n) && 0 < lo <= n + 1
      requires last < |b| && Exists(b).IdleAfter(last + 1)
      modifies `V, `ids, `C, `one
      ensures Valid() && old(V) <= V && Wf(V, r)
      ensures Den(V, r) == Image(Exists(b), Den(old(V), x))
      decreases n + 1 - lo, 1
    {
      if Leaf(x) || x.shift > last + 1 {
        IdleRef(V, Exists(b), x, last + 1);
        return x;
      }
      if Has(one, Exists(b), [x]) {
        r := one[Exists(b)][[x]];
        OneHit(V, one, Exists(b), x);
        return;
      }
      r := ExMiss(x, b, last, lo, n);
    }

    method ExMiss(x: Ref, b: seq<bool>, last: nat, ghost lo: nat, ghost n: nat) returns (r: Ref)
      requires Valid() && InRange(V, x, lo, n) && 0 < lo && x.id > 1 && x.shift <= last + 1
      requires last < |b| && Exists(b).IdleAfter(last + 1)
      modifies `V, `ids, `C, `one
      ensures Valid() && old(V) <= V && Wf(V, r)
      ensures Den(V, r) == Image(Exists(b), Den(old(V), x))
      decreases n + 1 - lo, 0
    {
      ghost var V0 := V;
      var v := x.shift;
      InRangeTop(V, x, lo, n);
      var xh, xl := Hi(V, x), Lo(V, x);
      CofactorRange(V, x, n);
      ghost var H, L := Den(V, xh), Den(V, xl);
      hide NodesOk, Wf, Den, InRange;
      if b[v - 1] {
        ImageQuantified(Exists(b), v, H, L);
        var o := Or(xh, xl);
        OrInRange(V, H, L, v, n, o);
        r := Ex(o, b, last, v + 1, n);
      } else {
        var h := Ex(xh, b, last, v + 1, n);
        ghost var V1 := V;
        InRangeGrow(V0, V1, xl, v + 1, n);
        var l := Ex(xl, b, last, v + 1, n);
        Grow(V1, V, h);
        r := Branch(Exists(b), v, h, l, H, L, n);
        r := RememberOne(V0, Exists(b), x, r);
      }
    }

    /** Renaming of the variables. */
    method Permute(x: Ref, p: seq<nat>, ghost lo: nat, ghost n: nat) returns (r: Ref)
      requires Valid() && InRange(V, x, lo, n) && 0 < lo <= n + 1 && Rename(p).InjectiveUpTo(n)
      modifies `V, `ids, `C, `one
      ensures Valid() && old(V) <= V && Wf(V, r)
      ensures Den(V, r) == Image(Rename(p), Den(old(V), x))
      decreases n + 1 - lo
    {
      if Leaf(x) || |p| <= x.shift - 1 {
        IdleRef(V, Rename(p), x, |p|);
        return x;
      }
      if Has(one, Rename(p), [x]) {
        r := one[Rename(p)][[x]];
        OneHit(V, one, Rename(p), x);
        return;
      }
      ghost var V0 := V;
      var v := x.shift;
      InRangeTop(V, x, lo, n);
      var xh, xl := Hi(V, x), Lo(V, x);
      CofactorRange(V, x, n);
      ghost var H, L := Den(V, xh), Den(V, xl);
      var h := Permute(xh, p, v + 1, n);
      ghost var V1 := V;
      InRangeGrow(V0, V1, xl, v + 1, n);
      var l := Permute(xl, p, v + 1, n);
      Grow(V1, V, h);
      r := Branch(Rename(p), v, h, l, H, L, n);
      r := RememberOne(V0, Rename(p), x, r);
    }

    /** Quantification and renaming in one pass. */
    method PermuteEx(x: Ref, q: Query, last: nat, ghost lo: nat, ghost n: nat) returns (r: Ref)
      requires Valid() && InRange(V, x, lo, n) && 0 < lo <= n + 1
      requires q.ExistsRename? && QueryFits(q, n) && q.IdleAfter(last + 1)
      modifies `V, `ids, `C, `one
      ensures Valid() && old(V) <= V && Wf(V, r)
      ensures Den(V, r) == Image(q, Den(old(V), x))
      decreases n + 1 - lo, 1
    {
      if Leaf(x) || x.shift > last + 1 {
        IdleRef(V, q, x, last + 1);
        return x;
      }
      if Has(one, q, [x]) {
        r := one[q][[x]];
        OneHit(V, one, q, x);
        return;
      }
      ghost var V0 := V;
      var y, done := SkipQuantified(x, q, lo, n);
      if done {
        r := y;
      } else {
        r := PermuteExKept(y, q, last, y.shift, n);
      }
      r := RememberOne(V0, q, x, r);
    }

    /** Merges the cofactors while the top variable is quantified. Done means that a constant is reached. */
    method SkipQuantified(x: Ref, q: Query, ghost lo: nat, ghost n: nat) returns (y: Ref, done: bool)
      requires Valid() && InRange(V, x, lo, n) && 0 < lo && x.id > 1 && q.ExistsRename? && QueryFits(q, n)
      modifies `V, `ids, `C
      ensures Valid() && old(V) <= V && Wf(V, y)
      ensures done ==> Den(V, y) == Image(q, Den(old(V), x))
      ensures !done ==> y.id > 1 && lo <= y.shift <= n && !q.ex[y.shift - 1]
      ensures !done ==> InRange(V, y, y.shift, n) && Image(q, Den(V, y)) == Image(q, Den(old(V), x))
    {
      y, done := x, false;
      InRangeTop(V, x, lo, n);
      while y.shift - 1 < |q.ex| && q.ex[y.shift - 1]
        invariant Valid() && old(V) <= V && InRange(V, y, y.shift, n) && y.id > 1 && lo <= y.shift <= n
        invariant Image(q, Den(V, y)) == Image(q, Den(old(V), x))
        decreases n - y.shift
      {
        var v := y.shift;
        CofactorRange(V, y, n);
        ghost var H, L := Den(V, Hi(V, y)), Den(V, Lo(V, y));
        ImageQuantified(q, v, H, L);
        var r := Or(Hi(V, y), Lo(V, y));
        OrInRange(V, H, L, v, n, r);
        y := r;
        if Leaf(r) {
          done := true;
          IdleRef(V, q, r, |q.ex|);
          return;
        }
        InRangeTop(V, r, v + 1, n);
      }
    }

    /** The renaming step at a kept top variable. */
    method PermuteExKept(y: Ref, q: Query, last: nat, ghost lo: nat, ghost n: nat) returns (r: Ref)
      requires Valid() && InRange(V, y, y.shift, n) && y.id > 1 && 0 < lo <= y.shift <= n
      requires q.ExistsRename? && QueryFits(q, n) && q.IdleAfter(last + 1) && !q.ex[y.shift - 1]
      modifies `V, `ids, `C, `one
      ensures Valid() && old(V) <= V && Wf(V, r)
      ensures Den(V, r) == Image(q, Den(old(V), y))
      decreases n + 1 - lo, 0
    {
      ghost var V0 := V;
      var v := y.shift;
      var yh, yl := Hi(V, y), Lo(V, y);
      CofactorRange(V, y, n);
      ghost var H, L := Den(V, yh), Den(V, yl);
      var h := PermuteEx(yh, q, last, v + 1, n);
      ghost var V1 := V;
      InRangeGrow(V0, V1, yl, v + 1, n);
      var l := PermuteEx(yl, q, last, v + 1, n);
      Grow(V1, V, h);
      r := Branch(q, v, h, l, H, L, n);
    }

    /** A query on one operand. */
    method OneQuery(x: Ref, q: Query, last: nat, ghost lo: nat, ghost n: nat) returns (r: Ref)
      requires Valid() && InRange(V, x, lo, n) && 0 < lo <= n + 1 && FusedOk(q, last, n)
      modifies `V, `ids, `C, `one
      ensures Valid() && old(V) <= V && Wf(V, r)
      ensures Den(V, r) == Image(q, Den(old(V), x))
    {
      if q.Exists? { r := Ex(x, q.ex, last, lo, n); } else { r := PermuteEx(x, q, last, lo, n); }
    }

    /** A query on the conjunction of two operands. */
    method PairQuery(x0: Ref, y0: Ref, q: Query, last: nat, ghost lo: nat, ghost n: nat) returns (r: Ref)
      requires Valid() && InRange(V, x0, lo, n) && InRange(V, y0, lo, n) && 0 < lo <= n + 1 && FusedOk(q, last, n)
      modifies `V, `ids, `C, `one, `pair
      ensures Valid() && old(V) <= V && Wf(V, r)
      ensures Den(V, r) == Image(q, Den(old(V), x0) * Den(old(V), y0))
      decreases n + 1 - lo, 1
    {
      hide CacheOk, UniqueOk;
      AndDecided(V, x0, y0);
      ImageConstant(q);
      if x0 == F || y0 == F || x0 == Flip(y0) { return F; }
      if x0 == T || x0 == y0 { r := OneQuery(y0, q, last, lo, n); return; }
      if y0 == T { r := OneQuery(x0, q, last, lo, n); return; }
      var x, y := x0, y0;
      if UnsignedLt(y, x) { x, y := y, x; }
      if Has(pair, q, [x, y]) {
        r := pair[q][[x, y]];
        PairHit(V, pair, q, x, y);
        return;
      }
      ghost var V0 := V;
      if x.shift > last + 1 && y.shift > last + 1 {
        IdlePair(V, q, x, y, last + 1);
        r := And(x, y);
      } else {
        r := PairMiss(x, y, q, last, lo, n);
      }
      r := RememberPair(V0, q, x, y, r);
    }

    method PairMiss(x: Ref, y: Ref, q: Query, last: nat, ghost lo: nat, ghost n: nat) returns (r: Ref)
      requires Valid() && InRange(V, x, lo, n) && InRange(V, y, lo, n) && 0 < lo && FusedOk(q, last, n)
      requires x.id > 1 && y.id > 1 && (x.shift <= last + 1 || y.shift <= last + 1)
      modifies `V, `ids, `C, `one, `pair
      ensures Valid() && old(V) <= V && Wf(V, r)
      ensures Den(V, r) == Image(q, Den(old(V), x) * Den(old(V), y))
      decreases n + 1 - lo, 0
    {
      hide NodesOk, CacheOk, UniqueOk, MemosOk;
      ghost var V0 := V;
      var v := Min(x.shift, y.shift);
      var xh, xl, yh, yl := Cof(V, x, v, true), Cof(V, x, v, false), Cof(V, y, v, true), Cof(V, y, v, false);
      PairRange(V, x, y, v, lo, n);
      ghost var H, L := Den(V, xh) * Den(V, yh), Den(V, xl) * Den(V, yl);
      var h := PairQuery(xh, yh, q, last, v + 1, n);
      ghost var V1 := V;
      InRangeGrow(V0, V1, xl, v + 1, n); InRangeGrow(V0, V1, yl, v + 1, n);
      var l := PairQuery(xl, yl, q, last, v + 1, n);
      Grow(V1, V, h);
      r := Branch(q, v, h, l, H, L, n);
    }

    /** The split used when only quantifying; no common operands are looked for. */
    method AndManyExIter(v: seq<Ref>, ghost lo: nat, ghost n: nat)
      returns (code: nat, h: seq<Ref>, l: seq<Ref>, m: nat)
      requires Valid() && AllInRange(V, v, lo, n) && AllWf(V, v) && lo > 0 && v != [] && AmNormal(v)
      ensures lo <= m <= n && SplitOk(V, V, v, m, n, code, h, l)
    {
      NormalNonLeaf(V, v);
      InRangeTop(V, v[0], lo, n);
      m := v[0].shift;
      var i := 1;
      while i < |v|
        invariant 1 <= i <= |v| && lo <= m <= n
        invariant forall j :: 0 <= j < i ==> AtLeast(v[j], m)
      {
        assert InRange(V, v[i], lo, n) && v[i] in v;
        m := Min(m, v[i].shift);
        i := i + 1;
      }
      RangeFrom(V, v, lo, m, n);
      ConjMux(V, v, m);
      var deadH, hs := Cofactors(V, v, m, true, n);
      var deadL, ls := Cofactors(V, v, m, false, n);
      h, l := hs, ls;
      if !deadH { h := Sorted(h, m + 1, n); }
      if !deadL { l := Sorted(l, m + 1, n); }
      MuxEmpty(m);
      code := if deadH then (if deadL then 1 else 3) else if deadL then 2 else 0;
    }

    /** A query on the conjunction of a sorted operand list. */
    method ManyQuery(v: seq<Ref>, q: Query, last: nat, ghost lo: nat, ghost n: nat) returns (r: Ref)
      requires Valid() && AllInRange(V, v, lo, n) && AllWf(V, v) && 0 < lo <= n + 1 && FusedOk(q, last, n)
      requires SortedOperands(v)
      modifies `V, `ids, `C, `one, `pair, `many
      ensures Valid() && old(V) <= V && Wf(V, r)
      ensures Den(V, r) == Image(q, Conj(old(V), v))
      decreases n + 1 - lo, 1
    {
      ConjShort(V, v);
      ImageConstant(q);
      DenLeaf(V);
      if v == [] { return T; }
      if |v| == 1 {
        assert InRange(V, v[0], lo, n);
        r := OneQuery(v[0], q, last, lo, n);
        return;
      }
      if |v| == 2 {
        assert InRange(V, v[0], lo, n) && InRange(V, v[1], lo, n);
        r := PairQuery(v[0], v[1], q, last, lo, n);
        return;
      }
      if Has(many, q, v) {
        r := many[q][v];
        assert EntryOk(V, q, v, r);
        return;
      }
      r := ManyQueryMiss(v, q, last, lo, n);
    }

    method ManyQueryMiss(v: seq<Ref>, q: Query, last: nat, ghost lo: nat, ghost n: nat) returns (r: Ref)
      requires Valid() && AllInRange(V, v, lo, n) && AllWf(V, v) && 0 < lo <= n + 1 && FusedOk(q, last, n)
      requires AmNormal(v) && v != []
      modifies `V, `ids, `C, `one, `pair, `many
      ensures Valid() && old(V) <= V && Wf(V, r)
      ensures Den(V, r) == Image(q, Conj(old(V), v))
      decreases n + 1 - lo, 0
    {
      ghost var V0 := V;
      NormalInner(V, v);
      var code, vh, vl, m;
      if q.Exists? {
        code, vh, vl, m := AndManyExIter(v, lo, n);
      } else {
        code, vh, vl, m := AndManyIter(v, lo, n);
      }
      if m > last + 1 {
        IdleSplit(V0, V, q, v, m, n, code, vh, vl, last + 1);
        r := JoinSplit(V0, v, code, vh, vl, m, n);
      } else {
        r := QuerySplit(V0, v, q, last, code, vh, vl, m, n);
      }
      r := RememberMany(V0, q, v, r);
    }

    /** Applies the query to both cofactor lists of a split and recombines the results. */
    method QuerySplit(ghost V0: seq<Node>, ghost v: seq<Ref>, q: Query, last: nat, code: nat, vh: seq<Ref>,
          vl: seq<Ref>, m: nat, ghost n: nat)
      returns (r: Ref)
      requires Valid() && NodesOk(V0) && V0 <= V && 0 < m <= n && m <= last + 1 && FusedOk(q, last, n)
      requires SplitOk(V0, V, v, m, n, code, vh, vl)
      modifies `V, `ids, `C, `one, `pair, `many
      ensures Valid() && old(V) <= V && Wf(V, r)
      ensures Den(V, r) == Image(q, Conj(V0, v))
      decreases n - m, 3
    {
      ghost var V1 := V;
      DenLeaf(V);
      ImageConstant(q);
      PartsRange(V, m, n, code, vh, vl);
      ghost var H, L := HighPart(V, code, vh), LowPart(V, code, vl);
      if code == 1 {
        MuxEmpty(m);
        return F;
      }
      var h, l := F, F;
      if code != 2 { l := ManyQuery(vl, q, last, m + 1, n); }
      ghost var V2 := V;
      if code != 3 {
        AllInRangeGrow(V1, V, vh, m + 1, n);
        h := ManyQuery(vh, q, last, m + 1, n);
      }
      Grow(V2, V, l);
      DenLeaf(V);
      r := Branch(q, m, h, l, H, L, n);
    }

    /** Stores a query result unless one is already there, and returns the stored one. */
    method RememberOne(ghost V0: seq<Node>, q: Query, x: Ref, r0: Ref) returns (r: Ref)
      requires Valid() && NodesOk(V0) && V0 <= V && Wf(V0, x) && Wf(V, r0) && Den(V, r0) == Image(q, Den(V0, x))
      modifies `one
      ensures Valid() && Wf(V, r) && Den(V, r) == Image(q, Den(V0, x))
    {
      Grow(V0, V, x);
      ConjShort(V, [x]);
      EmplaceOk(V, one, q, [x], r0);
      one := Emplace(one, q, [x], r0);
      r := one[q][[x]];
      assert EntryOk(V, q, [x], r);
    }

    method RememberPair(ghost V0: seq<Node>, q: Query, x: Ref, y: Ref, r0: Ref) returns (r: Ref)
      requires Valid() && NodesOk(V0) && V0 <= V && Wf(V0, x) && Wf(V0, y)
      requires Wf(V, r0) && Den(V, r0) == Image(q, Den(V0, x) * Den(V0, y))
      modifies `pair
      ensures Valid() && Wf(V, r) && Den(V, r) == Image(q, Den(V0, x) * Den(V0, y))
    {
      Grow(V0, V, x); Grow(V0, V, y);
      ConjShort(V, [x, y]);
      EmplaceOk(V, pair, q, [x, y], r0);
      pair := Emplace(pair, q, [x, y], r0);
      r := pair[q][[x, y]];
      assert EntryOk(V, q, [x, y], r);
    }

    // ----- handles and garbage collection

    /** The unique handle of a reference. */
    method GetHandle(r: Ref) returns (h: nat)
      requires ValidHandles() && Wf(V, r) && Above(r, 0)
      modifies `registry, `handles, `next
      ensures ValidHandles() && h in handles && handles[h] == r
      ensures handles == if h in old(handles) then old(handles) else old(handles)[h := r]
    {
      if r in registry {
        h := registry[r];
      } else {
        h := next;
        RegistryNew(V, registry, handles, next, r);
        registry, handles, next := registry[r := h], handles[h := r], next + 1;
      }
    }

    /** The end of a handle's life. */
    method Drop(h: nat)
      requires ValidHandles() && h in handles
      modifies `registry, `handles
      ensures ValidHandles() && handles == old(handles) - {h}
    {
      registry := registry - {handles[h]};
      handles := handles - {h};
    }

    /** Mark and compact: only nodes reachable from live handles stay, no live handle changes its meaning, and
        the order of references is kept. ValidHandles says that the node table stays canonical, that the unique
        table is its inverse, and that every surviving memo entry is true and sorted. */
    method Gc()
      requires ValidHandles()
      modifies `V, `ids, `C, `one, `pair, `many, `registry, `handles
      ensures ValidHandles()
      ensures if gcEnabled then HandlesMoved(old(V), V, old(handles), handles)
        else V == old(V) && handles == old(handles)
    {
      if !gcEnabled { return; }
      var S := MarkLive();
      MarkedChildren(V, S);
      S := S + {0, 1};
      var W, registry', handles', C', one', pair', many' := Collect(V, S, handles, registry, next, C, one, pair, many);
      var ids' := Index(W);
      Install(W, ids', C', one', pair', many', registry', handles');
    }

    /** Replaces the whole state of the store. */
    method Install(V': seq<Node>, ids': map<Node, nat>, C': Table, one': map<Query, Table>, pair': map<Query, Table>,
        many': map<Query, Table>, registry': map<Ref, nat>, handles': map<nat, Ref>)
      requires NodesOk(V') && UniqueOk(V', ids') && CacheOk(V', C') && KeysSorted(many')
      requires MemosOk(V', one') && MemosOk(V', pair') && MemosOk(V', many')
      requires RegistryOk(V', registry', handles', next)
      modifies `V, `ids, `C, `one, `pair, `many, `registry, `handles
      ensures ValidHandles() && V == V' && handles == handles'
    {
      V, ids, C, one, pair, many, registry, handles := V', ids', C', one', pair', many', registry', handles';
    }

    /** The ids reachable from the live handles. */
    method MarkLive() returns (S: set<nat>)
      requires ValidHandles()
      ensures Closed(V, S)
      ensures RootsMarked(S + {0, 1}, handles)
      ensures OnlyReached(V, handles, S)
    {
      S := {};
      var todo := handles.Keys;
      while todo != {}
        invariant todo <= handles.Keys && Closed(V, S)
        invariant forall h :: h in handles && h !in todo && handles[h].id > 1 ==> handles[h].id in S
        invariant OnlyReached(V, handles, S)
        decreases |todo|
      {
        var h :| h in todo;
        todo := todo - {h};
        S := MarkAll(V, handles[h], S);
      }
    }

    /** Handles are equal exactly when they stand for the same function. */
    lemma SameHandleSameFunction(g: nat, h: nat)
      requires ValidHandles() && g in handles && h in handles
      ensures g == h <==> Meaning(g) == Meaning(h)
    {
      assert HandleOk(V, registry, handles, next, g) && HandleOk(V, registry, handles, next, h);
      Canonical(V, handles[g], handles[h]);
    }

    /** The conjunction of the functions of live handles. */
    ghost function MeaningAll(hs: seq<nat>): Fn
      requires ValidHandles() && forall i :: 0 <= i < |hs| ==> hs[i] in handles
      reads this
    {
      iset a: Asg | MeaningAt(hs, a)
    }

    ghost predicate MeaningAt(hs: seq<nat>, a: Asg)
      requires ValidHandles() && forall i :: 0 <= i < |hs| ==> hs[i] in handles
      reads this
    {
      forall i :: 0 <= i < |hs| ==> a in Meaning(hs[i])
    }

    /** The handle-level query: the handle returned stands for "exists ex. and of all operands, renamed", and no
        other live handle changes its meaning, whether or not a collection takes place first. */
    method Query(hs: seq<nat>, q: Query, ghost n: nat) returns (h: nat)
      requires ValidHandles() && QueryFits(q, n) && !q.Rename?
      requires forall i :: 0 <= i < |hs| ==> hs[i] in handles && Bounded(Meaning(hs[i]), n)
      modifies `V, `ids, `C, `one, `pair, `many, `registry, `handles, `next
      ensures ValidHandles() && h in handles && Meaning(h) == Image(q, old(MeaningAll(hs)))
      ensures forall g :: g in old(handles) ==> g in handles && Meaning(g) == old(Meaning(g))
    {
      CollectIfLarge(hs);
      ghost var V1 := V;
      var s := Refs(hs);
      RefsMeaning(hs, s, n);
      var r := RunQuery(s, q, n);
      h := Keep(r, V1);
    }

    method CollectIfLarge(ghost hs: seq<nat>)
      requires ValidHandles() && forall i :: 0 <= i < |hs| ==> hs[i] in handles
      modifies `V, `ids, `C, `one, `pair, `many, `registry, `handles
      ensures ValidHandles() && handles.Keys == old(handles.Keys)
      ensures forall g :: g in handles ==> Meaning(g) == old(Meaning(g))
      ensures MeaningAll(hs) == old(MeaningAll(hs))
    {
      if |V| >= gcLimit { Gc(); }
      assert forall g :: g in handles ==> Meaning(g) == old(Meaning(g));
      assert forall a: Asg :: MeaningAt(hs, a) <==> old(MeaningAt(hs, a));
    }

    /** The query on references. */
    method RunQuery(s: seq<Ref>, q: Query, ghost n: nat) returns (r: Ref)
      requires Valid() && AllInRange(V, s, 1, n) && AllWf(V, s) && QueryFits(q, n) && !q.Rename?
      modifies `V, `ids, `C, `one, `pair, `many
      ensures Valid() && old(V) <= V && Wf(V, r) && Above(r, 0)
      ensures Den(V, r) == Image(q, Conj(old(V), s))
    {
      ghost var V1 := V;
      var b := Sorted(s, 1, n);
      if q.AndOnly? || (q.Exists? && true !in q.ex) {
        PlainQuery(q, Conj(V, b));
        r := AndMany(b, 1, n);
      } else {
        var last := LastTouched(q);
        r := ManyQuery(b, q, last, 1, n);
      }
      ResultAbove(V1, V, q, b, n, r);
    }

    /** The references of the operands. */
    method Refs(hs: seq<nat>) returns (s: seq<Ref>)
      requires ValidHandles() && forall i :: 0 <= i < |hs| ==> hs[i] in handles
      ensures |s| == |hs| && forall i :: 0 <= i < |hs| ==> s[i] == handles[hs[i]]
    {
      s := [];
      var n := 0;
      while n < |hs|
        invariant 0 <= n <= |hs| && |s| == n
        invariant forall i :: 0 <= i < n ==> s[i] == handles[hs[i]]
      {
        s := s + [handles[hs[n]]];
        n := n + 1;
      }
    }

    lemma RefsMeaning(hs: seq<nat>, s: seq<Ref>, n: nat)
      requires ValidHandles()
      requires forall i :: 0 <= i < |hs| ==> hs[i] in handles && Bounded(Meaning(hs[i]), n)
      requires |s| == |hs| && forall i :: 0 <= i < |hs| ==> s[i] == handles[hs[i]]
      ensures AllInRange(V, s, 1, n) && AllWf(V, s) && Conj(V, s) == MeaningAll(hs)
    {
      forall i | 0 <= i < |hs| ensures InRange(V, s[i], 1, n) && Den(V, s[i]) == Meaning(hs[i]) {
        assert HandleOk(V, registry, handles, next, hs[i]);
      }
      forall a: Asg ensures a in Conj(V, s) <==> a in MeaningAll(hs) {
        assert forall i :: 0 <= i < |hs| ==> (a in Meaning(hs[i]) <==> Sem(V, s[i], a));
        if a in MeaningAll(hs) {
          forall r | r in s ensures Sem(V, r, a) {
            var i :| 0 <= i < |s| && s[i] == r;
          }
        } else {
          var i :| 0 <= i < |hs| && a !in Meaning(hs[i]);
          assert s[i] in s;
        }
      }
    }

    /** Registers a result; older handles keep their meaning. */
    method Keep(r: Ref, ghost V1: seq<Node>) returns (h: nat)
      requires Valid() && NodesOk(V1) && V1 <= V && RegistryOk(V1, registry, handles, next) && Wf(V, r) && Above(r, 0)
      modifies `registry, `handles, `next
      ensures ValidHandles() && h in handles && Meaning(h) == Den(V, r)
      ensures forall g :: g in old(handles) ==>
        g in handles && Wf(V1, old(handles[g])) && Meaning(g) == Den(V1, old(handles[g]))
    {
      RegistryGrow(V1, V, registry, handles, next);
      h := GetHandle(r);
    }
  }
}
