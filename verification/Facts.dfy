/** Building a table from ground facts by bitwise partition, and reading it back. */
module Facts {
  import opened BddRef
  import opened BddSem
  import opened BddAlgebra
  import opened BddQuery
  import opened BddLists
  import opened BddSteps
  import opened BddStore
  import opened BddSat
  import opened Circuits

  type Tuple = seq<nat>

  // ----- positions

  /** The inverse of Pos: the argument and the bit stored at a position. */
  function ArgAt(v: nat, args: nat): nat
    requires args > 0
  {
    v % args
  }

  function BitAt(v: nat, args: nat, bits: nat): nat
    requires args > 0 && v < args * bits
  {
    QuotientBound(v, args, bits);
    bits - 1 - v / args
  }

  lemma QuotientBound(v: nat, args: nat, bits: nat)
    requires args > 0 && v < args * bits
    ensures v / args < bits
  {
    var q := v / args;
    assert v == q * args + v % args;
    if q > bits { MulMono(bits, q, args); }
  }

  lemma PosRange(bit: nat, arg: nat, args: nat, bits: nat)
    requires bit < bits && arg < args
    ensures Pos(bit, arg, args, bits) < args * bits
  {
    MulMono(bits - bit - 1, bits, args);
  }

  /** Positions and (bit, argument) pairs correspond one to one. */
  lemma PosInverse(bit: nat, arg: nat, args: nat, bits: nat)
    requires bit < bits && arg < args
    ensures Pos(bit, arg, args, bits) < args * bits
    ensures ArgAt(Pos(bit, arg, args, bits), args) == arg && BitAt(Pos(bit, arg, args, bits), args, bits) == bit
  {
    PosRange(bit, arg, args, bits);
    var v, q := Pos(bit, arg, args, bits), bits - bit - 1;
    var q', r' := v / args, v % args;
    assert v == q' * args + r';
    if q < q' { MulMono(q, q', args); } else if q' < q { MulMono(q', q, args); }
  }

  // ----- tuples as bit vectors

  ghost predicate TupleOk(t: Tuple, args: nat, bits: nat) {
    |t| == args && forall n :: 0 <= n < args ==> t[n] < Pow2(bits)
  }

  /** The bit of a tuple at position v. */
  predicate TupleBit(t: Tuple, args: nat, bits: nat, v: nat)
    requires |t| == args && args > 0 && v < args * bits
  {
    HasBit(t[ArgAt(v, args)], BitAt(v, args, bits))
  }

  ghost predicate Encodes(s: seq<bool>, t: Tuple, args: nat, bits: nat)
    requires |t| == args && args > 0
  {
    |s| == args * bits && forall v :: 0 <= v < args * bits ==> s[v] == TupleBit(t, args, bits, v)
  }

  /** The number read from the low k bits of argument n. */
  ghost function ReadNum(s: seq<bool>, n: nat, args: nat, bits: nat, k: nat): nat
    requires n < args && k <= bits && |s| == args * bits
  {
    if k == 0 then 0
    else
      PosRange(k - 1, n, args, bits);
      ReadNum(s, n, args, bits, k - 1) + (if s[Pos(k - 1, n, args, bits)] then Pow2(k - 1) else 0)
  }

  lemma {:induction false} ReadEncoded(s: seq<bool>, t: Tuple, n: nat, args: nat, bits: nat, k: nat)
    requires |t| == args && n < args && k <= bits && Encodes(s, t, args, bits)
    ensures ReadNum(s, n, args, bits, k) == t[n] % Pow2(k)
  {
    if k > 0 {
      ReadEncoded(s, t, n, args, bits, k - 1);
      PosInverse(k - 1, n, args, bits);
      ModStep(t[n], k - 1);
    }
  }

  /** Reading back an encoded tuple gives the tuple. */
  method ReadTuple(p: seq<bool>, len: nat, bits: nat) returns (r: Tuple)
    requires |p| == len * bits
    ensures IsRead(r, p, len, bits)
  {
    r := seq(len, i => 0);
    var n := 0;
    while n < len
      invariant 0 <= n <= len && |r| == len
      invariant forall m :: 0 <= m < n ==> r[m] == ReadNum(p, m, len, bits, bits)
      invariant forall m :: n <= m < len ==> r[m] == 0
    {
      var k := 0;
      while k < bits
        invariant 0 <= k <= bits && |r| == len && r[n] == ReadNum(p, n, len, bits, k)
        invariant forall m :: 0 <= m < n ==> r[m] == ReadNum(p, m, len, bits, bits)
        invariant forall m :: n < m < len ==> r[m] == 0
      {
        PosRange(k, n, len, bits);
        if p[Pos(k, n, len, bits)] { r := r[n := r[n] + Pow2(k)]; }
        k := k + 1;
      }
      n := n + 1;
    }
  }

  lemma ReadBackAt(s: seq<bool>, t: Tuple, n: nat, args: nat, bits: nat)
    requires n < args && TupleOk(t, args, bits) && Encodes(s, t, args, bits)
    ensures ReadNum(s, n, args, bits, bits) == t[n]
  {
    ReadEncoded(s, t, n, args, bits, bits);
    ModUnique(t[n], Pow2(bits), 0, t[n]);
  }

  /** r is the tuple read from a vector. */
  ghost predicate IsRead(r: Tuple, s: seq<bool>, args: nat, bits: nat) {
    |r| == args && |s| == args * bits && forall n :: 0 <= n < args ==> r[n] == ReadNum(s, n, args, bits, bits)
  }

  ghost predicate AllRead(r: seq<Tuple>, vectors: seq<seq<bool>>, args: nat, bits: nat) {
    |r| == |vectors| && forall i :: 0 <= i < |r| ==> IsRead(r[i], vectors[i], args, bits)
  }

  lemma ReadBack(s: seq<bool>, t: Tuple, r: Tuple, args: nat, bits: nat)
    requires args > 0 && TupleOk(t, args, bits) && Encodes(s, t, args, bits)
    requires IsRead(r, s, args, bits)
    ensures r == t
  {
    forall n | 0 <= n < args ensures r[n] == t[n] {
      ReadBackAt(s, t, n, args, bits);
    }
  }

  // ----- the function of a set of facts

  ghost predicate FactsOk(facts: seq<Tuple>, args: nat, bits: nat) {
    args > 0 && bits > 0 && forall t :: t in facts ==> TupleOk(t, args, bits)
  }

  /** The assignment agrees with the tuple from position pos on. */
  ghost predicate MatchFrom(a: Asg, t: Tuple, args: nat, bits: nat, pos: nat)
    requires |t| == args && args > 0
  {
    forall v :: pos <= v < args * bits ==> (v + 1 in a <==> TupleBit(t, args, bits, v))
  }

  ghost predicate SomeMatch(a: Asg, facts: seq<Tuple>, args: nat, bits: nat, pos: nat)
    requires FactsOk(facts, args, bits)
  {
    exists t :: t in facts && MatchFrom(a, t, args, bits, pos)
  }

  ghost function TailFn(facts: seq<Tuple>, args: nat, bits: nat, pos: nat): Fn
    requires FactsOk(facts, args, bits)
  {
    iset a: Asg | SomeMatch(a, facts, args, bits, pos)
  }

  ghost predicate SameBefore(t: Tuple, u: Tuple, args: nat, bits: nat, pos: nat)
    requires |t| == args && |u| == args && args > 0 && pos <= args * bits
  {
    forall v :: 0 <= v < pos ==> TupleBit(t, args, bits, v) == TupleBit(u, args, bits, v)
  }

  /** No two facts differ exactly in the last position, bit 0 of the last argument. */
  ghost predicate NoClash(facts: seq<Tuple>, args: nat, bits: nat)
    requires FactsOk(facts, args, bits)
  {
    forall t, u :: t in facts && u in facts && SameBefore(t, u, args, bits, args * bits - 1) ==>
      TupleBit(t, args, bits, args * bits - 1) == TupleBit(u, args, bits, args * bits - 1)
  }

  ghost predicate Split(facts: seq<Tuple>, clear: seq<Tuple>, raised: seq<Tuple>, args: nat, bits: nat, pos: nat)
    requires FactsOk(facts, args, bits) && pos < args * bits
  {
    && FactsOk(clear, args, bits) && FactsOk(raised, args, bits)
    && (forall t :: t in clear <==> t in facts && !TupleBit(t, args, bits, pos))
    && (forall t :: t in raised <==> t in facts && TupleBit(t, args, bits, pos))
  }

  /** All facts agree on the positions before pos. */
  ghost predicate Agree(facts: seq<Tuple>, args: nat, bits: nat, pos: nat)
    requires FactsOk(facts, args, bits) && pos <= args * bits
  {
    forall t, u :: t in facts && u in facts ==> SameBefore(t, u, args, bits, pos)
  }

  /** The facts whose bit at a position is clear, and those whose bit is set. */
  method Partition(facts: seq<Tuple>, args: nat, bits: nat, pos: nat) returns (clear: seq<Tuple>, raised: seq<Tuple>)
    requires FactsOk(facts, args, bits) && pos < args * bits
    ensures Split(facts, clear, raised, args, bits, pos)
  {
    clear, raised := [], [];
    var i := 0;
    while i < |facts|
      invariant 0 <= i <= |facts|
      invariant FactsOk(facts[..i], args, bits) && Split(facts[..i], clear, raised, args, bits, pos)
    {
      assert facts[i] in facts && facts[..i + 1] == facts[..i] + [facts[i]];
      if TupleBit(facts[i], args, bits, pos) { raised := raised + [facts[i]]; } else { clear := clear + [facts[i]]; }
      i := i + 1;
    }
    assert facts[..i] == facts;
  }

  lemma MatchStep(a: Asg, t: Tuple, args: nat, bits: nat, pos: nat)
    requires |t| == args && args > 0 && pos < args * bits
    ensures MatchFrom(a, t, args, bits, pos) <==>
      (pos + 1 in a <==> TupleBit(t, args, bits, pos)) && MatchFrom(a, t, args, bits, pos + 1)
  {
  }

  lemma TailSplit(facts: seq<Tuple>, clear: seq<Tuple>, raised: seq<Tuple>, args: nat, bits: nat, pos: nat)
    requires FactsOk(facts, args, bits) && pos < args * bits && Split(facts, clear, raised, args, bits, pos)
    ensures TailFn(facts, args, bits, pos) ==
      Mux(pos + 1, TailFn(raised, args, bits, pos + 1), TailFn(clear, args, bits, pos + 1))
  {
    forall a: Asg
      ensures SomeMatch(a, facts, args, bits, pos) <==>
        if pos + 1 in a then SomeMatch(a, raised, args, bits, pos + 1) else SomeMatch(a, clear, args, bits, pos + 1)
    {
      forall t | t in facts ensures MatchFrom(a, t, args, bits, pos) <==>
        (pos + 1 in a <==> TupleBit(t, args, bits, pos)) && MatchFrom(a, t, args, bits, pos + 1)
      {
        MatchStep(a, t, args, bits, pos);
      }
    }
  }

  lemma ClashSplit(facts: seq<Tuple>, clear: seq<Tuple>, raised: seq<Tuple>, args: nat, bits: nat, pos: nat)
    requires FactsOk(facts, args, bits) && pos < args * bits - 1 && Split(facts, clear, raised, args, bits, pos)
    ensures NoClash(facts, args, bits) <==> NoClash(clear, args, bits) && NoClash(raised, args, bits)
  {
  }

  lemma TailIndep(facts: seq<Tuple>, args: nat, bits: nat, pos: nat)
    requires FactsOk(facts, args, bits)
    ensures IndepUpTo(TailFn(facts, args, bits, pos), pos)
    ensures Bounded(TailFn(facts, args, bits, pos), args * bits)
  {
    forall u: nat, a: Asg | u <= pos || u > args * bits
      ensures a + iset{u} in TailFn(facts, args, bits, pos) <==> a - iset{u} in TailFn(facts, args, bits, pos)
    {
      forall t | t in facts
        ensures MatchFrom(a + iset{u}, t, args, bits, pos) == MatchFrom(a - iset{u}, t, args, bits, pos)
      {
      }
    }
  }

  /** What is promised of the table built from position pos on: it never contains more than the facts, and it
      contains all of them exactly when no two facts clash. */
  ghost predicate Built(V: seq<Node>, r: Ref, facts: seq<Tuple>, args: nat, bits: nat, pos: nat)
    requires NodesOk(V) && FactsOk(facts, args, bits)
  {
    BuiltFn(V, r, TailFn(facts, args, bits, pos), NoClash(facts, args, bits), args * bits, pos)
  }

  ghost predicate BuiltFn(V: seq<Node>, r: Ref, X: Fn, exact: bool, n: nat, pos: nat)
    requires NodesOk(V)
  {
    Wf(V, r) && Above(r, pos) && Bounded(Den(V, r), n) && Den(V, r) <= X && (Den(V, r) == X <==> exact)
  }

  lemma BuiltGrow(V: seq<Node>, W: seq<Node>, r: Ref, X: Fn, exact: bool, n: nat, pos: nat)
    requires NodesOk(V) && NodesOk(W) && V <= W && BuiltFn(V, r, X, exact, n, pos)
    ensures BuiltFn(W, r, X, exact, n, pos)
  {
    Grow(V, W, r);
  }

  lemma BuiltEmpty(V: seq<Node>, args: nat, bits: nat, pos: nat)
    requires NodesOk(V) && args > 0 && bits > 0
    ensures Built(V, F, [], args, bits, pos)
  {
    DenLeaf(V);
    assert TailFn([], args, bits, pos) == iset{};
  }

  lemma BuiltMux(V: seq<Node>, W: seq<Node>, r: Ref, h: Ref, l: Ref, XH: Fn, XL: Fn, exactH: bool, exactL: bool,
      n: nat, pos: nat)
    requires NodesOk(V) && NodesOk(W) && V <= W && pos + 1 <= n
    requires BuiltFn(V, h, XH, exactH, n, pos + 1) && BuiltFn(V, l, XL, exactL, n, pos + 1)
    requires IndepUpTo(XH, pos + 1) && IndepUpTo(XL, pos + 1)
    requires Wf(W, r) && Den(W, r) == Mux(pos + 1, Den(V, h), Den(V, l))
    ensures BuiltFn(W, r, Mux(pos + 1, XH, XL), exactH && exactL, n, pos)
  {
    var H, L := Den(V, h), Den(V, l);
    DenIndep(V, h, pos + 1); DenIndep(V, l, pos + 1);
    if Mux(pos + 1, H, L) == Mux(pos + 1, XH, XL) { MuxUnique(pos + 1, H, L, XH, XL); }
    forall u: nat | u <= pos || u > n ensures Indep(Den(W, r), u) {
      IndepMux(H, L, pos + 1, u);
    }
    AboveIfIndep(W, r, pos);
  }

  lemma BuiltStep(V: seq<Node>, W: seq<Node>, r: Ref, h: Ref, l: Ref, facts: seq<Tuple>, clear: seq<Tuple>,
        raised: seq<Tuple>, args: nat, bits: nat, pos: nat)
    requires NodesOk(V) && NodesOk(W) && V <= W && FactsOk(facts, args, bits)
    requires pos < args * bits - 1 && Split(facts, clear, raised, args, bits, pos)
    requires Built(V, h, raised, args, bits, pos + 1) && Built(V, l, clear, args, bits, pos + 1)
    requires Wf(W, r) && Den(W, r) == Mux(pos + 1, Den(V, h), Den(V, l))
    ensures Built(W, r, facts, args, bits, pos)
  {
    TailSplit(facts, clear, raised, args, bits, pos);
    ClashSplit(facts, clear, raised, args, bits, pos);
    TailIndep(raised, args, bits, pos + 1); TailIndep(clear, args, bits, pos + 1);
    BuiltMux(V, W, r, h, l, TailFn(raised, args, bits, pos + 1), TailFn(clear, args, bits, pos + 1),
      NoClash(raised, args, bits), NoClash(clear, args, bits), args * bits, pos);
  }

  /** The node joining the tables of the two halves of a partition. */
  method Combine(s: Store, h: Ref, l: Ref, facts: seq<Tuple>, clear: seq<Tuple>, raised: seq<Tuple>, args: nat,
        bits: nat, pos: nat)
    returns (r: Ref)
    requires s.Valid() && FactsOk(facts, args, bits) && pos < args * bits - 1
    requires Split(facts, clear, raised, args, bits, pos)
    requires Built(s.V, h, raised, args, bits, pos + 1) && Built(s.V, l, clear, args, bits, pos + 1)
    modifies s`V, s`ids
    ensures s.Valid() && old(s.V) <= s.V && Built(s.V, r, facts, args, bits, pos)
  {
    ghost var V0 := s.V;
    r := s.Add(pos + 1, h, l);
    BuiltStep(V0, s.V, r, h, l, facts, clear, raised, args, bits, pos);
  }

  /** One half of a partition; an empty half is F. */
  method Half(s: Store, facts: seq<Tuple>, part: seq<Tuple>, args: nat, bits: nat, pos: nat, ghost b: bool)
    returns (r: Ref)
    requires s.Valid() && FactsOk(facts, args, bits) && FactsOk(part, args, bits) && pos < args * bits - 1
    requires Agree(facts, args, bits, pos) && forall t :: t in part ==> t in facts && TupleBit(t, args, bits, pos) == b
    modifies s`V, s`ids
    ensures s.Valid() && old(s.V) <= s.V && Built(s.V, r, part, args, bits, pos + 1)
    decreases args * bits - pos, 0
  {
    if part == [] {
      BuiltEmpty(s.V, args, bits, pos + 1);
      return F;
    }
    SameStep(facts, part, args, bits, pos, b);
    r := FromFactsAt(s, part, args, bits, pos + 1);
  }

  /** Bitwise partition of the facts from position pos on. */
  method FromFactsAt(s: Store, facts: seq<Tuple>, args: nat, bits: nat, pos: nat) returns (r: Ref)
    requires s.Valid() && FactsOk(facts, args, bits) && facts != [] && pos < args * bits
    requires Agree(facts, args, bits, pos)
    modifies s`V, s`ids
    ensures s.Valid() && old(s.V) <= s.V && Built(s.V, r, facts, args, bits, pos)
    decreases args * bits - pos, 2
  {
    if pos == args * bits - 1 {
      r := FromLastBit(s, facts, args, bits);
    } else {
      var clear, raised := Partition(facts, args, bits, pos);
      r := FromHalves(s, facts, clear, raised, args, bits, pos);
    }
  }

  /** At the last position only the first fact is looked at. */
  method FromLastBit(s: Store, facts: seq<Tuple>, args: nat, bits: nat) returns (r: Ref)
    requires s.Valid() && FactsOk(facts, args, bits) && facts != [] && args * bits > 0
    requires Agree(facts, args, bits, args * bits - 1)
    modifies s`V, s`ids
    ensures s.Valid() && old(s.V) <= s.V && Built(s.V, r, facts, args, bits, args * bits - 1)
  {
    assert facts[0] in facts && TupleOk(facts[0], args, bits);
    r := s.FromBit(args * bits - 1, TupleBit(facts[0], args, bits, args * bits - 1));
    LastBit(s.V, r, facts, args, bits);
  }

  method FromHalves(s: Store, facts: seq<Tuple>, clear: seq<Tuple>, raised: seq<Tuple>, args: nat, bits: nat, pos: nat)
    returns (r: Ref)
    requires s.Valid() && FactsOk(facts, args, bits) && pos < args * bits - 1
    requires Agree(facts, args, bits, pos) && Split(facts, clear, raised, args, bits, pos)
    modifies s`V, s`ids
    ensures s.Valid() && old(s.V) <= s.V && Built(s.V, r, facts, args, bits, pos)
    decreases args * bits - pos, 1
  {
    hide TailFn, NoClash, BuiltFn, NodesOk, Agree;
    var h := Half(s, facts, raised, args, bits, pos, true);
    ghost var V1 := s.V;
    var l := Half(s, facts, clear, args, bits, pos, false);
    BuiltGrow(V1, s.V, h, TailFn(raised, args, bits, pos + 1), NoClash(raised, args, bits), args * bits, pos + 1);
    r := Combine(s, h, l, facts, clear, raised, args, bits, pos);
  }

  lemma SameStep(facts: seq<Tuple>, part: seq<Tuple>, args: nat, bits: nat, pos: nat, b: bool)
    requires FactsOk(facts, args, bits) && FactsOk(part, args, bits) && pos < args * bits
    requires Agree(facts, args, bits, pos)
    requires forall t :: t in part ==> t in facts && TupleBit(t, args, bits, pos) == b
    ensures Agree(part, args, bits, pos + 1)
  {
    forall t, u | t in part && u in part ensures SameBefore(t, u, args, bits, pos + 1) {
      assert SameBefore(t, u, args, bits, pos);
    }
  }

  lemma LastBit(V: seq<Node>, r: Ref, facts: seq<Tuple>, args: nat, bits: nat)
    requires NodesOk(V) && FactsOk(facts, args, bits) && args * bits > 0 && Agree(facts, args, bits, args * bits - 1)
    requires facts != [] && facts[0] in facts && TupleOk(facts[0], args, bits)
    requires Wf(V, r) && Above(r, args * bits - 1)
    requires var b := TupleBit(facts[0], args, bits, args * bits - 1);
      Den(V, r) == Mux(args * bits, if b then All() else iset{}, if b then iset{} else All())
    ensures Built(V, r, facts, args, bits, args * bits - 1)
  {
    var pos := args * bits - 1;
    var t0 := facts[0];
    var b := TupleBit(t0, args, bits, pos);
    forall a: Asg ensures a in Den(V, r) <==> MatchFrom(a, t0, args, bits, pos) {
      assert a in Den(V, r) <==> (args * bits in a <==> b);
    }
    assert Bounded(Den(V, r), args * bits);
    if NoClash(facts, args, bits) {
      forall t | t in facts ensures TupleBit(t, args, bits, pos) == b {
        assert SameBefore(t, t0, args, bits, pos);
      }
      assert Den(V, r) == TailFn(facts, args, bits, pos);
    } else {
      var t, u :| t in facts && u in facts && TupleBit(t, args, bits, pos) != TupleBit(u, args, bits, pos);
      var w := if TupleBit(t, args, bits, pos) != b then t else u;
      var a: Asg := if b then iset{} else iset{args * bits};
      assert MatchFrom(a, w, args, bits, pos);
      assert a in TailFn(facts, args, bits, pos) && a !in Den(V, r);
    }
  }

  /** A table from a list of facts. An empty list or nullary facts give the full table. */
  method FromFacts(s: Store, facts: seq<Tuple>, args: nat, bits: nat) returns (r: Ref)
    requires s.Valid() && bits > 0 && (args > 0 ==> FactsOk(facts, args, bits))
    modifies s`V, s`ids
    ensures s.Valid() && old(s.V) <= s.V && Wf(s.V, r)
    ensures facts == [] || args == 0 ==> Den(s.V, r) == All()
    ensures facts != [] && args > 0 ==> Built(s.V, r, facts, args, bits, 0)
  {
    DenLeaf(s.V);
    if facts == [] { return T; }
    if args == 0 { return T; }
    PosRange(0, 0, args, bits);
    r := FromFactsAt(s, facts, args, bits, 0);
  }

  /** The tuple is read from a vector that satisfies the table. */
  ghost predicate ReadFrom(t: Tuple, V: seq<Node>, x: Ref, len: nat, bits: nat)
    requires NodesOk(V) && Wf(V, x)
  {
    exists s: seq<bool> :: AsgOf(s) in Den(V, x) && IsRead(t, s, len, bits)
  }

  lemma AllReadFrom(r: seq<Tuple>, vectors: seq<seq<bool>>, V: seq<Node>, x: Ref, len: nat, bits: nat, t: Tuple)
    requires NodesOk(V) && Wf(V, x) && AllRead(r, vectors, len, bits)
    requires forall s :: s in vectors <==> |s| == len * bits && AsgOf(s) in Den(V, x)
    ensures t in r <==> ReadFrom(t, V, x, len, bits)
  {
    if t in r {
      var i :| 0 <= i < |r| && r[i] == t;
      assert vectors[i] in vectors && IsRead(t, vectors[i], len, bits);
    }
    if s: seq<bool> :| AsgOf(s) in Den(V, x) && IsRead(t, s, len, bits) {
      assert s in vectors;
      var i :| 0 <= i < |vectors| && vectors[i] == s;
      assert IsRead(r[i], s, len, bits) && r[i] == t;
    }
  }

  /** All tuples of a table. */
  method Decompress(V: seq<Node>, x: Ref, len: nat, bits: nat) returns (r: seq<Tuple>, ghost vectors: seq<seq<bool>>)
    requires NodesOk(V) && InRange(V, x, 1, len * bits)
    ensures forall t :: t in r <==> ReadFrom(t, V, x, len, bits)
    ensures Distinct(vectors) && AllRead(r, vectors, len, bits)
    ensures forall s :: s in vectors <==> |s| == len * bits && AsgOf(s) in Den(V, x)
  {
    var vs := AllSat(V, x, len * bits);
    vectors := vs;
    r := [];
    var i := 0;
    while i < |vs|
      invariant 0 <= i <= |vs| && |r| == i
      invariant forall j :: 0 <= j < i ==> IsRead(r[j], vs[j], len, bits)
    {
      assert vs[i] in vs;
      var t := ReadTuple(vs[i], len, bits);
      r := r + [t];
      i := i + 1;
    }
    forall t ensures t in r <==> ReadFrom(t, V, x, len, bits) { AllReadFrom(r, vs, V, x, len, bits, t); }
  }

  lemma EncodedMatch(s: seq<bool>, t: Tuple, args: nat, bits: nat)
    requires |t| == args && args > 0 && |s| == args * bits
    ensures MatchFrom(AsgOf(s), t, args, bits, 0) <==> Encodes(s, t, args, bits)
  {
    forall v | 0 <= v < args * bits ensures v + 1 in AsgOf(s) <==> s[v] {
      assert Holds(s, v + 1) == s[v];
    }
  }

  function Encode(t: Tuple, args: nat, bits: nat): (s: seq<bool>)
    requires |t| == args && args > 0
    ensures Encodes(s, t, args, bits)
  {
    seq(args * bits, v requires 0 <= v < args * bits => TupleBit(t, args, bits, v))
  }

  /** Round trip: the tuples read back from the table built from a list of facts are always among the facts,
      and they are all the facts if and only if no two facts differ just in bit 0 of the last argument. */
  lemma FactsRoundTrip(V: seq<Node>, x: Ref, facts: seq<Tuple>, args: nat, bits: nat, r: seq<Tuple>,
        vectors: seq<seq<bool>>)
    requires NodesOk(V) && FactsOk(facts, args, bits) && Built(V, x, facts, args, bits, 0)
    requires forall s :: s in vectors <==> |s| == args * bits && AsgOf(s) in Den(V, x)
    requires AllRead(r, vectors, args, bits)
    ensures forall t :: t in r ==> t in facts
    ensures (forall t :: t in facts ==> t in r) <==> NoClash(facts, args, bits)
  {
    forall i | 0 <= i < |r| ensures r[i] in facts && Encodes(vectors[i], r[i], args, bits) {
      ReadIsFact(V, x, facts, args, bits, vectors[i], r[i]);
    }
    forall t | t in facts ensures t in r <==> AsgOf(Encode(t, args, bits)) in Den(V, x) {
      ReadIff(V, x, facts, args, bits, r, vectors, t);
    }
    AllEncoded(V, x, facts, args, bits, Den(V, x), TailFn(facts, args, bits, 0));
  }

  /** The table holds the encoding of every fact if and only if it is the whole function of the facts. */
  lemma AllEncoded(V: seq<Node>, x: Ref, facts: seq<Tuple>, args: nat, bits: nat, X: Fn, Y: Fn)
    requires NodesOk(V) && FactsOk(facts, args, bits) && Wf(V, x) && Above(x, 0) && Bounded(Den(V, x), args * bits)
    requires X == Den(V, x) && Y == TailFn(facts, args, bits, 0) && X <= Y
    ensures (forall t :: t in facts ==> AsgOf(Encode(t, args, bits)) in X) <==> X == Y
  {
    if forall t :: t in facts ==> AsgOf(Encode(t, args, bits)) in X {
      forall a: Asg | a in Y ensures a in X {
        var t :| t in facts && MatchFrom(a, t, args, bits, 0);
        Truncate(V, x, a, t, args, bits);
      }
    }
    forall t | t in facts ensures AsgOf(Encode(t, args, bits)) in Y {
      EncodedMatch(Encode(t, args, bits), t, args, bits);
    }
  }

  lemma ReadIsFact(V: seq<Node>, x: Ref, facts: seq<Tuple>, args: nat, bits: nat, s: seq<bool>, t: Tuple)
    requires NodesOk(V) && FactsOk(facts, args, bits) && Built(V, x, facts, args, bits, 0)
    requires |s| == args * bits && AsgOf(s) in Den(V, x)
    requires IsRead(t, s, args, bits)
    ensures t in facts && Encodes(s, t, args, bits)
  {
    assert AsgOf(s) in TailFn(facts, args, bits, 0);
    var u :| u in facts && MatchFrom(AsgOf(s), u, args, bits, 0);
    EncodedMatch(s, u, args, bits);
    ReadBack(s, u, t, args, bits);
  }

  lemma ReadIff(V: seq<Node>, x: Ref, facts: seq<Tuple>, args: nat, bits: nat, r: seq<Tuple>, vectors: seq<seq<bool>>,
        t: Tuple)
    requires NodesOk(V) && FactsOk(facts, args, bits) && t in facts && Wf(V, x)
    requires forall s :: s in vectors <==> |s| == args * bits && AsgOf(s) in Den(V, x)
    requires AllRead(r, vectors, args, bits)
    requires forall i :: 0 <= i < |r| ==> Encodes(vectors[i], r[i], args, bits)
    ensures t in r <==> AsgOf(Encode(t, args, bits)) in Den(V, x)
  {
    var s := Encode(t, args, bits);
    if t in r {
      var i :| 0 <= i < |r| && r[i] == t;
      assert vectors[i] == s && vectors[i] in vectors;
    }
    if AsgOf(s) in Den(V, x) {
      assert s in vectors;
      var i :| 0 <= i < |vectors| && vectors[i] == s;
      ReadBack(s, t, r[i], args, bits);
    }
  }

  /** Variables beyond the tuple do not matter. */
  lemma Truncate(V: seq<Node>, x: Ref, a: Asg, t: Tuple, args: nat, bits: nat)
    requires NodesOk(V) && Wf(V, x) && Above(x, 0) && Bounded(Den(V, x), args * bits) && |t| == args && args > 0
    requires MatchFrom(a, t, args, bits, 0) && AsgOf(Encode(t, args, bits)) in Den(V, x)
    ensures a in Den(V, x)
  {
    var s := Encode(t, args, bits);
    forall v: nat ensures v in AsgOf(s) <==> 1 <= v <= args * bits && v in a {
      if 1 <= v <= args * bits { assert Holds(s, v) == TupleBit(t, args, bits, v - 1); }
    }
    forall b: Asg ensures b in Den(V, x) <==> Sem(V, x, b) { }
    SemLocal(V, x, a, AsgOf(s), args * bits);
  }

  lemma {:induction false} SemLocal(V: seq<Node>, r: Ref, a: Asg, b: Asg, n: nat)
    requires NodesOk(V) && Wf(V, r) && Above(r, 0) && Bounded(Den(V, r), n)
    requires forall v: nat :: 1 <= v <= n ==> (v in a <==> v in b)
    ensures Sem(V, r, a) == Sem(V, r, b)
    decreases r.id
  {
    if r.id > 1 {
      assert InRange(V, r, r.shift, n);
      InRangeTop(V, r, r.shift, n);
      CofactorRange(V, r, n);
      SemLocal(V, Hi(V, r), a, b, n);
      SemLocal(V, Lo(V, r), a, b, n);
    }
  }
}
