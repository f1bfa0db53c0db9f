/** The vectors and symbols with which a body literal is evaluated on the bits of its table. */
module BodyBits {
  import opened BddSem
  import opened BddQuery
  import opened BddSat
  import opened Circuits
  import D = Datalog
  import F = Facts

  type Tuple = seq<nat>

  // ----- tuples read from assignments

  /** The tuple an assignment stands for. */
  ghost function Read(a: Asg, args: nat, bits: nat): Tuple {
    seq(args, n requires 0 <= n < args => Num(a, n, args, bits, 0, bits))
  }

  /** The function that holds of the tuples of a table. */
  ghost function Codes(R: set<Tuple>, args: nat, bits: nat): Fn {
    iset a: Asg | Read(a, args, bits) in R
  }

  /** Arguments with the same bits are the same number. */
  lemma {:induction false} NumSame(a: Asg, n: nat, args: nat, c: Asg, m: nat, len: nat, bits: nat, k: nat)
    requires k <= bits && forall b :: 0 <= b < k ==> (Var(b, n, args, bits) in a <==> Var(b, m, len, bits) in c)
    ensures Num(a, n, args, bits, 0, k) == Num(c, m, len, bits, 0, k)
  {
    if k > 0 { NumSame(a, n, args, c, m, len, bits, k - 1); }
  }

  lemma {:induction false} NumOfBits(a: Asg, n: nat, args: nat, bits: nat, x: nat, k: nat)
    requires k <= bits && forall b :: 0 <= b < k ==> (Var(b, n, args, bits) in a <==> HasBit(x, b))
    ensures Num(a, n, args, bits, 0, k) == x % Pow2(k)
  {
    if k > 0 {
      NumOfBits(a, n, args, bits, x, k - 1);
      ModStep(x, k - 1);
    }
  }

  /** Equal numbers have equal bits. */
  lemma {:induction false} BitsSame(a: Asg, n: nat, args: nat, c: Asg, m: nat, len: nat, bits: nat, k: nat, b: nat)
    requires b < k <= bits && Num(a, n, args, bits, 0, k) == Num(c, m, len, bits, 0, k)
    ensures Var(b, n, args, bits) in a <==> Var(b, m, len, bits) in c
  {
    var x, y := Num(a, n, args, bits, 0, k - 1), Num(c, m, len, bits, 0, k - 1);
    NumBound(a, n, args, bits, 0, k - 1);
    NumBound(c, m, len, bits, 0, k - 1);
    if b < k - 1 {
      assert x == y;
      BitsSame(a, n, args, c, m, len, bits, k - 1, b);
    }
  }

  lemma {:induction false} BitsOfNum(a: Asg, n: nat, args: nat, bits: nat, x: nat, k: nat, b: nat)
    requires b < k <= bits && Num(a, n, args, bits, 0, k) == x % Pow2(k)
    ensures Var(b, n, args, bits) in a <==> HasBit(x, b)
  {
    NumBound(a, n, args, bits, 0, k - 1);
    ModStep(x, k - 1);
    ModSmall(x, Pow2(k - 1));
    if b < k - 1 { BitsOfNum(a, n, args, bits, x, k - 1, b); }
  }

  lemma ModSmall(x: nat, m: nat)
    requires m > 0
    ensures 0 <= x % m < m
  {
  }

  predicate InBits(t: Tuple, bits: nat) {
    forall n :: 0 <= n < |t| ==> t[n] < Pow2(bits)
  }

  /** The variables of a tuple's bits. */
  ghost predicate IsBitVar(v: nat, args: nat, bits: nat) {
    1 <= v <= args * bits
  }

  /** The argument and the bit of a variable. */
  lemma BitOf(v: nat, args: nat, bits: nat) returns (b: nat, n: nat)
    requires IsBitVar(v, args, bits)
    ensures b < bits && n < args && v == Var(b, n, args, bits)
  {
    assert args > 0;
    F.QuotientBound(v - 1, args, bits);
    n, b := (v - 1) % args, bits - 1 - (v - 1) / args;
  }

  lemma VarIsBit(b: nat, n: nat, args: nat, bits: nat)
    requires b < bits && n < args
    ensures IsBitVar(Var(b, n, args, bits), args, bits)
  {
    F.PosRange(b, n, args, bits);
  }

  // ----- the vectors of a body

  predicate First(args: seq<int>, n: nat)
    requires n < |args|
  {
    args[n] < 0 && forall m :: 0 <= m < n ==> args[m] != args[n]
  }

  /** A variable's first occurrence goes to the variable's position in the alternative; the rest stays. */
  ghost predicate IsPerm(p: seq<nat>, args: seq<int>, vm: map<int, nat>, len: nat, bits: nat)
    requires D.Covers(vm, args)
  {
    |p| == |args| * bits && forall n, b :: 0 <= n < |args| && 0 <= b < bits ==> PermAt(p, args, vm, len, bits, n, b)
  }

  ghost predicate PermAt(p: seq<nat>, args: seq<int>, vm: map<int, nat>, len: nat, bits: nat, n: nat, b: nat)
    requires |p| == |args| * bits && n < |args| && b < bits && D.Covers(vm, args)
  {
    F.PosRange(b, n, |args|, bits);
    assert args[n] in args;
    p[Pos(b, n, |args|, bits)] == if args[n] < 0 then Pos(b, vm[args[n]], len, bits) else Pos(b, n, |args|, bits)
  }

  /** Symbols and repeated variables are quantified away. */
  ghost predicate IsEx(ex: seq<bool>, args: seq<int>, bits: nat) {
    |ex| == |args| * bits && forall n, b :: 0 <= n < |args| && 0 <= b < bits ==> ExAt(ex, args, bits, n, b)
  }

  ghost predicate ExAt(ex: seq<bool>, args: seq<int>, bits: nat, n: nat, b: nat)
    requires |ex| == |args| * bits && n < |args| && b < bits
  {
    F.PosRange(b, n, |args|, bits);
    ex[Pos(b, n, |args|, bits)] == !First(args, n)
  }

  /** Symbols have their values, and repeated variables equal ones. */
  ghost predicate Fits(args: seq<int>, t: Tuple, k: nat)
    requires k <= |args| == |t|
  {
    forall n :: 0 <= n < k ==> FitsAt(args, t, n)
  }

  ghost predicate FitsAt(args: seq<int>, t: Tuple, n: nat)
    requires n < |args| == |t|
  {
    (args[n] >= 0 ==> t[n] == args[n]) &&
      (args[n] < 0 ==> forall m :: 0 <= m < n && args[m] == args[n] ==> t[m] == t[n])
  }

  ghost function FitFn(args: seq<int>, bits: nat, k: nat): Fn
    requires k <= |args|
  {
    iset a: Asg | Fits(args, Read(a, |args|, bits), k)
  }

  /** What a body literal asks of the tuples of its table. */
  ghost function TableFn(R: set<Tuple>, neg: bool, args: nat, bits: nat): Fn {
    iset a: Asg | (Read(a, args, bits) in R) != neg
  }

  predicate SymbolsFit(args: seq<int>, bits: nat) {
    forall x :: x in args && x >= 0 ==> x < Pow2(bits)
  }

  ghost predicate VarsFit(args: seq<int>, vm: map<int, nat>, len: nat) {
    && D.Covers(vm, args) && (forall x :: x in vm ==> vm[x] < len)
    && (forall x, y :: x in vm && y in vm && vm[x] == vm[y] ==> x == y)
  }

  /** The tuple of the table that a valuation of the alternative asks for. */
  ghost function Asked(args: seq<int>, vm: map<int, nat>, v: Tuple): Tuple
    requires D.Covers(vm, args) && forall x :: x in vm ==> vm[x] < |v|
  {
    D.Inst(D.SubOf(vm, v), args)
  }

  /** The tuple, bit by bit; beyond the tuple's bits the other assignment. */
  ghost function Written(t: Tuple, a: Asg, bits: nat): Asg {
    iset v: nat | if IsBitVar(v, |t|, bits) then BitSet(t, bits, v) else v in a
  }

  ghost predicate BitSet(t: Tuple, bits: nat, v: nat) {
    exists b: nat, n: nat :: b < bits && n < |t| && v == Var(b, n, |t|, bits) && HasBit(t[n], b)
  }

  lemma WrittenAt(t: Tuple, a: Asg, bits: nat, b: nat, n: nat)
    requires b < bits && n < |t|
    ensures Var(b, n, |t|, bits) in Written(t, a, bits) <==> HasBit(t[n], b)
  {
    VarIsBit(b, n, |t|, bits);
    var v := Var(b, n, |t|, bits);
    assert v in Written(t, a, bits) <==> BitSet(t, bits, v);
    hide IsBitVar, Written, Var, HasBit;
    if BitSet(t, bits, v) {
      var b': nat, n': nat :| b' < bits && n' < |t| && v == Var(b', n', |t|, bits) && HasBit(t[n'], b');
      VarInjective(b, n, b', n', |t|, bits);
    }
  }

  lemma WrittenRead(t: Tuple, a: Asg, bits: nat)
    requires InBits(t, bits)
    ensures Read(Written(t, a, bits), |t|, bits) == t
  {
    var c := Written(t, a, bits);
    forall n | 0 <= n < |t| ensures Num(c, n, |t|, bits, 0, bits) == t[n] {
      forall b | 0 <= b < bits ensures Var(b, n, |t|, bits) in c <==> HasBit(t[n], b) { WrittenAt(t, a, bits, b, n); }
      NumOfBits(c, n, |t|, bits, t[n], bits);
      SmallMod(t[n], Pow2(bits));
    }
  }

  lemma SmallMod(x: nat, m: nat)
    requires x < m
    ensures x % m == x
  {
  }

  // ----- the query gives the valuations of the body

  lemma KeptVar(args: seq<int>, vm: map<int, nat>, len: nat, bits: nat, ex: seq<bool>, p: seq<nat>, b: nat, n: nat)
    requires VarsFit(args, vm, len) && IsPerm(p, args, vm, len, bits) && IsEx(ex, args, bits) && b < bits && n < |args|
    ensures var q, v := ExistsRename(ex, p), Var(b, n, |args|, bits);
      && (q.Quantified(v) <==> !First(args, n))
      && (First(args, n) ==> args[n] in args && q.Target(v) == Var(b, vm[args[n]], len, bits))
  {
    VarIsBit(b, n, |args|, bits);
    assert ExAt(ex, args, bits, n, b) && PermAt(p, args, vm, len, bits, n, b);
    assert args[n] in args;
  }

  /** Every argument equals the first occurrence of its variable. */
  function FirstOf(args: seq<int>, n: nat): (m: nat)
    requires n < |args| && args[n] < 0
    ensures m <= n && args[m] == args[n] && First(args, m)
  {
    if m: nat :| m < n && args[m] == args[n] then FirstOf(args, m) else n
  }

  lemma AskedAt(args: seq<int>, vm: map<int, nat>, v: Tuple, n: nat)
    requires VarsFit(args, vm, |v|) && n < |args|
    ensures args[n] in args && |Asked(args, vm, v)| == |args|
    ensures Asked(args, vm, v)[n] == if args[n] >= 0 then args[n] else v[vm[args[n]]]
  {
    assert args[n] in args;
  }

  lemma AskedInBits(args: seq<int>, vm: map<int, nat>, a: Asg, len: nat, bits: nat)
    requires VarsFit(args, vm, len) && SymbolsFit(args, bits)
    ensures InBits(Asked(args, vm, Read(a, len, bits)), bits)
  {
    var v := Read(a, len, bits);
    forall n | 0 <= n < |args| ensures Asked(args, vm, v)[n] < Pow2(bits) {
      AskedAt(args, vm, v, n);
      if args[n] < 0 { NumBound(a, vm[args[n]], len, bits, 0, bits); }
    }
  }

  lemma AskedFits(args: seq<int>, vm: map<int, nat>, v: Tuple)
    requires VarsFit(args, vm, |v|)
    ensures |Asked(args, vm, v)| == |args| && Fits(args, Asked(args, vm, v), |args|)
  {
    forall n | 0 <= n < |args| ensures FitsAt(args, Asked(args, vm, v), n) {
      AskedAt(args, vm, v, n);
      forall m | 0 <= m < n && args[m] == args[n]
        ensures Asked(args, vm, v)[m] == Asked(args, vm, v)[n]
      {
        AskedAt(args, vm, v, m);
      }
    }
  }

  /** If: the asked tuple, written out, is a witness. */
  lemma BodyIf(args: seq<int>, vm: map<int, nat>, len: nat, bits: nat, ex: seq<bool>, p: seq<nat>, R: set<Tuple>,
        neg: bool, a: Asg)
    requires VarsFit(args, vm, len) && SymbolsFit(args, bits) && IsPerm(p, args, vm, len, bits) && IsEx(ex, args, bits)
    requires (Asked(args, vm, Read(a, len, bits)) in R) != neg
    ensures a in Image(ExistsRename(ex, p), FitFn(args, bits, |args|) * TableFn(R, neg, |args|, bits))
  {
    var v, q := Read(a, len, bits), ExistsRename(ex, p);
    var t := Asked(args, vm, v);
    var c := Written(t, a, bits);
    AskedInBits(args, vm, a, len, bits);
    AskedFits(args, vm, v);
    WrittenRead(t, a, bits);
    forall w: nat | !q.Quantified(w) ensures w in c <==> q.Target(w) in a {
      if IsBitVar(w, |args|, bits) {
        var b, n := BitOf(w, |args|, bits);
        WrittenMatches(args, vm, len, bits, ex, p, a, b, n);
      } else {
        OutsideKept(args, vm, len, bits, ex, p, w);
      }
    }
    assert Matches(q, a, c);
    assert c in FitFn(args, bits, |args|) * TableFn(R, neg, |args|, bits);
  }

  lemma OutsideKept(args: seq<int>, vm: map<int, nat>, len: nat, bits: nat, ex: seq<bool>, p: seq<nat>, w: nat)
    requires VarsFit(args, vm, len) && IsPerm(p, args, vm, len, bits) && IsEx(ex, args, bits)
    requires !IsBitVar(w, |args|, bits)
    ensures !ExistsRename(ex, p).Quantified(w) && ExistsRename(ex, p).Target(w) == w
  {
  }

  lemma WrittenMatches(args: seq<int>, vm: map<int, nat>, len: nat, bits: nat, ex: seq<bool>, p: seq<nat>, a: Asg,
        b: nat, n: nat)
    requires VarsFit(args, vm, len) && IsPerm(p, args, vm, len, bits) && IsEx(ex, args, bits) && b < bits && n < |args|
    requires !ExistsRename(ex, p).Quantified(Var(b, n, |args|, bits))
    ensures var w := Var(b, n, |args|, bits);
      w in Written(Asked(args, vm, Read(a, len, bits)), a, bits) <==> ExistsRename(ex, p).Target(w) in a
  {
    var v := Read(a, len, bits);
    var t := Asked(args, vm, v);
    KeptVar(args, vm, len, bits, ex, p, b, n);
    AskedAt(args, vm, v, n);
    WrittenAt(t, a, bits, b, n);
    var m := vm[args[n]];
    assert t[n] == Num(a, m, len, bits, 0, bits);
    NumBound(a, m, len, bits, 0, bits);
    SmallMod(t[n], Pow2(bits));
    BitsOfNum(a, m, len, bits, t[n], bits, b);
  }

  /** Only if: what matches reads as the asked tuple. */
  lemma BodyOnlyIf(args: seq<int>, vm: map<int, nat>, len: nat, bits: nat, ex: seq<bool>, p: seq<nat>, R: set<Tuple>,
        neg: bool, a: Asg)
    requires VarsFit(args, vm, len) && IsPerm(p, args, vm, len, bits) && IsEx(ex, args, bits)
    requires a in Image(ExistsRename(ex, p), FitFn(args, bits, |args|) * TableFn(R, neg, |args|, bits))
    ensures (Asked(args, vm, Read(a, len, bits)) in R) != neg
  {
    var q, v := ExistsRename(ex, p), Read(a, len, bits);
    var c: Asg :| c in FitFn(args, bits, |args|) * TableFn(R, neg, |args|, bits) && Matches(q, a, c);
    var u, t := Read(c, |args|, bits), Asked(args, vm, v);
    forall n | 0 <= n < |args| ensures u[n] == t[n] {
      assert FitsAt(args, u, n);
      AskedAt(args, vm, v, n);
      if args[n] < 0 {
        var m := FirstOf(args, n);
        assert u[m] == u[n];
        FirstRead(args, vm, len, bits, ex, p, a, c, m);
      }
    }
    assert u == t;
  }

  lemma FirstRead(args: seq<int>, vm: map<int, nat>, len: nat, bits: nat, ex: seq<bool>, p: seq<nat>, a: Asg, c: Asg,
        m: nat)
    requires VarsFit(args, vm, len) && IsPerm(p, args, vm, len, bits) && IsEx(ex, args, bits) && m < |args|
    requires First(args, m)
    requires Matches(ExistsRename(ex, p), a, c)
    ensures args[m] in args && Read(c, |args|, bits)[m] == Read(a, len, bits)[vm[args[m]]]
  {
    assert args[m] in args;
    var k := vm[args[m]];
    forall b | 0 <= b < bits ensures Var(b, m, |args|, bits) in c <==> Var(b, k, len, bits) in a {
      KeptVar(args, vm, len, bits, ex, p, b, m);
    }
    NumSame(c, m, |args|, a, k, len, bits, bits);
  }

  /** The fused query of a body literal holds of a valuation exactly when the literal does. */
  lemma BodyImage(args: seq<int>, vm: map<int, nat>, len: nat, bits: nat, ex: seq<bool>, p: seq<nat>, R: set<Tuple>,
        neg: bool)
    requires VarsFit(args, vm, len) && SymbolsFit(args, bits) && IsPerm(p, args, vm, len, bits) && IsEx(ex, args, bits)
    ensures Image(ExistsRename(ex, p), FitFn(args, bits, |args|) * TableFn(R, neg, |args|, bits)) ==
      iset a: Asg | (Asked(args, vm, Read(a, len, bits)) in R) != neg
  {
    var X := FitFn(args, bits, |args|) * TableFn(R, neg, |args|, bits);
    forall a: Asg ensures a in Image(ExistsRename(ex, p), X) <==> (Asked(args, vm, Read(a, len, bits)) in R) != neg {
      if a in Image(ExistsRename(ex, p), X) { BodyOnlyIf(args, vm, len, bits, ex, p, R, neg, a); }
      if (Asked(args, vm, Read(a, len, bits)) in R) != neg { BodyIf(args, vm, len, bits, ex, p, R, neg, a); }
    }
  }

  // ----- cutting an alternative to its head

  /** The vectors that quantify away the arguments from len2 on and keep the others in place. */
  ghost predicate IsTail(ex: seq<bool>, p: seq<nat>, len1: nat, len2: nat, bits: nat) {
    |ex| == |p| == len1 * bits && forall n, b :: 0 <= n < len1 && 0 <= b < bits ==>
      TailAt(ex, p, len1, len2, bits, n, b)
  }

  ghost predicate TailAt(ex: seq<bool>, p: seq<nat>, len1: nat, len2: nat, bits: nat, n: nat, b: nat)
    requires |ex| == |p| == len1 * bits && n < len1 && b < bits
  {
    F.PosRange(b, n, len1, bits);
    ex[Pos(b, n, len1, bits)] == (n >= len2) && (n < len2 ==> p[Pos(b, n, len1, bits)] == Pos(b, n, len2, bits))
  }

  lemma TailVar(ex: seq<bool>, p: seq<nat>, len1: nat, len2: nat, bits: nat, n: nat, b: nat)
    requires IsTail(ex, p, len1, len2, bits) && n < len1 && b < bits
    ensures var q, v := ExistsRename(ex, p), Var(b, n, len1, bits);
      (q.Quantified(v) <==> n >= len2) && (n < len2 ==> q.Target(v) == Var(b, n, len2, bits))
  {
    VarIsBit(b, n, len1, bits);
    assert TailAt(ex, p, len1, len2, bits, n, b);
  }

  /** The query of an alternative holds of a head exactly when some valuation begins with it. */
  lemma TailImage(ex: seq<bool>, p: seq<nat>, len1: nat, len2: nat, bits: nat, S: set<Tuple>)
    requires IsTail(ex, p, len1, len2, bits) && len2 <= len1 && forall u :: u in S ==> |u| == len1 && InBits(u, bits)
    ensures Image(ExistsRename(ex, p), Codes(S, len1, bits)) == Codes(D.Cut(S, len2), len2, bits)
  {
    var q := ExistsRename(ex, p);
    forall a: Asg ensures a in Image(q, Codes(S, len1, bits)) <==> Read(a, len2, bits) in D.Cut(S, len2) {
      if a in Image(q, Codes(S, len1, bits)) {
        var c: Asg :| c in Codes(S, len1, bits) && Matches(q, a, c);
        TailRead(ex, p, len1, len2, bits, a, c);
      }
      if u :| u in S && len2 <= |u| && u[..len2] == Read(a, len2, bits) {
        var c := Written(u, a, bits);
        WrittenRead(u, a, bits);
        TailMatches(ex, p, len1, len2, bits, a, u);
        assert c in Codes(S, len1, bits);
      }
    }
  }

  lemma TailRead(ex: seq<bool>, p: seq<nat>, len1: nat, len2: nat, bits: nat, a: Asg, c: Asg)
    requires IsTail(ex, p, len1, len2, bits) && len2 <= len1 && Matches(ExistsRename(ex, p), a, c)
    ensures Read(c, len1, bits)[..len2] == Read(a, len2, bits)
  {
    forall n | 0 <= n < len2 ensures Num(c, n, len1, bits, 0, bits) == Num(a, n, len2, bits, 0, bits) {
      forall b | 0 <= b < bits ensures Var(b, n, len1, bits) in c <==> Var(b, n, len2, bits) in a {
        TailVar(ex, p, len1, len2, bits, n, b);
      }
      NumSame(c, n, len1, a, n, len2, bits, bits);
    }
  }

  lemma TailMatches(ex: seq<bool>, p: seq<nat>, len1: nat, len2: nat, bits: nat, a: Asg, u: Tuple)
    requires IsTail(ex, p, len1, len2, bits) && len2 <= len1 == |u| && InBits(u, bits)
    requires u[..len2] == Read(a, len2, bits)
    ensures Matches(ExistsRename(ex, p), a, Written(u, a, bits))
  {
    var q, c := ExistsRename(ex, p), Written(u, a, bits);
    forall w: nat | !q.Quantified(w) ensures w in c <==> q.Target(w) in a {
      if IsBitVar(w, len1, bits) {
        var b, n := BitOf(w, len1, bits);
        TailVar(ex, p, len1, len2, bits, n, b);
        WrittenAt(u, a, bits, b, n);
        assert u[n] == u[..len2][n] == Num(a, n, len2, bits, 0, bits);
        NumBound(a, n, len2, bits, 0, bits);
        SmallMod(u[n], Pow2(bits));
        BitsOfNum(a, n, len2, bits, u[n], bits, b);
      }
    }
  }
}
