/** Infinite runs of a program: periodicity, the three-valued reading of the final cycle, and the bound on steps. */
module DatalogRuns {
  import opened Datalog
  import opened DatalogStep
  import opened BddSat

  /** The fact holds from some step on. */
  ghost predicate Always(c: Code, db: DB, tab: nat, u: Tuple)
    requires c.Ok()
  {
    exists n: nat :: HoldsFrom(c, db, tab, u, n, true)
  }

  /** The fact fails from some step on. */
  ghost predicate NeverAgain(c: Code, db: DB, tab: nat, u: Tuple)
    requires c.Ok()
  {
    exists n: nat :: HoldsFrom(c, db, tab, u, n, false)
  }

  ghost predicate HoldsFrom(c: Code, db: DB, tab: nat, u: Tuple, n: nat, b: bool)
    requires c.Ok()
  {
    forall m: nat :: m >= n ==> Fact(c, db, tab, u, m) == b
  }

  predicate Fact(c: Code, db: DB, tab: nat, u: Tuple, m: nat)
    requires c.Ok()
  {
    u in Contents(c.Run(db, m), tab)
  }

  /** The fact keeps changing its value. */
  ghost predicate Flips(c: Code, db: DB, tab: nat, u: Tuple)
    requires c.Ok()
  {
    forall n: nat :: FlipsAfter(c, db, tab, u, n)
  }

  ghost predicate FlipsAfter(c: Code, db: DB, tab: nat, u: Tuple, n: nat)
    requires c.Ok()
  {
    exists m: nat, k: nat :: m >= n && k >= n && Fact(c, db, tab, u, m) && !Fact(c, db, tab, u, k)
  }

  lemma RunStep(c: Code, db: DB, n: nat, m: nat, d: DB, d': DB)
    requires c.Ok() && m == n + 1 && d == c.Run(db, n) && d' == c.Step(d)
    ensures d' == c.Run(db, m)
  {
  }

  lemma RunSame(c: Code, x: DB, y: DB, n: nat, k: nat, n': nat, k': nat)
    requires c.Ok() && n' == n + 1 && k' == k + 1 && c.Run(x, n) == c.Run(y, k)
    ensures c.Run(x, n') == c.Run(y, k')
  {
    var d := c.Run(x, n);
    var d' := c.Step(d);
    RunStep(c, x, n, n', d, d');
    RunStep(c, y, k, k', d, d');
  }

  lemma {:induction false} RunAdd(c: Code, db: DB, n: nat, k: nat, m: nat)
    requires c.Ok() && m == n + k
    ensures c.Run(db, m) == c.Run(c.Run(db, n), k)
    decreases k
  {
    if k > 0 {
      RunAdd(c, db, n, k - 1, m - 1);
      RunSame(c, db, c.Run(db, n), m - 1, k - 1, m, k);
    }
  }

  lemma {:induction false} RunSize(c: Code, db: DB, n: nat)
    requires c.Ok()
    ensures |c.Run(db, n)| == |db|
  {
    if n > 0 { RunSize(c, db, n - 1); }
  }

  /** After a repetition the run repeats itself. */
  lemma Shift(c: Code, db: DB, s: nat, e: nat, m: nat)
    requires c.Ok() && s < e <= m && c.Run(db, s) == c.Run(db, e)
    ensures c.Run(db, m) == c.Run(db, m - (e - s))
  {
    var k := m - e;
    RunAdd(c, db, e, k, m);
    RunAdd(c, db, s, k, m - (e - s));
  }

  /** Once a database repeats, every later one is among those of the cycle. */
  lemma {:induction false} Periodic(c: Code, db: DB, s: nat, e: nat, m: nat) returns (i: nat)
    requires c.Ok() && s < e && c.Run(db, s) == c.Run(db, e) && m > s
    ensures s < i <= e && c.Run(db, m) == c.Run(db, i)
    decreases m
  {
    if m <= e {
      i := m;
    } else {
      Shift(c, db, s, e, m);
      i := Periodic(c, db, s, e, m - (e - s));
    }
  }

  /** Every database of the cycle comes back after any number of steps. */
  lemma {:induction false} Recurs(c: Code, db: DB, s: nat, e: nat, i: nat, n: nat) returns (m: nat)
    requires c.Ok() && s < e && c.Run(db, s) == c.Run(db, e) && s < i <= e
    ensures m >= n && c.Run(db, m) == c.Run(db, i)
    decreases n
  {
    if n <= i {
      m := i;
    } else {
      var k := Recurs(c, db, s, e, i, n - 1);
      if k >= n {
        m := k;
      } else {
        m := k + (e - s);
        Shift(c, db, s, e, m);
      }
    }
  }

  /** Facts of the whole cycle hold from some step on, facts absent from it fail from some step on, the others keep
      flipping; and each only then. */
  lemma CycleMeans(c: Code, db: DB, s: nat, e: nat, tab: nat, u: Tuple)
    requires c.Ok() && s < e && c.Run(db, s) == c.Run(db, e)
    ensures Always(c, db, tab, u) <==> forall i: nat :: s < i <= e ==> Fact(c, db, tab, u, i)
    ensures NeverAgain(c, db, tab, u) <==> forall i: nat :: s < i <= e ==> !Fact(c, db, tab, u, i)
    ensures Flips(c, db, tab, u) <==> !Always(c, db, tab, u) && !NeverAgain(c, db, tab, u)
  {
    CycleSame(c, db, s, e, tab, u, true);
    CycleSame(c, db, s, e, tab, u, false);
    if !Always(c, db, tab, u) && !NeverAgain(c, db, tab, u) {
      var i: nat :| s < i <= e && Fact(c, db, tab, u, i);
      var j: nat :| s < j <= e && !Fact(c, db, tab, u, j);
      forall n: nat ensures FlipsAfter(c, db, tab, u, n) {
        var m := Recurs(c, db, s, e, i, n);
        var k := Recurs(c, db, s, e, j, n);
        assert Fact(c, db, tab, u, m) && !Fact(c, db, tab, u, k);
      }
    }
    if Flips(c, db, tab, u) {
      forall n: nat ensures !HoldsFrom(c, db, tab, u, n, true) && !HoldsFrom(c, db, tab, u, n, false) {
        assert FlipsAfter(c, db, tab, u, n);
        var m: nat, k: nat :| m >= n && k >= n && Fact(c, db, tab, u, m) && !Fact(c, db, tab, u, k);
      }
    }
  }

  lemma CycleSame(c: Code, db: DB, s: nat, e: nat, tab: nat, u: Tuple, b: bool)
    requires c.Ok() && s < e && c.Run(db, s) == c.Run(db, e)
    ensures (exists n: nat :: HoldsFrom(c, db, tab, u, n, b)) <==>
      forall i: nat :: s < i <= e ==> Fact(c, db, tab, u, i) == b
  {
    if n: nat :| HoldsFrom(c, db, tab, u, n, b) {
      forall i: nat | s < i <= e ensures Fact(c, db, tab, u, i) == b {
        var m := Recurs(c, db, s, e, i, n);
        assert Fact(c, db, tab, u, m) == b;
      }
    }
    if forall i: nat :: s < i <= e ==> Fact(c, db, tab, u, i) == b {
      forall m: nat | m >= s + 1 ensures Fact(c, db, tab, u, m) == b {
        var i := Periodic(c, db, s, e, m);
        assert Fact(c, db, tab, u, i) == b;
      }
      assert HoldsFrom(c, db, tab, u, s + 1, b);
    }
  }

  // ----- the bound on steps

  /** All ground tuples of all tables. */
  function Ground(dom: nat, lens: seq<nat>): set<(nat, Tuple)> {
    set tab, u | 0 <= tab < |lens| && u in Vals(dom, lens[tab]) :: (tab, u)
  }

  predicate Within(dom: nat, lens: seq<nat>, db: DB) {
    |db| == |lens| && forall tab :: 0 <= tab < |db| ==> db[tab] <= Vals(dom, lens[tab])
  }

  function Flat(db: DB): set<(nat, Tuple)> {
    set tab, u | 0 <= tab < |db| && u in db[tab] :: (tab, u)
  }

  lemma FlatInjective(d: DB, d': DB)
    requires |d| == |d'| && Flat(d) == Flat(d')
    ensures d == d'
  {
    forall tab | 0 <= tab < |d| ensures d[tab] == d'[tab] {
      forall u ensures u in d[tab] <==> u in d'[tab] {
        assert u in d[tab] <==> (tab, u) in Flat(d);
        assert u in d'[tab] <==> (tab, u) in Flat(d');
      }
    }
  }

  ghost function Subsets<A>(s: set<A>): set<set<A>>
    decreases |s|
  {
    if s == {} then {{}}
    else
      var x :| x in s;
      assert |s - {x}| < |s|;
      Subsets(s - {x}) + set t | t in Subsets(s - {x}) :: t + {x}
  }

  lemma {:induction false} SubsetsAll<A>(s: set<A>, t: set<A>)
    requires t <= s
    ensures t in Subsets(s)
    decreases |s|
  {
    if s != {} {
      var x :| x in s && Subsets(s) == Subsets(s - {x}) + set t | t in Subsets(s - {x}) :: t + {x};
      SubsetsAll(s - {x}, t - {x});
      if x in t { assert t == (t - {x}) + {x}; } else { assert t == t - {x}; }
    }
  }

  lemma SubsetsParts<A>(s: set<A>) returns (x: A, a: set<set<A>>, b: set<set<A>>)
    requires s != {}
    ensures x in s && a == Subsets(s - {x}) && b == set t | t in a :: t + {x}
    ensures Subsets(s) == a + b && |s - {x}| == |s| - 1
  {
    x :| x in s && Subsets(s) == Subsets(s - {x}) + set t | t in Subsets(s - {x}) :: t + {x};
    a := Subsets(s - {x});
    b := set t | t in a :: t + {x};
  }

  lemma UnionSize<A>(a: set<A>, b: set<A>)
    ensures |a + b| <= |a| + |b|
  {
    assert a + b == a + (b - a);
    SetSize(b - a, b);
  }

  lemma {:induction false} SubsetsSize<A>(s: set<A>)
    ensures |Subsets(s)| <= Pow2(|s|)
    decreases |s|
  {
    if s != {} {
      var x, a, b := SubsetsParts(s);
      SubsetsSize(s - {x});
      ImageSize(a, x, b);
      UnionSize(a, b);
    }
  }

  lemma {:induction false} ImageSize<A>(s: set<set<A>>, x: A, r: set<set<A>>)
    requires r == set t | t in s :: t + {x}
    ensures |r| <= |s|
    decreases |s|
  {
    if t :| t in s {
      var r' := set t' | t' in s - {t} :: t' + {x};
      ImageSize(s - {t}, x, r');
      assert r <= r' + {t + {x}};
      SetSize(r, r' + {t + {x}});
    } else {
      assert r == {};
    }
  }

  lemma {:induction false} SetSize<A>(s: set<A>, t: set<A>)
    requires s <= t
    ensures |s| <= |t|
    decreases |s|
  {
    if x :| x in s { SetSize(s - {x}, t - {x}); }
  }

  /** Distinct databases over the ground tuples are at most two to their number. */
  lemma {:induction false} DistinctBound(dom: nat, lens: seq<nat>, ds: seq<DB>)
    requires Distinct(ds) && forall i :: 0 <= i < |ds| ==> Within(dom, lens, ds[i])
    ensures |ds| <= Pow2(|Ground(dom, lens)|)
  {
    var U := Ground(dom, lens);
    var fs := seq(|ds|, i requires 0 <= i < |ds| => Flat(ds[i]));
    forall i | 0 <= i < |ds| ensures fs[i] in Subsets(U) { SubsetsAll(U, fs[i]); }
    forall i, j | 0 <= i < j < |ds| ensures fs[i] != fs[j] {
      if fs[i] == fs[j] { FlatInjective(ds[i], ds[j]); }
    }
    DistinctIn(fs, Subsets(U));
    SubsetsSize(U);
  }

  lemma {:induction false} DistinctIn<A>(s: seq<A>, t: set<A>)
    requires Distinct(s) && forall i :: 0 <= i < |s| ==> s[i] in t
    ensures |s| <= |t|
    decreases |s|
  {
    if s != [] {
      var n := |s| - 1;
      DistinctIn(s[..n], t - {s[n]});
    }
  }
}
