/** What the three-way operation bdd_ite computes, and exactly when that is if-then-else. */
module BddIte {
  import opened BddRef
  import opened BddSem
  import opened BddAlgebra

  function Min(a: nat, b: nat): nat {
    if a < b then a else b
  }

  /** The least top variable of three non-terminal references. */
  function Top3(x: Ref, y: Ref, z: Ref): nat {
    Min(x.shift, Min(y.shift, z.shift))
  }

  predicate Decided(x: Ref, y: Ref, z: Ref) {
    || x == T || y == z || x == Flip(y) || x == z
    || y == T || y == F || z == F || z == T
  }

  /** The function bdd_ite returns on undecided operands' cofactors, with the early returns in the order of
      the code; the third test answers "false" when either equality holds. */
  ghost function DecidedFn(V: seq<Node>, x: Ref, y: Ref, z: Ref): Fn
    requires NodesOk(V) && Wf(V, x) && Wf(V, y) && Wf(V, z) && Decided(x, y, z)
  {
    var X, Y, Z := Den(V, x), Den(V, y), Den(V, z);
    if x == T || y == z then Y
    else if x == Flip(y) || x == z then iset{}
    else if y == T then X + Z
    else if y == F then Not(X) * Z
    else if z == F then X * Y
    else Not(X) + Y
  }

  ghost function IteFn(V: seq<Node>, x: Ref, y: Ref, z: Ref): Fn
    requires NodesOk(V) && Wf(V, x) && Wf(V, y) && Wf(V, z)
    decreases x.id + y.id + z.id, if x.invOut then 1 else 0
  {
    if x.invOut then IteFn(V, Flip(x), z, y)
    else if Decided(x, y, z) then DecidedFn(V, x, y, z)
    else
      var v := Top3(x, y, z);
      Mux(v, IteFn(V, Cof(V, x, v, true), Cof(V, y, v, true), Cof(V, z, v, true)),
             IteFn(V, Cof(V, x, v, false), Cof(V, y, v, false), Cof(V, z, v, false)))
  }

  /** The recursion of bdd_ite never takes the third early return where the true answer is not "false". This follows
      the recursion and is the exact condition; the conditions a caller can check before the call are those of
      ComplementExact (the branches are complements) and DisjointExact (the condition shares no variable with the
      branches). */
  ghost predicate IteExact(V: seq<Node>, x: Ref, y: Ref, z: Ref)
    requires NodesOk(V) && Wf(V, x) && Wf(V, y) && Wf(V, z)
    decreases x.id + y.id + z.id, if x.invOut then 1 else 0
  {
    if x.invOut then IteExact(V, Flip(x), z, y)
    else if x == T || y == z then true
    else if x == Flip(y) then Den(V, z) <= Den(V, x)
    else if x == z then Den(V, x) !! Den(V, y)
    else if Decided(x, y, z) then true
    else
      var v := Top3(x, y, z);
      && IteExact(V, Cof(V, x, v, true), Cof(V, y, v, true), Cof(V, z, v, true))
      && IteExact(V, Cof(V, x, v, false), Cof(V, y, v, false), Cof(V, z, v, false))
  }

  // ----- independence, renumbering and shifting

  lemma {:induction false} IteFnIndep(V: seq<Node>, x: Ref, y: Ref, z: Ref, u: nat)
    requires NodesOk(V) && Wf(V, x) && Wf(V, y) && Wf(V, z)
    requires Above(x, u) && Above(y, u) && Above(z, u)
    ensures IndepUpTo(IteFn(V, x, y, z), u)
    decreases x.id + y.id + z.id, if x.invOut then 1 else 0
  {
    if x.invOut {
      IteFnIndep(V, Flip(x), z, y, u);
    } else if Decided(x, y, z) {
      DenIndep(V, x, u); DenIndep(V, y, u); DenIndep(V, z, u);
      forall w: nat | w <= u
        ensures Indep(IteFn(V, x, y, z), w)
      {
        IndepSets(Den(V, x), Den(V, y), w);
        IndepSets(Den(V, x), Den(V, z), w);
        IndepSets(Not(Den(V, x)), Den(V, z), w);
        IndepSets(Not(Den(V, x)), Den(V, y), w);
      }
    } else {
      var v := Top3(x, y, z);
      IteFnIndep(V, Cof(V, x, v, true), Cof(V, y, v, true), Cof(V, z, v, true), u);
      IteFnIndep(V, Cof(V, x, v, false), Cof(V, y, v, false), Cof(V, z, v, false), u);
      forall w: nat | w <= u {
        IndepMux(IteFn(V, Cof(V, x, v, true), Cof(V, y, v, true), Cof(V, z, v, true)),
          IteFn(V, Cof(V, x, v, false), Cof(V, y, v, false), Cof(V, z, v, false)), v, w);
      }
    }
  }

  lemma RenumberInjective(V: seq<Node>, W: seq<Node>, S: set<nat>, p: seq<nat>, x: Ref, y: Ref)
    requires NodesOk(V) && Embeds(V, W, S, p) && Wf(V, x) && Wf(V, y) && x.id in S && y.id in S
    ensures Renumber(p, x) == Renumber(p, y) <==> x == y
  {
    EmbedWf(V, W, S, p, x); EmbedWf(V, W, S, p, y);
  }

  lemma DecidedSame(V: seq<Node>, W: seq<Node>, S: set<nat>, p: seq<nat>, x: Ref, y: Ref, z: Ref)
    requires NodesOk(V) && Embeds(V, W, S, p)
    requires Wf(V, x) && Wf(V, y) && Wf(V, z) && x.id in S && y.id in S && z.id in S
    ensures Decided(Renumber(p, x), Renumber(p, y), Renumber(p, z)) <==> Decided(x, y, z)
    ensures (Renumber(p, x) == T <==> x == T) && (Renumber(p, y) == T <==> y == T)
    ensures (Renumber(p, y) == F <==> y == F) && (Renumber(p, z) == F <==> z == F)
    ensures Renumber(p, y) == Renumber(p, z) <==> y == z
    ensures Renumber(p, x) == Flip(Renumber(p, y)) <==> x == Flip(y)
    ensures Renumber(p, x) == Renumber(p, z) <==> x == z
  {
    EmbedWf(V, W, S, p, x); EmbedWf(V, W, S, p, y); EmbedWf(V, W, S, p, z);
    RenumberInjective(V, W, S, p, y, z);
    RenumberInjective(V, W, S, p, x, z);
    RenumberInjective(V, W, S, p, x, Flip(y));
  }

  lemma DecidedEmbed(V: seq<Node>, W: seq<Node>, S: set<nat>, p: seq<nat>, x: Ref, y: Ref, z: Ref)
    requires NodesOk(V) && NodesOk(W) && Embeds(V, W, S, p) && Decided(x, y, z)
    requires Wf(V, x) && Wf(V, y) && Wf(V, z) && x.id in S && y.id in S && z.id in S
    ensures Wf(W, Renumber(p, x)) && Wf(W, Renumber(p, y)) && Wf(W, Renumber(p, z))
    ensures Decided(Renumber(p, x), Renumber(p, y), Renumber(p, z))
    ensures DecidedFn(W, Renumber(p, x), Renumber(p, y), Renumber(p, z)) == DecidedFn(V, x, y, z)
  {
    DenEmbed(V, W, S, p, x); DenEmbed(V, W, S, p, y); DenEmbed(V, W, S, p, z);
    DecidedSame(V, W, S, p, x, y, z);
  }

  lemma CofEmbed(V: seq<Node>, W: seq<Node>, S: set<nat>, p: seq<nat>, x: Ref, v: nat)
    requires NodesOk(V) && NodesOk(W) && Embeds(V, W, S, p) && Wf(V, x) && x.id in S
    ensures Wf(W, Renumber(p, x))
    ensures Cof(V, x, v, true).id in S && Cof(W, Renumber(p, x), v, true) == Renumber(p, Cof(V, x, v, true))
    ensures Cof(V, x, v, false).id in S && Cof(W, Renumber(p, x), v, false) == Renumber(p, Cof(V, x, v, false))
  {
    EmbedWf(V, W, S, p, x);
    if x.id > 1 { EmbedRef(V, W, S, p, x); }
  }

  lemma {:induction false} IteFnEmbed(V: seq<Node>, W: seq<Node>, S: set<nat>, p: seq<nat>, x: Ref, y: Ref, z: Ref)
    requires NodesOk(V) && NodesOk(W) && Embeds(V, W, S, p)
    requires Wf(V, x) && Wf(V, y) && Wf(V, z) && x.id in S && y.id in S && z.id in S
    ensures Wf(W, Renumber(p, x)) && Wf(W, Renumber(p, y)) && Wf(W, Renumber(p, z))
    ensures IteFn(W, Renumber(p, x), Renumber(p, y), Renumber(p, z)) == IteFn(V, x, y, z)
    decreases x.id + y.id + z.id, if x.invOut then 1 else 0
  {
    EmbedWf(V, W, S, p, x); EmbedWf(V, W, S, p, y); EmbedWf(V, W, S, p, z);
    var x', y', z' := Renumber(p, x), Renumber(p, y), Renumber(p, z);
    if x.invOut {
      IteFnEmbed(V, W, S, p, Flip(x), z, y);
    } else if Decided(x, y, z) {
      DecidedEmbed(V, W, S, p, x, y, z);
    } else {
      DecidedSame(V, W, S, p, x, y, z);
      var v := Top3(x, y, z);
      CofEmbed(V, W, S, p, x, v); CofEmbed(V, W, S, p, y, v); CofEmbed(V, W, S, p, z, v);
      IteFnEmbed(V, W, S, p, Cof(V, x, v, true), Cof(V, y, v, true), Cof(V, z, v, true));
      IteFnEmbed(V, W, S, p, Cof(V, x, v, false), Cof(V, y, v, false), Cof(V, z, v, false));
    }
  }

  lemma CofPlus(V: seq<Node>, x: Ref, k: nat, v: nat)
    requires NodesOk(V) && Wf(V, x)
    ensures Wf(V, Plus(x, k))
    ensures Cof(V, Plus(x, k), v + k, true) == Plus(Cof(V, x, v, true), k)
    ensures Cof(V, Plus(x, k), v + k, false) == Plus(Cof(V, x, v, false), k)
    ensures Flip(Plus(x, k)) == Plus(Flip(x), k)
  {
  }

  lemma DecidedPlus(V: seq<Node>, x: Ref, y: Ref, z: Ref, k: nat)
    requires NodesOk(V) && Wf(V, x) && Wf(V, y) && Wf(V, z) && Decided(x, y, z)
    ensures Wf(V, Plus(x, k)) && Wf(V, Plus(y, k)) && Wf(V, Plus(z, k))
    ensures Decided(Plus(x, k), Plus(y, k), Plus(z, k))
    ensures DecidedFn(V, Plus(x, k), Plus(y, k), Plus(z, k)) == Up(k, DecidedFn(V, x, y, z))
  {
    DenPlus(V, x, k); DenPlus(V, y, k); DenPlus(V, z, k);
    var X, Y, Z := Den(V, x), Den(V, y), Den(V, z);
    if x == T || y == z {
    } else if x == Flip(y) || x == z {
      UpSets(k, X, X);
    } else if y == T {
      UpSets(k, X, Z);
    } else if y == F {
      UpSets(k, X, X);
      UpSets(k, Not(X), Z);
    } else if z == F {
      UpSets(k, X, Y);
    } else {
      UpSets(k, X, X);
      UpSets(k, Not(X), Y);
    }
  }

  lemma PlusUndecided(x: Ref, y: Ref, z: Ref, k: nat)
    requires x.id > 1 && y.id > 1 && z.id > 1 && !Decided(x, y, z)
    ensures !Decided(Plus(x, k), Plus(y, k), Plus(z, k))
    ensures Top3(Plus(x, k), Plus(y, k), Plus(z, k)) == Top3(x, y, z) + k
  {
  }

  lemma UndecidedAt(V: seq<Node>, x: Ref, y: Ref, z: Ref, v: nat, b: bool, a: Asg)
    requires NodesOk(V) && Wf(V, x) && Wf(V, y) && Wf(V, z) && !x.invOut && !Decided(x, y, z)
    requires v == Top3(x, y, z) && b == (v in a)
    ensures a in IteFn(V, x, y, z) <==> a in IteFn(V, Cof(V, x, v, b), Cof(V, y, v, b), Cof(V, z, v, b))
  {
  }

  ghost predicate ShiftsAt(V: seq<Node>, x: Ref, y: Ref, z: Ref, k: nat, a: Asg)
    requires NodesOk(V) && Wf(V, x) && Wf(V, y) && Wf(V, z)
  {
    && Wf(V, Plus(x, k)) && Wf(V, Plus(y, k)) && Wf(V, Plus(z, k))
    && (a in IteFn(V, Plus(x, k), Plus(y, k), Plus(z, k)) <==> Down(k, a) in IteFn(V, x, y, z))
  }

  lemma CofPlusAt(V: seq<Node>, x: Ref, k: nat, v: nat, b: bool)
    requires NodesOk(V) && Wf(V, x)
    ensures Wf(V, Plus(x, k)) && Plus(x, k).invOut == x.invOut && Wf(V, Cof(V, x, v, b))
    ensures Cof(V, Plus(x, k), v + k, b) == Plus(Cof(V, x, v, b), k)
  {
    CofPlus(V, x, k, v);
  }

  lemma DownAt(k: nat, a: Asg, v: nat)
    ensures v + k in a <==> v in Down(k, a)
  {
  }

  lemma UndecidedPlusAt(V: seq<Node>, x: Ref, y: Ref, z: Ref, k: nat, v: nat, b: bool, a: Asg)
    requires NodesOk(V) && Wf(V, x) && Wf(V, y) && Wf(V, z) && !x.invOut && !Decided(x, y, z)
    requires v == Top3(x, y, z) && b == (v in Down(k, a))
    requires ShiftsAt(V, Cof(V, x, v, b), Cof(V, y, v, b), Cof(V, z, v, b), k, a)
    ensures ShiftsAt(V, x, y, z, k, a)
  {
    assert x.id > 1 && y.id > 1 && z.id > 1;
    hide IteFn, NodesOk, Wf, Cof, Plus, Top3, Down, Decided;
    CofPlusAt(V, x, k, v, b); CofPlusAt(V, y, k, v, b); CofPlusAt(V, z, k, v, b);
    PlusUndecided(x, y, z, k);
    DownAt(k, a, v);
    UndecidedAt(V, Plus(x, k), Plus(y, k), Plus(z, k), v + k, b, a);
    UndecidedAt(V, x, y, z, v, b, Down(k, a));
  }

  lemma DecidedPlusAt(V: seq<Node>, x: Ref, y: Ref, z: Ref, k: nat, a: Asg)
    requires NodesOk(V) && Wf(V, x) && Wf(V, y) && Wf(V, z) && !x.invOut && Decided(x, y, z)
    ensures ShiftsAt(V, x, y, z, k, a)
  {
    DecidedPlus(V, x, y, z, k);
  }

  lemma FlipPlusAt(V: seq<Node>, x: Ref, y: Ref, z: Ref, k: nat, a: Asg)
    requires NodesOk(V) && Wf(V, x) && Wf(V, y) && Wf(V, z) && x.invOut && ShiftsAt(V, Flip(x), z, y, k, a)
    ensures ShiftsAt(V, x, y, z, k, a)
  {
    assert Flip(Plus(x, k)) == Plus(Flip(x), k);
  }

  lemma {:induction false} IteFnPlusAt(V: seq<Node>, x: Ref, y: Ref, z: Ref, k: nat, a: Asg)
    requires NodesOk(V) && Wf(V, x) && Wf(V, y) && Wf(V, z)
    ensures ShiftsAt(V, x, y, z, k, a)
    decreases x.id + y.id + z.id, if x.invOut then 1 else 0
  {
    if x.invOut {
      IteFnPlusAt(V, Flip(x), z, y, k, a);
      FlipPlusAt(V, x, y, z, k, a);
    } else if Decided(x, y, z) {
      DecidedPlusAt(V, x, y, z, k, a);
    } else {
      var v := Top3(x, y, z);
      var b := v in Down(k, a);
      IteFnPlusAt(V, Cof(V, x, v, b), Cof(V, y, v, b), Cof(V, z, v, b), k, a);
      hide ShiftsAt;
      UndecidedPlusAt(V, x, y, z, k, v, b, a);
    }
  }

  /** Downshifting the operands of bdd_ite by a common amount and upshifting the result changes nothing. */
  lemma IteFnPlus(V: seq<Node>, x: Ref, y: Ref, z: Ref, k: nat)
    requires NodesOk(V) && Wf(V, x) && Wf(V, y) && Wf(V, z)
    ensures Wf(V, Plus(x, k)) && Wf(V, Plus(y, k)) && Wf(V, Plus(z, k))
    ensures IteFn(V, Plus(x, k), Plus(y, k), Plus(z, k)) == Up(k, IteFn(V, x, y, z))
  {
    IteFnPlusAt(V, x, y, z, k, iset{});
    forall a: Asg
      ensures a in IteFn(V, Plus(x, k), Plus(y, k), Plus(z, k)) <==> Down(k, a) in IteFn(V, x, y, z)
    {
      IteFnPlusAt(V, x, y, z, k, a);
    }
  }

  // ----- exactness

  lemma IteCases(X: Fn, Y: Fn, Z: Fn)
    ensures IfThenElse(All(), Y, Z) == Y && IfThenElse(X, Y, Y) == Y
    ensures IfThenElse(Not(Y), Y, Z) == Y * Z && (Y * Z == iset{} <==> Z <= Not(Y))
    ensures IfThenElse(X, Y, X) == X * Y && (X * Y == iset{} <==> X !! Y)
    ensures IfThenElse(X, All(), Z) == X + Z
    ensures IfThenElse(X, iset{}, Z) == Not(X) * Z
    ensures IfThenElse(X, Y, iset{}) == X * Y
    ensures IfThenElse(X, Y, All()) == Not(X) + Y
  {
    assert forall a: Asg :: a in Y * Z <==> a in Y && a in Z;
  }

  lemma DecidedExact(V: seq<Node>, x: Ref, y: Ref, z: Ref)
    requires NodesOk(V) && Wf(V, x) && Wf(V, y) && Wf(V, z) && !x.invOut && Decided(x, y, z)
    ensures DecidedFn(V, x, y, z) <= IfThenElse(Den(V, x), Den(V, y), Den(V, z))
    ensures IteExact(V, x, y, z) <==> DecidedFn(V, x, y, z) == IfThenElse(Den(V, x), Den(V, y), Den(V, z))
  {
    DenLeaf(V);
    DenFlip(V, y);
    IteCases(Den(V, x), Den(V, y), Den(V, z));
  }

  lemma IteFlip(V: seq<Node>, x: Ref, Y: Fn, Z: Fn)
    requires NodesOk(V) && Wf(V, x)
    ensures Wf(V, Flip(x)) && IfThenElse(Den(V, Flip(x)), Z, Y) == IfThenElse(Den(V, x), Y, Z)
  {
    DenFlip(V, x);
  }

  lemma IndepIte(X: Fn, Y: Fn, Z: Fn, v: nat)
    requires Indep(X, v) && Indep(Y, v) && Indep(Z, v)
    ensures Indep(IfThenElse(X, Y, Z), v)
  {
  }

  /** bdd_ite never claims too much, and it computes if-then-else exactly when IteExact holds. */
  lemma {:induction false} IteExactIff(V: seq<Node>, x: Ref, y: Ref, z: Ref)
    requires NodesOk(V) && Wf(V, x) && Wf(V, y) && Wf(V, z)
    ensures IteFn(V, x, y, z) <= IfThenElse(Den(V, x), Den(V, y), Den(V, z))
    ensures IteExact(V, x, y, z) <==> IteFn(V, x, y, z) == IfThenElse(Den(V, x), Den(V, y), Den(V, z))
    decreases x.id + y.id + z.id, if x.invOut then 1 else 0
  {
    if x.invOut {
      IteFlip(V, x, Den(V, y), Den(V, z));
      IteExactIff(V, Flip(x), z, y);
    } else if Decided(x, y, z) {
      DecidedExact(V, x, y, z);
    } else {
      var v := Top3(x, y, z);
      var x1, y1, z1 := Cof(V, x, v, true), Cof(V, y, v, true), Cof(V, z, v, true);
      var x0, y0, z0 := Cof(V, x, v, false), Cof(V, y, v, false), Cof(V, z, v, false);
      CofMux(V, x, v); CofMux(V, y, v); CofMux(V, z, v);
      IteExactIff(V, x1, y1, z1);
      IteExactIff(V, x0, y0, z0);
      var I1, I0 := IfThenElse(Den(V, x1), Den(V, y1), Den(V, z1)), IfThenElse(Den(V, x0), Den(V, y0), Den(V, z0));
      MuxIte(v, Den(V, x1), Den(V, x0), Den(V, y1), Den(V, y0), Den(V, z1), Den(V, z0));
      DenIndep(V, x1, v); DenIndep(V, y1, v); DenIndep(V, z1, v);
      DenIndep(V, x0, v); DenIndep(V, y0, v); DenIndep(V, z0, v);
      IteFnIndep(V, x1, y1, z1, v); IteFnIndep(V, x0, y0, z0, v);
      IndepIte(Den(V, x1), Den(V, y1), Den(V, z1), v);
      IndepIte(Den(V, x0), Den(V, y0), Den(V, z0), v);
      if Mux(v, IteFn(V, x1, y1, z1), IteFn(V, x0, y0, z0)) == Mux(v, I1, I0) {
        MuxUnique(v, IteFn(V, x1, y1, z1), IteFn(V, x0, y0, z0), I1, I0);
      }
    }
  }

  lemma CofFlip(V: seq<Node>, x: Ref, v: nat, b: bool)
    requires NodesOk(V) && Wf(V, x)
    ensures Wf(V, Flip(x)) && Cof(V, Flip(x), v, b) == Flip(Cof(V, x, v, b))
  {
  }

  /** Complementary branches: the exclusive-or form is always exact. */
  lemma {:induction false} ComplementExact(V: seq<Node>, x: Ref, z: Ref)
    requires NodesOk(V) && Wf(V, x) && Wf(V, z)
    ensures Wf(V, Flip(z)) && IteExact(V, x, Flip(z), z)
    decreases x.id + z.id, if x.invOut then 1 else 0
  {
    if x.invOut {
      ComplementExact(V, Flip(x), Flip(z));
    } else if !Decided(x, Flip(z), z) {
      var v := Top3(x, Flip(z), z);
      CofFlip(V, z, v, true); CofFlip(V, z, v, false);
      ComplementExact(V, Cof(V, x, v, true), Cof(V, z, v, true));
      ComplementExact(V, Cof(V, x, v, false), Cof(V, z, v, false));
    }
  }

  // ----- the variables of a reference

  function Vars(V: seq<Node>, r: Ref): set<nat>
    requires NodesOk(V) && Wf(V, r)
    decreases r.id
  {
    if r.id == 1 then {} else {r.shift} + Vars(V, Hi(V, r)) + Vars(V, Lo(V, r))
  }

  lemma {:induction false} VarsFlip(V: seq<Node>, r: Ref)
    requires NodesOk(V) && Wf(V, r)
    ensures Wf(V, Flip(r)) && Vars(V, Flip(r)) == Vars(V, r)
    decreases r.id
  {
    if r.id > 1 {
      VarsFlip(V, Hi(V, r)); VarsFlip(V, Lo(V, r));
      assert Hi(V, Flip(r)) == Flip(Hi(V, r)) && Lo(V, Flip(r)) == Flip(Lo(V, r));
    }
  }

  lemma {:induction false} VarsAbove(V: seq<Node>, r: Ref, v: nat)
    requires NodesOk(V) && Wf(V, r) && Above(r, v)
    ensures forall u :: u in Vars(V, r) ==> u > v
    decreases r.id
  {
    if r.id > 1 {
      VarsAbove(V, Hi(V, r), v);
      VarsAbove(V, Lo(V, r), v);
    }
  }

  lemma IndepParts(s: nat, H: Fn, L: Fn, v: nat)
    requires s != v && Indep(H, s) && Indep(L, s) && Indep(Mux(s, H, L), v)
    ensures Indep(H, v) && Indep(L, v)
  {
    var X := Mux(s, H, L);
    forall a: Asg
      ensures (a + iset{v} in H <==> a - iset{v} in H) && (a + iset{v} in L <==> a - iset{v} in L)
    {
      MuxAt(s, H, L, X, a + iset{v}); MuxAt(s, H, L, X, a - iset{v});
      assert (a + iset{v}) + iset{s} == (a + iset{s}) + iset{v};
      assert (a - iset{v}) + iset{s} == (a + iset{s}) - iset{v};
      assert (a + iset{v}) - iset{s} == (a - iset{s}) + iset{v};
      assert (a - iset{v}) - iset{s} == (a - iset{s}) - iset{v};
    }
  }

  /** A reference mentions exactly the variables its function depends on. */
  lemma {:induction false} VarsExact(V: seq<Node>, r: Ref, v: nat)
    requires NodesOk(V) && Wf(V, r)
    ensures v in Vars(V, r) <==> !Indep(Den(V, r), v)
    decreases r.id
  {
    if r.id == 1 {
      DenLeaf(V);
      assert Den(V, r) == All() || Den(V, r) == iset{};
    } else {
      var s, h, l := r.shift, Hi(V, r), Lo(V, r);
      DenMux(V, r);
      if v == s {
        if Indep(Den(V, r), v) { TopMatters(V, r, Den(V, r)); }
      } else {
        VarsExact(V, h, v); VarsExact(V, l, v);
        DenIndep(V, h, s); DenIndep(V, l, s);
        if Indep(Den(V, r), v) {
          IndepParts(s, Den(V, h), Den(V, l), v);
        } else if Indep(Den(V, h), v) && Indep(Den(V, l), v) {
          IndepMux(Den(V, h), Den(V, l), s, v);
        }
      }
    }
  }

  lemma CofVars(V: seq<Node>, r: Ref, v: nat)
    requires NodesOk(V) && Wf(V, r)
    ensures Vars(V, Cof(V, r, v, true)) <= Vars(V, r) && Vars(V, Cof(V, r, v, false)) <= Vars(V, r)
  {
  }

  /** A condition that shares no variable with the branches: exact. */
  lemma {:induction false} DisjointExact(V: seq<Node>, x: Ref, y: Ref, z: Ref)
    requires NodesOk(V) && Wf(V, x) && Wf(V, y) && Wf(V, z)
    requires Vars(V, x) !! Vars(V, y) && Vars(V, x) !! Vars(V, z)
    ensures IteExact(V, x, y, z)
    decreases x.id + y.id + z.id, if x.invOut then 1 else 0
  {
    if x.invOut {
      VarsFlip(V, x);
      DisjointExact(V, Flip(x), z, y);
    } else if x.id > 1 && (x == Flip(y) || x == z) {
      VarsFlip(V, y);
      assert false;
    } else if !Decided(x, y, z) {
      var v := Top3(x, y, z);
      CofVars(V, x, v); CofVars(V, y, v); CofVars(V, z, v);
      DisjointExact(V, Cof(V, x, v, true), Cof(V, y, v, true), Cof(V, z, v, true));
      DisjointExact(V, Cof(V, x, v, false), Cof(V, y, v, false), Cof(V, z, v, false));
    }
  }

  /** The third early return is wrong in general: with x = z = variable 1 and y = variable 2 the answer is
      "false", although both variables true satisfy if x then y else x. */
  lemma IteNotAlwaysExact()
    ensures var V := [Node(MakeRef(0, 0, false, false), MakeRef(0, 0, false, false)), Node(T, T), Node(F, T)];
      var x, y := Ref(2, 1, false, true), Ref(2, 2, false, true);
      && NodesOk(V) && Wf(V, x) && Wf(V, y)
      && IteFn(V, x, y, x) == iset{}
      && iset{1, 2} in IfThenElse(Den(V, x), Den(V, y), Den(V, x))
  {
    var V := [Node(MakeRef(0, 0, false, false), MakeRef(0, 0, false, false)), Node(T, T), Node(F, T)];
    var x, y := Ref(2, 1, false, true), Ref(2, 2, false, true);
    assert NodeOk(V, 2);
    assert Flip(x) == Ref(2, 1, false, false);
    assert Hi(V, x) == T && Hi(V, y) == T;
    assert iset{1, 2} in Den(V, x) && iset{1, 2} in Den(V, y);
    assert IteFn(V, x, y, x) == IteFn(V, Flip(x), x, y);
  }
}
