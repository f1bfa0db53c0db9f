/** Context-free grammars as the parser stores them, and what their symbols derive. */
module Grammar {

  const EPSILON: char := '\0'

  /** A symbol of a production: a nonterminal or a character. The character EPSILON stands for the empty word. */
  datatype Lit = NT(n: nat) | Ch(c: char)

  /** Productions; the first symbol of each is its left-hand side. */
  type Prods = seq<seq<Lit>>

  /** Right-hand sides are not empty, and the empty word is written as a right-hand side of its own. */
  predicate ProdOk(p: seq<Lit>) {
    |p| >= 2 && p[0].NT? && forall k :: 1 <= k < |p| && p[k] == Ch(EPSILON) ==> |p| == 2
  }

  predicate GrammarOk(G: Prods) {
    forall p :: 0 <= p < |G| ==> ProdOk(G[p])
  }

  predicate Uses(G: Prods, a: nat, p: nat) {
    p < |G| && |G[p]| > 0 && G[p][0] == NT(a)
  }

  /** The symbols derive the word between positions i and j by a derivation of height at most k. */
  ghost predicate Der(G: Prods, s: seq<Lit>, w: string, i: nat, j: nat, k: nat)
    decreases k, |s|
  {
    if s == [] then i == j
    else match s[0]
      case Ch(c) =>
        if c == EPSILON then Der(G, s[1..], w, i, j, k)
        else i < |w| && w[i] == c && Der(G, s[1..], w, i + 1, j, k)
      case NT(a) =>
        k > 0 && exists p: nat, m: nat ::
          Uses(G, a, p) && Der(G, G[p][1..], w, i, m, k - 1) && Der(G, s[1..], w, m, j, k)
  }

  /** The symbol derives the word between positions i and j. */
  ghost predicate Derives(G: Prods, l: Lit, w: string, i: nat, j: nat) {
    exists k: nat :: Der(G, [l], w, i, j, k)
  }

  ghost predicate SeqDerives(G: Prods, s: seq<Lit>, w: string, i: nat, j: nat) {
    exists k: nat :: Der(G, s, w, i, j, k)
  }

  lemma {:induction false} DerMono(G: Prods, s: seq<Lit>, w: string, i: nat, j: nat, k: nat, k': nat)
    requires Der(G, s, w, i, j, k) && k <= k'
    ensures Der(G, s, w, i, j, k')
    decreases k, |s|
  {
    if s != [] {
      match s[0]
      case Ch(c) =>
        DerMono(G, s[1..], w, if c == EPSILON then i else i + 1, j, k, k');
      case NT(a) =>
        var p: nat, m: nat :| Uses(G, a, p) && Der(G, G[p][1..], w, i, m, k - 1) && Der(G, s[1..], w, m, j, k);
        DerMono(G, G[p][1..], w, i, m, k - 1, k' - 1);
        DerMono(G, s[1..], w, m, j, k, k');
    }
  }

  lemma {:induction false} DerSpan(G: Prods, s: seq<Lit>, w: string, i: nat, j: nat, k: nat)
    requires Der(G, s, w, i, j, k)
    ensures i <= j && (i <= |w| ==> j <= |w|)
    decreases k, |s|
  {
    if s != [] {
      match s[0]
      case Ch(c) =>
        DerSpan(G, s[1..], w, if c == EPSILON then i else i + 1, j, k);
      case NT(a) =>
        var p: nat, m: nat :| Uses(G, a, p) && Der(G, G[p][1..], w, i, m, k - 1) && Der(G, s[1..], w, m, j, k);
        DerSpan(G, G[p][1..], w, i, m, k - 1);
        DerSpan(G, s[1..], w, m, j, k);
    }
  }

  lemma {:induction false} DerCat(G: Prods, s: seq<Lit>, t: seq<Lit>, w: string, i: nat, m: nat, j: nat, k: nat)
    requires Der(G, s, w, i, m, k) && Der(G, t, w, m, j, k)
    ensures Der(G, s + t, w, i, j, k)
    decreases k, |s|
  {
    if s == [] {
      assert s + t == t;
    } else {
      assert (s + t)[1..] == s[1..] + t;
      match s[0]
      case Ch(c) =>
        DerCat(G, s[1..], t, w, if c == EPSILON then i else i + 1, m, j, k);
      case NT(a) =>
        var p: nat, n: nat :| Uses(G, a, p) && Der(G, G[p][1..], w, i, n, k - 1) && Der(G, s[1..], w, n, m, k);
        DerCat(G, s[1..], t, w, n, m, j, k);
    }
  }

  /** A derivation of a prefix extended by one symbol. */
  lemma SeqExtend(G: Prods, s: seq<Lit>, l: Lit, w: string, i: nat, m: nat, j: nat)
    requires SeqDerives(G, s, w, i, m) && Derives(G, l, w, m, j)
    ensures SeqDerives(G, s + [l], w, i, j)
  {
    var k1: nat :| Der(G, s, w, i, m, k1);
    var k2: nat :| Der(G, [l], w, m, j, k2);
    var k := if k1 <= k2 then k2 else k1;
    DerMono(G, s, w, i, m, k1, k);
    DerMono(G, [l], w, m, j, k2, k);
    DerCat(G, s, [l], w, i, m, j, k);
  }

  /** A production whose right-hand side derives a word gives a derivation from its left-hand side. */
  lemma ProdDerives(G: Prods, p: nat, a: nat, w: string, i: nat, j: nat)
    requires Uses(G, a, p) && SeqDerives(G, G[p][1..], w, i, j)
    ensures Derives(G, NT(a), w, i, j)
  {
    var k: nat :| Der(G, G[p][1..], w, i, j, k);
    assert [NT(a)][1..] == [];
    assert Der(G, [], w, j, j, k + 1);
    assert Der(G, G[p][1..], w, i, j, (k + 1) - 1);
    assert Der(G, [NT(a)], w, i, j, k + 1);
  }

  lemma DerivesProd(G: Prods, a: nat, w: string, i: nat, j: nat) returns (p: nat)
    requires Derives(G, NT(a), w, i, j)
    ensures Uses(G, a, p) && SeqDerives(G, G[p][1..], w, i, j)
  {
    var k: nat :| Der(G, [NT(a)], w, i, j, k);
    p := DerHead(G, [NT(a)], a, w, i, j, k);
  }

  lemma DerHead(G: Prods, s: seq<Lit>, a: nat, w: string, i: nat, j: nat, k: nat) returns (p: nat)
    requires |s| == 1 && s[0] == NT(a) && Der(G, s, w, i, j, k)
    ensures Uses(G, a, p) && SeqDerives(G, G[p][1..], w, i, j)
  {
    var q: nat, m: nat :| Uses(G, a, q) && Der(G, G[q][1..], w, i, m, k - 1) && Der(G, s[1..], w, m, j, k);
    p := q;
  }

  lemma CharDerives(G: Prods, c: char, w: string, i: nat)
    ensures c == EPSILON ==> Derives(G, Ch(c), w, i, i)
    ensures c != EPSILON && i < |w| && w[i] == c ==> Derives(G, Ch(c), w, i, i + 1)
  {
    assert [Ch(c)][1..] == [];
    if c == EPSILON {
      assert Der(G, [], w, i, i, 0);
      assert Der(G, [Ch(c)], w, i, i, 0);
    } else if i < |w| && w[i] == c {
      assert Der(G, [], w, i + 1, i + 1, 0);
      assert Der(G, [Ch(c)], w, i, i + 1, 0);
    }
  }

  // ----- symbols that derive the empty word

  predicate IsNull(nulls: set<nat>, l: Lit) {
    match l case NT(a) => a in nulls case Ch(c) => c == EPSILON
  }

  predicate AllNulls(nulls: set<nat>, p: seq<Lit>) {
    forall k :: 1 <= k < |p| ==> IsNull(nulls, p[k])
  }

  ghost predicate Nullable(G: Prods, a: nat) {
    Derives(G, NT(a), "", 0, 0)
  }

  ghost predicate NullsExact(G: Prods, nulls: set<nat>) {
    forall a: nat :: a in nulls <==> Nullable(G, a)
  }

  /** No production is left whose right-hand side is null but whose left-hand side is not recorded. */
  predicate NullsClosed(G: Prods, nulls: set<nat>) {
    forall p :: 0 <= p < |G| && |G[p]| > 0 && G[p][0].NT? && AllNulls(nulls, G[p]) ==> G[p][0].n in nulls
  }

  /** Deriving an empty stretch does not depend on the word or the position. */
  lemma {:induction false} DerEmpty(G: Prods, s: seq<Lit>, w: string, i: nat, w': string, i': nat, k: nat)
    requires Der(G, s, w, i, i, k)
    ensures Der(G, s, w', i', i', k)
    decreases k, |s|
  {
    if s != [] {
      match s[0]
      case Ch(c) =>
        if c == EPSILON { DerEmpty(G, s[1..], w, i, w', i', k); } else { DerSpan(G, s[1..], w, i + 1, i, k); }
      case NT(a) =>
        var p: nat, m: nat :| Uses(G, a, p) && Der(G, G[p][1..], w, i, m, k - 1) && Der(G, s[1..], w, m, i, k);
        DerSpan(G, G[p][1..], w, i, m, k - 1);
        DerSpan(G, s[1..], w, m, i, k);
        DerEmpty(G, G[p][1..], w, i, w', i', k - 1);
        DerEmpty(G, s[1..], w, i, w', i', k);
    }
  }

  /** With a closed set, symbols that derive an empty stretch are recorded. */
  lemma {:induction false} NullsComplete(G: Prods, nulls: set<nat>, s: seq<Lit>, w: string, i: nat, k: nat)
    requires NullsClosed(G, nulls) && Der(G, s, w, i, i, k)
    ensures forall l :: l in s ==> IsNull(nulls, l)
    decreases k, |s|
  {
    if s != [] {
      match s[0] {
        case Ch(c) =>
          if c == EPSILON { NullsComplete(G, nulls, s[1..], w, i, k); } else { DerSpan(G, s[1..], w, i + 1, i, k); }
        case NT(a) =>
          var p: nat, m: nat :| Uses(G, a, p) && Der(G, G[p][1..], w, i, m, k - 1) && Der(G, s[1..], w, m, i, k);
          DerSpan(G, G[p][1..], w, i, m, k - 1);
          DerSpan(G, s[1..], w, m, i, k);
          NullsComplete(G, nulls, G[p][1..], w, i, k - 1);
          forall q | 1 <= q < |G[p]| ensures IsNull(nulls, G[p][q]) { assert G[p][1..][q - 1] in G[p][1..]; }
          NullsComplete(G, nulls, s[1..], w, i, k);
      }
      assert s == [s[0]] + s[1..];
    }
  }

  ghost predicate NullsSound(G: Prods, nulls: set<nat>) {
    forall a: nat :: a in nulls ==> Nullable(G, a)
  }

  lemma NullDerives(G: Prods, nulls: set<nat>, l: Lit, w: string, i: nat)
    requires NullsSound(G, nulls) && IsNull(nulls, l)
    ensures Derives(G, l, w, i, i)
  {
    match l
    case Ch(c) => CharDerives(G, c, w, i);
    case NT(a) =>
      assert Nullable(G, a);
      var k: nat :| Der(G, [l], "", 0, 0, k);
      DerEmpty(G, [l], "", 0, w, i, k);
  }

  /** Recorded symbols derive an empty stretch. */
  lemma {:induction false} NullsDerive(G: Prods, nulls: set<nat>, s: seq<Lit>, w: string, i: nat)
    requires NullsSound(G, nulls) && forall l :: l in s ==> IsNull(nulls, l)
    ensures SeqDerives(G, s, w, i, i)
  {
    if s == [] {
      assert Der(G, s, w, i, i, 0);
    } else {
      var n := |s| - 1;
      NullsDerive(G, nulls, s[..n], w, i);
      NullDerives(G, nulls, s[n], w, i);
      SeqExtend(G, s[..n], s[n], w, i, i, i);
      assert s[..n] + [s[n]] == s;
    }
  }

  /** A set that is sound and closed is exactly the set of nullable nonterminals. */
  lemma NullsExactIf(G: Prods, nulls: set<nat>)
    requires NullsSound(G, nulls) && NullsClosed(G, nulls)
    ensures NullsExact(G, nulls)
  {
    forall a: nat | Nullable(G, a) ensures a in nulls {
      var k: nat :| Der(G, [NT(a)], "", 0, 0, k);
      NullsComplete(G, nulls, [NT(a)], "", 0, k);
      assert NT(a) in [NT(a)];
    }
  }

  lemma NullsClosedIf(G: Prods, nulls: set<nat>)
    requires NullsExact(G, nulls)
    ensures NullsClosed(G, nulls)
  {
    forall p | 0 <= p < |G| && |G[p]| > 0 && G[p][0].NT? && AllNulls(nulls, G[p]) ensures G[p][0].n in nulls {
      NullProd(G, nulls, p);
    }
  }

  /** The left-hand side of a production with a null right-hand side is nullable. */
  lemma NullProd(G: Prods, nulls: set<nat>, p: nat)
    requires NullsSound(G, nulls) && p < |G| && |G[p]| > 0 && G[p][0].NT? && AllNulls(nulls, G[p])
    ensures Nullable(G, G[p][0].n)
  {
    forall l | l in G[p][1..] ensures IsNull(nulls, l) {
      var q :| 0 <= q < |G[p]| - 1 && G[p][1..][q] == l;
      assert l == G[p][q + 1];
    }
    NullsDerive(G, nulls, G[p][1..], "", 0);
    ProdDerives(G, p, G[p][0].n, "", 0, 0);
  }
}
