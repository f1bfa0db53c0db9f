/** The order in which compiled rules depend on each other. */
module DnfShape {
  import opened Formula
  import opened Inlining
  import opened Dnf
  import opened Levels

  /** A mentioned relation is one of the source's, or a new one whose rules all come earlier. */
  ghost predicate Earlier(out: seq<Rule>, k: nat, v: Rel, low: nat, lo: nat)
    requires k < |out|
  {
    v.name < low || (lo < v.name && HasRules(out[..k], v) && !HasRules(out[k..], v))
  }

  ghost predicate GoodAt(out: seq<Rule>, k: nat, low: nat, lo: nat, hi: nat, dom: nat)
    requires k < |out|
  {
    && !out[k].neg && lo <= out[k].head.rel.name < hi && RuleOk(out[k], dom)
    && forall v :: v in FormRels(out[k].body) ==> Earlier(out, k, v, low, lo)
  }

  /** Positive rules for new relations named from lo to hi, over source relations named below low. */
  ghost predicate Shape(out: seq<Rule>, low: nat, lo: nat, hi: nat, dom: nat) {
    low <= lo <= hi && forall k :: 0 <= k < |out| ==> GoodAt(out, k, low, lo, hi, dom)
  }

  /** The formula is about source relations and about new relations that have rules. */
  ghost predicate From(f: Form, out: seq<Rule>, low: nat, lo: nat, dom: nat) {
    FormOk(f, dom) && forall v :: v in FormRels(f) ==> v.name < low || (lo <= v.name && HasRules(out, v))
  }

  /** All bodies are literals joined by conjunctions, and by disjunctions where these are allowed. */
  predicate AllShaped(rs: seq<Rule>, ors: bool) {
    forall k :: 0 <= k < |rs| ==> Shaped(rs[k].body, ors)
  }

  lemma ShapedMore(out: seq<Rule>, more: seq<Rule>, lit: Signed, head: Atom)
    requires AllShaped(out, false) && AllShaped(more, false) && SignedOk(lit)
    ensures AllShaped(out + more, false) && AllShaped(out + more + [Rule(false, head, TermTree(lit))], false)
  {
    assert Shaped(TermTree(lit), false);
  }

  lemma {:induction false} ConjShaped(c: seq<Signed>)
    requires ConjOk(c)
    ensures Shaped(ConjTree(c), false)
  {
    var n := |c| - 1;
    assert SignedOk(c[n]) && Shaped(TermTree(c[n]), false);
    if n > 0 { ConjShaped(c[..n]); }
  }

  /** What is shaped without disjunctions is shaped with them. */
  lemma {:induction false} ShapedAnyway(f: Form, ors: bool)
    requires Shaped(f, false)
    ensures Shaped(f, ors)
  {
    if !Literal(f) {
      ShapedAnyway(f.l, ors);
      ShapedAnyway(f.r, ors);
    }
  }

  lemma HasJoined(a: seq<Rule>, b: seq<Rule>, v: Rel)
    ensures HasRules(a + b, v) <==> HasRules(a, v) || HasRules(b, v)
  {
    if i :| 0 <= i < |a| && a[i].head.rel == v { assert (a + b)[i].head.rel == v; }
    if i :| 0 <= i < |b| && b[i].head.rel == v { var j := |a| + i; assert (a + b)[j].head.rel == v; }
  }

  lemma HasNames(out: seq<Rule>, low: nat, lo: nat, hi: nat, dom: nat, v: Rel)
    requires Shape(out, low, lo, hi, dom) && HasRules(out, v)
    ensures lo <= v.name < hi
  {
    var i :| 0 <= i < |out| && out[i].head.rel == v;
    assert GoodAt(out, i, low, lo, hi, dom);
  }

  lemma EarlierJoined(a: seq<Rule>, b: seq<Rule>, low: nat, lo: nat, mid: nat, hi: nat, dom: nat, k: nat, v: Rel)
    requires Shape(a, low, lo, mid, dom) && Shape(b, low, mid, hi, dom) && k < |a + b| && v in FormRels((a + b)[k].body)
    ensures Earlier(a + b, k, v, low, lo)
  {
    var out := a + b;
    if k < |a| {
      assert GoodAt(a, k, low, lo, mid, dom) && Earlier(a, k, v, low, lo);
      assert out[..k] == a[..k] && out[k..] == a[k..] + b && a == a[..k] + a[k..];
      HasJoined(a[k..], b, v);
      HasJoined(a[..k], a[k..], v);
      if HasRules(a, v) { HasNames(a, low, lo, mid, dom, v); }
      if HasRules(b, v) { HasNames(b, low, mid, hi, dom, v); }
    } else {
      var j := k - |a|;
      assert GoodAt(b, j, low, mid, hi, dom) && Earlier(b, j, v, low, mid);
      assert out[..k] == a + b[..j] && out[k..] == b[j..];
      HasJoined(a, b[..j], v);
    }
  }

  lemma ShapeJoined(a: seq<Rule>, b: seq<Rule>, low: nat, lo: nat, mid: nat, hi: nat, dom: nat)
    requires Shape(a, low, lo, mid, dom) && Shape(b, low, mid, hi, dom)
    ensures Shape(a + b, low, lo, hi, dom)
  {
    forall k | 0 <= k < |a + b| ensures GoodAt(a + b, k, low, lo, hi, dom) {
      if k < |a| { assert GoodAt(a, k, low, lo, mid, dom); } else { assert GoodAt(b, k - |a|, low, mid, hi, dom); }
      forall v | v in FormRels((a + b)[k].body) ensures Earlier(a + b, k, v, low, lo) {
        EarlierJoined(a, b, low, lo, mid, hi, dom, k, v);
      }
    }
  }

  lemma ShapeDown(out: seq<Rule>, low: nat, lo: nat, mid: nat, hi: nat, dom: nat)
    requires Shape(out, low, mid, hi, dom) && low <= lo <= mid
    ensures Shape(out, low, lo, hi, dom)
  {
    forall k | 0 <= k < |out| ensures GoodAt(out, k, low, lo, hi, dom) {
      assert GoodAt(out, k, low, mid, hi, dom);
      forall v | v in FormRels(out[k].body) ensures Earlier(out, k, v, low, lo) { assert Earlier(out, k, v, low, mid); }
    }
  }

  /** One more rule for the first of the new relations. */
  lemma ShapeMore(out: seq<Rule>, r: Rule, low: nat, lo: nat, mid: nat, hi: nat, dom: nat)
    requires Shape(out, low, lo, hi, dom) && lo < mid && lo < hi
    requires !r.neg && r.head.rel.name == lo && AtomOk(r.head, dom) && From(r.body, out, low, mid, dom)
    ensures Shape(out + [r], low, lo, hi, dom) && HasRules(out + [r], r.head.rel)
  {
    var more, n := out + [r], |out|;
    assert more[n].head.rel == r.head.rel;
    forall k | 0 <= k < |more| ensures GoodAt(more, k, low, lo, hi, dom) {
      if k < n { assert GoodAt(out, k, low, lo, hi, dom); }
      forall v | v in FormRels(more[k].body) ensures Earlier(more, k, v, low, lo) {
        if k < n {
          assert Earlier(out, k, v, low, lo);
          assert more[..k] == out[..k] && more[k..] == out[k..] + [r];
          HasJoined(out[k..], [r], v);
        } else {
          assert more[..k] == out && more[k..] == [r];
        }
      }
    }
  }

  lemma FromMore(f: Form, out: seq<Rule>, more: seq<Rule>, low: nat, lo: nat, dom: nat)
    requires From(f, out, low, lo, dom)
    ensures From(f, out + more, low, lo, dom)
  {
    forall v | v in FormRels(f) && HasRules(out, v) ensures HasRules(out + more, v) { HasJoined(out, more, v); }
  }

  lemma FromLater(f: Form, out: seq<Rule>, more: seq<Rule>, low: nat, lo: nat, mid: nat, dom: nat)
    requires From(f, more, low, mid, dom) && lo <= mid
    ensures From(f, out + more, low, lo, dom)
  {
    forall v | v in FormRels(f) && HasRules(more, v) ensures HasRules(out + more, v) { HasJoined(out, more, v); }
  }

  /** The new relation of a rule just added, as a literal. */
  lemma FromHead(out: seq<Rule>, a: Atom, low: nat, lo: nat, dom: nat)
    requires AtomOk(a, dom) && a.rel.name == lo && HasRules(out, a.rel)
    ensures From(Lit(a), out, low, lo, dom)
  {
  }

  lemma FromSigned(s: Signed, out: seq<Rule>, low: nat, lo: nat, dom: nat)
    requires From(s.term, out, low, lo, dom)
    ensures From(TermTree(s), out, low, lo, dom)
  {
  }

  lemma {:induction false} FromConj(c: seq<Signed>, out: seq<Rule>, low: nat, lo: nat, dom: nat)
    requires c != [] && forall j :: 0 <= j < |c| ==> From(c[j].term, out, low, lo, dom)
    ensures From(ConjTree(c), out, low, lo, dom)
  {
    var n := |c| - 1;
    FromSigned(c[n], out, low, lo, dom);
    if n > 0 { FromConj(c[..n], out, low, lo, dom); }
  }

  lemma {:induction false} RelsBelow(f: Form, low: nat)
    requires NamesBelow(f, low)
    ensures forall v :: v in FormRels(f) ==> v.name < low
  {
    match f
    case Lit(_) =>
    case Equal(_, _) =>
    case Not(g) => RelsBelow(g, low);
    case Bin(_, l, r) => RelsBelow(l, low); RelsBelow(r, low);
    case Quant(_, _, g) => RelsBelow(g, low);
  }

  lemma {:induction false} FlattenOk(op: Op, f: Form, low: nat, dom: nat)
    requires FormOk(f, dom) && NamesBelow(f, low)
    ensures forall g :: g in Flatten(op, f) ==> FormOk(g, dom) && NamesBelow(g, low)
  {
    if f.Bin? && f.op == op {
      FlattenOk(op, f.l, low, dom);
      FlattenOk(op, f.r, low, dom);
    }
  }
}
