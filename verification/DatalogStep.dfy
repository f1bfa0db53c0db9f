/** One step of a program on a database, and its runs. */
module DatalogStep {
  import opened Datalog
  import opened DatalogCompile

  datatype Code = Code(dom: nat, rules: seq<RuleDef>, alts: seq<AltDef>, bodies: seq<BodyDef>)
  {
    ghost predicate Ok() {
      forall r :: r in rules ==> RuleOk(r, alts, bodies)
    }

    function Rel(i: nat, db: DB): set<Tuple>
      requires Ok() && i < |rules|
    {
      assert rules[i] in rules;
      RuleRel(dom, rules[i], alts, bodies, db)
    }

    /** All tuples the first n rules derive positively, or negatively, for a table. */
    function Total(neg: bool, tab: nat, db: DB, n: nat): set<Tuple>
      requires Ok() && n <= |rules|
    {
      if n == 0 then {}
      else Total(neg, tab, db, n - 1) + (if Signed(neg, tab, n - 1) then Rel(n - 1, db) else {})
    }

    predicate Signed(neg: bool, tab: nat, i: nat)
      requires i < |rules|
    {
      rules[i].neg == neg && rules[i].tab == tab
    }

    function All(neg: bool, tab: nat, db: DB): set<Tuple>
      requires Ok()
    {
      Total(neg, tab, db, |rules|)
    }

    /** The step removes everything it adds to a table. */
    predicate Conflict(tab: nat, db: DB)
      requires Ok()
    {
      All(false, tab, db) != {} && All(true, tab, db) != {} && All(false, tab, db) <= All(true, tab, db)
    }

    predicate AnyConflict(db: DB)
      requires Ok()
    {
      exists tab :: 0 <= tab < |db| && Conflict(tab, db)
    }

    function Next(tab: nat, db: DB): set<Tuple>
      requires Ok() && tab < |db|
    {
      (db[tab] + All(false, tab, db)) - All(true, tab, db)
    }

    function Step(db: DB): DB
      requires Ok()
    {
      seq(|db|, tab requires 0 <= tab < |db| => Next(tab, db))
    }

    /** The database after n steps. */
    function Run(db: DB, n: nat): DB
      requires Ok()
    {
      if n == 0 then db else Step(Run(db, n - 1))
    }

    lemma {:induction false} TotalIn(neg: bool, tab: nat, db: DB, n: nat, u: Tuple)
      requires Ok() && n <= |rules|
      ensures u in Total(neg, tab, db, n) <==>
        exists i :: 0 <= i < n && Signed(neg, tab, i) && u in Rel(i, db)
    {
      if n > 0 {
        TotalIn(neg, tab, db, n - 1, u);
        var k := n - 1;
        if u in Total(neg, tab, db, n) && u !in Total(neg, tab, db, k) {
          assert Signed(neg, tab, k) && u in Rel(k, db);
        }
      }
    }
  }

  ghost predicate Says(dom: nat, rs: seq<Rule>, neg: bool, tab: nat, db: DB, u: Tuple, i: nat) {
    i < |rs| && rs[i].head.neg == neg && rs[i].head.tab == tab && Derived(dom, rs[i], db, u)
  }

  /** Some rule of the program derives the tuple for the table, positively or negatively. */
  ghost predicate SomeSays(dom: nat, rs: seq<Rule>, neg: bool, tab: nat, db: DB, u: Tuple) {
    exists i: nat :: Says(dom, rs, neg, tab, db, u, i)
  }

  lemma AllMeans(c: Code, rs: seq<Rule>, neg: bool, tab: nat, db: DB, u: Tuple)
    requires c.Ok() && ProgramMeans(c.dom, rs, c.rules, c.alts, c.bodies)
    ensures u in c.All(neg, tab, db) <==> SomeSays(c.dom, rs, neg, tab, db, u)
  {
    c.TotalIn(neg, tab, db, |c.rules|, u);
    forall i | 0 <= i < |rs| ensures u in c.Rel(i, db) <==> Derived(c.dom, rs[i], db, u) {
      assert RuleAt(c.dom, rs[i], c.rules[i], c.alts, c.bodies, db, u);
    }
    if i :| 0 <= i < |rs| && c.Signed(neg, tab, i) && u in c.Rel(i, db) {
      assert Says(c.dom, rs, neg, tab, db, u, i);
    }
  }

  /** A step of the compiled program is a step of the rules: old facts and positive consequences, less the negative
      consequences, all taken from the database before the step. */
  lemma StepMeans(c: Code, rs: seq<Rule>, db: DB, tab: nat, u: Tuple)
    requires c.Ok() && ProgramMeans(c.dom, rs, c.rules, c.alts, c.bodies) && tab < |db|
    ensures u in c.Step(db)[tab] <==>
      (u in db[tab] || SomeSays(c.dom, rs, false, tab, db, u)) && !SomeSays(c.dom, rs, true, tab, db, u)
  {
    AllMeans(c, rs, false, tab, db, u);
    AllMeans(c, rs, true, tab, db, u);
  }

  /** A table conflicts exactly when something is added to it, something is deleted from it, and every addition is
      among the deletions. */
  lemma ConflictMeans(c: Code, rs: seq<Rule>, db: DB, tab: nat)
    requires c.Ok() && ProgramMeans(c.dom, rs, c.rules, c.alts, c.bodies) && tab < |db|
    ensures c.Conflict(tab, db) <==>
      && (exists u :: SomeSays(c.dom, rs, false, tab, db, u))
      && (exists u :: SomeSays(c.dom, rs, true, tab, db, u))
      && (forall u :: SomeSays(c.dom, rs, false, tab, db, u) ==> SomeSays(c.dom, rs, true, tab, db, u))
  {
    forall u, neg ensures u in c.All(neg, tab, db) <==> SomeSays(c.dom, rs, neg, tab, db, u) {
      AllMeans(c, rs, neg, tab, db, u);
    }
    if exists u :: SomeSays(c.dom, rs, false, tab, db, u) {
      var u :| SomeSays(c.dom, rs, false, tab, db, u);
      assert u in c.All(false, tab, db);
    }
    if exists u :: SomeSays(c.dom, rs, true, tab, db, u) {
      var u :| SomeSays(c.dom, rs, true, tab, db, u);
      assert u in c.All(true, tab, db);
    }
  }
}
