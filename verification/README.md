# A verified model of the TML interpreter's core

TML is a logic programming language: rules with first-order bodies are evaluated by a partial fixed point over
relations stored as binary decision diagrams. This project models the parts of the interpreter whose correctness is
least obvious from reading them, and proves what they promise.

- **Decision diagrams** (`Bdd*.dfy`): the node table with complemented outputs, inverted inputs and shifted variables,
  all operations on it (conjunction, conditional, many-operand conjunction, fused quantification and renaming), its
  memo tables, its handles and its compacting garbage collector. A reference denotes a set of assignments, and every
  operation is proved against that.
- **Bits of tuples** (`Circuits.dfy`, `Facts.dfy`, `BodyBits.dfy`, `BodyQuery.dfy`, `CompareQuery.dfy`): comparisons and
  addition as circuits, tables built from facts and read back, the vectors and conditions with which body literals and
  alternatives become fused queries, and comparisons in bodies with their number tags.
- **Evaluation** (`Datalog*.dfy`, `Evaluator.dfy`): compilation of rules, steps with insertions, deletions and
  conflicts, caches, the detection of repetition, and the three-valued reading of the final cycle.
- **Program transformations** (`Formula.dfy`, `Inlining.dfy`, `Pdatalog.dfy`, `Clock.dfy`, `Speedup.dfy`; `Dnf*.dfy`,
  `ToDnf.dfy`; `Levels.dfy`, `Staging*.dfy`, `StepTransform.dfy`; `Redundancy.dfy`, `Minimize.dfy`, `Containment.dfy`):
  squaring a program to run faster, compiling formulas to rules, staging rules by dependency, minimisation and
  containment. `TableRules.dfy` connects the meaning of rules used here with the evaluator's.
- **Parsing** (`Grammar.dfy`, `Earley*.dfy`, `Ebnf*.dfy`): the Earley recogniser with its packed forest, and the
  rewriting of extended productions to plain ones.

Objects whose methods update their fields in the program are classes here (`Store`, `Tables`, `Earley`,
`PTransformer`), its loops are loops, and its pure functions are functions. `dafny verify dfyconfig.toml` checks the
whole project.

## Findings

Properties that fail, each with the exact condition under which they hold.

- **Conditional on decision diagrams** (src/bdd.cpp:220). The third early return of `bdd_ite` answers false for
  operands that only agree on a variable. The result is always contained in the true one (`BddIte.IteExactIff`), an
  input where it is smaller is `BddIte.IteNotAlwaysExact`, and the exact condition is `BddIte.IteExact`. A caller can
  check complementary branches (`ComplementExact`) or a condition that shares no variable with the branches
  (`DisjointExact`); the circuits modelled here always meet one of the two.
- **Nullable start symbol** (src/earley.cpp:275). The first items of the start symbol are put in without the shortcut
  for nullable symbols, and predicting them again does nothing. What is accepted is exactly what the start symbol reads
  without that shortcut (`EarleyItems.RecognizedReads`, for every grammar and input). The answer is right on every
  input if and only if the start symbol is ready, that is, not nullable or with a null production that begins with
  another nonterminal (`StartReady`): otherwise the empty input is rejected although derivable
  (`EarleyParser.Earley.Recognize`), and so may be others, such as "a" for S = "" or S a (`EarleyReads.LoopRejected`).
- **Facts that clash in the last bit** (src/tables.cpp:249-254). The table built from facts loses facts that differ
  only in bit 0 of the last argument. Nothing is ever added, and nothing is lost if and only if no two facts clash
  (`Facts.NoClash`).
- **Conflicts** (src/tables.cpp:701-716 against README.md:28-30). The documentation calls any fact both added and
  deleted a contradiction; the code reports one only when everything added to a relation is also deleted
  (`DatalogStep.ConflictMeans`).
- **Containment with a recursive rule** (src/driver.cpp:592-629). The test runs the second rule to a fixpoint, so a
  rule whose head relation is in its own body can pass without containing the first (`RecursiveNotContained`). For
  all rules it decides containment in the fixpoint (`CqcDerives`), and plain containment when the head relation is
  not in the body (`CqcIff`); heads frozen before the test always meet this.
- **One pass of minimisation** (src/driver.cpp:1183-1260). Operands are tried once, from the inside out, and dropping
  a later one can make an earlier one redundant, which is then kept: p :- a; b; ~a, ~b becomes p :- a; b; ~a, where b
  could go (`Redundancy.NotAlwaysIrreducible`). A pass leaves a rule alone if and only if it is irreducible
  (`Redundancy.GreedyFixed`), so the result is irreducible exactly when another pass would not change it. One pass
  suffices when all operands that may be dropped move the rule the same way, as in
  a single conjunction (`GreedyIrreducible`); in disjunctive normal form it always suffices inside the disjuncts
  (`GreedyTidy`), altogether when nothing could be dropped inside them (`TidyIrreducible`), and a second pass always
  does (`Minimize.MinimizedTwice`).
- **Circles** (src/driver.cpp:2620-2643). Relations that depend on each other in a circle are never placed in a level
  and silently dropped. All relations are placed if and only if there is no circle (`Levels.Kahn`); compiled formulas
  never have one.
- **A bar at the end of a production** (src/ir_builder.cpp:882-892). The extended-notation pass accepts it, and only
  the pass that splits alternatives reports it, as a production without a right-hand side (`EbnfDesugar.Visit`,
  `TransformAlts`).

## Model

| member | source | states |
|---|---|---|
| `BddRef.PackedOrders` | src/bdd.h:55-94 | the three orders on packed 64-bit references (signed, unsigned, magnitude) are the field-wise orders, for fields that fit |
| `BddSem.Canonical` | src/bdd.h:42-53 | with complemented outputs, inverted inputs and shifted variables: two well-formed references denote the same function exactly when they are equal |
| `BddStore.Store.Add` | src/bdd.cpp:131-158 | the reference returned is the branch on the variable; the table stays normalised and only grows; a new node is made only for a function no reference had |
| `BddStore.Store.And` | src/bdd.cpp:175-206 | conjunction, with and without a cache hit |
| `BddStore.Store.Ite` | src/bdd.cpp:213-258 | the reference computed is that of IteFn, which is the conditional exactly under IteExact |
| `BddIte.IteExactIff` | src/bdd.cpp:213-258 | what bdd_ite computes never exceeds "if x then y else z" and equals it if and only if the third early return is only taken where it is right |
| `BddIte.ComplementExact` | src/bdd.cpp:213-258 | a condition to check before the call: complementary branches make bdd_ite exact |
| `BddIte.DisjointExact` | src/bdd.cpp:213-258 | a condition to check before the call: a condition sharing no variable with the branches makes bdd_ite exact |
| `BddIte.IteNotAlwaysExact` | src/bdd.cpp:220 | an input on which bdd_ite returns false although the conditional is satisfiable |
| `BddIte.IteFnPlus` | src/bdd.cpp:213-258 | bdd_ite commutes with shifting all variables, which is what lets shifted references share cache entries |
| `BddSat.SubsumesIff` | src/bdd.cpp:164-173 | the recursive test decides implication of the denoted functions, both ways |
| `BddLists.AmSort` | src/bdd.cpp:260-269 | sorted, without true and repetitions; a false or contradictory list becomes the list of false, and only such a list |
| `BddLists.Cofactors` | src/bdd.cpp:271-313 | the restrictions of all operands to one value of a variable, or the discovery that one of them is false |
| `BddLists.EraseAll` | src/bdd.cpp:271-313 | exactly the elements of the first list that are not in the sorted second one |
| `BddStore.Store.ShareCommon` | src/bdd.cpp:271-313 | the operands common to both branches are conjoined once; the branches keep their conjunctions |
| `BddStore.Store.AndManyIter` | src/bdd.cpp:271-313 | one split of a list on its least variable: the code says which branches are used, and together they are the conjunction |
| `BddStore.Store.UseCached` | src/bdd.cpp:325-338 | replacing cached pairs keeps the conjunction of the list |
| `BddStore.Store.AndMany` | src/bdd.cpp:324-361 | the conjunction of a list of references |
| `BddStore.Store.PairQuery` | src/bdd.cpp:363-436 | the fused "exists, and, rename" of two references denotes the image of their conjunction |
| `BddStore.Store.ManyQuery` | src/bdd.cpp:481-599 | the fused query of a list, with conjunction decided lazily and shortcuts after the last touched variable |
| `BddStore.Store.LastTouched` | src/bdd.cpp:403-409 | no variable after the returned one is quantified or renamed |
| `BddStore.Store.Ex` | src/bdd.cpp:943-958 | existential quantification |
| `BddStore.Store.Permute` | src/bdd.cpp:964-972 | renaming, for renamings injective on the variables used |
| `BddStore.Store.PermuteEx` | src/bdd.cpp:979-1000 | quantification and renaming in one pass |
| `BddStore.Store.Query` | src/bdd.cpp:821-866 | at the level of handles: the result stands for the image of the conjunction of all operands, and every other live handle keeps its meaning, even when a collection runs first |
| `BddStore.Store.Xor` | src/bdd.cpp:937 | exclusive or, although built on bdd_ite |
| `BddStore.Store.Drop` | src/bdd.h:474-478 | a dropped handle disappears, the invariants stay |
| `BddStore.Store.GetHandle` | src/bdd.cpp:774-780 | a live reference keeps its handle, a new one gets a new handle, nothing else changes |
| `BddStore.Store.SameHandleSameFunction` | src/bdd.cpp:774-780 | handles are equal exactly when their functions are |
| `BddStore.Store.Gc` | src/bdd.cpp:635-762 | after a collection every live handle denotes its old function, the table holds only reachable nodes, and all invariants (normal form, unique table, caches) hold again |
| `BddGc.Collect` | src/bdd.cpp:635-762 | the same for the tables as values: compaction, renumbering of handles and of every memo |
| `BddGc.Compact` | src/bdd.cpp:635-660 | marked nodes are kept in order under new numbers and children renumbered: an embedding that keeps normal form |
| `BddGc.MarkAll` | src/bdd.cpp:614-618 | adds to the marked nodes exactly those reachable from the reference |
| `BddGc.Update` | src/bdd.cpp:764-771 | all handles move to the new numbers and stay distinct |
| `BddSat.AllSat` | src/bdd.cpp:904-919 | lists every satisfying assignment once, and nothing else |
| `BddSat.SatCountArith` | src/bdd_ext.cpp:141-158 | the arithmetic count multiplies skipped variables into the number of satisfying assignments |
| `BddSat.SatCount` | src/bdd_ext.cpp:40-47 | the number of satisfying assignments |
| `BddSat.SatCountIsAllSat` | src/bdd_ext.cpp:40-47 | that number is the length of the list of all satisfying assignments |
| `Circuits.VarInjective` | src/tables.h:220-227 | bit and argument are determined by the variable |
| `Circuits.LeqConst` | src/tables.cpp:59-70 | holds exactly where the low bits of an argument are at most those of the constant |
| `Circuits.LeqVar` | src/tables.cpp:81-93 | holds exactly where one argument is at most the other |
| `Circuits.FullAdderCarry` | src/tables_ext.cpp:124-132 | the carry out of a bit |
| `Circuits.FullAdder` | src/tables_ext.cpp:147-176 | the sum bit above the tag bits; on the two tag bits the conjunction, as coded |
| `Circuits.AddVarEq` | src/tables_ext.cpp:178-201 | the relation built bit by bit |
| `Circuits.AdderMeaning` | src/tables_ext.cpp:178-201 | that relation accepts exactly the correctly tagged numbers whose sum, modulo the width, is the third |
| `Facts.PosInverse` | src/tables.h:228-245 | the inverse of the bit position |
| `Facts.FromFactsAt` | src/tables.cpp:243-265 | the bitwise partition never accepts more than the facts, and accepts all of them if and only if no two differ just in the last position |
| `Facts.FromFacts` | src/tables.cpp:231-242 | the same from the first bit; an empty list or no arguments give true |
| `Facts.FactsRoundTrip` | src/tables.cpp:222-275 | building a table and reading it back gives only facts of the list, and gives the whole list if and only if no two clash |
| `Facts.Decompress` | src/tables.cpp:1251-1272 | the tuples listed are exactly those read from satisfying bit vectors, one for each |
| `BodyBits.BodyImage` | src/tables.cpp:617-629 | for the vectors of a body literal, the image of condition and table is exactly the valuations under which the literal holds, negated or not, with symbols and repeated variables |
| `BodyBits.TailImage` | src/tables.cpp:594-602 | for the vectors that cut a tail, the image of a set of valuations is the set of their heads |
| `BodyQuery.FromSym` | src/tables.cpp:120-129 | an argument equals a symbol |
| `BodyQuery.FromSymEq` | src/tables.cpp:131-143 | two arguments are equal |
| `BodyQuery.GetPerm` | src/tables.cpp:161-168 | first occurrences are sent to their positions in the alternative, everything else stays |
| `BodyQuery.GetBody` | src/tables.cpp:170-184 | the condition holds exactly of the tuples that fit symbols and repetitions; exactly those bits are quantified that are not first occurrences |
| `BodyQuery.BodyQuery` | src/tables.cpp:617-629 | the fused query on the BDD of the table is the relation of the compiled body literal used by the evaluator |
| `BodyQuery.DelTail` | src/tables.cpp:594-602 | the vectors that keep the head positions and quantify the others |
| `BodyQuery.AltQuery` | src/tables.cpp:641-699 | the fused query over range, equalities and body literals is exactly what the alternative contributes to its head |
| `EarleyParser.Earley.FindNullables` | src/earley.cpp:99-107 | exactly the nonterminals that derive the empty string |
| `EarleyParser.Earley.Complete` | src/earley.cpp:211-220 | every item waiting where this one began, for what it completed, is advanced, and only sound items are added |
| `EarleyParser.Earley.Predict` | src/earley.cpp:222-230 | every production of the nonterminal at the dot is started, and only sound items are added |
| `EarleyParser.Earley.Scan` | src/earley.cpp:252-265 | the item advanced over the character, if it matches |
| `EarleyParser.Earley.Round` | src/earley.cpp:267-329 | one pass over a position; with its working set the invariant of the chart is kept |
| `EarleyParser.Earley.Recognize` | src/earley.cpp:267-329 | found exactly when the start symbol reads the input, and exactly then the forest has an entry for it; for every grammar, found or not, each entry holds exactly the tilings of its stretch by children that read theirs, and the nonterminals in them have entries; for a ready start symbol reading is deriving, for any other the empty input is rejected although derivable |
| `EarleyItems.RecognizedSound` | src/earley.cpp:267-329 | in a saturated chart, recognition implies derivation |
| `EarleyItems.RecognizedComplete` | src/earley.cpp:267-329 | in a saturated chart, derivation implies recognition when the start symbol is ready |
| `EarleyItems.RecognizedReads` | src/earley.cpp:267-329 | in a saturated chart, recognition is exactly what the start symbol reads when its own first items get no nullable shortcut, for every grammar |
| `EarleyItems.EmptyStartUnready` | src/earley.cpp:275-329 | a grammar whose start symbol is not ready |
| `EarleyReads.LoopRejected` | src/earley.cpp:275-329 | a derivable non-empty input that is not read |
| `EarleyForest.CompletedReads` | src/earley.cpp:267-329 | in a saturated chart, for every grammar, the nonterminals completed over a stretch are exactly those that read it |
| `EarleyForest.PackReads` | src/earley.cpp:553-598 | for every grammar, the packed children of a node are exactly the ways of tiling its span with a production whose children read their parts |
| `EarleyForest.PackIff` | src/earley.cpp:553-598 | the packed children of a node are exactly the ways of tiling its span with a production, in terms of derivation, when the start symbol is ready |
| `EarleyParser.Earley.SblChdForest` | src/earley.cpp:553-598 | collects every list of children that completes an item, and no other |
| `EarleyParser.Earley.SortItems` | src/earley.cpp:599-636 | completed items by symbol, start and end |
| `EarleyParser.Earley.BuildForest` | src/earley.cpp:742-763 | enters a node and everything below it, terminating also through cycles; entered nodes hold exactly their packs |
| `EbnfParse.PTransformer.SynthRecur` | src/ir_builder.cpp:901-934 | adds the one or two productions of a group, option or repetition under fresh heads |
| `EbnfParse.PTransformer.ParseFactor` | src/ir_builder.cpp:936-999 | reads a symbol or a bracket with its repetition and rewrites it to one symbol, its meaning in the new productions |
| `EbnfParse.PTransformer.ParseAlt` | src/ir_builder.cpp:862-870 | reads and rewrites one alternative |
| `EbnfParse.PTransformer.ParseAlts` | src/ir_builder.cpp:882-892 | reads and rewrites alternatives, succeeding on every reading there is; reports a bar passed over at the end |
| `EbnfDesugar.Visit` | src/ir_builder.cpp:1001-1015 | a production becomes its rewritten form and the productions it needs; fails only on what cannot be read |
| `EbnfDesugar.TransformEbnf` | src/ir_builder.cpp:1017-1027 | walks the production list while it grows, terminates, and succeeds on everything readable |
| `EbnfDesugar.TransformAlts` | src/ir_builder.cpp:1512-1526 | splits at every bar: the same alternatives for every head, one to a production; fails only where one is empty |
| `EbnfMeans.PlainMeans` | src/ir_builder.cpp:862-1015 | productions holding the rewritten alternatives and the fresh definitions derive, from every original nonterminal, exactly what the extended productions yield |
| `EbnfDesugar.Desugar` | src/ir_builder.cpp:1017-1027 | both passes together: plain productions only, and every original nonterminal derives exactly what it yields under brackets, options, repetitions and alternatives; a readable grammar is accepted |
| `Datalog.GetVarmap` | src/tables.cpp:35-47 | head variables at their first position, the others behind |
| `Datalog.GetBody` | src/tables.cpp:170-184 | the compiled literal holds of a valuation exactly when the literal holds under it |
| `Datalog.HandlerEq` | src/tables.cpp:277-290 | restricts to the valuations satisfying the comparison; gives up only when none can |
| `Datalog.HandlerLeq` | src/tables.cpp:301-331 | the same for order, which also demands numbers, that is, values with the tag of CompareQuery.TagOf |
| `CompareQuery.TagOf` | src/defs.h:149-154 | the values taken for numbers are those made by the number tag, not those of characters or symbols: bit 1 set and bit 0 clear |
| `CompareQuery.NumberTagged` | src/tables_ext.cpp:178-201 | an argument is taken for a number exactly when the adder accepts its tag |
| `CompareQuery.ConstrainToNum` | src/tables.cpp:292-299 | the two tag bits as a condition: exactly the assignments whose argument is a number |
| `CompareQuery.HandlerEq` | src/tables.cpp:277-290 | on diagrams: the condition conjoined is exactly that the equation holds of the decoded arguments, or none can |
| `CompareQuery.HandlerLeq` | src/tables.cpp:301-331 | on diagrams, built from the comparison circuits and the tag bits: exactly that the decoded arguments are in order, or not if negated, and in either case that compared variables are numbers |
| `CompareQuery.SetLevel` | src/tables.cpp:277-331 | these conditions restrict a set of valuations exactly as the evaluator does |
| `Datalog.GetAlt` | src/tables.cpp:363-418 | the compiled alternative stands for its list of literals; it is dropped only if the list can never hold |
| `DatalogCompile.HeadEq` | src/tables.cpp:481-490 | the tuples that fit the head |
| `DatalogCompile.GetRule` | src/tables.cpp:481-539 | the compiled rule derives exactly what the rule derives |
| `DatalogCompile.GetRules` | src/tables.cpp:488-539 | the same for a program, alternatives and literals shared |
| `DatalogStep.StepMeans` | src/tables.cpp:701-764 | a step keeps old facts, adds positive consequences and removes negative ones, all judged on the database before it |
| `DatalogStep.ConflictMeans` | src/tables.cpp:701-716 | a table conflicts exactly when something is added, something is deleted and everything added is deleted |
| `Evaluator.Tables.constructor` | src/tables.cpp:488-539 | the initial state stands for the program and the given facts |
| `Evaluator.Tables.BodyQuery` | src/tables.cpp:617-629 | reusing the last result is right while the table is the same |
| `Evaluator.Tables.AltQuery` | src/tables.cpp:641-699 | with reordering after a failed literal and reuse of the last result: what the alternative contributes |
| `Evaluator.Tables.FwdRule` | src/tables.cpp:732-764 | adds or deletes what one rule derives; for a program without negative heads only what is new |
| `Evaluator.Tables.Commit` | src/tables.cpp:701-716 | the committed table, or a conflict that leaves it unchanged |
| `Evaluator.Tables.Fwd` | src/tables.cpp:732-764 | one call is one step of the program, reports change exactly, and stops exactly on a conflict |
| `Evaluator.Tables.IsInfloop` | src/tables.cpp:1142-1155 | true exactly when the visible tables do not settle |
| `Evaluator.Tables.ComputeFixpoint` | src/tables.cpp:1163-1203 | succeeds exactly on a repetition; its three readings are the facts true for ever, never again, and for ever changing |
| `Evaluator.Tables.Pfp` | src/tables.cpp:812-835 | ends within 2 to the number of ground atoms steps and within both step limits; it is unfinished exactly when a limit was reached, stops at the first repetition, and otherwise the outcome says exactly whether the run contradicts itself, settles or loops; the tables are those of the run |
| `DatalogRuns.CycleMeans` | src/tables.cpp:1163-1203 | what happens in one cycle decides what happens for ever |
| `DatalogRuns.DistinctBound` | src/tables.cpp:812-835 | a run without repetition is at most that long |
| `TableRules.StepSame` | src/tables.cpp:732-764 | for rules in disjunctive normal form, the step of the compiled program on tables is the step of the rules on facts |
| `TableRules.RunSame` | src/tables.cpp:812-835 | the same for runs of any length |
| `TableRules.ConflictSame` | src/tables.cpp:701-716 | a table conflicts exactly when its relation does |
| `Formula.RenameMeans` | src/driver.cpp:2756-2803 | a formula with freshly renamed variables means what the formula means, free variables read through their new names; nothing is captured |
| `Inlining.ExpandTerm` | src/driver.cpp:2826-2868 | the formula put for an atom holds exactly when the rule derives the atom |
| `Inlining.ExpandTree` | src/driver.cpp:2884-2925 | the expanded formula holds before a step exactly when the original holds after it |
| `Inlining.SquareProgram` | src/driver.cpp:2877-2925 | one step of the squared rules is two steps of the rules |
| `Pdatalog.SquareTimes` | src/driver.cpp:3508-3513 | k squarings take 2 to the k steps at once |
| `Pdatalog.TwoSteps` | src/driver.cpp:2366-2429 | two steps of the rules that forget are one step of the program, deletions included |
| `Pdatalog.TwiceSteps` | src/driver.cpp:2366-2429 | the same for whole runs |
| `Speedup.Prepare` | src/driver.cpp:2366-2429 | the loop that emits those rules |
| `Clock.Cycle` | src/driver.cpp:2432-2481 | two ticks of the clock run the rules that forget once |
| `Clock.Cycles` | src/driver.cpp:2432-2481 | the same for whole runs |
| `Clock.NoConflict` | src/driver.cpp:2432-2481 | the clocked program never contradicts itself, on any database |
| `Speedup.RunByClock` | src/driver.cpp:2432-2481 | the loop that emits the clocked rules |
| `Speedup.Iterate` | src/driver.cpp:3503-3528 | the whole transformation: every two steps of the result are 2 to the k-1 steps of the program, for every database and any number of steps, and it never conflicts |
| `Dnf.BodyRoundTrip` | src/input.cpp:639-686 | lists to tree and back is the identity |
| `Dnf.GetBodyIff` | src/input.cpp:662-686 | exactly the disjunctions, nested either way, of conjunctions of terms negated any number of times can be read as lists |
| `Dnf.BodyMeans` | src/input.cpp:662-686 | the lists read off a tree mean what the tree means |
| `Dnf.TreeMeans` | src/input.cpp:626-648 | the tree built from lists means what the lists mean |
| `Redundancy.Monotone` | src/driver.cpp:1174-1181 | entailment is carried through a context, or reversed, as its parity says |
| `Minimize.TryPart` | src/driver.cpp:1183-1260 | one test in the direction the parity asks for: a part replaces the whole only if the rules stay equivalent, and with a test that decides containment exactly then |
| `Minimize.MinimizeAux` | src/driver.cpp:1183-1260 | only operands are dropped, and the rule stays equivalent under any sound test; with one that decides containment, every operand is dropped, from the inside out, that can be at its moment |
| `Redundancy.GreedyFixed` | src/driver.cpp:1183-1260 | nothing is dropped if and only if no conjunction, disjunction or implication can be replaced by one of its operands |
| `Redundancy.GreedyIrreducible` | src/driver.cpp:1183-1260 | afterwards nothing can be replaced by an operand, provided all operands that may be dropped move the rule the same way |
| `Redundancy.GreedyTidy` | src/driver.cpp:1183-1260 | afterwards nothing can be dropped inside the disjuncts of a disjunction of conjunctions |
| `Redundancy.TidyIrreducible` | src/driver.cpp:1183-1260 | a pass over a disjunction in whose disjuncts nothing can be dropped leaves nothing to drop |
| `Redundancy.NotAlwaysIrreducible` | src/driver.cpp:1183-1260 | a rule in disjunctive normal form from which a redundant disjunct is left |
| `Minimize.MinimizeRule` | src/driver.cpp:1266-1281 | the minimised rule is equivalent, has the form of the rule and only operands dropped; with a test that decides containment, everything that could be dropped was |
| `Minimize.TrimmedSmaller` | src/driver.cpp:1266-1281 | the minimised rule is never larger, and smaller unless it is the same |
| `Minimize.MinimizedIrreducible` | src/driver.cpp:1266-1281 | with such a test, a rule stays as it is exactly when it is irreducible; no term of a conjunction of the result can be dropped, and from a single conjunction the result is irreducible |
| `Minimize.MinimizedTwice` | src/driver.cpp:1266-1281 | a rule in disjunctive normal form minimised twice is irreducible |
| `Minimize.SubsumeQueries` | src/driver.cpp:1289-1321 | what remains answers exactly what all rules answered, covers every rule, and is made of minimised rules of the program; with a test that decides containment no remaining rule is contained in another |
| `Minimize.Compare` | src/driver.cpp:1296-1311 | drops only kept rules contained in the new one; the new one is covered, or with a test that decides containment unrelated to all that stay |
| `Containment.OneStepIff` | src/driver.cpp:592-629 | the homomorphism theorem: the second rule answers the frozen head from the frozen body exactly when it contains the first |
| `Containment.CqcDerives` | src/driver.cpp:592-629 | the test as coded, a run to the fixpoint: it says yes exactly when all answers of the first rule are derived by the fixpoint of the second |
| `Containment.DerivedAtEnd` | src/tables.cpp:842-898 | what is derived at all is what the run holds when it stops |
| `Containment.CqcIff` | src/driver.cpp:592-629 | for a second rule whose head relation is not in its body, the test says yes exactly when it contains the first |
| `Containment.ContainedCqc` | src/driver.cpp:592-629 | containment always makes the test say yes |
| `Containment.RecursiveNotContained` | src/driver.cpp:592-629 | a recursive rule for which the test says yes without containment |
| `Containment.CqcTestSound` | src/driver.cpp:3550-3560 | on such rules the test may be used for minimisation and subsumption |
| `ToDnf.ExpandMeans` | src/driver.cpp:126-157 | expanding implications and unique quantifiers keeps the meaning |
| `ToDnf.UniqueMeans` | src/driver.cpp:126-157 | "exactly one" in terms of "some" and "all" |
| `ToDnf.Compile` | src/driver.cpp:3014-3114 | the rules produced, run bottom-up, make the returned literal hold exactly where the formula does; new relations only, each over earlier ones, and every body a conjunction of literals |
| `DnfProgram.CompileAll` | src/driver.cpp:3117-3127 | the same for every rule of a program: each formula becomes one literal, all new rules are conjunctions of literals |
| `DnfProgram.StepDnf` | src/driver.cpp:3117-3127 | compiled and staged, the program does per clock cycle what the original does per step, for every number of steps; every body is in normal form if those that are not compiled are, and the levels place every relation |
| `Levels.Dependencies` | src/driver.cpp:2593-2619 | the graph of which head needs which |
| `Levels.Kahn` | src/driver.cpp:2620-2643 | levels respect the dependencies, are not empty, and place every relation as early as it can be; every relation is placed if and only if nothing depends on itself in a circle |
| `StepTransform.Freeze` | src/driver.cpp:2560-2588 | heads and facts move to inner relations under fresh names, one for one |
| `StepTransform.EmitRelation` | src/driver.cpp:2644-2718 | the staged rules of one relation: evaluated in its state, written back and cleared later |
| `StepTransform.Sequence` | src/driver.cpp:2589-2746 | earliest levels that place every relation unless there is a circle, with staged rules and placed facts, or the moved-out rules when one level suffices; bodies in normal form stay so |
| `StepTransform.Unstaged` | src/driver.cpp:2730-2741 | with a single level, a step of the rules moved out is a step of the program |
| `StepTransform.Transform` | src/driver.cpp:2546-2751 | for any rewriting of the frozen rules that keeps their meaning, the result, sequenced from what the rewriting returned, simulates the program on its outer relations after every cycle; bodies in normal form stay so |
| `StagingRuns.Ascent` | src/driver.cpp:2644-2718 | the n-th step of a cycle has evaluated the first n levels |
| `StagingRuns.RaiseSolves` | src/driver.cpp:2644-2718 | evaluating level by level gives a database in which every inner relation is what its rules say |
| `StagingRuns.SolutionUnique` | src/driver.cpp:2644-2718 | there is only one such database |
| `StagingMeans.OneCycle` | src/driver.cpp:2644-2718 | a full cycle leads from start state to start state and to that database |
| `StagingMeans.Cycles` | src/driver.cpp:2644-2718 | runs of cycles are runs of the program |
| `StagingMeans.OneClock` | src/driver.cpp:2644-2718 | at every moment exactly one state of the clock holds |
| `StagingMeans.ConflictAt` | src/driver.cpp:2644-2718 | the staged program contradicts itself only in the state that evaluates the relation |
| `StagingMeans.ConflictMeans` | src/driver.cpp:2644-2718 | and there exactly when the original program does |

## Left out

Modelled differently from the program:

- Memo tables: the many maps of `src/bdd.cpp` are one cache of conjunctions and one map per number of operands, keyed
  by query; the variants of the fused queries are one operation with a query argument; the codes of the list splits
  are renumbered.
- Handle identity is a number; weak pointers that have expired are simply absent.
- Library sorting, searching and set intersection are used through what they promise.
- Hash values, and overflow of the 38-bit and 24-bit fields of a reference, are not modelled; numbers are unbounded.
- Renaming of a diagram is only promised for renamings that are injective on the kept variables, as all callers use it.
- The evaluator holds tables as sets of tuples; `BodyQuery.dfy` proves that its queries are those sets, bit by bit. The
  compiled records are split into constant definitions and caches.
- `EarleyParser.Earley.Recognize`: the empty string occurs only as a whole right-hand side, inputs hold no null
  character, and a parser is used for one input.
- `StepTransform.Transform`: rule bodies are formulas instead of term lists, and the rewriting is any function.
- The order in which sets and maps are walked is arbitrary where the program walks them in their own order.
- Fresh names, variables and symbols are taken from counters.
- Productions: `next[cur]` beyond the end is read as an absent token.

Not modelled:

- Builtin predicates, arithmetic terms and formula bodies inside the evaluator, proof extraction, `fp_step`,
  `tml_update` and `halt`.
- Memo tables of comparisons and symbols, the `TYPE_RESOLUTION` branches, `solve`, bitwise operators and
  multiplication on diagrams.
- Input and output, the lexer and parser of TML itself, macros, directives, options and the JavaScript build.
- `transform_guards`, `factor_rules`, the containment test for negation, the Z3 back end, quotation and its codecs,
  prenex form, splitting of several heads (rules have one head here), hidden relations and goals during staging.
- Grammar constraints, string splitting and regular-expression passes.
