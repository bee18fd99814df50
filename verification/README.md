# Voyager, verified

Voyager compiles graph queries held in a handle-based arena and runs them behind a plan
cache, a connection pool, a unit of work and a circuit breaker. This project models those
parts in Dafny and proves what they are for.

**The optimizer.** An `AstNode` names its children by handle; `Trees.TreeOf` and
`Clauses.StatementOf` read the tree a handle denotes. `Semantics`, `Matching` and `Running`
give that tree a meaning: three-valued logic and checked 64-bit integers for expressions
(sections 20.20 and 20.7 of ISO/IEC 39075:2024), sequences of rows for MATCH and OPTIONAL
MATCH (section 14.4), grouping and ordering for projections. A `World` interprets what the
optimizer does not look into (parameters, functions, properties), and every theorem holds in every
world and over every graph. A subquery is no part of the world: in `Nested.Deep` an EXISTS,
a COUNT or a pattern comprehension runs the statement, clause or path that its handle holds in
the arena, from the row it is evaluated on, to any depth, and an error inside is an error of the subquery.

The proof has three parts. The arena methods (`FoldArena`, `Visiting`, `FoldPass`, `PushArena`, `PushClauses`,
`PushStatement`, `CollectVars`, `PruneArena`, `Optimizer`) allocate and overwrite nodes as the
source does and are proved to turn the denoted statement into `Composition.Optimized` of it, keeping
the arena closed and acyclic; `Renewing` adds that whatever lies below a subquery is only folded,
at most as often as the passes visit it. The value modules (`Folding`, `FoldingSound`, `Pushdown`,
`Pruning`, `PrunedStatement`, `Composition`) prove that `Optimized` returns the same rows in the same order,
also when the world around it answers more than before (`Refining`). `PushdownClean` says when pushdown
brings in no evaluation error. `Nested`, `Sighting` and `Preserved` join the two: subqueries
folded in place answer wherever they did, and those that neither read nor bind a dropped alias do not notice that it is
gone, so the statement as a whole returns what it returned.

Keeping the rows does not say that a pass does anything. `FoldingRules` states the simplifications as laws
about whole expressions, `VisitedSlots` which nodes a fold reaches, `PushdownExact` which conjuncts move, where
each goes and that none is lost or left behind, `OptimizedExact` what each level does as a whole, and `Mentions` which
names a clause mentions, by reachability in the arena, so that pruning is exact.

**The rest.** `Labels` covers label expressions (section 16.8), and `LabelGrammar` their parser against spellings and a
grammar; `Import` the copying of one
arena into another, `Cache` the compiled-query cache against a plain recency list, `Pool` the
connection pool as a state machine of atomic steps split at the await points, `Transactions`
the unit of work with savepoints, `Circuit` the circuit breaker over runs of events, `EditDistance` and `Tantivy` the
suggestion search and the full-text query adapter. `CacheHistory`, `PoolHistory`, `PoolQueue`, `TransactionLog` and the
second half of `Circuit` tell the state after any run from the operations alone.

Termination of the arena passes is proved by a ghost rank: every child ranks below its parent
unless it is null, and no pass raises the rank of an existing node. A `Zone` is the part of the arena that holds expressions;
clauses and patterns lie outside it and are not shared, which is how the builder lays them out.

Some properties one might expect do not hold of the code as written. Each has a concrete
instance and the condition under which it holds:

- A CASE whose WHEN folds to true after a branch that had to be kept loses that branch
  (`FoldingLimits.UnguardedCaseFails`; exact for each row in `FoldingLimits.CaseHitExact`), also
  below EXISTS (`NestedLimits.NestedCaseFails`).
- Pushdown evaluates an equality on rows that another conjunct used to reject, and may fail there
  (`PushdownLimits.PushdownFails`; exact on two equalities over one node in `PushdownLimits.PushCleanIff`; in general it
  does not fail if every hoisted equality compares with a constant that has a value, `PushdownClean.PushdownSteady`).
- The printed form of a label expression parses back to it if and only if it is left-nested and its
  labels are plain words (`Labels.RoundTripFails`, `Labels.RoundTripIff`).
- Hoisting a predicate into a node pattern that the predicate reaches makes a cycle
  (`PushArena.HoistIntoOwnTarget`; exact in `PushArena.HoistAcyclicIff`).
- Pruning an alias that is bound twice loosens the pattern (`PruneExact.BoundTwiceFails`; exact for bare
  node patterns in `PruneExact.PruneSameIff`).
- Pruning drops an alias that only a subquery reads (`NestedLimits.NestedAliasFails`; exact on one node and one EXISTS in
  `NestedLimits.NestedAliasIff`; in general it keeps the rows if no dropped alias is read or bound below a subquery
  or pattern comprehension, `Preserved.OptimizePreserves`).
- Warm-up while the pool is in use exceeds the maximum size; the bound holds in every run if and only if
  nothing is warmed up (`Pool.LateWarmUpOverfills`, `Pool.BoundedIff`).
- A task can be left waiting beside a free permit and an idle connection (`PoolQueue.WaitsBesideIdle`; a run strands none
  if and only if no permit is freed without a look at the queue while a task is in line, `PoolQueue.NeverStrandedIff`).
- Rolling back does not undo edits of nodes made in place, nor clearing the log (`Transactions.EditSurvives`,
  `Transactions.ClearForgets`; exact in `Transactions.RollbackRestores`).
- Shifting a handle past the reserved raw value turns it into the null handle or wraps it (`Import.RemapRawFails`,
  `Import.RemapRawIff`).

## Model

| member | source | states |
|---|---|---|
| `Optimizer.Optimize` | crates/voyager-core/src/optimizer.rs:65-82 | Every run, at every level, leaves the arena closed and acyclic and keeps the tree of every existing expression handle; on success the root denotes the optimized statement, the collected variables cover what that statement reads, at the aggressive level exactly the internal aliases that no clause mentions are gone from its MATCH clauses, and the slots below subqueries have been folded, at most as often as the passes visit them, and not changed otherwise; a failure is traced to a missing operand in a slot or in a subquery below it, or, at the aggressive level, to one in a clause the collectors read; a root that is no statement, or level none, changes nothing. |
| `Preserved.OptimizePreserves` | crates/voyager-core/src/optimizer.rs:65-106 | What a run leaves behind returns the same rows in the same order as what it found, with every subquery evaluated in its own arena, for every graph and world, when the statement and its subqueries have no evaluation error and every CASE that they read is guarded each time it is folded; at the aggressive level if no alias that is dropped is a join, or is read or bound below a subquery or pattern comprehension, at any depth. What it leaves behind has no evaluation error either, if every hoisted equality compares with a constant that has a value. |
| `Nested.SubqueryGains` | crates/voyager-core/src/optimizer.rs:966-981 | A subquery that was folded in place, with everything below it, has in the new arena the value it had in the old one wherever that was defined, from every row; by induction over the nesting. |
| `Sighting.SubqueryBlind` | crates/voyager-core/src/optimizer.rs:1415-1495 | A statement, clause or path that neither reads nor binds a variable, at any depth below it, has the same value, and fails alike, on rows that differ in that variable only. |
| `Sighting.SeesEarlier` | crates/voyager-core/src/optimizer.rs:966-981 | Folding in place makes no variable visible: what a subquery reads or binds afterwards, at any depth, it read or bound before. |
| `NestedLimits.NestedCaseFails` | crates/voyager-core/src/optimizer.rs:931-981 | `MATCH (n) WHERE EXISTS { MATCH (m) WHERE CASE WHEN m.a THEN false WHEN true THEN true END }` on nodes with `a = true`: no rows before, all rows after the nested clause is folded. |
| `NestedLimits.NestedAliasFails` | crates/voyager-core/src/optimizer.rs:1415-1495 | The collectors do not look below EXISTS: `MATCH (_a) WHERE EXISTS { MATCH (m) WHERE _a.a }` loses its alias, and all rows become none. |
| `NestedLimits.NestedAliasIff` | crates/voyager-core/src/optimizer.rs:1415-1495 | For `MATCH (x) WHERE EXISTS { MATCH (m) WHERE y.p }` in any arena, `m` other than `x`: pruning keeps the rows in every world and on every graph if and only if `x` is not internal or `y` is not `x`. |
| `Composition.OptimizedSame` | crates/voyager-core/src/optimizer.rs:65-106 | The optimized statement returns the same rows in the same order as the original, at every level, also in a world whose subqueries answer more than the original ones did, when no expression fails and every CASE is guarded; at the aggressive level if the dropped aliases are bound once and seen by no subquery. It does not fail either, if every hoisted equality compares with a constant that has a value. |
| `OptimizedExact.LevelsDo` | crates/voyager-core/src/optimizer.rs:65-106 | Level none changes nothing; every other level folds all expressions around the MATCH clauses and leaves no conjunct in a filter that some node could take; the aggressive level also drops exactly the node aliases that start with an underscore and are not used. |
| `Optimizer.OptimizeStatement` | crates/voyager-core/src/optimizer.rs:84-106 | Pushdown and mutation folding on the arena amount to pushdown on the denoted statement; the statement node stays; failure means a stuck filter or a hole in a visited slot. |
| `FoldingSound.FoldSound` | crates/voyager-core/src/optimizer.rs:424-964 | For every guarded expression, row and world: where the original evaluates without error, the folded expression evaluates to the same value, through identities, short circuits, reassociation under 64-bit overflow, double negation, CASE pruning and comprehensions. |
| `Refining.EvalRefines` | crates/voyager-core/src/optimizer.rs:424-511 | In a world that answers the named subqueries and paths wherever another does, every expression has a value wherever it has one in the other, and the same one. |
| `FoldingLimits.CaseHitExact` | crates/voyager-core/src/optimizer.rs:911-964 | For a searched CASE with a WHEN that folds to true, folding keeps the value on a row if and only if no kept branch before it is taken there, or the taken one yields the same value. |
| `FoldingLimits.UnguardedCaseFails` | crates/voyager-core/src/optimizer.rs:931-946 | A two-branch CASE evaluates to 1 and its folded form to 2. |
| `FoldingLimits.FoldShrinks` | crates/voyager-core/src/optimizer.rs:424-964 | Folding never makes a tree heavier, whatever weight its nodes and subqueries carry, and never brings in an identifier, a parameter, a subquery or a hole. |
| `FoldingLimits.FoldComplete` | crates/voyager-core/src/optimizer.rs:424-442 | A closed integer or boolean expression whose steps are all defined folds to the one literal of its value. |
| `FoldingRules.LogicIdentities` | crates/voyager-core/src/optimizer.rs:533-561 | For every expression: a constant side of AND or OR decides the whole, or leaves the other side folded. |
| `FoldingRules.NumberIdentities` | crates/voyager-core/src/optimizer.rs:562-595 | For every expression: adding or subtracting zero and multiplying or dividing by one leaves the other side folded. |
| `FoldingRules.DoubleNegation` | crates/voyager-core/src/optimizer.rs:856-909 | For every expression: NOT NOT and minus minus fold to the folded operand. |
| `FoldingRules.ConstantsMerge` | crates/voyager-core/src/optimizer.rs:597-677 | `(e op c) op d` for `+`, `-` and `*` keeps one constant, their sum or product, if and only if that fits 64 bits, and is left alone otherwise. |
| `FoldingRules.LeadingConstantMerges` | crates/voyager-core/src/optimizer.rs:597-630 | The same for `(c + e) + d`. |
| `FoldingRules.TextFolds` | crates/voyager-core/src/optimizer.rs:679-854 | On string literals concatenation, equality, prefix, suffix and containment fold to what they mean. |
| `FoldingRules.NullFolds` | crates/voyager-core/src/optimizer.rs:897-906 | Null tests on the literal null fold to true and false. |
| `FoldingRules.CaseFolds` | crates/voyager-core/src/optimizer.rs:911-964 | A CASE without subject folds to the THEN of the first WHEN that folds to true; without one to the branches that do not fold to false; without any to the ELSE or null. |
| `FoldingRules.FoldReaches` | crates/voyager-core/src/optimizer.rs:424-511 | Folding reaches every argument, element, filter, projection and branch, and leaves names, properties, parameters and subqueries alone. |
| `Common.TruncDiv` | crates/voyager-core/src/optimizer.rs:696-702 | The quotient leaves a remainder smaller than the divisor that is zero or has the sign of the dividend. |
| `Common.TruncRem` | crates/voyager-core/src/optimizer.rs:703-709 | Quotient times divisor plus remainder is the dividend, and the remainder is smaller than the divisor and zero or of the sign of the dividend. |
| `Common.TruncUnique` | crates/voyager-core/src/optimizer.rs:696-709 | No other quotient and remainder have these properties. |
| `FoldArena.FoldBinaryOp` | crates/voyager-core/src/optimizer.rs:514-677 | Folding a binary operation over two handles allocates a node that denotes the value-level fold of their trees, overwrites no node, and fails only over a hole. |
| `FoldArena.FoldUnaryOp` | crates/voyager-core/src/optimizer.rs:856-909 | The same for unary operations, with negation checked against 64-bit overflow. |
| `FoldPass.FoldCaseNode` | crates/voyager-core/src/optimizer.rs:911-964 | The branch loop of CASE in the arena yields the handle of the folded CASE: hit branch, kept branches, else branch or null literal. |
| `FoldPass.FoldExpression` | crates/voyager-core/src/optimizer.rs:424-511 | The returned handle denotes the folded tree, ranks no higher than the original, and every earlier handle still denotes what it did; slots below subqueries are folded at most as often as the expression leads to them; a failure is traced to a missing operand, at any depth; the recursion terminates by rank. |
| `FoldPass.FoldSubquery` | crates/voyager-core/src/optimizer.rs:966-981 | One pass over the nested statement, clause or path: it folds each of its slots, touches nothing else but slots below further subqueries, which it folds too, and fails only over a missing operand, or at once on a null handle. |
| `FoldedStatement.SubqueryFolded` | crates/voyager-core/src/optimizer.rs:966-981 | After a pass over a subquery that meets each of its slots once, the nested statement, clause or path is the folded one. |
| `FoldPass.FoldClause` | crates/voyager-core/src/optimizer.rs:282-348 | Every slot of a MATCH or WITH clause, its paths and its filter, is folded in place; on failure some visited slot holds a hole. |
| `FoldPass.FoldMutation` | crates/voyager-core/src/optimizer.rs:983-1034 | The same for SET, MERGE and CREATE clauses and their items. |
| `FoldPass.FoldAllExpressions` | crates/voyager-core/src/optimizer.rs:211-280 | One pass over the statement folds exactly the slots it visits, and fails only if one of them holds a hole. |
| `VisitedSlots.VisitsExactly` | crates/voyager-core/src/optimizer.rs:211-421 | A fold of the statement visits exactly those nodes that the statement, its clauses, patterns and assignments are built from and that hold expressions to fold. |
| `VisitedSlots.ValuesFolded` | crates/voyager-core/src/optimizer.rs:211-280 | In a folded slot the URL of LOAD CSV and the value of an assignment are folded, and its target is as it was. |
| `VisitedSlots.PatternsFolded` | crates/voyager-core/src/optimizer.rs:383-422 | In a folded slot every predicate of a node or edge pattern is folded, also of one to be created or merged, and nothing else of the pattern changes. |
| `FoldedStatement.StatementFolded` | crates/voyager-core/src/optimizer.rs:211-421 | After a pass that meets each slot once, the in-place updates of clause and pattern nodes amount to folding every expression of the denoted statement. |
| `Running.FoldStatementSame` | crates/voyager-core/src/optimizer.rs:211-421 | Folding every expression of a guarded statement leaves its result rows unchanged on every graph where no expression fails, also when its subqueries answer more than before. |
| `Pushdown.PushdownSame` | crates/voyager-core/src/optimizer.rs:84-208 | For every list of MATCH and OPTIONAL MATCH clauses, graph and starting rows: moving equality conjuncts into a pattern of the same clause or of an earlier non-optional one yields the same rows in the same order. |
| `Composition.PushStatementSame` | crates/voyager-core/src/optimizer.rs:84-208 | The same inside a whole statement, through the clauses and projections that follow. |
| `PushdownExact.PushOneExact` | crates/voyager-core/src/optimizer.rs:108-208 | A conjunct about a property of `x` goes to the first node called `x` of its own clause, else to that of the nearest earlier clause that is not optional unless its own is; otherwise it stays, and nothing else changes. |
| `PushdownExact.PushClauseExact` | crates/voyager-core/src/optimizer.rs:108-208 | The filter of a clause after its turn holds, in order, exactly the conjuncts that no node takes, and is gone when there is none. |
| `PushdownExact.PushdownExhausts` | crates/voyager-core/src/optimizer.rs:84-208 | After the pass no filter holds a conjunct that some node could take, and every predicate is there exactly as often as before. |
| `PushdownExact.SelectsIff` | crates/voyager-core/src/optimizer.rs:1066-1138 | The conjuncts that can move are exactly `x.p = c` and `c = x.p` for a `c` of literals, parameters, calls, unary operators and lists. |
| `PushdownClean.PushdownSteady` | crates/voyager-core/src/optimizer.rs:84-208 | Pushdown over a clause list brings in no evaluation error, from any start, if every conjunct that finds a pattern compares with a constant that has a value. |
| `Composition.PushStatementClean` | crates/voyager-core/src/optimizer.rs:84-208 | The same for a whole statement, through the clauses and projections that follow. |
| `PushdownLimits.PushdownFails` | crates/voyager-core/src/optimizer.rs:108-208 | `MATCH (x) WHERE x.b = -$s AND x.a = 1` with a string parameter, on nodes whose properties are zero, has no evaluation error before pushdown and one after it. |
| `PushdownLimits.PushCleanIff` | crates/voyager-core/src/optimizer.rs:108-208 | For `MATCH (x) WHERE x.a = c AND x.b = d` with constants: pushdown keeps the statement free of errors on every graph and under every reading of properties and comparisons if and only if `c` has a value, unless `d` has none or is null. |
| `PushArena.CollectConjuncts` | crates/voyager-core/src/optimizer.rs:1037-1062 | The collected handles denote the conjuncts of the filter in order, without literal trues; it fails exactly when one conjunct is missing. |
| `PushArena.IsConstantExpression` | crates/voyager-core/src/optimizer.rs:1100-1125 | Decides whether the denoted tree is built from literals and parameters only; fails only over a hole. |
| `PushArena.ExtractVariable` | crates/voyager-core/src/optimizer.rs:1066-1138 | Finds the variable of a comparison of its property with a constant, on either side: the identifier, or the alias of the node pattern, the property is read off; fails only over a hole. |
| `PushArena.HoistPredicateToPath` | crates/voyager-core/src/optimizer.rs:1141-1196 | Appends the predicate to the first node pattern of the path that binds the variable, or changes nothing; the arena stays acyclic; it fails exactly on a chain without a start. |
| `PushArena.HoistAcyclicIff` | crates/voyager-core/src/optimizer.rs:1141-1196 | Appending a predicate to a pattern leaves an acyclic arena if and only if the predicate does not reach that pattern. |
| `PushArena.HoistIntoOwnTarget` | crates/voyager-core/src/optimizer.rs:1141-1196 | A four-node arena in which the hoist closes a cycle. |
| `PushClauses.HoistToPaths` | crates/voyager-core/src/optimizer.rs:108-208 | The first path of a clause that takes the predicate gets it; all other patterns stay. |
| `PushClauses.HoistToEarlier` | crates/voyager-core/src/optimizer.rs:108-208 | The nearest earlier clause that is not optional and takes the predicate gets it; every other clause keeps its denotation. |
| `PushClauses.PushConjunct` | crates/voyager-core/src/optimizer.rs:108-208 | One conjunct ends in this clause, in an earlier one, or among the conjuncts left over, as the value-level step says. |
| `PushClauses.BuildConjunctionTree` | crates/voyager-core/src/optimizer.rs:1199-1219 | The rebuilt WHERE denotes the conjunction of the conjuncts left over, and none when there are none; no existing node changes. |
| `PushStatement.OptimizeMatchClause` | crates/voyager-core/src/optimizer.rs:108-208 | Optimizing one clause in place changes the clauses up to it as the value-level pushdown does, and touches only their nodes. |
| `PushStatement.OptimizeMatches` | crates/voyager-core/src/optimizer.rs:84-106 | The loop over the clauses amounts to pushing down the whole list. |
| `CollectVars.CollectExprVars` | crates/voyager-core/src/optimizer.rs:1415-1495 | On success adds exactly the identifiers reached from the node through operands, WHERE nodes looked through, without entering a node that is no expression or the path of a comprehension; succeeds when every operand is an expression and every subquery a statement, clause or pattern. |
| `CollectVars.CollectPathVars` | crates/voyager-core/src/optimizer.rs:1497-1553 | On success adds exactly the identifiers reached from the path, and with the flag the aliases of the patterns reached. |
| `CollectVars.CollectUsedVariables` | crates/voyager-core/src/optimizer.rs:1253-1413 | On success a name is collected if and only if some clause of the statement introduces it, reaches an identifier of that name, or, for CREATE and MERGE, a pattern of that alias; when every clause is clear, it succeeds. |
| `CollectVars.CollectedCovers` | crates/voyager-core/src/optimizer.rs:1253-1413 | What the arena walk collects is what the statement reads, plus what its LOAD CSV and mutations mention. |
| `PruneArena.PrunePathVariables` | crates/voyager-core/src/optimizer.rs:1555-1624 | Drops the unreferenced internal aliases of the path and nothing else; fails exactly on a chain without a start. |
| `Optimizer.PruneDeadVariables` | crates/voyager-core/src/optimizer.rs:1222-1251 | On success an alias of a node or path in the MATCH clauses is gone if and only if it is internal and no clause mentions it, by reachability in the arena; nothing else changes anywhere, and the denoted statement is pruned accordingly. |
| `Optimizer.DroppedUnread` | crates/voyager-core/src/optimizer.rs:1372-1410 | An alias that was dropped is not the name of any identifier reached from a clause, LOAD CSV and mutations included, nor of a pattern below CREATE or MERGE, nor introduced by a clause. |
| `Mentions.NamesParts` | crates/voyager-core/src/optimizer.rs:1415-1553 | What a node mentions by reachability is its own name, what its operands mention and what its parts mention. |
| `PrunedStatement.PruneWithSame` | crates/voyager-core/src/optimizer.rs:1222-1624 | For every statement whose unreferenced internal aliases each name one position and are seen by no subquery or pattern comprehension, dropping them leaves the result rows unchanged on every graph, and the statement fails exactly when it did. |
| `PruneExact.PruneSameIff` | crates/voyager-core/src/optimizer.rs:1222-1624 | For statements of bare node patterns: dropping the unreferenced internal aliases leaves the result rows unchanged in every world and on every graph if and only if each dropped alias is bound once. |
| `PruneExact.BoundTwiceFails` | crates/voyager-core/src/optimizer.rs:1555-1624 | A pattern that names one alias twice returns two rows, and four after pruning. |
| `Ast.QueryAstArena.Alloc` | crates/voyager-core/src/ast.rs:1103-1107 | Allocation appends one node, keeps the arena closed and acyclic, and leaves every earlier handle as it was. |
| `Ast.QueryAstArena.Get` | crates/voyager-core/src/ast.rs:1111-1115 | Succeeds exactly on handles inside the arena. |
| `Ast.QueryAstArena.Update` | crates/voyager-core/src/ast.rs:1119-1123 | Overwriting a clause or pattern node keeps the arena closed and acyclic and no expression changes. |
| `Ast.QueryAstArena.RollbackTo` | crates/voyager-core/src/ast.rs:1151-1155 | Truncates to the checkpoint; a valid arena stays valid when no remaining node names a node that was cut off. |
| `Labels.RoundTrip` | crates/voyager-core/src/ast.rs:441-454 | For every expression over plain labels: the printed text parses, the result matches the same label sets and prints to the same text, and it equals the original exactly when that is left-nested. |
| `Labels.RoundTripIff` | crates/voyager-core/src/ast.rs:441-454 | For every label expression: printing and parsing yields the expression itself if and only if it is left-nested and every label is a non-empty plain word that is no keyword. |
| `Labels.RoundTripFails` | crates/voyager-core/src/ast.rs:594-619 | A label with a blank and a right-nested conjunction do not come back. |
| `Labels.ParsePrinted` | crates/voyager-core/src/ast.rs:594-619 | Tokenizing and parsing a printed expression yields its left-nested form. |
| `Labels.NormMatches` | crates/voyager-core/src/ast.rs:594-619 | Left-nesting an expression changes which label sets it matches not at all. |
| `Labels.Tokenize` | crates/voyager-core/src/ast.rs:641-709 | The cursor loop computes the token list that `LabelGrammar.TokensExactly` tells from the spellings, with its one error. |
| `Labels.ParseDisjunction` | crates/voyager-core/src/ast.rs:711-722 | The loop over the operands of a disjunction computes the recursive grammar: left-nested, binding weaker than conjunction and negation. |
| `LabelGrammar.TokensExactly` | crates/voyager-core/src/ast.rs:641-709 | A text is read as a list of tokens if and only if it spells them: signs, keywords in any mix of case, words, names in back-ticks, either wildcard, with any blanks between and no word cut short. |
| `LabelGrammar.TreesExactly` | crates/voyager-core/src/ast.rs:711-782 | A list of tokens is parsed to an expression if and only if the grammar derives it: negation before conjunction before disjunction, the latter two to the left, parentheses closed, nothing left over. |
| `LabelGrammar.ParsesExactly` | crates/voyager-core/src/ast.rs:441-454 | A text parses to an expression if and only if it spells tokens that derive it. |
| `LabelGrammar.ParseWritten` | crates/voyager-core/src/ast.rs:641-709 | However an expression is written, with signs or keywords in any mix of case, either wildcard, names plain or in back-ticks and any blanks, it parses to the left-nested form that the printed text parses to, and matches the same label sets. |
| `LabelGrammar.PlainIsWord` | crates/voyager-core/src/ast.rs:686-700 | The plain words of the round trip are the non-empty words that are no keyword in any mix of case. |
| `LabelGrammar.AtomsMatch` | crates/voyager-core/src/ast.rs:749-782 | Either wildcard is matched by every label set, and a name by the sets that have it. |
| `Import.ImportSubarena` | crates/voyager-core/src/builder.rs:1446-1459 | The returned handle denotes the tree of the old root, every handle of both arenas keeps its tree, null stays null, and all handles are in bounds while the combined length fits. |
| `Import.ImportedTree` | crates/voyager-core/src/builder.rs:1647-1864 | The whole tree below a shifted handle, of every node kind, is the tree below the original. |
| `Import.HostTree` | crates/voyager-core/src/builder.rs:1446-1459 | Whatever the host denoted before the import, it denotes afterwards. |
| `Import.JoinedWf` | crates/voyager-core/src/builder.rs:1446-1459 | The joined arena is closed and acyclic if both parts are. |
| `Import.RemapNodeParts` | crates/voyager-core/src/builder.rs:1647-1864 | Every handle of every node kind is shifted, in place, and nothing else in the node changes. |
| `Import.RemapRawIff` | crates/voyager-core/src/builder.rs:1639-1645 | The 32-bit shift is the shift of the handle if and only if it stays below the reserved null value. |
| `Import.RemapRawFails` | crates/voyager-core/src/builder.rs:1639-1645 | One short of the reserved value, a shift by one yields the null handle, and a shift by two the first node. |
| `Cache.CompiledQueryCache.Get` | crates/voyager-core/src/cache.rs:78-99 | A lookup behaves as on a plain recency list: it answers what the list holds and moves the key to its recent end; hits, misses and lookups stay balanced. |
| `Cache.CompiledQueryCache.Put` | crates/voyager-core/src/cache.rs:101-153 | A store behaves as on the recency list, dropping the least recently used key when full; after a new key the queue is at most four times the capacity. |
| `Cache.CompiledQueryCache.Evict` | crates/voyager-core/src/cache.rs:118-132 | Dropping stale heads first, the loop removes exactly the least recently used key. |
| `Cache.CompiledQueryCache.Compact` | crates/voyager-core/src/cache.rs:137-152 | Compaction keeps the list, leaves only current entries, and the queue ends as long as the map. |
| `Cache.CompiledQueryCache.Clear` | crates/voyager-core/src/cache.rs:171-180 | The cache is empty and the counters start over. |
| `Cache.CompiledQueryCache.Snapshot` | crates/voyager-core/src/cache.rs:182-192 | Hits plus misses are the lookups, and size plus evictions are the new keys, since the last clear. |
| `Cache.QueuedListed` | crates/voyager-core/src/cache.rs:78-153 | With rising generations and one current entry per key, the abstract list holds each cached key exactly once. |
| `Cache.RunsSorted` | crates/voyager-core/src/cache.rs:78-153 | Over every run of gets and puts the list is sorted by last use, never longer than the capacity, and each key holds the query last put there. |
| `CacheHistory.RunsAsHistory` | crates/voyager-core/src/cache.rs:78-153 | Over every run the recency list is the end, up to the capacity, of a list of all keys ever stored by last use. |
| `CacheHistory.CachedIff` | crates/voyager-core/src/cache.rs:78-153 | A key is cached if and only if it was stored and fewer than the capacity of other keys were used after it; then it holds what was last stored. |
| `Pool.RunKeeps` | crates/voyager-net/src/pool.rs:74-610 | Over every interleaving: free permits plus permits held by leases, handovers and resets equal the capacity, and the total counts exactly the idle, leased, travelling, probed and resetting connections, each once. |
| `Pool.DiscardOnce` | crates/voyager-net/src/pool.rs:279-432 | A step discards only connections that are live, so none is discarded twice and none comes back. |
| `Pool.RunDelivers` | crates/voyager-net/src/pool.rs:279-397 | If the factory yields clean connections and a reset ends the transaction, every connection handed to a caller is valid and outside a transaction at that step. |
| `Pool.DeliveredWhere` | crates/voyager-net/src/pool.rs:210-276 | A delivery is one of idle checkout, direct handover, background reset or creation, and the receiving task holds that connection afterwards. |
| `Pool.RunBounded` | crates/voyager-net/src/pool.rs:187-207 | If warm-up runs once and before the first acquire, idle, held and being-created connections never exceed the maximum. |
| `Pool.LateWarmUpOverfills` | crates/voyager-net/src/pool.rs:187-207 | For every configuration that warms up at all, a reachable state exceeds the maximum. |
| `Pool.BoundedIff` | crates/voyager-net/src/pool.rs:187-207 | For every configuration: idle, held and being-created connections stay within the maximum in every reachable state if and only if warm-up creates nothing. |
| `Pool.PoolInner.ReturnConnection` | crates/voyager-net/src/pool.rs:74-121 | The waiter loop skips waiters that are gone, and hands over or queues the connection as the atomic step says. |
| `Pool.PoolInner.HandlePermitReturn` | crates/voyager-net/src/pool.rs:124-141 | The permit goes to the first waiter still there, or back to the semaphore. |
| `Pool.PoolInner.EvictExpired` | crates/voyager-net/src/pool.rs:400-432 | An idle entry is gone if and only if it has been unused for longer than the idle timeout or alive for longer than the lifetime, where those are set; the others keep their order, and the counter follows. |
| `Pool.PoolInner.CloseIdleQueue` | crates/voyager-net/src/pool.rs:484-500 | Closing drains the queue and discounts every connection in it once. |
| `PoolHistory.EvictsExactly` | crates/voyager-net/src/pool.rs:400-432 | A sweep takes exactly the entries that are too old and leaves a subsequence of the queue. |
| `PoolHistory.DiesExactly` | crates/voyager-net/src/pool.rs:279-610 | A step discards a live connection exactly when it is idle and swept or the pool closes its queue, too old or unhealthy at checkout, or given back broken, invalid, in a transaction that cannot be rolled back, or to a closed pool. |
| `PoolHistory.CondemnedForGood` | crates/voyager-net/src/pool.rs:279-610 | A connection discarded for any of these reasons is never idle, held or delivered again in the run. |
| `PoolHistory.BrokenForGood` | crates/voyager-net/src/pool.rs:567-610 | In particular a lease dropped while marked broken. |
| `PoolHistory.EntriesDated` | crates/voyager-net/src/pool.rs:113-119 | Over every run the time in an idle entry is the time its connection last went into the queue. |
| `PoolHistory.FreshCheckout` | crates/voyager-net/src/pool.rs:296-333 | Over every run a connection delivered by idle checkout went into the queue no longer ago than the idle timeout and was made no longer ago than the lifetime, where those are set. |
| `PoolHistory.PopsLongestIdle` | crates/voyager-net/src/pool.rs:292-297 | A checkout takes the connection that has been idle longest, and asks the factory only when none is idle. |
| `PoolQueue.ServedInOrder` | crates/voyager-net/src/pool.rs:87-141 | A connection given back sound, or a permit, goes to whichever task registered first of those in line, and to the idle queue or the semaphore only if there is none. |
| `PoolQueue.NoneOvertaken` | crates/voyager-net/src/pool.rs:87-121 | Whoever is in line while a connection is on its way to the idle queue registered after the look at the queue. |
| `PoolQueue.LeftWaiting` | crates/voyager-net/src/pool.rs:226-243 | A task stays in line beside a free permit only if a permit was freed without a look at the queue since it registered. |
| `PoolQueue.NeverStrandedIff` | crates/voyager-net/src/pool.rs:87-141 | A run leaves no task in line beside a free permit if and only if no step frees one without a look at the queue while a task is in line. |
| `PoolQueue.WaitsBesideIdle` | crates/voyager-net/src/pool.rs:107-121 | In every configuration a reachable state has a task in line beside a free permit and an idle connection, all others at rest. |
| `PoolQueue.LeasesUpTo` | crates/voyager-net/src/pool.rs:159-174 | A number of leases is reachable if and only if it is at most one or at most the configured maximum. |
| `PoolQueue.WarmsUpTo` | crates/voyager-net/src/pool.rs:187-207 | An undisturbed warm-up leaves exactly the smaller of the minimum idle and the maximum size of idle connections. |
| `PoolQueue.ClosedRefuses` | crates/voyager-net/src/pool.rs:210-221 | After closing, no acquire that starts ever gets a place. |
| `PoolQueue.ClosedDelivers` | crates/voyager-net/src/pool.rs:484-501 | After closing, only a task that was already checking out is handed a connection. |
| `Transactions.RunTracks` | crates/voyager-core/src/transaction.rs:115-231 | Over every run, each live savepoint marks a prefix of the current arena, namely what it was when it was taken with the edits made in place since, and of the current log unless that was cleared; older savepoints mark shorter prefixes. |
| `Transactions.RollbackRestores` | crates/voyager-core/src/transaction.rs:299-327 | Rolling back to a name restores the arena as it was when the latest live savepoint of that name was taken, up to the nodes edited in place since, and exactly if and only if none is left edited; it restores the log if and only if the log of that time is a prefix of the current one, as it is unless the log was cleared; without such a savepoint, nothing changes. |
| `Transactions.RollbackRestoresAll` | crates/voyager-core/src/transaction.rs:373-383 | Rolling back an active transaction restores the log it began over, if and only if that is a prefix of the current one, as it is unless the log was cleared, and the arena if and only if no node of it is left edited. |
| `Transactions.EditSurvives` | crates/voyager-core/src/transaction.rs:299-327 | A savepoint, an edit of a node in place and a rollback: the edit is still there. |
| `Transactions.ClearForgets` | crates/voyager-core/src/transaction.rs:228-231 | A savepoint, clearing the log, a new mutation and a rollback: the new mutation is still there, and the old one is gone. |
| `Transactions.UneditedIff` | crates/voyager-core/src/transaction.rs:220-225 | The edits of a stretch of operations leave a prefix of the arena alone if and only if the last edit of each of its nodes wrote what was there. |
| `Transactions.IdsNeverReused` | crates/voyager-core/src/transaction.rs:115-176 | No temporary id is issued twice, whatever is rolled back between. |
| `TransactionLog.LogTold` | crates/voyager-core/src/transaction.rs:115-231 | Over every run the log holds exactly the pending mutations, each as its operation logged it: none after a commit or a clear, and after a rollback as many as were pending when its savepoint was taken. |
| `TransactionLog.ArenaTold` | crates/voyager-core/src/transaction.rs:299-383 | Over every run the arena holds exactly the nodes allocated and not rolled back, each as it came or as it was last edited. |
| `TransactionLog.EndDecided` | crates/voyager-core/src/transaction.rs:356-383 | A transaction is active until its first commit or rollback, which decides for good whether it is committed or rolled back. |
| `TransactionLog.CommitEmpties` | crates/voyager-core/src/transaction.rs:356-368 | A commit leaves no pending mutation and no savepoint, and keeps the arena. |
| `TransactionLog.EndedRefuses` | crates/voyager-core/src/transaction.rs:274-383 | What has ended takes no savepoint, rollback, release or commit. |
| `TransactionLog.IdsCounted` | crates/voyager-core/src/transaction.rs:115-176 | Temporary ids are counted through, whatever is rolled back. |
| `Transactions.UnitOfWork.RegisterNewNode` | crates/voyager-core/src/transaction.rs:115-128 | Logs the insertion under a fresh id. |
| `Transactions.UnitOfWork.RegisterNewEdge` | crates/voyager-core/src/transaction.rs:159-176 | Logs the insertion of an edge under a fresh id. |
| `Transactions.UnitOfWork.RollbackTo` | crates/voyager-core/src/transaction.rs:220-225 | Log and arena are cut to the mark, and left alone when shorter. |
| `Transactions.Transaction.TakeSavepoint` | crates/voyager-core/src/transaction.rs:274-291 | Adds a savepoint over the current log and arena, and fails exactly when inactive. |
| `Transactions.Transaction.RollbackToSavepoint` | crates/voyager-core/src/transaction.rs:299-327 | Restores the latest savepoint of the name, keeps it and drops later ones; fails exactly when inactive or unknown. |
| `Transactions.Transaction.ReleaseSavepoint` | crates/voyager-core/src/transaction.rs:332-351 | Forgets the latest savepoint of the name and nothing else; fails exactly when inactive or unknown. |
| `Transactions.Transaction.CommitAll` | crates/voyager-core/src/transaction.rs:356-368 | Ends the transaction with an empty log; fails exactly when inactive. |
| `Transactions.Transaction.RollbackAll` | crates/voyager-core/src/transaction.rs:373-383 | Ends the transaction at its initial mark; fails exactly when inactive. |
| `Circuit.TripsExactly` | crates/voyager-net/src/circuit.rs:426-476 | In every run, a closed circuit opens exactly on a manual trip or on the transient failure that brings the streak since the last success to the threshold. |
| `Circuit.ClosedCounts` | crates/voyager-net/src/circuit.rs:399-453 | While closed, the counter is the streak of transient failures and stays below the threshold. |
| `Circuit.OpenSinceBlow` | crates/voyager-net/src/circuit.rs:426-476 | While open, the stored instant is that of the latest trip or transient failure. |
| `Circuit.FallbackUntilCooled` | crates/voyager-net/src/circuit.rs:373-381 | An open circuit answers Fallback until the cooldown has passed since the latest trip or transient failure, and Probe from then on. |
| `Circuit.StaysOpenIff` | crates/voyager-net/src/circuit.rs:330-338 | Without a manual reset, an open circuit stays open through a stretch of events if and only if each time it is asked the cooldown since the latest trip or transient failure has not passed. |
| `Circuit.HalfOpenCounts` | crates/voyager-net/src/circuit.rs:399-419 | While half open, the successes are counted since the circuit entered that state, with no failure or trip between. |
| `Circuit.ClosedRegained` | crates/voyager-net/src/circuit.rs:399-419 | Without a manual reset, closed is regained only by the success that completes the required number since entering half open. |
| `Circuit.RoutesExactly` | crates/voyager-net/src/circuit.rs:373-381 | From the events alone: an asking is answered Native exactly while there has been no trip and no streak of transient failures as long as the threshold since the start, a reset or the success that regained closed; otherwise Probe exactly from the first asking after the cooldown on, and every asking in half open is a Probe. |
| `Circuit.CountersTold` | crates/voyager-net/src/circuit.rs:488-495 | The failure counter is the number of trips and transient failures since it was last cleared, and the success counter is zero except in half open. |
| `Circuit.CircuitRouter.Route` | crates/voyager-net/src/circuit.rs:373-381 | Answers Native if and only if the events so far are calm, and otherwise Probe if and only if the circuit has been asked since the cooldown after the last trip or transient failure was over. |
| `Circuit.CircuitRouter.RecordSuccess` | crates/voyager-net/src/circuit.rs:399-419 | Follows the event the run lemmas are about. |
| `Circuit.CircuitRouter.RecordFailure` | crates/voyager-net/src/circuit.rs:426-453 | Follows the event the run lemmas are about; a semantic error changes nothing. |
| `EditDistance.Levenshtein` | crates/voyager-core/src/schema.rs:1728-1753 | The table computes the least number of insertions, deletions and replacements that turn one string into the other up to ASCII case. |
| `EditDistance.DistLeast` | crates/voyager-core/src/schema.rs:1728-1753 | Some script of that length exists and none is shorter. |
| `EditDistance.Symmetric` | crates/voyager-core/src/schema.rs:1728-1753 | The distance is symmetric. |
| `EditDistance.ZeroIff` | crates/voyager-core/src/schema.rs:1728-1753 | The distance is zero exactly between strings equal up to case. |
| `EditDistance.Triangle` | crates/voyager-core/src/schema.rs:1728-1753 | The distance obeys the triangle inequality. |
| `EditDistance.FindClosestMatch` | crates/voyager-core/src/schema.rs:1756-1772 | Returns the earliest candidate of minimal distance within the bound, and none exactly when there is none. |
| `Tantivy.AdaptTantivyQuery` | crates/voyager-core/src/schema.rs:321-407 | The index loop with its quote and escape flags inserts `data.` in front of exactly the field names that are to be prefixed, read off the text. |
| `Tantivy.InsertionOnly` | crates/voyager-core/src/schema.rs:321-407 | The output is the input with `data.` in front of exactly the field names outside quotes and escapes, and no other change. |
| `Tantivy.AdaptedExactly` | crates/voyager-core/src/schema.rs:321-407 | For every query and list, the prefix goes in front of exactly the words that start with a letter or underscore behind nothing that belongs to a word, that no odd run of backslashes escapes and no open quote encloses, that one colon follows, and that are on the list up to case or, without a list, have no dot. |
| `Tantivy.Idempotent` | crates/voyager-core/src/schema.rs:321-407 | Adapting twice equals adapting once, for every query and list of properties. |

## Left out

- Float64 folding and promotion of integers to floats: floats are opaque literals that never fold, because IEEE arithmetic is not exact arithmetic.
- FoldArena.FoldBinaryOp: Float64 operands are left as they are, the source folds them.
- FoldArena.FoldUnaryOp: the negation of a Float64 literal is left as it is, the source folds it.
- Preserved.OptimizePreserves: one way only; on a given graph, a CASE that is not guarded, an alias bound twice or seen below a subquery, or a constant without a value need not change the outcome. `CaseHitExact`, `PruneSameIff`, `NestedAliasIff` and `PushCleanIff` give the exact conditions of the rewritings.
- Sighting.SubqueryBlind: a subquery handle that holds no statement, clause or path is answered by the world and taken to see every variable.
- PrunedStatement.PruneWithSame: one way only; exact in `PruneSameIff` for bare node patterns, because labels and predicates can make a loosened pattern match nothing new.
- PushdownClean.PushdownSteady: one way only; on a given graph no row need reach the equality that fails. Exact in `PushCleanIff` for two equalities over one node.
- Composition.OptimizedSame: rows are tuples in the order of the projection; the column names of items without an alias are not modelled.
- PushClauses.PushConjunct: the property is read off an identifier, as every builder makes it; one read off a node-pattern handle is resolved by `ExtractVariable`, but has no value of its own to preserve.
- CollectVars.CollectUsedVariables: when it succeeds, and what it collects, is exact; that it fails is traced only to some operand that is missing or foreign.
- Ast.QueryAstArena.Alloc: lengths are unbounded; the conversion of the length to 32 bits is modelled only for imports.
- FoldPass.FoldMutation: mutations and LOAD CSV have no row semantics here; only the folding of their slots and the variables they mention are modelled.
- Transactions.IdsNeverReused: temporary ids are unbounded, the source counts in 64 bits.
- Cache.RunsSorted: generations and counters are unbounded, the source counts in 64 bits; locking is left out because every method runs under one lock.
- Pool.RunKeeps: a step reads the closed flag together with the queue it guards; closing between the two is not a separate step.
- Pool: cancellation of an acquire during a probe, and the telemetry counters.
- Single probe while half open: the router answers Probe to every caller in that state.
- Clocks, randomness, connection factories and resets are parameters of the steps.
- Error-message classification, schema registry, name tables and the label collectors: single-branch lookups.
- The remaining builder API, topology, dialect and DDL emitters, wire protocols, URI parser, CLI, bridges, Python and benchmarks.
