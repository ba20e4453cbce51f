# neoserver: a verified model

neoserver publishes geospatial data from PostGIS, DuckDB and file sources. This project models the parts of
it where a small slip changes which rows a client sees, loses data, or serves something stale, and proves what
they promise for every input and every run. It is written in Dafny 4.11 and needs nothing but these files;
`dafny verify dfyconfig.toml` checks all of it.

## What is modelled

**Filters.** A CQL2 text filter becomes parameterised SQL. `Lexer.dfy` has the lexer as a reference function
(`Lexing.Lex`) and as the stateful object that refines it; `OpenQuotes.dfy` says which texts leave a quote open.
`Cql2Grammar.dfy` states the language on its own, as concrete trees (`Valid*`) and the tokens they span (`Yield*`);
`Cql2Parser.dfy` is the recursive descent and `Cql2Exact.dfy` proves that it recognises exactly that language.
`Emit.dfy` gives the SQL of a tree as a list of lexemes with their bytes. The two compilers are separate classes, as in
the source, in `PostgisCompiler.dfy` and `DuckdbCompiler.dfy`; each is proved to compute `Refinement.CompileFilter`.
`SqlReading.dfy` and `SqlLexing.dfy` are an independent SQL lexer and precedence parser, and `FilterMeaning.dfy` gives
both languages a three-valued meaning. From these follow that the emitted bytes read as the filter's own tree and have
its truth value on every row, and that the two dialects agree. `Placeholders.dfy`, `Rebase.dfy` and `QueryClauses.dfy`
follow the placeholders through numbering, rebasing and the assembly of a whole query; `ClauseReading.dfy` reads the
WHERE of any sequence of feature-id, bounding-box and filter clauses back, and `ClauseMeaning.dfy` says which rows it
selects. `Temporal.dfy` covers the filter that a time
dimension adds.

**Cache.** `CacheEpochs.dfy` is the fill protocol as a state machine: epochs, tokens, invalidations that hold the
lock, entries that the cache may still hand out long after they were replaced, coalesced loads, and calls. Every
interleaving of the steps is a run. `CacheOrder.dfy` lets direct fills take their token at any time and says exactly
which entries are then stale. `CacheManager.dfy` is the manager's own bookkeeping as a class. `CacheKeys.dfy` has
the keys and scopes.

**Durable protocols.** `AuditOutbox.dfy` interleaves Record calls, the drain, retention, lost replies and crashes;
`AuditManager.dfy` has the same operations as a class with the drain's loop; `AuditPaging.dfy` has keyset paging.
`ManagedImports.dfy` runs the deletion of managed import files against a file system and a store in which every call
can succeed, fail, take effect without a reply, or be the last before a crash. `RetainedBytes.dfy` has the importer's
storage budget.

**Others.** `Prepare.dfy` interleaves callers and constructor goroutines. `FailureLimiter.dfy` has the limiter for
failed sign-ins.

## Conventions

- A Go string is a sequence of chars, one per byte. Error messages and token positions are not modelled; an error is
  `None`, `Rejected`, `false` or a status.
- `strconv.ParseFloat` is the parameter `parseFloat`; numbers are reals, so its rounding plays no part.
- The database's comparison, arithmetic, pattern and spatial operators are the functions of `World`, about which
  nothing is assumed except, in `Temporal`, that timestamps compare as moments and nulls as unknown. That leaves every
  other comparison free (`Temporal.ClockFitsAnyDatabase`); there the time columns hold timestamps or nulls. In
  `ClauseMeaning` texts are equal when they are the same, nothing equals null, and geometries intersect when they share
  a point (`ClauseMeaning.LawFitsAnyDatabase`).
- I/O results (a statement that fails after it was performed, a cache that drops a write, a crash) are parameters of the
  operation that meets them, and the theorems hold for all of them.
- A geometry expression comes from an adapter, never from a request. `FilterSql.TrustedGeometry` and
  `FilterMeaning.GeometryDenotes` say what the adapter owes: clean SQL that reads as one argument and denotes the row's
  geometry. `FilterTheorems.AdapterGeometryDenotes` shows both, on every row, for each form in use: no expression, the
  column behind its alias, and the column decoded from its binary form.
- An audit id names one event. Inserts ignore a conflict on the id, so a different event under a used id would be
  dropped while Record reports success. Record gives an event without an id a new UUID, and the model's runs never use
  one id for two events.
- Times of audit events are in nanoseconds, those of the failure limiter in seconds.

## What turned out not to hold

- A filter and a temporal selection combine to their conjunction exactly when the filter is accepted on its own
  (`Temporal.CombinedParsesIff`, for every filter text). Otherwise the parts can come apart:
  `Temporal.UnbalancedFilterEscapes` has a filter that is refused alone, but accepted once combined, with one disjunct
  outside the temporal selection. A filter that leaves a quote open is refused both ways (`Temporal.OpenFilterRefused`).
  Requests reach this: the features handler validates only the combined text
  (internal/ogc/workspace_handlers.go:441-449) and passes the filter on as it came
  (internal/ogc/workspace_handlers.go:503-514) to the adapters, which combine it again.
- The test for a time zone takes the hyphens of the date for a negative offset, so a local date-time is compared as a
  zoned one (`FilterMeaning.LocalTimeTakenAsZoned`). `FilterMeaning.ZonedWhenPresentIff` says on which temporal
  literals the test finds a zone exactly when one is written.
- A deletion can stick. Each attempt overwrites the persisted phase, also the one that records the commit. If the row of
  a removed file could not be deleted and the next attempt stops right after its first write, the operation no
  longer knows that the file may be missing, and no later attempt completes (`ManagedImports.DeletionCanStick`,
  `ManagedImports.Coordinator.Attempts`). The same happens when an attempt cannot read the operation back and writes the
  phase it started from (`ManagedImports.Coordinator.Attempt`). In calm weather an attempt completes exactly when no row
  has lost its file or the phase it starts from is a committed one (`ManagedImports.Coordinator.Execute`).
- A failed deletion does not always bring the files back. Nothing is restored after a row that could not be read or a
  phase that could not be written; `ManagedImports.Coordinator.Execute` has the exact condition.
- An upload is stored whole exactly when its limit is below the largest int64 or it is empty; at that limit adding one
  wraps around and a successful upload stores nothing (`RetainedBytes.Importer.CreateUpload`). The configuration admits
  that value.
- An archive member named `..` passes the path test, and its destination is the parent of the extraction directory
  (`RetainedBytes.DestinationInsideIff`). Creating the file there fails, so the archive is refused
  (`RetainedBytes.Importer.WriteMember`).
- A cached remote file that grows between the size test and the copy can be adopted beyond the budget
  (`RetainedBytes.Importer.AdoptRemote` has the exact condition), by no more than it grew
  (`RetainedBytes.Importer.Serve`).
- Following audit cursors ends early when an event at a page end has an id that the cursor decoder refuses
  (`AuditPaging.LongIdStopsWalk`), and ends silently with rows left when its time is outside the years that JSON can
  write, since the encoder's error is ignored (`AuditPaging.LateYearEndsWalk`, `AuditPaging.EarlyEndLosesRow`).
  `AuditPaging.FollowCuts` gives the exact condition.
- A lost audit event is forgotten by a restart: Health is nil again although the event is in neither table
  (`AuditOutbox.RestartForgetsLoss`).
- A block of the failure limiter can move back when requests overlap and the one admitted earlier fails later:
  `FailureLimiter.BlockMovesBackIff` has the exact condition after any calls. At the longest delay one second is enough
  (`FailureLimiter.LateBySeconds`, `FailureLimiter.OneSecondMovesBlockBack`).
- A direct cache fill whose token is taken after its read can store a stale value as current
  (`CacheOrder.TokenAfterReadIsStale`), exactly when the scope was invalidated between the two (`CacheOrder.StaleIff`).
  The callers in the repository take the token before.

## Model

| member | source | states |
|---|---|---|
| `Lexing.Lexer.Next` | internal/filter/lexer.go:18-92 | a call returns the head of the remaining reference tokens and leaves their tail; it moves the cursor until EOF |
| `Lexing.Lexer.LexToken` | internal/filter/lexer.go:18-92 | the token at the cursor is the reference token of its first byte |
| `Lexing.Lexer.LexQuoted` | internal/filter/lexer.go:135-179 | a quoted token holds the undoubled text, or is invalid when the quote never closes |
| `Lexing.Lexer.LexNumeric` | internal/filter/lexer.go:94-110 | a digit starts a temporal token exactly when the whole run looks like a date, otherwise a number |
| `Lexing.Lexer.LexNumber` | internal/filter/lexer.go:253-280 | a number takes sign, digits and periods, and an exponent, and no more |
| `Lexing.Lexer.LexWord` | internal/filter/lexer.go:181-251 | a word is classified by its upper-cased spelling |
| `Lexing.Lexer.LexOperator` | internal/filter/lexer.go:18-92 | one- and two-character operators, the minus that is a sign, and an invalid byte with the UTF-8 text Go gives it |
| `LexerFacts.LexCanonical` | internal/filter/lexer.go:181-251 | every token the lexer can produce has the one spelling of its type, where there is just one |
| `LexerFacts.SpansPartition` | internal/filter/lexer.go:18-120 | tokens are never empty, stand in order without overlap, and leave out nothing but spaces |
| `LexerConcat.QuotingRoundTrips` | internal/filter/lexer.go:135-179 | any text in doubled quotes lexes to one token with that text, whatever quotes it holds |
| `OpenQuotes.LexClosed` | internal/filter/lexer.go:18-92 | a closing parenthesis shields the tokens before it from whatever follows, unless a quote is open |
| `OpenQuotes.LeavesOpenIff` | internal/filter/lexer.go:135-179 | the lexer ends inside a quote exactly when a three-state automaton over the bytes does, which knows nothing of tokens |
| `OpenQuotes.OpenStaysOpen` | internal/filter/lexer.go:135-179 | a text that closes its quotes never closes the one left open before it |
| `Cql2Exact.GrammarExact` | internal/filter/compiler.go:67-153 | the parser accepts a token sequence as a tree if and only if the tree is valid and spans the sequence, so the grammar is unambiguous and parsing ends on every input |
| `Cql2Exact.ScalarSound` | internal/filter/compiler.go:417-507 | what the operator loop reads is a scalar whose operators nest by precedence |
| `Cql2Exact.ScalarComplete` | internal/filter/compiler.go:417-507 | the tokens of a valid scalar, followed by anything, continue as if that scalar had just been read |
| `Cql2Exact.PredSound` | internal/filter/compiler.go:155-414 | an accepted predicate is valid and spans the tokens consumed |
| `Cql2Exact.PredComplete` | internal/filter/compiler.go:155-414 | the tokens of every valid predicate parse back to it |
| `PostgisCompiler.Compile` | internal/filter/compiler.go:27-79 | SQL, arguments, next index and rejection are those of the specification, for every text and options |
| `PostgisCompiler.Parser.constructor` | internal/filter/compiler.go:47-65 | defaults are filled in and two tokens are read ahead |
| `PostgisCompiler.Parser.ParseOrExpr` | internal/filter/compiler.go:96-110 | the loop builds the left-nested disjunction of the reference parser, with its SQL and arguments |
| `PostgisCompiler.Parser.ParseAndExpr` | internal/filter/compiler.go:112-126 | the loop builds the left-nested conjunction of the reference parser, with its SQL and arguments |
| `PostgisCompiler.Parser.ParseNotExpr` | internal/filter/compiler.go:128-138 | a negation is read and written as the reference parser's |
| `PostgisCompiler.Parser.ParsePrimaryExpr` | internal/filter/compiler.go:140-153 | parentheses and predicates as in the reference parser |
| `PostgisCompiler.Parser.ParsePredicate` | internal/filter/compiler.go:155-217 | spatial, distance and comparison predicates succeed in the same cases with the same SQL and arguments |
| `PostgisCompiler.Parser.ParseComparisonPred` | internal/filter/compiler.go:219-414 | LIKE, IS NULL, IN, BETWEEN and comparisons succeed in the same cases with the same SQL and arguments |
| `PostgisCompiler.Parser.ParseInItems` | internal/filter/compiler.go:271-303 | the list loop binds each literal once, in order |
| `PostgisCompiler.Parser.ParseBetween` | internal/filter/compiler.go:314-345 | both bounds are bound in order after the left side |
| `PostgisCompiler.Parser.ParseScalarExpr` | internal/filter/compiler.go:417-436 | the precedence loop builds the reference tree and its parenthesised SQL |
| `PostgisCompiler.Parser.ParseScalarAtom` | internal/filter/compiler.go:449-507 | each literal is bound, each property quoted, in the cases of the reference parser |
| `PostgisCompiler.Parser.ParseGeomExpr` | internal/filter/compiler.go:509-532 | a literal is bound with its SRID and transformed exactly when the source differs |
| `PostgisCompiler.Parser.ParseWktBody` | internal/filter/compiler.go:534-596 | the scan stops at the matching parenthesis and keeps adjacent numbers apart |
| `PostgisCompiler.Parser.ParseEnvelopeLiteral` | internal/filter/compiler.go:534-638 | an envelope becomes one polygon, or two across the antimeridian |
| `DuckdbCompiler.CompileForDuckDB` | internal/filter/duckdb.go:31-83 | SQL, arguments, next index and rejection are those of the specification, for every text and options |
| `DuckdbCompiler.Parser.constructor` | internal/filter/duckdb.go:51-69 | defaults are filled in and two tokens are read ahead |
| `DuckdbCompiler.Parser.ParseOrExpr` | internal/filter/duckdb.go:99-113 | the loop builds the left-nested disjunction of the reference parser, with its SQL and arguments |
| `DuckdbCompiler.Parser.ParseAndExpr` | internal/filter/duckdb.go:115-129 | the loop builds the left-nested conjunction of the reference parser, with its SQL and arguments |
| `DuckdbCompiler.Parser.ParseNotExpr` | internal/filter/duckdb.go:131-141 | a negation is read and written as the reference parser's |
| `DuckdbCompiler.Parser.ParsePrimaryExpr` | internal/filter/duckdb.go:143-156 | parentheses and predicates as in the reference parser |
| `DuckdbCompiler.Parser.ParsePredicate` | internal/filter/duckdb.go:158-220 | spatial, distance and comparison predicates succeed in the same cases with the same SQL and arguments |
| `DuckdbCompiler.Parser.ParseComparisonPred` | internal/filter/duckdb.go:222-404 | LIKE, IS NULL, IN, BETWEEN and comparisons succeed in the same cases with the same SQL and arguments |
| `DuckdbCompiler.Parser.ParseScalarExpr` | internal/filter/duckdb.go:406-425 | the precedence loop builds the reference tree and its parenthesised SQL |
| `DuckdbCompiler.Parser.ParseScalarAtom` | internal/filter/duckdb.go:427-482 | each literal is bound, each property quoted, in the cases of the reference parser |
| `DuckdbCompiler.Parser.ParseGeomExpr` | internal/filter/duckdb.go:484-507 | the geometry property becomes the adapter's expression; a literal is bound and transformed exactly when the source differs |
| `DuckdbCompiler.Parser.ParseWktBody` | internal/filter/duckdb.go:509-566 | the scan stops at the matching parenthesis and keeps adjacent numbers apart |
| `SqlLexing.TextReads` | internal/filter/compiler.go:155-217 | text made of cleanly separated lexemes is read by SQL's own lexer as exactly those lexemes |
| `SqlFidelity.ExprReads` | internal/filter/compiler.go:96-153 | wherever a condition may stand, the tokens written for a filter read under SQL precedence as the filter's tree |
| `FilterSql.EmittedSqlReadsAsTree` | internal/filter/compiler.go:96-153 | for every valid filter the emitted bytes are read, under SQL's lexical and precedence rules, as the filter's own expression tree |
| `FilterSql.ColumnIsTrusted` | internal/datasource/duckdb/duckdb.go:731 | a quoted column behind a table alias, for every column name, is a trusted geometry expression |
| `FilterSql.WkbColumnIsTrusted` | internal/datasource/geoparquet/geoparquet.go:880-886 | the same for a column decoded from its binary form |
| `FilterMeaning.ZonedWhenPresentIff` | internal/filter/compiler.go:491-506 | the condition for the next input: the test finds a zone exactly when a Z or an offset is written, if and only if a Z or plus is there, or a time of day goes with a negative offset |
| `FilterMeaning.LocalTimeTakenAsZoned` | internal/filter/compiler.go:491-506 | an input: a local date-time is taken as zoned by both tests |
| `FilterMeaning.ScalarPreserved` | internal/filter/compiler.go:417-507 | a scalar has the same value as the SQL written for it with its arguments bound |
| `FilterMeaning.GeomPreserved` | internal/filter/compiler.go:509-532 | a geometry denotes the same shape in the same coordinate system in both dialects |
| `FilterMeaning.PredPreserved` | internal/filter/compiler.go:155-414 | a predicate and its SQL have the same three-valued truth value on every row |
| `FilterMeaning.MeaningPreserved` | internal/filter/compiler.go:96-153 | a filter and its SQL tree have the same three-valued truth value on every row |
| `FilterTheorems.AcceptedIffInGrammar` | internal/filter/compiler.go:27-79 | a text is accepted if and only if its tokens are those of a valid tree, and then it compiles to that tree's SQL |
| `FilterTheorems.CompilePreservesMeaning` | internal/filter/compiler.go:27-153 | every accepted text is a grammatical expression whose SQL bytes the database reads as one expression with the same truth value on every row |
| `FilterTheorems.CompilersAgree` | internal/filter/duckdb.go:31-38 | with equal options both compilers accept the same texts, stop at the same index, and bind the same arguments up to the SRID prefix |
| `FilterTheorems.CompilersMeanTheSame` | internal/filter/duckdb.go:31-38 | each dialect's SQL, read by its own database with its own arguments, has one truth value on every row |
| `FilterTheorems.AdapterGeometryDenotes` | internal/datasource/geoparquet/geoparquet.go:880-886 | every geometry expression the adapters pass is trusted, binds nothing, and denotes the geometry of every row, so the meaning theorems apply to all of them |
| `Placeholders.PlaceholdersInOrder` | internal/filter/compiler.go:598-613 | placeholders read left to right are exactly start to next-1, once each, and every quoted identifier is an allowed property or the geometry property |
| `Rebase.RebaseParameters` | internal/datasource/query_predicate.go:62-102 | the loop computes the piecewise rebasing: quoted regions unchanged, each placeholder moved, an out-of-range one refused |
| `Rebase.QuotedRebases` | internal/datasource/query_predicate.go:68-84 | a quoted region stays byte-identical, whatever placeholders it seems to hold |
| `Rebase.RebaseComposes` | internal/datasource/query_predicate.go:62-102 | for arbitrary texts, rebasing from a to b and then from b to c is rebasing from a to c |
| `Rebase.RebaseMoves` | internal/datasource/query_predicate.go:62-102 | on clean text only the placeholders change |
| `QueryClauses.RebaseIsRecompile` | internal/datasource/query_predicate.go:62-102 | compiling at one index and rebasing to another gives the bytes of compiling at the other |
| `QueryClauses.RebasedFilterIsRecompiled` | internal/datasource/query_predicate.go:31-54 | the same for filter texts, with the same arguments and the next index moved along |
| `QueryClauses.RebaseKeepsValues` | internal/datasource/query_predicate.go:31-54 | any stored predicate that can be rebased says the same with its values filled in, before and after |
| `QueryClauses.FilledWider` | internal/datasource/query_predicate.go:48-52 | a clause reads the same when its values are a slice of a longer argument list |
| `QueryClauses.Query.Append` | internal/datasource/query_predicate.go:48-52 | appending a clause keeps the next index in step, gives the clause its own values, and changes no earlier clause |
| `QueryClauses.Query.AppendQueryPredicate` | internal/datasource/query_predicate.go:31-54 | a deferred or stored predicate is appended with its own values, or refused without effect; compiled filters meet what it asks (`QueryClauses.CompiledMeets`) |
| `QueryClauses.CompiledMeets` | internal/datasource/query_predicate.go:31-54 | whatever a compiler returns for any text at any index is a deferred predicate that can be appended there |
| `QueryClauses.Query.AppendFilter` | internal/datasource/duckdb/duckdb.go:734-760 | compiling any text at the next index and appending it gives the clause its own values; a refused or blank text changes nothing |
| `QueryClauses.Query.AppendFeatureIds` | internal/datasource/feature_ids.go:11-18 | the appended clause holds exactly the given ids as values |
| `QueryClauses.Query.AppendBBox` | internal/datasource/sqlbuild.go:67-83 | the appended clause holds the corners of every part of the box |
| `QueryClauses.Query.LimitOffset` | internal/datasource/sqlbuild.go:57-61 | limit and offset resolve to their own values and disturb no clause |
| `QueryClauses.FeatureIDPredicate` | internal/datasource/feature_ids.go:11-18 | the joined markers are one placeholder for each id, in order, with the ids only as arguments |
| `QueryClauses.DuckDBBBoxPredicate` | internal/datasource/sqlbuild.go:67-83 | four placeholders for each part, in order, transformed exactly when the coordinate systems differ |
| `QueryClauses.PartsCoverWrappedBox` | internal/datasource/source.go:683-691 | the parts of a box contain a point exactly when the box, wrapped at the antimeridian, does |
| `QueryClauses.WhereReadsAsConjunction` | internal/datasource/sqlbuild.go:15-20 | clauses joined by AND read as the conjunction of what each reads as alone |
| `QueryClauses.FilterReadsAs` | internal/datasource/sqlbuild.go:15-20 | every compiled filter is such a clause |
| `ClauseReading.ColumnIsColumnSql` | internal/datasource/duckdb/duckdb.go:717-728 | a quoted column behind its alias, for every column name, may head the clauses below |
| `ClauseReading.InClauseReadsAs` | internal/datasource/feature_ids.go:11-18 | the feature-id clause reads as a membership test of the column against consecutive placeholders |
| `ClauseReading.BoxReadsAs` | internal/datasource/sqlbuild.go:67-83 | the bounding-box clause reads as a disjunction of intersections, one for each part, transformed exactly when the coordinate systems differ |
| `ClauseReading.ClauseReadsAs` | internal/datasource/sqlbuild.go:15-20 | each of the three kinds of clause, at any index, reads as its own tree wherever it stands in a conjunction |
| `ClauseReading.BuildWhere` | internal/datasource/duckdb/duckdb.go:717-765 | any sequence of such clauses yields a WHERE that reads as the conjunction of their trees, each with its own values at its own placeholders |
| `ClauseMeaning.PassesIffAllPass` | internal/datasource/sqlbuild.go:15-20 | a row passes a conjunction exactly when it passes every conjunct, under three-valued logic |
| `ClauseMeaning.IdsSelect` | internal/datasource/feature_ids.go:8-18 | the feature-id clause is true of a row exactly when its id, as text, is one of those given; a null id never is |
| `ClauseMeaning.BoxSelects` | internal/datasource/sqlbuild.go:63-83 | the box clause is true of a row exactly when its geometry has a point in the box, wrapped at the antimeridian and moved to the source coordinate system |
| `ClauseMeaning.WhereSelects` | internal/datasource/duckdb/duckdb.go:717-765 | the WHERE text of any clauses in any order is true of a row exactly when its id is in every list, its geometry meets every box and every filter holds |
| `ClauseMeaning.AdapterClauseMeets` | internal/datasource/vectorfile/vectorfile.go:1047-1053 | every clause the adapters make of a request meets what that asks, given some ids, a box whose parts have their corners in order and a filter that is accepted |
| `ClauseMeaning.LawFitsAnyDatabase` | internal/datasource/sqlbuild.go:63-83 | the assumptions on texts and points can be met beside any other comparisons and spatial tests |
| `Temporal.CQL2Prints` | internal/datasource/source.go:613-654 | the text for a time dimension is the printed form of one fixed expression, for every combination of endpoints |
| `Temporal.CombinedParsesIff` | internal/datasource/source.go:659-670 | for every filter text, filter and selection compile to their conjunction if and only if the filter is accepted alone |
| `Temporal.OpenFilterRefused` | internal/datasource/source.go:659-670 | a filter that leaves a quote open is refused alone and combined |
| `Temporal.AcceptedIsClosed` | internal/filter/lexer.go:135-179 | an accepted filter has no open quote |
| `Temporal.UnbalancedFilterEscapes` | internal/datasource/source.go:659-670 | a filter that is refused alone can break out of the parentheses put around it |
| `Temporal.ClockFitsAnyDatabase` | internal/datasource/source.go:613-654 | the one assumption on timestamps can be met beside any other comparisons |
| `Temporal.TemporalHolds` | internal/datasource/source.go:613-654 | the expression is true exactly when the start is null, or the feature's interval meets the selected one with missing endpoints open |
| `Temporal.TemporalSelection` | internal/datasource/source.go:613-670 | the combined filter compiles and its SQL is true of exactly the rows that pass the filter and lie in the selected time |
| `CacheKeys.DecodeEncode` | internal/cache/keys.go:14-23 | every byte string survives unpadded base64url (section 5 of RFC 4648) |
| `CacheKeys.ScopeIsWorkspace` | internal/cache/cache.go:644-663 | the scope of a scoped key is its workspace, for every workspace string |
| `CacheKeys.PreimageInjective` | internal/cache/keys.go:14-23 | no two field lists, even of different lengths, have the same hashed bytes |
| `CacheKeys.ScopedKeyIdentity` | internal/cache/keys.go:14-23 | keys are equal exactly when kind, workspace and fields are, unless the digest collides |
| `CacheEpochs.CoalescingKeyInjective` | internal/cache/fill.go:44-49 | loads share a coalescing key only when kind, key and epoch are the same |
| `CacheEpochs.NextKeeps` | internal/cache/cache.go:479-590 | every step of every interleaving keeps the protocol's invariant |
| `CacheEpochs.OneLiveEpoch` | internal/cache/fill.go:23-61 | in every reachable state a kind and scope has at most one epoch that is not invalidated |
| `CacheEpochs.HitsAreFresh` | internal/cache/cache.go:710-852 | a hit returns only a value whose token was issued, and whose read started, after every invalidation completed before the check |
| `CacheEpochs.LoadsAreFresh` | internal/cache/cache.go:509-590 | a load that starts after an invalidation never returns a value read before it, by hit, own load or shared flight |
| `CacheManager.Manager.BeginFill` | internal/cache/fill.go:23-42 | a token holds the tag's one live epoch; a new one has an unused id |
| `CacheManager.Manager.Set` | internal/cache/cache.go:479-506 | an entry is stored only under the live epoch of its own tag |
| `CacheManager.Manager.Get` | internal/cache/cache.go:345-358 | a hit happens exactly when the stored entry's epoch is the live one |
| `CacheManager.Manager.InvalidateEpoch` | internal/cache/fill.go:56-61 | exactly the epoch of this tag is invalidated and forgotten |
| `CacheManager.Manager.InvalidateKinds` | internal/cache/cache.go:791-826 | the loop invalidates exactly the epochs of the given kinds |
| `CacheManager.Manager.Clear` | internal/cache/cache.go:791-852 | no epoch and no entry of the given kinds survives, and no other is touched |
| `CacheOrder.AnyNextHolds` | internal/cache/cache.go:479-590 | every step, with tokens taken at any time, keeps the epochs in order and each entry under a token of its own scope |
| `CacheOrder.StaleIff` | internal/cache/cache.go:488-506 | in every run with tokens taken at any time, an entry that is current was read before a completed invalidation if and only if one completed between its read and its token |
| `CacheOrder.TokenAfterReadIsStale` | internal/cache/cache.go:488-493 | an input: a run in which a token taken after the read lets a stale value in |
| `AuditOutbox.NextKeeps` | internal/audit/audit.go:250-398 | every step, crashes included, keeps every safe event safe |
| `AuditOutbox.AcknowledgedSurvives` | internal/audit/audit.go:250-398 | once Record returned nil the event is in the table or the outbox at every later moment, unless retention removed it, and no table has two rows for an id |
| `AuditOutbox.LostHandoffLatches` | internal/audit/audit.go:196-213 | after a Record that returned an error, Health never reports nil again in that process |
| `AuditOutbox.RestartForgetsLoss` | internal/audit/audit.go:150-162 | a run in which Record refuses an event, Health reports it, and after a restart Health is nil with the event in neither table |
| `AuditManager.Manager.Record` | internal/audit/audit.go:250-277 | success means the event is stored, failure means the process is marked, and nothing stored is lost |
| `AuditManager.Manager.Enqueue` | internal/audit/audit.go:288-319 | a queued event is in the outbox and counted; a failed hand-off sets both flags |
| `AuditManager.Manager.Deliver` | internal/audit/audit.go:362-385 | a row leaves the outbox only after its write was confirmed |
| `AuditManager.Manager.DeliverAll` | internal/audit/audit.go:362-385 | the loop moves a prefix of the outbox to the table |
| `AuditManager.Manager.DrainBatch` | internal/audit/audit.go:349-398 | a batch loses nothing, moves the oldest rows, and clears the backlog flag only on an empty outbox |
| `AuditPaging.SelectedIs` | internal/audit/audit.go:499-556 | a listing holds exactly the matching rows below the cursor, strictly descending |
| `AuditPaging.PageIs` | internal/audit/audit.go:581-601 | a page is the first rows; it names a cursor exactly when rows are left and the last time can be encoded, and the rows left are those below it |
| `AuditPaging.WalkDescends` | internal/audit/audit.go:581-601 | a walk over changing tables is strictly descending and lists only matching rows |
| `AuditPaging.WalkListsAll` | internal/audit/audit.go:581-601 | a complete walk that does not end on a time that cannot be encoded lists every matching event present throughout, whatever is inserted or removed between pages |
| `AuditPaging.EarlyEndLosesRow` | internal/audit/audit.go:569-601 | a complete walk that ends on such a time always misses a matching event |
| `AuditPaging.WalkListsOnce` | internal/audit/audit.go:581-601 | no event is listed twice |
| `AuditPaging.FollowCuts` | internal/audit/audit.go:569-601 | on a fixed table the walk ends with the whole selection in pages exactly when every cursor it turns on can be encoded and is one the decoder takes back |
| `AuditPaging.CutFlattens` | internal/audit/audit.go:581-601 | the pages together are the selection, all but the last full |
| `AuditPaging.LongIdStopsWalk` | internal/audit/audit.go:569-579 | an id of 257 bytes at a page end stops the walk |
| `AuditPaging.LateYearEndsWalk` | internal/audit/audit.go:569-601 | an event in the year 10000 at a page end ends the walk as if it were complete |
| `ManagedImports.RenameKeeps` | internal/cataloglifecycle/coordinator.go:349-390 | staging or restoring one file moves it and no other |
| `ManagedImports.RemoveKeeps` | internal/cataloglifecycle/coordinator.go:392-403 | removing a staged file after the commit keeps the invariant |
| `ManagedImports.Coordinator.Stage` | internal/cataloglifecycle/coordinator.go:349-381 | on success no file is at its path, and a missing one was let through only after a commit; it fails otherwise, with every file still in one place; from a fresh start, exactly when the files are home again |
| `ManagedImports.Coordinator.Restore` | internal/cataloglifecycle/coordinator.go:383-390 | files move only home, only those listed, and no file is lost; when the renames work all listed files are home |
| `ManagedImports.Coordinator.Remove` | internal/cataloglifecycle/coordinator.go:392-403 | a row is deleted only after its file, and success leaves neither |
| `ManagedImports.Coordinator.Execute` | internal/cataloglifecycle/coordinator.go:283-347 | in any weather each file is in exactly one place until the commit, unchanged, removed only after it, and its row is there as long as the file; completion means all are gone; the exact conditions for completing, and for a failed attempt to leave every file home |
| `ManagedImports.Coordinator.Attempt` | internal/cataloglifecycle/coordinator.go:239-281 | an attempt with its error handling keeps the same, and writes back the phase it started from when the operation cannot be read |
| `ManagedImports.Coordinator.Attempts` | internal/cataloglifecycle/coordinator.go:192-281 | the same over any number of attempts, and a stuck operation stays stuck |
| `ManagedImports.DeletionCanStick` | internal/store/store_deletion.go:412-428 | overwriting the phase can leave an operation that no attempt completes |
| `Prepare.MoveKeeps` | internal/datasource/prepare.go:12-62 | every step keeps sources and slots accounted for |
| `Prepare.ReturnedOrClosed` | internal/datasource/prepare.go:12-62 | in every interleaving at most 16 constructors run, and a source is returned or closed exactly once, never both |
| `Prepare.WorkerCanMove` | internal/datasource/prepare.go:28-55 | no goroutine is left behind: its next step is always possible, and its last frees the slot |
| `RetainedBytes.Importer.RemainingSourceBytes` | internal/importer/recovery.go:115-141 | the walk's sum gives the budget left, or an error exactly when it is exceeded |
| `RetainedBytes.Importer.CreateUpload` | internal/importer/manager.go:195-255 | exactly when an upload succeeds, exactly when it is stored whole, and the budget kept |
| `RetainedBytes.DestinationInsideIff` | internal/importer/manager.go:971-981 | an admitted member name lies below the extraction directory unless it cleans to `..`, and then names the parent |
| `RetainedBytes.Importer.WriteMember` | internal/importer/manager.go:971-1020 | exactly when a member is written, whole, and at most one byte beyond its room |
| `RetainedBytes.Importer.ExtractArchive` | internal/importer/manager.go:940-1036 | expanded bytes never pass the smaller of both limits; success leaves every member whole, below the extraction directory, and within the budget |
| `RetainedBytes.Importer.AdoptRemote` | internal/importer/manager.go:1089-1121 | exactly when a remote file is adopted, whole as it is then, and exactly when the budget holds after that |
| `RetainedBytes.Importer.Cleanup` | internal/importer/manager.go:1140-1158 | only owned directories are removed, and the total never grows |
| `RetainedBytes.Importer.Serve` | internal/importer/manager.go:195-1158 | any sequence of calls keeps the total within the budget plus what a cached file grew while it was adopted, as long as cleanups work, and within one byte of the budget or that growth always |
| `FailureLimiter.Limiter.constructor` | internal/identity/ratelimit.go:57-59 | a limiter starts empty |
| `FailureLimiter.Limiter.Prune` | internal/identity/ratelimit.go:106-115 | the loop removes exactly the stale entries of a full table |
| `FailureLimiter.Limiter.Wait` | internal/identity/ratelimit.go:62-73 | the wait is zero exactly when no key is blocked |
| `FailureLimiter.Limiter.Fail` | internal/identity/ratelimit.go:76-96 | every key counts one failure and the longest block is returned |
| `FailureLimiter.Limiter.Succeed` | internal/identity/ratelimit.go:98-104 | exactly the given keys are forgotten |
| `FailureLimiter.Serve` | internal/identity/ratelimit.go:57-115 | the object driven by any sequence of calls holds what the runs of the next three rows hold |
| `FailureLimiter.RunOk` | internal/identity/ratelimit.go:62-115 | over any run the recorded failures keep their distances, and a count starts again only after an hour |
| `FailureLimiter.HourlyBound` | internal/identity/ratelimit.go:62-115 | no hour holds more than threshold + 7 failures of a key, pruning included |
| `FailureLimiter.BlockEnd` | internal/identity/ratelimit.go:76-96 | a block ends within 15 minutes of the last failure and never moves back until a reset |
| `FailureLimiter.Answer` | internal/identity/ratelimit.go:62-104 | the object under any sequence of Wait, Fail and Succeed calls, at any times, holds what the next rows are about |
| `FailureLimiter.CalledKept` | internal/identity/ratelimit.go:76-96 | after any calls at any times the end of a block is the time of the last recorded failure plus the delay of its count |
| `FailureLimiter.BlockMovesBackIff` | internal/identity/ratelimit.go:76-96 | after any calls at any times, prunes included, a call moves the end of a block back if and only if it is a failure of the key that is late by more than the delay grows |
| `FailureLimiter.BlockGoesIff` | internal/identity/ratelimit.go:98-115 | a call removes a block if and only if it is a success of the key, or a full table forgets it an hour after the last failure and no new block starts |
| `FailureLimiter.LateBySeconds` | internal/identity/ratelimit.go:84-88 | once the delay is at its longest, a failure moves the end back by exactly as much as it is late |
| `FailureLimiter.OneSecondMovesBlockBack` | internal/identity/basicauth.go:41-50 | an input: a run of admitted requests in which two that overlap, one second apart, move the end back |

## Left out

- HTTP handlers, OpenAPI, configuration loading, metrics and logging: plumbing without an invariant of its own.
- Ristretto, singleflight, DuckDB, PostGIS and the file system: foreign code, modelled by what they may do to a caller.
- SHA-256: an opaque digest; `CacheKeys.ScopedKeyIdentity` says what a collision would cost.
- Float parsing and real geometry: numbers are opaque literals and shapes are uninterpreted.
- The WFS filter compiler (`internal/wfs`): a deferred predicate enters `Query.AppendQueryPredicate` by the contract its
  interface states.
- The other clause builders (ORDER BY, the PostGIS bounding box): they would add members of the same kind.
- The invalidation index of the cache (`track`, `untrack`): it only speeds up removal; freshness rests on epochs.
- The count cache's conversion of numbers to text and back.
- Audit `pending` as an exact count: it is a hint, and durability does not rest on it.
- The JSON and base64 text of an audit cursor: a cursor is its (time, id); `fits` stands for the length limit of its
  text.
- Import job states and the eventual completion of a deletion in bad weather.
- CacheManager.Manager.Get: one call under the lock; that a real Get reads the entry and its flag at different moments
  is in the runs of `CacheEpochs`.
- AuditManager.Manager.DrainBatch: one call at a time; its interleaving with Record calls is in `AuditOutbox`.
- Negative SRIDs: an SRID is a natural number here and an int in Go; no coordinate system has a negative one.
- ClauseMeaning.WhereSelects: not for a wrapped box with a longitude beyond 180 degrees; a part of it has its corners out
  of order, and what the database then makes of the envelope is its own.
- FailureLimiter.HourlyBound: serialised requests whose Wait and Fail use the same time, as the sign-in check makes
  them; requests that overlap between the two can each add a failure.
- FailureLimiter.BlockEnd: likewise; `FailureLimiter.BlockMovesBackIff` is the exact statement for overlapping ones.
