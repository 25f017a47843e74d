# Grammar tables and sqlite cursor, modelled in Dafny

This project models two parts of a Python 2 interpreter tree.

**The compiled grammar tables of the parser (`Python/graminit.c`).** These
are the LL(1) grammar as static data:

- 84 DFAs, one per nonterminal, numbered 256..339. Each DFA has an array of
  states, each state has an array of `(label, next state)` arcs, and each DFA
  has a first-set byte string.
- A table of 167 labels, each a token category or nonterminal number with an
  optional keyword literal.
- The `_PyParser_Grammar` record, whose start symbol is 256.

Module `Grammar` (grammar.dfy) has:

- the data types;
- the well-formedness rules;
- the accessors the encoding implies:
  - DFA lookup by nonterminal number;
  - accepting states;
  - first-set bits (bit `l % 8` of byte `l / 8`);
  - label resolution of a token.

Module `GramInit` (graminit.dfy) holds every DFA and label of the C file as a
constant. Each DFA constant has a subset type that checks the DFA's own
well-formedness where it is declared:

- its state count matches the states array;
- every arc count matches its arc array;
- every arc stays inside the DFA;
- every EMPTY arc is a self-loop.

Modules `GramInitLabels`, `GramInitKeywords` and `GramInitFacts` prove facts
about the table as a whole and about particular rules.

**The cursor of the sqlite module (`Modules/_sqlite/cursor.c`).** The model
covers these parts of it:

- **Statement classifier** (`StatementKinds`, statement_kind.dfy). It works
  on a real 20-character buffer.
- **Column-name cut** (`CText`, ctext.dfy). It is shared by
  `_build_column_name` and the declared-type lookup.
- **Row cast map** (`RowCastMap`, row_cast_map.dfy). It covers the bracket
  scan of column names and the declared-type fallback.
- **Value typing in `_fetch_one_row`** (`ColumnValues`, column_values.dfy):
  the choice between a short and a long int, and the ASCII fast path for
  text.
- **The cursor itself** (`Cursors`, cursor.dfy). It is a class whose fields
  are updated in place:
  - `execute`/`executemany` with the transaction switch and the `rowcount`,
    `lastrowid` and `description` bookkeeping;
  - the one-row lookahead iteration behind `next`, `fetchone`, `fetchmany`
    and `fetchall`.

The sqlite library is abstracted. Running the statement with one parameter
set is a `Run`, which holds:

- the sequence of results that successive `sqlite3_step` calls report: a
  row, DONE, or a failure;
- the result columns, with their names and declared types;
- the `sqlite3_changes` and `sqlite3_last_insert_rowid` values afterwards.

Every state-changing cursor method is proved against a specification
function:

- `Execution` for `_query_execute`;
- `Remaining`/`EndsInError` for the rows iteration will still hand out.

Lemmas state what those functions mean.

Three behaviours of the code are modelled as written:

- **The `detect_types` tests.** They use `|` where `&` is evidently meant
  (cursor.c:162 and :185). Both lookups therefore run whenever type
  detection is on at all. `RowCastMap.FlagTestsAlwaysPass` states this, and
  `RowCastMap.DecltypeExample` shows the declared type being consulted with
  only `PARSE_COLNAMES` set.
- **`type_start` in `build_row_cast_map`.** It is initialised once, before
  the column loop (cursor.c:143), and never reset. A `]` in a later column
  can therefore pair with a `[` of an earlier one, and the key is then cut
  between two unrelated buffers. The model follows the scan exactly up to
  that point and reports the map as `Undetermined` from there on
  (`RowCastMap.StaleBracketExample`).
- **The duplicated NOTEQUAL label.** The label table lists NOTEQUAL (token
  29) twice, as entries 121 and 122 (graminit.c:2078-2079). Entry 120, one
  line earlier, is token 30. State 0 of `comp_op` has an arc on each of the
  two entries, and both go to state 1 (`GramInitFacts.NotEqualListedTwice`).

## Model

| member | source | states |
|---|---|---|
| Grammar.FirstSetBytes | Python/graminit.c:1786-1955 | a first set has just enough bytes for one bit per label |
| Grammar.DfaWellFormed | Python/graminit.c:3-1955 | a DFA has its declared number of states, at least one, starts in state 0, has one first-set bit per label, and every arc count matches its arc array with arcs that stay inside the DFA |
| Grammar.WellFormed | Python/graminit.c:1786-2130 | the grammar record's counts match its arrays, label 0 is EMPTY, DFA `i` is nonterminal `256 + i`, every DFA and label is well formed and the start symbol is a nonterminal |
| Grammar.FindDfa | Python/graminit.c:1786-1955 | nonterminal `t` is found exactly when `256 <= t < 256 + ndfas`; in a well-formed grammar the DFA found carries number `t` and is well formed |
| Grammar.IsAccepting | Python/graminit.c:3-1785 | a state accepts when one of its arcs carries label 0, EMPTY |
| Grammar.BitMask | Python/graminit.c:1786-1955 | the mask for bit `k` is a single nonzero bit |
| Grammar.InFirst | Python/graminit.c:1786-1955 | label `l` is in a first set when bit `l % 8` of byte `l / 8` is set |
| Grammar.Matches | Python/graminit.c:1956-2124 | a label matches a token of its category; one with a literal matches only a NAME spelled exactly like it |
| Grammar.Resolve | Python/graminit.c:1956-2124 | the labels a token satisfies are label numbers of the table |
| Grammar.AcceptingArcIsSelfLoop | Python/graminit.c:3-1785 | in a well-formed grammar an accepting state's EMPTY arc points back at that state |
| Grammar.ArcTargetsInRange | Python/graminit.c:3-1785 | every arc of a well-formed grammar targets a state of its own DFA and carries a label number below the label count |
| Grammar.NonterminalLabelHasDfa | Python/graminit.c:1956-2124 | every label naming a nonterminal leads to the DFA of that number |
| Grammar.InFirstBounded | Python/graminit.c:1786-1955 | a first-set bit exists only for labels the byte string covers |
| Grammar.KeywordNeedsExactText | Python/graminit.c:1956-2124 | a keyword label is satisfied only by a NAME token spelled exactly like its literal |
| Grammar.EmptyNeverResolves | Python/graminit.c:1957 | label 0, EMPTY, is satisfied by no token |
| Grammar.TokensResolveToTerminals | Python/graminit.c:1956-2124 | a token never satisfies a label naming a nonterminal |
| Grammar.BitMasksDisjoint | Python/graminit.c:1786-1955 | masks of two bit positions overlap exactly when the positions are equal |
| Grammar.SingleLabelFirstSet | Python/graminit.c:1786-1955 | a first set holding only the bit of label `l0` contains exactly `l0` |
| Grammar.NumberedConcat | Python/graminit.c:1786-1955 | two consecutive runs of DFAs numbered in order form one run numbered in order |
| Grammar.ResolveFromMatches | Python/graminit.c:1956-2124 | a table whose entries match a token exactly at `hits` resolves the token to `hits` |
| GramInitKeywords.NameHits | Python/graminit.c:1956-2124 | a NAME token always satisfies the generic NAME label 19, and the other hits are label numbers |
| GramInitLabels.LabelsWellFormed | Python/graminit.c:1956-2124 | every label is a token category or the number of one of the 84 DFAs |
| GramInitLabels.NameTokenResolution | Python/graminit.c:1956-2124 | a NAME token resolves to label 19 plus the keyword label spelled like it, if any, and to nothing else |
| GramInitLabels.DeleteIsNoKeyword | Python/graminit.c:1956-2124 | no keyword label is spelled "delete" |
| GramInitLabels.DelIsKeyword | Python/graminit.c:2015 | exactly one keyword label, 58, is spelled "del" |
| GramInitLabels.IdentifierResolvesToName | Python/graminit.c:1976-2015 | the identifier "delete" resolves only to label 19, never to label 58 "del" |
| GramInitLabels.KeywordResolvesTwice | Python/graminit.c:1976-2015 | the keyword "del" resolves to label 19 and to label 58 |
| GramInitFacts.DfasNumbered | Python/graminit.c:1786-1955 | DFA `i` of the table is nonterminal `256 + i` |
| GramInitFacts.ParserGrammarWellFormed | Python/graminit.c:2125-2130 | the grammar record is well formed, with 84 DFAs, 167 labels and start symbol 256 |
| GramInitFacts.RuleLookups | Python/graminit.c:1793-1891 | lookup finds decorator (259, 7 states), try_stmt (295, 13 states) and comp_op (308) |
| GramInitFacts.KeywordRuleLookups | Python/graminit.c:1819-1826 | lookup finds del_stmt (272), pass_stmt (273) and break_stmt (275) |
| GramInitFacts.PassStmtIsSingleKeyword | Python/graminit.c:385-394 | pass_stmt moves from state 0 only on label 60 "pass" into state 1, which is accepting and has no other arc |
| GramInitFacts.PassStmtFirstSet | Python/graminit.c:1821-1822 | pass_stmt's first set is exactly label 60 |
| GramInitFacts.DelStmtFirstSet | Python/graminit.c:1819-1820 | del_stmt's first set is exactly label 58 |
| GramInitFacts.BreakStmtFirstSet | Python/graminit.c:1825-1826 | break_stmt's first set is exactly label 66 |
| GramInitFacts.NotEqualListedTwice | Python/graminit.c:2078-2079 | labels 121 and 122 are both NOTEQUAL, a NOTEQUAL token satisfies both, and comp_op's state 0 goes to state 1 on either |
| CText.At | Modules/_sqlite/cursor.c:230-234 | reading one past the contents yields the terminator |
| CText.CutAtSpace | Modules/_sqlite/cursor.c:188-196 | the result is the prefix before the first space or NUL: a prefix holding no stop and followed by one |
| CText.CutIsUnique | Modules/_sqlite/cursor.c:230-234 | two such prefixes of the same text are equal |
| CText.BuildColumnName | Modules/_sqlite/cursor.c:221-235 | a missing name gives None and only then; otherwise the name cut before its first space |
| CText.CutExamples | Modules/_sqlite/cursor.c:188-196 | "INTEGER PRIMARY KEY" is cut to "INTEGER"; "price" stays whole |
| StatementKinds.SkipBlanks | Modules/_sqlite/cursor.c:46-49 | the first position that is not `\r`, `\n`, space or tab, with only such characters before it |
| StatementKinds.IsBlank | Modules/_sqlite/cursor.c:46 | the four characters skipped before the first word: carriage return, line feed, space and tab |
| StatementKinds.IsAlpha | Modules/_sqlite/cursor.c:56 | a letter as `isalpha` sees it in the C locale |
| StatementKinds.ToLower | Modules/_sqlite/cursor.c:57 | `tolower` in the C locale: an upper-case letter becomes its lower-case letter, every other character is unchanged |
| StatementKinds.SkipLetters | Modules/_sqlite/cursor.c:56-58 | the end of the run of letters starting at a position |
| StatementKinds.LowerAll | Modules/_sqlite/cursor.c:56-58 | the word lower-cased letter by letter, same length |
| StatementKinds.KindOfWord | Modules/_sqlite/cursor.c:62-74 | the five keywords name their kind, every other word is OTHER, and no word is INVALID |
| StatementKinds.StatementKindOf | Modules/_sqlite/cursor.c:38-75 | INVALID when only blanks precede the terminator, otherwise the kind of the whole first run of letters, lower-cased |
| StatementKinds.DetectStatementType | Modules/_sqlite/cursor.c:39-75 | the 20-character buffer gives the kind named by the whole first word, lower-cased, and INVALID for an empty or all-blank statement |
| StatementKinds.BufferedWordDecides | Modules/_sqlite/cursor.c:56-60 | stopping the copy at 18 letters never changes the kind |
| StatementKinds.LongWordsAreOther | Modules/_sqlite/cursor.c:62-74 | a word of eight letters or more is OTHER |
| StatementKinds.InvalidIffBlank | Modules/_sqlite/cursor.c:46-52 | INVALID exactly when only blanks come before the terminator |
| StatementKinds.FirstWordDecides | Modules/_sqlite/cursor.c:46-74 | blanks, a word and a non-letter classify as the lower-cased word, whatever follows |
| StatementKinds.LongWordIsOther | Modules/_sqlite/cursor.c:54-74 | a first word longer than seven letters is OTHER |
| StatementKinds.MixedCaseExample | Modules/_sqlite/cursor.c:46-74 | "  UpDaTe t" is UPDATE |
| StatementKinds.PunctuationEndsWordExample | Modules/_sqlite/cursor.c:56-62 | "select*" is SELECT |
| StatementKinds.LineBreaksExample | Modules/_sqlite/cursor.c:46-66 | "\r\n\tINSERT INTO t" is INSERT |
| StatementKinds.LongerWordExample | Modules/_sqlite/cursor.c:56-74 | "selected" is OTHER |
| StatementKinds.PunctuationFirstExample | Modules/_sqlite/cursor.c:54-74 | "(select 1)" is OTHER |
| StatementKinds.InvalidExamples | Modules/_sqlite/cursor.c:46-52 | blanks alone, and the empty statement, are INVALID |
| ColumnValues.IntegerObject | Modules/_sqlite/cursor.c:332-336 | the object keeps the value, and it is a short int exactly when the value is within the 32-bit range |
| ColumnValues.ShortIntFitsLong | Modules/_sqlite/cursor.c:335-336 | the `(long)` cast of the short branch loses nothing, even with a 32-bit `long` |
| ColumnValues.IntegerBoundaries | Modules/_sqlite/cursor.c:332-336 | 2147483647 and -2147483648 are short; 2147483648 and -2147483649 are long |
| ColumnValues.TextFromBytes | Modules/_sqlite/cursor.c:237-261 | the object holds the C string's text, and it is a plain string exactly when `optimize` is set and no byte has bit 0x80 set |
| ColumnValues.CLength | Modules/_sqlite/cursor.c:259 | `strlen` is the position of the first NUL |
| ColumnValues.ByteAt | Modules/_sqlite/cursor.c:246-253 | reading one past the contents yields the terminator |
| RowCastMap.CutOf | Modules/_sqlite/cursor.c:188-196 | the declared-type key is the text before the first space or NUL |
| RowCastMap.Lookup | Modules/_sqlite/cursor.c:177-198 | the `PyDict_GetItem` lookups: the converter registered under a key, or none when the key is absent |
| RowCastMap.ScanFrom | Modules/_sqlite/cursor.c:165-181 | the bracket scan of one name: stops at NUL with no key, moves `type_start` past each `[`, and at a `]` after a `[` cuts the key, or reports a stale pair when `type_start` lies in another column |
| RowCastMap.ScanBrackets | Modules/_sqlite/cursor.c:165-181 | the bracket scan loop finds what the recursive scan `ScanFrom` defines |
| RowCastMap.CastEntries | Modules/_sqlite/cursor.c:158-216 | the column loop either builds the map or reaches a stale bracket pair |
| RowCastMap.RowCastMapOf | Modules/_sqlite/cursor.c:140-219 | the map is left as it was when `detect_types` is 0 (cursor.c:152), otherwise built column by column from no `type_start` |
| RowCastMap.BuildRowCastMap | Modules/_sqlite/cursor.c:140-219 | the map built column by column is `RowCastMapOf` of the columns |
| RowCastMap.PrependTwice | Modules/_sqlite/cursor.c:210 | appending converters one at a time builds the same map as appending them at once |
| RowCastMap.FlagTestsAlwaysPass | Modules/_sqlite/cursor.c:162-185 | both flag tests, written with a bitwise or, are nonzero for every value of `detect_types` |
| RowCastMap.ScanWithinColumn | Modules/_sqlite/cursor.c:165-181 | when `type_start` is unset or inside the name, the scan never goes stale, a key it finds lies between a `[` and the next `]`, and `type_start` stays in the column |
| RowCastMap.CastMapShape | Modules/_sqlite/cursor.c:152-219 | the map is left alone exactly when type detection is off; a built map has one entry per column |
| RowCastMap.EntriesPerColumn | Modules/_sqlite/cursor.c:158-216 | the loop adds one entry per remaining column |
| RowCastMap.ScanPlain | Modules/_sqlite/cursor.c:165-181 | characters other than brackets and NUL leave the scan unchanged |
| RowCastMap.FirstStop | Modules/_sqlite/cursor.c:165-181 | the first `]` or terminator at or after a position, with neither before it |
| RowCastMap.LastOpenBefore | Modules/_sqlite/cursor.c:166-167 | the last `[` before a position, with no `[` after it up to there; none when there is no `[` before it |
| RowCastMap.BracketKeyOf | Modules/_sqlite/cursor.c:165-181 | a name's own key: the text between the last `[` before its first `]` and that `]` |
| RowCastMap.StrayClose | Modules/_sqlite/cursor.c:143-181 | the name's first `]` has no `[` of its own before it |
| RowCastMap.ScanAtStop | Modules/_sqlite/cursor.c:165-181 | at a terminator the scan finds nothing; at a `]` it cuts the key after the last `[`, goes stale on another column's `[`, or skips the `]` when `type_start` is unset |
| RowCastMap.ScanSkipsToStop | Modules/_sqlite/cursor.c:165-181 | up to the first `]` or terminator the scan only records the last `[` it passes |
| RowCastMap.ScanToFirstStop | Modules/_sqlite/cursor.c:165-181 | from any earlier column's `type_start`, the scan of a name gives exactly the key between the last `[` before its first `]` and that `]`; without a `]` no key and `type_start` after the last `[`; a first `]` with no `[` before it goes stale, or is skipped when `type_start` is unset |
| RowCastMap.EntryOf | Modules/_sqlite/cursor.c:158-216 | a column's converter read on its own: the one under its bracketed key, else the one under its declared type cut at the first space, else none |
| RowCastMap.EntriesFrom | Modules/_sqlite/cursor.c:158-216 | with no stray `]`, the column loop from column `i` builds `EntryOf` of each remaining column, in order |
| RowCastMap.RowCastMapEntries | Modules/_sqlite/cursor.c:140-219 | with type detection on and no name whose first `]` precedes its own `[`, entry `i` of the built map is `EntryOf` column `i` |
| RowCastMap.FirstPairExample | Modules/_sqlite/cursor.c:165-181 | "a [x] [y]" gives the key "x", the first pair |
| RowCastMap.StrayCloseSkippedExample | Modules/_sqlite/cursor.c:165-181 | with `type_start` unset, "a]b[c]" skips the first `]` and gives the key "c" |
| RowCastMap.ColumnNameExample | Modules/_sqlite/cursor.c:162-181 | "price [decimal]" uses the converter registered as "decimal", not the declared type's |
| RowCastMap.DecltypeExample | Modules/_sqlite/cursor.c:185-199 | with only PARSE_COLNAMES set, "INTEGER PRIMARY KEY" still uses the "INTEGER" converter, and a column with neither name nor type gets none |
| RowCastMap.StaleBracketExample | Modules/_sqlite/cursor.c:143-181 | "a [int]" followed by a column "b]" pairs brackets across columns |
| Cursors.LaterSteps | Modules/_sqlite/cursor.c:822-832 | the steps recorded after the one just taken: none when none were recorded, otherwise the recorded steps are that one followed by these |
| Cursors.NextStep | Modules/_sqlite/cursor.c:583-590 | the result of the next `sqlite3_step`: the first recorded one, or DONE once the recorded ones are used up |
| Cursors.TransactionStep | Modules/_sqlite/cursor.c:499-531 | BEGIN exactly for a DML statement outside a transaction; COMMIT exactly for OTHER inside one; a ProgrammingError exactly for SELECT in executemany |
| Cursors.InTransactionAfter | Modules/_sqlite/cursor.c:499-531 | BEGIN puts the connection in a transaction, COMMIT takes it out, and no action leaves it as it was |
| Cursors.TransactionInvariant | Modules/_sqlite/cursor.c:499-531 | after the switch DML runs inside a transaction and OTHER outside one; SELECT and INVALID leave it as it was |
| Cursors.DeliveredAllRows | Modules/_sqlite/cursor.c:795-836 | with no failing step, iteration from the first row hands out exactly the statement's rows and ends without an exception |
| Cursors.ErrorLosesBufferedRow | Modules/_sqlite/cursor.c:822-827 | a failing step right after the buffered row drops it and raises |
| Cursors.Delivered | Modules/_sqlite/cursor.c:805-835 | the rows iteration hands out from a buffered row: a row step hands out the buffered row and buffers the next, DONE hands out the last, a failed step drops it |
| Cursors.FailsAfter | Modules/_sqlite/cursor.c:822-827 | iteration from a buffered row ends in an exception exactly when a failed step comes before DONE |
| Cursors.RemainingOf | Modules/_sqlite/cursor.c:805-835 | nothing remains without a buffered row; otherwise what `Delivered` hands out |
| Cursors.EndsInErrorOf | Modules/_sqlite/cursor.c:805-835 | an exception is pending exactly when a row is buffered and a failed step follows it |
| Cursors.RowsOf | Modules/_sqlite/cursor.c:795-836 | the rows a statement's steps produce before its first DONE or failed step |
| Cursors.Execution | Modules/_sqlite/cursor.c:387-688 | the prologue and then the passes over the parameter sets, stopping at the first exception; preparing the statement and binding the parameters always succeed |
| Cursors.ColumnName | Modules/_sqlite/cursor.c:621 | a description entry's name is the column name cut before its first space, or None |
| Cursors.Prepared | Modules/_sqlite/cursor.c:583-590 | the start of a pass: the row cast map of the run's columns, kept as it was when type detection is off, and the steps after the first |
| Cursors.Described | Modules/_sqlite/cursor.c:605-631 | a pass whose first step returns a row, or any pass of a SELECT, fills in the description when there is none yet |
| Cursors.Settled | Modules/_sqlite/cursor.c:634-671 | a pass that raised nothing buffers its row, or releases the statement after DONE when run once; adds the changes of a DML statement to the running total shown in `rowcount`; sets `lastrowid` for INSERT and clears it otherwise |
| Cursors.RunOnce | Modules/_sqlite/cursor.c:570-672 | one pass: a failed first step raises the database error, a row returned to executemany raises ProgrammingError, anything else is described and settled |
| Cursors.RunAll | Modules/_sqlite/cursor.c:570-672 | the passes over the parameter sets in order, up to the first exception |
| Cursors.Prologue | Modules/_sqlite/cursor.c:404-567 | drops the buffered row, resets description and rowcount, refuses a SELECT in executemany with an isolation level set, otherwise applies the transaction switch and installs the statement |
| Cursors.RunAllCountsChanges | Modules/_sqlite/cursor.c:645-657 | the passes of a DML statement add up their change counts, and `rowcount` shows the running total |
| Cursors.DmlRowcount | Modules/_sqlite/cursor.c:404-657 | after a DML statement that raised nothing, `rowcount` is the sum of the changes over all parameter sets, or -1 with none |
| Cursors.RunAllKeepsRowcount | Modules/_sqlite/cursor.c:645-657 | passes of other statements never touch `rowcount` |
| Cursors.OtherRowcount | Modules/_sqlite/cursor.c:487-496 | after any statement other than DML, `rowcount` is -1 |
| Cursors.RunAllLastRowid | Modules/_sqlite/cursor.c:659-668 | after passes that raised nothing, `lastrowid` reflects the last pass |
| Cursors.LastRowid | Modules/_sqlite/cursor.c:659-668 | after an execution that raised nothing, `lastrowid` is the last insert rowid for INSERT and None otherwise; with no parameter sets it is unchanged |
| Cursors.RunAllManyBuffersNothing | Modules/_sqlite/cursor.c:634-640 | passes of executemany never buffer a row |
| Cursors.ExecuteManyLeavesNoRows | Modules/_sqlite/cursor.c:634-640 | after executemany there is nothing to fetch and no pending exception, whatever happened |
| Cursors.ExecuteManyRejectsRows | Modules/_sqlite/cursor.c:634-638 | executemany of a statement whose first parameter set returns a row raises ProgrammingError |
| Cursors.ExecuteDeliversRows | Modules/_sqlite/cursor.c:634-640 | execute of a statement that returns rows and never fails leaves exactly those rows to fetch and no pending exception |
| Cursors.ExecuteDoneReleases | Modules/_sqlite/cursor.c:641-645 | execute of a statement that is DONE at once releases the statement and leaves nothing buffered |
| Cursors.RunAllKeepsTransaction | Modules/_sqlite/cursor.c:570-672 | the loop over parameter sets never touches the transaction flag |
| Cursors.ExecutionTransaction | Modules/_sqlite/cursor.c:499-531 | with an isolation level, DML leaves the connection in a transaction, OTHER outside one, INVALID as it was |
| Cursors.RunAllKeepsDescription | Modules/_sqlite/cursor.c:611 | a description once set is never replaced |
| Cursors.SelectDescription | Modules/_sqlite/cursor.c:605-631 | a SELECT whose first step does not fail is described by its first parameter set's columns |
| Cursors.DescriptionOf | Modules/_sqlite/cursor.c:605-631 | the column names of the first pass whose first step returns a row, or of the first pass of a SELECT, unless a pass up to it fails at its first step |
| Cursors.RunOnceDescription | Modules/_sqlite/cursor.c:583-640 | one pass raises exactly when its first step fails or returns a row to executemany, and describes the statement only past a successful first step |
| Cursors.RunAllDescription | Modules/_sqlite/cursor.c:570-672 | passes started without a description leave `DescriptionOf` the parameter sets |
| Cursors.ExecutionDescription | Modules/_sqlite/cursor.c:487-631 | after `_query_execute` the description is None when executemany refuses a SELECT, otherwise `DescriptionOf` the parameter sets |
| Cursors.Connection.constructor | Modules/_sqlite/cursor.c:499 | a connection starts outside a transaction with the given isolation level and type detection |
| Cursors.Cursor.constructor | Modules/_sqlite/cursor.c:77-115 | a new cursor has no statement, no buffered row, no description, no lastrowid, rowcount -1, arraysize 1 and an empty cast map |
| Cursors.Cursor.QueryExecute | Modules/_sqlite/cursor.c:387-688 | the new cursor state and the exception raised are those of `Execution`; `arraysize` and the connection's settings are unchanged |
| Cursors.Cursor.Prepare | Modules/_sqlite/cursor.c:404-567 | drops the buffered row, resets description and rowcount, applies the transaction switch and installs the statement, as `Prologue` does |
| Cursors.Cursor.RunParameters | Modules/_sqlite/cursor.c:570-672 | one pass changes the state as `RunOnce` does; for executemany it leaves nothing buffered |
| Cursors.Cursor.PrepareRun | Modules/_sqlite/cursor.c:583-590 | builds the cast map and takes the first step, as `Prepared` does |
| Cursors.Cursor.Describe | Modules/_sqlite/cursor.c:605-631 | fills in a missing description, as `Described` does |
| Cursors.Cursor.Settle | Modules/_sqlite/cursor.c:634-671 | buffers the row or releases the statement, and updates rowcount and lastrowid, as `Settled` does |
| Cursors.Cursor.DescribeColumns | Modules/_sqlite/cursor.c:617-630 | the description holds `_build_column_name` of each column, in order |
| Cursors.Cursor.Execute | Modules/_sqlite/cursor.c:690-693 | `_query_execute` with one parameter set |
| Cursors.Cursor.ExecuteMany | Modules/_sqlite/cursor.c:695-698 | `_query_execute` with every parameter set |
| Cursors.Cursor.IterNext | Modules/_sqlite/cursor.c:795-836 | hands out the first remaining row and leaves the rest; when none remain, raises if a step failed and otherwise signals the end and releases the statement; it keeps the statement whenever it does not signal the end |
| Cursors.Cursor.FetchOne | Modules/_sqlite/cursor.c:838-849 | the first remaining row, None at the end, or the pending exception |
| Cursors.Cursor.FetchMany | Modules/_sqlite/cursor.c:851-890 | for `0 < maxrows <= remaining` exactly the first `maxrows` rows, leaving the rest; otherwise every remaining row, or the exception with the rows discarded |
| Cursors.Cursor.FetchAll | Modules/_sqlite/cursor.c:892-919 | every remaining row, or the exception with the rows discarded; nothing is left afterwards |

## Left out

- The LL(1) parser that walks the grammar tables, and the generator that
  produced them, are not part of this model. Only the tables and the
  accessors their encoding implies are modelled.
- The sqlite calls made while a statement runs are abstracted by `Run`
  values fixed in advance:
  - stepping, resetting and finalizing statements;
  - the busy handler;
  - column counts, names and declared types;
  - `sqlite3_changes` and `sqlite3_last_insert_rowid`.

  Preparing a statement, the statement cache and parameter binding are
  assumed to succeed. The lines for `Cursors.Execution`,
  `Cursors.Cursor.Prepare` and `Cursors.Cursor.RunParameters` below say what
  that leaves out.

  A failed step is `ErrorStep`, and the exception it raises is
  `DatabaseError`. The specific class chosen by `_seterror` is not modelled.
- Cursors.Cursor.RunParameters: the SCHEMA path is not modelled. On a
  SQLITE_SCHEMA error, the C code recompiles the statement and steps again
  (cursor.c:589-599). The model treats every failing first step as an error.
- `executescript` and `close`, and the connection's own code, are not part
  of this model. This includes the effects of BEGIN and COMMIT beyond the
  `inTransaction` flag.
- Cursors.Execution: it never raises from preparing the statement
  (cursor.c:548-565) or from binding a parameter set (cursor.c:579-581).
  The only exceptions it produces are the refused SELECT, a failed first
  step and a row returned to executemany.
- Cursors.Cursor.Prepare: a failed preparation is not modelled. In C,
  `cache_get` or `statement_create` can fail (cursor.c:548-565), for example
  on malformed SQL. The call then raises and leaves `self->statement` NULL.
  Here the statement is always installed. The nearest stand-in is a run
  whose first step fails. That differs in two ways: the cursor keeps a
  statement, and the cast map is rebuilt first.
- Cursors.Cursor.RunParameters: a failed parameter binding is not modelled.
  In C, `statement_bind_parameters` can raise (cursor.c:579-581), for
  example on a wrong number of bindings, before the cast map is built.
  The nearest stand-in is a run whose first step fails. That differs in
  the same two ways: the statement is kept, and the cast map is rebuilt
  before the exception.
- Cursors.Cursor.Prepare: a failing BEGIN or COMMIT (the `goto error`
  branches at cursor.c:507-520) is not modelled. These calls always succeed
  here.
- Argument parsing and the checks on the operation's type:
  - `PyArg_ParseTuple`;
  - the checks that the operation is a str or unicode;
  - building the parameter iterator.
- `check_thread` and `check_connection` are not modelled. The model
  describes a cursor used from its own thread on an open connection.
- Python object allocation and reference counting are not modelled, nor
  the error paths taken when an allocation fails.
- Converter calls, `row_factory` and `text_factory` are not modelled. A row
  is the value sequence `_fetch_one_row` builds.
- Other conversion code is not modelled:
  - float conversion;
  - UTF-8 decoding;
  - the blob copy.

  `ColumnValues` models only which Python type a value gets.
- Cursors.Cursor.Settle: `rowcount` is an unbounded integer. The C `long`
  accumulator and the `(long)` casts of change counts and of `lastrowid`
  can overflow, and that is not modelled.
- RowCastMap.BuildRowCastMap: once a `]` pairs with a `[` from an earlier
  column's name, the map is `Undetermined`. The C code then builds a key
  from two unrelated buffers. A failed key allocation, which the C code
  treats as "no converter", is not modelled either.
- RowCastMap: the values of `PARSE_DECLTYPES` (1) and `PARSE_COLNAMES` (2)
  come from Modules/_sqlite/module.h, which is not part of this model. Any
  values behave the same, because the flag tests always pass.
- ColumnValues.TextFromBytes: the UTF-8 decoder can fail, and that is not
  modelled. The decoded text is represented by the bytes it was decoded
  from.
- StatementKinds.IsAlpha: `isalpha` and `tolower` are modelled for the C
  locale only, where the letters are A-Z and a-z. Under another locale the C
  functions may accept more characters. Negative `char` values, which
  `isalpha` does not define, are not modelled either.
- RowCastMap.RowCastMapEntries: the per-column statement needs every column
  name's first `]` to follow a `[` of its own. Otherwise the scan depends on
  earlier columns: `RowCastMap.ScanToFirstStop` describes that case, and
  `RowCastMap.StaleBracketExample` shows where it leads.
