/** The cursor of the sqlite module (Modules/_sqlite/cursor.c): `execute` and
    `executemany` run a statement once per parameter set and keep the
    bookkeeping a DB-API cursor exposes (`rowcount`, `lastrowid`,
    `description`); iteration and the `fetch*` methods hand out rows with a
    one-row lookahead held in `next_row`.

    The sqlite library is abstracted: running the statement with one
    parameter set is a `Run`, which lists what successive `sqlite3_step`
    calls report, the result columns, and the change count and last insert
    rowid that the connection reports afterwards. */
module Cursors {
  import opened CText
  import opened StatementKinds
  import opened RowCastMap
  import opened ColumnValues

  // ---------------------------------------------------------------------
  // Values and outcomes

  /** One cell of a fetched row, as `_fetch_one_row` types it. */
  datatype Value = NullValue | IntegerValue(i: IntObject) | FloatValue | TextValue(t: TextObject) | BlobValue(b: seq<Byte>)

  type Row = seq<Value>

  /** What one `sqlite3_step` reports; a row comes with the values fetched
      from it. */
  datatype Step = RowStep(row: Row) | DoneStep | ErrorStep

  /** The statement run with one parameter set: its steps, its result
      columns, and `sqlite3_changes` and `sqlite3_last_insert_rowid` after it. */
  datatype Run = Run(steps: seq<Step>, columns: seq<Column>, changes: int, lastInsertRowid: int)

  /** The exceptions this part of the cursor raises: ProgrammingError for
      misuse, and the database error `_seterror` derives from a failed step. */
  datatype Error = ProgrammingError | DatabaseError

  datatype Outcome<T> = Ok(value: T) | Raised(error: Error)

  /** What `cursor_iternext` returns: a row, NULL without an exception (the
      end), or NULL with one. */
  datatype IterResult = Yield(row: Row) | Stop | Fail(error: Error)

  /** A step past the last recorded one reports DONE. */
  function NextStep(steps: seq<Step>): Step
  {
    if steps == [] then DoneStep else steps[0]
  }

  /** The steps left once one has been taken: the ones recorded after it. */
  function LaterSteps(steps: seq<Step>): (rest: seq<Step>)
    ensures |rest| == if steps == [] then 0 else |steps| - 1
    ensures steps == [] ==> rest == []
    ensures steps != [] ==> steps == [NextStep(steps)] + rest
  {
    if steps == [] then [] else steps[1..]
  }

  // ---------------------------------------------------------------------
  // The transaction switch (cursor.c:499-531)

  predicate IsDml(kind: StatementKind)
  {
    kind == Update || kind == Delete || kind == Insert || kind == Replace
  }

  datatype TransactionAction = Begin | Commit | NoAction | RejectSelect

  /** What `_query_execute` does about the transaction before running a
      statement of `kind`, when the connection has a begin statement. */
  function TransactionStep(kind: StatementKind, inTransaction: bool, multiple: bool): (a: TransactionAction)
    ensures a == Begin <==> IsDml(kind) && !inTransaction
    ensures a == Commit <==> kind == Other && inTransaction
    ensures a == RejectSelect <==> kind == Select && multiple
  {
    match kind
    case Update | Delete | Insert | Replace => if !inTransaction then Begin else NoAction
    case Other => if inTransaction then Commit else NoAction
    case Select => if multiple then RejectSelect else NoAction
    case Invalid => NoAction
  }

  /** Whether the connection is in a transaction after `a`. */
  function InTransactionAfter(a: TransactionAction, inTransaction: bool): bool
  {
    match a
    case Begin => true
    case Commit => false
    case _ => inTransaction
  }

  /** After the switch, a data-changing statement always runs inside a
      transaction and any other statement (a DDL one, say) always outside
      one; SELECT and INVALID statements leave the state as it was. */
  lemma TransactionInvariant(kind: StatementKind, inTransaction: bool, multiple: bool)
    ensures IsDml(kind) ==> InTransactionAfter(TransactionStep(kind, inTransaction, multiple), inTransaction)
    ensures kind == Other ==> !InTransactionAfter(TransactionStep(kind, inTransaction, multiple), inTransaction)
    ensures kind == Select || kind == Invalid ==> InTransactionAfter(TransactionStep(kind, inTransaction, multiple), inTransaction) == inTransaction
  {
  }

  // ---------------------------------------------------------------------
  // Iteration: what the buffered row and the remaining steps will yield

  /** The rows that iteration hands out from a buffered `row` with `steps`
      still to come: a row step buffers its row and hands out the previous
      one; a DONE step hands out the last buffered row; an error step drops
      it. */
  function Delivered(row: Row, steps: seq<Step>): (rows: seq<Row>)
    decreases |steps|
  {
    match NextStep(steps)
    case RowStep(r) => [row] + Delivered(r, LaterSteps(steps))
    case DoneStep => [row]
    case ErrorStep => []
  }

  /** Whether iteration from a buffered `row` ends in an exception. */
  predicate FailsAfter(row: Row, steps: seq<Step>)
    decreases |steps|
  {
    match NextStep(steps)
    case RowStep(r) => FailsAfter(r, LaterSteps(steps))
    case DoneStep => false
    case ErrorStep => true
  }

  function RemainingOf(nextRow: Option<Row>, pending: seq<Step>): seq<Row>
  {
    if nextRow.None? then [] else Delivered(nextRow.value, pending)
  }

  predicate EndsInErrorOf(nextRow: Option<Row>, pending: seq<Step>)
  {
    nextRow.Some? && FailsAfter(nextRow.value, pending)
  }

  /** The rows a statement's steps produce before its first DONE or error. */
  function RowsOf(steps: seq<Step>): seq<Row>
  {
    if steps != [] && steps[0].RowStep? then [steps[0].row] + RowsOf(steps[1..]) else []
  }

  predicate NoErrorStep(steps: seq<Step>)
  {
    forall i :: 0 <= i < |steps| ==> !steps[i].ErrorStep?
  }

  /** With no failing step, iteration from a row fetched by the first step
      hands out exactly the rows the statement produces, and no exception. */
  lemma {:induction false} DeliveredAllRows(steps: seq<Step>)
    requires steps != [] && steps[0].RowStep? && NoErrorStep(steps)
    ensures Delivered(steps[0].row, steps[1..]) == RowsOf(steps)
    ensures !FailsAfter(steps[0].row, steps[1..])
    decreases |steps|
  {
    var rest := steps[1..];
    if rest != [] && rest[0].RowStep? {
      assert NoErrorStep(rest) by {
        forall i | 0 <= i < |rest| ensures !rest[i].ErrorStep? {
          assert rest[i] == steps[i + 1];
        }
      }
      DeliveredAllRows(rest);
    } else if rest != [] {
      assert !rest[0].ErrorStep? by {
        assert rest[0] == steps[1];
      }
    }
  }

  /** A failing step right after the buffered row loses that row. */
  lemma ErrorLosesBufferedRow(row: Row, steps: seq<Step>)
    requires steps != [] && steps[0] == ErrorStep
    ensures Delivered(row, steps) == [] && FailsAfter(row, steps)
  {
  }

  // ---------------------------------------------------------------------
  // Executing a statement (`_query_execute`, cursor.c:387-688)

  /** The cursor fields `_query_execute` reads and writes, and the
      connection's transaction flag. */
  datatype CursorState = CursorState(
    inTransaction: bool,
    hasStatement: bool,
    pending: seq<Step>,
    nextRow: Option<Row>,
    description: Option<seq<Option<seq<char>>>>,
    rowcount: int,
    lastrowid: Option<int>,
    rowCastMap: CastMap)

  /** The state part way through the loop over parameter sets: the local
      running total of changes, and the exception raised, if any. */
  datatype Progress = Progress(st: CursorState, total: int, error: Option<Error>)

  /** The name `_build_column_name` gives a result column. */
  function ColumnName(column: Column): (name: Option<seq<char>>)
    ensures name.None? <==> column.name.None?
    ensures column.name.Some? ==> IsCut(column.name.value, name.value)
  {
    if column.name.Some? then Some(CutOf(column.name.value)) else None
  }

  /** The column names of a description (cursor.c:605-631). */
  function ColumnNames(columns: seq<Column>): (names: seq<Option<seq<char>>>)
  {
    seq(|columns|, i requires 0 <= i < |columns| => ColumnName(columns[i]))
  }

  /** The start of a pass: the row cast map of the run's columns (kept as
      it was when type detection is off) and the steps after the first. */
  function Prepared(detectTypes: bv32, converters: map<seq<char>, Converter>, run: Run, st: CursorState): CursorState
  {
    var castMap := RowCastMapOf(detectTypes, run.columns, converters);
    st.(rowCastMap := if castMap.Unchanged? then st.rowCastMap else castMap, pending := LaterSteps(run.steps))
  }

  /** The description is filled in once, by the first pass that returns a
      row or runs a SELECT (cursor.c:605-631). */
  function Described(kind: StatementKind, step: Step, columns: seq<Column>, st: CursorState): CursorState
  {
    if (step.RowStep? || kind == Select) && st.description.None? then st.(description := Some(ColumnNames(columns))) else st
  }

  /** The end of a pass that raised nothing: the first row buffered, or the
      statement released after DONE when it is run once; the running total
      and `rowcount` for a data-changing statement; `lastrowid` for an
      INSERT (cursor.c:634-671). */
  function Settled(kind: StatementKind, multiple: bool, run: Run, step: Step, st: CursorState, total: int): Progress
  {
    var st1 :=
      if step.RowStep? then st.(nextRow := Some(step.row))
      else if !multiple then st.(hasStatement := false, pending := [])
      else st;
    var newTotal := if IsDml(kind) then total + run.changes else total;
    var st2 := st1.(rowcount := if IsDml(kind) then newTotal else st1.rowcount,
                    lastrowid := if kind == Insert then Some(run.lastInsertRowid) else None);
    Progress(if multiple then st2.(pending := []) else st2, newTotal, None)
  }

  /** One pass of the loop over parameter sets (cursor.c:570-672): a failed
      first step raises the database error, and a row from `executemany`
      raises ProgrammingError. */
  function RunOnce(kind: StatementKind, multiple: bool, detectTypes: bv32, converters: map<seq<char>, Converter>, run: Run, p: Progress): (q: Progress)
  {
    var st0 := Prepared(detectTypes, converters, run, p.st);
    var step := NextStep(run.steps);
    if step.ErrorStep? then Progress(st0, p.total, Some(DatabaseError))
    else
      var st1 := Described(kind, step, run.columns, st0);
      if step.RowStep? && multiple then Progress(st1, p.total, Some(ProgrammingError))
      else Settled(kind, multiple, run, step, st1, p.total)
  }

  /** The loop over the parameter sets, up to the first exception. */
  function RunAll(kind: StatementKind, multiple: bool, detectTypes: bv32, converters: map<seq<char>, Converter>, runs: seq<Run>, p: Progress): Progress
    decreases |runs|
  {
    if runs == [] || p.error.Some? then p
    else RunAll(kind, multiple, detectTypes, converters, runs[1..], RunOnce(kind, multiple, detectTypes, converters, runs[0], p))
  }

  /** The state right before the loop: the buffered row dropped, description
      and rowcount reset, the transaction switch applied and a fresh
      statement in place (cursor.c:404-567). */
  function Prologue(kind: StatementKind, multiple: bool, beginStatement: bool, st: CursorState): Progress
  {
    var st0 := st.(nextRow := None, description := None, rowcount := -1);
    var action := if beginStatement then TransactionStep(kind, st.inTransaction, multiple) else NoAction;
    if action == RejectSelect then Progress(st0, 0, Some(ProgrammingError))
    else Progress(st0.(inTransaction := InTransactionAfter(action, st.inTransaction), hasStatement := true, pending := []), 0, None)
  }

  /** Everything `_query_execute` does for a statement of `kind` run with
      `runs`. */
  function Execution(kind: StatementKind, multiple: bool, beginStatement: bool, detectTypes: bv32, converters: map<seq<char>, Converter>, runs: seq<Run>, st: CursorState): Progress
  {
    RunAll(kind, multiple, detectTypes, converters, runs, Prologue(kind, multiple, beginStatement, st))
  }

  /** The sum of the change counts of `runs`. */
  function TotalChanges(runs: seq<Run>): int
  {
    if runs == [] then 0 else runs[0].changes + TotalChanges(runs[1..])
  }

  /** The passes of a data-changing statement add up their change counts,
      and `rowcount` shows the running total once a pass has completed. */
  lemma {:induction false} RunAllCountsChanges(kind: StatementKind, multiple: bool, detectTypes: bv32, converters: map<seq<char>, Converter>, runs: seq<Run>, p: Progress)
    requires IsDml(kind) && p.error.None?
    requires RunAll(kind, multiple, detectTypes, converters, runs, p).error.None?
    ensures var q := RunAll(kind, multiple, detectTypes, converters, runs, p);
      q.total == p.total + TotalChanges(runs) && (runs != [] ==> q.st.rowcount == q.total)
    decreases |runs|
  {
    if runs != [] {
      var p1 := RunOnce(kind, multiple, detectTypes, converters, runs[0], p);
      RunAllCountsChanges(kind, multiple, detectTypes, converters, runs[1..], p1);
    }
  }

  /** `rowcount` after a data-changing statement that raised nothing is the
      number of rows it changed over all its parameter sets, and -1 when
      there was none (cursor.c:404, :487-496 and :645-657). */
  lemma DmlRowcount(kind: StatementKind, multiple: bool, beginStatement: bool, detectTypes: bv32, converters: map<seq<char>, Converter>, runs: seq<Run>, st: CursorState)
    requires IsDml(kind)
    requires Execution(kind, multiple, beginStatement, detectTypes, converters, runs, st).error.None?
    ensures Execution(kind, multiple, beginStatement, detectTypes, converters, runs, st).st.rowcount
         == if runs == [] then -1 else TotalChanges(runs)
  {
    RunAllCountsChanges(kind, multiple, detectTypes, converters, runs, Prologue(kind, multiple, beginStatement, st));
  }

  /** Passes of any other statement leave `rowcount` alone. */
  lemma {:induction false} RunAllKeepsRowcount(kind: StatementKind, multiple: bool, detectTypes: bv32, converters: map<seq<char>, Converter>, runs: seq<Run>, p: Progress)
    requires !IsDml(kind)
    ensures RunAll(kind, multiple, detectTypes, converters, runs, p).st.rowcount == p.st.rowcount
    decreases |runs|
  {
    if runs != [] && p.error.None? {
      RunAllKeepsRowcount(kind, multiple, detectTypes, converters, runs[1..], RunOnce(kind, multiple, detectTypes, converters, runs[0], p));
    }
  }

  /** After a SELECT, a DDL statement or an invalid one, `rowcount` is -1,
      whatever happened. */
  lemma OtherRowcount(kind: StatementKind, multiple: bool, beginStatement: bool, detectTypes: bv32, converters: map<seq<char>, Converter>, runs: seq<Run>, st: CursorState)
    requires !IsDml(kind)
    ensures Execution(kind, multiple, beginStatement, detectTypes, converters, runs, st).st.rowcount == -1
  {
    RunAllKeepsRowcount(kind, multiple, detectTypes, converters, runs, Prologue(kind, multiple, beginStatement, st));
  }

  /** After passes that raised nothing, `lastrowid` reflects the last pass:
      its insert rowid for an INSERT, None for anything else; with no pass it
      is what it was. */
  lemma {:induction false} RunAllLastRowid(kind: StatementKind, multiple: bool, detectTypes: bv32, converters: map<seq<char>, Converter>, runs: seq<Run>, p: Progress)
    requires p.error.None?
    requires RunAll(kind, multiple, detectTypes, converters, runs, p).error.None?
    ensures RunAll(kind, multiple, detectTypes, converters, runs, p).st.lastrowid
         == if runs == [] then p.st.lastrowid
            else if kind == Insert then Some(runs[|runs| - 1].lastInsertRowid) else None
    decreases |runs|
  {
    if runs != [] {
      var p1 := RunOnce(kind, multiple, detectTypes, converters, runs[0], p);
      RunAllLastRowid(kind, multiple, detectTypes, converters, runs[1..], p1);
      if |runs| > 1 {
        assert runs[1..][|runs[1..]| - 1] == runs[|runs| - 1];
      }
    }
  }

  /** `lastrowid` after a statement that raised nothing (cursor.c:659-668):
      an INSERT leaves the rowid of its last row, anything else None, and an
      `executemany` with no parameter sets leaves it untouched. */
  lemma LastRowid(kind: StatementKind, multiple: bool, beginStatement: bool, detectTypes: bv32, converters: map<seq<char>, Converter>, runs: seq<Run>, st: CursorState)
    requires Execution(kind, multiple, beginStatement, detectTypes, converters, runs, st).error.None?
    ensures Execution(kind, multiple, beginStatement, detectTypes, converters, runs, st).st.lastrowid
         == if runs == [] then st.lastrowid
            else if kind == Insert then Some(runs[|runs| - 1].lastInsertRowid) else None
  {
    RunAllLastRowid(kind, multiple, detectTypes, converters, runs, Prologue(kind, multiple, beginStatement, st));
  }

  /** Passes of `executemany` never buffer a row. */
  lemma {:induction false} RunAllManyBuffersNothing(kind: StatementKind, detectTypes: bv32, converters: map<seq<char>, Converter>, runs: seq<Run>, p: Progress)
    requires p.st.nextRow.None?
    ensures RunAll(kind, true, detectTypes, converters, runs, p).st.nextRow.None?
    decreases |runs|
  {
    if runs != [] && p.error.None? {
      RunAllManyBuffersNothing(kind, detectTypes, converters, runs[1..], RunOnce(kind, true, detectTypes, converters, runs[0], p));
    }
  }

  /** After `executemany` there is nothing to fetch, whatever happened
      (cursor.c:634-638). */
  lemma ExecuteManyLeavesNoRows(kind: StatementKind, beginStatement: bool, detectTypes: bv32, converters: map<seq<char>, Converter>, runs: seq<Run>, st: CursorState)
    ensures var q := Execution(kind, true, beginStatement, detectTypes, converters, runs, st);
      RemainingOf(q.st.nextRow, q.st.pending) == [] && !EndsInErrorOf(q.st.nextRow, q.st.pending)
  {
    RunAllManyBuffersNothing(kind, detectTypes, converters, runs, Prologue(kind, true, beginStatement, st));
  }

  /** `executemany` of a statement whose first parameter set returns a row
      raises ProgrammingError: it only runs statements that return nothing. */
  lemma ExecuteManyRejectsRows(kind: StatementKind, beginStatement: bool, detectTypes: bv32, converters: map<seq<char>, Converter>, runs: seq<Run>, st: CursorState)
    requires runs != [] && runs[0].steps != [] && runs[0].steps[0].RowStep?
    ensures Execution(kind, true, beginStatement, detectTypes, converters, runs, st).error == Some(ProgrammingError)
  {
    var p0 := Prologue(kind, true, beginStatement, st);
    if p0.error.None? {
      var p1 := RunOnce(kind, true, detectTypes, converters, runs[0], p0);
      assert p1.error == Some(ProgrammingError);
      assert RunAll(kind, true, detectTypes, converters, runs[1..], p1) == p1;
    }
  }

  /** `execute` of a statement whose steps return rows and never fail makes
      iteration hand out exactly those rows and then stop without an
      exception (cursor.c:634-640 with :805-835). */
  lemma ExecuteDeliversRows(kind: StatementKind, beginStatement: bool, detectTypes: bv32, converters: map<seq<char>, Converter>, run: Run, st: CursorState)
    requires run.steps != [] && run.steps[0].RowStep? && NoErrorStep(run.steps)
    ensures var q := Execution(kind, false, beginStatement, detectTypes, converters, [run], st);
      q.error.None? && RemainingOf(q.st.nextRow, q.st.pending) == RowsOf(run.steps)
      && !EndsInErrorOf(q.st.nextRow, q.st.pending)
  {
    DeliveredAllRows(run.steps);
    var p0 := Prologue(kind, false, beginStatement, st);
    assert p0.error.None?;
    var p1 := RunOnce(kind, false, detectTypes, converters, run, p0);
    assert p1.st.nextRow == Some(run.steps[0].row) && p1.st.pending == run.steps[1..];
    assert [run][1..] == [];
    assert Execution(kind, false, beginStatement, detectTypes, converters, [run], st) == RunAll(kind, false, detectTypes, converters, [], p1);
  }

  /** `execute` of a statement whose first step is DONE releases the
      statement and leaves nothing to fetch (cursor.c:641-645). */
  lemma ExecuteDoneReleases(kind: StatementKind, beginStatement: bool, detectTypes: bv32, converters: map<seq<char>, Converter>, run: Run, st: CursorState)
    requires run.steps == [] || run.steps[0] == DoneStep
    ensures var q := Execution(kind, false, beginStatement, detectTypes, converters, [run], st);
      q.error.None? && !q.st.hasStatement && q.st.nextRow.None? && q.st.pending == []
  {
    var p0 := Prologue(kind, false, beginStatement, st);
    assert p0.error.None?;
    var p1 := RunOnce(kind, false, detectTypes, converters, run, p0);
    assert p1.error.None? && !p1.st.hasStatement;
    assert [run][1..] == [];
    assert Execution(kind, false, beginStatement, detectTypes, converters, [run], st) == RunAll(kind, false, detectTypes, converters, [], p1);
  }

  /** Passes never touch the transaction flag. */
  lemma {:induction false} RunAllKeepsTransaction(kind: StatementKind, multiple: bool, detectTypes: bv32, converters: map<seq<char>, Converter>, runs: seq<Run>, p: Progress)
    ensures RunAll(kind, multiple, detectTypes, converters, runs, p).st.inTransaction == p.st.inTransaction
    decreases |runs|
  {
    if runs != [] && p.error.None? {
      RunAllKeepsTransaction(kind, multiple, detectTypes, converters, runs[1..], RunOnce(kind, multiple, detectTypes, converters, runs[0], p));
    }
  }

  /** With an isolation level set, a data-changing statement is always run,
      and left, inside a transaction, and a DDL or other statement outside
      one (cursor.c:499-531). */
  lemma ExecutionTransaction(kind: StatementKind, multiple: bool, detectTypes: bv32, converters: map<seq<char>, Converter>, runs: seq<Run>, st: CursorState)
    ensures IsDml(kind) ==> Execution(kind, multiple, true, detectTypes, converters, runs, st).st.inTransaction
    ensures kind == Other ==> !Execution(kind, multiple, true, detectTypes, converters, runs, st).st.inTransaction
    ensures kind == Invalid ==> Execution(kind, multiple, true, detectTypes, converters, runs, st).st.inTransaction == st.inTransaction
  {
    RunAllKeepsTransaction(kind, multiple, detectTypes, converters, runs, Prologue(kind, multiple, true, st));
  }

  /** The description, once set, is the column names of the first pass that
      returned a row or ran a SELECT; a SELECT that raised nothing is always
      described by its first parameter set's columns (cursor.c:605-631). */
  lemma {:induction false} RunAllKeepsDescription(kind: StatementKind, multiple: bool, detectTypes: bv32, converters: map<seq<char>, Converter>, runs: seq<Run>, p: Progress)
    requires p.st.description.Some?
    ensures RunAll(kind, multiple, detectTypes, converters, runs, p).st.description == p.st.description
    decreases |runs|
  {
    if runs != [] && p.error.None? {
      RunOnceDescription(kind, multiple, detectTypes, converters, runs[0], p);
      RunAllKeepsDescription(kind, multiple, detectTypes, converters, runs[1..], RunOnce(kind, multiple, detectTypes, converters, runs[0], p));
    }
  }

  lemma SelectDescription(multiple: bool, beginStatement: bool, detectTypes: bv32, converters: map<seq<char>, Converter>, runs: seq<Run>, st: CursorState)
    requires runs != [] && (runs[0].steps == [] || !runs[0].steps[0].ErrorStep?)
    requires !(beginStatement && multiple)
    ensures Execution(Select, multiple, beginStatement, detectTypes, converters, runs, st).st.description == Some(ColumnNames(runs[0].columns))
  {
    var p0 := Prologue(Select, multiple, beginStatement, st);
    RunAllKeepsDescription(Select, multiple, detectTypes, converters, runs[1..], RunOnce(Select, multiple, detectTypes, converters, runs[0], p0));
  }

  /** The description passes over `runs` leave when they start without one:
      the column names of the first pass whose first step returns a row, or
      of the first pass of a SELECT, unless a pass before it, or that pass
      itself, fails at its first step; none when no pass qualifies. */
  function DescriptionOf(kind: StatementKind, runs: seq<Run>): Option<seq<Option<seq<char>>>>
  {
    if runs == [] then None
    else
      var step := NextStep(runs[0].steps);
      if step.ErrorStep? then None
      else if step.RowStep? || kind == Select then Some(ColumnNames(runs[0].columns))
      else DescriptionOf(kind, runs[1..])
  }

  /** One pass leaves the description as the first step decides, and
      raises exactly when that step fails or returns a row to
      `executemany`. */
  lemma RunOnceDescription(kind: StatementKind, multiple: bool, detectTypes: bv32, converters: map<seq<char>, Converter>, run: Run, p: Progress)
    ensures var q := RunOnce(kind, multiple, detectTypes, converters, run, p);
      var step := NextStep(run.steps);
      && (q.error.None? <==> !step.ErrorStep? && !(step.RowStep? && multiple))
      && q.st.description == if step.ErrorStep? then p.st.description else Described(kind, step, run.columns, p.st).description
  {
  }

  lemma {:induction false} RunAllDescription(kind: StatementKind, multiple: bool, detectTypes: bv32, converters: map<seq<char>, Converter>, runs: seq<Run>, p: Progress)
    requires p.st.description.None? && p.error.None?
    ensures RunAll(kind, multiple, detectTypes, converters, runs, p).st.description == DescriptionOf(kind, runs)
    decreases |runs|
  {
    if runs != [] {
      var q := RunOnce(kind, multiple, detectTypes, converters, runs[0], p);
      var step := NextStep(runs[0].steps);
      RunOnceDescription(kind, multiple, detectTypes, converters, runs[0], p);
      assert RunAll(kind, multiple, detectTypes, converters, runs, p) == RunAll(kind, multiple, detectTypes, converters, runs[1..], q);
      if step.ErrorStep? {
      } else if step.RowStep? || kind == Select {
        RunAllKeepsDescription(kind, multiple, detectTypes, converters, runs[1..], q);
      } else {
        assert DescriptionOf(kind, runs) == DescriptionOf(kind, runs[1..]);
        RunAllDescription(kind, multiple, detectTypes, converters, runs[1..], q);
      }
    }
  }

  /** The description `_query_execute` leaves: none when `executemany` is
      refused a SELECT, otherwise that of the first pass that returns a row
      or runs a SELECT before any pass fails (cursor.c:487-490, 524-530,
      605-631). */
  lemma ExecutionDescription(kind: StatementKind, multiple: bool, beginStatement: bool, detectTypes: bv32, converters: map<seq<char>, Converter>, runs: seq<Run>, st: CursorState)
    ensures Execution(kind, multiple, beginStatement, detectTypes, converters, runs, st).st.description
         == if beginStatement && kind == Select && multiple then None else DescriptionOf(kind, runs)
  {
    var p0 := Prologue(kind, multiple, beginStatement, st);
    if !(beginStatement && kind == Select && multiple) {
      RunAllDescription(kind, multiple, detectTypes, converters, runs, p0);
    }
  }

  class Connection {
    /** Whether an isolation level is set (`begin_statement` is not NULL). */
    var beginStatement: bool
    var inTransaction: bool
    var detectTypes: bv32

    constructor (beginStatement: bool, detectTypes: bv32)
      ensures this.beginStatement == beginStatement && this.detectTypes == detectTypes && !inTransaction
    {
      this.beginStatement := beginStatement;
      this.detectTypes := detectTypes;
      inTransaction := false;
    }
  }

  class Cursor {
    const connection: Connection
    /** Whether `self->statement` is set. */
    var hasStatement: bool
    /** What the active statement's next steps will report. */
    var pending: seq<Step>
    /** The lookahead row, `self->next_row`. */
    var nextRow: Option<Row>
    var description: Option<seq<Option<seq<char>>>>
    var rowcount: int
    var lastrowid: Option<int>
    var rowCastMap: CastMap
    var arraysize: int

    /** A buffered row always belongs to an active statement: `cursor_iternext`
        steps `self->statement` whenever a row is buffered, which C can do
        only because a statement is then in place. */
    ghost predicate Valid()
      reads this
    {
      nextRow.Some? ==> hasStatement
    }

    ghost function Observed(): CursorState
      reads this, connection
    {
      CursorState(connection.inTransaction, hasStatement, pending, nextRow, description, rowcount, lastrowid, rowCastMap)
    }

    /** The rows iteration will still hand out. */
    ghost function Remaining(): seq<Row>
      reads this
    {
      RemainingOf(nextRow, pending)
    }

    /** Whether iteration will end in an exception rather than plain
        exhaustion. */
    ghost predicate EndsInError()
      reads this
    {
      EndsInErrorOf(nextRow, pending)
    }

    /** `cursor_init` (cursor.c:77-115). */
    constructor (connection: Connection)
      ensures this.connection == connection && Valid()
      ensures !hasStatement && nextRow.None? && description.None? && lastrowid.None?
      ensures rowcount == -1 && arraysize == 1 && rowCastMap == Built([])
    {
      this.connection := connection;
      hasStatement := false;
      pending := [];
      nextRow := None;
      rowCastMap := Built([]);
      description := None;
      lastrowid := None;
      arraysize := 1;
      rowcount := -1;
    }

    /** `_query_execute`: `multiple` is set for `executemany`; `execute`
        passes a single parameter set. */
    method QueryExecute(operation: seq<char>, multiple: bool, runs: seq<Run>, converters: map<seq<char>, Converter>) returns (r: Outcome<()>)
      requires Valid()
      requires !multiple ==> |runs| == 1
      modifies this, connection
      ensures Valid()
      ensures unchanged(connection`beginStatement, connection`detectTypes) && arraysize == old(arraysize)
      ensures var p := Execution(StatementKindOf(operation), multiple, connection.beginStatement, connection.detectTypes, converters, runs, old(Observed()));
        Observed() == p.st && r == (if p.error.Some? then Raised(p.error.value) else Ok(()))
    {
      ghost var start := Observed();
      var kind := DetectStatementType(operation);
      var rejected := Prepare(kind, multiple);
      if rejected {
        return Raised(ProgrammingError);
      }
      var total := 0;
      var i := 0;
      while i < |runs|
        invariant i <= |runs| && Valid()
        invariant unchanged(connection`beginStatement, connection`detectTypes) && arraysize == old(arraysize)
        invariant RunAll(kind, multiple, connection.detectTypes, converters, runs[i..], Progress(Observed(), total, None))
               == Execution(kind, multiple, connection.beginStatement, connection.detectTypes, converters, runs, start)
        invariant i < |runs| ==> hasStatement && nextRow.None?
      {
        assert runs[i..][1..] == runs[i + 1..];
        ghost var before := Progress(Observed(), total, None);
        var error;
        total, error := RunParameters(kind, multiple, runs[i], converters, total);
        assert RunAll(kind, multiple, connection.detectTypes, converters, runs[i..], before)
            == RunAll(kind, multiple, connection.detectTypes, converters, runs[i + 1..], Progress(Observed(), total, error));
        if error.Some? {
          return Raised(error.value);
        }
        i := i + 1;
      }
      r := Ok(());
    }

    /** The prologue: drop the buffered row, reset the description and
        `rowcount`, and apply the transaction switch; `rejected` when
        `executemany` is given a SELECT. */
    method Prepare(kind: StatementKind, multiple: bool) returns (rejected: bool)
      modifies this`nextRow, this`description, this`rowcount, this`hasStatement, this`pending, connection`inTransaction
      ensures Valid()
      ensures var p := Prologue(kind, multiple, connection.beginStatement, old(Observed()));
        Observed() == p.st && rejected == p.error.Some? && (p.error.Some? ==> p.error.value == ProgrammingError)
      ensures !rejected ==> hasStatement && nextRow.None? && Prologue(kind, multiple, connection.beginStatement, old(Observed())).total == 0
    {
      nextRow := None;
      description := None;
      rowcount := -1;
      if connection.beginStatement {
        var action := TransactionStep(kind, connection.inTransaction, multiple);
        match action {
          case Begin =>
            connection.inTransaction := true;
          case Commit =>
            connection.inTransaction := false;
          case RejectSelect =>
            return true;
          case NoAction =>
        }
      }
      hasStatement := true;
      pending := [];
      rejected := false;
    }

    /** One pass of the loop over parameter sets: build the row cast map,
        step the statement, describe its columns, buffer the first row, and
        update `rowcount` and `lastrowid`. */
    method RunParameters(kind: StatementKind, multiple: bool, run: Run, converters: map<seq<char>, Converter>, total: int)
      returns (newTotal: int, error: Option<Error>)
      requires hasStatement && nextRow.None?
      modifies this`rowCastMap, this`pending, this`description, this`nextRow, this`hasStatement, this`rowcount, this`lastrowid
      ensures Valid()
      ensures Progress(Observed(), newTotal, error) == RunOnce(kind, multiple, connection.detectTypes, converters, run, Progress(old(Observed()), total, None))
      ensures error.None? && multiple ==> hasStatement && nextRow.None?
    {
      newTotal := total;
      PrepareRun(run, converters);
      var step := NextStep(run.steps);
      if step.ErrorStep? {
        return total, Some(DatabaseError);
      }
      Describe(kind, step, run.columns);
      if step.RowStep? && multiple {
        return total, Some(ProgrammingError);
      }
      newTotal := Settle(kind, multiple, run, step, total);
      error := None;
    }

    /** Builds the row cast map and makes the run's later steps pending. */
    method PrepareRun(run: Run, converters: map<seq<char>, Converter>)
      modifies this`rowCastMap, this`pending
      ensures Observed() == Prepared(connection.detectTypes, converters, run, old(Observed()))
    {
      var castMap := BuildRowCastMap(connection.detectTypes, run.columns, converters);
      if !castMap.Unchanged? {
        rowCastMap := castMap;
      }
      pending := LaterSteps(run.steps);
    }

    /** Fills in the description if it is still missing. */
    method Describe(kind: StatementKind, step: Step, columns: seq<Column>)
      modifies this`description
      ensures Observed() == Described(kind, step, columns, old(Observed()))
    {
      if step.RowStep? || kind == Select {
        if description.None? {
          var names := DescribeColumns(columns);
          description := Some(names);
        }
      }
    }

    /** Buffers the first row or releases the statement, and updates the
        change count and the last row id. */
    method Settle(kind: StatementKind, multiple: bool, run: Run, step: Step, total: int) returns (newTotal: int)
      requires hasStatement && nextRow.None? && !step.ErrorStep? && !(step.RowStep? && multiple)
      modifies this`nextRow, this`hasStatement, this`pending, this`rowcount, this`lastrowid
      ensures Valid()
      ensures Progress(Observed(), newTotal, None) == Settled(kind, multiple, run, step, old(Observed()), total)
      ensures multiple ==> hasStatement && nextRow.None?
    {
      newTotal := total;
      if step.RowStep? {
        nextRow := Some(step.row);
      } else if !multiple {
        hasStatement := false;
        pending := [];
      }
      if IsDml(kind) {
        newTotal := total + run.changes;
        rowcount := newTotal;
      }
      if kind == Insert {
        lastrowid := Some(run.lastInsertRowid);
      } else {
        lastrowid := None;
      }
      if multiple {
        pending := [];
      }
    }

    /** The description's column names, one `_build_column_name` per result
        column. */
    static method DescribeColumns(columns: seq<Column>) returns (names: seq<Option<seq<char>>>)
      ensures names == ColumnNames(columns)
    {
      names := [];
      var i := 0;
      while i < |columns|
        invariant i <= |columns| && |names| == i
        invariant forall k :: 0 <= k < i ==> names[k] == ColumnName(columns[k])
      {
        var name := BuildColumnName(columns[i].name);
        if columns[i].name.Some? {
          CutIsUnique(columns[i].name.value, name.value, CutOf(columns[i].name.value));
        }
        names := names + [name];
        i := i + 1;
      }
    }

    /** `cursor_execute`. */
    method Execute(operation: seq<char>, run: Run, converters: map<seq<char>, Converter>) returns (r: Outcome<()>)
      requires Valid()
      modifies this, connection
      ensures Valid()
      ensures unchanged(connection`beginStatement, connection`detectTypes) && arraysize == old(arraysize)
      ensures var p := Execution(StatementKindOf(operation), false, connection.beginStatement, connection.detectTypes, converters, [run], old(Observed()));
        Observed() == p.st && r == (if p.error.Some? then Raised(p.error.value) else Ok(()))
    {
      r := QueryExecute(operation, false, [run], converters);
    }

    /** `cursor_executemany`. */
    method ExecuteMany(operation: seq<char>, runs: seq<Run>, converters: map<seq<char>, Converter>) returns (r: Outcome<()>)
      requires Valid()
      modifies this, connection
      ensures Valid()
      ensures unchanged(connection`beginStatement, connection`detectTypes) && arraysize == old(arraysize)
      ensures var p := Execution(StatementKindOf(operation), true, connection.beginStatement, connection.detectTypes, converters, runs, old(Observed()));
        Observed() == p.st && r == (if p.error.Some? then Raised(p.error.value) else Ok(()))
    {
      r := QueryExecute(operation, true, runs, converters);
    }

    /** `cursor_iternext` (cursor.c:795-836): hands out the buffered row and
        steps the statement to refill the buffer; at the end it resets and
        releases the statement. */
    method IterNext() returns (r: IterResult)
      requires Valid()
      modifies this`nextRow, this`pending, this`hasStatement
      ensures Valid()
      ensures r == (if old(Remaining()) != [] then Yield(old(Remaining())[0])
                    else if old(EndsInError()) then Fail(DatabaseError) else Stop)
      ensures Remaining() == (if r.Yield? then old(Remaining())[1..] else [])
      ensures EndsInError() == (r.Yield? && old(EndsInError()))
      ensures r.Stop? ==> !hasStatement
      ensures !r.Stop? ==> hasStatement == old(hasStatement)
    {
      if nextRow.None? {
        if hasStatement {
          hasStatement := false;
          pending := [];
        }
        return Stop;
      }
      var row := nextRow.value;
      nextRow := None;
      var step := NextStep(pending);
      pending := LaterSteps(pending);
      if step.ErrorStep? {
        return Fail(DatabaseError);
      }
      if step.RowStep? {
        nextRow := Some(step.row);
      }
      r := Yield(row);
    }

    /** `cursor_fetchone` (cursor.c:838-849): the next row, or None at the
        end. */
    method FetchOne() returns (r: Outcome<Option<Row>>)
      requires Valid()
      modifies this`nextRow, this`pending, this`hasStatement
      ensures Valid()
      ensures r == (if old(Remaining()) != [] then Ok(Some(old(Remaining())[0]))
                    else if old(EndsInError()) then Raised(DatabaseError) else Ok(None))
      ensures Remaining() == (if r.Ok? && r.value.Some? then old(Remaining())[1..] else [])
      ensures EndsInError() == (r.Ok? && r.value.Some? && old(EndsInError()))
      ensures r == Ok(None) ==> !hasStatement
      ensures r != Ok(None) ==> hasStatement == old(hasStatement)
    {
      var next := IterNext();
      match next {
        case Yield(row) => r := Ok(Some(row));
        case Stop => r := Ok(None);
        case Fail(e) => r := Raised(e);
      }
    }

    /** `cursor_fetchmany` (cursor.c:851-890): up to `size` rows, `arraysize`
        when no size is given. The counter is compared for equality after
        each row, so a size of zero or less fetches every remaining row. An
        exception discards the rows collected so far. */
    method FetchMany(size: Option<int>) returns (r: Outcome<seq<Row>>)
      requires Valid()
      modifies this`nextRow, this`pending, this`hasStatement
      ensures Valid()
      ensures var maxrows := if size.Some? then size.value else old(arraysize);
        if 0 < maxrows <= |old(Remaining())| then
          r == Ok(old(Remaining())[..maxrows]) && Remaining() == old(Remaining())[maxrows..] && EndsInError() == old(EndsInError())
        else
          r == (if old(EndsInError()) then Raised(DatabaseError) else Ok(old(Remaining())))
          && Remaining() == [] && !EndsInError()
      ensures r.Raised? ==> hasStatement == old(hasStatement)
      ensures var maxrows := if size.Some? then size.value else old(arraysize);
        if 0 < maxrows <= |old(Remaining())| then hasStatement == old(hasStatement) else r.Ok? ==> !hasStatement
    {
      var maxrows := if size.Some? then size.value else arraysize;
      ghost var had := hasStatement;
      ghost var rows := Remaining();
      ghost var fails := EndsInError();
      var list: seq<Row> := [];
      var counter := 0;
      var failed: Option<Error> := None;
      while true
        invariant Valid()
        invariant counter <= |rows| && list == rows[..counter]
        invariant Remaining() == rows[counter..] && EndsInError() == fails
        invariant 0 < maxrows ==> counter < maxrows
        invariant hasStatement == had
        decreases |Remaining()|
      {
        var next := IterNext();
        if !next.Yield? {
          // the rows ran out before `maxrows` of them were collected
          assert counter == |rows| && list == rows;
          if next.Fail? {
            failed := Some(next.error);
          }
          break;
        }
        assert rows[counter..][1..] == rows[counter + 1..];
        assert rows[..counter + 1] == rows[..counter] + [next.row];
        list := list + [next.row];
        counter := counter + 1;
        if counter == maxrows {
          break;
        }
      }
      if failed.Some? {
        r := Raised(failed.value);
      } else {
        r := Ok(list);
      }
    }

    /** `cursor_fetchall` (cursor.c:892-919): every remaining row. */
    method FetchAll() returns (r: Outcome<seq<Row>>)
      requires Valid()
      modifies this`nextRow, this`pending, this`hasStatement
      ensures Valid()
      ensures r == (if old(EndsInError()) then Raised(DatabaseError) else Ok(old(Remaining())))
      ensures Remaining() == [] && !EndsInError()
      ensures r.Raised? ==> hasStatement == old(hasStatement)
      ensures r.Ok? ==> !hasStatement
    {
      ghost var had := hasStatement;
      ghost var rows := Remaining();
      ghost var fails := EndsInError();
      var list: seq<Row> := [];
      var failed: Option<Error> := None;
      var more := true;
      while more
        invariant Valid()
        invariant more ==> list + Remaining() == rows && EndsInError() == fails && failed.None?
        invariant !more ==> Remaining() == [] && !EndsInError()
        invariant !more ==> failed == (if fails then Some(DatabaseError) else None)
        invariant !more ==> list == rows
        invariant more || failed.Some? ==> hasStatement == had
        invariant !more && failed.None? ==> !hasStatement
        decreases more, |Remaining()|
      {
        ghost var before := Remaining();
        var next := IterNext();
        if next.Yield? {
          assert before == [next.row] + Remaining();
          list := list + [next.row];
        } else {
          assert before == [];
          more := false;
          if next.Fail? {
            failed := Some(next.error);
          }
        }
      }
      if failed.Some? {
        r := Raised(failed.value);
      } else {
        r := Ok(list);
      }
    }
  }
}
