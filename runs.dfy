/** The run driver of mf6het3d/run.py: which scenarios to execute, the runs
    table with its status column, and how each executed scenario moves from
    `pending` through `running` to `failed`, `alert` or `success`. */
module Runs {
  import opened Basics

  datatype Status = Pending | Running | Failed | Alert | Success

  /** The text stored in the `status` column. */
  function StatusName(s: Status): string
  {
    match s
    case Pending => "pending"
    case Running => "running"
    case Failed => "failed"
    case Alert => "alert"
    case Success => "success"
  }

  /** Different statuses are written differently in the runs file. */
  lemma StatusNamesDistinct(s: Status, t: Status)
    ensures StatusName(s) == StatusName(t) ==> s == t
  {
  }

  /** The statuses a row ends in once its scenario has been executed. */
  predicate IsTerminal(s: Status)
  {
    s == Failed || s == Alert || s == Success
  }

  /** `discrepancy_threshold`, a percentage. */
  const DiscrepancyThreshold: real := 1.0

  /** What executing one simulation reports: whether MODFLOW terminated
      normally, and the `PERCENT_DISCREPANCY` columns of the volume and flux budgets. */
  datatype Outcome = Outcome(terminatedNormally: bool, volDiscrepancy: seq<real>, fluxDiscrepancy: seq<real>)

  /** `np.all(xs < t)`: true for an empty array. */
  predicate AllBelow(xs: seq<real>, t: real)
  {
    forall i :: 0 <= i < |xs| ==> xs[i] < t
  }

  /** The status an executed scenario ends in. */
  function Verdict(o: Outcome): Status
  {
    if !o.terminatedNormally then Failed
    else if !AllBelow(o.volDiscrepancy, DiscrepancyThreshold) || !AllBelow(o.fluxDiscrepancy, DiscrepancyThreshold) then Alert
    else Success
  }

  /** `success` exactly when the run terminated normally and every budget
      discrepancy is strictly below one percent; `failed` exactly when it did not terminate normally. */
  lemma VerdictCases(o: Outcome)
    ensures IsTerminal(Verdict(o))
    ensures Verdict(o) == Failed <==> !o.terminatedNormally
    ensures Verdict(o) == Success <==>
              o.terminatedNormally
              && (forall i :: 0 <= i < |o.volDiscrepancy| ==> o.volDiscrepancy[i] < 1.0)
              && (forall i :: 0 <= i < |o.fluxDiscrepancy| ==> o.fluxDiscrepancy[i] < 1.0)
    ensures Verdict(o) == Alert <==>
              o.terminatedNormally
              && ((exists i :: 0 <= i < |o.volDiscrepancy| && o.volDiscrepancy[i] >= 1.0)
                  || (exists i :: 0 <= i < |o.fluxDiscrepancy| && o.fluxDiscrepancy[i] >= 1.0))
  {
  }

  /** A discrepancy of exactly one percent is already an alert. */
  lemma ThresholdIsStrict()
    ensures Verdict(Outcome(true, [1.0], [])) == Alert
    ensures Verdict(Outcome(true, [0.99], [0.5])) == Success
    ensures Verdict(Outcome(true, [], [])) == Success
  {
    assert !AllBelow([1.0], DiscrepancyThreshold) by {
      assert [1.0][0] == 1.0;
    }
  }

  // ---------------------------------------------------------------------
  // Choosing the scenarios to execute

  /** The command-line options: `--start`, `--end`, `--run`, `--clean`. */
  datatype Args = Args(start: Option<int>, end: Option<int>, run: bool, clean: bool)

  /** Python truthiness of an optional integer: given and non-zero. */
  predicate Truthy(x: Option<int>)
  {
    x.Some? && x.value != 0
  }

  /** `np.arange(lo, hi, 1)`: empty when `hi <= lo`. */
  function Range(lo: int, hi: int): seq<int>
  {
    if hi <= lo then [] else seq(hi - lo, i requires 0 <= i < hi - lo => lo + i)
  }

  /** The range is `lo, lo + 1, ..., hi - 1`: ascending, without repetition. */
  lemma RangeMembers(lo: int, hi: int)
    ensures |Range(lo, hi)| == if hi <= lo then 0 else hi - lo
    ensures forall x :: x in Range(lo, hi) <==> lo <= x < hi
    ensures forall a, b :: 0 <= a < b < |Range(lo, hi)| ==> Range(lo, hi)[a] < Range(lo, hi)[b]
  {
    if lo < hi {
      forall x | lo <= x < hi
        ensures x in Range(lo, hi)
      {
        assert Range(lo, hi)[x - lo] == x;
      }
    }
  }

  /** `indexes is None` (every scenario in table order) or the listed positions. */
  datatype Selection = AllScenarios | Listed(indexes: seq<int>)

  datatype RunError =
      /** The start-only branch reads `SCENARIOS`, a name that is never defined. */
    | ScenariosUndefined
      /** `scenariosdf.iloc[index]` with an index outside `-n .. n - 1`. */
    | IndexOutOfRange(index: int)
      /** `warnings.warn` without `import warnings`, after a failed run. */
    | WarningsUndefined(index: int)

  /** The `if args.start and args.end / elif args.start / elif args.end / else` chain. */
  function SelectIndexes(a: Args): Result<Selection, RunError>
  {
    if Truthy(a.start) && Truthy(a.end) then Ok(Listed(Range(a.start.value, a.end.value)))
    else if Truthy(a.start) then Err(ScenariosUndefined)
    else if Truthy(a.end) then Ok(Listed(Range(0, a.end.value)))
    else Ok(AllScenarios)
  }

  /** Both bounds run `[start, end)`, only `end` runs `[0, end)`, neither runs
      everything, and a start of 0 counts as no start. */
  lemma IndexSelection(a: Args)
    ensures Truthy(a.start) && Truthy(a.end) ==> SelectIndexes(a) == Ok(Listed(Range(a.start.value, a.end.value)))
    ensures !Truthy(a.start) && Truthy(a.end) ==> SelectIndexes(a) == Ok(Listed(Range(0, a.end.value)))
    ensures !Truthy(a.start) && !Truthy(a.end) ==> SelectIndexes(a) == Ok(AllScenarios)
    ensures Truthy(a.start) && !Truthy(a.end) ==> SelectIndexes(a) == Err(ScenariosUndefined)
    ensures SelectIndexes(a.(start := Some(0))) == SelectIndexes(a.(start := None))
  {
  }

  /** The scenarios a selection executes, in order; `iterrows` visits the labels `0 .. n - 1`. */
  function Indexes(sel: Selection, n: nat): seq<int>
  {
    match sel
    case AllScenarios => Range(0, n)
    case Listed(xs) => xs
  }

  /** `iloc` accepts the positions `-n .. n - 1`. */
  predicate InTable(index: int, n: nat)
  {
    -(n as int) <= index < n
  }

  /** The row `iloc[index]` reads: Python's negative positions count from the end. */
  function Position(index: int, n: nat): (p: nat)
    requires InTable(index, n)
    ensures p < n
    ensures index >= 0 ==> p == index
    ensures index < 0 ==> p + (-index) == n
  {
    if index < 0 then index + n else index
  }

  // ---------------------------------------------------------------------
  // The runs table and the file it is saved to

  /** The status column of `runsdf`, keyed by row label, and every version of
      it written to `runs.csv`, oldest first. */
  datatype Table = Table(status: map<int, Status>, saved: seq<map<int, Status>>)

  /** `scenariosdf.copy()` with `status = 'pending'` on the rows `0 .. n - 1`. */
  function AllPending(n: nat): map<int, Status>
  {
    if n == 0 then map[] else AllPending(n - 1)[n - 1 := Pending]
  }

  lemma {:induction false} AllPendingAre(n: nat)
    ensures forall i :: i in AllPending(n) <==> 0 <= i < n
    ensures forall i :: i in AllPending(n) ==> AllPending(n)[i] == Pending
  {
    if n > 0 {
      AllPendingAre(n - 1);
    }
  }

  /** A fresh table is written out at once; a reloaded one is used as read. */
  function InitialTable(a: Args, n: nat, stored: Option<map<int, Status>>): Table
  {
    if stored.None? || a.clean then Table(AllPending(n), [AllPending(n)]) else Table(stored.value, [])
  }

  /** Without a runs file, or with `--clean`, every scenario starts `pending`;
      otherwise the stored statuses are reused unchanged. */
  lemma InitialTableCases(a: Args, n: nat, stored: Option<map<int, Status>>)
    ensures stored.None? || a.clean ==>
              (forall i :: i in InitialTable(a, n, stored).status <==> 0 <= i < n)
              && (forall i :: i in InitialTable(a, n, stored).status ==> InitialTable(a, n, stored).status[i] == Pending)
    ensures stored.Some? && !a.clean ==> InitialTable(a, n, stored).status == stored.value
  {
    AllPendingAre(n);
  }

  /** One executed scenario (the corrected behaviour): `running` is written
      out, then the verdict is written out. */
  function RunOne(t: Table, index: int, o: Outcome): Table
  {
    var running := t.status[index := Running];
    var final := running[index := Verdict(o)];
    Table(final, t.saved + [running, final])
  }

  /** The state after the loop over `indexes`, or at the error that stopped it. */
  datatype RunLog = RunLog(table: Table, error: Option<RunError>)

  /** The loop over the indexes (the corrected behaviour): an index outside
      the scenario table stops it; a failed run does not. */
  function RunAll(t: Table, indexes: seq<int>, n: nat, outcomes: seq<Outcome>): RunLog
    requires |outcomes| == n
    decreases |indexes|
  {
    if |indexes| == 0 then RunLog(t, None)
    else
      var prev := RunAll(t, indexes[..|indexes| - 1], n, outcomes);
      var index := indexes[|indexes| - 1];
      if prev.error.Some? then prev
      else if !InTable(index, n) then RunLog(prev.table, Some(IndexOutOfRange(index)))
      else RunLog(RunOne(prev.table, index, outcomes[Position(index, n)]), None)
  }

  /** The class around `runsdf`: the status column it updates in place and the file it saves to. */
  class RunsTable {
    var status: map<int, Status>
    var saved: seq<map<int, Status>>

    /** The runs file is missing or `--clean` was given. */
    constructor Fresh(n: nat)
      ensures status == AllPending(n) && saved == [AllPending(n)]
    {
      status := AllPending(n);
      saved := [AllPending(n)];
    }

    /** The runs file is read back. */
    constructor Reload(stored: map<int, Status>)
      ensures status == stored && saved == []
    {
      status := stored;
      saved := [];
    }

    function Snapshot(): Table
      reads this
    {
      Table(status, saved)
    }

    /** `runsdf.to_csv(...)`. */
    method Save()
      modifies this
      ensures status == old(status) && saved == old(saved) + [status]
    {
      saved := saved + [status];
    }

    /** `runsdf.loc[index, 'status'] = s` followed by `to_csv`: a missing label adds a row. */
    method Record(index: int, s: Status)
      modifies this
      ensures status == old(status)[index := s] && saved == old(saved) + [status]
    {
      status := status[index := s];
      Save();
    }

    /** The body of the loop for one scenario whose run reported `o`. */
    method RunScenario(index: int, o: Outcome)
      modifies this
      ensures Snapshot() == RunOne(old(Snapshot()), index, o)
    {
      Record(index, Running);
      if !o.terminatedNormally {
        Record(index, Failed);
        return;
      }
      if !AllBelow(o.volDiscrepancy, DiscrepancyThreshold) || !AllBelow(o.fluxDiscrepancy, DiscrepancyThreshold) {
        Record(index, Alert);
      } else {
        Record(index, Success);
      }
    }

    /** `for index in indexes`, with `outcomes[p]` what the run of the scenario at position `p` reports. */
    method RunIndexes(indexes: seq<int>, n: nat, outcomes: seq<Outcome>) returns (error: Option<RunError>)
      requires |outcomes| == n
      modifies this
      ensures RunLog(Snapshot(), error) == RunAll(old(Snapshot()), indexes, n, outcomes)
    {
      var k := 0;
      while k < |indexes|
        invariant 0 <= k <= |indexes|
        invariant RunAll(old(Snapshot()), indexes[..k], n, outcomes) == RunLog(Snapshot(), None)
      {
        var index := indexes[k];
        assert indexes[..k + 1][..k] == indexes[..k];
        if !InTable(index, n) {
          error := Some(IndexOutOfRange(index));
          RunAllStops(old(Snapshot()), indexes, k + 1, n, outcomes);
          return;
        }
        RunScenario(index, outcomes[Position(index, n)]);
        k := k + 1;
      }
      assert indexes[..k] == indexes;
      error := None;
    }
  }

  lemma {:induction false} RunAllStops(t: Table, indexes: seq<int>, k: nat, n: nat, outcomes: seq<Outcome>)
    requires |outcomes| == n && k <= |indexes|
    requires RunAll(t, indexes[..k], n, outcomes).error.Some?
    ensures RunAll(t, indexes, n, outcomes) == RunAll(t, indexes[..k], n, outcomes)
    decreases |indexes| - k
  {
    if k < |indexes| {
      assert indexes[..k + 1][..k] == indexes[..k];
      RunAllStops(t, indexes, k + 1, n, outcomes);
    } else {
      assert indexes[..k] == indexes;
    }
  }

  /** What the script ends with: nothing executed, or the runs table and the error that stopped the loop. */
  datatype Report = NotRun | Ran(table: Table, error: Option<RunError>)

  function ExecuteSpec(a: Args, n: nat, stored: Option<map<int, Status>>, outcomes: seq<Outcome>): Result<Report, RunError>
    requires |outcomes| == n
  {
    match SelectIndexes(a)
    case Err(e) => Err(e)
    case Ok(sel) =>
      if !a.run then Ok(NotRun)
      else
        var log := RunAll(InitialTable(a, n, stored), Indexes(sel, n), n, outcomes);
        Ok(Ran(log.table, log.error))
  }

  /** The module-level script for a scenario table of `n` rows, a runs file
      holding `stored` if there is one, and the outcome each run would report. */
  method Execute(a: Args, n: nat, stored: Option<map<int, Status>>, outcomes: seq<Outcome>)
    returns (r: Result<Report, RunError>)
    requires |outcomes| == n
    ensures r == ExecuteSpec(a, n, stored, outcomes)
  {
    var sel := SelectIndexes(a);
    if sel.Err? {
      return Err(sel.error);
    }
    if !a.run {
      return Ok(NotRun);
    }
    var table: RunsTable;
    if stored.None? || a.clean {
      table := new RunsTable.Fresh(n);
    } else {
      table := new RunsTable.Reload(stored.value);
    }
    var error := table.RunIndexes(Indexes(sel.value, n), n, outcomes);
    return Ok(Ran(table.Snapshot(), error));
  }

  // ---------------------------------------------------------------------
  // Properties of the run loop

  /** Without `--run` nothing is executed and no table is written. */
  lemma NoRunWithoutFlag(a: Args, n: nat, stored: Option<map<int, Status>>, outcomes: seq<Outcome>)
    requires |outcomes| == n && !a.run
    ensures ExecuteSpec(a, n, stored, outcomes).Ok? ==> ExecuteSpec(a, n, stored, outcomes).value == NotRun
  {
  }

  /** One scenario writes `running` for its row, then its verdict, and touches no other row. */
  lemma RunOneRow(t: Table, index: int, o: Outcome)
    ensures RunOne(t, index, o).status.Keys == t.status.Keys + {index}
    ensures RunOne(t, index, o).status[index] == Verdict(o)
    ensures forall j :: j in t.status && j != index ==> RunOne(t, index, o).status[j] == t.status[j]
    ensures |RunOne(t, index, o).saved| == |t.saved| + 2
    ensures RunOne(t, index, o).saved[..|t.saved|] == t.saved
    ensures RunOne(t, index, o).saved[|t.saved|][index] == Running
    ensures RunOne(t, index, o).saved[|t.saved| + 1] == RunOne(t, index, o).status
  {
  }

  /** The loop touches only the rows it executes, leaves each executed row
      terminal, and stops only at an index outside the table. */
  lemma {:induction false} RunAllRows(t: Table, indexes: seq<int>, n: nat, outcomes: seq<Outcome>)
    requires |outcomes| == n
    ensures forall j :: j in t.status ==> j in RunAll(t, indexes, n, outcomes).table.status
    ensures forall j :: j in RunAll(t, indexes, n, outcomes).table.status ==> j in t.status || j in indexes
    ensures forall j :: j in t.status && j !in indexes ==> RunAll(t, indexes, n, outcomes).table.status[j] == t.status[j]
    ensures RunAll(t, indexes, n, outcomes).error.None? ==>
              forall j :: j in indexes ==>
                (j in RunAll(t, indexes, n, outcomes).table.status
                 && IsTerminal(RunAll(t, indexes, n, outcomes).table.status[j]))
    ensures RunAll(t, indexes, n, outcomes).error.Some? ==>
              exists j :: j in indexes && !InTable(j, n)
                          && RunAll(t, indexes, n, outcomes).error == Some(IndexOutOfRange(j))
    decreases |indexes|
  {
    if |indexes| > 0 {
      var front := indexes[..|indexes| - 1];
      var index := indexes[|indexes| - 1];
      RunAllRows(t, front, n, outcomes);
      assert forall j :: j in front ==> j in indexes;
      var prev := RunAll(t, front, n, outcomes);
      if prev.error.None? && InTable(index, n) {
        VerdictCases(outcomes[Position(index, n)]);
      }
    }
  }

  /** Every index inside the table is executed: a failed run does not stop the loop. */
  lemma {:induction false} RunAllCompletes(t: Table, indexes: seq<int>, n: nat, outcomes: seq<Outcome>)
    requires |outcomes| == n
    requires forall j :: j in indexes ==> InTable(j, n)
    ensures RunAll(t, indexes, n, outcomes).error == None
    ensures |RunAll(t, indexes, n, outcomes).table.saved| == |t.saved| + 2 * |indexes|
    decreases |indexes|
  {
    if |indexes| > 0 {
      var front := indexes[..|indexes| - 1];
      assert forall j :: j in front ==> j in indexes;
      RunAllCompletes(t, front, n, outcomes);
    }
  }

  /** Running every scenario leaves each of the rows `0 .. n - 1` with its own verdict. */
  lemma RunEverything(a: Args, n: nat, stored: Option<map<int, Status>>, outcomes: seq<Outcome>)
    requires |outcomes| == n && a.run && !Truthy(a.start) && !Truthy(a.end)
    ensures ExecuteSpec(a, n, stored, outcomes).Ok?
    ensures ExecuteSpec(a, n, stored, outcomes).value.Ran?
    ensures ExecuteSpec(a, n, stored, outcomes).value.error == None
    ensures forall j :: 0 <= j < n ==>
              (j in ExecuteSpec(a, n, stored, outcomes).value.table.status
              && IsTerminal(ExecuteSpec(a, n, stored, outcomes).value.table.status[j]))
  {
    RangeMembers(0, n);
    RunAllCompletes(InitialTable(a, n, stored), Range(0, n), n, outcomes);
    RunAllRows(InitialTable(a, n, stored), Range(0, n), n, outcomes);
  }

  // ---------------------------------------------------------------------
  // The failure branch as written

  /** One scenario as the script is written: after an abnormal termination
      `warnings.warn` raises, so the row is left `running` and the script stops. */
  function RunOneAsWritten(t: Table, index: int, o: Outcome): RunLog
  {
    if !o.terminatedNormally then
      var running := t.status[index := Running];
      RunLog(Table(running, t.saved + [running]), Some(WarningsUndefined(index)))
    else RunLog(RunOne(t, index, o), None)
  }

  function RunAllAsWritten(t: Table, indexes: seq<int>, n: nat, outcomes: seq<Outcome>): RunLog
    requires |outcomes| == n
    decreases |indexes|
  {
    if |indexes| == 0 then RunLog(t, None)
    else
      var prev := RunAllAsWritten(t, indexes[..|indexes| - 1], n, outcomes);
      var index := indexes[|indexes| - 1];
      if prev.error.Some? then prev
      else if !InTable(index, n) then RunLog(prev.table, Some(IndexOutOfRange(index)))
      else RunOneAsWritten(prev.table, index, outcomes[Position(index, n)])
  }

  /** Where the script as written disagrees with the corrected loop: exactly on abnormal terminations. */
  lemma AsWrittenDiffersOnlyOnFailure(t: Table, index: int, o: Outcome)
    ensures o.terminatedNormally ==> RunOneAsWritten(t, index, o) == RunLog(RunOne(t, index, o), None)
    ensures !o.terminatedNormally ==> RunOneAsWritten(t, index, o).table.status[index] == Running
    ensures !o.terminatedNormally ==> RunOne(t, index, o).status[index] == Failed
  {
  }

  /** Two scenarios, the first of which fails: as written, the first row
      stays `running` and the second is never executed; the intended loop
      marks the first `failed` and executes the second. */
  lemma FailedRunExample()
    ensures RunAllAsWritten(Table(AllPending(2), []), [0, 1], 2, [Outcome(false, [], []), Outcome(true, [0.5], [0.5])])
            == RunLog(Table(map[0 := Running, 1 := Pending], [map[0 := Running, 1 := Pending]]), Some(WarningsUndefined(0)))
    ensures RunAll(Table(AllPending(2), []), [0, 1], 2, [Outcome(false, [], []), Outcome(true, [0.5], [0.5])]).table.status
            == map[0 := Failed, 1 := Success]
    ensures RunAll(Table(AllPending(2), []), [0, 1], 2, [Outcome(false, [], []), Outcome(true, [0.5], [0.5])]).error == None
  {
    var outcomes := [Outcome(false, [], []), Outcome(true, [0.5], [0.5])];
    var start := Table(AllPending(2), []);
    assert AllPending(2) == map[0 := Pending, 1 := Pending];
    assert [0, 1][..1] == [0];
    assert [0][..0] == [];
    assert RunAllAsWritten(start, [0], 2, outcomes) == RunOneAsWritten(start, 0, outcomes[0]);
    assert map[0 := Pending, 1 := Pending][0 := Running] == map[0 := Running, 1 := Pending];
    assert RunAll(start, [0], 2, outcomes) == RunLog(RunOne(start, 0, outcomes[0]), None);
    assert Verdict(outcomes[1]) == Success by {
      assert AllBelow(outcomes[1].volDiscrepancy, DiscrepancyThreshold);
    }
    assert map[0 := Pending, 1 := Pending][0 := Running][0 := Failed][1 := Running][1 := Success] == map[0 := Failed, 1 := Success];
  }
}
