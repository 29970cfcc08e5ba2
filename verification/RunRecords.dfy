/** Merging an update into a stored run (`Run.UpdateWith`, state/models.go, inside `UpdateRun`,
    state/pg_state_manager.go). Workers write back the whole run they once read, so what a merge
    keeps decides which of their updates survive. */
module RunRecords {
  import opened Statuses

  /** The fields: strings, pointers, and pointers to something that must not be empty to count. The
      deadline is never merged. */
  datatype Field = Text(text: TextField) | Optional(optional: OptionalField) | Filled(filled: FilledField) | ActiveDeadlineSeconds

  datatype TextField =
    | RunId | DefinitionId | Alias | Image | ClusterName | InstanceId | InstanceDnsName | GroupName
    | User | TaskType

  datatype OptionalField =
    | ExitCode | QueuedAt | StartedAt | FinishedAt | Env | ExitReason | Memory | Cpu
    | Gpu | MaxMemoryUsed | MaxCpuUsed | Engine | EphemeralStorage | NodeLifecycle | PodName | Namespace
    | PodEvents | SpawnedRuns | RunExceptions | ExecutableId | ExecutableType | SparkExtension | ExecutionRequestCustom | CpuLimit
    | MetricsUri | MemoryLimit | AttemptCount

  datatype FilledField = Command | CommandHash | CloudTrailNotifications

  /** A string, or what a pointer points to, written out; `Nil` for a nil pointer or a NULL. */
  datatype Value = Nil | Present(content: string)

  type Values = Field -> Value

  datatype Run = Run(values: Values, status: Status) {
    function Get(f: Field): Value { values(f) }
  }

  function Put(values: Values, f: Field, v: Value): Values { (g: Field) => if g == f then v else values(g) }

  /** The update says nothing about the field. An empty string does not, nor a nil pointer, nor an
      empty command, hash or record list. The deadline never counts. */
  predicate Blank(f: Field, v: Value) {
    v == Nil || f.ActiveDeadlineSeconds? || (v == Present("") && (f.Text? || f.Filled?))
  }

  /** The merge of everything that `other` says into `run`. */
  function Updated(run: Run, other: Run): Run {
    Run((f: Field) => if Blank(f, other.Get(f)) then run.Get(f) else other.Get(f), Merge(run.status, other.status))
  }

  lemma FieldMerged(run: Run, other: Run, f: Field)
    ensures Updated(run, other).Get(f) == if Blank(f, other.Get(f)) then run.Get(f) else other.Get(f)
  {}

  /** A string, a command, a hash or a record list stays if the update has none or an empty one; any
      other pointer stays if the update has nil; the deadline always stays. Otherwise the field is
      what the update says. */
  lemma FieldAfter(run: Run, other: Run, f: Field)
    ensures f.Text? || f.Filled? ==>
              Updated(run, other).Get(f) ==
              if other.Get(f) == Nil || other.Get(f) == Present("") then run.Get(f) else other.Get(f)
    ensures f.Optional? ==> Updated(run, other).Get(f) == if other.Get(f) == Nil then run.Get(f) else other.Get(f)
    ensures f.ActiveDeadlineSeconds? ==> Updated(run, other).Get(f) == run.Get(f)
  {}

  /** The update says something about the field. */
  predicate Speaks(f: Field, v: Value) {
    match f
    case Text(_) => v.Present? && v.content != ""
    case Optional(_) => v.Present?
    case Filled(_) => v.Present? && v.content != ""
    case ActiveDeadlineSeconds => false
  }

  lemma BlankIsSilent(f: Field, v: Value)
    ensures Blank(f, v) <==> !Speaks(f, v)
  {}

  /** The two runs cannot be told apart. */
  ghost predicate Same(a: Run, b: Run) {
    a.status == b.status && forall f: Field :: a.Get(f) == b.Get(f)
  }

  // ---- The merge, in place ----

  /** Neither nil nor empty. */
  predicate HasContent(v: Value) { v != Nil && |v.content| > 0 }

  const TEXTS := set t: TextField | true
  const OPTIONALS := set t: OptionalField | true
  const FILLED := set t: FilledField | true

  predicate IsLeft(f: Field, texts: set<TextField>, optionals: set<OptionalField>, filled: set<FilledField>) {
    match f
    case Text(t) => t in texts
    case Optional(t) => t in optionals
    case Filled(t) => t in filled
    case ActiveDeadlineSeconds => true
  }

  /** A run in memory. */
  class Record {
    var values: Values
    var status: Status

    function Contents(): Run
      reads this
    {
      Run(values, status)
    }

    constructor (run: Run)
      ensures Contents() == run
    {
      values, status := run.values, run.status;
    }

    /** All fields but these, and the deadline, are merged. */
    ghost predicate MergedBut(before: Run, other: Run, texts: set<TextField>, optionals: set<OptionalField>, filled: set<FilledField>)
      reads this
    {
      && status == before.status
      && forall f: Field ::
           Contents().Get(f) ==
             if IsLeft(f, texts, optionals, filled) || Blank(f, other.Get(f)) then before.Get(f) else other.Get(f)
    }

    /** Each field is tested as its kind asks for, and written in place; then comes the status. In
        which order the fields come does not matter, as each is written at most once. */
    method UpdateWith(other: Run)
      modifies this
      ensures Same(Contents(), Updated(old(Contents()), other))
    {
      ghost var before := Contents();
      UpdateTexts(other, before);
      UpdateOptionals(other, before);
      UpdateFilled(other, before);
      if other.status == NeedsRetry {
        status := NeedsRetry;
      } else if status.Valid() && other.status.Valid() {
        if Precedence(other.status) > Precedence(status) {
          status := other.status;
        }
      }
    }

    method UpdateTexts(other: Run, ghost before: Run)
      requires Contents() == before
      modifies this
      ensures MergedBut(before, other, {}, OPTIONALS, FILLED)
    {
      var todo := TEXTS;
      while todo != {}
        invariant MergedBut(before, other, todo, OPTIONALS, FILLED)
        decreases todo
      {
        var t :| t in todo;
        if HasContent(other.Get(Text(t))) {
          values := Put(values, Text(t), other.Get(Text(t)));
        }
        todo := todo - {t};
      }
    }

    method UpdateOptionals(other: Run, ghost before: Run)
      requires MergedBut(before, other, {}, OPTIONALS, FILLED)
      modifies this
      ensures MergedBut(before, other, {}, {}, FILLED)
    {
      var todo := OPTIONALS;
      while todo != {}
        invariant MergedBut(before, other, {}, todo, FILLED)
        decreases todo
      {
        var t :| t in todo;
        if other.Get(Optional(t)) != Nil {
          values := Put(values, Optional(t), other.Get(Optional(t)));
        }
        todo := todo - {t};
      }
    }

    method UpdateFilled(other: Run, ghost before: Run)
      requires MergedBut(before, other, {}, {}, FILLED)
      modifies this
      ensures MergedBut(before, other, {}, {}, {})
    {
      var todo := FILLED;
      while todo != {}
        invariant MergedBut(before, other, {}, {}, todo)
        decreases todo
      {
        var t :| t in todo;
        if HasContent(other.Get(Filled(t))) {
          values := Put(values, Filled(t), other.Get(Filled(t)));
        }
        todo := todo - {t};
      }
    }
  }

  // ---- The stored row ----

  /** `RunSelect` does not read the user, and turns NULL into an empty string for texts and for the
      executable. */
  function ReadValue(f: Field, v: Value): Value {
    if f == Text(User) || (v == Nil && (f.Text? || f == Optional(ExecutableId) || f == Optional(ExecutableType))) then Present("")
    else v
  }

  function Loaded(row: Run): Run { Run((f: Field) => ReadValue(f, row.Get(f)), row.status) }

  /** The columns that the UPDATE statement sets. */
  predicate Persisted(f: Field) { f !in {Text(RunId), Text(User), Text(TaskType), Filled(CommandHash)} }

  /** One `UpdateRun`: the locked row is read, the update merged in, and the result written back. */
  function Stored(row: Run, other: Run): Run {
    var merged := Updated(Loaded(row), other);
    Run((f: Field) => if Persisted(f) then merged.Get(f) else row.Get(f), merged.status)
  }

  lemma FieldStored(row: Run, other: Run, f: Field)
    ensures Stored(row, other).Get(f) ==
            if !Persisted(f) then row.Get(f) else if Blank(f, other.Get(f)) then ReadValue(f, row.Get(f)) else other.Get(f)
  {
    FieldMerged(Loaded(row), other, f);
  }

  lemma SeenAfter(row: Run, other: Run, f: Field)
    ensures Seen(Stored(row, other), f) ==
            if !Persisted(f) || Blank(f, other.Get(f)) then Seen(row, f) else ReadValue(f, other.Get(f))
  {
    FieldStored(row, other, f);
  }

  /** The stored columns in full: four are never set, and any other is what the update says, or else
      what was read, where a NULL text or executable was read as the empty string. */
  lemma StoredColumn(row: Run, other: Run, f: Field)
    ensures f in {Text(RunId), Text(User), Text(TaskType), Filled(CommandHash)} ==> Stored(row, other).Get(f) == row.Get(f)
    ensures f !in {Text(RunId), Text(User), Text(TaskType), Filled(CommandHash)} ==>
              Stored(row, other).Get(f) ==
              if Speaks(f, other.Get(f)) then other.Get(f)
              else if row.Get(f) == Nil && (f.Text? || f in {Optional(ExecutableId), Optional(ExecutableType)}) then Present("")
              else row.Get(f)
    ensures Stored(row, other).status == Merge(row.status, other.status)
  {
    FieldStored(row, other, f);
    BlankIsSilent(f, other.Get(f));
  }

  method UpdateRun(row: Run, other: Run) returns (after: Run)
    ensures Same(after, Stored(row, other))
  {
    var existing := new Record(Loaded(row));
    existing.UpdateWith(other);
    var merged := existing.Contents();
    after := Run((f: Field) => if Persisted(f) then merged.Get(f) else row.Get(f), merged.status);
  }

  function Replayed(row: Run, writes: seq<Run>): Run {
    if writes == [] then row else Stored(Replayed(row, writes[..|writes| - 1]), writes[|writes| - 1])
  }

  /** What a reader of the row gets. */
  function Seen(row: Run, f: Field): Value { ReadValue(f, row.Get(f)) }

  /** A reader never gets the user, nor a NULL for a text or for the executable; whatever else is stored
      comes as it is. */
  lemma WhatReadersGet(row: Run, f: Field)
    ensures Seen(row, Text(User)) == Present("")
    ensures f != Text(User) && row.Get(f).Present? ==> Seen(row, f) == row.Get(f)
    ensures row.Get(f) == Nil ==>
              Seen(row, f) == if f.Text? || f in {Optional(ExecutableId), Optional(ExecutableType)} then Present("") else Nil
  {}

  /** Write `i` is the last that says something about the field. */
  predicate LastSays(writes: seq<Run>, f: Field, i: int) {
    && 0 <= i < |writes| && Speaks(f, writes[i].Get(f))
    && forall j | i < j < |writes| :: !Speaks(f, writes[j].Get(f))
  }

  predicate NoneSays(writes: seq<Run>, f: Field) {
    forall j | 0 <= j < |writes| :: !Speaks(f, writes[j].Get(f))
  }

  /** A field that no write speaks about reads as before, and so does one that is not stored. */
  lemma {:induction false} UnspokenStays(row: Run, writes: seq<Run>, f: Field)
    requires NoneSays(writes, f) || !Persisted(f)
    ensures Seen(Replayed(row, writes), f) == Seen(row, f)
    ensures !Persisted(f) ==> Replayed(row, writes).Get(f) == row.Get(f)
  {
    if writes != [] {
      var init, last := writes[..|writes| - 1], writes[|writes| - 1];
      UnspokenStays(row, init, f);
      FieldStored(Replayed(row, init), last, f);
      BlankIsSilent(f, writes[|init|].Get(f));
      assert NoneSays(writes, f) ==> !Speaks(f, writes[|init|].Get(f));
    }
  }

  /** Any other stored field reads as the last write about it said. */
  lemma {:induction false} LastWriteWins(row: Run, writes: seq<Run>, f: Field, i: nat)
    requires LastSays(writes, f, i) && Persisted(f)
    ensures Seen(Replayed(row, writes), f) == writes[i].Get(f)
  {
    var init, last := writes[..|writes| - 1], writes[|writes| - 1];
    SeenAfter(Replayed(row, init), last, f);
    BlankIsSilent(f, last.Get(f));
    if i < |init| {
      assert !Speaks(f, writes[|init|].Get(f));
      LastWriteWins(row, init, f, i);
    }
  }

  /** And the status is the replay of the statuses written. */
  lemma {:induction false} StatusIsReplay(row: Run, writes: seq<Run>)
    ensures Replayed(row, writes).status == Replay(row.status, StatusesOf(writes))
  {
    if writes != [] {
      var init := writes[..|writes| - 1];
      StatusIsReplay(row, init);
      assert StatusesOf(writes)[..|init|] == StatusesOf(init);
    }
  }

  function StatusesOf(writes: seq<Run>): seq<Status> {
    seq(|writes|, i requires 0 <= i < |writes| => writes[i].status)
  }

  /** A worker that reads the row, and writes its copy back after others have written: in every
      field what the others stored survives exactly if the copy is blank there or agrees with what
      would be read now, and otherwise the copy comes back. The status survives unless it is
      outranked, or the copy says NEEDS_RETRY. */
  lemma StaleCopyReverts(row: Run, others: seq<Run>, f: Field)
    requires row.status.Valid()
    ensures var now := Replayed(row, others);
            var copy := Loaded(row);
            var after := Stored(now, copy);
            && (Seen(after, f) == Seen(now, f) <==> !Speaks(f, copy.Get(f)) || copy.Get(f) == Seen(now, f))
            && (Seen(after, f) == Seen(now, f) || Seen(after, f) == copy.Get(f))
            && (after.status == now.status <==>
                  now.status == row.status
                  || (row.status != NeedsRetry && !Later(row.status, now.status)))
  {
    var now := Replayed(row, others);
    StatusIsReplay(row, others);
    ReplayIsHighest(row.status, StatusesOf(others), Replay(row.status, StatusesOf(others)));
    FieldStored(now, Loaded(row), f);
    BlankIsSilent(f, Loaded(row).Get(f));
    if !Persisted(f) { UnspokenStays(row, others, f); }
  }

  /** The writes agree on every stored field on which both say something, and neither undoes the
      other's status. */
  ghost predicate Independent(a: Run, b: Run) {
    && (forall f: Field | Persisted(f) :: !Speaks(f, a.Get(f)) || !Speaks(f, b.Get(f)) || a.Get(f) == b.Get(f))
    && (a.status == NeedsRetry ==> b.status == NeedsRetry || !b.status.Valid())
    && (b.status == NeedsRetry ==> a.status == NeedsRetry || !a.status.Valid())
  }

  /** No reader can tell the rows apart. */
  ghost predicate ReadsSame(a: Run, b: Run) {
    a.status == b.status && forall f: Field :: Seen(a, f) == Seen(b, f)
  }

  /** Two writes may come in either order, whatever is stored, exactly if they are independent. */
  lemma WritesCommuteIff(a: Run, b: Run)
    ensures (forall row :: ReadsSame(Stored(Stored(row, a), b), Stored(Stored(row, b), a))) <==> Independent(a, b)
  {
    if Independent(a, b) {
      forall row ensures ReadsSame(Stored(Stored(row, a), b), Stored(Stored(row, b), a)) {
        IndependentCommute(row, a, b);
      }
    } else {
      DependentClash(Run((f: Field) => Nil, Queued), a, b);
    }
  }

  lemma FieldStoredTwice(row: Run, a: Run, b: Run, f: Field)
    ensures Seen(Stored(Stored(row, a), b), f) ==
            if !Persisted(f) then Seen(row, f)
            else ReadValue(f, if Speaks(f, b.Get(f)) then b.Get(f) else if Speaks(f, a.Get(f)) then a.Get(f) else row.Get(f))
  {
    FieldStored(Stored(row, a), b, f);
    FieldStored(row, a, f);
    BlankIsSilent(f, a.Get(f));
    BlankIsSilent(f, b.Get(f));
  }

  lemma DependentClash(row: Run, a: Run, b: Run)
    requires !Independent(a, b) && row.status == Queued
    ensures !ReadsSame(Stored(Stored(row, a), b), Stored(Stored(row, b), a))
  {
    if f: Field :| Persisted(f) && Speaks(f, a.Get(f)) && Speaks(f, b.Get(f)) && a.Get(f) != b.Get(f) {
      FieldStoredTwice(row, a, b, f);
      FieldStoredTwice(row, b, a, f);
    }
  }

  lemma IndependentCommute(row: Run, a: Run, b: Run)
    requires Independent(a, b)
    ensures ReadsSame(Stored(Stored(row, a), b), Stored(Stored(row, b), a))
  {
    var ab, ba := Stored(Stored(row, a), b), Stored(Stored(row, b), a);
    forall f: Field ensures Seen(ab, f) == Seen(ba, f) {
      FieldStoredTwice(row, a, b, f);
      FieldStoredTwice(row, b, a, f);
    }
  }
}
