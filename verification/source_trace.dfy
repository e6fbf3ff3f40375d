/** Sequences of calls on one in-memory data source, for properties that
    span several calls: what a run of saves, deletes and error switches
    leaves in the store. */
module SourceTrace {
  import opened Results
  import opened ReminderDto
  import opened FakeSource

  /** One call on the data source. */
  datatype Op =
    | LoadAll
    | Save(reminder: ReminderDTO)
    | Get(id: string)
    | DeleteAll
    | SetError(hasError: bool)

  /** What one call hands back to its caller; writes hand back nothing. */
  datatype Response =
    | Loaded(loaded: Result<seq<ReminderDTO>>)
    | Fetched(fetched: Result<ReminderDTO>)
    | Done

  /** Performs one call: the next state and the caller's answer. */
  function Step(src: FakeDataSource, op: Op): (out: (FakeDataSource, Response))
    ensures op.LoadAll? || op.Get? ==> out.0 == src
    ensures op.Save? || op.DeleteAll? || op.SetError? ==> out.1 == Done
    ensures !op.SetError? ==> out.0.hasError == src.hasError
    ensures src.hasError && !op.SetError? ==> out.0 == src
    ensures src.hasError && op.LoadAll? ==> out.1 == Loaded(Error(LoadRemindersError))
    ensures src.hasError && op.Get? ==> out.1 == Fetched(Error(GetReminderError))
  {
    match op
    case LoadAll => (src, Loaded(GetReminders(src)))
    case Save(r) => (SaveReminder(src, r), Done)
    case Get(id) => (src, Fetched(GetReminder(src, id)))
    case DeleteAll => (DeleteAllReminders(src), Done)
    case SetError(b) => (SetHasError(src, b), Done)
  }

  /** The state after performing `ops` in order, starting from `src`. A run
      that never flips the error switch to the other value keeps it as it was. */
  function Run(src: FakeDataSource, ops: seq<Op>): (final: FakeDataSource)
    ensures (forall i :: 0 <= i < |ops| ==> ops[i] != SetError(!src.hasError)) ==>
      final.hasError == src.hasError
    decreases |ops|
  {
    if |ops| == 0 then src else Run(Step(src, ops[0]).0, ops[1..])
  }

  /** The reminders saved by `ops`, in call order. */
  function Saved(ops: seq<Op>): (saved: seq<ReminderDTO>)
    ensures |saved| <= |ops|
  {
    if |ops| == 0 then []
    else if ops[0].Save? then [ops[0].reminder] + Saved(ops[1..])
    else Saved(ops[1..])
  }

  /** No call of `ops` deletes. */
  predicate NoDelete(ops: seq<Op>) {
    forall i :: 0 <= i < |ops| ==> !ops[i].DeleteAll?
  }

  /** No call of `ops` switches failing on. */
  predicate NeverFails(ops: seq<Op>) {
    forall i :: 0 <= i < |ops| ==> ops[i] != SetError(true)
  }

  /** Running two runs back to back is running their concatenation. */
  lemma {:induction false} RunConcat(src: FakeDataSource, a: seq<Op>, b: seq<Op>)
    ensures Run(src, a + b) == Run(Run(src, a), b)
    decreases |a|
  {
    if |a| > 0 {
      assert (a + b)[0] == a[0];
      assert (a + b)[1..] == a[1..] + b;
      RunConcat(Step(src, a[0]).0, a[1..], b);
    } else {
      assert a + b == b;
    }
  }

  /** While failing, no run that leaves failing on changes the stored
      reminders, whatever it saves or deletes. */
  lemma {:induction false} ErrorGatesRun(src: FakeDataSource, ops: seq<Op>)
    requires src.hasError
    requires forall i :: 0 <= i < |ops| ==> ops[i] != SetError(false)
    ensures Run(src, ops) == src
    decreases |ops|
  {
    if |ops| > 0 {
      assert Step(src, ops[0]).0 == src;
      assert forall i :: 0 <= i < |ops[1..]| ==> ops[1..][i] == ops[i + 1];
      ErrorGatesRun(src, ops[1..]);
    }
  }

  /** Without failing and without deleting, a run only appends: the store
      holds what it held, followed by every saved reminder in call order,
      duplicates included. */
  lemma {:induction false} AppendOnlyRun(src: FakeDataSource, ops: seq<Op>)
    requires !src.hasError
    requires NeverFails(ops) && NoDelete(ops)
    ensures Run(src, ops) == FakeDataSource(src.reminders + Saved(ops), false)
    decreases |ops|
  {
    if |ops| > 0 {
      var next := Step(src, ops[0]).0;
      assert !next.hasError;
      assert forall i :: 0 <= i < |ops[1..]| ==> ops[1..][i] == ops[i + 1];
      AppendOnlyRun(next, ops[1..]);
      if ops[0].Save? {
        assert next.reminders == src.reminders + [ops[0].reminder];
        assert src.reminders + [ops[0].reminder] + Saved(ops[1..])
          == src.reminders + ([ops[0].reminder] + Saved(ops[1..]));
      }
    }
  }

  /** Without failing, the store holds exactly the reminders saved since the
      last delete, whatever it held before. */
  lemma StoredSinceLastDelete(src: FakeDataSource, before: seq<Op>, after: seq<Op>)
    requires !src.hasError
    requires NeverFails(before) && NeverFails(after) && NoDelete(after)
    ensures GetReminders(Run(src, before + [DeleteAll] + after)) == Success(Saved(after))
  {
    RunConcat(src, before, [DeleteAll]);
    RunConcat(src, before + [DeleteAll], after);
    var mid := Run(src, before);
    assert !mid.hasError;
    var cleared := Run(mid, [DeleteAll]);
    assert [DeleteAll][1..] == [];
    assert cleared == FakeDataSource([], false);
    AppendOnlyRun(cleared, after);
    assert [] + Saved(after) == Saved(after);
  }

  /** After any run that does not fail, a reminder saved last under a fresh
      identifier is found by that identifier. */
  lemma RunThenSaveThenGet(src: FakeDataSource, ops: seq<Op>, reminder: ReminderDTO)
    requires !src.hasError && NeverFails(ops)
    requires !HasId(Run(src, ops).reminders, reminder.id)
    ensures Step(Run(src, ops + [Save(reminder)]), Get(reminder.id)).1 == Fetched(Success(reminder))
  {
    RunConcat(src, ops, [Save(reminder)]);
    var mid := Run(src, ops);
    assert !mid.hasError;
    assert [Save(reminder)][1..] == [];
    assert Run(mid, [Save(reminder)]) == SaveReminder(mid, reminder);
    SaveThenGet(mid, reminder);
  }
}
