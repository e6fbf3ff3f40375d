/** The in-memory reminder data source: a list of reminders and an error
    switch. While the switch is on, reads answer with fixed error messages
    and writes do nothing. Every operation is a pure function from the
    current state to the next state or to its answer. */
module FakeSource {
  import opened Results
  import opened ReminderDto

  const LoadRemindersError: string := "Can't load reminders"
  const GetReminderError: string := "Can't get reminder"
  const NotFoundError: string := "Reminder not found"

  /** The state of one data source: the stored reminders in insertion order,
      and whether it is set to fail. */
  datatype FakeDataSource = FakeDataSource(reminders: seq<ReminderDTO>, hasError: bool)

  /** A data source built over `initial`; it starts out not failing. */
  function Create(initial: seq<ReminderDTO>): (src: FakeDataSource)
    ensures !src.hasError
    ensures GetReminders(src) == Success(initial)
  {
    FakeDataSource(initial, false)
  }

  /** A data source built with the default, empty list: loading it succeeds
      with no reminders, and no identifier can be found in it. */
  function New(): (src: FakeDataSource)
    ensures !src.hasError
    ensures GetReminders(src) == Success([])
    ensures forall id :: GetReminder(src, id) == Error(NotFoundError)
  {
    Create([])
  }

  /** All stored reminders, or the load error while failing. */
  function GetReminders(src: FakeDataSource): (r: Result<seq<ReminderDTO>>)
    ensures r.Success? <==> !src.hasError
    ensures r.Success? ==> r.data == src.reminders
    ensures r.Error? ==> r.message == LoadRemindersError
  {
    if src.hasError then Error(LoadRemindersError) else Success(src.reminders)
  }

  /** Appends `reminder` after every stored one, with no check for an
      earlier reminder of the same identifier. While failing, the store is
      left as it was (the error value built in that case is thrown away). */
  function SaveReminder(src: FakeDataSource, reminder: ReminderDTO): (next: FakeDataSource)
    ensures next.hasError == src.hasError
    ensures src.hasError ==> next == src
    ensures !src.hasError ==>
      && |next.reminders| == |src.reminders| + 1
      && next.reminders[..|src.reminders|] == src.reminders
      && next.reminders[|src.reminders|] == reminder
  {
    if src.hasError then src else src.(reminders := src.reminders + [reminder])
  }

  /** The position of the first reminder of `list` with identifier `id`, or
      None when there is none. */
  function IndexOfId(list: seq<ReminderDTO>, id: string): (k: Option<nat>)
    ensures k.Some? ==> FirstWithId(list, id, k.value)
    ensures k.None? <==> !HasId(list, id)
  {
    if |list| == 0 then None
    else if list[0].id == id then Some(0)
    else
      match IndexOfId(list[1..], id)
      case None => None
      case Some(j) => Some(j + 1)
  }

  /** The first stored reminder with identifier `id`; the not-found error when
      none has it; the fixed get error, whatever `id` is, while failing. */
  function GetReminder(src: FakeDataSource, id: string): (r: Result<ReminderDTO>)
    ensures src.hasError ==> r == Error(GetReminderError)
    ensures !src.hasError ==> (r.Success? <==> HasId(src.reminders, id))
    ensures !src.hasError && r.Success? ==>
      exists i :: FirstWithId(src.reminders, id, i) && src.reminders[i] == r.data
    ensures !src.hasError && r.Error? ==> r.message == NotFoundError
  {
    if src.hasError then Error(GetReminderError)
    else
      match IndexOfId(src.reminders, id)
      case Some(i) => Success(src.reminders[i])
      case None => Error(NotFoundError)
  }

  /** Scans `list` front to back and stops at the first reminder with
      identifier `id`, as the source's list search does. */
  method FindById(list: seq<ReminderDTO>, id: string) returns (found: Option<ReminderDTO>)
    ensures found.Some? <==> HasId(list, id)
    ensures found.Some? ==> exists i :: FirstWithId(list, id, i) && list[i] == found.value
    ensures GetReminder(Create(list), id) == (if found.Some? then Success(found.value) else Error(NotFoundError))
  {
    var n := 0;
    while n < |list|
      invariant 0 <= n <= |list|
      invariant forall j :: 0 <= j < n ==> list[j].id != id
    {
      if list[n].id == id {
        assert FirstWithId(list, id, n);
        return Some(list[n]);
      }
      n := n + 1;
    }
    return None;
  }

  /** Removes every stored reminder; while failing, the store is left as it was. */
  function DeleteAllReminders(src: FakeDataSource): (next: FakeDataSource)
    ensures next.hasError == src.hasError
    ensures src.hasError ==> next == src
    ensures !src.hasError ==> GetReminders(next) == Success([])
  {
    if src.hasError then src else src.(reminders := [])
  }

  /** Turns failing on or off; the stored reminders are not touched. */
  function SetHasError(src: FakeDataSource, hasError: bool): (next: FakeDataSource)
    ensures next.hasError == hasError
    ensures next.reminders == src.reminders
  {
    src.(hasError := hasError)
  }

  /** Two positions that both hold the first match are the same position. */
  lemma FirstWithIdUnique(list: seq<ReminderDTO>, id: string, i: int, k: int)
    requires FirstWithId(list, id, i) && FirstWithId(list, id, k)
    ensures i == k
  {
  }

  /** Appending a reminder keeps the first match of every identifier that
      already had one, and makes the new reminder the first match of its
      identifier otherwise. */
  lemma {:induction false} IndexOfIdAppend(list: seq<ReminderDTO>, reminder: ReminderDTO, id: string)
    ensures IndexOfId(list + [reminder], id) ==
      if HasId(list, id) then IndexOfId(list, id)
      else if reminder.id == id then Some(|list|)
      else None
  {
    var k := IndexOfId(list + [reminder], id);
    if HasId(list, id) {
      var i := IndexOfId(list, id).value;
      assert (list + [reminder])[i] == list[i];
      assert FirstWithId(list + [reminder], id, i);
      FirstWithIdUnique(list + [reminder], id, i, k.value);
    } else if reminder.id == id {
      assert (list + [reminder])[|list|] == reminder;
      assert forall j :: 0 <= j < |list| ==> (list + [reminder])[j] == list[j];
      assert FirstWithId(list + [reminder], id, |list|);
      FirstWithIdUnique(list + [reminder], id, |list|, k.value);
    } else {
      assert forall j :: 0 <= j < |list| ==> (list + [reminder])[j] == list[j];
      assert !HasId(list + [reminder], id);
    }
  }

  /** A reminder saved into a store that holds no reminder of its identifier
      is what a lookup of that identifier returns. */
  lemma SaveThenGet(src: FakeDataSource, reminder: ReminderDTO)
    requires !src.hasError
    requires !HasId(src.reminders, reminder.id)
    ensures GetReminder(SaveReminder(src, reminder), reminder.id) == Success(reminder)
  {
    IndexOfIdAppend(src.reminders, reminder, reminder.id);
  }

  /** Saving does not change the answer of a lookup for any other
      identifier, nor for an identifier some earlier reminder already has:
      the earlier reminder keeps answering for it. */
  lemma SaveKeepsOtherLookups(src: FakeDataSource, reminder: ReminderDTO, id: string)
    requires !src.hasError
    requires id != reminder.id || HasId(src.reminders, id)
    ensures GetReminder(SaveReminder(src, reminder), id) == GetReminder(src, id)
  {
    IndexOfIdAppend(src.reminders, reminder, id);
  }

  /** Saving two reminders with one identifier stores both of them, and a
      lookup keeps answering with the first one. A store that replaces the
      row by identifier would instead hold one reminder and answer with the
      second. */
  lemma SaveTwiceSameIdKeepsBoth(src: FakeDataSource, first: ReminderDTO, second: ReminderDTO)
    requires !src.hasError
    requires first.id == second.id
    requires !HasId(src.reminders, first.id)
    ensures GetReminders(SaveReminder(SaveReminder(src, first), second))
      == Success(src.reminders + [first, second])
    ensures GetReminder(SaveReminder(SaveReminder(src, first), second), first.id) == Success(first)
    ensures first != second ==>
      GetReminder(SaveReminder(SaveReminder(src, first), second), second.id) != Success(second)
  {
    var once := SaveReminder(src, first);
    SaveThenGet(src, first);
    assert HasId(once.reminders, first.id) by {
      assert once.reminders[|src.reminders|].id == first.id;
    }
    SaveKeepsOtherLookups(once, second, first.id);
    assert src.reminders + [first] + [second] == src.reminders + [first, second];
  }

  /** After deleting everything, no identifier is found. */
  lemma DeleteThenGet(src: FakeDataSource, id: string)
    requires !src.hasError
    ensures GetReminder(DeleteAllReminders(src), id) == Error(NotFoundError)
  {
  }

  /** Deleting everything twice is the same as deleting it once. */
  lemma DeleteAllIdempotent(src: FakeDataSource)
    ensures DeleteAllReminders(DeleteAllReminders(src)) == DeleteAllReminders(src)
  {
  }

  /** Switching failing on and back off restores the data source exactly:
      the switch never touches the stored reminders. */
  lemma SetHasErrorRoundTrip(src: FakeDataSource, hasError: bool)
    ensures SetHasError(SetHasError(src, hasError), src.hasError) == src
  {
  }

  /** Three reminders with distinct identifiers saved into a new data source
      load back as exactly those three, in order, and each is found by its
      identifier. */
  lemma SaveThreeThenLoad(a: ReminderDTO, b: ReminderDTO, c: ReminderDTO)
    requires a.id != b.id && a.id != c.id && b.id != c.id
    ensures GetReminders(SaveReminder(SaveReminder(SaveReminder(New(), a), b), c)) == Success([a, b, c])
    ensures GetReminder(SaveReminder(SaveReminder(SaveReminder(New(), a), b), c), a.id) == Success(a)
    ensures GetReminder(SaveReminder(SaveReminder(SaveReminder(New(), a), b), c), b.id) == Success(b)
    ensures GetReminder(SaveReminder(SaveReminder(SaveReminder(New(), a), b), c), c.id) == Success(c)
  {
    var s1 := SaveReminder(New(), a);
    var s2 := SaveReminder(s1, b);
    var s3 := SaveReminder(s2, c);
    SaveThenGet(New(), a);
    SaveKeepsOtherLookups(s1, b, a.id);
    SaveKeepsOtherLookups(s2, c, a.id);
    assert !HasId(s1.reminders, b.id) by { assert s1.reminders == [a]; }
    SaveThenGet(s1, b);
    SaveKeepsOtherLookups(s2, c, b.id);
    assert !HasId(s2.reminders, c.id) by { assert s2.reminders == [a, b]; }
    SaveThenGet(s2, c);
    assert s3.reminders == [a, b, c];
  }
}
