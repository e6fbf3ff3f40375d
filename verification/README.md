# In-memory reminder data source

This project models the reminder data source of a location-reminder Android
app: the in-memory `FakeDataSource` that stands in for the local database in
the view-model tests. Its state is a list of reminders plus an error switch.
It offers five calls:

- load all reminders;
- save a reminder;
- look a reminder up by identifier;
- delete every reminder;
- switch failing on or off.

Reads answer with a two-variant result, `Success(data)` or `Error(message)`.
While the switch is on, reads answer with fixed messages and writes do nothing.

The model is functional. A `FakeDataSource` value holds `reminders: seq<ReminderDTO>`
and `hasError: bool`. Each call is a pure function to the next state or to
its answer. The modules are:

- `Results` (`results.dfy`): `Option` and `Result`.
- `ReminderDto` (`reminder_dto.dfy`): the reminder record, with its identifier
  last as in its six-argument constructor. It also holds the predicates
  "some reminder has this id" and "position i is the first match of this id".
- `FakeSource` (`fake_data_source.dfy`): the data source, its five calls,
  and the lemmas relating them.
- `SourceTrace` (`source_trace.dfy`): runs of several calls, and what they
  leave in the store.

Saving appends without looking at identifiers, so two reminders may share an
identifier. A lookup then answers with the earlier one. The design of the
app's real store is replace-by-identifier (upsert): its DAO test saves a
second reminder under the same identifier and expects to read the second one
back (`app/src/androidTest/java/com/udacity/project4/locationreminders/data/local/RemindersDaoTest.kt:67-99`).
The model follows the in-memory data source's code, not that design.
`FakeSource.SaveTwiceSameIdKeepsBoth` proves the difference: both reminders
stay stored, and the lookup answers with the first.

## Model

| member | source | states |
|---|---|---|
| FakeSource.Create | app/src/test/java/com/udacity/project4/locationreminders/data/FakeDataSource.kt:7-11 | A data source built over a list starts out not failing, and loading it succeeds with exactly that list. |
| FakeSource.New | app/src/test/java/com/udacity/project4/locationreminders/data/FakeDataSource.kt:7-15 | The default data source loads as `Success([])`, never an error, and answers every lookup with "Reminder not found". |
| FakeSource.GetReminders | app/src/test/java/com/udacity/project4/locationreminders/data/FakeDataSource.kt:13-15 | Loading succeeds exactly when not failing, with the stored list in insertion order; while failing, it gives `Error("Can't load reminders")`. |
| FakeSource.SaveReminder | app/src/test/java/com/udacity/project4/locationreminders/data/FakeDataSource.kt:17-19 | When not failing, saving grows the list by exactly one. The saved reminder goes at the end, and every earlier reminder stays in place. While failing, the state is unchanged. The error switch is never changed. |
| FakeSource.IndexOfId | app/src/test/java/com/udacity/project4/locationreminders/data/FakeDataSource.kt:25 | The list search gives the position of the first reminder with the identifier, or nothing exactly when no reminder has it. |
| FakeSource.GetReminder | app/src/test/java/com/udacity/project4/locationreminders/data/FakeDataSource.kt:21-32 | While failing, a lookup gives `Error("Can't get reminder")` for any identifier. Otherwise it succeeds exactly when some stored reminder has the identifier. It then gives the first such reminder in list order. If none has it, the answer is `Error("Reminder not found")`. |
| FakeSource.FindById | app/src/test/java/com/udacity/project4/locationreminders/data/FakeDataSource.kt:25-30 | A front-to-back scan that stops at the first match finds a reminder exactly when one has the identifier. It finds the first match, and agrees with the lookup's answer. |
| FakeSource.DeleteAllReminders | app/src/test/java/com/udacity/project4/locationreminders/data/FakeDataSource.kt:34-36 | When not failing, deleting leaves nothing to load. While failing, the state is unchanged. |
| FakeSource.SetHasError | app/src/test/java/com/udacity/project4/locationreminders/data/FakeDataSource.kt:38-40 | The switch takes the given value and the stored reminders are untouched. |
| FakeSource.IndexOfIdAppend | app/src/test/java/com/udacity/project4/locationreminders/data/FakeDataSource.kt:17-25 | Appending keeps the first match of every identifier that already had one. Otherwise the new reminder becomes the first match of its own identifier. |
| FakeSource.SaveThenGet | app/src/test/java/com/udacity/project4/locationreminders/data/FakeDataSource.kt:17-30 | A reminder saved under an identifier no stored reminder has is exactly what a lookup of that identifier returns. |
| FakeSource.SaveKeepsOtherLookups | app/src/test/java/com/udacity/project4/locationreminders/data/FakeDataSource.kt:17-30 | Saving changes no lookup of another identifier. It also changes no lookup of an identifier already present, because the earlier reminder keeps answering. |
| FakeSource.SaveTwiceSameIdKeepsBoth | app/src/test/java/com/udacity/project4/locationreminders/data/FakeDataSource.kt:17-27 | Saving twice under one identifier stores both reminders. The lookup answers with the first and, when the two differ, never with the second. |
| FakeSource.DeleteThenGet | app/src/test/java/com/udacity/project4/locationreminders/data/FakeDataSource.kt:21-36 | After deleting everything without failing, every lookup gives "Reminder not found". |
| FakeSource.DeleteAllIdempotent | app/src/test/java/com/udacity/project4/locationreminders/data/FakeDataSource.kt:34-36 | Deleting twice is the same as deleting once. |
| FakeSource.SetHasErrorRoundTrip | app/src/test/java/com/udacity/project4/locationreminders/data/FakeDataSource.kt:38-40 | Switching failing on and back gives back the original data source. |
| FakeSource.SaveThreeThenLoad | app/src/test/java/com/udacity/project4/locationreminders/data/FakeDataSource.kt:13-27 | Three reminders with distinct identifiers saved into a new data source load back as exactly those three, in order. Each is found by its identifier. |
| SourceTrace.Step | app/src/test/java/com/udacity/project4/locationreminders/data/FakeDataSource.kt:13-40 | Reads change no state. Writes answer nothing. Only the switch changes the switch. While failing, every call but the switch leaves the state alone, and reads give the fixed error messages. |
| SourceTrace.Run | app/src/test/java/com/udacity/project4/locationreminders/data/FakeDataSource.kt:11-40 | A run that never sets the switch to the other value leaves it as it was. |
| SourceTrace.RunConcat | app/src/test/java/com/udacity/project4/locationreminders/data/FakeDataSource.kt:7-40 | Performing two runs one after the other equals performing their concatenation. |
| SourceTrace.ErrorGatesRun | app/src/test/java/com/udacity/project4/locationreminders/data/FakeDataSource.kt:17-35 | While failing, any run that does not switch failing off leaves the data source unchanged, whatever it saves or deletes. |
| SourceTrace.AppendOnlyRun | app/src/test/java/com/udacity/project4/locationreminders/data/FakeDataSource.kt:17-19 | A run without failing or deleting leaves the prior list followed by every saved reminder in call order, duplicates included. |
| SourceTrace.StoredSinceLastDelete | app/src/test/java/com/udacity/project4/locationreminders/data/FakeDataSource.kt:17-36 | Without failing, loading after a run gives exactly the reminders saved since the last delete. |
| SourceTrace.RunThenSaveThenGet | app/src/test/java/com/udacity/project4/locationreminders/data/FakeDataSource.kt:17-30 | After any run that does not fail, a reminder saved last under a fresh identifier is found by that identifier. |

## Left out

- Coroutines: the `suspend` calls and the dispatcher they run on are not modelled. Each call is one atomic step.
- Aliasing: loading hands back the live mutable list. The model treats the answer as a snapshot value.
- The error values built by a failing save or delete are discarded by the source. The model has these calls return only the next state, and their messages ("Can't save reminder", "Can't delete reminders") do not appear.
- Generated identifiers: the record's default identifier is a random UUID. Here the identifier is an ordinary field set by the caller.
- Coordinates: the record's coordinates are double-precision numbers. They are kept as opaque 64-bit patterns, compared only for equality, and never computed on.
- Missing sources: the `ReminderDTO` and `Result` class files are not part of this model, and the record and result shapes are taken from their uses. The `Error` variant carries only its message.
- The app's real store is not part of this model: the Room DAO, `RemindersLocalRepository` and its exception mapping. Its replace-by-identifier behaviour is only contrasted, in `FakeSource.SaveTwiceSameIdKeepsBoth`.
- UI and platform code is not modelled: fragments and activities, permission handling, location settings, geofences, maps, authentication, navigation and test matchers. None of it holds logic of the data source.
