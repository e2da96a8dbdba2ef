# Expense tracker: a verified model of its commands

The expense tracker is a command-line tool that keeps a list of expenses in
`expenses.json`. Each command loads the whole list, does one thing to it, and
(for `add`, `delete` and `update`) writes the whole list back. This project
models that core in Dafny:

- `wrappers.dfy` — `Option`, `Result` and `Outcome`, used for optional flags
  and error paths.
- `expenses.dfy` (module `Expenses`) — the `Expense` record (id, date as
  year/month/day, description, amount in whole cents), the states the file can
  be in (`StoredFile`), what loading it yields (`Load`), and the specification
  functions the commands are proved against: `MaxId`/`NextId` (id
  assignment), `FirstIndex` and `Without` (finding and removing a record),
  `EditRecord` (update's field-by-field edit), `Total` and `InMonth`
  (summaries). The lemmas state what these mean and that every command keeps
  a well-formed list well formed (positive ids, unique ids, positive
  amounts); for add, this holds as long as no stored id is the largest int.
- `commands.dfy` (module `Commands`) — one read-only method per loop of the
  list logic (`NewId`, `RemoveFirst`, `FindIndex`, `SumAll`, `SumMonth`; the
  `list` command's loop only prints), each
  proved against its specification function, and the class `ExpenseStore`.
  Its field `file` is the stored file. Each method is one command: load,
  work on a local copy, and assign `file` only where the program saves.
- `scenarios.dfy` (module `Scenarios`) — client methods that walk through concrete
  command sequences and check the results from the contracts alone.

Inputs the program takes from its environment are parameters: today's date
for `add`, the current year for `summary`. The outcome of parsing update's
`--date` flag is also a parameter, of type `Option<DateArg>`: `None` when the
flag was not given, `Some(Unparsable)` when parsing failed, and
`Some(Parsed(d))` otherwise. Each of update's optional flags is an `Option`,
`None` exactly when the flag was not set on the command line.

Behaviour of the code that the model keeps:

- Ids are Go `int`s, 64 bits wide on a 64-bit platform, and the increment wraps. The new id is the
  running maximum of the stored ids (from 0) plus one. When a stored id is
  the largest int, the new id is the smallest int, and every later add issues
  that same id again (`Expenses.NextIdAfterAdd`, `Expenses.AddAfterLargestId`).
- Ids freed by a delete can be issued again: deleting the record an add just
  appended makes the next add issue its id once more
  (`Expenses.IdReissuedAfterDeletingNewest`).
- Update edits its working copy field by field: description, then amount
  (checked first), then date (checked first). A failed check stops it with the
  earlier fields already written to the working copy
  (`Expenses.EditStopsPartway`). It saves only when every check passed, so on
  every failure the stored file is unchanged (`ExpenseStore.Update`,
  `r.Fail? ==> file == old(file)`).
- `add` checks the amount before loading, so a non-positive amount is
  reported even when the file is unreadable.

## Model

| member | source | states |
|---|---|---|
| Expenses.Load | main.go:248-269 | loading fails exactly when the file cannot be opened or does not decode; a missing file or one with no JSON value (EOF) loads as the empty list; otherwise the stored list in stored order |
| Expenses.LoadSaveRoundTrip | main.go:248-281 | follows from modelling a save as storing the list itself: loading a saved list gives it back, and saving what was loaded changes nothing a later load sees |
| Expenses.Increment | main.go:53 | Go's int increment: x + 1 taken modulo 2^64 into Go's int range |
| Expenses.MaxId | main.go:47-52 | the running maximum is at least 0, at least every id, and is either 0 or the id of some record |
| Expenses.NextId | main.go:47-53 | while no stored id is the largest int, the new id is at least 1, greater than every existing id, and is 1 or one more than an existing id; when one is, the new id wraps to the smallest int |
| Expenses.NextIdAfterAdd | main.go:47-62 | after an add, the next id is the increment of the id just issued; once the largest int is stored, the same smallest-int id is issued again |
| Expenses.FirstIndex | main.go:122-128 | when some record carries the id, the index found holds it and no earlier record does |
| Expenses.Without | main.go:86-98 | deleting a present id shortens the list by one; deleting an absent id leaves it as it is |
| Expenses.WithoutFromList | main.go:89 | every record left after a delete was in the list before it |
| Expenses.WithoutSplice | main.go:89 | removing the first match equals splicing the list at that match's index, keeping both sides in order |
| Expenses.EditRecord | main.go:135-161 | the edit succeeds exactly when some field is supplied, a supplied amount is positive and a supplied date parses; errors come in the order no fields, amount, date; the id never changes; on success each field is the supplied value or the old one |
| Expenses.EditStopsPartway | main.go:140-160 | when the date fails to parse, the working copy already holds the new description (and amount) |
| Expenses.InMonthMembers | main.go:213-217 | a record counts toward a month's total exactly when it is stored and dated in that month of that year |
| Expenses.MonthTotalBounded | main.go:213-224 | with positive amounts, a month's total lies between 0 and the total of all records |
| Expenses.AddKeepsWellFormed | main.go:47-62 | while no stored id is the largest int, appending the new record to a list with positive unique ids and positive amounts keeps all three |
| Expenses.AddAfterLargestId | main.go:47-62 | once the largest int is stored, an add appends a non-positive id and a second add appends a duplicate id |
| Expenses.DeleteKeepsWellFormed | main.go:86-93 | deleting keeps a well-formed list well formed, and no record with the deleted id remains |
| Expenses.UpdateKeepsWellFormed | main.go:140-161 | a successful edit keeps a well-formed list well formed |
| Expenses.IdReissuedAfterDeletingNewest | main.go:47-53 | for every list, including one holding the largest int, deleting the record an add just appended makes the next add issue the same id |
| Commands.NewId | main.go:47-53 | the scan returns the next id; below the largest int it is greater than every id, at the largest int it wraps to the smallest |
| Commands.RemoveFirst | main.go:86-93 | found holds exactly when some record carries the id; the rest is the list without its first such record, one shorter when found |
| Commands.FindIndex | main.go:122-128 | -1 exactly when no record carries the id; otherwise the index of the first that does |
| Commands.SumAll | main.go:222-224 | the total is the sum of all amounts |
| Commands.SumMonth | main.go:213-217 | the total is the sum of the amounts of the records dated in the given month of the given year |
| Commands.ExpenseStore.Add | main.go:32-70 | a non-positive amount fails before loading; a load failure fails; otherwise the returned id is the next id and the file holds the old list plus the new record at the end; on failure the file is unchanged; well-formedness is kept while no stored id is the largest int |
| Commands.ExpenseStore.Delete | main.go:77-107 | a load failure fails; an absent id fails with not found; otherwise the file holds the list without the first record carrying the id; on failure the file is unchanged; well-formedness is kept |
| Commands.ExpenseStore.Update | main.go:113-171 | a load failure fails; an absent id fails with not found; otherwise the edit's error is returned, or on success the file holds the list with only the first matching record replaced by the edited one; on any failure the file is unchanged; well-formedness is kept |
| Commands.ExpenseStore.List | main.go:177-190 | returns the loaded records in stored order and writes nothing |
| Commands.ExpenseStore.Summary | main.go:196-227 | a load failure fails; without a month the total of all amounts; a month outside 1..12 fails; otherwise the total for that month of the current year; writes nothing |

## Left out

- Command wiring, flag registration and required-flag checks (main.go:20-27, 230-246): these belong to the cobra library. The commands take already-parsed arguments.
- Reading and writing JSON (main.go:248-281): `StoredFile` keeps only the cases the loader distinguishes. The JSON encoding of `time.Time` and `float64` is taken to be lossless, so a saved list loads back unchanged. A failed save is not modelled: saving always succeeds. In Go, the outcome depends on where the save fails. When `Encode` (main.go:280) refuses a value (NaN or +Inf, below), `os.Create` (main.go:272) has already emptied the file, so the list is lost and the next load sees a blank file. When `os.Create` itself fails (main.go:272-274), the file is left as it was. A write that fails partway leaves a truncated file, which the next load rejects as malformed.
- Commands.ExpenseStore.Add: keeps the file well formed only while no stored id is the largest int, because Go's increment wraps there (shown by Expenses.AddAfterLargestId).
- `time.Now()` and `time.Parse` (main.go:57, 156, 204): these are library calls. Today's date, the current year and the parse outcome are parameters. Time of day and time zones are not modelled.
- Floating-point amounts and two-decimal rounding (main.go:17, 187, 215-225): amounts are whole cents, so sums are exact. Go also accepts `--amount NaN` or `+Inf`, because neither compares as `<= 0` (main.go:36, 147). The JSON encoder then refuses the value, so that save fails and empties the file, as described above. Integer cents have no such values, so the model does not capture this path.
- Console output (main.go:184-189 and every message): printed text, the table layout and the month's name in the summary line are cosmetic and not modelled. The id returned by `add` stands for its printed message.
