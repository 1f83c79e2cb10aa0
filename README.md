# NutriAI Pro — verified model of the nutrition log

NutriAI Pro is a one-screen iOS app: the user logs foods eaten today, the
screen shows the running calorie / protein / fat / carbohydrate totals, and
"Save Day" archives today's list into a per-day history that is persisted in
`UserDefaults`. This project models the app's only logic, all in
`NutriAIProApp.swift`:

- `Food` (module `Entries`): one logged entry.
- `Tracker` (module `Tracking`): the mutable aggregate with `daily` (today's
  entries, in insertion order) and `history` (day → archived entries), and
  its operations `add`, `saveDay`, `save` and `load`. Each operation is
  specified by a pure function on a `Snapshot` value (`Append`, `Archive`,
  `Restore`), and the class methods, which update the fields in place, are
  proved against those functions.
- `ContentView.total` and the "Add Food" button (module `ContentView`):
  `total` is modelled as the four left folds the source runs (`Reduce`) and
  proved equal to an independent field-by-field sum (`Sum`), from which
  additivity follows; the button's guard builds an entry only when all five
  numeric fields parsed and puts `"Food"` in place of an empty name.

Outside collaborators become parameters: the clock reading used by `saveDay`
is its `today` argument; what `load` obtained from `UserDefaults` and
`JSONDecoder` is an `Option<Snapshot>` argument (`None` for absent or
undecodable data); the fresh `UUID()` of a new entry is an `id` argument; the
results of `Int(...)` / `Double(...)` on the form's text are `Option` fields
of `QuickAddInput`.

Two facts about the code shape what is and is not stated:
- No encode/decode round trip is claimed. `Food.id` is a `let` with an
  initial value, so synthesized `Codable` encodes it but does not decode it:
  decoding gives every entry a new id.
- The code never checks signs (`Int("-5")` parses), so the model admits any
  integers for the four nutrient fields and any `grams`.

Behaviour worth knowing that the model makes explicit: pressing "Save Day"
twice on the same day replaces that day's snapshot with an empty list
(`Tracking.ArchiveTwiceEmpties`), because the second archive overwrites the
first with the now-empty `daily`.

## Model

| member | source | states |
|---|---|---|
| Tracking.Append | NutriAIProApp.swift:17 | `add` puts the entry after all earlier ones, which keep their order; `history` is unchanged |
| Tracking.Archive | NutriAIProApp.swift:19-22 | `saveDay` leaves `daily` empty and `history[today]` equal to the previous `daily`; the key set only gains `today` and every other day keeps its snapshot |
| Tracking.Restore | NutriAIProApp.swift:26-32 | `load` with no decodable data keeps both fields; with decoded data both fields become the decoded ones |
| Tracking.ArchiveAgainOverwrites | NutriAIProApp.swift:21-22 | archiving a day, logging `later`, and archiving the same day again leaves exactly `later` for that day (overwrite, not merge) and every other day as before |
| Tracking.ArchiveTwiceEmpties | NutriAIProApp.swift:19-22 | archiving the same day twice in a row leaves that day's snapshot empty |
| Tracking.RestoreReplacesOrKeeps | NutriAIProApp.swift:26-32 | a failed load is the identity; a successful load's result does not depend on the state before it |
| Tracking.Tracker.constructor | NutriAIProApp.swift:13-15 | a new tracker has an empty `daily` and an empty `history`, and has written nothing to the store |
| Tracking.Tracker.Add | NutriAIProApp.swift:17 | the state becomes `Append` of the old one: `daily` is the old `daily` followed by the entry, `history` is unchanged; nothing is saved |
| Tracking.Tracker.Save | NutriAIProApp.swift:34-38 | the `"nutriai"` entry of the store now holds the tracker's whole state, `daily` and `history`, replacing any earlier write; `daily` and `history` are unchanged |
| Tracking.Tracker.SaveDay | NutriAIProApp.swift:19-24 | the fields become `Archive` of the old state: `history[today]` is the old `daily`, other days unchanged, `daily` empty; the store then holds that new state |
| Tracking.Tracker.Load | NutriAIProApp.swift:26-32 | the state becomes `Restore` of the old one: absent or undecodable data leaves both fields exactly as they were, decoded data replaces both; nothing is written to the store |
| ContentView.ReduceIsSum | NutriAIProApp.swift:47-50 | the `reduce` left fold from an accumulator equals the accumulator plus the field summed over all entries |
| ContentView.SumCons | NutriAIProApp.swift:47-50 | the field sum of a list with an entry in front is that entry's field plus the sum of the rest |
| ContentView.SumAppend | NutriAIProApp.swift:47-50 | the field sum of two lists laid end to end is the sum of their field sums |
| ContentView.Total | NutriAIProApp.swift:46-52 | each component of `total` is the sum of that field over `daily`; all four are 0 when `daily` is empty |
| ContentView.TotalConcat | NutriAIProApp.swift:46-52 | `total` is additive over concatenation, componentwise |
| ContentView.TotalAfterAdd | NutriAIProApp.swift:46-52 | after `add(f)`, `total` is the previous total plus `f`'s calories, protein, fat and carbs |
| ContentView.TotalAfterArchive | NutriAIProApp.swift:19-22 | after `saveDay(d)` the shown totals are zero and the totals of `history[d]` are the totals shown before |
| ContentView.SumBounds | NutriAIProApp.swift:47-50 | when every entry's field lies in `[lo, hi]`, the field's total over `n` entries lies in `[lo*n, hi*n]` |
| ContentView.RunningTotalsInRange | NutriAIProApp.swift:47-50 | when every entry's field lies in `[lo, hi]` and `lo*n` and `hi*n` are within `Int`'s range, every running total of the `reduce` fold is within `Int`'s range, so no addition traps |
| ContentView.EntryName | NutriAIProApp.swift:75 | the entry name is never empty: the typed name when there is one, `"Food"` otherwise |
| ContentView.MakeFood | NutriAIProApp.swift:74-75 | an entry is built exactly when all five numeric fields parsed, carrying the parsed values, the fresh id and `EntryName` of the typed name |
| ContentView.AddFood | NutriAIProApp.swift:73-78 | the button appends exactly one entry when all five fields parsed and nothing otherwise; `history` and the store are unchanged and `total` moves by that entry's fields |

## Left out

- ContentView.Total: sums are unbounded integers; Swift traps when an `Int` addition in `reduce` overflows, which is not modelled (`ContentView.RunningTotalsInRange` gives a sufficient condition for no trap).
- Tracking.Tracker.Save: the JSON encoding and `UserDefaults` are platform calls; the `stored` field holds the value handed to the encoder rather than bytes, and a failed encode (which skips the write) is not modelled. The entry's contents from earlier launches are not modelled either: `stored` records this tracker's own writes.
- Tracking.Tracker.Load: reading `UserDefaults` and `JSONDecoder` are platform calls; their combined outcome is the `decoded` argument, not derived from `stored` because decoding gives every entry a new id.
- No encode/decode round trip is stated: decoding regenerates every entry's `id`.
- `Calendar.current.startOfDay(for: Date())` is a clock reading; `SaveDay` takes the day as a parameter.
- `UUID()` generation: ids are opaque numbers passed in by the caller.
- `grams` is a `Double` that is only stored and displayed; its display (`Int(food.grams)`) and export formatting are not modelled.
- `Int(...)` / `Double(...)` text parsing belongs to the Swift library; its results are the `Option` fields of `QuickAddInput`.
- The form reset after a successful "Add Food" (clearing the text fields, grams back to `"100"`, hiding the panel) and the quick-add toggle are view state.
- SwiftUI layout, the fixed daily targets shown in the header and export text (2250 kcal, 180 g protein, 70 g fat, 225 g carbs), and the clipboard export are UI and I/O.
- The `.onAppear` call of `load` and the `@Observable` / `@State` plumbing are UI lifecycle.
