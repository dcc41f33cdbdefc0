# FruitCalculator screens, modelled in Dafny

FruitCalculator is a React Native app for fruit sellers. A seller composes
an invoice from lines (fruit, price per kg, weight) on the home screen. They
keep a catalog of fruit presets on the settings screen. Saved invoices show up
on the history screen, and the statistics screen adds them up per day. This
project models the logic of those four screens:

- **Statistics** (`Stats`). `computeStats` groups invoices by the first ten
  characters of `createdAt`. For each day it sums `totalAmount` and counts
  the invoices, then sorts the days newest first. The model keeps the source's
  form: a loop that fills a map, with its keys also held in a sequence,
  followed by a pure sort of the entries. The loop's contract (`Grouped`)
  says each day's key is in the sequence once. It does not state the
  first-seen order a JavaScript `Map` iterates in. That order cannot change
  the result, because the sorted summary is unique (`Stats.SummaryUnique`). The result is proved to be *the* per-day summary
  (`Summarizes`):
  - strictly descending by date, so each date appears once;
  - one row per day that occurs, and only those;
  - each row's count and total equal the day's reference count and sum;
  - the counts add up to the number of invoices, and the totals to the sum of
    all amounts;
  - the summary is empty exactly when there are no invoices;
  - any two summaries of the same invoices are equal.

  Deleting a day reloads a summary in which that day no longer occurs.
  Clear-all does nothing while the list is empty.
- **Settings** (`Settings`).
  - Load shows one blank preset in place of an empty stored catalog.
  - Editing changes only the presets with the given id, and clamps a price
    (typed in thousands of đồng) to at least 0.
  - Adding appends one blank preset.
  - Removing keeps the other presets in order, or leaves one blank preset if
    none remain.
  - Saving refuses at the first preset whose trimmed name is empty or whose
    price is not positive. Otherwise it persists the catalog, which is then
    already clean, and shows it again.
- **Home** (`Home`, over `InvoiceDraft`).
  - The fruit picker opens only when the catalog is non-empty, and always
    closes after a selection with a target.
  - A preset that another line already carries is refused. The first line
    carrying that preset is the one revealed. The draft keeps one line per
    preset as an invariant, so the revealed line is the one in conflict,
    never the target line itself.
  - The save button reports the first line with an empty name or a
    non-positive price or weight. The name is not trimmed here, unlike on the
    settings screen. In that case nothing is saved.
- **History** (`History`). Deleting an invoice filters it out of the list,
  keeping the rest in order. Deleting an absent id changes nothing.
  Clear-all on an empty list returns without calling the store.

The screens are classes whose fields are the React state. Each `setState`
becomes a field update, framed by `modifies`.

The source does not include the storage modules (`invoiceStorage`,
`fruitPresetStorage`) or the `useInvoice` hook, so they are modelled as
abstract operations:
- the `Storage.Store` class, where a read returns the stored list and a write
  either replaces it or changes nothing;
- the `InvoiceDraft.Draft` class, for the draft's operations.

Outside inputs are parameters:
- the device's success or failure on a write (`io`);
- ids from `generateId()`;
- the timestamp of a new invoice.

A confirmation dialog is modelled as its confirming callback running.

Money, prices and weights are integers. Prices and totals are in minor units
(đồng).

Three points where the code does less than one might expect:

- Load and remove both substitute a blank preset, so the screen never shows
  an empty catalog once loaded. `handleSave`
  (src/screens/SettingsScreen.tsx:111-146) works on whatever `presets`
  holds, though. Before the initial load completes, that is `[]`: it passes
  validation and is persisted as an empty catalog. The same holds for good
  after a load whose `getFruitPresets()` rejects
  (src/screens/SettingsScreen.tsx:52): nothing catches the rejection, so
  `presets` stays `[]`, and a later save persists an empty catalog. In the
  model that is a screen on which `Load` never ran. `Settings.PlanSave` and
  `Settings.PersistedCatalogNonEmpty` state this. The screen's ghost flag
  `loaded` makes "a save that goes through after loading persists a
  non-empty catalog" an invariant of `SettingsScreen`.
- The home screen's own check lets an empty draft through, because
  `findIndex` over no lines is -1 (src/screens/HomeScreen.tsx:131-138). The
  contract assumed for the hook's `saveCurrentInvoice` refuses a draft with
  no lines (`EmptyDraft`), so no invoice without lines is stored.
- The screen's reset (src/screens/HomeScreen.tsx:88-101) calls
  `resetInvoice()` and nothing else. The note is the screen's own state
  (line 42), so a reset leaves it as it was; `InvoiceDraft.Draft.ResetInvoice`
  empties only the lines.

## Model

| member | source | states |
|---|---|---|
| InvoiceTypes.DayKey | src/screens/StatsScreen.tsx:33 | the day key is the first ten characters of `createdAt`, or all of it when shorter, and is a prefix of it |
| Seqs.Filter | src/screens/HistoryScreen.tsx:48 | `filter` keeps exactly the elements satisfying the predicate, in their order (a subsequence of the input), and as many as pass the predicate (`CountWhere`), so never more than the input |
| Seqs.FilterMultiset | src/screens/HistoryScreen.tsx:48 | `filter` keeps every occurrence of each passing element and none of the others: the result's multiplicity of `x` is `x`'s multiplicity in the input when `x` passes, else 0 |
| Seqs.KeptSubsequenceBound | src/screens/HistoryScreen.tsx:48 | a subsequence made only of passing elements has at most as many elements as pass |
| Seqs.FilterDetermined | src/screens/HistoryScreen.tsx:48 | the contract of `Filter` determines its result: any subsequence of only passing elements, as long as the number that pass, is the filter |
| Seqs.FilterKeepsAll | src/screens/HistoryScreen.tsx:48 | when every element satisfies the predicate, filtering returns the list unchanged |
| Seqs.FilterIdempotent | src/screens/HistoryScreen.tsx:48 | filtering twice by the same predicate is filtering once |
| Seqs.FilterDropsOne | src/screens/HistoryScreen.tsx:48 | when exactly one element fails the predicate, the result is one shorter |
| Seqs.FindIndex | src/screens/HomeScreen.tsx:131-136 | `findIndex` returns -1 exactly when no element matches, and otherwise an index that matches with no match before it |
| Seqs.MapWhere | src/screens/SettingsScreen.tsx:64-72 | the `map` that rewrites the selected elements: same length, selected positions changed, all others untouched |
| Seqs.SubsequenceUniqueBy | src/screens/HomeScreen.tsx:83 | a subsequence of a list with unique keys has unique keys |
| Seqs.SubsequencePairwise | src/screens/HomeScreen.tsx:83 | a relation that holds between every earlier and later element of a list still holds after elements are deleted |
| Strings.TrimStart | src/screens/SettingsScreen.tsx:113 | the result is a suffix of the input, everything removed is whitespace, and it does not start with whitespace |
| Strings.TrimEnd | src/screens/SettingsScreen.tsx:113 | the result is a prefix of the input, everything removed is whitespace, and it does not end with whitespace |
| Strings.Trim | src/screens/SettingsScreen.tsx:113 | `.trim()` is the slice of the name between its first and last non-whitespace characters; everything cut off at either end is whitespace, and the result neither starts nor ends with whitespace |
| Strings.TrimEmptyIffBlank | src/screens/SettingsScreen.tsx:113 | `!p.name.trim()` holds exactly when every character of the name is whitespace (both directions) |
| Strings.StrLessIrreflexive | src/screens/StatsScreen.tsx:42 | the date order used by the sort is irreflexive |
| Strings.StrLessTransitive | src/screens/StatsScreen.tsx:42 | the date order is transitive |
| Strings.StrLessTotal | src/screens/StatsScreen.tsx:42 | two different dates are ordered one way or the other |
| Strings.StrLessAsymmetric | src/screens/StatsScreen.tsx:42 | the date order is asymmetric |
| Storage.WithoutInvoice | src/screens/HistoryScreen.tsx:48 | no invoice with the id remains, every other invoice remains in its order with all its occurrences, and an absent id leaves the list unchanged |
| Storage.WithoutInvoiceIdempotent | src/screens/HistoryScreen.tsx:47-48 | deleting an id twice is deleting it once |
| Storage.WithoutDay | src/screens/StatsScreen.tsx:72 | no invoice of that day remains, every invoice of another day remains in its order with all its occurrences |
| Storage.WithoutDayIdempotent | src/screens/StatsScreen.tsx:72 | deleting a day twice is deleting it once |
| Storage.Store.GetInvoices | src/screens/StatsScreen.tsx:47 | `getInvoices()` returns the stored invoices |
| Storage.Store.GetFruitPresets | src/screens/SettingsScreen.tsx:52 | `getFruitPresets()` returns the stored catalog |
| Storage.Store.SaveFruitPresets | src/screens/SettingsScreen.tsx:138 | `saveFruitPresets(ps)` either replaces the catalog with `ps` or fails and changes nothing |
| Storage.Store.AddInvoice | src/screens/HomeScreen.tsx:162 | the invoice `saveCurrentInvoice` writes is stored in front of the others, or the write fails and nothing changes |
| Storage.Store.DeleteInvoiceById | src/screens/HistoryScreen.tsx:47 | `deleteInvoiceById(id)` removes that id's invoices, or fails and changes nothing |
| Storage.Store.DeleteInvoicesByDate | src/screens/StatsScreen.tsx:72 | `deleteInvoicesByDate(day)` removes every invoice of the day, or fails and changes nothing |
| Storage.Store.ClearAllInvoices | src/screens/StatsScreen.tsx:91 | `clearAllInvoices()` empties the store, or fails and changes nothing |
| Stats.DaysAreDayKeys | src/screens/StatsScreen.tsx:33 | a key is a day of the invoices exactly when some invoice's `createdAt` has that day key |
| Stats.CountPositiveIffDay | src/screens/StatsScreen.tsx:33-36 | a day's count is positive exactly when the day occurs, and an absent day has total 0 |
| Stats.DaysPartition | src/screens/StatsScreen.tsx:32-38 | summing the per-day counts and totals over a list that names every day once gives the invoice count and the amount sum |
| Stats.ColumnsAreDaySums | src/screens/StatsScreen.tsx:32-38 | the count and total columns of a summary are the per-day reference counts and sums |
| Stats.SummaryConserves | src/screens/StatsScreen.tsx:32-38 | in a summary, the counts add up to the number of invoices and the totals to the sum of `totalAmount` |
| Stats.SummaryEmptyIffNoInvoices | src/screens/StatsScreen.tsx:32-41 | a summary is empty exactly when there are no invoices |
| Stats.SummaryDatesDistinct | src/screens/StatsScreen.tsx:30-41 | a summary lists each date at most once |
| Stats.SameDatesSamePlaces | src/screens/StatsScreen.tsx:42 | two strictly descending lists with the same dates have them at the same positions |
| Stats.SummaryUnique | src/screens/StatsScreen.tsx:29-43 | two summaries of the same invoices are equal, so the result does not depend on map order |
| Stats.InsertByDate | src/screens/StatsScreen.tsx:42 | inserting a row keeps the multiset of rows plus that row |
| Stats.SortByDate | src/screens/StatsScreen.tsx:42 | sorting is a permutation of the rows |
| Stats.InsertKeepsDescending | src/screens/StatsScreen.tsx:42 | inserting a row with a new date into a descending list keeps it descending |
| Stats.SortDescending | src/screens/StatsScreen.tsx:42 | rows with distinct dates come out strictly descending by date (`b.date.localeCompare(a.date)`) |
| Stats.GroupByDay | src/screens/StatsScreen.tsx:30-38 | after the `forEach`, the map holds exactly the days that occur, each day's tally is its invoice count and amount sum, and the key sequence lists each day once |
| Stats.GroupedEntriesSummarize | src/screens/StatsScreen.tsx:40-42 | the map's entries, turned into rows and sorted, are the per-day summary |
| Stats.ComputeStats | src/screens/StatsScreen.tsx:29-43 | `computeStats` returns the per-day summary of its input, conserves count and amount, and is empty exactly for no invoices |
| Stats.DeletedDayIsGone | src/screens/StatsScreen.tsx:72-74 | the summary recomputed after deleting a day has no row for that day |
| Stats.StatsScreen.constructor | src/screens/StatsScreen.tsx:25 | the screen starts with an empty list |
| Stats.StatsScreen.LoadStats | src/screens/StatsScreen.tsx:45-63 | loading (and refreshing) shows the summary of the stored invoices |
| Stats.StatsScreen.DeleteDay | src/screens/StatsScreen.tsx:65-78 | a confirmed delete removes the day from the store and shows the new summary, in which the day does not occur; a failed delete changes nothing |
| Stats.StatsScreen.ClearAll | src/screens/StatsScreen.tsx:80-96 | an empty list returns without a store call; otherwise a confirmed clear empties the store and the list |
| InvoiceDraft.FirstIncompleteItem | src/screens/HomeScreen.tsx:131-136 | -1 exactly when every line has a non-empty (untrimmed) name, positive price and positive weight; otherwise the first line that fails |
| InvoiceDraft.LineTotal | src/screens/HomeScreen.tsx:28 | a line's total is its price per kg times its weight; it is positive for a complete line and 0 when price or weight is 0 |
| InvoiceDraft.ItemsTotal | src/screens/HomeScreen.tsx:28 | the hook's `totalAmount`, the sum of the line totals: 0 for no lines, positive for a non-empty draft of complete lines |
| InvoiceDraft.ItemsTotalAppend | src/screens/HomeScreen.tsx:28 | the total of two runs of lines is the sum of their totals |
| InvoiceDraft.NewInvoice | src/screens/HomeScreen.tsx:162 | the invoice a save builds carries the given id, timestamp, note and lines, and the lines' total as `totalAmount`, which is positive for a non-empty draft of complete lines |
| InvoiceDraft.ApplyPreset | src/screens/HomeScreen.tsx:105 | the target line takes the preset's id, name and price and keeps its weight; other lines are unchanged |
| InvoiceDraft.SecondApplicationRejected | src/screens/HomeScreen.tsx:105-106 | once a line carries a preset, applying that preset to any other line is refused |
| InvoiceDraft.ApplyKeepsOneLinePerPreset | src/screens/HomeScreen.tsx:105 | with unique line ids, applying a preset no other line carries leaves no preset on two lines |
| InvoiceDraft.WithoutItem | src/screens/HomeScreen.tsx:83 | removing a line keeps every other line, in order and with all its occurrences, and keeps line ids unique |
| InvoiceDraft.RemoveExistingShortens | src/screens/HomeScreen.tsx:83 | removing a line that is there shortens the draft by exactly one |
| InvoiceDraft.Coerce | src/screens/HomeScreen.tsx:199-205 | numeric text that does not parse or is negative becomes 0; other values are kept |
| InvoiceDraft.EditItem | src/screens/HomeScreen.tsx:199-205 | an edit changes exactly the named field, keeps the id and preset link, and never stores a negative price or weight |
| InvoiceDraft.Draft.constructor | src/screens/HomeScreen.tsx:26-37 | the draft starts empty, with unique line ids and one line per preset |
| InvoiceDraft.Draft.TotalAmount | src/screens/HomeScreen.tsx:272 | the total shown under the lines: 0 for an empty draft, positive once every line of a non-empty draft is complete |
| InvoiceDraft.Draft.AddItem | src/screens/HomeScreen.tsx:215 | `addItem()` appends one blank line under a new id, keeping ids unique |
| InvoiceDraft.Draft.ApplyPresetToItem | src/screens/HomeScreen.tsx:105 | refused, changing nothing, exactly when another line carries the preset; otherwise the preset is applied to the target line |
| InvoiceDraft.Draft.RemoveItem | src/screens/HomeScreen.tsx:83 | `removeItem(id)` removes the line |
| InvoiceDraft.Draft.UpdateItemField | src/screens/HomeScreen.tsx:199-205 | `updateItemField` edits only the lines with that id |
| InvoiceDraft.Draft.ResetInvoice | src/screens/HomeScreen.tsx:88-101 | `resetInvoice()` empties the draft's lines; the screen's note is not the draft's and is left as it is |
| InvoiceDraft.Draft.SaveCurrentInvoice | src/screens/HomeScreen.tsx:162 | an incomplete draft is refused at its first incomplete line and an empty draft is refused, both storing nothing; otherwise the invoice of the lines and their total is stored and the draft emptied, or the write fails and nothing changes; a stored invoice always has at least one line, every line complete, and a total equal to the total the draft showed, which is positive |
| Home.PresetLineIndex | src/screens/HomeScreen.tsx:112 | the first line whose `presetId` is the preset's id, or -1 when there is none |
| Home.RefusalHasLine | src/screens/HomeScreen.tsx:105-113 | after a refusal there is always a line to reveal, at or before the line that caused it; in a draft with one line per preset it is exactly the conflicting line, never the target line |
| Home.RepeatedPickRevealsFirst | src/screens/HomeScreen.tsx:105-112 | once a line took a preset, picking it for another line is refused and reveals that line |
| Home.NoTarget | src/screens/HomeScreen.tsx:104 | `!pickerTargetId`: there is no target line, or its id is the empty string |
| Home.HomeScreen.constructor | src/screens/HomeScreen.tsx:39-42 | empty catalog, picker hidden, no target, empty note |
| Home.HomeScreen.LoadPresets | src/screens/HomeScreen.tsx:45-57 | the focus effect shows the stored catalog |
| Home.HomeScreen.SetNote | src/screens/HomeScreen.tsx:262-267 | typing sets the note |
| Home.HomeScreen.OpenFruitPicker | src/screens/HomeScreen.tsx:59-70 | with an empty catalog neither the target nor the visibility changes; otherwise the picker shows for that line |
| Home.HomeScreen.ClosePicker | src/screens/HomeScreen.tsx:72-75 | the picker is hidden and the target cleared |
| Home.HomeScreen.SelectPresetForItem | src/screens/HomeScreen.tsx:103-128 | without a target nothing happens; otherwise the preset is applied or refused, a refusal reveals the first line with that preset, which is a line other than the target, and the picker closes |
| Home.HomeScreen.SaveWithValidation | src/screens/HomeScreen.tsx:130-165 | the first incomplete line is reported and nothing is saved; an empty draft passes the screen's check but nothing is saved; otherwise the draft is stored with the note, then the draft and the note are cleared |
| Settings.EmptyPreset | src/screens/SettingsScreen.tsx:22-26 | `createEmptyPreset()` is a preset with the fresh id, an empty name and price 0, which may not be saved until it is filled in |
| Settings.LoadedCatalog | src/screens/SettingsScreen.tsx:52-57 | an empty stored catalog loads as one blank preset; any other loads unchanged |
| Settings.EditPreset | src/screens/SettingsScreen.tsx:66-71 | a price edit keeps id and name and stores `max(0, thousands * 1000)`; a text edit sets that field |
| Settings.UpdatePresetField | src/screens/SettingsScreen.tsx:62-76 | only presets with the id are edited; the others and the length are unchanged |
| Settings.RemovePreset | src/screens/SettingsScreen.tsx:85-91 | never empty; the presets with another id stay in order with all their occurrences, and when none does, one blank preset with name "" and price 0 |
| Settings.FirstIncompletePreset | src/screens/SettingsScreen.tsx:112-114 | -1 exactly when every preset has a non-blank trimmed name and a positive price; otherwise the first that does not |
| Settings.BlankNameBlocksSave | src/screens/SettingsScreen.tsx:112-116 | a preset whose name is only whitespace, or whose price is not positive, blocks the save at or before it |
| Settings.PlanSave | src/screens/SettingsScreen.tsx:111-135 | refuse at the first incomplete preset; when validation passes, `cleaned` equals `presets` |
| Settings.PersistedCatalogNonEmpty | src/screens/SettingsScreen.tsx:135-139 | a non-empty catalog that passes validation persists non-empty; an empty one persists `[]` |
| Settings.SettingsScreen.constructor | src/screens/SettingsScreen.tsx:29-30 | the screen starts with an empty list, not saving |
| Settings.SettingsScreen.Load | src/screens/SettingsScreen.tsx:50-60 | after loading, the screen shows the stored catalog or one blank preset, and is never empty from then on |
| Settings.SettingsScreen.UpdateField | src/screens/SettingsScreen.tsx:62-76 | the field edit applied to the state |
| Settings.SettingsScreen.AddPreset | src/screens/SettingsScreen.tsx:78-83 | the list grows by one blank preset at the end, the prefix unchanged |
| Settings.SettingsScreen.RemovePresetById | src/screens/SettingsScreen.tsx:85-109 | a confirmed removal applied to the state; the list stays non-empty |
| Settings.SettingsScreen.HandleSave | src/screens/SettingsScreen.tsx:111-146 | a refusal persists nothing and changes nothing; otherwise the catalog is written and then shown (non-empty), and after loading the written catalog is non-empty; a failed write changes nothing |
| History.HistoryScreen.constructor | src/screens/HistoryScreen.tsx:29 | the screen starts with an empty list |
| History.HistoryScreen.LoadInvoices | src/screens/HistoryScreen.tsx:33-38 | the list shows the stored invoices |
| History.HistoryScreen.DeleteInvoice | src/screens/HistoryScreen.tsx:40-52 | a confirmed delete removes the id from the store and from the list, keeping the others in order |
| History.HistoryScreen.ClearAll | src/screens/HistoryScreen.tsx:54-74 | an empty list returns without a store call; otherwise a confirmed clear empties the store and the list |

## Left out

- The storage modules and the `useInvoice` hook: their code is not part of this model. `Storage.Store` carries the contract assumed for the stores: a read returns the stored list, a write replaces it or changes nothing. `InvoiceDraft.Draft` carries the contract assumed for the hook: unique line ids, a preset applied only when no other line carries it (so no preset is ever on two lines, an invariant of `Draft`), and a save that stores only a non-empty draft of complete lines. The model does not capture any ordering `getInvoices` might impose on the list it returns (for instance by `createdAt`), or the read-modify-write of AsyncStorage.
- Storage.Store.GetInvoices and Storage.Store.GetFruitPresets never fail in the model: a read always returns the stored list. A rejected read in the source leaves the screen's list as it was (for the settings screen, `[]` for good, as described above); the model covers that as the load not having run.
- InvoiceDraft.Draft.SaveCurrentInvoice: the refusal of an empty draft is the contract assumed for the hook, whose code is not part of this model; the screen's own check does not refuse an empty draft.
- `addItemFromPreset` of `useInvoice`: the screens never call it (src/screens/HomeScreen.tsx:31 only destructures it).
- `parseFloat` and fractional weights: a numeric field is modelled as an already-parsed `Option<int>`, where `None` means the text does not parse. Prices are whole thousands of đồng and weights are whole numbers. Floating-point rounding in totals is not modelled.
- `localeCompare`: modelled as plain lexicographic order on characters, which orders zero-padded ISO dates correctly. Locale collation is not modelled.
- Strings are sequences of characters. JavaScript's UTF-16 code units and `slice` on surrogate pairs are not modelled. `trim` removes the ECMAScript whitespace and line-terminator characters.
- `Alert.alert` dialogs, `scrollToIndex`/`scrollToEnd`, `setTimeout`, list refs, keyboard handling and styles are UI. A dialog is modelled as its callback running, or not running when cancelled.
- The `loading`/`refreshing` spinners, the `cancelled` flag of the home screen's focus effect, and the interleaving of an in-flight save with other events are event-loop timing. The `saving` and `isSaving` flags are set and cleared inside one atomic method.
- `Settings.SettingsScreen.HandleSave`: a write that throws is modelled as `io == false`. The source then leaves the screen state as it was, and so does the model.
- `InvoiceDetailScreen` and `App.tsx`: rendering and navigation only.
