# jobtracker core in Dafny

jobtracker is a terminal job-application tracker. It keeps a list of applications, each
with a company, a platform, a resume version, a status, a date and notes. The user browses
the list, adds or edits a record in a seven-field form, deletes records, and views three
bar charts (by resume version, by platform, by status). This project models the part of
the program that decides what happens:

- **Models** (`models.dfy`, src/models.rs): the record and its enumerations. This covers
  `Status` with its fixed order, `Platform` with its `Other(String)` case and the
  `from_str`/`as_str` pair, the preset tables and the defaults.
- **AppSpec** (`app_spec.dfy`, src/app.rs) is the application state as a value. It holds
  every field of `App` as a `State` and has one function per `App` operation. Field and
  chart cycling are worked out over the `all()` tables by `position`, as the source does.
  The invariant the source leaves implicit is made explicit as `Valid`:
  - the list cursor is 0 on an empty list and otherwise indexes a record;
  - an `Edit(i)` form targets an existing record;
  - each dropdown cursor indexes its table.

  `Consistent` adds that a form is open exactly while the form view shows.
- **AppState** (`app_state.dfy`) holds the `App` class. Its methods update the fields in
  place, as the Rust `&mut self` methods do. Each is proved to reach exactly the state the
  matching AppSpec function gives.
- **HandlerSpec** and **Handlers** (`handler_spec.dfy`, `handlers.dfy`, src/handlers.rs)
  cover the key dispatcher. HandlerSpec computes the new state and outcome of each key in
  each view, and its lemmas state what the dispatcher promises. Handlers runs the same
  dispatch on an `App` object and is proved equal to HandlerSpec.
- **ChartData** (`chart.dfy`, src/ui/chart.rs) is the data behind the charts:
  - the hash-map tally loop;
  - collecting the pairs in an order left open;
  - ranking by count (descending) then label (ascending);
  - the resume chart's cut to ten bars;
  - the fixed four-bar status series;
  - the "No data available" conditions.
- **Iter** and **Text** (`iter.dfy`, `text.dfy`) hold the few library operations the
  source uses:
  - `Iterator::position` and `unwrap_or`;
  - `trim().is_empty()` (Rust's Unicode White_Space set);
  - `String::pop`;
  - the lexicographic `Ord` of `str`.

The environment is passed in as parameters:
- storage, as `storageOk`, which says whether a write succeeds;
- the clock, as `today`;
- chrono's date parser and printer, as function-valued fields of `Env`.

## Model

| member | source | states |
|---|---|---|
| Iter.Position | src/app.rs:47 | the index returned satisfies the test and no earlier element does; None means no element does |
| Iter.IndexOf | src/app.rs:93 | the index holds the value and no earlier one does; None exactly when the value is absent |
| Text.Pop | src/handlers.rs:172 | an empty string stays empty; otherwise exactly the last character is removed |
| Text.PopPush | src/handlers.rs:140-142 | popping after pushing a character gives the string back |
| Text.LessTotal | src/ui/chart.rs:58 | two different labels are always ordered one way or the other by `str`'s order |
| Text.LessTransitive | src/ui/chart.rs:58 | the label order is transitive |
| Models.AllStatusesEnumerates | src/models.rs:14-25 | `Status::all()` has four entries, lists every status, has no repeats, and `as_str` is injective |
| Models.PlatformFromStr | src/models.rs:48-55 | the result is a custom platform exactly when the text is not one of the three named labels |
| Models.AsStrFromStr | src/models.rs:48-64 | `as_str(from_str(s)) == s` for every string |
| Models.FromStrAsStr | src/models.rs:48-64 | `from_str(as_str(p)) == p` exactly unless p is a custom platform whose text is a named label |
| Models.PresetsShape | src/models.rs:44-46 | four presets, the first three are named labels, the last is "Other", and reading it gives `Other("Other")` |
| Models.NewApplication | src/models.rs:86-96 | empty company, version and notes; LinkedIn; Applied; resume not modified; dated today |
| AppSpec.FieldSuccessors | src/app.rs:33-59 | the successor and predecessor of each of the seven fields, following `FormField::all()` and wrapping at both ends |
| AppSpec.ChartSuccessors | src/app.rs:83-95 | resume version, then platform, then status, then back |
| AppSpec.FieldCycle | src/app.rs:45-59 | `prev` undoes `next` and vice versa; seven `next`s return to the start |
| AppSpec.ChartCycle | src/app.rs:91-95 | three `next`s return to the start |
| AppSpec.StatusCursor | src/app.rs:168-171 | the status dropdown cursor is in range and points at the record's own status |
| AppSpec.PlatformCursorOf | src/app.rs:174-184 | named platforms get 0, 1, 2; a custom platform gets 3 unless its text is a named label, in which case it gets that label's entry |
| AppSpec.PlatformCursorRoundTrip | src/app.rs:174-184 | confirming the platform dropdown right after opening a record restores its platform exactly when it is named or the custom text "Other" |
| AppSpec.InitConsistent | src/app.rs:122-136 | the new App shows the list with the loaded records and meets every bound |
| AppSpec.NavigationPreservesValid | src/app.rs:215-279 | cancel, cursor moves, chart and field cycling and quit keep every bound; cancel, and showing chart or list with no form open, also close the form outside the form view |
| AppSpec.StartPreservesValid | src/app.rs:145-188 | opening the form (add, or edit of a selected record) keeps every bound and shows an open form |
| AppSpec.SaveFormPreservesValid | src/app.rs:191-211 | committing keeps every bound whether or not the write succeeds |
| AppSpec.DeletePreservesValid | src/app.rs:221-230 | deleting keeps the list cursor on a record (or 0), and every bound when no form is open |
| AppSpec.SelectMoves | src/app.rs:233-248 | no move on an empty list or at the matching end; otherwise the cursor moves by exactly one, and the two moves undo each other |
| AppSpec.DeleteRemovesSelected | src/app.rs:221-230 | exactly the selected record goes, the rest keep their order, the cursor steps back only if it was last and not first, nothing else changes; failure only from a failed write |
| AppSpec.DeleteAtEnd | src/app.rs:224-226 | deleting the only record leaves cursor 0; deleting the last of several moves the cursor up one |
| AppSpec.SaveBlankIsNoOp | src/app.rs:193-195 | a whitespace-only company name makes saving change nothing and succeed |
| AppSpec.SaveFormCommits | src/app.rs:197-209 | Add appends the draft; Edit(i) overwrites record i only; success closes the form into the list; a failed write keeps the changed records with the form still open; nothing but the records, view and form mode changes |
| AppSpec.StartEditLoadsRecord | src/app.rs:156-188 | on an empty list nothing happens; otherwise the selected record is loaded into an Edit form, with the status and resume dropdowns on its values and the platform dropdown at the entry `PlatformCursor` picks |
| AppSpec.StartAddResetsForm | src/app.rs:145-153 | an empty Add form on the first field with every dropdown at 0; records and cursor untouched |
| AppSpec.AddThenSave | src/app.rs:145-153 | after `start_add`, saving a draft with a company appends exactly it; the empty draft adds nothing |
| AppSpec.EditThenSave | src/app.rs:156-165 | after `start_edit`, saving overwrites the selected record only |
| AppSpec.CancelKeepsRecords | src/app.rs:215-218 | cancel goes to the list and closes the form, and nothing else changes |
| AppSpec.ChartNavigation | src/app.rs:251-259 | `show_chart` always starts at the resume-version chart; three `next_chart`s are the identity |
| AppSpec.FieldNavigation | src/app.rs:267-274 | `prev_field` undoes `next_field`; seven `next_field`s are the identity |
| AppState.App.constructor | src/app.rs:122-136 | the object holds the initial state and meets every bound |
| AppState.App.StartAdd | src/app.rs:145-153 | the new fields are those of AppSpec.StartAdd, and the bounds hold with the form open |
| AppState.App.StartEdit | src/app.rs:156-188 | the new fields are those of AppSpec.StartEdit; bounds kept |
| AppState.App.PointDropdownsAt | src/app.rs:167-187 | the three dropdown cursors move to the given record's status, platform and resume flag; no other field changes |
| AppState.App.SaveForm | src/app.rs:191-211 | fields and outcome as AppSpec.SaveForm; bounds and consistency kept |
| AppState.App.CancelForm | src/app.rs:215-218 | fields as AppSpec.CancelForm; consistent afterwards |
| AppState.App.DeleteSelected | src/app.rs:221-230 | fields and outcome as AppSpec.DeleteSelected; the cursor stays in bounds |
| AppState.App.SelectPrevious | src/app.rs:233-239 | fields as AppSpec.SelectPrevious; bounds kept |
| AppState.App.SelectNext | src/app.rs:242-248 | fields as AppSpec.SelectNext; bounds kept |
| AppState.App.ShowChart | src/app.rs:251-254 | fields as AppSpec.ShowChart; bounds kept |
| AppState.App.NextChart | src/app.rs:257-259 | fields as AppSpec.NextChart; bounds kept |
| AppState.App.ShowList | src/app.rs:262-264 | fields as AppSpec.ShowList; bounds kept |
| AppState.App.NextField | src/app.rs:267-269 | fields as AppSpec.NextField; bounds kept |
| AppState.App.PrevField | src/app.rs:272-274 | fields as AppSpec.PrevField; bounds kept |
| AppState.App.Quit | src/app.rs:277-279 | fields as AppSpec.Quit; bounds kept |
| HandlerSpec.KeyPreservesConsistent | src/handlers.rs:7-13 | every key in every reachable state leads to a reachable state, so no index in the program goes out of range |
| HandlerSpec.ListKeyPreservesConsistent | src/handlers.rs:16-28 | every list-view key keeps the state reachable |
| HandlerSpec.FormKeyPreservesConsistent | src/handlers.rs:31-120 | every form-view key keeps the state reachable |
| HandlerSpec.EnterPreservesConsistent | src/handlers.rs:37-60 | Enter on any field keeps the state reachable |
| HandlerSpec.OnlyCommitAndDeleteTouchRecords | src/handlers.rs:16-60 | the records change only through Ctrl+s or Enter on Notes in the form, or 'd' in the list |
| HandlerSpec.ListKeysKeepRecords | src/handlers.rs:16-28 | no list key other than 'd' changes the records |
| HandlerSpec.FormKeysKeepRecords | src/handlers.rs:31-120 | no form key other than Ctrl+s, or Enter on Notes, changes the records |
| HandlerSpec.OnlyWritesFail | src/handlers.rs:16-60 | a key reports an error only when a storage write fails |
| HandlerSpec.UnboundKeysIgnored | src/handlers.rs:123-130 | in the chart view Esc returns to the list and Tab moves to the next chart, changing nothing else, and other keys do nothing; unbound keys in the list and form views do nothing |
| HandlerSpec.DropdownKeys | src/handlers.rs:69-110 | in the form, 'j'/'k' move the active dropdown one step without wrapping (0..3, or 0..1 for the resume choice), type nothing, and do nothing on other fields |
| HandlerSpec.DropdownKeysKeepBounds | src/handlers.rs:69-110 | the dropdown moves keep every cursor in its table and change only the cursors |
| HandlerSpec.EnterKey | src/handlers.rs:37-60 | Enter copies the option under a dropdown's cursor into the draft and moves to the next field; on Notes it saves; elsewhere it only moves on |
| HandlerSpec.EnterOnOtherDiscardsCustomText | src/handlers.rs:41-44 | Enter with the platform cursor on "Other" stores the custom platform "Other", dropping any typed text |
| HandlerSpec.CtrlSSaves | src/handlers.rs:34-36 | Ctrl+s saves from any field; a plain 's' is typed into the field |
| HandlerSpec.TextFieldsEdit | src/handlers.rs:140-142 | typing appends exactly the character to the active text field, changing nothing else; Backspace undoes it; Backspace on an empty field does nothing |
| HandlerSpec.BackspacePops | src/handlers.rs:169-190 | Backspace removes the last character of the active text field, whatever that character is, and of custom platform text with the cursor on "Other"; on Platform otherwise nothing changes |
| HandlerSpec.PlatformTextEdit | src/handlers.rs:143-152 | custom platform text changes only with the cursor on "Other": a character extends it or starts a new custom text; Backspace shortens only custom text |
| HandlerSpec.DateInput | src/handlers.rs:153-163 | on Date only a digit or '-' counts, and the date changes only to what the printed date plus that character parses to; Backspace there, and typing on Status or ResumeModified, change nothing |
| HandlerSpec.DateTypingWithoutParseKeepsState | src/handlers.rs:156-161 | typing characters that do not extend the printed date to a parsable one leaves the whole state unchanged |
| HandlerSpec.DraftEditsTouchOnlyDraft | src/handlers.rs:133-190 | typing and Backspace change the draft record and nothing else |
| Handlers.HandleKeyEvent | src/handlers.rs:7-13 | state and outcome as HandlerSpec.HandleKeyEvent; consistency kept; an error only from a failed write |
| Handlers.HandleListKeys | src/handlers.rs:16-28 | state and outcome as HandlerSpec.HandleListKeys |
| Handlers.HandleFormKeys | src/handlers.rs:31-120 | state and outcome as HandlerSpec.HandleFormKeys |
| Handlers.HandleChartKeys | src/handlers.rs:123-130 | state as HandlerSpec.HandleChartKeys |
| Handlers.HandleEnter | src/handlers.rs:37-60 | state and outcome as HandlerSpec.HandleEnter |
| Handlers.DropdownUp | src/handlers.rs:69-89 | state as HandlerSpec.DropdownUp |
| Handlers.DropdownDown | src/handlers.rs:90-110 | state as HandlerSpec.DropdownDown |
| Handlers.HandleTextInput | src/handlers.rs:133-166 | state as HandlerSpec.HandleTextInput; only the draft changes |
| Handlers.HandleBackspace | src/handlers.rs:169-190 | state as HandlerSpec.HandleBackspace; only the draft changes |
| ChartData.Count | src/ui/chart.rs:53 | a count never exceeds the list length and is positive exactly when the label occurs |
| ChartData.Tally | src/ui/chart.rs:45-54 | the map holds exactly the labels that occur, each with its number of occurrences |
| ChartData.Entries | src/ui/chart.rs:56 | every pair of the map exactly once, in any order |
| ChartData.BeforeTotal | src/ui/chart.rs:58 | two bars with different labels are always ordered |
| ChartData.BeforeTransitive | src/ui/chart.rs:58 | the ranking order is transitive |
| ChartData.BeforeAsymmetric | src/ui/chart.rs:58 | the ranking order is asymmetric |
| ChartData.Insert | src/ui/chart.rs:58 | inserting into a ranked sequence gives a ranked sequence with the element added |
| ChartData.SortByRank | src/ui/chart.rs:58 | the result is ranked and a permutation of the input |
| ChartData.RankedUnique | src/ui/chart.rs:56-58 | two ranked sequences holding the same pairs are equal, so the bars do not depend on hash-map order |
| ChartData.TallySum | src/ui/chart.rs:45-56 | the counts of a tally add up to the number of items counted |
| ChartData.RankedTally | src/ui/chart.rs:45-58 | one pair per label with its count, each count at least 1, distinct labels, ranked, counts summing to the number of applications, empty exactly when there are none |
| ChartData.ResumeVersionSeries | src/ui/chart.rs:44-69 | at most ten ranked pairs from the tally of resume labels; any label left out ranks after all ten kept; empty exactly when there are no applications |
| ChartData.NoneMergesEmpty | src/ui/chart.rs:48-52 | the "None" bar counts the empty versions together with versions literally named "None" |
| ChartData.PlatformSeries | src/ui/chart.rs:91-111 | the full ranked tally of platform labels with counts summing to the number of applications; empty exactly when there are no applications |
| ChartData.StatusSeries | src/ui/chart.rs:131-149 | four pairs in `Status::all()` order, each the number of applications with that status; all zero exactly when there are none |
| ChartData.StatusCount | src/ui/chart.rs:134-137 | counting status labels gives the same as counting statuses |
| ChartData.StatusCountsSum | src/ui/chart.rs:139-147 | the four status counts add up to the number of applications |
| ChartData.Aggregate | src/ui/chart.rs:36-42 | each chart type yields its own series (the four exact status counts in `Status::all()` order; the full ranked platform tally summing to the number of applications; at most ten ranked resume-version pairs, any left-out label ranking after them), and "No data available" shows exactly when there are no applications |

## Left out

- Storage (src/storage.rs): loading and saving the JSON file is not modelled. Whether a
  write succeeds is the `storageOk` parameter, and `AppSpec.Save` and `AppState.App.Save` only turn it into an `Outcome`. The constructor takes the loaded records
  as an argument, so a failed load, which ends `App::new` with an error, is not modelled.
- The clock: `Local::now()` in `Application::new` is the `today` parameter.
- chrono: dates are an opaque `Date` triple. Parsing with `%Y-%m-%d` and printing a date
  are the `parseDate` and `showDate` fields of `Env`, so which keystrokes change a date is
  stated relative to them. The code appends the keystroke to the printed current date and
  keeps no separate typing buffer, and the model follows the code.
- crossterm key decoding: keys are the `KeyCode` datatype, and modifiers other than
  Control are not told apart.
- Drawing: layouts, colours, titles, the form and list screens and the `label()`/`title()`
  strings are presentation only and are not modelled.
- Counts are `u64` in the source and `nat` here. No realistic list can overflow them.
- ChartData.SortByRank: the library's `sort_by` is modelled as an insertion sort with
  the same promise (ranked and a permutation). RankedUnique shows that every correct sort
  gives the same result.
- ChartData.Entries: the order in which a `HashMap` yields its pairs is left unspecified,
  and chosen with `:|`.
- ChartData.ResumeVersionSeries: stated by its properties (ranked, at most ten, the
  left-out labels rank lower) rather than as equal to a named function. Together with
  RankedUnique, those properties determine it.
- Handlers.HandleKeyEvent: requires `Valid`, because the source indexes the preset and
  status tables and the record list with the cursors and would panic out of range.
  HandlerSpec.KeyPreservesConsistent proves every reachable state meets it.
- `anyhow` error values are reduced to `Outcome`: the only error is a failed write.
