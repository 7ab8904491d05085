/** The state machine of src/app.rs as values: the navigation enumerations, a snapshot
    of every field of `App`, and one function per `App` operation giving the state after
    it. The class in module AppState performs the same operations in place and is
    proved equal to these functions; the lemmas here state what the operations promise. */
module AppSpec {
  import opened Iter
  import opened Text
  import Models

  datatype View = List | Form | Chart

  datatype FormMode = Add | Edit(index: nat)

  /** The element after `x` in `table`, wrapping from the last to the first
      (`table[(position(x).unwrap() + 1) % len]`). */
  function CyclicNext<T(==)>(table: seq<T>, x: T): (y: T)
    requires x in table
    ensures y in table
  {
    var i := IndexOf(table, x).value;
    table[(i + 1) % |table|]
  }

  /** The element before `x` in `table`, wrapping from the first to the last. */
  function CyclicPrev<T(==)>(table: seq<T>, x: T): (y: T)
    requires x in table
    ensures y in table
  {
    var i := IndexOf(table, x).value;
    if i == 0 then table[|table| - 1] else table[i - 1]
  }

  predicate Distinct<T(==)>(table: seq<T>) {
    forall a, b :: 0 <= a < b < |table| ==> table[a] != table[b]
  }

  datatype FormField = CompanyName | Platform | ResumeModified | ResumeVersion | Status | Date | Notes {
    /** `FormField::all()`: the order in which the form visits its fields. */
    static function All(): seq<FormField> {
      [CompanyName, Platform, ResumeModified, ResumeVersion, Status, Date, Notes]
    }

    function Next(): FormField {
      FieldListed(this);
      CyclicNext(All(), this)
    }

    function Prev(): FormField {
      FieldListed(this);
      CyclicPrev(All(), this)
    }
  }

  datatype ChartType = ByResumeVersion | ByPlatform | ByStatus {
    /** `ChartType::all()`: the order in which Tab cycles through the charts. */
    static function All(): seq<ChartType> {
      [ByResumeVersion, ByPlatform, ByStatus]
    }

    function Next(): ChartType {
      ChartListed(this);
      CyclicNext(All(), this)
    }
  }

  lemma FieldListed(f: FormField)
    ensures f in FormField.All()
  {
    match f { case _ => }
  }

  lemma ChartListed(c: ChartType)
    ensures c in ChartType.All()
  {
    match c { case _ => }
  }

  /** The successor and predecessor of every field, read off `FormField::all()`. */
  lemma FieldSuccessors()
    ensures CompanyName.Next() == Platform && Platform.Next() == ResumeModified
    ensures ResumeModified.Next() == ResumeVersion && ResumeVersion.Next() == Status
    ensures Status.Next() == Date && Date.Next() == Notes && Notes.Next() == CompanyName
    ensures CompanyName.Prev() == Notes && Platform.Prev() == CompanyName
    ensures ResumeModified.Prev() == Platform && ResumeVersion.Prev() == ResumeModified
    ensures Status.Prev() == ResumeVersion && Date.Prev() == Status && Notes.Prev() == Date
  {
    FieldNexts();
    FieldPrevs();
  }

  lemma FieldNexts()
    ensures CompanyName.Next() == Platform && Platform.Next() == ResumeModified
    ensures ResumeModified.Next() == ResumeVersion && ResumeVersion.Next() == Status
    ensures Status.Next() == Date && Date.Next() == Notes && Notes.Next() == CompanyName
  {
    NextIs(0); NextIs(1); NextIs(2); NextIs(3); NextIs(4); NextIs(5); NextIs(6);
  }

  lemma FieldPrevs()
    ensures CompanyName.Prev() == Notes && Platform.Prev() == CompanyName
    ensures ResumeModified.Prev() == Platform && ResumeVersion.Prev() == ResumeModified
    ensures Status.Prev() == ResumeVersion && Date.Prev() == Status && Notes.Prev() == Date
  {
    PrevIs(0); PrevIs(1); PrevIs(2); PrevIs(3); PrevIs(4); PrevIs(5); PrevIs(6);
  }

  /** The field at position `i` of `FormField::all()` is followed by the one at `i + 1`. */
  lemma NextIs(i: nat)
    requires i < |FormField.All()|
    ensures FormField.All()[i].Next() == FormField.All()[if i == |FormField.All()| - 1 then 0 else i + 1]
  {
    assert Distinct(FormField.All());
    CyclicNextAt(FormField.All(), i);
  }

  /** The field at position `i` of `FormField::all()` is preceded by the one at `i - 1`. */
  lemma PrevIs(i: nat)
    requires i < |FormField.All()|
    ensures FormField.All()[i].Prev() == FormField.All()[if i == 0 then |FormField.All()| - 1 else i - 1]
  {
    assert Distinct(FormField.All());
    CyclicPrevAt(FormField.All(), i);
  }

  /** In a table without repetitions, the successor of the entry at `i` is the entry at
      `i + 1`, or the first entry when `i` is the last. */
  lemma CyclicNextAt<T>(table: seq<T>, i: nat)
    requires i < |table| && Distinct(table)
    ensures CyclicNext(table, table[i]) == table[if i == |table| - 1 then 0 else i + 1]
  {
    IndexOfDistinct(table, i);
    WrapStep(i, |table|);
  }

  /** Adding one modulo `n` steps to the next index, and from the last back to 0. */
  lemma WrapStep(i: nat, n: nat)
    requires i < n
    ensures (i + 1) % n == if i == n - 1 then 0 else i + 1
  {
    if i == n - 1 {
      assert (i + 1) % n == n % n;
    }
  }

  /** In a table without repetitions, the predecessor of the entry at `i` is the entry at
      `i - 1`, or the last entry when `i` is the first. */
  lemma CyclicPrevAt<T>(table: seq<T>, i: nat)
    requires i < |table| && Distinct(table)
    ensures CyclicPrev(table, table[i]) == table[if i == 0 then |table| - 1 else i - 1]
  {
    IndexOfDistinct(table, i);
  }

  /** The successor of every chart, read off `ChartType::all()`. */
  lemma ChartSuccessors()
    ensures ByResumeVersion.Next() == ByPlatform && ByPlatform.Next() == ByStatus
    ensures ByStatus.Next() == ByResumeVersion
  {
    var all := ChartType.All();
    assert Distinct(all);
    CyclicNextAt(all, 0);
    CyclicNextAt(all, 1);
    CyclicNextAt(all, 2);
  }

  /** Field cycling: `prev` undoes `next` and vice versa, and seven `next`s come back round. */
  lemma FieldCycle(f: FormField)
    ensures f.Next().Prev() == f && f.Prev().Next() == f
    ensures f.Next().Next().Next().Next().Next().Next().Next() == f
  {
    FieldSuccessors();
  }

  /** Chart cycling: three `next`s come back round. */
  lemma ChartCycle(c: ChartType)
    ensures c.Next().Next().Next() == c
  {
    ChartSuccessors();
  }

  /** Every field of `App`. */
  datatype State = State(
    applications: seq<Models.Application>,
    view: View,
    listSelected: nat,
    formMode: Option<FormMode>,
    formField: FormField,
    formData: Models.Application,
    platformDropdownSelected: nat,
    statusDropdownSelected: nat,
    resumeModifiedDropdownSelected: nat,
    chartType: ChartType,
    shouldQuit: bool)

  /** What a storage-touching operation returns: `Ok(())`, or the error of a failed write. */
  datatype Outcome = Ok | WriteFailed

  /** The list cursor indexes a record, or is 0 when there is none. */
  predicate CursorInBounds(s: State) {
    if |s.applications| == 0 then s.listSelected == 0 else s.listSelected < |s.applications|
  }

  /** An edit targets an existing record. */
  predicate EditTargetInBounds(s: State) {
    s.formMode.Some? && s.formMode.value.Edit? ==> s.formMode.value.index < |s.applications|
  }

  /** Each dropdown cursor indexes its own option table. */
  predicate DropdownsInBounds(s: State) {
    && s.platformDropdownSelected < |Models.Presets()|
    && s.statusDropdownSelected < |Models.AllStatuses()|
    && s.resumeModifiedDropdownSelected < 2
  }

  /** The bounds every indexing in src/app.rs and src/handlers.rs relies on. */
  predicate Valid(s: State) {
    CursorInBounds(s) && EditTargetInBounds(s) && DropdownsInBounds(s)
  }

  /** Valid, and a form is open exactly while the form view is shown: the states the key
      dispatcher can reach. */
  predicate Consistent(s: State) {
    Valid(s) && (s.view == Form <==> s.formMode.Some?)
  }

  /** `App::new` once the records have been loaded. */
  function Init(applications: seq<Models.Application>, today: Models.Date): State {
    State(applications, List, 0, None, CompanyName, Models.NewApplication(today),
          0, 0, 0, ByResumeVersion, false)
  }

  function StartAdd(s: State, today: Models.Date): State {
    s.(formMode := Some(Add), view := Form, formField := CompanyName,
       formData := Models.NewApplication(today),
       platformDropdownSelected := 0, statusDropdownSelected := 0,
       resumeModifiedDropdownSelected := 0)
  }

  /** The status dropdown entry of a record's status (`position(..).unwrap_or(0)`). */
  function StatusCursor(st: Models.Status): (k: nat)
    ensures k < |Models.AllStatuses()| && Models.AllStatuses()[k] == st
  {
    Models.AllStatusesEnumerates(st, st);
    IndexOf(Models.AllStatuses(), st).UnwrapOr(0)
  }

  /** The first preset whose label a record's platform matches: "Other" matches any custom
      platform, every other preset matches when its platform prints like the record's. */
  function PlatformCursor(p: Models.Platform): (k: nat)
    ensures k < |Models.Presets()|
  {
    Position(Models.Presets(),
             q => if q == "Other" then p.Other?
                  else Models.PlatformAsStr(Models.PlatformFromStr(q)) == Models.PlatformAsStr(p))
      .UnwrapOr(0)
  }

  /** The resume dropdown lists "Yes" then "No". */
  function ResumeCursor(modified: bool): nat {
    if modified then 0 else 1
  }

  function StartEdit(s: State): State
    requires CursorInBounds(s)
  {
    if |s.applications| == 0 then s
    else
      var index := s.listSelected;
      var draft := s.applications[index];
      s.(formMode := Some(Edit(index)), view := Form, formField := CompanyName,
         formData := draft,
         statusDropdownSelected := StatusCursor(draft.status),
         platformDropdownSelected := PlatformCursor(draft.platform),
         resumeModifiedDropdownSelected := ResumeCursor(draft.resumeModified))
  }

  /** `App::save`: the write to storage, whose success is given as `storageOk`. */
  function Save(storageOk: bool): (r: Outcome)
    ensures r == Ok <==> storageOk
  {
    if storageOk then Ok else WriteFailed
  }

  /** `save_form`: a blank company name leaves everything as it is; otherwise the draft is
      appended (Add) or written over its record (Edit), and only a successful write closes
      the form. */
  function SaveForm(s: State, storageOk: bool): (State, Outcome)
    requires EditTargetInBounds(s)
  {
    if IsBlank(s.formData.companyName) then (s, Ok)
    else
      var applications := match s.formMode
        case Some(Add) => s.applications + [s.formData]
        case Some(Edit(index)) => s.applications[index := s.formData]
        case None => s.applications;
      var mutated := s.(applications := applications);
      match Save(storageOk)
      case Ok => (mutated.(view := List, formMode := None), Ok)
      case WriteFailed => (mutated, WriteFailed)
  }

  function CancelForm(s: State): State {
    s.(view := List, formMode := None)
  }

  /** `delete_selected`: `Vec::remove` at the cursor, then pull the cursor back if it fell
      off the end, then write. */
  function DeleteSelected(s: State, storageOk: bool): (State, Outcome)
    requires CursorInBounds(s)
  {
    if |s.applications| == 0 then (s, Ok)
    else
      var k := s.listSelected;
      var applications := s.applications[..k] + s.applications[k + 1..];
      var selected := if k >= |applications| && k > 0 then k - 1 else k;
      (s.(applications := applications, listSelected := selected), Save(storageOk))
  }

  function SelectPrevious(s: State): State {
    if |s.applications| > 0 && s.listSelected > 0 then s.(listSelected := s.listSelected - 1)
    else s
  }

  function SelectNext(s: State): State {
    if |s.applications| > 0 && s.listSelected < |s.applications| - 1
    then s.(listSelected := s.listSelected + 1)
    else s
  }

  function ShowChart(s: State): State {
    s.(view := Chart, chartType := ByResumeVersion)
  }

  function NextChart(s: State): State {
    s.(chartType := s.chartType.Next())
  }

  function ShowList(s: State): State {
    s.(view := List)
  }

  function NextField(s: State): State {
    s.(formField := s.formField.Next())
  }

  function PrevField(s: State): State {
    s.(formField := s.formField.Prev())
  }

  function Quit(s: State): State {
    s.(shouldQuit := true)
  }

  // ---------------------------------------------------------------------------------
  // What the operations promise.

  /** The freshly built App is in a dispatcher-reachable state. */
  lemma InitConsistent(applications: seq<Models.Application>, today: Models.Date)
    ensures Consistent(Init(applications, today))
    ensures Init(applications, today).view == List && Init(applications, today).applications == applications
  {
  }

  /** The navigation operations keep the cursor, edit-target and dropdown bounds;
      show_chart and show_list also keep a form open only while the form view is shown
      when they are called with no form open, as the dispatcher calls them. */
  lemma NavigationPreservesValid(s: State)
    requires Valid(s)
    ensures Valid(CancelForm(s)) && Valid(SelectPrevious(s)) && Valid(SelectNext(s))
    ensures Valid(ShowChart(s)) && Valid(NextChart(s)) && Valid(ShowList(s))
    ensures Valid(NextField(s)) && Valid(PrevField(s)) && Valid(Quit(s))
    ensures Consistent(CancelForm(s))
    ensures s.formMode == None ==> Consistent(ShowChart(s)) && Consistent(ShowList(s))
  {
  }

  /** Opening the form, for a new record or the selected one, keeps every bound and leaves
      the form view showing an open form. */
  lemma StartPreservesValid(s: State, today: Models.Date)
    requires Valid(s)
    ensures Consistent(StartAdd(s, today))
    ensures Valid(StartEdit(s))
    ensures |s.applications| > 0 ==> Consistent(StartEdit(s))
  {
  }

  /** Committing the form keeps every bound, whatever the storage does. */
  lemma SaveFormPreservesValid(s: State, storageOk: bool)
    requires Valid(s)
    ensures Valid(SaveForm(s, storageOk).0)
    ensures Consistent(s) ==> Consistent(SaveForm(s, storageOk).0)
  {
  }

  /** Deleting keeps the list cursor in bounds, and keeps every bound when no edit is open. */
  lemma DeletePreservesValid(s: State, storageOk: bool)
    requires Valid(s)
    ensures CursorInBounds(DeleteSelected(s, storageOk).0)
    ensures s.formMode == None ==> Valid(DeleteSelected(s, storageOk).0)
    ensures Consistent(s) && s.view != Form ==> Consistent(DeleteSelected(s, storageOk).0)
  {
  }

  /** Cursor moves: nothing happens on an empty list or at the matching end, otherwise the
      cursor moves by exactly one, and the two moves undo each other in the interior. */
  lemma SelectMoves(s: State)
    requires CursorInBounds(s)
    ensures |s.applications| == 0 ==> SelectPrevious(s) == s && SelectNext(s) == s
    ensures s.listSelected == 0 ==> SelectPrevious(s) == s
    ensures |s.applications| > 0 && s.listSelected == |s.applications| - 1 ==> SelectNext(s) == s
    ensures s.listSelected > 0 ==>
      SelectPrevious(s).listSelected == s.listSelected - 1 && SelectNext(SelectPrevious(s)) == s
    ensures s.listSelected + 1 < |s.applications| ==>
      SelectNext(s).listSelected == s.listSelected + 1 && SelectPrevious(SelectNext(s)) == s
    ensures CursorInBounds(SelectPrevious(s)) && CursorInBounds(SelectNext(s))
  {
  }

  /** `delete_selected` removes exactly the selected record, keeps the rest in order, and
      moves the cursor back only when it was on the last record and not on the first. */
  lemma DeleteRemovesSelected(s: State, storageOk: bool)
    requires CursorInBounds(s)
    ensures |s.applications| == 0 ==> DeleteSelected(s, storageOk) == (s, Ok)
    ensures |s.applications| > 0 ==>
      var r := DeleteSelected(s, storageOk).0;
      var k := s.listSelected;
      && |r.applications| == |s.applications| - 1
      && (forall j :: 0 <= j < k ==> r.applications[j] == s.applications[j])
      && (forall j :: k <= j < |r.applications| ==> r.applications[j] == s.applications[j + 1])
      && multiset(r.applications) + multiset{s.applications[k]} == multiset(s.applications)
      && r.listSelected == (if k == |r.applications| && k > 0 then k - 1 else k)
      && r == s.(applications := r.applications, listSelected := r.listSelected)
    ensures DeleteSelected(s, storageOk).1 == Ok <==> (|s.applications| == 0 || storageOk)
  {
    if |s.applications| > 0 {
      var a, k := s.applications, s.listSelected;
      var r := DeleteSelected(s, storageOk).0;
      assert r.applications == a[..k] + a[k + 1..];
      assert a == a[..k] + [a[k]] + a[k + 1..];
      assert multiset(a) == multiset(a[..k]) + multiset{a[k]} + multiset(a[k + 1..]);
    }
  }

  /** Deleting the only record leaves an empty list with the cursor on 0; deleting the last
      of several moves the cursor up by one. */
  lemma DeleteAtEnd(s: State, storageOk: bool)
    requires CursorInBounds(s) && |s.applications| > 0
    requires s.listSelected == |s.applications| - 1
    ensures |s.applications| == 1 ==>
      DeleteSelected(s, storageOk).0.applications == [] && DeleteSelected(s, storageOk).0.listSelected == 0
    ensures |s.applications| > 1 ==> DeleteSelected(s, storageOk).0.listSelected == s.listSelected - 1
  {
  }

  /** `save_form` with a whitespace-only company name changes nothing at all. */
  lemma SaveBlankIsNoOp(s: State, storageOk: bool)
    requires EditTargetInBounds(s) && IsBlank(s.formData.companyName)
    ensures SaveForm(s, storageOk) == (s, Ok)
  {
  }

  /** `save_form` by mode: Add appends the draft, Edit(i) overwrites record i only; a
      successful write returns to the list and closes the form, a failed one keeps the
      mutated records but leaves the form open; the list cursor never moves. */
  lemma SaveFormCommits(s: State, storageOk: bool)
    requires EditTargetInBounds(s) && !IsBlank(s.formData.companyName)
    ensures var (r, outcome) := SaveForm(s, storageOk);
      && (s.formMode == Some(Add) ==>
            |r.applications| == |s.applications| + 1 && r.applications[..|s.applications|] == s.applications
            && r.applications[|s.applications|] == s.formData)
      && (s.formMode.Some? && s.formMode.value.Edit? ==>
            var i := s.formMode.value.index;
            |r.applications| == |s.applications| && r.applications[i] == s.formData
            && forall j :: 0 <= j < |s.applications| && j != i ==> r.applications[j] == s.applications[j])
      && (outcome == Ok <==> storageOk)
      && (storageOk ==> r.view == List && r.formMode == None)
      && (!storageOk ==> r.view == s.view && r.formMode == s.formMode)
      && r.listSelected == s.listSelected && r.formData == s.formData && r.formField == s.formField
      && r == s.(applications := r.applications, view := r.view, formMode := r.formMode)
  {
  }

  /** `start_edit` opens the selected record in the form and points each dropdown at the
      record's current value; on an empty list it does nothing. */
  lemma StartEditLoadsRecord(s: State)
    requires CursorInBounds(s)
    ensures |s.applications| == 0 ==> StartEdit(s) == s
    ensures |s.applications| > 0 ==>
      var r := StartEdit(s);
      var rec := s.applications[s.listSelected];
      && r.formMode == Some(Edit(s.listSelected)) && r.view == Form && r.formField == CompanyName
      && r.formData == rec
      && Models.AllStatuses()[r.statusDropdownSelected] == rec.status
      && r.platformDropdownSelected == PlatformCursor(rec.platform)
      && (r.resumeModifiedDropdownSelected == 0 <==> rec.resumeModified)
      && r.resumeModifiedDropdownSelected < 2
      && r.applications == s.applications && r.listSelected == s.listSelected
  {
  }

  /** The platform cursor `start_edit` computes: the three named platforms get 0, 1 and 2, a
      custom platform gets 3, unless its text is the label of a named platform, in which
      case it gets that platform's entry. */
  lemma PlatformCursorOf(p: Models.Platform)
    ensures p == Models.LinkedIn ==> PlatformCursor(p) == 0
    ensures p == Models.Indeed ==> PlatformCursor(p) == 1
    ensures p == Models.CompanyWebsite ==> PlatformCursor(p) == 2
    ensures p.Other? && !Models.IsNamedLabel(p.name) ==> PlatformCursor(p) == 3
    ensures p.Other? && Models.IsNamedLabel(p.name) ==>
      PlatformCursor(p) < 3 && Models.Presets()[PlatformCursor(p)] == p.name
  {
    var presets := Models.Presets();
    var test := q => if q == "Other" then p.Other?
                     else Models.PlatformAsStr(Models.PlatformFromStr(q)) == Models.PlatformAsStr(p);
    var r := Position(presets, test);
    assert test(presets[3]) == p.Other?;
    assert test(presets[0]) == (Models.PlatformAsStr(p) == "LinkedIn");
    assert test(presets[1]) == (Models.PlatformAsStr(p) == "Indeed");
    assert test(presets[2]) == (Models.PlatformAsStr(p) == "Company Website");
    assert PlatformCursor(p) == r.UnwrapOr(0);
  }

  /** Pressing Enter on the platform dropdown right after `start_edit` gives the record its
      platform back exactly when it is a named one or the custom text "Other". */
  lemma PlatformCursorRoundTrip(p: Models.Platform)
    ensures Models.PlatformFromStr(Models.Presets()[PlatformCursor(p)]) == p
            <==> (!p.Other? || p.name == "Other")
  {
    PlatformCursorOf(p);
    if p.Other? && Models.IsNamedLabel(p.name) {
      Models.FromStrAsStr(p);
    }
  }

  /** `start_add` opens an empty form on the first field with every dropdown at the top,
      and leaves the records and the list cursor alone. */
  lemma StartAddResetsForm(s: State, today: Models.Date)
    ensures var r := StartAdd(s, today);
      && r.view == Form && r.formMode == Some(Add) && r.formField == FormField.All()[0]
      && r.formData.companyName == [] && r.formData.notes == [] && r.formData.resumeVersion == []
      && r.platformDropdownSelected == 0 && r.statusDropdownSelected == 0
      && r.resumeModifiedDropdownSelected == 0
      && r.applications == s.applications && r.listSelected == s.listSelected
  {
  }

  /** Adding: `start_add`, typing a draft, then saving appends exactly that draft; saving the
      untouched empty draft adds nothing. */
  lemma AddThenSave(s: State, today: Models.Date, draft: Models.Application, storageOk: bool)
    ensures SaveForm(StartAdd(s, today), storageOk).0.applications == s.applications
    ensures !IsBlank(draft.companyName) ==>
      SaveForm(StartAdd(s, today).(formData := draft), storageOk).0.applications == s.applications + [draft]
  {
  }

  /** Editing: `start_edit`, changing the draft, then saving overwrites the selected record
      only, keeping the length and every other record in place. */
  lemma EditThenSave(s: State, draft: Models.Application, storageOk: bool)
    requires CursorInBounds(s) && |s.applications| > 0 && !IsBlank(draft.companyName)
    ensures var r := SaveForm(StartEdit(s).(formData := draft), storageOk).0;
      && |r.applications| == |s.applications|
      && r.applications[s.listSelected] == draft
      && forall j :: 0 <= j < |s.applications| && j != s.listSelected ==> r.applications[j] == s.applications[j]
  {
  }

  /** `cancel_form` only returns to the list and closes the form: the records, the cursor
      and everything else stay as they were. */
  lemma CancelKeepsRecords(s: State)
    ensures CancelForm(s).applications == s.applications
    ensures CancelForm(s).view == List && CancelForm(s).formMode == None
    ensures CancelForm(s).(view := s.view, formMode := s.formMode) == s
  {
  }

  /** `show_chart` always starts at the resume-version chart, and three `next_chart`s
      return to the chart one started from. */
  lemma ChartNavigation(s: State)
    ensures ShowChart(s).view == Chart && ShowChart(s).chartType == ByResumeVersion
    ensures NextChart(NextChart(NextChart(s))) == s
  {
    ChartCycle(s.chartType);
  }

  /** `next_field` seven times is the identity; `prev_field` undoes `next_field`. */
  lemma FieldNavigation(s: State)
    ensures PrevField(NextField(s)) == s && NextField(PrevField(s)) == s
    ensures NextField(NextField(NextField(NextField(NextField(NextField(NextField(s))))))) == s
  {
    FieldCycle(s.formField);
  }
}
