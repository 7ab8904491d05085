/** `App` of src/app.rs: the object the key handlers mutate in place. Each method does
    what the Rust method does to the fields, and is proved to leave the object in the
    state the matching function of AppSpec describes. */
module AppState {
  import opened Iter
  import opened Text
  import Models
  import opened AppSpec

  class App {
    var applications: seq<Models.Application>
    var view: View
    var listSelected: nat
    var formMode: Option<FormMode>
    var formField: FormField
    var formData: Models.Application
    var platformDropdownSelected: nat
    var statusDropdownSelected: nat
    var resumeModifiedDropdownSelected: nat
    var chartType: ChartType
    var shouldQuit: bool

    /** The current values of all fields. */
    function Snapshot(): State
      reads this
    {
      State(applications, view, listSelected, formMode, formField, formData,
            platformDropdownSelected, statusDropdownSelected, resumeModifiedDropdownSelected,
            chartType, shouldQuit)
    }

    /** `App::new`, given the records loaded from storage and today's date. */
    constructor (loaded: seq<Models.Application>, today: Models.Date)
      ensures Snapshot() == Init(loaded, today)
      ensures Consistent(Snapshot())
    {
      applications := loaded;
      view := List;
      listSelected := 0;
      formMode := None;
      formField := CompanyName;
      formData := Models.NewApplication(today);
      platformDropdownSelected := 0;
      statusDropdownSelected := 0;
      resumeModifiedDropdownSelected := 0;
      chartType := ByResumeVersion;
      shouldQuit := false;
    }

    /** `App::save`: writes every record; whether the write succeeds is `storageOk`. */
    method Save(storageOk: bool) returns (r: Outcome)
      ensures r == Ok <==> storageOk
    {
      r := if storageOk then Ok else WriteFailed;
    }

    method StartAdd(today: Models.Date)
      modifies this
      ensures Snapshot() == AppSpec.StartAdd(old(Snapshot()), today)
      ensures Valid(old(Snapshot())) ==> Consistent(Snapshot())
    {
      formMode := Some(Add);
      view := Form;
      formField := CompanyName;
      formData := Models.NewApplication(today);
      platformDropdownSelected := 0;
      statusDropdownSelected := 0;
      resumeModifiedDropdownSelected := 0;
    }

    method StartEdit()
      requires CursorInBounds(Snapshot())
      modifies this
      ensures Snapshot() == AppSpec.StartEdit(old(Snapshot()))
      ensures Valid(old(Snapshot())) ==> Valid(Snapshot())
    {
      if |applications| == 0 {
        return;
      }
      var index := listSelected;
      var draft := applications[index];
      formMode := Some(Edit(index));
      view := Form;
      formField := CompanyName;
      formData := draft;
      PointDropdownsAt(draft);
    }

    /** The dropdown cursors of `start_edit`: each set to the record's current value. */
    method PointDropdownsAt(draft: Models.Application)
      modifies this
      ensures Snapshot() == old(Snapshot()).(statusDropdownSelected := StatusCursor(draft.status),
        platformDropdownSelected := PlatformCursor(draft.platform),
        resumeModifiedDropdownSelected := ResumeCursor(draft.resumeModified))
    {
      statusDropdownSelected := StatusCursor(draft.status);
      platformDropdownSelected := PlatformCursor(draft.platform);
      resumeModifiedDropdownSelected := if draft.resumeModified then 0 else 1;
    }

    method SaveForm(storageOk: bool) returns (r: Outcome)
      requires EditTargetInBounds(Snapshot())
      modifies this
      ensures (Snapshot(), r) == AppSpec.SaveForm(old(Snapshot()), storageOk)
      ensures Valid(old(Snapshot())) ==> Valid(Snapshot())
      ensures Consistent(old(Snapshot())) ==> Consistent(Snapshot())
    {
      if IsBlank(formData.companyName) {
        return Ok;
      }
      match formMode {
        case Some(Add) =>
          applications := applications + [formData];
        case Some(Edit(index)) =>
          applications := applications[index := formData];
        case None =>
      }
      r := Save(storageOk);
      if r == WriteFailed {
        return;
      }
      view := List;
      formMode := None;
    }

    method CancelForm()
      modifies this
      ensures Snapshot() == AppSpec.CancelForm(old(Snapshot()))
      ensures Valid(old(Snapshot())) ==> Consistent(Snapshot())
    {
      view := List;
      formMode := None;
    }

    method DeleteSelected(storageOk: bool) returns (r: Outcome)
      requires CursorInBounds(Snapshot())
      modifies this
      ensures (Snapshot(), r) == AppSpec.DeleteSelected(old(Snapshot()), storageOk)
      ensures CursorInBounds(Snapshot())
      ensures Valid(old(Snapshot())) && formMode == None ==> Valid(Snapshot())
    {
      r := Ok;
      if |applications| > 0 {
        applications := applications[..listSelected] + applications[listSelected + 1..];
        if listSelected >= |applications| && listSelected > 0 {
          listSelected := listSelected - 1;
        }
        r := Save(storageOk);
      }
    }

    method SelectPrevious()
      modifies this
      ensures Snapshot() == AppSpec.SelectPrevious(old(Snapshot()))
      ensures Valid(old(Snapshot())) ==> Valid(Snapshot())
    {
      if |applications| > 0 {
        if listSelected > 0 {
          listSelected := listSelected - 1;
        }
      }
    }

    method SelectNext()
      modifies this
      ensures Snapshot() == AppSpec.SelectNext(old(Snapshot()))
      ensures Valid(old(Snapshot())) ==> Valid(Snapshot())
    {
      if |applications| > 0 {
        if listSelected < |applications| - 1 {
          listSelected := listSelected + 1;
        }
      }
    }

    method ShowChart()
      modifies this
      ensures Snapshot() == AppSpec.ShowChart(old(Snapshot()))
      ensures Valid(old(Snapshot())) ==> Valid(Snapshot())
    {
      view := Chart;
      chartType := ByResumeVersion;
    }

    method NextChart()
      modifies this
      ensures Snapshot() == AppSpec.NextChart(old(Snapshot()))
      ensures Valid(old(Snapshot())) ==> Valid(Snapshot())
    {
      chartType := chartType.Next();
    }

    method ShowList()
      modifies this
      ensures Snapshot() == AppSpec.ShowList(old(Snapshot()))
      ensures Valid(old(Snapshot())) ==> Valid(Snapshot())
    {
      view := List;
    }

    method NextField()
      modifies this
      ensures Snapshot() == AppSpec.NextField(old(Snapshot()))
      ensures Valid(old(Snapshot())) ==> Valid(Snapshot())
    {
      formField := formField.Next();
    }

    method PrevField()
      modifies this
      ensures Snapshot() == AppSpec.PrevField(old(Snapshot()))
      ensures Valid(old(Snapshot())) ==> Valid(Snapshot())
    {
      formField := formField.Prev();
    }

    method Quit()
      modifies this
      ensures Snapshot() == AppSpec.Quit(old(Snapshot()))
      ensures Valid(old(Snapshot())) ==> Valid(Snapshot())
    {
      shouldQuit := true;
    }
  }
}
