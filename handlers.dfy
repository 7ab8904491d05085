/** The key handlers of src/handlers.rs, run on an `App` object: each handler mutates the
    object through its methods and fields exactly as the Rust function does, and is proved
    to reach the state (and the outcome) the matching function of HandlerSpec computes.
    Through the lemmas of HandlerSpec every handler keeps the object consistent. */
module Handlers {
  import opened Iter
  import opened Text
  import Models
  import opened AppSpec
  import opened HandlerSpec
  import opened AppState

  method HandleKeyEvent(app: App, key: KeyEvent, env: Env) returns (r: Outcome)
    requires Valid(app.Snapshot())
    modifies app
    ensures (app.Snapshot(), r) == HandlerSpec.HandleKeyEvent(old(app.Snapshot()), key, env)
    ensures Consistent(old(app.Snapshot())) ==> Consistent(app.Snapshot())
    ensures r == WriteFailed ==> !env.storageOk
  {
    ghost var s0 := app.Snapshot();
    ghost var expected := HandlerSpec.HandleKeyEvent(s0, key, env);
    if Consistent(s0) {
      KeyPreservesConsistent(s0, key, env);
    }
    OnlyWritesFail(s0, key, env);
    match app.view
    case List =>
      assert expected == HandlerSpec.HandleListKeys(s0, key, env);
      r := HandleListKeys(app, key, env);
    case Form =>
      assert expected == HandlerSpec.HandleFormKeys(s0, key, env);
      r := HandleFormKeys(app, key, env);
    case Chart =>
      assert expected == (HandlerSpec.HandleChartKeys(s0, key), Ok);
      HandleChartKeys(app, key);
      r := Ok;
  }

  method HandleListKeys(app: App, key: KeyEvent, env: Env) returns (r: Outcome)
    requires Valid(app.Snapshot())
    modifies app
    ensures (app.Snapshot(), r) == HandlerSpec.HandleListKeys(old(app.Snapshot()), key, env)
  {
    r := Ok;
    match key.code
    case Char('q') => app.Quit();
    case Char('a') => app.StartAdd(env.today);
    case Char('e') => app.StartEdit();
    case Char('d') => r := app.DeleteSelected(env.storageOk);
    case Char('g') => app.ShowChart();
    case Up => app.SelectPrevious();
    case Char('k') => app.SelectPrevious();
    case Down => app.SelectNext();
    case Char('j') => app.SelectNext();
    case _ =>
  }

  method HandleFormKeys(app: App, key: KeyEvent, env: Env) returns (r: Outcome)
    requires Valid(app.Snapshot())
    modifies app
    ensures (app.Snapshot(), r) == HandlerSpec.HandleFormKeys(old(app.Snapshot()), key, env)
  {
    r := Ok;
    if key.code == Esc {
      app.CancelForm();
    } else if key.code == Char('s') && key.control {
      r := app.SaveForm(env.storageOk);
    } else {
      match key.code
      case Enter => r := HandleEnter(app, env);
      case Up => app.PrevField();
      case Down => app.NextField();
      case Char('k') => DropdownUp(app);
      case Char('j') => DropdownDown(app);
      case Char(c) => HandleTextInput(app, c, env);
      case Backspace => HandleBackspace(app);
      case _ =>
    }
  }

  method HandleChartKeys(app: App, key: KeyEvent)
    modifies app
    ensures app.Snapshot() == HandlerSpec.HandleChartKeys(old(app.Snapshot()), key)
  {
    match key.code
    case Esc => app.ShowList();
    case Tab => app.NextChart();
    case _ =>
  }

  /** The Enter arm of `handle_form_keys`. */
  method HandleEnter(app: App, env: Env) returns (r: Outcome)
    requires Valid(app.Snapshot())
    modifies app
    ensures (app.Snapshot(), r) == HandlerSpec.HandleEnter(old(app.Snapshot()), env)
  {
    r := Ok;
    match app.formField
    case Platform =>
      var selected := Models.Presets()[app.platformDropdownSelected];
      app.formData := app.formData.(platform := Models.PlatformFromStr(selected));
      app.NextField();
    case Status =>
      app.formData := app.formData.(status := Models.AllStatuses()[app.statusDropdownSelected]);
      app.NextField();
    case ResumeModified =>
      app.formData := app.formData.(resumeModified := app.resumeModifiedDropdownSelected == 0);
      app.NextField();
    case Notes =>
      r := app.SaveForm(env.storageOk);
    case _ =>
      app.NextField();
  }

  /** The 'k' arm of `handle_form_keys`. */
  method DropdownUp(app: App)
    modifies app
    ensures app.Snapshot() == HandlerSpec.DropdownUp(old(app.Snapshot()))
  {
    match app.formField
    case Platform =>
      if app.platformDropdownSelected > 0 {
        app.platformDropdownSelected := app.platformDropdownSelected - 1;
      }
    case Status =>
      if app.statusDropdownSelected > 0 {
        app.statusDropdownSelected := app.statusDropdownSelected - 1;
      }
    case ResumeModified =>
      if app.resumeModifiedDropdownSelected > 0 {
        app.resumeModifiedDropdownSelected := app.resumeModifiedDropdownSelected - 1;
      }
    case _ =>
  }

  /** The 'j' arm of `handle_form_keys`. */
  method DropdownDown(app: App)
    modifies app
    ensures app.Snapshot() == HandlerSpec.DropdownDown(old(app.Snapshot()))
  {
    match app.formField
    case Platform =>
      if app.platformDropdownSelected < |Models.Presets()| - 1 {
        app.platformDropdownSelected := app.platformDropdownSelected + 1;
      }
    case Status =>
      if app.statusDropdownSelected < |Models.AllStatuses()| - 1 {
        app.statusDropdownSelected := app.statusDropdownSelected + 1;
      }
    case ResumeModified =>
      if app.resumeModifiedDropdownSelected < 1 {
        app.resumeModifiedDropdownSelected := app.resumeModifiedDropdownSelected + 1;
      }
    case _ =>
  }

  method HandleTextInput(app: App, c: char, env: Env)
    modifies app
    ensures app.Snapshot() == HandlerSpec.HandleTextInput(old(app.Snapshot()), c, env)
    ensures app.Snapshot() == old(app.Snapshot()).(formData := app.formData)
  {
    if c == 'j' || c == 'k' {
      return;
    }
    match app.formField
    case CompanyName =>
      app.formData := app.formData.(companyName := app.formData.companyName + [c]);
    case ResumeVersion =>
      app.formData := app.formData.(resumeVersion := app.formData.resumeVersion + [c]);
    case Notes =>
      app.formData := app.formData.(notes := app.formData.notes + [c]);
    case Platform =>
      if app.platformDropdownSelected == |Models.Presets()| - 1 {
        if app.formData.platform.Other? {
          app.formData := app.formData.(platform := Models.Other(app.formData.platform.name + [c]));
        } else {
          app.formData := app.formData.(platform := Models.Other([c]));
        }
      }
    case Date =>
      var current := env.showDate(app.formData.appliedDate);
      if IsAsciiDigit(c) || c == '-' {
        var parsed := env.parseDate(current + [c]);
        if parsed.Some? {
          app.formData := app.formData.(appliedDate := parsed.value);
        }
      }
    case _ =>
  }

  method HandleBackspace(app: App)
    modifies app
    ensures app.Snapshot() == HandlerSpec.HandleBackspace(old(app.Snapshot()))
    ensures app.Snapshot() == old(app.Snapshot()).(formData := app.formData)
  {
    match app.formField
    case CompanyName =>
      app.formData := app.formData.(companyName := Pop(app.formData.companyName));
    case ResumeVersion =>
      app.formData := app.formData.(resumeVersion := Pop(app.formData.resumeVersion));
    case Notes =>
      app.formData := app.formData.(notes := Pop(app.formData.notes));
    case Platform =>
      if app.platformDropdownSelected == |Models.Presets()| - 1 && app.formData.platform.Other? {
        app.formData := app.formData.(platform := Models.Other(Pop(app.formData.platform.name)));
      }
    case _ =>
  }
}
