/** The update service as the program keeps it: fields that each report, timer and request sets in
    place, with `Receive` calling itself when the adapter refuses a call. Each method is proved to
    compute the function of the same name. */
module UpdatesStore {
  import opened Common
  import opened Journals
  import opened Spec = Updates

  /** The model of one update cycle. */
  class UpdateModel {
    var state: UpdateState
    var version: Option<string>
    var generation: u64
    var confirmationOpen: bool
    var authorized: bool
    var cancelling: bool
    var active: bool
    var manual: bool

    function View(): Model
      reads this
    {
      Model(state, version, generation, confirmationOpen, authorized, cancelling, active, manual)
    }

    constructor (available: bool, retained: Option<string>)
      ensures View() == NewModel(available, retained)
    {
      state := if available then Idle else Unavailable;
      version := if available then retained else None;
      generation := 0;
      confirmationOpen, authorized, cancelling, active, manual := false, false, false, false, false;
    }

    method BeginCheck(byHand: bool) returns (begun: bool)
      modifies this
      ensures begun == Spec.BeginCheck(old(View()), byHand).Some?
      ensures View() == if begun then Spec.BeginCheck(old(View()), byHand).value else old(View())
    {
      if active || state.Unavailable? { return false; }
      generation := if generation == MaxU64 then 0 else generation + 1;
      confirmationOpen, authorized, cancelling := false, false, false;
      active, manual, state := true, byHand, Checking;
      return true;
    }

    method OpenConfirmation() returns (c: Option<Confirmation>)
      modifies this
      ensures (View(), c) == Spec.OpenConfirmation(old(View()))
    {
      if confirmationOpen || cancelling { return None; }
      if !state.Ready? { return None; }
      confirmationOpen := true;
      return Some(Confirmation(generation, state.version));
    }

    method Confirm(c: Confirmation, accepted: bool) returns (confirmed: bool)
      modifies this
      ensures (View(), confirmed) == Spec.Confirm(old(View()), c, accepted)
    {
      if generation != c.generation || !confirmationOpen { return false; }
      confirmationOpen := false;
      if !accepted || cancelling || !(state.Ready? && state.version == c.version) { return false; }
      authorized := true;
      state := Installing(c.version);
      return true;
    }

    method Receive(r: Report)
      modifies this
      ensures View() == ModelReceive(old(View()), r)
    {
      if !active { return; }
      if r.Finished? {
        active := false;
        if cancelling || state.Checking? || state.Available? || state.Downloading? || state.Verifying? || state.Ready? {
          state := Idle;
        }
        cancelling := false;
        confirmationOpen := false;
        return;
      }
      if cancelling { return; }
      match r
      case Announced(announced, stable) =>
        if state.Checking? {
          if !stable {
            state := Failed(VerificationError);
          } else {
            version := Some(announced);
            state := Available(announced);
          }
        }
      case Current =>
        version := None;
        state := UpToDate;
      case Progress(received, total) =>
        if version.Some? { state := Downloading(version.value, received, total); }
      case VerifyingNow =>
        if version.Some? { state := Verifying(version.value); }
      case ReadyNow =>
        if version.Some? { state := Ready(version.value); }
      case InstallingNow =>
        if authorized && version.Some? { state := Installing(version.value); }
      case Broke(error) =>
        state := Failed(error);
      case _ =>
    }
  }

  /** The service around it. */
  class ApplicationUpdates {
    const model: UpdateModel
    var launch: Launch
    var resume: bool
    var timer: bool
    var pendingQuit: Option<Ticket>
    var prepared: bool
    var automatic: bool
    var requested: bool
    var journal: Journal

    function View(): Updates
      reads this, model
    {
      Spec.Updates(model.View(), launch, resume, timer, pendingQuit, prepared, automatic, requested, journal)
    }

    constructor (available: bool, retained: Option<string>)
      ensures View() == Start(available, retained) && fresh(model)
    {
      model := new UpdateModel(available, retained);
      launch, resume, timer, pendingQuit := Open, false, false, None;
      prepared, automatic, requested := false, false, false;
      journal := Notes([], Blank, true);
    }

    // The launch gate.

    method OpenLaunch(cause: Cause)
      modifies this`launch, this`timer, this`resume, this`journal
      ensures View() == Spec.OpenLaunch(old(View()), cause)
    {
      launch := Open;
      timer := false;
      journal := Noted(journal, GateOpened(cause));
      if resume {
        resume := false;
        journal := Noted(journal, StartupScheduled);
      }
    }

    method ArmLaunchTimeout(progress: bool)
      modifies this`timer, this`journal
      ensures View() == SetTimer(old(View()), progress)
    {
      timer := true;
      journal := Noted(journal, TimerSet(progress));
    }

    method BeginLaunch(s: Surroundings)
      modifies this, model
      ensures View() == Spec.BeginLaunch(old(View()), s)
    {
      resume := true;
      journal := Noted(journal, LaunchBegan);
      if model.state.Unavailable? || s.running {
        OpenLaunch(NotGated);
        Check(false, s);
        return;
      }
      launch := LaunchChecking;
      ArmLaunchTimeout(false);
      Check(false, s);
    }

    method LaunchTimeout()
      modifies this, model
      ensures View() == FireTimer(old(View()))
    {
      if timer { OpenLaunch(Timeout); }
    }

    method ReleaseLaunch()
      modifies this, model
      ensures View() == Spec.ReleaseLaunch(old(View()))
    {
      if launch != LaunchInstalling { OpenLaunch(Released); }
    }

    // The cycle.

    method Check(byHand: bool, s: Surroundings)
      modifies this, model
      ensures View() == Spec.Check(old(View()), byHand, s)
      decreases 1
    {
      var begun := model.BeginCheck(byHand);
      if !begun { return; }
      journal := Noted(journal, CycleBegan);
      prepared, automatic, requested := false, false, false;
      if s.checkError.Some? {
        Receive(Broke(s.checkError.value), s);
        Receive(Finished, s);
      }
    }

    method Download(s: Surroundings)
      modifies this, model
      ensures View() == Spec.Download(old(View()), s)
      decreases 1
    {
      if !model.state.Available? { return; }
      model.state := Downloading(model.state.version, 0, 0);
      if s.downloadError.Some? { Receive(Broke(s.downloadError.value), s); }
    }

    method Tick(s: Surroundings)
      modifies this, model
      ensures View() == Spec.Tick(old(View()), s)
      decreases 2
    {
      if !prepared && s.automatic && model.state.Available? && !model.cancelling {
        automatic := true;
        Download(s);
      }
      if s.due { Check(false, s); }
    }

    method GateFound(s: Surroundings)
      modifies this`launch, this`timer, this`resume, this`journal
      ensures View() == Spec.GateFound(old(View()), s)
    {
      if launch == LaunchChecking {
        if prepared || s.overdue {
          launch := Required;
          ArmLaunchTimeout(false);
        } else {
          OpenLaunch(Found);
        }
      }
    }

    /** What `Receive` does for a release it was told of. */
    method ReceiveFound(s: Surroundings)
      modifies this, model
      ensures View() == Spec.ReceiveFound(old(View()), s)
      decreases 3
    {
      GateFound(s);
      if !prepared && (requested || s.automatic || launch == Required) {
        automatic := !model.manual && !requested;
        requested := false;
        Download(s);
      }
      Tick(s);
    }

    /** Calls the adapter's installer and reports its refusal. */
    method CallInstall(version: string, s: Surroundings)
      modifies this, model
      ensures View() == Spec.CallInstall(old(View()), version, s)
      decreases 2
    {
      journal := Noted(journal, Installed(version));
      if s.installError.Some? { Receive(Broke(s.installError.value), s); }
    }

    /** Installs a ready release while startup is gated. */
    method InstallAtLaunch(s: Surroundings)
      modifies this, model
      ensures View() == Spec.InstallAtLaunch(old(View()), s)
      decreases 3
    {
      if launch == Open || model.cancelling { return; }
      model.authorized := true;
      if model.version.Some? {
        BindLaunch(model.version.value);
        CallInstall(model.version.value, s);
      }
    }

    method BindLaunch(version: string)
      modifies this`launch, this`timer, this`journal, model
      ensures View() == Bind(old(View()), version)
    {
      model.authorized := true;
      model.state := Installing(version);
      launch := LaunchInstalling;
      timer := false;
      journal := Noted(journal, Authorized(version, ByLaunch));
    }

    /** What `Receive` does for a release that is ready, once the model was told. */
    method ReceiveReady(s: Surroundings)
      modifies this, model
      ensures View() == Spec.InstallAtLaunch(
        if old(model.cancelling || model.version.None?) then old(View()) else old(View()).Note(BecameReady(old(model.version.value))), s)
      decreases 4
    {
      if model.version.Some? && !model.cancelling { journal := Noted(journal, BecameReady(model.version.value)); }
      InstallAtLaunch(s);
    }

    /** A failure or the cycle's end, which `Receive` also reports to itself, is stated on its own. */
    method Receive(r: Report, s: Surroundings)
      modifies this, model
      ensures r.Broke? ==> View() == Fail(old(View()), r.error)
      ensures r.Finished? ==> View() == FinishCycle(old(View()))
      ensures !r.Broke? && !r.Finished? ==> View() == Spec.Receive(old(View()), r, s)
      decreases if r.Broke? || r.Finished? then 0 else 5
    {
      if !model.active { return; }
      if r.ReleaseMetadata? {
        prepared := r.prepared;
        return;
      }
      if r.Broke? || r.Finished? {
        ReceiveEnd(r);
        return;
      }
      model.Receive(r);
      match r
      case Announced(_, _) =>
        if model.state.Available? { ReceiveFound(s); }
      case Progress(_, _) =>
        if launch != Open { ArmLaunchTimeout(true); }
      case VerifyingNow =>
        if launch != Open { ArmLaunchTimeout(true); }
      case ReadyNow => ReceiveReady(s);
      case Current => OpenLaunch(NoUpdate);
      case _ =>
    }

    /** What `Receive` does when a call was refused or the cycle is over. */
    method ReceiveEnd(r: Report)
      requires r.Broke? || r.Finished?
      modifies this, model
      ensures r.Broke? ==> View() == Fail(old(View()), r.error)
      ensures r.Finished? ==> View() == FinishCycle(old(View()))
    {
      if !model.active { return; }
      model.Receive(r);
      if r.Broke? {
        OpenLaunch(Failure);
      } else {
        journal := Noted(journal, CycleEnded);
        if launch != LaunchInstalling { OpenLaunch(CycleEnd); }
        TakePendingQuit();
      }
    }

    method TakePendingQuit()
      modifies this`pendingQuit, this`journal
      ensures View() == TakeQuit(old(View()))
    {
      if pendingQuit.Some? {
        var quit := pendingQuit.value;
        pendingQuit := None;
        journal := Noted(journal, QuitScheduled(quit));
      }
    }

    // Requests.

    method Cancel()
      modifies this, model
      ensures View() == Spec.Cancel(old(View()))
    {
      if model.active && !model.authorized {
        model.cancelling := true;
        model.confirmationOpen := false;
      }
    }

    method BeginInstallConfirmation() returns (c: Option<Confirmation>)
      modifies this`journal, model
      ensures View() == BeginConfirmation(old(View())) && c == OpenConfirmation(old(model.View())).1
    {
      c := model.OpenConfirmation();
      if c.Some? { journal := Noted(journal, ConfirmationOpened(c.value.version)); }
    }

    method FinishInstallConfirmation(c: Confirmation, accepted: bool, s: Surroundings)
      modifies this, model
      ensures View() == FinishConfirmation(old(View()), c, accepted, s)
    {
      var confirmed := model.Confirm(c, accepted);
      journal := Noted(journal, ConfirmationAnswered(c.version, accepted));
      if confirmed {
        journal := Noted(journal, Authorized(c.version, ByConfirmation));
        CallInstall(c.version, s);
      }
    }

    method RetryInstall(s: Surroundings)
      modifies this, model
      ensures View() == Spec.RetryInstall(old(View()), s)
    {
      if model.authorized && model.state.Installing? {
        CallInstall(model.state.version, s);
      }
    }

    method Relaunch(s: Surroundings)
      modifies this, model
      ensures View() == Spec.Relaunch(old(View()), s)
    {
      var c := BeginInstallConfirmation();
      if c.Some? { FinishInstallConfirmation(c.value, true, s); } else { RetryInstall(s); }
    }

    method RetryDownload(s: Surroundings)
      modifies this, model
      ensures View() == Spec.RetryDownload(old(View()), s)
    {
      Check(true, s);
      if model.state.Checking? { requested := true; }
    }

    method DismissFailure()
      modifies this, model
      ensures View() == Spec.DismissFailure(old(View()))
    {
      if model.state.Failed? { model.state := Idle; }
    }

    /** Forgets what startup waited for; from here `OpenLaunch` schedules nothing. */
    method ForgetLaunch()
      modifies this`resume, this`timer, this`journal
      ensures View() == AskedQuit(old(View()))
    {
      resume := false;
      timer := false;
      journal := Noted(journal, QuitAsked);
    }

    method KeepForQuit(version: string)
      modifies model`authorized, this`journal
      ensures View() == Keep(old(View()), version)
    {
      model.authorized := true;
      journal := Noted(journal, Authorized(version, ByQuit));
      journal := Noted(journal, KeptForQuit(version));
    }

    method StorePendingQuit(quit: Ticket)
      modifies this`pendingQuit, this`journal
      ensures View() == StoreQuit(old(View()), quit)
    {
      if pendingQuit.None? {
        pendingQuit := Some(quit);
        journal := Noted(journal, QuitStored(quit));
      }
    }

    /** Returns whether the quit must wait for the cycle to end. */
    method PrepareBeforeQuit(quit: Ticket, s: Surroundings) returns (wait: bool)
      modifies this, model
      ensures View() == Spec.PrepareBeforeQuit(old(View()), quit, s)
      ensures wait == MustWait(old(View()), s)
    {
      ForgetLaunch();
      if !model.active || model.authorized { return false; }
      if model.state.Ready? {
        model.confirmationOpen := false;
        if s.finishes {
          KeepForQuit(model.state.version);
          return false;
        }
      }
      StorePendingQuit(quit);
      Cancel();
      return true;
    }

    // Runs.

    method Report(r: Report, s: Surroundings)
      modifies this, model
      ensures View() == Spec.Receive(old(View()), r, s)
    {
      Receive(r, s);
    }

    method Perform(a: Action, s: Surroundings)
      modifies this, model
      ensures View() == Step(old(View()), a, s)
    {
      match a
      case Reported(r) => Report(r, s);
      case CheckNow(manual) => Check(manual, s);
      case TickNow => Tick(s);
      case DownloadNow => Download(s);
      case AskConfirmation => var c := BeginInstallConfirmation();
      case AnswerConfirmation(c, accepted) => FinishInstallConfirmation(c, accepted, s);
      case LaunchNow =>
        if !journal.now.flow.began { BeginLaunch(s); }
      case PrepareQuit(quit) => var wait := PrepareBeforeQuit(quit, s);
      case _ => PerformRequest(a, s);
    }

    method PerformRequest(a: Action, s: Surroundings)
      requires a.CancelNow? || a.RelaunchNow? || a.RetryInstallNow? || a.RetryDownloadNow?
        || a.DismissNow? || a.TimerFires? || a.ReleaseNow?
      modifies this, model
      ensures View() == Step(old(View()), a, s)
    {
      match a
      case CancelNow => Cancel();
      case RelaunchNow => Relaunch(s);
      case RetryInstallNow => RetryInstall(s);
      case RetryDownloadNow => RetryDownload(s);
      case DismissNow => DismissFailure();
      case TimerFires => LaunchTimeout();
      case ReleaseNow => ReleaseLaunch();
    }

    /** Calls the service as `steps` say. From a new service the calls are a run, so whatever holds of
        every run holds of what they left. */
    method Drive(steps: seq<(Action, Surroundings)>)
      modifies this, model
      ensures View() == Run(old(View()), steps)
    {
      assert steps[..0] == [];
      for i := 0 to |steps|
        invariant View() == Run(old(View()), steps[..i])
      {
        assert steps[..i + 1][..i] == steps[..i];
        Perform(steps[i].0, steps[i].1);
      }
      assert steps[..|steps|] == steps;
    }
  }
}
