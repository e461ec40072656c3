/** Safety of the update cycle over every sequence of adapter reports, timers and requests. */
module UpdatesRuns {
  import opened Common
  import opened Updates
  import opened Journals

  /** The one report that gives authority to no release: readiness before any version is known,
      while the launch gate is closed and a version may still be announced in this cycle. */
  predicate BadReady(u: Updates, a: Action) {
    a == Reported(ReadyNow) && u.model.active && !u.model.cancelling && !u.launch.Open? &&
    u.model.version.None? && u.model.state.Checking?
  }

  /** No step of the run is a `BadReady`. */
  predicate Clean(u: Updates, steps: seq<(Action, Surroundings)>)
    decreases |steps|
  {
    steps == [] ||
    (Clean(u, steps[..|steps| - 1]) && !BadReady(Run(u, steps[..|steps| - 1]), steps[|steps| - 1].0))
  }

  /** The fields agree with what the log says. */
  predicate Agrees(u: Updates) {
    var d := u.journal.now;
    && d.flow.cycle == u.model.active && d.flow.owed == u.resume && d.flow.timer == u.timer && d.flow.waiting == u.pendingQuit
    && (u.launch.Open? <==> d.flow.gate.Passed?)
    && (u.launch.LaunchInstalling? <==> d.flow.gate.Bound?)
  }

  predicate Sound(u: Updates) {
    var d := u.journal.now;
    var m := u.model;
    && (m.state.Checking? ==> d.claim.authority.None?)
    && (m.state.Ready? ==> d.claim.ready == Some(m.state.version) == m.version)
    && (m.state.Installing? ==> m.authorized && d.claim.authority == Some(m.state.version))
    && (m.confirmationOpen ==> !m.state.Checking? && d.claim.offered.Some? && (m.version.None? || m.version == d.claim.offered))
    && (m.authorized ==> !m.state.Checking? && (m.version.None? || d.claim.authority == m.version))
  }

  /** `clean` is whether every readiness report so far gave authority to a release. */
  predicate Core(clean: bool, u: Updates) {
    u.journal.lawful && Agrees(u) && (clean ==> u.journal.now.claim.founded && Sound(u))
  }

  /** A quit that waits for the updater waits for a running, cancelled cycle. */
  predicate Inv(clean: bool, u: Updates) {
    Core(clean, u) && (u.pendingQuit.Some? ==> u.model.active && u.model.cancelling)
  }

  lemma OpenLaunchCore(clean: bool, u: Updates, cause: Cause)
    requires Core(clean, u) && (u.pendingQuit.Some? && !u.model.active ==> cause.CycleEnd?)
    requires u.launch.LaunchInstalling? ==> cause.Failure? || cause.NoUpdate? || (cause.Timeout? && u.timer)
    ensures Core(clean, OpenLaunch(u, cause))
  {
    var released := u.(launch := Open, timer := false, resume := false).Note(GateOpened(cause));
    assert released.journal.lawful && released.journal.now.claim == u.journal.now.claim;
    assert released.journal.now.flow == u.journal.now.flow.(gate := Passed, timer := false);
  }

  lemma SetTimerInv(clean: bool, u: Updates, progress: bool)
    requires Inv(clean, u) && (u.launch.LaunchInstalling? ==> progress)
    ensures Inv(clean, SetTimer(u, progress))
  {
  }

  lemma FailInv(clean: bool, u: Updates, error: UpdateError)
    requires Inv(clean, u)
    ensures Inv(clean, Fail(u, error))
  {
    if u.model.active { OpenLaunchCore(clean, u.(model := ModelReceive(u.model, Broke(error))), Failure); }
  }

  lemma TakeQuitInv(clean: bool, u: Updates)
    requires Core(clean, u) && !u.model.active
    ensures Inv(clean, TakeQuit(u))
  {
    if u.pendingQuit.Some? {
      var taken := TakeQuit(u);
      assert taken.journal.lawful && taken.journal.now.claim == u.journal.now.claim;
      assert taken.journal.now.flow == u.journal.now.flow.(waiting := None);
    }
  }

  lemma EndedCore(clean: bool, u: Updates)
    requires Inv(clean, u) && u.model.active
    ensures Core(clean, u.(model := ModelReceive(u.model, Finished)).Note(CycleEnded))
  {
  }

  lemma FinishCycleInv(clean: bool, u: Updates)
    requires Inv(clean, u)
    ensures Inv(clean, FinishCycle(u))
  {
    if u.model.active {
      var ended := u.(model := ModelReceive(u.model, Finished)).Note(CycleEnded);
      EndedCore(clean, u);
      if u.launch.LaunchInstalling? { TakeQuitInv(clean, ended); }
      else { OpenLaunchCore(clean, ended, CycleEnd); TakeQuitInv(clean, OpenLaunch(ended, CycleEnd)); }
    }
  }

  lemma DownloadInv(clean: bool, u: Updates, s: Surroundings)
    requires Inv(clean, u)
    ensures Inv(clean, Download(u, s))
  {
    if u.model.state.Available? && s.downloadError.Some? {
      FailInv(clean, u.(model := u.model.(state := Downloading(u.model.state.version, 0, 0))), s.downloadError.value);
    }
  }

  lemma CheckInv(clean: bool, u: Updates, manual: bool, s: Surroundings)
    requires Inv(clean, u)
    ensures Inv(clean, Check(u, manual, s))
  {
    var begun := BeginCheck(u.model, manual);
    if begun.Some? {
      var checking := u.(model := begun.value, prepared := false, automatic := false, requested := false);
      if s.checkError.Some? {
        FailInv(clean, checking.Note(CycleBegan), s.checkError.value);
        FinishCycleInv(clean, Fail(checking.Note(CycleBegan), s.checkError.value));
      }
    }
  }

  lemma TickInv(clean: bool, u: Updates, s: Surroundings)
    requires Inv(clean, u)
    ensures Inv(clean, Tick(u, s))
  {
    DownloadInv(clean, u.(automatic := true), s);
    var loaded := if !u.prepared && s.automatic && u.model.state.Available? && !u.model.cancelling
                  then Download(u.(automatic := true), s) else u;
    CheckInv(clean, loaded, false, s);
  }

  lemma GateFoundInv(clean: bool, u: Updates, s: Surroundings)
    requires Inv(clean, u)
    ensures Inv(clean, GateFound(u, s))
  {
    if u.launch.LaunchChecking? {
      if u.prepared || s.overdue { SetTimerInv(clean, u.(launch := Required), false); } else { OpenLaunchCore(clean, u, Found); }
    }
  }

  lemma LoadFoundInv(clean: bool, u: Updates, s: Surroundings)
    requires Inv(clean, u)
    ensures Inv(clean, LoadFound(u, s))
  {
    DownloadInv(clean, u.(automatic := !u.model.manual && !u.requested, requested := false), s);
  }

  lemma FoundInv(clean: bool, u: Updates, s: Surroundings)
    requires Inv(clean, u)
    ensures Inv(clean, ReceiveFound(u, s))
  {
    GateFoundInv(clean, u, s);
    LoadFoundInv(clean, GateFound(u, s), s);
    TickInv(clean, LoadFound(GateFound(u, s), s), s);
  }

  lemma CallInstallInv(clean: bool, u: Updates, version: string, s: Surroundings)
    requires Inv(clean, u) && (clean ==> u.journal.now.claim.authority == Some(version))
    ensures Inv(clean, CallInstall(u, version, s))
  {
    if s.installError.Some? { FailInv(clean, u.Note(Installed(version)), s.installError.value); }
  }

  lemma NotedReadyInv(clean: bool, u: Updates, v: string)
    requires Inv(clean, u) && u.model.active && u.model.version == Some(v) && !u.model.cancelling
    ensures Inv(clean, u.(model := u.model.(state := Ready(v))).Note(BecameReady(v)))
  {
  }

  lemma BindInv(clean: bool, u: Updates, v: string)
    requires Inv(clean, u) && u.model.active && u.model.state == Ready(v) && !u.model.cancelling && !u.launch.Open?
    ensures Inv(clean, Bind(u, v))
  {
  }

  lemma ReadyInv(clean: bool, u: Updates, s: Surroundings)
    requires Inv(clean, u) && u.model.active && (clean ==> !BadReady(u, Reported(ReadyNow)))
    ensures Inv(clean, ReceiveReady(u, s))
  {
    if !u.model.cancelling && u.model.version.Some? {
      var v := u.model.version.value;
      var noted := u.(model := u.model.(state := Ready(v))).Note(BecameReady(v));
      NotedReadyInv(clean, u, v);
      InstallAtLaunchInv(clean, noted, v, s);
    } else {
      UnversionedReadyInv(clean, u, s);
    }
  }

  lemma InstallAtLaunchInv(clean: bool, u: Updates, v: string, s: Surroundings)
    requires Inv(clean, u) && u.model.active && !u.model.cancelling && u.model.state == Ready(v) && u.model.version == Some(v)
    ensures Inv(clean, InstallAtLaunch(u, s))
  {
    if !u.launch.Open? {
      BindInv(clean, u, v);
      CallInstallInv(clean, Bind(u, v), v, s);
    }
  }

  lemma UnversionedReadyInv(clean: bool, u: Updates, s: Surroundings)
    requires Inv(clean, u) && u.model.active && (clean ==> !BadReady(u, Reported(ReadyNow)))
    requires u.model.cancelling || u.model.version.None?
    ensures Inv(clean, ReceiveReady(u, s))
  {
    assert ModelReceive(u.model, ReadyNow) == u.model;
  }

  /** Reports that only move the model within its cycle. */
  lemma ToldInv(clean: bool, u: Updates, r: Report)
    requires Inv(clean, u) && !r.ReadyNow? && !r.Finished?
    ensures Inv(clean, u.(model := ModelReceive(u.model, r)))
  {
  }

  lemma ToldStepInv(clean: bool, u: Updates, r: Report, s: Surroundings)
    requires Inv(clean, u) && u.model.active && !r.ReadyNow? && !r.Finished? && !r.Broke?
    ensures Inv(clean, Receive(u, r, s))
  {
    var told := u.(model := ModelReceive(u.model, r));
    ToldInv(clean, u, r);
    if r.Announced? { FoundInv(clean, told, s); }
    else if r.Current? { OpenLaunchCore(clean, told, NoUpdate); }
    else if (r.Progress? || r.VerifyingNow?) && !u.launch.Open? { SetTimerInv(clean, told, true); }
  }

  lemma ReceiveInv(clean: bool, u: Updates, r: Report, s: Surroundings)
    requires Inv(clean, u) && (clean ==> !BadReady(u, Reported(r)))
    ensures Inv(clean, Receive(u, r, s))
  {
    if u.model.active {
      if r.ReadyNow? { ReadyInv(clean, u, s); }
      else if r.Finished? { FinishCycleInv(clean, u); }
      else if r.Broke? { FailInv(clean, u, r.error); }
      else { ToldStepInv(clean, u, r, s); }
    }
  }

  lemma ConfirmationInv(clean: bool, u: Updates, c: Confirmation, accepted: bool, s: Surroundings)
    requires Inv(clean, u)
    ensures Inv(clean, FinishConfirmation(u, c, accepted, s))
  {
    var (m, confirmed) := Confirm(u.model, c, accepted);
    if confirmed {
      ConfirmedInv(clean, u, c);
      var answered := u.(model := m).Note(ConfirmationAnswered(c.version, accepted));
      CallInstallInv(clean, answered.Note(Authorized(c.version, ByConfirmation)), c.version, s);
    }
  }

  lemma ConfirmedInv(clean: bool, u: Updates, c: Confirmation)
    requires Inv(clean, u) && Confirm(u.model, c, true).1
    ensures
      var answered := u.(model := Confirm(u.model, c, true).0).Note(ConfirmationAnswered(c.version, true));
      Inv(clean, answered.Note(Authorized(c.version, ByConfirmation)))
  {
  }

  lemma OfferInv(clean: bool, u: Updates)
    requires Inv(clean, u)
    ensures Inv(clean, BeginConfirmation(u))
  {
  }

  lemma RetryInv(clean: bool, u: Updates, s: Surroundings)
    requires Inv(clean, u)
    ensures Inv(clean, RetryInstall(u, s))
  {
    if u.model.authorized && u.model.state.Installing? { CallInstallInv(clean, u, u.model.state.version, s); }
  }

  lemma RelaunchInv(clean: bool, u: Updates, s: Surroundings)
    requires Inv(clean, u)
    ensures Inv(clean, Relaunch(u, s))
  {
    var c := OpenConfirmation(u.model).1;
    OfferInv(clean, u);
    if c.Some? { ConfirmationInv(clean, BeginConfirmation(u), c.value, true, s); } else { RetryInv(clean, u, s); }
  }

  lemma BegunInv(clean: bool, u: Updates)
    requires Inv(clean, u) && !u.journal.now.flow.began
    ensures Inv(clean, u.(resume := true, launch := LaunchChecking).Note(LaunchBegan))
  {
  }

  lemma UngatedInv(clean: bool, u: Updates, s: Surroundings)
    requires Inv(clean, u) && !u.journal.now.flow.began
    ensures Inv(clean, Check(OpenLaunch(u.(resume := true).Note(LaunchBegan), NotGated), false, s))
  {
    var begun := u.(resume := true, launch := LaunchChecking).Note(LaunchBegan);
    BegunInv(clean, u);
    OpenLaunchCore(clean, begun, NotGated);
    assert OpenLaunch(begun, NotGated) == OpenLaunch(u.(resume := true).Note(LaunchBegan), NotGated);
    CheckInv(clean, OpenLaunch(begun, NotGated), false, s);
  }

  lemma LaunchInv(clean: bool, u: Updates, s: Surroundings)
    requires Inv(clean, u) && !u.journal.now.flow.began
    ensures Inv(clean, BeginLaunch(u, s))
  {
    if u.model.state.Unavailable? || s.running { UngatedInv(clean, u, s); }
    else {
      var begun := u.(resume := true, launch := LaunchChecking).Note(LaunchBegan);
      BegunInv(clean, u);
      SetTimerInv(clean, begun, false);
      CheckInv(clean, SetTimer(begun, false), false, s);
    }
  }

  lemma QuitAskedInv(clean: bool, u: Updates)
    requires Inv(clean, u)
    ensures Inv(clean, AskedQuit(u))
  {
  }

  lemma KeepInv(clean: bool, u: Updates, v: string)
    requires Inv(clean, u) && u.model.state == Ready(v)
    ensures Inv(clean, Keep(u.(model := u.model.(confirmationOpen := false)), v))
  {
  }

  lemma StoreInv(clean: bool, u: Updates, quit: Ticket)
    requires Inv(clean, u) && u.model.active && !u.model.authorized && u.pendingQuit.None?
    ensures Inv(clean, Cancel(StoreQuit(u, quit)))
  {
  }

  /** A quit that must wait is stored for the cycle's end, unless one is stored already. */
  lemma PrepareInv(clean: bool, u: Updates, quit: Ticket, s: Surroundings)
    requires Inv(clean, u)
    ensures Inv(clean, PrepareBeforeQuit(u, quit, s))
    ensures PrepareBeforeQuit(u, quit, s).pendingQuit == if MustWait(u, s) && u.pendingQuit.None? then Some(quit) else u.pendingQuit
  {
    var asked := AskedQuit(u);
    QuitAskedInv(clean, u);
    if u.model.active && !u.model.authorized {
      if u.model.state.Ready? && s.finishes { KeepInv(clean, asked, u.model.state.version); }
      else if u.pendingQuit.None? {
        StoreInv(clean, if u.model.state.Ready? then asked.(model := u.model.(confirmationOpen := false)) else asked, quit);
      }
    }
  }

  lemma GateInv(clean: bool, u: Updates, a: Action, s: Surroundings)
    requires Inv(clean, u) && (a.TimerFires? || a.ReleaseNow?)
    ensures Inv(clean, Step(u, a, s))
  {
    if a.TimerFires? { if u.timer { OpenLaunchCore(clean, u, Timeout); } }
    else if !u.launch.LaunchInstalling? { OpenLaunchCore(clean, u, Released); }
  }

  lemma RequestInv(clean: bool, u: Updates, a: Action, s: Surroundings)
    requires Inv(clean, u) && !a.Reported? && !a.LaunchNow? && !a.PrepareQuit?
    ensures Inv(clean, Step(u, a, s))
  {
    match a
    case CheckNow(manual) => CheckInv(clean, u, manual, s);
    case TickNow => TickInv(clean, u, s);
    case DownloadNow => DownloadInv(clean, u, s);
    case AskConfirmation => OfferInv(clean, u);
    case AnswerConfirmation(c, accepted) => ConfirmationInv(clean, u, c, accepted, s);
    case RelaunchNow => RelaunchInv(clean, u, s);
    case RetryInstallNow => RetryInv(clean, u, s);
    case RetryDownloadNow => CheckInv(clean, u, true, s);
    case TimerFires => GateInv(clean, u, a, s);
    case ReleaseNow => GateInv(clean, u, a, s);
    case _ =>
  }

  lemma StepInv(clean: bool, u: Updates, a: Action, s: Surroundings)
    requires Inv(clean, u) && (clean ==> !BadReady(u, a))
    ensures Inv(clean, Step(u, a, s))
  {
    match a
    case Reported(r) => ReceiveInv(clean, u, r, s);
    case LaunchNow => if !u.journal.now.flow.began { LaunchInv(clean, u, s); }
    case PrepareQuit(quit) => PrepareInv(clean, u, quit, s);
    case _ => RequestInv(clean, u, a, s);
  }

  lemma {:induction false} RunInv(clean: bool, u: Updates, steps: seq<(Action, Surroundings)>)
    requires Inv(clean, u)
    ensures Inv(clean && Clean(u, steps), Run(u, steps))
    decreases |steps|
  {
    if steps != [] {
      var shorter, last := steps[..|steps| - 1], steps[|steps| - 1];
      RunInv(clean, u, shorter);
      StepInv(clean && Clean(u, steps), Run(u, shorter), last.0, last.1);
    }
  }

  /** Every run is lawful, a clean one founded, and no quit waits for a cycle that is over. */
  lemma RunLawful(available: bool, retained: Option<string>, steps: seq<(Action, Surroundings)>)
    ensures
      var log := Run(Start(available, retained), steps).journal.log;
      && AllLawful(Laws, log) && (Said(log).flow.waiting.Some? ==> Said(log).flow.cycle)
      && (Clean(Start(available, retained), steps) ==> Said(log).claim.founded)
  {
    RunInv(true, Start(available, retained), steps);
    GenuineSays(Laws, Run(Start(available, retained), steps).journal);
  }

  // What lawful logs say, event by event.

  /** What the last event of a lawful log did. */
  lemma Latest(log: seq<Event>, n: nat)
    requires AllLawful(Laws, log) && |log| == n + 1
    ensures AllLawful(Laws, log[..n]) && Lawful(Said(log[..n]), log[n]) && Said(log) == Absorb(Said(log[..n]), log[n])
  {
  }

  /** What any event of a lawful log did. */
  lemma Happened(log: seq<Event>, k: nat)
    requires AllLawful(Laws, log) && k < |log|
    ensures AllLawful(Laws, log[..k]) && Lawful(Said(log[..k]), log[k]) && Said(log[..k + 1]) == Absorb(Said(log[..k]), log[k])
  {
    LawfulAt(Laws, log, k);
    assert log[..k + 1][..k] == log[..k];
  }

  lemma {:induction false} FoundedAt(log: seq<Event>, k: nat)
    requires Said(log).claim.founded && k < |log|
    ensures Founded(Said(log[..k]).claim, log[k])
    decreases |log|
  {
    var n := |log| - 1;
    if k < n {
      FoundedAt(log[..n], k);
      assert log[..n][..k] == log[..k];
    }
  }

  lemma {:induction false} AuthorityOrigin(log: seq<Event>) returns (a: nat)
    requires Said(log).claim.authority.Some?
    ensures a < |log| && log[a].Authorized? && Some(log[a].version) == Said(log).claim.authority
    ensures forall j | a < j < |log| :: !log[j].CycleBegan?
    decreases |log|
  {
    var n := |log| - 1;
    if log[n].Authorized? { a := n; } else { a := AuthorityOrigin(log[..n]); }
  }

  lemma {:induction false} ReadyOrigin(log: seq<Event>) returns (r: nat)
    requires Said(log).claim.ready.Some?
    ensures r < |log| && log[r] == BecameReady(Said(log).claim.ready.value)
    ensures forall j | r < j < |log| :: !log[j].CycleBegan? && !log[j].BecameReady?
    decreases |log|
  {
    var n := |log| - 1;
    if log[n].BecameReady? { r := n; } else { r := ReadyOrigin(log[..n]); }
  }

  lemma {:induction false} GateOrigin(log: seq<Event>) returns (b: nat)
    requires AllLawful(Laws, log) && !Said(log).flow.gate.Passed?
    ensures b < |log| && log[b].LaunchBegan? && forall j | b < j < |log| :: !log[j].GateOpened?
    decreases |log|
  {
    var n := |log| - 1;
    Latest(log, n);
    if log[n].LaunchBegan? { b := n; } else { b := GateOrigin(log[..n]); }
  }

  lemma {:induction false} AcceptedOrigin(log: seq<Event>) returns (o: nat, y: nat)
    requires Said(log).claim.offered.Some? && Said(log).claim.accepted.Some?
    ensures o < y < |log| && log[o] == ConfirmationOpened(Said(log).claim.offered.value)
    ensures log[y] == ConfirmationAnswered(Said(log).claim.accepted.value, true)
    ensures forall j | o < j < |log| :: !log[j].CycleBegan? && !log[j].ConfirmationOpened?
    ensures forall j | y < j < |log| :: !log[j].ConfirmationAnswered?
    decreases |log|
  {
    var n := |log| - 1;
    if log[n].ConfirmationAnswered? {
      o := OfferOrigin(log[..n]);
      y := n;
    } else {
      o, y := AcceptedOrigin(log[..n]);
    }
  }

  lemma {:induction false} OfferOrigin(log: seq<Event>) returns (o: nat)
    requires Said(log).claim.offered.Some?
    ensures o < |log| && log[o] == ConfirmationOpened(Said(log).claim.offered.value)
    ensures forall j | o < j < |log| :: !log[j].CycleBegan? && !log[j].ConfirmationOpened?
    decreases |log|
  {
    var n := |log| - 1;
    if log[n].ConfirmationOpened? { o := n; } else { o := OfferOrigin(log[..n]); }
  }

  /** The authority at `a` was given by a confirmation of its release opened at `o` in the same cycle and
      accepted at `y`, with no other confirmation or answer since. */
  ghost predicate ConfirmedAt(log: seq<Event>, a: nat, o: nat, y: nat)
    requires a < |log| && log[a].Authorized?
  {
    && o < y < a && log[o] == ConfirmationOpened(log[a].version) && log[y] == ConfirmationAnswered(log[a].version, true)
    && (forall j | o < j < a :: !log[j].CycleBegan? && !log[j].ConfirmationOpened?)
    && (forall j | y < j < a :: !log[j].ConfirmationAnswered?)
  }

  lemma ConfirmationOrigin(log: seq<Event>, a: nat) returns (o: nat, y: nat)
    requires Said(log).claim.founded && a < |log| && log[a].Authorized? && log[a].how.ByConfirmation?
    ensures ConfirmedAt(log, a, o, y)
  {
    FoundedAt(log, a);
    o, y := AcceptedOrigin(log[..a]);
  }

  /** Where an install came from: the release became ready at `r` in the same cycle and was
      authorized at `a`; by readiness alone only while the launch begun at `b` was not released, and by
      confirmation only when the person accepted it. */
  ghost predicate InstallIsDue(log: seq<Event>, k: nat, r: nat, a: nat, b: nat)
    requires k < |log| && (log[k].Installed? || log[k].KeptForQuit?)
  {
    && r < a < k && log[r] == BecameReady(log[k].version)
    && log[a].Authorized? && log[a].version == log[k].version
    && (forall j | r < j < k :: !log[j].CycleBegan?)
    && (forall j | r < j < a :: !log[j].BecameReady?)
    && (log[a].how.ByLaunch? ==> b < a && log[b].LaunchBegan? && forall j | b < j < a :: !log[j].GateOpened?)
    && (log[a].how.ByConfirmation? ==> exists o: nat, y: nat :: ConfirmedAt(log, a, o, y))
  }

  lemma AuthorizationOrigin(log: seq<Event>, a: nat) returns (r: nat, b: nat)
    requires AllLawful(Laws, log) && Said(log).claim.founded && a < |log| && log[a].Authorized?
    ensures r < a && log[r] == BecameReady(log[a].version) && forall j | r < j < a :: !log[j].CycleBegan? && !log[j].BecameReady?
    ensures log[a].how.ByLaunch? ==> b < a && log[b].LaunchBegan? && forall j | b < j < a :: !log[j].GateOpened?
  {
    FoundedAt(log, a);
    r := ReadyOrigin(log[..a]);
    b := 0;
    if log[a].how.ByLaunch? {
      Happened(log, a);
      b := GateOrigin(log[..a]);
    }
  }

  lemma InstallOrigin(log: seq<Event>, k: nat) returns (r: nat, a: nat, b: nat)
    requires AllLawful(Laws, log) && Said(log).claim.founded && k < |log| && (log[k].Installed? || log[k].KeptForQuit?)
    ensures InstallIsDue(log, k, r, a, b)
  {
    FoundedAt(log, k);
    a := AuthorityOrigin(log[..k]);
    r, b := AuthorizationOrigin(log, a);
    if log[a].how.ByConfirmation? { var o, y := ConfirmationOrigin(log, a); }
  }

  /** Over every run in which no `BadReady` is reported: the installer runs, at once or at quit, only
      for the release that was ready in the current check cycle when it was authorized; readiness
      alone authorizes it only while startup has begun and was not released, and a confirmation only
      when it was opened for this release in this cycle and accepted. */
  lemma InstallsOnlyWhatWasReady(available: bool, retained: Option<string>, steps: seq<(Action, Surroundings)>, k: nat)
    returns (r: nat, a: nat, b: nat)
    requires Clean(Start(available, retained), steps)
    requires
      var log := Run(Start(available, retained), steps).journal.log;
      k < |log| && (log[k].Installed? || log[k].KeptForQuit?)
    ensures InstallIsDue(Run(Start(available, retained), steps).journal.log, k, r, a, b)
  {
    RunLawful(available, retained, steps);
    r, a, b := InstallOrigin(Run(Start(available, retained), steps).journal.log, k);
  }

  // The exact condition on readiness reports.

  const Calm: Surroundings := Surroundings(None, None, None, false, false, false, false, false)

  /** A release announced, then the adapter saying it installs, then a retry of the restart. */
  function Breach(v: string): seq<(Action, Surroundings)> {
    [(Reported(Announced(v, true)), Calm), (Reported(InstallingNow), Calm), (RetryInstallNow, Calm)]
  }

  lemma RunSnoc(u: Updates, steps: seq<(Action, Surroundings)>, a: Action, s: Surroundings)
    ensures Run(u, steps + [(a, s)]) == Step(Run(u, steps), a, s)
    ensures Clean(u, steps) && !a.Reported? ==> Clean(u, steps + [(a, s)])
    ensures Clean(u, steps) && a.Reported? && !a.report.ReadyNow? ==> Clean(u, steps + [(a, s)])
  {
    assert (steps + [(a, s)])[..|steps|] == steps;
  }

  lemma BreachRun(u: Updates, v: string)
    ensures Clean(u, Breach(v))
    ensures Run(u, Breach(v)) ==
      Step(Step(Step(u, Reported(Announced(v, true)), Calm), Reported(InstallingNow), Calm), RetryInstallNow, Calm)
  {
    RunSnoc(u, [], Reported(Announced(v, true)), Calm);
    var one := [] + [(Reported(Announced(v, true)), Calm)];
    RunSnoc(u, one, Reported(InstallingNow), Calm);
    var two := one + [(Reported(InstallingNow), Calm)];
    RunSnoc(u, two, RetryInstallNow, Calm);
    assert Breach(v) == two + [(RetryInstallNow, Calm)];
  }

  /** An authorized cycle, still checking, whose log says nothing was authorized. */
  predicate Unfounded(u: Updates) {
    u.model.authorized && u.model.active && !u.model.cancelling && u.journal.now.claim.authority.None?
  }

  lemma FoundStaysUnfounded(u: Updates)
    requires Unfounded(u)
    ensures Unfounded(ReceiveFound(u, Calm)) && ReceiveFound(u, Calm).model.version == u.model.version
  {
    var gated := GateFound(u, Calm);
    assert Unfounded(gated) && gated.model == u.model;
    var loaded := LoadFound(gated, Calm);
    assert Unfounded(loaded) && loaded.model.version == u.model.version;
    assert Tick(loaded, Calm) == loaded;
  }

  lemma InstallingThenRetry(u: Updates, v: string)
    requires Unfounded(u) && u.model.version == Some(v)
    ensures
      var w := RetryInstall(Receive(u, InstallingNow, Calm), Calm);
      !w.journal.now.claim.founded && w.journal.log == u.journal.log + [Installed(v)]
  {
    var installing := u.(model := u.model.(state := Installing(v)));
    assert Receive(u, InstallingNow, Calm) == installing;
    assert RetryInstall(installing, Calm) == installing.Note(Installed(v));
  }

  /** After a `BadReady`, announcing any release `v` and retrying installs it with no authority. */
  lemma BreachInstalls(u: Updates, v: string)
    requires Unfounded(u) && u.model.state.Checking?
    ensures
      var w := Run(u, Breach(v));
      !w.journal.now.claim.founded && w.journal.log != [] && w.journal.log[|w.journal.log| - 1] == Installed(v)
  {
    BreachRun(u, v);
    var told := u.(model := u.model.(version := Some(v), state := Available(v)));
    assert Receive(u, Announced(v, true), Calm) == ReceiveFound(told, Calm);
    FoundStaysUnfounded(told);
    InstallingThenRetry(ReceiveFound(told, Calm), v);
  }

  /** Reporting readiness can lead to installing a release that was never ready exactly when the
      report is a `BadReady`. */
  lemma ReadyReportIsSafeExactly(u: Updates, s: Surroundings)
    requires Inv(true, u)
    ensures
      var next := Step(u, Reported(ReadyNow), s);
      BadReady(u, Reported(ReadyNow)) <==> exists steps :: Clean(next, steps) && !Run(next, steps).journal.now.claim.founded
  {
    var next := Step(u, Reported(ReadyNow), s);
    if BadReady(u, Reported(ReadyNow)) {
      assert next == u.(model := u.model.(authorized := true));
      BreachRun(next, "");
      BreachInstalls(next, "");
    } else {
      StepInv(true, u, Reported(ReadyNow), s);
      forall steps | Clean(next, steps) ensures Run(next, steps).journal.now.claim.founded { RunInv(true, next, steps); }
    }
  }

  /** Such a run from the start: launch begins, readiness is reported with no release known, then any
      release `v` is announced and the restart retried. `v` is installed, against the law. */
  lemma UnannouncedReadinessInstalls(v: string)
    ensures
      var gated := BeginLaunch(Start(true, None), Calm);
      var w := Run(Receive(gated, ReadyNow, Calm), Breach(v));
      && BadReady(gated, Reported(ReadyNow)) && !w.journal.now.claim.founded
      && w.journal.log != [] && w.journal.log[|w.journal.log| - 1] == Installed(v)
  {
    var gated := BeginLaunch(Start(true, None), Calm);
    assert Receive(gated, ReadyNow, Calm) == gated.(model := gated.model.(authorized := true));
    BreachInstalls(gated.(model := gated.model.(authorized := true)), v);
  }

  // Startup and the launch gate.

  lemma {:induction false} OwedOrigin(log: seq<Event>) returns (b: nat)
    requires Said(log).flow.owed
    ensures b < |log| && log[b].LaunchBegan?
    ensures forall j | b < j < |log| :: !log[j].StartupScheduled? && !log[j].QuitAsked?
    decreases |log|
  {
    var n := |log| - 1;
    if log[n].LaunchBegan? { b := n; } else { b := OwedOrigin(log[..n]); }
  }

  lemma {:induction false} BeganStays(log: seq<Event>, i: nat)
    requires i < |log| && log[i].LaunchBegan?
    ensures Said(log).flow.began
    decreases |log|
  {
    if i < |log| - 1 { BeganStays(log[..|log| - 1], i); }
  }

  lemma LaunchBeginsOnce(log: seq<Event>, i: nat, j: nat)
    requires AllLawful(Laws, log) && i < j < |log| && log[i].LaunchBegan?
    ensures !log[j].LaunchBegan?
  {
    Happened(log, j);
    BeganStays(log[..j], i);
  }

  lemma StartupOrigin(log: seq<Event>, k: nat) returns (b: nat)
    requires AllLawful(Laws, log) && k < |log| && log[k].StartupScheduled?
    ensures b < k && log[b].LaunchBegan? && forall j | b < j < k :: !log[j].QuitAsked? && !log[j].StartupScheduled?
  {
    Happened(log, k);
    b := OwedOrigin(log[..k]);
  }

  lemma ScheduledOnce(log: seq<Event>, j: nat, k: nat)
    requires AllLawful(Laws, log) && j < k < |log| && log[k].StartupScheduled?
    ensures !log[j].StartupScheduled?
  {
    if log[j].StartupScheduled? {
      var b := StartupOrigin(log, k);
      var earlier := StartupOrigin(log, j);
      LaunchBeginsOnce(log, earlier, b);
    }
  }

  /** Over every run, startup is scheduled at most once, only after launch began, and never once a
      quit was prepared after that. */
  lemma StartupIsScheduledOnce(available: bool, retained: Option<string>, steps: seq<(Action, Surroundings)>, k: nat)
    returns (b: nat)
    requires
      var log := Run(Start(available, retained), steps).journal.log;
      k < |log| && log[k].StartupScheduled?
    ensures
      var log := Run(Start(available, retained), steps).journal.log;
      && b < k && log[b].LaunchBegan?
      && (forall j | b < j < k :: !log[j].QuitAsked?)
      && (forall j | 0 <= j < k :: !log[j].StartupScheduled?)
  {
    RunLawful(available, retained, steps);
    var log := Run(Start(available, retained), steps).journal.log;
    b := StartupOrigin(log, k);
    forall j | 0 <= j < k ensures !log[j].StartupScheduled? { ScheduledOnce(log, j, k); }
  }

  lemma {:induction false} BoundStays(log: seq<Event>, a: nat)
    requires AllLawful(Laws, log) && a < |log| && log[a].Authorized? && log[a].how.ByLaunch?
    requires forall j | a < j < |log| :: !log[j].GateOpened?
    ensures Said(log).flow.gate.Bound? && Said(log).flow.began
    decreases |log|
  {
    var n := |log| - 1;
    Latest(log, n);
    if a < n { BoundStays(log[..n], a); }
    else {
      var b := GateOrigin(log[..n]);
      BeganStays(log[..n], b);
    }
  }

  lemma {:induction false} TimerOrigin(log: seq<Event>) returns (t: nat)
    requires Said(log).flow.timer
    ensures t < |log| && log[t].TimerSet?
    ensures forall j | t < j < |log| :: !(log[j].Authorized? && log[j].how.ByLaunch?)
    decreases |log|
  {
    var n := |log| - 1;
    if log[n].TimerSet? { t := n; } else { t := TimerOrigin(log[..n]); }
  }

  lemma BoundRelease(log: seq<Event>, a: nat, k: nat) returns (t: nat)
    requires AllLawful(Laws, log) && a < k < |log| && log[a].Authorized? && log[a].how.ByLaunch? && log[k].GateOpened?
    requires forall j | a < j < k :: !log[j].GateOpened?
    ensures log[k].cause.Failure? || log[k].cause.NoUpdate? || (log[k].cause.Timeout? && a < t < k && log[t] == TimerSet(true))
  {
    Happened(log, k);
    BoundStays(log[..k], a);
    t := 0;
    if log[k].cause.Timeout? {
      t := TimerOrigin(log[..k]);
      assert a != t && log[..k][a] == log[a];
      Happened(log, t);
      BoundStays(log[..t], a);
    }
  }

  /** Over every run, once readiness bound the launch to the installer, only a failure, a report that
      no update exists, or a timer set by download progress since then releases startup. */
  lemma BoundLaunchIsReleasedByFailure(available: bool, retained: Option<string>, steps: seq<(Action, Surroundings)>, a: nat, k: nat)
    returns (t: nat)
    requires
      var log := Run(Start(available, retained), steps).journal.log;
      && a < k < |log| && log[a].Authorized? && log[a].how.ByLaunch? && log[k].GateOpened?
      && forall j | a < j < k :: !log[j].GateOpened?
    ensures
      var log := Run(Start(available, retained), steps).journal.log;
      log[k].cause.Failure? || log[k].cause.NoUpdate? || (log[k].cause.Timeout? && a < t < k && log[t] == TimerSet(true))
  {
    RunLawful(available, retained, steps);
    t := BoundRelease(Run(Start(available, retained), steps).journal.log, a, k);
  }

  const Overdue: Surroundings := Calm.(overdue := true)

  /** Launch begins, an overdue release `v` is announced and becomes ready: its install is called, the
      launch is bound to it and no timer runs. */
  lemma BoundAtLaunch(v: string)
    ensures
      var bound := Receive(Receive(BeginLaunch(Start(true, None), Calm), Announced(v, true), Overdue), ReadyNow, Calm);
      && bound.launch.LaunchInstalling? && bound.model.active && bound.resume && !bound.timer
      && bound.model.state == Installing(v) && !bound.model.cancelling
  {
    var gated := BeginLaunch(Start(true, None), Calm);
    assert gated.launch.LaunchChecking? && gated.resume && gated.model.state.Checking? && gated.model.active;
    var told := gated.(model := gated.model.(version := Some(v), state := Available(v)));
    var required := GateFound(told, Overdue);
    assert required == SetTimer(told.(launch := Required), false);
    var loading := LoadFound(required, Overdue);
    assert loading.model == told.model.(state := Downloading(v, 0, 0)) && loading.launch.Required? && loading.resume;
    assert Tick(loading, Overdue) == loading;
    assert Receive(gated, Announced(v, true), Overdue) == loading;
  }

  /** Progress after readiness sets the timer again: from there it releases the bound launch, and startup
      is scheduled beneath the installer. Without progress no timer fires. */
  lemma ProgressRearmsTheTimer(v: string, received: u64, total: u64)
    ensures
      var bound := Receive(Receive(BeginLaunch(Start(true, None), Calm), Announced(v, true), Overdue), ReadyNow, Calm);
      var released := FireTimer(Receive(bound, Progress(received, total), Calm));
      && bound.launch.LaunchInstalling? && FireTimer(bound) == bound
      && released.launch.Open? && released.journal.log != []
      && released.journal.log[|released.journal.log| - 1] == StartupScheduled
  {
    BoundAtLaunch(v);
  }

  // A quit that waits.

  /** In a running cycle a stored quit stays stored and is not scheduled. */
  lemma WaitsOn(f: Flow, e: Event, quit: Ticket)
    requires f.cycle && f.waiting == Some(quit) && Allowed(f, e) && !e.CycleEnded?
    ensures Flowed(f, e).cycle && Flowed(f, e).waiting == Some(quit) && !e.QuitScheduled? && !e.QuitStored?
  {
  }

  lemma {:induction false} WaitingStays(log: seq<Event>, i: nat)
    requires AllLawful(Laws, log) && i < |log| && log[i].QuitStored?
    requires forall j | i < j < |log| :: !log[j].CycleEnded?
    ensures Said(log).flow.cycle && Said(log).flow.waiting == Some(log[i].quit)
    ensures forall j | i < j < |log| :: !log[j].QuitScheduled? && !log[j].QuitStored?
    decreases |log|
  {
    var n := |log| - 1;
    Latest(log, n);
    if i < n {
      WaitingStays(log[..n], i);
      WaitsOn(Said(log[..n]).flow, log[n], log[i].quit);
    }
  }

  lemma {:induction false} ScheduledNext(log: seq<Event>, e: nat, n: nat) returns (k: nat)
    requires AllLawful(Laws, log) && e < n <= |log| && log[e].CycleEnded?
    requires Said(log[..e]).flow.waiting.Some?
    requires Said(log).flow.waiting.Some? ==> Said(log).flow.cycle
    requires forall j | e < j < n :: log[j].GateOpened? || log[j].StartupScheduled?
    requires !Said(log[..n]).flow.cycle && Said(log[..n]).flow.waiting == Said(log[..e]).flow.waiting
    ensures n <= k < |log| && log[k] == QuitScheduled(Said(log[..e]).flow.waiting.value)
    ensures forall j | e < j < k :: log[j].GateOpened? || log[j].StartupScheduled?
    decreases |log| - n
  {
    assert log[..|log|] == log;
    Happened(log, n);
    if log[n].QuitScheduled? { k := n; } else { k := ScheduledNext(log, e, n + 1); }
  }

  lemma ResumeAtEnd(log: seq<Event>, i: nat, e: nat) returns (k: nat)
    requires AllLawful(Laws, log) && i < e < |log| && log[i].QuitStored? && log[e].CycleEnded?
    requires forall j | i < j < e :: !log[j].CycleEnded?
    requires Said(log).flow.waiting.Some? ==> Said(log).flow.cycle
    ensures e < k < |log| && log[k] == QuitScheduled(log[i].quit)
    ensures forall j | i < j < k :: !log[j].QuitScheduled? && !log[j].QuitStored?
    ensures forall j | e < j < k :: log[j].GateOpened? || log[j].StartupScheduled?
  {
    Happened(log, e);
    WaitingStays(log[..e], i);
    k := ScheduledNext(log, e, e + 1);
    forall j | i < j < k ensures !log[j].QuitScheduled? && !log[j].QuitStored? {
      if j < e { assert log[..e][j] == log[j]; }
    }
  }

  /** Over every run, a quit stored at `i` is not scheduled before its cycle's first end at `e`, and is
      scheduled then, after nothing but the release of startup. */
  lemma WaitingQuitResumesAtCycleEnd(available: bool, retained: Option<string>, steps: seq<(Action, Surroundings)>, i: nat, e: nat)
    returns (k: nat)
    requires
      var log := Run(Start(available, retained), steps).journal.log;
      && i < e < |log| && log[i].QuitStored? && log[e].CycleEnded?
      && forall j | i < j < e :: !log[j].CycleEnded?
    ensures
      var log := Run(Start(available, retained), steps).journal.log;
      && e < k < |log| && log[k] == QuitScheduled(log[i].quit)
      && (forall j | i < j < k :: !log[j].QuitScheduled? && !log[j].QuitStored?)
      && (forall j | e < j < k :: log[j].GateOpened? || log[j].StartupScheduled?)
  {
    RunLawful(available, retained, steps);
    k := ResumeAtEnd(Run(Start(available, retained), steps).journal.log, i, e);
  }
}
