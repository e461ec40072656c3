/** The desktop update cycle: when the installer may run, when startup is released, and when a quit
    that waits for the updater resumes. The adapter that downloads and installs is outside; what its
    calls return, the clock and the preferences are inputs. */
module Updates {
  import opened Common
  import opened Journals

  type Ticket = nat

  datatype UpdateError = NoUpdates | CheckError | DownloadError | VerificationError | InstallationError | ReadOnly

  datatype UpdateState =
    | Unavailable
    | Idle
    | Checking
    | UpToDate
    | Available(version: string)
    | Downloading(version: string, received: u64, total: u64)
    | Verifying(version: string)
    | Ready(version: string)
    | Installing(version: string)
    | Failed(error: UpdateError)

  /** What the adapter reports. `stable` is whether the announced version is a stable release. */
  datatype Report =
    | Announced(version: string, stable: bool)
    | ReleaseMetadata(prepared: bool)
    | Current
    | Progress(received: u64, total: u64)
    | VerifyingNow
    | ReadyNow
    | InstallingNow
    | Broke(error: UpdateError)
    | Finished

  /** An open question: the cycle it was asked in and the release it was asked about. */
  datatype Confirmation = Confirmation(generation: u64, version: string)

  datatype Model = Model(
    state: UpdateState,
    version: Option<string>,
    generation: u64,
    confirmationOpen: bool,
    authorized: bool,
    cancelling: bool,
    active: bool,
    manual: bool)

  function NewModel(available: bool, retained: Option<string>): Model {
    Model(if available then Idle else Unavailable, if available then retained else None, 0, false, false, false, false, false)
  }

  function BeginCheck(m: Model, manual: bool): Option<Model> {
    if m.active || m.state.Unavailable? then None
    else Some(m.(generation := (m.generation + 1) % (MaxU64 + 1), confirmationOpen := false, authorized := false,
                 cancelling := false, active := true, manual := manual, state := Checking))
  }

  function OpenConfirmation(m: Model): (Model, Option<Confirmation>) {
    if m.confirmationOpen || m.cancelling || !m.state.Ready? then (m, None)
    else (m.(confirmationOpen := true), Some(Confirmation(m.generation, m.state.version)))
  }

  /** The model after the answer, and whether it authorizes the install. */
  function Confirm(m: Model, c: Confirmation, accepted: bool): (Model, bool) {
    if m.generation != c.generation || !m.confirmationOpen then (m, false)
    else if !accepted || m.cancelling || m.state != Ready(c.version) then (m.(confirmationOpen := false), false)
    else (m.(confirmationOpen := false, authorized := true, state := Installing(c.version)), true)
  }

  function ModelReceive(m: Model, r: Report): Model {
    if !m.active then m
    else if r.Finished? then
      var ended := m.(active := false, cancelling := false, confirmationOpen := false);
      if m.cancelling || m.state.Checking? || m.state.Available? || m.state.Downloading? || m.state.Verifying? || m.state.Ready?
      then ended.(state := Idle) else ended
    else if m.cancelling then m
    else match r
      case Announced(version, stable) =>
        if !m.state.Checking? then m
        else if !stable then m.(state := Failed(VerificationError))
        else m.(version := Some(version), state := Available(version))
      case Current => m.(version := None, state := UpToDate)
      case Progress(received, total) => if m.version.Some? then m.(state := Downloading(m.version.value, received, total)) else m
      case VerifyingNow => if m.version.Some? then m.(state := Verifying(m.version.value)) else m
      case ReadyNow => if m.version.Some? then m.(state := Ready(m.version.value)) else m
      case InstallingNow => if m.authorized && m.version.Some? then m.(state := Installing(m.version.value)) else m
      case Broke(error) => m.(state := Failed(error))
      case _ => m
  }

  datatype Launch = Open | LaunchChecking | Required | LaunchInstalling

  datatype Authority = ByConfirmation | ByLaunch | ByQuit

  datatype Cause = NotGated | Found | Failure | NoUpdate | CycleEnd | Timeout | Released

  /** What the rest of the application can see. A `Ticket` names a quit waiting to resume. */
  datatype Event =
    | CycleBegan
    | CycleEnded
    | BecameReady(version: string)
    | ConfirmationOpened(version: string)
    | ConfirmationAnswered(version: string, accepted: bool)
    | Authorized(version: string, how: Authority)
    | Installed(version: string)           // adapter.install was called
    | KeptForQuit(version: string)         // adapter.finish_on_quit succeeded
    | LaunchBegan
    | TimerSet(progress: bool)
    | GateOpened(cause: Cause)
    | StartupScheduled
    | QuitAsked
    | QuitStored(quit: Ticket)
    | QuitScheduled(quit: Ticket)

  /** What the adapter's calls return, what the preferences and the clock say. */
  datatype Surroundings = Surroundings(
    checkError: Option<UpdateError>,
    downloadError: Option<UpdateError>,
    installError: Option<UpdateError>,
    finishes: bool,
    running: bool,          // a session is previewed, so launch is not gated
    automatic: bool,        // automatic downloads are on
    overdue: bool,          // the release is overdue
    due: bool)              // a check is due

  datatype Updates = Updates(
    model: Model,
    launch: Launch,
    resume: bool,
    timer: bool,
    pendingQuit: Option<Ticket>,
    prepared: bool,
    automatic: bool,
    requested: bool,
    journal: Journal)
  {
    function Note(e: Event): Updates { this.(journal := Noted(journal, e)) }
  }

  function Start(available: bool, retained: Option<string>): Updates {
    Updates(NewModel(available, retained), Open, false, false, None, false, false, false, Notes([], Blank, true))
  }

  /** Nothing about the running cycle or the quit that waits for it changed. */
  predicate SameCycle(u: Updates, next: Updates) {
    next.pendingQuit == u.pendingQuit && next.model.active == u.model.active && next.model.cancelling == u.model.cancelling
  }

  function OpenLaunch(u: Updates, cause: Cause): (next: Updates)
    ensures SameCycle(u, next)
  {
    var released := u.(launch := Open, timer := false, resume := false).Note(GateOpened(cause));
    if u.resume then released.Note(StartupScheduled) else released
  }

  function SetTimer(u: Updates, progress: bool): (next: Updates)
    ensures SameCycle(u, next)
  {
    u.(timer := true).Note(TimerSet(progress))
  }

  /** Receiving a failure, which the program also does itself when the adapter refuses a call. */
  function Fail(u: Updates, error: UpdateError): (next: Updates)
    ensures SameCycle(u, next)
  {
    if !u.model.active then u
    else OpenLaunch(u.(model := ModelReceive(u.model, Broke(error))), Failure)
  }

  function FailIf(u: Updates, error: Option<UpdateError>): (next: Updates)
    ensures SameCycle(u, next)
  {
    if error.Some? then Fail(u, error.value) else u
  }

  function FinishCycle(u: Updates): (next: Updates)
    ensures u.model.active ==> next.pendingQuit.None?
  {
    if !u.model.active then u
    else
      var ended := u.(model := ModelReceive(u.model, Finished)).Note(CycleEnded);
      TakeQuit(if u.launch.LaunchInstalling? then ended else OpenLaunch(ended, CycleEnd))
  }

  function TakeQuit(u: Updates): Updates {
    if u.pendingQuit.None? then u else u.(pendingQuit := None).Note(QuitScheduled(u.pendingQuit.value))
  }

  function Download(u: Updates, s: Surroundings): (next: Updates)
    ensures SameCycle(u, next)
  {
    if !u.model.state.Available? then u
    else FailIf(u.(model := u.model.(state := Downloading(u.model.state.version, 0, 0))), s.downloadError)
  }

  function Check(u: Updates, manual: bool, s: Surroundings): (next: Updates)
    ensures u.model.active ==> SameCycle(u, next)
  {
    var begun := BeginCheck(u.model, manual);
    if begun.None? then u
    else
      var checking := u.(model := begun.value, prepared := false, automatic := false, requested := false).Note(CycleBegan);
      if s.checkError.Some? then FinishCycle(Fail(checking, s.checkError.value)) else checking
  }

  function Tick(u: Updates, s: Surroundings): (next: Updates)
    ensures u.model.active ==> SameCycle(u, next)
  {
    var loaded := if !u.prepared && s.automatic && u.model.state.Available? && !u.model.cancelling
                  then Download(u.(automatic := true), s) else u;
    if s.due then Check(loaded, false, s) else loaded
  }

  /** A found release keeps the launch gate closed only when it is prepared or overdue. */
  function GateFound(u: Updates, s: Surroundings): (next: Updates)
    ensures SameCycle(u, next)
  {
    if !u.launch.LaunchChecking? then u
    else if u.prepared || s.overdue then SetTimer(u.(launch := Required), false)
    else OpenLaunch(u, Found)
  }

  function LoadFound(u: Updates, s: Surroundings): (next: Updates)
    ensures SameCycle(u, next)
  {
    if !u.prepared && (u.requested || s.automatic || u.launch.Required?)
    then Download(u.(automatic := !u.model.manual && !u.requested, requested := false), s)
    else u
  }

  function ReceiveFound(u: Updates, s: Surroundings): (next: Updates)
    ensures u.model.active ==> SameCycle(u, next)
  {
    Tick(LoadFound(GateFound(u, s), s), s)
  }

  function CallInstall(u: Updates, version: string, s: Surroundings): (next: Updates)
    ensures SameCycle(u, next)
  {
    FailIf(u.Note(Installed(version)), s.installError)
  }

  /** A release that became ready before startup was released is installed at once. */
  function InstallAtLaunch(u: Updates, s: Surroundings): (next: Updates)
    ensures SameCycle(u, next)
  {
    if u.launch.Open? || u.model.cancelling then u
    else if u.model.version.None? then u.(model := u.model.(authorized := true))
    else
      CallInstall(Bind(u, u.model.version.value), u.model.version.value, s)
  }

  /** Readiness binds the launch to the installer of `v` and takes the timer away. */
  function Bind(u: Updates, v: string): (next: Updates)
    ensures SameCycle(u, next)
  {
    u.(model := u.model.(authorized := true, state := Installing(v)), launch := LaunchInstalling, timer := false)
      .Note(Authorized(v, ByLaunch))
  }

  function ReceiveReady(u: Updates, s: Surroundings): (next: Updates)
    ensures SameCycle(u, next)
  {
    var told := u.(model := ModelReceive(u.model, ReadyNow));
    InstallAtLaunch(if u.model.cancelling || u.model.version.None? then told else told.Note(BecameReady(u.model.version.value)), s)
  }

  function Receive(u: Updates, r: Report, s: Surroundings): Updates {
    if !u.model.active then u
    else
      var told := u.(model := ModelReceive(u.model, r));
      match r
      case ReleaseMetadata(prepared) => u.(prepared := prepared)
      case Announced(_, _) => if told.model.state.Available? then ReceiveFound(told, s) else told
      case Current => OpenLaunch(told, NoUpdate)
      case Progress(_, _) => if u.launch.Open? then told else SetTimer(told, true)
      case VerifyingNow => if u.launch.Open? then told else SetTimer(told, true)
      case ReadyNow => ReceiveReady(u, s)
      case InstallingNow => told
      case Broke(error) => Fail(u, error)
      case Finished => FinishCycle(u)
  }

  /** The confirmation presented, if one may be. */
  function BeginConfirmation(u: Updates): (next: Updates)
    ensures SameCycle(u, next)
  {
    var (m, c) := OpenConfirmation(u.model);
    if c.Some? then u.(model := m).Note(ConfirmationOpened(c.value.version)) else u
  }

  function FinishConfirmation(u: Updates, c: Confirmation, accepted: bool, s: Surroundings): (next: Updates)
    ensures SameCycle(u, next)
  {
    var (m, confirmed) := Confirm(u.model, c, accepted);
    var answered := u.(model := m).Note(ConfirmationAnswered(c.version, accepted));
    if confirmed then CallInstall(answered.Note(Authorized(c.version, ByConfirmation)), c.version, s) else answered
  }

  function RetryInstall(u: Updates, s: Surroundings): (next: Updates)
    ensures SameCycle(u, next)
  {
    if u.model.authorized && u.model.state.Installing? then CallInstall(u, u.model.state.version, s) else u
  }

  function Relaunch(u: Updates, s: Surroundings): (next: Updates)
    ensures SameCycle(u, next)
  {
    var c := OpenConfirmation(u.model).1;
    if c.Some? then FinishConfirmation(BeginConfirmation(u), c.value, true, s) else RetryInstall(u, s)
  }

  function RetryDownload(u: Updates, s: Surroundings): Updates {
    var checked := Check(u, true, s);
    if checked.model.state.Checking? then checked.(requested := true) else checked
  }

  function Cancel(u: Updates): Updates {
    if u.model.active && !u.model.authorized then u.(model := u.model.(cancelling := true, confirmationOpen := false)) else u
  }

  function DismissFailure(u: Updates): Updates {
    if u.model.state.Failed? then u.(model := u.model.(state := Idle)) else u
  }

  function BeginLaunch(u: Updates, s: Surroundings): Updates {
    var begun := u.(resume := true).Note(LaunchBegan);
    if u.model.state.Unavailable? || s.running then Check(OpenLaunch(begun, NotGated), false, s)
    else Check(SetTimer(begun.(launch := LaunchChecking), false), false, s)
  }

  function FireTimer(u: Updates): Updates {
    if u.timer then OpenLaunch(u, Timeout) else u
  }

  function ReleaseLaunch(u: Updates): Updates {
    if u.launch.LaunchInstalling? then u else OpenLaunch(u, Released)
  }

  /** A quit was asked for: what startup waited for is forgotten. */
  function AskedQuit(u: Updates): Updates {
    u.(resume := false, timer := false).Note(QuitAsked)
  }

  /** The adapter keeps the verified installer of `v` for an ordinary quit. */
  function Keep(u: Updates, v: string): Updates {
    u.(model := u.model.(authorized := true)).Note(Authorized(v, ByQuit)).Note(KeptForQuit(v))
  }

  function StoreQuit(u: Updates, quit: Ticket): Updates {
    if u.pendingQuit.None? then u.(pendingQuit := Some(quit)).Note(QuitStored(quit)) else u
  }

  /** Whether `PrepareBeforeQuit` makes the quit wait for the cycle's end. */
  predicate MustWait(u: Updates, s: Surroundings) {
    u.model.active && !u.model.authorized && !(u.model.state.Ready? && s.finishes)
  }

  function PrepareBeforeQuit(u: Updates, quit: Ticket, s: Surroundings): (next: Updates)
    ensures next.pendingQuit == if MustWait(u, s) && u.pendingQuit.None? then Some(quit) else u.pendingQuit
    ensures next.model.active == u.model.active && next.model.cancelling == (MustWait(u, s) || u.model.cancelling)
  {
    var asked := AskedQuit(u);
    if !u.model.active || u.model.authorized then asked
    else
      var closed := if u.model.state.Ready? then asked.(model := u.model.(confirmationOpen := false)) else asked;
      if u.model.state.Ready? && s.finishes then
        Keep(closed, u.model.state.version)
      else
        Cancel(StoreQuit(closed, quit))
  }

  // Runs.

  datatype Action =
    | Reported(report: Report)
    | CheckNow(manual: bool)
    | TickNow
    | DownloadNow
    | CancelNow
    | AskConfirmation
    | AnswerConfirmation(confirmation: Confirmation, accepted: bool)
    | RelaunchNow
    | RetryInstallNow
    | RetryDownloadNow
    | DismissNow
    | LaunchNow
    | TimerFires
    | ReleaseNow
    | PrepareQuit(quit: Ticket)

  /** Launch begins once; asking again does nothing. */
  function Step(u: Updates, a: Action, s: Surroundings): Updates {
    match a
    case Reported(r) => Receive(u, r, s)
    case CheckNow(manual) => Check(u, manual, s)
    case TickNow => Tick(u, s)
    case DownloadNow => Download(u, s)
    case CancelNow => Cancel(u)
    case AskConfirmation => BeginConfirmation(u)
    case AnswerConfirmation(c, accepted) => FinishConfirmation(u, c, accepted, s)
    case RelaunchNow => Relaunch(u, s)
    case RetryInstallNow => RetryInstall(u, s)
    case RetryDownloadNow => RetryDownload(u, s)
    case DismissNow => DismissFailure(u)
    case LaunchNow => if u.journal.now.flow.began then u else BeginLaunch(u, s)
    case TimerFires => FireTimer(u)
    case ReleaseNow => ReleaseLaunch(u)
    case PrepareQuit(quit) => PrepareBeforeQuit(u, quit, s)
  }

  function Run(u: Updates, steps: seq<(Action, Surroundings)>): Updates
    decreases |steps|
  {
    if steps == [] then u
    else
      var last := steps[|steps| - 1];
      Step(Run(u, steps[..|steps| - 1]), last.0, last.1)
  }

  // What a log says.

  datatype Gate = Passed | Shut | Bound

  /** The releases that became ready and were authorized since the current check cycle began, the one a
      confirmation was last opened for and the one accepted by the last answer since, and whether every
      confirmation, authority and install so far was founded. */
  datatype Claim = Claim(
    ready: Option<string>, authority: Option<string>, offered: Option<string>, accepted: Option<string>, founded: bool)

  /** Whether a check cycle runs, launch began, startup waits to be scheduled and the launch timer is
      set; how the gate stands; and the quit that waits. */
  datatype Flow = Flow(cycle: bool, began: bool, gate: Gate, owed: bool, timer: bool, waiting: Option<Ticket>)

  datatype Digest = Digest(claim: Claim, flow: Flow)

  const Blank: Digest := Digest(Claim(None, None, None, None, true), Flow(false, false, Passed, false, false, None))

  function Claimed(c: Claim, e: Event): Claim {
    match e
    case CycleBegan => c.(ready := None, authority := None, offered := None, accepted := None)
    case ConfirmationOpened(v) => c.(offered := Some(v), accepted := None, founded := c.founded && Founded(c, e))
    case ConfirmationAnswered(v, accepted) => c.(accepted := if accepted then Some(v) else None)
    case BecameReady(v) => c.(ready := Some(v))
    case Authorized(v, _) => c.(authority := Some(v), founded := c.founded && Founded(c, e))
    case Installed(_) => c.(founded := c.founded && Founded(c, e))
    case KeptForQuit(_) => c.(founded := c.founded && Founded(c, e))
    case _ => c
  }

  function Flowed(f: Flow, e: Event): Flow {
    match e
    case CycleBegan => f.(cycle := true)
    case CycleEnded => f.(cycle := false)
    case Authorized(_, how) => if how.ByLaunch? then f.(gate := Bound, timer := false) else f
    case LaunchBegan => f.(began := true, gate := Shut, owed := true)
    case TimerSet(_) => f.(timer := true)
    case GateOpened(_) => f.(gate := Passed, timer := false)
    case StartupScheduled => f.(owed := false)
    case QuitAsked => f.(owed := false, timer := false)
    case QuitStored(q) => f.(waiting := Some(q))
    case QuitScheduled(_) => f.(waiting := None)
    case _ => f
  }

  function Absorb(d: Digest, e: Event): Digest {
    Digest(Claimed(d.claim, e), Flowed(d.flow, e))
  }

  /** The installer runs only for a release authorized in this cycle, and authority goes only to the
      release ready in this cycle; by confirmation only to one whose confirmation was opened in this
      cycle, while it was ready, and accepted. */
  predicate Founded(c: Claim, e: Event) {
    match e
    case ConfirmationOpened(v) => c.ready == Some(v)
    case Authorized(v, how) => c.ready == Some(v) && (how.ByConfirmation? ==> c.offered == c.accepted == Some(v))
    case Installed(v) => c.authority == Some(v)
    case KeptForQuit(v) => c.authority == Some(v)
    case _ => true
  }

  /** Readiness alone authorizes only before startup is released; a bound gate opens only for a failure,
      no update, or a timer, which only progress sets then. Launch begins once, and startup is scheduled
      once for it, unless a quit was asked for. A quit is stored in a running cycle and is the first
      thing to be scheduled when that cycle ended, after the gate it opens. */
  predicate Allowed(f: Flow, e: Event) {
    && (f.waiting.Some? && !f.cycle ==> e == GateOpened(CycleEnd) || e.StartupScheduled? || e == QuitScheduled(f.waiting.value))
    && (match e
        case CycleBegan => !f.cycle
        case CycleEnded => f.cycle
        case Authorized(_, how) => how.ByLaunch? ==> !f.gate.Passed?
        case LaunchBegan => !f.began
        case TimerSet(progress) => f.gate.Bound? ==> progress
        case GateOpened(cause) => f.gate.Bound? ==> cause.Failure? || cause.NoUpdate? || (cause.Timeout? && f.timer)
        case StartupScheduled => f.owed
        case QuitStored(_) => f.cycle && f.waiting.None?
        case QuitScheduled(q) => !f.cycle && f.waiting == Some(q)
        case _ => true)
  }

  predicate Lawful(d: Digest, e: Event) {
    Allowed(d.flow, e)
  }

  const Laws: Rules<Digest, Event> := Rules(Blank, Absorb, Lawful)

  type Journal = n: Notes<Digest, Event> | Genuine(Laws, n) ghost witness Notes([], Blank, true)

  function Noted(j: Journal, e: Event): (n: Journal)
    ensures n == Notes(j.log + [e], Absorb(j.now, e), j.lawful && Lawful(j.now, e))
  {
    GenuineGrows(Laws, j, e);
    Notes(j.log + [e], Absorb(j.now, e), j.lawful && Lawful(j.now, e))
  }

  /** What a log says. */
  function Said(log: seq<Event>): Digest {
    Digested(Laws, log)
  }
}
