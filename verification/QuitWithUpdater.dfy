/** The quit coordinator and the update service together. Asking the updater hands it the quit's
    continuation; the end of the update cycle schedules that continuation, which then runs once. */
module QuitWithUpdater {
  import opened Common
  import Q = Quit
  import U = Updates

  /** `scheduled` are the quits the updater has scheduled and not yet resumed. */
  datatype World = World(quit: Q.Coordinator, updates: U.Updates, scheduled: seq<U.Ticket>)

  datatype Action =
    | OfQuit(q: Q.Action)
    | OfUpdates(u: U.Action)

  function Start(observes: bool, available: bool, retained: Option<string>): World {
    World(Q.Start(observes), U.Start(available, retained), [])
  }

  /** The updater answers a quit as its own state says. */
  function Answering(a: Q.Action, waits: bool): Q.Action {
    match a
    case RequestExit(s) => Q.RequestExit(s.(updater := waits))
    case RequestDismissal(s) => Q.RequestDismissal(s.(updater := waits))
    case RequestSessionEnd => a
    case Deliver(k, reply, s) => Q.Deliver(k, reply, s.(updater := waits))
  }

  /** Whether `a` resumes a quit from the updater. */
  predicate Resumes(w: World, a: Q.Action) {
    a.Deliver? && a.k < |w.quit.pending| && w.quit.pending[a.k].Resumed? && a.reply.Plain?
  }

  function QuitStep(w: World, a: Q.Action, s: U.Surroundings): World {
    if Resumes(w, a) && w.scheduled == [] then w
    else
      var quit := Q.Step(w.quit, Answering(a, U.MustWait(w.updates, s)));
      var asks := quit.journal.now.asks;
      World(quit,
            if asks > w.quit.journal.now.asks then U.PrepareBeforeQuit(w.updates, asks, s) else w.updates,
            if Resumes(w, a) then w.scheduled[1..] else w.scheduled)
  }

  /** Only the coordinator prepares a quit. */
  function UpdatesStep(w: World, a: U.Action, s: U.Surroundings): World {
    if a.PrepareQuit? then w
    else
      var updates := U.Step(w.updates, a, s);
      var taken := w.updates.pendingQuit;
      World(w.quit, updates, if taken.Some? && updates.pendingQuit.None? then w.scheduled + [taken.value] else w.scheduled)
  }

  function Step(w: World, a: Action, s: U.Surroundings): World {
    match a case OfQuit(q) => QuitStep(w, q, s) case OfUpdates(u) => UpdatesStep(w, u, s)
  }

  function Run(w: World, steps: seq<(Action, U.Surroundings)>): World
    decreases |steps|
  {
    if steps == [] then w
    else Step(Run(w, steps[..|steps| - 1]), steps[|steps| - 1].0, steps[|steps| - 1].1)
  }

  /** A stored quit waits for a running, cancelled cycle. */
  predicate Waits(u: U.Updates) {
    u.pendingQuit.Some? ==> u.model.active && u.model.cancelling
  }

  /** A quit leaves the updater only with the cycle's end. */
  predicate Holds(u: U.Updates, next: U.Updates, a: U.Action) {
    Waits(next) && (next.pendingQuit == u.pendingQuit || (a == U.Reported(U.Finished) && next.pendingQuit.None?))
  }

  lemma CheckHolds(u: U.Updates, manual: bool, s: U.Surroundings)
    requires u.pendingQuit.None?
    ensures U.Check(u, manual, s).pendingQuit.None?
  {
  }

  lemma ReceiveHolds(u: U.Updates, r: U.Report, s: U.Surroundings)
    requires Waits(u)
    ensures Holds(u, U.Receive(u, r, s), U.Reported(r))
  {
  }

  lemma LaunchHolds(u: U.Updates, s: U.Surroundings)
    requires Waits(u)
    ensures Holds(u, U.BeginLaunch(u, s), U.LaunchNow)
  {
    var begun := u.(resume := true).Note(U.LaunchBegan);
    if u.pendingQuit.None? {
      CheckHolds(U.OpenLaunch(begun, U.NotGated), false, s);
      CheckHolds(U.SetTimer(begun.(launch := U.LaunchChecking), false), false, s);
    }
  }

  lemma TickHolds(u: U.Updates, s: U.Surroundings)
    requires Waits(u)
    ensures Holds(u, U.Tick(u, s), U.TickNow)
  {
    if u.pendingQuit.None? {
      CheckHolds(u, false, s);
      CheckHolds(U.Download(u.(automatic := true), s), false, s);
    }
  }

  lemma UpdatesHolds(u: U.Updates, a: U.Action, s: U.Surroundings)
    requires Waits(u) && !a.PrepareQuit?
    ensures Holds(u, U.Step(u, a, s), a)
  {
    match a
    case Reported(r) => ReceiveHolds(u, r, s);
    case CheckNow(manual) => if u.pendingQuit.None? { CheckHolds(u, manual, s); }
    case TickNow => TickHolds(u, s);
    case RetryDownloadNow => if u.pendingQuit.None? { CheckHolds(u, true, s); }
    case LaunchNow => LaunchHolds(u, s);
    case _ =>
  }

  // The coordinator's side.

  /** The coordinator waits for the updater's continuation, or for nothing of the updater's. */
  predicate Outstanding(c: Q.Coordinator) {
    |c.pending| == 1 && c.pending[0].Resumed?
  }

  lemma DeliverAsks(c: Q.Coordinator, a: Q.Action)
    requires Q.Inv(c) && a.Deliver?
    ensures
      var next := Q.Step(c, a);
      if next.journal.now.asks == c.journal.now.asks then Outstanding(next) ==> Outstanding(c) && next.pending == c.pending
      else next.journal.now.asks == c.journal.now.asks + 1 && !Outstanding(c) && (Outstanding(next) <==> a.s.updater)
    ensures a.k < |c.pending| && Q.Fits(c.pending[a.k], a.reply) && Outstanding(c) ==> !Outstanding(Q.Step(c, a))
  {
    if a.k < |c.pending| && Q.Fits(c.pending[a.k], a.reply) {
      assert c.pending[..a.k] + c.pending[a.k + 1..] == [];
    }
  }

  lemma StepAsks(c: Q.Coordinator, a: Q.Action)
    requires Q.Inv(c)
    ensures
      var next := Q.Step(c, a);
      if next.journal.now.asks == c.journal.now.asks then Outstanding(next) ==> Outstanding(c) && next.pending == c.pending
      else next.journal.now.asks == c.journal.now.asks + 1 && !Outstanding(c) && a.Deliver? && (Outstanding(next) <==> a.s.updater)
    ensures Outstanding(c) && !(a.Deliver? && a.k < |c.pending| && Q.Fits(c.pending[a.k], a.reply)) ==> Q.Step(c, a).pending == c.pending
  {
    if a.Deliver? { DeliverAsks(c, a); }
  }

  /** The updater holds or has scheduled exactly the quit the coordinator waits for it with. */
  predicate Linked(w: World) {
    var asks := w.quit.journal.now.asks;
    && Q.Inv(w.quit) && Waits(w.updates)
    && (if Outstanding(w.quit) then
          || (w.updates.pendingQuit == Some(asks) && w.scheduled == [])
          || (w.updates.pendingQuit.None? && w.scheduled == [asks])
        else w.updates.pendingQuit.None? && w.scheduled == [])
  }

  /** A step that delivers the updater's continuation, or any other step that asks nothing. */
  lemma QuietStepLinked(w: World, a: Q.Action, s: U.Surroundings)
    requires Linked(w) && !(Resumes(w, a) && w.scheduled == [])
    requires Q.Step(w.quit, Answering(a, U.MustWait(w.updates, s))).journal.now.asks == w.quit.journal.now.asks
    ensures Linked(QuitStep(w, a, s))
  {
    var answering := Answering(a, U.MustWait(w.updates, s));
    Q.StepInv(w.quit, answering);
    StepAsks(w.quit, answering);
    if a.Deliver? { DeliverAsks(w.quit, answering); }
  }

  lemma AskingStepLinked(w: World, a: Q.Action, s: U.Surroundings)
    requires Linked(w)
    requires Q.Step(w.quit, Answering(a, U.MustWait(w.updates, s))).journal.now.asks > w.quit.journal.now.asks
    ensures Linked(QuitStep(w, a, s))
  {
    var answering := Answering(a, U.MustWait(w.updates, s));
    Q.StepInv(w.quit, answering);
    StepAsks(w.quit, answering);
    assert !Outstanding(w.quit) && !Resumes(w, a);
  }

  lemma QuitStepLinked(w: World, a: Q.Action, s: U.Surroundings)
    requires Linked(w)
    ensures Linked(QuitStep(w, a, s))
  {
    if !(Resumes(w, a) && w.scheduled == []) {
      StepAsks(w.quit, Answering(a, U.MustWait(w.updates, s)));
      if Q.Step(w.quit, Answering(a, U.MustWait(w.updates, s))).journal.now.asks == w.quit.journal.now.asks {
        QuietStepLinked(w, a, s);
      } else {
        AskingStepLinked(w, a, s);
      }
    }
  }

  lemma UpdatesStepLinked(w: World, a: U.Action, s: U.Surroundings)
    requires Linked(w)
    ensures Linked(UpdatesStep(w, a, s))
  {
    if !a.PrepareQuit? { UpdatesHolds(w.updates, a, s); }
  }

  lemma {:induction false} RunLinked(observes: bool, available: bool, retained: Option<string>, steps: seq<(Action, U.Surroundings)>)
    ensures Linked(Run(Start(observes, available, retained), steps))
    decreases |steps|
  {
    if steps != [] {
      var shorter := steps[..|steps| - 1];
      RunLinked(observes, available, retained, shorter);
      var w := Run(Start(observes, available, retained), shorter);
      match steps[|steps| - 1].0
      case OfQuit(q) => QuitStepLinked(w, q, steps[|steps| - 1].1);
      case OfUpdates(u) => UpdatesStepLinked(w, u, steps[|steps| - 1].1);
    }
  }

  lemma FinishSchedules(w: World, s: U.Surroundings)
    requires w.updates.model.active
    ensures
      var next := Step(w, OfUpdates(U.Reported(U.Finished)), s);
      next.scheduled == if w.updates.pendingQuit.Some? then w.scheduled + [w.updates.pendingQuit.value] else w.scheduled
  {
    assert U.Step(w.updates, U.Reported(U.Finished), s) == U.FinishCycle(w.updates);
  }

  /** In every reachable world in which the coordinator waits for the updater, the updater holds
      exactly that quit in a running, cancelled cycle whose end schedules it, or has scheduled it; no
      quit's continuation is dropped for one stored before. */
  lemma WaitingQuitIsNeverLost(observes: bool, available: bool, retained: Option<string>, steps: seq<(Action, U.Surroundings)>, s: U.Surroundings)
    requires Run(Start(observes, available, retained), steps).quit.state.WaitingForUpdater?
    ensures
      var w := Run(Start(observes, available, retained), steps);
      var asks := w.quit.journal.now.asks;
      if w.scheduled == [] then
        && w.updates.pendingQuit == Some(asks) && w.updates.model.active && w.updates.model.cancelling
        && Step(w, OfUpdates(U.Reported(U.Finished)), s).scheduled == [asks]
      else w.scheduled == [asks] && w.updates.pendingQuit.None?
  {
    RunLinked(observes, available, retained, steps);
    var w := Run(Start(observes, available, retained), steps);
    assert Outstanding(w.quit);
    if w.scheduled == [] { FinishSchedules(w, s); }
  }

  lemma ResumeMovesOn(w: World, r: Q.Surroundings, s: U.Surroundings)
    requires Linked(w) && w.quit.state.WaitingForUpdater? && w.scheduled != []
    ensures
      var next := Step(w, OfQuit(Q.Deliver(0, Q.Plain, r)), s);
      !next.quit.state.WaitingForUpdater? && next.scheduled == [] && next.updates.pendingQuit.None?
  {
    var answering := Answering(Q.Deliver(0, Q.Plain, r), U.MustWait(w.updates, s));
    assert w.quit.pending[..0] + w.quit.pending[1..] == [];
    DeliverAsks(w.quit, answering);
  }

  /** A scheduled quit, once it runs, moves the coordinator on and nothing is left to schedule again. */
  lemma ScheduledQuitResumesOnce(observes: bool, available: bool, retained: Option<string>, steps: seq<(Action, U.Surroundings)>,
                                 r: Q.Surroundings, s: U.Surroundings)
    requires
      var w := Run(Start(observes, available, retained), steps);
      w.quit.state.WaitingForUpdater? && w.scheduled != []
    ensures
      var next := Step(Run(Start(observes, available, retained), steps), OfQuit(Q.Deliver(0, Q.Plain, r)), s);
      !next.quit.state.WaitingForUpdater? && next.scheduled == [] && next.updates.pendingQuit.None?
  {
    RunLinked(observes, available, retained, steps);
    ResumeMovesOn(Run(Start(observes, available, retained), steps), r, s);
  }
}
