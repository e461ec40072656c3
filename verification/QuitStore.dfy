/** The quit coordinator as the program keeps it: a state cell that its methods overwrite, leaving
    continuations behind. Each method is proved to compute the function of the same name. */
module QuitStore {
  import opened Common
  import opened Journals
  import opened Spec = Quit

  class QuitCoordinator {
    const observes: bool
    var state: State
    var pending: seq<Pending>
    var journal: Journal

    function View(): Coordinator
      reads this
    {
      Coordinator(observes, state, pending, journal)
    }

    constructor (observes: bool)
      ensures View() == Start(observes)
    {
      this.observes := observes;
      state, pending, journal := Idle, [], Notes([], Blank, true);
    }

    method Note(e: Event)
      modifies this`journal
      ensures View() == old(View()).Note(e)
    {
      journal := Noted(journal, e);
    }

    method Leave(p: Pending)
      modifies this`pending
      ensures View() == old(View()).Leave(p)
    {
      pending := pending + [p];
    }

    /** Returns whether the host may go on quitting at once. */
    method Request(a: Action) returns (proceed: bool)
      requires !a.Deliver?
      modifies this
      ensures View() == Step(old(View()), a)
      ensures proceed <==> a.RequestSessionEnd?
    {
      proceed := a.RequestSessionEnd?;
      match a
      case RequestExit(s) => Exit(s);
      case RequestDismissal(s) => Dismiss(s);
      case RequestSessionEnd =>
        state := SessionEnding;
        Note(SessionEnded);
    }

    method Exit(s: Surroundings)
      modifies this
      ensures View() == Spec.Exit(old(View()), s)
    {
      if state == Idle && !s.closing {
        Note(Requested);
        Observe(None, s);
      }
    }

    method Dismiss(s: Surroundings)
      modifies this
      ensures View() == Spec.Dismiss(old(View()), s)
    {
      if state != Idle || s.closing { return; }
      if !s.menu { Exit(s); }
    }

    method Observe(authorization: Option<Snapshot>, s: Surroundings)
      modifies this
      ensures View() == Spec.Observe(old(View()), authorization, s)
    {
      if !observes {
        Note(Looked(None));
        Review(authorization, None, s);
        return;
      }
      state := Observing;
      Leave(Observed(authorization));
    }

    method Review(authorization: Option<Snapshot>, current: Snapshot, s: Surroundings)
      modifies this
      ensures View() == Spec.Review(old(View()), authorization, current, s)
    {
      if s.closing { return; }
      if authorization.Some? && Authorizes(authorization.value, current) {
        Finish(current, s);
      } else {
        PresentConfirmation(current, s);
      }
    }

    method Finish(current: Snapshot, s: Surroundings)
      modifies this
      ensures View() == Spec.Finish(old(View()), current, s)
    {
      Note(AskedUpdater(current));
      if s.updater {
        Leave(Resumed(current));
        state := WaitingForUpdater;
        return;
      }
      if s.adapter { Note(Confirmed(current)); }
    }

    method PresentConfirmation(shown: Snapshot, s: Surroundings)
      modifies this
      ensures View() == Spec.Present(old(View()), shown, s)
    {
      if state != Idle { return; }
      state := Prompting;
      if !s.adapter {
        state := Idle;
        return;
      }
      if !s.prompt {
        state := Idle;
        return;
      }
      Note(Opened(shown));
      Leave(Answer(shown));
    }

    method ObservationFailed(s: Surroundings)
      modifies this
      ensures View() == Spec.ObservationFailed(old(View()), s)
    {
      if !s.adapter { return; }
      if !s.prompt { return; }
      state := Prompting;
      Leave(Notice);
      Note(Noticed);
    }

    method WaitForSettings(authorization: Option<Snapshot>, s: Surroundings)
      modifies this
      ensures View() == Spec.WaitForSettings(old(View()), authorization, s)
    {
      state := WaitingForSettings;
      match s.saving
      case Later => Leave(Saved(authorization));
      case Now(outcome) => CompleteAfterSave(authorization, outcome);
    }

    method CompleteAfterSave(authorization: Option<Snapshot>, outcome: SaveOutcome)
      modifies this
      ensures View() == Spec.CompleteAfterSave(old(View()), authorization, outcome)
    {
      if state != WaitingForSettings { return; }
      if outcome == SaveFailed {
        state := Idle;
        return;
      }
      Leave(Deferred(authorization));
    }

    /** Delivers the continuation at `k`. */
    method Deliver(k: nat, r: Reply, s: Surroundings)
      requires k < |pending| && Fits(pending[k], r)
      modifies this
      ensures View() == Step(old(View()), Action.Deliver(k, r, s))
    {
      var p := pending[k];
      pending := pending[..k] + pending[k + 1..];
      match p
      case Observed(authorization) =>
        if state != Observing { return; }
        state := Idle;
        if r.seen.Some? {
          Note(Looked(r.seen));
          Review(authorization, r.seen, s);
        } else {
          ObservationFailed(s);
        }
      case Answer(shown) =>
        if r.quit { Note(Answered(shown)); }
        if state != Prompting { return; }
        if r.quit { WaitForSettings(Some(shown), s); } else { state := Idle; }
      case Notice =>
        if state == Prompting { state := Idle; }
      case Saved(authorization) => CompleteAfterSave(authorization, r.outcome);
      case Deferred(authorization) =>
        if state != WaitingForSettings { return; }
        state := Idle;
        if !s.closing { Observe(authorization, s); }
      case Resumed(approved) =>
        if state != WaitingForUpdater { return; }
        state := Idle;
        WaitForSettings(Some(approved), s);
    }

    /** Calls the coordinator as `actions` say; what is not outstanding is not delivered. From a new
        coordinator the calls are a run, so whatever holds of every run holds of what they left. */
    method Drive(actions: seq<Action>)
      modifies this
      ensures View() == Run(old(View()), actions)
    {
      assert actions[..0] == [];
      for i := 0 to |actions|
        invariant View() == Run(old(View()), actions[..i])
      {
        assert actions[..i + 1][..i] == actions[..i];
        match actions[i]
        case Deliver(k, r, s) =>
          if k < |pending| && Fits(pending[k], r) { Deliver(k, r, s); }
        case _ =>
          var proceed := Request(actions[i]);
      }
      assert actions[..|actions|] == actions;
    }
  }
}
