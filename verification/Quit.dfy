/** The application quit coordinator: it observes the live Terminal Sessions, asks the person, waits
    for Settings and the updater, observes again, and quits only what the person approved. */
module Quit {
  import opened Common
  import opened Journals

  datatype Pane = Pane(id: nat, session: Option<nat>)

  datatype Inventory = Inventory(boot: nat, panes: seq<Pane>)

  /** The Sessions a quit would end; `None` for a client whose Server outlives it. */
  type Snapshot = Option<Inventory>

  /** Every live Session of `current` is among those of `approved`, under the same boot. */
  predicate Authorizes(approved: Snapshot, current: Snapshot) {
    match (approved, current)
    case (None, None) => true
    case (Some(a), Some(c)) =>
      a.boot == c.boot && forall p <- c.panes :: p.session.Some? ==> p in a.panes
    case _ => false
  }

  lemma AuthorizesTransitive(a: Snapshot, b: Snapshot, c: Snapshot)
    requires Authorizes(a, b) && Authorizes(b, c)
    ensures Authorizes(a, c)
  {
  }

  datatype State = Idle | Observing | Prompting | SessionEnding | WaitingForSettings | WaitingForUpdater

  /** A continuation the coordinator left with the executor, a prompt, Settings or the updater. */
  datatype Pending =
    | Observed(authorization: Option<Snapshot>)
    | Answer(shown: Snapshot)
    | Notice
    | Saved(authorization: Option<Snapshot>)
    | Deferred(authorization: Option<Snapshot>)
    | Resumed(approved: Snapshot)

  datatype SaveOutcome = SaveDone | SaveFailed

  /** Settings settles a save while it is being asked, or later. */
  datatype Saving = Later | Now(outcome: SaveOutcome)

  /** What the application answers while the coordinator runs: whether a close confirmation is
      pending, the adapter lives, a prompt could be shown, the updater must finish first, the
      status menu keeps the client reachable, and how Settings saves. */
  datatype Surroundings = Surroundings(
    closing: bool, adapter: bool, prompt: bool, updater: bool, menu: bool, saving: Saving)

  /** What can be seen of the coordinator. */
  datatype Event =
    | Requested                       // an exit began
    | Looked(current: Snapshot)       // an observation arrived
    | Opened(shown: Snapshot)         // the quit prompt showed this
    | Answered(shown: Snapshot)       // and was answered Quit
    | Noticed                         // the prompt that no observation was possible
    | AskedUpdater(current: Snapshot)
    | Confirmed(current: Snapshot)    // the application quits
    | SessionEnded

  /** `observes` is whether Sessions end with this client. */
  datatype Coordinator = Coordinator(observes: bool, state: State, pending: seq<Pending>, journal: Journal) {
    function To(next: State): Coordinator { this.(state := next) }
    function Leave(p: Pending): Coordinator { this.(pending := pending + [p]) }
    function Note(e: Event): Coordinator { this.(journal := Noted(journal, e)) }
  }

  function Start(observes: bool): Coordinator {
    Coordinator(observes, Idle, [], Notes([], Blank, true))
  }

  predicate Ready(c: Coordinator, s: Surroundings) {
    c.state.Idle? && !s.closing
  }

  /** Nothing was asked of the updater, and at most one continuation left that is not the updater's. */
  predicate Quiet(c: Coordinator, next: Coordinator) {
    && next.journal.now.asks == c.journal.now.asks
    && (next.pending == c.pending ||
        (next.pending != [] && next.pending == c.pending + [next.pending[|next.pending| - 1]] && !next.pending[|next.pending| - 1].Resumed?))
  }

  /** The updater was asked once, and its continuation left exactly when it makes the quit wait. */
  predicate Asked(c: Coordinator, next: Coordinator, waits: bool) {
    && next.journal.now.asks == c.journal.now.asks + 1
    && (if waits then next.pending != [] && next.pending == c.pending + [next.pending[|next.pending| - 1]] && next.pending[|next.pending| - 1].Resumed?
        else next.pending == c.pending)
  }

  function Exit(c: Coordinator, s: Surroundings): (next: Coordinator)
    ensures Quiet(c, next)
  {
    if Ready(c, s) then Observe(c.Note(Requested), None, s) else c
  }

  function Dismiss(c: Coordinator, s: Surroundings): (next: Coordinator)
    ensures Quiet(c, next)
  {
    if Ready(c, s) && !s.menu then Exit(c, s) else c
  }

  function SessionEnd(c: Coordinator): Coordinator {
    c.To(SessionEnding).Note(SessionEnded)
  }

  function Observe(c: Coordinator, authorization: Option<Snapshot>, s: Surroundings): (next: Coordinator)
    ensures Quiet(c, next) || (authorization.Some? && Asked(c, next, s.updater))
  {
    if !c.observes then Review(c.Note(Looked(None)), authorization, None, s)
    else c.To(Observing).Leave(Observed(authorization))
  }

  function Review(c: Coordinator, authorization: Option<Snapshot>, current: Snapshot, s: Surroundings): (next: Coordinator)
    ensures Quiet(c, next) || (authorization.Some? && Asked(c, next, s.updater))
  {
    if s.closing then c
    else if authorization.Some? && Authorizes(authorization.value, current) then Finish(c, current, s)
    else Present(c, current, s)
  }

  function Finish(c: Coordinator, current: Snapshot, s: Surroundings): (next: Coordinator)
    ensures Asked(c, next, s.updater)
  {
    var asked := c.Note(AskedUpdater(current));
    if s.updater then asked.To(WaitingForUpdater).Leave(Resumed(current))
    else if s.adapter then asked.Note(Confirmed(current))
    else asked
  }

  function Present(c: Coordinator, shown: Snapshot, s: Surroundings): (next: Coordinator)
    ensures Quiet(c, next)
  {
    if !c.state.Idle? || !s.adapter || !s.prompt then c
    else c.To(Prompting).Leave(Answer(shown)).Note(Opened(shown))
  }

  function ObservationFailed(c: Coordinator, s: Surroundings): (next: Coordinator)
    ensures Quiet(c, next)
  {
    if !s.adapter || !s.prompt then c
    else c.To(Prompting).Leave(Notice).Note(Noticed)
  }

  function WaitForSettings(c: Coordinator, authorization: Option<Snapshot>, s: Surroundings): (next: Coordinator)
    ensures Quiet(c, next)
  {
    var waiting := c.To(WaitingForSettings);
    match s.saving
    case Later => waiting.Leave(Saved(authorization))
    case Now(outcome) => CompleteAfterSave(waiting, authorization, outcome)
  }

  function CompleteAfterSave(c: Coordinator, authorization: Option<Snapshot>, outcome: SaveOutcome): (next: Coordinator)
    ensures Quiet(c, next)
  {
    if !c.state.WaitingForSettings? then c
    else if outcome.SaveFailed? then c.To(Idle)
    else c.Leave(Deferred(authorization))
  }

  /** What a continuation is delivered with. */
  datatype Reply =
    | Observation(seen: Option<Inventory>)   // `None`: the Server could not be read
    | Choice(quit: bool)
    | Settled(outcome: SaveOutcome)
    | Plain

  predicate Fits(p: Pending, r: Reply) {
    match p
    case Observed(_) => r.Observation?
    case Answer(_) => r.Choice?
    case Saved(_) => r.Settled?
    case _ => r.Plain?
  }

  /** Runs the continuation `p` after it was taken off `c.pending`. */
  function Continue(c: Coordinator, p: Pending, r: Reply, s: Surroundings): (next: Coordinator)
    requires Fits(p, r)
    ensures Quiet(c, next) || (!p.Resumed? && Asked(c, next, s.updater))
  {
    match p
    case Observed(authorization) =>
      if !c.state.Observing? then c
      else if r.seen.None? then ObservationFailed(c.To(Idle), s)
      else Review(c.To(Idle).Note(Looked(r.seen)), authorization, r.seen, s)
    case Answer(shown) =>
      var heard := if r.quit then c.Note(Answered(shown)) else c;
      if !c.state.Prompting? then heard
      else if r.quit then WaitForSettings(heard, Some(shown), s)
      else c.To(Idle)
    case Notice => if c.state.Prompting? then c.To(Idle) else c
    case Saved(authorization) => CompleteAfterSave(c, authorization, r.outcome)
    case Deferred(authorization) =>
      if !c.state.WaitingForSettings? then c
      else if s.closing then c.To(Idle)
      else Observe(c.To(Idle), authorization, s)
    case Resumed(approved) =>
      if !c.state.WaitingForUpdater? then c
      else WaitForSettings(c.To(Idle), Some(approved), s)
  }

  // Runs.

  datatype Action =
    | RequestExit(s: Surroundings)
    | RequestDismissal(s: Surroundings)
    | RequestSessionEnd
    | Deliver(k: nat, reply: Reply, s: Surroundings)

  /** Each continuation is delivered at most once: delivering takes it away. */
  function Step(c: Coordinator, a: Action): Coordinator {
    match a
    case RequestExit(s) => Exit(c, s)
    case RequestDismissal(s) => Dismiss(c, s)
    case RequestSessionEnd => SessionEnd(c)
    case Deliver(k, reply, s) =>
      if k < |c.pending| && Fits(c.pending[k], reply) then
        Continue(c.(pending := c.pending[..k] + c.pending[k + 1..]), c.pending[k], reply, s)
      else c
  }

  function Run(c: Coordinator, actions: seq<Action>): Coordinator
    decreases |actions|
  {
    if actions == [] then c else Step(Run(c, actions[..|actions| - 1]), actions[|actions| - 1])
  }

  // What a log says.

  /** `approval` is the snapshot of the last Quit answer, if no exit or prompt came after it; `sight`
      the last observation; `prompt` what the last prompt showed; `asks` how often the updater was
      asked. */
  datatype Digest = Digest(approval: Option<Snapshot>, sight: Option<Snapshot>, prompt: Option<Snapshot>, ended: bool, asks: nat)

  const Blank: Digest := Digest(None, None, None, false, 0)

  function Absorb(d: Digest, e: Event): Digest {
    match e
    case Requested => d.(approval := None)
    case Looked(current) => d.(sight := Some(current))
    case Opened(shown) => d.(approval := None, prompt := Some(shown))
    case Answered(shown) => d.(approval := Some(shown))
    case Noticed => d.(approval := None)
    case AskedUpdater(_) => d.(asks := d.asks + 1)
    case Confirmed(_) => d
    case SessionEnded => d.(ended := true)
  }

  predicate Covers(approved: Option<Snapshot>, current: Snapshot) {
    approved.Some? && Authorizes(approved.value, current)
  }

  /** A prompt shows the last observation; an answer is to the last prompt; the updater is asked and
      the quit confirmed only for the last observation, which the approval covers; and none of this
      after the session ended, when only a late answer is heard. */
  predicate Lawful(d: Digest, e: Event) {
    && (d.ended ==> e.Answered? || e.SessionEnded?)
    && (match e
        case Opened(shown) => d.sight == Some(shown)
        case Answered(shown) => d.prompt == Some(shown)
        case AskedUpdater(current) => d.sight == Some(current) && Covers(d.approval, current)
        case Confirmed(current) => d.sight == Some(current) && Covers(d.approval, current)
        case _ => true)
  }

  const Laws: Rules<Digest, Event> := Rules(Blank, Absorb, Lawful)

  type Journal = n: Notes<Digest, Event> | Genuine(Laws, n) ghost witness Notes([], Blank, true)

  function Noted(j: Journal, e: Event): (n: Journal)
    ensures n == Notes(j.log + [e], Absorb(j.now, e), j.lawful && Lawful(j.now, e))
  {
    GenuineGrows(Laws, j, e);
    Notes(j.log + [e], Absorb(j.now, e), j.lawful && Lawful(j.now, e))
  }

  /** What a log says. */
  function Said(log: seq<Event>): Digest {
    Digested(Laws, log)
  }

  // What every reachable coordinator keeps.

  /** An authorization a continuation carries is one the person's approval covers. */
  predicate Carries(d: Digest, authorization: Option<Snapshot>) {
    authorization.Some? ==> Covers(d.approval, authorization.value)
  }

  /** `p` is what `state` waits for. */
  predicate Expects(state: State, p: Pending) {
    match p
    case Observed(_) => state.Observing?
    case Answer(_) => state.Prompting?
    case Notice => state.Prompting?
    case Saved(_) => state.WaitingForSettings?
    case Deferred(_) => state.WaitingForSettings?
    case Resumed(_) => state.WaitingForUpdater?
  }

  predicate Backed(d: Digest, p: Pending) {
    match p
    case Observed(authorization) => Carries(d, authorization)
    case Answer(shown) => d.prompt == Some(shown)
    case Notice => true
    case Saved(authorization) => Carries(d, authorization)
    case Deferred(authorization) => Carries(d, authorization)
    case Resumed(approved) => Covers(d.approval, approved)
  }

  predicate Inv(c: Coordinator) {
    var d := c.journal.now;
    && c.journal.lawful
    && (d.ended <==> c.state.SessionEnding?)
    && (match c.state
        case Idle => c.pending == []
        case SessionEnding => |c.pending| <= 1 && (c.pending != [] && c.pending[0].Answer? ==> d.prompt == Some(c.pending[0].shown))
        case _ => |c.pending| == 1 && Expects(c.state, c.pending[0]) && Backed(d, c.pending[0]))
  }

  /** Between a continuation and what it does next: Idle, nothing outstanding. */
  predicate Free(c: Coordinator) {
    Inv(c) && c.state.Idle?
  }

  lemma ReviewInv(c: Coordinator, authorization: Option<Snapshot>, current: Snapshot, s: Surroundings)
    requires Free(c) && c.journal.now.sight == Some(current) && Carries(c.journal.now, authorization)
    ensures Inv(Review(c, authorization, current, s))
  {
    if authorization.Some? && Authorizes(authorization.value, current) {
      AuthorizesTransitive(c.journal.now.approval.value, authorization.value, current);
    }
  }

  lemma ObserveInv(c: Coordinator, authorization: Option<Snapshot>, s: Surroundings)
    requires Free(c) && Carries(c.journal.now, authorization)
    ensures Inv(Observe(c, authorization, s))
  {
    if !c.observes { ReviewInv(c.Note(Looked(None)), authorization, None, s); }
  }

  lemma WaitInv(c: Coordinator, authorization: Option<Snapshot>, s: Surroundings)
    requires c.journal.lawful && !c.journal.now.ended && c.pending == [] && Carries(c.journal.now, authorization)
    ensures Inv(WaitForSettings(c, authorization, s))
  {
  }

  /** `c` has just taken the continuation `p`, which it waited for, off its hands. */
  predicate Took(c: Coordinator, p: Pending) {
    && c.pending == [] && c.journal.lawful && !c.journal.now.ended
    && Expects(c.state, p) && Backed(c.journal.now, p)
  }

  lemma ObservedInv(c: Coordinator, p: Pending, r: Reply, s: Surroundings)
    requires Took(c, p) && p.Observed? && r.Observation?
    ensures Inv(Continue(c, p, r, s))
  {
    if r.seen.Some? { ReviewInv(c.To(Idle).Note(Looked(r.seen)), p.authorization, r.seen, s); }
  }

  lemma AnsweredInv(c: Coordinator, p: Pending, r: Reply, s: Surroundings)
    requires Took(c, p) && p.Answer? && r.Choice?
    ensures Inv(Continue(c, p, r, s))
  {
    if r.quit { WaitInv(c.Note(Answered(p.shown)), Some(p.shown), s); }
  }

  lemma ContinueInv(c: Coordinator, p: Pending, r: Reply, s: Surroundings)
    requires Fits(p, r) && Took(c, p)
    ensures Inv(Continue(c, p, r, s))
  {
    match p
    case Observed(_) => ObservedInv(c, p, r, s);
    case Answer(_) => AnsweredInv(c, p, r, s);
    case Deferred(authorization) => ObserveInv(c.To(Idle), authorization, s);
    case Resumed(approved) => WaitInv(c.To(Idle), Some(approved), s);
    case _ =>
  }

  lemma DeliverInv(c: Coordinator, a: Action)
    requires Inv(c) && a.Deliver?
    ensures Inv(Step(c, a))
  {
    if a.k < |c.pending| && Fits(c.pending[a.k], a.reply) {
      assert c.pending[..a.k] + c.pending[a.k + 1..] == [];
      if !c.state.SessionEnding? { ContinueInv(c.(pending := []), c.pending[0], a.reply, a.s); }
    }
  }

  lemma StepInv(c: Coordinator, a: Action)
    requires Inv(c)
    ensures Inv(Step(c, a))
  {
    match a
    case RequestSessionEnd =>
    case Deliver(_, _, _) => DeliverInv(c, a);
    case _ => if Ready(c, a.s) { ObserveInv(c.Note(Requested), None, a.s); }
  }

  lemma {:induction false} RunInv(observes: bool, actions: seq<Action>)
    ensures Inv(Run(Start(observes), actions))
    decreases |actions|
  {
    if actions != [] {
      RunInv(observes, actions[..|actions| - 1]);
      StepInv(Run(Start(observes), actions[..|actions| - 1]), actions[|actions| - 1]);
    }
  }

  lemma RunLawful(observes: bool, actions: seq<Action>)
    ensures AllLawful(Laws, Run(Start(observes), actions).journal.log)
  {
    RunInv(observes, actions);
    GenuineSays(Laws, Run(Start(observes), actions).journal);
  }

  lemma {:induction false} ApprovalOrigin(log: seq<Event>) returns (i: nat)
    requires Said(log).approval.Some?
    ensures i < |log| && log[i] == Answered(Said(log).approval.value)
    ensures forall j | i < j < |log| :: !log[j].Requested? && !log[j].Opened? && !log[j].Noticed? && !log[j].Answered?
    decreases |log|
  {
    var n := |log| - 1;
    if log[n].Answered? { i := n; } else { i := ApprovalOrigin(log[..n]); }
  }

  lemma {:induction false} SightOrigin(log: seq<Event>) returns (i: nat)
    requires Said(log).sight.Some?
    ensures i < |log| && log[i] == Looked(Said(log).sight.value) && forall j | i < j < |log| :: !log[j].Looked?
    decreases |log|
  {
    var n := |log| - 1;
    if log[n].Looked? { i := n; } else { i := SightOrigin(log[..n]); }
  }

  lemma {:induction false} PromptOrigin(log: seq<Event>) returns (i: nat)
    requires Said(log).prompt.Some?
    ensures i < |log| && log[i] == Opened(Said(log).prompt.value) && forall j | i < j < |log| :: !log[j].Opened?
    decreases |log|
  {
    var n := |log| - 1;
    if log[n].Opened? { i := n; } else { i := PromptOrigin(log[..n]); }
  }

  lemma {:induction false} EndedStays(log: seq<Event>, i: nat)
    requires i < |log| && log[i].SessionEnded?
    ensures Said(log).ended
    decreases |log|
  {
    if i < |log| - 1 { EndedStays(log[..|log| - 1], i); }
  }

  /** The quit confirmed at `k` was approved: the prompt opened at `o` was answered Quit at `a`, no
      exit or prompt came after, and the observation at `l`, the last one and the one confirmed, has the
      shown boot and no live Session that was not shown. */
  ghost predicate Approved(log: seq<Event>, k: nat, o: nat, a: nat, l: nat)
    requires k < |log| && log[k].Confirmed?
  {
    && o < a < k && l < k && log[o].Opened? && log[a] == Answered(log[o].shown) && log[l] == Looked(log[k].current)
    && (forall j | o < j < a :: !log[j].Opened?)
    && (forall j | a < j < k :: !log[j].Requested? && !log[j].Opened? && !log[j].Noticed? && !log[j].Answered?)
    && (forall j | l < j < k :: !log[j].Looked?)
    && Authorizes(log[o].shown, log[k].current)
  }

  lemma ConfirmationOrigin(log: seq<Event>, k: nat) returns (o: nat, a: nat, l: nat)
    requires AllLawful(Laws, log) && k < |log| && log[k].Confirmed?
    ensures Approved(log, k, o, a, l)
  {
    LawfulAt(Laws, log, k);
    a := ApprovalOrigin(log[..k]);
    l := SightOrigin(log[..k]);
    LawfulAt(Laws, log, a);
    o := PromptOrigin(log[..a]);
  }

  /** Over every run, through any number of settings and updater waits, a quit is confirmed only as
      the person approved it. */
  lemma QuitIsApproved(observes: bool, actions: seq<Action>, k: nat) returns (o: nat, a: nat, l: nat)
    requires
      var log := Run(Start(observes), actions).journal.log;
      k < |log| && log[k].Confirmed?
    ensures Approved(Run(Start(observes), actions).journal.log, k, o, a, l)
  {
    RunLawful(observes, actions);
    o, a, l := ConfirmationOrigin(Run(Start(observes), actions).journal.log, k);
  }

  /** In every reachable state but Idle and SessionEnding exactly one continuation is outstanding, and
      no request but a session end moves the state; Idle has none. */
  lemma OneContinuationMovesIt(observes: bool, actions: seq<Action>, s: Surroundings)
    ensures
      var c := Run(Start(observes), actions);
      && (c.state.Idle? ==> c.pending == [])
      && (!c.state.Idle? && !c.state.SessionEnding? ==>
            |c.pending| == 1 && Expects(c.state, c.pending[0]) &&
            Step(c, RequestExit(s)) == c && Step(c, RequestDismissal(s)) == c)
  {
    RunInv(observes, actions);
  }

  lemma LateStep(c: Coordinator, a: Action)
    requires c.state.SessionEnding?
    ensures Step(c, a).state.SessionEnding? && |Step(c, a).pending| <= |c.pending|
  {
  }

  /** After a session end at `i` the coordinator stays there whatever arrives late: it leaves no
      continuation, shows no prompt, asks no updater and confirms no quit. */
  lemma {:induction false} SessionEndIsFinal(observes: bool, actions: seq<Action>, late: seq<Action>)
    ensures
      var ended := Step(Run(Start(observes), actions), RequestSessionEnd);
      var c := Run(ended, late);
      c.state.SessionEnding? && |c.pending| <= |ended.pending|
    decreases |late|
  {
    if late != [] {
      SessionEndIsFinal(observes, actions, late[..|late| - 1]);
      LateStep(Run(Step(Run(Start(observes), actions), RequestSessionEnd), late[..|late| - 1]), late[|late| - 1]);
    }
  }

  lemma NothingAfterSessionEnd(observes: bool, actions: seq<Action>, i: nat, k: nat)
    requires
      var log := Run(Start(observes), actions).journal.log;
      i < k < |log| && log[i].SessionEnded?
    ensures
      var log := Run(Start(observes), actions).journal.log;
      log[k].Answered? || log[k].SessionEnded?
  {
    RunLawful(observes, actions);
    var log := Run(Start(observes), actions).journal.log;
    LawfulAt(Laws, log, k);
    EndedStays(log[..k], i);
  }
}
