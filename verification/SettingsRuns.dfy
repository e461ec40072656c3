/** Every run of one Settings: its clones' operations, token and job drops, jobs writing outside
    the lock, and other programs editing the file, in any order. */
module SettingsRuns {
  import opened Common
  import opened PrivateFile
  import opened Settings
  import opened Journals

  /** The instance whose runs these are. A token of any other instance is foreign here. */
  const Self: nat := 0

  /** What happened to the file, and what Settings learned of it, in order. */
  datatype Event =
    | Foreign(version: Option<Identity>)                      // another program left this version
    | Read(version: Option<Identity>)                         // Settings read this version
    | Adopted(version: Option<Identity>)                      // and accepted it
    | Refused                                                 // or could not use it
    | Prepared                                                // a commit was prepared
    | Wrote(replaced: Option<Identity>, id: Identity, identified: bool)
    | Stray(replaced: Option<Identity>, id: Identity)         // published, but reported as failed
    | Conflicted                                              // the write reported a conflict
    | Quarantined(version: Option<Identity>)                  // recovery moved the version it read aside
    | ResetAside(version: Option<Identity>)                   // recovery's generation reset moved whatever was there
    | Defaulted(replaced: Option<Identity>, id: Identity, identified: bool)

  /** A commit job that has neither finished nor been dropped. `before` is the state it was
      prepared in, and `written` what its write returned. */
  datatype Running = Running(job: Job, before: State, written: Option<Result<StorageCommit, StorageError>>)

  datatype World = World(
    state: State,
    file: File,
    observed: Option<Identity>,
    tokens: set<Token>,
    jobs: seq<Running>,
    journal: Journal)
  {
    function Note(e: Event): World { this.(journal := Noted(journal, e)) }
  }

  /** What the filesystem does with a write: it compares and swaps, or fails, perhaps after
      publishing. `identified` is whether the published entry could be read back. */
  datatype WriteChoice =
    | Swap(durability: Durability, identified: bool)
    | Fault(cause: StorageError, stray: bool)

  /** What a generation reset does with the config root: it is not needed, it sets every file aside, or
      it fails, perhaps after having done so. */
  datatype Generation = NotNeeded | SetsAside | ResetFails(cause: StorageError, after: bool)

  /** Why a document was not read: the config root was refused before the file was looked at, or the
      reading failed. */
  datatype ReadFault = Unprepared(error: Error) | Unread(cause: StorageError)

  datatype Action =
    | Begin(revision: u64)
    | Update(token: Token, candidate: Document)
    | Cancel(token: Token)
    | Edit(token: Token, catalog: u64, plan: Document -> Result<string, Error>)
    | Commit(token: Token)
    | Save(revision: u64, candidate: Document)
    | Ensure
    | Drop(token: Token)
    | Write(k: nat, choice: WriteChoice)
    | Finish(k: nat)
    | Abandon(k: nat)
    | Reopen(fault: Option<ReadFault>)
    | Follow(fault: Option<ReadFault>)
    | Reset(generation: Generation, moving: Option<StorageError>, intruder: Option<Bytes>, choice: WriteChoice)
    | ForeignWrite(bytes: Bytes)
    | ForeignRemove

  // The file.

  function Snapshot(file: File, fault: Option<ReadFault>): Result<Option<Entry>, Error> {
    match fault
    case None => Ok(file.entry)
    case Some(Unprepared(e)) => Err(e)
    case Some(Unread(cause)) => Err(Storage(cause))
  }

  /** The identity storage keeps of a reading: also that of an oversized file it refused. */
  function Observe(file: File, fault: Option<ReadFault>): Option<Identity> {
    if fault.None? || fault == Some(Unread(TooLarge)) then file.Current() else None
  }

  /** A reading replaces the identity storage keeps, unless the file was never looked at. */
  function Looked(w: World, fault: Option<ReadFault>): World {
    if fault.Some? && fault.value.Unprepared? then w
    else w.(observed := Observe(w.file, fault)).Note(Read(Observe(w.file, fault)))
  }

  function StoreWrite(file: File, expected: Option<Identity>, bytes: Bytes, choice: WriteChoice)
    : (File, Result<StorageCommit, StorageError>)
  {
    match choice
    case Fault(cause, stray) =>
      (if stray && file.Current() == expected then file.Published(bytes) else file, Err(cause))
    case Swap(durability, identified) =>
      if file.Current() != expected then (file, Err(Conflict))
      else (file.Published(bytes), Ok(StorageCommit(durability, if identified then Some(file.unused) else None)))
  }

  /** What the write of `written` from `w.file` to `after` is noted as. */
  function NoteWrite(w: World, after: File, written: Result<StorageCommit, StorageError>): World {
    match written
    case Ok(commit) => w.Note(Wrote(w.file.Current(), w.file.unused, commit.identity.Some?))
    case Err(cause) =>
      var strayed := if after != w.file then w.Note(Stray(w.file.Current(), w.file.unused)) else w;
      if cause == Conflict then strayed.Note(Conflicted) else strayed
  }

  // Steps. An action that cannot happen leaves the world as it is.

  predicate Held(w: World, t: Token) {
    t in w.tokens || t.instance != Self
  }

  function Start(c: Codec, file: File, fault: Option<ReadFault>): World {
    var read := ReadFile(c, file, fault);
    var found := World(Load(c, read), file, None, {}, [], Notes([], Blank, true)).Note(Foreign(file.Current()));
    Looked(found, fault).Note(if read.Ok? then Adopted(read.value.1) else Refused)
  }

  function ReadFile(c: Codec, file: File, fault: Option<ReadFault>): Result<(Document, Option<Identity>), Error> {
    Settings.Read(c, Snapshot(file, fault))
  }

  function Launched(w: World, s: State, job: Option<Job>): World {
    if job.None? then w.(state := s)
    else w.(state := s, jobs := w.jobs + [Running(job.value, w.state, None)]).Note(Prepared)
  }

  function Succeeded(r: Result<Job, Error>): Option<Job> {
    match r case Ok(j) => Some(j) case Err(_) => None
  }

  function Without(jobs: seq<Running>, k: nat): seq<Running>
    requires k < |jobs|
  {
    jobs[..k] + jobs[k + 1..]
  }

  /** A read reached the storage, left `next` and returned `answer`. */
  function AfterRead(c: Codec, w: World, fault: Option<ReadFault>, next: State, answer: Result<bool, Error>): World {
    var read := ReadFile(c, w.file, fault);
    var seen := Looked(w.(state := next), fault);
    if answer == Ok(true) && read.Ok? then seen.Note(Adopted(read.value.1))
    else if answer.Err? && read.Err? then seen.Note(Refused)
    else seen
  }

  function Intrude(w: World, bytes: Bytes): World {
    var file := w.file.Published(bytes);
    w.(file := file).Note(Foreign(file.Current()))
  }

  /** Recovery moves a version aside: by a generation reset, whatever version is there, or else by
      quarantining the identity the most recent read retained. */
  function MoveAside(w: World, generation: Generation, fault: Option<StorageError>): (World, Option<StorageError>) {
    var reset := w.(file := w.file.Removed()).Note(ResetAside(w.file.Current()));
    match generation
    case SetsAside => (reset, None)
    case ResetFails(cause, after) => (if after then reset else w, Some(cause))
    case NotNeeded =>
      if w.observed.None? || w.file.Current() != w.observed then (w, Some(Conflict))
      else if fault.Some? then (w, fault)
      else (w.(file := w.file.Removed()).Note(Quarantined(w.file.Current())), None)
  }

  /** Recovery writes the default document where no file is. */
  function WriteDefaults(c: Codec, w: World, choice: WriteChoice): World {
    match c.encode(c.default)
    case Err(_) => w
    case Ok(bytes) =>
      var (file, written) := StoreWrite(w.file, None, bytes, choice);
      var event := Defaulted(w.file.Current(), w.file.unused, written.Ok? && written.value.identity.Some?);
      var next := w.(state := Settings.Recover(w.state, c, written).0, file := file);
      if file == w.file then next else next.Note(event)
  }

  function RecoverStep(c: Codec, w: World, a: Action): World
    requires a.Reset?
  {
    if RequireRecovery(w.state).Some? then w
    else
      var (moved, refused) := MoveAside(w, a.generation, a.moving);
      var open := if a.intruder.Some? then Intrude(moved, a.intruder.value) else moved;
      if refused.Some? then open.(state := Settings.Recover(w.state, c, Err(refused.value)).0)
      else WriteDefaults(c, open, a.choice)
  }

  function Step(c: Codec, w: World, a: Action): World {
    match a
    case Begin(revision) =>
      var (s, r) := BeginPreview(w.state, Self, revision);
      w.(state := s, tokens := if r.Ok? then w.tokens + {r.value} else w.tokens)
    case Update(t, candidate) =>
      if Held(w, t) then w.(state := UpdatePreview(w.state, c, Self, t, candidate).0) else w
    case Cancel(t) =>
      if Held(w, t) then w.(state := CancelPreview(w.state, Self, t).0) else w
    case Edit(t, catalog, plan) =>
      if Held(w, t) then w.(state := PlannedEdit(w.state, c, Self, t, catalog, plan).0) else w
    case Commit(t) =>
      if Held(w, t) then
        var (s, r) := CommitPreview(w.state, c, Self, t);
        Launched(w, s, Succeeded(r))
      else w
    case Save(revision, candidate) =>
      var (s, r) := UpdateCommitted(w.state, c, revision, candidate);
      Launched(w, s, Succeeded(r))
    case Ensure =>
      var (s, r) := EnsureFile(w.state, c);
      Launched(w, s, match r case Ok(j) => j case Err(_) => None)
    case Drop(t) =>
      if t in w.tokens then w.(state := DropToken(w.state, t.id), tokens := w.tokens - {t}) else w
    case Write(k, choice) =>
      if k < |w.jobs| && w.jobs[k].written.None? then
        var (file, written) := StoreWrite(w.file, w.jobs[k].job.expected, w.jobs[k].job.bytes, choice);
        NoteWrite(w, file, written).(file := file, jobs := w.jobs[k := w.jobs[k].(written := Some(written))])
      else w
    case Finish(k) =>
      if k < |w.jobs| && w.jobs[k].written.Some? then
        w.(state := Complete(w.state, w.jobs[k].job, w.jobs[k].written.value).0, jobs := Without(w.jobs, k))
      else w
    case Abandon(k) =>
      if k < |w.jobs| && w.jobs[k].written.None? then
        w.(state := Restore(w.state), jobs := Without(w.jobs, k))
      else w
    case Reopen(fault) =>
      if w.state.transaction.Idle? && w.state.catalog < MaxU64 then
        var (s, refused) := Settings.Reload(w.state, c, Snapshot(w.file, fault));
        AfterRead(c, w, fault, s, if refused.Some? then Err(refused.value) else Ok(true))
      else w
    case Follow(fault) =>
      if w.state.transaction.Idle? && w.state.catalog < MaxU64 then
        var (s, answer) := FollowFile(w.state, c, Snapshot(w.file, fault));
        AfterRead(c, w, fault, s, answer)
      else w
    case Reset(_, _, _, _) => RecoverStep(c, w, a)
    case ForeignWrite(bytes) => Intrude(w, bytes)
    case ForeignRemove =>
      w.(file := w.file.Removed()).Note(Foreign(None))
  }

  function Run(c: Codec, w: World, actions: seq<Action>): World
    decreases |actions|
  {
    if actions == [] then w else Step(c, Run(c, w, actions[..|actions| - 1]), actions[|actions| - 1])
  }

  // What a log says, independently of the state.

  /** `known` is the file version Settings last read or published, which is all it may replace: a
      refused read, a conflict or a publication it could not identify leaves it none. `disk` is the
      version the file holds, `seen` that of the last read, and `bound` is above every identity. */
  datatype Digest = Digest(known: Option<Option<Identity>>, disk: Option<Identity>, seen: Option<Identity>, bound: nat)

  const Blank: Digest := Digest(None, None, None, 0)

  function Learn(known: Option<Option<Identity>>, e: Event): Option<Option<Identity>> {
    match e
    case Adopted(v) => Some(v)
    case Refused => None
    case Conflicted => None
    case Wrote(_, id, identified) => if identified then Some(Some(id)) else None
    case Defaulted(_, id, identified) => if identified then Some(Some(id)) else None
    case _ => known
  }

  /** The identity `e` put on the disk, if it put one there. */
  function Introduced(e: Event): Option<Identity> {
    match e
    case Foreign(v) => v
    case Wrote(_, id, _) => Some(id)
    case Stray(_, id) => Some(id)
    case Defaulted(_, id, _) => Some(id)
    case _ => None
  }

  function Absorb(d: Digest, e: Event): Digest {
    var new' := Introduced(e);
    Digest(Learn(d.known, e),
           if new'.Some? then new' else if e.Foreign? || e.Quarantined? || e.ResetAside? then None else d.disk,
           if e.Read? then e.version else d.seen,
           if new'.Some? && d.bound <= new'.value then new'.value + 1 else d.bound)
  }

  /** Whether Settings was entitled to `e`, and the file allowed it. */
  predicate Lawful(d: Digest, e: Event) {
    && (Introduced(e).Some? ==> d.bound <= Introduced(e).value)
    && (match e
        case Read(v) => v.None? || d.disk == v
        case Adopted(v) => d.disk == v
        case Prepared => d.known.Some?
        case Wrote(replaced, _, _) => d.known == Some(replaced) && d.disk == replaced
        case Stray(replaced, _) => d.known == Some(replaced) && d.disk == replaced
        case Quarantined(v) => v.Some? && d.seen == v && d.disk == v
        case ResetAside(v) => d.disk == v
        case Defaulted(replaced, _, _) => replaced.None? && d.disk.None?
        case _ => true)
  }

  const Laws: Rules<Digest, Event> := Rules(Blank, Absorb, Lawful)

  type Journal = n: Notes<Digest, Event> | Genuine(Laws, n) ghost witness Notes([], Blank, true)

  function Noted(j: Journal, e: Event): (n: Journal)
    ensures n == Notes(j.log + [e], Absorb(j.now, e), j.lawful && Lawful(j.now, e))
  {
    GenuineGrows(Laws, j, e);
    Notes(j.log + [e], Absorb(j.now, e), j.lawful && Lawful(j.now, e))
  }

  /** What a log says. */
  function Said(log: seq<Event>): Digest {
    Digested(Laws, log)
  }

  // What every reachable world keeps.

  /** The job `r` is the one the transaction in `s` waits for. */
  predicate Awaits(s: State, r: Running)
    requires s.transaction.Committing?
  {
    var t := s.transaction;
    && r.job.candidate == t.candidate && r.job.expected == s.expected
    && s.ready && r.before.(transaction := t) == s
    && t.candidate.revision == s.committed.revision + 1
    && (match t.owner
        case Some(id) => r.before.transaction == Preview(id, t.candidate.(revision := s.committed.revision))
        case None => r.before.transaction.Idle? && t.ownerAlive)
  }

  /** Committing exactly while one unfinished job exists, and that job is this commit. */
  predicate OneOwner(w: World) {
    if w.state.transaction.Committing? then |w.jobs| == 1 && Awaits(w.state, w.jobs[0])
    else w.jobs == []
  }

  function TokenOf(s: State, id: u64): Token {
    Token(Self, id, s.committed.revision)
  }

  ghost predicate Issued(s: State, tokens: set<Token>) {
    && (forall t <- tokens :: t.instance == Self && t.id <= s.nextPreview)
    && (forall t <- tokens, u <- tokens :: t.id == u.id ==> t == u)
  }

  /** A preview has its live token; a preview's commit knows whether its token still lives. */
  ghost predicate Leased(s: State, tokens: set<Token>) {
    match s.transaction
    case Idle => true
    case Preview(id, candidate) => candidate.revision == s.committed.revision && TokenOf(s, id) in tokens
    case Committing(None, _, _) => true
    case Committing(Some(id), _, alive) =>
      id <= s.nextPreview && (if alive then TokenOf(s, id) in tokens else forall t <- tokens :: t.id != id)
  }

  /** What Settings believes about the file is what the log says it knows. */
  predicate Informed(w: World) {
    var known := w.journal.now.known;
    if !w.state.transaction.Committing? || |w.jobs| != 1 || w.jobs[0].written.None? then
      known == if w.state.ready then Some(w.state.expected) else None
    else match w.jobs[0].written.value
      case Ok(commit) => known == if commit.identity.Some? then Some(commit.identity) else None
      case Err(cause) => known == if cause == Conflict then None else Some(w.state.expected)
  }

  predicate Recorded(w: World) {
    var d := w.journal.now;
    && w.file.Valid() && d.bound <= w.file.unused
    && d.disk == w.file.Current() && d.seen == w.observed
  }

  ghost predicate Inv(w: World) {
    && OneOwner(w)
    && Issued(w.state, w.tokens) && Leased(w.state, w.tokens)
    && Informed(w) && Recorded(w)
    && w.journal.lawful
  }

  lemma StartInv(c: Codec, file: File, fault: Option<ReadFault>)
    requires file.Valid()
    ensures Inv(Start(c, file, fault))
  {
  }

  /** A prepared commit waits for its job. */
  lemma PrepareAwaits(c: Codec, s: State, owner: Option<u64>, candidate: Document)
    requires !s.transaction.Committing? && candidate.revision == s.committed.revision
    requires if owner.Some? then s.transaction == Preview(owner.value, candidate) else s.transaction.Idle?
    ensures
      var (next, r) := PrepareCommit(s, c, owner, candidate);
      if r.Err? then next == s
      else s.ready && next == s.(transaction := Committing(owner, r.value.candidate, true)) && Awaits(next, Running(r.value, s, None))
  {
  }

  lemma LaunchedInv(w: World, s: State, job: Job)
    requires Inv(w) && !w.state.transaction.Committing? && w.state.ready
    requires s.transaction.Committing? && s == w.state.(transaction := s.transaction) && Leased(s, w.tokens)
    requires Awaits(s, Running(job, w.state, None))
    ensures Inv(Launched(w, s, Some(job)))
  {
  }

  lemma CommitInv(c: Codec, w: World, t: Token)
    requires Inv(w)
    ensures Inv(Step(c, w, Commit(t)))
  {
    if Held(w, t) && RequireToken(w.state, Self, t).None? {
      PrepareAwaits(c, w.state, Some(t.id), w.state.transaction.candidate);
      var (s, r) := CommitPreview(w.state, c, Self, t);
      if r.Ok? { LaunchedInv(w, s, r.value); }
    }
  }

  lemma DirectInv(c: Codec, w: World, candidate: Document)
    requires c.Faithful() && Inv(w) && w.state.transaction.Idle?
    ensures
      var (s, r) := PrepareDirect(w.state, c, candidate);
      Inv(Launched(w, s, Succeeded(r)))
  {
    var valid := c.Validate(candidate, w.state.committed.revision);
    if valid.Ok? {
      PrepareAwaits(c, w.state, None, valid.value);
      var (s, r) := PrepareDirect(w.state, c, candidate);
      if r.Ok? { LaunchedInv(w, s, r.value); }
    }
  }

  lemma SaveInv(c: Codec, w: World, a: Action)
    requires c.Faithful() && Inv(w) && (a.Save? || a.Ensure?)
    ensures Inv(Step(c, w, a))
  {
    if w.state.transaction.Idle? { DirectInv(c, w, if a.Save? then a.candidate else w.state.committed); }
  }

  lemma BeginInv(c: Codec, w: World, revision: u64)
    requires Inv(w)
    ensures Inv(Step(c, w, Begin(revision)))
  {
  }

  lemma DropInv(c: Codec, w: World, t: Token)
    requires Inv(w)
    ensures Inv(Step(c, w, Drop(t)))
  {
  }

  lemma EditInv(c: Codec, w: World, a: Action)
    requires c.Faithful() && Inv(w)
    requires a.Update? || a.Cancel? || a.Edit?
    ensures Inv(Step(c, w, a))
  {
  }

  lemma NoteWriteLawful(w: World, expected: Option<Identity>, bytes: Bytes, choice: WriteChoice)
    requires w.journal.lawful && Recorded(w) && w.journal.now.known == Some(expected)
    ensures
      var (file, written) := StoreWrite(w.file, expected, bytes, choice);
      var noted := NoteWrite(w, file, written);
      && noted == w.(journal := noted.journal) && noted.journal.lawful && Recorded(noted.(file := file))
      && noted.journal.now.known ==
         (match written
          case Ok(commit) => if commit.identity.Some? then Some(commit.identity) else None
          case Err(cause) => if cause == Conflict then None else Some(expected))
  {
  }

  lemma WriteInv(c: Codec, w: World, choice: WriteChoice)
    requires Inv(w) && w.jobs != [] && w.jobs[0].written.None?
    ensures Inv(Step(c, w, Write(0, choice)))
  {
    var r := w.jobs[0];
    NoteWriteLawful(w, r.job.expected, r.job.bytes, choice);
    var (file, written) := StoreWrite(w.file, r.job.expected, r.job.bytes, choice);
    assert w.jobs[0 := r.(written := Some(written))] == [r.(written := Some(written))];
  }

  lemma EndInv(c: Codec, w: World, a: Action)
    requires c.Faithful() && Inv(w)
    requires a.Finish? || a.Abandon?
    ensures Inv(Step(c, w, a))
  {
    if a.k < |w.jobs| { assert Without(w.jobs, a.k) == []; }
  }

  lemma AfterReadInv(c: Codec, w: World, fault: Option<ReadFault>, next: State, answer: Result<bool, Error>)
    requires Inv(w) && w.state.transaction.Idle? && next.transaction.Idle? && next.nextPreview == w.state.nextPreview
    requires
      var read := ReadFile(c, w.file, fault);
      if answer == Ok(true) && read.Ok? then next.ready && next.expected == read.value.1
      else if answer.Err? && read.Err? then !next.ready
      else next.ready == w.state.ready && next.expected == w.state.expected
    ensures Inv(AfterRead(c, w, fault, next, answer))
  {
  }

  lemma ReadInv(c: Codec, w: World, a: Action)
    requires Inv(w)
    requires a.Reopen? || a.Follow?
    ensures Inv(Step(c, w, a))
  {
    if w.state.transaction.Idle? && w.state.catalog < MaxU64 {
      if a.Reopen? {
        var (s, refused) := Settings.Reload(w.state, c, Snapshot(w.file, a.fault));
        AfterReadInv(c, w, a.fault, s, if refused.Some? then Err(refused.value) else Ok(true));
      } else {
        var (s, answer) := FollowFile(w.state, c, Snapshot(w.file, a.fault));
        AfterReadInv(c, w, a.fault, s, answer);
      }
    }
  }

  lemma MoveAsideInv(w: World, generation: Generation, fault: Option<StorageError>)
    requires Inv(w) && RequireRecovery(w.state).None?
    ensures
      var moved := MoveAside(w, generation, fault).0;
      Inv(moved) && moved.state == w.state
  {
  }

  lemma WriteDefaultsInv(c: Codec, w: World, choice: WriteChoice)
    requires Inv(w) && RequireRecovery(w.state).None?
    ensures Inv(WriteDefaults(c, w, choice))
  {
    if c.encode(c.default).Ok? {
      var (file, written) := StoreWrite(w.file, None, c.encode(c.default).value, choice);
      var s := Settings.Recover(w.state, c, written).0;
      assert s.transaction.Idle? && s.nextPreview == w.state.nextPreview;
      assert s.ready == (written.Ok? && written.value.identity.Some?);
    }
  }

  lemma IntrudeInv(w: World, bytes: Bytes)
    requires Inv(w)
    ensures Inv(Intrude(w, bytes))
  {
  }

  lemma RemoveInv(c: Codec, w: World)
    requires Inv(w)
    ensures Inv(Step(c, w, ForeignRemove))
  {
  }

  lemma RecoverInv(c: Codec, w: World, a: Action)
    requires Inv(w) && a.Reset?
    ensures Inv(Step(c, w, a))
  {
    if RequireRecovery(w.state).None? {
      MoveAsideInv(w, a.generation, a.moving);
      var (moved, refused) := MoveAside(w, a.generation, a.moving);
      var open := if a.intruder.Some? then Intrude(moved, a.intruder.value) else moved;
      if a.intruder.Some? { IntrudeInv(moved, a.intruder.value); }
      if refused.None? { WriteDefaultsInv(c, open, a.choice); }
    }
  }

  lemma CommitStepInv(c: Codec, w: World, a: Action)
    requires c.Faithful() && Inv(w)
    requires a.Commit? || a.Save? || a.Ensure? || a.Write? || a.Finish? || a.Abandon?
    ensures Inv(Step(c, w, a))
  {
    match a
    case Commit(t) => CommitInv(c, w, t);
    case Write(k, choice) => if k < |w.jobs| && w.jobs[k].written.None? { WriteInv(c, w, choice); }
    case Finish(_) => EndInv(c, w, a);
    case Abandon(_) => EndInv(c, w, a);
    case _ => SaveInv(c, w, a);
  }

  lemma FileStepInv(c: Codec, w: World, a: Action)
    requires Inv(w)
    requires a.Reopen? || a.Follow? || a.Reset? || a.ForeignWrite? || a.ForeignRemove?
    ensures Inv(Step(c, w, a))
  {
    match a
    case Reset(_, _, _, _) => RecoverInv(c, w, a);
    case ForeignWrite(bytes) => IntrudeInv(w, bytes);
    case ForeignRemove => RemoveInv(c, w);
    case _ => ReadInv(c, w, a);
  }

  lemma StepInv(c: Codec, w: World, a: Action)
    requires c.Faithful() && Inv(w)
    ensures Inv(Step(c, w, a))
  {
    if a.Begin? { BeginInv(c, w, a.revision); }
    else if a.Drop? { DropInv(c, w, a.token); }
    else if a.Update? || a.Cancel? || a.Edit? { EditInv(c, w, a); }
    else if a.Reopen? || a.Follow? || a.Reset? || a.ForeignWrite? || a.ForeignRemove? { FileStepInv(c, w, a); }
    else { CommitStepInv(c, w, a); }
  }

  lemma {:induction false} RunInv(c: Codec, w: World, actions: seq<Action>)
    requires c.Faithful() && Inv(w)
    ensures Inv(Run(c, w, actions))
    decreases |actions|
  {
    if actions != [] {
      RunInv(c, w, actions[..|actions| - 1]);
      StepInv(c, Run(c, w, actions[..|actions| - 1]), actions[|actions| - 1]);
    }
  }

  lemma RunLawful(c: Codec, file: File, fault: Option<ReadFault>, actions: seq<Action>)
    requires c.Faithful() && file.Valid()
    ensures AllLawful(Laws, Run(c, Start(c, file, fault), actions).journal.log)
  {
    StartInv(c, file, fault);
    RunInv(c, Start(c, file, fault), actions);
    GenuineSays(Laws, Run(c, Start(c, file, fault), actions).journal);
  }

  // The file is never overwritten unread.

  lemma {:induction false} KnownOrigin(log: seq<Event>, v: Identity) returns (i: nat)
    requires Said(log).known == Some(Some(v))
    ensures i < |log| && (log[i] == Adopted(Some(v)) || (!log[i].Foreign? && Introduced(log[i]) == Some(v)))
    decreases |log|
  {
    var n := |log| - 1;
    if log[n].Adopted? || log[n].Wrote? || log[n].Defaulted? { i := n; }
    else { i := KnownOrigin(log[..n], v); }
  }

  lemma {:induction false} DiskOrigin(log: seq<Event>, v: Identity) returns (i: nat)
    requires Said(log).disk == Some(v)
    ensures i < |log| && Introduced(log[i]) == Some(v)
    decreases |log|
  {
    var n := |log| - 1;
    if Introduced(log[n]).Some? { i := n; } else { i := DiskOrigin(log[..n], v); }
  }

  lemma {:induction false} BoundCovers(log: seq<Event>, i: nat)
    requires i < |log| && Introduced(log[i]).Some?
    ensures Introduced(log[i]).value < Said(log).bound
    decreases |log|
  {
    if i < |log| - 1 { BoundCovers(log[..|log| - 1], i); }
  }

  lemma IntroducedOnce(log: seq<Event>, i: nat, j: nat)
    requires AllLawful(Laws, log) && i < |log| && j < |log| && i != j && Introduced(log[i]).Some?
    ensures Introduced(log[j]) != Introduced(log[i])
  {
    var first, second := if i < j then i else j, if i < j then j else i;
    LawfulAt(Laws, log, second);
    if Introduced(log[first]).Some? { BoundCovers(log[..second], first); }
  }

  lemma AdoptedBetween(log: seq<Event>, j: nat, k: nat) returns (i: nat)
    requires AllLawful(Laws, log) && j < k < |log| && log[j].Foreign? && log[j].version.Some?
    requires log[k].Wrote? || log[k].Stray?
    requires log[k].replaced == log[j].version
    ensures j < i < k && log[i] == Adopted(log[j].version)
  {
    var v := log[j].version.value;
    LawfulAt(Laws, log, k);
    i := KnownOrigin(log[..k], v);
    if log[i] != Adopted(Some(v)) {
      IntroducedOnce(log, j, i);
    } else if i < j {
      LawfulAt(Laws, log, i);
      var h := DiskOrigin(log[..i], v);
      IntroducedOnce(log, h, j);
    }
  }

  /** Over every run, a version another program left is replaced by a save only after Settings
      adopted it: no outside edit is lost. */
  lemma ForeignEditIsAdoptedFirst(c: Codec, file: File, fault: Option<ReadFault>, actions: seq<Action>, j: nat, k: nat)
    returns (i: nat)
    requires c.Faithful() && file.Valid()
    requires
      var log := Run(c, Start(c, file, fault), actions).journal.log;
      && j < k < |log| && log[j].Foreign? && log[j].version.Some? && (log[k].Wrote? || log[k].Stray?)
      && log[k].replaced == log[j].version
    ensures
      var log := Run(c, Start(c, file, fault), actions).journal.log;
      j < i < k && log[i] == Adopted(log[j].version)
  {
    RunLawful(c, file, fault, actions);
    i := AdoptedBetween(Run(c, Start(c, file, fault), actions).journal.log, j, k);
  }

  /** Over every run: a save replaces exactly the version Settings last read or published, which
      is then on the disk; no commit is prepared while Settings knows no version; recovery quarantines
      only the version it read, while its generation reset moves whatever version is there; and it
      writes only where no file is. */
  lemma WritesOnlyOverTheKnownVersion(c: Codec, file: File, fault: Option<ReadFault>, actions: seq<Action>, k: nat)
    requires c.Faithful() && file.Valid()
    requires k < |Run(c, Start(c, file, fault), actions).journal.log|
    ensures
      var log := Run(c, Start(c, file, fault), actions).journal.log;
      var d := Said(log[..k]);
      && (log[k].Wrote? || log[k].Stray? ==> d.known == Some(log[k].replaced) && d.disk == log[k].replaced)
      && (log[k].Prepared? ==> d.known.Some?)
      && (log[k].Quarantined? ==> log[k].version.Some? && d.seen == d.disk == log[k].version)
      && (log[k].ResetAside? ==> d.disk == log[k].version)
      && (log[k].Defaulted? ==> d.disk.None?)
  {
    RunLawful(c, file, fault, actions);
    LawfulAt(Laws, Run(c, Start(c, file, fault), actions).journal.log, k);
  }

  /** Between the last read, at `i`, and the end of the log nothing was put on the disk. */
  ghost predicate Undisturbed(log: seq<Event>, i: nat) {
    forall j | i < j < |log| :: Introduced(log[j]).None?
  }

  /** If a version lies on the disk and none was put there since `i`, it lay there at `i`. */
  lemma {:induction false} DiskWas(log: seq<Event>, i: nat)
    requires i < |log| && Undisturbed(log, i) && Said(log).disk.Some? && log[i].Read?
    ensures Said(log[..i]).disk == Said(log).disk
    decreases |log|
  {
    var n := |log| - 1;
    if i < n {
      DiskWas(log[..n], i);
      assert log[..n][..i] == log[..i];
    }
  }

  lemma {:induction false} SeenIs(log: seq<Event>, i: nat)
    requires i < |log| && log[i].Read? && forall j | i < j < |log| :: !log[j].Read?
    ensures Said(log).seen == log[i].version
    decreases |log|
  {
    if i < |log| - 1 { SeenIs(log[..|log| - 1], i); }
  }

  /** A version put on the disk after a read is not the version read. */
  lemma NewerThanSeen(log: seq<Event>, i: nat, j: nat)
    requires AllLawful(Laws, log) && i < j < |log| && log[i].Read? && log[i].version.Some?
    ensures Introduced(log[j]) != log[i].version
  {
    LawfulAt(Laws, log, i);
    var h := DiskOrigin(log[..i], log[i].version.value);
    IntroducedOnce(log, h, j);
  }

  /** The generation reset moves aside the version of the last read, at `i`, exactly when that read
      identified the file and nobody put another version there since. */
  lemma ResetMovesTheReadVersionExactly(log: seq<Event>, i: nat, k: nat)
    requires AllLawful(Laws, log) && i < k < |log| && log[i].Read? && (forall j | i < j < k :: !log[j].Read?)
    requires log[k].ResetAside? && log[k].version.Some?
    ensures Said(log[..k]).seen == log[k].version <==> log[i].version.Some? && Undisturbed(log[..k], i)
  {
    var before := log[..k];
    LawfulAt(Laws, log, k);
    SeenIs(before, i);
    if log[i].version.Some? {
      if Undisturbed(before, i) {
        DiskWas(before, i);
        LawfulAt(Laws, before, i);
      } else {
        var h := DiskOrigin(before, log[k].version.value);
        if h > i { NewerThanSeen(before, i, h); }
        else {
          var j :| i < j < k && Introduced(before[j]).Some?;
          NewestOnDisk(before, h, j);
        }
      }
    }
  }

  /** What lies on the disk was put there last. */
  lemma {:induction false} NewestOnDisk(log: seq<Event>, h: nat, j: nat)
    requires AllLawful(Laws, log) && h < j < |log| && Introduced(log[j]).Some? && Introduced(log[h]).Some?
    ensures Said(log).disk != Introduced(log[h])
    decreases |log|
  {
    var n := |log| - 1;
    LawfulAt(Laws, log, n);
    if Introduced(log[n]).Some? { IntroducedOnce(log, h, n); }
    else { NewestOnDisk(log[..n], h, j); }
  }

  /** The last read before `k` is at `i`. */
  ghost predicate LastRead(log: seq<Event>, i: nat, k: nat) {
    i < k <= |log| && log[i].Read? && forall j | i < j < k :: !log[j].Read?
  }

  lemma {:induction false} SeenOrigin(log: seq<Event>) returns (i: nat)
    requires Said(log).seen.Some?
    ensures LastRead(log, i, |log|)
    decreases |log|
  {
    var n := |log| - 1;
    if log[n].Read? { i := n; } else { i := SeenOrigin(log[..n]); }
  }

  /** Before `k` there was a read, it identified the file, and nobody put another version there since. */
  ghost predicate StillRead(log: seq<Event>, k: nat)
    requires k <= |log|
  {
    exists i: nat :: LastRead(log, i, k) && log[i].version.Some? && Undisturbed(log[..k], i)
  }

  lemma ResetMovesTheReadVersion(log: seq<Event>, k: nat)
    requires AllLawful(Laws, log) && k < |log| && log[k].ResetAside? && log[k].version.Some?
    ensures Said(log[..k]).seen == log[k].version <==> StillRead(log, k)
  {
    if Said(log[..k]).seen.Some? {
      var i := SeenOrigin(log[..k]);
      assert LastRead(log, i, k);
      ResetMovesTheReadVersionExactly(log, i, k);
    }
    if StillRead(log, k) {
      var i: nat :| LastRead(log, i, k) && log[i].version.Some? && Undisturbed(log[..k], i);
      ResetMovesTheReadVersionExactly(log, i, k);
    }
  }

  /** So in every run. */
  lemma RunResetsTheReadVersionExactly(c: Codec, file: File, fault: Option<ReadFault>, actions: seq<Action>, k: nat)
    requires c.Faithful() && file.Valid()
    requires
      var log := Run(c, Start(c, file, fault), actions).journal.log;
      k < |log| && log[k].ResetAside? && log[k].version.Some?
    ensures
      var log := Run(c, Start(c, file, fault), actions).journal.log;
      Said(log[..k]).seen == log[k].version <==> StillRead(log, k)
  {
    RunLawful(c, file, fault, actions);
    ResetMovesTheReadVersion(Run(c, Start(c, file, fault), actions).journal.log, k);
  }

  /** A run in which it does not: a file of unreadable bytes is read, another program replaces it, and
      recovery's generation reset moves the replacement aside unread. */
  lemma ResetCanMoveAnUnreadVersion(c: Codec, unreadable: Bytes, replacement: Bytes, choice: WriteChoice)
    requires c.parse(unreadable) == Err(Invalid)
    requires c.default.revision < MaxU64
    ensures
      var start := Start(c, File(Some(Entry(0, unreadable)), 1), None);
      var replaced := Step(c, start, ForeignWrite(replacement));
      var log := MoveAside(replaced, SetsAside, None).0.journal.log;
      && RequireRecovery(replaced.state).None?
      && RecoverStep(c, replaced, Reset(SetsAside, None, None, choice)) == WriteDefaults(c, MoveAside(replaced, SetsAside, None).0, choice)
      && log != [] && log[|log| - 1] == ResetAside(Some(1)) && replaced.journal.now.seen == Some(0)
  {
  }

  /** The ordinary run of it: the config root is refused before the file is looked at, and the reset
      moves aside a version nobody read; without the reset, nothing is moved and recovery fails. */
  lemma ResetMovesWhatWasNeverRead(c: Codec, bytes: Bytes, moving: Option<StorageError>, choice: WriteChoice)
    requires c.default.revision < MaxU64
    ensures
      var start := Start(c, File(Some(Entry(0, bytes)), 1), Some(Unprepared(Invalid)));
      var log := MoveAside(start, SetsAside, moving).0.journal.log;
      && RequireRecovery(start.state).None? && start.observed.None?
      && RecoverStep(c, start, Reset(SetsAside, moving, None, choice)) == WriteDefaults(c, MoveAside(start, SetsAside, moving).0, choice)
      && log == start.journal.log + [ResetAside(Some(0))] && (forall e <- log :: !e.Read?)
      && MoveAside(start, NotNeeded, moving) == (start, Some(Conflict))
  {
  }

  lemma {:induction false} UnknownStays(log: seq<Event>, j: nat)
    requires j < |log| && (log[j].Conflicted? || log[j].Refused? || (log[j].Wrote? && !log[j].identified))
    requires forall i | j < i < |log| :: !log[i].Adopted? && !log[i].Defaulted?
    requires AllLawful(Laws, log)
    ensures Said(log).known.None?
    decreases |log|
  {
    var n := |log| - 1;
    if j < n { UnknownStays(log[..n], j); }
  }

  /** Over every run, after a conflict, a refused read or an unidentified publication nothing is
      prepared or written until a read is adopted or recovery wrote the defaults. */
  lemma BlockedUntilAdopted(c: Codec, file: File, fault: Option<ReadFault>, actions: seq<Action>, j: nat, k: nat)
    requires c.Faithful() && file.Valid()
    requires
      var log := Run(c, Start(c, file, fault), actions).journal.log;
      && j < k < |log| && (log[j].Conflicted? || log[j].Refused? || (log[j].Wrote? && !log[j].identified))
      && forall i | j < i < k :: !log[i].Adopted? && !log[i].Defaulted?
    ensures
      var log := Run(c, Start(c, file, fault), actions).journal.log;
      !log[k].Prepared? && !log[k].Wrote? && !log[k].Stray?
  {
    RunLawful(c, file, fault, actions);
    var log := Run(c, Start(c, file, fault), actions).journal.log;
    LawfulAt(Laws, log, k);
    UnknownStays(log[..k], j);
  }

  // Ownership.

  /** In every reachable world: Committing exactly while one unfinished job exists, holding the
      same candidate and expected identity; a preview has a live token that is accepted unless the
      catalog revision ran out; with no token and no job left Settings is idle. */
  lemma TransactionHasItsOwner(c: Codec, file: File, fault: Option<ReadFault>, actions: seq<Action>)
    requires c.Faithful() && file.Valid()
    ensures
      var w := Run(c, Start(c, file, fault), actions);
      var s := w.state;
      && (s.transaction.Committing? <==> |w.jobs| == 1) && |w.jobs| <= 1
      && (s.transaction.Committing? ==> w.jobs[0].job.candidate == s.transaction.candidate && w.jobs[0].job.expected == s.expected)
      && (s.transaction.Preview? ==>
            var t := TokenOf(s, s.transaction.id);
            t in w.tokens && (RequireToken(s, Self, t).None? <==> s.catalog < MaxU64))
      && (w.tokens == {} && w.jobs == [] ==> s.transaction.Idle?)
  {
    StartInv(c, file, fault);
    RunInv(c, Start(c, file, fault), actions);
  }

  /** Dropping any live token but the one the current preview was begun with changes nothing. */
  lemma OldDropKeepsNewerPreview(c: Codec, file: File, fault: Option<ReadFault>, actions: seq<Action>, t: Token)
    requires c.Faithful() && file.Valid()
    requires
      var w := Run(c, Start(c, file, fault), actions);
      t in w.tokens && w.state.transaction.Preview? && t != TokenOf(w.state, w.state.transaction.id)
    ensures
      var w := Run(c, Start(c, file, fault), actions);
      Step(c, w, Drop(t)).state == w.state
  {
    StartInv(c, file, fault);
    RunInv(c, Start(c, file, fault), actions);
  }

  /** What a commit that is not published leaves, in terms of the state it was prepared in. */
  predicate RolledBack(r: Running, alive: bool, after: State) {
    var before := r.before;
    && after.committed == before.committed
    && after.expected == before.expected
    && after.nextPreview == before.nextPreview
    && (if before.transaction.Preview? then
          && after.recoverable == before.recoverable
          && after.transaction == (if alive then before.transaction else Idle)
        else
          && after.recoverable == Some(r.job.candidate.(revision := before.committed.revision))
          && after.transaction.Idle?)
  }

  /** The job at the head of `w` ends without having published. */
  predicate EndsUnpublished(w: World, a: Action) {
    w.jobs != [] && (if w.jobs[0].written.None? then a == Abandon(0) else a == Finish(0) && w.jobs[0].written.value.Err?)
  }

  predicate OwnerLives(w: World)
    requires w.jobs != []
  {
    var before := w.jobs[0].before;
    before.transaction.Preview? && TokenOf(before, before.transaction.id) in w.tokens
  }

  lemma UnpublishedRollsBack(c: Codec, w: World, a: Action)
    requires Inv(w) && EndsUnpublished(w, a)
    ensures RolledBack(w.jobs[0], OwnerLives(w), Step(c, w, a).state)
    ensures Step(c, w, a).state.ready == (w.jobs[0].written != Some(Err(Conflict)))
  {
  }

  /** A failed or abandoned commit is an exact rollback to the state it was prepared in, whatever
      happened meanwhile: a live owner gets its preview back, revision stamp included, with a token
      that works; a gone owner leaves Idle; a direct save survives only as the recoverable copy. */
  lemma FailedCommitRollsBack(c: Codec, file: File, fault: Option<ReadFault>, actions: seq<Action>, a: Action)
    requires c.Faithful() && file.Valid()
    requires EndsUnpublished(Run(c, Start(c, file, fault), actions), a)
    ensures
      var w := Run(c, Start(c, file, fault), actions);
      var r := w.jobs[0];
      var next := Step(c, w, a).state;
      && RolledBack(r, OwnerLives(w), next)
      && (OwnerLives(w) ==> (RequireToken(next, Self, TokenOf(r.before, r.before.transaction.id)).None? <==> next.catalog < MaxU64))
      && next.ready == (r.written != Some(Err(Conflict)))
  {
    StartInv(c, file, fault);
    var w := Run(c, Start(c, file, fault), actions);
    RunInv(c, Start(c, file, fault), actions);
    UnpublishedRollsBack(c, w, a);
  }

  // Revisions.

  /** One step either keeps the catalog revision and what is shown up to its stamp, or raises the
      catalog revision, or finds it exhausted; and it changes `committed` only to a higher revision. */
  predicate Advances(s: State, next: State) {
    && (next.committed == s.committed || next.committed.revision > s.committed.revision)
    && s.catalog <= next.catalog
    && (s.catalog == next.catalog < MaxU64 ==> Shown(next).body == Shown(s).body)
  }

  lemma PreviewAdvances(c: Codec, w: World, a: Action)
    requires OneOwner(w) && Leased(w.state, w.tokens)
    requires a.Begin? || a.Update? || a.Cancel? || a.Edit? || a.Drop?
    ensures Advances(w.state, Step(c, w, a).state)
  {
  }

  lemma LaunchAdvances(c: Codec, w: World, a: Action)
    requires OneOwner(w) && Leased(w.state, w.tokens)
    requires a.Commit? || a.Save? || a.Ensure?
    ensures Advances(w.state, Step(c, w, a).state)
  {
  }

  lemma EndAdvances(c: Codec, w: World, a: Action)
    requires OneOwner(w)
    requires a.Finish? || a.Abandon?
    ensures Advances(w.state, Step(c, w, a).state)
  {
  }

  lemma ReadAdvances(c: Codec, s: State, snapshot: Result<Option<Entry>, Error>)
    ensures Advances(s, Settings.Reload(s, c, snapshot).0)
    ensures Advances(s, FollowFile(s, c, snapshot).0)
  {
  }

  lemma FileAdvances(c: Codec, w: World, a: Action)
    requires a.Reopen? || a.Follow? || a.Write? || a.ForeignWrite? || a.ForeignRemove?
    ensures Advances(w.state, Step(c, w, a).state)
  {
    if a.Reopen? || a.Follow? { ReadAdvances(c, w.state, Snapshot(w.file, a.fault)); }
  }

  lemma RecoveryAdvances(c: Codec, s: State, written: Result<StorageCommit, StorageError>)
    ensures Advances(s, Settings.Recover(s, c, written).0)
  {
  }

  lemma RecoverAdvances(c: Codec, w: World, a: Action)
    requires a.Reset?
    ensures Advances(w.state, Step(c, w, a).state)
  {
    var (moved, refused) := MoveAside(w, a.generation, a.moving);
    var open := if a.intruder.Some? then Intrude(moved, a.intruder.value) else moved;
    assert open.state == w.state;
    if refused.Some? { RecoveryAdvances(c, w.state, Err(refused.value)); }
    else if c.encode(c.default).Ok? {
      RecoveryAdvances(c, w.state, StoreWrite(open.file, None, c.encode(c.default).value, a.choice).1);
    }
  }

  lemma StepAdvances(c: Codec, w: World, a: Action)
    requires Inv(w)
    ensures Advances(w.state, Step(c, w, a).state)
  {
    match a
    case Begin(_) => PreviewAdvances(c, w, a);
    case Update(_, _) => PreviewAdvances(c, w, a);
    case Cancel(_) => PreviewAdvances(c, w, a);
    case Edit(_, _, _) => PreviewAdvances(c, w, a);
    case Drop(_) => PreviewAdvances(c, w, a);
    case Commit(_) => LaunchAdvances(c, w, a);
    case Save(_, _) => LaunchAdvances(c, w, a);
    case Ensure => LaunchAdvances(c, w, a);
    case Finish(_) => EndAdvances(c, w, a);
    case Abandon(_) => EndAdvances(c, w, a);
    case Reset(_, _, _, _) => RecoverAdvances(c, w, a);
    case _ => FileAdvances(c, w, a);
  }

  /** `committed.revision` strictly increases with every change of `committed`, and two moments of
      a run with the same catalog revision below the maximum show the same document. */
  lemma {:induction false} RunAdvances(c: Codec, w: World, actions: seq<Action>)
    requires c.Faithful() && Inv(w)
    ensures Advances(w.state, Run(c, w, actions).state)
    decreases |actions|
  {
    if actions != [] {
      var shorter := actions[..|actions| - 1];
      RunAdvances(c, w, shorter);
      RunInv(c, w, shorter);
      StepAdvances(c, Run(c, w, shorter), actions[|actions| - 1]);
    }
  }

  /** A theme change planned while looking at one state is applied, however much later, only to the
      document it was planned against. */
  lemma StalePlanIsRefused(c: Codec, file: File, fault: Option<ReadFault>, before: seq<Action>, between: seq<Action>,
                           t: Token, plan: Document -> Result<string, Error>)
    requires c.Faithful() && file.Valid()
    ensures
      var seen := Run(c, Start(c, file, fault), before);
      var now := Run(c, seen, between);
      PlannedEdit(now.state, c, Self, t, seen.state.catalog, plan).1.Ok? ==>
        now.state.transaction.Preview? && now.state.transaction.candidate.body == Shown(seen.state).body
  {
    StartInv(c, file, fault);
    var seen := Run(c, Start(c, file, fault), before);
    RunInv(c, Start(c, file, fault), before);
    RunAdvances(c, seen, between);
  }
}
