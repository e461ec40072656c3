/** The Settings transaction: one shared state with a preview lease, a detached commit and two
    revision counters. Each operation is a function on the state; `SettingsStore` has the class that
    updates its fields in place and is proved to compute these functions. */
module Settings {
  import opened Common
  import opened PrivateFile

  datatype StorageError = Unavailable | Unsafe | Conflict | TooLarge

  datatype Error =
    | Busy
    | Stale
    | RevisionExhausted
    | Invalid
    | Unsupported
    | Outdated
    | Import
    | Catalog
    | Storage(cause: StorageError)
  {
    predicate IsMalformed() {
      Invalid? || Outdated? || this == Storage(TooLarge)
    }
  }

  /** `body` stands for every setting; only the revision stamp matters to the transaction. */
  datatype Document = Document(revision: u64, body: string)

  /** Document encoding and decoding, which the transaction only calls. */
  datatype Codec = Codec(
    encode: Document -> Result<Bytes, Error>,
    parse: Bytes -> Result<Document, Error>,
    default: Document)
  {
    /** A document read back from its own encoding keeps its revision. */
    ghost predicate Faithful() {
      forall d :: encode(d).Ok? && parse(encode(d).value).Ok? ==> parse(encode(d).value).value.revision == d.revision
    }

    function Validate(candidate: Document, revision: u64): Result<Document, Error> {
      if candidate.revision != revision then Err(Stale)
      else match encode(candidate)
        case Err(e) => Err(e)
        case Ok(bytes) => parse(bytes)
    }

    /** The document in a file, or the default when there is no file. */
    function Decode(entry: Option<Entry>): Result<(Document, Option<Identity>), Error> {
      match entry
      case None => Ok((default, None))
      case Some(e) =>
        match parse(e.bytes)
        case Err(error) => Err(error)
        case Ok(document) => Ok((document, Some(e.identity)))
    }
  }

  datatype Transaction =
    | Idle
    | Preview(id: u64, candidate: Document)
    | Committing(owner: Option<u64>, candidate: Document, ownerAlive: bool)

  datatype State = State(
    committed: Document,
    recoverable: Option<Document>,
    catalog: u64,
    expected: Option<Identity>,
    ready: bool,
    status: Option<Error>,
    nextPreview: u64,
    transaction: Transaction)

  /** `instance` names the Settings a token came from. */
  datatype Token = Token(instance: nat, id: u64, revision: u64)

  datatype Job = Job(candidate: Document, bytes: Bytes, expected: Option<Identity>)

  datatype Durability = Synchronized | Uncertain

  datatype StorageCommit = StorageCommit(durability: Durability, identity: Option<Identity>)

  datatype CommitOutcome = CommitOutcome(revision: u64, durability: Durability, reloadRequired: bool)

  // Guards. `None` lets the operation proceed.

  function RequireCatalog(s: State, revision: u64): Option<Error> {
    if s.catalog == MaxU64 then Some(RevisionExhausted)
    else if revision != s.catalog then Some(Stale)
    else None
  }

  function RequireIdle(s: State, revision: u64): Option<Error> {
    if !s.transaction.Idle? then Some(Busy)
    else if s.committed.revision != revision then Some(Stale)
    else RequireCatalog(s, s.catalog)
  }

  function RequireToken(s: State, instance: nat, t: Token): Option<Error> {
    if s.catalog == MaxU64 then Some(RevisionExhausted)
    else if t.instance != instance || t.revision != s.committed.revision then Some(Stale)
    else match s.transaction
      case Preview(id, _) => if id == t.id then None else Some(Stale)
      case Committing(_, _, _) => Some(Busy)
      case Idle => Some(Stale)
  }

  /** Saturates: dropping a lease cannot report an error. */
  function Retire(s: State): State {
    s.(catalog := if s.catalog < MaxU64 then s.catalog + 1 else MaxU64)
  }

  /** The document every surface presents. A direct save is not previewed. */
  function Shown(s: State): Document {
    match s.transaction
    case Idle => s.committed
    case Preview(_, candidate) => candidate
    case Committing(owner, candidate, _) => if owner.Some? then candidate else s.committed
  }

  // Operations.

  /** What opening Settings leaves: nothing is written, and an unreadable file is not trusted. */
  function Load(codec: Codec, read: Result<(Document, Option<Identity>), Error>): State {
    var blank := State(codec.default, None, 0, None, false, None, 0, Idle);
    match read
    case Ok((document, identity)) => blank.(committed := document, expected := identity, ready := true)
    case Err(e) => blank.(status := Some(e))
  }

  function BeginPreview(s: State, instance: nat, revision: u64): (State, Result<Token, Error>) {
    match RequireIdle(s, revision)
    case Some(e) => (s, Err(e))
    case None =>
      if s.nextPreview == MaxU64 then (s, Err(RevisionExhausted))
      else
        var id := s.nextPreview + 1;
        (Retire(s.(nextPreview := id, transaction := Preview(id, s.committed))), Ok(Token(instance, id, revision)))
  }

  function UpdatePreview(s: State, codec: Codec, instance: nat, t: Token, candidate: Document): (State, Option<Error>) {
    match RequireToken(s, instance, t)
    case Some(e) => (s, Some(e))
    case None =>
      match codec.Validate(candidate, t.revision)
      case Err(e) => (s, Some(e))
      case Ok(d) => (Retire(s.(transaction := Preview(t.id, d))), None)
  }

  function CancelPreview(s: State, instance: nat, t: Token): (State, Option<Error>) {
    match RequireToken(s, instance, t)
    case Some(e) => (s, Some(e))
    case None => (Retire(s.(transaction := Idle)), None)
  }

  /** A theme import or removal planned against the catalog revision `catalog`. */
  function PlannedEdit(s: State, codec: Codec, instance: nat, t: Token, catalog: u64,
                       plan: Document -> Result<string, Error>): (State, Result<u64, Error>)
  {
    match RequireToken(s, instance, t)
    case Some(e) => (s, Err(e))
    case None =>
      match RequireCatalog(s, catalog)
      case Some(e) => (s, Err(e))
      case None =>
        match plan(s.transaction.candidate)
        case Err(e) => (s, Err(e))
        case Ok(body) =>
          var revision := s.transaction.candidate.revision;
          match codec.Validate(Document(revision, body), revision)
          case Err(e) => (s, Err(e))
          case Ok(d) =>
            var next := Retire(s.(transaction := Preview(t.id, d)));
            (next, Ok(next.catalog))
  }

  function PrepareCommit(s: State, codec: Codec, owner: Option<u64>, candidate: Document): (State, Result<Job, Error>) {
    if !s.ready then (s, Err(if s.status.Some? then s.status.value else Storage(Conflict)))
    else if s.committed.revision == MaxU64 then (s, Err(RevisionExhausted))
    else
      var stamped := candidate.(revision := s.committed.revision + 1);
      match codec.encode(stamped)
      case Err(e) => (s, Err(e))
      case Ok(bytes) =>
        (s.(transaction := Committing(owner, stamped, true)), Ok(Job(stamped, bytes, s.expected)))
  }

  function CommitPreview(s: State, codec: Codec, instance: nat, t: Token): (State, Result<Job, Error>) {
    match RequireToken(s, instance, t)
    case Some(e) => (s, Err(e))
    case None => PrepareCommit(s, codec, Some(t.id), s.transaction.candidate)
  }

  function PrepareDirect(s: State, codec: Codec, candidate: Document): (State, Result<Job, Error>) {
    match codec.Validate(candidate, s.committed.revision)
    case Err(e) => (s, Err(e))
    case Ok(d) =>
      var (next, job) := PrepareCommit(s, codec, None, d);
      (if job.Err? then next.(recoverable := Some(d)) else next, job)
  }

  function UpdateCommitted(s: State, codec: Codec, revision: u64, candidate: Document): (State, Result<Job, Error>) {
    match RequireIdle(s, revision)
    case Some(e) => (s, Err(e))
    case None => PrepareDirect(s, codec, candidate)
  }

  /** The write that creates a missing file; `Ok(None)` when there is nothing to create. */
  function EnsureFile(s: State, codec: Codec): (State, Result<Option<Job>, Error>) {
    if !s.transaction.Idle? then (s, Err(Busy))
    else if s.expected.Some? || !s.ready then (s, Ok(None))
    else
      var (next, job) := PrepareDirect(s, codec, s.committed);
      (next, match job case Err(e) => Err(e) case Ok(j) => Ok(Some(j)))
  }

  function Adopt(s: State, read: Result<(Document, Option<Identity>), Error>): (State, Option<Error>) {
    match read
    case Err(e) => (s.(ready := false, status := Some(e)), Some(e))
    case Ok((document, identity)) =>
      if s.committed.revision == MaxU64 then (s, Some(RevisionExhausted))
      else
        var floor := s.committed.revision + 1;
        var revision := if document.revision < floor then floor else document.revision;
        (Retire(s.(committed := document.(revision := revision), expected := identity, ready := true, status := None)), None)
  }

  /** `snapshot` is what reading the file gives, or why it could not be read. */
  function Read(codec: Codec, snapshot: Result<Option<Entry>, Error>): Result<(Document, Option<Identity>), Error> {
    match snapshot
    case Err(e) => Err(e)
    case Ok(entry) => codec.Decode(entry)
  }

  function Reload(s: State, codec: Codec, snapshot: Result<Option<Entry>, Error>): (State, Option<Error>) {
    if !s.transaction.Idle? then (s, Some(Busy))
    else if s.catalog == MaxU64 then (s, Some(RevisionExhausted))
    else Adopt(s, Read(codec, snapshot))
  }

  predicate Unchanged(s: State, snapshot: Result<Option<Entry>, Error>) {
    s.ready && s.status.None? && snapshot.Ok? &&
    s.expected == (if snapshot.value.Some? then Some(snapshot.value.value.identity) else None)
  }

  /** `Ok(true)` when another program's document was adopted. */
  function FollowFile(s: State, codec: Codec, snapshot: Result<Option<Entry>, Error>): (State, Result<bool, Error>) {
    if !s.transaction.Idle? then (s, Err(Busy))
    else if s.catalog == MaxU64 then (s, Err(RevisionExhausted))
    else if Unchanged(s, snapshot) then (s, Ok(false))
    else
      var (next, refused) := Adopt(s, Read(codec, snapshot));
      (next, if refused.Some? then Err(refused.value) else Ok(true))
  }

  /** Ends a commit that was not published. */
  function Restore(s: State): State {
    var next := Retire(s.(transaction := Idle));
    match s.transaction
    case Committing(owner, candidate, ownerAlive) =>
      var restored := candidate.(revision := s.committed.revision);
      (match owner
       case None => next.(recoverable := Some(restored))
       case Some(id) => if ownerAlive then next.(transaction := Preview(id, restored)) else next)
    case _ => next
  }

  /** What a job records once its write returned `written`. */
  function Complete(s: State, job: Job, written: Result<StorageCommit, StorageError>): (State, Result<CommitOutcome, Error>) {
    match written
    case Ok(commit) =>
      var reload := commit.identity.None?;
      (Retire(s.(committed := job.candidate, recoverable := None, expected := commit.identity, ready := !reload,
                 status := if reload then Some(Storage(Conflict)) else None, transaction := Idle)),
       Ok(CommitOutcome(job.candidate.revision, commit.durability, reload)))
    case Err(cause) =>
      var noted := s.(status := Some(Storage(cause)), ready := s.ready && cause != Conflict);
      (Restore(noted), Err(Storage(cause)))
  }

  function DropToken(s: State, id: u64): State {
    match s.transaction
    case Preview(current, _) => if current == id then Retire(s.(transaction := Idle)) else s
    case Committing(owner, candidate, _) => if owner == Some(id) then s.(transaction := Committing(owner, candidate, false)) else s
    case Idle => s
  }

  datatype RecoveryError = NotMalformed | RecoveryBusy | RecoveryExhausted | RecoveryStorage(cause: StorageError)

  /** Whether Settings Recovery may move the file aside and write the defaults. */
  function RequireRecovery(s: State): Option<RecoveryError> {
    if !s.transaction.Idle? then Some(RecoveryBusy)
    else if s.ready || s.status.None? || !s.status.value.IsMalformed() then Some(NotMalformed)
    else if s.committed.revision == MaxU64 || s.catalog == MaxU64 then Some(RecoveryExhausted)
    else None
  }

  /** Settings Recovery after the storage moved the file aside and wrote the defaults over nothing. */
  function Recover(s: State, codec: Codec, written: Result<StorageCommit, StorageError>): (State, Option<RecoveryError>) {
    match RequireRecovery(s)
    case Some(e) => (s, Some(e))
    case None =>
      match written
      case Err(cause) => (s.(status := Some(Storage(cause))), Some(RecoveryStorage(cause)))
      case Ok(commit) =>
        var reload := commit.identity.None?;
        (Retire(s.(committed := codec.default.(revision := s.committed.revision + 1), recoverable := None,
                   expected := commit.identity, ready := !reload,
                   status := if reload then Some(Storage(Conflict)) else None)), None)
  }
}
