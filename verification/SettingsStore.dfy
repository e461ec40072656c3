/** Settings as the program keeps it: one object whose operations update its fields in place under
    its lock. Each is proved to compute the function of the same name on the state. */
module SettingsStore {
  import opened Common
  import opened PrivateFile
  import opened Spec = Settings

  class Store {
    const instance: nat
    const codec: Codec
    var committed: Document
    var recoverable: Option<Document>
    var catalog: u64
    var expected: Option<Identity>
    var ready: bool
    var status: Option<Error>
    var nextPreview: u64
    var transaction: Transaction

    function View(): State
      reads this
    {
      State(committed, recoverable, catalog, expected, ready, status, nextPreview, transaction)
    }

    /** Starts from one reading of the file; an error leaves the defaults and blocks writing. */
    constructor (instance: nat, codec: Codec, snapshot: Result<Option<Entry>, Error>)
      ensures this.instance == instance && this.codec == codec
      ensures View() == Load(codec, Read(codec, snapshot))
    {
      this.instance, this.codec := instance, codec;
      committed, recoverable, catalog := codec.default, None, 0;
      expected, ready, status := None, false, None;
      nextPreview, transaction := 0, Idle;
      new;
      match Read(codec, snapshot)
      case Ok((document, identity)) =>
        committed, expected, ready := document, identity, true;
      case Err(e) =>
        status := Some(e);
    }

    method RetireCatalogRevision()
      modifies this`catalog
      ensures View() == Retire(old(View()))
    {
      if catalog < MaxU64 { catalog := catalog + 1; }
    }

    method BeginPreview(revision: u64) returns (r: Result<Token, Error>)
      modifies this
      ensures (View(), r) == Spec.BeginPreview(old(View()), instance, revision)
    {
      var refused := RequireIdle(View(), revision);
      if refused.Some? { return Err(refused.value); }
      if nextPreview == MaxU64 { return Err(RevisionExhausted); }
      nextPreview := nextPreview + 1;
      transaction := Preview(nextPreview, committed);
      RetireCatalogRevision();
      return Ok(Token(instance, nextPreview, revision));
    }

    method UpdatePreview(t: Token, candidate: Document) returns (refused: Option<Error>)
      modifies this
      ensures (View(), refused) == Spec.UpdatePreview(old(View()), codec, instance, t, candidate)
    {
      refused := RequireToken(View(), instance, t);
      if refused.Some? { return; }
      var valid := codec.Validate(candidate, t.revision);
      if valid.Err? { return Some(valid.error); }
      if transaction.Preview? {
        transaction := Preview(transaction.id, valid.value);
      }
      RetireCatalogRevision();
    }

    method CancelPreview(t: Token) returns (refused: Option<Error>)
      modifies this
      ensures (View(), refused) == Spec.CancelPreview(old(View()), instance, t)
    {
      refused := RequireToken(View(), instance, t);
      if refused.None? {
        transaction := Idle;
        RetireCatalogRevision();
      }
    }

    method PlannedEdit(t: Token, planned: u64, plan: Document -> Result<string, Error>) returns (r: Result<u64, Error>)
      modifies this
      ensures (View(), r) == Spec.PlannedEdit(old(View()), codec, instance, t, planned, plan)
    {
      var refused := RequireToken(View(), instance, t);
      if refused.Some? { return Err(refused.value); }
      refused := RequireCatalog(View(), planned);
      if refused.Some? { return Err(refused.value); }
      var current := transaction.candidate;
      var body := plan(current);
      if body.Err? { return Err(body.error); }
      var valid := codec.Validate(current.(body := body.value), current.revision);
      if valid.Err? { return Err(valid.error); }
      transaction := Preview(t.id, valid.value);
      RetireCatalogRevision();
      return Ok(catalog);
    }

    method PrepareCommit(owner: Option<u64>, candidate: Document) returns (r: Result<Job, Error>)
      modifies this`transaction
      ensures (View(), r) == Spec.PrepareCommit(old(View()), codec, owner, candidate)
    {
      if !ready { return Err(if status.Some? then status.value else Storage(Conflict)); }
      if committed.revision == MaxU64 { return Err(RevisionExhausted); }
      var stamped := candidate.(revision := committed.revision + 1);
      var bytes := codec.encode(stamped);
      if bytes.Err? { return Err(bytes.error); }
      transaction := Committing(owner, stamped, true);
      return Ok(Job(stamped, bytes.value, expected));
    }

    method CommitPreview(t: Token) returns (r: Result<Job, Error>)
      modifies this
      ensures (View(), r) == Spec.CommitPreview(old(View()), codec, instance, t)
    {
      var refused := RequireToken(View(), instance, t);
      if refused.Some? { return Err(refused.value); }
      r := PrepareCommit(Some(t.id), transaction.candidate);
    }

    method PrepareDirect(candidate: Document) returns (r: Result<Job, Error>)
      modifies this
      ensures (View(), r) == Spec.PrepareDirect(old(View()), codec, candidate)
    {
      var valid := codec.Validate(candidate, committed.revision);
      if valid.Err? { return Err(valid.error); }
      r := PrepareCommit(None, valid.value);
      if r.Err? { recoverable := Some(valid.value); }
    }

    method UpdateCommitted(revision: u64, candidate: Document) returns (r: Result<Job, Error>)
      modifies this
      ensures (View(), r) == Spec.UpdateCommitted(old(View()), codec, revision, candidate)
    {
      var refused := RequireIdle(View(), revision);
      if refused.Some? { return Err(refused.value); }
      r := PrepareDirect(candidate);
    }

    method EnsureFile() returns (r: Result<Option<Job>, Error>)
      modifies this
      ensures (View(), r) == Spec.EnsureFile(old(View()), codec)
    {
      if !transaction.Idle? { return Err(Busy); }
      if expected.Some? || !ready { return Ok(None); }
      var job := PrepareDirect(committed);
      match job
      case Ok(j) => return Ok(Some(j));
      case Err(e) => return Err(e);
    }

    method Adopt(read: Result<(Document, Option<Identity>), Error>) returns (refused: Option<Error>)
      modifies this
      ensures (View(), refused) == Spec.Adopt(old(View()), read)
    {
      match read
      case Err(e) =>
        ready, status := false, Some(e);
        return Some(e);
      case Ok((document, identity)) =>
        if committed.revision == MaxU64 { return Some(RevisionExhausted); }
        var revision := document.revision;
        if revision < committed.revision + 1 { revision := committed.revision + 1; }
        committed, expected := document.(revision := revision), identity;
        ready, status := true, None;
        RetireCatalogRevision();
        return None;
    }

    method Reload(snapshot: Result<Option<Entry>, Error>) returns (refused: Option<Error>)
      modifies this
      ensures (View(), refused) == Spec.Reload(old(View()), codec, snapshot)
    {
      if !transaction.Idle? { return Some(Busy); }
      if catalog == MaxU64 { return Some(RevisionExhausted); }
      refused := Adopt(Read(codec, snapshot));
    }

    method FollowFile(snapshot: Result<Option<Entry>, Error>) returns (r: Result<bool, Error>)
      modifies this
      ensures (View(), r) == Spec.FollowFile(old(View()), codec, snapshot)
    {
      if !transaction.Idle? { return Err(Busy); }
      if catalog == MaxU64 { return Err(RevisionExhausted); }
      var same := ready && status.None? && (
        match snapshot
        case Ok(Some(entry)) => expected == Some(entry.identity)
        case Ok(None) => expected.None?
        case Err(_) => false);
      if same { return Ok(false); }
      var refused := Adopt(Read(codec, snapshot));
      if refused.Some? { return Err(refused.value); }
      return Ok(true);
    }

    method RestorePreviewAfterFailure()
      modifies this
      ensures View() == Restore(old(View()))
    {
      var ended := transaction;
      transaction := Idle;
      RetireCatalogRevision();
      if ended.Committing? {
        var candidate := ended.candidate.(revision := committed.revision);
        if ended.owner.None? {
          recoverable := Some(candidate);
        } else if ended.ownerAlive {
          transaction := Preview(ended.owner.value, candidate);
        }
      }
    }

    /** The second half of running a job, once its write returned. */
    method Complete(job: Job, written: Result<StorageCommit, StorageError>) returns (r: Result<CommitOutcome, Error>)
      modifies this
      ensures (View(), r) == Spec.Complete(old(View()), job, written)
    {
      match written
      case Ok(commit) =>
        var reload := commit.identity.None?;
        committed, recoverable, expected := job.candidate, None, commit.identity;
        ready := !reload;
        status := if reload then Some(Storage(Conflict)) else None;
        transaction := Idle;
        RetireCatalogRevision();
        return Ok(CommitOutcome(job.candidate.revision, commit.durability, reload));
      case Err(cause) =>
        status := Some(Storage(cause));
        if cause == Conflict { ready := false; }
        RestorePreviewAfterFailure();
        return Err(Storage(cause));
    }

    method DropToken(id: u64)
      modifies this
      ensures View() == Spec.DropToken(old(View()), id)
    {
      if transaction.Preview? && transaction.id == id {
        transaction := Idle;
        RetireCatalogRevision();
      } else if transaction.Committing? && transaction.owner == Some(id) {
        transaction := transaction.(ownerAlive := false);
      }
    }

    /** `written` is what moving the file aside and writing the defaults over nothing returned. */
    method RecoverByReset(written: Result<StorageCommit, StorageError>) returns (refused: Option<RecoveryError>)
      modifies this
      ensures (View(), refused) == Spec.Recover(old(View()), codec, written)
    {
      refused := RequireRecovery(View());
      if refused.Some? { return; }
      match written
      case Err(cause) =>
        status := Some(Storage(cause));
        return Some(RecoveryStorage(cause));
      case Ok(commit) =>
        committed := codec.default.(revision := committed.revision + 1);
        recoverable, expected := None, commit.identity;
        ready := expected.Some?;
        status := if ready then None else Some(Storage(Conflict));
        RetireCatalogRevision();
    }
  }
}
