/** Settings with the world it runs in: the file other programs also write, the tokens and jobs its
    callers hold, and the journal of what happened to the file. Its calls, in any order, are a run. */
module SettingsDriver {
  import opened Common
  import opened PrivateFile
  import opened Settings
  import opened Journals
  import opened SettingsStore
  import opened Spec = SettingsRuns

  class Machine {
    const store: Store
    var file: File
    var observed: Option<Identity>
    var tokens: set<Token>
    var jobs: seq<Running>
    var journal: Journal

    ghost predicate Valid() {
      store.instance == Self
    }

    function View(): World
      reads this, store
    {
      World(store.View(), file, observed, tokens, jobs, journal)
    }

    constructor (codec: Codec, file: File, fault: Option<ReadFault>)
      ensures Valid() && fresh(store) && store.codec == codec && View() == Start(codec, file, fault)
    {
      store := new Store(Self, codec, Snapshot(file, fault));
      this.file, observed := file, None;
      tokens, jobs := {}, [];
      journal := Noted(Notes([], Spec.Blank, true), Foreign(file.Current()));
      new;
      var read := ReadFile(codec, file, fault);
      Look(fault);
      Note(if read.Ok? then Adopted(read.value.1) else Refused);
    }

    method Note(e: Event)
      modifies this`journal
      ensures View() == old(View()).Note(e)
    {
      journal := Noted(journal, e);
    }

    /** Keeps the job of a commit prepared from the state `before`. */
    method Launch(job: Option<Job>, before: State)
      modifies this`jobs, this`journal
      ensures View() == Launched(old(View()).(state := before), old(store.View()), job)
    {
      if job.Some? {
        jobs := jobs + [Running(job.value, before, None)];
        Note(Prepared);
      }
    }

    /** Whether a caller can hold `t`. */
    predicate Has(t: Token)
      reads this
    {
      t in tokens || t.instance != Self
    }

    // Previews.

    method Preview(a: Action)
      requires Valid() && (a.Begin? || a.Update? || a.Cancel? || a.Edit? || a.Drop?)
      modifies this, store
      ensures View() == Step(store.codec, old(View()), a)
    {
      match a
      case Begin(revision) =>
        var r := store.BeginPreview(revision);
        if r.Ok? { tokens := tokens + {r.value}; }
      case Update(t, candidate) =>
        if Has(t) { var refused := store.UpdatePreview(t, candidate); }
      case Cancel(t) =>
        if Has(t) { var refused := store.CancelPreview(t); }
      case Edit(t, catalog, plan) =>
        if Has(t) { var r := store.PlannedEdit(t, catalog, plan); }
      case Drop(t) =>
        if t in tokens {
          store.DropToken(t.id);
          tokens := tokens - {t};
        }
    }

    // Commits.

    method Prepare(a: Action)
      requires Valid() && (a.Commit? || a.Save? || a.Ensure?)
      modifies this, store
      ensures View() == Step(store.codec, old(View()), a)
    {
      var before := store.View();
      match a
      case Commit(t) =>
        if Has(t) {
          var r := store.CommitPreview(t);
          Launch(Succeeded(r), before);
        }
      case Save(revision, candidate) =>
        var r := store.UpdateCommitted(revision, candidate);
        Launch(Succeeded(r), before);
      case Ensure =>
        var r := store.EnsureFile();
        Launch(match r case Ok(j) => j case Err(_) => None, before);
    }

    /** A job's conditional write, outside the lock. */
    method WriteJob(k: nat, choice: WriteChoice)
      modifies this
      ensures View() == Step(store.codec, old(View()), Write(k, choice))
    {
      if k >= |jobs| || jobs[k].written.Some? { return; }
      var (after, written) := StoreWrite(file, jobs[k].job.expected, jobs[k].job.bytes, choice);
      match written {
        case Ok(commit) => Note(Wrote(file.Current(), file.unused, commit.identity.Some?));
        case Err(cause) =>
          if after != file { Note(Stray(file.Current(), file.unused)); }
          if cause == Conflict { Note(Conflicted); }
      }
      file := after;
      jobs := jobs[k := jobs[k].(written := Some(written))];
    }

    method EndJob(a: Action)
      requires a.Finish? || a.Abandon?
      modifies this, store
      ensures View() == Step(store.codec, old(View()), a)
    {
      if a.k >= |jobs| || jobs[a.k].written.Some? != a.Finish? { return; }
      if a.Finish? {
        var r := store.Complete(jobs[a.k].job, jobs[a.k].written.value);
      } else {
        store.RestorePreviewAfterFailure();
      }
      jobs := Without(jobs, a.k);
    }

    // The file.

    /** Keeps the identity a reading found. */
    method Look(fault: Option<ReadFault>)
      modifies this`observed, this`journal
      ensures View() == Looked(old(View()), fault)
    {
      if fault.Some? && fault.value.Unprepared? { return; }
      observed := Observe(file, fault);
      Note(Event.Read(observed));
    }

    /** Notes a read of the file that Settings answered with `answer`. */
    method NoteRead(fault: Option<ReadFault>, answer: Result<bool, Error>)
      modifies this
      ensures View() == AfterRead(store.codec, old(View()), fault, old(View()).state, answer)
    {
      var read := ReadFile(store.codec, file, fault);
      Look(fault);
      if answer == Ok(true) && read.Ok? { Note(Adopted(read.value.1)); }
      else if answer.Err? && read.Err? { Note(Refused); }
    }

    method ReadAgain(a: Action)
      requires a.Reopen? || a.Follow?
      modifies this, store
      ensures View() == Step(store.codec, old(View()), a)
    {
      if !store.transaction.Idle? || store.catalog == MaxU64 { return; }
      var answer;
      if a.Reopen? {
        var refused := store.Reload(Snapshot(file, a.fault));
        answer := if refused.Some? then Err(refused.value) else Ok(true);
      } else {
        answer := store.FollowFile(Snapshot(file, a.fault));
      }
      NoteRead(a.fault, answer);
    }

    method Interfere(a: Action)
      requires a.ForeignWrite? || a.ForeignRemove?
      modifies this
      ensures View() == Step(store.codec, old(View()), a)
    {
      file := if a.ForeignWrite? then file.Published(a.bytes) else file.Removed();
      Note(Foreign(file.Current()));
    }

    // Recovery.

    method MoveAside(generation: Generation, fault: Option<StorageError>) returns (refused: Option<StorageError>)
      modifies this
      ensures (View(), refused) == Spec.MoveAside(old(View()), generation, fault)
    {
      match generation
      case SetsAside =>
        ResetAll();
        return None;
      case ResetFails(cause, after) =>
        if after { ResetAll(); }
        return Some(cause);
      case NotNeeded =>
        if observed.None? || file.Current() != observed { return Some(Conflict); }
        if fault.Some? { return fault; }
        Note(Quarantined(file.Current()));
        file := file.Removed();
        return None;
    }

    /** Moves whatever version is there aside. */
    method ResetAll()
      modifies this
      ensures View() == old(View()).(file := old(file).Removed()).Note(ResetAside(old(file).Current()))
    {
      Note(ResetAside(file.Current()));
      file := file.Removed();
    }

    method WriteDefaults(choice: WriteChoice)
      requires RequireRecovery(store.View()).None?
      modifies this, store
      ensures View() == Spec.WriteDefaults(store.codec, old(View()), choice)
    {
      var bytes := store.codec.encode(store.codec.default);
      if bytes.Err? { return; }
      var (after, written) := StoreWrite(file, None, bytes.value, choice);
      var refused := store.RecoverByReset(written);
      if after != file {
        Note(Defaulted(file.Current(), file.unused, written.Ok? && written.value.identity.Some?));
        file := after;
      }
    }

    method Recover(a: Action)
      requires a.Reset?
      modifies this, store
      ensures View() == Step(store.codec, old(View()), a)
    {
      if RequireRecovery(store.View()).Some? { return; }
      var refused := MoveAside(a.generation, a.moving);
      if a.intruder.Some? { Interfere(ForeignWrite(a.intruder.value)); }
      if refused.Some? {
        var failed := store.RecoverByReset(Err(refused.value));
      } else {
        WriteDefaults(a.choice);
      }
    }

    // Runs.

    method Perform(a: Action)
      requires Valid()
      modifies this, store
      ensures View() == Step(store.codec, old(View()), a)
    {
      match a
      case Write(k, choice) => WriteJob(k, choice);
      case Finish(_) => EndJob(a);
      case Abandon(_) => EndJob(a);
      case Reopen(_) => ReadAgain(a);
      case Follow(_) => ReadAgain(a);
      case Reset(_, _, _, _) => Recover(a);
      case ForeignWrite(_) => Interfere(a);
      case ForeignRemove => Interfere(a);
      case Commit(_) => Prepare(a);
      case Save(_, _) => Prepare(a);
      case Ensure => Prepare(a);
      case _ => Preview(a);
    }

    /** Calls Settings, and lets the file and its other writers act, as `actions` say. From a new machine
        the calls are a run, so whatever holds of every run holds of what they left. */
    method Drive(actions: seq<Action>)
      requires Valid()
      modifies this, store
      ensures View() == Run(store.codec, old(View()), actions)
    {
      assert actions[..0] == [];
      for i := 0 to |actions|
        invariant View() == Run(store.codec, old(View()), actions[..i])
      {
        assert actions[..i + 1][..i] == actions[..i];
        Perform(actions[i]);
      }
      assert actions[..|actions|] == actions;
    }
  }
}
