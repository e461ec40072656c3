/** The write authority over Saved Connections: one file, other writers, and an object that must not
    guess what it would overwrite. */
module SavedConnections {
  import opened Common
  import opened PrivateFile
  import opened Journals

  datatype SaveError = NotPublished | PublicationIndeterminate

  datatype Durability = Synchronized | Uncertain

  /** `blocked` after anything that leaves the file's version unknown. */
  datatype Authority = Authority(identity: Option<Identity>, blocked: bool)

  const Fresh: Authority := Authority(None, false)

  /** What a commit meets: a failure before it could publish, an error that may follow publication, or
      the compare and swap, with whether the published entry could be identified. */
  datatype Commit =
    | Unprepared
    | Errs(stray: bool)
    | Swaps(durability: Durability, identified: bool)

  /** A read that reaches the file; `accepts` is whether the caller takes its bytes. */
  function Read(a: Authority, file: File, fault: bool, accepts: bool): (Authority, bool) {
    if fault then (a.(blocked := true), false)
    else match file.entry
      case None => (Fresh, true)
      case Some(e) => if accepts then (Authority(Some(e.identity), false), true) else (a.(blocked := true), false)
  }

  datatype Saved = Saved(authority: Authority, file: File, result: Result<Durability, SaveError>)

  function Save(a: Authority, file: File, bytes: Bytes, c: Commit): Saved {
    if a.blocked then Saved(a, file, Err(PublicationIndeterminate))
    else match c
      case Unprepared => Saved(a, file, Err(NotPublished))
      case Errs(stray) =>
        Saved(a.(blocked := true), if stray && file.Current() == a.identity then file.Published(bytes) else file,
              Err(PublicationIndeterminate))
      case Swaps(durability, identified) =>
        if file.Current() != a.identity then Saved(a, file, Err(NotPublished))
        else Saved(if identified then Authority(Some(file.unused), false) else Authority(None, true), file.Published(bytes), Ok(durability))
  }

  // Runs.

  datatype Event =
    | Foreign(version: Option<Identity>)
    | Accepted(version: Option<Identity>)   // a read was taken, or found no file
    | Rejected
    | Published(replaced: Option<Identity>, id: Identity, identified: bool)
    | Strayed(replaced: Option<Identity>, id: Identity)
    | Errored

  /** `known` is the version this object may replace, at first only an absent file. */
  datatype Digest = Digest(known: Option<Option<Identity>>, disk: Option<Identity>)

  function Absorb(d: Digest, e: Event): Digest {
    match e
    case Foreign(v) => d.(disk := v)
    case Accepted(v) => d.(known := Some(v))
    case Rejected => d.(known := None)
    case Published(_, id, identified) => Digest(if identified then Some(Some(id)) else None, Some(id))
    case Strayed(_, id) => d.(disk := Some(id))
    case Errored => d.(known := None)
  }

  /** Only the known version, which the file then holds, is ever replaced. */
  predicate Lawful(d: Digest, e: Event) {
    match e
    case Accepted(v) => d.disk == v
    case Published(replaced, _, _) => d.known == Some(replaced) && d.disk == replaced
    case Strayed(replaced, _) => d.known == Some(replaced) && d.disk == replaced
    case _ => true
  }

  const Blank: Digest := Digest(Some(None), None)
  const Laws: Rules<Digest, Event> := Rules(Blank, Absorb, Lawful)

  type Journal = n: Notes<Digest, Event> | Genuine(Laws, n) ghost witness Notes([], Blank, true)

  function Noted(j: Journal, e: Event): (n: Journal)
    ensures n == Notes(j.log + [e], Absorb(j.now, e), j.lawful && Lawful(j.now, e))
  {
    GenuineGrows(Laws, j, e);
    Notes(j.log + [e], Absorb(j.now, e), j.lawful && Lawful(j.now, e))
  }

  /** What a log says. */
  function Said(log: seq<Event>): Digest {
    Digested(Laws, log)
  }

  datatype World = World(authority: Authority, file: File, journal: Journal) {
    function Note(e: Event): World { this.(journal := Noted(journal, e)) }
  }

  datatype Action =
    | ReadNow(fault: bool, accepts: bool)
    | SaveNow(bytes: Bytes, commit: Commit)
    | ForeignWrite(bytes: Bytes)
    | ForeignRemove

  function Start(file: File): World {
    World(Fresh, file, Notes([], Blank, true)).Note(Foreign(file.Current()))
  }

  function Step(w: World, a: Action): World {
    match a
    case ReadNow(fault, accepts) =>
      var (authority, taken) := Read(w.authority, w.file, fault, accepts);
      w.(authority := authority).Note(if taken then Accepted(w.file.Current()) else Rejected)
    case SaveNow(bytes, c) =>
      var s := Save(w.authority, w.file, bytes, c);
      var next := w.(authority := s.authority, file := s.file);
      if w.authority.blocked then w
      else if s.result.Ok? then next.Note(Published(w.file.Current(), w.file.unused, !s.authority.blocked))
      else if !c.Errs? then next
      else if s.file != w.file then next.Note(Strayed(w.file.Current(), w.file.unused)).Note(Errored)
      else next.Note(Errored)
    case ForeignWrite(bytes) => w.(file := w.file.Published(bytes)).Note(Foreign(w.file.Published(bytes).Current()))
    case ForeignRemove => w.(file := w.file.Removed()).Note(Foreign(None))
  }

  function Run(w: World, actions: seq<Action>): World
    decreases |actions|
  {
    if actions == [] then w else Step(Run(w, actions[..|actions| - 1]), actions[|actions| - 1])
  }

  predicate Inv(w: World) {
    && w.journal.lawful && w.file.Valid() && w.journal.now.disk == w.file.Current()
    && w.journal.now.known == if w.authority.blocked then None else Some(w.authority.identity)
  }

  lemma SaveInv(w: World, bytes: Bytes, c: Commit)
    requires Inv(w) && !w.authority.blocked
    ensures Inv(Step(w, SaveNow(bytes, c)))
  {
    var s := Save(w.authority, w.file, bytes, c);
    if c.Errs? && s.file != w.file {
      assert w.Note(Strayed(w.file.Current(), w.file.unused)).journal.lawful;
    }
  }

  lemma StepInv(w: World, a: Action)
    requires Inv(w)
    ensures Inv(Step(w, a))
  {
    if a.SaveNow? && !w.authority.blocked { SaveInv(w, a.bytes, a.commit); }
  }

  lemma {:induction false} RunInv(file: File, actions: seq<Action>)
    requires file.Valid()
    ensures Inv(Run(Start(file), actions))
    decreases |actions|
  {
    if actions != [] {
      RunInv(file, actions[..|actions| - 1]);
      StepInv(Run(Start(file), actions[..|actions| - 1]), actions[|actions| - 1]);
    }
  }

  lemma {:induction false} KnownOrigin(log: seq<Event>) returns (i: int)
    requires Said(log).known.Some?
    ensures -1 <= i < |log|
    ensures forall j | i < j < |log| :: log[j].Foreign? || log[j].Strayed?
    ensures
      if i == -1 then Said(log).known == Some(None)
      else log[i] == Accepted(Said(log).known.value) || (log[i].Published? && log[i].identified && Said(log).known == Some(Some(log[i].id)))
    decreases |log|
  {
    var n := |log| - 1;
    if n < 0 { i := -1; }
    else if log[n].Accepted? || log[n].Published? { i := n; }
    else { i := KnownOrigin(log[..n]); }
  }

  /** What a lawful save at `k` follows: see `SavesOnlyOverTheAcceptedEntry`. */
  ghost predicate OverTheAcceptedEntry(log: seq<Event>, k: nat, i: int)
    requires k < |log| && (log[k].Published? || log[k].Strayed?)
  {
    && -1 <= i < k && Said(log[..k]).disk == log[k].replaced
    && (forall j | i < j < k :: log[j].Foreign? || log[j].Strayed?)
    && (if i == -1 then log[k].replaced.None?
        else log[i] == Accepted(log[k].replaced) || (log[i].Published? && log[i].identified && log[k].replaced == Some(log[i].id)))
  }

  lemma SaveOrigin(log: seq<Event>, k: nat) returns (i: int)
    requires AllLawful(Laws, log) && k < |log| && (log[k].Published? || log[k].Strayed?)
    ensures OverTheAcceptedEntry(log, k, i)
  {
    LawfulAt(Laws, log, k);
    i := KnownOrigin(log[..k]);
  }

  /** Over every run with competing writers, a save replaces, at `k`, exactly what the file then holds:
      the entry last accepted or published by this object at `i`, or no file at all; and since then no
      read was rejected, no commit erred and no publication went unidentified. */
  lemma SavesOnlyOverTheAcceptedEntry(file: File, actions: seq<Action>, k: nat) returns (i: int)
    requires file.Valid()
    requires
      var log := Run(Start(file), actions).journal.log;
      k < |log| && (log[k].Published? || log[k].Strayed?)
    ensures OverTheAcceptedEntry(Run(Start(file), actions).journal.log, k, i)
  {
    RunInv(file, actions);
    GenuineSays(Laws, Run(Start(file), actions).journal);
    i := SaveOrigin(Run(Start(file), actions).journal.log, k);
  }

  /** The object itself: its fields change around the file operations. */
  class RecordFile {
    var identity: Option<Identity>
    var blocked: bool
    var file: File

    function View(): Authority
      reads this
    {
      Authority(identity, blocked)
    }

    constructor (file: File)
      ensures View() == Fresh && this.file == file
    {
      identity, blocked := None, false;
      this.file := file;
    }

    method Load(fault: bool, accepts: bool) returns (taken: bool)
      modifies this`identity, this`blocked
      ensures (View(), taken) == Read(old(View()), file, fault, accepts)
    {
      blocked := true;
      if fault { return false; }
      if file.entry.None? {
        identity, blocked := None, false;
        return true;
      }
      if !accepts { return false; }
      identity, blocked := Some(file.entry.value.identity), false;
      return true;
    }

    method Store(bytes: Bytes, c: Commit) returns (r: Result<Durability, SaveError>)
      modifies this
      ensures Saved(View(), file, r) == Save(old(View()), old(file), bytes, c)
    {
      if blocked { return Err(PublicationIndeterminate); }
      match c
      case Unprepared => return Err(NotPublished);
      case Errs(stray) =>
        if stray && file.Current() == identity { file := file.Published(bytes); }
        blocked := true;
        return Err(PublicationIndeterminate);
      case Swaps(durability, identified) =>
        if file.Current() != identity { return Err(NotPublished); }
        file := file.Published(bytes);
        blocked := !identified;
        identity := if identified then file.Current() else None;
        return Ok(durability);
    }
  }
}
