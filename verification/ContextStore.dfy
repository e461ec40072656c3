/** The context one process keeps: the document it presents, changed through the retry loop. */
module ContextStore {
  import opened Common
  import opened PrivateFile
  import opened Spec = CoreContext

  class Context {
    const rules: Rules
    var document: Document
    var file: File

    ghost predicate Valid()
      reads this
    {
      rules.Faithful() && rules.Valid(document) && file.Valid()
    }

    constructor (rules: Rules, file: File)
      requires rules.Faithful() && file.Valid()
      ensures Valid() && this.rules == rules && this.file == file && document == Blank
    {
      this.rules, this.file := rules, file;
      document := Blank;
    }

    /** Reads the retained document, unless the storage fails; an error leaves the inert default. */
    method Load(readable: bool) returns (error: Option<ContextError>)
      requires Valid()
      modifies this`document
      ensures Valid()
      ensures !readable ==> error == Some(Unavailable) && document == old(document)
      ensures readable ==> match rules.Read(file.entry)
        case Some(d) => error.None? && document == d
        case None => error == Some(Malformed) && document == old(document)
    {
      if !readable { return Some(Unavailable); }
      var read := rules.Read(file.entry);
      if read.None? { return Some(Malformed); }
      document := read.value;
      return None;
    }

    /** Applies `change` to whatever the file holds, up to eight times, and to what is presented even
        when the storage fails. Other processes write as `script` says. A good or uncertain result is
        what the file holds when the call returns; unreadable retained data is never replaced and then
        nothing changes; and what is presented always validates. It is the change applied to what was
        read last, `seen`, which is what a publication replaces, or to what was presented before. */
    method Update(change: Change, script: seq<Attempt>)
      returns (error: Option<ContextError>, seen: Option<Option<Entry>>, published: seq<Publication>)
      requires Valid() && |script| == Attempts
      modifies this
      ensures Valid()
      ensures |published| <= 1
      ensures forall p <- published :: Applies(rules, change, p) && seen == Some(p.replaced) && p.document == document
      ensures error.None? || error == Some(DurabilityUncertain) ==> rules.Read(file.entry) == Some(document)
      ensures error == Some(Malformed) ==> document == old(document) && published == []
      ensures error != Some(Malformed) ==> document == change(Base(rules, old(document), seen))
      ensures !rules.Valid(change(old(document))) ==> error == Some(Malformed) && file == old(file)
      ensures rules.Valid(change(old(document))) ==>
        var t := Try(rules, change, old(file), change(old(document)), None, script, 0);
        && file == t.file && published == t.published && seen == t.seen
        && (match t.result
            case Ok((d, synced)) => document == d && error == (if synced then None else Some(DurabilityUncertain))
            case Err(e) => error == Some(e) && document == if e == Unavailable then t.displayed else old(document))
    {
      seen, published := None, [];
      var displayed := change(document);
      if !rules.Valid(displayed) { return Some(Malformed), None, []; }
      ghost var whole := Try(rules, change, file, displayed, None, script, 0);
      TrySound(rules, change, document, file, displayed, None, script, 0);
      var retained: Result<(Document, bool), ContextError> := Err(Unavailable);
      for i := 0 to Attempts
        invariant Try(rules, change, file, displayed, seen, script, i) == whole
        invariant document == old(document) && published == []
        invariant retained == Err(Unavailable)
      {
        var a := script[i];
        file := Foreign(file, a.before);
        if !a.readable { break; }
        var snapshot := file;
        var previous := rules.Read(snapshot.entry);
        if previous.None? {
          retained := Err(Malformed);
          break;
        }
        var next := change(previous.value);
        if !rules.Valid(next) {
          retained := Err(Malformed);
          break;
        }
        displayed, seen := next, Some(snapshot.entry);
        if next == previous.value {
          retained := Ok((next, true));
          break;
        }
        if a.prepared.Fails? { break; }
        file := Foreign(file, a.during);
        if a.prepared.Ready? {
          var expected := file.Current() == snapshot.Current();
          if a.commit.Broken? {
            if a.commit.stray && expected {
              published := [Publication(file.entry, next)];
              file := file.Published(rules.encode(next));
            }
            break;
          }
          if expected {
            published := [Publication(file.entry, next)];
            file := file.Published(rules.encode(next));
            retained := Ok((next, a.commit.synced));
            break;
          }
        }
      }
      assert Tried(file, retained, displayed, seen, published) == whole;
      match retained
      case Ok((d, synced)) =>
        document := d;
        error := if synced then None else Some(DurabilityUncertain);
      case Err(e) =>
        if e == Unavailable { document := displayed; }
        error := Some(e);
    }

    /** Selects a machine, unless its key is invalid; every machine stays as it was in what was changed. */
    method Select(key: MachineKey, script: seq<Attempt>) returns (error: Option<ContextError>, seen: Option<Option<Entry>>)
      requires Valid() && |script| == Attempts
      modifies this
      ensures Valid()
      ensures error == Some(Malformed) ==> document == old(document)
      ensures error != Some(Malformed) ==> document == Base(rules, old(document), seen).(selected := key)
      ensures !key.Valid() ==> error == Some(Malformed) && file == old(file)
    {
      if !key.Valid() { return Some(Malformed), None; }
      var published;
      error, seen, published := Update((d: Document) => d.(selected := key), script);
    }

    /** Drops what is no longer available; Local always is. The others keep the facts they had in what
        was changed. */
    method Reconcile(keys: set<MachineKey>, script: seq<Attempt>) returns (error: Option<ContextError>, seen: Option<Option<Entry>>)
      requires Valid() && |script| == Attempts
      modifies this
      ensures Valid()
      ensures error == Some(Malformed) ==> document == old(document)
      ensures error != Some(Malformed) ==>
        var available, base := keys + {Local}, Base(rules, old(document), seen);
        && document.selected == (if base.selected in available then base.selected else Local)
        && forall key :: Find(document.records, key) == if key in available then Find(base.records, key) else None
      ensures |keys + {Local}| > MaxMachines || (exists key <- keys :: !key.Valid()) ==> error == Some(Malformed) && file == old(file)
    {
      var available := keys + {Local};
      if |available| > MaxMachines || exists key <- available :: !key.Valid() { return Some(Malformed), None; }
      var published;
      error, seen, published := Update((d: Document) => Spec.Reconcile(d, available), script);
      if error != Some(Malformed) {
        ghost var base := Base(rules, old(document), seen);
        forall key ensures Find(document.records, key) == if key in available then Find(base.records, key) else None {
          ReconcileKeepsAvailable(base, available, key);
        }
      }
    }

    /** Records an observation, unless its key or facts are invalid: in what was changed, the machine's
        known facts are merged with it, or it is the first, and every other machine stays as it was. */
    method Remember(key: MachineKey, facts: Facts, script: seq<Attempt>) returns (error: Option<ContextError>, seen: Option<Option<Entry>>)
      requires Valid() && |script| == Attempts
      modifies this
      ensures Valid()
      ensures error == Some(Malformed) ==> document == old(document)
      ensures error != Some(Malformed) ==>
        var base := Base(rules, old(document), seen);
        var known := Find(base.records, key);
        && Find(document.records, key) == Some(if known.Some? then Merged(known.value, facts) else facts)
        && document.selected == base.selected
        && forall other | other != key :: Find(document.records, other) == Find(base.records, other)
      ensures !key.Valid() || !rules.ValidFacts(facts) ==> error == Some(Malformed) && file == old(file)
    {
      if !key.Valid() || !rules.ValidFacts(facts) { return Some(Malformed), None; }
      var published;
      error, seen, published := Update((d: Document) => Spec.Remember(d, key, facts), script);
      if error != Some(Malformed) {
        ghost var base := Base(rules, old(document), seen);
        RememberMerges(base.records, key, facts, key);
        forall other | other != key ensures Find(document.records, other) == Find(base.records, other) {
          RememberMerges(base.records, key, facts, other);
        }
      }
    }
  }
}
