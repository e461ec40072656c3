/** Client presentation context: observed facts of each machine merged by their own timestamps, and a
    document that several processes change by reading, changing and conditionally replacing it. */
module CoreContext {
  import opened Common
  import opened PrivateFile

  // Facts.

  datatype Reading = Reading(observedAt: u64, value: string)

  /** General facts with their timestamp, and network and device readings with their own. */
  datatype Facts = Facts(general: Reading, network: Option<Reading>, devices: Option<Reading>)

  /** The incoming reading unless it is older; an absent one never erases a known one. */
  function Later(known: Option<Reading>, incoming: Option<Reading>): Option<Reading> {
    if incoming.Some? && (known.None? || incoming.value.observedAt >= known.value.observedAt) then incoming else known
  }

  function Merged(known: Facts, incoming: Facts): Facts {
    Facts(if incoming.general.observedAt >= known.general.observedAt then incoming.general else known.general,
          Later(known.network, incoming.network),
          Later(known.devices, incoming.devices))
  }

  lemma MergeAssociates(a: Facts, b: Facts, c: Facts)
    ensures Merged(Merged(a, b), c) == Merged(a, Merged(b, c))
  {
  }

  lemma MergeIdempotent(a: Facts)
    ensures Merged(a, a) == a
  {
  }

  function Fold(first: Facts, more: seq<Facts>): Facts {
    if more == [] then first else Merged(Fold(first, more[..|more| - 1]), more[|more| - 1])
  }

  /** One part of every observation: the general facts, the network reading or the devices. */
  type Part = Facts -> Option<Reading>

  function General(f: Facts): Option<Reading> { Some(f.general) }
  function Network(f: Facts): Option<Reading> { f.network }
  function Devices(f: Facts): Option<Reading> { f.devices }

  /** `r` is the last of the readings with the greatest timestamp, or absent when all are. */
  ghost predicate IsLatest(all: seq<Option<Reading>>, r: Option<Reading>) {
    if r.None? then forall x <- all :: x.None?
    else exists i | 0 <= i < |all| :: all[i] == r && Dominates(all, i)
  }

  predicate Dominates(all: seq<Option<Reading>>, i: nat)
    requires i < |all| && all[i].Some?
  {
    forall j | 0 <= j < |all| && all[j].Some? ::
      all[j].value.observedAt <= all[i].value.observedAt && (j > i ==> all[j].value.observedAt < all[i].value.observedAt)
  }

  function Parts(part: Part, all: seq<Facts>): (rs: seq<Option<Reading>>)
    ensures |rs| == |all| && forall i | 0 <= i < |all| :: rs[i] == part(all[i])
  {
    seq(|all|, i requires 0 <= i < |all| => part(all[i]))
  }

  lemma LatestExtends(all: seq<Option<Reading>>, r: Option<Reading>, next: Option<Reading>)
    requires IsLatest(all, r)
    ensures IsLatest(all + [next], Later(r, next))
  {
    var later := Later(r, next);
    var longer := all + [next];
    if later.Some? {
      if later == next && (r.None? || next.value.observedAt >= r.value.observedAt) {
        assert longer[|all|] == later;
        if r.Some? {
          var i :| 0 <= i < |all| && all[i] == r && Dominates(all, i);
        } else {
          assert forall j | 0 <= j < |all| :: all[j] in all;
        }
        assert Dominates(longer, |all|);
      } else {
        var i :| 0 <= i < |all| && all[i] == r && Dominates(all, i);
        assert longer[i] == later && Dominates(longer, i);
      }
    }
  }

  /** Folding any sequence of observations gives, separately for each part, the last one with the
      greatest timestamp. */
  lemma {:induction false} FoldIsLatest(first: Facts, more: seq<Facts>)
    ensures
      var all, folded := [first] + more, Fold(first, more);
      && IsLatest(Parts(General, all), Some(folded.general))
      && IsLatest(Parts(Network, all), folded.network)
      && IsLatest(Parts(Devices, all), folded.devices)
    decreases |more|
  {
    if more == [] {
      var all := [first] + more;
      assert Parts(General, all)[0] == Some(first.general);
      assert Dominates(Parts(General, all), 0);
      assert Parts(Network, all) == [first.network] && Parts(Devices, all) == [first.devices];
      OneIsLatest(first.network);
      OneIsLatest(first.devices);
    } else {
      var shorter, last := more[..|more| - 1], more[|more| - 1];
      FoldIsLatest(first, shorter);
      var all := [first] + shorter;
      assert [first] + more == all + [last];
      assert Parts(General, all + [last]) == Parts(General, all) + [Some(last.general)];
      assert Parts(Network, all + [last]) == Parts(Network, all) + [last.network];
      assert Parts(Devices, all + [last]) == Parts(Devices, all) + [last.devices];
      var folded := Fold(first, shorter);
      LatestExtends(Parts(General, all), Some(folded.general), Some(last.general));
      LatestExtends(Parts(Network, all), folded.network, last.network);
      LatestExtends(Parts(Devices, all), folded.devices, last.devices);
    }
  }

  lemma OneIsLatest(r: Option<Reading>)
    ensures IsLatest([r], r)
  {
    if r.Some? { assert [r][0] == r && Dominates([r], 0); }
  }

  // Documents.

  /** A direct machine's identifier as a number; zero is the invalid all-zero one. */
  datatype MachineKey = Local | Direct(id: nat) {
    predicate Valid() { Local? || id != 0 }
  }

  datatype Record = Record(key: MachineKey, facts: Facts)

  datatype Document = Document(schema: nat, selected: MachineKey, records: seq<Record>)

  const Blank: Document := Document(1, Local, [])

  const MaxBytes: nat := 512 * 1024
  const MaxMachines: nat := 257
  const Attempts: nat := 8

  /** Document encoding, and the display rules of each part of the facts, which are only called. */
  datatype Rules = Rules(
    encode: Document -> Bytes,
    decode: Bytes -> Option<Document>,
    general: string -> bool,
    network: string -> bool,
    devices: string -> bool)
  {
    ghost predicate Faithful() {
      (forall d :: decode(encode(d)) == Some(d)) && |encode(Blank)| <= MaxBytes
    }

    predicate ValidFacts(f: Facts) {
      general(f.general.value) && (f.network.Some? ==> network(f.network.value.value)) && (f.devices.Some? ==> devices(f.devices.value.value))
    }

    predicate Valid(d: Document) {
      && d.schema == 1 && |d.records| <= MaxMachines && d.selected.Valid()
      && (forall r <- d.records :: r.key.Valid() && ValidFacts(r.facts))
      && (forall i, j | 0 <= i < j < |d.records| :: d.records[i].key != d.records[j].key)
      && |encode(d)| <= MaxBytes
    }

    /** What a file says; a missing one says the default. */
    function Read(entry: Option<Entry>): Option<Document> {
      match entry
      case None => Some(Blank)
      case Some(e) =>
        if |e.bytes| > MaxBytes then None
        else match decode(e.bytes)
          case None => None
          case Some(d) => if Valid(d) then Some(d) else None
    }
  }

  lemma MergeStaysValid(r: Rules, a: Facts, b: Facts)
    requires r.ValidFacts(a) && r.ValidFacts(b)
    ensures r.ValidFacts(Merged(a, b))
  {
  }

  // Changes.

  type Change = Document -> Document

  function Find(rs: seq<Record>, key: MachineKey): Option<Facts> {
    if rs == [] then None else if rs[0].key == key then Some(rs[0].facts) else Find(rs[1..], key)
  }

  lemma FindCons(first: Record, rest: seq<Record>, key: MachineKey)
    ensures Find([first] + rest, key) == if first.key == key then Some(first.facts) else Find(rest, key)
  {
    assert ([first] + rest)[1..] == rest;
  }

  function RememberIn(rs: seq<Record>, key: MachineKey, facts: Facts): seq<Record> {
    if rs == [] then [Record(key, facts)]
    else if rs[0].key == key then [Record(key, Merged(rs[0].facts, facts))] + rs[1..]
    else [rs[0]] + RememberIn(rs[1..], key, facts)
  }

  function Remember(d: Document, key: MachineKey, facts: Facts): Document {
    d.(records := RememberIn(d.records, key, facts))
  }

  function Retain(rs: seq<Record>, available: set<MachineKey>): seq<Record> {
    if rs == [] then []
    else if rs[0].key in available then [rs[0]] + Retain(rs[1..], available)
    else Retain(rs[1..], available)
  }

  function Reconcile(d: Document, available: set<MachineKey>): Document {
    d.(selected := if d.selected in available then d.selected else Local, records := Retain(d.records, available))
  }

  /** Remembering merges into the machine's known facts, or records it first, and leaves every other
      machine alone. */
  lemma {:induction false} RememberMerges(rs: seq<Record>, key: MachineKey, facts: Facts, other: MachineKey)
    ensures
      var next := RememberIn(rs, key, facts);
      && Find(next, key) == Some(if Find(rs, key).Some? then Merged(Find(rs, key).value, facts) else facts)
      && (other != key ==> Find(next, other) == Find(rs, other))
    decreases |rs|
  {
    if rs != [] {
      var first := if rs[0].key == key then Record(key, Merged(rs[0].facts, facts)) else rs[0];
      var rest := if rs[0].key == key then rs[1..] else RememberIn(rs[1..], key, facts);
      FindCons(first, rest, key);
      FindCons(first, rest, other);
      if rs[0].key != key { RememberMerges(rs[1..], key, facts, other); }
    }
  }

  lemma {:induction false} RetainKeeps(rs: seq<Record>, available: set<MachineKey>, key: MachineKey)
    ensures Find(Retain(rs, available), key) == if key in available then Find(rs, key) else None
    decreases |rs|
  {
    if rs != [] {
      RetainKeeps(rs[1..], available, key);
      FindCons(rs[0], Retain(rs[1..], available), key);
    }
  }

  /** After reconciling, what is selected is available, Local standing in, and exactly the available
      machines keep their facts. */
  lemma ReconcileKeepsAvailable(d: Document, available: set<MachineKey>, key: MachineKey)
    requires Local in available
    ensures
      var next := Reconcile(d, available);
      && next.selected in available && (d.selected in available ==> next.selected == d.selected)
      && Find(next.records, key) == if key in available then Find(d.records, key) else None
  {
    RetainKeeps(d.records, available, key);
  }

  // Updating.

  datatype ContextError = Malformed | Unavailable | DurabilityUncertain

  datatype Prepared = Ready | Exists | Fails

  datatype Committed = Swap(synced: bool) | Broken(stray: bool)

  /** What one attempt meets: other processes' writes (or removals) before the snapshot and between it
      and the commit, and what the filesystem does. */
  datatype Attempt = Attempt(before: seq<Option<Bytes>>, readable: bool, during: seq<Option<Bytes>>, prepared: Prepared, commit: Committed)

  function Foreign(f: File, ops: seq<Option<Bytes>>): File {
    if ops == [] then f
    else
      var g := Foreign(f, ops[..|ops| - 1]);
      var op := ops[|ops| - 1];
      if op.Some? then g.Published(op.value) else g.Removed()
  }

  /** A document this process put in place of `replaced`. */
  datatype Publication = Publication(replaced: Option<Entry>, document: Document)

  /** `seen` is the entry whose document was last read and changed into `displayed`, if any was. */
  datatype Tried = Tried(
    file: File,
    result: Result<(Document, bool), ContextError>,
    displayed: Document,
    seen: Option<Option<Entry>>,
    published: seq<Publication>)

  /** The retry loop from attempt `i` on. The boolean of a good result is whether it is synchronized. */
  function Try(r: Rules, change: Change, file: File, displayed: Document, seen: Option<Option<Entry>>, script: seq<Attempt>, i: nat): Tried
    requires i <= |script|
    decreases |script| - i, 1
  {
    if i == |script| then Tried(file, Err(Unavailable), displayed, seen, [])
    else
      var a := script[i];
      var snapshot := Foreign(file, a.before);
      if !a.readable then Tried(snapshot, Err(Unavailable), displayed, seen, [])
      else match r.Read(snapshot.entry)
        case None => Tried(snapshot, Err(Malformed), displayed, seen, [])
        case Some(previous) =>
          var next := change(previous);
          if !r.Valid(next) then Tried(snapshot, Err(Malformed), displayed, seen, [])
          else if next == previous then Tried(snapshot, Ok((next, true)), next, Some(snapshot.entry), [])
          else if a.prepared.Fails? then Tried(snapshot, Err(Unavailable), next, Some(snapshot.entry), [])
          else
            var now := Foreign(snapshot, a.during);
            if a.prepared.Exists? then Try(r, change, now, next, Some(snapshot.entry), script, i + 1)
            else Commit(r, change, snapshot, now, next, script, i)
  }

  function Commit(r: Rules, change: Change, snapshot: File, now: File, next: Document, script: seq<Attempt>, i: nat): Tried
    requires i < |script|
    decreases |script| - i, 0
  {
    var expected, commit, seen := now.Current() == snapshot.Current(), script[i].commit, Some(snapshot.entry);
    var published := [Publication(now.entry, next)];
    match commit
    case Broken(stray) =>
      if stray && expected then Tried(now.Published(r.encode(next)), Err(Unavailable), next, seen, published)
      else Tried(now, Err(Unavailable), next, seen, [])
    case Swap(synced) =>
      if expected then Tried(now.Published(r.encode(next)), Ok((next, synced)), next, seen, published)
      else Try(r, change, now, next, seen, script, i + 1)
  }

  /** Identities are never reused, so an entry with an identity seen before is the entry seen. */
  lemma {:induction false} ForeignIsFresh(f: File, ops: seq<Option<Bytes>>)
    requires f.Valid()
    ensures
      var g := Foreign(f, ops);
      g.Valid() && f.unused <= g.unused && (g.entry == f.entry || g.entry.None? || g.entry.value.identity >= f.unused)
    decreases |ops|
  {
    if ops != [] { ForeignIsFresh(f, ops[..|ops| - 1]); }
  }

  /** A publication applies the change to exactly the document it replaces, which was readable, and
      puts a valid document there. */
  predicate Applies(r: Rules, change: Change, p: Publication) {
    r.Read(p.replaced).Some? && p.document == change(r.Read(p.replaced).value) && r.Valid(p.document)
  }

  /** The document that was changed: the one read last or, when none was, the one presented. */
  function Base(r: Rules, presented: Document, seen: Option<Option<Entry>>): Document {
    if seen.Some? && r.Read(seen.value).Some? then r.Read(seen.value).value else presented
  }

  /** `displayed` is the change applied to its base, and what was read was readable. */
  predicate Shows(r: Rules, change: Change, presented: Document, displayed: Document, seen: Option<Option<Entry>>) {
    && r.Valid(displayed) && displayed == change(Base(r, presented, seen))
    && (seen.Some? ==> r.Read(seen.value).Some?)
  }

  /** What the retry loop promises, whatever other processes do meanwhile: a publication replaces what
      was read last, and a good result without one found the file already changed. */
  predicate Sound(r: Rules, change: Change, presented: Document, t: Tried) {
    && t.file.Valid() && Shows(r, change, presented, t.displayed, t.seen)
    && |t.published| <= 1
    && (forall p <- t.published :: Applies(r, change, p) && t.seen == Some(p.replaced) && p.document == t.displayed)
    && (t.result.Ok? ==> t.result.value.0 == t.displayed && r.Read(t.file.entry) == Some(t.displayed))
    && (t.result.Ok? && t.published == [] ==> t.seen == Some(t.file.entry) && t.displayed == Base(r, presented, t.seen))
    && (t.result.Err? ==> t.result.error == Unavailable || (t.result.error == Malformed && t.published == []))
  }

  lemma PublishedIsRead(r: Rules, f: File, d: Document)
    requires r.Faithful() && r.Valid(d) && f.Valid()
    ensures f.Published(r.encode(d)).Valid() && r.Read(f.Published(r.encode(d)).entry) == Some(d)
  {
    assert r.decode(r.encode(d)) == Some(d);
  }

  /** One conditional replacement that does not go round again. */
  lemma CommitSound(r: Rules, change: Change, presented: Document, snapshot: File, now: File, script: seq<Attempt>, i: nat)
    requires r.Faithful() && snapshot.Valid() && i < |script|
    requires now.Valid() && (now.Current() == snapshot.Current() ==> now.entry == snapshot.entry)
    requires r.Read(snapshot.entry).Some?
    requires
      var next := change(r.Read(snapshot.entry).value);
      && r.Valid(next)
      && (now.Current() != snapshot.Current() && script[i].commit.Swap? ==>
            Sound(r, change, presented, Try(r, change, now, next, Some(snapshot.entry), script, i + 1)))
    ensures Sound(r, change, presented, Commit(r, change, snapshot, now, change(r.Read(snapshot.entry).value), script, i))
  {
    PublishedIsRead(r, now, change(r.Read(snapshot.entry).value));
  }

  lemma {:induction false} TrySound(
    r: Rules, change: Change, presented: Document, file: File, displayed: Document, seen: Option<Option<Entry>>,
    script: seq<Attempt>, i: nat)
    requires r.Faithful() && file.Valid() && Shows(r, change, presented, displayed, seen) && i <= |script|
    ensures Sound(r, change, presented, Try(r, change, file, displayed, seen, script, i))
    decreases |script| - i
  {
    if i < |script| {
      var a := script[i];
      var snapshot := Foreign(file, a.before);
      ForeignIsFresh(file, a.before);
      if a.readable && r.Read(snapshot.entry).Some? {
        var next := change(r.Read(snapshot.entry).value);
        var now := Foreign(snapshot, a.during);
        ForeignIsFresh(snapshot, a.during);
        if r.Valid(next) {
          TrySound(r, change, presented, now, next, Some(snapshot.entry), script, i + 1);
          CommitSound(r, change, presented, snapshot, now, script, i);
        }
      }
    }
  }
}
