/** A store of image copies keyed by digest, with a counter that tells a discard whether its decision
    is out of date. */
module BackgroundImages {
  import opened Common

  const MaxBytes: nat := 32 * 1024 * 1024
  const MaxPixels: nat := 64 * 1024 * 1024
  const PrepareAttempts: nat := 8

  /** A SHA-256 digest: 32 bytes. */
  type Id = b: Bytes | |b| == 32 witness seq(32, i => 0 as byte)

  // Names.

  predicate IsDigit(c: char) {
    '0' <= c <= '9' || 'a' <= c <= 'f'
  }

  function Digit(n: nat): (c: char)
    requires n < 16
    ensures IsDigit(c) && Value(c) == n
  {
    if n < 10 then '0' + n as char else 'a' + (n - 10) as char
  }

  function Value(c: char): (n: nat)
    requires IsDigit(c)
    ensures n < 16
  {
    if c <= '9' then (c - '0') as nat else (c - 'a') as nat + 10
  }

  function Hex(b: Bytes): (s: string)
    ensures |s| == 2 * |b| && forall i | 0 <= i < |s| :: IsDigit(s[i])
    ensures forall i | 0 <= i < |b| :: Value(s[2 * i]) * 16 + Value(s[2 * i + 1]) == b[i] as nat
  {
    if b == [] then []
    else
      var n := |b| - 1;
      Hex(b[..n]) + [Digit(b[n] as nat / 16), Digit(b[n] as nat % 16)]
  }

  /** The digest a name of 64 lower-case hexadecimal digits says. */
  function Parsed(text: string): (r: Option<Id>) {
    if |text| != 64 || exists c <- text :: !IsDigit(c) then None
    else
      assert forall i | 0 <= i < 64 :: text[i] in text;
      Some(seq(32, i requires 0 <= i < 32 => (Value(text[2 * i]) * 16 + Value(text[2 * i + 1])) as byte))
  }

  method Parse(text: string) returns (r: Option<Id>)
    ensures r == Parsed(text)
  {
    if |text| != 64 { return None; }
    if exists c <- text :: !IsDigit(c) { return None; }
    assert forall i | 0 <= i < 64 :: text[i] in text;
    var digest := new byte[32];
    for index := 0 to 32
      invariant forall i | 0 <= i < index :: digest[i] as nat == Value(text[2 * i]) * 16 + Value(text[2 * i + 1])
    {
      digest[index] := (Value(text[2 * index]) * 16 + Value(text[2 * index + 1])) as byte;
    }
    assert digest[..] == Parsed(text).value;
    return Some(digest[..]);
  }

  lemma DigitsDetermined(a: char, b: char)
    requires IsDigit(a) && IsDigit(b) && Value(a) == Value(b)
    ensures a == b
  {
  }

  lemma NameIsParsed(id: Id)
    ensures Parsed(Hex(id)) == Some(id)
  {
    var hex := Hex(id);
    assert forall c <- hex :: IsDigit(c);
    assert Parsed(hex).value == id;
  }

  lemma ParsedIsNamed(id: Id, text: string)
    requires Parsed(text) == Some(id)
    ensures Hex(id) == text
  {
    assert forall i | 0 <= i < 64 :: text[i] in text;
    var hex := Hex(id);
    forall k | 0 <= k < 64 ensures hex[k] == text[k] {
      var i := k / 2;
      assert Value(hex[2 * i]) * 16 + Value(hex[2 * i + 1]) == id[i] as nat == Value(text[2 * i]) * 16 + Value(text[2 * i + 1]);
      DigitsDetermined(hex[2 * i], text[2 * i]);
      DigitsDetermined(hex[2 * i + 1], text[2 * i + 1]);
      assert k == 2 * i || k == 2 * i + 1;
    }
  }

  /** Names and digests correspond one to one. */
  lemma NameRoundTrip(id: Id, text: string)
    ensures Parsed(Hex(id)) == Some(id)
    ensures Parsed(text) == Some(id) <==> text == Hex(id)
  {
    NameIsParsed(id);
    if Parsed(text) == Some(id) { ParsedIsNamed(id, text); }
  }

  // The store.

  datatype ImageError = TooLarge | TooManyPixels | UnsupportedFormat | Missing | Unsafe | Unavailable

  datatype Retirement = Retirement(id: Id, generation: u64)

  datatype Discarded = Removed | Lapsed

  datatype Store = Store(generation: u64, copies: map<Id, Bytes>)

  /** What the system says of an image: whether its format is supported, and the size it opens at. */
  datatype Look = Look(supported: bool, size: Option<(nat, nat)>)

  datatype Preparation = Prepares | NameTaken | Refuses(error: ImageError)

  datatype Publication = Identifies | Unidentified(published: bool) | CommitFails(error: ImageError)

  /** What the filesystem does during one operation. */
  datatype Disk = Disk(rooted: bool, fault: Option<ImageError>, preparing: seq<Preparation>, commit: Publication, removal: Option<ImageError>)

  function Bump(generation: u64): u64 {
    if generation == MaxU64 then 0 else generation + 1
  }

  function Retire(s: Store, id: Id): Retirement {
    Retirement(id, s.generation)
  }

  function Renew(s: Store): Store {
    s.(generation := Bump(s.generation))
  }

  /** Why an image is not copied at all. */
  function Refusal(bytes: Bytes, look: Look): Option<ImageError> {
    if |bytes| > MaxBytes then Some(TooLarge)
    else if !look.supported || look.size.None? || look.size.value.0 == 0 || look.size.value.1 == 0 then Some(UnsupportedFormat)
    else if look.size.value.0 * look.size.value.1 > MaxPixels then Some(TooManyPixels)
    else None
  }

  /** Prepares under a fresh name until one is free, then publishes. */
  function Publish(s: Store, id: Id, bytes: Bytes, disk: Disk, i: nat): (Store, Result<Id, ImageError>)
    requires i <= |disk.preparing|
    decreases |disk.preparing| - i
  {
    if i == |disk.preparing| then (s, Err(Unavailable))
    else match disk.preparing[i]
      case NameTaken => Publish(s, id, bytes, disk, i + 1)
      case Refuses(e) => (s, Err(e))
      case Prepares =>
        var stored := s.(copies := s.copies[id := bytes]);
        match disk.commit
        case CommitFails(e) => (s, Err(e))
        case Unidentified(published) => (if published then stored else s, Err(Unavailable))
        case Identifies => (stored, Ok(id))
  }

  /** The second half of an install, once the counter advanced: keeps the copy there is, or publishes. */
  function Settle(s: Store, digest: Bytes -> Id, bytes: Bytes, disk: Disk): (Store, Result<Id, ImageError>) {
    var id := digest(bytes);
    if !disk.rooted then (s, Err(Unavailable))
    else if disk.fault.Some? then (s, Err(disk.fault.value))
    else if id in s.copies && s.copies[id] == bytes then (s, Ok(id))
    else Publish(s, id, bytes, disk, 0)
  }

  function Install(s: Store, digest: Bytes -> Id, bytes: Bytes, look: Look, disk: Disk): (Store, Result<Id, ImageError>) {
    var refused := Refusal(bytes, look);
    if refused.Some? then (s, Err(refused.value)) else Settle(Renew(s), digest, bytes, disk)
  }

  function Load(s: Store, digest: Bytes -> Id, id: Id, disk: Disk): Result<Bytes, ImageError> {
    if !disk.rooted then Err(Missing)
    else if disk.fault.Some? then Err(disk.fault.value)
    else if id !in s.copies || |s.copies[id]| > MaxBytes || digest(s.copies[id]) != id then Err(Missing)
    else Ok(s.copies[id])
  }

  /** The second half of a discard, once the retirement was found in force. */
  function Erase(s: Store, id: Id, disk: Disk): (Store, Result<Discarded, ImageError>) {
    if !disk.rooted then (s, Ok(Removed))
    else if disk.fault.Some? then (s, Err(disk.fault.value))
    else if id !in s.copies then (s, Ok(Removed))
    else match disk.removal
      case None => (s.(copies := s.copies - {id}), Ok(Removed))
      case Some(Missing) => (s.(copies := s.copies - {id}), Ok(Removed))
      case Some(e) => (s, Err(e))
  }

  function Discard(s: Store, r: Retirement, disk: Disk): (Store, Result<Discarded, ImageError>) {
    if s.generation != r.generation then (s, Ok(Lapsed)) else Erase(s, r.id, disk)
  }

  /** An installed image loads as it was given, and what loads under a name has that digest. */
  lemma {:induction false} PublishStores(s: Store, id: Id, bytes: Bytes, disk: Disk, i: nat)
    requires i <= |disk.preparing|
    ensures
      var (next, r) := Publish(s, id, bytes, disk, i);
      next.generation == s.generation && (r.Ok? ==> r.value == id && next.copies == s.copies[id := bytes])
    decreases |disk.preparing| - i
  {
    if i < |disk.preparing| && disk.preparing[i].NameTaken? { PublishStores(s, id, bytes, disk, i + 1); }
  }

  lemma InstalledImageLoads(s: Store, digest: Bytes -> Id, bytes: Bytes, look: Look, disk: Disk, later: Disk)
    ensures
      var (next, r) := Install(s, digest, bytes, look, disk);
      && (r.Ok? && later.rooted && later.fault.None? ==> Load(next, digest, r.value, later) == Ok(bytes))
      && (Refusal(bytes, look).None? <==> next.generation == Bump(s.generation))
      && (Refusal(bytes, look).Some? ==> next == s && r == Err(Refusal(bytes, look).value))
  {
    if Refusal(bytes, look).None? { PublishStores(Renew(s), digest(bytes), bytes, disk, 0); }
  }

  // Runs. Copying and discarding exclude each other; retiring and renewing wait for nothing.

  /** A retirement, with how often the counter had advanced when it was made, how many installs had
      succeeded, and whether one was between its advance and its end. */
  datatype Made = Made(retirement: Retirement, bumps: nat, installed: nat, copying: bool)

  /** A successful install, with how often the counter had advanced once it advanced it. */
  datatype Installed = Installed(id: Id, bump: nat)

  /** Who holds the lock: an install that advanced the counter, or a discard that found its retirement
      in force after `at` advances. */
  datatype Holder = Free | Copying(bytes: Bytes, bump: nat) | Discarding(k: nat, at: nat)

  datatype World = World(store: Store, bumps: nat, made: seq<Made>, installed: seq<Installed>, holder: Holder)

  datatype Action =
    | RetireNow(id: Id)
    | RenewNow
    | BeginInstall(bytes: Bytes, look: Look)
    | EndInstall(disk: Disk)
    | BeginDiscard(k: nat)
    | EndDiscard(disk: Disk)
    | ForeignChange(copies: map<Id, Bytes>)

  /** An action that cannot happen leaves the world as it is. */
  function Step(digest: Bytes -> Id, w: World, a: Action): World {
    match a
    case RetireNow(id) => w.(made := w.made + [Made(Retire(w.store, id), w.bumps, |w.installed|, w.holder.Copying?)])
    case RenewNow => w.(store := Renew(w.store), bumps := w.bumps + 1)
    case BeginInstall(bytes, look) =>
      if w.holder.Free? && Refusal(bytes, look).None? then
        w.(store := Renew(w.store), bumps := w.bumps + 1, holder := Copying(bytes, w.bumps + 1))
      else w
    case EndInstall(disk) =>
      if w.holder.Copying? then
        var (store, r) := Settle(w.store, digest, w.holder.bytes, disk);
        w.(store := store, holder := Free, installed := if r.Ok? then w.installed + [Installed(r.value, w.holder.bump)] else w.installed)
      else w
    case BeginDiscard(k) =>
      if w.holder.Free? && k < |w.made| && w.store.generation == w.made[k].retirement.generation then
        w.(holder := Discarding(k, w.bumps))
      else w
    case EndDiscard(disk) =>
      if w.holder.Discarding? && w.holder.k < |w.made| then
        w.(store := Erase(w.store, w.made[w.holder.k].retirement.id, disk).0, holder := Free)
      else w
    case ForeignChange(copies) => w.(store := w.store.(copies := copies))
  }

  function Run(digest: Bytes -> Id, w: World, actions: seq<Action>): World
    decreases |actions|
  {
    if actions == [] then w else Step(digest, Run(digest, w, actions[..|actions| - 1]), actions[|actions| - 1])
  }

  function Start(copies: map<Id, Bytes>): World {
    World(Store(0, copies), 0, [], [], Free)
  }

  /** How many values the counter has. */
  const Turn: nat := MaxU64 + 1

  predicate Counted(w: World) {
    && w.store.generation == w.bumps % Turn
    && (forall m <- w.made :: m.bumps <= w.bumps && m.retirement.generation == m.bumps % Turn && m.installed <= |w.installed|)
    && (forall p <- w.installed :: p.bump <= w.bumps)
  }

  /** An install that succeeded after a retirement advanced the counter after it too, unless it was
      under way when the retirement was made; and only the first one can have been. */
  predicate Later(m: Made, p: nat, bump: nat) {
    p >= m.installed ==> bump > m.bumps || (m.copying && p == m.installed)
  }

  predicate Ordered(w: World) {
    && (forall m <- w.made, p | 0 <= p < |w.installed| :: Later(m, p, w.installed[p].bump))
    && (w.holder.Copying? ==> w.holder.bump <= w.bumps && forall m <- w.made :: Later(m, |w.installed|, w.holder.bump))
  }

  /** A discard under way found its retirement in force, and no install came since. */
  predicate Decided(w: World) {
    w.holder.Discarding? ==>
      && w.holder.k < |w.made| && w.made[w.holder.k].bumps <= w.holder.at <= w.bumps
      && w.made[w.holder.k].bumps % Turn == w.holder.at % Turn
      && forall p <- w.installed :: p.bump <= w.holder.at
  }

  predicate Inv(w: World) {
    Counted(w) && Ordered(w) && Decided(w)
  }

  lemma BumpIsModular(n: nat)
    ensures Bump(n % Turn) == (n + 1) % Turn
  {
  }

  lemma SettleKeepsCount(s: Store, digest: Bytes -> Id, bytes: Bytes, disk: Disk)
    ensures Settle(s, digest, bytes, disk).0.generation == s.generation
  {
    PublishStores(s, digest(bytes), bytes, disk, 0);
  }

  lemma StepInv(digest: Bytes -> Id, w: World, a: Action)
    requires Inv(w)
    ensures Inv(Step(digest, w, a))
  {
    BumpIsModular(w.bumps);
    if a.EndInstall? && w.holder.Copying? { SettleKeepsCount(w.store, digest, w.holder.bytes, a.disk); }
  }

  lemma {:induction false} RunInv(digest: Bytes -> Id, copies: map<Id, Bytes>, actions: seq<Action>)
    ensures Inv(Run(digest, Start(copies), actions))
    decreases |actions|
  {
    if actions != [] {
      RunInv(digest, copies, actions[..|actions| - 1]);
      StepInv(digest, Run(digest, Start(copies), actions[..|actions| - 1]), actions[|actions| - 1]);
    }
  }

  lemma SameResidue(a: nat, b: nat)
    requires a <= b
    ensures a % Turn == b % Turn <==> (b - a) % Turn == 0
  {
    var q, p := a / Turn, b / Turn;
    assert a == Turn * q + a % Turn && b == Turn * p + b % Turn;
  }

  lemma WithinATurn(since: nat)
    requires 0 < since < Turn
    ensures since % Turn != 0
  {
  }

  lemma MadeAt(w: World, k: nat)
    requires Inv(w) && k < |w.made|
    ensures w.made[k].bumps <= w.bumps && w.made[k].retirement.generation == w.made[k].bumps % Turn
  {
    assert w.made[k] in w.made;
  }

  /** Over every run, a discard lapses exactly when the counter advanced since its retirement, other
      than by whole turns of the 64-bit counter. */
  lemma DiscardLapsesExactly(digest: Bytes -> Id, copies: map<Id, Bytes>, actions: seq<Action>, k: nat, disk: Disk)
    requires k < |Run(digest, Start(copies), actions).made|
    ensures
      var w := Run(digest, Start(copies), actions);
      var since := w.bumps - w.made[k].bumps;
      var (next, r) := Discard(w.store, w.made[k].retirement, disk);
      && since >= 0
      && (r == Ok(Lapsed) <==> since % Turn != 0)
      && (0 < since < Turn ==> r == Ok(Lapsed) && next == w.store)
  {
    RunInv(digest, copies, actions);
    var w := Run(digest, Start(copies), actions);
    MadeAt(w, k);
    SameResidue(w.made[k].bumps, w.bumps);
    if 0 < w.bumps - w.made[k].bumps < Turn { WithinATurn(w.bumps - w.made[k].bumps); }
  }

  /** Over every run, a discard is in force although the `p`th install succeeded after its retirement
      exactly when the retirement was made while that install was between its advance of the counter
      and its end, and the counter did not advance since; or when it advanced by whole turns since. So
      within one turn an image installed after a retirement that met no install is never removed by it. */
  lemma NewerImageIsDiscardedExactly(digest: Bytes -> Id, copies: map<Id, Bytes>, actions: seq<Action>, k: nat, p: nat, disk: Disk)
    requires
      var w := Run(digest, Start(copies), actions);
      k < |w.made| && w.made[k].installed <= p < |w.installed|
    ensures
      var w := Run(digest, Start(copies), actions);
      var (m, image) := (w.made[k], w.installed[p]);
      var (next, r) := Discard(w.store, m.retirement, disk);
      && (r != Ok(Lapsed) <==>
            || (m.copying && p == m.installed && image.bump <= m.bumps == w.bumps)
            || (m.bumps < w.bumps && (w.bumps - m.bumps) % Turn == 0))
      && (r == Ok(Lapsed) || m.retirement.id != image.id ==>
            (image.id in next.copies <==> image.id in w.store.copies))
  {
    RunInv(digest, copies, actions);
    DiscardLapsesExactly(digest, copies, actions, k, disk);
    var w := Run(digest, Start(copies), actions);
    assert w.made[k] in w.made && w.installed[p] in w.installed;
    assert Later(w.made[k], p, w.installed[p].bump);
  }

  /** Over every run, the removal a discard under way is about to make: it decided after `at` advances,
      and an image installed after the retirement is there only if its install was under way then. */
  lemma RemovalWasDecided(digest: Bytes -> Id, copies: map<Id, Bytes>, actions: seq<Action>, p: nat)
    requires
      var w := Run(digest, Start(copies), actions);
      && w.holder.Discarding? && p < |w.installed|
    ensures
      var w := Run(digest, Start(copies), actions);
      && w.holder.k < |w.made|
      && (var (m, since) := (w.made[w.holder.k], w.holder.at - w.made[w.holder.k].bumps);
          && since >= 0 && since % Turn == 0
          && (since < Turn && p >= m.installed ==> m.copying && p == m.installed && w.installed[p].bump <= m.bumps))
  {
    RunInv(digest, copies, actions);
    var w := Run(digest, Start(copies), actions);
    var k := w.holder.k;
    SameResidue(w.made[k].bumps, w.holder.at);
    assert w.made[k] in w.made && w.installed[p] in w.installed;
    assert Later(w.made[k], p, w.installed[p].bump);
    if 0 < w.holder.at - w.made[k].bumps < Turn { WithinATurn(w.holder.at - w.made[k].bumps); }
  }

  /** A filesystem without faults. */
  const Sound: Disk := Disk(true, None, [Prepares], Identifies, None)

  /** The run in which an image just installed is removed: it is retired between the advance of the
      counter and its publication. */
  lemma RetiredWhileInstalled(digest: Bytes -> Id, copies: map<Id, Bytes>, bytes: Bytes, look: Look)
    requires Refusal(bytes, look).None?
    ensures
      var id := digest(bytes);
      var copied := Step(digest, Step(digest, Step(digest, Start(copies), BeginInstall(bytes, look)), RetireNow(id)), EndInstall(Sound));
      var gone := Step(digest, Step(digest, copied, BeginDiscard(0)), EndDiscard(Sound));
      && copied.installed == [Installed(id, 1)] && id in copied.store.copies && copied.store.copies[id] == bytes
      && gone.installed == copied.installed && id !in gone.store.copies
  {
    var retired := Step(digest, Step(digest, Start(copies), BeginInstall(bytes, look)), RetireNow(digest(bytes)));
    assert Publish(retired.store, digest(bytes), bytes, Sound, 0).1 == Ok(digest(bytes));
  }

  /** And the run in which a copy named again is removed: the renewal comes between the discard's test
      and its removal. */
  lemma RenewedWhileDiscarded(digest: Bytes -> Id, copies: map<Id, Bytes>, id: Id)
    requires id in copies
    ensures
      var retired := Step(digest, Start(copies), RetireNow(id));
      var renewed := Step(digest, Step(digest, retired, BeginDiscard(0)), RenewNow);
      && renewed.holder.Discarding? && Discard(renewed.store, renewed.made[0].retirement, Sound).1 == Ok(Lapsed)
      && id !in Step(digest, renewed, EndDiscard(Sound)).store.copies
  {
  }

  /** The store as an object: an atomic counter, and copying and discarding ordered by one lock. */
  class ImageStore {
    const digest: Bytes -> Id
    var generation: u64
    var copies: map<Id, Bytes>

    function View(): Store
      reads this
    {
      Store(generation, copies)
    }

    constructor (digest: Bytes -> Id, copies: map<Id, Bytes>)
      ensures View() == Store(0, copies) && this.digest == digest
    {
      this.digest, this.copies := digest, copies;
      generation := 0;
    }

    method Advance()
      modifies this`generation
      ensures View() == Renew(old(View()))
    {
      generation := if generation == MaxU64 then 0 else generation + 1;
    }

    method Copy(bytes: Bytes, look: Look, disk: Disk) returns (r: Result<Id, ImageError>)
      requires |disk.preparing| == PrepareAttempts
      modifies this
      ensures (View(), r) == Install(old(View()), digest, bytes, look, disk)
    {
      if |bytes| > MaxBytes { return Err(TooLarge); }
      if !look.supported { return Err(UnsupportedFormat); }
      if look.size.None? || look.size.value.0 == 0 || look.size.value.1 == 0 { return Err(UnsupportedFormat); }
      if look.size.value.0 * look.size.value.1 > MaxPixels { return Err(TooManyPixels); }
      Advance();
      var id := digest(bytes);
      if !disk.rooted { return Err(Unavailable); }
      if disk.fault.Some? { return Err(disk.fault.value); }
      if id in copies && copies[id] == bytes { return Ok(id); }
      ghost var bumped := View();
      for i := 0 to PrepareAttempts
        invariant View() == bumped && Publish(bumped, id, bytes, disk, i) == Publish(bumped, id, bytes, disk, 0)
      {
        match disk.preparing[i]
        case NameTaken =>
        case Refuses(e) => return Err(e);
        case Prepares =>
          match disk.commit {
            case CommitFails(e) => return Err(e);
            case Unidentified(published) =>
              if published { copies := copies[id := bytes]; }
              return Err(Unavailable);
            case Identifies =>
              copies := copies[id := bytes];
              return Ok(id);
          }
      }
      return Err(Unavailable);
    }

    method Remove(r: Retirement, disk: Disk) returns (result: Result<Discarded, ImageError>)
      modifies this`copies
      ensures (View(), result) == Discard(old(View()), r, disk)
    {
      if generation != r.generation { return Ok(Lapsed); }
      if !disk.rooted { return Ok(Removed); }
      if disk.fault.Some? { return Err(disk.fault.value); }
      if r.id !in copies { return Ok(Removed); }
      if disk.removal.Some? && disk.removal.value != Missing { return Err(disk.removal.value); }
      copies := copies - {r.id};
      return Ok(Removed);
    }
  }
}
