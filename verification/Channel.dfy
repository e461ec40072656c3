/** A client and a desktop exchanging whole messages: a Hello, an Offer, a request and a reply. The two
    ends are functions of what arrives and of how their transfers go; `ChannelBytes` runs them over
    bytes. */
module Channel {
  import opened Common

  datatype Version = Version(major: nat, minor: nat)

  /** Which side is older when no major is shared. */
  datatype Incompatible = ListenerTooOld | CallerTooOld

  /** Looks the listener's major up among the offers and settles on a minor, or names the older side. */
  function Negotiate(offered: seq<Version>, listener: Version): Result<Version, Incompatible>
    decreases |offered|
  {
    if offered == [] then Err(CallerTooOld)
    else if offered[0].major == listener.major then
      Ok(Version(listener.major, if offered[0].minor < listener.minor then offered[0].minor else listener.minor))
    else match Negotiate(offered[1..], listener)
      case Ok(v) => Ok(v)
      case Err(older) => Err(if offered[0].major < listener.major then older else ListenerTooOld)
  }

  /** Agreement is on the listener's major, at a minor both speak, exactly when that major is offered;
      otherwise the caller is the older side exactly when every offered major is below. */
  lemma {:induction false} NegotiateMeans(offered: seq<Version>, listener: Version)
    ensures Negotiate(offered, listener).Ok? <==> exists v <- offered :: v.major == listener.major
    ensures
      Negotiate(offered, listener).Ok? ==>
        var chosen := Negotiate(offered, listener).value;
        && chosen.major == listener.major && chosen.minor <= listener.minor
        && exists v <- offered :: v.major == listener.major && chosen.minor <= v.minor && (chosen.minor == v.minor || chosen.minor == listener.minor)
    ensures Negotiate(offered, listener) == Err(CallerTooOld) <==> forall v <- offered :: v.major < listener.major
    decreases |offered|
  {
    if offered != [] {
      assert offered == [offered[0]] + offered[1..];
      NegotiateMeans(offered[1..], listener);
    }
  }

  // Clocks, in nanoseconds of one monotonic clock that both ends share.

  const MaxEffectWindow: nat := 60_000_000_000
  const ReplyMargin: nat := 250_000_000

  function Remaining(deadline: nat, now: nat): Option<nat> {
    if now < deadline then Some(deadline - now) else None
  }

  function Minus(a: nat, b: nat): nat {
    if a < b then 0 else a - b
  }

  function ExpiresAt(host: u64, within: nat): u64 {
    if host + within <= MaxU64 then host + within else MaxU64
  }

  /** The desktop's readings while it fixes the last instant a request may act. */
  datatype Readings = Readings(received: nat, host: u64, base: nat, check: nat)

  function ActBy(expiresAt: u64, r: Readings): Option<nat> {
    var byClient := r.base + Minus(Minus(expiresAt, r.host), ReplyMargin);
    var byWindow := r.received + MaxEffectWindow;
    var act := if byClient < byWindow then byClient else byWindow;
    if r.check < act then Some(act) else None
  }

  // Messages.

  datatype Refusal = NotShown | RemoteSession | FileUnavailable | PreviewUnavailable | RefusedBusy | OtherIdentity

  datatype Reply = Performed | Refused(why: Refusal) | Diagnostics(counters: string)

  datatype ChannelError = Unavailable | UnsafeEndpoint | AccountMismatch | Timeout | Unanswered | Protocol | NoShared(older: Incompatible)

  /** What a transfer by a deadline can end with. */
  type TransferFault = e: ChannelError | e == Timeout || e == Protocol witness Timeout

  /** `Garbage` decodes as none of the others. */
  datatype Message =
    | Hello(identity: string, versions: seq<Version>)
    | Offer(identity: string, selected: Option<Version>, desktop: Version)
    | Request(expiresAt: u64, body: string)
    | Answer(reply: Reply)
    | Garbage

  type Negotiation = (seq<Version>, Version) -> Result<Version, Incompatible>

  // The client.

  datatype Client = Client(identity: string, versions: seq<Version>, body: string)

  /** The client's readings outside its transfers: its deadline and its clock at the start and again
      when it stamps its request. A caller may bring the deadline forward between the two. */
  datatype ClientClock = ClientClock(startBy: nat, start: nat, sendBy: nat, sending: nat, host: u64)

  /** What the client's clock and stream do: a fault of each transfer, if it has one, and whether the
      half-close works. */
  datatype ClientRun = ClientRun(
    clock: ClientClock,
    hello: Option<TransferFault>, offer: Option<TransferFault>, request: Option<TransferFault>,
    closes: bool, reply: Option<TransferFault>)

  datatype Exchanged = Exchanged(result: Result<Reply, ChannelError>, written: seq<Message>)

  /** How the exchange ends on the answer to its Hello, or nothing when it goes on to its request. */
  function Concluded(negotiate: Negotiation, c: Client, offer: Message): Option<Result<Reply, ChannelError>> {
    if !offer.Offer? then Some(Err(Protocol))
    else if offer.identity != c.identity then Some(Ok(Refused(OtherIdentity)))
    else match (offer.selected, negotiate(c.versions, offer.desktop))
      case (None, Err(older)) => Some(Err(NoShared(older)))
      case (None, Ok(_)) => Some(Err(Protocol))
      case (Some(_), Err(_)) => Some(Err(Protocol))
      case (Some(selected), Ok(expected)) => if selected == expected then None else Some(Err(Protocol))
  }

  /** The request, stamped with the instant its client stops waiting. */
  function Stamped(c: Client, k: ClientClock): Message {
    Request(ExpiresAt(k.host, Minus(k.sendBy, k.sending)), c.body)
  }

  /** A fault of the reply, once the request is written. */
  function Lost(fault: TransferFault): ChannelError {
    if fault == Timeout then Timeout else Unanswered
  }

  /** One exchange over the whole messages that arrive. An end of the stream is a protocol fault, and so
      is a message too long to send. */
  function Exchange(negotiate: Negotiation, c: Client, arrived: seq<Message>, run: ClientRun): Exchanged {
    if Remaining(run.clock.startBy, run.clock.start).None? then Exchanged(Err(Timeout), [])
    else if run.hello.Some? then Exchanged(Err(run.hello.value), [])
    else
      var hello := [Hello(c.identity, c.versions)];
      if run.offer.Some? then Exchanged(Err(run.offer.value), hello)
      else if arrived == [] then Exchanged(Err(Protocol), hello)
      else if Concluded(negotiate, c, arrived[0]).Some? then Exchanged(Concluded(negotiate, c, arrived[0]).value, hello)
      else if Remaining(run.clock.sendBy, run.clock.sending).None? then Exchanged(Err(Timeout), hello)
      else if run.request.Some? then Exchanged(Err(run.request.value), hello)
      else
        var all := hello + [Stamped(c, run.clock)];
        if !run.closes then Exchanged(Err(Protocol), all)
        else if run.reply.Some? then Exchanged(Err(Lost(run.reply.value)), all)
        else if |arrived| < 2 || !arrived[1].Answer? then Exchanged(Err(Unanswered), all)
        else Exchanged(Ok(arrived[1].reply), all)
  }

  // The desktop.

  datatype Desktop = Desktop(identity: string, version: Version)

  datatype DesktopRun = DesktopRun(
    hello: Option<TransferFault>, offer: Option<TransferFault>, request: Option<TransferFault>,
    readings: Readings, reply: Option<TransferFault>)

  datatype Handled = Handled(body: string, actBy: nat)

  /** `handled` are the calls of the handler. */
  datatype Served = Served(end: Option<ChannelError>, written: seq<Message>, handled: seq<Handled>)

  predicate Descending(versions: seq<Version>) {
    |versions| == 1 || (|versions| == 2 && versions[0].major > versions[1].major)
  }

  /** What the desktop selects for a Hello. */
  function Selected(negotiate: Negotiation, d: Desktop, hello: Message): Option<Version>
    requires hello.Hello?
  {
    var agreed := negotiate(hello.versions, d.version);
    if agreed.Ok? && hello.identity == d.identity then Some(agreed.value) else None
  }

  /** The call a request makes of the handler, unless its client no longer waits. */
  function Call(request: Message, r: Readings): Option<Handled>
    requires request.Request?
  {
    var act := ActBy(request.expiresAt, r);
    if act.None? then None else Some(Handled(request.body, act.value))
  }

  function Serve(negotiate: Negotiation, d: Desktop, arrived: seq<Message>, handle: Handled -> Option<Reply>, run: DesktopRun): Served {
    if run.hello.Some? then Served(run.hello, [], [])
    else if arrived == [] || !arrived[0].Hello? || !Descending(arrived[0].versions) then Served(Some(Protocol), [], [])
    else if run.offer.Some? then Served(run.offer, [], [])
    else
      var selected := Selected(negotiate, d, arrived[0]);
      var offer := [Offer(d.identity, selected, d.version)];
      if selected.None? then Served(None, offer, [])
      else if run.request.Some? then Served(run.request, offer, [])
      else if |arrived| < 2 || !arrived[1].Request? then Served(Some(Protocol), offer, [])
      else
        var call := Call(arrived[1], run.readings);
        if call.None? then Served(None, offer, [])
        else
          var reply := handle(call.value);
          if reply.None? then Served(None, offer, [call.value])
          else if run.reply.Some? then Served(run.reply, offer, [call.value])
          else Served(None, offer + [Answer(reply.value)], [call.value])
  }

  /** Whatever client it talks to, the desktop calls its handler at most once, with the request it was
      sent, only after a well-formed Hello of its own identity whose versions it agreed on, and before
      the last instant it may act. */
  lemma HandlerRunsOnce(negotiate: Negotiation, d: Desktop, arrived: seq<Message>, handle: Handled -> Option<Reply>, run: DesktopRun)
    ensures
      var s := Serve(negotiate, d, arrived, handle, run);
      && |s.handled| <= 1
      && (s.handled != [] ==>
            && |arrived| >= 2 && arrived[0].Hello? && Descending(arrived[0].versions) && arrived[0].identity == d.identity
            && negotiate(arrived[0].versions, d.version).Ok?
            && arrived[1].Request? && s.handled[0].body == arrived[1].body
            && ActBy(arrived[1].expiresAt, run.readings) == Some(s.handled[0].actBy)
            && s.written != [] && s.written[0] == Offer(d.identity, Some(negotiate(arrived[0].versions, d.version).value), d.version))
  {
  }

  /** A client that hears of another identity, or of no shared major, has written only its Hello; any
      answer it gives as an outcome of a request came after it wrote one. */
  lemma NothingRequestedWithoutAgreement(negotiate: Negotiation, c: Client, arrived: seq<Message>, run: ClientRun)
    ensures
      var e := Exchange(negotiate, c, arrived, run);
      var hello := [Hello(c.identity, c.versions)];
      && (e.result.Err? && e.result.error.NoShared? ==> e.written == hello)
      && (arrived != [] && arrived[0].Offer? && arrived[0].identity != c.identity ==> e.written <= hello)
      && (|e.written| == 2 ==>
            && e.written[0] == hello[0] && e.written[1].Request? && e.written[1].body == c.body
            && arrived != [] && arrived[0].Offer? && arrived[0].identity == c.identity && arrived[0].selected.Some?
            && negotiate(c.versions, arrived[0].desktop) == Ok(arrived[0].selected.value))
      && |e.written| <= 2
      && (e.result.Ok? && |e.written| != 2 ==> e.result == Ok(Refused(OtherIdentity)) && arrived[0].identity != c.identity)
      && (e.result == Err(Unanswered) ==> |e.written| == 2)
  {
  }

  // Both together.

  /** Each side reads a first part of what the other wrote. */
  predicate Connected(e: Exchanged, toClient: seq<Message>, s: Served, toDesktop: seq<Message>) {
    toDesktop <= e.written && toClient <= s.written
  }

  /** The clock only moves forward: the client read it before the desktop did. */
  predicate Ordered(k: ClientClock, r: Readings) {
    k.start <= k.sending <= k.host <= r.received <= r.host <= r.base <= r.check
  }

  lemma ActByBounds(c: Client, k: ClientClock, r: Readings)
    requires Ordered(k, r) && Remaining(k.sendBy, k.sending).Some?
    ensures
      var act := ActBy(Stamped(c, k).expiresAt, r);
      && (act.Some? ==>
            && r.check < act.value <= r.received + MaxEffectWindow
            && act.value + ReplyMargin <= k.sendBy + (k.host - k.sending) + (r.base - r.host))
      && (r.host + ReplyMargin >= k.sendBy + (k.host - k.sending) ==> act.None?)
      && (act.None? ==>
            || k.sendBy + (k.host - k.sending) + (r.base - r.host) <= r.check + ReplyMargin
            || MaxU64 <= r.check + ReplyMargin
            || r.received + MaxEffectWindow <= r.check)
  {
  }

  /** The handler ran only for this client's request, after both settled on the same version, and must
      act strictly later than now, within the effect window after arrival, and earlier by the reply
      margin than the deadline the client had when it stamped the request, up to the skew between the
      paired clock readings. */
  predicate AsAgreed(negotiate: Negotiation, c: Client, d: Desktop, k: ClientClock, r: Readings, handled: seq<Handled>) {
    && c.identity == d.identity && Descending(c.versions) && negotiate(c.versions, d.version).Ok?
    && Ordered(k, r) && |handled| == 1 && handled[0].body == c.body
    && r.check < handled[0].actBy <= r.received + MaxEffectWindow
    && handled[0].actBy + ReplyMargin <= k.sendBy + (k.host - k.sending) + (r.base - r.host)
  }

  /** When a client and a desktop run their code against each other, over any faults, what is handled
      is handled as agreed, and the client was told so. */
  lemma HandledAsAgreed(negotiate: Negotiation, c: Client, d: Desktop, toClient: seq<Message>, toDesktop: seq<Message>,
                        handle: Handled -> Option<Reply>, cr: ClientRun, dr: DesktopRun)
    requires
      Connected(Exchange(negotiate, c, toClient, cr), toClient, Serve(negotiate, d, toDesktop, handle, dr), toDesktop)
    requires Ordered(cr.clock, dr.readings)
    ensures
      var s := Serve(negotiate, d, toDesktop, handle, dr);
      s.handled != [] ==>
        && AsAgreed(negotiate, c, d, cr.clock, dr.readings, s.handled)
        && toClient != [] && s.written != []
        && toClient[0] == s.written[0] == Offer(d.identity, Some(negotiate(c.versions, d.version).value), d.version)
  {
    HandlerRunsOnce(negotiate, d, toDesktop, handle, dr);
    NothingRequestedWithoutAgreement(negotiate, c, toClient, cr);
    if Serve(negotiate, d, toDesktop, handle, dr).handled != [] {
      assert toDesktop == Exchange(negotiate, c, toClient, cr).written;
      ActByBounds(c, cr.clock, dr.readings);
    }
  }

  /** The other way round: an answer the client takes for the outcome of its request was the
      handler's, and a client told that no major is shared was never handled. */
  lemma AnswersAreTheHandlers(negotiate: Negotiation, c: Client, d: Desktop, toClient: seq<Message>, toDesktop: seq<Message>,
                              handle: Handled -> Option<Reply>, cr: ClientRun, dr: DesktopRun)
    requires
      Connected(Exchange(negotiate, c, toClient, cr), toClient, Serve(negotiate, d, toDesktop, handle, dr), toDesktop)
    ensures
      var e := Exchange(negotiate, c, toClient, cr);
      var s := Serve(negotiate, d, toDesktop, handle, dr);
      && (e.result.Ok? ==>
            || (e.result == Ok(Refused(OtherIdentity)) && c.identity != d.identity && s.handled == [])
            || (s.handled != [] && handle(s.handled[0]) == Some(e.result.value)))
      && (|e.written| < 2 ==> s.handled == [])
      && (c.identity != d.identity ==> s.handled == [])
  {
    HandlerRunsOnce(negotiate, d, toDesktop, handle, dr);
    NothingRequestedWithoutAgreement(negotiate, c, toClient, cr);
  }

  // Acting late.

  function Max(a: nat, b: nat): nat {
    if a < b then b else a
  }

  /** A desktop that read these instants, its two clocks `skew` apart, lets a request act after its
      client gave up. */
  predicate ActsLate(c: Client, k: ClientClock, gaveUp: nat, skew: nat, r: Readings) {
    Ordered(k, r) && r.base == r.host + skew && gaveUp <= r.check && ActBy(Stamped(c, k).expiresAt, r).Some?
  }

  /** The stamp is the deadline the client read, later by as much as lay between its two readings. */
  lemma StampedLate(c: Client, k: ClientClock)
    requires k.sending <= k.host && Remaining(k.sendBy, k.sending).Some?
    ensures
      var stamp := k.sendBy + (k.host - k.sending);
      Stamped(c, k).expiresAt == if stamp <= MaxU64 then stamp else MaxU64
  {
  }

  /** A desktop whose readings lie `skew` apart can let a request act after its client gave up exactly
      when the client gave up, and the desktop can read its clock, more than the reply margin before
      the stamp moved by the skew, and the skew is less than the effect window. */
  lemma ActsLateExactly(c: Client, k: ClientClock, gaveUp: nat, skew: nat)
    requires k.start <= k.sending <= k.host && Remaining(k.sendBy, k.sending).Some?
    ensures
      (exists r :: ActsLate(c, k, gaveUp, skew, r)) <==>
        skew < MaxEffectWindow && Max(gaveUp, k.host + skew) + ReplyMargin < Stamped(c, k).expiresAt + skew
  {
    var stamp, latest := Stamped(c, k).expiresAt, Max(gaveUp, k.host + skew);
    forall r | ActsLate(c, k, gaveUp, skew, r)
      ensures skew < MaxEffectWindow && latest + ReplyMargin < stamp + skew
    {
      assert Minus(Minus(stamp, r.host), ReplyMargin) > 0;
    }
    if skew < MaxEffectWindow && latest + ReplyMargin < stamp + skew {
      var h := latest - skew;
      assert ActsLate(c, k, gaveUp, skew, Readings(h, h, h + skew, h + skew));
    }
  }

  /** Some desktop can, whatever its readings: exactly when the stamp is further ahead than the reply
      margin, and the client gave up less than the effect window after what the stamp allows. */
  lemma CanActLateExactly(c: Client, k: ClientClock, gaveUp: nat)
    requires k.start <= k.sending <= k.host && Remaining(k.sendBy, k.sending).Some?
    ensures
      (exists skew: nat, r :: ActsLate(c, k, gaveUp, skew, r)) <==>
        && k.host + ReplyMargin < Stamped(c, k).expiresAt
        && gaveUp + ReplyMargin + 1 < Stamped(c, k).expiresAt + MaxEffectWindow
  {
    forall skew: nat, r | ActsLate(c, k, gaveUp, skew, r)
      ensures k.host + ReplyMargin < Stamped(c, k).expiresAt
      ensures gaveUp + ReplyMargin + 1 < Stamped(c, k).expiresAt + MaxEffectWindow
    {
      ActsLateExactly(c, k, gaveUp, skew);
    }
    ActsLateExactly(c, k, gaveUp, MaxEffectWindow - 1);
  }
}
