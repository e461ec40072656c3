/** The channel's two ends run over bytes: their messages are encoded, framed and moved in pieces as the
    turns of each stream allow, and what arrives is any first part of what the other end sent. */
module ChannelBytes {
  import opened Common
  import opened Channel
  import F = Framing

  /** Message encoding, which is only called; `Garbage` is what nothing encodes to. */
  datatype Json = Json(encode: Message -> Bytes, decode: Bytes -> Message) {
    ghost predicate Faithful() {
      forall m: Message :: !m.Garbage? ==> decode(encode(m)) == m
    }

    function Encoded(ms: seq<Message>): (bs: seq<Bytes>)
      ensures |bs| == |ms| && forall i | 0 <= i < |ms| :: bs[i] == encode(ms[i])
    {
      seq(|ms|, i requires 0 <= i < |ms| => encode(ms[i]))
    }
  }

  /** One end's stream: all that arrives, and what its operations do. */
  datatype Socket = Socket(json: Json, wire: Bytes, turns: seq<F.Turn>)

  /** How far an end has come: what it took and sent, and the turns and waits behind it. */
  datatype Line = Line(taken: nat, sent: Bytes, turn: nat, waits: seq<F.Wait>) {
    predicate On(s: Socket) { taken <= |s.wire| && turn <= |s.turns| }
  }

  const Fresh: Line := Line(0, [], 0, [])

  /** A transfer: how it ended, the message when one was read, and where it left the line. */
  datatype Transfer = Transfer(end: F.End, message: Message, line: Line)

  /** Sends one message, unless it is too long. */
  function Put(s: Socket, m: Message, l: Line): (t: Transfer)
    requires l.On(s)
    ensures t.line.On(s) && t.line.taken == l.taken && l.sent <= t.line.sent
    ensures F.AllTimely(l.waits) ==> F.AllTimely(t.line.waits)
  {
    var body := s.json.encode(m);
    if |body| > F.MaxMessage then Transfer(F.Protocol, Garbage, l)
    else
      var frame := F.Length(|body|) + body;
      var p := F.Move(|frame|, 0, |frame|, s.turns, l.turn, l.waits);
      Transfer(p.end, Garbage, l.(sent := l.sent + frame[..p.at], turn := p.turn, waits := p.waits))
  }

  /** Reads one message and decodes it. */
  function Take(s: Socket, l: Line): (t: Transfer)
    requires l.On(s)
    ensures t.line.On(s) && t.line.sent == l.sent
    ensures F.AllTimely(l.waits) ==> F.AllTimely(t.line.waits)
  {
    var r := F.ReadBy(s.wire, |s.wire|, l.taken, s.turns, l.turn, l.waits);
    Transfer(r.end, if r.end.Done? then s.json.decode(r.message) else Garbage, l.(taken := r.at, turn := r.turn, waits := r.waits))
  }

  /** `Running` when the turns given so far do not end the call. */
  datatype Outcome<T> = Running | Finished(value: T)

  /** The fault of a transfer; one still in progress has not delivered its message either. */
  function Fault(end: F.End): Option<TransferFault> {
    match end
    case Done => None
    case Protocol => Some(Protocol)
    case _ => Some(Timeout)
  }

  // The client.

  datatype Talk = Talk(outcome: Outcome<Result<Reply, ChannelError>>, line: Line)

  function Failed(end: F.End): Outcome<Result<Reply, ChannelError>>
    requires !end.Done?
  {
    if end.InProgress? then Running else Finished(Err(Fault(end).value))
  }

  function LostReply(end: F.End): Outcome<Result<Reply, ChannelError>>
    requires !end.Done?
  {
    if end.InProgress? then Running else Finished(Err(Lost(Fault(end).value)))
  }

  /** The client's transfers in order, were it to make them all. */
  datatype ClientSteps = ClientSteps(hello: Transfer, offer: Transfer, request: Transfer, reply: Transfer)

  function ClientStepsOn(s: Socket, c: Client, k: ClientClock): (x: ClientSteps)
    ensures F.AllTimely(x.hello.line.waits) && F.AllTimely(x.offer.line.waits)
    ensures F.AllTimely(x.request.line.waits) && F.AllTimely(x.reply.line.waits)
  {
    var hello := Put(s, Hello(c.identity, c.versions), Fresh);
    var offer := Take(s, hello.line);
    var request := Put(s, Stamped(c, k), offer.line);
    ClientSteps(hello, offer, request, Take(s, request.line))
  }

  /** The exchange, which makes only the first of them. */
  function Talked(negotiate: Negotiation, c: Client, k: ClientClock, closes: bool, x: ClientSteps): Talk {
    if Remaining(k.startBy, k.start).None? then Talk(Finished(Err(Timeout)), Fresh)
    else if !x.hello.end.Done? then Talk(Failed(x.hello.end), x.hello.line)
    else if !x.offer.end.Done? then Talk(Failed(x.offer.end), x.offer.line)
    else if Concluded(negotiate, c, x.offer.message).Some? then
      Talk(Finished(Concluded(negotiate, c, x.offer.message).value), x.offer.line)
    else if Remaining(k.sendBy, k.sending).None? then Talk(Finished(Err(Timeout)), x.offer.line)
    else if !x.request.end.Done? then Talk(Failed(x.request.end), x.request.line)
    else if !closes then Talk(Finished(Err(Protocol)), x.request.line)
    else if !x.reply.end.Done? then Talk(LostReply(x.reply.end), x.reply.line)
    else Talk(Finished(if x.reply.message.Answer? then Ok(x.reply.message.reply) else Err(Unanswered)), x.reply.line)
  }

  function ExchangeOver(s: Socket, negotiate: Negotiation, c: Client, k: ClientClock, closes: bool): (t: Talk)
    ensures F.AllTimely(t.line.waits)
  {
    Talked(negotiate, c, k, closes, ClientStepsOn(s, c, k))
  }

  // The desktop.

  datatype Service = Service(outcome: Outcome<Option<ChannelError>>, line: Line, handled: seq<Handled>)

  function Ended(end: F.End): Outcome<Option<ChannelError>> {
    if end.InProgress? then Running else Finished(Fault(end))
  }

  /** The desktop's transfers in order, were it to make them all. */
  datatype DesktopSteps = DesktopSteps(hello: Transfer, offer: Transfer, request: Transfer, answer: Transfer)

  /** The Offer that answers a Hello. */
  function OfferTo(negotiate: Negotiation, d: Desktop, hello: Message): Message {
    Offer(d.identity, if hello.Hello? then Selected(negotiate, d, hello) else None, d.version)
  }

  /** What the handler says to a request, when it is called. */
  function ReplyTo(handle: Handled -> Option<Reply>, r: Readings, request: Message): Option<Reply> {
    if !request.Request? || Call(request, r).None? then None else handle(Call(request, r).value)
  }

  function DesktopStepsOn(s: Socket, negotiate: Negotiation, d: Desktop, handle: Handled -> Option<Reply>, r: Readings): (x: DesktopSteps)
    ensures F.AllTimely(x.hello.line.waits) && F.AllTimely(x.offer.line.waits)
    ensures F.AllTimely(x.request.line.waits) && F.AllTimely(x.answer.line.waits)
  {
    var hello := Take(s, Fresh);
    var offer := Put(s, OfferTo(negotiate, d, hello.message), hello.line);
    var request := Take(s, offer.line);
    var reply := ReplyTo(handle, r, request.message);
    DesktopSteps(hello, offer, request, if reply.Some? then Put(s, Answer(reply.value), request.line) else request)
  }

  /** The service, which makes only the first of them. */
  function Attended(negotiate: Negotiation, d: Desktop, handle: Handled -> Option<Reply>, r: Readings, x: DesktopSteps): Service {
    if !x.hello.end.Done? then Service(Ended(x.hello.end), x.hello.line, [])
    else if !x.hello.message.Hello? || !Descending(x.hello.message.versions) then Service(Finished(Some(Protocol)), x.hello.line, [])
    else if !x.offer.end.Done? || Selected(negotiate, d, x.hello.message).None? then Service(Ended(x.offer.end), x.offer.line, [])
    else if !x.request.end.Done? then Service(Ended(x.request.end), x.request.line, [])
    else if !x.request.message.Request? then Service(Finished(Some(Protocol)), x.request.line, [])
    else if Call(x.request.message, r).None? then Service(Finished(None), x.request.line, [])
    else
      var call := Call(x.request.message, r).value;
      if handle(call).None? then Service(Finished(None), x.request.line, [call])
      else Service(Ended(x.answer.end), x.answer.line, [call])
  }

  function ServeOver(s: Socket, negotiate: Negotiation, d: Desktop, handle: Handled -> Option<Reply>, r: Readings): (v: Service)
    ensures F.AllTimely(v.line.waits)
  {
    Attended(negotiate, d, handle, r, DesktopStepsOn(s, negotiate, d, handle, r))
  }

  // The bytes of each end carry its messages.

  /** `sent` is the frames of the whole messages `ms` and less than the frame of `next`. */
  predicate CarriesUpTo(json: Json, sent: Bytes, ms: seq<Message>, next: Bytes) {
    var frames := json.Encoded(ms) + [next];
    F.Sendable(frames) && sent <= F.Wire(frames) && |sent| < F.Size(frames)
  }

  ghost predicate Carries(json: Json, sent: Bytes, ms: seq<Message>) {
    exists next :: CarriesUpTo(json, sent, ms, next)
  }

  predicate Whole(json: Json, sent: Bytes, ms: seq<Message>) {
    F.Sendable(json.Encoded(ms)) && sent == F.Wire(json.Encoded(ms))
  }

  lemma WireCons(first: Bytes, rest: seq<Bytes>)
    requires |first| <= F.MaxMessage && F.Sendable(rest)
    ensures F.Sendable([first] + rest) && F.Wire([first] + rest) == F.Length(|first|) + first + F.Wire(rest)
  {
    assert ([first] + rest)[1..] == rest;
  }

  lemma Grouped(a: Bytes, b: Bytes, c: Bytes)
    ensures a + (b + c) == a + b + c
  {
  }

  lemma {:induction false} WireSnoc(ms: seq<Bytes>, m: Bytes)
    requires F.Sendable(ms) && |m| <= F.MaxMessage
    ensures F.Sendable(ms + [m]) && F.Wire(ms + [m]) == F.Wire(ms) + (F.Length(|m|) + m)
    decreases |ms|
  {
    if ms == [] {
      WireCons(m, []);
      assert [m] + [] == [] + [m];
    } else {
      var first, rest := ms[0], ms[1..];
      WireSnoc(rest, m);
      WireCons(first, rest + [m]);
      WireCons(first, rest);
      assert [first] + (rest + [m]) == ms + [m] && [first] + rest == ms;
      Grouped(F.Length(|first|) + first, F.Wire(rest), F.Length(|m|) + m);
    }
  }

  lemma WholeCarries(json: Json, sent: Bytes, ms: seq<Message>)
    requires Whole(json, sent, ms)
    ensures Carries(json, sent, ms)
  {
    WireSnoc(json.Encoded(ms), []);
    assert CarriesUpTo(json, sent, ms, []);
  }

  /** Sending after whole messages: the message is whole as well exactly when the transfer ends well. */
  lemma PutCarries(s: Socket, m: Message, l: Line, ms: seq<Message>)
    requires l.On(s) && Whole(s.json, l.sent, ms)
    ensures
      var t := Put(s, m, l);
      if t.end.Done? then Whole(s.json, t.line.sent, ms + [m]) else Carries(s.json, t.line.sent, ms)
  {
    var body := s.json.encode(m);
    if |body| > F.MaxMessage {
      WholeCarries(s.json, l.sent, ms);
    } else {
      var frame := F.Length(|body|) + body;
      var p := F.Move(|frame|, 0, |frame|, s.turns, l.turn, l.waits);
      WireSnoc(s.json.Encoded(ms), body);
      if p.end.Done? {
        assert frame[..p.at] == frame;
        assert s.json.Encoded(ms + [m]) == s.json.Encoded(ms) + [body];
      } else {
        assert l.sent + frame[..p.at] <= l.sent + frame;
        assert CarriesUpTo(s.json, l.sent + frame[..p.at], ms, body);
      }
    }
  }

  // What an end reads is what the other wholly wrote.

  /** Reading what arrived is reading the whole wire of which only that much can move. */
  lemma ReadsPart(wire: Bytes, whole: Bytes, at: nat, turns: seq<F.Turn>, turn: nat, waits: seq<F.Wait>)
    requires wire <= whole && at <= |wire| && turn <= |turns|
    ensures F.ReadBy(wire, |wire|, at, turns, turn, waits) == F.ReadBy(whole, |wire|, at, turns, turn, waits)
  {
    var head := F.Move(|wire|, at, at + 4, turns, turn, waits);
    if head.end.Done? {
      assert wire[at..at + 4] == whole[at..at + 4];
      var n := F.Decoded(wire[at..at + 4]);
      var body := F.Move(|wire|, at + 4, at + 4 + n, turns, head.turn, head.waits);
      if body.end.Done? { assert wire[at + 4..at + 4 + n] == whole[at + 4..at + 4 + n]; }
    }
  }

  lemma {:induction false} FrameOf(wire: Bytes, at: nat, ms: seq<Bytes>, i: nat)
    requires F.FramesAt(wire, at, ms) && i < |ms|
    ensures F.FrameAt(wire, at + F.Size(ms[..i]), ms[i])
    decreases i
  {
    if i > 0 {
      FrameOf(wire, at + 4 + |ms[0]|, ms[1..], i - 1);
      assert ms[1..][..i - 1] == ms[..i][1..];
    }
  }

  lemma {:induction false} SizeSnoc(ms: seq<Bytes>, i: nat)
    requires i < |ms|
    ensures F.Size(ms[..i + 1]) == F.Size(ms[..i]) + 4 + |ms[i]|
    decreases i
  {
    if i == 0 {
      assert ms[..1][1..] == [];
    } else {
      SizeSnoc(ms[1..], i - 1);
      assert ms[..i + 1][1..] == ms[1..][..i] && ms[..i][1..] == ms[1..][..i - 1];
    }
  }

  /** The line has taken exactly the first `i` of the messages `ms`. */
  predicate TookOf(json: Json, ms: seq<Message>, i: nat, l: Line) {
    i <= |ms| && l.taken == F.Size(json.Encoded(ms)[..i])
  }

  predicate Genuine(ms: seq<Message>) {
    forall m <- ms :: !m.Garbage?
  }

  /** Where the frame of the `i`th message lies. */
  lemma Located(frames: seq<Bytes>, i: nat)
    requires F.Sendable(frames) && i < |frames|
    ensures F.FrameAt(F.Wire(frames), F.Size(frames[..i]), frames[i])
  {
    F.WireStarts(frames, []);
    assert F.Wire(frames) + [] == F.Wire(frames);
    FrameOf(F.Wire(frames), 0, frames, i);
  }

  /** However little arrived and however it is split, a message read is the next one wholly sent. */
  lemma NextTaken(s: Socket, sent: Bytes, ms: seq<Message>, i: nat, l: Line)
    requires s.json.Faithful() && Genuine(ms) && Carries(s.json, sent, ms) && s.wire <= sent
    requires l.On(s) && TookOf(s.json, ms, i, l)
    ensures
      var t := Take(s, l);
      t.end.Done? ==> i < |ms| && t.message == ms[i] && TookOf(s.json, ms, i + 1, t.line)
  {
    var next :| CarriesUpTo(s.json, sent, ms, next);
    var encoded := s.json.Encoded(ms);
    var frames := encoded + [next];
    var whole := F.Wire(frames);
    assert frames[..i] == encoded[..i];
    Located(frames, i);
    ReadsPart(s.wire, whole, l.taken, s.turns, l.turn, l.waits);
    F.ReadBack(whole, |s.wire|, l.taken, frames[i], s.turns, l.turn, l.waits);
    SizeSnoc(frames, i);
    assert frames[..i + 1] == if i < |ms| then encoded[..i + 1] else frames;
  }

  /** The messages two transfers read, the second only after the first. */
  function Heard(first: Transfer, second: Transfer): seq<Message> {
    if !first.end.Done? then [] else if !second.end.Done? then [first.message] else [first.message, second.message]
  }

  /** Two transfers read a first part of what the other end wholly wrote. */
  lemma HeardOfSent(s: Socket, sent: Bytes, ms: seq<Message>, l: Line, later: Line)
    requires s.json.Faithful() && Genuine(ms) && Carries(s.json, sent, ms) && s.wire <= sent
    requires l.On(s) && l.taken == 0 && later.On(s) && later.taken == Take(s, l).line.taken
    ensures Heard(Take(s, l), Take(s, later)) <= ms
  {
    assert TookOf(s.json, ms, 0, l);
    NextTaken(s, sent, ms, 0, l);
    if Take(s, l).end.Done? {
      assert TookOf(s.json, ms, 1, later);
      NextTaken(s, sent, ms, 1, later);
    }
  }

  // Refinement.

  function ClientRunOf(k: ClientClock, closes: bool, x: ClientSteps): ClientRun {
    ClientRun(k, Fault(x.hello.end), Fault(x.offer.end), Fault(x.request.end), closes, Fault(x.reply.end))
  }

  function ClientHeard(x: ClientSteps): seq<Message> {
    Heard(x.offer, x.reply)
  }

  /** Over bytes the client does what `Exchange` says of the messages it heard. */
  lemma ClientRefines(negotiate: Negotiation, c: Client, k: ClientClock, closes: bool, x: ClientSteps)
    ensures
      var t := Talked(negotiate, c, k, closes, x);
      var e := Exchange(negotiate, c, ClientHeard(x), ClientRunOf(k, closes, x));
      && (t.outcome.Finished? ==> t.outcome.value == e.result)
      && Genuine(e.written)
  {
  }

  /** A relation of the bytes an end sent and the messages it wrote. */
  type Relation = (Bytes, seq<Message>) -> bool

  /** It holds after each of the client's transfers. */
  predicate ClientSends(holds: Relation, c: Client, k: ClientClock, x: ClientSteps) {
    var first, second := Hello(c.identity, c.versions), Stamped(c, k);
    && holds(Fresh.sent, [])
    && holds(x.hello.line.sent, if x.hello.end.Done? then [first] else [])
    && x.offer.line.sent == x.hello.line.sent
    && (x.hello.end.Done? ==> holds(x.request.line.sent, if x.request.end.Done? then [first, second] else [first]))
    && x.reply.line.sent == x.request.line.sent
  }

  lemma FirstSent(s: Socket, m: Message, l: Line)
    requires l.On(s) && l.sent == []
    ensures
      var t := Put(s, m, l);
      Carries(s.json, t.line.sent, if t.end.Done? then [m] else []) && (t.end.Done? ==> Whole(s.json, t.line.sent, [m]))
  {
    assert Whole(s.json, l.sent, []);
    PutCarries(s, m, l, []);
    var t := Put(s, m, l);
    assert [] + [m] == [m];
    if t.end.Done? { WholeCarries(s.json, t.line.sent, [m]); }
  }

  lemma SecondSent(s: Socket, first: Message, m: Message, l: Line)
    requires l.On(s) && Whole(s.json, l.sent, [first])
    ensures var t := Put(s, m, l); Carries(s.json, t.line.sent, if t.end.Done? then [first, m] else [first])
  {
    PutCarries(s, m, l, [first]);
    var t := Put(s, m, l);
    assert [first] + [m] == [first, m];
    if t.end.Done? { WholeCarries(s.json, t.line.sent, [first, m]); }
  }

  lemma ClientStepsSend(s: Socket, c: Client, k: ClientClock)
    ensures ClientSends((sent, ms) => Carries(s.json, sent, ms), c, k, ClientStepsOn(s, c, k))
  {
    var first := Hello(c.identity, c.versions);
    var hello := Put(s, first, Fresh);
    var offer := Take(s, hello.line);
    assert Whole(s.json, Fresh.sent, []);
    WholeCarries(s.json, Fresh.sent, []);
    FirstSent(s, first, Fresh);
    if hello.end.Done? { SecondSent(s, first, Stamped(c, k), offer.line); }
  }

  /** Then it holds of what the client sent and wrote. */
  lemma ClientWrites(holds: Relation, negotiate: Negotiation, c: Client, k: ClientClock, closes: bool, x: ClientSteps)
    requires ClientSends(holds, c, k, x)
    ensures
      var e := Exchange(negotiate, c, ClientHeard(x), ClientRunOf(k, closes, x));
      holds(Talked(negotiate, c, k, closes, x).line.sent, e.written)
  {
    assert [Hello(c.identity, c.versions)] + [Stamped(c, k)] == [Hello(c.identity, c.versions), Stamped(c, k)];
  }

  function DesktopRunOf(r: Readings, x: DesktopSteps): DesktopRun {
    DesktopRun(Fault(x.hello.end), Fault(x.offer.end), Fault(x.request.end), r, Fault(x.answer.end))
  }

  function DesktopHeard(x: DesktopSteps): seq<Message> {
    Heard(x.hello, x.request)
  }

  /** Over bytes the desktop does what `Serve` says of the messages it heard. */
  lemma DesktopRefines(negotiate: Negotiation, d: Desktop, handle: Handled -> Option<Reply>, r: Readings, x: DesktopSteps)
    ensures
      var v := Attended(negotiate, d, handle, r, x);
      var e := Serve(negotiate, d, DesktopHeard(x), handle, DesktopRunOf(r, x));
      && (v.outcome.Finished? ==> v.outcome.value == e.end)
      && v.handled == e.handled && Genuine(e.written)
  {
  }

  /** The relation holds after each of the desktop's transfers. */
  predicate DesktopSends(
    holds: Relation, negotiate: Negotiation, d: Desktop, handle: Handled -> Option<Reply>, r: Readings, x: DesktopSteps)
  {
    var first, reply := OfferTo(negotiate, d, x.hello.message), ReplyTo(handle, r, x.request.message);
    && holds(x.hello.line.sent, [])
    && holds(x.offer.line.sent, if x.offer.end.Done? then [first] else [])
    && x.request.line.sent == x.offer.line.sent
    && (x.offer.end.Done? && reply.Some? ==>
          holds(x.answer.line.sent, if x.answer.end.Done? then [first, Answer(reply.value)] else [first]))
  }

  lemma DesktopStepsSend(s: Socket, negotiate: Negotiation, d: Desktop, handle: Handled -> Option<Reply>, r: Readings)
    ensures DesktopSends((sent, ms) => Carries(s.json, sent, ms), negotiate, d, handle, r, DesktopStepsOn(s, negotiate, d, handle, r))
  {
    var hello := Take(s, Fresh);
    var first := OfferTo(negotiate, d, hello.message);
    var offer := Put(s, first, hello.line);
    var request := Take(s, offer.line);
    var reply := ReplyTo(handle, r, request.message);
    assert Whole(s.json, hello.line.sent, []);
    WholeCarries(s.json, hello.line.sent, []);
    FirstSent(s, first, hello.line);
    if offer.end.Done? && reply.Some? { SecondSent(s, first, Answer(reply.value), request.line); }
  }

  /** Then it holds of what the desktop sent and wrote. */
  lemma DesktopWrites(holds: Relation, negotiate: Negotiation, d: Desktop, handle: Handled -> Option<Reply>, r: Readings, x: DesktopSteps)
    requires DesktopSends(holds, negotiate, d, handle, r, x)
    ensures
      var e := Serve(negotiate, d, DesktopHeard(x), handle, DesktopRunOf(r, x));
      holds(Attended(negotiate, d, handle, r, x).line.sent, e.written)
  {
    var first, reply := OfferTo(negotiate, d, x.hello.message), ReplyTo(handle, r, x.request.message);
    if reply.Some? { assert [first] + [Answer(reply.value)] == [first, Answer(reply.value)]; }
  }

  // Both together.

  /** Each end has received a first part of the bytes the other sent. */
  ghost predicate Joined(client: Socket, t: Talk, desktop: Socket, v: Service) {
    client.json == desktop.json && desktop.wire <= t.line.sent && client.wire <= v.line.sent
  }

  lemma JoinedIsConnected(client: Socket, desktop: Socket, negotiate: Negotiation, c: Client, k: ClientClock, closes: bool,
                          d: Desktop, handle: Handled -> Option<Reply>, r: Readings)
    requires client.json.Faithful()
    requires Joined(client, ExchangeOver(client, negotiate, c, k, closes), desktop, ServeOver(desktop, negotiate, d, handle, r))
    ensures
      var x, y := ClientStepsOn(client, c, k), DesktopStepsOn(desktop, negotiate, d, handle, r);
      Connected(Exchange(negotiate, c, ClientHeard(x), ClientRunOf(k, closes, x)), ClientHeard(x),
                Serve(negotiate, d, DesktopHeard(y), handle, DesktopRunOf(r, y)), DesktopHeard(y))
  {
    var x, y := ClientStepsOn(client, c, k), DesktopStepsOn(desktop, negotiate, d, handle, r);
    var e := Exchange(negotiate, c, ClientHeard(x), ClientRunOf(k, closes, x));
    var f := Serve(negotiate, d, DesktopHeard(y), handle, DesktopRunOf(r, y));
    ClientRefines(negotiate, c, k, closes, x);
    DesktopRefines(negotiate, d, handle, r, y);
    ClientStepsSend(client, c, k);
    ClientWrites((sent, ms) => Carries(client.json, sent, ms), negotiate, c, k, closes, x);
    DesktopStepsSend(desktop, negotiate, d, handle, r);
    DesktopWrites((sent, ms) => Carries(desktop.json, sent, ms), negotiate, d, handle, r, y);
    HeardOfSent(client, ServeOver(desktop, negotiate, d, handle, r).line.sent, f.written, x.hello.line, x.request.line);
    HeardOfSent(desktop, ExchangeOver(client, negotiate, c, k, closes).line.sent, e.written, Fresh, y.offer.line);
  }

  /** The two ends over bytes, at any moment of any run, whatever the splits, retries, faults and moving
      deadlines: what the desktop handles is handled as agreed, an answer the client takes for the
      outcome of its request is the handler's reply to it, and no wait outlasts its deadline. */
  lemma HandledAsAgreedOverBytes(client: Socket, desktop: Socket, negotiate: Negotiation, c: Client, k: ClientClock, closes: bool,
                                 d: Desktop, handle: Handled -> Option<Reply>, r: Readings)
    requires client.json.Faithful() && Ordered(k, r)
    requires Joined(client, ExchangeOver(client, negotiate, c, k, closes), desktop, ServeOver(desktop, negotiate, d, handle, r))
    ensures
      var t, v := ExchangeOver(client, negotiate, c, k, closes), ServeOver(desktop, negotiate, d, handle, r);
      && (v.handled != [] ==> AsAgreed(negotiate, c, d, k, r, v.handled))
      && (t.outcome.Finished? && t.outcome.value.Ok? ==>
            || (t.outcome.value == Ok(Refused(OtherIdentity)) && c.identity != d.identity && v.handled == [])
            || (v.handled != [] && handle(v.handled[0]) == Some(t.outcome.value.value)))
      && F.AllTimely(t.line.waits) && F.AllTimely(v.line.waits)
  {
    var x, y := ClientStepsOn(client, c, k), DesktopStepsOn(desktop, negotiate, d, handle, r);
    JoinedIsConnected(client, desktop, negotiate, c, k, closes, d, handle, r);
    ClientRefines(negotiate, c, k, closes, x);
    DesktopRefines(negotiate, d, handle, r, y);
    HandledAsAgreed(negotiate, c, d, ClientHeard(x), DesktopHeard(y), handle, ClientRunOf(k, closes, x), DesktopRunOf(r, y));
    AnswersAreTheHandlers(negotiate, c, d, ClientHeard(x), DesktopHeard(y), handle, ClientRunOf(k, closes, x), DesktopRunOf(r, y));
  }

  // Nothing but a fault, a refusal or lateness keeps the reply away.

  /** The longest frame. */
  const MaxFrame: nat := 4 + F.MaxMessage

  predicate Fits(json: Json, m: Message) {
    |json.encode(m)| <= F.MaxMessage
  }

  function Framed(json: Json, m: Message): (b: Bytes)
    requires Fits(json, m)
    ensures |b| == 4 + |json.encode(m)| <= MaxFrame
  {
    F.Length(|json.encode(m)|) + json.encode(m)
  }

  /** Only healthy turns, of which from `turn` on at least `frames` longest frames' bytes are moved. */
  predicate Eager(s: Socket, turn: nat, frames: nat) {
    turn <= |s.turns| && (forall t <- s.turns :: F.Healthy(t)) && F.Moving(s.turns, turn) >= frames * MaxFrame
  }

  lemma EagerPut(s: Socket, m: Message, l: Line, frames: nat)
    requires l.On(s) && Fits(s.json, m) && Eager(s, l.turn, frames + 1)
    ensures
      var t := Put(s, m, l);
      t.end.Done? && t.line.sent == l.sent + Framed(s.json, m) && Eager(s, t.line.turn, frames)
  {
    var frame := Framed(s.json, m);
    F.SplitsNeverFail(|frame|, 0, |frame|, s.turns, l.turn, l.waits);
    assert frame[..|frame|] == frame;
  }

  lemma EagerTake(s: Socket, before: Bytes, m: Message, l: Line, frames: nat)
    requires s.json.Faithful() && !m.Garbage? && Fits(s.json, m)
    requires before + Framed(s.json, m) <= s.wire && l.On(s) && l.taken == |before| && Eager(s, l.turn, frames + 1)
    ensures
      var t := Take(s, l);
      t.end.Done? && t.message == m && t.line.taken == |before + Framed(s.json, m)| && Eager(s, t.line.turn, frames)
  {
    var body, frame := s.json.encode(m), Framed(s.json, m);
    assert s.wire == before + frame + s.wire[|before + frame|..];
    F.FrameLies(before, body, s.wire[|before + frame|..]);
    F.HealthyRead(body, s.wire, |s.wire|, l.taken, s.turns, l.turn, l.waits);
    F.ReadBack(s.wire, |s.wire|, l.taken, body, s.turns, l.turn, l.waits);
  }

  /** Both ends agree, the client has time, and what they say up to the request fits. */
  predicate Agreeing(json: Json, negotiate: Negotiation, c: Client, k: ClientClock, d: Desktop) {
    && Remaining(k.startBy, k.start).Some? && Remaining(k.sendBy, k.sending).Some?
    && c.identity == d.identity && Descending(c.versions) && negotiate(c.versions, d.version).Ok?
    && Fits(json, Hello(c.identity, c.versions)) && Fits(json, Settled(negotiate, c, d)) && Fits(json, Stamped(c, k))
  }

  /** They agree, the request comes in time, and the handler answers it with something that fits. */
  predicate Meets(json: Json, negotiate: Negotiation, c: Client, k: ClientClock,
                  d: Desktop, handle: Handled -> Option<Reply>, r: Readings)
  {
    && Agreeing(json, negotiate, c, k, d)
    && ReplyTo(handle, r, Stamped(c, k)).Some? && Fits(json, Answer(ReplyTo(handle, r, Stamped(c, k)).value))
  }

  /** The Offer of a desktop that agrees with its client. */
  function Settled(negotiate: Negotiation, c: Client, d: Desktop): Message
    requires negotiate(c.versions, d.version).Ok?
  {
    Offer(d.identity, Some(negotiate(c.versions, d.version).value), d.version)
  }

  /** A Hello that is there to read is answered. */
  lemma HelloAnswered(s: Socket, negotiate: Negotiation, c: Client, k: ClientClock,
                      d: Desktop, handle: Handled -> Option<Reply>, r: Readings)
    requires s.json.Faithful() && Agreeing(s.json, negotiate, c, k, d) && Eager(s, 0, 4)
    requires Framed(s.json, Hello(c.identity, c.versions)) <= s.wire
    ensures
      var y, hello := DesktopStepsOn(s, negotiate, d, handle, r), Hello(c.identity, c.versions);
      && y.hello.end.Done? && y.hello.message == hello && y.hello.line.taken == |Framed(s.json, hello)|
      && y.offer.end.Done? && y.offer.line.sent == Framed(s.json, Settled(negotiate, c, d)) && Eager(s, y.offer.line.turn, 2)
  {
    var hello, offer := Hello(c.identity, c.versions), Settled(negotiate, c, d);
    assert [] + Framed(s.json, hello) == Framed(s.json, hello) && [] + Framed(s.json, offer) == Framed(s.json, offer);
    EagerTake(s, [], hello, Fresh, 3);
    EagerPut(s, offer, Take(s, Fresh).line, 2);
  }

  lemma HelloArrives(client: Socket, desktop: Socket, negotiate: Negotiation, c: Client, k: ClientClock, closes: bool,
                     d: Desktop, handle: Handled -> Option<Reply>, r: Readings)
    requires client.json.Faithful() && client.json == desktop.json && Meets(client.json, negotiate, c, k, d, handle, r)
    requires Eager(client, 0, 4) && Eager(desktop, 0, 4)
    requires desktop.wire == ExchangeOver(client, negotiate, c, k, closes).line.sent
    ensures
      var x, y := ClientStepsOn(client, c, k), DesktopStepsOn(desktop, negotiate, d, handle, r);
      var hello, offer := Hello(c.identity, c.versions), Settled(negotiate, c, d);
      && x.hello.end.Done? && x.hello.line.sent == Framed(client.json, hello) && Eager(client, x.hello.line.turn, 3)
      && y.hello.end.Done? && y.hello.message == hello && y.hello.line.taken == |Framed(client.json, hello)|
      && y.offer.end.Done? && y.offer.line.sent == Framed(client.json, offer) && Eager(desktop, y.offer.line.turn, 2)
  {
    var x, hello := ClientStepsOn(client, c, k), Hello(c.identity, c.versions);
    EagerPut(client, hello, Fresh, 3);
    assert [] + Framed(client.json, hello) == Framed(client.json, hello);
    assert x.hello.line.sent <= desktop.wire;
    HelloAnswered(desktop, negotiate, c, k, d, handle, r);
  }

  /** Every byte each end sent arrives at the other, and nothing keeps them from answering. */
  ghost predicate Runs(client: Socket, desktop: Socket, negotiate: Negotiation, c: Client, k: ClientClock,
                       d: Desktop, handle: Handled -> Option<Reply>, r: Readings)
  {
    && client.json.Faithful() && client.json == desktop.json && Meets(client.json, negotiate, c, k, d, handle, r)
    && Eager(client, 0, 4) && Eager(desktop, 0, 4)
    && desktop.wire == ExchangeOver(client, negotiate, c, k, true).line.sent
    && client.wire == ServeOver(desktop, negotiate, d, handle, r).line.sent
  }

  lemma OfferArrives(client: Socket, desktop: Socket, negotiate: Negotiation, c: Client, k: ClientClock,
                     d: Desktop, handle: Handled -> Option<Reply>, r: Readings)
    requires Runs(client, desktop, negotiate, c, k, d, handle, r)
    ensures
      var x := ClientStepsOn(client, c, k);
      var hello, offer := Hello(c.identity, c.versions), Settled(negotiate, c, d);
      && x.offer.end.Done? && x.offer.message == offer && x.offer.line.taken == |Framed(client.json, offer)|
      && x.request.end.Done? && Eager(client, x.request.line.turn, 1)
      && x.request.line.sent == Framed(client.json, hello) + Framed(client.json, Stamped(c, k))
  {
    HelloArrives(client, desktop, negotiate, c, k, true, d, handle, r);
    var x, offer := ClientStepsOn(client, c, k), Settled(negotiate, c, d);
    OfferIsSent(desktop, negotiate, d, handle, r);
    assert [] + Framed(client.json, offer) == Framed(client.json, offer);
    EagerTake(client, [], offer, x.hello.line, 2);
    EagerPut(client, Stamped(c, k), x.offer.line, 1);
  }

  lemma OfferIsSent(s: Socket, negotiate: Negotiation, d: Desktop, handle: Handled -> Option<Reply>, r: Readings)
    requires
      var y := DesktopStepsOn(s, negotiate, d, handle, r);
      y.hello.end.Done? && y.hello.message.Hello? && Descending(y.hello.message.versions)
    ensures DesktopStepsOn(s, negotiate, d, handle, r).offer.line.sent <= ServeOver(s, negotiate, d, handle, r).line.sent
  {
  }

  lemma RequestIsSent(negotiate: Negotiation, c: Client, k: ClientClock, x: ClientSteps)
    requires Remaining(k.startBy, k.start).Some? && Remaining(k.sendBy, k.sending).Some?
    requires x.hello.end.Done? && x.offer.end.Done? && Concluded(negotiate, c, x.offer.message).None? && x.request.end.Done?
    requires x.reply.line.sent == x.request.line.sent
    ensures Talked(negotiate, c, k, true, x).line.sent == x.request.line.sent
  {
  }

  /** After its Offer, a request of the client that is there to read is answered. */
  lemma RequestAnswered(s: Socket, negotiate: Negotiation, c: Client, k: ClientClock,
                        d: Desktop, handle: Handled -> Option<Reply>, r: Readings, l: Line)
    requires s.json.Faithful() && Meets(s.json, negotiate, c, k, d, handle, r) && l.On(s) && Eager(s, l.turn, 2)
    requires l.taken == |Framed(s.json, Hello(c.identity, c.versions))|
    requires s.wire == Framed(s.json, Hello(c.identity, c.versions)) + Framed(s.json, Stamped(c, k))
    ensures
      var request, reply := Take(s, l), Answer(ReplyTo(handle, r, Stamped(c, k)).value);
      var answer := Put(s, reply, request.line);
      && request.end.Done? && request.message == Stamped(c, k)
      && answer.end.Done? && answer.line.sent == l.sent + Framed(s.json, reply)
  {
    EagerTake(s, Framed(s.json, Hello(c.identity, c.versions)), Stamped(c, k), l, 1);
    EagerPut(s, Answer(ReplyTo(handle, r, Stamped(c, k)).value), Take(s, l).line, 0);
  }

  lemma RequestArrives(client: Socket, desktop: Socket, negotiate: Negotiation, c: Client, k: ClientClock,
                       d: Desktop, handle: Handled -> Option<Reply>, r: Readings)
    requires Runs(client, desktop, negotiate, c, k, d, handle, r)
    ensures
      var y := DesktopStepsOn(desktop, negotiate, d, handle, r);
      var offer, reply := Settled(negotiate, c, d), Answer(ReplyTo(handle, r, Stamped(c, k)).value);
      && y.request.end.Done? && y.request.message == Stamped(c, k)
      && y.answer.end.Done? && y.answer.line.sent == Framed(client.json, offer) + Framed(client.json, reply)
  {
    HelloArrives(client, desktop, negotiate, c, k, true, d, handle, r);
    OfferArrives(client, desktop, negotiate, c, k, d, handle, r);
    RequestIsSent(negotiate, c, k, ClientStepsOn(client, c, k));
    RequestAnswered(desktop, negotiate, c, k, d, handle, r, DesktopStepsOn(desktop, negotiate, d, handle, r).offer.line);
  }

  /** The client takes the reply that is there to read. */
  lemma ReplyTaken(s: Socket, negotiate: Negotiation, c: Client, k: ClientClock, d: Desktop, reply: Reply)
    requires s.json.Faithful() && Remaining(k.startBy, k.start).Some? && Remaining(k.sendBy, k.sending).Some?
    requires c.identity == d.identity && negotiate(c.versions, d.version).Ok?
    requires Fits(s.json, Settled(negotiate, c, d)) && Fits(s.json, Answer(reply))
    requires s.wire == Framed(s.json, Settled(negotiate, c, d)) + Framed(s.json, Answer(reply))
    requires
      var x := ClientStepsOn(s, c, k);
      && x.hello.end.Done? && x.offer.end.Done? && x.offer.message == Settled(negotiate, c, d)
      && x.offer.line.taken == |Framed(s.json, Settled(negotiate, c, d))|
      && x.request.end.Done? && Eager(s, x.request.line.turn, 1)
    ensures ExchangeOver(s, negotiate, c, k, true).outcome == Finished(Ok(reply))
  {
    EagerTake(s, Framed(s.json, Settled(negotiate, c, d)), Answer(reply), ClientStepsOn(s, c, k).request.line, 0);
  }

  lemma ReplyIsSent(negotiate: Negotiation, d: Desktop, handle: Handled -> Option<Reply>, r: Readings, y: DesktopSteps)
    requires y.hello.end.Done? && y.hello.message.Hello? && Descending(y.hello.message.versions)
    requires Selected(negotiate, d, y.hello.message).Some? && y.offer.end.Done? && y.request.end.Done?
    requires ReplyTo(handle, r, y.request.message).Some? && y.answer.end.Done?
    ensures Attended(negotiate, d, handle, r, y) == Service(Finished(None), y.answer.line, [Call(y.request.message, r).value])
  {
  }

  /** When every byte sent arrives and only healthy turns happen, enough for each message, the client
      returns the reply of the handler, which ran once, however the bytes are split and delayed. */
  lemma EagerExchangeCompletes(client: Socket, desktop: Socket, negotiate: Negotiation, c: Client, k: ClientClock,
                               d: Desktop, handle: Handled -> Option<Reply>, r: Readings)
    requires Runs(client, desktop, negotiate, c, k, d, handle, r)
    ensures
      var t, v := ExchangeOver(client, negotiate, c, k, true), ServeOver(desktop, negotiate, d, handle, r);
      && t.outcome == Finished(Ok(ReplyTo(handle, r, Stamped(c, k)).value))
      && v.outcome == Finished(None) && v.handled == [Call(Stamped(c, k), r).value]
  {
    HelloArrives(client, desktop, negotiate, c, k, true, d, handle, r);
    OfferArrives(client, desktop, negotiate, c, k, d, handle, r);
    RequestArrives(client, desktop, negotiate, c, k, d, handle, r);
    ReplyIsSent(negotiate, d, handle, r, DesktopStepsOn(desktop, negotiate, d, handle, r));
    ReplyTaken(client, negotiate, c, k, d, ReplyTo(handle, r, Stamped(c, k)).value);
  }

  /** Turns that move one byte each. */
  function Steady(n: nat): (turns: seq<F.Turn>)
    ensures |turns| == n && forall t <- turns :: F.Healthy(t) && t.moved.Moves?
  {
    seq(n, i => F.Turn(1, 0, true, F.Moves(1)))
  }

  lemma {:induction false} SteadyMoves(turns: seq<F.Turn>, turn: nat)
    requires turn <= |turns| && forall t <- turns :: t.moved.Moves?
    ensures F.Moving(turns, turn) == |turns| - turn
    decreases |turns| - turn
  {
    if turn < |turns| {
      assert turns[turn] in turns;
      SteadyMoves(turns, turn + 1);
    }
  }

  /** A socket with enough such turns. */
  function SteadySocket(json: Json, wire: Bytes): (s: Socket)
    ensures s.json == json && s.wire == wire && Eager(s, 0, 4)
  {
    SteadyMoves(Steady(4 * MaxFrame), 0);
    Socket(json, wire, Steady(4 * MaxFrame))
  }

  lemma ClientSpeaks(s: Socket, negotiate: Negotiation, c: Client, k: ClientClock,
                     d: Desktop, handle: Handled -> Option<Reply>, r: Readings)
    requires s.json.Faithful() && Meets(s.json, negotiate, c, k, d, handle, r) && Eager(s, 0, 4)
    requires Framed(s.json, Settled(negotiate, c, d)) <= s.wire
    ensures
      ExchangeOver(s, negotiate, c, k, true).line.sent ==
        Framed(s.json, Hello(c.identity, c.versions)) + Framed(s.json, Stamped(c, k))
  {
    var x, hello, offer := ClientStepsOn(s, c, k), Hello(c.identity, c.versions), Settled(negotiate, c, d);
    EagerPut(s, hello, Fresh, 3);
    assert [] + Framed(s.json, hello) == Framed(s.json, hello) && [] + Framed(s.json, offer) == Framed(s.json, offer);
    EagerTake(s, [], offer, x.hello.line, 2);
    EagerPut(s, Stamped(c, k), x.offer.line, 1);
    RequestIsSent(negotiate, c, k, x);
  }

  lemma DesktopSpeaks(s: Socket, negotiate: Negotiation, c: Client, k: ClientClock,
                      d: Desktop, handle: Handled -> Option<Reply>, r: Readings)
    requires s.json.Faithful() && Meets(s.json, negotiate, c, k, d, handle, r) && Eager(s, 0, 4)
    requires s.wire == Framed(s.json, Hello(c.identity, c.versions)) + Framed(s.json, Stamped(c, k))
    ensures
      ServeOver(s, negotiate, d, handle, r).line.sent ==
        Framed(s.json, Settled(negotiate, c, d)) + Framed(s.json, Answer(ReplyTo(handle, r, Stamped(c, k)).value))
  {
    var y := DesktopStepsOn(s, negotiate, d, handle, r);
    HelloAnswered(s, negotiate, c, k, d, handle, r);
    RequestAnswered(s, negotiate, c, k, d, handle, r, y.offer.line);
    ReplyIsSent(negotiate, d, handle, r, y);
  }

  /** Such runs there are, for all ends that agree. */
  lemma RunsHappen(json: Json, negotiate: Negotiation, c: Client, k: ClientClock,
                   d: Desktop, handle: Handled -> Option<Reply>, r: Readings)
    returns (client: Socket, desktop: Socket)
    requires json.Faithful() && Meets(json, negotiate, c, k, d, handle, r)
    ensures Runs(client, desktop, negotiate, c, k, d, handle, r)
  {
    var reply := Answer(ReplyTo(handle, r, Stamped(c, k)).value);
    client := SteadySocket(json, Framed(json, Settled(negotiate, c, d)) + Framed(json, reply));
    desktop := SteadySocket(json, Framed(json, Hello(c.identity, c.versions)) + Framed(json, Stamped(c, k)));
    ClientSpeaks(client, negotiate, c, k, d, handle, r);
    DesktopSpeaks(desktop, negotiate, c, k, d, handle, r);
  }

  // A client that gave up.

  /** From `turn` on, `n` turns are healthy and move one byte each. */
  predicate Paced(turns: seq<F.Turn>, turn: nat, n: nat) {
    turn + n <= |turns| && forall i | turn <= i < turn + n :: F.Healthy(turns[i]) && turns[i].moved == F.Moves(1)
  }

  lemma {:induction false} PacedMove(size: nat, at: nat, to: nat, turns: seq<F.Turn>, turn: nat, waits: seq<F.Wait>)
    requires at <= to <= size && Paced(turns, turn, to - at)
    ensures var p := F.Move(size, at, to, turns, turn, waits); p.end.Done? && p.at == to && p.turn == turn + (to - at)
    decreases |turns| - turn
  {
    if at < to { PacedMove(size, at + 1, to, turns, turn + 1, waits + [F.NextWait(turns[turn])]); }
  }

  lemma PacedPut(s: Socket, m: Message, l: Line)
    requires l.On(s) && Fits(s.json, m) && Paced(s.turns, l.turn, |Framed(s.json, m)|)
    ensures
      var t := Put(s, m, l);
      t.end.Done? && t.line.sent == l.sent + Framed(s.json, m) && t.line.turn == l.turn + |Framed(s.json, m)|
  {
    var frame := Framed(s.json, m);
    PacedMove(|frame|, 0, |frame|, s.turns, l.turn, l.waits);
    assert frame[..|frame|] == frame;
  }

  /** Reads the one message that arrived. */
  lemma PacedTake(s: Socket, m: Message, l: Line)
    requires s.json.Faithful() && !m.Garbage? && Fits(s.json, m) && s.wire == Framed(s.json, m)
    requires l.On(s) && l.taken == 0 && Paced(s.turns, l.turn, |s.wire|)
    ensures
      var t := Take(s, l);
      t.end.Done? && t.message == m && t.line.taken == |s.wire| && t.line.turn == l.turn + |s.wire|
  {
    var body := s.json.encode(m);
    assert [] + (F.Length(|body|) + body) + [] == s.wire;
    F.FrameLies([], body, []);
    F.LengthRoundTrip(|body|);
    var head := F.Move(|s.wire|, 0, 4, s.turns, l.turn, l.waits);
    PacedMove(|s.wire|, 0, 4, s.turns, l.turn, l.waits);
    PacedMove(|s.wire|, 4, |s.wire|, s.turns, head.turn, head.waits);
  }

  /** The client's turns: byte by byte until its request is written, by the deadlines it read, and then
      one that finds the deadline at `gaveUp` reached. */
  function GivesUp(before: nat, asking: nat, k: ClientClock, gaveUp: nat): (turns: seq<F.Turn>)
    ensures |turns| == before + asking + 1 && turns[before + asking] == F.Turn(gaveUp, gaveUp, true, F.Again)
    ensures forall i | 0 <= i < before :: turns[i] == F.Turn(k.startBy, k.start, true, F.Moves(1))
    ensures forall i | before <= i < before + asking :: turns[i] == F.Turn(k.sendBy, k.host, true, F.Moves(1))
  {
    seq(before, i => F.Turn(k.startBy, k.start, true, F.Moves(1))) +
    seq(asking, i => F.Turn(k.sendBy, k.host, true, F.Moves(1))) +
    [F.Turn(gaveUp, gaveUp, true, F.Again)]
  }

  lemma LateTake(s: Socket, l: Line)
    requires l.On(s) && l.turn + 1 == |s.turns| && s.turns[l.turn].deadline <= s.turns[l.turn].now
    ensures var t := Take(s, l); t.end == F.Timeout && t.line == l.(turn := |s.turns|)
  {
  }

  lemma ReplyTimesOut(negotiate: Negotiation, c: Client, k: ClientClock, x: ClientSteps)
    requires Remaining(k.startBy, k.start).Some? && Remaining(k.sendBy, k.sending).Some?
    requires x.hello.end.Done? && x.offer.end.Done? && Concluded(negotiate, c, x.offer.message).None? && x.request.end.Done?
    requires x.reply.end == F.Timeout
    ensures Talked(negotiate, c, k, true, x) == Talk(Finished(Err(Timeout)), x.reply.line)
  {
  }

  /** The client asks, and its last turn comes too late for the reply. */
  lemma ClientGivesUp(s: Socket, negotiate: Negotiation, c: Client, k: ClientClock, d: Desktop, gaveUp: nat)
    requires s.json.Faithful() && Agreeing(s.json, negotiate, c, k, d) && k.host < k.sendBy
    requires s.wire == Framed(s.json, Settled(negotiate, c, d))
    requires
      s.turns == GivesUp(|Framed(s.json, Hello(c.identity, c.versions))| + |s.wire|, |Framed(s.json, Stamped(c, k))|, k, gaveUp)
    ensures
      var t := ExchangeOver(s, negotiate, c, k, true);
      && t.outcome == Finished(Err(Timeout)) && t.line.turn == |s.turns|
      && t.line.sent == Framed(s.json, Hello(c.identity, c.versions)) + Framed(s.json, Stamped(c, k))
  {
    var x, hello := ClientStepsOn(s, c, k), Hello(c.identity, c.versions);
    PacedPut(s, hello, Fresh);
    assert [] + Framed(s.json, hello) == Framed(s.json, hello);
    PacedTake(s, Settled(negotiate, c, d), x.hello.line);
    PacedPut(s, Stamped(c, k), x.offer.line);
    LateTake(s, x.request.line);
    ReplyTimesOut(negotiate, c, k, x);
  }

  /** The desktop reads the request and calls the handler, whatever comes of the reply. */
  lemma DesktopHandles(s: Socket, negotiate: Negotiation, c: Client, k: ClientClock,
                       d: Desktop, handle: Handled -> Option<Reply>, r: Readings)
    requires s.json.Faithful() && Agreeing(s.json, negotiate, c, k, d) && Eager(s, 0, 4)
    requires s.wire == Framed(s.json, Hello(c.identity, c.versions)) + Framed(s.json, Stamped(c, k))
    requires Call(Stamped(c, k), r).Some?
    ensures
      var v := ServeOver(s, negotiate, d, handle, r);
      v.handled == [Call(Stamped(c, k), r).value] && Framed(s.json, Settled(negotiate, c, d)) <= v.line.sent
  {
    var y := DesktopStepsOn(s, negotiate, d, handle, r);
    HelloAnswered(s, negotiate, c, k, d, handle, r);
    OfferIsSent(s, negotiate, d, handle, r);
    EagerTake(s, Framed(s.json, Hello(c.identity, c.versions)), Stamped(c, k), y.offer.line, 1);
  }

  predicate InOrder(turns: seq<F.Turn>) {
    forall i, j | 0 <= i < j < |turns| :: turns[i].now <= turns[j].now
  }

  /** A run of both ends over bytes in which a request acts late. The client's clock moves forward, its
      last turn finds its deadline at `gaveUp` reached, and its call times out; every deadline it read
      before is the one of its start or of its stamp. The handler is called and may act after `gaveUp`. */
  ghost predicate LateRun(client: Socket, desktop: Socket, negotiate: Negotiation, c: Client, k: ClientClock,
                          d: Desktop, handle: Handled -> Option<Reply>, r: Readings, gaveUp: nat)
  {
    var t, v := ExchangeOver(client, negotiate, c, k, true), ServeOver(desktop, negotiate, d, handle, r);
    && Joined(client, t, desktop, v) && Ordered(k, r)
    && t.outcome == Finished(Err(Timeout)) && GaveUpAt(client.turns, t.line.turn, k, gaveUp)
    && |v.handled| == 1 && v.handled[0].body == c.body && gaveUp <= r.check < v.handled[0].actBy
  }

  predicate GaveUpAt(turns: seq<F.Turn>, turn: nat, k: ClientClock, gaveUp: nat) {
    && turn == |turns| > 0 && turns[turn - 1].deadline == turns[turn - 1].now == gaveUp && InOrder(turns)
    && forall i | 0 <= i < turn - 1 :: turns[i].deadline == k.startBy || turns[i].deadline == k.sendBy
  }

  lemma GivesUpThere(before: nat, asking: nat, k: ClientClock, gaveUp: nat)
    requires k.start <= k.host <= gaveUp
    ensures GaveUpAt(GivesUp(before, asking, k, gaveUp), before + asking + 1, k, gaveUp)
  {
  }

  /** Whenever the readings let a request act late, there is such a run. */
  lemma LateRequestActs(json: Json, negotiate: Negotiation, c: Client, k: ClientClock,
                        d: Desktop, handle: Handled -> Option<Reply>, r: Readings, gaveUp: nat, skew: nat)
    returns (client: Socket, desktop: Socket)
    requires json.Faithful() && Agreeing(json, negotiate, c, k, d)
    requires ActsLate(c, k, gaveUp, skew, r) && k.host < k.sendBy && k.host <= gaveUp
    ensures client.json == json && LateRun(client, desktop, negotiate, c, k, d, handle, r, gaveUp)
  {
    var hello, offer := Framed(json, Hello(c.identity, c.versions)), Framed(json, Settled(negotiate, c, d));
    var request := Framed(json, Stamped(c, k));
    client := Socket(json, offer, GivesUp(|hello| + |offer|, |request|, k, gaveUp));
    desktop := SteadySocket(json, hello + request);
    ClientGivesUp(client, negotiate, c, k, d, gaveUp);
    DesktopHandles(desktop, negotiate, c, k, d, handle, r);
    GivesUpThere(|hello| + |offer|, |request|, k, gaveUp);
  }

  /** An interrupted client: its deadline is brought forward to `gaveUp` after its request is written,
      more than the reply margin before the stamp. */
  lemma InterruptedRequestActs(json: Json, negotiate: Negotiation, c: Client, k: ClientClock,
                               d: Desktop, handle: Handled -> Option<Reply>, gaveUp: nat)
    returns (client: Socket, desktop: Socket)
    requires json.Faithful() && Agreeing(json, negotiate, c, k, d)
    requires k.start <= k.sending <= k.host <= gaveUp < k.sendBy && gaveUp + ReplyMargin < Stamped(c, k).expiresAt
    ensures LateRun(client, desktop, negotiate, c, k, d, handle, Readings(gaveUp, gaveUp, gaveUp, gaveUp), gaveUp)
  {
    client, desktop := LateRequestActs(json, negotiate, c, k, d, handle, Readings(gaveUp, gaveUp, gaveUp, gaveUp), gaveUp, 0);
  }

  /** A client held up for more than the reply margin between reading its deadline and stamping the
      request: every deadline it ever reads is the same, and it gives up there. */
  lemma HeldUpRequestActs(json: Json, negotiate: Negotiation, c: Client, k: ClientClock,
                          d: Desktop, handle: Handled -> Option<Reply>)
    returns (client: Socket, desktop: Socket)
    requires json.Faithful() && Agreeing(json, negotiate, c, k, d)
    requires k.start <= k.sending && k.sending + ReplyMargin < k.host < k.sendBy == k.startBy
    requires k.sendBy + (k.host - k.sending) <= MaxU64
    ensures LateRun(client, desktop, negotiate, c, k, d, handle, Readings(k.sendBy, k.sendBy, k.sendBy, k.sendBy), k.sendBy)
  {
    StampedLate(c, k);
    client, desktop := LateRequestActs(json, negotiate, c, k, d, handle, Readings(k.sendBy, k.sendBy, k.sendBy, k.sendBy), k.sendBy, 0);
  }
}
