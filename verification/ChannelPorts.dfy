/** The two ends of the channel as the program runs them: a stream they read and write step by step,
    returning at the first fault. Each is proved to do what its function says. */
module ChannelPorts {
  import opened Common
  import opened Channel
  import opened Streams
  import opened Spec = ChannelBytes
  import F = Framing

  /** One end of a connection: its stream and the encoding of its messages. */
  class Port {
    const json: Json
    const stream: Stream

    ghost predicate Valid()
      reads stream
    {
      stream.Valid()
    }

    ghost function Socket(): Socket {
      Spec.Socket(json, stream.incoming, stream.turns)
    }

    ghost function Line(): (l: Line)
      requires Valid()
      reads stream
      ensures l.On(Socket())
    {
      Spec.Line(stream.taken, stream.outgoing, stream.turn, stream.waits)
    }

    constructor (json: Json, incoming: Bytes, turns: seq<F.Turn>)
      ensures Valid() && fresh(stream) && Line() == Fresh
      ensures Socket() == Spec.Socket(json, incoming, turns)
    {
      this.json := json;
      stream := new Stream(incoming, turns);
    }

    /** Writes one message, unless it is too long. */
    method Write(m: Message) returns (end: F.End)
      requires Valid()
      modifies stream
      ensures Valid() && Transfer(end, Garbage, Line()) == Put(Socket(), m, old(Line()))
    {
      var body := json.encode(m);
      if |body| > F.MaxMessage { return F.Protocol; }
      end := stream.WriteBy(F.Length(|body|) + body);
    }

    /** Reads one message. */
    method Read() returns (end: F.End, m: Message)
      requires Valid()
      modifies stream
      ensures Valid() && Transfer(end, m, Line()) == Take(Socket(), old(Line()))
    {
      var body;
      end, body := stream.ReadBy();
      m := if end.Done? then json.decode(body) else Garbage;
    }

    /** The client's end. */
    method Exchange(negotiate: Negotiation, c: Client, k: ClientClock, closes: bool)
      returns (outcome: Outcome<Result<Reply, ChannelError>>)
      requires Valid() && Line() == Fresh
      modifies stream
      ensures Valid() && Talk(outcome, Line()) == ExchangeOver(Socket(), negotiate, c, k, closes)
    {
      ghost var x := ClientStepsOn(Socket(), c, k);
      if Remaining(k.startBy, k.start).None? { return Finished(Err(Timeout)); }
      var end := Write(Hello(c.identity, c.versions));
      if end != F.Done { return Failed(end); }
      var offer;
      end, offer := Read();
      assert Transfer(end, offer, Line()) == x.offer;
      if end != F.Done { return Failed(end); }
      if !offer.Offer? { return Finished(Err(Protocol)); }
      if offer.identity != c.identity { return Finished(Ok(Refused(OtherIdentity))); }
      match (offer.selected, negotiate(c.versions, offer.desktop)) {
        case (None, Err(older)) => return Finished(Err(NoShared(older)));
        case (None, Ok(_)) => return Finished(Err(Protocol));
        case (Some(_), Err(_)) => return Finished(Err(Protocol));
        case (Some(selected), Ok(expected)) => if selected != expected { return Finished(Err(Protocol)); }
      }
      var within := Remaining(k.sendBy, k.sending);
      if within.None? { return Finished(Err(Timeout)); }
      end := Write(Request(ExpiresAt(k.host, within.value), c.body));
      assert Transfer(end, Garbage, Line()) == x.request;
      if end != F.Done { return Failed(end); }
      if !closes { return Finished(Err(Protocol)); }
      var reply;
      end, reply := Read();
      assert Transfer(end, reply, Line()) == x.reply;
      if end != F.Done { return LostReply(end); }
      if !reply.Answer? { return Finished(Err(Unanswered)); }
      return Finished(Ok(reply.reply));
    }

    /** The desktop's end; `handled` are the calls of the handler. */
    method Serve(negotiate: Negotiation, d: Desktop, handle: Handled -> Option<Reply>, r: Readings)
      returns (outcome: Outcome<Option<ChannelError>>, handled: seq<Handled>)
      requires Valid() && Line() == Fresh
      modifies stream
      ensures Valid() && Service(outcome, Line(), handled) == ServeOver(Socket(), negotiate, d, handle, r)
    {
      ghost var x := DesktopStepsOn(Socket(), negotiate, d, handle, r);
      var end, hello := Read();
      assert Transfer(end, hello, Line()) == x.hello;
      if end != F.Done { return Ended(end), []; }
      if !hello.Hello? || !Descending(hello.versions) { return Finished(Some(Protocol)), []; }
      var agreed := negotiate(hello.versions, d.version);
      var selected := if agreed.Ok? && hello.identity == d.identity then Some(agreed.value) else None;
      end := Write(Offer(d.identity, selected, d.version));
      assert Transfer(end, Garbage, Line()) == x.offer;
      if end != F.Done || selected.None? { return Ended(end), []; }
      var request;
      end, request := Read();
      assert Transfer(end, request, Line()) == x.request;
      if end != F.Done { return Ended(end), []; }
      if !request.Request? { return Finished(Some(Protocol)), []; }
      var act := ActBy(request.expiresAt, r);
      if act.None? { return Finished(None), []; }
      var call := Handled(request.body, act.value);
      handled := [call];
      var reply := handle(call);
      if reply.None? { return Finished(None), handled; }
      end := Write(Answer(reply.value));
      assert Transfer(end, Garbage, Line()) == x.answer;
      return Ended(end), handled;
    }
  }
}
