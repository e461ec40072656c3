/** Length-prefixed messages over a stream that reads and writes in pieces, each piece waited for
    no longer than a deadline allows. */
module Framing {
  import opened Common

  const MaxMessage: nat := 16 * 1024
  /** The longest single wait, in nanoseconds: 100 milliseconds. */
  const Poll: nat := 100_000_000

  // Frames.

  function Length(n: nat): (b: Bytes)
    requires n < 0x1_0000_0000
    ensures |b| == 4
  {
    var high := n / 256 / 256;
    [(high / 256) as byte, (high % 256) as byte, (n / 256 % 256) as byte, (n % 256) as byte]
  }

  function Decoded(b: Bytes): (n: nat)
    requires |b| == 4
    ensures n < 0x1_0000_0000
  {
    ((b[0] as nat * 256 + b[1] as nat) * 256 + b[2] as nat) * 256 + b[3] as nat
  }

  lemma LengthRoundTrip(n: nat)
    requires n < 0x1_0000_0000
    ensures Decoded(Length(n)) == n
  {
  }

  // Turns.

  /** What one read or write did: moved at most `count` bytes, asked to be tried again, or failed. */
  datatype Moved = Moves(count: nat) | Again | Breaks

  /** One turn of a loop: the deadline and the clock as it read them, whether the stream accepted the
      wait, and what the operation did. A caller may bring the deadline forward between turns. */
  datatype Turn = Turn(deadline: nat, now: nat, accepts: bool, moved: Moved)

  datatype Wait = Wait(deadline: nat, now: nat, length: nat) {
    /** The operation began before its deadline and waited no longer than the poll or the time left. */
    predicate Timely() {
      now < deadline && 0 < length <= Poll && now + length <= deadline
    }
  }

  predicate AllTimely(waits: seq<Wait>) {
    forall w <- waits :: w.Timely()
  }

  /** `InProgress` when the turns given so far do not end the call. */
  datatype End = Done | Timeout | Protocol | InProgress

  function Min(a: nat, b: nat): nat {
    if a < b then a else b
  }

  /** Where a loop stands: how many bytes and turns it has behind it, and its waits. */
  datatype Progress = Progress(end: End, at: nat, turn: nat, waits: seq<Wait>)

  function NextWait(t: Turn): Wait
    requires t.now < t.deadline
  {
    Wait(t.deadline, t.now, Min(t.deadline - t.now, Poll))
  }

  /** Moves the bytes from `at` up to `to` in order, piece by piece, of which the first `size` can move
      at all: reading moves them from the incoming bytes, writing from the message. It ends well exactly
      when it arrived, and every wait it adds is timely. */
  function Move(size: nat, at: nat, to: nat, turns: seq<Turn>, turn: nat, waits: seq<Wait>): (p: Progress)
    requires at <= to && at <= size && turn <= |turns|
    ensures at <= p.at <= to && p.at <= size && turn <= p.turn <= |turns|
    ensures p.end.Done? <==> p.at == to
    ensures AllTimely(waits) ==> AllTimely(p.waits)
    decreases |turns| - turn
  {
    if at == to then Progress(Done, at, turn, waits)
    else if turn == |turns| then Progress(InProgress, at, turn, waits)
    else
      var t := turns[turn];
      if t.deadline <= t.now then Progress(Timeout, at, turn + 1, waits)
      else
        var waited := waits + [NextWait(t)];
        if !t.accepts || t.moved.Breaks? then Progress(Protocol, at, turn + 1, waited)
        else
          var k := if t.moved.Moves? then Min(t.moved.count, Min(to - at, size - at)) else 0;
          if t.moved.Moves? && k == 0 then Progress(Protocol, at, turn + 1, waited)
          else Move(size, at + k, to, turns, turn + 1, waited)
  }

  /** A turn that neither comes too late nor fails. */
  predicate Healthy(t: Turn) {
    t.now < t.deadline && t.accepts && (t.moved.Again? || (t.moved.Moves? && t.moved.count > 0))
  }

  /** How many of the turns from `turn` on move bytes. */
  function Moving(turns: seq<Turn>, turn: nat): nat
    requires turn <= |turns|
    decreases |turns| - turn
  {
    if turn == |turns| then 0 else (if turns[turn].moved.Moves? then 1 else 0) + Moving(turns, turn + 1)
  }

  /** However the bytes are split and however often a turn must be tried again, nothing but a late or
      failing turn keeps the bytes from moving: one moving turn a byte is always enough. */
  lemma {:induction false} SplitsNeverFail(size: nat, at: nat, to: nat, turns: seq<Turn>, turn: nat, waits: seq<Wait>)
    requires at <= to <= size && turn <= |turns| && forall t <- turns :: Healthy(t)
    ensures
      var p := Move(size, at, to, turns, turn, waits);
      && (p.end.Done? || p.end.InProgress?)
      && Moving(turns, turn) <= Moving(turns, p.turn) + (p.at - at)
      && (Moving(turns, turn) >= to - at ==> p.end.Done?)
    decreases |turns| - turn
  {
    if at < to && turn < |turns| {
      var t := turns[turn];
      assert Healthy(t);
      var k := if t.moved.Moves? then Min(t.moved.count, Min(to - at, size - at)) else 0;
      SplitsNeverFail(size, at + k, to, turns, turn + 1, waits + [NextWait(t)]);
    }
  }

  // Messages.

  /** One message read, or the reason there is none. */
  datatype Reading = Reading(end: End, message: Bytes, at: nat, turn: nat, waits: seq<Wait>)

  /** Reads `n` bytes of message at `at`, when the first `size` bytes of the wire have arrived. */
  function ReadBody(wire: Bytes, size: nat, at: nat, n: nat, turns: seq<Turn>, turn: nat, waits: seq<Wait>): (r: Reading)
    requires at <= size <= |wire| && turn <= |turns|
    ensures at <= r.at <= size && turn <= r.turn <= |turns|
    ensures AllTimely(waits) ==> AllTimely(r.waits)
  {
    var body := Move(size, at, at + n, turns, turn, waits);
    Reading(body.end, if body.end.Done? then wire[at..at + n] else [], body.at, body.turn, body.waits)
  }

  /** Reads the message at `at`, refusing an overlong one before reading it. */
  function ReadBy(wire: Bytes, size: nat, at: nat, turns: seq<Turn>, turn: nat, waits: seq<Wait>): (r: Reading)
    requires at <= size <= |wire| && turn <= |turns|
    ensures at <= r.at <= size && turn <= r.turn <= |turns|
    ensures AllTimely(waits) ==> AllTimely(r.waits)
  {
    var head := Move(size, at, at + 4, turns, turn, waits);
    if !head.end.Done? then Reading(head.end, [], head.at, head.turn, head.waits)
    else
      var n := Decoded(wire[at..at + 4]);
      if n > MaxMessage then Reading(Protocol, [], head.at, head.turn, head.waits)
      else ReadBody(wire, size, at + 4, n, turns, head.turn, head.waits)
  }

  /** The frame of `m` lies on the wire at `at`. */
  predicate FrameAt(wire: Bytes, at: nat, m: Bytes) {
    && |m| <= MaxMessage && at + 4 + |m| <= |wire|
    && wire[at..at + 4] == Length(|m|) && wire[at + 4..at + 4 + |m|] == m
  }

  /** A message sent is read back as it was, and not a byte more is taken, for every split. */
  lemma ReadBack(wire: Bytes, size: nat, at: nat, m: Bytes, turns: seq<Turn>, turn: nat, waits: seq<Wait>)
    requires FrameAt(wire, at, m) && at <= size <= |wire| && turn <= |turns|
    ensures
      var r := ReadBy(wire, size, at, turns, turn, waits);
      r.at <= at + 4 + |m| && (r.end.Done? ==> r.message == m && r.at == at + 4 + |m|)
  {
    LengthRoundTrip(|m|);
  }

  /** With healthy turns it is read once its whole frame arrived, one moving turn a byte being enough. */
  lemma HealthyRead(m: Bytes, wire: Bytes, size: nat, at: nat, turns: seq<Turn>, turn: nat, waits: seq<Wait>)
    requires FrameAt(wire, at, m) && at + 4 + |m| <= size <= |wire| && turn <= |turns|
    requires (forall t <- turns :: Healthy(t)) && Moving(turns, turn) >= 4 + |m|
    ensures
      var r := ReadBy(wire, size, at, turns, turn, waits);
      r.end.Done? && r.at == at + 4 + |m| && Moving(turns, turn) <= Moving(turns, r.turn) + 4 + |m|
  {
    LengthRoundTrip(|m|);
    SplitsNeverFail(size, at, at + 4, turns, turn, waits);
    var head := Move(size, at, at + 4, turns, turn, waits);
    SplitsNeverFail(size, at + 4, at + 4 + |m|, turns, head.turn, head.waits);
  }

  // Sequences of messages.

  predicate Sendable(ms: seq<Bytes>) {
    forall m <- ms :: |m| <= MaxMessage
  }

  function Size(ms: seq<Bytes>): nat {
    if ms == [] then 0 else 4 + |ms[0]| + Size(ms[1..])
  }

  /** What a sender puts on the wire for `ms`. */
  function Wire(ms: seq<Bytes>): (w: Bytes)
    requires Sendable(ms)
    ensures |w| == Size(ms)
  {
    if ms == [] then [] else Length(|ms[0]|) + ms[0] + Wire(ms[1..])
  }

  /** The frames of `ms` lie on the wire, one after another, from `at`. */
  predicate FramesAt(wire: Bytes, at: nat, ms: seq<Bytes>)
    decreases |ms|
  {
    ms == [] || (FrameAt(wire, at, ms[0]) && FramesAt(wire, at + 4 + |ms[0]|, ms[1..]))
  }

  lemma FrameLies(before: Bytes, m: Bytes, after: Bytes)
    requires |m| <= MaxMessage
    ensures FrameAt(before + (Length(|m|) + m) + after, |before|, m)
  {
    var wire := before + (Length(|m|) + m) + after;
    assert wire[|before|..|before| + 4 + |m|] == Length(|m|) + m;
    assert wire[|before|..|before| + 4] == Length(|m|);
  }

  lemma Regroup(a: Bytes, b: Bytes, c: Bytes, d: Bytes)
    ensures a + (b + c) + d == a + b + (c + d) == (a + b) + c + d
  {
  }

  lemma {:induction false} WireHoldsFrames(before: Bytes, ms: seq<Bytes>, after: Bytes)
    requires Sendable(ms)
    ensures FramesAt(before + Wire(ms) + after, |before|, ms)
    decreases |ms|
  {
    if ms != [] {
      var frame, rest := Length(|ms[0]|) + ms[0], Wire(ms[1..]);
      Regroup(before, frame, rest, after);
      FrameLies(before, ms[0], rest + after);
      WireHoldsFrames(before + frame, ms[1..], after);
    }
  }

  lemma WireStarts(ms: seq<Bytes>, after: Bytes)
    requires Sendable(ms)
    ensures FramesAt(Wire(ms) + after, 0, ms)
  {
    WireHoldsFrames([], ms, after);
    assert [] + Wire(ms) + after == Wire(ms) + after;
  }

  datatype Outbox = Outbox(end: End, sent: Bytes, turn: nat, waits: seq<Wait>)

  /** Sends message after message until one does not end well. */
  function SendAll(ms: seq<Bytes>, turns: seq<Turn>, turn: nat, waits: seq<Wait>): (o: Outbox)
    requires Sendable(ms) && turn <= |turns|
    ensures turn <= o.turn <= |turns| && |o.sent| <= Size(ms)
    ensures AllTimely(waits) ==> AllTimely(o.waits)
  {
    if ms == [] then Outbox(Done, [], turn, waits)
    else
      var frame := Length(|ms[0]|) + ms[0];
      var first := Move(|frame|, 0, |frame|, turns, turn, waits);
      if !first.end.Done? then Outbox(first.end, frame[..first.at], first.turn, first.waits)
      else
        var rest := SendAll(ms[1..], turns, first.turn, first.waits);
        rest.(sent := frame + rest.sent)
  }

  /** Whatever the splits and however it ends, what is on the wire is a first part of the frames, and
      all of them exactly when it ends well. */
  lemma {:induction false} SentInOrder(ms: seq<Bytes>, turns: seq<Turn>, turn: nat, waits: seq<Wait>)
    requires Sendable(ms) && turn <= |turns|
    ensures var o := SendAll(ms, turns, turn, waits); o.sent <= Wire(ms) && (o.end.Done? <==> o.sent == Wire(ms))
    decreases |ms|
  {
    if ms != [] {
      var frame := Length(|ms[0]|) + ms[0];
      var first := Move(|frame|, 0, |frame|, turns, turn, waits);
      if first.end.Done? { SentInOrder(ms[1..], turns, first.turn, first.waits); }
      else { assert frame[..first.at] <= frame; }
    }
  }

  datatype Inbox = Inbox(end: End, messages: seq<Bytes>, at: nat, waits: seq<Wait>)

  /** Reads up to `count` messages until one does not end well. */
  function ReceiveAll(count: nat, wire: Bytes, size: nat, at: nat, turns: seq<Turn>, turn: nat, waits: seq<Wait>): (r: Inbox)
    requires at <= size <= |wire| && turn <= |turns|
    ensures AllTimely(waits) ==> AllTimely(r.waits)
  {
    if count == 0 then Inbox(Done, [], at, waits)
    else
      var first := ReadBy(wire, size, at, turns, turn, waits);
      if !first.end.Done? then Inbox(first.end, [], first.at, first.waits)
      else
        var rest := ReceiveAll(count - 1, wire, size, first.at, turns, first.turn, first.waits);
        rest.(messages := [first.message] + rest.messages)
  }

  lemma StartsWith(ms: seq<Bytes>, rest: seq<Bytes>)
    requires ms != [] && rest <= ms[1..]
    ensures [ms[0]] + rest <= ms && (rest == ms[1..] ==> [ms[0]] + rest == ms)
  {
    assert ms == [ms[0]] + ms[1..];
  }

  /** What `ReceiveAll` does after its first reading. */
  lemma ReceivedNext(first: Reading, rest: Inbox, all: Inbox, ms: seq<Bytes>, at: nat)
    requires ms != [] && first.end.Done? && first.message == ms[0] && first.at == at + 4 + |ms[0]|
    requires all == rest.(messages := [first.message] + rest.messages)
    requires rest.messages <= ms[1..] && rest.at <= first.at + Size(ms[1..])
    requires rest.end.Done? ==> rest.messages == ms[1..] && rest.at == first.at + Size(ms[1..])
    ensures all.messages <= ms && all.at <= at + Size(ms) && (all.end.Done? ==> all.messages == ms && all.at == at + Size(ms))
  {
    StartsWith(ms, rest.messages);
  }

  /** Whatever has arrived so far and however it is split, the messages read are the first ones sent,
      and when all were read exactly their frames were consumed. */
  lemma {:induction false} ReceivedInOrder(ms: seq<Bytes>, wire: Bytes, size: nat, at: nat, turns: seq<Turn>, turn: nat, waits: seq<Wait>)
    requires FramesAt(wire, at, ms) && at <= size <= |wire| && turn <= |turns|
    ensures
      var r := ReceiveAll(|ms|, wire, size, at, turns, turn, waits);
      && r.messages <= ms && r.at <= at + Size(ms)
      && (r.end.Done? ==> r.messages == ms && r.at == at + Size(ms))
    decreases |ms|
  {
    if ms != [] {
      ReadBack(wire, size, at, ms[0], turns, turn, waits);
      var first := ReadBy(wire, size, at, turns, turn, waits);
      if first.end.Done? {
        ReceivedInOrder(ms[1..], wire, size, first.at, turns, first.turn, first.waits);
        var rest := ReceiveAll(|ms| - 1, wire, size, first.at, turns, first.turn, first.waits);
        ReceivedNext(first, rest, ReceiveAll(|ms|, wire, size, at, turns, turn, waits), ms, at);
      }
    }
  }

  /** With healthy turns, one moving turn a byte, every message is sent. */
  lemma {:induction false} HealthySends(ms: seq<Bytes>, turns: seq<Turn>, turn: nat, waits: seq<Wait>)
    requires Sendable(ms) && turn <= |turns| && (forall t <- turns :: Healthy(t)) && Moving(turns, turn) >= Size(ms)
    ensures SendAll(ms, turns, turn, waits).end.Done?
    decreases |ms|
  {
    if ms != [] {
      var size := |Length(|ms[0]|) + ms[0]|;
      SplitsNeverFail(size, 0, size, turns, turn, waits);
      var first := Move(size, 0, size, turns, turn, waits);
      HealthySends(ms[1..], turns, first.turn, first.waits);
    }
  }

  /** With healthy turns, one moving turn a byte, every message that arrived is read. */
  lemma {:induction false} HealthyReceives(ms: seq<Bytes>, wire: Bytes, size: nat, at: nat, turns: seq<Turn>, turn: nat, waits: seq<Wait>)
    requires FramesAt(wire, at, ms) && at + Size(ms) <= size <= |wire| && turn <= |turns|
    requires (forall t <- turns :: Healthy(t)) && Moving(turns, turn) >= Size(ms)
    ensures ReceiveAll(|ms|, wire, size, at, turns, turn, waits).end.Done?
    decreases |ms|
  {
    if ms != [] {
      HealthyRead(ms[0], wire, size, at, turns, turn, waits);
      var first := ReadBy(wire, size, at, turns, turn, waits);
      HealthyReceives(ms[1..], wire, size, first.at, turns, first.turn, first.waits);
    }
  }

  /** `size` bytes have arrived: a part of what was sent or, once all was, of what followed it too. */
  predicate Arrived(o: Outbox, ms: seq<Bytes>, after: Bytes, size: nat) {
    size <= |o.sent| || (o.end.Done? && size <= Size(ms) + |after|)
  }

  /** A sequence of messages comes through unchanged with exact consumption, for every split into
      partial writes, partial reads and retries: whatever arrived so far, what is read of it is a first
      part of the sequence; read to the end it is the sequence, and not a byte that follows it is taken. */
  lemma SequenceRoundTrip(ms: seq<Bytes>, after: Bytes, size: nat, sending: seq<Turn>, receiving: seq<Turn>)
    requires Sendable(ms) && Arrived(SendAll(ms, sending, 0, []), ms, after, size)
    ensures
      var o := SendAll(ms, sending, 0, []);
      var r := ReceiveAll(|ms|, Wire(ms) + after, size, 0, receiving, 0, []);
      && o.sent <= Wire(ms) && r.messages <= ms && r.at <= Size(ms)
      && (r.end.Done? ==> r.messages == ms && r.at == Size(ms))
      && AllTimely(o.waits) && AllTimely(r.waits)
  {
    SentInOrder(ms, sending, 0, []);
    WireStarts(ms, after);
    ReceivedInOrder(ms, Wire(ms) + after, size, 0, receiving, 0, []);
  }

  /** Healthy turns, one moving turn a byte on each side, bring the whole sequence through, and no more. */
  lemma HealthyRoundTrip(ms: seq<Bytes>, after: Bytes, size: nat, sending: seq<Turn>, receiving: seq<Turn>)
    requires Sendable(ms) && (forall t <- sending :: Healthy(t)) && (forall t <- receiving :: Healthy(t))
    requires Moving(sending, 0) >= Size(ms) && Moving(receiving, 0) >= Size(ms)
    requires Size(ms) <= size <= Size(ms) + |after|
    ensures SendAll(ms, sending, 0, []).end.Done?
    ensures
      var r := ReceiveAll(|ms|, Wire(ms) + after, size, 0, receiving, 0, []);
      r.end.Done? && r.messages == ms && r.at == Size(ms)
  {
    HealthySends(ms, sending, 0, []);
    WireStarts(ms, after);
    HealthyReceives(ms, Wire(ms) + after, size, 0, receiving, 0, []);
    ReceivedInOrder(ms, Wire(ms) + after, size, 0, receiving, 0, []);
  }
}
