/** The transfer loops as the program runs them: a buffer filled and a message sent turn by turn,
    proved to move exactly what `Framing` says. */
module Streams {
  import opened Common
  import opened Spec = Framing

  /** A connected stream. `incoming` is what arrives, taken up to `taken`; `turns` are what its
      operations do, done up to `turn`. */
  class Stream {
    const incoming: Bytes
    const turns: seq<Turn>
    var taken: nat
    var turn: nat
    var outgoing: Bytes
    var waits: seq<Wait>

    ghost predicate Valid()
      reads this
    {
      taken <= |incoming| && turn <= |turns|
    }

    constructor (incoming: Bytes, turns: seq<Turn>)
      ensures Valid() && this.incoming == incoming && this.turns == turns
      ensures taken == 0 && turn == 0 && outgoing == [] && waits == []
    {
      this.incoming, this.turns := incoming, turns;
      taken, turn, outgoing, waits := 0, 0, [], [];
    }

    /** The first `at` bytes of `buffer` are those that arrived from `start` on. */
    ghost predicate Holds(buffer: array<byte>, at: nat, start: nat)
      reads this, buffer
    {
      at <= buffer.Length && start + at <= |incoming| && forall i | 0 <= i < at :: buffer[i] == incoming[start + i]
    }

    /** Takes the next `count` bytes into `buffer`, behind the `at` it holds. */
    method Fill(buffer: array<byte>, at: nat, count: nat, ghost start: nat)
      requires Valid() && start + at == taken && at + count <= buffer.Length && taken + count <= |incoming|
      requires Holds(buffer, at, start)
      modifies this`taken, buffer
      ensures Valid() && taken == old(taken) + count && Holds(buffer, at + count, start)
    {
      forall i | 0 <= i < count { buffer[at + i] := incoming[taken + i]; }
      forall i | at <= i < at + count ensures buffer[i] == incoming[start + i] {
        assert buffer[at + (i - at)] == incoming[taken + (i - at)];
      }
      taken := taken + count;
    }

    /** Fills `buffer` from its front. */
    method ReadExactBy(buffer: array<byte>) returns (end: End)
      requires Valid()
      modifies this`taken, this`turn, this`waits, buffer
      ensures Valid()
      ensures Progress(end, taken, turn, waits) ==
        Move(|incoming|, old(taken), old(taken) + buffer.Length, turns, old(turn), old(waits))
      ensures Holds(buffer, taken - old(taken), old(taken))
    {
      ghost var start, to := taken, taken + buffer.Length;
      ghost var whole := Move(|incoming|, start, to, turns, turn, waits);
      var at := 0;
      while at < buffer.Length
        invariant Valid() && 0 <= at && taken == start + at && Holds(buffer, at, start)
        invariant Move(|incoming|, taken, to, turns, turn, waits) == whole
        decreases |turns| - turn
      {
        if turn == |turns| { return InProgress; }
        var t := turns[turn];
        turn := turn + 1;
        if t.deadline <= t.now { return Timeout; }
        waits := waits + [NextWait(t)];
        if !t.accepts { return Protocol; }
        match t.moved
        case Breaks => return Protocol;
        case Again =>
        case Moves(count) =>
          var k := Min(count, Min(buffer.Length - at, |incoming| - taken));
          if k == 0 { return Protocol; }
          Fill(buffer, at, k, start);
          at := at + k;
      }
      return Done;
    }

    /** Reads the next `n` bytes into a new buffer, and nothing short of them. */
    method ReadBody(n: nat) returns (end: End, message: Bytes)
      requires Valid()
      modifies this`taken, this`turn, this`waits
      ensures Valid()
      ensures Reading(end, message, taken, turn, waits) ==
        Spec.ReadBody(incoming, |incoming|, old(taken), n, turns, old(turn), old(waits))
    {
      var buffer := new byte[n];
      end := ReadExactBy(buffer);
      if end != Done { return end, []; }
      return Done, buffer[..];
    }

    /** Reads one message, refusing an overlong one before reading it. */
    method ReadBy() returns (end: End, message: Bytes)
      requires Valid()
      modifies this`taken, this`turn, this`waits
      ensures Valid()
      ensures Reading(end, message, taken, turn, waits) ==
        Spec.ReadBy(incoming, |incoming|, old(taken), turns, old(turn), old(waits))
    {
      end, message := ReadBody(4);
      if end != Done { return; }
      var n := Decoded(message);
      if n > MaxMessage { return Protocol, []; }
      end, message := ReadBody(n);
    }

    method WriteBy(message: Bytes) returns (end: End)
      requires Valid()
      modifies this`outgoing, this`turn, this`waits
      ensures Valid()
      ensures
        var p := Move(|message|, 0, |message|, turns, old(turn), old(waits));
        end == p.end && outgoing == old(outgoing) + message[..p.at] && turn == p.turn && waits == p.waits
    {
      var at := 0;
      while at < |message|
        invariant Valid() && 0 <= at <= |message| && outgoing == old(outgoing) + message[..at]
        invariant Move(|message|, at, |message|, turns, turn, waits) ==
          Move(|message|, 0, |message|, turns, old(turn), old(waits))
        decreases |turns| - turn
      {
        if turn == |turns| { return InProgress; }
        var t := turns[turn];
        turn := turn + 1;
        if t.deadline <= t.now { return Timeout; }
        waits := waits + [NextWait(t)];
        if !t.accepts { return Protocol; }
        match t.moved
        case Breaks => return Protocol;
        case Again =>
        case Moves(count) =>
          var k := Min(count, |message| - at);
          if k == 0 { return Protocol; }
          outgoing := outgoing + message[at..at + k];
          at := at + k;
      }
      return Done;
    }
  }
}
