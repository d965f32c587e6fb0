/** The reader that fails once more than a limit of bytes was read (gitdot-server/src/util/limited_reader.rs:37-93). */
module LimitedReader {
  import opened Wrappers
  import opened Records

  const U64_MAX: nat := 0xFFFF_FFFF_FFFF_FFFF

  datatype IoError = InvalidData | Inner

  datatype Poll = Pending | Ready(result: Result<nat, IoError>)

  /** How the inner reader answers a poll: not yet, with an error, or with some of the bytes it has. */
  datatype Turn = NotYet | Fail | Give(wish: nat)

  predicate FailedInside(r: Poll) {
    r.Ready? && r.result.Err? && r.result.error.Inner?
  }

  /** Bytes given on a turn: at least one, if there is one and room for it. */
  function Given(turn: Turn, room: nat, available: nat): (n: nat)
    ensures n <= room && n <= available && (n == 0 <==> room == 0 || available == 0)
  {
    Min(Min(if turn.Give? && turn.wish > 0 then turn.wish else 1, room), available)
  }

  /** The wrapped reader, with the bytes it still has and the turns it will take; then it gives single bytes. */
  class InnerReader {
    var rest: Bytes
    var turns: seq<Turn>

    constructor (rest: Bytes, turns: seq<Turn>)
      ensures this.rest == rest && this.turns == turns
    {
      this.rest, this.turns := rest, turns;
    }

    /** Fills at most `room` bytes of the buffer from `at` on; n is how many. */
    method PollRead(buffer: array<Byte>, at: nat, room: nat) returns (r: Poll, n: nat)
      requires at + room <= buffer.Length
      modifies this, buffer
      ensures turns == if old(turns) == [] then [] else old(turns)[1..]
      ensures r.Pending? ==> old(turns) != []
      ensures r.Ready? && r.result.Err? ==> r.result.error.Inner? && Fail in old(turns)
      ensures r.Ready? && r.result.Ok? ==> r.result.value == n && (n == 0 <==> room == 0 || old(rest) == [])
      ensures r.Pending? || (r.Ready? && r.result.Err?) ==> n == 0
      ensures n <= room && n <= |old(rest)| && rest == old(rest)[n..]
      ensures buffer[..at + n] == old(buffer[..at]) + old(rest)[..n]
      ensures buffer[at + room..] == old(buffer[at + room..])
    {
      n := 0;
      var turn := Give(1);
      if turns != [] {
        turn, turns := turns[0], turns[1..];
      }
      match turn
      case NotYet => return Pending, 0;
      case Fail => return Ready(Err(Inner)), 0;
      case Give(_) =>
        n := Given(turn, room, |rest|);
        for i := 0 to n
          modifies buffer
          invariant buffer[..at + i] == old(buffer[..at]) + rest[..i]
          invariant buffer[at + room..] == old(buffer[at + room..])
        {
          buffer[at + i] := rest[i];
          assert buffer[..at + i + 1] == buffer[..at + i] + [rest[i]];
        }
        rest := rest[n..];
        return Ready(Ok(n)), n;
    }
  }

  /** The caller's buffer: the bytes before `filled` are read already. */
  class ReadBuf {
    const storage: array<Byte>
    var filled: nat

    ghost predicate Valid()
      reads this
    {
      filled <= storage.Length
    }

    function Filled(): Bytes
      reads this, storage
      requires Valid()
    {
      storage[..filled]
    }

    constructor (size: nat)
      ensures Valid() && filled == 0 && storage.Length == size && fresh(storage)
    {
      storage := new Byte[size](_ => 0);
      filled := 0;
    }
  }

  class LimitedReader {
    const inner: InnerReader
    const limit: nat
    var read: nat

    ghost predicate Valid()
      reads this
    {
      read <= limit <= U64_MAX
    }

    constructor (inner: InnerReader, limit: nat)
      requires limit <= U64_MAX
      ensures Valid() && this.inner == inner && this.limit == limit && read == 0
    {
      this.inner, this.limit, this.read := inner, limit, 0;
    }

    /** At the limit: a single byte in a buffer of its own tells a clean end from an overrun. */
    method Probe() returns (r: Poll)
      modifies inner
      ensures inner.turns == if old(inner.turns) == [] then [] else old(inner.turns)[1..]
      ensures r.Pending? ==> old(inner.turns) != []
      ensures FailedInside(r) ==> Fail in old(inner.turns)
      ensures r.Ready? && r.result.Ok? ==> old(inner.rest) == []
      ensures if r == Ready(Err(InvalidData)) then old(inner.rest) != [] else inner.rest == old(inner.rest)
    {
      var probe := new Byte[1](_ => 0);
      var n;
      r, n := inner.PollRead(probe, 0, 1);
      if r.Ready? && r.result.Ok? && n > 0 {
        r := Ready(Err(InvalidData));
      }
    }

    /** Below the limit: the inner reader sees no more of the caller's buffer than the limit allows. */
    method ReadBounded(buf: ReadBuf) returns (r: Poll, ghost n: nat)
      requires Valid() && buf.Valid() && read < limit
      modifies this`read, inner, buf`filled, buf.storage
      ensures Valid() && buf.Valid() && n <= |old(inner.rest)|
      ensures inner.turns == if old(inner.turns) == [] then [] else old(inner.turns)[1..]
      ensures r.Pending? ==> old(inner.turns) != []
      ensures FailedInside(r) ==> Fail in old(inner.turns)
      ensures r.Ready? && r.result.Err? ==> r.result.error.Inner?
      ensures read == old(read) + n && inner.rest == old(inner.rest)[n..]
      ensures buf.Filled() == old(buf.Filled()) + old(inner.rest)[..n]
      ensures r.Ready? && r.result.Ok? ==> (n == 0 <==> old(inner.rest) == [] || old(buf.filled) == buf.storage.Length)
      ensures r.Pending? || (r.Ready? && r.result.Err?) ==> n == 0
    {
      var max := Min(buf.storage.Length - buf.filled, limit - read);
      var written;
      r, written := inner.PollRead(buf.storage, buf.filled, max);
      n := written;
      if r.Ready? && r.result.Ok? {
        buf.filled := buf.filled + written;
        read := read + written;
      }
    }

    /**
      One poll. Below the limit the caller's buffer grows by the inner reader's next bytes and by nothing else; at the
      limit it never grows, and the poll fails exactly if the inner reader has another byte.
     */
    method PollRead(buf: ReadBuf) returns (r: Poll, ghost n: nat)
      requires Valid() && buf.Valid()
      modifies this`read, inner, buf`filled, buf.storage
      ensures Valid() && buf.Valid() && n <= |old(inner.rest)|
      ensures inner.turns == if old(inner.turns) == [] then [] else old(inner.turns)[1..]
      ensures r.Pending? ==> old(inner.turns) != []
      ensures FailedInside(r) ==> Fail in old(inner.turns)
      ensures read == old(read) + n && buf.Filled() == old(buf.Filled()) + old(inner.rest)[..n]
      ensures r != Ready(Err(InvalidData)) ==> inner.rest == old(inner.rest)[n..]
      ensures r == Ready(Err(InvalidData)) ==> old(read) == limit && old(inner.rest) != []
      ensures r.Ready? && r.result.Ok? ==>
        if old(read) == limit then old(inner.rest) == []
        else n == 0 <==> old(inner.rest) == [] || old(buf.filled) == buf.storage.Length
      ensures r.Pending? || (r.Ready? && r.result.Err?) || old(read) == limit ==> n == 0
    {
      if limit - read == 0 {
        n := 0;
        r := Probe();
        assert old(inner.rest)[0..] == old(inner.rest);
      } else {
        r, n := ReadBounded(buf);
      }
    }
  }

  /**
    A caller that polls until the end or an error, with a fresh buffer of any positive size each time. Whatever the
    inner reader's chunks and delays, it sees an initial part of the data of at most `limit` bytes, all of it if the
    end is clean, and the first `limit` bytes if the limit is exceeded.
   */
  method Drain(reader: LimitedReader, sizes: nat -> nat) returns (sink: Bytes, end: Result<(), IoError>)
    requires reader.Valid() && reader.read == 0 && forall k :: sizes(k) > 0
    modifies reader, reader.inner
    ensures |sink| <= reader.limit && sink <= old(reader.inner.rest)
    ensures end.Ok? ==> sink == old(reader.inner.rest)
    ensures end == Err(InvalidData) ==> |old(reader.inner.rest)| > reader.limit == |sink|
    ensures Fail !in old(reader.inner.turns) ==>
      end == if |old(reader.inner.rest)| <= reader.limit then Ok(()) else Err(InvalidData)
  {
    sink := [];
    var polls := 0;
    ghost var data, turns := reader.inner.rest, reader.inner.turns;
    while true
      invariant reader.Valid() && |sink| == reader.read
      invariant sink + reader.inner.rest == data
      invariant Fail !in turns ==> Fail !in reader.inner.turns
      decreases |reader.inner.turns| + |reader.inner.rest|
    {
      ghost var before, available := sink, reader.inner.rest;
      var buf := new ReadBuf(sizes(polls));
      polls := polls + 1;
      var poll, n := reader.PollRead(buf);
      if poll.Ready? {
        sink := sink + buf.Filled();
        assert buf.Filled() == available[..n];
        if poll.result.Err? {
          assert sink == before && (FailedInside(poll) || poll == Ready(Err(InvalidData)));
          return sink, Err(poll.result.error);
        }
        if buf.filled == 0 {
          assert available == [];
          return sink, Ok(());
        }
      }
      assert before + available[..n] + available[n..] == before + available;
    }
  }
}
