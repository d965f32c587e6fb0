/**
  Splitting a CGI response into header and body, whole and from a stream (gitdot-core/src/client/git_http.rs:109-165,
  256-301; the response format is that of section 6 of RFC 3875).
 */
module CgiSplit {
  import opened Wrappers
  import opened Records

  const CRLF_CRLF: Bytes := [13, 10, 13, 10]
  const LF_LF: Bytes := [10, 10]

  datatype Separator = Separator(position: nat, length: nat) {
    function End(): nat {
      position + length
    }
  }

  // ---------- Finding the separator ----------

  predicate Matches(data: Bytes, pattern: Bytes, i: nat) {
    i + |pattern| <= |data| && data[i..i + |pattern|] == pattern
  }

  /** The first place from `from` on where the pattern stands. */
  function FirstMatch(data: Bytes, pattern: Bytes, from: nat): (r: Option<nat>)
    requires pattern != []
    ensures r.Some? ==> from <= r.value && Matches(data, pattern, r.value)
    ensures r.Some? ==> forall i | from <= i < r.value :: !Matches(data, pattern, i)
    ensures r.None? ==> forall i | from <= i :: !Matches(data, pattern, i)
    decreases |data| - from
  {
    if from >= |data| then None
    else if Matches(data, pattern, from) then Some(from)
    else FirstMatch(data, pattern, from + 1)
  }

  /** A blank line ended by CR LF anywhere is preferred to one ended by LF. */
  function SeparatorOf(data: Bytes): Option<Separator> {
    match FirstMatch(data, CRLF_CRLF, 0)
    case Some(i) => Some(Separator(i, 4))
    case None =>
      match FirstMatch(data, LF_LF, 0)
      case Some(i) => Some(Separator(i, 2))
      case None => None
  }

  lemma FirstMatchIs(data: Bytes, pattern: Bytes, i: nat)
    requires pattern != [] && Matches(data, pattern, i) && forall j | 0 <= j < i :: !Matches(data, pattern, j)
    ensures FirstMatch(data, pattern, 0) == Some(i)
  {}

  lemma NoMatchIs(data: Bytes, pattern: Bytes)
    requires pattern != [] && forall i: nat | i + |pattern| <= |data| :: !Matches(data, pattern, i)
    ensures FirstMatch(data, pattern, 0) == None
  {}

  method FindHeaderSeparator(data: Bytes) returns (r: Option<Separator>)
    ensures r == SeparatorOf(data)
  {
    var i := 0;
    while i + 3 < |data|
      invariant forall j: nat | j < i :: !Matches(data, CRLF_CRLF, j)
    {
      if data[i..i + 4] == CRLF_CRLF {
        FirstMatchIs(data, CRLF_CRLF, i);
        return Some(Separator(i, 4));
      }
      i := i + 1;
    }
    NoMatchIs(data, CRLF_CRLF);
    i := 0;
    while i + 1 < |data|
      invariant forall j: nat | j < i :: !Matches(data, LF_LF, j)
    {
      if data[i..i + 2] == LF_LF {
        FirstMatchIs(data, LF_LF, i);
        return Some(Separator(i, 2));
      }
      i := i + 1;
    }
    NoMatchIs(data, LF_LF);
    return None;
  }

  // ---------- The whole response ----------

  datatype Split = Split(header: Bytes, body: Bytes)

  /** `parse_cgi_response` up to the parsing of the header lines. */
  method ParseCgiResponse(output: Bytes) returns (r: Option<Split>)
    ensures r == WholeSplit(output)
  {
    var sep := FindHeaderSeparator(output);
    if sep.None? {
      return None;
    }
    var header, rest := output[..sep.value.position], output[sep.value.position..];
    assert rest[sep.value.length..] == output[sep.value.End()..];
    return Some(Split(header, rest[sep.value.length..]));
  }

  function WholeSplit(output: Bytes): Option<Split> {
    match SeparatorOf(output)
    case None => None
    case Some(sep) => Some(Split(output[..sep.position], output[sep.End()..]))
  }

  // ---------- The streamed response ----------

  function Concat(chunks: seq<Bytes>): Bytes {
    if chunks == [] then [] else chunks[0] + Concat(chunks[1..])
  }

  /** The child's output as the reads deliver it; a read that delivers nothing is the end. */
  class ChildStdout {
    var chunks: seq<Bytes>

    ghost predicate Valid()
      reads this
    {
      forall k | 0 <= k < |chunks| :: chunks[k] != []
    }

    constructor (chunks: seq<Bytes>)
      requires forall k | 0 <= k < |chunks| :: chunks[k] != []
      ensures Valid() && this.chunks == chunks
    {
      this.chunks := chunks;
    }

    method Read() returns (chunk: Bytes)
      requires Valid()
      modifies this
      ensures Valid() && (chunk == [] <==> old(chunks) == [])
      ensures chunks == if chunk == [] then old(chunks) else old(chunks)[1..]
      ensures chunk + Concat(chunks) == Concat(old(chunks))
      ensures chunk != [] ==> chunk == old(chunks)[0]
    {
      if chunks == [] {
        return [];
      }
      chunk := chunks[0];
      chunks := chunks[1..];
    }
  }

  /** Where reading stops: after the first chunk that completes a separator. */
  datatype Streamed = Streamed(buffer: Bytes, rest: seq<Bytes>)

  function ReadAhead(buffer: Bytes, chunks: seq<Bytes>): Option<Streamed>
    decreases chunks
  {
    if chunks == [] then None
    else
      var read := buffer + chunks[0];
      if SeparatorOf(read).Some? then Some(Streamed(read, chunks[1..])) else ReadAhead(read, chunks[1..])
  }

  method ReadUntilCgiSeparator(stdout: ChildStdout) returns (buffer: Bytes, r: Option<Separator>)
    requires stdout.Valid()
    modifies stdout
    ensures stdout.Valid()
    ensures match ReadAhead([], old(stdout.chunks))
            case Some(streamed) =>
              buffer == streamed.buffer && stdout.chunks == streamed.rest && r == SeparatorOf(buffer)
            case None => r.None? && stdout.chunks == []
    ensures buffer + Concat(stdout.chunks) == Concat(old(stdout.chunks))
  {
    buffer := [];
    while true
      invariant stdout.Valid()
      invariant ReadAhead(buffer, stdout.chunks) == ReadAhead([], old(stdout.chunks))
      invariant buffer + Concat(stdout.chunks) == Concat(old(stdout.chunks))
      decreases |stdout.chunks|
    {
      var chunk := stdout.Read();
      if chunk == [] {
        return buffer, None;
      }
      buffer := buffer + chunk;
      var sep := FindHeaderSeparator(buffer);
      if sep.Some? {
        return buffer, sep;
      }
    }
  }

  /** The header section, and the body as the client will receive it: the leftover first, then the remaining reads. */
  method ServiceRpc(stdout: ChildStdout) returns (r: Option<(Bytes, seq<Bytes>)>)
    requires stdout.Valid()
    modifies stdout
    ensures r.Some? <==> StreamedSplit(old(stdout.chunks)).Some?
    ensures r.Some? ==> StreamedSplit(old(stdout.chunks)) == Some(Split(r.value.0, Concat(r.value.1)))
    ensures r.Some? ==> forall k | 0 <= k < |r.value.1| :: r.value.1[k] != []
  {
    var headerBuf, sep := ReadUntilCgiSeparator(stdout);
    if sep.None? {
      return None;
    }
    var leftover := headerBuf[sep.value.End()..];
    if leftover == [] {
      assert leftover + Concat(stdout.chunks) == Concat(stdout.chunks);
      return Some((headerBuf[..sep.value.position], stdout.chunks));
    } else {
      return Some((headerBuf[..sep.value.position], [leftover] + stdout.chunks));
    }
  }

  function StreamedSplit(chunks: seq<Bytes>): Option<Split> {
    match ReadAhead([], chunks)
    case None => None
    case Some(streamed) =>
      match SeparatorOf(streamed.buffer)
      case None => None
      case Some(sep) =>
        Some(Split(streamed.buffer[..sep.position], streamed.buffer[sep.End()..] + Concat(streamed.rest)))
  }

  // ---------- Nothing is lost ----------

  lemma {:induction false} ReadAheadConserves(buffer: Bytes, chunks: seq<Bytes>)
    ensures match ReadAhead(buffer, chunks)
            case None => true
            case Some(streamed) =>
              && SeparatorOf(streamed.buffer).Some?
              && streamed.buffer + Concat(streamed.rest) == buffer + Concat(chunks)
    decreases chunks
  {
    if chunks != [] {
      var read := buffer + chunks[0];
      assert read + Concat(chunks[1..]) == buffer + Concat(chunks);
      ReadAheadConserves(read, chunks[1..]);
    }
  }

  lemma CutAtSeparator(buffer: Bytes, sep: Separator, rest: Bytes)
    requires sep.End() <= |buffer|
    ensures buffer[..sep.position] + buffer[sep.position..sep.End()] + (buffer[sep.End()..] + rest) == buffer + rest
  {}

  /** Header, separator and body, in this order, are the output byte for byte. */
  lemma StreamedSplitConserves(chunks: seq<Bytes>) returns (separator: Bytes)
    requires StreamedSplit(chunks).Some?
    ensures separator == CRLF_CRLF || separator == LF_LF
    ensures StreamedSplit(chunks).value.header + separator + StreamedSplit(chunks).value.body == Concat(chunks)
  {
    ReadAheadConserves([], chunks);
    var streamed := ReadAhead([], chunks).value;
    var sep := SeparatorOf(streamed.buffer).value;
    separator := streamed.buffer[sep.position..sep.End()];
    CutAtSeparator(streamed.buffer, sep, Concat(streamed.rest));
    assert [] + Concat(chunks) == Concat(chunks);
  }

  // ---------- Chunk independence ----------

  lemma MatchInPrefix(data: Bytes, n: nat, pattern: Bytes, i: nat)
    requires n <= |data|
    ensures Matches(data[..n], pattern, i) <==> i + |pattern| <= n && Matches(data, pattern, i)
  {
    if i + |pattern| <= n {
      assert data[..n][i..i + |pattern|] == data[i..i + |pattern|];
    }
  }

  /** A prefix shows the first match as soon as it covers it, and no other match before. */
  lemma FirstMatchInPrefix(data: Bytes, n: nat, pattern: Bytes)
    requires n <= |data| && pattern != []
    ensures FirstMatch(data[..n], pattern, 0) ==
      match FirstMatch(data, pattern, 0)
      case Some(i) => if i + |pattern| <= n then Some(i) else None
      case None => None
  {
    var first := FirstMatch(data, pattern, 0);
    forall i: nat ensures Matches(data[..n], pattern, i) <==> i + |pattern| <= n && Matches(data, pattern, i) {
      MatchInPrefix(data, n, pattern, i);
    }
    if first.Some? && first.value + |pattern| <= n {
      FirstMatchIs(data[..n], pattern, first.value);
    } else {
      NoMatchIs(data[..n], pattern);
    }
  }

  function Crlf(data: Bytes): Option<nat> {
    FirstMatch(data, CRLF_CRLF, 0)
  }

  function Lf(data: Bytes): Option<nat> {
    FirstMatch(data, LF_LF, 0)
  }

  /** A blank line ended by LF stands before the first one ended by CR LF. */
  predicate IsAmbiguous(data: Bytes) {
    Crlf(data).Some? && Lf(data).Some? && Lf(data).value < Crlf(data).value
  }

  /** Where the blank line that is complete first ends. */
  function FirstEnd(data: Bytes): Option<nat> {
    if Crlf(data).Some? && !IsAmbiguous(data) then Some(Crlf(data).value + 4)
    else if Lf(data).Some? then Some(Lf(data).value + 2)
    else None
  }

  /** The two kinds of blank line do not overlap. */
  lemma BlankLinesAreApart(data: Bytes)
    requires Crlf(data).Some? && Lf(data).Some?
    ensures Lf(data).value + 2 <= Crlf(data).value || Crlf(data).value + 4 < Lf(data).value + 2
  {
    var c, l := Crlf(data).value, Lf(data).value;
    assert data[c..c + 4][0] == data[c] && data[c..c + 4][1] == data[c + 1] && data[c..c + 4][2] == data[c + 2];
    assert data[c..c + 4][3] == data[c + 3];
    assert data[l..l + 2][0] == data[l] && data[l..l + 2][1] == data[l + 1];
  }

  lemma SeparatorInPrefix(data: Bytes, n: nat)
    requires n <= |data|
    ensures SeparatorOf(data[..n]).Some? <==> FirstEnd(data).Some? && FirstEnd(data).value <= n
    ensures SeparatorOf(data[..n]).Some? && (!IsAmbiguous(data) || Crlf(data).value + 4 <= n) ==>
              SeparatorOf(data[..n]) == SeparatorOf(data)
    ensures IsAmbiguous(data) && Lf(data).value + 2 <= n < Crlf(data).value + 4 ==>
              SeparatorOf(data[..n]) == Some(Separator(Lf(data).value, 2))
  {
    FirstMatchInPrefix(data, n, CRLF_CRLF);
    FirstMatchInPrefix(data, n, LF_LF);
    if Crlf(data).Some? && Lf(data).Some? {
      BlankLinesAreApart(data);
    }
  }

  /** A buffer that begins the data shows a separator once it covers the first one. */
  lemma SeenOnceCovered(data: Bytes, buffer: Bytes, rest: Bytes)
    requires data == buffer + rest
    ensures SeparatorOf(buffer).Some? <==> FirstEnd(data).Some? && FirstEnd(data).value <= |buffer|
  {
    assert data[..|buffer|] == buffer;
    SeparatorInPrefix(data, |buffer|);
  }

  /** The end of the first chunk that reaches `need`, from `read` bytes on. */
  function ReadEnd(chunks: seq<Bytes>, read: nat, need: nat): nat
    decreases chunks
  {
    if chunks == [] || read + |chunks[0]| >= need then read + (if chunks == [] then 0 else |chunks[0]|)
    else ReadEnd(chunks[1..], read + |chunks[0]|, need)
  }

  ghost predicate StopsRight(data: Bytes, buffer: Bytes, chunks: seq<Bytes>) {
    match FirstEnd(data)
    case None => ReadAhead(buffer, chunks).None?
    case Some(need) =>
      var end := ReadEnd(chunks, |buffer|, need);
      && need <= end <= |data|
      && ReadAhead(buffer, chunks).Some? && ReadAhead(buffer, chunks).value.buffer == data[..end]
  }

  lemma {:induction false} ReadAheadStops(data: Bytes, buffer: Bytes, chunks: seq<Bytes>)
    requires data == buffer + Concat(chunks) && SeparatorOf(buffer).None?
    ensures StopsRight(data, buffer, chunks)
    decreases chunks
  {
    SeenOnceCovered(data, buffer, Concat(chunks));
    if chunks != [] {
      var read := buffer + chunks[0];
      assert data == read + Concat(chunks[1..]);
      SeenOnceCovered(data, read, Concat(chunks[1..]));
      if SeparatorOf(read).None? {
        ReadAheadStops(data, read, chunks[1..]);
      } else {
        assert data[..|read|] == read;
      }
    }
  }

  lemma SplitOfPrefix(data: Bytes, end: nat, rest: Bytes, sep: Separator)
    requires end <= |data| && data == data[..end] + rest && sep.End() <= end
    ensures data[..end][..sep.position] == data[..sep.position]
    ensures data[..end][sep.End()..] + rest == data[sep.End()..]
  {}

  lemma StreamedSplitFails(chunks: seq<Bytes>)
    requires FirstEnd(Concat(chunks)).None?
    ensures StreamedSplit(chunks).None? && WholeSplit(Concat(chunks)).None?
  {
    var data := Concat(chunks);
    assert [] + data == data && data[..|data|] == data;
    ReadAheadStops(data, [], chunks);
    SeparatorInPrefix(data, |data|);
  }

  lemma StreamedSplitIs(chunks: seq<Bytes>) returns (end: nat, sep: Separator)
    requires FirstEnd(Concat(chunks)).Some?
    ensures end == ReadEnd(chunks, 0, FirstEnd(Concat(chunks)).value)
    ensures FirstEnd(Concat(chunks)).value <= end <= |Concat(chunks)|
    ensures SeparatorOf(Concat(chunks)[..end]) == Some(sep) && sep.End() <= end
    ensures StreamedSplit(chunks) == Some(Split(Concat(chunks)[..sep.position], Concat(chunks)[sep.End()..]))
  {
    var data := Concat(chunks);
    assert [] + data == data;
    ReadAheadStops(data, [], chunks);
    end := ReadEnd(chunks, 0, FirstEnd(data).value);
    SeparatorInPrefix(data, end);
    sep := SeparatorOf(data[..end]).value;
    ReadAheadConserves([], chunks);
    SplitOfPrefix(data, end, Concat(ReadAhead([], chunks).value.rest), sep);
  }

  /**
    The streamed split is the split of the whole output, and both fail together, except when a blank line ended by LF
    comes before one ended by CR LF and the read that completes the former stops short of the latter.
   */
  lemma StreamedIsWhole(chunks: seq<Bytes>)
    ensures var data := Concat(chunks);
            StreamedSplit(chunks) == WholeSplit(data)
            <==> !IsAmbiguous(data) || ReadEnd(chunks, 0, Lf(data).value + 2) >= Crlf(data).value + 4
  {
    var data := Concat(chunks);
    if FirstEnd(data).None? {
      StreamedSplitFails(chunks);
    } else {
      var end, sep := StreamedSplitIs(chunks);
      SeparatorInPrefix(data, end);
      if IsAmbiguous(data) && end < Crlf(data).value + 4 {
        assert |data[..sep.position]| < |data[..Crlf(data).value]|;
      }
    }
  }

  // ---------- Output that no chunking spoils ----------

  const READ_BUFFER: nat := 4096   // the most that one read delivers

  /** Chunks that reads into the buffer can deliver. */
  ghost predicate AreReads(data: Bytes, chunks: seq<Bytes>) {
    Concat(chunks) == data && forall k | 0 <= k < |chunks| :: 0 < |chunks[k]| <= READ_BUFFER
  }

  /** The output read byte by byte. */
  function Singly(data: Bytes): (chunks: seq<Bytes>)
    ensures Concat(chunks) == data
    ensures forall k | 0 <= k < |chunks| :: |chunks[k]| == 1
  {
    if data == [] then [] else [data[..1]] + Singly(data[1..])
  }

  lemma {:induction false} SingleBytesStopAtNeed(data: Bytes, read: nat, need: nat)
    requires read < need <= read + |data|
    ensures ReadEnd(Singly(data), read, need) == need
    decreases data
  {
    if read + 1 < need {
      SingleBytesStopAtNeed(data[1..], read + 1, need);
    }
  }

  /** The split does not depend on the chunks if and only if no blank line ended by LF precedes one ended by CR LF. */
  lemma ChunkIndependentIff(data: Bytes)
    ensures (forall chunks | Concat(chunks) == data :: StreamedSplit(chunks) == WholeSplit(data))
      <==> !IsAmbiguous(data)
  {
    forall chunks | Concat(chunks) == data && !IsAmbiguous(data) ensures StreamedSplit(chunks) == WholeSplit(data) {
      StreamedIsWhole(chunks);
    }
    if IsAmbiguous(data) {
      AmbiguousIsSplitTwice(data);
    }
  }

  lemma {:induction false} ConcatAppend(a: seq<Bytes>, b: seq<Bytes>)
    ensures Concat(a + b) == Concat(a) + Concat(b)
  {
    if a == [] {
      assert a + b == b;
    } else {
      assert (a + b)[0] == a[0] && (a + b)[1..] == a[1..] + b;
      ConcatAppend(a[1..], b);
    }
  }

  /** Byte by byte up to a point, and from there on as the rest has it. */
  lemma {:induction false} ReadEndAfterBytes(data: Bytes, rest: seq<Bytes>, read: nat, need: nat)
    requires read + |data| < need
    ensures ReadEnd(Singly(data) + rest, read, need) == ReadEnd(rest, read + |data|, need)
    decreases data
  {
    if data == [] {
      assert Singly(data) + rest == rest;
    } else {
      assert (Singly(data) + rest)[0] == data[..1] && (Singly(data) + rest)[1..] == Singly(data[1..]) + rest;
      ReadEndAfterBytes(data[1..], rest, read + 1, need);
    }
  }

  /** A read goes beyond what is needed by less than its own length. */
  lemma {:induction false} ReadEndIsNear(chunks: seq<Bytes>, read: nat, need: nat)
    requires forall k | 0 <= k < |chunks| :: |chunks[k]| <= READ_BUFFER
    requires read < need
    ensures ReadEnd(chunks, read, need) < need + READ_BUFFER
    decreases chunks
  {
    if chunks != [] && read + |chunks[0]| < need {
      ReadEndIsNear(chunks[1..], read + |chunks[0]|, need);
    }
  }

  /** Both kinds of blank line can be completed by the same read. */
  predicate CompletedTogether(data: Bytes) {
    IsAmbiguous(data) && Crlf(data).value + 4 <= Lf(data).value + 1 + READ_BUFFER
  }

  /** The read that completes the blank line ended by LF goes on to the end of the one ended by CR LF. */
  lemma ReadTogether(data: Bytes) returns (chunks: seq<Bytes>)
    requires CompletedTogether(data)
    ensures AreReads(data, chunks)
    ensures ReadEnd(chunks, 0, Lf(data).value + 2) == Crlf(data).value + 4
  {
    BlankLinesAreApart(data);
    var l, c := Lf(data).value, Crlf(data).value;
    var one: seq<Bytes>, rest := [data[l + 1..c + 4]], Singly(data[c + 4..]);
    assert one[1..] == [] && Concat(one[1..]) == [] && Concat(one) == one[0];
    ConcatAppend(one, rest);
    ConcatAppend(Singly(data[..l + 1]), one + rest);
    assert data == data[..l + 1] + (one[0] + data[c + 4..]);
    chunks := Singly(data[..l + 1]) + (one + rest);
    ReadEndAfterBytes(data[..l + 1], one + rest, 0, l + 2);
  }

  /** However the output is read, it is split at the blank line ended by LF, if the other is too far behind it. */
  lemma FarApartIsSplitAtLf(data: Bytes, chunks: seq<Bytes>)
    requires AreReads(data, chunks) && IsAmbiguous(data) && !CompletedTogether(data)
    ensures StreamedSplit(chunks) == Some(Split(data[..Lf(data).value], data[Lf(data).value + 2..]))
  {
    ReadEndIsNear(chunks, 0, Lf(data).value + 2);
    var end, sep := StreamedSplitIs(chunks);
    SeparatorInPrefix(data, end);
  }

  /** The reads decide how output is split if and only if one read can complete both kinds of blank line. */
  lemma ReadsMatterIff(data: Bytes)
    ensures (exists a, b | AreReads(data, a) && AreReads(data, b) :: StreamedSplit(a) != StreamedSplit(b))
      <==> CompletedTogether(data)
  {
    if CompletedTogether(data) {
      var a := ReadTogether(data);
      var b := Singly(data);
      BlankLinesAreApart(data);
      StreamedIsWhole(a);
      SingleBytesStopAtNeed(data, 0, Lf(data).value + 2);
      StreamedIsWhole(b);
      assert AreReads(data, a) && AreReads(data, b);
    }
    forall a, b | !CompletedTogether(data) && AreReads(data, a) && AreReads(data, b)
      ensures StreamedSplit(a) == StreamedSplit(b)
    {
      if IsAmbiguous(data) {
        FarApartIsSplitAtLf(data, a);
        FarApartIsSplitAtLf(data, b);
      } else {
        StreamedIsWhole(a);
        StreamedIsWhole(b);
      }
    }
  }

  /** Ambiguous output would be split in two ways if it arrived at once, however long, and byte by byte. */
  lemma AmbiguousIsSplitTwice(data: Bytes)
    requires IsAmbiguous(data)
    ensures Concat([data]) == data && Concat(Singly(data)) == data
    ensures StreamedSplit([data]) != StreamedSplit(Singly(data))
  {
    var whole: seq<Bytes> := [data];
    assert whole[1..] == [] && Concat(whole[1..]) == [] && Concat(whole) == data;
    BlankLinesAreApart(data);
    StreamedIsWhole(whole);
    SingleBytesStopAtNeed(data, 0, Lf(data).value + 2);
    StreamedIsWhole(Singly(data));
  }

  /** Six bytes for which that is so. */
  lemma AmbiguousExample() returns (data: Bytes)
    ensures data == LF_LF + CRLF_CRLF && IsAmbiguous(data)
    ensures Concat([data]) == data && Concat(Singly(data)) == data
    ensures StreamedSplit([data]) != StreamedSplit(Singly(data))
  {
    data := LF_LF + CRLF_CRLF;
    assert data[0..4][0] == 10 && data[1..5][0] == 10;
    assert data[2..6] == CRLF_CRLF && data[0..2] == LF_LF;
    FirstMatchIs(data, CRLF_CRLF, 2);
    FirstMatchIs(data, LF_LF, 0);
    AmbiguousIsSplitTwice(data);
  }
}
