/** The session's assertions never fail, and every acknowledgement tells where the submission's own records are. */
module SessionAcks {
  import opened Wrappers
  import opened Records
  import opened SessionProtocol

  // ---------- What is in flight is what the connection still owes ----------

  function SentAgain(s: State): nat {
    match s.phase
    case Resending(index) => index
    case _ => |s.inflight|
  }

  /** The unacknowledged sends of the current connection are the first submissions in flight, in order. */
  ghost predicate Wired(s: State) {
    s.IsConnected() ==>
      && s.connections != []
      && SentAgain(s) <= |s.inflight|
      && |Current(s).sends| == Current(s).acked + SentAgain(s)
      && forall i | 0 <= i < SentAgain(s) :: Current(s).sends[Current(s).acked + i] == s.inflight[i]
  }

  ghost predicate NonEmpty(s: State) {
    && (forall i | 0 <= i < |s.queue| :: s.queue[i].Submit? ==> s.queue[i].submission.records != [])
    && (s.stashed.Some? ==> s.stashed.value.records != [])
    && (forall i | 0 <= i < |s.inflight| :: s.inflight[i].records != [])
  }

  // ---------- The log ----------

  function EndOf(c: Connection, j: nat): nat
    requires j < |c.starts| <= |c.sends|
  {
    c.starts[j] + |c.sends[j].records|
  }

  ghost predicate Stands(log: seq<LogEntry>, start: nat, records: seq<AppendRecord>, from: Place) {
    start + |records| <= |log| && forall i | 0 <= i < |records| :: log[start + i] == LogEntry(records[i], Some(from))
  }

  /** The records of the j-th send stand at its start, with its mark, where its condition wanted them. */
  ghost predicate Served(log: seq<LogEntry>, c: Connection, k: nat, j: nat)
    requires j < |c.starts| <= |c.sends|
  {
    && Stands(log, c.starts[j], c.sends[j].records, Place(k, j))
    && (c.sends[j].matchSeqNum.Some? ==> c.sends[j].matchSeqNum.value == c.starts[j])
  }

  ghost predicate InOrder(c: Connection)
    requires |c.starts| <= |c.sends|
  {
    && (forall j | 0 <= j < |c.starts| :: c.opening <= c.starts[j])
    && (forall i, j | 0 <= i < j < |c.starts| :: EndOf(c, i) <= c.starts[j])
  }

  ghost predicate ConnectionOk(log: seq<LogEntry>, c: Connection, k: nat) {
    && c.acked <= |c.starts| <= |c.sends| && c.opening <= |log|
    && (forall j | 0 <= j < |c.starts| :: Served(log, c, k, j))
    && InOrder(c)
    && (forall j | 0 <= j < |c.sends| :: c.sends[j].records != [])
  }

  ghost predicate ConnectionsOk(s: State) {
    forall k | 0 <= k < |s.connections| :: ConnectionOk(s.log, s.connections[k], k)
  }

  lemma LogGrows(log: seq<LogEntry>, more: seq<LogEntry>, c: Connection, k: nat)
    requires ConnectionOk(log, c, k)
    ensures ConnectionOk(log + more, c, k)
  {
    forall j | 0 <= j < |c.starts| ensures Served(log + more, c, k, j) {
      assert Served(log, c, k, j);
      StandsLonger(log, more, c.starts[j], c.sends[j].records, Place(k, j));
    }
  }

  function LogAfter(log: seq<LogEntry>, c: Connection, k: nat): seq<LogEntry>
    requires |c.starts| < |c.sends|
  {
    log + Tagged(c.sends[|c.starts|].records, Some(Place(k, |c.starts|)))
  }

  lemma StandsLonger(log: seq<LogEntry>, more: seq<LogEntry>, start: nat, records: seq<AppendRecord>, from: Place)
    requires Stands(log, start, records, from)
    ensures Stands(log + more, start, records, from)
  {}

  lemma StandsAtEnd(log: seq<LogEntry>, records: seq<AppendRecord>, from: Place)
    ensures Stands(log + Tagged(records, Some(from)), |log|, records, from)
  {}

  lemma EarlierStayServed(log: seq<LogEntry>, c: Connection, k: nat, i: nat)
    requires ConnectionOk(log, c, k) && i < |c.starts| < |c.sends|
    ensures Served(LogAfter(log, c, k), c.(starts := c.starts + [|log|]), k, i)
  {
    assert Served(log, c, k, i);
    var j := |c.starts|;
    StandsLonger(log, Tagged(c.sends[j].records, Some(Place(k, j))), c.starts[i], c.sends[i].records, Place(k, i));
  }

  lemma NextIsServed(log: seq<LogEntry>, c: Connection, k: nat)
    requires |c.starts| < |c.sends|
    requires c.sends[|c.starts|].matchSeqNum.Some? ==> c.sends[|c.starts|].matchSeqNum.value == |log|
    ensures Served(LogAfter(log, c, k), c.(starts := c.starts + [|log|]), k, |c.starts|)
  {
    StandsAtEnd(log, c.sends[|c.starts|].records, Place(k, |c.starts|));
  }

  lemma NextIsInOrder(log: seq<LogEntry>, c: Connection, k: nat)
    requires ConnectionOk(log, c, k) && |c.starts| < |c.sends|
    ensures InOrder(c.(starts := c.starts + [|log|]))
  {
    var served := c.(starts := c.starts + [|log|]);
    forall i, m | 0 <= i < m < |served.starts| ensures EndOf(served, i) <= served.starts[m] {
      assert Served(log, c, k, i) && EndOf(served, i) == EndOf(c, i);
    }
  }

  lemma ServeOk(log: seq<LogEntry>, c: Connection, k: nat)
    requires ConnectionOk(log, c, k) && |c.starts| < |c.sends|
    requires c.sends[|c.starts|].matchSeqNum.Some? ==> c.sends[|c.starts|].matchSeqNum.value == |log|
    ensures ConnectionOk(LogAfter(log, c, k), c.(starts := c.starts + [|log|]), k)
  {
    var after, served := LogAfter(log, c, k), c.(starts := c.starts + [|log|]);
    forall i | 0 <= i < |served.starts| ensures Served(after, served, k, i) {
      if i < |c.starts| {
        EarlierStayServed(log, c, k, i);
      } else {
        NextIsServed(log, c, k);
      }
    }
    NextIsInOrder(log, c, k);
  }

  lemma SendOk(log: seq<LogEntry>, c: Connection, k: nat, submission: Submission)
    requires ConnectionOk(log, c, k) && submission.records != []
    ensures ConnectionOk(log, c.(sends := c.sends + [submission]), k)
  {
    var sent := c.(sends := c.sends + [submission]);
    forall j | 0 <= j < |c.starts| ensures Served(log, sent, k, j) && EndOf(sent, j) == EndOf(c, j) {
      assert Served(log, c, k, j);
    }
  }

  lemma AckOk(log: seq<LogEntry>, c: Connection, k: nat)
    requires ConnectionOk(log, c, k) && c.acked < |c.starts|
    ensures ConnectionOk(log, c.(acked := c.acked + 1), k)
  {
    var acked := c.(acked := c.acked + 1);
    forall j | 0 <= j < |c.starts| ensures Served(log, acked, k, j) && EndOf(acked, j) == EndOf(c, j) {
      assert Served(log, c, k, j);
    }
  }

  /** The connections after a step of the session. */
  function ConnectionsAfter(s: State, e: Event): seq<Connection>
    requires Enabled(s, e)
  {
    match e
    case Connect => s.connections + [Connection(|s.log|, [], [], 0)]
    case Resend => Send(s, s.inflight[s.phase.index]).connections
    case SendStashed => Send(s, s.stashed.value).connections
    case ReceiveAck => SetCurrent(s, Current(s).(acked := Current(s).acked + 1)).connections
    case _ => s.connections
  }

  lemma ConnectionsAre(config: Config, s: State, e: Event)
    requires Enabled(s, e) && !e.Serve? && !e.OtherAppend?
    ensures Apply(config, s, e).connections == ConnectionsAfter(s, e) && Apply(config, s, e).log == s.log
  {}

  lemma ServerStep(config: Config, s: State, e: Event)
    requires ConnectionsOk(s) && Enabled(s, e) && (e.Serve? || e.OtherAppend?)
    ensures ConnectionsOk(Apply(config, s, e))
  {
    var next := Apply(config, s, e);
    var more := next.log[|s.log|..];
    assert next.log == s.log + more;
    if e.Serve? {
      ServeOk(s.log, s.connections[e.k], e.k);
    }
    forall i | 0 <= i < |next.connections| ensures ConnectionOk(next.log, next.connections[i], i) {
      assert ConnectionOk(s.log, s.connections[i], i);
      if !(e.Serve? && e.k == i) {
        LogGrows(s.log, more, s.connections[i], i);
      }
    }
  }

  lemma SessionStep(s: State, e: Event, k: nat)
    requires NonEmpty(s) && ConnectionsOk(s) && Enabled(s, e) && k < |ConnectionsAfter(s, e)|
    ensures ConnectionOk(s.log, ConnectionsAfter(s, e)[k], k)
  {
    if k < |s.connections| {
      var c := s.connections[k];
      assert ConnectionOk(s.log, c, k);
      if k == |s.connections| - 1 {
        match e
        case Resend => SendOk(s.log, c, k, s.inflight[s.phase.index]);
        case SendStashed => SendOk(s.log, c, k, s.stashed.value);
        case ReceiveAck => AckOk(s.log, c, k);
        case _ =>
      }
    }
  }

  lemma ConnectionsStep(config: Config, s: State, e: Event)
    requires NonEmpty(s) && ConnectionsOk(s) && Enabled(s, e)
    ensures ConnectionsOk(Apply(config, s, e))
  {
    if e.Serve? || e.OtherAppend? {
      ServerStep(config, s, e);
    } else {
      ConnectionsAre(config, s, e);
      forall k | 0 <= k < |ConnectionsAfter(s, e)| ensures ConnectionOk(s.log, ConnectionsAfter(s, e)[k], k) {
        SessionStep(s, e, k);
      }
    }
  }

  // ---------- Counters and assertions ----------

  function RecordsOf(submissions: seq<Submission>, n: nat): nat
    requires n <= |submissions|
  {
    if n == 0 then 0 else RecordsOf(submissions, n - 1) + |submissions[n - 1].records|
  }

  function BytesOf(submissions: seq<Submission>, n: nat): nat
    requires n <= |submissions|
  {
    if n == 0 then 0 else BytesOf(submissions, n - 1) + submissions[n - 1].Bytes()
  }

  ghost predicate Counted(s: State) {
    !s.phase.Ended? ==>
      && s.inflightBytes == BytesOf(s.inflight, |s.inflight|)
      && s.totalRecords == s.totalAcked + RecordsOf(s.inflight, |s.inflight|)
  }

  lemma {:induction false} SumsOfPrefix(a: seq<Submission>, b: seq<Submission>, n: nat)
    requires n <= |a| && n <= |b| && forall i | 0 <= i < n :: a[i] == b[i]
    ensures BytesOf(a, n) == BytesOf(b, n) && RecordsOf(a, n) == RecordsOf(b, n)
  {
    if n > 0 {
      SumsOfPrefix(a, b, n - 1);
    }
  }

  lemma {:induction false} SumsOfTail(a: seq<Submission>, n: nat)
    requires 0 < n <= |a|
    ensures BytesOf(a, n) == a[0].Bytes() + BytesOf(a[1..], n - 1)
    ensures RecordsOf(a, n) == |a[0].records| + RecordsOf(a[1..], n - 1)
  {
    if n > 1 {
      SumsOfTail(a, n - 1);
    }
  }

  /** How far the acknowledgements of the connection have come. */
  function AckedTo(c: Connection): nat {
    if 0 < c.acked <= |c.starts| <= |c.sends| then EndOf(c, c.acked - 1) else c.opening
  }

  /** The last acknowledged end lies in the log, and before anything the current connection will acknowledge. */
  ghost predicate AcksAdvance(s: State) {
    s.prevAckEnd.Some? ==>
      && s.prevAckEnd.value <= |s.log|
      && (s.IsConnected() && s.connections != [] ==> s.prevAckEnd.value <= AckedTo(Current(s)))
  }

  ghost predicate Sound(s: State) {
    ConnectionsOk(s) && NonEmpty(s) && Wired(s) && Counted(s) && AcksAdvance(s) && !s.phase.Panicked?
  }

  /** The next acknowledgement is for the oldest submission in flight, which it covers exactly, further down the log. */
  lemma AckIsExpected(s: State)
    requires Sound(s) && Enabled(s, ReceiveAck)
    ensures var c := Current(s);
            && c.acked < |c.starts| <= |c.sends| && SentAgain(s) > 0 && s.inflight != []
            && c.sends[c.acked] == s.inflight[0]
            && (s.prevAckEnd.Some? ==> s.prevAckEnd.value <= c.starts[c.acked])
            && EndOf(c, c.acked) <= |s.log|
  {
    var c := Current(s);
    assert ConnectionOk(s.log, c, |s.connections| - 1);
    assert Served(s.log, c, |s.connections| - 1, c.acked);
    assert c.sends[c.acked + 0] == s.inflight[0];
  }

  lemma FinishIsSound(s: State)
    requires Sound(s) && !s.HasEnded() && s.inflight == [] && s.stashed.None?
    ensures Sound(Finish(s))
  {}

  lemma BranchIsSound(s: State)
    requires Sound(s)
    ensures Sound(AfterBranch(s))
  {
    if s.phase.Streaming? && s.inflight == [] && s.stashed.None? {
      FinishIsSound(s);
    }
  }

  lemma RejectIsSound(s: State, error: SessionError)
    requires Sound(s)
    ensures Sound(RejectHeld(s, error))
  {}

  lemma FailureIsSound(config: Config, s: State, error: SessionError)
    requires Sound(s) && !s.HasEnded()
    ensures Sound(AfterFailure(config, s, error))
  {}

  lemma ConnectIsSound(s: State)
    requires Sound(s) && s.phase.Connecting?
    ensures Sound(AfterConnect(s))
  {
    var next := AfterConnect(s);
    forall k | 0 <= k < |next.connections| ensures ConnectionOk(next.log, next.connections[k], k) {
      if k < |s.connections| {
        assert ConnectionOk(s.log, s.connections[k], k);
      }
    }
  }

  /** The parts that say nothing about the connections. */
  ghost predicate Internal(s: State) {
    NonEmpty(s) && Counted(s) && !s.phase.Panicked?
  }

  lemma ResendIsSound(s: State)
    requires Sound(s) && Enabled(s, Resend)
    ensures Internal(AfterResend(s)) && Wired(AfterResend(s)) && AcksAdvance(AfterResend(s))
  {
    assert ConnectionOk(s.log, Current(s), |s.connections| - 1);
  }

  lemma ResendDoneIsSound(s: State)
    requires Sound(s) && Enabled(s, ResendDone)
    ensures Sound(AfterResendDone(s))
  {}

  lemma SendStashedIsWired(s: State)
    requires Sound(s) && Enabled(s, SendStashed)
    ensures Wired(AfterSendStashed(s)) && AcksAdvance(AfterSendStashed(s))
  {
    assert ConnectionOk(s.log, Current(s), |s.connections| - 1);
  }

  lemma SendStashedIsInternal(s: State)
    requires Internal(s) && Enabled(s, SendStashed)
    ensures Internal(AfterSendStashed(s))
  {
    SumsOfPrefix(s.inflight, AfterSendStashed(s).inflight, |s.inflight|);
  }

  lemma ReceiveIsInternal(s: State)
    requires Internal(s) && Enabled(s, Receive)
    ensures Internal(AfterReceive(s))
  {}

  /** Nothing that the rest depends on changes when a command is received. */
  lemma ReceiveIsSound(s: State)
    requires Sound(s) && Enabled(s, Receive)
    ensures Sound(AfterReceive(s))
  {
    ReceiveIsInternal(s);
    SameWires(s, AfterReceive(s));
  }

  lemma SameWires(s: State, next: State)
    requires ConnectionsOk(s) && Wired(s) && AcksAdvance(s)
    requires next.connections == s.connections && next.log == s.log && next.phase == s.phase
    requires next.inflight == s.inflight && next.prevAckEnd == s.prevAckEnd
    ensures ConnectionsOk(next) && Wired(next) && AcksAdvance(next)
  {}

  /** The state once the acknowledgement is processed. */
  function Popped(s: State): State
    requires s.connections != [] && Current(s).acked < |Current(s).starts| && s.inflight != []
    requires s.inflight[0].Bytes() <= s.inflightBytes
  {
    var c, submission := Current(s), s.inflight[0];
    var start := c.starts[c.acked];
    SetCurrent(s, c.(acked := c.acked + 1)).(
      inflight := s.inflight[1..],
      inflightBytes := s.inflightBytes - submission.Bytes(),
      totalAcked := s.totalAcked + |submission.records|,
      prevAckEnd := Some(start + |submission.records|),
      resolved := s.resolved + [Acked(submission, start)])
  }

  /** The assertions of `process_ack` and the decrement after it hold if the acknowledgement is the expected one. */
  lemma ExpectedAckPasses(s: State)
    requires s.IsConnected() && s.connections != [] && s.inflight != []
    requires Current(s).acked < |Current(s).starts| <= |Current(s).sends|
    requires Current(s).sends[Current(s).acked] == s.inflight[0] && s.inflight[0].records != []
    requires s.prevAckEnd.Some? ==> s.prevAckEnd.value <= Current(s).starts[Current(s).acked]
    requires s.inflight[0].Bytes() <= s.inflightBytes
    requires |s.inflight| == 1 ==> s.totalRecords == s.totalAcked + |s.inflight[0].records|
    requires s.phase.Resending? ==> s.phase.index > 0
    ensures AfterAck(s) ==
      if s.phase.Resending? then Popped(s).(phase := Resending(s.phase.index - 1)) else AfterBranch(Popped(s))
  {}

  lemma AckIsProcessed(s: State)
    requires Sound(s) && Enabled(s, ReceiveAck)
    ensures s.inflight != [] && s.inflight[0].Bytes() <= s.inflightBytes && SentAgain(s) > 0
    ensures AfterAck(s) ==
      if s.phase.Resending? then Popped(s).(phase := Resending(s.phase.index - 1)) else AfterBranch(Popped(s))
  {
    AckIsExpected(s);
    SumsOfTail(s.inflight, |s.inflight|);
    ExpectedAckPasses(s);
  }

  lemma PoppedIsInternal(s: State)
    requires Internal(s) && Enabled(s, ReceiveAck) && s.inflight != [] && s.inflight[0].Bytes() <= s.inflightBytes
    ensures Internal(Popped(s))
  {
    SumsOfTail(s.inflight, |s.inflight|);
  }

  lemma PoppedAdvances(s: State)
    requires Sound(s) && Enabled(s, ReceiveAck) && s.inflight != [] && s.inflight[0].Bytes() <= s.inflightBytes
    ensures AcksAdvance(Popped(s))
  {
    AckIsExpected(s);
  }

  lemma PoppedIsWired(s: State, next: State)
    requires Sound(s) && Enabled(s, ReceiveAck) && s.inflight != [] && s.inflight[0].Bytes() <= s.inflightBytes
    requires if s.phase.Resending? then s.phase.index > 0 && next == Popped(s).(phase := Resending(s.phase.index - 1))
             else next == Popped(s)
    ensures Wired(next) && AcksAdvance(next)
  {
    PoppedAdvances(s);
  }

  lemma AckIsSound(config: Config, s: State)
    requires Sound(s) && Enabled(s, ReceiveAck)
    ensures Sound(AfterAck(s))
  {
    AckIsProcessed(s);
    PoppedIsInternal(s);
    ConnectionsStep(config, s, ReceiveAck);
    if s.phase.Resending? {
      PoppedIsWired(s, Popped(s).(phase := Resending(s.phase.index - 1)));
    } else {
      PoppedIsWired(s, Popped(s));
      assert Popped(s).connections == AfterAck(s).connections && Popped(s).log == AfterAck(s).log;
      BranchIsSound(Popped(s));
    }
  }

  lemma ResentIsSound(config: Config, s: State)
    requires Sound(s) && Enabled(s, Resend)
    ensures Sound(AfterResend(s))
  {
    ResendIsSound(s);
    ConnectionsStep(config, s, Resend);
  }

  lemma SendStashedIsSound(config: Config, s: State)
    requires Sound(s) && Enabled(s, SendStashed)
    ensures Sound(AfterBranch(AfterSendStashed(s)))
  {
    SendStashedIsWired(s);
    SendStashedIsInternal(s);
    ConnectionsStep(config, s, SendStashed);
    assert ConnectionsOk(AfterSendStashed(s)) by {
      assert AfterBranch(AfterSendStashed(s)).connections == AfterSendStashed(s).connections;
    }
    BranchIsSound(AfterSendStashed(s));
  }

  lemma ServeKeepsWires(s: State, k: nat)
    requires Wired(s) && AcksAdvance(s) && ConnectionsOk(s) && CanServe(s, k)
    ensures Wired(AfterServe(s, k)) && AcksAdvance(AfterServe(s, k))
  {
    if s.connections != [] {
      var c, served := Current(s), Current(AfterServe(s, k));
      assert ConnectionOk(s.log, c, |s.connections| - 1);
      assert served.sends == c.sends && served.acked == c.acked && AckedTo(served) == AckedTo(c);
    }
  }

  lemma ServeIsSound(config: Config, s: State, e: Event)
    requires Sound(s) && Enabled(s, e) && (e.Serve? || e.OtherAppend?)
    ensures Sound(Apply(config, s, e))
  {
    ConnectionsStep(config, s, e);
    if e.Serve? {
      ServeKeepsWires(s, e.k);
    }
  }

  lemma EndIsSound(config: Config, s: State, e: Event)
    requires Sound(s) && Enabled(s, e) && (e.SendersGone? || e.Abort? || e.StreamEnd? || e.Fail?)
    ensures Sound(Apply(config, s, e))
  {
    match e
    case SendersGone => FailureIsSound(config, s, SessionDropped);
    case Abort => RejectIsSound(s, SessionDropped);
    case Fail(error) => FailureIsSound(config, s, error);
    case StreamEnd =>
      if s.phase.Streaming? && s.inflight == [] && s.stashed.None? {
        FinishIsSound(s);
      } else {
        FailureIsSound(config, s, StreamClosedEarly);
      }
  }

  lemma BranchStepIsSound(config: Config, s: State, e: Event)
    requires Sound(s) && Enabled(s, e) && (e.SendStashed? || e.Receive? || e.ReceiveAck?)
    ensures Sound(Apply(config, s, e))
  {
    match e
    case SendStashed => SendStashedIsSound(config, s);
    case Receive =>
      ReceiveIsSound(s);
      BranchIsSound(AfterReceive(s));
    case ReceiveAck => AckIsSound(config, s);
  }

  lemma SoundStep(config: Config, s: State, e: Event)
    requires Sound(s) && Enabled(s, e)
    ensures Sound(Apply(config, s, e))
  {
    if e.SendersGone? || e.Abort? || e.StreamEnd? || e.Fail? {
      EndIsSound(config, s, e);
    } else if e.SendStashed? || e.Receive? || e.ReceiveAck? {
      BranchStepIsSound(config, s, e);
    } else if e.Connect? {
      ConnectIsSound(s);
    } else if e.Resend? {
      ResentIsSound(config, s);
    } else if e.ResendDone? {
      ResendDoneIsSound(s);
    } else if e.Serve? || e.OtherAppend? {
      ServeIsSound(config, s, e);
    }
  }

  lemma {:induction false} RunIsSound(
    config: Config, first: seq<AppendRecord>, states: seq<State>, events: seq<Event>, i: nat)
    requires IsRun(config, first, states, events) && i < |states|
    ensures Sound(states[i])
  {
    if i > 0 {
      RunIsSound(config, first, states, events, i - 1);
      SoundStep(config, states[i - 1], events[i - 1]);
    }
  }

  /** No assertion or underflow of the session ever stops its task. */
  lemma NeverPanics(config: Config, first: seq<AppendRecord>, states: seq<State>, events: seq<Event>, i: nat)
    requires IsRun(config, first, states, events) && i < |states|
    ensures !states[i].phase.Panicked?
  {
    RunIsSound(config, first, states, events, i);
  }
}
