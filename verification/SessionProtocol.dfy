/**
  The append session as a state machine (s2-sdk/src/session/append.rs:390-760): commands, a stashed submission, the
  submissions in flight, and one connection after another to a server that appends what it receives in order. The
  network may fail at any point, and a connection that was given up may still be served.
 */
module SessionProtocol {
  import opened Wrappers
  import opened Records
  import AppendOnce
  import Retry

  datatype Submission = Submission(id: nat, records: seq<AppendRecord>, matchSeqNum: Option<nat>) {
    function Bytes(): nat {
      TotalBytes(records)
    }
  }

  datatype SessionError =
    | Api(error: Retry.ApiError)
    | AckTimeout
    | ServerDisconnected
    | StreamClosedEarly
    | SessionClosing
    | SessionDropped
  {
    predicate IsRetryable() {
      match this
      case Api(error) => error.IsRetryable()
      case AckTimeout | ServerDisconnected => true
      case _ => false
    }
  }

  datatype Command = Submit(submission: Submission) | Close

  datatype Phase = Connecting | Resending(index: nat) | Streaming | Ended | Panicked

  datatype Resolution =
    | Acked(submission: Submission, start: nat)
    | Rejected(submission: Submission, error: SessionError)

  /** Where a record of the log came from: the j-th submission sent on the k-th connection. */
  datatype Place = Place(k: nat, j: nat)

  datatype LogEntry = LogEntry(record: AppendRecord, from: Option<Place>)

  /** One connection: what was sent, where the server put the first of it, and how much of that was acknowledged. */
  datatype Connection = Connection(opening: nat, sends: seq<Submission>, starts: seq<nat>, acked: nat)

  datatype Config = Config(policy: AppendOnce.AppendRetryPolicy, maxRetries: nat)

  datatype State = State(
    issued: nat,                                   // submissions made so far
    closeAt: Option<nat>,                          // submissions made when `close` was called
    queue: seq<Command>,
    stashed: Option<Submission>,
    inflight: seq<Submission>,
    inflightBytes: nat,
    totalRecords: nat,
    totalAcked: nat,
    prevTotalAcked: nat,
    prevAckEnd: Option<nat>,
    isClosing: bool,                               // close_tx.is_some()
    closeReply: Option<Result<(), SessionError>>,  // what the caller of `close` was sent, if anything
    retries: nat,
    phase: Phase,
    resolved: seq<Resolution>,
    connections: seq<Connection>,
    log: seq<LogEntry>)
  {
    predicate IsConnected() {
      phase.Resending? || phase.Streaming?
    }

    predicate HasEnded() {
      phase.Ended? || phase.Panicked?
    }
  }

  function Init(log: seq<AppendRecord>): State {
    State(0, None, [], None, [], 0, 0, 0, 0, None, false, None, 0, Connecting, [], [], Tagged(log, None))
  }

  function Tagged(records: seq<AppendRecord>, from: Option<Place>): (entries: seq<LogEntry>)
    ensures |entries| == |records| && forall i | 0 <= i < |records| :: entries[i] == LogEntry(records[i], from)
  {
    seq(|records|, i requires 0 <= i < |records| => LogEntry(records[i], from))
  }

  datatype Event =
    // The user.
    | NewSubmission(records: seq<AppendRecord>, matchSeqNum: Option<nat>)
    | NewClose
    | SendersGone
    | Abort
    // The session's task.
    | Connect
    | Resend
    | ResendDone
    | SendStashed
    | Receive
    | ReceiveAck
    | StreamEnd
    | Fail(error: SessionError)
    // The server.
    | Serve(k: nat)
    | OtherAppend(others: seq<AppendRecord>)

  function Current(s: State): Connection
    requires s.connections != []
  {
    s.connections[|s.connections| - 1]
  }

  /** The server appends the next submission of a connection, if its condition holds; else it never serves it. */
  predicate CanServe(s: State, k: nat) {
    && k < |s.connections| && |s.connections[k].starts| < |s.connections[k].sends|
    && var submission := s.connections[k].sends[|s.connections[k].starts|];
       submission.matchSeqNum.None? || submission.matchSeqNum.value == |s.log|
  }

  predicate Enabled(s: State, e: Event) {
    match e
    case NewSubmission(records, _) => !s.HasEnded() && records != []
    case NewClose => !s.HasEnded() && s.closeAt.None?
    case Abort => !s.HasEnded()
    case SendersGone => s.phase.Streaming? && s.queue == [] && s.stashed.None?
    case Connect => s.phase.Connecting?
    case Resend => s.phase.Resending? && s.connections != [] && s.phase.index < |s.inflight|
    case ResendDone => s.phase.Resending? && s.inflight == []
    case SendStashed => s.phase.Streaming? && s.connections != [] && s.stashed.Some?
    case Receive => s.phase.Streaming? && s.stashed.None? && s.queue != []
    case ReceiveAck => s.IsConnected() && s.connections != [] && Current(s).acked < |Current(s).starts|
    case StreamEnd => s.IsConnected()
    case Fail(error) => !s.HasEnded() && !error.SessionClosing? && !error.SessionDropped?
    case Serve(k) => CanServe(s, k)
    case OtherAppend(_) => true
  }

  function Apply(config: Config, s: State, e: Event): State
    requires Enabled(s, e)
  {
    match e
    case NewSubmission(records, matchSeqNum) =>
      s.(queue := s.queue + [Submit(Submission(s.issued, records, matchSeqNum))], issued := s.issued + 1)
    case NewClose => s.(queue := s.queue + [Close], closeAt := Some(s.issued))
    case Abort => RejectHeld(s, SessionDropped)
    case SendersGone => AfterFailure(config, s, SessionDropped)
    case Connect => AfterConnect(s)
    case Resend => AfterResend(s)
    case ResendDone => AfterResendDone(s)
    case SendStashed => AfterBranch(AfterSendStashed(s))
    case Receive => AfterBranch(AfterReceive(s))
    case ReceiveAck => AfterAck(s)
    case StreamEnd =>
      if s.phase.Resending? || s.inflight != [] || s.stashed.Some? then AfterFailure(config, s, StreamClosedEarly)
      else Finish(s)
    case Fail(error) => AfterFailure(config, s, error)
    case Serve(k) => AfterServe(s, k)
    case OtherAppend(records) => s.(log := s.log + Tagged(records, None))
  }

  function SetCurrent(s: State, connection: Connection): State
    requires s.connections != []
  {
    s.(connections := s.connections[|s.connections| - 1 := connection])
  }

  function Send(s: State, submission: Submission): State
    requires s.connections != []
  {
    SetCurrent(s, Current(s).(sends := Current(s).sends + [submission]))
  }

  function AfterConnect(s: State): State {
    s.(connections := s.connections + [Connection(|s.log|, [], [], 0)],
       phase := if s.inflight == [] then Streaming else Resending(0))
  }

  function AfterResend(s: State): State
    requires s.phase.Resending? && s.connections != [] && s.phase.index < |s.inflight|
  {
    Send(s, s.inflight[s.phase.index]).(phase := Resending(s.phase.index + 1))
  }

  /** The loop of `resend` is left, and three assertions are checked. */
  function AfterResendDone(s: State): State
    requires s.phase.Resending?
  {
    if s.phase.index != 0 || s.inflightBytes != 0 then s.(phase := Panicked) else s.(phase := Streaming)
  }

  function AfterSendStashed(s: State): State
    requires s.connections != [] && s.stashed.Some?
  {
    var submission := s.stashed.value;
    Send(s, submission).(
      stashed := None,
      totalRecords := s.totalRecords + |submission.records|,
      inflightBytes := s.inflightBytes + submission.Bytes(),
      inflight := s.inflight + [submission])
  }

  function AfterReceive(s: State): State
    requires s.queue != []
  {
    var rest := s.(queue := s.queue[1..]);
    match s.queue[0]
    case Close => rest.(isClosing := true)
    case Submit(submission) =>
      if s.isClosing then rest.(resolved := s.resolved + [Rejected(submission, SessionClosing)])
      else rest.(stashed := Some(submission))
  }

  /** The check at the end of the loop body of `run_session`. */
  function AfterBranch(s: State): (next: State)
    ensures next.connections == s.connections && next.log == s.log
    ensures next.closeAt == s.closeAt && next.issued == s.issued && next.isClosing == s.isClosing
    ensures next.queue == s.queue || next.queue == []
    ensures next.stashed == s.stashed || next.stashed.None?
  {
    if s.phase.Streaming? && s.isClosing && s.inflight == [] && s.stashed.None? then Finish(s) else s
  }

  /** The loop is left without an error. What is still queued is dropped, and its tickets report that. */
  function Finish(s: State): (next: State)
    ensures next.connections == s.connections && next.log == s.log
    ensures next.closeAt == s.closeAt && next.issued == s.issued && next.isClosing == s.isClosing
    ensures next.queue == s.queue || next.queue == []
    ensures next.stashed == s.stashed || next.stashed.None?
  {
    if s.inflight != [] || s.inflightBytes != 0 || s.stashed.Some? then s.(phase := Panicked)
    else s.(phase := Ended, queue := [], resolved := s.resolved + RejectAll(Queued(s.queue), SessionDropped),
            closeReply := if s.isClosing then Some(Ok(())) else s.closeReply)
  }

  /** The position the server's next acknowledgement ends at. */
  function NextEnd(c: Connection): nat
    requires c.acked < |c.starts|
  {
    c.starts[c.acked] + if c.acked < |c.sends| then |c.sends[c.acked].records| else 0
  }

  function Acknowledged(s: State): State
    requires s.connections != []
  {
    SetCurrent(s, Current(s).(acked := Current(s).acked + 1))
  }

  function AfterAck(s: State): State
    requires s.connections != [] && Current(s).acked < |Current(s).starts|
  {
    AfterProcessed(ProcessAck(Acknowledged(s), Current(s).starts[Current(s).acked], NextEnd(Current(s))))
  }

  /** What follows `process_ack` in the two loops it is called from. */
  function AfterProcessed(s: State): State {
    match s.phase
    case Resending(index) => if index == 0 then s.(phase := Panicked) else s.(phase := Resending(index - 1))
    case Streaming => AfterBranch(s)
    case _ => s
  }

  /** `process_ack` with its assertions: any that fails is a panic. */
  function ProcessAck(s: State, start: nat, end: nat): (next: State)
    ensures next.connections == s.connections && next.log == s.log
    ensures next.closeAt == s.closeAt && next.issued == s.issued && next.isClosing == s.isClosing
    ensures next.queue == s.queue || next.queue == []
    ensures next.stashed == s.stashed || next.stashed.None?
  {
    if s.inflight == [] || end < start || (s.prevAckEnd.Some? && end <= s.prevAckEnd.value)
       || end - start != |s.inflight[0].records| || s.inflightBytes < s.inflight[0].Bytes()
    then s.(phase := Panicked)
    else
      var after := s.(inflight := s.inflight[1..],
                      inflightBytes := s.inflightBytes - s.inflight[0].Bytes(),
                      totalAcked := s.totalAcked + (end - start),
                      prevAckEnd := Some(end),
                      resolved := s.resolved + [Acked(s.inflight[0], start)]);
      if after.inflight == [] && after.totalRecords != after.totalAcked then after.(phase := Panicked) else after
  }

  predicate IsCompliant(policy: AppendOnce.AppendRetryPolicy, inflight: seq<Submission>) {
    forall i | 0 <= i < |inflight| :: policy.IsCompliant(inflight[i].matchSeqNum)
  }

  /** A session that failed is retried on a new connection, or everything it still holds is rejected. */
  function AfterFailure(config: Config, s: State, error: SessionError): (next: State)
    ensures next.connections == s.connections && next.log == s.log
    ensures next.closeAt == s.closeAt && next.issued == s.issued && next.isClosing == s.isClosing
    ensures next.queue == s.queue || next.queue == []
    ensures next.stashed == s.stashed || next.stashed.None?
  {
    var progressed := s.prevTotalAcked < s.totalAcked;
    var retries := if progressed then 0 else s.retries;
    var counted := s.(prevTotalAcked := if progressed then s.totalAcked else s.prevTotalAcked, retries := retries);
    if IsCompliant(config.policy, s.inflight) && error.IsRetryable() && retries < config.maxRetries
    then counted.(phase := Connecting, retries := retries + 1)
    else
      RejectHeld(counted, error).(
        closeReply := if s.isClosing || Close in s.queue then Some(Err(error)) else s.closeReply)
  }

  /** The task ends with everything it holds unanswered: the tickets report the error. */
  function RejectHeld(s: State, error: SessionError): (next: State)
    ensures next.connections == s.connections && next.log == s.log
    ensures next.closeAt == s.closeAt && next.issued == s.issued && next.isClosing == s.isClosing
    ensures next.closeReply == s.closeReply
  {
    s.(phase := Ended, queue := [], stashed := None, inflight := [], inflightBytes := 0,
       resolved := s.resolved + RejectAll(Held(s), error))
  }

  /** Everything the session has not resolved yet. */
  function Held(s: State): seq<Submission> {
    s.inflight + (if s.stashed.Some? then [s.stashed.value] else []) + Queued(s.queue)
  }

  /** The submissions among the commands. */
  function Queued(queue: seq<Command>): seq<Submission> {
    if queue == [] then []
    else Queued(queue[..|queue| - 1]) + if queue[|queue| - 1].Submit? then [queue[|queue| - 1].submission] else []
  }

  function RejectAll(submissions: seq<Submission>, error: SessionError): (r: seq<Resolution>)
    ensures |r| == |submissions| && forall i | 0 <= i < |r| :: r[i] == Rejected(submissions[i], error)
  {
    seq(|submissions|, i requires 0 <= i < |submissions| => Rejected(submissions[i], error))
  }

  function AfterServe(s: State, k: nat): State
    requires CanServe(s, k)
  {
    var connection := s.connections[k];
    var j := |connection.starts|;
    s.(connections := s.connections[k := connection.(starts := connection.starts + [|s.log|])],
       log := s.log + Tagged(connection.sends[j].records, Some(Place(k, j))))
  }

  ghost predicate IsRun(config: Config, first: seq<AppendRecord>, states: seq<State>, events: seq<Event>) {
    && |states| == |events| + 1 && states[0] == Init(first)
    && forall i | 0 <= i < |events| ::
      Enabled(states[i], events[i]) && states[i + 1] == Apply(config, states[i], events[i])
  }
}
