/**
  That a session gets on with its work, and the one case in which closing it does not (s2-sdk/src/session/append.rs:
  482-660).
 */
module SessionProgress {
  import opened Wrappers
  import opened Records
  import opened SessionProtocol
  import opened SessionAcks
  import opened SessionConservation
  import opened SessionOrder
  import opened SessionClose

  // ---------- Every step counts ----------

  /** What is left to do before the work of the user is done: commands pass through the stash and the flight. */
  function Work(s: State): nat {
    3 * |s.queue| + (if s.stashed.Some? then 2 else 0) + |s.inflight|
  }

  /** Reconnections left until the retries are exhausted, if nothing more is acknowledged. */
  function Attempts(config: Config, s: State): nat {
    if s.prevTotalAcked < s.totalAcked then config.maxRetries
    else if s.retries < config.maxRetries then config.maxRetries - s.retries else 0
  }

  /** Steps of the task until everything in flight was sent again. */
  function Turns(s: State): nat {
    match s.phase
    case Connecting => 2 * |s.inflight| + 2
    case Resending(index) => if index < |s.inflight| then 2 * (|s.inflight| - index) + 1 else 1
    case _ => 0
  }

  /** Sends of the first `n` connections that the server has not served. */
  function Unserved(connections: seq<Connection>, n: nat): nat
    requires n <= |connections|
  {
    if n == 0 then 0
    else
      var c := connections[n - 1];
      Unserved(connections, n - 1) + if |c.starts| < |c.sends| then |c.sends| - |c.starts| else 0
  }

  /** Four numbers in lexicographic order. */
  datatype Rank = Rank(alive: nat, work: nat, attempts: nat, turns: nat) {
    predicate Below(other: Rank) {
      || alive < other.alive
      || (alive == other.alive && work < other.work)
      || (alive == other.alive && work == other.work && attempts < other.attempts)
      || (alive == other.alive && work == other.work && attempts == other.attempts && turns < other.turns)
    }
  }

  function RankOf(config: Config, s: State): Rank {
    Rank(
      if s.HasEnded() then 0 else 1, Work(s), Attempts(config, s),
      Turns(s) + Unserved(s.connections, |s.connections|))
  }

  predicate FromOutside(e: Event) {
    e.NewSubmission? || e.NewClose? || e.OtherAppend?
  }

  lemma {:induction false} UnservedOfPrefix(a: seq<Connection>, b: seq<Connection>, n: nat)
    requires n <= |a| && n <= |b| && forall k | 0 <= k < n :: a[k] == b[k]
    ensures Unserved(a, n) == Unserved(b, n)
  {
    if n > 0 {
      UnservedOfPrefix(a, b, n - 1);
    }
  }

  lemma {:induction false} UnservedUpdate(a: seq<Connection>, k: nat, c: Connection, n: nat)
    requires k < n <= |a| && |a[k].starts| <= |a[k].sends| && |c.starts| <= |c.sends|
    ensures Unserved(a[k := c], n) ==
      Unserved(a, n) - (|a[k].sends| - |a[k].starts|) + (|c.sends| - |c.starts|)
  {
    if k == n - 1 {
      UnservedOfPrefix(a, a[k := c], n - 1);
    } else {
      UnservedUpdate(a, k, c, n - 1);
    }
  }

  lemma ConnectCounts(config: Config, s: State)
    requires Enabled(s, Connect)
    ensures RankOf(config, AfterConnect(s)).Below(RankOf(config, s))
  {
    UnservedOfPrefix(s.connections, AfterConnect(s).connections, |s.connections|);
  }

  lemma ResendCounts(config: Config, s: State)
    requires Sound(s) && Enabled(s, Resend)
    ensures RankOf(config, AfterResend(s)).Below(RankOf(config, s))
  {
    var last := |s.connections| - 1;
    assert ConnectionOk(s.log, s.connections[last], last);
    UnservedUpdate(s.connections, last, AfterResend(s).connections[last], |s.connections|);
  }

  lemma ServeCounts(config: Config, s: State, k: nat)
    requires Enabled(s, Serve(k))
    ensures RankOf(config, AfterServe(s, k)).Below(RankOf(config, s))
  {
    UnservedUpdate(s.connections, k, AfterServe(s, k).connections[k], |s.connections|);
  }

  lemma EndCounts(config: Config, s: State, e: Event)
    requires Enabled(s, e) && (e.SendersGone? || e.Abort? || e.Fail? || e.StreamEnd?) && !s.HasEnded()
    ensures RankOf(config, Apply(config, s, e)).Below(RankOf(config, s))
  {}

  lemma BranchLeavesLess(config: Config, s: State)
    ensures Work(AfterBranch(s)) <= Work(s) && (AfterBranch(s).HasEnded() || AfterBranch(s) == s)
  {}

  lemma WorkCounts(config: Config, s: State, e: Event)
    requires Sound(s) && Enabled(s, e) && (e.SendStashed? || e.Receive? || e.ReceiveAck?)
    ensures RankOf(config, Apply(config, s, e)).Below(RankOf(config, s))
  {
    if e.SendStashed? {
      BranchLeavesLess(config, AfterSendStashed(s));
    } else if e.Receive? {
      BranchLeavesLess(config, AfterReceive(s));
    } else {
      AckIsProcessed(s);
      BranchLeavesLess(config, Popped(s));
    }
  }

  /** Whatever fails, every step of the task or the server brings a session closer to its end. */
  lemma EveryStepCounts(config: Config, s: State, e: Event)
    requires Sound(s) && Enabled(s, e) && !FromOutside(e)
    ensures RankOf(config, Apply(config, s, e)).Below(RankOf(config, s))
  {
    match e
    case Connect => ConnectCounts(config, s);
    case Resend => ResendCounts(config, s);
    case ResendDone =>
    case Serve(k) => ServeCounts(config, s, k);
    case SendStashed => WorkCounts(config, s, e);
    case Receive => WorkCounts(config, s, e);
    case ReceiveAck => WorkCounts(config, s, e);
    case _ => EndCounts(config, s, e);
  }

  // ---------- Some step is possible ----------

  /** A step of the task that is no failure, or of the server on the current connection. */
  predicate Advances(s: State, e: Event) {
    match e
    case Connect | Resend | ResendDone | SendStashed | Receive | ReceiveAck => true
    case Serve(k) => k + 1 == |s.connections|
    case _ => false
  }

  ghost predicate CanAdvance(s: State) {
    exists e | Advances(s, e) :: Enabled(s, e)
  }

  /** The server refuses what it received next on the current connection. */
  predicate IsRefused(s: State) {
    && s.IsConnected() && s.connections != [] && |Current(s).starts| < |Current(s).sends|
    && Current(s).acked == |Current(s).starts| && !CanServe(s, |s.connections| - 1)
  }

  predicate IsIdle(s: State) {
    s.phase.Streaming? && s.inflight == [] && s.stashed.None? && s.queue == []
  }

  lemma ConnectedAdvances(s: State) returns (e: Event)
    requires Sound(s) && s.IsConnected() && SentAgain(s) > 0 && !IsRefused(s)
    ensures Advances(s, e) && Enabled(s, e)
  {
    var last := |s.connections| - 1;
    assert ConnectionOk(s.log, s.connections[last], last);
    e := if Current(s).acked < |Current(s).starts| then ReceiveAck else Serve(last);
  }

  lemma SomethingAdvances(s: State) returns (e: Event)
    requires Sound(s) && !s.HasEnded() && !IsRefused(s) && !IsIdle(s)
    ensures Advances(s, e) && Enabled(s, e)
  {
    match s.phase
    case Connecting => e := Connect;
    case Resending(index) =>
      if index < |s.inflight| {
        e := Resend;
      } else if s.inflight == [] {
        e := ResendDone;
      } else {
        e := ConnectedAdvances(s);
      }
    case Streaming =>
      if s.stashed.Some? {
        e := SendStashed;
      } else if s.queue != [] {
        e := Receive;
      } else {
        e := ConnectedAdvances(s);
      }
  }

  /** A live session that cannot get on has nothing to do, or meets a server that refuses what it was sent. */
  lemma StuckIff(s: State)
    requires Sound(s) && !s.HasEnded()
    ensures !CanAdvance(s) && !IsRefused(s) <==> IsIdle(s)
  {
    if !IsIdle(s) && !IsRefused(s) {
      var e := SomethingAdvances(s);
    }
    if IsIdle(s) {
      var last := |s.connections| - 1;
      assert ConnectionOk(s.log, s.connections[last], last);
    }
  }

  // ---------- Closing ----------

  /** As long as the session lives a close is remembered. */
  ghost predicate CloseKept(s: State) {
    s.closeAt.Some? && !s.HasEnded() ==> s.isClosing || Close in s.queue
  }

  lemma CloseKeptStep(config: Config, s: State, e: Event)
    requires CloseKept(s) && Enabled(s, e)
    ensures CloseKept(Apply(config, s, e))
  {
    if !e.NewSubmission? && !e.NewClose? && !e.Receive? {
      RestLeavesQueue(config, s, e);
    } else if e.Receive? && Close in s.queue {
      assert s.queue[0] == Close || Close in s.queue[1..];
    }
  }

  lemma {:induction false} RunKeepsClose(
    config: Config, first: seq<AppendRecord>, states: seq<State>, events: seq<Event>, i: nat)
    requires IsRun(config, first, states, events) && i < |states|
    ensures CloseKept(states[i])
  {
    if i > 0 {
      RunKeepsClose(config, first, states, events, i - 1);
      CloseKeptStep(config, states[i - 1], events[i - 1]);
    }
  }

  /** The close was received, and there is nothing left to do, but the session lives. */
  predicate IsSpent(s: State) {
    !s.HasEnded() && s.isClosing && s.inflight == [] && s.stashed.None? && s.queue == []
  }

  /** The last acknowledgement of a session that is being closed arrives while it is sending again. */
  predicate LastAckWhileResending(s: State, e: Event) {
    e.ReceiveAck? && s.phase.Resending? && |s.inflight| == 1 && s.isClosing && s.stashed.None? && s.queue == []
  }

  lemma SpentByAck(s: State)
    requires Sound(s) && Enabled(s, ReceiveAck) && !IsSpent(s)
    ensures IsSpent(AfterAck(s)) <==> LastAckWhileResending(s, ReceiveAck)
  {
    AckIsProcessed(s);
  }

  lemma SpentByBranch(s: State)
    requires s.phase.Streaming?
    ensures !IsSpent(AfterBranch(s))
  {}

  lemma SpentByFailure(config: Config, s: State, error: SessionError)
    ensures IsSpent(AfterFailure(config, s, error)) ==> s.HasEnded() || IsSpent(s)
  {}

  /** That, and nothing else, makes a session spent. */
  lemma SpentIff(config: Config, s: State, e: Event)
    requires Sound(s) && Enabled(s, e) && !IsSpent(s)
    ensures IsSpent(Apply(config, s, e)) <==> LastAckWhileResending(s, e)
  {
    match e
    case ReceiveAck => SpentByAck(s);
    case SendStashed => SpentByBranch(AfterSendStashed(s));
    case Receive => SpentByBranch(AfterReceive(s));
    case Fail(error) => SpentByFailure(config, s, error);
    case _ =>
  }

  /**
    A session that is being closed and lives cannot get on, though the server refuses nothing, if and only if it is
    spent and has finished connecting and sending again.
   */
  lemma CloseHangsIff(config: Config, first: seq<AppendRecord>, states: seq<State>, events: seq<Event>, i: nat)
    requires IsRun(config, first, states, events) && i < |states|
    requires states[i].closeAt.Some? && !states[i].HasEnded()
    ensures !CanAdvance(states[i]) && !IsRefused(states[i]) <==> IsSpent(states[i]) && states[i].phase.Streaming?
  {
    RunIsSound(config, first, states, events, i);
    RunKeepsClose(config, first, states, events, i);
    StuckIff(states[i]);
  }

  /** From then on only the server, the network or the user can end it. */
  lemma HangingStays(config: Config, s: State, e: Event)
    requires Sound(s) && IsSpent(s) && s.phase.Streaming? && Enabled(s, e)
    requires !e.StreamEnd? && !e.Fail? && !e.Abort? && !e.SendersGone? && !e.NewSubmission? && !e.NewClose?
    ensures IsSpent(Apply(config, s, e)) && Apply(config, s, e).phase.Streaming?
  {}

  /** The caller of `close` is answered when the session ends. */
  lemma UnansweredStep(config: Config, s: State, e: Event)
    requires Enabled(s, e) && (!s.HasEnded() ==> s.closeReply.None?) && !Apply(config, s, e).HasEnded()
    ensures Apply(config, s, e).closeReply.None?
  {
    match e
    case SendStashed => BranchLeavesLess(config, AfterSendStashed(s));
    case Receive => BranchLeavesLess(config, AfterReceive(s));
    case ReceiveAck => AckLeavesUnanswered(s);
    case _ =>
  }

  lemma AckLeavesUnanswered(s: State)
    requires Enabled(s, ReceiveAck) && s.closeReply.None? && !AfterAck(s).HasEnded()
    ensures AfterAck(s).closeReply.None?
  {}

  lemma {:induction false} RunUnanswered(
    config: Config, first: seq<AppendRecord>, states: seq<State>, events: seq<Event>, i: nat)
    requires IsRun(config, first, states, events) && i < |states|
    ensures !states[i].HasEnded() ==> states[i].closeReply.None?
  {
    if i > 0 && !states[i].HasEnded() {
      RunUnanswered(config, first, states, events, i - 1);
      UnansweredStep(config, states[i - 1], events[i - 1]);
    }
  }

  /** And all that the caller of `close` waits for has been done: everything submitted before is acknowledged. */
  lemma SpentIsDone(
    config: Config, first: seq<AppendRecord>, states: seq<State>, events: seq<Event>, i: nat, id: nat)
    returns (r: nat)
    requires IsRun(config, first, states, events) && i < |states| && IsSpent(states[i])
    ensures states[i].closeReply.None? && states[i].closeAt.Some?
    ensures id < states[i].closeAt.value ==>
      && r < |states[i].resolved| && states[i].resolved[r].submission.id == id
      && states[i].resolved[r].Acked? && AckTrue(states[i].log, states[i].resolved[r])
  {
    r := 0;
    RunCloses(config, first, states, events, i);
    RunUnanswered(config, first, states, events, i);
    if id < states[i].closeAt.value {
      RunConserves(config, first, states, events, i, id);
      r := CountedIsResolved(states[i].resolved, id, |states[i].resolved|);
      assert IsProper(states[i].closeAt, states[i].resolved[r]);
      AcksAreTrue(config, first, states, events, i, r);
    }
  }

  // ---------- A close that hangs ----------

  function OneOf(record: AppendRecord): Submission {
    Submission(0, [record], Some(0))
  }

  /** One record is sent, the session is closed, and the connection fails before the server has served it. */
  function HangingEvent(record: AppendRecord, k: nat): Event {
    if k < 6 then [NewSubmission([record], Some(0)), NewClose, Connect, Receive, SendStashed, Receive][k]
    else if k < 11 then [Fail(ServerDisconnected), Connect, Resend, Serve(1), ReceiveAck][k - 6]
    else ResendDone
  }

  /** Before the connection fails. */
  function FirstState(record: AppendRecord, k: nat): State {
    var one := OneOf(record);
    var s := Init([]);
    if k == 0 then s
    else if k == 1 then s.(issued := 1, queue := [Submit(one)])
    else
      var closed := s.(issued := 1, closeAt := Some(1), queue := [Submit(one), Close]);
      if k == 2 then closed
      else
        var connected := closed.(phase := Streaming, connections := [Connection(0, [], [], 0)]);
        if k == 3 then connected
        else if k == 4 then connected.(queue := [Close], stashed := Some(one))
        else connected.(
          queue := if k == 5 then [Close] else [], isClosing := k > 5, inflight := [one], inflightBytes := one.Bytes(),
          totalRecords := 1, connections := [Connection(0, [one], [], 0)])
  }

  /** After the connection failed. */
  function SecondState(record: AppendRecord, k: nat): State {
    var one := OneOf(record);
    var failed := FirstState(record, 6).(phase := Connecting, retries := 1);
    if k <= 7 then failed
    else
      var lost := Connection(0, [one], [], 0);
      if k == 8 then failed.(phase := Resending(0), connections := [lost, Connection(0, [], [], 0)])
      else if k == 9 then failed.(phase := Resending(1), connections := [lost, Connection(0, [one], [], 0)])
      else
        var served := failed.(phase := Resending(1), connections := [lost, Connection(0, [one], [0], 0)],
                              log := [LogEntry(record, Some(Place(1, 0)))]);
        if k == 10 then served
        else served.(
          phase := if k == 11 then Resending(0) else Streaming, connections := [lost, Connection(0, [one], [0], 1)],
          inflight := [], inflightBytes := 0, totalAcked := 1, prevAckEnd := Some(1), resolved := [Acked(one, 0)])
  }

  function HangingState(record: AppendRecord, k: nat): State {
    if k <= 6 then FirstState(record, k) else SecondState(record, k)
  }

  ghost predicate Follows(config: Config, record: AppendRecord, k: nat) {
    && Enabled(HangingState(record, k), HangingEvent(record, k))
    && HangingState(record, k + 1) == Apply(config, HangingState(record, k), HangingEvent(record, k))
  }

  lemma FirstFollows(config: Config, record: AppendRecord, k: nat)
    requires k < 6
    ensures Follows(config, record, k)
  {
    var one := OneOf(record);
    assert [Submit(one), Close][1..] == [Close] && [Close][1..] == [];
  }

  lemma FailureFollows(config: Config, record: AppendRecord)
    requires config.maxRetries > 0
    ensures Follows(config, record, 6)
  {}

  lemma ReconnectFollows(config: Config, record: AppendRecord)
    ensures Follows(config, record, 7)
  {
    assert AfterConnect(HangingState(record, 7)).connections == HangingState(record, 8).connections;
  }

  lemma ResendFollows(config: Config, record: AppendRecord)
    ensures Follows(config, record, 8)
  {
    assert AfterResend(HangingState(record, 8)).connections[1].sends == [OneOf(record)];
    assert AfterResend(HangingState(record, 8)).connections == HangingState(record, 9).connections;
  }

  lemma ServeFollows(config: Config, record: AppendRecord)
    ensures Follows(config, record, 9)
  {
    assert AfterServe(HangingState(record, 9), 1).connections[1].starts == [0];
    assert AfterServe(HangingState(record, 9), 1).connections == HangingState(record, 10).connections;
    assert AfterServe(HangingState(record, 9), 1).log == HangingState(record, 10).log;
  }

  lemma AckFollows(config: Config, record: AppendRecord, k: nat)
    requires 10 <= k < 12
    ensures Follows(config, record, k)
  {
    var one := OneOf(record);
    assert [one][1..] == [];
  }

  /** Whatever the policy, if there is a retry at all some run leaves the session hanging, its only record acked. */
  lemma CloseMayHang(config: Config, record: AppendRecord) returns (states: seq<State>, events: seq<Event>)
    requires config.maxRetries > 0
    ensures IsRun(config, [], states, events)
    ensures var last := states[|events|];
            && last.closeAt == Some(1) && last.closeReply.None? && last.resolved == [Acked(OneOf(record), 0)]
            && IsSpent(last) && last.phase.Streaming? && !CanAdvance(last) && !IsRefused(last)
  {
    states := seq(13, i requires 0 <= i => HangingState(record, i));
    events := seq(12, i requires 0 <= i => HangingEvent(record, i));
    forall i | 0 <= i < 12 ensures Follows(config, record, i) {
      if i < 6 {
        FirstFollows(config, record, i);
      } else if i == 6 {
        FailureFollows(config, record);
      } else if i == 7 {
        ReconnectFollows(config, record);
      } else if i == 8 {
        ResendFollows(config, record);
      } else if i == 9 {
        ServeFollows(config, record);
      } else {
        AckFollows(config, record, i);
      }
    }
    forall i | 0 <= i < 12
      ensures Enabled(states[i], events[i]) && states[i + 1] == Apply(config, states[i], events[i])
    {
      assert Follows(config, record, i);
    }
    assert states[0] == Init([]);
    CloseHangsIff(config, [], states, events, 12);
  }
}
