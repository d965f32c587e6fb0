/**
  What an acknowledged submission may rely on: its records are where the ticket says, in the order of submission, and
  not twice in the log when duplicates are excluded.
 */
module SessionOrder {
  import opened Wrappers
  import opened Records
  import opened SessionProtocol
  import opened SessionAcks
  import opened SessionConservation

  // ---------- What a step resolves ----------

  /** Resolutions are only added, and from the n-th on they are rejections. */
  ghost predicate Extends(before: seq<Resolution>, after: seq<Resolution>, n: nat) {
    && |before| <= n <= |after| && after[..|before|] == before
    && forall i | n <= i < |after| :: after[i].Rejected?
  }

  lemma BranchExtends(s: State)
    ensures Extends(s.resolved, AfterBranch(s).resolved, |s.resolved|) && AfterBranch(s).prevAckEnd == s.prevAckEnd
  {}

  lemma RejectionExtends(resolved: seq<Resolution>, held: seq<Submission>, error: SessionError)
    ensures Extends(resolved, resolved + RejectAll(held, error), |resolved|)
  {}

  lemma FailureExtends(config: Config, s: State, error: SessionError)
    ensures Extends(s.resolved, AfterFailure(config, s, error).resolved, |s.resolved|)
    ensures AfterFailure(config, s, error).prevAckEnd == s.prevAckEnd
  {
    RejectionExtends(s.resolved, Held(s), error);
  }

  lemma OthersReject(config: Config, s: State, e: Event)
    requires Enabled(s, e) && !e.ReceiveAck?
    ensures Extends(s.resolved, Apply(config, s, e).resolved, |s.resolved|)
    ensures Apply(config, s, e).prevAckEnd == s.prevAckEnd
  {
    if e.SendStashed? {
      BranchExtends(AfterSendStashed(s));
    } else if e.Receive? {
      BranchExtends(AfterReceive(s));
    } else if e.SendersGone? {
      FailureExtends(config, s, SessionDropped);
    } else if e.Abort? {
      RejectionExtends(s.resolved, Held(s), SessionDropped);
    } else if e.Fail? {
      FailureExtends(config, s, e.error);
    } else if e.StreamEnd? {
      FailureExtends(config, s, StreamClosedEarly);
    }
  }

  lemma ExtendsByOne(before: seq<Resolution>, one: Resolution, after: seq<Resolution>)
    requires Extends(before + [one], after, |before| + 1)
    ensures Extends(before, after, |before| + 1) && after[|before|] == one
  {
    assert after[..|before| + 1][|before|] == one;
    assert after[..|before|] == after[..|before| + 1][..|before|] == before;
  }

  lemma PoppedResolves(s: State)
    requires s.connections != [] && Current(s).acked < |Current(s).starts| && s.inflight != []
    requires s.inflight[0].Bytes() <= s.inflightBytes
    ensures Popped(s).resolved == s.resolved + [Acked(s.inflight[0], Current(s).starts[Current(s).acked])]
    ensures Popped(s).prevAckEnd == Some(Current(s).starts[Current(s).acked] + |s.inflight[0].records|)
  {}

  lemma AckResolves(s: State)
    requires Sound(s) && Enabled(s, ReceiveAck)
    ensures s.inflight != []
    ensures var next, n := AfterAck(s), |s.resolved|;
            && Extends(s.resolved, next.resolved, n + 1)
            && next.resolved[n] == Acked(s.inflight[0], Current(s).starts[Current(s).acked])
            && next.prevAckEnd == Some(Current(s).starts[Current(s).acked] + |s.inflight[0].records|)
  {
    AckIsProcessed(s);
    PoppedResolves(s);
    BranchExtends(Popped(s));
    ExtendsByOne(s.resolved, Acked(s.inflight[0], Current(s).starts[Current(s).acked]), AfterAck(s).resolved);
  }

  // ---------- Acknowledgements are true ----------

  /** An acknowledged submission's records stand in the log, written by the session, from the position on. */
  ghost predicate AckTrue(log: seq<LogEntry>, r: Resolution) {
    r.Acked? ==>
      && r.start + |r.submission.records| <= |log|
      && forall i | 0 <= i < |r.submission.records| :: IsOwn(log[r.start + i], r.submission.records[i])
  }

  predicate IsOwn(entry: LogEntry, record: AppendRecord) {
    entry.record == record && entry.from.Some?
  }

  ghost predicate AllTrue(s: State) {
    forall i | 0 <= i < |s.resolved| :: AckTrue(s.log, s.resolved[i])
  }

  lemma LogOnlyGrows(config: Config, s: State, e: Event)
    requires Enabled(s, e)
    ensures |s.log| <= |Apply(config, s, e).log| && Apply(config, s, e).log[..|s.log|] == s.log
  {
    if !e.Serve? && !e.OtherAppend? {
      ConnectionsAre(config, s, e);
    }
  }

  lemma AckTrueStays(log: seq<LogEntry>, more: seq<LogEntry>, r: Resolution)
    requires AckTrue(log, r) && |log| <= |more| && more[..|log|] == log
    ensures AckTrue(more, r)
  {
    if r.Acked? {
      forall i | 0 <= i < |r.submission.records| ensures IsOwn(more[r.start + i], r.submission.records[i]) {
        assert more[..|log|][r.start + i] == log[r.start + i];
      }
    }
  }

  lemma NewAckIsTrue(s: State)
    requires Sound(s) && Enabled(s, ReceiveAck)
    ensures s.inflight != [] && AckTrue(s.log, Acked(s.inflight[0], Current(s).starts[Current(s).acked]))
  {
    AckIsExpected(s);
    var c := Current(s);
    assert ConnectionOk(s.log, c, |s.connections| - 1);
    assert Served(s.log, c, |s.connections| - 1, c.acked);
  }

  lemma AllTrueStep(config: Config, s: State, e: Event)
    requires Sound(s) && AllTrue(s) && Enabled(s, e)
    ensures AllTrue(Apply(config, s, e))
  {
    var next := Apply(config, s, e);
    LogOnlyGrows(config, s, e);
    if e.ReceiveAck? {
      AckResolves(s);
      NewAckIsTrue(s);
      AckTrueStays(s.log, next.log, next.resolved[|s.resolved|]);
    } else {
      OthersReject(config, s, e);
    }
    forall i | 0 <= i < |next.resolved| ensures AckTrue(next.log, next.resolved[i]) {
      if i < |s.resolved| {
        assert next.resolved[..|s.resolved|][i] == s.resolved[i];
        AckTrueStays(s.log, next.log, s.resolved[i]);
      }
    }
  }

  // ---------- Acknowledgements come in order ----------

  function AckEnd(r: Resolution): nat
    requires r.Acked?
  {
    r.start + |r.submission.records|
  }

  /** Later acknowledgements are for positions further down the log, none beyond the last end. */
  ghost predicate Ordered(resolved: seq<Resolution>, last: Option<nat>) {
    && (forall i, j | 0 <= i < j < |resolved| && resolved[i].Acked? && resolved[j].Acked? ::
          AckEnd(resolved[i]) <= resolved[j].start)
    && (forall i | 0 <= i < |resolved| && resolved[i].Acked? :: last.Some? && AckEnd(resolved[i]) <= last.value)
  }

  lemma OrderedExtends(before: seq<Resolution>, after: seq<Resolution>, last: Option<nat>)
    requires Ordered(before, last) && Extends(before, after, |before|)
    ensures Ordered(after, last)
  {
    forall i | 0 <= i < |before| ensures after[i] == before[i] {
      assert after[..|before|][i] == before[i];
    }
  }

  lemma OrderedAck(before: seq<Resolution>, after: seq<Resolution>, last: Option<nat>)
    requires Ordered(before, last) && Extends(before, after, |before| + 1) && after[|before|].Acked?
    requires last.Some? ==> last.value <= after[|before|].start
    ensures Ordered(after, Some(AckEnd(after[|before|])))
  {
    forall i | 0 <= i < |before| ensures after[i] == before[i] {
      assert after[..|before|][i] == before[i];
    }
  }

  lemma OrderedStep(config: Config, s: State, e: Event)
    requires Sound(s) && Ordered(s.resolved, s.prevAckEnd) && Enabled(s, e)
    ensures Ordered(Apply(config, s, e).resolved, Apply(config, s, e).prevAckEnd)
  {
    if e.ReceiveAck? {
      AckResolves(s);
      AckIsExpected(s);
      OrderedAck(s.resolved, AfterAck(s).resolved, s.prevAckEnd);
    } else {
      OthersReject(config, s, e);
      OrderedExtends(s.resolved, Apply(config, s, e).resolved, s.prevAckEnd);
    }
  }

  // ---------- Submissions keep their order ----------

  /** What the session holds is in the order of submission. */
  ghost predicate Increasing(submissions: seq<Submission>, bound: nat) {
    && (forall i, j | 0 <= i < j < |submissions| :: submissions[i].id < submissions[j].id)
    && (forall i | 0 <= i < |submissions| :: submissions[i].id < bound)
  }

  lemma {:induction false} QueuedTail(queue: seq<Command>)
    requires queue != []
    ensures Queued(queue) == (if queue[0].Submit? then [queue[0].submission] else []) + Queued(queue[1..])
  {
    var n := |queue| - 1;
    if n > 0 {
      QueuedTail(queue[..n]);
      assert queue[..n][1..] == queue[1..][..n - 1];
    }
  }

  lemma QueuedPush(queue: seq<Command>, command: Command)
    ensures Queued(queue + [command]) == Queued(queue) + if command.Submit? then [command.submission] else []
  {
    assert (queue + [command])[..|queue|] == queue;
  }

  /** The place of the submission that receiving a command takes out of what the session holds, if there is one. */
  function Refused(s: State): nat
    requires s.queue != []
  {
    if s.queue[0].Submit? && s.isClosing then |s.inflight| else |Held(s)|
  }

  function Without(submissions: seq<Submission>, i: nat): seq<Submission> {
    if i < |submissions| then submissions[..i] + submissions[i + 1..] else submissions
  }

  lemma BranchHolds(s: State)
    ensures Held(AfterBranch(s)) == Held(s) || Held(AfterBranch(s)) == []
  {}

  lemma ReceiveHolds(s: State)
    requires Enabled(s, Receive)
    ensures Held(AfterReceive(s)) == Without(Held(s), Refused(s))
  {
    QueuedTail(s.queue);
  }

  lemma SendStashedHolds(s: State)
    requires Enabled(s, SendStashed)
    ensures Held(AfterSendStashed(s)) == Held(s)
  {}

  lemma PoppedHolds(s: State)
    requires s.connections != [] && Current(s).acked < |Current(s).starts| && s.inflight != []
    requires s.inflight[0].Bytes() <= s.inflightBytes
    ensures Held(Popped(s)) == Held(s)[1..] == Without(Held(s), 0)
  {}

  lemma AckHolds(s: State)
    requires Sound(s) && Enabled(s, ReceiveAck)
    ensures s.inflight != [] && Held(s) != [] && Held(s)[0] == s.inflight[0]
    ensures var held := Held(AfterAck(s)); held == Without(Held(s), 0) || held == []
    ensures AfterAck(s).issued == s.issued
  {
    AckIsProcessed(s);
    PoppedHolds(s);
    BranchHolds(Popped(s));
    if s.phase.Resending? {
      SameHeld(Popped(s), AfterAck(s));
    }
  }

  lemma SameHeld(s: State, next: State)
    requires next.inflight == s.inflight && next.stashed == s.stashed && next.queue == s.queue
    ensures Held(next) == Held(s)
  {}

  lemma FailureHolds(config: Config, s: State, error: SessionError)
    ensures var held := Held(AfterFailure(config, s, error)); held == Held(s) || held == []
  {}

  lemma SubmitHolds(config: Config, s: State, e: Event)
    requires Enabled(s, e) && (e.NewSubmission? || e.NewClose?)
    ensures Held(Apply(config, s, e)) ==
      Held(s) + if e.NewSubmission? then [Submission(s.issued, e.records, e.matchSeqNum)] else []
  {
    QueuedPush(s.queue, if e.NewSubmission? then Submit(Submission(s.issued, e.records, e.matchSeqNum)) else Close);
  }

  lemma BranchesHold(s: State, e: Event) returns (i: nat)
    requires Enabled(s, e) && (e.SendStashed? || e.Receive?)
    ensures var after := AfterBranch(if e.SendStashed? then AfterSendStashed(s) else AfterReceive(s));
            Held(after) == Without(Held(s), i) || Held(after) == []
  {
    if e.SendStashed? {
      i := |Held(s)|;
      SendStashedHolds(s);
      BranchHolds(AfterSendStashed(s));
    } else {
      i := Refused(s);
      ReceiveHolds(s);
      BranchHolds(AfterReceive(s));
    }
  }

  lemma RestHolds(config: Config, s: State, e: Event)
    requires Sound(s) && Enabled(s, e)
    requires !e.NewSubmission? && !e.NewClose? && !e.SendStashed? && !e.Receive? && !e.ReceiveAck?
    ensures var held := Held(Apply(config, s, e)); held == Held(s) || held == []
  {
    if e.Abort? {
    } else if e.SendersGone? {
      FailureHolds(config, s, SessionDropped);
    } else if e.StreamEnd? {
      FailureHolds(config, s, StreamClosedEarly);
    } else if e.Fail? {
      FailureHolds(config, s, e.error);
    } else {
      SameHeld(s, Apply(config, s, e));
    }
  }

  /** A step of the task holds on to everything but the i-th submission, in order, or lets go of everything. */
  lemma TaskHolds(config: Config, s: State, e: Event) returns (i: nat)
    requires Sound(s) && Enabled(s, e) && !e.NewSubmission? && !e.NewClose?
    ensures var held := Held(Apply(config, s, e)); held == Without(Held(s), i) || held == []
    ensures Apply(config, s, e).issued == s.issued
  {
    if e.SendStashed? || e.Receive? {
      i := BranchesHold(s, e);
    } else if e.ReceiveAck? {
      i := 0;
      AckHolds(s);
    } else {
      i := |Held(s)|;
      RestHolds(config, s, e);
    }
    TaskIssuesNothing(config, s, e);
  }

  ghost predicate InLine(s: State) {
    Increasing(Held(s), s.issued) && Behind(s.resolved, Held(s), s.issued)
  }

  /** What was acknowledged came before everything still held. */
  ghost predicate Behind(resolved: seq<Resolution>, held: seq<Submission>, bound: nat) {
    && (forall i, j | 0 <= i < |resolved| && resolved[i].Acked? && 0 <= j < |held| ::
          resolved[i].submission.id < held[j].id)
    && (forall i | 0 <= i < |resolved| && resolved[i].Acked? :: resolved[i].submission.id < bound)
    && (forall i, j | 0 <= i < j < |resolved| && resolved[i].Acked? && resolved[j].Acked? ::
          resolved[i].submission.id < resolved[j].submission.id)
  }

  lemma InLineSubmit(config: Config, s: State, e: Event)
    requires InLine(s) && Enabled(s, e) && (e.NewSubmission? || e.NewClose?)
    ensures InLine(Apply(config, s, e))
  {
    SubmitHolds(config, s, e);
  }

  lemma WithoutAt(held: seq<Submission>, i: nat, j: nat)
    requires j < |Without(held, i)|
    requires i < |held|
    ensures Without(held, i)[j] == held[if j < i then j else j + 1]
  {}

  lemma WithoutIncreases(held: seq<Submission>, i: nat, bound: nat)
    requires Increasing(held, bound)
    ensures Increasing(Without(held, i), bound)
  {
    if i < |held| {
      forall j | 0 <= j < |Without(held, i)| ensures Without(held, i)[j] == held[if j < i then j else j + 1] {
        WithoutAt(held, i, j);
      }
    }
  }

  lemma WithoutStaysAhead(held: seq<Submission>, i: nat, resolved: seq<Resolution>, bound: nat)
    requires Behind(resolved, held, bound)
    ensures Behind(resolved, Without(held, i), bound)
  {
    if i < |held| {
      forall j | 0 <= j < |Without(held, i)| ensures Without(held, i)[j] == held[if j < i then j else j + 1] {
        WithoutAt(held, i, j);
      }
    }
  }

  lemma ExtendsKeeps(before: seq<Resolution>, after: seq<Resolution>, held: seq<Submission>, bound: nat)
    requires Behind(before, held, bound) && Extends(before, after, |before|)
    ensures Behind(after, held, bound)
  {
    forall i | 0 <= i < |before| ensures after[i] == before[i] {
      assert after[..|before|][i] == before[i];
    }
  }

  lemma AckKeeps(before: seq<Resolution>, after: seq<Resolution>, held: seq<Submission>, start: nat, bound: nat)
    requires held != [] && Increasing(held, bound) && Behind(before, held, bound)
    requires Extends(before, after, |before| + 1) && after[|before|] == Acked(held[0], start)
    ensures Behind(after, held[1..], bound)
  {
    forall i | 0 <= i < |before| ensures after[i] == before[i] {
      assert after[..|before|][i] == before[i];
    }
  }

  lemma LineShrinks(
    held: seq<Submission>, i: nat, after: seq<Submission>, before: seq<Resolution>, resolved: seq<Resolution>,
    bound: nat)
    requires Increasing(held, bound) && Behind(before, held, bound)
    requires (after == Without(held, i) || after == []) && Extends(before, resolved, |before|)
    ensures Increasing(after, bound) && Behind(resolved, after, bound)
  {
    ExtendsKeeps(before, resolved, held, bound);
    WithoutIncreases(held, i, bound);
    WithoutStaysAhead(held, i, resolved, bound);
  }

  lemma LineAdvances(
    held: seq<Submission>, after: seq<Submission>, before: seq<Resolution>, resolved: seq<Resolution>, start: nat,
    bound: nat)
    requires held != [] && Increasing(held, bound) && Behind(before, held, bound)
    requires after == Without(held, 0) || after == []
    requires Extends(before, resolved, |before| + 1) && resolved[|before|] == Acked(held[0], start)
    ensures Increasing(after, bound) && Behind(resolved, after, bound)
  {
    AckKeeps(before, resolved, held, start, bound);
    WithoutIncreases(held, 0, bound);
    assert Without(held, 0) == held[1..];
  }

  lemma InLineAck(s: State)
    requires Sound(s) && InLine(s) && Enabled(s, ReceiveAck)
    ensures InLine(AfterAck(s))
  {
    AckHolds(s);
    AckResolves(s);
    LineAdvances(Held(s), Held(AfterAck(s)), s.resolved, AfterAck(s).resolved, Current(s).starts[Current(s).acked],
                 AfterAck(s).issued);
  }

  lemma InLineTask(config: Config, s: State, e: Event)
    requires Sound(s) && InLine(s) && Enabled(s, e) && !e.NewSubmission? && !e.NewClose? && !e.ReceiveAck?
    ensures InLine(Apply(config, s, e))
  {
    var next := Apply(config, s, e);
    var i := TaskHolds(config, s, e);
    OthersReject(config, s, e);
    LineShrinks(Held(s), i, Held(next), s.resolved, next.resolved, s.issued);
  }

  lemma InLineStep(config: Config, s: State, e: Event)
    requires Sound(s) && InLine(s) && Enabled(s, e)
    ensures InLine(Apply(config, s, e))
  {
    if e.NewSubmission? || e.NewClose? {
      InLineSubmit(config, s, e);
    } else if e.ReceiveAck? {
      InLineAck(s);
    } else {
      InLineTask(config, s, e);
    }
  }

  /** An ended session holds nothing. */
  predicate Drained(s: State) {
    s.phase.Ended? ==> s.inflight == [] && s.stashed.None? && s.queue == []
  }

  lemma BranchDrains(s: State)
    requires !s.phase.Ended?
    ensures Drained(AfterBranch(s))
  {}

  lemma FailureDrains(config: Config, s: State, error: SessionError)
    ensures Drained(AfterFailure(config, s, error)) && Drained(RejectHeld(s, error))
  {}

  lemma AckDrains(s: State)
    requires Sound(s) && Enabled(s, ReceiveAck)
    ensures Drained(AfterAck(s))
  {
    AckIsProcessed(s);
    BranchDrains(Popped(s));
  }

  lemma DrainedStep(config: Config, s: State, e: Event)
    requires Sound(s) && Drained(s) && Enabled(s, e)
    ensures Drained(Apply(config, s, e))
  {
    if e.SendStashed? {
      BranchDrains(AfterSendStashed(s));
    } else if e.Receive? {
      BranchDrains(AfterReceive(s));
    } else if e.ReceiveAck? {
      AckDrains(s);
    } else if e.SendersGone? || e.Abort? || e.Fail? {
      FailureDrains(config, s, if e.Fail? then e.error else SessionDropped);
    } else if e.StreamEnd? {
      FailureDrains(config, s, StreamClosedEarly);
    }
  }

  // ---------- Whole runs ----------

  ghost predicate Faithful(s: State) {
    Sound(s) && AllTrue(s) && Ordered(s.resolved, s.prevAckEnd) && InLine(s) && Drained(s)
  }

  lemma {:induction false} RunIsFaithful(
    config: Config, first: seq<AppendRecord>, states: seq<State>, events: seq<Event>, i: nat)
    requires IsRun(config, first, states, events) && i < |states|
    ensures Faithful(states[i])
  {
    if i == 0 {
      assert Held(states[0]) == [];
    } else {
      var s, e := states[i - 1], events[i - 1];
      RunIsFaithful(config, first, states, events, i - 1);
      SoundStep(config, s, e);
      AllTrueStep(config, s, e);
      OrderedStep(config, s, e);
      InLineStep(config, s, e);
      DrainedStep(config, s, e);
    }
  }

  /** A submission's acknowledgement names the place where its own records are. */
  lemma AcksAreTrue(config: Config, first: seq<AppendRecord>, states: seq<State>, events: seq<Event>, i: nat, r: nat)
    requires IsRun(config, first, states, events) && i < |states| && r < |states[i].resolved|
    requires states[i].resolved[r].Acked?
    ensures AckTrue(states[i].log, states[i].resolved[r])
  {
    RunIsFaithful(config, first, states, events, i);
  }

  /** Acknowledged submissions are in the log in the order in which they were submitted, one after the other. */
  lemma AcksKeepOrder(
    config: Config, first: seq<AppendRecord>, states: seq<State>, events: seq<Event>, i: nat, q: nat, r: nat)
    requires IsRun(config, first, states, events) && i < |states| && q < |states[i].resolved|
    requires r < |states[i].resolved|
    requires states[i].resolved[q].Acked? && states[i].resolved[r].Acked?
    requires states[i].resolved[q].submission.id < states[i].resolved[r].submission.id
    ensures q < r && AckEnd(states[i].resolved[q]) <= states[i].resolved[r].start
  {
    RunIsFaithful(config, first, states, events, i);
  }

  /** Once the session has ended, every submission made has been resolved, and once. */
  lemma EndedResolvesAll(
    config: Config, first: seq<AppendRecord>, states: seq<State>, events: seq<Event>, i: nat, id: nat)
    requires IsRun(config, first, states, events) && i < |states| && states[i].phase.Ended? && id < states[i].issued
    ensures CountResolved(states[i].resolved, id, |states[i].resolved|) == 1
  {
    RunIsFaithful(config, first, states, events, i);
    RunConserves(config, first, states, events, i, id);
  }
}
