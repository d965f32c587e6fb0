/** Closing a session: success means that everything submitted before was appended. */
module SessionClose {
  import opened Wrappers
  import opened Records
  import opened SessionProtocol
  import opened SessionAcks
  import opened SessionConservation
  import opened SessionOrder

  // ---------- The queue behind the close ----------

  predicate IsLate(command: Command, n: nat) {
    command.Submit? && command.submission.id >= n
  }

  /** Behind the close command, and once it was received, only submissions made after it are queued. */
  ghost predicate QueueOrder(s: State) {
    && (s.closeAt.Some? ==> s.closeAt.value <= s.issued)
    && (s.isClosing ==> s.closeAt.Some? && forall j | 0 <= j < |s.queue| :: IsLate(s.queue[j], s.closeAt.value))
    && (forall i | 0 <= i < |s.queue| && s.queue[i].Close? ::
          s.closeAt.Some? && forall j | i < j < |s.queue| :: IsLate(s.queue[j], s.closeAt.value))
  }

  lemma SubmitKeepsOrder(config: Config, s: State, e: Event)
    requires QueueOrder(s) && Enabled(s, e) && (e.NewSubmission? || e.NewClose?)
    ensures QueueOrder(Apply(config, s, e))
  {}

  lemma ReceiveKeepsOrder(s: State)
    requires QueueOrder(s) && Enabled(s, Receive)
    ensures QueueOrder(AfterReceive(s))
  {}

  /** Other steps leave the queue as it is, or empty it. */
  lemma RestKeepsOrder(s: State, next: State)
    requires QueueOrder(s) && (next.queue == s.queue || next.queue == [])
    requires next.closeAt == s.closeAt && next.issued == s.issued && next.isClosing == s.isClosing
    ensures QueueOrder(next)
  {}

  lemma RestLeavesQueue(config: Config, s: State, e: Event)
    requires Enabled(s, e) && !e.NewSubmission? && !e.NewClose? && !e.Receive?
    ensures var next := Apply(config, s, e);
            && (next.queue == s.queue || next.queue == [])
            && next.closeAt == s.closeAt && next.issued == s.issued && next.isClosing == s.isClosing
  {}

  lemma QueueOrderStep(config: Config, s: State, e: Event)
    requires QueueOrder(s) && Enabled(s, e)
    ensures QueueOrder(Apply(config, s, e))
  {
    if e.NewSubmission? || e.NewClose? {
      SubmitKeepsOrder(config, s, e);
    } else if e.Receive? {
      ReceiveKeepsOrder(s);
      RestKeepsOrder(AfterReceive(s), AfterBranch(AfterReceive(s)));
    } else {
      RestLeavesQueue(config, s, e);
      RestKeepsOrder(s, Apply(config, s, e));
    }
  }

  // ---------- What is answered while the session runs ----------

  /** As long as the session runs, nothing submitted before the close is rejected. */
  ghost predicate NoneRejected(s: State) {
    !s.HasEnded() ==> forall i | 0 <= i < |s.resolved| :: IsProper(s.closeAt, s.resolved[i])
  }

  predicate IsProper(closeAt: Option<nat>, r: Resolution) {
    r.Rejected? ==> closeAt.Some? && r.submission.id >= closeAt.value
  }

  lemma ReceiveRejectsNone(s: State)
    requires QueueOrder(s) && NoneRejected(s) && Enabled(s, Receive)
    ensures NoneRejected(AfterReceive(s))
  {}

  lemma AckRejectsNone(s: State)
    requires Sound(s) && NoneRejected(s) && Enabled(s, ReceiveAck)
    ensures NoneRejected(AfterAck(s))
  {
    AckIsProcessed(s);
  }

  lemma NoneRejectedStep(config: Config, s: State, e: Event)
    requires Sound(s) && QueueOrder(s) && NoneRejected(s) && Enabled(s, e)
    ensures NoneRejected(Apply(config, s, e))
  {
    if e.Receive? {
      ReceiveRejectsNone(s);
    } else if e.ReceiveAck? {
      AckRejectsNone(s);
    }
  }

  // ---------- What success means ----------

  ghost predicate AllProper(closeAt: Option<nat>, resolved: seq<Resolution>) {
    forall i | 0 <= i < |resolved| :: IsProper(closeAt, resolved[i])
  }

  /** A close that succeeded has ended the session and found everything before it acknowledged. */
  ghost predicate CloseHolds(s: State) {
    s.closeReply == Some(Ok(())) ==> s.phase.Ended? && s.closeAt.Some? && AllProper(s.closeAt, s.resolved)
  }

  lemma {:induction false} QueuedAreLate(queue: seq<Command>, bound: nat)
    requires forall j | 0 <= j < |queue| :: IsLate(queue[j], bound)
    ensures forall i | 0 <= i < |Queued(queue)| :: Queued(queue)[i].id >= bound
  {
    if queue != [] {
      QueuedAreLate(queue[..|queue| - 1], bound);
    }
  }

  lemma FinishIsProper(s: State)
    requires QueueOrder(s) && NoneRejected(s) && !s.HasEnded() && CloseHolds(s)
    ensures CloseHolds(Finish(s))
  {
    if s.isClosing {
      QueuedAreLate(s.queue, s.closeAt.value);
    }
  }

  lemma BranchIsProper(s: State)
    requires QueueOrder(s) && NoneRejected(s) && CloseHolds(s)
    ensures CloseHolds(AfterBranch(s))
  {
    if s.phase.Streaming? {
      FinishIsProper(s);
    }
  }

  lemma AckIsProper(s: State)
    requires Sound(s) && QueueOrder(s) && NoneRejected(s) && CloseHolds(s) && Enabled(s, ReceiveAck)
    ensures CloseHolds(AfterAck(s))
  {
    AckIsProcessed(s);
    BranchIsProper(Popped(s));
  }

  /** A failure, or losing the task, never tells the caller of `close` that it succeeded. */
  lemma FailureIsProper(config: Config, s: State, e: Event)
    requires Enabled(s, e) && CloseHolds(s) && !s.HasEnded()
    requires e.SendersGone? || e.Abort? || e.Fail? || e.StreamEnd?
    requires e.StreamEnd? ==> s.phase.Resending? || s.inflight != [] || s.stashed.Some?
    ensures CloseHolds(Apply(config, s, e))
  {}

  lemma CloseHoldsStep(config: Config, s: State, e: Event)
    requires Sound(s) && QueueOrder(s) && NoneRejected(s) && CloseHolds(s) && Enabled(s, e)
    ensures CloseHolds(Apply(config, s, e))
  {
    if e.SendStashed? {
      BranchIsProper(AfterSendStashed(s));
    } else if e.Receive? {
      ReceiveKeepsOrder(s);
      ReceiveRejectsNone(s);
      BranchIsProper(AfterReceive(s));
    } else if e.ReceiveAck? {
      AckIsProper(s);
    } else if e.StreamEnd? && s.phase.Streaming? && s.inflight == [] && s.stashed.None? {
      FinishIsProper(s);
    } else if e.SendersGone? || e.Abort? || e.Fail? || e.StreamEnd? {
      FailureIsProper(config, s, e);
    }
  }

  // ---------- Whole runs ----------

  lemma {:induction false} RunCloses(
    config: Config, first: seq<AppendRecord>, states: seq<State>, events: seq<Event>, i: nat)
    requires IsRun(config, first, states, events) && i < |states|
    ensures QueueOrder(states[i]) && NoneRejected(states[i]) && CloseHolds(states[i])
  {
    if i > 0 {
      var s, e := states[i - 1], events[i - 1];
      RunCloses(config, first, states, events, i - 1);
      RunIsSound(config, first, states, events, i - 1);
      QueueOrderStep(config, s, e);
      NoneRejectedStep(config, s, e);
      CloseHoldsStep(config, s, e);
    }
  }

  lemma {:induction false} CountedIsResolved(resolved: seq<Resolution>, id: nat, n: nat) returns (r: nat)
    requires n <= |resolved| && CountResolved(resolved, id, n) > 0
    ensures r < n && resolved[r].submission.id == id
  {
    if resolved[n - 1].submission.id == id {
      r := n - 1;
    } else {
      r := CountedIsResolved(resolved, id, n - 1);
    }
  }

  /** If `close` reports success, every submission made before it was acknowledged, truthfully. */
  lemma CloseOkMeansAllAcked(
    config: Config, first: seq<AppendRecord>, states: seq<State>, events: seq<Event>, i: nat, id: nat)
    returns (r: nat)
    requires IsRun(config, first, states, events) && i < |states| && states[i].closeReply == Some(Ok(()))
    ensures states[i].phase.Ended? && states[i].closeAt.Some?
    ensures id < states[i].closeAt.value ==>
      && r < |states[i].resolved| && states[i].resolved[r].submission.id == id
      && states[i].resolved[r].Acked? && AckTrue(states[i].log, states[i].resolved[r])
  {
    r := 0;
    RunCloses(config, first, states, events, i);
    if id < states[i].closeAt.value {
      EndedResolvesAll(config, first, states, events, i, id);
      r := CountedIsResolved(states[i].resolved, id, |states[i].resolved|);
      assert IsProper(states[i].closeAt, states[i].resolved[r]);
      AcksAreTrue(config, first, states, events, i, r);
    }
  }
}
