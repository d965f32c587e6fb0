/** What a session holds, has resolved and has sent are the submissions it received, unchanged. */
module SessionHistory {
  import opened SessionProtocol
  import opened SessionAcks
  import opened SessionOrder
  import opened SessionOnce

  /** Resolutions are only added, and for submissions that were held. */
  ghost predicate ResolvesFrom(before: seq<Resolution>, after: seq<Resolution>, held: seq<Submission>) {
    && |before| <= |after| && after[..|before|] == before
    && forall i | |before| <= i < |after| :: after[i].submission in held
  }

  lemma QueuedAreHeld(s: State)
    ensures forall i | 0 <= i < |Queued(s.queue)| :: Queued(s.queue)[i] in Held(s)
  {
    var front := s.inflight + if s.stashed.Some? then [s.stashed.value] else [];
    forall i | 0 <= i < |Queued(s.queue)| ensures Queued(s.queue)[i] in Held(s) {
      assert Held(s)[|front| + i] == Queued(s.queue)[i];
    }
  }

  lemma BranchResolves(s: State)
    ensures ResolvesFrom(s.resolved, AfterBranch(s).resolved, Held(s))
  {
    QueuedAreHeld(s);
  }

  lemma RejectResolves(s: State, error: SessionError)
    ensures ResolvesFrom(s.resolved, RejectHeld(s, error).resolved, Held(s))
  {}

  lemma FailureResolves(config: Config, s: State, error: SessionError)
    ensures ResolvesFrom(s.resolved, AfterFailure(config, s, error).resolved, Held(s))
  {
    RejectResolves(s, error);
  }

  lemma ThenResolves(
    before: seq<Resolution>, between: seq<Resolution>, after: seq<Resolution>, held: seq<Submission>,
    left: seq<Submission>)
    requires ResolvesFrom(before, between, held) && ResolvesFrom(between, after, left)
    requires forall i | 0 <= i < |left| :: left[i] in held
    ensures ResolvesFrom(before, after, held)
  {
    assert after[..|before|] == after[..|between|][..|before|];
    forall i | |before| <= i < |after| ensures after[i].submission in held {
      if i < |between| {
        assert after[..|between|][i] == between[i];
      }
    }
  }

  lemma WithoutIsPart(held: seq<Submission>, i: nat)
    ensures forall j | 0 <= j < |Without(held, i)| :: Without(held, i)[j] in held
  {}

  lemma ReceiveResolves(s: State)
    requires Enabled(s, Receive)
    ensures ResolvesFrom(s.resolved, AfterBranch(AfterReceive(s)).resolved, Held(s))
  {
    var next := AfterReceive(s);
    QueuedTail(s.queue);
    QueuedAreHeld(s);
    assert s.queue[0].Submit? ==> Queued(s.queue)[0] == s.queue[0].submission;
    ReceiveHolds(s);
    WithoutIsPart(Held(s), Refused(s));
    BranchResolves(next);
    ThenResolves(s.resolved, next.resolved, AfterBranch(next).resolved, Held(s), Held(next));
  }

  lemma AckResolvesHeld(s: State)
    requires Sound(s) && Enabled(s, ReceiveAck)
    ensures ResolvesFrom(s.resolved, AfterAck(s).resolved, Held(s))
  {
    AckIsProcessed(s);
    PoppedResolves(s);
    PoppedHolds(s);
    WithoutIsPart(Held(s), 0);
    assert Held(s)[0] == s.inflight[0];
    BranchResolves(Popped(s));
    ThenResolves(s.resolved, Popped(s).resolved, AfterBranch(Popped(s)).resolved, Held(s), Held(Popped(s)));
  }

  lemma EndResolves(config: Config, s: State, e: Event)
    requires Enabled(s, e) && (e.SendersGone? || e.Abort? || e.Fail? || e.StreamEnd?)
    ensures ResolvesFrom(s.resolved, Apply(config, s, e).resolved, Held(s))
  {
    match e
    case SendersGone => FailureResolves(config, s, SessionDropped);
    case Abort => RejectResolves(s, SessionDropped);
    case Fail(error) => FailureResolves(config, s, error);
    case StreamEnd =>
      FailureResolves(config, s, StreamClosedEarly);
      QueuedAreHeld(s);
  }

  lemma StepResolves(config: Config, s: State, e: Event)
    requires Sound(s) && Enabled(s, e)
    ensures ResolvesFrom(s.resolved, Apply(config, s, e).resolved, Held(s))
  {
    if e.SendStashed? {
      SendStashedHolds(s);
      BranchResolves(AfterSendStashed(s));
    } else if e.Receive? {
      ReceiveResolves(s);
    } else if e.ReceiveAck? {
      AckResolvesHeld(s);
    } else if e.SendersGone? || e.Abort? || e.Fail? || e.StreamEnd? {
      EndResolves(config, s, e);
    }
  }

  // ---------- Received submissions ----------

  predicate IsMade(made: seq<Submission>, submission: Submission) {
    submission.id < |made| && made[submission.id] == submission
  }

  ghost predicate HeldMade(made: seq<Submission>, s: State) {
    forall i | 0 <= i < |Held(s)| :: IsMade(made, Held(s)[i])
  }

  ghost predicate ResolvedMade(made: seq<Submission>, s: State) {
    forall i | 0 <= i < |s.resolved| :: IsMade(made, s.resolved[i].submission)
  }

  ghost predicate SentMade(made: seq<Submission>, s: State) {
    forall k, j | 0 <= k < |s.connections| && 0 <= j < |s.connections[k].sends| ::
      IsMade(made, s.connections[k].sends[j])
  }

  /** Everything the session knows is a submission it received. */
  ghost predicate AllMade(made: seq<Submission>, s: State) {
    HeldMade(made, s) && ResolvedMade(made, s) && SentMade(made, s)
  }

  lemma HeldMadeStep(config: Config, s: State, e: Event, made: seq<Submission>)
    requires Sound(s) && Enabled(s, e) && !e.NewSubmission? && HeldMade(made, s)
    ensures HeldMade(made, Apply(config, s, e))
  {
    if e.NewClose? {
      SubmitHolds(config, s, e);
    } else {
      var i := TaskHolds(config, s, e);
      WithoutIsPart(Held(s), i);
    }
  }

  lemma ResolvedMadeStep(config: Config, s: State, e: Event, made: seq<Submission>)
    requires Sound(s) && Enabled(s, e) && AllMade(made, s)
    ensures ResolvedMade(made, Apply(config, s, e))
  {
    StepResolves(config, s, e);
    var next := Apply(config, s, e);
    forall i | 0 <= i < |next.resolved| ensures IsMade(made, next.resolved[i].submission) {
      if i < |s.resolved| {
        assert next.resolved[..|s.resolved|][i] == s.resolved[i];
      }
    }
  }

  lemma SentMadeStep(config: Config, s: State, e: Event, made: seq<Submission>)
    requires Enabled(s, e) && AllMade(made, s)
    ensures SentMade(made, Apply(config, s, e))
  {
    var next := Apply(config, s, e);
    forall k, j | 0 <= k < |next.connections| && 0 <= j < |next.connections[k].sends|
      ensures IsMade(made, next.connections[k].sends[j])
    {
      SendsAfter(config, s, e, k, j);
      if e.Resend? {
        assert Held(s)[s.phase.index] == s.inflight[s.phase.index];
      } else if e.SendStashed? {
        assert Held(s)[|s.inflight|] == s.stashed.value;
      }
    }
  }

  /** A step makes nothing up. */
  lemma AllMadeStep(config: Config, s: State, e: Event, made: seq<Submission>)
    requires Sound(s) && Enabled(s, e) && !e.NewSubmission? && AllMade(made, s)
    ensures AllMade(made, Apply(config, s, e))
  {
    HeldMadeStep(config, s, e, made);
    ResolvedMadeStep(config, s, e, made);
    SentMadeStep(config, s, e, made);
  }

  lemma MadeStays(made: seq<Submission>, s: State, more: seq<Submission>)
    requires AllMade(made, s)
    ensures AllMade(made + more, s)
  {}

  lemma NewIsMade(config: Config, s: State, e: Event, made: seq<Submission>)
    requires Enabled(s, e) && e.NewSubmission? && AllMade(made, s) && |made| == s.issued
    ensures AllMade(made + [Submission(s.issued, e.records, e.matchSeqNum)], Apply(config, s, e))
  {
    SubmitHolds(config, s, e);
    MadeStays(made, s, [Submission(s.issued, e.records, e.matchSeqNum)]);
  }
}
