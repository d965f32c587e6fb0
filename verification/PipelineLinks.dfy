/**
  In every run of the producer and its session together, the producer's part is a run of the producer's protocol and
  the session's part one of the session's, so the theorems about both hold without any assumption about the other.
 */
module PipelineLinks {
  import opened Wrappers
  import opened Pipeline
  import PA = ProducerAcks
  import SC = SessionClose
  import SO = SessionOrder
  import opened SessionHistory

  // ---------- What links the two ----------

  /** A claimable ticket is that of the submission of its batch, and a positive answer is the session's. */
  ghost predicate TicketLinked(s: State, k: nat)
    requires k < |s.tickets| && k < |s.producer.claimable|
  {
    var ticket := s.producer.claimable[k];
    match s.tickets[k]
    case None => !(ticket.reply.Some? && ticket.reply.value.Ok?)
    case Some(id) =>
      && id < |s.made| && s.made[id].records == ticket.batch
      && (ticket.reply.Some? && ticket.reply.value.Ok? ==> IsAcked(s, id, ticket.reply.value.value))
  }

  ghost predicate IsAcked(s: State, id: nat, start: nat)
    requires id < |s.made|
  {
    S.Acked(s.made[id], start) in s.session.resolved
  }

  ghost predicate TicketsLinked(s: State) {
    |s.tickets| == |s.producer.claimable| && forall k | 0 <= k < |s.tickets| :: TicketLinked(s, k)
  }

  predicate Runs(producer: P.State) {
    producer.phase.Running? || producer.phase.ClosingSession?
  }

  /** The session has ended, and was not asked to. */
  predicate IsDead(session: S.State) {
    session.HasEnded() && session.closeAt.None?
  }

  predicate IsBlamed(r: P.Resolution) {
    r.outcome.Failed? && r.outcome.failure.Session?
  }

  /** While the producer's loop runs it sees an error of the session only after the session ended by itself. */
  ghost predicate Blameless(s: State) {
    Runs(s.producer) && !IsDead(s.session) ==>
      && (forall k | 0 <= k < |s.tickets| :: s.tickets[k].Some?)
      && (forall k | 0 <= k < |s.producer.claimable| && s.producer.claimable[k].reply.Some? ::
            s.producer.claimable[k].reply.value.Ok?)
      && (forall q | 0 <= q < |s.producer.resolved| :: !IsBlamed(s.producer.resolved[q]))
  }

  ghost predicate Linked(s: State) {
    && s.producer.log == Seen(s.session.log)
    && |s.made| == s.session.issued && AllMade(s.made, s.session)
    && TicketsLinked(s) && Blameless(s)
    && (s.session.closeAt.Some? ==> s.producer.phase.ClosingSession? || s.producer.phase.Ended?)
  }

  // ---------- What the two know by themselves ----------

  ghost predicate ProducerOk(config: P.Config, s: P.State) {
    && config.Valid() && PA.Aligned(config, s) && PA.AllTruthful(s) && PA.Orderly(s)
  }

  ghost predicate SessionOk(s: S.State) {
    SO.Faithful(s) && SC.QueueOrder(s) && SC.NoneRejected(s) && SC.CloseHolds(s)
  }

  lemma {:induction false} RunsAreOk(
    config: P.Config, producers: seq<P.State>, events: seq<P.Event>,
    sessionConfig: S.Config, sessions: seq<S.State>, steps: seq<S.Event>, n: nat)
    requires config.Valid() && P.IsRun(config, producers, events) && n < |producers|
    requires S.IsRun(sessionConfig, [], sessions, steps) && n < |sessions|
    ensures ProducerOk(config, producers[n]) && SessionOk(sessions[n])
  {
    PA.RunTruthful(config, producers, events, n);
    PA.RunOrderly(config, producers, events, n);
    SO.RunIsFaithful(sessionConfig, [], sessions, steps, n);
    SC.RunCloses(sessionConfig, [], sessions, steps, n);
  }

  // ---------- What a step of the producer does to its tickets ----------

  function Removed<T>(items: seq<T>, k: nat): seq<T> {
    if k < |items| then items[..k] + items[k + 1..] else items
  }

  predicate EndsTask(e: P.Event) {
    e.SendersGone? || e.FinishDrain? || e.SessionClosed? || e.Abort?
  }

  function ClaimableOf(s: P.State, e: P.Event): seq<P.Ticket> {
    if e.Claim? then Removed(s.claimable, e.k) else if EndsTask(e) then [] else s.claimable
  }

  lemma EndClaimable(config: P.Config, s: P.State, e: P.Event)
    requires P.Enabled(config, s, e) && P.EndEvent(e)
    ensures P.Apply(config, s, e).claimable == ClaimableOf(s, e)
  {}

  lemma BatcherClaimable(config: P.Config, s: P.State)
    requires P.Enabled(config, s, P.BatcherTake)
    ensures P.AfterBatcherTake(config, s).claimable == s.claimable
  {}

  lemma ClaimableAfter(config: P.Config, s: P.State, e: P.Event)
    requires P.Enabled(config, s, e) && (e.SubmitDone? ==> e.result.Err?) && !e.Reply?
    ensures P.Apply(config, s, e).claimable == ClaimableOf(s, e)
  {
    if P.EndEvent(e) {
      EndClaimable(config, s, e);
    } else if e.BatcherTake? {
      BatcherClaimable(config, s);
    }
  }

  /** The tickets resolved by a step all fail, and while the loop runs not by an error of the session. */
  ghost predicate FailsOnly(s: P.State, next: P.State) {
    && |s.resolved| <= |next.resolved| && next.resolved[..|s.resolved|] == s.resolved
    && forall q | |s.resolved| <= q < |next.resolved| ::
         next.resolved[q].outcome.Failed? && (Runs(next) ==> !IsBlamed(next.resolved[q]))
  }

  lemma EndTaskFails(s: P.State)
    ensures FailsOnly(s, P.EndTask(s))
  {}

  lemma SendersGoneFails(s: P.State)
    ensures FailsOnly(s, P.EndTask(P.FailPending(s, P.Dropped)))
  {
    EndTaskFails(P.FailPending(s, P.Dropped));
  }

  lemma PropagateFails(s: P.State, failure: P.Failure)
    ensures FailsOnly(s, P.PropagateTerminalError(s, failure))
  {}

  lemma EndFails(config: P.Config, s: P.State, e: P.Event)
    requires P.Enabled(config, s, e) && P.EndEvent(e)
    ensures FailsOnly(s, P.Apply(config, s, e))
  {
    match e
    case SubmitDone(result) => PropagateFails(s.(submitFut := None), result.error);
    case DrainCommand =>
    case SendersGone => SendersGoneFails(s);
    case _ => EndTaskFails(s);
  }

  lemma BranchFails(config: P.Config, s: P.State, e: P.Event)
    requires P.Enabled(config, s, e) && P.BranchEvent(e) && !e.Claim?
    ensures FailsOnly(s, P.Apply(config, s, e))
  {}

  lemma BatcherFails(config: P.Config, s: P.State)
    requires P.Enabled(config, s, P.BatcherTake)
    ensures FailsOnly(s, P.AfterBatcherTake(config, s))
  {
    var (first, taken) := P.OpenBatch(s);
    PropagateFails(taken, P.Oversized(first.MeteredBytes()));
  }

  /** A step acknowledges tickets, or reports an error of the session to them, only by claiming a ticket of it. */
  lemma ResolvedAfter(config: P.Config, s: P.State, e: P.Event)
    requires P.Enabled(config, s, e) && !e.Claim?
    ensures FailsOnly(s, P.Apply(config, s, e))
  {
    if P.EndEvent(e) {
      EndFails(config, s, e);
    } else if P.BranchEvent(e) {
      BranchFails(config, s, e);
    } else if e.BatcherTake? {
      BatcherFails(config, s);
    }
  }

  lemma ClaimResolves(config: P.Config, s: P.State, k: nat)
    requires P.Enabled(config, s, P.Claim(k))
    ensures var next, ticket := P.Apply(config, s, P.Claim(k)), s.claimable[k];
            next.resolved == s.resolved + P.DispatchAcks(ticket.reply.value, ticket.acks)
  {}

  lemma PhaseAfter(config: P.Config, s: P.State, e: P.Event)
    requires P.Enabled(config, s, e)
    ensures Runs(P.Apply(config, s, e)) ==> Runs(s)
    ensures s.phase.Ended? ==> P.Apply(config, s, e).phase.Ended?
    ensures s.phase.ClosingSession? ==>
              P.Apply(config, s, e).phase.ClosingSession? || P.Apply(config, s, e).phase.Ended?
  {}

  // ---------- What the producer assumes is what the session does ----------

  /** An acknowledgement by the session is an answer that the producer's environment may give to that ticket. */
  lemma AnswerIsAllowed(config: Config, s: State, k: nat, r: nat, failure: nat)
    requires Linked(s) && SessionOk(s.session) && Enabled(config, s, Answer(k, Some(r), failure))
    requires s.session.resolved[r].Acked?
    ensures P.LogHolds(s.producer.log, s.session.resolved[r].start, s.producer.claimable[k].batch)
    ensures IsAcked(s, s.tickets[k].value, s.session.resolved[r].start)
  {
    var resolution := s.session.resolved[r];
    assert TicketLinked(s, k) && IsMade(s.made, resolution.submission) && SO.AckTrue(s.session.log, resolution);
    forall j | 0 <= j < |resolution.submission.records|
      ensures s.producer.log[resolution.start + j] == P.Own(resolution.submission.records[j])
    {
      assert SO.IsOwn(s.session.log[resolution.start + j], resolution.submission.records[j]);
    }
  }

  /** A successful close of the session is one that the producer's environment may report. */
  lemma CloseIsAllowed(config: Config, s: State)
    requires Linked(s) && SessionOk(s.session) && Enabled(config, s, SessionClosed(Ok(())))
    ensures P.NoneFailedInSession(s.producer.resolved)
  {
    assert !IsDead(s.session);
    forall q | 0 <= q < |s.producer.resolved| && s.producer.resolved[q].outcome.Failed?
      ensures !s.producer.resolved[q].outcome.failure.Session?
    {
      assert !IsBlamed(s.producer.resolved[q]);
    }
  }

  ghost predicate IsAllowed(config: Config, s: State, e: Event)
    requires Enabled(config, s, e)
  {
    && P.Enabled(config.producer, s.producer, ProducerEvent(config, s, e))
    && ProducerAfter(config, s, e) == P.Apply(config.producer, s.producer, ProducerEvent(config, s, e))
  }

  lemma AnswerStepIsAllowed(config: Config, s: State, e: Event)
    requires Linked(s) && SessionOk(s.session) && Enabled(config, s, e) && e.Answer?
    ensures IsAllowed(config, s, e)
  {
    if e.r.Some? && s.session.resolved[e.r.value].Acked? {
      AnswerIsAllowed(config, s, e.k, e.r.value, e.failure);
    }
  }

  lemma CloseStepIsAllowed(config: Config, s: State, e: Event)
    requires Linked(s) && SessionOk(s.session) && Enabled(config, s, e) && e.SessionClosed?
    ensures IsAllowed(config, s, e)
  {
    if e.result.Ok? {
      CloseIsAllowed(config, s);
    }
  }

  lemma OtherStepsAreEnabled(config: Config, s: State, e: Event)
    requires Enabled(config, s, e) && !e.Answer? && !e.SessionClosed?
    ensures P.Enabled(config.producer, s.producer, ProducerEvent(config, s, e))
  {}

  lemma OtherStepsAreAllowed(config: Config, s: State, e: Event)
    requires Enabled(config, s, e) && !e.Answer? && !e.SessionClosed?
    ensures IsAllowed(config, s, e)
  {
    OtherStepsAreEnabled(config, s, e);
    assert ProducerAfter(config, s, e) == P.Apply(config.producer, s.producer, ProducerEvent(config, s, e));
  }

  /** Whatever the session answers, and whenever, the producer's environment may do so. */
  lemma StepIsAllowed(config: Config, s: State, e: Event)
    requires Linked(s) && SessionOk(s.session) && Enabled(config, s, e)
    ensures IsAllowed(config, s, e)
  {
    if e.Answer? {
      AnswerStepIsAllowed(config, s, e);
    } else if e.SessionClosed? {
      CloseStepIsAllowed(config, s, e);
    } else {
      OtherStepsAreAllowed(config, s, e);
    }
  }

  // ---------- Every step keeps the links ----------

  lemma EndLog(config: P.Config, s: P.State, e: P.Event)
    requires P.Enabled(config, s, e) && P.EndEvent(e)
    ensures P.Apply(config, s, e).log == s.log
  {}

  lemma BranchLog(config: P.Config, s: P.State, e: P.Event)
    requires P.Enabled(config, s, e) && P.BranchEvent(e)
    ensures P.Apply(config, s, e).log == s.log
  {}

  lemma BatcherLog(config: P.Config, s: P.State)
    requires P.Enabled(config, s, P.BatcherTake)
    ensures P.AfterBatcherTake(config, s).log == s.log
  {}

  lemma LogAfter(config: P.Config, s: P.State, e: P.Event)
    requires P.Enabled(config, s, e)
    ensures P.Apply(config, s, e).log == if e.LogGrows? then s.log + e.entries else s.log
  {
    if P.EndEvent(e) {
      EndLog(config, s, e);
    } else if P.BranchEvent(e) {
      BranchLog(config, s, e);
    } else if e.BatcherTake? {
      BatcherLog(config, s);
    }
  }

  /** The log grows for the producer as it does for the session. */
  lemma LogStep(config: Config, s: State, e: Event)
    requires Linked(s) && Enabled(config, s, e) && IsAllowed(config, s, e)
    ensures ProducerAfter(config, s, e).log == Seen(SessionAfter(config, s, e).log)
  {
    LogAfter(config.producer, s.producer, ProducerEvent(config, s, e));
    var next := SessionAfter(config, s, e);
    SO.LogOnlyGrows(config.session, s.session, SessionEvent(s, e));
    forall i | 0 <= i < |s.session.log| ensures Seen(next.log)[i] == s.producer.log[i] {
      assert next.log[..|s.session.log|][i] == s.session.log[i];
    }
    if e.Session? {
      assert Seen(next.log)[..|s.producer.log|] == s.producer.log;
    } else {
      assert next.log == s.session.log;
    }
  }

  lemma MadeStep(config: Config, s: State, e: Event)
    requires Linked(s) && SessionOk(s.session) && Enabled(config, s, e)
    ensures var next := Apply(config, s, e); |next.made| == next.session.issued && AllMade(next.made, next.session)
  {
    var step := SessionEvent(s, e);
    if e.Submit? {
      NewIsMade(config.session, s.session, step, s.made);
    } else {
      AllMadeStep(config.session, s.session, step, s.made);
      if !e.CloseSession? {
        SessionIssuesNothing(config.session, s.session, step);
      }
    }
  }

  lemma SessionIssuesNothing(config: S.Config, s: S.State, e: S.Event)
    requires S.Enabled(s, e) && IsStep(e)
    ensures S.Apply(config, s, e).issued == s.issued && S.Apply(config, s, e).closeAt == s.closeAt
  {
    if !e.Receive? {
      SC.RestLeavesQueue(config, s, e);
    }
  }

  lemma AckedStays(config: Config, s: State, e: Event, id: nat, start: nat)
    requires Linked(s) && SessionOk(s.session) && Enabled(config, s, e) && id < |s.made| && IsAcked(s, id, start)
    ensures IsAcked(Apply(config, s, e), id, start)
  {
    var next := Apply(config, s, e);
    StepResolves(config.session, s.session, SessionEvent(s, e));
    var r :| 0 <= r < |s.session.resolved| && s.session.resolved[r] == S.Acked(s.made[id], start);
    assert next.session.resolved[..|s.session.resolved|][r] == S.Acked(next.made[id], start);
  }

  /** A ticket that a step leaves alone stays linked. */
  lemma TicketStays(config: Config, s: State, e: Event, k: nat, j: nat)
    requires Linked(s) && SessionOk(s.session) && Enabled(config, s, e) && k < |s.tickets|
    requires var next := Apply(config, s, e);
             && j < |next.tickets| && j < |next.producer.claimable|
             && next.tickets[j] == s.tickets[k] && next.producer.claimable[j] == s.producer.claimable[k]
    ensures TicketLinked(Apply(config, s, e), j)
  {
    assert TicketLinked(s, k);
    var ticket := s.producer.claimable[k];
    if s.tickets[k].Some? && ticket.reply.Some? && ticket.reply.value.Ok? {
      AckedStays(config, s, e, s.tickets[k].value, ticket.reply.value.value);
    }
  }

  lemma SubmitLinks(config: Config, s: State, e: Event)
    requires Linked(s) && SessionOk(s.session) && ProducerOk(config.producer, s.producer)
    requires Enabled(config, s, e) && (e.Submit? || e.SubmitLate?)
    ensures TicketsLinked(Apply(config, s, e))
  {
    var next := Apply(config, s, e);
    PA.SubmitDoneSplits(config.producer, s.producer);
    forall j | 0 <= j < |next.tickets| ensures TicketLinked(next, j) {
      if j < |s.tickets| {
        TicketStays(config, s, e, j, j);
      }
    }
  }

  lemma AnswerLinks(config: Config, s: State, e: Event)
    requires Linked(s) && SessionOk(s.session) && Enabled(config, s, e) && e.Answer?
    ensures TicketsLinked(Apply(config, s, e))
  {
    var next := Apply(config, s, e);
    forall j | 0 <= j < |next.tickets| ensures TicketLinked(next, j) {
      if j != e.k {
        TicketStays(config, s, e, j, j);
      } else {
        assert TicketLinked(s, j);
        if e.r.Some? && s.session.resolved[e.r.value].Acked? {
          AnswerIsAllowed(config, s, e.k, e.r.value, e.failure);
          AckedStays(config, s, e, s.tickets[j].value, s.session.resolved[e.r.value].start);
        }
      }
    }
  }

  lemma TicketsAfterIs(config: Config, s: State, e: Event)
    requires Enabled(config, s, e) && !e.Submit? && !e.SubmitLate? && !e.Answer?
    ensures var event := ProducerEvent(config, s, e);
            TicketsAfter(s, e) ==
              if event.Claim? then Removed(s.tickets, event.k) else if EndsTask(event) then [] else s.tickets
  {}

  lemma OthersKeepTickets(config: Config, s: State, e: Event)
    requires TicketsLinked(s) && Enabled(config, s, e) && IsAllowed(config, s, e)
    requires !e.Submit? && !e.SubmitLate? && !e.Answer?
    ensures var next, event := Apply(config, s, e), ProducerEvent(config, s, e);
            if event.Claim? then
              next.tickets == Removed(s.tickets, event.k)
              && next.producer.claimable == Removed(s.producer.claimable, event.k)
            else if EndsTask(event) then next.tickets == [] && next.producer.claimable == []
            else next.tickets == s.tickets && next.producer.claimable == s.producer.claimable
  {
    TicketsAfterIs(config, s, e);
    ClaimableAfter(config.producer, s.producer, ProducerEvent(config, s, e));
  }

  /** Any other step may take one ticket away, or all of them. */
  lemma OthersLink(config: Config, s: State, e: Event)
    requires Linked(s) && SessionOk(s.session) && Enabled(config, s, e) && IsAllowed(config, s, e)
    requires !e.Submit? && !e.SubmitLate? && !e.Answer?
    ensures TicketsLinked(Apply(config, s, e))
  {
    OthersKeepTickets(config, s, e);
    var next, event := Apply(config, s, e), ProducerEvent(config, s, e);
    forall j | 0 <= j < |next.tickets| ensures TicketLinked(next, j) {
      TicketStays(config, s, e, if event.Claim? && event.k <= j then j + 1 else j, j);
    }
  }

  lemma TicketsStep(config: Config, s: State, e: Event)
    requires Linked(s) && SessionOk(s.session) && ProducerOk(config.producer, s.producer)
    requires Enabled(config, s, e) && IsAllowed(config, s, e)
    ensures TicketsLinked(Apply(config, s, e))
  {
    if e.Submit? || e.SubmitLate? {
      SubmitLinks(config, s, e);
    } else if e.Answer? {
      AnswerLinks(config, s, e);
    } else {
      OthersLink(config, s, e);
    }
  }

  // ---------- Who is to blame ----------

  lemma DeadStays(config: S.Config, s: S.State, e: S.Event)
    requires S.Enabled(s, e) && IsDead(s)
    ensures IsDead(S.Apply(config, s, e))
  {}

  /** A rejection that reaches a producer whose loop runs comes from a session that has ended by itself. */
  lemma RejectionIsDeath(config: Config, s: State, e: Event)
    requires Linked(s) && SessionOk(s.session) && ProducerOk(config.producer, s.producer)
    requires Enabled(config, s, e) && e.Answer? && ReplyOf(s, e.r, e.failure).Err? && Runs(s.producer)
    ensures IsDead(s.session)
  {
    assert TicketLinked(s, e.k);
    if e.r.Some? {
      assert SC.IsProper(s.session.closeAt, s.session.resolved[e.r.value]) || s.session.HasEnded();
    }
  }

  lemma AnswerIsBlameless(config: Config, s: State, e: Event)
    requires Linked(s) && SessionOk(s.session) && ProducerOk(config.producer, s.producer)
    requires Enabled(config, s, e) && e.Answer? && !IsDead(s.session)
    ensures Blameless(Apply(config, s, e))
  {
    if Runs(s.producer) && ReplyOf(s, e.r, e.failure).Err? {
      RejectionIsDeath(config, s, e);
    }
  }

  lemma ClaimIsBlameless(config: Config, s: State, k: nat)
    requires Linked(s) && Enabled(config, s, Work(P.Claim(k))) && Blameless(s) && !IsDead(s.session)
    ensures Blameless(Apply(config, s, Work(P.Claim(k))))
  {
    ClaimResolves(config.producer, s.producer, k);
    ClaimableAfter(config.producer, s.producer, P.Claim(k));
  }

  lemma SubmitIsBlameless(config: Config, s: State)
    requires Linked(s) && ProducerOk(config.producer, s.producer) && Enabled(config, s, Submit) && !IsDead(s.session)
    ensures Blameless(Apply(config, s, Submit))
  {
    PA.SubmitDoneSplits(config.producer, s.producer);
    ResolvedAfter(config.producer, s.producer, P.SubmitDone(Ok(())));
  }

  lemma OthersAreBlameless(config: Config, s: State, e: Event)
    requires Linked(s) && Enabled(config, s, e) && IsAllowed(config, s, e) && !IsDead(s.session)
    requires !e.Submit? && !e.SubmitLate? && !e.Answer? && !ProducerEvent(config, s, e).Claim?
    ensures Blameless(Apply(config, s, e))
  {
    var event := ProducerEvent(config, s, e);
    ClaimableAfter(config.producer, s.producer, event);
    ResolvedAfter(config.producer, s.producer, event);
    PhaseAfter(config.producer, s.producer, event);
    assert Runs(Apply(config, s, e).producer) ==> Runs(s.producer);
  }

  lemma BlameStep(config: Config, s: State, e: Event)
    requires Linked(s) && SessionOk(s.session) && ProducerOk(config.producer, s.producer)
    requires Enabled(config, s, e) && IsAllowed(config, s, e)
    ensures Blameless(Apply(config, s, e))
  {
    if IsDead(s.session) {
      DeadStays(config.session, s.session, SessionEvent(s, e));
    } else if e.Submit? {
      SubmitIsBlameless(config, s);
    } else if e.Answer? {
      AnswerIsBlameless(config, s, e);
    } else if e.Work? && e.work.Claim? {
      ClaimIsBlameless(config, s, e.work.k);
    } else if !e.SubmitLate? {
      OthersAreBlameless(config, s, e);
    }
  }

  lemma CloseStep(config: Config, s: State, e: Event)
    requires Linked(s) && Enabled(config, s, e) && IsAllowed(config, s, e)
    ensures var next := Apply(config, s, e);
            next.session.closeAt.Some? ==> next.producer.phase.ClosingSession? || next.producer.phase.Ended?
  {
    PhaseAfter(config.producer, s.producer, ProducerEvent(config, s, e));
    if !e.Submit? && !e.CloseSession? {
      SessionIssuesNothing(config.session, s.session, SessionEvent(s, e));
    }
  }

  lemma LinkedStep(config: Config, s: State, e: Event)
    requires Linked(s) && SessionOk(s.session) && ProducerOk(config.producer, s.producer) && Enabled(config, s, e)
    ensures Linked(Apply(config, s, e)) && IsAllowed(config, s, e)
  {
    StepIsAllowed(config, s, e);
    LogStep(config, s, e);
    MadeStep(config, s, e);
    TicketsStep(config, s, e);
    BlameStep(config, s, e);
    CloseStep(config, s, e);
  }

  // ---------- Whole runs ----------

  function Producers(states: seq<State>, n: nat): (producers: seq<P.State>)
    requires n < |states|
    ensures |producers| == n + 1 && forall i | 0 <= i <= n :: producers[i] == states[i].producer
  {
    seq(n + 1, i requires 0 <= i <= n => states[i].producer)
  }

  function Sessions(states: seq<State>, n: nat): (sessions: seq<S.State>)
    requires n < |states|
    ensures |sessions| == n + 1 && forall i | 0 <= i <= n :: sessions[i] == states[i].session
  {
    seq(n + 1, i requires 0 <= i <= n => states[i].session)
  }

  ghost function ProducerEvents(config: Config, states: seq<State>, events: seq<Event>, n: nat): (part: seq<P.Event>)
    requires IsRun(config, states, events) && n <= |events|
    ensures |part| == n && forall i | 0 <= i < n :: part[i] == ProducerEvent(config, states[i], events[i])
  {
    seq(n, i requires 0 <= i < n && Enabled(config, states[i], events[i]) =>
      ProducerEvent(config, states[i], events[i]))
  }

  ghost function SessionEvents(config: Config, states: seq<State>, events: seq<Event>, n: nat): (part: seq<S.Event>)
    requires IsRun(config, states, events) && n <= |events|
    ensures |part| == n && forall i | 0 <= i < n :: part[i] == SessionEvent(states[i], events[i])
  {
    seq(n, i requires 0 <= i < n => SessionEvent(states[i], events[i]))
  }

  ghost predicate Refines(config: Config, states: seq<State>, events: seq<Event>, n: nat)
    requires IsRun(config, states, events) && n <= |events|
  {
    && P.IsRun(config.producer, Producers(states, n), ProducerEvents(config, states, events, n))
    && S.IsRun(config.session, [], Sessions(states, n), SessionEvents(config, states, events, n))
  }

  lemma LongerProducerRun(config: Config, states: seq<State>, events: seq<Event>, n: nat)
    requires IsRun(config, states, events) && 0 < n <= |events| && Refines(config, states, events, n - 1)
    requires IsAllowed(config, states[n - 1], events[n - 1])
    ensures P.IsRun(config.producer, Producers(states, n), ProducerEvents(config, states, events, n))
  {
    var producers, ours := Producers(states, n), ProducerEvents(config, states, events, n);
    forall i | 0 <= i < n
      ensures P.Enabled(config.producer, producers[i], ours[i])
      ensures producers[i + 1] == P.Apply(config.producer, producers[i], ours[i])
    {
      if i < n - 1 {
        assert ProducerEvents(config, states, events, n - 1)[i] == ours[i];
        assert Producers(states, n - 1)[i] == producers[i] && Producers(states, n - 1)[i + 1] == producers[i + 1];
      }
    }
    assert producers[0] == Producers(states, n - 1)[0];
  }

  lemma LongerSessionRun(config: Config, states: seq<State>, events: seq<Event>, n: nat)
    requires IsRun(config, states, events) && n <= |events|
    ensures S.IsRun(config.session, [], Sessions(states, n), SessionEvents(config, states, events, n))
  {
    var sessions, theirs := Sessions(states, n), SessionEvents(config, states, events, n);
    forall i | 0 <= i < n
      ensures S.Enabled(sessions[i], theirs[i])
      ensures sessions[i + 1] == S.Apply(config.session, sessions[i], theirs[i])
    {
      assert states[i + 1] == Apply(config, states[i], events[i]);
    }
  }

  lemma InitIsLinked(config: Config)
    ensures Linked(Init(config))
  {
    assert S.Held(S.Init([])) == [];
  }

  lemma StartRefines(config: Config, states: seq<State>, events: seq<Event>)
    requires IsRun(config, states, events)
    ensures Refines(config, states, events, 0)
  {}

  lemma PartsAreOk(config: Config, states: seq<State>, events: seq<Event>, n: nat)
    requires config.producer.Valid() && IsRun(config, states, events) && n <= |events|
    requires Refines(config, states, events, n)
    ensures ProducerOk(config.producer, states[n].producer) && SessionOk(states[n].session)
  {
    RunsAreOk(config.producer, Producers(states, n), ProducerEvents(config, states, events, n),
              config.session, Sessions(states, n), SessionEvents(config, states, events, n), n);
  }

  lemma RunStepLinks(config: Config, states: seq<State>, events: seq<Event>, k: nat)
    requires IsRun(config, states, events) && k < |events| && Linked(states[k])
    requires ProducerOk(config.producer, states[k].producer) && SessionOk(states[k].session)
    ensures IsAllowed(config, states[k], events[k]) && Linked(states[k + 1])
  {
    LinkedStep(config, states[k], events[k]);
  }

  /** A run of the system is a run of the producer's protocol and one of the session's, with nothing assumed. */
  lemma {:induction false} RunRefines(config: Config, states: seq<State>, events: seq<Event>, n: nat)
    requires config.producer.Valid() && IsRun(config, states, events) && n <= |events|
    ensures Refines(config, states, events, n) && Linked(states[n])
    ensures ProducerOk(config.producer, states[n].producer) && SessionOk(states[n].session)
  {
    if n == 0 {
      InitIsLinked(config);
      StartRefines(config, states, events);
    } else {
      RunRefines(config, states, events, n - 1);
      RunStepLinks(config, states, events, n - 1);
      LongerProducerRun(config, states, events, n);
      LongerSessionRun(config, states, events, n);
    }
    PartsAreOk(config, states, events, n);
  }
}
