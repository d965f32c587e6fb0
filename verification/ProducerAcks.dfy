/**
  What the producer's tickets report: the position of their own record, or the
  reason why there is none (s2-sdk/src/producer.rs).
 */
module ProducerAcks {
  import opened Wrappers
  import opened Records
  import opened Batching
  import opened ProducerProtocol
  import opened ProducerConservation

  // ---------- Alignment of acknowledgements and records ----------

  /** The in-flight submit carries a batch within the limits, and its length is remembered. */
  ghost predicate SubmitAligned(config: Config, s: State) {
    match s.submitFut
    case None => true
    case Some(batch) =>
      && s.submitBatchLen == Some(|batch.records|)
      && batch.Valid() && batch.records != [] && config.batching.Fits(batch.records)
  }

  /** Each ticket's acknowledgements are those of its batch, and a positive answer is where the batch is. */
  ghost predicate TicketAligned(config: Config, log: seq<LogEntry>, ticket: Ticket) {
    && RecordsOf(ticket.acks) == ticket.batch
    && ticket.batch != [] && config.batching.Fits(ticket.batch)
    && match ticket.reply
       case Some(Ok(start)) => LogHolds(log, start, ticket.batch)
       case _ => true
  }

  ghost predicate TicketsAligned(config: Config, s: State) {
    forall k | 0 <= k < |s.claimable| :: TicketAligned(config, s.log, s.claimable[k])
  }

  /**
    While the loop runs, `pending_acks` lists, in order, the acknowledgements of
    the in-flight batch, the open batch, the overflowed record and the record channel.
   */
  ghost predicate PendingAligned(config: Config, s: State) {
    s.phase.Running? || s.phase.ClosingSession? ==>
      RecordsOf(s.pending) == s.Pipeline() && s.batcher.Valid(config.batching) && SubmitAligned(config, s)
  }

  ghost predicate Aligned(config: Config, s: State) {
    PendingAligned(config, s) && TicketsAligned(config, s) && !s.panicked
  }

  /** An acknowledgement is truthful when the log has the record at the reported position. */
  ghost predicate Truthful(log: seq<LogEntry>, r: Resolution) {
    r.outcome.Acked? ==> r.outcome.seqNum < |log| && log[r.outcome.seqNum] == Own(r.record)
  }

  ghost predicate AllTruthful(s: State) {
    forall i | 0 <= i < |s.resolved| :: Truthful(s.log, s.resolved[i])
  }

  lemma RecordPermitAligned(config: Config, s: State)
    requires Aligned(config, s) && Enabled(config, s, RecordPermit)
    ensures Aligned(config, AfterRecordPermit(s))
  {
    var next := AfterRecordPermit(s);
    assert next.Pipeline() == s.Pipeline() + [s.stash.value.record];
    assert RecordsOf(next.pending) == RecordsOf(s.pending) + [s.stash.value.record];
  }

  lemma BatcherTakeAligned(config: Config, s: State)
    requires config.Valid() && Aligned(config, s) && AllTruthful(s) && Enabled(config, s, BatcherTake)
    ensures Aligned(config, AfterBatcherTake(config, s)) && AllTruthful(AfterBatcherTake(config, s))
  {
    var (first, taken) := OpenBatch(s);
    if config.batching.IsOversized(first) {
      PropagateAligned(config, taken, Oversized(first.MeteredBytes()));
    } else {
      assert taken.Pipeline() == s.Pipeline();
      PushedFits(config.batching, EMPTY_BATCH, first);
    }
  }

  /** Draining a batch's length from aligned acknowledgements is in range and takes just the batch's. */
  lemma DrainsItsBatch(pending: seq<Submission>, batch: seq<AppendRecord>, rest: seq<AppendRecord>)
    requires RecordsOf(pending) == batch + rest
    ensures |batch| <= |pending|
    ensures RecordsOf(pending[..|batch|]) == batch && RecordsOf(pending[|batch|..]) == rest
  {
    assert |RecordsOf(pending)| == |pending|;
    assert (batch + rest)[..|batch|] == batch && (batch + rest)[|batch|..] == rest;
  }

  /** `pending_acks.drain(..batch_len)` is in range whenever the session has taken a batch. */
  lemma DrainInRange(config: Config, s: State)
    requires Aligned(config, s) && Enabled(config, s, SubmitDone(Ok(())))
    ensures s.submitBatchLen == Some(|s.submitFut.value.records|) && s.submitBatchLen.value <= |s.pending|
  {
    DrainsItsBatch(s.pending, s.submitFut.value.records, s.batcher.Held() + s.records);
    assert s.Pipeline() == s.submitFut.value.records + (s.batcher.Held() + s.records);
  }

  /** The acknowledgements of the taken batch go to its ticket, the others stay in line with what follows it. */
  lemma SubmitDoneSplits(config: Config, s: State)
    requires Aligned(config, s) && Enabled(config, s, SubmitDone(Ok(())))
    ensures var batch, next := s.submitFut.value.records, AfterSubmitDone(s);
            && |batch| <= |s.pending| && RecordsOf(s.pending[..|batch|]) == batch
            && next.pending == s.pending[|batch|..] && RecordsOf(next.pending) == s.batcher.Held() + s.records
            && next.claimable == s.claimable + [Ticket(batch, s.pending[..|batch|], None)]
            && next.submitFut.None? && !next.panicked
  {
    DrainInRange(config, s);
    var batch, rest := s.submitFut.value.records, s.batcher.Held() + s.records;
    assert s.Pipeline() == batch + rest;
    DrainsItsBatch(s.pending, batch, rest);
  }

  lemma SubmitDoneAligned(config: Config, s: State)
    requires Aligned(config, s) && Enabled(config, s, SubmitDone(Ok(())))
    ensures Aligned(config, AfterSubmitDone(s))
  {
    SubmitDoneSplits(config, s);
    var next := AfterSubmitDone(s);
    assert next.Pipeline() == s.batcher.Held() + s.records;
  }

  lemma ClaimAligned(config: Config, s: State, k: nat)
    requires Aligned(config, s) && AllTruthful(s) && Enabled(config, s, Claim(k))
    ensures Aligned(config, AfterClaim(s, k)) && AllTruthful(AfterClaim(s, k))
  {
    var ticket := s.claimable[k];
    assert TicketAligned(config, s.log, ticket);
    DispatchIsTruthful(s.log, ticket.reply.value, ticket.acks);
  }

  /** dispatch_acks reports true positions when the batch is at `start`. */
  lemma DispatchIsTruthful(log: seq<LogEntry>, reply: Result<nat, Failure>, acks: seq<Submission>)
    requires reply.Ok? ==> LogHolds(log, reply.value, RecordsOf(acks))
    ensures forall i | 0 <= i < |acks| :: Truthful(log, DispatchAcks(reply, acks)[i])
  {
    forall i | 0 <= i < |acks| ensures Truthful(log, DispatchAcks(reply, acks)[i]) {
      if reply.Ok? {
        assert log[reply.value + i] == Own(RecordsOf(acks)[i]);
      }
    }
  }

  lemma LogGrowsAligned(config: Config, s: State, entries: seq<LogEntry>)
    requires Aligned(config, s) && AllTruthful(s)
    ensures Aligned(config, s.(log := s.log + entries)) && AllTruthful(s.(log := s.log + entries))
  {
    var grown := s.(log := s.log + entries);
    forall k | 0 <= k < |s.claimable| ensures TicketAligned(config, grown.log, s.claimable[k]) {
      assert TicketAligned(config, s.log, s.claimable[k]);
    }
  }

  lemma YieldAligned(config: Config, s: State)
    requires Aligned(config, s) && Enabled(config, s, BatcherYield)
    ensures Aligned(config, Apply(config, s, BatcherYield))
  {
    var batch := s.batcher.batch;
    var next := s.(submitFut := Some(batch), submitBatchLen := Some(|batch.records|),
                   batcher := s.batcher.(batch := EMPTY_BATCH));
    assert next.Pipeline() == s.Pipeline();
  }

  lemma OfferAligned(config: Config, s: State)
    requires Aligned(config, s) && Enabled(config, s, BatcherOffer)
    ensures Aligned(config, Apply(config, s, BatcherOffer))
  {
    s.batcher.OfferKeepsOrder(config.batching, s.records[0]);
    assert Apply(config, s, BatcherOffer).Pipeline() == s.Pipeline();
  }

  lemma UserAligned(config: Config, s: State, e: Event)
    requires Aligned(config, s) && AllTruthful(s) && Enabled(config, s, e) && UserEvent(e)
    ensures Aligned(config, Apply(config, s, e)) && AllTruthful(Apply(config, s, e))
  {}

  lemma PropagateAligned(config: Config, s: State, failure: Failure)
    requires TicketsAligned(config, s) && !s.panicked && AllTruthful(s)
    ensures Aligned(config, PropagateTerminalError(s, failure)) && AllTruthful(PropagateTerminalError(s, failure))
  {}

  lemma EndTaskAligned(config: Config, s: State)
    requires !s.panicked && AllTruthful(s)
    ensures Aligned(config, EndTask(s)) && AllTruthful(EndTask(s))
  {}

  lemma EndAligned(config: Config, s: State, e: Event)
    requires Aligned(config, s) && AllTruthful(s) && Enabled(config, s, e) && EndEvent(e)
    ensures Aligned(config, Apply(config, s, e)) && AllTruthful(Apply(config, s, e))
  {
    match e
    case SubmitDone(result) => PropagateAligned(config, s.(submitFut := None), result.error);
    case DrainCommand =>
    case SendersGone => EndTaskAligned(config, FailPending(s, Dropped));
    case _ => EndTaskAligned(config, s);
  }

  lemma AfterBranchAligned(config: Config, s: State)
    requires Aligned(config, s) && AllTruthful(s) && s.phase.Running?
    ensures Aligned(config, AfterBranch(s)) && AllTruthful(AfterBranch(s))
  {}

  lemma RecvCommandAligned(config: Config, s: State)
    requires Aligned(config, s) && AllTruthful(s) && Enabled(config, s, RecvCommand)
    ensures Aligned(config, AfterRecvCommand(s)) && AllTruthful(AfterRecvCommand(s))
  {}

  lemma BranchAligned(config: Config, s: State, e: Event)
    requires Aligned(config, s) && AllTruthful(s) && Enabled(config, s, e) && BranchEvent(e)
    ensures Aligned(config, Apply(config, s, e)) && AllTruthful(Apply(config, s, e))
  {
    match e
    case RecordPermit =>
      RecordPermitAligned(config, s);
      AfterBranchAligned(config, AfterRecordPermit(s));
    case RecvCommand =>
      RecvCommandAligned(config, s);
      AfterBranchAligned(config, AfterRecvCommand(s));
    case SubmitDone(_) =>
      SubmitDoneAligned(config, s);
      AfterBranchAligned(config, AfterSubmitDone(s));
    case Claim(k) =>
      ClaimAligned(config, s, k);
      AfterBranchAligned(config, AfterClaim(s, k));
  }

  /** A step keeps the alignment, the truth of every acknowledgement, and does not panic. */
  lemma StepAligned(config: Config, s: State, e: Event)
    requires config.Valid() && Aligned(config, s) && AllTruthful(s) && Enabled(config, s, e)
    ensures Aligned(config, Apply(config, s, e)) && AllTruthful(Apply(config, s, e))
  {
    if UserEvent(e) {
      UserAligned(config, s, e);
    } else if BranchEvent(e) {
      BranchAligned(config, s, e);
    } else if EndEvent(e) {
      EndAligned(config, s, e);
    } else {
      BatcherOrLogAligned(config, s, e);
    }
  }

  lemma BatcherOrLogAligned(config: Config, s: State, e: Event)
    requires config.Valid() && Aligned(config, s) && AllTruthful(s) && Enabled(config, s, e)
    requires !UserEvent(e) && !BranchEvent(e) && !EndEvent(e)
    ensures Aligned(config, Apply(config, s, e)) && AllTruthful(Apply(config, s, e))
  {
    match e
    case BatcherTake => BatcherTakeAligned(config, s);
    case BatcherOffer => OfferAligned(config, s);
    case BatcherYield => YieldAligned(config, s);
    case LogGrows(entries) => LogGrowsAligned(config, s, entries);
    case Reply(_, _) =>
  }

  /**
    The producer's tickets are truthful: in every interleaving, a ticket that
    resolved positively reports the log position of its own record, and
    `drain(..batch_len)` was always in range.
   */
  lemma {:induction false} RunTruthful(config: Config, states: seq<State>, events: seq<Event>, k: nat)
    requires config.Valid() && IsRun(config, states, events) && k <= |events|
    ensures Aligned(config, states[k]) && AllTruthful(states[k])
  {
    if k > 0 {
      RunTruthful(config, states, events, k - 1);
      StepAligned(config, states[k - 1], events[k - 1]);
    }
  }

  // ---------- Terminal errors ----------

  /** After a terminal error every ticket that resolves reports that error. */
  ghost predicate TerminalError(s: State) {
    && (s.phase.Running? || s.phase.ClosingSession? ==> s.terminal.None?)
    && (s.phase.Draining? ==> s.terminal == Some(s.phase.failure))
    && (s.terminal.Some? ==>
          && s.mark <= |s.resolved| && !s.closeRequested
          && forall i | s.mark <= i < |s.resolved| :: s.resolved[i].outcome == Failed(s.terminal.value))
  }

  /** The ended task holds nothing; a task that left the loop holds nothing but queued commands. */
  ghost predicate PhaseHoldings(s: State) {
    match s.phase
    case Running => true
    case Draining(_) => s.stash.None? && s.pending == []
    case ClosingSession =>
      s.stash.None? && s.pending == [] && s.claimable == [] && s.submitFut.None? && s.closeRequested
    case Ended => s.cmds == [] && s.stash.None? && s.pending == [] && s.claimable == []
  }

  ghost predicate Orderly(s: State) {
    TerminalError(s) && PhaseHoldings(s)
  }

  lemma PropagateOrderly(s: State, failure: Failure)
    requires Orderly(s) && s.phase.Running?
    ensures Orderly(PropagateTerminalError(s, failure))
  {}

  lemma BatcherTakeOrderly(config: Config, s: State)
    requires Orderly(s) && Enabled(config, s, BatcherTake)
    ensures Orderly(AfterBatcherTake(config, s))
  {
    var (first, taken) := OpenBatch(s);
    PropagateOrderly(taken, Oversized(first.MeteredBytes()));
  }

  lemma EndTaskOrderly(s: State)
    requires TerminalError(s) || (s.terminal.None? && !s.phase.Draining?)
    ensures Orderly(EndTask(s))
  {}

  lemma DrainOrderly(s: State)
    requires Orderly(s) && s.cmds != [] && s.phase.Draining?
    ensures Orderly(AfterDrainCommand(s))
  {}

  lemma EndOrderly(config: Config, s: State, e: Event)
    requires Orderly(s) && Enabled(config, s, e) && EndEvent(e)
    ensures Orderly(Apply(config, s, e))
  {
    match e
    case SubmitDone(result) => PropagateOrderly(s.(submitFut := None), result.error);
    case DrainCommand => DrainOrderly(s);
    case SendersGone => EndTaskOrderly(FailPending(s, Dropped));
    case _ => EndTaskOrderly(s);
  }

  lemma BranchOrderly(config: Config, s: State, e: Event)
    requires Orderly(s) && Enabled(config, s, e) && BranchEvent(e)
    ensures Orderly(Apply(config, s, e))
  {}

  lemma StepOrderly(config: Config, s: State, e: Event)
    requires Orderly(s) && Enabled(config, s, e)
    ensures Orderly(Apply(config, s, e))
  {
    if EndEvent(e) {
      EndOrderly(config, s, e);
    } else if BranchEvent(e) {
      BranchOrderly(config, s, e);
    } else if e.BatcherTake? {
      BatcherTakeOrderly(config, s);
    }
  }

  lemma {:induction false} RunOrderly(config: Config, states: seq<State>, events: seq<Event>, k: nat)
    requires IsRun(config, states, events) && k <= |events|
    ensures Orderly(states[k])
  {
    if k > 0 {
      RunOrderly(config, states, events, k - 1);
      StepOrderly(config, states[k - 1], events[k - 1]);
    }
  }

  /** Every ticket handed out is resolved exactly once when the task has ended. */
  lemma EndedResolvesAll(config: Config, states: seq<State>, events: seq<Event>, k: nat, id: nat)
    requires IsRun(config, states, events) && k <= |events| && states[k].phase.Ended? && id < states[k].issued
    ensures exists i | 0 <= i < |states[k].resolved| :: states[k].resolved[i].record.id == id
    ensures forall i, j | 0 <= i < |states[k].resolved| && 0 <= j < |states[k].resolved| ::
              states[k].resolved[i].record.id == id == states[k].resolved[j].record.id ==> i == j
  {
    var s := states[k];
    RunOrderly(config, states, events, k);
    RunConserves(config, states, events, k, id);
    CountedSomewhere(s.resolved, id);
    forall i, j
      | 0 <= i < |s.resolved| && 0 <= j < |s.resolved| && s.resolved[i].record.id == id == s.resolved[j].record.id
      ensures i == j
    {
      ResolvedAtMostOnce(s, i, j);
    }
  }

  /**
    A terminal error reaches every outstanding ticket: once the task has ended,
    a ticket that was not resolved when the error was recorded has resolved to
    it, also when its sender was merely dropped.
   */
  lemma TerminalErrorReachesAll(config: Config, states: seq<State>, events: seq<Event>, k: nat, id: nat)
    requires IsRun(config, states, events) && k <= |events| && id < states[k].issued
    requires states[k].phase.Ended? && states[k].terminal.Some?
    ensures states[k].mark <= |states[k].resolved|
    ensures (exists i | 0 <= i < states[k].mark :: states[k].resolved[i].record.id == id)
         || (exists i | states[k].mark <= i < |states[k].resolved| ::
               states[k].resolved[i] == Resolution(states[k].resolved[i].record, Failed(states[k].terminal.value))
               && states[k].resolved[i].record.id == id)
  {
    RunOrderly(config, states, events, k);
    EndedResolvesAll(config, states, events, k, id);
    var i :| 0 <= i < |states[k].resolved| && states[k].resolved[i].record.id == id;
    if i >= states[k].mark {
      assert states[k].resolved[i].outcome == Failed(states[k].terminal.value);
    }
  }

  // ---------- Closing ----------

  predicate LateSubmit(cmd: Command, n: nat) {
    cmd.Submit? && cmd.submission.record.id >= n
  }

  /** Behind the close command, and once it was received, only tickets handed out after it are queued. */
  ghost predicate QueueOrder(s: State) {
    && (s.closeAt.Some? ==> s.closeAt.value <= s.issued)
    && (s.closeRequested ==> s.closeAt.Some? && forall j | 0 <= j < |s.cmds| :: LateSubmit(s.cmds[j], s.closeAt.value))
    && (forall i | 0 <= i < |s.cmds| && s.cmds[i].Close? ::
          s.closeAt.Some? && forall j | i < j < |s.cmds| :: LateSubmit(s.cmds[j], s.closeAt.value))
  }

  /** While the loop runs, no ticket handed out before the close was rejected or dropped. */
  ghost predicate AnsweredInOrder(s: State) {
    s.phase.Running? || s.phase.ClosingSession? ==>
      forall i | 0 <= i < |s.resolved| :: AnsweredProperly(s.closeAt, s.resolved[i])
  }

  ghost predicate AnsweredProperly(closeAt: Option<nat>, r: Resolution) {
    match r.outcome
    case Acked(_, _) => true
    case Failed(Session(_)) => true
    case Failed(Closing) => closeAt.Some? && r.record.id >= closeAt.value
    case _ => false
  }

  ghost predicate RepliesFromSession(s: State) {
    forall k | 0 <= k < |s.claimable| ::
      match s.claimable[k].reply
      case Some(Err(failure)) => failure.Session?
      case _ => true
  }

  ghost predicate CloseOrder(s: State) {
    QueueOrder(s) && AnsweredInOrder(s) && RepliesFromSession(s)
  }

  lemma UserCloseOrder(config: Config, s: State, e: Event)
    requires CloseOrder(s) && Enabled(config, s, e) && UserEvent(e)
    ensures CloseOrder(Apply(config, s, e))
  {}

  lemma RecvCommandCloseOrder(s: State)
    requires CloseOrder(s) && s.cmds != []
    ensures CloseOrder(AfterRecvCommand(s))
  {}

  lemma ClaimCloseOrder(s: State, k: nat)
    requires CloseOrder(s) && k < |s.claimable| && s.claimable[k].reply.Some?
    ensures CloseOrder(AfterClaim(s, k))
  {}

  lemma BranchCloseOrder(config: Config, s: State, e: Event)
    requires CloseOrder(s) && Enabled(config, s, e) && BranchEvent(e)
    ensures CloseOrder(Apply(config, s, e))
  {
    match e
    case RecordPermit =>
    case SubmitDone(_) =>
    case RecvCommand => RecvCommandCloseOrder(s);
    case Claim(k) => ClaimCloseOrder(s, k);
  }

  lemma PropagateCloseOrder(s: State, failure: Failure)
    requires CloseOrder(s)
    ensures CloseOrder(PropagateTerminalError(s, failure))
  {}

  lemma BatcherTakeCloseOrder(config: Config, s: State)
    requires CloseOrder(s) && Enabled(config, s, BatcherTake)
    ensures CloseOrder(AfterBatcherTake(config, s))
  {
    var (first, taken) := OpenBatch(s);
    PropagateCloseOrder(taken, Oversized(first.MeteredBytes()));
  }

  /** A task that has ended has no queue and no promise about its close left to keep. */
  lemma EndTaskCloseOrder(s: State)
    requires s.closeAt.Some? ==> s.closeAt.value <= s.issued
    requires s.closeRequested ==> s.closeAt.Some?
    ensures CloseOrder(EndTask(s))
  {}

  lemma DrainCloseOrder(s: State)
    requires CloseOrder(s) && s.cmds != [] && s.phase.Draining?
    ensures CloseOrder(AfterDrainCommand(s))
  {}

  lemma EndCloseOrder(config: Config, s: State, e: Event)
    requires CloseOrder(s) && Enabled(config, s, e) && EndEvent(e)
    ensures CloseOrder(Apply(config, s, e))
  {
    match e
    case SubmitDone(result) => PropagateCloseOrder(s.(submitFut := None), result.error);
    case DrainCommand => DrainCloseOrder(s);
    case SendersGone => EndTaskCloseOrder(FailPending(s, Dropped));
    case _ => EndTaskCloseOrder(s);
  }

  lemma StepCloseOrder(config: Config, s: State, e: Event)
    requires CloseOrder(s) && Enabled(config, s, e)
    ensures CloseOrder(Apply(config, s, e))
  {
    if UserEvent(e) {
      UserCloseOrder(config, s, e);
    } else if BranchEvent(e) {
      BranchCloseOrder(config, s, e);
    } else if EndEvent(e) {
      EndCloseOrder(config, s, e);
    } else if e.BatcherTake? {
      BatcherTakeCloseOrder(config, s);
    }
  }

  lemma {:induction false} RunCloseOrder(config: Config, states: seq<State>, events: seq<Event>, k: nat)
    requires IsRun(config, states, events) && k <= |events|
    ensures CloseOrder(states[k])
  {
    if k > 0 {
      RunCloseOrder(config, states, events, k - 1);
      StepCloseOrder(config, states[k - 1], events[k - 1]);
    }
  }

  lemma {:induction false} LateSubmitsOnly(cmds: seq<Command>, n: nat, id: nat)
    requires id < n && forall j | 0 <= j < |cmds| :: LateSubmit(cmds[j], n)
    ensures Count(Submissions(cmds), id) == 0
  {
    if cmds != [] {
      PopCommand(cmds, id);
      LateSubmitsOnly(cmds[1..], n, id);
    }
  }

  /**
    `close` waits for all submitted records: when the loop ends because of a
    close, nothing is left in any buffer, and every ticket handed out before the
    close was answered by its batch, with a position or with the session's error.
   */
  lemma CloseWaitsForAll(config: Config, states: seq<State>, events: seq<Event>, k: nat, id: nat)
    requires config.Valid() && IsRun(config, states, events) && k <= |events|
    requires states[k].phase.ClosingSession?
    ensures states[k].pending == [] && states[k].claimable == [] && states[k].Pipeline() == []
    ensures states[k].closeAt.Some?
    ensures id < states[k].closeAt.value ==>
      exists i | 0 <= i < |states[k].resolved| ::
        states[k].resolved[i].record.id == id
        && (states[k].resolved[i].outcome.Acked? || states[k].resolved[i].outcome.failure.Session?)
  {
    var s := states[k];
    RunOrderly(config, states, events, k);
    RunTruthful(config, states, events, k);
    RunCloseOrder(config, states, events, k);
    RunConserves(config, states, events, k, id);
    assert |RecordsOf(s.pending)| == 0;
    if id < s.closeAt.value {
      LateSubmitsOnly(s.cmds, s.closeAt.value, id);
      CountedSomewhere(s.resolved, id);
      var i :| 0 <= i < |s.resolved| && s.resolved[i].record.id == id;
      assert AnsweredProperly(s.closeAt, s.resolved[i]);
    }
  }

  // ---------- The answer to `close` ----------

  lemma EndedStays(config: Config, s: State, e: Event)
    requires Enabled(config, s, e) && s.phase.Ended?
    ensures var next := Apply(config, s, e);
            && next.phase.Ended? && |s.resolved| <= |next.resolved|
            && next.closeReply == s.closeReply && next.closeAt == s.closeAt
            && forall i | 0 <= i < |s.resolved| :: next.resolved[i] == s.resolved[i]
  {}

  lemma OnlySessionCloseSaysOk(config: Config, s: State, e: Event)
    requires Enabled(config, s, e) && Apply(config, s, e).closeReply == Some(Ok(()))
    ensures s.closeReply == Some(Ok(())) || e == SessionClosed(Ok(()))
  {}

  /** If `close` reports success, every ticket handed out before it resolved to the position of its record. */
  lemma {:induction false} CloseOkMeansAllAcked(
    config: Config, states: seq<State>, events: seq<Event>, k: nat, id: nat)
    returns (i: nat)
    requires config.Valid() && IsRun(config, states, events) && k <= |events|
    requires states[k].closeReply == Some(Ok(()))
    ensures states[k].closeAt.Some? && states[k].phase.Ended?
    ensures id < states[k].closeAt.value ==>
      && i < |states[k].resolved| && states[k].resolved[i].record.id == id
      && states[k].resolved[i].outcome.Acked? && Truthful(states[k].log, states[k].resolved[i])
  {
    i := 0;
    var s, e := states[k - 1], events[k - 1];
    OnlySessionCloseSaysOk(config, s, e);
    RunTruthful(config, states, events, k);
    if s.closeReply == Some(Ok(())) {
      i := CloseOkMeansAllAcked(config, states, events, k - 1, id);
      EndedStays(config, s, e);
    } else {
      CloseWaitsForAll(config, states, events, k - 1, id);
      if id < s.closeAt.value {
        i :| 0 <= i < |s.resolved| && s.resolved[i].record.id == id
             && (s.resolved[i].outcome.Acked? || s.resolved[i].outcome.failure.Session?);
      }
    }
  }
}
