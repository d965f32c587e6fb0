/** That the producer's task gets on until it closes its session (s2-sdk/src/producer.rs:245-356). */
module ProducerProgress {
  import opened Wrappers
  import opened Records
  import opened ProducerProtocol
  import opened ProducerAcks

  // ---------- Every step counts ----------

  function PhaseRank(phase: Phase): nat {
    match phase
    case Running => 3
    case Draining(_) => 2
    case ClosingSession => 1
    case Ended => 0
  }

  function Answers(tickets: seq<Ticket>, n: nat): nat
    requires n <= |tickets|
  {
    if n == 0 then 0 else Answers(tickets, n - 1) + if tickets[n - 1].reply.Some? then 1 else 2
  }

  /** Steps until nothing is left: each record has so many stations ahead of it, a submitted batch shares them. */
  function Work(s: State): nat {
    8 * |s.cmds| + (if s.stash.Some? then 7 else 0) + 6 * |s.records|
    + (if s.batcher.overflowed.Some? then 5 else 0) + 4 * |s.batcher.batch.records|
    + (if s.submitFut.Some? then 3 else 0) + Answers(s.claimable, |s.claimable|) + PhaseRank(s.phase)
  }

  predicate FromOutside(e: Event) {
    UserEvent(e) || e.LogGrows?
  }

  lemma {:induction false} AnswersOfPrefix(a: seq<Ticket>, b: seq<Ticket>, n: nat)
    requires n <= |a| && n <= |b| && forall k | 0 <= k < n :: a[k] == b[k]
    ensures Answers(a, n) == Answers(b, n)
  {
    if n > 0 {
      AnswersOfPrefix(a, b, n - 1);
    }
  }

  lemma {:induction false} AnswersWithout(a: seq<Ticket>, k: nat, n: nat)
    requires k < n <= |a| && a[k].reply.Some?
    ensures Answers(a[..k] + a[k + 1..], n - 1) == Answers(a, n) - 1
  {
    if k == n - 1 {
      AnswersOfPrefix(a[..k] + a[k + 1..], a, k);
    } else {
      AnswersWithout(a, k, n - 1);
      assert (a[..k] + a[k + 1..])[n - 2] == a[n - 1];
    }
  }

  lemma {:induction false} AnswersReply(a: seq<Ticket>, k: nat, reply: Result<nat, Failure>, n: nat)
    requires k < n <= |a| && a[k].reply.None?
    ensures Answers(a[k := a[k].(reply := Some(reply))], n) == Answers(a, n) - 1
  {
    if k == n - 1 {
      AnswersOfPrefix(a[k := a[k].(reply := Some(reply))], a, k);
    } else {
      AnswersReply(a, k, reply, n - 1);
    }
  }

  lemma BranchLeavesLess(s: State)
    requires s.phase.Running?
    ensures Work(AfterBranch(s)) <= Work(s)
  {}

  lemma SubmitDoneCounts(config: Config, s: State)
    requires Aligned(config, s) && Enabled(config, s, SubmitDone(Ok(())))
    ensures Work(AfterSubmitDone(s)) < Work(s)
  {
    SubmitDoneSplits(config, s);
    AnswersOfPrefix(s.claimable, AfterSubmitDone(s).claimable, |s.claimable|);
  }

  lemma RecordPermitCounts(s: State)
    requires s.stash.Some?
    ensures Work(AfterRecordPermit(s)) < Work(s)
  {}

  lemma RecvCommandCounts(s: State)
    requires s.cmds != [] && s.stash.None?
    ensures Work(AfterRecvCommand(s)) < Work(s)
  {}

  lemma ClaimCounts(s: State, k: nat)
    requires k < |s.claimable| && s.claimable[k].reply.Some?
    ensures Work(AfterClaim(s, k)) < Work(s)
  {
    AnswersWithout(s.claimable, k, |s.claimable|);
  }

  lemma BranchCounts(config: Config, s: State, e: Event)
    requires Aligned(config, s) && Enabled(config, s, e) && BranchEvent(e)
    ensures Work(Apply(config, s, e)) < Work(s)
  {
    match e
    case RecordPermit =>
      RecordPermitCounts(s);
      BranchLeavesLess(AfterRecordPermit(s));
    case RecvCommand =>
      RecvCommandCounts(s);
      BranchLeavesLess(AfterRecvCommand(s));
    case SubmitDone(_) =>
      SubmitDoneCounts(config, s);
      BranchLeavesLess(AfterSubmitDone(s));
    case Claim(k) =>
      ClaimCounts(s, k);
      BranchLeavesLess(AfterClaim(s, k));
  }

  lemma PropagateCounts(s: State, failure: Failure)
    requires s.phase.Running?
    ensures Work(PropagateTerminalError(s, failure)) < Work(s)
  {}

  lemma EndTaskCounts(s: State)
    requires !s.phase.Ended?
    ensures Work(EndTask(s)) < Work(s)
  {
    assert Answers([], 0) == 0;
  }

  lemma DrainCounts(s: State)
    requires s.phase.Draining? && s.cmds != []
    ensures Work(AfterDrainCommand(s)) < Work(s)
  {}

  lemma SendersGoneCounts(s: State)
    requires s.phase.Running?
    ensures Work(EndTask(FailPending(s, Dropped))) < Work(s)
  {
    EndTaskCounts(FailPending(s, Dropped));
  }

  lemma EndCounts(config: Config, s: State, e: Event)
    requires Enabled(config, s, e) && EndEvent(e)
    ensures Work(Apply(config, s, e)) < Work(s)
  {
    match e
    case SubmitDone(result) => PropagateCounts(s.(submitFut := None), result.error);
    case DrainCommand => DrainCounts(s);
    case SendersGone => SendersGoneCounts(s);
    case SessionClosed(_) => EndTaskCounts(s);
    case FinishDrain => EndTaskCounts(s);
    case Abort => EndTaskCounts(s);
  }

  lemma OpenedCounts(s: State)
    requires s.batcher.batch.records == [] && (s.batcher.overflowed.Some? || s.records != [])
    ensures Work(OpenBatch(s).1) < Work(s) && OpenBatch(s).1.phase == s.phase
  {}

  lemma BatcherCounts(config: Config, s: State, e: Event)
    requires Aligned(config, s) && Enabled(config, s, e) && (e.BatcherTake? || e.BatcherOffer? || e.BatcherYield?)
    ensures Work(Apply(config, s, e)) < Work(s)
  {
    if e.BatcherTake? {
      OpenedCounts(s);
      var (first, taken) := OpenBatch(s);
      PropagateCounts(taken, Oversized(first.MeteredBytes()));
    } else if e.BatcherYield? {
      BranchLeavesLess(AfterBatcherYield(s));
    }
  }

  /** Every step of the task, and every answer of the session, brings the task closer to its end. */
  lemma EveryStepCounts(config: Config, s: State, e: Event)
    requires Aligned(config, s) && Enabled(config, s, e) && !FromOutside(e)
    ensures Work(Apply(config, s, e)) < Work(s)
  {
    if BranchEvent(e) {
      BranchCounts(config, s, e);
    } else if EndEvent(e) {
      EndCounts(config, s, e);
    } else if e.Reply? {
      AnswersReply(s.claimable, e.k, e.reply, |s.claimable|);
    } else {
      BatcherCounts(config, s, e);
    }
  }

  lemma RunStepCounts(config: Config, states: seq<State>, events: seq<Event>, k: nat)
    requires config.Valid() && IsRun(config, states, events) && k < |events| && !FromOutside(events[k])
    ensures Work(states[k + 1]) < Work(states[k])
  {
    RunTruthful(config, states, events, k);
    EveryStepCounts(config, states[k], events[k]);
  }

  /** Without new calls, a run makes at most as many more steps as there is work. */
  lemma {:induction false} StepsAreBounded(config: Config, states: seq<State>, events: seq<Event>, k: nat, n: nat)
    requires config.Valid() && IsRun(config, states, events) && k <= n <= |events|
    requires forall i | k <= i < n :: !FromOutside(events[i])
    ensures n - k <= Work(states[k]) - Work(states[n])
  {
    if k < n {
      StepsAreBounded(config, states, events, k, n - 1);
      RunStepCounts(config, states, events, n - 1);
    }
  }

  // ---------- Some step is possible ----------

  /** As long as the loop runs a close is remembered, and the loop's exit was not missed. */
  ghost predicate CloseKept(s: State) {
    s.phase.Running? ==>
      && (s.closeAt.Some? ==> s.closeRequested || Close in s.cmds)
      && (s.closeRequested ==> s.pending != [] || s.claimable != [] || s.stash.Some? || s.submitFut.Some?)
  }

  lemma BranchKeepsClose(s: State)
    requires s.phase.Running? && (s.closeAt.Some? ==> s.closeRequested || Close in s.cmds)
    ensures CloseKept(AfterBranch(s))
  {}

  lemma RecvKeepsClose(s: State)
    requires CloseKept(s) && s.phase.Running? && s.cmds != []
    ensures var next := AfterRecvCommand(s); next.closeAt.Some? ==> next.closeRequested || Close in next.cmds
  {
    assert Close in s.cmds ==> s.cmds[0] == Close || Close in s.cmds[1..];
  }

  lemma CloseKeptStep(config: Config, s: State, e: Event)
    requires CloseKept(s) && Enabled(config, s, e)
    ensures CloseKept(Apply(config, s, e))
  {
    match e
    case RecordPermit => BranchKeepsClose(AfterRecordPermit(s));
    case RecvCommand =>
      RecvKeepsClose(s);
      BranchKeepsClose(AfterRecvCommand(s));
    case BatcherYield => BranchKeepsClose(AfterBatcherYield(s));
    case SubmitDone(result) =>
      if result.Ok? {
        BranchKeepsClose(AfterSubmitDone(s));
      }
    case Claim(k) => BranchKeepsClose(AfterClaim(s, k));
    case CallClose =>
    case SubmitReserved(_, _) =>
    case _ =>
  }

  lemma {:induction false} RunKeepsClose(config: Config, states: seq<State>, events: seq<Event>, k: nat)
    requires IsRun(config, states, events) && k <= |events|
    ensures CloseKept(states[k])
  {
    if k > 0 {
      RunKeepsClose(config, states, events, k - 1);
      CloseKeptStep(config, states[k - 1], events[k - 1]);
    }
  }

  /** Work of the task's own, the batcher's, or an answer of the session. */
  predicate Advances(e: Event) {
    e.RecordPermit? || e.RecvCommand? || e.BatcherTake? || e.BatcherYield? || e.SubmitDone? || e.Claim? || e.Reply?
    || e.DrainCommand? || e.FinishDrain?
  }

  lemma BatcherAdvances(config: Config, s: State) returns (e: Event)
    requires s.phase.Running? && (s.submitFut.Some? || s.batcher.Held() != [] || s.records != [])
    ensures Advances(e) && Enabled(config, s, e)
  {
    if s.submitFut.Some? {
      e := SubmitDone(Ok(()));
    } else if s.batcher.batch.records != [] {
      e := BatcherYield;
    } else {
      e := BatcherTake;
    }
  }

  lemma TicketAdvances(config: Config, s: State) returns (e: Event)
    requires s.phase.Running? && s.claimable != []
    ensures Advances(e) && Enabled(config, s, e)
  {
    e := if s.claimable[0].reply.Some? then Claim(0) else Reply(0, Err(Session(0)));
  }

  /**
    Once `close` was called, the task can get on, or wait for an answer of the session, until it closes the session or
    ends; only a reservation still held may keep a failed task from ending.
   */
  lemma NeverStuck(config: Config, states: seq<State>, events: seq<Event>, k: nat) returns (e: Event)
    requires config.Valid() && IsRun(config, states, events) && k <= |events|
    requires states[k].closeAt.Some? && (states[k].phase.Running? || states[k].phase.Draining?)
    requires states[k].phase.Draining? ==> states[k].reserved == []
    ensures Advances(e) && Enabled(config, states[k], e)
  {
    RunKeepsClose(config, states, events, k);
    RunTruthful(config, states, events, k);
    var s := states[k];
    if s.phase.Draining? {
      e := if s.cmds != [] then DrainCommand else FinishDrain;
    } else if s.stash.Some? && |s.records| < RECORD_BATCH_MAX_COUNT {
      e := RecordPermit;
    } else if s.stash.None? && s.cmds != [] {
      e := RecvCommand;
    } else if s.submitFut.Some? || s.batcher.Held() != [] || s.records != [] {
      e := BatcherAdvances(config, s);
    } else {
      assert s.Pipeline() == [] && |RecordsOf(s.pending)| == 0;
      e := TicketAdvances(config, s);
    }
  }

  /** The only way to be stuck after an error is a reservation that its owner neither uses nor gives up. */
  lemma DrainWaitsForReservations(config: Config, s: State)
    requires s.phase.Draining?
    ensures (exists e | Advances(e) :: Enabled(config, s, e) && !e.Reply?) <==> s.cmds != [] || s.reserved == []
  {
    if s.cmds != [] {
      assert Enabled(config, s, DrainCommand) && Advances(DrainCommand);
    } else if s.reserved == [] {
      assert Enabled(config, s, FinishDrain) && Advances(FinishDrain);
    }
  }
}
