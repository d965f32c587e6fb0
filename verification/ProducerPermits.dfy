/** Back-pressure in the producer: byte permits on the `submit` path (s2-sdk/src/producer.rs). */
module ProducerPermits {
  import opened Wrappers
  import opened Records
  import opened ProducerProtocol
  import opened ProducerConservation
  import opened ProducerAcks

  /** A submission made through `submit` reserved the metered bytes of its record. */
  predicate Metered(submission: Submission) {
    submission.permit == submission.record.MeteredBytes()
  }

  ghost predicate AllMetered(s: State) {
    && (forall i | 0 <= i < |s.cmds| && s.cmds[i].Submit? :: Metered(s.cmds[i].submission))
    && (s.stash.Some? ==> Metered(s.stash.value))
    && (forall i | 0 <= i < |s.pending| :: Metered(s.pending[i]))
    && (forall k | 0 <= k < |s.claimable| :: TicketMetered(s.claimable[k]))
  }

  ghost predicate TicketMetered(ticket: Ticket) {
    forall i | 0 <= i < |ticket.acks| :: Metered(ticket.acks[i])
  }

  /** The run's records were all submitted through `submit`, which reserves what the record weighs. */
  ghost predicate SubmitsOnly(states: seq<State>, events: seq<Event>)
    requires |states| == |events| + 1
  {
    forall i | 0 <= i < |events| && events[i].SubmitReserved? ::
      ReservedItsBytes(states[i], events[i])
  }

  ghost predicate ReservedItsBytes(s: State, e: Event)
    requires e.SubmitReserved?
  {
    e.slot < |s.reserved| && s.reserved[e.slot] == e.record.MeteredBytes()
  }

  lemma ClaimMetered(s: State, k: nat)
    requires AllMetered(s) && k < |s.claimable| && s.claimable[k].reply.Some?
    ensures AllMetered(AfterClaim(s, k))
  {}

  lemma SubmitDoneMetered(s: State)
    requires AllMetered(s) && s.submitFut.Some?
    ensures AllMetered(AfterSubmitDone(s))
  {}

  lemma BranchMetered(config: Config, s: State, e: Event)
    requires AllMetered(s) && Enabled(config, s, e) && BranchEvent(e)
    ensures AllMetered(Apply(config, s, e))
  {
    match e
    case RecordPermit =>
    case RecvCommand =>
    case SubmitDone(_) => SubmitDoneMetered(s);
    case Claim(k) => ClaimMetered(s, k);
  }

  lemma PropagateMetered(s: State, failure: Failure)
    requires AllMetered(s)
    ensures AllMetered(PropagateTerminalError(s, failure))
  {}

  lemma BatcherTakeMetered(config: Config, s: State)
    requires AllMetered(s) && Enabled(config, s, BatcherTake)
    ensures AllMetered(AfterBatcherTake(config, s))
  {
    var (first, taken) := OpenBatch(s);
    PropagateMetered(taken, Oversized(first.MeteredBytes()));
  }

  lemma DrainMetered(s: State)
    requires AllMetered(s) && s.cmds != [] && s.phase.Draining?
    ensures AllMetered(AfterDrainCommand(s))
  {}

  lemma EndMetered(config: Config, s: State, e: Event)
    requires AllMetered(s) && Enabled(config, s, e) && EndEvent(e)
    ensures AllMetered(Apply(config, s, e))
  {
    match e
    case SubmitDone(result) => PropagateMetered(s.(submitFut := None), result.error);
    case DrainCommand => DrainMetered(s);
    case _ =>
  }

  lemma StepMetered(config: Config, s: State, e: Event)
    requires AllMetered(s) && Enabled(config, s, e) && (e.SubmitReserved? ==> ReservedItsBytes(s, e))
    ensures AllMetered(Apply(config, s, e))
  {
    if BranchEvent(e) {
      BranchMetered(config, s, e);
    } else if EndEvent(e) {
      EndMetered(config, s, e);
    } else if e.BatcherTake? {
      BatcherTakeMetered(config, s);
    }
  }

  function Bytes(acks: seq<Submission>): nat {
    if acks == [] then 0 else acks[0].record.MeteredBytes() + Bytes(acks[1..])
  }

  lemma {:induction false} PermitsAreBytes(acks: seq<Submission>)
    requires forall i | 0 <= i < |acks| :: Metered(acks[i])
    ensures Permits(acks) == Bytes(acks)
  {
    if acks != [] {
      PermitsAreBytes(acks[1..]);
    }
  }

  lemma {:induction false} QueuedMetered(cmds: seq<Command>)
    requires forall i | 0 <= i < |cmds| && cmds[i].Submit? :: Metered(cmds[i].submission)
    ensures forall i | 0 <= i < |Submissions(cmds)| :: Metered(Submissions(cmds)[i])
  {
    if cmds != [] {
      QueuedMetered(cmds[1..]);
    }
  }

  lemma {:induction false} ClaimableMetered(tickets: seq<Ticket>)
    requires forall k | 0 <= k < |tickets| :: TicketMetered(tickets[k])
    ensures forall i | 0 <= i < |ClaimableAcks(tickets)| :: Metered(ClaimableAcks(tickets)[i])
  {
    if tickets != [] {
      ClaimableMetered(tickets[1..]);
      assert TicketMetered(tickets[0]);
    }
  }

  lemma {:induction false} RunMetered(config: Config, states: seq<State>, events: seq<Event>, k: nat)
    requires IsRun(config, states, events) && SubmitsOnly(states, events) && k <= |events|
    ensures AllMetered(states[k])
  {
    if k > 0 {
      RunMetered(config, states, events, k - 1);
      StepMetered(config, states[k - 1], events[k - 1]);
    }
  }

  /**
    On the `submit` path the free permits, the open reservations and the metered
    bytes of all queued, stashed, pending and claimable records are the limit,
    so the unacknowledged records never weigh more than `max_unacked_bytes`.
   */
  lemma UnackedBytesAreBounded(config: Config, states: seq<State>, events: seq<Event>, k: nat)
    requires IsRun(config, states, events) && SubmitsOnly(states, events) && k <= |events|
    ensures states[k].free + Total(states[k].reserved) + Bytes(states[k].Held()) == config.maxUnackedBytes
    ensures config.Valid() ==>
      forall record: AppendRecord :: record.Validate().Ok? ==> record.MeteredBytes() <= config.maxUnackedBytes
  {
    RunConserves(config, states, events, k, 0);
    RunMetered(config, states, events, k);
    HeldSplits(states[k], 0);
    HeldMetered(states[k]);
    PermitsAreBytes(states[k].Held());
  }

  lemma HeldMetered(s: State)
    requires AllMetered(s)
    ensures forall i | 0 <= i < |s.Held()| :: Metered(s.Held()[i])
  {
    QueuedMetered(s.cmds);
    ClaimableMetered(s.claimable);
  }

  /** Once the task has ended and no reservation is open, all byte permits are free again, enough for any record. */
  lemma PermitsReturn(config: Config, states: seq<State>, events: seq<Event>, k: nat)
    requires config.Valid() && IsRun(config, states, events) && k <= |events|
    requires states[k].phase.Ended? && states[k].reserved == []
    ensures states[k].free == config.maxUnackedBytes
    ensures forall record: AppendRecord :: record.Validate().Ok? ==> record.MeteredBytes() <= states[k].free
  {
    RunOrderly(config, states, events, k);
    RunConserves(config, states, events, k, 0);
  }
}
