/**
  Conservation in the producer: every submission is in exactly one place and is
  resolved at most once, and byte permits are neither lost nor created
  (s2-sdk/src/producer.rs).
 */
module ProducerConservation {
  import opened Wrappers
  import opened Records
  import opened ProducerProtocol

  /** How many of the submissions carry the record `id`. */
  function Count(acks: seq<Submission>, id: nat): nat {
    if acks == [] then 0 else (if acks[0].record.id == id then 1 else 0) + Count(acks[1..], id)
  }

  /** How many of the resolutions are for the record `id`. */
  function ResolvedCount(resolutions: seq<Resolution>, id: nat): nat {
    if resolutions == [] then 0
    else (if resolutions[0].record.id == id then 1 else 0) + ResolvedCount(resolutions[1..], id)
  }

  function ClaimableCount(tickets: seq<Ticket>, id: nat): nat {
    if tickets == [] then 0 else Count(tickets[0].acks, id) + ClaimableCount(tickets[1..], id)
  }

  function ClaimablePermits(tickets: seq<Ticket>): nat {
    if tickets == [] then 0 else Permits(tickets[0].acks) + ClaimablePermits(tickets[1..])
  }

  /** The places where the task holds a submission. */
  function HeldCount(s: State, id: nat): nat {
    Count(Submissions(s.cmds), id) + Count(StashSeq(s.stash), id) + Count(s.pending, id)
    + ClaimableCount(s.claimable, id)
  }

  function HeldPermits(s: State): nat {
    Permits(Submissions(s.cmds)) + Permits(StashSeq(s.stash)) + Permits(s.pending) + ClaimablePermits(s.claimable)
  }

  /** A ticket handed out is held in one place or resolved once, never both. */
  predicate SubmissionConserved(s: State, id: nat) {
    HeldCount(s, id) + ResolvedCount(s.resolved, id) == if id < s.issued then 1 else 0
  }

  /** Free permits, reservations and permits of held submissions add up to the limit. */
  predicate PermitsConserved(config: Config, s: State) {
    s.free + Total(s.reserved) + HeldPermits(s) == config.maxUnackedBytes
  }

  predicate Conserved(config: Config, s: State, id: nat) {
    SubmissionConserved(s, id) && PermitsConserved(config, s)
  }

  // ---------- Sums over concatenations ----------

  /** Joining two places adds up what they hold. */
  lemma {:induction false} Joined(a: seq<Submission>, b: seq<Submission>, id: nat)
    ensures Count(a + b, id) == Count(a, id) + Count(b, id)
    ensures Permits(a + b) == Permits(a) + Permits(b)
  {
    if a == [] {
      assert a + b == b;
    } else {
      Joined(a[1..], b, id);
      assert (a + b)[1..] == a[1..] + b;
    }
  }

  lemma {:induction false} ResolvedJoined(a: seq<Resolution>, b: seq<Resolution>, id: nat)
    ensures ResolvedCount(a + b, id) == ResolvedCount(a, id) + ResolvedCount(b, id)
  {
    if a == [] {
      assert a + b == b;
    } else {
      ResolvedJoined(a[1..], b, id);
      assert (a + b)[1..] == a[1..] + b;
    }
  }

  lemma {:induction false} AnswersCount(acks: seq<Submission>, answers: seq<Resolution>, id: nat)
    requires |answers| == |acks| && forall i | 0 <= i < |acks| :: answers[i].record == acks[i].record
    ensures ResolvedCount(answers, id) == Count(acks, id)
  {
    if acks != [] {
      AnswersCount(acks[1..], answers[1..], id);
    }
  }

  /** Answering some submissions resolves just these. */
  lemma ResolvesItsAcks(before: seq<Resolution>, acks: seq<Submission>, answers: seq<Resolution>, id: nat)
    requires |answers| == |acks| && forall i | 0 <= i < |acks| :: answers[i].record == acks[i].record
    ensures ResolvedCount(before + answers, id) == ResolvedCount(before, id) + Count(acks, id)
  {
    ResolvedJoined(before, answers, id);
    AnswersCount(acks, answers, id);
  }

  lemma {:induction false} TotalConcat(a: seq<nat>, b: seq<nat>)
    ensures Total(a + b) == Total(a) + Total(b)
  {
    if a == [] {
      assert a + b == b;
    } else {
      TotalConcat(a[1..], b);
      assert (a + b)[1..] == a[1..] + b;
    }
  }

  lemma TotalRemove(reserved: seq<nat>, slot: nat)
    requires slot < |reserved|
    ensures Total(reserved) == reserved[slot] + Total(reserved[..slot] + reserved[slot + 1..])
  {
    TotalConcat(reserved[..slot], reserved[slot + 1..]);
    TotalConcat(reserved[..slot], reserved[slot..]);
    assert reserved[..slot] + reserved[slot..] == reserved;
  }

  /** Taking the first command from the queue takes its submission, if it is a submit. */
  lemma PopCommand(cmds: seq<Command>, id: nat)
    requires cmds != []
    ensures cmds[0].Submit? ==>
      && Count(Submissions(cmds), id)
         == (if cmds[0].submission.record.id == id then 1 else 0) + Count(Submissions(cmds[1..]), id)
      && Permits(Submissions(cmds)) == cmds[0].submission.permit + Permits(Submissions(cmds[1..]))
    ensures cmds[0].Close? ==> Submissions(cmds) == Submissions(cmds[1..])
  {
    var rest := Submissions(cmds[1..]);
    if cmds[0].Submit? {
      Joined([cmds[0].submission], rest, id);
      OneSubmission(cmds[0].submission, id);
    }
  }

  lemma {:induction false} PushCommand(cmds: seq<Command>, cmd: Command, id: nat)
    ensures Count(Submissions(cmds + [cmd]), id)
         == Count(Submissions(cmds), id) + if cmd.Submit? && cmd.submission.record.id == id then 1 else 0
    ensures Permits(Submissions(cmds + [cmd]))
         == Permits(Submissions(cmds)) + if cmd.Submit? then cmd.submission.permit else 0
  {
    PopCommand(cmds + [cmd], id);
    if cmds == [] {
      assert [] + [cmd] == [cmd] && [cmd][1..] == [];
    } else {
      PopCommand(cmds, id);
      PushCommand(cmds[1..], cmd, id);
      assert (cmds + [cmd])[1..] == cmds[1..] + [cmd];
    }
  }

  /** What the claimable tickets hold, with other tickets in the place of ticket `k`. */
  lemma {:induction false} ClaimableReplace(tickets: seq<Ticket>, k: nat, middle: seq<Ticket>, id: nat)
    requires k < |tickets|
    ensures var replaced := tickets[..k] + middle + tickets[k + 1..];
      && ClaimableCount(replaced, id) + Count(tickets[k].acks, id)
         == ClaimableCount(tickets, id) + ClaimableCount(middle, id)
      && ClaimablePermits(replaced) + Permits(tickets[k].acks)
         == ClaimablePermits(tickets) + ClaimablePermits(middle)
  {
    ClaimableConcat(tickets[..k] + middle, tickets[k + 1..], id);
    ClaimableConcat(tickets[..k], middle, id);
    ClaimableConcat(tickets[..k], tickets[k..], id);
    assert tickets[..k] + tickets[k..] == tickets && tickets[k..][1..] == tickets[k + 1..];
  }

  lemma {:induction false} ClaimableConcat(a: seq<Ticket>, b: seq<Ticket>, id: nat)
    ensures ClaimableCount(a + b, id) == ClaimableCount(a, id) + ClaimableCount(b, id)
    ensures ClaimablePermits(a + b) == ClaimablePermits(a) + ClaimablePermits(b)
  {
    if a == [] {
      assert a + b == b;
    } else {
      ClaimableConcat(a[1..], b, id);
      assert (a + b)[1..] == a[1..] + b;
    }
  }

  lemma {:induction false} ClaimableAdds(tickets: seq<Ticket>, id: nat)
    ensures Count(ClaimableAcks(tickets), id) == ClaimableCount(tickets, id)
    ensures Permits(ClaimableAcks(tickets)) == ClaimablePermits(tickets)
  {
    if tickets != [] {
      ClaimableAdds(tickets[1..], id);
      Joined(tickets[0].acks, ClaimableAcks(tickets[1..]), id);
    }
  }

  lemma OneTicket(ticket: Ticket, id: nat)
    ensures ClaimableCount([ticket], id) == Count(ticket.acks, id)
    ensures ClaimablePermits([ticket]) == Permits(ticket.acks)
  {
    assert [ticket][1..] == [];
  }

  lemma OneSubmission(submission: Submission, id: nat)
    ensures Count([submission], id) == (if submission.record.id == id then 1 else 0)
    ensures Permits([submission]) == submission.permit
  {
    assert [submission][1..] == [];
  }

  lemma HeldSplits(s: State, id: nat)
    ensures Count(s.Held(), id) == HeldCount(s, id) && Permits(s.Held()) == HeldPermits(s)
  {
    var queued, stashed, tickets := Submissions(s.cmds), StashSeq(s.stash), ClaimableAcks(s.claimable);
    Joined(queued, stashed, id);
    Joined(queued + stashed, s.pending, id);
    Joined(queued + stashed + s.pending, tickets, id);
    ClaimableAdds(s.claimable, id);
  }

  // ---------- Every step conserves ----------

  /** Dropping or failing everything that is held resolves everything. */
  lemma EndTaskConserves(config: Config, s: State, id: nat)
    requires Conserved(config, s, id)
    ensures Conserved(config, EndTask(s), id) && HeldCount(EndTask(s), id) == 0
  {
    HeldSplits(s, id);
    ResolvesItsAcks(s.resolved, s.Held(), FailAll(s.Held(), PollDropped(s.terminal)), id);
  }

  lemma FailPendingConserves(config: Config, s: State, failure: Failure, id: nat)
    requires Conserved(config, s, id)
    ensures Conserved(config, FailPending(s, failure), id)
  {
    ResolvesItsAcks(s.resolved, s.pending, FailAll(s.pending, failure), id);
  }

  lemma FailStashedConserves(config: Config, s: State, failure: Failure, id: nat)
    requires Conserved(config, s, id)
    ensures Conserved(config, FailStashed(s, failure), id)
  {
    if s.stash.Some? {
      OneSubmission(s.stash.value, id);
      ResolvesItsAcks(s.resolved, [s.stash.value], [Resolution(s.stash.value.record, Failed(failure))], id);
    }
  }

  lemma PropagateConserves(config: Config, s: State, failure: Failure, id: nat)
    requires Conserved(config, s, id)
    ensures Conserved(config, PropagateTerminalError(s, failure), id)
  {
    var marked := MarkTerminal(s, failure);
    FailPendingConserves(config, marked, failure, id);
    FailStashedConserves(config, FailPending(marked, failure), failure, id);
  }

  lemma SubmitConserves(config: Config, s: State, slot: nat, record: AppendRecord, id: nat)
    requires Conserved(config, s, id) && slot < |s.reserved| && record.id == s.issued
    ensures Conserved(config, AfterSubmit(s, slot, record), id)
  {
    var submission := Submission(record, s.reserved[slot]);
    TotalRemove(s.reserved, slot);
    if s.phase.Ended? {
      OneSubmission(submission, id);
      ResolvesItsAcks(s.resolved, [submission], [Resolution(record, Failed(PollDropped(s.terminal)))], id);
    } else {
      PushCommand(s.cmds, Submit(submission), id);
    }
  }

  lemma UserConserves(config: Config, s: State, e: Event, id: nat)
    requires Conserved(config, s, id) && Enabled(config, s, e)
    requires UserEvent(e)
    ensures Conserved(config, Apply(config, s, e), id)
  {
    match e
    case Reserve(bytes) => TotalConcat(s.reserved, [bytes]);
    case ReleaseReservation(slot) => TotalRemove(s.reserved, slot);
    case CallClose => PushCommand(s.cmds, Close, id);
    case SubmitReserved(slot, record) => SubmitConserves(config, s, slot, record, id);
  }

  lemma RecordPermitConserves(config: Config, s: State, id: nat)
    requires Conserved(config, s, id) && s.stash.Some?
    ensures Conserved(config, AfterRecordPermit(s), id)
  {
    Joined(s.pending, [s.stash.value], id);
  }

  lemma RecvCommandConserves(config: Config, s: State, id: nat)
    requires Conserved(config, s, id) && s.cmds != [] && s.stash.None?
    ensures Conserved(config, AfterRecvCommand(s), id)
  {
    PopCommand(s.cmds, id);
    if s.cmds[0].Submit? {
      var submission := s.cmds[0].submission;
      OneSubmission(submission, id);
      ResolvesItsAcks(s.resolved, [submission], [Resolution(submission.record, Failed(Closing))], id);
    }
  }

  lemma DrainCommandConserves(config: Config, s: State, id: nat)
    requires Conserved(config, s, id) && s.cmds != [] && s.phase.Draining?
    ensures Conserved(config, AfterDrainCommand(s), id)
  {
    PopCommand(s.cmds, id);
    if s.cmds[0].Submit? {
      var submission := s.cmds[0].submission;
      OneSubmission(submission, id);
      ResolvesItsAcks(s.resolved, [submission], [Resolution(submission.record, Failed(s.phase.failure))], id);
    }
  }

  lemma DrainToTicket(pending: seq<Submission>, len: nat, tickets: seq<Ticket>, ticket: Ticket, id: nat)
    requires len <= |pending| && ticket.acks == pending[..len]
    ensures Count(pending[len..], id) + ClaimableCount(tickets + [ticket], id)
         == Count(pending, id) + ClaimableCount(tickets, id)
    ensures Permits(pending[len..]) + ClaimablePermits(tickets + [ticket])
         == Permits(pending) + ClaimablePermits(tickets)
  {
    ClaimableConcat(tickets, [ticket], id);
    OneTicket(ticket, id);
    Joined(pending[..len], pending[len..], id);
    assert pending[..len] + pending[len..] == pending;
  }

  lemma SubmitDoneConserves(config: Config, s: State, id: nat)
    requires Conserved(config, s, id) && s.submitFut.Some?
    ensures Conserved(config, AfterSubmitDone(s), id)
  {
    if s.submitBatchLen.Some? && s.submitBatchLen.value <= |s.pending| {
      var len := s.submitBatchLen.value;
      DrainToTicket(s.pending, len, s.claimable, Ticket(s.submitFut.value.records, s.pending[..len], None), id);
    }
  }

  lemma ClaimConserves(config: Config, s: State, k: nat, id: nat)
    requires Conserved(config, s, id) && k < |s.claimable| && s.claimable[k].reply.Some?
    ensures Conserved(config, AfterClaim(s, k), id)
  {
    var acks := s.claimable[k].acks;
    ClaimableReplace(s.claimable, k, [], id);
    assert s.claimable[..k] + [] + s.claimable[k + 1..] == s.claimable[..k] + s.claimable[k + 1..];
    ResolvesItsAcks(s.resolved, acks, DispatchAcks(s.claimable[k].reply.value, acks), id);
  }

  lemma ReplyConserves(config: Config, s: State, k: nat, reply: Result<nat, Failure>, id: nat)
    requires Conserved(config, s, id) && k < |s.claimable|
    ensures Conserved(config, s.(claimable := s.claimable[k := s.claimable[k].(reply := Some(reply))]), id)
  {
    var answered := s.claimable[k].(reply := Some(reply));
    ClaimableReplace(s.claimable, k, [answered], id);
    OneTicket(answered, id);
    assert s.claimable[..k] + [answered] + s.claimable[k + 1..] == s.claimable[k := answered];
  }

  lemma BatcherTakeConserves(config: Config, s: State, id: nat)
    requires Conserved(config, s, id) && (s.batcher.overflowed.Some? || s.records != [])
    ensures Conserved(config, AfterBatcherTake(config, s), id)
  {
    var (first, taken) := OpenBatch(s);
    PropagateConserves(config, taken, Oversized(first.MeteredBytes()), id);
  }

  lemma AfterBranchConserves(config: Config, s: State, id: nat)
    requires Conserved(config, s, id)
    ensures Conserved(config, AfterBranch(s), id)
  {}

  lemma BranchConserves(config: Config, s: State, e: Event, id: nat)
    requires Conserved(config, s, id) && Enabled(config, s, e)
    requires BranchEvent(e)
    ensures Conserved(config, Apply(config, s, e), id)
  {
    match e
    case RecordPermit =>
      RecordPermitConserves(config, s, id);
      AfterBranchConserves(config, AfterRecordPermit(s), id);
    case RecvCommand =>
      RecvCommandConserves(config, s, id);
      AfterBranchConserves(config, AfterRecvCommand(s), id);
    case Claim(k) =>
      ClaimConserves(config, s, k, id);
      AfterBranchConserves(config, AfterClaim(s, k), id);
    case SubmitDone(_) =>
      SubmitDoneConserves(config, s, id);
      AfterBranchConserves(config, AfterSubmitDone(s), id);
  }

  lemma EndConserves(config: Config, s: State, e: Event, id: nat)
    requires Conserved(config, s, id) && Enabled(config, s, e)
    requires EndEvent(e)
    ensures Conserved(config, Apply(config, s, e), id)
  {
    match e
    case SendersGone =>
      FailPendingConserves(config, s, Dropped, id);
      EndTaskConserves(config, FailPending(s, Dropped), id);
    case DrainCommand => DrainCommandConserves(config, s, id);
    case SubmitDone(result) => PropagateConserves(config, s.(submitFut := None), result.error, id);
    case _ => EndTaskConserves(config, s, id);
  }

  lemma StepConserves(config: Config, s: State, e: Event, id: nat)
    requires Conserved(config, s, id) && Enabled(config, s, e)
    ensures Conserved(config, Apply(config, s, e), id)
  {
    if UserEvent(e) {
      UserConserves(config, s, e, id);
    } else if BranchEvent(e) {
      BranchConserves(config, s, e, id);
    } else if EndEvent(e) {
      EndConserves(config, s, e, id);
    } else if e.BatcherTake? {
      BatcherTakeConserves(config, s, id);
    } else if e.Reply? {
      ReplyConserves(config, s, e.k, e.reply, id);
    }
  }

  /** In every reachable state submissions and byte permits are conserved. */
  lemma {:induction false} RunConserves(config: Config, states: seq<State>, events: seq<Event>, k: nat, id: nat)
    requires IsRun(config, states, events) && k <= |events|
    ensures Conserved(config, states[k], id)
  {
    if k > 0 {
      RunConserves(config, states, events, k - 1, id);
      StepConserves(config, states[k - 1], events[k - 1], id);
    }
  }

  /** A resolution is counted where it stands. */
  lemma {:induction false} CountedAt(resolutions: seq<Resolution>, i: nat, j: nat)
    requires i < |resolutions| && j < |resolutions|
    ensures ResolvedCount(resolutions, resolutions[i].record.id)
         >= if i != j && resolutions[i].record.id == resolutions[j].record.id then 2 else 1
  {
    if i > 0 && j > 0 {
      CountedAt(resolutions[1..], i - 1, j - 1);
    } else if i > 0 || j > 0 {
      var other := if i > 0 then i else j;
      CountedAt(resolutions[1..], other - 1, other - 1);
    }
  }

  /** A ticket is resolved at most once, and not while it is still held. */
  lemma ResolvedAtMostOnce(s: State, i: nat, j: nat)
    requires i < |s.resolved| && j < |s.resolved| && SubmissionConserved(s, s.resolved[i].record.id)
    ensures s.resolved[i].record.id < s.issued && HeldCount(s, s.resolved[i].record.id) == 0
    ensures s.resolved[i].record.id == s.resolved[j].record.id ==> i == j
  {
    CountedAt(s.resolved, i, j);
  }

  lemma {:induction false} CountedSomewhere(resolutions: seq<Resolution>, id: nat)
    requires ResolvedCount(resolutions, id) > 0
    ensures exists i | 0 <= i < |resolutions| :: resolutions[i].record.id == id
  {
    if resolutions[0].record.id != id {
      CountedSomewhere(resolutions[1..], id);
      var i :| 0 <= i < |resolutions[1..]| && resolutions[1..][i].record.id == id;
      assert resolutions[i + 1].record.id == id;
    }
  }
}
