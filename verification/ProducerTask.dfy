/**
  The producer's task with its mutable state: the body of each `select!` branch
  and the loop around them (s2-sdk/src/producer.rs:225-356, 435-476). Every
  method is proved to do what the protocol's step does.
 */
module ProducerTask {
  import opened Wrappers
  import opened Records
  import opened Batching
  import opened ProducerProtocol
  import opened ProducerAcks

  class Task {
    const config: Config
    // The task's locals.
    var pendingAcks: seq<Submission>
    var claimableTickets: seq<Ticket>
    var closeTx: bool
    var stashedSubmission: Option<Submission>
    var submitFut: Option<AppendRecordBatch>
    var submitBatchLen: Option<nat>
    var batcher: Batcher
    // What it shares with its surroundings.
    var cmdQueue: seq<Command>
    var recordQueue: seq<AppendRecord>
    var terminalErr: Option<Failure>
    var closeReply: Option<Result<(), Failure>>
    var freeBytes: nat
    var sent: seq<Resolution>
    var phase: Phase
    // What only its surroundings know.
    var issued: nat
    var closeAt: Option<nat>
    var reserved: seq<nat>
    var mark: nat
    var panicked: bool
    var log: seq<LogEntry>

    ghost function View(): State
      reads this
    {
      State(issued, closeAt, freeBytes, reserved, cmdQueue, stashedSubmission, pendingAcks, recordQueue, batcher,
            submitFut, submitBatchLen, claimableTickets, closeTx, terminalErr, mark, closeReply, phase, panicked,
            sent, log)
    }

    constructor (config: Config)
      ensures this.config == config && View() == Init(config)
    {
      this.config := config;
      pendingAcks, claimableTickets, closeTx, stashedSubmission := [], [], false, None;
      submitFut, submitBatchLen, batcher := None, None, EMPTY_BATCHER;
      cmdQueue, recordQueue, terminalErr, freeBytes, sent, phase := [], [], None, config.maxUnackedBytes, [], Running;
      issued, closeAt, reserved, mark, closeReply, panicked, log := 0, None, [], 0, None, false, [];
    }

    /** Answers one submission and gives its byte permits back. */
    method Answer(submission: Submission, outcome: Outcome)
      modifies this`sent, this`freeBytes
      ensures sent == old(sent) + [Resolution(submission.record, outcome)]
      ensures freeBytes == old(freeBytes) + submission.permit
    {
      sent := sent + [Resolution(submission.record, outcome)];
      freeBytes := freeBytes + submission.permit;
    }

    method FailEach(acks: seq<Submission>, failure: Failure)
      modifies this`sent, this`freeBytes
      ensures sent == old(sent) + FailAll(acks, failure)
      ensures freeBytes == old(freeBytes) + Permits(acks)
    {
      for i := 0 to |acks|
        invariant sent == old(sent) + FailAll(acks, failure)[..i]
        invariant freeBytes + Permits(acks[i..]) == old(freeBytes) + Permits(acks)
      {
        assert acks[i..][0] == acks[i] && acks[i..][1..] == acks[i + 1..];
        Answer(acks[i], Failed(failure));
      }
      assert FailAll(acks, failure)[..|acks|] == FailAll(acks, failure);
    }

    method Dispatch(reply: Result<nat, Failure>, acks: seq<Submission>)
      modifies this`sent, this`freeBytes
      ensures sent == old(sent) + DispatchAcks(reply, acks)
      ensures freeBytes == old(freeBytes) + Permits(acks)
    {
      match reply
      case Err(failure) => FailEach(acks, failure);
      case Ok(start) =>
        for offset := 0 to |acks|
          invariant sent == old(sent) + DispatchAcks(reply, acks)[..offset]
          invariant freeBytes + Permits(acks[offset..]) == old(freeBytes) + Permits(acks)
        {
          assert acks[offset..][0] == acks[offset] && acks[offset..][1..] == acks[offset + 1..];
          Answer(acks[offset], Acked(start + offset, start));
        }
        assert DispatchAcks(reply, acks)[..|acks|] == DispatchAcks(reply, acks);
    }

    /** The check at the end of the loop body. */
    method CheckExit()
      modifies this`phase
      ensures View() == AfterBranch(old(View()))
    {
      if closeTx && pendingAcks == [] && claimableTickets == [] && stashedSubmission.None? && submitFut.None? {
        phase := ClosingSession;
      }
    }

    method OnRecordPermit()
      requires stashedSubmission.Some?
      modifies this
      ensures View() == AfterBranch(AfterRecordPermit(old(View())))
    {
      var submission := stashedSubmission.value;
      stashedSubmission := None;
      pendingAcks := pendingAcks + [submission];
      recordQueue := recordQueue + [submission.record];
      assert View() == AfterRecordPermit(old(View()));
      CheckExit();
    }

    method OnCommand()
      requires cmdQueue != []
      modifies this
      ensures View() == AfterBranch(AfterRecvCommand(old(View())))
    {
      Receive();
      CheckExit();
    }

    method Receive()
      requires cmdQueue != []
      modifies this
      ensures View() == AfterRecvCommand(old(View()))
    {
      var cmd := cmdQueue[0];
      cmdQueue := cmdQueue[1..];
      match cmd
      case Close => closeTx := true;
      case Submit(submission) =>
        if closeTx {
          Answer(submission, Failed(Closing));
        } else {
          stashedSubmission := Some(submission);
        }
    }

    method FailPendingAcks(failure: Failure)
      modifies this
      ensures View() == FailPending(old(View()), failure)
    {
      FailEach(pendingAcks, failure);
      pendingAcks := [];
    }

    method FailStashedSubmission(failure: Failure)
      modifies this
      ensures View() == FailStashed(old(View()), failure)
    {
      if stashedSubmission.Some? {
        Answer(stashedSubmission.value, Failed(failure));
        stashedSubmission := None;
      }
    }

    /** The command queue reports that every sender is gone. */
    method OnSendersGone()
      modifies this
      ensures View() == EndTask(FailPending(old(View()), Dropped))
    {
      FailPendingAcks(Dropped);
      Return();
    }

    /** The batching stream takes the first record of a batch, or fails on an oversized one. */
    method OnBatcherTake()
      requires batcher.overflowed.Some? || recordQueue != []
      modifies this
      ensures View() == AfterBatcherTake(config, old(View()))
    {
      var first;
      if batcher.overflowed.Some? {
        first := batcher.overflowed.value;
      } else {
        first := recordQueue[0];
        recordQueue := recordQueue[1..];
      }
      batcher := Batcher(batcher.batch.Push(first), None);
      if config.batching.IsOversized(first) {
        Propagate(Oversized(first.MeteredBytes()));
      }
    }

    method OnBatcherOffer()
      requires recordQueue != []
      modifies this
      ensures View() == AfterBatcherOffer(config, old(View()))
    {
      batcher := batcher.Offer(config.batching, recordQueue[0]);
      recordQueue := recordQueue[1..];
    }

    /** The batching stream yields its batch, and the task starts to submit it. */
    method OnInput()
      modifies this
      ensures View() == AfterBranch(AfterBatcherYield(old(View())))
    {
      submitBatchLen := Some(|batcher.batch.records|);
      submitFut := Some(batcher.batch);
      batcher := batcher.(batch := EMPTY_BATCH);
      assert View() == AfterBatcherYield(old(View()));
      CheckExit();
    }

    method OnSubmitDone(result: Result<(), Failure>)
      requires submitFut.Some? && phase.Running? && Aligned(config, View())
      modifies this
      ensures View() == if result.Err? then PropagateTerminalError(old(View()).(submitFut := None), result.error)
                        else AfterBranch(AfterSubmitDone(old(View())))
    {
      if result.Err? {
        submitFut := None;
        Propagate(result.error);
      } else {
        OnSubmitted();
      }
    }

    /** The session took the batch; the drain is in range because the acknowledgements are aligned. */
    method OnSubmitted()
      requires submitFut.Some? && phase.Running? && Aligned(config, View())
      modifies this
      ensures View() == AfterBranch(AfterSubmitDone(old(View())))
    {
      DrainInRange(config, View());
      var batch, batchLen := submitFut.value.records, submitBatchLen.value;
      submitFut, submitBatchLen := None, None;
      claimableTickets := claimableTickets + [Ticket(batch, pendingAcks[..batchLen], None)];
      pendingAcks := pendingAcks[batchLen..];
      assert View() == AfterSubmitDone(old(View()));
      CheckExit();
    }

    method OnBatchAck(k: nat)
      requires k < |claimableTickets| && claimableTickets[k].reply.Some?
      modifies this
      ensures View() == AfterBranch(AfterClaim(old(View()), k))
    {
      var ticket := claimableTickets[k];
      claimableTickets := claimableTickets[..k] + claimableTickets[k + 1..];
      Dispatch(ticket.reply.value, ticket.acks);
      assert View() == AfterClaim(old(View()), k);
      CheckExit();
    }

    method SetTerminalError(failure: Failure)
      modifies this`mark, this`terminalErr
      ensures View() == MarkTerminal(old(View()), failure)
    {
      mark := |sent|;
      if terminalErr.None? {
        terminalErr := Some(failure);
      }
    }

    method FailWithTerminalError(failure: Failure)
      modifies this
      ensures View() == FailStashed(FailPending(MarkTerminal(old(View()), failure), failure), failure)
    {
      SetTerminalError(failure);
      FailPendingAcks(failure);
      FailStashedSubmission(failure);
    }

    method Propagate(failure: Failure)
      modifies this
      ensures View() == PropagateTerminalError(old(View()), failure)
    {
      FailWithTerminalError(failure);
      if closeTx {
        closeReply := Some(Err(failure));
      }
      closeTx := false;
      phase := Draining(failure);
    }

    /** One round of rejecting queued commands after the queue was closed. */
    method RejectCommand()
      requires cmdQueue != [] && phase.Draining?
      modifies this
      ensures View() == AfterDrainCommand(old(View()))
    {
      var cmd := cmdQueue[0];
      cmdQueue := cmdQueue[1..];
      match cmd
      case Submit(submission) => Answer(submission, Failed(phase.failure));
      case Close => closeReply := Some(Err(phase.failure));
    }

    /** The task ends: what it holds is dropped, and the dropped tickets see the terminal error, if there is one. */
    method Return()
      modifies this
      ensures View() == EndTask(old(View()))
    {
      var held := Submissions(cmdQueue) + StashSeq(stashedSubmission) + pendingAcks + ClaimableAcks(claimableTickets);
      FailEach(held, PollDropped(terminalErr));
      cmdQueue, stashedSubmission, pendingAcks, claimableTickets, phase := [], None, [], [], Ended;
    }

    /** After the loop: the caller of `close` learns how closing the session went. */
    method OnSessionClosed(result: Result<(), Failure>)
      modifies this
      ensures View() == AfterSessionClosed(old(View()), result)
    {
      Return();
      closeReply := Some(result);
    }

    /** One `select!` branch, or one move of the batching stream that a branch polls. */
    method Branch(e: Event)
      requires Enabled(config, View(), e) && Aligned(config, View())
      requires BranchEvent(e) || e.BatcherTake? || e.BatcherOffer? || e.BatcherYield?
      modifies this
      ensures View() == Apply(config, old(View()), e)
    {
      match e {
        case RecordPermit => OnRecordPermit();
        case RecvCommand => OnCommand();
        case BatcherTake => OnBatcherTake();
        case BatcherOffer => OnBatcherOffer();
        case BatcherYield => OnInput();
        case SubmitDone(result) => OnSubmitDone(result);
        case Claim(k) => OnBatchAck(k);
      }
    }

    /** One step out of the loop, or after it. */
    method End(e: Event)
      requires Enabled(config, View(), e) && Aligned(config, View()) && EndEvent(e)
      modifies this
      ensures View() == Apply(config, old(View()), e)
    {
      match e {
        case SendersGone => OnSendersGone();
        case SubmitDone(result) => OnSubmitDone(result);
        case DrainCommand => RejectCommand();
        case FinishDrain => Return();
        case SessionClosed(result) => OnSessionClosed(result);
        case Abort => Return();
      }
    }

    /** One event of the task or of its surroundings. */
    method Step(e: Event)
      requires Enabled(config, View(), e) && Aligned(config, View())
      modifies this
      ensures View() == Apply(config, old(View()), e)
    {
      if UserEvent(e) {
        User(e);
      } else if EndEvent(e) {
        End(e);
      } else if e.LogGrows? {
        log := log + e.entries;
      } else if e.Reply? {
        claimableTickets := claimableTickets[e.k := claimableTickets[e.k].(reply := Some(e.reply))];
      } else {
        Branch(e);
      }
    }

    /** A permit's `submit`: the command is queued while the queue exists, and dropped afterwards. */
    method SubmitRecord(slot: nat, record: AppendRecord)
      requires slot < |reserved|
      modifies this
      ensures View() == AfterSubmit(old(View()), slot, record)
    {
      var submission := Submission(record, reserved[slot]);
      issued, reserved := issued + 1, reserved[..slot] + reserved[slot + 1..];
      if phase.Ended? {
        Answer(submission, Failed(PollDropped(terminalErr)));
      } else {
        cmdQueue := cmdQueue + [Submit(submission)];
      }
    }

    /** What the producer's user does. */
    method User(e: Event)
      requires Enabled(config, View(), e) && UserEvent(e)
      modifies this
      ensures View() == Apply(config, old(View()), e)
    {
      match e {
        case Reserve(bytes) => freeBytes, reserved := freeBytes - bytes, reserved + [bytes];
        case ReleaseReservation(slot) =>
          freeBytes := freeBytes + reserved[slot];
          reserved := reserved[..slot] + reserved[slot + 1..];
        case SubmitReserved(slot, record) => SubmitRecord(slot, record);
        case CallClose => cmdQueue, closeAt := cmdQueue + [Close], Some(issued);
      }
    }

    /** The loop: whatever happens in whatever order, the task follows the protocol and its tickets stay truthful. */
    method Run(events: seq<Event>, ghost states: seq<State>)
      requires config.Valid() && View() == Init(config) && IsRun(config, states, events)
      modifies this
      ensures View() == states[|events|] && AllTruthful(View()) && !panicked
    {
      for i := 0 to |events|
        invariant View() == states[i]
      {
        RunTruthful(config, states, events, i);
        Step(events[i]);
      }
      RunTruthful(config, states, events, |events|);
    }
  }
}
