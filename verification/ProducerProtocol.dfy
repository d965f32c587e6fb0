/**
  The producer's event loop as a state machine (s2-sdk/src/producer.rs).

  One event is one `select!` branch, one move of the batching stream that a
  branch polls, one call of the producer's user, or one move of the environment:
  the log grows, or the append session answers a ticket. The environment's
  contract is that an acknowledgement's `start` is where the batch is in the log
  (s2-sdk/src/types.rs:1586-1599), which PipelineLinks proves of the session; other writers append whenever they like.
 */
module ProducerProtocol {
  import opened Wrappers
  import opened Records
  import opened Batching

  datatype Failure = Closing | Dropped | Session(code: nat) | Oversized(meteredBytes: nat)

  datatype Outcome = Acked(seqNum: nat, start: nat) | Failed(failure: Failure)

  /** What one record's ticket resolved to. */
  datatype Resolution = Resolution(record: AppendRecord, outcome: Outcome)

  /** A record's acknowledgement sender together with the byte permit that it holds. */
  datatype Submission = Submission(record: AppendRecord, permit: nat)

  datatype Command = Submit(submission: Submission) | Close

  datatype LogEntry = Own(record: AppendRecord) | Foreign

  /** A submitted batch, the acknowledgements waiting for it, and the session's answer once there is one. */
  datatype Ticket = Ticket(batch: seq<AppendRecord>, acks: seq<Submission>, reply: Option<Result<nat, Failure>>)

  datatype Phase = Running | Draining(failure: Failure) | ClosingSession | Ended

  datatype Config = Config(maxUnackedBytes: nat, batching: BatchingConfig) {
    predicate Valid() {
      ONE_MIB <= maxUnackedBytes && batching.Valid()
    }
  }

  datatype State = State(
    issued: nat,                          // tickets handed out so far
    closeAt: Option<nat>,                 // tickets handed out when `close` was called
    free: nat,                            // byte permits not taken
    reserved: seq<nat>,                   // byte permits of reservations not yet used
    cmds: seq<Command>,
    stash: Option<Submission>,
    pending: seq<Submission>,
    records: seq<AppendRecord>,           // the record channel
    batcher: Batcher,
    submitFut: Option<AppendRecordBatch>, // the batch that the in-flight submit carries
    submitBatchLen: Option<nat>,
    claimable: seq<Ticket>,
    closeRequested: bool,                 // close_tx.is_some()
    terminal: Option<Failure>,
    mark: nat,                            // tickets resolved when the terminal error was set
    closeReply: Option<Result<(), Failure>>, // what the caller of `close` was sent, if anything
    phase: Phase,
    panicked: bool,
    resolved: seq<Resolution>,            // in the order of resolution
    log: seq<LogEntry>)
  {
    /** The records that have left the stash and are not yet in a claimable ticket, in order. */
    function Pipeline(): seq<AppendRecord> {
      (if submitFut.Some? then submitFut.value.records else []) + batcher.Held() + records
    }

    /** Every submission the task holds. */
    function Held(): seq<Submission> {
      Submissions(cmds) + StashSeq(stash) + pending + ClaimableAcks(claimable)
    }
  }

  function Init(config: Config): State {
    State(0, None, config.maxUnackedBytes, [], [], None, [], [], EMPTY_BATCHER, None, None, [],
          false, None, 0, None, Running, false, [], [])
  }

  function Submissions(cmds: seq<Command>): seq<Submission> {
    if cmds == [] then []
    else (if cmds[0].Submit? then [cmds[0].submission] else []) + Submissions(cmds[1..])
  }

  function ClaimableAcks(tickets: seq<Ticket>): seq<Submission> {
    if tickets == [] then [] else tickets[0].acks + ClaimableAcks(tickets[1..])
  }

  function RecordsOf(acks: seq<Submission>): (records: seq<AppendRecord>)
    ensures |records| == |acks| && forall i | 0 <= i < |acks| :: records[i] == acks[i].record
  {
    seq(|acks|, i requires 0 <= i < |acks| => acks[i].record)
  }

  function Permits(acks: seq<Submission>): nat {
    if acks == [] then 0 else acks[0].permit + Permits(acks[1..])
  }

  function Total(reserved: seq<nat>): nat {
    if reserved == [] then 0 else reserved[0] + Total(reserved[1..])
  }

  function FailAll(acks: seq<Submission>, failure: Failure): (resolutions: seq<Resolution>)
    ensures |resolutions| == |acks|
    ensures forall i | 0 <= i < |acks| :: resolutions[i] == Resolution(acks[i].record, Failed(failure))
  {
    seq(|acks|, i requires 0 <= i < |acks| => Resolution(acks[i].record, Failed(failure)))
  }

  /** dispatch_acks: the record at `offset` in the batch is at `start + offset` in the log. */
  function DispatchAcks(reply: Result<nat, Failure>, acks: seq<Submission>): (resolutions: seq<Resolution>)
    ensures |resolutions| == |acks|
    ensures forall i | 0 <= i < |acks| :: resolutions[i].record == acks[i].record
  {
    match reply
    case Ok(start) => seq(|acks|, i requires 0 <= i < |acks| => Resolution(acks[i].record, Acked(start + i, start)))
    case Err(failure) => FailAll(acks, failure)
  }

  /** What a ticket reports when its sender was dropped without an answer. */
  function PollDropped(terminal: Option<Failure>): Failure {
    if terminal.Some? then terminal.value else Dropped
  }

  ghost predicate LogHolds(log: seq<LogEntry>, start: nat, batch: seq<AppendRecord>) {
    start + |batch| <= |log| && forall i | 0 <= i < |batch| :: log[start + i] == Own(batch[i])
  }

  /** A session that closes without an error has answered no ticket with an error before. */
  ghost predicate NoneFailedInSession(resolved: seq<Resolution>) {
    forall i | 0 <= i < |resolved| :: resolved[i].outcome.Failed? ==> !resolved[i].outcome.failure.Session?
  }

  // ---------- Steps ----------

  datatype Event =
    // the producer's user
    | Reserve(bytes: nat)
    | ReleaseReservation(slot: nat)
    | SubmitReserved(slot: nat, record: AppendRecord)
    | CallClose
    // branches of the select loop, and moves of the batching stream
    | RecordPermit
    | RecvCommand
    | SendersGone
    | BatcherTake
    | BatcherOffer
    | BatcherYield
    | SubmitDone(result: Result<(), Failure>)
    | Claim(k: nat)
    // after the loop
    | DrainCommand
    | FinishDrain
    | SessionClosed(result: Result<(), Failure>)
    | Abort
    // the environment
    | LogGrows(entries: seq<LogEntry>)
    | Reply(k: nat, reply: Result<nat, Failure>)

  /** The calls of the producer's user. */
  predicate UserEvent(e: Event) {
    e.Reserve? || e.ReleaseReservation? || e.SubmitReserved? || e.CallClose?
  }

  /** The steps that leave the loop for good, or come after it. */
  predicate EndEvent(e: Event) {
    || e.SendersGone? || e.DrainCommand? || e.FinishDrain? || e.SessionClosed? || e.Abort?
    || (e.SubmitDone? && e.result.Err?)
  }

  /** The `select!` branches after which the loop may go on. */
  predicate BranchEvent(e: Event) {
    e.RecordPermit? || e.RecvCommand? || e.Claim? || (e.SubmitDone? && e.result.Ok?)
  }

  ghost predicate Enabled(config: Config, s: State, e: Event) {
    match e
    case Reserve(bytes) =>
      (s.phase.Running? || s.phase.ClosingSession?) && s.closeAt.None? && bytes <= s.free
      && |s.cmds| + |s.reserved| < RECORD_BATCH_MAX_COUNT
    case ReleaseReservation(slot) => slot < |s.reserved|
    case SubmitReserved(slot, record) => slot < |s.reserved| && record.id == s.issued
    case CallClose =>
      (s.phase.Running? || s.phase.ClosingSession?) && s.closeAt.None?
      && |s.cmds| + |s.reserved| < RECORD_BATCH_MAX_COUNT
    case RecordPermit => s.phase.Running? && s.stash.Some? && |s.records| < RECORD_BATCH_MAX_COUNT
    case RecvCommand => s.phase.Running? && s.stash.None? && s.cmds != []
    case SendersGone => s.phase.Running? && s.stash.None? && s.cmds == [] && s.reserved == []
    case BatcherTake =>
      s.phase.Running? && s.submitFut.None? && s.batcher.batch.records == []
      && (s.batcher.overflowed.Some? || s.records != [])
    case BatcherOffer =>
      s.phase.Running? && s.submitFut.None? && s.batcher.Filling(config.batching) && s.records != []
    case BatcherYield => s.phase.Running? && s.submitFut.None? && s.batcher.batch.records != []
    case SubmitDone(result) => s.phase.Running? && s.submitFut.Some? && (result.Err? ==> result.error.Session?)
    case Claim(k) => s.phase.Running? && k < |s.claimable| && s.claimable[k].reply.Some?
    case DrainCommand => s.phase.Draining? && s.cmds != []
    case FinishDrain => s.phase.Draining? && s.cmds == [] && s.reserved == []
    case SessionClosed(result) =>
      s.phase.ClosingSession?
      && (result.Ok? ==> NoneFailedInSession(s.resolved)) && (result.Err? ==> result.error.Session?)
    case Abort => !s.phase.Ended?
    case LogGrows(_) => true
    case Reply(k, reply) =>
      k < |s.claimable| && s.claimable[k].reply.None?
      && match reply
         case Ok(start) => LogHolds(s.log, start, s.claimable[k].batch)
         case Err(failure) => failure.Session?
  }

  ghost function Apply(config: Config, s: State, e: Event): State
    requires Enabled(config, s, e)
  {
    match e
    case Reserve(bytes) => s.(free := s.free - bytes, reserved := s.reserved + [bytes])
    case ReleaseReservation(slot) =>
      s.(free := s.free + s.reserved[slot], reserved := s.reserved[..slot] + s.reserved[slot + 1..])
    case SubmitReserved(slot, record) => AfterSubmit(s, slot, record)
    case CallClose => s.(cmds := s.cmds + [Close], closeAt := Some(s.issued))
    case RecordPermit => AfterBranch(AfterRecordPermit(s))
    case RecvCommand => AfterBranch(AfterRecvCommand(s))
    case SendersGone => EndTask(FailPending(s, Dropped))
    case BatcherTake => AfterBatcherTake(config, s)
    case BatcherOffer => AfterBatcherOffer(config, s)
    case BatcherYield => AfterBranch(AfterBatcherYield(s))
    case SubmitDone(result) =>
      if result.Err? then PropagateTerminalError(s.(submitFut := None), result.error)
      else AfterBranch(AfterSubmitDone(s))
    case Claim(k) => AfterBranch(AfterClaim(s, k))
    case DrainCommand => AfterDrainCommand(s)
    case FinishDrain => EndTask(s)
    case SessionClosed(result) => AfterSessionClosed(s, result)
    case Abort => EndTask(s)
    case LogGrows(entries) => s.(log := s.log + entries)
    case Reply(k, reply) => AfterReply(s, k, reply)
  }

  /** A reserved submit: the command is queued, or dropped at once when the task is gone. */
  function AfterSubmit(s: State, slot: nat, record: AppendRecord): State
    requires slot < |s.reserved|
  {
    var submission := Submission(record, s.reserved[slot]);
    var used := s.(issued := s.issued + 1, reserved := s.reserved[..slot] + s.reserved[slot + 1..]);
    if s.phase.Ended? then
      used.(free := s.free + submission.permit,
            resolved := s.resolved + [Resolution(record, Failed(PollDropped(s.terminal)))])
    else
      used.(cmds := s.cmds + [Submit(submission)])
  }

  /** The check after every branch: the loop ends once a close was requested and nothing is left to do. */
  function AfterBranch(s: State): (next: State)
    ensures next.closeReply == s.closeReply
  {
    if s.closeRequested && s.pending == [] && s.claimable == [] && s.stash.None? && s.submitFut.None?
    then s.(phase := ClosingSession)
    else s
  }

  function AfterRecordPermit(s: State): State
    requires s.stash.Some?
  {
    s.(pending := s.pending + [s.stash.value], records := s.records + [s.stash.value.record], stash := None)
  }

  function AfterRecvCommand(s: State): State
    requires s.cmds != []
  {
    var rest := s.(cmds := s.cmds[1..]);
    match s.cmds[0]
    case Close => rest.(closeRequested := true)
    case Submit(submission) =>
      if s.closeRequested then
        rest.(resolved := s.resolved + [Resolution(submission.record, Failed(Closing))],
              free := s.free + submission.permit)
      else rest.(stash := Some(submission))
  }

  /** The first record of a batch, and the state once it is in the batch. */
  function OpenBatch(s: State): (AppendRecord, State)
    requires s.batcher.overflowed.Some? || s.records != []
  {
    if s.batcher.overflowed.Some? then
      var first := s.batcher.overflowed.value;
      (first, s.(batcher := Batcher(s.batcher.batch.Push(first), None)))
    else
      var first := s.records[0];
      (first, s.(batcher := Batcher(s.batcher.batch.Push(first), None), records := s.records[1..]))
  }

  function AfterBatcherTake(config: Config, s: State): State
    requires s.batcher.overflowed.Some? || s.records != []
  {
    var (first, taken) := OpenBatch(s);
    if config.batching.IsOversized(first)
    then PropagateTerminalError(taken, Oversized(first.MeteredBytes()))
    else taken
  }

  function AfterBatcherOffer(config: Config, s: State): State
    requires s.records != []
  {
    s.(batcher := s.batcher.Offer(config.batching, s.records[0]), records := s.records[1..])
  }

  function AfterBatcherYield(s: State): State {
    s.(submitFut := Some(s.batcher.batch), submitBatchLen := Some(|s.batcher.batch.records|),
       batcher := s.batcher.(batch := EMPTY_BATCH))
  }

  /** Answers every pending acknowledgement with the failure. */
  function FailPending(s: State, failure: Failure): State {
    s.(resolved := s.resolved + FailAll(s.pending, failure), free := s.free + Permits(s.pending), pending := [])
  }

  function FailStashed(s: State, failure: Failure): State {
    if s.stash.Some? then
      s.(resolved := s.resolved + [Resolution(s.stash.value.record, Failed(failure))],
         free := s.free + s.stash.value.permit, stash := None)
    else s
  }

  /** The session took the batch: `pending_acks.drain(..batch_len)`, which panics when it is out of range. */
  function AfterSubmitDone(s: State): State
    requires s.submitFut.Some?
  {
    if s.submitBatchLen.None? || s.submitBatchLen.value > |s.pending| then s.(panicked := true)
    else
      var len := s.submitBatchLen.value;
      s.(submitFut := None, submitBatchLen := None, pending := s.pending[len..],
         claimable := s.claimable + [Ticket(s.submitFut.value.records, s.pending[..len], None)])
  }

  function AfterClaim(s: State, k: nat): State
    requires k < |s.claimable| && s.claimable[k].reply.Some?
  {
    var ticket := s.claimable[k];
    s.(claimable := s.claimable[..k] + s.claimable[k + 1..],
       resolved := s.resolved + DispatchAcks(ticket.reply.value, ticket.acks),
       free := s.free + Permits(ticket.acks))
  }

  function AfterDrainCommand(s: State): State
    requires s.cmds != [] && s.phase.Draining?
  {
    var rest := s.(cmds := s.cmds[1..]);
    match s.cmds[0]
    case Close => rest.(closeReply := Some(Err(s.phase.failure)))
    case Submit(submission) =>
      rest.(resolved := s.resolved + [Resolution(submission.record, Failed(s.phase.failure))],
            free := s.free + submission.permit)
  }

  function StashSeq(stash: Option<Submission>): seq<Submission> {
    if stash.Some? then [stash.value] else []
  }

  /** propagate_terminal_error up to the point where the command queue is closed. */
  function PropagateTerminalError(s: State, failure: Failure): (next: State)
    ensures next.closeReply == s.closeReply || next.closeReply == Some(Err(failure))
  {
    FailStashed(FailPending(MarkTerminal(s, failure), failure), failure)
      .(closeReply := if s.closeRequested then Some(Err(failure)) else s.closeReply,
        closeRequested := false, phase := Draining(failure))
  }

  /** The error is recorded once; `mark` remembers how many tickets were resolved before. */
  function MarkTerminal(s: State, failure: Failure): State {
    s.(terminal := if s.terminal.Some? then s.terminal else Some(failure), mark := |s.resolved|)
  }

  /** The task returns or is aborted: whatever it still holds is dropped. */
  function EndTask(s: State): (next: State)
    ensures next.closeReply == s.closeReply
  {
    s.(phase := Ended, free := s.free + Permits(s.Held()),
       resolved := s.resolved + FailAll(s.Held(), PollDropped(s.terminal)),
       cmds := [], stash := None, pending := [], claimable := [])
  }

  /** The caller of `close` learns how closing the session went, and the task returns. */
  function AfterSessionClosed(s: State, result: Result<(), Failure>): State {
    EndTask(s).(closeReply := Some(result))
  }

  /** The session answers a ticket. */
  function AfterReply(s: State, k: nat, reply: Result<nat, Failure>): State
    requires k < |s.claimable|
  {
    s.(claimable := s.claimable[k := s.claimable[k].(reply := Some(reply))])
  }

  // ---------- Runs ----------

  ghost predicate IsRun(config: Config, states: seq<State>, events: seq<Event>) {
    && |states| == |events| + 1
    && states[0] == Init(config)
    && forall i | 0 <= i < |events| ::
         Enabled(config, states[i], events[i]) && states[i + 1] == Apply(config, states[i], events[i])
  }
}
