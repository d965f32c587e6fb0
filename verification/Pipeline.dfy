/**
  The producer and its append session as one system (s2-sdk/src/producer.rs:218-356, s2-sdk/src/session/append.rs:
  300-480): what the producer's protocol assumes of its environment is what the session does.
 */
module Pipeline {
  import opened Wrappers
  import opened Records
  import Batching
  import P = ProducerProtocol
  import S = SessionProtocol

  datatype Config = Config(producer: P.Config, session: S.Config, matchSeqNum: Option<nat>)

  datatype State = State(
    producer: P.State,
    session: S.State,
    expected: Option<nat>,       // the sequence number that the next input will expect
    stamp: Option<nat>,          // the one that the input being submitted expects
    made: seq<S.Submission>,     // every submission that the session received
    tickets: seq<Option<nat>>)   // the submissions of the claimable tickets; none if the session had ended before

  datatype Event =
    | Call(call: P.Event)                            // the producer's user
    | Work(work: P.Event)                            // the producer's task by itself
    | Submit                                         // the session takes the batch
    | SubmitLate                                     // the session ends before it receives what was sent
    | SubmitFails(code: nat)
    | Answer(k: nat, r: Option<nat>, failure: nat)   // a ticket reports what became of its submission
    | CloseSession
    | SessionClosed(result: Result<(), P.Failure>)
    | Session(step: S.Event)                         // the session's task, the server and other writers

  /** The log as the producer sees it: its own records, and everybody else's. */
  function Seen(log: seq<S.LogEntry>): (seen: seq<P.LogEntry>)
    ensures |seen| == |log|
    ensures forall i | 0 <= i < |log| :: seen[i] == SeenEntry(log[i])
  {
    seq(|log|, i requires 0 <= i < |log| => SeenEntry(log[i]))
  }

  function SeenEntry(entry: S.LogEntry): P.LogEntry {
    if entry.from.Some? then P.Own(entry.record) else P.Foreign
  }

  predicate IsWork(e: P.Event) {
    e.RecordPermit? || e.RecvCommand? || e.SendersGone? || e.BatcherTake? || e.BatcherOffer? || e.BatcherYield?
    || e.Claim? || e.DrainCommand? || e.FinishDrain? || e.Abort?
  }

  predicate IsStep(e: S.Event) {
    !e.NewSubmission? && !e.NewClose?
  }

  function Init(config: Config): State {
    State(P.Init(config.producer), S.Init([]), config.matchSeqNum, None, [], [])
  }

  /** The batch that the in-flight submit carries. */
  function Batch(s: State): seq<AppendRecord> {
    if s.producer.submitFut.Some? then s.producer.submitFut.value.records else []
  }

  ghost predicate Enabled(config: Config, s: State, e: Event) {
    match e
    case Call(call) => P.UserEvent(call) && P.Enabled(config.producer, s.producer, call)
    case Work(work) => IsWork(work) && P.Enabled(config.producer, s.producer, work)
    case Submit => CanSubmit(s) && S.Enabled(s.session, S.NewSubmission(Batch(s), s.stamp))
    case SubmitLate => CanSubmit(s) && s.session.HasEnded()
    case SubmitFails(_) => CanSubmit(s) && s.session.HasEnded()
    case Answer(k, r, _) =>
      && k < |s.producer.claimable| && s.producer.claimable[k].reply.None? && k < |s.tickets|
      && (match s.tickets[k]
          case None => r.None?
          case Some(id) =>
            r.Some? && r.value < |s.session.resolved| && s.session.resolved[r.value].submission.id == id)
    case CloseSession => s.producer.phase.ClosingSession? && S.Enabled(s.session, S.NewClose)
    case SessionClosed(result) =>
      && s.producer.phase.ClosingSession?
      && (result.Ok? <==> s.session.closeReply == Some(Ok(())))
      && (result.Err? ==> s.session.HasEnded() && result.error.Session?)
    case Session(step) =>
      IsStep(step) && S.Enabled(s.session, step) && (step.Abort? || step.SendersGone? ==> s.producer.phase.Ended?)
  }

  predicate CanSubmit(s: State) {
    s.producer.phase.Running? && s.producer.submitFut.Some?
  }

  /** What a ticket reports. */
  function ReplyOf(s: State, r: Option<nat>, failure: nat): Result<nat, P.Failure> {
    if r.Some? && r.value < |s.session.resolved| && s.session.resolved[r.value].Acked?
    then Ok(s.session.resolved[r.value].start)
    else Err(P.Session(failure))
  }

  /** The session's part of a step; without one it is as if nobody appended anything. */
  function SessionEvent(s: State, e: Event): S.Event {
    match e
    case Submit => S.NewSubmission(Batch(s), s.stamp)
    case CloseSession => S.NewClose
    case Session(step) => step
    case _ => S.OtherAppend([])
  }

  ghost function SessionAfter(config: Config, s: State, e: Event): S.State
    requires Enabled(config, s, e)
  {
    S.Apply(config.session, s.session, SessionEvent(s, e))
  }

  /** The producer's part of a step; without one it is as if the log grew by nothing. */
  ghost function ProducerEvent(config: Config, s: State, e: Event): P.Event
    requires Enabled(config, s, e)
  {
    match e
    case Call(call) => call
    case Work(work) => work
    case Submit => P.SubmitDone(Ok(()))
    case SubmitLate => P.SubmitDone(Ok(()))
    case SubmitFails(code) => P.SubmitDone(Err(P.Session(code)))
    case Answer(k, r, failure) => P.Reply(k, ReplyOf(s, r, failure))
    case SessionClosed(result) => P.SessionClosed(result)
    case CloseSession => P.LogGrows([])
    case Session(step) =>
      var log := Seen(S.Apply(config.session, s.session, step).log);
      P.LogGrows(if |s.producer.log| <= |log| then log[|s.producer.log|..] else [])
  }

  ghost function ProducerAfter(config: Config, s: State, e: Event): P.State
    requires Enabled(config, s, e)
  {
    match e
    case Answer(k, r, failure) => P.AfterReply(s.producer, k, ReplyOf(s, r, failure))
    case SessionClosed(result) => P.AfterSessionClosed(s.producer, result)
    case _ => P.Apply(config.producer, s.producer, ProducerEvent(config, s, e))
  }

  function TicketsAfter(s: State, e: Event): seq<Option<nat>> {
    match e
    case Submit => s.tickets + [Some(s.session.issued)]
    case SubmitLate => s.tickets + [None]
    case SessionClosed(_) => []
    case Work(work) =>
      if work.Claim? && work.k < |s.tickets| then s.tickets[..work.k] + s.tickets[work.k + 1..]
      else if work.SendersGone? || work.FinishDrain? || work.Abort? then []
      else s.tickets
    case _ => s.tickets
  }

  ghost function Apply(config: Config, s: State, e: Event): State
    requires Enabled(config, s, e)
  {
    var isDrawn := e.Work? && e.work.BatcherYield?;
    State(
      ProducerAfter(config, s, e),
      SessionAfter(config, s, e),
      if isDrawn then Batching.NextMatch(s.expected, s.producer.batcher.batch) else s.expected,
      if isDrawn then s.expected else s.stamp,
      if e.Submit? then s.made + [S.Submission(s.session.issued, Batch(s), s.stamp)] else s.made,
      TicketsAfter(s, e))
  }

  ghost predicate IsRun(config: Config, states: seq<State>, events: seq<Event>) {
    && |states| == |events| + 1 && states[0] == Init(config)
    && forall i | 0 <= i < |events| ::
      Enabled(config, states[i], events[i]) && states[i + 1] == Apply(config, states[i], events[i])
  }
}
