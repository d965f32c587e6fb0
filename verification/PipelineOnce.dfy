/**
  From the producer's ticket to the log: acknowledged records are there in the order of their tickets, and no record is
  there twice when duplicates are excluded (s2-sdk/src/producer.rs:218-356, s2-sdk/src/session/append.rs:300-780).
 */
module PipelineOnce {
  import opened Wrappers
  import opened Records
  import opened Pipeline
  import opened PipelineLinks
  import SA = SessionAcks
  import Once = SessionOnce
  import opened SessionHistory

  // ---------- The records on their way ----------

  /** The records that have not reached the record channel. */
  function Waiting(s: P.State): seq<AppendRecord> {
    P.RecordsOf(P.StashSeq(s.stash)) + P.RecordsOf(P.Submissions(s.cmds))
  }

  /** The records that wait to be submitted, in order. */
  function Line(s: P.State): seq<AppendRecord> {
    s.Pipeline() + Waiting(s)
  }

  predicate Rising(records: seq<AppendRecord>) {
    forall x, y | 0 <= x < y < |records| :: records[x].id < records[y].id
  }

  /** Submissions hold the records in the order of their tickets. */
  ghost predicate MadeRising(made: seq<S.Submission>, bound: nat) {
    && (forall a | 0 <= a < |made| :: Rising(made[a].records))
    && (forall a, x | 0 <= a < |made| && 0 <= x < |made[a].records| :: made[a].records[x].id < bound)
    && (forall a, b, x, y | 0 <= a < b < |made| && 0 <= x < |made[a].records| && 0 <= y < |made[b].records| ::
          made[a].records[x].id < made[b].records[y].id)
  }

  ghost predicate Ahead(made: seq<S.Submission>, line: seq<AppendRecord>) {
    forall a, x, y | 0 <= a < |made| && 0 <= x < |made[a].records| && 0 <= y < |line| ::
      made[a].records[x].id < line[y].id
  }

  ghost predicate LineOk(made: seq<S.Submission>, line: seq<AppendRecord>, bound: nat) {
    Rising(line) && Ahead(made, line) && forall y | 0 <= y < |line| :: line[y].id < bound
  }

  /** Records go from the queue to the submissions in the order of their tickets. */
  ghost predicate InSequence(s: State) {
    && MadeRising(s.made, s.producer.issued)
    && (s.producer.phase.Running? ==> LineOk(s.made, Line(s.producer), s.producer.issued))
  }

  lemma {:induction false} SubmissionsPush(cmds: seq<P.Command>, cmd: P.Command)
    ensures P.Submissions(cmds + [cmd]) == P.Submissions(cmds) + if cmd.Submit? then [cmd.submission] else []
  {
    if cmds == [] {
      assert cmds + [cmd] == [cmd] && [cmd][1..] == [];
    } else {
      assert (cmds + [cmd])[0] == cmds[0] && (cmds + [cmd])[1..] == cmds[1..] + [cmd];
      SubmissionsPush(cmds[1..], cmd);
    }
  }

  lemma RecordsOfJoin(a: seq<P.Submission>, b: seq<P.Submission>)
    ensures P.RecordsOf(a + b) == P.RecordsOf(a) + P.RecordsOf(b)
  {}

  lemma UserLine(config: P.Config, s: P.State, e: P.Event)
    requires P.Enabled(config, s, e) && P.UserEvent(e) && s.phase.Running?
    ensures var next := P.Apply(config, s, e);
            && next.Pipeline() == s.Pipeline()
            && Waiting(next) == Waiting(s) + if e.SubmitReserved? then [e.record] else []
  {
    if e.SubmitReserved? {
      var cmd := P.Submit(P.Submission(e.record, s.reserved[e.slot]));
      SubmissionsPush(s.cmds, cmd);
      RecordsOfJoin(P.Submissions(s.cmds), [cmd.submission]);
    } else if e.CallClose? {
      SubmissionsPush(s.cmds, P.Close);
    }
  }

  lemma RecordPermitLine(s: P.State)
    requires s.stash.Some?
    ensures Line(P.AfterRecordPermit(s)) == Line(s)
  {
    assert P.AfterRecordPermit(s).Pipeline() == s.Pipeline() + [s.stash.value.record];
  }

  lemma WaitingHead(s: P.State)
    requires s.cmds != [] && s.stash.None?
    ensures Waiting(s) ==
      (if s.cmds[0].Submit? then [s.cmds[0].submission.record] else []) + P.RecordsOf(P.Submissions(s.cmds[1..]))
  {
    if s.cmds[0].Submit? {
      RecordsOfJoin([s.cmds[0].submission], P.Submissions(s.cmds[1..]));
    }
  }

  /** A command moves up, or is rejected from the middle of the line. */
  lemma RecvCommandLine(s: P.State)
    requires s.cmds != [] && s.stash.None?
    ensures var next := P.AfterRecvCommand(s);
            && next.Pipeline() == s.Pipeline()
            && (Waiting(next) == Waiting(s) || Waiting(next) == Removed(Waiting(s), 0))
  {
    WaitingHead(s);
    var next, rest := P.AfterRecvCommand(s), P.RecordsOf(P.Submissions(s.cmds[1..]));
    assert Waiting(next) == (if next.stash.Some? then [next.stash.value.record] else []) + rest;
  }

  lemma SubmitDoneLine(config: P.Config, s: P.State)
    requires PA.Aligned(config, s) && P.Enabled(config, s, P.SubmitDone(Ok(())))
    ensures var next := P.AfterSubmitDone(s);
            s.Pipeline() == s.submitFut.value.records + next.Pipeline() && Waiting(next) == Waiting(s)
  {
    PA.SubmitDoneSplits(config, s);
  }

  lemma TakeLine(config: P.Config, s: P.State)
    requires P.Enabled(config, s, P.BatcherTake) && P.AfterBatcherTake(config, s).phase.Running?
    ensures var next := P.AfterBatcherTake(config, s); next.Pipeline() == s.Pipeline() && Waiting(next) == Waiting(s)
  {}

  lemma OfferLine(config: P.Config, s: P.State)
    requires PA.Aligned(config, s) && P.Enabled(config, s, P.BatcherOffer)
    ensures var next := P.AfterBatcherOffer(config, s); next.Pipeline() == s.Pipeline() && Waiting(next) == Waiting(s)
  {
    s.batcher.OfferKeepsOrder(config.batching, s.records[0]);
  }

  lemma YieldLine(s: P.State)
    requires s.submitFut.None?
    ensures var next := P.AfterBatcherYield(s); next.Pipeline() == s.Pipeline() && Waiting(next) == Waiting(s)
  {}

  lemma RemovedStaysRising(made: seq<S.Submission>, line: seq<AppendRecord>, bound: nat, k: nat)
    requires LineOk(made, line, bound)
    ensures LineOk(made, Removed(line, k), bound)
  {}

  lemma PushedStaysRising(made: seq<S.Submission>, line: seq<AppendRecord>, record: AppendRecord)
    requires LineOk(made, line, record.id) && MadeRising(made, record.id)
    ensures LineOk(made, line + [record], record.id + 1) && MadeRising(made, record.id + 1)
  {}

  lemma TakenStaysRising(made: seq<S.Submission>, batch: S.Submission, line: seq<AppendRecord>, bound: nat)
    requires MadeRising(made, bound) && LineOk(made, batch.records + line, bound)
    ensures MadeRising(made + [batch], bound) && LineOk(made + [batch], line, bound)
  {
    var all := batch.records + line;
    assert forall x | 0 <= x < |batch.records| :: all[x] == batch.records[x];
    assert forall y | 0 <= y < |line| :: all[|batch.records| + y] == line[y];
  }

  lemma DroppedStaysRising(made: seq<S.Submission>, batch: seq<AppendRecord>, line: seq<AppendRecord>, bound: nat)
    requires LineOk(made, batch + line, bound)
    ensures LineOk(made, line, bound)
  {
    assert forall y | 0 <= y < |line| :: (batch + line)[|batch| + y] == line[y];
  }

  lemma UserLineStep(config: P.Config, s: P.State, e: P.Event, made: seq<S.Submission>)
    requires P.Enabled(config, s, e) && P.UserEvent(e) && s.phase.Running?
    requires MadeRising(made, s.issued) && LineOk(made, Line(s), s.issued)
    ensures var next := P.Apply(config, s, e); MadeRising(made, next.issued) && LineOk(made, Line(next), next.issued)
  {
    UserLine(config, s, e);
    assert Line(P.Apply(config, s, e)) == Line(s) + if e.SubmitReserved? then [e.record] else [];
    if e.SubmitReserved? {
      PushedStaysRising(made, Line(s), e.record);
    } else {
      assert Line(P.Apply(config, s, e)) == Line(s);
    }
  }

  lemma BranchStays(s: P.State)
    requires P.AfterBranch(s).phase.Running?
    ensures P.AfterBranch(s) == s
  {}

  lemma RecvLineStep(config: P.Config, s: P.State, made: seq<S.Submission>)
    requires P.Enabled(config, s, P.RecvCommand) && LineOk(made, Line(s), s.issued)
    ensures LineOk(made, Line(P.AfterRecvCommand(s)), s.issued)
  {
    RecvCommandLine(s);
    var next := P.AfterRecvCommand(s);
    if Waiting(next) != Waiting(s) {
      assert Line(next) == Removed(Line(s), |s.Pipeline()|);
      RemovedStaysRising(made, Line(s), s.issued, |s.Pipeline()|);
    }
  }

  lemma BatcherLineStep(config: P.Config, s: P.State, e: P.Event)
    requires PA.Aligned(config, s) && P.Enabled(config, s, e) && P.Apply(config, s, e).phase.Running?
    requires e.BatcherTake? || e.BatcherOffer? || e.BatcherYield?
    ensures Line(P.Apply(config, s, e)) == Line(s)
  {
    match e
    case BatcherTake => TakeLine(config, s);
    case BatcherOffer => OfferLine(config, s);
    case BatcherYield =>
      BranchStays(P.AfterBatcherYield(s));
      YieldLine(s);
  }

  lemma BranchLineStep(config: P.Config, s: P.State, e: P.Event, made: seq<S.Submission>)
    requires P.Enabled(config, s, e) && P.Apply(config, s, e).phase.Running?
    requires e.RecordPermit? || e.RecvCommand? || e.Claim?
    requires LineOk(made, Line(s), s.issued)
    ensures LineOk(made, Line(P.Apply(config, s, e)), s.issued)
  {
    match e
    case RecordPermit =>
      BranchStays(P.AfterRecordPermit(s));
      RecordPermitLine(s);
    case RecvCommand =>
      BranchStays(P.AfterRecvCommand(s));
      RecvLineStep(config, s, made);
    case Claim(k) => BranchStays(P.AfterClaim(s, k));
  }

  lemma EndIssuesNothing(config: P.Config, s: P.State, e: P.Event)
    requires P.Enabled(config, s, e) && (P.EndEvent(e) || e.BatcherTake?)
    ensures P.Apply(config, s, e).issued == s.issued
  {}

  lemma IssuedGrows(config: P.Config, s: P.State, e: P.Event)
    requires P.Enabled(config, s, e)
    ensures P.Apply(config, s, e).issued == s.issued + if e.SubmitReserved? then 1 else 0
  {
    if P.EndEvent(e) || e.BatcherTake? {
      EndIssuesNothing(config, s, e);
    }
  }

  lemma RisingStays(made: seq<S.Submission>, bound: nat, more: nat)
    requires MadeRising(made, bound) && bound <= more
    ensures MadeRising(made, more)
  {}

  /** A step that submits nothing to the session leaves the line in order. */
  lemma LineStep(config: P.Config, s: P.State, e: P.Event, made: seq<S.Submission>)
    requires PA.Aligned(config, s) && P.Enabled(config, s, e) && P.Apply(config, s, e).phase.Running? && !e.SubmitDone?
    requires MadeRising(made, s.issued) && LineOk(made, Line(s), s.issued) && s.phase.Running?
    ensures var next := P.Apply(config, s, e); LineOk(made, Line(next), next.issued)
  {
    IssuedGrows(config, s, e);
    if P.UserEvent(e) {
      UserLineStep(config, s, e, made);
    } else if P.BranchEvent(e) {
      BranchLineStep(config, s, e, made);
    } else if e.BatcherTake? || e.BatcherOffer? || e.BatcherYield? {
      BatcherLineStep(config, s, e);
    }
  }

  /** The batch that a submit takes is the beginning of the line. */
  lemma TakenLine(config: P.Config, s: P.State)
    requires PA.Aligned(config, s) && P.Enabled(config, s, P.SubmitDone(Ok(())))
    ensures Line(s) == s.submitFut.value.records + Line(P.AfterSubmitDone(s))
    ensures P.AfterSubmitDone(s).issued == s.issued
  {
    SubmitDoneLine(config, s);
  }

  lemma LineAfterBranch(made: seq<S.Submission>, taken: P.State)
    requires LineOk(made, Line(taken), taken.issued)
    ensures P.AfterBranch(taken).phase.Running? ==> LineOk(made, Line(P.AfterBranch(taken)), taken.issued)
    ensures P.AfterBranch(taken).issued == taken.issued
  {
    if P.AfterBranch(taken).phase.Running? {
      BranchStays(taken);
    }
  }

  lemma SubmitInSequence(config: Config, s: State, e: Event)
    requires ProducerOk(config.producer, s.producer) && InSequence(s) && Enabled(config, s, e)
    requires e.Submit? || e.SubmitLate?
    ensures InSequence(Apply(config, s, e))
  {
    var taken, batch := P.AfterSubmitDone(s.producer), S.Submission(s.session.issued, Batch(s), s.stamp);
    TakenLine(config.producer, s.producer);
    if e.Submit? {
      TakenStaysRising(s.made, batch, Line(taken), s.producer.issued);
    } else {
      DroppedStaysRising(s.made, batch.records, Line(taken), s.producer.issued);
    }
    LineAfterBranch(Apply(config, s, e).made, taken);
  }

  lemma InSequenceStep(config: Config, s: State, e: Event)
    requires ProducerOk(config.producer, s.producer) && InSequence(s)
    requires Enabled(config, s, e) && IsAllowed(config, s, e)
    ensures InSequence(Apply(config, s, e))
  {
    if e.Submit? || e.SubmitLate? {
      SubmitInSequence(config, s, e);
    } else {
      var event, next := ProducerEvent(config, s, e), ProducerAfter(config, s, e);
      IssuedGrows(config.producer, s.producer, event);
      RisingStays(s.made, s.producer.issued, next.issued);
      if next.phase.Running? {
        PhaseIsRunning(config.producer, s.producer, event);
        LineStep(config.producer, s.producer, event, s.made);
      }
    }
  }

  lemma PhaseIsRunning(config: P.Config, s: P.State, e: P.Event)
    requires P.Enabled(config, s, e) && P.Apply(config, s, e).phase.Running?
    ensures s.phase.Running? && (e.SubmitDone? ==> e.result.Ok?)
  {}

  // ---------- Where acknowledgements come from ----------

  /** The session's acknowledgement covers the ticket's record, at the position reported. */
  predicate Covers(r: S.Resolution, ticket: P.Resolution, x: nat) {
    && r.Acked? && ticket.outcome.Acked? && x < |r.submission.records|
    && r.submission.records[x] == ticket.record && ticket.outcome.seqNum == r.start + x
  }

  ghost predicate IsCovered(resolved: seq<S.Resolution>, ticket: P.Resolution) {
    exists r, x: nat | 0 <= r < |resolved| :: Covers(resolved[r], ticket, x)
  }

  ghost predicate AllCovered(s: State) {
    forall q | 0 <= q < |s.producer.resolved| && s.producer.resolved[q].outcome.Acked? ::
      IsCovered(s.session.resolved, s.producer.resolved[q])
  }

  lemma CoveredStays(before: seq<S.Resolution>, after: seq<S.Resolution>, ticket: P.Resolution)
    requires IsCovered(before, ticket) && |before| <= |after| && after[..|before|] == before
    ensures IsCovered(after, ticket)
  {
    var r, x: nat :| 0 <= r < |before| && Covers(before[r], ticket, x);
    assert after[..|before|][r] == before[r];
    assert Covers(after[r], ticket, x);
  }

  lemma ClaimIsCovered(config: Config, s: State, k: nat, i: nat)
    requires Linked(s) && ProducerOk(config.producer, s.producer) && Enabled(config, s, Work(P.Claim(k)))
    requires var ticket := s.producer.claimable[k]; ticket.reply.value.Ok? && i < |ticket.acks|
    ensures var ticket := s.producer.claimable[k];
            IsCovered(s.session.resolved, P.DispatchAcks(ticket.reply.value, ticket.acks)[i])
  {
    var ticket := s.producer.claimable[k];
    assert TicketLinked(s, k) && PA.TicketAligned(config.producer, s.producer.log, ticket);
    var start, id := ticket.reply.value.value, s.tickets[k].value;
    var r :| 0 <= r < |s.session.resolved| && s.session.resolved[r] == S.Acked(s.made[id], start);
    assert P.RecordsOf(ticket.acks)[i] == ticket.acks[i].record;
    assert Covers(s.session.resolved[r], P.DispatchAcks(ticket.reply.value, ticket.acks)[i], i);
  }

  lemma NewIsCovered(config: Config, s: State, e: Event, q: nat)
    requires Linked(s) && ProducerOk(config.producer, s.producer)
    requires Enabled(config, s, e) && IsAllowed(config, s, e)
    requires var next := ProducerAfter(config, s, e);
             |s.producer.resolved| <= q < |next.resolved| && next.resolved[q].outcome.Acked?
    ensures IsCovered(s.session.resolved, ProducerAfter(config, s, e).resolved[q])
  {
    if e.Work? && e.work.Claim? {
      ClaimResolves(config.producer, s.producer, e.work.k);
      ClaimIsCovered(config, s, e.work.k, q - |s.producer.resolved|);
    } else {
      ResolvedAfter(config.producer, s.producer, ProducerEvent(config, s, e));
    }
  }

  lemma OldStays(config: Config, s: State, e: Event, q: nat)
    requires Enabled(config, s, e) && IsAllowed(config, s, e) && q < |s.producer.resolved|
    ensures var next := ProducerAfter(config, s, e);
            q < |next.resolved| && next.resolved[q] == s.producer.resolved[q]
  {
    var next := ProducerAfter(config, s, e);
    if e.Work? && e.work.Claim? {
      ClaimResolves(config.producer, s.producer, e.work.k);
    } else {
      ResolvedAfter(config.producer, s.producer, ProducerEvent(config, s, e));
      assert next.resolved[..|s.producer.resolved|][q] == s.producer.resolved[q];
    }
  }

  lemma AllCoveredStep(config: Config, s: State, e: Event)
    requires Linked(s) && ProducerOk(config.producer, s.producer) && SessionOk(s.session) && AllCovered(s)
    requires Enabled(config, s, e) && IsAllowed(config, s, e)
    ensures AllCovered(Apply(config, s, e))
  {
    var next := Apply(config, s, e);
    StepResolves(config.session, s.session, SessionEvent(s, e));
    forall q | 0 <= q < |next.producer.resolved| && next.producer.resolved[q].outcome.Acked?
      ensures IsCovered(next.session.resolved, next.producer.resolved[q])
    {
      if q < |s.producer.resolved| {
        OldStays(config, s, e, q);
      } else {
        NewIsCovered(config, s, e, q);
      }
      CoveredStays(s.session.resolved, next.session.resolved, next.producer.resolved[q]);
    }
  }

  // ---------- Stamps ----------

  /** If the producer expects a sequence number at all, every submission carries one. */
  ghost predicate Stamped(config: Config, s: State) {
    config.matchSeqNum.Some? ==>
      && s.expected.Some? && (s.producer.submitFut.Some? ==> s.stamp.Some?)
      && forall a | 0 <= a < |s.made| :: s.made[a].matchSeqNum.Some?
  }

  lemma SubmitFutAfter(config: P.Config, s: P.State, e: P.Event)
    requires P.Enabled(config, s, e) && !e.BatcherYield? && P.Apply(config, s, e).submitFut.Some?
    ensures s.submitFut.Some?
  {}

  lemma StampedStep(config: Config, s: State, e: Event)
    requires Stamped(config, s) && Enabled(config, s, e) && IsAllowed(config, s, e)
    ensures Stamped(config, Apply(config, s, e))
  {
    if !(e.Work? && e.work.BatcherYield?) && Apply(config, s, e).producer.submitFut.Some? {
      SubmitFutAfter(config.producer, s.producer, ProducerEvent(config, s, e));
    }
  }

  // ---------- Whole runs ----------

  ghost predicate Ordered(config: Config, s: State) {
    InSequence(s) && AllCovered(s) && Stamped(config, s)
  }

  lemma OrderedStep(config: Config, s: State, e: Event)
    requires Linked(s) && ProducerOk(config.producer, s.producer) && SessionOk(s.session) && Ordered(config, s)
    requires Enabled(config, s, e) && IsAllowed(config, s, e)
    ensures Ordered(config, Apply(config, s, e))
  {
    InSequenceStep(config, s, e);
    AllCoveredStep(config, s, e);
    StampedStep(config, s, e);
  }

  lemma RunStepOrders(config: Config, states: seq<State>, events: seq<Event>, k: nat)
    requires config.producer.Valid() && IsRun(config, states, events) && k < |events| && Ordered(config, states[k])
    ensures Ordered(config, states[k + 1])
  {
    RunRefines(config, states, events, k);
    RunStepLinks(config, states, events, k);
    OrderedStep(config, states[k], events[k]);
  }

  lemma InitIsOrdered(config: Config)
    ensures Ordered(config, Init(config))
  {}

  lemma {:induction false} RunIsOrdered(config: Config, states: seq<State>, events: seq<Event>, n: nat)
    requires config.producer.Valid() && IsRun(config, states, events) && n <= |events|
    ensures Ordered(config, states[n])
  {
    if n == 0 {
      InitIsOrdered(config);
    } else {
      RunIsOrdered(config, states, events, n - 1);
      RunStepOrders(config, states, events, n - 1);
    }
  }

  // ---------- Acknowledged records keep the order of their tickets ----------

  lemma IdsDecide(made: seq<S.Submission>, bound: nat, a: nat, x: nat, b: nat, y: nat)
    requires MadeRising(made, bound) && a < |made| && b < |made| && x < |made[a].records| && y < |made[b].records|
    ensures made[a].records[x].id < made[b].records[y].id <==> a < b || (a == b && x < y)
    ensures made[a].records[x].id == made[b].records[y].id <==> a == b && x == y
  {}

  lemma OneAckEach(s: S.State, q: nat, r: nat)
    requires SO.Faithful(s) && q < |s.resolved| && r < |s.resolved| && s.resolved[q].Acked? && s.resolved[r].Acked?
    requires s.resolved[q].submission.id == s.resolved[r].submission.id
    ensures q == r
  {}

  lemma EarlierAckEndsFirst(s: S.State, q: nat, r: nat)
    requires SO.Faithful(s) && q < |s.resolved| && r < |s.resolved| && s.resolved[q].Acked? && s.resolved[r].Acked?
    requires s.resolved[q].submission.id < s.resolved[r].submission.id
    ensures SO.AckEnd(s.resolved[q]) <= s.resolved[r].start
  {}

  /** Two acknowledged tickets report positions in the order in which the tickets were handed out. */
  lemma TicketsKeepOrder(config: Config, states: seq<State>, events: seq<Event>, n: nat, p: nat, q: nat)
    requires config.producer.Valid() && IsRun(config, states, events) && n <= |events|
    requires var resolved := states[n].producer.resolved;
             && p < |resolved| && q < |resolved| && resolved[p].outcome.Acked? && resolved[q].outcome.Acked?
             && resolved[p].record.id < resolved[q].record.id
    ensures states[n].producer.resolved[p].outcome.seqNum < states[n].producer.resolved[q].outcome.seqNum
  {
    RunRefines(config, states, events, n);
    RunIsOrdered(config, states, events, n);
    var s := states[n];
    var session := s.session.resolved;
    var i, x: nat :| 0 <= i < |session| && Covers(session[i], s.producer.resolved[p], x);
    var j, y: nat :| 0 <= j < |session| && Covers(session[j], s.producer.resolved[q], y);
    var a, b := session[i].submission.id, session[j].submission.id;
    assert IsMade(s.made, session[i].submission) && IsMade(s.made, session[j].submission);
    IdsDecide(s.made, s.producer.issued, a, x, b, y);
    if a == b {
      OneAckEach(s.session, i, j);
    } else {
      EarlierAckEndsFirst(s.session, i, j);
    }
  }

  // ---------- No record is in the log twice ----------

  /** Some record of a submission is at that place in the log. */
  lemma RecordOfSource(config: S.Config, s: S.State, p: nat) returns (x: nat)
    requires Once.Once(config, s) && Once.SourceOf(s, p).Some?
    ensures p < |s.log| && s.log[p].from.Some?
    ensures var place, source := s.log[p].from.value, Once.SourceOf(s, p).value;
            && place.k < |s.connections| && place.j < |s.connections[place.k].starts|
            && x < |source.records| && s.log[p].record == source.records[x]
            && p == s.connections[place.k].starts[place.j] + x
  {
    var place := s.log[p].from.value;
    var c := s.connections[place.k];
    assert SA.ConnectionOk(s.log, c, place.k) && SA.Served(s.log, c, place.k, place.j);
    x := p - c.starts[place.j];
    assert s.log[c.starts[place.j] + x] == S.LogEntry(c.sends[place.j].records[x], Some(place));
  }

  lemma SessionIsOnce(config: Config, states: seq<State>, events: seq<Event>, n: nat)
    requires config.producer.Valid() && IsRun(config, states, events) && n <= |events|
    ensures Once.Once(config.session, states[n].session)
  {
    RunRefines(config, states, events, n);
    Once.RunIsOnce(config.session, [], Sessions(states, n), SessionEvents(config, states, events, n), n);
  }

  /** The policy or the producer's expected sequence number excludes duplicates. */
  predicate ExcludesDuplicates(config: Config) {
    config.session.policy.NoSideEffects? || config.matchSeqNum.Some?
  }

  lemma SourceIsMade(s: State, p: nat)
    requires Linked(s) && Once.SourceOf(s.session, p).Some?
    ensures IsMade(s.made, Once.SourceOf(s.session, p).value)
  {}

  lemma OneCopyOnly(config: Config, states: seq<State>, events: seq<Event>, n: nat, p: nat, q: nat)
    requires config.producer.Valid() && IsRun(config, states, events) && n <= |events|
    requires var s := states[n].session;
             && Once.SourceOf(s, p).Some? && Once.SourceOf(s, p) == Once.SourceOf(s, q)
             && (config.session.policy.NoSideEffects? || Once.SourceOf(s, p).value.matchSeqNum.Some?)
    ensures states[n].session.log[p].from == states[n].session.log[q].from
  {
    RunRefines(config, states, events, n);
    Once.AtMostOneCopy(
      config.session, [], Sessions(states, n), SessionEvents(config, states, events, n), n, p, q);
  }

  /** With duplicates excluded, no two places of the log hold the record of the same ticket. */
  lemma NoRecordTwice(config: Config, states: seq<State>, events: seq<Event>, n: nat, p: nat, q: nat)
    requires config.producer.Valid() && IsRun(config, states, events) && n <= |events| && ExcludesDuplicates(config)
    requires var log := states[n].session.log;
             && p < |log| && q < |log| && log[p].from.Some? && log[q].from.Some? && log[p].record.id == log[q].record.id
    ensures p == q
  {
    RunRefines(config, states, events, n);
    RunIsOrdered(config, states, events, n);
    SessionIsOnce(config, states, events, n);
    var s := states[n];
    var x := RecordOfSource(config.session, s.session, p);
    var y := RecordOfSource(config.session, s.session, q);
    SourceIsMade(s, p);
    SourceIsMade(s, q);
    var a, b := Once.SourceOf(s.session, p).value.id, Once.SourceOf(s.session, q).value.id;
    IdsDecide(s.made, s.producer.issued, a, x, b, y);
    OneCopyOnly(config, states, events, n, p, q);
  }

  /**
    If `close` reports success and duplicates are excluded, every record submitted before is in the log exactly once,
    where its ticket says.
   */
  lemma CloseOkMeansExactlyOnce(config: Config, states: seq<State>, events: seq<Event>, n: nat, id: nat)
    returns (i: nat, p: nat)
    requires config.producer.Valid() && IsRun(config, states, events) && n <= |events| && ExcludesDuplicates(config)
    requires states[n].producer.closeReply == Some(Ok(()))
    ensures states[n].producer.closeAt.Some?
    ensures var s := states[n];
            id < s.producer.closeAt.value ==>
              && i < |s.producer.resolved| && s.producer.resolved[i].record.id == id
              && s.producer.resolved[i].outcome.Acked? && s.producer.resolved[i].outcome.seqNum == p
              && p < |s.session.log| && s.session.log[p].from.Some?
              && s.session.log[p].record == s.producer.resolved[i].record
              && forall q | 0 <= q < |s.session.log| && s.session.log[q].from.Some?
                   && s.session.log[q].record.id == id :: q == p
  {
    p := 0;
    RunRefines(config, states, events, n);
    i := PA.CloseOkMeansAllAcked(
      config.producer, Producers(states, n), ProducerEvents(config, states, events, n), n, id);
    var s := states[n];
    if id < s.producer.closeAt.value {
      p := s.producer.resolved[i].outcome.seqNum;
      assert s.producer.log[p] == SeenEntry(s.session.log[p]);
      forall q | 0 <= q < |s.session.log| && s.session.log[q].from.Some? && s.session.log[q].record.id == id
        ensures q == p
      {
        NoRecordTwice(config, states, events, n, p, q);
      }
    }
  }
}
