/** When duplicates are excluded, no submission gets into the log twice, however often the session reconnects. */
module SessionOnce {
  import opened Wrappers
  import opened Records
  import opened SessionProtocol
  import opened SessionAcks
  import opened SessionConservation

  // ---------- What was sent is in flight or resolved ----------

  ghost predicate SentIsHanded(s: State) {
    forall k, j | 0 <= k < |s.connections| && 0 <= j < |s.connections[k].sends| ::
      Handed(s, s.connections[k].sends[j].id) >= 1
  }

  lemma {:induction false} MemberCounts(submissions: seq<Submission>, i: nat, n: nat)
    requires i < n <= |submissions|
    ensures CountIn(submissions, submissions[i].id, n) >= 1
  {
    if i < n - 1 {
      MemberCounts(submissions, i, n - 1);
    }
  }

  lemma DroppedWaitsLess(s: State, next: State, id: nat)
    requires next.queue == s.queue || next.queue == []
    requires next.stashed == s.stashed || next.stashed.None?
    ensures Waiting(next, id) <= Waiting(s, id)
  {}

  lemma WaitingFalls(config: Config, s: State, e: Event, id: nat)
    requires Enabled(s, e) && !e.NewSubmission? && !e.NewClose?
    ensures Waiting(Apply(config, s, e), id) <= Waiting(s, id)
  {
    if e.Receive? {
      CountQueuedTail(s.queue, id, |s.queue|);
      DroppedWaitsLess(AfterReceive(s), AfterBranch(AfterReceive(s)), id);
    } else {
      DroppedWaitsLess(s, Apply(config, s, e), id);
    }
  }

  lemma HandedGrows(config: Config, s: State, e: Event, id: nat)
    requires Enabled(s, e)
    ensures Handed(Apply(config, s, e), id) >= Handed(s, id)
  {
    if !e.NewSubmission? && !e.NewClose? {
      TaskConserves(config, s, e, id);
      WaitingFalls(config, s, e, id);
    }
  }

  /** A submission that is sent is in flight afterwards, or resolved. */
  lemma NewSendIsHanded(config: Config, s: State, e: Event)
    requires Enabled(s, e) && (e.Resend? || e.SendStashed?)
    ensures Handed(Apply(config, s, e), (if e.Resend? then s.inflight[s.phase.index] else s.stashed.value).id) >= 1
  {
    if e.Resend? {
      MemberCounts(s.inflight, s.phase.index, |s.inflight|);
    } else {
      MemberCounts(AfterSendStashed(s).inflight, |s.inflight|, |s.inflight| + 1);
      var id := s.stashed.value.id;
      BranchConserves(AfterSendStashed(s), id);
    }
  }

  /** The sends after a step are those before it, and the one it makes. */
  lemma SendsAfter(config: Config, s: State, e: Event, k: nat, j: nat)
    requires Enabled(s, e) && k < |Apply(config, s, e).connections| && j < |Apply(config, s, e).connections[k].sends|
    ensures
      || (k < |s.connections| && j < |s.connections[k].sends| &&
          Apply(config, s, e).connections[k].sends[j] == s.connections[k].sends[j])
      || ((e.Resend? || e.SendStashed?) && k == |s.connections| - 1 && j == |s.connections[k].sends| &&
          Apply(config, s, e).connections[k].sends[j] ==
            if e.Resend? then s.inflight[s.phase.index] else s.stashed.value)
  {
    if !e.Serve? && !e.OtherAppend? {
      ConnectionsAre(config, s, e);
    }
  }

  lemma SentIsHandedStep(config: Config, s: State, e: Event)
    requires SentIsHanded(s) && Enabled(s, e)
    ensures SentIsHanded(Apply(config, s, e))
  {
    var next := Apply(config, s, e);
    forall k, j | 0 <= k < |next.connections| && 0 <= j < |next.connections[k].sends|
      ensures Handed(next, next.connections[k].sends[j].id) >= 1
    {
      SendsAfter(config, s, e, k, j);
      if k < |s.connections| && j < |s.connections[k].sends| {
        HandedGrows(config, s, e, s.connections[k].sends[j].id);
      } else {
        NewSendIsHanded(config, s, e);
      }
    }
  }

  // ---------- Unconditional submissions are sent once ----------

  /** A session is taken up again only if everything it will send again carries a condition. */
  ghost predicate Compliant(config: Config, s: State) {
    s.phase.Connecting? || s.phase.Resending? ==> IsCompliant(config.policy, s.inflight)
  }

  lemma AckStaysCompliant(config: Config, s: State)
    requires Sound(s) && Compliant(config, s) && Enabled(s, ReceiveAck)
    ensures Compliant(config, AfterAck(s))
  {
    AckIsProcessed(s);
  }

  lemma BranchStaysCompliant(config: Config, s: State)
    requires s.phase.Streaming?
    ensures Compliant(config, AfterBranch(s))
  {}

  lemma FailureIsCompliant(config: Config, s: State, error: SessionError)
    ensures Compliant(config, AfterFailure(config, s, error)) && Compliant(config, RejectHeld(s, error))
  {}

  lemma EndStaysCompliant(config: Config, s: State, e: Event)
    requires Enabled(s, e) && (e.SendersGone? || e.Abort? || e.Fail? || e.StreamEnd?)
    ensures Compliant(config, Apply(config, s, e))
  {
    var error := if e.Fail? then e.error else if e.StreamEnd? then StreamClosedEarly else SessionDropped;
    FailureIsCompliant(config, s, error);
  }

  lemma CompliantStep(config: Config, s: State, e: Event)
    requires Sound(s) && Compliant(config, s) && Enabled(s, e)
    ensures Compliant(config, Apply(config, s, e))
  {
    if e.ReceiveAck? {
      AckStaysCompliant(config, s);
    } else if e.SendStashed? {
      BranchStaysCompliant(config, AfterSendStashed(s));
    } else if e.Receive? {
      BranchStaysCompliant(config, AfterReceive(s));
    } else if e.SendersGone? || e.Abort? || e.Fail? || e.StreamEnd? {
      EndStaysCompliant(config, s, e);
    }
  }

  ghost predicate SentOnce(s: State) {
    forall k, j, l, m |
      && 0 <= k < |s.connections| && 0 <= j < |s.connections[k].sends|
      && 0 <= l < |s.connections| && 0 <= m < |s.connections[l].sends|
      && s.connections[k].sends[j] == s.connections[l].sends[m] && s.connections[k].sends[j].matchSeqNum.None? ::
      k == l && j == m
  }

  lemma StashedWasNotSent(s: State, k: nat, j: nat)
    requires SentIsHanded(s) && s.stashed.Some? && Conserved(s, s.stashed.value.id)
    requires k < |s.connections| && j < |s.connections[k].sends|
    ensures s.connections[k].sends[j] != s.stashed.value
  {
    assert Handed(s, s.connections[k].sends[j].id) >= 1;
  }

  lemma SentOnceStep(config: Config, s: State, e: Event)
    requires config.policy.NoSideEffects? && Sound(s) && Compliant(config, s) && SentIsHanded(s) && SentOnce(s)
    requires Enabled(s, e) && (s.stashed.Some? ==> Conserved(s, s.stashed.value.id))
    ensures SentOnce(Apply(config, s, e))
  {
    var next := Apply(config, s, e);
    forall k, j, l, m |
      && 0 <= k < |next.connections| && 0 <= j < |next.connections[k].sends|
      && 0 <= l < |next.connections| && 0 <= m < |next.connections[l].sends|
      && next.connections[k].sends[j] == next.connections[l].sends[m] && next.connections[k].sends[j].matchSeqNum.None?
      ensures k == l && j == m
    {
      SendsAfter(config, s, e, k, j);
      SendsAfter(config, s, e, l, m);
      if e.SendStashed? && k < |s.connections| && j < |s.connections[k].sends| {
        StashedWasNotSent(s, k, j);
      }
      if e.SendStashed? && l < |s.connections| && m < |s.connections[l].sends| {
        StashedWasNotSent(s, l, m);
      }
    }
  }

  // ---------- The log knows its sends ----------

  ghost predicate Traced(s: State) {
    forall p | 0 <= p < |s.log| && s.log[p].from.Some? ::
      var place := s.log[p].from.value;
      && place.k < |s.connections| && place.j < |s.connections[place.k].starts| <= |s.connections[place.k].sends|
      && s.connections[place.k].starts[place.j] <= p < EndOf(s.connections[place.k], place.j)
  }

  lemma ServedStays(config: Config, s: State, e: Event, k: nat, j: nat)
    requires Enabled(s, e) && k < |s.connections| && j < |s.connections[k].starts| <= |s.connections[k].sends|
    ensures var c := Apply(config, s, e).connections;
            && k < |c| && j < |c[k].starts| <= |c[k].sends|
            && c[k].starts[j] == s.connections[k].starts[j] && c[k].sends[j] == s.connections[k].sends[j]
  {
    if !e.Serve? && !e.OtherAppend? {
      ConnectionsAre(config, s, e);
    }
  }

  lemma TracedStep(config: Config, s: State, e: Event)
    requires Traced(s) && Enabled(s, e)
    ensures Traced(Apply(config, s, e))
  {
    var next := Apply(config, s, e);
    if !e.Serve? && !e.OtherAppend? {
      ConnectionsAre(config, s, e);
    }
    forall p | 0 <= p < |next.log| && next.log[p].from.Some?
      ensures var place := next.log[p].from.value;
        && place.k < |next.connections|
        && place.j < |next.connections[place.k].starts| <= |next.connections[place.k].sends|
        && next.connections[place.k].starts[place.j] <= p < EndOf(next.connections[place.k], place.j)
    {
      if p < |s.log| {
        assert next.log[p] == s.log[p];
        ServedStays(config, s, e, s.log[p].from.value.k, s.log[p].from.value.j);
      }
    }
  }

  // ---------- Whole runs ----------

  ghost predicate Once(config: Config, s: State) {
    && Sound(s) && Compliant(config, s) && SentIsHanded(s) && Traced(s)
    && (config.policy.NoSideEffects? ==> SentOnce(s))
  }

  lemma {:induction false} RunIsOnce(
    config: Config, first: seq<AppendRecord>, states: seq<State>, events: seq<Event>, i: nat)
    requires IsRun(config, first, states, events) && i < |states|
    ensures Once(config, states[i])
  {
    if i > 0 {
      var s, e := states[i - 1], events[i - 1];
      RunIsOnce(config, first, states, events, i - 1);
      SoundStep(config, s, e);
      CompliantStep(config, s, e);
      SentIsHandedStep(config, s, e);
      TracedStep(config, s, e);
      if config.policy.NoSideEffects? {
        if s.stashed.Some? {
          var id := s.stashed.value.id;
          RunConserves(config, first, states, events, i - 1, id);
        }
        SentOnceStep(config, s, e);
      }
    }
  }

  /** The submission a record of the log came from, if the session wrote it. */
  function SourceOf(s: State, p: nat): Option<Submission> {
    if p < |s.log| && s.log[p].from.Some? then SendAt(s, s.log[p].from.value) else None
  }

  function SendAt(s: State, place: Place): Option<Submission> {
    if place.k < |s.connections| && place.j < |s.connections[place.k].sends|
    then Some(s.connections[place.k].sends[place.j])
    else None
  }

  lemma ConditionalOnce(s: State, a: Place, b: Place)
    requires ConnectionsOk(s) && a.k < |s.connections| && b.k < |s.connections|
    requires a.j < |s.connections[a.k].starts| && b.j < |s.connections[b.k].starts|
    requires |s.connections[a.k].starts| <= |s.connections[a.k].sends|
    requires |s.connections[b.k].starts| <= |s.connections[b.k].sends|
    requires s.connections[a.k].sends[a.j] == s.connections[b.k].sends[b.j]
    requires s.connections[a.k].sends[a.j].matchSeqNum.Some?
    ensures a == b
  {
    assert ConnectionOk(s.log, s.connections[a.k], a.k) && ConnectionOk(s.log, s.connections[b.k], b.k);
    assert Served(s.log, s.connections[a.k], a.k, a.j) && Served(s.log, s.connections[b.k], b.k, b.j);
    var start := s.connections[a.k].starts[a.j];
    var submission := s.connections[a.k].sends[a.j];
    assert s.log[start + 0] == LogEntry(submission.records[0], Some(Place(a.k, a.j)));
    assert s.log[s.connections[b.k].starts[b.j] + 0] == LogEntry(submission.records[0], Some(Place(b.k, b.j)));
  }

  /** Every record of the log that the session wrote belongs to a submission. */
  lemma EveryRecordHasASource(
    config: Config, first: seq<AppendRecord>, states: seq<State>, events: seq<Event>, i: nat, p: nat)
    requires IsRun(config, first, states, events) && i < |states| && p < |states[i].log|
    ensures SourceOf(states[i], p).Some? <==> states[i].log[p].from.Some?
  {
    RunIsOnce(config, first, states, events, i);
  }

  /**
    If the policy is `NoSideEffects`, or the submission carries an expected sequence number, all its records in the
    log belong to one copy, whichever connections it was sent on.
   */
  lemma AtMostOneCopy(
    config: Config, first: seq<AppendRecord>, states: seq<State>, events: seq<Event>, i: nat, p: nat, q: nat)
    requires IsRun(config, first, states, events) && i < |states|
    requires SourceOf(states[i], p).Some? && SourceOf(states[i], p) == SourceOf(states[i], q)
    requires config.policy.NoSideEffects? || SourceOf(states[i], p).value.matchSeqNum.Some?
    ensures states[i].log[p].from == states[i].log[q].from
  {
    RunIsOnce(config, first, states, events, i);
    var s := states[i];
    if SourceOf(s, p).value.matchSeqNum.Some? {
      ConditionalOnce(s, s.log[p].from.value, s.log[q].from.value);
    }
  }
}
