/** Every submission to a session is in one place, and is resolved exactly once. */
module SessionConservation {
  import opened Records
  import opened SessionProtocol

  function IsOf(submission: Submission, id: nat): nat {
    if submission.id == id then 1 else 0
  }

  function CountIn(submissions: seq<Submission>, id: nat, n: nat): nat
    requires n <= |submissions|
  {
    if n == 0 then 0 else CountIn(submissions, id, n - 1) + IsOf(submissions[n - 1], id)
  }

  function CountQueued(queue: seq<Command>, id: nat, n: nat): nat
    requires n <= |queue|
  {
    if n == 0 then 0
    else CountQueued(queue, id, n - 1) + if queue[n - 1].Submit? then IsOf(queue[n - 1].submission, id) else 0
  }

  function CountResolved(resolved: seq<Resolution>, id: nat, n: nat): nat
    requires n <= |resolved|
  {
    if n == 0 then 0 else CountResolved(resolved, id, n - 1) + IsOf(resolved[n - 1].submission, id)
  }

  function Stashed(s: State, id: nat): nat {
    if s.stashed.Some? then IsOf(s.stashed.value, id) else 0
  }

  function Handed(s: State, id: nat): nat {
    CountIn(s.inflight, id, |s.inflight|) + CountResolved(s.resolved, id, |s.resolved|)
  }

  function Waiting(s: State, id: nat): nat {
    Stashed(s, id) + CountQueued(s.queue, id, |s.queue|)
  }

  function Tally(s: State, id: nat): nat {
    Handed(s, id) + Waiting(s, id)
  }

  /** A submission is queued, stashed, in flight or resolved: one of these, and once. */
  predicate Conserved(s: State, id: nat) {
    Tally(s, id) == if id < s.issued then 1 else 0
  }

  lemma {:induction false} CountInPrefix(a: seq<Submission>, b: seq<Submission>, id: nat, n: nat)
    requires n <= |a| && n <= |b| && forall i | 0 <= i < n :: a[i] == b[i]
    ensures CountIn(a, id, n) == CountIn(b, id, n)
  {
    if n > 0 {
      CountInPrefix(a, b, id, n - 1);
    }
  }

  lemma {:induction false} CountInAppend(a: seq<Submission>, b: seq<Submission>, id: nat, n: nat)
    requires n <= |b|
    ensures CountIn(a + b, id, |a| + n) == CountIn(a, id, |a|) + CountIn(b, id, n)
  {
    if n == 0 {
      CountInPrefix(a, a + b, id, |a|);
    } else {
      CountInAppend(a, b, id, n - 1);
    }
  }

  lemma {:induction false} CountInTail(a: seq<Submission>, id: nat, n: nat)
    requires 0 < n <= |a|
    ensures CountIn(a, id, n) == IsOf(a[0], id) + CountIn(a[1..], id, n - 1)
  {
    if n > 1 {
      CountInTail(a, id, n - 1);
    }
  }

  lemma {:induction false} CountQueuedPrefix(a: seq<Command>, b: seq<Command>, id: nat, n: nat)
    requires n <= |a| && n <= |b| && forall i | 0 <= i < n :: a[i] == b[i]
    ensures CountQueued(a, id, n) == CountQueued(b, id, n)
  {
    if n > 0 {
      CountQueuedPrefix(a, b, id, n - 1);
    }
  }

  lemma {:induction false} CountQueuedTail(a: seq<Command>, id: nat, n: nat)
    requires 0 < n <= |a|
    ensures CountQueued(a, id, n) ==
      (if a[0].Submit? then IsOf(a[0].submission, id) else 0) + CountQueued(a[1..], id, n - 1)
  {
    if n > 1 {
      CountQueuedTail(a, id, n - 1);
    }
  }

  /** The queue's submissions are those `Queued` lists. */
  lemma {:induction false} CountOfQueued(queue: seq<Command>, id: nat)
    ensures CountIn(Queued(queue), id, |Queued(queue)|) == CountQueued(queue, id, |queue|)
  {
    if queue != [] {
      var n := |queue| - 1;
      CountOfQueued(queue[..n], id);
      CountQueuedPrefix(queue[..n], queue, id, n);
      CountInPrefix(Queued(queue[..n]), Queued(queue), id, |Queued(queue[..n])|);
    }
  }

  lemma {:induction false} CountResolvedPrefix(a: seq<Resolution>, b: seq<Resolution>, id: nat, n: nat)
    requires n <= |a| && n <= |b| && forall i | 0 <= i < n :: a[i] == b[i]
    ensures CountResolved(a, id, n) == CountResolved(b, id, n)
  {
    if n > 0 {
      CountResolvedPrefix(a, b, id, n - 1);
    }
  }

  lemma {:induction false} CountRejected(
    resolved: seq<Resolution>, submissions: seq<Submission>, error: SessionError, id: nat, n: nat)
    requires n <= |submissions|
    ensures CountResolved(resolved + RejectAll(submissions, error), id, |resolved| + n)
      == CountResolved(resolved, id, |resolved|) + CountIn(submissions, id, n)
  {
    if n == 0 {
      CountResolvedPrefix(resolved, resolved + RejectAll(submissions, error), id, |resolved|);
    } else {
      CountRejected(resolved, submissions, error, id, n - 1);
    }
  }

  // ---------- Steps ----------

  lemma FinishConserves(s: State, id: nat)
    ensures Tally(Finish(s), id) == Tally(s, id)
  {
    CountRejected(s.resolved, Queued(s.queue), SessionDropped, id, |Queued(s.queue)|);
    CountOfQueued(s.queue, id);
  }

  lemma BranchConserves(s: State, id: nat)
    ensures Tally(AfterBranch(s), id) == Tally(s, id)
  {
    FinishConserves(s, id);
  }

  lemma CountHeld(s: State, id: nat)
    ensures CountIn(Held(s), id, |Held(s)|) == CountIn(s.inflight, id, |s.inflight|) + Waiting(s, id)
  {
    var stashed := if s.stashed.Some? then [s.stashed.value] else [];
    CountInAppend(s.inflight + stashed, Queued(s.queue), id, |Queued(s.queue)|);
    CountInAppend(s.inflight, stashed, id, |stashed|);
    CountOfQueued(s.queue, id);
  }

  lemma RejectConserves(s: State, error: SessionError, id: nat)
    ensures Tally(RejectHeld(s, error), id) == Tally(s, id)
  {
    CountHeld(s, id);
    CountRejected(s.resolved, Held(s), error, id, |Held(s)|);
  }

  lemma FailureConserves(config: Config, s: State, error: SessionError, id: nat)
    ensures Tally(AfterFailure(config, s, error), id) == Tally(s, id)
  {
    RejectConserves(s, error, id);
  }

  lemma ReceiveConserves(s: State, id: nat)
    requires Enabled(s, Receive)
    ensures Tally(AfterReceive(s), id) == Tally(s, id)
  {
    CountQueuedTail(s.queue, id, |s.queue|);
    CountResolvedPrefix(s.resolved, AfterReceive(s).resolved, id, |s.resolved|);
  }

  lemma SendStashedConserves(s: State, id: nat)
    requires Enabled(s, SendStashed)
    ensures Tally(AfterSendStashed(s), id) == Tally(s, id)
  {
    CountInPrefix(s.inflight, AfterSendStashed(s).inflight, id, |s.inflight|);
  }

  lemma ProcessConserves(s: State, start: nat, end: nat, id: nat)
    ensures var next := ProcessAck(s, start, end); Tally(next, id) == Tally(s, id)
  {
    if s.inflight != [] {
      CountInTail(s.inflight, id, |s.inflight|);
      CountResolvedPrefix(s.resolved, s.resolved + [Acked(s.inflight[0], start)], id, |s.resolved|);
    }
  }

  lemma ProcessedConserves(s: State, id: nat)
    ensures Tally(AfterProcessed(s), id) == Tally(s, id)
  {
    BranchConserves(s, id);
  }

  lemma SameTally(s: State, next: State, id: nat)
    requires next.inflight == s.inflight && next.stashed == s.stashed
    requires next.queue == s.queue && next.resolved == s.resolved
    ensures Tally(next, id) == Tally(s, id)
  {}

  lemma AckConserves(s: State, id: nat)
    requires Enabled(s, ReceiveAck)
    ensures Tally(AfterAck(s), id) == Tally(s, id)
  {
    var start, end := Current(s).starts[Current(s).acked], NextEnd(Current(s));
    SameTally(s, Acknowledged(s), id);
    ProcessConserves(Acknowledged(s), start, end, id);
    ProcessedConserves(ProcessAck(Acknowledged(s), start, end), id);
  }

  lemma UserConserves(config: Config, s: State, e: Event, id: nat)
    requires Conserved(s, id) && Enabled(s, e) && (e.NewSubmission? || e.NewClose?)
    ensures Conserved(Apply(config, s, e), id)
  {
    CountQueuedPrefix(s.queue, Apply(config, s, e).queue, id, |s.queue|);
  }

  lemma EndConserves(config: Config, s: State, e: Event, id: nat)
    requires Enabled(s, e) && (e.SendersGone? || e.StreamEnd? || e.Fail?)
    ensures Tally(Apply(config, s, e), id) == Tally(s, id)
  {
    if e.StreamEnd? {
      FinishConserves(s, id);
    }
    var error := if e.SendersGone? then SessionDropped else if e.StreamEnd? then StreamClosedEarly else e.error;
    FailureConserves(config, s, error, id);
  }

  lemma BranchesConserve(config: Config, s: State, e: Event, id: nat)
    requires Enabled(s, e) && (e.SendStashed? || e.Receive?)
    ensures Tally(Apply(config, s, e), id) == Tally(s, id)
  {
    if e.SendStashed? {
      SendStashedConserves(s, id);
      BranchConserves(AfterSendStashed(s), id);
    } else {
      ReceiveConserves(s, id);
      BranchConserves(AfterReceive(s), id);
    }
  }

  lemma TaskConserves(config: Config, s: State, e: Event, id: nat)
    requires Enabled(s, e) && !e.NewSubmission? && !e.NewClose?
    ensures Tally(Apply(config, s, e), id) == Tally(s, id)
  {
    if e.SendersGone? || e.StreamEnd? || e.Fail? {
      EndConserves(config, s, e, id);
    } else if e.SendStashed? || e.Receive? {
      BranchesConserve(config, s, e, id);
    } else if e.ReceiveAck? {
      AckConserves(s, id);
    } else if e.Abort? {
      RejectConserves(s, SessionDropped, id);
    } else {
      SameTally(s, Apply(config, s, e), id);
    }
  }

  lemma TaskIssuesNothing(config: Config, s: State, e: Event)
    requires Enabled(s, e) && !e.NewSubmission?
    ensures Apply(config, s, e).issued == s.issued
  {}

  lemma {:induction false} RunConserves(
    config: Config, first: seq<AppendRecord>, states: seq<State>, events: seq<Event>, i: nat, id: nat)
    requires IsRun(config, first, states, events) && i < |states|
    ensures Conserved(states[i], id)
  {
    if i > 0 {
      RunConserves(config, first, states, events, i - 1, id);
      if events[i - 1].NewSubmission? || events[i - 1].NewClose? {
        UserConserves(config, states[i - 1], events[i - 1], id);
      } else {
        TaskConserves(config, states[i - 1], events[i - 1], id);
        TaskIssuesNothing(config, states[i - 1], events[i - 1]);
      }
    }
  }
}
