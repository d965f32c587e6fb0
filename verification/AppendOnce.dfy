/**
  How often the batch of one `append` call can end up in the log (s2-sdk/src/ops.rs:167-179, s2-sdk/src/api.rs:182-213
  and 700-776). The network may delay, lose or reorder requests and responses, and other writers append meanwhile.
 */
module AppendOnce {
  import opened Wrappers
  import opened Retry

  datatype AppendRetryPolicy = All | NoSideEffects {
    predicate IsCompliant(matchSeqNum: Option<nat>) {
      match this
      case All => true
      case NoSideEffects => matchSeqNum.Some?
    }
  }

  /** What stays the same during the call. */
  datatype Call<R> = Call(
    batch: seq<R>,
    matchSeqNum: Option<nat>,
    fenced: bool,                     // the input names a fencing token, which the server may find outdated
    policy: AppendRetryPolicy,
    config: RetryConfig)
  {
    predicate Valid() {
      batch != [] && config.Valid()
    }

    function Limit(): nat {
      AttemptLimit(config, policy.IsCompliant(matchSeqNum))
    }
  }

  /** A record in the log, with the attempt of this call that wrote it. */
  datatype Entry<R> = Entry(record: R, attempt: Option<nat>)

  /** What the server did with an attempt. Until it did anything, the request may still arrive. */
  datatype Attempt = Pending | Applied(start: nat) | Refused(failure: ConditionFailure)

  datatype Progress = Waiting | Done(result: Result<nat, ApiError>)

  datatype State<R> = State(log: seq<Entry<R>>, attempts: seq<Attempt>, progress: Progress)

  datatype Event<R> =
    | OtherAppend(records: seq<R>)
    | Deliver(k: nat, outdated: Option<string>)     // with the current fencing token if it does not match
    | Respond(response: Response, start: nat)       // `start` is the acknowledged position, if there is one

  function Start<R>(log: seq<Entry<R>>): State<R> {
    State(log, [Pending], Waiting)
  }

  function Tag<R>(records: seq<R>, attempt: Option<nat>): (entries: seq<Entry<R>>)
    ensures |entries| == |records|
    ensures forall i | 0 <= i < |records| :: entries[i] == Entry(records[i], attempt)
  {
    seq(|records|, i requires 0 <= i < |records| => Entry(records[i], attempt))
  }

  /** The server answers for what it did; any other answer may come at any time, also for an applied request. */
  predicate IsTruthful(attempt: Attempt, response: Response, start: nat) {
    match Classify(true, response)
    case Ok(_) => attempt == Applied(start)
    case Err(AppendConditionFailed(failure)) => attempt == Refused(failure)
    case Err(_) => true
  }

  predicate Enabled<R(==)>(call: Call<R>, s: State<R>, e: Event<R>) {
    match e
    case OtherAppend(_) => true
    case Deliver(k, outdated) =>
      k < |s.attempts| && s.attempts[k].Pending? && (outdated.Some? ==> call.fenced)
    case Respond(response, start) =>
      s.progress.Waiting? && |s.attempts| > 0 && IsTruthful(s.attempts[|s.attempts| - 1], response, start)
  }

  function Apply<R(==)>(call: Call<R>, s: State<R>, e: Event<R>): State<R>
    requires Enabled(call, s, e)
  {
    match e
    case OtherAppend(records) => s.(log := s.log + Tag(records, None))
    case Deliver(k, outdated) => DeliverAttempt(call, s, k, outdated)
    case Respond(response, start) => Receive(call, s, response, start)
  }

  /** The server checks the conditions against its tail and appends the batch as a whole. */
  function DeliverAttempt<R>(call: Call<R>, s: State<R>, k: nat, outdated: Option<string>): State<R>
    requires k < |s.attempts|
  {
    if outdated.Some? then
      s.(attempts := s.attempts[k := Refused(FencingTokenMismatch(outdated.value))])
    else if call.matchSeqNum.Some? && call.matchSeqNum.value != |s.log| then
      s.(attempts := s.attempts[k := Refused(SeqNumMismatch(|s.log|))])
    else
      s.(attempts := s.attempts[k := Applied(|s.log|)], log := s.log + Tag(call.batch, Some(k)))
  }

  /** The client's side, one turn of `Send`. A successful response that cannot be decoded is an error too. */
  function Receive<R>(call: Call<R>, s: State<R>, response: Response, start: nat): State<R> {
    match Classify(true, response)
    case Ok(body) => s.(progress := Done(if body.Payload? then Ok(start) else Err(ProtoDecode)))
    case Err(error) =>
      if error.IsRetryable() && |s.attempts| < call.Limit() then s.(attempts := s.attempts + [Pending])
      else s.(progress := Done(Err(error)))
  }

  predicate IsRun<R(==)>(call: Call<R>, log: seq<Entry<R>>, states: seq<State<R>>, events: seq<Event<R>>) {
    && |states| == |events| + 1 && states[0] == Start(log)
    && forall i | 0 <= i < |events| ::
      Enabled(call, states[i], events[i]) && states[i + 1] == Apply(call, states[i], events[i])
  }

  // ---------- Counting copies ----------

  function AppliedCount(attempts: seq<Attempt>, n: nat): nat
    requires n <= |attempts|
  {
    if n == 0 then 0 else AppliedCount(attempts, n - 1) + if attempts[n - 1].Applied? then 1 else 0
  }

  /** Records in the first `n` places of the log that this call wrote. */
  function OwnRecords<R>(log: seq<Entry<R>>, n: nat): nat
    requires n <= |log|
  {
    if n == 0 then 0 else OwnRecords(log, n - 1) + if log[n - 1].attempt.Some? then 1 else 0
  }

  /** The whole batch stands at `start`, written by attempt `k`. */
  predicate CopyAt<R(==)>(batch: seq<R>, log: seq<Entry<R>>, start: nat, k: nat) {
    start + |batch| <= |log| && log[start..start + |batch|] == Tag(batch, Some(k))
  }

  lemma {:induction false} OwnRecordsOfPrefix<R>(a: seq<Entry<R>>, b: seq<Entry<R>>, n: nat)
    requires n <= |a| <= |b| && a == b[..|a|]
    ensures OwnRecords(a, n) == OwnRecords(b, n)
  {
    if n > 0 {
      OwnRecordsOfPrefix(a, b, n - 1);
    }
  }

  lemma {:induction false} OwnRecordsAppend<R>(log: seq<Entry<R>>, records: seq<R>, attempt: Option<nat>, n: nat)
    requires n <= |records|
    ensures OwnRecords(log + Tag(records, attempt), |log| + n)
      == OwnRecords(log, |log|) + if attempt.Some? then n else 0
  {
    if n == 0 {
      OwnRecordsOfPrefix(log, log + Tag(records, attempt), |log|);
    } else {
      OwnRecordsAppend(log, records, attempt, n - 1);
    }
  }

  lemma {:induction false} AppliedCountUpdate(attempts: seq<Attempt>, k: nat, a: Attempt, n: nat)
    requires n <= |attempts| && k < |attempts| && !attempts[k].Applied?
    ensures AppliedCount(attempts[k := a], n) == AppliedCount(attempts, n) + if k < n && a.Applied? then 1 else 0
  {
    if n > 0 {
      AppliedCountUpdate(attempts, k, a, n - 1);
    }
  }

  lemma {:induction false} AppliedCountOfPrefix(a: seq<Attempt>, b: seq<Attempt>, n: nat)
    requires n <= |a| <= |b| && a == b[..|a|]
    ensures AppliedCount(a, n) == AppliedCount(b, n) <= n
  {
    if n > 0 {
      AppliedCountOfPrefix(a, b, n - 1);
    }
  }

  lemma OnePlaceOneAttempt<R>(batch: seq<R>, log: seq<Entry<R>>, start: nat, j: nat, k: nat)
    requires batch != [] && CopyAt(batch, log, start, j) && CopyAt(batch, log, start, k)
    ensures j == k
  {
    assert log[start..start + |batch|][0] == Entry(batch[0], Some(j));
    assert log[start..start + |batch|][0] == Entry(batch[0], Some(k));
  }

  /** Attempts that were all applied at the same place are one attempt. */
  lemma {:induction false} AppliedAtOnePlace<R>(
    batch: seq<R>, log: seq<Entry<R>>, attempts: seq<Attempt>, n: nat, m: nat)
    requires n <= |attempts| && batch != []
    requires forall k | 0 <= k < |attempts| && attempts[k].Applied? ::
      attempts[k].start == m && CopyAt(batch, log, m, k)
    ensures AppliedCount(attempts, n) <= 1
    ensures AppliedCount(attempts, n) == 1 ==> exists k :: 0 <= k < n && attempts[k].Applied?
  {
    if n > 0 {
      AppliedAtOnePlace(batch, log, attempts, n - 1, m);
      if attempts[n - 1].Applied? && AppliedCount(attempts, n - 1) == 1 {
        var k :| 0 <= k < n - 1 && attempts[k].Applied?;
        OnePlaceOneAttempt(batch, log, m, k, n - 1);
      }
    }
  }

  // ---------- Invariant ----------

  /** Nothing in the log claims to be this call's before it starts. */
  predicate IsForeign<R>(log: seq<Entry<R>>) {
    forall i | 0 <= i < |log| :: log[i].attempt.None?
  }

  ghost predicate Placed<R>(call: Call<R>, s: State<R>) {
    forall k | 0 <= k < |s.attempts| && s.attempts[k].Applied? ::
      && CopyAt(call.batch, s.log, s.attempts[k].start, k)
      && (call.matchSeqNum.Some? ==> s.attempts[k].start == call.matchSeqNum.value)
  }

  ghost predicate Accounted<R>(call: Call<R>, s: State<R>, initial: nat) {
    OwnRecords(s.log, |s.log|) == initial + |call.batch| * AppliedCount(s.attempts, |s.attempts|)
  }

  /** Every record this call wrote lies in the place that the server gave to one of its attempts. */
  ghost predicate Traced<R>(call: Call<R>, s: State<R>) {
    forall p | 0 <= p < |s.log| && s.log[p].attempt.Some? ::
      var k := s.log[p].attempt.value;
      && k < |s.attempts| && s.attempts[k].Applied?
      && s.attempts[k].start <= p < s.attempts[k].start + |call.batch|
  }

  ghost predicate Bounded<R>(call: Call<R>, s: State<R>) {
    1 <= |s.attempts| <= call.Limit()
  }

  /** The caller is told the place of a copy, or the error of the last attempt. */
  ghost predicate Answered<R>(call: Call<R>, s: State<R>)
    requires |s.attempts| > 0
  {
    match s.progress
    case Waiting => true
    case Done(Ok(start)) => exists k :: 0 <= k < |s.attempts| && s.attempts[k] == Applied(start)
    case Done(Err(AppendConditionFailed(failure))) => s.attempts[|s.attempts| - 1] == Refused(failure)
    case Done(Err(error)) => error.IsRetryable() ==> |s.attempts| == call.Limit()
  }

  lemma CopyStays<R>(batch: seq<R>, log: seq<Entry<R>>, more: seq<Entry<R>>, start: nat, k: nat)
    requires CopyAt(batch, log, start, k)
    ensures CopyAt(batch, log + more, start, k)
  {
    assert (log + more)[start..start + |batch|] == log[start..start + |batch|];
  }

  lemma CopyAtEnd<R>(batch: seq<R>, log: seq<Entry<R>>, k: nat)
    ensures CopyAt(batch, log + Tag(batch, Some(k)), |log|, k)
  {}

  lemma PlacedStep<R>(call: Call<R>, s: State<R>, e: Event<R>)
    requires Placed(call, s) && Enabled(call, s, e)
    ensures Placed(call, Apply(call, s, e))
  {
    var next := Apply(call, s, e);
    var more := next.log[|s.log|..];
    assert next.log == s.log + more;
    forall k | 0 <= k < |next.attempts| && next.attempts[k].Applied?
      ensures CopyAt(call.batch, next.log, next.attempts[k].start, k)
    {
      if k < |s.attempts| && s.attempts[k].Applied? {
        CopyStays(call.batch, s.log, more, s.attempts[k].start, k);
      } else {
        CopyAtEnd(call.batch, s.log, k);
      }
    }
  }

  lemma TracedStep<R>(call: Call<R>, s: State<R>, e: Event<R>)
    requires Traced(call, s) && Enabled(call, s, e)
    ensures Traced(call, Apply(call, s, e))
  {
    var next := Apply(call, s, e);
    assert forall p | 0 <= p < |s.log| :: next.log[p] == s.log[p];
  }

  lemma DeliverAccounted<R>(call: Call<R>, s: State<R>, k: nat, outdated: Option<string>, initial: nat)
    requires Accounted(call, s, initial) && Enabled(call, s, Deliver(k, outdated))
    ensures Accounted(call, DeliverAttempt(call, s, k, outdated), initial)
  {
    var next := DeliverAttempt(call, s, k, outdated);
    var before := AppliedCount(s.attempts, |s.attempts|);
    AppliedCountUpdate(s.attempts, k, next.attempts[k], |s.attempts|);
    if next.attempts[k].Applied? {
      OwnRecordsAppend(s.log, call.batch, Some(k), |call.batch|);
      assert |call.batch| * (before + 1) == |call.batch| * before + |call.batch|;
    }
  }

  lemma AccountedStep<R>(call: Call<R>, s: State<R>, e: Event<R>, initial: nat)
    requires Accounted(call, s, initial) && Enabled(call, s, e)
    ensures Accounted(call, Apply(call, s, e), initial)
  {
    match e
    case OtherAppend(records) => OwnRecordsAppend(s.log, records, None, |records|);
    case Deliver(k, outdated) => DeliverAccounted(call, s, k, outdated, initial);
    case Respond(_, _) => AppliedCountOfPrefix(s.attempts, s.attempts + [Pending], |s.attempts|);
  }

  lemma AnsweredStep<R>(call: Call<R>, s: State<R>, e: Event<R>)
    requires Bounded(call, s) && Answered(call, s) && Enabled(call, s, e)
    ensures Bounded(call, Apply(call, s, e)) && Answered(call, Apply(call, s, e))
  {
    var next := Apply(call, s, e);
    if s.progress.Done? && s.progress.result.Ok? {
      var k :| 0 <= k < |s.attempts| && s.attempts[k] == Applied(s.progress.result.value);
      assert next.attempts[k] == Applied(s.progress.result.value);
    } else if e.Respond? {
      assert next.progress.Done? && next.progress.result.Ok? ==> next.attempts[|s.attempts| - 1] == Applied(e.start);
    }
  }

  lemma {:induction false} RunInvariant<R>(
    call: Call<R>, log: seq<Entry<R>>, states: seq<State<R>>, events: seq<Event<R>>, i: nat)
    requires call.Valid() && IsRun(call, log, states, events) && i < |states|
    ensures Placed(call, states[i]) && Accounted(call, states[i], OwnRecords(log, |log|))
    ensures IsForeign(log) ==> Traced(call, states[i])
    ensures Bounded(call, states[i]) && Answered(call, states[i])
  {
    if i > 0 {
      RunInvariant(call, log, states, events, i - 1);
      PlacedStep(call, states[i - 1], events[i - 1]);
      AccountedStep(call, states[i - 1], events[i - 1], OwnRecords(log, |log|));
      if IsForeign(log) {
        TracedStep(call, states[i - 1], events[i - 1]);
      }
      AnsweredStep(call, states[i - 1], events[i - 1]);
    }
  }

  // ---------- Theorems ----------

  lemma {:induction false} ForeignHasNoOwn<R>(log: seq<Entry<R>>, n: nat)
    requires IsForeign(log) && n <= |log|
    ensures OwnRecords(log, n) == 0
  {
    if n > 0 {
      ForeignHasNoOwn(log, n - 1);
    }
  }

  /** The most copies of the batch a call can leave behind. */
  function CopyLimit<R>(call: Call<R>): nat {
    if call.matchSeqNum.Some? || call.policy.NoSideEffects? then 1 else call.config.maxAttempts
  }

  lemma AppliedIsBounded<R>(call: Call<R>, s: State<R>)
    requires call.Valid() && Placed(call, s) && Bounded(call, s)
    ensures AppliedCount(s.attempts, |s.attempts|) <= CopyLimit(call)
  {
    AppliedCountOfPrefix(s.attempts, s.attempts, |s.attempts|);
    if call.matchSeqNum.Some? {
      AppliedAtOnePlace(call.batch, s.log, s.attempts, |s.attempts|, call.matchSeqNum.value);
    }
  }

  /** The record at p is part of a whole copy of the batch. */
  ghost predicate InWholeCopy<R>(batch: seq<R>, log: seq<Entry<R>>, p: nat) {
    exists start: nat, k: nat :: start <= p < start + |batch| && CopyAt(batch, log, start, k)
  }

  /**
    At every moment, also after the call returned, this call's records in the log are whole copies of the batch, that
    many of them, and no more: one when the policy is `NoSideEffects` or a sequence number is matched.
   */
  lemma CopiesAreBounded<R>(call: Call<R>, log: seq<Entry<R>>, states: seq<State<R>>, events: seq<Event<R>>, i: nat)
    returns (copies: nat)
    requires call.Valid() && IsForeign(log) && IsRun(call, log, states, events) && i < |states|
    ensures forall p | 0 <= p < |states[i].log| && states[i].log[p].attempt.Some? ::
      InWholeCopy(call.batch, states[i].log, p)
    ensures OwnRecords(states[i].log, |states[i].log|) == |call.batch| * copies
    ensures copies <= CopyLimit(call)
  {
    RunInvariant(call, log, states, events, i);
    ForeignHasNoOwn(log, |log|);
    AppliedIsBounded(call, states[i]);
    copies := AppliedCount(states[i].attempts, |states[i].attempts|);
    var s := states[i];
    forall p | 0 <= p < |s.log| && s.log[p].attempt.Some? ensures InWholeCopy(call.batch, s.log, p) {
      var k := s.log[p].attempt.value;
      assert CopyAt(call.batch, s.log, s.attempts[k].start, k);
    }
  }

  /** A call that returns Ok names a place where the whole batch stands. */
  lemma OkIsDurable<R>(call: Call<R>, log: seq<Entry<R>>, states: seq<State<R>>, events: seq<Event<R>>, i: nat)
    returns (k: nat)
    requires call.Valid() && IsRun(call, log, states, events) && i < |states|
    requires states[i].progress.Done? && states[i].progress.result.Ok?
    ensures k < call.Limit() && CopyAt(call.batch, states[i].log, states[i].progress.result.value, k)
    ensures call.matchSeqNum.Some? ==> call.matchSeqNum.value == states[i].progress.result.value
  {
    RunInvariant(call, log, states, events, i);
    k :| 0 <= k < |states[i].attempts| && states[i].attempts[k] == Applied(states[i].progress.result.value);
  }

  /** A failed condition on the first attempt is final: the batch is not in the log and never will be. */
  lemma FirstRefusalIsFinal<R>(call: Call<R>, log: seq<Entry<R>>, states: seq<State<R>>, events: seq<Event<R>>, i: nat)
    requires call.Valid() && IsForeign(log) && IsRun(call, log, states, events) && i < |states|
    requires |states[i].attempts| == 1 && states[i].progress.Done? && states[i].progress.result.Err?
    requires states[i].progress.result.error.AppendConditionFailed?
    ensures OwnRecords(states[i].log, |states[i].log|) == 0
  {
    RunInvariant(call, log, states, events, i);
    ForeignHasNoOwn(log, |log|);
    assert AppliedCount(states[i].attempts, 0) == 0;
  }

  // ---------- The bounds are met ----------

  const TIMED_OUT := Failed(Timeout)

  /** Each attempt is applied and its answer lost, until no attempt is left. */
  function Unlucky<R(==)>(call: Call<R>, s: State<R>, rounds: nat): (run: (seq<State<R>>, seq<Event<R>>))
    requires call.Valid() && call.matchSeqNum.None? && s.progress.Waiting?
    requires 0 < |s.attempts| && |s.attempts| + rounds == call.Limit() && s.attempts[|s.attempts| - 1].Pending?
    ensures |run.0| == |run.1| + 1 && run.0[0] == s
    ensures forall i | 0 <= i < |run.1| ::
      Enabled(call, run.0[i], run.1[i]) && run.0[i + 1] == Apply(call, run.0[i], run.1[i])
    ensures |run.0[|run.1|].attempts| == call.Limit()
    ensures AppliedCount(run.0[|run.1|].attempts, call.Limit()) == AppliedCount(s.attempts, |s.attempts|) + rounds + 1
    decreases rounds
  {
    var k := |s.attempts| - 1;
    var delivered := Apply(call, s, Deliver(k, None));
    var lost := Apply(call, delivered, Respond(TIMED_OUT, 0));
    AppliedCountUpdate(s.attempts, k, delivered.attempts[k], k + 1);
    if rounds == 0 then ([s, delivered], [Deliver(k, None)])
    else
      AppliedCountOfPrefix(delivered.attempts, lost.attempts, k + 1);
      var rest := Unlucky(call, lost, rounds - 1);
      ([s, delivered] + rest.0, [Deliver(k, None), Respond(TIMED_OUT, 0)] + rest.1)
  }

  /** The bound is tight: without a matched number some run leaves as many copies as the policy allows attempts. */
  lemma BoundIsReached<R>(call: Call<R>, log: seq<Entry<R>>) returns (states: seq<State<R>>, events: seq<Event<R>>)
    requires call.Valid() && call.matchSeqNum.None? && IsForeign(log)
    ensures IsRun(call, log, states, events)
    ensures OwnRecords(states[|events|].log, |states[|events|].log|) == |call.batch| * CopyLimit(call)
  {
    var run := Unlucky(call, Start(log), call.Limit() - 1);
    states, events := run.0, run.1;
    RunInvariant(call, log, states, events, |events|);
    ForeignHasNoOwn(log, |log|);
  }

  // ---------- When a failed condition means that nothing was written ----------

  predicate ReportsRefusal<R>(s: State<R>) {
    s.progress.Done? && s.progress.result.Err? && s.progress.result.error.AppendConditionFailed?
  }

  /** Whatever happens, a call that reports a failed condition has left nothing in the log. */
  ghost predicate RefusalMeansAbsent<R(!new)>(call: Call<R>, log: seq<Entry<R>>) {
    forall states: seq<State<R>>, events: seq<Event<R>>, i: nat
      | IsRun(call, log, states, events) && i < |states| && ReportsRefusal(states[i]) ::
      OwnRecords(states[i].log, |states[i].log|) == 0
  }

  /** Only one attempt is made, or the condition can never hold, or there is no condition to fail. */
  predicate RefusalIsSafe<R>(call: Call<R>, log: seq<Entry<R>>) {
    || call.Limit() == 1
    || if call.matchSeqNum.Some? then call.matchSeqNum.value < |log| else !call.fenced
  }

  lemma {:induction false} LogKeepsPrefix<R>(
    call: Call<R>, log: seq<Entry<R>>, states: seq<State<R>>, events: seq<Event<R>>, i: nat)
    requires IsRun(call, log, states, events) && i < |states|
    ensures |log| <= |states[i].log| && states[i].log[..|log|] == log
  {
    if i > 0 {
      LogKeepsPrefix(call, log, states, events, i - 1);
      assert states[i].log[..|states[i - 1].log|] == states[i - 1].log;
    }
  }

  lemma CopyIsBehind<R>(batch: seq<R>, log: seq<Entry<R>>, more: seq<Entry<R>>, start: nat, k: nat)
    requires batch != [] && IsForeign(log) && |log| <= |more| && more[..|log|] == log && CopyAt(batch, more, start, k)
    ensures start >= |log|
  {
    assert more[start..start + |batch|][0] == more[start];
  }

  /** A number that others' records have passed already is never matched. */
  lemma PassedNumberNeverMatches<R>(
    call: Call<R>, log: seq<Entry<R>>, states: seq<State<R>>, events: seq<Event<R>>, i: nat)
    requires call.Valid() && IsForeign(log) && IsRun(call, log, states, events) && i < |states|
    requires call.matchSeqNum.Some? && call.matchSeqNum.value < |log|
    ensures forall k | 0 <= k < |states[i].attempts| :: !states[i].attempts[k].Applied?
  {
    RunInvariant(call, log, states, events, i);
    LogKeepsPrefix(call, log, states, events, i);
    var s := states[i];
    forall k | 0 <= k < |s.attempts| ensures !s.attempts[k].Applied? {
      if s.attempts[k].Applied? {
        CopyIsBehind(call.batch, log, s.log, s.attempts[k].start, k);
      }
    }
  }

  lemma {:induction false} NothingApplied(attempts: seq<Attempt>, n: nat)
    requires n <= |attempts| && forall k | 0 <= k < |attempts| :: !attempts[k].Applied?
    ensures AppliedCount(attempts, n) == 0
  {
    if n > 0 {
      NothingApplied(attempts, n - 1);
    }
  }

  /** Without a condition the server refuses nothing. */
  lemma {:induction false} UnconditionalIsNotRefused<R>(
    call: Call<R>, log: seq<Entry<R>>, states: seq<State<R>>, events: seq<Event<R>>, i: nat)
    requires IsRun(call, log, states, events) && i < |states| && call.matchSeqNum.None? && !call.fenced
    ensures forall k | 0 <= k < |states[i].attempts| :: !states[i].attempts[k].Refused?
  {
    if i > 0 {
      UnconditionalIsNotRefused(call, log, states, events, i - 1);
      assert states[i] == Apply(call, states[i - 1], events[i - 1]);
    }
  }

  lemma SafeRefusal<R>(call: Call<R>, log: seq<Entry<R>>, states: seq<State<R>>, events: seq<Event<R>>, i: nat)
    requires call.Valid() && IsForeign(log) && IsRun(call, log, states, events) && i < |states|
    requires RefusalIsSafe(call, log) && ReportsRefusal(states[i])
    ensures OwnRecords(states[i].log, |states[i].log|) == 0
  {
    RunInvariant(call, log, states, events, i);
    if call.Limit() == 1 {
      FirstRefusalIsFinal(call, log, states, events, i);
    } else if call.matchSeqNum.Some? {
      PassedNumberNeverMatches(call, log, states, events, i);
      NothingApplied(states[i].attempts, |states[i].attempts|);
      ForeignHasNoOwn(log, |log|);
    } else {
      UnconditionalIsNotRefused(call, log, states, events, i);
    }
  }

  /** At the expected number, the answer to an applied attempt is lost and the retry is refused. */
  lemma RefusedAfterCopy<R>(call: Call<R>, log: seq<Entry<R>>) returns (states: seq<State<R>>, events: seq<Event<R>>)
    requires call.Valid() && call.Limit() > 1
    requires if call.matchSeqNum.Some? then call.matchSeqNum.value == |log| else call.fenced
    ensures IsRun(call, log, states, events) && ReportsRefusal(states[|events|])
    ensures CopyAt(call.batch, states[|events|].log, |log|, 0)
  {
    var token := if call.matchSeqNum.Some? then None else Some("");
    var failure := if token.Some? then FencingTokenMismatch("") else SeqNumMismatch(|log| + |call.batch|);
    events := [Deliver(0, None), Respond(TIMED_OUT, 0), Deliver(1, token),
               Respond(Executed(412, ConditionBody(failure), None), 0)];
    var s1 := Apply(call, Start(log), events[0]);
    var s2 := Apply(call, s1, events[1]);
    var s3 := Apply(call, s2, events[2]);
    states := [Start(log), s1, s2, s3, Apply(call, s3, events[3])];
  }

  /**
    Otherwise the answer to an applied attempt may be lost and the retry be refused: by the tail that the first attempt
    moved, or by a fencing token set meanwhile.
   */
  lemma FailureMayHideACopy<R>(call: Call<R>, log: seq<Entry<R>>) returns (states: seq<State<R>>, events: seq<Event<R>>)
    requires call.Valid() && !RefusalIsSafe(call, log)
    ensures IsRun(call, log, states, events) && ReportsRefusal(states[|events|])
    ensures exists start: nat :: CopyAt(call.batch, states[|events|].log, start, 0)
  {
    var gap := if call.matchSeqNum.Some? then call.matchSeqNum.value - |log| else 0;
    var padding := seq(gap, _ => call.batch[0]);
    var rest, more := RefusedAfterCopy(call, log + Tag(padding, None));
    states, events := [Start(log)] + rest, [OtherAppend(padding)] + more;
    forall i | 0 <= i < |events|
      ensures Enabled(call, states[i], events[i]) && states[i + 1] == Apply(call, states[i], events[i])
    {
      if i > 0 {
        assert states[i] == rest[i - 1] && events[i] == more[i - 1];
      }
    }
    assert CopyAt(call.batch, states[|events|].log, |log| + gap, 0);
  }

  lemma {:induction false} CopyHasRecords<R>(batch: seq<R>, log: seq<Entry<R>>, p: nat, n: nat)
    requires p < n <= |log| && log[p].attempt.Some?
    ensures OwnRecords(log, n) > 0
  {
    if p < n - 1 {
      CopyHasRecords(batch, log, p, n - 1);
    }
  }

  /** The exact calls for which a reported failed condition proves that the batch is not in the log. */
  lemma RefusalMeansAbsentIff<R(!new)>(call: Call<R>, log: seq<Entry<R>>)
    requires call.Valid() && IsForeign(log)
    ensures RefusalMeansAbsent(call, log) <==> RefusalIsSafe(call, log)
  {
    if RefusalIsSafe(call, log) {
      forall states: seq<State<R>>, events: seq<Event<R>>, i: nat
      | IsRun(call, log, states, events) && i < |states| && ReportsRefusal(states[i])
        ensures OwnRecords(states[i].log, |states[i].log|) == 0
      {
        SafeRefusal(call, log, states, events, i);
      }
    } else {
      var states, events := FailureMayHideACopy(call, log);
      var last := states[|events|];
      var start: nat :| CopyAt(call.batch, last.log, start, 0);
      assert last.log[start..start + |call.batch|][0].attempt.Some?;
      CopyHasRecords(call.batch, last.log, start, |last.log|);
    }
  }
}
