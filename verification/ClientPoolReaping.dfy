/**
  What the reaper may remove from a host's pool, how large the pool may grow, and the invariants of the pool over
  whole runs (s2-sdk/src/client.rs:611-731).
 */
module ClientPoolReaping {
  import opened ClientPool
  import opened Sets

  // ---------- A client in use stays in the pool ----------

  ghost predicate Distinct(s: State) {
    forall i, j | 0 <= i < j < |s.clients| :: s.clients[i] != s.clients[j]
  }

  /** Whoever holds a permit of a client, or is being granted one, can still find the client in the pool. */
  ghost predicate BusyPooled(s: State) {
    forall t | t in s.threads && s.threads[t].IsBusy() :: s.threads[t].client in s.clients
  }

  /** Between the reaper's load of a counter and its look at the timestamp nobody gets a permit of that client. */
  ghost predicate ReapSafe(s: State) {
    forall t | t in s.threads && s.threads[t].ReapLoaded? ::
      s.threads[t].i < |s.clients| && Grippers(s.threads, s.clients[s.threads[t].i]) == {}
  }

  ghost predicate Safe(s: State) {
    LockExclusive(s) && CountersExact(s) && Distinct(s) && BusyPooled(s) && ReapSafe(s)
  }

  lemma VectorStep(s: State, e: Event)
    requires Safe(s) && Enabled(s, e)
    ensures Distinct(Apply(s, e))
  {
    if e.ReapCheck? {
      var i := s.At(e.t).i;
      var next := Apply(s, e);
      assert forall j | 0 <= j < |next.clients| :: |next.clients| < |s.clients| ==>
        next.clients[j] == s.clients[if j < i then j else j + 1];
    }
  }

  lemma KeptByReaper(s: State, t: ThreadId, c: ClientId)
    requires s.At(t).ReapLoaded? && s.At(t).i < |s.clients| && c in s.clients && s.clients[s.At(t).i] != c
    ensures c in CheckForReap(s, t).clients
  {
    var i := s.At(t).i;
    var k :| 0 <= k < |s.clients| && s.clients[k] == c;
    if k < i {
      assert (s.clients[..i] + s.clients[i + 1..])[k] == c;
    } else {
      assert (s.clients[..i] + s.clients[i + 1..])[k - 1] == c;
    }
  }

  /** The only clients a step removes are those nobody holds a permit of and whose timestamp has expired. */
  lemma OnlyIdleClientsLeave(s: State, e: Event, c: ClientId)
    requires Safe(s) && Enabled(s, e) && c in s.clients && c !in Apply(s, e).clients
    ensures e.ReapCheck? && Grippers(s.threads, c) == {} && s.CellOf(c).active == 0
    ensures IsExpired(s.CellOf(c).idleSince, s.now)
  {
    if e.ReapCheck? {
      if s.clients[s.At(e.t).i] != c {
        KeptByReaper(s, e.t, c);
      } else {
        assert CounterExact(s, c);
      }
    }
  }

  lemma BusyPooledStep(s: State, e: Event)
    requires Safe(s) && Enabled(s, e)
    ensures BusyPooled(Apply(s, e))
  {
    var next := Apply(s, e);
    forall u | u in next.threads && next.threads[u].IsBusy() ensures next.threads[u].client in next.clients {
      var c := next.threads[u].client;
      if u in s.threads && s.threads[u].Grips(c) {
        assert u in Grippers(s.threads, c);
        if c !in next.clients {
          OnlyIdleClientsLeave(s, e, c);
        }
      } else {
        NewGripIsPooled(s, e, u);
      }
    }
  }

  lemma NewGripIsPooled(s: State, e: Event, u: ThreadId)
    requires Enabled(s, e)
    requires u in Apply(s, e).threads && Apply(s, e).threads[u].IsBusy()
    requires u in s.threads ==> !s.threads[u].Grips(Apply(s, e).threads[u].client)
    ensures Apply(s, e).threads[u].client in Apply(s, e).clients
  {}

  lemma ReapSafeStep(s: State, e: Event)
    requires Safe(s) && Enabled(s, e)
    ensures ReapSafe(Apply(s, e))
  {
    var next := Apply(s, e);
    forall u | u in next.threads && next.threads[u].ReapLoaded?
      ensures next.threads[u].i < |next.clients| && Grippers(next.threads, next.clients[next.threads[u].i]) == {}
    {
      if e.Tick? || e.t != u {
        assert s.threads[u] == next.threads[u];
        ReaperSeesNoGrant(s, e, u);
      } else {
        LoadedIsIdle(s, e.t);
      }
    }
  }

  lemma LoadedIsIdle(s: State, t: ThreadId)
    requires CountersExact(s) && s.At(t).ReapScan? && LoadForReap(s, t).At(t).ReapLoaded?
    ensures s.At(t).i < |s.clients|
    ensures Grippers(LoadForReap(s, t).threads, s.clients[s.At(t).i]) == {}
  {
    var c := s.clients[s.At(t).i];
    assert CounterExact(s, c);
    GrippersMove(s.threads, t, LoadForReap(s, t).At(t), c);
  }

  lemma ReaperSeesNoGrant(s: State, e: Event, u: ThreadId)
    requires Safe(s) && Enabled(s, e) && u in s.threads && s.threads[u].ReapLoaded? && (e.Tick? || e.t != u)
    ensures Apply(s, e).clients == s.clients
    ensures Grippers(Apply(s, e).threads, s.clients[s.threads[u].i]) == {}
  {
    var c := s.clients[s.threads[u].i];
    if !e.Tick? {
      assert e.t in s.threads ==> Exclude(s.threads[u], s.threads[e.t]);
      OneThreadMoves(s, e, Apply(s, e).At(e.t));
      GrippersMove(s.threads, e.t, Apply(s, e).At(e.t), c);
      if s.At(e.t).Grips(c) {
        assert e.t in Grippers(s.threads, c);
      }
    }
  }

  lemma SafeStep(s: State, e: Event)
    requires Safe(s) && Enabled(s, e)
    ensures Safe(Apply(s, e))
  {
    LockStep(s, e);
    CountersStep(s, e);
    VectorStep(s, e);
    BusyPooledStep(s, e);
    ReapSafeStep(s, e);
  }

  // ---------- Size of the pool ----------

  /** Permits of the clients from the i-th one on. */
  function Load(threads: map<ThreadId, Pc>, clients: seq<ClientId>, i: nat): nat
    decreases |clients| - i
  {
    if i >= |clients| then 0 else |Grippers(threads, clients[i])| + Load(threads, clients, i + 1)
  }

  function GrippersFrom(threads: map<ThreadId, Pc>, clients: seq<ClientId>, i: nat): set<ThreadId>
    decreases |clients| - i
  {
    if i >= |clients| then {} else Grippers(threads, clients[i]) + GrippersFrom(threads, clients, i + 1)
  }

  lemma {:induction false} GrippersFromAreBusy(threads: map<ThreadId, Pc>, clients: seq<ClientId>, i: nat, t: ThreadId)
    requires t in GrippersFrom(threads, clients, i)
    ensures t in Busy(threads) && exists j :: i <= j < |clients| && threads[t].Grips(clients[j])
    decreases |clients| - i
  {
    if t in Grippers(threads, clients[i]) {
    } else {
      GrippersFromAreBusy(threads, clients, i + 1, t);
    }
  }

  lemma {:induction false} LoadCountsThreads(s: State, i: nat)
    requires Distinct(s)
    ensures Load(s.threads, s.clients, i) == |GrippersFrom(s.threads, s.clients, i)|
    decreases |s.clients| - i
  {
    if i < |s.clients| {
      LoadCountsThreads(s, i + 1);
      var here, rest := Grippers(s.threads, s.clients[i]), GrippersFrom(s.threads, s.clients, i + 1);
      forall t | t in here ensures t !in rest {
        if t in rest {
          GrippersFromAreBusy(s.threads, s.clients, i + 1, t);
        }
      }
      assert here !! rest;
    }
  }

  lemma LoadIsAtMostBusy(s: State)
    requires Distinct(s)
    ensures Load(s.threads, s.clients, 0) <= |Busy(s.threads)|
  {
    LoadCountsThreads(s, 0);
    forall t | t in GrippersFrom(s.threads, s.clients, 0) ensures t in Busy(s.threads) {
      GrippersFromAreBusy(s.threads, s.clients, 0, t);
    }
    SubsetSize(GrippersFrom(s.threads, s.clients, 0), Busy(s.threads));
  }

  lemma {:induction false} LoadFalls(
    before: map<ThreadId, Pc>, after: map<ThreadId, Pc>, clients: seq<ClientId>, i: nat)
    requires forall c: ClientId :: Grippers(after, c) <= Grippers(before, c)
    ensures Load(after, clients, i) <= Load(before, clients, i)
    decreases |clients| - i
  {
    if i < |clients| {
      LoadFalls(before, after, clients, i + 1);
      SubsetSize(Grippers(after, clients[i]), Grippers(before, clients[i]));
    }
  }

  /** The peak covers the requests active now, and all clients but one were full at the same time once. */
  ghost predicate PeakCovers(s: State) {
    |Busy(s.threads)| <= s.peak && (s.clients != [] ==> MAX_REQUESTS * (|s.clients| - 1) <= s.peak)
  }

  ghost predicate Covers(s: State, i: nat) {
    i <= |s.clients| && MAX_REQUESTS * i + Load(s.threads, s.clients, i) <= s.peak
  }

  /** A writer's scan has seen only full clients so far; with the permits still ahead of it they fit the peak. */
  ghost predicate ScanCovers(s: State) {
    forall t | t in s.threads && s.threads[t].WriteScan? ::
      Covers(s, s.threads[t].i)
  }

  predicate Grants(s: State, e: Event) {
    match e
    case ReadTry(t) => s.At(t).ReadScan? && s.At(t).i < |s.clients|
    case WriteTry(t) => s.At(t).WriteScan?
    case _ => false
  }

  lemma PermitsShrink(s: State, e: Event)
    requires Enabled(s, e) && !Grants(s, e)
    ensures Busy(Apply(s, e).threads) <= Busy(s.threads)
    ensures forall c: ClientId :: Grippers(Apply(s, e).threads, c) <= Grippers(s.threads, c)
    ensures Apply(s, e).peak == s.peak && |Apply(s, e).clients| <= |s.clients|
  {
    if !e.Tick? {
      OneThreadMoves(s, e, Apply(s, e).At(e.t));
    }
  }

  lemma PassFullClient(s: State, t: ThreadId)
    requires CountersExact(s) && ScanCovers(s) && s.At(t).WriteScan? && s.At(t).i < |s.clients|
    requires TryClient(s, t).At(t).WriteScan?
    ensures Covers(TryClient(s, t), s.At(t).i + 1)
    ensures Busy(TryClient(s, t).threads) == Busy(s.threads)
  {
    var i := s.At(t).i;
    assert CounterExact(s, s.clients[i]);
    forall c: ClientId ensures Grippers(TryClient(s, t).threads, c) == Grippers(s.threads, c) {
      GrippersMove(s.threads, t, WriteScan(i + 1), c);
    }
    LoadFalls(s.threads, TryClient(s, t).threads, s.clients, i + 1);
  }

  lemma PeakStep(s: State, e: Event)
    requires Safe(s) && PeakCovers(s) && ScanCovers(s) && Enabled(s, e)
    ensures PeakCovers(Apply(s, e))
  {
    if !Grants(s, e) {
      PermitsShrink(s, e);
      SubsetSize(Busy(Apply(s, e).threads), Busy(s.threads));
    } else if s.At(e.t).i < |s.clients| && !Apply(s, e).At(e.t).IsBusy() {
      assert Busy(Apply(s, e).threads) <= Busy(s.threads);
      SubsetSize(Busy(Apply(s, e).threads), Busy(s.threads));
    }
  }

  lemma ScanBegins(s: State, t: ThreadId)
    requires Safe(s) && PeakCovers(s) && Enabled(s, AcquireWrite(t))
    ensures Covers(Apply(s, AcquireWrite(t)), 0)
  {
    PermitsShrink(s, AcquireWrite(t));
    LoadFalls(s.threads, Apply(s, AcquireWrite(t)).threads, s.clients, 0);
    LoadIsAtMostBusy(s);
  }

  /** While a thread scans under the write lock, the others can only give permits back. */
  lemma OthersCannotGrant(s: State, e: Event, u: ThreadId)
    requires LockExclusive(s) && Enabled(s, e) && u in s.threads && s.threads[u].WriteScan? && (e.Tick? || e.t != u)
    ensures !Grants(s, e) && !e.ReapCheck? && Apply(s, e).clients == s.clients
  {
    if !e.Tick? && e.t in s.threads {
      assert Exclude(s.threads[u], s.threads[e.t]);
    }
  }

  lemma OthersScan(s: State, e: Event, u: ThreadId)
    requires Safe(s) && ScanCovers(s) && Enabled(s, e)
    requires u in s.threads && s.threads[u].WriteScan? && (e.Tick? || e.t != u)
    ensures Covers(Apply(s, e), s.threads[u].i)
  {
    OthersCannotGrant(s, e, u);
    PermitsShrink(s, e);
    LoadFalls(s.threads, Apply(s, e).threads, s.clients, s.threads[u].i);
  }

  lemma ScanStep(s: State, e: Event, u: ThreadId)
    requires Safe(s) && PeakCovers(s) && ScanCovers(s) && Enabled(s, e)
    requires u in Apply(s, e).threads && Apply(s, e).threads[u].WriteScan?
    ensures Covers(Apply(s, e), Apply(s, e).threads[u].i)
  {
    if e.Tick? || e.t != u {
      OthersScan(s, e, u);
    } else if e.AcquireWrite? {
      ScanBegins(s, u);
    } else {
      PassFullClient(s, u);
    }
  }

  // ---------- Whole runs ----------

  ghost predicate Invariant(s: State) {
    Safe(s) && AllIdleMarked(s) && PeakCovers(s) && ScanCovers(s)
  }

  lemma InvariantStep(s: State, e: Event)
    requires Invariant(s) && Enabled(s, e)
    ensures Invariant(Apply(s, e))
  {
    SafeStep(s, e);
    var next := Apply(s, e);
    forall c: ClientId | c < |next.cells| ensures IdleMarked(next, c) {
      IdleMarkedStep(s, e, c);
    }
    PeakStep(s, e);
    forall u | u in next.threads && next.threads[u].WriteScan?
      ensures Covers(next, next.threads[u].i)
    {
      ScanStep(s, e, u);
    }
  }

  lemma {:induction false} RunInvariant(states: seq<State>, events: seq<Event>, i: nat)
    requires IsRun(states, events) && i < |states|
    ensures Invariant(states[i])
  {
    if i > 0 {
      RunInvariant(states, events, i - 1);
      InvariantStep(states[i - 1], events[i - 1]);
    }
  }

  /** The recorded peak really was reached, in some state of the run. */
  lemma {:induction false} PeakWasReached(states: seq<State>, events: seq<Event>, i: nat) returns (j: nat)
    requires IsRun(states, events) && i < |states|
    ensures j <= i && |Busy(states[j].threads)| == states[i].peak
  {
    if i == 0 {
      assert Busy(states[0].threads) == {};
      return 0;
    }
    j := PeakWasReached(states, events, i - 1);
    var before, e := states[i - 1], events[i - 1];
    assert states[i] == Apply(before, e);
    if states[i].peak != before.peak {
      RunInvariant(states, events, i);
      if !Grants(before, e) {
        PermitsShrink(before, e);
      }
      j := i;
    }
  }

  /** Every counter equals the permits held or being granted, and none exceeds the limit. */
  lemma CountersOverRuns(states: seq<State>, events: seq<Event>, i: nat, c: ClientId)
    requires IsRun(states, events) && i < |states| && c < |states[i].cells|
    ensures states[i].cells[c].active == |Grippers(states[i].threads, c)| <= MAX_REQUESTS
  {
    RunInvariant(states, events, i);
    assert CounterExact(states[i], c);
  }

  /** A client with a live permit, even one still being granted, is in the pool. */
  lemma LivePermitKeepsClient(states: seq<State>, events: seq<Event>, i: nat, t: ThreadId)
    requires IsRun(states, events) && i < |states| && states[i].At(t).IsBusy()
    ensures states[i].At(t).client in states[i].clients
  {
    RunInvariant(states, events, i);
  }

  /** A client that left the pool had no permit out, and its timestamp had expired. */
  lemma OnlyExpiredClientsLeave(states: seq<State>, events: seq<Event>, i: nat, c: ClientId)
    requires IsRun(states, events) && i < |events| && c in states[i].clients && c !in states[i + 1].clients
    ensures Grippers(states[i].threads, c) == {}
    ensures c < |states[i].cells| && IsExpired(states[i].cells[c].idleSince, states[i].now)
  {
    RunInvariant(states, events, i);
    OnlyIdleClientsLeave(states[i], events[i], c);
  }

  /** The reaper's visit to one client, undisturbed: both halves of `should_reap`. */
  function ReaperVisit(s: State, t: ThreadId): State
    requires s.At(t).ReapScan?
  {
    var loaded := LoadForReap(s, t);
    if loaded.At(t).ReapLoaded? then CheckForReap(loaded, t) else loaded
  }

  /**
    A client without permits and without a thread about to mark it carries a timestamp, so the reaper's visit
    removes it, and nothing else, exactly when the timeout has passed since.
   */
  lemma IdleClientIsReaped(states: seq<State>, events: seq<Event>, k: nat, t: ThreadId, i: nat)
    requires IsRun(states, events) && k < |states| && states[k].At(t) == ReapScan(i) && i < |states[k].clients|
    requires Grippers(states[k].threads, states[k].clients[i]) == {} && !SomeDropper(states[k], states[k].clients[i])
    ensures states[k].CellOf(states[k].clients[i]).idleSince.Some?
    ensures ReaperVisit(states[k], t).clients ==
      if states[k].now > states[k].CellOf(states[k].clients[i]).idleSince.value + IDLE_TIMEOUT
      then states[k].clients[..i] + states[k].clients[i + 1..]
      else states[k].clients
  {
    RunInvariant(states, events, k);
    var c := states[k].clients[i];
    assert CounterExact(states[k], c) && IdleMarked(states[k], c);
  }

  /** Whenever the pool is not empty, all its clients but one were once filled by simultaneous requests. */
  lemma PoolSizeIsBounded(states: seq<State>, events: seq<Event>, i: nat) returns (j: nat)
    requires IsRun(states, events) && i < |states| && states[i].clients != []
    ensures j <= i && MAX_REQUESTS * (|states[i].clients| - 1) <= |Busy(states[j].threads)|
  {
    RunInvariant(states, events, i);
    j := PeakWasReached(states, events, i);
  }
}
