/**
  How long a client that the reaper removes has been idle (s2-sdk/src/client.rs:641-686). A drop reads the clock and
  writes the timestamp in two steps, so a stalled drop may overwrite what a later use has left.
 */
module ClientPoolIdle {
  import opened ClientPool
  import opened ClientPoolReaping
  import opened Wrappers

  // ---------- Uses of a client ----------

  ghost predicate InUse(s: State, c: ClientId) {
    exists t | t in s.threads :: s.threads[t].Grips(c)
  }

  /** A grant of the client clears its timestamp. */
  predicate Clears(s: State, e: Event, c: ClientId) {
    e.ClearIdle? && s.At(e.t).Grips(c)
  }

  /** A permit of the client is given back. */
  predicate Returns(s: State, e: Event, c: ClientId) {
    e.Drop? && s.At(e.t) == Holding(c)
  }

  /** From the d-th event on, thread t's drop of the client's last permit is under way up to the w-th state. */
  ghost predicate DropSpans(states: seq<State>, events: seq<Event>, d: nat, w: nat, t: ThreadId, c: ClientId) {
    && d < w < |states| && |states| == |events| + 1
    && events[d] == Drop(t) && states[d].At(t) == Holding(c) && states[d].CellOf(c).active == 1
    && forall k | d < k <= w :: states[k].At(t).IsDropping(c)
  }

  /** The w-th event writes the timestamp that the client still has in the i-th state. */
  ghost predicate StampSpans(states: seq<State>, events: seq<Event>, w: nat, i: nat, t: ThreadId, c: ClientId) {
    && w < i < |states| && |states| == |events| + 1
    && events[w] == StoreIdle(t) && states[w].At(t).DropStore? && states[w].At(t).client == c
    && forall k | w < k <= i :: states[k].CellOf(c).idleSince == Some(states[w].At(t).stamp)
  }

  /** The client's timestamp in the i-th state is that of thread t's drop, begun at d and written at w. */
  ghost predicate StampOf(
    states: seq<State>, events: seq<Event>, d: nat, w: nat, i: nat, t: ThreadId, c: ClientId)
  {
    DropSpans(states, events, d, w, t, c) && StampSpans(states, events, w, i, t, c)
  }

  /** The i-th event removes the client from the pool. */
  ghost predicate IsRemoved(states: seq<State>, events: seq<Event>, i: nat, c: ClientId) {
    IsRun(states, events) && i < |events| && c in states[i].clients && c !in states[i + 1].clients
  }

  // ---------- Where a timestamp comes from ----------

  /** Droppers are of clients that exist. */
  ghost predicate DropsScoped(s: State) {
    forall t | t in s.threads && (s.threads[t].DropClock? || s.threads[t].DropStore?) :: s.threads[t].client < |s.cells|
  }

  lemma DropsScopedStep(s: State, e: Event)
    requires Scoped(s) && DropsScoped(s) && Enabled(s, e)
    ensures DropsScoped(Apply(s, e))
  {
    if !e.Tick? {
      OneThreadMoves(s, e, Apply(s, e).At(e.t));
    }
  }

  lemma {:induction false} RunDropsScoped(states: seq<State>, events: seq<Event>, i: nat)
    requires IsRun(states, events) && i < |states|
    ensures DropsScoped(states[i]) && Scoped(states[i])
  {
    RunInvariant(states, events, i);
    if i > 0 {
      RunDropsScoped(states, events, i - 1);
      DropsScopedStep(states[i - 1], events[i - 1]);
    }
  }

  lemma IdleComesFrom(s: State, e: Event, c: ClientId)
    requires Scoped(s) && DropsScoped(s) && Enabled(s, e) && Apply(s, e).CellOf(c).idleSince.Some?
    ensures !Clears(s, e, c)
    ensures var stamp := Apply(s, e).CellOf(c).idleSince.value;
            s.CellOf(c).idleSince == Some(stamp) || (e.StoreIdle? && s.At(e.t) == DropStore(c, stamp))
  {}

  /** A drop under way was so before, its clock not yet read perhaps, or begins as the last permit goes. */
  lemma DropComesFrom(s: State, e: Event, t: ThreadId, c: ClientId)
    requires Enabled(s, e) && Apply(s, e).At(t).IsDropping(c)
    ensures s.At(t).IsDropping(c) || (e == Drop(t) && s.At(t) == Holding(c) && s.CellOf(c).active == 1)
    ensures s.At(t).IsDropping(c) && Apply(s, e).At(t).DropStore? ==>
              s.At(t) == Apply(s, e).At(t) || Apply(s, e).At(t).stamp == s.now
    ensures Apply(s, e).At(t).DropStore? ==> s.At(t).IsDropping(c)
  {
    if !e.Tick? {
      OneThreadMoves(s, e, Apply(s, e).At(e.t));
    }
  }

  lemma StepAdvances(s: State, e: Event)
    requires Enabled(s, e)
    ensures s.now <= Apply(s, e).now && |s.cells| <= |Apply(s, e).cells|
  {}

  lemma {:induction false} RunAdvances(states: seq<State>, events: seq<Event>, m: nat, i: nat)
    requires IsRun(states, events) && m <= i < |states|
    ensures states[m].now <= states[i].now && |states[m].cells| <= |states[i].cells|
  {
    if m < i {
      RunAdvances(states, events, m, i - 1);
      StepAdvances(states[i - 1], events[i - 1]);
    }
  }

  lemma {:induction false} StampWasWritten(states: seq<State>, events: seq<Event>, i: nat, c: ClientId)
    returns (w: nat, t: ThreadId)
    requires IsRun(states, events) && i < |states| && states[i].CellOf(c).idleSince.Some?
    ensures StampSpans(states, events, w, i, t, c)
  {
    var s, e, stamp := states[i - 1], events[i - 1], states[i].CellOf(c).idleSince.value;
    assert states[i] == Apply(s, e);
    RunDropsScoped(states, events, i - 1);
    IdleComesFrom(s, e, c);
    if e.StoreIdle? && s.At(e.t) == DropStore(c, stamp) {
      w, t := i - 1, e.t;
    } else {
      w, t := StampWasWritten(states, events, i - 1, c);
    }
  }

  lemma {:induction false} DropWasBegun(states: seq<State>, events: seq<Event>, w: nat, t: ThreadId, c: ClientId)
    returns (d: nat)
    requires IsRun(states, events) && w < |states| && states[w].At(t).IsDropping(c)
    ensures DropSpans(states, events, d, w, t, c)
    ensures states[w].At(t).DropStore? ==> states[d].now <= states[w].At(t).stamp
  {
    var s, e := states[w - 1], events[w - 1];
    assert states[w] == Apply(s, e);
    DropComesFrom(s, e, t, c);
    if s.At(t).IsDropping(c) {
      d := DropWasBegun(states, events, w - 1, t, c);
      RunAdvances(states, events, d, w - 1);
    } else {
      d := w - 1;
    }
  }

  /** The reaper goes by the timestamp of one drop, which gave back the client's last permit. */
  lemma ReaperGoesByADrop(states: seq<State>, events: seq<Event>, i: nat, c: ClientId)
    returns (d: nat, w: nat, t: ThreadId)
    requires IsRemoved(states, events, i, c)
    ensures StampOf(states, events, d, w, i, t, c)
  {
    OnlyExpiredClientsLeave(states, events, i, c);
    w, t := StampWasWritten(states, events, i, c);
    d := DropWasBegun(states, events, w, t, c);
  }

  /** Up to that drop the client was not used within the timeout. */
  lemma UnusedUpToTheDrop(
    states: seq<State>, events: seq<Event>, d: nat, w: nat, i: nat, t: ThreadId, c: ClientId, m: nat)
    requires IsRemoved(states, events, i, c) && StampOf(states, events, d, w, i, t, c) && m <= d
    ensures states[i].now > states[m].now + IDLE_TIMEOUT
  {
    OnlyExpiredClientsLeave(states, events, i, c);
    var begun := DropWasBegun(states, events, w, t, c);
    assert begun == d by {
      assert !states[begun].At(t).IsDropping(c) && !states[d].At(t).IsDropping(c);
    }
    RunAdvances(states, events, m, d);
  }

  // ---------- Uses after the drop ----------

  /** The last permit was the only one. */
  lemma NoneAfterTheDrop(s: State, t: ThreadId, c: ClientId)
    requires CountersExact(s) && s.At(t) == Holding(c) && s.CellOf(c).active == 1
    ensures c < |s.cells| && forall u :: !Apply(s, Drop(t)).At(u).Grips(c)
  {
    assert t in Grippers(s.threads, c);
    assert CounterExact(s, c);
    CounterStep(s, Drop(t), c);
    var next := Apply(s, Drop(t));
    assert Grippers(next.threads, c) == {};
    forall u | u in next.threads ensures !next.threads[u].Grips(c) {
      assert u !in Grippers(next.threads, c);
    }
  }

  /** A holder after the step was one before, or has just cleared the timestamp, or came with a new client. */
  lemma HolderComesFrom(s: State, e: Event, c: ClientId, u: ThreadId)
    requires Enabled(s, e) && Apply(s, e).At(u) == Holding(c) && c < |s.cells|
    ensures s.At(u) == Holding(c) || (Clears(s, e, c) && e.t == u)
  {
    if !e.Tick? {
      OneThreadMoves(s, e, Apply(s, e).At(e.t));
    }
  }

  lemma HolderBefore(states: seq<State>, events: seq<Event>, q: nat, u: ThreadId, c: ClientId)
    requires IsRun(states, events) && q < |events| && states[q + 1].At(u) == Holding(c) && c < |states[q].cells|
    ensures states[q].At(u) == Holding(c) || Clears(states[q], events[q], c)
  {
    HolderComesFrom(states[q], events[q], c, u);
  }

  /** Whoever holds a permit and did not at first has cleared the timestamp since. */
  lemma {:induction false} HolderCleared(
    states: seq<State>, events: seq<Event>, m: nat, q: nat, u: ThreadId, c: ClientId) returns (j: nat)
    requires IsRun(states, events) && m < q < |states| && c < |states[m].cells|
    requires states[m].At(u) != Holding(c) && states[q].At(u) == Holding(c)
    ensures m <= j < q && Clears(states[j], events[j], c)
  {
    if states[q - 1].At(u) == Holding(c) {
      j := HolderCleared(states, events, m, q - 1, u, c);
    } else {
      RunAdvances(states, events, m, q - 1);
      HolderBefore(states, events, q - 1, u, c);
      j := q - 1;
    }
  }

  lemma GripGoesOn(s: State, e: Event, u: ThreadId, c: ClientId)
    requires Enabled(s, e) && s.At(u).Grips(c) && !Apply(s, e).At(u).Grips(c)
    ensures Returns(s, e, c)
  {
    if !e.Tick? {
      OneThreadMoves(s, e, Apply(s, e).At(e.t));
    }
  }

  /** A use that is over by the i-th state ended with a permit given back. */
  lemma {:induction false} UseEnds(
    states: seq<State>, events: seq<Event>, m: nat, i: nat, u: ThreadId, c: ClientId) returns (q: nat)
    requires IsRun(states, events) && m <= i < |states| && states[m].At(u).Grips(c) && !InUse(states[i], c)
    ensures m <= q < i && Returns(states[q], events[q], c)
    decreases i - m
  {
    assert u in states[m].threads;
    if states[m + 1].At(u).Grips(c) {
      q := UseEnds(states, events, m + 1, i, u, c);
    } else {
      GripGoesOn(states[m], events[m], u, c);
      q := m;
    }
  }

  lemma RemovedIsUnusedNow(states: seq<State>, events: seq<Event>, i: nat, c: ClientId)
    requires IsRemoved(states, events, i, c)
    ensures !InUse(states[i], c)
  {
    OnlyExpiredClientsLeave(states, events, i, c);
    forall u | u in states[i].threads ensures !states[i].threads[u].Grips(c) {
      assert u !in Grippers(states[i].threads, c);
    }
  }

  /** As long as the timestamp stands no grant has cleared it. */
  lemma NoneClearsAfterTheWrite(
    states: seq<State>, events: seq<Event>, w: nat, i: nat, t: ThreadId, c: ClientId, j: nat)
    requires IsRun(states, events) && StampSpans(states, events, w, i, t, c) && w <= j < i
    ensures !Clears(states[j], events[j], c)
  {
    RunDropsScoped(states, events, j);
    assert states[j + 1].CellOf(c).idleSince.Some?;
    IdleComesFrom(states[j], events[j], c);
  }

  /** A use after the drop's decrement needs a grant that clears the timestamp before the drop writes it. */
  lemma LaterUseOvertakes(
    states: seq<State>, events: seq<Event>, d: nat, w: nat, i: nat, t: ThreadId, c: ClientId, m: nat, u: ThreadId)
    returns (j: nat, q: nat)
    requires IsRemoved(states, events, i, c) && StampOf(states, events, d, w, i, t, c)
    requires d < m <= i && states[m].At(u).Grips(c)
    ensures d < j < w && j < q < i && m <= q
    ensures Clears(states[j], events[j], c) && Returns(states[q], events[q], c)
  {
    RemovedIsUnusedNow(states, events, i, c);
    q := UseEnds(states, events, m, i, u, c);
    RunInvariant(states, events, d);
    NoneAfterTheDrop(states[d], t, c);
    RunAdvances(states, events, d, d + 1);
    j := HolderCleared(states, events, d + 1, q, events[q].t, c);
    if w <= j {
      NoneClearsAfterTheWrite(states, events, w, i, t, c, j);
    }
  }

  /** Some grant cleared the timestamp between the drop's decrement and its write. */
  ghost predicate Overtaken(states: seq<State>, events: seq<Event>, d: nat, w: nat, c: ClientId)
    requires d < w <= |events| < |states|
  {
    exists j | d < j < w :: Clears(states[j], events[j], c)
  }

  /** The reaper acts on the end of the last use if and only if no grant overtook the drop that it goes by. */
  lemma RemovedAfterLastUseIff(
    states: seq<State>, events: seq<Event>, d: nat, w: nat, i: nat, t: ThreadId, c: ClientId)
    requires IsRemoved(states, events, i, c) && StampOf(states, events, d, w, i, t, c)
    ensures (exists m | d < m <= i :: InUse(states[m], c)) <==> Overtaken(states, events, d, w, c)
  {
    if m :| d < m <= i && InUse(states[m], c) {
      var u :| u in states[m].threads && states[m].threads[u].Grips(c);
      var j, q := LaterUseOvertakes(states, events, d, w, i, t, c, m, u);
    }
    if j :| d < j < w && Clears(states[j], events[j], c) {
      assert states[j].threads[events[j].t].Grips(c);
      assert InUse(states[j], c);
    }
  }

  /** Some grant overtook the drop, and a permit given back after that was so within the timeout. */
  ghost predicate OvertakenLately(states: seq<State>, events: seq<Event>, d: nat, w: nat, i: nat, c: ClientId)
    requires d < w < i <= |events| < |states|
  {
    exists j, q | d < j < w && j < q < i ::
      && Clears(states[j], events[j], c) && Returns(states[q], events[q], c)
      && states[i].now <= states[q].now + IDLE_TIMEOUT
  }

  ghost predicate UsedLately(states: seq<State>, i: nat, c: ClientId)
    requires i < |states|
  {
    exists m | 0 <= m <= i :: InUse(states[m], c) && states[i].now <= states[m].now + IDLE_TIMEOUT
  }

  /**
    A removed client was used within the timeout if and only if a grant overtook the drop that the reaper goes by, and
    a permit was given back within the timeout after that.
   */
  lemma RemovedTooEarlyIff(
    states: seq<State>, events: seq<Event>, d: nat, w: nat, i: nat, t: ThreadId, c: ClientId)
    requires IsRemoved(states, events, i, c) && StampOf(states, events, d, w, i, t, c)
    ensures UsedLately(states, i, c) <==> OvertakenLately(states, events, d, w, i, c)
  {
    if UsedLately(states, i, c) {
      var m :| 0 <= m <= i && InUse(states[m], c) && states[i].now <= states[m].now + IDLE_TIMEOUT;
      if m <= d {
        UnusedUpToTheDrop(states, events, d, w, i, t, c, m);
      } else {
        var u :| u in states[m].threads && states[m].threads[u].Grips(c);
        var j, q := LaterUseOvertakes(states, events, d, w, i, t, c, m, u);
        RunAdvances(states, events, m, q);
      }
    }
    if OvertakenLately(states, events, d, w, i, c) {
      var j, q :| d < j < w && j < q < i && Clears(states[j], events[j], c) && Returns(states[q], events[q], c)
                  && states[i].now <= states[q].now + IDLE_TIMEOUT;
      assert states[q].threads[events[q].t].Grips(c);
      assert InUse(states[q], c);
    }
  }

  /** A client that the reaper removes was not used for the whole timeout, unless the drop was overtaken. */
  lemma RemovedWasUnused(
    states: seq<State>, events: seq<Event>, d: nat, w: nat, i: nat, t: ThreadId, c: ClientId, m: nat)
    requires IsRemoved(states, events, i, c) && StampOf(states, events, d, w, i, t, c)
    requires !Overtaken(states, events, d, w, c)
    requires m <= i && InUse(states[m], c)
    ensures states[i].now > states[m].now + IDLE_TIMEOUT
  {
    if m <= d {
      UnusedUpToTheDrop(states, events, d, w, i, t, c, m);
    } else {
      RemovedAfterLastUseIff(states, events, d, w, i, t, c);
    }
  }

  // ---------- A stalled drop ----------

  /** What matters of a state with one client at most and three threads. */
  datatype Shape = Shape(now: nat, clients: seq<ClientId>, cells: seq<Cell>, first: Pc, second: Pc, reaper: Pc)

  ghost predicate Looks(s: State, shape: Shape) {
    && s.now == shape.now && s.clients == shape.clients && s.cells == shape.cells
    && s.At(0) == shape.first && s.At(1) == shape.second && s.At(2) == shape.reaper
    && forall t | t in s.threads :: t <= 2
  }

  const TICKS: nat := IDLE_TIMEOUT + 1

  /** The first thread's drop stalls, the clock read; a second thread then holds the client for the whole timeout. */
  function StalledEvent(k: nat): Event {
    if k < 6 then [AcquireRead(0), ReadTry(0), AcquireWrite(0), WriteTry(0), Drop(0), ReadClock(0)][k]
    else if k < 9 then [AcquireRead(1), ReadTry(1), ClearIdle(1)][k - 6]
    else if k < 9 + TICKS then Tick
    else if k < 12 + TICKS then [Drop(1), StoreIdle(0), AcquireReap(2)][k - 9 - TICKS]
    else if k == 12 + TICKS then ReapLoad(2)
    else ReapCheck(2)
  }

  function StalledShape(k: nat): Shape {
    if k == 0 then Shape(0, [], [], Outside, Outside, Outside)
    else if k == 1 then Shape(0, [], [], ReadScan(0), Outside, Outside)
    else if k == 2 then Shape(0, [], [], WantWrite, Outside, Outside)
    else if k == 3 then Shape(0, [], [], WriteScan(0), Outside, Outside)
    else if k == 4 then Shape(0, [0], [Cell(1, None)], Holding(0), Outside, Outside)
    else if k == 5 then Shape(0, [0], [Cell(0, None)], DropClock(0), Outside, Outside)
    else if k == 6 then Shape(0, [0], [Cell(0, None)], DropStore(0, 0), Outside, Outside)
    else if k == 7 then Shape(0, [0], [Cell(0, None)], DropStore(0, 0), ReadScan(0), Outside)
    else if k == 8 then Shape(0, [0], [Cell(1, None)], DropStore(0, 0), ReadGrant(0), Outside)
    else if k <= 9 + TICKS then Shape(k - 9, [0], [Cell(1, None)], DropStore(0, 0), Holding(0), Outside)
    else if k == 10 + TICKS then Shape(TICKS, [0], [Cell(0, None)], DropStore(0, 0), DropClock(0), Outside)
    else if k == 11 + TICKS then Shape(TICKS, [0], [Cell(0, Some(0))], Outside, DropClock(0), Outside)
    else if k == 12 + TICKS then Shape(TICKS, [0], [Cell(0, Some(0))], Outside, DropClock(0), ReapScan(0))
    else if k == 13 + TICKS then Shape(TICKS, [0], [Cell(0, Some(0))], Outside, DropClock(0), ReapLoaded(0))
    else Shape(TICKS, [], [Cell(0, Some(0))], Outside, DropClock(0), ReapScan(0))
  }

  const STALLED: nat := 14 + TICKS

  ghost predicate Leads(s: State, k: nat) {
    Enabled(s, StalledEvent(k)) && Looks(Apply(s, StalledEvent(k)), StalledShape(k + 1))
  }

  lemma FirstClientMade(s: State, k: nat)
    requires k < 4 && Looks(s, StalledShape(k))
    ensures Leads(s, k)
  {}

  lemma FirstDropStalls(s: State, k: nat)
    requires 4 <= k < 6 && Looks(s, StalledShape(k))
    ensures Leads(s, k)
  {}

  lemma SecondIsGranted(s: State, k: nat)
    requires 6 <= k < 9 && Looks(s, StalledShape(k))
    ensures Leads(s, k)
  {}

  lemma SecondHolds(s: State, k: nat)
    requires 9 <= k < 9 + TICKS && Looks(s, StalledShape(k))
    ensures Leads(s, k)
  {}

  lemma StampIsWritten(s: State, k: nat)
    requires 9 + TICKS <= k < 11 + TICKS && Looks(s, StalledShape(k))
    ensures Leads(s, k)
  {}

  lemma ReaperComes(s: State, k: nat)
    requires 11 + TICKS <= k < 13 + TICKS && Looks(s, StalledShape(k))
    ensures Leads(s, k)
  {}

  lemma ReaperRemoves(s: State)
    requires Looks(s, StalledShape(13 + TICKS))
    ensures Leads(s, 13 + TICKS)
  {}

  lemma StalledLeads(s: State, k: nat)
    requires k < STALLED && Looks(s, StalledShape(k))
    ensures Leads(s, k)
  {
    if k < 4 {
      FirstClientMade(s, k);
    } else if k < 6 {
      FirstDropStalls(s, k);
    } else if k < 9 {
      SecondIsGranted(s, k);
    } else if k < 9 + TICKS {
      SecondHolds(s, k);
    } else if k < 11 + TICKS {
      StampIsWritten(s, k);
    } else if k < 13 + TICKS {
      ReaperComes(s, k);
    } else {
      ReaperRemoves(s);
    }
  }

  lemma LongerRun(states: seq<State>, events: seq<Event>, e: Event)
    requires IsRun(states, events) && Enabled(states[|events|], e)
    ensures IsRun(states + [Apply(states[|events|], e)], events + [e])
  {}

  lemma {:induction false} StalledRun(n: nat) returns (states: seq<State>, events: seq<Event>)
    requires n <= STALLED
    ensures IsRun(states, events) && |events| == n
    ensures forall k | 0 <= k <= n :: Looks(states[k], StalledShape(k))
  {
    if n == 0 {
      return [INIT], [];
    }
    states, events := StalledRun(n - 1);
    var last, e := states[n - 1], StalledEvent(n - 1);
    StalledLeads(last, n - 1);
    LongerRun(states, events, e);
    states, events := states + [Apply(last, e)], events + [e];
  }

  /** The reaper may remove a client that was in use at that very moment's reading of the clock. */
  lemma RecentlyUsedMayBeRemoved() returns (states: seq<State>, events: seq<Event>, m: nat, i: nat)
    ensures IsRun(states, events) && m <= i < |events|
    ensures 0 in states[i].clients && 0 !in states[i + 1].clients
    ensures InUse(states[m], 0) && states[m].now == states[i].now
  {
    states, events := StalledRun(STALLED);
    m, i := 9 + TICKS, STALLED - 1;
    assert states[m].At(1) == Holding(0) && states[m].threads[1].Grips(0);
  }
}
