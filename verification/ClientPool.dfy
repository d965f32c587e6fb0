/**
  The pool of HTTP clients of one host as a state machine (s2-sdk/src/client.rs:611-731).
  Every atomic access to a client's counter, clock or timestamp is a step of its own, so a run may interleave
  permit drops, which take no lock, with checkouts and with the reaper.
 */
module ClientPool {
  import opened Wrappers

  const MAX_REQUESTS: nat := 90   // MAX_CONCURRENT_REQUESTS_PER_CLIENT
  const IDLE_TIMEOUT: nat := 90   // seconds

  /** A client is its place in the sequence of all clients ever created. */
  type ClientId = nat
  type ThreadId = nat

  /** What the atomics of a `PooledClient` hold; permits share it after the client left the pool. */
  datatype Cell = Cell(active: nat, idleSince: Option<nat>)

  /** Where a thread is. The read lock is held while reading, the write lock while writing or reaping. */
  datatype Pc =
    | Outside
    | ReadScan(i: nat)
    | ReadGrant(client: ClientId)                // counted, the timestamp not yet cleared
    | WantWrite
    | WriteScan(i: nat)
    | WriteGrant(client: ClientId)
    | Holding(client: ClientId)
    | DropClock(client: ClientId)                // the last permit was given back, the clock not yet read
    | DropStore(client: ClientId, stamp: nat)    // the clock was read, the timestamp not yet written
    | ReapScan(i: nat)
    | ReapLoaded(i: nat)                         // the counter was 0, the timestamp not yet read
  {
    predicate Reads() {
      ReadScan? || ReadGrant?
    }

    predicate Writes() {
      WriteScan? || WriteGrant? || ReapScan? || ReapLoaded?
    }

    /** The thread holds a permit, or has been counted for one. */
    predicate IsBusy() {
      ReadGrant? || WriteGrant? || Holding?
    }

    predicate Grips(client: ClientId) {
      IsBusy() && this.client == client
    }

    /** The thread gave back the last permit and has not written the timestamp yet. */
    predicate IsDropping(client: ClientId) {
      (DropClock? || DropStore?) && this.client == client
    }
  }

  datatype State = State(
    now: nat,
    clients: seq<ClientId>,                      // the vector behind the lock
    cells: seq<Cell>,
    threads: map<ThreadId, Pc>,
    peak: nat)                                   // most requests ever active at the same time
  {
    function At(t: ThreadId): Pc {
      if t in threads then threads[t] else Outside
    }

    function CellOf(c: ClientId): Cell {
      if c < |cells| then cells[c] else Cell(0, None)
    }

    ghost predicate Unlocked() {
      forall t | t in threads :: !threads[t].Reads() && !threads[t].Writes()
    }

    ghost predicate NoWriter() {
      forall t | t in threads :: !threads[t].Writes()
    }

    function Move(t: ThreadId, pc: Pc): State {
      this.(threads := threads[t := pc])
    }

    function SetCell(c: ClientId, cell: Cell): State {
      if c < |cells| then this.(cells := cells[c := cell]) else this
    }

    function Counted(): State {
      var busy := |Busy(threads)|;
      this.(peak := if busy > peak then busy else peak)
    }
  }

  const INIT := State(0, [], [], map[], 0)

  function Grippers(threads: map<ThreadId, Pc>, c: ClientId): set<ThreadId> {
    set t | t in threads && threads[t].Grips(c)
  }

  function Busy(threads: map<ThreadId, Pc>): set<ThreadId> {
    set t | t in threads && threads[t].IsBusy()
  }

  datatype Event =
    | Tick
    | AcquireRead(t: ThreadId)
    | ReadTry(t: ThreadId)
    | AcquireWrite(t: ThreadId)
    | WriteTry(t: ThreadId)
    | ClearIdle(t: ThreadId)
    | Cancel(t: ThreadId)
    | Drop(t: ThreadId)
    | ReadClock(t: ThreadId)
    | StoreIdle(t: ThreadId)
    | AcquireReap(t: ThreadId)
    | ReapLoad(t: ThreadId)
    | ReapCheck(t: ThreadId)

  ghost predicate Enabled(s: State, e: Event) {
    match e
    case Tick => true
    case AcquireRead(t) => s.At(t).Outside? && s.NoWriter()
    case ReadTry(t) => s.At(t).ReadScan?
    case AcquireWrite(t) => s.At(t).WantWrite? && s.Unlocked()
    case WriteTry(t) => s.At(t).WriteScan?
    case ClearIdle(t) => s.At(t).ReadGrant? || s.At(t).WriteGrant?
    case Cancel(t) => s.At(t).WantWrite?
    case Drop(t) => s.At(t).Holding?
    case ReadClock(t) => s.At(t).DropClock?
    case StoreIdle(t) => s.At(t).DropStore?
    case AcquireReap(t) => s.At(t).Outside? && s.Unlocked()
    case ReapLoad(t) => s.At(t).ReapScan?
    case ReapCheck(t) => s.At(t).ReapLoaded?
  }

  ghost function Apply(s: State, e: Event): State
    requires Enabled(s, e)
  {
    match e
    case Tick => s.(now := s.now + 1)
    case AcquireRead(t) => s.Move(t, ReadScan(0))
    case ReadTry(t) => if s.At(t).i < |s.clients| then TryClient(s, t) else s.Move(t, WantWrite)
    case AcquireWrite(t) => s.Move(t, WriteScan(0))
    case WriteTry(t) => if s.At(t).i < |s.clients| then TryClient(s, t) else CreateClient(s, t)
    case ClearIdle(t) => ClearTimestamp(s, t)
    case Cancel(t) => s.Move(t, Outside)
    case Drop(t) => DropPermit(s, t)
    case ReadClock(t) => s.Move(t, DropStore(s.At(t).client, s.now))
    case StoreIdle(t) => StoreTimestamp(s, t)
    case AcquireReap(t) => s.Move(t, ReapScan(0))
    case ReapLoad(t) => LoadForReap(s, t)
    case ReapCheck(t) => CheckForReap(s, t)
  }

  /** One turn of a scan for a permit: the counter's `fetch_update`. */
  function TryClient(s: State, t: ThreadId): State
    requires s.At(t).ReadScan? || s.At(t).WriteScan?
    requires s.At(t).i < |s.clients|
  {
    var i := s.At(t).i;
    var client := s.clients[i];
    var cell := s.CellOf(client);
    if cell.active < MAX_REQUESTS then
      s.SetCell(client, cell.(active := cell.active + 1))
       .Move(t, if s.At(t).ReadScan? then ReadGrant(client) else WriteGrant(client)).Counted()
    else
      s.Move(t, if s.At(t).ReadScan? then ReadScan(i + 1) else WriteScan(i + 1))
  }

  /** A new client with its first permit; nobody else can see it before it is pushed, so this is one step. */
  function CreateClient(s: State, t: ThreadId): State {
    s.(cells := s.cells + [Cell(1, None)], clients := s.clients + [|s.cells|]).Move(t, Holding(|s.cells|)).Counted()
  }

  function ClearTimestamp(s: State, t: ThreadId): State
    requires s.At(t).ReadGrant? || s.At(t).WriteGrant?
  {
    var c := s.At(t).client;
    s.SetCell(c, s.CellOf(c).(idleSince := None)).Move(t, Holding(c))
  }

  /** `fetch_sub` on the counter; only the thread that saw 1 goes on to write the timestamp. */
  function DropPermit(s: State, t: ThreadId): State
    requires s.At(t).Holding?
  {
    var c := s.At(t).client;
    var cell := s.CellOf(c);
    s.SetCell(c, cell.(active := if cell.active > 0 then cell.active - 1 else 0))
     .Move(t, if cell.active == 1 then DropClock(c) else Outside)
  }

  function StoreTimestamp(s: State, t: ThreadId): State
    requires s.At(t).DropStore?
  {
    var c := s.At(t).client;
    s.SetCell(c, s.CellOf(c).(idleSince := Some(s.At(t).stamp))).Move(t, Outside)
  }

  /** `should_reap` up to its load of the counter, for the client the `retain` has reached. */
  function LoadForReap(s: State, t: ThreadId): State
    requires s.At(t).ReapScan?
  {
    var i := s.At(t).i;
    if i >= |s.clients| then s.Move(t, Outside)
    else if s.CellOf(s.clients[i]).active != 0 then s.Move(t, ReapScan(i + 1))
    else s.Move(t, ReapLoaded(i))
  }

  /** The rest of `should_reap`: the timestamp, and the removal when it is too old. */
  function CheckForReap(s: State, t: ThreadId): State
    requires s.At(t).ReapLoaded?
  {
    var i := s.At(t).i;
    if i < |s.clients| && IsExpired(s.CellOf(s.clients[i]).idleSince, s.now)
    then s.(clients := s.clients[..i] + s.clients[i + 1..]).Move(t, ReapScan(i))
    else s.Move(t, ReapScan(i + 1))
  }

  predicate IsExpired(idleSince: Option<nat>, now: nat) {
    idleSince.Some? && now > idleSince.value + IDLE_TIMEOUT
  }

  ghost predicate IsRun(states: seq<State>, events: seq<Event>) {
    && |states| == |events| + 1 && states[0] == INIT
    && forall i | 0 <= i < |events| :: Enabled(states[i], events[i]) && states[i + 1] == Apply(states[i], events[i])
  }

  // ---------- Locks ----------

  predicate Exclude(a: Pc, b: Pc) {
    !(a.Writes() && (b.Reads() || b.Writes())) && !(b.Writes() && (a.Reads() || a.Writes()))
  }

  /** A writer excludes every other lock holder. */
  ghost predicate LockExclusive(s: State) {
    forall t, u | t in s.threads && u in s.threads && t != u :: Exclude(s.threads[t], s.threads[u])
  }

  /** A step changes the place of one thread, which gets a lock only when it is free. */
  lemma OneThreadMoves(s: State, e: Event, pc: Pc)
    requires Enabled(s, e) && !e.Tick? && pc == Apply(s, e).At(e.t)
    ensures Apply(s, e).threads == s.threads[e.t := pc]
    ensures pc.Writes() ==> s.At(e.t).Writes() || s.Unlocked()
    ensures pc.Reads() ==> s.At(e.t).Reads() || s.NoWriter()
  {}

  lemma LockStep(s: State, e: Event)
    requires LockExclusive(s) && Enabled(s, e)
    ensures LockExclusive(Apply(s, e))
  {
    if !e.Tick? {
      OneThreadMoves(s, e, Apply(s, e).At(e.t));
    }
  }

  // ---------- Counters ----------

  /** Threads and the vector mention only clients that were created. */
  ghost predicate Scoped(s: State) {
    && (forall t | t in s.threads && s.threads[t].IsBusy() :: s.threads[t].client < |s.cells|)
    && (forall i | 0 <= i < |s.clients| :: s.clients[i] < |s.cells|)
  }

  /** The client's counter is the number of its permits held or being granted, and never exceeds the limit. */
  ghost predicate CounterExact(s: State, c: ClientId) {
    s.CellOf(c).active == |Grippers(s.threads, c)| && s.CellOf(c).active <= MAX_REQUESTS
  }

  ghost predicate CountersExact(s: State) {
    Scoped(s) && forall c: ClientId | c < |s.cells| :: CounterExact(s, c)
  }

  lemma GrippersMove(threads: map<ThreadId, Pc>, t: ThreadId, pc: Pc, c: ClientId)
    ensures Grippers(threads[t := pc], c) == (Grippers(threads, c) - {t}) + if pc.Grips(c) then {t} else {}
  {}

  /** Steps that only move a thread between places that grip the same client, or none. */
  predicate IsQuiet(e: Event) {
    !e.ReadTry? && !e.WriteTry? && !e.Drop?
  }

  lemma QuietStep(s: State, e: Event, c: ClientId)
    requires Enabled(s, e) && IsQuiet(e)
    ensures Grippers(Apply(s, e).threads, c) == Grippers(s.threads, c)
    ensures Apply(s, e).CellOf(c).active == s.CellOf(c).active
  {
    if !e.Tick? {
      OneThreadMoves(s, e, Apply(s, e).At(e.t));
      GrippersMove(s.threads, e.t, Apply(s, e).At(e.t), c);
    }
  }

  lemma GrippersGain(threads: map<ThreadId, Pc>, t: ThreadId, pc: Pc, c: ClientId)
    requires t in threads ==> !threads[t].IsBusy()
    ensures |Grippers(threads[t := pc], c)| == |Grippers(threads, c)| + if pc.Grips(c) then 1 else 0
  {
    GrippersMove(threads, t, pc, c);
    assert t !in Grippers(threads, c);
  }

  lemma TryStep(s: State, t: ThreadId, c: ClientId)
    requires s.At(t).ReadScan? || s.At(t).WriteScan?
    requires s.At(t).i < |s.clients| && CountersExact(s) && c < |s.cells|
    ensures CounterExact(TryClient(s, t), c)
  {
    assert CounterExact(s, c);
    GrippersGain(s.threads, t, TryClient(s, t).At(t), c);
  }

  lemma CreateStep(s: State, t: ThreadId, c: ClientId)
    requires s.At(t).WriteScan? && CountersExact(s) && c <= |s.cells|
    ensures CounterExact(CreateClient(s, t), c)
  {
    GrippersMove(s.threads, t, Holding(|s.cells|), c);
    if c == |s.cells| {
      assert Grippers(s.threads, c) == {};
    } else {
      assert CounterExact(s, c);
      assert t !in Grippers(s.threads, c);
    }
  }

  lemma DropStep(s: State, t: ThreadId, c: ClientId)
    requires s.At(t).Holding? && CountersExact(s) && c < |s.cells|
    ensures CounterExact(DropPermit(s, t), c)
  {
    assert CounterExact(s, c);
    GrippersMove(s.threads, t, DropPermit(s, t).At(t), c);
    assert t in Grippers(s.threads, c) <==> c == s.At(t).client;
  }

  lemma ScopedStep(s: State, e: Event)
    requires Scoped(s) && Enabled(s, e)
    ensures Scoped(Apply(s, e)) && |s.cells| <= |Apply(s, e).cells|
  {
    if !e.Tick? {
      OneThreadMoves(s, e, Apply(s, e).At(e.t));
    }
  }

  lemma ScanStep(s: State, e: Event, c: ClientId)
    requires CountersExact(s) && Enabled(s, e) && (e.ReadTry? || e.WriteTry?) && c < |Apply(s, e).cells|
    ensures CounterExact(Apply(s, e), c)
  {
    if s.At(e.t).i < |s.clients| {
      TryStep(s, e.t, c);
    } else if e.WriteTry? {
      CreateStep(s, e.t, c);
    } else {
      GrippersMove(s.threads, e.t, WantWrite, c);
      assert CounterExact(s, c);
    }
  }

  lemma CounterStep(s: State, e: Event, c: ClientId)
    requires CountersExact(s) && Enabled(s, e) && c < |Apply(s, e).cells|
    ensures CounterExact(Apply(s, e), c)
  {
    if e.ReadTry? || e.WriteTry? {
      ScanStep(s, e, c);
    } else if e.Drop? {
      DropStep(s, e.t, c);
    } else {
      QuietStep(s, e, c);
      assert CounterExact(s, c);
    }
  }

  lemma CountersStep(s: State, e: Event)
    requires CountersExact(s) && Enabled(s, e)
    ensures CountersExact(Apply(s, e))
  {
    ScopedStep(s, e);
    var next := Apply(s, e);
    forall c: ClientId | c < |next.cells| ensures CounterExact(next, c) {
      CounterStep(s, e, c);
    }
  }

  // ---------- Idle clients ----------

  ghost predicate SomeDropper(s: State, c: ClientId) {
    exists t | t in s.threads :: s.threads[t].IsDropping(c)
  }

  /** An idle client is marked as such, unless some thread is about to do it. */
  ghost predicate IdleMarked(s: State, c: ClientId) {
    s.CellOf(c).active == 0 && !SomeDropper(s, c) ==> s.CellOf(c).idleSince.Some?
  }

  ghost predicate AllIdleMarked(s: State) {
    forall c: ClientId | c < |s.cells| :: IdleMarked(s, c)
  }

  lemma DroppersStay(s: State, e: Event, c: ClientId)
    requires Enabled(s, e) && SomeDropper(s, c) && !(e.StoreIdle? && s.At(e.t).client == c)
    ensures SomeDropper(Apply(s, e), c)
  {
    var u :| u in s.threads && s.threads[u].IsDropping(c);
    if !e.Tick? {
      OneThreadMoves(s, e, Apply(s, e).At(e.t));
    }
    assert Apply(s, e).threads[u].IsDropping(c);
  }

  lemma GripsCount(s: State, t: ThreadId, c: ClientId)
    requires CountersExact(s) && t in s.threads && s.threads[t].Grips(c)
    ensures c < |s.cells| && s.CellOf(c).active > 0
  {
    assert CounterExact(s, c);
    assert t in Grippers(s.threads, c);
  }

  lemma IdleMarkedStep(s: State, e: Event, c: ClientId)
    requires CountersExact(s) && AllIdleMarked(s) && Enabled(s, e) && c < |Apply(s, e).cells|
    ensures IdleMarked(Apply(s, e), c)
  {
    if c < |s.cells| {
      assert IdleMarked(s, c);
    }
    if SomeDropper(s, c) && !(e.StoreIdle? && s.At(e.t).client == c) {
      DroppersStay(s, e, c);
    } else if e.ClearIdle? {
      GripsCount(s, e.t, s.At(e.t).client);
    } else if e.Drop? {
      assert s.At(e.t).client == c && s.CellOf(c).active == 1 ==> Apply(s, e).threads[e.t].IsDropping(c);
    }
  }
}
