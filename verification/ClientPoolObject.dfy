/**
  The pool's methods with their mutable state (s2-sdk/src/client.rs:611-731). Each method takes the steps of the
  protocol that its thread takes when it is not interrupted, one for each access to an atomic or a mutex.
 */
module ClientPoolObject {
  import opened Wrappers
  import opened ClientPool
  import opened ClientPoolReaping

  /** The first client from the i-th on that has room for a request. */
  function FirstFree(clients: seq<ClientId>, cells: seq<Cell>, i: nat): (r: nat)
    requires i <= |clients| && InScope(clients, cells)
    ensures i <= r <= |clients|
    ensures r < |clients| ==> cells[clients[r]].active < MAX_REQUESTS
    ensures forall k | i <= k < r :: cells[clients[k]].active >= MAX_REQUESTS
    decreases |clients| - i
  {
    if i == |clients| || cells[clients[i]].active < MAX_REQUESTS then i else FirstFree(clients, cells, i + 1)
  }

  predicate ShouldReap(cell: Cell, now: nat) {
    cell.active == 0 && IsExpired(cell.idleSince, now)
  }

  /** The clients that `retain` keeps, among the first n. */
  function Survivors(clients: seq<ClientId>, cells: seq<Cell>, now: nat, n: nat): seq<ClientId>
    requires n <= |clients| && InScope(clients, cells)
  {
    if n == 0 then []
    else if ShouldReap(cells[clients[n - 1]], now) then Survivors(clients, cells, now, n - 1)
    else Survivors(clients, cells, now, n - 1) + [clients[n - 1]]
  }

  predicate InScope(clients: seq<ClientId>, cells: seq<Cell>) {
    forall k | 0 <= k < |clients| :: clients[k] < |cells|
  }

  /** The cells once the client has taken one more request. */
  function Taken(cells: seq<Cell>, client: ClientId): seq<Cell>
    requires client < |cells|
  {
    cells[client := Cell(cells[client].active + 1, None)]
  }

  function AtScan(reading: bool, i: nat): Pc {
    if reading then ReadScan(i) else WriteScan(i)
  }

  /** After n clients the vector holds the survivors among them, up to the i-th place, and the rest. */
  predicate Retaining(all: seq<ClientId>, cells: seq<Cell>, now: nat, n: nat, clients: seq<ClientId>, i: nat)
    requires n <= |all| && InScope(all, cells)
  {
    i == |Survivors(all, cells, now, n)| && clients == Survivors(all, cells, now, n) + all[n..]
  }

  lemma RetainOne(all: seq<ClientId>, cells: seq<Cell>, now: nat, n: nat, clients: seq<ClientId>, i: nat)
    requires InScope(all, cells) && n <= |all| && Retaining(all, cells, now, n, clients, i) && i < |clients|
    ensures n < |all| && clients[i] == all[n]
    ensures if ShouldReap(cells[all[n]], now)
            then Retaining(all, cells, now, n + 1, clients[..i] + clients[i + 1..], i)
            else Retaining(all, cells, now, n + 1, clients, i + 1)
  {}

  lemma RetainEnds(all: seq<ClientId>, cells: seq<Cell>, now: nat, n: nat, clients: seq<ClientId>, i: nat)
    requires InScope(all, cells) && n <= |all| && Retaining(all, cells, now, n, clients, i)
    ensures i <= |clients| && (i == |clients| ==> clients == Survivors(all, cells, now, |all|))
  {}

  class HostPool {
    var now: nat
    var clients: seq<ClientId>
    var cells: seq<Cell>
    ghost var threads: map<ThreadId, Pc>
    ghost var peak: nat
    ghost var states: seq<State>
    ghost var events: seq<Event>

    ghost function View(): State
      reads this
    {
      State(now, clients, cells, threads, peak)
    }

    /** The object's past is a run of the protocol that ends in its present state. */
    ghost predicate Valid()
      reads this
    {
      IsRun(states, events) && View() == states[|events|]
    }

    constructor ()
      ensures Valid() && View() == INIT
    {
      now, clients, cells, threads, peak := 0, [], [], map[], 0;
      states, events := [INIT], [];
    }

    lemma Holds()
      requires Valid()
      ensures Invariant(View())
    {
      RunInvariant(states, events, |events|);
    }

    lemma AreInScope()
      requires Valid()
      ensures InScope(clients, cells)
    {
      Holds();
    }

    /** Records a step whose effect on the real fields has been made. */
    ghost method Took(e: Event)
      requires IsRun(states, events) && !e.Tick?
      requires Enabled(states[|events|], e) && threads == states[|events|].threads
      requires var next := Apply(states[|events|], e); State(now, clients, cells, next.threads, next.peak) == next
      modifies this`threads, this`peak, this`states, this`events
      ensures Valid() && View() == Apply(old(states[|events|]), e)
      ensures threads == old(threads)[e.t := View().At(e.t)]
    {
      var before := states[|events|];
      OneThreadMoves(before, e, Apply(before, e).At(e.t));
      threads, peak := Apply(before, e).threads, Apply(before, e).peak;
      states, events := states + [View()], events + [e];
    }

    /** The `fetch_update` of `request_permit`, for the client a scan has reached. */
    method TryCount(ghost t: ThreadId, i: nat) returns (granted: bool)
      requires Valid() && i < |clients| && View().At(t) in {ReadScan(i), WriteScan(i)}
      modifies this
      ensures Valid() && clients == old(clients) && now == old(now) && clients[i] < |old(cells)|
      ensures threads == old(threads)[t := View().At(t)]
      ensures granted <==> old(cells)[clients[i]].active < MAX_REQUESTS
      ensures granted ==>
        && View().At(t) in {ReadGrant(clients[i]), WriteGrant(clients[i])}
        && cells == old(cells)[clients[i] := old(cells)[clients[i]].(active := old(cells)[clients[i]].active + 1)]
      ensures !granted ==>
        && View().At(t) == AtScan(old(View().At(t)).ReadScan?, i + 1)
        && cells == old(cells)
    {
      var client := clients[i];
      Holds();
      granted := cells[client].active < MAX_REQUESTS;
      if granted {
        cells := cells[client := cells[client].(active := cells[client].active + 1)];
      }
      Took(if View().At(t).ReadScan? then ReadTry(t) else WriteTry(t));
    }

    /** The other half of `request_permit`: the timestamp is cleared under its own mutex. */
    method ClearIdleSince(ghost t: ThreadId, client: ClientId)
      requires Valid() && View().At(t) in {ReadGrant(client), WriteGrant(client)}
      modifies this
      ensures Valid() && clients == old(clients) && now == old(now) && client < |old(cells)|
      ensures threads == old(threads)[t := View().At(t)]
      ensures View().At(t) == Holding(client)
      ensures cells == old(cells)[client := old(cells)[client].(idleSince := None)]
    {
      Holds();
      cells := cells[client := cells[client].(idleSince := None)];
      Took(ClearIdle(t));
    }

    method RequestPermit(ghost t: ThreadId, i: nat) returns (granted: bool)
      requires Valid() && i < |clients| && View().At(t) in {ReadScan(i), WriteScan(i)}
      modifies this
      ensures Valid() && clients == old(clients) && now == old(now) && clients[i] < |old(cells)|
      ensures threads == old(threads)[t := View().At(t)]
      ensures granted <==> old(cells)[clients[i]].active < MAX_REQUESTS
      ensures granted ==>
        View().At(t) == Holding(clients[i]) && cells == Taken(old(cells), clients[i])
      ensures !granted ==>
        && View().At(t) == AtScan(old(View().At(t)).ReadScan?, i + 1)
        && cells == old(cells)
    {
      granted := TryCount(t, i);
      if granted {
        ClearIdleSince(t, clients[i]);
      }
    }

    /** A client made under the write lock, with its first permit, at the end of the vector. */
    method PushClient(ghost t: ThreadId) returns (client: ClientId)
      requires Valid() && View().At(t) == WriteScan(|clients|)
      modifies this
      ensures Valid() && now == old(now)
      ensures client == |old(cells)| && clients == old(clients) + [client] && cells == old(cells) + [Cell(1, None)]
      ensures View().At(t) == Holding(client)
    {
      client := |cells|;
      clients, cells := clients + [client], cells + [Cell(1, None)];
      Took(WriteTry(t));
    }

    /** Steps that take or give up a lock change nothing but the thread's place. */
    ghost method Lock(t: ThreadId, e: Event, place: Pc)
      requires Valid() && Enabled(View(), e)
      requires match e
               case AcquireRead(u) => u == t && place == ReadScan(0)
               case AcquireWrite(u) => u == t && place == WriteScan(0)
               case AcquireReap(u) => u == t && place == ReapScan(0)
               case ReadTry(u) => u == t && View().At(t).i == |clients| && place == WantWrite
               case ReapLoad(u) => u == t && View().At(t).i >= |clients| && place == Outside
               case _ => false
      modifies this`threads, this`peak, this`states, this`events
      ensures Valid() && threads == old(threads)[t := place]
    {
      Took(e);
    }

    /** One pass over the pool under a lock. */
    method Scan(ghost t: ThreadId) returns (i: nat)
      requires Valid() && View().At(t) in {ReadScan(0), WriteScan(0)}
      modifies this
      ensures Valid() && clients == old(clients) && InScope(clients, old(cells))
      ensures i == FirstFree(clients, old(cells), 0)
      ensures threads == old(threads)[t := View().At(t)]
      ensures i < |clients| ==> View().At(t) == Holding(clients[i]) && cells == Taken(old(cells), clients[i])
      ensures i == |clients| ==> View().At(t) == AtScan(old(View().At(t)).ReadScan?, i) && cells == old(cells)
    {
      AreInScope();
      i := 0;
      ghost var reading := View().At(t).ReadScan?;
      while i < |clients|
        invariant i <= |clients| && Valid() && View().At(t) == AtScan(reading, i)
        invariant clients == old(clients) && cells == old(cells) && threads == old(threads)[t := View().At(t)]
        invariant FirstFree(clients, cells, i) == FirstFree(clients, cells, 0)
      {
        var granted := RequestPermit(t, i);
        if granted {
          return;
        }
        i := i + 1;
      }
    }

    /** The first block of `checkout`: the first client with room gets the request, if there is one. */
    method CheckoutShared(ghost t: ThreadId) returns (client: Option<ClientId>)
      requires Valid() && View().At(t).Outside? && View().NoWriter()
      modifies this
      ensures Valid() && clients == old(clients) && InScope(clients, old(cells))
      ensures var i := FirstFree(clients, old(cells), 0);
              if i < |clients| then
                && client == Some(clients[i]) && View().At(t) == Holding(clients[i])
                && cells == Taken(old(cells), clients[i])
              else
                client == None && View().At(t) == WantWrite && cells == old(cells)
    {
      Lock(t, AcquireRead(t), ReadScan(0));
      var i := Scan(t);
      if i < |clients| {
        return Some(clients[i]);
      }
      Lock(t, ReadTry(t), WantWrite);
      return None;
    }

    /**
      The rest of `checkout`: others may have changed the pool while the write lock was awaited, so it is scanned again
      before a client is added.
     */
    method CheckoutExclusive(ghost t: ThreadId) returns (client: ClientId)
      requires Valid() && View().At(t).WantWrite? && View().Unlocked()
      modifies this
      ensures Valid() && View().At(t) == Holding(client) && InScope(old(clients), old(cells))
      ensures var i := FirstFree(old(clients), old(cells), 0);
              if i < |old(clients)| then
                client == old(clients)[i] && clients == old(clients) && cells == Taken(old(cells), client)
              else
                client == |old(cells)| && clients == old(clients) + [client] && cells == old(cells) + [Cell(1, None)]
    {
      Lock(t, AcquireWrite(t), WriteScan(0));
      var i := Scan(t);
      if i < |clients| {
        return clients[i];
      }
      client := PushClient(t);
    }

    /** Giving a permit back: the counter first, then, for the last permit, the clock and the timestamp. */
    method DropPermit(ghost t: ThreadId, client: ClientId)
      requires Valid() && View().At(t) == Holding(client)
      modifies this
      ensures Valid() && View().At(t).Outside? && clients == old(clients)
      ensures client < |old(cells)| && old(cells)[client].active > 0
      ensures var active := old(cells)[client].active - 1;
              var idleSince := if active == 0 then Some(now) else old(cells)[client].idleSince;
              cells == old(cells)[client := Cell(active, idleSince)]
    {
      Holds();
      GripsCount(View(), t, client);
      var previous := cells[client].active;
      cells := cells[client := cells[client].(active := previous - 1)];
      Took(Drop(t));
      if previous == 1 {
        var stamp := now;
        Took(ReadClock(t));
        cells := cells[client := cells[client].(idleSince := Some(stamp))];
        Took(StoreIdle(t));
      }
    }

    /** `retain` over the pool: each client is asked whether it has been idle for too long. */
    method ReapIdleClients(ghost t: ThreadId)
      requires Valid() && View().At(t).Outside? && View().Unlocked()
      modifies this
      ensures Valid() && View().At(t).Outside? && cells == old(cells) && InScope(old(clients), cells)
      ensures clients == Survivors(old(clients), cells, now, |old(clients)|)
    {
      Lock(t, AcquireReap(t), ReapScan(0));
      var i := Retain(t);
      Lock(t, ReapLoad(t), Outside);
    }

    method Retain(ghost t: ThreadId) returns (i: nat)
      requires Valid() && View().At(t) == ReapScan(0)
      modifies this
      ensures Valid() && View().At(t) == ReapScan(i) && i == |clients|
      ensures cells == old(cells) && now == old(now) && InScope(old(clients), cells)
      ensures clients == Survivors(old(clients), cells, now, |old(clients)|)
    {
      i := 0;
      ghost var n, all, seen, t0 := 0, clients, cells, now;
      AreInScope();
      while i < |clients|
        invariant n <= |all| && Valid() && View().At(t) == ReapScan(i)
        invariant cells == seen && now == t0 && Retaining(all, seen, t0, n, clients, i)
        decreases |all| - n
      {
        RetainOne(all, seen, t0, n, clients, i);
        var reaped := ReapClient(t, i);
        if !reaped {
          i := i + 1;
        }
        n := n + 1;
      }
      RetainEnds(all, seen, t0, n, clients, i);
    }

    /** `should_reap` for the client reached, and its removal. */
    method ReapClient(ghost t: ThreadId, i: nat) returns (reaped: bool)
      requires Valid() && View().At(t) == ReapScan(i) && i < |clients|
      modifies this
      ensures Valid() && cells == old(cells) && now == old(now) && old(clients)[i] < |cells|
      ensures reaped <==> ShouldReap(cells[old(clients)[i]], now)
      ensures clients == if reaped then old(clients)[..i] + old(clients)[i + 1..] else old(clients)
      ensures View().At(t) == ReapScan(if reaped then i else i + 1)
    {
      Holds();
      var cell := cells[clients[i]];
      Took(ReapLoad(t));
      if cell.active != 0 {
        return false;
      }
      reaped := IsExpired(cell.idleSince, now);
      if reaped {
        clients := clients[..i] + clients[i + 1..];
      }
      Took(ReapCheck(t));
    }
  }
}
