/**
  The server-sent-events registry (backend/app/sse_manager.py), modelled sequentially: the
  manager's client map and id counter, and each client's event queue and connected flag.
  The lock is modelled separately, as the sequence of acquisitions a broadcast makes.
*/
module Sse {
  import opened Wrappers
  import opened Text

  /** `f"client_{n}"`. */
  function ClientId(n: nat): string {
    "client_" + NatToString(n)
  }

  /** Different counter values give different ids. */
  lemma ClientIdInjective(a: nat, b: nat)
    requires ClientId(a) == ClientId(b)
    ensures a == b
  {
    assert ClientId(a)[7..] == NatToString(a);
    assert ClientId(b)[7..] == NatToString(b);
    NatToStringInjective(a, b);
  }

  /** `f"data: {json_data}\n\n"`. */
  function Event(json: string): string {
    "data: " + json + "\n\n"
  }

  /** The event sent when the queue stays empty for the one-second wait. */
  function Heartbeat(timestamp: string): string {
    Event("{\"type\": \"heartbeat\", \"timestamp\": " + timestamp + "}")
  }

  class SSEClient {
    const clientId: string
    const manager: SSEManager
    /** The queue's `maxsize`; 0 means unbounded, which is what `queue.Queue()` gives. */
    const capacity: nat
    var queue: seq<string>
    var isConnected: bool

    constructor (clientId: string, manager: SSEManager, capacity: nat)
      ensures this.clientId == clientId && this.manager == manager && this.capacity == capacity
      ensures queue == [] && isConnected
    {
      this.clientId := clientId;
      this.manager := manager;
      this.capacity := capacity;
      queue := [];
      isConnected := true;
    }

    /** `put(block=False)` would raise `queue.Full`. */
    predicate Full()
      reads this
    {
      capacity != 0 && |queue| >= capacity
    }

    /** `disconnect`: clear the flag and unregister from the manager. */
    method Disconnect()
      requires manager.Valid()
      modifies this, manager
      ensures !isConnected && queue == old(queue)
      ensures manager.clients == old(manager.clients) - {clientId} && manager.counter == old(manager.counter)
      ensures manager.Valid()
    {
      isConnected := false;
      manager.RemoveClient(clientId);
    }

    /** `send_event`. `json` is what `json.dumps` makes of the event, `None` when it raises;
        the exception then reaches the caller as `raised`. A disconnected client ignores the
        event, a full queue disconnects the client, and otherwise the formatted event joins
        the back of the queue. */
    method SendEvent(json: Option<string>) returns (raised: bool)
      requires manager.Valid()
      modifies this, manager
      ensures manager.Valid() && manager.counter == old(manager.counter)
      ensures raised <==> old(isConnected) && json.None?
      ensures !old(isConnected) || json.None? ==>
                queue == old(queue) && isConnected == old(isConnected) && manager.clients == old(manager.clients)
      ensures old(isConnected) && json.Some? && !old(Full()) ==>
                queue == old(queue) + [Event(json.value)] && isConnected && manager.clients == old(manager.clients)
      ensures old(isConnected) && json.Some? && old(Full()) ==>
                queue == old(queue) && !isConnected && manager.clients == old(manager.clients) - {clientId}
    {
      if !isConnected {
        return false;
      }
      if json.None? {
        return true;
      }
      raised := false;
      if Full() {
        Disconnect();
      } else {
        queue := queue + [Event(json.value)];
      }
    }

    /** `get_events` read for `n` steps and then closed. Each step yields the oldest queued
        event or, with an empty queue, a heartbeat event stamped `timestamp`; closing
        disconnects. A client already disconnected yields nothing. */
    method GetEvents(n: nat, timestamp: string) returns (events: seq<string>)
      requires manager.Valid()
      modifies this, manager
      ensures events == Drain(old(queue), if old(isConnected) then n else 0, Heartbeat(timestamp))
      ensures queue == old(queue)[Min(if old(isConnected) then n else 0, |old(queue)|)..]
      ensures !isConnected && manager.clients == old(manager.clients) - {clientId}
      ensures manager.Valid()
    {
      events := [];
      var steps := if isConnected then n else 0;
      var i := 0;
      while i < steps
        invariant 0 <= i <= steps
        invariant events + Drain(queue, steps - i, Heartbeat(timestamp)) == Drain(old(queue), steps, Heartbeat(timestamp))
        invariant queue == old(queue)[Min(i, |old(queue)|)..]
        invariant manager.Valid() && manager.clients == old(manager.clients) && manager.counter == old(manager.counter)
      {
        if queue != [] {
          events := events + [queue[0]];
          queue := queue[1..];
        } else {
          events := events + [Heartbeat(timestamp)];
        }
        i := i + 1;
      }
      Disconnect();
    }
  }

  function Min(a: int, b: int): int {
    if a <= b then a else b
  }

  /** What `n` reads of the generator yield from a queue `q`. */
  function Drain(q: seq<string>, n: nat, heartbeat: string): (r: seq<string>)
    ensures |r| == n
  {
    if n == 0 then []
    else if q == [] then [heartbeat] + Drain([], n - 1, heartbeat)
    else [q[0]] + Drain(q[1..], n - 1, heartbeat)
  }

  function Repeat(s: string, n: nat): (r: seq<string>)
    ensures |r| == n
  {
    if n == 0 then [] else [s] + Repeat(s, n - 1)
  }

  /** The queued events come out first, oldest first, and heartbeats fill the remaining
      reads. */
  lemma {:induction false} DrainIsQueueThenHeartbeats(q: seq<string>, n: nat, heartbeat: string)
    ensures Drain(q, n, heartbeat) == q[..Min(n, |q|)] + Repeat(heartbeat, n - Min(n, |q|))
  {
    if n != 0 {
      if q == [] {
        DrainIsQueueThenHeartbeats([], n - 1, heartbeat);
      } else {
        DrainIsQueueThenHeartbeats(q[1..], n - 1, heartbeat);
        assert q[..Min(n, |q|)] == [q[0]] + q[1..][..Min(n - 1, |q| - 1)];
      }
    }
  }

  class SSEManager {
    var clients: map<string, SSEClient>
    var counter: nat

    ghost predicate Valid()
      reads this, clients.Values
    {
      (forall k :: k in clients ==> Entry(k))
      && (forall n: nat :: n >= counter ==> ClientId(n) !in clients)
    }

    /** The registered client under `k` is connected, knows its own id and this manager, and
        has the unbounded queue `add_client` gives it. */
    ghost predicate Entry(k: string)
      reads this, clients.Values
    {
      k in clients && clients[k].clientId == k && clients[k].manager == this && clients[k].isConnected
      && clients[k].capacity == 0
    }

    constructor ()
      ensures clients == map[] && counter == 0 && Valid()
    {
      clients := map[];
      counter := 0;
    }

    /** `add_client`: a fresh connected client with an empty unbounded queue, under the id
        `client_<counter>`, which no earlier client has had; the counter moves on by one. */
    method AddClient() returns (client: SSEClient)
      requires Valid()
      modifies this
      ensures Valid()
      ensures fresh(client) && client.manager == this && client.capacity == 0
      ensures client.queue == [] && client.isConnected
      ensures client.clientId == ClientId(old(counter)) && client.clientId !in old(clients)
      ensures counter == old(counter) + 1
      ensures clients == old(clients)[client.clientId := client]
    {
      var id := ClientId(counter);
      forall n: nat | n > counter
        ensures ClientId(n) != id
      {
        if ClientId(n) == id {
          ClientIdInjective(n, counter);
        }
      }
      client := new SSEClient(id, this, 0);
      clients := clients[id := client];
      counter := counter + 1;
    }

    /** `remove_client`: drop the id if it is registered; an unknown id changes nothing. The
        client behind the id may already be marked disconnected. */
    method RemoveClient(id: string)
      requires forall k :: k in clients && k != id ==> Entry(k)
      requires forall n: nat :: n >= counter ==> ClientId(n) !in clients
      modifies this
      ensures clients == old(clients) - {id} && counter == old(counter)
      ensures Valid()
    {
      if id in clients {
        clients := clients - {id};
      }
    }

    /** `send_feedback_update` with the removal of failed clients made after the loop over the
        registered clients, as the lock requires (see `BroadcastLockSteps`). `json` is the
        encoded event, `None` when encoding raises, in which case every registered client
        fails and is dropped. Otherwise every registered client gets the event at the back of
        its queue (their queues are unbounded, so none is full). */
    method SendFeedbackUpdate(json: Option<string>)
      requires Valid()
      modifies this, clients.Values
      ensures Valid() && counter == old(counter)
      ensures json.None? ==> clients == map[]
      ensures json.Some? ==> clients == old(clients)
      ensures forall k :: k in old(clients) ==> old(clients[k]).queue == Appended(old(clients[k].queue), json)
    {
      var ids := Ordered(clients);
      ghost var queues0 := map k | k in clients :: clients[k].queue;
      var failed := Broadcast(ids, json, queues0);
      RemoveAll(failed);
      if json.None? {
        assert forall k :: k in old(clients) ==> k in failed;
      }
    }

    /** The loop of `send_feedback_update` over the registered ids `ids`: send to each and
        list, in order, the ids whose send raised. */
    method Broadcast(ids: seq<string>, json: Option<string>, ghost queues0: map<string, seq<string>>)
      returns (failed: seq<string>)
      requires Valid()
      requires forall k :: k in clients <==> k in ids
      requires forall i, j :: 0 <= i < j < |ids| ==> ids[i] != ids[j]
      requires SentUpTo(clients, ids, 0, json, queues0)
      modifies this, clients.Values
      ensures Valid() && clients == old(clients) && counter == old(counter)
      ensures failed == if json.None? then ids else []
      ensures forall k :: k in clients && k in queues0 ==> clients[k].queue == Appended(queues0[k], json)
    {
      failed := [];
      for i := 0 to |ids|
        invariant Valid() && clients == old(clients) && counter == old(counter)
        invariant failed == if json.None? then ids[..i] else []
        invariant SentUpTo(clients, ids, i, json, queues0)
      {
        var raised := SendTo(ids, i, json, queues0);
        if raised {
          failed := failed + [ids[i]];
        }
      }
      assert forall k :: k in clients ==> exists j :: 0 <= j < |ids| && ids[j] == k;
    }

    /** One send of the loop, to the registered client `ids[i]`: it cannot be full, so it
        stays registered. */
    method SendTo(ids: seq<string>, i: nat, json: Option<string>, ghost queues0: map<string, seq<string>>)
      returns (raised: bool)
      requires Valid() && i < |ids|
      requires forall k :: k in clients <==> k in ids
      requires forall i, j :: 0 <= i < j < |ids| ==> ids[i] != ids[j]
      requires SentUpTo(clients, ids, i, json, queues0)
      modifies this, clients[ids[i]]
      ensures Valid() && clients == old(clients) && counter == old(counter)
      ensures raised <==> json.None?
      ensures SentUpTo(clients, ids, i + 1, json, queues0)
    {
      raised := clients[ids[i]].SendEvent(json);
    }

    /** The removals after the loop: `remove_client` for each failed id. */
    method RemoveAll(ids: seq<string>)
      requires Valid()
      modifies this
      ensures Valid() && counter == old(counter)
      ensures forall k :: k in clients <==> k in old(clients) && k !in ids
      ensures forall k :: k in clients ==> clients[k] == old(clients[k])
      ensures ids == [] ==> clients == old(clients)
      ensures (forall k :: k in old(clients) ==> k in ids) ==> clients == map[]
    {
      for i := 0 to |ids|
        invariant Valid() && counter == old(counter)
        invariant forall k :: k in clients <==> k in old(clients) && k !in ids[..i]
        invariant forall k :: k in clients ==> clients[k] == old(clients[k])
      {
        RemoveClient(ids[i]);
        assert ids[..i + 1] == ids[..i] + [ids[i]];
      }
      assert ids[..|ids|] == ids;
      if forall k :: k in old(clients) ==> k in ids {
        assert clients.Keys == {};
      }
    }
  }

  /** The keys of a map in some order, each once: the order in which a dict is walked. */
  method Ordered<V>(m: map<string, V>) returns (ids: seq<string>)
    ensures forall k :: k in m <==> k in ids
    ensures forall i, j :: 0 <= i < j < |ids| ==> ids[i] != ids[j]
  {
    ids := [];
    var todo := m.Keys;
    while todo != {}
      invariant todo <= m.Keys
      invariant forall k :: k in m <==> k in ids || k in todo
      invariant forall k :: k in ids ==> k !in todo
      invariant forall i, j :: 0 <= i < j < |ids| ==> ids[i] != ids[j]
      decreases |todo|
    {
      var id :| id in todo;
      ids := ids + [id];
      todo := todo - {id};
    }
  }

  /** The clients under `ids[..i]` have had the event, the others not yet. */
  ghost predicate SentUpTo(clients: map<string, SSEClient>, ids: seq<string>, i: int, json: Option<string>,
                           queues0: map<string, seq<string>>)
    reads clients.Values
  {
    forall j :: 0 <= j < |ids| && ids[j] in clients && ids[j] in queues0 ==>
      clients[ids[j]].queue == if j < i then Appended(queues0[ids[j]], json) else queues0[ids[j]]
  }

  /** The queue a broadcast of `json` leaves behind in a registered client whose queue was
      `queue0`: the event joins the back unless encoding raised. */
  function Appended(queue0: seq<string>, json: Option<string>): seq<string> {
    if json.Some? then queue0 + [Event(json.value)] else queue0
  }

  /** One step on the manager's lock. */
  datatype LockStep = Acquire | Release

  /** Run lock steps on a non-reentrant `threading.Lock` from the given state (`true` when
      held). `None` means the thread tried to acquire a lock it already holds, which blocks
      it for ever. */
  function RunLock(held: bool, steps: seq<LockStep>): Option<bool>
    decreases |steps|
  {
    if steps == [] then Some(held)
    else if steps[0] == Acquire && held then None
    else RunLock(steps[0] == Acquire, steps[1..])
  }

  /** The steps of `n` calls to `remove_client`. */
  function RemoveSteps(n: nat): seq<LockStep> {
    if n == 0 then [] else [Acquire, Release] + RemoveSteps(n - 1)
  }

  /** The lock steps of `send_feedback_update` as written when `failures` sends raised:
      `remove_client` runs inside the `with self.lock` block. */
  function BroadcastLockSteps(failures: nat): seq<LockStep> {
    [Acquire] + RemoveSteps(failures) + [Release]
  }

  /** As written, a single failed send leaves the broadcasting thread blocked on its own lock. */
  lemma BroadcastDeadlocksOnFailure(failures: nat)
    requires failures >= 1
    ensures RunLock(false, BroadcastLockSteps(failures)) == None
  {
    assert BroadcastLockSteps(failures)[1] == Acquire;
    assert BroadcastLockSteps(failures)[1..] == RemoveSteps(failures) + [Release];
  }

  /** The order `SendFeedbackUpdate` uses: release the lock, then remove the failed clients. */
  function CorrectedBroadcastLockSteps(failures: nat): seq<LockStep> {
    [Acquire, Release] + RemoveSteps(failures)
  }

  lemma {:induction false} RemoveStepsFromFree(n: nat)
    ensures RunLock(false, RemoveSteps(n)) == Some(false)
  {
    if n > 0 {
      RemoveStepsFromFree(n - 1);
      assert RemoveSteps(n)[1..] == [Release] + RemoveSteps(n - 1);
      assert ([Release] + RemoveSteps(n - 1))[1..] == RemoveSteps(n - 1);
    }
  }

  /** Releasing before removing never blocks and leaves the lock free. */
  lemma CorrectedBroadcastNeverBlocks(failures: nat)
    ensures RunLock(false, CorrectedBroadcastLockSteps(failures)) == Some(false)
  {
    var steps := CorrectedBroadcastLockSteps(failures);
    assert steps[1..] == [Release] + RemoveSteps(failures);
    assert steps[1..][1..] == RemoveSteps(failures);
    RemoveStepsFromFree(failures);
  }
}
