/**
 * The refactored registry package (pkg/go-panchaea/common/wumanager/wumanager.go):
 * clients that own their threads, threads that own their work units, and the
 * package-wide table of registered units.
 *
 * A client holds its threads by pointer and a thread its units; no other
 * structure shares those pointers, so each is modelled as a value nested in
 * its owner. A unit's `*Client` is the client's ID.
 */
module WuManager {
  import opened Wire

  datatype WorkUnit = WorkUnit(data: Bytes, client: int, status: string, attempt: int, result: Bytes)

  datatype Thread = Thread(id: int, status: string, workUnits: seq<WorkUnit>)

  datatype Client = Client(id: int, status: string, threads: seq<Thread>)

  /** Threads 1 to n, ready and without units. */
  predicate FreshThreads(ts: seq<Thread>, n: int)
  {
    |ts| == n && forall k :: 0 <= k < n ==> ts[k] == Thread(k + 1, "ready", [])
  }

  /** `NewThreads`: fills a slice of `amount` threads. `make` panics on a negative
      amount, which is the outcome `None`. */
  method NewThreads(amount: int) returns (res: Option<seq<Thread>>)
    ensures res.None? <==> amount < 0
    ensures res.Some? ==> FreshThreads(res.value, amount)
  {
    if amount < 0 {
      return None;
    }
    var a := new Thread[amount];
    for i := 0 to amount
      invariant forall k :: 0 <= k < i ==> a[k] == Thread(k + 1, "ready", [])
    {
      a[i] := Thread(i + 1, "ready", []);
    }
    return Some(a[..]);
  }

  /** The position of the first client with this ID. */
  function GetClient(cs: seq<Client>, id: int): (r: Option<nat>)
    ensures r.Some? ==> (r.value < |cs| && cs[r.value].id == id
      && forall j :: 0 <= j < r.value ==> cs[j].id != id)
    ensures r.None? ==> forall j :: 0 <= j < |cs| ==> cs[j].id != id
  {
    if cs == [] then None
    else if cs[0].id == id then Some(0)
    else match GetClient(cs[1..], id)
      case None => None
      case Some(k) => Some(k + 1)
  }

  function FirstThread(ts: seq<Thread>, id: int): (r: Option<nat>)
    ensures r.Some? ==> (r.value < |ts| && ts[r.value].id == id
      && forall j :: 0 <= j < r.value ==> ts[j].id != id)
    ensures r.None? ==> forall j :: 0 <= j < |ts| ==> ts[j].id != id
  {
    if ts == [] then None
    else if ts[0].id == id then Some(0)
    else match FirstThread(ts[1..], id)
      case None => None
      case Some(k) => Some(k + 1)
  }

  /** The position, among the client's threads, of the first thread with this ID. */
  function GetThread(c: Client, id: int): (r: Option<nat>)
    ensures r.Some? ==> r.value < |c.threads| && c.threads[r.value].id == id
    ensures r.None? <==> forall j :: 0 <= j < |c.threads| ==> c.threads[j].id != id
  {
    FirstThread(c.threads, id)
  }

  /** The thread's latest unit. The source indexes the last element, so the list must
      not be empty. */
  function GetWorkUnit(t: Thread): (w: WorkUnit)
    requires |t.workUnits| > 0
    ensures w in t.workUnits && w == t.workUnits[|t.workUnits| - 1]
  {
    t.workUnits[|t.workUnits| - 1]
  }

  /** In the threads of a freshly registered client, thread `k` is found at position k-1. */
  lemma FreshThreadLookup(ts: seq<Thread>, n: int, k: int)
    requires FreshThreads(ts, n) && 1 <= k <= n
    ensures FirstThread(ts, k) == Some(k - 1)
  {
    assert ts[k - 1].id == k;
  }

  class Store {
    var clients: seq<Client>
    var workUnits: seq<WorkUnit>

    constructor ()
      ensures clients == [] && workUnits == []
    {
      clients, workUnits := [], [];
    }

    /** Registers a client with `threads` fresh threads. `ok` is false when `NewThreads`
        panics on a negative count; the table is then unchanged. */
    method NewClient(id: int, status: string, threads: int) returns (ok: bool)
      modifies this`clients
      ensures ok <==> threads >= 0
      ensures !ok ==> clients == old(clients)
      ensures ok ==> |clients| == |old(clients)| + 1 && clients[..|old(clients)|] == old(clients)
      ensures ok ==> var c := clients[|old(clients)|];
        c.id == id && c.status == status && FreshThreads(c.threads, threads)
    {
      var ts := NewThreads(threads);
      if ts.None? {
        return false;
      }
      clients := clients + [Client(id, status, ts.value)];
      return true;
    }

    /** Registers a unit, and returns a copy of it: the stored unit and the returned
        one are different variables. The thread argument is not used. */
    method NewWorkUnit(client: int, data: Bytes, thread: int) returns (wu: WorkUnit)
      modifies this`workUnits
      ensures wu == WorkUnit(data, client, "new", 0, [])
      ensures workUnits == old(workUnits) + [wu]
    {
      wu := WorkUnit(data, client, "new", 0, []);
      workUnits := workUnits + [wu];
    }
  }
}
