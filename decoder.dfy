/**
 * The request decoder (pkg/go-panchaea/server/decoder/decoder.go): it finds the
 * client and the thread a request speaks for, and the thread's current unit, and
 * on a failure writes the reason into the reply.
 *
 * The reply the source updates through a pointer is an input here, and the
 * updated reply is part of the result. The client and the thread found are
 * returned as their positions: a client in the client table, a thread among
 * that client's threads. The console messages of the failure paths are not
 * part of the model.
 */
module Decoder {
  import opened Wire
  import opened WuManager
  import opened Proto

  datatype Found = Found(client: nat, thread: nat) | Missing

  datatype Lookup = Lookup(found: Found, reply: Reply)

  datatype UnitLookup = UnitLookup(unit: Option<WorkUnit>, reply: Reply)

  const ClientMissing: string := "Client not found!"
  const ThreadMissing: string := "Thread not found!"
  const UnitMissing: string := "Workunit not found!"

  /** Position `c` holds the first client with this ID. */
  predicate FirstWith(cs: seq<Client>, id: int, c: int)
  {
    0 <= c < |cs| && cs[c].id == id && forall j :: 0 <= j < c ==> cs[j].id != id
  }

  predicate HasThread(client: Client, id: int)
  {
    exists t :: 0 <= t < |client.threads| && client.threads[t].id == id
  }

  /** `FindClient`. On success the source as written returns only two of its three
      results; the model returns the evidently intended `(client, thread, true)`. */
  function FindClient(cs: seq<Client>, receive: Receive, reply: Reply): (r: Lookup)
    ensures (forall j :: 0 <= j < |cs| ==> cs[j].id != receive.id) ==>
      r == Lookup(Missing, reply.(error := ClientMissing))
    ensures forall c :: FirstWith(cs, receive.id, c) ==>
      if HasThread(cs[c], receive.thread)
      then r.found.Found? && r.found.client == c && r.reply == reply
      else r == Lookup(Missing, reply.(error := ThreadMissing))
    ensures r.found.Found? ==> (
      var c, t := r.found.client, r.found.thread;
      c < |cs| && cs[c].id == receive.id && t < |cs[c].threads| && cs[c].threads[t].id == receive.thread
      && (forall j :: 0 <= j < t ==> cs[c].threads[j].id != receive.thread))
  {
    match GetClient(cs, receive.id)
    case None => Lookup(Missing, reply.(error := ClientMissing))
    case Some(c) =>
      match GetThread(cs[c], receive.thread)
      case None => Lookup(Missing, reply.(error := ThreadMissing))
      case Some(t) => Lookup(Found(c, t), reply)
  }

  /** `FindWorkUnit`: the thread's latest unit, or a failure when it has none. The
      lookup it calls has no `ok` result; not-found is taken to mean an empty list. */
  function FindWorkUnit(receive: Receive, reply: Reply, thread: Thread): (r: UnitLookup)
    ensures r.unit.Some? <==> thread.workUnits != []
    ensures r.unit.Some? ==> r.unit.value == thread.workUnits[|thread.workUnits| - 1] && r.reply == reply
    ensures r.unit.None? ==> r.reply == reply.(error := UnitMissing)
  {
    if thread.workUnits == [] then UnitLookup(None, reply.(error := UnitMissing))
    else UnitLookup(Some(GetWorkUnit(thread)), reply)
  }
}
