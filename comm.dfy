/**
 * The RPC handlers of the refactored server (pkg/go-panchaea/server/comm/comm.go).
 *
 * Units reached through a thread are shared by pointer, so completing a unit
 * changes the client table, where the thread holds it; the package-wide table
 * of registered units holds copies and does not change. `ReportError` is not
 * part of this model: the error `FetchWorkUnit` hands to it is returned as
 * `reported`.
 */
module Comm {
  import opened Wire
  import opened WuManager
  import opened Proto
  import opened Decoder

  /** The client table after the latest unit of thread `t` of client `c` completes
      with result `b`: that unit gets the result and the status "completed", and no
      other client, thread, unit or field changes. */
  function Completed(cs: seq<Client>, c: nat, t: nat, b: Bytes): (r: seq<Client>)
    requires c < |cs| && t < |cs[c].threads| && cs[c].threads[t].workUnits != []
    ensures |r| == |cs| && forall j :: 0 <= j < |cs| && j != c ==> r[j] == cs[j]
    ensures r[c].id == cs[c].id && r[c].status == cs[c].status && |r[c].threads| == |cs[c].threads|
    ensures forall j :: 0 <= j < |cs[c].threads| && j != t ==> r[c].threads[j] == cs[c].threads[j]
    ensures var th, nt := cs[c].threads[t], r[c].threads[t];
      var n := |th.workUnits|;
      nt.id == th.id && nt.status == th.status && |nt.workUnits| == n
      && nt.workUnits[..n - 1] == th.workUnits[..n - 1]
      && nt.workUnits[n - 1] == th.workUnits[n - 1].(result := b, status := "completed")
  {
    var th := cs[c].threads[t];
    var n := |th.workUnits|;
    var nt := th.(workUnits := th.workUnits[n - 1 := th.workUnits[n - 1].(result := b, status := "completed")]);
    cs[c := cs[c].(threads := cs[c].threads[t := nt])]
  }

  /** `FetchWorkUnit`: a client hands back the result of its thread's current unit. */
  method FetchWorkUnit(s: Store, receive: Receive, reply: Reply) returns (ok: bool, reply': Reply, reported: Option<string>)
    modifies s`clients
    ensures var l := FindClient(old(s.clients), receive, reply);
      l.found.Missing? ==> !ok && s.clients == old(s.clients) && reply' == l.reply && reported.None?
    ensures var l := FindClient(old(s.clients), receive, reply);
      l.found.Found? ==> (
        var th := old(s.clients)[l.found.client].threads[l.found.thread];
        if th.workUnits == [] then
          !ok && s.clients == old(s.clients) && reply' == reply.(error := UnitMissing) && reported.None?
        else if receive.error != "" then
          !ok && s.clients == old(s.clients) && reply' == reply && reported == Some(receive.error)
        else
          ok && s.clients == Completed(old(s.clients), l.found.client, l.found.thread, receive.bytecode)
          && reply' == reply && reported.None?)
  {
    var l := FindClient(s.clients, receive, reply);
    reply' := l.reply;
    if l.found.Missing? {
      return false, reply', None;
    }
    var c, t := l.found.client, l.found.thread;
    var u := FindWorkUnit(receive, reply', s.clients[c].threads[t]);
    reply' := u.reply;
    if u.unit.None? {
      return false, reply', None;
    }
    if receive.error != "" {
      return false, reply', Some(receive.error);
    }
    s.clients := Completed(s.clients, c, t, receive.bytecode);
    return true, reply', None;
  }

  /** `SendWorkUnit`: only the lookup; no unit changes. */
  method SendWorkUnit(s: Store, receive: Receive, reply: Reply) returns (ok: bool, reply': Reply)
    ensures ok == FindClient(s.clients, receive, reply).found.Found?
    ensures reply' == FindClient(s.clients, receive, reply).reply
    ensures ok ==> reply' == reply
    ensures !ok ==> reply' == reply.(error := ClientMissing) || reply' == reply.(error := ThreadMissing)
  {
    var l := FindClient(s.clients, receive, reply);
    return l.found.Found?, l.reply;
  }

  /** Two client tables with the same IDs, position by position. */
  predicate SameIds(cs: seq<Client>, ds: seq<Client>)
  {
    |cs| == |ds| && (forall j :: 0 <= j < |cs| ==> cs[j].id == ds[j].id)
    && forall j :: 0 <= j < |cs| ==>
      |cs[j].threads| == |ds[j].threads|
      && forall k :: 0 <= k < |cs[j].threads| ==> cs[j].threads[k].id == ds[j].threads[k].id
  }

  lemma LookupByIds(cs: seq<Client>, ds: seq<Client>, receive: Receive, reply: Reply)
    requires SameIds(cs, ds)
    ensures FindClient(cs, receive, reply) == FindClient(ds, receive, reply)
  {
  }

  /** After a completed fetch, the same request finds the same client and thread, and
      that thread's current unit is now completed and carries the returned result. */
  lemma FetchThenFind(cs: seq<Client>, receive: Receive, reply: Reply)
    requires FindClient(cs, receive, reply).found.Found?
    requires var l := FindClient(cs, receive, reply);
      cs[l.found.client].threads[l.found.thread].workUnits != []
    ensures var l := FindClient(cs, receive, reply);
      var c, t := l.found.client, l.found.thread;
      var cs' := Completed(cs, c, t, receive.bytecode);
      FindClient(cs', receive, reply) == l
      && FindWorkUnit(receive, reply, cs'[c].threads[t]).unit.Some?
      && FindWorkUnit(receive, reply, cs'[c].threads[t]).unit.value.status == "completed"
      && FindWorkUnit(receive, reply, cs'[c].threads[t]).unit.value.result == receive.bytecode
  {
    var l := FindClient(cs, receive, reply);
    var c, t := l.found.client, l.found.thread;
    var cs' := Completed(cs, c, t, receive.bytecode);
    assert SameIds(cs, cs') by {
      forall j | 0 <= j < |cs|
        ensures cs[j].id == cs'[j].id && |cs[j].threads| == |cs'[j].threads|
        ensures forall k :: 0 <= k < |cs[j].threads| ==> cs[j].threads[k].id == cs'[j].threads[k].id
      {
        if j == c {
          forall k | 0 <= k < |cs[j].threads|
            ensures cs[j].threads[k].id == cs'[j].threads[k].id
          {
          }
        }
      }
    }
    LookupByIds(cs, cs', receive, reply);
  }
}
