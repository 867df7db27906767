/**
 * The worker client's per-thread scheduler (client/client.go): the thread table,
 * the download and reload of a work unit for one thread, and one pass of the
 * scheduling loop over all threads.
 *
 * Each RPC is an input: a `Call` is what `client.Call` delivered, a failed call
 * or the server's reply. The goroutine that runs a unit once its thread is
 * "running" is not part of this model.
 */
module Scheduler {
  import opened Wire

  datatype Thread = Thread(id: int, status: string, workUnit: Bytes, result: Bytes, attempts: int)

  datatype Reply = Reply(data: string, id: int, bytecode: Bytes)

  /** The outcome of one `client.Call`. */
  datatype Call = CallFailed(err: string) | Replied(reply: Reply)

  predicate Accepted(call: Call)
  {
    call.Replied? && call.reply.data == "ok"
  }

  /** The thread after `fetchWU`: running with the downloaded unit, or failed. */
  function Fetched(t: Thread, call: Call): (r: Thread)
    ensures r.id == t.id && r.attempts == t.attempts && r.result == t.result
    ensures r.status == (if Accepted(call) then "running" else "failed")
    ensures r.workUnit == (if Accepted(call) then call.reply.bytecode else t.workUnit)
  {
    if Accepted(call) then t.(workUnit := call.reply.bytecode, status := "running")
    else t.(status := "failed")
  }

  /** The error `fetchWU` returns. */
  function FetchError(call: Call): (e: Option<string>)
    ensures e.None? <==> Accepted(call)
  {
    match call
    case CallFailed(err) => Some(err)
    case Replied(reply) => if reply.data == "ok" then None else Some("WU download failed")
  }

  /** `reloadWU` changes the thread the way `fetchWU` does; only its errors differ. */
  function ReloadError(call: Call): (e: Option<string>)
    ensures e.None? <==> Accepted(call)
  {
    match call
    case CallFailed(err) => Some(err)
    case Replied(reply) =>
      if reply.data == "ok" then None
      else if reply.data == "no such wu" then Some("WU does not exist!")
      else if reply.data == "dead" then Some("WU is dead!")
      else Some("Unknown WU reload error!")
  }

  /** The three refusals of a reload are told apart by the error they produce. */
  lemma ReloadRefusalsDistinct(id: int, b: Bytes, other: string)
    requires other !in {"ok", "no such wu", "dead"}
    ensures ReloadError(Replied(Reply("no such wu", id, b))) != ReloadError(Replied(Reply("dead", id, b)))
    ensures ReloadError(Replied(Reply("no such wu", id, b))) != ReloadError(Replied(Reply(other, id, b)))
    ensures ReloadError(Replied(Reply("dead", id, b))) != ReloadError(Replied(Reply(other, id, b)))
  {
  }

  /** What one pass of the loop does to one thread, given the outcome of its RPC. */
  function Step(t: Thread, call: Call, attempts: int): (r: Thread)
    ensures r.id == t.id && r.result == t.result
    ensures RequestOf(t, attempts) == NoCall ==> r == t
    ensures RequestOf(t, attempts) != NoCall ==> (r.status == "running" <==> Accepted(call))
  {
    if t.status == "ready" then Fetched(t.(attempts := 0), call)
    else if t.status == "failed" then
      if t.attempts >= attempts then Fetched(t.(attempts := 0), call)
      else
        var u := Fetched(t.(attempts := t.attempts + 1), call);
        if Accepted(call) then u else u.(attempts := attempts)
    else t
  }

  /** The RPC a thread's turn issues: a download (`fetchWU`, the server's SendWorkUnit), a
      reload (`reloadWU`, ReloadWorkUnit), or none for a thread that is neither ready nor
      failed. */
  datatype Request = Download | Reload | NoCall

  function RequestOf(t: Thread, attempts: int): (r: Request)
    ensures r == Reload <==> t.status == "failed" && t.attempts < attempts
    ensures r == Download <==> t.status == "ready" || (t.status == "failed" && t.attempts >= attempts)
  {
    if t.status == "ready" then Download
    else if t.status == "failed" then (if t.attempts >= attempts then Download else Reload)
    else NoCall
  }

  /** The error a turn's request returns: the download's or the reload's, or none without
      a request. */
  function TurnError(r: Request, call: Call): (e: Option<string>)
    ensures r == NoCall ==> e.None?
    ensures r != NoCall ==> (e.None? <==> Accepted(call))
  {
    match r
    case Download => FetchError(call)
    case Reload => ReloadError(call)
    case NoCall => None
  }

  /** The request decides the step: a download starts from zero attempts, a reload counts
      one more and, when refused, uses them all up; without a request the thread stays. */
  lemma StepByRequest(t: Thread, call: Call, attempts: int)
    ensures RequestOf(t, attempts) == NoCall ==> Step(t, call, attempts) == t
    ensures RequestOf(t, attempts) == Download ==> Step(t, call, attempts) == Fetched(t.(attempts := 0), call)
    ensures RequestOf(t, attempts) == Reload ==>
      Step(t, call, attempts).attempts == (if Accepted(call) then t.attempts + 1 else attempts)
  {
  }

  function RequestsOf(ts: seq<Thread>, attempts: int): (r: seq<Request>)
    ensures |r| == |ts| && forall j :: 0 <= j < |ts| ==> r[j] == RequestOf(ts[j], attempts)
  {
    seq(|ts|, j requires 0 <= j < |ts| => RequestOf(ts[j], attempts))
  }

  function StepAll(ts: seq<Thread>, calls: seq<Call>, attempts: int): (r: seq<Thread>)
    requires |calls| == |ts|
    ensures |r| == |ts|
  {
    seq(|ts|, j requires 0 <= j < |ts| => Step(ts[j], calls[j], attempts))
  }

  /** A pass keeps every thread's ID and result and leaves threads that are neither
      ready nor failed as they were; a ready thread starts from zero attempts. */
  lemma StepFrame(t: Thread, call: Call, attempts: int)
    ensures Step(t, call, attempts).id == t.id && Step(t, call, attempts).result == t.result
    ensures t.status != "ready" && t.status != "failed" ==> Step(t, call, attempts) == t
    ensures t.status == "ready" ==> Step(t, call, attempts).attempts == 0
  {
  }

  /** A thread the pass handles ends running exactly when its RPC was accepted. */
  lemma StepOutcome(t: Thread, call: Call, attempts: int)
    requires t.status == "ready" || t.status == "failed"
    ensures Step(t, call, attempts).status == (if Accepted(call) then "running" else "failed")
  {
  }

  /** A failed thread with attempts left tries a reload and counts it; if the reload is
      refused its attempts are used up, and the next pass downloads a fresh unit with the
      attempts starting again from zero. */
  lemma FailedReloadThenFetch(t: Thread, c1: Call, c2: Call, attempts: int)
    requires t.status == "failed" && t.attempts < attempts && !Accepted(c1)
    ensures Step(t, c1, attempts).status == "failed" && Step(t, c1, attempts).attempts == attempts
    ensures Step(Step(t, c1, attempts), c2, attempts) == Fetched(t.(attempts := 0), c2)
  {
  }

  /** An accepted reload counts one attempt more. */
  lemma ReloadCounts(t: Thread, call: Call, attempts: int)
    requires t.status == "failed" && t.attempts < attempts && Accepted(call)
    ensures Step(t, call, attempts).attempts == t.attempts + 1
    ensures Step(t, call, attempts).workUnit == call.reply.bytecode
  {
  }

  /** A thread never carries more than the allowed attempts out of a pass. */
  lemma {:induction false} AttemptsBounded(ts: seq<Thread>, calls: seq<Call>, attempts: int)
    requires |calls| == |ts| && attempts >= 0
    requires forall j :: 0 <= j < |ts| ==> 0 <= ts[j].attempts <= attempts
    ensures forall j :: 0 <= j < |ts| ==> 0 <= StepAll(ts, calls, attempts)[j].attempts <= attempts
  {
    forall j | 0 <= j < |ts|
      ensures 0 <= StepAll(ts, calls, attempts)[j].attempts <= attempts
    {
      assert StepAll(ts, calls, attempts)[j] == Step(ts[j], calls[j], attempts);
    }
  }

  function Fresh(n: nat): (r: seq<Thread>)
    ensures |r| == n
  {
    seq(n, k requires 0 <= k < n => Thread(k + 1, "ready", [], [], 0))
  }

  class Worker {
    var threads: seq<Thread>
    var wuAttempts: int

    /** The state after start-up: no threads yet, two attempts per unit. */
    constructor ()
      ensures threads == [] && wuAttempts == 2
    {
      threads := [];
      wuAttempts := 2;
    }

    /** `initThreads`: threads 1 to n, all ready, without units and attempts. */
    method InitThreads(n: int)
      modifies this`threads
      ensures |threads| == (if n < 0 then 0 else n)
      ensures forall k :: 0 <= k < |threads| ==> threads[k] == Thread(k + 1, "ready", [], [], 0)
    {
      threads := [];
      var i := 0;
      while i < n
        invariant 0 <= i && (n >= 0 ==> i <= n) && (n < 0 ==> i == 0)
        invariant threads == Fresh(i)
      {
        threads := threads + [Thread(i + 1, "ready", [], [], 0)];
        i := i + 1;
      }
    }

    /** `fetchWU` on thread `i`. */
    method FetchWU(i: nat, call: Call) returns (err: Option<string>)
      requires i < |threads|
      modifies this`threads
      ensures threads == old(threads)[i := Fetched(old(threads)[i], call)]
      ensures err == FetchError(call)
    {
      match call
      case CallFailed(e) =>
        threads := threads[i := threads[i].(status := "failed")];
        return Some(e);
      case Replied(reply) =>
        if reply.data != "ok" {
          threads := threads[i := threads[i].(status := "failed")];
          return Some("WU download failed");
        }
        threads := threads[i := threads[i].(workUnit := reply.bytecode, status := "running")];
        return None;
    }

    /** `reloadWU` on thread `i`. */
    method ReloadWU(i: nat, call: Call) returns (err: Option<string>)
      requires i < |threads|
      modifies this`threads
      ensures threads == old(threads)[i := Fetched(old(threads)[i], call)]
      ensures err == ReloadError(call)
    {
      match call
      case CallFailed(e) =>
        threads := threads[i := threads[i].(status := "failed")];
        return Some(e);
      case Replied(reply) =>
        if reply.data != "ok" {
          threads := threads[i := threads[i].(status := "failed")];
          if reply.data == "no such wu" {
            return Some("WU does not exist!");
          } else if reply.data == "dead" {
            return Some("WU is dead!");
          }
          return Some("Unknown WU reload error!");
        }
        threads := threads[i := threads[i].(workUnit := reply.bytecode, status := "running")];
        return None;
    }

    /** The body of `handleThreads`' loop for thread `i`, whose RPC outcome is `call`: the
        request it issues and the error that request returned, which the loop prints
        behind the thread's "[id] " tag. */
    method Handle(i: nat, call: Call) returns (req: Request, err: Option<string>)
      requires i < |threads|
      modifies this`threads
      ensures threads == old(threads)[i := Step(old(threads)[i], call, wuAttempts)]
      ensures req == RequestOf(old(threads)[i], wuAttempts) && err == TurnError(req, call)
    {
      req, err := NoCall, None;
      if threads[i].status == "ready" {
        threads := threads[i := threads[i].(attempts := 0)];
        req := Download;
        err := FetchWU(i, call);
        if err.None? {
          threads := threads[i := threads[i].(status := "running")];
        }
      } else if threads[i].status == "failed" {
        if threads[i].attempts >= wuAttempts {
          threads := threads[i := threads[i].(attempts := 0)];
          req := Download;
          err := FetchWU(i, call);
          if err.None? {
            threads := threads[i := threads[i].(status := "running")];
          }
        } else {
          threads := threads[i := threads[i].(attempts := threads[i].attempts + 1)];
          req := Reload;
          err := ReloadWU(i, call);
          if err.Some? {
            threads := threads[i := threads[i].(status := "failed", attempts := wuAttempts)];
          } else {
            threads := threads[i := threads[i].(status := "running")];
          }
        }
      }
    }

    /** One pass of `handleThreads` over all threads; `calls[i]` answers thread i's RPC.
        `reqs[i]` is the request thread i issued and `errs[i]` the error it returned. */
    method Pass(calls: seq<Call>) returns (reqs: seq<Request>, errs: seq<Option<string>>)
      requires |calls| == |threads|
      modifies this`threads
      ensures threads == StepAll(old(threads), calls, wuAttempts)
      ensures reqs == RequestsOf(old(threads), wuAttempts)
      ensures |errs| == |calls| && forall j :: 0 <= j < |calls| ==> errs[j] == TurnError(reqs[j], calls[j])
    {
      ghost var t0 := threads;
      reqs, errs := [], [];
      var i := 0;
      while i < |threads|
        invariant |threads| == |t0| && 0 <= i <= |t0|
        invariant forall j :: 0 <= j < i ==> threads[j] == Step(t0[j], calls[j], wuAttempts)
        invariant forall j :: i <= j < |t0| ==> threads[j] == t0[j]
        invariant |reqs| == i && forall j :: 0 <= j < i ==> reqs[j] == RequestOf(t0[j], wuAttempts)
        invariant |errs| == i && forall j :: 0 <= j < i ==> errs[j] == TurnError(reqs[j], calls[j])
      {
        var req, err := Handle(i, calls[i]);
        reqs, errs := reqs + [req], errs + [err];
        i := i + 1;
      }
    }
  }
}
