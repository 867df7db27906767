/**
 * The job server's bookkeeping (server/server.go): the client and work-unit
 * tables, the rescheduling rule for failed and stuck units, the RPC handlers
 * that move units between states, the end-of-run tally and the warning and
 * error buffers that the dashboard endpoint drains.
 *
 * A `*WorkUnit` in the source is a position in `workUnits`; a `*Client` held
 * by a unit is the client's ID, the only field of it the server reads back.
 * A handler's `*reply` starts as the zero Reply and is what the handler
 * leaves there; its returned `error` is `err`.
 */
module Registry {
  import opened Wire

  datatype Client = Client(id: int, status: string, threads: int)

  datatype WorkUnit = WorkUnit(
    data: Bytes,
    client: int,
    thread: int,
    status: string,
    attempt: int,
    result: Bytes)

  datatype Receive = Receive(data: string, status: string, id: int, bytecode: Bytes)

  datatype Reply = Reply(data: string, id: int, bytecode: Bytes)

  /** The zero Reply, which a handler that never assigns `*reply` leaves in place. */
  const NoReply: Reply := Reply("", 0, [])

  /** What an RPC handler does: it returns (its reply and error), or it panics. */
  datatype Handled = Handled(reply: Reply, err: Option<string>) | Panicked

  /** The body of `GET api`. A nil Go slice is encoded as null, here `None`. */
  datatype APIResponse = APIResponse(
    warnings: Option<seq<string>>,
    errors: Option<seq<string>>,
    status: string,
    clients: Option<seq<Client>>,
    workUnits: Option<seq<WorkUnit>>)

  /** The statuses a work unit can take, all of which the tally classifies. */
  const Listed: set<string> := {"new", "running", "completed", "stuck", "failed", "unknown", "dead"}

  // ---------------------------------------------------------------------------
  // Lookups

  /** The position of the first client with this ID. */
  function FirstClient(cs: seq<Client>, id: int): (r: Option<nat>)
    ensures r.Some? ==> (r.value < |cs| && cs[r.value].id == id
      && forall j :: 0 <= j < r.value ==> cs[j].id != id)
    ensures r.None? ==> forall j :: 0 <= j < |cs| ==> cs[j].id != id
  {
    if cs == [] then None
    else if cs[0].id == id then Some(0)
    else match FirstClient(cs[1..], id)
      case None => None
      case Some(k) => Some(k + 1)
  }

  predicate Matches(w: WorkUnit, client: int, thread: int)
  {
    w.client == client && w.thread == thread
  }

  /** The position of the last unit of this client and thread. */
  function LastUnit(ws: seq<WorkUnit>, client: int, thread: int): (r: Option<nat>)
    ensures r.Some? ==> (r.value < |ws| && Matches(ws[r.value], client, thread)
      && forall j :: r.value < j < |ws| ==> !Matches(ws[j], client, thread))
    ensures r.None? ==> forall j :: 0 <= j < |ws| ==> !Matches(ws[j], client, thread)
  {
    if ws == [] then None
    else if Matches(ws[|ws| - 1], client, thread) then Some(|ws| - 1)
    else LastUnit(ws[..|ws| - 1], client, thread)
  }

  // ---------------------------------------------------------------------------
  // The rescheduling rule of GetAvailable

  /** A stuck or failed unit with attempts left: the scan hands out a copy of it. */
  predicate Reschedulable(w: WorkUnit, attempts: int)
  {
    (w.status == "stuck" || w.status == "failed") && w.attempt < attempts
  }

  /** A stuck, failed or unknown unit whose attempts are used up: the scan marks it dead. */
  predicate Exhausted(w: WorkUnit, attempts: int)
  {
    (w.status == "stuck" || w.status == "failed" || w.status == "unknown") && w.attempt >= attempts
  }

  function Kill(w: WorkUnit, attempts: int): (r: WorkUnit)
    ensures !Reschedulable(r, attempts) <== !Reschedulable(w, attempts)
    ensures !Exhausted(r, attempts)
    ensures Exhausted(w, attempts) ==> r == w.(status := "dead")
    ensures !Exhausted(w, attempts) ==> r == w
  {
    if Exhausted(w, attempts) then w.(status := "dead") else w
  }

  /** Where the scan stops: the first reschedulable unit, or the end of the table. */
  function Scanned(ws: seq<WorkUnit>, attempts: int): (k: nat)
    ensures k <= |ws|
    ensures forall j :: 0 <= j < k ==> !Reschedulable(ws[j], attempts)
    ensures k < |ws| ==> Reschedulable(ws[k], attempts)
  {
    if ws == [] then 0
    else if Reschedulable(ws[0], attempts) then 0
    else 1 + Scanned(ws[1..], attempts)
  }

  /** The table after the scan: exhausted units before the stop are dead. */
  function AfterScan(ws: seq<WorkUnit>, attempts: int): (r: seq<WorkUnit>)
    ensures |r| == |ws|
    ensures forall j :: Scanned(ws, attempts) <= j < |ws| ==> r[j] == ws[j]
    ensures forall j :: 0 <= j < Scanned(ws, attempts) ==>
      !Exhausted(r[j], attempts) && r[j] == ws[j].(status := r[j].status)
    ensures forall j :: 0 <= j < Scanned(ws, attempts) ==> r[j] == Kill(ws[j], attempts)
  {
    var k := Scanned(ws, attempts);
    seq(|ws|, j requires 0 <= j < |ws| => if j < k then Kill(ws[j], attempts) else ws[j])
  }

  /** The copy the scan hands out, reassigned with one more attempt. */
  function Offer(ws: seq<WorkUnit>, attempts: int, client: int, thread: int): (r: Option<WorkUnit>)
    ensures r.Some? <==> exists j :: 0 <= j < |ws| && Reschedulable(ws[j], attempts)
    ensures r.Some? ==> (r.value.client == client && r.value.thread == thread
      && r.value.status == "new")
    ensures r.Some? ==> var k := Scanned(ws, attempts);
      k < |ws| && r.value.data == ws[k].data && r.value.result == ws[k].result
      && r.value.attempt == ws[k].attempt + 1
  {
    var k := Scanned(ws, attempts);
    if k < |ws| then
      Some(ws[k].(client := client, thread := thread, status := "new", attempt := ws[k].attempt + 1))
    else None
  }

  function CountExhausted(ws: seq<WorkUnit>, attempts: int): (n: nat)
    ensures n <= |ws|
  {
    if ws == [] then 0
    else CountExhausted(ws[..|ws| - 1], attempts) + (if Exhausted(ws[|ws| - 1], attempts) then 1 else 0)
  }

  /** How many units one scan marks dead (one FATAL message each). */
  function Killed(ws: seq<WorkUnit>, attempts: int): (n: nat)
    ensures n <= Scanned(ws, attempts)
  {
    CountExhausted(ws[..Scanned(ws, attempts)], attempts)
  }

  function FatalMessage(attempts: int): (m: string)
    ensures NoOpen(m)
  {
    var head := "FATAL: WorkUnit exceeded all ";
    assert NoOpen(head);
    NoOpenConcat(head, Itoa(attempts));
    NoOpenConcat(head + Itoa(attempts), " attempt(s)");
    head + Itoa(attempts) + " attempt(s)"
  }

  function Repeat(x: string, n: nat): (r: seq<string>)
    ensures |r| == n && forall k :: 0 <= k < n ==> r[k] == x
  {
    seq(n, _ => x)
  }

  /** The stored unit the copy came from is left as it was, so the next scan stops at the
      same unit again and offers the same copy, and marks nothing more dead. */
  lemma ScanAgain(ws: seq<WorkUnit>, attempts: int, client: int, thread: int)
    ensures Scanned(AfterScan(ws, attempts), attempts) == Scanned(ws, attempts)
    ensures AfterScan(AfterScan(ws, attempts), attempts) == AfterScan(ws, attempts)
    ensures Offer(AfterScan(ws, attempts), attempts, client, thread) == Offer(ws, attempts, client, thread)
    ensures Killed(AfterScan(ws, attempts), attempts) == 0
  {
    var k := Scanned(ws, attempts);
    var w1 := AfterScan(ws, attempts);
    ScannedExact(w1, attempts, k);
    var w2 := AfterScan(w1, attempts);
    assert forall j :: 0 <= j < |w1| ==> w2[j] == w1[j];
    NoneExhausted(w1[..k], attempts);
  }

  /** The scan stops at `k` when nothing before it qualifies and `k` does. */
  lemma {:induction false} ScannedExact(ws: seq<WorkUnit>, attempts: int, k: nat)
    requires k <= |ws|
    requires forall j :: 0 <= j < k ==> !Reschedulable(ws[j], attempts)
    requires k < |ws| ==> Reschedulable(ws[k], attempts)
    ensures Scanned(ws, attempts) == k
  {
    if ws != [] && k > 0 {
      ScannedExact(ws[1..], attempts, k - 1);
    }
  }

  lemma {:induction false} NoneExhausted(ws: seq<WorkUnit>, attempts: int)
    requires forall j :: 0 <= j < |ws| ==> !Exhausted(ws[j], attempts)
    ensures CountExhausted(ws, attempts) == 0
  {
    if ws != [] {
      NoneExhausted(ws[..|ws| - 1], attempts);
    }
  }

  // ---------------------------------------------------------------------------
  // The tally of Finish

  /** The counter of the tally a status goes to; Unclassified for a status the tally skips. */
  datatype Bucket = Done | InProcess | Stalled | Lost | Unclassified

  function BucketOf(st: string): (b: Bucket)
    ensures b == Unclassified <==> st !in Listed
  {
    match st
    case "completed" => Done
    case "new" => InProcess
    case "running" => InProcess
    case "stuck" => Stalled
    case "failed" => Lost
    case "unknown" => Lost
    case "dead" => Lost
    case _ => Unclassified
  }

  function CountIn(ws: seq<WorkUnit>, b: Bucket): (n: nat)
    ensures n <= |ws|
  {
    if ws == [] then 0
    else CountIn(ws[..|ws| - 1], b) + (if BucketOf(ws[|ws| - 1].status) == b then 1 else 0)
  }

  /** Every unit lands in exactly one bucket, so the four counters of the tally add up to
      the number of units exactly when every unit has one of the seven statuses. */
  lemma {:induction false} TallyTotal(ws: seq<WorkUnit>)
    ensures CountIn(ws, Done) + CountIn(ws, InProcess) + CountIn(ws, Stalled) + CountIn(ws, Lost)
            + CountIn(ws, Unclassified) == |ws|
    ensures CountIn(ws, Unclassified) == 0 <==> forall j :: 0 <= j < |ws| ==> ws[j].status in Listed
  {
    if ws != [] {
      var init := ws[..|ws| - 1];
      TallyTotal(init);
      assert forall j :: 0 <= j < |init| ==> init[j] == ws[j];
    }
  }

  /** The error `Init` logs when no client file was given. */
  const NoClientFile: string := "No client file provided"

  /** The second warning of `Finish`. */
  const FailedInfo: string := "Failed WUs info will appear in the log file"

  /** The server status once `Finish` has started its tally. */
  const Finished: string := "FINISH"

  /** The first warning of `Finish`, with the four counters. */
  function TallyMessage(ok: int, run: int, stuck: int, fail: int): (m: string)
    ensures NoOpen(m)
  {
    ItoaNoOpen(ok);
    ItoaNoOpen(run);
    ItoaNoOpen(stuck);
    ItoaNoOpen(fail);
    var a := "WARN: " + Itoa(ok);
    NoOpenConcat("WARN: ", Itoa(ok));
    var b := a + " WUs completed, " + Itoa(run);
    NoOpenConcat(a, " WUs completed, ");
    NoOpenConcat(a + " WUs completed, ", Itoa(run));
    var c := b + " in process, " + Itoa(stuck);
    NoOpenConcat(b, " in process, ");
    NoOpenConcat(b + " in process, ", Itoa(stuck));
    var d := c + " stuck and " + Itoa(fail);
    NoOpenConcat(c, " stuck and ");
    NoOpenConcat(c + " stuck and ", Itoa(fail));
    NoOpenConcat(d, " failed.");
    d + " failed."
  }

  function Results(ws: seq<WorkUnit>): (r: seq<Bytes>)
    ensures |r| == |ws| && forall k :: 0 <= k < |ws| ==> r[k] == ws[k].result
  {
    seq(|ws|, k requires 0 <= k < |ws| => ws[k].result)
  }

  // ---------------------------------------------------------------------------
  // strings.Split(status, " ")[1]

  function IndexOf(s: string, c: char): (r: Option<nat>)
    ensures r.Some? ==> r.value < |s| && s[r.value] == c && forall j :: 0 <= j < r.value ==> s[j] != c
    ensures r.None? ==> forall j :: 0 <= j < |s| ==> s[j] != c
  {
    if s == [] then None
    else if s[0] == c then Some(0)
    else match IndexOf(s[1..], c)
      case None => None
      case Some(k) => Some(k + 1)
  }

  /** The second space-separated field; None where the index [1] would be out of range. */
  function SecondField(s: string): (r: Option<string>)
    ensures r.Some? <==> exists j :: 0 <= j < |s| && s[j] == ' '
    ensures r.Some? ==> forall j :: 0 <= j < |r.value| ==> r.value[j] != ' '
  {
    match IndexOf(s, ' ')
    case None => None
    case Some(p) =>
      var rest := s[p + 1..];
      match IndexOf(rest, ' ')
      case None => Some(rest)
      case Some(q) => Some(rest[..q])
  }

  /** The loop of GetAvailable over a table: mark exhausted units dead up to the first
      reschedulable one, and hand out a copy of that one. `killed` counts the FATAL lines. */
  method Scan(w0: seq<WorkUnit>, attempts: int, client: int, thread: int)
    returns (ws: seq<WorkUnit>, found: Option<WorkUnit>, killed: nat)
    ensures ws == AfterScan(w0, attempts)
    ensures found == Offer(w0, attempts, client, thread)
    ensures killed == Killed(w0, attempts)
  {
    ghost var k := Scanned(w0, attempts);
    ws, killed := w0, 0;
    var i := 0;
    while i < |ws|
      invariant |ws| == |w0| && 0 <= i <= k
      invariant forall j :: 0 <= j < i ==> ws[j] == Kill(w0[j], attempts)
      invariant forall j :: i <= j < |w0| ==> ws[j] == w0[j]
      invariant killed == CountExhausted(w0[..i], attempts)
    {
      var w := ws[i];
      if Reschedulable(w, attempts) {
        found := Some(w.(client := client, thread := thread, status := "new", attempt := w.attempt + 1));
        assert i == k;
        ScanResult(w0, attempts, ws);
        return;
      }
      ScanStep(w0, attempts, i);
      if Exhausted(w, attempts) {
        ws := ws[i := w.(status := "dead")];
        killed := killed + 1;
      }
      i := i + 1;
    }
    assert i == k;
    ScanResult(w0, attempts, ws);
    found := None;
  }

  /** The counting loop of `Finish`: one counter per bucket, and the results in order. */
  method Tally(ws: seq<WorkUnit>) returns (ok: nat, run: nat, stuck: nat, fail: nat, res: seq<Bytes>)
    ensures ok == CountIn(ws, Done) && run == CountIn(ws, InProcess)
    ensures stuck == CountIn(ws, Stalled) && fail == CountIn(ws, Lost)
    ensures res == Results(ws)
  {
    ok, run, stuck, fail := 0, 0, 0, 0;
    res := [];
    var i := 0;
    while i < |ws|
      invariant 0 <= i <= |ws|
      invariant ok == CountIn(ws[..i], Done)
      invariant run == CountIn(ws[..i], InProcess)
      invariant stuck == CountIn(ws[..i], Stalled)
      invariant fail == CountIn(ws[..i], Lost)
      invariant res == Results(ws[..i])
    {
      assert ws[..i + 1][..i] == ws[..i];
      res := res + [ws[i].result];
      match ws[i].status {
        case "completed" => ok := ok + 1;
        case "new" => run := run + 1;
        case "running" => run := run + 1;
        case "stuck" => stuck := stuck + 1;
        case "failed" => fail := fail + 1;
        case "unknown" => fail := fail + 1;
        case "dead" => fail := fail + 1;
        case _ =>
      }
      i := i + 1;
    }
    assert ws[..i] == ws;
  }

  // ---------------------------------------------------------------------------

  /** What `SendWorkUnit` leaves: its answer, the unit table and the error buffer. */
  datatype Handout = Handout(h: Handled, workUnits: seq<WorkUnit>, errors: seq<string>)

  /** The answer of `SendWorkUnit` once the scan is done, on the scanned table `ws` and error
      buffer `errs`. A rescheduled copy `offer` is sent as it is and never stored. Without
      one, the generator's answer `run` is registered as a new unit, which becomes "running"
      unless the client reported "error". */
  function Delivery(ws: seq<WorkUnit>, errs: seq<string>, offer: Option<WorkUnit>, data: Receive,
                    t: int, run: Result<Bytes>): Handout
  {
    var failed := Handled(Reply("error", data.id, []), Some(data.data));
    match offer
    case Some(copy) =>
      if data.status == "error" then Handout(failed, ws, errs + [Queued(data.data)])
      else Handout(Handled(Reply("ok", data.id, copy.data), None), ws, errs)
    case None =>
      match run
      case Err(m) => Handout(Handled(Reply("error", data.id, []), Some(m)), ws, errs + [Queued(m)])
      case Ok(work) =>
        if data.status == "error" then
          Handout(failed, ws + [WorkUnit(work, data.id, t, "new", 0, [])], errs + [Queued(data.data)])
        else
          Handout(Handled(Reply("ok", data.id, work), None),
                  ws + [WorkUnit(work, data.id, t, "running", 0, [])], errs)
  }

  /** `SendWorkUnit` for a known client and thread `t`, on table `ws` and error buffer `errs`:
      the scan of `GetAvailable` runs first and queues its FATAL errors. */
  function Assignment(ws: seq<WorkUnit>, errs: seq<string>, attempts: int, data: Receive, t: int,
                      run: Result<Bytes>): Handout
  {
    Delivery(AfterScan(ws, attempts), errs + Repeat(Queued(FatalMessage(attempts)), Killed(ws, attempts)),
             Offer(ws, attempts, data.id, t), data, t, run)
  }

  /** `FetchWorkUnit` for a known client reporting a failure with the status
      "error <thread>", on table `ws` and error buffer `errs`. Without a second field the
      index into the split status panics; a thread number that does not parse is Atoi's
      error; otherwise the report is logged and the client's last unit on that thread, if
      any, is marked failed. */
  function Reported(ws: seq<WorkUnit>, errs: seq<string>, data: Receive): Handout
  {
    match SecondField(data.status)
    case None => Handout(Panicked, ws, errs)
    case Some(f) =>
      match Atoi(f)
      case Err(m) => Handout(Handled(NoReply, Some(m)), ws, errs + [Queued(m)])
      case Ok(t) =>
        var logged := errs + [Queued(Tag(data.id) + data.data)];
        match LastUnit(ws, data.id, t)
        case None => Handout(Handled(Reply("error", data.id, []), Some("Cannot compute")), ws,
                             logged + [Queued(Tag(data.id) + "Error not found! Cannot compute")])
        case Some(k) => Handout(Handled(Reply("error", data.id, []), Some(data.data)),
                                ws[k := ws[k].(status := "failed")], logged)
  }

  /** `FetchWorkUnit` for a known client uploading the result of its thread `data.data`: a
      thread number that does not parse is Atoi's error; the client's last unit on that
      thread is completed with the uploaded bytecode; without one, an error is logged. */
  function Uploaded(ws: seq<WorkUnit>, errs: seq<string>, data: Receive): Handout
  {
    var failed := Reply("error", data.id, []);
    match Atoi(data.data)
    case Err(m) => Handout(Handled(failed, Some(m)), ws, errs + [Queued(m)])
    case Ok(t) =>
      match LastUnit(ws, data.id, t)
      case None => Handout(Handled(failed, Some("Workunit not found")), ws,
                           errs + [Queued(Tag(data.id) + "Workunit not found on thread " + Itoa(t))])
      case Some(k) => Handout(Handled(Reply("ok", data.id, []), None),
                              ws[k := ws[k].(status := "completed", result := data.bytecode)], errs)
  }

  /** A report or an upload changes at most one unit, the client's last unit on the named
      thread, and only its status and result; errors are only appended; the reply is "ok"
      exactly for an upload that completed a unit. */
  lemma FetchShape(ws: seq<WorkUnit>, errs: seq<string>, data: Receive)
    ensures var a := if data.status == "upload" then Uploaded(ws, errs, data) else Reported(ws, errs, data);
      |a.workUnits| == |ws| && |errs| <= |a.errors| && a.errors[..|errs|] == errs
      && (forall j :: 0 <= j < |ws| && a.workUnits[j] != ws[j] ==>
            Matches(ws[j], data.id, a.workUnits[j].thread) && a.workUnits[j].data == ws[j].data
            && a.workUnits[j].attempt == ws[j].attempt
            && forall i :: j < i < |ws| ==> !Matches(ws[i], data.id, ws[j].thread))
      && (a.h.Handled? && a.h.reply.data == "ok" <==>
            data.status == "upload" && Atoi(data.data).Ok?
            && LastUnit(ws, data.id, Atoi(data.data).value).Some?)
  {
    var one := errs + [Queued(Tag(data.id))];
    assert one[..|errs|] == errs;
    assert (one + [Queued(Tag(data.id))])[..|errs|] == errs;
  }

  /** The table after `SendWorkUnit` is the scanned table, with one unit more exactly when
      no copy was offered and the generator produced a unit; errors are only appended; the
      answer carries no error exactly when the client did not report one and a unit was
      found or made. */
  lemma AssignmentShape(ws: seq<WorkUnit>, errs: seq<string>, attempts: int, data: Receive, t: int,
                        run: Result<Bytes>)
    ensures var a := Assignment(ws, errs, attempts, data, t, run);
      var made := Offer(ws, attempts, data.id, t).None? && run.Ok?;
      |a.workUnits| == |ws| + (if made then 1 else 0)
      && a.workUnits[..|ws|] == AfterScan(ws, attempts)
      && |errs| <= |a.errors| && a.errors[..|errs|] == errs
      && a.h.Handled?
      && (a.h.err.None? <==> data.status != "error" && (Offer(ws, attempts, data.id, t).Some? || run.Ok?))
  {
    var fatal := errs + Repeat(Queued(FatalMessage(attempts)), Killed(ws, attempts));
    assert fatal[..|errs|] == errs;
    var scanned := AfterScan(ws, attempts);
    assert (scanned + [WorkUnit([], 0, 0, "", 0, [])])[..|ws|] == scanned;
  }

  /** A rescheduled copy is never stored, so the same request sent again is answered the
      same way, with the same table and no new FATAL error. */
  lemma SendAgain(ws: seq<WorkUnit>, errs: seq<string>, errs2: seq<string>, attempts: int,
                  data: Receive, t: int, run: Result<Bytes>)
    requires Offer(ws, attempts, data.id, t).Some?
    ensures var a := Assignment(ws, errs, attempts, data, t, run);
      var b := Assignment(a.workUnits, errs2, attempts, data, t, run);
      b.h == a.h && b.workUnits == a.workUnits
      && b.errors == errs2 + (if data.status == "error" then [Queued(data.data)] else [])
  {
    ScanAgain(ws, attempts, data.id, t);
  }

  class Server {
    var clients: seq<Client>
    var workUnits: seq<WorkUnit>
    var warnings: seq<string>
    var warningsNil: bool
    var errors: seq<string>
    var errorsNil: bool
    var status: string
    var wuAttempts: int
    var clientFile: Bytes
    var filename: string

    /** A nil buffer holds nothing. */
    ghost predicate Valid()
      reads this
    {
      (warningsNil ==> warnings == []) && (errorsNil ==> errors == [])
    }

    /** The state once the project and plugin are loaded: no clients, no units, nil buffers,
        two attempts per unit and status READY. */
    constructor (file: Bytes, name: string)
      ensures Valid()
      ensures clients == [] && workUnits == [] && warningsNil && errorsNil
      ensures status == "READY" && wuAttempts == 2 && clientFile == file && filename == name
    {
      clients := [];
      workUnits := [];
      warnings := [];
      warningsNil := true;
      errors := [];
      errorsNil := true;
      status := "READY";
      wuAttempts := 2;
      clientFile := file;
      filename := name;
    }

    /** The buffer effect of `printErr`. */
    method PrintErr(msg: string)
      requires Valid()
      modifies this`errors, this`errorsNil
      ensures Valid()
      ensures errors == old(errors) + [Queued(msg)] && !errorsNil
    {
      errors := errors + [Queued(msg)];
      errorsNil := false;
    }

    /** The buffer effect of `printWarn`. */
    method PrintWarn(msg: string)
      requires Valid()
      modifies this`warnings, this`warningsNil
      ensures Valid()
      ensures warnings == old(warnings) + [Queued(msg)] && !warningsNil
    {
      warnings := warnings + [Queued(msg)];
      warningsNil := false;
    }

    method NewClient(id: int, st: string, threads: int)
      modifies this`clients
      ensures clients == old(clients) + [Client(id, st, threads)]
    {
      clients := clients + [Client(id, st, threads)];
    }

    method GetClient(id: int) returns (r: Option<nat>)
      ensures r == FirstClient(clients, id)
    {
      var i := 0;
      while i < |clients|
        invariant 0 <= i <= |clients|
        invariant forall j :: 0 <= j < i ==> clients[j].id != id
      {
        if clients[i].id == id {
          return Some(i);
        }
        i := i + 1;
      }
      return None;
    }

    /** Registers a unit and returns its position, where the source returns its pointer. */
    method NewWorkUnit(client: int, data: Bytes, thread: int) returns (k: nat)
      modifies this`workUnits
      ensures k == |old(workUnits)|
      ensures workUnits == old(workUnits) + [WorkUnit(data, client, thread, "new", 0, [])]
    {
      k := |workUnits|;
      workUnits := workUnits + [WorkUnit(data, client, thread, "new", 0, [])];
    }

    method GetWorkUnit(client: int, thread: int) returns (r: Option<nat>)
      ensures r == LastUnit(workUnits, client, thread)
    {
      r := None;
      var i := 0;
      while i < |workUnits|
        invariant 0 <= i <= |workUnits|
        invariant r.Some? ==> (r.value < i && Matches(workUnits[r.value], client, thread)
          && forall j :: r.value < j < i ==> !Matches(workUnits[j], client, thread))
        invariant r.None? ==> forall j :: 0 <= j < i ==> !Matches(workUnits[j], client, thread)
      {
        if workUnits[i].client == client && workUnits[i].thread == thread {
          r := Some(i);
        }
        i := i + 1;
      }
      UniqueLast(workUnits, client, thread, r);
    }

    method GetAvailable(client: int, thread: int) returns (found: Option<WorkUnit>)
      requires Valid()
      modifies this`workUnits, this`errors, this`errorsNil
      ensures Valid()
      ensures workUnits == AfterScan(old(workUnits), wuAttempts)
      ensures found == Offer(old(workUnits), wuAttempts, client, thread)
      ensures errors == old(errors)
        + Repeat(Queued(FatalMessage(wuAttempts)), Killed(old(workUnits), wuAttempts))
      ensures errorsNil == (old(errorsNil) && Killed(old(workUnits), wuAttempts) == 0)
    {
      var ws, offer, killed := Scan(workUnits, wuAttempts, client, thread);
      workUnits := ws;
      // one printErr of the FATAL message per unit marked dead
      errors := errors + Repeat(Queued(FatalMessage(wuAttempts)), killed);
      errorsNil := errorsNil && killed == 0;
      found := offer;
    }

    /** `Listener.Init`: send the client program. */
    method Init(data: Receive) returns (h: Handled)
      requires Valid()
      modifies this`errors, this`errorsNil
      ensures Valid() && errorsNil == (old(errorsNil) && errors == old(errors))
      ensures |clientFile| == 0 ==> (h == Handled(Reply("error", data.id, []), Some("No input file provided"))
        && errors == old(errors) + [Queued(NoClientFile)])
      ensures |clientFile| > 0 ==> (h == Handled(Reply(filename, data.id, clientFile), None)
        && errors == old(errors) && errorsNil == old(errorsNil))
    {
      if |clientFile| == 0 {
        PrintErr(NoClientFile);
        return Handled(Reply("error", data.id, []), Some("No input file provided"));
      }
      return Handled(Reply(filename, data.id, clientFile), None);
    }

    /** The two warnings `Finish` queues after its count. */
    method WarnTally(msg: string)
      requires Valid()
      modifies this`warnings, this`warningsNil
      ensures Valid()
      ensures warnings == old(warnings) + [Queued(msg)] + [Queued(FailedInfo)] && !warningsNil
    {
      PrintWarn(msg);
      PrintWarn(FailedInfo);
    }

    /** The tally of `Finish`, after its wait loop: count the units by status, collect
        their results, set FINISH and queue the two summary warnings. */
    method FinishTally() returns (ok: nat, run: nat, stuck: nat, fail: nat, res: seq<Bytes>)
      requires Valid()
      modifies this`status, this`warnings, this`warningsNil
      ensures Valid()
      ensures ok == CountIn(old(workUnits), Done) && run == CountIn(old(workUnits), InProcess)
      ensures stuck == CountIn(old(workUnits), Stalled) && fail == CountIn(old(workUnits), Lost)
      ensures res == Results(old(workUnits))
      ensures status == Finished
      ensures warnings == old(warnings) + [Queued(TallyMessage(ok, run, stuck, fail))] + [Queued(FailedInfo)]
    {
      status := Finished;
      ok, run, stuck, fail, res := Tally(workUnits);
      WarnTally(TallyMessage(ok, run, stuck, fail));
    }

    /** `Listener.FetchWorkUnit`: a client uploads a result, or reports a failure with the
        status "error <thread>". */
    method FetchWorkUnit(data: Receive) returns (h: Handled)
      requires Valid()
      modifies this`workUnits, this`errors, this`errorsNil
      ensures Valid() && errorsNil == (old(errorsNil) && errors == old(errors))
      ensures FirstClient(clients, data.id).None? ==>
        h == Handled(Reply("client not found", data.id, []), Some("Client not found"))
        && workUnits == old(workUnits) && errors == old(errors) + [Queued(Tag(data.id) + "Client not found!")]
      ensures FirstClient(clients, data.id).Some? && data.status != "upload" ==>
        Handout(h, workUnits, errors) == Reported(old(workUnits), old(errors), data)
      ensures FirstClient(clients, data.id).Some? && data.status == "upload" ==>
        Handout(h, workUnits, errors) == Uploaded(old(workUnits), old(errors), data)
    {
      var c := GetClient(data.id);
      if c.None? {
        PrintErr(Tag(data.id) + "Client not found!");
        return Handled(Reply("client not found", data.id, []), Some("Client not found"));
      }
      if data.status != "upload" {
        h := Report(data);
      } else {
        h := Upload(data);
      }
    }

    /** The failure report of `FetchWorkUnit`. */
    method Report(data: Receive) returns (h: Handled)
      requires Valid()
      modifies this`workUnits, this`errors, this`errorsNil
      ensures Valid() && errorsNil == (old(errorsNil) && errors == old(errors))
      ensures Handout(h, workUnits, errors) == Reported(old(workUnits), old(errors), data)
    {
      var field := SecondField(data.status);
      if field.None? {
        return Panicked;
      }
      var t := Atoi(field.value);
      if t.Err? {
        PrintErr(t.msg);
        return Handled(NoReply, Some(t.msg));
      }
      PrintErr(Tag(data.id) + data.data);
      var u := GetWorkUnit(data.id, t.value);
      if u.None? {
        PrintErr(Tag(data.id) + "Error not found! Cannot compute");
        return Handled(Reply("error", data.id, []), Some("Cannot compute"));
      }
      workUnits := workUnits[u.value := workUnits[u.value].(status := "failed")];
      return Handled(Reply("error", data.id, []), Some(data.data));
    }

    /** The result upload of `FetchWorkUnit`. */
    method Upload(data: Receive) returns (h: Handled)
      requires Valid()
      modifies this`workUnits, this`errors, this`errorsNil
      ensures Valid() && errorsNil == (old(errorsNil) && errors == old(errors))
      ensures Handout(h, workUnits, errors) == Uploaded(old(workUnits), old(errors), data)
    {
      var t := Atoi(data.data);
      if t.Err? {
        PrintErr(t.msg);
        return Handled(Reply("error", data.id, []), Some(t.msg));
      }
      var u := GetWorkUnit(data.id, t.value);
      if u.None? {
        PrintErr(Tag(data.id) + "Workunit not found on thread " + Itoa(t.value));
        return Handled(Reply("error", data.id, []), Some("Workunit not found"));
      }
      workUnits := workUnits[u.value := workUnits[u.value].(status := "completed", result := data.bytecode)];
      return Handled(Reply("ok", data.id, []), None);
    }

    /** `Listener.SendWorkUnit`: hand a client's thread a rescheduled copy or, when none
        qualifies, a fresh unit from the job generator, whose answer is `run`. */
    method SendWorkUnit(data: Receive, run: Result<Bytes>) returns (h: Handled)
      requires Valid()
      modifies this`workUnits, this`errors, this`errorsNil
      ensures Valid() && errorsNil == (old(errorsNil) && errors == old(errors))
      ensures FirstClient(clients, data.id).None? ==>
        h == Handled(Reply("client not found", data.id, []), Some("Client not found"))
        && workUnits == old(workUnits) && errors == old(errors) + [Queued(Tag(data.id) + "Client not found!")]
      ensures FirstClient(clients, data.id).Some? && Atoi(data.data).Err? ==>
        h == Handled(Reply("error", data.id, []), Some(Atoi(data.data).msg))
        && workUnits == old(workUnits) && errors == old(errors) + [Queued(Atoi(data.data).msg)]
      ensures FirstClient(clients, data.id).Some? && Atoi(data.data).Ok? ==>
        Handout(h, workUnits, errors)
        == Assignment(old(workUnits), old(errors), wuAttempts, data, Atoi(data.data).value, run)
    {
      var c := GetClient(data.id);
      if c.None? {
        PrintErr(Tag(data.id) + "Client not found!");
        return Handled(Reply("client not found", data.id, []), Some("Client not found"));
      }
      var t := Atoi(data.data);
      if t.Err? {
        PrintErr(t.msg);
        return Handled(Reply("error", data.id, []), Some(t.msg));
      }
      h := Assign(data, t.value, run);
    }

    /** The part of `SendWorkUnit` after the client and the thread number `t` are known. */
    method Assign(data: Receive, t: int, run: Result<Bytes>) returns (h: Handled)
      requires Valid()
      modifies this`workUnits, this`errors, this`errorsNil
      ensures Valid() && errorsNil == (old(errorsNil) && errors == old(errors))
      ensures Handout(h, workUnits, errors) == Assignment(old(workUnits), old(errors), wuAttempts, data, t, run)
    {
      var offer := GetAvailable(data.id, t);
      h := Deliver(data, t, run, offer);
    }

    /** The rest of `SendWorkUnit` once the scan has offered `offer`. */
    method Deliver(data: Receive, t: int, run: Result<Bytes>, offer: Option<WorkUnit>) returns (h: Handled)
      requires Valid()
      modifies this`workUnits, this`errors, this`errorsNil
      ensures Valid() && errorsNil == (old(errorsNil) && errors == old(errors))
      ensures Handout(h, workUnits, errors) == Delivery(old(workUnits), old(errors), offer, data, t, run)
    {
      var wu: WorkUnit;
      var stored: Option<nat> := None;
      if offer.None? {
        if run.Err? {
          PrintErr(run.msg);
          return Handled(Reply("error", data.id, []), Some(run.msg));
        }
        var k := NewWorkUnit(data.id, run.value, t);
        stored := Some(k);
        wu := workUnits[k];
      } else {
        wu := offer.value;
      }
      if data.status == "error" {
        PrintErr(data.data);
        return Handled(Reply("error", data.id, []), Some(data.data));
      }
      // The status is set on the unit the pointer designates: the registered one, or the copy.
      if stored.Some? {
        workUnits := workUnits[stored.value := workUnits[stored.value].(status := "running")];
      }
      wu := wu.(status := "running");
      return Handled(Reply("ok", data.id, wu.data), None);
    }

    /** `Listener.ReloadWorkUnit`: send a thread's unit again while it has attempts left. */
    method ReloadWorkUnit(data: Receive) returns (h: Handled)
      requires Valid()
      modifies this`workUnits, this`errors, this`errorsNil
      ensures Valid() && errorsNil == (old(errorsNil) && errors == old(errors))
      ensures FirstClient(clients, data.id).None? ==>
        h == Handled(Reply("client not found", data.id, []), Some("Client not found"))
        && workUnits == old(workUnits) && errors == old(errors) + [Queued(Tag(data.id) + "Client not found!")]
      ensures FirstClient(clients, data.id).Some? ==>
        match Atoi(data.data)
        case Err(m) => h == Handled(Reply("error", data.id, []), Some(m)) && workUnits == old(workUnits)
          && errors == old(errors) + [Queued(m)]
        case Ok(t) =>
          match LastUnit(old(workUnits), data.id, t)
          case None => h == Handled(Reply("no such wu", data.id, []), Some("Cannot re-upload: no such WU"))
            && workUnits == old(workUnits)
            && errors == old(errors) + [Queued(Tag(data.id) + "Cannot re-upload: no such WU!")]
          case Some(k) =>
            var w := old(workUnits)[k];
            if w.attempt >= wuAttempts || w.status == "dead" then
              h == Handled(Reply("dead", data.id, []), Some("Cannot re-upload: too many failed attempts"))
              && workUnits == old(workUnits)
              && errors == old(errors) + [Queued(Tag(data.id) + "Cannot re-upload: too many failed attempts!")]
            else
              h == Handled(Reply("ok", data.id, w.data), None)
              && workUnits == old(workUnits)[k := w.(attempt := w.attempt + 1, status := "unknown")]
              && errors == old(errors) && errorsNil == old(errorsNil)
    {
      var c := GetClient(data.id);
      if c.None? {
        PrintErr(Tag(data.id) + "Client not found!");
        return Handled(Reply("client not found", data.id, []), Some("Client not found"));
      }
      var t := Atoi(data.data);
      if t.Err? {
        PrintErr(t.msg);
        return Handled(Reply("error", data.id, []), Some(t.msg));
      }
      var u := GetWorkUnit(data.id, t.value);
      if u.None? {
        PrintErr(Tag(data.id) + "Cannot re-upload: no such WU!");
        return Handled(Reply("no such wu", data.id, []), Some("Cannot re-upload: no such WU"));
      }
      var w := workUnits[u.value];
      if w.attempt >= wuAttempts || w.status == "dead" {
        PrintErr(Tag(data.id) + "Cannot re-upload: too many failed attempts!");
        return Handled(Reply("dead", data.id, []), Some("Cannot re-upload: too many failed attempts"));
      }
      workUnits := workUnits[u.value := w.(attempt := w.attempt + 1, status := "unknown")];
      return Handled(Reply("ok", data.id, w.data), None);
    }

    /** `Listener.SendStatus`: hello registers a client, ready and error set its status. */
    method SendStatus(data: Receive) returns (h: Handled)
      requires Valid()
      modifies this`clients, this`errors, this`errorsNil
      ensures Valid() && errorsNil == (old(errorsNil) && errors == old(errors))
      ensures h.Handled? && h.err.None?
      ensures data.status == "hello" ==>
        var id := if data.id == -1 then |old(clients)| + 1 else data.id;
        var threads := if Atoi(data.data).Ok? then Atoi(data.data).value else 1;
        clients == old(clients) + [Client(id, "ready", threads)]
        && h.reply == Reply("ok", id, [])
        && errors == old(errors) + (if Atoi(data.data).Err? then [Queued(Atoi(data.data).msg)] else [])
      ensures data.status == "ready" ==>
        match FirstClient(old(clients), data.id)
        case Some(k) => clients == old(clients)[k := old(clients)[k].(status := "ready")]
          && h.reply == Reply("ok", data.id, []) && errors == old(errors)
        case None => (clients == old(clients) && h.reply == Reply("client not found", data.id, [])
          && errors == old(errors) + [Queued(Tag(data.id) + "Client not found!")])
      ensures data.status == "error" ==>
        h.reply == NoReply && errors == old(errors) + [Queued(Tag(data.id) + data.data)]
        && match FirstClient(old(clients), data.id)
           case Some(k) => clients == old(clients)[k := old(clients)[k].(status := "failed")]
           case None => clients == old(clients)
      ensures data.status !in {"hello", "ready", "error"} ==>
        h.reply == NoReply && clients == old(clients) && errors == old(errors) && errorsNil == old(errorsNil)
    {
      if data.status == "hello" {
        var id := data.id;
        if id == -1 {
          id := |clients| + 1;
        }
        var threads := 1;
        var parsed := Atoi(data.data);
        if parsed.Err? {
          PrintErr(parsed.msg);
        } else {
          threads := parsed.value;
        }
        NewClient(id, "ready", threads);
        return Handled(Reply("ok", id, []), None);
      } else if data.status == "ready" {
        var c := GetClient(data.id);
        if c.Some? {
          clients := clients[c.value := clients[c.value].(status := "ready")];
          return Handled(Reply("ok", data.id, []), None);
        }
        PrintErr(Tag(data.id) + "Client not found!");
        return Handled(Reply("client not found", data.id, []), None);
      } else if data.status == "error" {
        var c := GetClient(data.id);
        if c.Some? {
          clients := clients[c.value := clients[c.value].(status := "failed")];
        }
        PrintErr(Tag(data.id) + data.data);
        return Handled(NoReply, None);
      }
      return Handled(NoReply, None);
    }

    /** `updateAPI`: publish the escaped buffers with the current status and tables, then
        start both buffers afresh as empty (non-nil) slices. */
    method UpdateAPI() returns (resp: APIResponse)
      requires Valid()
      modifies this`warnings, this`warningsNil, this`errors, this`errorsNil
      ensures Valid()
      ensures resp.warnings == (if old(warningsNil) then None else Some(EscapeAll(old(warnings))))
      ensures resp.errors == (if old(errorsNil) then None else Some(EscapeAll(old(errors))))
      ensures resp.status == status
      ensures resp.clients == (if clients == [] then None else Some(clients))
      ensures resp.workUnits == (if workUnits == [] then None else Some(workUnits))
      ensures warnings == [] && !warningsNil && errors == [] && !errorsNil
    {
      var warn := warnings;
      var i := 0;
      while i < |warn|
        invariant 0 <= i <= |warn| && |warn| == |warnings|
        invariant forall j :: 0 <= j < |warn| ==> warn[j] == if j < i then Escape(warnings[j]) else warnings[j]
      {
        warn := warn[i := Escape(warn[i])];
        i := i + 1;
      }
      var err := errors;
      i := 0;
      while i < |err|
        invariant 0 <= i <= |err| && |err| == |errors|
        invariant forall j :: 0 <= j < |err| ==> err[j] == if j < i then Escape(errors[j]) else errors[j]
      {
        err := err[i := Escape(err[i])];
        i := i + 1;
      }
      assert warn == EscapeAll(warnings) && err == EscapeAll(errors);
      resp := APIResponse(
        if warningsNil then None else Some(warn),
        if errorsNil then None else Some(err),
        status,
        if clients == [] then None else Some(clients),
        if workUnits == [] then None else Some(workUnits));
      warnings, warningsNil := [], false;
      errors, errorsNil := [], false;
    }
  }

  /** One unit more scanned: one FATAL message more when it is exhausted. */
  lemma ScanStep(ws: seq<WorkUnit>, attempts: int, i: nat)
    requires i < |ws|
    ensures CountExhausted(ws[..i + 1], attempts)
            == CountExhausted(ws[..i], attempts) + (if Exhausted(ws[i], attempts) then 1 else 0)
  {
    assert ws[..i + 1][..i] == ws[..i];
  }

  /** A table that agrees with the scan's rule on every position is the table after the scan. */
  lemma ScanResult(ws: seq<WorkUnit>, attempts: int, r: seq<WorkUnit>)
    requires |r| == |ws|
    requires forall j :: 0 <= j < Scanned(ws, attempts) ==> r[j] == Kill(ws[j], attempts)
    requires forall j :: Scanned(ws, attempts) <= j < |ws| ==> r[j] == ws[j]
    ensures r == AfterScan(ws, attempts)
  {
  }

  /** The last matching position is unique: whatever satisfies LastUnit's contract is it. */
  lemma UniqueLast(ws: seq<WorkUnit>, client: int, thread: int, r: Option<nat>)
    requires r.Some? ==> (r.value < |ws| && Matches(ws[r.value], client, thread)
      && forall j :: r.value < j < |ws| ==> !Matches(ws[j], client, thread))
    requires r.None? ==> forall j :: 0 <= j < |ws| ==> !Matches(ws[j], client, thread)
    ensures r == LastUnit(ws, client, thread)
  {
  }
}
