/**
 * The first draft of the job-generator plugin (server/client_server.go). It
 * queues unencoded ranges without a sign and encodes the head when `Run` hands
 * it out.
 *
 * As written, the draft comments out the `WorkUnits` field its methods use
 * (server/client_server.go:22); the model supplies it as `workUnits`, a queue
 * of units. Its `WorkUnit` is the same record as the later plugin's, and so is
 * its JSON encoding; the draft never sets `Sign`, so every unit carries 0.
 */
module GeneratorDraft {
  import opened Wire
  import opened Generator

  /** Range `k` as the draft generates it. */
  function Plain(k: int): (w: WorkUnit)
    ensures w.start == Width * k && w.end == w.start + Width && w.sign == 0
  {
    WorkUnit(Width * k, Width + Width * k, 0)
  }

  /** What the draft's `Prepare(amount)` appends at counter `c`. */
  function PlainBatch(c: int, amount: int): (b: seq<WorkUnit>)
    ensures |b| == (if amount < 0 then 0 else amount)
  {
    var n := if amount < 0 then 0 else amount;
    seq(n, i requires 0 <= i < n => Plain(c + i))
  }

  /** The queue holds ranges `c`, `c + 1`, ... up to the end of the current batch of ten,
      and `b` whole batches remain before the limit. */
  ghost predicate PlainAligned(c: int, q: seq<WorkUnit>, b: nat)
  {
    0 <= c && c + |q| + InitialAmount * b == Limit
    && forall j :: 0 <= j < |q| ==> q[j] == Plain(c + j)
  }

  lemma PlainPop(c: int, q: seq<WorkUnit>, b: nat)
    requires PlainAligned(c, q, b) && q != []
    ensures c < Limit && q[0] == Plain(c)
    ensures PlainAligned(c + 1, q[1..], b)
  {
    assert forall j :: 0 <= j < |q| - 1 ==> q[1..][j] == q[j + 1];
  }

  lemma PlainRefill(c: int, b: nat)
    requires PlainAligned(c, [], b) && c < Limit
    ensures b >= 1 && PlainAligned(c, PlainBatch(c, InitialAmount), b - 1)
  {
  }

  /** What one call of the draft's `Run` leaves: its result, the queue and the counter. */
  datatype PlainStep = PlainStep(result: RunResult, queue: seq<WorkUnit>, current: int)

  /** The draft's `Run` at counter `c` on queue `q` with batch size `amount`. */
  function RunPlain(c: int, q: seq<WorkUnit>, amount: int): (r: PlainStep)
    ensures r.current == (if r.result.Ran? then c + 1 else c)
    ensures !r.result.Ran? ==> r.queue == q
    ensures r.result.Failed? <==> q == [] && c >= Limit
    ensures r.result.Panicked? <==> q == [] && c < Limit && amount <= 0
  {
    if q != [] then PlainStep(Ran(Json(q[0])), q[1..], c + 1)
    else if c >= Limit then PlainStep(Failed(ExhaustedMessage), q, c)
    else if amount <= 0 then PlainStep(Panicked, q, c)
    else PlainStep(Ran(Json(PlainBatch(c, amount)[0])), PlainBatch(c, amount)[1..], c + 1)
  }

  /** From an aligned state the draft hands out the JSON of range `c` exactly while below
      the limit, and leaves the state aligned; at the limit it refuses and changes nothing. */
  lemma RunPlainAligned(c: int, q: seq<WorkUnit>, b: nat)
    requires PlainAligned(c, q, b)
    ensures RunPlain(c, q, InitialAmount).result.Ran? <==> c < Limit
    ensures c < Limit ==> RunPlain(c, q, InitialAmount).result.unit == Json(Plain(c))
    ensures c >= Limit ==> RunPlain(c, q, InitialAmount) == PlainStep(Failed(ExhaustedMessage), q, c)
    ensures q == [] && c < Limit ==> b >= 1
    ensures var s := RunPlain(c, q, InitialAmount);
      PlainAligned(s.current, s.queue, if q == [] && c < Limit then b - 1 else b)
  {
    if q != [] {
      PlainPop(c, q, b);
    } else if c < Limit {
      PlainRefill(c, b);
      PlainPop(c, PlainBatch(c, InitialAmount), b - 1);
    }
  }

  /** The draft's ranges tile the line like the later plugin's; only the sign differs. */
  lemma PlainMatchesCanonical(k: int)
    ensures Plain(k) == Canonical(k).(sign := 0)
    ensures Plain(k).end == Plain(k + 1).start
  {
  }

  class Server {
    var current: int
    var prepareAmount: int
    var workUnits: seq<WorkUnit>

    constructor ()
      ensures current == 0 && prepareAmount == 0 && workUnits == []
    {
      current, prepareAmount, workUnits := 0, 0, [];
    }

    method Init()
      modifies this`current, this`prepareAmount
      ensures current == 0 && prepareAmount == 10
      ensures old(workUnits) == [] ==> PlainAligned(current, workUnits, Batches)
    {
      current := 0;
      prepareAmount := InitialAmount;
    }

    method Prepare(amount: int) returns (err: Option<string>)
      modifies this`workUnits
      ensures current >= Limit ==> err == Some(ExhaustedMessage) && workUnits == old(workUnits)
      ensures current < Limit ==> err.None? && workUnits == old(workUnits) + PlainBatch(current, amount)
    {
      if current >= Limit {
        return Some(ExhaustedMessage);
      }
      ghost var q0 := workUnits;
      var i := 0;
      while i < amount
        invariant 0 <= i && (amount >= 0 ==> i <= amount) && (amount < 0 ==> i == 0)
        invariant workUnits == q0 + PlainBatch(current, i)
      {
        var wu := WorkUnit(Width * (current + i), Width + Width * (current + i), 0);
        workUnits := workUnits + [wu];
        i := i + 1;
        assert PlainBatch(current, i) == PlainBatch(current, i - 1) + [wu];
      }
      return None;
    }

    /** `id`, the caller's client, is not used. */
    method Run(id: int) returns (r: RunResult)
      modifies this`workUnits, this`current
      ensures PlainStep(r, workUnits, current) == RunPlain(old(current), old(workUnits), prepareAmount)
    {
      if |workUnits| == 0 {
        var err := Prepare(prepareAmount);
        if err.Some? {
          return Failed(err.value);
        }
        if |workUnits| == 0 {
          return Panicked;
        }
        assert workUnits == PlainBatch(current, prepareAmount);
      }
      var res := workUnits[0];
      var wu := Json(res);
      workUnits := workUnits[1..];
      current := current + 1;
      return Ran(wu);
    }
  }
}
