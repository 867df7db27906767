/**
 * The job-generator plugin (server/client_server/client_server.go): a FIFO queue
 * of JSON-encoded integer ranges, refilled in batches while the `Current`
 * counter is below its hard limit.
 *
 * Under the invariant `Aligned`, which `Init` establishes on the fresh plugin
 * and `Run` keeps, the counter is the index of the next range handed out: the
 * queue holds exactly the ranges from `current` up to the end of the batch.
 */
module Generator {
  import opened Wire

  /** The plugin's `WorkUnit`: the range [start, end) and the sign of its terms. */
  datatype WorkUnit = WorkUnit(start: int, end: int, sign: int)

  /** What `Run` does: it returns a unit, or an error, or it panics on an empty queue. */
  datatype RunResult = Ran(unit: Bytes) | Failed(err: string) | Panicked

  /** `Prepare` refuses to generate once the counter reaches this value. */
  const Limit: int := 1000000

  /** The width of one range. */
  const Width: int := 100000

  const ExhaustedMessage: string := "No units to generate"

  // ---------------------------------------------------------------------------
  // json.Marshal of a WorkUnit

  predicate IsAscii(s: string)
  {
    forall k :: 0 <= k < |s| ==> s[k] as int < 128
  }

  /** The low byte of each character. On ASCII text that is its UTF-8 encoding, which is
      how Go turns a string into bytes; the text `Json` converts is ASCII (`JsonAscii`). */
  function Ascii(s: string): (b: Bytes)
    ensures |b| == |s|
  {
    seq(|s|, k requires 0 <= k < |s| => (s[k] as int % 256) as byte)
  }

  /** On ASCII text each byte is the character's code. */
  lemma AsciiExact(s: string)
    requires IsAscii(s)
    ensures forall k :: 0 <= k < |s| ==> Ascii(s)[k] as int == s[k] as int
  {
  }

  lemma AsciiConcat(a: string, b: string)
    requires IsAscii(a) && IsAscii(b)
    ensures IsAscii(a + b)
  {
    assert forall k :: 0 <= k < |a + b| ==> (a + b)[k] == if k < |a| then a[k] else b[k - |a|];
  }

  /** `{"Start":<start>,"End":<end>,"Sign":<sign>}`, the fields in declaration order. */
  function JsonText(w: WorkUnit): (s: string)
    ensures |s| > 2 && s[0] == '{' && s[|s| - 1] == '}'
  {
    "{\"Start\":" + Itoa(w.start) + ",\"End\":" + Itoa(w.end) + ",\"Sign\":" + Itoa(w.sign) + "}"
  }

  lemma ItoaAscii(n: int)
    ensures IsAscii(Itoa(n))
  {
  }

  lemma JsonAscii(w: WorkUnit)
    ensures IsAscii(JsonText(w))
  {
    ItoaAscii(w.start);
    ItoaAscii(w.end);
    ItoaAscii(w.sign);
    var p1, p2, p3, p4 := "{\"Start\":", ",\"End\":", ",\"Sign\":", "}";
    assert IsAscii(p1) && IsAscii(p2) && IsAscii(p3) && IsAscii(p4);
    AsciiConcat(p1, Itoa(w.start));
    AsciiConcat(p1 + Itoa(w.start), p2);
    AsciiConcat(p1 + Itoa(w.start) + p2, Itoa(w.end));
    AsciiConcat(p1 + Itoa(w.start) + p2 + Itoa(w.end), p3);
    AsciiConcat(p1 + Itoa(w.start) + p2 + Itoa(w.end) + p3, Itoa(w.sign));
    AsciiConcat(p1 + Itoa(w.start) + p2 + Itoa(w.end) + p3 + Itoa(w.sign), p4);
  }

  /** json.Marshal of a unit; it cannot fail for this struct. */
  function Json(w: WorkUnit): (b: Bytes)
    ensures |b| == |JsonText(w)|
  {
    Ascii(JsonText(w))
  }

  /** The bytes of a unit's JSON are the characters of its JSON text. */
  lemma JsonExact(w: WorkUnit)
    ensures |Json(w)| == |JsonText(w)|
    ensures forall k :: 0 <= k < |Json(w)| ==> Json(w)[k] as int == JsonText(w)[k] as int
  {
    JsonAscii(w);
    AsciiExact(JsonText(w));
  }

  /** `f` applied to each element of `s`, in order. */
  function Map<A, B>(f: A -> B, s: seq<A>): (r: seq<B>)
    ensures |r| == |s| && forall i :: 0 <= i < |s| ==> r[i] == f(s[i])
  {
    seq(|s|, i requires 0 <= i < |s| => f(s[i]))
  }

  lemma MapAppend<A, B>(f: A -> B, a: seq<A>, b: seq<A>)
    ensures Map(f, a + b) == Map(f, a) + Map(f, b)
  {
    forall i | 0 <= i < |a + b|
      ensures Map(f, a + b)[i] == (Map(f, a) + Map(f, b))[i]
    {
      if i < |a| {
        assert (a + b)[i] == a[i];
      } else {
        assert (a + b)[i] == b[i - |a|];
      }
    }
  }

  lemma MapTail<A, B>(f: A -> B, s: seq<A>)
    requires s != []
    ensures Map(f, s)[1..] == Map(f, s[1..])
  {
    assert forall i :: 0 <= i < |s| - 1 ==> Map(f, s)[1..][i] == Map(f, s)[i + 1];
  }

  /** The queue's encoding: the JSON of each unit, in order. */
  function Encode(us: seq<WorkUnit>): (b: seq<Bytes>)
    ensures |b| == |us|
  {
    Map(Json, us)
  }

  // ---------------------------------------------------------------------------
  // The ranges

  /** Unit `i` of a batch prepared at counter `c`. */
  function UnitOf(c: int, i: int): (w: WorkUnit)
    ensures w.start == Width * (c + i) && w.end == w.start + Width
    ensures w.sign == (if i % 2 == 0 then 1 else -1)
  {
    WorkUnit(Width * (c + i), Width + Width * (c + i), if i % 2 != 0 then -1 else 1)
  }

  /** The units `Prepare(amount)` generates at counter `c`. */
  function Units(c: int, amount: int): (us: seq<WorkUnit>)
    ensures |us| == (if amount < 0 then 0 else amount)
    ensures forall i :: 0 <= i < |us| ==> us[i] == UnitOf(c, i)
  {
    var n := if amount < 0 then 0 else amount;
    seq(n, i requires 0 <= i < n => UnitOf(c, i))
  }

  /** What `Prepare(amount)` appends at counter `c`. */
  function Batch(c: int, amount: int): (b: seq<Bytes>)
    ensures |b| == (if amount < 0 then 0 else amount)
  {
    Encode(Units(c, amount))
  }

  /** One more iteration of the generating loop appends the next unit's JSON. */
  lemma BatchGrows(c: int, i: nat)
    ensures Batch(c, i + 1) == Batch(c, i) + [Json(UnitOf(c, i))]
  {
    assert Units(c, i + 1) == Units(c, i) + [UnitOf(c, i)];
    MapAppend(Json, Units(c, i), [UnitOf(c, i)]);
  }

  /** Range `k` of the whole job: the `k`-th unit handed out, signs alternating from +1. */
  function Canonical(k: int): WorkUnit
  {
    UnitOf(k, 0).(sign := if k % 2 == 0 then 1 else -1)
  }

  /** Consecutive ranges meet, so the job's ranges tile the line without gaps or overlaps. */
  lemma Contiguous(k: int)
    ensures Canonical(k).end == Canonical(k + 1).start
    ensures Canonical(k).sign == -Canonical(k + 1).sign
  {
  }

  /** Ranges `c` to `c + n - 1`. */
  function Range(c: int, n: nat): (us: seq<WorkUnit>)
    ensures |us| == n && forall j :: 0 <= j < n ==> us[j] == Canonical(c + j)
  {
    seq(n, j requires 0 <= j < n => Canonical(c + j))
  }

  /** A batch prepared at an even counter holds ranges `c` to `c + amount - 1`. */
  lemma BatchIsRange(c: int, amount: nat)
    requires c % 2 == 0
    ensures Units(c, amount) == Range(c, amount)
  {
    forall i | 0 <= i < amount
      ensures Units(c, amount)[i] == Range(c, amount)[i]
    {
      assert (c + i) % 2 == i % 2;
    }
  }

  /** The batch size `Init` sets. */
  const InitialAmount: int := 10

  /** The number of whole batches of ten up to the limit. */
  const Batches: nat := 100000

  /** The queue holds the encodings of ranges `c`, `c + 1`, ... up to the end of the
      current batch of ten, and `b` whole batches remain before the limit. */
  ghost predicate AlignedState(c: int, q: seq<Bytes>, b: nat)
  {
    0 <= c && c + |q| + InitialAmount * b == Limit && q == Encode(Range(c, |q|))
  }

  /** The head of ranges `c` onwards is range `c`, and the rest starts at `c + 1`. */
  lemma MapRangePop<B>(f: WorkUnit -> B, c: int, n: nat)
    requires n > 0
    ensures Map(f, Range(c, n))[0] == f(Canonical(c))
    ensures Map(f, Range(c, n))[1..] == Map(f, Range(c + 1, n - 1))
  {
    assert Range(c, n)[1..] == Range(c + 1, n - 1);
    MapTail(f, Range(c, n));
  }

  /** Taking the head of an aligned queue hands out range `c` and keeps the alignment. */
  lemma PopAligned(c: int, q: seq<Bytes>, b: nat)
    requires AlignedState(c, q, b) && q != []
    ensures c < Limit && q[0] == Json(Canonical(c))
    ensures AlignedState(c + 1, q[1..], b)
  {
    MapRangePop(Json, c, |q|);
  }

  lemma Doubled(c: int, m: int)
    requires c == 2 * m
    ensures c % 2 == 0
  {
  }

  /** An empty aligned queue below the limit refills with ranges `c` to `c + 9`, using up
      one of the remaining batches. */
  lemma RefillAligned(c: int, n: int, b: nat)
    requires AlignedState(c, [], b) && c < Limit && n == InitialAmount
    ensures b >= 1 && AlignedState(c, Batch(c, n), b - 1)
  {
    Doubled(c, 500000 - 5 * b);
    BatchIsRange(c, n);
  }

  /** What one call of `Run` leaves: its result, the queue and the counter. */
  datatype Step = Step(result: RunResult, queue: seq<Bytes>, current: int)

  /** `Run` at counter `c` on queue `q` with batch size `amount`. */
  function RunStep(c: int, q: seq<Bytes>, amount: int): (r: Step)
    ensures r.current == (if r.result.Ran? then c + 1 else c)
    ensures !r.result.Ran? ==> r.queue == q
    ensures r.result.Failed? <==> q == [] && c >= Limit
    ensures r.result.Panicked? <==> q == [] && c < Limit && amount <= 0
  {
    if q != [] then Step(Ran(q[0]), q[1..], c + 1)
    else if c >= Limit then Step(Failed(ExhaustedMessage), q, c)
    else if amount <= 0 then Step(Panicked, q, c)
    else Step(Ran(Batch(c, amount)[0]), Batch(c, amount)[1..], c + 1)
  }

  /** From an aligned state `Run` hands out range `c` exactly while below the limit, and
      leaves the state aligned; at the limit it refuses and changes nothing. */
  lemma RunAligned(c: int, q: seq<Bytes>, b: nat)
    requires AlignedState(c, q, b)
    ensures RunStep(c, q, InitialAmount).result.Ran? <==> c < Limit
    ensures c < Limit ==> RunStep(c, q, InitialAmount).result.unit == Json(Canonical(c))
    ensures c >= Limit ==> RunStep(c, q, InitialAmount) == Step(Failed(ExhaustedMessage), q, c)
    ensures q == [] && c < Limit ==> b >= 1
    ensures var s := RunStep(c, q, InitialAmount);
      AlignedState(s.current, s.queue, if q == [] && c < Limit then b - 1 else b)
  {
    if q != [] {
      PopAligned(c, q, b);
    } else if c < Limit {
      RefillAligned(c, InitialAmount, b);
      PopAligned(c, Batch(c, InitialAmount), b - 1);
    }
  }

  // ---------------------------------------------------------------------------

  class Server {
    var current: int
    var prepareAmount: int
    var workUnits: seq<Bytes>
    /** The package's `Timeout`, in seconds. */
    var timeout: int

    /** The zero value `GetServer` hands to the host. */
    constructor ()
      ensures current == 0 && prepareAmount == 0 && workUnits == [] && timeout == 0
    {
      current, prepareAmount, workUnits, timeout := 0, 0, [], 0;
    }

    method Init()
      modifies this`current, this`prepareAmount, this`timeout
      ensures current == 0 && prepareAmount == 10 && timeout == 1000
      ensures old(workUnits) == [] ==> AlignedState(current, workUnits, Batches)
    {
      current := 0;
      prepareAmount := InitialAmount;
      timeout := 1000;
    }

    method Prepare(amount: int) returns (err: Option<string>)
      modifies this`workUnits
      ensures current >= Limit ==> err == Some(ExhaustedMessage) && workUnits == old(workUnits)
      ensures current < Limit ==> err.None? && workUnits == old(workUnits) + Batch(current, amount)
    {
      if current >= Limit {
        return Some(ExhaustedMessage);
      }
      ghost var q0 := workUnits;
      var i := 0;
      while i < amount
        invariant 0 <= i && (amount >= 0 ==> i <= amount) && (amount < 0 ==> i == 0)
        invariant workUnits == q0 + Batch(current, i)
      {
        var sign := 1;
        if i % 2 != 0 {
          sign := -1;
        }
        var wu := WorkUnit(Width * (current + i), Width + Width * (current + i), sign);
        assert wu == UnitOf(current, i);
        BatchGrows(current, i);
        workUnits := workUnits + [Json(wu)];
        i := i + 1;
      }
      return None;
    }

    /** `id`, the caller's client, is not used. */
    method Run(id: int) returns (r: RunResult)
      modifies this`workUnits, this`current
      ensures Step(r, workUnits, current) == RunStep(old(current), old(workUnits), prepareAmount)
    {
      if |workUnits| == 0 {
        var err := Prepare(prepareAmount);
        if err.Some? {
          return Failed(err.value);
        }
        if |workUnits| == 0 {
          return Panicked;
        }
        assert workUnits == Batch(current, prepareAmount);
      }
      var res := workUnits[0];
      workUnits := workUnits[1..];
      current := current + 1;
      return Ran(res);
    }
  }
}
