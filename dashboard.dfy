/**
 * The browser dashboard's view-model (server/dashboard/js/main.js): one poll of
 * the `api` endpoint applied to the state the page shows.
 *
 * JavaScript reads of absent or null payload fields are explicit here: an
 * array that the payload carries as `null` is `None`, and reading its
 * `length` throws a TypeError, which the promise chain delivers to the
 * failure handler. Toasts are an output sequence the view-model appends to.
 */
module Dashboard {
  import opened Wire

  /** One entry of the payload's `Clients`. The server encodes the key `ID`, while the
      page reads `Id`, so for the server's own payloads `id` is undefined (`None`). */
  datatype ClientView = ClientView(id: Option<int>, threads: int, status: string)

  /** The JSON body of a successful `GET api`. Only whether `WorkUnits` is null is read. */
  datatype Response = Response(
    status: string,
    warnings: Option<seq<string>>,
    errors: Option<seq<string>>,
    clients: Option<seq<ClientView>>,
    workUnits: Option<nat>)

  /** How the request settled: a body, or a rejection carrying the error's `message` field. */
  datatype Poll = Received(resp: Response) | Rejected(message: Option<string>)

  datatype Severity = WarningToast | ErrorToast

  /** One `Vue.toasted.show` call: the icon chosen by severity, then the text. */
  datatype Toast = Toast(severity: Severity, text: string)

  datatype Node = Node(
    id: Option<int>,
    threads: int,
    status: string,
    statusColor: string,
    load: string,
    isRunning: bool)

  /** The batch loops test `i > 30` after the push, so indices 0 to 31 get in. */
  const BatchCap: nat := 32

  /** The load glyph the page gives every node it builds, U+2581 as an HTML entity. */
  const Load: string := "&#9601;"

  const Offline: string := "OFFLINE"

  /** A ready payload whose three arrays are all present: the whole `.then` runs. */
  predicate Complete(resp: Response)
  {
    resp.workUnits.Some? && resp.warnings.Some? && resp.errors.Some? && resp.clients.Some?
  }

  /** The part of one batch that the page appends. */
  function Capped(batch: seq<string>): (r: seq<string>)
    ensures |r| == if |batch| < BatchCap then |batch| else BatchCap
    ensures r <= batch
  {
    if |batch| < BatchCap then batch else batch[..BatchCap]
  }

  /** Colour classes of the status banner. */
  function StatusColor(status: string): (c: string)
    ensures c == "c9-bg c0-fg" <==> status == "FAILED"
    ensures c == "c10-bg c0-fg" <==> status == "RUNNING"
    ensures c == "c11-bg c0-fg" <==> status != "FAILED" && status != "RUNNING"
  {
    match status
    case "FAILED" => "c9-bg c0-fg"
    case "RUNNING" => "c10-bg c0-fg"
    case "READY" => "c11-bg c0-fg"
    case _ => "c11-bg c0-fg"
  }

  /** Colour class of a node's status. */
  function NodeColor(status: string): (c: string)
    ensures c == "c2-fg" <==> status == "running"
    ensures c == "c1-fg" <==> status == "failed"
    ensures c == "c3-fg" <==> status != "running" && status != "failed"
  {
    match status
    case "ready" => "c3-fg"
    case "running" => "c2-fg"
    case "failed" => "c1-fg"
    case _ => "c3-fg"
  }

  /** The node the page pushes for one payload client. */
  function NodeOf(c: ClientView): (n: Node)
    ensures n.id == c.id && n.threads == c.threads && n.status == c.status
    ensures n.statusColor == NodeColor(c.status) && n.load == Load
    ensures n.isRunning <==> c.status == "running"
  {
    Node(c.id, c.threads, c.status, NodeColor(c.status), Load, c.status == "running")
  }

  function NodesOf(cs: seq<ClientView>): (ns: seq<Node>)
    ensures |ns| == |cs| && forall k :: 0 <= k < |cs| ==> ns[k] == NodeOf(cs[k])
  {
    seq(|cs|, k requires 0 <= k < |cs| => NodeOf(cs[k]))
  }

  function ToastsOf(severity: Severity, texts: seq<string>): (ts: seq<Toast>)
    ensures |ts| == |texts| && forall k :: 0 <= k < |texts| ==> ts[k] == Toast(severity, texts[k])
  {
    seq(|texts|, k requires 0 <= k < |texts| => Toast(severity, texts[k]))
  }

  /** The `message` property of a log entry. Entries are plain strings, which have no
      such property, so the read yields `undefined`. */
  function MessageOf(entry: string): (m: Option<string>)
    ensures m.None?
  {
    None
  }

  class Board {
    var status: string
    var statusWrapperColor: string
    var warnings: seq<string>
    var warningsCount: int
    var errors: seq<string>
    var errorsCount: int
    var nodes: seq<Node>
    var toasts: seq<Toast>

    /** The counts shown beside the logs are their lengths. */
    ghost predicate Valid()
      reads this
    {
      warningsCount == |warnings| && errorsCount == |errors|
    }

    /** The page's initial `data`. */
    constructor ()
      ensures Valid()
      ensures status == "..." && statusWrapperColor == "c11-bg c0-fg"
      ensures warnings == ["[*] Cannot find config file panchaea-client.json",
                           "[1] Thread 3 is stuck", "[1] Thread 2 is stuck"]
      ensures errors == ["[!] WorkUnit not found", "[3] Failed to reload WU"]
      ensures nodes == [Node(Some(0), 4, "ready", "c3-fg", Load, false),
                        Node(Some(1), 2, "running", "c2-fg", "&#9604;", true)]
      ensures toasts == []
    {
      status := "...";
      statusWrapperColor := "c11-bg c0-fg";
      warnings := ["[*] Cannot find config file panchaea-client.json",
                   "[1] Thread 3 is stuck", "[1] Thread 2 is stuck"];
      warningsCount := 3;
      errors := ["[!] WorkUnit not found", "[3] Failed to reload WU"];
      errorsCount := 2;
      nodes := [Node(Some(0), 4, "ready", "c3-fg", Load, false),
                Node(Some(1), 2, "running", "c2-fg", "&#9604;", true)];
      toasts := [];
    }

    /** `newWarning`: append, recount, show one toast. */
    method NewWarning(w: string)
      requires Valid()
      modifies this`warnings, this`warningsCount, this`toasts
      ensures Valid()
      ensures warnings == old(warnings) + [w] && warningsCount == |warnings|
      ensures toasts == old(toasts) + [Toast(WarningToast, w)]
    {
      warnings := warnings + [w];
      warningsCount := |warnings|;
      toasts := toasts + [Toast(WarningToast, w)];
    }

    /** `newError`: append, recount, show one toast. */
    method NewError(e: string)
      requires Valid()
      modifies this`errors, this`errorsCount, this`toasts
      ensures Valid()
      ensures errors == old(errors) + [e] && errorsCount == |errors|
      ensures toasts == old(toasts) + [Toast(ErrorToast, e)]
    {
      errors := errors + [e];
      errorsCount := |errors|;
      toasts := toasts + [Toast(ErrorToast, e)];
    }

    /** The warnings loop of `getData`. The count is only reassigned by a push. */
    method AddWarnings(batch: seq<string>)
      requires Valid()
      modifies this`warnings, this`warningsCount, this`toasts
      ensures Valid()
      ensures warnings == old(warnings) + Capped(batch)
      ensures warningsCount == if batch == [] then old(warningsCount) else |warnings|
      ensures toasts == old(toasts) + ToastsOf(WarningToast, Capped(batch))
    {
      var i := 0;
      while i < |batch|
        invariant 0 <= i <= |batch| && i < BatchCap
        invariant warnings == old(warnings) + batch[..i]
        invariant warningsCount == if i == 0 then old(warningsCount) else |warnings|
        invariant toasts == old(toasts) + ToastsOf(WarningToast, batch[..i])
      {
        NewWarning(batch[i]);
        assert batch[..i + 1] == batch[..i] + [batch[i]];
        if i > 30 {
          assert Capped(batch) == batch[..i + 1];
          return;
        }
        i := i + 1;
      }
      assert batch[..i] == batch == Capped(batch);
    }

    /** The errors loop of `getData`, the same shape as the warnings loop. */
    method AddErrors(batch: seq<string>)
      requires Valid()
      modifies this`errors, this`errorsCount, this`toasts
      ensures Valid()
      ensures errors == old(errors) + Capped(batch)
      ensures errorsCount == if batch == [] then old(errorsCount) else |errors|
      ensures toasts == old(toasts) + ToastsOf(ErrorToast, Capped(batch))
    {
      var i := 0;
      while i < |batch|
        invariant 0 <= i <= |batch| && i < BatchCap
        invariant errors == old(errors) + batch[..i]
        invariant errorsCount == if i == 0 then old(errorsCount) else |errors|
        invariant toasts == old(toasts) + ToastsOf(ErrorToast, batch[..i])
      {
        NewError(batch[i]);
        assert batch[..i + 1] == batch[..i] + [batch[i]];
        if i > 30 {
          assert Capped(batch) == batch[..i + 1];
          return;
        }
        i := i + 1;
      }
      assert batch[..i] == batch == Capped(batch);
    }

    /** The node loop of `getData`, after `this.nodes = []`. */
    method RebuildNodes(clients: seq<ClientView>)
      modifies this`nodes
      ensures nodes == NodesOf(clients)
    {
      nodes := [];
      var i := 0;
      while i < |clients|
        invariant 0 <= i <= |clients|
        invariant nodes == NodesOf(clients[..i])
      {
        nodes := nodes + [NodeOf(clients[i])];
        i := i + 1;
      }
      assert clients[..i] == clients;
    }

    /** The `.then` callback. `threw` is set when a null array's `length` was read; the
        page's state is then what the callback had written up to that point. */
    method Apply(resp: Response) returns (threw: bool)
      requires Valid()
      modifies this
      ensures Valid()
      ensures threw <==> (resp.workUnits.Some? && !Complete(resp))
      // The readiness gate: nothing at all changes.
      ensures resp.workUnits.None? ==> unchanged(this)
      // A null Warnings throws before anything is written.
      ensures resp.workUnits.Some? && resp.warnings.None? ==> unchanged(this)
      ensures resp.workUnits.Some? && resp.warnings.Some? ==>
        warnings == old(warnings) + Capped(resp.warnings.value)
        && warningsCount == (if resp.warnings.value == [] then old(warningsCount) else |warnings|)
      ensures resp.workUnits.Some? && resp.warnings.Some? && resp.errors.None? ==>
        errors == old(errors) && errorsCount == old(errorsCount)
        && status == old(status) && statusWrapperColor == old(statusWrapperColor)
        && nodes == old(nodes)
        && toasts == old(toasts) + ToastsOf(WarningToast, Capped(resp.warnings.value))
      ensures resp.workUnits.Some? && resp.warnings.Some? && resp.errors.Some? ==>
        errors == old(errors) + Capped(resp.errors.value)
        && errorsCount == (if resp.errors.value == [] then old(errorsCount) else |errors|)
        && status == resp.status && statusWrapperColor == StatusColor(resp.status)
        && toasts == old(toasts) + ToastsOf(WarningToast, Capped(resp.warnings.value))
                                 + ToastsOf(ErrorToast, Capped(resp.errors.value))
        && nodes == (if resp.clients.None? then [] else NodesOf(resp.clients.value))
    {
      if resp.workUnits.None? {
        return false;
      }
      if resp.warnings.None? {
        return true;
      }
      AddWarnings(resp.warnings.value);
      if resp.errors.None? {
        return true;
      }
      AddErrors(resp.errors.value);
      status := resp.status;
      statusWrapperColor := StatusColor(status);
      nodes := [];
      if resp.clients.None? {
        return true;
      }
      RebuildNodes(resp.clients.value);
      threw := false;
    }

    /** The `.catch` callback. With an empty log, `errors[-1]` is undefined and reading its
        `message` throws, so only the status is written. */
    method Fail(message: Option<string>)
      requires Valid()
      modifies this
      ensures Valid()
      ensures status == Offline
      ensures statusWrapperColor == old(statusWrapperColor) && nodes == old(nodes)
      ensures warnings == old(warnings) && warningsCount == old(warningsCount)
      ensures old(errors) != [] && MessageOf(old(errors)[|old(errors)| - 1]) != message ==>
        message.Some? && errors == old(errors) + [message.value] && errorsCount == |errors|
        && toasts == old(toasts) + [Toast(ErrorToast, message.value)]
      ensures old(errors) == [] || MessageOf(old(errors)[|old(errors)| - 1]) == message ==>
        errors == old(errors) && errorsCount == old(errorsCount) && toasts == old(toasts)
    {
      status := Offline;
      if |errors| == 0 {
        return;
      }
      if MessageOf(errors[|errors| - 1]) != message {
        NewError(message.value);
      }
    }

    /** One `getData` round once its request has settled. A TypeError thrown in `.then`
        reaches `.catch` with `typeErrorMessage` as its message. */
    method GetData(poll: Poll, typeErrorMessage: string)
      requires Valid()
      modifies this
      ensures Valid()
      ensures poll.Received? && poll.resp.workUnits.None? ==> unchanged(this)
      ensures poll.Received? && Complete(poll.resp) ==>
        status == poll.resp.status && statusWrapperColor == StatusColor(poll.resp.status)
        && nodes == NodesOf(poll.resp.clients.value)
        && warnings == old(warnings) + Capped(poll.resp.warnings.value)
        && errors == old(errors) + Capped(poll.resp.errors.value)
        && toasts == old(toasts) + ToastsOf(WarningToast, Capped(poll.resp.warnings.value))
                                 + ToastsOf(ErrorToast, Capped(poll.resp.errors.value))
      // A null array throws inside `.then`: what was written before the throw stays, and
      // `.catch` logs the TypeError whenever the error log is not empty by then.
      ensures poll.Received? && poll.resp.workUnits.Some? && !Complete(poll.resp) ==>
        var resp := poll.resp;
        var w := if resp.warnings.Some? then Capped(resp.warnings.value) else [];
        var reached := resp.warnings.Some? && resp.errors.Some?;
        var e := if reached then Capped(resp.errors.value) else [];
        var reported := if old(errors) + e != [] then [typeErrorMessage] else [];
        status == Offline
        && warnings == old(warnings) + w
        && errors == old(errors) + e + reported
        && toasts == old(toasts) + ToastsOf(WarningToast, w) + ToastsOf(ErrorToast, e)
                                 + ToastsOf(ErrorToast, reported)
        && (reached ==> statusWrapperColor == StatusColor(resp.status) && nodes == [])
        && (!reached ==> statusWrapperColor == old(statusWrapperColor) && nodes == old(nodes))
      ensures poll.Rejected? ==>
        status == Offline && nodes == old(nodes) && statusWrapperColor == old(statusWrapperColor)
        && warnings == old(warnings)
      ensures poll.Rejected? && old(errors) != [] && poll.message.Some? ==>
        errors == old(errors) + [poll.message.value]
        && toasts == old(toasts) + [Toast(ErrorToast, poll.message.value)]
      ensures poll.Rejected? && (old(errors) == [] || poll.message.None?) ==>
        errors == old(errors) && toasts == old(toasts)
    {
      match poll
      case Received(resp) =>
        var threw := Apply(resp);
        if threw {
          Fail(Some(typeErrorMessage));
        }
      case Rejected(message) =>
        Fail(message);
    }

    /** Two rejected polls with one and the same message log it twice: a log entry's
        `message` is always undefined, so the comparison never suppresses an append. */
    method RepeatedOutage(message: string)
      requires Valid() && errors != []
      modifies this
      ensures status == Offline
      ensures errors == old(errors) + [message, message]
      ensures toasts == old(toasts) + [Toast(ErrorToast, message), Toast(ErrorToast, message)]
      ensures Valid()
    {
      GetData(Rejected(Some(message)), "");
      GetData(Rejected(Some(message)), "");
    }
  }
}
