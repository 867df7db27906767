/**
 * The first-draft server (server.go at the repository root): an RPC listener that
 * registers clients by a "hello" status, marks them ready, and hands the client
 * file to whoever asks in `Init`.
 *
 * The client table and the client file are package variables in the source;
 * here they are the fields of the listener. Console output is not part of the
 * model, so the "error" status, which only prints, changes nothing.
 */
module ListenerDraft {
  import opened Wire

  datatype Client = Client(id: int, status: string)

  datatype Reply = Reply(data: string, id: int, bytecode: Bytes)

  datatype Receive = Receive(data: string, status: string, id: int)

  /** A handler either returns with a reply, or panics. */
  datatype Handled = Returned(reply: Reply) | Panicked

  const MissingFile: string := "No input file provided"

  class Listener {
    var clients: seq<Client>
    var clientFile: Bytes

    /** Client `k` of the table has ID k+1, as it does when every client says hello with
        ID -1; "ready" then marks the client whose ID it carries. */
    ghost predicate Numbered()
      reads this
    {
      forall k :: 0 <= k < |clients| ==> clients[k].id == k + 1
    }

    constructor (file: Bytes)
      ensures clients == [] && clientFile == file && Numbered()
    {
      clients, clientFile := [], file;
    }

    /** `Init`: the client file, or an error when none was loaded. */
    method Init(data: Receive) returns (reply: Reply, err: Option<string>)
      ensures reply.id == data.id
      ensures err.None? <==> |clientFile| > 0
      ensures err.None? ==> reply == Reply("ok", data.id, clientFile)
      ensures err.Some? ==> reply == Reply("error", data.id, []) && err == Some(MissingFile)
    {
      if |clientFile| == 0 {
        return Reply("error", data.id, []), Some(MissingFile);
      }
      return Reply("ok", data.id, clientFile), None;
    }

    /** `SendStatus`; `reply` is the reply as the caller passed it in. */
    method SendStatus(data: Receive, reply: Reply) returns (r: Handled)
      modifies this`clients
      ensures data.status == "hello" ==>
        var id := if data.id == -1 then |old(clients)| + 1 else data.id;
        clients == old(clients) + [Client(id, "connected")] && r == Returned(Reply("ok", id, []))
      ensures data.status == "ready" && 1 <= data.id <= |old(clients)| ==>
        clients == old(clients)[data.id - 1 := old(clients)[data.id - 1].(status := "ready")]
        && r == Returned(Reply("ok", data.id, []))
      ensures data.status == "ready" && !(1 <= data.id <= |old(clients)|) ==>
        r == Panicked && clients == old(clients)
      ensures data.status != "hello" && data.status != "ready" ==>
        r == Returned(reply) && clients == old(clients)
      ensures old(Numbered()) && (data.status != "hello" || data.id == -1 || data.id == |old(clients)| + 1) ==>
        Numbered()
      ensures old(Numbered()) && data.status == "hello" && data.id == -1 ==>
        forall k :: 0 <= k < |old(clients)| ==> old(clients)[k].id != clients[|clients| - 1].id
      ensures old(Numbered()) && data.status == "ready" && r.Returned? ==>
        clients[data.id - 1].id == data.id && clients[data.id - 1].status == "ready"
    {
      if data.status == "hello" {
        var id := data.id;
        if id == -1 {
          id := |clients| + 1;
        }
        clients := clients + [Client(id, "connected")];
        return Returned(Reply("ok", id, []));
      } else if data.status == "ready" {
        if !(1 <= data.id <= |clients|) {
          return Panicked;
        }
        clients := clients[data.id - 1 := clients[data.id - 1].(status := "ready")];
        return Returned(Reply("ok", data.id, []));
      }
      return Returned(reply);
    }
  }
}
