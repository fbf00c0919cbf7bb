/**
 * The connected clients and what the server has sent them: the
 * `wsServer.clients` set that `broadcastMessage` in main.ts walks, reduced
 * to ids with an open/closed flag, and a log of every message sent.
 */
module Fanout {
  import opened Wrappers

  type ClientId = nat

  /** A client connection; `open` is `readyState === WebSocket.OPEN`. */
  datatype Connection = Connection(id: ClientId, open: bool)

  /** One message sent to one client. */
  datatype Delivery<M> = Delivery(to: ClientId, message: M)

  /** No two connections share an id. */
  predicate DistinctIds(clients: seq<Connection>)
  {
    forall i, j :: 0 <= i < j < |clients| ==> clients[i].id != clients[j].id
  }

  /** `id` belongs to one of the connections, open or not. */
  predicate Known(clients: seq<Connection>, id: ClientId)
  {
    exists i :: 0 <= i < |clients| && clients[i].id == id
  }

  /** `id` belongs to an open connection. */
  predicate IsOpen(clients: seq<Connection>, id: ClientId)
  {
    exists i :: 0 <= i < |clients| && clients[i].id == id && clients[i].open
  }

  /** The sends of one broadcast: `m` to each open connection, in the order of `clients`. */
  function Deliveries<M>(clients: seq<Connection>, m: M): (r: seq<Delivery<M>>)
    ensures |r| <= |clients|
  {
    if clients == [] then []
    else
      var last := clients[|clients| - 1];
      Deliveries(clients[..|clients| - 1], m) + (if last.open then [Delivery(last.id, m)] else [])
  }

  /** The messages a log holds for client `id`, oldest first. */
  function MessagesTo<M>(outbox: seq<Delivery<M>>, id: ClientId): seq<M>
  {
    if outbox == [] then []
    else
      var last := outbox[|outbox| - 1];
      MessagesTo(outbox[..|outbox| - 1], id) + (if last.to == id then [last.message] else [])
  }

  /** The newest of a sequence of messages. */
  function Latest<M>(ms: seq<M>): (r: Option<M>)
    ensures r.None? <==> ms == []
    ensures r.Some? ==> r.value in ms
  {
    if ms == [] then None else Some(ms[|ms| - 1])
  }

  /** What a client receives from two stretches of the log is what it receives from each, in order. */
  lemma {:induction false} MessagesToAppend<M>(a: seq<Delivery<M>>, b: seq<Delivery<M>>, id: ClientId)
    ensures MessagesTo(a + b, id) == MessagesTo(a, id) + MessagesTo(b, id)
  {
    if b == [] {
      assert a + b == a;
    } else {
      var b' := b[..|b| - 1];
      assert (a + b)[..|a + b| - 1] == a + b';
      assert (a + b)[|a + b| - 1] == b[|b| - 1];
      MessagesToAppend(a, b', id);
    }
  }

  /** A client to which no delivery in the log is addressed has received nothing. */
  lemma {:induction false} MessagesToNone<M>(outbox: seq<Delivery<M>>, id: ClientId)
    requires forall d :: d in outbox ==> d.to != id
    ensures MessagesTo(outbox, id) == []
  {
    if outbox != [] {
      assert outbox[|outbox| - 1] in outbox;
      var init := outbox[..|outbox| - 1];
      assert forall d :: d in init ==> d in outbox;
      MessagesToNone(init, id);
    }
  }

  /** A broadcast sends only `m`, and only to open connections. */
  lemma {:induction false} DeliveriesTargets<M>(clients: seq<Connection>, m: M)
    ensures forall d :: d in Deliveries(clients, m) ==> d.message == m && IsOpen(clients, d.to)
  {
    if clients != [] {
      var init := clients[..|clients| - 1];
      DeliveriesTargets(init, m);
      forall d | d in Deliveries(init, m) ensures IsOpen(clients, d.to) {
        var i :| 0 <= i < |init| && init[i].id == d.to && init[i].open;
        assert clients[i] == init[i];
      }
    }
  }

  /** An id is open in a list extended by one connection iff it was open before or is that open connection. */
  lemma IsOpenSnoc(clients: seq<Connection>, c: Connection, id: ClientId)
    ensures IsOpen(clients + [c], id) <==> IsOpen(clients, id) || (c.id == id && c.open)
  {
    var all := clients + [c];
    if IsOpen(all, id) && !(c.id == id && c.open) {
      var i :| 0 <= i < |all| && all[i].id == id && all[i].open;
      assert i < |clients| && clients[i] == all[i];
    }
    if IsOpen(clients, id) {
      var i :| 0 <= i < |clients| && clients[i].id == id && clients[i].open;
      assert all[i] == clients[i];
    }
    if c.id == id && c.open {
      assert all[|clients|] == c;
    }
  }

  /**
   * Over connections with distinct ids, a broadcast gives every open
   * connection exactly one copy of `m` and every other client nothing.
   */
  lemma {:induction false} BroadcastReaches<M>(clients: seq<Connection>, m: M, id: ClientId)
    requires DistinctIds(clients)
    ensures MessagesTo(Deliveries(clients, m), id) == if IsOpen(clients, id) then [m] else []
  {
    if clients != [] {
      var init := clients[..|clients| - 1];
      var last := clients[|clients| - 1];
      var tail: seq<Delivery<M>> := if last.open then [Delivery(last.id, m)] else [];
      assert clients == init + [last];
      assert Deliveries(clients, m) == Deliveries(init, m) + tail;
      assert DistinctIds(init);
      BroadcastReaches(init, m, id);
      MessagesToAppend(Deliveries(init, m), tail, id);
      IsOpenSnoc(init, last, id);
      assert MessagesTo(tail, id) == if last.open && last.id == id then [m] else [] by {
        if last.open {
          assert tail[..|tail| - 1] == [];
        }
      }
      if last.id == id {
        assert !IsOpen(init, id) by {
          forall i | 0 <= i < |init| ensures init[i].id != id {
            assert clients[i] == init[i];
          }
        }
      }
    }
  }

  /**
   * After a broadcast of `m`, `m` is the newest message of every open
   * connection, and each send of it goes to a known client.
   */
  lemma BroadcastSyncs<M>(outbox: seq<Delivery<M>>, clients: seq<Connection>, m: M)
    requires DistinctIds(clients)
    ensures forall i :: 0 <= i < |clients| && clients[i].open ==>
      Latest(MessagesTo(outbox + Deliveries(clients, m), clients[i].id)) == Some(m)
    ensures forall d :: d in Deliveries(clients, m) ==> Known(clients, d.to)
  {
    DeliveriesTargets(clients, m);
    forall i | 0 <= i < |clients| && clients[i].open
      ensures Latest(MessagesTo(outbox + Deliveries(clients, m), clients[i].id)) == Some(m)
    {
      var id := clients[i].id;
      BroadcastReaches(clients, m, id);
      MessagesToAppend(outbox, Deliveries(clients, m), id);
    }
  }
}
