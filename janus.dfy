/** The Janus gateway client: a gateway holds the sessions and the
    transaction registry, a session holds its handles. Requests register a
    transaction, send an envelope and handle the reply they waited for;
    the hierarchy changes only once that reply has arrived. One call of
    Dispatch is one iteration of the receive loop.

    What cannot be seen from here is a parameter of the call: `txid` is
    the fresh transaction id the client generates, `ch` the reply channel
    `newRequest` made, `sent` whether marshalling and writing the request
    succeeded, and `w` (or `waits`) what waiting on the channel produced. */
module Janus {
  import opened Types
  import Envelope
  import Replies
  import Routing

  class Gateway {
    var sessions: map<uint64, Session>
    var transactions: map<TxId, Chan>
    var used: map<TxId, bool>
    const apiSecret: string

    /** Every session sits under its own id, belongs to this gateway and
        keeps its own handles under their ids; every registered transaction
        has its used flag, and no two transactions share a reply channel. */
    ghost predicate Valid()
      reads this, sessions.Values
    {
      && (forall k :: k in sessions ==> sessions[k].id == k && sessions[k].gateway == this)
      && (forall k :: k in sessions ==> sessions[k].Valid())
      && transactions.Keys <= used.Keys
      && (forall a, b :: a in transactions && b in transactions && transactions[a] == transactions[b] ==> a == b)
    }

    /** An id and a reply channel the client may register: the id is
        non-empty and never seen before, and the channel is the new one
        `newRequest` made, so no registered transaction has it. */
    predicate Fresh(id: TxId, ch: Chan)
      reads this
    {
      id != "" && id !in transactions && id !in used && ch !in transactions.Values
    }

    function Registry(): Routing.Registry
      reads this
    {
      Routing.Registry(transactions, used)
    }

    /** The session and handle ids the receive loop can look up. */
    function Topology(): Routing.Topology
      reads this, sessions.Values
    {
      map s | s in sessions :: sessions[s].handles.Keys
    }

    /** The state Connect sets up once the connection is open. */
    constructor (secret: string)
      ensures Valid()
      ensures sessions == map[] && transactions == map[] && used == map[]
      ensures apiSecret == secret
    {
      sessions := map[];
      transactions := map[];
      used := map[];
      apiSecret := secret;
    }

    /** send: stamp the transaction id (and the secret) and register the
        transaction with its used flag cleared. */
    method Send(msg: Envelope.Request, ch: Chan, txid: TxId) returns (out: Envelope.Request)
      requires Valid() && Fresh(txid, ch)
      modifies this
      ensures Valid()
      ensures out == Envelope.Outgoing(msg, Envelope.FromGateway, txid, apiSecret)
      ensures transactions == old(transactions)[txid := ch]
      ensures used == old(used)[txid := false]
      ensures sessions == old(sessions)
    {
      out := msg["transaction" := Envelope.Str(txid)];
      if apiSecret != "" {
        out := out["apisecret" := Envelope.Str(apiSecret)];
      }
      transactions := transactions[txid := ch];
      used := used[txid := false];
    }

    /** Info: only an InfoMsg answers it. */
    method Info(txid: TxId, ch: Chan, sent: bool, w: Replies.Wait)
      returns (out: Envelope.Request, r: Result<Msg>)
      requires Valid() && Fresh(txid, ch)
      modifies this
      ensures Valid()
      ensures out == Envelope.Outgoing(Envelope.Build(Envelope.Info), Envelope.FromGateway, txid, apiSecret)
      ensures transactions == old(transactions)[txid := ch] && used == old(used)[txid := false]
      ensures sessions == old(sessions)
      ensures r == if sent then Replies.Expect(w, Replies.InfoKind, "info", "'info'") else Err(Transport)
    {
      out := Send(Envelope.Build(Envelope.Info), ch, txid);
      if !sent {
        return out, Err(Transport);
      }
      r := Replies.Expect(w, Replies.InfoKind, "info", "'info'");
    }

    /** Create: after a SuccessMsg, a new session with no handles is stored
        under the id the server assigned; otherwise nothing changes. */
    method Create(txid: TxId, ch: Chan, sent: bool, w: Replies.Wait)
      returns (out: Envelope.Request, r: Result<Session>)
      requires Valid() && Fresh(txid, ch)
      requires sent && w.Replied? ==> w.msg.SuccessMsg? || w.msg.ErrorMsg?
      modifies this
      ensures Valid()
      ensures out == Envelope.Outgoing(Envelope.Build(Envelope.Create), Envelope.FromGateway, txid, apiSecret)
      ensures transactions == old(transactions)[txid := ch] && used == old(used)[txid := false]
      ensures r.Ok? <==> sent && w.Replied? && w.msg.SuccessMsg?
      ensures r.Ok? ==> && fresh(r.value) && r.value.id == w.msg.id && r.value.gateway == this
                        && r.value.handles == map[]
                        && sessions == old(sessions)[w.msg.id := r.value]
      ensures r.Err? ==> sessions == old(sessions)
      ensures r.Err? ==> r.error == if sent then Replies.Expect(w, Replies.SuccessKind, "create", "'create'").error
                                   else Transport
    {
      out := Send(Envelope.Build(Envelope.Create), ch, txid);
      if !sent {
        return out, Err(Transport);
      }
      var reply := Replies.Expect(w, Replies.SuccessKind, "create", "'create'");
      if reply.Err? {
        return out, Err(reply.error);
      }
      var session := new Session(reply.value.id, this);
      sessions := sessions[session.id := session];
      r := Ok(session);
    }

    /** One iteration of the receive loop on the frame it read. An event
        goes to `target`, the handle stored under its session and handle ids,
        which is the handle of that id in the session of that id. */
    method Dispatch(tags: set<string>, f: Routing.Frame) returns (route: Routing.Route, target: Handle?)
      requires Valid()
      modifies this
      ensures Valid()
      ensures var s := Routing.Dispatch(tags, old(Registry()), old(Topology()), f);
        route == s.route && Registry() == s.reg
      ensures route.ToHandle? ==> && route.session in sessions && route.handle in sessions[route.session].handles
                                  && target == sessions[route.session].handles[route.handle]
      ensures route.ToHandle? ==> && target != null && target.id == route.handle
                                  && target.session == sessions[route.session]
                                  && target.session.id == route.session
      ensures !route.ToHandle? ==> target == null
      ensures route.ToTransaction? ==> forall id :: id in transactions && transactions[id] == route.ch ==> id == route.id
      ensures sessions == old(sessions)
      ensures Topology() == old(Topology())
    {
      target := null;
      if f.Garbled? {
        return Routing.Fatal(Routing.BadEnvelope), null;
      }
      var base := f.base;
      if base.tag !in tags {
        return Routing.Skipped, null;
      }
      if f.body.None? {
        return Routing.Fatal(Routing.BadPayload), null;
      }
      var msg := f.body.value;
      var transactionUsed := false;
      if base.id != "" {
        transactionUsed := base.id in used && used[base.id];
      }
      if base.id == "" || transactionUsed {
        if base.handle == 0 {
          return Routing.Dropped(Routing.NoHandleId), null;
        }
        if base.session !in sessions {
          return Routing.Dropped(Routing.SessionGone), null;
        }
        var session := sessions[base.session];
        if base.handle !in session.handles {
          return Routing.Dropped(Routing.HandleGone), null;
        }
        route, target := Routing.ToHandle(base.session, base.handle, msg), session.handles[base.handle];
      } else {
        var registered := base.id in transactions;
        var ch := if registered then transactions[base.id] else 0;
        if msg.EventMsg? {
          used := used[base.id := true];
        }
        if !registered {
          return Routing.Fatal(Routing.NullTransaction), null;
        }
        route := Routing.ToTransaction(base.id, ch, msg);
      }
    }

    /** The receive loop over the frames it reads while no request is
        issued: it stops at the first fatal route. */
    method Recv(tags: set<string>, frames: seq<Routing.Frame>) returns (routes: seq<Routing.Route>)
      requires Valid()
      modifies this
      ensures Valid()
      ensures var t := Routing.Run(tags, old(Registry()), old(Topology()), frames);
        routes == t.routes && Registry() == t.reg
      ensures sessions == old(sessions)
    {
      routes := [];
      var i := 0;
      while i < |frames|
        invariant 0 <= i <= |frames|
        invariant Valid() && sessions == old(sessions) && Topology() == old(Topology())
        invariant var t := Routing.Run(tags, Registry(), Topology(), frames[i..]);
          Routing.Run(tags, old(Registry()), old(Topology()), frames) == Routing.Trace(routes + t.routes, t.reg)
      {
        var route, _ := Dispatch(tags, frames[i]);
        assert frames[i..][0] == frames[i] && frames[i..][1..] == frames[i + 1..];
        routes := routes + [route];
        if route.Fatal? {
          return;
        }
        i := i + 1;
      }
    }
  }

  class Session {
    const id: uint64
    const gateway: Gateway
    var handles: map<uint64, Handle>

    /** Every handle sits under its own id and belongs to this session. */
    ghost predicate Valid()
      reads this
    {
      forall k :: k in handles ==> handles[k].id == k && handles[k].session == this
    }

    constructor (id: uint64, gateway: Gateway)
      ensures this.id == id && this.gateway == gateway && handles == map[]
      ensures Valid()
    {
      this.id := id;
      this.gateway := gateway;
      handles := map[];
    }

    /** Session.send: add session_id, then send through the gateway. */
    method Send(msg: Envelope.Request, ch: Chan, txid: TxId) returns (out: Envelope.Request)
      requires gateway.Valid() && gateway.Fresh(txid, ch)
      modifies gateway
      ensures gateway.Valid()
      ensures out == Envelope.Outgoing(msg, Envelope.FromSession(id), txid, gateway.apiSecret)
      ensures gateway.transactions == old(gateway.transactions)[txid := ch]
      ensures gateway.used == old(gateway.used)[txid := false]
      ensures gateway.sessions == old(gateway.sessions)
    {
      out := gateway.Send(msg["session_id" := Envelope.Num(id)], ch, txid);
    }

    /** Attach: after a SuccessMsg, a new handle of this session is stored
        under the id the server assigned; otherwise nothing changes. */
    method Attach(plugin: string, txid: TxId, ch: Chan, sent: bool, w: Replies.Wait)
      returns (out: Envelope.Request, r: Result<Handle>)
      requires Valid() && gateway.Valid() && gateway.Fresh(txid, ch)
      requires sent && w.Replied? ==> w.msg.SuccessMsg? || w.msg.ErrorMsg?
      modifies this, gateway
      ensures Valid() && gateway.Valid()
      ensures out == Envelope.Outgoing(Envelope.Build(Envelope.Attach(plugin)), Envelope.FromSession(id),
                                       txid, gateway.apiSecret)
      ensures gateway.transactions == old(gateway.transactions)[txid := ch]
      ensures gateway.used == old(gateway.used)[txid := false]
      ensures gateway.sessions == old(gateway.sessions)
      ensures r.Ok? <==> sent && w.Replied? && w.msg.SuccessMsg?
      ensures r.Ok? ==> && fresh(r.value) && r.value.id == w.msg.id && r.value.session == this
                        && handles == old(handles)[w.msg.id := r.value]
      ensures r.Err? ==> handles == old(handles)
      ensures r.Err? ==> r.error == if sent then Replies.Expect(w, Replies.SuccessKind, "attach", "'attach'").error
                                   else Transport
    {
      out := Send(Envelope.Build(Envelope.Attach(plugin)), ch, txid);
      if !sent {
        return out, Err(Transport);
      }
      var reply := Replies.Expect(w, Replies.SuccessKind, "attach", "'attach'");
      if reply.Err? {
        return out, Err(reply.error);
      }
      var handle := new Handle(reply.value.id, this);
      handles := handles[handle.id := handle];
      r := Ok(handle);
    }

    /** KeepAlive: only an AckMsg answers it. */
    method KeepAlive(txid: TxId, ch: Chan, sent: bool, w: Replies.Wait)
      returns (out: Envelope.Request, r: Result<Msg>)
      requires gateway.Valid() && gateway.Fresh(txid, ch)
      modifies gateway
      ensures gateway.Valid()
      ensures out == Envelope.Outgoing(Envelope.Build(Envelope.KeepAlive), Envelope.FromSession(id),
                                       txid, gateway.apiSecret)
      ensures gateway.transactions == old(gateway.transactions)[txid := ch]
      ensures gateway.used == old(gateway.used)[txid := false]
      ensures gateway.sessions == old(gateway.sessions)
      ensures r == if sent then Replies.Expect(w, Replies.AckKind, "keepalive", "'keepalive'") else Err(Transport)
    {
      out := Send(Envelope.Build(Envelope.KeepAlive), ch, txid);
      if !sent {
        return out, Err(Transport);
      }
      r := Replies.Expect(w, Replies.AckKind, "keepalive", "'keepalive'");
    }

    /** Destroy: any reply but an ErrorMsg removes the entry under this
        session's id from the gateway; an error leaves the sessions alone. */
    method Destroy(txid: TxId, ch: Chan, sent: bool, w: Replies.Wait)
      returns (out: Envelope.Request, r: Result<bool>)
      requires gateway.Valid() && gateway.Fresh(txid, ch)
      modifies gateway
      ensures gateway.Valid()
      ensures out == Envelope.Outgoing(Envelope.Build(Envelope.Destroy), Envelope.FromSession(id),
                                       txid, gateway.apiSecret)
      ensures gateway.transactions == old(gateway.transactions)[txid := ch]
      ensures gateway.used == old(gateway.used)[txid := false]
      ensures r == if sent then Replies.Teardown(w, "'destroy'") else Err(Transport)
      ensures gateway.sessions == if r.Ok? then old(gateway.sessions) - {id} else old(gateway.sessions)
    {
      out := Send(Envelope.Build(Envelope.Destroy), ch, txid);
      if !sent {
        return out, Err(Transport);
      }
      r := Replies.Teardown(w, "'destroy'");
      if r.Ok? {
        gateway.sessions := gateway.sessions - {id};
      }
    }
  }

  class Handle {
    const id: uint64
    const session: Session

    constructor (id: uint64, session: Session)
      ensures this.id == id && this.session == session
    {
      this.id := id;
      this.session := session;
    }

    /** Handle.send: add handle_id, then send through the session. */
    method Send(msg: Envelope.Request, ch: Chan, txid: TxId) returns (out: Envelope.Request)
      requires session.gateway.Valid() && session.gateway.Fresh(txid, ch)
      modifies session.gateway
      ensures session.gateway.Valid()
      ensures out == Envelope.Outgoing(msg, Envelope.FromHandle(session.id, id), txid, session.gateway.apiSecret)
      ensures session.gateway.transactions == old(session.gateway.transactions)[txid := ch]
      ensures session.gateway.used == old(session.gateway.used)[txid := false]
      ensures session.gateway.sessions == old(session.gateway.sessions)
    {
      out := session.Send(msg["handle_id" := Envelope.Num(id)], ch, txid);
    }

    /** Request: a "message" answered only by a SuccessMsg. */
    method Request(body: Option<Payload>, txid: TxId, ch: Chan, sent: bool, w: Replies.Wait)
      returns (out: Envelope.Request, r: Result<Msg>)
      requires session.gateway.Valid() && session.gateway.Fresh(txid, ch)
      modifies session.gateway
      ensures session.gateway.Valid()
      ensures out == Envelope.Outgoing(Envelope.Build(Envelope.PluginRequest(body)),
                                       Envelope.FromHandle(session.id, id), txid, session.gateway.apiSecret)
      ensures session.gateway.transactions == old(session.gateway.transactions)[txid := ch]
      ensures session.gateway.used == old(session.gateway.used)[txid := false]
      ensures session.gateway.sessions == old(session.gateway.sessions)
      ensures r == if sent then Replies.Expect(w, Replies.SuccessKind, "message", "'message'") else Err(Transport)
    {
      out := Send(Envelope.Build(Envelope.PluginRequest(body)), ch, txid);
      if !sent {
        return out, Err(Transport);
      }
      r := Replies.Expect(w, Replies.SuccessKind, "message", "'message'");
    }

    /** Message: waits past any number of AckMsgs; the first other outcome
        decides, and only an EventMsg succeeds. */
    method Message(body: Option<Payload>, jsep: Option<Payload>, txid: TxId, ch: Chan, sent: bool,
                   waits: seq<Replies.Wait>)
      returns (out: Envelope.Request, r: Result<Msg>)
      requires session.gateway.Valid() && session.gateway.Fresh(txid, ch)
      requires sent ==> Replies.Settles(waits)
      modifies session.gateway
      ensures session.gateway.Valid()
      ensures out == Envelope.Outgoing(Envelope.Build(Envelope.Message(body, jsep)),
                                       Envelope.FromHandle(session.id, id), txid, session.gateway.apiSecret)
      ensures session.gateway.transactions == old(session.gateway.transactions)[txid := ch]
      ensures session.gateway.used == old(session.gateway.used)[txid := false]
      ensures session.gateway.sessions == old(session.gateway.sessions)
      ensures r == if sent then Replies.MessageReply(waits) else Err(Transport)
      ensures r.Ok? ==> r.value.EventMsg?
    {
      out := Send(Envelope.Build(Envelope.Message(body, jsep)), ch, txid);
      if !sent {
        return out, Err(Transport);
      }
      var skipped;
      r, skipped := Replies.AwaitMessage(waits);
    }

    /** Trickle: one candidate, answered only by an AckMsg. */
    method Trickle(candidate: Envelope.Value, txid: TxId, ch: Chan, sent: bool, w: Replies.Wait)
      returns (out: Envelope.Request, r: Result<Msg>)
      requires session.gateway.Valid() && session.gateway.Fresh(txid, ch)
      modifies session.gateway
      ensures session.gateway.Valid()
      ensures out == Envelope.Outgoing(Envelope.Build(Envelope.Trickle(candidate)),
                                       Envelope.FromHandle(session.id, id), txid, session.gateway.apiSecret)
      ensures session.gateway.transactions == old(session.gateway.transactions)[txid := ch]
      ensures session.gateway.used == old(session.gateway.used)[txid := false]
      ensures session.gateway.sessions == old(session.gateway.sessions)
      ensures r == if sent then Replies.Expect(w, Replies.AckKind, "trickle", "'trickle'") else Err(Transport)
    {
      out := Send(Envelope.Build(Envelope.Trickle(candidate)), ch, txid);
      if !sent {
        return out, Err(Transport);
      }
      r := Replies.Expect(w, Replies.AckKind, "trickle", "'trickle'");
    }

    /** TrickleMany: a batch of candidates, answered only by an AckMsg. */
    method TrickleMany(candidates: Envelope.Value, txid: TxId, ch: Chan, sent: bool, w: Replies.Wait)
      returns (out: Envelope.Request, r: Result<Msg>)
      requires session.gateway.Valid() && session.gateway.Fresh(txid, ch)
      modifies session.gateway
      ensures session.gateway.Valid()
      ensures out == Envelope.Outgoing(Envelope.Build(Envelope.TrickleMany(candidates)),
                                       Envelope.FromHandle(session.id, id), txid, session.gateway.apiSecret)
      ensures session.gateway.transactions == old(session.gateway.transactions)[txid := ch]
      ensures session.gateway.used == old(session.gateway.used)[txid := false]
      ensures session.gateway.sessions == old(session.gateway.sessions)
      ensures r == if sent then Replies.Expect(w, Replies.AckKind, "trickle", "'trickle'/many") else Err(Transport)
    {
      out := Send(Envelope.Build(Envelope.TrickleMany(candidates)), ch, txid);
      if !sent {
        return out, Err(Transport);
      }
      r := Replies.Expect(w, Replies.AckKind, "trickle", "'trickle'/many");
    }

    /** Detach: any reply but an ErrorMsg removes the entry under this
        handle's id from its session; an error leaves the handles alone. */
    method Detach(txid: TxId, ch: Chan, sent: bool, w: Replies.Wait)
      returns (out: Envelope.Request, r: Result<bool>)
      requires session.Valid() && session.gateway.Valid() && session.gateway.Fresh(txid, ch)
      modifies session, session.gateway
      ensures session.Valid() && session.gateway.Valid()
      ensures out == Envelope.Outgoing(Envelope.Build(Envelope.Detach), Envelope.FromHandle(session.id, id),
                                       txid, session.gateway.apiSecret)
      ensures session.gateway.transactions == old(session.gateway.transactions)[txid := ch]
      ensures session.gateway.used == old(session.gateway.used)[txid := false]
      ensures session.gateway.sessions == old(session.gateway.sessions)
      ensures r == if sent then Replies.Teardown(w, "'detach'") else Err(Transport)
      ensures session.handles == if r.Ok? then old(session.handles) - {id} else old(session.handles)
    {
      out := Send(Envelope.Build(Envelope.Detach), ch, txid);
      if !sent {
        return out, Err(Transport);
      }
      r := Replies.Teardown(w, "'detach'");
      if r.Ok? {
        session.handles := session.handles - {id};
      }
    }
  }
}
