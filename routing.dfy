/** The receive loop's routing rule: for each inbound frame, decide whether
    it is skipped, fatal, dropped, delivered to a handle's event stream or
    delivered to a transaction's reply channel, and how the registry of
    transactions changes. */
module Routing {
  import opened Types

  /** The common envelope of an inbound message: its type tag, the
      transaction id it echoes ("" when absent), its session id and its
      sender (handle) id (0 when absent). */
  datatype Base = Base(tag: string, id: TxId, session: uint64, handle: uint64)

  /** One message read from the connection. `Garbled`: the common envelope
      does not decode. Otherwise `body` is the message decoded as the type
      registered for its tag (`None` when that second decode fails). */
  datatype Frame = Garbled | Frame(base: Base, body: Option<Msg>)

  /** Errors that end the receive loop. */
  datatype Fault = BadEnvelope | BadPayload | NullTransaction

  /** Why an event could not be delivered (logged; the loop goes on). */
  datatype Drop = NoHandleId | SessionGone | HandleGone

  /** The outcome of one iteration of the receive loop. */
  datatype Route =
    | Skipped                                            // unknown type tag
    | Fatal(fault: Fault)
    | Dropped(why: Drop)
    | ToHandle(session: uint64, handle: uint64, msg: Msg)  // to Sessions[session].Handles[handle].Events
    | ToTransaction(id: TxId, ch: Chan, msg: Msg)          // to the transaction's reply channel

  /** The transaction registry: `transactions` (id to reply channel) and
      `transactionsUsed` (id to "has had its Event reply"). */
  datatype Registry = Registry(transactions: map<TxId, Chan>, used: map<TxId, bool>)

  /** The hierarchy as the loop looks it up: session id to the ids of its handles. */
  type Topology = map<uint64, set<uint64>>

  datatype Step = Step(route: Route, reg: Registry)

  /** `transactionsUsed[id]`: a missing entry reads as false. */
  predicate Used(reg: Registry, id: TxId)
  {
    id in reg.used && reg.used[id]
  }

  /** The frame decodes fully and its tag is recognised. */
  predicate Decoded(tags: set<string>, f: Frame)
  {
    f.Frame? && f.base.tag in tags && f.body.Some?
  }

  /** Messages without a transaction id, or whose id has had its Event
      reply, are events for a handle. */
  predicate EventPath(reg: Registry, b: Base)
  {
    b.id == "" || Used(reg, b.id)
  }

  /** The frame names a handle that exists in a session that exists. */
  predicate Addressable(topo: Topology, b: Base)
  {
    b.handle != 0 && b.session in topo && b.handle in topo[b.session]
  }

  /** A decoded frame on the correlated path. */
  predicate Correlated(tags: set<string>, reg: Registry, f: Frame)
  {
    Decoded(tags, f) && !EventPath(reg, f.base)
  }

  /** One iteration of the receive loop, after the read. `tags` is the set
      of recognised type tags. */
  function Dispatch(tags: set<string>, reg: Registry, topo: Topology, f: Frame): (s: Step)
    // the decode outcomes
    ensures f.Garbled? ==> s.route == Fatal(BadEnvelope)
    ensures f.Frame? ==> (s.route == Skipped <==> f.base.tag !in tags)
    ensures f.Frame? && f.base.tag in tags && f.body.None? ==> s.route == Fatal(BadPayload)
    // the event path
    ensures s.route.ToHandle? <==> Decoded(tags, f) && EventPath(reg, f.base) && Addressable(topo, f.base)
    ensures s.route.ToHandle? ==> s.route == ToHandle(f.base.session, f.base.handle, f.body.value)
    ensures s.route.Dropped? <==> Decoded(tags, f) && EventPath(reg, f.base) && !Addressable(topo, f.base)
    ensures s.route == Dropped(NoHandleId) <==> Decoded(tags, f) && EventPath(reg, f.base) && f.base.handle == 0
    ensures s.route == Dropped(SessionGone) <==>
      Decoded(tags, f) && EventPath(reg, f.base) && f.base.handle != 0 && f.base.session !in topo
    ensures s.route == Dropped(HandleGone) <==>
      Decoded(tags, f) && EventPath(reg, f.base) && f.base.handle != 0 && f.base.session in topo
      && f.base.handle !in topo[f.base.session]
    // the correlated path
    ensures s.route.ToTransaction? <==> Correlated(tags, reg, f) && f.base.id in reg.transactions
    ensures s.route.ToTransaction? ==>
      s.route == ToTransaction(f.base.id, reg.transactions[f.base.id], f.body.value)
    ensures s.route == Fatal(NullTransaction) <==> Correlated(tags, reg, f) && f.base.id !in reg.transactions
    // the registry: nothing is removed; only a correlated Event marks its id used
    ensures s.reg.transactions == reg.transactions
    ensures s.reg.used ==
      if Correlated(tags, reg, f) && f.body.value.EventMsg? then reg.used[f.base.id := true] else reg.used
  {
    match f
    case Garbled => Step(Fatal(BadEnvelope), reg)
    case Frame(b, body) =>
      if b.tag !in tags then Step(Skipped, reg)
      else if body.None? then Step(Fatal(BadPayload), reg)
      else if EventPath(reg, b) then
        if b.handle == 0 then Step(Dropped(NoHandleId), reg)
        else if b.session !in topo then Step(Dropped(SessionGone), reg)
        else if b.handle !in topo[b.session] then Step(Dropped(HandleGone), reg)
        else Step(ToHandle(b.session, b.handle, body.value), reg)
      else
        var reg' := if body.value.EventMsg? then reg.(used := reg.used[b.id := true]) else reg;
        if b.id !in reg.transactions then Step(Fatal(NullTransaction), reg')
        else Step(ToTransaction(b.id, reg.transactions[b.id], body.value), reg')
  }

  /** The routes of a stretch of the receive loop and the registry after it. */
  datatype Trace = Trace(routes: seq<Route>, reg: Registry)

  /** The receive loop over `frames` (no request is issued meanwhile): one
      route per frame, stopping after the first fatal one. */
  function Run(tags: set<string>, reg: Registry, topo: Topology, frames: seq<Frame>): (t: Trace)
    ensures |t.routes| <= |frames|
    ensures forall k :: 0 <= k < |t.routes| - 1 ==> !t.routes[k].Fatal?
    ensures |t.routes| < |frames| ==> t.routes != [] && t.routes[|t.routes| - 1].Fatal?
    decreases |frames|
  {
    if frames == [] then Trace([], reg)
    else
      var s := Dispatch(tags, reg, topo, frames[0]);
      if s.route.Fatal? then Trace([s.route], s.reg)
      else
        var rest := Run(tags, s.reg, topo, frames[1..]);
        Trace([s.route] + rest.routes, rest.reg)
  }

  /** The registry only grows: no transaction is ever removed or rebound,
      no used entry disappears, and an id once used stays used. */
  ghost predicate Grows(reg: Registry, reg': Registry)
  {
    && reg'.transactions == reg.transactions
    && reg.used.Keys <= reg'.used.Keys
    && forall id :: Used(reg, id) ==> Used(reg', id)
  }

  lemma {:induction false} RunOnlyGrows(tags: set<string>, reg: Registry, topo: Topology, frames: seq<Frame>)
    ensures Grows(reg, Run(tags, reg, topo, frames).reg)
    decreases |frames|
  {
    if frames != [] {
      var s := Dispatch(tags, reg, topo, frames[0]);
      if !s.route.Fatal? {
        RunOnlyGrows(tags, s.reg, topo, frames[1..]);
      }
    }
  }

  /** Once an id is used, no later frame carrying it reaches the correlated
      path: it is never delivered to a reply channel and never reported as
      a null transaction. */
  lemma {:induction false} UsedIdStaysOnEventPath(tags: set<string>, reg: Registry, topo: Topology,
                                                  frames: seq<Frame>, id: TxId)
    requires Used(reg, id)
    ensures var t := Run(tags, reg, topo, frames);
      forall k :: 0 <= k < |t.routes| && frames[k].Frame? && frames[k].base.id == id ==>
        && !t.routes[k].ToTransaction? && t.routes[k] != Fatal(NullTransaction)
        && (Decoded(tags, frames[k]) ==> t.routes[k].ToHandle? || t.routes[k].Dropped?)
    decreases |frames|
  {
    if frames != [] {
      var s := Dispatch(tags, reg, topo, frames[0]);
      if !s.route.Fatal? {
        assert Used(s.reg, id);
        UsedIdStaysOnEventPath(tags, s.reg, topo, frames[1..], id);
        var t := Run(tags, reg, topo, frames);
        var rest := Run(tags, s.reg, topo, frames[1..]);
        forall k | 1 <= k < |t.routes|
          ensures t.routes[k] == rest.routes[k - 1] && frames[k] == frames[1..][k - 1]
        {
        }
      }
    }
  }

  /** A correlated EventMsg marks its transaction used; from then on the
      follow-up events that reuse the id are routed as handle events
      (delivered or dropped), never as a reply or a protocol fault. */
  lemma {:induction false} EventContinuation(tags: set<string>, reg: Registry, topo: Topology,
                                             first: Frame, later: seq<Frame>)
    requires Correlated(tags, reg, first) && first.body.value.EventMsg?
    requires first.base.id in reg.transactions
    ensures var s := Dispatch(tags, reg, topo, first);
      && s.route == ToTransaction(first.base.id, reg.transactions[first.base.id], first.body.value)
      && Used(s.reg, first.base.id)
      && var t := Run(tags, s.reg, topo, later);
         forall k :: 0 <= k < |t.routes| && Decoded(tags, later[k]) && later[k].base.id == first.base.id ==>
           t.routes[k].ToHandle? || t.routes[k].Dropped?
  {
    var s := Dispatch(tags, reg, topo, first);
    UsedIdStaysOnEventPath(tags, s.reg, topo, later, first.base.id);
  }
}
