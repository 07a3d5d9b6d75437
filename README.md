# Janus WebSocket client core, modelled in Dafny

This project models the sequential core of a Go client for the Janus WebRTC
gateway's WebSocket API (`janus.go`). The model has three parts.

- **Outgoing envelopes and transaction registration** (module `Envelope`, and `Send` in
  the `Janus` classes).
  - Every request starts as `{"janus": method}`.
  - A request kind adds its own fields: `plugin`, an optional `body`, an optional
    `jsep`, `candidate` or `candidates`.
  - A handle adds `handle_id`. A session adds `session_id`.
  - The gateway adds `transaction` and, only when a secret is configured, `apisecret`.
  - The gateway then registers the id in `transactions` (id to reply channel) and in
    `transactionsUsed` (id to false).
- **The routing rule of the receive loop** (module `Routing`, and
  `Gateway.Dispatch` / `Gateway.Recv`). Each inbound frame has one of five outcomes:
  - skipped (unknown type tag);
  - fatal (bad envelope, bad payload, or "null transaction");
  - dropped (event for a missing session or handle, or handle id 0);
  - delivered to a handle's event stream;
  - delivered to a transaction's reply channel.

  A correlated `EventMsg` marks its id used. From then on, later frames with that id
  take the event path. Nothing is ever removed from the registry.
- **Per-request reply handling and the hierarchy** (module `Replies`, and the request
  methods of `Gateway`, `Session` and `Handle`).
  - Info, KeepAlive, Request, Message, Trickle and TrickleMany accept one reply kind
    each.
  - Create and Attach accept a `SuccessMsg`; their other reply kinds are described
    under "Left out".
  - Destroy and Detach accept any reply but an `ErrorMsg`.
  - An `ErrorMsg` becomes the server's error.
  - A timeout or a cancellation is an error of its own.
  - `Message` waits past any number of `AckMsg`s.
  - `Create` and `Attach` insert the new session or handle under the server-assigned
    id, and only after a `SuccessMsg`.
  - `Destroy` and `Detach` delete after any reply that is not an `ErrorMsg`.
  - On every error path the session and handle maps are unchanged.

Parameters stand in for everything the code cannot see:
- the fresh transaction id (`txid`, required non-empty and unseen);
- the reply channel `newRequest` makes (`ch`), required to be new: no registered
  transaction has it, as `make` gives a channel nobody else holds;
- whether marshalling and writing succeeded (`sent`);
- what the wait on the channel produced (`w`: timed out, cancelled, or a message;
  `waits` for `Message`, one per wait);
- the set of recognised type tags (`tags`).

Transaction ids are modelled by their string form. `xid.FromString` of a malformed
string yields an id that was never registered. Keying by string gives the same route:
unused, correlated, no transaction, fatal.

The code's order is kept where it shows. `transactionsUsed[id] = true` is set for a
correlated `EventMsg` before the nil-transaction check (janus.go:276-283). So an Event
carrying an unregistered id marks that id used and then ends the loop. For that reason
the gateway invariant is `transactions.Keys <= used.Keys`, not equality.

The gateway invariant (`Gateway.Valid`, with `Session.Valid`) says four things.
Every session sits under its own id in its gateway. Every handle sits under its own id
in its session. Every registered transaction has a used flag. No two transactions share
a reply channel. Every request method keeps
the invariant, including Create, Attach, Destroy and Detach. `Gateway.Dispatch` relies on
it to show two things. An event is delivered only to the handle its ids name. A reply
reaches only the channel of the transaction whose id it echoes, never a later call's.

The doc comments of Destroy and Detach (janus.go:442-444, 628-629) speak of removal
"on success". The code deletes after any reply that is not an `ErrorMsg`, including a
`SuccessMsg` or an `EventMsg`, and then returns a nil ack with no error. The model follows the code:
`Replies.Teardown` returns `Ok(false)` in that case.

## Model

| member | source | states |
|---|---|---|
| Envelope.NewRequest | janus.go:29-33 | a new request holds exactly one field, `"janus"`, set to the method name |
| Envelope.Build | janus.go:381-606 | each request kind leaves its builder with exactly its method name and its own fields, and no other key: `plugin` for attach (line 383), `body` (and for Message `jsep`) only when non-nil (lines 503-505, 534-539), `candidate` (line 576) or `candidates` (line 605) for the trickles; it sets none of the fields the sending nodes stamp |
| Envelope.Outgoing | janus.go:112-118 | after sending through a node: `transaction` is the id; `apisecret` is the secret exactly when one is configured; `session_id`/`handle_id` are the sender's ids; every other key is kept unchanged and no other key is added |
| Envelope.OutgoingOfKind | janus.go:493-498 | for every request kind and sender, the envelope on the wire carries the method name, the transaction id, the secret iff configured, `session_id` iff sent by a session or handle, `handle_id` iff sent by a handle, and every field the kind set, and no other key (a corollary of Build and Outgoing) |
| Janus.Gateway.constructor | janus.go:77-82 | a connected gateway starts with no sessions, no transactions, no used flags and the given secret |
| Janus.Gateway.Send | janus.go:112-122 | given a new id and a new channel, stamps `transaction` and, when configured, `apisecret` onto the request it is given, as Outgoing says for a gateway send; registers `transactions[id] = ch` and `used[id] = false`; changes nothing else, so no earlier entry changes |
| Janus.Session.Send | janus.go:373-376 | writes `session_id` = the session's id, then sends through the gateway; the result is Outgoing for a send from this session |
| Janus.Handle.Send | janus.go:493-498 | writes `handle_id` = the handle's id, then sends through its session, which writes `session_id`; the result is Outgoing for a send from this handle |
| Replies.Expect | janus.go:305-314 | a reply succeeds iff it is a message of the accepted kind, and returns that message; an ErrorMsg gives the server's code and reason; another message gives `unexpected(request)`; a timeout and a cancellation give their own errors |
| Replies.Teardown | janus.go:458-465 | the teardown goes ahead iff the reply is a message other than ErrorMsg, and reports whether it was the AckMsg; an ErrorMsg, a timeout and a cancellation are errors |
| Replies.FirstNonAck | janus.go:545-555 | the wait that ends a "message" call is the first one that is not an Ack: every wait before it is an Ack |
| Replies.MessageReply | janus.go:545-563 | a "message" call is decided by the first non-Ack wait: it succeeds iff that wait delivered an EventMsg, and returns that event; an ErrorMsg there gives the server's error, another message `unexpected("message")`, and a timeout or a cancellation its own error |
| Replies.AwaitMessage | janus.go:545-563 | the wait-again loop stops at the first non-Ack wait, having skipped only Acks; its result is MessageReply, and it succeeds iff that wait delivered an EventMsg |
| Replies.AcksIgnored | janus.go:552-555 | any number of Acks in front of the waits leave the result of a "message" call unchanged |
| Replies.MessageSucceedsOnEvent | janus.go:552-563 | a "message" call succeeds iff some wait, preceded only by Acks, delivered an EventMsg; then it returns exactly that event (a corollary of MessageReply's contract) |
| Routing.Dispatch | janus.go:198-287 | a bad envelope is fatal; an unknown tag is skipped; a bad payload for a known tag is fatal. An event-path message (no id, or a used id) is delivered to Sessions[s].Handles[h] iff h != 0 and both lookups hit, and is otherwise dropped, with the reason fixed: no handle id, then a missing session, then a missing handle. A correlated message goes to the registered channel of its id, or is fatal "null transaction" if none is registered. Only a correlated EventMsg changes state, by marking its id used; transactions never change |
| Routing.Run | janus.go:194-288 | the loop gives one route per frame it reads and stops right after the first fatal route, and only there |
| Routing.RunOnlyGrows | janus.go:234-287 | over any stretch of the loop, no transaction is removed or rebound, no used entry disappears, and a used id stays used |
| Routing.UsedIdStaysOnEventPath | janus.go:234-270 | once an id is used, no later frame with that id reaches a reply channel or raises "null transaction"; each decoded one goes to a handle or is dropped |
| Routing.EventContinuation | janus.go:272-286 | a correlated EventMsg is delivered to its transaction's channel and marks the id used; every later decoded frame reusing the id is routed as a handle event (delivered or dropped) |
| Janus.Gateway.Dispatch | janus.go:198-287 | one iteration of the receive loop returns Routing.Dispatch's route and leaves the registry as Routing.Dispatch says; an event goes to the very handle object stored at `Sessions[s].Handles[h]`, and that handle has id `h` and belongs to the session with id `s` (never to another handle); a reply goes to a channel no other registered transaction holds; sessions and handles are untouched |
| Janus.Gateway.Recv | janus.go:192-289 | the loop over a sequence of frames returns Routing.Run's routes and registry |
| Janus.Gateway.Info | janus.go:293-315 | sends `info` from the gateway and registers it; only an InfoMsg succeeds; a failed send is an error; the sessions are unchanged |
| Janus.Gateway.Create | janus.go:319-354 | sends `create`; succeeds iff the reply is a SuccessMsg, and then stores a fresh session with no handles under the server-assigned id; every error leaves the sessions as they were |
| Janus.Session.constructor | janus.go:342-345 | a new session has its id, its gateway and no handles |
| Janus.Session.Attach | janus.go:381-414 | sends `attach` with the plugin name through the session; succeeds iff the reply is a SuccessMsg, and then stores a fresh handle of this session under the server-assigned id; every error leaves the handles as they were |
| Janus.Session.KeepAlive | janus.go:418-440 | sends `keepalive` through the session; only an AckMsg succeeds; the hierarchy is unchanged |
| Janus.Session.Destroy | janus.go:445-473 | sends `destroy`; any reply but an ErrorMsg removes the entry under the session's id from the gateway; an error, a timeout or a cancellation leaves the sessions as they were |
| Janus.Handle.constructor | janus.go:404-406 | a new handle has its id and its session |
| Janus.Handle.Request | janus.go:501-526 | sends `message` with the optional body through the handle; only a SuccessMsg succeeds |
| Janus.Handle.Message | janus.go:532-564 | sends `message` with the optional body and jsep; the result is MessageReply of the waits (Acks skipped), and a success is always an EventMsg |
| Janus.Handle.Trickle | janus.go:574-597 | sends `trickle` with one candidate; only an AckMsg succeeds |
| Janus.Handle.TrickleMany | janus.go:603-626 | sends `trickle` with the candidate list; only an AckMsg succeeds; its timeout text names `'trickle'/many` |
| Janus.Handle.Detach | janus.go:630-658 | sends `detach`; any reply but an ErrorMsg removes the entry under the handle's id from its session; an error, a timeout or a cancellation leaves the handles as they were |

## Left out

- WebSocket I/O (`Connect`'s dial, `Close`, the reads and writes). A read is an input
  frame. A write is the returned envelope plus the `sent` flag.
- The ping loop and `KeepAliveSender`. Both are driven by timers.
- The `errgroup` coupling in `Connect` and `WaitForGroup`. This is concurrency.
- Goroutines, channels, `passMsg`'s bounded hand-off, `time.After` timeouts and `ctx.Done()`.
  - A delivery appears as a returned route.
  - A timeout or a cancellation appears as a `Wait` outcome.
- Mutex locking. The model is sequential.
- Concurrent interleavings of requests with the receive loop. `Gateway.Recv` covers a
  stretch of the loop with no request issued in between. An interleaving is a sequence
  of calls to `Dispatch` and the request methods, each with its own contract.
- JSON marshalling, unmarshalling and stdout logging. Messages are a datatype.
  A decode failure is a `Frame` value.
- The fields of the message types. The type definitions and the `msgtypes` tag table
  are not part of this model. The recognised tags are a parameter.
  `Msg` keeps only the fields the core reads: the new id of a SuccessMsg and the code
  and reason of an ErrorMsg. The other fields are opaque payloads.
- Transaction id generation (`xid.New`) and parsing (`xid.FromString`). These are a
  foreign library. Ids are strings, and freshness is a precondition.
  Two distinct strings that parse to the same id are not modelled.
- The `Type` and `User` fields of `Handle` and the session and handle `Events`
  channels. The core never reads them.
- Janus.Gateway.Create: a reply kind other than SuccessMsg or ErrorMsg makes the code
  dereference a nil `success` (janus.go:344). A precondition excludes it instead of
  modelling the crash.
- Janus.Session.Attach: same as Create, for the nil dereference at janus.go:406.
- Janus.Handle.Message: the source waits forever if only Acks ever arrive. The model
  requires the waits to contain a non-Ack outcome when the request was sent.
- Server error text: an `ErrorMsg`'s error is modelled as its code and reason. How it
  is rendered as a string is not modelled.
