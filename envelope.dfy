/** Outgoing request envelopes: what `newRequest` starts with, what each
    request kind adds, and what the sending node (gateway, session or
    handle) stamps on before the request goes out. */
module Envelope {
  import opened Types

  /** A JSON field value of an outgoing request. */
  datatype Value = Str(s: string) | Num(n: uint64) | Json(p: Payload) | Null

  /** An outgoing request: the `map[string]interface{}` the client marshals. */
  type Request = map<string, Value>

  /** The request kinds the client issues, with their method-specific
      arguments (a `None` body or jsep is a nil interface: left out). */
  datatype Kind =
    | Info
    | Create
    | Attach(plugin: string)
    | KeepAlive
    | Destroy
    | PluginRequest(body: Option<Payload>)
    | Message(body: Option<Payload>, jsep: Option<Payload>)
    | Trickle(candidate: Value)
    | TrickleMany(candidates: Value)
    | Detach

  /** The node a request is sent through; a handle sends through its
      session, so it carries both ids. */
  datatype Sender =
    | FromGateway
    | FromSession(session: uint64)
    | FromHandle(session: uint64, handle: uint64)

  /** The value of the `"janus"` field for each request kind. */
  function Method(k: Kind): string
  {
    match k
    case Info => "info"
    case Create => "create"
    case Attach(_) => "attach"
    case KeepAlive => "keepalive"
    case Destroy => "destroy"
    case PluginRequest(_) => "message"
    case Message(_, _) => "message"
    case Trickle(_) => "trickle"
    case TrickleMany(_) => "trickle"
    case Detach => "detach"
  }

  /** The fields set by the sending nodes; no request kind sets them itself. */
  function StampKeys(): set<string>
  {
    {"transaction", "apisecret", "session_id", "handle_id"}
  }

  /** newRequest: a request holding only its method name. */
  function NewRequest(name: string): (req: Request)
    ensures req.Keys == {"janus"}
    ensures req["janus"] == Str(name)
  {
    map["janus" := Str(name)]
  }

  function Optional(req: Request, key: string, v: Option<Payload>): Request
  {
    if v.Some? then req[key := Json(v.value)] else req
  }

  /** The request a kind builds before handing it to its node's send. */
  function Build(k: Kind): (req: Request)
    ensures req.Keys == {"janus"}
      + (if k.Attach? then {"plugin"} else {})
      + (if (k.PluginRequest? || k.Message?) && k.body.Some? then {"body"} else {})
      + (if k.Message? && k.jsep.Some? then {"jsep"} else {})
      + (if k.Trickle? then {"candidate"} else {})
      + (if k.TrickleMany? then {"candidates"} else {})
    ensures req["janus"] == Str(Method(k))
    ensures req.Keys !! StampKeys()
    ensures k.Attach? ==> req["plugin"] == Str(k.plugin)
    ensures "body" in req ==> req["body"] == Json(k.body.value)
    ensures "jsep" in req ==> req["jsep"] == Json(k.jsep.value)
    ensures k.Trickle? ==> req["candidate"] == k.candidate
    ensures k.TrickleMany? ==> req["candidates"] == k.candidates
  {
    var req := NewRequest(Method(k));
    match k
    case Attach(plugin) => req["plugin" := Str(plugin)]
    case PluginRequest(body) => Optional(req, "body", body)
    case Message(body, jsep) => Optional(Optional(req, "body", body), "jsep", jsep)
    case Trickle(candidate) => req["candidate" := candidate]
    case TrickleMany(candidates) => req["candidates" := candidates]
    case _ => req
  }

  /** Session.send and Handle.send: the ids the sending nodes write, the
      handle's first and then its session's. */
  function Address(req: Request, from: Sender): Request
  {
    match from
    case FromGateway => req
    case FromSession(s) => req["session_id" := Num(s)]
    case FromHandle(s, h) => req["handle_id" := Num(h)]["session_id" := Num(s)]
  }

  /** The keys a send through `from` may add or overwrite. */
  function Stamped(from: Sender, secret: string): set<string>
  {
    {"transaction"}
    + (if secret != "" then {"apisecret"} else {})
    + (if from.FromGateway? then {} else {"session_id"})
    + (if from.FromHandle? then {"handle_id"} else {})
  }

  /** The envelope that goes on the wire when `req` is sent through `from`
      under transaction `id`, with the gateway's configured `secret`. */
  function Outgoing(req: Request, from: Sender, id: TxId, secret: string): (out: Request)
    ensures "transaction" in out && out["transaction"] == Str(id)
    ensures ("apisecret" in out) <==> secret != "" || "apisecret" in req
    ensures secret != "" ==> out["apisecret"] == Str(secret)
    ensures ("session_id" in out) <==> !from.FromGateway? || "session_id" in req
    ensures !from.FromGateway? ==> out["session_id"] == Num(from.session)
    ensures ("handle_id" in out) <==> from.FromHandle? || "handle_id" in req
    ensures from.FromHandle? ==> out["handle_id"] == Num(from.handle)
    ensures out.Keys == req.Keys + Stamped(from, secret)
    ensures forall key :: key in req && key !in Stamped(from, secret) ==> out[key] == req[key]
  {
    var r := Address(req, from)["transaction" := Str(id)];
    if secret != "" then r["apisecret" := Str(secret)] else r
  }

  /** Every request of a kind leaves with its method name, the transaction
      id, the ids of the node it was sent through, the secret exactly when
      one is configured, and no other addressing field. */
  lemma {:induction false} OutgoingOfKind(k: Kind, from: Sender, id: TxId, secret: string)
    ensures var out := Outgoing(Build(k), from, id, secret);
      && out.Keys == Build(k).Keys + Stamped(from, secret)
      && out["janus"] == Str(Method(k))
      && out["transaction"] == Str(id)
      && ("apisecret" in out <==> secret != "")
      && ("session_id" in out <==> !from.FromGateway?)
      && ("handle_id" in out <==> from.FromHandle?)
      && (forall key :: key in Build(k) ==> out[key] == Build(k)[key])
  {
  }
}
