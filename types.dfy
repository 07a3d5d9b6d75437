/** Values shared by every part of the Janus client model: ids, inbound
    messages and the errors a request can end with. */
module Types {

  /** Server-assigned session and handle ids are Go `uint64`s. */
  type uint64 = x: int | 0 <= x < 0x1_0000_0000_0000_0000

  /** A transaction id in its string form, as it travels in the
      `"transaction"` field; the empty string means "no transaction". */
  type TxId = string

  /** The identity of a reply channel made by `newRequest`. */
  type Chan = nat

  /** A JSON value the client passes through without looking inside
      (plugin bodies, jsep, candidates, server info). */
  type Payload = string

  datatype Option<+T> = None | Some(value: T)

  /** An inbound message after it has been decoded as the type its tag
      names. `OtherMsg` stands for the remaining recognised types
      (media, hangup, webrtcup, ...), which the core never inspects. */
  datatype Msg =
    | SuccessMsg(id: uint64, plugindata: Payload)
    | ErrorMsg(code: int, reason: string)
    | AckMsg
    | EventMsg(plugindata: Payload, jsep: Payload)
    | InfoMsg(info: Payload)
    | OtherMsg(tag: string, body: Payload)

  /** Why a request call failed. */
  datatype Error =
    | Transport                          // marshalling or writing the request failed
    | Timeout(what: string)              // "timeout waiting for response to " + what
    | Canceled                           // the caller's context was done
    | Server(code: int, reason: string)  // the gateway answered with an ErrorMsg
    | Unexpected(request: string)        // unexpected(request)

  datatype Result<+T> = Ok(value: T) | Err(error: Error)
}
