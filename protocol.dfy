/**
 The values that cross the boundaries of one call bridge: relay messages coming
 in, webhook requests going out, the webhook's answer, and the frames written
 back to the relay. JSON fields the bridge reads without checking are modelled
 as possibly-absent strings.
 */
module Protocol {

  datatype Option<+T> = None | Some(value: T)

  /** An already-parsed relay message: its `type`, `text` and `from` fields. */
  datatype Inbound = Inbound(kind: Option<string>, text: Option<string>, from: Option<string>)

  /**
   The webhook's response body. `Null` is a null or undefined body, on which
   reading `action` throws; any other body is read field by field (a body that
   is not an object, such as a string, reads as `Reply(None, None, None)`).
   */
  datatype Body =
    | Null
    | Reply(action: Option<string>, message: Option<string>, transferTo: Option<string>)

  /** The outcome of one webhook round trip: a body, or a rejected request. */
  datatype Outcome = Failed | Ok(body: Body)

  /** A webhook POST body; `from` is `None` when the field is not sent at all. */
  datatype Request = Request(callId: string, text: string, from: Option<string>)

  /**
   A frame sent to the relay: `{type: "text", token}`, `{type: "end_of_response"}`,
   `{type: "transfer", handoff}`, `{type: "end"}`. An absent token or handoff is a
   field that serialisation leaves out.
   */
  datatype Frame =
    | Text(token: Option<string>)
    | EndOfResponse
    | Transfer(handoff: Option<string>)
    | End

  /** Frames that close a call: after them the relay hands off or hangs up. */
  predicate Terminal(f: Frame) {
    f.Transfer? || f.End?
  }
}
