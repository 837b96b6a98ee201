/**
 The decisions the call bridge takes for one relay message: whether to act on
 it, what it posts to the webhook, and which turn it speaks back for each
 webhook outcome.
 */
module Dispatch {
  import opened Protocol
  import opened Framing

  /** The token spoken when the webhook round trip throws. */
  const Apology := "Excusez-moi, je rencontre un petit souci technique. Pouvez-vous patienter un instant ?"
  /** The caller sent to the webhook when the message has no usable `from`. */
  const UnknownCaller := "inconnu"
  /** The text of the termination request sent when the relay connection closes. */
  const CallEnded := "__CALL_ENDED__"

  /** JavaScript truthiness of a string field: present and not empty. */
  predicate Truthy(v: Option<string>) {
    v.Some? && v.value != ""
  }

  /**
   A message is acted on only when it is speech with non-empty text: other
   event types, and speech whose text is absent or empty, are ignored.
   */
  predicate Accepts(m: Inbound)
    ensures m.kind != Some("speech") ==> !Accepts(m)
    ensures m.text == None || m.text == Some("") ==> !Accepts(m)
    ensures m.kind == Some("speech") && m.text.Some? && m.text.value != "" ==> Accepts(m)
  {
    m.kind == Some("speech") && Truthy(m.text)
  }

  /** The webhook request for an accepted message: `from || 'inconnu'`. */
  function TurnRequest(callId: string, m: Inbound): (r: Request)
    requires Accepts(m)
    ensures r.callId == callId && Some(r.text) == m.text && r.text != ""
    ensures r.from.Some? && r.from.value != ""
    ensures Truthy(m.from) ==> r.from == m.from
    ensures !Truthy(m.from) ==> r.from == Some(UnknownCaller)
  {
    Request(callId, m.text.value, Some(if Truthy(m.from) then m.from.value else UnknownCaller))
  }

  /**
   The termination request sent on close. It carries no `from` field, so the
   webhook can tell it apart from every speech request, even one whose text is
   the sentinel itself.
   */
  function CloseRequest(callId: string): (r: Request)
    ensures r.callId == callId && r.text == CallEnded && r.from.None?
    ensures forall m :: Accepts(m) ==> TurnRequest(callId, m) != r
  {
    Request(callId, CallEnded, None)
  }

  /** True when the round trip throws: a rejected request, or a null body whose `action` cannot be read. */
  predicate Throws(o: Outcome)
    ensures o.Failed? ==> Throws(o)
    ensures o == Ok(Null) ==> Throws(o)
    ensures !Throws(o) ==> o.Ok? && o.body.Reply?
  {
    o.Failed? || o.body.Null?
  }

  /** The turn spoken back for a webhook outcome. */
  function Reaction(o: Outcome): (t: Turn)
    ensures Throws(o) ==> t == Turn(Some(Apology), Continue)
    ensures !Throws(o) ==> t.token == o.body.message
    ensures t.next.HandOff? <==> !Throws(o) && o.body.action == Some("transfer")
    ensures t.next.HandOff? ==> t.next.handoff == o.body.transferTo
    ensures t.next.HangUp? <==> !Throws(o) && o.body.action == Some("hangup")
  {
    match o
    case Failed => Turn(Some(Apology), Continue)
    case Ok(Null) => Turn(Some(Apology), Continue)
    case Ok(Reply(action, message, transferTo)) =>
      if action == Some("transfer") then Turn(message, HandOff(transferTo))
      else if action == Some("hangup") then Turn(message, HangUp)
      else Turn(message, Continue)
  }

  /** What handling one message posts to the webhook and sends to the relay. */
  datatype Effects = Effects(posted: seq<Request>, sent: seq<Frame>)

  /** The effects of handling message `m` when the webhook answers `o`. */
  function Step(callId: string, m: Inbound, o: Outcome): (e: Effects)
    ensures e.posted == [] <==> !Accepts(m)
    ensures e.sent == [] <==> !Accepts(m)
    ensures Accepts(m) ==> e.posted == [TurnRequest(callId, m)] && e.sent == EncodeAll([Reaction(o)])
  {
    if Accepts(m) then
      Effects([TurnRequest(callId, m)], Encode(Reaction(o)))
    else
      Effects([], [])
  }

  /**
   The frames sent for one message read back as exactly one turn, the reaction
   to the webhook's outcome, when the message is accepted, and as no turn at
   all otherwise.
   */
  lemma StepSpeaksOneTurn(callId: string, m: Inbound, o: Outcome)
    ensures DecodeAll(Step(callId, m, o).sent) == Some(if Accepts(m) then [Reaction(o)] else [])
  {
    DecodeEncodeAll([Reaction(o)]);
  }

  /** The frames sent for each webhook outcome, in send order. */
  lemma ReactionFrames(o: Outcome)
    ensures Throws(o) ==> Encode(Reaction(o)) == [Text(Some(Apology)), EndOfResponse]
    ensures !Throws(o) && o.body.action == Some("transfer") ==>
      Encode(Reaction(o)) == [Text(o.body.message), EndOfResponse, Transfer(o.body.transferTo)]
    ensures !Throws(o) && o.body.action == Some("hangup") ==>
      Encode(Reaction(o)) == [Text(o.body.message), EndOfResponse, End]
    ensures !Throws(o) && o.body.action != Some("transfer") && o.body.action != Some("hangup") ==>
      Encode(Reaction(o)) == [Text(o.body.message), EndOfResponse]
  {
  }
}
