/**
 One relay connection of the call bridge. The connection's id is fixed when it
 opens; every relay message runs the message handler to completion, and the
 close handler sends the termination request. Sending a frame appends it to
 `outbox`; posting to the webhook appends to `requests`.
 */
module Bridge {
  import opened Protocol
  import opened Framing
  import opened Dispatch

  /** The number of speech requests in a request log (those that carry `from`). */
  function SpeechPosts(rs: seq<Request>): (n: nat)
  {
    if rs == [] then 0
    else SpeechPosts(rs[..|rs| - 1]) + (if rs[|rs| - 1].from.Some? then 1 else 0)
  }

  /**
   Every request in `rs` carries connection id `callId`, and a request without
   `from` is a termination request.
   */
  predicate Tagged(rs: seq<Request>, callId: string) {
    forall r :: r in rs ==> r.callId == callId && (r.from.None? ==> r.text == CallEnded)
  }

  class CallBridge {
    const callId: string
    var outbox: seq<Frame>
    var requests: seq<Request>
    /** The turns spoken so far, in order. */
    ghost var turns: seq<Turn>

    /**
     The outbox is exactly the frames of the spoken turns, one webhook speech
     request was posted per spoken turn, and every request carries this
     connection's id; a request without `from` is a termination request.
     This holds between handler runs, each of which is taken as one step.
     */
    ghost predicate Valid()
      reads this
    {
      && outbox == EncodeAll(turns)
      && SpeechPosts(requests) == |turns|
      && Tagged(requests, callId)
    }

    /** A new connection with id `id`, nothing sent and nothing posted. */
    constructor (id: string)
      ensures Valid()
      ensures callId == id && outbox == [] && requests == [] && turns == []
    {
      callId := id;
      outbox := [];
      requests := [];
      turns := [];
    }

    /** `ws.send`: one frame to the relay. */
    method Send(f: Frame)
      modifies this`outbox
      ensures outbox == old(outbox) + [f]
    {
      outbox := outbox + [f];
    }

    /** A webhook POST with body `r`. */
    method Post(r: Request)
      modifies this`requests
      ensures requests == old(requests) + [r]
    {
      requests := requests + [r];
    }

    /**
     The reply part of the message handler: the frames sent for the webhook's
     outcome `o`, with the error path of its `catch` block.
     */
    method Respond(o: Outcome)
      modifies this`outbox
      ensures outbox == old(outbox) + Encode(Reaction(o))
    {
      if o.Failed? || o.body.Null? {
        Send(Text(Some(Apology)));
        Send(EndOfResponse);
        return;
      }
      var reply := o.body;

      if reply.action == Some("transfer") {
        Send(Text(reply.message));
        Send(EndOfResponse);
        Send(Transfer(reply.transferTo));
        return;
      }

      if reply.action == Some("hangup") {
        Send(Text(reply.message));
        Send(EndOfResponse);
        Send(End);
        return;
      }

      Send(Text(reply.message));
      Send(EndOfResponse);
    }

    /** The message handler, for message `m` when the webhook answers `o`. */
    method HandleMessage(m: Inbound, o: Outcome)
      requires Valid()
      modifies this
      ensures Valid()
      ensures outbox == old(outbox) + Step(callId, m, o).sent
      ensures requests == old(requests) + Step(callId, m, o).posted
      ensures turns == old(turns) + (if Accepts(m) then [Reaction(o)] else [])
    {
      if m.kind == Some("speech") && m.text.Some? && m.text.value != "" {
        var from := if m.from.Some? && m.from.value != "" then m.from.value else UnknownCaller;
        Post(Request(callId, m.text.value, Some(from)));
        assert requests[..|requests| - 1] == old(requests);
        Respond(o);
        EncodeAllAppend(turns, [Reaction(o)]);
        assert EncodeAll([Reaction(o)]) == Encode(Reaction(o));
        turns := turns + [Reaction(o)];
      }
    }

    /** The close handler: the termination request, whose outcome `o` is ignored. */
    method HandleClose(o: Outcome)
      requires Valid()
      modifies this
      ensures Valid()
      ensures outbox == old(outbox) && turns == old(turns)
      ensures requests == old(requests) + [CloseRequest(callId)]
    {
      Post(Request(callId, CallEnded, None));
      assert requests[..|requests| - 1] == old(requests);
    }
  }

  /**
   Whatever messages and closes a connection has handled, its outbox reads
   back as whole turns, exactly the turns spoken, and each `transfer` or
   `end` frame in it directly follows an `end_of_response`.
   */
  lemma OutboxReadsAsTurns(b: CallBridge, i: nat)
    requires b.Valid()
    ensures DecodeAll(b.outbox) == Some(b.turns)
    ensures i < |b.outbox| && Terminal(b.outbox[i]) ==> i >= 2 && b.outbox[i - 1] == EndOfResponse
  {
    DecodeEncodeAll(b.turns);
    if i < |b.outbox| && Terminal(b.outbox[i]) {
      TerminalClosesTurn(b.turns, i);
    }
  }
}
