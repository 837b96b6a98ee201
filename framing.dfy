/**
 How one spoken turn is written to the relay as frames, and how a reader of
 the stream the bridge writes splits it back into turns. The bridge always writes the text, then
 `end_of_response`, then at most one terminal frame; every turn therefore
 begins with the only `text` frame it contains, which makes the stream readable
 turn by turn.
 */
module Framing {
  import opened Protocol

  /** What follows the spoken text of a turn. */
  datatype Next = Continue | HandOff(handoff: Option<string>) | HangUp

  /** One spoken turn: the token to speak and what follows it. */
  datatype Turn = Turn(token: Option<string>, next: Next)

  /** The frames of one turn, in the order the bridge sends them. */
  function Encode(t: Turn): (fs: seq<Frame>)
    ensures |fs| == if t.next.Continue? then 2 else 3
    ensures fs[0] == Text(t.token) && fs[1] == EndOfResponse
    ensures forall i :: 0 < i < |fs| ==> !fs[i].Text? && (i != 1 ==> fs[i] != EndOfResponse)
    ensures forall i :: 0 <= i < |fs| && Terminal(fs[i]) ==> i == |fs| - 1
    ensures t.next.HandOff? ==> fs[|fs| - 1] == Transfer(t.next.handoff)
    ensures t.next.HangUp? ==> fs[|fs| - 1] == End
  {
    [Text(t.token), EndOfResponse] +
    match t.next
    case Continue => []
    case HandOff(h) => [Transfer(h)]
    case HangUp => [End]
  }

  /** The frames of several turns sent one after another. */
  function EncodeAll(ts: seq<Turn>): (fs: seq<Frame>)
  {
    if ts == [] then [] else Encode(ts[0]) + EncodeAll(ts[1..])
  }

  /** True when `fs` begins with a `text` frame followed by `end_of_response`. */
  predicate StartsTurn(fs: seq<Frame>) {
    |fs| >= 2 && fs[0].Text? && fs[1] == EndOfResponse
  }

  /**
   The turn at the front of the frame stream `fs`, read back by a reader of
   that stream, and how many frames it takes: a `transfer` or `end` right after the `end_of_response` belongs to it.
   */
  ghost function FirstTurn(fs: seq<Frame>): (r: (Turn, nat))
    requires StartsTurn(fs)
    ensures 2 <= r.1 <= |fs|
  {
    if |fs| > 2 && fs[2].Transfer? then (Turn(fs[0].token, HandOff(fs[2].handoff)), 3)
    else if |fs| > 2 && fs[2].End? then (Turn(fs[0].token, HangUp), 3)
    else (Turn(fs[0].token, Continue), 2)
  }

  /**
   A frame stream read back as whole turns, as a reader of the stream the
   bridge writes would split it; `None` when the stream is not made of whole
   turns.
   */
  ghost function DecodeAll(fs: seq<Frame>): (r: Option<seq<Turn>>)
    decreases |fs|
  {
    if fs == [] then Some([])
    else if !StartsTurn(fs) then None
    else
      var (t, n) := FirstTurn(fs);
      match DecodeAll(fs[n..])
      case None => None
      case Some(rest) => Some([t] + rest)
  }

  /** Sending turns in two batches sends the same frames as sending them at once. */
  lemma {:induction false} EncodeAllAppend(a: seq<Turn>, b: seq<Turn>)
    ensures EncodeAll(a + b) == EncodeAll(a) + EncodeAll(b)
  {
    if a == [] {
      assert a + b == b;
    } else {
      assert (a + b)[0] == a[0];
      assert (a + b)[1..] == a[1..] + b;
      EncodeAllAppend(a[1..], b);
    }
  }

  /** A non-empty stream of whole turns begins with a `text` frame. */
  lemma EncodeAllStartsWithText(ts: seq<Turn>)
    ensures EncodeAll(ts) == [] <==> ts == []
    ensures ts != [] ==> EncodeAll(ts)[0] == Text(ts[0].token)
  {
  }

  /** The bridge's frame stream reads back as exactly the turns it sent. */
  lemma {:induction false} DecodeEncodeAll(ts: seq<Turn>)
    ensures DecodeAll(EncodeAll(ts)) == Some(ts)
  {
    if ts != [] {
      var head, rest := Encode(ts[0]), EncodeAll(ts[1..]);
      var fs := head + rest;
      assert fs == EncodeAll(ts);
      EncodeAllStartsWithText(ts[1..]);
      assert FirstTurn(fs) == (ts[0], |head|);
      assert fs[|head|..] == rest;
      DecodeEncodeAll(ts[1..]);
      assert [ts[0]] + ts[1..] == ts;
    }
  }

  /** The turn read at the front of a stream is encoded by exactly the frames it takes. */
  lemma FirstTurnEncodes(fs: seq<Frame>)
    requires StartsTurn(fs)
    ensures Encode(FirstTurn(fs).0) == fs[..FirstTurn(fs).1]
  {
  }

  /** A stream read as whole turns is its first turn followed by a stream read as the rest. */
  lemma DecodeFirst(fs: seq<Frame>, ts: seq<Turn>)
    requires fs != [] && DecodeAll(fs) == Some(ts)
    ensures StartsTurn(fs) && ts != [] && ts[0] == FirstTurn(fs).0
    ensures DecodeAll(fs[FirstTurn(fs).1..]) == Some(ts[1..])
  {
  }

  /** The frames of a first turn followed by those of the other turns are the frames of all the turns. */
  lemma {:induction false} Reassemble(fs: seq<Frame>, ts: seq<Turn>, n: nat)
    requires ts != [] && n <= |fs|
    requires Encode(ts[0]) == fs[..n] && EncodeAll(ts[1..]) == fs[n..]
    ensures EncodeAll(ts) == fs
  {
    calc {
      EncodeAll(ts);
      Encode(ts[0]) + EncodeAll(ts[1..]);
      fs[..n] + fs[n..];
    }
  }

  /** A stream that reads back as whole turns is exactly those turns' frames. */
  lemma {:induction false} EncodeDecodeAll(fs: seq<Frame>, ts: seq<Turn>)
    requires DecodeAll(fs) == Some(ts)
    ensures EncodeAll(ts) == fs
    decreases |fs|
  {
    if fs != [] {
      DecodeFirst(fs, ts);
      FirstTurnEncodes(fs);
      var n := FirstTurn(fs).1;
      EncodeDecodeAll(fs[n..], ts[1..]);
      Reassemble(fs, ts, n);
    }
  }

  /**
   In any stream of whole turns, a `transfer` or `end` frame directly follows
   an `end_of_response`, and only a new turn's `text` can come after it.
   */
  lemma {:induction false} TerminalClosesTurn(ts: seq<Turn>, i: nat)
    requires i < |EncodeAll(ts)| && Terminal(EncodeAll(ts)[i])
    ensures i >= 2 && EncodeAll(ts)[i - 1] == EndOfResponse
    ensures i + 1 < |EncodeAll(ts)| ==> EncodeAll(ts)[i + 1].Text?
    decreases ts
  {
    var head, rest := Encode(ts[0]), EncodeAll(ts[1..]);
    assert EncodeAll(ts) == head + rest;
    if i < |head| {
      EncodeAllStartsWithText(ts[1..]);
    } else {
      assert EncodeAll(ts[1..])[i - |head|] == EncodeAll(ts)[i];
      TerminalClosesTurn(ts[1..], i - |head|);
    }
  }
}
