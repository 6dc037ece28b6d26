/**
 * The two halves of the protocol put together: what the browser hook emits
 * is what the server handler receives, and what the handler relays is what
 * the hook's listeners apply to the transcript.
 */
module EndToEnd {
  import opened Wire
  import Session
  import Transcript

  /**
   * The server's state after the messages a client emitted have been handled
   * in order. Every `configure-stream` among them sees the same `start`
   * outcome, so this is meant for the single-message deliveries of one
   * wrapper call, which is how the lemmas below use it.
   */
  function Deliver(s: Session.State, msgs: seq<Upstream>, start: Session.StartOutcome): Session.State
    decreases |msgs|
  {
    if msgs == [] then s
    else Deliver(Session.Step(s, Session.FromClient(msgs[0], start)), msgs[1..], start)
  }

  /** The `{ sampleRate }` object the client builds destructures back to exactly that sample rate on the server. */
  lemma ConfigurePayloadRoundTrip(rate: Value)
    ensures GetProperty(Transcript.ConfigurePayload(rate), "sampleRate") == Success(rate)
  {
  }

  /**
   * `configureStream(r)` on a client with a socket makes the server
   * construct a new transcriber and start it with exactly `r`.
   */
  lemma ConfigureStreamStartsWithRate(s: Session.State, socket: Transcript.SocketId, rate: Value,
                                      start: Session.StartOutcome)
    ensures var t := Deliver(s, Transcript.ConfigureStream(Some(socket), rate), start);
      && t.transcriber == Some(s.created)
      && t.calls == s.calls + [Session.Call(s.created, Session.New), Session.Call(s.created, Session.Start(rate))]
  {
    var msgs := Transcript.ConfigureStream(Some(socket), rate);
    ConfigurePayloadRoundTrip(rate);
    assert msgs[1..] == [];
  }

  /** `sendAudio(d)` reaches the current transcriber's `send` with the same `d`. */
  lemma SendAudioForwarded(s: Session.State, socket: Transcript.SocketId, audio: Value,
                           start: Session.StartOutcome)
    requires s.transcriber.Some?
    ensures Deliver(s, Transcript.SendAudio(Some(socket), audio), start).calls
         == s.calls + [Session.Call(s.transcriber.value, Session.Send(audio))]
  {
    assert Transcript.SendAudio(Some(socket), audio)[1..] == [];
  }

  /** `stopStream()` ends the current transcriber. */
  lemma StopStreamEnds(s: Session.State, socket: Transcript.SocketId, start: Session.StartOutcome)
    requires s.transcriber.Some?
    ensures Deliver(s, Transcript.StopStream(Some(socket)), start).calls
         == s.calls + [Session.Call(s.transcriber.value, Session.End)]
  {
    assert Transcript.StopStream(Some(socket))[1..] == [];
  }

  /** `disconnect()` closes the socket, and the server ends its current transcriber. */
  lemma DisconnectEnds(s: Session.State, socket: Transcript.SocketId, start: Session.StartOutcome)
    requires s.transcriber.Some?
    ensures Deliver(s, Transcript.Disconnect(Some(socket)), start).calls
         == s.calls + [Session.Call(s.transcriber.value, Session.End)]
  {
    assert Transcript.Disconnect(Some(socket))[1..] == [];
  }

  /** Without a socket none of the wrappers emits anything, so the server is not affected. */
  lemma NoSocketNoEffect(s: Session.State, rate: Value, audio: Value, start: Session.StartOutcome)
    ensures Deliver(s, Transcript.ConfigureStream(None, rate), start) == s
    ensures Deliver(s, Transcript.SendAudio(None, audio), start) == s
    ensures Deliver(s, Transcript.StopStream(None), start) == s
    ensures Deliver(s, Transcript.Disconnect(None), start) == s
  {
  }

  // ---------------------------------------------------------------------
  // Transcripts from the transcriber to the client's state
  // ---------------------------------------------------------------------

  /** Transcriber events whose payloads are strings. */
  ghost predicate TextEvents(events: seq<Session.Input>)
  {
    forall k :: 0 <= k < |events| ==> events[k].TranscriberEvent? && events[k].payload.Text?
  }

  /** Server emissions whose payloads are strings. */
  ghost predicate TextEmissions(ds: seq<Downstream>)
  {
    forall k :: 0 <= k < |ds| ==> ds[k].payload.Text?
  }

  /** What the client's listeners receive for the server's emissions. */
  function Decoded(ds: seq<Downstream>): (r: seq<Transcript.Incoming>)
    requires TextEmissions(ds)
    ensures |r| == |ds|
    decreases |ds|
  {
    if ds == [] then [] else [Transcript.Incoming(ds[0].name, ds[0].payload.s)] + Decoded(ds[1..])
  }

  /** The texts of the transcriber's `final` events, in the order it produced them. */
  function TranscriberFinals(events: seq<Session.Input>): seq<string>
    requires TextEvents(events)
    decreases |events|
  {
    if events == [] then []
    else (if events[0].name == FinalEvent then [events[0].payload.s] else []) + TranscriberFinals(events[1..])
  }

  /** Relaying keeps string payloads strings. */
  lemma {:induction false} RelayedKeepsText(events: seq<Session.Input>)
    requires TextEvents(events)
    ensures TextEmissions(Session.Relayed(events))
    decreases |events|
  {
    if events != [] {
      RelayedKeepsText(events[1..]);
    }
  }

  /** The relay neither drops, adds nor reorders `final` texts. */
  lemma {:induction false} FinalsSurviveRelay(events: seq<Session.Input>)
    requires TextEvents(events)
    ensures TextEmissions(Session.Relayed(events))
    ensures Transcript.FinalTexts(Decoded(Session.Relayed(events))) == TranscriberFinals(events)
    decreases |events|
  {
    RelayedKeepsText(events);
    if events != [] {
      var e := events[0];
      var rest := events[1..];
      FinalsSurviveRelay(rest);
      var head := if e.name in Session.RelayedNames then [Downstream(e.name, e.payload)] else [];
      assert Session.Relayed(events) == head + Session.Relayed(rest);
      DecodedAppend(head, Session.Relayed(rest));
      Transcript.FinalTextsAppend(Decoded(head), Decoded(Session.Relayed(rest)));
      if e.name == FinalEvent {
        assert e.name in Session.RelayedNames;
        assert Decoded(head) == [Transcript.Incoming(e.name, e.payload.s)];
        assert Decoded(head)[1..] == [];
      }
    }
  }

  lemma {:induction false} DecodedAppend(a: seq<Downstream>, b: seq<Downstream>)
    requires TextEmissions(a) && TextEmissions(b)
    ensures TextEmissions(a + b) && Decoded(a + b) == Decoded(a) + Decoded(b)
    decreases |a|
  {
    if a != [] {
      assert (a + b)[1..] == a[1..] + b;
      DecodedAppend(a[1..], b);
    } else {
      assert a + b == b;
    }
  }

  /**
   * When a transcriber with listeners produces string transcripts, the
   * client's final text becomes its old final text followed by each `final`
   * text, in the order the transcriber produced them, each after one space.
   */
  lemma FinalsReachClient(s: Session.State, c: Transcript.Transcriptions, events: seq<Session.Input>)
    requires TextEvents(events)
    requires forall k :: 0 <= k < |events| ==> events[k].source in s.listening
    ensures var sent := Session.Relayed(events);
      && Session.Run(s, events).emitted == s.emitted + sent
      && TextEmissions(sent)
      && Transcript.Replay(c, Decoded(sent)).final == c.final + Transcript.Spaced(TranscriberFinals(events))
  {
    Session.RelayInOrder(s, events);
    FinalsSurviveRelay(events);
    Transcript.ReplayFinal(c, Decoded(Session.Relayed(events)));
  }
}
