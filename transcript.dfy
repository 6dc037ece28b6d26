/**
 * The browser side of the protocol, client/src/useSocket.jsx: the
 * `transcriptions` state that the socket's `final` and `partial` listeners
 * update, and the wrappers that emit the client's requests.
 *
 * Each listener hands `setTranscriptions` an updater from the previous state
 * to the next; `Receive` is that updater, `Replay` applies a whole sequence of
 * received events.
 */
module Transcript {
  import Wire

  /** The `transcriptions` state: the pending partial result and the accumulated final text. */
  datatype Transcriptions = Transcriptions(partial: string, final: string)

  /** The state `useState` starts from. */
  const Initial := Transcriptions("", "")

  /** The event names the hook subscribes to on its socket. */
  const Subscriptions: seq<string> :=
    [Wire.FinalEvent, Wire.PartialEvent, Wire.TranscriberReadyEvent, Wire.ErrorEvent]

  /** One event the server sends, with its (string) payload. */
  datatype Incoming = Incoming(name: string, data: string)

  /**
   * The listener for a subscribed `event`: `final` appends a space and the
   * text and clears the partial result, `partial` replaces the partial
   * result, and every other subscribed name changes nothing.
   */
  function OnEvent(prev: Transcriptions, event: string, data: string): (r: Transcriptions)
    ensures prev.final <= r.final
    ensures r.final != prev.final <==> event == Wire.FinalEvent
    ensures event != Wire.FinalEvent && event != Wire.PartialEvent ==> r == prev
  {
    if event == Wire.FinalEvent then prev.(final := prev.final + " " + data, partial := "")
    else if event == Wire.PartialEvent then prev.(partial := data)
    else prev
  }

  /** An event reaches a listener only when its name is subscribed. */
  function Receive(prev: Transcriptions, e: Incoming): (r: Transcriptions)
    ensures e.name !in Subscriptions ==> r == prev
    ensures r != prev ==> e.name == Wire.FinalEvent || e.name == Wire.PartialEvent
    ensures r.final != prev.final <==> e.name == Wire.FinalEvent
  {
    if e.name in Subscriptions then OnEvent(prev, e.name, e.data) else prev
  }

  /** The state after receiving `events` in order. */
  function Replay(s: Transcriptions, events: seq<Incoming>): Transcriptions
    decreases |events|
  {
    if events == [] then s else Replay(Receive(s, events[0]), events[1..])
  }

  // ---------------------------------------------------------------------
  // Independent descriptions of the outcome
  // ---------------------------------------------------------------------

  /** The texts of the `final` events, in order. */
  function FinalTexts(events: seq<Incoming>): seq<string>
    decreases |events|
  {
    if events == [] then []
    else (if events[0].name == Wire.FinalEvent then [events[0].data] else []) + FinalTexts(events[1..])
  }

  /** Each text preceded by one space, all joined. */
  function Spaced(texts: seq<string>): string
    decreases |texts|
  {
    if texts == [] then "" else " " + texts[0] + Spaced(texts[1..])
  }

  /** Neither `partial` nor `final`: an event no updater reacts to. */
  predicate Inert(e: Incoming)
  {
    e.name != Wire.FinalEvent && e.name != Wire.PartialEvent
  }

  // ---------------------------------------------------------------------
  // Single events
  // ---------------------------------------------------------------------

  /** A `partial` replaces the partial result with the payload and leaves the final text alone. */
  lemma PartialReplaces(s: Transcriptions, data: string)
    ensures Receive(s, Incoming(Wire.PartialEvent, data)) == Transcriptions(data, s.final)
  {
  }

  /**
   * A `final` appends a space and the payload, so the old final text is a
   * prefix of the new one, which is exactly `1 + |data|` longer; the partial
   * result is cleared.
   */
  lemma FinalAppends(s: Transcriptions, data: string)
    ensures var t := Receive(s, Incoming(Wire.FinalEvent, data));
      && t.partial == ""
      && t.final == s.final + " " + data
      && s.final <= t.final
      && |t.final| == |s.final| + 1 + |data|
  {
  }

  /** `transcriber-ready`, `error` and every unsubscribed name leave the state unchanged. */
  lemma InertIgnored(s: Transcriptions, e: Incoming)
    requires Inert(e)
    ensures Receive(s, e) == s
  {
  }

  /** Two consecutive partials leave only the second. */
  lemma LatestPartialWins(s: Transcriptions, first: string, second: string)
    ensures Replay(s, [Incoming(Wire.PartialEvent, first), Incoming(Wire.PartialEvent, second)])
         == Transcriptions(second, s.final)
  {
    var events := [Incoming(Wire.PartialEvent, first), Incoming(Wire.PartialEvent, second)];
    var mid := Receive(s, events[0]);
    assert mid == Transcriptions(first, s.final);
    assert events[1..] == [events[1]] && events[1..][1..] == [];
    assert Replay(mid, events[1..]) == Replay(Receive(mid, events[1]), []);
  }

  /** A partial followed by a final leaves no partial and a final text that ends with the final's text. */
  lemma PartialThenFinal(s: Transcriptions, interim: string, text: string)
    ensures var t := Replay(s, [Incoming(Wire.PartialEvent, interim), Incoming(Wire.FinalEvent, text)]);
      && t.partial == ""
      && |text| <= |t.final| && t.final[|t.final| - |text|..] == text
  {
    var events := [Incoming(Wire.PartialEvent, interim), Incoming(Wire.FinalEvent, text)];
    var mid := Receive(s, events[0]);
    assert mid.final == s.final;
    assert events[1..] == [events[1]] && events[1..][1..] == [];
    var t := Receive(mid, events[1]);
    assert Replay(s, events) == Replay(t, []) == t;
    assert t.final == s.final + " " + text;
    assert t.final[|t.final| - |text|..] == text;
  }

  /** From the initial state, one final yields a space followed by its text. */
  lemma FirstFinal(text: string)
    ensures Replay(Initial, [Incoming(Wire.FinalEvent, text)]) == Transcriptions("", " " + text)
  {
    assert [Incoming(Wire.FinalEvent, text)][1..] == [];
  }

  // ---------------------------------------------------------------------
  // Whole sequences of events
  // ---------------------------------------------------------------------

  /** The final text is the old final text followed by every final's text, each after one space. */
  lemma {:induction false} ReplayFinal(s: Transcriptions, events: seq<Incoming>)
    ensures Replay(s, events).final == s.final + Spaced(FinalTexts(events))
    decreases |events|
  {
    if events != [] {
      var e := events[0];
      var rest := events[1..];
      ReplayFinal(Receive(s, e), rest);
      if e.name == Wire.FinalEvent {
        var texts := [e.data] + FinalTexts(rest);
        assert FinalTexts(events) == texts;
        assert texts[0] == e.data && texts[1..] == FinalTexts(rest);
        assert Spaced(texts) == " " + e.data + Spaced(FinalTexts(rest));
        assert s.final + " " + e.data + Spaced(FinalTexts(rest)) == s.final + Spaced(texts);
      } else {
        assert FinalTexts(events) == [] + FinalTexts(rest) == FinalTexts(rest);
        assert Receive(s, e).final == s.final;
      }
    }
  }

  /** Collecting final texts distributes over concatenation. */
  lemma {:induction false} FinalTextsAppend(a: seq<Incoming>, b: seq<Incoming>)
    ensures FinalTexts(a + b) == FinalTexts(a) + FinalTexts(b)
    decreases |a|
  {
    if a != [] {
      assert (a + b)[1..] == a[1..] + b;
      FinalTextsAppend(a[1..], b);
    } else {
      assert a + b == b;
    }
  }

  /** The final text only grows: the old one is always a prefix of the new one. */
  lemma FinalOnlyGrows(s: Transcriptions, events: seq<Incoming>)
    ensures s.final <= Replay(s, events).final
  {
    ReplayFinal(s, events);
  }

  /** Events no updater reacts to leave the state exactly as it was. */
  lemma {:induction false} ReplayInert(s: Transcriptions, events: seq<Incoming>)
    requires forall k :: 0 <= k < |events| ==> Inert(events[k])
    ensures Replay(s, events) == s
    decreases |events|
  {
    if events != [] {
      InertIgnored(s, events[0]);
      ReplayInert(s, events[1..]);
    }
  }

  /** When the last partial-or-final event is a `partial`, its payload is what is shown as partial. */
  lemma {:induction false} ReplayPartialLast(s: Transcriptions, events: seq<Incoming>, k: nat)
    requires k < |events| && events[k].name == Wire.PartialEvent
    requires forall j :: k < j < |events| ==> Inert(events[j])
    ensures Replay(s, events).partial == events[k].data
    decreases |events|
  {
    if k == 0 {
      ReplayInert(Receive(s, events[0]), events[1..]);
    } else {
      ReplayPartialLast(Receive(s, events[0]), events[1..], k - 1);
    }
  }

  /** When the last partial-or-final event is a `final`, no partial result remains. */
  lemma {:induction false} ReplayPartialCleared(s: Transcriptions, events: seq<Incoming>, k: nat)
    requires k < |events| && events[k].name == Wire.FinalEvent
    requires forall j :: k < j < |events| ==> Inert(events[j])
    ensures Replay(s, events).partial == ""
    decreases |events|
  {
    if k == 0 {
      ReplayInert(Receive(s, events[0]), events[1..]);
    } else {
      ReplayPartialCleared(Receive(s, events[0]), events[1..], k - 1);
    }
  }

  // ---------------------------------------------------------------------
  // The emit wrappers
  // ---------------------------------------------------------------------

  /** The hook's `socket` state: null until the mount effect has created one. */
  type SocketId = nat

  /** `sendAudio`: `incoming-audio` with the data, if there is a socket. */
  function SendAudio(socket: Wire.Option<SocketId>, audioData: Wire.Value): (r: seq<Wire.Upstream>)
    ensures |r| <= 1 && (r != [] <==> socket.Some?)
    ensures forall k :: 0 <= k < |r| ==> r[k] == Wire.IncomingAudio(audioData)
  {
    if socket.Some? then [Wire.IncomingAudio(audioData)] else []
  }

  /** The payload `{ sampleRate }` that `configureStream` sends. */
  function ConfigurePayload(sampleRate: Wire.Value): (r: Wire.Value)
    ensures r.Object? && r.fields.Keys == {"sampleRate"}
  {
    Wire.Object(map["sampleRate" := sampleRate])
  }

  /** `configureStream`: `configure-stream` with `{ sampleRate }`, if there is a socket. */
  function ConfigureStream(socket: Wire.Option<SocketId>, sampleRate: Wire.Value): (r: seq<Wire.Upstream>)
    ensures |r| <= 1 && (r != [] <==> socket.Some?)
    ensures forall k :: 0 <= k < |r| ==> r[k] == Wire.ConfigureStream(ConfigurePayload(sampleRate))
  {
    if socket.Some? then [Wire.ConfigureStream(ConfigurePayload(sampleRate))] else []
  }

  /** `stopStream`: `stop-stream` without a payload, if there is a socket. */
  function StopStream(socket: Wire.Option<SocketId>): (r: seq<Wire.Upstream>)
    ensures |r| <= 1 && (r != [] <==> socket.Some?)
    ensures forall k :: 0 <= k < |r| ==> r[k] == Wire.StopStream
  {
    if socket.Some? then [Wire.StopStream] else []
  }

  /** `disconnect`: closes the socket, which the server sees as `disconnect`, if there is a socket. */
  function Disconnect(socket: Wire.Option<SocketId>): (r: seq<Wire.Upstream>)
    ensures |r| <= 1 && (r != [] <==> socket.Some?)
    ensures forall k :: 0 <= k < |r| ==> r[k] == Wire.Upstream.Disconnect
  {
    if socket.Some? then [Wire.Upstream.Disconnect] else []
  }
}
