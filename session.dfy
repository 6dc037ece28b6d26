/**
 * The per-connection handler of server/websocket.js.
 *
 * Every socket connection owns one mutable slot, `transcriber`, and four
 * client events drive it: `configure-stream`, `incoming-audio`, `stop-stream`
 * and `disconnect`. The transcriber itself is an opaque collaborator: the
 * model records every call made on it (construction, start, send, end) and
 * every event the handler emits back to the client, and treats each handler,
 * including the `await` on start, as one atomic step.
 *
 * `Step` is the specification of one step on an immutable `State`;
 * `Connection` is the handler written imperatively, proved against `Step`.
 */
module Session {
  import opened Wire

  /** Transcribers are told apart by the order in which they were constructed. */
  type TranscriberId = nat

  /** A call the handler makes on a transcriber. */
  datatype Op =
    | New                       // `new Transcriber()`
    | Start(sampleRate: Value)  // `startTranscriptionStream(sampleRate)`
    | Send(audio: Value)        // `send(audioData)`
    | End                       // `endTranscriptionStream()`

  datatype Call = Call(target: TranscriberId, op: Op)

  /** How the collaborator's `startTranscriptionStream` completes. */
  datatype StartOutcome =
    | Started
    | Threw(error: Value)    // what it threw or rejected with

  /** What the handler writes to the server console. */
  datatype ConsoleLine =
    | ConnectionMade
    | InitError(error: Value)
    | TranscriberReady
    | NotConfiguredWarning
    | ConnectionClosed

  /** One atomic step of the connection. */
  datatype Input =
    | Configure(payload: Value, start: StartOutcome)
    | Audio(audio: Value)
    | Stop
    | Disconnect
    | TranscriberEvent(source: TranscriberId, name: string, payload: Value)

  /**
   * The state of one connection: the `transcriber` slot, the number of
   * transcribers constructed so far, the transcribers whose relay listeners
   * are attached, and the logs of calls, emitted events and console lines.
   */
  datatype State = State(
    transcriber: Option<TranscriberId>,
    created: nat,
    listening: set<TranscriberId>,
    calls: seq<Call>,
    emitted: seq<Downstream>,
    console: seq<ConsoleLine>)

  /** The connection right after `io.on('connection', ...)` has run its prologue. */
  const Initial := State(None, 0, {}, [], [], [ConnectionMade])

  /** The transcriber events that have a relaying listener. */
  const RelayedNames: set<string> := {PartialEvent, FinalEvent, ErrorEvent}

  /** The input a client message becomes; `start` matters only for `configure-stream`. */
  function FromClient(msg: Upstream, start: StartOutcome): Input
  {
    match msg
    case ConfigureStream(payload) => Configure(payload, start)
    case IncomingAudio(audio) => Audio(audio)
    case StopStream => Stop
    case Disconnect => Input.Disconnect
  }

  // ---------------------------------------------------------------------
  // The specification of one step
  // ---------------------------------------------------------------------

  /**
   * `configure-stream`: the parameter pattern `{ sampleRate }` rejects an
   * undefined or null payload before the body runs; otherwise a new
   * transcriber is constructed and stored, then started. If start throws,
   * the error is logged, no listener is attached, and the client gets `error`
   * with the error's `message`; reading `message` of an undefined or null
   * error throws in turn, so then nothing is emitted and the handler's
   * promise rejects.
   */
  function OnConfigureStream(s: State, payload: Value, start: StartOutcome): (r: State)
    ensures s.calls <= r.calls && s.emitted <= r.emitted && s.console <= r.console
    ensures s.listening <= r.listening && |r.emitted| <= |s.emitted| + 1
    ensures r.transcriber == s.transcriber || r.transcriber == Some(s.created)
  {
    match GetProperty(payload, "sampleRate")
    case Failure(_) => s
    case Success(sampleRate) =>
      var id := s.created;
      var installed := s.(transcriber := Some(id), created := id + 1,
                          calls := s.calls + [Call(id, New), Call(id, Start(sampleRate))]);
      match start
      case Threw(error) =>
        var logged := installed.(console := s.console + [InitError(error)]);
        (match GetProperty(error, "message")
         case Failure(_) => logged
         case Success(message) => logged.(emitted := s.emitted + [Downstream(ErrorEvent, message)]))
      case Started =>
        installed.(listening := s.listening + {id})
  }

  /** `incoming-audio`: forward the payload to the current transcriber, if any. */
  function OnIncomingAudio(s: State, audio: Value): (r: State)
    ensures r.(calls := s.calls) == s && s.calls <= r.calls
  {
    match s.transcriber
    case Some(id) => s.(calls := s.calls + [Call(id, Send(audio))])
    case None => s
  }

  /** `stop-stream`: end the current transcriber, if any, without clearing the slot; otherwise warn. */
  function OnStopStream(s: State): (r: State)
    ensures r.transcriber == s.transcriber && r.emitted == s.emitted && r.listening == s.listening
    ensures s.calls <= r.calls && s.console <= r.console
  {
    match s.transcriber
    case Some(id) => s.(calls := s.calls + [Call(id, End)])
    case None => s.(console := s.console + [NotConfiguredWarning])
  }

  /** `disconnect`: log, then end the current transcriber, if any. */
  function OnDisconnect(s: State): (r: State)
    ensures r.transcriber == s.transcriber && r.emitted == s.emitted && r.listening == s.listening
    ensures s.calls <= r.calls && s.console < r.console
  {
    var logged := s.(console := s.console + [ConnectionClosed]);
    match s.transcriber
    case Some(id) => logged.(calls := s.calls + [Call(id, End)])
    case None => logged
  }

  /**
   * A transcriber emits `name` with `payload`. Only a transcriber whose start
   * succeeded has listeners: `partial`, `final` and `error` are re-emitted to
   * the client unchanged, `transcriber-ready` is only logged, and any other
   * name has no listener.
   */
  function OnTranscriberEvent(s: State, source: TranscriberId, name: string, payload: Value): (r: State)
    ensures r.(emitted := s.emitted, console := s.console) == s
    ensures s.emitted <= r.emitted && s.console <= r.console
  {
    if source !in s.listening then s
    else if name in RelayedNames then s.(emitted := s.emitted + [Downstream(name, payload)])
    else if name == TranscriberReadyEvent then s.(console := s.console + [TranscriberReady])
    else s
  }

  /** One step of the connection; its logs only grow and its listeners are never removed. */
  function Step(s: State, input: Input): (r: State)
    ensures s.calls <= r.calls && s.emitted <= r.emitted && s.console <= r.console
    ensures s.listening <= r.listening && s.created <= r.created
  {
    match input
    case Configure(payload, start) => OnConfigureStream(s, payload, start)
    case Audio(audio) => OnIncomingAudio(s, audio)
    case Stop => OnStopStream(s)
    case Disconnect => OnDisconnect(s)
    case TranscriberEvent(source, name, payload) => OnTranscriberEvent(s, source, name, payload)
  }

  /** The state reached by handling `inputs` in order. */
  function Run(s: State, inputs: seq<Input>): (r: State)
    ensures s.calls <= r.calls && s.emitted <= r.emitted && s.console <= r.console
    ensures s.listening <= r.listening && s.created <= r.created
    decreases |inputs|
  {
    if inputs == [] then s
    else
      Run(Step(s, inputs[0]), inputs[1..])
  }


  // ---------------------------------------------------------------------
  // The invariant every reachable state keeps
  // ---------------------------------------------------------------------

  /** The transcriber constructed last in `calls`, if any. */
  function LatestNew(calls: seq<Call>): Option<TranscriberId>
    decreases |calls|
  {
    if calls == [] then None
    else
      var last := calls[|calls| - 1];
      if last.op.New? then Some(last.target) else LatestNew(calls[..|calls| - 1])
  }

  /** `LatestNew` finds the last construction, and finds none only when there is none. */
  lemma {:induction false} LatestNewIsLast(calls: seq<Call>)
    ensures LatestNew(calls).None? <==> forall i :: 0 <= i < |calls| ==> !calls[i].op.New?
    ensures LatestNew(calls).Some? ==>
      exists i :: 0 <= i < |calls| && calls[i] == Call(LatestNew(calls).value, New)
                  && forall j :: i < j < |calls| ==> !calls[j].op.New?
    decreases |calls|
  {
    if calls != [] {
      var prefix := calls[..|calls| - 1];
      LatestNewIsLast(prefix);
      if !calls[|calls| - 1].op.New? {
        assert forall i :: 0 <= i < |prefix| ==> prefix[i] == calls[i];
        if LatestNew(prefix).Some? {
          var i :| 0 <= i < |prefix| && prefix[i] == Call(LatestNew(prefix).value, New)
                   && forall j :: i < j < |prefix| ==> !prefix[j].op.New?;
          assert calls[i] == Call(LatestNew(calls).value, New);
        }
      }
    }
  }

  /** Every transcriber is constructed with an id larger than any it has seen before. */
  ghost predicate NewIsFresh(calls: seq<Call>)
  {
    forall i, j :: 0 <= j < i < |calls| && calls[i].op.New? ==> calls[j].target < calls[i].target
  }

  /**
   * Each start comes right after the construction of the same transcriber,
   * and each construction is followed by its start.
   */
  ghost predicate StartedOnConstruction(calls: seq<Call>)
  {
    && (|calls| > 0 ==> !calls[0].op.Start? && !calls[|calls| - 1].op.New?)
    && forall i, j :: 0 <= i && j == i + 1 && j < |calls| ==>
         && (calls[j].op.Start? <==> calls[i].op.New?)
         && (calls[j].op.Start? ==> calls[j].target == calls[i].target)
  }

  /** Every call other than a construction goes to the transcriber constructed last before it. */
  ghost predicate ActsOnLatest(calls: seq<Call>)
  {
    forall i :: 0 <= i < |calls| && !calls[i].op.New? ==> LatestNew(calls[..i]) == Some(calls[i].target)
  }

  /** The call log of a connection that has constructed `created` transcribers. */
  ghost predicate CallLog(calls: seq<Call>, created: nat)
  {
    && (forall i :: 0 <= i < |calls| ==> calls[i].target < created)
    && NewIsFresh(calls)
    && StartedOnConstruction(calls)
    && ActsOnLatest(calls)
  }

  ghost predicate Wellformed(s: State)
  {
    && CallLog(s.calls, s.created)
    && s.transcriber == LatestNew(s.calls)
    && (forall id :: id in s.listening ==> id < s.created)
    && (forall k :: 0 <= k < |s.emitted| ==> s.emitted[k].name in RelayedNames)
  }

  lemma InitialWellformed()
    ensures Wellformed(Initial)
  {
  }

  lemma {:induction false} LatestNewAppend(calls: seq<Call>, more: seq<Call>)
    requires forall j :: 0 <= j < |more| ==> !more[j].op.New?
    ensures LatestNew(calls + more) == LatestNew(calls)
    decreases |more|
  {
    if more != [] {
      var shorter := calls + more[..|more| - 1];
      assert (calls + more)[..|calls + more| - 1] == shorter;
      LatestNewAppend(calls, more[..|more| - 1]);
    } else {
      assert calls + more == calls;
    }
  }

  /** Appending a call to the current transcriber (a send or an end) keeps the log well formed. */
  lemma {:induction false} AppendToCurrentKeeps(calls: seq<Call>, created: nat, id: TranscriberId, op: Op)
    requires CallLog(calls, created) && LatestNew(calls) == Some(id)
    requires op.Send? || op.End?
    ensures CallLog(calls + [Call(id, op)], created)
    ensures LatestNew(calls + [Call(id, op)]) == Some(id)
  {
    var calls' := calls + [Call(id, op)];
    assert calls'[..|calls|] == calls;
    LatestNewAppend(calls, [Call(id, op)]);
    assert ActsOnLatest(calls') by {
      forall i | 0 <= i < |calls'| && !calls'[i].op.New?
        ensures LatestNew(calls'[..i]) == Some(calls'[i].target)
      {
        if i < |calls| {
          assert calls'[..i] == calls[..i];
        }
      }
    }
  }

  /** Constructing and starting a fresh transcriber keeps the log well formed and makes it the latest. */
  lemma {:induction false} ConstructKeeps(calls: seq<Call>, created: nat, rate: Value)
    requires CallLog(calls, created)
    ensures CallLog(calls + [Call(created, New), Call(created, Start(rate))], created + 1)
    ensures LatestNew(calls + [Call(created, New), Call(created, Start(rate))]) == Some(created)
  {
    var calls' := calls + [Call(created, New), Call(created, Start(rate))];
    assert calls'[..|calls'| - 1] == calls + [Call(created, New)];
    assert LatestNew(calls + [Call(created, New)]) == Some(created);
    assert ActsOnLatest(calls') by {
      forall i | 0 <= i < |calls'| && !calls'[i].op.New?
        ensures LatestNew(calls'[..i]) == Some(calls'[i].target)
      {
        if i < |calls| {
          assert calls'[..i] == calls[..i];
        } else if i == |calls| + 1 {
          assert calls'[..i] == calls + [Call(created, New)];
        }
      }
    }
  }

  lemma ConfigureKeepsWellformed(s: State, payload: Value, start: StartOutcome)
    requires Wellformed(s)
    ensures Wellformed(OnConfigureStream(s, payload, start))
  {
    var t := OnConfigureStream(s, payload, start);
    if GetProperty(payload, "sampleRate").Success? {
      var rate := GetProperty(payload, "sampleRate").value;
      ConstructKeeps(s.calls, s.created, rate);
      assert t.calls == s.calls + [Call(s.created, New), Call(s.created, Start(rate))];
      assert ErrorEvent in RelayedNames;
    }
  }

  lemma AppendKeepsWellformed(s: State, op: Op)
    requires Wellformed(s) && s.transcriber.Some?
    requires op.Send? || op.End?
    ensures Wellformed(s.(calls := s.calls + [Call(s.transcriber.value, op)]))
  {
    AppendToCurrentKeeps(s.calls, s.created, s.transcriber.value, op);
  }

  /** Every step keeps the invariant. */
  lemma {:induction false} StepKeepsWellformed(s: State, input: Input)
    requires Wellformed(s)
    ensures Wellformed(Step(s, input))
  {
    match input
    case Configure(payload, start) =>
      ConfigureKeepsWellformed(s, payload, start);
    case Audio(audio) =>
      if s.transcriber.Some? { AppendKeepsWellformed(s, Send(audio)); }
    case Stop =>
      if s.transcriber.Some? { AppendKeepsWellformed(s, End); }
    case Disconnect =>
      var logged := s.(console := s.console + [ConnectionClosed]);
      if s.transcriber.Some? { AppendKeepsWellformed(logged, End); }
    case TranscriberEvent(source, name, payload) =>
  }

  /** Every state a connection can reach keeps the invariant. */
  lemma {:induction false} RunKeepsWellformed(s: State, inputs: seq<Input>)
    requires Wellformed(s)
    ensures Wellformed(Run(s, inputs))
    decreases |inputs|
  {
    if inputs != [] {
      StepKeepsWellformed(s, inputs[0]);
      RunKeepsWellformed(Step(s, inputs[0]), inputs[1..]);
    }
  }

  // ---------------------------------------------------------------------
  // Properties of single steps
  // ---------------------------------------------------------------------

  /**
   * Every `configure-stream` whose payload can be destructured constructs a
   * brand-new transcriber and makes it current, starts it exactly once with
   * exactly the payload's `sampleRate`, and ends no transcriber, so the one
   * it replaces is left running.
   */
  lemma ConfigureReplaces(s: State, payload: Value, start: StartOutcome)
    requires Wellformed(s)
    requires !payload.Undefined? && !payload.Null?
    ensures var t := OnConfigureStream(s, payload, start);
      && t.transcriber == Some(s.created)
      && (forall i :: 0 <= i < |s.calls| ==> s.calls[i].target != s.created)
      && t.calls == s.calls + [Call(s.created, New), Call(s.created, Start(GetProperty(payload, "sampleRate").value))]
      && (forall i :: |s.calls| <= i < |t.calls| ==> !t.calls[i].op.End?)
  {
  }

  /**
   * When start succeeds, relaying is switched on for the new transcriber and
   * nothing is emitted. When it throws, the error is logged, no listener is
   * attached, and the transcriber still occupies the slot; the client gets
   * exactly one `error` carrying the error's `message`, unless the error is
   * undefined or null, in which case reading `message` fails and nothing is
   * emitted.
   */
  lemma ConfigureOutcome(s: State, payload: Value, start: StartOutcome)
    requires Wellformed(s)
    requires !payload.Undefined? && !payload.Null?
    ensures var t := OnConfigureStream(s, payload, start);
      && t.transcriber == Some(s.created)
      && (start.Started? ==> t.listening == s.listening + {s.created} && t.emitted == s.emitted)
      && (start.Threw? ==> t.listening == s.listening && s.created !in t.listening
                           && t.console == s.console + [InitError(start.error)])
      && (start.Threw? && (start.error.Undefined? || start.error.Null?) ==> t.emitted == s.emitted)
      && (start.Threw? && !start.error.Undefined? && !start.error.Null? ==>
            t.emitted == s.emitted + [Downstream(ErrorEvent, GetProperty(start.error, "message").value)])
  {
  }

  /**
   * The payload is not validated: an empty string destructures to an
   * undefined sample rate, which is passed straight to start, and no error
   * reaches the client.
   */
  lemma EmptyPayloadStillStarts(s: State)
    ensures var t := OnConfigureStream(s, Text(""), Started);
      && t.calls == s.calls + [Call(s.created, New), Call(s.created, Start(Undefined))]
      && t.emitted == s.emitted
  {
  }

  /** An undefined or null payload is rejected by the parameter pattern: nothing at all happens. */
  lemma UndestructurablePayloadIgnored(s: State, payload: Value, start: StartOutcome)
    requires payload.Undefined? || payload.Null?
    ensures OnConfigureStream(s, payload, start) == s
  {
  }

  /** Configuring twice constructs two transcribers; the first is never ended. */
  lemma ConfigureTwiceNotIdempotent(s: State, p1: Value, p2: Value, o1: StartOutcome, o2: StartOutcome)
    requires Wellformed(s)
    requires !p1.Undefined? && !p1.Null? && !p2.Undefined? && !p2.Null?
    ensures var t := Run(s, [Configure(p1, o1), Configure(p2, o2)]);
      && t.created == s.created + 2
      && t.transcriber == Some(s.created + 1)
      && |t.calls| == |s.calls| + 4
      && (forall i :: |s.calls| <= i < |t.calls| ==> !t.calls[i].op.End?)
  {
    var mid := Step(s, Configure(p1, o1));
    assert [Configure(p1, o1), Configure(p2, o2)][1..] == [Configure(p2, o2)];
    assert Run(mid, [Configure(p2, o2)]) == Step(mid, Configure(p2, o2));
  }

  /**
   * `incoming-audio` calls send with the same payload on the current
   * transcriber exactly when one exists; otherwise the frame is dropped and
   * the state is unchanged.
   */
  lemma AudioForwarded(s: State, audio: Value)
    ensures var t := OnIncomingAudio(s, audio);
      && (s.transcriber.Some? ==> t == s.(calls := s.calls + [Call(s.transcriber.value, Send(audio))]))
      && (s.transcriber.None? ==> t == s)
      && (|t.calls| > |s.calls| <==> s.transcriber.Some?)
  {
  }

  /**
   * `stop-stream` with a transcriber ends it once and keeps it in the slot;
   * without one it only warns.
   */
  lemma StopKeepsReference(s: State)
    ensures var t := OnStopStream(s);
      && t.transcriber == s.transcriber
      && (s.transcriber.Some? ==> t.calls == s.calls + [Call(s.transcriber.value, End)] && t.console == s.console)
      && (s.transcriber.None? ==> t.calls == s.calls && t.console == s.console + [NotConfiguredWarning])
      && t.emitted == s.emitted && t.listening == s.listening
  {
  }

  /** `disconnect` ends the current transcriber if there is one, and makes no other call. */
  lemma DisconnectEnds(s: State)
    ensures var t := OnDisconnect(s);
      && t.transcriber == s.transcriber
      && (s.transcriber.Some? ==> t.calls == s.calls + [Call(s.transcriber.value, End)])
      && (s.transcriber.None? ==> t.calls == s.calls)
      && t.emitted == s.emitted
  {
  }

  /**
   * A transcriber event is re-emitted to the client under the same name and
   * with the same payload exactly when the transcriber has listeners and the
   * name is `partial`, `final` or `error`; `transcriber-ready` never is.
   */
  lemma RelayExactly(s: State, source: TranscriberId, name: string, payload: Value)
    ensures var t := OnTranscriberEvent(s, source, name, payload);
      && (source in s.listening && name in RelayedNames ==> t.emitted == s.emitted + [Downstream(name, payload)])
      && (source !in s.listening || name !in RelayedNames ==> t.emitted == s.emitted)
      && t.calls == s.calls && t.transcriber == s.transcriber && t.listening == s.listening
  {
  }

  // ---------------------------------------------------------------------
  // Properties of whole runs
  // ---------------------------------------------------------------------

  /** The slot always holds the transcriber constructed last: stop never clears it. */
  lemma SlotHoldsLatest(inputs: seq<Input>)
    ensures var t := Run(Initial, inputs);
      t.transcriber == LatestNew(t.calls)
  {
    InitialWellformed();
    RunKeepsWellformed(Initial, inputs);
  }

  /**
   * Audio is forwarded only to the most recently configured transcriber:
   * every send goes to the transcriber constructed last before it.
   */
  lemma AudioOnlyToLatest(inputs: seq<Input>, i: nat)
    requires var t := Run(Initial, inputs); i < |t.calls| && t.calls[i].op.Send?
    ensures var t := Run(Initial, inputs); LatestNew(t.calls[..i]) == Some(t.calls[i].target)
  {
    InitialWellformed();
    RunKeepsWellformed(Initial, inputs);
  }

  /** `transcriber-ready` (or any other unrelayed name) is never emitted to the client. */
  lemma ReadyNeverForwarded(inputs: seq<Input>)
    ensures forall k :: 0 <= k < |Run(Initial, inputs).emitted| ==>
      Run(Initial, inputs).emitted[k].name != TranscriberReadyEvent
  {
    InitialWellformed();
    RunKeepsWellformed(Initial, inputs);
  }

  /**
   * Once a later configure has replaced a transcriber, it never receives
   * another call: no audio, and in particular no `endTranscriptionStream`.
   */
  lemma ReplacedIsAbandoned(calls: seq<Call>, i: nat, j: nat, k: nat)
    requires NewIsFresh(calls) && ActsOnLatest(calls)
    requires i < j < k < |calls|
    requires calls[i].op.New? && calls[j].op.New?
    ensures calls[k].target != calls[i].target
  {
    if !calls[k].op.New? {
      var latest := LatestNew(calls[..k]);
      LatestNewIsLast(calls[..k]);
      assert latest == Some(calls[k].target);
      var m :| 0 <= m < k && calls[..k][m] == Call(latest.value, New)
               && forall n :: m < n < k ==> !calls[..k][n].op.New?;
      assert calls[..k][j] == calls[j];
      assert m >= j;
      assert calls[m] == calls[..k][m];
    }
  }

  /** The same, for every run of a connection. */
  lemma ReplacedNeverEnded(inputs: seq<Input>, i: nat, j: nat, k: nat)
    requires var t := Run(Initial, inputs);
      i < j < k < |t.calls| && t.calls[i].op.New? && t.calls[j].op.New?
    ensures var t := Run(Initial, inputs);
      t.calls[k].target != t.calls[i].target
  {
    InitialWellformed();
    RunKeepsWellformed(Initial, inputs);
    var t := Run(Initial, inputs);
    ReplacedIsAbandoned(t.calls, i, j, k);
  }

  /** Every construction is followed at once by the start of the same transcriber. */
  lemma StartedOnConstructionInRuns(inputs: seq<Input>, i: nat)
    requires var t := Run(Initial, inputs); i < |t.calls| && t.calls[i].op.New?
    ensures var t := Run(Initial, inputs);
      i + 1 < |t.calls| && t.calls[i + 1].target == t.calls[i].target && t.calls[i + 1].op.Start?
  {
    InitialWellformed();
    RunKeepsWellformed(Initial, inputs);
    var t := Run(Initial, inputs);
    assert i + 1 < |t.calls|;
    var j := i + 1;
    assert t.calls[j].op.Start? <==> t.calls[i].op.New?;
  }

  /** No transcriber is ever started twice. */
  lemma {:induction false} StartedAtMostOnce(calls: seq<Call>, i: nat, j: nat)
    requires NewIsFresh(calls) && StartedOnConstruction(calls)
    requires i < j < |calls| && calls[i].op.Start? && calls[j].op.Start?
    ensures calls[i].target != calls[j].target
  {
    var i0, j0 := i - 1, j - 1;
    assert calls[i].op.Start? <==> calls[i0].op.New?;
    assert calls[j].op.Start? ==> calls[j].target == calls[j0].target;
    assert calls[i].op.Start? ==> calls[i].target == calls[i0].target;
    assert calls[j].op.Start? <==> calls[j0].op.New?;
    assert calls[i0].target < calls[j0].target;
  }

  /** In every run, each transcriber is started at most once. */
  lemma StartedAtMostOnceInRuns(inputs: seq<Input>, i: nat, j: nat)
    requires var t := Run(Initial, inputs);
      i < j < |t.calls| && t.calls[i].op.Start? && t.calls[j].op.Start?
    ensures var t := Run(Initial, inputs); t.calls[i].target != t.calls[j].target
  {
    InitialWellformed();
    RunKeepsWellformed(Initial, inputs);
    StartedAtMostOnce(Run(Initial, inputs).calls, i, j);
  }

  /** The events a relaying transcriber produces, as the client receives them. */
  function Relayed(events: seq<Input>): seq<Downstream>
    requires forall k :: 0 <= k < |events| ==> events[k].TranscriberEvent?
  {
    if events == [] then []
    else
      var e := events[0];
      (if e.name in RelayedNames then [Downstream(e.name, e.payload)] else []) + Relayed(events[1..])
  }

  /**
   * Events from transcribers that have listeners reach the client in the
   * order they were produced, under the same names and with the same
   * payloads, and change nothing else.
   */
  lemma {:induction false} RelayInOrder(s: State, events: seq<Input>)
    requires forall k :: 0 <= k < |events| ==> events[k].TranscriberEvent? && events[k].source in s.listening
    ensures Run(s, events).emitted == s.emitted + Relayed(events)
    ensures Run(s, events).calls == s.calls && Run(s, events).transcriber == s.transcriber
    decreases |events|
  {
    if events != [] {
      var e := events[0];
      var head := if e.name in RelayedNames then [Downstream(e.name, e.payload)] else [];
      var t := Step(s, e);
      assert t == OnTranscriberEvent(s, e.source, e.name, e.payload);
      assert t.emitted == s.emitted + head && t.listening == s.listening;
      assert t.calls == s.calls && t.transcriber == s.transcriber;
      RelayInOrder(t, events[1..]);
      assert Relayed(events) == head + Relayed(events[1..]);
      assert s.emitted + head + Relayed(events[1..]) == s.emitted + (head + Relayed(events[1..]));
    }
  }

  /** One `incoming-audio` input per frame, in order. */
  function Audios(frames: seq<Value>): (r: seq<Input>)
    ensures |r| == |frames|
    decreases |frames|
  {
    if frames == [] then [] else [Audio(frames[0])] + Audios(frames[1..])
  }

  /** One `send` on `id` per frame, in order. */
  function Sends(id: TranscriberId, frames: seq<Value>): (r: seq<Call>)
    ensures |r| == |frames|
    decreases |frames|
  {
    if frames == [] then [] else [Call(id, Send(frames[0]))] + Sends(id, frames[1..])
  }

  /**
   * Audio frames reach the current transcriber's `send` in the order they
   * were received, none dropped, duplicated or altered, and the slot stays
   * as it was.
   */
  lemma {:induction false} AudioInOrder(s: State, frames: seq<Value>)
    requires s.transcriber.Some?
    ensures Run(s, Audios(frames)).calls == s.calls + Sends(s.transcriber.value, frames)
    ensures Run(s, Audios(frames)).transcriber == s.transcriber
    decreases |frames|
  {
    var id := s.transcriber.value;
    if frames != [] {
      var inputs := Audios(frames);
      var next := Step(s, Audio(frames[0]));
      assert next.calls == s.calls + [Call(id, Send(frames[0]))] && next.transcriber == s.transcriber;
      assert inputs[0] == Audio(frames[0]) && inputs[1..] == Audios(frames[1..]);
      assert Run(s, inputs) == Run(next, Audios(frames[1..]));
      AudioInOrder(next, frames[1..]);
      assert Sends(id, frames) == [Call(id, Send(frames[0]))] + Sends(id, frames[1..]);
    }
  }

  /**
   * Stop does not clear the slot: audio arriving after `stop-stream` is still
   * sent to the transcriber that was just ended.
   */
  lemma AudioAfterStopReachesEnded(s: State, audio: Value)
    requires s.transcriber.Some?
    ensures Run(s, [Stop, Audio(audio)]).calls
      == s.calls + [Call(s.transcriber.value, End), Call(s.transcriber.value, Send(audio))]
  {
    var mid := Step(s, Stop);
    assert [Stop, Audio(audio)][1..] == [Audio(audio)];
    assert Run(mid, [Audio(audio)]) == Step(mid, Audio(audio));
  }

  /**
   * A transcriber whose start threw stays installed: later audio is sent to
   * it, while nothing it emits reaches the client.
   */
  lemma FailedStartStaysInstalled(s: State, payload: Value, error: Value, audio: Value)
    requires Wellformed(s)
    requires !payload.Undefined? && !payload.Null?
    ensures var t := Run(s, [Configure(payload, Threw(error)), Audio(audio)]);
      && t.transcriber == Some(s.created)
      && |t.calls| > 0 && t.calls[|t.calls| - 1] == Call(s.created, Send(audio))
      && s.created !in t.listening
  {
    var mid := Step(s, Configure(payload, Threw(error)));
    assert mid.transcriber == Some(s.created) && s.created !in mid.listening by {
      assert s.created !in s.listening;
    }
    assert [Configure(payload, Threw(error)), Audio(audio)][1..] == [Audio(audio)];
    assert Run(mid, [Audio(audio)]) == Step(mid, Audio(audio));
    assert Step(mid, Audio(audio)).calls == mid.calls + [Call(s.created, Send(audio))];
  }

  // ---------------------------------------------------------------------
  // The handler, written imperatively
  // ---------------------------------------------------------------------

  /** The closure state of one `io.on('connection', ...)` callback. */
  class Connection {
    var transcriber: Option<TranscriberId>
    var created: nat
    var listening: set<TranscriberId>
    ghost var calls: seq<Call>
    ghost var emitted: seq<Downstream>
    ghost var console: seq<ConsoleLine>

    ghost function Snapshot(): State
      reads this
    {
      State(transcriber, created, listening, calls, emitted, console)
    }

    ghost predicate Valid()
      reads this
    {
      Wellformed(Snapshot())
    }

    constructor ()
      ensures Valid() && Snapshot() == Initial
    {
      transcriber := None;
      created := 0;
      listening := {};
      calls := [];
      emitted := [];
      console := [ConnectionMade];
    }

    method OnConfigureStream(payload: Value, start: StartOutcome)
      requires Valid()
      modifies this
      ensures Valid()
      ensures Snapshot() == Step(old(Snapshot()), Configure(payload, start))
    {
      ghost var before := Snapshot();
      var destructured := GetProperty(payload, "sampleRate");
      if destructured.Success? {
        var sampleRate := destructured.value;
        var id := created;
        created := created + 1;
        transcriber := Some(id);
        calls := calls + [Call(id, New)];
        calls := calls + [Call(id, Start(sampleRate))];
        match start {
          case Threw(error) =>
            console := console + [InitError(error)];
            var message := GetProperty(error, "message");
            if message.Success? {
              emitted := emitted + [Downstream(ErrorEvent, message.value)];
            }
          case Started =>
            listening := listening + {id};
        }
      }
      assert Snapshot() == Step(before, Configure(payload, start));
      StepKeepsWellformed(before, Configure(payload, start));
    }

    method OnIncomingAudio(audio: Value)
      requires Valid()
      modifies this
      ensures Valid()
      ensures Snapshot() == Step(old(Snapshot()), Audio(audio))
    {
      ghost var before := Snapshot();
      if transcriber.Some? {
        calls := calls + [Call(transcriber.value, Send(audio))];
      }
      assert Snapshot() == Step(before, Audio(audio));
      StepKeepsWellformed(before, Audio(audio));
    }

    method OnStopStream()
      requires Valid()
      modifies this
      ensures Valid()
      ensures Snapshot() == Step(old(Snapshot()), Stop)
    {
      ghost var before := Snapshot();
      if transcriber.Some? {
        calls := calls + [Call(transcriber.value, End)];
      } else {
        console := console + [NotConfiguredWarning];
      }
      assert Snapshot() == Step(before, Stop);
      StepKeepsWellformed(before, Stop);
    }

    method OnDisconnect()
      requires Valid()
      modifies this
      ensures Valid()
      ensures Snapshot() == Step(old(Snapshot()), Input.Disconnect)
    {
      ghost var before := Snapshot();
      console := console + [ConnectionClosed];
      if transcriber.Some? {
        calls := calls + [Call(transcriber.value, End)];
      }
      assert Snapshot() == Step(before, Input.Disconnect);
      StepKeepsWellformed(before, Input.Disconnect);
    }

    method OnTranscriberEvent(source: TranscriberId, name: string, payload: Value)
      requires Valid()
      modifies this
      ensures Valid()
      ensures Snapshot() == Step(old(Snapshot()), TranscriberEvent(source, name, payload))
    {
      ghost var before := Snapshot();
      if source in listening {
        if name == PartialEvent || name == FinalEvent || name == ErrorEvent {
          emitted := emitted + [Downstream(name, payload)];
        } else if name == TranscriberReadyEvent {
          console := console + [TranscriberReady];
        }
      }
      assert Snapshot() == Step(before, TranscriberEvent(source, name, payload));
      StepKeepsWellformed(before, TranscriberEvent(source, name, payload));
    }
  }
}
