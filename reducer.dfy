/**
 * The state of the realtime transcription console (the App component) as a
 * value, and each of its handlers as a function from the old state to the new
 * one: the data-channel `message` listener, `sendClientEvent`, the `open`
 * listener, and the state effect of starting and stopping a session.
 * The class in module AppComponent is proved to perform exactly these steps;
 * the lemmas here state what the steps guarantee.
 */
module Reducer {
  import opened Json

  const CommittedType := "input_audio_buffer.committed"
  const DeltaType := "response.output_audio_transcript.delta"
  const DoneType := "response.output_audio_transcript.done"
  const LiveType := "output_audio_transcript.live"
  const CompletedType := "output_audio_transcript.completed"

  const Instructions := "You are a translator. When the user speaks in English, translate their speech to Persian (Farsi) and respond with only the Persian translation. Do not add any commentary or additional text, just provide the translation."

  /** `{ type: "response.create" }`, sent when the input audio buffer is committed. */
  function ResponseCreate(): Event
  {
    WithType("response.create")
  }

  /** The `session.update` message sent when the channel opens. */
  function SessionUpdate(): Event
  {
    WithType("session.update").(session := SessionConfig(Instructions, ["text"], "alloy"))
  }

  /** `event.type?.includes("output_audio_transcript")` */
  predicate IsTranscriptionEvent(t: Val)
  {
    TypeIncludes(t, "output_audio_transcript")
  }

  /** The disjunction of bookkeeping types the listener skips. */
  predicate IsNonTranscriptionEvent(t: Val)
  {
    || (TypeIncludes(t, "response") && !TypeIncludes(t, "output_audio_transcript"))
    || TypeIncludes(t, "session.created")
    || TypeIncludes(t, "session.updated")
    || TypeIncludes(t, "conversation.item")
    || (TypeIncludes(t, "input_audio") && !TypeIncludes(t, "committed"))
  }

  /** The events that get past the `isNonTranscriptionEvent || !isTranscriptionEvent` guard. */
  predicate Admitted(t: Val)
  {
    IsTranscriptionEvent(t) && !IsNonTranscriptionEvent(t)
  }

  /** The component's state: React state (`isSessionActive`, `events`, whether
      `dataChannel` is set), whether `peerConnection.current` holds a connection,
      the five refs, and the trace of payloads handed to `dataChannel.send`,
      oldest first. `events` is newest first. */
  datatype State = State(
    isSessionActive: bool,
    hasChannel: bool,
    hasPeer: bool,
    events: seq<Event>,
    transcriptionText: string,
    currentItemId: Val,
    outputText: string,
    currentResponseId: Val,
    promptSent: bool,
    sent: seq<Event>)

  /** The initial values of `useState` and `useRef`. */
  const Initial := State(false, false, false, [], "", Null, "", Null, false, [])

  /** A record the collapse step removes for the identifier `id`. */
  predicate Supersedes(id: Val, e: Event)
  {
    e.isTranscription && e.eventId == id
  }

  /** `prev.filter((e) => !(e.isTranscription && e.event_id === id))` */
  function Collapse(events: seq<Event>, id: Val): (r: seq<Event>)
    ensures forall e :: e in r <==> e in events && !Supersedes(id, e)
    ensures |r| <= |events|
  {
    if events == [] then []
    else if Supersedes(id, events[0]) then Collapse(events[1..], id)
    else [events[0]] + Collapse(events[1..], id)
  }

  /** Collapsing distributes over concatenation, so the records it keeps stay in
      their relative order. */
  lemma {:induction false} CollapseAppend(a: seq<Event>, b: seq<Event>, id: Val)
    ensures Collapse(a + b, id) == Collapse(a, id) + Collapse(b, id)
  {
    if a != [] {
      assert (a + b)[0] == a[0] && (a + b)[1..] == a[1..] + b;
      CollapseAppend(a[1..], b, id);
      assert a + b != [];
      if !Supersedes(id, a[0]) {
        calc {
          Collapse(a + b, id);
          [a[0]] + Collapse(a[1..] + b, id);
          [a[0]] + (Collapse(a[1..], id) + Collapse(b, id));
          ([a[0]] + Collapse(a[1..], id)) + Collapse(b, id);
        }
      } else {
        calc {
          Collapse(a + b, id);
          Collapse(a[1..] + b, id);
          Collapse(a[1..], id) + Collapse(b, id);
        }
      }
    } else {
      assert a + b == b;
    }
  }

  /** A list with no record to remove is left as it is. */
  lemma {:induction false} CollapseNothingToRemove(events: seq<Event>, id: Val)
    requires forall e :: e in events ==> !Supersedes(id, e)
    ensures Collapse(events, id) == events
  {
    if events != [] {
      CollapseNothingToRemove(events[1..], id);
    }
  }

  /** The log invariant: no two transcription records share an `event_id`. */
  predicate UniqueTranscriptions(events: seq<Event>)
  {
    forall i, j :: 0 <= i < j < |events| && events[i].isTranscription && events[j].isTranscription ==>
      events[i].eventId != events[j].eventId
  }

  lemma UniqueCons(x: Event, ys: seq<Event>)
    ensures UniqueTranscriptions([x] + ys) <==>
      UniqueTranscriptions(ys) && forall y :: y in ys ==> !(x.isTranscription && Supersedes(x.eventId, y))
  {
    var xs := [x] + ys;
    if UniqueTranscriptions(ys) && forall y :: y in ys ==> !(x.isTranscription && Supersedes(x.eventId, y)) {
      forall i, j | 0 <= i < j < |xs| && xs[i].isTranscription && xs[j].isTranscription
        ensures xs[i].eventId != xs[j].eventId
      {
        assert xs[j] == ys[j - 1] && ys[j - 1] in ys;
        if i > 0 {
          assert xs[i] == ys[i - 1];
        }
      }
    }
    if UniqueTranscriptions(xs) {
      forall i, j | 0 <= i < j < |ys| && ys[i].isTranscription && ys[j].isTranscription
        ensures ys[i].eventId != ys[j].eventId
      {
        assert ys[i] == xs[i + 1] && ys[j] == xs[j + 1];
      }
      forall y | y in ys ensures !(x.isTranscription && Supersedes(x.eventId, y)) {
        var k :| 0 <= k < |ys| && ys[k] == y;
        assert xs[0] == x && xs[k + 1] == y;
      }
    }
  }

  /** Removing records never creates a duplicate. */
  lemma {:induction false} CollapseKeepsUnique(events: seq<Event>, id: Val)
    requires UniqueTranscriptions(events)
    ensures UniqueTranscriptions(Collapse(events, id))
  {
    if events != [] {
      assert events == [events[0]] + events[1..];
      UniqueCons(events[0], events[1..]);
      CollapseKeepsUnique(events[1..], id);
      if !Supersedes(id, events[0]) {
        UniqueCons(events[0], Collapse(events[1..], id));
      }
    }
  }

  /** Prepending a record after collapsing its identifier keeps the log invariant:
      the new record is the only transcription record with its `event_id`. */
  lemma PrependCollapsedKeepsUnique(events: seq<Event>, rec: Event)
    requires UniqueTranscriptions(events)
    ensures UniqueTranscriptions([rec] + Collapse(events, rec.eventId))
  {
    CollapseKeepsUnique(events, rec.eventId);
    UniqueCons(rec, Collapse(events, rec.eventId));
  }

  /** Prepending a record that is not a transcription keeps the log invariant. */
  lemma PrependPlainKeepsUnique(events: seq<Event>, rec: Event)
    requires UniqueTranscriptions(events) && !rec.isTranscription
    ensures UniqueTranscriptions([rec] + events)
  {
    UniqueCons(rec, events);
  }

  /** The body of `sendClientEvent` once `dataChannel` is known to be set:
      `freshId` stands for `crypto.randomUUID()` and `now` for the local time string. */
  function Dispatch(st: State, message: Event, now: string, freshId: string): (r: State)
    ensures r == st.(sent := r.sent, events := r.events)
    ensures |r.events| == |st.events| + 1 && r.events[1..] == st.events
    ensures r.sent == st.sent + [r.events[0].(timestamp := message.timestamp)]
  {
    var wire := message.(eventId := Or(message.eventId, Str(freshId)));
    var logged := wire.(timestamp := Or(wire.timestamp, Str(now)));
    st.(sent := st.sent + [wire], events := [logged] + st.events)
  }

  /** `sendClientEvent(message)`: a no-op when no data channel is set. */
  function SendClientEvent(st: State, message: Event, now: string, freshId: string): (r: State)
    ensures r == st <==> !st.hasChannel
  {
    if st.hasChannel then Dispatch(st, message, now, freshId) else st
  }

  /** The record written after each delta. */
  function LiveRecord(event: Event, buffer: string, now: string): Event
  {
    Event(Str(LiveType), Or(event.responseId, event.eventId), Undefined, Undefined, Undefined,
          Str(buffer), Or(event.timestamp, Str(now)), true, false, NoSession)
  }

  /** The record written on `...done`. */
  function CompletedRecord(event: Event, now: string): Event
  {
    Event(Str(CompletedType), event.eventId, Undefined, Undefined, Undefined,
          event.transcript, Or(event.timestamp, Str(now)), true, false, NoSession)
  }

  /** The event as the listener goes on to use it, after it stamps a missing timestamp. */
  function Stamped(raw: Event, now: string): Event
  {
    raw.(timestamp := Or(raw.timestamp, Str(now)))
  }

  /** The data-channel `message` listener. Its `sendClientEvent` is the one captured
      when the listener was attached to a live channel, so it always sends. */
  function HandleMessage(st: State, raw: Event, now: string, freshId: string): (r: State)
    ensures r == st.(events := r.events, outputText := r.outputText, currentResponseId := r.currentResponseId, sent := r.sent)
    ensures r.events == st.events
      || (&& |r.events| > 0
          && r.events[0].eventType in {Str(LiveType), Str(CompletedType), Str("response.create")}
          && !r.events[0].isInput
          && forall e :: e in r.events[1..] ==> e in st.events)
    ensures r.sent == st.sent || r.sent == st.sent + [ResponseCreate().(eventId := Str(freshId))]
  {
    var event := Stamped(raw, now);
    if event.eventType == Str(CommittedType) then
      Dispatch(st, ResponseCreate(), now, freshId)
    else if !Admitted(event.eventType) then
      st
    else if event.eventType == Str(DeltaType) && Truthy(event.delta) then
      var buffer := (if st.currentResponseId != event.responseId then "" else st.outputText) + event.delta.value;
      var rec := LiveRecord(event, buffer, now);
      st.(outputText := buffer, currentResponseId := event.responseId,
          events := [rec] + Collapse(st.events, rec.eventId))
    else if event.eventType == Str(DoneType) && Truthy(event.transcript) then
      var rec := CompletedRecord(event, now);
      st.(events := [rec] + Collapse(st.events, rec.eventId), outputText := "", currentResponseId := Null)
    else
      st
  }

  /** The data-channel `open` listener. */
  function HandleOpen(st: State, now: string, freshId: string): State
  {
    var reset := st.(isSessionActive := true, events := [], transcriptionText := "", currentItemId := Null,
                     outputText := "", currentResponseId := Null, promptSent := false);
    Dispatch(reset, SessionUpdate(), now, freshId)
  }

  /** `setDataChannel(dc)` in `startSession`. */
  function Connect(st: State): State
  {
    st.(hasChannel := true)
  }

  /** `peerConnection.current = pc`, the last step of `startSession`, reached only
      after the SDP exchange that follows `setDataChannel(dc)`. */
  function Negotiated(st: State): State
  {
    st.(hasPeer := true)
  }

  /** `stopSession` calls `peerConnection.current.getSenders()` without a null
      check, so it throws a TypeError, before any state changes, whenever no peer
      connection is stored: before `startSession` has finished, or on a second stop. */
  predicate StopThrows(st: State)
  {
    !st.hasPeer
  }

  /** The state effect of `stopSession`: nothing when it throws; otherwise the
      session is inactive, the channel and the peer connection are gone. */
  function Stop(st: State): State
  {
    if StopThrows(st) then st
    else st.(isSessionActive := false, hasChannel := false, hasPeer := false)
  }

  /** Everything that can happen to the component, one call at a time. */
  datatype Input =
    | Message(raw: Event, now: string, freshId: string)
    | Open(now: string, freshId: string)
    | Send(message: Event, now: string, freshId: string)
    | StartSession
    | Negotiate
    | StopSession

  function Step(st: State, input: Input): State
  {
    match input
    case Message(raw, now, freshId) => HandleMessage(st, raw, now, freshId)
    case Open(now, freshId) => HandleOpen(st, now, freshId)
    case Send(message, now, freshId) => SendClientEvent(st, message, now, freshId)
    case StartSession => Connect(st)
    case Negotiate => Negotiated(st)
    case StopSession => Stop(st)
  }

  function Run(st: State, inputs: seq<Input>): State
    decreases |inputs|
  {
    if inputs == [] then st else Run(Step(st, inputs[0]), inputs[1..])
  }

  // ---------------------------------------------------------------------------
  // Classification

  /** No three consecutive characters of `t`, starting at or before offset `last`, spell `w`. */
  predicate AvoidsTriple(t: string, w: string, last: int)
    requires |w| == 3
  {
    forall i :: 0 <= i <= last && i + 2 < |t| ==> t[i] != w[0] || t[i + 1] != w[1] || t[i + 2] != w[2]
  }

  /** A type string that includes "output_audio_transcript" (here at offset `i`)
      and in which no bookkeeping substring can start gets past the guard. */
  lemma AdmittedByShape(t: string, i: nat)
    requires MatchesAt(t, "output_audio_transcript", i)
    requires AvoidsTriple(t, "ses", |t| - 15) && AvoidsTriple(t, "con", |t| - 17) && AvoidsTriple(t, "inp", |t| - 11)
    ensures Admitted(Str(t))
  {
    NotContainsByPrefix(t, "session.created");
    NotContainsByPrefix(t, "session.updated");
    NotContainsByPrefix(t, "conversation.item");
    NotContainsByPrefix(t, "input_audio");
  }

  /** The delta and done types include "output_audio_transcript" at offset 9. */
  lemma TranscriptTypeIncludes(t: string)
    requires t == DeltaType || t == DoneType
    ensures MatchesAt(t, "output_audio_transcript", 9)
  {
    var sub := "output_audio_transcript";
    forall k | 0 <= k < |sub| ensures t[9 + k] == sub[k] {}
    assert t[9..32] == sub;
  }

  /** No bookkeeping substring can start anywhere in the delta or done type. */
  lemma TranscriptTypeAvoids(t: string)
    requires t == DeltaType || t == DoneType
    ensures AvoidsTriple(t, "ses", |t| - 15)
    ensures AvoidsTriple(t, "con", |t| - 17)
    ensures AvoidsTriple(t, "inp", |t| - 11)
  {
    forall i | 0 <= i <= |t| - 15 ensures t[i] != 's' || t[i + 1] != 'e' || t[i + 2] != 's' {}
    forall i | 0 <= i <= |t| - 17 ensures t[i] != 'c' || t[i + 1] != 'o' || t[i + 2] != 'n' {}
    forall i | 0 <= i <= |t| - 11 ensures t[i] != 'i' || t[i + 1] != 'n' || t[i + 2] != 'p' {}
  }

  /** The delta and done types get past the listener's guard. */
  lemma TranscriptTypeAdmitted(t: string)
    requires t == DeltaType || t == DoneType
    ensures Admitted(Str(t))
  {
    TranscriptTypeIncludes(t);
    TranscriptTypeAvoids(t);
    AdmittedByShape(t, 9);
  }

  /** An event whose type the guard rejects, other than the committed event,
      changes nothing. */
  lemma IgnoredEventChangesNothing(st: State, raw: Event, now: string, freshId: string)
    requires raw.eventType != Str(CommittedType) && !Admitted(raw.eventType)
    ensures HandleMessage(st, raw, now, freshId) == st
  {
  }

  /** An event without a string `type` changes nothing. */
  lemma UntypedEventChangesNothing(st: State, raw: Event, now: string, freshId: string)
    requires !raw.eventType.Str?
    ensures HandleMessage(st, raw, now, freshId) == st
  {
  }

  /** Only three kinds of event change the state: the committed event, a delta
      with a non-empty `delta`, and a done event with a non-empty `transcript`. */
  lemma OnlyThreeKindsChangeState(st: State, raw: Event, now: string, freshId: string)
    ensures HandleMessage(st, raw, now, freshId) != st ==>
      || raw.eventType == Str(CommittedType)
      || (raw.eventType == Str(DeltaType) && Truthy(raw.delta))
      || (raw.eventType == Str(DoneType) && Truthy(raw.transcript))
  {
  }

  /** A delta without text, or a done event without a transcript, changes nothing. */
  lemma EmptyPayloadChangesNothing(st: State, raw: Event, now: string, freshId: string)
    requires || (raw.eventType == Str(DeltaType) && !Truthy(raw.delta))
             || (raw.eventType == Str(DoneType) && !Truthy(raw.transcript))
    ensures HandleMessage(st, raw, now, freshId) == st
  {
  }

  // ---------------------------------------------------------------------------
  // The three kinds of event that change the state

  /** The committed event is not recorded: it sends one `response.create`, which is
      the one record added, and touches neither the buffer nor the current id. */
  lemma CommittedRequestsResponse(st: State, raw: Event, now: string, freshId: string)
    requires raw.eventType == Str(CommittedType)
    ensures var st' := HandleMessage(st, raw, now, freshId);
      && st'.sent == st.sent + [ResponseCreate().(eventId := Str(freshId))]
      && st'.events == [ResponseCreate().(eventId := Str(freshId), timestamp := Str(now))] + st.events
      && st' == st.(sent := st'.sent, events := st'.events)
  {
  }

  /** A delta appends to the buffer when it belongs to the current response, and
      starts the buffer afresh otherwise; the log then begins with a live record
      holding the whole buffer, and it is the only transcription record with its id. */
  lemma DeltaAccumulates(st: State, raw: Event, now: string, freshId: string)
    requires raw.eventType == Str(DeltaType) && Truthy(raw.delta)
    ensures var st' := HandleMessage(st, raw, now, freshId);
      && st'.outputText == (if raw.responseId == st.currentResponseId then st.outputText else "") + raw.delta.value
      && st'.currentResponseId == raw.responseId
      && st'.sent == st.sent
      && |st'.events| > 0
      && st'.events[0].eventType == Str(LiveType)
      && st'.events[0].text == Str(st'.outputText)
      && st'.events[0].eventId == (if Truthy(raw.responseId) then raw.responseId else raw.eventId)
      && st'.events[0].isTranscription
      && st'.events[1..] == Collapse(st.events, st'.events[0].eventId)
      && (forall e :: e in st'.events[1..] ==> !Supersedes(st'.events[0].eventId, e))
      && st' == st.(outputText := st'.outputText, currentResponseId := st'.currentResponseId, events := st'.events)
  {
    TranscriptTypeAdmitted(DeltaType);
  }

  /** A done event with a transcript records the server's transcript (not the
      buffer) under the event's own `event_id`, then clears the buffer and the
      current response id. */
  lemma DoneCompletes(st: State, raw: Event, now: string, freshId: string)
    requires raw.eventType == Str(DoneType) && Truthy(raw.transcript)
    ensures var st' := HandleMessage(st, raw, now, freshId);
      && st'.outputText == "" && st'.currentResponseId == Null
      && st'.sent == st.sent
      && |st'.events| > 0
      && st'.events[0].eventType == Str(CompletedType)
      && st'.events[0].text == raw.transcript
      && st'.events[0].eventId == raw.eventId
      && st'.events[0].isTranscription
      && st'.events[1..] == Collapse(st.events, raw.eventId)
      && st' == st.(outputText := st'.outputText, currentResponseId := st'.currentResponseId, events := st'.events)
  {
    TranscriptTypeAdmitted(DoneType);
  }

  /** The completed record does not replace the live record of the same response
      when the done event's `event_id` differs from the `response_id`: both stay
      in the log. */
  lemma CompletionKeepsLiveRecord(st: State, delta: Event, done: Event, now: string, freshId: string)
    requires delta.eventType == Str(DeltaType) && Truthy(delta.delta) && Truthy(delta.responseId)
    requires done.eventType == Str(DoneType) && Truthy(done.transcript) && done.eventId != delta.responseId
    ensures var st1 := HandleMessage(st, delta, now, freshId);
      var st2 := HandleMessage(st1, done, now, freshId);
      && |st2.events| >= 2
      && st2.events[0].eventType == Str(CompletedType)
      && st2.events[1] == st1.events[0]
      && st2.events[1].eventType == Str(LiveType) && st2.events[1].isTranscription
  {
    DeltaAccumulates(st, delta, now, freshId);
    var st1 := HandleMessage(st, delta, now, freshId);
    DoneCompletes(st1, done, now, freshId);
    assert st1.events == [st1.events[0]] + st1.events[1..];
    CollapseAppend([st1.events[0]], st1.events[1..], done.eventId);
  }

  // ---------------------------------------------------------------------------
  // A run of deltas for one response

  /** The text of a run of message inputs, concatenated in arrival order. */
  function DeltaText(inputs: seq<Input>): string
    requires forall k :: 0 <= k < |inputs| ==> inputs[k].Message? && inputs[k].raw.delta.Str?
  {
    if inputs == [] then "" else inputs[0].raw.delta.value + DeltaText(inputs[1..])
  }

  predicate DeltaRun(inputs: seq<Input>, responseId: Val)
  {
    forall k :: 0 <= k < |inputs| ==>
      && inputs[k].Message?
      && inputs[k].raw.eventType == Str(DeltaType)
      && Truthy(inputs[k].raw.delta)
      && inputs[k].raw.responseId == responseId
  }

  /** One step of a delta run: the buffer and the head of the log after it. */
  lemma DeltaStep(st: State, input: Input, responseId: Val)
    requires input.Message? && input.raw.eventType == Str(DeltaType) && Truthy(input.raw.delta)
    requires input.raw.responseId == responseId
    ensures var st' := Step(st, input);
      && st'.outputText == (if st.currentResponseId == responseId then st.outputText else "") + input.raw.delta.value
      && st'.currentResponseId == responseId
      && |st'.events| > 0 && st'.events[0].text == Str(st'.outputText)
      && st'.events[0].eventType == Str(LiveType)
  {
    DeltaAccumulates(st, input.raw, input.now, input.freshId);
  }

  /** After a non-empty run of deltas for one response, the buffer is what it held
      for that response before (nothing if it held another one) followed by every
      delta in arrival order, and the log begins with a live record showing it. */
  lemma {:induction false} DeltaRunConcatenates(st: State, inputs: seq<Input>, responseId: Val)
    requires |inputs| > 0 && DeltaRun(inputs, responseId)
    decreases |inputs|
    ensures var st' := Run(st, inputs);
      && st'.outputText == (if st.currentResponseId == responseId then st.outputText else "") + DeltaText(inputs)
      && st'.currentResponseId == responseId
      && |st'.events| > 0 && st'.events[0].text == Str(st'.outputText)
      && st'.events[0].eventType == Str(LiveType)
  {
    var first, rest := inputs[0], inputs[1..];
    DeltaStep(st, first, responseId);
    var st1 := Step(st, first);
    assert Run(st, inputs) == Run(st1, rest);
    assert DeltaText(inputs) == first.raw.delta.value + DeltaText(rest);
    if rest == [] {
      assert Run(st1, rest) == st1;
    } else {
      assert DeltaRun(rest, responseId) by {
        forall k | 0 <= k < |rest| ensures rest[k] == inputs[k + 1] {}
      }
      DeltaRunConcatenates(st1, rest, responseId);
    }
  }

  // ---------------------------------------------------------------------------
  // Sending, opening, stopping

  /** Without a data channel nothing is sent and the log is unchanged. */
  lemma SendWithoutChannel(st: State, message: Event, now: string, freshId: string)
    requires !st.hasChannel
    ensures SendClientEvent(st, message, now, freshId) == st
  {
  }

  /** With a data channel, exactly one payload is sent and exactly one record is
      prepended; both carry the message's own `event_id` when it has one and the
      fresh one otherwise, and an existing timestamp is kept. */
  lemma SendWithChannel(st: State, message: Event, now: string, freshId: string)
    requires st.hasChannel && freshId != ""
    ensures var st' := SendClientEvent(st, message, now, freshId);
      && |st'.sent| == |st.sent| + 1 && st'.sent[..|st.sent|] == st.sent
      && |st'.events| == |st.events| + 1 && st'.events[1..] == st.events
      && var wire, logged := st'.sent[|st.sent|], st'.events[0];
      && wire.eventId == logged.eventId && Truthy(wire.eventId)
      && (Truthy(message.eventId) ==> wire.eventId == message.eventId)
      && (!Truthy(message.eventId) ==> wire.eventId == Str(freshId))
      && wire.timestamp == message.timestamp
      && (Truthy(message.timestamp) ==> logged.timestamp == message.timestamp)
      && (!Truthy(message.timestamp) ==> logged.timestamp == Str(now))
      && logged == wire.(timestamp := logged.timestamp)
      && wire == message.(eventId := wire.eventId)
      && st' == st.(sent := st'.sent, events := st'.events)
  {
  }

  /** After a `stopSession` that completes, every later send from the page is a no-op. */
  lemma {:induction false} SendsAfterStopAreNoOps(st: State, messages: seq<Input>)
    requires !StopThrows(st)
    requires forall k :: 0 <= k < |messages| ==> messages[k].Send?
    ensures Run(Stop(st), messages) == Stop(st)
  {
    if messages != [] {
      assert Step(Stop(st), messages[0]) == Stop(st);
      SendsAfterStopAreNoOps(st, messages[1..]);
    }
  }

  /** Opening resets every buffer and id, clears the log, and sends exactly one
      `session.update`, which is then the whole log. */
  lemma OpenResets(st: State, now: string, freshId: string)
    ensures var st' := HandleOpen(st, now, freshId);
      && st'.isSessionActive
      && st'.sent == st.sent + [SessionUpdate().(eventId := Str(freshId))]
      && st'.events == [SessionUpdate().(eventId := Str(freshId), timestamp := Str(now))]
      && st'.outputText == "" && st'.currentResponseId == Null
      && st'.transcriptionText == "" && st'.currentItemId == Null && !st'.promptSent
      && st'.hasChannel == st.hasChannel && st'.hasPeer == st.hasPeer
  {
  }

  /** There is no once-per-connection guard: a second `open` sends a second
      `session.update`. */
  lemma OpenTwiceConfiguresTwice(st: State, now1: string, id1: string, now2: string, id2: string)
    ensures var st' := Run(st, [Open(now1, id1), Open(now2, id2)]);
      && |st'.sent| == |st.sent| + 2
      && st'.sent[|st.sent|].eventType == Str("session.update")
      && st'.sent[|st.sent| + 1].eventType == Str("session.update")
      && |st'.events| == 1
  {
    var inputs := [Open(now1, id1), Open(now2, id2)];
    var st1 := HandleOpen(st, now1, id1);
    assert inputs[1..] == [Open(now2, id2)];
    assert Run(st, inputs) == Run(st1, [Open(now2, id2)]);
    assert Run(st1, [Open(now2, id2)]) == Run(HandleOpen(st1, now2, id2), []);
  }

  /** Stopping keeps the log, the buffers and the trace. When a peer connection is
      stored it drops the channel, the peer connection and the active flag;
      otherwise it throws and nothing changes. */
  lemma StopKeepsLog(st: State)
    ensures var st' := Stop(st);
      && st'.events == st.events && st'.outputText == st.outputText
      && st'.currentResponseId == st.currentResponseId && st'.sent == st.sent
      && (!StopThrows(st) ==> !st'.hasChannel && !st'.isSessionActive && !st'.hasPeer)
      && (!StopThrows(st) ==> st' == st.(isSessionActive := false, hasChannel := false, hasPeer := false))
      && (StopThrows(st) ==> st' == st)
  {
  }

  /** A second `stopSession` always throws and changes nothing. */
  lemma StopTwiceThrows(st: State)
    ensures StopThrows(Stop(st)) && Stop(Stop(st)) == Stop(st)
  {
  }

  /** Stopping while `startSession` is still negotiating throws: the `dataChannel`
      state stays set, though `dataChannel.close()` has already run. */
  lemma StopDuringStartupKeepsChannel()
    ensures var st := Run(Initial, [StartSession, StopSession]);
      st.hasChannel && !st.hasPeer && !st.isSessionActive
  {
    var inputs := [StartSession, StopSession];
    var st1 := Connect(Initial);
    assert inputs[1..] == [StopSession];
    assert Run(Initial, inputs) == Run(st1, [StopSession]);
    assert Run(st1, [StopSession]) == Run(Stop(st1), []);
  }

  // ---------------------------------------------------------------------------
  // The log invariant over whole runs

  /** Every listener step keeps at most one transcription record per `event_id`. */
  lemma MessageKeepsUnique(st: State, raw: Event, now: string, freshId: string)
    requires UniqueTranscriptions(st.events)
    ensures UniqueTranscriptions(HandleMessage(st, raw, now, freshId).events)
  {
    var event := Stamped(raw, now);
    if event.eventType == Str(CommittedType) {
      PrependPlainKeepsUnique(st.events, ResponseCreate().(eventId := Or(Undefined, Str(freshId)), timestamp := Or(Undefined, Str(now))));
    } else if !Admitted(event.eventType) {
    } else if event.eventType == Str(DeltaType) && Truthy(event.delta) {
      var buffer := (if st.currentResponseId != event.responseId then "" else st.outputText) + event.delta.value;
      PrependCollapsedKeepsUnique(st.events, LiveRecord(event, buffer, now));
    } else if event.eventType == Str(DoneType) && Truthy(event.transcript) {
      PrependCollapsedKeepsUnique(st.events, CompletedRecord(event, now));
    }
  }

  /** Client messages never carry `isTranscription`. */
  predicate PlainSends(inputs: seq<Input>)
  {
    forall k :: 0 <= k < |inputs| && inputs[k].Send? ==> !inputs[k].message.isTranscription
  }

  /** Given that client messages never carry `isTranscription`, every run keeps at
      most one transcription record per `event_id`. */
  lemma {:induction false} RunKeepsUnique(st: State, inputs: seq<Input>)
    requires UniqueTranscriptions(st.events) && PlainSends(inputs)
    decreases |inputs|
    ensures UniqueTranscriptions(Run(st, inputs).events)
  {
    if inputs != [] {
      var input := inputs[0];
      match input {
        case Message(raw, now, freshId) =>
          MessageKeepsUnique(st, raw, now, freshId);
        case Open(now, freshId) =>
        case Send(message, now, freshId) =>
          assert !message.isTranscription;
          if st.hasChannel {
            var wire := message.(eventId := Or(message.eventId, Str(freshId)));
            PrependPlainKeepsUnique(st.events, wire.(timestamp := Or(wire.timestamp, Str(now))));
          }
        case StartSession =>
        case Negotiate =>
        case StopSession =>
      }
      assert PlainSends(inputs[1..]) by {
        forall k | 0 <= k < |inputs| - 1 ensures inputs[1..][k] == inputs[k + 1] {}
      }
      RunKeepsUnique(Step(st, input), inputs[1..]);
    }
  }
}
