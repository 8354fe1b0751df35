/**
 * The App component as an object: its React state and refs are fields, each
 * handler is a method that updates them in program order, and each method is
 * proved to perform exactly the step that module Reducer specifies.
 */
module AppComponent {
  import opened Json
  import opened Reducer

  class App {
    var isSessionActive: bool
    var hasChannel: bool
    /** `peerConnection.current` holds a connection. */
    var hasPeerConnection: bool
    var events: seq<Event>
    var transcriptionText: string
    var currentItemId: Val
    var outputTranscriptionText: string
    var currentResponseId: Val
    var promptSentForSession: bool
    /** Payloads handed to `dataChannel.send`, oldest first. */
    var sent: seq<Event>

    /** The fields as one value of Reducer.State. */
    function Snapshot(): State
      reads this
    {
      State(isSessionActive, hasChannel, hasPeerConnection, events, transcriptionText, currentItemId,
            outputTranscriptionText, currentResponseId, promptSentForSession, sent)
    }

    constructor ()
      ensures Snapshot() == Initial
    {
      isSessionActive, hasChannel, hasPeerConnection, events := false, false, false, [];
      transcriptionText, currentItemId := "", Null;
      outputTranscriptionText, currentResponseId := "", Null;
      promptSentForSession, sent := false, [];
    }

    /** `setDataChannel(dc)` in `startSession`. */
    method StartSession()
      modifies this
      ensures Snapshot() == Connect(old(Snapshot()))
    {
      hasChannel := true;
    }

    /** `peerConnection.current = pc` at the end of `startSession`. */
    method Negotiate()
      modifies this
      ensures Snapshot() == Negotiated(old(Snapshot()))
    {
      hasPeerConnection := true;
    }

    /** The state effect of `stopSession`; `thrown` reports the TypeError raised by
        `getSenders()` on a missing peer connection, which ends it early. */
    method StopSession() returns (thrown: bool)
      modifies this
      ensures thrown == StopThrows(old(Snapshot()))
      ensures Snapshot() == Stop(old(Snapshot()))
    {
      if !hasPeerConnection {
        return true;
      }
      isSessionActive := false;
      hasChannel := false;
      hasPeerConnection := false;
      thrown := false;
    }

    /** Assign an id if absent, send, stamp the time if absent, log. */
    method Transmit(message: Event, now: string, freshId: string)
      modifies this
      ensures Snapshot() == Dispatch(old(Snapshot()), message, now, freshId)
    {
      var m := message;
      if !Truthy(m.eventId) {
        m := m.(eventId := Str(freshId));
      }
      sent := sent + [m];
      if !Truthy(m.timestamp) {
        m := m.(timestamp := Str(now));
      }
      events := [m] + events;
    }

    /** `sendClientEvent(message)` as the page calls it. */
    method SendClientEvent(message: Event, now: string, freshId: string)
      modifies this
      ensures Snapshot() == Reducer.SendClientEvent(old(Snapshot()), message, now, freshId)
    {
      if hasChannel {
        Transmit(message, now, freshId);
      }
    }

    /** The data-channel `message` listener. */
    method OnMessage(raw: Event, now: string, freshId: string)
      modifies this
      ensures Snapshot() == HandleMessage(old(Snapshot()), raw, now, freshId)
    {
      var event := raw;
      if !Truthy(event.timestamp) {
        event := event.(timestamp := Str(now));
      }
      if event.eventType == Str(CommittedType) {
        Transmit(ResponseCreate(), now, freshId);
        return;
      }
      var isTranscriptionEvent := IsTranscriptionEvent(event.eventType);
      var isNonTranscriptionEvent := IsNonTranscriptionEvent(event.eventType);
      if isNonTranscriptionEvent || !isTranscriptionEvent {
        return;
      }
      if event.eventType == Str(DeltaType) && Truthy(event.delta) {
        if currentResponseId != event.responseId {
          outputTranscriptionText := "";
          currentResponseId := event.responseId;
        }
        outputTranscriptionText := outputTranscriptionText + event.delta.value;
        var rec := LiveRecord(event, outputTranscriptionText, now);
        events := [rec] + Collapse(events, rec.eventId);
        return;
      }
      if event.eventType == Str(DoneType) && Truthy(event.transcript) {
        var rec := CompletedRecord(event, now);
        events := [rec] + Collapse(events, rec.eventId);
        outputTranscriptionText := "";
        currentResponseId := Null;
        return;
      }
    }

    /** The data-channel `open` listener. */
    method OnOpen(now: string, freshId: string)
      modifies this
      ensures Snapshot() == HandleOpen(old(Snapshot()), now, freshId)
    {
      isSessionActive := true;
      events := [];
      transcriptionText := "";
      currentItemId := Null;
      outputTranscriptionText := "";
      currentResponseId := Null;
      promptSentForSession := false;
      Transmit(SessionUpdate(), now, freshId);
    }
  }
}
