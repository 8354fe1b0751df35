/**
 * What the EventLog view shows of the log the App component builds. App writes
 * `output_audio_transcript.live` and `output_audio_transcript.completed` records
 * without `isInput`, and EventLog keeps only input-transcription records, so
 * nothing App writes is ever displayed.
 */
module Wiring {
  import opened Json
  import opened Reducer
  import opened EventLog

  /** A type string in which "inp" never starts is not an input-transcription type. */
  lemma NotInputTranscriptionType(t: string)
    requires AvoidsTriple(t, "inp", |t|)
    ensures !TypeIncludes(Str(t), "input_audio_transcription")
    ensures !TypeIncludes(Str(t), "input_audio_buffer.transcription")
  {
    NotContainsByPrefix(t, "input_audio_transcription");
    NotContainsByPrefix(t, "input_audio_buffer.transcription");
  }

  /** None of the four record types App writes passes EventLog's filter. */
  lemma AppTypesNotDisplayed()
    ensures forall t :: t in {LiveType, CompletedType, "response.create", "session.update"} ==>
      !TypeIncludes(Str(t), "input_audio_transcription") && !TypeIncludes(Str(t), "input_audio_buffer.transcription")
  {
    var live, completed := LiveType, CompletedType;
    forall i | 0 <= i <= |live| && i + 2 < |live| ensures live[i] != 'i' || live[i + 1] != 'n' || live[i + 2] != 'p' {}
    forall i | 0 <= i <= |completed| && i + 2 < |completed|
      ensures completed[i] != 'i' || completed[i + 1] != 'n' || completed[i + 2] != 'p'
    {}
    NotInputTranscriptionType(live);
    NotInputTranscriptionType(completed);
    NotInputTranscriptionType("response.create");
    NotInputTranscriptionType("session.update");
  }

  /** No record of the list would be displayed. */
  predicate NoneDisplayable(events: seq<Event>)
  {
    forall e :: e in events ==> !IsInputTranscription(e)
  }

  /** A listener step adds only records that EventLog filters out. */
  lemma MessageAddsNothingDisplayable(st: State, raw: Event, now: string, freshId: string)
    requires NoneDisplayable(st.events)
    ensures NoneDisplayable(HandleMessage(st, raw, now, freshId).events)
  {
    var st' := HandleMessage(st, raw, now, freshId);
    if st'.events != st.events {
      var head := st'.events[0];
      assert !IsInputTranscription(head) by {
        AppTypesNotDisplayed();
        assert head.eventType.value in {LiveType, CompletedType, "response.create", "session.update"};
      }
      forall e | e in st'.events ensures !IsInputTranscription(e) {
        if e != head {
          assert e in st'.events[1..] by {
            assert st'.events == [head] + st'.events[1..];
          }
        }
      }
    }
  }

  /** Messages the page sends itself that EventLog would filter out. */
  predicate HiddenSends(inputs: seq<Input>)
  {
    forall k :: 0 <= k < |inputs| && inputs[k].Send? ==> !IsInputTranscription(inputs[k].message)
  }

  /** Starting from a log with nothing displayable, and as long as the page sends
      nothing displayable, the view never leaves its placeholder, whatever the
      server sends. */
  lemma {:induction false} RunShowsPlaceholder(st: State, inputs: seq<Input>)
    requires NoneDisplayable(st.events) && HiddenSends(inputs)
    ensures NoneDisplayable(Run(st, inputs).events)
    ensures TranscriptionText(Run(st, inputs).events) == ""
    decreases |inputs|
  {
    if inputs == [] {
      NothingToShow(st.events);
    } else {
      var input := inputs[0];
      AppTypesNotDisplayed();
      match input {
        case Message(raw, now, freshId) =>
          MessageAddsNothingDisplayable(st, raw, now, freshId);
        case Open(now, freshId) =>
        case Send(message, now, freshId) =>
          assert !IsInputTranscription(message);
        case StartSession =>
        case Negotiate =>
        case StopSession =>
      }
      assert HiddenSends(inputs[1..]) by {
        forall k | 0 <= k < |inputs| - 1 ensures inputs[1..][k] == inputs[k + 1] {}
      }
      RunShowsPlaceholder(Step(st, input), inputs[1..]);
    }
  }
}
