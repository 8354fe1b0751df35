/**
 * The EventLog view's choice of what to display: keep the input-transcription
 * records, prefer the first live one, else the first with any text, else the
 * first; then show its `text`, else its `transcript`, else nothing.
 */
module EventLog {
  import opened Json

  const LiveMarker := "transcription.live"

  /** The filter of `transcriptionEvents`. */
  predicate IsInputTranscription(e: Event)
  {
    || (e.isTranscription && e.isInput)
    || TypeIncludes(e.eventType, "input_audio_transcription")
    || TypeIncludes(e.eventType, "input_audio_buffer.transcription")
  }

  /** `events.filter(...)`: the input-transcription records, in their order. */
  function TranscriptionEvents(events: seq<Event>): (r: seq<Event>)
    ensures forall e :: e in r <==> e in events && IsInputTranscription(e)
    ensures r == [] <==> forall e :: e in events ==> !IsInputTranscription(e)
    ensures |r| <= |events|
  {
    if events == [] then []
    else if IsInputTranscription(events[0]) then [events[0]] + TranscriptionEvents(events[1..])
    else TranscriptionEvents(events[1..])
  }

  /** Filtering distributes over concatenation, so it keeps the records' order. */
  lemma {:induction false} TranscriptionEventsAppend(a: seq<Event>, b: seq<Event>)
    ensures TranscriptionEvents(a + b) == TranscriptionEvents(a) + TranscriptionEvents(b)
  {
    if a == [] {
      assert a + b == b;
    } else {
      assert (a + b)[0] == a[0] && (a + b)[1..] == a[1..] + b;
      TranscriptionEventsAppend(a[1..], b);
      if IsInputTranscription(a[0]) {
        calc {
          TranscriptionEvents(a + b);
          [a[0]] + TranscriptionEvents(a[1..] + b);
          [a[0]] + (TranscriptionEvents(a[1..]) + TranscriptionEvents(b));
          ([a[0]] + TranscriptionEvents(a[1..])) + TranscriptionEvents(b);
        }
      }
    }
  }

  /** The predicate of `liveTranscription`. */
  predicate IsLive(e: Event)
  {
    e.eventType == Str("input_audio_buffer.transcription.live") || TypeIncludes(e.eventType, LiveMarker)
  }

  /** The predicate of the second `find`: `e.text || e.transcript`. */
  predicate HasText(e: Event)
  {
    Truthy(e.text) || Truthy(e.transcript)
  }

  /** The index `Array.prototype.find` stops at. */
  function FindFirst(xs: seq<Event>, p: Event -> bool): (r: Option<nat>)
    ensures r.Some? ==> r.value < |xs| && p(xs[r.value]) && forall j :: 0 <= j < r.value ==> !p(xs[j])
    ensures r.None? ==> forall j :: 0 <= j < |xs| ==> !p(xs[j])
  {
    if xs == [] then None
    else if p(xs[0]) then Some(0)
    else match FindFirst(xs[1..], p)
      case None => None
      case Some(i) => Some(i + 1)
  }

  /** `xs.find(p)` */
  function Find(xs: seq<Event>, p: Event -> bool): Option<Event>
  {
    match FindFirst(xs, p)
    case None => None
    case Some(i) => Some(xs[i])
  }

  /** `liveTranscription` */
  function LiveTranscription(events: seq<Event>): Option<Event>
  {
    Find(TranscriptionEvents(events), IsLive)
  }

  /** `latestTranscription`: the live record, else the first with text, else the first. */
  function LatestTranscription(events: seq<Event>): Option<Event>
  {
    var filtered := TranscriptionEvents(events);
    var live := LiveTranscription(events);
    if live.Some? then live
    else
      var withText := Find(filtered, HasText);
      if withText.Some? then withText
      else if filtered != [] then Some(filtered[0])
      else None
  }

  /** `transcriptionText` */
  function TranscriptionText(events: seq<Event>): string
  {
    match LatestTranscription(events)
    case None => ""
    case Some(c) => if Truthy(c.text) then c.text.value else if Truthy(c.transcript) then c.transcript.value else ""
  }

  /** The pulsing cursor is rendered. */
  predicate ShowsCursor(events: seq<Event>)
  {
    TranscriptionText(events) != "" && LiveTranscription(events).Some?
  }

  // ---------------------------------------------------------------------------

  /** The exact-equality test in the live predicate adds nothing to the substring test. */
  lemma LiveTestIsSubstringTest(e: Event)
    ensures IsLive(e) <==> TypeIncludes(e.eventType, LiveMarker)
  {
    var t, sub := "input_audio_buffer.transcription.live", LiveMarker;
    forall k | 0 <= k < |sub| ensures t[19 + k] == sub[k] {}
    assert t[19..19 + |sub|] == sub;
    ContainsAt(t, sub, 19);
  }

  /** `xs[k]` is the first element of `xs` whose type includes `sub`. */
  predicate FirstIncludingAt(xs: seq<Event>, sub: string, k: int)
  {
    && 0 <= k < |xs|
    && TypeIncludes(xs[k].eventType, sub)
    && forall j :: 0 <= j < k ==> !TypeIncludes(xs[j].eventType, sub)
  }

  /** The live record is the first filtered record whose type includes
      "transcription.live", and there is none exactly when no record qualifies. */
  lemma LiveIsFirstLive(events: seq<Event>)
    ensures LiveTranscription(events).Some? ==> exists k ::
      FirstIncludingAt(TranscriptionEvents(events), LiveMarker, k) && TranscriptionEvents(events)[k] == LiveTranscription(events).value
    ensures LiveTranscription(events).None? <==>
      forall e :: e in events && IsInputTranscription(e) ==> !TypeIncludes(e.eventType, LiveMarker)
  {
    var filtered := TranscriptionEvents(events);
    forall e | e in filtered ensures IsLive(e) <==> TypeIncludes(e.eventType, LiveMarker) {
      LiveTestIsSubstringTest(e);
    }
    var found := FindFirst(filtered, IsLive);
    if found.Some? {
      var k := found.value;
      forall j | 0 <= j < k ensures !TypeIncludes(filtered[j].eventType, LiveMarker) {
        assert filtered[j] in filtered;
      }
      assert filtered[k] in filtered;
      assert FirstIncludingAt(filtered, LiveMarker, k);
    }
  }

  /** The record chosen for display: the live one if any; otherwise the first
      filtered record with text or a transcript; otherwise the first filtered
      record; otherwise none. */
  lemma ChosenRecord(events: seq<Event>)
    ensures var filtered, chosen := TranscriptionEvents(events), LatestTranscription(events);
      && (LiveTranscription(events).Some? ==> chosen == LiveTranscription(events))
      && (LiveTranscription(events).None? && (exists e :: e in filtered && HasText(e)) ==>
            chosen.Some? && HasText(chosen.value)
            && exists k :: 0 <= k < |filtered| && filtered[k] == chosen.value && forall j :: 0 <= j < k ==> !HasText(filtered[j]))
      && (LiveTranscription(events).None? && (forall e :: e in filtered ==> !HasText(e)) && filtered != [] ==>
            chosen == Some(filtered[0]))
      && (chosen.None? <==> filtered == [])
  {
  }

  /** Whatever is chosen is one of the given records and passes the filter. */
  lemma ChosenComesFromList(events: seq<Event>)
    ensures LatestTranscription(events).Some? ==>
      LatestTranscription(events).value in events && IsInputTranscription(LatestTranscription(events).value)
  {
  }

  /** The text shown is the chosen record's text if it has one, else its
      transcript, and it is always taken from a record that passes the filter. */
  lemma DisplayedText(events: seq<Event>)
    ensures var shown, chosen := TranscriptionText(events), LatestTranscription(events);
      && (shown != "" <==> chosen.Some? && HasText(chosen.value))
      && (chosen.Some? && Truthy(chosen.value.text) ==> shown == chosen.value.text.value)
      && (chosen.Some? && !Truthy(chosen.value.text) && Truthy(chosen.value.transcript) ==> shown == chosen.value.transcript.value)
      && (shown != "" ==> exists e :: e in events && IsInputTranscription(e) && (e.text == Str(shown) || e.transcript == Str(shown)))
  {
    ChosenComesFromList(events);
  }

  /** With no record that passes the filter, the placeholder is shown and no cursor. */
  lemma NothingToShow(events: seq<Event>)
    requires forall e :: e in events ==> !IsInputTranscription(e)
    ensures TranscriptionText(events) == "" && !ShowsCursor(events)
  {
  }

  /** The cursor appears only beside a live record's text. */
  lemma CursorMeansLive(events: seq<Event>)
    requires ShowsCursor(events)
    ensures LatestTranscription(events) == LiveTranscription(events)
    ensures exists e :: e in events && IsInputTranscription(e) && TypeIncludes(e.eventType, LiveMarker)
  {
    LiveIsFirstLive(events);
  }
}
