/**
 * The slice of JavaScript values the transcription client reads and writes:
 * optional string members of parsed JSON objects, their truthiness, the `||`
 * fallback, `String.prototype.includes`, and the one record shape used both
 * for server events, client messages and the display records of the event log.
 */
module Json {

  datatype Option<+T> = None | Some(value: T)

  /** A member of a parsed JSON object: missing (`undefined`), `null`, or a string.
      Structural equality on Val coincides with JavaScript's `===` on these values. */
  datatype Val = Undefined | Null | Str(value: string)

  /** JavaScript truthiness: only a non-empty string is truthy. */
  predicate Truthy(v: Val)
  {
    v.Str? && v.value != ""
  }

  /** `a || b` */
  function Or(a: Val, b: Val): (r: Val)
    ensures Truthy(r) <==> Truthy(a) || Truthy(b)
    ensures Truthy(a) ==> r == a
  {
    if Truthy(a) then a else b
  }

  /** `sub` occurs in `s` starting at index `i`. */
  predicate MatchesAt(s: string, sub: string, i: nat)
  {
    i + |sub| <= |s| && s[i..i + |sub|] == sub
  }

  /** `s.includes(sub)` */
  predicate Contains(s: string, sub: string)
  {
    exists i: nat | i <= |s| :: MatchesAt(s, sub, i)
  }

  /** `v?.includes(sub)`, read as a boolean: `undefined` and `null` do not include anything. */
  predicate TypeIncludes(v: Val, sub: string)
  {
    v.Str? && Contains(v.value, sub)
  }

  /** A way to show that `s` does not include `sub`: at no offset do the first three
      characters of `sub` appear. */
  lemma NotContainsByPrefix(s: string, sub: string)
    requires 3 <= |sub|
    requires forall i :: 0 <= i <= |s| - |sub| ==> s[i] != sub[0] || s[i + 1] != sub[1] || s[i + 2] != sub[2]
    ensures !Contains(s, sub)
  {
    forall i: nat | i <= |s| ensures !MatchesAt(s, sub, i) {
      if i + |sub| <= |s| {
        assert s[i..i + |sub|][0] == s[i] && s[i..i + |sub|][1] == s[i + 1] && s[i..i + |sub|][2] == s[i + 2];
      }
    }
  }

  /** A witness offset shows that `s` includes `sub`. */
  lemma ContainsAt(s: string, sub: string, i: nat)
    requires i + |sub| <= |s| && s[i..i + |sub|] == sub
    ensures Contains(s, sub)
  {
    assert MatchesAt(s, sub, i);
  }

  /** Extra members a client message may carry: the `session` object of a
      `session.update`, or nothing. */
  datatype Session =
    | NoSession
    | SessionConfig(instructions: string, modalities: seq<string>, voice: string)

  /** One JSON object as the client sees it. `eventType` is the `type` member;
      a flag that is absent reads as false. */
  datatype Event = Event(
    eventType: Val,
    eventId: Val,
    responseId: Val,
    delta: Val,
    transcript: Val,
    text: Val,
    timestamp: Val,
    isTranscription: bool,
    isInput: bool,
    session: Session)

  /** `{ type: t }` */
  function WithType(t: string): (e: Event)
    ensures e.eventType == Str(t) && !e.isTranscription && !e.isInput
    ensures !Truthy(e.eventId) && !Truthy(e.timestamp)
  {
    Event(Str(t), Undefined, Undefined, Undefined, Undefined, Undefined, Undefined, false, false, NoSession)
  }
}
