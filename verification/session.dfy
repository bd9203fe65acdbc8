/** Session identifiers and the session store. An id is
    `session_<Date.now()>_<Math.random().toString(36).substr(2, 9)>`; the
    clock reading and the base-36 text of the random number are inputs. The
    store is a map from id to record, written once per accepted upload. */
module Session {
  import opened Common
  import opened Decimal
  import opened Statements

  const SessionPrefix: string := "session_"

  /** `s.substr(start, length)`: a negative start counts from the end, the
      start is clamped into the string, and at most `length` characters
      are taken. */
  function Substr(s: string, start: int, length: int): (r: string)
    ensures |r| <= |s|
    ensures |r| <= if length < 0 then 0 else length
    ensures 0 <= start <= |s| ==> r <= s[start..]
    ensures 0 <= start && start + length <= |s| && length >= 0 ==> |r| == length
    ensures 0 <= start <= |s| && length >= 0 ==>
      r == s[start..if start + length < |s| then start + length else |s|]
    ensures start >= |s| ==> r == ""
    ensures start < 0 && -start <= |s| ==> r <= s[|s| + start..]
    ensures start < -|s| ==> r <= s
  {
    var size := |s|;
    var begin :=
      if start < 0 then (if size + start > 0 then size + start else 0)
      else if start < size then start else size;
    var count := if length < 0 then 0 else length;
    var end := if begin + count < size then begin + count else size;
    s[begin..end]
  }

  /** The random part of an id, cut from the base-36 text of `Math.random()`
      (which starts with `0.`): the up to nine characters after the first two. */
  function RandomSuffix(randomText: string): (r: string)
    ensures |r| <= 9
    ensures |randomText| >= 2 ==> r == randomText[2..if |randomText| < 11 then |randomText| else 11]
    ensures |randomText| >= 11 ==> r == randomText[2..11]
    ensures |randomText| <= 2 ==> r == ""
  {
    Substr(randomText, 2, 9)
  }

  /** `generateSessionId()` for clock reading `now` and random text `randomText`. */
  function GenerateSessionId(now: nat, randomText: string): (id: string)
    ensures SessionPrefix <= id
    ensures |id| <= |SessionPrefix| + |ToDecimal(now)| + 1 + 9
  {
    SessionPrefix + ToDecimal(now) + "_" + RandomSuffix(randomText)
  }

  datatype SessionIdParts = SessionIdParts(timestamp: nat, suffix: string)

  /** Reads an id of the generated shape back into its timestamp and suffix:
      the prefix, a canonical decimal numeral, an underscore, and at most nine
      characters. Anything else is `None`. */
  function ParseSessionId(id: string): Option<SessionIdParts>
  {
    if !(SessionPrefix <= id) then None
    else
      var rest := id[|SessionPrefix|..];
      var digits := DigitPrefix(rest, 10);
      if |digits| == 0 || |digits| == |rest| || rest[|digits|] != '_' then None
      else if |digits| > 1 && digits[0] == '0' then None
      else
        var suffix := rest[|digits| + 1..];
        if |suffix| > 9 then None
        else Some(SessionIdParts(ValueIn(digits, 10), suffix))
  }

  /** Every generated id has the documented shape, and reading it back gives
      the clock reading and the random suffix it was made from. */
  lemma SessionIdRoundTrip(now: nat, randomText: string)
    ensures ParseSessionId(GenerateSessionId(now, randomText))
         == Some(SessionIdParts(now, RandomSuffix(randomText)))
  {
    var id := GenerateSessionId(now, randomText);
    var numeral := ToDecimal(now);
    var suffix := RandomSuffix(randomText);
    var rest := id[|SessionPrefix|..];
    assert rest == numeral + ("_" + suffix);
    DigitPrefixStopsAt(numeral, "_" + suffix);
    assert DigitPrefix(rest, 10) == numeral;
    assert rest[|numeral|] == '_';
    assert rest[|numeral| + 1..] == suffix;
    assert !(|numeral| > 1 && numeral[0] == '0');
    ValueOfToDecimal(now);
    assert ValueIn(numeral, 10) == now;
  }

  /** The digit run of a numeral followed by a non-digit is the numeral. */
  lemma {:induction false} DigitPrefixStopsAt(numeral: string, tail: string)
    requires AllDigits(numeral)
    requires |tail| > 0 && !IsDigit(tail[0])
    ensures DigitPrefix(numeral + tail, 10) == numeral
  {
    if |numeral| > 0 {
      assert (numeral + tail)[1..] == numeral[1..] + tail;
      DigitPrefixStopsAt(numeral[1..], tail);
    }
  }

  /** Two ids generated at different clock readings differ. */
  lemma DistinctClockDistinctIds(now1: nat, now2: nat, text1: string, text2: string)
    requires now1 != now2
    ensures GenerateSessionId(now1, text1) != GenerateSessionId(now2, text2)
  {
    SessionIdRoundTrip(now1, text1);
    SessionIdRoundTrip(now2, text2);
  }

  /** What is written for one session: `{...combinedData, options, processedAt}`. */
  datatype SessionRecord = SessionRecord(data: Combined, options: Options, processedAt: string)

  type SessionStore = map<string, SessionRecord>

  /** `storeProcessedData(sessionId, record)`: the record is written under its
      id, replacing any earlier one, and every other session is untouched. */
  function StoreProcessedData(store: SessionStore, sessionId: string, record: SessionRecord): (s: SessionStore)
    ensures s.Keys == store.Keys + {sessionId}
    ensures s[sessionId] == record
    ensures forall id :: id in store && id != sessionId ==> s[id] == store[id]
  {
    store[sessionId := record]
  }
}
