/** Values exchanged with the chat platform: inbound events, fetched messages,
    the arguments of one post, and what one call of the web API can end in. */
module SlackTypes {
  import opened Wrappers
  import Py

  /** An inbound `message` event. An optional field is a key the event may lack. */
  datatype Event = Event(
    channel: string,
    ts: string,
    threadTs: Option<string>,
    text: Option<string>,
    subtype: Option<string>,
    username: Option<string>,
    user: Option<string>)

  /** One message as `conversations.history` or `conversations.replies` returns it. */
  datatype Message = Message(
    subtype: Option<string>,
    user: Option<string>,
    username: Option<string>,
    text: Option<string>)

  /** The keyword arguments of one `chat_postMessage` call; `threadTs` is
      `None` when no `thread_ts` argument is passed (or `None` is passed). */
  datatype PostArgs = PostArgs(
    channel: string,
    text: string,
    username: string,
    iconEmoji: string,
    threadTs: Option<string>)

  /** The arguments of one `generate_reply(persona, channel_name, channel_id,
      event_text, thread_ts)` call. The model's answer to a request (the
      text it returns, or `None` when the call raises) is an oracle. */
  datatype GenRequest = GenRequest(
    persona: string,
    channelName: string,
    channelId: string,
    eventText: string,
    threadTs: Option<string>)

  /** How one web-API call ends: with a response (carrying the posted message's
      `ts`), with a `SlackApiError` (its HTTP status and its `Retry-After`
      header, if any), or with any other exception. */
  datatype CallResult =
    | Ok(ts: string)
    | ApiError(status: int, retryAfter: Option<string>)
    | OtherError

  const TooManyRequests: int := 429

  predicate IsRateLimited(c: CallResult) {
    c.ApiError? && c.status == TooManyRequests
  }

  /** The pause after a 429, `time.sleep(int(headers.get("Retry-After", "1")) + 0.1)`,
      in milliseconds; `None` when `int()` raises `ValueError` on the header or
      when the pause is negative, which makes `time.sleep` raise `ValueError`. */
  function RetryWaitMs(retryAfter: Option<string>): (r: Option<nat>)
    ensures retryAfter.None? ==> r == Some(1100)
    ensures r.Some? ==> r.value >= 100
    ensures retryAfter.Some? ==>
      (r.None? <==> Py.ParseInt(retryAfter.value).None? || Py.ParseInt(retryAfter.value).value < 0)
    ensures retryAfter.Some? && r.Some? ==> r.value == Py.ParseInt(retryAfter.value).value * 1000 + 100
  {
    var parsed := Py.ParseInt(retryAfter.GetOr("1"));
    assert retryAfter.None? ==> parsed == Some(1) by { Py.ParseOne(); }
    match parsed
    case Some(w) => if w >= 0 then Some(w * 1000 + 100) else None
    case None => None
  }

  /** A header holding `str(n)` waits `n` s and 0.1 s more. */
  lemma RetryWaitShown(n: nat)
    ensures RetryWaitMs(Some(Py.NatToString(n))) == Some(n * 1000 + 100)
  {
    Py.ParseShow(n);
  }

  /** `int()` reads surrounding whitespace: `Retry-After: " 2"` waits 2.1 s. */
  lemma RetryHeaderPadded()
    ensures RetryWaitMs(Some(" 2")) == Some(2100)
  {
    assert Py.LeadingSpaces(" 2") == 1 by { assert " 2"[1..] == "2"; }
    assert Py.Strip(" 2") == "2";
    assert Py.GroupedDigits("2") == Some("2");
  }

  /** `int()` reads an underscore between digits: `"1_0"` waits 10.1 s. */
  lemma RetryHeaderGrouped()
    ensures RetryWaitMs(Some("1_0")) == Some(10100)
  {
    Py.StripUnspaced("1_0");
    assert Py.GroupedDigits("1_0") == Some("10") by {
      assert "1_0"[2..] == "0";
      assert Py.GroupedDigits("0") == Some("0");
      assert ['1'] + "0" == "10";
    }
    assert Py.DigitsValue("10") == 10 by { assert "10"[..1] == "1"; }
  }

  /** A header that is no integer makes the pause raise. */
  lemma RetryHeaderNotInteger()
    ensures RetryWaitMs(Some("abc")) == None
  {
    Py.StripUnspaced("abc");
  }

  /** So does a doubled underscore, which `int()` refuses. */
  lemma RetryHeaderDoubleUnderscore()
    ensures RetryWaitMs(Some("1__0")) == None
  {
    Py.StripUnspaced("1__0");
    assert Py.GroupedDigits("1__0") == None by {
      assert "1__0"[2..] == "_0";
    }
  }

  /** A negative header parses, but `time.sleep` raises on the negative pause. */
  lemma RetryHeaderNegative()
    ensures RetryWaitMs(Some("-1")) == None
  {
    Py.StripUnspaced("-1");
    assert "-1"[1..] == "1";
    assert Py.GroupedDigits("1") == Some("1");
  }
}
