/** `post_message`: the keyword arguments it passes to `chat_postMessage`,
    and its retry loop, which waits out every 429 and calls again. The
    results of the successive calls are a parameter. */
module SlackClient {
  import opened Wrappers
  import opened SlackTypes
  import Py

  /** The keyword-argument dictionary `post_message` builds, as written: a
      truthy `thread_ts` goes under the key "threads_ts". */
  function BuildArgs(channel: string, text: string, username: string,
                     iconEmoji: Option<string>, threadTs: Option<string>): (args: map<string, string>)
    ensures "channel" in args && args["channel"] == channel
    ensures "text" in args && args["text"] == text
    ensures "username" in args && args["username"] == username
    ensures "icon_emoji" in args <==> Py.Truthy(iconEmoji)
    ensures "icon_emoji" in args ==> args["icon_emoji"] == iconEmoji.value
    ensures "threads_ts" in args <==> Py.Truthy(threadTs)
    ensures "threads_ts" in args ==> args["threads_ts"] == threadTs.value
    ensures args.Keys <= {"channel", "text", "username", "icon_emoji", "threads_ts"}
  {
    var base := map["channel" := channel, "text" := text, "username" := username];
    var withIcon := if Py.Truthy(iconEmoji) then base["icon_emoji" := iconEmoji.value] else base;
    if Py.Truthy(threadTs) then withIcon["threads_ts" := threadTs.value] else withIcon
  }

  /** The dictionary with the key the platform reads, "thread_ts". */
  function BuildArgsIntended(channel: string, text: string, username: string,
                             iconEmoji: Option<string>, threadTs: Option<string>): (args: map<string, string>)
    ensures "channel" in args && args["channel"] == channel
    ensures "text" in args && args["text"] == text
    ensures "username" in args && args["username"] == username
    ensures "icon_emoji" in args <==> Py.Truthy(iconEmoji)
    ensures "icon_emoji" in args ==> args["icon_emoji"] == iconEmoji.value
    ensures "thread_ts" in args <==> Py.Truthy(threadTs)
    ensures "thread_ts" in args ==> args["thread_ts"] == threadTs.value
    ensures args.Keys <= {"channel", "text", "username", "icon_emoji", "thread_ts"}
  {
    var base := map["channel" := channel, "text" := text, "username" := username];
    var withIcon := if Py.Truthy(iconEmoji) then base["icon_emoji" := iconEmoji.value] else base;
    if Py.Truthy(threadTs) then withIcon["thread_ts" := threadTs.value] else withIcon
  }

  /** As written, no call ever carries "thread_ts", so a post made through
      `post_message` never lands in a thread; the intended dictionary differs
      from it exactly by the name of that one key. */
  lemma ThreadKeyMisspelled(channel: string, text: string, username: string,
                            iconEmoji: Option<string>, threadTs: Option<string>)
    ensures "thread_ts" !in BuildArgs(channel, text, username, iconEmoji, threadTs)
    ensures Py.Truthy(threadTs) ==> "thread_ts" in BuildArgsIntended(channel, text, username, iconEmoji, threadTs)
    ensures var wrong := BuildArgs(channel, text, username, iconEmoji, threadTs);
      var right := BuildArgsIntended(channel, text, username, iconEmoji, threadTs);
      && (forall k :: k in wrong && k != "threads_ts" ==> k in right && right[k] == wrong[k])
      && (forall k :: k in right && k != "thread_ts" ==> k in wrong && wrong[k] == right[k])
  {
    var wrong := BuildArgs(channel, text, username, iconEmoji, threadTs);
    assert "thread_ts" != "threads_ts";
    forall k | k in wrong && k != "threads_ts"
      ensures k in BuildArgsIntended(channel, text, username, iconEmoji, threadTs)
    {
      assert k == "channel" || k == "text" || k == "username" || k == "icon_emoji";
    }
  }

  /** A threaded reply: the thread's ts reaches the platform only under the misspelled key. */
  lemma ThreadedPostIsNotThreaded()
    ensures BuildArgs("C1", "hi", "Mike_BE", None, Some("1.2")) ==
      map["channel" := "C1", "text" := "hi", "username" := "Mike_BE", "threads_ts" := "1.2"]
    ensures BuildArgsIntended("C1", "hi", "Mike_BE", None, Some("1.2")) ==
      map["channel" := "C1", "text" := "hi", "username" := "Mike_BE", "thread_ts" := "1.2"]
  {
  }

  /** How `post_message` ends, with the number of calls made and the total
      pause in milliseconds. `StillRetrying`: every given result was a 429, so
      the loop is still going; it has no bound of its own. */
  datatype PostOutcome =
    | Sent(ts: string, calls: nat, waitedMs: nat)            // the response is returned
    | Raised(error: CallResult, calls: nat, waitedMs: nat)   // any other error propagates
    | BadRetryAfter(calls: nat, waitedMs: nat)               // the 429's header made `int()` or `sleep` raise
    | StillRetrying(calls: nat, waitedMs: nat)

  /** One more 429 before `o`. */
  function After429(o: PostOutcome, waitMs: nat): (r: PostOutcome)
    ensures r.calls == o.calls + 1 && r.waitedMs == o.waitedMs + waitMs
  {
    match o
    case Sent(ts, n, w) => Sent(ts, n + 1, w + waitMs)
    case Raised(e, n, w) => Raised(e, n + 1, w + waitMs)
    case BadRetryAfter(n, w) => BadRetryAfter(n + 1, w + waitMs)
    case StillRetrying(n, w) => StillRetrying(n + 1, w + waitMs)
  }

  /** The pauses after the first `n` results, each a 429 with a usable header. */
  function WaitSum(results: seq<CallResult>, n: nat): nat
    requires n <= |results|
    requires forall i :: 0 <= i < n ==> IsRateLimited(results[i]) && RetryWaitMs(results[i].retryAfter).Some?
  {
    if n == 0 then 0
    else
      assert IsRateLimited(results[0]);
      assert forall i :: 0 <= i < n - 1 ==> results[1..][i] == results[i + 1];
      RetryWaitMs(results[0].retryAfter).value + WaitSum(results[1..], n - 1)
  }

  /** The outcome of the retry loop when the successive calls end in `results`. */
  function Retry(results: seq<CallResult>): (o: PostOutcome)
    ensures o.calls <= |results|
    ensures o.StillRetrying? <==> o.calls == |results| && forall i :: 0 <= i < |results| ==> IsRateLimited(results[i]) && RetryWaitMs(results[i].retryAfter).Some?
    ensures o.Sent? ==> o.calls >= 1 && results[o.calls - 1] == Ok(o.ts)
    ensures o.Raised? ==> o.calls >= 1 && results[o.calls - 1] == o.error && !o.error.Ok? && !IsRateLimited(o.error)
    ensures o.BadRetryAfter? ==> o.calls >= 1 && IsRateLimited(results[o.calls - 1]) && RetryWaitMs(results[o.calls - 1].retryAfter).None?
    ensures forall i :: 0 <= i < o.calls - 1 ==> IsRateLimited(results[i]) && RetryWaitMs(results[i].retryAfter).Some?
    decreases |results|
  {
    if results == [] then StillRetrying(0, 0)
    else
      var r := results[0];
      if r.Ok? then Sent(r.ts, 1, 0)
      else if !IsRateLimited(r) then Raised(r, 1, 0)
      else match RetryWaitMs(r.retryAfter)
        case None => BadRetryAfter(1, 0)
        case Some(w) =>
          var rest := Retry(results[1..]);
          assert forall i :: 1 <= i < |results| ==> results[i] == results[1..][i - 1];
          After429(rest, w)
  }

  /** The loop pauses once after each 429 it waits out, and for as long as
      that 429's header says: the total pause is the sum over all calls but
      the last, or over all of them while it is still retrying. */
  lemma {:induction false} RetryWaited(results: seq<CallResult>)
    ensures var o := Retry(results);
      o.waitedMs == WaitSum(results, if o.StillRetrying? then o.calls else o.calls - 1)
    decreases |results|
  {
    if results != [] {
      var r := results[0];
      if IsRateLimited(r) && RetryWaitMs(r.retryAfter).Some? {
        var w := RetryWaitMs(r.retryAfter).value;
        var rest := Retry(results[1..]);
        RetryWaited(results[1..]);
        var k := if rest.StillRetrying? then rest.calls else rest.calls - 1;
        assert Retry(results) == After429(rest, w);
        WaitSumStep(results, k);
      }
    }
  }

  /** One more 429 in front adds its pause to the sum. */
  lemma WaitSumStep(results: seq<CallResult>, k: nat)
    requires k < |results| && IsRateLimited(results[0]) && RetryWaitMs(results[0].retryAfter).Some?
    requires forall i :: 0 <= i < k ==> IsRateLimited(results[1..][i]) && RetryWaitMs(results[1..][i].retryAfter).Some?
    ensures forall i :: 0 <= i < k + 1 ==> IsRateLimited(results[i]) && RetryWaitMs(results[i].retryAfter).Some?
    ensures WaitSum(results, k + 1) == RetryWaitMs(results[0].retryAfter).value + WaitSum(results[1..], k)
  {
    assert forall i :: 1 <= i < k + 1 ==> results[i] == results[1..][i - 1];
  }

  /** Any number of 429s is waited out: after `n` of them without a
      `Retry-After` header, a success is returned on call `n + 1`, having
      paused 1.1 s each time. */
  lemma {:induction false} UnboundedRetries(n: nat, ts: string)
    ensures Retry(seq(n, i => ApiError(TooManyRequests, None)) + [Ok(ts)]) == Sent(ts, n + 1, n * 1100)
  {
    var rs := seq(n, i => ApiError(TooManyRequests, None)) + [Ok(ts)];
    if n > 0 {
      UnboundedRetries(n - 1, ts);
      assert rs[1..] == seq(n - 1, i => ApiError(TooManyRequests, None)) + [Ok(ts)];
      HeaderlessRetry(rs);
    } else {
      assert rs == [Ok(ts)];
    }
  }

  /** A 429 without a `Retry-After` header is waited out for 1.1 s. */
  lemma HeaderlessRetry(results: seq<CallResult>)
    requires results != [] && results[0] == ApiError(TooManyRequests, None)
    ensures Retry(results) == After429(Retry(results[1..]), 1100)
  {
    assert IsRateLimited(results[0]);
    assert RetryWaitMs(None) == Some(1100);
  }

  /** `post_message(channel, text, username, icon_emoji, thread_ts)`: the
      loop calls `chat_postMessage` with the same arguments until a call does
      not end in a 429, pausing `int(Retry-After) + 0.1` seconds after each.
      The arguments are the corrected dictionary, with the thread under
      "thread_ts"; `BuildArgs` is the dictionary as written. */
  method PostMessage(channel: string, text: string, username: string, iconEmoji: Option<string>,
                     threadTs: Option<string>, results: seq<CallResult>)
    returns (args: map<string, string>, outcome: PostOutcome)
    ensures args == BuildArgsIntended(channel, text, username, iconEmoji, threadTs)
    ensures outcome == Retry(results)
  {
    args := BuildArgsIntended(channel, text, username, iconEmoji, threadTs);
    outcome := RetryLoop(results);
  }

  /** The `while True` loop of `post_message`, over the results of its successive calls. */
  method RetryLoop(results: seq<CallResult>) returns (outcome: PostOutcome)
    ensures outcome == Retry(results)
  {
    var calls: nat, waited: nat := 0, 0;
    while calls < |results| && IsRateLimited(results[calls]) && RetryWaitMs(results[calls].retryAfter).Some?
      invariant calls <= |results|
      invariant Retry(results) == Retried(Retry(results[calls..]), calls, waited)
      decreases |results| - calls
    {
      var w := RetryWaitMs(results[calls].retryAfter).value;
      RetryStep(results, calls);
      RetriedAfter429(Retry(results[calls + 1..]), w, calls, waited);
      calls, waited := calls + 1, waited + w;
    }
    if calls == |results| {
      return StillRetrying(calls, waited);
    }
    RetryStep(results, calls);
    var r := results[calls];
    if r.Ok? {
      outcome := Sent(r.ts, calls + 1, waited);
    } else if !IsRateLimited(r) {
      outcome := Raised(r, calls + 1, waited);
    } else {
      outcome := BadRetryAfter(calls + 1, waited);
    }
  }

  /** `o` preceded by `n` 429s whose pauses add up to `waitMs`. */
  function Retried(o: PostOutcome, n: nat, waitMs: nat): (r: PostOutcome)
    ensures r.calls == o.calls + n && r.waitedMs == o.waitedMs + waitMs
  {
    match o
    case Sent(ts, c, w) => Sent(ts, c + n, w + waitMs)
    case Raised(e, c, w) => Raised(e, c + n, w + waitMs)
    case BadRetryAfter(c, w) => BadRetryAfter(c + n, w + waitMs)
    case StillRetrying(c, w) => StillRetrying(c + n, w + waitMs)
  }

  /** Unfolding the loop by one call. */
  lemma RetryStep(results: seq<CallResult>, k: nat)
    requires k < |results|
    ensures Retry(results[k..]) ==
      var r := results[k];
      if r.Ok? then Sent(r.ts, 1, 0)
      else if !IsRateLimited(r) then Raised(r, 1, 0)
      else match RetryWaitMs(r.retryAfter)
        case None => BadRetryAfter(1, 0)
        case Some(w) => After429(Retry(results[k + 1..]), w)
  {
    assert results[k..][1..] == results[k + 1..];
  }

  lemma RetriedAfter429(o: PostOutcome, w: nat, n: nat, waitMs: nat)
    ensures Retried(After429(o, w), n, waitMs) == Retried(o, n + 1, waitMs + w)
  {
  }
}
