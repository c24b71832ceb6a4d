/** The conversation conductor: for each inbound message it decides whether
    personas answer, which ones and how many, hands each answer to the
    channel's dispatch queue and keeps the per-thread and per-persona
    bookkeeping that throttles the next decisions.

    Times are milliseconds; `now` is the clock reading at the call, and
    `clock(i)` the reading when the `i`-th replier's answer is recorded. The
    random draws and the answers of the language model and of the chat
    platform are parameters. */
module Conductor {
  import opened Wrappers
  import opened SlackTypes
  import Py
  import Reg = PersonaRegistry
  import DQ = DispatchQueue

  const MaxTurnsPerThread: nat := 8
  const PersonaCooldownMs: int := 12000
  const SelfReplyGraceMs: int := 2000
  const MaxActiveThreads: nat := 8
  /** `_count_active_threads`' default `within_seconds = 60`. */
  const ActiveWindowMs: int := 60000
  const ProactiveIntervalMs: int := 90000
  /** The cooldown of every queue the conductor creates. */
  const QueueCooldownMs: nat := 800
  /** A channel takes part in proactive posting when its `p_reply` is above this. */
  const ProactiveMinPReply: real := 0.4

  /** One `THREAD_STATE` record. */
  datatype ThreadState = ThreadState(turns: nat, lastPersona: Option<string>, lastTs: int)

  // ------------------------------------------------------------ eligibility

  /** `PERSONA_COOLDOWN.get(p, 0)`: when `p` may speak again. */
  function CooldownOf(cooldowns: map<string, int>, p: string): int {
    if p in cooldowns then cooldowns[p] else 0
  }

  /** A candidate of `_eligible_personas`: not excluded, and its cooldown has expired strictly before `now`. */
  predicate Available(cooldowns: map<string, int>, exclude: seq<string>, now: int, p: string) {
    p !in exclude && CooldownOf(cooldowns, p) < now
  }

  /** `_eligible_personas(ch_name, exclude)`: the channel's candidates, in
      policy order, that are not excluded and whose cooldown has expired;
      nobody for a channel without a policy. */
  function Eligible(cooldowns: map<string, int>, chName: string, exclude: seq<string>, now: int): (r: seq<string>)
    ensures chName !in Reg.ChannelPolicies ==> r == []
    ensures chName in Reg.ChannelPolicies ==>
      var cands := Reg.ChannelPolicies[chName].candidates;
      && Py.IsSubseq(r, cands)
      && (forall i :: 0 <= i < |r| ==> r[i] in cands && r[i] !in exclude && CooldownOf(cooldowns, r[i]) < now)
      && (forall i :: 0 <= i < |cands| && cands[i] !in exclude && CooldownOf(cooldowns, cands[i]) < now ==> cands[i] in r)
    ensures Py.Distinct(r)
    ensures forall i :: 0 <= i < |r| ==> r[i] in Reg.Personas
  {
    match Reg.PolicyFor(chName)
    case None => []
    case Some(policy) =>
      var f := p => Available(cooldowns, exclude, now, p);
      Py.DistinctFilter(policy.candidates, f);
      Py.Filter(policy.candidates, f)
  }

  // -------------------------------------------------------------- throttling

  /** `event.get("thread_ts") or event.get("ts")`: the thread an event belongs to. */
  function ThreadKey(e: Event): string {
    if Py.Truthy(e.threadTs) then e.threadTs.value else e.ts
  }

  /** The threads `_count_active_threads` counts: those whose last post is
      less than `withinMs` old, in any channel. */
  function ActiveThreads(threads: map<string, ThreadState>, now: int, withinMs: int): set<string> {
    set k | k in threads && threads[k].lastTs > now - withinMs
  }

  /** `_should_skip(event)`. */
  predicate ShouldSkip(threads: map<string, ThreadState>, e: Event, now: int) {
    var key := ThreadKey(e);
    || (key in threads && threads[key].turns >= MaxTurnsPerThread)
    || (key in threads && now - threads[key].lastTs < SelfReplyGraceMs)
    || |ActiveThreads(threads, now, ActiveWindowMs)| >= MaxActiveThreads
  }

  const BusyChannels: seq<string> := ["sre-ops", "eng-backend", "deployments"]
  const ModerateChannels: seq<string> := ["product", "qa-testing", "eng-frontend"]

  /** `_fanout_count(ch_name)`: how many personas answer, one of `[1, 2, 2, 3]`
      in a busy channel, of `[1, 2]` in a moderate one, else 1. */
  function FanoutCount(chName: string, draw: nat): (n: nat)
    ensures chName in BusyChannels ==> 1 <= n <= 3
    ensures chName !in BusyChannels && chName in ModerateChannels ==> 1 <= n <= 2
    ensures chName !in BusyChannels && chName !in ModerateChannels ==> n == 1
  {
    if chName in BusyChannels then Py.Choice([1, 2, 2, 3], draw)
    else if chName in ModerateChannels then Py.Choice([1, 2], draw)
    else 1
  }

  /** Every count the busy and moderate lists hold is produced by some draw. */
  lemma FanoutReachable(chName: string, n: nat)
    requires (chName in BusyChannels && 1 <= n <= 3) || (chName in ModerateChannels && 1 <= n <= 2)
    ensures exists draw: nat :: FanoutCount(chName, draw) == n
  {
    if chName in BusyChannels {
      var draw := if n == 3 then 3 else n - 1;
      assert FanoutCount(chName, draw) == n;
    } else {
      assert FanoutCount(chName, n - 1) == n;
    }
  }

  // ---------------------------------------------------------------- senders

  /** The first persona key, in `PERSONAS` order, whose username is `u`. */
  function PersonaWithUsername(names: seq<string>, u: string): (r: Option<string>)
    ensures r.Some? ==> r.value in names && r.value in Reg.Personas && Reg.Personas[r.value].username == u
    ensures r.None? ==> forall i :: 0 <= i < |names| && names[i] in Reg.Personas ==> Reg.Personas[names[i]].username != u
  {
    if names == [] then None
    else if names[0] in Reg.Personas && Reg.Personas[names[0]].username == u then Some(names[0])
    else PersonaWithUsername(names[1..], u)
  }

  /** Since every persona's username is its key, the persona with username
      `u` is `u` itself, when `u` is a persona at all. */
  lemma PersonaWithUsernameIsItself(u: string)
    ensures PersonaWithUsername(Reg.PersonaNames, u) == (if u in Reg.Personas then Some(u) else None)
  {
    Reg.PersonaNamesAreKeys();
    var r := PersonaWithUsername(Reg.PersonaNames, u);
    if u in Reg.Personas {
      assert u in (set i | 0 <= i < |Reg.PersonaNames| :: Reg.PersonaNames[i]);
      var i :| 0 <= i < |Reg.PersonaNames| && Reg.PersonaNames[i] == u;
      Reg.UsernameIsKey(u);
      assert r.Some?;
      Reg.UsernameIsKey(r.value);
    } else if r.Some? {
      Reg.UsernameIsKey(r.value);
    }
  }

  /** `event.get("username") or ""` is a persona username, so a bot message is allowed. */
  predicate FromPersonaUsername(e: Event) {
    PersonaWithUsername(Reg.PersonaNames, Py.Or(e.username, "")).Some?
  }

  /** The bot filter: a `bot_message` whose username is no persona's and
      whose `user` starts with "B" is ignored; every other message passes. */
  predicate IsForeignBot(e: Event) {
    && e.subtype == Some("bot_message")
    && !FromPersonaUsername(e)
    && e.user.GetOr("") != ""
    && Py.StartsWith(e.user.GetOr(""), "B")
  }

  /** `event.get("username") or event.get("user", "")` */
  function SenderUsername(e: Event): string {
    if Py.Truthy(e.username) then e.username.value else e.user.GetOr("")
  }

  /** No persona has the empty name. */
  lemma NoEmptyPersona()
    ensures "" !in Reg.Personas
  {
    Reg.PersonaNamesAreKeys();
  }

  /** The sender's part of the `exclude` list: the persona whose username
      the sender has, when a non-empty sender is one. */
  function SenderPersona(e: Event): (r: seq<string>)
    ensures SenderUsername(e) in Reg.Personas ==> r == [SenderUsername(e)]
    ensures SenderUsername(e) !in Reg.Personas ==> r == []
  {
    var sender := SenderUsername(e);
    PersonaWithUsernameIsItself(sender);
    NoEmptyPersona();
    if sender == "" then []
    else match PersonaWithUsername(Reg.PersonaNames, sender)
      case Some(p) => [p]
      case None => []
  }

  /** The thread's part of the `exclude` list: its last persona, when the
      thread has a record naming one. */
  function ThreadPersona(threads: map<string, ThreadState>, e: Event): (r: seq<string>)
    ensures ThreadKey(e) in threads && Py.Truthy(threads[ThreadKey(e)].lastPersona) ==>
      r == [threads[ThreadKey(e)].lastPersona.value]
    ensures !(ThreadKey(e) in threads && Py.Truthy(threads[ThreadKey(e)].lastPersona)) ==> r == []
  {
    var key := ThreadKey(e);
    if key in threads && Py.Truthy(threads[key].lastPersona) then [threads[key].lastPersona.value] else []
  }

  /** The `exclude` list `maybe_handle_event` builds: the thread's last
      persona (when the thread has a record naming one), then the sending
      persona (when the sender is one). */
  function ExcludeFor(threads: map<string, ThreadState>, e: Event): (ex: seq<string>)
    ensures ThreadKey(e) in threads && Py.Truthy(threads[ThreadKey(e)].lastPersona) ==>
      threads[ThreadKey(e)].lastPersona.value in ex
    ensures SenderUsername(e) in Reg.Personas ==> SenderUsername(e) in ex
    ensures |ex| <= 2
  {
    var fromThread := ThreadPersona(threads, e);
    var fromSender := SenderPersona(e);
    assert fromThread <= fromThread + fromSender;
    fromThread + fromSender
  }

  // --------------------------------------------------------------- deciding

  /** The draws one `maybe_handle_event` call consumes: those of the
      proactive check it starts with, the `random.random()` compared with
      `p_reply`, the fan-out choice and the positions `random.sample` takes. */
  datatype ProactiveDraws = ProactiveDraws(channel: nat, persona: nat, prompt: nat)
  datatype EventDraws = EventDraws(proactive: ProactiveDraws, reply: real, fanout: nat, sample: seq<nat>)

  /** Why `maybe_handle_event` schedules nothing. */
  datatype Declined =
    | ForeignBot      // a bot message from a bot that is no persona
    | NoPolicy        // the channel has no policy
    | RandomSkip      // the draw exceeded `p_reply`
    | Throttled       // `_should_skip`
    | NobodyEligible  // `_eligible_personas` is empty

  /** What `maybe_handle_event` decides: nothing, or the personas to answer,
      one after another, with the thread they answer in (`target`) and
      whether the answer is posted in that thread. */
  datatype Decision = Decline(why: Declined) | Reply(repliers: seq<string>, target: string, isThread: bool)

  /** The gate sequence of `maybe_handle_event` on the state `threads` /
      `cooldowns` it sees, for the channel whose name is `chName`. */
  function Decide(threads: map<string, ThreadState>, cooldowns: map<string, int>, e: Event, chName: string, now: int, d: EventDraws): (r: Decision)
    ensures r.Decline? <==>
      || IsForeignBot(e)
      || chName !in Reg.ChannelPolicies
      || d.reply > Reg.ChannelPolicies[chName].pReply
      || ShouldSkip(threads, e, now)
      || Eligible(cooldowns, chName, ExcludeFor(threads, e), now) == []
    ensures r.Reply? ==>
      var eligible := Eligible(cooldowns, chName, ExcludeFor(threads, e), now);
      && |r.repliers| == Py.Min(FanoutCount(chName, d.fanout), |eligible|)
      && 1 <= |r.repliers| <= 3
      && Py.Distinct(r.repliers)
      && (forall i :: 0 <= i < |r.repliers| ==> r.repliers[i] in eligible)
    ensures r.Reply? ==> r.isThread == e.threadTs.Some?
    ensures r.Reply? ==> r.target == if e.threadTs.Some? then e.threadTs.value else e.ts
  {
    if IsForeignBot(e) then Decline(ForeignBot)
    else match Reg.PolicyFor(chName)
      case None => Decline(NoPolicy)
      case Some(policy) =>
        if d.reply > policy.pReply then Decline(RandomSkip)
        else if ShouldSkip(threads, e, now) then Decline(Throttled)
        else
          var eligible := Eligible(cooldowns, chName, ExcludeFor(threads, e), now);
          if eligible == [] then Decline(NobodyEligible)
          else
            var k := Py.Min(FanoutCount(chName, d.fanout), |eligible|);
            Py.DistinctSample(eligible, d.sample, k);
            Reply(Py.Sample(eligible, d.sample, k), if e.threadTs.Some? then e.threadTs.value else e.ts, e.threadTs.Some?)
  }

  /** No replier is the thread's last persona, the sender, or on cooldown,
      and every replier is one of the channel's candidates. */
  lemma RepliersAreFresh(threads: map<string, ThreadState>, cooldowns: map<string, int>, e: Event, chName: string, now: int, d: EventDraws, i: nat)
    requires Decide(threads, cooldowns, e, chName, now, d).Reply?
    requires i < |Decide(threads, cooldowns, e, chName, now, d).repliers|
    ensures var p := Decide(threads, cooldowns, e, chName, now, d).repliers[i];
      && p in Reg.ChannelPolicies[chName].candidates
      && CooldownOf(cooldowns, p) < now
      && p != SenderUsername(e)
      && (ThreadKey(e) in threads ==> threads[ThreadKey(e)].lastPersona != Some(p))
  {
    var r := Decide(threads, cooldowns, e, chName, now, d).repliers;
    var ex := ExcludeFor(threads, e);
    assert r[i] in Eligible(cooldowns, chName, ex, now);
    EligibleMember(cooldowns, chName, ex, now, r[i]);
    NoEmptyPersona();
  }

  /** What membership in `_eligible_personas` says about one persona. */
  lemma EligibleMember(cooldowns: map<string, int>, chName: string, exclude: seq<string>, now: int, p: string)
    requires p in Eligible(cooldowns, chName, exclude, now)
    ensures chName in Reg.ChannelPolicies && p in Reg.ChannelPolicies[chName].candidates
    ensures p !in exclude && CooldownOf(cooldowns, p) < now && p in Reg.Personas
  {
  }

  /** `n = max_repliers or _fanout_count(ch_name)`. */
  function FollowupCount(chName: string, maxRepliers: Option<int>, fanDraw: nat): int {
    if maxRepliers.Some? && maxRepliers.value != 0 then maxRepliers.value else FanoutCount(chName, fanDraw)
  }

  /** What `schedule_followups_for_thread` does before scheduling. */
  datatype FollowupPlan =
    | NoFollowup                       // nobody is eligible
    | SampleRaises                     // `random.sample` gets a negative `k`: `ValueError`
    | Followups(repliers: seq<string>)

  /** The selection in `schedule_followups_for_thread`: `min(n, len(eligible))`
      distinct eligible personas, none of them the starter. */
  function PlanFollowups(cooldowns: map<string, int>, chName: string, starter: string, maxRepliers: Option<int>, now: int, fanDraw: nat, sample: seq<nat>): (r: FollowupPlan)
    ensures r.NoFollowup? <==> Eligible(cooldowns, chName, [starter], now) == []
    ensures r.SampleRaises? <==> Eligible(cooldowns, chName, [starter], now) != [] && FollowupCount(chName, maxRepliers, fanDraw) < 0
    ensures r.Followups? ==>
      var eligible := Eligible(cooldowns, chName, [starter], now);
      && |r.repliers| == Py.Min(FollowupCount(chName, maxRepliers, fanDraw), |eligible|)
      && Py.Distinct(r.repliers)
      && (forall i :: 0 <= i < |r.repliers| ==> r.repliers[i] in eligible && r.repliers[i] != starter)
  {
    var eligible := Eligible(cooldowns, chName, [starter], now);
    if eligible == [] then NoFollowup
    else
      var k := Py.Min(FollowupCount(chName, maxRepliers, fanDraw), |eligible|);
      if k < 0 then SampleRaises
      else
        Py.DistinctSample(eligible, sample, k);
        Followups(Py.Sample(eligible, sample, k))
  }

  // ---------------------------------------------------------------- replies

  /** What the `_schedule_reply` calls of `maybe_handle_event` share: the
      event's text (`""` when it has none) and the thread the decision targets. */
  function EventJob(e: Event, chName: string, decision: Decision): (job: ReplyJob)
    requires decision.Reply?
    ensures job.channelId == e.channel && job.chName == chName
    ensures job.eventText == Py.Or(e.text, "")
    ensures job.threadTs == decision.target && job.isThread == decision.isThread
  {
    ReplyJob(chName, e.channel, Py.Or(e.text, ""), decision.target, decision.isThread)
  }

  /** Channel `c`'s pending posts after a proactive check that ended in `outcome`. */
  function PendingAfterProactive(pending: seq<PostArgs>, outcome: ProactiveOutcome, c: string): seq<PostArgs> {
    if PostsTo(outcome, c) then pending + [outcome.post] else pending
  }

  /** What every `_schedule_reply` call of one batch shares. */
  datatype ReplyJob = ReplyJob(chName: string, channelId: string, eventText: string, threadTs: string, isThread: bool)

  /** The `generate_reply` call `_do` makes for `persona`. */
  function Request(job: ReplyJob, persona: string): (q: GenRequest)
    ensures q.persona == persona && q.channelId == job.channelId && q.eventText == job.eventText
    ensures q.threadTs.Some? <==> job.isThread
  {
    GenRequest(persona, job.chName, job.channelId, job.eventText, if job.isThread then Some(job.threadTs) else None)
  }

  /** The `chat_postMessage` arguments `_do` enqueues: the persona's own
      username and icon, with `thread_ts` only for a threaded answer. */
  function ReplyPost(job: ReplyJob, persona: string, text: string): (a: PostArgs)
    requires persona in Reg.Personas
    ensures a.username == persona && a.iconEmoji == Reg.Personas[persona].icon
    ensures a.channel == job.channelId && a.text == text
    ensures a.threadTs == if job.isThread then Some(job.threadTs) else None
  {
    Reg.UsernameIsKey(persona);
    PostArgs(job.channelId, text, Reg.Personas[persona].username, Reg.Personas[persona].icon,
             if job.isThread then Some(job.threadTs) else None)
  }

  /** `THREAD_STATE.get(key)["turns"]`, 0 for a thread without a record. */
  function TurnsOf(threads: map<string, ThreadState>, key: string): nat {
    if key in threads then threads[key].turns else 0
  }

  /** The record `_update_state(key, persona, ts)` leaves for thread `key`. */
  function WithTurn(threads: map<string, ThreadState>, key: string, persona: string, ts: int): (st: ThreadState)
    ensures st.turns == TurnsOf(threads, key) + 1
    ensures st.lastPersona == Some(persona) && st.lastTs == ts
  {
    var st := if key in threads then threads[key] else ThreadState(0, None, 0);
    ThreadState(st.turns + 1, Some(persona), ts)
  }

  /** The thread table after the first `n` repliers' turns are recorded, in order, under `key`. */
  function TurnsRecorded(threads: map<string, ThreadState>, key: string, repliers: seq<string>, clock: nat -> int, n: nat): map<string, ThreadState>
    requires n <= |repliers|
  {
    if n == 0 then threads
    else
      var before := TurnsRecorded(threads, key, repliers, clock, n - 1);
      before[key := WithTurn(before, key, repliers[n - 1], ClockAt(clock, n - 1))]
  }

  /** The cooldown table after the first `n` repliers' turns are recorded. */
  function CooldownsRecorded(cooldowns: map<string, int>, repliers: seq<string>, clock: nat -> int, n: nat): map<string, int>
    requires n <= |repliers|
  {
    if n == 0 then cooldowns
    else CooldownsRecorded(cooldowns, repliers, clock, n - 1)[repliers[n - 1] := ClockAt(clock, n - 1) + PersonaCooldownMs]
  }

  /** The model's answer to `persona` for `job`. */
  function Answer(job: ReplyJob, generate: GenRequest -> Option<string>, persona: string): Option<string> {
    generate(Request(job, persona))
  }

  /** The model answered each of the first `n` repliers. */
  predicate Answered(job: ReplyJob, repliers: seq<string>, generate: GenRequest -> Option<string>, n: nat) {
    n <= |repliers| && forall j :: 0 <= j < n ==> Answer(job, generate, repliers[j]).Some?
  }

  /** The reading of `clock` when the `i`-th replier's turn is recorded. */
  function ClockAt(clock: nat -> int, i: nat): int {
    clock(i)
  }

  /** The posts the first `n` repliers enqueue, in order. */
  function PostsOf(job: ReplyJob, repliers: seq<string>, generate: GenRequest -> Option<string>, n: nat): seq<PostArgs>
    requires n <= |repliers|
    requires forall j :: 0 <= j < n ==> repliers[j] in Reg.Personas
    requires Answered(job, repliers, generate, n)
  {
    if n == 0 then []
    else PostsOf(job, repliers, generate, n - 1) + [ReplyPost(job, repliers[n - 1], Answer(job, generate, repliers[n - 1]).value)]
  }

  /** The first `n` repliers' posts are exactly their answers, in replier
      order, each under the replier's own username. */
  lemma {:induction false} PostsOfAt(job: ReplyJob, repliers: seq<string>, generate: GenRequest -> Option<string>, n: nat)
    requires n <= |repliers| && forall i :: 0 <= i < |repliers| ==> repliers[i] in Reg.Personas
    requires Answered(job, repliers, generate, n)
    ensures |PostsOf(job, repliers, generate, n)| == n
    ensures forall j :: 0 <= j < n ==>
      PostsOf(job, repliers, generate, n)[j] == ReplyPost(job, repliers[j], Answer(job, generate, repliers[j]).value)
  {
    if n > 0 {
      assert Answered(job, repliers, generate, n - 1);
      PostsOfAt(job, repliers, generate, n - 1);
    }
  }

  /** Turns are recorded under the event's own thread key, except for an
      event whose `thread_ts` is present but empty: it counts as threaded
      and its turns go under the empty key, which `_should_skip` never
      consults for it. */
  lemma TargetIsThreadKey(threads: map<string, ThreadState>, cooldowns: map<string, int>, e: Event, chName: string, now: int, d: EventDraws)
    requires Decide(threads, cooldowns, e, chName, now, d).Reply?
    ensures var target := Decide(threads, cooldowns, e, chName, now, d).target;
      target == ThreadKey(e) <==> e.threadTs != Some("") || e.ts == ""
  {
  }

  /** Each table after `n + 1` repliers is the table after `n` extended by replier number `n`. */
  lemma RecordedNext(job: ReplyJob, repliers: seq<string>, generate: GenRequest -> Option<string>, clock: nat -> int, n: nat,
                     threads: map<string, ThreadState>, cooldowns: map<string, int>)
    requires n < |repliers| && forall i :: 0 <= i < |repliers| ==> repliers[i] in Reg.Personas
    requires Answered(job, repliers, generate, n) && Answer(job, generate, repliers[n]).Some?
    ensures Answered(job, repliers, generate, n + 1)
    ensures PostsOf(job, repliers, generate, n + 1)
         == PostsOf(job, repliers, generate, n) + [ReplyPost(job, repliers[n], Answer(job, generate, repliers[n]).value)]
    ensures var before := TurnsRecorded(threads, job.threadTs, repliers, clock, n);
      TurnsRecorded(threads, job.threadTs, repliers, clock, n + 1)
         == before[job.threadTs := WithTurn(before, job.threadTs, repliers[n], ClockAt(clock, n))]
    ensures CooldownsRecorded(cooldowns, repliers, clock, n + 1)
         == CooldownsRecorded(cooldowns, repliers, clock, n)[repliers[n] := ClockAt(clock, n) + PersonaCooldownMs]
  {
  }

  /** Recording `n` turns under `key` leaves every other thread as it was and
      gives `key` exactly `n` more turns, the last by the `n`-th replier. */
  lemma {:induction false} TurnsRecordedAt(threads: map<string, ThreadState>, key: string, repliers: seq<string>, clock: nat -> int, n: nat)
    requires n <= |repliers|
    ensures var after := TurnsRecorded(threads, key, repliers, clock, n);
      && (forall k :: k != key ==> (k in after <==> k in threads) && (k in after ==> after[k] == threads[k]))
      && TurnsOf(after, key) == TurnsOf(threads, key) + n
      && (n > 0 ==> key in after && after[key].lastPersona == Some(repliers[n - 1]) && after[key].lastTs == ClockAt(clock, n - 1))
  {
    if n > 0 {
      TurnsRecordedAt(threads, key, repliers, clock, n - 1);
    }
  }

  /** Recording turns never lowers a thread's turn count, so a thread that
      reached the turn limit keeps every later event in it from being answered. */
  lemma SaturationIsPermanent(threads: map<string, ThreadState>, key: string, repliers: seq<string>, clock: nat -> int, n: nat, e: Event, later: int)
    requires n <= |repliers|
    requires TurnsOf(threads, ThreadKey(e)) >= MaxTurnsPerThread
    ensures ShouldSkip(TurnsRecorded(threads, key, repliers, clock, n), e, later)
  {
    TurnsRecordedAt(threads, key, repliers, clock, n);
    var after := TurnsRecorded(threads, key, repliers, clock, n);
    assert TurnsOf(after, ThreadKey(e)) >= TurnsOf(threads, ThreadKey(e));
  }

  /** After the first `n` repliers spoke, nobody else's cooldown moved. */
  lemma {:induction false} CooldownsKeptAt(cooldowns: map<string, int>, repliers: seq<string>, clock: nat -> int, n: nat)
    requires n <= |repliers|
    ensures forall p :: p !in repliers[..n] ==>
      CooldownOf(CooldownsRecorded(cooldowns, repliers, clock, n), p) == CooldownOf(cooldowns, p)
  {
    if n > 0 {
      CooldownsKeptAt(cooldowns, repliers, clock, n - 1);
      assert repliers[..n] == repliers[..n - 1] + [repliers[n - 1]];
    }
  }

  /** After the first `n` repliers spoke, each one's cooldown ends 12 s after
      its own (last) turn. */
  lemma {:induction false} CooldownsRecordedAt(cooldowns: map<string, int>, repliers: seq<string>, clock: nat -> int, n: nat)
    requires n <= |repliers|
    ensures forall j :: 0 <= j < n && repliers[j] !in repliers[j + 1..n] ==>
      CooldownOf(CooldownsRecorded(cooldowns, repliers, clock, n), repliers[j]) == ClockAt(clock, j) + PersonaCooldownMs
  {
    if n > 0 {
      CooldownsRecordedAt(cooldowns, repliers, clock, n - 1);
      var prev := CooldownsRecorded(cooldowns, repliers, clock, n - 1);
      var last := repliers[n - 1];
      assert CooldownsRecorded(cooldowns, repliers, clock, n) == prev[last := ClockAt(clock, n - 1) + PersonaCooldownMs];
      forall j | 0 <= j < n && repliers[j] !in repliers[j + 1..n]
        ensures CooldownOf(prev[last := ClockAt(clock, n - 1) + PersonaCooldownMs], repliers[j]) == ClockAt(clock, j) + PersonaCooldownMs
      {
        if j < n - 1 {
          LaterSlice(repliers, j, n);
          assert repliers[j] != last && repliers[j] !in repliers[j + 1..n - 1];
        }
      }
    }
  }

  /** The slice after `j` up to `n` is the one up to `n - 1` and the last one. */
  lemma LaterSlice(repliers: seq<string>, j: nat, n: nat)
    requires j < n - 1 && n <= |repliers|
    ensures repliers[j + 1..n] == repliers[j + 1..n - 1] + [repliers[n - 1]]
  {
  }

  /** The cooldown test is strict: a persona whose cooldown ends at the
      current reading is not eligible yet, and it is one instant later when
      nothing else rules it out. */
  lemma CooldownIsStrict(cooldowns: map<string, int>, chName: string, exclude: seq<string>, p: string, until: int)
    requires chName in Reg.ChannelPolicies && p in Reg.ChannelPolicies[chName].candidates && p !in exclude
    ensures p !in Eligible(cooldowns[p := until], chName, exclude, until)
    ensures p in Eligible(cooldowns[p := until], chName, exclude, until + 1)
  {
    var cands := Reg.ChannelPolicies[chName].candidates;
    var i :| 0 <= i < |cands| && cands[i] == p;
    assert CooldownOf(cooldowns[p := until], cands[i]) < until + 1;
  }

  // ------------------------------------------------------------ proactivity

  /** The four prompts a proactive post picks from. */
  const ProactivePrompts: seq<string> := [
    "Share a brief status update about your current work",
    "Ask for help or input on something you're working on",
    "Share an observation or insight related to your work",
    "Post a quick update about progress on your tasks"]

  /** The channel a proactive post picks: one whose `p_reply` is above 0.4. */
  function ProactiveChannel(d: ProactiveDraws): (ch: string)
    ensures ch in Reg.ChannelPolicies && Reg.ChannelPolicies[ch].pReply > ProactiveMinPReply
  {
    Reg.ChannelsAboveNonEmpty(ProactiveMinPReply);
    Py.Choice(Reg.ChannelsAbove(ProactiveMinPReply), d.channel)
  }

  /** How `maybe_trigger_proactive_post` ends. */
  datatype ProactiveOutcome =
    | NotDue                        // less than the interval since the last check
    | ChannelIdUnknown              // the id lookup misses and `_channel_name_inverse` raises `NameError`
    | NobodyAvailable               // no candidate of the channel is off cooldown
    | GenerationFailed              // `generate_reply` raised
    | Posted(persona: string, post: PostArgs)

  /** `_channel_name(channel_id)`: the cached name, else the name the
      platform reports (`info`; `None` when the call raises), else the id. */
  function ResolvedName(idToName: map<string, string>, channelId: string, info: Option<string>): (name: string)
    ensures channelId in idToName && idToName[channelId] != "" ==> name == idToName[channelId]
    ensures (channelId !in idToName || idToName[channelId] == "") && info.None? ==> name == channelId
    ensures (channelId !in idToName || idToName[channelId] == "") && info.Some? ==> name == info.value
  {
    if channelId in idToName && idToName[channelId] != "" then idToName[channelId]
    else if info.Some? then info.value
    else channelId
  }

  /** The cooldown table the gates of `maybe_handle_event` see after its proactive check. */
  function CooldownsAfterProactive(cooldowns: map<string, int>, outcome: ProactiveOutcome, now: int): map<string, int> {
    if outcome.Posted? then cooldowns[outcome.persona := now + PersonaCooldownMs] else cooldowns
  }

  /** Where a due proactive check ends, on the cooldowns and id cache it
      sees. The channel id is looked up by NAME in the id-to-name cache; on a
      miss `_channel_name_inverse` raises `NameError` (it reads a name the
      module never imports), which the handler swallows. A post is top level,
      in the channel the cache names, as a persona of the channel that is off
      cooldown, with the text the model returned for one of the four prompts. */
  function ProactiveAttempt(cooldowns: map<string, int>, idToName: map<string, string>, now: int, d: ProactiveDraws,
                            generate: GenRequest -> Option<string>): (r: ProactiveOutcome)
    ensures r != NotDue
    ensures r == ChannelIdUnknown <==> ProactiveChannel(d) !in idToName || idToName[ProactiveChannel(d)] == ""
    ensures r == NobodyAvailable <==> r != ChannelIdUnknown && Eligible(cooldowns, ProactiveChannel(d), [], now) == []
    ensures r.Posted? ==>
      && r.persona in Eligible(cooldowns, ProactiveChannel(d), [], now)
      && r.post == ReplyPost(ProactiveJob(idToName[ProactiveChannel(d)], d), r.persona, r.post.text)
      && generate(Request(ProactiveJob(idToName[ProactiveChannel(d)], d), r.persona)) == Some(r.post.text)
    ensures r.Posted? || r == GenerationFailed ==>
      r != ChannelIdUnknown && r != NobodyAvailable
      && var persona := Py.Choice(Eligible(cooldowns, ProactiveChannel(d), [], now), d.persona);
        && (r.Posted? ==> r.persona == persona)
        && (r == GenerationFailed <==>
              generate(Request(ProactiveJob(idToName[ProactiveChannel(d)], d), persona)).None?)
  {
    var chName := ProactiveChannel(d);
    if chName !in idToName || idToName[chName] == "" then ChannelIdUnknown
    else
      var eligible := Eligible(cooldowns, chName, [], now);
      if eligible == [] then NobodyAvailable
      else
        var persona := Py.Choice(eligible, d.persona);
        var job := ProactiveJob(idToName[chName], d);
        match generate(Request(job, persona))
        case None => GenerationFailed
        case Some(text) => Posted(persona, ReplyPost(job, persona, text))
  }

  /** When no channel of the policy table is a key of the id-to-name cache
      (the cache maps ids to names), a due proactive check never posts. */
  lemma ProactiveNeverPostsWithIdKeys(cooldowns: map<string, int>, idToName: map<string, string>, now: int, d: ProactiveDraws,
                                      generate: GenRequest -> Option<string>)
    requires forall c :: c in Reg.ChannelPolicies ==> c !in idToName
    ensures ProactiveAttempt(cooldowns, idToName, now, d, generate) == ChannelIdUnknown
  {
  }

  /** The request and post of a proactive post: one of the four prompts, top
      level, in the channel `channelId`. */
  function ProactiveJob(channelId: string, d: ProactiveDraws): (job: ReplyJob)
    ensures job.channelId == channelId && job.eventText in ProactivePrompts && !job.isThread
  {
    ReplyJob(ProactiveChannel(d), channelId, Py.Choice(ProactivePrompts, d.prompt), "", false)
  }

  /** A proactive check enqueues a post in channel `c`. */
  predicate PostsTo(outcome: ProactiveOutcome, c: string) {
    outcome.Posted? && c == outcome.post.channel
  }

  // ------------------------------------------------------------------ state

  /** The conductor's module-level state: `THREAD_STATE`, `PERSONA_COOLDOWN`,
      `CHANNEL_QUEUES`, `LAST_PROACTIVE_CHECK`, and the shared channel caches. */
  class ConductorState {
    var threads: map<string, ThreadState>
    var cooldowns: map<string, int>
    var queues: map<string, DQ.ChannelQueue>
    var lastProactiveCheck: int
    const maps: Reg.ChannelMaps
    /** The queues this state owns. */
    ghost var Repr: set<DQ.ChannelQueue>

    /** Every queue is owned by this state and paced at 0.8 s, and no two
        channels share a queue. (Each queue's own invariant is kept by
        `DispatchQueue.ChannelQueue.Enqueue`.) */
    ghost predicate Valid()
      reads this`queues, this`Repr
    {
      && (forall c :: c in queues ==> queues[c] in Repr && queues[c].cooldown == QueueCooldownMs)
      && (forall c, c' :: c in queues && c' in queues && c != c' ==> queues[c] != queues[c'])
    }

    /** Every queue that existed keeps its worker's state (its `last`, whether
        it runs, its log and its counts); a queue created since has an idle worker. */
    twostate predicate WorkersKept()
      reads this`Repr, Repr
    {
      forall q :: q in Repr ==> q.Worker() == if q in old(Repr) then old(q.Worker()) else DQ.IdleWorker
    }

    /** The actions waiting in channel `c`'s queue; none when it has no queue yet. */
    ghost function Pending(c: string): seq<PostArgs>
      reads this`queues, this`Repr, Repr
      requires Valid()
    {
      if c in queues then queues[c].pending else []
    }

    /** The state at import time: empty tables, `LAST_PROACTIVE_CHECK = 0`. */
    constructor (maps: Reg.ChannelMaps)
      ensures Valid()
      ensures threads == map[] && cooldowns == map[] && queues == map[] && lastProactiveCheck == 0
      ensures this.maps == maps
    {
      threads, cooldowns, queues, lastProactiveCheck := map[], map[], map[], 0;
      this.maps := maps;
      Repr := {};
    }

    /** `_queue_for(channel_id)`: the channel's queue, created (empty, its
        worker running, with a 0.8 s cooldown) on first use. */
    method QueueFor(channelId: string) returns (q: DQ.ChannelQueue)
      requires Valid()
      modifies this`queues, this`Repr
      ensures Valid()
      ensures Repr >= old(Repr) && fresh(Repr - old(Repr))
      ensures channelId in queues && q == queues[channelId]
      ensures channelId in old(queues) ==> queues == old(queues)
      ensures channelId !in old(queues) ==>
        && fresh(q) && queues == old(queues)[channelId := q]
        && q.pending == [] && q.enqueued == [] && q.Worker() == DQ.IdleWorker
      ensures forall c :: Pending(c) == old(Pending(c))
      ensures WorkersKept()
    {
      if channelId !in queues {
        q := new DQ.ChannelQueue(QueueCooldownMs);
        queues := queues[channelId := q];
        Repr := Repr + {q};
      } else {
        q := queues[channelId];
      }
    }

    /** `q.enqueue(chat_postMessage, **a)` on the queue of `a`'s channel. */
    method Append(q: DQ.ChannelQueue, a: PostArgs)
      requires Valid() && a.channel in queues && q == queues[a.channel]
      modifies q
      ensures Valid()
      ensures forall c :: Pending(c) == if c == a.channel then old(Pending(c)) + [a] else old(Pending(c))
      ensures WorkersKept()
    {
      q.Enqueue(a);
    }

    /** `_queue_for(a.channel).enqueue(chat_postMessage, **a)`: the post is
        appended to its channel's queue and every other queue keeps its contents. */
    method EnqueuePost(a: PostArgs)
      requires Valid()
      modifies this`queues, this`Repr, Repr
      ensures Valid()
      ensures Repr >= old(Repr) && fresh(Repr - old(Repr))
      ensures forall c :: Pending(c) == if c == a.channel then old(Pending(c)) + [a] else old(Pending(c))
      ensures WorkersKept()
    {
      var q := QueueFor(a.channel);
      Append(q, a);
    }

    /** `_update_state(key, persona, ts)` run at `now`: one more turn for the
        thread, by `persona` at `ts`, and `persona` silent until 12 s after `now`. */
    method UpdateState(key: string, persona: string, ts: int, now: int)
      modifies this`threads, this`cooldowns
      ensures threads == old(threads)[key := WithTurn(old(threads), key, persona, ts)]
      ensures cooldowns == old(cooldowns)[persona := now + PersonaCooldownMs]
    {
      threads := threads[key := WithTurn(threads, key, persona, ts)];
      cooldowns := cooldowns[persona := now + PersonaCooldownMs];
    }

    /** `mark_persona_cooldown(persona, seconds)` run at `now`. */
    method MarkPersonaCooldown(persona: string, now: int, ms: int := PersonaCooldownMs)
      modifies this`cooldowns
      ensures cooldowns == old(cooldowns)[persona := now + ms]
    {
      cooldowns := cooldowns[persona := now + ms];
    }

    /** `_count_active_threads(channel_id, within_seconds)`: the number of
        threads, in any channel, whose last post is less than `withinMs` old;
        `channelId` plays no part. */
    method CountActiveThreads(channelId: string, now: int, withinMs: int := ActiveWindowMs) returns (count: nat)
      ensures count == |ActiveThreads(threads, now, withinMs)|
    {
      count := 0;
      var todo := threads.Keys;
      ghost var seen: set<string> := {};
      while todo != {}
        invariant todo + seen == threads.Keys && todo !! seen
        invariant count == |set k | k in seen && threads[k].lastTs > now - withinMs|
        decreases |todo|
      {
        var k :| k in todo;
        ghost var before := set k' | k' in seen && threads[k'].lastTs > now - withinMs;
        ghost var after := set k' | k' in seen + {k} && threads[k'].lastTs > now - withinMs;
        if threads[k].lastTs > now - withinMs {
          assert after == before + {k};
          count := count + 1;
        } else {
          assert after == before;
        }
        todo := todo - {k};
        seen := seen + {k};
      }
      assert seen == threads.Keys;
    }

    /** `_channel_name(channel_id)`: a name the platform reports is cached. */
    method ChannelName(channelId: string, info: Option<string>) returns (name: string)
      modifies maps
      ensures name == ResolvedName(old(maps.idToName), channelId, info)
      ensures maps.idToName ==
        if (channelId in old(maps.idToName) && old(maps.idToName)[channelId] != "") || info.None? then old(maps.idToName)
        else old(maps.idToName)[channelId := info.value]
      ensures maps.nameToId == old(maps.nameToId)
    {
      if channelId in maps.idToName && maps.idToName[channelId] != "" {
        return maps.idToName[channelId];
      }
      if info.Some? {
        maps.idToName := maps.idToName[channelId := info.value];
        return info.value;
      }
      return channelId;
    }

    /** `maybe_trigger_proactive_post()` with the check reading the clock at
        `now`: nothing happens within 90 s of the last check; otherwise the
        check time is taken before the attempt, so an attempt that fails still
        uses up the interval. A post's cooldown is marked at `markNow`, the
        clock reading after `generate_reply` returned. */
    method MaybeTriggerProactivePost(now: int, markNow: int, d: ProactiveDraws, generate: GenRequest -> Option<string>) returns (outcome: ProactiveOutcome)
      requires Valid()
      modifies this`lastProactiveCheck, this`cooldowns, this`queues, this`Repr, Repr
      ensures Valid()
      ensures Repr >= old(Repr) && fresh(Repr - old(Repr))
      ensures outcome == NotDue <==> now - old(lastProactiveCheck) < ProactiveIntervalMs
      ensures lastProactiveCheck == if outcome == NotDue then old(lastProactiveCheck) else now
      ensures outcome != NotDue ==> outcome == ProactiveAttempt(old(cooldowns), maps.idToName, now, d, generate)
      ensures cooldowns == CooldownsAfterProactive(old(cooldowns), outcome, markNow)
      ensures forall c :: Pending(c) == if PostsTo(outcome, c) then old(Pending(c)) + [outcome.post] else old(Pending(c))
      ensures WorkersKept()
    {
      if now - lastProactiveCheck < ProactiveIntervalMs {
        return NotDue;
      }
      outcome := ProactiveAttempt(cooldowns, maps.idToName, now, d, generate);
      ApplyProactive(outcome, now, markNow);
    }

    /** The effect of a due proactive check at `now`: the check time is
        taken and a post, if one was made, is enqueued and its persona put
        on cooldown at the later reading `markNow`. */
    method ApplyProactive(outcome: ProactiveOutcome, now: int, markNow: int)
      requires Valid()
      modifies this`lastProactiveCheck, this`cooldowns, this`queues, this`Repr, Repr
      ensures Valid()
      ensures lastProactiveCheck == now
      ensures Repr >= old(Repr) && fresh(Repr - old(Repr))
      ensures cooldowns == CooldownsAfterProactive(old(cooldowns), outcome, markNow)
      ensures forall c :: Pending(c) == if PostsTo(outcome, c) then old(Pending(c)) + [outcome.post] else old(Pending(c))
      ensures WorkersKept()
    {
      lastProactiveCheck := now;
      if outcome.Posted? {
        EnqueuePost(outcome.post);
        MarkPersonaCooldown(outcome.persona, markNow);
      }
    }

    /** The end of `_do()` for `persona` once the model answered `text` at
        clock reading `t`: the answer is enqueued, then the turn recorded. */
    method PostReply(job: ReplyJob, persona: string, text: string, t: int)
      requires Valid() && persona in Reg.Personas
      modifies this`threads, this`cooldowns, this`queues, this`Repr, Repr
      ensures Valid()
      ensures Repr >= old(Repr) && fresh(Repr - old(Repr))
      ensures threads == old(threads)[job.threadTs := WithTurn(old(threads), job.threadTs, persona, t)]
      ensures cooldowns == old(cooldowns)[persona := t + PersonaCooldownMs]
      ensures Pending(job.channelId) == old(Pending(job.channelId)) + [ReplyPost(job, persona, text)]
      ensures forall c :: c != job.channelId ==> Pending(c) == old(Pending(c))
      ensures WorkersKept()
    {
      EnqueuePost(ReplyPost(job, persona, text));
      UpdateState(job.threadTs, persona, t, t);
    }

    /** The `_schedule_reply` calls of one batch, run one after another: each
        replier's answer is generated, enqueued and its turn recorded under
        the batch's thread key; the first generation that raises ends the
        batch, so `done` repliers got through. */
    method ScheduleReplies(repliers: seq<string>, job: ReplyJob, generate: GenRequest -> Option<string>, clock: nat -> int) returns (done: nat)
      requires Valid()
      requires forall i :: 0 <= i < |repliers| ==> repliers[i] in Reg.Personas
      modifies this`threads, this`cooldowns, this`queues, this`Repr, Repr
      ensures Repr >= old(Repr) && fresh(Repr - old(Repr))
      ensures Recorded(repliers, job, generate, clock, done, old(Pending(job.channelId)), old(threads), old(cooldowns))
      ensures done < |repliers| ==> Answer(job, generate, repliers[done]).None?
      ensures forall c :: c != job.channelId ==> Pending(c) == old(Pending(c))
      ensures WorkersKept()
    {
      done := 0;
      ghost var base, threads0, cooldowns0 := Pending(job.channelId), threads, cooldowns;
      while done < |repliers| && Answer(job, generate, repliers[done]).Some?
        invariant Repr >= old(Repr) && fresh(Repr - old(Repr))
        invariant Recorded(repliers, job, generate, clock, done, base, threads0, cooldowns0)
        invariant forall c :: c != job.channelId ==> Pending(c) == old(Pending(c))
        invariant WorkersKept()
      {
        RecordAnswer(repliers, job, generate, clock, done, base, threads0, cooldowns0);
        done := done + 1;
      }
    }

    /** The state after the first `done` repliers of a batch got through,
        starting from pending posts `base` and tables `threads0`, `cooldowns0`. */
    ghost predicate Recorded(repliers: seq<string>, job: ReplyJob, generate: GenRequest -> Option<string>, clock: nat -> int,
                             done: nat, base: seq<PostArgs>, threads0: map<string, ThreadState>, cooldowns0: map<string, int>)
      reads this`threads, this`cooldowns, this`queues, this`Repr, Repr
    {
      && Valid()
      && (forall i :: 0 <= i < |repliers| ==> repliers[i] in Reg.Personas)
      && Answered(job, repliers, generate, done)
      && threads == TurnsRecorded(threads0, job.threadTs, repliers, clock, done)
      && cooldowns == CooldownsRecorded(cooldowns0, repliers, clock, done)
      && Pending(job.channelId) == base + PostsOf(job, repliers, generate, done)
    }

    /** One pass of the batch loop: the answer of replier number `done` is
        posted and its turn recorded, which extends every table by that replier. */
    method RecordAnswer(repliers: seq<string>, job: ReplyJob, generate: GenRequest -> Option<string>, clock: nat -> int,
                        done: nat, ghost base: seq<PostArgs>, ghost threads0: map<string, ThreadState>, ghost cooldowns0: map<string, int>)
      requires Recorded(repliers, job, generate, clock, done, base, threads0, cooldowns0)
      requires done < |repliers| && Answer(job, generate, repliers[done]).Some?
      modifies this`threads, this`cooldowns, this`queues, this`Repr, Repr
      ensures Repr >= old(Repr) && fresh(Repr - old(Repr))
      ensures Recorded(repliers, job, generate, clock, done + 1, base, threads0, cooldowns0)
      ensures forall c :: c != job.channelId ==> Pending(c) == old(Pending(c))
      ensures WorkersKept()
    {
      var text := Answer(job, generate, repliers[done]).value;
      ghost var posts := PostsOf(job, repliers, generate, done);
      RecordedNext(job, repliers, generate, clock, done, threads0, cooldowns0);
      assert (base + posts) + [ReplyPost(job, repliers[done], text)] == base + (posts + [ReplyPost(job, repliers[done], text)]);
      PostReply(job, repliers[done], text, ClockAt(clock, done));
    }

    /** The part of `maybe_handle_event` after the proactive check and the
        channel-name lookup: the gates decide on the state as it is, and a
        reply schedules the chosen personas in turn. */
    method Respond(e: Event, chName: string, now: int, d: EventDraws, generate: GenRequest -> Option<string>, clock: nat -> int)
      returns (decision: Decision, done: nat)
      requires Valid()
      modifies this`threads, this`cooldowns, this`queues, this`Repr, Repr
      ensures Valid()
      ensures Repr >= old(Repr) && fresh(Repr - old(Repr))
      ensures decision == Decide(old(threads), old(cooldowns), e, chName, now, d)
      ensures decision.Decline? ==>
        && done == 0 && threads == old(threads) && cooldowns == old(cooldowns)
        && Pending(e.channel) == old(Pending(e.channel))
      ensures decision.Reply? ==>
        && Recorded(decision.repliers, EventJob(e, chName, decision), generate, clock, done,
                    old(Pending(e.channel)), old(threads), old(cooldowns))
        && (done < |decision.repliers| ==> Answer(EventJob(e, chName, decision), generate, decision.repliers[done]).None?)
      ensures forall c :: c != e.channel ==> Pending(c) == old(Pending(c))
      ensures WorkersKept()
    {
      decision := Decide(threads, cooldowns, e, chName, now, d);
      done := 0;
      if decision.Reply? {
        done := ScheduleReplies(decision.repliers, EventJob(e, chName, decision), generate, clock);
      }
    }

    /** `maybe_handle_event(event)`: the proactive check runs first, reading
        the clock at `checkNow` and marking a post's cooldown at `markNow`, so
        that cooldown is already in force when the gates look; then the channel
        name is resolved (`info` is what the platform reports for an uncached
        id), the gates decide at the later reading `now`, and the repliers are
        scheduled one after another. */
    method HandleEvent(e: Event, checkNow: int, markNow: int, now: int, d: EventDraws, info: Option<string>,
                       generate: GenRequest -> Option<string>, clock: nat -> int)
      returns (proactive: ProactiveOutcome, chName: string, decision: Decision, done: nat)
      requires Valid()
      modifies this`lastProactiveCheck, this`threads, this`cooldowns, this`queues, this`Repr, Repr, maps
      ensures Valid()
      ensures Repr >= old(Repr) && fresh(Repr - old(Repr))
      ensures proactive == NotDue <==> checkNow - old(lastProactiveCheck) < ProactiveIntervalMs
      ensures lastProactiveCheck == if proactive == NotDue then old(lastProactiveCheck) else checkNow
      ensures proactive != NotDue ==> proactive == ProactiveAttempt(old(cooldowns), old(maps.idToName), checkNow, d.proactive, generate)
      ensures chName == ResolvedName(old(maps.idToName), e.channel, info)
      ensures maps.idToName ==
        if (e.channel in old(maps.idToName) && old(maps.idToName)[e.channel] != "") || info.None? then old(maps.idToName)
        else old(maps.idToName)[e.channel := info.value]
      ensures maps.nameToId == old(maps.nameToId)
      ensures decision == Decide(old(threads), CooldownsAfterProactive(old(cooldowns), proactive, markNow), e, chName, now, d)
      ensures decision.Decline? ==>
        && done == 0 && threads == old(threads) && cooldowns == CooldownsAfterProactive(old(cooldowns), proactive, markNow)
        && Pending(e.channel) == PendingAfterProactive(old(Pending(e.channel)), proactive, e.channel)
      ensures decision.Reply? ==>
        && Recorded(decision.repliers, EventJob(e, chName, decision), generate, clock, done,
                    PendingAfterProactive(old(Pending(e.channel)), proactive, e.channel),
                    old(threads), CooldownsAfterProactive(old(cooldowns), proactive, markNow))
        && (done < |decision.repliers| ==> Answer(EventJob(e, chName, decision), generate, decision.repliers[done]).None?)
      ensures forall c :: c != e.channel ==> Pending(c) == PendingAfterProactive(old(Pending(c)), proactive, c)
      ensures WorkersKept()
    {
      proactive, chName := ProactiveThenName(e.channel, checkNow, markNow, d.proactive, info, generate);
      ghost var threads1, cooldowns1, pending1 := threads, cooldowns, Pending(e.channel);
      decision, done := Respond(e, chName, now, d, generate, clock);
      assert decision.Reply? ==>
        Recorded(decision.repliers, EventJob(e, chName, decision), generate, clock, done, pending1, threads1, cooldowns1);
    }

    /** The first half of `maybe_handle_event`: the proactive check (reading
        the clock at `now`, and at `markNow` for a post's cooldown), then the
        event channel's name, read from the cache or from `info`. */
    method ProactiveThenName(channelId: string, now: int, markNow: int, d: ProactiveDraws, info: Option<string>,
                             generate: GenRequest -> Option<string>)
      returns (proactive: ProactiveOutcome, chName: string)
      requires Valid()
      modifies this`lastProactiveCheck, this`cooldowns, this`queues, this`Repr, Repr, maps
      ensures Valid()
      ensures Repr >= old(Repr) && fresh(Repr - old(Repr))
      ensures proactive == NotDue <==> now - old(lastProactiveCheck) < ProactiveIntervalMs
      ensures lastProactiveCheck == if proactive == NotDue then old(lastProactiveCheck) else now
      ensures proactive != NotDue ==> proactive == ProactiveAttempt(old(cooldowns), old(maps.idToName), now, d, generate)
      ensures chName == ResolvedName(old(maps.idToName), channelId, info)
      ensures maps.idToName ==
        if (channelId in old(maps.idToName) && old(maps.idToName)[channelId] != "") || info.None? then old(maps.idToName)
        else old(maps.idToName)[channelId := info.value]
      ensures maps.nameToId == old(maps.nameToId)
      ensures cooldowns == CooldownsAfterProactive(old(cooldowns), proactive, markNow)
      ensures forall c :: Pending(c) == PendingAfterProactive(old(Pending(c)), proactive, c)
      ensures WorkersKept()
    {
      proactive := MaybeTriggerProactivePost(now, markNow, d, generate);
      chName := ChannelName(channelId, info);
    }

    /** `schedule_followups_for_thread(...)` at `now`: up to `max_repliers`
        (or a fan-out draw when that is `None` or 0) personas of the channel
        other than the starter answer in thread `threadTs`, one after another. */
    method ScheduleFollowups(chName: string, channelId: string, starter: string, eventText: string, threadTs: string,
                             maxRepliers: Option<int>, now: int, fanDraw: nat, sample: seq<nat>,
                             generate: GenRequest -> Option<string>, clock: nat -> int)
      returns (plan: FollowupPlan, done: nat)
      requires Valid()
      modifies this`threads, this`cooldowns, this`queues, this`Repr, Repr
      ensures Valid()
      ensures Repr >= old(Repr) && fresh(Repr - old(Repr))
      ensures plan == PlanFollowups(old(cooldowns), chName, starter, maxRepliers, now, fanDraw, sample)
      ensures !plan.Followups? ==>
        && done == 0 && threads == old(threads) && cooldowns == old(cooldowns)
        && Pending(channelId) == old(Pending(channelId))
      ensures plan.Followups? ==>
        && Recorded(plan.repliers, ReplyJob(chName, channelId, eventText, threadTs, true), generate, clock, done,
                    old(Pending(channelId)), old(threads), old(cooldowns))
        && (done < |plan.repliers| ==> Answer(ReplyJob(chName, channelId, eventText, threadTs, true), generate, plan.repliers[done]).None?)
      ensures forall c :: c != channelId ==> Pending(c) == old(Pending(c))
      ensures WorkersKept()
    {
      plan := PlanFollowups(cooldowns, chName, starter, maxRepliers, now, fanDraw, sample);
      done := 0;
      if plan.Followups? {
        done := ScheduleReplies(plan.repliers, ReplyJob(chName, channelId, eventText, threadTs, true), generate, clock);
      }
    }
  }
}
