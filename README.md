# Slack persona simulator — a verified model of its core

The simulator populates a Slack workspace with nine engineering personas
(`Gabriella_PM`, `Mike_BE`, `Sarah_FE`, …). Its core is the **conductor**,
which reacts to inbound message events. For each event it works through
these steps:

- it runs a periodic proactive post first;
- it decides, through a sequence of gates, whether to answer and by whom:
  - the bot filter;
  - the per-thread turn limit and grace period;
  - the active-thread limit;
  - the channel's reply probability;
  - fan-out, and eligibility by persona cooldown;
- it generates each answer and enqueues it on a per-channel **dispatch
  queue**, whose worker paces calls and retries a rate-limited call once;
- it records the turn in its thread table and the persona's cooldown.

Around the conductor sit:

- the **persona registry**: the persona table, the per-channel policy table
  and the id/name caches;
- the **agent engine**: context filtering and prompt construction;
- the **autonomous loop**: a bounded in-memory history and one simulated turn;
- the **Slack client** `post_message` with its 429 retry loop;
- a small **persona router**;
- the **API-docs scraper**: it extracts, de-duplicates, merges and groups
  method entries.

How the model represents the program:

- Time is a `now` parameter, in integer milliseconds.
- Each random choice is a `nat` draw, taken modulo the length of the list it
  picks from.
- Each call into the platform or the language model becomes an oracle
  parameter whose `None` stands for the call raising.
- State the source changes in place is modelled as classes:
  - `Conductor.ConductorState` holds the thread table, the cooldowns, the
    per-channel queues and the last proactive check;
  - `DispatchQueue.ChannelQueue`;
  - `Autonomous.SimulationHistory`;
  - `PersonaRegistry.ChannelMaps`.
- Loops in the source become `while` loops proved against specification
  functions.

Modules, one per source file:

- `Wrappers`, `Py` (the Python string and list semantics the code relies on)
  and `SlackTypes` are shared.
- `PersonaRegistry`, `DispatchQueue`, `Conductor`, `AgentEngine`,
  `Autonomous`, `SlackClient`, `PersonaRouter` and `DocsScraper` follow the
  program's files.

## Model

| member | source | states |
|---|---|---|
| PersonaRegistry.PersonaNamesAreKeys | src/slack_io/persona_registry.py:1-11 | the persona order lists every `PERSONAS` key exactly once |
| PersonaRegistry.ChannelNamesAreKeys | src/slack_io/persona_registry.py:14-24 | the channel order lists every `CHANNEL_POLICY` key exactly once |
| PersonaRegistry.UsernameIsKey | src/slack_io/persona_registry.py:2-10 | every persona's `username` equals its own key |
| PersonaRegistry.UsernamesAreKeys | src/slack_io/persona_registry.py:2-10 | some persona has username `u` iff `u` is a persona key |
| PersonaRegistry.IndexOfPersona | src/slack_io/persona_registry.py:1-11 | every persona key occurs in the insertion order |
| PersonaRegistry.IndexOfChannel | src/slack_io/persona_registry.py:14-24 | every channel key occurs in the insertion order |
| PersonaRegistry.PolicyFor | src/slack_io/persona_registry.py:14-24 | a policy exists iff the channel is a key; its candidates are non-empty, distinct and all personas, and its `p_reply` lies in [0.2, 0.85] |
| PersonaRegistry.ChannelsAbove | src/slack_io/conductor.py:232 | every listed channel has a policy with `p_reply` above the threshold |
| PersonaRegistry.ChannelsAboveComplete | src/slack_io/conductor.py:232 | every channel above the threshold is listed |
| PersonaRegistry.ChannelsAboveDistinct | src/slack_io/conductor.py:232 | no channel is listed twice |
| PersonaRegistry.ChannelsAboveNonEmpty | src/slack_io/conductor.py:232-234 | the list is non-empty iff the threshold is below 0.85, so `if not active_channels` never fires for 0.4 or 0.3 |
| PersonaRegistry.PReplyAtMost | src/slack_io/persona_registry.py:15-23 | no channel replies with probability above 0.85 |
| PersonaRegistry.QuietChannels | src/slack_io/persona_registry.py:15-23 | only `announcements` and `random` are at or below 0.3 |
| PersonaRegistry.ChannelMaps.constructor | src/slack_io/persona_registry.py:30-31 | both id/name caches start empty |
| SlackTypes.RetryWaitMs | src/slack_io/queue.py:22-24 | a missing header waits 1.1 s; a present header raises exactly when `int()` rejects it or reads a negative number, and otherwise waits `int(header)` s + 0.1 s |
| SlackTypes.RetryWaitShown | src/slack_io/slack_client.py:31-32 | a header holding `str(n)` waits `n` s + 0.1 s |
| SlackTypes.RetryHeaderPadded | src/slack_io/slack_client.py:31-32 | `int()` reads a header with surrounding whitespace: `" 2"` waits 2.1 s |
| SlackTypes.RetryHeaderGrouped | src/slack_io/slack_client.py:31-32 | `int()` reads an underscore between digits: `"1_0"` waits 10.1 s |
| SlackTypes.RetryHeaderNotInteger | src/slack_io/slack_client.py:31-32 | a header that is no integer, such as `"abc"`, raises |
| SlackTypes.RetryHeaderDoubleUnderscore | src/slack_io/slack_client.py:31-32 | a doubled underscore, as in `"1__0"`, raises |
| SlackTypes.RetryHeaderNegative | src/slack_io/slack_client.py:31-32 | a negative header such as `"-1"` parses, and the pause it asks for raises |
| DispatchQueue.StartDelay | src/slack_io/queue.py:17 | the first attempt starts no earlier than `last + cooldown`, and exactly then when it had to wait |
| DispatchQueue.Outcome | src/slack_io/queue.py:19-27 | sent iff the first call succeeds; dropped iff it fails other than by 429; retried-and-sent iff a 429 is followed by a successful retry; the worker is never blocked |
| DispatchQueue.Attempts | src/slack_io/queue.py:19-28 | one or two attempts; a second, marked as a retry of the same action, exactly after a 429 whose header parses, starting after its pause |
| DispatchQueue.ExtendWellSpaced | src/slack_io/queue.py:13-29 | two well-spaced attempt logs, where the second may follow the first, join into one |
| DispatchQueue.SeqNoMonotone | src/slack_io/queue.py:13-29 | a well-spaced log attempts actions in FIFO order; a non-retry attempt is of a strictly later action |
| DispatchQueue.AtMostTwoAttempts | src/slack_io/queue.py:19-27 | no action is attempted more than twice, and its second attempt is the retry right after its first |
| DispatchQueue.EnqueueKeepsInv | src/slack_io/queue.py:31-32 | enqueueing preserves the agreement between the log, the pending actions and what was enqueued |
| DispatchQueue.AttemptKeepsInv | src/slack_io/queue.py:13-29 | one worker iteration preserves that agreement, with its attempts appended to a still well-spaced log |
| DispatchQueue.ChannelQueue.constructor | src/slack_io/queue.py:5-10 | an empty queue with a running worker, `last = 0` and the given cooldown (1.1 s by default) |
| DispatchQueue.ChannelQueue.Enqueue | src/slack_io/queue.py:31-32 | the action is appended; nothing else changes |
| DispatchQueue.ChannelQueue.Step | src/slack_io/queue.py:13-29 | one worker iteration: takes the head action, makes the attempts of `Attempts`, advances `last` to the end of the last call and counts one `task_done`; a stopped worker or an empty queue does nothing |
| Conductor.Eligible | src/slack_io/conductor.py:44-51 | exactly the channel's candidates, in policy order, not excluded and with cooldown strictly before `now`; empty for a channel without a policy |
| Conductor.EligibleMember | src/slack_io/conductor.py:44-51 | a member of the eligible list is a candidate of the channel, not excluded, off cooldown and a persona |
| Conductor.CooldownIsStrict | src/slack_io/conductor.py:50 | a persona whose cooldown ends at `t` is not eligible at `t` and is eligible at `t + 1` |
| Conductor.FanoutCount | src/slack_io/conductor.py:92-96 | 1–3 repliers in busy channels, 1–2 in moderate ones, exactly 1 elsewhere |
| Conductor.FanoutReachable | src/slack_io/conductor.py:92-96 | every count in those ranges is produced by some draw |
| Conductor.PersonaWithUsername | src/slack_io/conductor.py:173-176 | the found persona has the username; when none is found, no persona has it |
| Conductor.PersonaWithUsernameIsItself | src/slack_io/conductor.py:173-176 | the lookup by username returns the username itself exactly when it is a persona key |
| Conductor.NoEmptyPersona | src/slack_io/conductor.py:173-176 | the empty sender name is no persona, so it is never excluded |
| Conductor.SenderPersona | src/slack_io/conductor.py:173-176 | the sender is excluded iff its username is a persona's |
| Conductor.ThreadPersona | src/slack_io/conductor.py:166-170 | the thread's last persona is excluded iff the thread has one |
| Conductor.ExcludeFor | src/slack_io/conductor.py:166-176 | the exclusion list holds the thread's last persona and the sending persona, at most two names |
| Conductor.Decide | src/slack_io/conductor.py:118-191 | declines exactly when a gate fails (a foreign bot, no channel policy, the draw above `p_reply`, `_should_skip`, nobody eligible); otherwise answers with `min(n, |eligible|)` distinct eligible personas, threaded iff the event has `thread_ts`, targeting `thread_ts` or `ts` |
| Conductor.RepliersAreFresh | src/slack_io/conductor.py:166-185 | no replier is the thread's last persona, the sending persona, or on cooldown |
| Conductor.TargetIsThreadKey | src/slack_io/conductor.py:190-191 | turns are recorded under the event's own thread key, except for an empty `thread_ts` |
| Conductor.PlanFollowups | src/slack_io/conductor.py:205-213 | nothing when no persona other than the starter is eligible; `random.sample` raises for a negative `max_repliers`; otherwise `min(n, |eligible|)` distinct eligible non-starter personas, with `n = max_repliers` when truthy |
| Conductor.EventJob | src/slack_io/conductor.py:190-199 | every reply of one event shares its channel, text, target key and threadedness |
| Conductor.Request | src/slack_io/conductor.py:325 | the generation request passes `thread_ts` exactly for a threaded reply |
| Conductor.ReplyPost | src/slack_io/conductor.py:329-342 | the enqueued post uses the persona's username and icon, and carries `thread_ts` exactly when threaded |
| Conductor.WithTurn | src/slack_io/conductor.py:53-57 | one more turn, the persona as last speaker, and the post time |
| Conductor.PostsOfAt | src/slack_io/conductor.py:320-344 | the posts of the first `n` repliers are exactly their answers, in replier order |
| Conductor.RecordedNext | src/slack_io/conductor.py:320-344 | each new replier extends the posts, the thread record and the cooldowns by exactly its own step |
| Conductor.TurnsRecordedAt | src/slack_io/conductor.py:53-57 | recording turns under one key leaves every other thread unchanged and adds exactly `n` turns to that key, with the last replier as last persona |
| Conductor.SaturationIsPermanent | src/slack_io/conductor.py:53-78 | a thread at the turn limit is skipped forever after, since turns never decrease |
| Conductor.CooldownsKeptAt | src/slack_io/conductor.py:57 | a persona that did not speak keeps its cooldown |
| Conductor.CooldownsRecordedAt | src/slack_io/conductor.py:57 | each replier's cooldown ends 12 s after its last turn |
| Conductor.ProactiveChannel | src/slack_io/conductor.py:232-236 | the proactive channel is one with `p_reply` above 0.4 |
| Conductor.ResolvedName | src/slack_io/conductor.py:33-42 | the cached name when non-empty, else the platform's name, else the id itself |
| Conductor.ProactiveAttempt | src/slack_io/conductor.py:230-281 | a due attempt fails at the id lookup iff the channel name is no key of the id-to-name cache; otherwise it finds nobody eligible, or draws an eligible persona and fails exactly when the reply generation for it raises, or posts that persona's top-level message with one of the four prompts and the generated text and marks its cooldown |
| Conductor.ProactiveNeverPostsWithIdKeys | src/slack_io/conductor.py:237-285 | while the cache is keyed by ids only, no proactive post is ever made |
| Conductor.ProactiveJob | src/slack_io/conductor.py:255-266 | a proactive request is top-level, in the resolved channel, with one of the four prompts |
| Conductor.ConductorState.constructor | src/slack_io/conductor.py:13-26 | empty tables, no queues, `LAST_PROACTIVE_CHECK = 0` |
| Conductor.ConductorState.QueueFor | src/slack_io/conductor.py:28-31 | the channel's queue, created empty with a 0.8 s cooldown and an idle worker on first use; no pending action and no worker's state changes |
| Conductor.ConductorState.Append | src/slack_io/conductor.py:333-342 | the post is appended to its channel's queue only; every worker keeps its state |
| Conductor.ConductorState.EnqueuePost | src/slack_io/conductor.py:333-342 | the post is appended to its channel's queue, which is created with an idle worker if needed; other queues keep their pending actions, and every existing worker keeps its `last`, its log, its counts and whether it runs |
| Conductor.ConductorState.UpdateState | src/slack_io/conductor.py:53-58 | one more turn for the thread and a 12 s cooldown for the persona |
| Conductor.ConductorState.MarkPersonaCooldown | src/slack_io/conductor.py:202-203 | the persona's cooldown ends `seconds` after now |
| Conductor.ConductorState.CountActiveThreads | src/slack_io/conductor.py:60-70 | the number of threads, in any channel, whose last post is within the window |
| Conductor.ConductorState.ChannelName | src/slack_io/conductor.py:33-42 | returns the resolved name and caches a name the platform reported |
| Conductor.ConductorState.MaybeTriggerProactivePost | src/slack_io/conductor.py:219-281 | does nothing within 90 s of the last check; otherwise records the check time first, then makes the attempt of `ProactiveAttempt`, enqueueing and marking a 12 s cooldown from the clock reading after generation exactly when it posts; no worker's state changes |
| Conductor.ConductorState.ApplyProactive | src/slack_io/conductor.py:228-277 | the effect of a due attempt on check time, cooldowns (marked at the later reading) and queues; no worker's state changes |
| Conductor.ConductorState.PostReply | src/slack_io/conductor.py:329-344 | the reply is enqueued, then the turn and the cooldown are recorded; no worker's state changes |
| Conductor.ConductorState.ScheduleReplies | src/slack_io/conductor.py:320-360 | repliers run one after another; each answered one is enqueued and recorded in order; the first generation failure stops the rest; no worker's state changes |
| Conductor.ConductorState.RecordAnswer | src/slack_io/conductor.py:320-344 | one replier's pass extends the recorded prefix by one; no worker's state changes |
| Conductor.ConductorState.Respond | src/slack_io/conductor.py:118-199 | takes the decision of `Decide`; a decline changes nothing; a reply records a prefix of the repliers, stopped only by a generation failure; no worker's state changes |
| Conductor.ConductorState.ProactiveThenName | src/slack_io/conductor.py:110-116 | the proactive check, then the channel's name: their combined effect on check time, cooldowns (a post's marked at the reading after generation) and pending actions, no worker's state changing, and the name cache gaining exactly a name the platform reported for an uncached id |
| Conductor.ConductorState.HandleEvent | src/slack_io/conductor.py:98-199 | the proactive check runs first, at its own clock reading, and the cooldown it marks after generation is seen by the gates, which read the clock later; the channel's name is resolved and cached as `_channel_name` does; then the event is decided and answered as above; the pending actions of other channels change only through the proactive post, and no worker's state changes |
| Conductor.ConductorState.ScheduleFollowups | src/slack_io/conductor.py:205-217 | the followup plan of `PlanFollowups`, answered as threaded replies in the given thread |
| AgentEngine.Kept | src/slack_io/agent_engine.py:24-28 | exactly the visible messages (no edit, join or leave), in listing order |
| AgentEngine.VisibleContext | src/slack_io/agent_engine.py:24-30 | the last `k` visible messages, or all of them for `k = 0` (Python's `[-0:]`) |
| AgentEngine.SourceFor | src/slack_io/agent_engine.py:17-22 | thread replies iff `thread_ts` is truthy, else channel history |
| AgentEngine.FetchRecentContext | src/slack_io/agent_engine.py:14-30 | fails iff the listing fails; otherwise returns the visible context of it |
| AgentEngine.Speaker | src/slack_io/agent_engine.py:36 | the user id when truthy, else the username, else "user" |
| AgentEngine.CtxLine | src/slack_io/agent_engine.py:36-38 | the line is the speaker, `": "`, then the first 200 characters of the text with each newline turned into a space; it holds no newline when the speaker has none |
| AgentEngine.CtxLineChars | src/slack_io/agent_engine.py:37-38 | joining a speaker and a newline-free text adds no newline |
| AgentEngine.CtxLines | src/slack_io/agent_engine.py:35-38 | one line per message, most recent first |
| AgentEngine.FormatCtxSplits | src/slack_io/agent_engine.py:32-39 | the rendered context splits back into exactly those lines |
| AgentEngine.Instruction | src/slack_io/agent_engine.py:93 | the thread instruction exactly for a thread |
| AgentEngine.Guidance | src/slack_io/agent_engine.py:78-86 | the given guidance, or one of the five fixed options when it is empty |
| AgentEngine.UserPrompt | src/slack_io/agent_engine.py:74-95 | opens with channel, context and goal, and closes with guidance, instruction and length request |
| AgentEngine.RoleCues | src/slack_io/agent_engine.py:97-147 | every known role has three cues |
| AgentEngine.RoleGuidance | src/slack_io/agent_engine.py:149-155 | one of the role's cues, or of the default cues |
| AgentEngine.UnknownRoleGuidance | src/slack_io/agent_engine.py:149-153 | a persona without a role gets a non-empty default cue |
| AgentEngine.CfgOf | src/slack_io/agent_engine.py:165 | registry personas carry no role, tone, knowledge, behaviours or snippets |
| AgentEngine.RoleOf | src/slack_io/agent_engine.py:43 | the role, defaulting to "Team Member" |
| AgentEngine.Personality | src/slack_io/agent_engine.py:50-62 | the role's hint, or the default one |
| AgentEngine.Quoted | src/slack_io/agent_engine.py:47 | one quoted bullet per snippet |
| AgentEngine.SystemPrompt | src/slack_io/agent_engine.py:41-72 | opens with the line naming persona, role and personality |
| AgentEngine.RegistryPersonasUseDefaults | src/slack_io/agent_engine.py:43-62 | every simulator persona is introduced as a professional "Team Member" |
| AgentEngine.Prompts | src/slack_io/agent_engine.py:161-170 | the persona's system prompt, and a user prompt that opens with the channel, the event text and the filtered context and closes with a default-role cue and the thread's instruction |
| AgentEngine.GenerateReply | src/slack_io/agent_engine.py:157-180 | succeeds iff both the context listing and the model answer; the text is the stripped completion and `supports` is empty |
| Py.StripTrims | src/slack_io/agent_engine.py:178 | `str.strip()`: the input with exactly the `str.isspace()` characters at its two ends removed |
| Py.StripIdeographicSpace | src/slack_io/agent_engine.py:178 | a completion `"ok\u3000"` is stripped to `"ok"` |
| Autonomous.InChannel | src/slack_io/autonomous_loop.py:38 | exactly the channel's entries, in order |
| Autonomous.Line | src/slack_io/autonomous_loop.py:41-43 | `[user] ` and the first 120 characters with newlines turned into spaces |
| Autonomous.HistoryLines | src/slack_io/autonomous_loop.py:38-44 | one line per entry among the channel's last `limit` entries, or all of them for `limit = 0` |
| Autonomous.FormatHistorySplits | src/slack_io/autonomous_loop.py:44 | the prompt splits back into those lines |
| Autonomous.LineHasNoNewline | src/slack_io/autonomous_loop.py:43 | a line holds no newline when the user name has none |
| Autonomous.Trimmed | src/slack_io/autonomous_loop.py:169-170 | at most 100 entries; the last 100 when there are more |
| Autonomous.AppendDropsAtMostOne | src/slack_io/autonomous_loop.py:169-170 | appending to a bounded history drops at most the oldest entry and keeps the new one last |
| Autonomous.RealEntry | src/slack_io/autonomous_loop.py:194-211 | the recorded entry's user, channel name, thread key, text and time |
| Autonomous.FirstNamed | src/slack_io/autonomous_loop.py:27-31 | the first listed channel with the name |
| Autonomous.ChannelIdFor | src/slack_io/autonomous_loop.py:21-34 | the cached id; else, when the listing succeeds, the id of the first listed channel with that name; none when the listing fails or no listed channel has the name |
| Autonomous.LookupChannelId | src/slack_io/autonomous_loop.py:21-34 | that id, cached in both directions when it came from the listing |
| Autonomous.TurnChannel | src/slack_io/autonomous_loop.py:50-55 | a channel with `p_reply` above 0.3 |
| Autonomous.TurnPersona | src/slack_io/autonomous_loop.py:63-72 | one of the channel's candidates, with no cooldown consulted |
| Autonomous.ReplyParent | src/slack_io/autonomous_loop.py:78-81 | one of the last five entries of the whole history |
| Autonomous.TurnRequest | src/slack_io/autonomous_loop.py:88-139 | a reply quotes its parent and targets its thread; a new post is top level |
| Autonomous.Turn | src/slack_io/autonomous_loop.py:46-173 | no id: nothing; generation failed: nothing; otherwise the post is made and, iff it succeeds, the entry is recorded |
| Autonomous.SimulationHistory.constructor | src/slack_io/autonomous_loop.py:16 | the history starts empty |
| Autonomous.SimulationHistory.Record | src/slack_io/autonomous_loop.py:159-170 | append, then trim to the last 100 |
| Autonomous.SimulationHistory.AddRealMessage | src/slack_io/autonomous_loop.py:191-215 | the real message's entry is appended and trimmed |
| Autonomous.SimulationHistory.AutonomousTurn | src/slack_io/autonomous_loop.py:46-173 | the id lookup and turn of `Turn`; an id found in the listing is cached in both directions and the caches are otherwise unchanged; the history grows exactly on a successful post |
| SlackClient.BuildArgs | src/slack_io/slack_client.py:16-25 | the arguments as written: icon when truthy, and the thread under "threads_ts" when truthy |
| SlackClient.BuildArgsIntended | src/slack_io/slack_client.py:16-25 | the same arguments with the thread under "thread_ts" |
| SlackClient.ThreadKeyMisspelled | src/slack_io/slack_client.py:24-25 | as written no call carries "thread_ts"; the two dictionaries differ only in that key's name |
| SlackClient.ThreadedPostIsNotThreaded | src/slack_io/slack_client.py:24-25 | a concrete threaded post whose thread is sent under the wrong key |
| SlackClient.Retry | src/slack_io/slack_client.py:26-34 | the outcome of the calls: sent on the first success, raised on the first other error, and still retrying only when every result was a waited-out 429 |
| SlackClient.UnboundedRetries | src/slack_io/slack_client.py:26-33 | `n` header-less 429s are waited out, 1.1 s each, before the success |
| SlackClient.PostMessage | src/slack_io/slack_client.py:15-34 | the arguments and the retry outcome |
| SlackClient.RetryWaited | src/slack_io/slack_client.py:26-34 | the total pause is the sum of the pauses the waited-out 429s' headers ask for |
| SlackClient.RetryLoop | src/slack_io/slack_client.py:26-34 | the `while True` loop computes `Retry` |
| PersonaRouter.RouterPoolIsKeys | src/slack_io/persona_router.py:5-20 | the pool lists every key of the router's table once |
| PersonaRouter.RouterTableMatchesRegistry | src/slack_io/persona_router.py:5-15 | the router's table has the registry's keys and icons, and usernames equal to keys |
| PersonaRouter.ChooseResponder | src/slack_io/persona_router.py:17-21 | a persona of both tables, drawn from the whole pool |
| PersonaRouter.ReplyText | src/slack_io/persona_router.py:24-25 | the acknowledgement followed by the first 80 characters of the context |
| PersonaRouter.MaybeReply | src/slack_io/persona_router.py:28-32 | the post goes to the channel and thread, as the chosen persona with its icon |
| PersonaRouter.MaybeReplyIsNotThreaded | src/slack_io/persona_router.py:32 | the router's thread reply reaches the client under "threads_ts", never "thread_ts" |
| DocsScraper.MethodName | src/slack_io/scrapers/slack_api_scraper.py:74 | the text after the last methods path, without trailing slashes |
| DocsScraper.Category | src/slack_io/scrapers/slack_api_scraper.py:77-78 | the name's prefix before the first dot, or the whole name |
| DocsScraper.CategoryNeverUnknown | src/slack_io/scrapers/slack_api_scraper.py:78 | the "unknown" fallback is never taken |
| DocsScraper.EntryOf | src/slack_io/scrapers/slack_api_scraper.py:74-86 | a link's entry: name, category, joined URL, link text, no details |
| DocsScraper.ExtractedAtIndices | src/slack_io/scrapers/slack_api_scraper.py:69-87 | the extracted entries are exactly the entries of the method links, in page order: each listed position is a method link, the positions increase, and every method link is listed |
| DocsScraper.ExtractLoop | src/slack_io/scrapers/slack_api_scraper.py:69-87 | the link loop builds exactly that list |
| DocsScraper.FirstIndex | src/slack_io/scrapers/slack_api_scraper.py:89-97 | a name's first occurrence |
| DocsScraper.DedupeKeepsFirst | src/slack_io/scrapers/slack_api_scraper.py:89-97 | de-duplication keeps every name, each with its first occurrence |
| DocsScraper.DedupeInOrder | src/slack_io/scrapers/slack_api_scraper.py:89-97 | the kept methods are in order of first occurrence |
| DocsScraper.DedupeDistinct | src/slack_io/scrapers/slack_api_scraper.py:89-97 | no two kept methods share a name |
| DocsScraper.DedupeSubseq | src/slack_io/scrapers/slack_api_scraper.py:89-97 | the kept methods form a subsequence of the input |
| DocsScraper.DedupeLoop | src/slack_io/scrapers/slack_api_scraper.py:89-97 | the `seen` loop computes the de-duplicated list |
| DocsScraper.ScrapeMethodsList | src/slack_io/scrapers/slack_api_scraper.py:52-97 | nothing when the fetch fails, else the de-duplicated extracted list |
| DocsScraper.FindHeadingAsWritten | src/slack_io/scrapers/slack_api_scraper.py:137 | the search as written raises iff a heading whose `.string` is `None` comes before any match |
| DocsScraper.FindHeading | src/slack_io/scrapers/slack_api_scraper.py:137 | the corrected search never raises, and finds the first heading naming arguments or parameters |
| DocsScraper.FindHeadingAgrees | src/slack_io/scrapers/slack_api_scraper.py:137 | the two searches agree unless the as-written one raises |
| DocsScraper.HeadingFilterRaises | src/slack_io/scrapers/slack_api_scraper.py:137 | a page whose first heading has nested markup raises as written, and yields its parameters when corrected |
| DocsScraper.ParameterOf | src/slack_io/scrapers/slack_api_scraper.py:144-147 | a row's name, description and whether it says "required" |
| DocsScraper.BodyRows | src/slack_io/scrapers/slack_api_scraper.py:141 | the rows after the header row |
| DocsScraper.ParameterRows | src/slack_io/scrapers/slack_api_scraper.py:141-143 | exactly the body rows with two cells, in order |
| DocsScraper.Parameters | src/slack_io/scrapers/slack_api_scraper.py:139-148 | one parameter per such row |
| DocsScraper.Description | src/slack_io/scrapers/slack_api_scraper.py:115-134 | the paragraph after the `h1` overrides the meta description; empty when neither exists |
| DocsScraper.Examples | src/slack_io/scrapers/slack_api_scraper.py:151-154 | the first and second code blocks, or empty |
| DocsScraper.MethodDetails | src/slack_io/scrapers/slack_api_scraper.py:99-156 | details iff the page was fetched: the name, URL, description, examples, and the parameters under the first matching heading |
| DocsScraper.MethodDetailsAsWritten | src/slack_io/scrapers/slack_api_scraper.py:99-156 | as written the call raises exactly when the heading search does, and otherwise agrees with the corrected details |
| DocsScraper.Merged | src/slack_io/scrapers/slack_api_scraper.py:177-178 | `update` overwrites name, URL and description, keeps the category, and adds the details |
| DocsScraper.WithDetails | src/slack_io/scrapers/slack_api_scraper.py:172-183 | a listed method merged with its details when they were fetched, else unchanged |
| DocsScraper.ScrapeAllMethods | src/slack_io/scrapers/slack_api_scraper.py:158-183 | the listed methods, each merged with its details when asked; names and categories unchanged |
| DocsScraper.MergeDetails | src/slack_io/scrapers/slack_api_scraper.py:172-183 | the details loop merges each entry in turn |
| DocsScraper.GroupedKeys | src/slack_io/scrapers/slack_api_scraper.py:185-202 | the group keys are the categories in order of first appearance, each once, each with a non-empty group |
| DocsScraper.GroupedIsFilter | src/slack_io/scrapers/slack_api_scraper.py:185-202 | each group is exactly the methods of its category, in input order |
| DocsScraper.GroupedTotal | src/slack_io/scrapers/slack_api_scraper.py:185-202 | the group sizes add up to the number of methods |
| DocsScraper.GetMethodsByCategory | src/slack_io/scrapers/slack_api_scraper.py:185-202 | the loop builds exactly that grouping |

## Left out

- Network and platform I/O are not modelled: web-API calls, page fetches and language-model completions. They are oracle parameters, with `None` for a call that raises.
- Threads, `time.sleep` (including the scraper's rate-limit pause), the busy-wait in `_schedule_reply` and the worker's blocking `get()` are not modelled. Repliers run in sequence, as the synchronous `_do()` makes them.
- `random.uniform` delays are not modelled. These are the reply stagger and the autonomous turn interval; they change only timing.
- Logging and `print` are not modelled.
- The provenance log of `_do()` is never written, so it is not modelled: the record at src/slack_io/conductor.py:349-350 names `supports`, which `_do()` never defines, and the `NameError` this raises is swallowed at line 353.
- `_get_recent_digest` is not modelled: its result is never used.
- `bolt_app.py`, `seed_scheduler.py`, `scrape_slack_api.py`, `test_connection.py` and `tools/groundedness_check.py` are not part of this model.
- The scraper's `fetch_page`, its HTML traversal and `urljoin` are left out. Each becomes a parameter: a parsed page, or a joining function.
- The scraper's `save_to_json` and `save_by_category` are left out: they only write files.
- `start_autonomous_loop` is left out: it is a thread running `autonomous_turn` forever.
- `fetch_history` and `fetch_thread` of the client are left out: they only forward to the platform.
- Conductor.ConductorState.UpdateState: the two `time.time()` reads of `_update_state` are taken as one clock reading.
- Conductor.ConductorState.HandleEvent: the model takes three clock readings: `checkNow` for the proactive check (line 224), `markNow` for its cooldown after `generate_reply` (lines 277 and 203), and `now` for the gates. The gates themselves read the clock three times (lines 62, 80 and 49), with only table lookups, a random draw and logging between them; the model takes these as one reading `now`. Reads that close together could still fall on either side of a cooldown or grace boundary; the model does not capture that. Nothing ties the three readings to one another, so the model also allows a clock that runs backwards.
- Conductor.ConductorState.MaybeTriggerProactivePost: the eligibility filter of the attempt reads the clock at line 49, right after the check's own reading at line 224, with only cache lookups between them; the model uses the check's reading `now` for both.
- Conductor.ConductorState.HandleEvent: `generate` is a function of the request, so two equal requests get the same answer. The language model behind `generate_reply` may answer them differently.
- Conductor.ConductorState.Valid does not carry each queue's own invariant; the queue lemmas state that invariant separately.
- Autonomous.SimulationHistory.AutonomousTurn: the unused `context` fetched by the turn is not modelled.
- Py.Lower folds ASCII letters only.
- Py.ParseInt reads ASCII digits only. `int()` also reads other Unicode decimal digits, such as Arabic-Indic ones; the model takes a header made of them to raise.
- SlackClient.Retry: `StillRetrying` means that the given results ran out; the loop itself has no bound.
- SlackClient.PostMessage sends the corrected dictionary, with the thread under "thread_ts". `BuildArgs` models the dictionary as written; see Findings.
- `DEFAULT_POLICY` has no behaviour: no code reads it, so it is a constant and no more.
- `PERSONA_COOLDOWN_S` of the autonomous loop has no behaviour: no code reads it.
- AgentEngine.Speaker: `None` in a message's `username` field means the key is absent, so the speaker is "user". A `username` key present with the value `None` is not modelled: Python would print "None" as the speaker.
- Autonomous.RealEntry: `None` in the event's `user` field means the key is absent, so the entry's user is "unknown". A `user` key present with the value `None` is not modelled: Python would record `None` as the user.
- DocsScraper.ScrapeAllMethods uses the corrected heading search. As written, one page whose first `h2` has nested markup raises a `TypeError`, and that aborts the whole details pass; see Findings.

## Findings

| source | as written | input that shows it | evidently intended | confidence | as-written member | corrected member |
|---|---|---|---|---|---|---|
| src/slack_io/slack_client.py:24-25 | a truthy `thread_ts` is passed as the keyword `threads_ts` | `post_message("C1", "hi", "Mike_BE", None, "1.2")` passes `threads_ts="1.2"`, so the reply lands in the channel, not the thread | pass it as `thread_ts` | not executed | SlackClient.BuildArgs, SlackClient.ThreadedPostIsNotThreaded | SlackClient.BuildArgsIntended, SlackClient.PostMessage |
| src/slack_io/scrapers/slack_api_scraper.py:137 | `lambda x: x and 'Arguments' in x or 'Parameters' in x` parses as `(x and …) or ('Parameters' in x)`, so a heading whose `.string` is `None` evaluates `'Parameters' in None` | a page with `<h2><code>a</code>b</h2>` before `<h2>Arguments</h2>` raises `TypeError` | `x and ('Arguments' in x or 'Parameters' in x)` | not executed | DocsScraper.FindHeadingAsWritten, DocsScraper.HeadingFilterRaises | DocsScraper.FindHeading, DocsScraper.MethodDetails |
