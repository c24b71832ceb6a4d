/** The autonomous simulation loop: a bounded in-memory history of what was
    said, the prompt text made from it, and one autonomous turn, which picks
    a channel, a persona and either a recent thread to answer or a new
    top-level post, and posts directly through the platform client.

    The model's answer, the channel id lookup and the platform's response are
    parameters; `now` is the clock reading stored with a new entry. */
module Autonomous {
  import opened Wrappers
  import opened SlackTypes
  import Py
  import Reg = PersonaRegistry

  /** `SIMULATION_HISTORY` keeps the last 100 entries. */
  const HistoryLimit: nat := 100
  /** A channel takes part in autonomous turns when its `p_reply` is above this. */
  const ActiveMinPReply: real := 0.3
  /** A turn answers a recent entry when the history is non-empty and the draw is below this. */
  const ReplyChance: real := 0.6
  /** The answered entry is one of the last this many of the whole history. */
  const RecentWindow: nat := 5
  /** A prompt line shows at most this many characters of an entry's text. */
  const LineTextLimit: nat := 120
  /** The quoted parent text of an answer is cut to this many characters. */
  const ParentTextLimit: nat := 150
  const NewPostPrompt: string := "Contribute to the channel discussion with your perspective."
  const InResponseTo: string := "In response to: "

  /** One `SIMULATION_HISTORY` record; `isReal` marks a message seen on the platform. */
  datatype Entry = Entry(user: string, text: string, channel: string, threadTs: string, ts: string, timestamp: int, isReal: bool)

  // -------------------------------------------------------------- the prompt

  /** The entries of `channel`, in history order. */
  function InChannel(history: seq<Entry>, channel: string): (r: seq<Entry>)
    ensures forall i :: 0 <= i < |r| ==> r[i] in history && r[i].channel == channel
    ensures forall i :: 0 <= i < |history| && history[i].channel == channel ==> history[i] in r
    ensures Py.IsSubseq(r, history)
  {
    Py.Filter(history, (m: Entry) => m.channel == channel)
  }

  /** `f"[{user}] {text[:120].replace('\n', ' ')}"`: the line begins with the
      user in brackets, and the rest is the first 120 characters of the
      text with every newline turned into a space. */
  function Line(m: Entry): (line: string)
    ensures line == "[" + m.user + "] " + Py.Unwrap(Py.Take(m.text, LineTextLimit))
    ensures |line| <= |m.user| + 3 + LineTextLimit
    ensures forall i :: |m.user| + 3 <= i < |line| ==> line[i] != '\n'
  {
    var t := Py.Unwrap(Py.Take(m.text, LineTextLimit));
    var line := "[" + m.user + "] " + t;
    assert forall i :: |m.user| + 3 <= i < |line| ==> line[i] == t[i - |m.user| - 3];
    line
  }

  /** The lines `_format_history_for_prompt(history, channel, limit)` joins:
      one per entry of the last `limit` entries of `channel` (all of them
      when `limit` is 0, as `[-0:]` is the whole list), in history order. */
  function HistoryLines(history: seq<Entry>, channel: string, limit: nat): (lines: seq<string>)
    ensures var relevant := InChannel(history, channel);
      && (limit > 0 ==> |lines| == Py.Min(limit, |relevant|))
      && (limit == 0 ==> |lines| == |relevant|)
      && forall i :: 0 <= i < |lines| ==> lines[i] == Line(relevant[|relevant| - |lines| + i])
  {
    var relevant := Py.TakeLast(InChannel(history, channel), limit);
    var lines := seq(|relevant|, i requires 0 <= i < |relevant| => Line(relevant[i]));
    Py.TakeLast(lines, limit)
  }

  /** `_format_history_for_prompt(history, channel, limit)` */
  function FormatHistory(history: seq<Entry>, channel: string, limit: nat): string {
    Py.Join(HistoryLines(history, channel, limit), "\n")
  }

  /** The prompt text splits back into its lines when no user name holds a
      newline (the texts cannot: their newlines were replaced). */
  lemma FormatHistorySplits(history: seq<Entry>, channel: string, limit: nat)
    requires HistoryLines(history, channel, limit) != []
    requires forall i :: 0 <= i < |history| ==> '\n' !in history[i].user
    ensures Py.Split(FormatHistory(history, channel, limit), '\n') == HistoryLines(history, channel, limit)
  {
    var lines := HistoryLines(history, channel, limit);
    var relevant := InChannel(history, channel);
    forall i | 0 <= i < |lines| ensures '\n' !in lines[i] {
      var m := relevant[|relevant| - |lines| + i];
      assert m in history;
      LineHasNoNewline(m);
    }
    Py.SplitJoin(lines, '\n');
  }

  /** A line holds a newline only if the user name does. */
  lemma LineHasNoNewline(m: Entry)
    requires '\n' !in m.user
    ensures '\n' !in Line(m)
  {
    var line := Line(m);
    forall j | 0 <= j < |line| ensures line[j] != '\n' {
      if 0 < j < |m.user| + 1 {
        assert line[j] == m.user[j - 1];
      }
    }
  }

  // ------------------------------------------------------------- the history

  /** The trim after every append: the last 100 entries when there are more. */
  function Trimmed(h: seq<Entry>): (r: seq<Entry>)
    ensures |r| <= HistoryLimit
    ensures |h| <= HistoryLimit ==> r == h
    ensures |h| > HistoryLimit ==> |r| == HistoryLimit && r == h[|h| - HistoryLimit..]
  {
    if |h| > HistoryLimit then h[|h| - HistoryLimit..] else h
  }

  /** Appending to a history that is already within the bound drops at most
      its oldest entry, and the new entry is the last one. */
  lemma AppendDropsAtMostOne(h: seq<Entry>, m: Entry)
    requires |h| <= HistoryLimit
    ensures Trimmed(h + [m]) == (if |h| == HistoryLimit then h[1..] else h) + [m]
    ensures Trimmed(h + [m])[|Trimmed(h + [m])| - 1] == m
  {
    if |h| == HistoryLimit {
      assert (h + [m])[1..] == h[1..] + [m];
    }
  }

  /** The record `add_real_message_to_history(event)` appends:
      `username or user`, with "unknown" only when the event has no `user`;
      the cached channel name, else the id; the thread key `thread_ts or ts`. */
  function RealEntry(e: Event, idToName: map<string, string>, now: int): (m: Entry)
    ensures m.user == if Py.Truthy(e.username) then e.username.value else e.user.GetOr("unknown")
    ensures m.channel == if e.channel in idToName then idToName[e.channel] else e.channel
    ensures m.threadTs == (if Py.Truthy(e.threadTs) then e.threadTs.value else e.ts) && m.ts == e.ts
    ensures m.text == e.text.GetOr("") && m.timestamp == now && m.isReal
  {
    Entry(if Py.Truthy(e.username) then e.username.value else e.user.GetOr("unknown"),
          e.text.GetOr(""),
          if e.channel in idToName then idToName[e.channel] else e.channel,
          if Py.Truthy(e.threadTs) then e.threadTs.value else e.ts,
          e.ts, now, true)
  }

  // ------------------------------------------------------ the channel id lookup

  /** One channel of a `conversations.list` response. */
  datatype ListedChannel = ListedChannel(id: string, name: string)

  /** Where the first channel called `name` sits in `listing` (`|listing|` when none is). */
  function FirstNamed(listing: seq<ListedChannel>, name: string): (i: nat)
    ensures i <= |listing|
    ensures i < |listing| ==> listing[i].name == name
    ensures forall j :: 0 <= j < i ==> listing[j].name != name
    decreases |listing|
  {
    if listing == [] then 0
    else if listing[0].name == name then 0
    else 1 + FirstNamed(listing[1..], name)
  }

  /** `_get_channel_id(name)`: the cached id when there is one, else the id
      of the first listed channel of that name; `listing` is `None` when the
      listing call raised, which yields no id. */
  function ChannelIdFor(nameToId: map<string, string>, name: string, listing: Option<seq<ListedChannel>>): (r: Option<string>)
    ensures name in nameToId ==> r == Some(nameToId[name])
    ensures name !in nameToId && r.Some? ==>
      listing.Some? && exists i :: 0 <= i < |listing.value| && listing.value[i] == ListedChannel(r.value, name)
    ensures name !in nameToId && r.None? ==>
      listing.None? || forall i :: 0 <= i < |listing.value| ==> listing.value[i].name != name
    ensures name !in nameToId && listing.Some? && FirstNamed(listing.value, name) < |listing.value| ==>
      r == Some(listing.value[FirstNamed(listing.value, name)].id)
  {
    if name in nameToId then Some(nameToId[name])
    else if listing.None? then None
    else
      var i := FirstNamed(listing.value, name);
      if i < |listing.value| then Some(listing.value[i].id) else None
  }

  /** `_get_channel_id(name)` with its cache updates: an id found in the
      listing is stored in both directions; nothing else changes. */
  method LookupChannelId(maps: Reg.ChannelMaps, name: string, listing: Option<seq<ListedChannel>>) returns (r: Option<string>)
    modifies maps
    ensures r == ChannelIdFor(old(maps.nameToId), name, listing)
    ensures name !in old(maps.nameToId) && r.Some? ==>
      maps.idToName == old(maps.idToName)[r.value := name] && maps.nameToId == old(maps.nameToId)[name := r.value]
    ensures name in old(maps.nameToId) || r.None? ==>
      maps.idToName == old(maps.idToName) && maps.nameToId == old(maps.nameToId)
  {
    if name in maps.nameToId {
      return Some(maps.nameToId[name]);
    }
    if listing.None? {
      return None;
    }
    var channels := listing.value;
    var k := 0;
    while k < |channels|
      invariant k <= |channels|
      invariant forall j :: 0 <= j < k ==> channels[j].name != name
    {
      if channels[k].name == name {
        maps.idToName := maps.idToName[channels[k].id := channels[k].name];
        maps.nameToId := maps.nameToId[channels[k].name := channels[k].id];
        assert FirstNamed(channels, name) == k;
        return Some(channels[k].id);
      }
      k := k + 1;
    }
    return None;
  }

  // ------------------------------------------------------- one turn's choices

  /** The draws one `autonomous_turn` consumes: the channel, the persona,
      the `random.random()` deciding between answer and new post, and the
      recent entry answered. */
  datatype TurnDraws = TurnDraws(channel: nat, persona: nat, reply: real, target: nat)

  /** `random.choice` among the channels whose `p_reply` is above 0.3. */
  function TurnChannel(d: TurnDraws): (ch: string)
    ensures ch in Reg.ChannelPolicies && Reg.ChannelPolicies[ch].pReply > ActiveMinPReply
  {
    Reg.ChannelsAboveNonEmpty(ActiveMinPReply);
    Py.Choice(Reg.ChannelsAbove(ActiveMinPReply), d.channel)
  }

  /** `random.choice` among all the channel's candidates: no cooldown is consulted. */
  function TurnPersona(d: TurnDraws): (p: string)
    ensures p in Reg.ChannelPolicies[TurnChannel(d)].candidates && p in Reg.Personas
  {
    var cands := Reg.ChannelPolicies[TurnChannel(d)].candidates;
    assert Reg.PolicyFor(TurnChannel(d)).Some?;
    Py.Choice(cands, d.persona)
  }

  /** A turn answers an entry exactly when the history is non-empty and the draw is below 0.6. */
  predicate IsReply(history: seq<Entry>, d: TurnDraws) {
    |history| > 0 && d.reply < ReplyChance
  }

  /** The entry a reply answers: one of the last five of the whole history,
      whatever its channel. */
  function ReplyParent(history: seq<Entry>, d: TurnDraws): (m: Entry)
    requires history != []
    ensures m in history[|history| - Py.Min(RecentWindow, |history|)..]
  {
    Py.Choice(Py.TakeLast(history, RecentWindow), d.target)
  }

  /** `recent_msg.get("thread_ts") or recent_msg.get("ts")` */
  function ThreadKeyOf(m: Entry): string {
    if m.threadTs != "" then m.threadTs else m.ts
  }

  /** How `autonomous_turn` ends. Every exception in the turn is swallowed. */
  datatype TurnOutcome =
    | NoChannelId                                // `_get_channel_id` found no id
    | GenerationFailed                           // `generate_reply` raised
    | PostFailed(post: PostArgs)                 // `chat_postMessage` raised
    | Posted(post: PostArgs, entry: Entry)       // posted and recorded

  /** The `generate_reply` call of a turn. */
  function TurnRequest(history: seq<Entry>, d: TurnDraws, channelId: string): (q: GenRequest)
    ensures q.persona == TurnPersona(d) && q.channelName == TurnChannel(d) && q.channelId == channelId
    ensures IsReply(history, d) ==>
      && q.threadTs == Some(ThreadKeyOf(ReplyParent(history, d)))
      && q.eventText == InResponseTo + Py.Take(ReplyParent(history, d).text, ParentTextLimit)
    ensures !IsReply(history, d) ==> q.threadTs.None? && q.eventText == NewPostPrompt
  {
    if IsReply(history, d) then
      var parent := ReplyParent(history, d);
      GenRequest(TurnPersona(d), TurnChannel(d), channelId, InResponseTo + Py.Take(parent.text, ParentTextLimit),
                 Some(ThreadKeyOf(parent)))
    else
      GenRequest(TurnPersona(d), TurnChannel(d), channelId, NewPostPrompt, None)
  }

  /** One `autonomous_turn` on history `history`, given the id lookup's
      answer, the model, the platform's response to the post and the clock.
      An answer goes into the parent's thread and is recorded under that
      thread's key; a new post is recorded under the `ts` the platform
      returned. The post carries the persona's own username and icon. */
  function Turn(history: seq<Entry>, d: TurnDraws, channelId: Option<string>,
                generate: GenRequest -> Option<string>, response: CallResult, now: int): (r: TurnOutcome)
    ensures r == NoChannelId <==> !Py.Truthy(channelId)
    ensures r == GenerationFailed <==> Py.Truthy(channelId) && generate(TurnRequest(history, d, channelId.value)).None?
    ensures r.Posted? <==> r != NoChannelId && r != GenerationFailed && response.Ok?
    ensures r.PostFailed? || r.Posted? ==>
      var p := TurnPersona(d);
      && r.post.channel == channelId.value
      && generate(TurnRequest(history, d, channelId.value)) == Some(r.post.text)
      && r.post.username == p && r.post.iconEmoji == Reg.Personas[p].icon
      && r.post.threadTs == TurnRequest(history, d, channelId.value).threadTs
    ensures r.Posted? ==>
      && r.entry.user == r.post.username && r.entry.text == r.post.text
      && r.entry.channel == TurnChannel(d) && r.entry.timestamp == now && !r.entry.isReal
      && r.entry.threadTs == r.entry.ts
      && r.entry.ts == if IsReply(history, d) then ThreadKeyOf(ReplyParent(history, d)) else response.ts
  {
    if !Py.Truthy(channelId) then NoChannelId
    else
      var q := TurnRequest(history, d, channelId.value);
      match generate(q)
      case None => GenerationFailed
      case Some(text) =>
        var p := TurnPersona(d);
        Reg.UsernameIsKey(p);
        var post := PostArgs(channelId.value, text, Reg.Personas[p].username, Reg.Personas[p].icon, q.threadTs);
        if !response.Ok? then PostFailed(post)
        else
          var key := if q.threadTs.Some? then q.threadTs.value else response.ts;
          Posted(post, Entry(post.username, text, TurnChannel(d), key, key, now, false))
  }

  /** `SIMULATION_HISTORY`, only ever appended to and trimmed. */
  class SimulationHistory {
    var entries: seq<Entry>

    ghost predicate Valid()
      reads this
    {
      |entries| <= HistoryLimit
    }

    /** The history starts empty. */
    constructor ()
      ensures Valid() && entries == []
    {
      entries := [];
    }

    /** `SIMULATION_HISTORY.append(m)` followed by the trim to the last 100. */
    method Record(m: Entry)
      modifies this
      ensures Valid()
      ensures entries == Trimmed(old(entries) + [m])
    {
      entries := entries + [m];
      if |entries| > HistoryLimit {
        entries := entries[|entries| - HistoryLimit..];
      }
    }

    /** `add_real_message_to_history(event)` with the channel cache `idToName` at `now`. */
    method AddRealMessage(e: Event, idToName: map<string, string>, now: int)
      modifies this
      ensures Valid()
      ensures entries == Trimmed(old(entries) + [RealEntry(e, idToName, now)])
    {
      Record(RealEntry(e, idToName, now));
    }

    /** `autonomous_turn()`: the channel's id is looked up (and cached) and
        the history changes only by the one entry a successful post records.
        The turn neither reads nor writes the conductor's tables and
        bypasses the dispatch queues. */
    method AutonomousTurn(d: TurnDraws, maps: Reg.ChannelMaps, listing: Option<seq<ListedChannel>>,
                          generate: GenRequest -> Option<string>, response: CallResult, now: int)
      returns (channelId: Option<string>, outcome: TurnOutcome)
      modifies this, maps
      ensures channelId == ChannelIdFor(old(maps.nameToId), TurnChannel(d), listing)
      ensures TurnChannel(d) !in old(maps.nameToId) && channelId.Some? ==>
        maps.idToName == old(maps.idToName)[channelId.value := TurnChannel(d)]
        && maps.nameToId == old(maps.nameToId)[TurnChannel(d) := channelId.value]
      ensures TurnChannel(d) in old(maps.nameToId) || channelId.None? ==>
        maps.idToName == old(maps.idToName) && maps.nameToId == old(maps.nameToId)
      ensures outcome == Turn(old(entries), d, channelId, generate, response, now)
      ensures entries == if outcome.Posted? then Trimmed(old(entries) + [outcome.entry]) else old(entries)
    {
      channelId := LookupChannelId(maps, TurnChannel(d), listing);
      outcome := Turn(entries, d, channelId, generate, response, now);
      if outcome.Posted? {
        Record(outcome.entry);
      }
    }
  }
}
