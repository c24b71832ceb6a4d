/** The simple persona router: a local persona table, a random responder,
    a fixed acknowledgement text and the post it makes through `post_message`. */
module PersonaRouter {
  import opened Wrappers
  import Py
  import Reg = PersonaRegistry
  import SlackClient

  /** The router's own `PERSONAS`: name -> (username, icon). */
  const RouterPersonas: map<string, (string, string)> := map[
    "Gabriella_PM" := ("Gabriella_PM", ":memo:"),
    "Mike_BE" := ("Mike_BE", ":gear:"),
    "Sarah_FE" := ("Sarah_FE", ":art:"),
    "Kevin_QA" := ("Kevin_QA", ":mag:"),
    "Nina_SRE" := ("Nina_SRE", ":helmet_with_white_cross:"),
    "Ravi_Staff" := ("Ravi_Staff", ":compass:"),
    "Dana_DS" := ("Dana_DS", ":bar_chart:"),
    "Zoey_UX" := ("Zoey_UX", ":lipstick:"),
    "Tara_TPM" := ("Tara_TPM", ":calendar:")
  ]

  /** `list(PERSONAS.keys())`, in insertion order. */
  const RouterPool: seq<string> :=
    ["Gabriella_PM", "Mike_BE", "Sarah_FE", "Kevin_QA", "Nina_SRE",
     "Ravi_Staff", "Dana_DS", "Zoey_UX", "Tara_TPM"]

  const AckPrefix: string := "Ack - looking into this. "
  /** The acknowledgement quotes at most this many characters of the context. */
  const AckContextLimit: nat := 80

  /** The pool lists every key of the router's table once. */
  lemma RouterPoolIsKeys()
    ensures Py.Distinct(RouterPool)
    ensures forall i :: 0 <= i < |RouterPool| ==> RouterPool[i] in RouterPersonas
    ensures forall p :: p in RouterPersonas ==> p in RouterPool
  {
    assert RouterPool == Reg.PersonaNames;
    Reg.PersonaNamesAreKeys();
  }

  /** The router's table has the registry's nine keys; each tuple's username
      is its own key and its icon is the registry's icon. */
  lemma RouterTableMatchesRegistry()
    ensures RouterPersonas.Keys == Reg.Personas.Keys
    ensures forall p :: p in RouterPersonas ==> RouterPersonas[p].0 == p && RouterPersonas[p].1 == Reg.Personas[p].icon
  {
  }

  /** `choose_responder(channel, event_text)`: a key of the table drawn
      from the whole pool; the channel and the text play no part. */
  function ChooseResponder(channel: string, eventText: string, draw: nat): (p: string)
    ensures p in RouterPersonas && p in Reg.Personas
    ensures p == RouterPool[draw % |RouterPool|]
  {
    RouterPoolIsKeys();
    RouterTableMatchesRegistry();
    Py.Choice(RouterPool, draw)
  }

  /** `generate_reply_text(persona, event_text, recent_context)`: the fixed
      acknowledgement followed by the context's first 80 characters; the
      persona and the event text play no part. */
  function ReplyText(persona: string, eventText: string, recentContext: string): (t: string)
    ensures Py.StartsWith(t, AckPrefix)
    ensures t[|AckPrefix|..] == recentContext[..Py.Min(AckContextLimit, |recentContext|)]
    ensures |t| <= |AckPrefix| + AckContextLimit
  {
    var t := AckPrefix + Py.Take(recentContext, AckContextLimit);
    assert t[..|AckPrefix|] == AckPrefix;
    t
  }

  /** The `post_message` call `maybe_reply(channel, thread_ts, event_text,
      recent_context)` makes: to the given channel and thread, as the drawn
      persona, with its username and icon from the router's table. */
  datatype PostCall = PostCall(channel: string, text: string, username: string, iconEmoji: Option<string>, threadTs: Option<string>)

  function MaybeReply(channel: string, threadTs: Option<string>, eventText: string, recentContext: string,
                      draw: nat): (c: PostCall)
    ensures c.channel == channel && c.threadTs == threadTs
    ensures c.username == ChooseResponder(channel, eventText, draw)
    ensures c.iconEmoji == Some(Reg.Personas[c.username].icon)
    ensures c.text == ReplyText(c.username, eventText, recentContext)
  {
    var p := ChooseResponder(channel, eventText, draw);
    RouterTableMatchesRegistry();
    var (username, icon) := RouterPersonas[p];
    PostCall(channel, ReplyText(p, eventText, recentContext), username, Some(icon), threadTs)
  }

  /** The router's reply carries its thread under "threads_ts", never under
      "thread_ts", so it is posted to the channel rather than the thread. */
  lemma MaybeReplyIsNotThreaded(channel: string, threadTs: Option<string>, eventText: string,
                                recentContext: string, draw: nat)
    ensures var c := MaybeReply(channel, threadTs, eventText, recentContext, draw);
      var args := SlackClient.BuildArgs(c.channel, c.text, c.username, c.iconEmoji, c.threadTs);
      && "thread_ts" !in args
      && ("threads_ts" in args <==> Py.Truthy(threadTs))
      && "icon_emoji" in args && args["username"] == c.username
  {
    var c := MaybeReply(channel, threadTs, eventText, recentContext, draw);
    SlackClient.ThreadKeyMisspelled(c.channel, c.text, c.username, c.iconEmoji, c.threadTs);
    assert Reg.Personas[c.username].icon != "";
  }
}
