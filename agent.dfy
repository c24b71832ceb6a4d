/** The reply generator: recent context from the platform, filtered and
    rendered as prompt lines, the system and user prompts, and the shape of
    the generated reply. The platform's message listings and the language
    model are parameters (`None` when the call raised). */
module AgentEngine {
  import opened Wrappers
  import Py
  import Reg = PersonaRegistry

  /** `MAX_CTX`: how many context messages a prompt shows. */
  const MaxContext: nat := 10
  /** A context line shows at most this many characters of a message's text. */
  const CtxTextLimit: nat := 200

  /** The fields of a listed platform message the engine reads (`None`: the key is absent). */
  datatype CtxMessage = CtxMessage(user: Option<string>, username: Option<string>, text: Option<string>, subtype: Option<string>)

  /** Which listing the context comes from (50 messages are asked for). */
  datatype ContextSource = ThreadReplies(channel: string, ts: string) | ChannelHistory(channel: string)

  // ------------------------------------------------------------ the context

  /** Edits, joins and leaves are not user-visible messages. */
  predicate Hidden(m: CtxMessage) {
    m.subtype.Some? && m.subtype.value in {"message_changed", "channel_join", "channel_leave"}
  }

  predicate Shown(m: CtxMessage) { !Hidden(m) }

  /** The messages of `msgs` that are not hidden, in listing order. */
  function Kept(msgs: seq<CtxMessage>): (r: seq<CtxMessage>)
    ensures forall i :: 0 <= i < |r| ==> Shown(r[i]) && r[i] in msgs
    ensures forall i :: 0 <= i < |msgs| && Shown(msgs[i]) ==> msgs[i] in r
    ensures Py.IsSubseq(r, msgs)
  {
    Py.Filter(msgs, Shown)
  }

  /** The filter of `fetch_recent_context`: the last `k` messages that are
      not hidden (all of them when `k` is 0, as `out[-0:]` is the whole list). */
  function VisibleContext(msgs: seq<CtxMessage>, k: nat): (r: seq<CtxMessage>)
    ensures |r| <= |Kept(msgs)| && r == Kept(msgs)[|Kept(msgs)| - |r|..]
    ensures k > 0 ==> |r| == Py.Min(k, |Kept(msgs)|)
    ensures k == 0 ==> r == Kept(msgs)
  {
    Py.TakeLast(Kept(msgs), k)
  }

  /** Thread replies exactly when `thread_ts` is truthy, else channel history. */
  function SourceFor(channelId: string, threadTs: Option<string>): (s: ContextSource)
    ensures s.ThreadReplies? <==> Py.Truthy(threadTs)
    ensures s.channel == channelId
    ensures s.ThreadReplies? ==> Some(s.ts) == threadTs
  {
    if Py.Truthy(threadTs) then ThreadReplies(channelId, threadTs.value) else ChannelHistory(channelId)
  }

  /** `fetch_recent_context(channel_id, thread_ts, k)` over the listing oracle. */
  function FetchRecentContext(channelId: string, threadTs: Option<string>, k: nat,
                              listing: ContextSource -> Option<seq<CtxMessage>>): (r: Option<seq<CtxMessage>>)
    ensures r.Some? <==> listing(SourceFor(channelId, threadTs)).Some?
    ensures r.Some? ==> r.value == VisibleContext(listing(SourceFor(channelId, threadTs)).value, k)
  {
    match listing(SourceFor(channelId, threadTs))
    case None => None
    case Some(msgs) => Some(VisibleContext(msgs, k))
  }

  /** `m.get("user") or m.get("username", "user")` */
  function Speaker(m: CtxMessage): (u: string)
    ensures Py.Truthy(m.user) ==> u == m.user.value
    ensures !Py.Truthy(m.user) ==> u == m.username.GetOr("user")
  {
    if Py.Truthy(m.user) then m.user.value else m.username.GetOr("user")
  }

  /** `f"{u}: {t[:200]}"` with `t` the text, newlines turned into spaces. */
  function CtxLine(m: CtxMessage): (line: string)
    ensures var u, t := Speaker(m), m.text.GetOr("");
      && Py.StartsWith(line, u + ": ")
      && |line| == |u| + 2 + Py.Min(CtxTextLimit, |t|)
      && forall i :: 0 <= i < |line| - |u| - 2 ==> line[|u| + 2 + i] == (if t[i] == '\n' then ' ' else t[i])
    ensures ('\n' !in Speaker(m)) ==> '\n' !in line
  {
    var u, t := Speaker(m), Py.Unwrap(m.text.GetOr(""));
    var line := u + ": " + Py.Take(t, CtxTextLimit);
    CtxLineChars(u, Py.Take(t, CtxTextLimit));
    assert line[..|u| + 2] == u + ": ";
    assert forall i :: 0 <= i < |line| - |u| - 2 ==> line[|u| + 2 + i] == t[i];
    line
  }

  /** `u + ": " + t` holds a newline only where `u` does, when `t` has none. */
  lemma CtxLineChars(u: string, t: string)
    requires '\n' !in t
    ensures '\n' !in u ==> '\n' !in u + ": " + t
  {
    var line := u + ": " + t;
    if '\n' !in u {
      forall j | 0 <= j < |line| ensures line[j] != '\n' {
        if j < |u| {
          assert line[j] == u[j];
        } else if j >= |u| + 2 {
          assert line[j] == t[j - |u| - 2];
        }
      }
    }
  }

  /** The lines `format_ctx_for_prompt` joins: one per message, most recent first. */
  function CtxLines(msgs: seq<CtxMessage>): (lines: seq<string>)
    ensures |lines| == |msgs|
    ensures forall i :: 0 <= i < |lines| ==> lines[i] == CtxLine(msgs[|msgs| - 1 - i])
  {
    seq(|msgs|, i requires 0 <= i < |msgs| => CtxLine(msgs[|msgs| - 1 - i]))
  }

  /** `format_ctx_for_prompt(msgs)` */
  function FormatCtx(msgs: seq<CtxMessage>): string {
    Py.Join(CtxLines(msgs), "\n")
  }

  /** The rendered context splits back into one line per message, in
      reverse order, when no speaker name holds a newline. */
  lemma FormatCtxSplits(msgs: seq<CtxMessage>)
    requires msgs != []
    requires forall i :: 0 <= i < |msgs| ==> '\n' !in Speaker(msgs[i])
    ensures Py.Split(FormatCtx(msgs), '\n') == CtxLines(msgs)
  {
    var lines := CtxLines(msgs);
    forall i | 0 <= i < |lines| ensures '\n' !in lines[i] {
      assert '\n' !in Speaker(msgs[|msgs| - 1 - i]);
    }
    Py.SplitJoin(lines, '\n');
  }

  // -------------------------------------------------------------- the prompts

  /** The five fixed options `build_user_prompt` draws from when no guidance is given. */
  const GuidanceOptions: seq<string> := [
    "Respond naturally based on your role and expertise.",
    "Add your unique perspective based on your domain knowledge.",
    "Build on previous messages with specific technical details.",
    "Provide actionable next steps relevant to your role.",
    "Share insights that others might not have considered."
  ]

  const ThreadInstruction: string := "Reply in this thread."
  const ChannelInstruction: string := "Write a natural message to this channel."
  const ConciseLine: string := "Keep it concise (1-3 sentences)."

  /** The instruction line: `Reply in this thread.` exactly for a thread. */
  function Instruction(isThread: bool): (line: string)
    ensures line == ThreadInstruction <==> isThread
    ensures !isThread <==> line == ChannelInstruction
  {
    if isThread then ThreadInstruction else ChannelInstruction
  }

  /** The guidance the prompt carries: the given one, or a drawn fixed option when it is empty. */
  function Guidance(extra: string, draw: nat): (g: string)
    ensures extra != "" ==> g == extra
    ensures extra == "" ==> g in GuidanceOptions
  {
    if extra != "" then extra else Py.Choice(GuidanceOptions, draw)
  }

  const ChannelLabel: string := "Channel: #"
  const RecentLabel: string := "\nRecent messages:\n"
  const GoalLabel: string := "\n\nGoal: "
  const GuidanceLabel: string := "\nGuidance: "

  /** The opening lines of the user prompt: the channel, the context and the goal. */
  function UserPromptHead(channelName: string, eventText: string, ctxTxt: string): string {
    ChannelLabel + channelName + RecentLabel + ctxTxt + GoalLabel + eventText
  }

  /** The closing lines of the user prompt: the guidance, the instruction and the length request. */
  function UserPromptTail(guidance: string, isThread: bool): string {
    GuidanceLabel + guidance + "\n" + Instruction(isThread) + "\n" + ConciseLine
  }

  /** `build_user_prompt(channel_name, event_text, ctx_txt, is_thread, extra_guidance)`:
      the opening lines, then the closing lines with the guidance actually used. */
  function UserPrompt(channelName: string, eventText: string, ctxTxt: string, isThread: bool,
                      extra: string, draw: nat): (p: string)
    ensures Py.StartsWith(p, UserPromptHead(channelName, eventText, ctxTxt))
    ensures Py.EndsWith(p, UserPromptTail(Guidance(extra, draw), isThread))
  {
    var head := UserPromptHead(channelName, eventText, ctxTxt);
    var tail := UserPromptTail(Guidance(extra, draw), isThread);
    assert (head + tail)[..|head|] == head;
    assert (head + tail)[|head + tail| - |tail|..] == tail;
    head + tail
  }

  /** The cues of each role `_get_role_guidance` knows. */
  const BackendCues: seq<string> := ["Provide technical analysis from a systems perspective.",
            "Share debugging insights or code-level details.",
            "Suggest technical solutions or architectural considerations."]
  const QaCues: seq<string> := ["Share testing insights or verification steps.",
            "Report on test results or edge cases.",
            "Provide quality assurance perspective."]
  const SreCues: seq<string> := ["Focus on operational impact and mitigation strategies.",
            "Share incident response or monitoring insights.",
            "Provide infrastructure or deployment perspective."]
  const FrontendCues: seq<string> := ["Consider user experience and frontend implications.",
            "Share UI/UX insights or accessibility considerations.",
            "Provide frontend technical perspective."]
  const ProductCues: seq<string> := ["Focus on business impact and stakeholder communication.",
            "Share product strategy or prioritization insights.",
            "Provide customer impact and roadmap perspective."]
  const StaffCues: seq<string> := ["Focus on long-term architectural solutions.",
            "Consider technical debt and scalability.",
            "Provide senior technical guidance."]
  const TpmCues: seq<string> := ["Focus on timeline and coordination.",
            "Identify risks and blockers.",
            "Track milestones and deliverables."]
  const UxCues: seq<string> := ["Focus on user experience and usability.",
            "Share design system and accessibility insights.",
            "Consider user journey implications."]
  const DataCues: seq<string> := ["Share data-driven insights and analysis.",
            "Focus on experiment results and metrics.",
            "Provide analytical perspective."]

  /** `role_cues.get(role, ...)` of `_get_role_guidance`: the three cues of a
      known role, `None` for any other role. */
  function RoleCues(role: string): (cues: Option<seq<string>>)
    ensures cues.Some? ==> |cues.value| == 3
  {
    if role == "Backend Engineer" then Some(BackendCues)
    else if role == "QA Tester" then Some(QaCues)
    else if role == "SRE / DevOps" then Some(SreCues)
    else if role == "Frontend Engineer" then Some(FrontendCues)
    else if role == "Product Manager" then Some(ProductCues)
    else if role == "Staff Engineer" then Some(StaffCues)
    else if role == "TPM" then Some(TpmCues)
    else if role == "UX Designer" then Some(UxCues)
    else if role == "Data Scientist" then Some(DataCues)
    else None
  }

  /** The cues for a role `role_cues` does not know. */
  const DefaultCues: seq<string> := [
    "Add your unique perspective.",
    "Provide actionable insights.",
    "Share relevant details from your expertise."
  ]

  /** `_get_role_guidance(role)`: one of the role's cues, or of the default cues. */
  function RoleGuidance(role: string, draw: nat): (g: string)
    ensures RoleCues(role).Some? ==> g in RoleCues(role).value
    ensures RoleCues(role).None? ==> g in DefaultCues
  {
    match RoleCues(role)
    case Some(cues) => Py.Choice(cues, draw)
    case None => Py.Choice(DefaultCues, draw)
  }

  /** A persona without a role gets a default cue, which is never empty, so
      `build_user_prompt` then keeps it instead of drawing a fixed option. */
  lemma UnknownRoleGuidance(draw: nat)
    ensures RoleGuidance("", draw) in DefaultCues
    ensures RoleGuidance("", draw) != ""
  {
    var g := RoleGuidance("", draw);
    assert g == DefaultCues[0] || g == DefaultCues[1] || g == DefaultCues[2];
  }

  /** The personality hint of each role `persona_system_prompt` knows. */
  const BackendHint: string :=
    "You're technical, direct, and focused on root causes. You think in terms of systems and data."
  const ProductHint: string :=
    "You're strategic, stakeholder-focused, and always thinking about business impact and timelines."
  const QaHint: string :=
    "You're methodical, detail-oriented, and focused on reproducibility and verification."
  const SreHint: string :=
    "You're incident-focused, pragmatic, and always thinking about stability and rollback plans."
  const FrontendHint: string :=
    "You're user-focused, design-aware, and think about accessibility and user experience."
  const StaffHint: string :=
    "You're senior, architectural, and think about long-term solutions and technical debt."
  const UxHint: string :=
    "You're user-centric, empathetic, and focused on usability and design consistency."
  const TpmHint: string :=
    "You're process-oriented, organized, and focused on coordination and project management."
  const DataHint: string :=
    "You're analytical, data-driven, and focused on experimentation and user behavior insights."

  /** `personality_hints.get(role)` of `persona_system_prompt`. */
  function PersonalityHint(role: string): Option<string> {
    if role == "Backend Engineer" then Some(BackendHint)
    else if role == "Product Manager" then Some(ProductHint)
    else if role == "QA Tester" then Some(QaHint)
    else if role == "SRE / DevOps" then Some(SreHint)
    else if role == "Frontend Engineer" then Some(FrontendHint)
    else if role == "Staff Engineer" then Some(StaffHint)
    else if role == "UX Designer" then Some(UxHint)
    else if role == "TPM" then Some(TpmHint)
    else if role == "Data Scientist" then Some(DataHint)
    else None
  }

  const DefaultRole: string := "Team Member"
  const DefaultPersonality: string := "You're professional and collaborative."

  /** The persona fields the system prompt reads (`role` `None`: the key is absent). */
  datatype PersonaCfg = PersonaCfg(role: Option<string>, toneTicks: seq<string>, knowledge: seq<string>,
                                   behaviors: seq<string>, seedSnippets: seq<string>)

  /** `PERSONAS.get(name, {})` seen through those fields: no registry entry
      carries any of them, so every one takes its default. */
  function CfgOf(personaName: string): (cfg: PersonaCfg)
    ensures cfg.role.None? && cfg.toneTicks == [] && cfg.knowledge == [] && cfg.behaviors == [] && cfg.seedSnippets == []
  {
    PersonaCfg(None, [], [], [], [])
  }

  /** `persona_cfg.get("role", "Team Member")` */
  function RoleOf(cfg: PersonaCfg): (role: string)
    ensures cfg.role.Some? ==> role == cfg.role.value
    ensures cfg.role.None? ==> role == DefaultRole
  {
    cfg.role.GetOr(DefaultRole)
  }

  /** `personality_hints.get(role, "You're professional and collaborative.")` */
  function Personality(role: string): (hint: string)
    ensures PersonalityHint(role).Some? ==> hint == PersonalityHint(role).value
    ensures PersonalityHint(role).None? ==> hint == DefaultPersonality
  {
    PersonalityHint(role).GetOr(DefaultPersonality)
  }

  /** `'• "' + s + '"'` for each seed snippet. */
  function Quoted(snippets: seq<string>): (r: seq<string>)
    ensures |r| == |snippets|
    ensures forall i :: 0 <= i < |r| ==> r[i] == "• \"" + snippets[i] + "\""
  {
    seq(|snippets|, i requires 0 <= i < |snippets| => "• \"" + snippets[i] + "\"")
  }

  const ExpertiseLabel: string := "Your expertise: "
  const ContributionsLabel: string := "Your typical contributions: "
  const StyleLabel: string := "Communication style: Use these phrases naturally: "
  const StyleRules: string :=
    "Keep messages concise, concrete, and actionable. Use @mentions when relevant.\n"
    + "Only output the message text, no markdown fences.\n\n"
    + "Example messages (emulate this tone):\n"

  /** The system prompt's first line: the persona's name, role and personality hint. */
  function SystemPromptHead(personaName: string, role: string): string {
    "You are " + personaName + " (" + role + "). " + Personality(role) + "\n"
  }

  /** The rest of the system prompt: expertise, contributions, phrases and example messages. */
  function SystemPromptBody(cfg: PersonaCfg): string {
    ExpertiseLabel + Py.Join(cfg.knowledge, ", ") + "\n"
      + ContributionsLabel + Py.Join(cfg.behaviors, ", ") + "\n"
      + StyleLabel + Py.Join(cfg.toneTicks, ", ") + "\n"
      + StyleRules + Py.Join(Quoted(cfg.seedSnippets), "\n")
  }

  /** `persona_system_prompt(name, cfg)`: it opens with the line naming the
      persona with its role (default "Team Member") and matching personality hint. */
  function SystemPrompt(personaName: string, cfg: PersonaCfg): (p: string)
    ensures Py.StartsWith(p, SystemPromptHead(personaName, RoleOf(cfg)))
  {
    var head := SystemPromptHead(personaName, RoleOf(cfg));
    var body := SystemPromptBody(cfg);
    assert (head + body)[..|head|] == head;
    head + body
  }

  /** Every persona of the simulator is introduced as a "Team Member" who is
      "professional and collaborative": the registry gives none a role. */
  lemma RegistryPersonasUseDefaults(personaName: string)
    ensures Py.StartsWith(SystemPrompt(personaName, CfgOf(personaName)),
                          "You are " + personaName + " (" + DefaultRole + "). " + DefaultPersonality + "\n")
  {
    assert RoleOf(CfgOf(personaName)) == DefaultRole;
    assert PersonalityHint(DefaultRole).None?;
  }

  // ---------------------------------------------------------- the reply

  /** What `generate_reply` returns. */
  datatype Reply = Reply(text: string, supports: seq<string>)

  /** The two prompts `generate_reply` sends to the model: the context is
      fetched with `thread_ts`, the guidance is drawn from the persona's role
      cues, and the prompt is a thread prompt exactly when `thread_ts` is truthy. */
  function Prompts(personaName: string, channelName: string, channelId: string, eventText: string,
                   threadTs: Option<string>, ctx: seq<CtxMessage>, guidanceDraw: nat): (r: (string, string))
    ensures r.0 == SystemPrompt(personaName, CfgOf(personaName))
    ensures Py.StartsWith(r.1, UserPromptHead(channelName, eventText, FormatCtx(ctx)))
    ensures Py.EndsWith(r.1, UserPromptTail(RoleGuidance("", guidanceDraw), Py.Truthy(threadTs)))
  {
    var cfg := CfgOf(personaName);
    var extra := RoleGuidance(cfg.role.GetOr(""), guidanceDraw);
    UnknownRoleGuidance(guidanceDraw);
    (SystemPrompt(personaName, cfg), UserPrompt(channelName, eventText, FormatCtx(ctx), Py.Truthy(threadTs), extra, 0))
  }

  /** `generate_reply(...)`: `None` when the context listing or the model
      raised; otherwise the model's answer with surrounding whitespace
      stripped, and no supports. */
  function GenerateReply(personaName: string, channelName: string, channelId: string, eventText: string,
                         threadTs: Option<string>, listing: ContextSource -> Option<seq<CtxMessage>>,
                         guidanceDraw: nat, complete: ((string, string)) -> Option<string>): (r: Option<Reply>)
    ensures r.Some? <==>
      && FetchRecentContext(channelId, threadTs, MaxContext, listing).Some?
      && complete(Prompts(personaName, channelName, channelId, eventText, threadTs,
                          FetchRecentContext(channelId, threadTs, MaxContext, listing).value, guidanceDraw)).Some?
    ensures r.Some? ==> r.value.supports == []
    ensures r.Some? ==> r.value.text == Py.Strip(complete(Prompts(personaName, channelName, channelId, eventText, threadTs,
                          FetchRecentContext(channelId, threadTs, MaxContext, listing).value, guidanceDraw)).value)
  {
    match FetchRecentContext(channelId, threadTs, MaxContext, listing)
    case None => None
    case Some(ctx) =>
      match complete(Prompts(personaName, channelName, channelId, eventText, threadTs, ctx, guidanceDraw))
      case None => None
      case Some(answer) => Some(Reply(Py.Strip(answer), []))
  }
}
