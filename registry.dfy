/** The fixed configuration of the simulator: the nine personas, the channels
    they are likely to answer in with the probability of an answer, and the
    process-wide channel id <-> name caches. */
module PersonaRegistry {
  import opened Wrappers
  import Py

  /** One `PERSONAS` entry. (No entry carries a `role`, `tone_ticks`,
      `knowledge_domains`, `behaviors` or `seed_snippets` key.) */
  datatype Persona = Persona(username: string, icon: string, channels: seq<string>)

  /** One `CHANNEL_POLICY` entry. */
  datatype ChannelPolicy = ChannelPolicy(candidates: seq<string>, pReply: real)

  /** The keys of `PERSONAS`, in the dict's insertion order. */
  const PersonaNames: seq<string> :=
    ["Gabriella_PM", "Mike_BE", "Sarah_FE", "Kevin_QA", "Nina_SRE",
     "Ravi_Staff", "Dana_DS", "Zoey_UX", "Tara_TPM"]

  const Personas: map<string, Persona> := map[
    "Gabriella_PM" := Persona("Gabriella_PM", ":memo:", ["product", "announcements"]),
    "Mike_BE" := Persona("Mike_BE", ":gear:", ["eng-backend", "sre-ops", "deployments"]),
    "Sarah_FE" := Persona("Sarah_FE", ":art:", ["eng-frontend", "product", "random"]),
    "Kevin_QA" := Persona("Kevin_QA", ":mag:", ["qa-testing", "eng-backend", "eng-frontend", "deployments"]),
    "Nina_SRE" := Persona("Nina_SRE", ":helmet_with_white_cross:", ["sre-ops", "deployments", "eng-backend"]),
    "Ravi_Staff" := Persona("Ravi_Staff", ":compass:", ["eng-backend", "product", "sre-ops"]),
    "Dana_DS" := Persona("Dana_DS", ":bar_chart:", ["product", "eng-backend", "eng-frontend"]),
    "Zoey_UX" := Persona("Zoey_UX", ":lipstick:", ["design-ux", "product", "eng-frontend"]),
    "Tara_TPM" := Persona("Tara_TPM", ":calendar:", ["product", "announcements", "eng-backend", "eng-frontend"])
  ]

  /** The keys of `CHANNEL_POLICY`, in the dict's insertion order. */
  const ChannelNames: seq<string> :=
    ["sre-ops", "eng-backend", "eng-frontend", "qa-testing", "product",
     "deployments", "announcements", "design-ux", "random"]

  const ChannelPolicies: map<string, ChannelPolicy> := map[
    "sre-ops" := ChannelPolicy(["Nina_SRE", "Ravi_Staff", "Mike_BE", "Tara_TPM"], 0.85),
    "eng-backend" := ChannelPolicy(["Mike_BE", "Ravi_Staff", "Kevin_QA", "Dana_DS", "Tara_TPM"], 0.75),
    "eng-frontend" := ChannelPolicy(["Sarah_FE", "Zoey_UX", "Dana_DS", "Tara_TPM"], 0.60),
    "qa-testing" := ChannelPolicy(["Kevin_QA", "Mike_BE", "Sarah_FE"], 0.70),
    "product" := ChannelPolicy(["Gabriella_PM", "Tara_TPM", "Ravi_Staff", "Sarah_FE", "Dana_DS"], 0.55),
    "deployments" := ChannelPolicy(["Nina_SRE", "Mike_BE", "Kevin_QA", "Tara_TPM"], 0.65),
    "announcements" := ChannelPolicy(["Tara_TPM", "Gabriella_PM"], 0.25),
    "design-ux" := ChannelPolicy(["Zoey_UX", "Sarah_FE"], 0.5),
    "random" := ChannelPolicy(["Sarah_FE"], 0.2)
  ]

  /** `DEFAULT_POLICY`; no code reads it. */
  const DefaultPolicy: ChannelPolicy :=
    ChannelPolicy(["Mike_BE", "Kevin_QA", "Tara_TPM", "Nina_SRE", "Sarah_FE", "Gabriella_PM"], 0.5)

  /** `PersonaNames` lists every `PERSONAS` key exactly once. */
  lemma PersonaNamesAreKeys()
    ensures Py.Distinct(PersonaNames)
    ensures (set i | 0 <= i < |PersonaNames| :: PersonaNames[i]) == Personas.Keys
  {
    assert forall p :: p in Personas ==> p == PersonaNames[IndexOfPersona(p)];
  }

  /** `ChannelNames` lists every `CHANNEL_POLICY` key exactly once. */
  lemma ChannelNamesAreKeys()
    ensures Py.Distinct(ChannelNames)
    ensures (set i | 0 <= i < |ChannelNames| :: ChannelNames[i]) == ChannelPolicies.Keys
  {
    assert forall c :: c in ChannelPolicies ==> c == ChannelNames[IndexOfChannel(c)];
  }

  /** Every persona's username is its own key. */
  lemma UsernameIsKey(p: string)
    requires p in Personas
    ensures Personas[p].username == p
  {
  }

  /** Where a persona's key sits in `PersonaNames`. */
  function IndexOfPersona(p: string): (i: nat)
    requires p in Personas
    ensures i < |PersonaNames| && PersonaNames[i] == p
  {
    if p == "Gabriella_PM" then 0 else if p == "Mike_BE" then 1
    else if p == "Sarah_FE" then 2 else if p == "Kevin_QA" then 3
    else if p == "Nina_SRE" then 4 else if p == "Ravi_Staff" then 5
    else if p == "Dana_DS" then 6 else if p == "Zoey_UX" then 7 else 8
  }

  /** Where a channel sits in `ChannelNames`. */
  function IndexOfChannel(c: string): (i: nat)
    requires c in ChannelPolicies
    ensures i < |ChannelNames| && ChannelNames[i] == c
  {
    if c == "sre-ops" then 0 else if c == "eng-backend" then 1
    else if c == "eng-frontend" then 2 else if c == "qa-testing" then 3
    else if c == "product" then 4 else if c == "deployments" then 5
    else if c == "announcements" then 6 else if c == "design-ux" then 7 else 8
  }

  /** `CHANNEL_POLICY.get(ch_name)`: the channel's policy, which names only
      existing personas, none twice, with a reply probability between 0.2 and 0.85. */
  function PolicyFor(chName: string): (r: Option<ChannelPolicy>)
    ensures r.Some? <==> chName in ChannelPolicies
    ensures r.Some? ==> r.value == ChannelPolicies[chName]
    ensures r.Some? ==>
      && r.value.candidates != [] && Py.Distinct(r.value.candidates)
      && (forall i :: 0 <= i < |r.value.candidates| ==> r.value.candidates[i] in Personas)
      && 0.2 <= r.value.pReply <= 0.85
  {
    if chName in ChannelPolicies then Some(ChannelPolicies[chName]) else None
  }

  /** `[ch for ch, pol in CHANNEL_POLICY.items() if pol.get("p_reply", 0) > minP]`:
      the channels answering with probability above `minP`, in policy order. */
  function ChannelsAbove(minP: real): (r: seq<string>)
    ensures forall i :: 0 <= i < |r| ==> r[i] in ChannelPolicies && ChannelPolicies[r[i]].pReply > minP
  {
    Py.Filter(ChannelNames, c => PReplyAbove(minP, c))
  }

  /** Every channel answering with probability above `minP` is listed. */
  lemma ChannelsAboveComplete(minP: real)
    ensures forall c :: c in ChannelPolicies && ChannelPolicies[c].pReply > minP ==> c in ChannelsAbove(minP)
  {
    forall c | c in ChannelPolicies && ChannelPolicies[c].pReply > minP ensures c in ChannelsAbove(minP) {
      var i := IndexOfChannel(c);
      assert PReplyAbove(minP, ChannelNames[i]);
    }
  }

  /** No channel is listed twice. */
  lemma ChannelsAboveDistinct(minP: real)
    ensures Py.Distinct(ChannelsAbove(minP))
  {
    ChannelNamesAreKeys();
    Py.DistinctFilter(ChannelNames, c => PReplyAbove(minP, c));
  }

  /** The list is empty only for `minP` at or above the largest probability, 0.85. */
  lemma ChannelsAboveNonEmpty(minP: real)
    ensures minP < 0.85 <==> ChannelsAbove(minP) != []
  {
    if minP < 0.85 {
      assert PReplyAbove(minP, ChannelNames[0]);
    } else if ChannelsAbove(minP) != [] {
      PReplyAtMost(ChannelsAbove(minP)[0]);
    }
  }

  predicate PReplyAbove(minP: real, c: string) {
    c in ChannelPolicies && ChannelPolicies[c].pReply > minP
  }

  /** No channel answers with probability above 0.85. */
  lemma PReplyAtMost(c: string)
    requires c in ChannelPolicies
    ensures ChannelPolicies[c].pReply <= 0.85
  {
  }

  /** Only the announcements and random channels reply with probability at
      most 0.3 (0.25 and 0.2). */
  lemma QuietChannels(c: string)
    requires c in ChannelPolicies
    ensures ChannelPolicies[c].pReply <= 0.3 <==> c == "announcements" || c == "random"
  {
  }

  /** `PERSONAS[p]["username"] == u` for some persona `p` exactly when `u` is itself a persona key. */
  lemma UsernamesAreKeys(u: string)
    ensures (exists p :: p in Personas && Personas[p].username == u) <==> u in Personas
  {
    if u in Personas {
      assert Personas[u].username == u;
    }
  }

  /** The process-wide `CHANNEL_ID_TO_NAME` / `CHANNEL_NAME_TO_ID` caches,
      filled at start-up and by lookups. */
  class ChannelMaps {
    var idToName: map<string, string>
    var nameToId: map<string, string>

    /** Both caches start empty. */
    constructor ()
      ensures idToName == map[] && nameToId == map[]
    {
      idToName, nameToId := map[], map[];
    }
  }
}
