/** The helpers every orchestrator shares: the agent list built from a mode's settings, the
    chat messages sent to a model, and `run_agent`'s fallback from the agent framework to the
    inference client. The model calls themselves are oracles. */
module Common {
  import opened Wrappers
  import opened Text
  import opened Json
  import opened Turns
  import Settings

  /** One participating model: its name and its system prompt, both stored stripped. */
  datatype Agent = Agent(name: string, systemPrompt: string)

  /** A prompt sent to a model. Its fixed wording is not modelled: each prompt records the
      user query and the prior outputs it embeds, and nothing else. */
  datatype Prompt =
    | Plain(text: string)                                          // a system prompt or the user query itself
    | RankingRequest(query: string, labelled: seq<(string, string)>) // council stage 2: (label, response)
    | SynthesisRequest(query: string, responses: seq<(string, string)>, rankings: seq<(string, string)>)
    | TitleRequest(query: string)
    | AnalysisRequest(query: string)                               // sequential stage 1
    | ImproveRequest(previous: string)                             // sequential stage 2 step
    | RelayFinalRequest(last: string)                              // sequential chairman
    | CritiqueRequest(draft: string)                               // DxO stage 2
    | ReviseRequest(draft: string, critiques: seq<(string, string)>)
    | DxoFinalRequest(optimized: string, critiques: seq<(string, string)>)
    | ScoreRequest(responses: seq<(string, string)>)               // ensemble stage 2
    | BlendRequest(responses: seq<(string, string)>)               // ensemble stage 3

  datatype Role = System | User

  datatype Message = Message(role: Role, content: Prompt)

  /** `run_agent(model, messages)` at a fixed timeout: the content of the reply, or `None`
      when the call failed. */
  type Runner = (string, seq<Message>) -> Option<string>

  /** A model endpoint taking the model name, the messages and the timeout in seconds: the
      agent framework's client, or the inference client's `query_model`. */
  type Endpoint = (string, seq<Message>, real) -> Option<string>

  // ---------------------------------------------------------------------------------------
  // build_agents

  /** How `build_agents` treats one entry: skipped (`Ok(None)`), kept, or raising because the
      entry has no `.get` or its truthy name or prompt has no `.strip`. */
  function AgentOf(item: Json): Result<Option<Agent>> {
    if !item.JObj? then Err("AttributeError")
    else
      var name := Or(Get(item.fields, "name"), JStr(""));
      if !name.JStr? then Err("AttributeError")
      else if Strip(name.s) == "" then Ok(None)
      else
        var prompt := Or(Get(item.fields, "system_prompt"), JStr(""));
        if !prompt.JStr? then Err("AttributeError")
        else Ok(Some(Agent(Strip(name.s), Strip(prompt.s))))
  }

  /** The agents built so far, extended by one more entry. */
  function Extend(built: Result<seq<Agent>>, item: Json): Result<seq<Agent>> {
    if built.Err? then built
    else
      var next := AgentOf(item);
      if next.Err? then Err(next.error)
      else if next.value.None? then built
      else Ok(built.value + [next.value.value])
  }

  /** The agents built from `items`, in their order; the first entry that raises decides. */
  function AgentsFrom(items: seq<Json>): Result<seq<Agent>> {
    if items == [] then Ok([]) else Extend(AgentsFrom(items[..|items| - 1]), items[|items| - 1])
  }

  /** `settings.get("council_models", []) or []`, iterated: a list yields its entries; a
      non-empty string or dict yields strings, which have no `.get`; any other truthy value
      is not iterable. */
  function AgentsSpec(settings: Settings.Block): Result<seq<Agent>> {
    match Or(settings.councilModels, JArr([]))
    case JArr(items) => AgentsFrom(items)
    case JStr(_) => Err("AttributeError")
    case JObj(_) => Err("AttributeError")
    case _ => Err("TypeError")
  }

  /** `build_agents(settings)`: keeps, in order, the entries whose name is not blank, with
      name and system prompt stripped. */
  method BuildAgents(settings: Settings.Block) returns (r: Result<seq<Agent>>)
    ensures r == AgentsSpec(settings)
    ensures r.Ok? && settings.councilModels.JArr? ==> |r.value| <= |settings.councilModels.items|
    ensures r.Ok? ==> forall a :: a in r.value ==> Tidy(a)
    ensures r.Ok? && settings.councilModels.JArr? ==>
              forall a :: a in r.value <==>
                exists j :: 0 <= j < |settings.councilModels.items| &&
                  AgentOf(settings.councilModels.items[j]) == Ok(Some(a))
  {
    var source := Or(settings.councilModels, JArr([]));
    if !source.JArr? {
      return if source.JStr? || source.JObj? then Err("AttributeError") else Err("TypeError");
    }
    r := BuildFrom(source.items);
    AgentsFromTidy(source.items);
    if r.Ok? {
      AgentsFromMembers(source.items);
    }
  }

  /** The `build_agents` loop over a list of entries. */
  method BuildFrom(items: seq<Json>) returns (r: Result<seq<Agent>>)
    ensures r == AgentsFrom(items)
    ensures r.Ok? ==> |r.value| <= |items|
  {
    var agents: seq<Agent> := [];
    for i := 0 to |items|
      invariant AgentsFrom(items[..i]) == Ok(agents)
      invariant |agents| <= i
    {
      assert items[..i + 1][..i] == items[..i];
      assert AgentsFrom(items[..i + 1]) == Extend(Ok(agents), items[i]);
      var next := AppendAgent(agents, items[i]);
      if next.Err? {
        AgentsFromErrSticks(items, i + 1);
        return next;
      }
      agents := next.value;
    }
    assert items[..|items|] == items;
    r := Ok(agents);
  }

  /** One pass of the `build_agents` loop: the entry is skipped, appended with its name and
      system prompt stripped, or raises. */
  method AppendAgent(agents: seq<Agent>, item: Json) returns (r: Result<seq<Agent>>)
    ensures r == Extend(Ok(agents), item)
    ensures r.Ok? ==> agents <= r.value && |r.value| <= |agents| + 1
    ensures r.Ok? && |r.value| > |agents| ==> Tidy(r.value[|agents|])
  {
    if !item.JObj? {
      return Err("AttributeError");
    }
    var name := Or(Get(item.fields, "name"), JStr(""));
    if !name.JStr? {
      return Err("AttributeError");
    }
    var stripped := Strip(name.s);
    if stripped == "" {
      return Ok(agents);
    }
    var prompt := Or(Get(item.fields, "system_prompt"), JStr(""));
    if !prompt.JStr? {
      return Err("AttributeError");
    }
    AgentOfTidy(item);
    r := Ok(agents + [Agent(stripped, Strip(prompt.s))]);
  }

  /** Once an entry raises, later entries change nothing: the first error is the result. */
  lemma {:induction false} AgentsFromErrSticks(items: seq<Json>, j: nat)
    requires j <= |items| && AgentsFrom(items[..j]).Err?
    ensures AgentsFrom(items) == AgentsFrom(items[..j])
    decreases |items| - j
  {
    if j < |items| {
      assert items[..j + 1][..j] == items[..j];
      assert AgentsFrom(items[..j + 1]) == Extend(AgentsFrom(items[..j]), items[j]);
      AgentsFromErrSticks(items, j + 1);
    } else {
      assert items[..j] == items;
    }
  }

  /** An agent's name is not blank, and name and system prompt carry no surrounding
      whitespace. */
  predicate Tidy(a: Agent) {
    !IsBlank(a.name) && Strip(a.name) == a.name && Strip(a.systemPrompt) == a.systemPrompt
  }

  /** Every agent of a roster that builds is tidy. */
  lemma {:induction false} AgentsFromTidy(items: seq<Json>)
    ensures AgentsFrom(items).Ok? ==> forall a :: a in AgentsFrom(items).value ==> Tidy(a)
  {
    if items != [] {
      AgentsFromTidy(items[..|items| - 1]);
      AgentOfTidy(items[|items| - 1]);
    }
  }

  /** Every agent `build_agents` keeps is tidy. */
  lemma AgentOfTidy(item: Json)
    ensures AgentOf(item).Ok? && AgentOf(item).value.Some? ==> Tidy(AgentOf(item).value.value)
  {
    if AgentOf(item).Ok? && AgentOf(item).value.Some? {
      var name := Or(Get(item.fields, "name"), JStr(""));
      var prompt := Or(Get(item.fields, "system_prompt"), JStr(""));
      StripCharsIdempotent(name.s, Whitespace);
      StripCharsIdempotent(prompt.s, Whitespace);
      BlankIffStripsToEmpty(Strip(name.s));
    }
  }

  /** An agent is built exactly when some entry yields it: every agent is one entry's
      stripped name and stripped prompt, and no entry that yields an agent is dropped. */
  lemma {:induction false} AgentsFromMembers(items: seq<Json>)
    requires AgentsFrom(items).Ok?
    ensures forall a :: a in AgentsFrom(items).value <==>
              exists j :: 0 <= j < |items| && AgentOf(items[j]) == Ok(Some(a))
  {
    if items != [] {
      var init, last := items[..|items| - 1], items[|items| - 1];
      assert AgentsFrom(items) == Extend(AgentsFrom(init), last);
      assert AgentsFrom(init).Ok?;
      AgentsFromMembers(init);
      ExtendMembers(AgentsFrom(init).value, last);
      MembersStep(items, init, last, AgentsFrom(init).value, AgentsFrom(items).value);
    }
  }

  /** The step of `AgentsFromMembers`: the agents after one more entry are those of the
      entries so far and of that entry. */
  lemma MembersStep(items: seq<Json>, init: seq<Json>, last: Json, before: seq<Agent>, after: seq<Agent>)
    requires items != [] && init == items[..|items| - 1] && last == items[|items| - 1]
    requires forall b :: b in before <==> exists j :: 0 <= j < |init| && AgentOf(init[j]) == Ok(Some(b))
    requires forall b :: b in after <==> b in before || AgentOf(last) == Ok(Some(b))
    ensures forall a :: a in after <==> exists j :: 0 <= j < |items| && AgentOf(items[j]) == Ok(Some(a))
  {
    forall a
      ensures a in after <==> exists j :: 0 <= j < |items| && AgentOf(items[j]) == Ok(Some(a))
    {
      if a in after {
        MemberFromEntry(items, init, last, before, a);
      }
      if exists j :: 0 <= j < |items| && AgentOf(items[j]) == Ok(Some(a)) {
        EntryToMember(items, init, last, before, a);
      }
    }
  }

  /** The step of `AgentsFromMembers` from a built agent to the entry that yields it. */
  lemma MemberFromEntry(items: seq<Json>, init: seq<Json>, last: Json, before: seq<Agent>, a: Agent)
    requires items != [] && init == items[..|items| - 1] && last == items[|items| - 1]
    requires forall b :: b in before <==> exists j :: 0 <= j < |init| && AgentOf(init[j]) == Ok(Some(b))
    requires a in before || AgentOf(last) == Ok(Some(a))
    ensures exists j :: 0 <= j < |items| && AgentOf(items[j]) == Ok(Some(a))
  {
    if a in before {
      var j :| 0 <= j < |init| && AgentOf(init[j]) == Ok(Some(a));
      assert items[j] == init[j];
    } else {
      assert items[|items| - 1] == last;
    }
  }

  /** The step of `AgentsFromMembers` from an entry yielding an agent to that agent. */
  lemma EntryToMember(items: seq<Json>, init: seq<Json>, last: Json, before: seq<Agent>, a: Agent)
    requires items != [] && init == items[..|items| - 1] && last == items[|items| - 1]
    requires forall b :: b in before <==> exists j :: 0 <= j < |init| && AgentOf(init[j]) == Ok(Some(b))
    requires exists j :: 0 <= j < |items| && AgentOf(items[j]) == Ok(Some(a))
    ensures a in before || AgentOf(last) == Ok(Some(a))
  {
    var j :| 0 <= j < |items| && AgentOf(items[j]) == Ok(Some(a));
    if j < |init| {
      assert init[j] == items[j];
    } else {
      assert j == |items| - 1;
    }
  }

  /** Extending by one entry adds that entry's agent, if any, to those already built. */
  lemma ExtendMembers(built: seq<Agent>, x: Json)
    requires Extend(Ok(built), x).Ok?
    ensures forall a :: a in Extend(Ok(built), x).value <==> a in built || AgentOf(x) == Ok(Some(a))
  {
  }

  /** Agents are built entry by entry: those from `a + b` are those from `a` followed by
      those from `b`. */
  lemma {:induction false} AgentsFromAppend(a: seq<Json>, b: seq<Json>)
    requires AgentsFrom(a).Ok? && AgentsFrom(b).Ok?
    ensures AgentsFrom(a + b) == Ok(AgentsFrom(a).value + AgentsFrom(b).value)
    decreases |b|
  {
    if b == [] {
      assert a + b == a;
      assert AgentsFrom(a).value + AgentsFrom(b).value == AgentsFrom(a).value;
    } else {
      var b', x := b[..|b| - 1], b[|b| - 1];
      assert (a + b)[..|a + b| - 1] == a + b';
      assert (a + b)[|a + b| - 1] == x;
      assert AgentsFrom(b) == Extend(AgentsFrom(b'), x);
      assert AgentsFrom(b').Ok?;
      AgentsFromAppend(a, b');
      ExtendBehind(AgentsFrom(a).value, AgentsFrom(b').value, x);
    }
  }

  /** Extending does not look at the agents already built. */
  lemma ExtendBehind(p: seq<Agent>, q: seq<Agent>, x: Json)
    requires Extend(Ok(q), x).Ok?
    ensures Extend(Ok(p + q), x) == Ok(p + Extend(Ok(q), x).value)
  {
    var n := AgentOf(x);
    if n.value.Some? {
      assert (p + q) + [n.value.value] == p + (q + [n.value.value]);
    }
  }

  /** Missing, `None` or otherwise falsy `council_models` gives no agents. */
  lemma NoModelsNoAgents(settings: Settings.Block)
    requires !Truthy(settings.councilModels)
    ensures AgentsSpec(settings) == Ok([])
  {
  }

  /** Every effective model entry with a string (or missing) system prompt becomes one
      agent, in order: effective settings lose no model to `build_agents`. */
  lemma {:induction false} AgentsFromModelEntries(items: seq<Json>)
    requires forall i :: 0 <= i < |items| ==> Settings.IsModelEntry(items[i]) && PromptIsText(items[i])
    ensures AgentsFrom(items).Ok?
    ensures |AgentsFrom(items).value| == |items|
    ensures forall i :: 0 <= i < |items| ==>
              Settings.IsModelEntry(items[i]) && PromptIsText(items[i]) &&
              AgentsFrom(items).value[i] == EntryAgent(items[i])
  {
    if items == [] {
      assert AgentsFrom(items) == Ok([]);
    } else {
      var init, last := items[..|items| - 1], items[|items| - 1];
      AgentsFromModelEntries(init);
      AgentOfModelEntry(last);
      var prior := AgentsFrom(init).value;
      assert AgentsFrom(items) == Extend(AgentsFrom(init), last);
      assert AgentsFrom(items) == Ok(prior + [EntryAgent(last)]);
      EntryAgentsSnoc(items, prior);
    }
  }

  /** The per-entry agents of all but the last entry, followed by the last entry's agent. */
  lemma EntryAgentsSnoc(items: seq<Json>, prior: seq<Agent>)
    requires |items| > 0 && |prior| == |items| - 1
    requires forall i :: 0 <= i < |items| ==> Settings.IsModelEntry(items[i]) && PromptIsText(items[i])
    requires forall i :: 0 <= i < |prior| ==> prior[i] == EntryAgent(items[i])
    ensures forall i :: 0 <= i < |items| ==> (prior + [EntryAgent(items[|items| - 1])])[i] == EntryAgent(items[i])
  {
  }

  /** The agent a model entry whose prompt is text becomes: its stripped name, and its
      stripped prompt or `""` when the prompt is missing or falsy. */
  function EntryAgent(x: Json): Agent
    requires Settings.IsModelEntry(x) && PromptIsText(x)
  {
    Agent(Strip(Get(x.fields, "name").s), EntryPrompt(x))
  }

  /** The prompt an entry whose `system_prompt` is text contributes: that text stripped, or
      `""` when it is missing or falsy. */
  function EntryPrompt(x: Json): string
    requires PromptIsText(x)
  {
    var p := Or(Get(x.fields, "system_prompt"), JStr(""));
    if p.JStr? then Strip(p.s) else ""
  }

  /** The entry's `system_prompt` is a string, or falsy. */
  predicate PromptIsText(x: Json) {
    x.JObj? && (!Truthy(Get(x.fields, "system_prompt")) || Get(x.fields, "system_prompt").JStr?)
  }

  lemma AgentOfModelEntry(x: Json)
    requires Settings.IsModelEntry(x) && PromptIsText(x)
    ensures AgentOf(x).Ok? && AgentOf(x).value.Some?
    ensures AgentOf(x) == Ok(Some(EntryAgent(x)))
  {
    BlankIffStripsToEmpty(Get(x.fields, "name").s);
  }

  // ---------------------------------------------------------------------------------------
  // make_messages

  /** The messages `make_messages(system_prompt, content)` builds; `None` and `""` add no
      system message. */
  function Messages(systemPrompt: Option<string>, content: Prompt): seq<Message> {
    var sp := systemPrompt.GetOr("");
    (if sp != "" then [Message(System, Plain(sp))] else []) + [Message(User, content)]
  }

  /** The roster's names, in order. */
  function Names(agents: seq<Agent>): (names: seq<string>)
    ensures |names| == |agents| && forall i :: 0 <= i < |agents| ==> names[i] == agents[i].name
  {
    seq(|agents|, i requires 0 <= i < |agents| => agents[i].name)
  }

  /** `make_messages`: an optional system message, then the user message. */
  method MakeMessages(systemPrompt: Option<string>, content: Prompt) returns (messages: seq<Message>)
    ensures messages == Messages(systemPrompt, content)
    ensures |messages| == (if systemPrompt.GetOr("") != "" then 2 else 1)
    ensures messages[|messages| - 1] == Message(User, content)
    ensures |messages| == 2 ==> messages[0] == Message(System, Plain(systemPrompt.value))
  {
    messages := [];
    if systemPrompt.Some? && systemPrompt.value != "" {
      messages := messages + [Message(System, Plain(systemPrompt.value))];
    }
    messages := messages + [Message(User, content)];
  }

  // ---------------------------------------------------------------------------------------
  // What the sequential, DxO and ensemble orchestrators share

  /** The error those orchestrators report when no agent is configured. */
  const NoAgentsError: string := "No agents configured."

  /** The turn they return when no agent is configured. */
  function NoAgentsTurn(): Turn {
    Turn([], [], ModelResponse("error", NoAgentsError), NoMetadata)
  }

  /** The content of an agent's reply, with the agent's own system prompt, or "" when its
      call failed. */
  function ReplyText(run: Runner, a: Agent, prompt: Prompt): string {
    run(a.name, Messages(Some(a.systemPrompt), prompt)).GetOr("")
  }

  // ---------------------------------------------------------------------------------------
  // FrameworkAgent and run_agent

  /** The agent-framework adapter: a model name and a stripped system prompt. Its `run`
      tries foreign APIs and is the `framework` endpoint here. */
  datatype FrameworkAgent = FrameworkAgent(modelName: string, systemPrompt: string)

  /** `FrameworkAgent(model_name, system_prompt)`. */
  function NewFrameworkAgent(modelName: string, systemPrompt: Option<string>): (fa: FrameworkAgent)
    ensures fa.modelName == modelName
    ensures Strip(fa.systemPrompt) == fa.systemPrompt
    ensures fa.systemPrompt == Strip(systemPrompt.GetOr(""))
    ensures systemPrompt.None? ==> fa.systemPrompt == ""
  {
    StripCharsIdempotent(systemPrompt.GetOr(""), Whitespace);
    FrameworkAgent(modelName, Strip(systemPrompt.GetOr("")))
  }

  /** `timeout or 120.0`. */
  function EffectiveTimeout(timeout: Option<real>): real {
    if timeout.Some? && timeout.value != 0.0 then timeout.value else 120.0
  }

  /** `FrameworkAgent.run`: the adapter's own system prompt, when set, goes first. */
  function FrameworkRun(fa: FrameworkAgent, framework: Endpoint, messages: seq<Message>, timeout: Option<real>): Option<string> {
    var full := if fa.systemPrompt != "" then [Message(System, Plain(fa.systemPrompt))] + messages else messages;
    framework(fa.modelName, full, EffectiveTimeout(timeout))
  }

  /** `run_agent`: the framework's reply when it gives one, else the inference client's,
      both called with the messages unchanged and the timeout defaulting to 120 seconds. */
  method RunAgent(framework: Endpoint, queryModel: Endpoint, modelName: string, messages: seq<Message>, timeout: Option<real>)
    returns (r: Option<string>)
    ensures framework(modelName, messages, EffectiveTimeout(timeout)).Some? ==>
              r == framework(modelName, messages, EffectiveTimeout(timeout))
    ensures framework(modelName, messages, EffectiveTimeout(timeout)).None? ==>
              r == queryModel(modelName, messages, EffectiveTimeout(timeout))
    ensures timeout.None? ==> EffectiveTimeout(timeout) == 120.0
  {
    var fa := NewFrameworkAgent(modelName, None);
    var result := FrameworkRun(fa, framework, messages, timeout);
    if result.Some? {
      return result;
    }
    r := queryModel(modelName, messages, EffectiveTimeout(timeout));
  }
}
