/** The council orchestration: every model answers, every model ranks the anonymised
    answers, and a chairman synthesises the final answer; plus the conversation title. */
module Council {
  import opened Wrappers
  import opened Text
  import opened Turns
  import opened Common
  import opened Ranking
  import Settings
  import Config

  // ---------------------------------------------------------------------------------------
  // Stage 1

  /** What one agent contributes to stage 1: its answer, unless its call failed. */
  function Answer(run: Runner, query: string, a: Agent): seq<ModelResponse> {
    if a.name == "" then []
    else
      match run(a.name, Messages(Some(Strip(a.systemPrompt)), Plain(query)))
      case None => []
      case Some(content) => [ModelResponse(a.name, content)]
  }

  /** The stage-1 results: the answers of the agents whose call returned, in roster order. */
  function Stage1Of(run: Runner, query: string, agents: seq<Agent>): seq<ModelResponse> {
    if agents == [] then []
    else Stage1Of(run, query, agents[..|agents| - 1]) + Answer(run, query, agents[|agents| - 1])
  }

  /** Stage 1 keeps exactly the named agents whose call returned, each with its content, and
      never more results than agents. */
  lemma {:induction false} Stage1Exactly(run: Runner, query: string, agents: seq<Agent>)
    ensures |Stage1Of(run, query, agents)| <= |agents|
    ensures forall r :: r in Stage1Of(run, query, agents) <==> exists a :: a in agents && AnsweredBy(run, query, a, r)
  {
    if agents != [] {
      var init := agents[..|agents| - 1];
      var last := agents[|agents| - 1];
      Stage1Exactly(run, query, init);
      assert forall a :: a in agents <==> a in init || a == last;
      assert forall r :: r in Answer(run, query, last) <==> AnsweredBy(run, query, last, r);
    }
  }

  /** `r` is the answer agent `a` returned for the query. */
  predicate AnsweredBy(run: Runner, query: string, a: Agent, r: ModelResponse) {
    && a.name != ""
    && r.model == a.name
    && run(a.name, Messages(Some(Strip(a.systemPrompt)), Plain(query))) == Some(r.response)
  }

  /** Results follow the roster: those of `a + b` are those of `a`, then those of `b`. */
  lemma {:induction false} Stage1Append(run: Runner, query: string, a: seq<Agent>, b: seq<Agent>)
    ensures Stage1Of(run, query, a + b) == Stage1Of(run, query, a) + Stage1Of(run, query, b)
    decreases |b|
  {
    if b == [] {
      assert a + b == a;
    } else {
      var b' := b[..|b| - 1];
      assert (a + b)[..|a + b| - 1] == a + b';
      Stage1Append(run, query, a, b');
    }
  }

  /** `run_stage1_council` once the agents are built: every agent is asked concurrently and
      the replies are taken back in roster order. */
  method RunStage1(run: Runner, query: string, agents: seq<Agent>) returns (s1: seq<ModelResponse>)
    ensures s1 == Stage1Of(run, query, agents)
  {
    s1 := [];
    for i := 0 to |agents|
      invariant s1 == Stage1Of(run, query, agents[..i])
    {
      assert agents[..i + 1][..i] == agents[..i];
      var name := agents[i].name;
      if name == "" {
        continue;
      }
      var messages := MakeMessages(Some(Strip(agents[i].systemPrompt)), Plain(query));
      var response := run(name, messages);
      if response.Some? {
        s1 := s1 + [ModelResponse(name, response.value)];
      }
    }
    assert agents[..|agents|] == agents;
  }

  // ---------------------------------------------------------------------------------------
  // Stage 2

  /** The ranking prompt: the query and each answer under its label. */
  function RankingPrompt(query: string, s1: seq<ModelResponse>): Prompt
    requires |s1| <= LabelLimit
  {
    RankingRequest(query, seq(|s1|, i requires 0 <= i < |s1| => (Label(i), s1[i].response)))
  }

  /** What one agent contributes to stage 2: its review and the ranking parsed from it. */
  function Review(run: Runner, prompt: Prompt, a: Agent): seq<Stage2Entry> {
    if a.name == "" then []
    else
      match run(a.name, Messages(Some(Strip(a.systemPrompt)), prompt))
      case None => []
      case Some(text) => [RankingEntry(a.name, text, ParsedRanking(text))]
  }

  /** The stage-2 results: the reviews of the agents whose call returned, in roster order. */
  function Stage2Of(run: Runner, prompt: Prompt, agents: seq<Agent>): (s2: seq<Stage2Entry>)
    ensures AllReviews(s2)
  {
    if agents == [] then []
    else Stage2Of(run, prompt, agents[..|agents| - 1]) + Review(run, prompt, agents[|agents| - 1])
  }

  /** Stage 2 keeps exactly the named agents whose call returned, each with its review and
      the ranking parsed from it. */
  lemma {:induction false} Stage2Exactly(run: Runner, prompt: Prompt, agents: seq<Agent>)
    ensures |Stage2Of(run, prompt, agents)| <= |agents|
    ensures forall e :: e in Stage2Of(run, prompt, agents) <==> exists a :: a in agents && ReviewedBy(run, prompt, a, e)
  {
    if agents != [] {
      var init := agents[..|agents| - 1];
      var last := agents[|agents| - 1];
      Stage2Exactly(run, prompt, init);
      assert forall a :: a in agents <==> a in init || a == last;
      assert forall e :: e in Review(run, prompt, last) <==> ReviewedBy(run, prompt, last, e);
    }
  }

  /** `e` is the review agent `a` returned for `prompt`, with the ranking parsed from it. */
  predicate ReviewedBy(run: Runner, prompt: Prompt, a: Agent, e: Stage2Entry) {
    && e.RankingEntry?
    && a.name != ""
    && e.model == a.name
    && run(a.name, Messages(Some(Strip(a.systemPrompt)), prompt)) == Some(e.ranking)
    && e.parsedRanking == ParsedRanking(e.ranking)
  }

  /** `run_stage2_council`: labels the answers, has every agent review them, and parses
      each review's ranking. */
  method RunStage2(run: Runner, query: string, s1: seq<ModelResponse>, agents: seq<Agent>)
    returns (s2: seq<Stage2Entry>, labelToModel: map<string, string>)
    requires |s1| <= LabelLimit
    ensures labelToModel == LabelToModel(s1)
    ensures s2 == Stage2Of(run, RankingPrompt(query, s1), agents)
  {
    labelToModel := LabelToModel(s1);
    var prompt := RankingPrompt(query, s1);
    s2 := [];
    for i := 0 to |agents|
      invariant s2 == Stage2Of(run, prompt, agents[..i])
    {
      assert agents[..i + 1][..i] == agents[..i];
      var name := agents[i].name;
      if name == "" {
        continue;
      }
      var messages := MakeMessages(Some(Strip(agents[i].systemPrompt)), prompt);
      var response := run(name, messages);
      if response.Some? {
        var parsed := ParseRanking(response.value);
        s2 := s2 + [RankingEntry(name, response.value, parsed)];
      }
    }
    assert agents[..|agents|] == agents;
  }

  // ---------------------------------------------------------------------------------------
  // Stage 3

  /** `settings.get("chairman_model") or CHAIRMAN_MODEL`. */
  function ChairmanOf(settings: Settings.Block): string {
    if settings.chairmanModel != "" then settings.chairmanModel else Config.ChairmanModel
  }

  const SynthesisError: string := "Error: Unable to generate final synthesis."

  /** The synthesis prompt: the query, every answer and every review, by model. */
  function SynthesisPrompt(query: string, s1: seq<ModelResponse>, s2: seq<Stage2Entry>): Prompt
    requires AllReviews(s2)
  {
    SynthesisRequest(query,
      seq(|s1|, i requires 0 <= i < |s1| => (s1[i].model, s1[i].response)),
      seq(|s2|, i requires 0 <= i < |s2| => (s2[i].model, s2[i].ranking)))
  }

  /** The chairman's synthesis, or a fixed error text when the call failed. */
  function Stage3Of(run: Runner, query: string, s1: seq<ModelResponse>, s2: seq<Stage2Entry>, settings: Settings.Block): ModelResponse
    requires AllReviews(s2)
  {
    var chairman := ChairmanOf(settings);
    match run(chairman, Messages(None, SynthesisPrompt(query, s1, s2)))
    case None => ModelResponse(chairman, SynthesisError)
    case Some(content) => ModelResponse(chairman, content)
  }

  /** `run_stage3_council`: asks the chairman for the synthesis; its metadata is empty. */
  method RunStage3(run: Runner, query: string, s1: seq<ModelResponse>, s2: seq<Stage2Entry>, settings: Settings.Block)
    returns (s3: ModelResponse)
    requires AllReviews(s2)
    ensures s3 == Stage3Of(run, query, s1, s2, settings)
  {
    var messages := MakeMessages(None, SynthesisPrompt(query, s1, s2));
    var chairman := ChairmanOf(settings);
    var response := run(chairman, messages);
    if response.None? {
      s3 := ModelResponse(chairman, SynthesisError);
    } else {
      s3 := ModelResponse(chairman, response.value);
    }
  }

  // ---------------------------------------------------------------------------------------
  // generate_conversation_title

  const DefaultTitle: string := "New Conversation"

  /** The characters `str.strip("\"'")` removes. */
  const Quotes: set<char> := {'"', '\''}

  /** The title cut from a reply: stripped of whitespace, then of quotes, and cut to 47
      characters plus "..." when longer than 50. */
  function TitleOf(reply: Option<string>): (t: string)
    ensures |t| <= 50
    ensures reply.None? ==> t == DefaultTitle
  {
    if reply.None? then DefaultTitle
    else
      var title := StripChars(Strip(reply.value), Quotes);
      if |title| > 50 then title[..47] + "..." else title
  }

  /** A reply's title is its text with the surrounding whitespace and then the surrounding
      quotes removed, cut to 47 characters plus "..." only when that text is longer than 50;
      the text kept starts and ends with neither a quote nor whitespace. */
  lemma TitleShape(content: string)
    ensures var title := StripChars(Strip(content), Quotes);
            && (|title| <= 50 ==> TitleOf(Some(content)) == title)
            && (|title| > 50 ==> TitleOf(Some(content)) == title[..47] + "..." && |TitleOf(Some(content))| == 50)
            && (title == [] || (title[0] !in Quotes && title[|title| - 1] !in Quotes))
  {
    StripCharsSlice(Strip(content), Quotes);
  }

  /** The text kept for a title is a contiguous piece of the reply. */
  lemma TitleTextIsSlice(content: string) returns (i: nat, j: nat)
    ensures i <= j <= |content|
    ensures StripChars(Strip(content), Quotes) == content[i..j]
  {
    var a, b := StripCharsSpan(content, Whitespace);
    var stripped := content[a..b];
    var c, d := StripCharsSpan(stripped, Quotes);
    i, j := a + c, a + d;
    SliceOfSlice(content, a, b, c, d);
  }

  /** A slice of a slice is a slice of the whole. */
  lemma SliceOfSlice(s: string, a: nat, b: nat, c: nat, d: nat)
    requires a <= b <= |s| && c <= d <= b - a
    ensures s[a..b][c..d] == s[a + c..a + d]
  {
    assert |s[a..b][c..d]| == d - c;
    forall k | 0 <= k < d - c
      ensures s[a..b][c..d][k] == s[a + c..a + d][k]
    {
      assert s[a..b][c..d][k] == s[a..b][c + k] == s[a + c + k];
    }
  }

  /** The title model of a block: `settings.get("title_model") or TITLE_MODEL`. */
  function TitleModelOf(settings: Settings.Block): string {
    if settings.titleModel != "" then settings.titleModel else Config.TitleModel
  }

  /** The title `generate_conversation_title` returns, or the error reading the settings
      raised. */
  function ConversationTitle(runTitle: Runner, query: string, settings: Result<Settings.Block>): Result<string> {
    if settings.Err? then Err(settings.error)
    else Ok(TitleOf(runTitle(TitleModelOf(settings.value), Messages(None, TitleRequest(query)))))
  }

  /** `generate_conversation_title`: asks the title model, with a 30-second timeout
      (`runTitle`), for a title for the query. Reading the settings may raise. */
  method GenerateConversationTitle(runTitle: Runner, query: string, settings: Result<Settings.Block>)
    returns (r: Result<string>)
    ensures r == ConversationTitle(runTitle, query, settings)
    ensures settings.Err? <==> r.Err?
    ensures settings.Ok? ==>
              r.value == TitleOf(runTitle(TitleModelOf(settings.value), Messages(None, TitleRequest(query))))
    ensures r.Ok? ==> |r.value| <= 50
  {
    var messages := MakeMessages(None, TitleRequest(query));
    if settings.Err? {
      return Err(settings.error);
    }
    var model := TitleModelOf(settings.value);
    var response := runTitle(model, messages);
    r := Ok(TitleOf(response));
  }

  // ---------------------------------------------------------------------------------------
  // run_council and stream_council

  const NoAnswersError: string := "All models failed to respond. Please try again."
  const NoAnswersEvent: string := "All models failed to respond."

  /** The turn returned when no agent is configured. */
  function NoAnswersTurn(): Turn {
    Turn([], [], ModelResponse("error", NoAnswersError), NoMetadata)
  }

  /** What `run_council` computes. `settings` is what `get_effective_settings(mode)` gives
      (or raises); all three reads of it in one run agree. */
  function CouncilOf(run: Runner, query: string, settings: Result<Settings.Block>): Result<Turn> {
    if settings.Err? then Err(settings.error)
    else
      var agents := AgentsSpec(settings.value);
      if agents.Err? then Err(agents.error)
      else if agents.value == [] then Ok(NoAnswersTurn())
      else
        var s1 := Stage1Of(run, query, agents.value);
        if |s1| > LabelLimit then Err("ValueError")
        else
          var labelToModel := LabelToModel(s1);
          var s2 := Stage2Of(run, RankingPrompt(query, s1), agents.value);
          Ok(Turn(s1, s2, Stage3Of(run, query, s1, s2, settings.value),
                  CouncilMeta(labelToModel, AggregateRankings(s2, labelToModel))))
  }

  /** `run_council`. */
  method RunCouncil(run: Runner, query: string, settings: Result<Settings.Block>) returns (r: Result<Turn>)
    ensures r == CouncilOf(run, query, settings)
  {
    if settings.Err? {
      return Err(settings.error);
    }
    var agents := BuildAgents(settings.value);
    if agents.Err? {
      return Err(agents.error);
    }
    if agents.value == [] {
      return Ok(NoAnswersTurn());
    }
    var s1 := RunStage1(run, query, agents.value);
    if |s1| > LabelLimit {
      return Err("ValueError");
    }
    var s2, labelToModel := RunStage2(run, query, s1, agents.value);
    var s3 := RunStage3(run, query, s1, s2, settings.value);
    var aggregate := CalculateAggregateRankings(s2, labelToModel);
    r := Ok(Turn(s1, s2, s3, CouncilMeta(labelToModel, aggregate)));
  }

  /** A council turn: an error when the settings or the roster cannot be read; the error
      turn when no agent is configured; otherwise the answers of the agents that replied, one
      review per agent that replied, the chairman's synthesis, and a label map and aggregate
      that account for every vote, sorted by average position. */
  lemma CouncilOutcome(run: Runner, query: string, settings: Result<Settings.Block>)
    ensures settings.Err? ==> CouncilOf(run, query, settings).Err?
    ensures settings.Ok? && AgentsSpec(settings.value).Err? ==> CouncilOf(run, query, settings).Err?
    ensures settings.Ok? && AgentsSpec(settings.value) == Ok([]) ==> CouncilOf(run, query, settings) == Ok(NoAnswersTurn())
    ensures settings.Ok? && AgentsSpec(settings.value).Ok? && AgentsSpec(settings.value).value != [] &&
            CouncilOf(run, query, settings).Ok? ==>
              var agents := AgentsSpec(settings.value).value;
              var t := CouncilOf(run, query, settings).value;
              && |t.stage1| <= |agents|
              && |t.stage2| <= |agents|
              && AllReviews(t.stage2)
              && (settings.value.chairmanModel != "" ==> t.stage3.model == settings.value.chairmanModel)
              && (settings.value.chairmanModel == "" ==> t.stage3.model == Config.ChairmanModel)
              && (run(t.stage3.model, Messages(None, SynthesisPrompt(query, t.stage1, t.stage2))).None? ==>
                    t.stage3.response == SynthesisError)
              && t.metadata.CouncilMeta?
              && SortedByAverage(t.metadata.aggregateRankings)
              && TotalCount(t.metadata.aggregateRankings) == |Votes(t.stage2, t.metadata.labelToModel)|
  {
    if settings.Ok? && AgentsSpec(settings.value).Ok? && AgentsSpec(settings.value).value != [] {
      var agents := AgentsSpec(settings.value).value;
      var s1 := Stage1Of(run, query, agents);
      Stage1Exactly(run, query, agents);
      if |s1| <= LabelLimit {
        var s2 := Stage2Of(run, RankingPrompt(query, s1), agents);
        var labelToModel := LabelToModel(s1);
        assert CouncilOf(run, query, settings) == Ok(Turn(s1, s2, Stage3Of(run, query, s1, s2, settings.value),
          CouncilMeta(labelToModel, AggregateRankings(s2, labelToModel))));
        Stage2Exactly(run, RankingPrompt(query, s1), agents);
        AggregateSorted(s2, labelToModel);
        AggregateCountsTotal(s2, labelToModel);
      }
    }
  }

  /** What `stream_council` yields, stores and raises. */
  function StreamOf(run: Runner, query: string, settings: Result<Settings.Block>): Streamed {
    match CouncilOf(run, query, settings)
    case Err(e) =>
      if settings.Ok? && AgentsSpec(settings.value).Ok? then
        // only the labelling of stage 2 raises once the agents are built
        Streamed([Stage1Start, Stage1Complete(Stage1Of(run, query, AgentsSpec(settings.value).value)), Stage2Start], None, Some(e))
      else Streamed([Stage1Start], None, Some(e))
    case Ok(t) =>
      if t == NoAnswersTurn() then Streamed(FailedStream(NoAnswersEvent), None, None)
      else Streamed(FullStream(t.stage1, t.stage2, t.metadata, t.stage3), Some(StoredReply(t.stage1, t.stage2, t.stage3)), None)
  }

  /** The stream agrees with the run: it raises exactly when the run does, with the same
      error; otherwise its events form a stage stream, and it stores exactly the stages of
      the turn the run returns, unless no agent is configured, when it stores nothing and
      ends on an error event. */
  lemma StreamMatchesRun(run: Runner, query: string, settings: Result<Settings.Block>)
    ensures var out := StreamOf(run, query, settings);
            var r := CouncilOf(run, query, settings);
            && out.events != [] && out.events[0] == Stage1Start
            && (out.raised.Some? <==> r.Err?)
            && (out.raised.Some? ==> out.raised.value == r.error && out.stored.None?)
            && (out.raised.None? ==> IsStageStream(out.events))
            && (r == Ok(NoAnswersTurn()) ==> out.stored.None? && out.events[|out.events| - 1] == Error(NoAnswersEvent))
            && (r.Ok? && r != Ok(NoAnswersTurn()) ==>
                  out.stored == Some(StoredReply(r.value.stage1, r.value.stage2, r.value.stage3)) &&
                  out.events[|out.events| - 1] == Complete)
  {
    var r := CouncilOf(run, query, settings);
    if r.Ok? {
      var t := r.value;
      FullAndFailedAreStageStreams(t.stage1, t.stage2, t.metadata, t.stage3, NoAnswersEvent);
    }
  }

  /** `stream_council`. */
  method StreamCouncil(run: Runner, query: string, settings: Result<Settings.Block>) returns (out: Streamed)
    ensures out == StreamOf(run, query, settings)
  {
    if settings.Err? {
      return Streamed([Stage1Start], None, Some(settings.error));
    }
    var agents := BuildAgents(settings.value);
    if agents.Err? {
      return Streamed([Stage1Start], None, Some(agents.error));
    }
    if agents.value == [] {
      return Streamed([Stage1Start, Error(NoAnswersEvent)], None, None);
    }
    var s1 := RunStage1(run, query, agents.value);
    if |s1| > LabelLimit {
      return Streamed([Stage1Start, Stage1Complete(s1), Stage2Start], None, Some("ValueError"));
    }
    var s2, metadata, s3 := LaterStages(run, query, s1, agents.value, settings.value);
    var events := [Stage1Start, Stage1Complete(s1), Stage2Start, Stage2Complete(s2, metadata),
                   Stage3Start, Stage3Complete(s3), Complete];
    out := Streamed(events, Some(StoredReply(s1, s2, s3)), None);
  }

  /** Stages 2 and 3 of `stream_council`, once the answers are in. */
  method LaterStages(run: Runner, query: string, s1: seq<ModelResponse>, agents: seq<Agent>, settings: Settings.Block)
    returns (s2: seq<Stage2Entry>, metadata: Metadata, s3: ModelResponse)
    requires |s1| <= LabelLimit
    ensures s2 == Stage2Of(run, RankingPrompt(query, s1), agents)
    ensures metadata == CouncilMeta(LabelToModel(s1), AggregateRankings(s2, LabelToModel(s1)))
    ensures s3 == Stage3Of(run, query, s1, s2, settings)
  {
    var labelToModel;
    s2, labelToModel := RunStage2(run, query, s1, agents);
    var aggregate := CalculateAggregateRankings(s2, labelToModel);
    metadata := CouncilMeta(labelToModel, aggregate);
    s3 := RunStage3(run, query, s1, s2, settings);
  }
}
