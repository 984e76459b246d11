/** The sequential mode: the first agent analyses the question, the remaining agents improve
    the previous output one after another, and an optional chairman finishes it. */
module Sequential {
  import opened Wrappers
  import opened Turns
  import opened Common
  import Settings

  // ---------------------------------------------------------------------------------------
  // Stage 1

  /** `run_stage1_sequential`, once the agents are built: the first agent's analysis. */
  method RunStage1(run: Runner, query: string, first: Agent) returns (s1: seq<ModelResponse>)
    ensures s1 == [ModelResponse(first.name, ReplyText(run, first, AnalysisRequest(query)))]
  {
    var messages := MakeMessages(Some(first.systemPrompt), AnalysisRequest(query));
    var response := run(first.name, messages);
    var analysis := if response.Some? then response.value else "";
    s1 := [ModelResponse(first.name, analysis)];
  }

  // ---------------------------------------------------------------------------------------
  // Stage 2: the relay

  predicate AllSteps(s2: seq<Stage2Entry>) {
    forall e | e in s2 :: e.StepEntry?
  }

  /** The text handed to the next step: the latest non-empty output, else the analysis. */
  function Carried(analysis: string, s2: seq<Stage2Entry>): string
    requires AllSteps(s2)
  {
    if s2 == [] then analysis
    else if s2[|s2| - 1].output != "" then s2[|s2| - 1].output
    else Carried(analysis, s2[..|s2| - 1])
  }

  /** The relay over `rest`, the agents after the first: each step improves the text carried
      so far and is numbered from 2. */
  function Steps(run: Runner, analysis: string, rest: seq<Agent>): (s2: seq<Stage2Entry>)
    ensures AllSteps(s2)
  {
    if rest == [] then []
    else
      var prior := Steps(run, analysis, rest[..|rest| - 1]);
      var agent := rest[|rest| - 1];
      prior + [StepEntry(|rest| + 1, agent.name, ReplyText(run, agent, ImproveRequest(Carried(analysis, prior))))]
  }

  /** `run_stage2_sequential`: the relay through every agent after the first. */
  method RunStage2(run: Runner, analysis: string, agents: seq<Agent>) returns (s2: seq<Stage2Entry>)
    ensures agents != [] ==> s2 == Steps(run, analysis, agents[1..])
    ensures agents == [] ==> s2 == []
  {
    s2 := [];
    if agents == [] {
      return;
    }
    var rest := agents[1..];
    var prev := analysis;
    for i := 0 to |rest|
      invariant s2 == Steps(run, analysis, rest[..i])
      invariant prev == Carried(analysis, s2)
    {
      assert rest[..i + 1][..i] == rest[..i];
      var agent := rest[i];
      var messages := MakeMessages(Some(agent.systemPrompt), ImproveRequest(prev));
      var response := run(agent.name, messages);
      var out := if response.Some? then response.value else "";
      assert out == ReplyText(run, agent, ImproveRequest(prev));
      assert Steps(run, analysis, rest[..i + 1]) == s2 + [StepEntry(i + 2, agent.name, out)];
      var next := s2 + [StepEntry(i + 2, agent.name, out)];
      assert next[..|next| - 1] == s2;
      s2 := next;
      prev := if out != "" then out else prev;
    }
    assert rest[..|rest|] == rest;
  }

  /** The relay has one step per agent after the first, numbered 2, 3, ... in roster order,
      each attributed to its agent. */
  lemma {:induction false} StepsShape(run: Runner, analysis: string, rest: seq<Agent>)
    ensures |Steps(run, analysis, rest)| == |rest|
    ensures forall i :: 0 <= i < |rest| ==>
              Steps(run, analysis, rest)[i].step == i + 2 && Steps(run, analysis, rest)[i].model == rest[i].name
  {
    if rest != [] {
      var n := |rest| - 1;
      var init := rest[..n];
      var prior := Steps(run, analysis, init);
      var s2 := Steps(run, analysis, rest);
      StepsShape(run, analysis, init);
      assert s2[..n] == prior && s2[n].step == n + 2 && s2[n].model == rest[n].name;
      forall i | 0 <= i < |rest|
        ensures s2[i].step == i + 2 && s2[i].model == rest[i].name
      {
        if i < n {
          assert s2[i] == prior[i] && rest[i] == init[i];
        }
      }
    }
  }

  /** Each step is the reply of its agent to the text carried before it, or "" on failure. */
  lemma {:induction false} StepsRelay(run: Runner, analysis: string, rest: seq<Agent>)
    ensures var s2 := Steps(run, analysis, rest);
            |s2| == |rest| &&
            forall i :: 0 <= i < |rest| ==>
              s2[i].output == ReplyText(run, rest[i], ImproveRequest(Carried(analysis, s2[..i])))
  {
    if rest != [] {
      var init := rest[..|rest| - 1];
      var s2 := Steps(run, analysis, rest);
      var prior := Steps(run, analysis, init);
      StepsRelay(run, analysis, init);
      assert s2[..|rest| - 1] == prior;
      forall i | 0 <= i < |rest| - 1
        ensures s2[i].output == ReplyText(run, rest[i], ImproveRequest(Carried(analysis, s2[..i])))
      {
        assert s2[..i] == prior[..i];
      }
    } else {
      StepsShape(run, analysis, rest);
    }
  }

  /** The carried text is the latest non-empty output when there is one, and the analysis
      when every output is empty. */
  lemma {:induction false} CarriedIsLatestNonEmpty(analysis: string, s2: seq<Stage2Entry>)
    requires AllSteps(s2)
    ensures (forall i :: 0 <= i < |s2| ==> s2[i].output == "") ==> Carried(analysis, s2) == analysis
    ensures forall i :: 0 <= i < |s2| && s2[i].output != "" && (forall k :: i < k < |s2| ==> s2[k].output == "") ==>
              Carried(analysis, s2) == s2[i].output
  {
    if s2 != [] {
      var n := |s2| - 1;
      var init := s2[..n];
      assert forall e | e in init :: e in s2;
      CarriedIsLatestNonEmpty(analysis, init);
      if s2[n].output == "" {
        assert Carried(analysis, s2) == Carried(analysis, init);
        forall i | 0 <= i < |s2| && s2[i].output != "" && (forall k :: i < k < |s2| ==> s2[k].output == "")
          ensures Carried(analysis, s2) == s2[i].output
        {
          assert i < n && init[i] == s2[i];
          assert forall k :: i < k < |init| ==> init[k] == s2[k];
        }
        if forall i :: 0 <= i < |s2| ==> s2[i].output == "" {
          assert forall i :: 0 <= i < |init| ==> init[i] == s2[i];
        }
      }
    }
  }

  /** `s2[-1]["output"] if s2 else analysis_text`: the text stage 3 gets. */
  function HandOver(analysis: string, s2: seq<Stage2Entry>): string
    requires AllSteps(s2)
  {
    if s2 == [] then analysis else s2[|s2| - 1].output
  }

  /** Stage 3 gets the carried text, except when the last step came back empty: then it gets
      the empty text, not the latest non-empty one. */
  lemma HandOverVersusCarried(analysis: string, s2: seq<Stage2Entry>)
    requires AllSteps(s2)
    ensures s2 == [] ==> HandOver(analysis, s2) == Carried(analysis, s2) == analysis
    ensures s2 != [] && s2[|s2| - 1].output != "" ==> HandOver(analysis, s2) == Carried(analysis, s2)
    ensures HandOver(analysis, s2) != Carried(analysis, s2) <==> HandOver(analysis, s2) == "" && Carried(analysis, s2) != ""
  {
    if s2 != [] && s2[|s2| - 1].output == "" {
      assert Carried(analysis, s2) == Carried(analysis, s2[..|s2| - 1]);
    }
  }

  // ---------------------------------------------------------------------------------------
  // Stage 3

  /** The final answer: the chairman's reply to the handed-over text, or that text when the
      chairman's call failed; with no chairman, the handed-over text from the last agent. */
  function FinalOf(run: Runner, prev: string, lastAgent: string, chairman: string): ModelResponse {
    if chairman != "" then
      ModelResponse(chairman, run(chairman, Messages(None, RelayFinalRequest(prev))).GetOr(prev))
    else
      ModelResponse(lastAgent, prev)
  }

  /** `run_stage3_sequential`. */
  method RunStage3(run: Runner, prev: string, agents: seq<Agent>, settings: Settings.Block)
    returns (s3: ModelResponse, metadata: Metadata)
    requires agents != []
    ensures s3 == FinalOf(run, prev, agents[|agents| - 1].name, settings.chairmanModel)
    ensures metadata == SequentialMeta(Names(agents))
  {
    var finalModel := agents[|agents| - 1].name;
    var finalText := prev;
    var chairman := settings.chairmanModel;
    if chairman != "" {
      var messages := MakeMessages(None, RelayFinalRequest(prev));
      var response := run(chairman, messages);
      finalModel := chairman;
      finalText := if response.Some? then response.value else prev;
    }
    s3 := ModelResponse(finalModel, finalText);
    metadata := SequentialMeta(Names(agents));
  }

  /** With no chairman the last agent's name and the text are kept unchanged; with one, the
      chairman answers, and the text survives only when its call fails. */
  lemma FinalCases(run: Runner, prev: string, lastAgent: string, chairman: string)
    ensures chairman == "" ==> FinalOf(run, prev, lastAgent, chairman) == ModelResponse(lastAgent, prev)
    ensures chairman != "" ==> FinalOf(run, prev, lastAgent, chairman).model == chairman
    ensures chairman != "" && run(chairman, Messages(None, RelayFinalRequest(prev))).None? ==>
              FinalOf(run, prev, lastAgent, chairman).response == prev
    ensures chairman != "" && run(chairman, Messages(None, RelayFinalRequest(prev))).Some? ==>
              FinalOf(run, prev, lastAgent, chairman).response == run(chairman, Messages(None, RelayFinalRequest(prev))).value
  {
  }

  // ---------------------------------------------------------------------------------------
  // run_sequential and stream_sequential

  /** What `run_sequential` computes from what `get_effective_settings(mode)` gives. */
  function SequentialOf(run: Runner, query: string, settings: Result<Settings.Block>): Result<Turn> {
    if settings.Err? then Err(settings.error)
    else
      var agents := AgentsSpec(settings.value);
      if agents.Err? then Err(agents.error)
      else if agents.value == [] then Ok(NoAgentsTurn())
      else
        var first := agents.value[0];
        var analysis := ReplyText(run, first, AnalysisRequest(query));
        var s2 := Steps(run, analysis, agents.value[1..]);
        Ok(Turn([ModelResponse(first.name, analysis)], s2,
                FinalOf(run, HandOver(analysis, s2), agents.value[|agents.value| - 1].name, settings.value.chairmanModel),
                SequentialMeta(Names(agents.value))))
  }

  /** `run_sequential`. */
  method RunSequential(run: Runner, query: string, settings: Result<Settings.Block>) returns (r: Result<Turn>)
    ensures r == SequentialOf(run, query, settings)
  {
    if settings.Err? {
      return Err(settings.error);
    }
    var agents := BuildAgents(settings.value);
    if agents.Err? {
      return Err(agents.error);
    }
    if agents.value == [] {
      return Ok(NoAgentsTurn());
    }
    var s1 := RunStage1(run, query, agents.value[0]);
    var analysis := s1[0].response;
    var s2 := RunStage2(run, analysis, agents.value);
    var prev := if s2 != [] then s2[|s2| - 1].output else analysis;
    var s3, metadata := RunStage3(run, prev, agents.value, settings.value);
    r := Ok(Turn(s1, s2, s3, metadata));
  }

  /** A sequential turn: one analysis from the first agent, one step per further agent
      numbered from 2, the final answer from the chairman or else the last agent, and the
      roster's names as the order. */
  lemma SequentialOutcome(run: Runner, query: string, settings: Result<Settings.Block>)
    ensures settings.Ok? && AgentsSpec(settings.value) == Ok([]) ==> SequentialOf(run, query, settings) == Ok(NoAgentsTurn())
    ensures settings.Ok? && AgentsSpec(settings.value).Ok? && AgentsSpec(settings.value).value != [] ==>
              var agents := AgentsSpec(settings.value).value;
              var t := SequentialOf(run, query, settings).value;
              && |t.stage1| == 1 && t.stage1[0].model == agents[0].name
              && |t.stage2| == |agents| - 1
              && (forall i :: 0 <= i < |t.stage2| ==> t.stage2[i].step == i + 2 && t.stage2[i].model == agents[i + 1].name)
              && t.stage3.model == (if settings.value.chairmanModel != "" then settings.value.chairmanModel else agents[|agents| - 1].name)
              && t.metadata == SequentialMeta(Names(agents))
              && |t.metadata.order| == |agents|
  {
    if settings.Ok? && AgentsSpec(settings.value).Ok? && AgentsSpec(settings.value).value != [] {
      var agents := AgentsSpec(settings.value).value;
      var analysis := ReplyText(run, agents[0], AnalysisRequest(query));
      StepsShape(run, analysis, agents[1..]);
    }
  }

  /** What `stream_sequential` yields, stores and raises. */
  function StreamOf(run: Runner, query: string, settings: Result<Settings.Block>): Streamed {
    match SequentialOf(run, query, settings)
    case Err(e) => Streamed([Stage1Start], None, Some(e))
    case Ok(t) =>
      if t == NoAgentsTurn() then Streamed(FailedStream(NoAgentsError), None, None)
      else Streamed(FullStream(t.stage1, t.stage2, t.metadata, t.stage3), Some(StoredReply(t.stage1, t.stage2, t.stage3)), None)
  }

  /** The stream agrees with the run: it raises exactly when the run does, with the same
      error; otherwise its events form a stage stream, and it stores exactly the stages of
      the turn the run returns, unless no agent is configured, when it stores nothing and
      ends on an error event. */
  lemma StreamMatchesRun(run: Runner, query: string, settings: Result<Settings.Block>)
    ensures var out := StreamOf(run, query, settings);
            var r := SequentialOf(run, query, settings);
            && out.events != [] && out.events[0] == Stage1Start
            && (out.raised.Some? <==> r.Err?)
            && (out.raised.Some? ==> out.raised.value == r.error && out.stored.None?)
            && (out.raised.None? ==> IsStageStream(out.events))
            && (r == Ok(NoAgentsTurn()) ==> out.stored.None? && out.events[|out.events| - 1] == Error(NoAgentsError))
            && (r.Ok? && r != Ok(NoAgentsTurn()) ==>
                  out.stored == Some(StoredReply(r.value.stage1, r.value.stage2, r.value.stage3)) &&
                  out.events[|out.events| - 1] == Complete)
  {
    var r := SequentialOf(run, query, settings);
    if r.Ok? {
      var t := r.value;
      FullAndFailedAreStageStreams(t.stage1, t.stage2, t.metadata, t.stage3, NoAgentsError);
    }
  }

  /** `stream_sequential`. */
  method StreamSequential(run: Runner, query: string, settings: Result<Settings.Block>) returns (out: Streamed)
    ensures out == StreamOf(run, query, settings)
  {
    var r := RunSequential(run, query, settings);
    if r.Err? {
      out := Streamed([Stage1Start], None, Some(r.error));
    } else if r.value == NoAgentsTurn() {
      out := Streamed([Stage1Start, Error(NoAgentsError)], None, None);
    } else {
      var t := r.value;
      var events := [Stage1Start, Stage1Complete(t.stage1), Stage2Start, Stage2Complete(t.stage2, t.metadata),
                     Stage3Start, Stage3Complete(t.stage3), Complete];
      out := Streamed(events, Some(StoredReply(t.stage1, t.stage2, t.stage3)), None);
    }
  }
}
