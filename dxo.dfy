/** The DxO mode (draft, critique, optimise): the first agent drafts, the other agents
    critique the draft, the first agent revises it, and an optional chairman finishes it. */
module Dxo {
  import opened Wrappers
  import opened Turns
  import opened Common
  import Settings

  // ---------------------------------------------------------------------------------------
  // Stages 1 and 2

  /** `run_stage1_dxo`, once the agents are built: the primary's draft. */
  method RunStage1(run: Runner, query: string, primary: Agent) returns (s1: seq<ModelResponse>)
    ensures s1 == [ModelResponse(primary.name, ReplyText(run, primary, Plain(query)))]
  {
    var messages := MakeMessages(Some(primary.systemPrompt), Plain(query));
    var response := run(primary.name, messages);
    var draft := if response.Some? then response.value else "";
    s1 := [ModelResponse(primary.name, draft)];
  }

  /** One critique per critic, in critic order; a failed call leaves "". */
  function CritiquesOf(run: Runner, draft: string, critics: seq<Agent>): seq<Stage2Entry> {
    seq(|critics|, i requires 0 <= i < |critics| =>
      CritiqueEntry(critics[i].name, ReplyText(run, critics[i], CritiqueRequest(draft))))
  }

  /** `run_stage2_dxo`. */
  method RunStage2(run: Runner, draft: string, critics: seq<Agent>) returns (s2: seq<Stage2Entry>)
    ensures s2 == CritiquesOf(run, draft, critics)
    ensures |s2| == |critics|
    ensures forall i :: 0 <= i < |critics| ==>
              s2[i] == CritiqueEntry(critics[i].name, ReplyText(run, critics[i], CritiqueRequest(draft)))
  {
    s2 := [];
    for i := 0 to |critics|
      invariant |s2| == i
      invariant forall k :: 0 <= k < i ==>
                  s2[k] == CritiqueEntry(critics[k].name, ReplyText(run, critics[k], CritiqueRequest(draft)))
    {
      var messages := MakeMessages(Some(critics[i].systemPrompt), CritiqueRequest(draft));
      var response := run(critics[i].name, messages);
      s2 := s2 + [CritiqueEntry(critics[i].name, if response.Some? then response.value else "")];
    }
  }

  // ---------------------------------------------------------------------------------------
  // Stage 3

  /** The critiques as (model, critique) pairs, as the revision prompts embed them. */
  function Quoted(s2: seq<Stage2Entry>): seq<(string, string)>
    requires forall e | e in s2 :: e.CritiqueEntry?
  {
    seq(|s2|, i requires 0 <= i < |s2| => (s2[i].model, s2[i].critique))
  }

  /** `settings.get("chairman_model")` when it is set. */
  function ChairmanOf(settings: Settings.Block): Option<string> {
    if settings.chairmanModel != "" then Some(settings.chairmanModel) else None
  }

  /** The primary's revision, then the chairman's answer when a chairman is set (the revision
      again when its call failed), with the metadata naming primary, critics and chairman. */
  function Stage3Of(run: Runner, draft: string, s2: seq<Stage2Entry>, primary: Agent, critics: seq<Agent>, chairman: Option<string>)
    : (ModelResponse, Metadata)
    requires forall e | e in s2 :: e.CritiqueEntry?
  {
    var optimized := ReplyText(run, primary, ReviseRequest(draft, Quoted(s2)));
    var meta := DxoMeta(primary.name, Names(critics), chairman);
    match chairman
    case None => (ModelResponse(primary.name, optimized), meta)
    case Some(c) =>
      (ModelResponse(c, run(c, Messages(None, DxoFinalRequest(optimized, Quoted(s2)))).GetOr(optimized)), meta)
  }

  /** `run_stage3_dxo` as written: it makes its model calls and then, building the metadata,
      reads `critics`, a name defined neither in the function nor in its module, so it always
      raises `NameError`. */
  method RunStage3AsWritten(run: Runner, draft: string, s2: seq<Stage2Entry>, primary: Agent, settings: Settings.Block)
    returns (r: Result<(ModelResponse, Metadata)>)
    requires forall e | e in s2 :: e.CritiqueEntry?
    ensures r == Err("NameError")
  {
    var messages := MakeMessages(Some(primary.systemPrompt), ReviseRequest(draft, Quoted(s2)));
    var response := run(primary.name, messages);
    var optimized := if response.Some? then response.value else "";
    if settings.chairmanModel != "" {
      var synthesis := MakeMessages(None, DxoFinalRequest(optimized, Quoted(s2)));
      var _ := run(settings.chairmanModel, synthesis);
    }
    r := Err("NameError");
  }

  /** `run_stage3_dxo` with the critics passed in, as the stage-2 metadata built by
      `stream_dxo` shows was meant. */
  method RunStage3(run: Runner, draft: string, s2: seq<Stage2Entry>, primary: Agent, critics: seq<Agent>, settings: Settings.Block)
    returns (s3: ModelResponse, metadata: Metadata)
    requires forall e | e in s2 :: e.CritiqueEntry?
    ensures (s3, metadata) == Stage3Of(run, draft, s2, primary, critics, ChairmanOf(settings))
  {
    var messages := MakeMessages(Some(primary.systemPrompt), ReviseRequest(draft, Quoted(s2)));
    var response := run(primary.name, messages);
    var optimized := if response.Some? then response.value else "";
    var finalModel := primary.name;
    var finalText := optimized;
    var chairman: Option<string> := None;
    if settings.chairmanModel != "" {
      var synthesis := MakeMessages(None, DxoFinalRequest(optimized, Quoted(s2)));
      var reply := run(settings.chairmanModel, synthesis);
      finalModel := settings.chairmanModel;
      finalText := if reply.Some? then reply.value else optimized;
      chairman := Some(settings.chairmanModel);
    }
    s3 := ModelResponse(finalModel, finalText);
    metadata := DxoMeta(primary.name, Names(critics), chairman);
  }

  /** The final model is the chairman when one is set and the primary otherwise; the text
      falls back to the revision when there is no chairman or its call failed; the metadata
      names the primary, the critics in order, and the chairman exactly when one is set. */
  lemma Stage3Cases(run: Runner, draft: string, s2: seq<Stage2Entry>, primary: Agent, critics: seq<Agent>, chairman: Option<string>)
    requires forall e | e in s2 :: e.CritiqueEntry?
    ensures var (s3, meta) := Stage3Of(run, draft, s2, primary, critics, chairman);
            var optimized := ReplyText(run, primary, ReviseRequest(draft, Quoted(s2)));
            && s3.model == chairman.GetOr(primary.name)
            && (chairman.None? ==> s3.response == optimized)
            && (chairman.Some? && run(chairman.value, Messages(None, DxoFinalRequest(optimized, Quoted(s2)))).None? ==>
                  s3.response == optimized)
            && meta.primary == primary.name
            && meta.critics == Names(critics)
            && (meta.chairman.Some? <==> chairman.Some?)
  {
  }

  // ---------------------------------------------------------------------------------------
  // run_dxo and stream_dxo

  /** The stages of `run_dxo` before stage 3, for a non-empty roster. */
  function FirstStages(run: Runner, query: string, agents: seq<Agent>): (seq<ModelResponse>, seq<Stage2Entry>)
    requires agents != []
  {
    var draft := ReplyText(run, agents[0], Plain(query));
    ([ModelResponse(agents[0].name, draft)], CritiquesOf(run, draft, agents[1..]))
  }

  /** What `run_dxo` computes, with stage 3 corrected. */
  function DxoOf(run: Runner, query: string, settings: Result<Settings.Block>): Result<Turn> {
    if settings.Err? then Err(settings.error)
    else
      var agents := AgentsSpec(settings.value);
      if agents.Err? then Err(agents.error)
      else if agents.value == [] then Ok(NoAgentsTurn())
      else
        var (s1, s2) := FirstStages(run, query, agents.value);
        var (s3, meta) := Stage3Of(run, s1[0].response, s2, agents.value[0], agents.value[1..], ChairmanOf(settings.value));
        Ok(Turn(s1, s2, s3, meta))
  }

  /** What `run_dxo` computes as written: stage 3 raises for every non-empty roster. */
  function DxoAsWrittenOf(run: Runner, query: string, settings: Result<Settings.Block>): Result<Turn> {
    if settings.Err? then Err(settings.error)
    else
      var agents := AgentsSpec(settings.value);
      if agents.Err? then Err(agents.error)
      else if agents.value == [] then Ok(NoAgentsTurn())
      else Err("NameError")
  }

  /** As written, DxO never answers: whenever an agent is configured the run raises
      `NameError`, while the corrected run returns a turn whose metadata names the critics. */
  lemma DxoAsWrittenNeverAnswers(run: Runner, query: string, settings: Settings.Block)
    requires AgentsSpec(settings).Ok? && AgentsSpec(settings).value != []
    ensures DxoAsWrittenOf(run, query, Ok(settings)) == Err("NameError")
    ensures DxoOf(run, query, Ok(settings)).Ok?
    ensures DxoOf(run, query, Ok(settings)).value.metadata.critics == Names(AgentsSpec(settings).value[1..])
  {
  }

  /** `run_dxo` as written: the stages run, and stage 3 raises. */
  method RunDxoAsWritten(run: Runner, query: string, settings: Result<Settings.Block>) returns (r: Result<Turn>)
    ensures r == DxoAsWrittenOf(run, query, settings)
  {
    if settings.Err? {
      return Err(settings.error);
    }
    var agents := BuildAgents(settings.value);
    if agents.Err? {
      return Err(agents.error);
    }
    if agents.value == [] {
      return Ok(NoAgentsTurn());
    }
    var primary, critics := agents.value[0], agents.value[1..];
    var s1 := RunStage1(run, query, primary);
    var draft := s1[0].response;
    var s2 := RunStage2(run, draft, critics);
    var s3 := RunStage3AsWritten(run, draft, s2, primary, settings.value);
    r := Err(s3.error);
  }

  /** `run_dxo`, with the corrected stage 3. */
  method RunDxo(run: Runner, query: string, settings: Result<Settings.Block>) returns (r: Result<Turn>)
    ensures r == DxoOf(run, query, settings)
  {
    if settings.Err? {
      return Err(settings.error);
    }
    var agents := BuildAgents(settings.value);
    if agents.Err? {
      return Err(agents.error);
    }
    if agents.value == [] {
      return Ok(NoAgentsTurn());
    }
    var primary, critics := agents.value[0], agents.value[1..];
    var s1 := RunStage1(run, query, primary);
    var draft := s1[0].response;
    var s2 := RunStage2(run, draft, critics);
    var s3, metadata := RunStage3(run, draft, s2, primary, critics, settings.value);
    r := Ok(Turn(s1, s2, s3, metadata));
  }

  /** A DxO turn: one draft from the primary, exactly one critique per critic in critic
      order, and the final answer from the chairman or else the primary. */
  lemma DxoOutcome(run: Runner, query: string, settings: Result<Settings.Block>)
    ensures settings.Ok? && AgentsSpec(settings.value) == Ok([]) ==> DxoOf(run, query, settings) == Ok(NoAgentsTurn())
    ensures settings.Ok? && AgentsSpec(settings.value).Ok? && AgentsSpec(settings.value).value != [] ==>
              var agents := AgentsSpec(settings.value).value;
              var t := DxoOf(run, query, settings).value;
              && |t.stage1| == 1 && t.stage1[0].model == agents[0].name
              && |t.stage2| == |agents| - 1
              && (forall i :: 0 <= i < |t.stage2| ==> t.stage2[i].CritiqueEntry? && t.stage2[i].model == agents[i + 1].name)
              && t.stage3.model == (if settings.value.chairmanModel != "" then settings.value.chairmanModel else agents[0].name)
              && t.metadata == DxoMeta(agents[0].name, Names(agents[1..]), ChairmanOf(settings.value))
  {
    if settings.Ok? && AgentsSpec(settings.value).Ok? && AgentsSpec(settings.value).value != [] {
      var agents := AgentsSpec(settings.value).value;
      var (s1, s2) := FirstStages(run, query, agents);
      Stage3Cases(run, s1[0].response, s2, agents[0], agents[1..], ChairmanOf(settings.value));
    }
  }

  /** The metadata `stream_dxo` sends with stage 2: that of the turn, without the chairman. */
  function WithoutChairman(m: Metadata): Metadata {
    match m
    case DxoMeta(primary, critics, _) => DxoMeta(primary, critics, None)
    case _ => m
  }

  /** What `stream_dxo` yields, stores and raises. */
  function StreamOf(run: Runner, query: string, settings: Result<Settings.Block>): Streamed {
    match DxoOf(run, query, settings)
    case Err(e) => Streamed([Stage1Start], None, Some(e))
    case Ok(t) =>
      if t == NoAgentsTurn() then Streamed(FailedStream(NoAgentsError), None, None)
      else Streamed(FullStream(t.stage1, t.stage2, WithoutChairman(t.metadata), t.stage3), Some(StoredReply(t.stage1, t.stage2, t.stage3)), None)
  }

  /** The stream agrees with the run: it raises exactly when the run does, with the same
      error; otherwise its events form a stage stream, and it stores exactly the stages of
      the turn the run returns, unless no agent is configured, when it stores nothing and
      ends on an error event. */
  lemma StreamMatchesRun(run: Runner, query: string, settings: Result<Settings.Block>)
    ensures var out := StreamOf(run, query, settings);
            var r := DxoOf(run, query, settings);
            && out.events != [] && out.events[0] == Stage1Start
            && (out.raised.Some? <==> r.Err?)
            && (out.raised.Some? ==> out.raised.value == r.error && out.stored.None?)
            && (out.raised.None? ==> IsStageStream(out.events))
            && (r == Ok(NoAgentsTurn()) ==> out.stored.None? && out.events[|out.events| - 1] == Error(NoAgentsError))
            && (r.Ok? && r != Ok(NoAgentsTurn()) ==>
                  out.stored == Some(StoredReply(r.value.stage1, r.value.stage2, r.value.stage3)) &&
                  out.events[|out.events| - 1] == Complete)
  {
    var r := DxoOf(run, query, settings);
    if r.Ok? {
      var t := r.value;
      FullAndFailedAreStageStreams(t.stage1, t.stage2, WithoutChairman(t.metadata), t.stage3, NoAgentsError);
    }
  }

  /** What `stream_dxo` yields, stores and raises as written: with an agent configured it
      yields the first two stages and `stage3_start`, then stage 3 raises `NameError` and
      nothing is stored. */
  function StreamAsWrittenOf(run: Runner, query: string, settings: Result<Settings.Block>): Streamed {
    if settings.Err? then Streamed([Stage1Start], None, Some(settings.error))
    else
      var agents := AgentsSpec(settings.value);
      if agents.Err? then Streamed([Stage1Start], None, Some(agents.error))
      else if agents.value == [] then Streamed(FailedStream(NoAgentsError), None, None)
      else
        var (s1, s2) := FirstStages(run, query, agents.value);
        var partial := DxoMeta(agents.value[0].name, Names(agents.value[1..]), None);
        Streamed([Stage1Start, Stage1Complete(s1), Stage2Start, Stage2Complete(s2, partial), Stage3Start], None, Some("NameError"))
  }

  /** As written, a DxO stream with an agent configured stops after `stage3_start`, raising
      `NameError` (which the server sends as an `error` event) and storing nothing, where the
      corrected stream goes on with the same first five events to store the turn. The two
      agree whenever no agent is configured or the settings or agents raise. */
  lemma StreamAsWrittenStopsAtStage3(run: Runner, query: string, settings: Result<Settings.Block>)
    ensures var written := StreamAsWrittenOf(run, query, settings);
            var corrected := StreamOf(run, query, settings);
            && (settings.Ok? && AgentsSpec(settings.value).Ok? && AgentsSpec(settings.value).value != [] ==>
                  && written.raised == Some("NameError") && written.stored.None?
                  && |written.events| == 5 && written.events == corrected.events[..5]
                  && written.events[4] == Stage3Start
                  && corrected.raised.None? && corrected.stored.Some?)
            && (settings.Err? || AgentsSpec(settings.value).Err? || AgentsSpec(settings.value) == Ok([]) ==>
                  written == corrected)
  {
    if settings.Ok? && AgentsSpec(settings.value).Ok? && AgentsSpec(settings.value).value != [] {
      DxoOutcome(run, query, settings);
      var t := DxoOf(run, query, settings).value;
      assert t != NoAgentsTurn() by {
        assert |t.stage1| == 1;
      }
    }
  }

  /** `stream_dxo` as written. */
  method StreamDxoAsWritten(run: Runner, query: string, settings: Result<Settings.Block>) returns (out: Streamed)
    ensures out == StreamAsWrittenOf(run, query, settings)
  {
    if settings.Err? {
      return Streamed([Stage1Start], None, Some(settings.error));
    }
    var agents := BuildAgents(settings.value);
    if agents.Err? {
      return Streamed([Stage1Start], None, Some(agents.error));
    }
    if agents.value == [] {
      return Streamed([Stage1Start, Error(NoAgentsError)], None, None);
    }
    var primary, critics := agents.value[0], agents.value[1..];
    var s1 := RunStage1(run, query, primary);
    var draft := s1[0].response;
    var s2 := RunStage2(run, draft, critics);
    var events := [Stage1Start, Stage1Complete(s1), Stage2Start, Stage2Complete(s2, DxoMeta(primary.name, Names(critics), None)), Stage3Start];
    var s3 := RunStage3AsWritten(run, draft, s2, primary, settings.value);
    out := Streamed(events, None, Some(s3.error));
  }

  /** `stream_dxo`, with the corrected stage 3. */
  method StreamDxo(run: Runner, query: string, settings: Result<Settings.Block>) returns (out: Streamed)
    ensures out == StreamOf(run, query, settings)
  {
    var r := RunDxo(run, query, settings);
    if r.Err? {
      out := Streamed([Stage1Start], None, Some(r.error));
    } else if r.value == NoAgentsTurn() {
      out := Streamed([Stage1Start, Error(NoAgentsError)], None, None);
    } else {
      var t := r.value;
      var events := [Stage1Start, Stage1Complete(t.stage1), Stage2Start, Stage2Complete(t.stage2, WithoutChairman(t.metadata)),
                     Stage3Start, Stage3Complete(t.stage3), Complete];
      out := Streamed(events, Some(StoredReply(t.stage1, t.stage2, t.stage3)), None);
    }
  }
}
