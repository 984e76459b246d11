/** The ensemble mode: every agent answers, a chairman scores the answers, and the chairman
    blends them into the final answer. */
module Ensemble {
  import opened Wrappers
  import opened Text
  import opened Json
  import opened Turns
  import opened Common
  import Ranking
  import Settings

  const DefaultScore: nat := 50

  /** The answers as (model, response) pairs, as the scoring and blending prompts embed them. */
  function Quoted(s1: seq<ModelResponse>): seq<(string, string)> {
    seq(|s1|, i requires 0 <= i < |s1| => (s1[i].model, s1[i].response))
  }

  // ---------------------------------------------------------------------------------------
  // Stage 1

  /** One answer per agent, in roster order; a failed call is kept with "". */
  function Stage1Of(run: Runner, query: string, agents: seq<Agent>): seq<ModelResponse> {
    seq(|agents|, i requires 0 <= i < |agents| => ModelResponse(agents[i].name, ReplyText(run, agents[i], Plain(query))))
  }

  /** `run_stage1_ensemble`, once the agents are built. */
  method RunStage1(run: Runner, query: string, agents: seq<Agent>) returns (s1: seq<ModelResponse>)
    ensures s1 == Stage1Of(run, query, agents)
    ensures |s1| == |agents| && forall i :: 0 <= i < |agents| ==> s1[i].model == agents[i].name
  {
    s1 := [];
    for i := 0 to |agents|
      invariant s1 == Stage1Of(run, query, agents[..i])
    {
      var messages := MakeMessages(Some(agents[i].systemPrompt), Plain(query));
      var response := run(agents[i].name, messages);
      s1 := s1 + [ModelResponse(agents[i].name, if response.Some? then response.value else "")];
    }
    assert agents[..|agents|] == agents;
  }

  // ---------------------------------------------------------------------------------------
  // Score extraction: `re.search(re.escape(model) + ".*?(\d+)", raw, IGNORECASE | DOTALL)`

  /** ASCII lower case; other characters are left alone. */
  function Lower(c: char): char {
    if 'A' <= c <= 'Z' then (c as int + 32) as char else c
  }

  function LowerAll(s: string): (r: string)
    ensures |r| == |s| && forall i :: 0 <= i < |s| ==> r[i] == Lower(s[i])
  {
    seq(|s|, i requires 0 <= i < |s| => Lower(s[i]))
  }

  /** The model name occurs at `i` of `raw`, ignoring ASCII case. */
  predicate MatchesAt(raw: string, model: string, i: nat) {
    i + |model| <= |raw| && forall k :: 0 <= k < |model| ==> Lower(raw[i + k]) == Lower(model[k])
  }

  /** The first digit of `raw` at or after `from`. */
  function FirstDigitFrom(raw: string, from: nat): (r: Option<nat>)
    requires from <= |raw|
    ensures r.Some? ==> from <= r.value < |raw| && Ranking.IsDigit(raw[r.value])
    ensures forall k :: from <= k < |raw| && (r.None? || k < r.value) ==> !Ranking.IsDigit(raw[k])
    decreases |raw| - from
  {
    if from == |raw| then None
    else if Ranking.IsDigit(raw[from]) then Some(from)
    else FirstDigitFrom(raw, from + 1)
  }

  /** `int(digits)` for a run of ASCII digits. */
  function DecimalValue(digits: string): nat
    requires forall k :: 0 <= k < |digits| ==> Ranking.IsDigit(digits[k])
  {
    if digits == [] then 0
    else
      assert Ranking.IsDigit(digits[|digits| - 1]);
      DecimalValue(digits[..|digits| - 1]) * 10 + (digits[|digits| - 1] as int - '0' as int)
  }

  /** The score the chairman's reply gives a model: the digit run at the first digit after the
      first occurrence of the model's name, or 50 when there is no such occurrence or digit. */
  function ScoreFor(raw: string, model: string): nat {
    match FindFrom(LowerAll(raw), LowerAll(model), 0)
    case None => DefaultScore
    case Some(i) => ScoreAfter(raw, i + |model|)
  }

  /** The digit run at the first digit at or after `from`, or 50 when there is none. */
  function ScoreAfter(raw: string, from: nat): nat
    requires from <= |raw|
  {
    match FirstDigitFrom(raw, from)
    case None => DefaultScore
    case Some(p) => DecimalValue(raw[p..Ranking.DigitRunEnd(raw, p)])
  }

  /** Case-insensitive occurrence is occurrence in the lower-cased texts. */
  lemma MatchesAtLower(raw: string, model: string, i: nat)
    ensures MatchesAt(raw, model, i) <==> OccursAt(LowerAll(raw), LowerAll(model), i)
  {
  }

  /** When the name occurs and a digit follows it, the score is the value of the maximal digit
      run at the first digit after the first occurrence of the name. */
  lemma ScoreFound(raw: string, model: string) returns (i: nat, p: nat, q: nat)
    requires exists i': nat :: MatchesAt(raw, model, i') && FirstDigitFrom(raw, i' + |model|).Some?
    ensures MatchesAt(raw, model, i) && forall k :: 0 <= k < i ==> !MatchesAt(raw, model, k)
    ensures i + |model| <= p < q <= |raw|
    ensures forall k :: i + |model| <= k < p ==> !Ranking.IsDigit(raw[k])
    ensures forall k :: p <= k < q ==> Ranking.IsDigit(raw[k])
    ensures q == |raw| || !Ranking.IsDigit(raw[q])
    ensures ScoreFor(raw, model) == DecimalValue(raw[p..q])
  {
    var j: nat :| MatchesAt(raw, model, j) && FirstDigitFrom(raw, j + |model|).Some?;
    i := FirstMatch(raw, model, j);
    p, q := ScoreAt(raw, model, i, FirstDigitFrom(raw, j + |model|).value);
  }

  /** The score is read after the first occurrence of the name, from the first digit. */
  lemma ScoreAt(raw: string, model: string, i: nat, later: nat) returns (p: nat, q: nat)
    requires FindFrom(LowerAll(raw), LowerAll(model), 0) == Some(i)
    requires i + |model| <= later < |raw| && Ranking.IsDigit(raw[later])
    ensures i + |model| <= p < q <= |raw|
    ensures forall k :: i + |model| <= k < p ==> !Ranking.IsDigit(raw[k])
    ensures forall k :: p <= k < q ==> Ranking.IsDigit(raw[k])
    ensures q == |raw| || !Ranking.IsDigit(raw[q])
    ensures ScoreFor(raw, model) == DecimalValue(raw[p..q])
  {
    ScoreReadAfter(raw, model, i);
    p, q := DigitRunAfter(raw, i + |model|, later);
  }

  /** The score is read after the first occurrence of the name. */
  lemma ScoreReadAfter(raw: string, model: string, i: nat)
    requires FindFrom(LowerAll(raw), LowerAll(model), 0) == Some(i)
    ensures i + |model| <= |raw| && ScoreFor(raw, model) == ScoreAfter(raw, i + |model|)
  {
  }

  /** With a digit at `later`, the score read from `from` is the maximal digit run at the first
      digit at or after `from`. */
  lemma DigitRunAfter(raw: string, from: nat, later: nat) returns (p: nat, q: nat)
    requires from <= later < |raw| && Ranking.IsDigit(raw[later])
    ensures from <= p < q <= |raw|
    ensures forall k :: from <= k < p ==> !Ranking.IsDigit(raw[k])
    ensures forall k :: p <= k < q ==> Ranking.IsDigit(raw[k])
    ensures q == |raw| || !Ranking.IsDigit(raw[q])
    ensures ScoreAfter(raw, from) == DecimalValue(raw[p..q])
  {
    var digit := FirstDigitFrom(raw, from);
    assert digit.Some?;
    p := digit.value;
    q := Ranking.DigitRunEnd(raw, p);
  }

  /** The first case-insensitive occurrence of the name, found by searching the lower-cased
      texts, comes no later than any known occurrence. */
  lemma FirstMatch(raw: string, model: string, j: nat) returns (i: nat)
    requires MatchesAt(raw, model, j)
    ensures FindFrom(LowerAll(raw), LowerAll(model), 0) == Some(i)
    ensures i <= j && MatchesAt(raw, model, i)
    ensures forall k :: 0 <= k < i ==> !MatchesAt(raw, model, k)
  {
    MatchesAtLower(raw, model, j);
    var found := FindFrom(LowerAll(raw), LowerAll(model), 0);
    i := found.value;
    MatchesAtLower(raw, model, i);
    forall k | 0 <= k < i
      ensures !MatchesAt(raw, model, k)
    {
      MatchesAtLower(raw, model, k);
    }
  }

  /** Without an occurrence of the name followed somewhere by a digit, the score is 50. */
  lemma ScoreDefault(raw: string, model: string)
    requires forall i: nat :: MatchesAt(raw, model, i) ==> FirstDigitFrom(raw, i + |model|).None?
    ensures ScoreFor(raw, model) == 50
  {
    var found := FindFrom(LowerAll(raw), LowerAll(model), 0);
    if found.Some? {
      MatchesAtLower(raw, model, found.value);
    }
  }

  /** Scores are not clamped to 0..100: the reply "Phi: 250" gives the model "phi" 250. */
  lemma ScoreNotClamped()
    ensures ScoreFor("Phi: 250", "phi") == 250
  {
    var raw := "Phi: 250";
    assert LowerAll(raw)[..3] == "phi" == LowerAll("phi");
    assert OccursAt(LowerAll(raw), LowerAll("phi"), 0);
    assert FindFrom(LowerAll(raw), LowerAll("phi"), 0) == Some(0);
    assert FirstDigitFrom(raw, 5) == Some(5);
    assert FirstDigitFrom(raw, 4) == Some(5);
    assert FirstDigitFrom(raw, 3) == Some(5);
    assert Ranking.DigitRunEnd(raw, 8) == 8;
    assert Ranking.DigitRunEnd(raw, 7) == 8;
    assert Ranking.DigitRunEnd(raw, 6) == 8;
    assert Ranking.DigitRunEnd(raw, 5) == 8;
    assert raw[5..8] == "250";
    assert "2"[..0] == "" && "25"[..1] == "2" && "250"[..2] == "25";
    assert DecimalValue("2") == 2;
    assert DecimalValue("25") == 25;
    assert DecimalValue("250") == 250;
  }

  // ---------------------------------------------------------------------------------------
  // Stage 2

  /** `settings.get("chairman_model") or (agents[0]["name"] if agents else None)`. */
  function ChairmanOf(settings: Settings.Block, agents: seq<Agent>): Option<string> {
    if settings.chairmanModel != "" then Some(settings.chairmanModel)
    else if agents != [] then Some(agents[0].name)
    else None
  }

  /** A chairman that is set and not empty. */
  predicate Named(chairman: Option<string>) {
    chairman.Some? && chairman.value != ""
  }

  /** One score per answer, in answer order, read from the chairman's reply. */
  function ScoresOf(raw: string, s1: seq<ModelResponse>): seq<Stage2Entry> {
    seq(|s1|, i requires 0 <= i < |s1| => ScoreEntry(s1[i].model, ScoreFor(raw, s1[i].model)))
  }

  /** The stage-2 scores: none without a chairman, else one per answer from its reply. */
  function Stage2Of(run: Runner, s1: seq<ModelResponse>, chairman: Option<string>): seq<Stage2Entry> {
    if Named(chairman) then
      ScoresOf(run(chairman.value, Messages(None, ScoreRequest(Quoted(s1)))).GetOr(""), s1)
    else []
  }

  /** `run_stage2_ensemble`. */
  method RunStage2(run: Runner, s1: seq<ModelResponse>, settings: Settings.Block, agents: seq<Agent>)
    returns (s2: seq<Stage2Entry>, chairman: Option<string>)
    ensures chairman == ChairmanOf(settings, agents)
    ensures s2 == Stage2Of(run, s1, chairman)
  {
    chairman := ChairmanOf(settings, agents);
    s2 := [];
    if Named(chairman) {
      var messages := MakeMessages(None, ScoreRequest(Quoted(s1)));
      var response := run(chairman.value, messages);
      var raw := if response.Some? then response.value else "";
      s2 := ReadScores(raw, s1);
    }
  }

  /** The loop of `run_stage2_ensemble` that reads one score per answer from the reply. */
  method ReadScores(raw: string, s1: seq<ModelResponse>) returns (s2: seq<Stage2Entry>)
    ensures s2 == ScoresOf(raw, s1)
  {
    s2 := [];
    for i := 0 to |s1|
      invariant |s2| == i
      invariant forall k :: 0 <= k < i ==> s2[k] == ScoreEntry(s1[k].model, ScoreFor(raw, s1[k].model))
    {
      var model := s1[i].model;
      var score := ScoreFor(raw, model);
      s2 := s2 + [ScoreEntry(model, score)];
    }
  }

  /** With a chairman there is exactly one score per answer, in answer order; without one
      there are none. */
  lemma Stage2Shape(run: Runner, s1: seq<ModelResponse>, chairman: Option<string>)
    ensures Named(chairman) ==>
              && |Stage2Of(run, s1, chairman)| == |s1|
              && (forall i :: 0 <= i < |s1| ==> Stage2Of(run, s1, chairman)[i].model == s1[i].model)
    ensures !Named(chairman) ==> Stage2Of(run, s1, chairman) == []
  {
  }

  // ---------------------------------------------------------------------------------------
  // Stage 3

  /** `chairman_model or agents[0]["name"]`. */
  function FinalModel(chairman: Option<string>, agents: seq<Agent>): string
    requires agents != []
  {
    if Named(chairman) then chairman.value else agents[0].name
  }

  /** `run_stage3_ensemble`: the blend from the chairman (or the first agent), "" when its call
      failed, and the metadata. */
  method RunStage3(run: Runner, s1: seq<ModelResponse>, chairman: Option<string>, agents: seq<Agent>)
    returns (s3: ModelResponse, metadata: Metadata)
    requires agents != []
    ensures s3.model == FinalModel(chairman, agents)
    ensures s3.response == run(FinalModel(chairman, agents), Messages(None, BlendRequest(Quoted(s1)))).GetOr("")
    ensures metadata == EnsembleMeta(chairman, |agents|)
  {
    var messages := MakeMessages(None, BlendRequest(Quoted(s1)));
    var model := if Named(chairman) then chairman.value else agents[0].name;
    var response := run(model, messages);
    s3 := ModelResponse(model, if response.Some? then response.value else "");
    metadata := EnsembleMeta(chairman, |agents|);
  }

  // ---------------------------------------------------------------------------------------
  // run_ensemble and stream_ensemble

  /** What `run_ensemble` computes from what `get_effective_settings(mode)` gives. */
  function EnsembleOf(run: Runner, query: string, settings: Result<Settings.Block>): Result<Turn> {
    if settings.Err? then Err(settings.error)
    else
      var agents := AgentsSpec(settings.value);
      if agents.Err? then Err(agents.error)
      else if agents.value == [] then Ok(NoAgentsTurn())
      else
        var s1 := Stage1Of(run, query, agents.value);
        var chairman := ChairmanOf(settings.value, agents.value);
        var model := FinalModel(chairman, agents.value);
        Ok(Turn(s1, Stage2Of(run, s1, chairman),
                ModelResponse(model, run(model, Messages(None, BlendRequest(Quoted(s1)))).GetOr("")),
                EnsembleMeta(chairman, |agents.value|)))
  }

  /** `run_ensemble`. */
  method RunEnsemble(run: Runner, query: string, settings: Result<Settings.Block>) returns (r: Result<Turn>)
    ensures r == EnsembleOf(run, query, settings)
  {
    if settings.Err? {
      return Err(settings.error);
    }
    var agents := BuildAgents(settings.value);
    if agents.Err? {
      return Err(agents.error);
    }
    if agents.value == [] {
      return Ok(NoAgentsTurn());
    }
    var s1 := RunStage1(run, query, agents.value);
    var s2, chairman := RunStage2(run, s1, settings.value, agents.value);
    var s3, metadata := RunStage3(run, s1, chairman, agents.value);
    r := Ok(Turn(s1, s2, s3, metadata));
  }

  /** An ensemble turn: one answer per agent in roster order, one score per answer, the blend
      from the settings' chairman or else the first agent, and the roster's size as the count. */
  lemma EnsembleOutcome(run: Runner, query: string, settings: Result<Settings.Block>)
    ensures settings.Ok? && AgentsSpec(settings.value) == Ok([]) ==> EnsembleOf(run, query, settings) == Ok(NoAgentsTurn())
    ensures settings.Ok? && AgentsSpec(settings.value).Ok? && AgentsSpec(settings.value).value != [] ==>
              var agents := AgentsSpec(settings.value).value;
              var t := EnsembleOf(run, query, settings).value;
              && |t.stage1| == |agents|
              && (forall i :: 0 <= i < |agents| ==> t.stage1[i].model == agents[i].name)
              && |t.stage2| == |agents|
              && (var raw := run(t.stage3.model, Messages(None, ScoreRequest(Quoted(t.stage1)))).GetOr("");
                  forall i :: 0 <= i < |agents| ==> t.stage2[i] == ScoreEntry(agents[i].name, ScoreFor(raw, agents[i].name)))
              && t.stage3.model == (if settings.value.chairmanModel != "" then settings.value.chairmanModel else agents[0].name)
              && t.metadata == EnsembleMeta(ChairmanOf(settings.value, agents), |agents|)
  {
    if settings.Ok? && AgentsSpec(settings.value).Ok? && AgentsSpec(settings.value).value != [] {
      var agents := AgentsSpec(settings.value).value;
      var s1 := Stage1Of(run, query, agents);
      var chairman := ChairmanOf(settings.value, agents);
      AgentsFromTidy(Or(settings.value.councilModels, JArr([])).items);
      assert agents[0] in agents;
      assert Named(chairman);
      Stage2Shape(run, s1, chairman);
    }
  }

  /** What `stream_ensemble` yields, stores and raises. */
  function StreamOf(run: Runner, query: string, settings: Result<Settings.Block>): Streamed {
    match EnsembleOf(run, query, settings)
    case Err(e) => Streamed([Stage1Start], None, Some(e))
    case Ok(t) =>
      if t == NoAgentsTurn() then Streamed(FailedStream(NoAgentsError), None, None)
      else Streamed(FullStream(t.stage1, t.stage2, t.metadata, t.stage3), Some(StoredReply(t.stage1, t.stage2, t.stage3)), None)
  }

  /** The stream agrees with the run: it raises exactly when the run does, with the same
      error; otherwise its events form a stage stream, and it stores exactly the stages of
      the turn the run returns, unless no agent is configured, when it stores nothing and
      ends on an error event. */
  lemma StreamMatchesRun(run: Runner, query: string, settings: Result<Settings.Block>)
    ensures var out := StreamOf(run, query, settings);
            var r := EnsembleOf(run, query, settings);
            && out.events != [] && out.events[0] == Stage1Start
            && (out.raised.Some? <==> r.Err?)
            && (out.raised.Some? ==> out.raised.value == r.error && out.stored.None?)
            && (out.raised.None? ==> IsStageStream(out.events))
            && (r == Ok(NoAgentsTurn()) ==> out.stored.None? && out.events[|out.events| - 1] == Error(NoAgentsError))
            && (r.Ok? && r != Ok(NoAgentsTurn()) ==>
                  out.stored == Some(StoredReply(r.value.stage1, r.value.stage2, r.value.stage3)) &&
                  out.events[|out.events| - 1] == Complete)
  {
    var r := EnsembleOf(run, query, settings);
    if r.Ok? {
      var t := r.value;
      FullAndFailedAreStageStreams(t.stage1, t.stage2, t.metadata, t.stage3, NoAgentsError);
    }
  }

  /** `stream_ensemble`. */
  method StreamEnsemble(run: Runner, query: string, settings: Result<Settings.Block>) returns (out: Streamed)
    ensures out == StreamOf(run, query, settings)
  {
    var r := RunEnsemble(run, query, settings);
    if r.Err? {
      out := Streamed([Stage1Start], None, Some(r.error));
    } else if r.value == NoAgentsTurn() {
      out := Streamed([Stage1Start, Error(NoAgentsError)], None, None);
    } else {
      var t := r.value;
      var events := [Stage1Start, Stage1Complete(t.stage1), Stage2Start, Stage2Complete(t.stage2, t.metadata),
                     Stage3Start, Stage3Complete(t.stage3), Complete];
      out := Streamed(events, Some(StoredReply(t.stage1, t.stage2, t.stage3)), None);
    }
  }
}
