/** The HTTP handlers' own logic: mode normalisation and dispatch, the two send-message flows
    with their storage writes and title generation, conversation deletion, and the settings
    update merge. Storage, routing and SSE framing are not modelled; what the handlers write
    to storage is returned as a list of operations. */
module Server {
  import opened Wrappers
  import opened Text
  import opened Json
  import opened Turns
  import opened Common
  import Settings
  import Council
  import Sequential
  import Dxo
  import Ensemble

  // ---------------------------------------------------------------------------------------
  // Modes and dispatch

  /** `(mode or "council").strip() or "council"`. */
  function NormaliseMode(mode: Option<string>): string {
    var requested := if mode.Some? && mode.value != "" then mode.value else "council";
    var stripped := Strip(requested);
    if stripped == "" then "council" else stripped
  }

  /** "council" carries no surrounding whitespace. */
  lemma CouncilIsStripped()
    ensures Strip("council") == "council"
  {
    assert "council"[0] !in Whitespace && "council"[6] !in Whitespace;
    assert LeadingIn("council", Whitespace) == 0;
    assert TrailingIn("council", Whitespace) == 0;
  }

  /** A missing or blank mode means council; any other mode is stripped. The result is
      never blank and carries no surrounding whitespace. */
  lemma NormaliseModeProperties(mode: Option<string>)
    ensures mode.None? || IsBlank(mode.value) ==> NormaliseMode(mode) == "council"
    ensures mode.Some? && !IsBlank(mode.value) ==> NormaliseMode(mode) == Strip(mode.value)
    ensures !IsBlank(NormaliseMode(mode)) && Strip(NormaliseMode(mode)) == NormaliseMode(mode)
  {
    CouncilIsStripped();
    BlankIffStripsToEmpty("council");
    if mode.Some? && mode.value != "" {
      BlankIffStripsToEmpty(mode.value);
      StripCharsIdempotent(mode.value, Whitespace);
      BlankIffStripsToEmpty(Strip(mode.value));
    }
  }

  /** Normalising a normalised mode changes nothing. */
  lemma NormaliseModeIdempotent(mode: Option<string>)
    ensures NormaliseMode(Some(NormaliseMode(mode))) == NormaliseMode(mode)
  {
    NormaliseModeProperties(mode);
    var m := NormaliseMode(mode);
    BlankIffStripsToEmpty(m);
  }

  /** The four orchestrators. */
  datatype Pipeline = CouncilPipeline | DxoPipeline | SequentialPipeline | EnsemblePipeline

  /** The orchestrator `send_message` runs for a normalised mode, and the mode it reads its
      settings for: a known mode runs its own pipeline, anything else runs council. */
  function RunDispatch(mode: string): (Pipeline, string) {
    if mode == "council" then (CouncilPipeline, mode)
    else if mode == "dxo" then (DxoPipeline, mode)
    else if mode == "sequential" then (SequentialPipeline, mode)
    else if mode == "ensemble" then (EnsemblePipeline, mode)
    else (CouncilPipeline, "council")
  }

  /** The orchestrator `send_message_stream` runs as written: an unknown mode runs ensemble,
      although the comment on that branch, and the non-streaming handler, say council. */
  function StreamDispatchAsWritten(mode: string): (Pipeline, string) {
    if mode in Settings.ModeNames then RunDispatch(mode) else (EnsemblePipeline, "ensemble")
  }

  /** Every known mode runs its own pipeline with its own settings, and only the known modes
      do. */
  lemma RunDispatchKnownModes(mode: string)
    ensures mode in Settings.ModeNames ==> RunDispatch(mode).1 == mode
    ensures mode == "dxo" <==> RunDispatch(mode).0 == DxoPipeline
    ensures mode == "sequential" <==> RunDispatch(mode).0 == SequentialPipeline
    ensures mode == "ensemble" <==> RunDispatch(mode).0 == EnsemblePipeline
    ensures mode !in Settings.ModeNames ==> RunDispatch(mode) == (CouncilPipeline, "council")
  {
  }

  /** As written, the two handlers disagree on every unknown mode, such as "chat": the
      streaming one runs ensemble where the other runs council. On known modes they agree. */
  lemma StreamFallbackDisagrees(mode: string)
    ensures mode in Settings.ModeNames ==> StreamDispatchAsWritten(mode) == RunDispatch(mode)
    ensures mode !in Settings.ModeNames ==>
              StreamDispatchAsWritten(mode) == (EnsemblePipeline, "ensemble") && RunDispatch(mode) == (CouncilPipeline, "council")
    ensures StreamDispatchAsWritten("chat") != RunDispatch("chat")
  {
  }

  /** What a pipeline returns. */
  function PipelineOf(p: Pipeline, run: Runner, query: string, settings: Result<Settings.Block>): Result<Turn> {
    match p
    case CouncilPipeline => Council.CouncilOf(run, query, settings)
    case DxoPipeline => Dxo.DxoOf(run, query, settings)
    case SequentialPipeline => Sequential.SequentialOf(run, query, settings)
    case EnsemblePipeline => Ensemble.EnsembleOf(run, query, settings)
  }

  /** What a pipeline streams. */
  function PipelineStreamOf(p: Pipeline, run: Runner, query: string, settings: Result<Settings.Block>): Streamed {
    match p
    case CouncilPipeline => Council.StreamOf(run, query, settings)
    case DxoPipeline => Dxo.StreamOf(run, query, settings)
    case SequentialPipeline => Sequential.StreamOf(run, query, settings)
    case EnsemblePipeline => Ensemble.StreamOf(run, query, settings)
  }

  /** Whichever pipeline runs, the stream starts with `stage1_start`, raises exactly when the
      run does, and otherwise is a stage stream that stores the stages of the run's turn or,
      when no agent is configured, nothing. */
  lemma PipelineStreamMatchesRun(p: Pipeline, run: Runner, query: string, settings: Result<Settings.Block>)
    ensures var out := PipelineStreamOf(p, run, query, settings);
            var r := PipelineOf(p, run, query, settings);
            && out.events != [] && out.events[0] == Stage1Start
            && (out.raised.Some? <==> r.Err?)
            && (out.raised.Some? ==> out.raised.value == r.error && out.stored.None?)
            && (out.raised.None? ==> IsStageStream(out.events))
            && (out.stored.Some? ==> r.Ok? && out.stored.value == StoredReply(r.value.stage1, r.value.stage2, r.value.stage3))
  {
    match p
    case CouncilPipeline => Council.StreamMatchesRun(run, query, settings);
    case DxoPipeline => Dxo.StreamMatchesRun(run, query, settings);
    case SequentialPipeline => Sequential.StreamMatchesRun(run, query, settings);
    case EnsemblePipeline => Ensemble.StreamMatchesRun(run, query, settings);
  }

  method RunPipeline(p: Pipeline, run: Runner, query: string, settings: Result<Settings.Block>) returns (r: Result<Turn>)
    ensures r == PipelineOf(p, run, query, settings)
  {
    match p
    case CouncilPipeline => r := Council.RunCouncil(run, query, settings);
    case DxoPipeline => r := Dxo.RunDxo(run, query, settings);
    case SequentialPipeline => r := Sequential.RunSequential(run, query, settings);
    case EnsemblePipeline => r := Ensemble.RunEnsemble(run, query, settings);
  }

  method StreamPipeline(p: Pipeline, run: Runner, query: string, settings: Result<Settings.Block>) returns (out: Streamed)
    ensures out == PipelineStreamOf(p, run, query, settings)
  {
    match p
    case CouncilPipeline => out := Council.StreamCouncil(run, query, settings);
    case DxoPipeline => out := Dxo.StreamDxo(run, query, settings);
    case SequentialPipeline => out := Sequential.StreamSequential(run, query, settings);
    case EnsemblePipeline => out := Ensemble.StreamEnsemble(run, query, settings);
  }

  // ---------------------------------------------------------------------------------------
  // Sending a message

  /** A write to the conversation store. */
  datatype StoreOp =
    | AddUserMessage(content: string)
    | SetTitle(title: string)
    | AddAssistantMessage(reply: StoredReply)

  const NotFound: string := "Conversation not found"

  /** What the pipeline for a normalised mode returns. */
  function Dispatched(run: Runner, all: Result<Settings.AllEffective>, query: string, mode: string): Result<Turn> {
    PipelineOf(RunDispatch(mode).0, run, query, Settings.GetEffectiveSettings(all, RunDispatch(mode).1))
  }

  /** What the pipeline for a normalised mode streams. */
  function DispatchedStream(run: Runner, all: Result<Settings.AllEffective>, query: string, mode: string): Streamed {
    PipelineStreamOf(RunDispatch(mode).0, run, query, Settings.GetEffectiveSettings(all, RunDispatch(mode).1))
  }

  /** What `send_message` writes to the store and returns, given the title the first message
      gets and the turn the pipeline returns. `messageCount` is the number of messages the
      conversation holds, or None when it does not exist. The title is generated, and may
      raise, only for a first message; the pipeline runs only once that has succeeded. */
  function MessageOps(messageCount: Option<nat>, content: string, title: Result<string>, turn: Result<Turn>)
    : (seq<StoreOp>, Result<Turn>)
  {
    if messageCount.None? then ([], Err(NotFound))
    else if messageCount.value == 0 && title.Err? then ([AddUserMessage(content)], Err(title.error))
    else
      var before := [AddUserMessage(content)] + (if messageCount.value == 0 then [SetTitle(title.value)] else []);
      if turn.Err? then (before, turn)
      else (before + [AddAssistantMessage(StoredReply(turn.value.stage1, turn.value.stage2, turn.value.stage3))], turn)
  }

  /** What `send_message` writes to the store and returns. `all` is what
      `get_all_settings_effective` gives, from which each `get_effective_settings(mode)`
      reads. The title is read with the default (council) settings. */
  function SendMessageOf(run: Runner, runTitle: Runner, all: Result<Settings.AllEffective>,
                         messageCount: Option<nat>, content: string, mode: Option<string>): (seq<StoreOp>, Result<Turn>)
  {
    MessageOps(messageCount, content,
               Council.ConversationTitle(runTitle, content, Settings.GetEffectiveSettings(all, "council")),
               Dispatched(run, all, content, NormaliseMode(mode)))
  }

  /** `send_message`. */
  method SendMessage(run: Runner, runTitle: Runner, all: Result<Settings.AllEffective>,
                     messageCount: Option<nat>, content: string, mode: Option<string>)
    returns (ops: seq<StoreOp>, r: Result<Turn>)
    ensures ops == SendMessageOf(run, runTitle, all, messageCount, content, mode).0
    ensures r == SendMessageOf(run, runTitle, all, messageCount, content, mode).1
  {
    if messageCount.None? {
      return [], Err(NotFound);
    }
    ghost var title := Council.ConversationTitle(runTitle, content, Settings.GetEffectiveSettings(all, "council"));
    var generated: Result<string> := Ok("");
    if messageCount.value == 0 {
      generated := Council.GenerateConversationTitle(runTitle, content, Settings.GetEffectiveSettings(all, "council"));
      if generated.Err? {
        return [AddUserMessage(content)], Err(generated.error);
      }
    }
    var choice := RunDispatch(NormaliseMode(mode));
    var turn := RunPipeline(choice.0, run, content, Settings.GetEffectiveSettings(all, choice.1));
    assert turn == Dispatched(run, all, content, NormaliseMode(mode));
    ops, r := StoreTurn(messageCount.value, content, generated, turn);
    if messageCount.value > 0 {
      LaterMessagesIgnoreTitle(messageCount.value, content, generated, title, turn);
    }
  }

  /** The writes of `send_message` once the title, if any, was generated: the user message,
      the title for a first message, then the turn's stages when the pipeline returned one. */
  method StoreTurn(messageCount: nat, content: string, title: Result<string>, turn: Result<Turn>)
    returns (ops: seq<StoreOp>, r: Result<Turn>)
    requires messageCount == 0 ==> title.Ok?
    ensures ops == MessageOps(Some(messageCount), content, title, turn).0
    ensures r == MessageOps(Some(messageCount), content, title, turn).1
  {
    ops := [AddUserMessage(content)];
    if messageCount == 0 {
      ops := ops + [SetTitle(title.value)];
    }
    r := turn;
    if r.Ok? {
      ops := ops + [AddAssistantMessage(StoredReply(r.value.stage1, r.value.stage2, r.value.stage3))];
    }
  }

  /** The title plays no part in a later message. */
  lemma LaterMessagesIgnoreTitle(messageCount: nat, content: string, t1: Result<string>, t2: Result<string>, turn: Result<Turn>)
    requires messageCount > 0
    ensures MessageOps(Some(messageCount), content, t1, turn) == MessageOps(Some(messageCount), content, t2, turn)
  {
  }

  /** An unknown conversation is refused untouched. Otherwise the user message is stored
      first; a title is stored exactly when the conversation was empty and the title could be
      generated, and then right after it; the reply is the pipeline's turn, and its stages
      are stored last exactly when it is returned. */
  lemma SendMessageOutcome(messageCount: Option<nat>, content: string, title: Result<string>, turn: Result<Turn>)
    ensures var (ops, r) := MessageOps(messageCount, content, title, turn);
            && (messageCount.None? ==> ops == [] && r == Err(NotFound))
            && (messageCount.Some? ==> ops != [] && ops[0] == AddUserMessage(content))
            && ((exists i :: 0 <= i < |ops| && ops[i].SetTitle?) <==> messageCount == Some(0) && title.Ok?)
            && (messageCount == Some(0) && title.Ok? ==> ops[1] == SetTitle(title.value))
            && (r.Ok? <==> messageCount.Some? && (messageCount.value > 0 || title.Ok?) && turn.Ok?)
            && (r.Ok? ==> r == turn && ops[|ops| - 1] == AddAssistantMessage(StoredReply(r.value.stage1, r.value.stage2, r.value.stage3)))
            && (forall i :: 0 <= i < |ops| && ops[i].AddAssistantMessage? ==> i == |ops| - 1 && r.Ok?)
  {
    var (ops, r) := MessageOps(messageCount, content, title, turn);
    if messageCount == Some(0) && title.Ok? {
      assert ops[1].SetTitle?;
    }
  }

  /** The events `send_message_stream` adds after the orchestrator's: an `error` event when
      it raised; otherwise, for a first message, the title or the error computing it. */
  function StreamTail(out: Streamed, firstMessage: bool, title: Result<string>): seq<Event> {
    if out.raised.Some? then [Error(out.raised.value)]
    else if !firstMessage then []
    else if title.Err? then [Error(title.error)]
    else [TitleComplete(title.value)]
  }

  /** The writes `send_message_stream` makes: the user message, then the reply the
      orchestrator stored, if any, then the title, for a first message whose run did not raise
      and whose title could be generated. */
  function StreamOps(content: string, out: Streamed, firstMessage: bool, title: Result<string>): seq<StoreOp> {
    [AddUserMessage(content)]
    + (if out.stored.Some? then [AddAssistantMessage(out.stored.value)] else [])
    + (if out.raised.None? && firstMessage && title.Ok? then [SetTitle(title.value)] else [])
  }

  /** What `send_message_stream` writes to the store and sends (or raises before sending),
      with unknown modes dispatched to council like `send_message` (see
      `StreamDispatchAsWritten` for what the source does). The title is read with the
      requested mode's settings. */
  function SendMessageStreamOf(run: Runner, runTitle: Runner, all: Result<Settings.AllEffective>,
                               messageCount: Option<nat>, content: string, mode: Option<string>): (seq<StoreOp>, Result<seq<Event>>)
  {
    if messageCount.None? then ([], Err(NotFound))
    else
      var m := NormaliseMode(mode);
      var out := DispatchedStream(run, all, content, m);
      var title := Council.ConversationTitle(runTitle, content, Settings.GetEffectiveSettings(all, m));
      var first := messageCount.value == 0;
      (StreamOps(content, out, first, title), Ok(out.events + StreamTail(out, first, title)))
  }

  /** `send_message_stream`. */
  method SendMessageStream(run: Runner, runTitle: Runner, all: Result<Settings.AllEffective>,
                           messageCount: Option<nat>, content: string, mode: Option<string>)
    returns (ops: seq<StoreOp>, r: Result<seq<Event>>)
    ensures ops == SendMessageStreamOf(run, runTitle, all, messageCount, content, mode).0
    ensures r == SendMessageStreamOf(run, runTitle, all, messageCount, content, mode).1
  {
    if messageCount.None? {
      return [], Err(NotFound);
    }
    var m := NormaliseMode(mode);
    var title: Result<string> := Err("");
    if messageCount.value == 0 {
      title := Council.GenerateConversationTitle(runTitle, content, Settings.GetEffectiveSettings(all, m));
    }
    var choice := RunDispatch(m);
    var out := StreamPipeline(choice.0, run, content, Settings.GetEffectiveSettings(all, choice.1));
    assert out == DispatchedStream(run, all, content, m);
    var events;
    ops, events := FinishStream(content, out, messageCount.value == 0, title);
    r := Ok(events);
  }

  /** The part of `send_message_stream` after the orchestrator's events: the writes and the
      closing events. */
  method FinishStream(content: string, out: Streamed, firstMessage: bool, title: Result<string>)
    returns (ops: seq<StoreOp>, events: seq<Event>)
    ensures ops == StreamOps(content, out, firstMessage, title)
    ensures events == out.events + StreamTail(out, firstMessage, title)
  {
    ops := [AddUserMessage(content)];
    events := out.events;
    if out.stored.Some? {
      ops := ops + [AddAssistantMessage(out.stored.value)];
    }
    if out.raised.Some? {
      return ops, events + [Error(out.raised.value)];
    }
    if firstMessage {
      if title.Err? {
        events := events + [Error(title.error)];
      } else {
        ops := ops + [SetTitle(title.value)];
        events := events + [TitleComplete(title.value)];
      }
    }
  }

  /** The response stream of an existing conversation starts with `stage1_start` and ends in
      one of three ways: a stage stream followed by nothing or by the first message's title,
      or an `error` event. The title event comes only for a first message. */
  lemma StreamResponseShape(out: Streamed, firstMessage: bool, title: Result<string>, p: Pipeline,
                            run: Runner, query: string, settings: Result<Settings.Block>)
    requires out == PipelineStreamOf(p, run, query, settings)
    ensures var events := out.events + StreamTail(out, firstMessage, title);
            && events[0] == Stage1Start
            && (out.raised.None? && (!firstMessage || title.Ok?) ==> IsStageStream(out.events))
            && (events[|events| - 1].TitleComplete? ==> firstMessage && title == Ok(events[|events| - 1].title) && IsStageStream(events[..|events| - 1]))
            && (!firstMessage && out.raised.None? ==> IsStageStream(events))
  {
    PipelineStreamMatchesRun(p, run, query, settings);
    var events := out.events + StreamTail(out, firstMessage, title);
    if out.raised.None? && firstMessage && title.Ok? {
      assert events[..|events| - 1] == out.events;
    }
    if !firstMessage && out.raised.None? {
      assert events == out.events;
    }
  }

  // ---------------------------------------------------------------------------------------
  // Deleting a conversation

  /** `delete_conversation`'s response, given whether the store deleted anything. */
  function DeleteConversation(deleted: bool): (response: Json)
    ensures response == JObj(map["status" := JStr("ok")])
  {
    if !deleted then JObj(map["status" := JStr("ok")]) else JObj(map["status" := JStr("ok")])
  }

  // ---------------------------------------------------------------------------------------
  // Updating the settings

  /** The keys a mode block may carry. */
  const BlockKeys: set<string> := {"council_models", "chairman_model", "title_model"}

  /** The block keys an update supplies, per mode: only the three block keys are copied. */
  function Supplied(block: map<string, Json>): (r: map<string, Json>)
    ensures r.Keys == block.Keys * BlockKeys && forall k :: k in r ==> r[k] == block[k]
  {
    map k | k in block && k in BlockKeys :: block[k]
  }

  /** The stored block a mode update builds on: `modes.get(name, {})`, which must be a dict
      to be spread. */
  function Existing(modes: map<string, Json>, name: string): Result<map<string, Json>> {
    if name !in modes then Ok(map[])
    else if modes[name].JObj? then Ok(modes[name].fields)
    else Err("TypeError")
  }

  /** The modes of a per-mode update that carry a dict block; the others are skipped. */
  function DictBlocks(updates: map<string, Json>): set<string> {
    set k | k in updates && updates[k].JObj?
  }

  /** The modes after the dict blocks in `done` were merged in. */
  function MergedOver(modes: map<string, Json>, updates: map<string, Json>, done: set<string>): map<string, Json>
    requires forall k :: k in done ==> k in updates && updates[k].JObj? && Existing(modes, k).Ok?
  {
    map k | k in modes.Keys + done ::
      if k in done then JObj(Existing(modes, k).value + Supplied(updates[k].fields)) else modes[k]
  }

  /** Merging one more block updates that mode only. */
  lemma MergedOverStep(modes: map<string, Json>, updates: map<string, Json>, done: set<string>, name: string)
    requires forall k :: k in done ==> k in updates && updates[k].JObj? && Existing(modes, k).Ok?
    requires name in updates && updates[name].JObj? && Existing(modes, name).Ok?
    ensures MergedOver(modes, updates, done)[name := JObj(Existing(modes, name).value + Supplied(updates[name].fields))]
            == MergedOver(modes, updates, done + {name})
  {
  }

  /** The per-mode merge: raises when a dict block meets a stored value that is not a dict. */
  function MergeModes(modes: map<string, Json>, updates: map<string, Json>): Result<map<string, Json>> {
    if exists k :: k in DictBlocks(updates) && Existing(modes, k).Err? then Err("TypeError")
    else Ok(MergedOver(modes, updates, DictBlocks(updates)))
  }

  /** The merge loop of `update_settings`, over the payload's mode blocks. */
  method MergeModeBlocks(modes: map<string, Json>, updates: map<string, Json>) returns (r: Result<map<string, Json>>)
    ensures r == MergeModes(modes, updates)
  {
    var merged := modes;
    var done: set<string> := {};
    var remaining := updates.Keys;
    while remaining != {}
      invariant remaining <= updates.Keys
      invariant done == DictBlocks(updates) - remaining
      invariant forall k :: k in done ==> Existing(modes, k).Ok?
      invariant merged == MergedOver(modes, updates, done)
      decreases remaining
    {
      var name :| name in remaining;
      remaining := remaining - {name};
      var block := updates[name];
      if !block.JObj? {
        continue;
      }
      var existing := Existing(modes, name);
      if existing.Err? {
        assert name in DictBlocks(updates);
        return Err("TypeError");
      }
      MergedOverStep(modes, updates, done, name);
      merged := merged[name := JObj(existing.value + Supplied(block.fields))];
      done := done + {name};
    }
    assert done == DictBlocks(updates);
    r := Ok(merged);
  }

  /** The per-mode merge changes only the modes the payload gives a dict block for; each such
      block keeps the stored keys it does not supply, takes the block keys it does, and gains
      no other key. */
  lemma MergeModesKeeps(modes: map<string, Json>, updates: map<string, Json>)
    requires MergeModes(modes, updates).Ok?
    ensures var merged := MergeModes(modes, updates).value;
            && merged.Keys == modes.Keys + DictBlocks(updates)
            && (forall k :: k in modes && k !in DictBlocks(updates) ==> merged[k] == modes[k])
            && (forall k :: k in DictBlocks(updates) ==>
                  && merged[k].JObj?
                  && (forall f :: f in merged[k].fields <==> f in Existing(modes, k).value || (f in updates[k].fields && f in BlockKeys))
                  && (forall f :: f in updates[k].fields && f in BlockKeys ==> merged[k].fields[f] == updates[k].fields[f])
                  && (forall f :: f in Existing(modes, k).value && f !in Supplied(updates[k].fields) ==>
                        merged[k].fields[f] == Existing(modes, k).value[f]))
  {
  }

  /** The fields a legacy payload sets: the three block keys it gives a value other than
      None. */
  function Given(payload: map<string, Json>): (r: map<string, Json>)
    ensures forall k :: k in r <==> k in BlockKeys && k in payload && !payload[k].JNull?
  {
    map k | k in payload && k in BlockKeys && !payload[k].JNull? :: payload[k]
  }

  /** The new `default_mode`: the payload's, stripped, when it is a non-blank string, else
      the current one. */
  function NewDefaultMode(payload: map<string, Json>, current: Json): Json {
    var requested := Get(payload, "default_mode");
    if requested.JStr? && Strip(requested.s) != "" then JStr(Strip(requested.s)) else current
  }

  /** The default mode changes only for a non-blank string, and is then stored stripped. */
  lemma NewDefaultModeCases(payload: map<string, Json>, current: Json)
    ensures NewDefaultMode(payload, current) != current ==>
              "default_mode" in payload && payload["default_mode"].JStr? && !IsBlank(payload["default_mode"].s)
    ensures "default_mode" in payload && payload["default_mode"].JStr? && !IsBlank(payload["default_mode"].s) ==>
              NewDefaultMode(payload, current) == JStr(Strip(payload["default_mode"].s))
    ensures !("default_mode" in payload && payload["default_mode"].JStr?) ==> NewDefaultMode(payload, current) == current
  {
    var requested := Get(payload, "default_mode");
    if requested.JStr? {
      BlankIffStripsToEmpty(requested.s);
    }
  }

  /** The settings `update_settings` saves, given what `load_settings` returns (`current`),
      the clock reading `default_settings()` would take, and the payload; or the error it
      raises. */
  function UpdatedSettings(current: map<string, Json>, now: string, payload: map<string, Json>): Result<map<string, Json>> {
    var modes := Or(Get(current, "modes"), Settings.DefaultSettings(now)["modes"]);
    var defaultMode := Or(Get(current, "default_mode"), JStr("council"));
    var updates := Get(payload, "modes");
    if updates.JObj? then
      if DictBlocks(updates.fields) == {} then Ok(map["modes" := modes, "default_mode" := NewDefaultMode(payload, defaultMode)])
      else if !modes.JObj? then Err("AttributeError")
      else
        match MergeModes(modes.fields, updates.fields)
        case Err(e) => Err(e)
        case Ok(merged) => Ok(map["modes" := JObj(merged), "default_mode" := NewDefaultMode(payload, defaultMode)])
    else LegacyUpdated(modes, defaultMode, payload)
  }

  /** The legacy payload branch of `update_settings`: the fields it gives replace those of the
      requested mode's block. */
  function LegacyUpdated(modes: Json, defaultMode: Json, payload: map<string, Json>): Result<map<string, Json>> {
    var requested := Or(Get(payload, "mode"), JStr("council"));
    if !requested.JStr? || !modes.JObj? then Err("AttributeError")
    else
      var target := NormaliseMode(Some(requested.s));
      match Existing(modes.fields, target)
      case Err(e) => Err(e)
      case Ok(existing) =>
        Ok(map["modes" := JObj(modes.fields[target := JObj(existing + Given(payload))]), "default_mode" := defaultMode])
  }

  /** `update_settings`, up to `save_settings`: the settings it saves. */
  method UpdateSettings(current: map<string, Json>, now: string, payload: map<string, Json>) returns (r: Result<map<string, Json>>)
    ensures r == UpdatedSettings(current, now, payload)
  {
    var modes := Or(Get(current, "modes"), Settings.DefaultSettings(now)["modes"]);
    var defaultMode := Or(Get(current, "default_mode"), JStr("council"));
    var updates := Get(payload, "modes");
    if updates.JObj? {
      if DictBlocks(updates.fields) != {} && !modes.JObj? {
        return Err("AttributeError");
      }
      if modes.JObj? {
        var merged := MergeModeBlocks(modes.fields, updates.fields);
        if merged.Err? {
          return Err(merged.error);
        }
        if DictBlocks(updates.fields) == {} {
          assert merged.value == modes.fields;
        } else {
          modes := JObj(merged.value);
        }
      }
      return Ok(map["modes" := modes, "default_mode" := NewDefaultMode(payload, defaultMode)]);
    }
    var requested := Or(Get(payload, "mode"), JStr("council"));
    if !requested.JStr? || !modes.JObj? {
      return Err("AttributeError");
    }
    var target := NormaliseMode(Some(requested.s));
    var existing := Existing(modes.fields, target);
    if existing.Err? {
      return Err(existing.error);
    }
    r := Ok(map["modes" := JObj(modes.fields[target := JObj(existing.value + Given(payload))]), "default_mode" := defaultMode]);
  }

  /** A legacy payload changes only its target mode's block, where every field it gives a
      value other than None replaces the stored one and every other stored field stays;
      the default mode is kept. */
  lemma LegacyUpdateKeeps(current: map<string, Json>, now: string, payload: map<string, Json>)
    requires !Get(payload, "modes").JObj?
    requires UpdatedSettings(current, now, payload).Ok?
    ensures var saved := UpdatedSettings(current, now, payload).value;
            var modes := Or(Get(current, "modes"), Settings.DefaultSettings(now)["modes"]);
            var target := NormaliseMode(Some(Or(Get(payload, "mode"), JStr("council")).s));
            && modes.JObj? && saved["modes"].JObj?
            && saved["default_mode"] == Or(Get(current, "default_mode"), JStr("council"))
            && saved["modes"].fields.Keys == modes.fields.Keys + {target}
            && (forall m :: m in modes.fields && m != target ==> saved["modes"].fields[m] == modes.fields[m])
            && saved["modes"].fields[target].JObj?
            && (forall k :: k in BlockKeys && k in payload && !payload[k].JNull? ==>
                  saved["modes"].fields[target].fields[k] == payload[k])
            && (forall k :: k in Existing(modes.fields, target).value && k !in Given(payload) ==>
                  saved["modes"].fields[target].fields[k] == Existing(modes.fields, target).value[k])
  {
    LegacyUpdatedKeeps(Or(Get(current, "modes"), Settings.DefaultSettings(now)["modes"]),
                       Or(Get(current, "default_mode"), JStr("council")), payload);
  }

  /** `LegacyUpdateKeeps` for any stored modes and default mode. */
  lemma LegacyUpdatedKeeps(modes: Json, defaultMode: Json, payload: map<string, Json>)
    requires LegacyUpdated(modes, defaultMode, payload).Ok?
    ensures var saved := LegacyUpdated(modes, defaultMode, payload).value;
            var target := NormaliseMode(Some(Or(Get(payload, "mode"), JStr("council")).s));
            && modes.JObj? && saved["modes"].JObj?
            && saved["default_mode"] == defaultMode
            && saved["modes"].fields.Keys == modes.fields.Keys + {target}
            && (forall m :: m in modes.fields && m != target ==> saved["modes"].fields[m] == modes.fields[m])
            && saved["modes"].fields[target].JObj?
            && (forall k :: k in BlockKeys && k in payload && !payload[k].JNull? ==>
                  saved["modes"].fields[target].fields[k] == payload[k])
            && (forall k :: k in Existing(modes.fields, target).value && k !in Given(payload) ==>
                  saved["modes"].fields[target].fields[k] == Existing(modes.fields, target).value[k])
  {
    var target := NormaliseMode(Some(Or(Get(payload, "mode"), JStr("council")).s));
    var existing := Existing(modes.fields, target).value;
    var block := existing + Given(payload);
    var updated := modes.fields[target := JObj(block)];
    assert LegacyUpdated(modes, defaultMode, payload).value == map["modes" := JObj(updated), "default_mode" := defaultMode];
    forall k | k in BlockKeys && k in payload && !payload[k].JNull? ensures block[k] == payload[k] {
      assert k in Given(payload);
    }
  }
}
