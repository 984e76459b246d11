/** What a conversation turn holds and the events a streaming response emits. */
module Turns {
  import opened Wrappers

  /** One model's answer: `{"model": ..., "response": ...}`. */
  datatype ModelResponse = ModelResponse(model: string, response: string)

  /** One stage-2 entry; each orchestration has its own shape. */
  datatype Stage2Entry =
    | RankingEntry(model: string, ranking: string, parsedRanking: seq<string>)  // council
    | StepEntry(step: nat, model: string, output: string)                      // sequential
    | CritiqueEntry(model: string, critique: string)                           // DxO
    | ScoreEntry(model: string, score: nat)                                    // ensemble

  /** One row of the council's aggregate ranking. The average position is the exact
      quotient `positionSum / rankingsCount`. */
  datatype AggregateEntry = AggregateEntry(model: string, positionSum: nat, rankingsCount: nat)

  /** The metadata a pipeline returns with its stages. */
  datatype Metadata =
    | NoMetadata
    | CouncilMeta(labelToModel: map<string, string>, aggregateRankings: seq<AggregateEntry>)
    | SequentialMeta(order: seq<string>)
    | DxoMeta(primary: string, critics: seq<string>, chairman: Option<string>)
    | EnsembleMeta(chairman: Option<string>, count: nat)

  /** A complete pipeline result: `(stage1, stage2, stage3, metadata)`. */
  datatype Turn = Turn(stage1: seq<ModelResponse>, stage2: seq<Stage2Entry>, stage3: ModelResponse, metadata: Metadata)

  /** What the conversation store keeps of an assistant reply: the three stages. */
  datatype StoredReply = StoredReply(stage1: seq<ModelResponse>, stage2: seq<Stage2Entry>, stage3: ModelResponse)

  /** What a streaming run produces: the events it yields, the reply it stores, and the
      error it raises, if any (the server turns that into an `error` event). */
  datatype Streamed = Streamed(events: seq<Event>, stored: Option<StoredReply>, raised: Option<string>)

  /** One server-sent event. */
  datatype Event =
    | Stage1Start
    | Stage1Complete(responses: seq<ModelResponse>)
    | Stage2Start
    | Stage2Complete(entries: seq<Stage2Entry>, metadata: Metadata)
    | Stage3Start
    | Stage3Complete(result: ModelResponse)
    | Complete
    | Error(message: string)
    | TitleComplete(title: string)

  /** Where a stage stream stands after the events seen so far. */
  datatype Phase = Idle | InStage1 | AfterStage1 | InStage2 | AfterStage2 | InStage3 | AfterStage3 | Done | Failed

  /** The one event a stream may emit next in each phase: every stage starts, then
      completes, in order; an error may only follow the start of stage 1. */
  function Next(p: Phase, e: Event): Option<Phase> {
    match (p, e)
    case (Idle, Stage1Start) => Some(InStage1)
    case (InStage1, Stage1Complete(_)) => Some(AfterStage1)
    case (InStage1, Error(_)) => Some(Failed)
    case (AfterStage1, Stage2Start) => Some(InStage2)
    case (InStage2, Stage2Complete(_, _)) => Some(AfterStage2)
    case (AfterStage2, Stage3Start) => Some(InStage3)
    case (InStage3, Stage3Complete(_)) => Some(AfterStage3)
    case (AfterStage3, Complete) => Some(Done)
    case _ => None
  }

  /** The phase reached after `events`, or `None` once an event is out of place. */
  function Walk(p: Phase, events: seq<Event>): Option<Phase>
    decreases |events|
  {
    if events == [] then Some(p)
    else match Next(p, events[0])
      case None => None
      case Some(q) => Walk(q, events[1..])
  }

  /** A finished stage stream: it ran to `complete`, or stopped with an error. */
  predicate IsStageStream(events: seq<Event>) {
    Walk(Idle, events) == Some(Done) || Walk(Idle, events) == Some(Failed)
  }

  /** The events of a stream that ran every stage. */
  function FullStream(s1: seq<ModelResponse>, s2: seq<Stage2Entry>, meta: Metadata, s3: ModelResponse): seq<Event> {
    [Stage1Start, Stage1Complete(s1), Stage2Start, Stage2Complete(s2, meta), Stage3Start, Stage3Complete(s3), Complete]
  }

  /** The events of a stream whose first stage raised. */
  function FailedStream(message: string): seq<Event> {
    [Stage1Start, Error(message)]
  }

  /** The two shapes are stage streams. */
  lemma FullAndFailedAreStageStreams(s1: seq<ModelResponse>, s2: seq<Stage2Entry>, meta: Metadata, s3: ModelResponse, message: string)
    ensures Walk(Idle, FullStream(s1, s2, meta, s3)) == Some(Done)
    ensures Walk(Idle, FailedStream(message)) == Some(Failed)
  {
    assert Walk(AfterStage3, [Complete]) == Some(Done);
    assert Walk(InStage3, [Stage3Complete(s3), Complete]) == Some(Done);
    assert Walk(AfterStage2, [Stage3Start, Stage3Complete(s3), Complete]) == Some(Done);
    assert Walk(InStage2, [Stage2Complete(s2, meta), Stage3Start, Stage3Complete(s3), Complete]) == Some(Done);
    assert Walk(AfterStage1, [Stage2Start, Stage2Complete(s2, meta), Stage3Start, Stage3Complete(s3), Complete]) == Some(Done);
    assert Walk(InStage1, FullStream(s1, s2, meta, s3)[1..]) == Some(Done);
    assert Walk(InStage1, [Error(message)]) == Some(Failed);
  }

  /** How many events of a full stream lie behind each phase. */
  function Position(p: Phase): nat {
    match p
    case Idle => 0
    case InStage1 => 1
    case AfterStage1 => 2
    case InStage2 => 3
    case AfterStage2 => 4
    case InStage3 => 5
    case AfterStage3 => 6
    case Done => 7
    case Failed => 7
  }

  /** The kind of the `n`-th event of a full stream. */
  predicate KindAt(n: nat, e: Event) {
    match n
    case 0 => e == Stage1Start
    case 1 => e.Stage1Complete?
    case 2 => e == Stage2Start
    case 3 => e.Stage2Complete?
    case 4 => e == Stage3Start
    case 5 => e.Stage3Complete?
    case 6 => e == Complete
    case _ => false
  }

  /** From any phase, the walk reaches `Done` only along the remaining stages in order. */
  lemma {:induction false} WalkToDone(p: Phase, events: seq<Event>)
    requires Walk(p, events) == Some(Done)
    ensures p != Failed && Position(p) + |events| == 7
    ensures forall k :: 0 <= k < |events| ==> KindAt(Position(p) + k, events[k])
    decreases |events|
  {
    if events != [] {
      var q := Next(p, events[0]).value;
      WalkToDone(q, events[1..]);
      assert Position(q) == Position(p) + 1;
      forall k | 1 <= k < |events| ensures KindAt(Position(p) + k, events[k]) {
        assert events[k] == events[1..][k - 1];
      }
    }
  }

  /** From a phase before stage 1 ends, the walk fails exactly on an error right after the
      start of stage 1. */
  lemma {:induction false} WalkToFailed(p: Phase, events: seq<Event>)
    requires Walk(p, events) == Some(Failed)
    ensures p == Idle ==> |events| == 2 && events[0] == Stage1Start && events[1].Error?
    ensures p == InStage1 ==> |events| == 1 && events[0].Error?
    ensures p != Idle && p != InStage1 && p != Failed ==> false
    decreases |events|
  {
    if events != [] {
      var q := Next(p, events[0]).value;
      WalkToFailed(q, events[1..]);
    }
  }

  /** A stage stream is exactly one of the two shapes: all seven events in order, or the
      start of stage 1 followed by an error. */
  lemma StageStreamShapes(events: seq<Event>)
    ensures IsStageStream(events) <==>
              (exists s1, s2, meta, s3 :: events == FullStream(s1, s2, meta, s3)) ||
              (exists message :: events == FailedStream(message))
  {
    if Walk(Idle, events) == Some(Done) {
      WalkToDone(Idle, events);
      assert KindAt(1, events[1]) && KindAt(3, events[3]) && KindAt(5, events[5]);
      assert events == FullStream(events[1].responses, events[3].entries, events[3].metadata, events[5].result);
    } else if Walk(Idle, events) == Some(Failed) {
      WalkToFailed(Idle, events);
      assert events == FailedStream(events[1].message);
    } else {
      forall s1, s2, meta, s3 ensures events != FullStream(s1, s2, meta, s3) {
        FullAndFailedAreStageStreams(s1, s2, meta, s3, "");
      }
      forall message ensures events != FailedStream(message) {
        FullAndFailedAreStageStreams([], [], NoMetadata, ModelResponse("", ""), message);
      }
    }
  }
}
