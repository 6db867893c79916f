/** The bounded agent loop: model rounds with retried provider streams, tool batches, and the stream of
    events a recorder consumes. The environment is a script: what each round's provider attempts, tools
    and cancellation checks turn out to be. */
module Agent {
  import opened Wrappers
  import opened Timeline
  import opened Projection
  import opened Turns

  // ---- the environment ----

  datatype ProviderKind =
    | Words(text: string)
    | Request(call: Option<Call>)
    | UsageReport
    | Done
    | Thought
    | Stray(reason: string)

  datatype ProviderEvent = ProviderEvent(kind: ProviderKind, state: Option<ProviderState>)

  /** How one provider attempt ends after its events. */
  datatype Ending =
    | Ends
    | Overflows(recovery: Recovery)
    | Errs(retryable: bool)
    | Interrupted  // the user cancels, while the attempt streams or while its overflow is recovered

  datatype Recovery = Recovered(status: bool) | Unrecovered(status: bool)

  datatype ProviderAttempt = ProviderAttempt(events: seq<ProviderEvent>, ending: Ending)

  /** `Ready(false)` where there is no context manager. `Cancels`: the user cancels while the request is being
      compacted, which raises out of the loop. */
  datatype Preparation = Ready(status: bool) | OverLimit | Unprepared | Cancels

  datatype ToolOutcome = Returns(result: CallResult) | Fails | Interrupts | StorageFails

  /** Whether cancellation is seen when the call's batch starts, and when its own turn comes. */
  datatype ToolStep = ToolStep(cancelledAtBatch: bool, cancelled: bool, outcome: ToolOutcome)

  datatype Round = Round(
    cancelled: bool, preparation: Preparation, attempts: nat -> ProviderAttempt,
    tools: Call -> ToolStep, finish: Option<string>)

  datatype Config = Config(
    maxIterations: nat, retry: bool, manager: bool,
    known: string -> bool, readOnly: string -> bool, blank: Blank, strip: string -> string)

  const MISSING_FINAL_RESPONSE :=
    "Tool execution completed, but the model did not provide a final response. "
    + "Please use the results above or ask a more specific follow-up."

  // ---- collecting one model response ----

  datatype Collector = Collector(text: string, calls: seq<Call>, completed: bool, states: seq<ProviderState>)

  const EMPTY := Collector("", [], false, [])

  predicate Invalid(e: ProviderEvent) {
    e.kind == Request(None)
  }

  function Observe(c: Collector, e: ProviderEvent): Collector {
    var d := match e.kind
      case Words(text) => c.(text := c.text + text)
      case Request(call) => if call.Some? then c.(calls := c.calls + [call.value]) else c
      case Done => c.(completed := true)
      case _ => c;
    if e.state.Some? then d.(states := d.states + [e.state.value]) else d
  }

  /** What the loop passes on; `completed` is kept back. */
  function Forward(e: ProviderEvent): seq<StreamEvent> {
    match e.kind
    case Words(text) => [StreamEvent(TextDelta(text), e.state)]
    case Request(call) => if call.Some? then [StreamEvent(Called(call.value), e.state)] else []
    case UsageReport => [StreamEvent(Other, e.state)]
    case Thought => [StreamEvent(Other, e.state)]
    case Done => []
    case Stray(reason) => [StreamEvent(Stopped(reason), e.state)]
  }

  function Plainly(kind: StreamKind): StreamEvent {
    StreamEvent(kind, None)
  }

  datatype StreamEnd = Streaming | Through | Broken | Cut

  /** A stream so far: the collector, what was passed on, how often the provider was asked. */
  datatype Stream = Stream(c: Collector, emitted: seq<StreamEvent>, end: StreamEnd, attempts: nat)

  /** Events of one attempt; an invalid call breaks the stream before it is passed on. */
  function TakeEvents(s: Stream, events: seq<ProviderEvent>): (r: Stream)
    requires s.end.Streaming?
    ensures r.end.Streaming? || r.end.Broken?
    decreases |events|
  {
    if events == [] then s
    else if Invalid(events[0]) then s.(end := Broken)
    else TakeEvents(s.(c := Observe(s.c, events[0]), emitted := s.emitted + Forward(events[0])), events[1..])
  }

  predicate OnlyUsage(events: seq<ProviderEvent>) {
    forall e :: e in events ==> e.kind.UsageReport?
  }

  function StatusIf(status: bool): seq<StreamEvent> {
    if status then [Plainly(Other)] else []
  }

  /** Attempts from the `s.attempts`-th on. Only an attempt that passed on nothing but usage is repeated:
      twice after transient errors, once after an overflow that could be recovered. */
  function Attempts(r: Round, cfg: Config, s: Stream, transient: nat, recovered: bool): Stream
    requires s.end.Streaming? && transient <= 2
    decreases 2 - transient, if recovered then 0 else 1
  {
    var a := r.attempts(s.attempts);
    var t := TakeEvents(s, a.events).(attempts := s.attempts + 1);
    if t.end.Broken? then t
    else
      match a.ending
      case Ends => t.(end := Through)
      case Interrupted => t.(end := Cut)
      case Overflows(recovery) =>
        if cfg.manager && OnlyUsage(a.events) && !recovered && cfg.retry then
          var u := t.(emitted := t.emitted + StatusIf(recovery.status));
          if recovery.Recovered? then Attempts(r, cfg, u, transient, true) else u.(end := Broken)
        else t.(end := Broken)
      case Errs(retryable) =>
        if cfg.retry && retryable && OnlyUsage(a.events) && transient < 2
        then Attempts(r, cfg, t, transient + 1, recovered)
        else t.(end := Broken)
  }

  function Respond(r: Round, cfg: Config): Stream {
    Attempts(r, cfg, Stream(EMPTY, [], Streaming, 0), 0, false)
  }

  method StreamWithRetries(r: Round, cfg: Config) returns (s: Stream)
    ensures s == Respond(r, cfg)
  {
    s := Stream(EMPTY, [], Streaming, 0);
    var transient, recovered := 0, false;
    while s.end.Streaming?
      invariant transient <= 2
      invariant if s.end.Streaming? then Attempts(r, cfg, s, transient, recovered) == Respond(r, cfg)
                else s == Respond(r, cfg)
      decreases s.end.Streaming?, 2 - transient, if recovered then 0 else 1
    {
      var a := r.attempts(s.attempts);
      var sideEffect := !OnlyUsage(a.events);
      s := TakeEvents(s, a.events).(attempts := s.attempts + 1);
      if s.end.Broken? {
        return;
      }
      match a.ending {
        case Ends => s := s.(end := Through);
        case Interrupted => s := s.(end := Cut);
        case Overflows(recovery) =>
          if cfg.manager && !sideEffect && !recovered && cfg.retry {
            s := s.(emitted := s.emitted + StatusIf(recovery.status));
            if recovery.Recovered? {
              recovered := true;
            } else {
              s := s.(end := Broken);
            }
          } else {
            s := s.(end := Broken);
          }
        case Errs(retryable) =>
          if cfg.retry && retryable && !sideEffect && transient < 2 {
            transient := transient + 1;
          } else {
            s := s.(end := Broken);
          }
      }
    }
  }

  // ---- tools ----

  predicate Batchable(call: Call, cfg: Config) {
    cfg.known(call.name) && cfg.readOnly(call.name)
  }

  /** Neighbouring known read-only calls run together, every other call alone. */
  function Batches(calls: seq<Call>, waiting: seq<Call>, cfg: Config): (r: seq<seq<Call>>)
    ensures forall k :: 0 <= k < |r| ==> r[k] != []
  {
    if calls == [] then if waiting == [] then [] else [waiting]
    else if Batchable(calls[0], cfg) then Batches(calls[1..], waiting + [calls[0]], cfg)
    else (if waiting == [] then [] else [waiting]) + [[calls[0]]] + Batches(calls[1..], [], cfg)
  }

  lemma {:induction false} BatchesStep(calls: seq<Call>, i: nat, waiting: seq<Call>, cfg: Config)
    requires i < |calls|
    ensures Batches(calls[i..], waiting, cfg) ==
      if Batchable(calls[i], cfg) then Batches(calls[i + 1..], waiting + [calls[i]], cfg)
      else (if waiting == [] then [] else [waiting]) + [[calls[i]]] + Batches(calls[i + 1..], [], cfg)
  {
    assert calls[i..][1..] == calls[i + 1..];
  }

  lemma {:induction false} BatchesEnd(calls: seq<Call>, waiting: seq<Call>, cfg: Config)
    ensures Batches(calls[|calls|..], waiting, cfg) == if waiting == [] then [] else [waiting]
  {
  }

  method ToolBatches(calls: seq<Call>, cfg: Config) returns (batches: seq<seq<Call>>)
    ensures batches == Batches(calls, [], cfg)
  {
    hide Batches, Batchable;
    batches := [];
    var waiting: seq<Call> := [];
    var i := 0;
    assert calls[0..] == calls;
    while i < |calls|
      invariant i <= |calls| && batches + Batches(calls[i..], waiting, cfg) == Batches(calls, [], cfg)
    {
      var call := calls[i];
      BatchesStep(calls, i, waiting, cfg);
      ghost var rest := Batches(calls[i + 1..], [], cfg);
      if Batchable(call, cfg) {
        waiting := waiting + [call];
      } else {
        Reassociate(batches, (if waiting == [] then [] else [waiting]) + [[call]], rest);
        Reassociate(batches, if waiting == [] then [] else [waiting], [[call]]);
        if waiting != [] {
          batches := batches + [waiting];
          waiting := [];
        }
        batches := batches + [[call]];
      }
      i := i + 1;
    }
    BatchesEnd(calls, waiting, cfg);
    if waiting != [] {
      batches := batches + [waiting];
    }
  }

  function Cancelled(call: Call): CallResult {
    CallResult(call.id, call.name, false, "Tool execution was cancelled before it completed.",
               "tool action cancelled", None, None)
  }

  function Failed(call: Call): CallResult {
    CallResult(call.id, call.name, false, "Tool execution failed.", "tool action failed", None, None)
  }

  function Skipped(call: Call): CallResult {
    CallResult(call.id, call.name, false, "Tool execution was skipped after repeated unknown tool calls.",
               "tool call skipped", None, None)
  }

  function AllCancelled(calls: seq<Call>): (r: seq<CallResult>)
    ensures |r| == |calls|
    ensures forall i :: 0 <= i < |r| ==> r[i] == Cancelled(calls[i])
  {
    seq(|calls|, i requires 0 <= i < |calls| => Cancelled(calls[i]))
  }

  datatype Batch = Batch(results: seq<CallResult>, cancelled: bool, lost: bool)

  /** Results of a parallel batch are taken in call order; the first cancellation cancels the rest. */
  function Gather(calls: seq<Call>, tools: Call -> ToolStep, results: seq<CallResult>): Batch
    requires |results| <= |calls|
    decreases |calls| - |results|
  {
    if |results| == |calls| then Batch(results, false, false)
    else
      var call := calls[|results|];
      var step := tools(call);
      if step.cancelled || step.outcome.Interrupts? then Batch(results + AllCancelled(calls[|results|..]), true, false)
      else if step.outcome.StorageFails? then Batch(results, false, true)
      else Gather(calls, tools, results + [if step.outcome.Fails? then Failed(call) else step.outcome.result])
  }

  function ExecuteAlone(call: Call, outcome: ToolOutcome): Batch {
    match outcome
    case Returns(result) => Batch([result], false, false)
    case Fails => Batch([Failed(call)], false, false)
    case Interrupts => Batch([Cancelled(call)], true, false)
    case StorageFails => Batch([], false, true)
  }

  function Execute(calls: seq<Call>, tools: Call -> ToolStep, cfg: Config): Batch
    requires calls != []
  {
    if tools(calls[0]).cancelledAtBatch then Batch(AllCancelled(calls), true, false)
    else if |calls| == 1 && !Batchable(calls[0], cfg) then ExecuteAlone(calls[0], tools(calls[0]).outcome)
    else Gather(calls, tools, [])
  }

  method GatherResults(calls: seq<Call>, tools: Call -> ToolStep) returns (b: Batch)
    ensures b == Gather(calls, tools, [])
  {
    var results: seq<CallResult> := [];
    var cancelled := false;
    while |results| < |calls| && !cancelled
      invariant |results| <= |calls|
      invariant if cancelled then Gather(calls, tools, []) == Batch(results + AllCancelled(calls[|results|..]), true, false)
                else Gather(calls, tools, results) == Gather(calls, tools, [])
      decreases |calls| - |results|, !cancelled
    {
      var call := calls[|results|];
      var step := tools(call);
      if step.cancelled {
        cancelled := true;
      } else {
        match step.outcome {
          case Returns(result) => results := results + [result];
          case Fails => results := results + [Failed(call)];
          case Interrupts => cancelled := true;
          case StorageFails => return Batch(results, false, true);
        }
      }
    }
    if cancelled {
      results := results + AllCancelled(calls[|results|..]);
    }
    return Batch(results, cancelled, false);
  }

  method ExecuteBatch(calls: seq<Call>, tools: Call -> ToolStep, cfg: Config) returns (b: Batch)
    requires calls != []
    ensures b == Execute(calls, tools, cfg)
  {
    hide Gather;
    if tools(calls[0]).cancelledAtBatch {
      return Batch(AllCancelled(calls), true, false);
    }
    if |calls| == 1 && !Batchable(calls[0], cfg) {
      match tools(calls[0]).outcome {
        case Returns(result) => return Batch([result], false, false);
        case Fails => return Batch([Failed(calls[0])], false, false);
        case Interrupts => return Batch([Cancelled(calls[0])], true, false);
        case StorageFails => return Batch([], false, true);
      }
    }
    b := GatherResults(calls, tools);
  }

  datatype ToolsEnd = Working | AllRun | ToolsCancelled | TooManyUnknown | Lost

  /** Results so far; `unknown` counts consecutive calls of tools that do not exist. */
  datatype Tools = Tools(results: seq<CallResult>, unknown: nat, end: ToolsEnd)

  /** Passes a batch's results on, stopping after the second unknown call in a row. */
  function TakeResults(t: Tools, calls: seq<Call>, results: seq<CallResult>, cfg: Config): Tools
    decreases |calls|
  {
    if calls == [] || results == [] then t
    else
      var unknown := if cfg.known(calls[0].name) then 0 else t.unknown + 1;
      var u := Tools(t.results + [results[0]], unknown, t.end);
      if 2 <= unknown then u.(end := TooManyUnknown) else TakeResults(u, calls[1..], results[1..], cfg)
  }

  lemma {:induction false} GatherIsComplete(calls: seq<Call>, tools: Call -> ToolStep, results: seq<CallResult>)
    requires |results| <= |calls|
    ensures !Gather(calls, tools, results).lost ==> |Gather(calls, tools, results).results| == |calls|
    decreases |calls| - |results|
  {
    if |results| < |calls| {
      var step := tools(calls[|results|]);
      if !step.cancelled && !step.outcome.Interrupts? && !step.outcome.StorageFails? {
        GatherIsComplete(calls, tools,
          results + [if step.outcome.Fails? then Failed(calls[|results|]) else step.outcome.result]);
      }
    }
  }

  /** A batch that is not lost has a result for every call. */
  lemma {:induction false} ExecuteIsComplete(calls: seq<Call>, tools: Call -> ToolStep, cfg: Config)
    requires calls != []
    ensures !Execute(calls, tools, cfg).lost ==> |Execute(calls, tools, cfg).results| == |calls|
  {
    GatherIsComplete(calls, tools, []);
    hide Gather;
  }

  function RunBatches(batches: seq<seq<Call>>, t: Tools, tools: Call -> ToolStep, cfg: Config): Tools
    requires forall k :: 0 <= k < |batches| ==> batches[k] != []
    decreases |batches|
  {
    if batches == [] then t.(end := AllRun)
    else
      var b := Execute(batches[0], tools, cfg);
      if b.lost then t.(end := Lost)
      else
        var u := TakeResults(t, batches[0], b.results, cfg);
        if b.cancelled then u.(end := ToolsCancelled)
        else if u.end.TooManyUnknown? then u
        else RunBatches(batches[1..], u, tools, cfg)
  }

  function ResolvedIds(results: seq<CallResult>): set<string> {
    set r | r in results :: r.callId
  }

  /** A made-up result for every call still without one. */
  function Fill(calls: seq<Call>, resolved: set<string>, make: Call -> CallResult): seq<CallResult> {
    if calls == [] then []
    else (if calls[0].id in resolved then [] else [make(calls[0])]) + Fill(calls[1..], resolved, make)
  }

  function RunTools(calls: seq<Call>, unknown: nat, tools: Call -> ToolStep, cfg: Config): Tools {
    var t := RunBatches(Batches(calls, [], cfg), Tools([], unknown, Working), tools, cfg);
    if t.end.ToolsCancelled? then t.(results := t.results + Fill(calls, ResolvedIds(t.results), Cancelled))
    else if t.end.TooManyUnknown? then t.(results := t.results + Fill(calls, ResolvedIds(t.results), Skipped))
    else t
  }

  method PassResults(t: Tools, calls: seq<Call>, results: seq<CallResult>, cfg: Config) returns (u: Tools)
    requires |calls| == |results| && t.end.Working?
    ensures u == TakeResults(t, calls, results, cfg)
    ensures u.end.Working? || u.end.TooManyUnknown?
  {
    u := t;
    var i := 0;
    assert calls[0..] == calls && results[0..] == results;
    while i < |calls| && u.end.Working?
      invariant i <= |calls|
      invariant u.end.Working? || u.end.TooManyUnknown?
      invariant if u.end.Working? then TakeResults(u, calls[i..], results[i..], cfg) == TakeResults(t, calls, results, cfg)
                else u == TakeResults(t, calls, results, cfg)
      decreases |calls| - i
    {
      assert calls[i..][1..] == calls[i + 1..] && results[i..][1..] == results[i + 1..];
      var unknown := if cfg.known(calls[i].name) then 0 else u.unknown + 1;
      u := Tools(u.results + [results[i]], unknown, if 2 <= unknown then TooManyUnknown else Working);
      i := i + 1;
    }
  }

  method FillRest(calls: seq<Call>, results: seq<CallResult>, make: Call -> CallResult) returns (all: seq<CallResult>)
    ensures all == results + Fill(calls, ResolvedIds(results), make)
  {
    var resolved := ResolvedIds(results);
    all := results;
    var i := 0;
    assert calls[0..] == calls;
    while i < |calls|
      invariant i <= |calls| && all + Fill(calls[i..], resolved, make) == results + Fill(calls, resolved, make)
    {
      assert calls[i..][1..] == calls[i + 1..];
      if calls[i].id !in resolved {
        Reassociate(all, [make(calls[i])], Fill(calls[i + 1..], resolved, make));
        all := all + [make(calls[i])];
      }
      i := i + 1;
    }
    assert calls[i..] == [];
  }

  method ToolPhase(calls: seq<Call>, unknown: nat, tools: Call -> ToolStep, cfg: Config) returns (t: Tools)
    ensures t == RunTools(calls, unknown, tools, cfg)
  {
    hide TakeResults, Execute, Fill, ResolvedIds, Batches;
    var batches := ToolBatches(calls, cfg);
    t := Tools([], unknown, Working);
    var i := 0;
    assert batches[0..] == batches;
    while i < |batches| && t.end.Working?
      invariant i <= |batches|
      invariant if t.end.Working? then RunBatches(batches[i..], t, tools, cfg) == RunBatches(batches, Tools([], unknown, Working), tools, cfg)
                else t == RunBatches(batches, Tools([], unknown, Working), tools, cfg)
      decreases |batches| - i
    {
      assert batches[i..][1..] == batches[i + 1..];
      var batch := batches[i];
      i := i + 1;
      var b := ExecuteBatch(batch, tools, cfg);
      ExecuteIsComplete(batch, tools, cfg);
      if b.lost {
        t := t.(end := Lost);
      } else {
        t := PassResults(t, batch, b.results, cfg);
        if b.cancelled {
          t := t.(end := ToolsCancelled);
        }
      }
    }
    if t.end.Working? {
      t := t.(end := AllRun);
    } else if t.end.ToolsCancelled? {
      var results := FillRest(calls, t.results, Cancelled);
      t := t.(results := results);
    } else if t.end.TooManyUnknown? {
      var results := FillRest(calls, t.results, Skipped);
      t := t.(results := results);
    }
  }

  // ---- every call is answered ----

  ghost predicate DistinctIds(calls: seq<Call>) {
    forall i, j :: 0 <= i < j < |calls| ==> calls[i].id != calls[j].id
  }

  /** The executor answers under the id it was asked with. */
  ghost predicate Echoes(calls: seq<Call>, tools: Call -> ToolStep) {
    forall c :: c in calls && tools(c).outcome.Returns? ==> tools(c).outcome.result.callId == c.id
  }

  predicate Answers(results: seq<CallResult>, calls: seq<Call>) {
    |results| == |calls| && forall i :: 0 <= i < |calls| ==> results[i].callId == calls[i].id
  }

  function FlattenCalls(batches: seq<seq<Call>>): seq<Call> {
    if batches == [] then [] else batches[0] + FlattenCalls(batches[1..])
  }

  /** A batch is a single call or calls of known read-only tools only. */
  ghost predicate ProperBatch(batch: seq<Call>, cfg: Config) {
    batch != [] && (|batch| == 1 || forall c :: c in batch ==> cfg.known(c.name) && cfg.readOnly(c.name))
  }

  lemma {:induction false} FlattenCallsConcat(x: seq<seq<Call>>, y: seq<seq<Call>>)
    ensures FlattenCalls(x + y) == FlattenCalls(x) + FlattenCalls(y)
  {
    if x == [] {
      assert x + y == y;
    } else {
      assert (x + y)[1..] == x[1..] + y;
      FlattenCallsConcat(x[1..], y);
    }
  }

  lemma {:induction false} FlattenOne(batch: seq<Call>)
    ensures FlattenCalls([batch]) == batch
  {
    assert [batch][1..] == [];
  }

  lemma {:induction false} BatchesFlatten(calls: seq<Call>, waiting: seq<Call>, cfg: Config)
    ensures FlattenCalls(Batches(calls, waiting, cfg)) == waiting + calls
    decreases |calls|
  {
    hide FlattenCalls, Batchable;
    if calls == [] {
      assert waiting + calls == waiting;
      if waiting == [] { NoCalls(); } else { FlattenOne(waiting); }
    } else {
      var one, rest := [calls[0]], calls[1..];
      assert calls == one + rest;
      Reassociate(waiting, one, rest);
      if Batchable(calls[0], cfg) {
        BatchesFlatten(rest, waiting + one, cfg);
      } else {
        BatchesFlatten(rest, [], cfg);
        assert [] + rest == rest;
        var tail := Batches(rest, [], cfg);
        FlattenOne(one);
        FlattenOne(waiting);
        FlattenCallsConcat([one], tail);
        Reassociate([waiting], [one], tail);
        FlattenCallsConcat([waiting], [one] + tail);
        assert [] + [one] == [one];
        if waiting == [] { assert waiting + (one + rest) == one + rest; }
      }
    }
  }

  lemma {:induction false} NoCalls()
    ensures FlattenCalls([]) == []
  {
  }

  lemma {:induction false} BatchesAreProper(calls: seq<Call>, waiting: seq<Call>, cfg: Config)
    requires forall c :: c in waiting ==> Batchable(c, cfg)
    ensures forall b :: b in Batches(calls, waiting, cfg) ==> ProperBatch(b, cfg)
    decreases |calls|
  {
    if calls != [] {
      if Batchable(calls[0], cfg) {
        BatchesAreProper(calls[1..], waiting + [calls[0]], cfg);
      } else {
        BatchesAreProper(calls[1..], [], cfg);
      }
    }
  }

  /** Batching loses no call, reorders none and never runs a call in parallel that is not read-only. */
  lemma {:induction false} BatchesPartitionCalls(calls: seq<Call>, cfg: Config)
    ensures FlattenCalls(Batches(calls, [], cfg)) == calls
    ensures forall b :: b in Batches(calls, [], cfg) ==> ProperBatch(b, cfg)
  {
    BatchesFlatten(calls, [], cfg);
    BatchesAreProper(calls, [], cfg);
    hide Batches, FlattenCalls, ProperBatch;
    assert [] + calls == calls;
  }

  /** Results so far answer the first calls, in order. */
  ghost predicate AnswersPrefix(results: seq<CallResult>, calls: seq<Call>) {
    |results| <= |calls| && Answers(results, calls[..|results|])
  }

  lemma {:induction false} AnswersSnoc(results: seq<CallResult>, calls: seq<Call>, r: CallResult)
    requires AnswersPrefix(results, calls) && |results| < |calls| && r.callId == calls[|results|].id
    ensures AnswersPrefix(results + [r], calls)
  {
  }

  lemma {:induction false} CancelledAnswerRest(results: seq<CallResult>, calls: seq<Call>)
    requires AnswersPrefix(results, calls)
    ensures Answers(results + AllCancelled(calls[|results|..]), calls)
  {
  }

  lemma {:induction false} GatherAnswers(calls: seq<Call>, tools: Call -> ToolStep, results: seq<CallResult>)
    requires |results| <= |calls| && AnswersPrefix(results, calls) && Echoes(calls, tools)
    ensures !Gather(calls, tools, results).lost ==> Answers(Gather(calls, tools, results).results, calls)
    decreases |calls| - |results|
  {
    if |results| == |calls| {
      assert calls[..|results|] == calls;
    } else {
      var call := calls[|results|];
      var step := tools(call);
      CancelledAnswerRest(results, calls);
      if !step.cancelled && !step.outcome.Interrupts? && !step.outcome.StorageFails? {
        var r := if step.outcome.Fails? then Failed(call) else step.outcome.result;
        AnswersSnoc(results, calls, r);
        hide AnswersPrefix, Answers, AllCancelled;
        GatherAnswers(calls, tools, results + [r]);
      }
    }
  }

  lemma {:induction false} AloneAnswers(call: Call, outcome: ToolOutcome)
    requires outcome.Returns? ==> outcome.result.callId == call.id
    ensures !ExecuteAlone(call, outcome).lost ==> Answers(ExecuteAlone(call, outcome).results, [call])
  {
  }

  lemma {:induction false} NothingAnswered(calls: seq<Call>)
    ensures AnswersPrefix([], calls)
    ensures Answers(AllCancelled(calls), calls)
  {
  }

  lemma {:induction false} EchoesFirst(calls: seq<Call>, tools: Call -> ToolStep)
    requires calls != [] && Echoes(calls, tools) && tools(calls[0]).outcome.Returns?
    ensures tools(calls[0]).outcome.result.callId == calls[0].id
  {
    assert calls[0] in calls;
  }

  lemma {:induction false} ExecuteAnswers(calls: seq<Call>, tools: Call -> ToolStep, cfg: Config)
    requires calls != [] && Echoes(calls, tools)
    ensures !Execute(calls, tools, cfg).lost ==> Answers(Execute(calls, tools, cfg).results, calls)
  {
    hide Gather, Answers, Echoes, AllCancelled, AnswersPrefix, Batchable, ExecuteAlone;
    NothingAnswered(calls);
    GatherAnswers(calls, tools, []);
    if |calls| == 1 && !Batchable(calls[0], cfg) {
      assert calls == [calls[0]];
      if tools(calls[0]).outcome.Returns? { EchoesFirst(calls, tools); }
      AloneAnswers(calls[0], tools(calls[0]).outcome);
    }
  }

  lemma {:induction false} KnownResultsAllPass(t: Tools, calls: seq<Call>, results: seq<CallResult>, cfg: Config)
    requires |calls| == |results| && forall c :: c in calls ==> cfg.known(c.name)
    ensures TakeResults(t, calls, results, cfg).results == t.results + results
    ensures TakeResults(t, calls, results, cfg).end == t.end
    decreases |calls|
  {
    if calls == [] {
      assert t.results + results == t.results;
    } else {
      var u := Tools(t.results + [results[0]], 0, t.end);
      KnownResultsAllPass(u, calls[1..], results[1..], cfg);
      Reassociate(t.results, [results[0]], results[1..]);
      assert results == [results[0]] + results[1..];
    }
  }

  /** The stop for unknown tools never drops a result: it can only come after a batch of one. */
  lemma {:induction false} BatchResultsAllPass(t: Tools, batch: seq<Call>, results: seq<CallResult>, cfg: Config)
    requires ProperBatch(batch, cfg) && |results| == |batch|
    ensures TakeResults(t, batch, results, cfg).results == t.results + results
  {
    if |batch| == 1 {
      assert results == [results[0]];
    } else {
      KnownResultsAllPass(t, batch, results, cfg);
    }
  }

  lemma {:induction false} AnswersMore(results: seq<CallResult>, done: seq<Call>, more: seq<CallResult>, batch: seq<Call>)
    requires Answers(results, done) && Answers(more, batch)
    ensures Answers(results + more, done + batch)
  {
  }

  lemma {:induction false} RunBatchesAnswers(batches: seq<seq<Call>>, t: Tools, tools: Call -> ToolStep, cfg: Config,
                                            done: seq<Call>)
    requires forall k :: 0 <= k < |batches| ==> ProperBatch(batches[k], cfg)
    requires forall k :: 0 <= k < |batches| ==> batches[k] != []
    requires Answers(t.results, done) && t.end.Working? && Echoes(FlattenCalls(batches), tools)
    ensures var u := RunBatches(batches, t, tools, cfg);
            && (!u.end.Lost? ==> AnswersPrefix(u.results, done + FlattenCalls(batches)))
            && (u.end.AllRun? ==> |u.results| == |done + FlattenCalls(batches)|)
    decreases |batches|
  {
    if batches == [] {
      assert done + [] == done && done[..|done|] == done;
    } else {
      var batch, rest := batches[0], batches[1..];
      var all := done + FlattenCalls(batches);
      Reassociate(done, batch, FlattenCalls(rest));
      assert forall c :: c in batch ==> c in FlattenCalls(batches);
      assert forall c :: c in FlattenCalls(rest) ==> c in FlattenCalls(batches);
      ExecuteAnswers(batch, tools, cfg);
      hide Execute, Echoes, ProperBatch;
      var b := Execute(batch, tools, cfg);
      if !b.lost {
        BatchResultsAllPass(t, batch, b.results, cfg);
        hide TakeResults;
        var u := TakeResults(t, batch, b.results, cfg);
        AnswersMore(t.results, done, b.results, batch);
        assert all[..|u.results|] == done + batch;
        if !b.cancelled && !u.end.TooManyUnknown? {
          TakeKeepsWorking(t, batch, b.results, cfg);
          RunBatchesAnswers(rest, u, tools, cfg, done + batch);
        }
      }
    }
  }

  lemma {:induction false} TakeKeepsWorking(t: Tools, calls: seq<Call>, results: seq<CallResult>, cfg: Config)
    requires t.end.Working?
    ensures var u := TakeResults(t, calls, results, cfg); u.end.Working? || u.end.TooManyUnknown?
    decreases |calls|
  {
    if calls != [] && results != [] {
      var unknown := if cfg.known(calls[0].name) then 0 else t.unknown + 1;
      if unknown < 2 {
        TakeKeepsWorking(Tools(t.results + [results[0]], unknown, t.end), calls[1..], results[1..], cfg);
      }
    }
  }

  lemma {:induction false} FillConcat(x: seq<Call>, y: seq<Call>, resolved: set<string>, make: Call -> CallResult)
    ensures Fill(x + y, resolved, make) == Fill(x, resolved, make) + Fill(y, resolved, make)
  {
    if x == [] {
      assert x + y == y;
    } else {
      assert (x + y)[1..] == x[1..] + y;
      FillConcat(x[1..], y, resolved, make);
    }
  }

  lemma {:induction false} FillNothing(calls: seq<Call>, resolved: set<string>, make: Call -> CallResult)
    requires forall c :: c in calls ==> c.id in resolved
    ensures Fill(calls, resolved, make) == []
  {
    if calls != [] { FillNothing(calls[1..], resolved, make); }
  }

  lemma {:induction false} FillEverything(calls: seq<Call>, resolved: set<string>, make: Call -> CallResult)
    requires forall c :: c in calls ==> c.id !in resolved
    requires forall c :: make(c).callId == c.id
    ensures Answers(Fill(calls, resolved, make), calls)
  {
    if calls != [] {
      FillEverything(calls[1..], resolved, make);
      assert calls[0] in calls;
      AnswersMore([make(calls[0])], [calls[0]], Fill(calls[1..], resolved, make), calls[1..]);
      assert calls == [calls[0]] + calls[1..];
    }
  }

  lemma {:induction false} AnsweredAreResolved(results: seq<CallResult>, calls: seq<Call>)
    requires DistinctIds(calls) && AnswersPrefix(results, calls)
    ensures forall c :: c in calls[..|results|] ==> c.id in ResolvedIds(results)
    ensures forall c :: c in calls[|results|..] ==> c.id !in ResolvedIds(results)
  {
    forall c | c in calls[..|results|] ensures c.id in ResolvedIds(results) {
      var i :| 0 <= i < |results| && calls[i] == c;
      assert results[i] in results && results[i].callId == c.id;
    }
    forall c | c in calls[|results|..] ensures c.id !in ResolvedIds(results) {
      forall r | r in results ensures r.callId != c.id {
        var i :| 0 <= i < |results| && results[i] == r;
        var j :| |results| <= j < |calls| && calls[j] == c;
        assert calls[..|results|][i].id == r.callId;
      }
    }
  }

  lemma {:induction false} FillAnswers(results: seq<CallResult>, calls: seq<Call>, make: Call -> CallResult)
    requires DistinctIds(calls) && AnswersPrefix(results, calls)
    requires forall c :: make(c).callId == c.id
    ensures Answers(results + Fill(calls, ResolvedIds(results), make), calls)
  {
    AnsweredAreResolved(results, calls);
    assert |results| <= |calls| && Answers(results, calls[..|results|]);
    hide *;
    var resolved := ResolvedIds(results);
    var x, y := calls[..|results|], calls[|results|..];
    assert calls == x + y;
    FillConcat(x, y, resolved, make);
    FillNothing(x, resolved, make);
    FillEverything(y, resolved, make);
    AnswersMore(results, x, Fill(y, resolved, make), y);
    assert [] + Fill(y, resolved, make) == Fill(y, resolved, make);
  }

  lemma {:induction false} BatchesAnswerPrefix(batches: seq<seq<Call>>, calls: seq<Call>, unknown: nat,
                                              tools: Call -> ToolStep, cfg: Config)
    requires batches == Batches(calls, [], cfg) && Echoes(calls, tools)
    ensures var t := RunBatches(batches, Tools([], unknown, Working), tools, cfg);
            && !t.end.Working?
            && (!t.end.Lost? ==> AnswersPrefix(t.results, calls))
            && (t.end.AllRun? ==> |t.results| == |calls|)
  {
    BatchesPartitionCalls(calls, cfg);
    assert forall k :: 0 <= k < |batches| ==> batches[k] in batches;
    hide Batches, ProperBatch, RunBatches, FlattenCalls, Echoes;
    RunBatchesAnswers(batches, Tools([], unknown, Working), tools, cfg, []);
    RunEnds(batches, Tools([], unknown, Working), tools, cfg);
  }

  // ---- when the phase loses its results ----

  /** A tool that cannot store its output is met before the phase stops, reading the calls in their order:
      neighbouring known read-only calls look for a cancellation where the first of them starts and again
      each in turn, every other call where it starts; an interrupted call ends the phase, and so do two
      unknown names in a row, `unknown` of them before the first call. */
  predicate Loses(calls: seq<Call>, among: bool, unknown: nat, tools: Call -> ToolStep, cfg: Config) {
    calls != [] &&
    var call, step := calls[0], tools(calls[0]);
    var parallel := cfg.known(call.name) && cfg.readOnly(call.name);
    var next := if cfg.known(call.name) then 0 else unknown + 1;
    && ((among && parallel) || !step.cancelledAtBatch)
    && !(parallel && step.cancelled) && !step.outcome.Interrupts?
    && (step.outcome.StorageFails? || (next < 2 && Loses(calls[1..], parallel, next, tools, cfg)))
  }

  /** No two neighbouring batches could have been one. */
  ghost predicate Maximal(batches: seq<seq<Call>>, cfg: Config) {
    forall k :: 0 <= k < |batches| - 1 && batches[k] != [] && batches[k + 1] != [] ==>
      !(Batchable(batches[k][|batches[k]| - 1], cfg) && Batchable(batches[k + 1][0], cfg))
  }

  lemma {:induction false} BatchesAreMaximal(calls: seq<Call>, waiting: seq<Call>, cfg: Config)
    requires forall c :: c in waiting ==> Batchable(c, cfg)
    ensures Maximal(Batches(calls, waiting, cfg), cfg)
    decreases |calls|
  {
    hide Batchable;
    if calls != [] {
      if Batchable(calls[0], cfg) {
        BatchesAreMaximal(calls[1..], waiting + [calls[0]], cfg);
      } else {
        BatchesAreMaximal(calls[1..], [], cfg);
        var rest := Batches(calls[1..], [], cfg);
        var all := Batches(calls, waiting, cfg);
        assert all == (if waiting == [] then [] else [waiting]) + [[calls[0]]] + rest;
        forall k | 0 <= k < |all| - 1 && all[k] != [] && all[k + 1] != []
          ensures !(Batchable(all[k][|all[k]| - 1], cfg) && Batchable(all[k + 1][0], cfg))
        {
          var m := |all| - |rest|;
          if k >= m { assert all[k] == rest[k - m] && all[k + 1] == rest[k + 1 - m]; }
        }
      }
    }
  }

  /** Among parallel calls it does not matter how many unknown names came before. */
  lemma {:induction false} GatherLoses(calls: seq<Call>, tools: Call -> ToolStep, results: seq<CallResult>, rest: seq<Call>,
                                       unknown: nat, cfg: Config)
    requires |results| < |calls| && forall c :: c in calls ==> Batchable(c, cfg)
    ensures var b := Gather(calls, tools, results);
            Loses(calls[|results|..] + rest, true, unknown, tools, cfg)
            <==> b.lost || (!b.cancelled && Loses(rest, true, 0, tools, cfg))
    decreases |calls| - |results|
  {
    var call, left := calls[|results|], calls[|results|..];
    var step := tools(call);
    assert call in calls;
    assert (left + rest)[0] == call && (left + rest)[1..] == calls[|results| + 1..] + rest;
    if !step.cancelled && !step.outcome.Interrupts? && !step.outcome.StorageFails? {
      var r := if step.outcome.Fails? then Failed(call) else step.outcome.result;
      if |results| + 1 < |calls| {
        GatherLoses(calls, tools, results + [r], rest, 0, cfg);
      } else {
        assert calls[|results| + 1..] + rest == rest;
        assert Gather(calls, tools, results + [r]) == Batch(results + [r], false, false);
      }
    }
  }

  /** How many unknown names in a row a batch leaves behind, if it does not stop the phase. */
  lemma {:induction false} TakeCountsUnknown(t: Tools, calls: seq<Call>, results: seq<CallResult>, cfg: Config)
    requires t.end.Working? && calls != [] && |results| == |calls|
    ensures var u := TakeResults(t, calls, results, cfg);
            u.end.Working? ==> u.unknown == if cfg.known(calls[|calls| - 1].name) then 0 else 1
    decreases |calls|
  {
    var unknown := if cfg.known(calls[0].name) then 0 else t.unknown + 1;
    var u := Tools(t.results + [results[0]], unknown, t.end);
    if unknown < 2 {
      if |calls| == 1 {
        assert TakeResults(u, calls[1..], results[1..], cfg) == u;
      } else {
        TakeCountsUnknown(u, calls[1..], results[1..], cfg);
      }
    }
  }

  lemma {:induction false} ParallelBatchLoses(batch: seq<Call>, rest: seq<Call>, t: Tools, tools: Call -> ToolStep, cfg: Config)
    requires t.end.Working? && batch != [] && forall c :: c in batch ==> Batchable(c, cfg)
    ensures var b := Execute(batch, tools, cfg);
            var u := TakeResults(t, batch, b.results, cfg);
            && (Loses(batch + rest, false, t.unknown, tools, cfg)
                <==> b.lost || (!b.cancelled && u.end.Working? && Loses(rest, true, u.unknown, tools, cfg)))
  {
    assert batch[0] in batch && batch[|batch| - 1] in batch;
    var b := Execute(batch, tools, cfg);
    ExecuteIsComplete(batch, tools, cfg);
    assert batch[0..] == batch;
    GatherLoses(batch, tools, [], rest, t.unknown, cfg);
    assert (batch + rest)[0] == batch[0];
    if !b.lost {
      KnownResultsAllPass(t, batch, b.results, cfg);
      TakeCountsUnknown(t, batch, b.results, cfg);
    }
    hide Gather, TakeResults;
  }

  lemma {:induction false} SingleBatchLoses(call: Call, rest: seq<Call>, t: Tools, tools: Call -> ToolStep, cfg: Config)
    requires t.end.Working? && !Batchable(call, cfg)
    ensures var b := Execute([call], tools, cfg);
            var u := TakeResults(t, [call], b.results, cfg);
            Loses([call] + rest, false, t.unknown, tools, cfg)
            <==> b.lost || (!b.cancelled && u.end.Working? && Loses(rest, false, u.unknown, tools, cfg))
  {
    var b := Execute([call], tools, cfg);
    assert ([call] + rest)[0] == call && ([call] + rest)[1..] == rest;
    if |b.results| == 1 {
      assert [call][1..] == [] && b.results[1..] == [];
    }
  }

  lemma {:induction false} BatchesLose(batches: seq<seq<Call>>, t: Tools, tools: Call -> ToolStep, cfg: Config)
    requires forall k :: 0 <= k < |batches| ==> ProperBatch(batches[k], cfg)
    requires forall k :: 0 <= k < |batches| ==> batches[k] != []
    requires Maximal(batches, cfg) && t.end.Working?
    ensures RunBatches(batches, t, tools, cfg).end.Lost?
       <==> Loses(FlattenCalls(batches), false, t.unknown, tools, cfg)
    decreases |batches|
  {
    if batches != [] {
      var batch, rest := batches[0], batches[1..];
      var b := Execute(batch, tools, cfg);
      var u := TakeResults(t, batch, b.results, cfg);
      var later := FlattenCalls(rest);
      ExecuteIsComplete(batch, tools, cfg);
      TakeKeepsWorking(t, batch, b.results, cfg);
      BatchLoses(batch, later, t, tools, cfg);
      FirstOfRest(batches, tools, cfg, u.unknown);
      RestIsMaximal(batches, cfg);
      hide Execute, TakeResults, Batchable, ProperBatch, Loses, Maximal;
      if !b.lost && !b.cancelled && u.end.Working? {
        BatchesLose(rest, u, tools, cfg);
      }
    }
  }

  /** Where all batches are run, only the last call counts. */
  lemma {:induction false} BatchesCarry(batches: seq<seq<Call>>, t: Tools, tools: Call -> ToolStep, cfg: Config)
    requires forall k :: 0 <= k < |batches| ==> batches[k] != []
    requires batches != [] && t.end.Working? && RunBatches(batches, t, tools, cfg).end.AllRun?
    ensures FlattenCalls(batches) != []
    ensures RunBatches(batches, t, tools, cfg).unknown
         == if cfg.known(FlattenCalls(batches)[|FlattenCalls(batches)| - 1].name) then 0 else 1
    decreases |batches|
  {
    var batch, rest := batches[0], batches[1..];
    var b := Execute(batch, tools, cfg);
    var u := TakeResults(t, batch, b.results, cfg);
    ExecuteIsComplete(batch, tools, cfg);
    TakeKeepsWorking(t, batch, b.results, cfg);
    TakeCountsUnknown(t, batch, b.results, cfg);
    assert FlattenCalls(batches) == batch + FlattenCalls(rest) && FlattenCalls([]) == [];
    hide Execute, TakeResults, FlattenCalls;
    LastOfConcat(batch, FlattenCalls(rest));
    if rest != [] {
      BatchesCarry(rest, u, tools, cfg);
    }
  }

  lemma {:induction false} LastOfConcat<T>(x: seq<T>, y: seq<T>)
    requires x != []
    ensures (x + y)[|x + y| - 1] == if y == [] then x[|x| - 1] else y[|y| - 1]
  {
  }

  lemma {:induction false} BatchLoses(batch: seq<Call>, rest: seq<Call>, t: Tools, tools: Call -> ToolStep, cfg: Config)
    requires ProperBatch(batch, cfg) && t.end.Working?
    ensures var b := Execute(batch, tools, cfg);
            var u := TakeResults(t, batch, b.results, cfg);
            Loses(batch + rest, false, t.unknown, tools, cfg)
            <==> b.lost || (!b.cancelled && u.end.Working?
                            && Loses(rest, Batchable(batch[|batch| - 1], cfg), u.unknown, tools, cfg))
  {
    if |batch| == 1 {
      assert batch == [batch[0]];
    }
    if !Batchable(batch[0], cfg) {
      assert batch[0] in batch;
      SingleBatchLoses(batch[0], rest, t, tools, cfg);
    } else {
      ParallelBatchLoses(batch, rest, t, tools, cfg);
    }
    hide Execute, TakeResults, Loses;
    assert batch[|batch| - 1] in batch;
  }

  lemma {:induction false} RestIsMaximal(batches: seq<seq<Call>>, cfg: Config)
    requires batches != [] && Maximal(batches, cfg)
    ensures Maximal(batches[1..], cfg)
  {
    var rest := batches[1..];
    hide Batchable;
    forall k | 0 <= k < |rest| - 1 && rest[k] != [] && rest[k + 1] != []
      ensures !(Batchable(rest[k][|rest[k]| - 1], cfg) && Batchable(rest[k + 1][0], cfg))
    {
      assert rest[k] == batches[k + 1] && rest[k + 1] == batches[k + 2];
    }
  }

  /** A new batch looks for a cancellation where it starts, whatever ran before. */
  lemma {:induction false} FirstOfRest(batches: seq<seq<Call>>, tools: Call -> ToolStep, cfg: Config, unknown: nat)
    requires batches != [] && Maximal(batches, cfg) && forall k :: 0 <= k < |batches| ==> batches[k] != []
    ensures var last, later := batches[0][|batches[0]| - 1], FlattenCalls(batches[1..]);
            Loses(later, Batchable(last, cfg), unknown, tools, cfg) == Loses(later, false, unknown, tools, cfg)
  {
    if |batches| > 1 {
      var later := FlattenCalls(batches[1..]);
      assert later[0] == batches[1][0];
    }
  }

  /** Exactly then is the phase lost; and where it runs through, only its last call says how many unknown
      names in a row it leaves behind. */
  lemma {:induction false} LostIff(calls: seq<Call>, unknown: nat, tools: Call -> ToolStep, cfg: Config)
    ensures var t := RunTools(calls, unknown, tools, cfg);
            && (t.end.Lost? <==> Loses(calls, false, unknown, tools, cfg))
            && (t.end.AllRun? && calls != [] ==> t.unknown == if cfg.known(calls[|calls| - 1].name) then 0 else 1)
            && !t.end.Working?
  {
    var batches := Batches(calls, [], cfg);
    BatchesPartitionCalls(calls, cfg);
    BatchesAreMaximal(calls, [], cfg);
    assert forall k :: 0 <= k < |batches| ==> batches[k] in batches;
    assert calls != [] ==> batches != [] by { NoCalls(); }
    hide Batches, Loses, Maximal, FlattenCalls, ProperBatch, RunBatches, Fill;
    BatchesLose(batches, Tools([], unknown, Working), tools, cfg);
    if RunBatches(batches, Tools([], unknown, Working), tools, cfg).end.AllRun? && calls != [] {
      BatchesCarry(batches, Tools([], unknown, Working), tools, cfg);
    }
    RunEnds(batches, Tools([], unknown, Working), tools, cfg);
  }

  /** With distinct ids and an executor that echoes them, every announced call gets exactly one result, in
      call order, whether the tools ran through, were cancelled or were stopped for unknown names; unless a
      tool that cannot store its output is met first. */
  lemma {:induction false} EveryCallIsAnswered(calls: seq<Call>, unknown: nat, tools: Call -> ToolStep, cfg: Config)
    requires DistinctIds(calls) && Echoes(calls, tools)
    ensures var t := RunTools(calls, unknown, tools, cfg);
            if Loses(calls, false, unknown, tools, cfg) then t.end.Lost? else !t.end.Lost? && Answers(t.results, calls)
  {
    CallsAnswered(calls, unknown, tools, cfg);
    LostIff(calls, unknown, tools, cfg);
    hide RunTools, Loses;
  }

  lemma {:induction false} CallsAnswered(calls: seq<Call>, unknown: nat, tools: Call -> ToolStep, cfg: Config)
    requires DistinctIds(calls) && Echoes(calls, tools)
    ensures var t := RunTools(calls, unknown, tools, cfg);
            t.end.Lost? || Answers(t.results, calls)
  {
    var batches := Batches(calls, [], cfg);
    BatchesAnswerPrefix(batches, calls, unknown, tools, cfg);
    var t := RunBatches(batches, Tools([], unknown, Working), tools, cfg);
    hide RunBatches, Batches, Fill, Echoes, DistinctIds, ResolvedIds;
    if t.end.ToolsCancelled? {
      FillAnswers(t.results, calls, Cancelled);
    } else if t.end.TooManyUnknown? {
      FillAnswers(t.results, calls, Skipped);
    } else {
      assert calls[..|calls|] == calls;
    }
  }

  lemma {:induction false} RunEnds(batches: seq<seq<Call>>, t: Tools, tools: Call -> ToolStep, cfg: Config)
    requires forall k :: 0 <= k < |batches| ==> batches[k] != []
    requires t.end.Working?
    ensures !RunBatches(batches, t, tools, cfg).end.Working?
    decreases |batches|
  {
    if batches != [] {
      var b := Execute(batches[0], tools, cfg);
      var u := TakeResults(t, batches[0], b.results, cfg);
      TakeKeepsWorking(t, batches[0], b.results, cfg);
      hide Execute, TakeResults;
      if !b.lost && !b.cancelled && !u.end.TooManyUnknown? { RunEnds(batches[1..], u, tools, cfg); }
    }
  }

  // ---- what each call is answered with ----

  function Made(calls: seq<Call>, make: Call -> CallResult): (r: seq<CallResult>)
    ensures |r| == |calls|
    ensures forall i :: 0 <= i < |r| ==> r[i] == make(calls[i])
  {
    seq(|calls|, i requires 0 <= i < |calls| => make(calls[i]))
  }

  /** The phase read call by call: each result, and why it stops. What is made up for the calls after the stop
      is in it. */
  function Told(calls: seq<Call>, among: bool, unknown: nat, tools: Call -> ToolStep, cfg: Config): (seq<CallResult>, ToolsEnd) {
    if calls == [] then ([], AllRun)
    else
      var call, step := calls[0], tools(calls[0]);
      var parallel := Batchable(call, cfg);
      var next := if cfg.known(call.name) then 0 else unknown + 1;
      if (!(among && parallel) && step.cancelledAtBatch) || (parallel && step.cancelled) || step.outcome.Interrupts? then
        (Made(calls, Cancelled), ToolsCancelled)
      else if step.outcome.StorageFails? then ([], Lost)
      else
        var r := if step.outcome.Fails? then Failed(call) else step.outcome.result;
        if 2 <= next then ([r] + Made(calls[1..], Skipped), TooManyUnknown)
        else
          var rest := Told(calls[1..], parallel, next, tools, cfg);
          ([r] + rest.0, rest.1)
  }

  lemma {:induction false} MadeConcat(x: seq<Call>, y: seq<Call>, make: Call -> CallResult)
    ensures Made(x + y, make) == Made(x, make) + Made(y, make)
  {
  }

  lemma {:induction false} CancelledAreMade(calls: seq<Call>)
    ensures AllCancelled(calls) == Made(calls, Cancelled)
  {
  }

  /** Among parallel calls it does not matter how many unknown names came before. */
  lemma {:induction false} GatherTells(calls: seq<Call>, tools: Call -> ToolStep, results: seq<CallResult>, rest: seq<Call>,
                                       unknown: nat, cfg: Config)
    requires |results| < |calls| && forall c :: c in calls ==> Batchable(c, cfg)
    ensures var b := Gather(calls, tools, results);
            var told, more := Told(calls[|results|..] + rest, true, unknown, tools, cfg), Told(rest, true, 0, tools, cfg);
            if b.lost then told.1 == Lost
            else if b.cancelled then results + told.0 == b.results + Made(rest, Cancelled) && told.1 == ToolsCancelled
            else results + told.0 == b.results + more.0 && told.1 == more.1
    decreases |calls| - |results|
  {
    var call, left := calls[|results|], calls[|results|..];
    var step := tools(call);
    assert call in calls;
    assert (left + rest)[0] == call && (left + rest)[1..] == calls[|results| + 1..] + rest;
    if step.cancelled || step.outcome.Interrupts? {
      CancelledAreMade(left);
      MadeConcat(left, rest, Cancelled);
      Reassociate(results, Made(left, Cancelled), Made(rest, Cancelled));
      return;
    }
    if step.outcome.StorageFails? {
      return;
    }
    var r := if step.outcome.Fails? then Failed(call) else step.outcome.result;
    var later := Told(calls[|results| + 1..] + rest, true, 0, tools, cfg);
    assert Told(left + rest, true, unknown, tools, cfg) == ([r] + later.0, later.1);
    assert Gather(calls, tools, results) == Gather(calls, tools, results + [r]);
    Reassociate(results, [r], later.0);
    if |results| + 1 < |calls| {
      hide *;
      GatherTells(calls, tools, results + [r], rest, 0, cfg);
    } else {
      assert calls[|results| + 1..] + rest == rest;
      assert Gather(calls, tools, results + [r]) == Batch(results + [r], false, false);
    }
  }

  /** How a batch that has just run and the calls after it make up what all of them are told. */
  ghost predicate TellsOn(told: (seq<CallResult>, ToolsEnd), b: Batch, t: Tools, u: Tools, rest: seq<Call>,
                          more: (seq<CallResult>, ToolsEnd)) {
    if b.lost then told.1 == Lost
    else if b.cancelled then t.results + told.0 == u.results + Made(rest, Cancelled) && told.1 == ToolsCancelled
    else if u.end.TooManyUnknown? then t.results + told.0 == u.results + Made(rest, Skipped) && told.1 == TooManyUnknown
    else t.results + told.0 == u.results + more.0 && told.1 == more.1
  }

  lemma {:induction false} ParallelBatchTells(batch: seq<Call>, rest: seq<Call>, t: Tools, tools: Call -> ToolStep, cfg: Config)
    requires t.end.Working? && batch != [] && forall c :: c in batch ==> Batchable(c, cfg)
    ensures var b := Execute(batch, tools, cfg);
            var u := TakeResults(t, batch, b.results, cfg);
            TellsOn(Told(batch + rest, false, t.unknown, tools, cfg), b, t, u, rest, Told(rest, true, u.unknown, tools, cfg))
  {
    assert batch[0] in batch && batch[|batch| - 1] in batch;
    var b := Execute(batch, tools, cfg);
    var told := Told(batch + rest, false, t.unknown, tools, cfg);
    ExecuteIsComplete(batch, tools, cfg);
    assert batch[0..] == batch && (batch + rest)[0] == batch[0];
    if !b.lost {
      KnownResultsAllPass(t, batch, b.results, cfg);
      TakeCountsUnknown(t, batch, b.results, cfg);
    }
    hide Gather, TakeResults;
    if tools(batch[0]).cancelledAtBatch {
      CancelledAreMade(batch);
      MadeConcat(batch, rest, Cancelled);
      assert told.0 == b.results + Made(rest, Cancelled);
    } else {
      assert told == Told(batch + rest, true, t.unknown, tools, cfg);
      GatherTells(batch, tools, [], rest, t.unknown, cfg);
      assert [] + told.0 == told.0;
    }
    hide *;
    var u := TakeResults(t, batch, b.results, cfg);
    Reassociate(t.results, b.results, if b.cancelled then Made(rest, Cancelled) else Told(rest, true, 0, tools, cfg).0);
  }

  lemma {:induction false} TakeOne(t: Tools, call: Call, r: CallResult, cfg: Config)
    requires t.end.Working?
    ensures var unknown := if cfg.known(call.name) then 0 else t.unknown + 1;
            TakeResults(t, [call], [r], cfg)
            == Tools(t.results + [r], unknown, if 2 <= unknown then TooManyUnknown else Working)
  {
    assert [call][1..] == [] && [r][1..] == [];
  }

  lemma {:induction false} MadeCons(call: Call, rest: seq<Call>, make: Call -> CallResult)
    ensures Made([call] + rest, make) == [make(call)] + Made(rest, make)
  {
  }

  lemma {:induction false} SingleBatchTells(call: Call, rest: seq<Call>, t: Tools, tools: Call -> ToolStep, cfg: Config)
    requires t.end.Working? && !Batchable(call, cfg)
    ensures var b := Execute([call], tools, cfg);
            var u := TakeResults(t, [call], b.results, cfg);
            TellsOn(Told([call] + rest, false, t.unknown, tools, cfg), b, t, u, rest, Told(rest, false, u.unknown, tools, cfg))
  {
    var b := Execute([call], tools, cfg);
    var told := Told([call] + rest, false, t.unknown, tools, cfg);
    assert ([call] + rest)[0] == call && ([call] + rest)[1..] == rest;
    if b.lost {
      return;
    }
    assert |b.results| == 1 && b.results == [b.results[0]];
    var r := b.results[0];
    TakeOne(t, call, r, cfg);
    MadeCons(call, rest, Cancelled);
    var u := TakeResults(t, [call], b.results, cfg);
    var more := Told(rest, false, u.unknown, tools, cfg);
    assert b.cancelled ==> r == Cancelled(call) && told == (Made([call] + rest, Cancelled), ToolsCancelled);
    assert !b.cancelled && u.end.TooManyUnknown? ==> told == ([r] + Made(rest, Skipped), TooManyUnknown);
    assert !b.cancelled && u.end.Working? ==> told == ([r] + more.0, more.1);
    hide Told, Execute, TakeResults, Made;
    Reassociate(t.results, [r], Made(rest, Cancelled));
    Reassociate(t.results, [r], Made(rest, Skipped));
    Reassociate(t.results, [r], more.0);
  }

  lemma {:induction false} BatchTells(batch: seq<Call>, rest: seq<Call>, t: Tools, tools: Call -> ToolStep, cfg: Config)
    requires ProperBatch(batch, cfg) && t.end.Working?
    ensures var b := Execute(batch, tools, cfg);
            var u := TakeResults(t, batch, b.results, cfg);
            TellsOn(Told(batch + rest, false, t.unknown, tools, cfg), b, t, u, rest,
                    Told(rest, Batchable(batch[|batch| - 1], cfg), u.unknown, tools, cfg))
  {
    if |batch| == 1 {
      assert batch == [batch[0]];
    }
    if !Batchable(batch[0], cfg) {
      assert batch[0] in batch;
      SingleBatchTells(batch[0], rest, t, tools, cfg);
    } else {
      ParallelBatchTells(batch, rest, t, tools, cfg);
    }
    hide Execute, TakeResults, Told, TellsOn;
    assert batch[|batch| - 1] in batch;
  }

  /** A new batch looks for a cancellation where it starts, whatever ran before. */
  lemma {:induction false} RestIsToldAlike(batches: seq<seq<Call>>, tools: Call -> ToolStep, cfg: Config, unknown: nat)
    requires batches != [] && Maximal(batches, cfg) && forall k :: 0 <= k < |batches| ==> batches[k] != []
    ensures var last, later := batches[0][|batches[0]| - 1], FlattenCalls(batches[1..]);
            Told(later, Batchable(last, cfg), unknown, tools, cfg) == Told(later, false, unknown, tools, cfg)
  {
    if |batches| > 1 {
      var later := FlattenCalls(batches[1..]);
      assert later[0] == batches[1][0];
    }
  }

  function Filler(end: ToolsEnd): Call -> CallResult {
    if end.ToolsCancelled? then Cancelled else Skipped
  }

  /** The batches tell the first calls what all of them together are told. */
  ghost predicate TellsFirst(told: (seq<CallResult>, ToolsEnd), t: Tools, u: Tools, calls: seq<Call>) {
    && u.end == told.1
    && (!u.end.Lost? ==>
          && |t.results| <= |u.results| <= |t.results| + |calls|
          && t.results + told.0 == u.results + Made(calls[|u.results| - |t.results|..], Filler(u.end))
          && (u.end.AllRun? ==> |u.results| == |t.results| + |calls|))
  }

  lemma {:induction false} BatchesTell(batches: seq<seq<Call>>, t: Tools, tools: Call -> ToolStep, cfg: Config)
    requires forall k :: 0 <= k < |batches| ==> ProperBatch(batches[k], cfg)
    requires forall k :: 0 <= k < |batches| ==> batches[k] != []
    requires Maximal(batches, cfg) && t.end.Working?
    ensures TellsFirst(Told(FlattenCalls(batches), false, t.unknown, tools, cfg), t, RunBatches(batches, t, tools, cfg),
                       FlattenCalls(batches))
    decreases |batches|
  {
    if batches == [] {
      NothingToTell(t, tools, cfg);
    } else {
      var batch, rest := batches[0], batches[1..];
      var b := Execute(batch, tools, cfg);
      var u := TakeResults(t, batch, b.results, cfg);
      var later := FlattenCalls(rest);
      ExecuteIsComplete(batch, tools, cfg);
      TakeKeepsWorking(t, batch, b.results, cfg);
      if !b.lost { BatchResultsAllPass(t, batch, b.results, cfg); }
      BatchTells(batch, later, t, tools, cfg);
      RestIsToldAlike(batches, tools, cfg, u.unknown);
      RestIsMaximal(batches, cfg);
      if !b.lost && !b.cancelled && u.end.Working? {
        BatchesTell(rest, u, tools, cfg);
      }
      var told, more := Told(batch + later, false, t.unknown, tools, cfg), Told(later, false, u.unknown, tools, cfg);
      assert FlattenCalls(batches) == batch + later;
      hide Execute, TakeResults, Batchable, ProperBatch, Told, Maximal, FlattenCalls;
      FirstThenRest(told, more, b, t, u, batch, later, RunBatches(rest, u, tools, cfg));
    }
  }

  lemma {:induction false} NothingToTell(t: Tools, tools: Call -> ToolStep, cfg: Config)
    ensures TellsFirst(Told([], false, t.unknown, tools, cfg), t, RunBatches([], t, tools, cfg), FlattenCalls([]))
  {
    assert Made([][0..], Filler(AllRun)) == [];
  }

  lemma {:induction false} FirstThenRest(told: (seq<CallResult>, ToolsEnd), more: (seq<CallResult>, ToolsEnd), b: Batch, t: Tools,
                                         u: Tools, batch: seq<Call>, later: seq<Call>, w: Tools)
    requires TellsOn(told, b, t, u, later, more)
    requires u.end.Working? || u.end.TooManyUnknown?
    requires !b.lost ==> |u.results| == |t.results| + |batch|
    requires !b.lost && !b.cancelled && u.end.Working? ==> TellsFirst(more, u, w, later)
    ensures var end := if b.lost then t.(end := Lost) else if b.cancelled then u.(end := ToolsCancelled)
                       else if u.end.TooManyUnknown? then u else w;
            TellsFirst(told, t, end, batch + later)
  {
    if !b.lost && !b.cancelled && u.end.Working? {
      hide Made, Filler;
      LaterTells(told, more, t, u, batch, later, w);
      return;
    }
    hide Made;
    assert (batch + later)[|batch|..] == later;
  }

  lemma {:induction false} LaterTells(told: (seq<CallResult>, ToolsEnd), more: (seq<CallResult>, ToolsEnd), t: Tools,
                                      u: Tools, batch: seq<Call>, later: seq<Call>, w: Tools)
    requires t.results + told.0 == u.results + more.0 && told.1 == more.1
    requires |u.results| == |t.results| + |batch| && TellsFirst(more, u, w, later)
    ensures TellsFirst(told, t, w, batch + later)
  {
    hide Made, Filler;
    if !w.end.Lost? {
      var k := |w.results| - |u.results|;
      assert (batch + later)[|batch| + k..] == later[k..];
    }
  }

  lemma {:induction false} FillMakes(calls: seq<Call>, resolved: set<string>, make: Call -> CallResult)
    requires forall c :: c in calls ==> c.id !in resolved
    ensures Fill(calls, resolved, make) == Made(calls, make)
  {
    if calls != [] {
      assert calls[0] in calls && calls == [calls[0]] + calls[1..];
      FillMakes(calls[1..], resolved, make);
      MadeCons(calls[0], calls[1..], make);
    }
  }

  lemma {:induction false} FillMakesRest(results: seq<CallResult>, calls: seq<Call>, make: Call -> CallResult)
    requires DistinctIds(calls) && AnswersPrefix(results, calls)
    ensures Fill(calls, ResolvedIds(results), make) == Made(calls[|results|..], make)
  {
    AnsweredAreResolved(results, calls);
    assert |results| <= |calls|;
    hide *;
    var x, y := calls[..|results|], calls[|results|..];
    assert calls == x + y;
    FillConcat(x, y, ResolvedIds(results), make);
    FillNothing(x, ResolvedIds(results), make);
    FillMakes(y, ResolvedIds(results), make);
    assert [] + Made(y, make) == Made(y, make);
  }

  lemma {:induction false} AnsweredThenMade(told: (seq<CallResult>, ToolsEnd), t: Tools, u: Tools, calls: seq<Call>)
    requires TellsFirst(told, t, u, calls) && t.results == [] && !u.end.Lost?
    ensures |u.results| <= |calls| && told.0 == u.results + Made(calls[|u.results|..], Filler(u.end))
    ensures u.end.AllRun? ==> told.0 == u.results
  {
    hide Filler;
    assert [] + told.0 == told.0;
  }

  lemma {:induction false} FilledIsTold(calls: seq<Call>, t: Tools, u: Tools, told: (seq<CallResult>, ToolsEnd))
    requires TellsFirst(told, t, u, calls) && t.results == [] && !u.end.Lost?
    requires DistinctIds(calls) && AnswersPrefix(u.results, calls)
    ensures u.end.AllRun? ==> u.results == told.0
    ensures !u.end.AllRun? ==> u.results + Fill(calls, ResolvedIds(u.results), Filler(u.end)) == told.0
  {
    hide *;
    AnsweredThenMade(told, t, u, calls);
    FillMakesRest(u.results, calls, Filler(u.end));
  }

  lemma {:induction false} PhaseTells(calls: seq<Call>, unknown: nat, tools: Call -> ToolStep, cfg: Config)
    ensures var t, told := RunTools(calls, unknown, tools, cfg), Told(calls, false, unknown, tools, cfg);
            && t.end == told.1
            && (DistinctIds(calls) && Echoes(calls, tools) && !t.end.Lost? ==> t.results == told.0)
  {
    var batches, t0 := Batches(calls, [], cfg), Tools([], unknown, Working);
    BatchesPartitionCalls(calls, cfg);
    BatchesAreMaximal(calls, [], cfg);
    assert forall k :: 0 <= k < |batches| ==> batches[k] in batches;
    var u := RunBatches(batches, t0, tools, cfg);
    RunEnds(batches, t0, tools, cfg);
    hide Batches, Told, Maximal, FlattenCalls, ProperBatch, RunBatches, Fill, DistinctIds, Echoes, Made, ResolvedIds;
    BatchesTell(batches, t0, tools, cfg);
    var told := Told(calls, false, unknown, tools, cfg);
    assert u.end == told.1;
    if DistinctIds(calls) && Echoes(calls, tools) && !u.end.Lost? {
      hide TellsFirst, AnswersPrefix;
      BatchesAnswerPrefix(batches, calls, unknown, tools, cfg);
      FilledIsTold(calls, t0, u, told);
    }
  }

  // ---- the same, call by call ----

  /** At this call a cancellation is seen, or it is interrupted. Neighbouring known read-only calls look where
      the first of them starts and again each in turn, every other call where it starts. */
  predicate Sees(calls: seq<Call>, j: nat, tools: Call -> ToolStep, cfg: Config)
    requires j < |calls|
  {
    var step, parallel := tools(calls[j]), cfg.known(calls[j].name) && cfg.readOnly(calls[j].name);
    || (step.cancelledAtBatch && !(parallel && j > 0 && cfg.known(calls[j - 1].name) && cfg.readOnly(calls[j - 1].name)))
    || (parallel && step.cancelled)
    || step.outcome.Interrupts?
  }

  /** With this call two unknown names in a row were called, `unknown` of them before the first call. */
  predicate Repeats(calls: seq<Call>, j: nat, unknown: nat, cfg: Config)
    requires j < |calls|
  {
    !cfg.known(calls[j].name) && if j == 0 then unknown >= 1 else !cfg.known(calls[j - 1].name)
  }

  /** Nothing stops the phase before this call. */
  ghost predicate Arrives(calls: seq<Call>, k: nat, unknown: nat, tools: Call -> ToolStep, cfg: Config)
    requires k <= |calls|
  {
    forall j :: 0 <= j < k ==> !Sees(calls, j, tools, cfg) && !Repeats(calls, j, unknown, cfg)
  }

  /** At this call, or before it, the user's cancellation stops the phase. */
  ghost predicate CancelledBy(calls: seq<Call>, k: nat, unknown: nat, tools: Call -> ToolStep, cfg: Config)
    requires k < |calls|
  {
    exists j :: 0 <= j <= k && Arrives(calls, j, unknown, tools, cfg) && Sees(calls, j, tools, cfg)
  }

  /** What the `k`-th call is answered with. */
  ghost function Due(calls: seq<Call>, k: nat, unknown: nat, tools: Call -> ToolStep, cfg: Config): CallResult
    requires k < |calls|
  {
    var call := calls[k];
    if CancelledBy(calls, k, unknown, tools, cfg) then
      CallResult(call.id, call.name, false, "Tool execution was cancelled before it completed.", "tool action cancelled", None, None)
    else if !Arrives(calls, k, unknown, tools, cfg) then
      CallResult(call.id, call.name, false, "Tool execution was skipped after repeated unknown tool calls.", "tool call skipped",
                 None, None)
    else if tools(call).outcome.Returns? then tools(call).outcome.result
    else CallResult(call.id, call.name, false, "Tool execution failed.", "tool action failed", None, None)
  }

  /** Unknown names in a row before the `i`-th call, if the phase arrives there. */
  function UnknownBefore(calls: seq<Call>, i: nat, unknown: nat, cfg: Config): nat
    requires i <= |calls|
  {
    if i == 0 then unknown else if cfg.known(calls[i - 1].name) then 0 else 1
  }

  function ToldFrom(calls: seq<Call>, i: nat, unknown: nat, tools: Call -> ToolStep, cfg: Config): (seq<CallResult>, ToolsEnd)
    requires i <= |calls|
  {
    Told(calls[i..], i > 0 && Batchable(calls[i - 1], cfg), UnknownBefore(calls, i, unknown, cfg), tools, cfg)
  }

  lemma {:induction false} ArrivesNext(calls: seq<Call>, i: nat, unknown: nat, tools: Call -> ToolStep, cfg: Config)
    requires i < |calls| && Arrives(calls, i, unknown, tools, cfg)
    ensures Arrives(calls, i + 1, unknown, tools, cfg) <==> !Sees(calls, i, tools, cfg) && !Repeats(calls, i, unknown, cfg)
    ensures !Sees(calls, i, tools, cfg) ==> !CancelledBy(calls, i, unknown, tools, cfg)
    ensures Sees(calls, i, tools, cfg) || Repeats(calls, i, unknown, cfg) ==>
      forall k :: i < k <= |calls| ==> !Arrives(calls, k, unknown, tools, cfg)
    ensures Sees(calls, i, tools, cfg) ==> forall k :: i <= k < |calls| ==> CancelledBy(calls, k, unknown, tools, cfg)
    ensures Repeats(calls, i, unknown, cfg) && !Sees(calls, i, tools, cfg) ==>
      forall k :: i <= k < |calls| ==> !CancelledBy(calls, k, unknown, tools, cfg)
  {
    hide Sees, Repeats;
  }

  /** One call of the reading. */
  lemma {:induction false} ToldStep(calls: seq<Call>, i: nat, unknown: nat, tools: Call -> ToolStep, cfg: Config)
    requires i < |calls|
    ensures var told, rest := ToldFrom(calls, i, unknown, tools, cfg), ToldFrom(calls, i + 1, unknown, tools, cfg);
            var outcome := tools(calls[i]).outcome;
            var r := if outcome.Fails? || !outcome.Returns? then Failed(calls[i]) else outcome.result;
            if Sees(calls, i, tools, cfg) then told == (Made(calls[i..], Cancelled), ToolsCancelled)
            else if outcome.StorageFails? then told == ([], Lost)
            else if Repeats(calls, i, unknown, cfg) then told == ([r] + Made(calls[i + 1..], Skipped), TooManyUnknown)
            else told == ([r] + rest.0, rest.1)
  {
    assert calls[i..][0] == calls[i] && calls[i..][1..] == calls[i + 1..];
    hide Made;
  }

  lemma {:induction false} ToldAtStop(calls: seq<Call>, i: nat, k: nat, unknown: nat, tools: Call -> ToolStep, cfg: Config)
    requires i <= k < |calls| && Arrives(calls, i, unknown, tools, cfg)
    requires Sees(calls, i, tools, cfg) || (!tools(calls[i]).outcome.StorageFails? && Repeats(calls, i, unknown, cfg))
    ensures var told := ToldFrom(calls, i, unknown, tools, cfg).0;
            |told| == |calls| - i && told[k - i] == Due(calls, k, unknown, tools, cfg)
  {
    hide *;
    ToldStep(calls, i, unknown, tools, cfg);
    ArrivesNext(calls, i, unknown, tools, cfg);
    DueIs(calls, k, unknown, tools, cfg);
    if Sees(calls, i, tools, cfg) {
      assert calls[i..][k - i] == calls[k];
    } else if k > i {
      assert calls[i + 1..][k - i - 1] == calls[k];
    } else {
      DueHere(calls, i, unknown, tools, cfg);
    }
  }

  lemma {:induction false} DueIs(calls: seq<Call>, k: nat, unknown: nat, tools: Call -> ToolStep, cfg: Config)
    requires k < |calls|
    ensures var due := Due(calls, k, unknown, tools, cfg);
            && (CancelledBy(calls, k, unknown, tools, cfg) ==> due == Cancelled(calls[k]))
            && (!CancelledBy(calls, k, unknown, tools, cfg) && !Arrives(calls, k, unknown, tools, cfg) ==> due == Skipped(calls[k]))
  {
    hide CancelledBy, Arrives;
  }

  lemma {:induction false} DueHere(calls: seq<Call>, i: nat, unknown: nat, tools: Call -> ToolStep, cfg: Config)
    requires i < |calls| && Arrives(calls, i, unknown, tools, cfg) && !Sees(calls, i, tools, cfg)
    ensures var outcome := tools(calls[i]).outcome;
            Due(calls, i, unknown, tools, cfg) == if outcome.Returns? then outcome.result else Failed(calls[i])
  {
    ArrivesNext(calls, i, unknown, tools, cfg);
    hide Sees, Repeats, Arrives, CancelledBy;
  }

  lemma {:induction false} ToldOnTheWay(calls: seq<Call>, i: nat, unknown: nat, tools: Call -> ToolStep, cfg: Config)
    requires i < |calls| && Arrives(calls, i, unknown, tools, cfg) && !Sees(calls, i, tools, cfg)
    requires !tools(calls[i]).outcome.StorageFails? && !Repeats(calls, i, unknown, cfg)
    ensures Arrives(calls, i + 1, unknown, tools, cfg)
    ensures var told, rest := ToldFrom(calls, i, unknown, tools, cfg), ToldFrom(calls, i + 1, unknown, tools, cfg);
            told == ([Due(calls, i, unknown, tools, cfg)] + rest.0, rest.1)
  {
    hide *;
    ToldStep(calls, i, unknown, tools, cfg);
    ArrivesNext(calls, i, unknown, tools, cfg);
    DueHere(calls, i, unknown, tools, cfg);
  }

  lemma {:induction false} CallIsTold(calls: seq<Call>, i: nat, k: nat, unknown: nat, tools: Call -> ToolStep, cfg: Config)
    requires i <= k < |calls| && Arrives(calls, i, unknown, tools, cfg)
    ensures var told := ToldFrom(calls, i, unknown, tools, cfg);
            told.1 != Lost ==> |told.0| == |calls| - i && told.0[k - i] == Due(calls, k, unknown, tools, cfg)
    decreases |calls| - i
  {
    hide *;
    if Sees(calls, i, tools, cfg) || (!tools(calls[i]).outcome.StorageFails? && Repeats(calls, i, unknown, cfg)) {
      ToldAtStop(calls, i, k, unknown, tools, cfg);
    } else if tools(calls[i]).outcome.StorageFails? {
      ToldStep(calls, i, unknown, tools, cfg);
    } else {
      ToldOnTheWay(calls, i, unknown, tools, cfg);
      if i + 1 < |calls| {
        CallIsTold(calls, i + 1, if i < k then k else i + 1, unknown, tools, cfg);
      } else {
        NothingLeft(calls, unknown, tools, cfg);
      }
    }
  }

  lemma {:induction false} NothingLeft(calls: seq<Call>, unknown: nat, tools: Call -> ToolStep, cfg: Config)
    ensures ToldFrom(calls, |calls|, unknown, tools, cfg) == ([], AllRun)
  {
  }

  /** Some call that the phase arrives at cannot have its output stored. */
  ghost predicate MeetsLoss(calls: seq<Call>, i: nat, unknown: nat, tools: Call -> ToolStep, cfg: Config) {
    exists k :: i <= k < |calls| && Arrives(calls, k, unknown, tools, cfg) && !Sees(calls, k, tools, cfg)
                && tools(calls[k]).outcome.StorageFails?
  }

  ghost predicate EndsSo(end: ToolsEnd, calls: seq<Call>, unknown: nat, tools: Call -> ToolStep, cfg: Config) {
    match end
    case Lost => MeetsLoss(calls, 0, unknown, tools, cfg)
    case ToolsCancelled => calls != [] && CancelledBy(calls, |calls| - 1, unknown, tools, cfg)
    case TooManyUnknown => calls != [] && !Arrives(calls, |calls|, unknown, tools, cfg) && !CancelledBy(calls, |calls| - 1, unknown, tools, cfg)
    case AllRun => Arrives(calls, |calls|, unknown, tools, cfg)
    case Working => false
  }

  lemma {:induction false} LossFrom(calls: seq<Call>, i: nat, unknown: nat, tools: Call -> ToolStep, cfg: Config)
    requires i < |calls| && Arrives(calls, i, unknown, tools, cfg)
    ensures Sees(calls, i, tools, cfg) ==> !MeetsLoss(calls, i, unknown, tools, cfg)
    ensures !Sees(calls, i, tools, cfg) && tools(calls[i]).outcome.StorageFails? ==> MeetsLoss(calls, i, unknown, tools, cfg)
    ensures !tools(calls[i]).outcome.StorageFails? ==>
      (MeetsLoss(calls, i, unknown, tools, cfg) <==> MeetsLoss(calls, i + 1, unknown, tools, cfg))
    ensures Repeats(calls, i, unknown, cfg) ==> !MeetsLoss(calls, i + 1, unknown, tools, cfg)
  {
    ArrivesNext(calls, i, unknown, tools, cfg);
    hide Arrives, Sees, Repeats, CancelledBy;
  }

  lemma {:induction false} EndIsTold(calls: seq<Call>, i: nat, unknown: nat, tools: Call -> ToolStep, cfg: Config)
    requires i <= |calls| && Arrives(calls, i, unknown, tools, cfg)
    ensures var end := ToldFrom(calls, i, unknown, tools, cfg).1;
            && (end.Lost? <==> MeetsLoss(calls, i, unknown, tools, cfg))
            && (!end.Lost? ==> EndsSo(end, calls, unknown, tools, cfg))
    decreases |calls| - i
  {
    hide *;
    if i == |calls| {
      NothingLeft(calls, unknown, tools, cfg);
      NoLossLeft(calls, unknown, tools, cfg);
      AllArrived(calls, unknown, tools, cfg);
      return;
    }
    ToldStep(calls, i, unknown, tools, cfg);
    ArrivesNext(calls, i, unknown, tools, cfg);
    LossFrom(calls, i, unknown, tools, cfg);
    StopsHere(calls, i, unknown, tools, cfg);
    if !Sees(calls, i, tools, cfg) && !tools(calls[i]).outcome.StorageFails? && !Repeats(calls, i, unknown, cfg) {
      EndIsTold(calls, i + 1, unknown, tools, cfg);
    }
  }

  lemma NoLossLeft(calls: seq<Call>, unknown: nat, tools: Call -> ToolStep, cfg: Config)
    ensures !MeetsLoss(calls, |calls|, unknown, tools, cfg)
  {
  }

  lemma AllArrived(calls: seq<Call>, unknown: nat, tools: Call -> ToolStep, cfg: Config)
    requires Arrives(calls, |calls|, unknown, tools, cfg)
    ensures EndsSo(AllRun, calls, unknown, tools, cfg)
  {
    hide Arrives;
  }

  /** How the phase ends if it stops at this call without losing anything. */
  lemma {:induction false} StopsHere(calls: seq<Call>, i: nat, unknown: nat, tools: Call -> ToolStep, cfg: Config)
    requires i < |calls| && Arrives(calls, i, unknown, tools, cfg)
    ensures Sees(calls, i, tools, cfg) ==> EndsSo(ToolsCancelled, calls, unknown, tools, cfg)
    ensures !Sees(calls, i, tools, cfg) && Repeats(calls, i, unknown, cfg) ==> EndsSo(TooManyUnknown, calls, unknown, tools, cfg)
    ensures !tools(calls[i]).outcome.StorageFails? && (Sees(calls, i, tools, cfg) || Repeats(calls, i, unknown, cfg)) ==>
      !MeetsLoss(calls, i, unknown, tools, cfg)
  {
    ArrivesNext(calls, i, unknown, tools, cfg);
    LossFrom(calls, i, unknown, tools, cfg);
    hide Sees, Repeats, Arrives, CancelledBy, MeetsLoss;
  }

  /** Every result of a phase, and its end, read off the tools: a call the phase arrives at without seeing a
      cancellation is answered with its tool's own result, or as failed; one the user's cancellation comes before,
      or at, as cancelled; the others, behind the second unknown name in a row, as skipped. */
  lemma {:induction false} EachCallGetsItsDue(calls: seq<Call>, unknown: nat, tools: Call -> ToolStep, cfg: Config)
    requires DistinctIds(calls) && Echoes(calls, tools)
    ensures var t := RunTools(calls, unknown, tools, cfg);
            && (t.end.Lost? <==> MeetsLoss(calls, 0, unknown, tools, cfg))
            && EndsSo(t.end, calls, unknown, tools, cfg)
            && (!t.end.Lost? ==>
                  |t.results| == |calls| && forall k :: 0 <= k < |calls| ==> t.results[k] == Due(calls, k, unknown, tools, cfg))
  {
    hide *;
    var t := RunTools(calls, unknown, tools, cfg);
    PhaseTells(calls, unknown, tools, cfg);
    ToldFromTheStart(calls, unknown, tools, cfg);
    EndIsTold(calls, 0, unknown, tools, cfg);
    if !t.end.Lost? {
      if calls != [] { CallIsTold(calls, 0, 0, unknown, tools, cfg); }
      forall k | 0 <= k < |calls| ensures |t.results| == |calls| && t.results[k] == Due(calls, k, unknown, tools, cfg) {
        CallIsTold(calls, 0, k, unknown, tools, cfg);
      }
    } else {
      assert t.end == Lost;
    }
  }

  lemma {:induction false} ToldFromTheStart(calls: seq<Call>, unknown: nat, tools: Call -> ToolStep, cfg: Config)
    ensures ToldFrom(calls, 0, unknown, tools, cfg) == Told(calls, false, unknown, tools, cfg)
    ensures calls == [] ==> Told(calls, false, unknown, tools, cfg) == ([], AllRun)
    ensures Arrives(calls, 0, unknown, tools, cfg)
    ensures MeetsLoss(calls, 0, unknown, tools, cfg) ==> EndsSo(Lost, calls, unknown, tools, cfg)
  {
    assert calls[0..] == calls;
    hide Sees, Repeats, Batchable;
  }

  // ---- provider attempts ----

  lemma {:induction false} AttemptsAreBounded(r: Round, cfg: Config, s: Stream, transient: nat, recovered: bool)
    requires s.end.Streaming? && transient <= 2
    ensures var t := Attempts(r, cfg, s, transient, recovered);
            && !t.end.Streaming?
            && s.attempts < t.attempts <= s.attempts + 3 - transient + (if recovered then 0 else 1)
            && (forall k :: s.attempts <= k < t.attempts - 1 ==> OnlyUsage(r.attempts(k).events))
    decreases 2 - transient, if recovered then 0 else 1
  {
    hide TakeEvents, OnlyUsage;
    var a := r.attempts(s.attempts);
    var t := TakeEvents(s, a.events).(attempts := s.attempts + 1);
    if t.end.Streaming? && a.ending.Overflows? && a.ending.recovery.Recovered? {
      if cfg.manager && OnlyUsage(a.events) && !recovered && cfg.retry {
        AttemptsAreBounded(r, cfg, t.(emitted := t.emitted + StatusIf(a.ending.recovery.status)), transient, true);
      }
    } else if t.end.Streaming? && a.ending.Errs? {
      if cfg.retry && a.ending.retryable && OnlyUsage(a.events) && transient < 2 {
        AttemptsAreBounded(r, cfg, t, transient + 1, recovered);
      }
    }
  }

  /** A round asks the provider at most four times, and never again once anything but usage was passed on. */
  lemma {:induction false} AtMostFourAttempts(r: Round, cfg: Config)
    ensures var t := Respond(r, cfg);
            && 1 <= t.attempts <= 4
            && (forall k :: 0 <= k < t.attempts - 1 ==> OnlyUsage(r.attempts(k).events))
            && (!cfg.retry ==> t.attempts == 1)
  {
    AttemptsAreBounded(r, cfg, Stream(EMPTY, [], Streaming, 0), 0, false);
  }

  // ---- the attempts, read off the script ----

  /** Transient errors among the first attempts. */
  function TransientBefore(r: Round, k: nat): nat {
    if k == 0 then 0 else TransientBefore(r, k - 1) + if r.attempts(k - 1).ending.Errs? then 1 else 0
  }

  function OverflowBefore(r: Round, k: nat): bool {
    k > 0 && (r.attempts(k - 1).ending.Overflows? || OverflowBefore(r, k - 1))
  }

  /** The context manager is asked to make room after this attempt. */
  predicate MakesRoom(r: Round, k: nat, cfg: Config) {
    && cfg.retry && cfg.manager && r.attempts(k).ending.Overflows? && !OverflowBefore(r, k)
    && forall e :: e in r.attempts(k).events ==> e.kind.UsageReport?
  }

  /** Another attempt follows this one: after a first overflow that could be recovered, and after a transient error that is
      the first or second, provided nothing but usage was passed on. */
  predicate Again(r: Round, k: nat, cfg: Config) {
    var a := r.attempts(k);
    && cfg.retry && (forall e :: e in a.events ==> e.kind.UsageReport?)
    && match a.ending
       case Overflows(recovery) => MakesRoom(r, k, cfg) && recovery.Recovered?
       case Errs(retryable) => retryable && TransientBefore(r, k) < 2
       case _ => false
  }

  /** The events of an attempt up to the first call without contents. */
  function Sound(events: seq<ProviderEvent>): seq<ProviderEvent> {
    if events == [] || events[0].kind == Request(None) then [] else [events[0]] + Sound(events[1..])
  }

  function ForwardAll(events: seq<ProviderEvent>): seq<StreamEvent> {
    if events == [] then [] else Forward(events[0]) + ForwardAll(events[1..])
  }

  function ObserveAll(c: Collector, events: seq<ProviderEvent>): Collector
    decreases |events|
  {
    if events == [] then c else ObserveAll(Observe(c, events[0]), events[1..])
  }

  /** What the first `n` attempts brought, and what of it was passed on. */
  function Brought(r: Round, n: nat): seq<ProviderEvent> {
    if n == 0 then [] else Brought(r, n - 1) + Sound(r.attempts(n - 1).events)
  }

  function PassedOn(r: Round, n: nat, cfg: Config): seq<StreamEvent> {
    if n == 0 then []
    else
      var a := r.attempts(n - 1);
      PassedOn(r, n - 1, cfg) + ForwardAll(Sound(a.events))
      + if MakesRoom(r, n - 1, cfg) && a.ending.recovery.status then [StreamEvent(Other, None)] else []
  }

  lemma {:induction false} SoundIsTaken(s: Stream, events: seq<ProviderEvent>)
    requires s.end.Streaming?
    ensures TakeEvents(s, events) ==
      Stream(ObserveAll(s.c, Sound(events)), s.emitted + ForwardAll(Sound(events)),
             if Sound(events) == events then Streaming else Broken, s.attempts)
    decreases |events|
  {
    if events == [] || Invalid(events[0]) {
      assert s.emitted + [] == s.emitted;
    } else {
      var e, rest := events[0], Sound(events[1..]);
      assert Sound(events) == [e] + rest && ([e] + rest)[1..] == rest;
      assert events == [e] + events[1..];
      hide Forward, Observe;
      SoundIsTaken(s.(c := Observe(s.c, e), emitted := s.emitted + Forward(e)), events[1..]);
      assert (s.emitted + Forward(e)) + ForwardAll(rest) == s.emitted + (Forward(e) + ForwardAll(rest));
    }
  }

  lemma {:induction false} ObserveAllConcat(c: Collector, x: seq<ProviderEvent>, y: seq<ProviderEvent>)
    ensures ObserveAll(c, x + y) == ObserveAll(ObserveAll(c, x), y)
    decreases |x|
  {
    hide Observe;
    if x == [] {
      assert x + y == y;
    } else {
      assert (x + y)[1..] == x[1..] + y;
      ObserveAllConcat(Observe(c, x[0]), x[1..], y);
    }
  }

  lemma {:induction false} UsageIsSound(events: seq<ProviderEvent>)
    requires OnlyUsage(events)
    ensures Sound(events) == events
  {
    if events != [] { UsageIsSound(events[1..]); }
  }

  /** The stream after `k` attempts that were each followed by another. */
  ghost predicate Asked(r: Round, k: nat, cfg: Config, s: Stream, transient: nat, recovered: bool) {
    && s == Stream(ObserveAll(EMPTY, Brought(r, k)), PassedOn(r, k, cfg), Streaming, k)
    && transient == TransientBefore(r, k) && recovered == OverflowBefore(r, k)
    && forall j: nat :: j < k ==> Again(r, j, cfg)
  }

  /** What the stream has come to after its last attempt. */
  ghost predicate CameTo(r: Round, cfg: Config, t: Stream) {
    && t.attempts >= 1 && (forall j: nat :: j < t.attempts - 1 ==> Again(r, j, cfg)) && !Again(r, t.attempts - 1, cfg)
    && t.c == ObserveAll(EMPTY, Brought(r, t.attempts)) && t.emitted == PassedOn(r, t.attempts, cfg)
    && var last := r.attempts(t.attempts - 1);
       t.end == if Sound(last.events) == last.events && last.ending.Ends? then Through
                else if Sound(last.events) == last.events && last.ending.Interrupted? then Cut
                else Broken
  }

  /** One attempt of the loop: what is taken of it, and where it leads. */
  lemma {:induction false} AttemptIs(r: Round, cfg: Config, s: Stream, transient: nat, recovered: bool)
    requires s.end.Streaming? && transient <= 2
    ensures var a, t := r.attempts(s.attempts), Attempts(r, cfg, s, transient, recovered);
            var whole := Sound(a.events) == a.events;
            var v := Stream(ObserveAll(s.c, Sound(a.events)), s.emitted + ForwardAll(Sound(a.events)), Streaming, s.attempts + 1);
            var room := cfg.manager && OnlyUsage(a.events) && !recovered && cfg.retry;
            if !whole then t == v.(end := Broken)
            else
              match a.ending
              case Ends => t == v.(end := Through)
              case Interrupted => t == v.(end := Cut)
              case Overflows(recovery) =>
                var w := v.(emitted := v.emitted + StatusIf(recovery.status));
                if room && recovery.Recovered? then t == Attempts(r, cfg, w, transient, true)
                else if room then t == w.(end := Broken)
                else t == v.(end := Broken)
              case Errs(retryable) =>
                if cfg.retry && retryable && OnlyUsage(a.events) && transient < 2
                then t == Attempts(r, cfg, v, transient + 1, recovered)
                else t == v.(end := Broken)
  {
    SoundIsTaken(s, r.attempts(s.attempts).events);
    hide TakeEvents, Sound, ForwardAll, ObserveAll, OnlyUsage, StatusIf;
  }

  /** What one attempt more brought, and what of it was passed on. */
  lemma {:induction false} NextIs(r: Round, k: nat, cfg: Config)
    ensures var a := r.attempts(k);
            && ObserveAll(EMPTY, Brought(r, k + 1)) == ObserveAll(ObserveAll(EMPTY, Brought(r, k)), Sound(a.events))
            && PassedOn(r, k + 1, cfg)
               == PassedOn(r, k, cfg) + ForwardAll(Sound(a.events))
                  + (if MakesRoom(r, k, cfg) then StatusIf(a.ending.recovery.status) else [])
            && (!MakesRoom(r, k, cfg) ==> PassedOn(r, k + 1, cfg) == PassedOn(r, k, cfg) + ForwardAll(Sound(a.events)))
            && TransientBefore(r, k + 1) == TransientBefore(r, k) + (if a.ending.Errs? then 1 else 0)
            && OverflowBefore(r, k + 1) == (a.ending.Overflows? || OverflowBefore(r, k))
  {
    var a := r.attempts(k);
    hide Observe, Sound, Forward, MakesRoom;
    ObserveAllConcat(EMPTY, Brought(r, k), Sound(a.events));
    assert PassedOn(r, k, cfg) + ForwardAll(Sound(a.events)) + [] == PassedOn(r, k, cfg) + ForwardAll(Sound(a.events));
  }

  lemma {:induction false} AgainIs(r: Round, k: nat, cfg: Config)
    ensures var a := r.attempts(k);
            && (MakesRoom(r, k, cfg) <==> a.ending.Overflows? && cfg.manager && OnlyUsage(a.events) && !OverflowBefore(r, k) && cfg.retry)
            && (Again(r, k, cfg) <==>
                  || (MakesRoom(r, k, cfg) && a.ending.recovery.Recovered?)
                  || (a.ending.Errs? && cfg.retry && a.ending.retryable && OnlyUsage(a.events) && TransientBefore(r, k) < 2))
            && (OnlyUsage(a.events) ==> Sound(a.events) == a.events)
  {
    if OnlyUsage(r.attempts(k).events) { UsageIsSound(r.attempts(k).events); }
    hide Sound, TransientBefore, OverflowBefore;
  }

  lemma AskedIs(r: Round, k: nat, cfg: Config, s: Stream, transient: nat, recovered: bool)
    ensures Asked(r, k, cfg, s, transient, recovered) <==>
      && s == Stream(ObserveAll(EMPTY, Brought(r, k)), PassedOn(r, k, cfg), Streaming, k)
      && transient == TransientBefore(r, k) && recovered == OverflowBefore(r, k)
      && forall j: nat :: j < k ==> Again(r, j, cfg)
  {
    hide Again, ObserveAll, Brought, PassedOn, TransientBefore, OverflowBefore;
  }

  lemma CameToIs(r: Round, cfg: Config, t: Stream, k: nat)
    requires t.attempts == k + 1 && (forall j: nat :: j < k ==> Again(r, j, cfg)) && !Again(r, k, cfg)
    requires t.c == ObserveAll(EMPTY, Brought(r, k + 1)) && t.emitted == PassedOn(r, k + 1, cfg)
    requires var last := r.attempts(k);
             t.end == if Sound(last.events) == last.events && last.ending.Ends? then Through
                      else if Sound(last.events) == last.events && last.ending.Interrupted? then Cut
                      else Broken
    ensures CameTo(r, cfg, t)
  {
    hide Again, ObserveAll, Brought, PassedOn, Sound;
  }

  /** One attempt more. */
  lemma {:induction false} OneAttempt(r: Round, cfg: Config, s: Stream, transient: nat, recovered: bool)
    requires transient <= 2 && Asked(r, s.attempts, cfg, s, transient, recovered)
    ensures var k, t := s.attempts, Attempts(r, cfg, s, transient, recovered);
            var u := Stream(ObserveAll(EMPTY, Brought(r, k + 1)), PassedOn(r, k + 1, cfg), Streaming, k + 1);
            var overflow := r.attempts(k).ending.Overflows?;
            if Again(r, k, cfg)
            then (if overflow then !recovered else transient < 2)
                 && Asked(r, k + 1, cfg, u, if overflow then transient else transient + 1, overflow || recovered)
                 && t == Attempts(r, cfg, u, if overflow then transient else transient + 1, overflow || recovered)
            else CameTo(r, cfg, t)
  {
    hide *;
    var k := s.attempts;
    AskedIs(r, k, cfg, s, transient, recovered);
    var t := Attempts(r, cfg, s, transient, recovered);
    AttemptIs(r, cfg, s, transient, recovered);
    NextIs(r, k, cfg);
    AgainIs(r, k, cfg);
    if Again(r, k, cfg) {
      var u := Stream(ObserveAll(EMPTY, Brought(r, k + 1)), PassedOn(r, k + 1, cfg), Streaming, k + 1);
      var overflow := r.attempts(k).ending.Overflows?;
      AskedIs(r, k + 1, cfg, u, if overflow then transient else transient + 1, overflow || recovered);
    } else {
      CameToIs(r, cfg, t, k);
    }
  }

  lemma {:induction false} AttemptsAre(r: Round, cfg: Config, s: Stream, transient: nat, recovered: bool)
    requires transient <= 2 && Asked(r, s.attempts, cfg, s, transient, recovered)
    ensures CameTo(r, cfg, Attempts(r, cfg, s, transient, recovered))
    decreases 2 - transient, if recovered then 0 else 1
  {
    hide *;
    var k := s.attempts;
    OneAttempt(r, cfg, s, transient, recovered);
    if Again(r, k, cfg) {
      var overflow := r.attempts(k).ending.Overflows?;
      AttemptsAre(r, cfg, Stream(ObserveAll(EMPTY, Brought(r, k + 1)), PassedOn(r, k + 1, cfg), Streaming, k + 1),
                  if overflow then transient else transient + 1, overflow || recovered);
    }
  }

  /** How often the provider is asked, how the stream ends, and what comes of it, read off the attempts: another one follows
      exactly as `Again` says, the last one decides, and everything sound they brought is collected and passed on. */
  lemma {:induction false} StreamIsReadOff(r: Round, cfg: Config)
    ensures CameTo(r, cfg, Respond(r, cfg))
    ensures Respond(r, cfg).c.completed <==> exists e :: e in Brought(r, Respond(r, cfg).attempts) && e.kind.Done?
  {
    AttemptsAre(r, cfg, Stream(EMPTY, [], Streaming, 0), 0, false);
    CompletedIff(EMPTY, Brought(r, Respond(r, cfg).attempts));
    hide Attempts, Again, Brought, PassedOn, Sound;
  }

  lemma {:induction false} CompletedIff(c: Collector, events: seq<ProviderEvent>)
    ensures ObserveAll(c, events).completed <==> c.completed || exists e :: e in events && e.kind.Done?
    decreases |events|
  {
    if events != [] {
      CompletedIff(Observe(c, events[0]), events[1..]);
      assert events == [events[0]] + events[1..];
    }
  }

  // ---- the loop ----

  /** What raises out of the loop: a cancelled preparation, a response whose states are of different
      protocols, or a tool that cannot store its output. */
  datatype Cause = PreparationCancelled | MixedProtocols | StorageLost

  datatype LoopEnd = Ongoing | Concluded | Halted | Escaped(cause: Cause)

  /** The loop's variables, the events passed on, and how many of them were strays of the provider. */
  datatype State = State(
    events: seq<StreamEvent>, history: seq<Message>, unknown: nat, hadResults: bool, end: LoopEnd, strays: nat)

  predicate Terminal(e: StreamEvent) {
    e.kind.Finished? || e.kind.Stopped?
  }

  function Terminals(events: seq<StreamEvent>): nat {
    if events == [] then 0
    else Terminals(events[..|events| - 1]) + if Terminal(events[|events| - 1]) then 1 else 0
  }

  function Emit(s: State, events: seq<StreamEvent>): State {
    s.(events := s.events + events)
  }

  function Halt(s: State, reason: string): State {
    s.(events := s.events + [Plainly(Stopped(reason))], end := Halted)
  }

  function Conclude(s: State): State {
    s.(events := s.events + [Plainly(Finished)], end := Concluded)
  }

  /** Preparation and the model's response. */
  function AskModel(s: State, r: Round, cfg: Config): State {
    var begun := Emit(s, [Plainly(ModelPhase)]);
    match r.preparation
    case OverLimit => Halt(Emit(begun, [Plainly(Other)]), "Agent stopped because context cannot be sent safely.")
    case Unprepared => Halt(begun, "Agent stopped because context preparation failed.")
    case Cancels => begun.(end := Escaped(PreparationCancelled))
    case Ready(status) =>
      var t := Respond(r, cfg);
      var heard := Emit(Emit(begun, StatusIf(status)), t.emitted).(strays := s.strays + Terminals(t.emitted));
      if t.end.Cut? then Halt(heard, "Agent cancelled.")
      else if t.end.Broken? then Halt(heard, "Agent stopped because the provider stream failed.")
      else if !t.c.completed then Halt(heard, "Agent stopped because the provider stream ended unexpectedly.")
      else heard
  }

  function AnsweredAll(results: seq<CallResult>): (r: seq<StreamEvent>)
    ensures |r| == |results|
  {
    seq(|results|, i requires 0 <= i < |results| => Plainly(Answered(results[i])))
  }

  function RunCalls(s: State, c: Collector, n: nat, r: Round, cfg: Config): State {
    var t := RunTools(c.calls, s.unknown, r.tools, cfg);
    var asked := s.(history := s.history + [Message(FromAssistant, c.text, c.calls, [], Merged(c.states))]);
    var told := Emit(Emit(asked, [Plainly(ToolsPhase)]), AnsweredAll(t.results));
    var answered := told.(history := told.history + [ResultsMessage(t.results)], unknown := t.unknown, hadResults := true);
    match t.end
    case ToolsCancelled => Halt(answered, "Agent cancelled.")
    case TooManyUnknown => Halt(answered, "Agent stopped after two consecutive unknown tool calls.")
    case AllRun =>
      if r.finish.Some? && !cfg.blank(r.finish.value) then
        Conclude(Emit(answered, [Plainly(ModelPhase), Plainly(TextDelta(cfg.strip(r.finish.value)))]))
      else if n == cfg.maxIterations then Halt(answered, "Agent stopped after reaching the safety limit.")
      else answered
    case _ => told.(end := Escaped(StorageLost))
  }

  function RoundStep(s: State, n: nat, r: Round, cfg: Config): State {
    if r.cancelled then Halt(s, "Agent cancelled.")
    else
      var heard := AskModel(s, r, cfg);
      var c := Respond(r, cfg).c;
      if !heard.end.Ongoing? then heard
      else if c.calls == [] then
        Conclude(Emit(heard, if s.hadResults && cfg.blank(c.text) then [Plainly(TextDelta(MISSING_FINAL_RESPONSE))] else []))
      else if !SameProtocol(c.states) then heard.(end := Escaped(MixedProtocols))
      else RunCalls(heard, c, n, r, cfg)
  }

  function Loop(s: State, n: nat, cfg: Config, rounds: nat -> Round): State
    decreases cfg.maxIterations + 1 - n
  {
    if !s.end.Ongoing? || cfg.maxIterations < n then s
    else Loop(RoundStep(s, n, rounds(n), cfg), n + 1, cfg, rounds)
  }

  function Start(messages: seq<Message>): State {
    State([], messages, 0, false, Ongoing, 0)
  }

  method RunLoop(messages: seq<Message>, cfg: Config, rounds: nat -> Round) returns (s: State)
    requires 1 <= cfg.maxIterations
    ensures s == Loop(Start(messages), 1, cfg, rounds)
  {
    hide RoundStep;
    s := Start(messages);
    var n := 1;
    while n <= cfg.maxIterations && s.end.Ongoing?
      invariant 1 <= n && Loop(s, n, cfg, rounds) == Loop(Start(messages), 1, cfg, rounds)
      decreases cfg.maxIterations + 1 - n
    {
      s := OneRound(s, n, rounds(n), cfg);
      n := n + 1;
    }
  }

  method OneRound(s: State, n: nat, r: Round, cfg: Config) returns (u: State)
    ensures u == RoundStep(s, n, r, cfg)
  {
    hide RunCalls, Respond, Terminals;
    u := s;
    if r.cancelled {
      u := Halt(u, "Agent cancelled.");
      return;
    }
    u := Emit(u, [Plainly(ModelPhase)]);
    if r.preparation.OverLimit? {
      u := Halt(Emit(u, [Plainly(Other)]), "Agent stopped because context cannot be sent safely.");
      return;
    }
    if r.preparation.Unprepared? {
      u := Halt(u, "Agent stopped because context preparation failed.");
      return;
    }
    if r.preparation.Cancels? {
      u := u.(end := Escaped(PreparationCancelled));
      return;
    }
    u := Emit(u, StatusIf(r.preparation.status));
    var t := StreamWithRetries(r, cfg);
    u := Emit(u, t.emitted).(strays := s.strays + Terminals(t.emitted));
    if t.end.Cut? {
      u := Halt(u, "Agent cancelled.");
    } else if t.end.Broken? {
      u := Halt(u, "Agent stopped because the provider stream failed.");
    } else if !t.c.completed {
      u := Halt(u, "Agent stopped because the provider stream ended unexpectedly.");
    }
    if !u.end.Ongoing? {
      return;
    }
    if t.c.calls == [] {
      if s.hadResults && cfg.blank(t.c.text) {
        u := Emit(u, [Plainly(TextDelta(MISSING_FINAL_RESPONSE))]);
      } else {
        u := Emit(u, []);
      }
      u := Conclude(u);
    } else if !SameProtocol(t.c.states) {
      u := u.(end := Escaped(MixedProtocols));
    } else {
      u := CallTools(u, t.c, n, r, cfg);
    }
  }

  method CallTools(s: State, c: Collector, n: nat, r: Round, cfg: Config) returns (u: State)
    ensures u == RunCalls(s, c, n, r, cfg)
  {
    hide RunTools;
    u := s.(history := s.history + [Message(FromAssistant, c.text, c.calls, [], Merged(c.states))]);
    u := Emit(u, [Plainly(ToolsPhase)]);
    var t := ToolPhase(c.calls, s.unknown, r.tools, cfg);
    u := Emit(u, AnsweredAll(t.results));
    if t.end.Lost? || t.end.Working? {
      u := u.(end := Escaped(StorageLost));
      return;
    }
    u := u.(history := u.history + [ResultsMessage(t.results)], unknown := t.unknown, hadResults := true);
    if t.end.ToolsCancelled? {
      u := Halt(u, "Agent cancelled.");
    } else if t.end.TooManyUnknown? {
      u := Halt(u, "Agent stopped after two consecutive unknown tool calls.");
    } else if r.finish.Some? && !cfg.blank(r.finish.value) {
      u := Conclude(Emit(u, [Plainly(ModelPhase), Plainly(TextDelta(cfg.strip(r.finish.value)))]));
    } else if n == cfg.maxIterations {
      u := Halt(u, "Agent stopped after reaching the safety limit.");
    }
  }

  // ---- one terminal event, at the end ----

  lemma {:induction false} TerminalsConcat(x: seq<StreamEvent>, y: seq<StreamEvent>)
    ensures Terminals(x + y) == Terminals(x) + Terminals(y)
  {
    if y == [] {
      assert x + y == x;
    } else {
      assert (x + y)[..|x + y| - 1] == x + y[..|y| - 1];
      TerminalsConcat(x, y[..|y| - 1]);
    }
  }

  lemma {:induction false} NoTerminals(events: seq<StreamEvent>)
    requires forall e :: e in events ==> !Terminal(e)
    ensures Terminals(events) == 0
  {
    if events != [] { NoTerminals(events[..|events| - 1]); }
  }

  /** The count of terminal events, and where the last one stands. */
  ghost predicate TerminalsInv(s: State) {
    && Terminals(s.events) == s.strays + (if s.end.Concluded? || s.end.Halted? then 1 else 0)
    && (s.end.Concluded? || s.end.Halted? ==> s.events != [] && Terminal(s.events[|s.events| - 1]))
    && (s.end.Concluded? ==> s.events[|s.events| - 1].kind.Finished?)
  }

  lemma {:induction false} EmitKeeps(s: State, events: seq<StreamEvent>)
    requires TerminalsInv(s) && s.end.Ongoing? && forall e :: e in events ==> !Terminal(e)
    ensures TerminalsInv(Emit(s, events))
  {
    TerminalsConcat(s.events, events);
    NoTerminals(events);
  }

  lemma {:induction false} EndingKeeps(s: State, reason: string)
    requires TerminalsInv(s) && s.end.Ongoing?
    ensures TerminalsInv(Halt(s, reason)) && TerminalsInv(Conclude(s))
  {
    var stop, finish := [Plainly(Stopped(reason))], [Plainly(Finished)];
    TerminalsConcat(s.events, stop);
    TerminalsConcat(s.events, finish);
    assert stop[..0] == [] && finish[..0] == [];
  }

  lemma {:induction false} AskKeeps(s: State, r: Round, cfg: Config)
    requires TerminalsInv(s) && s.end.Ongoing?
    ensures TerminalsInv(AskModel(s, r, cfg))
  {
    hide TerminalsInv, Respond;
    var begun := Emit(s, [Plainly(ModelPhase)]);
    EmitKeeps(s, [Plainly(ModelPhase)]);
    match r.preparation
    case OverLimit =>
      EmitKeeps(begun, [Plainly(Other)]);
      EndingKeeps(Emit(begun, [Plainly(Other)]), "Agent stopped because context cannot be sent safely.");
    case Unprepared => EndingKeeps(begun, "Agent stopped because context preparation failed.");
    case Cancels => SameTerminals(begun, begun.(end := Escaped(PreparationCancelled)));
    case Ready(status) =>
      var t := Respond(r, cfg);
      var ready := Emit(begun, StatusIf(status));
      EmitKeeps(begun, StatusIf(status));
      HearKeeps(ready, t.emitted);
      var heard := Emit(ready, t.emitted).(strays := s.strays + Terminals(t.emitted));
      hide Terminals;
      EndingKeeps(heard, "Agent cancelled.");
      EndingKeeps(heard, "Agent stopped because the provider stream failed.");
      EndingKeeps(heard, "Agent stopped because the provider stream ended unexpectedly.");
  }

  lemma {:induction false} HearKeeps(s: State, emitted: seq<StreamEvent>)
    requires TerminalsInv(s) && s.end.Ongoing?
    ensures TerminalsInv(Emit(s, emitted).(strays := s.strays + Terminals(emitted)))
  {
    TerminalsConcat(s.events, emitted);
  }

  lemma {:induction false} CallsKeep(s: State, c: Collector, n: nat, r: Round, cfg: Config)
    requires TerminalsInv(s) && s.end.Ongoing?
    ensures TerminalsInv(RunCalls(s, c, n, r, cfg))
  {
    hide TerminalsInv, RunTools, Merged;
    var t := RunTools(c.calls, s.unknown, r.tools, cfg);
    var asked := s.(history := s.history + [Message(FromAssistant, c.text, c.calls, [], Merged(c.states))]);
    var phase, answers := [Plainly(ToolsPhase)], AnsweredAll(t.results);
    SameTerminals(s, asked);
    EmitKeeps(asked, phase);
    EmitKeeps(Emit(asked, phase), answers);
    var told := Emit(Emit(asked, phase), answers);
    var answered := told.(history := told.history + [ResultsMessage(t.results)], unknown := t.unknown, hadResults := true);
    SameTerminals(told, answered);
    SameTerminals(told, told.(end := Escaped(StorageLost)));
    EndingKeeps(answered, "Agent cancelled.");
    EndingKeeps(answered, "Agent stopped after two consecutive unknown tool calls.");
    EndingKeeps(answered, "Agent stopped after reaching the safety limit.");
    if r.finish.Some? {
      var final := [Plainly(ModelPhase), Plainly(TextDelta(cfg.strip(r.finish.value)))];
      EmitKeeps(answered, final);
      EndingKeeps(Emit(answered, final), "");
    }
  }

  lemma {:induction false} SameTerminals(s: State, u: State)
    requires TerminalsInv(s) && s.end.Ongoing? && u.events == s.events && u.strays == s.strays
    requires u.end.Ongoing? || u.end.Escaped?
    ensures TerminalsInv(u)
  {
  }

  lemma {:induction false} RoundKeeps(s: State, n: nat, r: Round, cfg: Config)
    requires TerminalsInv(s) && s.end.Ongoing?
    ensures TerminalsInv(RoundStep(s, n, r, cfg))
  {
    hide TerminalsInv, AskModel, RunCalls, Respond;
    AskKeeps(s, r, cfg);
    EndingKeeps(s, "Agent cancelled.");
    var heard, c := AskModel(s, r, cfg), Respond(r, cfg).c;
    if !r.cancelled && heard.end.Ongoing? {
      var closing := if s.hadResults && cfg.blank(c.text) then [Plainly(TextDelta(MISSING_FINAL_RESPONSE))] else [];
      EmitKeeps(heard, closing);
      EndingKeeps(Emit(heard, closing), "");
      SameTerminals(heard, heard.(end := Escaped(MixedProtocols)));
      CallsKeep(heard, c, n, r, cfg);
    }
  }

  lemma {:induction false} LoopKeeps(s: State, n: nat, cfg: Config, rounds: nat -> Round)
    requires TerminalsInv(s) && (s.end.Ongoing? ==> n <= cfg.maxIterations)
    ensures var u := Loop(s, n, cfg, rounds); TerminalsInv(u) && !u.end.Ongoing?
    decreases cfg.maxIterations + 1 - n
  {
    hide TerminalsInv, RoundStep;
    if s.end.Ongoing? {
      var u := RoundStep(s, n, rounds(n), cfg);
      RoundKeeps(s, n, rounds(n), cfg);
      LastRoundEnds(s, n, rounds(n), cfg);
      if n < cfg.maxIterations {
        LoopKeeps(u, n + 1, cfg, rounds);
      }
    }
  }

  /** Rounds beyond the limit are never asked for. */
  lemma {:induction false} LoopStaysWithinLimit(s: State, n: nat, cfg: Config, rounds: nat -> Round, others: nat -> Round)
    requires forall k :: n <= k <= cfg.maxIterations ==> rounds(k) == others(k)
    ensures Loop(s, n, cfg, rounds) == Loop(s, n, cfg, others)
    decreases cfg.maxIterations + 1 - n
  {
    hide RoundStep;
    if s.end.Ongoing? && n <= cfg.maxIterations {
      var u := RoundStep(s, n, rounds(n), cfg);
      LoopStaysWithinLimit(u, n + 1, cfg, rounds, others);
    }
  }

  lemma {:induction false} LastRoundEnds(s: State, n: nat, r: Round, cfg: Config)
    ensures n == cfg.maxIterations ==> !RoundStep(s, n, r, cfg).end.Ongoing?
  {
    hide AskModel, RunTools, Respond, Merged, AnsweredAll, SameProtocol;
  }

  lemma {:induction false} StreamEnds(messages: seq<Message>, cfg: Config, rounds: nat -> Round)
    requires 1 <= cfg.maxIterations
    ensures var s := Loop(Start(messages), 1, cfg, rounds);
            && !s.end.Ongoing?
            && (!s.end.Escaped? ==> s.events != [] && Terminal(s.events[|s.events| - 1]))
            && Terminals(s.events) == s.strays + if s.end.Escaped? then 0 else 1
  {
    LoopKeeps(Start(messages), 1, cfg, rounds);
  }

  /** No error or cancellation among the events, as far as they are looked at: an invalid call ends that. */
  predicate StrayFree(events: seq<ProviderEvent>) {
    events == [] || Invalid(events[0]) || (!events[0].kind.Stray? && StrayFree(events[1..]))
  }

  /** Nor in any attempt this round makes. */
  ghost predicate AsksStrayFree(r: Round, cfg: Config) {
    forall k :: 0 <= k < Respond(r, cfg).attempts ==> StrayFree(r.attempts(k).events)
  }

  /** The round asks the provider. */
  predicate Asks(r: Round) {
    !r.cancelled && r.preparation.Ready?
  }

  /** Round `k` is begun by a loop that stands before round `n`. */
  ghost predicate Reached(s: State, n: nat, k: nat, cfg: Config, rounds: nat -> Round)
    decreases cfg.maxIterations + 1 - n
  {
    s.end.Ongoing? && n <= cfg.maxIterations &&
    (k == n || Reached(RoundStep(s, n, rounds(n), cfg), n + 1, k, cfg, rounds))
  }

  // ---- when an error escapes ----

  /** The round brings a whole response that calls tools. */
  predicate AnnouncesCalls(r: Round, cfg: Config) {
    var t := Respond(r, cfg);
    Asks(r) && t.end.Through? && t.c.completed && t.c.calls != []
  }

  /** What of a round raises out of the loop, if anything: `carry` unknown names came last before it. */
  function Escape(carry: nat, r: Round, cfg: Config): Option<Cause> {
    if r.cancelled then None
    else if r.preparation.Cancels? then Some(PreparationCancelled)
    else if !AnnouncesCalls(r, cfg) then None
    else if !SameProtocol(Respond(r, cfg).c.states) then Some(MixedProtocols)
    else if Loses(Respond(r, cfg).c.calls, false, carry, r.tools, cfg) then Some(StorageLost)
    else None
  }

  /** One if the last call of the round before was of an unknown name. */
  function Carry(n: nat, cfg: Config, rounds: nat -> Round): nat {
    if n <= 1 then 0
    else
      var calls := Respond(rounds(n - 1), cfg).c.calls;
      if calls == [] || cfg.known(calls[|calls| - 1].name) then 0 else 1
  }

  /** A round the loop begins raises this. */
  ghost predicate EscapesBy(messages: seq<Message>, cause: Cause, cfg: Config, rounds: nat -> Round) {
    exists k: nat :: Reached(Start(messages), 1, k, cfg, rounds) && Escape(Carry(k, cfg, rounds), rounds(k), cfg) == Some(cause)
  }

  ghost predicate Escapes(messages: seq<Message>, cfg: Config, rounds: nat -> Round) {
    exists cause :: EscapesBy(messages, cause, cfg, rounds)
  }

  lemma {:induction false} CallsEscape(s: State, c: Collector, n: nat, r: Round, cfg: Config)
    requires s.end.Ongoing? && c.calls != []
    ensures var u := RunCalls(s, c, n, r, cfg);
            && (u.end.Escaped? <==> Loses(c.calls, false, s.unknown, r.tools, cfg))
            && (u.end.Escaped? ==> u.end.cause.StorageLost?)
            && (u.end.Ongoing? ==> u.unknown == if cfg.known(c.calls[|c.calls| - 1].name) then 0 else 1)
  {
    LostIff(c.calls, s.unknown, r.tools, cfg);
    hide RunTools, Loses, Merged, AnsweredAll;
  }

  lemma {:induction false} RoundEscapes(s: State, n: nat, r: Round, cfg: Config)
    requires s.end.Ongoing?
    ensures var u := RoundStep(s, n, r, cfg);
            && (forall cause :: u.end == Escaped(cause) <==> Escape(s.unknown, r, cfg) == Some(cause))
            && (u.end.Ongoing? ==>
                  var calls := Respond(r, cfg).c.calls;
                  calls != [] && u.unknown == if cfg.known(calls[|calls| - 1].name) then 0 else 1)
  {
    hide AskModel, RunCalls, Respond, SameProtocol, Loses;
    AskEnds(s, r, cfg);
    var heard, c := AskModel(s, r, cfg), Respond(r, cfg).c;
    if !r.cancelled && heard.end.Ongoing? && c.calls != [] {
      CallsEscape(heard, c, n, r, cfg);
    }
  }

  lemma {:induction false} LoopEscapes(s: State, n: nat, cfg: Config, rounds: nat -> Round, cause: Cause)
    requires 1 <= n && s.end.Ongoing? && s.unknown == Carry(n, cfg, rounds)
    ensures Loop(s, n, cfg, rounds).end == Escaped(cause)
       <==> exists k: nat :: Reached(s, n, k, cfg, rounds) && Escape(Carry(k, cfg, rounds), rounds(k), cfg) == Some(cause)
    decreases cfg.maxIterations + 1 - n
  {
    hide RoundStep, Escape, Respond;
    if n <= cfg.maxIterations {
      var v := RoundStep(s, n, rounds(n), cfg);
      RoundEscapes(s, n, rounds(n), cfg);
      assert Reached(s, n, n, cfg, rounds);
      assert forall k: nat :: Reached(v, n + 1, k, cfg, rounds) ==> Reached(s, n, k, cfg, rounds);
      assert forall k: nat :: Reached(s, n, k, cfg, rounds) ==> k == n || Reached(v, n + 1, k, cfg, rounds);
      if v.end.Ongoing? {
        LoopEscapes(v, n + 1, cfg, rounds, cause);
        hide Reached;
      } else {
        EndedStays(v, n + 1, cfg, rounds);
      }
    }
  }

  lemma {:induction false} EndedStays(s: State, n: nat, cfg: Config, rounds: nat -> Round)
    requires !s.end.Ongoing?
    ensures Loop(s, n, cfg, rounds) == s
    ensures forall k :: !Reached(s, n, k, cfg, rounds)
  {
  }

  /** An error escapes from a run exactly if one of the rounds it begins has its preparation cancelled,
      brings calls with states of different protocols, or meets a tool that cannot store its output before
      its tools stop; and that is the error. */
  lemma {:induction false} EscapesIff(messages: seq<Message>, cfg: Config, rounds: nat -> Round)
    requires 1 <= cfg.maxIterations
    ensures var s := Loop(Start(messages), 1, cfg, rounds);
            && (s.end.Escaped? <==> Escapes(messages, cfg, rounds))
            && (forall cause :: s.end == Escaped(cause) <==> EscapesBy(messages, cause, cfg, rounds))
  {
    hide Loop, Reached, Escape;
    forall cause ensures Loop(Start(messages), 1, cfg, rounds).end == Escaped(cause) <==> EscapesBy(messages, cause, cfg, rounds) {
      LoopEscapes(Start(messages), 1, cfg, rounds, cause);
    }
  }

  lemma {:induction false} TakeCountsStrays(s: Stream, events: seq<ProviderEvent>)
    requires s.end.Streaming?
    ensures var u := TakeEvents(s, events);
            && Terminals(s.emitted) <= Terminals(u.emitted)
            && (Terminals(s.emitted) == Terminals(u.emitted) <==> StrayFree(events))
            && u.attempts == s.attempts
    decreases |events|
  {
    if events != [] && !Invalid(events[0]) {
      var told := Forward(events[0]);
      TerminalsConcat(s.emitted, told);
      assert told != [] ==> told[..0] == [] && told == [told[0]];
      assert Terminals(told) == if events[0].kind.Stray? then 1 else 0;
      hide Terminals, Forward, Observe;
      TakeCountsStrays(s.(c := Observe(s.c, events[0]), emitted := s.emitted + told), events[1..]);
    }
  }

  lemma {:induction false} AttemptsCountStrays(r: Round, cfg: Config, s: Stream, transient: nat, recovered: bool)
    requires s.end.Streaming? && transient <= 2
    ensures var u := Attempts(r, cfg, s, transient, recovered);
            && Terminals(s.emitted) <= Terminals(u.emitted) && s.attempts < u.attempts
            && (Terminals(s.emitted) == Terminals(u.emitted) <==>
                  forall k :: s.attempts <= k < u.attempts ==> StrayFree(r.attempts(k).events))
    decreases 2 - transient, if recovered then 0 else 1
  {
    hide Terminals, TakeEvents, StrayFree, OnlyUsage;
    var a := r.attempts(s.attempts);
    TakeCountsStrays(s, a.events);
    var t := TakeEvents(s, a.events).(attempts := s.attempts + 1);
    if t.end.Streaming? && a.ending.Overflows? {
      var u := t.(emitted := t.emitted + StatusIf(a.ending.recovery.status));
      StatusIsNoTerminal(t.emitted, a.ending.recovery.status);
      if a.ending.recovery.Recovered? && cfg.manager && OnlyUsage(a.events) && !recovered && cfg.retry {
        AttemptsCountStrays(r, cfg, u, transient, true);
      }
    } else if t.end.Streaming? && a.ending.Errs? {
      if cfg.retry && a.ending.retryable && OnlyUsage(a.events) && transient < 2 {
        AttemptsCountStrays(r, cfg, t, transient + 1, recovered);
      }
    }
  }

  lemma {:induction false} StatusIsNoTerminal(emitted: seq<StreamEvent>, status: bool)
    ensures Terminals(emitted + StatusIf(status)) == Terminals(emitted)
  {
    TerminalsConcat(emitted, StatusIf(status));
    NoTerminals(StatusIf(status));
  }

  lemma {:induction false} RespondCountsStrays(r: Round, cfg: Config)
    ensures Terminals(Respond(r, cfg).emitted) == 0 <==> AsksStrayFree(r, cfg)
  {
    hide Attempts, StrayFree;
    AttemptsCountStrays(r, cfg, Stream(EMPTY, [], Streaming, 0), 0, false);
  }

  lemma {:induction false} RoundCountsStrays(s: State, n: nat, r: Round, cfg: Config)
    ensures var u := RoundStep(s, n, r, cfg);
            && s.strays <= u.strays
            && (s.strays == u.strays <==> (Asks(r) ==> AsksStrayFree(r, cfg)))
  {
    hide Respond, Terminals, AsksStrayFree, RunCalls, SameProtocol, AskModel;
    RespondCountsStrays(r, cfg);
    AskCountsStrays(s, r, cfg);
    var heard := AskModel(s, r, cfg);
    CallsLeaveStrays(heard, Respond(r, cfg).c, n, r, cfg);
  }

  lemma {:induction false} AskCountsStrays(s: State, r: Round, cfg: Config)
    ensures AskModel(s, r, cfg).strays
         == s.strays + if r.preparation.Ready? then Terminals(Respond(r, cfg).emitted) else 0
  {
    hide Respond, Terminals, StatusIf, Plainly;
    if r.preparation.Ready? {
      return;
    }
  }

  lemma {:induction false} CallsLeaveStrays(s: State, c: Collector, n: nat, r: Round, cfg: Config)
    ensures RunCalls(s, c, n, r, cfg).strays == s.strays
  {
    hide RunTools, Merged, AnsweredAll;
  }

  lemma {:induction false} LoopCountsStrays(s: State, n: nat, cfg: Config, rounds: nat -> Round)
    ensures var u := Loop(s, n, cfg, rounds);
            && s.strays <= u.strays
            && (s.strays == u.strays <==>
                  forall k :: Reached(s, n, k, cfg, rounds) && Asks(rounds(k)) ==> AsksStrayFree(rounds(k), cfg))
    decreases cfg.maxIterations + 1 - n
  {
    hide RoundStep, AsksStrayFree, Asks;
    if s.end.Ongoing? && n <= cfg.maxIterations {
      var v := RoundStep(s, n, rounds(n), cfg);
      RoundCountsStrays(s, n, rounds(n), cfg);
      LoopCountsStrays(v, n + 1, cfg, rounds);
      assert Reached(s, n, n, cfg, rounds);
      assert forall k :: Reached(v, n + 1, k, cfg, rounds) ==> Reached(s, n, k, cfg, rounds);
      assert forall k :: Reached(s, n, k, cfg, rounds) ==> k == n || Reached(v, n + 1, k, cfg, rounds);
      hide Reached, Loop;
    }
  }

  /** No attempt the loop makes slips in an error or cancellation of its own. */
  ghost predicate RunStrayFree(messages: seq<Message>, cfg: Config, rounds: nat -> Round) {
    forall k :: Reached(Start(messages), 1, k, cfg, rounds) && Asks(rounds(k)) ==> AsksStrayFree(rounds(k), cfg)
  }

  /** The stream ends with a terminal event unless an error escapes. The terminal events are that one, or
      none, exactly if no attempt the loop makes slips in an error or cancellation of its own. */
  lemma {:induction false} StreamEndsOnce(messages: seq<Message>, cfg: Config, rounds: nat -> Round)
    requires 1 <= cfg.maxIterations
    ensures var s := Loop(Start(messages), 1, cfg, rounds);
            && !s.end.Ongoing?
            && (!Escapes(messages, cfg, rounds) ==> s.events != [] && Terminal(s.events[|s.events| - 1]))
            && (Terminals(s.events) == (if Escapes(messages, cfg, rounds) then 0 else 1) <==> RunStrayFree(messages, cfg, rounds))
  {
    hide Loop, Reached, AsksStrayFree, Asks, Terminals, Escapes;
    StreamEnds(messages, cfg, rounds);
    EscapesIff(messages, cfg, rounds);
    LoopCountsStrays(Start(messages), 1, cfg, rounds);
  }

  /** With providers that report errors by raising, as those of the repository do, there is one terminal
      event, at the end, or no terminal event at all; the latter exactly if an error escapes. */
  lemma {:induction false} OneTerminalEvent(messages: seq<Message>, cfg: Config, rounds: nat -> Round)
    requires 1 <= cfg.maxIterations
    requires forall k, j: nat, e :: e in rounds(k).attempts(j).events ==> !e.kind.Stray?
    ensures var s := Loop(Start(messages), 1, cfg, rounds);
            if Escapes(messages, cfg, rounds) then Terminals(s.events) == 0
            else s.events != [] && Terminal(s.events[|s.events| - 1]) && Terminals(s.events[..|s.events| - 1]) == 0
  {
    hide Loop, Reached, Escapes;
    StreamEndsOnce(messages, cfg, rounds);
    forall k: nat ensures AsksStrayFree(rounds(k), cfg) {
      hide Respond;
      forall j | 0 <= j < Respond(rounds(k), cfg).attempts ensures StrayFree(rounds(k).attempts(j).events) {
        NoStraysIsStrayFree(rounds(k).attempts(j).events);
      }
    }
  }

  lemma {:induction false} NoStraysIsStrayFree(events: seq<ProviderEvent>)
    requires forall e :: e in events ==> !e.kind.Stray?
    ensures StrayFree(events)
  {
    if events != [] { NoStraysIsStrayFree(events[1..]); }
  }

  // ---- a run, read off its script ----

  /** What a round leads to. */
  datatype Verdict = GoesOn | Concludes(said: Option<string>) | Stops(reason: string) | Raises(cause: Cause)

  /** The verdict on the `n`-th round; `carry` unknown names came last before it. */
  function VerdictOn(n: nat, r: Round, cfg: Config, carry: nat): Verdict {
    if r.cancelled then Stops("Agent cancelled.")
    else
      match r.preparation
      case OverLimit => Stops("Agent stopped because context cannot be sent safely.")
      case Unprepared => Stops("Agent stopped because context preparation failed.")
      case Cancels => Raises(PreparationCancelled)
      case Ready(_) => VerdictOnResponse(n, Respond(r, cfg), r, cfg, carry)
  }

  function VerdictOnResponse(n: nat, t: Stream, r: Round, cfg: Config, carry: nat): Verdict {
    if t.end.Cut? then Stops("Agent cancelled.")
    else if t.end.Broken? then Stops("Agent stopped because the provider stream failed.")
    else if !t.c.completed then Stops("Agent stopped because the provider stream ended unexpectedly.")
    else if t.c.calls == [] then
      Concludes(if n > 1 && cfg.blank(t.c.text)
                then Some(MISSING_FINAL_RESPONSE) else None)
    else if Mixes(t.c.states) then Raises(MixedProtocols)
    else
      match RunTools(t.c.calls, carry, r.tools, cfg).end
      case ToolsCancelled => Stops("Agent cancelled.")
      case TooManyUnknown => Stops("Agent stopped after two consecutive unknown tool calls.")
      case AllRun =>
        if r.finish.Some? && !cfg.blank(r.finish.value) then Concludes(Some(cfg.strip(r.finish.value)))
        else if n == cfg.maxIterations then Stops("Agent stopped after reaching the safety limit.")
        else GoesOn
      case _ => Raises(StorageLost)
  }

  /** The round's calls are carried out. */
  predicate CallsTools(r: Round, cfg: Config) {
    AnnouncesCalls(r, cfg) && !Mixes(Respond(r, cfg).c.states)
  }

  /** What is passed on of a round before its verdict. */
  function ToldOf(r: Round, cfg: Config, carry: nat): seq<StreamEvent> {
    if r.cancelled then []
    else
      [Plainly(ModelPhase)]
      + match r.preparation
        case OverLimit => [Plainly(Other)]
        case Ready(status) =>
          (if status then [Plainly(Other)] else []) + Respond(r, cfg).emitted
          + if CallsTools(r, cfg) then ToldOfTools(RunTools(Respond(r, cfg).c.calls, carry, r.tools, cfg), r, cfg) else []
        case _ => []
  }

  function ToldOfTools(t: Tools, r: Round, cfg: Config): seq<StreamEvent> {
    [Plainly(ToolsPhase)] + AnsweredAll(t.results)
    + if t.end.AllRun? && r.finish.Some? && !cfg.blank(r.finish.value) then [Plainly(ModelPhase)] else []
  }

  function ToldBy(v: Verdict): seq<StreamEvent> {
    match v
    case GoesOn => []
    case Concludes(said) => (if said.Some? then [Plainly(TextDelta(said.value))] else []) + [Plainly(Finished)]
    case Stops(reason) => [Plainly(Stopped(reason))]
    case Raises(_) => []
  }

  function EndBy(v: Verdict): LoopEnd {
    match v
    case GoesOn => Ongoing
    case Concludes(_) => Concluded
    case Stops(_) => Halted
    case Raises(cause) => Escaped(cause)
  }

  /** What the round adds to the history: the response and its results, unless their storage is lost. */
  function AddedBy(r: Round, cfg: Config, carry: nat): seq<Message> {
    if !CallsTools(r, cfg) then []
    else
      var c := Respond(r, cfg).c;
      var t := RunTools(c.calls, carry, r.tools, cfg);
      [Message(FromAssistant, c.text, c.calls, [], Merged(c.states))]
      + if t.end.Lost? || t.end.Working? then [] else [Message(FromUser, "", [], t.results, None)]
  }

  /** The loop where it goes on. */
  ghost predicate AtRound(s: State, n: nat, carry: nat) {
    s.end.Ongoing? && s.unknown == carry && (s.hadResults <==> n > 1)
  }

  /** What a round makes of the loop's events, history and end. */
  ghost predicate RoundTold(s: State, u: State, n: nat, r: Round, cfg: Config, carry: nat) {
    var v := VerdictOn(n, r, cfg, carry);
    && u.events == s.events + ToldOf(r, cfg, carry) + ToldBy(v)
    && u.history == s.history + AddedBy(r, cfg, carry)
    && u.end == EndBy(v)
    && (v.GoesOn? ==> u.hadResults)
  }

  lemma {:induction false} UnpreparedIs(s: State, n: nat, r: Round, cfg: Config, carry: nat)
    requires s.end.Ongoing? && (r.cancelled || !r.preparation.Ready?)
    ensures var u, told, v := RoundStep(s, n, r, cfg), ToldOf(r, cfg, carry), VerdictOn(n, r, cfg, carry);
            && u.history == s.history && AddedBy(r, cfg, carry) == []
            && if r.cancelled then
                 && v == Stops("Agent cancelled.") && told == []
                 && u.events == s.events + [Plainly(Stopped("Agent cancelled."))] && u.end.Halted?
               else
                 match r.preparation
                 case OverLimit =>
                   var reason := "Agent stopped because context cannot be sent safely.";
                   && v == Stops(reason) && told == [Plainly(ModelPhase)] + [Plainly(Other)] && u.end.Halted?
                   && u.events == s.events + [Plainly(ModelPhase)] + [Plainly(Other)] + [Plainly(Stopped(reason))]
                 case Unprepared =>
                   var reason := "Agent stopped because context preparation failed.";
                   && v == Stops(reason) && told == [Plainly(ModelPhase)] + [] && u.end.Halted?
                   && u.events == s.events + [Plainly(ModelPhase)] + [Plainly(Stopped(reason))]
                 case Cancels =>
                   && v == Raises(PreparationCancelled) && told == [Plainly(ModelPhase)] + []
                   && u.events == s.events + [Plainly(ModelPhase)] && u.end == Escaped(PreparationCancelled)
                 case Ready(_) => false
  {
    hide Respond, RunTools, AnsweredAll, SameProtocol, Merged, VerdictOnResponse, ToldOfTools, RunCalls, Plainly;
  }

  lemma {:induction false} UnpreparedIsTold(s: State, n: nat, r: Round, cfg: Config, carry: nat)
    requires AtRound(s, n, carry) && (r.cancelled || !r.preparation.Ready?)
    ensures RoundTold(s, RoundStep(s, n, r, cfg), n, r, cfg, carry)
  {
    hide *;
    AtRoundIs(s, n, carry);
    UnpreparedIs(s, n, r, cfg, carry);
    ConclusionIs(s, []);
    assert [Plainly(ModelPhase)] + [] == [Plainly(ModelPhase)];
    assert s.events + ([Plainly(ModelPhase)] + [Plainly(Other)]) == s.events + [Plainly(ModelPhase)] + [Plainly(Other)];
    Verdicts(s, RoundStep(s, n, r, cfg), n, r, cfg, carry, VerdictOn(n, r, cfg, carry));
  }

  lemma {:induction false} AskIs(s: State, r: Round, cfg: Config)
    requires s.end.Ongoing? && !r.cancelled && r.preparation.Ready?
    ensures var t, u := Respond(r, cfg), AskModel(s, r, cfg);
            var heard := Emit(Emit(Emit(s, [Plainly(ModelPhase)]), StatusIf(r.preparation.status)), t.emitted)
                           .(strays := s.strays + Terminals(t.emitted));
            u == if t.end.Cut? then Halt(heard, "Agent cancelled.")
                 else if t.end.Broken? then Halt(heard, "Agent stopped because the provider stream failed.")
                 else if !t.c.completed then Halt(heard, "Agent stopped because the provider stream ended unexpectedly.")
                 else heard
  {
    hide Respond, Terminals, Plainly, Emit, Halt, StatusIf;
  }

  lemma {:induction false} HaltIs(s: State, reason: string)
    ensures Halt(s, reason) == s.(events := s.events + [Plainly(Stopped(reason))], end := Halted)
  {
    hide Plainly;
  }

  lemma {:induction false} HeardIs(s: State, status: bool, emitted: seq<StreamEvent>)
    ensures var heard := Emit(Emit(Emit(s, [Plainly(ModelPhase)]), StatusIf(status)), emitted);
            heard == s.(events := s.events + [Plainly(ModelPhase)] + (if status then [Plainly(Other)] else []) + emitted)
  {
    StatusIs(status);
    hide Plainly, StatusIf;
  }

  lemma StatusIs(status: bool)
    ensures StatusIf(status) == if status then [Plainly(Other)] else []
  {
  }

  /** Once the model was asked. */
  lemma {:induction false} AskIsTold(s: State, r: Round, cfg: Config)
    requires s.end.Ongoing? && !r.cancelled && r.preparation.Ready?
    ensures var t, u := Respond(r, cfg), AskModel(s, r, cfg);
            var told := [Plainly(ModelPhase)] + ((if r.preparation.status then [Plainly(Other)] else []) + t.emitted);
            var reason := if t.end.Cut? then "Agent cancelled."
                          else if t.end.Broken? then "Agent stopped because the provider stream failed."
                          else "Agent stopped because the provider stream ended unexpectedly.";
            && u.history == s.history && u.unknown == s.unknown && u.hadResults == s.hadResults
            && if t.end.Cut? || t.end.Broken? || !t.c.completed
               then u.events == s.events + told + [Plainly(Stopped(reason))] && u.end.Halted?
               else u.events == s.events + told && u.end.Ongoing?
  {
    hide *;
    var t := Respond(r, cfg);
    var heard := Emit(Emit(Emit(s, [Plainly(ModelPhase)]), StatusIf(r.preparation.status)), t.emitted).(strays := s.strays + Terminals(t.emitted));
    AskIs(s, r, cfg);
    HeardIs(s, r.preparation.status, t.emitted);
    HaltIs(heard, if t.end.Cut? then "Agent cancelled."
                  else if t.end.Broken? then "Agent stopped because the provider stream failed."
                  else "Agent stopped because the provider stream ended unexpectedly.");
    Together(s.events, [Plainly(ModelPhase)], if r.preparation.status then [Plainly(Other)] else [], Respond(r, cfg).emitted);
  }

  lemma {:induction false} ToolsAreTold(s: State, c: Collector, n: nat, r: Round, cfg: Config)
    requires s.end.Ongoing?
    ensures var t, u := RunTools(c.calls, s.unknown, r.tools, cfg), RunCalls(s, c, n, r, cfg);
            var response := [Message(FromAssistant, c.text, c.calls, [], Merged(c.states))];
            var told := s.events + ([Plainly(ToolsPhase)] + AnsweredAll(t.results));
            if t.end.Lost? || t.end.Working? then
              u.events == told && u.history == s.history + response && u.end == Escaped(StorageLost)
            else
              && u.history == s.history + (response + [Message(FromUser, "", [], t.results, None)]) && u.hadResults
              && match t.end
                 case ToolsCancelled => u.events == told + [Plainly(Stopped("Agent cancelled."))] && u.end.Halted?
                 case TooManyUnknown =>
                   u.events == told + [Plainly(Stopped("Agent stopped after two consecutive unknown tool calls."))] && u.end.Halted?
                 case _ =>
                   if r.finish.Some? && !cfg.blank(r.finish.value) then
                     && u.events == told + [Plainly(ModelPhase)] + [Plainly(TextDelta(cfg.strip(r.finish.value)))] + [Plainly(Finished)]
                     && u.end.Concluded?
                   else if n == cfg.maxIterations then
                     u.events == told + [Plainly(Stopped("Agent stopped after reaching the safety limit."))] && u.end.Halted?
                   else u.events == told && u.end.Ongoing?
  {
    hide *;
    var t := RunTools(c.calls, s.unknown, r.tools, cfg);
    ToolsAre(s, c, n, r, cfg);
    Together(s.events, [Plainly(ToolsPhase)], AnsweredAll(t.results), []);
    var response := [Message(FromAssistant, c.text, c.calls, [], Merged(c.states))];
    assert s.history + response + [Message(FromUser, "", [], t.results, None)]
        == s.history + (response + [Message(FromUser, "", [], t.results, None)]);
    if r.finish.Some? {
      var told, text := s.events + [Plainly(ToolsPhase)] + AnsweredAll(t.results), Plainly(TextDelta(cfg.strip(r.finish.value)));
      assert told + [Plainly(ModelPhase), text] + [Plainly(Finished)] == told + [Plainly(ModelPhase)] + [text] + [Plainly(Finished)];
    }
  }

  lemma {:induction false} ToolsAre(s: State, c: Collector, n: nat, r: Round, cfg: Config)
    requires s.end.Ongoing?
    ensures var t, u := RunTools(c.calls, s.unknown, r.tools, cfg), RunCalls(s, c, n, r, cfg);
            var asked := s.history + [Message(FromAssistant, c.text, c.calls, [], Merged(c.states))];
            var told := s.events + [Plainly(ToolsPhase)] + AnsweredAll(t.results);
            if t.end.Lost? || t.end.Working? then u.events == told && u.history == asked && u.end == Escaped(StorageLost)
            else
              && u.history == asked + [Message(FromUser, "", [], t.results, None)] && u.hadResults
              && match t.end
                 case ToolsCancelled => u.events == told + [Plainly(Stopped("Agent cancelled."))] && u.end.Halted?
                 case TooManyUnknown =>
                   u.events == told + [Plainly(Stopped("Agent stopped after two consecutive unknown tool calls."))] && u.end.Halted?
                 case _ =>
                   if r.finish.Some? && !cfg.blank(r.finish.value) then
                     && u.events == told + [Plainly(ModelPhase), Plainly(TextDelta(cfg.strip(r.finish.value)))] + [Plainly(Finished)]
                     && u.end.Concluded?
                   else if n == cfg.maxIterations then
                     u.events == told + [Plainly(Stopped("Agent stopped after reaching the safety limit."))] && u.end.Halted?
                   else u.events == told && u.end.Ongoing?
  {
    hide RunTools, Merged, AnsweredAll, Plainly;
  }

  lemma {:induction false} RoundIs(s: State, n: nat, r: Round, cfg: Config)
    requires s.end.Ongoing? && !r.cancelled && r.preparation.Ready?
    ensures var heard, c := AskModel(s, r, cfg), Respond(r, cfg).c;
            RoundStep(s, n, r, cfg) ==
              if !heard.end.Ongoing? then heard
              else if c.calls == [] then
                Conclude(Emit(heard, if s.hadResults && cfg.blank(c.text) then [Plainly(TextDelta(MISSING_FINAL_RESPONSE))] else []))
              else if !SameProtocol(c.states) then heard.(end := Escaped(MixedProtocols))
              else RunCalls(heard, c, n, r, cfg)
  {
    hide AskModel, Respond, SameProtocol, RunCalls;
  }

  /** What `ToldOf`, `AddedBy` and the verdict come to once the model was asked. */
  lemma {:induction false} ReadyIs(n: nat, r: Round, cfg: Config, carry: nat)
    requires !r.cancelled && r.preparation.Ready?
    ensures var t := Respond(r, cfg);
            var told := [Plainly(ModelPhase)] + ((if r.preparation.status then [Plainly(Other)] else []) + t.emitted);
            var u := RunTools(t.c.calls, carry, r.tools, cfg);
            var whole := !t.end.Cut? && !t.end.Broken? && t.c.completed && t.c.calls != [] && SameProtocol(t.c.states);
            && VerdictOn(n, r, cfg, carry) == VerdictOnResponse(n, t, r, cfg, carry)
            && (whole ==> ToldOf(r, cfg, carry) == told + ToldOfTools(u, r, cfg))
            && (!whole ==> ToldOf(r, cfg, carry) == told && AddedBy(r, cfg, carry) == [])
            && (whole ==>
                  AddedBy(r, cfg, carry) ==
                    [Message(FromAssistant, t.c.text, t.c.calls, [], Merged(t.c.states))]
                    + if u.end.Lost? || u.end.Working? then [] else [Message(FromUser, "", [], u.results, None)])
  {
    StreamHasEnded(r, cfg);
    MixesIff(Respond(r, cfg).c.states);
    hide Respond, RunTools, SameProtocol, Mixes, Merged, VerdictOnResponse, ToldOfTools;
    var t := Respond(r, cfg);
    var told := (if r.preparation.status then [Plainly(Other)] else []) + t.emitted;
    assert told + [] == told;
    assert forall x: seq<StreamEvent> :: [Plainly(ModelPhase)] + (told + x) == ([Plainly(ModelPhase)] + told) + x;
  }

  lemma StreamHasEnded(r: Round, cfg: Config)
    ensures !Respond(r, cfg).end.Streaming?
  {
    AttemptsAreBounded(r, cfg, Stream(EMPTY, [], Streaming, 0), 0, false);
  }

  lemma {:induction false} ToldOfToolsIs(t: Tools, r: Round, cfg: Config)
    ensures var told := [Plainly(ToolsPhase)] + AnsweredAll(t.results);
            ToldOfTools(t, r, cfg) ==
              if t.end.AllRun? && r.finish.Some? && !cfg.blank(r.finish.value) then told + [Plainly(ModelPhase)] else told
  {
    hide AnsweredAll;
    var told := [Plainly(ToolsPhase)] + AnsweredAll(t.results);
    assert told + [] == told;
  }

  lemma {:induction false} VerdictIs(n: nat, t: Stream, r: Round, cfg: Config, carry: nat)
    ensures var v, u := VerdictOnResponse(n, t, r, cfg, carry), RunTools(t.c.calls, carry, r.tools, cfg);
            var reason := if t.end.Cut? then "Agent cancelled."
                          else if t.end.Broken? then "Agent stopped because the provider stream failed."
                          else "Agent stopped because the provider stream ended unexpectedly.";
            if t.end.Cut? || t.end.Broken? || !t.c.completed then v == Stops(reason)
            else if t.c.calls == [] then
              v == Concludes(if n > 1 && cfg.blank(t.c.text) then Some(MISSING_FINAL_RESPONSE) else None)
            else if !SameProtocol(t.c.states) then v == Raises(MixedProtocols)
            else
              match u.end
              case ToolsCancelled => v == Stops("Agent cancelled.")
              case TooManyUnknown => v == Stops("Agent stopped after two consecutive unknown tool calls.")
              case AllRun =>
                if r.finish.Some? && !cfg.blank(r.finish.value) then v == Concludes(Some(cfg.strip(r.finish.value)))
                else if n == cfg.maxIterations then v == Stops("Agent stopped after reaching the safety limit.")
                else v == GoesOn
              case _ => v == Raises(StorageLost)
  {
    MixesIff(t.c.states);
    hide RunTools, SameProtocol, Mixes;
  }

  lemma {:induction false} Verdicts(s: State, u: State, n: nat, r: Round, cfg: Config, carry: nat, v: Verdict)
    requires VerdictOn(n, r, cfg, carry) == v
    requires u.history == s.history + AddedBy(r, cfg, carry)
    requires match v
             case GoesOn => u.events == s.events + ToldOf(r, cfg, carry) && u.end.Ongoing? && u.hadResults
             case Concludes(said) =>
               && u.end.Concluded?
               && u.events == if said.Some? then s.events + ToldOf(r, cfg, carry) + [Plainly(TextDelta(said.value))] + [Plainly(Finished)]
                              else s.events + ToldOf(r, cfg, carry) + [Plainly(Finished)]
             case Stops(reason) => u.events == s.events + ToldOf(r, cfg, carry) + [Plainly(Stopped(reason))] && u.end.Halted?
             case Raises(cause) => u.events == s.events + ToldOf(r, cfg, carry) && u.end == Escaped(cause)
    ensures RoundTold(s, u, n, r, cfg, carry)
  {
    hide VerdictOn, ToldOf, AddedBy;
    var told := s.events + ToldOf(r, cfg, carry);
    assert told + [] == told;
    if v.Concludes? {
      if v.said.Some? {
        assert told + ([Plainly(TextDelta(v.said.value))] + [Plainly(Finished)]) == told + [Plainly(TextDelta(v.said.value))] + [Plainly(Finished)];
      } else {
        assert [] + [Plainly(Finished)] == [Plainly(Finished)];
      }
    }
  }

  lemma AtRoundIs(s: State, n: nat, carry: nat)
    requires AtRound(s, n, carry)
    ensures s.end.Ongoing? && s.unknown == carry && (s.hadResults <==> n > 1)
  {
  }

  lemma {:induction false} ConclusionIs(s: State, said: seq<StreamEvent>)
    ensures Conclude(Emit(s, said)).events == s.events + said + [Plainly(Finished)]
    ensures Conclude(Emit(s, said)).end.Concluded? && Conclude(Emit(s, said)).history == s.history
    ensures s.events + [] == s.events && s.history + [] == s.history
  {
  }

  lemma Together(x: seq<StreamEvent>, y: seq<StreamEvent>, z: seq<StreamEvent>, last: seq<StreamEvent>)
    ensures x + y + z == x + (y + z) && x + y + z + last == x + (y + z) + last && x + (y + (z + last)) == x + y + z + last
    ensures x + (y + (z + last)) == x + (y + z) + last
  {
  }

  /** The response is no use, or calls nothing. */
  lemma {:induction false} NoCallsAreTold(s: State, n: nat, r: Round, cfg: Config, carry: nat)
    requires AtRound(s, n, carry) && !r.cancelled && r.preparation.Ready?
    requires !AskModel(s, r, cfg).end.Ongoing? || Respond(r, cfg).c.calls == []
    ensures RoundTold(s, RoundStep(s, n, r, cfg), n, r, cfg, carry)
  {
    hide *;
    AtRoundIs(s, n, carry);
    var t, u, heard := Respond(r, cfg), RoundStep(s, n, r, cfg), AskModel(s, r, cfg);
    RoundIs(s, n, r, cfg);
    AskIsTold(s, r, cfg);
    ReadyIs(n, r, cfg, carry);
    VerdictIs(n, t, r, cfg, carry);
    ConclusionIs(s, []);
    ConclusionIs(heard, if s.hadResults && cfg.blank(t.c.text) then [Plainly(TextDelta(MISSING_FINAL_RESPONSE))] else []);
    NothingSaid(heard);
    Verdicts(s, u, n, r, cfg, carry, VerdictOn(n, r, cfg, carry));
  }

  lemma NothingSaid(s: State)
    ensures s.events + [] == s.events
  {
  }

  lemma {:induction false} CallsAreTold(s: State, n: nat, r: Round, cfg: Config, carry: nat)
    requires AtRound(s, n, carry) && !r.cancelled && r.preparation.Ready?
    requires AskModel(s, r, cfg).end.Ongoing? && Respond(r, cfg).c.calls != [] && SameProtocol(Respond(r, cfg).c.states)
    ensures RoundTold(s, RoundStep(s, n, r, cfg), n, r, cfg, carry)
  {
    hide *;
    AtRoundIs(s, n, carry);
    var t, u, heard := Respond(r, cfg), RoundStep(s, n, r, cfg), AskModel(s, r, cfg);
    var told := [Plainly(ModelPhase)] + ((if r.preparation.status then [Plainly(Other)] else []) + t.emitted);
    RoundIs(s, n, r, cfg);
    AskGoesOn(s, r, cfg);
    ReadyIs(n, r, cfg, carry);
    VerdictIs(n, t, r, cfg, carry);
    var k := RunTools(t.c.calls, carry, r.tools, cfg);
    var phase := [Plainly(ToolsPhase)] + AnsweredAll(k.results);
    ToolsAreTold(heard, t.c, n, r, cfg);
    ToldOfToolsIs(k, r, cfg);
    Together(s.events, told, phase, [Plainly(ModelPhase)]);
    Verdicts(s, u, n, r, cfg, carry, VerdictOn(n, r, cfg, carry));
  }

  lemma {:induction false} AskGoesOn(s: State, r: Round, cfg: Config)
    requires s.end.Ongoing? && !r.cancelled && r.preparation.Ready? && AskModel(s, r, cfg).end.Ongoing?
    ensures var t, u := Respond(r, cfg), AskModel(s, r, cfg);
            && u.history == s.history && u.unknown == s.unknown && !t.end.Cut? && !t.end.Broken? && t.c.completed
            && u.events == s.events + ([Plainly(ModelPhase)] + ((if r.preparation.status then [Plainly(Other)] else []) + t.emitted))
  {
    hide *;
    AskIsTold(s, r, cfg);
  }

  lemma {:induction false} MixedIsTold(s: State, n: nat, r: Round, cfg: Config, carry: nat)
    requires AtRound(s, n, carry) && !r.cancelled && r.preparation.Ready?
    requires AskModel(s, r, cfg).end.Ongoing? && Respond(r, cfg).c.calls != [] && !SameProtocol(Respond(r, cfg).c.states)
    ensures RoundTold(s, RoundStep(s, n, r, cfg), n, r, cfg, carry)
  {
    hide *;
    AtRoundIs(s, n, carry);
    RoundIs(s, n, r, cfg);
    AskGoesOn(s, r, cfg);
    ReadyIs(n, r, cfg, carry);
    VerdictIs(n, Respond(r, cfg), r, cfg, carry);
    ConclusionIs(s, []);
    Verdicts(s, RoundStep(s, n, r, cfg), n, r, cfg, carry, VerdictOn(n, r, cfg, carry));
  }

  lemma {:induction false} RoundIsTold(s: State, n: nat, r: Round, cfg: Config, carry: nat)
    requires AtRound(s, n, carry)
    ensures RoundTold(s, RoundStep(s, n, r, cfg), n, r, cfg, carry)
  {
    hide *;
    if r.cancelled || !r.preparation.Ready? {
      UnpreparedIsTold(s, n, r, cfg, carry);
    } else if !AskModel(s, r, cfg).end.Ongoing? || Respond(r, cfg).c.calls == [] {
      NoCallsAreTold(s, n, r, cfg, carry);
    } else if SameProtocol(Respond(r, cfg).c.states) {
      CallsAreTold(s, n, r, cfg, carry);
    } else {
      MixedIsTold(s, n, r, cfg, carry);
    }
  }

  /** What the rounds from `n` to `k` tell, and what they add to the history. */
  function RunTells(n: nat, k: nat, cfg: Config, rounds: nat -> Round): seq<StreamEvent>
    decreases k + 1 - n
  {
    if k < n then []
    else
      var carry := Carry(n, cfg, rounds);
      ToldOf(rounds(n), cfg, carry) + ToldBy(VerdictOn(n, rounds(n), cfg, carry)) + RunTells(n + 1, k, cfg, rounds)
  }

  function RunAdds(n: nat, k: nat, cfg: Config, rounds: nat -> Round): seq<Message>
    decreases k + 1 - n
  {
    if k < n then [] else AddedBy(rounds(n), cfg, Carry(n, cfg, rounds)) + RunAdds(n + 1, k, cfg, rounds)
  }

  function VerdictAt(n: nat, cfg: Config, rounds: nat -> Round): Verdict {
    VerdictOn(n, rounds(n), cfg, Carry(n, cfg, rounds))
  }

  /** The run from round `n` on ends with round `k`. */
  ghost predicate RunTold(s: State, u: State, n: nat, k: nat, cfg: Config, rounds: nat -> Round) {
    && n <= k <= cfg.maxIterations && (forall j :: n <= j < k ==> VerdictAt(j, cfg, rounds).GoesOn?)
    && !VerdictAt(k, cfg, rounds).GoesOn?
    && u.events == s.events + RunTells(n, k, cfg, rounds) && u.history == s.history + RunAdds(n, k, cfg, rounds)
    && u.end == EndBy(VerdictAt(k, cfg, rounds))
  }

  lemma {:induction false} LoopIsTold(s: State, n: nat, cfg: Config, rounds: nat -> Round) returns (k: nat)
    requires 1 <= n <= cfg.maxIterations && AtRound(s, n, Carry(n, cfg, rounds))
    ensures RunTold(s, Loop(s, n, cfg, rounds), n, k, cfg, rounds)
    decreases cfg.maxIterations - n
  {
    hide *;
    var u := RoundStep(s, n, rounds(n), cfg);
    AtRoundIs(s, n, Carry(n, cfg, rounds));
    RoundIsTold(s, n, rounds(n), cfg, Carry(n, cfg, rounds));
    RoundEscapes(s, n, rounds(n), cfg);
    LoopStep(s, n, cfg, rounds);
    NextCarry(n, cfg, rounds);
    if u.end.Ongoing? {
      LastRound(s, u, n, rounds(n), cfg, Carry(n, cfg, rounds));
      NextRound(s, u, n, cfg, rounds);
      k := LoopIsTold(u, n + 1, cfg, rounds);
      RunGoesOn(s, u, Loop(u, n + 1, cfg, rounds), n, k, cfg, rounds);
    } else {
      k := n;
      RunIsOver(s, u, n, cfg, rounds);
    }
  }

  lemma {:induction false} LoopStep(s: State, n: nat, cfg: Config, rounds: nat -> Round)
    requires s.end.Ongoing? && n <= cfg.maxIterations
    ensures var u := RoundStep(s, n, rounds(n), cfg);
            Loop(s, n, cfg, rounds) == if u.end.Ongoing? then Loop(u, n + 1, cfg, rounds) else u
  {
    hide RoundStep;
    if !RoundStep(s, n, rounds(n), cfg).end.Ongoing? { EndedStays(RoundStep(s, n, rounds(n), cfg), n + 1, cfg, rounds); }
  }

  lemma {:induction false} NextCarry(n: nat, cfg: Config, rounds: nat -> Round)
    requires 1 <= n
    ensures var calls := Respond(rounds(n), cfg).c.calls;
            calls != [] ==> Carry(n + 1, cfg, rounds) == if cfg.known(calls[|calls| - 1].name) then 0 else 1
  {
    hide Respond;
  }

  /** The last round allowed does not go on. */
  lemma {:induction false} LastRound(s: State, u: State, n: nat, r: Round, cfg: Config, carry: nat)
    requires RoundTold(s, u, n, r, cfg, carry) && u.end.Ongoing?
    ensures VerdictOn(n, r, cfg, carry) == GoesOn && n != cfg.maxIterations && u.hadResults
  {
    hide Respond, RunTools, SameProtocol, ToldOf, ToldBy, AddedBy;
  }

  lemma {:induction false} NextRound(s: State, u: State, n: nat, cfg: Config, rounds: nat -> Round)
    requires 1 <= n && u.end.Ongoing? && u.hadResults && u.unknown == Carry(n + 1, cfg, rounds)
    ensures AtRound(u, n + 1, Carry(n + 1, cfg, rounds))
  {
    hide Carry;
  }

  lemma {:induction false} RunGoesOn(s: State, u: State, v: State, n: nat, k: nat, cfg: Config, rounds: nat -> Round)
    requires RoundTold(s, u, n, rounds(n), cfg, Carry(n, cfg, rounds)) && VerdictOn(n, rounds(n), cfg, Carry(n, cfg, rounds)) == GoesOn
    requires RunTold(u, v, n + 1, k, cfg, rounds)
    ensures RunTold(s, v, n, k, cfg, rounds)
  {
    hide ToldOf, ToldBy, AddedBy, VerdictOn, Carry, EndBy;
    var carry := Carry(n, cfg, rounds);
    var told, closing := ToldOf(rounds(n), cfg, carry), ToldBy(VerdictOn(n, rounds(n), cfg, carry));
    Together(s.events, told, closing, RunTells(n + 1, k, cfg, rounds));
    assert s.events + (told + closing + RunTells(n + 1, k, cfg, rounds)) == s.events + told + closing + RunTells(n + 1, k, cfg, rounds);
    var added := AddedBy(rounds(n), cfg, carry);
    assert s.history + (added + RunAdds(n + 1, k, cfg, rounds)) == s.history + added + RunAdds(n + 1, k, cfg, rounds);
  }

  lemma {:induction false} RunIsOver(s: State, u: State, n: nat, cfg: Config, rounds: nat -> Round)
    requires n <= cfg.maxIterations && RoundTold(s, u, n, rounds(n), cfg, Carry(n, cfg, rounds)) && !u.end.Ongoing?
    ensures RunTold(s, u, n, n, cfg, rounds)
  {
    hide ToldOf, ToldBy, AddedBy, VerdictOn, Carry;
    var carry := Carry(n, cfg, rounds);
    var told, closing := ToldOf(rounds(n), cfg, carry), ToldBy(VerdictOn(n, rounds(n), cfg, carry));
    assert RunTells(n + 1, n, cfg, rounds) == [] && RunAdds(n + 1, n, cfg, rounds) == [];
    assert s.events + (told + closing + []) == s.events + told + closing;
    assert s.history + (AddedBy(rounds(n), cfg, carry) + []) == s.history + AddedBy(rounds(n), cfg, carry);
  }

  lemma AtStart(messages: seq<Message>, cfg: Config, rounds: nat -> Round)
    ensures AtRound(Start(messages), 1, Carry(1, cfg, rounds))
  {
  }

  /** A whole run, read off its script: the rounds go on up to the first whose verdict is another, the events are what each
      of them tells and its verdict says, the history is what they add, and that last verdict is how the run ends. */
  lemma {:induction false} RunIsReadOff(messages: seq<Message>, cfg: Config, rounds: nat -> Round) returns (k: nat)
    requires 1 <= cfg.maxIterations
    ensures var u := Loop(Start(messages), 1, cfg, rounds);
            && 1 <= k <= cfg.maxIterations
            && (forall j :: 1 <= j < k ==> VerdictAt(j, cfg, rounds).GoesOn?) && !VerdictAt(k, cfg, rounds).GoesOn?
            && u.events == RunTells(1, k, cfg, rounds) && u.history == messages + RunAdds(1, k, cfg, rounds)
            && u.end == EndBy(VerdictAt(k, cfg, rounds))
  {
    AtStart(messages, cfg, rounds);
    k := LoopIsTold(Start(messages), 1, cfg, rounds);
    hide Loop, VerdictOn, RunTells, RunAdds, Carry;
    assert [] + RunTells(1, k, cfg, rounds) == RunTells(1, k, cfg, rounds);
  }

  // ---- the recorder sees the same history ----

  /** What every provider of the repository keeps to: no error or cancellation among its events, and no
      state on the closing event, which the loop keeps back. */
  ghost predicate WellBehaved(events: seq<ProviderEvent>) {
    forall e :: e in events ==> !e.kind.Stray? && (e.kind.Done? ==> e.state.None?)
  }

  ghost predicate WellBehavedRound(r: Round) {
    forall k: nat :: WellBehaved(r.attempts(k).events)
  }

  /** Recorder and collector hold the same response. */
  ghost predicate InStep(t: Turn, c: Collector) {
    && t.outcome.Running? && !t.persisted && t.pending == []
    && t.text == c.text && t.calls == c.calls && t.states == c.states
  }

  lemma {:induction false} ConsumeOne(t: Turn, e: StreamEvent, blank: Blank)
    ensures ConsumeAll(t, [e], blank) == Consume(t, e, blank)
  {
    hide Consume;
    assert [e][..0] == [];
  }

  lemma {:induction false} ForwardKeepsStep(t: Turn, c: Collector, e: ProviderEvent, blank: Blank)
    requires InStep(t, c) && !Invalid(e) && WellBehaved([e])
    ensures var u := ConsumeAll(t, Forward(e), blank);
            InStep(u, Observe(c, e)) && u.history == t.history
  {
    assert e in [e];
    if !e.kind.Done? {
      ConsumeOne(t, Forward(e)[0], blank);
      hide ConsumeAll;
    }
  }

  lemma {:induction false} TakeKeepsStep(t: Turn, s: Stream, events: seq<ProviderEvent>, blank: Blank)
    requires s.end.Streaming? && WellBehaved(events)
    requires InStep(ConsumeAll(t, s.emitted, blank), s.c)
    ensures var u := TakeEvents(s, events);
            && InStep(ConsumeAll(t, u.emitted, blank), u.c)
            && ConsumeAll(t, u.emitted, blank).history == ConsumeAll(t, s.emitted, blank).history
            && u.attempts == s.attempts
    decreases |events|
  {
    if events != [] && !Invalid(events[0]) {
      assert WellBehaved([events[0]]) && WellBehaved(events[1..]);
      ForwardKeepsStep(ConsumeAll(t, s.emitted, blank), s.c, events[0], blank);
      ConsumeAllConcat(t, s.emitted, Forward(events[0]), blank);
      hide ConsumeAll, Forward, Observe, InStep, WellBehaved;
      TakeKeepsStep(t, s.(c := Observe(s.c, events[0]), emitted := s.emitted + Forward(events[0])), events[1..], blank);
    }
  }

  /** The recorder ignores a status event. */
  lemma {:induction false} StatusKeepsStep(t: Turn, emitted: seq<StreamEvent>, status: bool, c: Collector, blank: Blank)
    requires InStep(ConsumeAll(t, emitted, blank), c)
    ensures ConsumeAll(t, emitted + StatusIf(status), blank) == ConsumeAll(t, emitted, blank)
  {
    hide ConsumeAll;
    ConsumeAllConcat(t, emitted, [Plainly(Other)], blank);
    ConsumeOne(ConsumeAll(t, emitted, blank), Plainly(Other), blank);
    assert emitted + [] == emitted;
  }

  lemma {:induction false} AttemptsKeepStep(t: Turn, r: Round, cfg: Config, s: Stream, transient: nat, recovered: bool)
    requires s.end.Streaming? && transient <= 2 && WellBehavedRound(r)
    requires InStep(ConsumeAll(t, s.emitted, cfg.blank), s.c)
    ensures var u := Attempts(r, cfg, s, transient, recovered);
            && InStep(ConsumeAll(t, u.emitted, cfg.blank), u.c)
            && ConsumeAll(t, u.emitted, cfg.blank).history == ConsumeAll(t, s.emitted, cfg.blank).history
    decreases 2 - transient, if recovered then 0 else 1
  {
    hide InStep, ConsumeAll, TakeEvents, StatusIf, WellBehaved;
    var a := r.attempts(s.attempts);
    assert WellBehaved(a.events);
    TakeKeepsStep(t, s, a.events, cfg.blank);
    var v := TakeEvents(s, a.events).(attempts := s.attempts + 1);
    if v.end.Streaming? && a.ending.Overflows? {
      var status := a.ending.recovery.status;
      StatusKeepsStep(t, v.emitted, status, v.c, cfg.blank);
      if a.ending.recovery.Recovered? && cfg.manager && OnlyUsage(a.events) && !recovered && cfg.retry {
        AttemptsKeepStep(t, r, cfg, v.(emitted := v.emitted + StatusIf(status)), transient, true);
      }
    } else if v.end.Streaming? && a.ending.Errs? {
      if cfg.retry && a.ending.retryable && OnlyUsage(a.events) && transient < 2 {
        AttemptsKeepStep(t, r, cfg, v, transient + 1, recovered);
      }
    }
  }

  /** Consuming a round's results: the response becomes a message, the results wait. */
  lemma {:induction false} ResultsAreRecorded(t: Turn, c: Collector, results: seq<CallResult>, blank: Blank)
    requires InStep(t, c) && SameProtocol(c.states) && results != []
    ensures var u := ConsumeAll(t, AnsweredAll(results), blank);
            && u.outcome.Running? && u.persisted && u.pending == results
            && u.history == t.history + [Message(FromAssistant, c.text, c.calls, [], Merged(c.states))]
    decreases |results|
  {
    var front, last := results[..|results| - 1], results[|results| - 1];
    var e := Plainly(Answered(last));
    assert AnsweredAll(results) == AnsweredAll(front) + [e];
    ConsumeAllConcat(t, AnsweredAll(front), [e], blank);
    ConsumeOne(ConsumeAll(t, AnsweredAll(front), blank), e, blank);
    assert results == front + [last];
    if front == [] {
      assert ConsumeAll(t, AnsweredAll(front), blank) == t;
      hide ConsumeAll, Merged, CallRows, AssistantRow, ResultRow;
    } else {
      ResultsAreRecorded(t, c, front, blank);
      hide ConsumeAll, Merged, CallRows, AssistantRow, ResultRow, AnsweredAll;
    }
  }

  function Recorded(current: Message, events: seq<StreamEvent>, blank: Blank): Turn {
    ConsumeAll(Begin(current), events, blank)
  }

  /** Between rounds the loop's history is the recorder's, once its waiting results are flushed. */
  ghost predicate Agrees(earlier: seq<Message>, t: Turn, history: seq<Message>) {
    t.outcome.Running? && history == earlier + Flushed(t).history
  }

  ghost predicate AgreesAtEnd(earlier: seq<Message>, t: Turn, s: State, blank: Blank) {
    match s.end
    case Ongoing => Agrees(earlier, t, s.history)
    case Halted => t.outcome.Terminated? && s.history == earlier + t.history
    case Concluded =>
      if blank(t.text) then t.outcome.Raised? && s.history == earlier + t.history
      else
        && t.outcome.Completed? && t.answer == t.text && t.history != []
        && t.history[|t.history| - 1] == Message(FromAssistant, t.answer, [], [], None)
        && s.history == earlier + t.history[..|t.history| - 1]
    case Escaped(cause) =>
      t.outcome.Running? && s.history == earlier + (if cause.StorageLost? then Persist(t) else t).history
  }

  lemma {:induction false} RecordedMore(current: Message, x: seq<StreamEvent>, e: StreamEvent, blank: Blank)
    ensures Recorded(current, x + [e], blank) == Consume(Recorded(current, x, blank), e, blank)
  {
    ConsumeAllConcat(Begin(current), x, [e], blank);
    ConsumeOne(ConsumeAll(Begin(current), x, blank), e, blank);
    hide ConsumeAll, Consume;
  }

  lemma {:induction false} HaltAgrees(earlier: seq<Message>, current: Message, s: State, reason: string, blank: Blank)
    requires Agrees(earlier, Recorded(current, s.events, blank), s.history)
    ensures AgreesAtEnd(earlier, Recorded(current, Halt(s, reason).events, blank), Halt(s, reason), blank)
  {
    RecordedMore(current, s.events, Plainly(Stopped(reason)), blank);
    hide Recorded;
  }

  /** Finishing adds the text as the final answer, or raises if there is none. */
  lemma {:induction false} ConcludeAgrees(earlier: seq<Message>, current: Message, s: State, blank: Blank)
    requires Agrees(earlier, Recorded(current, s.events, blank), s.history)
    ensures AgreesAtEnd(earlier, Recorded(current, Conclude(s).events, blank), Conclude(s), blank)
  {
    RecordedMore(current, s.events, Plainly(Finished), blank);
    var t := Recorded(current, s.events, blank);
    var u := Consume(t, Plainly(Finished), blank);
    hide Recorded;
    if !blank(t.text) {
      assert u.history[..|u.history| - 1] == Flushed(t).history;
    }
  }

  lemma {:induction false} PhaseAgrees(earlier: seq<Message>, current: Message, s: State, blank: Blank)
    requires Agrees(earlier, Recorded(current, s.events, blank), s.history)
    ensures var u := Emit(s, [Plainly(ModelPhase)]);
            var t := Recorded(current, u.events, blank);
            Agrees(earlier, t, u.history) && InStep(t, EMPTY)
  {
    RecordedMore(current, s.events, Plainly(ModelPhase), blank);
    hide Recorded;
  }

  /** Events that only pass by. */
  lemma {:induction false} PassingAgrees(earlier: seq<Message>, current: Message, s: State, e: StreamEvent, blank: Blank)
    requires Agrees(earlier, Recorded(current, s.events, blank), s.history)
    requires e == Plainly(Other) || e == Plainly(ToolsPhase) || (e.kind.TextDelta? && e.state.None?)
    ensures var u := Emit(s, [e]);
            var t, v := Recorded(current, s.events, blank), Recorded(current, u.events, blank);
            && Agrees(earlier, v, u.history)
            && v == t.(text := if e.kind.TextDelta? then t.text + e.kind.text else t.text)
  {
    RecordedMore(current, s.events, e, blank);
    hide Recorded;
  }

  lemma {:induction false} RespondKeepsStep(t: Turn, r: Round, cfg: Config)
    requires WellBehavedRound(r) && InStep(t, EMPTY)
    ensures var u := ConsumeAll(t, Respond(r, cfg).emitted, cfg.blank);
            InStep(u, Respond(r, cfg).c) && u.history == t.history
  {
    assert ConsumeAll(t, [], cfg.blank) == t;
    hide ConsumeAll, Attempts;
    AttemptsKeepStep(t, r, cfg, Stream(EMPTY, [], Streaming, 0), 0, false);
  }

  lemma {:induction false} InStepAgrees(earlier: seq<Message>, t: Turn, c: Collector, history: seq<Message>)
    requires InStep(t, c) && history == earlier + t.history
    ensures Agrees(earlier, t, history)
  {
  }

  /** The response as heard: recorder and collector in step, and nothing added to either history yet. */
  lemma {:induction false} HearingAgrees(earlier: seq<Message>, current: Message, s: State, status: bool, r: Round, cfg: Config)
    requires WellBehavedRound(r)
    requires Agrees(earlier, Recorded(current, s.events, cfg.blank), s.history)
    ensures var begun := Emit(s, [Plainly(ModelPhase)]);
            var heard := Emit(Emit(begun, StatusIf(status)), Respond(r, cfg).emitted);
            var t := Recorded(current, heard.events, cfg.blank);
            InStep(t, Respond(r, cfg).c) && s.history == earlier + t.history
  {
    PhaseAgrees(earlier, current, s, cfg.blank);
    var begun := Emit(s, [Plainly(ModelPhase)]);
    StatusKeepsStep(Begin(current), begun.events, status, EMPTY, cfg.blank);
    var t1 := ConsumeAll(Begin(current), begun.events + StatusIf(status), cfg.blank);
    RespondKeepsStep(t1, r, cfg);
    ConsumeAllConcat(Begin(current), begun.events + StatusIf(status), Respond(r, cfg).emitted, cfg.blank);
    hide ConsumeAll, Respond, StatusIf, WellBehavedRound;
  }

  lemma {:induction false} AskAgrees(earlier: seq<Message>, current: Message, s: State, r: Round, cfg: Config)
    requires s.end.Ongoing? && WellBehavedRound(r)
    requires Agrees(earlier, Recorded(current, s.events, cfg.blank), s.history)
    ensures var u := AskModel(s, r, cfg);
            var t := Recorded(current, u.events, cfg.blank);
            if u.end.Ongoing? then InStep(t, Respond(r, cfg).c) && u.history == earlier + t.history
            else !u.end.Concluded? && AgreesAtEnd(earlier, t, u, cfg.blank)
  {
    hide Agrees, AgreesAtEnd, InStep, Recorded, Respond, WellBehavedRound, Terminals;
    var begun := Emit(s, [Plainly(ModelPhase)]);
    PhaseAgrees(earlier, current, s, cfg.blank);
    match r.preparation
    case OverLimit =>
      PassingAgrees(earlier, current, begun, Plainly(Other), cfg.blank);
      HaltAgrees(earlier, current, Emit(begun, [Plainly(Other)]),
                 "Agent stopped because context cannot be sent safely.", cfg.blank);
    case Unprepared =>
      HaltAgrees(earlier, current, begun, "Agent stopped because context preparation failed.", cfg.blank);
    case Cancels =>
      EscapedAgrees(earlier, Recorded(current, begun.events, cfg.blank), EMPTY, begun, PreparationCancelled, cfg.blank);
    case Ready(status) =>
      HearingAgrees(earlier, current, s, status, r, cfg);
      hide StatusIf;
      var heard := Emit(Emit(begun, StatusIf(status)), Respond(r, cfg).emitted);
      InStepAgrees(earlier, Recorded(current, heard.events, cfg.blank), Respond(r, cfg).c, s.history);
      var told := heard.(strays := s.strays + Terminals(Respond(r, cfg).emitted));
      HaltAgrees(earlier, current, told, "Agent cancelled.", cfg.blank);
      HaltAgrees(earlier, current, told, "Agent stopped because the provider stream failed.", cfg.blank);
      HaltAgrees(earlier, current, told, "Agent stopped because the provider stream ended unexpectedly.", cfg.blank);
  }

  lemma {:induction false} SomeResult(batches: seq<seq<Call>>, t: Tools, tools: Call -> ToolStep, cfg: Config)
    requires forall k :: 0 <= k < |batches| ==> batches[k] != []
    requires t.results != [] || batches != []
    ensures var u := RunBatches(batches, t, tools, cfg); u.end.Lost? || u.results != []
    decreases |batches|
  {
    if batches != [] {
      var b := Execute(batches[0], tools, cfg);
      ExecuteIsComplete(batches[0], tools, cfg);
      TakeAddsResults(t, batches[0], b.results, cfg);
      var u := TakeResults(t, batches[0], b.results, cfg);
      hide Execute, TakeResults;
      if !b.lost && !b.cancelled && !u.end.TooManyUnknown? { SomeResult(batches[1..], u, tools, cfg); }
    }
  }

  lemma {:induction false} TakeAddsResults(t: Tools, calls: seq<Call>, results: seq<CallResult>, cfg: Config)
    ensures |TakeResults(t, calls, results, cfg).results| >= |t.results|
    ensures calls != [] && results != [] ==> TakeResults(t, calls, results, cfg).results != []
    decreases |calls|
  {
    if calls != [] && results != [] {
      var unknown := if cfg.known(calls[0].name) then 0 else t.unknown + 1;
      var u := Tools(t.results + [results[0]], unknown, t.end);
      if unknown < 2 { TakeAddsResults(u, calls[1..], results[1..], cfg); }
    }
  }

  lemma {:induction false} ToolsLeaveResults(calls: seq<Call>, unknown: nat, tools: Call -> ToolStep, cfg: Config)
    requires calls != []
    ensures var t := RunTools(calls, unknown, tools, cfg); t.end.Lost? || t.results != []
  {
    BatchesPartitionCalls(calls, cfg);
    var batches := Batches(calls, [], cfg);
    assert batches != [] by { assert FlattenCalls([]) == []; }
    hide Batches, FlattenCalls, ProperBatch;
    SomeResult(batches, Tools([], unknown, Working), tools, cfg);
    hide RunBatches, Fill;
  }

  /** An error that escapes before the loop has recorded anything leaves both histories alone. */
  lemma {:induction false} EscapedAgrees(earlier: seq<Message>, t: Turn, c: Collector, s: State, cause: Cause, blank: Blank)
    requires InStep(t, c) && (s.history == earlier + t.history || Agrees(earlier, t, s.history)) && !cause.StorageLost?
    ensures AgreesAtEnd(earlier, t, s.(end := Escaped(cause)), blank)
  {
  }

  /** One that escapes from the tools leaves the recorder with the response, or about to record it. */
  lemma {:induction false} LostAgrees(earlier: seq<Message>, current: Message, s: State, c: Collector,
                                      results: seq<CallResult>, blank: Blank)
    requires InStep(Recorded(current, s.events, blank), c) && SameProtocol(c.states)
    requires s.history == earlier + Recorded(current, s.events, blank).history
    ensures var t := Recorded(current, s.events + [Plainly(ToolsPhase)] + AnsweredAll(results), blank);
            && t.outcome.Running?
            && s.history + [Message(FromAssistant, c.text, c.calls, [], Merged(c.states))] == earlier + Persist(t).history
  {
    var t := Recorded(current, s.events, blank);
    RecordedMore(current, s.events, Plainly(ToolsPhase), blank);
    var phase := s.events + [Plainly(ToolsPhase)];
    assert Recorded(current, phase, blank) == t;
    var assistant := Message(FromAssistant, c.text, c.calls, [], Merged(c.states));
    Reassociate(earlier, t.history, [assistant]);
    if results == [] {
      assert phase + AnsweredAll(results) == phase;
      hide ConsumeAll, Merged, Consume, CallRows, AssistantRow;
    } else {
      ResultsAreRecorded(t, c, results, blank);
      ConsumeAllConcat(Begin(current), phase, AnsweredAll(results), blank);
      hide ConsumeAll, Merged, AnsweredAll, Consume, CallRows, AssistantRow;
    }
  }

  lemma {:induction false} CallsAgree(earlier: seq<Message>, current: Message, s: State, c: Collector, n: nat,
                                      r: Round, cfg: Config)
    requires s.end.Ongoing? && c.calls != [] && SameProtocol(c.states)
    requires InStep(Recorded(current, s.events, cfg.blank), c)
    requires s.history == earlier + Recorded(current, s.events, cfg.blank).history
    ensures var u := RunCalls(s, c, n, r, cfg);
            AgreesAtEnd(earlier, Recorded(current, u.events, cfg.blank), u, cfg.blank)
  {
    hide RunTools, Recorded, Merged, AgreesAtEnd, Agrees, AnsweredAll, InStep, SameProtocol;
    var t := RunTools(c.calls, s.unknown, r.tools, cfg);
    ToolsLeaveResults(c.calls, s.unknown, r.tools, cfg);
    var asked := s.(history := s.history + [Message(FromAssistant, c.text, c.calls, [], Merged(c.states))]);
    var told := Emit(Emit(asked, [Plainly(ToolsPhase)]), AnsweredAll(t.results));
    if t.end.Lost? || t.end.Working? {
      LostAgrees(earlier, current, s, c, t.results, cfg.blank);
      LostIsAgreement(earlier, Recorded(current, told.events, cfg.blank), told, cfg.blank);
    } else {
      var answered := told.(history := told.history + [ResultsMessage(t.results)], unknown := t.unknown, hadResults := true);
      AnsweredAgrees(earlier, current, s, c, t.results, cfg.blank);
      HaltAgrees(earlier, current, answered, "Agent cancelled.", cfg.blank);
      HaltAgrees(earlier, current, answered, "Agent stopped after two consecutive unknown tool calls.", cfg.blank);
      HaltAgrees(earlier, current, answered, "Agent stopped after reaching the safety limit.", cfg.blank);
      if r.finish.Some? {
        FinishAgrees(earlier, current, answered, cfg.strip(r.finish.value), cfg.blank);
      }
      OngoingAgrees(earlier, Recorded(current, told.events, cfg.blank), answered, cfg.blank);
    }
  }

  lemma {:induction false} LostIsAgreement(earlier: seq<Message>, t: Turn, s: State, blank: Blank)
    requires t.outcome.Running? && s.history == earlier + Persist(t).history
    ensures AgreesAtEnd(earlier, t, s.(end := Escaped(StorageLost)), blank)
  {
  }

  lemma {:induction false} OngoingAgrees(earlier: seq<Message>, t: Turn, s: State, blank: Blank)
    requires Agrees(earlier, t, s.history) && s.end.Ongoing?
    ensures AgreesAtEnd(earlier, t, s, blank)
  {
  }

  lemma {:induction false} AnsweredAgrees(earlier: seq<Message>, current: Message, s: State, c: Collector,
                                          results: seq<CallResult>, blank: Blank)
    requires InStep(Recorded(current, s.events, blank), c) && SameProtocol(c.states) && results != []
    requires s.history == earlier + Recorded(current, s.events, blank).history
    ensures var assistant := Message(FromAssistant, c.text, c.calls, [], Merged(c.states));
            Agrees(earlier, Recorded(current, s.events + [Plainly(ToolsPhase)] + AnsweredAll(results), blank),
                   s.history + [assistant] + [ResultsMessage(results)])
  {
    var t := Recorded(current, s.events, blank);
    RecordedMore(current, s.events, Plainly(ToolsPhase), blank);
    var phase := s.events + [Plainly(ToolsPhase)];
    assert Recorded(current, phase, blank) == t;
    ResultsAreRecorded(t, c, results, blank);
    ConsumeAllConcat(Begin(current), phase, AnsweredAll(results), blank);
    var assistant := Message(FromAssistant, c.text, c.calls, [], Merged(c.states));
    hide ConsumeAll, Merged, AnsweredAll, Consume;
    Reassociate(earlier, t.history, [assistant]);
    Reassociate(earlier, t.history + [assistant], [ResultsMessage(results)]);
  }

  lemma {:induction false} FinishAgrees(earlier: seq<Message>, current: Message, s: State, text: string, blank: Blank)
    requires Agrees(earlier, Recorded(current, s.events, blank), s.history)
    ensures var u := Conclude(Emit(s, [Plainly(ModelPhase), Plainly(TextDelta(text))]));
            AgreesAtEnd(earlier, Recorded(current, u.events, blank), u, blank)
  {
    hide Agrees, AgreesAtEnd, Recorded, InStep;
    PhaseAgrees(earlier, current, s, blank);
    var begun := Emit(s, [Plainly(ModelPhase)]);
    PassingAgrees(earlier, current, begun, Plainly(TextDelta(text)), blank);
    var spoken := Emit(begun, [Plainly(TextDelta(text))]);
    ConcludeAgrees(earlier, current, spoken, blank);
    assert s.events + [Plainly(ModelPhase)] + [Plainly(TextDelta(text))]
        == s.events + [Plainly(ModelPhase), Plainly(TextDelta(text))];
  }

  lemma {:induction false} ClosingAgrees(earlier: seq<Message>, current: Message, s: State, missing: bool, blank: Blank)
    requires Agrees(earlier, Recorded(current, s.events, blank), s.history)
    ensures var u := Conclude(Emit(s, if missing then [Plainly(TextDelta(MISSING_FINAL_RESPONSE))] else []));
            AgreesAtEnd(earlier, Recorded(current, u.events, blank), u, blank)
  {
    hide Agrees, AgreesAtEnd, Recorded;
    assert Emit(s, []) == s;
    if missing {
      var closing := Plainly(TextDelta(MISSING_FINAL_RESPONSE));
      PassingAgrees(earlier, current, s, closing, blank);
      ConcludeAgrees(earlier, current, Emit(s, [closing]), blank);
    } else {
      ConcludeAgrees(earlier, current, s, blank);
    }
  }

  lemma {:induction false} RoundAgrees(earlier: seq<Message>, current: Message, s: State, n: nat, r: Round, cfg: Config)
    requires s.end.Ongoing? && WellBehavedRound(r)
    requires Agrees(earlier, Recorded(current, s.events, cfg.blank), s.history)
    ensures var u := RoundStep(s, n, r, cfg);
            AgreesAtEnd(earlier, Recorded(current, u.events, cfg.blank), u, cfg.blank)
  {
    hide AskModel, Respond, Recorded, Agrees, AgreesAtEnd, InStep, RunCalls, WellBehavedRound, Halt, Conclude, Emit;
    if r.cancelled {
      HaltAgrees(earlier, current, s, "Agent cancelled.", cfg.blank);
    } else {
      AskAgrees(earlier, current, s, r, cfg);
      var heard, c := AskModel(s, r, cfg), Respond(r, cfg).c;
      if heard.end.Ongoing? {
        var t := Recorded(current, heard.events, cfg.blank);
        InStepAgrees(earlier, t, c, heard.history);
        if c.calls == [] {
          ClosingAgrees(earlier, current, heard, s.hadResults && cfg.blank(c.text), cfg.blank);
        } else if SameProtocol(c.states) {
          CallsAgree(earlier, current, heard, c, n, r, cfg);
        } else {
          EscapedAgrees(earlier, t, c, heard, MixedProtocols, cfg.blank);
        }
      }
    }
  }

  lemma {:induction false} LoopAgrees(earlier: seq<Message>, current: Message, s: State, n: nat, cfg: Config,
                                      rounds: nat -> Round)
    requires forall k :: WellBehavedRound(rounds(k))
    requires AgreesAtEnd(earlier, Recorded(current, s.events, cfg.blank), s, cfg.blank)
    ensures var u := Loop(s, n, cfg, rounds);
            AgreesAtEnd(earlier, Recorded(current, u.events, cfg.blank), u, cfg.blank)
    decreases cfg.maxIterations + 1 - n
  {
    hide WellBehavedRound, RoundStep, Recorded, Agrees;
    if s.end.Ongoing? && n <= cfg.maxIterations {
      var u := RoundStep(s, n, rounds(n), cfg);
      RoundAgrees(earlier, current, s, n, rounds(n), cfg);
      hide AgreesAtEnd;
      LoopAgrees(earlier, current, u, n + 1, cfg, rounds);
    }
  }

  /** Runner and recorder agree: on every stream the loop produces the history the recorder kept is what the
      loop appended to its own, plus the final answer of a completed turn. The recorder is stopped where the
      loop is, and raises exactly if the loop concludes on a blank answer. If an error escapes the recorder
      waits for more; it may still be about to record the response whose tools lost their output. */
  lemma {:induction false} RunnerAndRecorderAgree(earlier: seq<Message>, current: Message, cfg: Config, rounds: nat -> Round)
    requires 1 <= cfg.maxIterations && forall k :: WellBehavedRound(rounds(k))
    ensures var s := Loop(Start(earlier + [current]), 1, cfg, rounds);
            var t := ConsumeAll(Begin(current), s.events, cfg.blank);
            && !s.end.Ongoing?
            && (s.end.Escaped? <==> Escapes(earlier + [current], cfg, rounds))
            && (s.end.Escaped? ==>
                  t.outcome.Running? && s.history == earlier + (if s.end.cause.StorageLost? then Persist(t) else t).history)
            && (s.end.Halted? ==> t.outcome.Terminated? && s.history == earlier + t.history)
            && (s.end.Concluded? && cfg.blank(t.text) ==> t.outcome.Raised? && s.history == earlier + t.history)
            && (s.end.Concluded? && !cfg.blank(t.text) ==>
                  t.outcome.Completed? && s.history + [Message(FromAssistant, t.text, [], [], None)] == earlier + t.history)
  {
    StartAgrees(earlier, current, cfg.blank);
    LoopKeeps(Start(earlier + [current]), 1, cfg, rounds);
    EscapesIff(earlier + [current], cfg, rounds);
    hide Loop, WellBehavedRound, TerminalsInv, AgreesAtEnd, ConsumeAll, Escapes;
    LoopAgrees(earlier, current, Start(earlier + [current]), 1, cfg, rounds);
    var s := Loop(Start(earlier + [current]), 1, cfg, rounds);
    EndIsAgreement(earlier, Recorded(current, s.events, cfg.blank), s, cfg.blank);
  }

  lemma {:induction false} StartAgrees(earlier: seq<Message>, current: Message, blank: Blank)
    ensures AgreesAtEnd(earlier, Recorded(current, [], blank), Start(earlier + [current]), blank)
  {
  }

  lemma {:induction false} EndIsAgreement(earlier: seq<Message>, t: Turn, s: State, blank: Blank)
    requires AgreesAtEnd(earlier, t, s, blank) && !s.end.Ongoing?
    ensures s.end.Escaped? ==>
      t.outcome.Running? && s.history == earlier + (if s.end.cause.StorageLost? then Persist(t) else t).history
    ensures s.end.Halted? ==> t.outcome.Terminated? && s.history == earlier + t.history
    ensures s.end.Concluded? && blank(t.text) ==> t.outcome.Raised? && s.history == earlier + t.history
    ensures s.end.Concluded? && !blank(t.text) ==>
      t.outcome.Completed? && s.history + [Message(FromAssistant, t.text, [], [], None)] == earlier + t.history
  {
    if s.end.Concluded? && !blank(t.text) {
      var front, last := t.history[..|t.history| - 1], t.history[|t.history| - 1];
      assert t.history == front + [last];
      Reassociate(earlier, front, [last]);
    }
  }

  // ---- state on a closing event ----

  /** The event as a recorder could hear it: the loop keeps `completed` back, and its state with it. */
  function WithoutClosing(e: ProviderEvent): ProviderEvent {
    if e.kind.Done? then e.(state := None) else e
  }

  function HeardEvents(events: seq<ProviderEvent>): seq<ProviderEvent> {
    if events == [] then [] else [WithoutClosing(events[0])] + HeardEvents(events[1..])
  }

  function Heard(r: Round): Round {
    r.(attempts := (k: nat) => r.attempts(k).(events := HeardEvents(r.attempts(k).events)))
  }

  ghost predicate StatesWithin(x: seq<ProviderState>, y: seq<ProviderState>) {
    forall p :: p in x ==> p in y
  }

  /** The same stream, but for states the second collector has not seen. */
  ghost predicate SameStream(s: Stream, u: Stream) {
    u == s.(c := s.c.(states := u.c.states)) && StatesWithin(u.c.states, s.c.states)
  }

  lemma {:induction false} HeardObserve(c: Collector, d: Collector, e: ProviderEvent)
    requires d == c.(states := d.states) && StatesWithin(d.states, c.states)
    ensures var u, v := Observe(c, e), Observe(d, WithoutClosing(e));
            v == u.(states := v.states) && StatesWithin(v.states, u.states)
    ensures Forward(WithoutClosing(e)) == Forward(e) && Invalid(WithoutClosing(e)) == Invalid(e)
  {
  }

  lemma {:induction false} HeardTake(s: Stream, u: Stream, events: seq<ProviderEvent>)
    requires s.end.Streaming? && SameStream(s, u)
    ensures SameStream(TakeEvents(s, events), TakeEvents(u, HeardEvents(events)))
    decreases |events|
  {
    if events != [] {
      HeardObserve(s.c, u.c, events[0]);
      assert HeardEvents(events)[1..] == HeardEvents(events[1..]);
      hide Observe, Forward;
      if !Invalid(events[0]) {
        var e := WithoutClosing(events[0]);
        HeardTake(s.(c := Observe(s.c, events[0]), emitted := s.emitted + Forward(events[0])),
                  u.(c := Observe(u.c, e), emitted := u.emitted + Forward(e)), events[1..]);
      }
    }
  }

  lemma {:induction false} HeardOnlyUsage(events: seq<ProviderEvent>)
    ensures OnlyUsage(HeardEvents(events)) <==> OnlyUsage(events)
    ensures (forall e :: e in events ==> !e.kind.Stray?) ==> WellBehaved(HeardEvents(events))
  {
    if events != [] {
      HeardOnlyUsage(events[1..]);
      assert events == [events[0]] + events[1..];
    }
  }

  lemma {:induction false} SameStreamUpdate(s: Stream, u: Stream, more: seq<StreamEvent>, end: StreamEnd)
    requires SameStream(s, u)
    ensures s.end == u.end && s.attempts == u.attempts
    ensures SameStream(s.(emitted := s.emitted + more), u.(emitted := u.emitted + more))
    ensures SameStream(s.(end := end), u.(end := end))
    ensures SameStream(s.(emitted := s.emitted + more).(end := end), u.(emitted := u.emitted + more).(end := end))
    ensures SameStream(s.(attempts := s.attempts + 1), u.(attempts := u.attempts + 1))
  {
  }

  /** One attempt of both streams. */
  lemma {:induction false} HeardAttempt(r: Round, s: Stream, u: Stream)
    requires s.end.Streaming? && u.end.Streaming? && SameStream(s, u)
    ensures var a, h := r.attempts(s.attempts), Heard(r).attempts(u.attempts);
            && h.ending == a.ending && (OnlyUsage(h.events) <==> OnlyUsage(a.events))
            && SameStream(TakeEvents(s, a.events).(attempts := s.attempts + 1),
                          TakeEvents(u, h.events).(attempts := u.attempts + 1))
            && TakeEvents(s, a.events).end == TakeEvents(u, h.events).end
  {
    var a := r.attempts(s.attempts);
    HeardTake(s, u, a.events);
    HeardOnlyUsage(a.events);
    hide TakeEvents, OnlyUsage, HeardEvents, StatesWithin;
  }

  lemma {:induction false} HeardAttempts(r: Round, cfg: Config, s: Stream, u: Stream, transient: nat, recovered: bool)
    requires s.end.Streaming? && u.end.Streaming? && transient <= 2 && SameStream(s, u)
    ensures SameStream(Attempts(r, cfg, s, transient, recovered), Attempts(Heard(r), cfg, u, transient, recovered))
    decreases 2 - transient, if recovered then 0 else 1
  {
    hide TakeEvents, OnlyUsage, HeardEvents, Heard, StatusIf, SameStream;
    HeardAttempt(r, s, u);
    var a, h := r.attempts(s.attempts), Heard(r).attempts(u.attempts);
    var v := TakeEvents(s, a.events).(attempts := s.attempts + 1);
    var w := TakeEvents(u, h.events).(attempts := u.attempts + 1);
    match a.ending
    case Ends => SameStreamUpdate(v, w, [], Through);
    case Interrupted => SameStreamUpdate(v, w, [], Cut);
    case Overflows(recovery) =>
      var told := StatusIf(recovery.status);
      SameStreamUpdate(v, w, told, Broken);
      if v.end.Streaming? && recovery.Recovered? && cfg.manager && OnlyUsage(a.events) && !recovered && cfg.retry {
        HeardAttempts(r, cfg, v.(emitted := v.emitted + told), w.(emitted := w.emitted + told), transient, true);
      }
    case Errs(retryable) =>
      SameStreamUpdate(v, w, [], Broken);
      if v.end.Streaming? && cfg.retry && retryable && OnlyUsage(a.events) && transient < 2 {
        HeardAttempts(r, cfg, v, w, transient + 1, recovered);
      }
  }

  lemma {:induction false} HeardRespond(r: Round, cfg: Config)
    ensures SameStream(Respond(r, cfg), Respond(Heard(r), cfg))
    ensures SameProtocol(Respond(r, cfg).c.states) ==> SameProtocol(Respond(Heard(r), cfg).c.states)
  {
    hide Attempts;
    HeardAttempts(r, cfg, Stream(EMPTY, [], Streaming, 0), Stream(EMPTY, [], Streaming, 0), 0, false);
  }

  /** The round gets a response that calls tools into the history. */
  predicate RecordsCalls(r: Round, cfg: Config) {
    AnnouncesCalls(r, cfg) && SameProtocol(Respond(r, cfg).c.states)
  }

  /** The closing event adds nothing to the state the response is recorded with. */
  predicate StatesHeard(r: Round, cfg: Config) {
    Merged(Respond(r, cfg).c.states) == Merged(Respond(Heard(r), cfg).c.states)
  }

  /** The same loop, but for the histories. */
  predicate SameRun(s: State, u: State) {
    u == s.(history := u.history) && |s.history| == |u.history|
  }

  /** What the calls add to the history, and that nothing else depends on it. */
  lemma {:induction false} CallsHistory(s: State, c: Collector, n: nat, r: Round, cfg: Config)
    ensures var t := RunTools(c.calls, s.unknown, r.tools, cfg);
            var m := Message(FromAssistant, c.text, c.calls, [], Merged(c.states));
            RunCalls(s, c, n, r, cfg).history
            == if t.end.Lost? || t.end.Working? then s.history + [m] else s.history + [m] + [ResultsMessage(t.results)]
  {
    hide RunTools, Merged, AnsweredAll;
  }

  lemma {:induction false} CallsIgnoreHistory(s: State, u: State, c: Collector, d: Collector, n: nat, r: Round, cfg: Config)
    requires u == s.(history := u.history) && d == c.(states := d.states)
    ensures RunCalls(u, d, n, r, cfg) == RunCalls(s, c, n, r, cfg).(history := RunCalls(u, d, n, r, cfg).history)
  {
    hide RunTools, Merged, AnsweredAll;
    if RunTools(c.calls, s.unknown, r.tools, cfg).end.AllRun? {
      return;
    }
  }

  lemma {:induction false} CallsIgnoreAttempts(s: State, c: Collector, n: nat, r: Round, cfg: Config)
    ensures RunCalls(s, c, n, Heard(r), cfg) == RunCalls(s, c, n, r, cfg)
  {
    hide RunTools, Merged, AnsweredAll;
  }

  lemma {:induction false} HeardCalls(s: State, u: State, c: Collector, d: Collector, n: nat, r: Round, cfg: Config)
    requires SameRun(s, u) && d == c.(states := d.states)
    ensures var x, y := RunCalls(s, c, n, r, cfg), RunCalls(u, d, n, Heard(r), cfg);
            SameRun(x, y) && (x.history == y.history <==> s.history == u.history && Merged(c.states) == Merged(d.states))
  {
    CallsIgnoreAttempts(u, d, n, r, cfg);
    CallsIgnoreHistory(s, u, c, d, n, r, cfg);
    CallsHistory(s, c, n, r, cfg);
    CallsHistory(u, d, n, r, cfg);
    hide RunCalls, RunTools, Merged;
    var m, w := Message(FromAssistant, c.text, c.calls, [], Merged(c.states)), Message(FromAssistant, c.text, c.calls, [], Merged(d.states));
    var results := ResultsMessage(RunTools(c.calls, s.unknown, r.tools, cfg).results);
    SameEnds(s.history, u.history, m, w);
    SameEnds(s.history + [m], u.history + [w], results, results);
  }

  lemma {:induction false} SameEnds(x: seq<Message>, y: seq<Message>, m: Message, w: Message)
    requires |x| == |y|
    ensures x + [m] == y + [w] <==> x == y && m == w
  {
    if x + [m] == y + [w] {
      assert x == (x + [m])[..|x|] && y == (y + [w])[..|y|];
      assert (x + [m])[|x|] == m && (y + [w])[|y|] == w;
    }
  }

  lemma {:induction false} AskEnds(s: State, r: Round, cfg: Config)
    requires s.end.Ongoing?
    ensures var x := AskModel(s, r, cfg);
            && x.history == s.history && x.unknown == s.unknown
            && (r.preparation.Cancels? ==> x.end == Escaped(PreparationCancelled))
            && (!r.preparation.Cancels? ==> !x.end.Escaped?)
            && (x.end.Ongoing? <==> r.preparation.Ready? && Respond(r, cfg).end.Through? && Respond(r, cfg).c.completed)
  {
    RespondEnds(r, cfg);
    var begun := Emit(s, [Plainly(ModelPhase)]);
    match r.preparation
    case OverLimit => HaltKeeps(Emit(begun, [Plainly(Other)]), "Agent stopped because context cannot be sent safely.");
    case Unprepared => HaltKeeps(begun, "Agent stopped because context preparation failed.");
    case Cancels =>
    case Ready(status) =>
      var t := Respond(r, cfg);
      var heard := Emit(Emit(begun, StatusIf(status)), t.emitted).(strays := s.strays + Terminals(t.emitted));
      hide Respond, Terminals, StatusIf;
      HaltKeeps(heard, "Agent cancelled.");
      HaltKeeps(heard, "Agent stopped because the provider stream failed.");
      HaltKeeps(heard, "Agent stopped because the provider stream ended unexpectedly.");
      hide Halt;
  }

  lemma {:induction false} HaltKeeps(s: State, reason: string)
    ensures Halt(s, reason).history == s.history && Halt(s, reason).unknown == s.unknown && Halt(s, reason).end.Halted?
  {
  }

  lemma {:induction false} HeardAsk(s: State, u: State, r: Round, cfg: Config)
    requires SameRun(s, u)
    ensures SameRun(AskModel(s, r, cfg), AskModel(u, Heard(r), cfg))
  {
    HeardRespond(r, cfg);
    var t := Respond(r, cfg);
    var x, y := Emit(s, [Plainly(ModelPhase)]), Emit(u, [Plainly(ModelPhase)]);
    hide Respond, Terminals, StatusIf, SameProtocol, StatesWithin;
    match r.preparation
    case OverLimit =>
      HeardHalt(Emit(x, [Plainly(Other)]), Emit(y, [Plainly(Other)]), "Agent stopped because context cannot be sent safely.");
    case Unprepared => HeardHalt(x, y, "Agent stopped because context preparation failed.");
    case Cancels =>
    case Ready(status) =>
      var v := Emit(Emit(x, StatusIf(status)), t.emitted).(strays := x.strays + Terminals(t.emitted));
      var w := Emit(Emit(y, StatusIf(status)), t.emitted).(strays := y.strays + Terminals(t.emitted));
      HeardHalt(v, w, "Agent cancelled.");
      HeardHalt(v, w, "Agent stopped because the provider stream failed.");
      HeardHalt(v, w, "Agent stopped because the provider stream ended unexpectedly.");
      hide Halt;
  }

  lemma {:induction false} HeardHalt(s: State, u: State, reason: string)
    requires SameRun(s, u)
    ensures SameRun(Halt(s, reason), Halt(u, reason))
  {
  }

  lemma {:induction false} RespondEnds(r: Round, cfg: Config)
    ensures !Respond(r, cfg).end.Streaming?
  {
    hide Attempts;
    AttemptsAreBounded(r, cfg, Stream(EMPTY, [], Streaming, 0), 0, false);
  }

  ghost predicate NoStrays(r: Round) {
    forall j: nat, e :: e in r.attempts(j).events ==> !e.kind.Stray?
  }

  /** The round as a recorder hears it, ending where the real one raises. */
  function HeardStep(u: State, n: nat, r: Round, cfg: Config): State {
    if AnnouncesCalls(r, cfg) && !SameProtocol(Respond(r, cfg).c.states)
    then AskModel(u, Heard(r), cfg).(end := Escaped(MixedProtocols))
    else RoundStep(u, n, Heard(r), cfg)
  }

  lemma {:induction false} HeardRound(s: State, u: State, n: nat, r: Round, cfg: Config)
    requires SameRun(s, u) && s.end.Ongoing?
    ensures var x, y := RoundStep(s, n, r, cfg), HeardStep(u, n, r, cfg);
            && SameRun(x, y)
            && (x.history == y.history <==> s.history == u.history && (RecordsCalls(r, cfg) ==> StatesHeard(r, cfg)))
  {
    HeardRespond(r, cfg);
    HeardAsk(s, u, r, cfg);
    AskEnds(s, r, cfg);
    AskEnds(u, Heard(r), cfg);
    hide AskModel, RunCalls, Respond, SameProtocol, Merged, StatesWithin;
    HeardCalls(AskModel(s, r, cfg), AskModel(u, Heard(r), cfg), Respond(r, cfg).c, Respond(Heard(r), cfg).c, n, r, cfg);
  }

  lemma {:induction false} HeardIsWellBehaved(r: Round)
    requires NoStrays(r)
    ensures WellBehavedRound(Heard(r))
  {
    forall j: nat ensures WellBehaved(Heard(r).attempts(j).events) {
      HeardOnlyUsage(r.attempts(j).events);
    }
  }

  lemma {:induction false} HeardStepAgrees(earlier: seq<Message>, current: Message, u: State, n: nat, r: Round, cfg: Config)
    requires u.end.Ongoing? && NoStrays(r)
    requires Agrees(earlier, Recorded(current, u.events, cfg.blank), u.history)
    ensures var y := HeardStep(u, n, r, cfg);
            AgreesAtEnd(earlier, Recorded(current, y.events, cfg.blank), y, cfg.blank)
  {
    HeardIsWellBehaved(r);
    HeardRespond(r, cfg);
    AskEnds(u, Heard(r), cfg);
    hide AskModel, Respond, Recorded, Agrees, AgreesAtEnd, InStep, RunCalls, WellBehavedRound, RoundStep, SameProtocol, NoStrays;
    if AnnouncesCalls(r, cfg) && !SameProtocol(Respond(r, cfg).c.states) {
      AskAgrees(earlier, current, u, Heard(r), cfg);
      var heard := AskModel(u, Heard(r), cfg);
      EscapedAgrees(earlier, Recorded(current, heard.events, cfg.blank), Respond(Heard(r), cfg).c, heard, MixedProtocols, cfg.blank);
    } else {
      RoundAgrees(earlier, current, u, n, Heard(r), cfg);
    }
  }

  /** Beside the loop runs one that hears what the recorder hears: `w` is where it ends. */
  lemma {:induction false} HeardLoop(earlier: seq<Message>, current: Message, s: State, u: State, n: nat, cfg: Config,
                                     rounds: nat -> Round) returns (w: State)
    requires SameRun(s, u) && forall k :: NoStrays(rounds(k))
    requires AgreesAtEnd(earlier, Recorded(current, u.events, cfg.blank), u, cfg.blank)
    ensures var x := Loop(s, n, cfg, rounds);
            && SameRun(x, w) && AgreesAtEnd(earlier, Recorded(current, w.events, cfg.blank), w, cfg.blank)
            && (x.history == w.history <==>
                  s.history == u.history
                  && forall k :: Reached(s, n, k, cfg, rounds) && RecordsCalls(rounds(k), cfg) ==> StatesHeard(rounds(k), cfg))
    decreases cfg.maxIterations + 1 - n
  {
    hide RoundStep, RecordsCalls, StatesHeard, HeardStep, NoStrays, Recorded, Agrees;
    if s.end.Ongoing? && n <= cfg.maxIterations {
      var v, y := RoundStep(s, n, rounds(n), cfg), HeardStep(u, n, rounds(n), cfg);
      HeardRound(s, u, n, rounds(n), cfg);
      HeardStepAgrees(earlier, current, u, n, rounds(n), cfg);
      assert forall k :: Reached(s, n, k, cfg, rounds) <==> k == n || Reached(v, n + 1, k, cfg, rounds);
      hide AgreesAtEnd;
      w := HeardLoop(earlier, current, v, y, n + 1, cfg, rounds);
      hide Reached;
    } else {
      w := u;
    }
  }

  /** Runner and recorder without that discipline: where no stray event ends the recording early, their
      histories agree, however the run ends, exactly if in every round that records calls the closing event
      adds nothing to the state of the response. */
  lemma {:induction false} RunnerAndRecorderAgreeIff(earlier: seq<Message>, current: Message, cfg: Config, rounds: nat -> Round)
    requires 1 <= cfg.maxIterations
    requires forall k, j: nat, e :: e in rounds(k).attempts(j).events ==> !e.kind.Stray?
    ensures var start := Start(earlier + [current]);
            var s := Loop(start, 1, cfg, rounds);
            var t := ConsumeAll(Begin(current), s.events, cfg.blank);
            var told := if s.end.Concluded? && !cfg.blank(t.text) then [Message(FromAssistant, t.text, [], [], None)] else [];
            var kept := if s.end == Escaped(StorageLost) then Persist(t) else t;
            s.history + told == earlier + kept.history <==>
              forall k :: Reached(start, 1, k, cfg, rounds) && RecordsCalls(rounds(k), cfg) ==> StatesHeard(rounds(k), cfg)
  {
    var start := Start(earlier + [current]);
    assert forall k :: NoStrays(rounds(k));
    StartAgrees(earlier, current, cfg.blank);
    LoopKeeps(start, 1, cfg, rounds);
    hide Loop, Reached, RecordsCalls, StatesHeard, ConsumeAll, AgreesAtEnd, TerminalsInv, NoStrays, Persist;
    var w := HeardLoop(earlier, current, start, start, 1, cfg, rounds);
    var s := Loop(start, 1, cfg, rounds);
    hide *;
    SameEndSameAgreement(earlier, Recorded(current, s.events, cfg.blank), s, w, cfg.blank);
  }

  /** A run agrees with the recorder exactly if its history is that of one that does. */
  lemma {:induction false} SameEndSameAgreement(earlier: seq<Message>, t: Turn, s: State, w: State, blank: Blank)
    requires SameRun(s, w) && AgreesAtEnd(earlier, t, w, blank) && !s.end.Ongoing?
    ensures var told := if s.end.Concluded? && !blank(t.text) then [Message(FromAssistant, t.text, [], [], None)] else [];
            var kept := if s.end == Escaped(StorageLost) then Persist(t) else t;
            s.history + told == earlier + kept.history <==> s.history == w.history
  {
    EndIsAgreement(earlier, t, w, blank);
    var answer := Message(FromAssistant, t.text, [], [], None);
    SameEnds(s.history, w.history, answer, answer);
    assert s.history + [] == s.history;
    hide AgreesAtEnd, Persist;
  }

  lemma {:induction false} OnlyTerminalsEnd(t: Turn, e: StreamEvent, blank: Blank)
    requires Ended(Consume(t, e, blank))
    ensures Terminal(e)
  {
    hide CallRows, AssistantRow, Merged, SameProtocol, ResultRow;
  }

  lemma {:induction false} EndNeedsTerminal(turn: SessionTurn, n: nat, blank: Blank)
    requires n <= |turn.events| && EverEnded(turn, n, blank)
    ensures Terminals(turn.events[..n]) > 0
  {
    hide Consume, Ended, AfterEvents, Terminal;
    assert turn.events[..n][..n - 1] == turn.events[..n - 1];
    OneEventMore(turn, n - 1, blank);
    if Ended(AfterEvents(turn, n, blank)) {
      OnlyTerminalsEnd(AfterEvents(turn, n - 1, blank), turn.events[n - 1], blank);
    } else {
      EndNeedsTerminal(turn, n - 1, blank);
    }
  }

  /** After a run without stray events the controller takes the turn over exactly if no error escaped from it
      and it did not conclude on a blank answer. */
  lemma {:induction false} TurnIsKeptIff(earlier: seq<Message>, text: string, metadata: Option<Metadata>, cfg: Config,
                                         rounds: nat -> Round)
    requires 1 <= cfg.maxIterations
    requires forall k, j: nat, e :: e in rounds(k).attempts(j).events ==> !e.kind.Stray?
    ensures var messages := earlier + [UserMessage(text)];
            var s := Loop(Start(messages), 1, cfg, rounds);
            var turn := SessionTurn(text, metadata, s.events);
            EndsOnce(turn, cfg.blank) <==>
              !Escapes(messages, cfg, rounds) && !(s.end.Concluded? && cfg.blank(TurnOf(turn, cfg.blank).text))
  {
    var current := UserMessage(text);
    var start := Start(earlier + [current]);
    assert forall k :: NoStrays(rounds(k));
    StartAgrees(earlier, current, cfg.blank);
    LoopKeeps(start, 1, cfg, rounds);
    EscapesIff(earlier + [current], cfg, rounds);
    OneTerminalEvent(earlier + [current], cfg, rounds);
    hide Loop, Reached, RecordsCalls, StatesHeard, ConsumeAll, AgreesAtEnd, TerminalsInv, NoStrays, Escapes, Terminals;
    var w := HeardLoop(earlier, current, start, start, 1, cfg, rounds);
    var s := Loop(start, 1, cfg, rounds);
    EndIsAgreement(earlier, Recorded(current, s.events, cfg.blank), w, cfg.blank);
    EndedIsKept(SessionTurn(text, metadata, s.events), cfg.blank);
  }

  lemma {:induction false} EndedIsKept(turn: SessionTurn, blank: Blank)
    ensures var t := TurnOf(turn, blank);
            && (Ended(t) ==> EndsOnce(turn, blank))
            && (t.outcome.Running? ==> !EndsOnce(turn, blank))
            && (turn.events != [] && Terminals(turn.events[..|turn.events| - 1]) == 0 && EndsOnce(turn, blank) ==> Ended(t))
  {
    assert turn.events[..|turn.events|] == turn.events;
    GainedOnce(turn, |turn.events|, blank);
    if turn.events != [] && EverEnded(turn, |turn.events| - 1, blank) {
      EndNeedsTerminal(turn, |turn.events| - 1, blank);
    }
    hide Terminals, Gained;
  }

  lemma {:induction false} RecorderStops(t: Turn, events: seq<StreamEvent>, blank: Blank)
    requires Terminals(events) > 0
    ensures !ConsumeAll(t, events, blank).outcome.Running?
  {
    var front := events[..|events| - 1];
    if Terminals(front) > 0 { RecorderStops(t, front, blank); }
  }

  /** A stray error or cancellation among a provider's events makes the recorder raise, unless an
      error escapes right after it: the loop goes on past it, and the recorder takes nothing after a terminal
      event. */
  lemma {:induction false} StrayMakesRecorderRaise(messages: seq<Message>, current: Message, cfg: Config, rounds: nat -> Round,
                                                   k: nat)
    requires 1 <= cfg.maxIterations
    requires Reached(Start(messages), 1, k, cfg, rounds) && Asks(rounds(k)) && !AsksStrayFree(rounds(k), cfg)
    ensures var s := Loop(Start(messages), 1, cfg, rounds);
            var t := ConsumeAll(Begin(current), s.events, cfg.blank);
            if Escapes(messages, cfg, rounds) then !t.outcome.Running? else t.outcome.Raised?
  {
    hide Reached, Asks, AsksStrayFree, Loop, Escapes;
    StreamEnds(messages, cfg, rounds);
    EscapesIff(messages, cfg, rounds);
    LoopCountsStrays(Start(messages), 1, cfg, rounds);
    var s := Loop(Start(messages), 1, cfg, rounds);
    if s.end.Escaped? {
      RecorderStops(Begin(current), s.events, cfg.blank);
    } else {
      RecorderStops(Begin(current), s.events[..|s.events| - 1], cfg.blank);
    }
  }

  // ---- single runs that show what can go wrong ----

  /** A round whose only attempt calls one tool, with a state on the call and one on the closing event. */
  function CallingRound(call: Call, first: Option<ProviderState>, closing: Option<ProviderState>, step: ToolStep): Round {
    Round(false, Ready(false),
          (k: nat) => ProviderAttempt([ProviderEvent(Request(Some(call)), first), ProviderEvent(Done, closing)], Ends),
          (c: Call) => step, None)
  }

  function IfAny(state: Option<ProviderState>): seq<ProviderState> {
    if state.Some? then [state.value] else []
  }

  lemma {:induction false} TakeTwo(a: ProviderEvent, b: ProviderEvent)
    requires !Invalid(a) && !Invalid(b)
    ensures TakeEvents(Stream(EMPTY, [], Streaming, 0), [a, b])
         == Stream(Observe(Observe(EMPTY, a), b), Forward(a) + Forward(b), Streaming, 0)
    ensures HeardEvents([a, b]) == [WithoutClosing(a), WithoutClosing(b)]
  {
    hide Observe, Forward;
    assert [a, b][1..] == [b] && [b][1..] == [];
    assert [] + Forward(a) == Forward(a);
    var s0 := Stream(EMPTY, [], Streaming, 0);
    var s1 := s0.(c := Observe(EMPTY, a), emitted := Forward(a));
    assert TakeEvents(s0, [a, b]) == TakeEvents(s1, [b]);
    assert HeardEvents([b]) == [WithoutClosing(b)];
  }

  lemma {:induction false} CallingResponse(call: Call, first: Option<ProviderState>, closing: Option<ProviderState>,
                                           step: ToolStep, cfg: Config)
    ensures var r := CallingRound(call, first, closing, step);
            && Respond(r, cfg) == Stream(Collector("", [call], true, IfAny(first) + IfAny(closing)),
                                         [StreamEvent(Called(call), first)], Through, 1)
            && Respond(Heard(r), cfg).c.states == IfAny(first)
  {
    var a, b := ProviderEvent(Request(Some(call)), first), ProviderEvent(Done, closing);
    TakeTwo(a, b);
    TakeTwo(a, WithoutClosing(b));
    assert IfAny(first) + [] == IfAny(first);
    hide TakeEvents, HeardEvents;
  }

  lemma {:induction false} OneRoundRun(messages: seq<Message>, cfg: Config, rounds: nat -> Round)
    requires 1 <= cfg.maxIterations && !RoundStep(Start(messages), 1, rounds(1), cfg).end.Ongoing?
    ensures Loop(Start(messages), 1, cfg, rounds) == RoundStep(Start(messages), 1, rounds(1), cfg)
  {
    hide RoundStep, Reached;
    EndedStays(RoundStep(Start(messages), 1, rounds(1), cfg), 2, cfg, rounds);
  }

  lemma {:induction false} OneCallBatches(call: Call, cfg: Config)
    ensures Batches([call], [], cfg) == [[call]]
  {
    hide Batchable;
    assert [call][1..] == [] && [] + [call] == [call];
  }

  /** How a round of one call ends, with its tool cancelled or its storage lost. */
  lemma {:induction false} OneCallEnds(s: State, call: Call, first: Option<ProviderState>, closing: Option<ProviderState>,
                                       step: ToolStep, cfg: Config)
    requires s.end.Ongoing?
    ensures var u := RoundStep(s, 1, CallingRound(call, first, closing, step), cfg);
            if !SameProtocol(IfAny(first) + IfAny(closing)) then u.end == Escaped(MixedProtocols) && u.history == s.history
            else if step.cancelledAtBatch then u.end.Halted?
            else if step.outcome.StorageFails? && !step.cancelled then
              && u.end == Escaped(StorageLost)
              && u.history == s.history + [Message(FromAssistant, "", [call], [], Merged(IfAny(first) + IfAny(closing)))]
            else true
  {
    var r := CallingRound(call, first, closing, step);
    CallingResponse(call, first, closing, step, cfg);
    var heard := AskModel(s, r, cfg);
    assert heard.end.Ongoing? && heard.history == s.history;
    OneCallRuns(heard, call, step, cfg);
    hide Respond, AskModel, Terminals, StatusIf, RunTools, SameProtocol, Merged, AnsweredAll;
  }

  lemma {:induction false} OneCallRuns(s: State, call: Call, step: ToolStep, cfg: Config)
    ensures var t := RunTools([call], s.unknown, (c: Call) => step, cfg);
            && (step.cancelledAtBatch ==> t.end.ToolsCancelled?)
            && (!step.cancelledAtBatch && !step.cancelled && step.outcome.StorageFails? ==> t.end.Lost?)
  {
    OneCallBatches(call, cfg);
    hide Batches, Batchable, TakeResults, Fill;
  }

  /** A run that parts the views: its one round puts state on the closing event, and the user then cancels.
      The loop's history has that state, the recorder's has not. */
  lemma {:induction false} ClosingStateIsKeptBack(earlier: seq<Message>, current: Message, call: Call, state: ProviderState,
                                                  cfg: Config)
    requires 1 <= cfg.maxIterations
    ensures var s := Loop(Start(earlier + [current]), 1, cfg, k => CallingRound(call, None, Some(state), ToolStep(true, true, Fails)));
            && s.end.Halted?
            && s.history != earlier + ConsumeAll(Begin(current), s.events, cfg.blank).history
  {
    var step := ToolStep(true, true, Fails);
    var r := CallingRound(call, None, Some(state), step);
    var rounds := (k: nat) => r;
    var start := Start(earlier + [current]);
    CallingResponse(call, None, Some(state), step, cfg);
    assert IfAny(None) + IfAny(Some(state)) == [state];
    assert Merged([state]) != Merged([]);
    assert RecordsCalls(r, cfg) && !StatesHeard(r, cfg);
    assert Reached(start, 1, 1, cfg, rounds);
    OneCallEnds(start, call, None, Some(state), step, cfg);
    OneRoundRun(earlier + [current], cfg, rounds);
    assert forall k, j: nat, e :: e in rounds(k).attempts(j).events ==> !e.kind.Stray?;
    hide Loop, Reached, RecordsCalls, StatesHeard, ConsumeAll, CallingRound, RoundStep;
    RunnerAndRecorderAgreeIff(earlier, current, cfg, rounds);
    var s := Loop(start, 1, cfg, rounds);
    assert s.history + [] == s.history;
  }

  lemma {:induction false} CancelledPreparation(s: State, n: nat, r: Round, cfg: Config)
    requires s.end.Ongoing? && !r.cancelled && r.preparation.Cancels?
    ensures RoundStep(s, n, r, cfg) == Emit(s, [Plainly(ModelPhase)]).(end := Escaped(PreparationCancelled))
  {
    hide Respond, RunCalls, Conclude, Halt;
  }

  /** Cancelled while its first request is being compacted, a run passes on the start of the model's phase
      and nothing more: no terminal event, nothing appended. */
  lemma {:induction false} CancelledPreparationEscapes(messages: seq<Message>, cfg: Config, rounds: nat -> Round)
    requires 1 <= cfg.maxIterations && !rounds(1).cancelled && rounds(1).preparation.Cancels?
    ensures var s := Loop(Start(messages), 1, cfg, rounds);
            && s.end == Escaped(PreparationCancelled) && s.history == messages
            && s.events == [Plainly(ModelPhase)] && Terminals(s.events) == 0
  {
    CancelledPreparation(Start(messages), 1, rounds(1), cfg);
    hide RoundStep, Loop, Terminals;
    OneRoundRun(messages, cfg, rounds);
    StreamEnds(messages, cfg, rounds);
    assert [] + [Plainly(ModelPhase)] == [Plainly(ModelPhase)];
  }

  /** A run whose one tool cannot store its output has recorded the call and passes no result on; one whose
      response has states of two protocols records nothing. Neither has a terminal event. */
  lemma {:induction false} OneCallEscapes(messages: seq<Message>, call: Call, first: Option<ProviderState>,
                                          closing: Option<ProviderState>, cfg: Config)
    requires 1 <= cfg.maxIterations
    ensures var s := Loop(Start(messages), 1, cfg, k => CallingRound(call, first, closing, ToolStep(false, false, StorageFails)));
            && Terminals(s.events) == 0
            && if SameProtocol(IfAny(first) + IfAny(closing)) then
                 && s.end == Escaped(StorageLost)
                 && s.history == messages + [Message(FromAssistant, "", [call], [], Merged(IfAny(first) + IfAny(closing)))]
               else s.end == Escaped(MixedProtocols) && s.history == messages
  {
    var step := ToolStep(false, false, StorageFails);
    var r := CallingRound(call, first, closing, step);
    var rounds := (k: nat) => r;
    var start := Start(messages);
    OneCallEnds(start, call, first, closing, step, cfg);
    assert forall k, j: nat, e :: e in rounds(k).attempts(j).events ==> !e.kind.Stray?;
    hide RoundStep, CallingRound, SameProtocol, Merged, Terminals, Escapes, Loop;
    OneRoundRun(messages, cfg, rounds);
    EscapesIff(messages, cfg, rounds);
    OneTerminalEvent(messages, cfg, rounds);
  }
}
