/** Recording one turn: the stream of an agent run becomes timeline rows and conversation history. */
module Turns {
  import opened Wrappers
  import opened Timeline
  import opened Projection

  datatype StreamKind =
    | TextDelta(text: string)
    | Called(call: Call)
    | Answered(result: CallResult)
    | ModelPhase
    | ToolsPhase
    | Finished
    | Stopped(reason: string)
    | Other

  /** Any event may carry provider state. */
  datatype StreamEvent = StreamEvent(kind: StreamKind, state: Option<ProviderState>)

  datatype Outcome = Running | Completed | Terminated | Raised

  /** The recorder's fields, and every row it has appended. */
  datatype Turn = Turn(
    history: seq<Message>, text: string, calls: seq<Call>, states: seq<ProviderState>,
    pending: seq<CallResult>, persisted: bool, outcome: Outcome, answer: string, rows: seq<Row>)

  type Blank = string -> bool

  function Begin(current: Message): Turn {
    Turn([current], "", [], [], [], false, Running, "", [])
  }

  // ---- provider state and metadata ----

  predicate SameProtocol(states: seq<ProviderState>) {
    forall s :: s in states ==> s.protocol == states[0].protocol
  }

  function JoinBlocks(states: seq<ProviderState>): seq<Metadata> {
    if states == [] then [] else JoinBlocks(states[..|states| - 1]) + states[|states| - 1].blocks
  }

  /** All blocks of one protocol in order. */
  function Merged(states: seq<ProviderState>): Option<ProviderState> {
    if states == [] then None else Some(ProviderState(states[0].protocol, JoinBlocks(states)))
  }

  function CallItem(call: Call): Json {
    Object(map["id" := Text(call.id), "name" := Text(call.name), "arguments" := Object(call.arguments)])
  }

  function CallItems(calls: seq<Call>): seq<Json> {
    if calls == [] then [] else [CallItem(calls[0])] + CallItems(calls[1..])
  }

  function ProtocolText(p: Protocol): Json {
    Text(if p.Anthropic? then "anthropic" else "openai")
  }

  function StateItem(s: ProviderState): Json {
    Object(map["protocol" := ProtocolText(s.protocol),
               "thinking_blocks" := List(BlockItems(s.blocks))])
  }

  function AssistantMetadata(calls: seq<Call>, state: Option<ProviderState>): Metadata {
    map["tool_calls" := List(CallItems(calls))]
    + (if state.Some? then map["provider_state" := StateItem(state.value)] else map[])
  }

  function AssistantRow(content: string, calls: seq<Call>, state: Option<ProviderState>): Row {
    Row(Assistant, content, None, Some(AssistantMetadata(calls, state)))
  }

  function CallRow(call: Call): Row {
    Row(ToolCall, call.name, Some(call.id), Some(map["arguments" := Object(call.arguments)]))
  }

  function CallRows(calls: seq<Call>): seq<Row> {
    if calls == [] then [] else CallRows(calls[..|calls| - 1]) + [CallRow(calls[|calls| - 1])]
  }

  function ResultRow(r: CallResult): Row {
    Row(ToolResult, r.output, Some(r.callId), Some(ResultMetadata(r)))
  }

  // ---- one event ----

  function Flushed(t: Turn): Turn {
    if t.pending == [] then t else t.(history := t.history + [ResultsMessage(t.pending)], pending := [])
  }

  function Persist(t: Turn): Turn {
    if t.persisted then t
    else
      t.(history := t.history + [Message(FromAssistant, t.text, t.calls, [], Merged(t.states))],
         persisted := true,
         rows := t.rows + [AssistantRow(t.text, t.calls, Merged(t.states))] + CallRows(t.calls))
  }

  function RecordResult(t: Turn, r: CallResult): Turn {
    if !t.persisted && !SameProtocol(t.states) then t.(outcome := Raised)
    else
      var p := Persist(t);
      p.(pending := p.pending + [r], rows := p.rows + [ResultRow(r)])
  }

  function Complete(t: Turn, blank: Blank): Turn {
    var f := Flushed(t);
    if blank(t.text) then f.(outcome := Raised)
    else
      f.(answer := t.text, history := f.history + [Message(FromAssistant, t.text, [], [], None)],
         rows := f.rows + [Row(Assistant, t.text, None, None)], outcome := Completed)
  }

  function Terminate(t: Turn, reason: string): Turn {
    Flushed(t).(rows := t.rows + [Row(System, reason, None, None)], outcome := Terminated)
  }

  /** Once a terminal event is seen, or an error raised, every further event raises. */
  function Consume(t: Turn, e: StreamEvent, blank: Blank): Turn {
    if !t.outcome.Running? then t.(outcome := Raised)
    else
      var u := if e.state.Some? then t.(states := t.states + [e.state.value]) else t;
      match e.kind
      case ModelPhase => Flushed(u).(text := "", calls := [], states := [], persisted := false)
      case TextDelta(text) => u.(text := u.text + text)
      case Called(call) => u.(calls := u.calls + [call])
      case Answered(result) => RecordResult(u, result)
      case Finished => Complete(u, blank)
      case Stopped(reason) => Terminate(u, reason)
      case ToolsPhase => u
      case Other => u
  }

  function ConsumeAll(t: Turn, events: seq<StreamEvent>, blank: Blank): Turn {
    if events == [] then t
    else Consume(ConsumeAll(t, events[..|events| - 1], blank), events[|events| - 1], blank)
  }

  lemma {:induction false} ConsumeAllConcat(t: Turn, x: seq<StreamEvent>, y: seq<StreamEvent>, blank: Blank)
    ensures ConsumeAll(t, x + y, blank) == ConsumeAll(ConsumeAll(t, x, blank), y, blank)
  {
    hide Consume;
    if y == [] {
      assert x + y == x;
    } else {
      assert (x + y)[..|x + y| - 1] == x + y[..|y| - 1];
      ConsumeAllConcat(t, x, y[..|y| - 1], blank);
    }
  }

  // ---- what the log gives back ----

  function RestoreResults(results: seq<CallResult>): seq<CallResult> {
    if results == [] then []
    else
      var last := RestoredResult(ResultEvent(0, results[|results| - 1]));
      RestoreResults(results[..|results| - 1]) + if last.Some? then [last.value] else []
  }

  function RestoreState(state: Option<ProviderState>): Option<ProviderState> {
    RestoredState(Some(AssistantMetadata([], state)))
  }

  /** The messages a history message comes back as. */
  function Restore(m: Message): seq<Message> {
    if m.role.FromAssistant? then [m.(calls := Plain(m.calls), state := RestoreState(m.state))]
    else if m.results == [] then [m]
    else if RestoreResults(m.results) == [] then []
    else [ResultsMessage(RestoreResults(m.results))]
  }

  function RestoreAll(history: seq<Message>): seq<Message> {
    if history == [] then [] else RestoreAll(history[..|history| - 1]) + Restore(history[|history| - 1])
  }

  /** The same calls without the note that their arguments could not be read. */
  function Plain(calls: seq<Call>): seq<Call> {
    if calls == [] then [] else [calls[0].(argumentError := false)] + Plain(calls[1..])
  }

  function PlainResults(results: seq<CallResult>): (r: seq<CallResult>)
    ensures |r| == |results|
  {
    seq(|results|, i requires 0 <= i < |results| => results[i].(duration := None, extra := None))
  }

  /** A message without what the log does not keep. */
  function Durable(m: Message): Message {
    m.(calls := Plain(m.calls), results := PlainResults(m.results))
  }

  function DurableAll(history: seq<Message>): seq<Message> {
    seq(|history|, i requires 0 <= i < |history| => Durable(history[i]))
  }

  // ---- exactly what comes back ----

  const DEFAULT_SUMMARY := "restored tool result"

  /** What the tool attached leaves the result's own fields alone. */
  predicate KeepsOwnFields(r: CallResult) {
    r.extra.None? ||
    var m := r.extra.value;
    && ("tool_name" in m ==> m["tool_name"] == Text(r.toolName))
    && ("success" in m ==> m["success"] == Bool(r.success))
    && ("summary" in m ==> m["summary"] == Text(r.summary) || (!m["summary"].Text? && r.summary == DEFAULT_SUMMARY))
  }

  predicate ThinkingOnly(state: Option<ProviderState>) {
    state.None? || forall b :: b in state.value.blocks ==>
      "type" in b && b["type"] in {Text("thinking"), Text("redacted_thinking")}
  }

  predicate Restorable(m: Message) {
    ThinkingOnly(m.state) && AllKeepOwnFields(m.results)
  }

  lemma {:induction false} ResultReturnsIffOwnFieldsKept(r: CallResult, sequence: nat)
    ensures RestoredResult(ResultEvent(sequence, r)) == Some(r.(duration := None, extra := None)) <==> KeepsOwnFields(r)
  {
    var m := ResultMetadata(r);
    var own := map["tool_name" := Text(r.toolName), "success" := Bool(r.success), "summary" := Text(r.summary)];
    assert Field(m, "tool_name") ==
      if r.extra.Some? && "tool_name" in r.extra.value then r.extra.value["tool_name"] else Text(r.toolName);
    assert Field(m, "success") ==
      if r.extra.Some? && "success" in r.extra.value then r.extra.value["success"] else Bool(r.success);
    assert Field(m, "summary") ==
      if r.extra.Some? && "summary" in r.extra.value then r.extra.value["summary"] else Text(r.summary);
  }

  lemma {:induction false} CallsReturn(calls: seq<Call>)
    ensures ReadCalls(CallItems(calls)) == Plain(calls)
  {
    if calls != [] {
      CallsReturn(calls[1..]);
      var item := CallItem(calls[0]).fields;
      assert Field(item, "id") == Text(calls[0].id);
      assert Field(item, "name") == Text(calls[0].name);
      assert Field(item, "arguments") == Object(calls[0].arguments);
      assert CallItems(calls)[0] == CallItem(calls[0]) && CallItems(calls)[1..] == CallItems(calls[1..]);
    }
  }

  function BlockItems(blocks: seq<Metadata>): (items: seq<Json>)
    ensures |items| == |blocks| && forall i :: 0 <= i < |items| ==> items[i] == Object(blocks[i])
  {
    seq(|blocks|, i requires 0 <= i < |blocks| => Object(blocks[i]))
  }

  lemma {:induction false} StateFields(s: ProviderState)
    ensures var m := AssistantMetadata([], Some(s));
            && Field(m, "provider_state") == StateItem(s)
            && Field(StateItem(s).fields, "protocol") == ProtocolText(s.protocol)
            && Field(StateItem(s).fields, "thinking_blocks") == List(BlockItems(s.blocks))
  {
  }

  lemma {:induction false} BlocksAreThinking(blocks: seq<Metadata>)
    ensures (forall b :: b in BlockItems(blocks) ==> ThinkingBlock(b))
            <==> forall b :: b in blocks ==> "type" in b && b["type"] in {Text("thinking"), Text("redacted_thinking")}
  {
    var items := BlockItems(blocks);
    if forall b :: b in items ==> ThinkingBlock(b) {
      forall b | b in blocks ensures "type" in b && b["type"] in {Text("thinking"), Text("redacted_thinking")} {
        var i :| 0 <= i < |blocks| && blocks[i] == b;
        assert items[i] in items;
      }
    }
  }

  lemma {:induction false} StateReturnsIffThinking(state: Option<ProviderState>)
    ensures RestoreState(state) == state <==> ThinkingOnly(state)
    ensures RestoreState(state).Some? ==> RestoreState(state) == state
  {
    if state.Some? {
      StateFields(state.value);
      BlocksAreThinking(state.value.blocks);
      hide AssistantMetadata, StateItem, Field, ThinkingBlock;
      var restored := RestoreState(state);
      if restored.Some? {
        assert restored.value.blocks == state.value.blocks;
      }
    }
  }

  // ---- replaying the rows of a turn ----

  /** Rows as the log numbers them after sequence `n`. */
  function Written(n: nat, rows: seq<Row>): seq<Event> {
    if rows == [] then []
    else
      var row := rows[|rows| - 1];
      Written(n, rows[..|rows| - 1]) + [Event(n + |rows|, row.kind, row.content, row.callId, row.metadata)]
  }

  function FeedRow(b: Building, row: Row): Building {
    Feed(b, Event(0, row.kind, row.content, row.callId, row.metadata))
  }

  function FeedRows(b: Building, rows: seq<Row>): Building {
    if rows == [] then b else FeedRow(FeedRows(b, rows[..|rows| - 1]), rows[|rows| - 1])
  }

  lemma {:induction false} FeedWritten(b: Building, n: nat, rows: seq<Row>)
    ensures FeedAll(b, Written(n, rows)) == FeedRows(b, rows)
  {
    if rows != [] {
      var front, row := rows[..|rows| - 1], rows[|rows| - 1];
      FeedWritten(b, n, front);
      var e := Event(n + |rows|, row.kind, row.content, row.callId, row.metadata);
      assert Written(n, rows) == Written(n, front) + [e];
      assert (Written(n, front) + [e])[..|Written(n, front)|] == Written(n, front);
      SequenceIsNotRead(FeedRows(b, front), e, 0);
    }
  }

  lemma {:induction false} SequenceIsNotRead(b: Building, e: Event, n: nat)
    ensures Feed(b, e) == Feed(b, e.(sequence := n))
  {
    hide RestoredCalls, RestoredState;
  }

  lemma {:induction false} FeedRowsConcat(b: Building, x: seq<Row>, y: seq<Row>)
    ensures FeedRows(b, x + y) == FeedRows(FeedRows(b, x), y)
  {
    if y == [] {
      assert x + y == x;
    } else {
      assert (x + y)[..|x + y| - 1] == x + y[..|y| - 1];
      FeedRowsConcat(b, x, y[..|y| - 1]);
    }
  }

  lemma {:induction false} FeedOneRow(b: Building, row: Row)
    ensures FeedRows(b, [row]) == FeedRow(b, row)
  {
    assert [row][..0] == [];
  }

  lemma {:induction false} CallRowsAreSkipped(b: Building, calls: seq<Call>)
    ensures FeedRows(b, CallRows(calls)) == b
  {
    if calls != [] {
      CallRowsAreSkipped(b, calls[..|calls| - 1]);
      var row := CallRow(calls[|calls| - 1]);
      assert CallRows(calls)[..|CallRows(calls)| - 1] == CallRows(calls[..|calls| - 1]);
    }
  }

  lemma {:induction false} AssistantReturns(b: Building, text: string, calls: seq<Call>, state: Option<ProviderState>)
    ensures FeedRow(b, AssistantRow(text, calls, state))
            == Write(b, Message(FromAssistant, text, Plain(calls), [], RestoreState(state)))
  {
    CallsReturn(calls);
    var m, m0 := AssistantMetadata(calls, state), AssistantMetadata([], state);
    assert Field(m, "tool_calls") == List(CallItems(calls));
    assert Field(m, "provider_state") == Field(m0, "provider_state");
    hide Write, CallItems, ReadCalls;
  }

  /** What the projection of the rows so far has to be. */
  function Rebuilt(t: Turn): Building {
    Building(RestoreAll(t.history), RestoreResults(t.pending))
  }

  ghost predicate Replays(start: Building, t: Turn) {
    var read := FeedRows(start, t.rows);
    && Flush(read) == Flush(Rebuilt(t))
    && (t.outcome.Running? && t.persisted ==> read == Rebuilt(t))
    && (t.outcome.Running? && !t.persisted ==> t.pending == [])
  }

  lemma {:induction false} RestoreAllSnoc(history: seq<Message>, m: Message)
    ensures RestoreAll(history + [m]) == RestoreAll(history) + Restore(m)
  {
    assert (history + [m])[..|history|] == history;
  }

  lemma {:induction false} RestoreResultsSnoc(results: seq<CallResult>, r: CallResult)
    ensures RestoreResults(results + [r])
            == RestoreResults(results) + if RestoredResult(ResultEvent(0, r)).Some? then [RestoredResult(ResultEvent(0, r)).value] else []
  {
    assert (results + [r])[..|results|] == results;
  }

  lemma {:induction false} FlushedIsRebuilt(t: Turn)
    ensures Rebuilt(Flushed(t)) == Flush(Rebuilt(t))
  {
    RestoreAllSnoc(t.history, ResultsMessage(t.pending));
    hide RestoreAll, RestoredResult, RestoreState;
    assert RestoreAll(t.history) + [] == RestoreAll(t.history);
  }

  lemma {:induction false} ResultIsFed(b: Building, r: CallResult)
    ensures FeedRow(b, ResultRow(r)) ==
      b.(pending := b.pending + if RestoredResult(ResultEvent(0, r)).Some? then [RestoredResult(ResultEvent(0, r)).value] else [])
  {
    hide RestoredResult;
    assert b.pending + [] == b.pending;
  }

  lemma {:induction false} PersistReplays(start: Building, t: Turn)
    requires Replays(start, t) && t.outcome.Running?
    ensures Replays(start, Persist(t)) && Persist(t).outcome.Running? && Persist(t).persisted
  {
    if !t.persisted {
      var row := AssistantRow(t.text, t.calls, Merged(t.states));
      var read := FeedRows(start, t.rows);
      FeedRowsConcat(start, t.rows + [row], CallRows(t.calls));
      FeedRowsConcat(start, t.rows, [row]);
      FeedOneRow(read, row);
      AssistantReturns(read, t.text, t.calls, Merged(t.states));
      CallRowsAreSkipped(FeedRow(read, row), t.calls);
      RestoreAllSnoc(t.history, Message(FromAssistant, t.text, t.calls, [], Merged(t.states)));
      hide FeedRows, FeedRow, RestoreAll, RestoreState, Merged, Plain, CallRows, AssistantRow;
    }
  }

  lemma {:induction false} ResultReplays(start: Building, t: Turn, r: CallResult)
    requires Replays(start, t) && t.outcome.Running?
    ensures Replays(start, RecordResult(t, r))
  {
    if t.persisted || SameProtocol(t.states) {
      PersistReplays(start, t);
      var p := Persist(t);
      FeedRowsConcat(start, p.rows, [ResultRow(r)]);
      FeedOneRow(FeedRows(start, p.rows), ResultRow(r));
      ResultIsFed(FeedRows(start, p.rows), r);
      RestoreResultsSnoc(p.pending, r);
      hide FeedRows, FeedRow, RestoreAll, RestoreResults, ResultRow, Persist;
    }
  }

  lemma {:induction false} CompleteReplays(start: Building, t: Turn, blank: Blank)
    requires Replays(start, t) && t.outcome.Running?
    ensures Replays(start, Complete(t, blank))
  {
    FlushedIsRebuilt(t);
    var f, m := Flushed(t), Message(FromAssistant, t.text, [], [], None);
    var row := Row(Assistant, t.text, None, None);
    RestoreAllSnoc(f.history, m);
    FeedRowsConcat(start, t.rows, [row]);
    FeedOneRow(FeedRows(start, t.rows), row);
    StateReturnsIffThinking(None);
    hide FeedRows, RestoreAll, RestoreResults, RestoreState;
  }

  lemma {:induction false} TerminateReplays(start: Building, t: Turn, reason: string)
    requires Replays(start, t) && t.outcome.Running?
    ensures Replays(start, Terminate(t, reason))
  {
    FlushedIsRebuilt(t);
    var row := Row(System, reason, None, None);
    FeedRowsConcat(start, t.rows, [row]);
    FeedOneRow(FeedRows(start, t.rows), row);
    hide FeedRows, RestoreAll, RestoreResults;
  }

  lemma {:induction false} PhaseReplays(start: Building, t: Turn)
    requires Replays(start, t) && t.outcome.Running?
    ensures Replays(start, Flushed(t).(text := "", calls := [], states := [], persisted := false))
  {
    FlushedIsRebuilt(t);
    hide FeedRows, RestoreAll, RestoreResults;
  }

  /** Only history, pending results, rows and the flags matter to the replay. */
  lemma {:induction false} SameReplay(start: Building, t: Turn, u: Turn)
    requires Replays(start, t)
    requires u.history == t.history && u.pending == t.pending && u.rows == t.rows && u.persisted == t.persisted
    requires u.outcome == t.outcome || u.outcome.Raised?
    ensures Replays(start, u)
  {
    hide FeedRows, RestoreAll, RestoreResults;
  }

  lemma {:induction false} ConsumeReplays(start: Building, t: Turn, e: StreamEvent, blank: Blank)
    requires Replays(start, t)
    ensures Replays(start, Consume(t, e, blank))
  {
    hide Replays, RecordResult, Complete, Terminate, Flushed;
    if !t.outcome.Running? {
      SameReplay(start, t, t.(outcome := Raised));
    } else {
      var u := if e.state.Some? then t.(states := t.states + [e.state.value]) else t;
      SameReplay(start, t, u);
      match e.kind
      case ModelPhase => PhaseReplays(start, u);
      case Answered(result) => ResultReplays(start, u, result);
      case Finished => CompleteReplays(start, u, blank);
      case Stopped(reason) => TerminateReplays(start, u, reason);
      case TextDelta(text) => SameReplay(start, u, u.(text := u.text + text));
      case Called(call) => SameReplay(start, u, u.(calls := u.calls + [call]));
      case ToolsPhase =>
      case Other =>
    }
  }

  lemma {:induction false} ConsumeAllReplays(start: Building, t: Turn, events: seq<StreamEvent>, blank: Blank)
    requires Replays(start, t)
    ensures Replays(start, ConsumeAll(t, events, blank))
  {
    if events != [] {
      ConsumeAllReplays(start, t, events[..|events| - 1], blank);
      hide Consume, Replays;
      ConsumeReplays(start, ConsumeAll(t, events[..|events| - 1], blank), events[|events| - 1], blank);
    }
  }

  function UserRow(text: string, metadata: Option<Metadata>): Row {
    Row(User, text, None, metadata)
  }

  function Ended(t: Turn): bool {
    t.outcome.Completed? || t.outcome.Terminated?
  }

  lemma {:induction false} EndedIsFlushed(t: Turn, e: StreamEvent, blank: Blank)
    requires Ended(Consume(t, e, blank))
    ensures Consume(t, e, blank).pending == []
  {
  }

  /** Projecting the rows of a turn gives the recorder's history, as the log restores it. */
  lemma {:induction false} TurnReplays(text: string, metadata: Option<Metadata>, events: seq<StreamEvent>, blank: Blank, n: nat)
    ensures var t := ConsumeAll(Begin(UserMessage(text)), events, blank);
            Messages(Written(n, [UserRow(text, metadata)] + t.rows)) == RestoreAll(Flushed(t).history)
    ensures var t := ConsumeAll(Begin(UserMessage(text)), events, blank);
            Ended(t) ==> Flushed(t) == t
  {
    var first := UserRow(text, metadata);
    var start := FeedRow(NOTHING, first);
    var t0 := Begin(UserMessage(text));
    var t := ConsumeAll(t0, events, blank);
    RestoreAllSnoc([], UserMessage(text));
    assert [] + [UserMessage(text)] == [UserMessage(text)];
    assert Replays(start, t0);
    ConsumeAllReplays(start, t0, events, blank);
    FeedWritten(NOTHING, n, [first] + t.rows);
    FeedRowsConcat(NOTHING, [first], t.rows);
    FeedOneRow(NOTHING, first);
    FlushedIsRebuilt(t);
    if Ended(t) && events != [] {
      EndedIsFlushed(ConsumeAll(t0, events[..|events| - 1], blank), events[|events| - 1], blank);
    }
  }

  // ---- a turn in parts ----

  /** Nothing of a response is recorded and no result waits, as when a round begins. */
  predicate AtBoundary(t: Turn) {
    t.outcome.Running? && !t.persisted && t.pending == []
  }

  /** What a recorder does does not depend on what it has recorded before. */
  function After(history: seq<Message>, rows: seq<Row>, t: Turn): Turn {
    t.(history := history + t.history, rows := rows + t.rows)
  }

  lemma {:induction false} FlushAfter(history: seq<Message>, rows: seq<Row>, t: Turn)
    ensures Flushed(After(history, rows, t)) == After(history, rows, Flushed(t))
  {
    Reassociate(history, t.history, [ResultsMessage(t.pending)]);
  }

  lemma {:induction false} ResultAfter(history: seq<Message>, rows: seq<Row>, t: Turn, r: CallResult)
    ensures RecordResult(After(history, rows, t), r) == After(history, rows, RecordResult(t, r))
  {
    PersistAfter(history, rows, t);
    Reassociate(rows, Persist(t).rows, [ResultRow(r)]);
    hide Persist, ResultRow;
  }

  lemma {:induction false} PersistAfter(history: seq<Message>, rows: seq<Row>, t: Turn)
    ensures Persist(After(history, rows, t)) == After(history, rows, Persist(t))
  {
    var m, row := Message(FromAssistant, t.text, t.calls, [], Merged(t.states)), AssistantRow(t.text, t.calls, Merged(t.states));
    Reassociate(history, t.history, [m]);
    Reassociate(rows, t.rows, [row]);
    Reassociate(rows, t.rows + [row], CallRows(t.calls));
    hide Merged, AssistantRow, CallRows;
  }

  lemma {:induction false} EndAfter(history: seq<Message>, rows: seq<Row>, t: Turn, reason: string, blank: Blank)
    ensures Terminate(After(history, rows, t), reason) == After(history, rows, Terminate(t, reason))
    ensures Complete(After(history, rows, t), blank) == After(history, rows, Complete(t, blank))
  {
    FlushAfter(history, rows, t);
    var f := Flushed(t);
    FlushKeepsRows(t);
    Reassociate(rows, t.rows, [Row(System, reason, None, None)]);
    Reassociate(rows, f.rows, [Row(Assistant, t.text, None, None)]);
    Reassociate(history, f.history, [Message(FromAssistant, t.text, [], [], None)]);
    hide Flushed;
  }

  lemma {:induction false} FlushKeepsRows(t: Turn)
    ensures Flushed(t).rows == t.rows
  {
  }

  lemma {:induction false} ConsumeAfter(history: seq<Message>, rows: seq<Row>, t: Turn, e: StreamEvent, blank: Blank)
    ensures Consume(After(history, rows, t), e, blank) == After(history, rows, Consume(t, e, blank))
  {
    var u := if e.state.Some? then t.(states := t.states + [e.state.value]) else t;
    FlushAfter(history, rows, u);
    match e.kind
    case Answered(result) => ResultAfter(history, rows, u, result); hide RecordResult, Complete, Terminate, Flushed;
    case Finished => EndAfter(history, rows, u, "", blank); hide RecordResult, Complete, Terminate, Flushed;
    case Stopped(reason) => EndAfter(history, rows, u, reason, blank); hide RecordResult, Complete, Terminate, Flushed;
    case _ => hide RecordResult, Complete, Terminate, Flushed;
  }

  lemma {:induction false} ConsumeAllAfter(history: seq<Message>, rows: seq<Row>, t: Turn, events: seq<StreamEvent>, blank: Blank)
    ensures ConsumeAll(After(history, rows, t), events, blank) == After(history, rows, ConsumeAll(t, events, blank))
  {
    if events != [] {
      hide Consume, After;
      ConsumeAllAfter(history, rows, t, events[..|events| - 1], blank);
      ConsumeAfter(history, rows, ConsumeAll(t, events[..|events| - 1], blank), events[|events| - 1], blank);
    }
  }

  /** From a boundary on, the rows appended project to the history appended, as the log restores it. */
  lemma {:induction false} PartReplays(t: Turn, events: seq<StreamEvent>, blank: Blank, n: nat)
    requires AtBoundary(t)
    ensures var u := ConsumeAll(t, events, blank);
            && t.rows <= u.rows && t.history <= Flushed(u).history
            && Messages(Written(n, u.rows[|t.rows|..])) == RestoreAll(Flushed(u).history[|t.history|..])
  {
    var bare := t.(history := [], rows := []);
    assert After(t.history, t.rows, bare) == t;
    ConsumeAllAfter(t.history, t.rows, bare, events, blank);
    var v := ConsumeAll(bare, events, blank);
    var u := ConsumeAll(t, events, blank);
    FlushAfter(t.history, t.rows, v);
    assert Replays(NOTHING, bare);
    ConsumeAllReplays(NOTHING, bare, events, blank);
    FlushedIsRebuilt(v);
    FeedWritten(NOTHING, n, v.rows);
    hide ConsumeAll, Flushed, RestoreAll, Written, FeedRows, Rebuilt;
    assert u.rows == t.rows + v.rows && u.rows[|t.rows|..] == v.rows;
    assert Flushed(u).history == t.history + Flushed(v).history;
    assert Flushed(u).history[|t.history|..] == Flushed(v).history;
    RebuiltFlushed(v);
  }

  lemma {:induction false} RebuiltFlushed(t: Turn)
    ensures Flush(Rebuilt(t)).messages == RestoreAll(Flushed(t).history)
  {
    FlushedIsRebuilt(t);
    hide RestoreAll, RestoreResults;
  }

  /** The first visible row after a boundary opens a message of its own. */
  ghost predicate OpensFirst(rows: seq<Row>) {
    forall i :: 0 <= i < |rows| && Visible(rows[i].kind) && (forall j :: 0 <= j < i ==> !Visible(rows[j].kind)) ==>
      Opens(rows[i].kind)
  }

  lemma {:induction false} OpensFirstMore(rows: seq<Row>, more: seq<Row>)
    requires OpensFirst(rows) && (more == [] || Opens(more[0].kind) || exists i :: 0 <= i < |rows| && Visible(rows[i].kind))
    ensures OpensFirst(rows + more)
  {
    var all := rows + more;
    assert forall j :: 0 <= j < |rows| ==> all[j] == rows[j];
    if k :| 0 <= k < |rows| && Visible(rows[k].kind) {
      assert Visible(all[k].kind);
      forall i | 0 <= i <= k && Visible(all[i].kind) && forall j :: 0 <= j < i ==> !Visible(all[j].kind)
        ensures Opens(all[i].kind)
      {
        forall j | 0 <= j < i ensures !Visible(rows[j].kind) { assert all[j] == rows[j]; }
      }
    } else if more != [] {
      assert all[|rows|] == more[0] && Visible(all[|rows|].kind);
    } else {
      assert all == rows;
    }
  }

  /** While nothing of a response is recorded, nothing visible is: a result only follows its response. */
  ghost predicate PartOpens(t: Turn) {
    OpensFirst(t.rows) && (t.persisted ==> exists i :: 0 <= i < |t.rows| && Visible(t.rows[i].kind))
  }

  lemma {:induction false} VisibleStays(rows: seq<Row>, more: seq<Row>)
    requires exists i :: 0 <= i < |rows| && Visible(rows[i].kind)
    ensures exists i :: 0 <= i < |rows + more| && Visible((rows + more)[i].kind)
  {
    var i :| 0 <= i < |rows| && Visible(rows[i].kind);
    assert (rows + more)[i] == rows[i];
  }

  lemma {:induction false} ResultKeepsOpens(t: Turn, r: CallResult)
    requires PartOpens(t)
    ensures PartOpens(RecordResult(t, r))
  {
    if t.persisted {
      OpensFirstMore(t.rows, [ResultRow(r)]);
      VisibleStays(t.rows, [ResultRow(r)]);
    } else {
      var row := AssistantRow(t.text, t.calls, Merged(t.states));
      var more := [row] + CallRows(t.calls) + [ResultRow(r)];
      OpensFirstMore(t.rows, more);
      assert (t.rows + more)[|t.rows|] == row;
      assert t.rows + [row] + CallRows(t.calls) + [ResultRow(r)] == t.rows + more;
    }
    hide AssistantRow, CallRows, Merged, ResultRow;
  }

  lemma {:induction false} ConsumeKeepsOpens(t: Turn, e: StreamEvent, blank: Blank)
    requires PartOpens(t)
    ensures PartOpens(Consume(t, e, blank))
  {
    var u := if e.state.Some? then t.(states := t.states + [e.state.value]) else t;
    FlushKeepsRows(u);
    match e.kind
    case Answered(result) => ResultKeepsOpens(u, result);
    case Finished =>
      var row := Row(Assistant, u.text, None, None);
      OpensFirstMore(u.rows, [row]);
      assert (u.rows + [row])[|u.rows|] == row;
    case Stopped(reason) =>
      var row := Row(System, reason, None, None);
      HiddenRowOpensNothing(u.rows, row);
      if t.persisted { VisibleStays(u.rows, [row]); }
    case _ =>
  }

  lemma {:induction false} HiddenRowOpensNothing(rows: seq<Row>, row: Row)
    requires OpensFirst(rows) && !Visible(row.kind)
    ensures OpensFirst(rows + [row])
  {
    var all := rows + [row];
    forall i | 0 <= i < |all| && Visible(all[i].kind) && forall j :: 0 <= j < i ==> !Visible(all[j].kind)
      ensures Opens(all[i].kind)
    {
      assert forall j :: 0 <= j < i ==> all[j] == rows[j];
      assert all[i] == rows[i];
    }
  }

  lemma {:induction false} PartOpensFirst(t: Turn, events: seq<StreamEvent>, blank: Blank)
    requires PartOpens(t)
    ensures PartOpens(ConsumeAll(t, events, blank))
  {
    if events != [] {
      hide Consume, PartOpens;
      PartOpensFirst(t, events[..|events| - 1], blank);
      ConsumeKeepsOpens(ConsumeAll(t, events[..|events| - 1], blank), events[|events| - 1], blank);
    }
  }

  /** So the rows of a part open with a message of their own, if they show anything. */
  lemma {:induction false} PartRowsOpenFirst(t: Turn, events: seq<StreamEvent>, blank: Blank)
    requires AtBoundary(t)
    ensures t.rows <= ConsumeAll(t, events, blank).rows
    ensures OpensFirst(ConsumeAll(t, events, blank).rows[|t.rows|..])
  {
    var bare := t.(history := [], rows := []);
    assert After(t.history, t.rows, bare) == t;
    ConsumeAllAfter(t.history, t.rows, bare, events, blank);
    assert PartOpens(bare);
    PartOpensFirst(bare, events, blank);
    var v := ConsumeAll(bare, events, blank);
    hide ConsumeAll, OpensFirst;
    assert (t.rows + v.rows)[|t.rows|..] == v.rows;
  }

  // ---- when the two views agree ----

  /** Two lists built a piece at a time agree exactly if all pieces do, when no piece is too long. */
  lemma {:induction false} SameParts<T>(x: seq<T>, a: seq<T>, y: seq<T>, b: seq<T>)
    requires |x| <= |y| && |a| <= |b|
    ensures x + a == y + b <==> x == y && a == b
  {
    if x + a == y + b {
      assert |x + a| == |x| + |a| && |y + b| == |y| + |b|;
      assert x == (x + a)[..|x|] && y == (y + b)[..|y|];
      assert a == (x + a)[|x|..] && b == (y + b)[|y|..];
    }
  }

  predicate AllKeepOwnFields(results: seq<CallResult>) {
    forall r :: r in results ==> KeepsOwnFields(r)
  }

  lemma {:induction false} AllKeepSnoc(front: seq<CallResult>, last: CallResult)
    ensures AllKeepOwnFields(front + [last]) <==> AllKeepOwnFields(front) && KeepsOwnFields(last)
  {
    hide KeepsOwnFields;
  }

  lemma {:induction false} NothingToKeep()
    ensures AllKeepOwnFields([])
  {
  }

  lemma {:induction false} PlainResultsSnoc(front: seq<CallResult>, last: CallResult)
    ensures PlainResults(front + [last]) == PlainResults(front) + PlainResults([last])
  {
  }

  /** A single result. */
  lemma {:induction false} ResultReturnsIffKept(r: CallResult)
    ensures |RestoreResults([r])| <= 1 && (RestoreResults([r]) == PlainResults([r]) <==> KeepsOwnFields(r))
  {
    ResultReturnsIffOwnFieldsKept(r, 0);
    hide KeepsOwnFields, RestoredResult, ResultEvent;
    assert [r][..0] == [];
    var restored := RestoredResult(ResultEvent(0, r));
    assert RestoreResults([r]) == if restored.Some? then [restored.value] else [];
    assert PlainResults([r]) == [r.(duration := None, extra := None)];
  }

  lemma {:induction false} RestoreOneMore(front: seq<CallResult>, last: CallResult)
    ensures RestoreResults(front + [last]) == RestoreResults(front) + RestoreResults([last])
  {
    hide RestoredResult, ResultEvent;
    RestoreResultsSnoc(front, last);
    RestoreResultsSnoc([], last);
    assert [] + [last] == [last];
  }

  lemma {:induction false} ResultsReturnIffKept(results: seq<CallResult>)
    ensures |RestoreResults(results)| <= |results|
    ensures RestoreResults(results) == PlainResults(results) <==> AllKeepOwnFields(results)
  {
    if results != [] {
      hide *;
      var front, last := results[..|results| - 1], results[|results| - 1];
      assert results == front + [last];
      ResultsReturnIffKept(front);
      ResultReturnsIffKept(last);
      AllKeepSnoc(front, last);
      PlainResultsSnoc(front, last);
      RestoreOneMore(front, last);
      SameParts(RestoreResults(front), RestoreResults([last]), PlainResults(front), PlainResults([last]));
    }
  }

  /** The kinds of message a recorder keeps. */
  predicate WellFormed(m: Message) {
    if m.role.FromAssistant? then m.results == []
    else m.calls == [] && m.state == None && (m.results == [] || m == ResultsMessage(m.results))
  }

  lemma {:induction false} MessageReturnsIffRestorable(m: Message)
    requires WellFormed(m)
    ensures |Restore(m)| <= 1 && (Restore(m) == [Durable(m)] <==> Restorable(m))
  {
    StateReturnsIffThinking(m.state);
    ResultsReturnIffKept(m.results);
    hide RestoreResults, RestoreState, AllKeepOwnFields, ThinkingOnly;
    assert m.results == [] ==> AllKeepOwnFields(m.results) by { NothingToKeep(); }
    assert m.results == [] ==> PlainResults(m.results) == [];
    if m.role.FromUser? && m.results != [] {
      assert PlainResults(m.results) != [];
      assert Durable(m) == ResultsMessage(PlainResults(m.results));
    }
  }

  lemma {:induction false} HistoryReturnsIffRestorable(history: seq<Message>)
    requires forall m :: m in history ==> WellFormed(m)
    ensures |RestoreAll(history)| <= |history|
    ensures RestoreAll(history) == DurableAll(history) <==> forall m :: m in history ==> Restorable(m)
  {
    if history != [] {
      hide *;
      var front, last := history[..|history| - 1], history[|history| - 1];
      assert history == front + [last];
      HistoryReturnsIffRestorable(front);
      MessageReturnsIffRestorable(last);
      KeptMore(front, last);
      RestoreAllSnoc(front, last);
      DurableSnoc(front, last);
      SameParts(RestoreAll(front), Restore(last), DurableAll(front), [Durable(last)]);
    }
  }

  lemma {:induction false} DurableSnoc(front: seq<Message>, last: Message)
    ensures DurableAll(front + [last]) == DurableAll(front) + [Durable(last)] && |DurableAll(front)| == |front|
  {
    hide Durable;
  }

  ghost predicate AllWellFormed(history: seq<Message>) {
    forall m :: m in history ==> WellFormed(m)
  }

  lemma {:induction false} StepsKeepWellFormed(t: Turn)
    requires AllWellFormed(t.history)
    ensures AllWellFormed(Flushed(t).history) && AllWellFormed(Persist(t).history)
    ensures AllWellFormed(t.history + [Message(FromAssistant, t.text, [], [], None)])
  {
    hide CallRows, AssistantRow, Merged;
  }

  lemma {:induction false} ConsumeKeepsWellFormed(t: Turn, e: StreamEvent, blank: Blank)
    requires AllWellFormed(t.history)
    ensures AllWellFormed(Consume(t, e, blank).history)
  {
    var u := if e.state.Some? then t.(states := t.states + [e.state.value]) else t;
    StepsKeepWellFormed(u);
    StepsKeepWellFormed(Flushed(u));
    hide AllWellFormed, Flushed, Persist, SameProtocol, ResultRow;
    assert Flushed(u).text == u.text by { FlushKeepsText(u); }
  }

  lemma {:induction false} FlushKeepsText(t: Turn)
    ensures Flushed(t).text == t.text
  {
  }

  lemma {:induction false} RecorderKeepsWellFormed(t: Turn, events: seq<StreamEvent>, blank: Blank)
    requires AllWellFormed(t.history)
    ensures AllWellFormed(ConsumeAll(t, events, blank).history)
  {
    if events != [] {
      RecorderKeepsWellFormed(t, events[..|events| - 1], blank);
      hide Consume, AllWellFormed;
      ConsumeKeepsWellFormed(ConsumeAll(t, events[..|events| - 1], blank), events[|events| - 1], blank);
    }
  }

  /** Reading a stream for the provider state it gets recorded: what the response so far has `seen`,
      whether it was `answered`, and what was `recorded` with responses, which is what stands before the
      first result of each. */
  datatype Reading = Reading(seen: seq<ProviderState>, answered: bool, recorded: seq<ProviderState>)

  function ReadOne(r: Reading, e: StreamEvent): Reading {
    var seen := r.seen + if e.state.Some? then [e.state.value] else [];
    if e.kind.ModelPhase? then Reading([], false, r.recorded)
    else if e.kind.Answered? && !r.answered then Reading(seen, true, r.recorded + seen)
    else Reading(seen, r.answered, r.recorded)
  }

  function ReadStream(events: seq<StreamEvent>): Reading {
    if events == [] then Reading([], false, [])
    else ReadOne(ReadStream(events[..|events| - 1]), events[|events| - 1])
  }

  ghost predicate AllThinking(states: seq<ProviderState>) {
    forall p :: p in states ==> ThinkingOnly(Some(p))
  }

  /** No result's metadata overrides its own fields, and all state recorded is thinking blocks. */
  ghost predicate StreamRestorable(events: seq<StreamEvent>) {
    && (forall e :: e in events && e.kind.Answered? ==> KeepsOwnFields(e.kind.result))
    && AllThinking(ReadStream(events).recorded)
  }

  lemma {:induction false} AllThinkingConcat(x: seq<ProviderState>, y: seq<ProviderState>)
    ensures AllThinking(x + y) <==> AllThinking(x) && AllThinking(y)
  {
    hide ThinkingOnly;
    if AllThinking(x + y) {
      assert forall p :: p in x ==> p in x + y;
      assert forall p :: p in y ==> p in x + y;
    }
  }

  lemma {:induction false} JoinIsThinking(states: seq<ProviderState>)
    ensures (forall b :: b in JoinBlocks(states) ==> "type" in b && b["type"] in {Text("thinking"), Text("redacted_thinking")})
       <==> AllThinking(states)
  {
    if states != [] {
      var front, last := states[..|states| - 1], states[|states| - 1];
      JoinIsThinking(front);
      assert states == front + [last];
      AllThinkingConcat(front, [last]);
      assert AllThinking([last]) <==> ThinkingOnly(Some(last)) by { assert last in [last]; }
      hide AllThinking;
      assert forall b :: b in JoinBlocks(states) <==> b in JoinBlocks(front) || b in last.blocks;
    }
  }

  lemma {:induction false} MergedIsThinking(states: seq<ProviderState>)
    ensures ThinkingOnly(Merged(states)) <==> AllThinking(states)
  {
    JoinIsThinking(states);
    hide JoinBlocks;
  }

  /** Everything the recorder holds comes back from the log. */
  ghost predicate Kept(t: Turn) {
    (forall m :: m in t.history ==> Restorable(m)) && AllKeepOwnFields(t.pending)
  }

  lemma {:induction false} KeptMore(history: seq<Message>, m: Message)
    ensures (forall x :: x in history + [m] ==> Restorable(x)) <==> (forall x :: x in history ==> Restorable(x)) && Restorable(m)
  {
    hide Restorable;
    if forall x :: x in history + [m] ==> Restorable(x) {
      assert forall x :: x in history ==> x in history + [m];
      assert m in history + [m];
    }
  }

  lemma {:induction false} FlushIsKept(t: Turn)
    ensures Kept(Flushed(t)) <==> Kept(t)
  {
    NothingToKeep();
    KeptMore(t.history, ResultsMessage(t.pending));
    hide AllKeepOwnFields;
  }

  lemma {:induction false} PersistIsKept(t: Turn)
    ensures Kept(Persist(t)) <==> Kept(t) && (t.persisted || AllThinking(t.states))
  {
    NothingToKeep();
    MergedIsThinking(t.states);
    KeptMore(t.history, Message(FromAssistant, t.text, t.calls, [], Merged(t.states)));
    hide AllKeepOwnFields, Merged, ThinkingOnly, AllThinking, CallRows, AssistantRow;
  }

  lemma {:induction false} ResultIsKept(t: Turn, r: CallResult)
    requires !RecordResult(t, r).outcome.Raised?
    ensures Kept(RecordResult(t, r)) <==> Kept(t) && (t.persisted || AllThinking(t.states)) && KeepsOwnFields(r)
    ensures RecordResult(t, r).persisted && RecordResult(t, r).outcome == t.outcome
  {
    PersistIsKept(t);
    AllKeepSnoc(Persist(t).pending, r);
    assert Persist(t).persisted && Persist(t).outcome == t.outcome;
    hide Persist, AllThinking, AllKeepOwnFields, KeepsOwnFields, Restorable, ResultRow;
  }

  lemma {:induction false} AnswerIsKept(t: Turn, blank: Blank)
    requires !Complete(t, blank).outcome.Raised?
    ensures Kept(Complete(t, blank)) <==> Kept(t)
  {
    FlushIsKept(t);
    NothingToKeep();
    KeptMore(Flushed(t).history, Message(FromAssistant, t.text, [], [], None));
    hide AllKeepOwnFields;
  }

  /** The state an event gets recorded. */
  function NewlyRecorded(r: Reading, e: StreamEvent): seq<ProviderState> {
    if e.kind.Answered? && !r.answered then r.seen + (if e.state.Some? then [e.state.value] else []) else []
  }

  /** Recorder and reader take one event. */
  lemma {:induction false} StepIsRead(t: Turn, r: Reading, e: StreamEvent, blank: Blank)
    requires t.outcome.Running? && t.persisted == r.answered && (!t.persisted ==> t.states == r.seen)
    ensures var u, v := Consume(t, e, blank), ReadOne(r, e);
            !u.outcome.Raised? ==>
              && (u.outcome.Running? ==> u.persisted == v.answered && (!u.persisted ==> u.states == v.seen))
              && (Kept(u) <==>
                    Kept(t) && AllThinking(NewlyRecorded(r, e)) && (e.kind.Answered? ==> KeepsOwnFields(e.kind.result)))
  {
    var u := if e.state.Some? then t.(states := t.states + [e.state.value]) else t;
    assert t.states + [] == t.states;
    assert AllThinking([]);
    assert Kept(u) <==> Kept(t);
    hide AllThinking, KeepsOwnFields;
    match e.kind
    case ModelPhase =>
      FlushIsKept(u);
      assert Kept(Flushed(u).(text := "", calls := [], states := [], persisted := false)) <==> Kept(Flushed(u));
    case Answered(result) =>
      if !RecordResult(u, result).outcome.Raised? { ResultIsKept(u, result); }
      hide RecordResult, Kept;
    case Finished =>
      if !Complete(u, blank).outcome.Raised? { AnswerIsKept(u, blank); }
      hide Kept;
    case Stopped(reason) =>
      FlushIsKept(u);
      assert Kept(Terminate(u, reason)) <==> Kept(Flushed(u));
    case TextDelta(text) => assert Kept(u.(text := u.text + text)) <==> Kept(u);
    case Called(call) => assert Kept(u.(calls := u.calls + [call])) <==> Kept(u);
    case ToolsPhase =>
    case Other =>
  }

  lemma {:induction false} RecordedGrows(r: Reading, e: StreamEvent)
    ensures AllThinking(ReadOne(r, e).recorded) <==> AllThinking(r.recorded) && AllThinking(NewlyRecorded(r, e))
  {
    assert AllThinking([]);
    AllThinkingConcat(r.recorded, NewlyRecorded(r, e));
    hide AllThinking;
  }

  lemma {:induction false} RestorableSnoc(front: seq<StreamEvent>, e: StreamEvent)
    ensures ReadStream(front + [e]) == ReadOne(ReadStream(front), e)
    ensures StreamRestorable(front + [e])
       <==> StreamRestorable(front) && (e.kind.Answered? ==> KeepsOwnFields(e.kind.result))
            && AllThinking(NewlyRecorded(ReadStream(front), e))
  {
    var events := front + [e];
    assert events[..|events| - 1] == front;
    assert forall x :: x in events <==> x in front || x == e;
    RecordedGrows(ReadStream(front), e);
    hide ReadOne, NewlyRecorded, AllThinking, KeepsOwnFields;
  }

  /** What reading the stream so far tells about the recorder. */
  ghost predicate IsRead(t: Turn, events: seq<StreamEvent>) {
    var r := ReadStream(events);
    !t.outcome.Raised? ==>
      && (t.outcome.Running? ==> t.persisted == r.answered && (!t.persisted ==> t.states == r.seen))
      && (Kept(t) <==> StreamRestorable(events))
  }

  lemma {:induction false} NothingIsRead(text: string)
    ensures IsRead(Begin(UserMessage(text)), [])
  {
    NothingToKeep();
    hide AllKeepOwnFields;
  }

  lemma {:induction false} OneMoreIsRead(t: Turn, front: seq<StreamEvent>, e: StreamEvent, blank: Blank)
    requires IsRead(t, front)
    ensures IsRead(Consume(t, e, blank), front + [e])
  {
    hide Consume, ReadOne, ReadStream, Kept, AllThinking, KeepsOwnFields, NewlyRecorded, StreamRestorable;
    RestorableSnoc(front, e);
    if t.outcome.Running? {
      StepIsRead(t, ReadStream(front), e, blank);
    } else {
      NothingAfterEnd(t, e, blank);
    }
  }

  lemma {:induction false} StreamIsRead(text: string, events: seq<StreamEvent>, blank: Blank)
    ensures IsRead(ConsumeAll(Begin(UserMessage(text)), events, blank), events)
  {
    hide IsRead, Consume;
    if events == [] {
      NothingIsRead(text);
    } else {
      var front, e := events[..|events| - 1], events[|events| - 1];
      assert events == front + [e];
      StreamIsRead(text, front, blank);
      OneMoreIsRead(ConsumeAll(Begin(UserMessage(text)), front, blank), front, e, blank);
    }
  }

  lemma {:induction false} NothingAfterEnd(t: Turn, e: StreamEvent, blank: Blank)
    requires !t.outcome.Running?
    ensures Consume(t, e, blank).outcome.Raised?
  {
  }

  /** Projecting the log of a finished turn gives exactly the recorder's history, minus durations, attached
      metadata and argument errors, if and only if on its stream no tool's metadata overrides a result's own
      fields and the provider state of every answered response consists of thinking blocks. */
  lemma {:induction false} TurnViewsAgreeIff(text: string, metadata: Option<Metadata>, events: seq<StreamEvent>,
                                             blank: Blank, n: nat)
    requires Ended(ConsumeAll(Begin(UserMessage(text)), events, blank))
    ensures var t := ConsumeAll(Begin(UserMessage(text)), events, blank);
            Messages(Written(n, [UserRow(text, metadata)] + t.rows)) == DurableAll(t.history)
            <==> StreamRestorable(events)
  {
    TurnReplays(text, metadata, events, blank, n);
    RecorderKeepsWellFormed(Begin(UserMessage(text)), events, blank);
    HistoryReturnsIffRestorable(ConsumeAll(Begin(UserMessage(text)), events, blank).history);
    StreamIsRead(text, events, blank);
    EndedHoldsNothing(text, events, blank);
    NothingToKeep();
    hide Messages, RestoreAll, ConsumeAll, Restorable, Written, AllKeepOwnFields, StreamRestorable;
  }

  lemma {:induction false} EndedHoldsNothing(text: string, events: seq<StreamEvent>, blank: Blank)
    requires Ended(ConsumeAll(Begin(UserMessage(text)), events, blank))
    ensures ConsumeAll(Begin(UserMessage(text)), events, blank).pending == []
  {
    if events != [] {
      EndedIsFlushed(ConsumeAll(Begin(UserMessage(text)), events[..|events| - 1], blank), events[|events| - 1], blank);
    }
  }

  /** Any result whose metadata overrides one of its own fields parts the views, as in this stream. */
  lemma {:induction false} OverridingMetadataParts(text: string, r: CallResult, reason: string, blank: Blank, n: nat)
    requires !KeepsOwnFields(r)
    ensures var events := [StreamEvent(Answered(r), None), StreamEvent(Stopped(reason), None)];
            var t := ConsumeAll(Begin(UserMessage(text)), events, blank);
            Ended(t) && Messages(Written(n, [UserRow(text, None)] + t.rows)) != DurableAll(t.history)
  {
    var a, b := StreamEvent(Answered(r), None), StreamEvent(Stopped(reason), None);
    var t0 := Begin(UserMessage(text));
    assert [a, b][..1] == [a] && [a][..0] == [];
    assert ConsumeAll(t0, [a], blank) == Consume(t0, a, blank);
    assert ConsumeAll(t0, [a, b], blank) == Consume(Consume(t0, a, blank), b, blank);
    assert Consume(t0, a, blank).outcome.Running?;
    assert a in [a, b];
    hide ConsumeAll, KeepsOwnFields, Messages, Written, DurableAll;
    TurnViewsAgreeIff(text, None, [a, b], blank, n);
  }

  // ---- what a stream is recorded as ----

  /** The events since the model's phase last began. */
  function Round(events: seq<StreamEvent>): seq<StreamEvent> {
    if events == [] || events[|events| - 1].kind.ModelPhase? then []
    else Round(events[..|events| - 1]) + [events[|events| - 1]]
  }

  function WordsIn(events: seq<StreamEvent>): string {
    if events == [] then ""
    else
      var last := events[|events| - 1];
      WordsIn(events[..|events| - 1]) + if last.kind.TextDelta? then last.kind.text else ""
  }

  function CallsIn(events: seq<StreamEvent>): seq<Call> {
    if events == [] then []
    else
      var last := events[|events| - 1];
      CallsIn(events[..|events| - 1]) + if last.kind.Called? then [last.kind.call] else []
  }

  function StatesIn(events: seq<StreamEvent>): seq<ProviderState> {
    if events == [] then []
    else
      var last := events[|events| - 1];
      StatesIn(events[..|events| - 1]) + if last.state.Some? then [last.state.value] else []
  }

  function BlocksIn(events: seq<StreamEvent>): seq<Metadata> {
    if events == [] then []
    else
      var last := events[|events| - 1];
      BlocksIn(events[..|events| - 1]) + if last.state.Some? then last.state.value.blocks else []
  }

  /** The provider state of a response: all its blocks, in order. */
  function StateIn(events: seq<StreamEvent>): Option<ProviderState> {
    if StatesIn(events) == [] then None else Some(ProviderState(StatesIn(events)[0].protocol, BlocksIn(events)))
  }

  lemma {:induction false} StateInIs(events: seq<StreamEvent>)
    ensures JoinBlocks(StatesIn(events)) == BlocksIn(events) && Merged(StatesIn(events)) == StateIn(events)
  {
    if events != [] {
      var front, last := events[..|events| - 1], events[|events| - 1];
      StateInIs(front);
      if last.state.Some? {
        assert (StatesIn(front) + [last.state.value])[..|StatesIn(front)|] == StatesIn(front);
      } else {
        assert StatesIn(front) + [] == StatesIn(front) && BlocksIn(front) + [] == BlocksIn(front);
      }
    }
  }

  /** What is recorded of a result beside its text: what the tool attached last. */
  function Details(r: CallResult): Metadata {
    map["tool_name" := Text(r.toolName), "success" := Bool(r.success), "summary" := Text(r.summary)]
    + (if r.duration.Some? then map["duration_seconds" := Float(r.duration.value)] else map[])
    + (if r.extra.Some? then r.extra.value else map[])
  }

  lemma DetailsAre(r: CallResult)
    ensures ResultRow(r) == Row(ToolResult, r.output, Some(r.callId), Some(Details(r)))
  {
  }

  predicate HasResult(events: seq<StreamEvent>) {
    exists e :: e in events && e.kind.Answered?
  }

  /** States of different protocols are among these. */
  predicate Mixes(states: seq<ProviderState>) {
    exists i, j :: 0 <= i < j < |states| && states[i].protocol != states[j].protocol
  }

  lemma MixesIff(states: seq<ProviderState>)
    ensures Mixes(states) <==> !SameProtocol(states)
  {
    if !SameProtocol(states) {
      var s :| s in states && s.protocol != states[0].protocol;
      var j :| 0 <= j < |states| && states[j] == s;
      assert states[0].protocol != states[j].protocol;
    }
  }

  /** The event opens the record of a response whose states are of different protocols, or ends a turn without
      an answer. */
  predicate Refuses(round: seq<StreamEvent>, e: StreamEvent, blank: Blank) {
    match e.kind
    case Answered(_) => !HasResult(round) && Mixes(StatesIn(round + [e]))
    case Finished => blank(WordsIn(round))
    case _ => false
  }

  /** An end, or a refusal, is among the events: nothing more is taken. */
  predicate Over(events: seq<StreamEvent>, blank: Blank) {
    events != [] &&
    var front, last := events[..|events| - 1], events[|events| - 1];
    Over(front, blank) || last.kind.Finished? || last.kind.Stopped? || Refuses(Round(front), last, blank)
  }

  /** The last event is refused, or comes after the end. */
  predicate Refused(events: seq<StreamEvent>, blank: Blank) {
    events != [] &&
    var front, last := events[..|events| - 1], events[|events| - 1];
    Over(front, blank) || Refuses(Round(front), last, blank)
  }

  /** The last event is a result, taken, and the first of its round. */
  predicate OpensRecord(events: seq<StreamEvent>, blank: Blank) {
    events != [] && !Refused(events, blank)
    && events[|events| - 1].kind.Answered? && !HasResult(Round(events[..|events| - 1]))
  }

  /** What an event adds to the log: with the first result of a round first the response, with its text and all its
      calls, and then each of the calls. */
  function AddedRows(round: seq<StreamEvent>, e: StreamEvent): seq<Row> {
    match e.kind
    case Answered(r) =>
      (if HasResult(round) then []
       else
         [Row(Assistant, WordsIn(round), None, Some(AssistantMetadata(CallsIn(round), StateIn(round + [e]))))]
         + seq(|CallsIn(round)|, i requires 0 <= i < |CallsIn(round)| =>
               Row(ToolCall, CallsIn(round)[i].name, Some(CallsIn(round)[i].id),
                   Some(map["arguments" := Object(CallsIn(round)[i].arguments)]))))
      + [Row(ToolResult, r.output, Some(r.callId), Some(Details(r)))]
    case Finished => [Row(Assistant, WordsIn(round), None, None)]
    case Stopped(reason) => [Row(System, reason, None, None)]
    case _ => []
  }

  function RowsAlong(events: seq<StreamEvent>, blank: Blank): seq<Row> {
    if events == [] then []
    else
      RowsAlong(events[..|events| - 1], blank)
      + if Refused(events, blank) then [] else AddedRows(Round(events[..|events| - 1]), events[|events| - 1])
  }

  /** The recorder has taken in the round so far. */
  ghost predicate HoldsRound(t: Turn, round: seq<StreamEvent>) {
    && t.text == WordsIn(round) && t.calls == CallsIn(round) && t.states == StatesIn(round)
    && (t.persisted <==> HasResult(round))
  }

  lemma {:induction false} InSnoc(round: seq<StreamEvent>, e: StreamEvent)
    ensures WordsIn(round + [e]) == WordsIn(round) + if e.kind.TextDelta? then e.kind.text else ""
    ensures CallsIn(round + [e]) == CallsIn(round) + if e.kind.Called? then [e.kind.call] else []
    ensures StatesIn(round + [e]) == StatesIn(round) + if e.state.Some? then [e.state.value] else []
    ensures HasResult(round + [e]) <==> HasResult(round) || e.kind.Answered?
  {
    var events := round + [e];
    assert events[..|events| - 1] == round && events[|events| - 1] == e;
    assert forall x :: x in events <==> x in round || x == e;
  }

  lemma {:induction false} RoundSnoc(front: seq<StreamEvent>, e: StreamEvent)
    ensures Round(front + [e]) == if e.kind.ModelPhase? then [] else Round(front) + [e]
  {
    assert (front + [e])[..|front|] == front;
  }

  lemma {:induction false} CallRowsAre(calls: seq<Call>)
    ensures CallRows(calls) == seq(|calls|, i requires 0 <= i < |calls| =>
      Row(ToolCall, calls[i].name, Some(calls[i].id), Some(map["arguments" := Object(calls[i].arguments)])))
  {
    if calls != [] {
      CallRowsAre(calls[..|calls| - 1]);
    }
  }

  lemma {:induction false} ResponseIsRecorded(t: Turn, round: seq<StreamEvent>, e: StreamEvent, r: CallResult)
    requires t.text == WordsIn(round) && t.calls == CallsIn(round) && t.states == StatesIn(round + [e])
    requires (t.persisted <==> HasResult(round)) && e.kind == Answered(r) && (t.persisted || SameProtocol(t.states))
    ensures var u := RecordResult(t, r);
            && u.rows == t.rows + AddedRows(round, e) && u.persisted
            && u.text == t.text && u.calls == t.calls && u.states == t.states && u.outcome == t.outcome
  {
    hide WordsIn, CallsIn, StatesIn, StateIn, HasResult, Merged, SameProtocol, AssistantMetadata, ResultMetadata,
         ResultRow, Details, CallRows;
    DetailsAre(r);
    StateInIs(round + [e]);
    if t.persisted {
      assert [] + [ResultRow(r)] == [ResultRow(r)];
    } else {
      CallRowsAre(t.calls);
      var row := AssistantRow(t.text, t.calls, Merged(t.states));
      assert AddedRows(round, e) == [row] + CallRows(t.calls) + [ResultRow(r)];
      assert RecordResult(t, r).rows == t.rows + [row] + CallRows(t.calls) + [ResultRow(r)];
    }
  }

  lemma {:induction false} EndIsRecorded(t: Turn, reason: string, blank: Blank)
    ensures var u := Complete(t, blank);
            if blank(t.text) then u.outcome.Raised? && u.rows == t.rows
            else u.outcome.Completed? && u.rows == t.rows + [Row(Assistant, t.text, None, None)] && u.answer == t.text
    ensures Terminate(t, reason).outcome.Terminated? && Terminate(t, reason).rows == t.rows + [Row(System, reason, None, None)]
  {
    FlushKeepsRows(t);
  }

  /** What taking an event comes to. */
  ghost predicate RecordedSo(t: Turn, u: Turn, round: seq<StreamEvent>, e: StreamEvent, blank: Blank) {
    && (u.outcome.Raised? <==> Refuses(round, e, blank))
    && (!u.outcome.Raised? ==>
          && (u.outcome.Completed? <==> e.kind.Finished?) && (u.outcome.Terminated? <==> e.kind.Stopped?)
          && (u.outcome.Completed? ==> u.answer == WordsIn(round)))
    && (u.outcome.Running? ==> HoldsRound(u, if e.kind.ModelPhase? then [] else round + [e]))
    && u.rows == t.rows + if u.outcome.Raised? then [] else AddedRows(round, e)
  }

  /** The recorder with the event's state. */
  function WithState(t: Turn, e: StreamEvent): Turn {
    if e.state.Some? then t.(states := t.states + [e.state.value]) else t
  }

  lemma {:induction false} StateIsHeld(t: Turn, round: seq<StreamEvent>, e: StreamEvent)
    requires t.outcome.Running? && HoldsRound(t, round)
    ensures var u := WithState(t, e);
            && u.states == StatesIn(round + [e]) && u.text == WordsIn(round) && u.calls == CallsIn(round)
            && (u.persisted <==> HasResult(round)) && u.outcome.Running? && u.rows == t.rows
            && t.rows + [] == t.rows
  {
    InSnoc(round, e);
    assert t.states + [] == t.states;
    hide StatesIn, WordsIn, CallsIn, HasResult;
  }

  lemma {:induction false} PassedOver(t: Turn, round: seq<StreamEvent>, e: StreamEvent, blank: Blank)
    requires t.outcome.Running? && HoldsRound(t, round)
    requires !e.kind.Answered? && !e.kind.Finished? && !e.kind.Stopped? && !e.kind.ModelPhase?
    ensures RecordedSo(t, Consume(t, e, blank), round, e, blank)
  {
    hide StatesIn, WordsIn, CallsIn, HasResult, Consume, AddedRows, Refuses, WithState;
    StateIsHeld(t, round, e);
    InSnoc(round, e);
    PassIs(t, e, blank);
    EventAddsNothing(round, e, blank);
    assert WordsIn(round) + "" == WordsIn(round) && CallsIn(round) + [] == CallsIn(round);
  }

  lemma {:induction false} PassIs(t: Turn, e: StreamEvent, blank: Blank)
    requires t.outcome.Running?
    requires !e.kind.Answered? && !e.kind.Finished? && !e.kind.Stopped? && !e.kind.ModelPhase?
    ensures var u := WithState(t, e);
            Consume(t, e, blank) ==
              if e.kind.TextDelta? then u.(text := u.text + e.kind.text)
              else if e.kind.Called? then u.(calls := u.calls + [e.kind.call])
              else u
  {
    hide RecordResult, Complete, Terminate, Flushed;
  }

  lemma {:induction false} EventAddsNothing(round: seq<StreamEvent>, e: StreamEvent, blank: Blank)
    requires !e.kind.Answered? && !e.kind.Finished? && !e.kind.Stopped?
    ensures AddedRows(round, e) == [] && !Refuses(round, e, blank)
  {
    hide StatesIn, WordsIn, CallsIn, HasResult, Mixes;
  }

  lemma {:induction false} PhaseBegins(t: Turn, round: seq<StreamEvent>, e: StreamEvent, blank: Blank)
    requires t.outcome.Running? && HoldsRound(t, round) && e.kind.ModelPhase?
    ensures RecordedSo(t, Consume(t, e, blank), round, e, blank)
  {
    StateIsHeld(t, round, e);
    FlushKeepsRows(WithState(t, e));
    EmptyRound();
    hide StatesIn, WordsIn, CallsIn, HasResult, RecordResult, Complete, Terminate;
  }

  lemma {:induction false} TurnFinishes(t: Turn, round: seq<StreamEvent>, e: StreamEvent, blank: Blank)
    requires t.outcome.Running? && HoldsRound(t, round) && e.kind.Finished?
    ensures RecordedSo(t, Consume(t, e, blank), round, e, blank)
  {
    hide AddedRows, Refuses, Consume, Complete, Terminate, HoldsRound, WithState, WordsIn, CallsIn, StatesIn, HasResult;
    StateIsHeld(t, round, e);
    EndIsRecorded(WithState(t, e), "", blank);
    EndIs(t, e, blank);
    EndAdds(round, e, blank);
  }

  lemma {:induction false} EndIs(t: Turn, e: StreamEvent, blank: Blank)
    requires t.outcome.Running?
    ensures e.kind.Finished? ==> Consume(t, e, blank) == Complete(WithState(t, e), blank)
    ensures e.kind.Stopped? ==> Consume(t, e, blank) == Terminate(WithState(t, e), e.kind.reason)
  {
    hide Complete, Terminate, RecordResult, Flushed;
  }

  lemma {:induction false} EndAdds(round: seq<StreamEvent>, e: StreamEvent, blank: Blank)
    ensures e.kind.Finished? ==>
      AddedRows(round, e) == [Row(Assistant, WordsIn(round), None, None)] && (Refuses(round, e, blank) <==> blank(WordsIn(round)))
    ensures e.kind.Stopped? ==> AddedRows(round, e) == [Row(System, e.kind.reason, None, None)] && !Refuses(round, e, blank)
  {
    hide WordsIn, CallsIn, StatesIn, HasResult, Mixes;
  }

  lemma {:induction false} TurnStops(t: Turn, round: seq<StreamEvent>, e: StreamEvent, blank: Blank)
    requires t.outcome.Running? && HoldsRound(t, round) && e.kind.Stopped?
    ensures RecordedSo(t, Consume(t, e, blank), round, e, blank)
  {
    hide AddedRows, Refuses, Consume, Complete, Terminate, HoldsRound, WithState, WordsIn, CallsIn, StatesIn, HasResult;
    StateIsHeld(t, round, e);
    EndIsRecorded(WithState(t, e), e.kind.reason, blank);
    EndIs(t, e, blank);
    EndAdds(round, e, blank);
  }

  lemma {:induction false} ResultIsTaken(t: Turn, round: seq<StreamEvent>, e: StreamEvent, blank: Blank)
    requires t.outcome.Running? && HoldsRound(t, round) && e.kind.Answered?
    ensures RecordedSo(t, Consume(t, e, blank), round, e, blank)
  {
    hide Refuses, Consume, AddedRows, WithState, SameProtocol, WordsIn, CallsIn, StatesIn, HasResult, Persist, RecordResult;
    StateIsHeld(t, round, e);
    InSnoc(round, e);
    var u, r := WithState(t, e), e.kind.result;
    ResultIs(t, e, blank);
    RefusesMixed(round, e, blank);
    if u.persisted || SameProtocol(u.states) {
      ResponseIsRecorded(u, round, e, r);
      assert WordsIn(round) + "" == WordsIn(round) && CallsIn(round) + [] == CallsIn(round);
    }
  }

  lemma {:induction false} ResultIs(t: Turn, e: StreamEvent, blank: Blank)
    requires t.outcome.Running? && e.kind.Answered?
    ensures var u, r := WithState(t, e), e.kind.result;
            && Consume(t, e, blank) == RecordResult(u, r)
            && (!u.persisted && !SameProtocol(u.states) ==> RecordResult(u, r) == u.(outcome := Raised))
  {
    hide SameProtocol, Persist;
  }

  lemma {:induction false} RefusesMixed(round: seq<StreamEvent>, e: StreamEvent, blank: Blank)
    requires e.kind.Answered?
    ensures Refuses(round, e, blank) <==> !HasResult(round) && !SameProtocol(StatesIn(round + [e]))
  {
    MixesIff(StatesIn(round + [e]));
    hide SameProtocol, Mixes, StatesIn, HasResult;
  }

  /** One event of a stream that is not over. */
  lemma {:induction false} EventIsRecorded(t: Turn, round: seq<StreamEvent>, e: StreamEvent, blank: Blank)
    requires t.outcome.Running? && HoldsRound(t, round)
    ensures RecordedSo(t, Consume(t, e, blank), round, e, blank)
  {
    hide *;
    match e.kind
    case Answered(_) => ResultIsTaken(t, round, e, blank);
    case Finished => TurnFinishes(t, round, e, blank);
    case Stopped(_) => TurnStops(t, round, e, blank);
    case ModelPhase => PhaseBegins(t, round, e, blank);
    case _ => PassedOver(t, round, e, blank);
  }

  lemma {:induction false} EmptyRound()
    ensures WordsIn([]) == "" && CallsIn([]) == [] && StatesIn([]) == [] && !HasResult([])
  {
  }

  /** Every row, in order, and how the recording stands, read off the stream alone. */
  lemma {:induction false} StreamIsRecorded(text: string, events: seq<StreamEvent>, blank: Blank)
    ensures var t := ConsumeAll(Begin(UserMessage(text)), events, blank);
            && t.rows == RowsAlong(events, blank)
            && (t.outcome.Running? <==> !Over(events, blank)) && (t.outcome.Raised? <==> Refused(events, blank))
            && (t.outcome.Running? ==> HoldsRound(t, Round(events)))
            && (events != [] && !Refused(events, blank) ==>
                  var front, last := events[..|events| - 1], events[|events| - 1];
                  && (t.outcome.Completed? <==> last.kind.Finished?) && (t.outcome.Terminated? <==> last.kind.Stopped?)
                  && (t.outcome.Completed? ==> t.answer == WordsIn(Round(front))))
  {
    if events == [] {
      NothingIsRecorded(text, blank);
    } else {
      var front, last := events[..|events| - 1], events[|events| - 1];
      var t := ConsumeAll(Begin(UserMessage(text)), front, blank);
      StreamIsRecorded(text, front, blank);
      hide Consume, WordsIn, CallsIn, StatesIn, HasResult, AddedRows, SameProtocol, HoldsRound;
      if t.outcome.Running? {
        EventIsRecorded(t, Round(front), last, blank);
      } else {
        NothingAfterEnd(t, last, blank);
        NothingAdded(t, last, blank);
        assert t.rows + [] == t.rows;
      }
    }
  }

  lemma {:induction false} NothingIsRecorded(text: string, blank: Blank)
    ensures var t := ConsumeAll(Begin(UserMessage(text)), [], blank);
            t.outcome.Running? && t.rows == RowsAlong([], blank) && HoldsRound(t, Round([])) && !Over([], blank)
  {
    EmptyRound();
  }

  lemma {:induction false} NothingAdded(t: Turn, e: StreamEvent, blank: Blank)
    requires !t.outcome.Running?
    ensures Consume(t, e, blank).rows == t.rows
  {
  }

  function OfKind(rows: seq<Row>, kind: Kind): seq<Row> {
    if rows == [] then []
    else
      var last := rows[|rows| - 1];
      OfKind(rows[..|rows| - 1], kind) + if last.kind == kind then [last] else []
  }

  lemma {:induction false} OfKindConcat(x: seq<Row>, y: seq<Row>, kind: Kind)
    ensures OfKind(x + y, kind) == OfKind(x, kind) + OfKind(y, kind)
  {
    if y == [] {
      assert x + y == x;
    } else {
      var front, last := y[..|y| - 1], y[|y| - 1];
      assert (x + y)[..|x + y| - 1] == x + front;
      OfKindConcat(x, front, kind);
    }
  }

  lemma {:induction false} AllOfKind(rows: seq<Row>, kind: Kind)
    requires forall row :: row in rows ==> row.kind == kind
    ensures OfKind(rows, kind) == rows
  {
    if rows != [] {
      assert rows[|rows| - 1] in rows;
      AllOfKind(rows[..|rows| - 1], kind);
    }
  }

  lemma {:induction false} NoneOfKind(rows: seq<Row>, kind: Kind)
    requires forall row :: row in rows ==> row.kind != kind
    ensures OfKind(rows, kind) == []
  {
    if rows != [] {
      assert rows[|rows| - 1] in rows;
      NoneOfKind(rows[..|rows| - 1], kind);
    }
  }

  /** The calls announced before the first result of each round that has one taken. */
  function Announced(events: seq<StreamEvent>, blank: Blank): seq<Call> {
    if events == [] then []
    else
      var front := events[..|events| - 1];
      Announced(front, blank) + if OpensRecord(events, blank) then CallsIn(Round(front)) else []
  }

  /** The results taken. */
  function Taken(events: seq<StreamEvent>, blank: Blank): seq<CallResult> {
    if events == [] then []
    else
      var front, last := events[..|events| - 1], events[|events| - 1];
      Taken(front, blank) + if !Refused(events, blank) && last.kind.Answered? then [last.kind.result] else []
  }

  function RowOf(call: Call): Row {
    Row(ToolCall, call.name, Some(call.id), Some(map["arguments" := Object(call.arguments)]))
  }

  function RowsOf(calls: seq<Call>): (r: seq<Row>)
    ensures |r| == |calls|
  {
    seq(|calls|, i requires 0 <= i < |calls| => RowOf(calls[i]))
  }

  function ResultRows(results: seq<CallResult>): (r: seq<Row>)
    ensures |r| == |results|
  {
    seq(|results|, i requires 0 <= i < |results| =>
      Row(ToolResult, results[i].output, Some(results[i].callId), Some(Details(results[i]))))
  }

  lemma {:induction false} RowsOfConcat(x: seq<Call>, y: seq<Call>)
    ensures RowsOf(x + y) == RowsOf(x) + RowsOf(y)
  {
  }

  lemma {:induction false} ResultRowsConcat(x: seq<CallResult>, y: seq<CallResult>)
    ensures ResultRows(x + y) == ResultRows(x) + ResultRows(y)
  {
    hide ResultMetadata;
  }

  lemma {:induction false} CallsPart(first: Row, calls: seq<Row>)
    requires first.kind.Assistant? && forall row :: row in calls ==> row.kind.ToolCall?
    ensures OfKind([first] + calls, ToolCall) == calls
  {
    NoneOfKind([first], ToolCall);
    AllOfKind(calls, ToolCall);
    hide *;
    OfKindConcat([first], calls, ToolCall);
    assert [] + calls == calls;
  }

  lemma {:induction false} ThreeParts(first: Row, calls: seq<Row>, result: Row)
    requires first.kind.Assistant? && result.kind.ToolResult? && forall row :: row in calls ==> row.kind.ToolCall?
    ensures OfKind(([first] + calls) + [result], ToolCall) == calls
  {
    NoneOfKind([result], ToolCall);
    CallsPart(first, calls);
    hide *;
    OfKindConcat([first] + calls, [result], ToolCall);
    assert calls + [] == calls;
  }

  lemma {:induction false} LastPart(front: seq<Row>, result: Row)
    requires result.kind.ToolResult? && forall row :: row in front ==> !row.kind.ToolResult?
    ensures OfKind(front + [result], ToolResult) == [result]
  {
    NoneOfKind(front, ToolResult);
    AllOfKind([result], ToolResult);
    hide OfKind;
    OfKindConcat(front, [result], ToolResult);
    assert [] + [result] == [result];
  }

  lemma {:induction false} AddedWithResult(round: seq<StreamEvent>, e: StreamEvent) returns (first: Row, result: Row)
    requires e.kind.Answered?
    ensures first.kind.Assistant? && result.kind.ToolResult? && [result] == ResultRows([e.kind.result])
    ensures AddedRows(round, e) == if HasResult(round) then [result] else ([first] + RowsOf(CallsIn(round))) + [result]
    ensures forall row :: row in RowsOf(CallsIn(round)) ==> row.kind.ToolCall?
    ensures RowsOf([]) == []
  {
    hide WordsIn, CallsIn, StateIn, HasResult, AssistantMetadata, Details;
    var r := e.kind.result;
    first := Row(Assistant, WordsIn(round), None, Some(AssistantMetadata(CallsIn(round), StateIn(round + [e]))));
    result := Row(ToolResult, r.output, Some(r.callId), Some(Details(r)));
    assert [] + [result] == [result];
  }

  lemma {:induction false} AddedWithoutResult(round: seq<StreamEvent>, e: StreamEvent)
    requires !e.kind.Answered?
    ensures OfKind(AddedRows(round, e), ToolCall) == [] && OfKind(AddedRows(round, e), ToolResult) == []
    ensures RowsOf([]) == [] && ResultRows([]) == []
  {
    hide WordsIn;
    var rows := AddedRows(round, e);
    assert forall row :: row in rows ==> row.kind.Assistant? || row.kind.System?;
    NoneOfKind(rows, ToolCall);
    NoneOfKind(rows, ToolResult);
  }

  lemma {:induction false} AddedByKind(round: seq<StreamEvent>, e: StreamEvent)
    ensures OfKind(AddedRows(round, e), ToolCall) == RowsOf(if e.kind.Answered? && !HasResult(round) then CallsIn(round) else [])
    ensures OfKind(AddedRows(round, e), ToolResult) == ResultRows(if e.kind.Answered? then [e.kind.result] else [])
  {
    hide *;
    if !e.kind.Answered? {
      AddedWithoutResult(round, e);
      return;
    }
    var first, result := AddedWithResult(round, e);
    if HasResult(round) {
      NoneOfKind([result], ToolCall);
      AllOfKind([result], ToolResult);
    } else {
      ThreeParts(first, RowsOf(CallsIn(round)), result);
      LastPart([first] + RowsOf(CallsIn(round)), result);
    }
  }

  lemma NothingOfKind()
    ensures OfKind([], ToolCall) == RowsOf([]) && OfKind([], ToolResult) == ResultRows([])
  {
  }

  lemma {:induction false} AlongByKind(events: seq<StreamEvent>, blank: Blank)
    requires events != []
    ensures var front := events[..|events| - 1];
            exists added, calls, results ::
              && RowsAlong(events, blank) == RowsAlong(front, blank) + added
              && Announced(events, blank) == Announced(front, blank) + calls && Taken(events, blank) == Taken(front, blank) + results
              && OfKind(added, ToolCall) == RowsOf(calls) && OfKind(added, ToolResult) == ResultRows(results)
  {
    var front, last := events[..|events| - 1], events[|events| - 1];
    hide Refused, Round, AddedRows, HasResult, CallsIn, Over, OfKind, RowsOf, ResultRows;
    AddedByKind(Round(front), last);
    NothingOfKind();
    var added := if Refused(events, blank) then [] else AddedRows(Round(front), last);
    var calls := if OpensRecord(events, blank) then CallsIn(Round(front)) else [];
    var results := if !Refused(events, blank) && last.kind.Answered? then [last.kind.result] else [];
    assert RowsAlong(events, blank) == RowsAlong(front, blank) + added;
    assert Announced(events, blank) == Announced(front, blank) + calls;
    assert Taken(events, blank) == Taken(front, blank) + results;
  }

  lemma {:induction false} RowsAlongByKind(events: seq<StreamEvent>, blank: Blank)
    ensures OfKind(RowsAlong(events, blank), ToolCall) == RowsOf(Announced(events, blank))
    ensures OfKind(RowsAlong(events, blank), ToolResult) == ResultRows(Taken(events, blank))
  {
    if events == [] {
      assert RowsOf([]) == [] && ResultRows([]) == [];
    } else {
      hide *;
      var front := events[..|events| - 1];
      RowsAlongByKind(front, blank);
      AlongByKind(events, blank);
      var added, calls, results :|
        && RowsAlong(events, blank) == RowsAlong(front, blank) + added
        && Announced(events, blank) == Announced(front, blank) + calls && Taken(events, blank) == Taken(front, blank) + results
        && OfKind(added, ToolCall) == RowsOf(calls) && OfKind(added, ToolResult) == ResultRows(results);
      OfKindConcat(RowsAlong(front, blank), added, ToolCall);
      OfKindConcat(RowsAlong(front, blank), added, ToolResult);
      RowsOfConcat(Announced(front, blank), calls);
      ResultRowsConcat(Taken(front, blank), results);
    }
  }

  /** The rows of tool calls are those of the calls announced before the first result of each answered round, in
      order, with name, id and arguments; the rows of results are one for each result, in order. */
  lemma {:induction false} CallsAndResultsAreRecorded(text: string, events: seq<StreamEvent>, blank: Blank)
    ensures var rows, calls := ConsumeAll(Begin(UserMessage(text)), events, blank).rows, Announced(events, blank);
            && |OfKind(rows, ToolCall)| == |calls|
            && (forall i :: 0 <= i < |calls| ==>
                  OfKind(rows, ToolCall)[i]
                  == Row(ToolCall, calls[i].name, Some(calls[i].id), Some(map["arguments" := Object(calls[i].arguments)])))
            && OfKind(rows, ToolResult) == ResultRows(Taken(events, blank))
  {
    StreamIsRecorded(text, events, blank);
    RowsAlongByKind(events, blank);
    hide ConsumeAll, RowsAlong, OfKind, Announced, Taken;
  }

  // ---- sessions ----

  datatype SessionTurn = SessionTurn(text: string, metadata: Option<Metadata>, events: seq<StreamEvent>)

  function TurnOf(s: SessionTurn, blank: Blank): Turn {
    ConsumeAll(Begin(UserMessage(s.text)), s.events, blank)
  }

  function TurnRows(s: SessionTurn, blank: Blank): seq<Row> {
    [UserRow(s.text, s.metadata)] + TurnOf(s, blank).rows
  }

  function SessionRows(turns: seq<SessionTurn>, blank: Blank): seq<Row> {
    if turns == [] then []
    else SessionRows(turns[..|turns| - 1], blank) + TurnRows(turns[|turns| - 1], blank)
  }

  /** The recorder after the first `n` events of a turn. */
  function AfterEvents(s: SessionTurn, n: nat, blank: Blank): Turn
    requires n <= |s.events|
  {
    ConsumeAll(Begin(UserMessage(s.text)), s.events[..n], blank)
  }

  /** What the controller's history gains as it hears them: the recorder's, when an event ends the turn. */
  function Gained(s: SessionTurn, n: nat, blank: Blank): seq<Message>
    requires n <= |s.events|
  {
    if n == 0 then []
    else
      var t := AfterEvents(s, n, blank);
      if Ended(t) then Gained(s, n - 1, blank) + t.history else Gained(s, n - 1, blank)
  }

  /** One of them ended the turn, even if a later one makes the recorder raise. */
  predicate EverEnded(s: SessionTurn, n: nat, blank: Blank)
    requires n <= |s.events|
  {
    n > 0 && (Ended(AfterEvents(s, n, blank)) || EverEnded(s, n - 1, blank))
  }

  predicate EndsOnce(s: SessionTurn, blank: Blank) {
    EverEnded(s, |s.events|, blank)
  }

  /** The controller's history. */
  function SessionHistory(turns: seq<SessionTurn>, blank: Blank): seq<Message> {
    if turns == [] then []
    else
      var last := turns[|turns| - 1];
      SessionHistory(turns[..|turns| - 1], blank) + Gained(last, |last.events|, blank)
  }

  /** What the recorders recorded, the results they held included. */
  function RecordedHistory(turns: seq<SessionTurn>, blank: Blank): seq<Message> {
    if turns == [] then []
    else RecordedHistory(turns[..|turns| - 1], blank) + Flushed(TurnOf(turns[|turns| - 1], blank)).history
  }

  lemma {:induction false} WrittenConcat(n: nat, x: seq<Row>, y: seq<Row>)
    ensures |Written(n, x)| == |x|
    ensures Written(n, x + y) == Written(n, x) + Written(n + |x|, y)
    decreases |x| + |y|
  {
    if y == [] {
      assert x + y == x;
      if x != [] { WrittenConcat(n, x[..|x| - 1], []); }
    } else {
      var front := y[..|y| - 1];
      assert (x + y)[..|x + y| - 1] == x + front;
      WrittenConcat(n, x, front);
    }
  }

  lemma {:induction false} RestoreAllConcat(x: seq<Message>, y: seq<Message>)
    ensures RestoreAll(x + y) == RestoreAll(x) + RestoreAll(y)
  {
    if y == [] {
      assert x + y == x;
      assert RestoreAll(x) + [] == RestoreAll(x);
    } else {
      hide RestoreAll, Restore;
      var front, last := y[..|y| - 1], y[|y| - 1];
      assert y == front + [last];
      RestoreAllConcat(x, front);
      assert RestoreAll(x + y) == RestoreAll(x + front) + Restore(last) by {
        Reassociate(x, front, [last]);
        RestoreAllSnoc(x + front, last);
      }
      assert RestoreAll(y) == RestoreAll(front) + Restore(last) by { RestoreAllSnoc(front, last); }
      Reassociate(RestoreAll(x), RestoreAll(front), Restore(last));
    }
  }

  lemma {:induction false} Reassociate<T>(a: seq<T>, b: seq<T>, c: seq<T>)
    ensures (a + b) + c == a + (b + c)
  {
  }

  lemma {:induction false} FirstIsWritten(n: nat, first: Row, rest: seq<Row>)
    ensures Written(n, [first] + rest) != [] && Written(n, [first] + rest)[0].kind == first.kind
  {
    WrittenConcat(n, [first], rest);
    WrittenOne(n, first);
    hide Written;
  }

  lemma {:induction false} RowsStandAlone(before: seq<Row>, first: Row, rest: seq<Row>)
    requires Opens(first.kind)
    ensures Messages(Written(0, before + ([first] + rest)))
            == Messages(Written(0, before)) + Messages(Written(|before|, [first] + rest))
  {
    hide *;
    WrittenConcat(0, before, [first] + rest);
    FirstIsWritten(|before|, first, rest);
    MessagesSplit(Written(0, before), Written(|before|, [first] + rest));
  }

  lemma {:induction false} TurnRowsReplay(s: SessionTurn, blank: Blank, n: nat)
    ensures Messages(Written(n, TurnRows(s, blank))) == RestoreAll(Flushed(TurnOf(s, blank)).history)
  {
    TurnReplays(s.text, s.metadata, s.events, blank, n);
    hide ConsumeAll, RestoreAll, Written, Messages, Flushed;
  }

  /** A turn's rows start a message of their own, so they project on their own. */
  lemma {:induction false} TurnStandsAlone(before: seq<Row>, s: SessionTurn, blank: Blank)
    ensures Messages(Written(0, before + TurnRows(s, blank)))
            == Messages(Written(0, before)) + RestoreAll(Flushed(TurnOf(s, blank)).history)
  {
    TurnRowsReplay(s, blank, |before|);
    hide TurnOf, RestoreAll, Written, Messages, Flushed;
    RowsStandAlone(before, UserRow(s.text, s.metadata), TurnOf(s, blank).rows);
  }

  lemma {:induction false} OneEventMore(s: SessionTurn, n: nat, blank: Blank)
    requires n < |s.events|
    ensures AfterEvents(s, n + 1, blank) == Consume(AfterEvents(s, n, blank), s.events[n], blank)
  {
    assert s.events[..n + 1][..n] == s.events[..n];
  }

  /** A turn is taken over once or not at all. */
  lemma {:induction false} GainedOnce(s: SessionTurn, n: nat, blank: Blank)
    requires n <= |s.events|
    ensures Gained(s, n, blank) == if EverEnded(s, n, blank) then AfterEvents(s, n, blank).history else []
    ensures EverEnded(s, n, blank) ==> AfterEvents(s, n, blank).pending == [] && !AfterEvents(s, n, blank).outcome.Running?
  {
    if n > 0 {
      var t, e := AfterEvents(s, n - 1, blank), s.events[n - 1];
      OneEventMore(s, n - 1, blank);
      GainedOnce(s, n - 1, blank);
      hide AfterEvents, RecordResult, Complete, Terminate, Flushed;
      if EverEnded(s, n - 1, blank) {
        assert Consume(t, e, blank) == t.(outcome := Raised);
      } else if Ended(AfterEvents(s, n, blank)) {
        EndedIsFlushed(t, e, blank);
        hide Consume;
        assert [] + AfterEvents(s, n, blank).history == AfterEvents(s, n, blank).history;
      } else {
        hide Consume;
      }
    }
  }

  lemma {:induction false} HistoryOnlyGrows(t: Turn, e: StreamEvent, blank: Blank)
    ensures t.history <= Consume(t, e, blank).history
  {
    hide CallRows, AssistantRow, Merged, SameProtocol, ResultRow;
  }

  lemma {:induction false} UserComesFirst(t: Turn, events: seq<StreamEvent>, blank: Blank)
    ensures t.history <= ConsumeAll(t, events, blank).history
  {
    if events != [] {
      UserComesFirst(t, events[..|events| - 1], blank);
      HistoryOnlyGrows(ConsumeAll(t, events[..|events| - 1], blank), events[|events| - 1], blank);
      hide Consume;
    }
  }

  lemma {:induction false} RestoresUserFirst(history: seq<Message>, text: string)
    requires history != [] && history[0] == UserMessage(text)
    ensures RestoreAll(history) != [] && RestoreAll(history)[0] == UserMessage(text)
  {
    if |history| == 1 {
      assert RestoreAll(history[..0]) == [] && Restore(history[0]) == [history[0]];
    } else {
      hide Restore, UserMessage;
      RestoresUserFirst(history[..|history| - 1], text);
    }
  }

  lemma {:induction false} NothingGained(s: SessionTurn, blank: Blank)
    ensures Flushed(TurnOf(s, blank)).history != [] && Flushed(TurnOf(s, blank)).history[0] == UserMessage(s.text)
    ensures Gained(s, |s.events|, blank) == if EndsOnce(s, blank) then Flushed(TurnOf(s, blank)).history else []
  {
    assert s.events[..|s.events|] == s.events;
    GainedOnce(s, |s.events|, blank);
    UserComesFirst(Begin(UserMessage(s.text)), s.events, blank);
    hide ConsumeAll, Gained, EverEnded;
  }

  /** The log restores what the controller gained from a turn exactly if the turn was ended; otherwise it
      restores at least the user's message, of which the controller kept nothing. */
  lemma {:induction false} TurnIsGainedIff(s: SessionTurn, blank: Blank)
    ensures var kept, gained := RestoreAll(Flushed(TurnOf(s, blank)).history), RestoreAll(Gained(s, |s.events|, blank));
            if EndsOnce(s, blank) then kept == gained else gained == [] && kept != [] && kept[0] == UserMessage(s.text)
  {
    assert RestoreAll([]) == [];
    hide *;
    NothingGained(s, blank);
    RestoresUserFirst(Flushed(TurnOf(s, blank)).history, s.text);
  }

  /** A restored session: however many turns were begun, and however each of them came to an end, the whole
      log projects to what their recorders recorded, as the log restores it. */
  lemma {:induction false} SessionReplays(turns: seq<SessionTurn>, blank: Blank)
    ensures Messages(Written(0, SessionRows(turns, blank))) == RestoreAll(RecordedHistory(turns, blank))
  {
    if turns == [] {
      EmptySession(blank);
    } else {
      var front, last := turns[..|turns| - 1], turns[|turns| - 1];
      SessionReplays(front, blank);
      hide Messages, Written, RestoreAll, TurnOf, TurnRows, Flushed;
      TurnStandsAlone(SessionRows(front, blank), last, blank);
      RestoreAllConcat(RecordedHistory(front, blank), Flushed(TurnOf(last, blank)).history);
    }
  }

  lemma {:induction false} EmptySession(blank: Blank)
    ensures Messages(Written(0, SessionRows([], blank))) == RestoreAll(RecordedHistory([], blank))
  {
  }

  lemma {:induction false} LongerParts<T>(short: seq<T>, long: seq<T>, a: seq<T>, b: seq<T>, x: seq<T>, y: seq<T>)
    requires short == a + b && long == x + y
    requires |a| <= |x| && |b| <= |y| && (|b| == |y| ==> b == y)
    ensures |short| <= |long| && (short == long <==> a == x && b == y)
  {
    assert |short| == |a| + |b| && |long| == |x| + |y|;
    if short == long {
      assert a == short[..|a|] && x == long[..|x|];
    }
  }

  lemma {:induction false} OneTurnMore(turns: seq<SessionTurn>, blank: Blank)
    requires turns != []
    ensures var front, last := turns[..|turns| - 1], turns[|turns| - 1];
            && RestoreAll(SessionHistory(turns, blank))
               == RestoreAll(SessionHistory(front, blank)) + RestoreAll(Gained(last, |last.events|, blank))
            && RestoreAll(RecordedHistory(turns, blank))
               == RestoreAll(RecordedHistory(front, blank)) + RestoreAll(Flushed(TurnOf(last, blank)).history)
  {
    hide RestoreAll, Gained, Flushed, TurnOf;
    var front, last := turns[..|turns| - 1], turns[|turns| - 1];
    RestoreAllConcat(SessionHistory(front, blank), Gained(last, |last.events|, blank));
    RestoreAllConcat(RecordedHistory(front, blank), Flushed(TurnOf(last, blank)).history);
  }

  ghost predicate AllEndOnce(turns: seq<SessionTurn>, blank: Blank) {
    forall s :: s in turns ==> EndsOnce(s, blank)
  }

  lemma {:induction false} AllEndSnoc(turns: seq<SessionTurn>, blank: Blank)
    requires turns != []
    ensures var front, last := turns[..|turns| - 1], turns[|turns| - 1];
            AllEndOnce(turns, blank) <==> AllEndOnce(front, blank) && EndsOnce(last, blank)
  {
    hide EndsOnce;
    assert forall s :: s in turns <==> s in turns[..|turns| - 1] || s == turns[|turns| - 1];
  }

  lemma {:induction false} OneTurnMoreIsGainedIff(turns: seq<SessionTurn>, blank: Blank)
    requires turns != []
    requires var front := turns[..|turns| - 1];
             |RestoreAll(SessionHistory(front, blank))| <= |RestoreAll(RecordedHistory(front, blank))|
    ensures var front, last := turns[..|turns| - 1], turns[|turns| - 1];
            var kept, gained := RestoreAll(RecordedHistory(turns, blank)), RestoreAll(SessionHistory(turns, blank));
            && |gained| <= |kept|
            && (gained == kept <==>
                  RestoreAll(SessionHistory(front, blank)) == RestoreAll(RecordedHistory(front, blank)) && EndsOnce(last, blank))
  {
    hide *;
    var front, last := turns[..|turns| - 1], turns[|turns| - 1];
    OneTurnMore(turns, blank);
    TurnIsGainedIff(last, blank);
    LongerParts(RestoreAll(SessionHistory(turns, blank)), RestoreAll(RecordedHistory(turns, blank)),
                RestoreAll(SessionHistory(front, blank)), RestoreAll(Gained(last, |last.events|, blank)),
                RestoreAll(RecordedHistory(front, blank)), RestoreAll(Flushed(TurnOf(last, blank)).history));
  }

  lemma {:induction false} HistoryIsGainedIff(turns: seq<SessionTurn>, blank: Blank)
    ensures var kept, gained := RestoreAll(RecordedHistory(turns, blank)), RestoreAll(SessionHistory(turns, blank));
            |gained| <= |kept| && (gained == kept <==> AllEndOnce(turns, blank))
  {
    if turns != [] {
      hide *;
      HistoryIsGainedIff(turns[..|turns| - 1], blank);
      AllEndSnoc(turns, blank);
      OneTurnMoreIsGainedIff(turns, blank);
    }
  }

  /** It projects to the controller's own history exactly if every turn was ended: a turn whose recorder
      raised, or whose run an error escaped from, leaves rows in the log that the controller forgets. */
  lemma {:induction false} SessionReplaysIff(turns: seq<SessionTurn>, blank: Blank)
    ensures Messages(Written(0, SessionRows(turns, blank))) == RestoreAll(SessionHistory(turns, blank))
       <==> forall s :: s in turns ==> EndsOnce(s, blank)
  {
    SessionReplays(turns, blank);
    HistoryIsGainedIff(turns, blank);
    hide Messages, Written, EndsOnce, RestoreAll;
  }

  lemma {:induction false} WrittenOne(n: nat, row: Row)
    ensures Written(n, [row]) == [Event(n + 1, row.kind, row.content, row.callId, row.metadata)]
  {
    assert [row][..0] == [];
  }

  /** The recorder starts no summary, marks no `/clear` and does not speak for the user. */
  predicate OfRecorder(row: Row) {
    Ordinary(row) && !row.kind.User? && !row.kind.AgentResult?
  }

  ghost predicate AllOfRecorder(rows: seq<Row>) {
    forall row :: row in rows ==> OfRecorder(row)
  }

  lemma {:induction false} AllOfRecorderConcat(x: seq<Row>, y: seq<Row>)
    requires AllOfRecorder(x) && AllOfRecorder(y)
    ensures AllOfRecorder(x + y)
  {
    hide OfRecorder;
  }

  lemma {:induction false} CallRowsAreOfRecorder(calls: seq<Call>)
    ensures AllOfRecorder(CallRows(calls))
  {
    if calls != [] { CallRowsAreOfRecorder(calls[..|calls| - 1]); }
  }

  lemma {:induction false} PersistAddsOwnRows(t: Turn)
    requires AllOfRecorder(t.rows)
    ensures AllOfRecorder(Persist(t).rows)
  {
    var row := AssistantRow(t.text, t.calls, Merged(t.states));
    assert AllOfRecorder([row]) by { hide AssistantMetadata, Merged; }
    CallRowsAreOfRecorder(t.calls);
    hide AllOfRecorder, AssistantRow, CallRows, Merged;
    AllOfRecorderConcat(t.rows, [row]);
    AllOfRecorderConcat(t.rows + [row], CallRows(t.calls));
  }

  lemma {:induction false} RowAdded(rows: seq<Row>, row: Row)
    requires AllOfRecorder(rows) && OfRecorder(row)
    ensures AllOfRecorder(rows + [row])
  {
    hide OfRecorder;
  }

  lemma {:induction false} ResultAddsOwnRows(t: Turn, r: CallResult)
    requires AllOfRecorder(t.rows)
    ensures AllOfRecorder(RecordResult(t, r).rows)
  {
    hide AllOfRecorder, Persist, SameProtocol, ResultMetadata;
    PersistAddsOwnRows(t);
    RowAdded(Persist(t).rows, ResultRow(r));
  }

  lemma {:induction false} EndAddsOwnRows(t: Turn, reason: string, blank: Blank)
    requires AllOfRecorder(t.rows)
    ensures AllOfRecorder(Complete(t, blank).rows) && AllOfRecorder(Terminate(t, reason).rows)
  {
    hide AllOfRecorder, Flushed;
    FlushKeepsRows(t);
    RowAdded(t.rows, Row(Assistant, t.text, None, None));
    RowAdded(t.rows, Row(System, reason, None, None));
  }

  lemma {:induction false} ConsumeAddsOwnRows(t: Turn, e: StreamEvent, blank: Blank)
    requires AllOfRecorder(t.rows)
    ensures AllOfRecorder(Consume(t, e, blank).rows)
  {
    var u := if e.state.Some? then t.(states := t.states + [e.state.value]) else t;
    hide AllOfRecorder, Flushed, RecordResult, Complete, Terminate;
    FlushKeepsRows(u);
    match e.kind
    case Answered(result) => ResultAddsOwnRows(u, result);
    case Finished => EndAddsOwnRows(u, "", blank);
    case Stopped(reason) => EndAddsOwnRows(u, reason, blank);
    case _ =>
  }

  /** Everything a recorder appends is its own: no summary, no `/clear`, no user's message. */
  lemma {:induction false} TurnRowsAreOrdinary(t: Turn, events: seq<StreamEvent>, blank: Blank)
    requires forall row :: row in t.rows ==> OfRecorder(row)
    ensures forall row :: row in ConsumeAll(t, events, blank).rows ==> OfRecorder(row)
  {
    RowsStayOfRecorder(t, events, blank);
    hide OfRecorder, ConsumeAll;
  }

  lemma {:induction false} RowsStayOfRecorder(t: Turn, events: seq<StreamEvent>, blank: Blank)
    requires AllOfRecorder(t.rows)
    ensures AllOfRecorder(ConsumeAll(t, events, blank).rows)
  {
    if events != [] {
      RowsStayOfRecorder(t, events[..|events| - 1], blank);
      hide Consume, AllOfRecorder;
      ConsumeAddsOwnRows(ConsumeAll(t, events[..|events| - 1], blank), events[|events| - 1], blank);
    }
  }

  // ---- the recorder ----

  class TurnRecorder {
    const log: ConversationLog
    const blank: Blank
    var history: seq<Message>
    var text: string
    var calls: seq<Call>
    var states: seq<ProviderState>
    var pending: seq<CallResult>
    var persisted: bool
    var outcome: Outcome
    var answer: string
    ghost var rows: seq<Row>
    ghost var start: nat

    ghost function Now(): Turn
      reads this
    {
      Turn(history, text, calls, states, pending, persisted, outcome, answer, rows)
    }

    /** What the log has gained since the turn began is what the recorder appended. */
    ghost predicate Valid()
      reads this, log
    {
      && log.Valid() && start <= |log.events|
      && log.events[start..] == Written(start, rows)
    }

    constructor (current: Message, log: ConversationLog, blank: Blank)
      requires log.Valid()
      ensures Valid() && Now() == Begin(current) && this.log == log && this.blank == blank && start == |log.events|
    {
      this.log, this.blank := log, blank;
      history, text, calls, states, pending := [current], "", [], [], [];
      persisted, outcome, answer, rows, start := false, Running, "", [], |log.events|;
    }

    method AppendRow(row: Row)
      requires Valid()
      modifies log, this`rows
      ensures Valid() && rows == old(rows) + [row]
      ensures log.events[..start] == old(log.events)[..start]
    {
      WrittenConcat(start, rows, []);
      WrittenConcat(start, rows, [row]);
      WrittenOne(start + |rows|, row);
      hide Written;
      var e := log.AppendEvent(row.kind, row.content, row.callId, row.metadata);
      assert log.events[start..] == old(log.events)[start..] + [e];
      rows := rows + [row];
    }

    method Flush()
      modifies this`history, this`pending
      ensures Now() == Flushed(old(Now()))
    {
      if pending != [] {
        history := history + [ResultsMessage(pending)];
        pending := [];
      }
    }

    method AppendCalls()
      requires Valid()
      modifies log, this`rows
      ensures Valid() && rows == old(rows) + CallRows(calls)
      ensures log.events[..start] == old(log.events)[..start]
    {
      var i := 0;
      while i < |calls|
        invariant i <= |calls| && Valid() && rows == old(rows) + CallRows(calls[..i])
        invariant log.events[..start] == old(log.events)[..start]
      {
        assert calls[..i + 1][..i] == calls[..i];
        AppendRow(CallRow(calls[i]));
        i := i + 1;
      }
      assert calls[..i] == calls;
    }

    method RecordToolResult(result: CallResult)
      requires Valid() && outcome.Running?
      modifies log, this
      ensures Valid() && Now() == RecordResult(old(Now()), result) && start == old(start)
      ensures log.events[..start] == old(log.events)[..start]
    {
      hide Written;
      if !persisted {
        if !SameProtocol(states) {
          outcome := Raised;
          return;
        }
        var state := Merged(states);
        history := history + [Message(FromAssistant, text, calls, [], state)];
        AppendRow(AssistantRow(text, calls, state));
        AppendCalls();
        persisted := true;
      }
      pending := pending + [result];
      AppendRow(ResultRow(result));
    }

    method FinishTurn()
      requires Valid() && outcome.Running?
      modifies log, this
      ensures Valid() && Now() == Complete(old(Now()), blank) && start == old(start)
      ensures log.events[..start] == old(log.events)[..start]
    {
      hide Written;
      Flush();
      if blank(text) {
        outcome := Raised;
      } else {
        answer := text;
        history := history + [Message(FromAssistant, text, [], [], None)];
        AppendRow(Row(Assistant, text, None, None));
        outcome := Completed;
      }
    }

    method TerminateTurn(reason: string)
      requires Valid() && outcome.Running?
      modifies log, this
      ensures Valid() && Now() == Terminate(old(Now()), reason) && start == old(start)
      ensures log.events[..start] == old(log.events)[..start]
    {
      hide Written;
      Flush();
      AppendRow(Row(System, reason, None, None));
      outcome := Terminated;
    }

    method ConsumeEvent(e: StreamEvent)
      requires Valid()
      modifies log, this
      ensures Valid() && Now() == Consume(old(Now()), e, blank) && start == old(start)
      ensures log.events[..start] == old(log.events)[..start]
    {
      hide Written, RecordResult, ResultRow, AssistantRow, Complete, Terminate;
      if !outcome.Running? {
        outcome := Raised;
        return;
      }
      if e.state.Some? {
        states := states + [e.state.value];
      }
      match e.kind {
        case ModelPhase =>
          Flush();
          text, calls, states, persisted := "", [], [], false;
        case TextDelta(more) =>
          text := text + more;
        case Called(call) =>
          calls := calls + [call];
        case Answered(result) =>
          RecordToolResult(result);
        case Finished =>
          FinishTurn();
        case Stopped(reason) =>
          TerminateTurn(reason);
        case ToolsPhase =>
        case Other =>
      }
    }
  }

  // ---- the controller ----

  /** Nothing a recorder hears after it raised changes it. */
  lemma {:induction false} RaisedForGood(turn: SessionTurn, n: nat, blank: Blank)
    requires n <= |turn.events| && (n == |turn.events| || AfterEvents(turn, n, blank).outcome.Raised?)
    ensures TurnOf(turn, blank) == AfterEvents(turn, n, blank)
    ensures Gained(turn, |turn.events|, blank) == Gained(turn, n, blank)
    decreases |turn.events| - n
  {
    if n == |turn.events| {
      assert turn.events[..n] == turn.events;
    } else {
      OneEventMore(turn, n, blank);
      RaisedForGood(turn, n + 1, blank);
    }
  }

  class AgentSession {
    const log: ConversationLog
    const blank: Blank
    var history: seq<Message>
    var waiting: seq<Message>

    constructor (log: ConversationLog, blank: Blank)
      ensures this.log == log && this.blank == blank && history == [] && waiting == []
    {
      this.log, this.blank, history, waiting := log, blank, [], [];
    }

    /** The result of another agent is logged at once and joins the history when the next turn begins. */
    method EnqueueAgentResult(content: string, metadata: Option<Metadata>)
      requires log.Valid()
      modifies this`waiting, log
      ensures log.Valid()
      ensures log.events == old(log.events) + Written(|old(log.events)|, [Row(AgentResult, content, None, metadata)])
      ensures waiting == old(waiting) + [UserMessage(content)]
    {
      WrittenOne(|log.events|, Row(AgentResult, content, None, metadata));
      var e := log.AppendEvent(AgentResult, content, None, metadata);
      waiting := waiting + [UserMessage(content)];
    }

    /** Hears what the runner passes on, up to where the recorder raises. */
    method Hear(turn: SessionTurn, recorder: TurnRecorder)
      requires recorder.Valid() && recorder.log == log && recorder.blank == blank
      requires recorder.Now() == Begin(UserMessage(turn.text))
      modifies this`history, recorder, log
      ensures recorder.Valid() && recorder.start == old(recorder.start)
      ensures log.events[..recorder.start] == old(log.events)[..recorder.start]
      ensures recorder.Now() == TurnOf(turn, blank)
      ensures history == old(history) + Gained(turn, |turn.events|, blank)
    {
      hide Written, Consume;
      var i := 0;
      while i < |turn.events| && !recorder.outcome.Raised?
        invariant i <= |turn.events| && recorder.Valid() && recorder.start == old(recorder.start)
        invariant log.events[..recorder.start] == old(log.events)[..recorder.start]
        invariant recorder.Now() == AfterEvents(turn, i, blank)
        invariant history == old(history) + Gained(turn, i, blank)
      {
        OneEventMore(turn, i, blank);
        recorder.ConsumeEvent(turn.events[i]);
        i := i + 1;
        if recorder.outcome.Completed? || recorder.outcome.Terminated? {
          history := history + recorder.history;
        }
      }
      RaisedForGood(turn, i, blank);
    }

    /** One turn: `turn.events` is what the runner passes on before it ends or raises. */
    method Send(turn: SessionTurn) returns (raised: bool)
      requires log.Valid()
      modifies this`history, this`waiting, log
      ensures log.Valid()
      ensures log.events == old(log.events) + Written(|old(log.events)|, TurnRows(turn, blank))
      ensures history == old(history + waiting) + Gained(turn, |turn.events|, blank) && waiting == []
      ensures raised == !Ended(TurnOf(turn, blank))
    {
      hide Written, ConsumeAll, Gained;
      ghost var start, row := log.events, UserRow(turn.text, turn.metadata);
      WrittenOne(|start|, row);
      history, waiting := history + waiting, [];
      var e := log.AppendEvent(User, turn.text, None, turn.metadata);
      var recorder := new TurnRecorder(UserMessage(turn.text), log, blank);
      Hear(turn, recorder);
      WrittenConcat(|start|, [row], recorder.rows);
      raised := recorder.outcome.Raised? || recorder.outcome.Running?;
    }
  }
}
