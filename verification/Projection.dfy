/** Model-visible history rebuilt from the timeline, and its division into groups that no later
    step may split. */
module Projection {
  import opened Wrappers
  import opened Timeline

  datatype Role = FromUser | FromAssistant

  datatype Protocol = Anthropic | OpenAI

  datatype Call = Call(id: string, name: string, arguments: Metadata, argumentError: bool)

  datatype CallResult = CallResult(
    callId: string, toolName: string, success: bool, output: string, summary: string,
    duration: Option<real>, extra: Option<Metadata>)

  datatype ProviderState = ProviderState(protocol: Protocol, blocks: seq<Metadata>)

  datatype Message = Message(
    role: Role, content: string, calls: seq<Call>, results: seq<CallResult>, state: Option<ProviderState>)

  function UserMessage(content: string): Message {
    Message(FromUser, content, [], [], None)
  }

  function ResultsMessage(results: seq<CallResult>): Message {
    Message(FromUser, "", [], results, None)
  }

  // ---- what the log's metadata restores ----

  function Field(m: Metadata, name: string): Json {
    if name in m then m[name] else Null
  }

  /** The calls of a list, skipping entries of the wrong shape. */
  function ReadCalls(items: seq<Json>): seq<Call> {
    if items == [] then []
    else
      var rest := ReadCalls(items[1..]);
      if !items[0].Object? then rest
      else
        var id, name, arguments :=
          Field(items[0].fields, "id"), Field(items[0].fields, "name"), Field(items[0].fields, "arguments");
        if id.Text? && name.Text? && arguments.Object?
        then [Call(id.text, name.text, arguments.fields, false)] + rest
        else rest
  }

  function RestoredCalls(metadata: Option<Metadata>): seq<Call> {
    if metadata.None? || !Field(metadata.value, "tool_calls").List? then []
    else ReadCalls(Field(metadata.value, "tool_calls").items)
  }

  predicate ThinkingBlock(block: Json) {
    block.Object? && Field(block.fields, "type") in {Text("thinking"), Text("redacted_thinking")}
  }

  function ReadProtocol(value: Json): Option<Protocol> {
    if value == Text("anthropic") then Some(Anthropic)
    else if value == Text("openai") then Some(OpenAI)
    else None
  }

  function RestoredState(metadata: Option<Metadata>): Option<ProviderState> {
    if metadata.None? || !Field(metadata.value, "provider_state").Object? then None
    else
      var raw := Field(metadata.value, "provider_state").fields;
      var protocol, blocks := ReadProtocol(Field(raw, "protocol")), Field(raw, "thinking_blocks");
      if protocol.None? || !blocks.List? then None
      else if exists b :: b in blocks.items && !ThinkingBlock(b) then None
      else
        Some(ProviderState(protocol.value,
          seq(|blocks.items|, i requires 0 <= i < |blocks.items| =>
                if blocks.items[i].Object? then blocks.items[i].fields else map[])))
  }

  function RestoredResult(e: Event): Option<CallResult> {
    var m := if e.metadata.Some? then e.metadata.value else map[];
    var toolName, success, summary := Field(m, "tool_name"), Field(m, "success"), Field(m, "summary");
    if e.callId.None? || !toolName.Text? || !success.Bool? then None
    else
      Some(CallResult(e.callId.value, toolName.text, success.bit, e.content,
                      if summary.Text? then summary.text else "restored tool result", None, None))
  }

  /** What the recorder writes beside a result: its own fields, then whatever the tool attached. */
  function ResultMetadata(r: CallResult): Metadata {
    map["tool_name" := Text(r.toolName), "success" := Bool(r.success), "summary" := Text(r.summary)]
    + (if r.duration.Some? then map["duration_seconds" := Float(r.duration.value)] else map[])
    + (if r.extra.Some? then r.extra.value else map[])
  }

  function ResultEvent(sequence: nat, r: CallResult): Event {
    Event(sequence, ToolResult, r.output, Some(r.callId), Some(ResultMetadata(r)))
  }

  // ---- rebuilding messages ----

  /** Messages written so far and the results waiting to be written as one message. */
  datatype Building = Building(messages: seq<Message>, pending: seq<CallResult>)

  const NOTHING := Building([], [])

  function Flush(b: Building): Building {
    if b.pending == [] then b else Building(b.messages + [ResultsMessage(b.pending)], [])
  }

  function Write(b: Building, m: Message): Building {
    Building(Flush(b).messages + [m], [])
  }

  function Feed(b: Building, e: Event): Building {
    if e.kind.User? || e.kind.AgentResult? then Write(b, UserMessage(e.content))
    else if e.kind.Assistant? then
      Write(b, Message(FromAssistant, e.content, RestoredCalls(e.metadata), [], RestoredState(e.metadata)))
    else if e.kind.ToolResult? && RestoredResult(e).Some? then b.(pending := b.pending + [RestoredResult(e).value])
    else b
  }

  function FeedAll(b: Building, events: seq<Event>): Building {
    if events == [] then b else Feed(FeedAll(b, events[..|events| - 1]), events[|events| - 1])
  }

  function Messages(events: seq<Event>): seq<Message> {
    Flush(FeedAll(NOTHING, events)).messages
  }

  method MessagesFromEvents(events: seq<Event>) returns (messages: seq<Message>)
    ensures messages == Messages(events)
  {
    messages := [];
    var pending: seq<CallResult> := [];
    var i := 0;
    while i < |events|
      invariant i <= |events| && Building(messages, pending) == FeedAll(NOTHING, events[..i])
    {
      var e := events[i];
      assert events[..i + 1][..i] == events[..i];
      match e.kind {
        case User =>
          messages, pending := FlushResults(messages, pending);
          messages := messages + [UserMessage(e.content)];
        case AgentResult =>
          messages, pending := FlushResults(messages, pending);
          messages := messages + [UserMessage(e.content)];
        case Assistant =>
          messages, pending := FlushResults(messages, pending);
          messages := messages
            + [Message(FromAssistant, e.content, RestoredCalls(e.metadata), [], RestoredState(e.metadata))];
        case ToolResult =>
          var result := RestoredResult(e);
          if result.Some? {
            pending := pending + [result.value];
          }
        case _ =>
      }
      i := i + 1;
    }
    assert events[..i] == events;
    messages, pending := FlushResults(messages, pending);
  }

  method FlushResults(messages: seq<Message>, pending: seq<CallResult>)
      returns (messages': seq<Message>, pending': seq<CallResult>)
    ensures Building(messages', pending') == Flush(Building(messages, pending))
    ensures pending' == []
  {
    messages', pending' := messages, [];
    if pending != [] {
      messages' := messages + [ResultsMessage(pending)];
    }
  }

  lemma {:induction false} FeedAllConcat(b: Building, x: seq<Event>, y: seq<Event>)
    ensures FeedAll(b, x + y) == FeedAll(FeedAll(b, x), y)
  {
    if y == [] {
      assert x + y == x;
    } else {
      assert (x + y)[..|x + y| - 1] == x + y[..|y| - 1];
      FeedAllConcat(b, x, y[..|y| - 1]);
    }
  }

  /** What was already written only stands in front. */
  lemma {:induction false} FeedAllFramed(written: seq<Message>, b: Building, events: seq<Event>)
    ensures var r := FeedAll(b, events);
            FeedAll(Building(written + b.messages, b.pending), events) == Building(written + r.messages, r.pending)
  {
    if events != [] {
      FeedAllFramed(written, b, events[..|events| - 1]);
      FeedFramed(written, FeedAll(b, events[..|events| - 1]), events[|events| - 1]);
    }
  }

  lemma {:induction false} FeedFramed(written: seq<Message>, b: Building, e: Event)
    ensures var r := Feed(b, e);
            Feed(Building(written + b.messages, b.pending), e) == Building(written + r.messages, r.pending)
  {
    FlushFramed(written, b);
    var flushed := Flush(b).messages;
    assert forall m :: (written + flushed) + [m] == written + (flushed + [m]);
  }

  lemma {:induction false} FlushFramed(written: seq<Message>, b: Building)
    ensures Flush(Building(written + b.messages, b.pending))
            == Building(written + Flush(b).messages, Flush(b).pending)
  {
    assert (written + b.messages) + [ResultsMessage(b.pending)] == written + (b.messages + [ResultsMessage(b.pending)]);
  }

  predicate Opens(kind: Kind) {
    kind.User? || kind.AgentResult? || kind.Assistant?
  }

  /** Rebuilding splits at every event that starts a message of its own, and wherever nothing waits. */
  lemma {:induction false} MessagesSplit(x: seq<Event>, y: seq<Event>)
    requires y == [] || Opens(y[0].kind) || FeedAll(NOTHING, x).pending == []
    ensures Messages(x + y) == Messages(x) + Messages(y)
  {
    if y == [] {
      assert x + y == x;
    } else {
      var b := FeedAll(NOTHING, x);
      FeedAllConcat(NOTHING, x, y);
      var written := Flush(b).messages;
      if b.pending == [] {
        FeedAllFramed(written, NOTHING, y);
      } else {
        assert y == [y[0]] + y[1..];
        FeedAllConcat(b, [y[0]], y[1..]);
        FeedAllConcat(Building(written, []), [y[0]], y[1..]);
        FeedOne(b, y[0]);
        FeedOne(Building(written, []), y[0]);
        FeedAllFramed(written, NOTHING, y);
      }
      assert written + NOTHING.messages == written;
      FlushFramed(written, FeedAll(NOTHING, y));
    }
  }

  /** The results that come before any event that starts a message. */
  function Leading(events: seq<Event>): seq<CallResult> {
    if events == [] || Opens(events[0].kind) then []
    else
      (if events[0].kind.ToolResult? && RestoredResult(events[0]).Some? then [RestoredResult(events[0]).value] else [])
      + Leading(events[1..])
  }

  function LeadLength(events: seq<Event>): (n: nat)
    ensures n <= |events|
    ensures n < |events| ==> Opens(events[n].kind)
  {
    if events == [] || Opens(events[0].kind) then 0 else 1 + LeadLength(events[1..])
  }

  lemma {:induction false} FeedCons(b: Building, e: Event, rest: seq<Event>)
    ensures FeedAll(b, [e] + rest) == FeedAll(Feed(b, e), rest)
  {
    FeedAllConcat(b, [e], rest);
    FeedOne(b, e);
  }

  lemma {:induction false} LeadIsFed(b: Building, events: seq<Event>)
    ensures FeedAll(b, events[..LeadLength(events)]) == Building(b.messages, b.pending + Leading(events))
    decreases |events|
  {
    hide FeedAll, RestoredResult;
    if events == [] || Opens(events[0].kind) {
      assert b.pending + [] == b.pending && events[..0] == [];
      FeedNothing(b);
    } else {
      var e, rest := events[0], events[1..];
      var n := LeadLength(rest);
      assert events[..n + 1] == [e] + rest[..n];
      FeedCons(b, e, rest[..n]);
      LeadIsFed(Feed(b, e), rest);
      var own := if e.kind.ToolResult? && RestoredResult(e).Some? then [RestoredResult(e).value] else [];
      assert (b.pending + own) + Leading(rest) == b.pending + (own + Leading(rest));
      assert b.pending + [] == b.pending;
    }
  }

  lemma {:induction false} FeedNothing(b: Building)
    ensures FeedAll(b, []) == b
  {
  }

  /** The results not yet written. */
  function Waiting(events: seq<Event>): seq<CallResult> {
    FeedAll(NOTHING, events).pending
  }

  /** Results that are written together. */
  function Joined(results: seq<CallResult>): seq<Message> {
    if results == [] then [] else [ResultsMessage(results)]
  }

  lemma {:induction false} FlushJoins(b: Building)
    ensures Flush(b).messages == b.messages + Joined(b.pending)
  {
  }

  lemma {:induction false} LeadSplits(x: seq<Event>, y: seq<Event>)
    ensures Messages(x + y)
         == FeedAll(NOTHING, x).messages + Joined(Waiting(x) + Leading(y)) + Messages(y[LeadLength(y)..])
  {
    var n, b := LeadLength(y), FeedAll(NOTHING, x);
    assert x + y == (x + y[..n]) + y[n..];
    MessagesSplit(x + y[..n], y[n..]);
    FeedAllConcat(NOTHING, x, y[..n]);
    LeadIsFed(b, y);
    FlushJoins(Building(b.messages, b.pending + Leading(y)));
    hide FeedAll, Leading, LeadLength, Opens, Flush, Joined;
  }

  lemma {:induction false} LeadComesFirst(y: seq<Event>)
    ensures Messages(y) == Joined(Leading(y)) + Messages(y[LeadLength(y)..])
  {
    var n := LeadLength(y);
    assert y == y[..n] + y[n..];
    MessagesSplit(y[..n], y[n..]);
    LeadIsFed(NOTHING, y);
    FlushJoins(Building([], [] + Leading(y)));
    assert [] + Leading(y) == Leading(y) && [] + Joined(Leading(y)) == Joined(Leading(y));
    hide FeedAll, Leading, LeadLength, Opens, Flush, Joined;
  }

  lemma {:induction false} OpenerComesFirst(events: seq<Event>)
    requires events != [] && Opens(events[0].kind)
    ensures Messages(events) != [] && Messages(events)[0].results == []
  {
    var e, rest := events[0], events[1..];
    assert events == [e] + rest;
    FeedOne(NOTHING, e);
    assert FeedAll(NOTHING, [e]).pending == [];
    MessagesSplit([e], rest);
    hide FeedAll, RestoredCalls, RestoredState;
  }

  lemma {:induction false} JoinedApart(written: seq<Message>, p: seq<CallResult>, q: seq<CallResult>, rest: seq<Message>)
    ensures written + Joined(p + q) + rest == (written + Joined(p)) + (Joined(q) + rest) <==> p == [] || q == []
  {
    if p == [] {
      assert p + q == q && written + Joined(p) == written;
    } else if q == [] {
      assert p + q == p && Joined(q) + rest == rest;
    } else {
      assert |written + Joined(p + q) + rest| == |written| + 1 + |rest|;
      assert |(written + Joined(p)) + (Joined(q) + rest)| == |written| + 2 + |rest|;
    }
  }

  /** Exactly where rebuilding splits: unless results wait on one side and more come first on the other. Those
      make two messages apart, and one together. */
  lemma {:induction false} MessagesSplitIff(x: seq<Event>, y: seq<Event>)
    ensures Messages(x + y) == Messages(x) + Messages(y) <==> Waiting(x) == [] || Leading(y) == []
    ensures Waiting(x) != [] && Leading(y) != [] ==>
      var written, rest := FeedAll(NOTHING, x).messages, Messages(y[LeadLength(y)..]);
      && Messages(x) == written + [ResultsMessage(Waiting(x))]
      && Messages(y) == [ResultsMessage(Leading(y))] + rest
      && Messages(x + y) == written + [ResultsMessage(Waiting(x) + Leading(y))] + rest
  {
    LeadSplits(x, y);
    LeadComesFirst(y);
    FlushJoins(FeedAll(NOTHING, x));
    JoinedApart(FeedAll(NOTHING, x).messages, Waiting(x), Leading(y), Messages(y[LeadLength(y)..]));
    assert Messages(x) == FeedAll(NOTHING, x).messages + Joined(Waiting(x));
    hide FeedAll, Leading, LeadLength, Messages, Waiting;
  }

  /** Leading results are the one way to begin with a message of results. */
  lemma {:induction false} FirstMessageOfResults(y: seq<Event>)
    ensures Messages(y) != [] && Messages(y)[0].results != [] <==> Leading(y) != []
    ensures Leading(y) != [] ==> Messages(y)[0] == ResultsMessage(Leading(y))
  {
    var rest := y[LeadLength(y)..];
    LeadComesFirst(y);
    if rest != [] { OpenerComesFirst(rest); } else { assert Messages(rest) == []; }
    hide FeedAll, Leading, LeadLength, Messages;
    assert [] + Messages(rest) == Messages(rest);
  }

  lemma {:induction false} FeedOne(b: Building, e: Event)
    ensures FeedAll(b, [e]) == Feed(b, e)
  {
    assert [e][..0] == [];
  }

  // ---- groups ----

  predicate ToolKind(kind: Kind) {
    kind.ToolCall? || kind.ToolResult?
  }

  function ToolRun(events: seq<Event>): (n: nat)
    ensures n <= |events|
    ensures forall i :: 0 <= i < n ==> ToolKind(events[i].kind)
    ensures n < |events| ==> !ToolKind(events[n].kind)
  {
    if events != [] && ToolKind(events[0].kind) then 1 + ToolRun(events[1..]) else 0
  }

  /** Length of the group that starts a non-empty timeline. */
  function GroupLength(events: seq<Event>): (n: nat)
    requires events != []
    ensures 1 <= n <= |events|
  {
    if events[0].kind.Assistant? || ToolKind(events[0].kind) then 1 + ToolRun(events[1..]) else 1
  }

  function Groups(events: seq<Event>): seq<seq<Event>> {
    if events == [] then []
    else
      var n := GroupLength(events);
      [events[..n]] + Groups(events[n..])
  }

  function Flatten(groups: seq<seq<Event>>): seq<Event> {
    if groups == [] then [] else groups[0] + Flatten(groups[1..])
  }

  function FlattenMessages(groups: seq<seq<Event>>): seq<Message> {
    if groups == [] then [] else Messages(groups[0]) + FlattenMessages(groups[1..])
  }

  ghost predicate AllVisible(events: seq<Event>) {
    forall e :: e in events ==> Visible(e.kind)
  }

  lemma {:induction false} RunStep(events: seq<Event>, index: nat)
    requires index < |events| && ToolKind(events[index].kind)
    ensures ToolRun(events[index..]) == 1 + ToolRun(events[index + 1..])
  {
    assert events[index..][1..] == events[index + 1..];
  }

  lemma {:induction false} GroupStep(events: seq<Event>, start: nat, end: nat)
    requires start < end <= |events|
    requires events[start].kind.Assistant? || ToolKind(events[start].kind) ==>
      ToolRun(events[start + 1..]) == end - start - 1
    requires !events[start].kind.Assistant? && !ToolKind(events[start].kind) ==> end == start + 1
    ensures Groups(events[start..]) == [events[start..end]] + Groups(events[end..])
  {
    hide ToolRun;
    var rest := events[start..];
    assert GroupLength(rest) == end - start by {
      assert rest[1..] == events[start + 1..];
    }
    hide GroupLength;
    assert rest[..end - start] == events[start..end];
    assert rest[end - start..] == events[end..];
  }

  method GroupContextEvents(events: seq<Event>) returns (groups: seq<seq<Event>>)
    ensures groups == Groups(events)
  {
    hide Groups, ToolRun, GroupLength;
    groups := [];
    var index := 0;
    assert events[0..] == events;
    while index < |events|
      invariant index <= |events| && groups + Groups(events[index..]) == Groups(events)
    {
      var start := index;
      var first := events[index].kind;
      var grouped := [events[index]];
      index := index + 1;
      assert grouped == events[start..index];
      if first.Assistant? || ToolKind(first) {
        while index < |events| && ToolKind(events[index].kind)
          invariant start < index <= |events| && grouped == events[start..index]
          invariant ToolRun(events[start + 1..]) == index - start - 1 + ToolRun(events[index..])
        {
          RunStep(events, index);
          assert events[start..index + 1] == events[start..index] + [events[index]];
          grouped := grouped + [events[index]];
          index := index + 1;
        }
        RunEnds(events[index..]);
      }
      GroupStep(events, start, index);
      Regrouped(groups, grouped, Groups(events[index..]));
      groups := groups + [grouped];
    }
    NoGroups(events[index..]);
  }

  lemma {:induction false} Regrouped<T>(done: seq<T>, one: T, rest: seq<T>)
    ensures done + ([one] + rest) == (done + [one]) + rest
  {
  }

  lemma {:induction false} RunEnds(events: seq<Event>)
    requires events == [] || !ToolKind(events[0].kind)
    ensures ToolRun(events) == 0
  {
  }

  lemma {:induction false} NoGroups(events: seq<Event>)
    requires events == []
    ensures Groups(events) == []
  {
  }

  lemma {:induction false} GroupsConcatenate(events: seq<Event>)
    ensures Flatten(Groups(events)) == events
    ensures forall g :: g in Groups(events) ==> g != []
  {
    if events != [] {
      var n := GroupLength(events);
      GroupsConcatenate(events[n..]);
      assert events == events[..n] + events[n..];
    }
  }

  /** A tool event right after an assistant or tool event belongs to the same round. */
  predicate Joins(before: Event, e: Event) {
    ToolKind(e.kind) && (ToolKind(before.kind) || before.kind.Assistant?)
  }

  /** Groups are cut everywhere but inside a round. */
  ghost predicate CutBetweenRounds(groups: seq<seq<Event>>) {
    && (forall g :: g in groups ==> g != [] && forall i: int :: 0 < i < |g| ==> Joins(g[i - 1], g[i]))
    && (forall k: int :: 0 < k < |groups| && groups[k - 1] != [] && groups[k] != [] ==>
          !Joins(groups[k - 1][|groups[k - 1]| - 1], groups[k][0]))
  }

  lemma {:induction false} FirstGroupIsOneRound(events: seq<Event>)
    requires events != []
    ensures var n := GroupLength(events);
            && (forall i: int :: 0 < i < n ==> Joins(events[..n][i - 1], events[..n][i]))
            && (n < |events| ==> !Joins(events[n - 1], events[n]))
  {
    var n := GroupLength(events);
    forall i: int | 0 < i < n ensures Joins(events[i - 1], events[i]) {
      assert events[1..][i - 1] == events[i];
      if 1 < i { assert events[1..][i - 2] == events[i - 1]; }
    }
    if n < |events| {
      assert events[1..][n - 1] == events[n];
      if 1 < n { assert events[1..][n - 2] == events[n - 1]; }
    }
  }

  lemma {:induction false} CutBeforeRest(first: seq<Event>, rest: seq<seq<Event>>)
    requires first != [] && forall i: int :: 0 < i < |first| ==> Joins(first[i - 1], first[i])
    requires CutBetweenRounds(rest)
    requires rest != [] && rest[0] != [] ==> !Joins(first[|first| - 1], rest[0][0])
    ensures CutBetweenRounds([first] + rest)
  {
    hide Joins;
    var groups := [first] + rest;
    forall k: int | 0 < k < |groups| && groups[k - 1] != [] && groups[k] != []
      ensures !Joins(groups[k - 1][|groups[k - 1]| - 1], groups[k][0])
    {
      if 1 < k {
        assert groups[k] == rest[k - 1] && groups[k - 1] == rest[k - 2];
      }
    }
  }

  lemma {:induction false} GroupsKeepRounds(events: seq<Event>)
    ensures CutBetweenRounds(Groups(events))
  {
    if events != [] {
      var n := GroupLength(events);
      GroupsKeepRounds(events[n..]);
      FirstGroupIsOneRound(events);
      GroupsConcatenate(events[n..]);
      hide GroupLength, Joins, CutBetweenRounds;
      CutBeforeRest(events[..n], Groups(events[n..]));
    }
  }

  /** The first group either leaves nothing waiting or is followed by an event that starts a message. */
  lemma {:induction false} FirstGroupEndsClean(events: seq<Event>)
    requires AllVisible(events) && events != []
    ensures var n := GroupLength(events);
            n == |events| || Opens(events[n].kind) || FeedAll(NOTHING, events[..n]).pending == []
  {
    var n := GroupLength(events);
    if n < |events| {
      assert events[n] in events;
      if events[0].kind.Assistant? || ToolKind(events[0].kind) {
        assert events[1..][n - 1] == events[n];
      } else {
        assert events[..1] == [events[0]];
        assert events[0] in events;
        FeedOne(NOTHING, events[0]);
      }
    }
  }

  /** Rebuilding messages distributes over the groups of any model-visible timeline. */
  lemma {:induction false} MessagesDistribute(events: seq<Event>)
    requires AllVisible(events)
    ensures Messages(events) == FlattenMessages(Groups(events))
  {
    if events != [] {
      var n := GroupLength(events);
      FirstGroupEndsClean(events);
      assert events == events[..n] + events[n..];
      MessagesSplit(events[..n], events[n..]);
      MessagesDistribute(events[n..]);
    }
  }

  /** On a timeline with other events in between, it need not: two results around a note are one
      message, but two groups with results. */
  lemma {:induction false} MessagesNeedVisibleEvents(a: CallResult, b: CallResult, note: string)
    requires a.extra == None && b.extra == None
    ensures var events := [ResultEvent(1, a), Event(2, System, note, None, None), ResultEvent(3, b)];
            |Messages(events)| == 1 && |FlattenMessages(Groups(events))| == 2
  {
    var x, y, z := ResultEvent(1, a), Event(2, System, note, None, None), ResultEvent(3, b);
    RowRestores(1, a);
    RowRestores(3, b);
    hide RestoredResult, ResultEvent;
    FeedOne(NOTHING, x);
    FeedOne(NOTHING, z);
    FeedOne(NOTHING, y);
    assert [x, y, z] == [x] + ([y] + [z]);
    FeedAllConcat(NOTHING, [x], [y] + [z]);
    var b1 := FeedAll(NOTHING, [x]);
    FeedAllConcat(b1, [y], [z]);
    FeedOne(b1, y);
    FeedOne(b1, z);
    ThreeSingletons(x, y, z);
    assert [Messages([x]), Messages([y]), Messages([z])][1..] == [Messages([y]), Messages([z])];
  }

  lemma {:induction false} RowRestores(sequence: nat, r: CallResult)
    requires r.extra == None
    ensures var e := ResultEvent(sequence, r);
            e.kind.ToolResult? && RestoredResult(e).Some?
  {
  }

  lemma {:induction false} ThreeSingletons(x: Event, y: Event, z: Event)
    requires ToolKind(x.kind) && y.kind.System? && ToolKind(z.kind)
    ensures Groups([x, y, z]) == [[x], [y], [z]]
    ensures FlattenMessages(Groups([x, y, z])) == Messages([x]) + Messages([y]) + Messages([z])
  {
    hide Messages;
    var events := [x, y, z];
    assert events[1..] == [y, z] && events[..1] == [x];
    assert [y, z][1..] == [z] && [y, z][..1] == [y];
    assert [z][1..] == [] && [z][..1] == [z];
    assert Groups([z]) == [[z]];
    assert Groups([y, z]) == [[y], [z]];
    assert Groups(events) == [[x], [y], [z]];
    assert [[x], [y], [z]][1..] == [[y], [z]] && [[y], [z]][1..] == [[z]] && [[z]][1..] == [];
    assert FlattenMessages([[z]]) == Messages([z]);
    assert FlattenMessages([[y], [z]]) == Messages([y]) + Messages([z]);
  }
}
