/** The durable timeline of one conversation: an append-only table of events numbered 1, 2, 3, ...
    and the queries the rest of the program asks of it. */
module Timeline {
  import opened Wrappers

  datatype Result<+T> = Ok(value: T) | InvalidValue

  /** A value that survives being written as JSON text and read back. */
  datatype Json =
    | Null
    | Bool(bit: bool)
    | Int(number: int)
    | Float(quantity: real)
    | Text(text: string)
    | List(items: seq<Json>)
    | Object(fields: map<string, Json>)

  type Metadata = map<string, Json>

  datatype Kind =
    | User | Assistant | Thinking | ToolCall | ToolResult | Progress | Usage | Summary
    | ContextDiagnostic | HookDiagnostic | SkillActivation | AgentResult | System

  datatype Event = Event(
    sequence: nat, kind: Kind, content: string, callId: Option<string>, metadata: Option<Metadata>)

  const CLEAR: Metadata := map["context_boundary" := Text("clear")]

  /** What a writer hands to the log; the log numbers it. */
  datatype Row = Row(kind: Kind, content: string, callId: Option<string>, metadata: Option<Metadata>)

  /** Anything appended by turns, tools and diagnostics: neither a summary nor a `/clear` mark. */
  predicate Ordinary(row: Row) {
    !row.kind.Summary? && !(row.kind.System? && row.metadata == Some(CLEAR))
  }

  /** What may reach a model again. */
  predicate Visible(kind: Kind) {
    kind.User? || kind.Assistant? || kind.ToolCall? || kind.ToolResult? || kind.AgentResult?
  }

  predicate IsClear(e: Event) {
    e.kind.System? && e.metadata == Some(CLEAR)
  }

  ghost predicate Numbered(events: seq<Event>) {
    forall i :: 0 <= i < |events| ==> events[i].sequence == i + 1
  }

  ghost predicate Increasing(events: seq<Event>) {
    forall i, j :: 0 <= i < j < |events| ==> events[i].sequence < events[j].sequence
  }

  function Sequences(events: seq<Event>): (r: seq<nat>)
    ensures |r| == |events|
    ensures forall i :: 0 <= i < |r| ==> r[i] == events[i].sequence
  {
    seq(|events|, i requires 0 <= i < |events| => events[i].sequence)
  }

  /** The rows a query's condition selects, in order of sequence. */
  function Where(events: seq<Event>, p: Event -> bool): seq<Event> {
    if events == [] then []
    else
      var front, last := events[..|events| - 1], events[|events| - 1];
      Where(front, p) + (if p(last) then [last] else [])
  }

  lemma {:induction false} WhereMembers(events: seq<Event>, p: Event -> bool)
    ensures forall e :: e in Where(events, p) <==> e in events && p(e)
  {
    if events != [] {
      var front, last := events[..|events| - 1], events[|events| - 1];
      WhereMembers(front, p);
      assert events == front + [last];
    }
  }

  lemma {:induction false} WhereConcat(a: seq<Event>, b: seq<Event>, p: Event -> bool)
    ensures Where(a + b, p) == Where(a, p) + Where(b, p)
  {
    if b == [] {
      assert a + b == a;
    } else {
      var front, last := b[..|b| - 1], b[|b| - 1];
      assert (a + b)[..|a + b| - 1] == a + front;
      WhereConcat(a, front, p);
    }
  }

  lemma {:induction false} WhereSame(events: seq<Event>, p: Event -> bool, q: Event -> bool)
    requires forall e :: e in events ==> p(e) == q(e)
    ensures Where(events, p) == Where(events, q)
  {
    if events != [] { WhereSame(events[..|events| - 1], p, q); }
  }

  lemma {:induction false} WhereNone(events: seq<Event>, p: Event -> bool)
    requires forall e :: e in events ==> !p(e)
    ensures Where(events, p) == []
  {
    if events != [] { WhereNone(events[..|events| - 1], p); }
  }

  lemma {:induction false} NumberedIncreasing(events: seq<Event>)
    requires Numbered(events)
    ensures Increasing(events)
  {
  }

  lemma {:induction false} WhereIncreasing(events: seq<Event>, p: Event -> bool)
    requires Increasing(events)
    ensures Increasing(Where(events, p))
  {
    if events != [] {
      var front, last := events[..|events| - 1], events[|events| - 1];
      WhereIncreasing(front, p);
      WhereMembers(front, p);
      forall i | 0 <= i < |Where(front, p)| ensures Where(front, p)[i].sequence < last.sequence {
        assert Where(front, p)[i] in front;
      }
    }
  }

  /** Rows in order of sequence are determined by which rows they are. */
  lemma {:induction false} OrderIsUnique(a: seq<Event>, b: seq<Event>)
    requires Increasing(a) && Increasing(b)
    requires forall e :: e in a <==> e in b
    ensures a == b
  {
    if a == [] {
      SomethingIn(b);
    } else {
      var x := a[|a| - 1];
      assert x in b;
      var y := b[|b| - 1];
      assert y in a;
      assert x == y;
      var a', b' := a[..|a| - 1], b[..|b| - 1];
      assert a == a' + [x] && b == b' + [x];
      assert x !in a' && x !in b';
      forall e ensures e in a' <==> e in b' {
        assert e in a' <==> e in a && e != x;
        assert e in b' <==> e in b && e != x;
      }
      OrderIsUnique(a', b');
    }
  }

  // ---- sorting by sequence ----

  function InsertBySequence(e: Event, sorted: seq<Event>): seq<Event> {
    if sorted == [] then [e]
    else if e.sequence <= sorted[0].sequence then [e] + sorted
    else [sorted[0]] + InsertBySequence(e, sorted[1..])
  }

  /** A stable sort on the sequence number. */
  function SortBySequence(events: seq<Event>): seq<Event> {
    if events == [] then [] else InsertBySequence(events[0], SortBySequence(events[1..]))
  }

  lemma {:induction false} InsertMembers(e: Event, sorted: seq<Event>)
    ensures forall x :: x in InsertBySequence(e, sorted) <==> x == e || x in sorted
  {
    if sorted != [] { InsertMembers(e, sorted[1..]); }
  }

  lemma {:induction false} InsertIncreasing(e: Event, sorted: seq<Event>)
    requires Increasing(sorted) && forall x :: x in sorted ==> x.sequence != e.sequence
    ensures Increasing(InsertBySequence(e, sorted))
  {
    if sorted != [] && sorted[0].sequence < e.sequence {
      var rest := InsertBySequence(e, sorted[1..]);
      InsertIncreasing(e, sorted[1..]);
      InsertMembers(e, sorted[1..]);
      forall i | 0 <= i < |rest| ensures sorted[0].sequence < rest[i].sequence {
        assert rest[i] in rest;
      }
    } else if sorted != [] {
      assert sorted[0] in sorted;
    }
  }

  ghost predicate DistinctSequences(events: seq<Event>) {
    forall i, j :: 0 <= i < j < |events| ==> events[i].sequence != events[j].sequence
  }

  lemma {:induction false} SortOrders(events: seq<Event>)
    requires DistinctSequences(events)
    ensures Increasing(SortBySequence(events))
    ensures forall x :: x in SortBySequence(events) <==> x in events
  {
    if events != [] {
      var rest := events[1..];
      SortOrders(rest);
      InsertMembers(events[0], SortBySequence(rest));
      forall x | x in SortBySequence(rest) ensures x.sequence != events[0].sequence {
        assert x in rest;
      }
      InsertIncreasing(events[0], SortBySequence(rest));
      assert events == [events[0]] + rest;
    }
  }

  // ---- boundaries and summaries ----

  /** The sequence of the last `/clear`, 0 if there was none. */
  function LatestClear(events: seq<Event>): nat {
    if events == [] then 0
    else
      var last := events[|events| - 1];
      if IsClear(last) then last.sequence else LatestClear(events[..|events| - 1])
  }

  /** The last summary since the last `/clear`. */
  function LatestSummary(events: seq<Event>): Option<Event> {
    if events == [] then None
    else
      var last := events[|events| - 1];
      if last.kind.Summary? then Some(last)
      else if IsClear(last) then None
      else LatestSummary(events[..|events| - 1])
  }

  lemma {:induction false} LatestClearIsMaximum(events: seq<Event>)
    requires Numbered(events)
    ensures forall e :: e in events && IsClear(e) ==> e.sequence <= LatestClear(events)
    ensures LatestClear(events) != 0 ==>
      LatestClear(events) <= |events| && IsClear(events[LatestClear(events) - 1])
  {
    if events != [] {
      var front, last := events[..|events| - 1], events[|events| - 1];
      LatestClearIsMaximum(front);
      assert events == front + [last];
      if IsClear(last) {
        forall e | e in events ensures e.sequence <= last.sequence {}
      }
    }
  }

  function ClearMarks(): Event -> bool {
    e => IsClear(e)
  }

  /** Reading the log backwards finds the greatest sequence the statement over the whole table finds. */
  lemma {:induction false} LatestClearIsLastMarked(events: seq<Event>)
    ensures var clears := Where(events, ClearMarks());
            LatestClear(events) == if clears == [] then 0 else clears[|clears| - 1].sequence
  {
    if events != [] { LatestClearIsLastMarked(events[..|events| - 1]); }
  }

  function SummariesAfter(boundary: nat): Event -> bool {
    (e: Event) => boundary < e.sequence && e.kind.Summary?
  }

  /** The two statements that look for the latest summary agree with reading the log backwards. */
  lemma {:induction false} LatestSummaryIsLastAfterClear(events: seq<Event>)
    requires Numbered(events)
    ensures var found := Where(events, SummariesAfter(LatestClear(events)));
            LatestSummary(events) == if found == [] then None else Some(found[|found| - 1])
  {
    if events != [] {
      var front, last := events[..|events| - 1], events[|events| - 1];
      if IsClear(last) {
        NumberedIncreasing(events);
        WhereNone(events, SummariesAfter(last.sequence));
      } else {
        LatestSummaryIsLastAfterClear(front);
        LatestClearIsMaximum(front);
      }
    }
  }

  lemma {:induction false} LatestOfSnoc(events: seq<Event>, e: Event)
    ensures LatestClear(events + [e]) == if IsClear(e) then e.sequence else LatestClear(events)
    ensures LatestSummary(events + [e])
            == if e.kind.Summary? then Some(e) else if IsClear(e) then None else LatestSummary(events)
  {
    assert (events + [e])[..|events|] == events;
  }

  predicate ValidTrigger(trigger: string) {
    trigger == "automatic" || trigger == "manual" || trigger == "emergency"
  }

  function SummaryMetadata(
    through: int, preserved: seq<int>, trigger: string, before: int, after: int, format: int): Metadata
  {
    map["through_sequence" := Int(through),
        "preserved_user_sequences" := List(seq(|preserved|, i requires 0 <= i < |preserved| => Int(preserved[i]))),
        "trigger" := Text(trigger),
        "estimated_before" := Int(before),
        "estimated_after" := Int(after),
        "format_version" := Int(format)]
  }

  /** One conversation's rows. */
  class ConversationLog {
    var events: seq<Event>

    ghost predicate Valid()
      reads this
    {
      Numbered(events)
    }

    constructor ()
      ensures Valid() && events == []
    {
      events := [];
    }

    method AppendEvent(kind: Kind, content: string, callId: Option<string>, metadata: Option<Metadata>)
        returns (e: Event)
      requires Valid()
      modifies this
      ensures Valid() && e == Event(|old(events)| + 1, kind, content, callId, metadata)
      ensures events == old(events) + [e]
    {
      var sequence := if events == [] then 1 else events[|events| - 1].sequence + 1;
      e := Event(sequence, kind, content, callId, metadata);
      events := events + [e];
    }

    /** Rows after one sequence and, if asked, up to another. */
    method LoadEvents(after: int, through: Option<int>) returns (r: Result<seq<Event>>)
      requires Valid()
      ensures r.InvalidValue? <==> after < 0 || (through.Some? && through.value < after)
      ensures r.Ok? ==>
        && Increasing(r.value)
        && forall e :: e in r.value <==>
             e in events && after < e.sequence && (through.None? || e.sequence <= through.value)
    {
      if after < 0 || (through.Some? && through.value < after) {
        return InvalidValue;
      }
      var p := (e: Event) => after < e.sequence && (through.None? || e.sequence <= through.value);
      WhereMembers(events, p);
      WhereIncreasing(events, p);
      return Ok(Where(events, p));
    }

    /** The named rows in order, however the names are ordered or repeated. */
    method LoadEventsBySequences(sequences: seq<int>) returns (r: Result<seq<Event>>)
      requires Valid()
      ensures r.InvalidValue? <==> exists n :: n in sequences && n < 1
      ensures r.Ok? ==>
        && Increasing(r.value)
        && forall e :: e in r.value <==> e in events && e.sequence in sequences
    {
      var i := 0;
      while i < |sequences|
        invariant i <= |sequences| && forall n :: n in sequences[..i] ==> 1 <= n
      {
        if sequences[i] < 1 {
          assert sequences[i] in sequences;
          return InvalidValue;
        }
        assert sequences[..i + 1] == sequences[..i] + [sequences[i]];
        i := i + 1;
      }
      assert sequences[..i] == sequences;
      var p := (e: Event) => e.sequence in sequences;
      WhereMembers(events, p);
      WhereIncreasing(events, p);
      return Ok(Where(events, p));
    }

    method LatestClearSequence() returns (boundary: nat)
      requires Valid()
      ensures boundary == LatestClear(events)
      ensures forall e :: e in events && IsClear(e) ==> e.sequence <= boundary
    {
      LatestClearIsLastMarked(events);
      LatestClearIsMaximum(events);
      var clears := Where(events, ClearMarks());
      boundary := if clears == [] then 0 else clears[|clears| - 1].sequence;
    }

    method AppendClearBoundary() returns (e: Event)
      requires Valid()
      modifies this
      ensures Valid() && events == old(events) + [e]
      ensures e == Event(|events|, System, "", None, Some(CLEAR))
      ensures LatestClear(events) == |events| && LatestSummary(events) == None
    {
      e := AppendEvent(System, "", None, Some(CLEAR));
      LatestOfSnoc(old(events), e);
    }

    method LoadLatestContextSummary() returns (summary: Option<Event>)
      requires Valid()
      ensures summary == LatestSummary(events)
    {
      LatestSummaryIsLastAfterClear(events);
      var boundary := LatestClearSequence();
      var found := Where(events, SummariesAfter(boundary));
      summary := if found == [] then None else Some(found[|found| - 1]);
    }

    method AppendContextSummary(
        content: string, through: int, preserved: seq<int>, trigger: string,
        before: int, after: int, format: int) returns (r: Result<Event>)
      requires Valid()
      modifies this
      ensures Valid()
      ensures r.InvalidValue? <==>
        through < 0 || (exists n :: n in preserved && (n < 0 || through < n)) || !ValidTrigger(trigger)
        || before < 0 || after < 0 || format <= 0
      ensures r.InvalidValue? ==> events == old(events)
      ensures r.Ok? ==>
        && r.value == Event(|old(events)| + 1, Summary, content, None,
                            Some(SummaryMetadata(through, preserved, trigger, before, after, format)))
        && events == old(events) + [r.value]
        && var m := r.value.metadata.value;
           && m.Keys == {"through_sequence", "preserved_user_sequences", "trigger", "estimated_before", "estimated_after",
                         "format_version"}
           && m["through_sequence"] == Int(through) && m["trigger"] == Text(trigger) && m["estimated_before"] == Int(before)
           && m["estimated_after"] == Int(after) && m["format_version"] == Int(format)
           && m["preserved_user_sequences"].List? && |m["preserved_user_sequences"].items| == |preserved|
           && forall i :: 0 <= i < |preserved| ==> m["preserved_user_sequences"].items[i] == Int(preserved[i])
    {
      if through < 0 || (exists n :: n in preserved && (n < 0 || through < n)) || !ValidTrigger(trigger)
         || before < 0 || after < 0 || format <= 0 {
        return InvalidValue;
      }
      var e := AppendEvent(Summary, content, None,
                           Some(SummaryMetadata(through, preserved, trigger, before, after, format)));
      return Ok(e);
    }
  }
}
