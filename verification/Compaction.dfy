/** Rolling summaries over the timeline: what the next request is rebuilt from, whatever the order of
    turns, compactions and `/clear`. */
module Compaction {
  import opened Wrappers
  import opened Timeline
  import opened Projection
  import opened Selection

  // ---- rebuilding the active history ----

  /** What the metadata of a summary says it covers. */
  datatype Coverage = Coverage(through: int, preserved: seq<int>)

  /** Python's `bool` is an `int`. */
  function WholeNumber(value: Json): Option<int> {
    match value
    case Int(n) => Some(n)
    case Bool(b) => Some(if b then 1 else 0)
    case _ => None
  }

  /** The listed sequences between the boundary and the covered end. */
  function Listed(items: seq<Json>, boundary: int, through: int): seq<int> {
    if items == [] then []
    else
      var front, last := items[..|items| - 1], items[|items| - 1];
      Listed(front, boundary, through)
      + if last.Int? && boundary < last.number <= through then [last.number] else []
  }

  function CoverageOf(summary: Option<Event>, boundary: nat): Option<Coverage> {
    if summary.None? then None
    else
      var m := if summary.value.metadata.Some? then summary.value.metadata.value else map[];
      var through, preserved := WholeNumber(Field(m, "through_sequence")), Field(m, "preserved_user_sequences");
      if through.Some? && preserved.List?
      then Some(Coverage(through.value, Listed(preserved.items, boundary, through.value)))
      else None
  }

  function ActiveRows(boundary: nat, coverage: Option<Coverage>): Event -> bool {
    (e: Event) =>
      Visible(e.kind) && boundary < e.sequence
      && (coverage.None? || coverage.value.through < e.sequence || e.sequence in coverage.value.preserved)
  }

  function CurrentCoverage(log: seq<Event>): Option<Coverage> {
    CoverageOf(LatestSummary(log), LatestClear(log))
  }

  /** The model-visible events a request is rebuilt from. */
  function Active(log: seq<Event>): seq<Event> {
    Where(log, ActiveRows(LatestClear(log), CurrentCoverage(log)))
  }

  lemma {:induction false} ListedBounds(items: seq<Json>, boundary: int, through: int)
    ensures forall n :: n in Listed(items, boundary, through) ==> boundary < n <= through
  {
    if items != [] { ListedBounds(items[..|items| - 1], boundary, through); }
  }

  method ListSequences(items: seq<Json>, boundary: int, through: int) returns (listed: seq<int>)
    ensures listed == Listed(items, boundary, through)
  {
    listed := [];
    var i := 0;
    while i < |items|
      invariant i <= |items| && listed == Listed(items[..i], boundary, through)
    {
      assert items[..i + 1][..i] == items[..i];
      if items[i].Int? && boundary < items[i].number <= through {
        listed := listed + [items[i].number];
      }
      i := i + 1;
    }
    assert items[..i] == items;
  }

  /** The summary's metadata drives two loads, whose union is filtered and sorted; without usable
      metadata everything after the boundary is loaded. */
  method ActiveEvents(log: ConversationLog) returns (events: seq<Event>)
    requires log.Valid()
    ensures events == Active(log.events)
  {
    NumberedIncreasing(log.events);
    var boundary := log.LatestClearSequence();
    var summary := log.LoadLatestContextSummary();
    var visible := (e: Event) => Visible(e.kind);
    ghost var rows := ActiveRows(LatestClear(log.events), CurrentCoverage(log.events));
    WhereMembers(log.events, rows);
    WhereIncreasing(log.events, rows);
    if summary.Some? {
      var m := if summary.value.metadata.Some? then summary.value.metadata.value else map[];
      var through, preserved := WholeNumber(Field(m, "through_sequence")), Field(m, "preserved_user_sequences");
      if through.Some? && preserved.List? {
        var listed := ListSequences(preserved.items, boundary, through.value);
        ListedBounds(preserved.items, boundary, through.value);
        var older := log.LoadEventsBySequences(listed);
        var later := log.LoadEvents(if boundary < through.value then through.value else boundary, None);
        events := Merge(older.value, later.value);
        ghost var got := events;
        assert forall e :: e in got <==> e in Active(log.events);
        OrderIsUnique(got, Active(log.events));
        return;
      }
    }
    var later := log.LoadEvents(boundary, None);
    events := Where(later.value, visible);
    WhereMembers(later.value, visible);
    WhereIncreasing(later.value, visible);
    OrderIsUnique(events, Active(log.events));
  }

  method Merge(older: seq<Event>, later: seq<Event>) returns (events: seq<Event>)
    requires Increasing(older) && Increasing(later)
    requires forall x, y :: x in older && y in later ==> x.sequence < y.sequence
    ensures Increasing(events)
    ensures forall e :: e in events <==> Visible(e.kind) && (e in older || e in later)
  {
    var visible := (e: Event) => Visible(e.kind);
    var both := older + later;
    forall i, j | 0 <= i < j < |both| ensures both[i].sequence < both[j].sequence {
      if i < |older| <= j {
        assert both[i] in older && both[j] in later;
      }
    }
    WhereMembers(both, visible);
    WhereIncreasing(both, visible);
    SortOrders(Where(both, visible));
    events := SortBySequence(Where(both, visible));
  }

  // ---- one compaction ----

  /** Estimators and limits, fixed for a session. */
  datatype Setup = Setup(policy: Policy, weigh: Weigh, cost: seq<Event> -> nat)

  /** Tool results that were moved out are shown by their previews; everything else stays. */
  function WithPreviews(events: seq<Event>, previews: map<nat, string>): (r: seq<Event>)
    ensures |r| == |events|
    ensures forall i :: 0 <= i < |r| ==> r[i].sequence == events[i].sequence && r[i].kind == events[i].kind
  {
    seq(|events|, i requires 0 <= i < |events| =>
      if events[i].sequence in previews then events[i].(content := previews[events[i].sequence]) else events[i])
  }

  function Measured(groups: seq<seq<Event>>, cost: seq<Event> -> nat): seq<Group> {
    if groups == [] then [] else [Group(groups[0], cost(groups[0]))] + Measured(groups[1..], cost)
  }

  /** Every group is measured as a whole. */
  lemma {:induction false} MeasuredIs(groups: seq<seq<Event>>, cost: seq<Event> -> nat)
    ensures |Measured(groups, cost)| == |groups|
    ensures forall i :: 0 <= i < |groups| ==> Measured(groups, cost)[i] == Group(groups[i], cost(groups[i]))
  {
    if groups != [] { MeasuredIs(groups[1..], cost); }
  }

  function Choose(prepared: seq<Event>, budget: int, setup: Setup): Selection {
    Select(Measured(Groups(prepared), setup.cost), setup.policy, setup.weigh, budget)
  }

  function Retained(s: Selection): seq<Event> {
    SortBySequence(s.preserved + EventsOf(s.recent))
  }

  function PreviousThrough(log: seq<Event>): int {
    var summary := LatestSummary(log);
    if summary.None? || summary.value.metadata.None? then 0
    else
      var through := WholeNumber(Field(summary.value.metadata.value, "through_sequence"));
      if through.Some? then through.value else 0
  }

  function NewThrough(log: seq<Event>, s: Selection): int {
    if PreviousThrough(log) < Through(s) then Through(s) else PreviousThrough(log)
  }

  function UsersUpTo(through: int): Event -> bool {
    (e: Event) => e.kind.User? && e.sequence <= through
  }

  function PreservedSequences(retained: seq<Event>, through: int): seq<nat> {
    Sequences(Where(retained, UsersUpTo(through)))
  }

  // ---- runs ----

  /** What one compaction meets: its budget, the previews of light preparation, events appended while
      the summary is generated, and whether a summary within the hard limit comes back. */
  datatype Attempt = Attempt(
    budget: int, previews: map<nat, string>, during: seq<Row>, generated: bool, summary: string,
    trigger: string, before: nat, after: nat)

  datatype Action =
    | Append(row: Row)
    | Clear
    | Compact(attempt: Attempt)

  /** `expected`: sequences of the events the last compaction kept in memory and of every visible one
      since. `covers`: sequences that the latest summary, or a summary it was made from, was given. */
  datatype State = State(log: seq<Event>, expected: seq<nat>, covers: set<nat>)

  const START := State([], [], {})

  function Add(log: seq<Event>, row: Row): seq<Event> {
    log + [Event(|log| + 1, row.kind, row.content, row.callId, row.metadata)]
  }

  function AppendRow(s: State, row: Row): State {
    if Ordinary(row) then
      State(Add(s.log, row), if Visible(row.kind) then s.expected + [|s.log| + 1] else s.expected, s.covers)
    else s
  }

  function AppendRows(s: State, rows: seq<Row>): State {
    if rows == [] then s else AppendRow(AppendRows(s, rows[..|rows| - 1]), rows[|rows| - 1])
  }

  function SummaryRow(log: seq<Event>, s: Selection, a: Attempt): Row {
    var through := NewThrough(log, s);
    Row(Summary, a.summary, None,
        Some(SummaryMetadata(through, PreservedSequences(Retained(s), through), a.trigger, a.before, a.after, 1)))
  }

  function GivenTo(s: Selection): set<nat> {
    set e | e in EventsOf(s.summary) :: e.sequence
  }

  function Prepared(log: seq<Event>, a: Attempt): seq<Event> {
    WithPreviews(Active(log), a.previews)
  }

  function CompactStep(s: State, a: Attempt, setup: Setup): State {
    var selection := Choose(Prepared(s.log, a), a.budget, setup);
    if selection.summary == [] then s
    else if !a.generated then AppendRows(s, a.during)
    else
      var kept := State(s.log, Sequences(Retained(selection)),
                        GivenTo(selection) + if LatestSummary(s.log).Some? then s.covers else {});
      var after := AppendRows(kept, a.during);
      after.(log := Add(after.log, SummaryRow(s.log, selection, a)))
  }

  function Step(s: State, a: Action, setup: Setup): State {
    match a
    case Append(row) => AppendRow(s, row)
    case Clear => State(Add(s.log, Row(System, "", None, Some(CLEAR))), [], {})
    case Compact(attempt) => CompactStep(s, attempt, setup)
  }

  function Run(actions: seq<Action>, setup: Setup): State {
    if actions == [] then START
    else Step(Run(actions[..|actions| - 1], setup), actions[|actions| - 1], setup)
  }

  // ---- invariant ----

  /** The latest summary's metadata is usable, and what it preserves are user events since the boundary. */
  ghost predicate CoverageInv(log: seq<Event>) {
    LatestSummary(log).Some? ==>
      && CurrentCoverage(log).Some?
      && PreviousThrough(log) == CurrentCoverage(log).value.through
      && 0 <= PreviousThrough(log) < |log|
      && (forall n :: n in CurrentCoverage(log).value.preserved ==> 1 <= n <= |log| && log[n - 1].kind.User?)
  }

  ghost predicate Accounted(s: State) {
    forall e :: e in s.log && Visible(e.kind) && LatestClear(s.log) < e.sequence ==>
      e.sequence in s.expected || e.sequence in s.covers
  }

  ghost predicate Inv(s: State) {
    && Numbered(s.log)
    && CoverageInv(s.log)
    && Sequences(Active(s.log)) == s.expected
    && Accounted(s)
    && (LatestSummary(s.log).None? ==> s.covers == {})
  }

  // ---- ordinary events ----

  lemma {:induction false} ActiveSnoc(log: seq<Event>, e: Event)
    requires Numbered(log) && CoverageInv(log)
    requires !e.kind.Summary? && !IsClear(e) && e.sequence == |log| + 1
    ensures CurrentCoverage(log + [e]) == CurrentCoverage(log)
    ensures Active(log + [e]) == Active(log) + if Visible(e.kind) then [e] else []
  {
    LatestOfSnoc(log, e);
    LatestClearIsMaximum(log);
    assert (log + [e])[..|log|] == log;
  }

  lemma {:induction false} SequencesSnoc(events: seq<Event>, e: Event)
    ensures Sequences(events + [e]) == Sequences(events) + [e.sequence]
  {
  }

  lemma {:induction false} CoverageSnoc(log: seq<Event>, e: Event)
    requires Numbered(log) && CoverageInv(log)
    requires !e.kind.Summary? && !IsClear(e) && e.sequence == |log| + 1
    ensures Numbered(log + [e]) && CoverageInv(log + [e])
  {
    LatestOfSnoc(log, e);
    ActiveSnoc(log, e);
    hide CurrentCoverage, LatestClear, LatestSummary, CoverageOf, Active;
  }

  lemma {:induction false} AccountedSnoc(s: State, e: Event, r: State)
    requires Numbered(s.log) && Accounted(s) && !e.kind.Summary? && !IsClear(e) && e.sequence == |s.log| + 1
    requires r == State(s.log + [e], if Visible(e.kind) then s.expected + [|s.log| + 1] else s.expected, s.covers)
    ensures Accounted(r)
  {
    LatestOfSnoc(s.log, e);
    hide LatestClear, LatestSummary;
    forall x | x in r.log && Visible(x.kind) && LatestClear(r.log) < x.sequence
      ensures x.sequence in r.expected || x.sequence in r.covers
    {
      if x in s.log {
      } else {
        assert x == e;
        assert r.expected[|s.expected|] == e.sequence;
      }
    }
  }

  lemma {:induction false} RowKeepsInv(s: State, row: Row)
    requires Inv(s)
    ensures Inv(AppendRow(s, row))
    ensures var r := AppendRow(s, row);
            LatestClear(r.log) == LatestClear(s.log) && LatestSummary(r.log) == LatestSummary(s.log)
  {
    if Ordinary(row) {
      var e := Event(|s.log| + 1, row.kind, row.content, row.callId, row.metadata);
      LatestOfSnoc(s.log, e);
      ActiveSnoc(s.log, e);
      CoverageSnoc(s.log, e);
      AccountedSnoc(s, e, AppendRow(s, row));
      SequencesSnoc(Active(s.log), e);
      hide Active, CurrentCoverage, LatestClear, LatestSummary, Accounted, CoverageInv, Numbered, Sequences;
      assert Active(s.log) + [] == Active(s.log);
    }
  }

  lemma {:induction false} RowsKeepInv(s: State, rows: seq<Row>)
    requires Inv(s)
    ensures Inv(AppendRows(s, rows))
    ensures var r := AppendRows(s, rows);
            LatestClear(r.log) == LatestClear(s.log) && LatestSummary(r.log) == LatestSummary(s.log)
  {
    hide Inv, AppendRow;
    if rows != [] {
      RowsKeepInv(s, rows[..|rows| - 1]);
      RowKeepsInv(AppendRows(s, rows[..|rows| - 1]), rows[|rows| - 1]);
    }
  }

  /** After `/clear` nothing is active and nothing has been summarised. */
  lemma {:induction false} ClearKeepsInv(s: State, setup: Setup)
    requires Inv(s)
    ensures Inv(Step(s, Clear, setup))
    ensures Active(Step(s, Clear, setup).log) == []
  {
    var e := Event(|s.log| + 1, System, "", None, Some(CLEAR));
    LatestOfSnoc(s.log, e);
    var log := s.log + [e];
    forall x | x in log ensures !ActiveRows(LatestClear(log), CurrentCoverage(log))(x) {}
    WhereNone(log, ActiveRows(LatestClear(log), CurrentCoverage(log)));
  }

  // ---- a compaction ----

  ghost predicate Ascending(s: seq<nat>) {
    forall i, j :: 0 <= i < j < |s| ==> s[i] < s[j]
  }

  lemma {:induction false} AscendingIsUnique(a: seq<nat>, b: seq<nat>)
    requires Ascending(a) && Ascending(b) && forall n :: n in a <==> n in b
    ensures a == b
  {
    if a == [] {
      SomethingIn(b);
    } else {
      var x := a[|a| - 1];
      assert x in b;
      var y := b[|b| - 1];
      assert y in a;
      assert x == y;
      var a', b' := a[..|a| - 1], b[..|b| - 1];
      assert a == a' + [x] && b == b' + [x];
      assert x !in a' && x !in b';
      forall n ensures n in a' <==> n in b' {
        assert n in a' <==> n in a && n != x;
        assert n in b' <==> n in b && n != x;
      }
      AscendingIsUnique(a', b');
    }
  }

  lemma {:induction false} MeasuredEvents(groups: seq<seq<Event>>, cost: seq<Event> -> nat)
    ensures EventsOf(Measured(groups, cost)) == Flatten(groups)
    ensures |Measured(groups, cost)| == |groups|
    ensures forall i :: 0 <= i < |groups| ==> Measured(groups, cost)[i].events == groups[i]
  {
    if groups != [] { MeasuredEvents(groups[1..], cost); }
  }

  lemma {:induction false} MeasuredGroups(prepared: seq<Event>, cost: seq<Event> -> nat)
    ensures EventsOf(Measured(Groups(prepared), cost)) == prepared
    ensures forall g :: g in Measured(Groups(prepared), cost) ==> g.events != []
  {
    var groups := Measured(Groups(prepared), cost);
    MeasuredEvents(Groups(prepared), cost);
    GroupsConcatenate(prepared);
    hide Groups, Measured;
    forall i | 0 <= i < |groups| ensures groups[i].events != [] {
      assert groups[i].events in Groups(prepared);
    }
  }

  /** The events a selection summarises and the recent ones it keeps are the prepared events, cut in two. */
  lemma {:induction false} ChoiceCutsEvents(prepared: seq<Event>, budget: int, setup: Setup)
    requires Increasing(prepared)
    ensures var s := Choose(prepared, budget, setup);
            && EventsOf(s.summary) + EventsOf(s.recent) == prepared
            && (s.summary != [] ==> EventsOf(s.summary) != [] && LastOf(EventsOf(s.summary)).sequence == Through(s))
            && Increasing(s.preserved)
            && (forall e :: e in s.preserved ==> e.kind.User? && e in EventsOf(s.summary))
  {
    var groups := Measured(Groups(prepared), setup.cost);
    MeasuredGroups(prepared, setup.cost);
    hide Groups, Measured, Select, EventsOf;
    SelectionFits(groups, setup.policy, setup.weigh, budget);
    PreservedAreSummarisedUsers(groups, setup.policy, setup.weigh, budget);
    var s := Choose(prepared, budget, setup);
    EventsOfConcat(s.summary, s.recent);
    if s.summary != [] {
      assert forall g :: g in s.summary ==> g in groups;
      LastGroupEnds(s.summary);
      assert s.summary[|s.summary| - 1] in s.summary;
    }
  }

  function LastOf(events: seq<Event>): Event
    requires events != []
  {
    events[|events| - 1]
  }

  lemma {:induction false} LastGroupEnds(groups: seq<Group>)
    requires groups != [] && forall g :: g in groups ==> g.events != []
    ensures EventsOf(groups) != []
    ensures LastOf(EventsOf(groups)) == LastOf(groups[|groups| - 1].events)
  {
    var front, last := groups[..|groups| - 1], groups[|groups| - 1];
    assert groups == front + [last];
    EventsOfConcat(front, [last]);
    assert [last][1..] == [];
    assert EventsOf([last]) == last.events;
  }

  lemma {:induction false} SplitInOrder(x: seq<Event>, y: seq<Event>)
    requires Increasing(x + y)
    ensures Increasing(y) && forall a, b :: a in x && b in y ==> a.sequence < b.sequence
  {
    var both := x + y;
    forall a, b | a in x && b in y ensures a.sequence < b.sequence {
      var i :| 0 <= i < |x| && x[i] == a;
      var j :| 0 <= j < |y| && y[j] == b;
      assert both[i] == a && both[|x| + j] == b;
    }
    forall i, j | 0 <= i < j < |y| ensures y[i].sequence < y[j].sequence {
      assert both[|x| + i] == y[i] && both[|x| + j] == y[j];
    }
  }

  lemma {:induction false} JoinInOrder(x: seq<Event>, y: seq<Event>)
    requires Increasing(x) && Increasing(y)
    requires forall a, b :: a in x && b in y ==> a.sequence < b.sequence
    ensures Increasing(x + y)
  {
    var both := x + y;
    forall i, j | 0 <= i < j < |both| ensures both[i].sequence < both[j].sequence {
      if i < |x| <= j {
        assert both[i] in x && both[j] in y;
      }
    }
  }

  /** Keeping preserved and recent events needs no reordering: preserved ones are all older. */
  lemma {:induction false} RetainedIsInOrder(prepared: seq<Event>, budget: int, setup: Setup)
    requires Increasing(prepared)
    ensures var s := Choose(prepared, budget, setup);
            Increasing(s.preserved + EventsOf(s.recent)) && Retained(s) == s.preserved + EventsOf(s.recent)
  {
    ChoiceCutsEvents(prepared, budget, setup);
    var s := Choose(prepared, budget, setup);
    hide Choose, EventsOf, SortBySequence;
    SplitInOrder(EventsOf(s.summary), EventsOf(s.recent));
    JoinInOrder(s.preserved, EventsOf(s.recent));
    var both := s.preserved + EventsOf(s.recent);
    SortOrders(both);
    OrderIsUnique(SortBySequence(both), both);
  }

  lemma {:induction false} SequenceIn(events: seq<Event>, n: nat)
    ensures n in Sequences(events) <==> exists e :: e in events && e.sequence == n
  {
    if n in Sequences(events) {
      var i :| 0 <= i < |Sequences(events)| && Sequences(events)[i] == n;
      assert events[i] in events;
    }
    if e :| e in events && e.sequence == n {
      var i :| 0 <= i < |events| && events[i] == e;
      assert Sequences(events)[i] == n;
    }
  }

  lemma {:induction false} AscendingSequences(events: seq<Event>)
    requires Increasing(events)
    ensures Ascending(Sequences(events))
  {
  }

  /** Every retained event is an active one, perhaps with a preview for content; and whatever is not a
      user event comes after all that is summarised. */
  lemma {:induction false} RetainedAreActive(log: seq<Event>, a: Attempt, setup: Setup, r: Event)
    requires Numbered(log)
    requires Choose(Prepared(log, a), a.budget, setup).summary != []
    requires r in Retained(Choose(Prepared(log, a), a.budget, setup))
    ensures exists e :: e in Active(log) && e.sequence == r.sequence && e.kind == r.kind
    ensures r.kind.User? || Through(Choose(Prepared(log, a), a.budget, setup)) < r.sequence
  {
    hide *;
    var active, prepared := Active(log), Prepared(log, a);
    var s := Choose(prepared, a.budget, setup);
    var x, y := EventsOf(s.summary), EventsOf(s.recent);
    PreparedIsCut(log, a, setup);
    PreparedIsShown(log, a);
    ChoiceCutsEvents(prepared, a.budget, setup);
    SplitInOrder(x, y);
    LastIsIn(x);
    assert r in s.preserved || r in y;
    assert r in x || r in y;
    assert r in x + y;
    var i :| 0 <= i < |prepared| && prepared[i] == r;
    assert active[i] in active;
  }

  lemma PreparedIsShown(log: seq<Event>, a: Attempt)
    ensures |Prepared(log, a)| == |Active(log)|
    ensures forall i :: 0 <= i < |Active(log)| ==>
      Prepared(log, a)[i].sequence == Active(log)[i].sequence && Prepared(log, a)[i].kind == Active(log)[i].kind
  {
    hide Active;
  }

  lemma LastIsIn(events: seq<Event>)
    requires events != []
    ensures LastOf(events) in events
  {
  }

  /** The prepared events, one for one the active ones, are what is summarised followed by what is recent. */
  lemma {:induction false} PreparedIsCut(log: seq<Event>, a: Attempt, setup: Setup)
    requires Numbered(log) && Choose(Prepared(log, a), a.budget, setup).summary != []
    ensures var s, prepared := Choose(Prepared(log, a), a.budget, setup), Prepared(log, a);
            && |prepared| == |Active(log)|
            && (forall i :: 0 <= i < |prepared| ==> prepared[i].sequence == Active(log)[i].sequence)
            && prepared == EventsOf(s.summary) + EventsOf(s.recent) && Increasing(prepared)
            && EventsOf(s.summary) != [] && LastOf(EventsOf(s.summary)).sequence == Through(s)
            && Retained(s) == s.preserved + EventsOf(s.recent)
  {
    NumberedIncreasing(log);
    WhereIncreasing(log, ActiveRows(LatestClear(log), CurrentCoverage(log)));
    hide Choose, EventsOf, Retained, Through;
    ChoiceCutsEvents(Prepared(log, a), a.budget, setup);
    RetainedIsInOrder(Prepared(log, a), a.budget, setup);
  }

  /** An active event is summarised if it is not later than the last summarised one, else retained. */
  lemma {:induction false} ActiveIsSummarisedOrRetained(log: seq<Event>, a: Attempt, setup: Setup, e: Event)
    requires Numbered(log) && e in Active(log)
    requires Choose(Prepared(log, a), a.budget, setup).summary != []
    ensures var s := Choose(Prepared(log, a), a.budget, setup);
            if e.sequence <= Through(s) then e.sequence in GivenTo(s) else e.sequence in Sequences(Retained(s))
  {
    hide Choose, EventsOf, Retained, Active, Increasing, Sequences, Prepared, Numbered, Through;
    PreparedIsCut(log, a, setup);
    var s, prepared := Choose(Prepared(log, a), a.budget, setup), Prepared(log, a);
    var x, y := EventsOf(s.summary), EventsOf(s.recent);
    var i :| 0 <= i < |Active(log)| && Active(log)[i] == e;
    var r := prepared[i];
    assert r in x + y;
    CutAt(x, y, r);
    SequenceIn(Retained(s), r.sequence);
    if r in y {
      assert r in s.preserved + y;
    }
  }

  lemma {:induction false} CutAt(x: seq<Event>, y: seq<Event>, r: Event)
    requires Increasing(x + y) && x != [] && r in x + y
    ensures if r.sequence <= LastOf(x).sequence then r in x else r in y
  {
    SplitInOrder(x, y);
    assert LastOf(x) in x;
    if r in x {
      var i :| 0 <= i < |x| && x[i] == r;
      assert (x + y)[i] == r && (x + y)[|x| - 1] == LastOf(x);
    }
  }

  function NewCoverage(log: seq<Event>, s: Selection): Coverage {
    Coverage(NewThrough(log, s), PreservedSequences(Retained(s), NewThrough(log, s)))
  }

  lemma {:induction false} PreservedSequenceIn(retained: seq<Event>, through: int, n: nat)
    ensures n in PreservedSequences(retained, through)
            <==> exists e :: e in retained && e.sequence == n && e.kind.User? && n <= through
  {
    WhereMembers(retained, UsersUpTo(through));
    SequenceIn(Where(retained, UsersUpTo(through)), n);
  }

  /** An event of the log survives the new coverage exactly if its sequence is a retained one. */
  lemma {:induction false} SurvivesIffRetained(log: seq<Event>, a: Attempt, setup: Setup, n: nat)
    requires Numbered(log) && CoverageInv(log)
    requires Choose(Prepared(log, a), a.budget, setup).summary != []
    ensures var s := Choose(Prepared(log, a), a.budget, setup);
            n in Sequences(Where(log, ActiveRows(LatestClear(log), Some(NewCoverage(log, s)))))
            <==> n in Sequences(Retained(s))
  {
    var s := Choose(Prepared(log, a), a.budget, setup);
    var rows := ActiveRows(LatestClear(log), Some(NewCoverage(log, s)));
    WhereMembers(log, rows);
    WhereMembers(log, ActiveRows(LatestClear(log), CurrentCoverage(log)));
    SequenceIn(Where(log, rows), n);
    SequenceIn(Retained(s), n);
    PreservedSequenceIn(Retained(s), NewThrough(log, s), n);
    if e :| e in log && rows(e) && e.sequence == n {
      Survivor(log, a, setup, e);
    }
    if r :| r in Retained(s) && r.sequence == n {
      RetainedSurvives(log, a, setup, r);
    }
  }

  lemma {:induction false} Survivor(log: seq<Event>, a: Attempt, setup: Setup, e: Event)
    requires Numbered(log) && CoverageInv(log) && e in log
    requires Choose(Prepared(log, a), a.budget, setup).summary != []
    requires ActiveRows(LatestClear(log), Some(NewCoverage(log, Choose(Prepared(log, a), a.budget, setup))))(e)
    ensures e.sequence in Sequences(Retained(Choose(Prepared(log, a), a.budget, setup)))
  {
    var s := Choose(Prepared(log, a), a.budget, setup);
    var through := NewThrough(log, s);
    PreservedSequenceIn(Retained(s), through, e.sequence);
    SequenceIn(Retained(s), e.sequence);
    if through < e.sequence {
      WhereMembers(log, ActiveRows(LatestClear(log), CurrentCoverage(log)));
      assert e in Active(log) by { hide Choose, Retained, Through, CurrentCoverage, LatestClear, LatestSummary; }
      ActiveIsSummarisedOrRetained(log, a, setup, e);
    }
  }

  lemma {:induction false} RetainedSurvives(log: seq<Event>, a: Attempt, setup: Setup, r: Event)
    requires Numbered(log) && CoverageInv(log)
    requires Choose(Prepared(log, a), a.budget, setup).summary != []
    requires r in Retained(Choose(Prepared(log, a), a.budget, setup))
    ensures var rows := ActiveRows(LatestClear(log), Some(NewCoverage(log, Choose(Prepared(log, a), a.budget, setup))));
            exists e :: e in log && rows(e) && e.sequence == r.sequence
  {
    var s := Choose(Prepared(log, a), a.budget, setup);
    var through := NewThrough(log, s);
    var rows := ActiveRows(LatestClear(log), Some(NewCoverage(log, s)));
    RetainedAreActive(log, a, setup, r);
    var e :| e in Active(log) && e.sequence == r.sequence && e.kind == r.kind;
    WhereMembers(log, ActiveRows(LatestClear(log), CurrentCoverage(log)));
    PreservedSequenceIn(Retained(s), through, r.sequence);
    hide Choose, Retained, Through, LatestClear, LatestSummary, PreservedSequences, PreviousThrough;
    if r.sequence <= through {
      OldActiveIsUser(log, e);
      assert r.kind.User?;
    }
    assert e in log && rows(e);
  }

  /** Of the events the previous summary covers, only user events are still active. */
  lemma {:induction false} OldActiveIsUser(log: seq<Event>, e: Event)
    requires Numbered(log) && CoverageInv(log) && e in Active(log)
    ensures PreviousThrough(log) < e.sequence || e.kind.User?
  {
    WhereMembers(log, ActiveRows(LatestClear(log), CurrentCoverage(log)));
    hide LatestClear, CoverageOf;
    if LatestSummary(log).Some? && e.sequence <= PreviousThrough(log) {
      assert e.sequence in CurrentCoverage(log).value.preserved;
      assert log[e.sequence - 1] == e;
    } else if LatestSummary(log).None? {
      assert PreviousThrough(log) == 0;
    }
  }

  /** Compaction replay: the rows the new metadata selects from the old log are the retained events. */
  lemma {:induction false} KeptRowsReplay(log: seq<Event>, a: Attempt, setup: Setup)
    requires Numbered(log) && CoverageInv(log)
    requires Choose(Prepared(log, a), a.budget, setup).summary != []
    ensures var s := Choose(Prepared(log, a), a.budget, setup);
            Sequences(Where(log, ActiveRows(LatestClear(log), Some(NewCoverage(log, s))))) == Sequences(Retained(s))
  {
    var s := Choose(Prepared(log, a), a.budget, setup);
    var rows := ActiveRows(LatestClear(log), Some(NewCoverage(log, s)));
    NumberedIncreasing(log);
    WhereIncreasing(log, rows);
    AscendingSequences(Where(log, rows));
    WhereIncreasing(log, ActiveRows(LatestClear(log), CurrentCoverage(log)));
    RetainedIsInOrder(Prepared(log, a), a.budget, setup);
    AscendingSequences(Retained(s));
    forall n ensures n in Sequences(Where(log, rows)) <==> n in Sequences(Retained(s)) {
      SurvivesIffRetained(log, a, setup, n);
    }
    hide Choose, Where, Retained, Ascending, Sequences;
    AscendingIsUnique(Sequences(Where(log, rows)), Sequences(Retained(s)));
  }

  // ---- events appended while a summary is generated ----

  function Tail(n: nat, rows: seq<Row>): seq<Event> {
    if rows == [] then []
    else
      var t, row := Tail(n, rows[..|rows| - 1]), rows[|rows| - 1];
      if Ordinary(row) then t + [Event(n + |t| + 1, row.kind, row.content, row.callId, row.metadata)] else t
  }

  function VisibleRows(): Event -> bool {
    (e: Event) => Visible(e.kind)
  }

  lemma {:induction false} ShownSequencesSnoc(t: seq<Event>, e: Event)
    ensures Sequences(Where(t + [e], VisibleRows()))
         == Sequences(Where(t, VisibleRows())) + if Visible(e.kind) then [e.sequence] else []
  {
    assert (t + [e])[..|t|] == t;
    if Visible(e.kind) {
      SequencesSnoc(Where(t, VisibleRows()), e);
    } else {
      assert Where(t, VisibleRows()) + [] == Where(t, VisibleRows());
    }
  }

  lemma {:induction false} AppendNothingIs(s: State)
    ensures AppendRows(s, []) == State(s.log + Tail(|s.log|, []), s.expected + Sequences(Where(Tail(|s.log|, []), VisibleRows())), s.covers)
  {
    assert s.log + [] == s.log && s.expected + [] == s.expected;
  }

  lemma {:induction false} AppendRowsIs(s: State, rows: seq<Row>)
    ensures var t := Tail(|s.log|, rows);
            AppendRows(s, rows) == State(s.log + t, s.expected + Sequences(Where(t, VisibleRows())), s.covers)
  {
    hide Where, Sequences;
    if rows == [] {
      AppendNothingIs(s);
    } else {
      var front, row := rows[..|rows| - 1], rows[|rows| - 1];
      AppendRowsIs(s, front);
      if Ordinary(row) {
        var t := Tail(|s.log|, front);
        var e := Event(|s.log| + |t| + 1, row.kind, row.content, row.callId, row.metadata);
        ShownSequencesSnoc(t, e);
        var shown := Sequences(Where(t, VisibleRows()));
        assert (s.log + t) + [e] == s.log + (t + [e]);
        assert (s.expected + shown) + [e.sequence] == s.expected + (shown + [e.sequence]);
        assert shown + [] == shown;
      }
    }
  }

  lemma {:induction false} TailNumbers(n: nat, rows: seq<Row>)
    ensures forall i :: 0 <= i < |Tail(n, rows)| ==> Tail(n, rows)[i].sequence == n + i + 1
    ensures forall e :: e in Tail(n, rows) ==> n < e.sequence && !e.kind.Summary? && !IsClear(e)
  {
    if rows != [] { TailNumbers(n, rows[..|rows| - 1]); }
  }

  lemma {:induction false} LatestPastTail(log: seq<Event>, tail: seq<Event>)
    requires forall e :: e in tail ==> !e.kind.Summary? && !IsClear(e)
    ensures LatestClear(log + tail) == LatestClear(log) && LatestSummary(log + tail) == LatestSummary(log)
  {
    if tail == [] {
      assert log + tail == log;
    } else {
      var front, last := tail[..|tail| - 1], tail[|tail| - 1];
      LatestPastTail(log, front);
      assert log + tail == (log + front) + [last];
      LatestOfSnoc(log + front, last);
    }
  }

  lemma {:induction false} ListedAll(ns: seq<nat>, items: seq<Json>, boundary: int, through: int)
    requires |items| == |ns| && forall i :: 0 <= i < |ns| ==> items[i] == Int(ns[i])
    requires forall n :: n in ns ==> boundary < n <= through
    ensures Listed(items, boundary, through) == ns
  {
    if ns != [] {
      var front := ns[..|ns| - 1];
      assert forall n :: n in front ==> n in ns;
      ListedAll(front, items[..|ns| - 1], boundary, through);
      assert ns[|ns| - 1] in ns;
      assert ns == front + [ns[|ns| - 1]];
    }
  }

  /** What the store writes is what the rebuild reads. */
  lemma {:induction false} CoverageWritten(s: Event, through: nat, preserved: seq<nat>, trigger: string, before: int,
                                           after: int, boundary: nat)
    requires s.metadata == Some(SummaryMetadata(through, preserved, trigger, before, after, 1))
    requires forall n :: n in preserved ==> boundary < n <= through
    ensures CoverageOf(Some(s), boundary) == Some(Coverage(through, preserved))
  {
    var m := s.metadata.value;
    assert Field(m, "through_sequence") == Int(through);
    var items := seq(|preserved|, i requires 0 <= i < |preserved| => Int(preserved[i]));
    assert Field(m, "preserved_user_sequences").List?;
    assert Field(m, "preserved_user_sequences").items == items;
    ListedAll(preserved, items, boundary, through);
  }

  /** The state a successful compaction leaves. */
  function Summarised(s: State, a: Attempt, setup: Setup): State {
    var selection := Choose(Prepared(s.log, a), a.budget, setup);
    var tail := Tail(|s.log|, a.during);
    State(Add(s.log + tail, SummaryRow(s.log, selection, a)),
          Sequences(Retained(selection)) + Sequences(Where(tail, VisibleRows())),
          GivenTo(selection) + if LatestSummary(s.log).Some? then s.covers else {})
  }

  lemma {:induction false} CompactSucceeds(s: State, a: Attempt, setup: Setup)
    requires a.generated && Choose(Prepared(s.log, a), a.budget, setup).summary != []
    ensures CompactStep(s, a, setup) == Summarised(s, a, setup)
  {
    var selection := Choose(Prepared(s.log, a), a.budget, setup);
    var kept := State(s.log, Sequences(Retained(selection)),
                      GivenTo(selection) + if LatestSummary(s.log).Some? then s.covers else {});
    hide Choose, Retained, Sequences, GivenTo, SummaryRow, LatestSummary, AppendRows, Tail, Where;
    AppendRowsIs(kept, a.during);
  }

  lemma {:induction false} ActiveInLog(log: seq<Event>)
    ensures forall e :: e in Active(log) ==> e in log && Visible(e.kind) && LatestClear(log) < e.sequence
    ensures Increasing(log) ==> Increasing(Active(log))
  {
    WhereMembers(log, ActiveRows(LatestClear(log), CurrentCoverage(log)));
    if Increasing(log) { WhereIncreasing(log, ActiveRows(LatestClear(log), CurrentCoverage(log))); }
  }

  lemma {:induction false} ThroughIsLogged(log: seq<Event>, a: Attempt, setup: Setup)
    requires Numbered(log) && Choose(Prepared(log, a), a.budget, setup).summary != []
    ensures Through(Choose(Prepared(log, a), a.budget, setup)) <= |log|
  {
    var prepared := Prepared(log, a);
    NumberedIncreasing(log);
    ActiveInLog(log);
    ChoiceCutsEvents(prepared, a.budget, setup);
    hide Choose, EventsOf, Active, LatestClear, Through, Increasing;
    var x := EventsOf(Choose(prepared, a.budget, setup).summary);
    assert prepared[|x| - 1] == LastOf(x);
    assert Active(log)[|x| - 1] in Active(log);
  }

  /** The new end covers no event that was not there before. */
  lemma {:induction false} NewThroughBounds(log: seq<Event>, a: Attempt, setup: Setup)
    requires Numbered(log) && CoverageInv(log)
    requires Choose(Prepared(log, a), a.budget, setup).summary != []
    ensures var s := Choose(Prepared(log, a), a.budget, setup);
            0 <= PreviousThrough(log) <= NewThrough(log, s) <= |log| && Through(s) <= NewThrough(log, s)
  {
    ThroughIsLogged(log, a, setup);
    hide Choose, Prepared, CurrentCoverage, LatestClear, Through, LatestSummary, Numbered;
  }

  /** What metadata made from active events preserves are user events since the boundary. */
  lemma {:induction false} PreservedAreUsers(log: seq<Event>, retained: seq<Event>, through: int, n: nat)
    requires Numbered(log) && n in PreservedSequences(retained, through)
    requires forall r :: r in retained ==> exists e :: e in Active(log) && e.sequence == r.sequence && e.kind == r.kind
    ensures LatestClear(log) < n <= through
    ensures 1 <= n <= |log| && log[n - 1].kind.User?
  {
    PreservedSequenceIn(retained, through, n);
    ActiveInLog(log);
    hide PreservedSequences, Active, LatestClear;
    var r :| r in retained && r.sequence == n && r.kind.User? && n <= through;
    var e :| e in Active(log) && e.sequence == r.sequence && e.kind == r.kind;
    assert log[n - 1] == e;
  }

  lemma {:induction false} NewPreserved(log: seq<Event>, a: Attempt, setup: Setup)
    requires Numbered(log) && Choose(Prepared(log, a), a.budget, setup).summary != []
    ensures var s := Choose(Prepared(log, a), a.budget, setup);
            forall n :: n in PreservedSequences(Retained(s), NewThrough(log, s)) ==>
              LatestClear(log) < n <= NewThrough(log, s) && 1 <= n <= |log| && log[n - 1].kind.User?
  {
    hide Choose, Retained, Active, LatestClear, PreservedSequences, NewThrough, Prepared, Through;
    var s := Choose(Prepared(log, a), a.budget, setup);
    var retained, through := Retained(s), NewThrough(log, s);
    forall r | r in retained
      ensures exists e :: e in Active(log) && e.sequence == r.sequence && e.kind == r.kind
    {
      RetainedAreActive(log, a, setup, r);
    }
    forall n | n in PreservedSequences(retained, through)
      ensures LatestClear(log) < n <= through && 1 <= n <= |log| && log[n - 1].kind.User?
    {
      PreservedAreUsers(log, retained, through, n);
    }
  }

  /** Boundary, latest summary and coverage once a summary is written behind a tail of ordinary events. */
  lemma {:induction false} CoverageAfter(log: seq<Event>, tail: seq<Event>, e: Event, through: nat, preserved: seq<nat>,
                                         trigger: string, before: nat, after: nat)
    requires forall x :: x in tail ==> !x.kind.Summary? && !IsClear(x)
    requires e.kind.Summary? && e.metadata == Some(SummaryMetadata(through, preserved, trigger, before, after, 1))
    requires forall n :: n in preserved ==> LatestClear(log) < n <= through
    ensures var r := log + tail + [e];
            && LatestClear(r) == LatestClear(log) && LatestSummary(r) == Some(e)
            && CurrentCoverage(r) == Some(Coverage(through, preserved))
            && PreviousThrough(r) == through
  {
    hide *;
    LatestPastTail(log, tail);
    LatestOfSnoc(log + tail, e);
    CoverageWritten(e, through, preserved, trigger, before, after, LatestClear(log));
    LatestCovers(log + tail + [e], e, through, preserved, trigger, before, after);
    SummaryIsNoMark(e);
  }

  lemma SummaryIsNoMark(e: Event)
    requires e.kind.Summary?
    ensures !IsClear(e)
  {
  }

  lemma LatestCovers(r: seq<Event>, e: Event, through: nat, preserved: seq<nat>, trigger: string, before: nat, after: nat)
    requires LatestSummary(r) == Some(e)
    requires e.metadata == Some(SummaryMetadata(through, preserved, trigger, before, after, 1))
    ensures CurrentCoverage(r) == CoverageOf(Some(e), LatestClear(r)) && PreviousThrough(r) == through
  {
    hide LatestSummary, LatestClear, CoverageOf;
    assert Field(e.metadata.value, "through_sequence") == Int(through);
  }

  lemma {:induction false} ActiveAfter(log: seq<Event>, tail: seq<Event>, e: Event, c: Coverage)
    requires Numbered(log) && c.through <= |log| && !Visible(e.kind)
    requires forall x :: x in tail ==> |log| < x.sequence
    requires var r := log + tail + [e]; LatestClear(r) == LatestClear(log) && CurrentCoverage(r) == Some(c)
    ensures Active(log + tail + [e]) == Where(log, ActiveRows(LatestClear(log), Some(c))) + Where(tail, VisibleRows())
  {
    var rows := ActiveRows(LatestClear(log), Some(c));
    LatestClearIsMaximum(log);
    hide LatestClear, CurrentCoverage;
    WhereConcat(log + tail, [e], rows);
    WhereConcat(log, tail, rows);
    WhereNone([e], rows);
    WhereSame(tail, rows, VisibleRows());
    hide Where;
    assert Where(log, rows) + Where(tail, VisibleRows()) + [] == Where(log, rows) + Where(tail, VisibleRows());
  }

  /** The log after a successful compaction, with its parts. */
  lemma {:induction false} SummarisedParts(s: State, a: Attempt, setup: Setup)
    requires Inv(s) && Choose(Prepared(s.log, a), a.budget, setup).summary != []
    ensures var r, selection := Summarised(s, a, setup), Choose(Prepared(s.log, a), a.budget, setup);
            var tail := Tail(|s.log|, a.during);
            && r.log == s.log + tail + [r.log[|r.log| - 1]]
            && LatestClear(r.log) == LatestClear(s.log) && LatestSummary(r.log) == Some(r.log[|r.log| - 1])
            && r.log[|r.log| - 1].kind.Summary?
            && CurrentCoverage(r.log) == Some(NewCoverage(s.log, selection))
            && PreviousThrough(r.log) == NewThrough(s.log, selection)
  {
    NewThroughBounds(s.log, a, setup);
    NewPreserved(s.log, a, setup);
    TailNumbers(|s.log|, a.during);
    var selection := Choose(Prepared(s.log, a), a.budget, setup);
    var tail, through := Tail(|s.log|, a.during), NewThrough(s.log, selection);
    hide Choose, Retained, LatestClear, LatestSummary, Tail, PreservedSequences, NewThrough, CurrentCoverage,
         PreviousThrough, SummaryMetadata, Inv, GivenTo, Sequences, Where;
    var preserved := PreservedSequences(Retained(selection), through);
    var r := Summarised(s, a, setup);
    var e := r.log[|r.log| - 1];
    CoverageAfter(s.log, tail, e, through, preserved, a.trigger, a.before, a.after);
  }

  lemma {:induction false} SummarisedRows(s: State, a: Attempt, setup: Setup)
    requires Inv(s)
    ensures var selection := Choose(Prepared(s.log, a), a.budget, setup);
            && Numbered(s.log) && CoverageInv(s.log) && !Visible(Summary)
            && NewCoverage(s.log, selection).through == NewThrough(s.log, selection)
            && Summarised(s, a, setup).expected
               == Sequences(Retained(selection)) + Sequences(Where(Tail(|s.log|, a.during), VisibleRows()))
  {
    hide Choose, Prepared, Tail, Retained, NewThrough, PreservedSequences, Sequences, Where, GivenTo, LatestSummary;
  }

  lemma {:induction false} SummarisedActive(s: State, a: Attempt, setup: Setup)
    requires Inv(s) && Choose(Prepared(s.log, a), a.budget, setup).summary != []
    ensures Sequences(Active(Summarised(s, a, setup).log)) == Summarised(s, a, setup).expected
  {
    var r, selection := Summarised(s, a, setup), Choose(Prepared(s.log, a), a.budget, setup);
    var tail, e := Tail(|s.log|, a.during), r.log[|r.log| - 1];
    var c := NewCoverage(s.log, selection);
    var rows := ActiveRows(LatestClear(s.log), Some(c));
    hide *;
    SummarisedRows(s, a, setup);
    SummarisedParts(s, a, setup);
    KeptRowsReplay(s.log, a, setup);
    NewThroughBounds(s.log, a, setup);
    TailNumbers(|s.log|, a.during);
    ActiveAfter(s.log, tail, e, c);
    SequencesConcat(Where(s.log, rows), Where(tail, VisibleRows()));
  }

  lemma {:induction false} SequencesConcat(x: seq<Event>, y: seq<Event>)
    ensures Sequences(x + y) == Sequences(x) + Sequences(y)
  {
  }

  lemma {:induction false} SummarisedAccounted(s: State, a: Attempt, setup: Setup)
    requires Inv(s) && Choose(Prepared(s.log, a), a.budget, setup).summary != []
    ensures Accounted(Summarised(s, a, setup))
  {
    var r := Summarised(s, a, setup);
    forall x | x in r.log && Visible(x.kind) && LatestClear(r.log) < x.sequence
      ensures x.sequence in r.expected || x.sequence in r.covers
    {
      OneAccounted(s, a, setup, x);
    }
    hide Inv, Summarised, Visible, LatestClear;
  }

  lemma {:induction false} OneAccounted(s: State, a: Attempt, setup: Setup, x: Event)
    requires Inv(s) && Choose(Prepared(s.log, a), a.budget, setup).summary != []
    requires var r := Summarised(s, a, setup); x in r.log && Visible(x.kind) && LatestClear(r.log) < x.sequence
    ensures var r := Summarised(s, a, setup); x.sequence in r.expected || x.sequence in r.covers
  {
    hide *;
    SummarisedRows(s, a, setup);
    SummarisedParts(s, a, setup);
    if x in s.log {
      OldAccounted(s, a, setup, x);
    } else {
      assert x in Tail(|s.log|, a.during);
      ArrivedIsActive(|s.log|, a.during, x);
    }
  }

  lemma {:induction false} ArrivedIsActive(n: nat, rows: seq<Row>, x: Event)
    requires x in Tail(n, rows) && Visible(x.kind)
    ensures x.sequence in Sequences(Where(Tail(n, rows), VisibleRows()))
  {
    WhereMembers(Tail(n, rows), VisibleRows());
    SequenceIn(Where(Tail(n, rows), VisibleRows()), x.sequence);
    hide Tail, Where, Sequences;
  }

  lemma {:induction false} OldAccounted(s: State, a: Attempt, setup: Setup, x: Event)
    requires Inv(s) && Choose(Prepared(s.log, a), a.budget, setup).summary != []
    requires x in s.log && Visible(x.kind) && LatestClear(s.log) < x.sequence
    ensures x.sequence in Summarised(s, a, setup).expected || x.sequence in Summarised(s, a, setup).covers
  {
    SequenceIn(Active(s.log), x.sequence);
    if x.sequence in s.expected {
      var y :| y in Active(s.log) && y.sequence == x.sequence;
      ActiveIsSummarisedOrRetained(s.log, a, setup, y);
    }
    hide Choose, Retained, Active, LatestClear, Sequences, GivenTo, Prepared, CoverageInv, Numbered;
  }

  lemma {:induction false} CoverageInvAfter(log: seq<Event>, r: seq<Event>, c: Coverage)
    requires |log| < |r| && r[..|log|] == log
    requires CurrentCoverage(r) == Some(c) && PreviousThrough(r) == c.through && 0 <= c.through <= |log|
    requires forall n :: n in c.preserved ==> 1 <= n <= |log| && log[n - 1].kind.User?
    ensures CoverageInv(r)
  {
    hide CurrentCoverage, PreviousThrough, LatestSummary;
    forall n | n in c.preserved ensures 1 <= n <= |r| && r[n - 1].kind.User? {
      assert r[n - 1] == r[..|log|][n - 1];
    }
  }

  lemma {:induction false} NumberedAfter(log: seq<Event>, rows: seq<Row>, e: Event)
    requires Numbered(log) && e.sequence == |log + Tail(|log|, rows)| + 1
    ensures Numbered(log + Tail(|log|, rows) + [e])
  {
    TailNumbers(|log|, rows);
    hide Tail;
  }

  lemma {:induction false} SummarisedNumbered(s: State, a: Attempt, setup: Setup)
    requires Numbered(s.log)
    ensures Numbered(Summarised(s, a, setup).log)
  {
    var r := Summarised(s, a, setup);
    hide Choose, Retained, LatestSummary, Tail, Through, NewThrough, PreservedSequences, GivenTo, Sequences, Where,
         Prepared, SummaryMetadata, Numbered;
    NumberedAfter(s.log, a.during, r.log[|r.log| - 1]);
  }

  lemma {:induction false} SummarisedCoverageInv(s: State, a: Attempt, setup: Setup)
    requires Inv(s) && Choose(Prepared(s.log, a), a.budget, setup).summary != []
    ensures CoverageInv(Summarised(s, a, setup).log)
  {
    hide *;
    StillNumbered(s);
    SummarisedParts(s, a, setup);
    NewThroughBounds(s.log, a, setup);
    NewPreserved(s.log, a, setup);
    var r, selection := Summarised(s, a, setup), Choose(Prepared(s.log, a), a.budget, setup);
    NewCoverageIs(s.log, selection);
    assert r.log[..|s.log|] == s.log;
    CoverageInvAfter(s.log, r.log, NewCoverage(s.log, selection));
  }

  lemma NewCoverageIs(log: seq<Event>, s: Selection)
    ensures var c, through := NewCoverage(log, s), NewThrough(log, s);
            c.through == through && forall n :: n in c.preserved ==> n in PreservedSequences(Retained(s), through)
  {
    hide NewThrough, PreservedSequences, Retained;
  }

  lemma {:induction false} StillNumbered(s: State)
    requires Inv(s)
    ensures Numbered(s.log) && CoverageInv(s.log)
  {
  }

  lemma {:induction false} CompactKeepsInv(s: State, a: Attempt, setup: Setup)
    requires Inv(s)
    ensures Inv(CompactStep(s, a, setup))
  {
    if Choose(Prepared(s.log, a), a.budget, setup).summary == [] {
    } else if !a.generated {
      RowsKeepInv(s, a.during);
    } else {
      CompactSucceeds(s, a, setup);
      SummarisedActive(s, a, setup);
      SummarisedAccounted(s, a, setup);
      SummarisedNumbered(s, a, setup);
      SummarisedCoverageInv(s, a, setup);
      SummarisedParts(s, a, setup);
      hide Choose, CompactStep, Accounted, CoverageInv, Numbered, Active, Sequences, Summarised, LatestSummary;
    }
  }

  lemma {:induction false} StepKeepsInv(s: State, a: Action, setup: Setup)
    requires Inv(s)
    ensures Inv(Step(s, a, setup))
  {
    hide Inv;
    match a
    case Append(row) => RowKeepsInv(s, row);
    case Clear => ClearKeepsInv(s, setup);
    case Compact(attempt) => CompactKeepsInv(s, attempt, setup);
  }

  lemma {:induction false} RunKeepsInv(actions: seq<Action>, setup: Setup)
    ensures Inv(Run(actions, setup))
  {
    if actions == [] {
      assert Inv(START);
    } else {
      RunKeepsInv(actions[..|actions| - 1], setup);
      hide Inv, Step;
      StepKeepsInv(Run(actions[..|actions| - 1], setup), actions[|actions| - 1], setup);
    }
  }

  // ---- results ----

  /** Over every run, rebuilding from the log and its summary metadata gives what the last compaction
      kept in memory followed by every later visible event. */
  lemma {:induction false} RebuildEqualsMemory(actions: seq<Action>, setup: Setup)
    ensures Sequences(Active(Run(actions, setup).log)) == Run(actions, setup).expected
  {
    RunKeepsInv(actions, setup);
  }

  /** Every visible event since the last `/clear` is still active or went into the latest summary,
      directly or through the summaries it was made from. */
  lemma {:induction false} NothingForgotten(actions: seq<Action>, setup: Setup, e: Event)
    requires e in Run(actions, setup).log && Visible(e.kind) && LatestClear(Run(actions, setup).log) < e.sequence
    ensures e in Active(Run(actions, setup).log)
         || (e.sequence in Run(actions, setup).covers && LatestSummary(Run(actions, setup).log).Some?)
  {
    RunKeepsInv(actions, setup);
    var s := Run(actions, setup);
    hide Run, CoverageInv;
    if e.sequence in s.expected {
      SequenceIn(Active(s.log), e.sequence);
      WhereMembers(s.log, ActiveRows(LatestClear(s.log), CurrentCoverage(s.log)));
      var x :| x in Active(s.log) && x.sequence == e.sequence;
      assert s.log[x.sequence - 1] == x && s.log[e.sequence - 1] == e;
    }
  }

  lemma {:induction false} ThroughStays(actions: seq<Action>, a: Action, setup: Setup)
    requires !a.Clear?
    ensures PreviousThrough(Run(actions, setup).log) <= PreviousThrough(Run(actions + [a], setup).log)
  {
    RunKeepsInv(actions, setup);
    var s := Run(actions, setup);
    assert (actions + [a])[..|actions|] == actions;
    match a
    case Append(row) => hide Run; RowKeepsInv(s, row);
    case Compact(attempt) =>
      hide Run;
      if Choose(Prepared(s.log, attempt), attempt.budget, setup).summary != [] {
        if attempt.generated {
          CompactSucceeds(s, attempt, setup);
          SummarisedParts(s, attempt, setup);
          NewThroughBounds(s.log, attempt, setup);
        } else {
          RowsKeepInv(s, attempt.during);
        }
      }
  }

  /** Between two `/clear`s the covered end never moves back, whatever happens in between. */
  lemma {:induction false} ThroughNeverDecreases(actions: seq<Action>, more: seq<Action>, setup: Setup)
    requires forall a :: a in more ==> !a.Clear?
    ensures PreviousThrough(Run(actions, setup).log) <= PreviousThrough(Run(actions + more, setup).log)
    decreases |more|
  {
    hide Run, PreviousThrough;
    if more == [] {
      assert actions + more == actions;
    } else {
      var front, last := more[..|more| - 1], more[|more| - 1];
      assert more == front + [last] && last in more;
      assert actions + more == (actions + front) + [last];
      ThroughNeverDecreases(actions, front, setup);
      ThroughStays(actions + front, last, setup);
    }
  }

  /** What a compaction keeps in memory is what is rebuilt from the log later, event by event, once the
      same previews are put in place: first the retained events, then what arrived while the summary was
      generated. */
  lemma {:induction false} EventsReplay(actions: seq<Action>, a: Attempt, setup: Setup)
    requires a.generated && Choose(Prepared(Run(actions, setup).log, a), a.budget, setup).summary != []
    ensures var before, after := Run(actions, setup).log, Run(actions + [Compact(a)], setup).log;
            WithPreviews(Active(after), a.previews)
            == Retained(Choose(Prepared(before, a), a.budget, setup))
               + WithPreviews(Where(Tail(|before|, a.during), VisibleRows()), a.previews)
  {
    RunKeepsInv(actions, setup);
    RunOnce(actions, Compact(a), setup);
    hide Run, Inv, Choose, Active, Retained, CompactStep, Summarised, Prepared, WithPreviews;
    var s := Run(actions, setup);
    CompactSucceeds(s, a, setup);
    ReplayedEvents(s, a, setup);
  }

  /** So the very messages sent after a compaction are rebuilt later if nothing arrived meanwhile; and
      otherwise those of what arrived follow, if that opens a message of its own. */
  lemma {:induction false} MessagesReplay(actions: seq<Action>, a: Attempt, setup: Setup)
    requires a.generated && Choose(Prepared(Run(actions, setup).log, a), a.budget, setup).summary != []
    requires var arrived := Where(Tail(|Run(actions, setup).log|, a.during), VisibleRows());
             arrived == [] || Opens(arrived[0].kind)
    ensures var before, after := Run(actions, setup).log, Run(actions + [Compact(a)], setup).log;
            Messages(WithPreviews(Active(after), a.previews))
            == Messages(Retained(Choose(Prepared(before, a), a.budget, setup)))
               + Messages(WithPreviews(Where(Tail(|before|, a.during), VisibleRows()), a.previews))
  {
    EventsReplay(actions, a, setup);
    hide Run, Choose, Active, Retained, Prepared, Messages, Where, Tail;
    var before := Run(actions, setup).log;
    MessagesSplit(Retained(Choose(Prepared(before, a), a.budget, setup)),
                  WithPreviews(Where(Tail(|before|, a.during), VisibleRows()), a.previews));
  }

  lemma {:induction false} RunOnce(actions: seq<Action>, a: Action, setup: Setup)
    ensures Run(actions + [a], setup) == Step(Run(actions, setup), a, setup)
  {
    hide Step;
    assert (actions + [a])[..|actions|] == actions;
  }

  /** A row of the log as preparation shows it. */
  function Previewed(e: Event, previews: map<nat, string>): Event {
    if e.sequence in previews then e.(content := previews[e.sequence]) else e
  }

  ghost predicate AllPreviewed(events: seq<Event>, log: seq<Event>, previews: map<nat, string>) {
    forall e :: e in events ==> exists x :: x in log && e == Previewed(x, previews)
  }

  lemma {:induction false} PreviewsArePreviewed(events: seq<Event>, log: seq<Event>, previews: map<nat, string>)
    requires forall e :: e in events ==> e in log
    ensures AllPreviewed(WithPreviews(events, previews), log, previews)
    ensures Sequences(WithPreviews(events, previews)) == Sequences(events)
  {
    var shown := WithPreviews(events, previews);
    forall e | e in shown ensures exists x :: x in log && e == Previewed(x, previews) {
      var i :| 0 <= i < |shown| && shown[i] == e;
      assert events[i] in log && e == Previewed(events[i], previews);
    }
  }

  /** Two selections from one numbered log with the same sequences are the same events. */
  lemma {:induction false} SameSequencesSameEvents(log: seq<Event>, previews: map<nat, string>, x: seq<Event>, y: seq<Event>)
    requires Numbered(log) && Sequences(x) == Sequences(y)
    requires AllPreviewed(x, log, previews) && AllPreviewed(y, log, previews)
    ensures x == y
  {
    assert |x| == |Sequences(x)| == |y|;
    forall i | 0 <= i < |x| ensures x[i] == y[i] {
      assert x[i] in x && y[i] in y;
      var v :| v in log && x[i] == Previewed(v, previews);
      var w :| w in log && y[i] == Previewed(w, previews);
      assert Sequences(x)[i] == Sequences(y)[i];
      assert log[v.sequence - 1] == v && log[w.sequence - 1] == w;
    }
  }

  lemma {:induction false} RetainedArePrepared(log: seq<Event>, a: Attempt, setup: Setup)
    requires Increasing(log)
    ensures AllPreviewed(Retained(Choose(Prepared(log, a), a.budget, setup)), log, a.previews)
  {
    ActiveInLog(log);
    PreviewsArePreviewed(Active(log), log, a.previews);
    PreviewsKeepOrder(Active(log), a.previews);
    var prepared := Prepared(log, a);
    ChoiceCutsEvents(prepared, a.budget, setup);
    RetainedIsInOrder(prepared, a.budget, setup);
    var s := Choose(prepared, a.budget, setup);
    assert prepared == WithPreviews(Active(log), a.previews);
    hide Choose, Retained, EventsOf, Active, WithPreviews, Previewed, Prepared;
    forall e | e in Retained(s) ensures e in prepared {
      assert e in EventsOf(s.summary) + EventsOf(s.recent);
    }
  }

  lemma {:induction false} PreviewsKeepOrder(events: seq<Event>, previews: map<nat, string>)
    ensures Increasing(events) ==> Increasing(WithPreviews(events, previews))
  {
  }

  lemma {:induction false} ArrivedAreLogged(log: seq<Event>, tail: seq<Event>, last: seq<Event>, previews: map<nat, string>)
    ensures AllPreviewed(WithPreviews(Where(tail, VisibleRows()), previews), log + tail + last, previews)
    ensures Sequences(WithPreviews(Where(tail, VisibleRows()), previews)) == Sequences(Where(tail, VisibleRows()))
  {
    WhereMembers(tail, VisibleRows());
    hide Where;
    PreviewsArePreviewed(Where(tail, VisibleRows()), log + tail + last, previews);
  }

  lemma {:induction false} MoreLogged(events: seq<Event>, log: seq<Event>, more: seq<Event>, previews: map<nat, string>)
    requires AllPreviewed(events, log, previews)
    ensures AllPreviewed(events, log + more, previews)
  {
    hide Previewed;
    forall e | e in events ensures exists x :: x in log + more && e == Previewed(x, previews) {
      var x :| x in log && e == Previewed(x, previews);
      assert x in log + more;
    }
  }

  lemma SummarisedExpects(s: State, a: Attempt, setup: Setup)
    ensures Summarised(s, a, setup).expected
         == Sequences(Retained(Choose(Prepared(s.log, a), a.budget, setup))) + Sequences(Where(Tail(|s.log|, a.during), VisibleRows()))
  {
    hide Sequences, Retained, Choose, Prepared, Where, Tail, SummaryMetadata, GivenTo;
  }

  lemma {:induction false} ReplayedEvents(s: State, a: Attempt, setup: Setup)
    requires Inv(s) && Choose(Prepared(s.log, a), a.budget, setup).summary != []
    ensures WithPreviews(Active(Summarised(s, a, setup).log), a.previews)
            == Retained(Choose(Prepared(s.log, a), a.budget, setup))
               + WithPreviews(Where(Tail(|s.log|, a.during), VisibleRows()), a.previews)
  {
    hide *;
    StillNumbered(s);
    SummarisedActive(s, a, setup);
    SummarisedParts(s, a, setup);
    SummarisedNumbered(s, a, setup);
    NumberedIncreasing(s.log);
    RetainedArePrepared(s.log, a, setup);
    var r, tail := Summarised(s, a, setup), Tail(|s.log|, a.during);
    var retained := Retained(Choose(Prepared(s.log, a), a.budget, setup));
    SummarisedExpects(s, a, setup);
    ActiveInLog(r.log);
    PreviewsArePreviewed(Active(r.log), r.log, a.previews);
    var last := [r.log[|r.log| - 1]];
    MoreLogged(retained, s.log, tail + last, a.previews);
    assert s.log + (tail + last) == r.log;
    ArrivedAreLogged(s.log, tail, last, a.previews);
    var arrived := WithPreviews(Where(tail, VisibleRows()), a.previews);
    BothPreviewed(retained, arrived, r.log, a.previews);
    SequencesConcat(retained, arrived);
    SameSequencesSameEvents(r.log, a.previews, WithPreviews(Active(r.log), a.previews), retained + arrived);
  }

  lemma {:induction false} BothPreviewed(x: seq<Event>, y: seq<Event>, log: seq<Event>, previews: map<nat, string>)
    requires AllPreviewed(x, log, previews) && AllPreviewed(y, log, previews)
    ensures AllPreviewed(x + y, log, previews)
  {
    hide Previewed;
  }
}
