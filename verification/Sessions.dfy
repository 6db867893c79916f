/** Turns and compactions together: what one recorded turn adds to a history that may have been
    summarised any number of times before. */
module Sessions {
  import opened Wrappers
  import opened Timeline
  import opened Projection
  import opened Selection
  import opened Compaction
  import Turns

  function Appends(rows: seq<Row>): seq<Action> {
    seq(|rows|, i requires 0 <= i < |rows| => Append(rows[i]))
  }

  lemma {:induction false} RunAppends(actions: seq<Action>, rows: seq<Row>, setup: Setup)
    ensures Run(actions + Appends(rows), setup) == AppendRows(Run(actions, setup), rows)
  {
    if rows == [] {
      assert actions + Appends(rows) == actions;
    } else {
      hide Run, AppendRow;
      var front, last := rows[..|rows| - 1], rows[|rows| - 1];
      RunAppends(actions, front, setup);
      assert actions + Appends(rows) == (actions + Appends(front)) + [Append(last)];
      RunOnce(actions + Appends(front), Append(last), setup);
    }
  }

  /** Rebuilding pays no attention to what a model may not see. */
  lemma {:induction false} HiddenRowsFeedNothing(b: Building, events: seq<Event>)
    ensures FeedAll(b, Where(events, VisibleRows())) == FeedAll(b, events)
  {
    if events != [] {
      var front, last := events[..|events| - 1], events[|events| - 1];
      HiddenRowsFeedNothing(b, front);
      hide Where, Feed;
      WhereConcat(front, [last], VisibleRows());
      assert events == front + [last];
      OneRow(last);
      FeedAllConcat(b, Where(front, VisibleRows()), Where([last], VisibleRows()));
      FeedNone(FeedAll(b, front), last);
      FeedOne(FeedAll(b, front), last);
    }
  }

  lemma {:induction false} OneRow(e: Event)
    ensures Where([e], VisibleRows()) == if Visible(e.kind) then [e] else []
  {
    assert [e][..0] == [];
  }

  lemma {:induction false} FeedNone(b: Building, e: Event)
    ensures FeedAll(b, []) == b
    ensures !Visible(e.kind) ==> Feed(b, e) == b
  {
  }

  lemma {:induction false} TailIsWritten(n: nat, rows: seq<Row>)
    requires forall row :: row in rows ==> Ordinary(row)
    ensures Tail(n, rows) == Turns.Written(n, rows) && |Tail(n, rows)| == |rows|
  {
    if rows != [] {
      assert rows[|rows| - 1] in rows;
      TailIsWritten(n, rows[..|rows| - 1]);
    }
  }

  function Shown(n: nat, row: Row): seq<Event> {
    if Ordinary(row) && Visible(row.kind) then [Event(n + 1, row.kind, row.content, row.callId, row.metadata)] else []
  }

  lemma {:induction false} RowExtendsActive(s: State, row: Row)
    requires Inv(s)
    ensures Active(AppendRow(s, row).log) == Active(s.log) + Shown(|s.log|, row)
  {
    InvParts(s);
    hide Inv, Active;
    if Ordinary(row) {
      ActiveSnoc(s.log, Event(|s.log| + 1, row.kind, row.content, row.callId, row.metadata));
    }
    assert Active(s.log) + [] == Active(s.log);
  }

  lemma {:induction false} TailShows(n: nat, rows: seq<Row>)
    requires rows != []
    ensures var front := rows[..|rows| - 1];
            Where(Tail(n, rows), VisibleRows())
            == Where(Tail(n, front), VisibleRows()) + Shown(n + |Tail(n, front)|, rows[|rows| - 1])
  {
    hide Where;
    var front, row := rows[..|rows| - 1], rows[|rows| - 1];
    if Ordinary(row) {
      var e := Event(n + |Tail(n, front)| + 1, row.kind, row.content, row.callId, row.metadata);
      assert Tail(n, rows) == Tail(n, front) + [e];
      WhereConcat(Tail(n, front), [e], VisibleRows());
      OneRow(e);
    }
  }

  lemma {:induction false} NoRows(s: State)
    ensures Active(AppendRows(s, []).log) == Active(s.log) + Where(Tail(|s.log|, []), VisibleRows())
  {
    hide Active;
    assert Active(s.log) + [] == Active(s.log);
  }

  /** Ordinary rows only add themselves, as far as they are visible. */
  lemma {:induction false} RowsExtendActive(s: State, rows: seq<Row>)
    requires Inv(s)
    ensures Active(AppendRows(s, rows).log) == Active(s.log) + Where(Tail(|s.log|, rows), VisibleRows())
  {
    hide Inv, Active, Where, Tail, AppendRows, AppendRow, Shown, Sequences;
    if rows == [] {
      NoRows(s);
    } else {
      var front, row := rows[..|rows| - 1], rows[|rows| - 1];
      RowsExtendActive(s, front);
      RowsKeepInv(s, front);
      AppendRowsIs(s, front);
      LastRow(s, rows);
      RowExtendsActive(AppendRows(s, front), row);
      TailShows(|s.log|, rows);
      Turns.Reassociate(Active(s.log), Where(Tail(|s.log|, front), VisibleRows()), Shown(|s.log| + |Tail(|s.log|, front)|, row));
    }
  }

  lemma {:induction false} LastRow(s: State, rows: seq<Row>)
    requires rows != []
    ensures AppendRows(s, rows) == AppendRow(AppendRows(s, rows[..|rows| - 1]), rows[|rows| - 1])
  {
  }

  lemma {:induction false} InvParts(s: State)
    requires Inv(s)
    ensures Numbered(s.log) && CoverageInv(s.log)
  {
  }

  /** However the session went before, with turns, summaries and `/clear`s in any order, a turn adds exactly
      what was recorded of it to the messages rebuilt for the next request, whether it was ended or not. */
  lemma {:induction false} TurnExtendsActiveMessages(actions: seq<Action>, turn: Turns.SessionTurn,
                                                     blank: Turns.Blank, setup: Setup)
    ensures var before := Run(actions, setup);
            var after := Run(actions + Appends(Turns.TurnRows(turn, blank)), setup);
            Messages(Active(after.log))
            == Messages(Active(before.log)) + Turns.RestoreAll(Turns.Flushed(Turns.TurnOf(turn, blank)).history)
  {
    var rows := Turns.TurnRows(turn, blank);
    var s := Run(actions, setup);
    RunAppends(actions, rows, setup);
    RunKeepsInv(actions, setup);
    RowsExtendActive(s, rows);
    TurnRowsOrdinary(turn, blank);
    TailIsWritten(|s.log|, rows);
    TurnMessages(turn, blank, |s.log|);
    TurnOpens(turn, blank, |s.log|);
    hide Run, Active, Messages, Where, Turns.Written, Tail, Turns.TurnRows, Turns.RestoreAll, Inv;
    MessagesSplit(Active(s.log), Where(Turns.Written(|s.log|, rows), VisibleRows()));
  }

  /** What the recorder of a turn holds after some of its events. */
  function Recorded(text: string, events: seq<Turns.StreamEvent>, blank: Turns.Blank): Turns.Turn {
    Turns.ConsumeAll(Turns.Begin(UserMessage(text)), events, blank)
  }

  /** A turn may be interrupted at any boundary between its rounds, where requests are prepared: whatever
      has happened to the conversation by then, compactions, diagnostics and the turn's own earlier rounds
      included, the part recorded from there adds exactly the history it recorded to the messages rebuilt for
      a request. */
  lemma {:induction false} PartExtendsActiveMessages(actions: seq<Action>, text: string, before: seq<Turns.StreamEvent>,
                                                     part: seq<Turns.StreamEvent>, blank: Turns.Blank, setup: Setup)
    requires Turns.AtBoundary(Recorded(text, before, blank))
    ensures var t, u := Recorded(text, before, blank), Turns.Flushed(Recorded(text, before + part, blank));
            && t.rows <= u.rows && t.history <= u.history
            && Messages(Active(Run(actions + Appends(u.rows[|t.rows|..]), setup).log))
               == Messages(Active(Run(actions, setup).log)) + Turns.RestoreAll(u.history[|t.history|..])
  {
    var t, u := Recorded(text, before, blank), Recorded(text, before + part, blank);
    var s := Run(actions, setup);
    Turns.ConsumeAllConcat(Turns.Begin(UserMessage(text)), before, part, blank);
    Turns.PartReplays(t, part, blank, |s.log|);
    Turns.PartRowsOpenFirst(t, part, blank);
    Turns.FlushKeepsRows(u);
    PartRowsOrdinary(text, before + part, blank);
    hide Run, Active, Messages, Where, Turns.Written, Tail, Turns.RestoreAll, Inv, Recorded, Turns.OpensFirst, Turns.Flushed;
    var rows := u.rows[|t.rows|..];
    RunAppends(actions, rows, setup);
    RunKeepsInv(actions, setup);
    RowsExtendActive(s, rows);
    TailIsWritten(|s.log|, rows);
    ShownOpensFirst(|s.log|, rows);
    HiddenRowsFeedNothing(NOTHING, Turns.Written(|s.log|, rows));
    SameFeedSameMessages(Where(Turns.Written(|s.log|, rows), VisibleRows()), Turns.Written(|s.log|, rows));
    MessagesSplit(Active(s.log), Where(Turns.Written(|s.log|, rows), VisibleRows()));
  }

  /** A round begins at such a boundary. */
  lemma {:induction false} RoundsBeginAtBoundaries(text: string, events: seq<Turns.StreamEvent>, blank: Turns.Blank)
    requires Recorded(text, events, blank).outcome.Running?
    ensures Turns.AtBoundary(Recorded(text, events + [Turns.StreamEvent(Turns.ModelPhase, None)], blank))
  {
    assert (events + [Turns.StreamEvent(Turns.ModelPhase, None)])[..|events|] == events;
  }

  lemma {:induction false} SameFeedSameMessages(x: seq<Event>, y: seq<Event>)
    requires FeedAll(NOTHING, x) == FeedAll(NOTHING, y)
    ensures Messages(x) == Messages(y)
  {
  }

  lemma {:induction false} PartRowsOrdinary(text: string, events: seq<Turns.StreamEvent>, blank: Turns.Blank)
    ensures forall row :: row in Recorded(text, events, blank).rows ==> Ordinary(row)
  {
    Turns.TurnRowsAreOrdinary(Turns.Begin(UserMessage(text)), events, blank);
    hide Turns.ConsumeAll;
  }

  // ---- results of other agents that arrive during a turn ----

  lemma {:induction false} WrittenMessages(m: nat, n: nat, rows: seq<Row>)
    ensures Messages(Turns.Written(m, rows)) == Messages(Turns.Written(n, rows))
  {
    Turns.FeedWritten(NOTHING, m, rows);
    Turns.FeedWritten(NOTHING, n, rows);
    hide FeedAll, Turns.Written, Turns.FeedRows;
  }

  lemma {:induction false} AgentResultRows(agent: Row, rows: seq<Row>, n: nat)
    requires agent.kind.AgentResult?
    ensures Messages(Turns.Written(n, [agent] + rows)) == [UserMessage(agent.content)] + Messages(Turns.Written(0, rows))
  {
    var e := WrittenRow(n + 1, agent);
    Turns.WrittenConcat(n, [agent], rows);
    Turns.WrittenOne(n, agent);
    FeedOne(NOTHING, e);
    WrittenMessages(n + 1, 0, rows);
    assert Messages([e]) == [UserMessage(agent.content)] && FeedAll(NOTHING, [e]).pending == [];
    hide Turns.Written, Messages, FeedAll;
    MessagesSplit([e], Turns.Written(n + 1, rows));
  }

  lemma {:induction false} FirstIsShown(n: nat, first: Row, rest: seq<Row>)
    requires Opens(first.kind) && Visible(first.kind)
    ensures var shown := Where(Turns.Written(n, [first] + rest), VisibleRows());
            shown != [] && Opens(shown[0].kind)
  {
    Turns.WrittenConcat(n, [first], rest);
    Turns.WrittenOne(n, first);
    var e := WrittenRow(n + 1, first);
    hide Turns.Written;
    WhereConcat([e], Turns.Written(n + 1, rest), VisibleRows());
    OneRow(e);
  }

  /** Ordinary rows that begin with a message of their own are rebuilt on their own. */
  lemma {:induction false} OpenedRowsStand(actions: seq<Action>, first: Row, rest: seq<Row>, setup: Setup)
    requires Opens(first.kind) && Visible(first.kind) && forall row :: row in [first] + rest ==> Ordinary(row)
    ensures Messages(Active(Run(actions + Appends([first] + rest), setup).log))
         == Messages(Active(Run(actions, setup).log)) + Messages(Turns.Written(0, [first] + rest))
  {
    var rows, s := [first] + rest, Run(actions, setup);
    RunAppends(actions, rows, setup);
    RunKeepsInv(actions, setup);
    RowsExtendActive(s, rows);
    TailIsWritten(|s.log|, rows);
    FirstIsShown(|s.log|, first, rest);
    var written := Turns.Written(|s.log|, rows);
    HiddenRowsFeedNothing(NOTHING, written);
    SameFeedSameMessages(Where(written, VisibleRows()), written);
    WrittenMessages(|s.log|, 0, rows);
    hide *;
    MessagesSplit(Active(s.log), Where(written, VisibleRows()));
  }

  /** Whatever has been recorded by then, half a tool round included, the result of another agent stands
      where it arrives: as a user message between what is rebuilt from before it and from after it. */
  lemma {:induction false} AgentResultStands(actions: seq<Action>, agent: Row, rows: seq<Row>, setup: Setup)
    requires agent.kind.AgentResult? && forall row :: row in rows ==> Ordinary(row)
    ensures Messages(Active(Run(actions + [Append(agent)] + Appends(rows), setup).log))
         == Messages(Active(Run(actions, setup).log)) + [UserMessage(agent.content)] + Messages(Turns.Written(0, rows))
  {
    assert actions + [Append(agent)] + Appends(rows) == actions + Appends([agent] + rows);
    OpenedRowsStand(actions, agent, rows, setup);
    AgentResultRows(agent, rows, 0);
    hide *;
    Turns.Reassociate(Messages(Active(Run(actions, setup).log)), [UserMessage(agent.content)], Messages(Turns.Written(0, rows)));
  }

  /** Nothing but the assistant's messages and results is rebuilt. */
  lemma {:induction false} OnlyTheAssistants(rows: seq<Row>, n: nat)
    requires forall row :: row in rows ==> !row.kind.User? && !row.kind.AgentResult?
    ensures forall m :: m in Messages(Turns.Written(n, rows)) ==> m.role.FromAssistant? || m.results != []
    ensures forall m :: m in FeedAll(NOTHING, Turns.Written(n, rows)).messages ==> m.role.FromAssistant? || m.results != []
  {
    if rows != [] {
      OnlyTheAssistants(rows[..|rows| - 1], n);
      assert rows[|rows| - 1] in rows;
      hide RestoredCalls, RestoredState, RestoredResult;
    }
  }

  lemma {:induction false} RestIsTheAssistants(turn: Turns.SessionTurn, k: nat, m: Message, blank: Turns.Blank)
    requires 0 < k <= |Turns.TurnRows(turn, blank)|
    requires m in Messages(Turns.Written(k, Turns.TurnRows(turn, blank)[k..]))
    ensures m.role.FromAssistant? || m.results != []
  {
    var own := Turns.TurnOf(turn, blank).rows;
    Turns.TurnRowsAreOrdinary(Turns.Begin(UserMessage(turn.text)), turn.events, blank);
    hide Turns.TurnOf;
    var rest := Turns.TurnRows(turn, blank)[k..];
    assert rest == own[k - 1..];
    forall row | row in rest ensures row in own && !row.kind.User? && !row.kind.AgentResult? { }
    OnlyTheAssistants(rest, k);
  }

  lemma {:induction false} Inserted(before: seq<Message>, x: seq<Message>, told: seq<Message>, y: seq<Message>, own: seq<Message>)
    requires |told| == 1 && told[0] !in y
    requires own == x + y || |own| < |x| + |y|
    requires y == [] ==> own == x
    ensures before + x + told + y == before + (x + told + y)
    ensures before + (x + told + y) == before + (own + told) <==> y == []
  {
    var a, b := x + told + y, own + told;
    assert a == (before + a)[|before|..] && b == (before + b)[|before|..];
    if y != [] && own == x + y {
      assert a[|x| + |y|] == y[|y| - 1] && b[|x| + |y|] == told[0];
    }
  }

  lemma {:induction false} TurnInTwo(turn: Turns.SessionTurn, k: nat, blank: Turns.Blank)
    requires k <= |Turns.TurnRows(turn, blank)|
    ensures var rows := Turns.TurnRows(turn, blank);
            Messages(Turns.Written(0, rows[..k]) + Turns.Written(k, rows[k..]))
            == Turns.RestoreAll(Turns.Flushed(Turns.TurnOf(turn, blank)).history)
  {
    hide *;
    var rows := Turns.TurnRows(turn, blank);
    Turns.TurnRowsReplay(turn, blank, 0);
    assert rows == rows[..k] + rows[k..];
    Turns.WrittenConcat(0, rows[..k], rows[k..]);
  }

  lemma {:induction false} ArrivalStands(actions: seq<Action>, turn: Turns.SessionTurn, k: nat, agent: Row,
                                         blank: Turns.Blank, setup: Setup)
    requires 0 < k <= |Turns.TurnRows(turn, blank)| && agent.kind.AgentResult?
    ensures var rows := Turns.TurnRows(turn, blank);
            Messages(Active(Run(actions + Appends(rows[..k]) + [Append(agent)] + Appends(rows[k..]), setup).log))
            == Messages(Active(Run(actions, setup).log)) + Messages(Turns.Written(0, rows[..k]))
               + [UserMessage(agent.content)] + Messages(Turns.Written(k, rows[k..]))
  {
    var rows := Turns.TurnRows(turn, blank);
    TurnRowsOrdinary(turn, blank);
    assert rows[0].kind.User?;
    hide Turns.TurnRows, Run, Active, Messages, Turns.Written, Appends, Ordinary;
    assert rows[..k] == [rows[0]] + rows[1..k];
    assert forall row :: row in rows[..k] || row in rows[k..] ==> row in rows;
    OpenedRowsStand(actions, rows[0], rows[1..k], setup);
    AgentResultStands(actions + Appends(rows[..k]), agent, rows[k..], setup);
    WrittenMessages(0, k, rows[k..]);
  }

  /** The result of another agent arrives after `k` rows of a turn, and the controller lists it behind that
      turn. The log gives it back between the turn's messages. Those are the turn's own, none joined and none
      split, exactly unless results of one round come on both sides of it. Its calls and its results are
      parted, the message standing right before results, exactly if a result comes next. And the log agrees
      with the controller's order exactly if no message of the turn follows. */
  lemma {:induction false} AgentResultDuringTurn(actions: seq<Action>, turn: Turns.SessionTurn, k: nat, agent: Row,
                                                 blank: Turns.Blank, setup: Setup)
    requires 0 < k <= |Turns.TurnRows(turn, blank)| && agent.kind.AgentResult?
    ensures var rows := Turns.TurnRows(turn, blank);
            var x, y := Turns.Written(0, rows[..k]), Turns.Written(k, rows[k..]);
            var before := Messages(Active(Run(actions, setup).log));
            var after := Messages(Active(Run(actions + Appends(rows[..k]) + [Append(agent)] + Appends(rows[k..]), setup).log));
            var own := Turns.RestoreAll(Turns.Flushed(Turns.TurnOf(turn, blank)).history);
            var told := [UserMessage(agent.content)];
            && after == before + Messages(x) + told + Messages(y)
            && (own == Messages(x) + Messages(y) <==> Waiting(x) == [] || Leading(y) == [])
            && (Messages(y) != [] && Messages(y)[0].results != [] <==> Leading(y) != [])
            && (after == before + (own + told) <==> Messages(y) == [])
  {
    var rows := Turns.TurnRows(turn, blank);
    var x, y := Turns.Written(0, rows[..k]), Turns.Written(k, rows[k..]);
    var told := [UserMessage(agent.content)];
    TurnInTwo(turn, k, blank);
    ArrivalStands(actions, turn, k, agent, blank, setup);
    if told[0] in Messages(y) { RestIsTheAssistants(turn, k, told[0], blank); }
    hide *;
    MessagesSplitIff(x, y);
    FirstMessageOfResults(y);
    Inserted(Messages(Active(Run(actions, setup).log)), Messages(x), told, Messages(y), Messages(x + y));
  }

  function WrittenRow(n: nat, row: Row): Event {
    Event(n, row.kind, row.content, row.callId, row.metadata)
  }

  lemma {:induction false} ShownSnoc(n: nat, front: seq<Row>, row: Row)
    ensures Where(Turns.Written(n, front + [row]), VisibleRows())
         == Where(Turns.Written(n, front), VisibleRows())
            + if Visible(row.kind) then [WrittenRow(n + |front| + 1, row)] else []
    ensures WrittenRow(n + |front| + 1, row).kind == row.kind
  {
    assert (front + [row])[..|front|] == front;
    var e := WrittenRow(n + |front| + 1, row);
    assert Turns.Written(n, front + [row]) == Turns.Written(n, front) + [e];
    hide Turns.Written, Where;
    WhereConcat(Turns.Written(n, front), [e], VisibleRows());
    OneRow(e);
  }

  ghost predicate NoneVisible(rows: seq<Row>) {
    forall row :: row in rows ==> !Visible(row.kind)
  }

  lemma {:induction false} ShownOpensFirst(n: nat, rows: seq<Row>)
    requires Turns.OpensFirst(rows)
    ensures var shown := Where(Turns.Written(n, rows), VisibleRows());
            && (shown == [] || Opens(shown[0].kind))
            && (shown == [] <==> NoneVisible(rows))
  {
    if rows != [] {
      hide *;
      var front, row := rows[..|rows| - 1], rows[|rows| - 1];
      assert rows == front + [row];
      OpensFirstFront(front, row);
      ShownOpensFirst(n, front);
      ShownSnoc(n, front, row);
      var shown := Where(Turns.Written(n, front), VisibleRows());
      assert shown + [] == shown;
    }
  }

  lemma {:induction false} OpensFirstFront(front: seq<Row>, row: Row)
    requires Turns.OpensFirst(front + [row])
    ensures Turns.OpensFirst(front)
    ensures NoneVisible(front) && Visible(row.kind) ==> Opens(row.kind)
    ensures NoneVisible(front + [row]) <==> NoneVisible(front) && !Visible(row.kind)
  {
    hide Opens;
    var rows := front + [row];
    assert row in rows && forall x :: x in front ==> x in rows;
    assert rows[|front|] == row && forall i :: 0 <= i < |front| ==> rows[i] == front[i] && front[i] in front;
    forall i | 0 <= i < |front| && Visible(front[i].kind) && forall j :: 0 <= j < i ==> !Visible(front[j].kind)
      ensures Opens(front[i].kind)
    {
      assert Visible(rows[i].kind);
      forall j | 0 <= j < i ensures !Visible(rows[j].kind) { assert rows[j] == front[j]; }
    }
  }

  lemma {:induction false} TurnRowsOrdinary(turn: Turns.SessionTurn, blank: Turns.Blank)
    ensures forall row :: row in Turns.TurnRows(turn, blank) ==> Ordinary(row)
  {
    Turns.TurnRowsAreOrdinary(Turns.Begin(UserMessage(turn.text)), turn.events, blank);
    hide Turns.ConsumeAll;
  }

  lemma {:induction false} TurnMessages(turn: Turns.SessionTurn, blank: Turns.Blank, n: nat)
    ensures Messages(Where(Turns.Written(n, Turns.TurnRows(turn, blank)), VisibleRows()))
            == Turns.RestoreAll(Turns.Flushed(Turns.TurnOf(turn, blank)).history)
  {
    Turns.TurnRowsReplay(turn, blank, n);
    HiddenRowsFeedNothing(NOTHING, Turns.Written(n, Turns.TurnRows(turn, blank)));
    hide Turns.TurnRows, Turns.TurnOf, Turns.Flushed, Turns.Written, Where, FeedAll, Turns.RestoreAll;
  }

  lemma {:induction false} TurnOpens(turn: Turns.SessionTurn, blank: Turns.Blank, n: nat)
    ensures var shown := Where(Turns.Written(n, Turns.TurnRows(turn, blank)), VisibleRows());
            shown != [] && Opens(shown[0].kind)
  {
    var first, rest := Turns.UserRow(turn.text, turn.metadata), Turns.TurnOf(turn, blank).rows;
    hide Turns.TurnOf;
    Turns.WrittenConcat(n, [first], rest);
    Turns.WrittenOne(n, first);
    var e := Event(n + 1, first.kind, first.content, first.callId, first.metadata);
    hide Turns.Written;
    WhereConcat([e], Turns.Written(n + 1, rest), VisibleRows());
    OneRow(e);
  }
}
