/** What a compaction keeps word for word and what it hands to the summary. */
module Selection {
  import opened Timeline
  import opened Projection

  datatype Group = Group(events: seq<Event>, tokens: nat)

  datatype Policy = Policy(recentTarget: nat, minimumGroups: nat, olderUsersTarget: nat)

  /** Estimated tokens of a text. */
  type Weigh = string -> nat

  datatype Selection = Selection(
    recent: seq<Group>, summary: seq<Group>, preserved: seq<Event>, recentTokens: nat, preservedTokens: nat)

  function EventsOf(groups: seq<Group>): seq<Event> {
    if groups == [] then [] else groups[0].events + EventsOf(groups[1..])
  }

  function Total(groups: seq<Group>): nat {
    if groups == [] then 0 else groups[0].tokens + Total(groups[1..])
  }

  function Weight(events: seq<Event>, weigh: Weigh): nat {
    if events == [] then 0 else weigh(events[0].content) + Weight(events[1..], weigh)
  }

  function UsersAmong(): Event -> bool {
    (e: Event) => e.kind.User?
  }

  predicate Enough(recent: seq<Group>, policy: Policy) {
    policy.recentTarget <= Total(recent) && policy.minimumGroups <= |recent|
  }

  /** Where the recent history starts, looking for it below position `i`. */
  function RecentStart(groups: seq<Group>, policy: Policy, i: nat): (start: nat)
    requires i <= |groups|
    ensures start <= i
    ensures 0 < start ==> Enough(groups[start..], policy)
    ensures forall k :: start < k < i ==> !Enough(groups[k..], policy)
  {
    if i == 0 then 0
    else if Enough(groups[i - 1..], policy) then i - 1
    else RecentStart(groups, policy, i - 1)
  }

  /** Older user events that still fit, newest first; one that does not fit is passed over. */
  function KeepNewest(older: seq<Event>, target: nat, weigh: Weigh, spent: nat): seq<Event> {
    if older == [] then []
    else
      var front, last := older[..|older| - 1], older[|older| - 1];
      if target < spent + weigh(last.content) then KeepNewest(front, target, weigh, spent)
      else [last] + KeepNewest(front, target, weigh, spent + weigh(last.content))
  }

  /** First position, from `i` on, at which the rest of the preserved events fits beside the recent ones. */
  function FirstFit(preserved: seq<Event>, weigh: Weigh, recentTokens: nat, limit: nat, i: nat): (r: nat)
    requires i <= |preserved|
    ensures i <= r <= |preserved|
    ensures r < |preserved| ==> recentTokens + Weight(preserved[r..], weigh) <= limit
    ensures forall k :: i <= k < r ==> limit < recentTokens + Weight(preserved[k..], weigh)
    decreases |preserved| - i
  {
    if i < |preserved| && limit < recentTokens + Weight(preserved[i..], weigh)
    then FirstFit(preserved, weigh, recentTokens, limit, i + 1)
    else i
  }

  /** First position, from `i` on, at which the remaining groups fit beside the preserved events. */
  function Cut(groups: seq<Group>, preservedTokens: nat, limit: nat, i: nat): (r: nat)
    requires i <= |groups|
    ensures i <= r <= |groups|
    ensures r < |groups| ==> Total(groups[r..]) + preservedTokens <= limit
    ensures forall k :: i <= k < r ==> limit < Total(groups[k..]) + preservedTokens
    decreases |groups| - i
  {
    if i < |groups| && limit < Total(groups[i..]) + preservedTokens
    then Cut(groups, preservedTokens, limit, i + 1)
    else i
  }

  function Limit(budget: int): nat {
    if budget < 0 then 0 else budget
  }

  function OlderUsers(before: seq<Group>): seq<Event> {
    SortBySequence(Where(EventsOf(before), UsersAmong()))
  }

  /** The older user events that fit their own target. */
  function Candidates(before: seq<Group>, policy: Policy, weigh: Weigh): seq<Event> {
    SortBySequence(KeepNewest(OlderUsers(before), policy.olderUsersTarget, weigh, 0))
  }

  function Start(groups: seq<Group>, policy: Policy): (start: nat)
    ensures start <= |groups|
  {
    RecentStart(groups, policy, |groups|)
  }

  function Kept(groups: seq<Group>, policy: Policy, weigh: Weigh, budget: int): seq<Event> {
    var start := Start(groups, policy);
    var all := Candidates(groups[..start], policy, weigh);
    all[FirstFit(all, weigh, Total(groups[start..]), Limit(budget), 0)..]
  }

  function Select(groups: seq<Group>, policy: Policy, weigh: Weigh, budget: int): Selection {
    var preserved := Kept(groups, policy, weigh, budget);
    var cut := Cut(groups, Weight(preserved, weigh), Limit(budget), Start(groups, policy));
    Selection(groups[cut..], groups[..cut], preserved, Total(groups[cut..]), Weight(preserved, weigh))
  }

  /** The last event the summary covers. */
  function Through(s: Selection): nat {
    if s.summary == [] || s.summary[|s.summary| - 1].events == [] then 0
    else s.summary[|s.summary| - 1].events[|s.summary[|s.summary| - 1].events| - 1].sequence
  }

  // ---- sums ----

  lemma {:induction false} TotalSnoc(groups: seq<Group>, i: nat)
    requires i < |groups|
    ensures Total(groups[i..]) == groups[i].tokens + Total(groups[i + 1..])
  {
    assert groups[i..][1..] == groups[i + 1..];
  }

  lemma {:induction false} EventsOfConcat(a: seq<Group>, b: seq<Group>)
    ensures EventsOf(a + b) == EventsOf(a) + EventsOf(b)
  {
    if a == [] {
      assert a + b == b;
    } else {
      assert (a + b)[1..] == a[1..] + b;
      EventsOfConcat(a[1..], b);
    }
  }

  lemma {:induction false} WeightConcat(a: seq<Event>, b: seq<Event>, weigh: Weigh)
    ensures Weight(a + b, weigh) == Weight(a, weigh) + Weight(b, weigh)
  {
    if a == [] {
      assert a + b == b;
    } else {
      assert (a + b)[1..] == a[1..] + b;
      WeightConcat(a[1..], b, weigh);
    }
  }

  lemma {:induction false} InsertWeight(e: Event, sorted: seq<Event>, weigh: Weigh)
    ensures Weight(InsertBySequence(e, sorted), weigh) == weigh(e.content) + Weight(sorted, weigh)
  {
    WeightConcat([e], sorted, weigh);
    assert [e][1..] == [];
    if sorted != [] && sorted[0].sequence < e.sequence {
      InsertWeight(e, sorted[1..], weigh);
      WeightConcat([sorted[0]], InsertBySequence(e, sorted[1..]), weigh);
      assert [sorted[0]][1..] == [];
    }
  }

  lemma {:induction false} SortWeight(events: seq<Event>, weigh: Weigh)
    ensures Weight(SortBySequence(events), weigh) == Weight(events, weigh)
  {
    if events != [] {
      SortWeight(events[1..], weigh);
      InsertWeight(events[0], SortBySequence(events[1..]), weigh);
    }
  }

  // ---- the selection loop ----

  method SelectCompactionHistory(groups: seq<Group>, policy: Policy, weigh: Weigh, budget: int)
      returns (s: Selection)
    ensures s == Select(groups, policy, weigh, budget)
  {
    var limit := Limit(budget);
    var start, recentTokens := TakeRecent(groups, policy);
    var kept, preservedTokens := KeepOlderUsers(OlderUsers(groups[..start]), policy.olderUsersTarget, weigh);
    SortWeight(kept, weigh);
    var preserved := SortBySequence(kept);
    preserved, preservedTokens := TrimPreserved(preserved, preservedTokens, weigh, recentTokens, limit);
    var cut: nat;
    cut, recentTokens := TrimRecent(groups, start, recentTokens, preservedTokens, limit);
    hide RecentStart, KeepNewest, FirstFit, Cut, Weight, Total;
    s := Selection(groups[cut..], groups[..cut], preserved, recentTokens, preservedTokens);
  }

  method TrimRecent(groups: seq<Group>, start: nat, allTokens: nat, preservedTokens: nat, limit: nat)
      returns (cut: nat, recentTokens: nat)
    requires start <= |groups| && allTokens == Total(groups[start..])
    ensures cut == Cut(groups, preservedTokens, limit, start)
    ensures recentTokens == Total(groups[cut..])
  {
    hide Total;
    cut, recentTokens := start, allTokens;
    while cut < |groups| && limit < recentTokens + preservedTokens
      invariant start <= cut <= |groups| && recentTokens == Total(groups[cut..])
      invariant Cut(groups, preservedTokens, limit, cut) == Cut(groups, preservedTokens, limit, start)
      decreases |groups| - cut
    {
      TotalSnoc(groups, cut);
      recentTokens := recentTokens - groups[cut].tokens;
      cut := cut + 1;
    }
  }

  /** The recent history is the shortest end of the groups that reaches both the target and the minimum, or all of them. */
  lemma {:induction false} RecentIsShortest(groups: seq<Group>, policy: Policy)
    ensures var start := Start(groups, policy);
            && (0 < start ==> policy.recentTarget <= Total(groups[start..]) && policy.minimumGroups <= |groups| - start)
            && forall k :: start < k < |groups| ==> Total(groups[k..]) < policy.recentTarget || |groups| - k < policy.minimumGroups
  {
    hide Total, RecentStart;
    forall k | Start(groups, policy) < k < |groups|
      ensures Total(groups[k..]) < policy.recentTarget || |groups| - k < policy.minimumGroups
    {
      assert !Enough(groups[k..], policy);
    }
  }

  lemma RecentStep(groups: seq<Group>, policy: Policy, i: nat)
    requires 0 < i <= |groups|
    ensures RecentStart(groups, policy, i) ==
      if policy.recentTarget <= Total(groups[i - 1..]) && policy.minimumGroups <= |groups| - (i - 1) then i - 1
      else RecentStart(groups, policy, i - 1)
    ensures Total(groups[i - 1..]) == groups[i - 1].tokens + Total(groups[i..])
  {
    TotalSnoc(groups, i - 1);
    hide Total;
  }

  method TakeRecent(groups: seq<Group>, policy: Policy) returns (start: nat, recentTokens: nat)
    ensures start == Start(groups, policy)
    ensures recentTokens == Total(groups[start..])
  {
    hide RecentStart, Enough;
    start, recentTokens := |groups|, 0;
    while start > 0
      invariant start <= |groups| && recentTokens == Total(groups[start..])
      invariant RecentStart(groups, policy, start) == RecentStart(groups, policy, |groups|)
    {
      hide Total;
      RecentStep(groups, policy, start);
      start := start - 1;
      recentTokens := recentTokens + groups[start].tokens;
      if policy.recentTarget <= recentTokens && policy.minimumGroups <= |groups| - start {
        return;
      }
    }
  }

  method KeepOlderUsers(older: seq<Event>, target: nat, weigh: Weigh)
      returns (kept: seq<Event>, spent: nat)
    ensures kept == KeepNewest(older, target, weigh, 0)
    ensures spent == Weight(kept, weigh)
  {
    kept, spent := [], 0;
    var i := |older|;
    assert older[..i] == older;
    while i > 0
      invariant i <= |older|
      invariant kept + KeepNewest(older[..i], target, weigh, spent) == KeepNewest(older, target, weigh, 0)
      invariant spent == Weight(kept, weigh)
    {
      assert older[..i][..i - 1] == older[..i - 1];
      i := i - 1;
      if spent + weigh(older[i].content) <= target {
        WeightConcat(kept, [older[i]], weigh);
        assert [older[i]][1..] == [];
        kept := kept + [older[i]];
        spent := spent + weigh(older[i].content);
      }
    }
  }

  lemma {:induction false} WeightFrom(events: seq<Event>, weigh: Weigh, i: nat)
    requires i < |events|
    ensures Weight(events[i..], weigh) == weigh(events[i].content) + Weight(events[i + 1..], weigh)
  {
    assert events[i..][1..] == events[i + 1..];
  }

  method TrimPreserved(all: seq<Event>, allTokens: nat, weigh: Weigh, recentTokens: nat, limit: nat)
      returns (preserved: seq<Event>, preservedTokens: nat)
    requires allTokens == Weight(all, weigh)
    ensures preserved == all[FirstFit(all, weigh, recentTokens, limit, 0)..]
    ensures preservedTokens == Weight(preserved, weigh)
  {
    preserved, preservedTokens := all, allTokens;
    ghost var i := 0;
    while preserved != [] && limit < recentTokens + preservedTokens
      invariant i <= |all| && preserved == all[i..] && preservedTokens == Weight(preserved, weigh)
      invariant FirstFit(all, weigh, recentTokens, limit, i) == FirstFit(all, weigh, recentTokens, limit, 0)
    {
      WeightFrom(all, weigh, i);
      preservedTokens := preservedTokens - weigh(preserved[0].content);
      preserved := preserved[1..];
      i := i + 1;
    }
  }

  // ---- what a selection promises ----

  /** With any of the first `n` events among the preserved ones the limit was exceeded. */
  ghost predicate OverLimitUpTo(recent: seq<Group>, preserved: seq<Event>, n: nat, weigh: Weigh, budget: int)
    requires n <= |preserved|
  {
    forall k :: 0 <= k < n ==> (if budget < 0 then 0 else budget) < Total(recent) + Weight(preserved[k..], weigh)
  }

  lemma {:induction false} NoTokens(groups: seq<Group>, events: seq<Event>, weigh: Weigh)
    ensures Total(groups[|groups|..]) == 0 && Weight(events[|events|..], weigh) == 0
  {
  }

  lemma {:induction false} KeptFits(groups: seq<Group>, policy: Policy, weigh: Weigh, budget: int)
    ensures Weight(Kept(groups, policy, weigh, budget), weigh) <= Limit(budget)
  {
    var start := Start(groups, policy);
    var all := Candidates(groups[..start], policy, weigh);
    var fit := FirstFit(all, weigh, Total(groups[start..]), Limit(budget), 0);
    NoTokens(groups, all, weigh);
    hide Total, Weight, RecentStart, KeepNewest, Candidates, FirstFit, Cut, Start;
    if fit == |all| {
      assert Weight(all[fit..], weigh) == 0;
    }
  }

  /** Nothing is lost or reordered, and what is kept fits the budget, which a negative request turns to 0. */
  lemma {:induction false} SelectionFits(groups: seq<Group>, policy: Policy, weigh: Weigh, budget: int)
    ensures var s := Select(groups, policy, weigh, budget);
            && s.summary + s.recent == groups
            && s.recentTokens == Total(s.recent) && s.preservedTokens == Weight(s.preserved, weigh)
            && s.recentTokens + s.preservedTokens <= if budget < 0 then 0 else budget
  {
    KeptFits(groups, policy, weigh, budget);
    NoTokens(groups, [], weigh);
    hide Total, Weight, Kept, Cut, Start;
    var preserved := Kept(groups, policy, weigh, budget);
    var cut := Cut(groups, Weight(preserved, weigh), Limit(budget), Start(groups, policy));
    if cut == |groups| {
      assert Total(groups[cut..]) == 0;
    }
  }

  /** The budget takes nothing it need not: preserved events go oldest first and only while everything
      kept is too large, groups only once no preserved event is left. */
  lemma {:induction false} SelectionTrimsOnlyWhenForced(groups: seq<Group>, policy: Policy, weigh: Weigh, budget: int)
    ensures var s, start := Select(groups, policy, weigh, budget), Start(groups, policy);
            var all := Candidates(groups[..start], policy, weigh);
            var dropped := |all| - |s.preserved|;
            && 0 <= dropped && s.preserved == all[dropped..]
            && OverLimitUpTo(groups[start..], all, dropped, weigh, budget)
            && start <= |s.summary| <= |groups|
            && (start < |s.summary| ==> s.preserved == [])
            && (forall k :: start <= k < |s.summary| ==> (if budget < 0 then 0 else budget) < Total(groups[k..]))
  {
    var start := Start(groups, policy);
    var all := Candidates(groups[..start], policy, weigh);
    NoTokens(groups, all, weigh);
    hide Total, Weight, Start, Candidates, FirstFit, Cut;
  }

  lemma {:induction false} KeepNewestAmong(older: seq<Event>, target: nat, weigh: Weigh, spent: nat)
    ensures forall e :: e in KeepNewest(older, target, weigh, spent) ==> e in older
    ensures DistinctSequences(older) ==> DistinctSequences(KeepNewest(older, target, weigh, spent))
    ensures spent <= target ==> spent + Weight(KeepNewest(older, target, weigh, spent), weigh) <= target
  {
    if older != [] {
      var front, last := older[..|older| - 1], older[|older| - 1];
      KeepNewestAmong(front, target, weigh, spent);
      KeepNewestAmong(front, target, weigh, spent + weigh(last.content));
      assert older == front + [last];
      var rest := KeepNewest(front, target, weigh, spent + weigh(last.content));
      if DistinctSequences(older) {
        forall i | 0 <= i < |rest| ensures rest[i].sequence != last.sequence {
          assert rest[i] in front;
        }
      }
    }
  }

  /** Those of the events that come later than `n`. */
  function LaterThan(n: nat): Event -> bool {
    (e: Event) => n < e.sequence
  }

  lemma {:induction false} WhereFirst(first: Event, rest: seq<Event>, p: Event -> bool)
    ensures Where([first] + rest, p) == (if p(first) then [first] else []) + Where(rest, p)
  {
    WhereConcat([first], rest, p);
    assert [first][..0] == [];
  }

  lemma {:induction false} WeightFirst(first: Event, rest: seq<Event>, weigh: Weigh)
    ensures Weight([first] + rest, weigh) == weigh(first.content) + Weight(rest, weigh)
  {
    assert ([first] + rest)[1..] == rest;
  }

  function TakenFirst(taken: bool, last: Event, rest: seq<Event>): seq<Event> {
    if taken then [last] + rest else rest
  }

  lemma {:induction false} NewestTakenOrNot(older: seq<Event>, target: nat, weigh: Weigh, spent: nat)
    requires older != []
    ensures var front, last := older[..|older| - 1], older[|older| - 1];
            var taken := spent + weigh(last.content) <= target;
            var rest := KeepNewest(front, target, weigh, if taken then spent + weigh(last.content) else spent);
            KeepNewest(older, target, weigh, spent) == TakenFirst(taken, last, rest)
  {
  }

  lemma {:induction false} LastTakenIff(taken: bool, last: Event, rest: seq<Event>, weigh: Weigh)
    requires forall x :: x in rest ==> x.sequence < last.sequence
    ensures last in TakenFirst(taken, last, rest) <==> taken
    ensures Weight(Where(TakenFirst(taken, last, rest), LaterThan(last.sequence)), weigh) == 0
  {
    NoneIsLater(TakenFirst(taken, last, rest), last.sequence, weigh);
    hide Where, Weight;
  }

  lemma {:induction false} EarlierTakenIff(taken: bool, last: Event, rest: seq<Event>, e: Event, weigh: Weigh)
    requires e.sequence < last.sequence
    ensures e in TakenFirst(taken, last, rest) <==> e in rest
    ensures Weight(Where(TakenFirst(taken, last, rest), LaterThan(e.sequence)), weigh)
         == (if taken then weigh(last.content) else 0) + Weight(Where(rest, LaterThan(e.sequence)), weigh)
  {
    WhereFirst(last, rest, LaterThan(e.sequence));
    WeightFirst(last, Where(rest, LaterThan(e.sequence)), weigh);
    hide Where, Weight;
  }

  lemma {:induction false} OnlyLastIsLast(older: seq<Event>, e: Event)
    requires Increasing(older) && e in older
    ensures var front, last := older[..|older| - 1], older[|older| - 1];
            && Increasing(front) && (forall x :: x in front ==> x.sequence < last.sequence)
            && (e != last ==> e in front)
  {
  }

  /** An older user event is kept exactly if it fits beside the later ones that are kept. */
  lemma {:induction false} KeepNewestIff(older: seq<Event>, target: nat, weigh: Weigh, spent: nat, e: Event)
    requires Increasing(older) && e in older
    ensures var kept := KeepNewest(older, target, weigh, spent);
            e in kept <==> spent + weigh(e.content) + Weight(Where(kept, LaterThan(e.sequence)), weigh) <= target
    decreases |older|
  {
    hide *;
    var front, last := older[..|older| - 1], older[|older| - 1];
    var taken := spent + weigh(last.content) <= target;
    var left := if taken then spent + weigh(last.content) else spent;
    var rest := KeepNewest(front, target, weigh, left);
    NewestTakenOrNot(older, target, weigh, spent);
    KeepNewestAmong(front, target, weigh, left);
    OnlyLastIsLast(older, e);
    if e == last {
      LastTakenIff(taken, last, rest, weigh);
    } else {
      KeepNewestIff(front, target, weigh, left, e);
      EarlierTakenIff(taken, last, rest, e, weigh);
    }
  }

  lemma {:induction false} NoneIsLater(events: seq<Event>, n: nat, weigh: Weigh)
    requires forall e :: e in events ==> e.sequence <= n
    ensures Weight(Where(events, LaterThan(n)), weigh) == 0
  {
    WhereNone(events, LaterThan(n));
  }

  lemma {:induction false} InsertWeighs(e: Event, sorted: seq<Event>, p: Event -> bool, weigh: Weigh)
    ensures Weight(Where(InsertBySequence(e, sorted), p), weigh) == Weight(Where([e] + sorted, p), weigh)
  {
    if sorted != [] && sorted[0].sequence < e.sequence {
      var first, rest := sorted[0], sorted[1..];
      assert sorted == [first] + rest;
      InsertWeighs(e, rest, p, weigh);
      WhereFirst(first, InsertBySequence(e, rest), p);
      WhereFirst(e, rest, p);
      WhereFirst(e, sorted, p);
      WhereFirst(first, rest, p);
      hide Where, Weight, InsertBySequence;
      WeightOfParts(first, e, Where(rest, p), p, weigh);
      WeightConcat(if p(first) then [first] else [], Where(InsertBySequence(e, rest), p), weigh);
    }
  }

  lemma {:induction false} WeightOfParts(first: Event, e: Event, rest: seq<Event>, p: Event -> bool, weigh: Weigh)
    ensures var x, y := if p(first) then [first] else [], if p(e) then [e] else [];
            Weight(x, weigh) + Weight(y + rest, weigh) == Weight(y + (x + rest), weigh)
  {
    var x, y := if p(first) then [first] else [], if p(e) then [e] else [];
    WeightConcat(y, rest, weigh);
    WeightConcat(x, rest, weigh);
    WeightConcat(y, x + rest, weigh);
  }

  lemma {:induction false} SortWeighs(events: seq<Event>, p: Event -> bool, weigh: Weigh)
    ensures Weight(Where(SortBySequence(events), p), weigh) == Weight(Where(events, p), weigh)
  {
    if events != [] {
      var first, rest := events[0], events[1..];
      assert events == [first] + rest;
      SortWeighs(rest, p, weigh);
      InsertWeighs(first, SortBySequence(rest), p, weigh);
      WhereFirst(first, SortBySequence(rest), p);
      WhereFirst(first, rest, p);
      hide Where, Weight, InsertBySequence;
      WeightConcat(if p(first) then [first] else [], Where(SortBySequence(rest), p), weigh);
      WeightConcat(if p(first) then [first] else [], Where(rest, p), weigh);
    }
  }

  /** Which older user messages survive: `fit` are those of before the recent groups that fit their own target
      beside the later ones among them, and of these the budget takes the oldest, only while everything kept is
      too large for it. */
  lemma {:induction false} OlderUsersSurviveIff(groups: seq<Group>, policy: Policy, weigh: Weigh, budget: int)
    returns (fit: seq<Event>)
    requires Increasing(EventsOf(groups))
    ensures var s, start := Select(groups, policy, weigh, budget), Start(groups, policy);
            var dropped := |fit| - |s.preserved|;
            && Increasing(fit) && (forall e :: e in fit ==> e.kind.User? && e in EventsOf(groups[..start]))
            && (forall e :: e in EventsOf(groups[..start]) && e.kind.User? ==>
                  (e in fit <==> weigh(e.content) + Weight(Where(fit, LaterThan(e.sequence)), weigh) <= policy.olderUsersTarget))
            && 0 <= dropped && s.preserved == fit[dropped..]
            && OverLimitUpTo(groups[start..], fit, dropped, weigh, budget)
  {
    hide *;
    var start := Start(groups, policy);
    fit := Candidates(groups[..start], policy, weigh);
    PreservedIsTheRest(groups, policy, weigh, budget);
    CandidatesAreUsers(groups, start, policy, weigh);
    forall e | e in EventsOf(groups[..start]) && e.kind.User?
      ensures e in fit <==> weigh(e.content) + Weight(Where(fit, LaterThan(e.sequence)), weigh) <= policy.olderUsersTarget
    {
      FitsIff(groups, start, policy, weigh, e);
    }
  }

  lemma {:induction false} PreservedIsTheRest(groups: seq<Group>, policy: Policy, weigh: Weigh, budget: int)
    ensures var s, start := Select(groups, policy, weigh, budget), Start(groups, policy);
            var all := Candidates(groups[..start], policy, weigh);
            var dropped := |all| - |s.preserved|;
            0 <= dropped && s.preserved == all[dropped..] && OverLimitUpTo(groups[start..], all, dropped, weigh, budget)
  {
    hide *;
    SelectionTrimsOnlyWhenForced(groups, policy, weigh, budget);
  }

  lemma {:induction false} FitsIff(groups: seq<Group>, start: nat, policy: Policy, weigh: Weigh, e: Event)
    requires Increasing(EventsOf(groups)) && start <= |groups| && e in EventsOf(groups[..start]) && e.kind.User?
    ensures var fit := Candidates(groups[..start], policy, weigh);
            e in fit <==> weigh(e.content) + Weight(Where(fit, LaterThan(e.sequence)), weigh) <= policy.olderUsersTarget
  {
    EventsOfConcat(groups[..start], groups[start..]);
    assert groups == groups[..start] + groups[start..];
    hide EventsOf, KeepNewest, SortBySequence, Where, Weight, Increasing;
    IncreasingPrefix(EventsOf(groups[..start]), EventsOf(groups[start..]));
    CandidateIff(EventsOf(groups[..start]), policy.olderUsersTarget, weigh, e);
  }

  lemma {:induction false} CandidateIff(before: seq<Event>, target: nat, weigh: Weigh, e: Event)
    requires Increasing(before) && e in before && e.kind.User?
    ensures var all := SortBySequence(KeepNewest(SortBySequence(Where(before, UsersAmong())), target, weigh, 0));
            e in all <==> weigh(e.content) + Weight(Where(all, LaterThan(e.sequence)), weigh) <= target
  {
    WhereIncreasing(before, UsersAmong());
    WhereMembers(before, UsersAmong());
    var users := SortBySequence(Where(before, UsersAmong()));
    SortOrders(Where(before, UsersAmong()));
    KeepNewestAmong(users, target, weigh, 0);
    var kept := KeepNewest(users, target, weigh, 0);
    SortOrders(kept);
    KeepNewestIff(users, target, weigh, 0, e);
    SortWeighs(kept, LaterThan(e.sequence), weigh);
    hide KeepNewest, SortBySequence, Where, Weight;
  }

  /** Preserved events are user events of the summarised groups, in order. */
  lemma {:induction false} PreservedAreSummarisedUsers(groups: seq<Group>, policy: Policy, weigh: Weigh, budget: int)
    requires Increasing(EventsOf(groups))
    ensures var s := Select(groups, policy, weigh, budget);
            && Increasing(s.preserved)
            && (forall e :: e in s.preserved ==> e.kind.User? && e in EventsOf(s.summary))
  {
    var s, start := Select(groups, policy, weigh, budget), Start(groups, policy);
    SelectionTrimsOnlyWhenForced(groups, policy, weigh, budget);
    CandidatesAreUsers(groups, start, policy, weigh);
    SelectionFits(groups, policy, weigh, budget);
    SummaryCovers(groups, start, |s.summary|);
    hide FirstFit, Candidates, Start, Cut, Kept, Select, EventsOf, Weight, Total;
    assert s.summary == groups[..|s.summary|];
  }

  lemma {:induction false} SummaryCovers(groups: seq<Group>, start: nat, cut: nat)
    requires start <= cut <= |groups|
    ensures forall e :: e in EventsOf(groups[..start]) ==> e in EventsOf(groups[..cut])
  {
    assert groups[..cut] == groups[..start] + groups[start..cut];
    EventsOfConcat(groups[..start], groups[start..cut]);
  }

  lemma {:induction false} IncreasingPrefix(a: seq<Event>, b: seq<Event>)
    requires Increasing(a + b)
    ensures Increasing(a)
  {
    forall i, j | 0 <= i < j < |a| ensures a[i].sequence < a[j].sequence {
      assert (a + b)[i] == a[i] && (a + b)[j] == a[j];
    }
  }

  lemma {:induction false} CandidatesAreUsers(groups: seq<Group>, start: nat, policy: Policy, weigh: Weigh)
    requires Increasing(EventsOf(groups)) && start <= |groups|
    ensures var all := Candidates(groups[..start], policy, weigh);
            Increasing(all) && forall e :: e in all ==> e.kind.User? && e in EventsOf(groups[..start])
  {
    hide EventsOf, KeepNewest, SortBySequence, Where, RecentStart;
    EventsOfConcat(groups[..start], groups[start..]);
    assert groups == groups[..start] + groups[start..];
    IncreasingPrefix(EventsOf(groups[..start]), EventsOf(groups[start..]));
    PreservedOf(EventsOf(groups[..start]), policy.olderUsersTarget, weigh);
  }

  lemma {:induction false} PreservedOf(before: seq<Event>, target: nat, weigh: Weigh)
    requires Increasing(before)
    ensures var all := SortBySequence(KeepNewest(SortBySequence(Where(before, UsersAmong())), target, weigh, 0));
            Increasing(all) && forall e :: e in all ==> e.kind.User? && e in before
  {
    WhereIncreasing(before, UsersAmong());
    WhereMembers(before, UsersAmong());
    var users := SortBySequence(Where(before, UsersAmong()));
    SortOrders(Where(before, UsersAmong()));
    KeepNewestAmong(users, target, weigh, 0);
    SortOrders(KeepNewest(users, target, weigh, 0));
  }
}
