/** Which tool results leave the active context: every oversized one, then the largest of the
    rest until the round fits its cap. */
module Offload {
  import opened Wrappers
  import Preview
  import Utf8

  datatype Policy = Policy(singleResultTokens: nat, roundTokens: nat, previewRatio: real, previewMaxTokens: nat) {
    predicate Valid() {
      singleResultTokens >= 1 && roundTokens >= 1 && previewMaxTokens >= 1 && 0.0 < previewRatio <= 1.0
    }
  }

  datatype Candidate = Candidate(sequence: nat, tokens: nat)

  datatype Reason = SingleResult | RoundTotal

  datatype Choice = Choice(candidate: Candidate, reason: Reason)

  function PreviewBudget(tokens: nat, policy: Policy): (budget: nat)
    requires policy.Valid()
    ensures 1 <= budget <= policy.previewMaxTokens
  {
    var share := (tokens as real * policy.previewRatio).Floor;
    var atLeastOne := if share < 1 then 1 else share;
    if atLeastOne < policy.previewMaxTokens then atLeastOne else policy.previewMaxTokens
  }

  /** The share of the result that its preview may take, rounded down: at least one token and no more than the maximum. */
  lemma {:induction false} PreviewBudgetIsShare(tokens: nat, policy: Policy)
    requires policy.Valid()
    ensures var budget, share := PreviewBudget(tokens, policy), tokens as real * policy.previewRatio;
            && (budget > 1 ==> budget as real <= share)
            && (budget < policy.previewMaxTokens ==> share < (budget + 1) as real)
  {
    var share := tokens as real * policy.previewRatio;
    assert 0.0 <= share;
  }

  /** Larger first, then earlier first. */
  predicate Before(a: Candidate, b: Candidate) {
    a.tokens > b.tokens || (a.tokens == b.tokens && a.sequence <= b.sequence)
  }

  function Insert(c: Candidate, sorted: seq<Candidate>): seq<Candidate> {
    if sorted == [] then [c]
    else if Before(c, sorted[0]) then [c] + sorted
    else [sorted[0]] + Insert(c, sorted[1..])
  }

  function Sorted(cs: seq<Candidate>): seq<Candidate> {
    if cs == [] then [] else Insert(cs[0], Sorted(cs[1..]))
  }

  ghost predicate Ordered(cs: seq<Candidate>) {
    forall i, j :: 0 <= i < j < |cs| ==>
      cs[j].tokens <= cs[i].tokens && (cs[i].tokens == cs[j].tokens ==> cs[i].sequence <= cs[j].sequence)
  }

  ghost predicate DistinctCandidates(cs: seq<Candidate>) {
    forall i, j :: 0 <= i < j < |cs| ==> cs[i].sequence != cs[j].sequence
  }

  lemma {:induction false} InsertPermutes(c: Candidate, cs: seq<Candidate>)
    ensures multiset(Insert(c, cs)) == multiset{c} + multiset(cs)
  {
    if cs != [] {
      assert cs == [cs[0]] + cs[1..];
      InsertPermutes(c, cs[1..]);
    }
  }

  lemma {:induction false} InsertOrdered(c: Candidate, cs: seq<Candidate>)
    requires Ordered(cs)
    ensures Ordered(Insert(c, cs))
  {
    if cs != [] && !Before(c, cs[0]) {
      InsertOrdered(c, cs[1..]);
      InsertPermutes(c, cs[1..]);
      var tail := Insert(c, cs[1..]);
      forall k | 0 <= k < |tail| ensures Before(cs[0], tail[k]) {
        assert tail[k] in multiset(tail);
        assert tail[k] == c || tail[k] in cs[1..];
      }
    }
  }

  lemma {:induction false} SortedIsOrdered(cs: seq<Candidate>)
    ensures Ordered(Sorted(cs))
    ensures multiset(Sorted(cs)) == multiset(cs)
  {
    if cs != [] {
      SortedIsOrdered(cs[1..]);
      InsertOrdered(cs[0], Sorted(cs[1..]));
      InsertPermutes(cs[0], Sorted(cs[1..]));
      assert cs == [cs[0]] + cs[1..];
    }
  }

  /** Tokens a round shows once the results in `chosen` are previews. */
  function ActiveTokens(cs: seq<Candidate>, chosen: set<nat>, policy: Policy): int
    requires policy.Valid()
  {
    if cs == [] then 0
    else (if cs[0].sequence in chosen then PreviewBudget(cs[0].tokens, policy) else cs[0].tokens)
         + ActiveTokens(cs[1..], chosen, policy)
  }

  function Oversized(order: seq<Candidate>, policy: Policy): seq<Choice> {
    if order == [] then []
    else (if order[0].tokens > policy.singleResultTokens then [Choice(order[0], SingleResult)] else [])
         + Oversized(order[1..], policy)
  }

  function Remaining(order: seq<Candidate>, policy: Policy): seq<Candidate> {
    if order == [] then []
    else (if order[0].tokens > policy.singleResultTokens then [] else [order[0]]) + Remaining(order[1..], policy)
  }

  /** One more result leaves at a time, until the total fits or nothing is left. */
  function RoundChoices(remaining: seq<Candidate>, total: int, policy: Policy): seq<Choice>
    requires policy.Valid()
  {
    if remaining == [] then []
    else
      var left := total - (remaining[0].tokens - PreviewBudget(remaining[0].tokens, policy));
      [Choice(remaining[0], RoundTotal)]
      + (if left <= policy.roundTokens then [] else RoundChoices(remaining[1..], left, policy))
  }

  function Plan(results: seq<Candidate>, policy: Policy): seq<Choice>
    requires policy.Valid()
  {
    var order := Sorted(results);
    var singles := Oversized(order, policy);
    var total := ActiveTokens(results, Sequences(singles), policy);
    singles + (if total <= policy.roundTokens then [] else RoundChoices(Remaining(order, policy), total, policy))
  }

  function Sequences(choices: seq<Choice>): set<nat> {
    set c | c in choices :: c.candidate.sequence
  }

  lemma {:induction false} OversizedStep(order: seq<Candidate>, policy: Policy, i: nat, planned: seq<Choice>)
    requires i < |order|
    ensures var more := if order[i].tokens > policy.singleResultTokens then [Choice(order[i], SingleResult)] else [];
            && planned + Oversized(order[i..], policy) == (planned + more) + Oversized(order[i + 1..], policy)
            && planned + [] == planned
  {
    assert order[i..][1..] == order[i + 1..];
  }

  method ChooseOversized(order: seq<Candidate>, policy: Policy) returns (planned: seq<Choice>)
    ensures planned == Oversized(order, policy)
  {
    planned := [];
    for i := 0 to |order|
      invariant planned + Oversized(order[i..], policy) == Oversized(order, policy)
    {
      OversizedStep(order, policy, i, planned);
      hide Oversized;
      if order[i].tokens > policy.singleResultTokens {
        planned := planned + [Choice(order[i], SingleResult)];
      }
    }
    assert Oversized(order[|order|..], policy) == [];
  }

  method ChooseForRound(remaining: seq<Candidate>, activeTotal: int, policy: Policy) returns (planned: seq<Choice>)
    requires policy.Valid()
    ensures planned == RoundChoices(remaining, activeTotal, policy)
  {
    hide PreviewBudget;
    ghost var full := RoundChoices(remaining, activeTotal, policy);
    planned := [];
    var total := activeTotal;
    var left := remaining;
    while left != []
      invariant full == planned + RoundChoices(left, total, policy)
      decreases |left|
    {
      var choice := Choice(left[0], RoundTotal);
      var after := total - (left[0].tokens - PreviewBudget(left[0].tokens, policy));
      ChoiceStep(planned, left, total, policy);
      planned := planned + [choice];
      if after <= policy.roundTokens {
        return;
      }
      left, total := left[1..], after;
    }
  }

  lemma ChoiceStep(planned: seq<Choice>, left: seq<Candidate>, total: int, policy: Policy)
    requires policy.Valid() && left != []
    ensures var after := total - (left[0].tokens - PreviewBudget(left[0].tokens, policy));
            planned + RoundChoices(left, total, policy)
            == planned + [Choice(left[0], RoundTotal)]
               + (if after <= policy.roundTokens then [] else RoundChoices(left[1..], after, policy))
  {
    hide PreviewBudget;
  }

  /** One round's results: the two passes over the candidates with their running total. */
  method PlanRound(results: seq<Candidate>, policy: Policy) returns (planned: seq<Choice>)
    requires policy.Valid()
    ensures planned == Plan(results, policy)
  {
    var order := Sorted(results);
    planned := ChooseOversized(order, policy);
    var total := ActiveTokens(results, Sequences(planned), policy);
    if total > policy.roundTokens {
      var more := ChooseForRound(Remaining(order, policy), total, policy);
      planned := planned + more;
    }
  }

  lemma {:induction false} ChoosingOne(cs: seq<Candidate>, chosen: set<nat>, c: Candidate, policy: Policy)
    requires policy.Valid() && DistinctCandidates(cs)
    requires c.sequence !in chosen
    ensures c !in cs && (forall d | d in cs :: d.sequence != c.sequence)
            ==> ActiveTokens(cs, chosen + {c.sequence}, policy) == ActiveTokens(cs, chosen, policy)
    ensures c in cs ==>
      ActiveTokens(cs, chosen + {c.sequence}, policy)
      == ActiveTokens(cs, chosen, policy) - (c.tokens - PreviewBudget(c.tokens, policy))
  {
    if cs != [] {
      ChoosingOne(cs[1..], chosen, c, policy);
      if c == cs[0] {
        assert forall d | d in cs[1..] :: d.sequence != c.sequence;
      } else if c in cs {
        assert c in cs[1..];
        assert cs[0].sequence != c.sequence;
      }
    }
  }

  lemma {:induction false} OversizedMembers(order: seq<Candidate>, policy: Policy)
    ensures forall c :: Choice(c, SingleResult) in Oversized(order, policy)
                   <==> c in order && c.tokens > policy.singleResultTokens
    ensures forall d :: d in Oversized(order, policy) ==> d.reason == SingleResult
  {
    if order != [] { OversizedMembers(order[1..], policy); }
  }

  lemma {:induction false} RemainingMembers(order: seq<Candidate>, policy: Policy)
    ensures forall c :: c in Remaining(order, policy) <==> c in order && c.tokens <= policy.singleResultTokens
    ensures multiset(Remaining(order, policy)) <= multiset(order)
  {
    if order != [] {
      RemainingMembers(order[1..], policy);
      assert order == [order[0]] + order[1..];
    }
  }

  lemma {:induction false} RemainingOrdered(order: seq<Candidate>, policy: Policy)
    requires Ordered(order)
    ensures Ordered(Remaining(order, policy))
  {
    if order != [] {
      RemainingOrdered(order[1..], policy);
      RemainingMembers(order[1..], policy);
    }
  }

  function Candidates(choices: seq<Choice>): seq<Candidate> {
    seq(|choices|, i requires 0 <= i < |choices| => choices[i].candidate)
  }

  ghost predicate RoundRuleHolds(results: seq<Candidate>, remaining: seq<Candidate>, chosen: set<nat>,
                                 picks: seq<Choice>, policy: Policy)
    requires policy.Valid()
  {
    && |picks| <= |remaining|
    && (forall i :: 0 <= i < |picks| ==> picks[i] == Choice(remaining[i], RoundTotal))
    && (ActiveTokens(results, chosen + Sequences(picks), policy) <= policy.roundTokens || |picks| == |remaining|)
    && (picks != [] ==>
          ActiveTokens(results, chosen + Sequences(picks[..|picks| - 1]), policy) > policy.roundTokens)
  }

  lemma SequencesCons(c: Choice, rest: seq<Choice>, chosen: set<nat>)
    ensures chosen + Sequences([c] + rest) == chosen + {c.candidate.sequence} + Sequences(rest)
  {
    assert forall d :: d in [c] + rest <==> d == c || d in rest;
    assert Sequences([c] + rest) == {c.candidate.sequence} + Sequences(rest) by {
      forall x | x in Sequences(rest) ensures x in Sequences([c] + rest) {
        var d :| d in rest && d.candidate.sequence == x;
        assert d in [c] + rest;
      }
      assert c in [c] + rest;
    }
  }

  lemma RoundRuleStep(results: seq<Candidate>, remaining: seq<Candidate>, chosen: set<nat>, rest: seq<Choice>, policy: Policy)
    requires policy.Valid() && remaining != []
    requires ActiveTokens(results, chosen, policy) > policy.roundTokens
    requires var next := chosen + {remaining[0].sequence};
             if ActiveTokens(results, next, policy) <= policy.roundTokens then rest == []
             else RoundRuleHolds(results, remaining[1..], next, rest, policy)
    ensures RoundRuleHolds(results, remaining, chosen, [Choice(remaining[0], RoundTotal)] + rest, policy)
  {
    hide ActiveTokens, PreviewBudget;
    var c := Choice(remaining[0], RoundTotal);
    var picks := [c] + rest;
    SequencesCons(c, rest, chosen);
    hide Sequences;
    if rest == [] {
      assert picks[..|picks| - 1] == [];
      NoSequences(chosen);
      NoSequences(chosen + {remaining[0].sequence});
    } else {
      assert picks[..|picks| - 1] == [c] + rest[..|rest| - 1];
      SequencesCons(c, rest[..|rest| - 1], chosen);
    }
  }

  lemma NoSequences(chosen: set<nat>)
    ensures chosen + Sequences([]) == chosen
  {
  }

  /** The round rule takes a prefix of the remaining results, ends within the cap or with none
      left, and never takes a result the cap did not ask for. */
  lemma {:induction false} RoundRule(results: seq<Candidate>, remaining: seq<Candidate>, chosen: set<nat>, policy: Policy)
    requires policy.Valid() && DistinctCandidates(results) && DistinctCandidates(remaining)
    requires forall c | c in remaining :: c in results && c.sequence !in chosen
    requires ActiveTokens(results, chosen, policy) > policy.roundTokens
    ensures RoundRuleHolds(results, remaining, chosen,
                           RoundChoices(remaining, ActiveTokens(results, chosen, policy), policy), policy)
  {
    hide ActiveTokens, PreviewBudget, Sequences, RoundRuleHolds;
    if remaining == [] {
      RoundRuleNothingLeft(results, chosen, policy);
    } else {
      var c := remaining[0];
      assert c in remaining;
      ChoosingOne(results, chosen, c, policy);
      var next := chosen + {c.sequence};
      var rest := [];
      if ActiveTokens(results, next, policy) > policy.roundTokens {
        rest := RoundChoices(remaining[1..], ActiveTokens(results, next, policy), policy);
        RoundRule(results, remaining[1..], next, policy);
      }
      RoundRuleStep(results, remaining, chosen, rest, policy);
    }
  }

  lemma RoundRuleNothingLeft(results: seq<Candidate>, chosen: set<nat>, policy: Policy)
    requires policy.Valid()
    ensures RoundRuleHolds(results, [], chosen, [], policy)
  {
  }

  ghost predicate EnforcesRoundCap(results: seq<Candidate>, plan: seq<Choice>, policy: Policy)
    requires policy.Valid()
  {
    // every oversized result leaves, and nothing leaves for size alone that was not oversized
    && (forall c | c in results && c.tokens > policy.singleResultTokens :: Choice(c, SingleResult) in plan)
    && (forall d | d in plan :: d.candidate in results)
    && (forall d | d in plan :: d.reason == SingleResult <==> d.candidate.tokens > policy.singleResultTokens)
    // the round fits, unless every result has already left
    && (ActiveTokens(results, Sequences(plan), policy) <= policy.roundTokens
        || forall c | c in results :: c.sequence in Sequences(plan))
    // the last result to leave for the round was still needed
    && (plan != [] && plan[|plan| - 1].reason == RoundTotal ==>
        ActiveTokens(results, Sequences(plan[..|plan| - 1]), policy) > policy.roundTokens)
    // whatever stays is no larger than anything the round rule took
    && (forall c, d | c in results && d in plan && c.sequence !in Sequences(plan) && d.reason == RoundTotal ::
        c.tokens <= d.candidate.tokens)
  }

  lemma DistinctSurvivesReordering(cs: seq<Candidate>, other: seq<Candidate>)
    requires DistinctCandidates(cs) && multiset(other) <= multiset(cs)
    ensures DistinctCandidates(other)
  {
    forall i, j | 0 <= i < j < |other| ensures other[i].sequence != other[j].sequence {
      assert other[i] in multiset(other) && other[j] in multiset(other);
      if other[i].sequence == other[j].sequence {
        var k :| 0 <= k < |cs| && cs[k] == other[i];
        assert other[i] == other[j];
        assert other == other[..i] + [other[i]] + other[i + 1..j] + [other[j]] + other[j + 1..];
        assert multiset(other)[other[i]] >= 2;
        AtMostOnce(cs, k);
      }
    }
  }

  lemma AtMostOnce(cs: seq<Candidate>, k: nat)
    requires DistinctCandidates(cs) && k < |cs|
    ensures multiset(cs)[cs[k]] == 1
  {
    assert cs == cs[..k] + [cs[k]] + cs[k + 1..];
    assert cs[k] !in cs[..k] && cs[k] !in cs[k + 1..];
  }

  lemma ChosenConcat(a: seq<Choice>, b: seq<Choice>)
    ensures Sequences(a + b) == Sequences(a) + Sequences(b)
  {
    forall x | x in Sequences(a) + Sequences(b) ensures x in Sequences(a + b) {
      if x in Sequences(a) {
        var d :| d in a && d.candidate.sequence == x;
        assert d in a + b;
      } else {
        var d :| d in b && d.candidate.sequence == x;
        assert d in a + b;
      }
    }
  }

  /** Oversized results and the rest are told apart by their sequence numbers as well. */
  lemma RestIsUnchosen(results: seq<Candidate>, policy: Policy)
    requires DistinctCandidates(results)
    ensures var order := Sorted(results);
            && DistinctCandidates(Remaining(order, policy)) && Ordered(Remaining(order, policy))
            && (forall c | c in Remaining(order, policy) ::
                  c in results && c.sequence !in Sequences(Oversized(order, policy)))
            && (forall c :: c in order <==> c in results)
  {
    hide Sorted, Oversized, Remaining;
    var order := Sorted(results);
    SortedIsOrdered(results);
    assert forall c :: c in results <==> c in multiset(order);
    OversizedMembers(order, policy);
    RemainingMembers(order, policy);
    RemainingOrdered(order, policy);
    assert DistinctCandidates(Remaining(order, policy)) by {
      DistinctSurvivesReordering(results, Remaining(order, policy));
    }
    forall c | c in Remaining(order, policy) ensures c.sequence !in Sequences(Oversized(order, policy)) {
      if c.sequence in Sequences(Oversized(order, policy)) {
        var d :| d in Oversized(order, policy) && d.candidate.sequence == c.sequence;
        assert d == Choice(d.candidate, SingleResult);
        SameSequenceSameCandidate(results, c, d.candidate);
      }
    }
  }

  lemma SameSequenceSameCandidate(cs: seq<Candidate>, a: Candidate, b: Candidate)
    requires DistinctCandidates(cs) && a in cs && b in cs && a.sequence == b.sequence
    ensures a == b
  {
    var i :| 0 <= i < |cs| && cs[i] == a;
    var j :| 0 <= j < |cs| && cs[j] == b;
    assert i == j;
  }

  lemma PlanEnforcesRoundCap(results: seq<Candidate>, policy: Policy)
    requires policy.Valid() && DistinctCandidates(results)
    ensures EnforcesRoundCap(results, Plan(results, policy), policy)
  {
    hide ActiveTokens, Oversized, Remaining, RoundChoices, Sorted;
    var order := Sorted(results);
    var singles, remaining := Oversized(order, policy), Remaining(order, policy);
    RestIsUnchosen(results, policy);
    OversizedMembers(order, policy);
    RemainingMembers(order, policy);
    var plan := Plan(results, policy);
    var chosen := Sequences(singles);
    assert forall d | d in singles :: d == Choice(d.candidate, SingleResult);
    if ActiveTokens(results, chosen, policy) > policy.roundTokens {
      RoundRule(results, remaining, chosen, policy);
      var picks := RoundChoices(remaining, ActiveTokens(results, chosen, policy), policy);
      PlanWithPicks(results, policy, singles, picks, remaining);
    } else {
      assert plan == singles;
    }
  }

  /** A plan of both passes: `picks` are taken from `remaining` in order. */
  ghost predicate Planned(results: seq<Candidate>, policy: Policy, singles: seq<Choice>, picks: seq<Choice>,
                          remaining: seq<Candidate>)
    requires policy.Valid()
  {
    && (forall d | d in singles :: d == Choice(d.candidate, SingleResult))
    && (forall c :: Choice(c, SingleResult) in singles <==> c in results && c.tokens > policy.singleResultTokens)
    && (forall c :: c in remaining <==> c in results && c.tokens <= policy.singleResultTokens)
    && Ordered(remaining)
    && RoundRuleHolds(results, remaining, Sequences(singles), picks, policy)
  }

  /** What stays was in line behind everything picked. */
  lemma StaysInLine(results: seq<Candidate>, policy: Policy, singles: seq<Choice>, picks: seq<Choice>,
                    remaining: seq<Candidate>, c: Candidate)
    requires policy.Valid() && Planned(results, policy, singles, picks, remaining)
    requires c in results && c.sequence !in Sequences(singles + picks)
    ensures exists k :: |picks| <= k < |remaining| && remaining[k] == c
  {
    hide ActiveTokens;
    assert Choice(c, SingleResult) !in singles + picks;
    assert forall k :: 0 <= k < |picks| ==> picks[k] in singles + picks;
    var k :| 0 <= k < |remaining| && remaining[k] == c;
  }

  lemma PlanMembers(results: seq<Candidate>, policy: Policy, singles: seq<Choice>, picks: seq<Choice>,
                    remaining: seq<Candidate>, d: Choice)
    requires policy.Valid() && Planned(results, policy, singles, picks, remaining) && d in singles + picks
    ensures d.candidate in results && (d.reason == SingleResult <==> d.candidate.tokens > policy.singleResultTokens)
  {
    hide ActiveTokens;
    if d !in singles {
      var k :| 0 <= k < |picks| && picks[k] == d;
      assert remaining[k] in remaining;
    }
  }

  lemma PlanOrder(results: seq<Candidate>, policy: Policy, singles: seq<Choice>, picks: seq<Choice>,
                  remaining: seq<Candidate>, c: Candidate, d: Choice)
    requires policy.Valid() && Planned(results, policy, singles, picks, remaining)
    requires c in results && c.sequence !in Sequences(singles + picks) && d in singles + picks && d.reason == RoundTotal
    ensures c.tokens <= d.candidate.tokens
  {
    StaysInLine(results, policy, singles, picks, remaining, c);
    hide ActiveTokens, Sequences;
    var k :| |picks| <= k < |remaining| && remaining[k] == c;
    var j :| 0 <= j < |picks| && picks[j] == d;
    assert Before(remaining[j], remaining[k]);
  }

  lemma PlanTotals(results: seq<Candidate>, policy: Policy, singles: seq<Choice>, picks: seq<Choice>,
                   remaining: seq<Candidate>)
    requires policy.Valid() && Planned(results, policy, singles, picks, remaining)
    ensures var plan := singles + picks;
            && (ActiveTokens(results, Sequences(plan), policy) <= policy.roundTokens || |picks| == |remaining|)
            && (picks != [] ==> ActiveTokens(results, Sequences(plan[..|plan| - 1]), policy) > policy.roundTokens)
            && (picks == [] && plan != [] ==> plan[|plan| - 1].reason == SingleResult)
  {
    hide ActiveTokens, Sequences, Ordered;
    var plan := singles + picks;
    ChosenConcat(singles, picks);
    if picks != [] {
      assert plan[..|plan| - 1] == singles + picks[..|picks| - 1];
      ChosenConcat(singles, picks[..|picks| - 1]);
    } else if plan != [] {
      assert plan[|plan| - 1] in singles;
    }
  }

  lemma PlanCovers(results: seq<Candidate>, policy: Policy, singles: seq<Choice>, picks: seq<Choice>,
                   remaining: seq<Candidate>)
    requires policy.Valid() && Planned(results, policy, singles, picks, remaining)
    ensures var plan := singles + picks;
            && (forall c | c in results && c.tokens > policy.singleResultTokens :: Choice(c, SingleResult) in plan)
            && (forall d | d in plan :: d.candidate in results)
            && (forall d | d in plan :: d.reason == SingleResult <==> d.candidate.tokens > policy.singleResultTokens)
  {
    var plan := singles + picks;
    assert forall c | c in results && c.tokens > policy.singleResultTokens :: Choice(c, SingleResult) in singles;
    hide Planned;
    assert forall d :: d in singles ==> d in plan;
    forall d | d in plan
      ensures d.candidate in results && (d.reason == SingleResult <==> d.candidate.tokens > policy.singleResultTokens)
    {
      PlanMembers(results, policy, singles, picks, remaining, d);
    }
  }

  lemma PlanFits(results: seq<Candidate>, policy: Policy, singles: seq<Choice>, picks: seq<Choice>,
                 remaining: seq<Candidate>)
    requires policy.Valid() && Planned(results, policy, singles, picks, remaining)
    ensures var plan := singles + picks;
            || ActiveTokens(results, Sequences(plan), policy) <= policy.roundTokens
            || forall c | c in results :: c.sequence in Sequences(plan)
  {
    PlanTotals(results, policy, singles, picks, remaining);
    hide *;
    if |picks| == |remaining| {
      forall c | c in results ensures c.sequence in Sequences(singles + picks) {
        if c.sequence !in Sequences(singles + picks) { StaysInLine(results, policy, singles, picks, remaining, c); }
      }
    }
  }

  lemma PlanWithPicks(results: seq<Candidate>, policy: Policy, singles: seq<Choice>, picks: seq<Choice>,
                      remaining: seq<Candidate>)
    requires policy.Valid() && Planned(results, policy, singles, picks, remaining)
    ensures EnforcesRoundCap(results, singles + picks, policy)
  {
    PlanCovers(results, policy, singles, picks, remaining);
    PlanFits(results, policy, singles, picks, remaining);
    PlanTotals(results, policy, singles, picks, remaining);
    forall c, d | c in results && d in singles + picks && c.sequence !in Sequences(singles + picks) && d.reason == RoundTotal
      ensures c.tokens <= d.candidate.tokens
    {
      PlanOrder(results, policy, singles, picks, remaining, c, d);
    }
    assert picks != [] ==> singles + picks != [];
    hide ActiveTokens, Sequences, Planned, Ordered, RoundRuleHolds;
  }

  /** The values the application ships with. */
  const DEFAULT_POLICY := Policy(5_000, 10_000, 0.10, 500)

  // ---- previews for a whole plan ----

  /** A stored result: its text, its outcome and the path it can be read at. */
  datatype Stored = Stored(output: string, success: bool, path: string)

  /** The labels of this choice's preview leave at least one token of its budget. */
  ghost predicate RoomForLabels(choice: Choice, stored: Stored, policy: Policy)
    requires policy.Valid()
  {
    Preview.LabelBytes(Utf8.ByteCount(stored.output), choice.candidate.tokens, stored.path)
    <= 4 * (PreviewBudget(choice.candidate.tokens, policy) - 1)
  }

  /** A round with some of its results replaced. */
  function ShownTokens(cs: seq<Candidate>, previews: map<nat, string>): nat {
    if cs == [] then 0
    else (if cs[0].sequence in previews then Utf8.ApproximateTokens(previews[cs[0].sequence]) else cs[0].tokens)
         + ShownTokens(cs[1..], previews)
  }

  ghost predicate WithinBudgets(cs: seq<Candidate>, previews: map<nat, string>, policy: Policy)
    requires policy.Valid()
  {
    forall c :: c in cs && c.sequence in previews ==>
      Utf8.ApproximateTokens(previews[c.sequence]) <= PreviewBudget(c.tokens, policy)
  }

  lemma {:induction false} ShownWithinActive(cs: seq<Candidate>, previews: map<nat, string>, policy: Policy)
    requires policy.Valid() && WithinBudgets(cs, previews, policy)
    ensures ShownTokens(cs, previews) <= ActiveTokens(cs, previews.Keys, policy)
  {
    hide PreviewBudget;
    if cs != [] {
      assert cs[0] in cs;
      ShownWithinActive(cs[1..], previews, policy);
    }
  }

  /** The plan of a round with a preview for each of its choices: built exactly if every choice has room
      for its labels, and then the round as shown fits its cap unless every result has left it. */
  method LightenRound(results: seq<Candidate>, policy: Policy, stored: nat -> Stored) returns (r: Option<map<nat, string>>)
    requires policy.Valid() && DistinctCandidates(results)
    ensures r.Some? <==>
      forall d :: d in Plan(results, policy) ==> RoomForLabels(d, stored(d.candidate.sequence), policy)
    ensures r.Some? ==>
      && r.value.Keys == Sequences(Plan(results, policy)) && WithinBudgets(results, r.value, policy)
      && (ShownTokens(results, r.value) <= policy.roundTokens || forall c :: c in results ==> c.sequence in r.value)
    ensures r.Some? ==>
      AllShown(Plan(results, policy), r.value, stored, policy)
  {
    hide AllShown, Shown, Preview.Shows;
    hide Plan, PreviewBudget, ActiveTokens, ShownTokens, WithinBudgets, DistinctCandidates, Sequences, RoomForLabels;
    hide Preview.LayoutCut, Preview.Metadata, Preview.FixedTokens, Preview.LabelBytes, Utf8.ByteCount, Utf8.ApproximateTokens;
    var plan := PlanRound(results, policy);
    PlannedAreResults(results, policy);
    StartWithoutPreviews(results, policy);
    NothingShown(stored, policy);
    var previews: map<nat, string> := map[];
    for i := 0 to |plan|
      invariant previews.Keys == Sequences(plan[..i]) && WithinBudgets(results, previews, policy)
      invariant forall j :: 0 <= j < i ==> RoomForLabels(plan[j], stored(plan[j].candidate.sequence), policy)
      invariant AllShown(plan[..i], previews, stored, policy)
    {
      var d := plan[i];
      var s := stored(d.candidate.sequence);
      RoomIs(d, s, policy);
      var built := Preview.BuildStored(s.output, s.output, Utf8.ByteCount(s.output), d.candidate.tokens, s.success, s.path,
                                       PreviewBudget(d.candidate.tokens, policy));
      assert d in plan;
      if built.BudgetTooSmall? {
        return None;
      }
      ShownIs(built.text, d, s, policy);
      OneMoreShown(results, previews, plan, i, built.text, stored, policy);
      OneMorePreview(results, previews, plan, i, built.text, policy);
      previews := previews[d.candidate.sequence := built.text];
    }
    assert plan[..|plan|] == plan;
    LightenedFits(results, previews, policy);
    return Some(previews);
  }

  /** The text is the preview of this choice, of its whole stored result and within its budget. */
  ghost predicate Shown(text: string, d: Choice, stored: Stored, policy: Policy)
    requires policy.Valid()
  {
    Preview.Shows(text, stored.output, stored.output, Utf8.ByteCount(stored.output), d.candidate.tokens, stored.success,
                  stored.path, PreviewBudget(d.candidate.tokens, policy))
  }

  ghost predicate AllShown(plan: seq<Choice>, previews: map<nat, string>, stored: nat -> Stored, policy: Policy)
    requires policy.Valid()
  {
    forall d :: d in plan ==>
      d.candidate.sequence in previews
      && Shown(previews[d.candidate.sequence], d, stored(d.candidate.sequence), policy)
  }

  lemma {:induction false} OneMoreShown(results: seq<Candidate>, previews: map<nat, string>, plan: seq<Choice>, i: nat,
                                        text: string, stored: nat -> Stored, policy: Policy)
    requires policy.Valid() && DistinctCandidates(results) && i < |plan| && forall d :: d in plan ==> d.candidate in results
    requires AllShown(plan[..i], previews, stored, policy) && Shown(text, plan[i], stored(plan[i].candidate.sequence), policy)
    ensures AllShown(plan[..i + 1], previews[plan[i].candidate.sequence := text], stored, policy)
  {
    var last, more := plan[i], previews[plan[i].candidate.sequence := text];
    forall d | d in plan[..i + 1]
      ensures d.candidate.sequence in more && Shown(more[d.candidate.sequence], d, stored(d.candidate.sequence), policy)
    {
      if d.candidate.sequence == last.candidate.sequence {
        SameSequenceSameCandidate(results, d.candidate, last.candidate);
        ShownIs(text, d, stored(d.candidate.sequence), policy);
        ShownIs(text, last, stored(last.candidate.sequence), policy);
        hide Shown;
      } else {
        hide Shown;
        assert d in plan[..i];
      }
    }
  }

  lemma NothingShown(stored: nat -> Stored, policy: Policy)
    requires policy.Valid()
    ensures AllShown([], map[], stored, policy)
  {
  }

  lemma ShownIs(text: string, d: Choice, stored: Stored, policy: Policy)
    requires policy.Valid()
    ensures Shown(text, d, stored, policy) <==>
      Preview.Shows(text, stored.output, stored.output, Utf8.ByteCount(stored.output), d.candidate.tokens, stored.success,
                    stored.path, PreviewBudget(d.candidate.tokens, policy))
  {
    hide Preview.Shows, PreviewBudget, Utf8.ByteCount;
  }

  lemma {:induction false} RoomIs(choice: Choice, stored: Stored, policy: Policy)
    requires policy.Valid()
    ensures RoomForLabels(choice, stored, policy) <==>
      Preview.LabelBytes(Utf8.ByteCount(stored.output), choice.candidate.tokens, stored.path)
      <= 4 * (PreviewBudget(choice.candidate.tokens, policy) - 1)
  {
  }

  lemma {:induction false} PlannedAreResults(results: seq<Candidate>, policy: Policy)
    requires policy.Valid() && DistinctCandidates(results)
    ensures forall d :: d in Plan(results, policy) ==> d.candidate in results
  {
    hide Plan;
    PlanEnforcesRoundCap(results, policy);
  }

  lemma {:induction false} LightenedFits(results: seq<Candidate>, previews: map<nat, string>, policy: Policy)
    requires policy.Valid() && DistinctCandidates(results)
    requires previews.Keys == Sequences(Plan(results, policy)) && WithinBudgets(results, previews, policy)
    ensures ShownTokens(results, previews) <= policy.roundTokens || forall c :: c in results ==> c.sequence in previews
  {
    hide Plan, ActiveTokens, ShownTokens, Sequences, WithinBudgets;
    PlanEnforcesRoundCap(results, policy);
    ShownWithinActive(results, previews, policy);
  }

  lemma {:induction false} StartWithoutPreviews(results: seq<Candidate>, policy: Policy)
    requires policy.Valid()
    ensures Sequences([]) == {} && WithinBudgets(results, map[], policy)
  {
  }

  lemma {:induction false} OneMorePreview(results: seq<Candidate>, previews: map<nat, string>, plan: seq<Choice>, i: nat,
                                          text: string, policy: Policy)
    requires policy.Valid() && DistinctCandidates(results) && i < |plan| && plan[i].candidate in results
    requires previews.Keys == Sequences(plan[..i]) && WithinBudgets(results, previews, policy)
    requires Utf8.ApproximateTokens(text) <= PreviewBudget(plan[i].candidate.tokens, policy)
    ensures var more := previews[plan[i].candidate.sequence := text];
            more.Keys == Sequences(plan[..i + 1]) && WithinBudgets(results, more, policy)
  {
    hide PreviewBudget, Utf8.ApproximateTokens;
    var d := plan[i];
    forall c | c in results && c.sequence == d.candidate.sequence ensures c == d.candidate {
      SameSequenceSameCandidate(results, c, d.candidate);
    }
    assert plan[..i + 1] == plan[..i] + [d];
    ChosenConcat(plan[..i], [d]);
    assert Sequences([d]) == {d.candidate.sequence} by { assert d in [d]; }
  }

  /** No preview of this choice can be built, whatever the result was and wherever it is kept. */
  ghost predicate CannotPreview(choice: Choice, policy: Policy)
    requires policy.Valid()
  {
    forall stored :: !RoomForLabels(choice, stored, policy)
  }

  lemma {:induction false} NothingNeedsLess(choice: Choice, policy: Policy)
    requires policy.Valid()
    ensures CannotPreview(choice, policy)
       <==> 124 + Preview.DigitCount(choice.candidate.tokens) > 4 * (PreviewBudget(choice.candidate.tokens, policy) - 1)
  {
    hide PreviewBudget;
    var least := Stored("", true, "");
    assert Utf8.ByteCount("") == 0;
    assert Preview.LabelBytes(0, choice.candidate.tokens, "") == 124 + Preview.DigitCount(choice.candidate.tokens);
    if !CannotPreview(choice, policy) {
      var stored :| RoomForLabels(choice, stored, policy);
      assert Preview.DigitCount(Utf8.ByteCount(stored.output)) >= 1;
    } else {
      assert !RoomForLabels(choice, least, policy);
    }
  }

  /** With the shipped policy these are exactly the results under 330 tokens, and those whose token count
      alone has more than 1872 digits. */
  lemma {:induction false} NeverPreviewedIff(choice: Choice)
    ensures CannotPreview(choice, DEFAULT_POLICY)
       <==> choice.candidate.tokens < 330 || Preview.DigitCount(choice.candidate.tokens) > 1872
  {
    var tokens := choice.candidate.tokens;
    NothingNeedsLess(choice, DEFAULT_POLICY);
    hide CannotPreview;
    DefaultBudget(tokens);
    FewDigits(tokens);
  }

  lemma {:induction false} FewDigits(n: nat)
    ensures n < 10 ==> Preview.DigitCount(n) <= 1
    ensures n < 100 ==> Preview.DigitCount(n) <= 2
    ensures n < 1000 ==> Preview.DigitCount(n) <= 3
    ensures n < 10000 ==> Preview.DigitCount(n) <= 4
  {
    if n >= 10 { FewDigits(n / 10); }
  }

  lemma {:induction false} DefaultBudget(tokens: nat)
    ensures var budget := PreviewBudget(tokens, DEFAULT_POLICY);
            && (tokens < 330 ==> budget <= 32) && (tokens >= 330 ==> budget >= 33)
            && (tokens >= 1000 ==> budget >= 100) && (tokens >= 5000 ==> budget == 500)
  {
  }

  /** A round that is too big only because it has many small results asks for previews that
      cannot be built: with the shipped policy every choice it makes is unbuildable, so light
      preparation fails instead of making room. */
  lemma {:induction false} SmallResultsCannotMakeRoom(results: seq<Candidate>)
    requires DistinctCandidates(results)
    requires forall c | c in results :: c.tokens < 330
    requires ActiveTokens(results, {}, DEFAULT_POLICY) > DEFAULT_POLICY.roundTokens
    ensures Plan(results, DEFAULT_POLICY) != []
    ensures forall d | d in Plan(results, DEFAULT_POLICY) :: CannotPreview(d, DEFAULT_POLICY)
  {
    hide Plan, ActiveTokens, CannotPreview;
    var plan := Plan(results, DEFAULT_POLICY);
    PlanEnforcesRoundCap(results, DEFAULT_POLICY);
    NoResultsNoTokens(DEFAULT_POLICY);
    assert results[0] in results;
    assert Sequences([]) == {};
    forall d | d in plan ensures CannotPreview(d, DEFAULT_POLICY) {
      NeverPreviewedIff(d);
    }
  }

  lemma NoResultsNoTokens(policy: Policy)
    requires policy.Valid()
    ensures ActiveTokens([], {}, policy) == 0
  {
  }

  /** Such rounds exist: any number of equal small results that together exceed the cap. */
  lemma EqualSmallResultsCannotMakeRoom(count: nat, tokens: nat)
    requires tokens < 330 && count * tokens > DEFAULT_POLICY.roundTokens
    ensures var results := seq(count, i requires 0 <= i < count => Candidate(i + 1, tokens));
            && Plan(results, DEFAULT_POLICY) != []
            && (forall d | d in Plan(results, DEFAULT_POLICY) :: CannotPreview(d, DEFAULT_POLICY))
  {
    var results := seq(count, i requires 0 <= i < count => Candidate(i + 1, tokens));
    EqualResultsTotal(results, tokens, DEFAULT_POLICY);
    SmallResultsCannotMakeRoom(results);
  }

  lemma {:induction false} EqualResultsTotal(results: seq<Candidate>, tokens: nat, policy: Policy)
    requires policy.Valid() && forall i :: 0 <= i < |results| ==> results[i].tokens == tokens
    ensures ActiveTokens(results, {}, policy) == |results| * tokens
  {
    if results != [] { EqualResultsTotal(results[1..], tokens, policy); }
  }
}
