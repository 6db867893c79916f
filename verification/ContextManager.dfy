/** Preparing a request that fits: light preparation, automatic compaction behind a breaker, and the
    hard limit no request may pass. */
module ContextManager {
  import opened Wrappers
  import opened Timeline
  import opened Projection
  import opened Selection
  import opened Compaction
  import Sessions

  /** `envelope` stands for the system prompt and tool definitions. */
  datatype Request = Request(messages: seq<Message>, supplement: string, envelope: string)

  datatype Anchor = Anchor(request: Request, tokens: nat)

  type Estimate = (Request, Option<Anchor>) -> nat

  datatype Config = Config(
    setup: Setup, estimate: Estimate, window: nat,
    automaticReserve: nat, hardReserve: nat, summaryMaximum: nat, failureLimit: nat)
  {
    /** What the policy insists on when it is made. */
    predicate Accepted() {
      1 <= hardReserve <= automaticReserve && 1 <= failureLimit && 1 <= window
    }

    function Trigger(): nat {
      if window < automaticReserve then 0 else window - automaticReserve
    }

    function HardLimit(): nat {
      if window < hardReserve then 0 else window - hardReserve
    }

    predicate Fits(request: Request, anchor: Option<Anchor>) {
      estimate(request, anchor) <= HardLimit()
    }

    function RetainedBudget(light: Request): int {
      HardLimit() - estimate(light.(messages := []), None) - summaryMaximum
    }
  }

  /** How asking the provider for a summary ends. */
  datatype Generation = Written(text: string) | TooLarge | Failed | Interrupted

  /** What one call meets: previews for the results light preparation moves out (`None` if storing one
      fails), whether that is worth reporting, rows others append meanwhile, and the generation. */
  datatype Encounter = Encounter(
    previews: Option<map<nat, string>>, report: bool, during: seq<Row>, generation: Generation)

  datatype Outcome = Sent(request: Request) | LimitExceeded | SummaryFailed | Cancelled | NotStored | RecoveryFailed

  datatype Effect = Effect(outcome: Outcome, actions: seq<Action>, failures: nat, anchor: Option<Anchor>)

  const OPEN := "<context-summary>\n"
  const BETWEEN := "\n</context-summary>\n\n<context-boundary>\n"
  const CLOSE := "\n</context-boundary>"

  function SummarySupplement(existing: string, summary: string, boundary: string): string {
    var context := OPEN + summary + BETWEEN + boundary + CLOSE;
    if existing == "" then context else existing + "\n\n" + context
  }

  function Diagnostic(result: string): Row {
    Row(ContextDiagnostic, "", None, Some(map["result" := Text(result)]))
  }

  function Note(result: string): Action {
    Append(Diagnostic(result))
  }

  /** The request with the latest summary, if there is one, in its supplement. */
  function Activated(log: seq<Event>, request: Request, boundary: string): Request {
    var summary := LatestSummary(log);
    if summary.None? then request
    else request.(supplement := SummarySupplement(request.supplement, summary.value.content, boundary))
  }

  // ---- what each call does ----

  function MakeAttempt(light: Request, c: Config, e: Encounter, trigger: string, generated: bool, text: string,
                       before: nat, after: nat): Attempt
  {
    Attempt(c.RetainedBudget(light), if e.previews.Some? then e.previews.value else map[], e.during,
            generated, text, trigger, before, after)
  }

  /** The request with its older history replaced by a summary. */
  function Compacted(light: Request, selection: Selection, text: string, boundary: string): Request {
    light.(messages := Messages(Retained(selection)), supplement := SummarySupplement(light.supplement, text, boundary))
  }

  function Compacting(log: seq<Event>, light: Request, prepared: seq<Event>, c: Config, e: Encounter,
                      trigger: string, boundary: string, failures: nat, anchor: Option<Anchor>): Effect
  {
    var selection := Choose(prepared, c.RetainedBudget(light), c.setup);
    var before := c.estimate(light, None);
    if selection.summary == [] then
      if c.Fits(Activated(log, light, boundary), None)
      then Effect(Sent(Activated(log, light, boundary)), [Note("noop")], failures, anchor)
      else Effect(LimitExceeded, [Note("blocked")], failures, anchor)
    else
      var unfinished := Compact(MakeAttempt(light, c, e, trigger, false, "", before, 0));
      match e.generation
      case TooLarge => Effect(LimitExceeded, [Note("blocked")], failures, anchor)
      case Failed => Effect(SummaryFailed, [unfinished], failures, anchor)
      case Interrupted => Effect(Cancelled, [unfinished], failures, anchor)
      case Written(text) =>
        var compacted := Compacted(light, selection, text, boundary);
        if !c.Fits(compacted, None) then Effect(LimitExceeded, [unfinished, Note("blocked")], failures, anchor)
        else
          Effect(Sent(compacted),
                 [Compact(MakeAttempt(light, c, e, trigger, true, text, before, c.estimate(compacted, None))),
                  Note("compacted")],
                 0, None)
  }

  /** After a failed compaction: the failure counts, and a request that is still too large is blocked
      unless the user asked for this compaction. */
  function AfterFailure(log: seq<Event>, light: Request, c: Config, manual: bool, boundary: string, failed: Effect): Effect {
    var activated := Activated(log, light, boundary);
    var actions := failed.actions + [Note("failed")];
    if !manual && !c.Fits(activated, None)
    then Effect(LimitExceeded, actions + [Note("blocked")], failed.failures + 1, failed.anchor)
    else Effect(Sent(activated), actions, failed.failures + 1, failed.anchor)
  }

  /** One compaction with its failure dealt with, as automatic and manual calls do. */
  function Settled(log: seq<Event>, light: Request, prepared: seq<Event>, c: Config, e: Encounter,
                   manual: bool, boundary: string, failures: nat, anchor: Option<Anchor>): Effect
  {
    var trigger := if manual then "manual" else "automatic";
    var r := Compacting(log, light, prepared, c, e, trigger, boundary, failures, anchor);
    if r.outcome.SummaryFailed? || r.outcome.LimitExceeded? then AfterFailure(log, light, c, manual, boundary, r) else r
  }

  datatype Light = Light(request: Request, prepared: seq<Event>, actions: seq<Action>, anchor: Option<Anchor>)

  function Lightened(log: seq<Event>, request: Request, e: Encounter, anchor: Option<Anchor>): Light
    requires e.previews.Some?
  {
    var prepared := WithPreviews(Active(log), e.previews.value);
    var light := request.(messages := Messages(prepared));
    if e.previews.value == map[] then Light(light, prepared, [], anchor)
    else Light(light, prepared, if e.report then [Note("offloaded")] else [], None)
  }

  function Then(first: seq<Action>, e: Effect): Effect {
    e.(actions := first + e.actions)
  }

  function Preparing(log: seq<Event>, request: Request, c: Config, e: Encounter, boundary: string,
                     failures: nat, anchor: Option<Anchor>): Effect
  {
    if e.previews.None? then Effect(NotStored, [Note("blocked")], failures, anchor)
    else
      var light := Lightened(log, request, e, anchor);
      var activated := Activated(log, light.request, boundary);
      Then(light.actions,
        if c.estimate(activated, light.anchor) < c.Trigger() then
          if c.Fits(activated, light.anchor) then Effect(Sent(activated), [], failures, light.anchor)
          else Effect(LimitExceeded, [Note("blocked")], failures, light.anchor)
        else if c.failureLimit <= failures then
          if c.Fits(activated, light.anchor) then Effect(Sent(activated), [Note("breaker")], failures, light.anchor)
          else Effect(LimitExceeded, [Note("blocked")], failures, light.anchor)
        else
          Settled(log, light.request, light.prepared, c, e, false, boundary, failures, light.anchor))
  }

  function CompactingManually(log: seq<Event>, request: Request, c: Config, e: Encounter, boundary: string,
                              failures: nat, anchor: Option<Anchor>): Effect
  {
    if e.previews.None? then Effect(NotStored, [Note("blocked")], failures, anchor)
    else
      var light := Lightened(log, request, e, anchor);
      Then(light.actions, Settled(log, light.request, light.prepared, c, e, true, boundary, failures, light.anchor))
  }

  function Recovering(log: seq<Event>, request: Request, c: Config, e: Encounter, boundary: string,
                      failures: nat, anchor: Option<Anchor>): Effect
  {
    if e.previews.None? then Effect(NotStored, [Note("blocked")], failures, anchor)
    else
      var light := Lightened(log, request, e, anchor);
      var r := Compacting(log, light.request, light.prepared, c, e, "emergency", boundary, failures, light.anchor);
      Then(light.actions,
        if r.outcome.SummaryFailed? || r.outcome.LimitExceeded?
        then Effect(RecoveryFailed, r.actions + [Note("failed")], r.failures + 1, r.anchor) else r)
  }

  // ---- what the calls promise ----

  predicate Compacts(actions: seq<Action>) {
    exists a :: a in actions && a.Compact?
  }

  predicate Succeeds(actions: seq<Action>) {
    exists a :: a in actions && a.Compact? && a.attempt.generated
  }

  /** No prepared request is sent above the hard limit. The estimate may lean on the last reported usage
      only if no compaction was tried. */
  lemma {:induction false} PreparedFits(log: seq<Event>, request: Request, c: Config, e: Encounter, boundary: string,
                                        failures: nat, anchor: Option<Anchor>)
    ensures var r := Preparing(log, request, c, e, boundary, failures, anchor);
            r.outcome.Sent? ==> c.Fits(r.outcome.request, None) || (!Compacts(r.actions) && c.Fits(r.outcome.request, r.anchor))
  {
    hide Choose, Active, WithPreviews, Messages, LatestSummary, SummarySupplement, Retained;
  }

  /** Neither is a recovered one. */
  lemma {:induction false} RecoveredFits(log: seq<Event>, request: Request, c: Config, e: Encounter, boundary: string,
                                         failures: nat, anchor: Option<Anchor>)
    ensures var r := Recovering(log, request, c, e, boundary, failures, anchor);
            r.outcome.Sent? ==> c.Fits(r.outcome.request, None)
  {
    hide Choose, Active, WithPreviews, Messages, LatestSummary, SummarySupplement, Retained;
  }

  /** When a compaction counts as failed: there is nothing to summarise and the request does not fit; or
      the summary could not be generated; or what it leaves does not fit. The second is a failed summary,
      the others are refusals of the hard limit. */
  predicate AttemptFails(log: seq<Event>, light: Request, prepared: seq<Event>, c: Config, e: Encounter, boundary: string) {
    var selection := Choose(prepared, c.RetainedBudget(light), c.setup);
    if selection.summary == [] then !c.Fits(Activated(log, light, boundary), None)
    else
      match e.generation
      case Written(text) => !c.Fits(Compacted(light, selection, text, boundary), None)
      case TooLarge => true
      case Failed => true
      case Interrupted => false
  }

  predicate AttemptSucceeds(light: Request, prepared: seq<Event>, c: Config, e: Encounter, boundary: string) {
    var selection := Choose(prepared, c.RetainedBudget(light), c.setup);
    && selection.summary != [] && e.generation.Written?
    && c.Fits(Compacted(light, selection, e.generation.text, boundary), None)
  }

  lemma {:induction false} CompactingFailsIff(log: seq<Event>, light: Request, prepared: seq<Event>, c: Config,
                                              e: Encounter, trigger: string, boundary: string, failures: nat,
                                              anchor: Option<Anchor>)
    ensures var r := Compacting(log, light, prepared, c, e, trigger, boundary, failures, anchor);
            && (r.outcome.SummaryFailed? || r.outcome.LimitExceeded? <==> AttemptFails(log, light, prepared, c, e, boundary))
            && (r.outcome.Sent? ==> c.Fits(r.outcome.request, None))
            && !r.outcome.NotStored? && !r.outcome.RecoveryFailed?
            && (Succeeds(r.actions) <==> AttemptSucceeds(light, prepared, c, e, boundary))
            && r.failures == if AttemptSucceeds(light, prepared, c, e, boundary) then 0 else failures
  {
    hide Choose, Activated, Compacted;
    var r := Compacting(log, light, prepared, c, e, trigger, boundary, failures, anchor);
    if AttemptSucceeds(light, prepared, c, e, boundary) {
      assert r.actions[0] in r.actions;
    }
  }

  /** A compaction the user asked for lets a request through above the hard limit exactly if the attempt
      fails and the request as it stands, with the latest summary, does not fit. */
  lemma {:induction false} ManualSendsAboveLimitIff(log: seq<Event>, request: Request, c: Config, e: Encounter,
                                                    boundary: string, failures: nat, anchor: Option<Anchor>)
    ensures var r := CompactingManually(log, request, c, e, boundary, failures, anchor);
            r.outcome.Sent? && !c.Fits(r.outcome.request, None) <==>
              && e.previews.Some?
              && var light := Lightened(log, request, e, anchor);
                 && AttemptFails(log, light.request, light.prepared, c, e, boundary)
                 && !c.Fits(Activated(log, light.request, boundary), None)
  {
    hide Choose, Active, WithPreviews, Messages, Activated, Compacting, AttemptFails, Succeeds;
    if e.previews.Some? {
      var light := Lightened(log, request, e, anchor);
      CompactingFailsIff(log, light.request, light.prepared, c, e, "manual", boundary, failures, light.anchor);
    }
  }

  /** The breaker's counter moves exactly so: back to 0 if a compaction was due and succeeded, up by one
      if one was due and failed, a refusal of the hard limit included, and not at all otherwise. */
  lemma {:induction false} BreakerMovesIff(log: seq<Event>, request: Request, c: Config, e: Encounter, boundary: string,
                                           failures: nat, anchor: Option<Anchor>)
    ensures var r := Preparing(log, request, c, e, boundary, failures, anchor);
            if e.previews.None? then r.failures == failures
            else
              var light := Lightened(log, request, e, anchor);
              var due := c.Trigger() <= c.estimate(Activated(log, light.request, boundary), light.anchor)
                         && failures < c.failureLimit;
              if due && AttemptSucceeds(light.request, light.prepared, c, e, boundary) then r.failures == 0
              else if due && AttemptFails(log, light.request, light.prepared, c, e, boundary) then r.failures == failures + 1
              else r.failures == failures
  {
    hide Choose, Active, WithPreviews, Messages, Activated, Compacting, AttemptFails, AttemptSucceeds, Succeeds;
    if e.previews.Some? {
      var light := Lightened(log, request, e, anchor);
      CompactingFailsIff(log, light.request, light.prepared, c, e, "automatic", boundary, failures, light.anchor);
      NotBoth(log, light.request, light.prepared, c, e, boundary);
    }
  }

  lemma {:induction false} NotBoth(log: seq<Event>, light: Request, prepared: seq<Event>, c: Config, e: Encounter,
                                   boundary: string)
    ensures !(AttemptFails(log, light, prepared, c, e, boundary) && AttemptSucceeds(light, prepared, c, e, boundary))
  {
    hide Choose, Activated, Compacted;
  }

  /** A conversation without history whose fixed part alone is over the limit. */
  function TooLongAlone(setup: Setup): Config {
    Config(setup, (r: Request, a: Option<Anchor>) => |r.supplement|, 2, 1, 1, 0, 3)
  }

  /** Such a request is sent above the limit by a compaction the user asks for; prepared automatically it
      is refused, and although no summary was ever asked for the refusal counts as a failed one. */
  lemma {:induction false} FixedPartTooLong(setup: Setup, boundary: string)
    ensures var c, request := TooLongAlone(setup), Request([], "xyz", "");
            var e := Encounter(Some(map[]), false, [], Interrupted);
            var manual := CompactingManually([], request, c, e, boundary, 0, None);
            var automatic := Preparing([], request, c, e, boundary, 0, None);
            && c.Accepted()
            && manual.outcome == Sent(request) && !c.Fits(request, None)
            && automatic.outcome.LimitExceeded? && automatic.failures == 1 && !Compacts(automatic.actions)
  {
    var c, request := TooLongAlone(setup), Request([], "xyz", "");
    var e := Encounter(Some(map[]), false, [], Interrupted);
    assert WithPreviews(Active([]), map[]) == [];
    assert Lightened([], request, e, None) == Light(request, [], [], None);
    assert Activated([], request, boundary) == request;
    assert Choose([], c.RetainedBudget(request), setup).summary == [];
    hide Choose, Active, WithPreviews, Messages, Activated;
  }

  /** Below the trigger the hard check cannot fail: a policy keeps the trigger under the limit. */
  lemma {:induction false} BelowTriggerNeverBlocks(log: seq<Event>, request: Request, c: Config, e: Encounter,
                                                   boundary: string, failures: nat, anchor: Option<Anchor>)
    requires c.Accepted() && e.previews.Some?
    requires var light := Lightened(log, request, e, anchor);
             c.estimate(Activated(log, light.request, boundary), light.anchor) < c.Trigger()
    ensures Preparing(log, request, c, e, boundary, failures, anchor).outcome.Sent?
  {
    hide Choose, Active, WithPreviews, Messages, LatestSummary, SummarySupplement, Retained, Compacting;
  }

  lemma {:induction false} CompactingCounts(log: seq<Event>, light: Request, prepared: seq<Event>, c: Config,
                                            e: Encounter, trigger: string, boundary: string, failures: nat,
                                            anchor: Option<Anchor>)
    ensures var r := Compacting(log, light, prepared, c, e, trigger, boundary, failures, anchor);
            if Succeeds(r.actions) then r.failures == 0 && r.anchor == None && r.outcome.Sent?
            else r.failures == failures && r.anchor == anchor
  {
    hide Choose, Messages, LatestSummary, SummarySupplement, Retained;
    var r := Compacting(log, light, prepared, c, e, trigger, boundary, failures, anchor);
    if r.actions != [] {
      assert r.actions[0] in r.actions;
    }
  }

  lemma {:induction false} SettledCounts(log: seq<Event>, light: Request, prepared: seq<Event>, c: Config,
                                         e: Encounter, manual: bool, boundary: string, failures: nat,
                                         anchor: Option<Anchor>)
    ensures var r := Settled(log, light, prepared, c, e, manual, boundary, failures, anchor);
            if Succeeds(r.actions) then r.failures == 0 && r.outcome.Sent?
            else r.failures == failures || r.failures == failures + 1
  {
    hide LatestSummary, SummarySupplement, Compacting;
    var trigger := if manual then "manual" else "automatic";
    var k := Compacting(log, light, prepared, c, e, trigger, boundary, failures, anchor);
    CompactingCounts(log, light, prepared, c, e, trigger, boundary, failures, anchor);
    assert Succeeds(k.actions + [Note("failed")]) <==> Succeeds(k.actions);
    assert Succeeds(k.actions + [Note("failed")] + [Note("blocked")]) <==> Succeeds(k.actions);
  }

  /** Automatic compaction is tried only behind a closed breaker; a success resets the counter, a failure
      counts once, and nothing else moves it. */
  lemma {:induction false} BreakerCounts(log: seq<Event>, request: Request, c: Config, e: Encounter, boundary: string,
                                         failures: nat, anchor: Option<Anchor>)
    ensures var r := Preparing(log, request, c, e, boundary, failures, anchor);
            && (Compacts(r.actions) ==> failures < c.failureLimit)
            && (if Succeeds(r.actions) then r.failures == 0 && r.outcome.Sent?
                else r.failures == failures || (failures < c.failureLimit && r.failures == failures + 1))
  {
    hide Active, WithPreviews, Messages, LatestSummary, SummarySupplement, Settled;
    if e.previews.Some? && failures < c.failureLimit {
      var light := Lightened(log, request, e, anchor);
      var k := Settled(log, light.request, light.prepared, c, e, false, boundary, failures, light.anchor);
      SettledCounts(log, light.request, light.prepared, c, e, false, boundary, failures, light.anchor);
      assert forall a :: a in light.actions ==> !a.Compact?;
      assert Succeeds(light.actions + k.actions) <==> Succeeds(k.actions);
    }
  }

  /** One `prepare_request` somewhere in a session. */
  datatype Call = Call(log: seq<Event>, request: Request, e: Encounter, boundary: string, anchor: Option<Anchor>)

  function FailuresAfter(failures: nat, calls: seq<Call>, c: Config): nat {
    if calls == [] then failures
    else
      var before, k := FailuresAfter(failures, calls[..|calls| - 1], c), calls[|calls| - 1];
      Preparing(k.log, k.request, c, k.e, k.boundary, before, k.anchor).failures
  }

  /** However many requests are prepared, automatic compaction never fails more often in a row than the
      limit allows: the counter stays within it and no further attempt is made once it is reached. */
  lemma {:induction false} FailuresStayWithinLimit(failures: nat, calls: seq<Call>, c: Config)
    requires failures <= c.failureLimit
    ensures FailuresAfter(failures, calls, c) <= c.failureLimit
  {
    if calls != [] {
      var front, k := calls[..|calls| - 1], calls[|calls| - 1];
      FailuresStayWithinLimit(failures, front, c);
      hide Preparing;
      BreakerCounts(k.log, k.request, c, k.e, k.boundary, FailuresAfter(failures, front, c), k.anchor);
    }
  }

  // ---- the calls as one table ----

  datatype Occasion = Automatic | Manual | Emergency

  function EffectOf(occasion: Occasion, log: seq<Event>, request: Request, c: Config, e: Encounter, boundary: string,
                    failures: nat, anchor: Option<Anchor>): Effect
  {
    match occasion
    case Automatic => Preparing(log, request, c, e, boundary, failures, anchor)
    case Manual => CompactingManually(log, request, c, e, boundary, failures, anchor)
    case Emergency => Recovering(log, request, c, e, boundary, failures, anchor)
  }

  function Tagged(supplement: string, summary: string, boundary: string): string {
    (if supplement == "" then "" else supplement + "\n\n")
    + ("<context-summary>\n" + summary + "\n</context-summary>\n\n<context-boundary>\n" + boundary + "\n</context-boundary>")
  }

  /** What a call finds: the visible history as it is shown, the request with it and with the latest summary, the hard
      limit, what is left for history, and what a compaction within that would keep. A usage report is forgotten once
      a result was moved out. */
  datatype Scene = Scene(prepared: seq<Event>, standing: Request, limit: nat, budget: int, chosen: Selection,
                         anchor: Option<Anchor>)

  function Scenery(log: seq<Event>, request: Request, c: Config, previews: map<nat, string>, boundary: string,
                   anchor: Option<Anchor>): Scene
  {
    var prepared := WithPreviews(Active(log), previews);
    var limit := if c.window < c.hardReserve then 0 else c.window - c.hardReserve;
    var budget := limit - c.estimate(request.(messages := []), None) - c.summaryMaximum;
    var supplement := match LatestSummary(log)
                      case None => request.supplement
                      case Some(summary) => Tagged(request.supplement, summary.content, boundary);
    Scene(prepared, Request(Messages(prepared), supplement, request.envelope), limit, budget,
          Select(Measured(Groups(prepared), c.setup.cost), c.setup.policy, c.setup.weigh, budget),
          if previews == map[] then anchor else None)
  }

  function Says(text: string): seq<Action> {
    [Append(Row(ContextDiagnostic, "", None, Some(map["result" := Text(text)])))]
  }

  function Replaced(s: Scene, request: Request, text: string, boundary: string): Request {
    Request(Messages(SortBySequence(s.chosen.preserved + EventsOf(s.chosen.recent))),
            Tagged(request.supplement, text, boundary), request.envelope)
  }

  /** How one compaction can go. */
  datatype Attempted = Untried | Works(sent: Request) | Nothing | Stopped | Fails

  function Attempting(occasion: Occasion, s: Scene, request: Request, c: Config, e: Encounter, boundary: string, failures: nat)
    : (how: Attempted)
    ensures how.Works? ==> e.generation.Written?
  {
    if occasion == Automatic && (c.estimate(s.standing, s.anchor) + c.automaticReserve < c.window || c.failureLimit <= failures)
    then Untried
    else if s.chosen.summary == [] then if c.estimate(s.standing, None) <= s.limit then Nothing else Fails
    else
      match e.generation
      case Interrupted => Stopped
      case Written(text) =>
        if c.estimate(Replaced(s, request, text, boundary), None) <= s.limit
        then Works(Replaced(s, request, text, boundary)) else Fails
      case _ => Fails
  }

  function TriggerOf(occasion: Occasion): string {
    match occasion case Automatic => "automatic" case Manual => "manual" case Emergency => "emergency"
  }

  /** The attempt as it is recorded: none if there was nothing to summarise or what there was is too large to summarise. */
  function Recorded(occasion: Occasion, s: Scene, request: Request, c: Config, e: Encounter, how: Attempted): seq<Action>
    requires e.previews.Some? && (how.Works? ==> e.generation.Written?)
  {
    if how.Untried? || s.chosen.summary == [] || e.generation.TooLarge? then []
    else
      var light := request.(messages := Messages(s.prepared));
      [Compact(Attempt(s.budget, e.previews.value, e.during, how.Works?, if how.Works? then e.generation.text else "",
                       TriggerOf(occasion), c.estimate(light, None), if how.Works? then c.estimate(how.sent, None) else 0))]
  }

  /** What follows from how the compaction went. */
  function Entry(occasion: Occasion, s: Scene, request: Request, c: Config, e: Encounter, how: Attempted, failures: nat): Effect
    requires e.previews.Some? && (how.Works? ==> e.generation.Written?)
  {
    var fits := c.estimate(s.standing, if how.Untried? then s.anchor else None) <= s.limit;
    var due := c.window <= c.estimate(s.standing, s.anchor) + c.automaticReserve;
    var refused := s.chosen.summary == [] || !e.generation.Failed?;
    var outcome := match how
      case Works(sent) => Sent(sent)
      case Stopped => Cancelled
      case Fails => if occasion == Emergency then RecoveryFailed
                    else if occasion == Manual || fits then Sent(s.standing) else LimitExceeded
      case _ => if fits then Sent(s.standing) else LimitExceeded;
    var notes := match how
      case Untried => if !fits then Says("blocked") else if due then Says("breaker") else []
      case Works(_) => Says("compacted")
      case Nothing => Says("noop")
      case Stopped => []
      case Fails => (if refused then Says("blocked") else []) + Says("failed")
                    + if occasion == Automatic && !fits then Says("blocked") else [];
    Effect(outcome,
           (if e.previews.value != map[] && e.report then Says("offloaded") else [])
           + (Recorded(occasion, s, request, c, e, how) + notes),
           match how case Works(_) => 0 case Fails => failures + 1 case _ => failures,
           if how.Works? then None else s.anchor)
  }

  /** What each call does, in one table. */
  function Tabled(occasion: Occasion, log: seq<Event>, request: Request, c: Config, e: Encounter, boundary: string,
                  failures: nat, anchor: Option<Anchor>): Effect
  {
    if e.previews.None? then Effect(NotStored, Says("blocked"), failures, anchor)
    else
      var s := Scenery(log, request, c, e.previews.value, boundary, anchor);
      Entry(occasion, s, request, c, e, Attempting(occasion, s, request, c, e, boundary, failures), failures)
  }

  lemma {:induction false} TagsAreTags(supplement: string, summary: string, boundary: string)
    ensures SummarySupplement(supplement, summary, boundary) == Tagged(supplement, summary, boundary)
  {
    var context := "<context-summary>\n" + summary + "\n</context-summary>\n\n<context-boundary>\n" + boundary
                   + "\n</context-boundary>";
    assert "" + context == context;
  }

  lemma {:induction false} LightIs(log: seq<Event>, request: Request, e: Encounter, anchor: Option<Anchor>)
    requires e.previews.Some?
    ensures var prepared := WithPreviews(Active(log), e.previews.value);
            Lightened(log, request, e, anchor)
            == Light(request.(messages := Messages(prepared)), prepared,
                     if e.previews.value != map[] && e.report then Says("offloaded") else [],
                     if e.previews.value == map[] then anchor else None)
  {
    hide Active, Messages, WithPreviews;
  }

  lemma {:induction false} LimitsAre(c: Config, light: Request, request: Request)
    requires light == request.(messages := light.messages)
    ensures c.HardLimit() == if c.window < c.hardReserve then 0 else c.window - c.hardReserve
    ensures c.RetainedBudget(light) == c.HardLimit() - c.estimate(request.(messages := []), None) - c.summaryMaximum
    ensures c.Trigger() == if c.window < c.automaticReserve then 0 else c.window - c.automaticReserve
  {
    assert light.(messages := []) == request.(messages := []);
  }

  lemma {:induction false} SceneIs(log: seq<Event>, request: Request, c: Config, previews: map<nat, string>, boundary: string,
                                   anchor: Option<Anchor>)
    ensures var s := Scenery(log, request, c, previews, boundary, anchor);
            var light := request.(messages := Messages(s.prepared));
            && s.prepared == WithPreviews(Active(log), previews)
            && s.standing == Activated(log, light, boundary)
            && s.limit == c.HardLimit() && s.budget == c.RetainedBudget(light)
            && s.chosen == Choose(s.prepared, s.budget, c.setup)
            && s.anchor == if previews == map[] then anchor else None
  {
    hide *;
    var s := Scenery(log, request, c, previews, boundary, anchor);
    var light := request.(messages := Messages(s.prepared));
    SceneFields(log, request, c, previews, boundary, anchor);
    LimitsAre(c, light, request);
    ActivatedIs(log, light, boundary);
  }

  lemma {:induction false} SceneFields(log: seq<Event>, request: Request, c: Config, previews: map<nat, string>, boundary: string,
                                       anchor: Option<Anchor>)
    ensures var s := Scenery(log, request, c, previews, boundary, anchor);
            && s.prepared == WithPreviews(Active(log), previews)
            && s.standing == Request(Messages(s.prepared),
                                     match LatestSummary(log)
                                     case None => request.supplement
                                     case Some(summary) => Tagged(request.supplement, summary.content, boundary),
                                     request.envelope)
            && s.limit == (if c.window < c.hardReserve then 0 else c.window - c.hardReserve)
            && s.budget == s.limit - c.estimate(request.(messages := []), None) - c.summaryMaximum
            && s.chosen == Choose(s.prepared, s.budget, c.setup)
            && s.anchor == if previews == map[] then anchor else None
  {
    hide Active, LatestSummary, Select, Measured, Groups, Messages, WithPreviews, Tagged;
  }

  lemma {:induction false} ActivatedIs(log: seq<Event>, light: Request, boundary: string)
    ensures Activated(log, light, boundary) == match LatestSummary(log)
      case None => light
      case Some(summary) => light.(supplement := Tagged(light.supplement, summary.content, boundary))
  {
    if LatestSummary(log).Some? { TagsAreTags(light.supplement, LatestSummary(log).value.content, boundary); }
    hide LatestSummary, SummarySupplement, Tagged;
  }

  /** The scene is that of this call. */
  ghost predicate Suits(s: Scene, log: seq<Event>, light: Request, request: Request, c: Config, boundary: string) {
    && light == request.(messages := Messages(s.prepared)) && s.standing == Activated(log, light, boundary)
    && s.limit == c.HardLimit() && s.budget == c.RetainedBudget(light) && s.chosen == Choose(s.prepared, s.budget, c.setup)
  }

  lemma {:induction false} ReplacedIs(s: Scene, light: Request, request: Request, text: string, boundary: string)
    requires light == request.(messages := light.messages)
    ensures Compacted(light, s.chosen, text, boundary) == Replaced(s, request, text, boundary)
  {
    TagsAreTags(light.supplement, text, boundary);
    hide Messages, SortBySequence, EventsOf, SummarySupplement, Tagged;
  }

  lemma {:induction false} NothingToSummarise(log: seq<Event>, light: Request, prepared: seq<Event>, c: Config, e: Encounter,
                                              trigger: string, boundary: string, failures: nat, anchor: Option<Anchor>)
    requires Choose(prepared, c.RetainedBudget(light), c.setup).summary == []
    ensures Compacting(log, light, prepared, c, e, trigger, boundary, failures, anchor) ==
      if c.estimate(Activated(log, light, boundary), None) <= c.HardLimit()
      then Effect(Sent(Activated(log, light, boundary)), Says("noop"), failures, anchor)
      else Effect(LimitExceeded, Says("blocked"), failures, anchor)
  {
    hide Choose, Activated, Compacted, MakeAttempt, Config.RetainedBudget, Config.HardLimit;
  }

  lemma {:induction false} NothingWritten(log: seq<Event>, light: Request, prepared: seq<Event>, c: Config, e: Encounter,
                                          trigger: string, boundary: string, failures: nat, anchor: Option<Anchor>)
    requires Choose(prepared, c.RetainedBudget(light), c.setup).summary != [] && !e.generation.Written?
    ensures var unfinished := Compact(MakeAttempt(light, c, e, trigger, false, "", c.estimate(light, None), 0));
            Compacting(log, light, prepared, c, e, trigger, boundary, failures, anchor) ==
              if e.generation.TooLarge? then Effect(LimitExceeded, Says("blocked"), failures, anchor)
              else Effect(if e.generation.Failed? then SummaryFailed else Cancelled, [unfinished], failures, anchor)
  {
    hide Choose, Activated, Compacted, MakeAttempt, Config.RetainedBudget, Config.HardLimit;
  }

  lemma {:induction false} SummaryWritten(log: seq<Event>, light: Request, prepared: seq<Event>, c: Config, e: Encounter,
                                          trigger: string, boundary: string, failures: nat, anchor: Option<Anchor>)
    requires Choose(prepared, c.RetainedBudget(light), c.setup).summary != [] && e.generation.Written?
    ensures var sent := Compacted(light, Choose(prepared, c.RetainedBudget(light), c.setup), e.generation.text, boundary);
            var before, after := c.estimate(light, None), c.estimate(sent, None);
            Compacting(log, light, prepared, c, e, trigger, boundary, failures, anchor) ==
              if after <= c.HardLimit() then
                Effect(Sent(sent),
                       [Compact(MakeAttempt(light, c, e, trigger, true, e.generation.text, before, after))] + Says("compacted"),
                       0, None)
              else
                Effect(LimitExceeded, [Compact(MakeAttempt(light, c, e, trigger, false, "", before, 0))] + Says("blocked"), failures, anchor)
  {
    hide Choose, Activated, Compacted, MakeAttempt, Config.RetainedBudget, Config.HardLimit;
  }

  /** What `Attempting` and `Recorded` come to once something is tried. */
  lemma {:induction false} TriedIs(occasion: Occasion, s: Scene, request: Request, c: Config, e: Encounter,
                                   boundary: string, failures: nat)
    requires e.previews.Some?
    ensures var how := Attempting(Emergency, s, request, c, e, boundary, failures);
            var before := c.estimate(request.(messages := Messages(s.prepared)), None);
            var recorded := Recorded(occasion, s, request, c, e, how);
            if s.chosen.summary == [] then
              && how == (if c.estimate(s.standing, None) <= s.limit then Nothing else Fails) && recorded == []
            else if e.generation.Written? then
              var sent := Replaced(s, request, e.generation.text, boundary);
              if c.estimate(sent, None) <= s.limit then
                && how == Works(sent)
                && recorded == [Compact(Attempt(s.budget, e.previews.value, e.during, true, e.generation.text, TriggerOf(occasion),
                                                before, c.estimate(sent, None)))]
              else
                && how == Fails
                && recorded == [Compact(Attempt(s.budget, e.previews.value, e.during, false, "", TriggerOf(occasion), before, 0))]
            else if e.generation.TooLarge? then how == Fails && recorded == []
            else
              && how == (if e.generation.Failed? then Fails else Stopped)
              && recorded == [Compact(Attempt(s.budget, e.previews.value, e.during, false, "", TriggerOf(occasion), before, 0))]
  {
    hide Messages, Replaced, TriggerOf;
  }

  lemma AttemptIs(light: Request, c: Config, e: Encounter, trigger: string, generated: bool, text: string,
                  before: nat, after: nat)
    requires e.previews.Some?
    ensures MakeAttempt(light, c, e, trigger, generated, text, before, after)
         == Attempt(c.RetainedBudget(light), e.previews.value, e.during, generated, text, trigger, before, after)
  {
    hide Config.RetainedBudget;
  }

  /** One compaction, whoever asked for it. */
  lemma {:induction false} CompactingIs(occasion: Occasion, s: Scene, log: seq<Event>, light: Request,
                                        request: Request, c: Config,
                                        e: Encounter, boundary: string, failures: nat, anchor: Option<Anchor>)
    requires e.previews.Some? && Suits(s, log, light, request, c, boundary)
    ensures var how := Attempting(Emergency, s, request, c, e, boundary, failures);
            Compacting(log, light, s.prepared, c, e, TriggerOf(occasion), boundary, failures, anchor)
            == Tried(s, e, how, Recorded(occasion, s, request, c, e, how), failures, anchor)
  {
    hide *;
    var trigger, before := TriggerOf(occasion), c.estimate(light, None);
    SuitsIs(s, log, light, request, c, boundary);
    TriedIs(occasion, s, request, c, e, boundary, failures);
    var how := Attempting(Emergency, s, request, c, e, boundary, failures);
    TriedEffect(s, e, how, Recorded(occasion, s, request, c, e, how), failures, anchor);
    if s.chosen.summary == [] {
      NothingToSummarise(log, light, s.prepared, c, e, trigger, boundary, failures, anchor);
    } else if e.generation.Written? {
      SummaryWritten(log, light, s.prepared, c, e, trigger, boundary, failures, anchor);
      ReplacedIs(s, light, request, e.generation.text, boundary);
      var after := c.estimate(Replaced(s, request, e.generation.text, boundary), None);
      AttemptIs(light, c, e, trigger, true, e.generation.text, before, after);
      AttemptIs(light, c, e, trigger, false, "", before, 0);
    } else {
      NothingWritten(log, light, s.prepared, c, e, trigger, boundary, failures, anchor);
      AttemptIs(light, c, e, trigger, false, "", before, 0);
    }
  }

  /** What one compaction comes to on its own. */
  function Tried(s: Scene, e: Encounter, how: Attempted, recorded: seq<Action>, failures: nat, anchor: Option<Anchor>): Effect {
    var refused := s.chosen.summary == [] || !e.generation.Failed?;
    match how
    case Works(sent) => Effect(Sent(sent), recorded + Says("compacted"), 0, None)
    case Stopped => Effect(Cancelled, recorded, failures, anchor)
    case Fails => Effect(if refused then LimitExceeded else SummaryFailed, recorded + (if refused then Says("blocked") else []),
                         failures, anchor)
    case _ => Effect(Sent(s.standing), recorded + Says("noop"), failures, anchor)
  }

  lemma TriedEffect(s: Scene, e: Encounter, how: Attempted, recorded: seq<Action>, failures: nat, anchor: Option<Anchor>)
    ensures var refused, r := s.chosen.summary == [] || !e.generation.Failed?, Tried(s, e, how, recorded, failures, anchor);
            && (how.Works? ==> r == Effect(Sent(how.sent), recorded + Says("compacted"), 0, None))
            && (how.Stopped? ==> r == Effect(Cancelled, recorded, failures, anchor))
            && (how.Fails? && refused ==> r == Effect(LimitExceeded, recorded + Says("blocked"), failures, anchor))
            && (how.Fails? && !refused ==> r == Effect(SummaryFailed, recorded, failures, anchor))
            && (how.Nothing? ==> r == Effect(Sent(s.standing), recorded + Says("noop"), failures, anchor))
    ensures [] + Says("noop") == Says("noop") && [] + Says("blocked") == Says("blocked")
  {
    hide Says;
    assert recorded + [] == recorded;
  }

  lemma SuitsIs(s: Scene, log: seq<Event>, light: Request, request: Request, c: Config, boundary: string)
    requires Suits(s, log, light, request, c, boundary)
    ensures light == request.(messages := Messages(s.prepared)) && s.standing == Activated(log, light, boundary)
    ensures s.limit == c.HardLimit() && s.budget == c.RetainedBudget(light) && s.chosen == Choose(s.prepared, s.budget, c.setup)
  {
    hide Messages, Activated, Choose, Config.HardLimit, Config.RetainedBudget;
  }

  /** The entry of the table, case by case. */
  lemma EntryIs(occasion: Occasion, s: Scene, request: Request, c: Config, e: Encounter, how: Attempted, failures: nat)
    requires e.previews.Some? && (how.Works? ==> e.generation.Written?)
    ensures var r, recorded := Entry(occasion, s, request, c, e, how, failures), Recorded(occasion, s, request, c, e, how);
            var first := if e.previews.value != map[] && e.report then Says("offloaded") else [];
            && (how.Works? ==> r == Effect(Sent(how.sent), first + (recorded + Says("compacted")), 0, None))
            && (how.Stopped? ==> r == Effect(Cancelled, first + (recorded + []), failures, s.anchor))
            && (how.Nothing? && c.estimate(s.standing, None) <= s.limit ==>
                  r == Effect(Sent(s.standing), first + (recorded + Says("noop")), failures, s.anchor))
  {
    hide Recorded, Says;
  }

  lemma EntryFails(occasion: Occasion, s: Scene, request: Request, c: Config, e: Encounter, failures: nat)
    requires e.previews.Some?
    ensures var r, recorded := Entry(occasion, s, request, c, e, Fails, failures), Recorded(occasion, s, request, c, e, Fails);
            var first := if e.previews.value != map[] && e.report then Says("offloaded") else [];
            var fits := c.estimate(s.standing, None) <= s.limit;
            var refused := s.chosen.summary == [] || !e.generation.Failed?;
            var failed := first + (recorded + ((if refused then Says("blocked") else []) + Says("failed")));
            && (occasion.Emergency? ==> r == Effect(RecoveryFailed, failed, failures + 1, s.anchor))
            && (occasion.Manual? || (occasion.Automatic? && fits) ==>
                  r == Effect(Sent(s.standing), failed, failures + 1, s.anchor))
            && (occasion.Automatic? && !fits ==>
                  r == Effect(LimitExceeded, failed + Says("blocked"), failures + 1, s.anchor))
  {
    hide Recorded, Says;
    var recorded := Recorded(occasion, s, request, c, e, Fails);
    var first := if e.previews.value != map[] && e.report then Says("offloaded") else [];
    var notes := (if s.chosen.summary == [] || !e.generation.Failed? then Says("blocked") else []) + Says("failed");
    assert notes + [] == notes;
    assert first + (recorded + (notes + Says("blocked"))) == first + (recorded + notes) + Says("blocked");
  }

  lemma AfterFailureIs(log: seq<Event>, light: Request, c: Config, manual: bool, boundary: string, failed: Effect)
    ensures var activated := Activated(log, light, boundary);
            AfterFailure(log, light, c, manual, boundary, failed) ==
              if manual || c.estimate(activated, None) <= c.HardLimit()
              then Effect(Sent(activated), failed.actions + Says("failed"), failed.failures + 1, failed.anchor)
              else Effect(LimitExceeded, failed.actions + Says("failed") + Says("blocked"), failed.failures + 1, failed.anchor)
  {
    hide Activated, Config.HardLimit;
  }

  lemma SettledShape(log: seq<Event>, light: Request, prepared: seq<Event>, c: Config, e: Encounter, manual: bool,
                     boundary: string,
                     failures: nat, anchor: Option<Anchor>)
    ensures var occasion := if manual then Manual else Automatic;
            var r := Compacting(log, light, prepared, c, e, TriggerOf(occasion), boundary, failures, anchor);
            Settled(log, light, prepared, c, e, manual, boundary, failures, anchor) ==
              if r.outcome.SummaryFailed? || r.outcome.LimitExceeded? then AfterFailure(log, light, c, manual, boundary, r) else r
  {
    hide Compacting, AfterFailure;
  }

  /** What a failure leaves, with what was noted before it. */
  lemma Noted(first: seq<Action>, recorded: seq<Action>, refused: bool)
    ensures var notes := (if refused then Says("blocked") else []) + Says("failed");
            var actions := if refused then recorded + Says("blocked") else recorded;
            && first + (actions + Says("failed")) == first + (recorded + notes)
            && first + (actions + Says("failed") + Says("blocked")) == first + (recorded + notes) + Says("blocked")
    ensures recorded + [] == recorded
  {
    hide Says;
  }

  lemma {:induction false} SettledIs(manual: bool, s: Scene, log: seq<Event>, light: Request, request: Request, c: Config,
                                     e: Encounter, boundary: string, failures: nat)
    requires e.previews.Some? && Suits(s, log, light, request, c, boundary)
    ensures var occasion := if manual then Manual else Automatic;
            var how := Attempting(Emergency, s, request, c, e, boundary, failures);
            var r := Settled(log, light, s.prepared, c, e, manual, boundary, failures, s.anchor);
            var first := if e.previews.value != map[] && e.report then Says("offloaded") else [];
            r.(actions := first + r.actions) == Entry(occasion, s, request, c, e, how, failures)
  {
    hide *;
    var occasion := if manual then Manual else Automatic;
    var how := Attempting(Emergency, s, request, c, e, boundary, failures);
    var recorded := Recorded(occasion, s, request, c, e, how);
    var refused := s.chosen.summary == [] || !e.generation.Failed?;
    SuitsIs(s, log, light, request, c, boundary);
    TriedIs(occasion, s, request, c, e, boundary, failures);
    CompactingIs(occasion, s, log, light, request, c, e, boundary, failures, s.anchor);
    TriedEffect(s, e, how, recorded, failures, s.anchor);
    SettledShape(log, light, s.prepared, c, e, manual, boundary, failures, s.anchor);
    AfterFailureIs(log, light, c, manual, boundary, Tried(s, e, how, recorded, failures, s.anchor));
    EntryIs(occasion, s, request, c, e, how, failures);
    EntryFails(occasion, s, request, c, e, failures);
    Noted(if e.previews.value != map[] && e.report then Says("offloaded") else [], recorded, refused);
  }

  lemma {:induction false} RecoveredIs(s: Scene, log: seq<Event>, light: Request, request: Request, c: Config, e: Encounter,
                                       boundary: string, failures: nat)
    requires e.previews.Some? && Suits(s, log, light, request, c, boundary)
    ensures var how := Attempting(Emergency, s, request, c, e, boundary, failures);
            var r := Compacting(log, light, s.prepared, c, e, "emergency", boundary, failures, s.anchor);
            var first := if e.previews.value != map[] && e.report then Says("offloaded") else [];
            (if r.outcome.SummaryFailed? || r.outcome.LimitExceeded?
             then Effect(RecoveryFailed, first + (r.actions + Says("failed")), r.failures + 1, r.anchor)
             else r.(actions := first + r.actions))
            == Entry(Emergency, s, request, c, e, how, failures)
  {
    hide *;
    var how := Attempting(Emergency, s, request, c, e, boundary, failures);
    var recorded := Recorded(Emergency, s, request, c, e, how);
    var refused := s.chosen.summary == [] || !e.generation.Failed?;
    SuitsIs(s, log, light, request, c, boundary);
    TriedIs(Emergency, s, request, c, e, boundary, failures);
    TriggerIs();
    CompactingIs(Emergency, s, log, light, request, c, e, boundary, failures, s.anchor);
    TriedEffect(s, e, how, recorded, failures, s.anchor);
    EntryIs(Emergency, s, request, c, e, how, failures);
    EntryFails(Emergency, s, request, c, e, failures);
    Noted(if e.previews.value != map[] && e.report then Says("offloaded") else [], recorded, refused);
  }

  lemma TriggerIs()
    ensures TriggerOf(Emergency) == "emergency"
  {
  }

  /** Nothing is tried below the trigger or behind the breaker. */
  lemma {:induction false} UntriedIs(s: Scene, request: Request, c: Config, e: Encounter, boundary: string, failures: nat)
    requires e.previews.Some?
    ensures var untried := c.estimate(s.standing, s.anchor) + c.automaticReserve < c.window || c.failureLimit <= failures;
            var first := if e.previews.value != map[] && e.report then Says("offloaded") else [];
            var how := Attempting(Automatic, s, request, c, e, boundary, failures);
            && (!untried ==> how == Attempting(Emergency, s, request, c, e, boundary, failures))
            && (untried ==>
                  Entry(Automatic, s, request, c, e, how, failures) ==
                    if s.limit < c.estimate(s.standing, s.anchor) then Effect(LimitExceeded, first + Says("blocked"), failures, s.anchor)
                    else if c.estimate(s.standing, s.anchor) + c.automaticReserve < c.window
                    then Effect(Sent(s.standing), first + [], failures, s.anchor)
                    else Effect(Sent(s.standing), first + Says("breaker"), failures, s.anchor))
  {
    hide Says, Replaced;
    assert [] + Says("blocked") == Says("blocked") && [] + Says("breaker") == Says("breaker");
  }

  lemma {:induction false} PreparingShape(log: seq<Event>, request: Request, c: Config, e: Encounter, boundary: string,
                                          failures: nat, anchor: Option<Anchor>)
    requires e.previews.Some?
    ensures var light, r := Lightened(log, request, e, anchor), Preparing(log, request, c, e, boundary, failures, anchor);
            var activated := Activated(log, light.request, boundary);
            var n := c.estimate(activated, light.anchor);
            && (n < c.Trigger() || c.failureLimit <= failures ==>
                  r == if c.HardLimit() < n then Effect(LimitExceeded, light.actions + Says("blocked"), failures, light.anchor)
                       else if n < c.Trigger() then Effect(Sent(activated), light.actions + [], failures, light.anchor)
                       else Effect(Sent(activated), light.actions + Says("breaker"), failures, light.anchor))
            && (c.Trigger() <= n && failures < c.failureLimit ==>
                  var k := Settled(log, light.request, light.prepared, c, e, false, boundary, failures, light.anchor);
                  r == k.(actions := light.actions + k.actions))
  {
    hide Lightened, Activated, Settled, Config.HardLimit, Config.Trigger;
  }

  lemma {:induction false} OthersShape(log: seq<Event>, request: Request, c: Config, e: Encounter, boundary: string,
                                       failures: nat, anchor: Option<Anchor>)
    requires e.previews.Some?
    ensures var light := Lightened(log, request, e, anchor);
            var k := Settled(log, light.request, light.prepared, c, e, true, boundary, failures, light.anchor);
            CompactingManually(log, request, c, e, boundary, failures, anchor) == k.(actions := light.actions + k.actions)
    ensures var light := Lightened(log, request, e, anchor);
            var r := Compacting(log, light.request, light.prepared, c, e, "emergency", boundary, failures, light.anchor);
            Recovering(log, request, c, e, boundary, failures, anchor) ==
              if r.outcome.SummaryFailed? || r.outcome.LimitExceeded?
              then Effect(RecoveryFailed, light.actions + (r.actions + Says("failed")), r.failures + 1, r.anchor)
              else r.(actions := light.actions + r.actions)
  {
    hide Lightened, Settled, Compacting;
  }

  lemma NotStoredIs(occasion: Occasion, log: seq<Event>, request: Request, c: Config, e: Encounter, boundary: string,
                    failures: nat, anchor: Option<Anchor>)
    requires e.previews.None?
    ensures EffectOf(occasion, log, request, c, e, boundary, failures, anchor) == Effect(NotStored, Says("blocked"), failures, anchor)
    ensures Tabled(occasion, log, request, c, e, boundary, failures, anchor) == Effect(NotStored, Says("blocked"), failures, anchor)
  {
  }

  lemma {:induction false} StoredIs(occasion: Occasion, log: seq<Event>, request: Request, c: Config, e: Encounter,
                                    boundary: string,
                                    failures: nat, anchor: Option<Anchor>)
    requires e.previews.Some?
    ensures var s := Scenery(log, request, c, e.previews.value, boundary, anchor);
            Tabled(occasion, log, request, c, e, boundary, failures, anchor)
            == Entry(occasion, s, request, c, e, Attempting(occasion, s, request, c, e, boundary, failures), failures)
    ensures EffectOf(occasion, log, request, c, e, boundary, failures, anchor) ==
      match occasion
      case Automatic => Preparing(log, request, c, e, boundary, failures, anchor)
      case Manual => CompactingManually(log, request, c, e, boundary, failures, anchor)
      case Emergency => Recovering(log, request, c, e, boundary, failures, anchor)
  {
    hide Scenery, Entry, Attempting, Preparing, CompactingManually, Recovering;
  }

  lemma ManualIsTried(s: Scene, request: Request, c: Config, e: Encounter, boundary: string, failures: nat)
    ensures Attempting(Manual, s, request, c, e, boundary, failures) == Attempting(Emergency, s, request, c, e, boundary, failures)
  {
    hide Replaced;
  }

  lemma SceneSuits(log: seq<Event>, request: Request, c: Config, previews: map<nat, string>, boundary: string,
                   anchor: Option<Anchor>)
    ensures var s := Scenery(log, request, c, previews, boundary, anchor);
            Suits(s, log, request.(messages := Messages(s.prepared)), request, c, boundary)
  {
    SceneIs(log, request, c, previews, boundary, anchor);
    hide Scenery, Activated, Choose, Messages, Config.HardLimit, Config.RetainedBudget;
  }

  /** Each call, put together from what all three share, does exactly what the table says. */
  lemma {:induction false} CallsAreTabled(occasion: Occasion, log: seq<Event>, request: Request, c: Config, e: Encounter,
                                          boundary: string, failures: nat, anchor: Option<Anchor>)
    ensures EffectOf(occasion, log, request, c, e, boundary, failures, anchor)
            == Tabled(occasion, log, request, c, e, boundary, failures, anchor)
  {
    hide *;
    if e.previews.None? {
      NotStoredIs(occasion, log, request, c, e, boundary, failures, anchor);
    } else {
      var s := Scenery(log, request, c, e.previews.value, boundary, anchor);
      var light := request.(messages := Messages(s.prepared));
      StoredIs(occasion, log, request, c, e, boundary, failures, anchor);
      LightIs(log, request, e, anchor);
      SceneIs(log, request, c, e.previews.value, boundary, anchor);
      SceneSuits(log, request, c, e.previews.value, boundary, anchor);
      match occasion
      case Automatic =>
        LimitsAre(c, light, request);
        PreparingShape(log, request, c, e, boundary, failures, anchor);
        UntriedIs(s, request, c, e, boundary, failures);
        SettledIs(false, s, log, light, request, c, e, boundary, failures);
      case Manual =>
        OthersShape(log, request, c, e, boundary, failures, anchor);
        ManualIsTried(s, request, c, e, boundary, failures);
        SettledIs(true, s, log, light, request, c, e, boundary, failures);
      case Emergency =>
        OthersShape(log, request, c, e, boundary, failures, anchor);
        RecoveredIs(s, log, light, request, c, e, boundary, failures);
    }
  }

  // ---- what a sent request carries ----

  /** What was logged when a call began. */
  function UpTo(n: nat): Event -> bool {
    (e: Event) => e.sequence <= n
  }

  /** The caller's request with the conversation in it: of the rows the log still shows after the call, those
      that were there when it began, as light preparation shows them; and the latest summary of the log, if it has
      one, behind what the caller put into the supplement. */
  ghost predicate Carries(sent: Request, request: Request, after: seq<Event>, n: nat, previews: map<nat, string>,
                          boundary: string) {
    && sent.envelope == request.envelope
    && sent.messages == Messages(WithPreviews(Where(Active(after), UpTo(n)), previews))
    && match LatestSummary(after)
       case None => sent.supplement == request.supplement
       case Some(summary) =>
         var context := "<context-summary>\n" + summary.content + "\n</context-summary>\n\n<context-boundary>\n"
                        + boundary + "\n</context-boundary>";
         sent.supplement == if request.supplement == "" then context else request.supplement + "\n\n" + context
  }

  /** Two logs show the same of the first `n` rows, and have the same latest summary. */
  ghost predicate ShowsSame(x: seq<Event>, y: seq<Event>, n: nat) {
    Where(Active(x), UpTo(n)) == Where(Active(y), UpTo(n)) && LatestSummary(x) == LatestSummary(y)
  }

  lemma {:induction false} NoteShowsSame(history: seq<Action>, result: string, n: nat, setup: Setup)
    ensures var x, y := Run(history, setup).log, Run(history + [Note(result)], setup).log;
            Active(y) == Active(x) && LatestSummary(y) == LatestSummary(x) && ShowsSame(x, y, n)
  {
    RunKeepsInv(history, setup);
    RunOnce(history, Note(result), setup);
    DiagnosticIsInvisible(Run(history, setup), result);
    hide Run, Inv, Active, LatestSummary;
  }

  lemma {:induction false} TailIsLater(n: nat, m: nat, rows: seq<Row>)
    requires n <= m
    ensures Where(Where(Tail(m, rows), VisibleRows()), UpTo(n)) == []
  {
    TailNumbers(m, rows);
    WhereMembers(Tail(m, rows), VisibleRows());
    WhereNone(Where(Tail(m, rows), VisibleRows()), UpTo(n));
    hide Tail, Where;
  }

  lemma {:induction false} UnfinishedShowsSame(history: seq<Action>, a: Attempt, n: nat, setup: Setup)
    requires !a.generated && n <= |Run(history, setup).log|
    ensures ShowsSame(Run(history, setup).log, Run(history + [Compact(a)], setup).log, n)
  {
    var s := Run(history, setup);
    RunKeepsInv(history, setup);
    RunOnce(history, Compact(a), setup);
    RowsKeepInv(s, a.during);
    hide Run, Inv, Choose, AppendRows, Active, LatestSummary, Where, Tail;
    Sessions.RowsExtendActive(s, a.during);
    TailIsLater(n, |s.log|, a.during);
    WhereConcat(Active(s.log), Where(Tail(|s.log|, a.during), VisibleRows()), UpTo(n));
    assert Where(Active(s.log), UpTo(n)) + [] == Where(Active(s.log), UpTo(n));
  }

  lemma {:induction false} WhereShown(events: seq<Event>, previews: map<nat, string>, n: nat)
    ensures Where(WithPreviews(events, previews), UpTo(n)) == WithPreviews(Where(events, UpTo(n)), previews)
  {
    if events != [] {
      var front, last := events[..|events| - 1], events[|events| - 1];
      WhereShown(front, previews, n);
      assert WithPreviews(events, previews)[..|events| - 1] == WithPreviews(front, previews);
    }
  }

  lemma {:induction false} AllUpTo(events: seq<Event>, n: nat)
    requires forall e :: e in events ==> e.sequence <= n
    ensures Where(events, UpTo(n)) == events
  {
    if events != [] {
      assert events[|events| - 1] in events;
      AllUpTo(events[..|events| - 1], n);
    }
  }

  lemma {:induction false} LogIsUpTo(history: seq<Action>, setup: Setup)
    ensures var log := Run(history, setup).log; Where(Active(log), UpTo(|log|)) == Active(log)
  {
    var log := Run(history, setup).log;
    RunKeepsInv(history, setup);
    Sessions.InvParts(Run(history, setup));
    ActiveInLog(log);
    hide Run, Inv, Active, Where;
    AllUpTo(Active(log), |log|);
  }

  /** The request with the latest summary carries the log. */
  lemma {:induction false} ActivatedCarries(log: seq<Event>, light: Request, request: Request, after: seq<Event>, n: nat,
                                            previews: map<nat, string>, boundary: string)
    requires ShowsSame(log, after, n) && Where(Active(log), UpTo(n)) == Active(log)
    requires light == request.(messages := Messages(WithPreviews(Active(log), previews)))
    ensures Carries(Activated(log, light, boundary), request, after, n, previews, boundary)
  {
    hide Active, LatestSummary, Where, Messages, WithPreviews;
  }

  /** What a compaction retains is what the log shows of it afterwards. */
  lemma {:induction false} RetainedAreShown(history: seq<Action>, a: Attempt, n: nat, setup: Setup)
    requires var log := Run(history, setup).log; n <= |log| && Where(Active(log), UpTo(n)) == Active(log)
    requires a.generated && Choose(Prepared(Run(history, setup).log, a), a.budget, setup).summary != []
    ensures var log, after := Run(history, setup).log, Run(history + [Compact(a)], setup).log;
            WithPreviews(Where(Active(after), UpTo(n)), a.previews) == Retained(Choose(Prepared(log, a), a.budget, setup))
  {
    var log, after := Run(history, setup).log, Run(history + [Compact(a)], setup).log;
    var arrived, retained := Where(Tail(|log|, a.during), VisibleRows()), Retained(Choose(Prepared(log, a), a.budget, setup));
    RunKeepsInv(history, setup);
    Sessions.InvParts(Run(history, setup));
    WhereMembers(Active(log), UpTo(n));
    hide Run, Inv, Choose, Prepared, Retained, Active, Where, Tail, WithPreviews;
    EventsReplay(history, a, setup);
    forall r | r in retained ensures r.sequence <= n {
      RetainedAreActive(log, a, setup, r);
    }
    AllUpTo(retained, n);
    TailIsLater(n, |log|, a.during);
    WhereShown(arrived, a.previews, n);
    WhereShown(Active(after), a.previews, n);
    WhereConcat(retained, WithPreviews(arrived, a.previews), UpTo(n));
    NothingShown(a.previews);
    assert retained + [] == retained;
  }

  lemma {:induction false} NothingShown(previews: map<nat, string>)
    ensures WithPreviews([], previews) == []
  {
  }

  lemma {:induction false} SummaryIsLatest(history: seq<Action>, a: Attempt, setup: Setup)
    requires a.generated && Choose(Prepared(Run(history, setup).log, a), a.budget, setup).summary != []
    ensures var latest := LatestSummary(Run(history + [Compact(a)], setup).log); latest.Some? && latest.value.content == a.summary
  {
    RunKeepsInv(history, setup);
    RunOnce(history, Compact(a), setup);
    CompactSucceeds(Run(history, setup), a, setup);
    hide Run, Inv, Choose, Prepared, CompactStep, LatestSummary, Tail, Retained, GivenTo, Sequences, Where;
    SummarisedParts(Run(history, setup), a, setup);
  }

  lemma {:induction false} TwoMore(history: seq<Action>, x: Action, y: Action)
    ensures history + [x, y] == (history + [x]) + [y]
  {
  }

  lemma {:induction false} CompactedCarries(history: seq<Action>, light: Request, request: Request, c: Config, e: Encounter,
                                            trigger: string, boundary: string, before: nat, estimate: nat, n: nat)
    requires var log := Run(history, c.setup).log; n <= |log| && Where(Active(log), UpTo(n)) == Active(log)
    requires e.previews.Some? && e.generation.Written?
    requires light.envelope == request.envelope && light.supplement == request.supplement
    requires var prepared := WithPreviews(Active(Run(history, c.setup).log), e.previews.value);
             Choose(prepared, c.RetainedBudget(light), c.setup).summary != []
    ensures var prepared := WithPreviews(Active(Run(history, c.setup).log), e.previews.value);
            var a := MakeAttempt(light, c, e, trigger, true, e.generation.text, before, estimate);
            var sent := Compacted(light, Choose(prepared, c.RetainedBudget(light), c.setup), e.generation.text, boundary);
            Carries(sent, request, Run(history + [Compact(a), Note("compacted")], c.setup).log, n, e.previews.value, boundary)
  {
    var a := MakeAttempt(light, c, e, trigger, true, e.generation.text, before, estimate);
    assert Prepared(Run(history, c.setup).log, a) == WithPreviews(Active(Run(history, c.setup).log), e.previews.value);
    hide Run, Choose, Prepared, Active, LatestSummary, Where, WithPreviews, Messages, Retained;
    RetainedAreShown(history, a, n, c.setup);
    SummaryIsLatest(history, a, c.setup);
    NoteShowsSame(history + [Compact(a)], "compacted", n, c.setup);
    TwoMore(history, Compact(a), Note("compacted"));
  }

  /** A call that begins with this log, its light preparation done. */
  ghost predicate Begun(history: seq<Action>, light: Request, request: Request, c: Config, e: Encounter, n: nat) {
    var log := Run(history, c.setup).log;
    && n <= |log| && Where(Active(log), UpTo(n)) == Active(log) && e.previews.Some?
    && light == request.(messages := Messages(WithPreviews(Active(log), e.previews.value)))
  }

  /** What is sent carries the log; if nothing is, the log shows what it showed. */
  ghost predicate EffectCarries(r: Effect, history: seq<Action>, request: Request, c: Config, e: Encounter, boundary: string,
                                n: nat)
    requires e.previews.Some?
  {
    var after := Run(history + r.actions, c.setup).log;
    if r.outcome.Sent? then Carries(r.outcome.request, request, after, n, e.previews.value, boundary)
    else ShowsSame(Run(history, c.setup).log, after, n)
  }

  lemma {:induction false} CompactingShape(log: seq<Event>, light: Request, prepared: seq<Event>, c: Config, e: Encounter,
                                           trigger: string, boundary: string, failures: nat, anchor: Option<Anchor>)
    ensures var r := Compacting(log, light, prepared, c, e, trigger, boundary, failures, anchor);
            var selection, before := Choose(prepared, c.RetainedBudget(light), c.setup), c.estimate(light, None);
            var unfinished := Compact(MakeAttempt(light, c, e, trigger, false, "", before, 0));
            if selection.summary == [] then
              if r.outcome.Sent? then r.outcome == Sent(Activated(log, light, boundary)) && r.actions == [Note("noop")]
              else r.actions == [Note("blocked")]
            else if r.outcome.Sent? then
              e.generation.Written? &&
              var sent := Compacted(light, selection, e.generation.text, boundary);
              && r.outcome == Sent(sent)
              && r.actions == [Compact(MakeAttempt(light, c, e, trigger, true, e.generation.text, before, c.estimate(sent, None))),
                               Note("compacted")]
            else r.actions == [Note("blocked")] || r.actions == [unfinished] || r.actions == [unfinished, Note("blocked")]
  {
    hide Choose, Activated, Compacted, MakeAttempt;
  }

  lemma {:induction false} NothingCompacted(history: seq<Action>, light: Request, request: Request, c: Config, e: Encounter,
                                            boundary: string, r: Effect, n: nat)
    requires Begun(history, light, request, c, e, n)
    requires if r.outcome.Sent? then r.outcome == Sent(Activated(Run(history, c.setup).log, light, boundary)) && r.actions == [Note("noop")]
             else r.actions == [Note("blocked")]
    ensures EffectCarries(r, history, request, c, e, boundary, n)
  {
    var log := Run(history, c.setup).log;
    NoteShowsSame(history, if r.outcome.Sent? then "noop" else "blocked", n, c.setup);
    hide Run, Active, LatestSummary, Where, WithPreviews, Messages, Activated, Carries, ShowsSame;
    if r.outcome.Sent? {
      ActivatedCarries(log, light, request, Run(history + r.actions, c.setup).log, n, e.previews.value, boundary);
    }
  }

  lemma {:induction false} NothingSent(history: seq<Action>, request: Request, c: Config, e: Encounter,
                                       boundary: string, a: Attempt,
                                       r: Effect, n: nat)
    requires e.previews.Some? && n <= |Run(history, c.setup).log| && !a.generated && !r.outcome.Sent?
    requires r.actions == [Note("blocked")] || r.actions == [Compact(a)] || r.actions == [Compact(a), Note("blocked")]
    ensures EffectCarries(r, history, request, c, e, boundary, n)
  {
    UnfinishedShowsSame(history, a, n, c.setup);
    NoteShowsSame(history, "blocked", n, c.setup);
    NoteShowsSame(history + [Compact(a)], "blocked", n, c.setup);
    TwoMore(history, Compact(a), Note("blocked"));
    SameThrough(Run(history, c.setup).log, Run(history + [Compact(a)], c.setup).log,
                Run((history + [Compact(a)]) + [Note("blocked")], c.setup).log, n);
    hide Run, ShowsSame;
  }

  /** What a compaction makes of the request, however it ends. Only a success changes what the log shows. */
  lemma {:induction false} CompactingCarries(history: seq<Action>, light: Request, request: Request, c: Config, e: Encounter,
                                             trigger: string, boundary: string, failures: nat, anchor: Option<Anchor>, n: nat)
    requires Begun(history, light, request, c, e, n)
    ensures var log := Run(history, c.setup).log;
            EffectCarries(
              Compacting(log, light, WithPreviews(Active(log), e.previews.value), c, e, trigger, boundary, failures, anchor),
              history, request, c, e, boundary, n)
  {
    var log := Run(history, c.setup).log;
    var prepared := WithPreviews(Active(log), e.previews.value);
    var r := Compacting(log, light, prepared, c, e, trigger, boundary, failures, anchor);
    var selection, before := Choose(prepared, c.RetainedBudget(light), c.setup), c.estimate(light, None);
    var unfinished := MakeAttempt(light, c, e, trigger, false, "", before, 0);
    assert !unfinished.generated;
    assert Begun(history, light, request, c, e, n);
    assert n <= |log| && Where(Active(log), UpTo(n)) == Active(log);
    assert light.envelope == request.envelope && light.supplement == request.supplement;
    hide Run, Compacting, Choose, Active, Where, WithPreviews, Messages, Compacted, Carries, Activated, MakeAttempt,
         Begun, ShowsSame;
    CompactingShape(log, light, prepared, c, e, trigger, boundary, failures, anchor);
    if selection.summary == [] {
      NothingCompacted(history, light, request, c, e, boundary, r, n);
    } else if !r.outcome.Sent? {
      NothingSent(history, request, c, e, boundary, unfinished, r, n);
    } else {
      var sent := Compacted(light, selection, e.generation.text, boundary);
      CompactedCarries(history, light, request, c, e, trigger, boundary, before, c.estimate(sent, None), n);
    }
  }

  lemma {:induction false} FailureCarries(history: seq<Action>, light: Request, request: Request, c: Config, e: Encounter,
                                          manual: bool, boundary: string, failed: Effect, n: nat)
    requires Begun(history, light, request, c, e, n)
    requires !failed.outcome.Sent? && EffectCarries(failed, history, request, c, e, boundary, n)
    ensures var r := AfterFailure(Run(history, c.setup).log, light, c, manual, boundary, failed);
            r.outcome.Sent? ==> EffectCarries(r, history, request, c, e, boundary, n)
  {
    hide *;
    var log, middle := Run(history, c.setup).log, history + failed.actions;
    var r, after := AfterFailure(log, light, c, manual, boundary, failed), middle + [Note("failed")];
    BegunIs(history, light, request, c, e, n);
    SameIfNotSent(failed, history, request, c, e, boundary, n);
    FailureShape(log, light, c, manual, boundary, failed);
    if r.outcome.Sent? {
      assert history + r.actions == after;
      NoteShowsSame(middle, "failed", n, c.setup);
      SameThrough(log, Run(middle, c.setup).log, Run(after, c.setup).log, n);
      ActivatedCarries(log, light, request, Run(after, c.setup).log, n, e.previews.value, boundary);
      CarriesIfSent(r, history, request, c, e, boundary, n);
    }
  }

  lemma {:induction false} FailureShape(log: seq<Event>, light: Request, c: Config, manual: bool, boundary: string,
                                        failed: Effect)
    ensures var r := AfterFailure(log, light, c, manual, boundary, failed);
            r.outcome.Sent? ==>
              r.outcome == Sent(Activated(log, light, boundary)) && r.actions == failed.actions + [Note("failed")]
  {
    hide Activated;
  }

  lemma {:induction false} BegunIs(history: seq<Action>, light: Request, request: Request, c: Config, e: Encounter, n: nat)
    requires Begun(history, light, request, c, e, n)
    ensures var log := Run(history, c.setup).log;
            && n <= |log| && Where(Active(log), UpTo(n)) == Active(log) && e.previews.Some?
            && light == request.(messages := Messages(WithPreviews(Active(log), e.previews.value)))
            && light.envelope == request.envelope && light.supplement == request.supplement
  {
    hide Run, Active, Where, Messages, WithPreviews;
  }

  lemma {:induction false} SameIfNotSent(r: Effect, history: seq<Action>, request: Request, c: Config, e: Encounter,
                                         boundary: string, n: nat)
    requires e.previews.Some? && !r.outcome.Sent?
    ensures EffectCarries(r, history, request, c, e, boundary, n)
       <==> ShowsSame(Run(history, c.setup).log, Run(history + r.actions, c.setup).log, n)
  {
    hide Run, ShowsSame, Carries;
  }

  lemma {:induction false} CarriesIfSent(r: Effect, history: seq<Action>, request: Request, c: Config, e: Encounter,
                                         boundary: string, n: nat)
    requires e.previews.Some? && r.outcome.Sent?
    ensures EffectCarries(r, history, request, c, e, boundary, n)
       <==> Carries(r.outcome.request, request, Run(history + r.actions, c.setup).log, n, e.previews.value, boundary)
  {
    hide Run, ShowsSame, Carries;
  }

  lemma {:induction false} SettledCarries(history: seq<Action>, light: Request, request: Request, c: Config, e: Encounter,
                                          manual: bool, boundary: string, failures: nat, anchor: Option<Anchor>, n: nat)
    requires Begun(history, light, request, c, e, n)
    ensures var log := Run(history, c.setup).log;
            var r := Settled(log, light, WithPreviews(Active(log), e.previews.value), c, e, manual, boundary, failures, anchor);
            r.outcome.Sent? ==> EffectCarries(r, history, request, c, e, boundary, n)
  {
    var log, trigger := Run(history, c.setup).log, if manual then "manual" else "automatic";
    assert e.previews.Some?;
    hide Run, Compacting, AfterFailure, Active, Where, WithPreviews, EffectCarries, Begun, MakeAttempt;
    var k := Compacting(log, light, WithPreviews(Active(log), e.previews.value), c, e, trigger, boundary, failures, anchor);
    CompactingCarries(history, light, request, c, e, trigger, boundary, failures, anchor, n);
    NothingElse(log, light, WithPreviews(Active(log), e.previews.value), c, e, manual, boundary, failures, anchor);
    hide *;
    if !k.outcome.Sent? {
      FailureCarries(history, light, request, c, e, manual, boundary, k, n);
    }
  }

  /** A call ends as its attempt does, or as its failure does. */
  lemma {:induction false} NothingElse(log: seq<Event>, light: Request, prepared: seq<Event>, c: Config, e: Encounter,
                                       manual: bool, boundary: string, failures: nat, anchor: Option<Anchor>)
    ensures var trigger := if manual then "manual" else "automatic";
            var k := Compacting(log, light, prepared, c, e, trigger, boundary, failures, anchor);
            var r := Settled(log, light, prepared, c, e, manual, boundary, failures, anchor);
            r == k || (!k.outcome.Sent? && r == AfterFailure(log, light, c, manual, boundary, k))
  {
    hide Compacting, AfterFailure;
  }

  lemma {:induction false} NoteIsOneRow(history: seq<Action>, result: string, setup: Setup)
    ensures |Run(history + [Note(result)], setup).log| == |Run(history, setup).log| + 1
  {
    RunOnce(history, Note(result), setup);
    hide Run;
  }

  lemma {:induction false} LightIsQuiet(history: seq<Action>, actions: seq<Action>, setup: Setup)
    requires actions == [] || actions == [Note("offloaded")]
    ensures var log, begun := Run(history, setup).log, Run(history + actions, setup).log;
            && |log| <= |begun| && Active(begun) == Active(log) && LatestSummary(begun) == LatestSummary(log)
            && Where(Active(begun), UpTo(|log|)) == Active(begun)
  {
    hide *;
    LogIsUpTo(history, setup);
    NoteShowsSame(history, "offloaded", 0, setup);
    NoteIsOneRow(history, "offloaded", setup);
    assert history + [] == history;
  }

  lemma {:induction false} LightBegins(history: seq<Action>, request: Request, c: Config, e: Encounter, anchor: Option<Anchor>)
    requires e.previews.Some?
    ensures var log := Run(history, c.setup).log;
            var light := Lightened(log, request, e, anchor);
            var begun := Run(history + light.actions, c.setup).log;
            && Begun(history + light.actions, light.request, request, c, e, |log|)
            && Active(begun) == Active(log) && LatestSummary(begun) == LatestSummary(log)
            && light.prepared == WithPreviews(Active(begun), e.previews.value)
            && light.request == request.(messages := Messages(light.prepared))
  {
    hide Run, Active, LatestSummary, Where, WithPreviews, Messages;
    LightIsQuiet(history, Lightened(Run(history, c.setup).log, request, e, anchor).actions, c.setup);
  }

  lemma {:induction false} ThenCarries(first: seq<Action>, k: Effect, history: seq<Action>, request: Request,
                                       c: Config, e: Encounter,
                                       boundary: string, n: nat)
    requires e.previews.Some? && k.outcome.Sent? && EffectCarries(k, history + first, request, c, e, boundary, n)
    ensures EffectCarries(Then(first, k), history, request, c, e, boundary, n)
  {
    assert (history + first) + k.actions == history + (first + k.actions);
    hide Run, Carries;
  }

  lemma {:induction false} SentAsItIs(history: seq<Action>, light: Request, request: Request, c: Config,
                                      e: Encounter, boundary: string,
                                      k: Effect, n: nat)
    requires Begun(history, light, request, c, e, n)
    requires k.outcome == Sent(Activated(Run(history, c.setup).log, light, boundary))
    requires k.actions == [] || k.actions == [Note("breaker")]
    ensures EffectCarries(k, history, request, c, e, boundary, n)
  {
    var log := Run(history, c.setup).log;
    assert history + [] == history;
    hide Run, Active, LatestSummary, Where, WithPreviews, Messages, Activated, Carries;
    NoteShowsSame(history, "breaker", n, c.setup);
    ActivatedCarries(log, light, request, Run(history + k.actions, c.setup).log, n, e.previews.value, boundary);
  }

  lemma {:induction false} SameActivated(x: seq<Event>, y: seq<Event>, light: Request, boundary: string)
    requires LatestSummary(x) == LatestSummary(y)
    ensures Activated(x, light, boundary) == Activated(y, light, boundary)
  {
    hide LatestSummary;
  }

  lemma {:induction false} PreparedCarries(history: seq<Action>, request: Request, c: Config, e: Encounter, boundary: string,
                                           failures: nat, anchor: Option<Anchor>)
    requires e.previews.Some?
    ensures var log := Run(history, c.setup).log;
            var r := Preparing(log, request, c, e, boundary, failures, anchor);
            r.outcome.Sent? ==> EffectCarries(r, history, request, c, e, boundary, |log|)
  {
    var log := Run(history, c.setup).log;
    var r, light := Preparing(log, request, c, e, boundary, failures, anchor), Lightened(log, request, e, anchor);
    var begun := history + light.actions;
    LightBegins(history, request, c, e, anchor);
    hide Run, Settled, Active, LatestSummary, WithPreviews, Messages, Lightened, Begun, EffectCarries, Activated;
    var activated := Activated(log, light.request, boundary);
    SameActivated(log, Run(begun, c.setup).log, light.request, boundary);
    if !r.outcome.Sent? {
      return;
    }
    if c.estimate(activated, light.anchor) < c.Trigger() || c.failureLimit <= failures {
      var actions := if c.estimate(activated, light.anchor) < c.Trigger() then [] else [Note("breaker")];
      var k := Effect(Sent(activated), actions, failures, light.anchor);
      assert r == Then(light.actions, k);
      hide *;
      SentAsItIs(begun, light.request, request, c, e, boundary, k, |log|);
      ThenCarries(light.actions, k, history, request, c, e, boundary, |log|);
      return;
    }
    var k := Settled(log, light.request, light.prepared, c, e, false, boundary, failures, light.anchor);
    assert r == Then(light.actions, k) && k.outcome.Sent?;
    hide *;
    SameSettled(log, Run(begun, c.setup).log, light.request, light.prepared, c, e, false, boundary, failures, light.anchor);
    SettledCarries(begun, light.request, request, c, e, false, boundary, failures, light.anchor, |log|);
    ThenCarries(light.actions, k, history, request, c, e, boundary, |log|);
  }

  lemma {:induction false} ManualCarries(history: seq<Action>, request: Request, c: Config, e: Encounter, boundary: string,
                                         failures: nat, anchor: Option<Anchor>)
    requires e.previews.Some?
    ensures var log := Run(history, c.setup).log;
            var r := CompactingManually(log, request, c, e, boundary, failures, anchor);
            r.outcome.Sent? ==> EffectCarries(r, history, request, c, e, boundary, |log|)
  {
    var log := Run(history, c.setup).log;
    var light := Lightened(log, request, e, anchor);
    var begun := history + light.actions;
    LightBegins(history, request, c, e, anchor);
    hide Run, Settled, Active, LatestSummary, WithPreviews, Messages, Lightened, Begun, EffectCarries;
    var k := Settled(log, light.request, light.prepared, c, e, true, boundary, failures, light.anchor);
    SameSettled(log, Run(begun, c.setup).log, light.request, light.prepared, c, e, true, boundary, failures, light.anchor);
    SettledCarries(begun, light.request, request, c, e, true, boundary, failures, light.anchor, |log|);
    if k.outcome.Sent? { ThenCarries(light.actions, k, history, request, c, e, boundary, |log|); }
  }

  lemma {:induction false} RecoveredCarries(history: seq<Action>, request: Request, c: Config, e: Encounter, boundary: string,
                                            failures: nat, anchor: Option<Anchor>)
    requires e.previews.Some?
    ensures var log := Run(history, c.setup).log;
            var r := Recovering(log, request, c, e, boundary, failures, anchor);
            r.outcome.Sent? ==> EffectCarries(r, history, request, c, e, boundary, |log|)
  {
    var log := Run(history, c.setup).log;
    var light := Lightened(log, request, e, anchor);
    var begun := history + light.actions;
    var k := Compacting(log, light.request, light.prepared, c, e, "emergency", boundary, failures, light.anchor);
    hide Run, Compacting, Lightened;
    var r := Recovering(log, request, c, e, boundary, failures, anchor);
    assert r.outcome.Sent? ==> k.outcome.Sent? && r == Then(light.actions, k);
    hide *;
    LightBegins(history, request, c, e, anchor);
    SameCompacting(log, Run(begun, c.setup).log, light.request, light.prepared, c, e, "emergency", boundary, failures, light.anchor);
    CompactingCarries(begun, light.request, request, c, e, "emergency", boundary, failures, light.anchor, |log|);
    if k.outcome.Sent? { ThenCarries(light.actions, k, history, request, c, e, boundary, |log|); }
  }

  /** Whatever call lets a request out, and whatever happened to the conversation before, the request carries the
      conversation: of what was logged when the call began all that the log shows from then on, and the latest
      summary. Nothing that a summary covers goes out without it. */
  lemma {:induction false} SentCarriesTheLog(history: seq<Action>, request: Request, c: Config, e: Encounter, boundary: string,
                                             failures: nat, anchor: Option<Anchor>, r: Effect)
    requires var log := Run(history, c.setup).log;
             || r == Preparing(log, request, c, e, boundary, failures, anchor)
             || r == CompactingManually(log, request, c, e, boundary, failures, anchor)
             || r == Recovering(log, request, c, e, boundary, failures, anchor)
    requires r.outcome.Sent?
    ensures e.previews.Some?
    ensures Carries(r.outcome.request, request, Run(history + r.actions, c.setup).log, |Run(history, c.setup).log|,
                    e.previews.value, boundary)
  {
    if e.previews.Some? {
      PreparedCarries(history, request, c, e, boundary, failures, anchor);
      ManualCarries(history, request, c, e, boundary, failures, anchor);
      RecoveredCarries(history, request, c, e, boundary, failures, anchor);
    }
    hide Run, Settled, Compacting, Lightened, Activated, Carries;
  }

  lemma {:induction false} SameThrough(x: seq<Event>, y: seq<Event>, z: seq<Event>, n: nat)
    requires ShowsSame(x, y, n) && ShowsSame(y, z, n)
    ensures ShowsSame(x, z, n)
  {
    hide Active, Where, LatestSummary;
  }

  // ---- the manager ----

  /** A diagnostic changes neither what is active nor the latest summary. */
  lemma {:induction false} DiagnosticIsInvisible(s: State, result: string)
    requires Inv(s)
    ensures Active(Add(s.log, Diagnostic(result))) == Active(s.log)
    ensures LatestSummary(Add(s.log, Diagnostic(result))) == LatestSummary(s.log)
  {
    var e := Event(|s.log| + 1, ContextDiagnostic, "", None, Some(map["result" := Text(result)]));
    ActiveSnoc(s.log, e);
    LatestOfSnoc(s.log, e);
    hide Active;
    assert Active(s.log) + [] == Active(s.log);
  }

  lemma {:induction false} AfterSummary(history: seq<Action>, a: Attempt, setup: Setup)
    requires a.generated
    requires Choose(Prepared(Run(history, setup).log, a), a.budget, setup).summary != []
    ensures var before := Run(history, setup).log;
            Run(history + [Compact(a)], setup).log
            == Add(before + Tail(|before|, a.during),
                   SummaryRow(before, Choose(Prepared(before, a), a.budget, setup), a))
  {
    RunOnce(history, Compact(a), setup);
    CompactSucceeds(Run(history, setup), a, setup);
    hide Run, Choose, CompactStep, SummaryRow, Tail, Retained, GivenTo, Sequences, Where, LatestSummary;
  }

  lemma {:induction false} AfterClear(history: seq<Action>, setup: Setup)
    ensures Run(history + [Clear], setup).log == Add(Run(history, setup).log, Row(System, "", None, Some(CLEAR)))
    ensures Active(Run(history + [Clear], setup).log) == []
  {
    RunKeepsInv(history, setup);
    RunOnce(history, Clear, setup);
    hide Run, Inv, Active;
    ClearKeepsInv(Run(history, setup), setup);
  }

  class ContextManager {
    const log: ConversationLog
    const c: Config
    const boundary: string
    var anchor: Option<Anchor>
    var failures: nat
    /** Everything that ever happened to the conversation. */
    ghost var history: seq<Action>

    ghost predicate Valid()
      reads this, log
    {
      log.Valid() && log.events == Run(history, c.setup).log
    }

    constructor (c: Config, boundary: string)
      ensures Valid() && fresh(log) && history == [] && failures == 0 && anchor == None
      ensures this.c == c && this.boundary == boundary
    {
      this.log := new ConversationLog();
      this.c, this.boundary := c, boundary;
      anchor, failures, history := None, 0, [];
    }

    ghost method RunInvariant()
      requires Valid()
      ensures Inv(Run(history, c.setup))
    {
      RunKeepsInv(history, c.setup);
    }

    /** What is proved of every run holds of a manager's log at any time. */
    lemma RebuildIsMemory()
      requires Valid()
      ensures Sequences(Active(log.events)) == Run(history, c.setup).expected
      ensures forall e :: e in log.events && Visible(e.kind) && LatestClear(log.events) < e.sequence ==>
        e in Active(log.events) || e.sequence in Run(history, c.setup).covers
    {
      RebuildEqualsMemory(history, c.setup);
      forall e | e in log.events && Visible(e.kind) && LatestClear(log.events) < e.sequence
        ensures e in Active(log.events) || e.sequence in Run(history, c.setup).covers
      {
        NothingForgotten(history, c.setup, e);
      }
    }

    /** Anything the session itself appends: turns, tool results, progress. */
    method Record(row: Row)
      requires Valid() && Ordinary(row)
      modifies log, this`history
      ensures Valid() && history == old(history) + [Append(row)]
      ensures log.events == Add(old(log.events), row)
    {
      hide Run;
      RunOnce(history, Append(row), c.setup);
      var e := log.AppendEvent(row.kind, row.content, row.callId, row.metadata);
      history := history + [Append(row)];
    }

    method RecordAll(rows: seq<Row>)
      requires log.Valid()
      modifies log
      ensures log.Valid() && log.events == old(log.events) + Tail(|old(log.events)|, rows)
    {
      var i := 0;
      ghost var n := |log.events|;
      while i < |rows|
        invariant i <= |rows| && log.Valid() && log.events == old(log.events) + Tail(n, rows[..i])
      {
        assert rows[..i + 1][..i] == rows[..i];
        if Ordinary(rows[i]) {
          var e := log.AppendEvent(rows[i].kind, rows[i].content, rows[i].callId, rows[i].metadata);
        }
        i := i + 1;
      }
      assert rows[..i] == rows;
    }

    method AppendDiagnostic(result: string)
      requires Valid()
      modifies log, this`history
      ensures Valid() && history == old(history) + [Note(result)]
      ensures log.events == Add(old(log.events), Diagnostic(result))
      ensures Active(log.events) == Active(old(log.events))
      ensures LatestSummary(log.events) == LatestSummary(old(log.events))
    {
      RunInvariant();
      DiagnosticIsInvisible(Run(history, c.setup), result);
      hide Run, Inv, Active, LatestSummary;
      Record(Diagnostic(result));
    }

    /** Messages rebuilt for a restored conversation. */
    method ActiveMessages() returns (messages: seq<Message>)
      requires Valid()
      ensures messages == Messages(Active(log.events))
    {
      hide Run;
      var events := ActiveEvents(log);
      messages := MessagesFromEvents(events);
    }

    method AddLatestSummary(request: Request) returns (r: Request)
      requires Valid()
      ensures r == Activated(log.events, request, boundary)
    {
      hide Run;
      var summary := log.LoadLatestContextSummary();
      r := if summary.None? then request
           else request.(supplement := SummarySupplement(request.supplement, summary.value.content, boundary));
    }

    method EnsureHardLimit(request: Request, anchor: Option<Anchor>) returns (safe: bool)
      requires Valid()
      modifies log, this`history
      ensures Valid() && safe == c.Fits(request, anchor)
      ensures history == old(history) + if safe then [] else [Note("blocked")]
      ensures safe ==> log.events == old(log.events)
    {
      hide Run;
      safe := c.estimate(request, anchor) <= c.HardLimit();
      if !safe {
        AppendDiagnostic("blocked");
      }
    }

    method PrepareLight(request: Request, e: Encounter) returns (light: Request, prepared: seq<Event>)
      requires Valid() && e.previews.Some?
      modifies log, this`history, this`anchor
      ensures Valid()
      ensures var l := Lightened(old(log.events), request, e, old(anchor));
              light == l.request && prepared == l.prepared && history == old(history) + l.actions && anchor == l.anchor
      ensures Active(log.events) == Active(old(log.events))
      ensures LatestSummary(log.events) == LatestSummary(old(log.events))
    {
      hide Run, Active, LatestSummary;
      var events := ActiveEvents(log);
      prepared := WithPreviews(events, e.previews.value);
      var messages := MessagesFromEvents(prepared);
      light := request.(messages := messages);
      if e.previews.value != map[] {
        anchor := None;
        if e.report {
          AppendDiagnostic("offloaded");
        }
      }
    }

    /** Appends what others appended meanwhile, and nothing else. */
    method Unfinished(a: Attempt)
      requires Valid() && !a.generated
      requires Choose(Prepared(log.events, a), a.budget, c.setup).summary != []
      modifies log, this`history
      ensures Valid() && history == old(history) + [Compact(a)]
      ensures LatestSummary(log.events) == LatestSummary(old(log.events))
    {
      ghost var s := Run(history, c.setup);
      RunInvariant();
      RowsKeepInv(s, a.during);
      AppendRowsIs(s, a.during);
      RunOnce(history, Compact(a), c.setup);
      hide Run, Inv, Choose, LatestSummary, AppendRows, Tail;
      RecordAll(a.during);
      history := history + [Compact(a)];
    }

    /** What the new summary will cover: never less than the one before it. */
    method NextCoverage(selection: Selection) returns (through: int, preserved: seq<nat>)
      requires Valid()
      ensures through == NewThrough(log.events, selection)
      ensures preserved == PreservedSequences(Retained(selection), through)
    {
      hide Run, Inv, LatestSummary, PreservedSequences;
      var previous := log.LoadLatestContextSummary();
      var retained := SortBySequence(selection.preserved + EventsOf(selection.recent));
      var previousThrough := 0;
      if previous.Some? && previous.value.metadata.Some? {
        var value := WholeNumber(Field(previous.value.metadata.value, "through_sequence"));
        previousThrough := if value.Some? then value.value else 0;
      }
      through := if previousThrough < Through(selection) then Through(selection) else previousThrough;
      preserved := PreservedSequences(retained, through);
    }

    /** The rows a successful compaction leaves: those of others, then the summary. */
    method Store(a: Attempt, through: int, preserved: seq<nat>)
      requires log.Valid() && ValidTrigger(a.trigger)
      requires 0 <= through && forall n :: n in preserved ==> n <= through
      modifies log
      ensures log.Valid()
      ensures var before := old(log.events);
              log.events == Add(before + Tail(|before|, a.during),
                Row(Summary, a.summary, None,
                    Some(SummaryMetadata(through, preserved, a.trigger, a.before, a.after, 1))))
    {
      hide Tail, SummaryMetadata;
      RecordAll(a.during);
      var written := log.AppendContextSummary(a.summary, through, preserved, a.trigger, a.before, a.after, 1);
    }

    lemma CoverageIsWritable(a: Attempt, selection: Selection)
      requires Valid() && selection == Choose(Prepared(log.events, a), a.budget, c.setup) && selection.summary != []
      ensures var through := NewThrough(log.events, selection);
              0 <= through && forall n :: n in PreservedSequences(Retained(selection), through) ==> n <= through
    {
      RunKeepsInv(history, c.setup);
      NewThroughBounds(log.events, a, c.setup);
      var through := NewThrough(log.events, selection);
      hide Run, Choose, PreservedSequences, Retained, NewThrough;
      forall n | n in PreservedSequences(Retained(selection), through) ensures n <= through {
        PreservedSequenceIn(Retained(selection), through, n);
      }
    }

    /** Writes the summary with the metadata a later rebuild needs. */
    method WriteSummary(a: Attempt, selection: Selection)
      requires Valid() && a.generated && ValidTrigger(a.trigger)
      requires selection == Choose(Prepared(log.events, a), a.budget, c.setup) && selection.summary != []
      modifies log, this`history
      ensures Valid() && history == old(history) + [Compact(a)]
    {
      CoverageIsWritable(a, selection);
      AfterSummary(history, a, c.setup);
      hide Run, Choose, Tail, PreservedSequences, Retained, NewThrough, Prepared, Numbered, SummaryMetadata, ValidTrigger;
      var through, preserved := NextCoverage(selection);
      Store(a, through, preserved);
      history := history + [Compact(a)];
    }

    method ChooseHistory(prepared: seq<Event>, budget: int) returns (selection: Selection)
      ensures selection == Choose(prepared, budget, c.setup)
    {
      var groups := GroupContextEvents(prepared);
      selection := SelectCompactionHistory(Measured(groups, c.setup.cost), c.setup.policy, c.setup.weigh, budget);
    }

    /** Nothing is old enough to summarise: the request goes out as it is, if it fits. */
    method SendUncompacted(light: Request) returns (outcome: Outcome)
      requires Valid()
      modifies log, this`history
      ensures Valid()
      ensures var activated := Activated(old(log.events), light, boundary);
              if c.Fits(activated, None)
              then outcome == Sent(activated) && history == old(history) + [Note("noop")]
              else outcome == LimitExceeded && history == old(history) + [Note("blocked")]
      ensures LatestSummary(log.events) == LatestSummary(old(log.events))
    {
      hide Run, LatestSummary, Active;
      var activated := AddLatestSummary(light);
      if c.estimate(activated, None) <= c.HardLimit() {
        AppendDiagnostic("noop");
        return Sent(activated);
      }
      AppendDiagnostic("blocked");
      return LimitExceeded;
    }

    method CompactRequest(light: Request, prepared: seq<Event>, e: Encounter, trigger: string)
        returns (outcome: Outcome)
      requires Valid() && e.previews.Some? && ValidTrigger(trigger)
      requires prepared == WithPreviews(Active(log.events), e.previews.value)
      modifies log, this
      ensures Valid()
      ensures var r := Compacting(old(log.events), light, prepared, c, e, trigger, boundary, old(failures), old(anchor));
              && outcome == r.outcome && history == old(history) + r.actions
              && failures == r.failures && anchor == r.anchor
              && (!Succeeds(r.actions) ==> LatestSummary(log.events) == LatestSummary(old(log.events)))
    {
      hide Run, Choose, LatestSummary, Active, WithPreviews, Retained, Messages, SummarySupplement, ValidTrigger;
      ghost var r := Compacting(log.events, light, prepared, c, e, trigger, boundary, failures, anchor);
      var before := c.estimate(light, None);
      var selection := ChooseHistory(prepared, c.RetainedBudget(light));
      if selection.summary == [] {
        outcome := SendUncompacted(light);
        return;
      }
      if e.generation.TooLarge? {
        AppendDiagnostic("blocked");
        return LimitExceeded;
      }
      var unfinished := MakeAttempt(light, c, e, trigger, false, "", before, 0);
      if !e.generation.Written? {
        Unfinished(unfinished);
        return if e.generation.Failed? then SummaryFailed else Cancelled;
      }
      var messages := MessagesFromEvents(SortBySequence(selection.preserved + EventsOf(selection.recent)));
      var compacted := light.(messages := messages,
                              supplement := SummarySupplement(light.supplement, e.generation.text, boundary));
      assert messages == Messages(Retained(selection)) by { RetainedIs(selection); }
      var after := c.estimate(compacted, None);
      if c.HardLimit() < after {
        Unfinished(unfinished);
        AppendDiagnostic("blocked");
        return LimitExceeded;
      }
      var attempt := MakeAttempt(light, c, e, trigger, true, e.generation.text, before, after);
      assert Succeeds(r.actions) by { assert r.actions[0] == Compact(attempt); }
      WriteSummary(attempt, selection);
      anchor, failures := None, 0;
      AppendDiagnostic("compacted");
      return Sent(compacted);
    }

    lemma RetainedIs(s: Selection)
      ensures Retained(s) == SortBySequence(s.preserved + EventsOf(s.recent))
    {
    }

    /** The failure counts; unless the user asked, what is still too large is blocked. */
    method FailedCompaction(light: Request, manual: bool) returns (outcome: Outcome)
      requires Valid()
      modifies log, this
      ensures Valid() && anchor == old(anchor) && failures == old(failures) + 1
      ensures var activated := Activated(old(log.events), light, boundary);
              var blocked := !manual && !c.Fits(activated, None);
              && outcome == (if blocked then LimitExceeded else Sent(activated))
              && history == old(history) + [Note("failed")] + if blocked then [Note("blocked")] else []
    {
      hide Run, Active, LatestSummary, SummarySupplement;
      failures := failures + 1;
      var activated := AddLatestSummary(light);
      AppendDiagnostic("failed");
      if !manual && c.HardLimit() < c.estimate(activated, None) {
        var safe := EnsureHardLimit(activated, None);
        return LimitExceeded;
      }
      return Sent(activated);
    }

    method Settle(light: Request, prepared: seq<Event>, e: Encounter, manual: bool) returns (outcome: Outcome)
      requires Valid() && e.previews.Some?
      requires prepared == WithPreviews(Active(log.events), e.previews.value)
      modifies log, this
      ensures Valid()
      ensures var r := Settled(old(log.events), light, prepared, c, e, manual, boundary, old(failures), old(anchor));
              && outcome == r.outcome && history == old(history) + r.actions
              && failures == r.failures && anchor == r.anchor
    {
      hide Run, Active, LatestSummary, Compacting, SummarySupplement, WithPreviews, Messages, Succeeds;
      var trigger := if manual then "manual" else "automatic";
      CompactingCounts(log.events, light, prepared, c, e, trigger, boundary, failures, anchor);
      outcome := CompactRequest(light, prepared, e, trigger);
      if outcome.SummaryFailed? || outcome.LimitExceeded? {
        outcome := FailedCompaction(light, manual);
      }
    }

    /** Sends without compaction, with a note if that is the breaker's doing. */
    method SendChecked(activated: Request, breaker: bool) returns (outcome: Outcome)
      requires Valid()
      modifies log, this`history
      ensures Valid()
      ensures outcome == if c.Fits(activated, anchor) then Sent(activated) else LimitExceeded
      ensures history == old(history)
        + if !c.Fits(activated, anchor) then [Note("blocked")] else if breaker then [Note("breaker")] else []
    {
      hide Run, Active, LatestSummary;
      var safe := EnsureHardLimit(activated, anchor);
      if !safe {
        return LimitExceeded;
      }
      if breaker {
        AppendDiagnostic("breaker");
      }
      return Sent(activated);
    }

    method PrepareRequest(request: Request, e: Encounter) returns (outcome: Outcome)
      requires Valid()
      modifies log, this
      ensures Valid()
      ensures var r := Preparing(old(log.events), request, c, e, boundary, old(failures), old(anchor));
              && outcome == r.outcome && history == old(history) + r.actions
              && failures == r.failures && anchor == r.anchor
      ensures outcome.Sent? ==>
        e.previews.Some?
        && Carries(outcome.request, request, log.events, |old(log.events)|, e.previews.value, boundary)
    {
      hide Run, Carries, Active, LatestSummary, SummarySupplement, WithPreviews, Messages, Settled;
      if e.previews.None? {
        AppendDiagnostic("blocked");
        return NotStored;
      }
      ghost var before := log.events;
      var light, prepared := PrepareLight(request, e);
      var activated := AddLatestSummary(light);
      var estimated := c.estimate(activated, anchor);
      if estimated < c.Trigger() || c.failureLimit <= failures {
        outcome := SendChecked(activated, c.Trigger() <= estimated);
      } else {
        SameSettled(before, log.events, light, prepared, c, e, false, boundary, failures, anchor);
        outcome := Settle(light, prepared, e, false);
      }
      if outcome.Sent? {
        SentCarriesTheLog(old(history), request, c, e, boundary, old(failures), old(anchor),
                          Preparing(old(log.events), request, c, e, boundary, old(failures), old(anchor)));
      }
    }

    /** One attempt the user asked for, whatever the breaker says. */
    method CompactManually(request: Request, e: Encounter) returns (outcome: Outcome)
      requires Valid()
      modifies log, this
      ensures Valid()
      ensures var r := CompactingManually(old(log.events), request, c, e, boundary, old(failures), old(anchor));
              && outcome == r.outcome && history == old(history) + r.actions
              && failures == r.failures && anchor == r.anchor
      ensures outcome.Sent? ==>
        e.previews.Some?
        && Carries(outcome.request, request, log.events, |old(log.events)|, e.previews.value, boundary)
    {
      hide Run, Carries, Active, LatestSummary, SummarySupplement, WithPreviews, Messages, Settled;
      if e.previews.None? {
        AppendDiagnostic("blocked");
        return NotStored;
      }
      ghost var before := log.events;
      var light, prepared := PrepareLight(request, e);
      SameSettled(before, log.events, light, prepared, c, e, true, boundary, failures, anchor);
      outcome := Settle(light, prepared, e, true);
      if outcome.Sent? {
        SentCarriesTheLog(old(history), request, c, e, boundary, old(failures), old(anchor),
                          CompactingManually(old(log.events), request, c, e, boundary, old(failures), old(anchor)));
      }
    }

    /** One attempt after the provider itself reported an overflow. */
    method RecoverOverflow(request: Request, e: Encounter) returns (outcome: Outcome)
      requires Valid()
      modifies log, this
      ensures Valid()
      ensures var r := Recovering(old(log.events), request, c, e, boundary, old(failures), old(anchor));
              && outcome == r.outcome && history == old(history) + r.actions
              && failures == r.failures && anchor == r.anchor
      ensures outcome.Sent? ==>
        e.previews.Some?
        && Carries(outcome.request, request, log.events, |old(log.events)|, e.previews.value, boundary)
    {
      hide Run, Carries, Active, LatestSummary, Compacting, SummarySupplement, WithPreviews, Messages, Succeeds;
      if e.previews.None? {
        AppendDiagnostic("blocked");
        return NotStored;
      }
      ghost var before := log.events;
      var light, prepared := PrepareLight(request, e);
      SameCompacting(before, log.events, light, prepared, c, e, "emergency", boundary, failures, anchor);
      outcome := CompactRequest(light, prepared, e, "emergency");
      if outcome.SummaryFailed? || outcome.LimitExceeded? {
        failures := failures + 1;
        AppendDiagnostic("failed");
        outcome := RecoveryFailed;
      }
      if outcome.Sent? {
        SentCarriesTheLog(old(history), request, c, e, boundary, old(failures), old(anchor),
                          Recovering(old(log.events), request, c, e, boundary, old(failures), old(anchor)));
      }
    }

    /** `/clear`: a boundary in the log, and the manager forgets estimates and failures. */
    method ClearContext()
      requires Valid()
      modifies log, this
      ensures Valid() && history == old(history) + [Clear]
      ensures failures == 0 && anchor == None && Active(log.events) == []
    {
      AfterClear(history, c.setup);
      hide Run, Active, LatestClear, LatestSummary;
      var e := log.AppendClearBoundary();
      history := history + [Clear];
      anchor, failures := None, 0;
    }

    method ObserveUsage(request: Request, tokens: Option<nat>)
      modifies this`anchor
      ensures anchor == if tokens.None? then old(anchor) else Some(Anchor(request, tokens.value))
    {
      if tokens.Some? {
        anchor := Some(Anchor(request, tokens.value));
      }
    }
  }

  /** Only the latest summary of the log matters once the history is prepared. */
  lemma {:induction false} SameCompacting(x: seq<Event>, y: seq<Event>, light: Request, prepared: seq<Event>, c: Config,
                                          e: Encounter, trigger: string, boundary: string, failures: nat,
                                          anchor: Option<Anchor>)
    requires LatestSummary(x) == LatestSummary(y)
    ensures Compacting(x, light, prepared, c, e, trigger, boundary, failures, anchor)
            == Compacting(y, light, prepared, c, e, trigger, boundary, failures, anchor)
  {
    hide LatestSummary, Choose, Messages, SummarySupplement, Retained;
  }

  lemma {:induction false} SameSettled(x: seq<Event>, y: seq<Event>, light: Request, prepared: seq<Event>, c: Config,
                                       e: Encounter, manual: bool, boundary: string, failures: nat,
                                       anchor: Option<Anchor>)
    requires LatestSummary(x) == LatestSummary(y)
    ensures Settled(x, light, prepared, c, e, manual, boundary, failures, anchor)
            == Settled(y, light, prepared, c, e, manual, boundary, failures, anchor)
  {
    hide LatestSummary, Compacting, SummarySupplement;
    SameCompacting(x, y, light, prepared, c, e, if manual then "manual" else "automatic", boundary, failures, anchor);
  }
}
