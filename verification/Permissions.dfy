/** Permission rules, the layered decision over them, and what one approval changes. */
module Permissions {
  import opened Wrappers
  import Glob

  datatype Effect = Allow | Deny
  datatype Source = User | ProjectShared | ProjectLocal | Session
  datatype Mode = Strict | Default | Trusted
  datatype Kind = Allowed | Denied | Ask
  datatype Choice = ChooseDeny | ChooseOnce | ChooseSession | ChoosePermanent

  datatype Rule = Rule(expression: string, tool: string, pattern: string, effect: Effect, source: Source,
                       exact: bool, pieces: seq<Glob.Piece>)
  {
    predicate Matches(target: string) {
      Glob.Matches(pieces, target)
    }
  }

  datatype Subject = Subject(tool: string, target: string, readOnly: bool)

  datatype Decision = Decision(kind: Kind, layer: string, rule: Option<Rule>)

  datatype Snapshot = Snapshot(userRules: seq<Rule>, localRules: seq<Rule>, sharedRules: seq<Rule>,
                               projectTrusted: bool, locked: bool, mode: Mode)

  // ---- rule expressions ----

  const KNOWN_TOOLS: set<string> := {
    "read_file", "write_file", "edit_file", "run_command", "find_files", "search_code",
    "team_create", "team_task_create", "team_task_get", "team_task_list", "team_task_update",
    "team_task_delete", "team_message_send", "team_inbox_list", "team_plan_submit", "team_plan_review",
    "team_member_start", "team_member_assign", "team_member_resume", "team_member_stop",
    "team_task_complete", "team_integrate_task", "team_finalize_prepare", "team_finalize"
  }

  predicate Lower(c: char) { 'a' <= c <= 'z' }

  predicate NameStart(c: char) { Lower(c) || c == '_' }

  predicate NamePart(c: char) { NameStart(c) || '0' <= c <= '9' }

  predicate AllNameParts(s: string) {
    forall i :: 0 <= i < |s| ==> NamePart(s[i])
  }

  /** `[a-z_][a-z0-9_]{0,63}` */
  predicate ToolName(s: string) {
    1 <= |s| <= 64 && NameStart(s[0]) && AllNameParts(s)
  }

  /** `mcp__[a-z][a-z0-9_]{0,31}__[a-z_][a-z0-9_]*`, at most 64 characters. */
  predicate McpTool(s: string) {
    && |s| <= 64
    && |s| >= 5 && s[..5] == "mcp__"
    && exists k :: 6 <= k <= 37 && k + 3 <= |s| && ServerAndTool(s, k)
  }

  predicate ServerAndTool(s: string, k: nat)
    requires 6 <= k && k + 3 <= |s|
  {
    && Lower(s[5]) && AllNameParts(s[5..k])
    && s[k..k + 2] == "__"
    && NameStart(s[k + 2]) && AllNameParts(s[k + 2..])
  }

  predicate KnownTool(s: string) {
    s in KNOWN_TOOLS || McpTool(s)
  }

  predicate Whitespace(c: char) {
    || ('\t' <= c <= '\r') || (0x1c as char <= c <= ' ') || c == 0x85 as char || c == 0xa0 as char
    || c == 0x1680 as char || (0x2000 as char <= c <= 0x200a as char) || c == 0x2028 as char
    || c == 0x2029 as char || c == 0x202f as char || c == 0x205f as char || c == 0x3000 as char
  }

  predicate Printable(s: string) {
    forall i :: 0 <= i < |s| ==> !Glob.Control(s[i])
  }

  predicate Trimmed(s: string) {
    s == "" || (!Whitespace(s[0]) && !Whitespace(s[|s| - 1]))
  }

  function Paren(s: string): (at: nat)
    ensures at <= |s|
    ensures at < |s| ==> s[at] == '('
    ensures forall i :: 0 <= i < at ==> s[i] != '('
  {
    if s == "" || s[0] == '(' then 0 else 1 + Paren(s[1..])
  }

  /** A rule is one trimmed printable line `tool(pattern)` over a known tool. */
  function ParseRule(expression: string, effect: Effect, source: Source): Option<Rule> {
    var open := Paren(expression);
    if !Trimmed(expression) || !Printable(expression) then None
    else if |expression| < open + 3 || expression[|expression| - 1] != ')' || !ToolName(expression[..open]) then None
    else
      var tool, pattern := expression[..open], expression[open + 1..|expression| - 1];
      if !KnownTool(tool) then None
      else
        match Glob.Compiled(pattern)
        case Ok(glob) => Some(Rule(expression, tool, pattern, effect, source, glob.exact, glob.pieces))
        case Err(_) => None
  }

  function ExactExpression(tool: string, target: string): string {
    tool + "(" + Glob.Escaped(target) + ")"
  }

  function ExactRule(tool: string, target: string): Rule {
    Rule(ExactExpression(tool, target), tool, Glob.Escaped(target), Allow, Session, true, Glob.Literals(target))
  }

  lemma {:induction false} ParenIs(s: string, at: nat)
    requires at < |s| && s[at] == '(' && forall i :: 0 <= i < at ==> s[i] != '('
    ensures Paren(s) == at
  {
    if at > 0 { ParenIs(s[1..], at - 1); }
  }

  /** An expression parses to this rule exactly if it is the rule's tool and its pattern in parentheses, one trimmed
      printable line, of a known tool, and the pattern compiles to what the rule matches with. */
  lemma {:induction false} ParseRuleIff(expression: string, effect: Effect, source: Source, rule: Rule)
    ensures ParseRule(expression, effect, source) == Some(rule) <==>
      && expression == rule.tool + "(" + rule.pattern + ")" && Trimmed(expression) && Printable(expression)
      && ToolName(rule.tool) && KnownTool(rule.tool)
      && Glob.Compiled(rule.pattern) == Glob.Ok(Glob.Glob(rule.pieces, rule.exact))
      && rule.expression == expression && rule.effect == effect && rule.source == source
  {
    hide KnownTool, Trimmed, Printable, Glob.Compiled;
    if ParseRule(expression, effect, source) == Some(rule) {
      var open, n := Paren(expression), |expression|;
      assert expression == expression[..open] + "(" + expression[open + 1..n - 1] + ")";
    }
    if expression == rule.tool + "(" + rule.pattern + ")" && ToolName(rule.tool) {
      ParenIs(expression, |rule.tool|);
      assert expression[..|rule.tool|] == rule.tool;
      assert expression[|rule.tool| + 1..|expression| - 1] == rule.pattern;
      if rule.pattern == "" { NoEmptyPattern(); }
    }
  }

  lemma NoEmptyPattern()
    ensures Glob.Compiled("").Err?
  {
  }

  // ---- decisions ----

  predicate Applies(rule: Rule, tool: string, target: string) {
    rule.tool == tool && rule.Matches(target)
  }

  /** Exact rules before globs, then deny before allow, then the earlier rule. */
  function Rank(rule: Rule): nat {
    (if rule.exact then 0 else 2) + (if rule.effect.Deny? then 0 else 1)
  }

  function SelectRule(rules: seq<Rule>, tool: string, target: string): Option<Rule> {
    if rules == [] then None
    else
      var earlier := SelectRule(rules[..|rules| - 1], tool, target);
      var last := rules[|rules| - 1];
      if Applies(last, tool, target) && (earlier.None? || Rank(last) < Rank(earlier.value)) then Some(last)
      else earlier
  }

  function OnlyDeny(rules: seq<Rule>): seq<Rule> {
    if rules == [] then []
    else (if rules[0].effect.Deny? then [rules[0]] else []) + OnlyDeny(rules[1..])
  }

  /** The first layer with a matching rule decides; an untrusted project can only deny. */
  function SelectLayered(snapshot: Snapshot, sessionRules: seq<Rule>, subject: Subject): Option<Rule> {
    var shared := if snapshot.projectTrusted then snapshot.sharedRules else OnlyDeny(snapshot.sharedRules);
    var session := SelectRule(sessionRules, subject.tool, subject.target);
    var local := SelectRule(snapshot.localRules, subject.tool, subject.target);
    var project := SelectRule(shared, subject.tool, subject.target);
    if session.Some? then session
    else if local.Some? then local
    else if project.Some? then project
    else SelectRule(snapshot.userRules, subject.tool, subject.target)
  }

  function RuleDecision(rule: Rule, layer: string): Decision {
    Decision(if rule.effect.Allow? then Allowed else Denied, layer, Some(rule))
  }

  type Guard = string -> bool

  function Decide(snapshot: Snapshot, guard: Guard, sessionRules: seq<Rule>, mode: Mode, subject: Subject,
                  readOnlyTask: bool, preauthorized: bool): Decision
  {
    var globalDeny := SelectRule(OnlyDeny(snapshot.userRules), subject.tool, subject.target);
    var selected := SelectLayered(snapshot, sessionRules, subject);
    if readOnlyTask && !subject.readOnly then Decision(Denied, "task_mode", None)
    else if subject.tool == "run_command" && guard(subject.target) then Decision(Denied, "dangerous_command", None)
    else if globalDeny.Some? then RuleDecision(globalDeny.value, "user_global_deny")
    else if selected.Some? && selected.value.effect.Deny? then RuleDecision(selected.value, "rule")
    else if snapshot.locked && !subject.readOnly then Decision(Denied, "locked_config", None)
    else if selected.Some? then RuleDecision(selected.value, "rule")
    else if subject.readOnly then Decision(Allowed, "safe_read", None)
    else if preauthorized then Decision(Allowed, "session_capability", None)
    else if mode.Strict? then Decision(Denied, "mode", None)
    else if mode.Trusted? && (subject.tool == "write_file" || subject.tool == "edit_file") then
      Decision(Allowed, "mode", None)
    else Decision(Ask, "mode", None)
  }

  // ---- what select_rule means ----

  lemma {:induction false} SelectedIsBest(rules: seq<Rule>, tool: string, target: string)
    ensures var s := SelectRule(rules, tool, target);
            && (s.None? <==> forall r | r in rules :: !Applies(r, tool, target))
            && (s.Some? ==> s.value in rules && Applies(s.value, tool, target))
            && (s.Some? ==> forall r | r in rules && Applies(r, tool, target) :: Rank(s.value) <= Rank(r))
            && (s.Some? ==> exists k :: 0 <= k < |rules| && rules[k] == s.value && FirstOfItsRank(rules, k, tool, target))
  {
    hide Rank, Applies;
    if rules != [] {
      var front, last := rules[..|rules| - 1], rules[|rules| - 1];
      SelectedIsBest(front, tool, target);
      assert forall r :: r in rules <==> r in front || r == last;
      var best, s := SelectRule(front, tool, target), SelectRule(rules, tool, target);
      if best.Some? && s == best {
        var k :| 0 <= k < |front| && front[k] == best.value && FirstOfItsRank(front, k, tool, target);
        assert rules[k] == best.value && FirstOfItsRank(rules, k, tool, target);
      } else if s.Some? {
        forall j | 0 <= j < |front| && Applies(rules[j], tool, target) ensures Rank(last) < Rank(rules[j]) {
          assert rules[j] in front;
        }
        assert FirstOfItsRank(rules, |front|, tool, target);
      }
    }
  }

  /** Ties go to the earlier rule. */
  ghost predicate FirstOfItsRank(rules: seq<Rule>, k: nat, tool: string, target: string)
    requires k < |rules|
  {
    forall j :: 0 <= j < k && Applies(rules[j], tool, target) ==> Rank(rules[k]) < Rank(rules[j])
  }

  lemma SelectAfterAppend(rules: seq<Rule>, extra: Rule, tool: string, target: string)
    ensures !Applies(extra, tool, target) ==>
      SelectRule(rules + [extra], tool, target) == SelectRule(rules, tool, target)
    ensures Applies(extra, tool, target) && SelectRule(rules, tool, target).None? ==>
      SelectRule(rules + [extra], tool, target) == Some(extra)
  {
    assert (rules + [extra])[..|rules|] == rules;
  }

  // ---- what a decision means ----

  /** A rule that counts for this layer applies; of an untrusted project only the denying ones count. */
  ghost predicate Covers(rules: seq<Rule>, trusted: bool, subject: Subject) {
    exists r :: r in rules && (trusted || r.effect.Deny?) && Applies(r, subject.tool, subject.target)
  }

  /** Of the rules that count and apply an exact one denies; or one denies and none is exact. */
  ghost predicate Denies(rules: seq<Rule>, trusted: bool, subject: Subject) {
    exists r :: r in rules && r.effect.Deny? && Applies(r, subject.tool, subject.target)
      && (r.exact || forall q :: q in rules && q.exact && (trusted || q.effect.Deny?) ==> !Applies(q, subject.tool, subject.target))
  }

  /** The first layer that has a rule for the subject, if any, denies it. */
  ghost predicate RulesDeny(snapshot: Snapshot, sessionRules: seq<Rule>, subject: Subject) {
    if Covers(sessionRules, true, subject) then Denies(sessionRules, true, subject)
    else if Covers(snapshot.localRules, true, subject) then Denies(snapshot.localRules, true, subject)
    else if Covers(snapshot.sharedRules, snapshot.projectTrusted, subject) then
      Denies(snapshot.sharedRules, snapshot.projectTrusted, subject)
    else Denies(snapshot.userRules, true, subject)
  }

  ghost predicate RulesCover(snapshot: Snapshot, sessionRules: seq<Rule>, subject: Subject) {
    || Covers(sessionRules, true, subject) || Covers(snapshot.localRules, true, subject)
    || Covers(snapshot.sharedRules, snapshot.projectTrusted, subject) || Covers(snapshot.userRules, true, subject)
  }

  /** What denies before any layer of rules is asked: plan mode, a dangerous command, a rule of the user. */
  ghost predicate Forbidden(snapshot: Snapshot, guard: Guard, subject: Subject, readOnlyTask: bool) {
    || (readOnlyTask && !subject.readOnly)
    || (subject.tool == "run_command" && guard(subject.target))
    || exists r :: r in snapshot.userRules && r.effect.Deny? && Applies(r, subject.tool, subject.target)
  }

  lemma {:induction false} OnlyDenyMembers(rules: seq<Rule>)
    ensures forall r :: r in OnlyDeny(rules) <==> r in rules && r.effect.Deny?
  {
    if rules != [] {
      OnlyDenyMembers(rules[1..]);
      assert rules == [rules[0]] + rules[1..];
    }
  }

  /** The rule a layer selects, and its effect, by the rules that apply alone. */
  lemma {:induction false} LayerDecides(rules: seq<Rule>, trusted: bool, subject: Subject)
    ensures var selected := SelectRule(if trusted then rules else OnlyDeny(rules), subject.tool, subject.target);
            && (selected.Some? <==> Covers(rules, trusted, subject))
            && (selected.Some? && selected.value.effect.Deny? <==> Denies(rules, trusted, subject))
  {
    var used := if trusted then rules else OnlyDeny(rules);
    OnlyDenyMembers(rules);
    SelectedIsBest(used, subject.tool, subject.target);
    hide SelectRule, OnlyDeny, Applies;
    var selected := SelectRule(used, subject.tool, subject.target);
    if selected.Some? {
      var s := selected.value;
      forall r | r in used && Applies(r, subject.tool, subject.target) ensures Rank(s) <= Rank(r) { }
    }
  }

  lemma {:induction false} LayersDecide(snapshot: Snapshot, sessionRules: seq<Rule>, subject: Subject)
    ensures var selected := SelectLayered(snapshot, sessionRules, subject);
            && (selected.Some? <==> RulesCover(snapshot, sessionRules, subject))
            && (selected.Some? && selected.value.effect.Deny? <==> RulesDeny(snapshot, sessionRules, subject))
  {
    LayerDecides(sessionRules, true, subject);
    LayerDecides(snapshot.localRules, true, subject);
    LayerDecides(snapshot.sharedRules, snapshot.projectTrusted, subject);
    LayerDecides(snapshot.userRules, true, subject);
    hide SelectRule, OnlyDeny, Covers, Denies;
  }

  /** Decisions read off the inputs. Allowed is exactly what nothing forbids and no rule of the first layer with
      one denies, provided that it changes nothing or the configuration is not locked, and that it is read-only,
      some rule is for it, the host granted it, or trusted mode lets files be changed. Asked about is exactly what
      nothing forbids and no rule is for, that changes something, unlocked, not granted, in no strict mode and not
      let through by a trusted one. */
  lemma {:induction false} DecisionIff(snapshot: Snapshot, guard: Guard, sessionRules: seq<Rule>, mode: Mode, subject: Subject,
                                       readOnlyTask: bool, preauthorized: bool)
    ensures var d := Decide(snapshot, guard, sessionRules, mode, subject, readOnlyTask, preauthorized);
            var forbidden := Forbidden(snapshot, guard, subject, readOnlyTask);
            var covered := RulesCover(snapshot, sessionRules, subject);
            var fileChange := mode.Trusted? && subject.tool in {"write_file", "edit_file"};
            && (d.kind == Allowed <==>
                  && !forbidden && !RulesDeny(snapshot, sessionRules, subject)
                  && (subject.readOnly || !snapshot.locked)
                  && (subject.readOnly || covered || preauthorized || fileChange))
            && (d.kind == Ask <==>
                  && !forbidden && !covered && !subject.readOnly && !snapshot.locked
                  && !preauthorized && !mode.Strict? && !fileChange)
  {
    OnlyDenyMembers(snapshot.userRules);
    SelectedIsBest(OnlyDeny(snapshot.userRules), subject.tool, subject.target);
    LayersDecide(snapshot, sessionRules, subject);
    hide SelectRule, SelectLayered, OnlyDeny, RulesDeny, RulesCover, Applies;
  }

  /** The reason given is the first that holds, and a rule is named exactly where one decided. */
  lemma {:induction false} DecisionNamesItsReason(snapshot: Snapshot, guard: Guard, sessionRules: seq<Rule>, mode: Mode,
                                                  subject: Subject, readOnlyTask: bool, preauthorized: bool)
    ensures var d := Decide(snapshot, guard, sessionRules, mode, subject, readOnlyTask, preauthorized);
            && (d.layer == "task_mode" <==> readOnlyTask && !subject.readOnly)
            && (d.layer in {"task_mode", "dangerous_command", "user_global_deny"} <==>
                  Forbidden(snapshot, guard, subject, readOnlyTask))
            && (d.layer == "user_global_deny" ==>
                  d.rule.Some? && d.rule.value in snapshot.userRules && d.rule.value.effect.Deny?)
            && (d.layer == "locked_config" ==> snapshot.locked && !subject.readOnly && d.kind == Denied)
            && (d.layer == "rule" ==>
                  && RulesCover(snapshot, sessionRules, subject) && d.rule.Some?
                  && d.rule.value in sessionRules + snapshot.localRules + snapshot.sharedRules + snapshot.userRules)
            && (d.rule.Some? <==> d.layer == "rule" || d.layer == "user_global_deny")
            && (d.rule.Some? ==>
                  Applies(d.rule.value, subject.tool, subject.target)
                  && d.kind == if d.rule.value.effect.Allow? then Allowed else Denied)
  {
    OnlyDenyMembers(snapshot.userRules);
    SelectedIsBest(OnlyDeny(snapshot.userRules), subject.tool, subject.target);
    LayersDecide(snapshot, sessionRules, subject);
    SelectedApplies(snapshot, sessionRules, subject);
    hide SelectRule, SelectLayered, OnlyDeny, RulesDeny, RulesCover, Applies, FirstOfItsRank, Rank;
  }

  lemma {:induction false} SelectedApplies(snapshot: Snapshot, sessionRules: seq<Rule>, subject: Subject)
    ensures var selected := SelectLayered(snapshot, sessionRules, subject);
            selected.Some? ==>
              && selected.value in sessionRules + snapshot.localRules + snapshot.sharedRules + snapshot.userRules
              && Applies(selected.value, subject.tool, subject.target)
  {
    var tool, target := subject.tool, subject.target;
    OnlyDenyMembers(snapshot.sharedRules);
    SelectedIsBest(OnlyDeny(snapshot.sharedRules), tool, target);
    SelectedIsBest(sessionRules, tool, target);
    SelectedIsBest(snapshot.localRules, tool, target);
    SelectedIsBest(snapshot.sharedRules, tool, target);
    SelectedIsBest(snapshot.userRules, tool, target);
    hide SelectRule, OnlyDeny, Applies, FirstOfItsRank, Rank;
  }

  // ---- exact rules ----

  lemma WorkspaceToolNames()
    ensures ToolName("read_file") && ToolName("write_file")
    ensures ToolName("edit_file") && ToolName("run_command")
    ensures ToolName("find_files") && ToolName("search_code")
    ensures ToolName("team_create") && ToolName("team_task_create")
  {
  }

  lemma TaskToolNames()
    ensures ToolName("team_task_get") && ToolName("team_task_list")
    ensures ToolName("team_task_update") && ToolName("team_task_delete")
    ensures ToolName("team_message_send") && ToolName("team_inbox_list")
    ensures ToolName("team_plan_submit") && ToolName("team_plan_review")
  {
  }

  lemma MemberToolNames()
    ensures ToolName("team_member_start") && ToolName("team_member_assign")
    ensures ToolName("team_member_resume") && ToolName("team_member_stop")
  {
  }

  lemma TeamToolNames()
    ensures ToolName("team_task_complete") && ToolName("team_integrate_task")
    ensures ToolName("team_finalize_prepare") && ToolName("team_finalize")
  {
  }

  lemma ShippedNamesAreToolNames(tool: string)
    requires tool in KNOWN_TOOLS
    ensures ToolName(tool)
  {
    WorkspaceToolNames();
    TaskToolNames();
    MemberToolNames();
    TeamToolNames();
    hide ToolName;
  }

  lemma KnownIsToolName(tool: string)
    requires KnownTool(tool)
    ensures ToolName(tool)
  {
    if tool in KNOWN_TOOLS {
      ShippedNamesAreToolNames(tool);
    } else {
      var k :| 6 <= k <= 37 && k + 3 <= |tool| && ServerAndTool(tool, k);
      assert tool[..5] == "mcp__";
      forall i | 0 <= i < |tool| ensures NamePart(tool[i]) {
        if i < 5 {
          assert tool[i] == "mcp__"[i];
        } else if i < k {
          assert tool[i] == tool[5..k][i - 5];
        } else if i < k + 2 {
          assert tool[i] == tool[k..k + 2][i - k];
        } else {
          assert tool[i] == tool[k + 2..][i - (k + 2)];
        }
      }
      assert tool[0] == "mcp__"[0];
    }
  }

  lemma {:induction false} EscapedIsPrintable(target: string)
    requires Printable(target)
    ensures Printable(Glob.Escaped(target))
  {
    if target != "" {
      assert forall i :: 0 <= i < |target[1..]| ==> target[1..][i] == target[i + 1];
      EscapedIsPrintable(target[1..]);
    }
  }

  lemma {:induction false} ParenAfterName(name: string, rest: string)
    requires forall i :: 0 <= i < |name| ==> name[i] != '('
    ensures Paren(name + "(" + rest) == |name|
  {
    var s := name + "(" + rest;
    if name != "" {
      assert s[1..] == name[1..] + "(" + rest;
      ParenAfterName(name[1..], rest);
    }
  }

  lemma NameSurrounds(tool: string, middle: string)
    requires ToolName(tool) && Printable(middle)
    ensures var s := tool + "(" + middle + ")"; Printable(s) && Trimmed(s)
  {
    var s := tool + "(" + middle + ")";
    assert s[0] == tool[0] && s[|s| - 1] == ')';
    forall i | 0 <= i < |s| ensures !Glob.Control(s[i]) {
      if i < |tool| {
        assert s[i] == tool[i] && NamePart(tool[i]);
      } else if |tool| < i < |s| - 1 {
        assert s[i] == middle[i - |tool| - 1];
      }
    }
  }

  /** The rule generated for one target parses back to exactly that tool and that target. */
  lemma ExactExpressionParses(tool: string, target: string)
    requires KnownTool(tool) && target != "" && Printable(target)
    ensures ParseRule(ExactExpression(tool, target), Allow, Session) == Some(ExactRule(tool, target))
    ensures forall otherTool, other ::
      Applies(ExactRule(tool, target), otherTool, other) <==> otherTool == tool && other == target
  {
    hide KnownTool, Glob.Compiled;
    var pattern := Glob.Escaped(target);
    var s := ExactExpression(tool, target);
    KnownIsToolName(tool);
    EscapedIsPrintable(target);
    NameSurrounds(tool, pattern);
    assert forall i :: 0 <= i < |tool| ==> NamePart(tool[i]);
    assert s == tool + "(" + (pattern + ")");
    ParenAfterName(tool, pattern + ")");
    Glob.EscapedTargetIsExact(target);
    assert pattern != "";
    assert s[..|tool|] == tool && s[|tool| + 1..|s| - 1] == pattern;
  }

  // ---- one approval ----

  /** Two decisions agree wherever the extra rule does not apply, under any flags. */
  lemma ExtraRuleIsLocal(snapshot: Snapshot, guard: Guard, rules: seq<Rule>, extra: Rule, mode: Mode, subject: Subject,
                         readOnlyTask: bool, preauthorized: bool)
    requires !Applies(extra, subject.tool, subject.target)
    ensures Decide(snapshot, guard, rules + [extra], mode, subject, readOnlyTask, preauthorized)
         == Decide(snapshot, guard, rules, mode, subject, readOnlyTask, preauthorized)
  {
    SelectAfterAppend(rules, extra, subject.tool, subject.target);
  }

  lemma ExactRuleIsLocal(snapshot: Snapshot, guard: Guard, rules: seq<Rule>, mode: Mode, asked: Subject, other: Subject,
                         readOnlyTask: bool, preauthorized: bool)
    requires KnownTool(asked.tool) && asked.target != "" && Printable(asked.target)
    requires (other.tool, other.target) != (asked.tool, asked.target)
    ensures Decide(snapshot, guard, rules + [ExactRule(asked.tool, asked.target)], mode, other, readOnlyTask, preauthorized)
         == Decide(snapshot, guard, rules, mode, other, readOnlyTask, preauthorized)
  {
    hide Decide;
    ExactExpressionParses(asked.tool, asked.target);
    ExtraRuleIsLocal(snapshot, guard, rules, ExactRule(asked.tool, asked.target), mode, other, readOnlyTask, preauthorized);
  }

  /** Answering SESSION to an ASK: the asked point becomes allowed under the same flags, and no
      other (tool, target) changes under any flags. */
  lemma SessionApprovalChangesOnePoint(snapshot: Snapshot, guard: Guard, rules: seq<Rule>, mode: Mode, asked: Subject,
                                       readOnlyTask: bool, preauthorized: bool)
    requires KnownTool(asked.tool) && asked.target != "" && Printable(asked.target)
    requires Decide(snapshot, guard, rules, mode, asked, readOnlyTask, preauthorized).kind == Ask
    ensures var after := rules + [ExactRule(asked.tool, asked.target)];
            && Decide(snapshot, guard, after, mode, asked, readOnlyTask, preauthorized)
               == Decision(Allowed, "rule", Some(ExactRule(asked.tool, asked.target)))
            && forall other: Subject, m, task, pre ::
                 (other.tool, other.target) != (asked.tool, asked.target) ==>
                 Decide(snapshot, guard, after, m, other, task, pre) == Decide(snapshot, guard, rules, m, other, task, pre)
  {
    AskedBecomesAllowed(snapshot, guard, rules, mode, asked, readOnlyTask, preauthorized);
    hide *;
    forall other: Subject, m, task, pre | (other.tool, other.target) != (asked.tool, asked.target)
      ensures Decide(snapshot, guard, rules + [ExactRule(asked.tool, asked.target)], m, other, task, pre)
           == Decide(snapshot, guard, rules, m, other, task, pre)
    {
      ExactRuleIsLocal(snapshot, guard, rules, m, asked, other, task, pre);
    }
  }

  lemma AskedBecomesAllowed(snapshot: Snapshot, guard: Guard, rules: seq<Rule>, mode: Mode, asked: Subject,
                            readOnlyTask: bool, preauthorized: bool)
    requires KnownTool(asked.tool) && asked.target != "" && Printable(asked.target)
    requires Decide(snapshot, guard, rules, mode, asked, readOnlyTask, preauthorized).kind == Ask
    ensures Decide(snapshot, guard, rules + [ExactRule(asked.tool, asked.target)], mode, asked, readOnlyTask, preauthorized)
         == Decision(Allowed, "rule", Some(ExactRule(asked.tool, asked.target)))
  {
    ExactExpressionParses(asked.tool, asked.target);
    SelectAfterAppend(rules, ExactRule(asked.tool, asked.target), asked.tool, asked.target);
    hide KnownTool, ParseRule, Applies;
  }

  /** Every rule in use came out of the parser. */
  predicate Parsed(rule: Rule) {
    ParseRule(rule.expression, rule.effect, rule.source) == Some(rule)
  }

  /** An ASK means no session rule covers the target, so the generated rule is never a duplicate. */
  lemma AskedRuleIsNew(snapshot: Snapshot, guard: Guard, rules: seq<Rule>, mode: Mode, asked: Subject,
                       readOnlyTask: bool, preauthorized: bool)
    requires forall r | r in rules :: Parsed(r)
    requires KnownTool(asked.tool) && asked.target != "" && Printable(asked.target)
    requires Decide(snapshot, guard, rules, mode, asked, readOnlyTask, preauthorized).kind == Ask
    ensures forall r | r in rules :: r.expression != ExactExpression(asked.tool, asked.target)
  {
    hide ParseRule;
    SelectedIsBest(rules, asked.tool, asked.target);
    ExactExpressionParses(asked.tool, asked.target);
    var exact := ExactRule(asked.tool, asked.target);
    assert Applies(exact, asked.tool, asked.target);
    forall r | r in rules
      ensures r.expression == exact.expression ==> Applies(r, asked.tool, asked.target)
    {
      EffectDoesNotMatter(r.expression, r.effect, r.source, Allow, Session);
    }
  }

  lemma EffectDoesNotMatter(expression: string, e: Effect, s: Source, e': Effect, s': Source)
    ensures var a, b := ParseRule(expression, e, s), ParseRule(expression, e', s');
            a.Some? == b.Some? && (a.Some? ==> a.value.tool == b.value.tool && a.value.pieces == b.value.pieces)
  {
  }

  datatype Outcome =
    | Decided(decision: Decision)
    | TargetNotExpressible   // the exact rule for the request cannot be written
    | RuleRejected           // the answer was SESSION for a tool the rule grammar does not know

  /** What comes of a request before anyone answers: settled, or a question about the rule that would allow it. */
  datatype Asking = Settled(outcome: Outcome) | Question(exactRule: string)

  /** A manager without a parent. Each method is one stretch under its lock; `Authorize` is the two
      stretches of a request between which nothing else happens. */
  class PermissionManager {
    const guard: Guard
    var snapshot: Snapshot
    var mode: Mode
    var sessionRules: seq<Rule>
    var capabilities: set<string>
    var rejected: set<(string, string)>

    ghost predicate Valid()
      reads this
    {
      forall r | r in sessionRules :: Parsed(r)
    }

    constructor (snapshot: Snapshot, guard: Guard)
      ensures Valid() && sessionRules == [] && rejected == {} && capabilities == {}
      ensures this.snapshot == snapshot && this.guard == guard && mode == snapshot.mode
    {
      this.snapshot, this.guard, mode := snapshot, guard, snapshot.mode;
      sessionRules, capabilities, rejected := [], {}, {};
    }

    ghost function Now(subject: Subject, readOnlyTask: bool, preauthorized: bool): Decision
      reads this
    {
      Decide(snapshot, guard, sessionRules, mode, subject, readOnlyTask, preauthorized)
    }

    method BeginRequest()
      requires Valid()
      modifies this`rejected
      ensures rejected == {}
    {
      rejected := {};
    }

    method AddSessionRule(expression: string) returns (ok: bool)
      requires Valid()
      modifies this`sessionRules
      ensures Valid()
      ensures ok <==> ParseRule(expression, Allow, Session).Some?
      ensures ok && (forall r | r in old(sessionRules) :: r.expression != expression) ==>
        sessionRules == old(sessionRules) + [ParseRule(expression, Allow, Session).value]
      ensures !(ok && forall r | r in old(sessionRules) :: r.expression != expression) ==>
        sessionRules == old(sessionRules)
    {
      hide ParseRule;
      var parsed := ParseRule(expression, Allow, Session);
      if parsed.None? {
        return false;
      }
      ParsedIsParsed(expression, Allow, Session);
      if forall r | r in sessionRules :: r.expression != expression {
        sessionRules := sessionRules + [parsed.value];
      }
      return true;
    }

    /** Up to the question: nobody is asked unless the engine says so and the point was not refused. */
    method Prepare(subject: Subject, capability: Option<string>, readOnlyTask: bool) returns (asking: Asking)
      requires Valid()
      ensures var pre := capability.Some? && capability.value in capabilities;
              var decision := Now(subject, readOnlyTask, pre);
              asking ==
                if decision.kind != Ask then Settled(Decided(decision))
                else if (subject.tool, subject.target) in rejected
                then Settled(Decided(Decision(Denied, "rejection_cache", None)))
                else if !(subject.target != "" && Printable(subject.target)) then Settled(TargetNotExpressible)
                else Question(ExactExpression(subject.tool, subject.target))
    {
      hide Decide;
      var pre := capability.Some? && capability.value in capabilities;
      var decision := Decide(snapshot, guard, sessionRules, mode, subject, readOnlyTask, pre);
      if decision.kind != Ask {
        return Settled(Decided(decision));
      }
      if (subject.tool, subject.target) in rejected {
        return Settled(Decided(Decision(Denied, "rejection_cache", None)));
      }
      var escaped, ok := Glob.EscapeExactTarget(subject.target);
      PrintableMeansNoControl(subject.target);
      if !ok {
        return Settled(TargetNotExpressible);
      }
      return Question(subject.tool + "(" + escaped + ")");
    }

    /** From the answer on, whatever other requests, answers and settings came in between. `saved` is what
        storing a permanent rule yields. */
    method Conclude(subject: Subject, exactRule: string, answer: Choice, saved: Option<Snapshot>) returns (outcome: Outcome)
      requires Valid() && subject.target != "" && Printable(subject.target)
      requires exactRule == ExactExpression(subject.tool, subject.target)
      modifies this`snapshot, this`sessionRules, this`rejected
      ensures Valid()
      ensures var key := (subject.tool, subject.target);
              match answer
              case ChooseDeny =>
                outcome == Decided(Decision(Denied, "user_confirmation", None))
                && Unchanged(old(snapshot), old(sessionRules), old(rejected) + {key})
              case ChooseOnce =>
                outcome == Decided(Decision(Allowed, "user_confirmation", None))
                && Unchanged(old(snapshot), old(sessionRules), old(rejected))
              case ChooseSession =>
                if KnownTool(subject.tool) then
                  && outcome == Decided(Decision(Allowed, "user_confirmation", None))
                  // a second answer about the same point adds nothing
                  && Unchanged(old(snapshot),
                               old(sessionRules) + (if exists r | r in old(sessionRules) :: r.expression == exactRule then []
                                                    else [ExactRule(subject.tool, subject.target)]),
                               old(rejected))
                  // if the point would still be asked about it is allowed from now on; no other decides differently
                  && (forall task, p :: old(Now(subject, task, p)).kind == Ask ==> Now(subject, task, p).kind == Allowed)
                  && forall other: Subject, task, p :: (other.tool, other.target) != key ==>
                       Now(other, task, p) == old(Now(other, task, p))
                else
                  '(' !in subject.tool ==>
                    outcome == RuleRejected && Unchanged(old(snapshot), old(sessionRules), old(rejected))
              case ChoosePermanent =>
                match saved
                case Some(updated) =>
                  outcome == Decided(Decision(Allowed, "user_confirmation", None))
                  && Unchanged(updated, old(sessionRules), old(rejected))
                case None =>
                  outcome == Decided(Decision(Denied, "permission_storage", None))
                  && Unchanged(old(snapshot), old(sessionRules), old(rejected))
    {
      hide Decide, ParseRule, KnownTool, ExactRule, Parsed;
      match answer
      case ChooseDeny =>
        rejected := rejected + {(subject.tool, subject.target)};
        return Decided(Decision(Denied, "user_confirmation", None));
      case ChooseOnce =>
        return Decided(Decision(Allowed, "user_confirmation", None));
      case ChooseSession =>
        if KnownTool(subject.tool) {
          SessionAnswer(subject);
          ExactExpressionParses(subject.tool, subject.target);
        } else if '(' !in subject.tool {
          UnknownToolHasNoRule(subject.tool, Glob.Escaped(subject.target));
        }
        var added := AddSessionRule(exactRule);
        if !added {
          return RuleRejected;
        }
        return Decided(Decision(Allowed, "user_confirmation", None));
      case ChoosePermanent =>
        if saved.None? {
          return Decided(Decision(Denied, "permission_storage", None));
        }
        snapshot := saved.value;
        return Decided(Decision(Allowed, "user_confirmation", None));
    }

    /** What adding the rule for one point does to every decision. */
    lemma SessionAnswer(subject: Subject)
      requires Valid() && KnownTool(subject.tool) && subject.target != "" && Printable(subject.target)
      ensures var after := sessionRules + [ExactRule(subject.tool, subject.target)];
              && (forall task, p :: Now(subject, task, p).kind == Ask ==>
                    && Decide(snapshot, guard, after, mode, subject, task, p).kind == Allowed
                    && forall r | r in sessionRules :: r.expression != ExactExpression(subject.tool, subject.target))
              && forall other: Subject, task, p :: (other.tool, other.target) != (subject.tool, subject.target) ==>
                   Decide(snapshot, guard, after, mode, other, task, p) == Now(other, task, p)
    {
      hide Decide, ExactRule, KnownTool, Parsed;
      forall task, p | Now(subject, task, p).kind == Ask
        ensures Decide(snapshot, guard, sessionRules + [ExactRule(subject.tool, subject.target)], mode, subject, task, p).kind
                == Allowed
        ensures forall r | r in sessionRules :: r.expression != ExactExpression(subject.tool, subject.target)
      {
        AskedRuleIsNew(snapshot, guard, sessionRules, mode, subject, task, p);
        SessionApprovalChangesOnePoint(snapshot, guard, sessionRules, mode, subject, task, p);
      }
      forall other: Subject, task, p | (other.tool, other.target) != (subject.tool, subject.target)
        ensures Decide(snapshot, guard, sessionRules + [ExactRule(subject.tool, subject.target)], mode, other, task, p)
             == Now(other, task, p)
      {
        ExactRuleIsLocal(snapshot, guard, sessionRules, mode, subject, other, task, p);
      }
    }

    /** A request nothing comes between: `answer` is what the approval handler replies if it is asked. */
    method Authorize(subject: Subject, capability: Option<string>, readOnlyTask: bool, answer: Choice,
                     saved: Option<Snapshot>)
      returns (outcome: Outcome)
      requires Valid()
      modifies this
      ensures Valid() && mode == old(mode) && capabilities == old(capabilities)
      ensures var pre := capability.Some? && capability.value in old(capabilities);
              var first := old(Now(subject, readOnlyTask, pre));
              var key := (subject.tool, subject.target);
              // nobody is asked and nothing changes unless the engine says so and it was not refused before
              && (first.kind != Ask ==> outcome == Decided(first) && Unchanged(old(snapshot), old(sessionRules), old(rejected)))
              && (first.kind == Ask && key in old(rejected) ==>
                    outcome == Decided(Decision(Denied, "rejection_cache", None))
                    && Unchanged(old(snapshot), old(sessionRules), old(rejected)))
              && (first.kind == Ask && key !in old(rejected) && !(subject.target != "" && Printable(subject.target)) ==>
                    outcome == TargetNotExpressible && Unchanged(old(snapshot), old(sessionRules), old(rejected)))
              && (first.kind == Ask && key !in old(rejected) && subject.target != "" && Printable(subject.target) ==>
                    match answer
                    case ChooseDeny =>
                      outcome == Decided(Decision(Denied, "user_confirmation", None))
                      && Unchanged(old(snapshot), old(sessionRules), old(rejected) + {key})
                    case ChooseOnce =>
                      outcome == Decided(Decision(Allowed, "user_confirmation", None))
                      && Unchanged(old(snapshot), old(sessionRules), old(rejected))
                    case ChooseSession =>
                      if KnownTool(subject.tool) then
                        && outcome == Decided(Decision(Allowed, "user_confirmation", None))
                        && Unchanged(old(snapshot), old(sessionRules) + [ExactRule(subject.tool, subject.target)], old(rejected))
                        // the approved point, and only that point, decides differently from now on
                        && Now(subject, readOnlyTask, pre).kind == Allowed
                        && forall other: Subject, task, p :: (other.tool, other.target) != key ==>
                             Now(other, task, p) == old(Now(other, task, p))
                      else
                        '(' !in subject.tool ==>
                          outcome == RuleRejected && Unchanged(old(snapshot), old(sessionRules), old(rejected))
                    case ChoosePermanent =>
                      match saved
                      case Some(updated) =>
                        outcome == Decided(Decision(Allowed, "user_confirmation", None))
                        && Unchanged(updated, old(sessionRules), old(rejected))
                      case None =>
                        outcome == Decided(Decision(Denied, "permission_storage", None))
                        && Unchanged(old(snapshot), old(sessionRules), old(rejected)))
    {
      hide Decide, KnownTool, ExactRule, Parsed;
      ghost var pre := capability.Some? && capability.value in capabilities;
      if KnownTool(subject.tool) && subject.target != "" && Printable(subject.target) && Now(subject, readOnlyTask, pre).kind == Ask {
        AskedRuleIsNew(snapshot, guard, sessionRules, mode, subject, readOnlyTask, pre);
      }
      var asking := Prepare(subject, capability, readOnlyTask);
      if asking.Settled? {
        return asking.outcome;
      }
      outcome := Conclude(subject, asking.exactRule, answer, saved);
    }

    ghost predicate Unchanged(s: Snapshot, rules: seq<Rule>, refused: set<(string, string)>)
      reads this
    {
      snapshot == s && sessionRules == rules && rejected == refused
    }
  }

  lemma ParsedIsParsed(expression: string, effect: Effect, source: Source)
    requires ParseRule(expression, effect, source).Some?
    ensures Parsed(ParseRule(expression, effect, source).value)
    ensures ParseRule(expression, effect, source).value.expression == expression
  {
  }

  lemma PrintableMeansNoControl(target: string)
    ensures Printable(target) <==> !exists c :: c in target && Glob.Control(c)
  {
  }

  /** The name before the first parenthesis decides, so a tool the grammar does not know cannot be
      approved for the session. */
  lemma UnknownToolHasNoRule(tool: string, pattern: string)
    requires !KnownTool(tool) && '(' !in tool
    ensures ParseRule(tool + "(" + pattern + ")", Allow, Session).None?
  {
    hide KnownTool, ToolName, Glob.Compiled;
    assert tool + "(" + pattern + ")" == tool + "(" + (pattern + ")");
    ParenAfterName(tool, pattern + ")");
    assert (tool + "(" + pattern + ")")[..|tool|] == tool;
  }
}
