/** Rendering include trees of project instructions under one byte budget. */
module Instructions {
  import opened Wrappers
  import opened Utf8

  datatype Scope = User | Project | ProjectLocal

  datatype Node =
    | TextLine(text: string)
    | IncludeLine(line: nat, child: Option<Document>)

  /** `path` is the source's name with unsafe attribute characters already replaced. */
  datatype Document = Document(scope: Scope, path: string, nodes: seq<Node>)

  datatype Diagnostic =
    | MainTruncated(scope: Scope, path: string)
    | IncludeBudget(scope: Scope, path: string, line: nat)

  /** `scopes` is empty exactly when nothing was rendered. */
  datatype Rendering = Rendering(text: string, scopes: seq<Scope>, diagnostics: seq<Diagnostic>, dropped: bool)

  const NOTHING := Rendering("", [], [], false)
  const DROPPED := Rendering("", [], [], true)

  const TRUNCATION_MARKER := "[instruction truncated]"

  function ScopeName(scope: Scope): string {
    match scope
    case User => "user"
    case Project => "project"
    case ProjectLocal => "project_local"
  }

  function Opening(d: Document, nested: bool): string {
    if nested then "<included-instructions path=\"" + d.path + "\">\n"
    else "<instruction-source scope=\"" + ScopeName(d.scope) + "\" path=\"" + d.path + "\">\n"
  }

  function Closing(nested: bool): string {
    if nested then "\n</included-instructions>" else "\n</instruction-source>"
  }

  function Join(parts: seq<string>): string {
    if parts == [] then ""
    else if |parts| == 1 then parts[0]
    else Join(parts[..|parts| - 1]) + "\n" + parts[|parts| - 1]
  }

  predicate Fits(parts: seq<string>, candidate: string, budget: int) {
    ByteCount(Join(parts + [candidate])) <= budget
  }

  /** The lines put together so far. `Abandoned` is an include that cannot keep one of its lines. */
  datatype Progress =
    | Abandoned
    | Going(parts: seq<string>, diagnostics: seq<Diagnostic>, truncated: bool)

  function Room(parts: seq<string>, budget: int): int {
    budget - ByteCount(Join(parts)) - (if parts != [] then 1 else 0)
  }

  /** One node more. */
  function Advance(d: Document, node: Node, nested: bool, budget: int, p: Progress): Progress
    requires p.Going?
    decreases node, 0
  {
    match node
    case TextLine(text) =>
      if p.truncated then p
      else if Fits(p.parts, text, budget) then p.(parts := p.parts + [text])
      else if nested then Abandoned
      else Going(if Fits(p.parts, TRUNCATION_MARKER, budget) then p.parts + [TRUNCATION_MARKER] else p.parts,
                 p.diagnostics + [MainTruncated(d.scope, d.path)], true)
    case IncludeLine(line, child) =>
      if child.None? then p
      else
        var r := Render(child.value, true, Room(p.parts, budget));
        if r.dropped then p.(diagnostics := p.diagnostics + [IncludeBudget(d.scope, d.path, line)])
        else p.(parts := p.parts + [r.text], diagnostics := p.diagnostics + r.diagnostics)
  }

  function Walk(d: Document, nodes: seq<Node>, nested: bool, budget: int, p: Progress): Progress
    requires p.Going?
    decreases nodes, 1
  {
    if nodes == [] then p
    else
      var next := Advance(d, nodes[0], nested, budget, p);
      if next.Abandoned? then Abandoned else Walk(d, nodes[1..], nested, budget, next)
  }

  function BodyBudget(d: Document, nested: bool, available: int): int {
    available - ByteCount(Opening(d, nested)) - ByteCount(Closing(nested))
  }

  function Assemble(d: Document, nested: bool, available: int, p: Progress): Rendering {
    if p.Abandoned? then DROPPED
    else
      var body := Join(p.parts);
      var text := Opening(d, nested) + body + Closing(nested);
      if nested && body == "" then NOTHING
      else if ByteCount(text) > available then DROPPED
      else Rendering(text, [d.scope], p.diagnostics, false)
  }

  function Render(d: Document, nested: bool, available: int): Rendering
    decreases d, 2
  {
    var budget := BodyBudget(d, nested, available);
    if budget < 0 then DROPPED
    else Assemble(d, nested, available, Walk(d, d.nodes, nested, budget, Going([], [], false)))
  }

  /** The rendering loop, calling itself for each include. */
  method RenderDocument(d: Document, nested: bool, available: int) returns (r: Rendering)
    ensures r == Render(d, nested, available)
    decreases d
  {
    hide Fits, Room, BodyBudget;
    var budget := BodyBudget(d, nested, available);
    if budget < 0 {
      return DROPPED;
    }
    var parts: seq<string>, diagnostics: seq<Diagnostic>, truncated := [], [], false;
    ghost var whole := Walk(d, d.nodes, nested, budget, Going([], [], false));
    for i := 0 to |d.nodes|
      invariant Walk(d, d.nodes[i..], nested, budget, Going(parts, diagnostics, truncated)) == whole
    {
      var node := d.nodes[i];
      assert d.nodes[i..][0] == node && d.nodes[i..][1..] == d.nodes[i + 1..];
      match node
      case TextLine(text) =>
        if !truncated {
          if Fits(parts, text, budget) {
            parts := parts + [text];
          } else if nested {
            return DROPPED;
          } else {
            truncated := true;
            if Fits(parts, TRUNCATION_MARKER, budget) {
              parts := parts + [TRUNCATION_MARKER];
            }
            diagnostics := diagnostics + [MainTruncated(d.scope, d.path)];
          }
        }
      case IncludeLine(line, child) =>
        if child.Some? {
          var candidate := RenderDocument(child.value, true, Room(parts, budget));
          if candidate.dropped {
            diagnostics := diagnostics + [IncludeBudget(d.scope, d.path, line)];
          } else {
            parts := parts + [candidate.text];
            diagnostics := diagnostics + candidate.diagnostics;
          }
        }
    }
    assert d.nodes[|d.nodes|..] == [];
    r := Assemble(d, nested, available, Going(parts, diagnostics, truncated));
  }

  // ---- the budget of one document ----

  lemma NewlineByte()
    ensures ByteCount("\n") == 1 && ByteCount("\n\n") == 2
  {
    AsciiBytes("\n");
    AsciiBytes("\n\n");
  }

  lemma JoinSnoc(parts: seq<string>, last: string)
    ensures ByteCount(Join(parts + [last]))
         == ByteCount(Join(parts)) + (if parts != [] then 1 else 0) + ByteCount(last)
  {
    var whole := parts + [last];
    assert whole[..|whole| - 1] == parts && whole[|whole| - 1] == last;
    if parts != [] {
      NewlineByte();
      ByteCountConcat(Join(parts), "\n");
      ByteCountConcat(Join(parts) + "\n", last);
    }
  }

  lemma {:induction false} AdvanceStaysInBudget(d: Document, node: Node, nested: bool, budget: int, p: Progress)
    requires p.Going? && ByteCount(Join(p.parts)) <= budget
    ensures var next := Advance(d, node, nested, budget, p);
            next.Going? ==> ByteCount(Join(next.parts)) <= budget
    decreases node, 0
  {
    hide ByteCount, Join;
    if node.IncludeLine? && node.child.Some? {
      var room := Room(p.parts, budget);
      RenderStaysInBudget(node.child.value, true, room);
      JoinSnoc(p.parts, Render(node.child.value, true, room).text);
    }
  }

  lemma {:induction false} WalkStaysInBudget(d: Document, nodes: seq<Node>, nested: bool, budget: int, p: Progress)
    requires p.Going? && ByteCount(Join(p.parts)) <= budget
    ensures var done := Walk(d, nodes, nested, budget, p);
            done.Going? ==> ByteCount(Join(done.parts)) <= budget
    decreases nodes, 1
  {
    hide ByteCount, Join, Advance;
    if nodes != [] {
      AdvanceStaysInBudget(d, nodes[0], nested, budget, p);
      var next := Advance(d, nodes[0], nested, budget, p);
      if next.Going? {
        WalkStaysInBudget(d, nodes[1..], nested, budget, next);
      }
    }
  }

  /** Whatever the include tree, a document that is not dropped fits its budget, and one that is
      dropped was dropped for its own sake: the check after assembly never fires. */
  lemma {:induction false} RenderStaysInBudget(d: Document, nested: bool, available: int)
    ensures var r := Render(d, nested, available);
            && (!r.dropped ==> ByteCount(r.text) <= available)
            && (r.dropped ==> r.text == "")
    ensures BodyBudget(d, nested, available) >= 0 ==>
      var p := Walk(d, d.nodes, nested, BodyBudget(d, nested, available), Going([], [], false));
      p.Going? ==> ByteCount(Opening(d, nested) + Join(p.parts) + Closing(nested)) <= available
    decreases d, 2
  {
    var budget := BodyBudget(d, nested, available);
    NothingHasNoBytes();
    hide ByteCount, Join, Opening, Closing, Walk;
    if budget >= 0 {
      WalkStaysInBudget(d, d.nodes, nested, budget, Going([], [], false));
      var p := Walk(d, d.nodes, nested, budget, Going([], [], false));
      if p.Going? {
        ByteCountConcat(Opening(d, nested), Join(p.parts));
        ByteCountConcat(Opening(d, nested) + Join(p.parts), Closing(nested));
      }
    }
  }

  lemma NothingHasNoBytes()
    ensures ByteCount("") == 0 && ByteCount(Join([])) == 0
  {
  }

  // ---- what an include keeps ----

  /** The lines of a body in order: each text line of the source itself, and in the place of each
      include either nothing or one rendered text. */
  function Collect(nodes: seq<Node>, shown: seq<Option<string>>): seq<string>
    requires |shown| == |nodes|
  {
    if nodes == [] then []
    else (if nodes[0].TextLine? then [nodes[0].text]
          else if shown[0].Some? then [shown[0].value]
          else []) + Collect(nodes[1..], shown[1..])
  }

  /** What stands in an include's place if that much room is left: its own rendering, unless dropped. */
  function InPlace(child: Option<Document>, room: int): Option<string> {
    if child.None? then None
    else
      var r := Render(child.value, true, room);
      if r.dropped then None else Some(r.text)
  }

  /** Every nested include is shown as it is rendered in the room the lines before it leave. */
  ghost predicate InTheirPlaces(nodes: seq<Node>, shown: seq<Option<string>>, before: seq<string>, budget: int) {
    |shown| == |nodes| &&
    forall k :: 0 <= k < |nodes| && nodes[k].IncludeLine? ==>
      shown[k] == InPlace(nodes[k].child, Room(before + Collect(nodes[..k], shown[..k]), budget))
  }

  /** Every text line fits behind the lines before it. */
  ghost predicate LinesFit(nodes: seq<Node>, shown: seq<Option<string>>, before: seq<string>, budget: int)
    requires |shown| == |nodes|
  {
    forall k :: 0 <= k < |nodes| && nodes[k].TextLine? ==>
      Fits(before + Collect(nodes[..k], shown[..k]), nodes[k].text, budget)
  }

  function Line(node: Node, shown: Option<string>): seq<string> {
    if node.TextLine? then [node.text] else if shown.Some? then [shown.value] else []
  }

  lemma {:induction false} CollectStep(nodes: seq<Node>, shown: seq<Option<string>>, before: seq<string>, k: nat)
    requires |shown| == |nodes| && 0 < k <= |nodes|
    ensures before + Collect(nodes[..k], shown[..k])
         == (before + Line(nodes[0], shown[0])) + Collect(nodes[1..][..k - 1], shown[1..][..k - 1])
  {
    assert nodes[..k][1..] == nodes[1..][..k - 1] && shown[..k][1..] == shown[1..][..k - 1];
  }

  lemma {:induction false} PlacesStep(nodes: seq<Node>, shown: seq<Option<string>>, before: seq<string>, budget: int)
    requires nodes != [] && |shown| == |nodes|
    requires nodes[0].IncludeLine? ==> shown[0] == InPlace(nodes[0].child, Room(before, budget))
    requires InTheirPlaces(nodes[1..], shown[1..], before + Line(nodes[0], shown[0]), budget)
    ensures InTheirPlaces(nodes, shown, before, budget)
    ensures LinesFit(nodes, shown, before, budget)
       <==> (nodes[0].TextLine? ==> Fits(before, nodes[0].text, budget))
            && LinesFit(nodes[1..], shown[1..], before + Line(nodes[0], shown[0]), budget)
  {
    assert Collect(nodes[..0], shown[..0]) == [];
    hide InPlace, Room, Fits, Collect, Line;
    assert before + Collect(nodes[..0], shown[..0]) == before;
    forall k | 0 < k < |nodes|
      ensures before + Collect(nodes[..k], shown[..k])
           == (before + Line(nodes[0], shown[0])) + Collect(nodes[1..][..k - 1], shown[1..][..k - 1])
      ensures nodes[k] == nodes[1..][k - 1] && shown[k] == shown[1..][k - 1]
    {
      CollectStep(nodes, shown, before, k);
    }
    assert forall k :: 0 <= k < |nodes| - 1 ==> nodes[1..][k] == nodes[k + 1] && shown[1..][k] == shown[k + 1];
  }

  lemma {:induction false} CollectCons(nodes: seq<Node>, first: Option<string>, more: seq<Option<string>>, before: seq<string>)
    requires nodes != [] && |more| == |nodes| - 1
    ensures before + Collect(nodes, [first] + more) == (before + Line(nodes[0], first)) + Collect(nodes[1..], more)
  {
    assert ([first] + more)[1..] == more;
  }

  lemma {:induction false} AdvanceKeepsLine(d: Document, node: Node, budget: int, p: Progress)
    requires p.Going? && !p.truncated
    ensures var next := Advance(d, node, true, budget, p);
            var first := if node.TextLine? then None else InPlace(node.child, Room(p.parts, budget));
            && (next.Going? <==> (node.TextLine? ==> Fits(p.parts, node.text, budget)))
            && (next.Going? ==> !next.truncated && next.parts == p.parts + Line(node, first))
  {
    hide Fits, Room, Render;
  }

  lemma {:induction false} NothingToPlace(before: seq<string>, budget: int)
    ensures InTheirPlaces([], [], before, budget) && LinesFit([], [], before, budget)
    ensures before + Collect([], []) == before
  {
  }

  lemma {:induction false} IncludeKeepsItsLines(d: Document, nodes: seq<Node>, budget: int, p: Progress)
    returns (shown: seq<Option<string>>)
    requires p.Going? && !p.truncated
    ensures |shown| == |nodes| && InTheirPlaces(nodes, shown, p.parts, budget)
    ensures var done := Walk(d, nodes, true, budget, p);
            && (done.Going? <==> LinesFit(nodes, shown, p.parts, budget))
            && (done.Going? ==> done.parts == p.parts + Collect(nodes, shown))
    decreases |nodes|
  {
    shown := [];
    if nodes == [] {
      NothingToPlace(p.parts, budget);
      hide *;
    } else {
      hide Advance, Collect, Fits, InPlace, InTheirPlaces, Line, LinesFit, Room;
      AdvanceKeepsLine(d, nodes[0], budget, p);
      var next := Advance(d, nodes[0], true, budget, p);
      var first := if nodes[0].TextLine? then None else InPlace(nodes[0].child, Room(p.parts, budget));
      var q := if next.Going? then next else Going(p.parts + Line(nodes[0], first), [], false);
      var more := IncludeKeepsItsLines(d, nodes[1..], budget, q);
      shown := [first] + more;
      assert shown[1..] == more;
      CollectCons(nodes, first, more, p.parts);
      PlacesStep(nodes, shown, p.parts, budget);
    }
  }

  /** An include is dropped exactly if its envelope or one of its own text lines does not fit; otherwise it
      shows all of them, in order, and in the place of each nested include that one's own rendering, or
      nothing if that is dropped, in the room the lines before it leave. */
  lemma {:induction false} RenderedIncludeIsComplete(d: Document, available: int) returns (shown: seq<Option<string>>)
    ensures var budget := BodyBudget(d, true, available);
            && |shown| == |d.nodes| && InTheirPlaces(d.nodes, shown, [], budget)
            && (Render(d, true, available).dropped <==> budget < 0 || !LinesFit(d.nodes, shown, [], budget))
            && (!Render(d, true, available).dropped ==>
                  var body := Join(Collect(d.nodes, shown));
                  Render(d, true, available).text == if body == "" then "" else Opening(d, true) + body + Closing(true))
  {
    var budget := BodyBudget(d, true, available);
    shown := IncludeKeepsItsLines(d, d.nodes, budget, Going([], [], false));
    RenderStaysInBudget(d, true, available);
    hide Opening, Closing, Join, ByteCount, Walk, InTheirPlaces, LinesFit;
    assert [] + Collect(d.nodes, shown) == Collect(d.nodes, shown);
  }

  // ---- what a main document shows ----

  /** The lines shown of these nodes, in order. */
  function Present(shown: seq<Option<string>>): seq<string> {
    if shown == [] then [] else (if shown[0].Some? then [shown[0].value] else []) + Present(shown[1..])
  }

  function Flat(told: seq<seq<Diagnostic>>): seq<Diagnostic> {
    if told == [] then [] else told[0] + Flat(told[1..])
  }

  /** Lines one below the other. */
  function Lined(parts: seq<string>): string {
    if parts == [] then "" else if |parts| == 1 then parts[0] else parts[0] + "\n" + Lined(parts[1..])
  }

  /** Behind these lines the text still fits. */
  predicate Holds(behind: seq<string>, text: string, budget: int) {
    ByteCount(Lined(behind + [text])) <= budget
  }

  /** The bytes left behind these lines for one more. */
  function Left(behind: seq<string>, budget: int): int {
    budget - ByteCount(Lined(behind)) - (if behind == [] then 0 else 1)
  }

  lemma {:induction false} LinedSnoc(parts: seq<string>, last: string)
    ensures Lined(parts + [last]) == if parts == [] then last else Lined(parts) + "\n" + last
  {
    if parts != [] {
      assert (parts + [last])[1..] == parts[1..] + [last];
      LinedSnoc(parts[1..], last);
      if |parts| > 1 {
        var rest := Lined(parts[1..]);
        assert parts[0] + "\n" + (rest + "\n" + last) == parts[0] + "\n" + rest + "\n" + last;
      } else {
        assert parts[1..] == [];
      }
    }
  }

  lemma {:induction false} JoinIs(parts: seq<string>)
    ensures Join(parts) == Lined(parts)
  {
    if |parts| > 1 {
      var front, last := parts[..|parts| - 1], parts[|parts| - 1];
      JoinIs(front);
      LinedSnoc(front, last);
      assert parts == front + [last];
      hide Lined;
    }
  }

  lemma SpaceIs(behind: seq<string>, text: string, budget: int)
    ensures Fits(behind, text, budget) == Holds(behind, text, budget) && Room(behind, budget) == Left(behind, budget)
  {
    JoinIs(behind);
    JoinIs(behind + [text]);
    hide Join, Lined, ByteCount;
  }

  /** What a text line behind these lines comes to: itself if it stands before the cut, the marker at the cut if that
      fits, and nothing after it. */
  predicate LineStands(d: Document, text: string, shown: Option<string>, told: seq<Diagnostic>, behind: seq<string>, budget: int,
                       k: nat, cut: int) {
    if k < cut then Holds(behind, text, budget) && shown == Some(text) && told == []
    else if k == cut then
      && !Holds(behind, text, budget) && told == [MainTruncated(d.scope, d.path)]
      && shown == if Holds(behind, "[instruction truncated]", budget) then Some("[instruction truncated]") else None
    else shown == None && told == []
  }

  /** What an include behind these lines comes to, before the cut or after it: its own rendering in the room they leave,
      or a diagnostic if that is dropped. */
  predicate IncludeStands(d: Document, node: Node, shown: Option<string>, told: seq<Diagnostic>, behind: seq<string>, budget: int)
    requires node.IncludeLine?
  {
    if node.child.None? then shown == None && told == []
    else
      var r := Render(node.child.value, true, Left(behind, budget));
      if r.dropped then shown == None && told == [IncludeBudget(d.scope, d.path, node.line)]
      else shown == Some(r.text) && told == r.diagnostics
  }

  predicate Stands(d: Document, node: Node, shown: Option<string>, told: seq<Diagnostic>, behind: seq<string>, budget: int,
                   k: nat, cut: int) {
    if node.TextLine? then LineStands(d, node.text, shown, told, behind, budget, k, cut)
    else IncludeStands(d, node, shown, told, behind, budget)
  }

  /** Every node comes to what it should behind the lines shown before it; the text is cut at `cut`, before all of
      these nodes if that is negative, nowhere if it is their number. */
  ghost predicate AllStand(d: Document, nodes: seq<Node>, shown: seq<Option<string>>, told: seq<seq<Diagnostic>>,
                           before: seq<string>, budget: int, cut: int) {
    && |shown| == |told| == |nodes| && -1 <= cut <= |nodes| && (0 <= cut < |nodes| ==> nodes[cut].TextLine?)
    && forall k :: 0 <= k < |nodes| ==>
         Stands(d, nodes[k], shown[k], told[k], before + Present(shown[..k]), budget, k, cut)
  }

  lemma {:induction false} AdvanceStands(d: Document, node: Node, nested: bool, budget: int, p: Progress)
    returns (shown: Option<string>, told: seq<Diagnostic>, cut: int)
    requires p.Going?
    ensures -1 <= cut <= 1 && (p.truncated <==> cut == -1) && (cut == 0 ==> node.TextLine?)
    ensures Stands(d, node, shown, told, p.parts, budget, 0, cut)
    ensures var next := Advance(d, node, nested, budget, p);
            && (next.Abandoned? <==> nested && cut == 0)
            && (next.Going? ==> next == Going(p.parts + Present([shown]), p.diagnostics + told, cut < 1))
  {
    hide Fits, Holds, Room, Left, Render, Present;
    match node
    case TextLine(text) =>
      hide Advance, IncludeStands;
      shown, told, cut := LineAdvances(d, text, nested, budget, p);
    case IncludeLine(_, _) =>
      hide Advance, LineStands;
      shown, told := IncludeAdvances(d, node, nested, budget, p);
      cut := if p.truncated then -1 else 1;
  }

  lemma {:induction false} LineAdvances(d: Document, text: string, nested: bool, budget: int, p: Progress)
    returns (shown: Option<string>, told: seq<Diagnostic>, cut: int)
    requires p.Going?
    ensures -1 <= cut <= 1 && (p.truncated <==> cut == -1)
    ensures LineStands(d, text, shown, told, p.parts, budget, 0, cut)
    ensures var next := Advance(d, TextLine(text), nested, budget, p);
            && (next.Abandoned? <==> nested && cut == 0)
            && (next.Going? ==> next == Going(p.parts + Present([shown]), p.diagnostics + told, cut < 1))
  {
    hide Fits, Holds, Present;
    SpaceIs(p.parts, text, budget);
    SpaceIs(p.parts, "[instruction truncated]", budget);
    if p.truncated {
      shown, told, cut := None, [], -1;
    } else if Fits(p.parts, text, budget) {
      shown, told, cut := Some(text), [], 1;
    } else {
      told, cut := [MainTruncated(d.scope, d.path)], 0;
      shown := if Fits(p.parts, "[instruction truncated]", budget) then Some("[instruction truncated]") else None;
    }
    PresentOne(shown);
  }

  lemma {:induction false} IncludeAdvances(d: Document, node: Node, nested: bool, budget: int, p: Progress)
    returns (shown: Option<string>, told: seq<Diagnostic>)
    requires p.Going? && node.IncludeLine?
    ensures IncludeStands(d, node, shown, told, p.parts, budget)
    ensures Advance(d, node, nested, budget, p) == Going(p.parts + Present([shown]), p.diagnostics + told, p.truncated)
  {
    hide Room, Left, Render, Present;
    SpaceIs(p.parts, "", budget);
    if node.child.None? {
      shown, told := None, [];
    } else {
      var r := Render(node.child.value, true, Room(p.parts, budget));
      if r.dropped {
        shown, told := None, [IncludeBudget(d.scope, d.path, node.line)];
      } else {
        shown, told := Some(r.text), r.diagnostics;
      }
    }
    PresentOne(shown);
  }

  lemma PresentOne(shown: Option<string>)
    ensures Present([shown]) == if shown.Some? then [shown.value] else []
  {
    assert [shown][1..] == [];
  }

  lemma {:induction false} PresentStep(first: Option<string>, more: seq<Option<string>>, before: seq<string>, k: nat)
    requires k <= |more|
    ensures before + Present(([first] + more)[..k + 1]) == (before + Present([first])) + Present(more[..k])
  {
    assert ([first] + more)[..k + 1] == [first] + more[..k];
    assert ([first] + more[..k])[1..] == more[..k];
  }

  lemma {:induction false} FlatStep(first: seq<Diagnostic>, more: seq<seq<Diagnostic>>, before: seq<Diagnostic>)
    ensures before + Flat([first] + more) == (before + first) + Flat(more)
  {
    assert ([first] + more)[1..] == more;
  }

  lemma NoneShown(all: seq<Option<string>>)
    ensures Present(all[..0]) == []
  {
  }

  lemma StandsFirst(d: Document, node: Node, shown: Option<string>, told: seq<Diagnostic>, behind: seq<string>, budget: int,
                    at: int, whole: int)
    requires Stands(d, node, shown, told, behind, budget, 0, at)
    requires whole == at || (at == 1 <= whole)
    ensures Stands(d, node, shown, told, behind, budget, 0, whole)
  {
    hide Holds, IncludeStands;
  }

  lemma StandsLater(d: Document, node: Node, shown: Option<string>, told: seq<Diagnostic>, behind: seq<string>, budget: int,
                    k: nat, cut: int, whole: int)
    requires -1 <= cut && Stands(d, node, shown, told, behind, budget, k, cut)
    requires whole == cut + 1 || whole == cut == -1
    ensures Stands(d, node, shown, told, behind, budget, k + 1, whole)
  {
    hide Holds, IncludeStands;
  }

  lemma {:induction false} OneMoreStands(d: Document, nodes: seq<Node>, first: Option<string>, shown: seq<Option<string>>,
                                         tells: seq<Diagnostic>, told: seq<seq<Diagnostic>>, before: seq<string>, budget: int,
                                         at: int, cut: int)
    requires nodes != [] && -1 <= at <= 1 && Stands(d, nodes[0], first, tells, before, budget, 0, at)
    requires at == 0 ==> nodes[0].TextLine?
    requires AllStand(d, nodes[1..], shown, told, before + Present([first]), budget, cut) && (at < 1 <==> cut == -1)
    ensures AllStand(d, nodes, [first] + shown, [tells] + told, before, budget, if at < 1 then at else cut + 1)
  {
    var all, says, whole := [first] + shown, [tells] + told, if at < 1 then at else cut + 1;
    hide Stands, LineStands, IncludeStands, Present, Holds, Left, Lined, ByteCount, Render;
    assert before + Present(all[..0]) == before by { NoneShown(all); }
    assert Stands(d, nodes[0], all[0], says[0], before, budget, 0, whole) by { StandsFirst(d, nodes[0], first, tells, before, budget, at, whole); }
    forall k | 0 <= k < |nodes|
      ensures Stands(d, nodes[k], all[k], says[k], before + Present(all[..k]), budget, k, whole)
    {
      if k > 0 {
        var j := k - 1;
        PresentStep(first, shown, before, j);
        var behind := before + Present(all[..k]);
        assert nodes[1..][j] == nodes[k] && all[k] == shown[j] && says[k] == told[j];
        assert Stands(d, nodes[1..][j], shown[j], told[j], behind, budget, j, cut);
        StandsLater(d, nodes[k], shown[j], told[j], behind, budget, j, cut, whole);
      }
    }
    assert 0 < whole < |nodes| ==> nodes[whole] == nodes[1..][whole - 1];
  }

  lemma {:induction false} WalkStands(d: Document, nodes: seq<Node>, nested: bool, budget: int, p: Progress)
    returns (shown: seq<Option<string>>, told: seq<seq<Diagnostic>>, cut: int)
    requires p.Going?
    ensures AllStand(d, nodes, shown, told, p.parts, budget, cut)
    ensures |shown| == |told| == |nodes| && -1 <= cut <= |nodes| && (p.truncated <==> cut == -1)
    ensures var done := Walk(d, nodes, nested, budget, p);
            && (done.Abandoned? <==> nested && 0 <= cut < |nodes|)
            && (done.Going? ==> done.parts == p.parts + Present(shown) && done.diagnostics == p.diagnostics + Flat(told))
    decreases |nodes|
  {
    hide *;
    WalkIs(d, nodes, nested, budget, p);
    if nodes == [] {
      shown, told, cut := [], [], if p.truncated then -1 else 0;
      NothingStands(d, p.parts, budget, cut);
      assert p.parts + [] == p.parts && p.diagnostics + [] == p.diagnostics;
    } else {
      var first, tells, at := AdvanceStands(d, nodes[0], nested, budget, p);
      var next := Going(p.parts + Present([first]), p.diagnostics + tells, at < 1);
      var rest, says, later := WalkStands(d, nodes[1..], nested, budget, next);
      OneMoreStands(d, nodes, first, rest, tells, says, p.parts, budget, at, later);
      shown, told, cut := [first] + rest, [tells] + says, if at < 1 then at else later + 1;
      PresentStep(first, rest, p.parts, |rest|);
      assert rest[..|rest|] == rest && shown[..|rest| + 1] == shown;
      FlatStep(tells, says, p.diagnostics);
    }
  }

  lemma WalkIs(d: Document, nodes: seq<Node>, nested: bool, budget: int, p: Progress)
    requires p.Going?
    ensures Walk(d, nodes, nested, budget, p) ==
      if nodes == [] then p
      else
        var next := Advance(d, nodes[0], nested, budget, p);
        if next.Abandoned? then Abandoned else Walk(d, nodes[1..], nested, budget, next)
  {
    hide Advance;
  }

  lemma NothingStands(d: Document, before: seq<string>, budget: int, cut: int)
    requires -1 <= cut <= 0
    ensures AllStand(d, [], [], [], before, budget, cut) && Present([]) == [] && Flat([]) == []
  {
  }

  function Start(d: Document, nested: bool): string {
    if nested then "<included-instructions path=\"" + d.path + "\">\n"
    else
      "<instruction-source scope=\""
      + (match d.scope case User => "user" case Project => "project" case ProjectLocal => "project_local")
      + "\" path=\"" + d.path + "\">\n"
  }

  lemma BoundariesAre(d: Document, nested: bool)
    ensures Opening(d, nested) == Start(d, nested)
    ensures Closing(nested) == if nested then "\n</included-instructions>" else "\n</instruction-source>"
  {
  }

  lemma {:induction false} RenderIsAssembled(d: Document, nested: bool, available: int)
    ensures var budget := BodyBudget(d, nested, available);
            var p := Walk(d, d.nodes, nested, budget, Going([], [], false));
            && budget == available - ByteCount(Opening(d, nested)) - ByteCount(Closing(nested))
            && (budget < 0 || p.Abandoned? ==> Render(d, nested, available) == Rendering("", [], [], true))
            && (budget >= 0 && p.Going? ==>
                  var body := Join(p.parts);
                  Render(d, nested, available) ==
                    if nested && body == "" then Rendering("", [], [], false)
                    else Rendering(Opening(d, nested) + body + Closing(nested), [d.scope], p.diagnostics, false))
  {
    RenderStaysInBudget(d, nested, available);
    hide Join, ByteCount, Walk, Opening, Closing;
  }

  /** The rendering of any document read off its nodes. A main document is shown up to the first of its own lines that does
      not fit, with the marker in that place if that fits, and with every include, before the cut or after it, in the room
      the lines shown before leave. An include shows all of its lines or is dropped. */
  lemma {:induction false} DocumentIsShown(d: Document, nested: bool, available: int)
    returns (shown: seq<Option<string>>, told: seq<seq<Diagnostic>>, cut: nat)
    ensures var start, end := Start(d, nested), if nested then "\n</included-instructions>" else "\n</instruction-source>";
            var budget, body := available - ByteCount(start) - ByteCount(end), Lined(Present(shown));
            && AllStand(d, d.nodes, shown, told, [], budget, cut) && cut <= |d.nodes|
            && Render(d, nested, available) ==
                 if budget < 0 || (nested && cut < |d.nodes|) then Rendering("", [], [], true)
                 else if nested && body == "" then Rendering("", [], [], false)
                 else Rendering(start + body + end, [d.scope], Flat(told), false)
  {
    hide *;
    BoundariesAre(d, nested);
    RenderIsAssembled(d, nested, available);
    shown, told, cut := WalkStands(d, d.nodes, nested, BodyBudget(d, nested, available), Going([], [], false));
    assert [] + Present(shown) == Present(shown) && [] + Flat(told) == Flat(told);
    JoinIs(Present(shown));
  }

  // ---- layers ----

  /** What has been chosen after looking at some layers, highest priority first. */
  datatype Chosen = Chosen(texts: map<Scope, Rendering>, diagnostics: map<Scope, seq<Diagnostic>>, remaining: int)

  function Separator(c: Chosen): int {
    if c.texts != map[] then 2 else 0
  }

  function Consider(layer: Document, c: Chosen): Chosen {
    var r := Render(layer, false, c.remaining - Separator(c));
    if r.text != "" then
      Chosen(c.texts[layer.scope := r], c.diagnostics[layer.scope := r.diagnostics],
             c.remaining - (ByteCount(r.text) + Separator(c)))
    else
      c.(diagnostics := c.diagnostics[layer.scope := r.diagnostics + [MainTruncated(layer.scope, layer.path)]])
  }

  /** Layers are listed from low to high priority and considered from the last one back. */
  function Choose(layers: seq<Document>, maxPayload: int): Chosen {
    if layers == [] then Chosen(map[], map[], maxPayload)
    else Consider(layers[0], Choose(layers[1..], maxPayload))
  }

  function InOrder(layers: seq<Document>, texts: map<Scope, Rendering>): seq<Rendering> {
    if layers == [] then []
    else (if layers[0].scope in texts then [texts[layers[0].scope]] else []) + InOrder(layers[1..], texts)
  }

  function JoinLayers(rs: seq<Rendering>): string {
    if rs == [] then ""
    else if |rs| == 1 then rs[0].text
    else rs[0].text + "\n\n" + JoinLayers(rs[1..])
  }

  function Payload(layers: seq<Document>, maxPayload: int): string {
    JoinLayers(InOrder(layers, Choose(layers, maxPayload).texts))
  }

  method RenderLayers(layers: seq<Document>, maxPayload: int) returns (text: string, chosen: Chosen)
    ensures chosen == Choose(layers, maxPayload) && text == Payload(layers, maxPayload)
  {
    var texts: map<Scope, Rendering>, diagnostics: map<Scope, seq<Diagnostic>>, remaining := map[], map[], maxPayload;
    var i := |layers|;
    assert layers[|layers|..] == [];
    while i > 0
      invariant 0 <= i <= |layers|
      invariant Chosen(texts, diagnostics, remaining) == Choose(layers[i..], maxPayload)
    {
      i := i - 1;
      var layer := layers[i];
      assert layers[i..][0] == layer && layers[i..][1..] == layers[i + 1..];
      var separator := if texts != map[] then 2 else 0;
      var r := RenderDocument(layer, false, remaining - separator);
      if r.text != "" {
        texts := texts[layer.scope := r];
        diagnostics := diagnostics[layer.scope := r.diagnostics];
        remaining := remaining - (ByteCount(r.text) + separator);
      } else {
        diagnostics := diagnostics[layer.scope := r.diagnostics + [MainTruncated(layer.scope, layer.path)]];
      }
    }
    assert layers[0..] == layers;
    chosen := Chosen(texts, diagnostics, remaining);
    text := JoinLayers(InOrder(layers, texts));
  }

  ghost predicate DistinctScopes(layers: seq<Document>) {
    forall i, j :: 0 <= i < j < |layers| ==> layers[i].scope != layers[j].scope
  }

  ghost predicate NoneHasScope(layers: seq<Document>, scope: Scope) {
    forall i :: 0 <= i < |layers| ==> layers[i].scope != scope
  }

  lemma {:induction false} ChosenScopes(layers: seq<Document>, maxPayload: int, scope: Scope)
    requires NoneHasScope(layers, scope)
    ensures scope !in Choose(layers, maxPayload).texts
  {
    hide Render;
    if layers != [] {
      ChosenScopes(layers[1..], maxPayload, scope);
    }
  }

  lemma {:induction false} InOrderIgnoresOthers(layers: seq<Document>, texts: map<Scope, Rendering>, scope: Scope, r: Rendering)
    requires NoneHasScope(layers, scope)
    ensures InOrder(layers, texts[scope := r]) == InOrder(layers, texts)
  {
    if layers != [] {
      InOrderIgnoresOthers(layers[1..], texts, scope, r);
    }
  }

  /** Adding lower-priority layers in front never changes what a layer renders to. */
  lemma {:induction false} LowerLayersDoNotMatter(lower: seq<Document>, upper: seq<Document>, maxPayload: int, scope: Scope)
    requires NoneHasScope(lower, scope)
    ensures var all, top := Choose(lower + upper, maxPayload), Choose(upper, maxPayload);
            && (scope in all.texts <==> scope in top.texts)
            && (scope in top.texts ==> all.texts[scope] == top.texts[scope])
  {
    hide Render;
    if lower == [] {
      assert lower + upper == upper;
    } else {
      assert (lower + upper)[1..] == lower[1..] + upper;
      LowerLayersDoNotMatter(lower[1..], upper, maxPayload, scope);
    }
  }

  ghost predicate AddsUp(layers: seq<Document>, c: Chosen, maxPayload: int) {
    && c.remaining >= 0
    && ByteCount(JoinLayers(InOrder(layers, c.texts))) + c.remaining == maxPayload
    && (c.texts == map[] <==> InOrder(layers, c.texts) == [])
  }

  /** The bytes used and the bytes left always add up to the payload limit. */
  lemma {:induction false} LayersAddUp(layers: seq<Document>, maxPayload: nat)
    requires DistinctScopes(layers)
    ensures AddsUp(layers, Choose(layers, maxPayload), maxPayload)
  {
    hide ByteCount, Render, Consider;
    if layers == [] {
      NoLayers();
    } else {
      var rest := layers[1..];
      LayersAddUp(rest, maxPayload);
      ChosenScopes(rest, maxPayload, layers[0].scope);
      var before := Choose(rest, maxPayload);
      hide Choose, AddsUp;
      OneMoreLayer(layers, before, maxPayload);
    }
  }

  lemma OneMoreLayer(layers: seq<Document>, before: Chosen, maxPayload: int)
    requires layers != [] && DistinctScopes(layers)
    requires layers[0].scope !in before.texts && AddsUp(layers[1..], before, maxPayload)
    ensures AddsUp(layers, Consider(layers[0], before), maxPayload)
  {
    hide ByteCount, Render, AddsUp;
    var available := before.remaining - Separator(before);
    var r := Render(layers[0], false, available);
    RenderStaysInBudget(layers[0], false, available);
    if r.text == "" {
      LayerLeftOut(layers, before, Consider(layers[0], before), maxPayload);
    } else {
      LayerTaken(layers, before, r, Consider(layers[0], before), maxPayload);
    }
  }

  lemma LayerLeftOut(layers: seq<Document>, before: Chosen, after: Chosen, maxPayload: int)
    requires layers != []
    requires layers[0].scope !in before.texts && AddsUp(layers[1..], before, maxPayload)
    requires after.texts == before.texts && after.remaining == before.remaining
    ensures AddsUp(layers, after, maxPayload)
  {
    hide ByteCount;
    assert InOrder(layers, before.texts) == InOrder(layers[1..], before.texts);
  }

  lemma LayerTaken(layers: seq<Document>, before: Chosen, r: Rendering, after: Chosen, maxPayload: int)
    requires layers != [] && DistinctScopes(layers)
    requires layers[0].scope !in before.texts && AddsUp(layers[1..], before, maxPayload)
    requires r.text != "" && ByteCount(r.text) <= before.remaining - Separator(before)
    requires after.texts == before.texts[layers[0].scope := r]
    requires after.remaining == before.remaining - (ByteCount(r.text) + Separator(before))
    ensures AddsUp(layers, after, maxPayload)
  {
    var rest, scope := layers[1..], layers[0].scope;
    InOrderIgnoresOthers(rest, before.texts, scope, r);
    var tail := InOrder(rest, before.texts);
    assert InOrder(layers, after.texts) == [r] + tail;
    hide ByteCount, JoinLayers, InOrder;
    assert scope in after.texts;
    PrependedBytes(r, tail);
    NoLayers();
  }

  lemma NoLayers()
    ensures ByteCount(JoinLayers([])) == 0
  {
  }

  lemma PrependedBytes(r: Rendering, tail: seq<Rendering>)
    ensures ByteCount(JoinLayers([r] + tail))
         == ByteCount(r.text) + (if tail == [] then 0 else 2 + ByteCount(JoinLayers(tail)))
  {
    hide ByteCount;
    assert ([r] + tail)[1..] == tail;
    NewlineByte();
    ByteCountConcat(r.text, "\n\n");
    ByteCountConcat(r.text + "\n\n", JoinLayers(tail));
  }

  /** With one document per scope, as the loader supplies them, the payload limit holds for every
      include tree in every layer. */
  lemma PayloadWithinLimit(layers: seq<Document>, maxPayload: nat)
    requires DistinctScopes(layers)
    ensures ByteCount(Payload(layers, maxPayload)) <= maxPayload
  {
    LayersAddUp(layers, maxPayload);
    hide ByteCount, JoinLayers, InOrder, Choose;
  }

  /** The scopes do have to differ: for two layers of one scope the lower one is charged once and
      printed twice, so the limit fails exactly when that copy does not fit. */
  lemma SharedScopePrintsTwice(low: Document, high: Document, maxPayload: nat)
    requires low.scope == high.scope
    requires var first := Render(high, false, maxPayload);
             first.text != "" && Render(low, false, maxPayload - ByteCount(first.text) - 2).text != ""
    ensures var text := Render(low, false, maxPayload - ByteCount(Render(high, false, maxPayload).text) - 2).text;
            && Payload([low, high], maxPayload) == text + "\n\n" + text
            && (ByteCount(Payload([low, high], maxPayload)) <= maxPayload <==> 2 * ByteCount(text) + 2 <= maxPayload)
  {
    hide Render, ByteCount;
    var layers := [low, high];
    assert layers[1..] == [high] && [high][1..] == [];
    var first := Render(high, false, maxPayload);
    var top := Choose([high], maxPayload);
    assert Choose([], maxPayload) == Chosen(map[], map[], maxPayload);
    assert top == Consider(high, Choose([high][1..], maxPayload));
    assert high.scope in top.texts;
    var r := Render(low, false, maxPayload - ByteCount(first.text) - 2);
    var texts := Choose(layers, maxPayload).texts;
    assert texts[low.scope] == r;
    assert InOrder([high], texts) == [r] by {
      assert InOrder([], texts) == [];
    }
    assert InOrder(layers, texts) == [r] + [r];
    PrependedBytes(r, [r]);
    assert ([r] + [r])[1..] == [r];
  }

  // ---- what the layers show ----

  /** The texts one below the other, those that are empty left out. */
  function Stacked(texts: seq<string>): string {
    if texts == [] then ""
    else
      var below := Stacked(texts[1..]);
      if texts[0] == "" then below else if below == "" then texts[0] else texts[0] + "\n\n" + below
  }

  /** The room left beside the texts taken before. */
  function RoomBeside(taken: seq<string>, maxPayload: int): int {
    maxPayload - ByteCount(Stacked(taken)) - (if Stacked(taken) == "" then 0 else 2)
  }

  /** Each layer is rendered in the room the higher ones leave. */
  ghost predicate LayersStand(layers: seq<Document>, texts: seq<string>, told: seq<seq<Diagnostic>>, maxPayload: int) {
    && |texts| == |told| == |layers|
    && forall i :: 0 <= i < |layers| ==>
         var r := Render(layers[i], false, RoomBeside(texts[i + 1..], maxPayload));
         && texts[i] == r.text
         && told[i] == r.diagnostics + if r.text == "" then [MainTruncated(layers[i].scope, layers[i].path)] else []
  }

  ghost predicate Tells(layers: seq<Document>, c: Chosen, told: seq<seq<Diagnostic>>) {
    && |told| == |layers|
    && forall i :: 0 <= i < |layers| ==> layers[i].scope in c.diagnostics && c.diagnostics[layers[i].scope] == told[i]
  }

  ghost predicate Stacks(layers: seq<Document>, c: Chosen, texts: seq<string>) {
    && JoinLayers(InOrder(layers, c.texts)) == Stacked(texts)
    && (InOrder(layers, c.texts) == [] <==> Stacked(texts) == "")
  }

  lemma StackedIs(text: string, texts: seq<string>)
    ensures Stacked([text] + texts) ==
      if text == "" then Stacked(texts) else if Stacked(texts) == "" then text else text + "\n\n" + Stacked(texts)
  {
    assert ([text] + texts)[1..] == texts;
  }

  lemma JoinedIs(r: Rendering, tail: seq<Rendering>)
    ensures JoinLayers([r] + tail) == if tail == [] then r.text else r.text + "\n\n" + JoinLayers(tail)
  {
    assert ([r] + tail)[1..] == tail;
  }

  lemma OrderIs(layers: seq<Document>, texts: map<Scope, Rendering>)
    requires layers != [] && DistinctScopes(layers) && layers[0].scope !in texts
    ensures InOrder(layers, texts) == InOrder(layers[1..], texts)
    ensures forall r :: InOrder(layers, texts[layers[0].scope := r]) == [r] + InOrder(layers[1..], texts)
  {
    forall r ensures InOrder(layers, texts[layers[0].scope := r]) == [r] + InOrder(layers[1..], texts) {
      InOrderIgnoresOthers(layers[1..], texts, layers[0].scope, r);
    }
  }

  lemma {:induction false} LayerStacks(layers: seq<Document>, before: Chosen, texts: seq<string>)
    requires layers != [] && DistinctScopes(layers) && layers[0].scope !in before.texts
    requires Stacks(layers[1..], before, texts)
    ensures var r := Render(layers[0], false, before.remaining - Separator(before));
            Stacks(layers, Consider(layers[0], before), [r.text] + texts)
  {
    hide Render, Separator, InOrder, JoinLayers, Stacked, DistinctScopes;
    var r := Render(layers[0], false, before.remaining - Separator(before));
    OrderIs(layers, before.texts);
    StackedIs(r.text, texts);
    JoinedIs(r, InOrder(layers[1..], before.texts));
  }

  lemma {:induction false} LayerTells(layers: seq<Document>, before: Chosen, told: seq<seq<Diagnostic>>)
    requires layers != [] && DistinctScopes(layers) && Tells(layers[1..], before, told)
    ensures var r := Render(layers[0], false, before.remaining - Separator(before));
            var tells := r.diagnostics + if r.text == "" then [MainTruncated(layers[0].scope, layers[0].path)] else [];
            Tells(layers, Consider(layers[0], before), [tells] + told)
  {
    hide Render, Separator;
    forall i | 0 < i < |layers| ensures layers[i] == layers[1..][i - 1] && layers[i].scope != layers[0].scope {
    }
  }

  lemma {:induction false} OneMoreLayerStands(layers: seq<Document>, texts: seq<string>, told: seq<seq<Diagnostic>>,
                                              maxPayload: int)
    requires layers != [] && LayersStand(layers[1..], texts, told, maxPayload)
    ensures var r := Render(layers[0], false, RoomBeside(texts, maxPayload));
            var tells := r.diagnostics + if r.text == "" then [MainTruncated(layers[0].scope, layers[0].path)] else [];
            LayersStand(layers, [r.text] + texts, [tells] + told, maxPayload)
  {
    hide Render, RoomBeside;
    var r := Render(layers[0], false, RoomBeside(texts, maxPayload));
    forall i | 0 <= i < |layers|
      ensures ([r.text] + texts)[i + 1..] == texts[i..]
      ensures i > 0 ==> layers[i] == layers[1..][i - 1] && texts[i..] == texts[(i - 1) + 1..]
    {
    }
  }

  lemma {:induction false} LayersAre(layers: seq<Document>, maxPayload: nat) returns (texts: seq<string>,
                                     told: seq<seq<Diagnostic>>)
    requires DistinctScopes(layers)
    ensures LayersStand(layers, texts, told, maxPayload)
    ensures Stacks(layers, Choose(layers, maxPayload), texts) && Tells(layers, Choose(layers, maxPayload), told)
  {
    hide *;
    if layers == [] {
      texts, told := [], [];
      NothingChosen(maxPayload);
    } else {
      var rest := layers[1..];
      RestDiffers(layers);
      texts, told := LayersAre(rest, maxPayload);
      var before := Choose(rest, maxPayload);
      LayersAddUp(rest, maxPayload);
      ChosenScopes(rest, maxPayload, layers[0].scope);
      RoomIsWhatRemains(rest, before, texts, maxPayload);
      LayerStacks(layers, before, texts);
      LayerTells(layers, before, told);
      OneMoreLayerStands(layers, texts, told, maxPayload);
      ChooseIs(layers, maxPayload);
      var r := Render(layers[0], false, RoomBeside(texts, maxPayload));
      texts := [r.text] + texts;
      told := [r.diagnostics + if r.text == "" then [MainTruncated(layers[0].scope, layers[0].path)] else []] + told;
    }
  }

  lemma RestDiffers(layers: seq<Document>)
    requires layers != [] && DistinctScopes(layers)
    ensures DistinctScopes(layers[1..]) && NoneHasScope(layers[1..], layers[0].scope)
  {
  }

  lemma ChooseIs(layers: seq<Document>, maxPayload: int)
    requires layers != []
    ensures Choose(layers, maxPayload) == Consider(layers[0], Choose(layers[1..], maxPayload))
  {
    hide Consider;
  }

  lemma NothingChosen(maxPayload: int)
    ensures LayersStand([], [], [], maxPayload)
    ensures Stacks([], Choose([], maxPayload), []) && Tells([], Choose([], maxPayload), [])
  {
  }

  lemma RoomIsWhatRemains(layers: seq<Document>, c: Chosen, texts: seq<string>, maxPayload: int)
    requires AddsUp(layers, c, maxPayload) && Stacks(layers, c, texts)
    ensures c.remaining - Separator(c) == RoomBeside(texts, maxPayload)
  {
    hide ByteCount, JoinLayers, InOrder, Stacked;
  }

  /** The payload read off the layers: each is rendered in the room the higher ones leave, those that come to something stand
      one below the other in the order given, and each has its diagnostics. */
  lemma {:induction false} LayersAreShown(layers: seq<Document>, maxPayload: nat)
    returns (texts: seq<string>, told: seq<seq<Diagnostic>>)
    requires DistinctScopes(layers)
    ensures LayersStand(layers, texts, told, maxPayload) && Payload(layers, maxPayload) == Stacked(texts)
    ensures Tells(layers, Choose(layers, maxPayload), told)
  {
    texts, told := LayersAre(layers, maxPayload);
    hide LayersStand, Choose, Stacked, Tells;
  }

  // ---- shared scopes ----

  function Filler(n: nat): string {
    seq(n, i => 'a')
  }

  /** A document without lines whose path is `n` characters long. */
  function Bare(scope: Scope, n: nat): Document {
    Document(scope, Filler(n), [])
  }

  function PathStart(scope: Scope): string {
    "<instruction-source scope=\"" + ScopeName(scope) + "\" path=\""
  }

  /** Bytes of the boundaries around a layer with an empty path. */
  function BoundaryBytes(scope: Scope): nat {
    ByteCount(PathStart(scope)) + ByteCount("\">\n") + ByteCount(Closing(false))
  }

  lemma {:induction false} BareOpening(scope: Scope, n: nat)
    ensures Opening(Bare(scope, n), false) != ""
    ensures ByteCount(Opening(Bare(scope, n), false)) + ByteCount(Closing(false)) == BoundaryBytes(scope) + n
  {
    hide ByteCount, Closing, ScopeName;
    assert Opening(Bare(scope, n), false) == PathStart(scope) + Filler(n) + "\">\n";
    hide PathStart, Opening;
    AsciiBytes(Filler(n));
    ByteCountConcat(PathStart(scope), Filler(n));
    ByteCountConcat(PathStart(scope) + Filler(n), "\">\n");
  }

  lemma {:induction false} NoLines(d: Document, available: int)
    requires d.nodes == []
    ensures Render(d, false, available) ==
      if BodyBudget(d, false, available) < 0 then DROPPED
      else Assemble(d, false, available, Going([], [], false))
  {
    hide ByteCount, Opening, Closing, Assemble, BodyBudget;
  }

  lemma {:induction false} BareBytes(scope: Scope, n: nat, available: int)
    ensures var r := Render(Bare(scope, n), false, available);
            if BoundaryBytes(scope) + n <= available then r.text != "" && ByteCount(r.text) == BoundaryBytes(scope) + n
            else r.text == ""
  {
    hide ByteCount, Opening, Closing, BoundaryBytes, Render, Filler;
    var d := Bare(scope, n);
    BareOpening(scope, n);
    NoLines(d, available);
    assert Opening(d, false) + Join([]) == Opening(d, false);
    ByteCountConcat(Opening(d, false), Closing(false));
  }

  /** A layer without lines is taken exactly if it fits what is left. */
  lemma {:induction false} ConsiderBare(scope: Scope, n: nat, c: Chosen)
    ensures var size, after := BoundaryBytes(scope) + n, Consider(Bare(scope, n), c);
            if size <= c.remaining - Separator(c)
            then after.texts.Keys == c.texts.Keys + {scope} && ByteCount(after.texts[scope].text) == size
                 && after.remaining == c.remaining - size - Separator(c)
            else after.texts == c.texts && after.remaining == c.remaining
  {
    BareBytes(scope, n, c.remaining - Separator(c));
    hide ByteCount, BoundaryBytes, Render, Filler;
  }

  /** Layers that do not fit on their own leave the choice as it is. */
  ghost predicate TooLong(layers: seq<Document>, maxPayload: nat) {
    forall k :: 0 <= k < |layers| ==> layers[k] == Bare(layers[k].scope, maxPayload + 1)
  }

  lemma {:induction false} TooLongAreDropped(layers: seq<Document>, rest: seq<Document>, maxPayload: nat)
    requires TooLong(layers, maxPayload) && Choose(rest, maxPayload).remaining <= maxPayload
    ensures var all, upper := Choose(layers + rest, maxPayload), Choose(rest, maxPayload);
            all.texts == upper.texts && all.remaining == upper.remaining
  {
    hide Bare, Consider, BoundaryBytes, ByteCount;
    if layers == [] {
      assert layers + rest == rest;
    } else {
      assert (layers + rest)[1..] == layers[1..] + rest;
      TooLongAreDropped(layers[1..], rest, maxPayload);
      ConsiderBare(layers[0].scope, maxPayload + 1, Choose(layers[1..] + rest, maxPayload));
    }
  }

  /** Two layers of one scope among others that do not fit: one byte over the limit. */
  function TwiceIn(scopes: seq<Scope>, i: nat, j: nat, limit: nat): seq<Document> {
    seq(|scopes|, k requires 0 <= k < |scopes| =>
      Bare(scopes[k], if k == j then 0 else if k == i then 1 else limit + 1))
  }

  function TwiceLimit(scope: Scope): nat {
    2 * BoundaryBytes(scope) + 3
  }

  lemma {:induction false} TwiceParts(scopes: seq<Scope>, i: nat, j: nat, limit: nat)
    requires i < j < |scopes| && scopes[i] == scopes[j]
    ensures var layers := TwiceIn(scopes, i, j, limit);
            && |layers| == |scopes| && (forall k :: 0 <= k < |layers| ==> layers[k].scope == scopes[k])
            && layers[i] == Bare(scopes[j], 1) && layers[j] == Bare(scopes[j], 0)
            && TooLong(layers[..i], limit) && TooLong(layers[i + 1..j], limit) && TooLong(layers[j + 1..], limit)
  {
    hide Filler;
  }

  lemma {:induction false} TwiceChosen(scopes: seq<Scope>, i: nat, j: nat)
    requires i < j < |scopes| && scopes[i] == scopes[j]
    ensures var limit := TwiceLimit(scopes[j]);
            var texts := Choose(TwiceIn(scopes, i, j, limit), limit).texts;
            && texts.Keys == {scopes[j]}
            && ByteCount(texts[scopes[j]].text) == BoundaryBytes(scopes[j]) + 1
  {
    hide Bare, TwiceIn, Consider, BoundaryBytes, ByteCount, TooLong;
    var limit := TwiceLimit(scopes[j]);
    TwiceParts(scopes, i, j, limit);
    var layers := TwiceIn(scopes, i, j, limit);
    var scope, size := scopes[j], BoundaryBytes(scopes[j]);
    // above the higher of the two
    assert layers[j + 1..] + [] == layers[j + 1..];
    TooLongAreDropped(layers[j + 1..], [], limit);
    // the higher one
    assert layers[j..][0] == layers[j] && layers[j..][1..] == layers[j + 1..];
    ConsiderBare(scope, 0, Choose(layers[j + 1..], limit));
    var high := Choose(layers[j..], limit);
    assert high.texts.Keys == {scope} && high.remaining == size + 3;
    // between them
    assert layers[i + 1..j] + layers[j..] == layers[i + 1..];
    TooLongAreDropped(layers[i + 1..j], layers[j..], limit);
    // the lower one
    assert layers[i..][0] == layers[i] && layers[i..][1..] == layers[i + 1..];
    ConsiderBare(scope, 1, Choose(layers[i + 1..], limit));
    var low := Choose(layers[i..], limit);
    assert low.texts.Keys == {scope} && low.remaining == 0;
    // below it
    assert layers[..i] + layers[i..] == layers;
    TooLongAreDropped(layers[..i], layers[i..], limit);
  }

  lemma {:induction false} Printed(layers: seq<Document>, texts: map<Scope, Rendering>, scope: Scope)
    requires texts.Keys == {scope}
    ensures forall r :: r in InOrder(layers, texts) ==> r == texts[scope]
    ensures (exists i :: 0 <= i < |layers| && layers[i].scope == scope) ==> |InOrder(layers, texts)| >= 1
    ensures (exists i, j :: 0 <= i < j < |layers| && layers[i].scope == scope && layers[j].scope == scope) ==>
      |InOrder(layers, texts)| >= 2
  {
    if layers != [] {
      var rest := layers[1..];
      Printed(rest, texts, scope);
      if i, j :| 0 <= i < j < |layers| && layers[i].scope == scope && layers[j].scope == scope {
        assert rest[j - 1].scope == scope;
        if i > 0 { assert rest[i - 1].scope == scope; }
      }
      if i :| 0 < i < |layers| && layers[i].scope == scope { assert rest[i - 1].scope == scope; }
    }
  }

  lemma {:induction false} TwoCopiesBytes(rs: seq<Rendering>, r: Rendering)
    requires |rs| >= 2 && forall x :: x in rs ==> x == r
    ensures ByteCount(JoinLayers(rs)) >= 2 * ByteCount(r.text) + 2
  {
    hide ByteCount, JoinLayers;
    assert rs[0] in rs && rs[1] in rs;
    assert rs == [r] + rs[1..] && rs[1..] == [r] + rs[2..];
    PrependedBytes(r, rs[1..]);
    PrependedBytes(r, rs[2..]);
  }

  lemma {:induction false} SharedScopeBreaksLimit(scopes: seq<Scope>, i: nat, j: nat)
    requires i < j < |scopes| && scopes[i] == scopes[j]
    ensures var layers := TwiceIn(scopes, i, j, TwiceLimit(scopes[j]));
            && (forall k :: 0 <= k < |layers| ==> layers[k].scope == scopes[k])
            && ByteCount(Payload(layers, TwiceLimit(scopes[j]))) > TwiceLimit(scopes[j])
  {
    hide BoundaryBytes, ByteCount, JoinLayers, Choose, Bare;
    TwiceParts(scopes, i, j, TwiceLimit(scopes[j]));
    var layers := TwiceIn(scopes, i, j, TwiceLimit(scopes[j]));
    hide TwiceIn, TooLong;
    var texts := Choose(layers, TwiceLimit(scopes[j])).texts;
    TwiceChosen(scopes, i, j);
    assert layers[i].scope == scopes[j] && layers[j].scope == scopes[j];
    Printed(layers, texts, scopes[j]);
    hide InOrder;
    TwoCopiesBytes(InOrder(layers, texts), texts[scopes[j]]);
  }

  ghost predicate HasScopes(layers: seq<Document>, scopes: seq<Scope>) {
    |layers| == |scopes| && forall k :: 0 <= k < |layers| ==> layers[k].scope == scopes[k]
  }

  /** The limit is safe for any number of layers, whatever the documents are, exactly if no two layers
      share a scope. */
  lemma {:induction false} LimitHoldsIffScopesDiffer(scopes: seq<Scope>)
    ensures (forall layers, maxPayload: nat :: HasScopes(layers, scopes) ==> ByteCount(Payload(layers, maxPayload)) <= maxPayload)
       <==> forall i, j :: 0 <= i < j < |scopes| ==> scopes[i] != scopes[j]
  {
    hide ByteCount, Payload;
    if i, j :| 0 <= i < j < |scopes| && scopes[i] == scopes[j] {
      SharedScopeBreaksLimit(scopes, i, j);
      assert HasScopes(TwiceIn(scopes, i, j, TwiceLimit(scopes[j])), scopes);
    } else {
      forall layers, maxPayload: nat | HasScopes(layers, scopes) ensures ByteCount(Payload(layers, maxPayload)) <= maxPayload {
        PayloadWithinLimit(layers, maxPayload);
      }
    }
  }
}
