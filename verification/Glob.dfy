/** Full-string glob patterns: what one compiles to, what it matches, and when it is exact. */
module Glob {

  datatype Result<+T> = Ok(value: T) | Err(error: SyntaxError)

  datatype SyntaxError =
    | EmptyPattern
    | TrailingEscape
    | EscapeOfOrdinary
    | UnclosedClass
    | MalformedClass
    | EmptyClass
    | UnmatchedBracket
    | BadRange   // reported by the regular-expression compiler, not by the glob grammar

  /** One compiled piece: a literal, `.*`, `.`, or a set of character ranges. */
  datatype Piece =
    | Literal(c: char)
    | AnyRun
    | AnyOne
    | Class(negated: bool, ranges: seq<Range>)

  datatype Range = Range(low: char, high: char)

  datatype Glob = Glob(pieces: seq<Piece>, exact: bool)

  predicate Meta(c: char) {
    c == '\\' || c == '*' || c == '?' || c == '[' || c == ']'
  }

  /** Inside brackets a hyphen between two characters makes a range; elsewhere it is itself. */
  function Ranges(content: string): (r: Result<seq<Range>>)
  {
    if content == "" then Ok([])
    else if |content| >= 3 && content[1] == '-' then
      if content[0] > content[2] then Err(BadRange)
      else
        match Ranges(content[3..])
        case Ok(rest) => Ok([Range(content[0], content[2])] + rest)
        case Err(e) => Err(e)
    else
      match Ranges(content[1..])
      case Ok(rest) => Ok([Range(content[0], content[0])] + rest)
      case Err(e) => Err(e)
  }

  function Closing(pattern: string, from: nat): (at: nat)
    requires from <= |pattern|
    ensures from <= at <= |pattern|
    ensures at < |pattern| ==> pattern[at] == ']'
    ensures forall j :: from <= j < at ==> pattern[j] != ']'
    decreases |pattern| - from
  {
    if from == |pattern| || pattern[from] == ']' then from else Closing(pattern, from + 1)
  }

  /** The set between two brackets; a leading `!` or `^` turns it into its complement. */
  function ClassPiece(content: string): Result<Piece> {
    if content == "" || '\\' in content || '[' in content then Err(MalformedClass)
    else
      var negated := content[0] == '!' || content[0] == '^';
      var members := if negated then content[1..] else content;
      if members == "" then Err(EmptyClass)
      else
        match Ranges(members)
        case Ok(ranges) => Ok(Class(negated, ranges))
        case Err(e) => Err(e)
  }

  /** The piece that starts at `index`, and where the next one starts. */
  function PieceAt(pattern: string, index: nat): (r: Result<(Piece, nat)>)
    requires index < |pattern|
    ensures r.Ok? ==> index < r.value.1 <= |pattern|
  {
    var c := pattern[index];
    if c == '\\' then
      if index + 1 >= |pattern| then Err(TrailingEscape)
      else if !Meta(pattern[index + 1]) then Err(EscapeOfOrdinary)
      else Ok((Literal(pattern[index + 1]), index + 2))
    else if c == '*' then Ok((AnyRun, index + 1))
    else if c == '?' then Ok((AnyOne, index + 1))
    else if c == '[' then
      var closing := Closing(pattern, index + 1);
      if closing == |pattern| then Err(UnclosedClass)
      else
        match ClassPiece(pattern[index + 1..closing])
        case Ok(piece) => Ok((piece, closing + 1))
        case Err(e) => Err(e)
    else if c == ']' then Err(UnmatchedBracket)
    else Ok((Literal(c), index + 1))
  }

  function CompileFrom(pattern: string, index: nat): Result<seq<Piece>>
    requires index <= |pattern|
    decreases |pattern| - index
  {
    if index == |pattern| then Ok([])
    else
      match PieceAt(pattern, index)
      case Err(e) => Err(e)
      case Ok((piece, next)) =>
        match CompileFrom(pattern, next)
        case Err(e) => Err(e)
        case Ok(rest) => Ok([piece] + rest)
  }

  function Prepended(pieces: seq<Piece>, rest: Result<seq<Piece>>): Result<seq<Piece>> {
    match rest
    case Ok(more) => Ok(pieces + more)
    case Err(e) => Err(e)
  }

  predicate AllLiteral(pieces: seq<Piece>) {
    forall p | p in pieces :: p.Literal?
  }

  /** The specification of the compiler: pieces left to right, exact when all are literals. */
  function Compiled(pattern: string): Result<Glob> {
    if pattern == "" then Err(EmptyPattern)
    else
      match CompileFrom(pattern, 0)
      case Err(e) => Err(e)
      case Ok(pieces) => Ok(Glob(pieces, AllLiteral(pieces)))
  }

  /** The scan over the pattern that collects pieces and clears `exact` on the way. */
  method Compile(pattern: string) returns (result: Result<Glob>)
    ensures result == Compiled(pattern)
  {
    if pattern == "" {
      return Err(EmptyPattern);
    }
    ghost var whole := CompileFrom(pattern, 0);
    var pieces: seq<Piece> := [];
    assert whole.Ok? ==> pieces + whole.value == whole.value;
    var exact := true;
    var index: nat := 0;
    while index < |pattern|
      invariant index <= |pattern|
      invariant exact == AllLiteral(pieces)
      invariant whole == Prepended(pieces, CompileFrom(pattern, index))
    {
      match PieceAt(pattern, index)
      case Err(e) => return Err(e);
      case Ok((piece, next)) =>
        ghost var before, rest := pieces, CompileFrom(pattern, next);
        pieces := pieces + [piece];
        if rest.Ok? {
          assert before + ([piece] + rest.value) == pieces + rest.value;
        }
        if !piece.Literal? {
          exact := false;
        }
        index := next;
    }
    assert pieces + [] == pieces;
    return Ok(Glob(pieces, exact));
  }

  predicate InClass(c: char, ranges: seq<Range>) {
    exists r :: r in ranges && r.low <= c <= r.high
  }

  predicate OneMatches(piece: Piece, c: char) {
    match piece
    case Literal(l) => c == l
    case AnyRun => false
    case AnyOne => c != '\n'
    case Class(negated, ranges) => InClass(c, ranges) != negated
  }

  /** Full-string matching, with `.` never standing for a newline. */
  predicate Matches(pieces: seq<Piece>, target: string)
    decreases |pieces|, |target|
  {
    if pieces == [] then target == ""
    else if pieces[0].AnyRun? then
      || Matches(pieces[1..], target)
      || (target != "" && target[0] != '\n' && Matches(pieces, target[1..]))
    else target != "" && OneMatches(pieces[0], target[0]) && Matches(pieces[1..], target[1..])
  }

  predicate Control(c: char) {
    c < ' ' || c == 0x7f as char
  }

  function Escaped(target: string): string {
    if target == "" then ""
    else (if Meta(target[0]) then ['\\', target[0]] else [target[0]]) + Escaped(target[1..])
  }

  lemma {:induction false} EscapedSnoc(front: string, c: char)
    ensures Escaped(front + [c]) == Escaped(front) + (if Meta(c) then ['\\'] + [c] else [c])
  {
    if front == "" {
      assert front + [c] == [c];
      assert Escaped([c][1..]) == "";
    } else {
      assert (front + [c])[1..] == front[1..] + [c];
      EscapedSnoc(front[1..], c);
    }
  }

  /** Quotes every metacharacter; a target must be one non-empty line of printable text. */
  method EscapeExactTarget(target: string) returns (escaped: string, ok: bool)
    ensures ok <==> target != "" && !exists c :: c in target && Control(c)
    ensures ok ==> escaped == Escaped(target)
  {
    if target == "" || exists c :: c in target && Control(c) {
      return "", false;
    }
    escaped := "";
    ok := true;
    assert target[..0] == "";
    for i := 0 to |target|
      invariant escaped == Escaped(target[..i])
    {
      EscapedSnoc(target[..i], target[i]);
      assert target[..i + 1] == target[..i] + [target[i]];
      if Meta(target[i]) {
        escaped := escaped + "\\";
      }
      escaped := escaped + [target[i]];
    }
    assert target[..|target|] == target;
  }

  function Literals(target: string): seq<Piece> {
    seq(|target|, i requires 0 <= i < |target| => Literal(target[i]))
  }

  lemma {:induction false} CompileSuffix(front: string, back: string)
    ensures CompileFrom(front + back, |front|) == CompileFrom(back, 0)
  {
    CompileShift(front, back, 0);
  }

  /** Compiling looks only forward, so what stands before the index does not matter. */
  lemma {:induction false} CompileShift(front: string, back: string, index: nat)
    requires index <= |back|
    ensures CompileFrom(front + back, |front| + index) == CompileFrom(back, index)
    decreases |back| - index
  {
    if index < |back| {
      PieceShift(front, back, index);
      match PieceAt(back, index)
      case Ok((piece, next)) => CompileShift(front, back, next);
      case Err(_) =>
    }
  }

  lemma {:induction false} ClosingShift(front: string, back: string, from: nat)
    requires from <= |back|
    ensures Closing(front + back, |front| + from) == |front| + Closing(back, from)
    decreases |back| - from
  {
    if from < |back| && back[from] != ']' {
      ClosingShift(front, back, from + 1);
    }
  }

  lemma PieceShift(front: string, back: string, index: nat)
    requires index < |back|
    ensures PieceAt(front + back, |front| + index)
         == match PieceAt(back, index) case Ok((p, next)) => Ok((p, |front| + next)) case Err(e) => Err(e)
  {
    hide ClassPiece;
    if back[index] == '[' {
      ClosingShift(front, back, index + 1);
      var closing := Closing(back, index + 1);
      if closing < |back| {
        assert (front + back)[|front| + index + 1..|front| + closing] == back[index + 1..closing];
      }
    }
  }

  /** Compiling what escaping produced gives back the target, one literal per character. */
  lemma {:induction false} CompileEscaped(target: string)
    ensures CompileFrom(Escaped(target), 0) == Ok(Literals(target))
  {
    if target != "" {
      var front := if Meta(target[0]) then ['\\', target[0]] else [target[0]];
      var back := Escaped(target[1..]);
      assert Escaped(target) == front + back;
      CompileEscaped(target[1..]);
      CompileSuffix(front, back);
      assert PieceAt(front + back, 0) == Ok((Literal(target[0]), |front|));
      assert Literals(target) == [Literal(target[0])] + Literals(target[1..]);
    } else {
      assert Literals(target) == [];
    }
  }

  lemma {:induction false} LiteralsMatchOnlyThemselves(text: string, target: string)
    ensures Matches(Literals(text), target) <==> target == text
  {
    if text == "" {
      assert Literals(text) == [];
    } else {
      assert Literals(text)[1..] == Literals(text[1..]);
      if target != "" {
        LiteralsMatchOnlyThemselves(text[1..], target[1..]);
        assert target == [target[0]] + target[1..] && text == [text[0]] + text[1..];
      }
    }
  }

  /** An escaped target compiles, is exact, and matches that target and nothing else. */
  lemma EscapedTargetIsExact(target: string)
    requires target != ""
    ensures Compiled(Escaped(target)) == Ok(Glob(Literals(target), true))
    ensures forall other :: Matches(Literals(target), other) <==> other == target
  {
    CompileEscaped(target);
    assert Escaped(target) != "";
    forall other ensures Matches(Literals(target), other) <==> other == target {
      LiteralsMatchOnlyThemselves(target, other);
    }
  }

  lemma {:induction false} LiteralPiecesUnescape(pattern: string) returns (target: string)
    requires CompileFrom(pattern, 0).Ok? && AllLiteral(CompileFrom(pattern, 0).value)
    ensures pattern == Escaped(target) && CompileFrom(pattern, 0).value == Literals(target)
    decreases |pattern|
  {
    if pattern == "" {
      target := "";
      assert Literals("") == [];
    } else {
      var (piece, next) := PieceAt(pattern, 0).value;
      var pieces := CompileFrom(pattern, 0).value;
      assert pieces[0] == piece && piece.Literal?;
      var front, back := pattern[..next], pattern[next..];
      assert pattern == front + back;
      CompileSuffix(front, back);
      assert pieces == [piece] + CompileFrom(back, 0).value;
      forall p | p in CompileFrom(back, 0).value ensures p.Literal? {
        assert p in pieces;
      }
      var rest := LiteralPiecesUnescape(back);
      target := [piece.c] + rest;
      assert target[1..] == rest;
      assert front == if Meta(piece.c) then ['\\', piece.c] else [piece.c];
      assert Literals(target) == [Literal(piece.c)] + Literals(rest);
    }
  }

  /** A pattern is reported exact precisely when it is some non-empty text, escaped; its one match
      is that text. */
  lemma ExactIffEscaped(pattern: string)
    ensures (Compiled(pattern).Ok? && Compiled(pattern).value.exact)
       <==> exists target :: target != "" && pattern == Escaped(target)
  {
    if Compiled(pattern).Ok? && Compiled(pattern).value.exact {
      var target := LiteralPiecesUnescape(pattern);
      assert target != "" && pattern == Escaped(target);
    }
    forall target | target != "" && pattern == Escaped(target)
      ensures Compiled(pattern).Ok? && Compiled(pattern).value.exact
    {
      EscapedTargetIsExact(target);
    }
  }

  /** Different targets never share an escaped form. */
  lemma EscapeIsInjective(a: string, b: string)
    requires Escaped(a) == Escaped(b)
    ensures a == b
  {
    CompileEscaped(a);
    CompileEscaped(b);
    assert |a| == |Literals(a)| == |b|;
    forall i | 0 <= i < |a| ensures a[i] == b[i] {
      assert Literals(a)[i] == Literals(b)[i];
    }
  }

  // ---- what a pattern says ----

  function Concat(parts: seq<string>): string {
    if parts == [] then "" else parts[0] + Concat(parts[1..])
  }

  /** One member of a set: two characters around a hyphen, in order, or a character that no range begins with. */
  predicate RangeSpelled(part: string, range: Range, rest: string) {
    || (part == [range.low, '-', range.high] && range.low <= range.high)
    || (part == [range.low] && range.low == range.high && !(|rest| >= 2 && rest[0] == '-'))
  }

  ghost predicate RangesSplit(content: string, ranges: seq<Range>, parts: seq<string>) {
    && Concat(parts) == content && |parts| == |ranges|
    && forall i :: 0 <= i < |parts| ==> RangeSpelled(parts[i], ranges[i], Concat(parts[i + 1..]))
  }

  lemma {:induction false} RangesIff(content: string, ranges: seq<Range>)
    ensures Ranges(content) == Ok(ranges) <==> exists parts :: RangesSplit(content, ranges, parts)
  {
    if Ranges(content) == Ok(ranges) {
      var parts := SplitRanges(content);
    }
    if parts :| RangesSplit(content, ranges, parts) {
      SplitIsRanges(content, ranges, parts);
    }
  }

  lemma {:induction false} SplitRanges(content: string) returns (parts: seq<string>)
    requires Ranges(content).Ok?
    ensures RangesSplit(content, Ranges(content).value, parts)
  {
    if content == "" {
      parts := [];
    } else {
      var n := if |content| >= 3 && content[1] == '-' then 3 else 1;
      var rest := SplitRanges(content[n..]);
      parts := [content[..n]] + rest;
      assert content == content[..n] + content[n..];
      hide Ranges;
      RangesCons(content[..n], Range(content[0], content[n - 1]), content[n..], Ranges(content[n..]).value, rest);
    }
  }

  lemma {:induction false} RangesCons(part: string, range: Range, content: string, ranges: seq<Range>, parts: seq<string>)
    requires RangesSplit(content, ranges, parts) && RangeSpelled(part, range, content)
    ensures RangesSplit(part + content, [range] + ranges, [part] + parts)
  {
    hide RangeSpelled;
    var all, whole := [part] + parts, [range] + ranges;
    assert all[1..] == parts;
    forall i | 0 <= i < |all| ensures RangeSpelled(all[i], whole[i], Concat(all[i + 1..])) {
      if i > 0 {
        assert all[i + 1..] == parts[(i - 1) + 1..];
        assert RangeSpelled(parts[i - 1], ranges[i - 1], Concat(parts[(i - 1) + 1..]));
      }
    }
  }

  lemma {:induction false} SplitIsRanges(content: string, ranges: seq<Range>, parts: seq<string>)
    requires RangesSplit(content, ranges, parts)
    ensures Ranges(content) == Ok(ranges)
    decreases |parts|
  {
    if parts != [] {
      var part, rest, more := parts[0], parts[1..], Concat(parts[1..]);
      assert parts[0 + 1..] == rest && RangeSpelled(part, ranges[0], more);
      assert content == part + more && content[|part|..] == more;
      forall i | 0 <= i < |rest| ensures rest[i + 1..] == parts[(i + 1) + 1..] && rest[i] == parts[i + 1] {
      }
      SplitIsRanges(more, ranges[1..], rest);
      assert ranges == [ranges[0]] + ranges[1..];
    }
  }

  /** The text between two brackets that stands for this set. */
  ghost predicate ClassSpelled(content: string, negated: bool, ranges: seq<Range>) {
    && content != "" && (forall c :: c in content ==> c !in "\\[]")
    && (negated <==> content[0] in "!^")
    && var members := if negated then content[1..] else content;
       members != "" && exists parts :: RangesSplit(members, ranges, parts)
  }

  /** The text that stands for a piece. */
  ghost predicate Spells(token: string, piece: Piece) {
    match piece
    case Literal(c) => token == if c in "\\*?[]" then ['\\', c] else [c]
    case AnyRun => token == "*"
    case AnyOne => token == "?"
    case Class(negated, ranges) =>
      |token| >= 2 && token[0] == '[' && token[|token| - 1] == ']' && ClassSpelled(token[1..|token| - 1], negated, ranges)
  }

  lemma {:induction false} ClassIff(content: string, negated: bool, ranges: seq<Range>)
    requires ']' !in content
    ensures ClassPiece(content) == Ok(Class(negated, ranges)) <==> ClassSpelled(content, negated, ranges)
  {
    if content != "" {
      RangesIff(content, ranges);
      RangesIff(content[1..], ranges);
    }
    hide Ranges, RangesSplit;
  }

  lemma Inner(text: string, from: nat, to: nat)
    requires from + 2 <= to <= |text|
    ensures var token := text[from..to]; token[1..|token| - 1] == text[from + 1..to - 1]
  {
    var token := text[from..to];
    var inner, cut := token[1..|token| - 1], text[from + 1..to - 1];
    assert forall i :: 0 <= i < |inner| ==> inner[i] == cut[i];
  }

  lemma {:induction false} PieceIsSpelled(pattern: string, index: nat)
    requires index < |pattern| && PieceAt(pattern, index).Ok?
    ensures var (piece, next) := PieceAt(pattern, index).value; Spells(pattern[index..next], piece)
  {
    hide ClassPiece, ClassSpelled;
    if pattern[index] == '[' {
      var closing := Closing(pattern, index + 1);
      var content := pattern[index + 1..closing];
      Inner(pattern, index, closing + 1);
      IsClass(content);
      var piece := ClassPiece(content).value;
      ClassIff(content, piece.negated, piece.ranges);
    }
  }

  lemma IsClass(content: string)
    ensures ClassPiece(content).Ok? ==> ClassPiece(content).value.Class?
  {
  }

  lemma {:induction false} ClosingIs(pattern: string, from: nat, at: nat)
    requires from <= at < |pattern| && pattern[at] == ']' && forall j :: from <= j < at ==> pattern[j] != ']'
    ensures Closing(pattern, from) == at
  {
  }

  lemma {:induction false} SpelledClassIsPiece(pattern: string, index: nat, next: nat, negated: bool, ranges: seq<Range>)
    requires index + 2 <= next <= |pattern| && pattern[index] == '[' && pattern[next - 1] == ']'
    requires ClassSpelled(pattern[index + 1..next - 1], negated, ranges)
    ensures PieceAt(pattern, index) == Ok((Class(negated, ranges), next))
  {
    hide ClassPiece, ClassSpelled, Closing;
    var content := pattern[index + 1..next - 1];
    NoBracket(content, negated, ranges);
    forall j | index + 1 <= j < next - 1 ensures pattern[j] != ']' {
      assert pattern[j] == content[j - index - 1];
    }
    ClosingIs(pattern, index + 1, next - 1);
    ClassIff(content, negated, ranges);
  }

  lemma NoBracket(content: string, negated: bool, ranges: seq<Range>)
    requires ClassSpelled(content, negated, ranges)
    ensures ']' !in content
  {
    assert ']' in "\\[]" by { assert "\\[]"[2] == ']'; }
  }

  lemma {:induction false} SpelledIsPiece(pattern: string, index: nat, next: nat, piece: Piece)
    requires index < next <= |pattern| && Spells(pattern[index..next], piece)
    ensures PieceAt(pattern, index) == Ok((piece, next))
  {
    hide ClassPiece, ClassSpelled;
    var token := pattern[index..next];
    if piece.Class? {
      Inner(pattern, index, next);
      assert pattern[index] == token[0] && pattern[next - 1] == token[|token| - 1];
      SpelledClassIsPiece(pattern, index, next, piece.negated, piece.ranges);
    } else {
      assert pattern[index] == token[0];
      if |token| == 2 { assert pattern[index + 1] == token[1]; }
    }
  }

  ghost predicate Reads(pattern: string, pieces: seq<Piece>, tokens: seq<string>) {
    && Concat(tokens) == pattern && |tokens| == |pieces|
    && forall i :: 0 <= i < |tokens| ==> Spells(tokens[i], pieces[i])
  }

  lemma {:induction false} PiecesAreRead(pattern: string, index: nat) returns (tokens: seq<string>)
    requires index <= |pattern| && CompileFrom(pattern, index).Ok?
    ensures Reads(pattern[index..], CompileFrom(pattern, index).value, tokens)
    decreases |pattern| - index
  {
    hide PieceAt, Spells;
    if index == |pattern| {
      tokens := [];
    } else {
      PieceIsSpelled(pattern, index);
      var (piece, next) := PieceAt(pattern, index).value;
      var rest := PiecesAreRead(pattern, next);
      tokens := [pattern[index..next]] + rest;
      assert tokens[1..] == rest && pattern[index..] == pattern[index..next] + pattern[next..];
    }
  }

  lemma {:induction false} ReadIsCompiled(pattern: string, index: nat, pieces: seq<Piece>, tokens: seq<string>)
    requires index <= |pattern| && Reads(pattern[index..], pieces, tokens)
    ensures CompileFrom(pattern, index) == Ok(pieces)
    decreases |tokens|
  {
    hide PieceAt;
    if tokens != [] {
      var token, rest := tokens[0], tokens[1..];
      assert Spells(token, pieces[0]);
      var next := index + |token|;
      assert pattern[index..] == token + Concat(rest);
      assert pattern[index..][|token|..] == Concat(rest) && pattern[index..][..|token|] == token;
      assert pattern[next..] == Concat(rest) && pattern[index..next] == token;
      NotEmpty(token, pieces[0]);
      hide Spells;
      SpelledIsPiece(pattern, index, next, pieces[0]);
      forall i | 0 <= i < |rest| ensures Spells(rest[i], pieces[1..][i]) { assert Spells(tokens[i + 1], pieces[i + 1]); }
      ReadIsCompiled(pattern, next, pieces[1..], rest);
      assert pieces == [pieces[0]] + pieces[1..];
    }
  }

  lemma NotEmpty(token: string, piece: Piece)
    requires Spells(token, piece)
    ensures token != ""
  {
    hide ClassSpelled;
  }

  /** A pattern compiles to these pieces exactly if it can be cut into texts that stand for them one by one, and is exact
      exactly if all are literals. */
  lemma {:induction false} CompilesIff(pattern: string, glob: Glob)
    ensures Compiled(pattern) == Ok(glob) <==>
      && pattern != "" && (glob.exact <==> forall p :: p in glob.pieces ==> p.Literal?)
      && exists tokens :: Reads(pattern, glob.pieces, tokens)
  {
    hide CompileFrom, Reads;
    assert pattern[0..] == pattern;
    if CompileFrom(pattern, 0).Ok? {
      var tokens := PiecesAreRead(pattern, 0);
    }
    if tokens :| Reads(pattern, glob.pieces, tokens) {
      ReadIsCompiled(pattern, 0, glob.pieces, tokens);
    }
  }

  // ---- what a pattern matches ----

  /** The part of a target that a piece can stand for. */
  predicate Covers(piece: Piece, part: string) {
    match piece
    case Literal(c) => part == [c]
    case AnyRun => '\n' !in part
    case AnyOne => |part| == 1 && part[0] != '\n'
    case Class(negated, ranges) => |part| == 1 && (negated <==> forall r :: r in ranges ==> !(r.low <= part[0] <= r.high))
  }

  ghost predicate CoversAll(pieces: seq<Piece>, target: string, parts: seq<string>) {
    && Concat(parts) == target && |parts| == |pieces|
    && forall i :: 0 <= i < |parts| ==> Covers(pieces[i], parts[i])
  }

  lemma {:induction false} CoversRest(pieces: seq<Piece>, part: string, rest: seq<string>, target: string)
    requires pieces != [] && Covers(pieces[0], part) && CoversAll(pieces[1..], target, rest)
    ensures CoversAll(pieces, part + target, [part] + rest)
  {
    hide Covers;
    assert ([part] + rest)[1..] == rest;
  }

  lemma {:induction false} MatchIsCovered(pieces: seq<Piece>, target: string) returns (parts: seq<string>)
    requires Matches(pieces, target)
    ensures CoversAll(pieces, target, parts)
    decreases |pieces|, |target|
  {
    if pieces == [] {
      parts := [];
    } else if !pieces[0].AnyRun? {
      var rest := MatchIsCovered(pieces[1..], target[1..]);
      parts := [[target[0]]] + rest;
      assert target == [target[0]] + target[1..];
      CoversRest(pieces, [target[0]], rest, target[1..]);
    } else if Matches(pieces[1..], target) {
      var rest := MatchIsCovered(pieces[1..], target);
      parts := [""] + rest;
      assert "" + target == target;
      CoversRest(pieces, "", rest, target);
    } else {
      var rest := MatchIsCovered(pieces, target[1..]);
      var part, more := [target[0]] + rest[0], rest[1..];
      parts := [part] + more;
      assert rest[0] + Concat(more) == target[1..];
      assert target == part + Concat(more);
      assert CoversAll(pieces[1..], Concat(more), more);
      CoversRest(pieces, part, more, Concat(more));
    }
  }

  lemma {:induction false} CoveredIsMatch(pieces: seq<Piece>, target: string, parts: seq<string>)
    requires CoversAll(pieces, target, parts)
    ensures Matches(pieces, target)
    decreases |pieces|, |target|
  {
    if pieces != [] {
      var part, rest := parts[0], Concat(parts[1..]);
      assert Covers(pieces[0], part) && target == part + rest;
      assert CoversAll(pieces[1..], rest, parts[1..]);
      if pieces[0].AnyRun? && part != "" {
        assert part == [part[0]] + part[1..] && target[1..] == part[1..] + rest;
        CoversRest(pieces, part[1..], parts[1..], rest);
        CoveredIsMatch(pieces, target[1..], [part[1..]] + parts[1..]);
      } else {
        assert target[|part|..] == rest;
        CoveredIsMatch(pieces[1..], rest, parts[1..]);
      }
    }
  }

  /** A target matches exactly if it can be cut into parts that the pieces stand for one by one. */
  lemma {:induction false} MatchesIff(pieces: seq<Piece>, target: string)
    ensures Matches(pieces, target) <==> exists parts :: CoversAll(pieces, target, parts)
  {
    if Matches(pieces, target) {
      var parts := MatchIsCovered(pieces, target);
    }
    if parts :| CoversAll(pieces, target, parts) {
      CoveredIsMatch(pieces, target, parts);
    }
  }
}
