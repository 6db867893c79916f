/** The one-line form of an argument list that permission rules and dialogs show, and the parser
    that shows no two argument lists share it. */
module CommandLine {
  import opened Wrappers

  // ---- printing ----

  /** `[A-Za-z0-9_./:@%+=,-]` */
  predicate SafeChar(c: char) {
    || 'a' <= c <= 'z' || 'A' <= c <= 'Z' || '0' <= c <= '9'
    || c == '_' || c == '.' || c == '/' || c == ':' || c == '@'
    || c == '%' || c == '+' || c == '=' || c == ',' || c == '-'
  }

  predicate Bare(argument: string) {
    argument != "" && forall i :: 0 <= i < |argument| ==> SafeChar(argument[i])
  }

  function HexDigit(n: nat): (c: char)
    requires n < 16
  {
    if n < 10 then ('0' as int + n) as char else ('a' as int + (n - 10)) as char
  }

  /** One character inside a JSON string, section 7 of RFC 8259: quotation mark, reverse solidus
      and U+0000 to U+001F are escaped, everything else stands for itself. */
  function QuoteChar(c: char): (s: string)
    ensures s != ""
  {
    var n := c as int;
    if c == '"' then "\\\""
    else if c == '\\' then "\\\\"
    else if c == '\n' then "\\n"
    else if c == '\r' then "\\r"
    else if c == '\t' then "\\t"
    else if n == 0x0c then "\\f"
    else if n == 0x08 then "\\b"
    else if n < 0x20 then "\\u00" + [HexDigit(n / 16), HexDigit(n % 16)]
    else [c]
  }

  function QuoteBody(s: string): string {
    if s == "" then "" else QuoteChar(s[0]) + QuoteBody(s[1..])
  }

  function SerializeArgument(argument: string): string {
    if Bare(argument) then argument else "\"" + QuoteBody(argument) + "\""
  }

  function SerializeCommand(argv: seq<string>): string {
    if argv == [] then ""
    else if |argv| == 1 then SerializeArgument(argv[0])
    else SerializeArgument(argv[0]) + " " + SerializeCommand(argv[1..])
  }

  const UPPER := "ABCDEFGHIJKLMNOPQRSTUVWXYZ"
  const LOWER := "abcdefghijklmnopqrstuvwxyz"
  const DIGITS := "0123456789"
  const MARKS := "_./:@%+=,-"

  lemma {:induction false} QuotingNeverShortens(s: string)
    ensures |s| <= |QuoteBody(s)|
  {
    if s != "" {
      QuotingNeverShortens(s[1..]);
      hide QuoteChar;
    }
  }

  /** An argument is printed as it is exactly if it is not empty and has none but these characters; any other is put
      between quotation marks. */
  lemma PrintedBareIff(argument: string)
    ensures var printed := SerializeArgument(argument);
            && (printed == argument <==> argument != "" && forall c :: c in argument ==> c in UPPER || c in LOWER || c in DIGITS || c in MARKS)
            && (printed != argument ==> 2 <= |printed| && printed[0] == '"' && printed[|printed| - 1] == '"')
  {
    forall c ensures SafeChar(c) <==> c in UPPER || c in LOWER || c in DIGITS || c in MARKS { SafeCharsAre(c); }
    QuotingNeverShortens(argument);
    hide SafeChar, QuoteBody;
    assert Bare(argument) <==> argument != "" && forall c :: c in argument ==> SafeChar(c);
  }

  lemma LettersAre(c: char)
    ensures c in UPPER <==> 'A' <= c <= 'Z'
    ensures c in LOWER <==> 'a' <= c <= 'z'
  {
    assert forall i :: 0 <= i < 26 ==> UPPER[i] == (65 + i) as char && LOWER[i] == (97 + i) as char;
    if 'A' <= c <= 'Z' { assert UPPER[c as int - 65] == c; }
    if 'a' <= c <= 'z' { assert LOWER[c as int - 97] == c; }
  }

  lemma DigitsAre(c: char)
    ensures c in DIGITS <==> '0' <= c <= '9'
  {
    assert forall i :: 0 <= i < 10 ==> DIGITS[i] == (48 + i) as char;
    if '0' <= c <= '9' { assert DIGITS[c as int - 48] == c; }
  }

  lemma SafeCharsAre(c: char)
    ensures SafeChar(c) <==> c in UPPER || c in LOWER || c in DIGITS || c in MARKS
  {
    LettersAre(c);
    DigitsAre(c);
    assert c in MARKS <==> c in ['_', '.', '/', ':', '@', '%', '+', '=', ',', '-'];
  }

  // ---- reading back ----

  function HexValue(c: char): Option<nat> {
    if '0' <= c <= '9' then Some(c as nat - '0' as nat)
    else if 'a' <= c <= 'f' then Some(c as nat - 'a' as nat + 10)
    else None
  }

  /** The character an escape stands for, and how much text it took. */
  function ReadEscape(s: string): (r: Option<(char, nat)>)
    ensures r.Some? ==> 2 <= r.value.1 <= |s|
  {
    if |s| < 2 then None
    else if s[1] == '"' then Some(('"', 2))
    else if s[1] == '\\' then Some(('\\', 2))
    else if s[1] == 'n' then Some(('\n', 2))
    else if s[1] == 'r' then Some(('\r', 2))
    else if s[1] == 't' then Some(('\t', 2))
    else if s[1] == 'f' then Some((0x0c as char, 2))
    else if s[1] == 'b' then Some((0x08 as char, 2))
    else if s[1] == 'u' && |s| >= 6 && s[2] == '0' && s[3] == '0' then
      match (HexValue(s[4]), HexValue(s[5]))
      case (Some(high), Some(low)) => Some(((high * 16 + low) as char, 6))
      case _ => None
    else None
  }

  /** The text up to the closing quotation mark, and what follows that mark. */
  function ReadQuoted(s: string): (r: Option<(string, string)>)
    ensures r.Some? ==> |r.value.1| < |s|
    decreases |s|
  {
    if s == "" then None
    else if s[0] == '"' then Some(("", s[1..]))
    else if s[0] == '\\' then
      match ReadEscape(s)
      case None => None
      case Some((c, width)) =>
        match ReadQuoted(s[width..])
        case None => None
        case Some((text, rest)) => Some(([c] + text, rest))
    else
      match ReadQuoted(s[1..])
      case None => None
      case Some((text, rest)) => Some(([s[0]] + text, rest))
  }

  function ReadBare(s: string): (r: (string, string))
    ensures r.0 + r.1 == s
  {
    if s == "" || !SafeChar(s[0]) then ("", s)
    else
      var (text, rest) := ReadBare(s[1..]);
      ([s[0]] + text, rest)
  }

  function ReadArgument(s: string): (r: Option<(string, string)>)
    ensures r.Some? ==> |r.value.1| < |s|
  {
    if s != "" && s[0] == '"' then ReadQuoted(s[1..])
    else
      var (text, rest) := ReadBare(s);
      if text == "" then None else Some((text, rest))
  }

  function Parse(s: string): Option<seq<string>> {
    if s == "" then Some([]) else ParseArguments(s)
  }

  function ParseArguments(s: string): Option<seq<string>>
    decreases |s|
  {
    match ReadArgument(s)
    case None => None
    case Some((argument, rest)) =>
      if rest == "" then Some([argument])
      else if rest[0] != ' ' then None
      else
        match ParseArguments(rest[1..])
        case None => None
        case Some(more) => Some([argument] + more)
  }

  // ---- the round trip ----

  lemma ReadQuotedChar(c: char, rest: string)
    ensures var s := QuoteChar(c) + rest;
            match ReadQuoted(rest)
            case Some((text, after)) => ReadQuoted(s) == Some(([c] + text, after))
            case None => true
  {
    var n := c as int;
    var q := QuoteChar(c);
    var s := q + rest;
    assert s[|q|..] == rest;
    if |q| == 6 {
      ReadHexEscape(n, rest);
    } else if |q| == 2 {
      assert s[0] == '\\' && s[1] == q[1];
      assert ReadEscape(s) == Some((c, 2));
    } else {
      assert s[0] == c && s[1..] == rest;
    }
  }

  lemma ReadHexEscape(n: nat, rest: string)
    requires n < 0x20
    ensures ReadEscape("\\u00" + [HexDigit(n / 16), HexDigit(n % 16)] + rest) == Some((n as char, 6))
  {
    var s := "\\u00" + [HexDigit(n / 16), HexDigit(n % 16)] + rest;
    assert s[1] == 'u' && s[2] == '0' && s[3] == '0' && s[4] == HexDigit(n / 16) && s[5] == HexDigit(n % 16);
    assert HexValue(HexDigit(n / 16)) == Some(n / 16) && HexValue(HexDigit(n % 16)) == Some(n % 16);
  }

  lemma {:induction false} ReadQuotedBody(text: string, rest: string)
    ensures ReadQuoted(QuoteBody(text) + "\"" + rest) == Some((text, rest))
  {
    if text == "" {
      assert ("" + "\"" + rest)[1..] == rest;
    } else {
      ReadQuotedBody(text[1..], rest);
      var more := QuoteBody(text[1..]) + "\"" + rest;
      assert QuoteBody(text) == QuoteChar(text[0]) + QuoteBody(text[1..]);
      hide *;
      assert QuoteBody(text) + "\"" + rest == QuoteChar(text[0]) + more;
      ReadQuotedChar(text[0], more);
      assert [text[0]] + text[1..] == text;
    }
  }

  lemma {:induction false} ReadBareText(text: string, rest: string)
    requires forall i :: 0 <= i < |text| ==> SafeChar(text[i])
    requires rest == "" || !SafeChar(rest[0])
    ensures ReadBare(text + rest) == (text, rest)
  {
    if text == "" {
      assert text + rest == rest;
    } else {
      assert (text + rest)[1..] == text[1..] + rest;
      ReadBareText(text[1..], rest);
      assert [text[0]] + text[1..] == text;
    }
  }

  /** A printed argument followed by nothing, or by a separator, reads back as itself. */
  lemma ReadSerialized(argument: string, rest: string)
    requires rest == "" || rest[0] == ' '
    ensures ReadArgument(SerializeArgument(argument) + rest) == Some((argument, rest))
  {
    hide ReadBare, ReadQuoted, QuoteBody;
    if Bare(argument) {
      ReadBareText(argument, rest);
      assert (argument + rest)[0] == argument[0] && SafeChar(argument[0]);
    } else {
      var s := SerializeArgument(argument) + rest;
      assert s[0] == '"' && s[1..] == QuoteBody(argument) + "\"" + rest;
      ReadQuotedBody(argument, rest);
    }
  }

  lemma {:induction false} ParseSerializedArguments(argv: seq<string>)
    requires argv != []
    ensures ParseArguments(SerializeCommand(argv)) == Some(argv)
  {
    hide SerializeArgument, ReadArgument;
    var first := SerializeArgument(argv[0]);
    if |argv| == 1 {
      ReadSerialized(argv[0], "");
      assert first + "" == first && argv == [argv[0]];
    } else {
      var rest := " " + SerializeCommand(argv[1..]);
      ReadSerialized(argv[0], rest);
      assert SerializeCommand(argv) == first + rest;
      assert rest[1..] == SerializeCommand(argv[1..]);
      ParseSerializedArguments(argv[1..]);
      assert [argv[0]] + argv[1..] == argv;
    }
  }

  lemma ArgumentIsNotEmpty(argument: string)
    ensures SerializeArgument(argument) != ""
  {
  }

  /** Printing loses nothing: every argument list, with empty, quoted and control characters
      included, reads back as itself. */
  lemma ParseSerialized(argv: seq<string>)
    ensures Parse(SerializeCommand(argv)) == Some(argv)
  {
    if argv != [] {
      ArgumentIsNotEmpty(argv[0]);
      ParseSerializedArguments(argv);
    }
  }

  /** Two different commands never share a permission target. */
  lemma CommandsDoNotCollide(a: seq<string>, b: seq<string>)
    requires SerializeCommand(a) == SerializeCommand(b)
    ensures a == b
  {
    ParseSerialized(a);
    ParseSerialized(b);
  }
}
