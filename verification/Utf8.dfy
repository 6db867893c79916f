/** UTF-8 text as Python's codec sees it: encoding follows section 3 of RFC 3629, and the
    decoder is the one behind `bytes.decode("utf-8", errors="ignore")`, which drops every byte
    that does not begin a well-formed sequence. */
module Utf8 {

  newtype Byte = b: int | 0 <= b < 256

  datatype Decoded = Rejected | Accepted(value: char, width: nat)

  function EncodeChar(c: char): (bytes: seq<Byte>)
    ensures 1 <= |bytes| <= 4
  {
    var n := c as int;
    if n < 0x80 then [n as Byte]
    else if n < 0x800 then [(0xC0 + n / 64) as Byte, (0x80 + n % 64) as Byte]
    else if n < 0x10000 then
      [(0xE0 + n / 4096) as Byte, (0x80 + n / 64 % 64) as Byte, (0x80 + n % 64) as Byte]
    else
      [(0xF0 + n / 262144) as Byte, (0x80 + n / 4096 % 64) as Byte, (0x80 + n / 64 % 64) as Byte,
       (0x80 + n % 64) as Byte]
  }

  function Encode(s: string): seq<Byte> {
    if s == "" then [] else EncodeChar(s[0]) + Encode(s[1..])
  }

  function ByteCount(s: string): nat {
    |Encode(s)|
  }

  /** Bytes divided by four, rounded up: the token estimate used throughout the context code. */
  function ApproximateTokens(s: string): nat {
    (ByteCount(s) + 3) / 4
  }

  predicate Continuation(b: Byte) {
    0x80 <= b < 0xC0
  }

  /** The bits of `b` below the marker bits `base`. */
  function Bits(b: Byte, base: nat): int {
    b as int - base
  }

  /** Overlong forms, surrogates and values past U+10FFFF are not characters. */
  function Scalar(code: int, smallest: nat, width: nat): Decoded {
    if smallest <= code < 0xD800 || (0xE000 <= code < 0x110000 && smallest <= code) then
      Accepted(code as char, width)
    else Rejected
  }

  /** The well-formed sequence at the front of `bytes`, if there is one. */
  function DecodeFront(bytes: seq<Byte>): (d: Decoded)
    requires bytes != []
    ensures d.Accepted? ==> 1 <= d.width <= |bytes|
  {
    var b := bytes[0];
    if b < 0x80 then Accepted(b as char, 1)
    else if 0xC0 <= b < 0xE0 && |bytes| >= 2 && Continuation(bytes[1]) then
      Scalar(Bits(b, 0xC0) * 64 + Bits(bytes[1], 0x80), 0x80, 2)
    else if 0xE0 <= b < 0xF0 && |bytes| >= 3 && Continuation(bytes[1]) && Continuation(bytes[2]) then
      Scalar(Bits(b, 0xE0) * 4096 + Bits(bytes[1], 0x80) * 64 + Bits(bytes[2], 0x80), 0x800, 3)
    else if 0xF0 <= b < 0xF8 && |bytes| >= 4
            && Continuation(bytes[1]) && Continuation(bytes[2]) && Continuation(bytes[3]) then
      Scalar(Bits(b, 0xF0) * 262144 + Bits(bytes[1], 0x80) * 4096 + Bits(bytes[2], 0x80) * 64 + Bits(bytes[3], 0x80),
             0x10000, 4)
    else Rejected
  }

  function DecodeIgnoring(bytes: seq<Byte>): string
    decreases |bytes|
  {
    if bytes == [] then ""
    else
      match DecodeFront(bytes)
      case Accepted(c, width) => [c] + DecodeIgnoring(bytes[width..])
      case Rejected => DecodeIgnoring(bytes[1..])
  }

  /** `value.encode("utf-8")[:limit].decode("utf-8", errors="ignore")` */
  function Prefix(value: string, limit: nat): string {
    var bytes := Encode(value);
    DecodeIgnoring(if limit < |bytes| then bytes[..limit] else bytes)
  }

  /** `value.encode("utf-8")[-limit:].decode("utf-8", errors="ignore")`, and "" for no bytes. */
  function Suffix(value: string, limit: nat): string {
    if limit == 0 then "" else DecodeIgnoring(LastBytes(Encode(value), limit))
  }

  function LastBytes(bytes: seq<Byte>, limit: nat): seq<Byte> {
    if limit < |bytes| then bytes[|bytes| - limit..] else bytes
  }

  ghost predicate LongestPrefixWithin(p: string, value: string, limit: nat) {
    && p <= value
    && ByteCount(p) <= limit
    && (|p| < |value| ==> ByteCount(value[..|p| + 1]) > limit)
  }

  ghost predicate LongestSuffixWithin(p: string, value: string, limit: nat) {
    && |p| <= |value| && p == value[|value| - |p|..]
    && ByteCount(p) <= limit
    && (|p| < |value| ==> ByteCount(value[|value| - |p| - 1..]) > limit)
  }

  lemma EncodeLead(c: char)
    ensures var e := EncodeChar(c);
            (c as int < 0x80 ==> |e| == 1)
            && (c as int >= 0x80 ==> |e| >= 2 && e[0] >= 0xC0 && forall i :: 1 <= i < |e| ==> Continuation(e[i]))
  {
  }

  lemma DecodeTwoBytes(c: char, rest: seq<Byte>)
    requires 0x80 <= c as int < 0x800
    ensures DecodeFront(EncodeChar(c) + rest) == Accepted(c, |EncodeChar(c)|)
  {
    var bytes := EncodeChar(c) + rest;
    assert Bits(bytes[0], 0xC0) * 64 + Bits(bytes[1], 0x80) == c as int;
  }

  lemma DecodeThreeBytes(c: char, rest: seq<Byte>)
    requires 0x800 <= c as int < 0x10000
    ensures DecodeFront(EncodeChar(c) + rest) == Accepted(c, |EncodeChar(c)|)
  {
    var n, bytes := c as int, EncodeChar(c) + rest;
    assert n / 64 == n / 4096 * 64 + n / 64 % 64;
    assert Bits(bytes[0], 0xE0) * 4096 + Bits(bytes[1], 0x80) * 64 + Bits(bytes[2], 0x80) == n;
  }

  lemma DecodeFourBytes(c: char, rest: seq<Byte>)
    requires 0x10000 <= c as int
    ensures DecodeFront(EncodeChar(c) + rest) == Accepted(c, |EncodeChar(c)|)
  {
    var n, bytes := c as int, EncodeChar(c) + rest;
    assert n / 64 == n / 4096 * 64 + n / 64 % 64;
    assert n / 4096 == n / 262144 * 64 + n / 4096 % 64;
    assert Bits(bytes[0], 0xF0) * 262144 + Bits(bytes[1], 0x80) * 4096
           + Bits(bytes[2], 0x80) * 64 + Bits(bytes[3], 0x80) == n;
  }

  lemma DecodeEncodedChar(c: char, rest: seq<Byte>)
    ensures DecodeFront(EncodeChar(c) + rest) == Accepted(c, |EncodeChar(c)|)
  {
    var n := c as int;
    if n < 0x80 {
    } else if n < 0x800 {
      DecodeTwoBytes(c, rest);
    } else if n < 0x10000 {
      DecodeThreeBytes(c, rest);
    } else {
      DecodeFourBytes(c, rest);
    }
  }

  /** A continuation byte never starts a sequence, so a run of them is dropped. */
  predicate AllContinue(run: seq<Byte>) {
    forall i :: 0 <= i < |run| ==> Continuation(run[i])
  }

  lemma {:induction false} DropContinuations(run: seq<Byte>, rest: seq<Byte>)
    requires AllContinue(run)
    ensures DecodeIgnoring(run + rest) == DecodeIgnoring(rest)
  {
    if run == [] {
      assert run + rest == rest;
    } else {
      assert (run + rest)[1..] == run[1..] + rest;
      assert DecodeFront(run + rest) == Rejected;
      DropContinuations(run[1..], rest);
    }
  }

  /** A character cut short at the end of the data contributes nothing. */
  lemma DropTruncated(c: char, k: nat)
    requires k < |EncodeChar(c)|
    ensures DecodeIgnoring(EncodeChar(c)[..k]) == ""
  {
    var e := EncodeChar(c);
    EncodeLead(c);
    if k > 0 {
      var cut := e[..k];
      assert DecodeFront(cut) == Rejected;
      assert cut[1..] + [] == cut[1..];
      DropContinuations(cut[1..], []);
    }
  }

  lemma {:induction false} DecodeEncoded(s: string)
    ensures DecodeIgnoring(Encode(s)) == s
  {
    if s != "" {
      DecodeEncodedChar(s[0], Encode(s[1..]));
      assert Encode(s)[|EncodeChar(s[0])|..] == Encode(s[1..]);
      DecodeEncoded(s[1..]);
    }
  }

  lemma {:induction false} ByteCountConcat(a: string, b: string)
    ensures Encode(a + b) == Encode(a) + Encode(b)
    ensures ByteCount(a + b) == ByteCount(a) + ByteCount(b)
  {
    if a == "" {
      assert a + b == b;
    } else {
      assert (a + b)[1..] == a[1..] + b;
      ByteCountConcat(a[1..], b);
      assert Encode(a + b) == EncodeChar(a[0]) + (Encode(a[1..]) + Encode(b));
    }
  }

  lemma {:induction false} PrefixIsLongest(value: string, limit: nat)
    ensures LongestPrefixWithin(Prefix(value, limit), value, limit)
  {
    var bytes := Encode(value);
    if |bytes| <= limit {
      DecodeEncoded(value);
    } else {
      var first := EncodeChar(value[0]);
      var rest := Encode(value[1..]);
      if limit < |first| {
        assert bytes[..limit] == first[..limit];
        DropTruncated(value[0], limit);
        assert value[..1] == [value[0]];
        assert Encode(value[..1]) == first;
      } else {
        var left := limit - |first|;
        assert bytes[..limit] == first + rest[..left];
        DecodeEncodedChar(value[0], rest[..left]);
        assert bytes[..limit][|first|..] == rest[..left];
        PrefixIsLongest(value[1..], left);
        var p := Prefix(value[1..], left);
        assert Prefix(value, limit) == [value[0]] + p;
        assert ([value[0]] + p)[1..] == p;
        if |p| < |value[1..]| {
          assert value[..|p| + 2][1..] == value[1..][..|p| + 1];
        }
      }
    }
  }

  /** A suffix that fits in `value[1..]` but leaves some of it out stays longest in `value`. */
  lemma LongestSuffixExtends(p: string, value: string, limit: nat)
    requires value != "" && LongestSuffixWithin(p, value[1..], limit)
    requires |p| < |value[1..]| || ByteCount(value) > limit
    ensures LongestSuffixWithin(p, value, limit)
  {
    var tail := value[1..];
    assert tail[|tail| - |p|..] == value[|value| - |p|..];
    if |p| < |tail| {
      assert tail[|tail| - |p| - 1..] == value[|value| - |p| - 1..];
    } else {
      assert value[|value| - |p| - 1..] == value;
    }
  }

  /** All bytes but the first continue a character. */
  predicate OneCharacter(front: seq<Byte>) {
    forall i :: 1 <= i < |front| ==> Continuation(front[i])
  }

  lemma LaterContinuations(front: seq<Byte>, dropped: nat)
    requires 1 <= dropped <= |front| && OneCharacter(front)
    ensures AllContinue(front[dropped..])
  {
    hide Continuation;
    forall i | 0 <= i < |front[dropped..]| ensures Continuation(front[dropped..][i]) {
      assert front[dropped..][i] == front[dropped + i];
    }
  }

  lemma DropInFront(front: seq<Byte>, rest: seq<Byte>, dropped: nat)
    requires 1 <= dropped <= |front| && OneCharacter(front)
    ensures DecodeIgnoring(front[dropped..] + rest) == DecodeIgnoring(rest)
  {
    hide *;
    LaterContinuations(front, dropped);
    DropContinuations(front[dropped..], rest);
  }

  lemma LastBytesFrom(front: seq<Byte>, rest: seq<Byte>, limit: nat)
    requires |rest| <= limit <= |front| + |rest|
    ensures LastBytes(front + rest, limit) == front[|front| + |rest| - limit..] + rest
  {
  }

  lemma CutInFront(front: seq<Byte>, rest: seq<Byte>, limit: nat)
    requires |rest| <= limit < |front| + |rest| && OneCharacter(front)
    ensures DecodeIgnoring(LastBytes(front + rest, limit)) == DecodeIgnoring(rest)
  {
    hide *;
    LastBytesFrom(front, rest, limit);
    DropInFront(front, rest, |front| + |rest| - limit);
  }

  lemma CutInRest(front: seq<Byte>, rest: seq<Byte>, limit: nat)
    requires limit < |rest|
    ensures LastBytes(front + rest, limit) == LastBytes(rest, limit)
  {
  }

  /** Cutting inside, or after, the first character leaves the same suffix as cutting the rest. */
  lemma SuffixOfRest(value: string, limit: nat)
    requires 0 < limit < ByteCount(value)
    ensures Suffix(value, limit) == Suffix(value[1..], limit)
  {
    var front := EncodeChar(value[0]);
    var rest := Encode(value[1..]);
    assert Encode(value) == front + rest;
    EncodeLead(value[0]);
    hide EncodeChar, DecodeIgnoring, Encode;
    if limit < |rest| {
      CutInRest(front, rest, limit);
    } else {
      CutInFront(front, rest, limit);
    }
  }

  lemma NothingFitsInNoBytes(value: string)
    requires value != ""
    ensures LongestSuffixWithin("", value, 0)
  {
    var last := value[|value| - 1..];
    assert Encode(last) == EncodeChar(last[0]) + Encode(last[1..]);
  }

  lemma {:induction false} SuffixIsLongest(value: string, limit: nat)
    ensures LongestSuffixWithin(Suffix(value, limit), value, limit)
  {
    if ByteCount(value) <= limit {
      DecodeEncoded(value);
    } else if limit == 0 {
      NothingFitsInNoBytes(value);
    } else {
      SuffixIsLongest(value[1..], limit);
      SuffixOfRest(value, limit);
      LongestSuffixExtends(Suffix(value[1..], limit), value, limit);
    }
  }

  lemma {:induction false} AsciiBytes(s: string)
    requires forall i :: 0 <= i < |s| ==> s[i] as int < 0x80
    ensures ByteCount(s) == |s|
  {
    if s != "" { AsciiBytes(s[1..]); }
  }

  lemma {:induction false} WideBytes(s: string)
    requires forall i :: 0 <= i < |s| ==> 0x800 <= s[i] as int < 0x10000
    ensures ByteCount(s) == 3 * |s|
  {
    if s != "" { WideBytes(s[1..]); }
  }
}
