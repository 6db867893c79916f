/** Splitting streamed model text into what the user sees and one trailing tool-call block. */
module ToolMarkup {
  import opened Wrappers

  const TOOL_CALL_PREFIX := "<｜｜DSML｜｜tool_calls>"

  predicate OccursAt(marker: string, text: string, i: nat) {
    i + |marker| <= |text| && text[i..i + |marker|] == marker
  }

  /** `str.find`: the first occurrence, if any. */
  function Find(marker: string, text: string): (at: Option<nat>)
    ensures at.Some? ==> OccursAt(marker, text, at.value)
    ensures at.Some? ==> forall j: nat :: j < at.value ==> !OccursAt(marker, text, j)
    ensures at.None? ==> forall j: nat :: !OccursAt(marker, text, j)
  {
    FindFrom(marker, text, 0)
  }

  function FindFrom(marker: string, text: string, from: nat): (at: Option<nat>)
    requires from <= |text|
    requires forall j: nat :: j < from ==> !OccursAt(marker, text, j)
    ensures at.Some? ==> OccursAt(marker, text, at.value)
    ensures at.Some? ==> forall j: nat :: j < at.value ==> !OccursAt(marker, text, j)
    ensures at.None? ==> forall j: nat :: !OccursAt(marker, text, j)
    decreases |text| - from
  {
    if OccursAt(marker, text, from) then Some(from)
    else if from < |text| then FindFrom(marker, text, from + 1)
    else None
  }

  /** `k` last characters of `text` are the first `k` of the marker. */
  predicate HeldBack(marker: string, text: string, k: nat) {
    k < |marker| && k <= |text| && text[|text| - k..] == marker[..k]
  }

  ghost predicate LongestHeld(marker: string, text: string, k: nat) {
    HeldBack(marker, text, k) && forall j: nat :: HeldBack(marker, text, j) ==> j <= k
  }

  /** The longest suffix of the content that could still grow into the marker, by trying every
      length from the largest down. */
  method TrailingPrefixLength(marker: string, content: string) returns (length: nat)
    requires marker != ""
    ensures LongestHeld(marker, content, length) && length <= |content|
  {
    var maximum: nat := if |content| < |marker| - 1 then |content| else |marker| - 1;
    length := maximum;
    while length > 0
      invariant length <= maximum
      invariant forall j: nat :: length < j ==> !HeldBack(marker, content, j)
    {
      if content[|content| - length..] == marker[..length] {
        return;
      }
      length := length - 1;
    }
  }

  /** What has become of the text streamed so far. */
  datatype Split = Split(shown: string, held: string, markup: Option<string>)

  /** The one-shot reading of a whole text: everything before the first marker is visible. */
  ghost predicate SplitsOneShot(marker: string, text: string, s: Split) {
    match Find(marker, text)
    case Some(at) => s == Split(text[..at], "", Some(text[at..]))
    case None => s.markup.None? && s.shown + s.held == text && LongestHeld(marker, text, |s.held|)
  }

  /** There is exactly one way to split a text, so agreeing with the one-shot reading fixes
      every character shown and held. */
  lemma OneShotIsUnique(marker: string, text: string, a: Split, b: Split)
    requires SplitsOneShot(marker, text, a) && SplitsOneShot(marker, text, b)
    ensures a == b
  {
    if Find(marker, text).None? {
      assert |a.held| == |b.held|;
      assert a.shown == text[..|a.shown|] && b.shown == text[..|b.shown|];
      assert a.held == text[|a.shown|..] && b.held == text[|b.shown|..];
    }
  }

  lemma OccursEarlier(marker: string, before: string, more: string, i: nat)
    requires OccursAt(marker, before + more, i) && i + |marker| <= |before|
    ensures OccursAt(marker, before, i)
  {
    assert before[i..i + |marker|] == (before + more)[i..i + |marker|];
  }

  lemma OverhangIsHeld(marker: string, before: string, more: string, i: nat)
    requires OccursAt(marker, before + more, i) && i <= |before| < i + |marker|
    ensures HeldBack(marker, before, |before| - i)
  {
    var whole := before + more;
    assert before[i..] == whole[i..i + |marker|][..|before| - i];
  }

  /** With no marker in the text so far, one that appears after more text starts in the tail that
      was held back, never in what has been shown. */
  lemma MarkerStartsInHeldText(marker: string, before: string, k: nat, more: string, i: nat)
    requires LongestHeld(marker, before, k)
    requires forall j: nat :: !OccursAt(marker, before, j)
    requires OccursAt(marker, before + more, i)
    ensures |before| - k <= i
  {
    if i + |marker| <= |before| {
      OccursEarlier(marker, before, more, i);
    } else if i <= |before| {
      OverhangIsHeld(marker, before, more, i);
    }
  }

  /** A tail held back after more text lies in what was held back before plus the new text. */
  lemma HeldTextIsRecent(marker: string, before: string, k: nat, more: string, j: nat)
    requires LongestHeld(marker, before, k) && HeldBack(marker, before + more, j)
    ensures j <= k + |more|
  {
    var whole := before + more;
    if j > |more| {
      var early := j - |more|;
      assert before[|before| - early..] == whole[|whole| - j..][..early];
      assert marker[..j][..early] == marker[..early];
      assert HeldBack(marker, before, early);
    }
  }

  lemma HeldInTail(marker: string, text: string, skip: nat, j: nat)
    requires skip <= |text| && j <= |text| - skip
    ensures HeldBack(marker, text[skip..], j) <==> HeldBack(marker, text, j)
  {
    var tail := text[skip..];
    assert tail[|tail| - j..] == text[|text| - j..];
  }

  lemma OccursInTail(marker: string, text: string, skip: nat, i: nat)
    requires skip <= |text|
    ensures OccursAt(marker, text[skip..], i) <==> OccursAt(marker, text, skip + i)
  {
    if skip + i + |marker| <= |text| {
      assert text[skip..][i..i + |marker|] == text[skip + i..skip + i + |marker|];
    }
  }

  lemma FirstIsFound(marker: string, text: string, at: nat)
    requires OccursAt(marker, text, at) && forall j: nat :: j < at ==> !OccursAt(marker, text, j)
    ensures Find(marker, text) == Some(at)
  {
    hide Find;
    var found := Find(marker, text);
    assert found.Some?;
    assert !(found.value < at) && !(at < found.value);
  }

  /** The three ways one more chunk moves the split of the text so far to the split of the longer
      text: the block goes on, the marker shows up, or a new tail is held back. */
  lemma MoreMarkup(marker: string, before: string, s: Split, more: string)
    requires SplitsOneShot(marker, before, s) && s.markup.Some?
    ensures SplitsOneShot(marker, before + more, Split(s.shown, "", Some(s.markup.value + more)))
  {
    hide Find;
    var at := Find(marker, before).value;
    var whole := before + more;
    assert whole[at..at + |marker|] == before[at..at + |marker|];
    forall j: nat | j < at ensures !OccursAt(marker, whole, j) {
      if OccursAt(marker, whole, j) { OccursEarlier(marker, before, more, j); }
    }
    FirstIsFound(marker, whole, at);
    assert whole[..at] == before[..at] && whole[at..] == before[at..] + more;
  }

  /** A marker that appears after more text starts in what was held back. */
  lemma OccursOnlyInHeld(marker: string, before: string, s: Split, more: string, j: nat)
    requires SplitsOneShot(marker, before, s) && s.markup.None? && OccursAt(marker, before + more, j)
    ensures |s.shown| <= j && OccursAt(marker, s.held + more, j - |s.shown|)
  {
    hide Find, OccursAt, LongestHeld;
    MarkerStartsInHeldText(marker, before, |s.held|, more, j);
    HeldIsTail(s.shown, s.held, more);
    OccursInTail(marker, before + more, |s.shown|, j - |s.shown|);
  }

  lemma HeldIsTail(shown: string, held: string, more: string)
    ensures ((shown + held) + more)[|shown|..] == held + more
  {
  }

  lemma CutBehindShown(shown: string, held: string, more: string, at: nat)
    requires at <= |held + more|
    ensures ((shown + held) + more)[..|shown| + at] == shown + (held + more)[..at]
    ensures ((shown + held) + more)[|shown| + at..] == (held + more)[at..]
    ensures (shown + (held + more)[..at]) + (held + more)[at..] == (shown + held) + more
  {
  }

  lemma MarkerFound(marker: string, before: string, s: Split, more: string, at: nat)
    requires SplitsOneShot(marker, before, s) && s.markup.None?
    requires Find(marker, s.held + more) == Some(at)
    ensures SplitsOneShot(marker, before + more,
                          Split(s.shown + (s.held + more)[..at], "", Some((s.held + more)[at..])))
  {
    var whole, skip := before + more, |s.shown|;
    assert before == s.shown + s.held;
    assert at <= |s.held + more|;
    hide Find, OccursAt, LongestHeld;
    HeldIsTail(s.shown, s.held, more);
    OccursInTail(marker, whole, skip, at);
    forall j: nat | j < skip + at ensures !OccursAt(marker, whole, j) {
      if OccursAt(marker, whole, j) { OccursOnlyInHeld(marker, before, s, more, j); }
    }
    FirstIsFound(marker, whole, skip + at);
    CutBehindShown(s.shown, s.held, more, at);
  }

  lemma TailHeld(marker: string, before: string, s: Split, more: string, k: nat)
    requires SplitsOneShot(marker, before, s) && s.markup.None?
    requires Find(marker, s.held + more).None? && LongestHeld(marker, s.held + more, k)
    ensures var content := s.held + more;
            SplitsOneShot(marker, before + more,
                          Split(s.shown + content[..|content| - k], content[|content| - k..], None))
  {
    var content, whole := s.held + more, before + more;
    assert before == s.shown + s.held && LongestHeld(marker, before, |s.held|);
    hide Find, OccursAt, HeldBack;
    forall j: nat ensures !OccursAt(marker, whole, j) {
      if OccursAt(marker, whole, j) { OccursOnlyInHeld(marker, before, s, more, j); }
    }
    assert Find(marker, whole).None?;
    TailStaysLongest(marker, s.shown, s.held, more, k);
    CutBehindShown(s.shown, s.held, more, |content| - k);
    hide LongestHeld;
  }

  lemma TailStaysLongest(marker: string, shown: string, held: string, more: string, k: nat)
    requires LongestHeld(marker, shown + held, |held|) && LongestHeld(marker, held + more, k)
    ensures LongestHeld(marker, (shown + held) + more, k) && k <= |held + more|
  {
    var whole := (shown + held) + more;
    assert k <= |held + more|;
    hide HeldBack;
    HeldIsTail(shown, held, more);
    HeldInTail(marker, whole, |shown|, k);
    forall j: nat | HeldBack(marker, whole, j) ensures j <= k {
      HeldTextIsRecent(marker, shown + held, |held|, more, j);
      HeldInTail(marker, whole, |shown|, j);
    }
  }

  function Joined(chunks: seq<string>): string {
    if chunks == [] then "" else chunks[0] + Joined(chunks[1..])
  }

  lemma {:induction false} JoinedConcat(a: seq<string>, b: seq<string>)
    ensures Joined(a + b) == Joined(a) + Joined(b)
  {
    if a == [] {
      assert a + b == b;
    } else {
      assert (a + b)[1..] == a[1..] + b;
      JoinedConcat(a[1..], b);
    }
  }

  lemma {:induction false} JoinedSnoc(chunks: seq<string>, i: nat)
    requires i < |chunks|
    ensures Joined(chunks[..i + 1]) == Joined(chunks[..i]) + chunks[i]
  {
    assert [chunks[i]][1..] == [] && Joined([chunks[i]]) == chunks[i] + "";
    hide Joined;
    assert chunks[..i + 1] == chunks[..i] + [chunks[i]];
    JoinedConcat(chunks[..i], [chunks[i]]);
  }

  /** A chunk is passed on only when it has text. */
  function NonEmpty(chunk: string): (chunks: seq<string>)
    ensures Joined(chunks) == chunk && |chunks| <= 1 && "" !in chunks
  {
    if chunk != "" then [chunk] else []
  }

  /** The accumulator. `fed` and `shown` record, for the contracts only, every character that
      went in and every one that came out as visible text. */
  class Accumulator {
    var visibleTail: string
    var rawMarkup: Option<string>
    ghost var fed: string
    ghost var shown: string

    ghost predicate Valid()
      reads this
    {
      SplitsOneShot(TOOL_CALL_PREFIX, fed, Split(shown, visibleTail, rawMarkup))
    }

    constructor ()
      ensures Valid() && fed == "" && shown == ""
    {
      visibleTail, rawMarkup, fed, shown := "", None, "", "";
    }

    method Append(text: string) returns (visible: seq<string>)
      requires Valid()
      modifies this
      ensures Valid() && fed == old(fed) + text
      ensures shown == old(shown) + Joined(visible)
      ensures |visible| <= 1 && "" !in visible
    {
      hide Find, LongestHeld;
      ghost var before, split := fed, Split(shown, visibleTail, rawMarkup);
      fed := before + text;
      if rawMarkup.Some? {
        MoreMarkup(TOOL_CALL_PREFIX, before, split, text);
        rawMarkup := Some(rawMarkup.value + text);
        return [];
      }
      var content := visibleTail + text;
      var marker := Find(TOOL_CALL_PREFIX, content);
      if marker.Some? {
        MarkerFound(TOOL_CALL_PREFIX, before, split, text, marker.value);
        visibleTail, rawMarkup := "", Some(content[marker.value..]);
        visible := NonEmpty(content[..marker.value]);
      } else {
        var length := TrailingPrefixLength(TOOL_CALL_PREFIX, content);
        TailHeld(TOOL_CALL_PREFIX, before, split, text, length);
        visibleTail := content[|content| - length..];
        visible := NonEmpty(content[..|content| - length]);
      }
      shown := shown + Joined(visible);
    }

    /** `parse` stands for the regular-expression reading of a complete block. */
    method Finish<Calls>(parse: string -> Option<Calls>) returns (visible: seq<string>, calls: Option<Calls>)
      requires Valid()
      ensures calls == if rawMarkup.None? then None else parse(rawMarkup.value)
      // whatever was not turned into calls has been shown, in order and without loss
      ensures calls.None? ==> shown + Joined(visible) == fed
      ensures calls.Some? ==>
        var at := Find(TOOL_CALL_PREFIX, fed);
        at.Some? && shown + Joined(visible) == fed[..at.value] && calls == parse(fed[at.value..])
    {
      visible := if visibleTail != "" then [visibleTail] else [];
      if rawMarkup.None? {
        return visible, None;
      }
      calls := parse(rawMarkup.value);
      if calls.None? {
        visible := visible + [rawMarkup.value];
      }
    }
  }

  /** Any way of cutting a text into chunks ends in the one-shot split of the whole text. */
  method AppendAll(chunks: seq<string>) returns (shown: string, held: string, markup: Option<string>)
    ensures SplitsOneShot(TOOL_CALL_PREFIX, Joined(chunks), Split(shown, held, markup))
  {
    var accumulator := new Accumulator();
    shown := "";
    assert chunks[..|chunks|] == chunks && Joined(chunks[..0]) == "";
    hide Joined, SplitsOneShot;
    for i := 0 to |chunks|
      invariant fresh(accumulator) && accumulator.Valid()
      invariant accumulator.fed == Joined(chunks[..i]) && accumulator.shown == shown
    {
      var visible := accumulator.Append(chunks[i]);
      JoinedSnoc(chunks, i);
      shown := shown + Joined(visible);
    }
    held, markup := accumulator.visibleTail, accumulator.rawMarkup;
  }
}
