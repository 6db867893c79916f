/** Bounded previews that stand in for tool results moved out of the active context. */
module Preview {
  import opened Utf8

  datatype BuildResult = Built(text: string) | BudgetTooSmall

  const HEAD_MARK := "--- 开头 ---\n"
  const TAIL_MARK := "\n--- 结尾 ---\n"

  function Decimal(n: nat): (digits: string)
    ensures digits != "" && forall i :: 0 <= i < |digits| ==> '0' <= digits[i] <= '9'
  {
    var last := ('0' as int + n % 10) as char;
    if n < 10 then [last] else Decimal(n / 10) + [last]
  }

  function DigitCount(n: nat): nat {
    if n < 10 then 1 else DigitCount(n / 10) + 1
  }

  lemma {:induction false} DecimalLength(n: nat)
    ensures |Decimal(n)| == DigitCount(n)
  {
    if n >= 10 { DecimalLength(n / 10); }
  }

  function TitleLine(): string {
    "[工具结果已外置]\n"
  }

  function StatusLine(success: bool): string {
    "状态：" + (if success then "成功" else "失败") + "\n"
  }

  function SizeLine(originalBytes: nat, originalTokens: nat): string {
    "原始大小：" + Decimal(originalBytes) + " bytes，约 " + Decimal(originalTokens) + " tokens\n"
  }

  function PathLine(readPath: string): string {
    "完整结果：" + readPath + "\n"
  }

  function Metadata(originalBytes: nat, originalTokens: nat, success: bool, readPath: string): string {
    TitleLine() + StatusLine(success) + SizeLine(originalBytes, originalTokens) + PathLine(readPath)
  }

  /** Tokens taken before a single byte of the result is shown. */
  function FixedTokens(metadata: string): nat {
    ApproximateTokens(metadata + (HEAD_MARK + TAIL_MARK))
  }

  function Layout(metadata: string, head: string, tail: string): string {
    metadata + HEAD_MARK + head + TAIL_MARK + tail
  }

  function LayoutCut(metadata: string, head: string, tail: string, headBytes: nat, tailBytes: nat): string {
    Layout(metadata, Prefix(head, headBytes), Suffix(tail, tailBytes))
  }

  function Reduced(bytes: nat, reduction: nat): nat {
    if bytes < reduction then 0 else bytes - reduction
  }

  lemma LayoutBytes(metadata: string, head: string, tail: string)
    ensures ByteCount(Layout(metadata, head, tail))
         == ByteCount(metadata + (HEAD_MARK + TAIL_MARK)) + ByteCount(head) + ByteCount(tail)
  {
    ByteCountConcat(metadata, HEAD_MARK + TAIL_MARK);
    ByteCountConcat(HEAD_MARK, TAIL_MARK);
    ByteCountConcat(metadata, HEAD_MARK);
    ByteCountConcat(metadata + HEAD_MARK, head);
    ByteCountConcat(metadata + HEAD_MARK + head, TAIL_MARK);
    ByteCountConcat(metadata + HEAD_MARK + head + TAIL_MARK, tail);
  }

  /** Cutting to a share of the bytes left over keeps the whole preview in budget, so the
      shrink loop leaves on its first pass, whatever the texts are. */
  lemma FirstPassFits(metadata: string, head: string, tail: string, headBytes: nat, tailBytes: nat, budgetTokens: nat)
    requires FixedTokens(metadata) < budgetTokens
    requires headBytes + tailBytes <= (budgetTokens - FixedTokens(metadata)) * 4
    ensures ApproximateTokens(LayoutCut(metadata, head, tail, headBytes, tailBytes)) <= budgetTokens
  {
    PrefixIsLongest(head, headBytes);
    SuffixIsLongest(tail, tailBytes);
    LayoutBytes(metadata, Prefix(head, headBytes), Suffix(tail, tailBytes));
  }

  /** What the shrink loop computes from a given pair of shares. */
  function Shrink(metadata: string, head: string, tail: string, headBytes: nat, tailBytes: nat, budgetTokens: nat): string
    requires FixedTokens(metadata) < budgetTokens
    decreases headBytes + tailBytes
  {
    var preview := LayoutCut(metadata, head, tail, headBytes, tailBytes);
    var excess := ApproximateTokens(preview) - budgetTokens;
    if excess <= 0 then preview
    else
      assert headBytes + tailBytes > 0 by {
        if headBytes + tailBytes == 0 { FirstPassFits(metadata, head, tail, 0, 0, budgetTokens); }
      }
      Shrink(metadata, head, tail, Reduced(headBytes, excess * 2), Reduced(tailBytes, excess * 2), budgetTokens)
  }

  /** The loop on its own: it ends for every pair of shares, with what `Shrink` says. */
  method ShrinkToBudget(metadata: string, head: string, tail: string, headShare: nat, tailShare: nat, budgetTokens: nat)
    returns (preview: string)
    requires FixedTokens(metadata) < budgetTokens
    ensures preview == Shrink(metadata, head, tail, headShare, tailShare, budgetTokens)
  {
    var headBytes, tailBytes := headShare, tailShare;
    preview := LayoutCut(metadata, head, tail, headBytes, tailBytes);
    while ApproximateTokens(preview) > budgetTokens
      invariant preview == LayoutCut(metadata, head, tail, headBytes, tailBytes)
      invariant Shrink(metadata, head, tail, headBytes, tailBytes, budgetTokens)
             == Shrink(metadata, head, tail, headShare, tailShare, budgetTokens)
      decreases headBytes + tailBytes
    {
      var reduction := (ApproximateTokens(preview) - budgetTokens) * 2;
      if headBytes + tailBytes == 0 {
        FirstPassFits(metadata, head, tail, 0, 0, budgetTokens);
      }
      headBytes, tailBytes := Reduced(headBytes, reduction), Reduced(tailBytes, reduction);
      preview := LayoutCut(metadata, head, tail, headBytes, tailBytes);
    }
  }

  // ---- what a preview shows ----

  /** The number these digits stand for. */
  function Value(digits: string): int {
    if digits == "" then 0 else Value(digits[..|digits| - 1]) * 10 + (digits[|digits| - 1] as int - '0' as int)
  }

  lemma {:induction false} DecimalReads(n: nat)
    ensures Value(Decimal(n)) == n && (Decimal(n)[0] == '0' <==> n == 0)
  {
    var last := ('0' as int + n % 10) as char;
    if n < 10 {
      assert [last][..0] == "";
    } else {
      DecimalReads(n / 10);
      assert (Decimal(n / 10) + [last])[..|Decimal(n / 10)|] == Decimal(n / 10);
    }
  }

  /** What every preview of a result carries besides the result: 123 bytes of labels and marks, both
      decimals and the path. */
  function LabelBytes(originalBytes: nat, originalTokens: nat, readPath: string): nat {
    123 + DigitCount(originalBytes) + DigitCount(originalTokens) + ByteCount(readPath)
  }

  /** A preview of so many tokens: it says how the tool ended, how much there was and where it all is, and shows the longest
      beginning and the longest end of the result within half of the bytes that the budget leaves each, the end within the
      greater half. */
  ghost predicate Shows(text: string, head: string, tail: string, originalBytes: nat, originalTokens: nat, success: bool,
                        readPath: string, budgetTokens: nat)
  {
    var available := 4 * (budgetTokens - (LabelBytes(originalBytes, originalTokens, readPath) + 3) / 4);
    available >= 0 &&
    exists shownHead, shownTail ::
      && LongestPrefixWithin(shownHead, head, available / 2)
      && LongestSuffixWithin(shownTail, tail, available - available / 2)
      && Reads(text, shownHead, shownTail, originalBytes, originalTokens, success, readPath)
  }

  ghost predicate Reads(text: string, shownHead: string, shownTail: string, originalBytes: nat, originalTokens: nat,
                        success: bool,
                        readPath: string)
  {
    var title, status := "[工具结果已外置]\n", "状态：" + (if success then "成功" else "失败") + "\n";
    var size := "原始大小：" + Decimal(originalBytes) + " bytes，约 " + Decimal(originalTokens) + " tokens\n";
    var path := "完整结果：" + readPath + "\n";
    text == (title + status + size + path) + "--- 开头 ---\n" + shownHead + "\n--- 结尾 ---\n" + shownTail
  }

  lemma {:induction false} LayoutShows(head: string, tail: string, originalBytes: nat, originalTokens: nat, success: bool,
                                       readPath: string, budgetTokens: nat)
    requires LabelBytes(originalBytes, originalTokens, readPath) <= 4 * (budgetTokens - 1)
    ensures var available := 4 * (budgetTokens - (LabelBytes(originalBytes, originalTokens, readPath) + 3) / 4);
            && available >= 0
            && Shows(LayoutCut(Metadata(originalBytes, originalTokens, success, readPath), head, tail,
                               available / 2, available - available / 2),
                     head, tail, originalBytes, originalTokens, success, readPath, budgetTokens)
  {
    hide LabelBytes, LayoutCut, Metadata, Prefix, Suffix, LongestPrefixWithin, LongestSuffixWithin, Reads;
    var available := 4 * (budgetTokens - (LabelBytes(originalBytes, originalTokens, readPath) + 3) / 4);
    PrefixIsLongest(head, available / 2);
    SuffixIsLongest(tail, available - available / 2);
    LayoutReads(head, tail, originalBytes, originalTokens, success, readPath, available / 2, available - available / 2);
  }

  lemma {:induction false} LayoutReads(head: string, tail: string, originalBytes: nat, originalTokens: nat, success: bool,
                                       readPath: string, headBytes: nat, tailBytes: nat)
    ensures Reads(LayoutCut(Metadata(originalBytes, originalTokens, success, readPath), head, tail, headBytes, tailBytes),
                  Prefix(head, headBytes), Suffix(tail, tailBytes), originalBytes, originalTokens, success, readPath)
  {
    hide Prefix, Suffix, Decimal;
  }

  method BuildStored(head: string, tail: string, originalBytes: nat, originalTokens: nat, success: bool,
                     readPath: string, budgetTokens: nat)
    returns (result: BuildResult)
    requires budgetTokens >= 1
    ensures result.Built? <==> LabelBytes(originalBytes, originalTokens, readPath) <= 4 * (budgetTokens - 1)
    ensures result.Built? ==>
      var metadata := Metadata(originalBytes, originalTokens, success, readPath);
      var available := (budgetTokens - FixedTokens(metadata)) * 4;
      && FixedTokens(metadata) < budgetTokens
      && result.text == LayoutCut(metadata, head, tail, available / 2, available - available / 2)
      && ApproximateTokens(result.text) <= budgetTokens
    ensures result.Built? ==>
      Shows(result.text, head, tail, originalBytes, originalTokens, success, readPath, budgetTokens)
  {
    hide Metadata, FixedTokens, LayoutCut, LabelBytes, Shows;
    LabelsTakeTheirBytes(originalBytes, originalTokens, success, readPath, budgetTokens);
    var metadata := Metadata(originalBytes, originalTokens, success, readPath);
    var fixedTokens := FixedTokens(metadata);
    if fixedTokens >= budgetTokens {
      return BudgetTooSmall;
    }
    var available := (budgetTokens - fixedTokens) * 4;
    FirstPassFits(metadata, head, tail, available / 2, available - available / 2, budgetTokens);
    LayoutShows(head, tail, originalBytes, originalTokens, success, readPath, budgetTokens);
    var preview := ShrinkToBudget(metadata, head, tail, available / 2, available - available / 2, budgetTokens);
    return Built(preview);
  }

  lemma MarkBytes()
    ensures ByteCount(HEAD_MARK + TAIL_MARK) == 31
  {
    hide ByteCount, Encode;
    var marks := "--- " + "开头" + " ---\n\n--- " + "结尾" + " ---\n";
    assert HEAD_MARK + TAIL_MARK == marks;
    AsciiBytes("--- "); WideBytes("开头"); AsciiBytes(" ---\n\n--- "); WideBytes("结尾"); AsciiBytes(" ---\n");
    ByteCountConcat("--- ", "开头");
    ByteCountConcat("--- " + "开头", " ---\n\n--- ");
    ByteCountConcat("--- " + "开头" + " ---\n\n--- ", "结尾");
    ByteCountConcat("--- " + "开头" + " ---\n\n--- " + "结尾", " ---\n");
  }

  lemma TitleLineBytes()
    ensures ByteCount(TitleLine()) == 24
  {
    hide ByteCount, Encode;
    assert TitleLine() == "[" + "工具结果已外置" + "]\n";
    AsciiBytes("["); WideBytes("工具结果已外置"); AsciiBytes("]\n");
    ByteCountConcat("[", "工具结果已外置");
    ByteCountConcat("[" + "工具结果已外置", "]\n");
  }

  lemma StatusLineBytes(success: bool)
    ensures ByteCount(StatusLine(success)) == 16
  {
    hide ByteCount, Encode;
    var outcome := if success then "成功" else "失败";
    WideBytes("状态："); WideBytes(outcome); AsciiBytes("\n");
    ByteCountConcat("状态：", outcome);
    ByteCountConcat("状态：" + outcome, "\n");
  }

  lemma SizeLineBytes(originalBytes: nat, originalTokens: nat)
    ensures ByteCount(SizeLine(originalBytes, originalTokens)) == 36 + DigitCount(originalBytes) + DigitCount(originalTokens)
  {
    hide ByteCount, Encode;
    var a, b := Decimal(originalBytes), Decimal(originalTokens);
    DecimalLength(originalBytes); DecimalLength(originalTokens);
    AsciiBytes(a); AsciiBytes(b);
    WideBytes("原始大小："); AsciiBytes(" bytes"); WideBytes("，约"); AsciiBytes(" "); AsciiBytes(" tokens\n");
    assert " bytes，约 " == " bytes" + "，约" + " ";
    ByteCountConcat(" bytes", "，约"); ByteCountConcat(" bytes" + "，约", " ");
    ByteCountConcat("原始大小：", a);
    ByteCountConcat("原始大小：" + a, " bytes，约 ");
    ByteCountConcat("原始大小：" + a + " bytes，约 ", b);
    ByteCountConcat("原始大小：" + a + " bytes，约 " + b, " tokens\n");
  }

  lemma PathLineBytes(readPath: string)
    ensures ByteCount(PathLine(readPath)) == 16 + ByteCount(readPath)
  {
    hide ByteCount, Encode;
    WideBytes("完整结果："); AsciiBytes("\n");
    ByteCountConcat("完整结果：", readPath);
    ByteCountConcat("完整结果：" + readPath, "\n");
  }

  /** The tokens reserved for labels are those of exactly these bytes, so a preview is built exactly if
      they leave at least one of its tokens free. */
  lemma {:induction false} LabelsTakeTheirBytes(originalBytes: nat, originalTokens: nat, success: bool, readPath: string,
                                                budgetTokens: nat)
    requires budgetTokens >= 1
    ensures FixedTokens(Metadata(originalBytes, originalTokens, success, readPath))
         == (LabelBytes(originalBytes, originalTokens, readPath) + 3) / 4
    ensures FixedTokens(Metadata(originalBytes, originalTokens, success, readPath)) < budgetTokens
       <==> LabelBytes(originalBytes, originalTokens, readPath) <= 4 * (budgetTokens - 1)
  {
    hide ByteCount, Encode, TitleLine, StatusLine, SizeLine, PathLine, DigitCount;
    var title, status, path := TitleLine(), StatusLine(success), PathLine(readPath);
    var size := SizeLine(originalBytes, originalTokens);
    TitleLineBytes(); StatusLineBytes(success); SizeLineBytes(originalBytes, originalTokens);
    PathLineBytes(readPath); MarkBytes();
    ByteCountConcat(title, status);
    ByteCountConcat(title + status, size);
    ByteCountConcat(title + status + size, path);
    ByteCountConcat(title + status + size + path, HEAD_MARK + TAIL_MARK);
  }
}
