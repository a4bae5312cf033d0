/**
 * The windows-ascent/descent plausibility check. OS/2.usWinAscent must lie
 * in [head.yMax, 2 * head.yMax] and OS/2.usWinDescent in
 * [|head.yMin|, 2 * |head.yMin|]; a missing table is reported instead.
 */
module WinMetrics {
  import opened Wrappers
  import opened Int32
  import opened Diagnostics
  import Decimal

  /** The two OS/2 fields the check reads. */
  datatype Os2 = Os2(usWinAscent: U16, usWinDescent: U16)

  /** The two head fields the check reads. */
  datatype Head = Head(yMax: I16, yMin: I16)

  /** A parsed font as the check sees it: each table may fail to be read. */
  datatype Font = Font(os2: Option<Os2>, head: Option<Head>)

  const MissingTables: string := "OS/2 or head"

  const MissingTablesDiagnostic: Diagnostic := Diagnostic(Fail, ReadError(TableName(MissingTables)))

  /** The plausible range of usWinAscent, in unbounded arithmetic. */
  function AscentRange(head: Head): Range
  {
    Range(head.yMax, 2 * head.yMax)
  }

  /** The plausible range of usWinDescent, in unbounded arithmetic. */
  function DescentRange(head: Head): Range
  {
    var depth := Abs(head.yMin);
    Range(depth, 2 * depth)
  }

  function AscentFindings(os2: Os2, head: Head): seq<Diagnostic>
  {
    var range := AscentRange(head);
    if range.Contains(os2.usWinAscent) then []
    else [Diagnostic(Fail, MetricsError(WinAscentOutsideExpecation(range, os2.usWinAscent)))]
  }

  function DescentFindings(os2: Os2, head: Head): seq<Diagnostic>
  {
    var range := DescentRange(head);
    if range.Contains(os2.usWinDescent) then []
    else [Diagnostic(Fail, MetricsError(WinDescentOutsideExpecation(range, os2.usWinDescent)))]
  }

  /**
   * What the check reports for a font: the missing-table diagnostic alone,
   * or the ascent finding (if any) followed by the descent finding (if any).
   */
  function Report(font: Font): (r: seq<Diagnostic>)
    ensures |r| <= 2
    ensures forall i :: 0 <= i < |r| ==> r[i].level == Fail
  {
    match font
    case Font(Some(os2), Some(head)) => AscentFindings(os2, head) + DescentFindings(os2, head)
    case _ => [MissingTablesDiagnostic]
  }

  /** `.unwrap()`: the source panics on None; here the caller must prove Some. */
  function Unwrap<T>(o: Option<T>): T
    requires o.Some?
  {
    o.value
  }

  /**
   * `check_win_ascent_and_descent`: the fields are widened to i32, the upper
   * bounds doubled with `checked_mul(2).unwrap()`, and each out-of-range
   * value pushes a `Fail` diagnostic. The i32 arithmetic never panics and
   * agrees with the unbounded reference `Report`.
   */
  method CheckWinAscentAndDescent(font: Font) returns (diagnostics: seq<Diagnostic>)
    ensures diagnostics == Report(font)
  {
    diagnostics := [];
    if !(font.os2.Some? && font.head.Some?) {
      diagnostics := diagnostics + [Diagnostic(Fail, ReadError(TableName(MissingTables)))];
      return;
    }
    var os2, head := font.os2.value, font.head.value;

    var winAscent: I32 := os2.usWinAscent;
    var headYMax: I32 := head.yMax;
    var winAscentMax: I32 := Unwrap(CheckedMul(headYMax, 2));
    if winAscent < headYMax || winAscent > winAscentMax {
      diagnostics := diagnostics + [Diagnostic(Fail, MetricsError(WinAscentOutsideExpecation(Range(headYMax, winAscentMax), winAscent)))];
    }

    var winDescent: I32 := os2.usWinDescent;
    var headYMin: I32 := head.yMin;
    var headYMinAbs: I32 := Abs(headYMin);
    var winDescentMax: I32 := Unwrap(CheckedMul(headYMinAbs, 2));
    if winDescent < headYMinAbs || winDescent > winDescentMax {
      diagnostics := diagnostics + [Diagnostic(Fail, MetricsError(WinDescentOutsideExpecation(Range(headYMinAbs, winDescentMax), winDescent)))];
    }
  }

  predicate IsAscentFinding(d: Diagnostic)
  {
    d.message.MetricsError? && d.message.metricsError.WinAscentOutsideExpecation?
  }

  predicate IsDescentFinding(d: Diagnostic)
  {
    d.message.MetricsError? && d.message.metricsError.WinDescentOutsideExpecation?
  }

  lemma MissingTablesLine()
    ensures "Fail" + (": " + (CannotRead + (MissingTables + TableSuffix))) == "Fail: Cannot read OS/2 or head table"
  {
    var line := "Fail" + (": " + (CannotRead + (MissingTables + TableSuffix)));
    assert |line| == 36;
    forall i | 0 <= i < 36 ensures line[i] == "Fail: Cannot read OS/2 or head table"[i] {
    }
  }

  /** If either table cannot be read, the only diagnostic is the missing-table one. */
  lemma MissingTableReport(font: Font)
    requires font.os2.None? || font.head.None?
    ensures Report(font) == [Diagnostic(Fail, ReadError(TableName("OS/2 or head")))]
    ensures Render(Report(font)[0]) == "Fail: Cannot read OS/2 or head table"
  {
    assert Report(font) == [MissingTablesDiagnostic];
    assert Render(MissingTablesDiagnostic) == "Fail" + (": " + (CannotRead + (MissingTables + TableSuffix)));
    MissingTablesLine();
  }

  /** With both tables, the report never mentions a missing table. */
  lemma PresentTablesNoReadError(os2: Os2, head: Head)
    ensures forall d :: d in Report(Font(Some(os2), Some(head))) ==> d.message.MetricsError?
  {
  }

  /**
   * With both tables, usWinAscent is reported exactly when it lies outside
   * [yMax, 2 * yMax], and the report carries that range and the value.
   */
  lemma AscentReportedIff(os2: Os2, head: Head)
    ensures (exists d :: d in Report(Font(Some(os2), Some(head))) && IsAscentFinding(d))
        <==> os2.usWinAscent < head.yMax || os2.usWinAscent > 2 * head.yMax
    ensures forall d :: d in Report(Font(Some(os2), Some(head))) && IsAscentFinding(d) ==>
        d.message.metricsError.range == Range(head.yMax, 2 * head.yMax) &&
        d.message.metricsError.got == os2.usWinAscent
  {
    var r := Report(Font(Some(os2), Some(head)));
    if os2.usWinAscent < head.yMax || os2.usWinAscent > 2 * head.yMax {
      assert IsAscentFinding(r[0]);
    }
  }

  /**
   * With both tables, usWinDescent is reported exactly when it lies outside
   * [|yMin|, 2 * |yMin|], and the report carries that range and the value.
   */
  lemma DescentReportedIff(os2: Os2, head: Head)
    ensures (exists d :: d in Report(Font(Some(os2), Some(head))) && IsDescentFinding(d))
        <==> os2.usWinDescent < Abs(head.yMin) || os2.usWinDescent > 2 * Abs(head.yMin)
    ensures forall d :: d in Report(Font(Some(os2), Some(head))) && IsDescentFinding(d) ==>
        d.message.metricsError.range == Range(Abs(head.yMin), 2 * Abs(head.yMin)) &&
        d.message.metricsError.got == os2.usWinDescent
  {
    var r := Report(Font(Some(os2), Some(head)));
    if os2.usWinDescent < Abs(head.yMin) || os2.usWinDescent > 2 * Abs(head.yMin) {
      assert IsDescentFinding(r[|r| - 1]);
    }
  }

  /** An ascent finding always precedes a descent finding, and each occurs at most once. */
  lemma ReportOrder(font: Font)
    ensures forall i, j ::
        0 <= i < |Report(font)| && 0 <= j < |Report(font)| &&
        IsDescentFinding(Report(font)[i]) && IsAscentFinding(Report(font)[j])
        ==> j < i
    ensures forall i, j :: 0 <= i < j < |Report(font)| ==>
        !(IsAscentFinding(Report(font)[i]) && IsAscentFinding(Report(font)[j])) &&
        !(IsDescentFinding(Report(font)[i]) && IsDescentFinding(Report(font)[j]))
  {
  }

  /**
   * The descent range is never empty; the ascent range is empty exactly when
   * yMax is negative, and then usWinAscent (never negative) is always reported.
   */
  lemma RangeShapes(os2: Os2, head: Head)
    ensures DescentRange(head).lo <= DescentRange(head).hi
    ensures AscentRange(head).lo <= AscentRange(head).hi <==> head.yMax >= 0
    ensures head.yMax < 0 ==> |AscentFindings(os2, head)| == 1
  {
  }

  /** yMax = 1000, yMin = -200, usWinAscent = 1500, usWinDescent = 300: nothing to report. */
  lemma ExampleWithinRanges()
    ensures Report(Font(Some(Os2(1500, 300)), Some(Head(1000, -200)))) == []
  {
  }

  /** The decimal text of the numbers in the examples. */
  lemma ExampleDecimals()
    ensures Decimal.IntToDecimal(1000) == "1000" && Decimal.IntToDecimal(2000) == "2000"
    ensures Decimal.IntToDecimal(500) == "500" && Decimal.IntToDecimal(200) == "200"
    ensures Decimal.IntToDecimal(400) == "400" && Decimal.IntToDecimal(50) == "50"
  {
    assert Decimal.NatDigits(1) == "1" && Decimal.NatDigits(2) == "2";
    assert Decimal.NatDigits(4) == "4" && Decimal.NatDigits(5) == "5";
    assert Decimal.NatDigits(10) == "10" && Decimal.NatDigits(20) == "20";
    assert Decimal.NatDigits(40) == "40" && Decimal.NatDigits(50) == "50";
    assert Decimal.NatDigits(100) == "100" && Decimal.NatDigits(200) == "200";
    assert Decimal.NatDigits(400) == "400" && Decimal.NatDigits(500) == "500";
  }

  /** The ascent template filled with 1000, 2000 and 500, after the `Fail` level. */
  lemma AscentLineText()
    ensures "Fail" + (": " + (AscentField + (RangeIntro + ("1000" + (", " + ("2000" + ("], but got " + "500")))))))
         == "Fail: OS/2.usWinAscent" + " value should be in the range [" + "1000, 2000], but got 500"
  {
    var head := "Fail" + (": " + AscentField);
    var tail := "1000" + (", " + ("2000" + ("], but got " + "500")));
    assert head == "Fail: OS/2.usWinAscent";
    assert tail == "1000, 2000], but got 500";
    assert "Fail" + (": " + (AscentField + (RangeIntro + tail))) == head + RangeIntro + tail;
  }

  /** The descent template filled with 200, 400 and 50, after the `Fail` level. */
  lemma DescentLineText()
    ensures "Fail" + (": " + (DescentField + (RangeIntro + ("200" + (", " + ("400" + ("], but got " + "50")))))))
         == "Fail: OS/2.usWinDescent" + " value should be in the range [" + "200, 400], but got 50"
  {
    var head := "Fail" + (": " + DescentField);
    var tail := "200" + (", " + ("400" + ("], but got " + "50")));
    assert head == "Fail: OS/2.usWinDescent";
    assert tail == "200, 400], but got 50";
    assert "Fail" + (": " + (DescentField + (RangeIntro + tail))) == head + RangeIntro + tail;
  }

  lemma AscentExampleLine()
    ensures Render(Diagnostic(Fail, MetricsError(WinAscentOutsideExpecation(Range(1000, 2000), 500))))
         == "Fail: OS/2.usWinAscent" + " value should be in the range [" + "1000, 2000], but got 500"
  {
    ExampleDecimals();
    AscentLineText();
  }

  lemma DescentExampleLine()
    ensures Render(Diagnostic(Fail, MetricsError(WinDescentOutsideExpecation(Range(200, 400), 50))))
         == "Fail: OS/2.usWinDescent" + " value should be in the range [" + "200, 400], but got 50"
  {
    ExampleDecimals();
    DescentLineText();
  }

  /** usWinAscent = 500 lies below [1000, 2000]. */
  lemma ExampleAscentTooSmall()
    ensures Report(Font(Some(Os2(500, 300)), Some(Head(1000, -200))))
         == [Diagnostic(Fail, MetricsError(WinAscentOutsideExpecation(Range(1000, 2000), 500)))]
    ensures Render(Report(Font(Some(Os2(500, 300)), Some(Head(1000, -200))))[0])
         == "Fail: OS/2.usWinAscent" + " value should be in the range [" + "1000, 2000], but got 500"
  {
    AscentExampleLine();
  }

  /** usWinDescent = 50 lies below [200, 400]. */
  lemma ExampleDescentTooSmall()
    ensures Report(Font(Some(Os2(1500, 50)), Some(Head(1000, -200))))
         == [Diagnostic(Fail, MetricsError(WinDescentOutsideExpecation(Range(200, 400), 50)))]
    ensures Render(Report(Font(Some(Os2(1500, 50)), Some(Head(1000, -200))))[0])
         == "Fail: OS/2.usWinDescent" + " value should be in the range [" + "200, 400], but got 50"
  {
    DescentExampleLine();
  }
}
