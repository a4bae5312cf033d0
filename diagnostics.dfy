/**
 * The diagnostic model: a severity level and a message payload, and the
 * `Display` rendering `"<Level>: <message>"` with the payloads' fixed
 * message templates. The boxed, type-erased error of the program is the
 * closed datatype `Message` here.
 */
module Diagnostics {
  import opened Wrappers
  import opened Int32
  import opened Decimal

  /** Severity of a diagnostic. Only `Fail` is ever produced by the check. */
  datatype Level = Skip | Info | Warning | Fail

  /** `core::ops::RangeInclusive<i32>`: the bounds `lo..=hi`. */
  datatype Range = Range(lo: I32, hi: I32)
  {
    predicate Contains(v: int)
    {
      lo <= v <= hi
    }
  }

  datatype FontReadError = TableName(name: string)

  /** The variant names keep the program's own spelling ("Expecation"); they are never printed. */
  datatype WinMetricsError =
    | WinAscentOutsideExpecation(range: Range, got: I32)
    | WinDescentOutsideExpecation(range: Range, got: I32)

  /** The payload of a diagnostic: one of the two error enums. */
  datatype Message = ReadError(readError: FontReadError) | MetricsError(metricsError: WinMetricsError)

  datatype Diagnostic = Diagnostic(level: Level, message: Message)

  const CannotRead: string := "Cannot read "
  const TableSuffix: string := " table"
  const AscentField: string := "OS/2.usWinAscent"
  const DescentField: string := "OS/2.usWinDescent"
  const RangeIntro: string := " value should be in the range ["
  const AscentPrefix: string := AscentField + RangeIntro
  const DescentPrefix: string := DescentField + RangeIntro
  const BoundSeparator: string := ", "
  const GotInfix: string := "], but got "
  const LevelSeparator: string := ": "

  /** The derived `Debug` text of a level: its variant name. */
  function LevelName(level: Level): string
  {
    match level
    case Skip => "Skip"
    case Info => "Info"
    case Warning => "Warning"
    case Fail => "Fail"
  }

  /** The range-report tail shared by both metric templates. */
  function RangeText(range: Range, got: I32): string
  {
    IntToDecimal(range.lo) + (BoundSeparator + (IntToDecimal(range.hi) + (GotInfix + IntToDecimal(got))))
  }

  function MessageText(message: Message): string
  {
    match message
    case ReadError(TableName(name)) => CannotRead + (name + TableSuffix)
    case MetricsError(WinAscentOutsideExpecation(range, got)) => AscentPrefix + RangeText(range, got)
    case MetricsError(WinDescentOutsideExpecation(range, got)) => DescentPrefix + RangeText(range, got)
  }

  /** `Display for Diagnostic`: the level's debug name, a colon, then the message. */
  function Render(d: Diagnostic): string
  {
    LevelName(d.level) + (LevelSeparator + MessageText(d.message))
  }

  predicate StartsWith(s: string, prefix: string)
  {
    |prefix| <= |s| && s[..|prefix|] == prefix
  }

  function ParseLevel(s: string): Option<(Level, string)>
  {
    if StartsWith(s, "Skip: ") then Some((Skip, s[6..]))
    else if StartsWith(s, "Info: ") then Some((Info, s[6..]))
    else if StartsWith(s, "Warning: ") then Some((Warning, s[9..]))
    else if StartsWith(s, "Fail: ") then Some((Fail, s[6..]))
    else None
  }

  /** Reads `lo, hi], but got v` back into its three i32 values. */
  function ParseRangeText(s: string): Option<(Range, I32)>
  {
    match ReadInt(s)
    case None => None
    case Some((lo, r1)) =>
      if !StartsWith(r1, BoundSeparator) then None
      else match ReadInt(r1[|BoundSeparator|..])
      case None => None
      case Some((hi, r2)) =>
        if !StartsWith(r2, GotInfix) then None
        else match ReadInt(r2[|GotInfix|..])
        case None => None
        case Some((got, r3)) =>
          if r3 == [] && MIN <= lo <= MAX && MIN <= hi <= MAX && MIN <= got <= MAX
          then Some((Range(lo, hi), got))
          else None
  }

  function ParseMessage(s: string): Option<Message>
  {
    if StartsWith(s, CannotRead) && |CannotRead| + |TableSuffix| <= |s| && s[|s| - |TableSuffix|..] == TableSuffix then
      Some(ReadError(TableName(s[|CannotRead|..|s| - |TableSuffix|])))
    else if StartsWith(s, AscentPrefix) then
      match ParseRangeText(s[|AscentPrefix|..])
      case None => None
      case Some((range, got)) => Some(MetricsError(WinAscentOutsideExpecation(range, got)))
    else if StartsWith(s, DescentPrefix) then
      match ParseRangeText(s[|DescentPrefix|..])
      case None => None
      case Some((range, got)) => Some(MetricsError(WinDescentOutsideExpecation(range, got)))
    else None
  }

  /** Reads a rendered diagnostic line back into the diagnostic. */
  function ParseDiagnostic(s: string): Option<Diagnostic>
  {
    match ParseLevel(s)
    case None => None
    case Some((level, rest)) =>
      match ParseMessage(rest)
      case None => None
      case Some(message) => Some(Diagnostic(level, message))
  }

  lemma PrefixSplit(prefix: string, rest: string)
    ensures StartsWith(prefix + rest, prefix)
    ensures (prefix + rest)[|prefix|..] == rest
  {
    assert (prefix + rest)[..|prefix|] == prefix;
  }

  lemma NotStartsWith(s: string, prefix: string, i: nat)
    requires i < |s| && i < |prefix| && s[i] != prefix[i]
    ensures !StartsWith(s, prefix)
  {
    if |prefix| <= |s| {
      assert s[..|prefix|][i] == s[i];
    }
  }

  lemma {:induction false} ReadIntBeforeLiteral(i: int, literal: string, rest: string)
    requires literal != [] && !IsDigit(literal[0])
    ensures ReadInt(IntToDecimal(i) + (literal + rest)) == Some((i, literal + rest))
    ensures StartsWith(literal + rest, literal) && (literal + rest)[|literal|..] == rest
  {
    assert (literal + rest)[0] == literal[0];
    ReadIntOfDecimal(i, literal + rest);
    PrefixSplit(literal, rest);
  }

  lemma {:induction false} ParseRangeTextOfRender(range: Range, got: I32)
    ensures ParseRangeText(RangeText(range, got)) == Some((range, got))
  {
    var tail := IntToDecimal(got);
    var mid := IntToDecimal(range.hi) + (GotInfix + tail);
    assert BoundSeparator[0] == ',';
    ReadIntBeforeLiteral(range.lo, BoundSeparator, mid);
    assert GotInfix[0] == ']';
    ReadIntBeforeLiteral(range.hi, GotInfix, tail);
    ReadIntOfDecimal(got, []);
    assert tail + [] == tail;
  }

  lemma {:induction false} ParseMessageOfRender(m: Message)
    ensures ParseMessage(MessageText(m)) == Some(m)
  {
    var s := MessageText(m);
    match m
    case ReadError(TableName(name)) =>
      PrefixSplit(CannotRead, name + TableSuffix);
      assert s[|s| - |TableSuffix|..] == TableSuffix;
      assert s[|CannotRead|..|s| - |TableSuffix|] == name;
    case MetricsError(WinAscentOutsideExpecation(range, got)) =>
      PrefixSplit(AscentPrefix, RangeText(range, got));
      assert s == AscentPrefix + RangeText(range, got);
      assert s[0] == AscentPrefix[0] == 'O';
      NotStartsWith(s, CannotRead, 0);
      ParseRangeTextOfRender(range, got);
    case MetricsError(WinDescentOutsideExpecation(range, got)) =>
      PrefixSplit(DescentPrefix, RangeText(range, got));
      assert s == DescentPrefix + RangeText(range, got);
      assert s[0] == DescentPrefix[0] == 'O' && s[10] == DescentPrefix[10] == 'D';
      NotStartsWith(s, CannotRead, 0);
      NotStartsWith(s, AscentPrefix, 10);
      ParseRangeTextOfRender(range, got);
  }

  /**
   * The rendered line loses nothing: the level, the table name, the range
   * bounds and the actual value can all be read back from it.
   */
  lemma {:induction false} ParseRender(d: Diagnostic)
    ensures ParseDiagnostic(Render(d)) == Some(d)
  {
    var s := Render(d);
    var head := LevelName(d.level) + LevelSeparator;
    PrefixSplit(head, MessageText(d.message));
    assert s == head + MessageText(d.message);
    match d.level {
      case Skip =>
        assert head == "Skip: ";
      case Info =>
        assert head == "Info: ";
        NotStartsWith(s, "Skip: ", 0);
      case Warning =>
        assert head == "Warning: ";
        NotStartsWith(s, "Skip: ", 0);
        NotStartsWith(s, "Info: ", 0);
      case Fail =>
        assert head == "Fail: ";
        NotStartsWith(s, "Skip: ", 0);
        NotStartsWith(s, "Info: ", 0);
        NotStartsWith(s, "Warning: ", 0);
    }
    assert ParseLevel(s) == Some((d.level, MessageText(d.message)));
    ParseMessageOfRender(d.message);
  }

  /** Different diagnostics never print as the same line. */
  lemma RenderInjective(d1: Diagnostic, d2: Diagnostic)
    ensures Render(d1) == Render(d2) ==> d1 == d2
  {
    ParseRender(d1);
    ParseRender(d2);
  }
}
