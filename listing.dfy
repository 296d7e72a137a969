/**
 * The text-reading rules that the in-state `read_file` (src/deepagents/tools.py) and the
 * on-disk readers (src/deepagents/real_fs_tools.py, src/deepagents/local_fs_tools.py) share:
 * the empty-contents reminder, the offset check, and the `cat -n` style numbering with
 * 2000-character truncation.
 */
module Listing {
  import opened Wrappers
  import opened Text

  /** Lines longer than this are cut. */
  const MaxLineLength: nat := 2000

  /** Width of the right-aligned line number. */
  const NumberWidth: nat := 6

  /** `line[:2000]` when the line is longer than 2000 characters. */
  function Truncate(line: string): (r: string)
    ensures r <= line && |r| == Min(|line|, MaxLineLength)
  {
    if |line| > MaxLineLength then line[..MaxLineLength] else line
  }

  /** `f"{number:6d}\t{content}"` with the content truncated. */
  function FormatLine(number: int, line: string): string {
    FormatInt(number, NumberWidth) + "\t" + Truncate(line)
  }

  /** The position Python's `lines[i]` reads, for `-n <= i < n`. */
  function PyIndex(i: int, n: nat): nat
    requires 0 <= i + n && i < n
  {
    if i < 0 then i + n else i
  }

  /** What a read reports before it is turned into the tool's reply text. */
  datatype ReadOutcome =
    | NotFound
    | NotAFile
    | EmptyContents
    | OffsetTooLarge(offset: int, count: nat)
    | IndexOutOfRange
    | Listed(lines: seq<string>)

  /** The numbered lines for the indices `start, start + 1, ..., end - 1`. */
  function NumberedRange(lines: seq<string>, start: int, end: int): (r: seq<string>)
    requires start < end ==> -|lines| <= start && end <= |lines|
    ensures |r| == Max(0, end - start)
    ensures forall k :: 0 <= k < |r| ==> r[k] == FormatLine(start + k + 1, lines[PyIndex(start + k, |lines|)])
  {
    if start >= end then []
    else seq(end - start, k requires 0 <= k < end - start =>
                             FormatLine(start + k + 1, lines[PyIndex(start + k, |lines|)]))
  }

  lemma NumberedRangeStep(lines: seq<string>, start: int, i: int)
    requires -|lines| <= start <= i < |lines|
    ensures NumberedRange(lines, start, i + 1)
            == NumberedRange(lines, start, i) + [FormatLine(i + 1, lines[PyIndex(i, |lines|)])]
  {
    var longer := NumberedRange(lines, start, i + 1);
    var shorter := NumberedRange(lines, start, i);
    var last := FormatLine(i + 1, lines[PyIndex(i, |lines|)]);
    assert |longer| == |shorter| + 1;
    forall k | 0 <= k < |longer|
      ensures longer[k] == (shorter + [last])[k]
    {
      if k < |shorter| {
        assert longer[k] == shorter[k];
      }
    }
  }

  /** The offset check and the window `range(offset, min(offset + limit, len(lines)))`. */
  function Window(lines: seq<string>, offset: int, limit: int): ReadOutcome {
    var n := |lines|;
    if offset >= n then OffsetTooLarge(offset, n)
    else
      var end := Min(offset + limit, n);
      if offset < end && offset < -n then IndexOutOfRange
      else Listed(NumberedRange(lines, offset, end))
  }

  /** What a read of the text `content` reports. */
  function ReadText(content: string, offset: int, limit: int): ReadOutcome {
    if content == [] || Strip(content) == [] then EmptyContents
    else Window(SplitLines(content), offset, limit)
  }

  /** The shared read of a text: the emptiness reminder, then the numbered window of `splitlines`. */
  method ReadContent(content: string, offset: int, limit: int) returns (o: ReadOutcome)
    ensures o == ReadText(content, offset, limit)
  {
    if content == [] || Strip(content) == [] {
      return EmptyContents;
    }
    var lines := SplitLines(content);
    o := NumberLines(lines, offset, limit);
  }

  /** The numbering loop: one formatted line per index of the window, in order. */
  method NumberLines(lines: seq<string>, offset: int, limit: int) returns (r: ReadOutcome)
    ensures r == Window(lines, offset, limit)
  {
    var n := |lines|;
    var end := Min(offset + limit, n);
    if offset >= n {
      return OffsetTooLarge(offset, n);
    }
    var result: seq<string> := [];
    var i := offset;
    assert end <= n;
    while i < end
      invariant end <= n
      invariant offset <= i && (offset < end ==> i <= end) && (offset >= end ==> i == offset)
      invariant i > offset ==> -n <= offset
      invariant result == NumberedRange(lines, offset, i)
      decreases end - i
    {
      if i < -n {
        return IndexOutOfRange;
      }
      var lineContent := lines[PyIndex(i, n)];
      if |lineContent| > MaxLineLength {
        lineContent := lineContent[..MaxLineLength];
      }
      assert lineContent == Truncate(lines[PyIndex(i, n)]);
      NumberedRangeStep(lines, offset, i);
      result := result + [FormatInt(i + 1, NumberWidth) + "\t" + lineContent];
      i := i + 1;
    }
    if offset >= end {
      assert result == [];
    }
    r := Listed(result);
  }

  /**
   * The reply of a read of `path`; reading before the first line (`offset < -n`) raises
   * `IndexError`, which the in-state tool lets escape.
   */
  function ReadReply(path: string, o: ReadOutcome): Result<string, Exception> {
    match o
    case NotFound => Ok("Error: File '" + path + "' not found")
    case NotAFile => Ok("Error: '" + path + "' is not a file")
    case EmptyContents => Ok("System reminder: File exists but has empty contents")
    case OffsetTooLarge(offset, count) =>
      Ok("Error: Line offset " + IntToString(offset) + " exceeds file length (" + IntToString(count) + " lines)")
    case IndexOutOfRange => Err(IndexError)
    case Listed(lines) => Ok(Join(lines, "\n"))
  }

  // ---------------------------------------------------------------------
  // Properties of a read

  /** The reminder is given exactly for empty or whitespace-only content. */
  lemma EmptyContentsIffBlank(content: string, offset: int, limit: int)
    ensures ReadText(content, offset, limit) == EmptyContents <==> IsBlank(content)
  {
    StripEmptyIffBlank(content);
  }

  /** Past the last line, a read reports the offset and the line count of `splitlines`. */
  lemma OffsetTooLargeIff(content: string, offset: int, limit: int)
    requires !IsBlank(content)
    ensures ReadText(content, offset, limit).OffsetTooLarge?
            <==> offset >= |SplitLines(content)|
    ensures ReadText(content, offset, limit).OffsetTooLarge?
            ==> ReadText(content, offset, limit) == OffsetTooLarge(offset, |SplitLines(content)|)
  {
    StripEmptyIffBlank(content);
  }

  /** A text that is not blank is read through its window. */
  lemma {:induction false} ReadTextWindow(content: string, offset: int, limit: int)
    requires !IsBlank(content)
    ensures ReadText(content, offset, limit) == Window(SplitLines(content), offset, limit)
  {
    StripEmptyIffBlank(content);
  }

  /**
   * A window from a non-negative offset inside the lines has `min(offset + limit, n) - offset`
   * lines (none for a non-positive limit); line `k` is line `offset + k` under the number
   * `offset + k + 1`.
   */
  lemma {:induction false} WindowShape(lines: seq<string>, offset: int, limit: int)
    requires 0 <= offset < |lines|
    ensures Window(lines, offset, limit).Listed?
    ensures var out := Window(lines, offset, limit).lines;
            |out| == Max(0, Min(offset + limit, |lines|) - offset)
            && forall k :: 0 <= k < |out| ==> out[k] == FormatLine(offset + k + 1, lines[offset + k])
  {
    var out := NumberedRange(lines, offset, Min(offset + limit, |lines|));
    assert Window(lines, offset, limit) == Listed(out);
    forall k | 0 <= k < |out|
      ensures out[k] == FormatLine(offset + k + 1, lines[offset + k])
    {
      assert PyIndex(offset + k, |lines|) == offset + k;
    }
  }

  // ---------------------------------------------------------------------
  // Reading the numbering back

  /** Index of the first tab in `s`, or `|s|`. */
  function TabIndex(s: string): (t: nat)
    ensures t <= |s| && (t < |s| ==> s[t] == '\t')
    ensures forall m :: 0 <= m < t ==> s[m] != '\t'
  {
    if s == [] || s[0] == '\t' then 0 else 1 + TabIndex(s[1..])
  }

  /** Splits a numbered line into its number and its content, the inverse of `FormatLine`. */
  function ParseLine(s: string): Option<(nat, string)> {
    var t := TabIndex(s);
    if t == |s| then None
    else
      var digits := LStripChar(s[..t], ' ');
      if digits != [] && forall m :: 0 <= m < |digits| ==> IsDigit(digits[m]) then
        Some((DigitsValue(digits), s[t + 1..]))
      else None
  }

  lemma {:induction false} LStripSpaces(m: nat, d: string)
    requires d != [] && d[0] != ' '
    ensures LStripChar(Spaces(m) + d, ' ') == d
    decreases m
  {
    if m > 0 {
      assert (Spaces(m) + d)[1..] == Spaces(m - 1) + d;
      LStripSpaces(m - 1, d);
    } else {
      assert Spaces(0) + d == d;
    }
  }

  lemma NoTabBefore(prefix: string, rest: string)
    requires forall m :: 0 <= m < |prefix| ==> prefix[m] != '\t'
    ensures TabIndex(prefix + "\t" + rest) == |prefix|
    decreases |prefix|
  {
    if prefix != [] {
      assert (prefix + "\t" + rest)[1..] == prefix[1..] + "\t" + rest;
      NoTabBefore(prefix[1..], rest);
    }
  }

  /** The right-aligned number is padding spaces followed by the decimal digits. */
  lemma FormatNatShape(number: nat)
    ensures var digits := NatToString(number);
            FormatInt(number, NumberWidth)
            == Spaces(if |digits| >= NumberWidth then 0 else NumberWidth - |digits|) + digits
  {
    assert Spaces(0) + NatToString(number) == NatToString(number);
  }

  lemma NoTabInNumber(m: nat, digits: string)
    requires forall k :: 0 <= k < |digits| ==> IsDigit(digits[k])
    ensures forall k :: 0 <= k < |Spaces(m) + digits| ==> (Spaces(m) + digits)[k] != '\t'
  {
  }

  /** A numbered line gives back its number and its (truncated) content. */
  lemma {:induction false} ParseFormatLine(number: nat, line: string)
    ensures ParseLine(FormatLine(number, line)) == Some((number, Truncate(line)))
  {
    var digits := NatToString(number);
    var m := if |digits| >= NumberWidth then 0 else NumberWidth - |digits|;
    FormatNatShape(number);
    assert FormatLine(number, line) == Spaces(m) + digits + "\t" + Truncate(line);
    ParseNumbered(m, digits, Truncate(line));
    NatToStringValue(number);
  }

  /** Padding, digits, a tab and a rest parse back to the digits' value and the rest. */
  lemma {:induction false} ParseNumbered(m: nat, digits: string, rest: string)
    requires digits != [] && forall k :: 0 <= k < |digits| ==> IsDigit(digits[k])
    ensures ParseLine(Spaces(m) + digits + "\t" + rest) == Some((DigitsValue(digits), rest))
  {
    var prefix := Spaces(m) + digits;
    NoTabInNumber(m, digits);
    var s := prefix + "\t" + rest;
    NoTabBefore(prefix, rest);
    assert s[..|prefix|] == prefix;
    assert s[|prefix| + 1..] == rest;
    assert IsDigit(digits[0]);
    LStripSpaces(m, digits);
  }

  /**
   * What `write_file` stored can be read back: reading non-blank content from offset 0 with a
   * limit covering every line lists each line of `splitlines` under its 1-based number, whole
   * when no line is longer than 2000 characters.
   */
  lemma ReadBack(content: string, limit: int)
    requires !IsBlank(content) && limit >= |SplitLines(content)|
    requires forall k :: 0 <= k < |SplitLines(content)| ==> |SplitLines(content)[k]| <= MaxLineLength
    ensures ReadText(content, 0, limit).Listed?
    ensures var out := ReadText(content, 0, limit).lines;
            var lines := SplitLines(content);
            |out| == |lines|
            && forall k :: 0 <= k < |out| ==> ParseLine(out[k]) == Some((k + 1, lines[k]))
  {
    StripEmptyIffBlank(content);
    var lines := SplitLines(content);
    assert lines != [];
    var out := ReadText(content, 0, limit).lines;
    forall k | 0 <= k < |out|
      ensures ParseLine(out[k]) == Some((k + 1, lines[k]))
    {
      ParseFormatLine(k + 1, lines[k]);
    }
  }
}
