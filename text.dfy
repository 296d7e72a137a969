/**
 * Python string operations the tools rely on, with Python's semantics:
 * whitespace and line boundaries as `str.isspace` and `str.splitlines`
 * define them, `in`, `str.count` and `str.replace` (including the
 * empty-pattern cases), `strip`, `split()`, `lower` (ASCII only) and
 * the decimal formatting behind `{:6d}`.
 */
module Text {
  import opened Wrappers

  /** Characters for which Python's `str.isspace()` holds. */
  predicate IsSpace(c: char) {
    c == ' ' || c == '\t' || c == '\n' || c == '\r' || c == '\U{B}' || c == '\U{C}'
    || c == '\U{1C}' || c == '\U{1D}' || c == '\U{1E}' || c == '\U{1F}'
    || c == '\U{85}' || c == '\U{A0}' || c == '\U{1680}'
    || ('\U{2000}' <= c <= '\U{200A}')
    || c == '\U{2028}' || c == '\U{2029}' || c == '\U{202F}' || c == '\U{205F}' || c == '\U{3000}'
  }

  /** Characters at which Python's `str.splitlines()` ends a line. */
  predicate IsLineBreak(c: char) {
    c == '\n' || c == '\r' || c == '\U{B}' || c == '\U{C}'
    || c == '\U{1C}' || c == '\U{1D}' || c == '\U{1E}'
    || c == '\U{85}' || c == '\U{2028}' || c == '\U{2029}'
  }

  /** Every character of `s` is whitespace (the empty string included). */
  predicate IsBlank(s: string) {
    forall i :: 0 <= i < |s| ==> IsSpace(s[i])
  }

  predicate NoLineBreak(s: string) {
    forall i :: 0 <= i < |s| ==> !IsLineBreak(s[i])
  }

  // ---------------------------------------------------------------------
  // strip / lstrip / rstrip

  /** `s.lstrip()` */
  function LStrip(s: string): (r: string)
    ensures |r| <= |s| && r == s[|s| - |r|..]
    ensures r != [] ==> !IsSpace(r[0])
    ensures IsBlank(s[..|s| - |r|])
  {
    if s != [] && IsSpace(s[0]) then
      var r := LStrip(s[1..]);
      assert s[1..][..|s| - 1 - |r|] == s[1..|s| - |r|];
      r
    else s
  }

  /** `s.rstrip()` */
  function RStrip(s: string): (r: string)
    ensures |r| <= |s| && r == s[..|r|]
    ensures r != [] ==> !IsSpace(r[|r| - 1])
    ensures IsBlank(s[|r|..])
  {
    if s != [] && IsSpace(s[|s| - 1]) then
      var r := RStrip(s[..|s| - 1]);
      assert s[|r|..] == s[..|s| - 1][|r|..] + [s[|s| - 1]];
      BlankSnoc(s[..|s| - 1][|r|..], s[|s| - 1]);
      r
    else s
  }

  lemma BlankSnoc(b: string, c: char)
    requires IsBlank(b) && IsSpace(c)
    ensures IsBlank(b + [c])
  {
    forall i | 0 <= i < |b| + 1
      ensures IsSpace((b + [c])[i])
    {
      if i < |b| {
        assert (b + [c])[i] == b[i];
      }
    }
  }

  /** `s.strip()` */
  function Strip(s: string): string {
    RStrip(LStrip(s))
  }

  /** The source's emptiness test `not s or s.strip() == ""` holds exactly of blank strings. */
  lemma StripEmptyIffBlank(s: string)
    ensures (s == [] || Strip(s) == []) <==> IsBlank(s)
  {
    var l := LStrip(s);
    if Strip(s) == [] {
      assert IsBlank(l[0..]);
      assert s == s[..|s| - |l|] + l;
    }
  }

  /** `s.rstrip(c)` for one character `c`. */
  function RStripChar(s: string, c: char): (r: string)
    ensures r <= s
    ensures r != [] ==> r[|r| - 1] != c
  {
    if s != [] && s[|s| - 1] == c then RStripChar(s[..|s| - 1], c) else s
  }

  /** `s.lstrip(c)` for one character `c`. */
  function LStripChar(s: string, c: char): (r: string)
    ensures |r| <= |s| && r == s[|s| - |r|..]
    ensures r != [] ==> r[0] != c
  {
    if s != [] && s[0] == c then LStripChar(s[1..], c) else s
  }

  /** `s.rstrip("\n\r")` */
  function RStripNewlines(s: string): (r: string)
    ensures r <= s
    ensures r != [] ==> r[|r| - 1] != '\n' && r[|r| - 1] != '\r'
  {
    if s != [] && (s[|s| - 1] == '\n' || s[|s| - 1] == '\r') then RStripNewlines(s[..|s| - 1]) else s
  }

  // ---------------------------------------------------------------------
  // splitlines

  /** Index of the first line break at or after `i`, or `|s|` when there is none. */
  function NextBreak(s: string, i: nat): (k: nat)
    requires i <= |s|
    ensures i <= k <= |s|
    ensures forall m :: i <= m < k ==> !IsLineBreak(s[m])
    ensures k < |s| ==> IsLineBreak(s[k])
    decreases |s| - i
  {
    if i == |s| || IsLineBreak(s[i]) then i else NextBreak(s, i + 1)
  }

  /** What follows the line break at `k`: a `\r\n` pair counts as one break. */
  function AfterBreak(s: string, k: nat): string
    requires k < |s|
  {
    if s[k] == '\r' && k + 1 < |s| && s[k + 1] == '\n' then s[k + 2..] else s[k + 1..]
  }

  /** `s.splitlines()`: the lines of `s` without their terminators; no empty last line for a final break. */
  function SplitLines(s: string): (lines: seq<string>)
    ensures s == [] <==> lines == []
    ensures forall k :: 0 <= k < |lines| ==> NoLineBreak(lines[k])
    decreases |s|
  {
    if s == [] then []
    else
      var k := NextBreak(s, 0);
      var line := s[..k];
      assert NoLineBreak(line);
      if k == |s| then [line] else [line] + SplitLines(AfterBreak(s, k))
  }

  /** `sep.join(parts)` */
  function Join(parts: seq<string>, sep: string): string {
    if parts == [] then []
    else if |parts| == 1 then parts[0]
    else parts[0] + sep + Join(parts[1..], sep)
  }

  lemma JoinCons(first: string, parts: seq<string>, sep: string)
    requires parts != []
    ensures Join([first] + parts, sep) == first + sep + Join(parts, sep)
  {
    assert ([first] + parts)[1..] == parts;
  }

  lemma JoinStep(line: string, rest: string, lines: seq<string>, suffix: string)
    requires lines != [] && rest == Join(lines, "\n") + suffix
    ensures line + "\n" + rest == Join([line] + lines, "\n") + suffix
  {
    JoinCons(line, lines, "\n");
  }

  /** `"\n".join(s.splitlines())` gives `s` back, up to one final newline, when `\n` is the only break in `s`. */
  lemma {:induction false} SplitLinesJoin(s: string)
    requires forall i :: 0 <= i < |s| ==> IsLineBreak(s[i]) ==> s[i] == '\n'
    ensures s == Join(SplitLines(s), "\n") + (if s != [] && s[|s| - 1] == '\n' then "\n" else "")
    decreases |s|
  {
    if s != [] {
      var k := NextBreak(s, 0);
      if k < |s| {
        assert s[k] == '\n';
        var rest := AfterBreak(s, k);
        assert rest == s[k + 1..];
        assert s == s[..k] + "\n" + rest;
        if rest == [] {
          assert SplitLines(s) == [s[..k]];
        } else {
          SplitLinesJoin(rest);
          assert rest[|rest| - 1] == s[|s| - 1];
          var lines := SplitLines(rest);
          assert SplitLines(s) == [s[..k]] + lines;
          JoinStep(s[..k], rest, lines, if s[|s| - 1] == '\n' then "\n" else "");
        }
      } else {
        assert s[..k] == s;
        assert !IsLineBreak(s[|s| - 1]);
      }
    }
  }

  // ---------------------------------------------------------------------
  // Text-mode reading (universal newlines) and readlines

  /** What a text-mode read returns: `\r\n` and a lone `\r` both become `\n`. */
  function TranslateNewlines(s: string): (r: string)
    ensures forall i :: 0 <= i < |r| ==> r[i] != '\r'
    decreases |s|
  {
    if s == [] then []
    else if s[0] == '\r' then
      "\n" + TranslateNewlines(if |s| > 1 && s[1] == '\n' then s[2..] else s[1..])
    else [s[0]] + TranslateNewlines(s[1..])
  }

  /** Text without `\r` reads back unchanged. */
  lemma {:induction false} TranslateWithoutCR(s: string)
    requires forall i :: 0 <= i < |s| ==> s[i] != '\r'
    ensures TranslateNewlines(s) == s
    decreases |s|
  {
    if s != [] {
      TranslateWithoutCR(s[1..]);
    }
  }

  /** Index of the first `\n` at or after `i`, or `|s|`. */
  function NextNewline(s: string, i: nat): (k: nat)
    requires i <= |s|
    ensures i <= k <= |s|
    ensures forall m :: i <= m < k ==> s[m] != '\n'
    ensures k < |s| ==> s[k] == '\n'
    decreases |s| - i
  {
    if i == |s| || s[i] == '\n' then i else NextNewline(s, i + 1)
  }

  /** `f.readlines()`: the lines of `s`, each keeping its `\n`. */
  function ReadLines(s: string): (lines: seq<string>)
    ensures forall k :: 0 <= k < |lines| ==> lines[k] != []
    decreases |s|
  {
    if s == [] then []
    else
      var k := NextNewline(s, 0);
      if k == |s| then [s] else [s[..k + 1]] + ReadLines(s[k + 1..])
  }

  /** The pieces of `s` between its `\n`s, without an empty last piece after a final `\n`. */
  function NewlineSegments(s: string): (lines: seq<string>)
    ensures forall k :: 0 <= k < |lines| ==> '\n' !in lines[k]
    decreases |s|
  {
    if s == [] then []
    else
      var k := NextNewline(s, 0);
      assert '\n' !in s[..k];
      [s[..k]] + (if k == |s| then [] else NewlineSegments(s[k + 1..]))
  }

  /** Each of `lines` with `rstrip("\n\r")` applied. */
  function StripEach(lines: seq<string>): (r: seq<string>)
    ensures |r| == |lines|
    ensures forall k :: 0 <= k < |r| ==> r[k] == RStripNewlines(lines[k])
  {
    seq(|lines|, k requires 0 <= k < |lines| => RStripNewlines(lines[k]))
  }

  /**
   * On text without `\r` (what a text-mode read returns), stripping each line `readlines`
   * gives yields the pieces between the newlines.
   */
  lemma {:induction false} StripReadLines(s: string)
    requires forall i :: 0 <= i < |s| ==> s[i] != '\r'
    ensures StripEach(ReadLines(s)) == NewlineSegments(s)
    decreases |s|
  {
    if s != [] {
      var k := NextNewline(s, 0);
      if k == |s| {
        assert RStripNewlines(s) == s;
        assert StripEach(ReadLines(s)) == [s];
        assert s[..k] == s;
      } else {
        var head := s[..k];
        assert s[..k + 1] == head + "\n";
        assert forall i :: 0 <= i < |head| ==> head[i] != '\r' && head[i] != '\n';
        StripLineEnd(head);
        StripReadLines(s[k + 1..]);
        StripEachCons(s[..k + 1], ReadLines(s[k + 1..]));
      }
    }
  }

  /** `(x + "\n").rstrip("\n\r") == x` for a line `x` without line ends. */
  lemma StripLineEnd(x: string)
    requires forall i :: 0 <= i < |x| ==> x[i] != '\r' && x[i] != '\n'
    ensures RStripNewlines(x + "\n") == x
  {
    assert (x + "\n")[..|x|] == x;
    if x != [] {
      assert x[|x| - 1] != '\n' && x[|x| - 1] != '\r';
    }
  }

  lemma StripEachCons(line: string, rest: seq<string>)
    ensures StripEach([line] + rest) == [RStripNewlines(line)] + StripEach(rest)
  {
  }

  // ---------------------------------------------------------------------
  // Substring search: `sub in s`, `s.count(sub)`, `s.replace(...)`

  predicate OccursAt(s: string, sub: string, i: nat) {
    i + |sub| <= |s| && s[i..i + |sub|] == sub
  }

  /** Python's `sub in s`. */
  predicate Contains(s: string, sub: string) {
    exists i :: 0 <= i <= |s| && OccursAt(s, sub, i)
  }

  /** Position of the first occurrence of `sub` at or after `i` (`s.find(sub, i)`). */
  function FindFrom(s: string, sub: string, i: nat): (r: Option<nat>)
    requires i <= |s|
    ensures r.Some? ==> i <= r.value <= |s| && OccursAt(s, sub, r.value)
    ensures r.Some? ==> forall m :: i <= m < r.value ==> !OccursAt(s, sub, m)
    ensures r.None? ==> forall m :: i <= m <= |s| ==> !OccursAt(s, sub, m)
    decreases |s| - i
  {
    if OccursAt(s, sub, i) then Some(i)
    else if i == |s| then None
    else FindFrom(s, sub, i + 1)
  }

  /** `s.find(sub)` finds an occurrence exactly when `sub in s`. */
  lemma FindIffContains(s: string, sub: string)
    ensures FindFrom(s, sub, 0).Some? <==> Contains(s, sub)
  {
    if Contains(s, sub) {
      var i :| 0 <= i <= |s| && OccursAt(s, sub, i);
    }
  }

  /** `s.count(sub)`: non-overlapping occurrences scanned left to right; `|s| + 1` for an empty `sub`. */
  function Count(s: string, sub: string): nat
    decreases |s|
  {
    if |sub| == 0 then |s| + 1
    else if sub <= s then 1 + Count(s[|sub|..], sub)
    else if s == [] then 0
    else Count(s[1..], sub)
  }

  lemma OccursAtShift(s: string, sub: string, i: nat)
    requires s != []
    ensures OccursAt(s, sub, i + 1) <==> OccursAt(s[1..], sub, i)
  {
    if i + 1 + |sub| <= |s| {
      assert s[i + 1..i + 1 + |sub|] == s[1..][i..i + |sub|];
    }
  }

  /** `s.count(sub)` is positive exactly when `sub in s`. */
  lemma {:induction false} CountPositiveIffContains(s: string, sub: string)
    ensures Count(s, sub) > 0 <==> Contains(s, sub)
    decreases |s|
  {
    if |sub| == 0 {
      assert OccursAt(s, sub, 0);
    } else if sub <= s {
      assert OccursAt(s, sub, 0);
    } else if s == [] {
      assert forall i :: 0 <= i <= |s| ==> !OccursAt(s, sub, i);
    } else {
      CountPositiveIffContains(s[1..], sub);
      assert !OccursAt(s, sub, 0);
      if Contains(s, sub) {
        var i :| 0 <= i <= |s| && OccursAt(s, sub, i);
        OccursAtShift(s, sub, i - 1);
        assert OccursAt(s[1..], sub, i - 1);
      }
      if Contains(s[1..], sub) {
        var i :| 0 <= i <= |s[1..]| && OccursAt(s[1..], sub, i);
        OccursAtShift(s, sub, i);
      }
    }
  }

  /** `s.replace(target, repl)`: every non-overlapping occurrence, left to right; an empty `target` inserts `repl` around every character. */
  function ReplaceAll(s: string, target: string, repl: string): string
    decreases |s|
  {
    if |target| == 0 then
      if s == [] then repl else repl + [s[0]] + ReplaceAll(s[1..], target, repl)
    else if target <= s then repl + ReplaceAll(s[|target|..], target, repl)
    else if s == [] then []
    else [s[0]] + ReplaceAll(s[1..], target, repl)
  }

  /** `s.replace(target, repl, 1)`: only the first occurrence. */
  function ReplaceFirst(s: string, target: string, repl: string): string {
    if |target| == 0 then repl + s
    else
      match FindFrom(s, target, 0)
      case None => s
      case Some(i) => s[..i] + repl + s[i + |target|..]
  }

  lemma MulSucc(c: nat, d: int)
    ensures (1 + c) * d == c * d + d
  {
  }

  /** Each replaced occurrence changes the length by `|repl| - |target|`. */
  lemma {:induction false} ReplaceAllLength(s: string, target: string, repl: string)
    ensures |ReplaceAll(s, target, repl)| == |s| + Count(s, target) * (|repl| - |target|)
    decreases |s|
  {
    var d := |repl| - |target|;
    if |target| == 0 {
      if s != [] {
        ReplaceAllLength(s[1..], target, repl);
        assert ReplaceAll(s, target, repl) == repl + [s[0]] + ReplaceAll(s[1..], target, repl);
        assert Count(s, target) == 1 + Count(s[1..], target);
        MulSucc(Count(s[1..], target), d);
      }
    } else if target <= s {
      var rest := s[|target|..];
      ReplaceAllLength(rest, target, repl);
      assert ReplaceAll(s, target, repl) == repl + ReplaceAll(rest, target, repl);
      assert Count(s, target) == 1 + Count(rest, target);
      MulSucc(Count(rest, target), d);
    } else if s != [] {
      ReplaceAllLength(s[1..], target, repl);
      assert ReplaceAll(s, target, repl) == [s[0]] + ReplaceAll(s[1..], target, repl);
      assert Count(s, target) == Count(s[1..], target);
    }
  }

  /** Replacing a string by itself changes nothing. */
  lemma {:induction false} ReplaceAllSelf(s: string, target: string)
    ensures ReplaceAll(s, target, target) == s
    decreases |s|
  {
    if |target| == 0 {
      if s != [] {
        ReplaceAllSelf(s[1..], target);
        assert s == [s[0]] + s[1..];
      }
    } else if target <= s {
      ReplaceAllSelf(s[|target|..], target);
      assert s == s[..|target|] + s[|target|..];
    } else if s != [] {
      ReplaceAllSelf(s[1..], target);
      assert s == [s[0]] + s[1..];
    }
  }

  /** Without an occurrence of a non-empty `target`, `replace` returns its input. */
  lemma {:induction false} ReplaceAllAbsent(s: string, target: string, repl: string)
    requires |target| > 0 && !Contains(s, target)
    ensures ReplaceAll(s, target, repl) == s
    decreases |s|
  {
    assert !OccursAt(s, target, 0);
    if s != [] {
      if Contains(s[1..], target) {
        var i :| 0 <= i <= |s[1..]| && OccursAt(s[1..], target, i);
        OccursAtShift(s, target, i);
        assert false;
      }
      ReplaceAllAbsent(s[1..], target, repl);
      assert s == [s[0]] + s[1..];
    }
  }

  /** Where `target` does not start, one character is copied. */
  lemma ReplaceAllStep(s: string, target: string, repl: string)
    requires |target| > 0 && s != [] && !OccursAt(s, target, 0)
    ensures ReplaceAll(s, target, repl) == [s[0]] + ReplaceAll(s[1..], target, repl)
  {
  }

  /** Where `target` does not start, nothing is counted. */
  lemma CountStep(s: string, target: string)
    requires |target| > 0 && s != [] && !OccursAt(s, target, 0)
    ensures Count(s, target) == Count(s[1..], target)
  {
  }

  lemma NoOccurrenceShift(s: string, target: string, i: nat)
    requires s != [] && 0 < i <= |s|
    requires forall m :: 0 <= m < i ==> !OccursAt(s, target, m)
    ensures forall m :: 0 <= m < i - 1 ==> !OccursAt(s[1..], target, m)
  {
    forall m | 0 <= m < i - 1
      ensures !OccursAt(s[1..], target, m)
    {
      OccursAtShift(s, target, m);
    }
  }

  /** Before the first occurrence nothing is replaced. */
  lemma {:induction false} ReplaceAllSkip(s: string, target: string, repl: string, i: nat)
    requires |target| > 0 && i <= |s|
    requires forall m :: 0 <= m < i ==> !OccursAt(s, target, m)
    ensures ReplaceAll(s, target, repl) == s[..i] + ReplaceAll(s[i..], target, repl)
    decreases i
  {
    if i == 0 {
      assert s[..0] == [] && s[0..] == s;
    } else {
      var t := s[1..];
      assert !OccursAt(s, target, 0);
      ReplaceAllStep(s, target, repl);
      NoOccurrenceShift(s, target, i);
      ReplaceAllSkip(t, target, repl, i - 1);
      SkipConcat(s, i, ReplaceAll(s[i..], target, repl));
    }
  }

  lemma SkipConcat(s: string, i: nat, tail: string)
    requires 0 < i <= |s|
    ensures [s[0]] + (s[1..][..i - 1] + tail) == s[..i] + tail
    ensures s[1..][i - 1..] == s[i..]
  {
    assert s[..i] == [s[0]] + s[1..][..i - 1];
  }

  /** Before the first occurrence nothing is counted. */
  lemma {:induction false} CountSkip(s: string, target: string, i: nat)
    requires |target| > 0 && i <= |s|
    requires forall m :: 0 <= m < i ==> !OccursAt(s, target, m)
    ensures Count(s, target) == Count(s[i..], target)
    decreases i
  {
    if i == 0 {
      assert s[0..] == s;
    } else {
      assert !OccursAt(s, target, 0);
      CountStep(s, target);
      NoOccurrenceShift(s, target, i);
      CountSkip(s[1..], target, i - 1);
      assert s[1..][i - 1..] == s[i..];
    }
  }

  /** When `s.count(target) == 1`, replacing the first occurrence and replacing all of them agree. */
  lemma SingleOccurrenceReplace(s: string, target: string, repl: string)
    requires Count(s, target) == 1
    ensures ReplaceFirst(s, target, repl) == ReplaceAll(s, target, repl)
  {
    if |target| == 0 {
      assert s == [];
    } else {
      CountPositiveIffContains(s, target);
      FindIffContains(s, target);
      var i := FindFrom(s, target, 0).value;
      SingleOccurrenceAt(s, target, repl, i);
    }
  }

  lemma SingleOccurrenceAt(s: string, target: string, repl: string, i: nat)
    requires |target| > 0 && Count(s, target) == 1 && OccursAt(s, target, i)
    requires forall m :: 0 <= m < i ==> !OccursAt(s, target, m)
    ensures ReplaceAll(s, target, repl) == s[..i] + repl + s[i + |target|..]
  {
    ReplaceAllSkip(s, target, repl, i);
    CountSkip(s, target, i);
    var tail := s[i..];
    assert tail[..|target|] == s[i..i + |target|];
    assert tail[|target|..] == s[i + |target|..];
    SoleOccurrenceAtStart(tail, target, repl);
  }

  lemma SoleOccurrenceAtStart(tail: string, target: string, repl: string)
    requires |target| > 0 && |target| <= |tail| && tail[..|target|] == target
    requires Count(tail, target) == 1
    ensures ReplaceAll(tail, target, repl) == repl + tail[|target|..]
  {
    assert target <= tail;
    var rest := tail[|target|..];
    assert Count(rest, target) == 0;
    CountPositiveIffContains(rest, target);
    ReplaceAllAbsent(rest, target, repl);
  }

  // ---------------------------------------------------------------------
  // lower, words, numbers

  /** ASCII lower-casing of one character. */
  function LowerChar(c: char): char {
    if 'A' <= c <= 'Z' then (c as int + 32) as char else c
  }

  /** `s.lower()` restricted to ASCII letters. */
  function Lower(s: string): (r: string)
    ensures |r| == |s|
    ensures forall i :: 0 <= i < |s| ==> r[i] == LowerChar(s[i])
  {
    seq(|s|, i requires 0 <= i < |s| => LowerChar(s[i]))
  }

  /** Index of the first whitespace character in `s`, or `|s|`. */
  function WordEnd(s: string): (k: nat)
    ensures k <= |s|
    ensures forall m :: 0 <= m < k ==> !IsSpace(s[m])
    ensures k < |s| ==> IsSpace(s[k])
  {
    if s == [] || IsSpace(s[0]) then 0 else 1 + WordEnd(s[1..])
  }

  predicate IsWord(w: string) {
    w != [] && forall i :: 0 <= i < |w| ==> !IsSpace(w[i])
  }

  /** `s.split()`: the maximal runs of non-whitespace characters. */
  function Words(s: string): (ws: seq<string>)
    ensures forall k :: 0 <= k < |ws| ==> IsWord(ws[k])
    decreases |s|
  {
    var t := LStrip(s);
    if t == [] then []
    else
      var k := WordEnd(t);
      FirstWord(t);
      var rest := Words(t[k..]);
      AllWords(t[..k], rest);
      [t[..k]] + rest
  }

  lemma AllWords(w: string, ws: seq<string>)
    requires IsWord(w) && forall k :: 0 <= k < |ws| ==> IsWord(ws[k])
    ensures forall k :: 0 <= k < |[w] + ws| ==> IsWord(([w] + ws)[k])
  {
  }

  lemma FirstWord(t: string)
    requires t != [] && !IsSpace(t[0])
    ensures 0 < WordEnd(t) && IsWord(t[..WordEnd(t)])
  {
  }

  /** `s.split()` undoes `" ".join(words)`. */
  lemma {:induction false} WordsOfJoin(ws: seq<string>)
    requires forall k :: 0 <= k < |ws| ==> IsWord(ws[k])
    ensures Words(Join(ws, " ")) == ws
    decreases |ws|
  {
    if ws == [] {
    } else if |ws| == 1 {
      WordsSingle(ws[0]);
    } else {
      var rest := Join(ws[1..], " ");
      assert ws == [ws[0]] + ws[1..];
      JoinCons(ws[0], ws[1..], " ");
      WordsOfJoin(ws[1..]);
      JoinStartsWithWord(ws[1..]);
      WordsCons(ws[0], rest);
    }
  }

  lemma WordsSingle(w: string)
    requires IsWord(w)
    ensures Words(w) == [w]
  {
    assert LStrip(w) == w;
    WordEndAll(w);
    assert w[..|w|] == w;
    assert w[|w|..] == [];
  }

  lemma WordsCons(w: string, rest: string)
    requires IsWord(w) && rest != [] && !IsSpace(rest[0])
    ensures Words(w + " " + rest) == [w] + Words(rest)
  {
    var s := w + (" " + rest);
    assert s == w + " " + rest;
    assert s[0] == w[0];
    WordsUnfold(s);
    WordEndAt(w, " " + rest);
    assert s[..|w|] == w;
    assert s[|w|..] == " " + rest;
    LStripSpace(rest);
  }

  /** A string starting with a word splits into that word and the split of what follows it. */
  lemma WordsUnfold(s: string)
    requires s != [] && !IsSpace(s[0])
    ensures Words(s) == [s[..WordEnd(s)]] + Words(s[WordEnd(s)..])
  {
    assert LStrip(s) == s;
  }

  lemma LStripSpace(rest: string)
    ensures LStrip(" " + rest) == LStrip(rest)
    ensures Words(" " + rest) == Words(rest)
  {
    assert (" " + rest)[1..] == rest;
  }

  lemma WordEndAll(w: string)
    requires forall i :: 0 <= i < |w| ==> !IsSpace(w[i])
    ensures WordEnd(w) == |w|
  {
  }

  lemma {:induction false} WordEndAt(w: string, t: string)
    requires forall i :: 0 <= i < |w| ==> !IsSpace(w[i])
    requires t != [] && IsSpace(t[0])
    ensures WordEnd(w + t) == |w|
    decreases |w|
  {
    if w != [] {
      assert (w + t)[1..] == w[1..] + t;
      WordEndAt(w[1..], t);
    } else {
      assert w + t == t;
    }
  }

  lemma {:induction false} JoinStartsWithWord(ws: seq<string>)
    requires ws != [] && ws[0] != []
    ensures Join(ws, " ") != [] && Join(ws, " ")[0] == ws[0][0]
  {
  }

  function DigitChar(d: nat): char
    requires d < 10
  {
    ('0' as int + d) as char
  }

  predicate IsDigit(c: char) {
    '0' <= c <= '9'
  }

  /** Decimal digits of `n`, most significant first, without leading zeros. */
  function NatToString(n: nat): (r: string)
    ensures r != [] && forall i :: 0 <= i < |r| ==> IsDigit(r[i])
    decreases n
  {
    if n < 10 then [DigitChar(n)] else NatToString(n / 10) + [DigitChar(n % 10)]
  }

  /** The number a string of decimal digits denotes. */
  function DigitsValue(s: string): nat
    requires forall i :: 0 <= i < |s| ==> IsDigit(s[i])
  {
    if s == [] then 0
    else
      var d := s[|s| - 1];
      assert IsDigit(d);
      10 * DigitsValue(s[..|s| - 1]) + (d as int - '0' as int)
  }

  /** Reading back the decimal digits gives the number. */
  lemma {:induction false} NatToStringValue(n: nat)
    ensures DigitsValue(NatToString(n)) == n
    decreases n
  {
    if n >= 10 {
      NatToStringValue(n / 10);
      var r := NatToString(n);
      assert r[..|r| - 1] == NatToString(n / 10);
    }
  }

  /** Python's `str(i)` for an integer. */
  function IntToString(i: int): string {
    if i < 0 then "-" + NatToString(-i) else NatToString(i)
  }

  function Spaces(n: nat): (r: string)
    ensures |r| == n && forall i :: 0 <= i < n ==> r[i] == ' '
  {
    seq(n, _ => ' ')
  }

  /** Right-alignment to `width` characters, as in `f"{i:6d}"`; longer strings are kept whole. */
  function PadLeft(s: string, width: nat): string {
    if |s| >= width then s else Spaces(width - |s|) + s
  }

  /** `f"{i:{width}d}"` */
  function FormatInt(i: int, width: nat): string {
    PadLeft(IntToString(i), width)
  }

  // ---------------------------------------------------------------------
  // split(c, 1)

  /** The text before the first `c`. */
  function BeforeFirst(s: string, c: char): string {
    if s == [] || s[0] == c then [] else [s[0]] + BeforeFirst(s[1..], c)
  }

  /** `s.split(c, 1)[1]`: the text after the first `c` (empty when there is none). */
  function AfterFirst(s: string, c: char): string {
    if s == [] then [] else if s[0] == c then s[1..] else AfterFirst(s[1..], c)
  }

  lemma {:induction false} SplitAtFirst(head: string, c: char, tail: string)
    requires c !in head
    ensures BeforeFirst(head + [c] + tail, c) == head
    ensures AfterFirst(head + [c] + tail, c) == tail
    decreases |head|
  {
    if head != [] {
      assert (head + [c] + tail)[1..] == head[1..] + [c] + tail;
      SplitAtFirst(head[1..], c, tail);
    } else {
      assert (head + [c] + tail)[1..] == tail;
    }
  }

  /** A string holding `c` is the text before its first `c`, that `c`, and the text after it. */
  lemma {:induction false} FirstSplit(s: string, c: char)
    requires c in s
    ensures c !in BeforeFirst(s, c) && s == BeforeFirst(s, c) + [c] + AfterFirst(s, c)
    decreases |s|
  {
    if s[0] != c {
      FirstSplit(s[1..], c);
      assert s == [s[0]] + s[1..];
    }
  }
}
