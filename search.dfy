/**
 * The line-matching core of `grep`, shared by the in-state tool (src/deepagents/tools.py)
 * and the on-disk tool (src/deepagents/local_fs_tools.py): files are searched in order,
 * each matching line is recorded with its context window, and the search stops once
 * `max_results` matches were recorded in total.
 */
module Search {
  import opened Wrappers
  import opened Text

  /** One entry of a match's context: the 1-based line number, its text, and whether it is the match. */
  datatype ContextLine = ContextLine(number: nat, content: string, isMatch: bool)

  /** A matching line: its 1-based number, its text and, when context was asked for, its window. */
  datatype LineMatch = LineMatch(number: nat, content: string, context: seq<ContextLine>)

  /** The matches of one file, in line order. */
  datatype FileHits = FileHits(name: string, matches: seq<LineMatch>)

  /** A file to search: its lines, or `None` when the tool skips it. */
  datatype Target = Target(name: string, lines: Option<seq<string>>)

  /** The non-regex test: `pattern in line`, or `pattern.lower() in line.lower()`. */
  function LiteralMatch(pattern: string, caseSensitive: bool, line: string): bool {
    if caseSensitive then Contains(line, pattern) else Contains(Lower(line), Lower(pattern))
  }

  /** First index of the context window of the match on line `number` (1-based). */
  function ContextStart(number: nat, contextLines: int): nat {
    Max(0, number - 1 - contextLines)
  }

  /** One past the last index of the window. */
  function ContextEnd(count: nat, number: nat, contextLines: int): int {
    Min(count, number + contextLines)
  }

  /** The window `range(max(0, n - 1 - c), min(len(lines), n + c))`, recorded only when `c > 0`. */
  function ContextOf(lines: seq<string>, number: nat, contextLines: int): (r: seq<ContextLine>)
    ensures contextLines <= 0 ==> r == []
  {
    if contextLines <= 0 then []
    else
      var start := ContextStart(number, contextLines);
      var end := ContextEnd(|lines|, number, contextLines);
      if end <= start then []
      else seq(end - start, k requires 0 <= k < end - start =>
                 ContextLine(start + k + 1, lines[start + k], start + k + 1 == number))
  }

  /** The matches among `lines[j..]` while `budget` more may be recorded. */
  function ScanFrom(lines: seq<string>, j: nat, matches: string -> bool, budget: int, contextLines: int): seq<LineMatch>
    requires j <= |lines|
    decreases |lines| - j
  {
    if j == |lines| || budget <= 0 then []
    else if matches(lines[j]) then
      [LineMatch(j + 1, lines[j], ContextOf(lines, j + 1, contextLines))]
      + ScanFrom(lines, j + 1, matches, budget - 1, contextLines)
    else ScanFrom(lines, j + 1, matches, budget, contextLines)
  }

  /** Every match among `lines[j..]`, without a cap. */
  function AllMatches(lines: seq<string>, j: nat, matches: string -> bool, contextLines: int): seq<LineMatch>
    requires j <= |lines|
    decreases |lines| - j
  {
    if j == |lines| then []
    else if matches(lines[j]) then
      [LineMatch(j + 1, lines[j], ContextOf(lines, j + 1, contextLines))]
      + AllMatches(lines, j + 1, matches, contextLines)
    else AllMatches(lines, j + 1, matches, contextLines)
  }

  /** The files' results from `targets[i..]` and the running match count. */
  function SearchFrom(targets: seq<Target>, i: nat, matches: string -> bool, total: nat, maxResults: int, contextLines: int)
    : (seq<FileHits>, nat)
    requires i <= |targets|
    decreases |targets| - i
  {
    if i == |targets| || total >= maxResults then ([], total)
    else match targets[i].lines
      case None => SearchFrom(targets, i + 1, matches, total, maxResults, contextLines)
      case Some(lines) =>
        var ms := ScanFrom(lines, 0, matches, maxResults - total, contextLines);
        var rest := SearchFrom(targets, i + 1, matches, total + |ms|, maxResults, contextLines);
        if ms == [] then rest else ([FileHits(targets[i].name, ms)] + rest.0, rest.1)
  }

  // ---------------------------------------------------------------------
  // The loops

  /** The context loop over `range(context_start, context_end)`. */
  method CollectContext(lines: seq<string>, number: nat, contextLines: int) returns (ctx: seq<ContextLine>)
    requires 1 <= number <= |lines|
    ensures ctx == ContextOf(lines, number, contextLines)
  {
    ctx := [];
    if contextLines > 0 {
      var start := Max(0, number - 1 - contextLines);
      var end := Min(|lines|, number + contextLines);
      var c := start;
      while c < end
        invariant start <= c && (start <= end ==> c <= end)
        invariant |ctx| == c - start
        invariant forall k :: 0 <= k < |ctx| ==>
                    ctx[k] == ContextLine(start + k + 1, lines[start + k], start + k + 1 == number)
        decreases end - c
      {
        ctx := ctx + [ContextLine(c + 1, lines[c], c + 1 == number)];
        c := c + 1;
      }
    }
  }

  /** The inner loop over one file's lines; `total` counts matches across files. */
  method ScanFile(lines: seq<string>, matches: string -> bool, total: nat, maxResults: int, contextLines: int)
    returns (found: seq<LineMatch>, newTotal: nat)
    requires total < maxResults
    ensures found == ScanFrom(lines, 0, matches, maxResults - total, contextLines)
    ensures newTotal == total + |found|
  {
    found := [];
    newTotal := total;
    var j := 0;
    while j < |lines|
      invariant j <= |lines| && newTotal == total + |found| && newTotal < maxResults
      invariant found + ScanFrom(lines, j, matches, maxResults - newTotal, contextLines)
                == ScanFrom(lines, 0, matches, maxResults - total, contextLines)
      decreases |lines| - j
    {
      if matches(lines[j]) {
        var ctx := CollectContext(lines, j + 1, contextLines);
        found := found + [LineMatch(j + 1, lines[j], ctx)];
        newTotal := newTotal + 1;
        if newTotal >= maxResults {
          assert ScanFrom(lines, j + 1, matches, maxResults - newTotal, contextLines) == [];
          return;
        }
      }
      j := j + 1;
    }
  }

  /** The outer loop over the files, stopping once `max_results` matches were recorded. */
  method SearchFiles(targets: seq<Target>, matches: string -> bool, maxResults: int, contextLines: int)
    returns (results: seq<FileHits>, total: nat)
    ensures (results, total) == SearchFrom(targets, 0, matches, 0, maxResults, contextLines)
  {
    results := [];
    total := 0;
    var i := 0;
    while i < |targets|
      invariant i <= |targets|
      invariant results + SearchFrom(targets, i, matches, total, maxResults, contextLines).0
                == SearchFrom(targets, 0, matches, 0, maxResults, contextLines).0
      invariant SearchFrom(targets, i, matches, total, maxResults, contextLines).1
                == SearchFrom(targets, 0, matches, 0, maxResults, contextLines).1
      decreases |targets| - i
    {
      if total >= maxResults {
        break;
      }
      match targets[i].lines {
        case None =>
        case Some(lines) =>
          var found, newTotal := ScanFile(lines, matches, total, maxResults, contextLines);
          if found != [] {
            results := results + [FileHits(targets[i].name, found)];
          }
          total := newTotal;
      }
      i := i + 1;
    }
    assert SearchFrom(targets, i, matches, total, maxResults, contextLines) == ([], total);
    assert results + [] == results;
  }

  // ---------------------------------------------------------------------
  // Properties

  /** A capped scan records the first `budget` matches of the file, all of them when fewer. */
  lemma {:induction false} ScanIsPrefix(lines: seq<string>, j: nat, matches: string -> bool, budget: int, contextLines: int)
    requires j <= |lines|
    ensures var all := AllMatches(lines, j, matches, contextLines);
            ScanFrom(lines, j, matches, budget, contextLines) == all[..Min(Max(budget, 0), |all|)]
    decreases |lines| - j
  {
    if j < |lines| && budget > 0 {
      ScanIsPrefix(lines, j + 1, matches, if matches(lines[j]) then budget - 1 else budget, contextLines);
    }
  }

  /** Every recorded match is a line that passes the test, under its 1-based number, in line order. */
  lemma {:induction false} AllMatchesSound(lines: seq<string>, j: nat, matches: string -> bool, contextLines: int)
    requires j <= |lines|
    ensures forall m :: m in AllMatches(lines, j, matches, contextLines) ==>
              j < m.number <= |lines| && m.content == lines[m.number - 1]
              && matches(m.content) && m.context == ContextOf(lines, m.number, contextLines)
    decreases |lines| - j
  {
    if j < |lines| {
      AllMatchesSound(lines, j + 1, matches, contextLines);
      var rest := AllMatches(lines, j + 1, matches, contextLines);
      var all := AllMatches(lines, j, matches, contextLines);
      if matches(lines[j]) {
        assert all == [all[0]] + rest;
      }
    }
  }

  lemma {:induction false} AllMatchesOrdered(lines: seq<string>, j: nat, matches: string -> bool, contextLines: int)
    requires j <= |lines|
    ensures forall k1, k2 :: 0 <= k1 < k2 < |AllMatches(lines, j, matches, contextLines)| ==>
              AllMatches(lines, j, matches, contextLines)[k1].number
              < AllMatches(lines, j, matches, contextLines)[k2].number
    decreases |lines| - j
  {
    if j < |lines| {
      AllMatchesOrdered(lines, j + 1, matches, contextLines);
      AllMatchesSound(lines, j + 1, matches, contextLines);
      var rest := AllMatches(lines, j + 1, matches, contextLines);
      var all := AllMatches(lines, j, matches, contextLines);
      if matches(lines[j]) {
        forall k1, k2 | 0 <= k1 < k2 < |all|
          ensures all[k1].number < all[k2].number
        {
          assert all[k2] == rest[k2 - 1];
          assert rest[k2 - 1] in rest;
          if k1 > 0 {
            assert all[k1] == rest[k1 - 1];
          }
        }
      }
    }
  }

  /** A line that passes the test is among the matches. */
  lemma {:induction false} AllMatchesComplete(lines: seq<string>, j: nat, matches: string -> bool, contextLines: int, m: nat)
    requires j <= m < |lines| && matches(lines[m])
    ensures exists k :: 0 <= k < |AllMatches(lines, j, matches, contextLines)|
                        && AllMatches(lines, j, matches, contextLines)[k].number == m + 1
    decreases |lines| - j
  {
    var all := AllMatches(lines, j, matches, contextLines);
    if m == j {
      assert all[0].number == m + 1;
    } else {
      AllMatchesComplete(lines, j + 1, matches, contextLines, m);
      var rest := AllMatches(lines, j + 1, matches, contextLines);
      var k :| 0 <= k < |rest| && rest[k].number == m + 1;
      if matches(lines[j]) {
        assert all[k + 1] == rest[k];
      } else {
        assert all[k] == rest[k];
      }
    }
  }

  /**
   * With `c > 0`, the window of the match on line `n` holds the lines
   * `max(0, n - 1 - c) + 1 .. min(len, n + c)` in order, the match line flagged and no other.
   */
  lemma ContextWindow(lines: seq<string>, number: nat, contextLines: int)
    requires 1 <= number <= |lines| && contextLines > 0
    ensures var ctx := ContextOf(lines, number, contextLines);
            var start := ContextStart(number, contextLines);
            |ctx| == ContextEnd(|lines|, number, contextLines) - start
            && (forall k :: 0 <= k < |ctx| ==>
                  ctx[k].number == start + k + 1 && ctx[k].content == lines[start + k]
                  && (ctx[k].isMatch <==> ctx[k].number == number))
            && (exists k :: 0 <= k < |ctx| && ctx[k].isMatch)
  {
    var ctx := ContextOf(lines, number, contextLines);
    var start := ContextStart(number, contextLines);
    assert ctx[number - 1 - start].isMatch;
  }

  /** The number of matches the search reports is the sum over the files and never exceeds the cap. */
  function TotalMatches(results: seq<FileHits>): nat {
    if results == [] then 0 else |results[0].matches| + TotalMatches(results[1..])
  }

  lemma {:induction false} SearchCounts(targets: seq<Target>, i: nat, matches: string -> bool, total: nat, maxResults: int, contextLines: int)
    requires i <= |targets|
    ensures var r := SearchFrom(targets, i, matches, total, maxResults, contextLines);
            r.1 == total + TotalMatches(r.0)
            && r.1 <= Max(maxResults, total)
            && forall k :: 0 <= k < |r.0| ==> r.0[k].matches != []
    decreases |targets| - i
  {
    if i < |targets| && total < maxResults {
      match targets[i].lines {
        case None =>
          SearchCounts(targets, i + 1, matches, total, maxResults, contextLines);
        case Some(lines) =>
          var ms := ScanFrom(lines, 0, matches, maxResults - total, contextLines);
          ScanIsPrefix(lines, 0, matches, maxResults - total, contextLines);
          SearchCounts(targets, i + 1, matches, total + |ms|, maxResults, contextLines);
          var rest := SearchFrom(targets, i + 1, matches, total + |ms|, maxResults, contextLines);
          if ms != [] {
            assert ([FileHits(targets[i].name, ms)] + rest.0)[1..] == rest.0;
          }
      }
    }
  }

  /**
   * Below the cap nothing is lost: when the search ends with fewer than `max_results`
   * matches, each searched file's result is every matching line of that file.
   */
  lemma {:induction false} SearchCompleteBelowCap(targets: seq<Target>, i: nat, matches: string -> bool, total: nat, maxResults: int, contextLines: int, t: nat)
    requires i <= t < |targets| && targets[t].lines.Some?
    requires SearchFrom(targets, i, matches, total, maxResults, contextLines).1 < maxResults
    ensures var all := AllMatches(targets[t].lines.value, 0, matches, contextLines);
            all == [] || FileHits(targets[t].name, all) in SearchFrom(targets, i, matches, total, maxResults, contextLines).0
    decreases |targets| - i
  {
    SearchCounts(targets, i, matches, total, maxResults, contextLines);
    var r := SearchFrom(targets, i, matches, total, maxResults, contextLines);
    assert total < maxResults;
    match targets[i].lines {
      case None =>
        SearchCompleteBelowCap(targets, i + 1, matches, total, maxResults, contextLines, t);
      case Some(lines) =>
        var ms := ScanFrom(lines, 0, matches, maxResults - total, contextLines);
        SearchCounts(targets, i + 1, matches, total + |ms|, maxResults, contextLines);
        var rest := SearchFrom(targets, i + 1, matches, total + |ms|, maxResults, contextLines);
        assert r.1 == rest.1 && rest.1 >= total + |ms|;
        assert r.0 == if ms == [] then rest.0 else [FileHits(targets[i].name, ms)] + rest.0;
        if t > i {
          SearchCompleteBelowCap(targets, i + 1, matches, total + |ms|, maxResults, contextLines, t);
        } else {
          ScanIsPrefix(lines, 0, matches, maxResults - total, contextLines);
          var all := AllMatches(lines, 0, matches, contextLines);
          assert ms == all;
          if ms != [] {
            assert r.0[0] == FileHits(targets[t].name, all);
          }
        }
    }
  }

  /**
   * Each reported file is one of the searched targets, with a non-empty prefix of that
   * target's matches.
   */
  lemma {:induction false} SearchResultsFromTargets(targets: seq<Target>, i: nat, matches: string -> bool, total: nat, maxResults: int, contextLines: int)
    requires i <= |targets|
    ensures forall h :: h in SearchFrom(targets, i, matches, total, maxResults, contextLines).0 ==>
              exists t :: i <= t < |targets| && targets[t].name == h.name && targets[t].lines.Some?
                          && h.matches != [] && h.matches <= AllMatches(targets[t].lines.value, 0, matches, contextLines)
    decreases |targets| - i
  {
    if i < |targets| && total < maxResults {
      match targets[i].lines {
        case None =>
          SearchResultsFromTargets(targets, i + 1, matches, total, maxResults, contextLines);
        case Some(lines) =>
          var ms := ScanFrom(lines, 0, matches, maxResults - total, contextLines);
          ScanIsPrefix(lines, 0, matches, maxResults - total, contextLines);
          SearchResultsFromTargets(targets, i + 1, matches, total + |ms|, maxResults, contextLines);
      }
    }
  }

  // ---------------------------------------------------------------------
  // The report

  /** The rendered lines of one match: its window and a blank line, or the line alone. */
  function MatchLines(m: LineMatch, contextLines: int): seq<string> {
    if contextLines > 0 then
      seq(|m.context|, k requires 0 <= k < |m.context| =>
            (if m.context[k].isMatch then ">" else " ") + " " + FormatInt(m.context[k].number, 4)
            + ": " + m.context[k].content)
      + [""]
    else ["  " + FormatInt(m.number, 4) + ": " + m.content]
  }

  function MatchesLines(ms: seq<LineMatch>, contextLines: int): seq<string> {
    if ms == [] then [] else MatchLines(ms[0], contextLines) + MatchesLines(ms[1..], contextLines)
  }

  /** One file's block: the icon and name, then its matches. */
  function FileBlock(icon: string, hits: FileHits, contextLines: int): string {
    Join([icon + " " + hits.name] + MatchesLines(hits.matches, contextLines), "\n")
  }

  function FileBlocks(icon: string, results: seq<FileHits>, contextLines: int): (r: seq<string>)
    ensures |r| == |results|
  {
    seq(|results|, k requires 0 <= k < |results| => FileBlock(icon, results[k], contextLines))
  }

  /**
   * The reply of a search that got as far as matching lines; `where` is the store's note
   * (" in mock filesystem" for the in-state store, empty on disk).
   */
  function GrepReport(icon: string, where: string, pattern: string, regex: bool, caseSensitive: bool,
                      maxResults: int, contextLines: int, results: seq<FileHits>, total: nat): string
  {
    if results == [] then
      "No matches found for " + (if regex then "regex pattern '" else "text '") + pattern + "'"
      + (if caseSensitive then " (case-sensitive)" else " (case-insensitive)") + where
    else
      "Found matches in " + IntToString(|results|) + " files" + where
      + (if total >= maxResults then " (limited to " + IntToString(maxResults) + " total matches)" else "")
      + ":\n" + "\n" + Join(FileBlocks(icon, results, contextLines), "\n\n")
  }

  /** How lines are tested: the literal test, or the search of an expression the caller compiled. */
  datatype Mode = Literal | Regex(compiled: Result<string -> bool, string>)

  /** The test applied to each line once the expression, if any, compiled. */
  function LineTest(pattern: string, caseSensitive: bool, mode: Mode): string -> bool
    requires mode.Literal? || mode.compiled.Ok?
  {
    if mode.Regex? then mode.compiled.value else line => LiteralMatch(pattern, caseSensitive, line)
  }
}
