/**
 * The on-disk `glob` and `grep` of src/deepagents/local_fs_tools.py. The directory walk
 * (`Path.glob` / `Path.rglob` with its pattern) is outside the model: each tool receives the
 * entries the walk yields, in the order it yields them, or the error the walk raises for a
 * pattern it refuses.
 */
module LocalSearch {
  import opened Wrappers
  import opened Text
  import opened StringOrder
  import opened Collect
  import opened Search
  import opened Disk

  /** An entry the walk yields: `str(match)` and the path it points to. */
  datatype Entry = Entry(shown: string, at: Path)

  /**
   * Iterating `Path.glob(pattern)` / `Path.rglob(pattern)`: the entries it yields, or `Err` with
   * the message of the exception its first step raises for a pattern it refuses (a `ValueError`
   * for an empty pattern, a `NotImplementedError` for an absolute one).
   */
  type Walk = Result<seq<Entry>, string>

  /** A file named to `grep`: the argument as given, `str(Path(arg))`, and the path it points to. */
  datatype Named = Named(arg: string, shown: string, at: Path)

  // ---------------------------------------------------------------------
  // glob

  /** An entry `glob` reports: a file, or a directory when `include_dirs` is set. */
  function GlobKeep(d: Drive, includeDirs: bool): Entry -> bool {
    (e: Entry) => e.at in d.files || (includeDirs && e.at in d.dirs)
  }

  /** How a kept entry is reported: a directory gets a trailing `/`. */
  function Shown(d: Drive, e: Entry): string {
    if e.at in d.files then e.shown else e.shown + "/"
  }

  function ShownAll(d: Drive, es: seq<Entry>): (r: seq<string>)
    ensures |r| == |es|
  {
    if es == [] then [] else [Shown(d, es[0])] + ShownAll(d, es[1..])
  }

  datatype GlobOutcome = RootMissing | RootNotADirectory | BadPattern(message: string) | Globbed(paths: seq<string>)

  /** The first `max_results` reported entries in walk order, then sorted. */
  function GlobRun(d: Drive, at: Path, walk: Walk, maxResults: int, includeDirs: bool): GlobOutcome {
    if !Exists(d, at) then RootMissing
    else if at !in d.dirs then RootNotADirectory
    else if walk.Err? then BadPattern(walk.error)
    else Globbed(Sort(ShownAll(d, CappedFilter(walk.value, GlobKeep(d, includeDirs), maxResults))))
  }

  function GlobReply(pattern: string, path: string, maxResults: int, includeDirs: bool, recursive: bool,
                     o: GlobOutcome): string
  {
    match o
    case RootMissing => "Error: Path '" + path + "' does not exist"
    case RootNotADirectory => "Error: Path '" + path + "' is not a directory"
    case BadPattern(message) => "Error processing glob pattern: " + message
    case Globbed(paths) =>
      if paths == [] then
        "No matches found for pattern '" + pattern + "' in '" + path + "' ("
        + (if recursive then "recursive" else "non-recursive") + " search"
        + (if includeDirs then " (including directories)" else "") + ")"
      else
        "Found " + IntToString(|paths|) + " matches for pattern '" + pattern + "'"
        + (if |paths| >= maxResults then " (limited to " + IntToString(maxResults) + " results)" else "")
        + ":\n\n" + Join(paths, "\n")
  }

  /** What the loop will have reported: the results so far, then the capped kept entries among the rest. */
  ghost function Pending(d: Drive, results: seq<string>, rest: seq<Entry>, includeDirs: bool, maxResults: int)
    : seq<string>
  {
    results + ShownAll(d, CappedFilter(rest, GlobKeep(d, includeDirs), maxResults - |results|))
  }

  /** The loop over the walk: checks the cap, then keeps files and, if asked, directories. */
  method CollectGlob(d: Drive, matches: seq<Entry>, maxResults: int, includeDirs: bool)
    returns (results: seq<string>)
    ensures results == ShownAll(d, CappedFilter(matches, GlobKeep(d, includeDirs), maxResults))
  {
    results := [];
    var j := 0;
    while j < |matches|
      invariant j <= |matches|
      invariant Pending(d, results, matches[j..], includeDirs, maxResults)
                == ShownAll(d, CappedFilter(matches, GlobKeep(d, includeDirs), maxResults))
      decreases |matches| - j
    {
      if |results| >= maxResults {
        break;
      }
      results := CollectStep(d, results, matches[j..], includeDirs, maxResults);
      assert matches[j..][1..] == matches[j + 1..];
      j := j + 1;
    }
    assert results + [] == results;
  }

  /** One iteration of the walk loop: the entry is reported when it is a file or an admitted directory. */
  method CollectStep(d: Drive, results: seq<string>, rest: seq<Entry>, includeDirs: bool, maxResults: int)
    returns (next: seq<string>)
    requires rest != [] && |results| < maxResults
    ensures Pending(d, next, rest[1..], includeDirs, maxResults) == Pending(d, results, rest, includeDirs, maxResults)
  {
    var m := rest[0];
    ghost var keep := GlobKeep(d, includeDirs);
    ghost var cap := maxResults - |results|;
    if m.at in d.files {
      next := results + [m.shown];
      assert keep(m);
      assert CappedFilter(rest, keep, cap) == [m] + CappedFilter(rest[1..], keep, cap - 1);
      assert ([m] + CappedFilter(rest[1..], keep, cap - 1))[1..] == CappedFilter(rest[1..], keep, cap - 1);
    } else if m.at in d.dirs && includeDirs {
      next := results + [m.shown + "/"];
      assert keep(m);
      assert CappedFilter(rest, keep, cap) == [m] + CappedFilter(rest[1..], keep, cap - 1);
      assert ([m] + CappedFilter(rest[1..], keep, cap - 1))[1..] == CappedFilter(rest[1..], keep, cap - 1);
    } else {
      next := results;
      assert !keep(m);
    }
  }

  /** `glob`; `walk` is what iterating `rglob(pattern)` (or `glob(pattern)`) under the root gives. */
  method Glob(d: Drive, pattern: string, path: string, at: Path, maxResults: int, includeDirs: bool,
              recursive: bool, walk: Walk)
    returns (reply: string)
    ensures reply == GlobReply(pattern, path, maxResults, includeDirs, recursive,
                               GlobRun(d, at, walk, maxResults, includeDirs))
  {
    if !(at in d.files || at in d.dirs) {
      return "Error: Path '" + path + "' does not exist";
    }
    if at !in d.dirs {
      return "Error: Path '" + path + "' is not a directory";
    }
    if walk.Err? {
      return "Error processing glob pattern: " + walk.error;
    }
    var results := CollectGlob(d, walk.value, maxResults, includeDirs);
    results := Sort(results);
    reply := GlobReply(pattern, path, maxResults, includeDirs, recursive, Globbed(results));
  }

  // ---------------------------------------------------------------------
  // grep

  datatype FilesArg = NoFiles | OneFile(file: Named) | FileList(files: seq<Named>)

  /** The files named, empty exactly when the argument is falsy (`None`, `""` or `[]`). */
  function NamedFiles(files: FilesArg): seq<Named> {
    match files
    case NoFiles => []
    case OneFile(n) => if n.arg == [] then [] else [n]
    case FileList(ns) => ns
  }

  /** The first named path that is not an existing regular file. */
  function FirstNotFile(d: Drive, names: seq<Named>): (r: Option<Named>)
    ensures r.Some? <==> exists k :: 0 <= k < |names| && names[k].at !in d.files
    ensures r.Some? ==> r.value in names && r.value.at !in d.files
  {
    if names == [] then None
    else if names[0].at !in d.files then Some(names[0])
    else FirstNotFile(d, names[1..])
  }

  function AsEntries(names: seq<Named>): (es: seq<Entry>)
    ensures |es| == |names|
    ensures forall k :: 0 <= k < |es| ==> es[k] == Entry(names[k].shown, names[k].at)
  {
    seq(|names|, k requires 0 <= k < |names| => Entry(names[k].shown, names[k].at))
  }

  function IsFileTest(d: Drive): Entry -> bool {
    (e: Entry) => e.at in d.files
  }

  /** The lines `grep` tests: `readlines()` of the text-mode read, each with `rstrip("\n\r")`. */
  function GrepLines(text: string): seq<string> {
    StripEach(ReadLines(TranslateNewlines(text)))
  }

  /** A file to search; a file that does not decode as UTF-8 is skipped. */
  function Targets(d: Drive, es: seq<Entry>): (ts: seq<Target>)
    requires forall k :: 0 <= k < |es| ==> es[k].at in d.files
    ensures |ts| == |es|
  {
    seq(|es|, k requires 0 <= k < |es| =>
          Target(es[k].shown, match d.files[es[k].at]
                              case Utf8(text) => Some(GrepLines(text))
                              case NonUtf8(_) => None))
  }

  /** The files `grep` searches: the named ones, or the files among the walk's entries. */
  function GrepFiles(d: Drive, files: FilesArg, walk: Walk): seq<Entry> {
    if NamedFiles(files) != [] then AsEntries(NamedFiles(files))
    else if walk.Ok? then Filter(walk.value, IsFileTest(d))
    else []
  }

  datatype GrepOutcome =
    | MissingArguments
    | NotAFileArgument(arg: string)
    | PathMissing
    | PathNotADirectory
    | WalkFailed(message: string)
    | NothingToSearch
    | BadRegex(message: string)
    | Searched(results: seq<FileHits>, total: nat)

  /** `grep` up to the report; `at` is where `path` points, `walk` what iterating `rglob(file_pattern)` (or `glob`) there gives. */
  function GrepRun(d: Drive, pattern: string, files: FilesArg, path: Option<string>, at: Path, walk: Walk,
                   maxResults: int, caseSensitive: bool, contextLines: int, mode: Mode): GrepOutcome
  {
    var names := NamedFiles(files);
    if names == [] && (path.None? || path.value == []) then MissingArguments
    else if names != [] && FirstNotFile(d, names).Some? then NotAFileArgument(FirstNotFile(d, names).value.arg)
    else if names == [] && !Exists(d, at) then PathMissing
    else if names == [] && at !in d.dirs then PathNotADirectory
    else if names == [] && walk.Err? then WalkFailed(walk.error)
    else
      var toSearch := GrepFiles(d, files, walk);
      if toSearch == [] then NothingToSearch
      else if mode.Regex? && mode.compiled.Err? then BadRegex(mode.compiled.error)
      else
        var r := SearchFrom(Targets(d, toSearch), 0, LineTest(pattern, caseSensitive, mode), 0, maxResults, contextLines);
        Searched(r.0, r.1)
  }

  /** The file icon, U+1F4C4. */
  const FileIcon: string := "\U{1F4C4}"

  function GrepReply(o: GrepOutcome, pattern: string, path: Option<string>, mode: Mode, caseSensitive: bool,
                     maxResults: int, contextLines: int): string
  {
    match o
    case MissingArguments => "Error: Must provide either 'files' parameter or 'path' parameter"
    case NotAFileArgument(arg) => "Error: File '" + arg + "' does not exist or is not a file"
    case PathMissing => "Error: Path '" + (if path.Some? then path.value else "") + "' does not exist"
    case PathNotADirectory => "Error: Path '" + (if path.Some? then path.value else "") + "' is not a directory"
    case WalkFailed(message) => "Error in grep search: " + message
    case NothingToSearch => "No files found to search"
    case BadRegex(message) => "Error: Invalid regex pattern: " + message
    case Searched(results, total) =>
      GrepReport(FileIcon, "", pattern, mode.Regex?, caseSensitive, maxResults, contextLines, results, total)
  }

  /** The validation loop of the files mode. */
  method FindNotFile(d: Drive, names: seq<Named>) returns (bad: Option<Named>)
    ensures bad == FirstNotFile(d, names)
  {
    var i := 0;
    while i < |names|
      invariant i <= |names|
      invariant FirstNotFile(d, names) == FirstNotFile(d, names[i..])
      decreases |names| - i
    {
      assert names[i..][1..] == names[i + 1..];
      if names[i].at !in d.files {
        return Some(names[i]);
      }
      i := i + 1;
    }
    return None;
  }

  /** The path-mode loop: the regular files among the walk's entries. */
  method SelectFiles(d: Drive, matches: seq<Entry>) returns (toSearch: seq<Entry>)
    ensures toSearch == Filter(matches, IsFileTest(d))
  {
    var keep := IsFileTest(d);
    toSearch := [];
    var i := 0;
    while i < |matches|
      invariant i <= |matches|
      invariant toSearch + Filter(matches[i..], keep) == Filter(matches, keep)
      decreases |matches| - i
    {
      assert matches[i..][1..] == matches[i + 1..];
      if matches[i].at in d.files {
        toSearch := toSearch + [matches[i]];
      }
      i := i + 1;
    }
    assert toSearch + [] == toSearch;
  }

  method GrepSteps(d: Drive, pattern: string, files: FilesArg, path: Option<string>, at: Path, walk: Walk,
                   maxResults: int, caseSensitive: bool, contextLines: int, mode: Mode)
    returns (o: GrepOutcome)
    ensures o == GrepRun(d, pattern, files, path, at, walk, maxResults, caseSensitive, contextLines, mode)
  {
    var names := NamedFiles(files);
    if names == [] && (path.None? || path.value == []) {
      return MissingArguments;
    }
    var toSearch: seq<Entry>;
    if names != [] {
      var bad := FindNotFile(d, names);
      if bad.Some? {
        return NotAFileArgument(bad.value.arg);
      }
      toSearch := AsEntries(names);
    } else {
      if !(at in d.files || at in d.dirs) {
        return PathMissing;
      }
      if at !in d.dirs {
        return PathNotADirectory;
      }
      if walk.Err? {
        return WalkFailed(walk.error);
      }
      toSearch := SelectFiles(d, walk.value);
    }
    if toSearch == [] {
      return NothingToSearch;
    }
    if mode.Regex? && mode.compiled.Err? {
      return BadRegex(mode.compiled.error);
    }
    assert toSearch == GrepFiles(d, files, walk);
    var test := LineTest(pattern, caseSensitive, mode);
    var results, total := SearchFiles(Targets(d, toSearch), test, maxResults, contextLines);
    o := Searched(results, total);
  }

  /** `grep` */
  method Grep(d: Drive, pattern: string, files: FilesArg, path: Option<string>, at: Path, walk: Walk,
              maxResults: int, caseSensitive: bool, contextLines: int, mode: Mode)
    returns (reply: string)
    ensures reply == GrepReply(GrepRun(d, pattern, files, path, at, walk, maxResults, caseSensitive, contextLines, mode),
                               pattern, path, mode, caseSensitive, maxResults, contextLines)
  {
    var o := GrepSteps(d, pattern, files, path, at, walk, maxResults, caseSensitive, contextLines, mode);
    reply := GrepReply(o, pattern, path, mode, caseSensitive, maxResults, contextLines);
  }

  // ---------------------------------------------------------------------
  // Properties

  lemma {:induction false} ShownAllMember(d: Drive, es: seq<Entry>, p: string)
    requires p in ShownAll(d, es)
    ensures exists e :: e in es && p == Shown(d, e)
    decreases |es|
  {
    if p != Shown(d, es[0]) {
      ShownAllMember(d, es[1..], p);
      var e :| e in es[1..] && p == Shown(d, e);
      assert e in es;
    }
  }

  lemma {:induction false} ShownAllHas(d: Drive, es: seq<Entry>, e: Entry)
    requires e in es
    ensures Shown(d, e) in ShownAll(d, es)
    decreases |es|
  {
    if e != es[0] {
      ShownAllHas(d, es[1..], e);
    }
  }

  /**
   * `glob` reports, sorted and at most `max_results` of them, only entries the walk yielded:
   * a file under its name, or (only with `include_dirs`) a directory with a trailing `/`.
   */
  lemma GlobSound(d: Drive, at: Path, walk: Walk, maxResults: int, includeDirs: bool)
    requires GlobRun(d, at, walk, maxResults, includeDirs).Globbed?
    ensures var paths := GlobRun(d, at, walk, maxResults, includeDirs).paths;
            Sorted(paths) && |paths| <= Max(maxResults, 0)
            && forall p :: p in paths ==>
                 exists e :: e in walk.value
                             && ((e.at in d.files && p == e.shown)
                                 || (includeDirs && e.at !in d.files && e.at in d.dirs && p == e.shown + "/"))
  {
    ReportSound(d, walk.value, maxResults, includeDirs);
  }

  /** The report built from the walk's entries, as `GlobSound` states it. */
  lemma ReportSound(d: Drive, matches: seq<Entry>, maxResults: int, includeDirs: bool)
    ensures var paths := Sort(ShownAll(d, CappedFilter(matches, GlobKeep(d, includeDirs), maxResults)));
            Sorted(paths) && |paths| <= Max(maxResults, 0)
            && forall p :: p in paths ==>
                 exists e :: e in matches
                             && ((e.at in d.files && p == e.shown)
                                 || (includeDirs && e.at !in d.files && e.at in d.dirs && p == e.shown + "/"))
  {
    var keep := GlobKeep(d, includeDirs);
    var capped := CappedFilter(matches, keep, maxResults);
    CappedFilterSound(matches, keep, maxResults);
    var shown := ShownAll(d, capped);
    forall p | p in Sort(shown)
      ensures exists e :: e in matches
                          && ((e.at in d.files && p == e.shown)
                              || (includeDirs && e.at !in d.files && e.at in d.dirs && p == e.shown + "/"))
    {
      assert p in multiset(Sort(shown));
      assert p in shown;
      ShownAllMember(d, capped, p);
      var e :| e in capped && p == Shown(d, e);
      var k :| 0 <= k < |capped| && capped[k] == e;
      assert keep(e) && e in matches;
    }
  }

  /**
   * Below the cap `glob` misses nothing: when fewer than `max_results` paths are reported,
   * every file the walk yielded is among them, and with `include_dirs` every directory too.
   */
  lemma GlobComplete(d: Drive, at: Path, walk: Walk, maxResults: int, includeDirs: bool, e: Entry)
    requires GlobRun(d, at, walk, maxResults, includeDirs).Globbed?
    requires |GlobRun(d, at, walk, maxResults, includeDirs).paths| < maxResults
    requires e in walk.value && (e.at in d.files || (includeDirs && e.at in d.dirs))
    ensures Shown(d, e) in GlobRun(d, at, walk, maxResults, includeDirs).paths
  {
    var keep := GlobKeep(d, includeDirs);
    var capped := CappedFilter(walk.value, keep, maxResults);
    CappedFilterIsPrefix(walk.value, keep, maxResults);
    var shown := ShownAll(d, capped);
    assert |Sort(shown)| == |capped|;
    assert capped == Filter(walk.value, keep);
    FilterMember(walk.value, keep, e);
    ShownAllHas(d, capped, e);
    assert Shown(d, e) in multiset(shown);
  }

  /**
   * `glob`'s error replies: a missing root, a root that is not a directory, and (for a
   * directory root) a pattern the walk refuses, reported with the walk's own message.
   */
  lemma GlobErrors(d: Drive, pattern: string, path: string, at: Path, walk: Walk, maxResults: int,
                   includeDirs: bool, recursive: bool)
    ensures var o := GlobRun(d, at, walk, maxResults, includeDirs);
            (o == RootMissing <==> !Exists(d, at))
            && (o == RootNotADirectory <==> Exists(d, at) && at !in d.dirs)
            && (o.BadPattern? <==> at in d.dirs && walk.Err?)
            && (o.BadPattern? ==> GlobReply(pattern, path, maxResults, includeDirs, recursive, o)
                                  == "Error processing glob pattern: " + walk.error)
  {
  }

  /**
   * `grep` needs `files` or `path`; a named path that is not an existing regular file aborts
   * the search with that name; in the path mode a pattern the walk refuses aborts it with the
   * walk's message.
   */
  lemma GrepArgumentErrors(d: Drive, pattern: string, files: FilesArg, path: Option<string>, at: Path,
                           walk: Walk, maxResults: int, caseSensitive: bool, contextLines: int, mode: Mode)
    ensures var o := GrepRun(d, pattern, files, path, at, walk, maxResults, caseSensitive, contextLines, mode);
            (o == MissingArguments <==> NamedFiles(files) == [] && (path.None? || path.value == []))
            && (o.NotAFileArgument? <==> exists k :: 0 <= k < |NamedFiles(files)| && NamedFiles(files)[k].at !in d.files)
            && (o.NotAFileArgument? ==> exists n :: n in NamedFiles(files) && n.arg == o.arg && n.at !in d.files)
            && (o.WalkFailed? <==> NamedFiles(files) == [] && path.Some? && path.value != [] && at in d.dirs && walk.Err?)
            && (o.WalkFailed? ==> o.message == walk.error)
  {
  }

  /** The tested lines are the pieces of the text-mode read between its newlines. */
  lemma GrepLinesAreSegments(text: string)
    ensures GrepLines(text) == NewlineSegments(TranslateNewlines(text))
  {
    StripReadLines(TranslateNewlines(text));
  }

  /**
   * Every match `grep` reports comes from a searched UTF-8 file (files that do not decode are
   * skipped): it is that file's stripped line under its 1-based number, passes the line test,
   * and carries its context window; the total is the number of reported matches, at most the cap.
   */
  lemma GrepSound(d: Drive, pattern: string, files: FilesArg, path: Option<string>, at: Path, walk: Walk,
                  maxResults: int, caseSensitive: bool, contextLines: int, mode: Mode)
    requires GrepRun(d, pattern, files, path, at, walk, maxResults, caseSensitive, contextLines, mode).Searched?
    ensures var o := GrepRun(d, pattern, files, path, at, walk, maxResults, caseSensitive, contextLines, mode);
            var test := LineTest(pattern, caseSensitive, mode);
            o.total == TotalMatches(o.results) && o.total <= Max(maxResults, 0)
            && forall h :: h in o.results ==>
                 exists e :: e in GrepFiles(d, files, walk) && e.shown == h.name
                             && e.at in d.files && d.files[e.at].Utf8? && h.matches != []
                             && forall m :: m in h.matches ==>
                                  var lines := GrepLines(d.files[e.at].text);
                                  1 <= m.number <= |lines| && m.content == lines[m.number - 1]
                                  && test(m.content) && m.context == ContextOf(lines, m.number, contextLines)
  {
    var o := GrepRun(d, pattern, files, path, at, walk, maxResults, caseSensitive, contextLines, mode);
    var toSearch := GrepFiles(d, files, walk);
    var test := LineTest(pattern, caseSensitive, mode);
    forall k | 0 <= k < |toSearch|
      ensures toSearch[k].at in d.files
    {
      if NamedFiles(files) == [] {
        assert toSearch[k] in walk.value;
      }
    }
    var targets := Targets(d, toSearch);
    SearchCounts(targets, 0, test, 0, maxResults, contextLines);
    SearchResultsFromTargets(targets, 0, test, 0, maxResults, contextLines);
    forall h | h in o.results
      ensures exists e :: e in toSearch && e.shown == h.name
                          && e.at in d.files && d.files[e.at].Utf8? && h.matches != []
                          && forall m :: m in h.matches ==>
                               var lines := GrepLines(d.files[e.at].text);
                               1 <= m.number <= |lines| && m.content == lines[m.number - 1]
                               && test(m.content) && m.context == ContextOf(lines, m.number, contextLines)
    {
      var t :| 0 <= t < |targets| && targets[t].name == h.name && targets[t].lines.Some?
               && h.matches != [] && h.matches <= AllMatches(targets[t].lines.value, 0, test, contextLines);
      HitFromTarget(d, toSearch, test, contextLines, h, t);
    }
  }

  /** A hit found in the `t`-th searched file is that file's lines, each passing the test. */
  lemma HitFromTarget(d: Drive, toSearch: seq<Entry>, test: string -> bool, contextLines: int, h: FileHits, t: nat)
    requires forall k :: 0 <= k < |toSearch| ==> toSearch[k].at in d.files
    requires t < |toSearch| && Targets(d, toSearch)[t].name == h.name && Targets(d, toSearch)[t].lines.Some?
    requires h.matches != [] && h.matches <= AllMatches(Targets(d, toSearch)[t].lines.value, 0, test, contextLines)
    ensures exists e :: e in toSearch && e.shown == h.name
                        && e.at in d.files && d.files[e.at].Utf8? && h.matches != []
                        && forall m :: m in h.matches ==>
                             var lines := GrepLines(d.files[e.at].text);
                             1 <= m.number <= |lines| && m.content == lines[m.number - 1]
                             && test(m.content) && m.context == ContextOf(lines, m.number, contextLines)
  {
    var e := toSearch[t];
    assert d.files[e.at].Utf8?;
    var lines := GrepLines(d.files[e.at].text);
    assert Targets(d, toSearch)[t].lines.value == lines;
    AllMatchesSound(lines, 0, test, contextLines);
    forall m | m in h.matches
      ensures m in AllMatches(lines, 0, test, contextLines)
    {
      var i :| 0 <= i < |h.matches| && h.matches[i] == m;
      assert AllMatches(lines, 0, test, contextLines)[i] == m;
    }
    assert e in toSearch;
  }
}
