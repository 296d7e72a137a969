/**
 * The in-state file store of src/deepagents/tools.py: the session's `files` dict, a map from
 * path to text kept in insertion order, and the tools that read, write, edit, list and
 * search it.
 */
module VirtualFs {
  import opened Wrappers
  import opened Text
  import opened StringOrder
  import opened Collect
  import opened Listing
  import opened Editing
  import opened Search
  import opened Session

  // ---------------------------------------------------------------------
  // Paths

  /** `path.rstrip("/")`, where `"."` stands for the whole store. */
  function SearchPath(path: string): (sp: string)
    ensures sp <= path
    ensures sp != [] ==> sp[|sp| - 1] != '/'
  {
    var p := RStripChar(path, '/');
    if p == "." then "" else p
  }

  /** `full[len(search_path):].lstrip("/")` */
  function Relative(full: string, sp: string): string
    requires sp <= full
  {
    LStripChar(full[|sp|..], '/')
  }

  /** `s.split("/")[-1]`: the text after the last slash, or all of `s` when it has none. */
  function LastSegment(s: string): (r: string)
    ensures |r| <= |s| && r == s[|s| - |r|..]
    ensures '/' !in r
    ensures |r| < |s| ==> s[|s| - |r| - 1] == '/'
  {
    if s == [] || s[|s| - 1] == '/' then []
    else LastSegment(s[..|s| - 1]) + [s[|s| - 1]]
  }

  /**
   * The path filter of `glob` and of `grep`'s path mode: the key starts with the search path
   * (a string prefix, not a whole segment) and, for a non-recursive search under a non-empty
   * search path, its remainder has no further slash.
   */
  predicate InScope(key: string, sp: string, recursive: bool) {
    sp <= key && (recursive || sp == [] || '/' !in Relative(key, sp))
  }

  function CandidateTest(sp: string, recursive: bool): string -> bool {
    key => InScope(key, sp, recursive)
  }

  /**
   * `dir + "/"` for every proper directory prefix `dir` of a candidate that starts with the
   * search path: the candidate's text up to and including each of its slashes.
   */
  function DirPaths(candidates: seq<string>, sp: string): set<string> {
    set c, p | c in candidates && 0 <= p < |c| && c[p] == '/' && sp <= c[..p] :: c[..p + 1]
  }

  /** The directory set `glob` builds, empty unless `include_dirs` is set. */
  function GlobDirs(keys: seq<string>, path: string, includeDirs: bool, recursive: bool): set<string> {
    var sp := SearchPath(path);
    if includeDirs then DirPaths(Filter(keys, CandidateTest(sp, recursive)), sp) else {}
  }

  /**
   * The pattern test of `glob`: the path relative to the search path matches, or, in a
   * recursive search, the last segment of a relative path that has a slash matches.
   */
  predicate GlobMatch(full: string, sp: string, pattern: string, recursive: bool, fnmatch: (string, string) -> bool) {
    sp <= full
    && var rel := if sp == [] then full else Relative(full, sp);
       fnmatch(rel, pattern) || (recursive && '/' in rel && fnmatch(LastSegment(rel), pattern))
  }

  function GlobTest(sp: string, pattern: string, recursive: bool, fnmatch: (string, string) -> bool): string -> bool {
    full => GlobMatch(full, sp, pattern, recursive, fnmatch)
  }

  // ---------------------------------------------------------------------
  // Specifications of the tools over the dict's keys (in order) and contents

  /** What `read_file` reports for `path`. */
  function ReadStore(contents: map<string, string>, path: string, offset: int, limit: int): ReadOutcome {
    if path !in contents then NotFound else ReadText(contents[path], offset, limit)
  }

  /** What `edit_file` decides, or `None` when the path is not in the store. */
  function EditStore(contents: map<string, string>, path: string, target: string, repl: string, replaceAll: bool)
    : Option<EditOutcome>
  {
    if path !in contents then None else Some(Edit(contents[path], target, repl, replaceAll))
  }

  /** The text a successful edit stores. */
  function EditedText(o: EditOutcome): string
    requires !IsError(o)
  {
    o.text
  }

  /** The store after an edit: changed at `path` only when the edit succeeded. */
  function AfterEdit(contents: map<string, string>, path: string, o: Option<EditOutcome>): map<string, string> {
    if o.Some? && !IsError(o.value) then contents[path := EditedText(o.value)] else contents
  }

  /** The reply of `edit_file`: the error text, or the update carrying the whole new dict. */
  function EditReply(contents: map<string, string>, path: string, target: string, o: Option<EditOutcome>, toolCallId: string)
    : ToolReply
  {
    match o
    case None => Plain("Error: File '" + path + "' not found")
    case Some(e) =>
      if IsError(e) then Plain(EditMessage(path, target, e))
      else Command(Update(None, Some(contents), [ToolMessage(EditMessage(path, target, e), toolCallId)]))
  }

  datatype GlobOutcome = EmptyStore | GlobMatches(paths: seq<string>)

  /**
   * `glob`: the candidates in key order, then the directory paths in the order `dirOrder`
   * lists them, the first `max_results` that pass the pattern test, sorted.
   */
  function GlobRun(keys: seq<string>, pattern: string, path: string, maxResults: int, recursive: bool,
                   fnmatch: (string, string) -> bool, dirOrder: seq<string>): GlobOutcome
  {
    if keys == [] then EmptyStore
    else
      var sp := SearchPath(path);
      var candidates := Filter(keys, CandidateTest(sp, recursive));
      GlobMatches(Sort(CappedFilter(candidates + dirOrder, GlobTest(sp, pattern, recursive, fnmatch), maxResults)))
  }

  function GlobReply(pattern: string, path: string, maxResults: int, includeDirs: bool, recursive: bool, o: GlobOutcome)
    : string
  {
    match o
    case EmptyStore => "No files available in the mock filesystem"
    case GlobMatches(paths) =>
      if paths == [] then
        "No matches found for pattern '" + pattern + "' in mock filesystem at '" + path + "' ("
        + (if recursive then "recursive" else "non-recursive") + " search"
        + (if includeDirs then " (including directories)" else "") + ")"
      else
        "Found " + IntToString(|paths|) + " matches for pattern '" + pattern + "' in mock filesystem"
        + (if |paths| >= maxResults then " (limited to " + IntToString(maxResults) + " results)" else "")
        + ":\n\n" + Join(paths, "\n")
  }

  /** The `files` argument: absent, one path, or a list of paths. */
  datatype FilesArg = NoFiles | OneFile(name: string) | FileList(names: seq<string>)

  /** The files named, empty exactly when the argument is falsy (`None`, `""` or `[]`). */
  function FileNames(files: FilesArg): seq<string> {
    match files
    case NoFiles => []
    case OneFile(name) => if name == [] then [] else [name]
    case FileList(names) => names
  }

  /** The first named file that is not in the store. */
  function FirstMissing(names: seq<string>, contents: map<string, string>): (r: Option<string>)
    ensures r.Some? <==> exists k :: 0 <= k < |names| && names[k] !in contents
    ensures r.Some? ==> r.value in names && r.value !in contents
  {
    if names == [] then None
    else if names[0] !in contents then Some(names[0])
    else FirstMissing(names[1..], contents)
  }

  /** The filter of `grep`'s path mode: in scope, and the file name matches `file_pattern`. */
  function GrepPathTest(sp: string, recursive: bool, filePattern: string, fnmatch: (string, string) -> bool)
    : string -> bool
  {
    key => InScope(key, sp, recursive) && fnmatch(LastSegment(key), filePattern)
  }

  /** The files `grep` searches: the named ones, or the keys the path mode accepts. */
  function GrepFiles(keys: seq<string>, files: FilesArg, path: Option<string>, filePattern: string,
                     recursive: bool, fnmatch: (string, string) -> bool): seq<string>
  {
    if FileNames(files) != [] then FileNames(files)
    else if path.Some? then Filter(keys, GrepPathTest(SearchPath(path.value), recursive, filePattern, fnmatch))
    else []
  }

  /** Each file's lines, or `None` for an empty file, which is skipped. */
  function Targets(names: seq<string>, contents: map<string, string>): (ts: seq<Target>)
    requires forall k :: 0 <= k < |names| ==> names[k] in contents
    ensures |ts| == |names|
  {
    seq(|names|, k requires 0 <= k < |names| =>
          Target(names[k], if contents[names[k]] == [] then None else Some(SplitLines(contents[names[k]]))))
  }

  datatype GrepOutcome =
    | NoFilesInStore
    | MissingArguments
    | MissingFile(name: string)
    | NothingToSearch
    | BadRegex(message: string)
    | Searched(results: seq<FileHits>, total: nat)

  /** `grep`, up to the report. */
  function GrepRun(keys: seq<string>, contents: map<string, string>, pattern: string, files: FilesArg,
                   path: Option<string>, filePattern: string, maxResults: int, caseSensitive: bool,
                   contextLines: int, mode: Mode, recursive: bool, fnmatch: (string, string) -> bool): GrepOutcome
    requires forall k :: k in keys ==> k in contents
  {
    var names := FileNames(files);
    if keys == [] then NoFilesInStore
    else if names == [] && (path.None? || path.value == []) then MissingArguments
    else if names != [] && FirstMissing(names, contents).Some? then MissingFile(FirstMissing(names, contents).value)
    else
      var toSearch := GrepFiles(keys, files, path, filePattern, recursive, fnmatch);
      if toSearch == [] then NothingToSearch
      else if mode.Regex? && mode.compiled.Err? then BadRegex(mode.compiled.error)
      else
        var r := SearchFrom(Targets(toSearch, contents), 0, LineTest(pattern, caseSensitive, mode), 0, maxResults, contextLines);
        Searched(r.0, r.1)
  }

  /** The file icon as the source spells it: the UTF-8 bytes of U+1F4C4 read as Windows-1252. */
  const MockIcon: string := "\U{F0}\U{178}\U{201C}\U{201E}"

  function GrepReply(o: GrepOutcome, pattern: string, mode: Mode, caseSensitive: bool, maxResults: int,
                     contextLines: int): string
  {
    match o
    case NoFilesInStore => "No files available in the mock filesystem"
    case MissingArguments => "Error: Must provide either 'files' parameter or 'path' parameter"
    case MissingFile(name) => "Error: File '" + name + "' does not exist in mock filesystem"
    case NothingToSearch => "No files found to search in mock filesystem"
    case BadRegex(message) => "Error: Invalid regex pattern: " + message
    case Searched(results, total) =>
      GrepReport(MockIcon, " in mock filesystem", pattern, mode.Regex?, caseSensitive, maxResults,
                 contextLines, results, total)
  }

  // ---------------------------------------------------------------------
  // Properties of the tools

  /**
   * After `write_file`, a read of the path from offset 0 with a limit covering every line gives
   * back each line of `splitlines(content)` under its number (content not blank, no line over
   * 2000 characters), and every other path reads as before.
   */
  lemma WriteThenRead(contents: map<string, string>, path: string, content: string, limit: int,
                      other: string, offset: int, otherLimit: int)
    requires !IsBlank(content) && limit >= |SplitLines(content)|
    requires forall k :: 0 <= k < |SplitLines(content)| ==> |SplitLines(content)[k]| <= MaxLineLength
    ensures var out := ReadStore(contents[path := content], path, 0, limit);
            out.Listed? && |out.lines| == |SplitLines(content)|
            && forall k :: 0 <= k < |out.lines| ==> ParseLine(out.lines[k]) == Some((k + 1, SplitLines(content)[k]))
    ensures other != path ==>
              ReadStore(contents[path := content], other, offset, otherLimit) == ReadStore(contents, other, offset, otherLimit)
  {
    ReadBack(content, limit);
  }

  /**
   * `edit_file` leaves the store as it was exactly in its error cases (missing path, string
   * not found, ambiguous without `replace_all`), replying with plain text; otherwise it stores
   * the replaced text at the path, changes no other path, and replies with an update.
   */
  lemma EditStoreOutcome(contents: map<string, string>, path: string, target: string, repl: string,
                         replaceAll: bool, toolCallId: string)
    ensures var o := EditStore(contents, path, target, repl, replaceAll);
            var failed := path !in contents || !Contains(contents[path], target)
                          || (!replaceAll && Count(contents[path], target) > 1);
            var after := AfterEdit(contents, path, o);
            ((o.None? || IsError(o.value)) <==> failed)
            && (failed ==> after == contents && EditReply(after, path, target, o, toolCallId).Plain?)
            && (o.Some? && !IsError(o.value) ==>
                  after == contents[path := EditedText(o.value)]
                  && EditReply(after, path, target, o, toolCallId).Command?
                  && EditReply(after, path, target, o, toolCallId).update.files == Some(after))
    ensures path in contents && !replaceAll && Contains(contents[path], target) && Count(contents[path], target) <= 1 ==>
              Count(contents[path], target) == 1
              && AfterEdit(contents, path, EditStore(contents, path, target, repl, replaceAll))[path]
                 == ReplaceAll(contents[path], target, repl)
  {
    if path in contents {
      EditFailsIff(contents[path], target, repl, replaceAll);
      if !replaceAll && Contains(contents[path], target) && Count(contents[path], target) <= 1 {
        ReplaceOneOutcome(contents[path], target, repl);
      }
    }
  }

  lemma SortedMembers(xs: seq<string>, p: string)
    ensures p in Sort(xs) <==> p in xs
  {
    assert p in Sort(xs) <==> p in multiset(Sort(xs));
    assert p in xs <==> p in multiset(xs);
  }

  /**
   * What `glob` reports is sorted, at most `max_results` long, the first `max_results`
   * accepted paths in enumeration order (candidates in key order, then the directory paths),
   * each one passing the pattern test and being a key in scope of the search path (so never a
   * nested key in a non-recursive search) or, with `include_dirs`, a directory prefix of one.
   */
  lemma GlobSound(keys: seq<string>, pattern: string, path: string, maxResults: int, includeDirs: bool,
                  recursive: bool, fnmatch: (string, string) -> bool, dirOrder: seq<string>)
    requires keys != []
    requires Enumerates(dirOrder, GlobDirs(keys, path, includeDirs, recursive))
    ensures var paths := GlobRun(keys, pattern, path, maxResults, recursive, fnmatch, dirOrder).paths;
            var sp := SearchPath(path);
            var accepted := Filter(Filter(keys, CandidateTest(sp, recursive)) + dirOrder,
                                   GlobTest(sp, pattern, recursive, fnmatch));
            Sorted(paths) && |paths| <= Max(maxResults, 0)
            && multiset(paths) == multiset(accepted[..Min(Max(maxResults, 0), |accepted|)])
            && forall p :: p in paths ==>
                 GlobMatch(p, sp, pattern, recursive, fnmatch)
                 && ((p in keys && InScope(p, sp, recursive))
                     || (includeDirs && p in DirPaths(Filter(keys, CandidateTest(sp, recursive)), sp)))
  {
    var sp := SearchPath(path);
    var candidates := Filter(keys, CandidateTest(sp, recursive));
    var all := candidates + dirOrder;
    var test := GlobTest(sp, pattern, recursive, fnmatch);
    SortedCap(all, test, maxResults);
    assert forall x :: x in dirOrder ==> includeDirs && x in DirPaths(candidates, sp);
    forall p | p in Sort(CappedFilter(all, test, maxResults))
      ensures GlobMatch(p, sp, pattern, recursive, fnmatch)
              && ((p in keys && InScope(p, sp, recursive)) || (includeDirs && p in DirPaths(candidates, sp)))
    {
      assert test(p);
      EnumeratedPathSound(keys, sp, recursive, includeDirs, dirOrder, p);
    }
  }

  /** The sorted first `cap` accepted elements: sorted, bounded, accepted, and from the input. */
  lemma SortedCap(all: seq<string>, test: string -> bool, cap: int)
    ensures var paths := Sort(CappedFilter(all, test, cap));
            var accepted := Filter(all, test);
            Sorted(paths) && |paths| <= Max(cap, 0)
            && multiset(paths) == multiset(accepted[..Min(Max(cap, 0), |accepted|)])
            && forall p :: p in paths ==> test(p) && p in all
  {
    var capped := CappedFilter(all, test, cap);
    CappedFilterSound(all, test, cap);
    CappedFilterIsPrefix(all, test, cap);
    forall p | p in Sort(capped)
      ensures test(p) && p in all
    {
      SortedMembers(capped, p);
      var k :| 0 <= k < |capped| && capped[k] == p;
    }
  }

  /** A path `glob` enumerates is a key in scope or, with `include_dirs`, a directory path. */
  lemma EnumeratedPathSound(keys: seq<string>, sp: string, recursive: bool, includeDirs: bool,
                            dirOrder: seq<string>, p: string)
    requires forall x :: x in dirOrder ==> includeDirs && x in DirPaths(Filter(keys, CandidateTest(sp, recursive)), sp)
    requires p in Filter(keys, CandidateTest(sp, recursive)) + dirOrder
    ensures (p in keys && InScope(p, sp, recursive))
            || (includeDirs && p in DirPaths(Filter(keys, CandidateTest(sp, recursive)), sp))
  {
    if p in Filter(keys, CandidateTest(sp, recursive)) {
      FilterMember(keys, CandidateTest(sp, recursive), p);
    }
  }

  /**
   * Below the cap `glob` misses nothing: when it reports fewer than `max_results` paths, every
   * key in scope that passes the pattern test, and with `include_dirs` every such directory
   * path, is reported.
   */
  lemma GlobComplete(keys: seq<string>, pattern: string, path: string, maxResults: int, includeDirs: bool,
                     recursive: bool, fnmatch: (string, string) -> bool, dirOrder: seq<string>, p: string)
    requires keys != []
    requires Enumerates(dirOrder, GlobDirs(keys, path, includeDirs, recursive))
    requires |GlobRun(keys, pattern, path, maxResults, recursive, fnmatch, dirOrder).paths| < maxResults
    requires (p in keys && InScope(p, SearchPath(path), recursive)) || p in GlobDirs(keys, path, includeDirs, recursive)
    requires GlobMatch(p, SearchPath(path), pattern, recursive, fnmatch)
    ensures p in GlobRun(keys, pattern, path, maxResults, recursive, fnmatch, dirOrder).paths
  {
    var sp := SearchPath(path);
    var candidates := Filter(keys, CandidateTest(sp, recursive));
    var all := candidates + dirOrder;
    var test := GlobTest(sp, pattern, recursive, fnmatch);
    var capped := CappedFilter(all, test, maxResults);
    CappedFilterIsPrefix(all, test, maxResults);
    var accepted := Filter(all, test);
    assert |Sort(capped)| == |capped|;
    assert capped == accepted;
    if p in keys && InScope(p, sp, recursive) {
      FilterMember(keys, CandidateTest(sp, recursive), p);
    }
    assert p in all;
    FilterMember(all, test, p);
    SortedMembers(capped, p);
  }

  /**
   * `grep` refuses a call with neither `files` nor `path`, and a call naming a file the store
   * does not have, reporting one such file.
   */
  lemma GrepArgumentErrors(keys: seq<string>, contents: map<string, string>, pattern: string, files: FilesArg,
                           path: Option<string>, filePattern: string, maxResults: int, caseSensitive: bool,
                           contextLines: int, mode: Mode, recursive: bool, fnmatch: (string, string) -> bool)
    requires keys != [] && forall k :: k in keys ==> k in contents
    ensures var o := GrepRun(keys, contents, pattern, files, path, filePattern, maxResults, caseSensitive,
                             contextLines, mode, recursive, fnmatch);
            (o == MissingArguments <==> FileNames(files) == [] && (path.None? || path.value == []))
            && (o.MissingFile? <==> exists k :: 0 <= k < |FileNames(files)| && FileNames(files)[k] !in contents)
            && (o.MissingFile? ==> o.name in FileNames(files) && o.name !in contents)
  {
  }

  /**
   * Every match `grep` reports is a line of a non-empty file it searched that passes the line
   * test, under its 1-based number and with its context window; the total is the number of
   * reported matches and never exceeds the cap.
   */
  lemma GrepSound(keys: seq<string>, contents: map<string, string>, pattern: string, files: FilesArg,
                  path: Option<string>, filePattern: string, maxResults: int, caseSensitive: bool,
                  contextLines: int, mode: Mode, recursive: bool, fnmatch: (string, string) -> bool)
    requires forall k :: k in keys ==> k in contents
    requires GrepRun(keys, contents, pattern, files, path, filePattern, maxResults, caseSensitive,
                     contextLines, mode, recursive, fnmatch).Searched?
    ensures var o := GrepRun(keys, contents, pattern, files, path, filePattern, maxResults, caseSensitive,
                             contextLines, mode, recursive, fnmatch);
            var test := LineTest(pattern, caseSensitive, mode);
            o.total == TotalMatches(o.results) && o.total <= Max(maxResults, 0)
            && forall h :: h in o.results ==>
                 h.name in GrepFiles(keys, files, path, filePattern, recursive, fnmatch)
                 && h.name in contents && contents[h.name] != [] && h.matches != []
                 && forall m :: m in h.matches ==>
                      1 <= m.number <= |SplitLines(contents[h.name])|
                      && m.content == SplitLines(contents[h.name])[m.number - 1]
                      && test(m.content)
                      && m.context == ContextOf(SplitLines(contents[h.name]), m.number, contextLines)
  {
    var o := GrepRun(keys, contents, pattern, files, path, filePattern, maxResults, caseSensitive,
                     contextLines, mode, recursive, fnmatch);
    var toSearch := GrepFiles(keys, files, path, filePattern, recursive, fnmatch);
    var test := LineTest(pattern, caseSensitive, mode);
    assert forall k :: 0 <= k < |toSearch| ==> toSearch[k] in contents;
    var targets := Targets(toSearch, contents);
    SearchCounts(targets, 0, test, 0, maxResults, contextLines);
    SearchResultsFromTargets(targets, 0, test, 0, maxResults, contextLines);
    forall h | h in o.results
      ensures h.name in toSearch && h.name in contents && contents[h.name] != [] && h.matches != []
      ensures forall m :: m in h.matches ==>
                1 <= m.number <= |SplitLines(contents[h.name])|
                && m.content == SplitLines(contents[h.name])[m.number - 1]
                && test(m.content)
                && m.context == ContextOf(SplitLines(contents[h.name]), m.number, contextLines)
    {
      var t :| 0 <= t < |targets| && targets[t].name == h.name && targets[t].lines.Some?
               && h.matches != [] && h.matches <= AllMatches(targets[t].lines.value, 0, test, contextLines);
      HitSound(toSearch, contents, test, contextLines, h, t);
    }
  }

  /** A file's reported hits are a prefix of its matches, so each is a true match with its context. */
  lemma HitSound(toSearch: seq<string>, contents: map<string, string>, test: string -> bool, contextLines: int,
                 h: FileHits, t: int)
    requires forall k :: 0 <= k < |toSearch| ==> toSearch[k] in contents
    requires 0 <= t < |toSearch|
    requires var target := Targets(toSearch, contents)[t];
             target.name == h.name && target.lines.Some? && h.matches != []
             && h.matches <= AllMatches(target.lines.value, 0, test, contextLines)
    ensures h.name in toSearch && h.name in contents && contents[h.name] != [] && h.matches != []
    ensures forall m :: m in h.matches ==>
              1 <= m.number <= |SplitLines(contents[h.name])|
              && m.content == SplitLines(contents[h.name])[m.number - 1]
              && test(m.content)
              && m.context == ContextOf(SplitLines(contents[h.name]), m.number, contextLines)
  {
    var lines := SplitLines(contents[h.name]);
    assert Targets(toSearch, contents)[t].lines.value == lines;
    AllMatchesSound(lines, 0, test, contextLines);
    forall m | m in h.matches
      ensures m in AllMatches(lines, 0, test, contextLines)
    {
      var i :| 0 <= i < |h.matches| && h.matches[i] == m;
      assert AllMatches(lines, 0, test, contextLines)[i] == m;
    }
  }

  /**
   * Below the cap `grep` misses nothing: when fewer than `max_results` matches were found,
   * each searched non-empty file with a matching line is reported with all its matches.
   */
  lemma GrepCompleteBelowCap(keys: seq<string>, contents: map<string, string>, pattern: string, files: FilesArg,
                             path: Option<string>, filePattern: string, maxResults: int, caseSensitive: bool,
                             contextLines: int, mode: Mode, recursive: bool, fnmatch: (string, string) -> bool,
                             name: string)
    requires forall k :: k in keys ==> k in contents
    requires GrepRun(keys, contents, pattern, files, path, filePattern, maxResults, caseSensitive,
                     contextLines, mode, recursive, fnmatch).Searched?
    requires GrepRun(keys, contents, pattern, files, path, filePattern, maxResults, caseSensitive,
                     contextLines, mode, recursive, fnmatch).total < maxResults
    requires name in GrepFiles(keys, files, path, filePattern, recursive, fnmatch)
    requires name in contents && contents[name] != []
    ensures var all := AllMatches(SplitLines(contents[name]), 0, LineTest(pattern, caseSensitive, mode), contextLines);
            all == [] || FileHits(name, all) in GrepRun(keys, contents, pattern, files, path, filePattern, maxResults,
                                                      caseSensitive, contextLines, mode, recursive, fnmatch).results
  {
    var toSearch := GrepFiles(keys, files, path, filePattern, recursive, fnmatch);
    var test := LineTest(pattern, caseSensitive, mode);
    assert forall k :: 0 <= k < |toSearch| ==> toSearch[k] in contents;
    var targets := Targets(toSearch, contents);
    var t :| 0 <= t < |toSearch| && toSearch[t] == name;
    assert targets[t].lines == Some(SplitLines(contents[name]));
    SearchCompleteBelowCap(targets, 0, test, 0, maxResults, contextLines, t);
  }

  // ---------------------------------------------------------------------
  // The tools' loops over the keys

  /** The candidate loop of `glob`, in key order. */
  method SelectCandidates(keys: seq<string>, sp: string, recursive: bool) returns (candidates: seq<string>)
    ensures candidates == Filter(keys, CandidateTest(sp, recursive))
  {
    var test := CandidateTest(sp, recursive);
    candidates := [];
    var i := 0;
    while i < |keys|
      invariant i <= |keys|
      invariant candidates + Filter(keys[i..], test) == Filter(keys, test)
      decreases |keys| - i
    {
      var key := keys[i];
      // `if search_path and not file_path.startswith(search_path): continue`
      var keep := sp <= key;
      // the non-recursive rule
      if keep && !recursive && sp != [] {
        var rel := Relative(key, sp);
        keep := '/' !in rel;
      }
      assert keys[i..][1..] == keys[i + 1..];
      assert keep == InScope(key, sp, recursive);
      if keep {
        candidates := candidates + [key];
      }
      i := i + 1;
    }
    assert candidates + [] == candidates;
  }

  /** The matching loop of `glob`: stops before the path that would exceed the cap. */
  method MatchPaths(all: seq<string>, sp: string, pattern: string, recursive: bool,
                    fnmatch: (string, string) -> bool, maxResults: int)
    returns (results: seq<string>)
    ensures results == CappedFilter(all, GlobTest(sp, pattern, recursive, fnmatch), maxResults)
  {
    results := [];
    var j := 0;
    while j < |all|
      invariant j <= |all|
      invariant Remaining(results, all[j..], sp, pattern, recursive, fnmatch, maxResults)
                == CappedFilter(all, GlobTest(sp, pattern, recursive, fnmatch), maxResults)
      decreases |all| - j
    {
      if |results| >= maxResults {
        break;
      }
      results := MatchStep(results, all[j..], sp, pattern, recursive, fnmatch, maxResults);
      assert all[j..][1..] == all[j + 1..];
      j := j + 1;
    }
    assert results + [] == results;
  }

  /** What the loop will have found: the results so far, then the capped matches among the rest. */
  ghost function Remaining(results: seq<string>, rest: seq<string>, sp: string, pattern: string, recursive: bool,
                           fnmatch: (string, string) -> bool, maxResults: int): seq<string>
  {
    results + CappedFilter(rest, GlobTest(sp, pattern, recursive, fnmatch), maxResults - |results|)
  }

  /** One iteration of `glob`'s loop: the next path is appended when it matches. */
  method MatchStep(results: seq<string>, rest: seq<string>, sp: string, pattern: string, recursive: bool,
                   fnmatch: (string, string) -> bool, maxResults: int)
    returns (next: seq<string>)
    requires rest != [] && |results| < maxResults
    ensures Remaining(next, rest[1..], sp, pattern, recursive, fnmatch, maxResults)
            == Remaining(results, rest, sp, pattern, recursive, fnmatch, maxResults)
  {
    var accepted := Accepts(rest[0], sp, pattern, recursive, fnmatch);
    next := if accepted then results + [rest[0]] else results;
    CappedFilterStep(results, rest, GlobTest(sp, pattern, recursive, fnmatch), maxResults, accepted, next);
  }

  /** One step of `glob`'s loop: the relative path matches, or in a recursive search its last segment. */
  method Accepts(full: string, sp: string, pattern: string, recursive: bool, fnmatch: (string, string) -> bool)
    returns (accepted: bool)
    ensures accepted == GlobMatch(full, sp, pattern, recursive, fnmatch)
  {
    accepted := false;
    if sp == [] || sp <= full {
      var rel := if sp == [] then full else Relative(full, sp);
      if fnmatch(rel, pattern) {
        accepted := true;
      } else if recursive && '/' in rel {
        var filename := LastSegment(rel);
        if fnmatch(filename, pattern) {
          accepted := true;
        }
      }
    }
  }

  /** The validation loop of `grep`'s files mode: the first named file not in the store. */
  method FindMissing(names: seq<string>, contents: map<string, string>) returns (missing: Option<string>)
    ensures missing == FirstMissing(names, contents)
  {
    var i := 0;
    while i < |names|
      invariant i <= |names|
      invariant FirstMissing(names, contents) == FirstMissing(names[i..], contents)
      decreases |names| - i
    {
      assert names[i..][1..] == names[i + 1..];
      if names[i] !in contents {
        return Some(names[i]);
      }
      i := i + 1;
    }
    return None;
  }

  /** The path-mode loop of `grep`, in key order. */
  method SelectGrepFiles(keys: seq<string>, sp: string, recursive: bool, filePattern: string,
                         fnmatch: (string, string) -> bool)
    returns (toSearch: seq<string>)
    ensures toSearch == Filter(keys, GrepPathTest(sp, recursive, filePattern, fnmatch))
  {
    var keep := GrepPathTest(sp, recursive, filePattern, fnmatch);
    toSearch := [];
    var i := 0;
    while i < |keys|
      invariant i <= |keys|
      invariant toSearch + Filter(keys[i..], keep) == Filter(keys, keep)
      decreases |keys| - i
    {
      var key := keys[i];
      assert keys[i..][1..] == keys[i + 1..];
      var inPath := sp <= key;
      if inPath && !recursive && sp != [] {
        var rel := Relative(key, sp);
        inPath := '/' !in rel;
      }
      var selected := false;
      if inPath {
        var filename := LastSegment(key);
        selected := fnmatch(filename, filePattern);
      }
      assert inPath == InScope(key, sp, recursive);
      assert selected == keep(key);
      if selected {
        toSearch := toSearch + [key];
      }
      i := i + 1;
    }
    assert toSearch + [] == toSearch;
  }

  // ---------------------------------------------------------------------
  // The store

  /** The session's `files` dict; `order` is its key order, which `ls`, `glob` and `grep` follow. */
  class FileStore {
    var order: seq<string>
    var contents: map<string, string>

    ghost predicate Valid()
      reads this
    {
      Enumerates(order, contents.Keys)
    }

    /** A session without files. */
    constructor ()
      ensures Valid() && order == [] && contents == map[]
    {
      order := [];
      contents := map[];
    }

    /** `ls`: the keys, each once, in insertion order. */
    function Ls(): (r: seq<string>)
      reads this
      requires Valid()
      ensures Distinct(r) && forall p :: p in r <==> p in contents
    {
      order
    }

    /** `read_file` */
    method ReadFile(path: string, offset: int, limit: int) returns (r: Result<string, Exception>)
      ensures r == ReadReply(path, ReadStore(contents, path, offset, limit))
    {
      if path !in contents {
        return Ok("Error: File '" + path + "' not found");
      }
      var o := ReadContent(contents[path], offset, limit);
      r := ReadReply(path, o);
    }

    /** `write_file`: sets the entry (a new key goes last) and returns the whole dict. */
    method WriteFile(path: string, content: string, toolCallId: string) returns (reply: ToolReply)
      requires Valid()
      modifies this
      ensures Valid()
      ensures contents == old(contents)[path := content]
      ensures order == if path in old(contents) then old(order) else old(order) + [path]
      ensures reply == Command(Update(None, Some(contents), [ToolMessage("Updated file " + path, toolCallId)]))
    {
      if path !in contents {
        order := order + [path];
      }
      contents := contents[path := content];
      assert forall p :: p in order <==> p in contents;
      reply := Command(Update(None, Some(contents), [ToolMessage("Updated file " + path, toolCallId)]));
    }

    /** `edit_file`: reads, checks, replaces, and stores only after a successful replacement. */
    method EditFile(path: string, target: string, repl: string, replaceAll: bool, toolCallId: string)
      returns (reply: ToolReply)
      requires Valid()
      modifies this
      ensures Valid() && order == old(order)
      ensures contents == AfterEdit(old(contents), path, EditStore(old(contents), path, target, repl, replaceAll))
      ensures reply == EditReply(contents, path, target, EditStore(old(contents), path, target, repl, replaceAll), toolCallId)
    {
      if path !in contents {
        return Plain("Error: File '" + path + "' not found");
      }
      var content := contents[path];
      if !Contains(content, target) {
        return Plain("Error: String not found in file: '" + target + "'");
      }
      if !replaceAll {
        var occurrences := Count(content, target);
        if occurrences > 1 {
          return Plain(EditMessage(path, target, Ambiguous(occurrences)));
        } else if occurrences == 0 {
          return Plain("Error: String not found in file: '" + target + "'");
        }
      }
      var newContent, message;
      if replaceAll {
        newContent := ReplaceAll(content, target, repl);
        message := EditMessage(path, target, ReplacedAll(newContent, Count(content, target)));
      } else {
        newContent := ReplaceFirst(content, target, repl);
        message := EditMessage(path, target, ReplacedOne(newContent));
      }
      contents := contents[path := newContent];
      assert forall p :: p in order <==> p in contents;
      reply := Command(Update(None, Some(contents), [ToolMessage(message, toolCallId)]));
    }

    /**
     * `glob`. `fnmatch` is the pattern matcher and `dirOrder` the iteration order of the
     * directory set, both outside the model.
     */
    method Glob(pattern: string, path: string, maxResults: int, includeDirs: bool, recursive: bool,
                fnmatch: (string, string) -> bool, dirOrder: seq<string>)
      returns (reply: string)
      requires Valid()
      requires Enumerates(dirOrder, GlobDirs(order, path, includeDirs, recursive))
      ensures reply == GlobReply(pattern, path, maxResults, includeDirs, recursive,
                                 GlobRun(order, pattern, path, maxResults, recursive, fnmatch, dirOrder))
    {
      if order == [] {
        return "No files available in the mock filesystem";
      }
      var sp := SearchPath(path);

      var candidates := SelectCandidates(order, sp, recursive);
      var results := MatchPaths(candidates + dirOrder, sp, pattern, recursive, fnmatch, maxResults);
      results := Sort(results);
      reply := GlobReply(pattern, path, maxResults, includeDirs, recursive, GlobMatches(results));
    }

    /**
     * `grep`; in regex mode `mode` carries the compiled expression's search, or the
     * compiler's error message.
     */
    method Grep(pattern: string, files: FilesArg, path: Option<string>, filePattern: string, maxResults: int,
                caseSensitive: bool, contextLines: int, mode: Mode, recursive: bool,
                fnmatch: (string, string) -> bool)
      returns (reply: string)
      requires Valid()
      ensures reply == GrepReply(GrepRun(order, contents, pattern, files, path, filePattern, maxResults, caseSensitive,
                                         contextLines, mode, recursive, fnmatch),
                                 pattern, mode, caseSensitive, maxResults, contextLines)
    {
      var o := GrepSteps(pattern, files, path, filePattern, maxResults, caseSensitive, contextLines, mode, recursive, fnmatch);
      reply := GrepReply(o, pattern, mode, caseSensitive, maxResults, contextLines);
    }

    /** The steps of `grep` up to the report. */
    method GrepSteps(pattern: string, files: FilesArg, path: Option<string>, filePattern: string, maxResults: int,
                     caseSensitive: bool, contextLines: int, mode: Mode, recursive: bool,
                     fnmatch: (string, string) -> bool)
      returns (o: GrepOutcome)
      requires Valid()
      ensures o == GrepRun(order, contents, pattern, files, path, filePattern, maxResults, caseSensitive,
                           contextLines, mode, recursive, fnmatch)
    {
      if order == [] {
        return NoFilesInStore;
      }
      var names := FileNames(files);
      if names == [] && (path.None? || path.value == []) {
        return MissingArguments;
      }
      var toSearch: seq<string>;
      if names != [] {
        var missing := FindMissing(names, contents);
        if missing.Some? {
          return MissingFile(missing.value);
        }
        toSearch := names;
      } else {
        toSearch := SelectGrepFiles(order, SearchPath(path.value), recursive, filePattern, fnmatch);
      }
      assert toSearch == GrepFiles(order, files, path, filePattern, recursive, fnmatch);
      if toSearch == [] {
        return NothingToSearch;
      }
      if mode.Regex? && mode.compiled.Err? {
        return BadRegex(mode.compiled.error);
      }
      var test := LineTest(pattern, caseSensitive, mode);
      var results, total := SearchFiles(Targets(toSearch, contents), test, maxResults, contextLines);
      o := Searched(results, total);
    }
  }
}
