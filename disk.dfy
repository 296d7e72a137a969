/**
 * The on-disk tools of src/deepagents/real_fs_tools.py, whose `ls`, `read_file`, `write_file`
 * and `edit_file` src/deepagents/local_fs_tools.py repeats line for line. The disk is a map
 * from paths to file data plus the set of directories; a tool's path argument arrives
 * together with the path it resolves to.
 */
module Disk {
  import opened Wrappers
  import opened Text
  import opened StringOrder
  import opened Collect
  import opened Listing
  import opened Editing

  /** A resolved path: its components from the root. */
  type Path = seq<string>

  /** A file's bytes: valid UTF-8 text, or other bytes, kept as what decoding them with `errors="ignore"` gives. */
  datatype FileData = Utf8(text: string) | NonUtf8(lossy: string)

  /** A snapshot of the disk. */
  datatype Drive = Drive(files: map<Path, FileData>, dirs: set<Path>)

  function Parent(p: Path): Path
    requires p != []
  {
    p[..|p| - 1]
  }

  /** The directories above `p`, the root included. */
  function Ancestors(p: Path): set<Path> {
    set k | 0 <= k < |p| :: p[..k]
  }

  /** The root is a directory, nothing is both a file and a directory, and every parent is a directory. */
  ghost predicate WellFormed(d: Drive) {
    [] in d.dirs
    && (forall p :: p in d.files ==> p !in d.dirs && p != [] && Parent(p) in d.dirs)
    && (forall p :: p in d.dirs && p != [] ==> Parent(p) in d.dirs)
  }

  predicate Exists(d: Drive, p: Path) {
    p in d.files || p in d.dirs
  }

  /** The names of the entries directly inside `p`. */
  function ChildNames(d: Drive, p: Path): set<string> {
    set c | c in d.files.Keys + d.dirs && |c| == |p| + 1 && p <= c :: c[|p|]
  }

  /** What reading a file returns: a text-mode read, or the lossy decoding of its bytes. */
  function Decoded(data: FileData): string {
    match data
    case Utf8(text) => TranslateNewlines(text)
    case NonUtf8(lossy) => lossy
  }

  // ---------------------------------------------------------------------
  // Specifications

  /** `ls(path)`: an error entry, or the entry names sorted. */
  function LsSpec(d: Drive, path: string, at: Path, entries: seq<string>): seq<string> {
    if !Exists(d, at) then ["Error: Path '" + path + "' does not exist"]
    else if at !in d.dirs then ["Error: Path '" + path + "' is not a directory"]
    else Sort(entries)
  }

  /** What `read_file` reports. */
  function ReadSpec(d: Drive, at: Path, offset: int, limit: int): ReadOutcome {
    if !Exists(d, at) then NotFound
    else if at !in d.files then NotAFile
    else ReadText(Decoded(d.files[at]), offset, limit)
  }

  /** The reply: an escaping `IndexError` is caught and reported. */
  function ReadSpecReply(path: string, o: ReadOutcome): string {
    match ReadReply(path, o)
    case Ok(text) => text
    case Err(_) => "Error reading file: list index out of range"
  }

  /** Why a write fails: an ancestor is a file (`mkdir`), or the path is a directory (`open`). */
  datatype WriteError = AncestorIsFile | TargetIsDirectory

  function WriteSpec(d: Drive, at: Path, content: string): (Drive, Result<(), WriteError>) {
    if exists a :: a in Ancestors(at) && a in d.files then (d, Err(AncestorIsFile))
    else if at in d.dirs then (d, Err(TargetIsDirectory))
    else (Drive(d.files[at := Utf8(content)], d.dirs + Ancestors(at)), Ok(()))
  }

  /** Where `edit_file` stops. */
  datatype DiskEdit = EditNotFound | EditNotAFile | NotUtf8 | Decided(outcome: EditOutcome)

  function EditSpec(d: Drive, at: Path, target: string, repl: string, replaceAll: bool): DiskEdit {
    if !Exists(d, at) then EditNotFound
    else if at !in d.files then EditNotAFile
    else match d.files[at]
      case NonUtf8(_) => NotUtf8
      case Utf8(text) => Decided(Edit(TranslateNewlines(text), target, repl, replaceAll))
  }

  predicate EditSucceeded(e: DiskEdit) {
    e.Decided? && !IsError(e.outcome)
  }

  /** The disk after an edit: the new text is written back only after a successful replacement. */
  function AfterEdit(d: Drive, at: Path, e: DiskEdit): Drive {
    if EditSucceeded(e) then
      Drive(d.files[at := Utf8(e.outcome.text)], d.dirs)
    else d
  }

  function EditSpecReply(path: string, target: string, e: DiskEdit): string {
    match e
    case EditNotFound => "Error: File '" + path + "' not found"
    case EditNotAFile => "Error: '" + path + "' is not a file"
    case NotUtf8 => "Error: File '" + path + "' contains non-UTF-8 content"
    case Decided(o) => EditMessage(path, target, o)
  }

  // ---------------------------------------------------------------------
  // The disk

  class DiskStore {
    var files: map<Path, FileData>
    var dirs: set<Path>

    function Snapshot(): Drive
      reads this
    {
      Drive(files, dirs)
    }

    ghost predicate Valid()
      reads this
    {
      WellFormed(Snapshot())
    }

    /** An empty disk: the root directory alone. */
    constructor ()
      ensures Valid() && files == map[] && dirs == {[]}
    {
      files := map[];
      dirs := {[]};
    }

    /** `real_ls` / `ls`; `entries` is the directory's iteration order, outside the model. */
    method Ls(path: string, at: Path, entries: seq<string>) returns (r: seq<string>)
      requires at in dirs ==> Enumerates(entries, ChildNames(Snapshot(), at))
      ensures r == LsSpec(Snapshot(), path, at, entries)
    {
      if !(at in files || at in dirs) {
        return ["Error: Path '" + path + "' does not exist"];
      }
      if at !in dirs {
        return ["Error: Path '" + path + "' is not a directory"];
      }
      var items: seq<string> := [];
      var i := 0;
      while i < |entries|
        invariant i <= |entries| && items == entries[..i]
        decreases |entries| - i
      {
        items := items + [entries[i]];
        i := i + 1;
      }
      assert items == entries;
      r := Sort(items);
    }

    /** `real_read_file` / `read_file` */
    method ReadFile(path: string, at: Path, offset: int, limit: int) returns (reply: string)
      ensures reply == ReadSpecReply(path, ReadSpec(Snapshot(), at, offset, limit))
    {
      if !(at in files || at in dirs) {
        return "Error: File '" + path + "' not found";
      }
      if at !in files {
        return "Error: '" + path + "' is not a file";
      }
      var content: string;
      match files[at] {
        case Utf8(text) => content := TranslateNewlines(text);
        case NonUtf8(lossy) => content := lossy;
      }
      assert content == Decoded(files[at]);
      var o := ReadContent(content, offset, limit);
      reply := ReadSpecReply(path, o);
    }

    /**
     * `real_write_file` / `write_file`: creates the missing parent directories, then replaces
     * the file's whole content; on an error nothing changes.
     */
    method WriteFile(path: string, at: Path, content: string) returns (r: Result<string, WriteError>)
      requires Valid()
      modifies this
      ensures Valid()
      ensures Snapshot() == WriteSpec(old(Snapshot()), at, content).0
      ensures r == match WriteSpec(old(Snapshot()), at, content).1
                   case Ok(_) => Ok("Successfully wrote to file '" + path + "'")
                   case Err(e) => Err(e)
    {
      if exists a :: a in Ancestors(at) && a in files {
        return Err(AncestorIsFile);
      }
      if at in dirs {
        return Err(TargetIsDirectory);
      }
      ghost var before := Snapshot();
      dirs := dirs + Ancestors(at);
      files := files[at := Utf8(content)];
      assert at != [] by {
        assert [] in before.dirs;
      }
      assert Parent(at) in Ancestors(at);
      forall p | p in dirs && p != []
        ensures Parent(p) in dirs
      {
        if p in Ancestors(at) {
          var k :| 0 <= k < |at| && p == at[..k];
          assert Parent(p) == at[..k - 1];
        }
      }
      r := Ok("Successfully wrote to file '" + path + "'");
    }

    /** `real_edit_file` / `edit_file`: reads, checks, and writes back only after a successful replacement. */
    method EditFile(path: string, at: Path, target: string, repl: string, replaceAll: bool) returns (reply: string)
      requires Valid()
      modifies this
      ensures Valid()
      ensures Snapshot() == AfterEdit(old(Snapshot()), at, EditSpec(old(Snapshot()), at, target, repl, replaceAll))
      ensures reply == EditSpecReply(path, target, EditSpec(old(Snapshot()), at, target, repl, replaceAll))
    {
      if !(at in files || at in dirs) {
        return "Error: File '" + path + "' not found";
      }
      if at !in files {
        return "Error: '" + path + "' is not a file";
      }
      if files[at].NonUtf8? {
        return "Error: File '" + path + "' contains non-UTF-8 content";
      }
      var content := TranslateNewlines(files[at].text);
      if !Contains(content, target) {
        return "Error: String not found in file: '" + target + "'";
      }
      if !replaceAll {
        var occurrences := Count(content, target);
        if occurrences > 1 {
          return EditMessage(path, target, Ambiguous(occurrences));
        } else if occurrences == 0 {
          return "Error: String not found in file: '" + target + "'";
        }
      }
      var newContent;
      if replaceAll {
        newContent := ReplaceAll(content, target, repl);
        reply := EditMessage(path, target, ReplacedAll(newContent, Count(content, target)));
      } else {
        newContent := ReplaceFirst(content, target, repl);
        reply := EditMessage(path, target, ReplacedOne(newContent));
      }
      files := files[at := Utf8(newContent)];
    }
  }

  // ---------------------------------------------------------------------
  // Properties

  /**
   * A listing of a directory is its entry names, sorted, each once, and does not depend on
   * the order the directory yields them in.
   */
  lemma LsSorted(d: Drive, path: string, at: Path, entries: seq<string>, others: seq<string>)
    requires at in d.dirs
    requires Enumerates(entries, ChildNames(d, at)) && Enumerates(others, ChildNames(d, at))
    ensures var r := LsSpec(d, path, at, entries);
            Sorted(r) && multiset(r) == multiset(entries)
            && (forall n :: n in r <==> n in ChildNames(d, at))
            && r == LsSpec(d, path, at, others)
  {
    var r := Sort(entries);
    forall n
      ensures n in r <==> n in entries
    {
      assert n in r <==> n in multiset(r);
      assert n in entries <==> n in multiset(entries);
    }
    EnumerationsAgree(entries, others, ChildNames(d, at));
    SortedUnique(Sort(entries), Sort(others));
  }

  /** A missing path and a path that is not a directory give one distinct error entry each. */
  lemma LsErrors(d: Drive, path: string, at: Path, entries: seq<string>)
    ensures !Exists(d, at) ==> LsSpec(d, path, at, entries) == ["Error: Path '" + path + "' does not exist"]
    ensures Exists(d, at) && at !in d.dirs ==>
              LsSpec(d, path, at, entries) == ["Error: Path '" + path + "' is not a directory"]
    ensures |LsSpec(d, path, at, entries)| == (if at in d.dirs then |entries| else 1)
  {
  }

  /**
   * A non-UTF-8 file is read through the lossy decoding instead of failing; its text is the
   * decoded one, with no newline translation.
   */
  lemma ReadNonUtf8(d: Drive, at: Path, offset: int, limit: int)
    requires at in d.files && d.files[at].NonUtf8?
    ensures ReadSpec(d, at, offset, limit) == ReadText(d.files[at].lossy, offset, limit)
    ensures ReadSpec(d, at, offset, limit) != NotFound && ReadSpec(d, at, offset, limit) != NotAFile
  {
    assert Decoded(d.files[at]) == d.files[at].lossy;
    EmptyContentsIffBlank(d.files[at].lossy, offset, limit);
  }

  /**
   * After a successful write the parents exist as directories, the file holds exactly the new
   * content, and every other file is as it was.
   */
  lemma WriteEffect(d: Drive, at: Path, content: string, other: Path)
    requires WriteSpec(d, at, content).1.Ok?
    ensures var after := WriteSpec(d, at, content).0;
            Ancestors(at) <= after.dirs && at in after.files && after.files[at] == Utf8(content)
            && (other != at && other in d.files ==> other in after.files && after.files[other] == d.files[other])
  {
  }

  /**
   * What a successful write stored reads back: content without `\r`, not blank and with no
   * line over 2000 characters, read from offset 0, lists each line under its number.
   */
  lemma WriteThenRead(d: Drive, at: Path, content: string, limit: int)
    requires WriteSpec(d, at, content).1.Ok?
    requires forall i :: 0 <= i < |content| ==> content[i] != '\r'
    requires !IsBlank(content) && limit >= |SplitLines(content)|
    requires forall k :: 0 <= k < |SplitLines(content)| ==> |SplitLines(content)[k]| <= MaxLineLength
    ensures var out := ReadSpec(WriteSpec(d, at, content).0, at, 0, limit);
            out.Listed? && |out.lines| == |SplitLines(content)|
            && forall k :: 0 <= k < |out.lines| ==> ParseLine(out.lines[k]) == Some((k + 1, SplitLines(content)[k]))
  {
    var after := WriteSpec(d, at, content).0;
    WriteEffect(d, at, content, at);
    TranslateWithoutCR(content);
    assert ReadSpec(after, at, 0, limit) == ReadText(content, 0, limit);
    ReadBack(content, limit);
  }

  /** A failed write leaves the disk as it was. */
  lemma WriteFailure(d: Drive, at: Path, content: string)
    ensures WriteSpec(d, at, content).1 == Err(AncestorIsFile)
            <==> exists a :: a in Ancestors(at) && a in d.files
    ensures WriteSpec(d, at, content).1.Err? ==> WriteSpec(d, at, content).0 == d
    ensures WriteSpec(d, at, content).1 == Err(TargetIsDirectory)
            <==> (forall a :: a in Ancestors(at) ==> a !in d.files) && at in d.dirs
  {
  }

  /**
   * `edit_file` leaves the disk untouched when the file is missing, is not a file, is not
   * UTF-8, or the string is absent or ambiguous without `replace_all`; otherwise it writes the
   * replaced text at the path and nothing else.
   */
  lemma EditOnlyOnSuccess(d: Drive, at: Path, target: string, repl: string, replaceAll: bool)
    ensures var e := EditSpec(d, at, target, repl, replaceAll);
            var failed := at !in d.files || d.files[at].NonUtf8?
                          || !Contains(TranslateNewlines(d.files[at].text), target)
                          || (!replaceAll && Count(TranslateNewlines(d.files[at].text), target) > 1);
            (failed <==> !EditSucceeded(e))
            && (failed ==> AfterEdit(d, at, e) == d)
            && (!failed ==> AfterEdit(d, at, e).dirs == d.dirs
                            && AfterEdit(d, at, e).files == d.files[at := Utf8(e.outcome.text)])
  {
    if at in d.files && d.files[at].Utf8? {
      EditFailsIff(TranslateNewlines(d.files[at].text), target, repl, replaceAll);
    }
  }

  /** With `replace_all` every occurrence is replaced and their number reported. */
  lemma EditReplaceAllReport(d: Drive, path: string, at: Path, target: string, repl: string)
    requires at in d.files && d.files[at].Utf8? && Contains(TranslateNewlines(d.files[at].text), target)
    ensures var text := TranslateNewlines(d.files[at].text);
            EditSpec(d, at, target, repl, true) == Decided(ReplacedAll(ReplaceAll(text, target, repl), Count(text, target)))
            && EditSpecReply(path, target, EditSpec(d, at, target, repl, true))
               == "Successfully replaced " + IntToString(Count(text, target)) + " instance(s) of the string in '" + path + "'"
  {
  }
}
