/**
 * The approval cache of examples/code/post_model_hook.py: a hook that runs after each model
 * turn, asks the user (through `interrupt`) before a gated tool runs on a directory it has not
 * been approved for, remembers each approval as `command:directory`, and drops rejected calls.
 *
 * The path functions of `os.path`, the working directory and the `repr` of an argument dict are
 * parameters; the user's answers to the interrupts are given in the order they are asked.
 */
module Approval {
  import opened Wrappers
  import opened Collect
  import opened Session
  import Text

  /** The environment the key depends on: `os.getcwd()`, `os.path.abspath`, `dirname`, `normpath`. */
  datatype PathOps = PathOps(cwd: string, abspath: string -> string, dirname: string -> string,
                             normpath: string -> string, argsRepr: Args -> string)

  const FileTools: set<string> := {"write_file", "str_replace_based_edit_tool", "edit_file"}
  const ReadTools: set<string> := {"ls", "glob", "grep"}

  /** The tools that need approval; every other call passes unasked. */
  const GatedTools: set<string> :=
    {"write_file", "execute_bash", "str_replace_based_edit_tool", "ls", "edit_file", "glob", "grep"}

  /** `args.get(key)`, with an absent key read as the (equally falsy) empty string. */
  function Get(args: Args, key: string): string {
    if key in args then args[key] else ""
  }

  /** Python's `a or b` on strings. */
  function Or(a: string, b: string): string {
    if a != "" then a else b
  }

  /** The directory an operation acts on. */
  function TargetDir(ops: PathOps, command: string, args: Args): string {
    var target :=
      if command in FileTools then
        var filePath := Or(Get(args, "file_path"), Get(args, "path"));
        if filePath != "" then ops.dirname(ops.abspath(filePath)) else ""
      else if command == "execute_bash" then Or(Get(args, "cwd"), ops.cwd)
      else if command in ReadTools then Or(Or(Get(args, "path"), Get(args, "directory")), ops.cwd)
      else "";
    if target == "" then ops.cwd else target
  }

  /** `get_approval_key`: `f"{command}:{normpath(target_dir)}"`. */
  function ApprovalKey(ops: PathOps, command: string, args: Args): string {
    command + ":" + ops.normpath(TargetDir(ops, command, args))
  }

  /**
   * A key names its command and its normalised directory, and splitting it at the first `:`
   * gives them back when the command has no `:` (as no tool name has).
   */
  lemma ApprovalKeyParts(ops: PathOps, command: string, args: Args)
    requires ':' !in command
    ensures Text.BeforeFirst(ApprovalKey(ops, command, args), ':') == command
    ensures Text.AfterFirst(ApprovalKey(ops, command, args), ':') == ops.normpath(TargetDir(ops, command, args))
  {
    Text.SplitAtFirst(command, ':', ops.normpath(TargetDir(ops, command, args)));
  }

  /** Approving one command never approves another: keys of different commands differ. */
  lemma KeysSeparateCommands(ops: PathOps, c1: string, a1: Args, c2: string, a2: Args)
    requires ':' !in c1 && ':' !in c2 && c1 != c2
    ensures ApprovalKey(ops, c1, a1) != ApprovalKey(ops, c2, a2)
  {
    ApprovalKeyParts(ops, c1, a1);
    ApprovalKeyParts(ops, c2, a2);
  }

  /** The operations the key is built for: a file tool is keyed by the file's directory, a read by its path. */
  lemma TargetDirOfTools(ops: PathOps, command: string, args: Args)
    ensures command in FileTools && Get(args, "file_path") != "" && ops.dirname(ops.abspath(Get(args, "file_path"))) != ""
            ==> TargetDir(ops, command, args) == ops.dirname(ops.abspath(Get(args, "file_path")))
    ensures command in ReadTools && Get(args, "path") != "" ==> TargetDir(ops, command, args) == Get(args, "path")
    ensures command == "execute_bash" && Get(args, "cwd") == "" ==> TargetDir(ops, command, args) == ops.cwd
    ensures command !in GatedTools ==> TargetDir(ops, command, args) == ops.cwd
  {
  }

  // ---------------------------------------------------------------------
  // The cache: the `approved_operations` dict, whose "cached_approvals" entry is a set of keys

  type Operations = map<string, set<string>>

  function Cached(approved: Operations): set<string> {
    if "cached_approvals" in approved then approved["cached_approvals"] else {}
  }

  /** `is_operation_approved`: never for an empty dict, else membership of the key. */
  predicate IsOperationApproved(ops: PathOps, approved: Operations, command: string, args: Args) {
    approved != map[] && ApprovalKey(ops, command, args) in Cached(approved)
  }

  /** `add_approved_operation`: create the set if needed and add the key. */
  function AddApprovedOperation(ops: PathOps, approved: Operations, command: string, args: Args): (r: Operations)
    ensures Cached(r) == Cached(approved) + {ApprovalKey(ops, command, args)}
    ensures r.Keys == approved.Keys + {"cached_approvals"}
    ensures forall k :: k in approved && k != "cached_approvals" ==> r[k] == approved[k]
  {
    var withSet := if "cached_approvals" in approved then approved else approved["cached_approvals" := {}];
    withSet["cached_approvals" := withSet["cached_approvals"] + {ApprovalKey(ops, command, args)}]
  }

  /**
   * Adding only ever grows the cache: what was approved stays approved, and the operation just
   * added is approved from then on.
   */
  lemma AddThenApproved(ops: PathOps, approved: Operations, command: string, args: Args, c: string, a: Args)
    ensures IsOperationApproved(ops, AddApprovedOperation(ops, approved, command, args), command, args)
    ensures IsOperationApproved(ops, approved, c, a)
            ==> IsOperationApproved(ops, AddApprovedOperation(ops, approved, command, args), c, a)
  {
    var r := AddApprovedOperation(ops, approved, command, args);
    assert "cached_approvals" in r;
  }

  // ---------------------------------------------------------------------
  // The hook

  /** What the question asks about: the command, the directory part of the key, and `repr(args)`. */
  datatype Question = Question(command: string, directory: string, argsText: string)

  /** The question's text. */
  function QuestionText(q: Question): string {
    "New operation detected:\n\nCommand: " + q.command + "\nDirectory: " + q.directory
    + "\nArgs: " + q.argsText
    + "\n\nApprove this command for this directory? (Future identical operations in this directory will be auto-approved)"
    + "\n\nRespond with True to approve or False to reject."
  }

  /** The payload of one `interrupt`; its `question` is rendered by `QuestionText`. */
  datatype Request = Request(question: Question, command: string, args: Args, approvalKey: string)

  function RequestFor(ops: PathOps, call: ToolCall): Request {
    var key := ApprovalKey(ops, call.name, call.args);
    Request(Question(call.name, Text.AfterFirst(key, ':'), ops.argsRepr(call.args)), call.name, call.args, key)
  }

  /** The question shows the command and the directory of the key. */
  lemma RequestShowsDirectory(ops: PathOps, call: ToolCall)
    requires ':' !in call.name
    ensures RequestFor(ops, call).question.directory == ops.normpath(TargetDir(ops, call.name, call.args))
    ensures RequestFor(ops, call).approvalKey == call.name + ":" + RequestFor(ops, call).question.directory
  {
    ApprovalKeyParts(ops, call.name, call.args);
  }

  /**
   * The loop's state: the calls kept so far, the cache, whether it was stored back into the
   * agent's state, and the interrupts raised (the i-th is answered by `answers[i]`).
   */
  datatype Screening = Screening(kept: seq<ToolCall>, approved: Operations, saved: bool, asked: seq<Request>)

  /** A call that runs without asking: an ungated tool, or an operation already approved. */
  predicate Passes(ops: PathOps, approved: Operations, call: ToolCall) {
    call.name !in GatedTools || IsOperationApproved(ops, approved, call.name, call.args)
  }

  /** One turn of the loop; `Err` is an interrupt that has no answer yet. */
  function Step(ops: PathOps, s: Screening, call: ToolCall, answers: seq<bool>): Result<Screening, Request> {
    if Passes(ops, s.approved, call) then Ok(s.(kept := s.kept + [call]))
    else if |s.asked| >= |answers| then Err(RequestFor(ops, call))
    else if answers[|s.asked|] then
      Ok(Screening(s.kept + [call], AddApprovedOperation(ops, s.approved, call.name, call.args), true,
                   s.asked + [RequestFor(ops, call)]))
    else Ok(s.(asked := s.asked + [RequestFor(ops, call)]))
  }

  /** The loop over the last message's calls. */
  function ScreenFrom(ops: PathOps, calls: seq<ToolCall>, s: Screening, answers: seq<bool>): Result<Screening, Request>
    decreases |calls|
  {
    if calls == [] then Ok(s)
    else
      match Step(ops, s, calls[0], answers)
      case Err(request) => Err(request)
      case Ok(next) => ScreenFrom(ops, calls[1..], next, answers)
  }

  /** Approval survives a step: the cache only grows and a non-empty dict stays non-empty. */
  lemma StepGrows(ops: PathOps, s: Screening, call: ToolCall, answers: seq<bool>, c: ToolCall)
    requires Step(ops, s, call, answers).Ok?
    ensures var n := Step(ops, s, call, answers).value;
            Cached(s.approved) <= Cached(n.approved)
            && (Passes(ops, s.approved, c) ==> Passes(ops, n.approved, c))
            && (s.saved ==> n.saved)
            && (n.approved != s.approved ==> n.saved)
  {
    if !Passes(ops, s.approved, call) && answers[|s.asked|] {
      AddThenApproved(ops, s.approved, call.name, call.args, c.name, c.args);
    }
  }

  /** The loop's first turn: a batch that gets through also gets through its first call. */
  lemma ScreenFirst(ops: PathOps, calls: seq<ToolCall>, s: Screening, answers: seq<bool>)
    requires calls != [] && ScreenFrom(ops, calls, s, answers).Ok?
    ensures Step(ops, s, calls[0], answers).Ok?
    ensures ScreenFrom(ops, calls, s, answers)
            == ScreenFrom(ops, calls[1..], Step(ops, s, calls[0], answers).value, answers)
  {
  }

  /** One turn keeps the call or not, and asks about it (with an answer at hand) or not. */
  lemma StepRecords(ops: PathOps, s: Screening, call: ToolCall, answers: seq<bool>)
    requires Step(ops, s, call, answers).Ok?
    ensures var n := Step(ops, s, call, answers).value;
            (n.kept == s.kept + [call] || n.kept == s.kept)
            && (n.asked == s.asked || (n.asked == s.asked + [RequestFor(ops, call)] && |s.asked| < |answers|))
            && (Passes(ops, s.approved, call) ==> n.kept == s.kept + [call] && n.asked == s.asked)
            && (n.asked != s.asked ==> !Passes(ops, s.approved, call))
  {
  }

  /** The kept list after one more turn, seen from the list before it. */
  lemma KeptPrefixStep<T>(before: seq<T>, after: seq<T>, final: seq<T>, x: T, rest: seq<T>)
    requires after == before + [x] || after == before
    requires |after| <= |final| && final[..|after|] == after && IsSubsequence(final[|after|..], rest)
    ensures |before| <= |final| && final[..|before|] == before && IsSubsequence(final[|before|..], [x] + rest)
  {
    var tail := final[|after|..];
    assert ([x] + rest)[1..] == rest;
    if after == before + [x] {
      assert final[|before|..] == [x] + tail;
      assert ([x] + tail)[1..] == tail;
    } else {
      assert final[|before|..] == tail;
    }
  }

  /** The loop keeps a subsequence of the calls, in their order and unchanged. */
  lemma {:induction false} KeptSubsequence(ops: PathOps, calls: seq<ToolCall>, s: Screening, answers: seq<bool>)
    requires ScreenFrom(ops, calls, s, answers).Ok?
    ensures var r := ScreenFrom(ops, calls, s, answers).value;
            |s.kept| <= |r.kept| && r.kept[..|s.kept|] == s.kept && IsSubsequence(r.kept[|s.kept|..], calls)
    decreases |calls|
  {
    if calls != [] {
      ScreenFirst(ops, calls, s, answers);
      var next := Step(ops, s, calls[0], answers).value;
      StepRecords(ops, s, calls[0], answers);
      KeptSubsequence(ops, calls[1..], next, answers);
      var r := ScreenFrom(ops, calls, s, answers).value;
      KeptPrefixStep(s.kept, next.kept, r.kept, calls[0], calls[1..]);
      assert calls == [calls[0]] + calls[1..];
    }
  }

  /** Every call that passes when the loop reaches it (ungated, or approved beforehand) is kept. */
  lemma {:induction false} KeptIncludes(ops: PathOps, calls: seq<ToolCall>, s: Screening, answers: seq<bool>, c: ToolCall)
    requires ScreenFrom(ops, calls, s, answers).Ok?
    requires c in calls && Passes(ops, s.approved, c)
    ensures c in ScreenFrom(ops, calls, s, answers).value.kept
    decreases |calls|
  {
    var call := calls[0];
    var next := Step(ops, s, call, answers).value;
    KeptSubsequence(ops, calls[1..], next, answers);
    var r := ScreenFrom(ops, calls, s, answers).value;
    if c == call {
      assert next.kept == s.kept + [call];
      assert r.kept[..|next.kept|][|s.kept|] == c;
    } else {
      assert c in calls[1..];
      StepGrows(ops, s, call, answers, c);
      KeptIncludes(ops, calls[1..], next, answers, c);
    }
  }

  /** The cache only grows over the loop, and it is stored back whenever it changed. */
  lemma {:induction false} CacheGrows(ops: PathOps, calls: seq<ToolCall>, s: Screening, answers: seq<bool>)
    requires ScreenFrom(ops, calls, s, answers).Ok?
    ensures var r := ScreenFrom(ops, calls, s, answers).value;
            Cached(s.approved) <= Cached(r.approved) && (s.saved ==> r.saved) && (r.approved != s.approved ==> r.saved)
    decreases |calls|
  {
    if calls != [] {
      var next := Step(ops, s, calls[0], answers).value;
      StepGrows(ops, s, calls[0], answers, calls[0]);
      CacheGrows(ops, calls[1..], next, answers);
    }
  }

  /** The requests extend those made before, and each was answered. */
  lemma {:induction false} AskedExtends(ops: PathOps, calls: seq<ToolCall>, s: Screening, answers: seq<bool>)
    requires ScreenFrom(ops, calls, s, answers).Ok?
    ensures var r := ScreenFrom(ops, calls, s, answers).value;
            |s.asked| <= |r.asked| && r.asked[..|s.asked|] == s.asked
            && (|r.asked| > |s.asked| ==> |r.asked| <= |answers|)
    decreases |calls|
  {
    if calls != [] {
      ScreenFirst(ops, calls, s, answers);
      var next := Step(ops, s, calls[0], answers).value;
      StepRecords(ops, s, calls[0], answers);
      AskedExtends(ops, calls[1..], next, answers);
      var r := ScreenFrom(ops, calls, s, answers).value;
      AskedPrefixStep(s.asked, next.asked, r.asked, RequestFor(ops, calls[0]), |answers|);
    }
  }

  /** The requests after one more turn, seen from those before it. */
  lemma AskedPrefixStep<T>(before: seq<T>, after: seq<T>, final: seq<T>, x: T, answered: nat)
    requires after == before || (after == before + [x] && |before| < answered)
    requires |after| <= |final| && final[..|after|] == after && (|final| > |after| ==> |final| <= answered)
    ensures |before| <= |final| && final[..|before|] == before && (|final| > |before| ==> |final| <= answered)
  {
    assert final[..|before|] == final[..|after|][..|before|];
  }

  /**
   * Each request is made for a gated call of the batch, carries that call's command, arguments
   * and key, and is never made for an operation approved when the loop started.
   */
  lemma {:induction false} AskedFor(ops: PathOps, calls: seq<ToolCall>, s: Screening, answers: seq<bool>, j: nat)
    requires ScreenFrom(ops, calls, s, answers).Ok?
    requires |s.asked| <= j < |ScreenFrom(ops, calls, s, answers).value.asked|
    ensures var q := ScreenFrom(ops, calls, s, answers).value.asked[j];
            q.command in GatedTools && q.approvalKey !in Cached(s.approved)
            && exists c :: c in calls && !Passes(ops, s.approved, c) && q == RequestFor(ops, c)
    decreases |calls|
  {
    var call := calls[0];
    ScreenFirst(ops, calls, s, answers);
    var next := Step(ops, s, call, answers).value;
    StepRecords(ops, s, call, answers);
    AskedExtends(ops, calls[1..], next, answers);
    var r := ScreenFrom(ops, calls, s, answers).value;
    if j < |next.asked| {
      assert r.asked[..|next.asked|][j] == next.asked[j] == RequestFor(ops, call);
    } else {
      AskedFor(ops, calls[1..], next, answers, j);
      var c :| c in calls[1..] && !Passes(ops, next.approved, c) && r.asked[j] == RequestFor(ops, c);
      StepGrows(ops, s, call, answers, c);
      assert c in calls;
    }
  }

  /** An approved request's key is in the final cache. */
  lemma {:induction false} ApprovedCached(ops: PathOps, calls: seq<ToolCall>, s: Screening, answers: seq<bool>, i: nat)
    requires ScreenFrom(ops, calls, s, answers).Ok?
    requires |s.asked| <= i < |ScreenFrom(ops, calls, s, answers).value.asked| && i < |answers| && answers[i]
    ensures ScreenFrom(ops, calls, s, answers).value.asked[i].approvalKey in Cached(ScreenFrom(ops, calls, s, answers).value.approved)
    decreases |calls|
  {
    var call := calls[0];
    ScreenFirst(ops, calls, s, answers);
    var next := Step(ops, s, call, answers).value;
    StepRecords(ops, s, call, answers);
    AskedExtends(ops, calls[1..], next, answers);
    CacheGrows(ops, calls[1..], next, answers);
    var r := ScreenFrom(ops, calls, s, answers).value;
    if i < |next.asked| {
      assert r.asked[..|next.asked|][i] == next.asked[i] == RequestFor(ops, call);
    } else {
      ApprovedCached(ops, calls[1..], next, answers, i);
    }
  }

  /** Once the user approves a key, no later request in the batch asks for it again. */
  lemma {:induction false} NoReask(ops: PathOps, calls: seq<ToolCall>, s: Screening, answers: seq<bool>, i: nat, j: nat)
    requires ScreenFrom(ops, calls, s, answers).Ok?
    requires |s.asked| <= i < j < |ScreenFrom(ops, calls, s, answers).value.asked| && i < |answers| && answers[i]
    ensures ScreenFrom(ops, calls, s, answers).value.asked[i].approvalKey
            != ScreenFrom(ops, calls, s, answers).value.asked[j].approvalKey
    decreases |calls|
  {
    var call := calls[0];
    ScreenFirst(ops, calls, s, answers);
    var next := Step(ops, s, call, answers).value;
    StepRecords(ops, s, call, answers);
    AskedExtends(ops, calls[1..], next, answers);
    var r := ScreenFrom(ops, calls, s, answers).value;
    if i < |next.asked| {
      assert r.asked[..|next.asked|][i] == next.asked[i] == RequestFor(ops, call);
      assert next.approved == AddApprovedOperation(ops, s.approved, call.name, call.args);
      assert RequestFor(ops, call).approvalKey in Cached(next.approved);
      AskedFor(ops, calls[1..], next, answers, j);
      assert r.asked[j].approvalKey !in Cached(next.approved);
    } else {
      NoReask(ops, calls[1..], next, answers, i, j);
    }
  }

  /** An approval stores the cache back into the state. */
  lemma {:induction false} ApprovalSaves(ops: PathOps, calls: seq<ToolCall>, s: Screening, answers: seq<bool>, i: nat)
    requires ScreenFrom(ops, calls, s, answers).Ok?
    requires |s.asked| <= i < |ScreenFrom(ops, calls, s, answers).value.asked| && i < |answers| && answers[i]
    ensures ScreenFrom(ops, calls, s, answers).value.saved
    decreases |calls|
  {
    var call := calls[0];
    var next := Step(ops, s, call, answers).value;
    AskedExtends(ops, calls[1..], next, answers);
    CacheGrows(ops, calls[1..], next, answers);
    if i >= |next.asked| {
      ApprovalSaves(ops, calls[1..], next, answers, i);
    }
  }

  /** The keys the user approved, among the requests from index `from` on. */
  function ApprovedKeys(asked: seq<Request>, answers: seq<bool>, from: nat): set<string> {
    set j | from <= j < |asked| && j < |answers| && answers[j] :: asked[j].approvalKey
  }

  /** The cache at the end holds only what it started with and the keys the user approved. */
  lemma {:induction false} CacheFromApprovals(ops: PathOps, calls: seq<ToolCall>, s: Screening, answers: seq<bool>)
    requires ScreenFrom(ops, calls, s, answers).Ok?
    ensures var r := ScreenFrom(ops, calls, s, answers).value;
            Cached(r.approved) <= Cached(s.approved) + ApprovedKeys(r.asked, answers, |s.asked|)
    decreases |calls|
  {
    if calls != [] {
      var call := calls[0];
      ScreenFirst(ops, calls, s, answers);
      var next := Step(ops, s, call, answers).value;
      StepRecords(ops, s, call, answers);
      AskedExtends(ops, calls[1..], next, answers);
      CacheFromApprovals(ops, calls[1..], next, answers);
      var r := ScreenFrom(ops, calls, s, answers).value;
      assert ApprovedKeys(r.asked, answers, |next.asked|) <= ApprovedKeys(r.asked, answers, |s.asked|);
      if !Passes(ops, s.approved, call) && answers[|s.asked|] {
        assert r.asked[..|next.asked|][|s.asked|] == RequestFor(ops, call);
        assert RequestFor(ops, call).approvalKey in ApprovedKeys(r.asked, answers, |s.asked|);
      }
    }
  }

  /**
   * Every call the loop keeps is justified: it passed when the loop started, or the user
   * approved a request for its key.
   */
  lemma {:induction false} KeptJustified(ops: PathOps, calls: seq<ToolCall>, s: Screening, answers: seq<bool>, k: nat)
    requires ScreenFrom(ops, calls, s, answers).Ok?
    requires |s.kept| <= k < |ScreenFrom(ops, calls, s, answers).value.kept|
    ensures var r := ScreenFrom(ops, calls, s, answers).value;
            Passes(ops, s.approved, r.kept[k])
            || ApprovalKey(ops, r.kept[k].name, r.kept[k].args) in ApprovedKeys(r.asked, answers, |s.asked|)
    decreases |calls|
  {
    var call := calls[0];
    ScreenFirst(ops, calls, s, answers);
    var next := Step(ops, s, call, answers).value;
    StepRecords(ops, s, call, answers);
    AskedExtends(ops, calls[1..], next, answers);
    KeptSubsequence(ops, calls[1..], next, answers);
    var r := ScreenFrom(ops, calls, s, answers).value;
    var c := r.kept[k];
    var key := ApprovalKey(ops, c.name, c.args);
    var approvedNow := !Passes(ops, s.approved, call) && answers[|s.asked|];
    if approvedNow {
      assert r.asked[..|next.asked|][|s.asked|] == RequestFor(ops, call);
      assert RequestFor(ops, call).approvalKey in ApprovedKeys(r.asked, answers, |s.asked|);
    }
    if k < |next.kept| {
      assert r.kept[..|next.kept|][k] == call;
    } else {
      KeptJustified(ops, calls[1..], next, answers, k);
      assert ApprovedKeys(r.asked, answers, |next.asked|) <= ApprovedKeys(r.asked, answers, |s.asked|);
      if !approvedNow {
        assert next.approved == s.approved;
      }
    }
  }

  /** Splitting the batch: the loop over `calls` is the loop over `calls[..m]`, then over the rest. */
  lemma {:induction false} ScreenSplit(ops: PathOps, calls: seq<ToolCall>, s: Screening, answers: seq<bool>, m: nat)
    requires m <= |calls|
    ensures ScreenFrom(ops, calls, s, answers)
            == match ScreenFrom(ops, calls[..m], s, answers)
               case Err(request) => Err(request)
               case Ok(st) => ScreenFrom(ops, calls[m..], st, answers)
    decreases m
  {
    if m == 0 {
      assert calls[..0] == [] && calls[0..] == calls;
    } else {
      assert calls[..m][0] == calls[0];
      match Step(ops, s, calls[0], answers)
      case Err(request) =>
      case Ok(next) =>
        ScreenSplit(ops, calls[1..], next, answers, m - 1);
        assert calls[..m][1..] == calls[1..][..m - 1];
        assert calls[1..][m - 1..] == calls[m..];
    }
  }

  /** The states the loop passes through: one before each call it reaches, and the last one. */
  function Trace(ops: PathOps, calls: seq<ToolCall>, s: Screening, answers: seq<bool>): seq<Screening>
    decreases |calls|
  {
    [s] + if calls == [] then []
          else match Step(ops, s, calls[0], answers)
               case Err(_) => []
               case Ok(next) => Trace(ops, calls[1..], next, answers)
  }

  /** In a batch that gets through, the m-th state of the trace is the loop's state after the first m calls. */
  lemma {:induction false} TraceRuns(ops: PathOps, calls: seq<ToolCall>, s: Screening, answers: seq<bool>, m: nat)
    requires m <= |calls| && ScreenFrom(ops, calls, s, answers).Ok?
    ensures |Trace(ops, calls, s, answers)| == |calls| + 1
    ensures ScreenFrom(ops, calls[..m], s, answers) == Ok(Trace(ops, calls, s, answers)[m])
    decreases |calls|
  {
    if calls != [] {
      ScreenFirst(ops, calls, s, answers);
      var next := Step(ops, s, calls[0], answers).value;
      TraceRuns(ops, calls[1..], next, answers, if m == 0 then 0 else m - 1);
      if m > 0 {
        assert calls[..m][0] == calls[0];
        assert calls[..m][1..] == calls[1..][..m - 1];
      }
    }
    if m == 0 {
      assert calls[..0] == [];
    }
  }

  /** The loop's state when it reaches `calls[m]`, in a batch that gets through. */
  function Reached(ops: PathOps, calls: seq<ToolCall>, s: Screening, answers: seq<bool>, m: nat): Screening
    requires m <= |calls| && ScreenFrom(ops, calls, s, answers).Ok?
  {
    var trace := Trace(ops, calls, s, answers);
    if m < |trace| then trace[m] else s  // `TraceRuns`: the trace has a state for every m <= |calls|
  }

  /** The state reached at `calls[m]` is the loop's state after the first m calls. */
  lemma ReachedRuns(ops: PathOps, calls: seq<ToolCall>, s: Screening, answers: seq<bool>, m: nat)
    requires m <= |calls| && ScreenFrom(ops, calls, s, answers).Ok?
    ensures ScreenFrom(ops, calls[..m], s, answers) == Ok(Reached(ops, calls, s, answers, m))
  {
    TraceRuns(ops, calls, s, answers, m);
  }

  /** `calls[m]` is kept on its turn. */
  predicate KeptAt(ops: PathOps, calls: seq<ToolCall>, s: Screening, answers: seq<bool>, m: nat)
    requires m < |calls| && ScreenFrom(ops, calls, s, answers).Ok?
  {
    Reached(ops, calls, s, answers, m + 1).kept == Reached(ops, calls, s, answers, m).kept + [calls[m]]
  }

  /** `calls[m]` raises an interrupt on its turn: one request for it is added. */
  predicate AskedAt(ops: PathOps, calls: seq<ToolCall>, s: Screening, answers: seq<bool>, m: nat)
    requires m < |calls| && ScreenFrom(ops, calls, s, answers).Ok?
  {
    Reached(ops, calls, s, answers, m + 1).asked == Reached(ops, calls, s, answers, m).asked + [RequestFor(ops, calls[m])]
  }

  /** What the loop has kept and asked when it reaches `calls[m]` starts what it keeps and asks in the end. */
  lemma ReachedPrefix(ops: PathOps, calls: seq<ToolCall>, s: Screening, answers: seq<bool>, m: nat)
    requires m <= |calls| && ScreenFrom(ops, calls, s, answers).Ok?
    ensures var st := Reached(ops, calls, s, answers, m);
            var r := ScreenFrom(ops, calls, s, answers).value;
            |st.kept| <= |r.kept| && r.kept[..|st.kept|] == st.kept
            && |st.asked| <= |r.asked| && r.asked[..|st.asked|] == st.asked
            && Cached(st.approved) <= Cached(r.approved)
  {
    var st := Reached(ops, calls, s, answers, m);
    ReachedRuns(ops, calls, s, answers, m);
    ScreenSplit(ops, calls, s, answers, m);
    KeptSubsequence(ops, calls[m..], st, answers);
    AskedExtends(ops, calls[m..], st, answers);
    CacheGrows(ops, calls[m..], st, answers);
  }

  /**
   * The turn of `calls[m]`: it raises exactly one interrupt when it does not pass in the cache of
   * that moment, and none otherwise; it is kept exactly when it passes or the answer is yes, and
   * from then on it passes exactly when it was kept.
   */
  lemma ScreenTurn(ops: PathOps, calls: seq<ToolCall>, s: Screening, answers: seq<bool>, m: nat)
    requires m < |calls| && ScreenFrom(ops, calls, s, answers).Ok?
    ensures var st := Reached(ops, calls, s, answers, m);
            var nx := Reached(ops, calls, s, answers, m + 1);
            (AskedAt(ops, calls, s, answers, m) <==> !Passes(ops, st.approved, calls[m]))
            && (!AskedAt(ops, calls, s, answers, m) ==> nx.asked == st.asked)
            && (!Passes(ops, st.approved, calls[m]) ==> |st.asked| < |answers|)
            && (KeptAt(ops, calls, s, answers, m) <==> Passes(ops, st.approved, calls[m]) || answers[|st.asked|])
            && (!KeptAt(ops, calls, s, answers, m) ==> nx.kept == st.kept)
            && (KeptAt(ops, calls, s, answers, m) <==> Passes(ops, nx.approved, calls[m]))
  {
    var call := calls[m];
    var st := Reached(ops, calls, s, answers, m);
    var nx := Reached(ops, calls, s, answers, m + 1);
    ScreenSplit(ops, calls[..m + 1], s, answers, m);
    assert calls[..m + 1][..m] == calls[..m];
    assert calls[..m + 1][m..] == [call];
    assert [call][1..] == [];
    ReachedRuns(ops, calls, s, answers, m);
    ReachedRuns(ops, calls, s, answers, m + 1);
    assert ScreenFrom(ops, [call], st, answers) == Ok(nx);
    assert Step(ops, st, call, answers) == Ok(nx);
    if !Passes(ops, st.approved, call) && |st.asked| < |answers| && answers[|st.asked|] {
      AddThenApproved(ops, st.approved, call.name, call.args, call.name, call.args);
    }
    StepGrows(ops, st, call, answers, call);
  }

  /** The cache the loop has when it reaches a call holds the one it had at any earlier call. */
  lemma ReachedGrows(ops: PathOps, calls: seq<ToolCall>, s: Screening, answers: seq<bool>, i: nat, m: nat)
    requires i <= m <= |calls| && ScreenFrom(ops, calls, s, answers).Ok?
    ensures Cached(Reached(ops, calls, s, answers, i).approved) <= Cached(Reached(ops, calls, s, answers, m).approved)
  {
    ReachedRuns(ops, calls, s, answers, i);
    ReachedRuns(ops, calls, s, answers, m);
    ScreenSplit(ops, calls[..m], s, answers, i);
    assert calls[..m][..i] == calls[..i];
    CacheGrows(ops, calls[..m][i..], Reached(ops, calls, s, answers, i), answers);
  }

  /**
   * Once a gated call is kept, a later call of the batch with the same key is kept too, with no
   * interrupt: its key is in the cache by then.
   */
  lemma LaterSameKeyKept(ops: PathOps, calls: seq<ToolCall>, s: Screening, answers: seq<bool>, i: nat, m: nat)
    requires i < m < |calls| && ScreenFrom(ops, calls, s, answers).Ok?
    requires calls[i].name in GatedTools
    requires ApprovalKey(ops, calls[i].name, calls[i].args) == ApprovalKey(ops, calls[m].name, calls[m].args)
    requires KeptAt(ops, calls, s, answers, i)
    ensures KeptAt(ops, calls, s, answers, m) && !AskedAt(ops, calls, s, answers, m)
  {
    var key := ApprovalKey(ops, calls[i].name, calls[i].args);
    ScreenTurn(ops, calls, s, answers, i);
    assert key in Cached(Reached(ops, calls, s, answers, i + 1).approved);
    ReachedGrows(ops, calls, s, answers, i + 1, m);
    assert Passes(ops, Reached(ops, calls, s, answers, m).approved, calls[m]);
    ScreenTurn(ops, calls, s, answers, m);
  }
  /**
   * The turn of `calls[m]`, seen in the calls kept in the end: kept exactly when it passes in the
   * cache of that moment or its answer is yes, then at the position the kept calls had reached;
   * otherwise the turn adds nothing.
   */
  predicate KeptTurn(ops: PathOps, calls: seq<ToolCall>, s: Screening, answers: seq<bool>, m: nat)
    requires m < |calls| && ScreenFrom(ops, calls, s, answers).Ok?
  {
    var st := Reached(ops, calls, s, answers, m);
    var r := ScreenFrom(ops, calls, s, answers).value;
    (!Passes(ops, st.approved, calls[m]) ==> |st.asked| < |answers|)
    && (KeptAt(ops, calls, s, answers, m) <==> Passes(ops, st.approved, calls[m]) || answers[|st.asked|])
    && (KeptAt(ops, calls, s, answers, m) ==> |st.kept| < |r.kept| && r.kept[|st.kept|] == calls[m])
    && (!KeptAt(ops, calls, s, answers, m) ==> Reached(ops, calls, s, answers, m + 1).kept == st.kept)
  }

  /**
   * The turn of `calls[m]`, seen in the interrupts raised: exactly one, at the position the
   * requests had reached and answered by the answer there, when the call does not pass in the
   * cache of that moment, and none otherwise; an asked call is kept exactly when the answer is yes.
   */
  predicate AskedTurn(ops: PathOps, calls: seq<ToolCall>, s: Screening, answers: seq<bool>, m: nat)
    requires m < |calls| && ScreenFrom(ops, calls, s, answers).Ok?
  {
    var st := Reached(ops, calls, s, answers, m);
    var r := ScreenFrom(ops, calls, s, answers).value;
    (AskedAt(ops, calls, s, answers, m) <==> !Passes(ops, st.approved, calls[m]))
    && (!AskedAt(ops, calls, s, answers, m) ==> Reached(ops, calls, s, answers, m + 1).asked == st.asked)
    && (AskedAt(ops, calls, s, answers, m) ==>
          |st.asked| < |r.asked| && |st.asked| < |answers| && r.asked[|st.asked|] == RequestFor(ops, calls[m])
          && (KeptAt(ops, calls, s, answers, m) <==> answers[|st.asked|]))
  }

  /** One turn as the kept calls show it. */
  lemma TurnKept(ops: PathOps, calls: seq<ToolCall>, s: Screening, answers: seq<bool>, m: nat)
    requires m < |calls| && ScreenFrom(ops, calls, s, answers).Ok?
    ensures KeptTurn(ops, calls, s, answers, m)
  {
    ScreenTurn(ops, calls, s, answers, m);
    ReachedPrefix(ops, calls, s, answers, m + 1);
    var r := ScreenFrom(ops, calls, s, answers).value;
    var st := Reached(ops, calls, s, answers, m);
    var nx := Reached(ops, calls, s, answers, m + 1);
    if KeptAt(ops, calls, s, answers, m) {
      assert nx.kept == st.kept + [calls[m]];
      assert nx.kept[|st.kept|] == calls[m];
      assert r.kept[..|nx.kept|][|st.kept|] == calls[m];
    }
  }

  /** One turn as the interrupts raised show it. */
  lemma TurnAsked(ops: PathOps, calls: seq<ToolCall>, s: Screening, answers: seq<bool>, m: nat)
    requires m < |calls| && ScreenFrom(ops, calls, s, answers).Ok?
    ensures AskedTurn(ops, calls, s, answers, m)
  {
    ScreenTurn(ops, calls, s, answers, m);
    ReachedPrefix(ops, calls, s, answers, m + 1);
    var r := ScreenFrom(ops, calls, s, answers).value;
    var st := Reached(ops, calls, s, answers, m);
    var nx := Reached(ops, calls, s, answers, m + 1);
    if AskedAt(ops, calls, s, answers, m) {
      assert r.asked[..|nx.asked|][|st.asked|] == RequestFor(ops, calls[m]);
    }
  }

  /**
   * Every turn of the batch as the kept calls show it, and a call with the key of an earlier kept
   * gated call is kept without asking.
   */
  predicate KeepsByTurn(ops: PathOps, calls: seq<ToolCall>, s: Screening, answers: seq<bool>)
    requires ScreenFrom(ops, calls, s, answers).Ok?
  {
    (forall m :: 0 <= m < |calls| ==> KeptTurn(ops, calls, s, answers, m))
    && (forall i, m :: 0 <= i < m < |calls| ==> SameKeyRule(ops, calls, s, answers, i, m))
  }

  /** A call with the key of an earlier kept gated call is kept, with no interrupt. */
  predicate SameKeyRule(ops: PathOps, calls: seq<ToolCall>, s: Screening, answers: seq<bool>, i: nat, m: nat)
    requires i < m < |calls| && ScreenFrom(ops, calls, s, answers).Ok?
  {
    calls[i].name in GatedTools
    && ApprovalKey(ops, calls[i].name, calls[i].args) == ApprovalKey(ops, calls[m].name, calls[m].args)
    && KeptAt(ops, calls, s, answers, i)
    ==> KeptAt(ops, calls, s, answers, m) && !AskedAt(ops, calls, s, answers, m)
  }

  /** The loop keeps its calls turn by turn, as `KeepsByTurn` states. */
  lemma TurnsKept(ops: PathOps, calls: seq<ToolCall>, s: Screening, answers: seq<bool>)
    requires ScreenFrom(ops, calls, s, answers).Ok?
    ensures KeepsByTurn(ops, calls, s, answers)
  {
    EachTurnKept(ops, calls, s, answers);
    SameKeyKept(ops, calls, s, answers);
  }

  /** Every turn of the batch as `TurnKept` states it. */
  lemma EachTurnKept(ops: PathOps, calls: seq<ToolCall>, s: Screening, answers: seq<bool>)
    requires ScreenFrom(ops, calls, s, answers).Ok?
    ensures forall m :: 0 <= m < |calls| ==> KeptTurn(ops, calls, s, answers, m)
  {
    forall m | 0 <= m < |calls|
      ensures KeptTurn(ops, calls, s, answers, m)
    {
      TurnKept(ops, calls, s, answers, m);
    }
  }

  /** Every pair of calls of the batch as `LaterSameKeyKept` states it. */
  lemma SameKeyKept(ops: PathOps, calls: seq<ToolCall>, s: Screening, answers: seq<bool>)
    requires ScreenFrom(ops, calls, s, answers).Ok?
    ensures forall i, m :: 0 <= i < m < |calls| ==> SameKeyRule(ops, calls, s, answers, i, m)
  {
    forall i, m | 0 <= i < m < |calls|
      ensures SameKeyRule(ops, calls, s, answers, i, m)
    {
      if calls[i].name in GatedTools
         && ApprovalKey(ops, calls[i].name, calls[i].args) == ApprovalKey(ops, calls[m].name, calls[m].args)
         && KeptAt(ops, calls, s, answers, i)
      {
        LaterSameKeyKept(ops, calls, s, answers, i, m);
      }
    }
  }

  /** Every turn of the batch as the interrupts raised show it. */
  lemma TurnsAsked(ops: PathOps, calls: seq<ToolCall>, s: Screening, answers: seq<bool>)
    requires ScreenFrom(ops, calls, s, answers).Ok?
    ensures forall m :: 0 <= m < |calls| ==> AskedTurn(ops, calls, s, answers, m)
  {
    forall m | 0 <= m < |calls|
      ensures AskedTurn(ops, calls, s, answers, m)
    {
      TurnAsked(ops, calls, s, answers, m);
    }
  }

  /** The outcome of the hook: state left as it was, an unanswered interrupt, or the screened state. */
  datatype HookResult =
    | Unchanged
    | Suspended(request: Request)
    | Screened(messages: seq<Message>, approvedOperations: Option<Operations>, asked: seq<Request>)

  /** The cache the hook starts from: the state's, or `{"cached_approvals": set()}`. */
  function StartCache(stored: Option<Operations>): Operations {
    if stored.Some? then stored.value else map["cached_approvals" := {}]
  }

  /** `post_model_hook` on the state's `messages` and `approved_operations` (`None` when absent). */
  function HookRun(ops: PathOps, messages: seq<Message>, stored: Option<Operations>, answers: seq<bool>): HookResult {
    if messages == [] then Unchanged
    else
      var last := messages[|messages| - 1];
      if !last.AIMessage? || last.toolCalls == [] then Unchanged
      else
        match ScreenFrom(ops, last.toolCalls, Screening([], StartCache(stored), false, []), answers)
        case Err(request) => Suspended(request)
        case Ok(s) =>
          Screened(
            if |s.kept| != |last.toolCalls|
            then messages[..|messages| - 1] + [AIMessage(last.content, s.kept, last.additionalKwargs)]
            else messages,
            if s.saved then Some(s.approved) else stored,
            s.asked)
  }

  /** The hook does nothing unless the last message is an AI message with tool calls. */
  lemma HookIgnores(ops: PathOps, messages: seq<Message>, stored: Option<Operations>, answers: seq<bool>)
    ensures HookRun(ops, messages, stored, answers).Unchanged?
            <==> messages == [] || !messages[|messages| - 1].AIMessage? || messages[|messages| - 1].toolCalls == []
  {
  }

  /**
   * After screening, only the last message may change: it keeps its content and extra fields,
   * its calls are a subsequence of the former ones holding every ungated call and every call
   * approved beforehand, and it is replaced exactly when some call was dropped. Every call kept
   * passed at the start or had its key approved by the user; so a gated call not approved
   * beforehand, whose key the user refused every time it was asked, is dropped. Call by call, the
   * new list is the one the loop builds: each call is kept exactly when it passes in the cache
   * of its turn or its answer is yes, and a call with the key of an earlier kept gated call is
   * kept without asking.
   */
  lemma HookFilters(ops: PathOps, messages: seq<Message>, stored: Option<Operations>, answers: seq<bool>)
    requires HookRun(ops, messages, stored, answers).Screened?
    ensures var r := HookRun(ops, messages, stored, answers);
            var last := messages[|messages| - 1];
            var now := r.messages[|r.messages| - 1];
            |r.messages| == |messages| && r.messages[..|messages| - 1] == messages[..|messages| - 1]
            && now.AIMessage? && now.content == last.content && now.additionalKwargs == last.additionalKwargs
            && IsSubsequence(now.toolCalls, last.toolCalls)
            && (forall c :: c in last.toolCalls && Passes(ops, StartCache(stored), c) ==> c in now.toolCalls)
            && (r.messages == messages <==> now.toolCalls == last.toolCalls)
            && (forall c :: c in now.toolCalls ==>
                  Passes(ops, StartCache(stored), c)
                  || exists j :: 0 <= j < |r.asked| && j < |answers| && answers[j]
                                 && r.asked[j].approvalKey == ApprovalKey(ops, c.name, c.args))
            && (forall c :: c in last.toolCalls && !Passes(ops, StartCache(stored), c)
                  && (forall j :: 0 <= j < |r.asked| && j < |answers|
                                  && r.asked[j].approvalKey == ApprovalKey(ops, c.name, c.args)
                                  ==> !answers[j])
                  ==> c !in now.toolCalls)
    ensures var calls := messages[|messages| - 1].toolCalls;
            var start := Screening([], StartCache(stored), false, []);
            var r := HookRun(ops, messages, stored, answers);
            r.messages[|r.messages| - 1].toolCalls == ScreenFrom(ops, calls, start, answers).value.kept
            && KeepsByTurn(ops, calls, start, answers)
  {
    var last := messages[|messages| - 1];
    var start := Screening([], StartCache(stored), false, []);
    var s := ScreenFrom(ops, last.toolCalls, start, answers).value;
    HookNewCalls(ops, messages, stored, answers);
    forall c | c in last.toolCalls && Passes(ops, StartCache(stored), c)
      ensures c in s.kept
    {
      KeptIncludes(ops, last.toolCalls, start, answers, c);
    }
    forall c | c in s.kept
      ensures Passes(ops, StartCache(stored), c) || ApprovalKey(ops, c.name, c.args) in ApprovedKeys(s.asked, answers, 0)
    {
      var k :| 0 <= k < |s.kept| && s.kept[k] == c;
      KeptJustified(ops, last.toolCalls, start, answers, k);
    }
    TurnsKept(ops, last.toolCalls, start, answers);
  }

  /** The screened state holds the loop's kept calls and requests, in a copy of the last message. */
  lemma HookNewCalls(ops: PathOps, messages: seq<Message>, stored: Option<Operations>, answers: seq<bool>)
    requires HookRun(ops, messages, stored, answers).Screened?
    ensures var r := HookRun(ops, messages, stored, answers);
            var last := messages[|messages| - 1];
            var now := r.messages[|r.messages| - 1];
            var s := ScreenFrom(ops, last.toolCalls, Screening([], StartCache(stored), false, []), answers).value;
            |r.messages| == |messages| && r.messages[..|messages| - 1] == messages[..|messages| - 1]
            && now.AIMessage? && now.content == last.content && now.additionalKwargs == last.additionalKwargs
            && now.toolCalls == s.kept && r.asked == s.asked
            && r.approvedOperations == (if s.saved then Some(s.approved) else stored)
            && IsSubsequence(now.toolCalls, last.toolCalls)
            && (r.messages == messages <==> now.toolCalls == last.toolCalls)
  {
    var last := messages[|messages| - 1];
    var start := Screening([], StartCache(stored), false, []);
    KeptSubsequence(ops, last.toolCalls, start, answers);
    var s := ScreenFrom(ops, last.toolCalls, start, answers).value;
    assert s.kept[0..] == s.kept;
    SubsequenceLength(s.kept, last.toolCalls);
    var r := HookRun(ops, messages, stored, answers);
    if |s.kept| != |last.toolCalls| {
      assert r.messages[|r.messages| - 1] != last;
    } else {
      assert s.kept == last.toolCalls;
    }
  }

  /**
   * The interrupts raised and the cache stored back: each request is for a gated call not
   * approved when the hook started, each approved key is cached and not asked again, and the
   * stored cache only grows. Call by call, each call not passing in the cache of its turn raises
   * exactly one interrupt, answered by the answer at that position, and is kept exactly when
   * that answer is yes; every other call raises none.
   */
  lemma HookAsks(ops: PathOps, messages: seq<Message>, stored: Option<Operations>, answers: seq<bool>)
    requires HookRun(ops, messages, stored, answers).Screened?
    ensures var r := HookRun(ops, messages, stored, answers);
            var calls := messages[|messages| - 1].toolCalls;
            |r.asked| <= |answers|
            && (forall j :: 0 <= j < |r.asked| ==>
                  r.asked[j].command in GatedTools && r.asked[j].approvalKey !in Cached(StartCache(stored))
                  && exists c :: c in calls && r.asked[j] == RequestFor(ops, c))
            && (forall i, j :: 0 <= i < j < |r.asked| && answers[i] ==> r.asked[i].approvalKey != r.asked[j].approvalKey)
            && (forall i :: 0 <= i < |r.asked| && answers[i] ==>
                  r.approvedOperations.Some? && r.asked[i].approvalKey in Cached(r.approvedOperations.value))
            && (stored.Some? ==> r.approvedOperations.Some? && Cached(stored.value) <= Cached(r.approvedOperations.value))
    ensures var calls := messages[|messages| - 1].toolCalls;
            var start := Screening([], StartCache(stored), false, []);
            HookRun(ops, messages, stored, answers).asked == ScreenFrom(ops, calls, start, answers).value.asked
            && forall m :: 0 <= m < |calls| ==> AskedTurn(ops, calls, start, answers, m)
  {
    var calls := messages[|messages| - 1].toolCalls;
    var start := Screening([], StartCache(stored), false, []);
    var s := ScreenFrom(ops, calls, start, answers).value;
    var r := HookRun(ops, messages, stored, answers);
    HookNewCalls(ops, messages, stored, answers);
    assert r.asked == s.asked;
    assert r.approvedOperations == (if s.saved then Some(s.approved) else stored);
    AskedExtends(ops, calls, start, answers);
    CacheGrows(ops, calls, start, answers);
    AskedAll(ops, calls, start, answers);
    assert |r.asked| <= |answers|;
    forall j | 0 <= j < |r.asked|
      ensures r.asked[j].command in GatedTools && r.asked[j].approvalKey !in Cached(StartCache(stored))
              && exists c :: c in calls && r.asked[j] == RequestFor(ops, c)
    {
      assert s.asked[j] == r.asked[j];
    }
    forall i | 0 <= i < |r.asked| && answers[i]
      ensures r.approvedOperations.Some? && r.asked[i].approvalKey in Cached(r.approvedOperations.value)
    {
      assert s.saved;
    }
    TurnsAsked(ops, calls, start, answers);
  }

  /**
   * The requests of a batch that gets through, as `AskedFor`, `NoReask`, `ApprovedCached` and
   * `ApprovalSaves` state them one by one.
   */
  lemma AskedAll(ops: PathOps, calls: seq<ToolCall>, s: Screening, answers: seq<bool>)
    requires ScreenFrom(ops, calls, s, answers).Ok?
    ensures var r := ScreenFrom(ops, calls, s, answers).value;
            (forall j :: |s.asked| <= j < |r.asked| ==>
               r.asked[j].command in GatedTools && r.asked[j].approvalKey !in Cached(s.approved)
               && exists c :: c in calls && r.asked[j] == RequestFor(ops, c))
            && (forall i, j :: |s.asked| <= i < j < |r.asked| && i < |answers| && answers[i]
                  ==> r.asked[i].approvalKey != r.asked[j].approvalKey)
            && (forall i :: |s.asked| <= i < |r.asked| && i < |answers| && answers[i]
                  ==> r.saved && r.asked[i].approvalKey in Cached(r.approved))
  {
    var r := ScreenFrom(ops, calls, s, answers).value;
    forall j | |s.asked| <= j < |r.asked|
      ensures r.asked[j].command in GatedTools && r.asked[j].approvalKey !in Cached(s.approved)
              && exists c :: c in calls && r.asked[j] == RequestFor(ops, c)
    {
      AskedFor(ops, calls, s, answers, j);
      var c :| c in calls && !Passes(ops, s.approved, c) && r.asked[j] == RequestFor(ops, c);
    }
    forall i, j | |s.asked| <= i < j < |r.asked| && i < |answers| && answers[i]
      ensures r.asked[i].approvalKey != r.asked[j].approvalKey
    {
      NoReask(ops, calls, s, answers, i, j);
    }
    forall i | |s.asked| <= i < |r.asked| && i < |answers| && answers[i]
      ensures r.saved && r.asked[i].approvalKey in Cached(r.approved)
    {
      ApprovedCached(ops, calls, s, answers, i);
      ApprovalSaves(ops, calls, s, answers, i);
    }
  }

  /** The agent state the hook reads and writes. */
  class HookState {
    var messages: seq<Message>
    var approvedOperations: Option<Operations>

    constructor(messages: seq<Message>, approvedOperations: Option<Operations>)
      ensures this.messages == messages && this.approvedOperations == approvedOperations
    {
      this.messages := messages;
      this.approvedOperations := approvedOperations;
    }

    /** `post_model_hook`: screen the last message's calls, then store the messages and the cache. */
    method PostModelHook(ops: PathOps, answers: seq<bool>) returns (r: HookResult)
      modifies this
      ensures r == HookRun(ops, old(messages), old(approvedOperations), answers)
      ensures r.Screened? ==> messages == r.messages && approvedOperations == r.approvedOperations
      ensures !r.Screened? ==> messages == old(messages) && approvedOperations == old(approvedOperations)
    {
      if messages == [] {
        return Unchanged;
      }
      var last := messages[|messages| - 1];
      if !last.AIMessage? || last.toolCalls == [] {
        return Unchanged;
      }
      var calls := last.toolCalls;
      var start := Screening([], StartCache(approvedOperations), false, []);
      var st := start;
      var i := 0;
      while i < |calls|
        invariant i <= |calls|
        invariant ScreenFrom(ops, calls, start, answers) == ScreenFrom(ops, calls[i..], st, answers)
        invariant messages == old(messages) && approvedOperations == old(approvedOperations)
        decreases |calls| - i
      {
        assert calls[i..][1..] == calls[i + 1..];
        var step := ScreenCall(ops, st, calls[i], answers);
        if step.Err? {
          return Suspended(step.error);
        }
        st := step.value;
        i := i + 1;
      }
      if |st.kept| != |calls| {
        messages := messages[..|messages| - 1] + [AIMessage(last.content, st.kept, last.additionalKwargs)];
      }
      if st.saved {
        approvedOperations := Some(st.approved);
      }
      r := Screened(messages, approvedOperations, st.asked);
    }
  }

  /** One turn of the hook's loop: pass the call, ask about it, or stop for an answer. */
  method ScreenCall(ops: PathOps, st: Screening, call: ToolCall, answers: seq<bool>)
    returns (step: Result<Screening, Request>)
    ensures step == Step(ops, st, call, answers)
  {
    if call.name !in GatedTools || IsOperationApproved(ops, st.approved, call.name, call.args) {
      return Ok(st.(kept := st.kept + [call]));
    }
    var request := RequestFor(ops, call);
    if |st.asked| >= |answers| {
      return Err(request);
    }
    var asked := st.asked + [request];
    if answers[|asked| - 1] {
      step := Ok(Screening(st.kept + [call], AddApprovedOperation(ops, st.approved, call.name, call.args), true, asked));
    } else {
      step := Ok(st.(asked := asked));
    }
  }
}
