# deepagents tool layer in Dafny

This project models the core of *deepagents*. deepagents is a Python library that builds an
LLM agent with a planning tool, a set of file tools and sub-agents. The model covers:

- **The in-state file store** (`VirtualFs`, src/deepagents/tools.py). The session's `files`
  dict is a path-to-text map in insertion order. Its tools are:
  - `ls`;
  - `read_file`: `cat -n` numbering, 2000-character truncation, an empty-contents reminder
    and an offset check;
  - `write_file`;
  - `edit_file`: exact-substring replacement that refuses ambiguous targets;
  - `glob`: prefix scope, a non-recursive rule, a last-segment fallback, a cap, then a sort;
  - `grep`: literal or caller-compiled matching, context windows and a total-match cap;
  - `write_todos`.
- **The on-disk tools** (`Disk`, `LocalSearch`; src/deepagents/real_fs_tools.py and
  src/deepagents/local_fs_tools.py). The disk is a map from paths to file data plus a set of
  directories. The model covers:
  - lossy decoding of non-UTF-8 files when reading;
  - refusal to edit non-UTF-8 files;
  - creation of parent directories on write;
  - sorted listings;
  - `glob` over the entries a directory walk yields;
  - `grep`, which skips files that do not decode.
- **Shared rules.** The reading rules (`Listing`), the edit rules (`Editing`) and the
  line-matching core of `grep` (`Search`) are shared by both stores. They rest on Python string
  semantics (`Text`), Python's string order and `sorted` (`StringOrder`), and the capped
  collection loops (`Collect`).
- **The approval cache** (`Approval`, examples/code/post_model_hook.py). A post-model hook
  keys each gated tool call by `command:normalised-directory`. It lets cached operations
  through, asks the user once for new ones, caches approvals, and drops rejected calls.
- **The interrupt hook** (`Interrupt`, src/deepagents/interrupt.py). It splits calls into
  gated and auto-approved, sends one batch of requests, and applies accept/edit responses.
  The first response that cannot be applied raises: `IndexError` when there is no gated call
  for it, else `ValueError` for a type other than accept or edit.
- **The sub-agent registry and the `task` tool** (`SubAgents`, src/deepagents/sub_agent.py).
- **The builder's selection rules** (`Builder`, src/deepagents/graph.py): built-in tools,
  hook choice, tool-list layout, and the sync or async `task` tool.
- **The local todo tools** (`LocalTodos`, examples/code/local_tools.py).
- **The command-line helpers** (`CliHelpers`, examples/code/main.py).
- **The quicksort and Fibonacci examples** (`QuicksortExample`, `FibonacciExample`).

The state-changing parts keep their imperative form:
- the file store is a class whose methods update `files` in place;
- the disk is a class whose write and edit methods change it;
- the approval hook's state is a class;
- the in-place quicksort works on an `array`.

The loops that select, match, cap, partition, screen, index or sort are `while`/`for` loops,
each proved against a specification function. Two kinds of loop are stated as functions instead:
the loops that only render the `grep` report, and the loop that collects the directory-path set
of the in-state `glob` (src/deepagents/tools.py:192-203). The properties the
tools promise are proved as lemmas about the specification functions.

Foreign code enters as parameters:
- the language model and `invoke`;
- `interrupt` answers;
- `fnmatch`;
- directory enumeration and iteration orders;
- `os.path` and the working directory;
- Python `repr` of argument dicts;
- regular-expression compilation.

## Model

| member | source | states |
|---|---|---|
| VirtualFs.FileStore.Ls | src/deepagents/tools.py:33-35 | `ls` lists every key of the store exactly once, and nothing else |
| VirtualFs.FileStore.ReadFile | src/deepagents/tools.py:38-81 | `read_file` replies with the not-found error, the empty-contents reminder, the offset error or the numbered window of the stored text |
| VirtualFs.FileStore.WriteFile | src/deepagents/tools.py:84-100 | `write_file` sets the entry at the path (a new key goes last), leaves every other entry alone, and returns an update carrying the whole dict and the "Updated file" message |
| VirtualFs.FileStore.EditFile | src/deepagents/tools.py:103-151 | `edit_file` changes the store only through a successful edit of that one path; the reply is the error text or the update with the whole dict |
| VirtualFs.FileStore.Glob | src/deepagents/tools.py:154-247 | `glob` replies as the scope filter, the directory paths, the capped pattern loop and the sort determine |
| VirtualFs.FileStore.Grep | src/deepagents/tools.py:250-419 | `grep` replies as the argument checks, the file selection and the capped search determine |
| VirtualFs.FileStore.GrepSteps | src/deepagents/tools.py:264-379 | the argument checks, file selection and search loops compute the specified grep outcome |
| VirtualFs.SearchPath | src/deepagents/tools.py:170-172 | the normalised search path is a prefix of the argument and has no trailing `/` |
| VirtualFs.LastSegment | src/deepagents/tools.py:224 | `split("/")[-1]` is the suffix after the last slash and has no slash |
| VirtualFs.FirstMissing | src/deepagents/tools.py:281-287 | a named file is reported missing exactly when some named file is absent from the store |
| VirtualFs.FindMissing | src/deepagents/tools.py:281-287 | the validation loop finds the first named file that is not in the store |
| VirtualFs.Targets | src/deepagents/tools.py:329-337 | one search target per selected file, in order |
| VirtualFs.SelectCandidates | src/deepagents/tools.py:177-189 | the candidate loop keeps, in key order, exactly the keys in scope |
| VirtualFs.MatchPaths | src/deepagents/tools.py:206-226 | the matching loop keeps the first `max_results` paths that pass the pattern test |
| VirtualFs.MatchStep | src/deepagents/tools.py:206-226 | one iteration appends the path exactly when it matches, keeping what the loop will collect |
| VirtualFs.Accepts | src/deepagents/tools.py:210-226 | a path is accepted when its relative path matches or, in a recursive search, its last segment matches |
| VirtualFs.SelectGrepFiles | src/deepagents/tools.py:295-311 | the path-mode loop keeps, in key order, the keys in scope whose file name matches `file_pattern` |
| VirtualFs.WriteThenRead | src/deepagents/tools.py:91-92 | after `write_file`, reading the path from offset 0 returns every line of the content under its number, and other paths read as before |
| VirtualFs.EditStoreOutcome | src/deepagents/tools.py:113-151 | the store is unchanged exactly in the three error cases (missing path, absent string, ambiguous without `replace_all`); otherwise only the path changes |
| VirtualFs.SortedMembers | src/deepagents/tools.py:229 | sorting neither adds nor loses a path |
| VirtualFs.SortedCap | src/deepagents/tools.py:206-229 | the sorted capped result is sorted, at most the cap long, and holds only accepted inputs |
| VirtualFs.EnumeratedPathSound | src/deepagents/tools.py:177-203 | an enumerated path is a key in scope or, with `include_dirs`, a directory prefix of one |
| VirtualFs.GlobSound | src/deepagents/tools.py:170-229 | `glob` reports a sorted list of at most `max_results` paths: the first accepted ones in enumeration order. Each passes the pattern test and is a key in scope (never nested in a non-recursive search) or an admitted directory path |
| VirtualFs.GlobComplete | src/deepagents/tools.py:174-229 | below the cap, every key in scope or directory path that passes the pattern test is reported |
| VirtualFs.GrepArgumentErrors | src/deepagents/tools.py:269-287 | `grep` errors without `files` and `path`, and errors on a named file missing from the store |
| VirtualFs.GrepSound | src/deepagents/tools.py:326-379 | every reported match is a matching line of a non-empty searched file, under its 1-based number, with its context window. The total equals the reported matches and never exceeds the cap |
| VirtualFs.HitSound | src/deepagents/tools.py:329-379 | a file's reported hits are a non-empty prefix of its true matches |
| VirtualFs.GrepCompleteBelowCap | src/deepagents/tools.py:329-379 | below the cap, each searched non-empty file is reported with all its matching lines |
| Session.WriteTodos | src/deepagents/tools.py:19-30 | `write_todos` returns an update replacing the todos with exactly the given list and one tool message for the call |
| Session.WriteTodosApplied | src/deepagents/tools.py:23-29 | after the update is applied, the state's todos are the given list, one message is appended, and files are untouched |
| Listing.Truncate | src/deepagents/tools.py:74-75 | a line is cut to its first 2000 characters and kept whole otherwise |
| Listing.NumberedRange | src/deepagents/tools.py:69-79 | one formatted line per index of the range, numbered index + 1 |
| Listing.NumberLines | src/deepagents/tools.py:60-81 | the numbering loop produces the specified window, or the offset error |
| Listing.ReadContent | src/deepagents/tools.py:50-81 | the shared read of a text computes the specified outcome |
| Listing.EmptyContentsIffBlank | src/deepagents/tools.py:53-55 | the empty-contents reminder is given exactly for empty or whitespace-only text |
| Listing.OffsetTooLargeIff | src/deepagents/tools.py:64-66 | non-blank text reports the offset error exactly when offset ≥ the `splitlines` count, carrying that count |
| Listing.ReadTextWindow | src/deepagents/tools.py:57-66 | non-blank text is read through the window of its `splitlines` |
| Listing.WindowShape | src/deepagents/tools.py:60-81 | a window from a valid offset has `min(offset+limit, n) − offset` lines (none for a non-positive limit); line k is source line offset+k, numbered offset+k+1 and truncated |
| Listing.FormatNatShape | src/deepagents/tools.py:79 | `{n:6d}` is padding spaces followed by the decimal digits of n |
| Listing.ParseNumbered | src/deepagents/tools.py:79 | padding, digits, a tab and a rest parse back to the digits' value and the rest |
| Listing.ParseFormatLine | src/deepagents/tools.py:79 | a formatted line parses back to its number and its truncated content |
| Listing.ReadBack | src/deepagents/tools.py:57-81 | reading non-blank text from offset 0 with a covering limit gives each line under its 1-based number, whole when no line exceeds 2000 characters |
| Editing.EditFailsIff | src/deepagents/tools.py:121-131 | an edit fails exactly when the string is absent, or occurs more than once without `replace_all`; the zero-occurrence branch is unreachable |
| Editing.EmptyTarget | src/deepagents/tools.py:122-131 | an empty `old_string` is ambiguous in non-empty text (count len+1) and replaces once in empty text |
| Editing.ReplaceAllOutcome | src/deepagents/tools.py:134-137 | `replace_all` replaces every non-overlapping occurrence and reports `content.count(old)` (at least 1); the length changes by count·(|new|−|old|) |
| Editing.ReplaceOneOutcome | src/deepagents/tools.py:138-142 | a successful single edit has exactly one occurrence and splices the new string in its place |
| Editing.EditWithSameString | src/deepagents/tools.py:133-142 | replacing a string by itself leaves the text unchanged |
| Search.ContextOf | src/deepagents/tools.py:353-373 | no context is recorded when `context_lines` ≤ 0 |
| Search.CollectContext | src/deepagents/tools.py:363-373 | the context loop builds the specified window |
| Search.ScanFile | src/deepagents/tools.py:341-379 | the per-file loop records the capped matches and raises the running total by their number |
| Search.SearchFiles | src/deepagents/tools.py:329-379 | the file loop computes the specified results and total |
| Search.ScanIsPrefix | src/deepagents/tools.py:376-379 | a capped scan records exactly the first `budget` matches of the file (all of them when fewer) |
| Search.AllMatchesSound | src/deepagents/tools.py:341-373 | every recorded match is a line passing the test, under its 1-based number, with its context window |
| Search.AllMatchesOrdered | src/deepagents/tools.py:341 | matches are recorded in increasing line order |
| Search.AllMatchesComplete | src/deepagents/tools.py:341-352 | every line passing the test is among the matches |
| Search.ContextWindow | src/deepagents/tools.py:353-373 | with c > 0 the window covers lines `max(0, n−1−c)+1 .. min(len, n+c)` in order, with only the match line flagged |
| Search.SearchCounts | src/deepagents/tools.py:326-379 | the total is the sum of the reported matches, never above the cap, and every reported file has a match |
| Search.SearchCompleteBelowCap | src/deepagents/tools.py:329-379 | below the cap, each searched file's result is all of its matching lines |
| Search.SearchResultsFromTargets | src/deepagents/tools.py:381-400 | each reported file is a searched target with a non-empty prefix of its matches |
| Disk.DiskStore.Ls | src/deepagents/real_fs_tools.py:12-27 | `real_ls` replies with the specified error entry or listing |
| Disk.DiskStore.ReadFile | src/deepagents/real_fs_tools.py:30-87 | `real_read_file` replies as the not-found and not-a-file checks, the (lossy) decoding and the shared read rules determine |
| Disk.DiskStore.WriteFile | src/deepagents/real_fs_tools.py:90-109 | `real_write_file` creates the missing parents, replaces the file's content, keeps the disk well formed, and changes nothing on error |
| Disk.DiskStore.EditFile | src/deepagents/real_fs_tools.py:112-166 | `real_edit_file` writes back only the result of a successful edit, and replies with the matching message |
| Disk.LsSorted | src/deepagents/real_fs_tools.py:21-25 | a directory listing is its entry names sorted, each once, independent of iteration order |
| Disk.LsErrors | src/deepagents/real_fs_tools.py:15-19 | a missing path and a non-directory each give their own one-element error list |
| Disk.ReadNonUtf8 | src/deepagents/real_fs_tools.py:47-54 | non-UTF-8 content is read through its lossy decoding instead of failing |
| Disk.WriteEffect | src/deepagents/real_fs_tools.py:97-104 | after a successful write the parents are directories, the file holds exactly the content, and every other file is unchanged |
| Disk.WriteThenRead | src/deepagents/real_fs_tools.py:90-106 | what a successful write stored reads back line by line from offset 0 |
| Disk.WriteFailure | src/deepagents/real_fs_tools.py:96-109 | a write fails exactly when an ancestor is a file or the target is a directory, and then leaves the disk as it was |
| Disk.EditOnlyOnSuccess | src/deepagents/real_fs_tools.py:123-164 | the disk is untouched when the file is missing, not a file, not UTF-8, or the string is absent or ambiguous; otherwise only the path is rewritten |
| Disk.EditReplaceAllReport | src/deepagents/real_fs_tools.py:150-153 | with `replace_all` every occurrence is replaced and the reply reports `content.count(old)` |
| LocalSearch.FirstNotFile | src/deepagents/local_fs_tools.py:269-274 | a named path is reported exactly when some named path is not an existing regular file |
| LocalSearch.FindNotFile | src/deepagents/local_fs_tools.py:269-274 | the validation loop finds the first named path that is not a regular file |
| LocalSearch.Targets | src/deepagents/local_fs_tools.py:315-322 | one target per searched file, in order |
| LocalSearch.CollectGlob | src/deepagents/local_fs_tools.py:209-217 | the walk loop reports the first `max_results` files (and, with `include_dirs`, directories with a trailing `/`) |
| LocalSearch.CollectStep | src/deepagents/local_fs_tools.py:209-217 | one iteration reports the entry exactly when it is kept, preserving what the loop will report |
| LocalSearch.Glob | src/deepagents/local_fs_tools.py:179-239 | `glob` replies with the root errors, the refused-pattern error or the capped, sorted report |
| LocalSearch.GlobErrors | src/deepagents/local_fs_tools.py:189-223 | the missing-root and not-a-directory replies come exactly in their cases; for a directory root, a walk that raises is reported as "Error processing glob pattern: " with its message |
| LocalSearch.SelectFiles | src/deepagents/local_fs_tools.py:291-293 | the path-mode loop keeps the regular files among the walk's entries, in order |
| LocalSearch.GrepSteps | src/deepagents/local_fs_tools.py:256-391 | the argument checks, file selection and search compute the specified grep outcome |
| LocalSearch.Grep | src/deepagents/local_fs_tools.py:242-410 | `grep` replies as the specified outcome determines, "Error in grep search: " with the walk's message when the walk raises |
| LocalSearch.GlobSound | src/deepagents/local_fs_tools.py:209-220 | the report is sorted, at most `max_results` long, and lists only walked files, or directories with a trailing `/` when `include_dirs` is set |
| LocalSearch.GlobComplete | src/deepagents/local_fs_tools.py:209-217 | below the cap every walked file, and with `include_dirs` every walked directory, is reported |
| LocalSearch.GrepArgumentErrors | src/deepagents/local_fs_tools.py:257-293 | `grep` needs `files` or `path`; a named path that is not a regular file aborts with that name; in the path mode, a walk that raises aborts with its message |
| LocalSearch.GrepLinesAreSegments | src/deepagents/local_fs_tools.py:318-328 | the tested lines are the newline-separated pieces of the text-mode read |
| LocalSearch.GrepSound | src/deepagents/local_fs_tools.py:311-391 | every reported match comes from a searched UTF-8 file, is its stripped line under its number and passes the test; the total is at most the cap |
| LocalSearch.HitFromTarget | src/deepagents/local_fs_tools.py:327-366 | a hit from a searched file names that file and holds only its true matches |
| Approval.ApprovalKeyParts | examples/code/post_model_hook.py:34-36 | the key splits at its first `:` into the command and the normalised target directory |
| Approval.KeysSeparateCommands | examples/code/post_model_hook.py:34-36 | keys of different commands differ, so an approval never carries over to another command |
| Approval.TargetDirOfTools | examples/code/post_model_hook.py:17-32 | file tools are keyed by the file's directory, `execute_bash` by `cwd` or the working directory, reads by their `path`, and other tools by the working directory |
| Approval.AddApprovedOperation | examples/code/post_model_hook.py:46-52 | adding creates the cache if needed, adds exactly the key, and changes no other entry |
| Approval.AddThenApproved | examples/code/post_model_hook.py:38-52 | after adding, the operation is approved, and whatever was approved stays approved |
| Approval.RequestShowsDirectory | examples/code/post_model_hook.py:90-106 | the question shows the key's directory, and the key is `command:directory` |
| Approval.StepGrows | examples/code/post_model_hook.py:108-114 | one turn only grows the cache, keeps approvals, and stores the cache back whenever it changed |
| Approval.KeptSubsequence | examples/code/post_model_hook.py:79-120 | the kept calls are a subsequence of the batch, in order and unchanged |
| Approval.KeptIncludes | examples/code/post_model_hook.py:83-120 | every ungated call, and every call approved beforehand, is kept |
| Approval.CacheGrows | examples/code/post_model_hook.py:108-114 | the cache only grows over the loop and is stored back when it changed |
| Approval.AskedExtends | examples/code/post_model_hook.py:88-106 | the requests extend the earlier ones, and each one has an answer |
| Approval.AskedFor | examples/code/post_model_hook.py:88-106 | each request is for a gated call of the batch with its command, args and key, never for an operation approved at the start |
| Approval.ApprovedCached | examples/code/post_model_hook.py:108-111 | an approved request's key is in the final cache |
| Approval.NoReask | examples/code/post_model_hook.py:84-111 | once a key is approved, no later request in the batch asks for it again |
| Approval.ApprovalSaves | examples/code/post_model_hook.py:113-114 | an approval stores the cache back into the state |
| Approval.HookIgnores | examples/code/post_model_hook.py:59-67 | without messages, or when the last message is not an AI message with tool calls, the state is left unchanged |
| Approval.HookFilters | examples/code/post_model_hook.py:79-131 | only the last message may change; it keeps content and extra fields, holds a subsequence of the calls including every ungated or pre-approved call, and is replaced exactly when a call was dropped; every kept call was ungated, pre-approved, or had its key approved in an answered request; a gated call not pre-approved whose key was refused at every request is dropped; the new call list is the loop's, in which each call is kept exactly when it passes in the cache of its turn or its answer is yes, and a later call with the key of an earlier kept gated call is kept without an interrupt |
| Approval.CacheFromApprovals | examples/code/post_model_hook.py:100-114 | the cache at the end of the loop holds only the starting keys and the keys of requests the user approved |
| Approval.KeptJustified | examples/code/post_model_hook.py:79-120 | every call the loop keeps passed when the loop started or has its key among the keys the user approved |
| Approval.ScreenSplit | examples/code/post_model_hook.py:79 | the loop over a batch is the loop over its first m calls, continued from that state over the rest |
| Approval.ReachedPrefix | examples/code/post_model_hook.py:79-120 | what the loop has kept, asked and cached when it reaches a call is a prefix (a subset) of what it has at the end |
| Approval.ScreenTurn | examples/code/post_model_hook.py:83-120 | on its turn a call raises one interrupt exactly when it does not pass in the current cache, is kept exactly when it passes or the answer is yes, and passes afterwards exactly when it was kept |
| Approval.ReachedGrows | examples/code/post_model_hook.py:108-114 | the cache at a later turn holds the cache at any earlier turn |
| Approval.LaterSameKeyKept | examples/code/post_model_hook.py:85-87 | a call whose key equals that of an earlier kept gated call is kept, with no interrupt |
| Approval.TurnKept | examples/code/post_model_hook.py:83-120 | one turn, seen in the final call list: kept (at the position reached) exactly when it passes or is approved, otherwise nothing added |
| Approval.TurnAsked | examples/code/post_model_hook.py:88-117 | one turn, seen in the final requests: one request at the position reached exactly when the call does not pass, kept exactly when its answer is yes |
| Approval.TurnsKept | examples/code/post_model_hook.py:79-120 | every turn of the batch as `TurnKept` states it, and every pair of calls follows the same-key rule of `LaterSameKeyKept` |
| Approval.TurnsAsked | examples/code/post_model_hook.py:88-117 | every turn of the batch as `TurnAsked` states it |
| Approval.TraceRuns | examples/code/post_model_hook.py:79 | the trace of a batch that gets through has one state per call plus the last, and its m-th state is the loop's state after the first m calls |
| Approval.ReachedRuns | examples/code/post_model_hook.py:79 | the state reached at a call is the loop's state after the calls before it |
| Approval.EachTurnKept | examples/code/post_model_hook.py:83-120 | every turn of the batch as `TurnKept` states it |
| Approval.SameKeyKept | examples/code/post_model_hook.py:85-87 | every pair of calls as `LaterSameKeyKept` states it |
| Approval.AskedAll | examples/code/post_model_hook.py:88-117 | each request is for a gated call of the batch not approved at the start; an approved key is not asked again, ends cached, and the cache is stored back |
| Approval.HookNewCalls | examples/code/post_model_hook.py:122-133 | the screened state holds the loop's kept calls in a copy of the last message and the loop's requests; the cache is stored back exactly when the loop saved it |
| Approval.HookAsks | examples/code/post_model_hook.py:79-117 | every interrupt is for a gated call not approved at the start; approved keys are cached and not asked again; the stored cache only grows; each call not passing in the cache of its turn raises exactly one interrupt, at the position the requests had reached, and is kept exactly when that answer is yes; every other call raises none |
| Approval.HookState.PostModelHook | examples/code/post_model_hook.py:54-133 | the hook's loop computes the specified outcome and stores the new messages and cache exactly when it screened the calls |
| Approval.ScreenCall | examples/code/post_model_hook.py:79-120 | one turn passes the call, asks about it, or stops for an answer, as specified |
| Interrupt.NoUpdateIff | src/deepagents/interrupt.py:28-50 | no update exactly when there are no messages, the last message has no calls, or no call is gated |
| Interrupt.PartitionSplits | src/deepagents/interrupt.py:41-46 | the gated and auto-approved lists together hold each call as often as the message does |
| Interrupt.Partition | src/deepagents/interrupt.py:41-46 | the partition loop yields the gated and the auto-approved calls, each in order |
| Interrupt.PartitionStep | src/deepagents/interrupt.py:43-46 | one iteration sends the call to exactly one of the two lists |
| Interrupt.BuildRequests | src/deepagents/interrupt.py:55-71 | the request loop builds exactly the specified requests |
| Interrupt.RequestsMatchCalls | src/deepagents/interrupt.py:55-73 | one request per gated call, in order, with its tool, args, config and description |
| Interrupt.DecideSpec | src/deepagents/interrupt.py:75-89 | the responses succeed exactly when none is extra and each is accept or edit; accept keeps the call, edit keeps name and id and takes the edited args; otherwise the first unusable response gives `IndexError` when it has no gated call, else `ValueError("Unknown response type: " + type)` |
| Interrupt.ApplyResponses | src/deepagents/interrupt.py:75-89 | the response loop appends the decided calls after the auto-approved ones, or fails as specified |
| Interrupt.HookOrder | src/deepagents/interrupt.py:52-87 | the new calls are the auto-approved calls in original order, then the decided gated calls in order |
| Interrupt.HookMessage | src/deepagents/interrupt.py:91-93 | the returned message keeps the last message's content and extra fields and carries the new call list |
| Interrupt.HookErrors | src/deepagents/interrupt.py:75-89 | the hook fails exactly when there are more responses than gated calls or some response is neither accept nor edit; the first unusable response decides the exception: `IndexError` when it has no gated call, else `ValueError("Unknown response type: " + type)` |
| Interrupt.InterruptHook | src/deepagents/interrupt.py:26-93 | the hook's loops compute the specified outcome |
| SubAgents.IndexTools | src/deepagents/sub_agent.py:25-29 | the loop builds `tools_by_name` as specified |
| SubAgents.ToolsByNameKeys | src/deepagents/sub_agent.py:25-29 | a name is indexed exactly when some tool has it |
| SubAgents.ToolsByNameLast | src/deepagents/sub_agent.py:25-29 | each name maps to the last tool that has it |
| SubAgents.ResolveSpec | src/deepagents/sub_agent.py:32 | the named tools resolve in listed order; the only failure is `KeyError` for the first unknown name |
| SubAgents.OtherAgents | src/deepagents/sub_agent.py:39-41 | one description line per sub-agent entry |
| SubAgents.CreateTaskTool | src/deepagents/sub_agent.py:21-41 | construction fails exactly as the registry does, else yields the registry and the description lines |
| SubAgents.AgentsErrorPersists | src/deepagents/sub_agent.py:30-37 | once an entry fails, construction fails with that error |
| SubAgents.AgentsSpec | src/deepagents/sub_agent.py:22-37 | the registry's names are "general-purpose" and the entries' names; each holds the agent of its last entry, or the full-tool default |
| SubAgents.AgentsShape | src/deepagents/sub_agent.py:22-37 | the registry lists each name once, "general-purpose" first |
| SubAgents.AgentsNames | src/deepagents/sub_agent.py:22-37 | a name is registered exactly when it is "general-purpose" or an entry's name |
| SubAgents.AgentsDefault | src/deepagents/sub_agent.py:22-24 | without an entry of that name, "general-purpose" is the agent over all tools with the instructions |
| SubAgents.AgentsLastEntry | src/deepagents/sub_agent.py:30-37 | a name holds the agent built from its last entry: its prompt, and its named tools or all tools |
| SubAgents.AgentsFailure | src/deepagents/sub_agent.py:30-32 | construction fails exactly when an entry names an unknown tool, and then with `KeyError` |
| SubAgents.AgentsErrWitness | src/deepagents/sub_agent.py:30-32 | a failed construction has an entry naming an unknown tool |
| SubAgents.AgentsWitnessErr | src/deepagents/sub_agent.py:30-32 | an entry naming an unknown tool makes construction fail |
| SubAgents.TaskUnknownType | src/deepagents/sub_agent.py:53-54 | an unknown type is answered with the error string listing the allowed types, and no state update |
| SubAgents.TaskDispatch | src/deepagents/sub_agent.py:55-67 | the child runs on the state with messages replaced by exactly the description; the update sets files to the child's files (or `{}`) and adds one tool message with the child's last message |
| Builder.BuiltinIndex | src/deepagents/graph.py:48-55 | each built-in is found under its own name |
| Builder.SelectBuiltinTools | src/deepagents/graph.py:48-59 | the `tools_by_name` loop and the lookups compute the selection `SelectBuiltinsSpec` describes |
| Builder.SelectBuiltinsSpec | src/deepagents/graph.py:48-59 | all five built-ins without a list; otherwise exactly the named ones in order, `KeyError` for the first unknown name |
| Builder.SelectHookSpec | src/deepagents/graph.py:65-76 | both hooks raise `ValueError`; otherwise the custom hook, else the interrupt hook, else none |
| Builder.AgentLayout | src/deepagents/graph.py:33-106 | a built agent is the assembly over the instructions plus base prompt, the selected built-ins and the selected hook |
| Builder.AssembleLayout | src/deepagents/graph.py:78-96 | the tools are built-ins, then caller tools, then one `task` tool over caller tools + built-ins with the same hook |
| Builder.PromptLayout | src/deepagents/graph.py:46 | the prompt is the instructions followed by the base prompt |
| Builder.FlavourOfEntryPoints | src/deepagents/graph.py:146-210 | `create_deep_agent` gets the sync task tool, `async_create_deep_agent` the async one |
| LocalTodos.FromDict | examples/code/local_tools.py:18-20 | `from_dict` succeeds exactly on dicts with both keys and keeps their values; otherwise `KeyError` for the missing key or `TypeError` |
| LocalTodos.FromDictToDict | examples/code/local_tools.py:15-20 | `from_dict(to_dict(t))` gives back t |
| LocalTodos.FromDictsSpec | examples/code/local_tools.py:33 | the list decodes exactly when every element is complete, element by element in order; otherwise the first bad element decides the error |
| LocalTodos.Load | examples/code/local_tools.py:25-35 | a missing or undecodable file loads as `[]`; only `TypeError` escapes |
| LocalTodos.SaveThenLoad | examples/code/local_tools.py:25-40 | loading what was saved returns the saved todos |
| LocalTodos.MissingKeyLoadsEmpty | examples/code/local_tools.py:33-35 | a `KeyError` while decoding makes the load return `[]` |
| LocalTodos.WriteTodos | examples/code/local_tools.py:99-120 | the file receives the kept entries; the state update and the count use the raw list |
| LocalTodos.KeptAppend | examples/code/local_tools.py:102-108 | keeping distributes over concatenation, so order is preserved |
| LocalTodos.KeptOne | examples/code/local_tools.py:104-108 | an entry is kept exactly when it is a dict with both keys |
| LocalTodos.KeptLength | examples/code/local_tools.py:102-108 | at most every entry is kept, and all are exactly when all are complete |
| LocalTodos.GetTodos | examples/code/local_tools.py:122-135 | `get_todos` fails exactly when loading does, else reports one dict per loaded todo |
| LocalTodos.WriteThenGet | examples/code/local_tools.py:99-135 | after `write_todos`, `get_todos` reports the kept todos, fewer than written exactly when an entry was dropped |
| CliHelpers.EstimateTaskComplexity | examples/code/main.py:214-234 | the keyword loop and adjustments compute the estimate, which lies in [1, 10] |
| CliHelpers.BaseIsLargestWeight | examples/code/main.py:221-226 | the base is the largest weight of a keyword found, or 1 when none is found |
| CliHelpers.BaseBounds | examples/code/main.py:214-226 | the base lies between 1 and the largest weight |
| CliHelpers.EstimateSpec | examples/code/main.py:228-234 | the estimate is min(base + length bonus, 10) and lies in [1, 10]; short keyword-free text gets 1 |
| CliHelpers.StepDescriptionPriority | examples/code/main.py:279-292 | the label is that of the first rule whose keyword occurs in the lower-cased content |
| CliHelpers.StepDescriptionFallback | examples/code/main.py:293-296 | without a keyword, the result splits back into the first ≤ 6 words, with "..." exactly when six were taken |
| CliHelpers.NoKeywordFound | examples/code/main.py:295-296 | without a keyword, the result is the first ≤ 6 words joined by spaces, plus "..." when six |
| CliHelpers.JoinedWords | examples/code/main.py:296 | words joined by single spaces (and an optional "...") split back into those words |
| CliHelpers.SplitCommandSpec | examples/code/main.py:309-311 | the command is the lower-cased text before the first space, and the arguments are what follows |
| CliHelpers.ParseCommandSplits | examples/code/main.py:309-312 | on the stripped input: the lower-cased text before the first space and the exact rest, or the whole text and `""` |
| QuicksortExample.QuicksortShort | examples/code/examples/example_quicksort.py:65-66 | lists of length ≤ 1 are returned as they are |
| QuicksortExample.FilterSplit | examples/code/examples/example_quicksort.py:69-71 | the less/equal/greater lists together hold each element as often as the input |
| QuicksortExample.QuicksortPermutes | examples/code/examples/example_quicksort.py:65-73 | `quicksort` returns a permutation of its input |
| QuicksortExample.QuicksortSorts | examples/code/examples/example_quicksort.py:65-73 | `quicksort` returns a sorted list |
| QuicksortExample.QuicksortIsTheSortedPermutation | examples/code/examples/example_quicksort.py:35-73 | `quicksort` returns the unique sorted arrangement of its input |
| QuicksortExample.QuicksortBuggyValues | examples/code/examples/example_quicksort.py:28-32 | `quicksort_buggy` keeps every distinct value |
| QuicksortExample.QuicksortBuggyStrict | examples/code/examples/example_quicksort.py:13-32 | `quicksort_buggy` returns a strictly increasing list, so duplicates are lost |
| QuicksortExample.QuicksortBuggySubMultiset | examples/code/examples/example_quicksort.py:28-32 | `quicksort_buggy` never adds an element |
| QuicksortExample.DemonstrateBug | examples/code/examples/example_quicksort.py:153-160 | on the demonstration input the buggy version returns six elements, losing one `1` |
| QuicksortExample.DemonstrateFix | examples/code/examples/example_quicksort.py:55-57 | on the demonstration input `quicksort` returns `[1, 1, 2, 3, 6, 8, 10]` |
| QuicksortExample.Partition | examples/code/examples/example_quicksort.py:106-143 | `_partition` returns j in [low, high), holding the former `arr[low]`, nothing greater before and nothing smaller after; the range is rearranged, the rest untouched |
| QuicksortExample.SkipSmaller | examples/code/examples/example_quicksort.py:127-128 | the left scan stops at an element ≥ pivot, keeping the partition invariant |
| QuicksortExample.SkipGreater | examples/code/examples/example_quicksort.py:131-132 | the right scan stops at an element ≤ pivot, keeping the partition invariant |
| QuicksortExample.Exchange | examples/code/examples/example_quicksort.py:134-137 | the swap extends both sides of the partition and keeps a rearrangement |
| QuicksortExample.QuicksortInplace | examples/code/examples/example_quicksort.py:76-143 | a range of ≥ 2 elements within the list is sorted in place and rearranged only within itself; one running past the end raises `IndexError` with nothing moved; a shorter range is untouched |
| QuicksortExample.SortRange | examples/code/examples/example_quicksort.py:100-103 | partition and two recursive sorts leave the range sorted and rearranged, the rest untouched |
| FibonacciExample.Fibonacci | examples/code/examples/example_fibonacci.py:38-49 | negative n raises `ValueError`; otherwise the two-variable loop returns F(n) of the recurrence F(0)=0, F(1)=1, F(n)=F(n−1)+F(n−2) |
| FibonacciExample.FibonacciSequence | examples/code/examples/example_fibonacci.py:75-78 | a negative count, and only that, raises `ValueError` with its message |
| FibonacciExample.SequenceFollowsRecurrence | examples/code/examples/example_fibonacci.py:52-78 | the list has `count` elements, starts 0, 1, each later element sums the two before it, and shorter lists are prefixes |
| FibonacciExample.FibValues | examples/code/examples/example_fibonacci.py:25-33 | F(0)=0, F(1)=1, F(5)=5, F(10)=55, F(20)=6765, F(30)=832040 |
| FibonacciExample.FibFromIsFib | examples/code/examples/example_fibonacci.py:45-47 | from two consecutive Fibonacci numbers, k rounds of `a, b = b, a + b` give the number k places on |
| FibonacciExample.SequenceValues | examples/code/examples/example_fibonacci.py:66-70 | `fibonacci_sequence(5) == [0, 1, 1, 2, 3]` and `fibonacci_sequence(0) == []` |
| Collect.Filter | src/deepagents/tools.py:177-189 | a filtered list is no longer than its input and holds only accepted inputs |
| Collect.CappedFilterIsPrefix | src/deepagents/tools.py:206-208 | the capped loop keeps exactly the first `cap` accepted elements (all when fewer) |
| Collect.CappedFilterSound | src/deepagents/tools.py:206-226 | the capped loop keeps at most `cap` accepted inputs, in their original order |
| Collect.FilterIsSubsequence | src/deepagents/interrupt.py:41-46 | filtering keeps the input order |
| Collect.FilterMember | src/deepagents/interrupt.py:41-46 | an element is kept exactly when it occurs and is accepted |
| Collect.EnumerationsAgree | src/deepagents/tools.py:192-203 | two iteration orders of one set hold the same elements |
| Collect.SubsequenceLength | examples/code/post_model_hook.py:123 | a subsequence is no longer than its source, and one of the same length is the source |
| StringOrder.Sort | src/deepagents/tools.py:229 | `sort()` returns a sorted permutation of its input |
| StringOrder.SortedUnique | src/deepagents/tools.py:229 | the sorted arrangement of a list of strings is unique |
| StringOrder.LexLeTotal | src/deepagents/tools.py:229 | Python's string order is total |
| StringOrder.LexLeTrans | src/deepagents/tools.py:229 | Python's string order is transitive |
| StringOrder.LexLeAntisym | src/deepagents/tools.py:229 | Python's string order is antisymmetric |
| Text.LStrip | src/deepagents/tools.py:54 | `lstrip()` removes exactly the leading whitespace |
| Text.RStrip | src/deepagents/tools.py:54 | `rstrip()` removes exactly the trailing whitespace |
| Text.StripEmptyIffBlank | src/deepagents/tools.py:54 | `not s or s.strip() == ""` holds exactly of whitespace-only strings |
| Text.RStripChar | src/deepagents/tools.py:170 | `rstrip("/")` gives a prefix not ending in `/` |
| Text.LStripChar | src/deepagents/tools.py:185 | `lstrip("/")` gives a suffix not starting with `/` |
| Text.SplitLines | src/deepagents/tools.py:58 | `splitlines()` is empty exactly for empty text, and no line holds a line break |
| Text.SplitLinesJoin | src/deepagents/tools.py:58 | joining the lines with `\n` gives the text back, up to one final newline, when `\n` is its only break |
| Text.TranslateNewlines | src/deepagents/real_fs_tools.py:49-50 | a text-mode read contains no `\r` |
| Text.TranslateWithoutCR | src/deepagents/real_fs_tools.py:49-50 | text without `\r` reads back unchanged |
| Text.ReadLines | src/deepagents/local_fs_tools.py:319 | `readlines()` yields only non-empty lines |
| Text.RStripNewlines | src/deepagents/local_fs_tools.py:328 | `rstrip("\n\r")` gives a prefix without a trailing line end |
| Text.StripReadLines | src/deepagents/local_fs_tools.py:319-328 | stripping the `readlines` of text without `\r` gives the pieces between newlines |
| Text.FindFrom | src/deepagents/tools.py:122 | `find` returns the first occurrence, or reports that there is none |
| Text.FindIffContains | src/deepagents/tools.py:122 | `find` succeeds exactly when `old in content` |
| Text.CountPositiveIffContains | src/deepagents/tools.py:122-131 | `count` is positive exactly when the string occurs |
| Text.ReplaceAllLength | src/deepagents/tools.py:135-136 | each replaced occurrence changes the length by |new| − |old| |
| Text.ReplaceAllSelf | src/deepagents/tools.py:135 | replacing a string by itself changes nothing |
| Text.ReplaceAllAbsent | src/deepagents/tools.py:135 | without an occurrence, `replace` returns its input |
| Text.SingleOccurrenceReplace | src/deepagents/tools.py:139-141 | with a single occurrence, replacing the first and replacing all agree |
| Text.Words | examples/code/main.py:295 | `split()` yields only non-empty whitespace-free words |
| Text.WordsOfJoin | examples/code/main.py:296 | `split()` undoes `" ".join(words)` |
| Text.NatToString | src/deepagents/tools.py:79 | `str(n)` is a non-empty string of digits |
| Text.NatToStringValue | src/deepagents/tools.py:79 | the digits of `str(n)` denote n |
| Text.SplitAtFirst | examples/code/post_model_hook.py:94 | for a head without `c`, `split(c, 1)` of head + c + tail gives back head and tail |
| Text.FirstSplit | examples/code/main.py:308-310 | a string holding `c` is its text before the first `c`, that `c`, and the text after it, the first part free of `c` |

## Left out

- Python `str.lower()` is modelled on ASCII letters only. Unicode case mapping is not modelled.
- The regular-expression branch of `grep` (src/deepagents/tools.py:317-322,
  src/deepagents/local_fs_tools.py:299-304) is not modelled as a library. The caller supplies
  the compiled search, or the compiler's error message, as a parameter.
- These are parameters and are not modelled:
  - `fnmatch.fnmatch`;
  - `Path.glob`/`Path.rglob` enumeration, given as the entries the walk yields in order;
  - `iterdir` order;
  - the iteration order of `glob`'s directory set;
  - `os.path.abspath`, `dirname`, `normpath` and `os.getcwd`.
- Resolving a path argument to a disk location (`pathlib.Path`) is outside the model. Each disk
  tool receives the argument together with the path it resolves to.
- Disk decoding happens at the byte level and is not modelled. A file is valid UTF-8 text, or
  other bytes represented by their lossy decoding. Text-mode newline translation is modelled.
- The broad `except Exception` handlers are modelled where the disk model can raise what they
  catch, and only there:
  - `Disk.DiskStore.ReadFile` renders the `IndexError` its handler catches
    (src/deepagents/real_fs_tools.py:86-87).
  - `Disk.DiskStore.WriteFile` returns the two failures that reach its handler (an ancestor that
    is a file, a target that is a directory) as `Err`. The reply text `"Error writing file: "`
    plus the operating system's message is not rendered, because that message is the OS's.
  - `LocalSearch.Glob` and `LocalSearch.Grep` receive the walk as entries or as the error its
    first step raises for a refused pattern. They render that error as "Error processing glob
    pattern: …" and "Error in grep search: …" respectively.
  - An error raised part-way through a walk (for example a permission error under the root) is
    not modelled: the walk either yields all its entries or fails at once.
  - Failures the disk model has no counterpart for (permissions, races, a file vanishing
    between checks) are not modelled, in any of the handlers. Neither is the `real_ls`,
    `real_edit_file` or outer `glob` handler, which only such failures would reach.
- The language model, `create_react_agent` and `.invoke` are outside the model. An agent is the
  prompt, tools and hook it is built with, and `invoke` is a parameter. LangGraph's `Command`
  and `ToolMessage` plumbing is modelled only as the update values.
- `interrupt(...)` is a parameter: the interrupt hook receives the responses, and the approval
  hook receives the answers in the order asked. A run that needs an unanswered interrupt ends
  as a suspended value.
- `SubAgents.Task`: the in-place `state["messages"] = ...` (src/deepagents/sub_agent.py:56) is
  modelled as the state handed to the child. The caller's copy, which shares that dict, is not
  modelled.
- `Interrupt.InterruptHook`: the overwrite of `last_message.tool_calls` in place
  (src/deepagents/interrupt.py:91) is modelled as the returned message value. Aliasing with the
  state's list is not captured.
- Python `repr` of argument dicts and of todo lists is a parameter or a simple rendering of
  plain strings, and is not reproduced for arbitrary values.
- `SubAgents.Task` and `SubAgents.TaskUnknownType` render the allowed types
  (src/deepagents/sub_agent.py:54) with each name in single quotes and no escaping. Python's
  `repr` of the list switches to double quotes for a name containing `'`, and escapes
  backslashes and non-printable characters. The reply is exact only for agent names without
  those characters.
- `QuicksortExample.QuicksortInplace` requires a non-negative `low` for a range of two or more
  elements. Python would index from the end for a negative `low`
  (examples/code/examples/example_quicksort.py:113), and the model does not follow that
  wrap-around. A range that runs past the end is modelled: it raises `IndexError`.
- src/deepagents/graph.py:1-6 imports `_create_task_tool`, `_create_sync_task_tool` and
  `CustomSubAgent`, which src/deepagents/sub_agent.py does not define. The builder records the
  task tool it would build (flavour, tools, instructions, sub-agents, hook) instead of calling a
  constructor. Custom sub-agents, `model`, `state_schema`, `config_schema` and the checkpointer
  are not modelled.
- `LocalTodos`: `todos.json` is a decoded JSON value: absent, not valid JSON, or a value. A file
  that is not valid UTF-8 text is not modelled: its `UnicodeDecodeError` is not among the
  exceptions `load_todos` catches and would escape. The JSON text encoding, the `indent=2` layout
  and file-system errors (for example a directory at that path) are not modelled either. JSON
  numbers are integers.
- `FibonacciExample.Fibonacci` and `FibonacciExample.FibonacciSequence` take integer arguments,
  so the `TypeError` branches for non-integers cannot arise and are not modelled.
- `QuicksortExample`: elements are integers. The docstring's string example and the
  `TypeError` for incomparable elements are not modelled.
- Concurrency, the CLI loops, prompts, network clients, setup scripts and the older variants
  under src/deepagent and src/claude_everything are outside the modelled core.
