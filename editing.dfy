/**
 * The exact-substring replacement rules `edit_file` applies once it has the file's text,
 * identical in src/deepagents/tools.py, src/deepagents/real_fs_tools.py and
 * src/deepagents/local_fs_tools.py.
 */
module Editing {
  import opened Text

  /** Where an edit ends after the file's text was read. */
  datatype EditOutcome =
    | StringNotFound
    | Ambiguous(occurrences: nat)
    | ReplacedOne(text: string)
    | ReplacedAll(text: string, count: nat)

  predicate IsError(o: EditOutcome) {
    o.StringNotFound? || o.Ambiguous?
  }

  /**
   * `old_string not in content`, then the uniqueness check (kept with its branch for zero
   * occurrences), then `content.replace(old, new)` or `content.replace(old, new, 1)`.
   */
  function Edit(content: string, target: string, repl: string, replaceAll: bool): EditOutcome {
    if !Contains(content, target) then StringNotFound
    else if !replaceAll && Count(content, target) > 1 then Ambiguous(Count(content, target))
    else if !replaceAll && Count(content, target) == 0 then StringNotFound
    else if replaceAll then ReplacedAll(ReplaceAll(content, target, repl), Count(content, target))
    else ReplacedOne(ReplaceFirst(content, target, repl))
  }

  /** The reply text of an edit of `path`. */
  function EditMessage(path: string, target: string, o: EditOutcome): string {
    match o
    case StringNotFound => "Error: String not found in file: '" + target + "'"
    case Ambiguous(n) =>
      "Error: String '" + target + "' appears " + IntToString(n)
      + " times in file. Use replace_all=True to replace all instances, or provide a more specific string with surrounding context."
    case ReplacedOne(_) => "Successfully replaced string in '" + path + "'"
    case ReplacedAll(_, n) =>
      "Successfully replaced " + IntToString(n) + " instance(s) of the string in '" + path + "'"
  }

  /**
   * An edit fails exactly when the string is absent, or when it occurs more than once and
   * `replace_all` is off; the zero-occurrence branch is never reached.
   */
  lemma EditFailsIff(content: string, target: string, repl: string, replaceAll: bool)
    ensures IsError(Edit(content, target, repl, replaceAll))
            <==> !Contains(content, target) || (!replaceAll && Count(content, target) > 1)
    ensures Edit(content, target, repl, replaceAll).StringNotFound? <==> !Contains(content, target)
  {
    CountPositiveIffContains(content, target);
  }

  /**
   * An empty `old_string` occurs `len(content) + 1` times: in a non-empty text it is ambiguous
   * without `replace_all`, while an empty text has exactly one occurrence and the edit then
   * stores the new string.
   */
  lemma EmptyTarget(content: string, repl: string)
    ensures content != [] ==> Edit(content, "", repl, false) == Ambiguous(|content| + 1)
    ensures content == [] ==> Edit(content, "", repl, false) == ReplacedOne(repl)
  {
    assert OccursAt(content, "", 0);
  }

  /**
   * With `replace_all`, every non-overlapping occurrence is replaced and their number is
   * reported; each one changes the length by `|new| - |old|`.
   */
  lemma ReplaceAllOutcome(content: string, target: string, repl: string)
    requires Contains(content, target)
    ensures Edit(content, target, repl, true)
            == ReplacedAll(ReplaceAll(content, target, repl), Count(content, target))
    ensures Count(content, target) >= 1
    ensures |ReplaceAll(content, target, repl)|
            == |content| + Count(content, target) * (|repl| - |target|)
  {
    CountPositiveIffContains(content, target);
    ReplaceAllLength(content, target, repl);
  }

  /**
   * Without `replace_all` a successful edit replaces the single occurrence: the result is
   * the text before it, the new string, and the text after it, and agrees with replacing
   * every occurrence.
   */
  lemma ReplaceOneOutcome(content: string, target: string, repl: string)
    requires !IsError(Edit(content, target, repl, false))
    ensures Count(content, target) == 1
    ensures var r := Edit(content, target, repl, false);
            var i := FindFrom(content, target, 0).value;
            r.ReplacedOne?
            && r.text == content[..i] + repl + content[i + |target|..]
            && r.text == ReplaceAll(content, target, repl)
            && |r.text| == |content| + |repl| - |target|
  {
    CountPositiveIffContains(content, target);
    if |target| == 0 {
      EmptyTarget(content, repl);
    }
    FindIffContains(content, target);
    SingleOccurrenceReplace(content, target, repl);
    ReplaceAllLength(content, target, repl);
  }

  /** Replacing a string by itself leaves the text as it was. */
  lemma EditWithSameString(content: string, target: string, replaceAll: bool)
    requires !IsError(Edit(content, target, target, replaceAll))
    ensures var r := Edit(content, target, target, replaceAll);
            (r.ReplacedOne? && r.text == content) || (r.ReplacedAll? && r.text == content)
  {
    ReplaceAllSelf(content, target);
    if !replaceAll {
      ReplaceOneOutcome(content, target, target);
    }
  }
}
