/**
 * The small pure helpers of the coding agent's command line, examples/code/main.py: the step
 * estimate for a task, the label shown for an agent step, and the split of an input line into
 * a command and its arguments. `str.lower()` is modelled on ASCII letters.
 */
module CliHelpers {
  import opened Wrappers
  import opened Text

  // ---------------------------------------------------------------------
  // estimate_task_complexity

  datatype Keyword = Keyword(word: string, weight: nat)

  /** `complexity_keywords`, in the dict's order. */
  const ComplexityKeywords: seq<Keyword> := [
    Keyword("create", 3), Keyword("implement", 4), Keyword("build", 5), Keyword("design", 4),
    Keyword("debug", 2), Keyword("fix", 2), Keyword("review", 2), Keyword("test", 2),
    Keyword("optimize", 3), Keyword("refactor", 3), Keyword("api", 4), Keyword("database", 4),
    Keyword("web", 5), Keyword("microservice", 6), Keyword("distributed", 7), Keyword("system", 5)
  ]

  const MaxSteps: int := 10

  /** `base_complexity` after the first `|keywords|` entries: 1, raised to the weight of each keyword found. */
  function BaseComplexity(lower: string, keywords: seq<Keyword>): int
    decreases |keywords|
  {
    if keywords == [] then 1
    else
      var before := BaseComplexity(lower, keywords[..|keywords| - 1]);
      var k := keywords[|keywords| - 1];
      if Contains(lower, k.word) then Max(before, k.weight) else before
  }

  /** The length bonus: 2 past 200 characters, 1 past 100. */
  function LengthBonus(length: int): int {
    if length > 200 then 2 else if length > 100 then 1 else 0
  }

  function Estimate(description: string): int {
    Min(BaseComplexity(Lower(description), ComplexityKeywords) + LengthBonus(|description|), MaxSteps)
  }

  /** `estimate_task_complexity`: the keyword loop, the length adjustment, the cap. */
  method EstimateTaskComplexity(description: string) returns (steps: int)
    ensures steps == Estimate(description)
    ensures 1 <= steps <= MaxSteps
  {
    var lower := Lower(description);
    var base := 1;
    for i := 0 to |ComplexityKeywords|
      invariant base == BaseComplexity(lower, ComplexityKeywords[..i])
    {
      assert ComplexityKeywords[..i + 1][..i] == ComplexityKeywords[..i];
      var k := ComplexityKeywords[i];
      if Contains(lower, k.word) {
        base := Max(base, k.weight);
      }
    }
    assert ComplexityKeywords[..|ComplexityKeywords|] == ComplexityKeywords;
    if |description| > 200 {
      base := base + 2;
    } else if |description| > 100 {
      base := base + 1;
    }
    BaseBounds(lower, ComplexityKeywords);
    steps := Min(base, MaxSteps);
  }

  /**
   * The base is the largest weight among the keywords found in the text, or 1 when none is
   * found (no weight is below 1).
   */
  lemma {:induction false} BaseIsLargestWeight(lower: string, keywords: seq<Keyword>)
    ensures forall k :: 0 <= k < |keywords| && Contains(lower, keywords[k].word) ==>
              keywords[k].weight <= BaseComplexity(lower, keywords)
    ensures BaseComplexity(lower, keywords) == 1
            || exists k :: 0 <= k < |keywords| && Contains(lower, keywords[k].word)
                           && keywords[k].weight == BaseComplexity(lower, keywords)
    decreases |keywords|
  {
    if keywords != [] {
      var front := keywords[..|keywords| - 1];
      BaseIsLargestWeight(lower, front);
      forall k | 0 <= k < |front|
        ensures front[k] == keywords[k]
      {
      }
    }
  }

  lemma {:induction false} BaseBounds(lower: string, keywords: seq<Keyword>)
    requires forall k :: 0 <= k < |keywords| ==> keywords[k].weight <= 8
    ensures 1 <= BaseComplexity(lower, keywords) <= 8
    decreases |keywords|
  {
    if keywords != [] {
      BaseBounds(lower, keywords[..|keywords| - 1]);
    }
  }

  /** The estimate is the base plus the length bonus, capped at 10; it is never below 1. */
  lemma EstimateSpec(description: string)
    ensures Estimate(description)
            == Min(BaseComplexity(Lower(description), ComplexityKeywords) + LengthBonus(|description|), MaxSteps)
    ensures 1 <= Estimate(description) <= MaxSteps
    ensures (|description| <= 100
             && forall k :: 0 <= k < |ComplexityKeywords| ==> !Contains(Lower(description), ComplexityKeywords[k].word))
            ==> Estimate(description) == 1
  {
    BaseBounds(Lower(description), ComplexityKeywords);
    BaseIsLargestWeight(Lower(description), ComplexityKeywords);
  }

  // ---------------------------------------------------------------------
  // extract_step_description

  const FallbackWords: nat := 6

  /** `extract_step_description`: the first keyword's label, else the first six words. */
  function StepDescription(content: string): string {
    var lower := Lower(content);
    if Contains(lower, "analyzing") then "Analyzing requirements and planning approach"
    else if Contains(lower, "implementing") || Contains(lower, "creating") then "Implementing the solution"
    else if Contains(lower, "testing") then "Writing and running tests"
    else if Contains(lower, "reviewing") then "Reviewing code quality and best practices"
    else if Contains(lower, "debugging") then "Debugging and fixing issues"
    else if Contains(lower, "optimizing") then "Optimizing performance and efficiency"
    else
      var words := Words(content);
      var taken := words[..Min(FallbackWords, |words|)];
      Join(taken, " ") + (if |taken| == FallbackWords then "..." else "")
  }

  /** A label and the keywords that select it. */
  datatype Rule = Rule(keywords: seq<string>, title: string)

  /** The labels in the order they are tried. */
  const StepRules: seq<Rule> := [
    Rule(["analyzing"], "Analyzing requirements and planning approach"),
    Rule(["implementing", "creating"], "Implementing the solution"),
    Rule(["testing"], "Writing and running tests"),
    Rule(["reviewing"], "Reviewing code quality and best practices"),
    Rule(["debugging"], "Debugging and fixing issues"),
    Rule(["optimizing"], "Optimizing performance and efficiency")
  ]

  predicate Fires(rule: Rule, lower: string) {
    exists w :: w in rule.keywords && Contains(lower, w)
  }

  /**
   * The label is the one of the first rule whose keyword occurs in the lower-cased content;
   * when none does, the result is built from the content's words.
   */
  lemma StepDescriptionPriority(content: string, k: nat)
    requires k < |StepRules| && Fires(StepRules[k], Lower(content))
    requires forall m :: 0 <= m < k ==> !Fires(StepRules[m], Lower(content))
    ensures StepDescription(content) == StepRules[k].title
  {
    var lower := Lower(content);
    assert StepRules[1].keywords == ["implementing", "creating"];
    if k > 0 {
      assert !Fires(StepRules[0], lower);
      assert !Contains(lower, "analyzing") by { assert "analyzing" in StepRules[0].keywords; }
    }
    if k > 1 {
      assert !Fires(StepRules[1], lower);
      assert !Contains(lower, "implementing") by { assert "implementing" in StepRules[1].keywords; }
      assert !Contains(lower, "creating") by { assert "creating" in StepRules[1].keywords; }
    }
    if k > 2 {
      assert !Fires(StepRules[2], lower);
      assert !Contains(lower, "testing") by { assert "testing" in StepRules[2].keywords; }
    }
    if k > 3 {
      assert !Fires(StepRules[3], lower);
      assert !Contains(lower, "reviewing") by { assert "reviewing" in StepRules[3].keywords; }
    }
    if k > 4 {
      assert !Fires(StepRules[4], lower);
      assert !Contains(lower, "debugging") by { assert "debugging" in StepRules[4].keywords; }
    }
  }

  /**
   * Without a keyword, the description is the content's first words, at most six, separated by
   * single spaces: splitting it again gives those words back, and "..." follows exactly when six
   * were taken.
   */
  lemma StepDescriptionFallback(content: string)
    requires forall m :: 0 <= m < |StepRules| ==> !Fires(StepRules[m], Lower(content))
    ensures var words := Words(content);
            var n := Min(FallbackWords, |words|);
            var r := StepDescription(content);
            (n == FallbackWords ==> |r| >= 3 && r[|r| - 3..] == "..." && Words(r[..|r| - 3]) == words[..n])
            && (n < FallbackWords ==> Words(r) == words)
  {
    NoKeywordFound(content);
    var words := Words(content);
    var taken := words[..Min(FallbackWords, |words|)];
    JoinedWords(taken, StepDescription(content));
    if |taken| < FallbackWords {
      assert taken == words;
    }
  }

  /** Words joined by single spaces, perhaps followed by "...", split back into those words. */
  lemma JoinedWords(taken: seq<string>, r: string)
    requires forall k :: 0 <= k < |taken| ==> IsWord(taken[k])
    requires r == Join(taken, " ") + (if |taken| == FallbackWords then "..." else "")
    ensures |taken| == FallbackWords ==> |r| >= 3 && r[|r| - 3..] == "..." && Words(r[..|r| - 3]) == taken
    ensures |taken| != FallbackWords ==> Words(r) == taken
  {
    var j := Join(taken, " ");
    WordsOfJoin(taken);
    if |taken| == FallbackWords {
      assert r == j + "...";
      assert r[..|r| - 3] == j;
    } else {
      assert r == j + "";
      assert r == j;
    }
  }

  lemma NoKeywordFound(content: string)
    requires forall m :: 0 <= m < |StepRules| ==> !Fires(StepRules[m], Lower(content))
    ensures var words := Words(content);
            var taken := words[..Min(FallbackWords, |words|)];
            StepDescription(content) == Join(taken, " ") + (if |taken| == FallbackWords then "..." else "")
  {
    var lower := Lower(content);
    assert !Contains(lower, "analyzing") by { assert "analyzing" in StepRules[0].keywords; }
    assert !Contains(lower, "implementing") by { assert "implementing" in StepRules[1].keywords; }
    assert !Contains(lower, "creating") by { assert "creating" in StepRules[1].keywords; }
    assert !Contains(lower, "testing") by { assert "testing" in StepRules[2].keywords; }
    assert !Contains(lower, "reviewing") by { assert "reviewing" in StepRules[3].keywords; }
    assert !Contains(lower, "debugging") by { assert "debugging" in StepRules[4].keywords; }
    assert !Contains(lower, "optimizing") by { assert "optimizing" in StepRules[5].keywords; }
  }

  // ---------------------------------------------------------------------
  // parse_command

  /** The split of an already stripped line: lower-cased text before the first space, and the rest. */
  function SplitCommand(t: string): (string, string) {
    if ' ' in t then (Lower(BeforeFirst(t, ' ')), AfterFirst(t, ' ')) else (Lower(t), "")
  }

  /** `parse_command`: split the stripped input at its first space. */
  function ParseCommand(input: string): (string, string) {
    SplitCommand(Strip(input))
  }

  lemma SplitCommandSpec(t: string)
    ensures if ' ' in t then
              exists head :: ' ' !in head && t == head + " " + SplitCommand(t).1 && SplitCommand(t).0 == Lower(head)
            else
              SplitCommand(t) == (Lower(t), "")
  {
    if ' ' in t {
      FirstSplit(t, ' ');
    }
  }

  /**
   * The command is the lower-cased text before the first space of the stripped input, and the
   * arguments exactly what follows that space; without a space, the command is the whole
   * stripped input and the arguments are empty.
   */
  lemma ParseCommandSplits(input: string)
    ensures var t := Strip(input);
            if ' ' in t then
              exists head :: ' ' !in head && t == head + " " + ParseCommand(input).1 && ParseCommand(input).0 == Lower(head)
            else
              ParseCommand(input) == (Lower(t), "")
  {
    SplitCommandSpec(Strip(input));
  }
}
