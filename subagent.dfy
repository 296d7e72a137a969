/**
 * The `task` tool of src/deepagents/sub_agent.py: a registry of sub-agents, always holding
 * "general-purpose" with the full toolset, and a tool that hands a task description to one of
 * them and merges its result back into the caller's state.
 *
 * Building an agent (`create_react_agent`) is recorded as the prompt and tools it is given;
 * running one (`invoke`) is a parameter.
 */
module SubAgents {
  import opened Wrappers
  import opened Text
  import opened Collect
  import opened Session

  /** A tool, known by its name. */
  datatype Tool = Tool(name: string)

  /** An agent as built: its system prompt and its tools. */
  datatype Agent = Agent(prompt: string, tools: seq<Tool>)

  /** A `SubAgent` entry; `tools` is absent when the entry has no "tools" key. */
  datatype SubAgentSpec = SubAgentSpec(name: string, description: string, prompt: string, tools: Option<seq<string>>)

  /** A dict of agents: its keys in insertion order, and its entries. */
  datatype Registry = Registry(order: seq<string>, agents: map<string, Agent>)

  const GeneralPurpose: string := "general-purpose"

  /** `tools_by_name`: each tool under its name, a later tool replacing an earlier one of the same name. */
  function ToolsByName(tools: seq<Tool>): map<string, Tool>
    decreases |tools|
  {
    if tools == [] then map[]
    else ToolsByName(tools[..|tools| - 1])[tools[|tools| - 1].name := tools[|tools| - 1]]
  }

  /** `[tools_by_name[t] for t in names]`: a `KeyError` for the first unknown name. */
  function Resolve(names: seq<string>, byName: map<string, Tool>): Result<seq<Tool>, Exception>
    decreases |names|
  {
    if names == [] then Ok([])
    else if names[0] !in byName then Err(KeyError(names[0]))
    else
      match Resolve(names[1..], byName)
      case Err(e) => Err(e)
      case Ok(rest) => Ok([byName[names[0]]] + rest)
  }

  /** The tools a sub-agent gets: the named ones, or all of them when it names none. */
  function AgentTools(spec: SubAgentSpec, tools: seq<Tool>): Result<seq<Tool>, Exception> {
    if spec.tools.Some? then Resolve(spec.tools.value, ToolsByName(tools)) else Ok(tools)
  }

  /** `d[key] = value` on an insertion-ordered dict. */
  function Put(r: Registry, key: string, value: Agent): Registry {
    Registry(if key in r.agents then r.order else r.order + [key], r.agents[key := value])
  }

  /** The registry after the first `|subagents|` entries, or the first `KeyError`. */
  function Agents(tools: seq<Tool>, instructions: string, subagents: seq<SubAgentSpec>): Result<Registry, Exception>
    decreases |subagents|
  {
    if subagents == [] then Ok(Registry([GeneralPurpose], map[GeneralPurpose := Agent(instructions, tools)]))
    else
      var spec := subagents[|subagents| - 1];
      match Agents(tools, instructions, subagents[..|subagents| - 1])
      case Err(e) => Err(e)
      case Ok(r) =>
        match AgentTools(spec, tools)
        case Err(e) => Err(e)
        case Ok(ts) => Ok(Put(r, spec.name, Agent(spec.prompt, ts)))
  }

  /** The agent list shown in the tool's description: `- name: description` per entry. */
  function OtherAgents(subagents: seq<SubAgentSpec>): (lines: seq<string>)
    ensures |lines| == |subagents|
  {
    seq(|subagents|, k requires 0 <= k < |subagents| => "- " + subagents[k].name + ": " + subagents[k].description)
  }

  /** The `task` tool as built: the registry and the description's agent list. */
  datatype TaskTool = TaskTool(registry: Registry, otherAgents: seq<string>)

  // ---------------------------------------------------------------------
  // Construction

  /** The loop filling `tools_by_name`. */
  method IndexTools(tools: seq<Tool>) returns (byName: map<string, Tool>)
    ensures byName == ToolsByName(tools)
  {
    byName := map[];
    var i := 0;
    while i < |tools|
      invariant i <= |tools|
      invariant byName == ToolsByName(tools[..i])
      decreases |tools| - i
    {
      assert tools[..i + 1][..i] == tools[..i];
      byName := byName[tools[i].name := tools[i]];
      i := i + 1;
    }
    assert tools[..i] == tools;
  }

  /** `create_task_tool`: the registry loop, then the description's agent list. */
  method CreateTaskTool(tools: seq<Tool>, instructions: string, subagents: seq<SubAgentSpec>)
    returns (r: Result<TaskTool, Exception>)
    ensures r.Err? <==> Agents(tools, instructions, subagents).Err?
    ensures r.Err? ==> r.error == Agents(tools, instructions, subagents).error
    ensures r.Ok? ==> r.value == TaskTool(Agents(tools, instructions, subagents).value, OtherAgents(subagents))
  {
    var registry := Registry([GeneralPurpose], map[GeneralPurpose := Agent(instructions, tools)]);
    var byName := IndexTools(tools);
    var i := 0;
    while i < |subagents|
      invariant i <= |subagents|
      invariant Agents(tools, instructions, subagents[..i]) == Ok(registry)
      decreases |subagents| - i
    {
      var spec := subagents[i];
      assert subagents[..i + 1][..i] == subagents[..i];
      var agentTools := tools;
      if spec.tools.Some? {
        var resolved := Resolve(spec.tools.value, byName);
        if resolved.Err? {
          assert Agents(tools, instructions, subagents[..i + 1]) == Err(resolved.error);
          AgentsErrorPersists(tools, instructions, subagents, i + 1);
          assert subagents[..|subagents|] == subagents;
          return Err(resolved.error);
        }
        agentTools := resolved.value;
      }
      registry := Put(registry, spec.name, Agent(spec.prompt, agentTools));
      i := i + 1;
    }
    assert subagents[..i] == subagents;
    r := Ok(TaskTool(registry, OtherAgents(subagents)));
  }

  /** Once an entry fails, the whole construction fails with that error. */
  lemma {:induction false} AgentsErrorPersists(tools: seq<Tool>, instructions: string, subagents: seq<SubAgentSpec>, n: nat)
    requires n <= |subagents| && Agents(tools, instructions, subagents[..n]).Err?
    ensures Agents(tools, instructions, subagents) == Agents(tools, instructions, subagents[..n])
    decreases |subagents| - n
  {
    if n < |subagents| {
      assert subagents[..n + 1][..n] == subagents[..n];
      AgentsErrorPersists(tools, instructions, subagents, n + 1);
    } else {
      assert subagents[..n] == subagents;
    }
  }

  // ---------------------------------------------------------------------
  // Dispatch

  /** `repr` of a list of strings without quotes or backslashes in them. */
  function ListRepr(items: seq<string>): string {
    "[" + Join(seq(|items|, k requires 0 <= k < |items| => QuoteRepr(items[k])), ", ") + "]"
  }

  function Backticked(names: seq<string>): seq<string> {
    seq(|names|, k requires 0 <= k < |names| => "`" + names[k] + "`")
  }

  /** What the child agent returns: its `files`, if any, and its messages. */
  datatype ChildResult = ChildResult(files: Option<map<string, string>>, messages: seq<Message>)

  /** The state handed to the child: the caller's, with `messages` replaced by the description. */
  function ChildState(state: AgentState, description: string): AgentState {
    state.(messages := [UserMessage(description)])
  }

  /** `task`; `invoke` runs an agent on a state. */
  function Task(registry: Registry, description: string, subagentType: string, state: AgentState,
                invoke: (Agent, AgentState) -> ChildResult, toolCallId: string): Result<ToolReply, Exception>
  {
    if subagentType !in registry.agents then
      Ok(Plain("Error: invoked agent of type " + subagentType + ", the only allowed types are "
               + ListRepr(Backticked(registry.order))))
    else
      var result := invoke(registry.agents[subagentType], ChildState(state, description));
      if result.messages == [] then Err(IndexError)
      else
        Ok(Command(Update(None, Some(if result.files.Some? then result.files.value else map[]),
                          [ToolMessage(result.messages[|result.messages| - 1].content, toolCallId)])))
  }

  // ---------------------------------------------------------------------
  // Properties

  /** A name is in `tools_by_name` exactly when a tool has it. */
  lemma {:induction false} ToolsByNameKeys(tools: seq<Tool>, n: string)
    ensures n in ToolsByName(tools) <==> exists k :: 0 <= k < |tools| && tools[k].name == n
    decreases |tools|
  {
    if tools != [] {
      var init := tools[..|tools| - 1];
      ToolsByNameKeys(init, n);
      if exists k :: 0 <= k < |tools| && tools[k].name == n {
        var k :| 0 <= k < |tools| && tools[k].name == n;
        if k < |init| {
          assert init[k].name == n;
        }
      }
      if n in ToolsByName(init) {
        var k :| 0 <= k < |init| && init[k].name == n;
        assert tools[k].name == n;
      }
    }
  }

  /** Each name maps to the last tool that has it. */
  lemma {:induction false} ToolsByNameLast(tools: seq<Tool>, k: nat)
    requires k < |tools| && forall j :: k < j < |tools| ==> tools[j].name != tools[k].name
    ensures tools[k].name in ToolsByName(tools) && ToolsByName(tools)[tools[k].name] == tools[k]
    decreases |tools|
  {
    var init := tools[..|tools| - 1];
    if k < |init| {
      forall j | k < j < |init|
        ensures init[j].name != init[k].name
      {
        assert init[j] == tools[j];
      }
      ToolsByNameLast(init, k);
    }
  }

  /**
   * The named tools are resolved in the listed order; the only failure is a `KeyError` for the
   * first name that no tool has.
   */
  lemma {:induction false} ResolveSpec(names: seq<string>, byName: map<string, Tool>)
    ensures Resolve(names, byName).Ok? <==> forall k :: 0 <= k < |names| ==> names[k] in byName
    ensures Resolve(names, byName).Ok? ==>
              |Resolve(names, byName).value| == |names|
              && forall k :: 0 <= k < |names| ==> Resolve(names, byName).value[k] == byName[names[k]]
    ensures Resolve(names, byName).Err? ==>
              exists k :: 0 <= k < |names| && names[k] !in byName
                          && Resolve(names, byName).error == KeyError(names[k])
                          && forall j :: 0 <= j < k ==> names[j] in byName
    decreases |names|
  {
    if names != [] && names[0] in byName {
      ResolveSpec(names[1..], byName);
      var r := Resolve(names[1..], byName);
      if r.Ok? {
        forall k | 0 <= k < |names|
          ensures Resolve(names, byName).value[k] == byName[names[k]]
        {
          if k > 0 {
            assert names[k] == names[1..][k - 1];
          }
        }
      } else {
        var k :| 0 <= k < |names[1..]| && names[1..][k] !in byName && r.error == KeyError(names[1..][k])
                 && forall j :: 0 <= j < k ==> names[1..][j] in byName;
        assert names[k + 1] !in byName;
        forall j | 0 <= j < k + 1
          ensures names[j] in byName
        {
          if j > 0 {
            assert names[j] == names[1..][j - 1];
          }
        }
      }
    }
  }

  /** Entry `k` is the last one named `n`. */
  predicate IsLastNamed(subagents: seq<SubAgentSpec>, k: nat, n: string)
    requires k < |subagents|
  {
    subagents[k].name == n && forall j :: k < j < |subagents| ==> subagents[j].name != n
  }

  /**
   * The registry lists each name once, "general-purpose" first; its names are exactly
   * "general-purpose" and the entries' names; and each name holds the agent built from its last
   * entry, or the general-purpose agent over all tools when no entry has that name.
   */
  lemma {:induction false} AgentsSpec(tools: seq<Tool>, instructions: string, subagents: seq<SubAgentSpec>, n: string)
    requires Agents(tools, instructions, subagents).Ok?
    ensures var r := Agents(tools, instructions, subagents).value;
            Distinct(r.order) && r.order != [] && r.order[0] == GeneralPurpose
            && (n in r.agents <==> n in r.order)
            && (n in r.agents <==> n == GeneralPurpose || exists k :: 0 <= k < |subagents| && subagents[k].name == n)
            && (n == GeneralPurpose && (forall k :: 0 <= k < |subagents| ==> subagents[k].name != n)
                ==> r.agents[n] == Agent(instructions, tools))
            && (forall k :: 0 <= k < |subagents| && IsLastNamed(subagents, k, n) ==>
                  AgentTools(subagents[k], tools).Ok?
                  && r.agents[n] == Agent(subagents[k].prompt, AgentTools(subagents[k], tools).value))
    decreases |subagents|
  {
    AgentsShape(tools, instructions, subagents);
    AgentsNames(tools, instructions, subagents, n);
    if n == GeneralPurpose && forall k :: 0 <= k < |subagents| ==> subagents[k].name != n {
      AgentsDefault(tools, instructions, subagents);
    }
    forall k | 0 <= k < |subagents| && IsLastNamed(subagents, k, n)
      ensures AgentTools(subagents[k], tools).Ok?
              && Agents(tools, instructions, subagents).value.agents[n]
                 == Agent(subagents[k].prompt, AgentTools(subagents[k], tools).value)
    {
      AgentsLastEntry(tools, instructions, subagents, k);
    }
  }

  /** The registry's order lists its keys, each once, "general-purpose" first. */
  lemma {:induction false} AgentsShape(tools: seq<Tool>, instructions: string, subagents: seq<SubAgentSpec>)
    requires Agents(tools, instructions, subagents).Ok?
    ensures var r := Agents(tools, instructions, subagents).value;
            Distinct(r.order) && r.order != [] && r.order[0] == GeneralPurpose
            && forall n :: n in r.agents <==> n in r.order
    decreases |subagents|
  {
    if subagents != [] {
      var init := subagents[..|subagents| - 1];
      AgentsShape(tools, instructions, init);
    }
  }

  /** The registry's names are "general-purpose" and the entries' names. */
  lemma {:induction false} AgentsNames(tools: seq<Tool>, instructions: string, subagents: seq<SubAgentSpec>, n: string)
    requires Agents(tools, instructions, subagents).Ok?
    ensures n in Agents(tools, instructions, subagents).value.agents
            <==> n == GeneralPurpose || exists k :: 0 <= k < |subagents| && subagents[k].name == n
    decreases |subagents|
  {
    if subagents != [] {
      var init := subagents[..|subagents| - 1];
      AgentsNames(tools, instructions, init, n);
      if exists k :: 0 <= k < |subagents| && subagents[k].name == n {
        var k :| 0 <= k < |subagents| && subagents[k].name == n;
        if k < |init| {
          assert init[k].name == n;
        }
      }
      if exists k :: 0 <= k < |init| && init[k].name == n {
        var k :| 0 <= k < |init| && init[k].name == n;
        assert subagents[k].name == n;
      }
    }
  }

  /** Without an entry of that name, "general-purpose" is the agent over all tools. */
  lemma {:induction false} AgentsDefault(tools: seq<Tool>, instructions: string, subagents: seq<SubAgentSpec>)
    requires Agents(tools, instructions, subagents).Ok?
    requires forall k :: 0 <= k < |subagents| ==> subagents[k].name != GeneralPurpose
    ensures GeneralPurpose in Agents(tools, instructions, subagents).value.agents
            && Agents(tools, instructions, subagents).value.agents[GeneralPurpose] == Agent(instructions, tools)
    decreases |subagents|
  {
    AgentsNames(tools, instructions, subagents, GeneralPurpose);
    if subagents != [] {
      var init := subagents[..|subagents| - 1];
      assert forall k :: 0 <= k < |init| ==> init[k] == subagents[k];
      AgentsDefault(tools, instructions, init);
      AgentsShape(tools, instructions, init);
    }
  }

  /** A name holds the agent built from its last entry. */
  lemma {:induction false} AgentsLastEntry(tools: seq<Tool>, instructions: string, subagents: seq<SubAgentSpec>, k: nat)
    requires Agents(tools, instructions, subagents).Ok?
    requires k < |subagents| && IsLastNamed(subagents, k, subagents[k].name)
    ensures AgentTools(subagents[k], tools).Ok?
    ensures subagents[k].name in Agents(tools, instructions, subagents).value.agents
            && Agents(tools, instructions, subagents).value.agents[subagents[k].name]
               == Agent(subagents[k].prompt, AgentTools(subagents[k], tools).value)
    decreases |subagents|
  {
    AgentsNames(tools, instructions, subagents, subagents[k].name);
    var init := subagents[..|subagents| - 1];
    if k < |init| {
      assert init[k] == subagents[k];
      forall j | k < j < |init|
        ensures init[j].name != init[k].name
      {
        assert init[j] == subagents[j];
      }
      AgentsLastEntry(tools, instructions, init, k);
    }
  }

  /** Construction fails exactly when an entry names a tool that no tool has, and then with `KeyError`. */
  lemma {:induction false} AgentsFailure(tools: seq<Tool>, instructions: string, subagents: seq<SubAgentSpec>)
    ensures Agents(tools, instructions, subagents).Err?
            <==> exists k, t :: 0 <= k < |subagents| && subagents[k].tools.Some? && t in subagents[k].tools.value
                                && t !in ToolsByName(tools)
    ensures Agents(tools, instructions, subagents).Err? ==> Agents(tools, instructions, subagents).error.KeyError?
    decreases |subagents|
  {
    if Agents(tools, instructions, subagents).Err? {
      AgentsErrWitness(tools, instructions, subagents);
    }
    if exists k, t :: 0 <= k < |subagents| && subagents[k].tools.Some? && t in subagents[k].tools.value
                      && t !in ToolsByName(tools) {
      var k, t :| 0 <= k < |subagents| && subagents[k].tools.Some? && t in subagents[k].tools.value
                  && t !in ToolsByName(tools);
      AgentsWitnessErr(tools, instructions, subagents, k, t);
    }
  }

  /** A failed construction names an entry and an unknown tool, and raises `KeyError`. */
  lemma {:induction false} AgentsErrWitness(tools: seq<Tool>, instructions: string, subagents: seq<SubAgentSpec>)
    requires Agents(tools, instructions, subagents).Err?
    ensures exists k, t :: 0 <= k < |subagents| && subagents[k].tools.Some? && t in subagents[k].tools.value
                           && t !in ToolsByName(tools)
    ensures Agents(tools, instructions, subagents).error.KeyError?
    decreases |subagents|
  {
    var init := subagents[..|subagents| - 1];
    var spec := subagents[|subagents| - 1];
    if Agents(tools, instructions, init).Err? {
      AgentsErrWitness(tools, instructions, init);
      var k, t :| 0 <= k < |init| && init[k].tools.Some? && t in init[k].tools.value && t !in ToolsByName(tools);
      assert subagents[k] == init[k];
    } else {
      ResolveSpec(spec.tools.value, ToolsByName(tools));
      var i :| 0 <= i < |spec.tools.value| && spec.tools.value[i] !in ToolsByName(tools)
               && Resolve(spec.tools.value, ToolsByName(tools)).error == KeyError(spec.tools.value[i]);
      assert spec.tools.value[i] in spec.tools.value;
    }
  }

  /** An entry naming an unknown tool makes construction fail. */
  lemma {:induction false} AgentsWitnessErr(tools: seq<Tool>, instructions: string, subagents: seq<SubAgentSpec>,
                                            k: nat, t: string)
    requires k < |subagents| && subagents[k].tools.Some? && t in subagents[k].tools.value && t !in ToolsByName(tools)
    ensures Agents(tools, instructions, subagents).Err?
    decreases |subagents|
  {
    var init := subagents[..|subagents| - 1];
    var spec := subagents[|subagents| - 1];
    if k < |init| {
      assert init[k] == subagents[k];
      AgentsWitnessErr(tools, instructions, init, k, t);
    } else {
      ResolveSpec(spec.tools.value, ToolsByName(tools));
      var i :| 0 <= i < |spec.tools.value| && spec.tools.value[i] == t;
    }
  }

  /** An unknown agent type is answered with the list of allowed types and changes no state. */
  lemma TaskUnknownType(registry: Registry, description: string, subagentType: string, state: AgentState,
                        invoke: (Agent, AgentState) -> ChildResult, toolCallId: string)
    requires subagentType !in registry.agents
    ensures var r := Task(registry, description, subagentType, state, invoke, toolCallId);
            r.Ok? && r.value.Plain?
            && r.value.text == "Error: invoked agent of type " + subagentType + ", the only allowed types are "
                               + ListRepr(Backticked(registry.order))
  {
  }

  /**
   * A known agent runs on the caller's state with its messages replaced by exactly the `task`
   * description; the update sets `files` to the child's files (empty when it has none), appends
   * one tool message holding the child's last message, and leaves the todos alone.
   */
  lemma TaskDispatch(registry: Registry, description: string, subagentType: string, state: AgentState,
                     invoke: (Agent, AgentState) -> ChildResult, toolCallId: string)
    requires subagentType in registry.agents
    ensures var child := ChildState(state, description);
            var result := invoke(registry.agents[subagentType], child);
            var r := Task(registry, description, subagentType, state, invoke, toolCallId);
            child.messages == [UserMessage(description)] && child.todos == state.todos && child.files == state.files
            && (r.Err? <==> result.messages == [])
            && (r.Err? ==> r.error == IndexError)
            && (r.Ok? ==>
                  var after := Apply(state, r.value.update);
                  r.value.Command?
                  && after.files == (if result.files.Some? then result.files.value else map[])
                  && after.todos == state.todos
                  && after.messages == state.messages
                                       + [ToolMessage(result.messages[|result.messages| - 1].content, toolCallId)])
  {
  }
}
