/**
 * The agent builder of src/deepagents/graph.py: which built-in tools the agent gets, which
 * post-model hook runs, how the tool list and the prompt are assembled, and which flavour of
 * the `task` tool is used. Building the agent itself (`create_react_agent`) is recorded as the
 * prompt, tools and hook it is given.
 */
module Builder {
  import opened Wrappers
  import opened Collect
  import opened SubAgents
  import Interrupt

  /** The built-in tools, in their fixed order. */
  const AllBuiltinTools: seq<Tool> :=
    [Tool("write_todos"), Tool("write_file"), Tool("read_file"), Tool("ls"), Tool("edit_file")]

  /** The text appended to the caller's instructions. */
  const BasePrompt: string :=
    "You have access to a number of standard tools\n"
    + "\n"
    + "## `write_todos`\n"
    + "\n"
    + "You have access to the `write_todos` tools to help you manage and plan tasks. "
    + "Use these tools VERY frequently to ensure that you are tracking your tasks and giving the user visibility into your progress.\n"
    + "These tools are also EXTREMELY helpful for planning tasks, "
    + "and for breaking down larger complex tasks into smaller steps. "
    + "If you do not use this tool when planning, "
    + "you may forget to do important tasks - and that is unacceptable.\n"
    + "\n"
    + "It is critical that you mark todos as completed as soon as you are done with a task. "
    + "Do not batch up multiple tasks before marking them as completed.\n"
    + "## `task`\n"
    + "\n"
    + "- When doing web search, "
    + "prefer to use the `task` tool in order to reduce context usage."

  /** The hook the agent runs after each model turn. */
  datatype Hook = NoHook | CustomHook(hook: string) | InterruptHook(configs: map<string, Interrupt.InterruptConfig>)

  datatype Flavour = Sync | Async

  /** An entry of the agent's tool list. */
  datatype AgentTool =
    | PlainTool(tool: Tool)
    | TaskEntry(flavour: Flavour, tools: seq<Tool>, instructions: string, subagents: seq<SubAgentSpec>, hook: Hook)

  /** What `create_react_agent` receives. */
  datatype AgentSpec = AgentSpec(prompt: string, tools: seq<AgentTool>, hook: Hook)

  /** All built-ins when none are named, else the named ones in the given order (`KeyError` if unknown). */
  function SelectBuiltins(builtinTools: Option<seq<string>>): Result<seq<Tool>, Exception> {
    if builtinTools.None? then Ok(AllBuiltinTools) else Resolve(builtinTools.value, ToolsByName(AllBuiltinTools))
  }

  /** The selection as `_agent_builder` runs it: the `tools_by_name` loop, then the lookups. */
  method SelectBuiltinTools(builtinTools: Option<seq<string>>) returns (r: Result<seq<Tool>, Exception>)
    ensures r == SelectBuiltins(builtinTools)
  {
    if builtinTools.None? {
      return Ok(AllBuiltinTools);
    }
    var byName := IndexTools(AllBuiltinTools);
    r := Resolve(builtinTools.value, byName);
  }

  const BothHooksMessage: string :=
    "Cannot specify both post_model_hook and interrupt_config together. Use either interrupt_config for tool interrupts or post_model_hook for custom post-processing."

  /**
   * A custom hook (always truthy) and a non-empty interrupt config are exclusive; otherwise the
   * custom hook wins, then an interrupt config (even an empty one), else no hook.
   */
  function SelectHook(postModelHook: Option<string>, interruptConfig: Option<map<string, Interrupt.InterruptConfig>>)
    : Result<Hook, Exception>
  {
    if postModelHook.Some? && interruptConfig.Some? && interruptConfig.value != map[] then
      Err(ValueError(BothHooksMessage))
    else if postModelHook.Some? then Ok(CustomHook(postModelHook.value))
    else if interruptConfig.Some? then Ok(InterruptHook(interruptConfig.value))
    else Ok(NoHook)
  }

  function PlainTools(tools: seq<Tool>): (r: seq<AgentTool>)
    ensures |r| == |tools| && forall k :: 0 <= k < |tools| ==> r[k] == PlainTool(tools[k])
  {
    seq(|tools|, k requires 0 <= k < |tools| => PlainTool(tools[k]))
  }

  /** `_agent_builder`; `subagents` is `[]` when none are given. */
  function AgentBuilder(tools: seq<Tool>, instructions: string, subagents: seq<SubAgentSpec>,
                        builtinTools: Option<seq<string>>, postModelHook: Option<string>,
                        interruptConfig: Option<map<string, Interrupt.InterruptConfig>>, isAsync: bool)
    : Result<AgentSpec, Exception>
  {
    match SelectBuiltins(builtinTools)
    case Err(e) => Err(e)
    case Ok(builtIn) =>
      match SelectHook(postModelHook, interruptConfig)
      case Err(e) => Err(e)
      case Ok(hook) =>
        Ok(Assemble(instructions + BasePrompt, builtIn, tools, instructions, subagents, hook, isAsync))
  }

  /** The agent over a prompt: the built-ins, the caller's tools, then the `task` tool over both. */
  function Assemble(prompt: string, builtIn: seq<Tool>, tools: seq<Tool>, instructions: string,
                    subagents: seq<SubAgentSpec>, hook: Hook, isAsync: bool): AgentSpec
  {
    var task := TaskEntry(if isAsync then Async else Sync, tools + builtIn, instructions, subagents, hook);
    AgentSpec(prompt, PlainTools(builtIn) + PlainTools(tools) + [task], hook)
  }

  function CreateDeepAgent(tools: seq<Tool>, instructions: string, subagents: seq<SubAgentSpec>,
                           builtinTools: Option<seq<string>>, postModelHook: Option<string>,
                           interruptConfig: Option<map<string, Interrupt.InterruptConfig>>)
    : Result<AgentSpec, Exception>
  {
    AgentBuilder(tools, instructions, subagents, builtinTools, postModelHook, interruptConfig, false)
  }

  function AsyncCreateDeepAgent(tools: seq<Tool>, instructions: string, subagents: seq<SubAgentSpec>,
                                builtinTools: Option<seq<string>>, postModelHook: Option<string>,
                                interruptConfig: Option<map<string, Interrupt.InterruptConfig>>)
    : Result<AgentSpec, Exception>
  {
    AgentBuilder(tools, instructions, subagents, builtinTools, postModelHook, interruptConfig, true)
  }

  // ---------------------------------------------------------------------
  // Properties

  /** The built-ins have distinct names, so each one is found under its own name. */
  lemma BuiltinIndex(n: string)
    ensures n in ToolsByName(AllBuiltinTools) <==> Tool(n) in AllBuiltinTools
    ensures n in ToolsByName(AllBuiltinTools) ==> ToolsByName(AllBuiltinTools)[n] == Tool(n)
  {
    var t := AllBuiltinTools;
    ToolsByNameKeys(t, n);
    if n in ToolsByName(t) {
      var i :| 0 <= i < |t| && t[i].name == n;
      assert t[i] == Tool(n);
      ToolsByNameLast(t, i);
    }
  }

  /**
   * Without a list every built-in is used; with one, exactly the named built-ins in the given
   * order, and a name that is not a built-in raises `KeyError` for the first such name.
   */
  lemma SelectBuiltinsSpec(builtinTools: Option<seq<string>>)
    ensures builtinTools.None? ==> SelectBuiltins(builtinTools) == Ok(AllBuiltinTools)
    ensures builtinTools.Some? ==>
              (SelectBuiltins(builtinTools).Ok?
               <==> forall k :: 0 <= k < |builtinTools.value| ==> Tool(builtinTools.value[k]) in AllBuiltinTools)
    ensures builtinTools.Some? && SelectBuiltins(builtinTools).Ok? ==>
              SelectBuiltins(builtinTools).value
              == seq(|builtinTools.value|, k requires 0 <= k < |builtinTools.value| => Tool(builtinTools.value[k]))
    ensures SelectBuiltins(builtinTools).Err? ==>
              exists k :: 0 <= k < |builtinTools.value| && Tool(builtinTools.value[k]) !in AllBuiltinTools
                          && SelectBuiltins(builtinTools).error == KeyError(builtinTools.value[k])
  {
    if builtinTools.Some? {
      var names := builtinTools.value;
      var byName := ToolsByName(AllBuiltinTools);
      forall n
        ensures (n in byName <==> Tool(n) in AllBuiltinTools) && (n in byName ==> byName[n] == Tool(n))
      {
        BuiltinIndex(n);
      }
      ResolveSpec(names, byName);
    }
  }

  /** Both hooks at once raise `ValueError`; otherwise the custom hook, then the interrupt hook, then none. */
  lemma SelectHookSpec(postModelHook: Option<string>, interruptConfig: Option<map<string, Interrupt.InterruptConfig>>)
    ensures SelectHook(postModelHook, interruptConfig).Err?
            <==> postModelHook.Some? && interruptConfig.Some? && interruptConfig.value != map[]
    ensures SelectHook(postModelHook, interruptConfig).Ok? ==>
              var hook := SelectHook(postModelHook, interruptConfig).value;
              (hook.CustomHook? <==> postModelHook.Some?)
              && (hook.InterruptHook? <==> postModelHook.None? && interruptConfig.Some?)
              && (hook.NoHook? <==> postModelHook.None? && interruptConfig.None?)
  {
  }

  /**
   * A built agent is the assembly, over the instructions followed by the base prompt, of the
   * selected built-ins, the caller's tools and the selected hook; the sync builder uses the sync
   * task tool and the async builder the async one.
   */
  lemma AgentLayout(tools: seq<Tool>, instructions: string, subagents: seq<SubAgentSpec>,
                    builtinTools: Option<seq<string>>, postModelHook: Option<string>,
                    interruptConfig: Option<map<string, Interrupt.InterruptConfig>>, isAsync: bool)
    requires AgentBuilder(tools, instructions, subagents, builtinTools, postModelHook, interruptConfig, isAsync).Ok?
    ensures SelectBuiltins(builtinTools).Ok? && SelectHook(postModelHook, interruptConfig).Ok?
    ensures AgentBuilder(tools, instructions, subagents, builtinTools, postModelHook, interruptConfig, isAsync).value
            == Assemble(instructions + BasePrompt, SelectBuiltins(builtinTools).value, tools, instructions, subagents,
                        SelectHook(postModelHook, interruptConfig).value, isAsync)
  {
  }

  /**
   * An agent's tools are the built-ins, then the caller's tools, then one `task` tool built over
   * the caller's tools and the built-ins with the same hook as the agent.
   */
  lemma AssembleLayout(prompt: string, builtIn: seq<Tool>, tools: seq<Tool>, instructions: string,
                       subagents: seq<SubAgentSpec>, hook: Hook, isAsync: bool)
    ensures var a := Assemble(prompt, builtIn, tools, instructions, subagents, hook, isAsync);
            |a.tools| == |builtIn| + |tools| + 1
            && (forall k :: 0 <= k < |builtIn| ==> a.tools[k] == PlainTool(builtIn[k]))
            && (forall k :: 0 <= k < |tools| ==> a.tools[|builtIn| + k] == PlainTool(tools[k]))
            && a.tools[|a.tools| - 1].TaskEntry?
            && a.tools[|a.tools| - 1].tools == tools + builtIn
            && a.tools[|a.tools| - 1].hook == a.hook == hook
            && (a.tools[|a.tools| - 1].flavour == Async <==> isAsync)
            && a.prompt == prompt
  {
    var a := Assemble(prompt, builtIn, tools, instructions, subagents, hook, isAsync);
    forall k | 0 <= k < |tools|
      ensures a.tools[|builtIn| + k] == PlainTool(tools[k])
    {
      assert a.tools[|builtIn| + k] == (PlainTools(builtIn) + PlainTools(tools))[|builtIn| + k];
    }
  }

  /** The agent's prompt starts with the caller's instructions and ends with the base prompt. */
  lemma PromptLayout(tools: seq<Tool>, instructions: string, subagents: seq<SubAgentSpec>,
                     builtinTools: Option<seq<string>>, postModelHook: Option<string>,
                     interruptConfig: Option<map<string, Interrupt.InterruptConfig>>, isAsync: bool)
    requires AgentBuilder(tools, instructions, subagents, builtinTools, postModelHook, interruptConfig, isAsync).Ok?
    ensures var p := AgentBuilder(tools, instructions, subagents, builtinTools, postModelHook, interruptConfig, isAsync).value.prompt;
            |p| >= |instructions| && p[..|instructions|] == instructions && p[|instructions|..] == BasePrompt
  {
    var p := AgentBuilder(tools, instructions, subagents, builtinTools, postModelHook, interruptConfig, isAsync).value.prompt;
    var base := BasePrompt;
    assert p == instructions + base;
  }

  /** `create_deep_agent` builds the sync task tool and `async_create_deep_agent` the async one. */
  lemma FlavourOfEntryPoints(tools: seq<Tool>, instructions: string, subagents: seq<SubAgentSpec>,
                             builtinTools: Option<seq<string>>, postModelHook: Option<string>,
                             interruptConfig: Option<map<string, Interrupt.InterruptConfig>>)
    ensures var s := CreateDeepAgent(tools, instructions, subagents, builtinTools, postModelHook, interruptConfig);
            s.Ok? ==> s.value.tools[|s.value.tools| - 1].flavour == Sync
    ensures var s := AsyncCreateDeepAgent(tools, instructions, subagents, builtinTools, postModelHook, interruptConfig);
            s.Ok? ==> s.value.tools[|s.value.tools| - 1].flavour == Async
  {
  }
}
