/**
 * The values that flow through an agent's state: tool calls, messages, todos and the
 * state updates (`Command(update=...)`) that tools return.
 */
module Session {
  import opened Wrappers
  import opened Text

  /** A tool call's arguments; an absent key and an empty string are both falsy in the source. */
  type Args = map<string, string>

  /** `{"name": ..., "args": ..., "id": ...}` */
  datatype ToolCall = ToolCall(name: string, args: Args, id: string)

  datatype Message =
    | UserMessage(content: string)
    | AIMessage(content: string, toolCalls: seq<ToolCall>, additionalKwargs: map<string, string>)
    | ToolMessage(content: string, toolCallId: string)
    | SystemMessage(content: string)

  /** The state's todo entry `{"content": ..., "status": ...}`. */
  datatype Todo = Todo(content: string, status: string)

  /** The keys a tool's `Command(update=...)` sets; `messages` are appended by the state's reducer. */
  datatype Update = Update(todos: Option<seq<Todo>>, files: Option<map<string, string>>, messages: seq<Message>)

  /** A tool returns either plain text or a state update. */
  datatype ToolReply = Plain(text: string) | Command(update: Update)

  /** The state keys the updates touch. */
  datatype AgentState = AgentState(messages: seq<Message>, todos: seq<Todo>, files: map<string, string>)

  /** How the graph applies an update: `todos` and `files` are replaced, messages appended. */
  function Apply(s: AgentState, u: Update): AgentState {
    AgentState(
      s.messages + u.messages,
      if u.todos.Some? then u.todos.value else s.todos,
      if u.files.Some? then u.files.value else s.files)
  }

  /** `repr` of a string without quotes or backslashes in it. */
  function QuoteRepr(s: string): string {
    "'" + s + "'"
  }

  /** `repr` of the todo list. */
  function TodosRepr(todos: seq<Todo>): string {
    "[" + Join(seq(|todos|, k requires 0 <= k < |todos| =>
                     "{'content': " + QuoteRepr(todos[k].content) + ", 'status': " + QuoteRepr(todos[k].status) + "}"),
               ", ") + "]"
  }

  /** The `write_todos` tool of src/deepagents/tools.py: replace the todo list and acknowledge. */
  function WriteTodos(todos: seq<Todo>, toolCallId: string): (r: ToolReply)
    ensures r.Command? && r.update.todos == Some(todos) && r.update.files.None?
    ensures |r.update.messages| == 1 && r.update.messages[0].ToolMessage?
    ensures r.update.messages[0].toolCallId == toolCallId
  {
    Command(Update(Some(todos), None, [ToolMessage("Updated todo list to " + TodosRepr(todos), toolCallId)]))
  }

  /** After `write_todos`, the state's list is exactly the one given, and one message was added. */
  lemma WriteTodosApplied(s: AgentState, todos: seq<Todo>, toolCallId: string)
    ensures var t := Apply(s, WriteTodos(todos, toolCallId).update);
            t.todos == todos && t.files == s.files
            && |t.messages| == |s.messages| + 1 && t.messages[..|s.messages|] == s.messages
  {
  }
}
