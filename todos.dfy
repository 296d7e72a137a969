/**
 * The local todo tools of examples/code/local_tools.py: the `Todo` record and its dict form,
 * `load_todos` and `save_todos` over the single file `todos.json`, and the `write_todos` and
 * `get_todos` tools. The file is a parameter holding a decoded JSON value (or nothing, or text
 * that does not decode); the JSON text layout is not modelled.
 */
module LocalTodos {
  import opened Wrappers
  import opened Text
  import Session

  /** A decoded JSON value. */
  datatype Json =
    | JNull
    | JBool(b: bool)
    | JNumber(n: int)
    | JString(s: string)
    | JArray(items: seq<Json>)
    | JObject(fields: map<string, Json>)

  /** `Todo(content, status)`: the constructor stores whatever values it is given. */
  datatype Todo = Todo(content: Json, status: Json)

  /** What is at `TODO_FILE`: nothing, text `json.load` rejects, or a decoded value. */
  datatype FileState = Absent | Garbled | Holds(data: Json)

  /** What a tool's `Command(update=...)` carries here: the state's todo list and the messages. */
  datatype TodoUpdate = TodoUpdate(todos: seq<Json>, messages: seq<Session.Message>)

  const TodoFile: string := "todos.json"

  // ---------------------------------------------------------------------
  // Todo.to_dict / Todo.from_dict

  function ToDict(t: Todo): Json {
    JObject(map["content" := t.content, "status" := t.status])
  }

  /** A dict with both keys. */
  predicate Complete(data: Json) {
    data.JObject? && "content" in data.fields && "status" in data.fields
  }

  /**
   * `Todo.from_dict(data)`: `data["content"]` then `data["status"]`; a missing key raises
   * `KeyError`, and subscripting anything but a dict with a string raises `TypeError`.
   */
  function FromDict(data: Json): (r: Result<Todo, Exception>)
    ensures r.Ok? <==> Complete(data)
    ensures r.Ok? ==> r.value.content == data.fields["content"] && r.value.status == data.fields["status"]
    ensures r.Err? && data.JObject? ==> r.error == KeyError(if "content" !in data.fields then "content" else "status")
    ensures r.Err? && !data.JObject? ==> r.error == TypeError
  {
    if !data.JObject? then Err(TypeError)
    else if "content" !in data.fields then Err(KeyError("content"))
    else if "status" !in data.fields then Err(KeyError("status"))
    else Ok(Todo(data.fields["content"], data.fields["status"]))
  }

  /** `Todo.from_dict(t.to_dict())` gives back the same content and status. */
  lemma FromDictToDict(t: Todo)
    ensures FromDict(ToDict(t)) == Ok(t)
  {
  }

  // ---------------------------------------------------------------------
  // load_todos / save_todos

  /** `[todo.to_dict() for todo in todos]`, the value `save_todos` dumps. */
  function Encode(todos: seq<Todo>): Json {
    JArray(seq(|todos|, k requires 0 <= k < |todos| => ToDict(todos[k])))
  }

  /** `save_todos(todos)`: the file afterwards holds the encoded list. */
  function Save(todos: seq<Todo>): FileState {
    Holds(Encode(todos))
  }

  /** `[Todo.from_dict(d) for d in items]`: the first element that fails decides the exception. */
  function FromDicts(items: seq<Json>): Result<seq<Todo>, Exception>
    decreases |items|
  {
    if items == [] then Ok([])
    else
      match FromDict(items[0])
      case Err(e) => Err(e)
      case Ok(t) =>
        match FromDicts(items[1..])
        case Err(e) => Err(e)
        case Ok(ts) => Ok([t] + ts)
  }

  /**
   * Iterating the decoded value: a list gives its elements; a dict its keys and a string its
   * characters, each of which `from_dict` rejects with `TypeError`; other values are not iterable.
   */
  function DecodeTodos(data: Json): Result<seq<Todo>, Exception> {
    match data
    case JArray(items) => FromDicts(items)
    case JObject(fields) => if |fields| == 0 then Ok([]) else Err(TypeError)
    case JString(s) => if s == [] then Ok([]) else Err(TypeError)
    case _ => Err(TypeError)
  }

  /**
   * `load_todos()`: `[]` for a missing file, for text that does not decode and for a `KeyError`;
   * a `TypeError` escapes.
   */
  function Load(file: FileState): (r: Result<seq<Todo>, Exception>)
    ensures file.Absent? || file.Garbled? ==> r == Ok([])
    ensures r.Err? ==> r.error == TypeError
  {
    match file
    case Absent => Ok([])
    case Garbled => Ok([])
    case Holds(data) =>
      match DecodeTodos(data)
      case Err(KeyError(_)) => Ok([])
      case Err(TypeError) => Err(TypeError)
      case Err(_) => Err(TypeError)
      case Ok(todos) => Ok(todos)
  }

  /**
   * The list decodes exactly when every element is a dict with both keys, into those elements'
   * todos in order; otherwise the first element that is not decides the exception.
   */
  lemma {:induction false} FromDictsSpec(items: seq<Json>)
    ensures FromDicts(items).Ok? <==> forall k :: 0 <= k < |items| ==> Complete(items[k])
    ensures FromDicts(items).Ok? ==>
              |FromDicts(items).value| == |items|
              && forall k :: 0 <= k < |items| ==> Ok(FromDicts(items).value[k]) == FromDict(items[k])
    ensures FromDicts(items).Err? ==>
              exists k :: 0 <= k < |items| && !Complete(items[k])
                          && (forall m :: 0 <= m < k ==> Complete(items[m]))
                          && Err(FromDicts(items).error) == FromDict(items[k])
    decreases |items|
  {
    if items != [] {
      FromDictsSpec(items[1..]);
      var rest := items[1..];
      if FromDict(items[0]).Ok? && FromDicts(rest).Err? {
        var j :| 0 <= j < |rest| && !Complete(rest[j]) && (forall m :: 0 <= m < j ==> Complete(rest[m]))
                 && Err(FromDicts(rest).error) == FromDict(rest[j]);
        assert items[j + 1] == rest[j];
        forall m | 0 <= m < j + 1
          ensures Complete(items[m])
        {
          if m > 0 {
            assert items[m] == rest[m - 1];
          }
        }
      }
      if FromDicts(items).Ok? {
        forall k | 0 <= k < |items|
          ensures Ok(FromDicts(items).value[k]) == FromDict(items[k])
        {
          if k > 0 {
            assert items[k] == rest[k - 1];
          }
        }
      }
      if forall k :: 0 <= k < |rest| ==> Complete(rest[k]) {
        if Complete(items[0]) {
          assert FromDicts(items).Ok?;
        }
      } else {
        var j :| 0 <= j < |rest| && !Complete(rest[j]);
        assert items[j + 1] == rest[j];
      }
    }
  }

  /** What `save_todos` wrote, `load_todos` reads back unchanged. */
  lemma SaveThenLoad(todos: seq<Todo>)
    ensures Load(Save(todos)) == Ok(todos)
  {
    var items := Encode(todos).items;
    forall k | 0 <= k < |items|
      ensures Complete(items[k])
    {
    }
    FromDictsSpec(items);
    var loaded := FromDicts(items).value;
    assert |loaded| == |todos|;
    forall k | 0 <= k < |todos|
      ensures loaded[k] == todos[k]
    {
      assert Ok(loaded[k]) == FromDict(ToDict(todos[k]));
    }
    assert loaded == todos;
    assert DecodeTodos(Encode(todos)) == Ok(todos);
  }

  /** A list with an incomplete dict, every element before it complete, loads as `[]`. */
  lemma MissingKeyLoadsEmpty(items: seq<Json>, k: nat)
    requires k < |items| && items[k].JObject? && !Complete(items[k])
    requires forall m :: 0 <= m < k ==> Complete(items[m])
    ensures Load(Holds(JArray(items))) == Ok([])
  {
    FromDictsSpec(items);
    if FromDicts(items).Err? {
      var j :| 0 <= j < |items| && !Complete(items[j]) && (forall m :: 0 <= m < j ==> Complete(items[m]))
               && Err(FromDicts(items).error) == FromDict(items[j]);
      assert !(j < k);
      assert !(k < j);
    }
  }

  // ---------------------------------------------------------------------
  // write_todos / get_todos

  /** The entries `write_todos` turns into todos: dicts with both keys. */
  function Kept(entries: seq<Json>): seq<Todo>
    decreases |entries|
  {
    if entries == [] then []
    else
      var last := entries[|entries| - 1];
      Kept(entries[..|entries| - 1]) + (if Complete(last) then [Todo(last.fields["content"], last.fields["status"])] else [])
  }

  function WriteMessage(count: nat, toolCallId: string): Session.Message {
    Session.ToolMessage("Updated todo list with " + NatToString(count) + " items and saved to " + TodoFile, toolCallId)
  }

  /**
   * `write_todos(todos, tool_call_id)`: keep the entries that are dicts with both keys, save them,
   * and put the raw list, not the kept one, in the state; the message counts the raw list.
   */
  method WriteTodos(todos: seq<Json>, toolCallId: string) returns (file: FileState, update: TodoUpdate)
    ensures file == Save(Kept(todos))
    ensures update == TodoUpdate(todos, [WriteMessage(|todos|, toolCallId)])
  {
    var objects: seq<Todo> := [];
    for i := 0 to |todos|
      invariant objects == Kept(todos[..i])
    {
      assert todos[..i + 1][..i] == todos[..i];
      var entry := todos[i];
      if entry.JObject? && "content" in entry.fields && "status" in entry.fields {
        objects := objects + [Todo(entry.fields["content"], entry.fields["status"])];
      }
    }
    assert todos[..|todos|] == todos;
    file := Save(objects);
    update := TodoUpdate(todos, [WriteMessage(|todos|, toolCallId)]);
  }

  /** `get_todos(tool_call_id)`: the loaded todos as dicts, and their count in the message. */
  function GetTodos(file: FileState, toolCallId: string): (r: Result<TodoUpdate, Exception>)
    ensures r.Err? <==> Load(file).Err?
    ensures r.Ok? ==> |r.value.todos| == |Load(file).value|
                      && forall k :: 0 <= k < |r.value.todos| ==> FromDict(r.value.todos[k]) == Ok(Load(file).value[k])
  {
    match Load(file)
    case Err(e) => Err(e)
    case Ok(todos) =>
      var dicts := Encode(todos).items;
      Ok(TodoUpdate(dicts, [Session.ToolMessage("Loaded " + NatToString(|dicts|) + " todos from " + TodoFile, toolCallId)]))
  }

  /** Keeping distributes over concatenation: the kept todos are in the entries' order. */
  lemma {:induction false} KeptAppend(a: seq<Json>, b: seq<Json>)
    ensures Kept(a + b) == Kept(a) + Kept(b)
    decreases |b|
  {
    if b == [] {
      assert a + b == a;
    } else {
      var front := b[..|b| - 1];
      KeptAppend(a, front);
      assert (a + b)[..|a + b| - 1] == a + front;
    }
  }

  /** One entry is kept exactly when it is a dict with both keys, as the todo of those values. */
  lemma KeptOne(entry: Json)
    ensures Kept([entry]) == if Complete(entry) then [Todo(entry.fields["content"], entry.fields["status"])] else []
  {
    assert [entry][..0] == [];
  }

  /** At most every entry is kept, and every one is exactly when all are dicts with both keys. */
  lemma {:induction false} KeptLength(entries: seq<Json>)
    ensures |Kept(entries)| <= |entries|
    ensures |Kept(entries)| == |entries| <==> forall k :: 0 <= k < |entries| ==> Complete(entries[k])
    decreases |entries|
  {
    if entries != [] {
      var front := entries[..|entries| - 1];
      KeptLength(front);
      if forall k :: 0 <= k < |entries| ==> Complete(entries[k]) {
        forall k | 0 <= k < |front|
          ensures Complete(front[k])
        {
          assert front[k] == entries[k];
        }
      } else if forall k :: 0 <= k < |front| ==> Complete(front[k]) {
        var j :| 0 <= j < |entries| && !Complete(entries[j]);
        if j < |front| {
          assert front[j] == entries[j];
        }
      }
    }
  }

  /**
   * After `write_todos`, `get_todos` reports the kept todos; its count falls short of the count
   * `write_todos` reported exactly when some entry was dropped.
   */
  lemma WriteThenGet(todos: seq<Json>, writeId: string, getId: string)
    ensures var r := GetTodos(Save(Kept(todos)), getId);
            r.Ok? && |r.value.todos| == |Kept(todos)|
            && (|r.value.todos| < |todos| <==> exists k :: 0 <= k < |todos| && !Complete(todos[k]))
  {
    SaveThenLoad(Kept(todos));
    KeptLength(todos);
  }
}
