/**
 * The interrupt hook of src/deepagents/interrupt.py: after a model turn, the tool calls whose
 * tool is configured for approval are sent to a human in one `interrupt`, and the answers decide
 * which of them run, possibly with edited arguments; the other calls run as they are.
 *
 * `interrupt` itself is foreign: the hook is given the responses it returns. The `repr` of an
 * argument dict is a parameter.
 */
module Interrupt {
  import opened Wrappers
  import opened Collect
  import opened Session

  /** `HumanInterruptConfig`: what the human may do with a request. */
  datatype InterruptConfig = InterruptConfig(allowIgnore: bool, allowRespond: bool, allowEdit: bool, allowAccept: bool)

  /** `HumanInterrupt`: the action (tool name and arguments), its config and a description. */
  datatype HumanInterrupt = HumanInterrupt(action: string, args: Args, config: InterruptConfig, description: string)

  /** `HumanResponse`, by its `type`: accept, edit (with the edited action's arguments), or anything else. */
  datatype Response = Accept | Edit(args: Args) | OtherResponse(kind: string)

  /** Calls whose tool has an interrupt config. */
  function IsGated(configs: map<string, InterruptConfig>): ToolCall -> bool {
    (c: ToolCall) => c.name in configs
  }

  function IsAuto(configs: map<string, InterruptConfig>): ToolCall -> bool {
    (c: ToolCall) => c.name !in configs
  }

  function Description(prefix: string, name: string, argsText: string): string {
    prefix + "\n\nTool: " + name + "\nArgs: " + argsText
  }

  /** The request built for each gated call, in order. */
  function Requests(configs: map<string, InterruptConfig>, prefix: string, argsRepr: Args -> string,
                    gated: seq<ToolCall>): (rs: seq<HumanInterrupt>)
    requires forall k :: 0 <= k < |gated| ==> gated[k].name in configs
  {
    seq(|gated|, k requires 0 <= k < |gated| =>
          HumanInterrupt(gated[k].name, gated[k].args, configs[gated[k].name],
                         Description(prefix, gated[k].name, argsRepr(gated[k].args))))
  }

  /**
   * The response loop: the i-th response decides the i-th gated call. A response beyond the
   * gated calls is an `IndexError`; a type other than accept or edit is a `ValueError`.
   */
  function Decide(gated: seq<ToolCall>, responses: seq<Response>): Result<seq<ToolCall>, Exception>
    decreases |responses|
  {
    if responses == [] then Ok([])
    else if gated == [] then Err(IndexError)
    else
      match responses[0]
      case OtherResponse(kind) => Err(ValueError("Unknown response type: " + kind))
      case Accept => Prepend([gated[0]], Decide(gated[1..], responses[1..]))
      case Edit(args) => Prepend([ToolCall(gated[0].name, args, gated[0].id)], Decide(gated[1..], responses[1..]))
  }

  function Prepend(xs: seq<ToolCall>, r: Result<seq<ToolCall>, Exception>): Result<seq<ToolCall>, Exception> {
    if r.Ok? then Ok(xs + r.value) else r
  }

  /** What the hook returns: no update, or the requests it raised and the outcome. */
  datatype HookRun = NoUpdate | Asked(requests: seq<HumanInterrupt>, result: Result<Message, Exception>)

  /** `interrupt_hook`; `responses` is what `interrupt(requests)` returns. */
  function RunHook(configs: map<string, InterruptConfig>, prefix: string, argsRepr: Args -> string,
                   messages: seq<Message>, responses: seq<Response>): HookRun
  {
    if messages == [] then NoUpdate
    else
      var last := messages[|messages| - 1];
      if !last.AIMessage? || last.toolCalls == [] then NoUpdate
      else
        var gated := Filter(last.toolCalls, IsGated(configs));
        if gated == [] then NoUpdate
        else
          var auto := Filter(last.toolCalls, IsAuto(configs));
          Asked(Requests(configs, prefix, argsRepr, gated),
                match Decide(gated, responses)
                case Err(e) => Err(e)
                case Ok(decided) => Ok(AIMessage(last.content, auto + decided, last.additionalKwargs)))
  }

  // ---------------------------------------------------------------------
  // Properties

  /** The hook leaves the state alone exactly when there is no tool call that needs approval. */
  lemma NoUpdateIff(configs: map<string, InterruptConfig>, prefix: string, argsRepr: Args -> string,
                    messages: seq<Message>, responses: seq<Response>)
    ensures RunHook(configs, prefix, argsRepr, messages, responses).NoUpdate?
            <==> messages == [] || !messages[|messages| - 1].AIMessage?
                 || forall c :: c in messages[|messages| - 1].toolCalls ==> c.name !in configs
  {
    if messages != [] && messages[|messages| - 1].AIMessage? {
      var calls := messages[|messages| - 1].toolCalls;
      forall c | c in calls
        ensures c in Filter(calls, IsGated(configs)) <==> c.name in configs
      {
        FilterMember(calls, IsGated(configs), c);
      }
      if Filter(calls, IsGated(configs)) != [] {
        assert Filter(calls, IsGated(configs))[0] in Filter(calls, IsGated(configs));
      }
    }
  }

  /** The two lists split the calls: together they hold each call as often as the message does. */
  lemma {:induction false} PartitionSplits(calls: seq<ToolCall>, configs: map<string, InterruptConfig>)
    ensures multiset(Filter(calls, IsAuto(configs))) + multiset(Filter(calls, IsGated(configs))) == multiset(calls)
    decreases |calls|
  {
    if calls != [] {
      var x, rest := calls[0], calls[1..];
      PartitionSplits(rest, configs);
      assert calls == [x] + rest;
      if x.name in configs {
        assert Filter(calls, IsGated(configs)) == [x] + Filter(rest, IsGated(configs));
        assert Filter(calls, IsAuto(configs)) == Filter(rest, IsAuto(configs));
      } else {
        assert Filter(calls, IsGated(configs)) == Filter(rest, IsGated(configs));
        assert Filter(calls, IsAuto(configs)) == [x] + Filter(rest, IsAuto(configs));
      }
    }
  }

  /** One request per gated call, in order, for that call's tool and arguments and with its tool's config. */
  lemma RequestsMatchCalls(configs: map<string, InterruptConfig>, prefix: string, argsRepr: Args -> string,
                           messages: seq<Message>, responses: seq<Response>)
    requires RunHook(configs, prefix, argsRepr, messages, responses).Asked?
    ensures var rs := RunHook(configs, prefix, argsRepr, messages, responses).requests;
            var gated := Filter(messages[|messages| - 1].toolCalls, IsGated(configs));
            |rs| == |gated| && |rs| > 0
            && forall k :: 0 <= k < |rs| ==>
                 rs[k].action == gated[k].name && rs[k].args == gated[k].args
                 && rs[k].config == configs[gated[k].name]
                 && rs[k].description == Description(prefix, gated[k].name, argsRepr(gated[k].args))
  {
  }

  /** Response `k` cannot be applied: there is no `k`-th gated call, or its type is neither accept nor edit. */
  predicate Unusable(gated: seq<ToolCall>, responses: seq<Response>, k: nat)
    requires k < |responses|
  {
    k >= |gated| || responses[k].OtherResponse?
  }

  /** The error the first unusable response raises: `IndexError` past the gated calls, else `ValueError`. */
  function ResponseError(gated: seq<ToolCall>, responses: seq<Response>, k: nat): Exception
    requires k < |responses| && Unusable(gated, responses, k)
  {
    if k >= |gated| then IndexError else ValueError("Unknown response type: " + responses[k].kind)
  }

  /**
   * The responses succeed exactly when there are no more of them than gated calls and each is an
   * accept or an edit; then the k-th decided call is the k-th gated call, unchanged on accept and
   * with the edited arguments (same name and id) on edit. Otherwise the first unusable response
   * decides the error: the lookup of its gated call fails first, then its type is checked.
   */
  lemma {:induction false} DecideSpec(gated: seq<ToolCall>, responses: seq<Response>)
    ensures Decide(gated, responses).Ok?
            <==> |responses| <= |gated| && forall k :: 0 <= k < |responses| ==> !responses[k].OtherResponse?
    ensures Decide(gated, responses).Ok? ==>
              var d := Decide(gated, responses).value;
              |d| == |responses|
              && forall k :: 0 <= k < |d| ==>
                   d[k].name == gated[k].name && d[k].id == gated[k].id
                   && d[k].args == (if responses[k].Edit? then responses[k].args else gated[k].args)
    ensures forall k :: 0 <= k < |responses| && Unusable(gated, responses, k)
                        && (forall i :: 0 <= i < k ==> !Unusable(gated, responses, i))
                        ==> Decide(gated, responses) == Err(ResponseError(gated, responses, k))
    decreases |responses|
  {
    if responses != [] && gated != [] && !responses[0].OtherResponse? {
      DecideSpec(gated[1..], responses[1..]);
      var r := Decide(gated[1..], responses[1..]);
      forall k | 0 <= k < |responses| && Unusable(gated, responses, k)
                 && (forall i :: 0 <= i < k ==> !Unusable(gated, responses, i))
        ensures Decide(gated, responses) == Err(ResponseError(gated, responses, k))
      {
        assert !Unusable(gated, responses, 0);
        assert Unusable(gated[1..], responses[1..], k - 1);
        forall i | 0 <= i < k - 1
          ensures !Unusable(gated[1..], responses[1..], i)
        {
          assert !Unusable(gated, responses, i + 1);
        }
        assert ResponseError(gated[1..], responses[1..], k - 1) == ResponseError(gated, responses, k);
      }
      if r.Ok? {
        var d := Decide(gated, responses).value;
        forall k | 0 <= k < |d|
          ensures d[k].name == gated[k].name && d[k].id == gated[k].id
                  && d[k].args == (if responses[k].Edit? then responses[k].args else gated[k].args)
        {
          if k > 0 {
            assert d[k] == r.value[k - 1];
          }
        }
      } else if |responses[1..]| <= |gated[1..]| {
        var k :| 0 <= k < |responses[1..]| && responses[1..][k].OtherResponse?;
        assert responses[k + 1].OtherResponse?;
      }
    } else if responses != [] {
      assert Unusable(gated, responses, 0);
      forall k | 0 <= k < |responses| && Unusable(gated, responses, k)
                 && (forall i :: 0 <= i < k ==> !Unusable(gated, responses, i))
        ensures k == 0
      {
      }
    }
  }

  /**
   * From position `base` on, `out` holds the decided gated calls: the k-th is the k-th gated
   * call, with the edited arguments when the k-th response is an edit.
   */
  predicate DecidedFrom(out: seq<ToolCall>, base: nat, gated: seq<ToolCall>, responses: seq<Response>) {
    |responses| <= |gated| && |out| == base + |responses|
    && forall k :: 0 <= k < |responses| ==>
         out[base + k].name == gated[k].name && out[base + k].id == gated[k].id
         && out[base + k].args == (if responses[k].Edit? then responses[k].args else gated[k].args)
  }

  /**
   * On success the new calls are the auto-approved calls in their original order, followed by
   * the decided gated calls in order.
   */
  lemma {:induction false} HookOrder(calls: seq<ToolCall>, configs: map<string, InterruptConfig>, responses: seq<Response>)
    requires Decide(Filter(calls, IsGated(configs)), responses).Ok?
    ensures var auto := Filter(calls, IsAuto(configs));
            var out := auto + Decide(Filter(calls, IsGated(configs)), responses).value;
            out[..|auto|] == auto && IsSubsequence(auto, calls)
            && DecidedFrom(out, |auto|, Filter(calls, IsGated(configs)), responses)
  {
    var auto := Filter(calls, IsAuto(configs));
    var gated := Filter(calls, IsGated(configs));
    DecideSpec(gated, responses);
    FilterIsSubsequence(calls, IsAuto(configs));
    var d := Decide(gated, responses).value;
    var out := auto + d;
    assert out[..|auto|] == auto;
    forall k | 0 <= k < |responses|
      ensures out[|auto| + k] == d[k]
    {
    }
    assert DecidedFrom(out, |auto|, gated, responses);
  }

  /**
   * A successful run keeps the last message's content and extra fields and gives it the
   * auto-approved calls followed by the decided ones (ordered as `HookOrder` states).
   */
  lemma HookMessage(configs: map<string, InterruptConfig>, prefix: string, argsRepr: Args -> string,
                    messages: seq<Message>, responses: seq<Response>)
    requires RunHook(configs, prefix, argsRepr, messages, responses).Asked?
    requires RunHook(configs, prefix, argsRepr, messages, responses).result.Ok?
    ensures var last := messages[|messages| - 1];
            var gated := Filter(last.toolCalls, IsGated(configs));
            Decide(gated, responses).Ok?
            && RunHook(configs, prefix, argsRepr, messages, responses).result.value
               == AIMessage(last.content, Filter(last.toolCalls, IsAuto(configs)) + Decide(gated, responses).value,
                            last.additionalKwargs)
  {
  }

  /**
   * The hook fails exactly when there are more responses than gated calls or one has another
   * type; the first unusable response decides the exception: `IndexError` when it has no gated
   * call, else `ValueError("Unknown response type: …")`.
   */
  lemma HookErrors(configs: map<string, InterruptConfig>, prefix: string, argsRepr: Args -> string,
                   messages: seq<Message>, responses: seq<Response>)
    requires RunHook(configs, prefix, argsRepr, messages, responses).Asked?
    ensures var gated := Filter(messages[|messages| - 1].toolCalls, IsGated(configs));
            RunHook(configs, prefix, argsRepr, messages, responses).result.Err?
            <==> |responses| > |gated| || exists k :: 0 <= k < |responses| && responses[k].OtherResponse?
    ensures var gated := Filter(messages[|messages| - 1].toolCalls, IsGated(configs));
            forall k :: 0 <= k < |responses| && Unusable(gated, responses, k)
                        && (forall i :: 0 <= i < k ==> !Unusable(gated, responses, i))
                        ==> RunHook(configs, prefix, argsRepr, messages, responses).result
                            == Err(ResponseError(gated, responses, k))
  {
    var gated := Filter(messages[|messages| - 1].toolCalls, IsGated(configs));
    DecideSpec(gated, responses);
  }

  // ---------------------------------------------------------------------
  // The hook's loops

  /** The partition loop. */
  method Partition(calls: seq<ToolCall>, configs: map<string, InterruptConfig>)
    returns (gated: seq<ToolCall>, auto: seq<ToolCall>)
    ensures gated == Filter(calls, IsGated(configs)) && auto == Filter(calls, IsAuto(configs))
  {
    gated, auto := [], [];
    var i := 0;
    while i < |calls|
      invariant i <= |calls|
      invariant gated + Filter(calls[i..], IsGated(configs)) == Filter(calls, IsGated(configs))
      invariant auto + Filter(calls[i..], IsAuto(configs)) == Filter(calls, IsAuto(configs))
      decreases |calls| - i
    {
      gated, auto := PartitionStep(gated, auto, calls[i..], configs);
      assert calls[i..][1..] == calls[i + 1..];
      i := i + 1;
    }
    assert gated + [] == gated;
    assert auto + [] == auto;
  }

  /** One iteration of the partition loop: the next call joins the gated or the auto-approved list. */
  method PartitionStep(gated: seq<ToolCall>, auto: seq<ToolCall>, rest: seq<ToolCall>,
                       configs: map<string, InterruptConfig>)
    returns (gated': seq<ToolCall>, auto': seq<ToolCall>)
    requires rest != []
    ensures gated' + Filter(rest[1..], IsGated(configs)) == gated + Filter(rest, IsGated(configs))
    ensures auto' + Filter(rest[1..], IsAuto(configs)) == auto + Filter(rest, IsAuto(configs))
  {
    var call := rest[0];
    if call.name in configs {
      gated', auto' := gated + [call], auto;
      assert Filter(rest, IsGated(configs)) == [call] + Filter(rest[1..], IsGated(configs));
      assert Filter(rest, IsAuto(configs)) == Filter(rest[1..], IsAuto(configs));
    } else {
      gated', auto' := gated, auto + [call];
      assert Filter(rest, IsGated(configs)) == Filter(rest[1..], IsGated(configs));
      assert Filter(rest, IsAuto(configs)) == [call] + Filter(rest[1..], IsAuto(configs));
    }
  }

  /** The response loop; it appends to a copy of the auto-approved calls. */
  method ApplyResponses(auto: seq<ToolCall>, gated: seq<ToolCall>, responses: seq<Response>)
    returns (r: Result<seq<ToolCall>, Exception>)
    ensures r == Prepend(auto, Decide(gated, responses))
  {
    var approved := auto;
    var i := 0;
    while i < |responses|
      invariant i <= |responses| && i <= |gated|
      invariant Prepend(auto, Decide(gated, responses)) == Prepend(approved, Decide(gated[i..], responses[i..]))
      decreases |responses| - i
    {
      if i >= |gated| {
        return Err(IndexError);
      }
      var call := gated[i];
      var rest := Decide(gated[i + 1..], responses[i + 1..]);
      assert gated[i..][1..] == gated[i + 1..];
      assert responses[i..][1..] == responses[i + 1..];
      match responses[i] {
        case Accept =>
          if rest.Ok? {
            assert approved + ([call] + rest.value) == (approved + [call]) + rest.value;
          }
          approved := approved + [call];
        case Edit(args) =>
          var edited := ToolCall(call.name, args, call.id);
          if rest.Ok? {
            assert approved + ([edited] + rest.value) == (approved + [edited]) + rest.value;
          }
          approved := approved + [edited];
        case OtherResponse(kind) =>
          return Err(ValueError("Unknown response type: " + kind));
      }
      i := i + 1;
    }
    assert approved + [] == approved;
    r := Ok(approved);
  }

  /** The loop building one request per gated call. */
  method BuildRequests(configs: map<string, InterruptConfig>, prefix: string, argsRepr: Args -> string,
                       gated: seq<ToolCall>)
    returns (requests: seq<HumanInterrupt>)
    requires forall k :: 0 <= k < |gated| ==> gated[k].name in configs
    ensures requests == Requests(configs, prefix, argsRepr, gated)
  {
    requests := [];
    var i := 0;
    while i < |gated|
      invariant i <= |gated|
      invariant requests == Requests(configs, prefix, argsRepr, gated[..i])
      decreases |gated| - i
    {
      var call := gated[i];
      requests := requests + [HumanInterrupt(call.name, call.args, configs[call.name],
                                             Description(prefix, call.name, argsRepr(call.args)))];
      i := i + 1;
    }
    assert gated[..i] == gated;
  }

  /** `interrupt_hook` */
  method InterruptHook(configs: map<string, InterruptConfig>, prefix: string, argsRepr: Args -> string,
                       messages: seq<Message>, responses: seq<Response>)
    returns (r: HookRun)
    ensures r == RunHook(configs, prefix, argsRepr, messages, responses)
  {
    if messages == [] {
      return NoUpdate;
    }
    var last := messages[|messages| - 1];
    if !last.AIMessage? || last.toolCalls == [] {
      return NoUpdate;
    }
    var gated, auto := Partition(last.toolCalls, configs);
    if gated == [] {
      return NoUpdate;
    }
    var requests := BuildRequests(configs, prefix, argsRepr, gated);
    var decided := ApplyResponses(auto, gated, responses);
    if decided.Err? {
      return Asked(requests, Err(decided.error));
    }
    r := Asked(requests, Ok(AIMessage(last.content, decided.value, last.additionalKwargs)));
  }
}
