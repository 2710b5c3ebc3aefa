/**
 * The invocation bridge: what a registered tool's call handler does with one
 * tool call. It tags the call's arguments with the call type and method,
 * encodes them, looks up the backend function's definition, submits the
 * encoded request to the function's endpoint and maps how the task ends onto
 * the tool result. The encoder, the ID generator, the definition lister, the
 * task resolver and the race between the context and the task are library
 * calls; they are parameters here.
 */
module Bridge {
  import opened Kube
  import opened Configs

  /** A value in a tool call's arguments: a string, or any other JSON value as its raw text. */
  datatype Value = Text(s: string) | Raw(json: seq<byte>)

  datatype Error = Error(msg: string)

  datatype Result<T> = Success(value: T) | Failure(error: Error)

  /** A backend function's definition: where it lives and its timeout in seconds. */
  datatype Funcdef = Funcdef(namespace: string, name: string, timeout: int)

  /** The request submitted to a function: the encoded arguments and an ID. */
  datatype InvokeRequest = InvokeRequest(args: seq<byte>, requestID: string)

  /** A submission: the function's "namespace/name" endpoint, the request and the timeout hint in seconds. */
  datatype Submission = Submission(endpoint: string, request: InvokeRequest, timeoutHint: int)

  /** How the wait for a submitted task ends: the context fires first, or the task completes. */
  datatype Signal = ContextDone | TaskDone(result: Result<seq<byte>>)

  datatype ToolResult = TextResult(text: string)

  /** The library calls a tool call goes through. */
  datatype Env = Env(
    marshal: map<string, Value> -> Option<seq<byte>>,        // JSON encoding; None when it fails
    genID: seq<byte> -> string,                               // request ID from the encoded payload
    funcdefs: (string, string) -> Result<Funcdef>,            // the definition lister: namespace, name
    resolve: Submission -> Option<Error>,                     // task resolver creation; Some when it fails
    signal: Signal,                                           // which of the two waits ends first
    errActionBytes: Error -> seq<byte>)                       // the error-action encoding of a task error

  const CallTypeKey: string := "_call_type"
  const CallMethodKey: string := "_call_method"

  /** The arguments of one tool call; the handler writes into them in place. */
  class Arguments {
    var items: map<string, Value>

    constructor (items: map<string, Value>)
      ensures this.items == items
    {
      this.items := items;
    }
  }

  /** The arguments with the call type and method written in, overwriting any earlier values. */
  function WithCallMeta(args: map<string, Value>, call: ToolCall): (r: map<string, Value>)
    ensures r.Keys == args.Keys + {CallTypeKey, CallMethodKey}
    ensures r[CallTypeKey] == Text(call.callType) && r[CallMethodKey] == Text(call.callMethod)
    ensures forall k :: k in args && k != CallTypeKey && k != CallMethodKey ==> r[k] == args[k]
  {
    args[CallTypeKey := Text(call.callType)][CallMethodKey := Text(call.callMethod)]
  }

  /** Writing the call type and method in twice is the same as once. */
  lemma WithCallMetaIdempotent(args: map<string, Value>, call: ToolCall)
    ensures WithCallMeta(WithCallMeta(args, call), call) == WithCallMeta(args, call)
  {
  }

  /** The endpoint a function definition is submitted to. */
  function Endpoint(fd: Funcdef): string
  {
    fd.namespace + "/" + fd.name
  }

  /** The text result of a completed task: its output, or the error-action bytes of its error. */
  function TaskText(r: Result<seq<byte>>, env: Env): string
  {
    match r
    case Success(bts) => BytesToString(bts)
    case Failure(e) => BytesToString(env.errActionBytes(e))
  }

  /**
   * Handles one call of the tool `call` with arguments `args`, in a context
   * of its own (the caller's context plays no part). Returns exactly one of
   * a result and an error; `lookedUp` says whether the function's definition
   * was looked up, and `submitted` is the submission made, if any.
   */
  method CallTool(call: ToolCall, args: Arguments, env: Env)
    returns (result: Option<ToolResult>, err: Option<Error>, ghost lookedUp: bool, ghost submitted: Option<Submission>)
    modifies args
    ensures args.items == WithCallMeta(old(args.items), call)
    ensures result.Some? != err.Some?
    ensures lookedUp <==> env.marshal(args.items).Some?
    ensures submitted.Some? ==> lookedUp
    // the arguments cannot be encoded: an error, before any lookup or submission
    ensures env.marshal(args.items).None? ==>
      err == Some(Error("call func payload parse error")) && submitted == None
    // the definition cannot be found: the lister's error, unchanged, and nothing submitted
    ensures env.marshal(args.items).Some? && env.funcdefs(call.ns, call.fn).Failure? ==>
      err == Some(env.funcdefs(call.ns, call.fn).error) && submitted == None
    // otherwise the encoded arguments go to the definition's endpoint, with an ID
    // computed from them alone and the definition's timeout as the hint
    ensures env.marshal(args.items).Some? && env.funcdefs(call.ns, call.fn).Success? ==>
      var payload := env.marshal(args.items).value;
      var fd := env.funcdefs(call.ns, call.fn).value;
      submitted == Some(Submission(Endpoint(fd), InvokeRequest(payload, env.genID(payload)), fd.timeout))
    ensures submitted.Some? && env.resolve(submitted.value).Some? ==>
      result == None && err == Some(Error("call func error " + env.resolve(submitted.value).value.msg))
    ensures submitted.Some? && env.resolve(submitted.value).None? && env.signal.ContextDone? ==>
      result == None && err == Some(Error("call func timeout"))
    // a completed task is a text result with no error, whether or not the task failed
    ensures submitted.Some? && env.resolve(submitted.value).None? && env.signal.TaskDone? ==>
      result == Some(TextResult(TaskText(env.signal.result, env))) && err == None
  {
    args.items := args.items[CallTypeKey := Text(call.callType)];
    args.items := args.items[CallMethodKey := Text(call.callMethod)];
    var payload := env.marshal(args.items);
    if payload.None? {
      return None, Some(Error("call func payload parse error")), false, None;
    }
    var request := InvokeRequest(payload.value, env.genID(payload.value));
    lookedUp := true;
    var fndef := env.funcdefs(call.ns, call.fn);
    if fndef.Failure? {
      return None, Some(fndef.error), lookedUp, None;
    }
    var endpoint := fndef.value.namespace + "/" + fndef.value.name;
    var submission := Submission(endpoint, request, fndef.value.timeout);
    submitted := Some(submission);
    var resolverErr := env.resolve(submission);
    if resolverErr.Some? {
      return None, Some(Error("call func error " + resolverErr.value.msg)), lookedUp, submitted;
    }
    match env.signal
    case ContextDone =>
      return None, Some(Error("call func timeout")), lookedUp, submitted;
    case TaskDone(r) =>
      var bts: seq<byte>;
      if r.Failure? {
        bts := env.errActionBytes(r.error);
      } else {
        bts := r.value;
      }
      return Some(TextResult(BytesToString(bts))), None, lookedUp, submitted;
  }
}
