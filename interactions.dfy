/** The interactive calls built on the suspension primitive and on
    outbound messages: `hold`, the reply handling of `eval_js`, the option
    check of `set_env`, and `defer_call`. */
module Interactions {
  import opened Exceptions

  /** JSON-serialisable values carried by client events and messages. */
  datatype Json =
    | JNull
    | JBool(b: bool)
    | JInt(i: int)
    | JFloat(r: real)
    | JString(s: string)
    | JArray(items: seq<Json>)
    | JObject(members: map<string, Json>)

  /** A client event: a dict such as {"event": ..., "task_id": ..., "data": ...}. */
  type Event = map<string, Json>

  /** What one call of `next_client_event` does: return an event or raise. */
  datatype Delivery = Delivered(event: Event) | Raised(error: Exception)

  // ---------------------------------------------------------------------
  // hold

  /** How `hold` ends on a finite run of deliveries. */
  datatype HoldOutcome =
    | Returned(discarded: nat)     // a SessionException ended the loop
    | Propagated(error: Exception) // any other exception escapes
    | StillHolding(discarded: nat) // every delivery was an event: still blocked

  /** The index of the first delivery that raises, or |s| if none does. */
  function FirstRaised(s: seq<Delivery>): (k: nat)
    ensures k <= |s|
    ensures forall j | 0 <= j < k :: s[j].Delivered?
    ensures k < |s| ==> s[k].Raised?
  {
    if s == [] || s[0].Raised? then 0 else 1 + FirstRaised(s[1..])
  }

  /** What `hold` does with the deliveries `s`: discard events until the
      first exception, which ends the call normally if it is a
      SessionException and escapes otherwise. */
  function HoldOn(s: seq<Delivery>): HoldOutcome {
    var k := FirstRaised(s);
    if k == |s| then StillHolding(k)
    else if IsSessionException(s[k].error) then Returned(k)
    else Propagated(s[k].error)
  }

  /** `hold`: the `while True` loop over `next_client_event`. */
  method Hold(stream: seq<Delivery>) returns (r: HoldOutcome)
    ensures r == HoldOn(stream)
  {
    var i := 0;
    while i < |stream|
      invariant 0 <= i <= |stream|
      invariant forall j | 0 <= j < i :: stream[j].Delivered?
    {
      match stream[i]
      case Delivered(_) =>
        i := i + 1;
      case Raised(e) =>
        if IsSessionException(e) {
          return Returned(i);
        }
        return Propagated(e);
    }
    return StillHolding(i);
  }

  /** `hold` returns normally exactly when some call raises a
      SessionException and every earlier call returned an event; the
      events before it are the ones discarded. */
  lemma HoldReturnsIffSessionException(s: seq<Delivery>, i: nat)
    requires i < |s|
    ensures HoldOn(s) == Returned(i)
        <==> (forall j | 0 <= j < i :: s[j].Delivered?) && s[i].Raised? && IsSessionException(s[i].error)
  {
  }

  /** Any other exception is not caught: the first one raised escapes
      from `hold` unchanged. */
  lemma HoldPropagatesOtherExceptions(s: seq<Delivery>, i: nat)
    requires i < |s| && (forall j | 0 <= j < i :: s[j].Delivered?)
    requires s[i].Raised? && !IsSessionException(s[i].error)
    ensures HoldOn(s) == Propagated(s[i].error)
  {
  }

  // ---------------------------------------------------------------------
  // eval_js

  /** The event kind the client's reply to `eval_js` carries. */
  const JsYield := "js_yield"

  const InternalErrorMessage :=
    "Internal Error, please report this bug on https://github.com/wang0618/PyWebIO/issues"

  /** The client reply to the script `eval_js` sends. */
  function JsYieldReply(taskId: string, data: Json): Event {
    map["event" := JString(JsYield), "task_id" := JString(taskId), "data" := data]
  }

  /** What `eval_js` returns or raises once its script has been sent and
      the one call of `next_client_event` has given `reply`. */
  function EvalJsReply(reply: Delivery): (r: Result<Json>)
    ensures reply.Raised? ==> r == Err(reply.error)
    ensures r.Ok? <==> reply.Delivered? && "event" in reply.event && reply.event["event"] == JString(JsYield)
                       && "data" in reply.event
    ensures r.Ok? ==> r.value == reply.event["data"]
    ensures reply.Delivered? && "event" in reply.event && reply.event["event"] != JString(JsYield)
            ==> r == Err(AssertionError(InternalErrorMessage))
  {
    match reply
    case Raised(e) => Err(e)
    case Delivered(res) =>
      if "event" !in res then Err(KeyError("event"))
      else if res["event"] != JString(JsYield) then Err(AssertionError(InternalErrorMessage))
      else if "data" !in res then Err(KeyError("data"))
      else Ok(res["data"])
  }

  /** Round trip: whatever value the client reports, `eval_js` returns it,
      the null value included. */
  lemma EvalJsRoundTrip(taskId: string, data: Json)
    ensures EvalJsReply(Delivered(JsYieldReply(taskId, data))) == Ok(data)
  {
  }

  // ---------------------------------------------------------------------
  // set_env

  /** The option names `set_env` accepts. */
  const EnvOptions: set<string> := {"title", "output_animation", "auto_scroll_bottom", "http_pull_interval"}

  /** An outbound message: a command and its spec. */
  datatype Message = Message(command: string, spec: map<string, Json>)

  /** `set_env(**envInfo)`: the message sent, or the AssertionError raised
      before anything is sent. */
  function SetEnv(envInfo: map<string, Json>): (r: Result<Message>)
    ensures r.Ok? <==> envInfo.Keys <= EnvOptions
    ensures r.Ok? ==> r.value == Message("set_env", envInfo)
    ensures r.Err? ==> r.error.AssertionError?
  {
    if forall k | k in envInfo :: k in EnvOptions then Ok(Message("set_env", envInfo))
    else Err(AssertionError(""))
  }

  /** One unknown key is enough to have the whole call refused, whatever
      else it sets. */
  lemma SetEnvRefusesUnknownKey(envInfo: map<string, Json>, key: string, value: Json)
    requires key !in EnvOptions
    ensures SetEnv(envInfo[key := value]).Err?
  {
    assert key in envInfo[key := value];
  }

  // ---------------------------------------------------------------------
  // defer_call

  /** `defer_call(func)` on a session whose cleanup list is `deferred`: the
      new list, and the value returned, so that it can serve as a decorator. */
  function DeferCall<F>(deferred: seq<F>, func: F): (r: (seq<F>, F))
    ensures r.1 == func
    ensures |r.0| == |deferred| + 1 && r.0[..|deferred|] == deferred && r.0[|deferred|] == func
  {
    (deferred + [func], func)
  }

  /** The cleanup list after `defer_call` is called on each of `funcs` in turn. */
  function DeferAll<F>(deferred: seq<F>, funcs: seq<F>): seq<F>
    decreases |funcs|
  {
    if funcs == [] then deferred else DeferAll(DeferCall(deferred, funcs[0]).0, funcs[1..])
  }

  /** Deferred functions are kept in the order they were deferred. */
  lemma {:induction false} DeferAllKeepsOrder<F>(deferred: seq<F>, funcs: seq<F>)
    ensures DeferAll(deferred, funcs) == deferred + funcs
    decreases |funcs|
  {
    if funcs != [] {
      DeferAllKeepsOrder(deferred + [funcs[0]], funcs[1..]);
      assert deferred + [funcs[0]] + funcs[1..] == deferred + funcs;
    }
  }
}
