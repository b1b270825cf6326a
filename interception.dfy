/**
  The per-request `res.send` override installed by the server's context
  middleware. On a request whose `content-type` header is exactly
  `application/json`, the outgoing body is parsed, its `session` is stamped
  when falsy, and its `response` is run through the mapper when the payload
  names one and the mapper feature is on. The override then puts the
  original `send` back and hands the result to it.
 */
module Interception {
  import opened Wrappers
  import opened Js

  const JsonContentType := "application/json"

  /**
    What the override reads from the request: the `content-type` header
    (None when absent) and, when a client is attached, its `session`.
   */
  datatype Request = Request(contentType: Option<string>, clientSession: Option<Value>)

  /** The `mapper` section of the effective server options. */
  datatype MapperOptions = MapperOptions(enable: bool, prefix: string)

  /**
    Everything one installed override works with. `parse` is `JSON.parse`
    (None when it throws) and `convert` is the external response mapper.
   */
  datatype Context = Context(
    request: Request,
    mapper: MapperOptions,
    parse: string -> Option<Value>,
    convert: (string, Value, Value) -> Value)

  /** The exceptions the override can raise instead of forwarding. */
  datatype Failure = SyntaxError | TypeError

  /** What reaches the original `send`: the handler's text, or the rewritten payload. */
  datatype Outgoing = Raw(text: string) | Parsed(payload: Value)

  /** What the response's `send` slot holds: the override, or the original function. */
  datatype Slot = Wrapped | Restored

  predicate IsJsonRequest(req: Request) {
    req.contentType == Some(JsonContentType)
  }

  /** The session stamped on a payload without one: the client's, or the empty string when no client is attached. */
  function SessionFallback(clientSession: Option<Value>): Value {
    match clientSession
    case None => Str("")
    case Some(s) => s
  }

  /**
    `if (!data.session) data.session = ...`. Reading a property of null or
    undefined throws, and so does creating one on a primitive in strict mode;
    a primitive never has a `session`, so it always reaches that write. On an
    array the write adds a non-index property that serialisation drops, so
    the array is forwarded as it was.
   */
  function StampSession(data: Value, clientSession: Option<Value>): (r: Result<Value, Failure>)
    ensures r.Ok? <==> data.Obj? || data.Arr?
    ensures r.Err? ==> r.error == TypeError
    ensures data.Arr? ==> r == Ok(data)
    ensures data.Obj? ==> r.value.Obj? && "session" in r.value.fields
    ensures data.Obj? ==> r.value.fields - {"session"} == data.fields - {"session"}
    ensures data.Obj? && Truthy(Get(data, "session")) ==> r.value == data
    ensures data.Obj? && !Truthy(Get(data, "session")) ==>
              Get(r.value, "session") == SessionFallback(clientSession)
  {
    match data
    case Obj(fields) =>
      if Truthy(Get(data, "session")) then Ok(data)
      else Ok(Obj(fields["session" := SessionFallback(clientSession)]))
    case Arr(_) => Ok(data)
    case _ => Err(TypeError)
  }

  /**
    `if (data.mapper && mapper.enable) { data.response = convert(...); delete data.mapper }`.
    The `mapper` field is removed only inside the enabled branch.
   */
  function ApplyMapper(data: Value, options: MapperOptions, convert: (string, Value, Value) -> Value): (r: Value)
    ensures Truthy(Get(data, "mapper")) && options.enable ==>
              && data.Obj? && r.Obj?
              && "mapper" !in r.fields
              && "response" in r.fields
              && r.fields["response"] == convert(options.prefix, Get(data, "response"), Get(data, "mapper"))
              && r.fields - {"response", "mapper"} == data.fields - {"response", "mapper"}
    ensures !(Truthy(Get(data, "mapper")) && options.enable) ==> r == data
  {
    if Truthy(Get(data, "mapper")) && options.enable then
      var converted := convert(options.prefix, Get(data, "response"), data.fields["mapper"]);
      Obj(data.fields["response" := converted] - {"mapper"})
    else
      data
  }

  /**
    What one call of the override forwards to the original `send`, or the
    exception it raises instead.
   */
  function Rewrite(ctx: Context, data: string): (r: Result<Outgoing, Failure>)
    // a request that is not exactly `application/json` is forwarded verbatim
    ensures !IsJsonRequest(ctx.request) <==> r == Ok(Raw(data))
    ensures IsJsonRequest(ctx.request) && r.Ok? ==> r.value.Parsed?
    // text that does not parse raises instead of being forwarded
    ensures IsJsonRequest(ctx.request) && ctx.parse(data).None? ==> r == Err(SyntaxError)
    ensures IsJsonRequest(ctx.request) && ctx.parse(data).Some? ==>
              (r.Ok? <==> ctx.parse(data).value.Obj? || ctx.parse(data).value.Arr?)
    ensures IsJsonRequest(ctx.request) && ctx.parse(data).Some? && ctx.parse(data).value.Arr? ==>
              r == Ok(Parsed(ctx.parse(data).value))
    // the session is filled when falsy and kept when truthy
    ensures IsJsonRequest(ctx.request) && ctx.parse(data).Some? && ctx.parse(data).value.Obj? ==>
              var v := ctx.parse(data).value;
              && r.Ok? && r.value.payload.Obj?
              && Get(r.value.payload, "session") ==
                   (if Truthy(Get(v, "session")) then Get(v, "session") else SessionFallback(ctx.request.clientSession))
    // the mapper replaces the response and disappears only when enabled
    ensures IsJsonRequest(ctx.request) && ctx.parse(data).Some? && ctx.parse(data).value.Obj? ==>
              var v := ctx.parse(data).value;
              var o := r.value.payload;
              if Truthy(Get(v, "mapper")) && ctx.mapper.enable then
                && Get(o, "response") == ctx.convert(ctx.mapper.prefix, Get(v, "response"), Get(v, "mapper"))
                && "mapper" !in o.fields
              else
                && Get(o, "response") == Get(v, "response")
                && Get(o, "mapper") == Get(v, "mapper")
    // no other field is touched
    ensures IsJsonRequest(ctx.request) && ctx.parse(data).Some? && ctx.parse(data).value.Obj? ==>
              r.value.payload.fields - {"session", "response", "mapper"} ==
              ctx.parse(data).value.fields - {"session", "response", "mapper"}
  {
    if !IsJsonRequest(ctx.request) then
      Ok(Raw(data))
    else
      match ctx.parse(data)
      case None => Err(SyntaxError)
      case Some(v) =>
        match StampSession(v, ctx.request.clientSession)
        case Err(e) => Err(e)
        case Ok(stamped) => Ok(Parsed(ApplyMapper(stamped, ctx.mapper, ctx.convert)))
  }

  /** A content type with parameters is not the exact string compared, so nothing is rewritten. */
  lemma CharsetParameterNotRewritten(ctx: Context, data: string)
    requires ctx.request.contentType == Some("application/json; charset=utf-8")
    ensures Rewrite(ctx, data) == Ok(Raw(data))
  {
  }

  /** A session-less JSON reply `{response: {ok: true}}` is stamped with `''`. */
  lemma StampsEmptySession(ctx: Context, data: string)
    requires ctx.request == Request(Some(JsonContentType), None)
    requires ctx.parse(data) == Some(Obj(map["response" := Obj(map["ok" := Bool(true)])]))
    ensures Rewrite(ctx, data) ==
              Ok(Parsed(Obj(map["session" := Str(""), "response" := Obj(map["ok" := Bool(true)])])))
  {
    var v := ctx.parse(data).value;
    var stamped := Obj(v.fields["session" := Str("")]);
    assert StampSession(v, None) == Ok(stamped);
    assert stamped.fields == map["session" := Str(""), "response" := Obj(map["ok" := Bool(true)])];
  }

  /**
    With session `abc` attached and the mapper on, `{response: {x: 1}, mapper: 'm1'}`
    goes out as `{session: 'abc', response: <converted>}`.
   */
  lemma MapsAndStampsReply(ctx: Context, data: string)
    requires ctx.request == Request(Some(JsonContentType), Some(Str("abc")))
    requires ctx.mapper.enable
    requires ctx.parse(data) == Some(Obj(map["response" := Obj(map["x" := Num(1.0)]), "mapper" := Str("m1")]))
    ensures Rewrite(ctx, data) ==
              Ok(Parsed(Obj(map[
                "session" := Str("abc"),
                "response" := ctx.convert(ctx.mapper.prefix, Obj(map["x" := Num(1.0)]), Str("m1"))])))
  {
    var v := ctx.parse(data).value;
    var stamped := Obj(v.fields["session" := Str("abc")]);
    assert StampSession(v, Some(Str("abc"))) == Ok(stamped);
    var converted := ctx.convert(ctx.mapper.prefix, Obj(map["x" := Num(1.0)]), Str("m1"));
    assert stamped.fields["response" := converted] - {"mapper"} ==
             map["session" := Str("abc"), "response" := converted];
  }

  /**
    One call of `res.send` given what its slot holds. The override puts the
    original back only after the rewrite succeeded: an exception leaves it
    installed and sends nothing.
   */
  function SendStep(ctx: Context, slot: Slot, data: string): (r: (Slot, Result<Outgoing, Failure>))
    ensures slot == Restored ==> r == (Restored, Ok(Raw(data)))
    ensures r.0 == Restored <==> r.1.Ok?
    ensures slot == Wrapped ==> r.1 == Rewrite(ctx, data)
  {
    match slot
    case Restored => (Restored, Ok(Raw(data)))
    case Wrapped =>
      var result := Rewrite(ctx, data);
      (if result.Ok? then Restored else Wrapped, result)
  }

  /** A handler calling `res.send` once for each element of `calls`, in order. */
  function SendAll(ctx: Context, slot: Slot, calls: seq<string>): (r: (Slot, seq<Result<Outgoing, Failure>>))
    ensures |r.1| == |calls|
    ensures calls != [] ==> r.1[0] == SendStep(ctx, slot, calls[0]).1
    decreases |calls|
  {
    if calls == [] then
      (slot, [])
    else
      var step := SendStep(ctx, slot, calls[0]);
      var rest := SendAll(ctx, step.0, calls[1..]);
      (rest.0, [step.1] + rest.1)
  }

  /** Once the original `send` is back, every call forwards its text verbatim. */
  lemma {:induction false} RestoredForwardsVerbatim(ctx: Context, calls: seq<string>)
    ensures SendAll(ctx, Restored, calls).0 == Restored
    ensures forall i :: 0 <= i < |calls| ==> SendAll(ctx, Restored, calls).1[i] == Ok(Raw(calls[i]))
    decreases |calls|
  {
    if calls != [] {
      RestoredForwardsVerbatim(ctx, calls[1..]);
      var rest := SendAll(ctx, Restored, calls[1..]);
      assert SendAll(ctx, Restored, calls).1 == [Ok(Raw(calls[0]))] + rest.1;
    }
  }

  /** After one call has been forwarded, no later call is rewritten. */
  lemma {:induction false} ForwardedOnce(ctx: Context, slot: Slot, calls: seq<string>, i: nat, j: nat)
    requires i < j < |calls|
    requires SendAll(ctx, slot, calls).1[i].Ok?
    ensures SendAll(ctx, slot, calls).1[j] == Ok(Raw(calls[j]))
    decreases i
  {
    var step := SendStep(ctx, slot, calls[0]);
    var rest := SendAll(ctx, step.0, calls[1..]);
    assert SendAll(ctx, slot, calls).1 == [step.1] + rest.1;
    if i == 0 {
      RestoredForwardsVerbatim(ctx, calls[1..]);
      assert rest.1[j - 1] == Ok(Raw(calls[1..][j - 1]));
    } else {
      ForwardedOnce(ctx, step.0, calls[1..], i - 1, j - 1);
    }
  }

  /**
    From the override, every call up to and including the first one that is
    forwarded is rewritten afresh: a call that raised left the override in
    place for the next.
   */
  lemma {:induction false} FailedCallsAreRewritten(ctx: Context, calls: seq<string>, i: nat)
    requires i < |calls|
    requires forall k :: 0 <= k < i ==> SendAll(ctx, Wrapped, calls).1[k].Err?
    ensures SendAll(ctx, Wrapped, calls).1[i] == Rewrite(ctx, calls[i])
    decreases i
  {
    var step := SendStep(ctx, Wrapped, calls[0]);
    var rest := SendAll(ctx, step.0, calls[1..]);
    assert SendAll(ctx, Wrapped, calls).1 == [step.1] + rest.1;
    if i > 0 {
      assert SendAll(ctx, Wrapped, calls).1[0].Err?;
      forall k | 0 <= k < i - 1
        ensures rest.1[k].Err?
      {
        assert SendAll(ctx, Wrapped, calls).1[k + 1].Err?;
      }
      FailedCallsAreRewritten(ctx, calls[1..], i - 1);
    }
  }

  /**
    The slot ends up holding the original `send` exactly when it already did
    or some call was forwarded.
   */
  lemma {:induction false} RestoredIffForwarded(ctx: Context, slot: Slot, calls: seq<string>)
    ensures SendAll(ctx, slot, calls).0 == Restored <==>
              (slot == Restored || exists i :: 0 <= i < |calls| && SendAll(ctx, slot, calls).1[i].Ok?)
    decreases |calls|
  {
    if calls != [] {
      var step := SendStep(ctx, slot, calls[0]);
      var rest := SendAll(ctx, step.0, calls[1..]);
      var all := SendAll(ctx, slot, calls).1;
      assert all == [step.1] + rest.1;
      RestoredIffForwarded(ctx, step.0, calls[1..]);
      if exists i :: 0 <= i < |calls[1..]| && rest.1[i].Ok? {
        var i :| 0 <= i < |calls[1..]| && rest.1[i].Ok?;
        assert all[i + 1].Ok?;
      }
      if exists i :: 0 <= i < |calls| && all[i].Ok? {
        var i :| 0 <= i < |calls| && all[i].Ok?;
        if i > 0 {
          assert rest.1[i - 1].Ok?;
        }
      }
    }
  }

  /** The response object whose `send` slot the middleware patches. */
  class Response {
    const ctx: Context
    /** What `res.send` currently holds. */
    var slot: Slot
    /** The bodies handed to the original `send`, oldest first. */
    var transmitted: seq<Outgoing>

    /** The middleware: remembers the original `send` and installs the override. */
    constructor Install(ctx: Context)
      ensures this.ctx == ctx
      ensures slot == Wrapped && transmitted == []
    {
      this.ctx := ctx;
      slot := Wrapped;
      transmitted := [];
    }

    /** `res.send(data)` as a route handler calls it. */
    method Send(data: string) returns (r: Result<Outgoing, Failure>)
      modifies this
      ensures (slot, r) == SendStep(ctx, old(slot), data)
      ensures transmitted == old(transmitted) + (if r.Ok? then [r.value] else [])
    {
      if slot == Restored {
        r := Ok(Raw(data));
        transmitted := transmitted + [r.value];
        return;
      }
      var outgoing := Raw(data);
      if ctx.request.contentType == Some(JsonContentType) {
        var parsed := ctx.parse(data);
        if parsed.None? {
          return Err(SyntaxError);
        }
        var payload := parsed.value;
        if Nullish(payload) {
          return Err(TypeError);
        }
        if !Truthy(Get(payload, "session")) {
          if !(payload.Obj? || payload.Arr?) {
            return Err(TypeError);
          }
          if payload.Obj? {
            payload := Obj(payload.fields["session" := SessionFallback(ctx.request.clientSession)]);
          }
        }
        if Truthy(Get(payload, "mapper")) && ctx.mapper.enable {
          var converted := ctx.convert(ctx.mapper.prefix, Get(payload, "response"), payload.fields["mapper"]);
          payload := Obj(payload.fields["response" := converted]);
          payload := Obj(payload.fields - {"mapper"});
        }
        outgoing := Parsed(payload);
      }
      slot := Restored;
      r := Ok(outgoing);
      transmitted := transmitted + [outgoing];
    }
  }
}
