/** The plugin SDK surface the core adapter is written against: the request,
    response and sender types it passes through untouched, the error values it
    returns, the four optional handler capabilities and the options a plugin is
    served with. Everything the SDK does inside a handler is foreign to the
    adapter, so handlers are uninterpreted function values here.
 */
module Backend {

  /** Go's nilable pointers and interfaces: `None` is `nil`. */
  datatype Option<+T> = None | Some(value: T)

  /** Go's `(value, error)` pair for the factory, which never yields the error. */
  datatype Result<+R, +E> = Success(value: R) | Failure(error: E)

  /** Go's `error` interface. `MethodNotImplemented` is the package-level sentinel
      `backendplugin.ErrMethodNotImplemented`; every other error a handler may
      return is `PluginError`. A handler may return the sentinel itself, as in Go. */
  datatype Error = MethodNotImplemented | PluginError(message: string)

  /** `context.Context`: passed along unchanged, never inspected. */
  type Context(!new)

  /** Whatever state the plugin code behind the handlers keeps between calls.
      The adapter never looks at it; only a handler call can change it. */
  type PluginState(!new)

  /** What a handler call yields: the plugin state after the call and the
      call's own result. */
  datatype Step<+T> = Step(state: PluginState, out: T)

  // Requests, responses and senders of the SDK; the adapter only forwards them.
  type CheckHealthRequest(!new)
  type CheckHealthResult
  type CallResourceRequest(!new)
  type CallResourceResponse
  type CallResourceResponseSender(!new)
  type SubscribeToStreamRequest(!new)
  type SubscribeToStreamResponse
  type RunStreamRequest(!new)
  type StreamPacket
  type StreamPacketSender(!new)
  type CollectMetricsResult
  type QueryDataRequest
  type QueryDataResponse

  /** A Go call returning `(*T, error)`: either part may be nil. */
  datatype Ret<+T> = Ret(result: Option<T>, err: Option<Error>)

  /** A Go call that streams through a sender and returns `error`: the items
      pushed through the sender, in order, and the error returned at the end. */
  datatype Sent<+P> = Sent(sent: seq<P>, err: Option<Error>)

  /** The answer of the adapter for a `(*T, error)` method it cannot serve. */
  function NotImplementedRet<T>(): (r: Ret<T>)
    ensures r.result == None && r.err == Some(MethodNotImplemented)
  {
    Ret(None, Some(MethodNotImplemented))
  }

  /** The answer of the adapter for a streaming method it cannot serve:
      nothing went through the sender. */
  function NotImplementedSent<P>(): (r: Sent<P>)
    ensures r.sent == [] && r.err == Some(MethodNotImplemented)
  {
    Sent([], Some(MethodNotImplemented))
  }

  // The handler interfaces, one per capability. A handler is plugin code: its
  // answer may depend on the plugin state, and it may change that state.
  type CheckHealthHandler = (PluginState, Context, CheckHealthRequest) -> Step<Ret<CheckHealthResult>>
  type CallResourceHandler =
    (PluginState, Context, CallResourceRequest, CallResourceResponseSender) -> Step<Sent<CallResourceResponse>>
  type QueryDataHandler = (PluginState, Context, QueryDataRequest) -> Step<Ret<QueryDataResponse>>

  /** One capability, two operations: subscribing and running a stream. */
  datatype StreamHandler = StreamHandler(
    canSubscribeToStream: (PluginState, Context, SubscribeToStreamRequest) -> Step<Ret<SubscribeToStreamResponse>>,
    runStream: (PluginState, Context, RunStreamRequest, StreamPacketSender) -> Step<Sent<StreamPacket>>)

  /** `backend.ServeOpts`: each capability is present or absent. */
  datatype ServeOpts = ServeOpts(
    checkHealthHandler: Option<CheckHealthHandler>,
    callResourceHandler: Option<CallResourceHandler>,
    queryDataHandler: Option<QueryDataHandler>,
    streamHandler: Option<StreamHandler>)

  /** The four capabilities a backend plugin may offer. */
  datatype Capability = Health | Resource | Query | Stream

  /** The capabilities a set of options provides: those whose handler is present. */
  function Provided(opts: ServeOpts): (caps: set<Capability>)
    ensures Health in caps <==> opts.checkHealthHandler.Some?
    ensures Resource in caps <==> opts.callResourceHandler.Some?
    ensures Query in caps <==> opts.queryDataHandler.Some?
    ensures Stream in caps <==> opts.streamHandler.Some?
  {
    (if opts.checkHealthHandler.Some? then {Health} else {})
    + (if opts.callResourceHandler.Some? then {Resource} else {})
    + (if opts.queryDataHandler.Some? then {Query} else {})
    + (if opts.streamHandler.Some? then {Stream} else {})
  }

  // A handler that never answers with the sentinel: only for such handlers can a
  // caller tell "absent" from "present" by the error alone.

  ghost predicate HealthNeverSignalsAbsence(h: CheckHealthHandler) {
    forall st, ctx, req :: h(st, ctx, req).out.err != Some(MethodNotImplemented)
  }

  ghost predicate ResourceNeverSignalsAbsence(h: CallResourceHandler) {
    forall st, ctx, req, sender :: h(st, ctx, req, sender).out.err != Some(MethodNotImplemented)
  }

  ghost predicate StreamNeverSignalsAbsence(h: StreamHandler) {
    && (forall st, ctx, req :: h.canSubscribeToStream(st, ctx, req).out.err != Some(MethodNotImplemented))
    && (forall st, ctx, req, sender :: h.runStream(st, ctx, req, sender).out.err != Some(MethodNotImplemented))
  }
}
