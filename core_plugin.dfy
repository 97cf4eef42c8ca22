/** The adapter that presents a core (built-in) plugin through the backend
    plugin interface. It holds a plugin id and up to four optional handlers,
    all fixed when the factory builds it, and routes every call either to the
    handler of the matching capability or, when that handler is absent, to the
    "method not implemented" sentinel.
 */
module CorePlugin {
  import opened Backend

  /** The adapter record: the plugin id and the four handler slots. Being a
      value, nothing can reassign its fields after the factory has built it. */
  datatype CorePlugin = CorePlugin(
    pluginID: string,
    checkHealthHandler: Option<CheckHealthHandler>,
    callResourceHandler: Option<CallResourceHandler>,
    queryDataHandler: Option<QueryDataHandler>,
    streamHandler: Option<StreamHandler>)

  /** `backendplugin.PluginFactoryFunc`: plugin id and environment in, plugin or error out. */
  type PluginFactory = (string, seq<string>) -> Result<CorePlugin, Error>

  /** The handler set an adapter holds, read back as serve options. */
  function Handlers(p: CorePlugin): ServeOpts {
    ServeOpts(p.checkHealthHandler, p.callResourceHandler, p.queryDataHandler, p.streamHandler)
  }

  /** The capabilities an adapter serves: those whose slot holds a handler. */
  function Capabilities(p: CorePlugin): (caps: set<Capability>)
    ensures Health in caps <==> p.checkHealthHandler.Some?
    ensures Resource in caps <==> p.callResourceHandler.Some?
    ensures Query in caps <==> p.queryDataHandler.Some?
    ensures Stream in caps <==> p.streamHandler.Some?
  {
    Provided(ServeOpts(p.checkHealthHandler, p.callResourceHandler, p.queryDataHandler, p.streamHandler))
  }

  /** `New`: a factory that never fails and builds an adapter holding exactly the
      id it is given and the four handlers of `opts`; the environment is ignored. */
  function New(opts: ServeOpts): (factory: PluginFactory)
    ensures forall id, env :: factory(id, env).Success?
    ensures forall id, env :: factory(id, env).Success? ==>
      PluginID(factory(id, env).value) == id && Handlers(factory(id, env).value) == opts
  {
    (id: string, env: seq<string>) =>
      Success(CorePlugin(id, opts.checkHealthHandler, opts.callResourceHandler,
                         opts.queryDataHandler, opts.streamHandler))
  }

  /** `PluginID`: the id the adapter was built with. */
  function PluginID(p: CorePlugin): (id: string)
    ensures id == p.pluginID
  {
    p.pluginID
  }

  /** `Start`: succeeds for every handler configuration. */
  function Start(p: CorePlugin, ctx: Context): (err: Option<Error>)
    ensures err == None
  {
    None
  }

  /** `Stop`: succeeds for every handler configuration. */
  function Stop(p: CorePlugin, ctx: Context): (err: Option<Error>)
    ensures err == None
  {
    None
  }

  /** `IsManaged`: a core plugin always counts as managed. */
  function IsManaged(p: CorePlugin): (managed: bool)
    ensures managed
  {
    true
  }

  /** `Exited`: a core plugin never counts as exited. */
  function Exited(p: CorePlugin): (exited: bool)
    ensures !exited
  {
    false
  }

  /** `CollectMetrics`: never served, whatever the handlers. */
  function CollectMetrics(p: CorePlugin, ctx: Context): (r: Ret<CollectMetricsResult>)
    ensures r.result == None && r.err == Some(MethodNotImplemented)
  {
    NotImplementedRet()
  }

  // The dispatching methods. Each takes the plugin state `st` in which the call
  // arrives and yields the state after it: a handler call may change it, the
  // adapter's own answer never does.

  /** `CheckHealth`: the health handler's own answer when there is one, the
      sentinel with no result otherwise. */
  function CheckHealth(p: CorePlugin, st: PluginState, ctx: Context, req: CheckHealthRequest)
    : (r: Step<Ret<CheckHealthResult>>)
    ensures Health !in Capabilities(p) ==>
      r.state == st && r.out.result == None && r.out.err == Some(MethodNotImplemented)
    ensures Health in Capabilities(p) ==> r == p.checkHealthHandler.value(st, ctx, req)
  {
    match p.checkHealthHandler
    case Some(h) => h(st, ctx, req)
    case None => Step(st, NotImplementedRet())
  }

  /** `CallResource`: the resource handler runs on the same request and the
      same sender; without one, nothing goes through the sender. */
  function CallResource(p: CorePlugin, st: PluginState, ctx: Context, req: CallResourceRequest,
                        sender: CallResourceResponseSender): (r: Step<Sent<CallResourceResponse>>)
    ensures Resource !in Capabilities(p) ==>
      r.state == st && r.out.sent == [] && r.out.err == Some(MethodNotImplemented)
    ensures Resource in Capabilities(p) ==> r == p.callResourceHandler.value(st, ctx, req, sender)
  {
    match p.callResourceHandler
    case Some(h) => h(st, ctx, req, sender)
    case None => Step(st, NotImplementedSent())
  }

  /** `CanSubscribeToStream`: served by the stream handler. */
  function CanSubscribeToStream(p: CorePlugin, st: PluginState, ctx: Context, req: SubscribeToStreamRequest)
    : (r: Step<Ret<SubscribeToStreamResponse>>)
    ensures Stream !in Capabilities(p) ==>
      r.state == st && r.out.result == None && r.out.err == Some(MethodNotImplemented)
    ensures Stream in Capabilities(p) ==> r == p.streamHandler.value.canSubscribeToStream(st, ctx, req)
  {
    match p.streamHandler
    case Some(h) => h.canSubscribeToStream(st, ctx, req)
    case None => Step(st, NotImplementedRet())
  }

  /** `RunStream`: served by the same stream handler, with the same packet sender;
      without one, no packet is sent. */
  function RunStream(p: CorePlugin, st: PluginState, ctx: Context, req: RunStreamRequest,
                     sender: StreamPacketSender): (r: Step<Sent<StreamPacket>>)
    ensures Stream !in Capabilities(p) ==>
      r.state == st && r.out.sent == [] && r.out.err == Some(MethodNotImplemented)
    ensures Stream in Capabilities(p) ==> r == p.streamHandler.value.runStream(st, ctx, req, sender)
  {
    match p.streamHandler
    case Some(h) => h.runStream(st, ctx, req, sender)
    case None => Step(st, NotImplementedSent())
  }

  /** `QueryData`, which the adapter gets from the embedded query handler
      interface without declaring it: a direct call on the query slot. With the
      slot empty that is a call on a nil interface, which panics, so the caller
      must know the query capability is present. */
  function QueryData(p: CorePlugin, st: PluginState, ctx: Context, req: QueryDataRequest)
    : (r: Step<Ret<QueryDataResponse>>)
    requires Query in Capabilities(p)
    ensures r == p.queryDataHandler.value(st, ctx, req)
  {
    p.queryDataHandler.value(st, ctx, req)
  }

  // `DataQuery` speaks the legacy data-source and query types and goes through an
  // endpoint adapter and an instrumentation wrapper that are not part of this model.
  type DataSource
  type LegacyDataQuery
  type LegacyDataResponse
  datatype DataQueryRet = DataQueryRet(response: LegacyDataResponse, err: Option<Error>)
  type QueryEndpoint = (PluginState, Context, DataSource, LegacyDataQuery) -> Step<DataQueryRet>

  /** `DataQuery`: builds the endpoint for the plugin id and the (instrumented)
      query handler slot, whatever it holds, and returns that endpoint's answer.
      `endpointFor` stands for that construction. */
  function DataQuery(p: CorePlugin, st: PluginState, ctx: Context, ds: DataSource, query: LegacyDataQuery,
                     endpointFor: (string, Option<QueryDataHandler>) -> QueryEndpoint): (r: Step<DataQueryRet>)
    ensures r == endpointFor(p.pluginID, p.queryDataHandler)(st, ctx, ds, query)
  {
    endpointFor(p.pluginID, p.queryDataHandler)(st, ctx, ds, query)
  }

  /** What `DataQuery` sees of the adapter is its id and its query slot: the
      health, resource and stream slots cannot change its answer. */
  lemma DataQuerySeesOnlyIdAndQuerySlot(p: CorePlugin, p': CorePlugin, st: PluginState, ctx: Context, ds: DataSource,
                                        query: LegacyDataQuery,
                                        endpointFor: (string, Option<QueryDataHandler>) -> QueryEndpoint)
    requires p.pluginID == p'.pluginID && p.queryDataHandler == p'.queryDataHandler
    ensures DataQuery(p, st, ctx, ds, query, endpointFor) == DataQuery(p', st, ctx, ds, query, endpointFor)
  {
  }

  /** The adapter built by the factory has exactly the capabilities the options
      provide, and it does not depend on the environment. */
  lemma FactoryFixesCapabilities(opts: ServeOpts, id: string, env: seq<string>, env': seq<string>)
    ensures New(opts)(id, env).Success?
    ensures Capabilities(New(opts)(id, env).value) == Provided(opts)
    ensures New(opts)(id, env) == New(opts)(id, env')
  {
  }

  /** Handler errors are returned verbatim, so a present health handler that
      answers with the sentinel itself cannot be told apart from an absent one:
      the caller gets the same reply either way. */
  lemma SentinelFromHandlerLooksAbsent(id: string, st: PluginState, ctx: Context, req: CheckHealthRequest)
    ensures var h: CheckHealthHandler := (s, c, r) => Step(s, Ret(None, Some(MethodNotImplemented)));
      var present := New(ServeOpts(Some(h), None, None, None))(id, []);
      var absent := New(ServeOpts(None, None, None, None))(id, []);
      && present.Success? && absent.Success?
      && Health in Capabilities(present.value) && Health !in Capabilities(absent.value)
      && CheckHealth(present.value, st, ctx, req) == CheckHealth(absent.value, st, ctx, req)
  {
  }

  /** The one stream slot serves both stream operations: either both forward to
      the handler or both answer with the sentinel. When the handler itself never
      answers with the sentinel, both operations report "not implemented"
      exactly together. */
  lemma StreamOperationsServedTogether(p: CorePlugin, st: PluginState, ctx: Context, sreq: SubscribeToStreamRequest,
                                       st': PluginState, ctx': Context, rreq: RunStreamRequest,
                                       sender: StreamPacketSender)
    requires p.streamHandler.Some? ==> StreamNeverSignalsAbsence(p.streamHandler.value)
    ensures CanSubscribeToStream(p, st, ctx, sreq).out.err == Some(MethodNotImplemented)
        <==> RunStream(p, st', ctx', rreq, sender).out.err == Some(MethodNotImplemented)
    ensures CanSubscribeToStream(p, st, ctx, sreq).out.err == Some(MethodNotImplemented) <==> Stream !in Capabilities(p)
  {
  }
}
