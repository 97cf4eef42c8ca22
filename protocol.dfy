/** The adapter as the hosting layer sees it: one protocol surface on which
    every call is answered, whatever subset of capabilities the plugin has.
    A call is one of the plugin interface's methods with its arguments; a
    lifetime is the sequence of calls the host makes on one adapter.
 */
module Protocol {
  import opened Backend
  import opened CorePlugin

  /** A call on the plugin interface (`DataQuery` is left to its own function,
      since its answer comes from an endpoint outside this model). */
  datatype Call =
    | PluginIDCall
    | StartCall(ctx: Context)
    | StopCall(ctx: Context)
    | IsManagedCall
    | ExitedCall
    | CollectMetricsCall(ctx: Context)
    | CheckHealthCall(ctx: Context, healthReq: CheckHealthRequest)
    | CallResourceCall(ctx: Context, resourceReq: CallResourceRequest, resourceSender: CallResourceResponseSender)
    | CanSubscribeToStreamCall(ctx: Context, subscribeReq: SubscribeToStreamRequest)
    | RunStreamCall(ctx: Context, runReq: RunStreamRequest, packetSender: StreamPacketSender)

  /** The answer to a call, shaped like the Go method's results. */
  datatype Reply =
    | IdReply(id: string)
    | LifecycleReply(lifecycleErr: Option<Error>)
    | FlagReply(flag: bool)
    | MetricsReply(metrics: Ret<CollectMetricsResult>)
    | HealthReply(health: Ret<CheckHealthResult>)
    | ResourceReply(resource: Sent<CallResourceResponse>)
    | SubscribeReply(subscribe: Ret<SubscribeToStreamResponse>)
    | StreamReply(stream: Sent<StreamPacket>)

  /** The capability a dispatching call needs; identity, lifecycle and metrics
      calls need none. */
  function Needs(c: Call): Option<Capability> {
    match c
    case CheckHealthCall(_, _) => Some(Health)
    case CallResourceCall(_, _, _) => Some(Resource)
    case CanSubscribeToStreamCall(_, _) => Some(Stream)
    case RunStreamCall(_, _, _) => Some(Stream)
    case _ => None
  }

  /** Whether the adapter serves a call: metrics never, a dispatching call when
      its capability is present, identity and lifecycle calls always. */
  predicate Served(p: CorePlugin, c: Call) {
    !c.CollectMetricsCall? && (Needs(c).None? || Needs(c).value in Capabilities(p))
  }

  /** Whether a reply carries the "method not implemented" sentinel. */
  predicate SignalsNotImplemented(r: Reply) {
    match r
    case IdReply(_) => false
    case FlagReply(_) => false
    case LifecycleReply(err) => err == Some(MethodNotImplemented)
    case MetricsReply(x) => x.err == Some(MethodNotImplemented)
    case HealthReply(x) => x.err == Some(MethodNotImplemented)
    case ResourceReply(x) => x.err == Some(MethodNotImplemented)
    case SubscribeReply(x) => x.err == Some(MethodNotImplemented)
    case StreamReply(x) => x.err == Some(MethodNotImplemented)
  }

  /** Every present handler of the adapter never answers with the sentinel itself. */
  ghost predicate HandlersNeverSignalAbsence(p: CorePlugin) {
    && (p.checkHealthHandler.Some? ==> HealthNeverSignalsAbsence(p.checkHealthHandler.value))
    && (p.callResourceHandler.Some? ==> ResourceNeverSignalsAbsence(p.callResourceHandler.value))
    && (p.streamHandler.Some? ==> StreamNeverSignalsAbsence(p.streamHandler.value))
  }

  /** Whether the adapter hands a call to a handler: a dispatching call whose
      capability is present. */
  predicate Forwarded(p: CorePlugin, c: Call) {
    Needs(c).Some? && Needs(c).value in Capabilities(p)
  }

  /** The plugin interface's method table over the adapter, for a call arriving
      in plugin state `st`. A call the adapter does not serve is always answered
      with the sentinel, and a streaming call it does not serve sends nothing; a
      call it does not forward leaves the plugin state as it was. */
  function Handle(p: CorePlugin, st: PluginState, c: Call): (r: Step<Reply>)
    ensures !Served(p, c) ==> SignalsNotImplemented(r.out)
    ensures !Served(p, c) && r.out.ResourceReply? ==> r.out.resource.sent == []
    ensures !Served(p, c) && r.out.StreamReply? ==> r.out.stream.sent == []
    ensures !Forwarded(p, c) ==> r.state == st
    ensures c.PluginIDCall? ==> r.out == IdReply(p.pluginID)
  {
    match c
    case PluginIDCall => Step(st, IdReply(PluginID(p)))
    case StartCall(ctx) => Step(st, LifecycleReply(Start(p, ctx)))
    case StopCall(ctx) => Step(st, LifecycleReply(Stop(p, ctx)))
    case IsManagedCall => Step(st, FlagReply(IsManaged(p)))
    case ExitedCall => Step(st, FlagReply(Exited(p)))
    case CollectMetricsCall(ctx) => Step(st, MetricsReply(CollectMetrics(p, ctx)))
    case CheckHealthCall(ctx, req) =>
      var r := CheckHealth(p, st, ctx, req); Step(r.state, HealthReply(r.out))
    case CallResourceCall(ctx, req, sender) =>
      var r := CallResource(p, st, ctx, req, sender); Step(r.state, ResourceReply(r.out))
    case CanSubscribeToStreamCall(ctx, req) =>
      var r := CanSubscribeToStream(p, st, ctx, req); Step(r.state, SubscribeReply(r.out))
    case RunStreamCall(ctx, req, sender) =>
      var r := RunStream(p, st, ctx, req, sender); Step(r.state, StreamReply(r.out))
  }

  /** The routing law: for handlers that never answer with the sentinel
      themselves, a call is answered "not implemented" if and only if the
      adapter does not serve it, in whatever plugin state it arrives. This holds
      for every one of the sixteen present/absent combinations, since `p` is
      arbitrary. */
  lemma NotImplementedIffNotServed(p: CorePlugin, st: PluginState, c: Call)
    requires HandlersNeverSignalAbsence(p)
    ensures SignalsNotImplemented(Handle(p, st, c).out) <==> !Served(p, c)
  {
  }

  /** An adapter built from options with no handler at all is legal: it still
      answers its id and lifecycle calls, and every other call with the sentinel. */
  lemma EmptyAdapterAnswersNotImplemented(id: string, env: seq<string>, st: PluginState, c: Call)
    ensures New(ServeOpts(None, None, None, None))(id, env).Success?
    ensures var p := New(ServeOpts(None, None, None, None))(id, env).value;
      SignalsNotImplemented(Handle(p, st, c).out) <==> (c.CollectMetricsCall? || Needs(c).Some?)
  {
  }

  /** The plugin state at the end of a lifetime and the replies given along it. */
  datatype Lifetime = Lifetime(state: PluginState, replies: seq<Reply>)

  /** A lifetime: the calls on one adapter answered one after the other, each in
      the plugin state the calls before it left behind. The adapter itself never
      changes that state: a lifetime of calls it does not forward ends in the
      state it began in. */
  function Serve(p: CorePlugin, st: PluginState, calls: seq<Call>): (life: Lifetime)
    ensures |life.replies| == |calls|
    ensures (forall c | c in calls :: !Forwarded(p, c)) ==> life.state == st
  {
    if calls == [] then Lifetime(st, [])
    else
      var first := Handle(p, st, calls[0]);
      var rest := Serve(p, first.state, calls[1..]);
      Lifetime(rest.state, [first.out] + rest.replies)
  }

  /** Serving two stretches of a lifetime one after the other: the second starts
      in the plugin state the first leaves behind, and the replies line up. */
  lemma {:induction false} ServeSplits(p: CorePlugin, st: PluginState, a: seq<Call>, b: seq<Call>)
    ensures var first := Serve(p, st, a);
      var second := Serve(p, first.state, b);
      Serve(p, st, a + b) == Lifetime(second.state, first.replies + second.replies)
  {
    if a == [] {
      assert a + b == b;
    } else {
      assert (a + b)[0] == a[0];
      assert (a + b)[1..] == a[1..] + b;
      ServeSplits(p, Handle(p, st, a[0]).state, a[1..], b);
    }
  }

  /** The reply to the `i`-th call of a lifetime is the adapter's answer to that
      call in the plugin state the earlier calls left behind. */
  lemma {:induction false} ReplyAt(p: CorePlugin, st: PluginState, calls: seq<Call>, i: nat)
    requires i < |calls|
    ensures Serve(p, st, calls).replies[i] == Handle(p, Serve(p, st, calls[..i]).state, calls[i]).out
  {
    if i > 0 {
      var next := Handle(p, st, calls[0]).state;
      ReplyAt(p, next, calls[1..], i - 1);
      assert calls[..i][0] == calls[0];
      assert calls[..i][1..] == calls[1..][..i - 1];
    }
  }

  /** The id never changes over an adapter's lifetime: every `PluginID` call,
      wherever it falls among other calls and whatever the handlers did before
      it, answers the id the factory was given. */
  lemma IdentityFixedForLifetime(opts: ServeOpts, id: string, env: seq<string>, st: PluginState,
                                 calls: seq<Call>, i: nat)
    requires i < |calls| && calls[i] == PluginIDCall
    ensures New(opts)(id, env).Success?
    ensures Serve(New(opts)(id, env).value, st, calls).replies[i] == IdReply(id)
  {
    ReplyAt(New(opts)(id, env).value, st, calls, i);
  }

  /** Lifecycle and metrics answers are constants over a whole lifetime: they
      depend neither on the handler configuration nor on earlier calls. */
  lemma ConstantsForLifetime(p: CorePlugin, st: PluginState, calls: seq<Call>, i: nat)
    requires i < |calls|
    ensures calls[i].StartCall? || calls[i].StopCall? ==> Serve(p, st, calls).replies[i] == LifecycleReply(None)
    ensures calls[i].IsManagedCall? ==> Serve(p, st, calls).replies[i] == FlagReply(true)
    ensures calls[i].ExitedCall? ==> Serve(p, st, calls).replies[i] == FlagReply(false)
    ensures calls[i].CollectMetricsCall? ==>
      Serve(p, st, calls).replies[i] == MetricsReply(Ret(None, Some(MethodNotImplemented)))
  {
    ReplyAt(p, st, calls, i);
  }

  /** Routing does not depend on history: at every point of a lifetime, a call
      the adapter does not serve is answered with the sentinel, and, for handlers
      that never answer with the sentinel themselves, only such a call is. */
  lemma RoutingForLifetime(p: CorePlugin, st: PluginState, calls: seq<Call>, i: nat)
    requires i < |calls|
    ensures !Served(p, calls[i]) ==> SignalsNotImplemented(Serve(p, st, calls).replies[i])
    ensures HandlersNeverSignalAbsence(p) ==>
      (SignalsNotImplemented(Serve(p, st, calls).replies[i]) <==> !Served(p, calls[i]))
  {
    ReplyAt(p, st, calls, i);
    if HandlersNeverSignalAbsence(p) {
      NotImplementedIffNotServed(p, Serve(p, st, calls[..i]).state, calls[i]);
    }
  }

  /** Replies may still depend on history through the plugin's own state: a
      health handler that answers OK once and then fails gives two different
      replies to the same health call made twice. */
  lemma HandlerStateShowsThroughLifetime(id: string, before: PluginState, after: PluginState,
                                         ctx: Context, req: CheckHealthRequest)
    requires before != after
    ensures var h: CheckHealthHandler := (s, c, r) =>
        if s == before then Step(after, Ret(None, None)) else Step(s, Ret(None, Some(PluginError("unhealthy"))));
      var p := New(ServeOpts(Some(h), None, None, None))(id, []).value;
      var life := Serve(p, before, [CheckHealthCall(ctx, req), CheckHealthCall(ctx, req)]);
      && life.replies[0] == HealthReply(Ret(None, None))
      && life.replies[1] == HealthReply(Ret(None, Some(PluginError("unhealthy"))))
  {
  }
}
