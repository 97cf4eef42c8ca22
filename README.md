# Core plugin capability adapter

A model of Grafana's core (built-in) backend plugin adapter, `corePlugin`.
It holds a plugin id and four optional handler slots, one per capability: health, resource, query and stream.
It presents them through the fixed backend plugin interface.
Every dispatching method the adapter declares forwards its arguments to the handler of its capability and returns that handler's answer verbatim.
When the slot is empty, such a method returns the sentinel error `ErrMethodNotImplemented`.
Identity and lifecycle methods answer constants.
`QueryData` is not declared by the adapter: it is promoted from the embedded query handler interface, and with an empty query slot calling it panics instead of returning the sentinel.

Files:

- `backend.dfy` (module `Backend`): the SDK surface.
  It holds the opaque request, response and sender types, Go's `error` with the sentinel, the handler function types, `ServeOpts` and the capability set of a set of options.
- `core_plugin.dfy` (module `CorePlugin`): the adapter record, the factory `New` and every method of the adapter, as pure functions.
- `protocol.dfy` (module `Protocol`): the adapter as the host sees it.
  A `Call` is a method of the plugin interface with its arguments, and `Handle` is the method table.
  `Serve` answers a sequence of calls made over the adapter's lifetime, threading the plugin state from call to call.
  The routing law and the lifetime properties are proved here.

Modelling choices:

- The struct is set once by the factory and never updated, so the adapter is an immutable datatype.
  "No method reassigns a field" therefore holds by construction.
  The lifetime lemmas state what that means for a host issuing calls.
- A handler is an uninterpreted function value, and an absent handler is `None`.
- The plugin code behind the handlers may keep state between calls.
  That state is an opaque `PluginState`: every handler takes the state a call arrives in and returns the state after it.
  The adapter passes it through and never changes it itself.
  So replies can depend on earlier calls through the handlers, while the adapter's routing, id and constant answers cannot.
- Go's `(*T, error)` results are `Ret(result, err)`, with `None` for `nil`.
- `CallResource` and `RunStream` hand a sender to the handler.
  Their outcome is `Sent(sent, err)`: the items pushed through the sender, in order, and the error returned.
  An absent handler yields `sent == []`, because the sender is never touched.
- `Error` is one type for every error.
  The sentinel is one of its values, and a handler may return it itself, exactly as in Go.
- A caller might expect the sentinel to mean "this capability is absent".
  The code does not guarantee it: it returns a handler's error verbatim, and that error may be the sentinel itself.
  The model follows the code.
  The iff-form routing law is therefore proved for handlers that never return the sentinel (`NotImplementedIffNotServed`).
  The one-way form, "not served implies not implemented", holds for all handlers (`Protocol.Handle`).
  `SentinelFromHandlerLooksAbsent` exhibits the ambiguity.
- The instrumented query endpoint is built on every `DataQuery` call rather than once at construction.
  The model does the same: `DataQuery` applies the endpoint construction to the id and the query slot at each call.

## Model

| member | source | states |
|---|---|---|
| Backend.Provided | pkg/plugins/backendplugin/coreplugin/core_plugin.go:30-33 | a capability is provided exactly when its handler in the options is non-nil |
| Backend.NotImplementedRet | pkg/plugins/backendplugin/coreplugin/core_plugin.go:79 | the absent-capability answer of a `(*T, error)` method: nil result and the sentinel |
| Backend.NotImplementedSent | pkg/plugins/backendplugin/coreplugin/core_plugin.go:87 | the absent-capability answer of a sender-driven method: nothing sent, and the sentinel |
| CorePlugin.Capabilities | pkg/plugins/backendplugin/coreplugin/core_plugin.go:15-22 | the adapter serves a capability exactly when the slot for it holds a handler |
| CorePlugin.New | pkg/plugins/backendplugin/coreplugin/core_plugin.go:25-35 | the factory never fails, for every id and environment; the adapter holds exactly the given id and the four handlers of the options, unchanged |
| CorePlugin.FactoryFixesCapabilities | pkg/plugins/backendplugin/coreplugin/core_plugin.go:25-35 | the built adapter's capability set is the one the options provide, and the environment does not affect the adapter |
| CorePlugin.PluginID | pkg/plugins/backendplugin/coreplugin/core_plugin.go:38-40 | returns the id the adapter was built with |
| CorePlugin.Start | pkg/plugins/backendplugin/coreplugin/core_plugin.go:54-56 | always succeeds (nil error), for every handler configuration and context |
| CorePlugin.Stop | pkg/plugins/backendplugin/coreplugin/core_plugin.go:58-60 | always succeeds (nil error), for every handler configuration and context |
| CorePlugin.IsManaged | pkg/plugins/backendplugin/coreplugin/core_plugin.go:62-64 | always true |
| CorePlugin.Exited | pkg/plugins/backendplugin/coreplugin/core_plugin.go:66-68 | always false |
| CorePlugin.CollectMetrics | pkg/plugins/backendplugin/coreplugin/core_plugin.go:70-72 | always a nil result with the sentinel, even when all four handlers are present |
| CorePlugin.CheckHealth | pkg/plugins/backendplugin/coreplugin/core_plugin.go:74-80 | with the health capability, exactly the handler's (result, error) and state change for the same plugin state, context and request; without it, a nil result and the sentinel, and the plugin state untouched |
| CorePlugin.CallResource | pkg/plugins/backendplugin/coreplugin/core_plugin.go:82-88 | with the resource capability, exactly the handler's outcome on the same state, request and sender; without it, the sentinel, nothing sent and the plugin state untouched |
| CorePlugin.CanSubscribeToStream | pkg/plugins/backendplugin/coreplugin/core_plugin.go:90-95 | with the stream capability, exactly the stream handler's subscribe answer; without it, a nil response and the sentinel, and the plugin state untouched |
| CorePlugin.RunStream | pkg/plugins/backendplugin/coreplugin/core_plugin.go:97-102 | with the stream capability, exactly the stream handler's run outcome on the same state, request and packet sender; without it, the sentinel, no packet sent and the plugin state untouched |
| CorePlugin.QueryData | pkg/plugins/backendplugin/coreplugin/core_plugin.go:20 | the method promoted from the embedded query handler: a direct call on the slot, returning its answer verbatim; callable only with the query slot present, since on an empty slot it is a nil-interface call that panics |
| CorePlugin.StreamOperationsServedTogether | pkg/plugins/backendplugin/coreplugin/core_plugin.go:90-102 | both stream operations hang on the one stream slot; for a handler that never returns the sentinel, each reports "not implemented" exactly when the other does, which is exactly when the stream capability is absent |
| CorePlugin.SentinelFromHandlerLooksAbsent | pkg/plugins/backendplugin/coreplugin/core_plugin.go:74-80 | because the handler's error is returned verbatim, a present health handler that returns the sentinel gives the same reply as no handler |
| CorePlugin.DataQuery | pkg/plugins/backendplugin/coreplugin/core_plugin.go:46-52 | the answer is that of the endpoint built from the plugin id and the query slot, applied to the same context, data source and query |
| CorePlugin.DataQuerySeesOnlyIdAndQuerySlot | pkg/plugins/backendplugin/coreplugin/core_plugin.go:46-52 | two adapters with the same id and query slot answer every data query alike, whatever their other slots hold |
| Protocol.Handle | pkg/plugins/backendplugin/coreplugin/core_plugin.go:38-102 | a call the adapter does not serve (metrics, or a dispatching call whose capability is absent) is always answered with the sentinel, and a sender-driven one sends nothing; a call not handed to a handler leaves the plugin state unchanged; an id call answers the construction id |
| Protocol.NotImplementedIffNotServed | pkg/plugins/backendplugin/coreplugin/core_plugin.go:70-102 | routing law for every one of the 16 present/absent combinations: with handlers that never return the sentinel, a call is answered "not implemented" if and only if the adapter does not serve it |
| Protocol.EmptyAdapterAnswersNotImplemented | pkg/plugins/backendplugin/coreplugin/core_plugin.go:25-35 | an adapter built with no handler at all is legal; it answers every metrics or dispatching call with the sentinel and every id or lifecycle call normally |
| Protocol.Serve | pkg/plugins/backendplugin/coreplugin/core_plugin.go:38-102 | over a lifetime of calls, one reply per call; the adapter itself never changes the plugin state, so a lifetime of calls it hands to no handler ends in the state it began in |
| Protocol.ServeSplits | pkg/plugins/backendplugin/coreplugin/core_plugin.go:38-102 | a lifetime is its two stretches served one after the other, the second starting in the plugin state the first leaves behind |
| Protocol.ReplyAt | pkg/plugins/backendplugin/coreplugin/core_plugin.go:38-102 | the reply to each call of a lifetime is the adapter's answer to that call in the plugin state the earlier calls left; the adapter adds no history of its own |
| Protocol.IdentityFixedForLifetime | pkg/plugins/backendplugin/coreplugin/core_plugin.go:38-40 | every `PluginID` call, anywhere in an adapter's lifetime and whatever the handlers did before it, answers the id the factory was given |
| Protocol.ConstantsForLifetime | pkg/plugins/backendplugin/coreplugin/core_plugin.go:54-72 | at every point of any lifetime, `Start` and `Stop` succeed, `IsManaged` is true, `Exited` is false and `CollectMetrics` is not implemented |
| Protocol.RoutingForLifetime | pkg/plugins/backendplugin/coreplugin/core_plugin.go:70-102 | the adapter's routing does not depend on earlier calls: at every point of a lifetime an unserved call gets the sentinel, and with handlers that never return the sentinel only an unserved call does |
| Protocol.HandlerStateShowsThroughLifetime | pkg/plugins/backendplugin/coreplugin/core_plugin.go:74-77 | replies can depend on earlier calls through the handler's own state: a health handler that answers OK once and then fails gives two different replies to the same call made twice |

## Left out

- `pkg/services/live/plugin_helpers.go`: `Publish`, `GetNumSubscribers` and `GetPluginContext` only forward to the real-time engine (`centrifuge.Node.Publish`, `PresenceStats`) and to the plugin context provider. Their behaviour lives in that foreign code, so there is nothing of their own to state.
- `Logger()` and the logger field, and the logger parameter of the factory: logging infrastructure with no behaviour to verify.
- CorePlugin.DataQuery: the query endpoint adapter and the instrumentation wrapper are not part of this model. Their construction is the parameter `endpointFor`, so nothing is stated about the data query's answer beyond what the adapter passes in. No behaviour for an absent query handler is assumed.
- `DataQuery` is not among the `Protocol.Call` kinds, because its answer comes from that opaque endpoint.
- Context propagation, cancellation and the blocking of `CallResource` and `RunStream` are concurrency and runtime concerns. The context is an opaque value passed unchanged, and a sender-driven call is modelled by its completed outcome.
- Concurrent calls on one adapter are not modelled: a lifetime is a sequence of calls, each completed before the next. Interleavings of handler calls that share plugin state are not captured.
- The internals of the SDK handler interfaces are uninterpreted functions. The fields of `backend.ServeOpts` other than its four handlers are dropped.
- Go's typed nil inside an interface: presence is `Some`/`None` only.
- Protocol.NotImplementedIffNotServed: the "if" direction needs handlers that never return the sentinel themselves, since the source forwards handler errors verbatim.
- CorePlugin.QueryData: the panic on an empty query slot is not modelled as an outcome; the precondition that the query capability is present stands for it.
