# xmicro core, modelled in Dafny

This project models six parts of the xmicro micro-service framework:

- **The Nacos configuration adapter** (`config/source/nacos`). It has two objects:
  - `NacosClient`, the wrapper around the Nacos SDK's config client.
  - `nacosDynamicConfiguration`, the dynamic configuration that owns such a client.

  The model covers:
  - parsing the list of server addresses;
  - the client configuration, including the `uint64(int32(timeout / time.Millisecond))` conversion of the timeout;
  - stopping and closing a client once;
  - building the configuration in `ValidateNacosClient` and `newNacosDynamicConfiguration`;
  - the read, publish and key-search calls, done under the resolved group (where '/' becomes '-').
- **Server options** (`server/options.go`). Each `server.Option` closure updates one field of `server.Options`. `newOptions` applies the options in order and then fills in defaults. `TLSConfig` panics with a nil dereference while no transport is set.
- **rpc server options** (`server/rpc/options.go`). This `newOptions` applies the same options and the same defaulting.
- **Connection-pool options** (`util/pool/options.go`). Three setters.
- **The opentracing wrappers** (`trace/opentracing/jaeger/wrapper.go`). `StartSpanFromContext` finds the parent span, starts a span, injects it into fresh metadata and merges that metadata into the context's metadata, with title-cased keys. The client, call, handler and subscriber wrappers run the wrapped call inside such a span.
- **The gRPC transport handler** (`transport/grpc/handler.go`). `Stream` builds the socket, runs the socket function and turns a panic into an internal server error.

Foreign calls are parameters of the operations: the SDK, the tracer and the wrapped clients and handlers. Go panics are `Err` values of type `Panic`. The Go functions from `strings` and `strconv` that the code relies on are modelled in `GoStrings`, for the inputs the code gives them, and their properties are proved there.

Files:
- `common.dfy`: `Option`, `Result`, errors.
- `go_strings.dfy`: Go `strings`/`strconv` functions.
- `nacos.dfy`: the Nacos adapter.
- `server_options.dfy`: server options.
- `rpc_options.dfy`: rpc server options.
- `pool_options.dfy`: pool options.
- `jaeger_wrapper.dfy`: tracing wrappers.
- `grpc_handler.dfy`: gRPC handler.

## Model

| member | source | states |
|---|---|---|
| GoStrings.Split | config/source/nacos/client.go:110 | `strings.Split` with a one-character separator gives at least one segment, and no segment contains the separator |
| GoStrings.JoinSplit | config/source/nacos/client.go:166 | splitting loses nothing: joining the segments with the separator gives back the input |
| GoStrings.SplitJoin | config/source/nacos/client.go:166 | segments free of the separator, once joined, split back into exactly those segments |
| GoStrings.SplitHasSecond | config/source/nacos/client.go:166-167 | an address has a second segment (the one indexed as the port) exactly when it contains ':' |
| GoStrings.ReplaceAll | config/source/nacos/impl.go:218 | same length as the input; each character equal to the old one is replaced and every other character is kept |
| GoStrings.ParseUint10 | config/source/nacos/client.go:167 | succeeds exactly on a non-empty string of decimal digits whose value fits in 64 bits, and the result is at most 2^64-1 |
| GoStrings.Decimal | config/source/nacos/client.go:167 | the decimal rendering of a number is non-empty and made only of digits |
| GoStrings.DigitsValueDecimal | config/source/nacos/client.go:167 | the value of a number's decimal digits is that number |
| GoStrings.ParseDecimal | config/source/nacos/client.go:167 | every 64-bit port parses back from its decimal rendering |
| GoStrings.Title | trace/opentracing/jaeger/wrapper.go:58 | `strings.Title` keeps the length of the key |
| GoStrings.TitleAt | trace/opentracing/jaeger/wrapper.go:58 | a character is upper-cased exactly when it starts a word (at the start or after a separator) and is kept otherwise |
| GoStrings.TitleIdempotent | trace/opentracing/jaeger/wrapper.go:58 | title-casing a title-cased key changes nothing |
| Nacos.GetParam | config/source/nacos/impl.go:75 | a set, non-empty URL parameter is returned; a missing or empty one gives the default |
| Nacos.RootPath | config/source/nacos/impl.go:75 | the root path is "/" + the configured namespace + "/config". The default namespace is "micro": `config.DefaultGroup` lives outside the modelled files, and its value is taken from the adapter's comment at impl.go:100 |
| Nacos.RootPathInjective | config/source/nacos/impl.go:75 | distinct namespaces give distinct root paths |
| Nacos.RootPathDefault | config/source/nacos/impl.go:75 | without a namespace parameter the root path is "/micro/config" |
| Nacos.ResolvedGroup | config/source/nacos/impl.go:214-219 | same length; no '/' remains; every '/' became '-' and every other character is kept |
| Nacos.ResolvedGroupEmpty | config/source/nacos/impl.go:215-217 | the empty group stays empty |
| Nacos.ResolvedGroupIdempotent | config/source/nacos/impl.go:214-219 | resolving a resolved group changes nothing |
| Nacos.MillisOf | config/source/nacos/client.go:182-183 | `timeout / time.Millisecond` truncates toward zero for positive and negative durations |
| Nacos.WrapInt32 | config/source/nacos/client.go:182-183 | `int32(x)` lies in the int32 range and is congruent to x modulo 2^32 |
| Nacos.Uint64OfInt32 | config/source/nacos/client.go:182-183 | `uint64` of an int32 is at most 2^64-1 and congruent to it modulo 2^64 (sign extension) |
| Nacos.TimeoutMs | config/source/nacos/client.go:182-183 | the timeout handed to the SDK is below 2^31 or within 2^31 of 2^64 |
| Nacos.TimeoutMsExact | config/source/nacos/client.go:182-183 | below 2^31 milliseconds the SDK gets the plain millisecond count |
| Nacos.TimeoutMsWraps | config/source/nacos/client.go:182-183 | at 2^31 milliseconds the int32 conversion wraps and the SDK gets 2^64 - 2^31 |
| Nacos.TimeoutMsNegative | config/source/nacos/client.go:182-183 | a timeout of -1 ms reaches the SDK as the largest uint64 |
| Nacos.ServerConfigsConcat | config/source/nacos/client.go:165-177 | the servers of a concatenation of address lists are the concatenation of their servers: input order is kept |
| Nacos.ServerConfigsMembers | config/source/nacos/client.go:165-177 | a server is in the list exactly when some address yields it |
| Nacos.BadPortSkipped | config/source/nacos/client.go:167-171 | an address whose port does not parse is skipped and the other entries are unaffected |
| Nacos.ClientConfigOf | config/source/nacos/client.go:181-191 | both the timeout and the listen interval carry the converted timeout, and the cache is not loaded at start |
| Nacos.InitNacosConfigClient | config/source/nacos/client.go:163-193 | the SDK client is created from the parsed servers, in order, and from the client configuration; an SDK error is returned |
| Nacos.NacosClient.constructor | config/source/nacos/client.go:136-146 | a new client holds its name, addresses and timeout, has no SDK client and is not stopped |
| Nacos.NacosClient.SetClient | config/source/nacos/client.go:73-77 | the SDK client is replaced |
| Nacos.NacosClient.Stop | config/source/nacos/client.go:200-209 | the first call closes the exit channel and reports false; every later call reports true |
| Nacos.NacosClient.NacosClientValid | config/source/nacos/client.go:212-227 | valid exactly when not stopped and holding an SDK client |
| Nacos.Close | config/source/nacos/client.go:230-237 | nil is left alone; otherwise the client is stopped and its SDK client dropped, so it is never valid afterwards |
| Nacos.NewNacosClient | config/source/nacos/client.go:136-161 | a fresh running client; when the SDK fails, the client is still returned without an SDK client, together with the wrapped error |
| Nacos.DynamicConfiguration.constructor | config/source/nacos/impl.go:74-78 | the configuration keeps its URL, gets the root path, is open and has no client |
| Nacos.DynamicConfiguration.SetNacosClient | config/source/nacos/impl.go:184-188 | the client is replaced |
| Nacos.DynamicConfiguration.IsAvailable | config/source/nacos/impl.go:222-229 | available exactly until `done` is closed |
| Nacos.DynamicConfiguration.CloseConfigs | config/source/nacos/impl.go:231-239 | the client is detached and, when there was one, closed exactly once |
| Nacos.DynamicConfiguration.Destroy | config/source/nacos/impl.go:206-210 | the first call closes `done` and then detaches and closes the client; a second call panics with "close of closed channel" and changes nothing |
| Nacos.DynamicConfiguration.PublishConfig | config/source/nacos/impl.go:111-128 | publishes under the resolved group; succeeds exactly when the SDK reports no error and ok; otherwise the error is wrapped with a stack, or is the "publish failed" message |
| Nacos.DynamicConfiguration.GetConfigKeysByGroup | config/source/nacos/impl.go:131-149 | searches one page of 9999 keys in the resolved group; the result is exactly the set of data ids on that page; on a search error, the empty set and the wrapped error |
| Nacos.DynamicConfiguration.GetRule | config/source/nacos/impl.go:152-166 | reads the key under the resolved group of the applied options; returns the content, or "" and the error wrapped with a stack |
| Nacos.DynamicConfiguration.GetProperties | config/source/nacos/impl.go:100-104 | the same read as `GetRule` of the key |
| Nacos.DynamicConfiguration.GetInternalProperty | config/source/nacos/impl.go:106-109 | the same read, through `GetProperties` |
| Nacos.DynamicConfiguration.RemoveConfig | config/source/nacos/impl.go:242-244 | always succeeds without doing anything |
| Nacos.ValidateNacosClient | config/source/nacos/client.go:94-134 | a nil container is an error. A bad timeout is an error that changes nothing. A missing client is created, named by the last `WithNacosName`. A client without an SDK client gets one. A ready client is left alone. Success means a client with an SDK client is in place |
| Nacos.NewDynamicConfiguration | config/source/nacos/impl.go:73-88 | nil exactly when there is an error. An unparsable timeout gives nil and that error, wrapped with the address. Otherwise: when the SDK cannot create a client, nil and the SDK error wrapped twice; when it can, a fresh, open configuration with the root path, holding a fresh running client named "nacos config" with the parsed addresses, the timeout, and exactly that SDK client |
| ServerOptions.Initial | server/options.go:60-65 | the starting record has empty codec and metadata maps and the default registration interval and TTL |
| ServerOptions.Options.constructor | server/options.go:60-65 | the record starts as `Initial` |
| ServerOptions.Options.Apply | server/options.go:107-282 | running an option's closure changes the record as that option specifies; only `TLSConfig` can panic, and then only its TLS configuration has been stored |
| ServerOptions.Options.SetTLSConfig | server/options.go:228-245 | the TLS configuration is stored first; then, with no transport set, the closure panics with a nil dereference, and otherwise nothing else changes |
| ServerOptions.Options.SetWait | server/options.go:258-268 | the context becomes one carrying the caller's wait group, or a new one, over the old context (Background when nil) |
| ServerOptions.Options.SetName | server/options.go:107-111 | sets the name and nothing else |
| ServerOptions.Options.SetNamespace | server/options.go:114-118 | sets the namespace and nothing else |
| ServerOptions.Options.SetId | server/options.go:121-125 | sets the id and nothing else |
| ServerOptions.Options.SetVersion | server/options.go:128-132 | sets the version and nothing else |
| ServerOptions.Options.SetAddress | server/options.go:135-139 | sets the address and nothing else |
| ServerOptions.Options.SetAdvertise | server/options.go:142-146 | sets the advertised address and nothing else |
| ServerOptions.Options.SetBroker | server/options.go:149-153 | sets the broker and nothing else |
| ServerOptions.Options.SetCodec | server/options.go:156-160 | stores the codec under its content type and nothing else |
| ServerOptions.Options.SetContext | server/options.go:165-169 | sets the context and nothing else |
| ServerOptions.Options.SetRegistry | server/options.go:172-176 | sets the registry and nothing else |
| ServerOptions.Options.SetTrace | server/options.go:179-183 | sets the tracer and nothing else |
| ServerOptions.Options.SetAuth | server/options.go:186-190 | sets the auth and nothing else |
| ServerOptions.Options.SetTransport | server/options.go:193-197 | sets the transport and nothing else |
| ServerOptions.Options.SetMetadata | server/options.go:200-204 | replaces the metadata and nothing else |
| ServerOptions.Options.SetRegisterCheck | server/options.go:207-211 | sets the registration check and nothing else |
| ServerOptions.Options.SetRegisterTTL | server/options.go:214-218 | sets the registration TTL and nothing else |
| ServerOptions.Options.SetRegisterInterval | server/options.go:221-225 | sets the registration interval and nothing else |
| ServerOptions.Options.SetRouter | server/options.go:248-252 | sets the router and nothing else |
| ServerOptions.Options.AddHandlerWrapper | server/options.go:271-275 | appends a handler wrapper and changes nothing else |
| ServerOptions.Options.AddSubscriberWrapper | server/options.go:278-282 | appends a subscriber wrapper and changes nothing else |
| ServerOptions.Options.ApplyDefaults | server/options.go:71-101 | nil components become the built-in ones, and an empty address, name, id or version becomes the package default |
| ServerOptions.NewOptions | server/options.go:59-104 | the result is the options applied in order and then defaulted, or the panic of the first failing option |
| ServerOptions.ApplyFrame | server/options.go:107-252 | an option that succeeds changes the one field it sets, to the value it carries, and no other single-valued field |
| ServerOptions.WrapAppends | server/options.go:271-282 | `WrapHandler` appends only to the handler wrappers, `WrapSubscriber` only to the subscriber wrappers |
| ServerOptions.CodecSetsOneKey | server/options.go:156-160 | `Codec` adds its content type, maps it to the codec, and keeps every other content type and field |
| ServerOptions.WaitLeavesGroup | server/options.go:258-268 | `Wait` never fails; it leaves a non-nil context with a wait group (the caller's, or a new one for nil) over the old context, using Background when it was nil |
| ServerOptions.TLSConfigNeedsTransport | server/options.go:228-245 | `TLSConfig` panics exactly when no transport has been set |
| ServerOptions.ApplyAllConcat | server/options.go:67-69 | applying a concatenation applies the first list, then the second, stopping at a panic |
| ServerOptions.ApplyAllLastWins | server/options.go:67-69 | after the loop, every single-valued field holds the value of the last option setting it, or its starting value |
| ServerOptions.ApplyAllWrappers | server/options.go:67-69 | after the loop, the wrapper lists are the registered wrappers in registration order |
| ServerOptions.ApplyAllCodecs | server/options.go:67-69 | after the loop, a content type's codec is the one its last `Codec` option registered, or the starting one |
| ServerOptions.BuildField | server/options.go:59-104 | every single-valued result field is the last value given to it, passed through that field's defaulting |
| ServerOptions.BuildComponents | server/options.go:71-85 | broker, registry, transport and registration check are never nil afterwards, and a non-nil one the caller gave is kept |
| ServerOptions.BuildStrings | server/options.go:87-101 | an empty address, name, id or version becomes the package default; a non-empty one is kept |
| ServerOptions.BuildRegisterTimes | server/options.go:60-65 | the registration TTL and interval are the defaults unless an option sets them, and are not defaulted afterwards |
| ServerOptions.ExplicitZeroTTL | server/options.go:214-218 | an explicit `RegisterTTL(0)` stays zero |
| ServerOptions.ApplyAllFails | server/options.go:67-69 | the loop panics exactly when some `TLSConfig` runs while the options before it have left the transport nil |
| ServerOptions.BuildFails | server/options.go:59-104 | `newOptions` panics exactly when some `TLSConfig` option runs while the transport is still nil: no earlier option set one, or the last one set it to nil |
| RpcOptions.NewOptions | server/rpc/options.go:12-57 | the result is the options applied in order and then defaulted, or the panic of a failing option |
| RpcOptions.DefaultsFilled | server/rpc/options.go:24-54 | with non-empty package defaults, no component and no identity string is left empty |
| RpcOptions.NoOptions | server/rpc/options.go:12-57 | without options, every component is built in, every string is the default, and the maps and wrapper lists are empty |
| PoolOptions.Options.constructor | util/pool/options.go:9-13 | the zero record: no transport, zero TTL, zero size |
| PoolOptions.Options.Apply | util/pool/options.go:17-32 | each option sets its own field and leaves the other two unchanged |
| PoolOptions.ApplyFrame | util/pool/options.go:17-32 | an option can change only the field it names |
| PoolOptions.Commute | util/pool/options.go:17-32 | options on different fields can be applied in either order |
| PoolOptions.SameFieldLastWins | util/pool/options.go:17-32 | of two options on the same field, the later one wins |
| PoolOptions.LastFor | util/pool/options.go:17-32 | the last option for a field is one of the options and names that field; there is none exactly when no option names it |
| PoolOptions.ApplyAllLastWins | util/pool/options.go:17-32 | after a list of options, each field holds the value of its last option, or its starting value |
| PoolOptions.ApplyAllSnoc | util/pool/options.go:17-32 | options are applied in list order |
| JaegerWrapper.CallName | trace/opentracing/jaeger/wrapper.go:67 | the operation name is the service, a '.', then the endpoint |
| JaegerWrapper.TopicNames | trace/opentracing/jaeger/wrapper.go:96 | publish and subscribe span names never collide, each ends in its topic, and distinct topics give distinct names |
| JaegerWrapper.ParentOf | trace/opentracing/jaeger/wrapper.go:39-46 | the parent is the context's span when there is one; otherwise it is whatever the tracer extracts from the metadata, and there is none when extraction fails |
| JaegerWrapper.MergeInjected | trace/opentracing/jaeger/wrapper.go:57-59 | the merged metadata holds the old keys plus the title-cased injected keys. Each title-cased key holds the value of some injected key with that title; when two injected keys have the same title, only one of their values survives, in either iteration order. Every other key keeps its value |
| JaegerWrapper.MergedKeepsOthers | trace/opentracing/jaeger/wrapper.go:57-59 | a key that no injected key turns into keeps its old value |
| JaegerWrapper.MergedOverwrites | trace/opentracing/jaeger/wrapper.go:57-59 | when title-casing keeps injected keys distinct, each injected value ends up under its title-cased key |
| JaegerWrapper.MergedUnique | trace/opentracing/jaeger/wrapper.go:57-59 | when title-casing keeps injected keys distinct, the merge result does not depend on map iteration order |
| JaegerWrapper.StartSpanFromContext | trace/opentracing/jaeger/wrapper.go:33-64 | starts the span under the found parent; when injection fails, that error is returned; otherwise the new context carries the span and the merged metadata |
| JaegerWrapper.Traced | trace/opentracing/jaeger/wrapper.go:66-108 | the wrapped call runs exactly when injection succeeds, with the span's context; its error is returned, logged and tagged, and the span is then finished |
| JaegerWrapper.FinishedIffCalled | trace/opentracing/jaeger/wrapper.go:71-76 | in the span events `Traced` records, the span is finished exactly when the wrapped call ran, and tagged as an error exactly when that call failed. `Traced` ensures these facts about its own events |
| JaegerWrapper.OtWrapper.Call | trace/opentracing/jaeger/wrapper.go:66-78 | `Call` runs the inner call inside a span named after the service and endpoint, and returns its error |
| JaegerWrapper.OtWrapper.Stream | trace/opentracing/jaeger/wrapper.go:80-93 | `Stream` returns the inner stream and error, recorded the same way; when injection fails it returns no stream and the error |
| JaegerWrapper.OtWrapper.Publish | trace/opentracing/jaeger/wrapper.go:95-108 | `Publish` runs the inner publish inside a producer span named "Pub to <topic>" |
| JaegerWrapper.TracerOr | trace/opentracing/jaeger/wrapper.go:111-118 | a given tracer is used; otherwise the global one |
| JaegerWrapper.ClientWrapper.constructor | trace/opentracing/jaeger/wrapper.go:111 | keeps the given tracer, which may be nil |
| JaegerWrapper.ClientWrapper.Wrap | trace/opentracing/jaeger/wrapper.go:111-118 | wraps the client with the given tracer or, when it is nil, the global one, and remembers that choice |
| JaegerWrapper.CallWrapper.constructor | trace/opentracing/jaeger/wrapper.go:121 | keeps the given tracer, which may be nil |
| JaegerWrapper.CallWrapper.Invoke | trace/opentracing/jaeger/wrapper.go:121-141 | runs the call function inside an RPC-client span named after the service and endpoint, and returns its error |
| JaegerWrapper.HandlerWrapper.constructor | trace/opentracing/jaeger/wrapper.go:144 | keeps the given tracer, which may be nil |
| JaegerWrapper.HandlerWrapper.Invoke | trace/opentracing/jaeger/wrapper.go:144-164 | runs the handler inside an RPC-server span named after the service and endpoint, and returns its error |
| JaegerWrapper.SubscriberWrapper.constructor | trace/opentracing/jaeger/wrapper.go:167 | keeps the given tracer, which may be nil |
| JaegerWrapper.SubscriberWrapper.Invoke | trace/opentracing/jaeger/wrapper.go:167-187 | runs the subscriber inside a consumer span named "Sub from <topic>", and returns its error |
| GrpcHandler.RecoveredKeepsValue | transport/grpc/handler.go:35 | the recovered error comes from "go.micro.transport" and carries the panic value |
| GrpcHandler.RecoveredInjective | transport/grpc/handler.go:35 | distinct panic values give distinct errors |
| GrpcHandler.GrpcTransportSocket.constructor | transport/grpc/handler.go:21-24 | the socket has the server's local address, no remote address, and is open |
| GrpcHandler.GrpcTransportSocket.Close | transport/grpc/handler.go:34 | the socket is closed and its addresses are kept |
| GrpcHandler.MicroTransport.constructor | transport/grpc/handler.go:14-17 | the transport has its address and socket function and has served nothing |
| GrpcHandler.MicroTransport.Stream | transport/grpc/handler.go:19-42 | a fresh socket with the local address and the peer's address (if known) is handed to the socket function. A normal return gives no error and leaves the socket as the socket function left it: `Stream` does not close it. A panic closes the socket and gives "panic recovered: <value>" |

## Left out

- The Nacos SDK itself: client creation, publish, search and get are function parameters of the operations that call them. Also left out: the mutexes, the `sync.Once`, the wait group, and the logger.
- `GetNacosConfiguration` (config/source/nacos/client.go:58-66), `Parser`/`SetParser`, and the field accessors (`Client`, `NacosClient`, `WaitGroup`, `GetDone`, `GetUrl`, `Done`). They only return or store a field, or build a parser.
- `AddListener` and `RemoveListener` (config/source/nacos/impl.go:91-99). They delegate to `addListener` and `removeListener`, whose listener code is not part of this model.
- The `HandleClientRestart` goroutine started by `newNacosDynamicConfiguration`. It needs concurrency.
- The `init` registrations (config/source/nacos/impl.go:61-63 and trace/opentracing/jaeger/wrapper.go:26-29). They only write into global registries.
- Nacos.GetParam: `common.URL` is not part of this model. A parameter is read as its stored value, and an empty or missing one as the default.
- Nacos.InitNacosConfigClient, Nacos.NewNacosClient, Nacos.ValidateNacosClient, Nacos.NewDynamicConfiguration: Go indexes the port segment `split[1]` (config/source/nacos/client.go:166-167) without a check, so an address without ':' panics with an index out of range. Examples are a location "127.0.0.1", an empty location, or a trailing comma. A `requires` (every address has a ':') excludes that case, and the panic is not modelled.
- Nacos.ValidateNacosClient: parsing the URL's timeout parameter (`time.ParseDuration`) is not modelled. The model takes the parse result as a parameter.
- Nacos.DynamicConfiguration.PublishConfig, GetRule, GetProperties, GetInternalProperty and GetConfigKeysByGroup require a client holding an SDK client, because Go dereferences it. The nil-pointer panic of the other case is not modelled.
- ServerOptions.Options.SetTLSConfig: the call `o.Transport.Init(transport.TLSConfig(t))` on a set transport is not modelled. Only the nil-dereference panic on a missing transport is.
- ServerOptions.Options.SetWait: the model records which wait group is used (the caller's, or a new one). It does not record which new group it is. Each `Wait(nil)` call builds its own closure. The first run of that closure stores the group it creates in the captured `wg` (server/options.go:264), and later runs of the same closure reuse it. The model does not capture that reuse.
- ServerOptions.Value: a nil and an empty metadata map are one value.
- JaegerWrapper.StartSpanFromContext: the extra `opts` parameter and the span's internals are left out, as are logging text and the `Error()` rendering. `ErrorLogged` records the error value. Go injects through the span's own tracer (`sp.Tracer().Inject`, trace/opentracing/jaeger/wrapper.go:53). The model injects through the tracer that started the span. The two agree when a span reports the tracer that started it, which the model assumes.
- JaegerWrapper.MergeInjected: the context's metadata is treated as a value. Aliasing of the map returned by `metadata.FromContext` is not modelled.
- GoStrings.Title: covers ASCII only. Every non-ASCII character is treated as a letter and left unchanged.
- GrpcHandler.MicroTransport.Stream: `debug.Stack()`, the logger and the gRPC stream are left out. A socket function is modelled by its outcome only: whether it closed the socket and returned, or panicked and with which value. Its other uses of the socket are not modelled.
- `store/store.go` is not part of this model.

The source has two behaviours that the model keeps as they are:
- When `Inject` fails, the started span is never finished.
- After `Close`, a `NacosClient` stays stopped.
