/** The functional-options builder of the server (server/options.go).

    An `Options` record starts from defaults, the caller's options are applied to it in
    order, and the fields still nil or empty afterwards get their defaults. Go options
    are closures over `*Options`; here each option constructor is a constructor of
    `ServerOption`, and `Options.Apply` performs what its closure does. `Value` is the
    record as a value, and `ApplySpec`/`ApplyAll`/`Build` say what the builder computes.
 */
module ServerOptions {

  import opened Common

  /** A `*sync.WaitGroup`: one the caller passed, or the one `Wait(nil)` allocates. */
  datatype WaitGroup = CallerGroup(id: nat) | NewGroup

  /** A `context.Context`, as far as the options touch it: nil, `context.Background()`,
      a context the caller supplied, or a parent extended with the "wait" value. */
  datatype GoContext =
    | NilContext
    | Background
    | CallerContext(id: nat)
    | WithWait(parent: GoContext, wg: WaitGroup)

  /** `ctx.Value("wait")` for the contexts the options build (a caller's own context is taken
      to carry no "wait" value). */
  function WaitGroupOf(ctx: GoContext): Option<WaitGroup>
  {
    match ctx
    case WithWait(_, wg) => Some(wg)
    case _ => None
  }

  /** The package-level defaults of the server package (`DefaultAddress`, `DefaultName`,
      `DefaultId`, `DefaultVersion`, `DefaultRegisterInterval`, `DefaultRegisterTTL`). */
  datatype Defaults = Defaults(
    address: string, name: string, id: string, version: string,
    registerInterval: int, registerTTL: int)

  /** `server.Options` as a value. Durations are nanosecond counts. */
  datatype Value = Value(
    codecs: map<string, Component>,
    broker: Component, registry: Component, trace: Component, auth: Component,
    transport: Component, metadata: map<string, string>,
    name: string, address: string, advertise: string, id: string, namespace: string, version: string,
    hdlrWrappers: seq<Component>, subWrappers: seq<Component>,
    registerCheck: Component, registerTTL: int, registerInterval: int,
    router: Component, tlsConfig: Component, context: GoContext)

  /** The option constructors of server/options.go. */
  datatype ServerOption =
    | Name(name: string)
    | Namespace(namespace: string)
    | Id(id: string)
    | Version(version: string)
    | Address(address: string)
    | Advertise(advertise: string)
    | Broker(broker: Component)
    | Codec(contentType: string, codec: Component)
    | Context(ctx: GoContext)
    | Registry(registry: Component)
    | Trace(trace: Component)
    | Auth(auth: Component)
    | Transport(transport: Component)
    | Metadata(metadata: map<string, string>)
    | RegisterCheck(check: Component)
    | RegisterTTL(ttl: int)
    | RegisterInterval(interval: int)
    | TLSConfig(tls: Component)
    | WithRouter(router: Component)
    | Wait(wg: Option<nat>)
    | WrapHandler(handlerWrapper: Component)
    | WrapSubscriber(subscriberWrapper: Component)

  /** The struct literal `newOptions` starts from: empty codec and metadata maps, the
      default registration timing, everything else zero. */
  function Initial(d: Defaults): (v: Value)
    ensures v.codecs == map[] && v.metadata == map[]
    ensures v.registerInterval == d.registerInterval && v.registerTTL == d.registerTTL
  {
    Value(map[], Nil, Nil, Nil, Nil, Nil, map[], "", "", "", "", "", "", [], [],
          Nil, d.registerTTL, d.registerInterval, Nil, Nil, NilContext)
  }

  /** What `o.Transport.Init(...)` on a nil transport does. */
  const NilDereference: Error := Panic("runtime error: invalid memory address or nil pointer dereference")

  /** The effect of one option's closure on the record. Only `TLSConfig` can fail: it calls
      `Init` on the transport, which panics while no transport has been set. */
  function ApplySpec(v: Value, opt: ServerOption): Result<Value>
  {
    match opt
    case Name(n) => Ok(v.(name := n))
    case Namespace(n) => Ok(v.(namespace := n))
    case Id(i) => Ok(v.(id := i))
    case Version(n) => Ok(v.(version := n))
    case Address(a) => Ok(v.(address := a))
    case Advertise(a) => Ok(v.(advertise := a))
    case Broker(b) => Ok(v.(broker := b))
    case Codec(ct, c) => Ok(v.(codecs := v.codecs[ct := c]))
    case Context(ctx) => Ok(v.(context := ctx))
    case Registry(r) => Ok(v.(registry := r))
    case Trace(t) => Ok(v.(trace := t))
    case Auth(a) => Ok(v.(auth := a))
    case Transport(t) => Ok(v.(transport := t))
    case Metadata(md) => Ok(v.(metadata := md))
    case RegisterCheck(fn) => Ok(v.(registerCheck := fn))
    case RegisterTTL(t) => Ok(v.(registerTTL := t))
    case RegisterInterval(t) => Ok(v.(registerInterval := t))
    case TLSConfig(t) => if v.transport == Nil then Err(NilDereference) else Ok(v.(tlsConfig := t))
    case WithRouter(r) => Ok(v.(router := r))
    case Wait(wg) =>
      var parent := if v.context == NilContext then Background else v.context;
      var group := if wg.None? then NewGroup else CallerGroup(wg.value);
      Ok(v.(context := WithWait(parent, group)))
    case WrapHandler(w) => Ok(v.(hdlrWrappers := v.hdlrWrappers + [w]))
    case WrapSubscriber(w) => Ok(v.(subWrappers := v.subWrappers + [w]))
  }

  /** The options applied in list order; the first failure stops the loop. */
  function ApplyAll(v: Value, opts: seq<ServerOption>): Result<Value>
    decreases |opts|
  {
    if opts == [] then Ok(v)
    else
      match ApplySpec(v, opts[0])
      case Err(e) => Err(e)
      case Ok(w) => ApplyAll(w, opts[1..])
  }

  /** The defaulting done after the options: nil components get the built-in ones, empty
      address, name, id and version get the package defaults. */
  function Defaulted(v: Value, d: Defaults): Value
  {
    v.(broker := if v.broker == Nil then Builtin else v.broker,
       registry := if v.registry == Nil then Builtin else v.registry,
       transport := if v.transport == Nil then Builtin else v.transport,
       registerCheck := if v.registerCheck == Nil then Builtin else v.registerCheck,
       address := if |v.address| == 0 then d.address else v.address,
       name := if |v.name| == 0 then d.name else v.name,
       id := if |v.id| == 0 then d.id else v.id,
       version := if |v.version| == 0 then d.version else v.version)
  }

  /** What `newOptions(opts...)` returns, or the panic it raises. */
  function Build(opts: seq<ServerOption>, d: Defaults): Result<Value>
  {
    match ApplyAll(Initial(d), opts)
    case Err(e) => Err(e)
    case Ok(v) => Ok(Defaulted(v, d))
  }

  /** `server.Options` as the record the option closures mutate. */
  class Options {
    var codecs: map<string, Component>
    var broker: Component
    var registry: Component
    var trace: Component
    var auth: Component
    var transport: Component
    var metadata: map<string, string>
    var name: string
    var address: string
    var advertise: string
    var id: string
    var namespace: string
    var version: string
    var hdlrWrappers: seq<Component>
    var subWrappers: seq<Component>
    var registerCheck: Component
    var registerTTL: int
    var registerInterval: int
    var router: Component
    var tlsConfig: Component
    var context: GoContext

    function Snapshot(): Value
      reads this
    {
      Value(codecs, broker, registry, trace, auth, transport, metadata,
            name, address, advertise, id, namespace, version, hdlrWrappers, subWrappers,
            registerCheck, registerTTL, registerInterval, router, tlsConfig, context)
    }

    constructor (d: Defaults)
      ensures Snapshot() == Initial(d)
    {
      codecs, metadata := map[], map[];
      broker, registry, trace, auth, transport := Nil, Nil, Nil, Nil, Nil;
      name, address, advertise, id, namespace, version := "", "", "", "", "", "";
      hdlrWrappers, subWrappers := [], [];
      registerCheck, router, tlsConfig := Nil, Nil, Nil;
      registerTTL, registerInterval := d.registerTTL, d.registerInterval;
      context := NilContext;
    }

    /** Runs the closure of `opt` on this record; a panic is reported as `err`. */
    method Apply(opt: ServerOption) returns (err: Option<Error>)
      modifies this
      ensures match ApplySpec(old(Snapshot()), opt)
              case Ok(w) => err == None && Snapshot() == w
              case Err(e) => err == Some(e) && opt.TLSConfig? && Snapshot() == old(Snapshot()).(tlsConfig := opt.tls)
    {
      err := None;
      if opt.TLSConfig? {
        err := SetTLSConfig(opt.tls);
      } else if opt.Wait? {
        SetWait(opt.wg);
      } else if opt.Name? || opt.Namespace? || opt.Id? || opt.Version? {
        ApplyNaming(opt);
      } else if opt.Address? || opt.Advertise? || opt.Metadata? || opt.Context? {
        ApplyAddressing(opt);
      } else if opt.Broker? || opt.Registry? || opt.Trace? || opt.Auth? {
        ApplyPlugins(opt);
      } else if opt.Transport? || opt.RegisterCheck? || opt.WithRouter? {
        ApplyServing(opt);
      } else if opt.Codec? || opt.RegisterTTL? || opt.RegisterInterval? {
        ApplyRegistration(opt);
      } else {
        ApplyWrappers(opt);
      }
    }

    method ApplyNaming(opt: ServerOption)
      requires opt.Name? || opt.Namespace? || opt.Id? || opt.Version?
      modifies this
      ensures Snapshot() == ApplySpec(old(Snapshot()), opt).value
    {
      match opt
      case Name(n) => SetName(n);
      case Namespace(n) => SetNamespace(n);
      case Id(i) => SetId(i);
      case Version(v) => SetVersion(v);
    }

    method ApplyAddressing(opt: ServerOption)
      requires opt.Address? || opt.Advertise? || opt.Metadata? || opt.Context?
      modifies this
      ensures Snapshot() == ApplySpec(old(Snapshot()), opt).value
    {
      match opt
      case Address(a) => SetAddress(a);
      case Advertise(a) => SetAdvertise(a);
      case Metadata(md) => SetMetadata(md);
      case Context(ctx) => SetContext(ctx);
    }

    method ApplyPlugins(opt: ServerOption)
      requires opt.Broker? || opt.Registry? || opt.Trace? || opt.Auth?
      modifies this
      ensures Snapshot() == ApplySpec(old(Snapshot()), opt).value
    {
      match opt
      case Broker(b) => SetBroker(b);
      case Registry(r) => SetRegistry(r);
      case Trace(t) => SetTrace(t);
      case Auth(a) => SetAuth(a);
    }

    method ApplyServing(opt: ServerOption)
      requires opt.Transport? || opt.RegisterCheck? || opt.WithRouter?
      modifies this
      ensures Snapshot() == ApplySpec(old(Snapshot()), opt).value
    {
      match opt
      case Transport(t) => SetTransport(t);
      case RegisterCheck(fn) => SetRegisterCheck(fn);
      case WithRouter(r) => SetRouter(r);
    }

    method ApplyRegistration(opt: ServerOption)
      requires opt.Codec? || opt.RegisterTTL? || opt.RegisterInterval?
      modifies this
      ensures Snapshot() == ApplySpec(old(Snapshot()), opt).value
    {
      match opt
      case Codec(ct, c) => SetCodec(ct, c);
      case RegisterTTL(t) => SetRegisterTTL(t);
      case RegisterInterval(t) => SetRegisterInterval(t);
    }

    method ApplyWrappers(opt: ServerOption)
      requires opt.WrapHandler? || opt.WrapSubscriber?
      modifies this
      ensures Snapshot() == ApplySpec(old(Snapshot()), opt).value
    {
      match opt
      case WrapHandler(w) => AddHandlerWrapper(w);
      case WrapSubscriber(w) => AddSubscriberWrapper(w);
    }

    /** The closure of `TLSConfig(t)`: stores the configuration, then initialises the
        transport with it, which dereferences a nil transport. */
    method SetTLSConfig(t: Component) returns (err: Option<Error>)
      modifies this
      ensures match ApplySpec(old(Snapshot()), TLSConfig(t))
              case Ok(w) => err == None && Snapshot() == w
              case Err(e) => err == Some(e) && Snapshot() == old(Snapshot()).(tlsConfig := t)
    {
      err := None;
      tlsConfig := t;
      if transport == Nil {
        err := Some(NilDereference);
      }
    }

    /** The closure of `Wait(wg)`: puts the wait group into the context, a nil context
        being replaced by `context.Background()` first. */
    method SetWait(wg: Option<nat>)
      modifies this
      ensures Snapshot() == ApplySpec(old(Snapshot()), Wait(wg)).value
    {
      if context == NilContext {
        context := Background;
      }
      var group := if wg.None? then NewGroup else CallerGroup(wg.value);
      context := WithWait(context, group);
    }

    /** The closure of `Name(n)`. */
    method SetName(n: string)
      modifies this
      ensures Snapshot() == old(Snapshot()).(name := n)
    {
      name := n;
    }

    /** The closure of `Namespace(n)`. */
    method SetNamespace(n: string)
      modifies this
      ensures Snapshot() == old(Snapshot()).(namespace := n)
    {
      namespace := n;
    }

    /** The closure of `Id(i)`. */
    method SetId(i: string)
      modifies this
      ensures Snapshot() == old(Snapshot()).(id := i)
    {
      id := i;
    }

    /** The closure of `Version(v)`. */
    method SetVersion(v: string)
      modifies this
      ensures Snapshot() == old(Snapshot()).(version := v)
    {
      version := v;
    }

    /** The closure of `Address(a)`. */
    method SetAddress(a: string)
      modifies this
      ensures Snapshot() == old(Snapshot()).(address := a)
    {
      address := a;
    }

    /** The closure of `Advertise(a)`. */
    method SetAdvertise(a: string)
      modifies this
      ensures Snapshot() == old(Snapshot()).(advertise := a)
    {
      advertise := a;
    }

    /** The closure of `Broker(b)`. */
    method SetBroker(b: Component)
      modifies this
      ensures Snapshot() == old(Snapshot()).(broker := b)
    {
      broker := b;
    }

    /** The closure of `Codec(contentType, c)`: one entry of the codec map. */
    method SetCodec(contentType: string, c: Component)
      modifies this
      ensures Snapshot() == old(Snapshot()).(codecs := old(codecs)[contentType := c])
    {
      codecs := codecs[contentType := c];
    }

    /** The closure of `Context(ctx)`. */
    method SetContext(ctx: GoContext)
      modifies this
      ensures Snapshot() == old(Snapshot()).(context := ctx)
    {
      context := ctx;
    }

    /** The closure of `Registry(r)`. */
    method SetRegistry(r: Component)
      modifies this
      ensures Snapshot() == old(Snapshot()).(registry := r)
    {
      registry := r;
    }

    /** The closure of `Trace(t)`. */
    method SetTrace(t: Component)
      modifies this
      ensures Snapshot() == old(Snapshot()).(trace := t)
    {
      trace := t;
    }

    /** The closure of `Auth(a)`. */
    method SetAuth(a: Component)
      modifies this
      ensures Snapshot() == old(Snapshot()).(auth := a)
    {
      auth := a;
    }

    /** The closure of `Transport(t)`. */
    method SetTransport(t: Component)
      modifies this
      ensures Snapshot() == old(Snapshot()).(transport := t)
    {
      transport := t;
    }

    /** The closure of `Metadata(md)`. */
    method SetMetadata(md: map<string, string>)
      modifies this
      ensures Snapshot() == old(Snapshot()).(metadata := md)
    {
      metadata := md;
    }

    /** The closure of `RegisterCheck(fn)`. */
    method SetRegisterCheck(fn: Component)
      modifies this
      ensures Snapshot() == old(Snapshot()).(registerCheck := fn)
    {
      registerCheck := fn;
    }

    /** The closure of `RegisterTTL(t)`. */
    method SetRegisterTTL(t: int)
      modifies this
      ensures Snapshot() == old(Snapshot()).(registerTTL := t)
    {
      registerTTL := t;
    }

    /** The closure of `RegisterInterval(t)`. */
    method SetRegisterInterval(t: int)
      modifies this
      ensures Snapshot() == old(Snapshot()).(registerInterval := t)
    {
      registerInterval := t;
    }

    /** The closure of `WithRouter(r)`. */
    method SetRouter(r: Component)
      modifies this
      ensures Snapshot() == old(Snapshot()).(router := r)
    {
      router := r;
    }

    /** The closure of `WrapHandler(w)`: appends to the handler wrappers. */
    method AddHandlerWrapper(w: Component)
      modifies this
      ensures Snapshot() == old(Snapshot()).(hdlrWrappers := old(hdlrWrappers) + [w])
    {
      hdlrWrappers := hdlrWrappers + [w];
    }

    /** The closure of `WrapSubscriber(w)`: appends to the subscriber wrappers. */
    method AddSubscriberWrapper(w: Component)
      modifies this
      ensures Snapshot() == old(Snapshot()).(subWrappers := old(subWrappers) + [w])
    {
      subWrappers := subWrappers + [w];
    }

    /** The defaulting at the end of `newOptions`: nil components get the built-in ones,
        empty strings the package defaults. */
    method ApplyDefaults(d: Defaults)
      modifies this
      ensures Snapshot() == Defaulted(old(Snapshot()), d)
    {
      DefaultBroker();
      DefaultRegistry();
      DefaultTransport();
      DefaultRegisterCheck();
      DefaultAddress(d);
      DefaultName(d);
      DefaultId(d);
      DefaultVersion(d);
    }

    method DefaultBroker()
      modifies this
      ensures Snapshot() == old(Snapshot()).(broker := if old(broker) == Nil then Builtin else old(broker))
    {
      if broker == Nil {
        broker := Builtin;
      }
    }

    method DefaultRegistry()
      modifies this
      ensures Snapshot() == old(Snapshot()).(registry := if old(registry) == Nil then Builtin else old(registry))
    {
      if registry == Nil {
        registry := Builtin;
      }
    }

    method DefaultTransport()
      modifies this
      ensures Snapshot() == old(Snapshot()).(transport := if old(transport) == Nil then Builtin else old(transport))
    {
      if transport == Nil {
        transport := Builtin;
      }
    }

    method DefaultRegisterCheck()
      modifies this
      ensures Snapshot() == old(Snapshot()).(registerCheck := if old(registerCheck) == Nil then Builtin else old(registerCheck))
    {
      if registerCheck == Nil {
        registerCheck := Builtin;
      }
    }

    method DefaultAddress(d: Defaults)
      modifies this
      ensures Snapshot() == old(Snapshot()).(address := if |old(address)| == 0 then d.address else old(address))
    {
      if |address| == 0 {
        address := d.address;
      }
    }

    method DefaultName(d: Defaults)
      modifies this
      ensures Snapshot() == old(Snapshot()).(name := if |old(name)| == 0 then d.name else old(name))
    {
      if |name| == 0 {
        name := d.name;
      }
    }

    method DefaultId(d: Defaults)
      modifies this
      ensures Snapshot() == old(Snapshot()).(id := if |old(id)| == 0 then d.id else old(id))
    {
      if |id| == 0 {
        id := d.id;
      }
    }

    method DefaultVersion(d: Defaults)
      modifies this
      ensures Snapshot() == old(Snapshot()).(version := if |old(version)| == 0 then d.version else old(version))
    {
      if |version| == 0 {
        version := d.version;
      }
    }
  }

  /** `newOptions`: applies every option in order, then defaults what is still unset.
      `err` is the panic of an option, which in Go escapes `newOptions`. */
  method NewOptions(opts: seq<ServerOption>, d: Defaults) returns (o: Options, err: Option<Error>)
    ensures fresh(o)
    ensures match Build(opts, d)
            case Ok(v) => err == None && o.Snapshot() == v
            case Err(e) => err == Some(e)
  {
    o := new Options(d);
    var i := 0;
    while i < |opts|
      invariant 0 <= i <= |opts|
      invariant ApplyAll(Initial(d), opts) == ApplyAll(o.Snapshot(), opts[i..])
    {
      assert opts[i..][1..] == opts[i + 1..];
      err := o.Apply(opts[i]);
      if err.Some? {
        return;
      }
      i := i + 1;
    }
    o.ApplyDefaults(d);
    err := None;
  }

  // ---------------------------------------------------------------------------
  // Properties of the builder

  /** The single-valued fields each set by one option constructor. */
  datatype Field =
    | BrokerF | RegistryF | TraceF | AuthF | TransportF | MetadataF
    | NameF | AddressF | AdvertiseF | IdF | NamespaceF | VersionF
    | RegisterCheckF | RegisterTTLF | RegisterIntervalF | RouterF | TLSConfigF

  datatype FieldValue = Str(s: string) | Comp(c: Component) | Dur(d: int) | Dict(m: map<string, string>)

  function Get(v: Value, f: Field): FieldValue
  {
    match f
    case BrokerF => Comp(v.broker)
    case RegistryF => Comp(v.registry)
    case TraceF => Comp(v.trace)
    case AuthF => Comp(v.auth)
    case TransportF => Comp(v.transport)
    case MetadataF => Dict(v.metadata)
    case NameF => Str(v.name)
    case AddressF => Str(v.address)
    case AdvertiseF => Str(v.advertise)
    case IdF => Str(v.id)
    case NamespaceF => Str(v.namespace)
    case VersionF => Str(v.version)
    case RegisterCheckF => Comp(v.registerCheck)
    case RegisterTTLF => Dur(v.registerTTL)
    case RegisterIntervalF => Dur(v.registerInterval)
    case RouterF => Comp(v.router)
    case TLSConfigF => Comp(v.tlsConfig)
  }

  datatype Assignment = Assignment(field: Field, value: FieldValue)

  /** The field an option sets and the value it stores there, for the plain setters. */
  function Sets(opt: ServerOption): Option<Assignment>
  {
    match opt
    case Name(n) => Some(Assignment(NameF, Str(n)))
    case Namespace(n) => Some(Assignment(NamespaceF, Str(n)))
    case Id(i) => Some(Assignment(IdF, Str(i)))
    case Version(n) => Some(Assignment(VersionF, Str(n)))
    case Address(a) => Some(Assignment(AddressF, Str(a)))
    case Advertise(a) => Some(Assignment(AdvertiseF, Str(a)))
    case Broker(b) => Some(Assignment(BrokerF, Comp(b)))
    case Registry(r) => Some(Assignment(RegistryF, Comp(r)))
    case Trace(t) => Some(Assignment(TraceF, Comp(t)))
    case Auth(a) => Some(Assignment(AuthF, Comp(a)))
    case Transport(t) => Some(Assignment(TransportF, Comp(t)))
    case Metadata(md) => Some(Assignment(MetadataF, Dict(md)))
    case RegisterCheck(fn) => Some(Assignment(RegisterCheckF, Comp(fn)))
    case RegisterTTL(t) => Some(Assignment(RegisterTTLF, Dur(t)))
    case RegisterInterval(t) => Some(Assignment(RegisterIntervalF, Dur(t)))
    case TLSConfig(t) => Some(Assignment(TLSConfigF, Comp(t)))
    case WithRouter(r) => Some(Assignment(RouterF, Comp(r)))
    case _ => None
  }

  /** The value a field holds after a list of options: that of the last option setting
      it, or `init` when none does. */
  function LastSet(opts: seq<ServerOption>, f: Field, init: FieldValue): FieldValue
    decreases |opts|
  {
    if opts == [] then init
    else
      var last := opts[|opts| - 1];
      if Sets(last).Some? && Sets(last).value.field == f then Sets(last).value.value
      else LastSet(opts[..|opts| - 1], f, init)
  }

  /** One option changes the field it sets, to the value it carries, and no other field. */
  lemma ApplyFrame(v: Value, opt: ServerOption, f: Field)
    requires ApplySpec(v, opt).Ok?
    ensures Get(ApplySpec(v, opt).value, f) ==
      if Sets(opt).Some? && Sets(opt).value.field == f then Sets(opt).value.value else Get(v, f)
  {
    if opt.Name? || opt.Namespace? || opt.Id? || opt.Version? || opt.Address? || opt.Advertise? {
      IdentityFrame(v, opt, f);
    } else if opt.Broker? || opt.Registry? || opt.Trace? || opt.Auth? {
      PluginFrame(v, opt, f);
    } else if opt.Transport? || opt.RegisterCheck? || opt.WithRouter? {
      ServingFrame(v, opt, f);
    } else if Sets(opt).Some? {
      RegistrationFrame(v, opt, f);
    }
  }

  lemma IdentityFrame(v: Value, opt: ServerOption, f: Field)
    requires opt.Name? || opt.Namespace? || opt.Id? || opt.Version? || opt.Address? || opt.Advertise?
    ensures Get(ApplySpec(v, opt).value, f) == if Sets(opt).value.field == f then Sets(opt).value.value else Get(v, f)
  {
  }

  lemma PluginFrame(v: Value, opt: ServerOption, f: Field)
    requires opt.Broker? || opt.Registry? || opt.Trace? || opt.Auth?
    ensures Get(ApplySpec(v, opt).value, f) == if Sets(opt).value.field == f then Sets(opt).value.value else Get(v, f)
  {
  }

  lemma ServingFrame(v: Value, opt: ServerOption, f: Field)
    requires opt.Transport? || opt.RegisterCheck? || opt.WithRouter?
    ensures Get(ApplySpec(v, opt).value, f) == if Sets(opt).value.field == f then Sets(opt).value.value else Get(v, f)
  {
  }

  lemma RegistrationFrame(v: Value, opt: ServerOption, f: Field)
    requires opt.Metadata? || opt.RegisterTTL? || opt.RegisterInterval? || opt.TLSConfig?
    requires ApplySpec(v, opt).Ok?
    ensures Get(ApplySpec(v, opt).value, f) == if Sets(opt).value.field == f then Sets(opt).value.value else Get(v, f)
  {
  }

  /** `WrapHandler` appends to the handler wrappers and leaves the subscriber wrappers
      (and every field) alone; `WrapSubscriber` the other way round. */
  lemma WrapAppends(v: Value, w: Component)
    ensures ApplySpec(v, WrapHandler(w)) == Ok(v.(hdlrWrappers := v.hdlrWrappers + [w]))
    ensures ApplySpec(v, WrapSubscriber(w)) == Ok(v.(subWrappers := v.subWrappers + [w]))
  {
  }

  /** `Codec(ct, c)` stores `c` under `ct` and keeps every other content type's codec. */
  lemma CodecSetsOneKey(v: Value, ct: string, c: Component)
    ensures ApplySpec(v, Codec(ct, c)).Ok?
    ensures var w := ApplySpec(v, Codec(ct, c)).value;
      && w.codecs.Keys == v.codecs.Keys + {ct} && w.codecs[ct] == c
      && (forall k :: k in v.codecs && k != ct ==> w.codecs[k] == v.codecs[k])
      && w.(codecs := v.codecs) == v
  {
  }

  /** `Wait(wg)` always leaves a "wait" group in a non-nil context: the caller's group, or
      a new one for nil; a nil context is first replaced by `Background`. */
  lemma WaitLeavesGroup(v: Value, wg: Option<nat>)
    ensures ApplySpec(v, Wait(wg)).Ok?
    ensures var ctx := ApplySpec(v, Wait(wg)).value.context;
      && ctx != NilContext
      && WaitGroupOf(ctx) == Some(if wg.None? then NewGroup else CallerGroup(wg.value))
      && ctx.parent == (if v.context == NilContext then Background else v.context)
  {
  }

  /** `TLSConfig` panics exactly when no transport has been set yet. */
  lemma TLSConfigNeedsTransport(v: Value, t: Component)
    ensures ApplySpec(v, TLSConfig(t)).Err? <==> v.transport == Nil
  {
  }

  /** Applying a concatenation applies the first list, then the second: later options see,
      and may overwrite, what earlier ones did. */
  lemma {:induction false} ApplyAllConcat(v: Value, a: seq<ServerOption>, b: seq<ServerOption>)
    ensures ApplyAll(v, a + b) == match ApplyAll(v, a) case Err(e) => Err(e) case Ok(w) => ApplyAll(w, b)
    decreases |a|
  {
    if a == [] {
      assert a + b == b;
    } else {
      assert (a + b)[0] == a[0];
      assert (a + b)[1..] == a[1..] + b;
      match ApplySpec(v, a[0])
      case Err(e) =>
      case Ok(w) => ApplyAllConcat(w, a[1..], b);
    }
  }

  /** Applying a list with one more option at the end runs that option on the result. */
  lemma ApplyAllSnoc(v: Value, init: seq<ServerOption>, last: ServerOption)
    requires init + [last] != []
    ensures var opts := init + [last];
      opts[..|opts| - 1] == init && opts[|opts| - 1] == last
    ensures ApplyAll(v, init + [last]) ==
      match ApplyAll(v, init) case Err(e) => Err(e) case Ok(w) => ApplySpec(w, last)
  {
    ApplyAllConcat(v, init, [last]);
    var opts := init + [last];
    assert opts[..|opts| - 1] == init;
    forall w ensures ApplyAll(w, [last]) == ApplySpec(w, last) {
      assert [last][1..] == [];
    }
  }

  /** After the options run without failure, every single-valued field holds the value of
      the last option setting it, or its starting value: the last option wins. */
  lemma {:induction false} ApplyAllLastWins(v: Value, opts: seq<ServerOption>, f: Field)
    requires ApplyAll(v, opts).Ok?
    ensures Get(ApplyAll(v, opts).value, f) == LastSet(opts, f, Get(v, f))
    decreases |opts|
  {
    if opts != [] {
      var init := opts[..|opts| - 1];
      var last := opts[|opts| - 1];
      assert opts == init + [last];
      ApplyAllSnoc(v, init, last);
      ApplyAllLastWins(v, init, f);
      ApplyFrame(ApplyAll(v, init).value, last, f);
    }
  }

  /** The handler wrappers registered by a list of options, in registration order. */
  function HandlerWrappersOf(opts: seq<ServerOption>): seq<Component>
    decreases |opts|
  {
    if opts == [] then []
    else HandlerWrappersOf(opts[..|opts| - 1]) + (if opts[|opts| - 1].WrapHandler? then [opts[|opts| - 1].handlerWrapper] else [])
  }

  /** The subscriber wrappers registered by a list of options, in registration order. */
  function SubscriberWrappersOf(opts: seq<ServerOption>): seq<Component>
    decreases |opts|
  {
    if opts == [] then []
    else SubscriberWrappersOf(opts[..|opts| - 1]) + (if opts[|opts| - 1].WrapSubscriber? then [opts[|opts| - 1].subscriberWrapper] else [])
  }

  /** One option's effect on the wrapper lists. */
  lemma StepWrappers(v: Value, opt: ServerOption)
    requires ApplySpec(v, opt).Ok?
    ensures ApplySpec(v, opt).value.hdlrWrappers == v.hdlrWrappers + HandlerWrappersOf([opt])
    ensures ApplySpec(v, opt).value.subWrappers == v.subWrappers + SubscriberWrappersOf([opt])
  {
    assert [opt][..0] == [];
  }

  /** The wrapper lists grow by appending: after the options they hold exactly the
      registered wrappers, in registration order. */
  lemma {:induction false} ApplyAllWrappers(v: Value, opts: seq<ServerOption>)
    requires ApplyAll(v, opts).Ok?
    ensures ApplyAll(v, opts).value.hdlrWrappers == v.hdlrWrappers + HandlerWrappersOf(opts)
    ensures ApplyAll(v, opts).value.subWrappers == v.subWrappers + SubscriberWrappersOf(opts)
    decreases |opts|
  {
    if opts != [] {
      var init := opts[..|opts| - 1];
      var last := opts[|opts| - 1];
      assert opts == init + [last];
      ApplyAllSnoc(v, init, last);
      ApplyAllWrappers(v, init);
      var w := ApplyAll(v, init).value;
      StepWrappers(w, last);
      assert [last][..0] == [];
    }
  }

  /** The codec registered for a content type by a list of options: that of the last
      `Codec` option naming it. */
  function CodecFor(opts: seq<ServerOption>, ct: string): Option<Component>
    decreases |opts|
  {
    if opts == [] then None
    else if opts[|opts| - 1].Codec? && opts[|opts| - 1].contentType == ct then Some(opts[|opts| - 1].codec)
    else CodecFor(opts[..|opts| - 1], ct)
  }

  /** One option's effect on the codec map. */
  lemma StepCodecs(v: Value, opt: ServerOption)
    requires ApplySpec(v, opt).Ok?
    ensures ApplySpec(v, opt).value.codecs == if opt.Codec? then v.codecs[opt.contentType := opt.codec] else v.codecs
  {
  }

  /** After the options, a content type has a codec exactly when it was registered at the
      start or by some `Codec` option, and the last registration wins. */
  lemma {:induction false} ApplyAllCodecs(v: Value, opts: seq<ServerOption>, ct: string)
    requires ApplyAll(v, opts).Ok?
    ensures var codecs := ApplyAll(v, opts).value.codecs;
      match CodecFor(opts, ct)
      case Some(c) => ct in codecs && codecs[ct] == c
      case None => (ct in codecs <==> ct in v.codecs) && (ct in codecs ==> codecs[ct] == v.codecs[ct])
    decreases |opts|
  {
    if opts != [] {
      var init := opts[..|opts| - 1];
      var last := opts[|opts| - 1];
      assert opts == init + [last];
      ApplyAllSnoc(v, init, last);
      ApplyAllCodecs(v, init, ct);
      StepCodecs(ApplyAll(v, init).value, last);
    }
  }

  /** The starting value of a field, as the defaults record gives it. */
  function InitialField(d: Defaults, f: Field): FieldValue
  {
    Get(Initial(d), f)
  }

  /** How the defaulting step treats the value a field has after the options. */
  function DefaultedField(f: Field, x: FieldValue, d: Defaults): FieldValue
  {
    match f
    case BrokerF | RegistryF | TransportF | RegisterCheckF => if x == Comp(Nil) then Comp(Builtin) else x
    case AddressF => if x == Str("") then Str(d.address) else x
    case NameF => if x == Str("") then Str(d.name) else x
    case IdF => if x == Str("") then Str(d.id) else x
    case VersionF => if x == Str("") then Str(d.version) else x
    case _ => x
  }

  /** Every single-valued field of `newOptions`'s result is the last value an option gave
      it (or its starting value), passed through the defaulting of that field. */
  lemma BuildField(opts: seq<ServerOption>, d: Defaults, f: Field)
    requires Build(opts, d).Ok?
    ensures Get(Build(opts, d).value, f) == DefaultedField(f, LastSet(opts, f, InitialField(d, f)), d)
  {
    ApplyAllLastWins(Initial(d), opts, f);
  }

  /** After `newOptions` the broker, registry, transport and registration check are never
      nil, and a non-nil one the caller supplied is kept. */
  lemma BuildComponents(opts: seq<ServerOption>, d: Defaults, f: Field)
    requires Build(opts, d).Ok?
    requires f in {BrokerF, RegistryF, TransportF, RegisterCheckF}
    ensures Get(Build(opts, d).value, f) != Comp(Nil)
    ensures LastSet(opts, f, Comp(Nil)) != Comp(Nil) ==> Get(Build(opts, d).value, f) == LastSet(opts, f, Comp(Nil))
  {
    BuildField(opts, d, f);
  }

  /** After `newOptions` an empty address, name, id or version is the package default and
      a non-empty value from the options is kept. */
  lemma BuildStrings(opts: seq<ServerOption>, d: Defaults, f: Field)
    requires Build(opts, d).Ok?
    requires f in {AddressF, NameF, IdF, VersionF}
    ensures var given := LastSet(opts, f, Str(""));
      Get(Build(opts, d).value, f) == (if given == Str("") then InitialDefault(d, f) else given)
  {
    BuildField(opts, d, f);
  }

  function InitialDefault(d: Defaults, f: Field): FieldValue
  {
    match f
    case AddressF => Str(d.address)
    case NameF => Str(d.name)
    case IdF => Str(d.id)
    case VersionF => Str(d.version)
    case _ => Str("")
  }

  /** The registration TTL and interval are the defaults unless an option sets them, and
      they are not defaulted afterwards: an explicit zero stays zero. */
  lemma BuildRegisterTimes(opts: seq<ServerOption>, d: Defaults)
    requires Build(opts, d).Ok?
    ensures Dur(Build(opts, d).value.registerTTL) == LastSet(opts, RegisterTTLF, Dur(d.registerTTL))
    ensures Dur(Build(opts, d).value.registerInterval) == LastSet(opts, RegisterIntervalF, Dur(d.registerInterval))
  {
    BuildField(opts, d, RegisterTTLF);
    BuildField(opts, d, RegisterIntervalF);
  }

  lemma ExplicitZeroTTL(d: Defaults)
    ensures Build([RegisterTTL(0)], d).Ok? && Build([RegisterTTL(0)], d).value.registerTTL == 0
  {
    assert ApplyAll(Initial(d), [RegisterTTL(0)]) == ApplyAll(Initial(d).(registerTTL := 0), []);
  }

  /** `newOptions` panics exactly when some `TLSConfig` option runs while the options
      before it have left the transport nil. */
  lemma {:induction false} ApplyAllFails(v: Value, opts: seq<ServerOption>)
    ensures ApplyAll(v, opts).Err? <==>
      exists i :: 0 <= i < |opts| && opts[i].TLSConfig? && LastSet(opts[..i], TransportF, Comp(v.transport)) == Comp(Nil)
    decreases |opts|
  {
    if opts != [] {
      var o := opts[0];
      var rest := opts[1..];
      assert opts[..0] == [];
      if o.TLSConfig? && v.transport == Nil {
        assert LastSet(opts[..0], TransportF, Comp(v.transport)) == Comp(Nil);
      } else {
        var w := ApplySpec(v, o).value;
        ApplyAllFails(w, rest);
        forall j | 0 <= j < |rest|
          ensures LastSet(opts[..j + 1], TransportF, Comp(v.transport)) == LastSet(rest[..j], TransportF, Comp(w.transport))
        {
          TransportAfterFirst(v, opts, j);
        }
        if exists i :: 0 <= i < |opts| && opts[i].TLSConfig? && LastSet(opts[..i], TransportF, Comp(v.transport)) == Comp(Nil) {
          var i :| 0 <= i < |opts| && opts[i].TLSConfig? && LastSet(opts[..i], TransportF, Comp(v.transport)) == Comp(Nil);
          assert i != 0;
          assert rest[i - 1].TLSConfig?;
        }
        if exists j :: 0 <= j < |rest| && rest[j].TLSConfig? && LastSet(rest[..j], TransportF, Comp(w.transport)) == Comp(Nil) {
          var j :| 0 <= j < |rest| && rest[j].TLSConfig? && LastSet(rest[..j], TransportF, Comp(w.transport)) == Comp(Nil);
          assert opts[j + 1].TLSConfig?;
        }
      }
    }
  }

  /** The transport after the first `j + 1` options is the one the first option leaves,
      updated by the next `j`. */
  lemma TransportAfterFirst(v: Value, opts: seq<ServerOption>, j: nat)
    requires j < |opts| - 1 && ApplySpec(v, opts[0]).Ok?
    ensures LastSet(opts[..j + 1], TransportF, Comp(v.transport)) ==
      LastSet(opts[1..][..j], TransportF, Comp(ApplySpec(v, opts[0]).value.transport))
  {
    assert opts[..j + 1] == [opts[0]] + opts[1..][..j];
    LastSetCons(opts[0], opts[1..][..j], TransportF, Comp(v.transport));
    ApplyFrame(v, opts[0], TransportF);
  }

  /** `LastSet` read from the front: the first option only matters when no later one sets the field. */
  lemma {:induction false} LastSetCons(o: ServerOption, rest: seq<ServerOption>, f: Field, init: FieldValue)
    ensures LastSet([o] + rest, f, init) ==
      LastSet(rest, f, if Sets(o).Some? && Sets(o).value.field == f then Sets(o).value.value else init)
    decreases |rest|
  {
    if rest != [] {
      assert ([o] + rest)[..|[o] + rest| - 1] == [o] + rest[..|rest| - 1];
      LastSetCons(o, rest[..|rest| - 1], f, init);
    } else {
      assert [o][..0] == [];
    }
  }

  lemma BuildFails(opts: seq<ServerOption>, d: Defaults)
    ensures Build(opts, d).Err? <==>
      exists i :: 0 <= i < |opts| && opts[i].TLSConfig? && LastSet(opts[..i], TransportF, Comp(Nil)) == Comp(Nil)
  {
    ApplyAllFails(Initial(d), opts);
  }
}
