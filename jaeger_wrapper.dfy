/** The tracing middleware of trace/opentracing/jaeger/wrapper.go.

    `StartSpanFromContext` starts a span for an operation, as a child of the span already
    in the context or else of the one carried in the incoming metadata, and injects the
    new span into the outgoing metadata. The wrappers run a client call, stream or
    publish, a call function, a server handler or a subscriber inside such a span.

    The tracer and the span belong to the opentracing library, so a `Tracer` is given by
    what its `Extract`, `StartSpan` and `Inject` return, and a wrapper reports the calls
    it makes on its span as a list of `SpanEvent`s. The wrapped client or handler is a
    function from the context it receives to its result.
 */
module JaegerWrapper {

  import opened Common
  import opened GoStrings

  type Metadata = map<string, string>

  /** The identity of a span, as `Span.Context()` gives it. */
  datatype SpanContext = SpanContext(id: nat)

  /** An opentracing tracer, by what its three operations return. `extract` reads a span
      from a text-map carrier, `start` starts a span with an optional parent, `inject`
      writes a span into a fresh text-map carrier. `id` tells tracers apart. */
  datatype Tracer = Tracer(
    id: nat,
    extract: Metadata -> Result<SpanContext>,
    start: (string, Option<SpanContext>) -> SpanContext,
    inject: SpanContext -> Result<Metadata>)

  /** A `context.Context` as the wrappers see it: the span stored in it by
      `opentracing.ContextWithSpan`, and the go-micro metadata stored in it. */
  datatype Ctx = Ctx(span: Option<SpanContext>, md: Option<Metadata>)

  datatype SpanKind = Producer | RPCClient | RPCServer | Consumer

  /** The calls a wrapper makes on the span it started. */
  datatype SpanEvent =
    | Started(operation: string, parent: Option<SpanContext>, span: SpanContext)
    | KindSet(kind: SpanKind)
    | ErrorLogged(err: Error)
    | ErrorTagged
    | Finished

  datatype Request = Request(service: string, endpoint: string)

  /** The operation name of a call, stream or handler: `"<service>.<endpoint>"`. */
  function CallName(req: Request): (r: string)
    ensures |r| == |req.service| + 1 + |req.endpoint|
    ensures r[..|req.service|] == req.service && r[|req.service|] == '.' && r[|req.service| + 1..] == req.endpoint
  {
    req.service + "." + req.endpoint
  }

  function PublishName(topic: string): string
  {
    "Pub to " + topic
  }

  function SubscribeName(topic: string): string
  {
    "Sub from " + topic
  }

  /** The operation names tell the kind of traffic apart: a publish and a subscription
      never share a name, and the topic can be read back from either. */
  lemma TopicNames(topic: string, other: string)
    ensures PublishName(topic) != SubscribeName(other)
    ensures PublishName(topic)[|"Pub to "|..] == topic
    ensures SubscribeName(topic)[|"Sub from "|..] == topic
    ensures PublishName(topic) == PublishName(other) <==> topic == other
    ensures SubscribeName(topic) == SubscribeName(other) <==> topic == other
  {
    assert PublishName(topic)[0] == 'P' && SubscribeName(other)[0] == 'S';
    if PublishName(topic) == PublishName(other) {
      assert PublishName(topic)[|"Pub to "|..] == topic;
      assert PublishName(other)[|"Pub to "|..] == other;
    }
    if SubscribeName(topic) == SubscribeName(other) {
      assert SubscribeName(topic)[|"Sub from "|..] == topic;
      assert SubscribeName(other)[|"Sub from "|..] == other;
    }
  }

  /** The incoming metadata, or a new empty map when the context has none. */
  function MetadataOf(ctx: Ctx): Metadata
  {
    if ctx.md.Some? then ctx.md.value else map[]
  }

  /** The parent of the new span: the span in the context when there is one; otherwise
      the span extracted from the metadata, or none when extraction fails. */
  function ParentOf(ctx: Ctx, tracer: Tracer): (r: Option<SpanContext>)
    ensures ctx.span.Some? ==> r == ctx.span
    ensures ctx.span.None? ==> (r.Some? <==> tracer.extract(MetadataOf(ctx)).Ok?)
    ensures ctx.span.None? && r.Some? ==> r.value == tracer.extract(MetadataOf(ctx)).value
  {
    if ctx.span.Some? then ctx.span
    else match tracer.extract(MetadataOf(ctx))
      case Ok(sc) => Some(sc)
      case Err(_) => None
  }

  /** The keys `strings.Title` makes of a set of keys. */
  function TitledKeys(keys: set<string>): set<string>
  {
    set k | k in keys :: Title(k)
  }

  /** `out` is `md` after `md.Set(strings.Title(k), v)` for each pair of `nmd` whose key is
      in `done`, in some order: `out` has the keys of `md` and the titled keys, a titled
      key holds the value of one of the injected keys it comes from, and every other key
      keeps its value. */
  ghost predicate MergedSome(md: Metadata, nmd: Metadata, done: set<string>, out: Metadata)
    requires done <= nmd.Keys
  {
    && out.Keys == md.Keys + TitledKeys(done)
    && (forall key :: key in out && key !in TitledKeys(done) ==> out[key] == md[key])
    && (forall key :: key in TitledKeys(done) ==> exists k :: k in done && Title(k) == key && out[key] == nmd[k])
  }

  /** The outgoing metadata: the incoming one with every injected pair copied in under its
      titled key. */
  ghost predicate Merged(md: Metadata, nmd: Metadata, out: Metadata)
  {
    MergedSome(md, nmd, nmd.Keys, out)
  }

  /** The loop of `StartSpanFromContext` copying the injected pairs into the metadata. Go
      ranges over a map in no fixed order, so the pair is picked arbitrarily. */
  method MergeInjected(md: Metadata, nmd: Metadata) returns (out: Metadata)
    ensures Merged(md, nmd, out)
  {
    out := md;
    var todo := nmd.Keys;
    while todo != {}
      invariant todo <= nmd.Keys
      invariant MergedSome(md, nmd, nmd.Keys - todo, out)
      decreases |todo|
    {
      var k :| k in todo;
      MergeStep(md, nmd, nmd.Keys - todo, out, k);
      out := out[Title(k) := nmd[k]];
      assert nmd.Keys - (todo - {k}) == (nmd.Keys - todo) + {k};
      todo := todo - {k};
    }
    assert nmd.Keys - todo == nmd.Keys;
  }

  lemma TitledKeysAdd(done: set<string>, k: string)
    ensures TitledKeys(done + {k}) == TitledKeys(done) + {Title(k)}
  {
    forall key | key in TitledKeys(done + {k})
      ensures key in TitledKeys(done) + {Title(k)}
    {
      var j :| j in done + {k} && Title(j) == key;
      if j != k {
        assert j in done;
      }
    }
  }

  /** One turn of the loop: copying the pair of one more injected key keeps the merge
      relation. */
  lemma MergeStep(md: Metadata, nmd: Metadata, done: set<string>, out: Metadata, k: string)
    requires done <= nmd.Keys && k in nmd && k !in done
    requires MergedSome(md, nmd, done, out)
    ensures MergedSome(md, nmd, done + {k}, out[Title(k) := nmd[k]])
  {
    TitledKeysAdd(done, k);
    MergeStepKeeps(md, nmd, done, out, k);
    MergeStepCopies(md, nmd, done, out, k);
  }

  lemma MergeStepKeeps(md: Metadata, nmd: Metadata, done: set<string>, out: Metadata, k: string)
    requires done <= nmd.Keys && k in nmd && k !in done
    requires MergedSome(md, nmd, done, out)
    ensures var next := out[Title(k) := nmd[k]];
      && next.Keys == md.Keys + TitledKeys(done + {k})
      && (forall key :: key in next && key !in TitledKeys(done + {k}) ==> next[key] == md[key])
  {
    TitledKeysAdd(done, k);
  }

  lemma MergeStepCopies(md: Metadata, nmd: Metadata, done: set<string>, out: Metadata, k: string)
    requires done <= nmd.Keys && k in nmd && k !in done
    requires MergedSome(md, nmd, done, out)
    ensures var next := out[Title(k) := nmd[k]];
      forall key :: key in TitledKeys(done + {k}) ==> exists j :: j in done + {k} && Title(j) == key && next[key] == nmd[j]
  {
    var next := out[Title(k) := nmd[k]];
    TitledKeysAdd(done, k);
    forall key | key in TitledKeys(done + {k})
      ensures exists j :: j in done + {k} && Title(j) == key && next[key] == nmd[j]
    {
      if key == Title(k) {
        assert k in done + {k} && Title(k) == key && next[key] == nmd[k];
      } else {
        assert key in TitledKeys(done);
        var j :| j in done && Title(j) == key && out[key] == nmd[j];
        assert j in done + {k} && Title(j) == key && next[key] == nmd[j];
      }
    }
  }

  /** No two injected keys have the same titled form. */
  ghost predicate TitleInjective(nmd: Metadata)
  {
    forall k, j :: k in nmd && j in nmd && Title(k) == Title(j) ==> k == j
  }

  /** The outgoing metadata keeps every incoming key, and a key that no injected key
      turns into keeps its incoming value. */
  lemma MergedKeepsOthers(md: Metadata, nmd: Metadata, out: Metadata, key: string)
    requires Merged(md, nmd, out)
    requires key in md && (forall k :: k in nmd ==> Title(k) != key)
    ensures key in out && out[key] == md[key]
  {
  }

  /** Injected values win: an injected pair is present under its titled key whenever no
      other injected key has the same titled form. */
  lemma MergedOverwrites(md: Metadata, nmd: Metadata, out: Metadata, k: string)
    requires Merged(md, nmd, out)
    requires k in nmd && TitleInjective(nmd)
    ensures Title(k) in out && out[Title(k)] == nmd[k]
  {
    assert Title(k) in TitledKeys(nmd.Keys);
  }

  /** When the injected keys have distinct titled forms the order of the loop does not
      matter: the outgoing metadata is determined. */
  lemma MergedUnique(md: Metadata, nmd: Metadata, a: Metadata, b: Metadata)
    requires Merged(md, nmd, a) && Merged(md, nmd, b) && TitleInjective(nmd)
    ensures a == b
  {
    forall key | key in a
      ensures a[key] == b[key]
    {
      if key in TitledKeys(nmd.Keys) {
        var k :| k in nmd && Title(k) == key && a[key] == nmd[k];
        MergedOverwrites(md, nmd, b, k);
      }
    }
  }

  /** What `StartSpanFromContext` returns on success: the new context, carrying the span
      and the outgoing metadata, and the span with its parent. */
  datatype StartedSpan = StartedSpan(ctx: Ctx, span: SpanContext, parent: Option<SpanContext>)

  /** `StartSpanFromContext(ctx, tracer, name)`. */
  method StartSpanFromContext(ctx: Ctx, tracer: Tracer, name: string) returns (r: Result<StartedSpan>)
    ensures var parent := ParentOf(ctx, tracer);
      var sp := tracer.start(name, parent);
      match tracer.inject(sp)
      case Err(e) => r == Err(e)
      case Ok(nmd) =>
        && r.Ok? && r.value.span == sp && r.value.parent == parent
        && r.value.ctx.span == Some(sp) && r.value.ctx.md.Some?
        && Merged(MetadataOf(ctx), nmd, r.value.ctx.md.value)
  {
    var md := MetadataOf(ctx);
    var parent := ParentOf(ctx, tracer);
    var sp := tracer.start(name, parent);
    match tracer.inject(sp)
    case Err(e) =>
      return Err(e);
    case Ok(nmd) =>
      md := MergeInjected(md, nmd);
      return Ok(StartedSpan(Ctx(Some(sp), Some(md)), sp, parent));
  }

  /** The events on a span once `next` has returned: the error is logged and tagged when
      there is one, and the deferred `Finish` runs last. */
  function Closing(err: Option<Error>): seq<SpanEvent>
  {
    (if err.Some? then [ErrorLogged(err.value), ErrorTagged] else []) + [Finished]
  }

  /** The body every wrapper shares: start a span named `name` and give up with the error
      when that fails; otherwise set the span kind, if any, call `next` once with the
      new context, log and tag its error, finish the span, and return `next`'s result.
      `called` is the context `next` got, absent when it was not called. */
  method Traced<R>(ctx: Ctx, tracer: Tracer, name: string, kind: Option<SpanKind>,
                   next: Ctx -> R, errorOf: R -> Option<Error>)
    returns (err: Option<Error>, reply: Option<R>, called: Option<Ctx>, events: seq<SpanEvent>)
    ensures var parent := ParentOf(ctx, tracer);
      var sp := tracer.start(name, parent);
      && (called.Some? <==> tracer.inject(sp).Ok?)
      && (reply.Some? <==> called.Some?)
      && match tracer.inject(sp)
         case Err(e) => err == Some(e) && events == [Started(name, parent, sp)]
         case Ok(nmd) =>
           && called.value.span == Some(sp) && called.value.md.Some?
           && Merged(MetadataOf(ctx), nmd, called.value.md.value)
           && reply.value == next(called.value)
           && err == errorOf(reply.value)
           && events == [Started(name, parent, sp)] + (if kind.Some? then [KindSet(kind.value)] else []) + Closing(err)
    ensures var sp := tracer.start(name, ParentOf(ctx, tracer));
      events == SpanEvents(name, ParentOf(ctx, tracer), sp, kind, called.Some?, err)
    ensures (Finished in events <==> called.Some?) && (ErrorTagged in events <==> called.Some? && err.Some?)
  {
    var started := StartSpanFromContext(ctx, tracer, name);
    var parent := ParentOf(ctx, tracer);
    var sp := tracer.start(name, parent);
    if started.Err? {
      return Some(started.error), None, None, [Started(name, parent, sp)];
    }
    events := [Started(name, started.value.parent, started.value.span)];
    if kind.Some? {
      events := events + [KindSet(kind.value)];
    }
    var r := next(started.value.ctx);
    err := errorOf(r);
    if err.Some? {
      events := events + [ErrorLogged(err.value), ErrorTagged];
    }
    events := events + [Finished];
    reply := Some(r);
    called := Some(started.value.ctx);
    FinishedIffCalled(name, parent, sp, kind, true, err);
  }

  /** The span events of one wrapper run, as `Traced` records them: the start, then,
      when the wrapped call ran, the kind, the error report and the finish. */
  function SpanEvents(name: string, parent: Option<SpanContext>, sp: SpanContext, kind: Option<SpanKind>,
                      called: bool, err: Option<Error>): seq<SpanEvent>
  {
    if called then [Started(name, parent, sp)] + (if kind.Some? then [KindSet(kind.value)] else []) + Closing(err)
    else [Started(name, parent, sp)]
  }

  /** The span a wrapper run started is finished exactly when span start succeeded: a
      failed `Inject` leaves the started span unfinished. `next` is called in the same
      case, so the span is finished exactly when `next` ran. */
  lemma FinishedIffCalled(name: string, parent: Option<SpanContext>, sp: SpanContext, kind: Option<SpanKind>,
                          called: bool, err: Option<Error>)
    ensures var events := SpanEvents(name, parent, sp, kind, called, err);
      && (Finished in events <==> called)
      && events[0] == Started(name, parent, sp)
      && (called ==> events[|events| - 1] == Finished)
      && (ErrorTagged in events <==> called && err.Some?)
  {
    if called {
      var events := SpanEvents(name, parent, sp, kind, called, err);
      var mid := if kind.Some? then [KindSet(kind.value)] else [];
      assert events == [Started(name, parent, sp)] + mid + Closing(err);
      assert ErrorTagged !in mid;
      assert ErrorTagged in Closing(err) <==> err.Some?;
    }
  }

  /** The reply of a client stream: the stream (absent for nil) and the error. */
  datatype StreamReply = StreamReply(stream: Option<nat>, err: Option<Error>)

  function StreamError(r: StreamReply): Option<Error>
  {
    r.err
  }

  function NoReply(e: Option<Error>): Option<Error>
  {
    e
  }

  /** The client being wrapped, by what its three operations return for the context
      they are given. */
  datatype Client = Client(
    call: (Ctx, Request) -> Option<Error>,
    stream: (Ctx, Request) -> StreamReply,
    publish: (Ctx, string) -> Option<Error>)

  /** `otWrapper`: a client whose operations run inside a span of `ot`. */
  datatype OtWrapper = OtWrapper(ot: Tracer, inner: Client)
  {
    /** `otWrapper.Call`: a span named after the service and endpoint; the inner call's
        error is returned unchanged. */
    method Call(ctx: Ctx, req: Request) returns (err: Option<Error>, events: seq<SpanEvent>)
      ensures var name := CallName(req);
        var parent := ParentOf(ctx, ot);
        var sp := ot.start(name, parent);
        match ot.inject(sp)
        case Err(e) => err == Some(e) && events == [Started(name, parent, sp)]
        case Ok(nmd) => exists c: Ctx :: (c.span == Some(sp) && c.md.Some?
          && Merged(MetadataOf(ctx), nmd, c.md.value)
          && err == inner.call(c, req)
          && events == [Started(name, parent, sp)] + Closing(err))
    {
      var next := (c: Ctx) => inner.call(c, req);
      var reply, called;
      err, reply, called, events := Traced(ctx, ot, CallName(req), None, next, NoReply);
      if called.Some? {
        assert err == inner.call(called.value, req);
      }
    }

    /** `otWrapper.Stream`: like `Call`, returning the inner stream, or no stream when
        span start fails. The span is finished when `Stream` returns, not when the
        stream ends. */
    method Stream(ctx: Ctx, req: Request) returns (reply: StreamReply, events: seq<SpanEvent>)
      ensures var name := CallName(req);
        var parent := ParentOf(ctx, ot);
        var sp := ot.start(name, parent);
        match ot.inject(sp)
        case Err(e) => reply == StreamReply(None, Some(e)) && events == [Started(name, parent, sp)]
        case Ok(nmd) => exists c: Ctx :: (c.span == Some(sp) && c.md.Some?
          && Merged(MetadataOf(ctx), nmd, c.md.value)
          && reply == inner.stream(c, req)
          && events == [Started(name, parent, sp)] + Closing(reply.err))
    {
      var next := (c: Ctx) => inner.stream(c, req);
      var err, r, called;
      err, r, called, events := Traced(ctx, ot, CallName(req), None, next, StreamError);
      if r.Some? {
        reply := r.value;
        assert reply == inner.stream(called.value, req);
      } else {
        reply := StreamReply(None, err);
      }
    }

    /** `otWrapper.Publish`: a producer span named after the topic. */
    method Publish(ctx: Ctx, topic: string) returns (err: Option<Error>, events: seq<SpanEvent>)
      ensures var name := PublishName(topic);
        var parent := ParentOf(ctx, ot);
        var sp := ot.start(name, parent);
        match ot.inject(sp)
        case Err(e) => err == Some(e) && events == [Started(name, parent, sp)]
        case Ok(nmd) => exists c: Ctx :: (c.span == Some(sp) && c.md.Some?
          && Merged(MetadataOf(ctx), nmd, c.md.value)
          && err == inner.publish(c, topic)
          && events == [Started(name, parent, sp), KindSet(Producer)] + Closing(err))
    {
      var next := (c: Ctx) => inner.publish(c, topic);
      var reply, called;
      err, reply, called, events := Traced(ctx, ot, PublishName(topic), Some(Producer), next, NoReply);
      if called.Some? {
        assert err == inner.publish(called.value, topic);
      }
    }
  }

  /** The tracer a wrapper uses: its own, or the global tracer when it was given nil. */
  function TracerOr(ot: Option<Tracer>, global: Tracer): (t: Tracer)
    ensures ot.Some? ==> t == ot.value
    ensures ot.None? ==> t == global
  {
    if ot.Some? then ot.value else global
  }

  /** The closure `NewClientWrapper(ot)` returns; `ot` is the variable it captures, which
      it overwrites with the global tracer the first time it runs with nil. */
  class ClientWrapper {
    var ot: Option<Tracer>

    /** `NewClientWrapper(ot)`. */
    constructor (ot: Option<Tracer>)
      ensures this.ot == ot
    {
      this.ot := ot;
    }

    /** Wraps a client: the result traces with this wrapper's tracer. */
    method Wrap(c: Client, global: Tracer) returns (w: OtWrapper)
      modifies this
      ensures ot == Some(TracerOr(old(ot), global))
      ensures w == OtWrapper(TracerOr(old(ot), global), c)
    {
      if ot.None? {
        ot := Some(global);
      }
      w := OtWrapper(ot.value, c);
    }
  }

  /** The call function being wrapped: its error for a context, address and request. */
  type CallFunc = (Ctx, string, Request) -> Option<Error>

  /** The closures `NewCallWrapper(ot)` returns, sharing the captured `ot`. */
  class CallWrapper {
    var ot: Option<Tracer>

    /** `NewCallWrapper(ot)`. */
    constructor (ot: Option<Tracer>)
      ensures this.ot == ot
    {
      this.ot := ot;
    }

    /** One call through `cf` wrapped by this wrapper: an RPC client span named after the
        service and endpoint. */
    method Invoke(cf: CallFunc, global: Tracer, ctx: Ctx, addr: string, req: Request)
      returns (err: Option<Error>, events: seq<SpanEvent>)
      modifies this
      ensures ot == Some(TracerOr(old(ot), global))
      ensures var t := TracerOr(old(ot), global);
        var name := CallName(req);
        var parent := ParentOf(ctx, t);
        var sp := t.start(name, parent);
        match t.inject(sp)
        case Err(e) => err == Some(e) && events == [Started(name, parent, sp)]
        case Ok(nmd) => exists c: Ctx :: (c.span == Some(sp) && c.md.Some?
          && Merged(MetadataOf(ctx), nmd, c.md.value)
          && err == cf(c, addr, req)
          && events == [Started(name, parent, sp), KindSet(RPCClient)] + Closing(err))
    {
      if ot.None? {
        ot := Some(global);
      }
      var next := (c: Ctx) => cf(c, addr, req);
      var reply, called;
      err, reply, called, events := Traced(ctx, ot.value, CallName(req), Some(RPCClient), next, NoReply);
      if called.Some? {
        assert err == cf(called.value, addr, req);
      }
    }
  }

  /** The handler being wrapped: its error for a context and request. */
  type HandlerFunc = (Ctx, Request) -> Option<Error>

  /** The closures `NewHandlerWrapper(ot)` returns, sharing the captured `ot`. */
  class HandlerWrapper {
    var ot: Option<Tracer>

    /** `NewHandlerWrapper(ot)`. */
    constructor (ot: Option<Tracer>)
      ensures this.ot == ot
    {
      this.ot := ot;
    }

    /** One request through handler `h` wrapped by this wrapper: an RPC server span
        named after the service and endpoint. */
    method Invoke(h: HandlerFunc, global: Tracer, ctx: Ctx, req: Request)
      returns (err: Option<Error>, events: seq<SpanEvent>)
      modifies this
      ensures ot == Some(TracerOr(old(ot), global))
      ensures var t := TracerOr(old(ot), global);
        var name := CallName(req);
        var parent := ParentOf(ctx, t);
        var sp := t.start(name, parent);
        match t.inject(sp)
        case Err(e) => err == Some(e) && events == [Started(name, parent, sp)]
        case Ok(nmd) => exists c: Ctx :: (c.span == Some(sp) && c.md.Some?
          && Merged(MetadataOf(ctx), nmd, c.md.value)
          && err == h(c, req)
          && events == [Started(name, parent, sp), KindSet(RPCServer)] + Closing(err))
    {
      if ot.None? {
        ot := Some(global);
      }
      var next := (c: Ctx) => h(c, req);
      var reply, called;
      err, reply, called, events := Traced(ctx, ot.value, CallName(req), Some(RPCServer), next, NoReply);
      if called.Some? {
        assert err == h(called.value, req);
      }
    }
  }

  /** The subscriber being wrapped: its error for a context and a message's topic. */
  type SubscriberFunc = (Ctx, string) -> Option<Error>

  /** The closures `NewSubscriberWrapper(ot)` returns, sharing the captured `ot`. */
  class SubscriberWrapper {
    var ot: Option<Tracer>

    /** `NewSubscriberWrapper(ot)`. */
    constructor (ot: Option<Tracer>)
      ensures this.ot == ot
    {
      this.ot := ot;
    }

    /** One message through subscriber `next` wrapped by this wrapper: a consumer span
        named after the topic. */
    method Invoke(next: SubscriberFunc, global: Tracer, ctx: Ctx, topic: string)
      returns (err: Option<Error>, events: seq<SpanEvent>)
      modifies this
      ensures ot == Some(TracerOr(old(ot), global))
      ensures var t := TracerOr(old(ot), global);
        var name := SubscribeName(topic);
        var parent := ParentOf(ctx, t);
        var sp := t.start(name, parent);
        match t.inject(sp)
        case Err(e) => err == Some(e) && events == [Started(name, parent, sp)]
        case Ok(nmd) => exists c: Ctx :: (c.span == Some(sp) && c.md.Some?
          && Merged(MetadataOf(ctx), nmd, c.md.value)
          && err == next(c, topic)
          && events == [Started(name, parent, sp), KindSet(Consumer)] + Closing(err))
    {
      if ot.None? {
        ot := Some(global);
      }
      var call := (c: Ctx) => next(c, topic);
      var reply, called;
      err, reply, called, events := Traced(ctx, ot.value, SubscribeName(topic), Some(Consumer), call, NoReply);
      if called.Some? {
        assert err == next(called.value, topic);
      }
    }
  }
}
