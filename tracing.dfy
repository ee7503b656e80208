/**
 * The span lifecycle of the tracing package: choosing a controller span's
 * parent from inbound headers, starting child spans under an ambient span,
 * and finishing every span exactly once around a wrapped computation,
 * tagging it with the failure message when the computation fails.
 *
 * The OpenTracing tracer is a foreign collaborator: its `extract` is a
 * function given to each `Tracer`, and `startSpan` allocates a `Span` whose
 * later `setTag`/`finish` calls are recorded in an event log. The effect
 * runtime is abstracted away: a wrapped computation is a function from the
 * capability environment to its `Outcome`.
 */
module Tracing {
  import opened Effects

  /** An inbound header carrier (`FORMAT_HTTP_HEADERS`). */
  type Headers = map<string, string>

  /** Tag keys and values of the OpenTracing semantic conventions (`opentracing/lib/ext/tags`). */
  const ERROR := "error"
  const SPAN_KIND := "span.kind"
  const SPAN_KIND_RPC_SERVER := "server"
  const COMPONENT := "component"

  /**
   * What `tracer.extract` returned, when it returned an object. `toSpanId` is
   * `None` when the object has no `toSpanId` accessor, otherwise the span id
   * it reports (possibly empty, as no-op tracers do on a failed extraction).
   */
  datatype PeerContext = PeerContext(toSpanId: Option<string>)

  /** The `childOf` reference a span was started with. */
  datatype ChildOf = NoParent | RemoteParent(context: PeerContext) | LocalParent(span: Span)

  /** A call made on a started span. */
  datatype SpanEvent = SetTag(key: string, value: string) | Finish

  /** An OpenTracing tracer: its header extraction and the spans it has started. */
  class Tracer {
    const extract: Headers -> Option<PeerContext>
    var started: seq<Span>

    constructor (extract: Headers -> Option<PeerContext>)
      ensures this.extract == extract && started == []
    {
      this.extract := extract;
      started := [];
    }

    /** `tracer.startSpan(operation, { childOf, tags })`. */
    method StartSpan(operation: string, childOf: ChildOf, tags: map<string, string>) returns (span: Span)
      modifies this
      ensures fresh(span) && span.tracer == this && span.operation == operation
      ensures span.childOf == childOf && span.initialTags == tags && span.log == []
      ensures started == old(started) + [span]
    {
      span := new Span(this, operation, childOf, tags);
      started := started + [span];
    }
  }

  /** A started span: what it was started with, and the calls made on it since. */
  class Span {
    const tracer: Tracer
    const operation: string
    const childOf: ChildOf
    const initialTags: map<string, string>
    var log: seq<SpanEvent>

    constructor (tracer: Tracer, operation: string, childOf: ChildOf, tags: map<string, string>)
      ensures this.tracer == tracer && this.operation == operation
      ensures this.childOf == childOf && initialTags == tags && log == []
    {
      this.tracer := tracer;
      this.operation := operation;
      this.childOf := childOf;
      initialTags := tags;
      log := [];
    }

    /** The span's tags as they stand now. */
    function Tags(): map<string, string>
      reads this
    {
      TagsAfter(initialTags, log)
    }

    /** How many times `finish` has been called on the span. */
    function Finishes(): nat
      reads this
    {
      FinishCount(log)
    }

    /** `span.setTag(key, value)`. */
    method SetTag(key: string, value: string)
      modifies this
      ensures log == old(log) + [SpanEvent.SetTag(key, value)]
    {
      log := log + [SpanEvent.SetTag(key, value)];
    }

    /** `span.finish()`. */
    method Finish()
      modifies this
      ensures log == old(log) + [SpanEvent.Finish]
    {
      log := log + [SpanEvent.Finish];
    }
  }

  // ---------------------------------------------------------------------------
  // The span event log

  /** Number of `finish` calls in a log. */
  function FinishCount(log: seq<SpanEvent>): nat
  {
    if log == [] then 0
    else (if log[0] == Finish then 1 else 0) + FinishCount(log[1..])
  }

  /** The tag map after replaying a log's `setTag` calls over the initial tags; a later tag overrides an earlier one. */
  function TagsAfter(initial: map<string, string>, log: seq<SpanEvent>): map<string, string>
    decreases |log|
  {
    if log == [] then initial
    else
      var next := match log[0]
        case SetTag(k, v) => initial[k := v]
        case Finish => initial;
      TagsAfter(next, log[1..])
  }

  lemma {:induction false} FinishCountAppend(a: seq<SpanEvent>, b: seq<SpanEvent>)
    ensures FinishCount(a + b) == FinishCount(a) + FinishCount(b)
  {
    if a == [] {
      assert a + b == b;
    } else {
      assert (a + b)[0] == a[0];
      assert (a + b)[1..] == a[1..] + b;
      FinishCountAppend(a[1..], b);
    }
  }

  lemma {:induction false} TagsAfterAppend(initial: map<string, string>, a: seq<SpanEvent>, b: seq<SpanEvent>)
    ensures TagsAfter(initial, a + b) == TagsAfter(TagsAfter(initial, a), b)
    decreases |a|
  {
    if a == [] {
      assert a + b == b;
    } else {
      assert (a + b)[0] == a[0];
      assert (a + b)[1..] == a[1..] + b;
      var next := match a[0]
        case SetTag(k, v) => initial[k := v]
        case Finish => initial;
      TagsAfterAppend(next, a[1..], b);
    }
  }

  /**
   * The calls `runWithSpan` makes on its span once the wrapped computation has
   * settled: on failure the error tag carrying the message, then `finish`; on
   * success `finish` alone.
   */
  function SettleEvents<A>(o: Outcome<A>): seq<SpanEvent>
  {
    match o
    case Success(_) => [Finish]
    case Failure(e) => [SetTag(ERROR, e.message), Finish]
  }

  /** Settling finishes a not-yet-finished span exactly once, and `finish` is the last call on it. */
  lemma SettleFinishesOnce<A>(log: seq<SpanEvent>, o: Outcome<A>)
    requires FinishCount(log) == 0
    ensures FinishCount(log + SettleEvents(o)) == 1
    ensures (log + SettleEvents(o))[|log + SettleEvents(o)| - 1] == Finish
  {
    FinishCountAppend(log, SettleEvents(o));
    match o {
      case Success(_) =>
        assert FinishCount([Finish]) == 1 + FinishCount([]);
      case Failure(e) =>
        assert SettleEvents(o)[1..] == [Finish];
        assert FinishCount([Finish]) == 1 + FinishCount([]);
    }
  }

  /** Within the calls made on settling, `finish` occurs once, as the very last call: nothing touches the span after it. */
  lemma FinishIsLastEvent<A>(o: Outcome<A>)
    ensures forall i :: 0 <= i < |SettleEvents(o)| ==> (SettleEvents(o)[i] == Finish <==> i == |SettleEvents(o)| - 1)
  {
  }

  /** Settling sets an error tag exactly when the computation failed, and then it carries the failure's message. */
  lemma ErrorTagOnlyOnFailure<A>(o: Outcome<A>)
    ensures (exists v :: SetTag(ERROR, v) in SettleEvents(o)) <==> o.Failure?
    ensures forall v :: SetTag(ERROR, v) in SettleEvents(o) ==> v == o.error.message
  {
    if o.Failure? {
      assert SettleEvents(o)[0] == SetTag(ERROR, o.error.message);
    }
  }

  /** Settling leaves the tags as they were, except for the error tag it sets on failure. */
  lemma SettleTags<A>(initial: map<string, string>, log: seq<SpanEvent>, o: Outcome<A>)
    ensures TagsAfter(initial, log + SettleEvents(o))
         == if o.Failure? then TagsAfter(initial, log)[ERROR := o.error.message] else TagsAfter(initial, log)
  {
    TagsAfterAppend(initial, log, SettleEvents(o));
    var before := TagsAfter(initial, log);
    match o {
      case Success(_) =>
        assert TagsAfter(before, [Finish]) == TagsAfter(before, []);
      case Failure(e) =>
        assert SettleEvents(o)[1..] == [Finish];
        assert TagsAfter(before[ERROR := e.message], [Finish]) == TagsAfter(before[ERROR := e.message], []);
    }
  }

  // ---------------------------------------------------------------------------
  // The capability environment

  /** `HasSpanContext`'s payload: the active span and the component it runs under. */
  datatype SpanContext = SpanContext(spanInstance: Span, component: string)

  /** `HasTracerContext`'s payload: the tracer instance installed by `withTracer`. */
  datatype TracerContext = TracerContext(tracerInstance: Tracer)

  /** The `span` and `tracer` keys of the environment; each, and its `context`, may be absent. */
  datatype SpanSlot = SpanSlot(context: Option<SpanContext>)
  datatype TracerSlot = TracerSlot(context: Option<TracerContext>)
  datatype Env = Env(span: Option<SpanSlot>, tracer: Option<TracerSlot>)

  /** `ChildContext`: an ambient span together with an ambient tracer. */
  datatype ChildContext = ChildContext(span: SpanContext, tracer: TracerContext)

  predicate HasTracerContext(env: Env)
  {
    env.tracer.Some? && env.tracer.value.context.Some?
  }

  function TracerOf(env: Env): Tracer
    requires HasTracerContext(env)
  {
    env.tracer.value.context.value.tracerInstance
  }

  /**
   * The shape test `hasChildContext`, returning what it found: an ambient child
   * context exactly when `span`, `span.context`, `tracer` and `tracer.context`
   * are all present.
   */
  function ChildContextOf(env: Env): (r: Option<ChildContext>)
    ensures r.Some? <==>
      env.span.Some? && env.span.value.context.Some? && env.tracer.Some? && env.tracer.value.context.Some?
    ensures r.Some? ==>
      r.value.span == env.span.value.context.value && r.value.tracer == env.tracer.value.context.value
  {
    match (env.span, env.tracer)
    case (Some(SpanSlot(Some(s))), Some(TracerSlot(Some(t)))) => Some(ChildContext(s, t))
    case _ => None
  }

  predicate HasChildContext(env: Env)
  {
    ChildContextOf(env).Some?
  }

  /** `provide({ span: { context: { spanInstance, component } } })`: the environment the wrapped computation sees. */
  function ProvideSpanContext(env: Env, span: Span, component: string): Env
  {
    env.(span := Some(SpanSlot(Some(SpanContext(span, component)))))
  }

  /**
   * `provide({ tracer: { context: { tracerInstance } } })` as `withTracer` does
   * with the instance its factory produced.
   */
  function ProvideTracer(env: Env, instance: Tracer): (r: Env)
    ensures HasTracerContext(r) && TracerOf(r) == instance
    ensures r.span == env.span
    ensures HasChildContext(r) <==> env.span.Some? && env.span.value.context.Some?
  {
    env.(tracer := Some(TracerSlot(Some(TracerContext(instance)))))
  }

  /**
   * Inside a span scope opened under a tracer, the ambient child context is that
   * span with its component and that tracer: a nested `withChildSpan` starts a
   * child of it.
   */
  lemma SpanScopeHasChildContext(env: Env, span: Span, component: string)
    requires HasTracerContext(env)
    ensures ChildContextOf(ProvideSpanContext(env, span, component))
         == Some(ChildContext(SpanContext(span, component), TracerContext(TracerOf(env))))
  {
  }

  // ---------------------------------------------------------------------------
  // Parent selection for controller spans

  /** The tags every controller span is started with. */
  function ServerTags(component: string): (tags: map<string, string>)
    ensures tags.Keys == {SPAN_KIND, COMPONENT}
    ensures tags[SPAN_KIND] == SPAN_KIND_RPC_SERVER && tags[COMPONENT] == component
    ensures ERROR !in tags
  {
    map[SPAN_KIND := SPAN_KIND_RPC_SERVER, COMPONENT := component]
  }

  /**
   * The parent of a controller span: the extracted context continues a remote
   * trace only when it has a `toSpanId` reporting a non-empty id; otherwise the
   * span is a root.
   */
  function ControllerParent(extracted: Option<PeerContext>): (p: ChildOf)
    ensures p.RemoteParent? <==>
      extracted.Some? && extracted.value.toSpanId.Some? && extracted.value.toSpanId.value != ""
    ensures p.RemoteParent? ==> extracted == Some(p.context)
    ensures !p.RemoteParent? ==> p == NoParent
  {
    match extracted
    case Some(ctx) =>
      if ctx.toSpanId.Some? && |ctx.toSpanId.value| > 0 then RemoteParent(ctx) else NoParent
    case None => NoParent
  }

  // ---------------------------------------------------------------------------
  // The span lifecycle

  /**
   * `runWithSpan`: runs the wrapped computation with the span provided as the
   * ambient span context, then finishes the span, first tagging it with the
   * failure message when the computation failed; the outcome passes through.
   */
  method RunWithSpan<A>(ma: Env -> Outcome<A>, env: Env, span: Span, component: string) returns (o: Outcome<A>)
    modifies span
    ensures o == ma(ProvideSpanContext(env, span, component))
    ensures span.log == old(span.log) + SettleEvents(o)
    ensures old(span.Finishes()) == 0 ==> span.Finishes() == 1 && span.log[|span.log| - 1] == Finish
    ensures span.Tags() == if o.Failure? then old(span.Tags())[ERROR := o.error.message] else old(span.Tags())
  {
    o := ma(ProvideSpanContext(env, span, component));
    match o {
      case Failure(e) =>
        span.SetTag(ERROR, e.message);
        span.Finish();
      case Success(_) =>
        span.Finish();
    }
    if FinishCount(old(span.log)) == 0 {
      SettleFinishesOnce(old(span.log), o);
    }
    SettleTags(span.initialTags, old(span.log), o);
  }

  /**
   * `createControllerSpan`: extracts a parent context from the headers and
   * starts a server span, a child of that context when it carries a non-empty
   * span id and a root otherwise, with the same tags in both cases.
   */
  method CreateControllerSpan(tracer: Tracer, component: string, operation: string, headers: Headers)
    returns (span: Span)
    modifies tracer
    ensures fresh(span) && span.tracer == tracer && span.operation == operation && span.log == []
    ensures span.childOf == ControllerParent(tracer.extract(headers))
    ensures span.initialTags == ServerTags(component)
    ensures tracer.started == old(tracer.started) + [span]
  {
    var parentSpanContext := tracer.extract(headers);
    if parentSpanContext.Some? && parentSpanContext.value.toSpanId.Some?
       && |parentSpanContext.value.toSpanId.value| > 0
    {
      span := tracer.StartSpan(operation, RemoteParent(parentSpanContext.value),
                               map[SPAN_KIND := SPAN_KIND_RPC_SERVER, COMPONENT := component]);
    } else {
      span := tracer.StartSpan(operation, NoParent,
                               map[SPAN_KIND := SPAN_KIND_RPC_SERVER, COMPONENT := component]);
    }
  }

  /**
   * `withControllerSpan(component, operation, headers)(ma)`: on the ambient
   * tracer, creates the controller span and runs `ma` inside it. The span is
   * returned so that its final state can be stated.
   */
  method WithControllerSpan<A>(component: string, operation: string, headers: Headers,
                               ma: Env -> Outcome<A>, env: Env)
    returns (o: Outcome<A>, span: Span)
    requires HasTracerContext(env)
    modifies TracerOf(env)
    ensures fresh(span) && span.tracer == TracerOf(env) && span.operation == operation
    ensures span.childOf == ControllerParent(TracerOf(env).extract(headers))
    ensures TracerOf(env).started == old(TracerOf(env).started) + [span]
    ensures o == ma(ProvideSpanContext(env, span, component))
    ensures span.log == SettleEvents(o)
    ensures span.Finishes() == 1 && span.log[|span.log| - 1] == Finish
    ensures span.Tags() == if o.Failure? then ServerTags(component)[ERROR := o.error.message] else ServerTags(component)
  {
    span := CreateControllerSpan(TracerOf(env), component, operation, headers);
    o := RunWithSpan(ma, env, span, component);
  }

  /** The tracers `withChildSpan` may start a span on: the ambient one, if any. */
  function ChildSpanFrame(env: Env): set<object>
  {
    match ChildContextOf(env)
    case Some(c) => {c.tracer.tracerInstance}
    case None => {}
  }

  /**
   * `withChildSpan(operation)(ma)`: without an ambient child context, `ma`
   * itself; with one, a span started on the ambient tracer as a child of the
   * ambient span, with `ma` run inside it under the ambient component.
   */
  method WithChildSpan<A>(operation: string, ma: Env -> Outcome<A>, env: Env)
    returns (o: Outcome<A>, child: Option<Span>)
    modifies ChildSpanFrame(env)
    ensures !HasChildContext(env) ==> o == ma(env) && child == None
    ensures HasChildContext(env) ==>
      var c := ChildContextOf(env).value;
      && child.Some? && fresh(child.value)
      && child.value.tracer == c.tracer.tracerInstance
      && child.value.childOf == LocalParent(c.span.spanInstance)
      && child.value.operation == operation
      && c.tracer.tracerInstance.started == old(c.tracer.tracerInstance.started) + [child.value]
      && o == ma(ProvideSpanContext(env, child.value, c.span.component))
      && child.value.log == SettleEvents(o)
      && child.value.Finishes() == 1 && child.value.log[|child.value.log| - 1] == Finish
      && child.value.Tags() == if o.Failure? then map[ERROR := o.error.message] else map[]
  {
    match ChildContextOf(env) {
      case None =>
        o := ma(env);
        child := None;
      case Some(c) =>
        var span := c.tracer.tracerInstance.StartSpan(operation, LocalParent(c.span.spanInstance), map[]);
        o := RunWithSpan(ma, env, span, c.span.component);
        child := Some(span);
    }
  }

  /**
   * An inbound request without trace headers: the controller span is a root,
   * is finished once, and carries an error tag only when the handler fails,
   * whose failure reaches the caller unchanged.
   */
  method InboundRequestScenario(handlerFails: bool)
    returns (o: Outcome<int>, isRoot: bool, finishes: nat, tags: map<string, string>)
    ensures isRoot && finishes == 1
    ensures SPAN_KIND in tags && tags[SPAN_KIND] == SPAN_KIND_RPC_SERVER
    ensures COMPONENT in tags && tags[COMPONENT] == "app"
    ensures handlerFails ==> o == Failure(Error("Error", "boom")) && ERROR in tags && tags[ERROR] == "boom"
    ensures !handlerFails ==> o == Success(1) && ERROR !in tags
  {
    var tracer := new Tracer((h: Headers) => None);
    var env := Env(None, Some(TracerSlot(Some(TracerContext(tracer)))));
    var ma: Env -> Outcome<int> :=
      if handlerFails then (e: Env) => Failure(Error("Error", "boom")) else (e: Env) => Success(1);
    var span;
    o, span := WithControllerSpan("app", "handler", map[], ma, env);
    isRoot := span.childOf == NoParent;
    finishes := span.Finishes();
    tags := span.Tags();
  }

  /**
   * An inbound request whose headers extract to a context reporting an empty
   * span id, as no-op tracers return on a failed extraction: the controller
   * span is still a root, not a child of that context, and is finished once.
   */
  method EmptySpanIdScenario() returns (isRoot: bool, finishes: nat, o: Outcome<int>)
    ensures isRoot && finishes == 1 && o == Success(7)
  {
    var tracer := new Tracer((h: Headers) => Some(PeerContext(Some(""))));
    var env := Env(None, Some(TracerSlot(Some(TracerContext(tracer)))));
    var span;
    o, span := WithControllerSpan("app", "handler", map["uber-trace-id" := ""], (e: Env) => Success(7), env);
    isRoot := span.childOf == NoParent;
    finishes := span.Finishes();
  }
}
