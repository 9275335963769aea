/**
 * `BasicRequestContext`: the request context a queue message is wrapped in, so that a
 * pipeline written against HTTP requests can serve it. The context carries the message,
 * synthesises an HTTP-shaped request and response bound to itself, derives an operation
 * name and a one-way path from the payload, and resolves other capabilities through a
 * local resolver or the process-wide default.
 */
module Host {
  import opened Optional
  import opened InvariantFormat
  import opened Messaging

  /** The JSON MIME type both content types start as. */
  const Json: string := "application/json"

  /** The path prefix of a one-way call; its "/json/" is fixed, not taken from ContentType. */
  const OneWayPathPrefix: string := "/json/oneway/"

  /** The capability type a caller of Get asks for. */
  datatype Capability = HttpRequestCap | HttpResponseCap | Other(typeName: string)

  /** The request-attribute flags that classify where a request came from. */
  datatype RequestAttribute =
    | Localhost | LocalSubnet | External | InProcess
    | Http | MessageQueue | Tcp | EndpointOther

  const AnyNetworkAccessType: set<RequestAttribute> := {External, LocalSubnet, Localhost, InProcess}
  const InternalNetworkAccess: set<RequestAttribute> := {InProcess, Localhost, LocalSubnet}
  const AnyEndpoint: set<RequestAttribute> := {Http, MessageQueue, Tcp, EndpointOther}

  /** The runtime fault raised by dereferencing a null reference. */
  datatype Fault = NullReference

  /** A dependency resolver: a partial map from a requested type's name to an instance. */
  class Resolver {
    const registry: map<string, object>

    constructor (registry: map<string, object>)
      ensures this.registry == registry
    {
      this.registry := registry;
    }

    /** The registered instance, or null when the resolver cannot supply the type. */
    function TryResolve(typeName: string): (r: object?)
      ensures r != null <==> typeName in registry
      ensures r != null ==> r == registry[typeName]
    {
      if typeName in registry then registry[typeName] else null
    }
  }

  /** The HTTP-shaped request view; it references the context that owns it. */
  class BasicRequest {
    const context: BasicRequestContext

    constructor (context: BasicRequestContext)
      ensures this.context == context
    {
      this.context := context;
    }
  }

  /** The HTTP-shaped response view; it references the context that owns it. */
  class BasicResponse {
    const context: BasicRequestContext

    constructor (context: BasicRequestContext)
      ensures this.context == context
    {
      this.context := context;
    }
  }

  datatype Cookie = Cookie(name: string, value: string)

  /** A cookie dictionary keyed by cookie name. */
  class CookieDictionary {
    var entries: map<string, Cookie>

    constructor ()
      ensures entries == map[]
    {
      entries := map[];
    }
  }

  class BasicRequestContext {
    var message: Message
    var request: BasicRequest?
    var response: BasicResponse?
    /** The local resolver override; null means the process-wide default is used. */
    var resolver: Resolver?
    /** The process-wide default resolver, fixed for this context's lifetime; it may be unset. */
    const globalResolver: Resolver?
    /** The host's culture-dependent formatters used when headers are rendered. */
    const fmt: Formatters
    /** The cached operation name; None is the null the getter tests for. */
    var operationName: Option<string>
    /** The cached header dictionary; None is the null the getter tests for. */
    var headers: Option<HeaderMap>
    var contentType: string
    var responseContentType: string
    var pathInfo: Option<string>

    /** The request and response views exist and point back at this context. */
    ghost predicate Valid()
      reads this`request, this`response
    {
      request != null && response != null && request.context == this && response.context == this
    }

    constructor (message: Option<Message>, globalResolver: Resolver?, fmt: Formatters, defaults: MessageDefaults)
      ensures Valid() && fresh(request) && fresh(response)
      ensures this.message == if message.Some? then message.value else EmptyMessage(defaults)
      ensures contentType == Json && responseContentType == Json
      ensures this.message.body.Some? ==>
        && operationName == Some(this.message.body.value.typeName)
        && pathInfo == Some(OneWayPathPrefix + this.message.body.value.typeName)
      ensures this.message.body.None? ==> operationName.None? && pathInfo.None?
      ensures resolver == null && this.globalResolver == globalResolver && this.fmt == fmt
      ensures headers.None?
    {
      this.message := if message.Some? then message.value else EmptyMessage(defaults);
      this.globalResolver := globalResolver;
      this.fmt := fmt;
      contentType, responseContentType := Json, Json;
      resolver, operationName, headers, pathInfo := null, None, None, None;
      request, response := null, null;
      new;
      if this.message.body.Some? {
        var name := OperationName();
        // string concatenation reads a null operand as the empty string
        pathInfo := Some(OneWayPathPrefix + if name.Some? then name.value else "");
      }
      request := new BasicRequest(this);
      response := new BasicResponse(this);
    }

    /** The resolver Get falls back to: the local override, else the process-wide default. */
    function ActiveResolver(): (r: Resolver?)
      reads this`resolver
      ensures resolver != null ==> r == resolver
      ensures resolver == null ==> r == globalResolver
    {
      if resolver != null then resolver else globalResolver
    }

    method SetResolver(r: Resolver?)
      modifies this`resolver
      ensures resolver == r
    {
      resolver := r;
    }

    method SetMessage(m: Message)
      modifies this`message
      ensures message == m
    {
      message := m;
    }

    /**
     * The lazy operation name: a cached name is returned untouched; otherwise the payload's
     * type name is stored and returned, and with no payload null is stored, so nothing is
     * cached and a payload attached later is still seen.
     */
    method OperationName() returns (name: Option<string>)
      modifies this`operationName
      ensures old(operationName).Some? ==> name == old(operationName)
      ensures old(operationName).None? && message.body.Some? ==> name == Some(message.body.value.typeName)
      ensures old(operationName).None? && message.body.None? ==> name.None?
      ensures operationName == name
    {
      if operationName.None? {
        operationName := if message.body.Some? then Some(message.body.value.typeName) else None;
      }
      name := operationName;
    }

    method SetOperationName(value: Option<string>)
      modifies this`operationName
      ensures operationName == value
    {
      operationName := value;
    }

    /**
     * The instance for a requested capability: the request or the response view for the two
     * HTTP capabilities, and for any other whatever the active resolver yields, null included;
     * with neither an override nor a process-wide resolver, the call on null faults.
     */
    function Get(cap: Capability): (r: Result<object?, Fault>)
      reads this`request, this`response, this`resolver
      ensures cap == HttpRequestCap ==> r == Success(request)
      ensures cap == HttpResponseCap ==> r == Success(response)
      ensures cap.Other? && resolver != null ==> r == Success(resolver.TryResolve(cap.typeName))
      ensures cap.Other? && resolver == null && globalResolver != null ==>
        r == Success(globalResolver.TryResolve(cap.typeName))
      ensures r.Failure? <==> cap.Other? && resolver == null && globalResolver == null
    {
      match cap
      case HttpRequestCap => Success(request as object?)
      case HttpResponseCap => Success(response as object?)
      case Other(t) =>
        var active := ActiveResolver();
        if active == null then Failure(NullReference) else Success(active.TryResolve(t))
    }

    /**
     * The header getter as written: it rebuilds the dictionary only when the cache is already
     * non-null, so from the null it starts with it stays null.
     */
    method Headers() returns (h: Option<HeaderMap>)
      modifies this`headers
      ensures old(headers).None? ==> h.None? && headers.None?
      ensures old(headers).Some? ==> headers == Some(ToHeaders(message, fmt)) && h == headers
    {
      if headers.Some? {
        headers := Some(ToHeaders(message, fmt));
      }
      h := headers;
    }

    /** The header lookup as written: TryGetValue on the getter's result, null or not. */
    method GetHeader(headerName: string) returns (r: Result<Option<string>, Fault>)
      modifies this`headers
      ensures old(headers).None? ==> r == Failure(NullReference) && headers.None?
      ensures old(headers).Some? ==>
        && headers == Some(ToHeaders(message, fmt))
        && r == Success(TryGetValue(headers.value, headerName))
    {
      var h := Headers();
      if h.None? {
        r := Failure(NullReference);
      } else {
        r := Success(TryGetValue(h.value, headerName));
      }
    }

    /** The header getter with the guard the lazy cache evidently intends: build once, then reuse. */
    method MemoisedHeaders() returns (h: HeaderMap)
      modifies this`headers
      ensures old(headers).Some? ==> h == old(headers).value && headers == old(headers)
      ensures old(headers).None? ==> h == ToHeaders(message, fmt) && headers == Some(h)
    {
      if headers.None? {
        headers := Some(ToHeaders(message, fmt));
      }
      h := headers.value;
    }

    /** The header lookup over the memoised getter: never faults, null for an unknown key. */
    method MemoisedGetHeader(headerName: string) returns (v: Option<string>)
      modifies this`headers
      ensures old(headers).Some? ==> headers == old(headers)
      ensures old(headers).None? ==> headers == Some(ToHeaders(message, fmt))
      ensures headers.Some? && v == TryGetValue(headers.value, headerName)
    {
      var h := MemoisedHeaders();
      v := TryGetValue(h, headerName);
    }

    /** A new, empty cookie dictionary on every call; no field changes. */
    method Cookies() returns (c: CookieDictionary)
      ensures fresh(c) && c.entries == map[]
    {
      c := new CookieDictionary();
    }

    /** Marks requests as coming from the local subnet over the message queue. */
    function RequestAttributes(): (a: set<RequestAttribute>)
      ensures a * AnyNetworkAccessType == {LocalSubnet}
      ensures a * AnyNetworkAccessType <= InternalNetworkAccess && External !in a
      ensures a * AnyEndpoint == {MessageQueue}
      ensures a <= AnyNetworkAccessType + AnyEndpoint
    {
      {LocalSubnet, MessageQueue}
    }
  }

  /** The two built-in capabilities never fault and yield the context's own views, never null. */
  lemma BuiltinCapabilitiesAreViews(ctx: BasicRequestContext)
    requires ctx.Valid()
    ensures ctx.Get(HttpRequestCap) == Success(ctx.request) && ctx.request != null
    ensures ctx.Get(HttpResponseCap) == Success(ctx.response) && ctx.response != null
    ensures ctx.request.context == ctx && ctx.response.context == ctx
  {
  }

  /** With no payload at construction nothing is cached, so a payload set later names the operation. */
  method LatePayloadIsObserved(late: Message, g: Resolver?, fmt: Formatters, defaults: MessageDefaults)
    returns (before: Option<string>, after: Option<string>)
    requires late.body.Some?
    ensures before.None?
    ensures after == Some(late.body.value.typeName)
  {
    var ctx := new BasicRequestContext(None, g, fmt, defaults);
    before := ctx.OperationName();
    ctx.SetMessage(late);
    after := ctx.OperationName();
  }

  /** A name cached at construction survives a later change of message: the first read wins. */
  method FirstReadWins(first: Message, second: Message, g: Resolver?, fmt: Formatters, defaults: MessageDefaults)
    returns (name: Option<string>, path: Option<string>)
    requires first.body.Some?
    ensures name == Some(first.body.value.typeName)
    ensures path == Some(OneWayPathPrefix + first.body.value.typeName)
  {
    var ctx := new BasicRequestContext(Some(first), g, fmt, defaults);
    ctx.SetMessage(second);
    name := ctx.OperationName();
    path := ctx.pathInfo;
  }

  /** As written, the header dictionary is never built and every header lookup faults. */
  method HeadersNeverMaterialise(m: Option<Message>, g: Resolver?, fmt: Formatters, defaults: MessageDefaults, headerName: string)
    returns (first: Option<HeaderMap>, second: Option<HeaderMap>, lookup: Result<Option<string>, Fault>)
    ensures first.None? && second.None?
    ensures lookup == Failure(NullReference)
  {
    var ctx := new BasicRequestContext(m, g, fmt, defaults);
    first := ctx.Headers();
    second := ctx.Headers();
    lookup := ctx.GetHeader(headerName);
  }

  /** With the memoised getter, headers come from the message and unknown names give null. */
  method MemoisedHeadersServeMessage(m: Message, g: Resolver?, fmt: Formatters, defaults: MessageDefaults, unknown: string)
    returns (priority: Option<string>, replyTo: Option<string>, missing: Option<string>)
    requires unknown !in HeaderKeys
    ensures priority.Some? && ParseDecimal(priority.value) == Some(m.priority)
    ensures replyTo == m.replyTo
    ensures missing.None?
  {
    var ctx := new BasicRequestContext(Some(m), g, fmt, defaults);
    priority := ctx.MemoisedGetHeader("Priority");
    replyTo := ctx.MemoisedGetHeader("ReplyTo");
    missing := ctx.MemoisedGetHeader(unknown);
    ToHeadersIntegerRoundTrip(m, fmt);
  }

  /** Two reads of Cookies give two distinct empty dictionaries. */
  method CookiesAreIndependent(ctx: BasicRequestContext) returns (a: CookieDictionary, b: CookieDictionary)
    ensures a != b && a.entries == map[] && b.entries == map[]
  {
    a := ctx.Cookies();
    b := ctx.Cookies();
  }
}
