# BasicRequestContext in Dafny

A model of ServiceStack's `BasicRequestContext`, the request context a message taken off a
queue is wrapped in so that the HTTP-oriented service pipeline can execute it, and of
`MqExtensions.ToHeaders`, which renders a message's metadata as a header dictionary.

- `optional.dfy` — `Option` (a C# null or a value) and `Result` (a value or a runtime fault).
- `invariant_format.dfy` — invariant-culture integer text (`IntToDecimal`) and a strict reader
  of that text (`ParseDecimal`), with the round trip proved.
- `messaging.dfy` — the message fields the context reads, the empty message, the host's
  culture-dependent formatters, and `ToHeaders`.
- `host.dfy` — the `Resolver` (a partial map from a requested type's name to an instance),
  the request and response views, and the `BasicRequestContext` class with its fields,
  constructor, lazy getters, capability dispatch, cookies and request attributes; then
  client methods that construct contexts and exhibit what callers observe.

The process-wide default resolver is a constructor parameter kept in a constant field (it
may be null, as the static property may be unset), the
date, Guid and error formatters are function values of the host, and the runtime type name
of a payload is a field of the payload value. A C# null is `None` (or `null` for object
references); a `NullReferenceException` is `Failure(NullReference)`.

The header getter is modelled as written. Its guard is inverted: the cache starts null and is
assigned only when it is already non-null, so it is never built, every read returns null, and
`GetHeader` dereferences null. Memoise-once versions of both members are defined beside the
as-written ones (see Findings).

## Model

| member | source | states |
|---|---|---|
| `Host.BasicRequestContext.constructor` | src/ServiceStack/Host/BasicRequestContext.cs:24-33 | the message is the one given or else an empty one; both content types are the JSON MIME type; with a payload the operation name is cached as its type name and the path is "/json/oneway/" plus that name, without one both stay null; the request and response views are fresh and refer back to the context; no local resolver, no headers |
| `Host.BasicRequestContext.ActiveResolver` | src/ServiceStack/Host/BasicRequestContext.cs:17-20 | the resolver in force is the local override when set, else the process-wide default, which may itself be null |
| `Host.BasicRequestContext.SetResolver` | src/ServiceStack/Host/BasicRequestContext.cs:21 | the setter replaces only the local override |
| `Host.BasicRequestContext.SetMessage` | src/ServiceStack/Host/BasicRequestContext.cs:13 | the message setter replaces only the message (the cached name is not touched) |
| `Host.BasicRequestContext.OperationName` | src/ServiceStack/Host/BasicRequestContext.cs:35-38 | a cached name is returned unchanged; otherwise the payload's type name is returned and cached; with no payload null is returned and the cache stays null; nothing else changes |
| `Host.BasicRequestContext.SetOperationName` | src/ServiceStack/Host/BasicRequestContext.cs:39 | the setter overwrites the cache and nothing else |
| `Host.Resolver.TryResolve` | src/ServiceStack/Host/BasicRequestContext.cs:50 | a resolver yields the registered instance for a type name, and null exactly when none is registered |
| `Host.BasicRequestContext.Get` | src/ServiceStack/Host/BasicRequestContext.cs:42-51 | the request capability yields the request view itself, the response capability the response view itself, any other the local override's answer if set and otherwise the default resolver's, null included; the call faults with a null dereference exactly when another capability is asked for and neither resolver is set |
| `Host.BuiltinCapabilitiesAreViews` | src/ServiceStack/Host/BasicRequestContext.cs:31-32 | on a constructed context the two built-in capabilities never fault and never yield null, and yield views whose back-reference is that context |
| `Host.BasicRequestContext.Headers` | src/ServiceStack/Host/BasicRequestContext.cs:62-73 | from a null cache the getter returns null and the cache stays null; only a non-null cache would be rebuilt from the message |
| `Host.BasicRequestContext.GetHeader` | src/ServiceStack/Host/BasicRequestContext.cs:55-60 | from a null cache the lookup faults with a null dereference; from a built dictionary it returns the value under the name or null |
| `Host.HeadersNeverMaterialise` | src/ServiceStack/Host/BasicRequestContext.cs:62-73 | on any newly constructed context two reads of Headers return null and GetHeader faults, for every header name |
| `Host.BasicRequestContext.MemoisedHeaders` | src/ServiceStack/Host/BasicRequestContext.cs:62-73 | corrected getter: builds the dictionary from the message on the first read and returns the same cached dictionary afterwards |
| `Host.BasicRequestContext.MemoisedGetHeader` | src/ServiceStack/Host/BasicRequestContext.cs:55-60 | corrected lookup: never faults; returns the value in the (memoised) dictionary or null for a missing name |
| `Host.MemoisedHeadersServeMessage` | src/ServiceStack/Host/BasicRequestContext.cs:55-60 | with the corrected getter the Priority header reads back as the message's priority, ReplyTo is the message's, and a name outside the seven keys gives null |
| `Host.LatePayloadIsObserved` | src/ServiceStack/Host/BasicRequestContext.cs:38 | a context built without a payload names no operation, and after a message with a payload is set it names that payload's type: the null branch caches nothing |
| `Host.FirstReadWins` | src/ServiceStack/Host/BasicRequestContext.cs:28-29 | the name and path fixed at construction survive replacing the message |
| `Host.BasicRequestContext.Cookies` | src/ServiceStack/Host/BasicRequestContext.cs:75-78 | every read returns a newly allocated empty dictionary and changes no field |
| `Host.CookiesAreIndependent` | src/ServiceStack/Host/BasicRequestContext.cs:77 | two reads of Cookies are two distinct empty dictionaries |
| `Host.BasicRequestContext.RequestAttributes` | src/ServiceStack/Host/BasicRequestContext.cs:80-83 | the attributes carry exactly one network-access flag, LocalSubnet, which is internal (never External), and exactly one endpoint flag, MessageQueue |
| `Messaging.EmptyMessage` | src/ServiceStack/Host/BasicRequestContext.cs:26 | the substituted message has no payload and no reply id, reply address or error; its creation time and integer fields are the given defaults |
| `Messaging.TryGetValue` | src/ServiceStack/Host/BasicRequestContext.cs:58 | a lookup yields the stored value, or null for a missing key |
| `Messaging.ToHeaders` | src/ServiceStack/Host/BasicRequestContext.cs:107-120 | the dictionary has exactly the seven keys CreatedDate, Priority, RetryAttempts, ReplyId, ReplyTo, Options, Error; Priority, RetryAttempts and Options are the invariant decimal text of the message's integers; CreatedDate is the host's long date text and never null; ReplyId is null exactly when the message has none and is the Guid's text otherwise; ReplyTo passes through; Error is the dump of the (possibly absent) error record, which may be null |
| `Messaging.ToHeadersIntegerRoundTrip` | src/ServiceStack/Host/BasicRequestContext.cs:112-116 | reading the Priority, RetryAttempts and Options headers back yields the message's integers |
| `Messaging.ToHeadersCultureIndependent` | src/ServiceStack/Host/BasicRequestContext.cs:112-116 | the integer and reply headers are the same under any host formatters |
| `Messaging.ToHeadersIgnoresBody` | src/ServiceStack/Host/BasicRequestContext.cs:109-118 | the headers depend on the metadata only, not on the payload |
| `InvariantFormat.NatToDecimal` | src/ServiceStack/Host/BasicRequestContext.cs:112 | a natural number's text is a non-empty run of digits that starts with '0' only when it is "0" |
| `InvariantFormat.IntToDecimal` | src/ServiceStack/Host/BasicRequestContext.cs:112 | an integer's invariant text is its digits, preceded by '-' exactly when it is negative, with no separators, and starting with '0' only when it is "0" |
| `InvariantFormat.NatToDecimalValue` | src/ServiceStack/Host/BasicRequestContext.cs:112 | the digits of a natural number denote that number |
| `InvariantFormat.DecimalRoundTrip` | src/ServiceStack/Host/BasicRequestContext.cs:112-116 | reading an integer's invariant text back yields the integer |
| `InvariantFormat.DecimalInjective` | src/ServiceStack/Host/BasicRequestContext.cs:112-116 | distinct integers are rendered as distinct texts |
| `InvariantFormat.DecimalExamples` | src/ServiceStack/Host/BasicRequestContext.cs:112-113 | 5 renders as "5", 2 as "2", 0 as "0", -17 as "-17" |

## Findings

| source | as written | input that shows it | evidently intended | confidence | as-written member | corrected member |
|---|---|---|---|---|---|---|
| src/ServiceStack/Host/BasicRequestContext.cs:67 | the lazy getter assigns the header cache only when it is already non-null, so it stays null and `GetHeader` dereferences null | any context, any header name: the first `Headers` read returns null and `GetHeader("Priority")` raises `NullReferenceException` | build the dictionary when the cache is null, keep it, and look names up in it | high; not executed | `Host.HeadersNeverMaterialise` | `Host.MemoisedHeadersServeMessage` |

## Left out

- Setters of `Request`, `Response`, `ContentType`, `ResponseContentType` and `PathInfo`, and the plain auto-properties `IpAddress`, `RequestPreferences`, `CompressionType`, `AbsoluteUri` and `Files`: they only store a value.
- `Dispose`: its body is empty.
- `SetMessage`: assigning a null message is not modelled; the message field is never null here, so the `NullReferenceException` the getter would then raise does not arise.
- `Message`'s own constructor is not part of this model; the empty message has no payload, reply id, reply address or error, and takes its creation time and integer fields as parameters.
- The values of `MimeTypes.Json` and of the `RequestAttributes` flags are defined outside the modelled file: the JSON type is taken as "application/json", and the flags are named values grouped by network access and endpoint, with the security, verb, call-style and format flags left out.
- `DateTime.ToLongDateString`, `Guid.ToString` and `Dump`: culture-dependent or serialiser output, modelled as function values supplied by the host.
- `BasicRequest` and `BasicResponse` are not part of this model beyond a back-reference to the context.
- `Resolver.TryResolve`: the dependency container's internals are a fixed partial map; a type is named by a string, and the generic cast of the result is not modelled.
- `GetHeader`: a null header name (which `TryGetValue` rejects with `ArgumentNullException`) is not modelled; names are non-null strings.
- The width of the integer message fields is not visible in the modelled file; they are unbounded integers here, which the rendering handles exactly at any width.
- The process-wide default resolver is read once, at construction, and may be null; a change to it during a context's lifetime is not modelled.
