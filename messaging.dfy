/**
 * The queue message a request context is built from, and its metadata rendered as the
 * fixed seven-entry header dictionary of `MqExtensions.ToHeaders`.
 */
module Messaging {
  import opened Optional
  import opened InvariantFormat

  /** A point in time; only ever handed to the host's date formatter. */
  datatype DateTime = DateTime(ticks: int)

  /** A globally unique identifier; only ever handed to its text formatter. */
  datatype Guid = Guid(bits: nat)

  /** The structured error record a failed message carries. */
  datatype ResponseStatus = ResponseStatus(errorCode: string, message: string)

  /** A message payload; `typeName` is the simple name of its runtime type. */
  datatype Body = Body(typeName: string)

  /** The fields of a queue message that the request context reads. */
  datatype Message = Message(
    createdDate: DateTime,
    priority: int,
    retryAttempts: int,
    replyId: Option<Guid>,
    replyTo: Option<string>,
    options: int,
    error: Option<ResponseStatus>,
    body: Option<Body>)

  /**
   * What a parameterless message is stamped with: its creation time and the integer fields
   * its constructor sets.
   */
  datatype MessageDefaults = MessageDefaults(createdDate: DateTime, priority: int, retryAttempts: int, options: int)

  /** The message substituted when a context is built without one: it has no payload. */
  function EmptyMessage(d: MessageDefaults): (m: Message)
    ensures m.body.None? && m.replyId.None? && m.replyTo.None? && m.error.None?
    ensures m.createdDate == d.createdDate && m.priority == d.priority
    ensures m.retryAttempts == d.retryAttempts && m.options == d.options
  {
    Message(d.createdDate, d.priority, d.retryAttempts, None, None, d.options, None, None)
  }

  /**
   * The formatters whose output depends on the host: the current culture's long date
   * pattern, the text form of a Guid, and the structured dump of an (absent or present) error,
   * which may itself be null.
   */
  datatype Formatters = Formatters(
    longDate: DateTime -> string,
    guidText: Guid -> string,
    dump: Option<ResponseStatus> -> Option<string>)

  /** A header dictionary; a value of None is a key mapped to null. */
  type HeaderMap = map<string, Option<string>>

  const HeaderKeys: set<string> :=
    {"CreatedDate", "Priority", "RetryAttempts", "ReplyId", "ReplyTo", "Options", "Error"}

  /** `Dictionary.TryGetValue`: the value under the key, or null when the key is missing. */
  function TryGetValue(h: HeaderMap, key: string): (v: Option<string>)
    ensures key !in h ==> v.None?
    ensures key in h ==> v == h[key]
  {
    if key in h then h[key] else None
  }

  /** The message's metadata as headers: always exactly the seven keys of HeaderKeys. */
  function ToHeaders(m: Message, fmt: Formatters): (h: HeaderMap)
    ensures h.Keys == HeaderKeys
    ensures forall k :: k in h && k != "ReplyId" && k != "ReplyTo" && k != "Error" ==> h[k].Some?
    ensures h["Priority"] == Some(IntToDecimal(m.priority))
    ensures h["RetryAttempts"] == Some(IntToDecimal(m.retryAttempts))
    ensures h["Options"] == Some(IntToDecimal(m.options))
    ensures h["ReplyId"].None? <==> m.replyId.None?
    ensures m.replyId.Some? ==> h["ReplyId"] == Some(fmt.guidText(m.replyId.value))
    ensures h["ReplyTo"] == m.replyTo
    ensures h["CreatedDate"] == Some(fmt.longDate(m.createdDate))
    ensures h["Error"] == fmt.dump(m.error)
  {
    map[
      "CreatedDate" := Some(fmt.longDate(m.createdDate)),
      "Priority" := Some(IntToDecimal(m.priority)),
      "RetryAttempts" := Some(IntToDecimal(m.retryAttempts)),
      "ReplyId" := if m.replyId.Some? then Some(fmt.guidText(m.replyId.value)) else None,
      "ReplyTo" := m.replyTo,
      "Options" := Some(IntToDecimal(m.options)),
      "Error" := fmt.dump(m.error)
    ]
  }

  /** The integer headers read back as the message's priority, retry count and options. */
  lemma ToHeadersIntegerRoundTrip(m: Message, fmt: Formatters)
    ensures var h := ToHeaders(m, fmt);
      && ParseDecimal(h["Priority"].value) == Some(m.priority)
      && ParseDecimal(h["RetryAttempts"].value) == Some(m.retryAttempts)
      && ParseDecimal(h["Options"].value) == Some(m.options)
  {
    DecimalRoundTrip(m.priority);
    DecimalRoundTrip(m.retryAttempts);
    DecimalRoundTrip(m.options);
  }

  /**
   * The integer and reply-routing headers do not depend on the host's formatters: two hosts
   * with different cultures produce the same text for them.
   */
  lemma ToHeadersCultureIndependent(m: Message, f1: Formatters, f2: Formatters)
    ensures var h1, h2 := ToHeaders(m, f1), ToHeaders(m, f2);
      && h1["Priority"] == h2["Priority"]
      && h1["RetryAttempts"] == h2["RetryAttempts"]
      && h1["Options"] == h2["Options"]
      && h1["ReplyTo"] == h2["ReplyTo"]
      && (h1["ReplyId"].None? <==> h2["ReplyId"].None?)
  {
  }

  /** Messages that differ only in their payload have the same headers. */
  lemma ToHeadersIgnoresBody(m: Message, b: Option<Body>, fmt: Formatters)
    ensures ToHeaders(m.(body := b), fmt) == ToHeaders(m, fmt)
  {
  }
}
