/** `FeishuHook`: the configuration fixed at construction, `_build_message` with its
    signing step, and the checks `send` performs around the HTTP request. The
    request itself is not executed: the model records the request that would be
    issued and takes the webhook's reply as a parameter. */
module FeishuHook {
  import opened Wrappers
  import opened Json
  import opened Decimal
  import opened Signer
  import opened Message

  /** The three fields `__init__` stores and nothing later changes. */
  datatype Config = Config(messageType: string, message: Json, secret: bool)

  /** The connection record resolved from `http_conn_id`. */
  datatype Connection = Connection(host: Option<string>, password: Option<string>)

  /** The POST handed to the transport: destination, Content-Type header and JSON body. */
  datatype Request = Request(url: string, contentType: string, body: Json)

  /** What one call of `send` did: the request it issued, if any, and the
      exception it raised, if any. */
  datatype SendOutcome = SendOutcome(request: Option<Request>, error: Option<Error>)

  /** The message types `send` accepts. */
  const SupportedTypes: seq<string> := ["text", "post"]

  /** `str(int(time.time()))`, given the clock reading already truncated to whole seconds. */
  function Timestamp(now: nat): (ts: string)
    ensures Canonical(ts) && DigitsValue(ts) == now
  {
    DigitsValueOfDecimalString(now);
    DecimalString(now)
  }

  /** `_build_message`, before `json.dumps`: when signing is on, the timestamp is
      taken and the signature computed first, so a missing secret is reported
      whatever the message type or message; then the payload is built. */
  function BuildMessage(cfg: Config, now: nat, password: Option<string>, mac: Mac): (r: Result<Json, Error>)
    ensures cfg.secret && !NonEmpty(password) ==> r == Err(MissingSecret)
    ensures !cfg.secret || NonEmpty(password) ==>
              (r.Ok? <==> Content(cfg.messageType, cfg.message).Ok?)
              && (r.Err? ==> r.error == Content(cfg.messageType, cfg.message).error)
    ensures r.Ok? ==> r.value.JObj? && Get(r.value, "msg_type") == Some(JStr(cfg.messageType))
    ensures r.Ok? ==> Get(r.value, "content") == Some(Content(cfg.messageType, cfg.message).value)
    ensures r.Ok? ==> (Get(r.value, "timestamp").Some? <==> cfg.secret) && (Get(r.value, "sign").Some? <==> cfg.secret)
    ensures r.Ok? && cfg.secret ==>
              Get(r.value, "timestamp") == Some(JStr(Timestamp(now)))
              && Get(r.value, "sign") == Some(JStr(mac(SignKey(Timestamp(now), password.value), "")))
  {
    if cfg.secret then
      var timestamp := Timestamp(now);
      var sign :- GetSign(timestamp, password, mac);
      Build(cfg.messageType, cfg.message, Some(Signature(timestamp, sign)))
    else
      Build(cfg.messageType, cfg.message, None)
  }

  /** A signed payload is the unsigned payload of the same configuration plus the
      two signature fields: deleting `timestamp` and `sign` gives it back exactly. */
  lemma SignedExtendsUnsigned(cfg: Config, now: nat, password: Option<string>, mac: Mac)
    requires cfg.secret && NonEmpty(password)
    ensures BuildMessage(cfg, now, password, mac).Ok? <==> BuildMessage(cfg.(secret := false), now, password, mac).Ok?
    ensures BuildMessage(cfg, now, password, mac).Ok? ==>
              Unsigned(BuildMessage(cfg, now, password, mac).value)
              == BuildMessage(cfg.(secret := false), now, password, mac).value
  {
    var ts := Timestamp(now);
    StripSignature(cfg.messageType, cfg.message, Signature(ts, GetSign(ts, password, mac).value));
  }

  /** `int(code)` for the JSON value of StatusCode; None where Python raises. */
  function PyInt(code: Json): (r: Option<int>)
    ensures code.JNum? ==> r == Some(code.n)
    ensures code.JBool? ==> r == Some(if code.b then 1 else 0)
    ensures code.JStr? ==> r == ParseInt(code.s)
    ensures code.JNull? || code.JArr? || code.JObj? ==> r.None?
  {
    match code
    case JNum(n) => Some(n)
    case JBool(b) => Some(if b then 1 else 0)
    case JStr(s) => ParseInt(s)
    case _ => None
  }

  /** The check on the decoded reply: `resp.json().get('StatusCode')` must be
      present, not null, and convert to the integer 0. A reply that is not an
      object, or a code `int()` rejects, escapes as MalformedResponse. */
  function ResponseError(reply: Json): (r: Option<Error>)
    ensures r.None? <==> (Get(reply, "StatusCode").Some? && Get(reply, "StatusCode").value != JNull
                          && PyInt(Get(reply, "StatusCode").value) == Some(0))
    ensures !reply.JObj? ==> r == Some(MalformedResponse)
    ensures reply.JObj? && (Get(reply, "StatusCode").None? || Get(reply, "StatusCode") == Some(JNull))
            ==> r == Some(DeliveryFailed)
    ensures Get(reply, "StatusCode").Some? && Get(reply, "StatusCode").value != JNull
            && PyInt(Get(reply, "StatusCode").value).Some? && PyInt(Get(reply, "StatusCode").value).value != 0
            ==> r == Some(DeliveryFailed)
    ensures Get(reply, "StatusCode").Some? && Get(reply, "StatusCode").value != JNull
            && PyInt(Get(reply, "StatusCode").value).None?
            ==> r == Some(MalformedResponse)
  {
    if !reply.JObj? then Some(MalformedResponse)
    else
      match Lookup(reply.fields, "StatusCode")
      case None => Some(DeliveryFailed)
      case Some(code) =>
        if code == JNull then Some(DeliveryFailed)
        else
          match PyInt(code)
          case None => Some(MalformedResponse)
          case Some(value) => if value != 0 then Some(DeliveryFailed) else None
  }

  /** A reply whose StatusCode is a number, or the decimal text of a number, is a
      success exactly when that number is 0. */
  lemma StatusCodeZeroOnly(reply: Json, n: int)
    requires Get(reply, "StatusCode") == Some(JNum(n)) || Get(reply, "StatusCode") == Some(JStr(IntString(n)))
    ensures ResponseError(reply).None? <==> n == 0
  {
    ParseIntOfIntString(n);
  }

  /** `send`: the type whitelist, then `_build_message`, then the host check in
      `get_conn`, then the POST and the StatusCode check. */
  function Send(cfg: Config, conn: Connection, now: nat, mac: Mac, reply: Json): (o: SendOutcome)
    ensures cfg.messageType !in SupportedTypes ==> o == SendOutcome(None, Some(UnsupportedType(cfg.messageType)))
    ensures o.request.Some? <==>
              cfg.messageType in SupportedTypes && BuildMessage(cfg, now, conn.password, mac).Ok? && NonEmpty(conn.host)
    ensures o.request.Some? ==>
              o.request.value == Request(conn.host.value, "application/json", BuildMessage(cfg, now, conn.password, mac).value)
    ensures o.request.Some? ==> o.error == ResponseError(reply)
    ensures o.request.None? ==> o.error.Some?
    ensures cfg.messageType in SupportedTypes && BuildMessage(cfg, now, conn.password, mac).Err?
            ==> o == SendOutcome(None, Some(BuildMessage(cfg, now, conn.password, mac).error))
    ensures cfg.messageType in SupportedTypes && BuildMessage(cfg, now, conn.password, mac).Ok? && !NonEmpty(conn.host)
            ==> o == SendOutcome(None, Some(MissingHost))
  {
    if cfg.messageType !in SupportedTypes then
      SendOutcome(None, Some(UnsupportedType(cfg.messageType)))
    else
      match BuildMessage(cfg, now, conn.password, mac)
      case Err(e) => SendOutcome(None, Some(e))
      case Ok(body) =>
        if !NonEmpty(conn.host) then SendOutcome(None, Some(MissingHost))
        else SendOutcome(Some(Request(conn.host.value, "application/json", body)), ResponseError(reply))
  }

  /** The failures of `send` that come before any request, in the order `send`
      meets them, each one independent of everything checked after it. */
  lemma SendRejectsBeforeRequest(cfg: Config, conn: Connection, now: nat, mac: Mac, reply: Json)
    ensures cfg.messageType in SupportedTypes && cfg.secret && !NonEmpty(conn.password)
            ==> Send(cfg, conn, now, mac, reply) == SendOutcome(None, Some(MissingSecret))
    ensures cfg.messageType == "post" && !cfg.message.JObj? && (!cfg.secret || NonEmpty(conn.password))
            ==> Send(cfg, conn, now, mac, reply) == SendOutcome(None, Some(MessageNotDict))
    ensures cfg.messageType == "post" && cfg.message.JObj? && (!cfg.secret || NonEmpty(conn.password))
            && !HasField(cfg.message.fields, "title")
            ==> Send(cfg, conn, now, mac, reply) == SendOutcome(None, Some(MissingKey("title")))
    ensures cfg.messageType == "post" && cfg.message.JObj? && (!cfg.secret || NonEmpty(conn.password))
            && HasField(cfg.message.fields, "title") && !HasField(cfg.message.fields, "tags")
            ==> Send(cfg, conn, now, mac, reply) == SendOutcome(None, Some(MissingKey("tags")))
    ensures cfg.messageType in SupportedTypes && BuildMessage(cfg, now, conn.password, mac).Ok? && !NonEmpty(conn.host)
            ==> Send(cfg, conn, now, mac, reply) == SendOutcome(None, Some(MissingHost))
  {
  }

  /** The whitelist in `send` keeps `_build_message` away from the types it has no
      branch for: `send` never fails with the unbound-variable error. */
  lemma SendNeverUnbound(cfg: Config, conn: Connection, now: nat, mac: Mac, reply: Json)
    ensures Send(cfg, conn, now, mac, reply).error != Some(DataUnbound)
  {
  }

  /** A `send` that returns normally posted a payload of the configured type to
      the configured host, signed exactly when signing is on, and got back a
      StatusCode equal to 0. */
  lemma SendSuccess(cfg: Config, conn: Connection, now: nat, mac: Mac, reply: Json)
    requires Send(cfg, conn, now, mac, reply).error.None?
    ensures cfg.messageType in SupportedTypes && NonEmpty(conn.host)
    ensures var req := Send(cfg, conn, now, mac, reply).request.value;
            req.url == conn.host.value && req.contentType == "application/json"
            && Get(req.body, "msg_type") == Some(JStr(cfg.messageType))
            && (Get(req.body, "sign").Some? <==> cfg.secret)
            && (Get(req.body, "timestamp").Some? <==> cfg.secret)
    ensures PyInt(Get(reply, "StatusCode").value) == Some(0)
  {
  }

  /** The failure alert of the example callback: a fixed title and two tags, a
      text summary and a link into the orchestration UI. */
  function AlertTags(text: string, url: string): seq<Json>
  {
    [JObj([("tag", JStr("text")), ("text", JStr(text))]),
     JObj([("tag", JStr("a")), ("text", JStr("查看详情")), ("href", JStr(url))])]
  }

  function AlertMessage(text: string, url: string): Json
  {
    JObj([("title", JStr("服务告警")), ("tags", JArr(AlertTags(text, url)))])
  }

  /** The example alert, sent signed as a post, builds a payload whose
      `content.post.zh_cn.content` is a one-element list holding both tags. */
  lemma AlertPayload(text: string, url: string, now: nat, password: Option<string>, mac: Mac)
    requires NonEmpty(password)
    ensures var r := BuildMessage(Config("post", AlertMessage(text, url), true), now, password, mac);
            r.Ok?
            && At(r.value, ["content", "post", "zh_cn", "title"]) == Some(JStr("服务告警"))
            && At(r.value, ["content", "post", "zh_cn", "content"]) == Some(JArr([JArr(AlertTags(text, url))]))
  {
    var message := AlertMessage(text, url);
    var ts := Timestamp(now);
    var sig := Signature(ts, GetSign(ts, password, mac).value);
    assert message.fields[1..][0] == message.fields[1];
    assert Lookup(message.fields, "tags") == Some(message.fields[1].1);
    PostNestsTags(message, Some(sig));
  }
}
