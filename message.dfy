/** The payload construction of `FeishuHook._build_message`, once the signature
    (if any) is known: the four shapes text/post, signed/unsigned. */
module Message {
  import opened Wrappers
  import opened Json

  /** The `timestamp` and `sign` pair a signed payload carries. */
  datatype Signature = Signature(timestamp: string, sign: string)

  /** The value under `content`: `{'text': message}` for text, and for post
      `{'post': {'zh_cn': {'title': message['title'], 'content': [message['tags']]}}}`. */
  function Content(messageType: string, message: Json): (r: Result<Json, Error>)
    ensures r.Ok? <==> messageType == "text"
                       || (messageType == "post" && message.JObj?
                           && HasField(message.fields, "title") && HasField(message.fields, "tags"))
    ensures r.Ok? && messageType == "text" ==> Get(r.value, "text") == Some(message)
  {
    if messageType == "text" then
      Ok(JObj([("text", message)]))
    else if messageType == "post" then
      if !message.JObj? then Err(MessageNotDict)
      else
        match Lookup(message.fields, "title")
        case None => Err(MissingKey("title"))
        case Some(title) =>
          match Lookup(message.fields, "tags")
          case None => Err(MissingKey("tags"))
          case Some(tags) =>
            var zhCn := JObj([("title", title), ("content", JArr([tags]))]);
            Ok(JObj([("post", JObj([("zh_cn", zhCn)]))]))
    else
      Err(DataUnbound)
  }

  /** The payload for a message type, a message and an optional signature. */
  function Build(messageType: string, message: Json, sig: Option<Signature>): (r: Result<Json, Error>)
    ensures r.Err? <==> Content(messageType, message).Err?
    ensures r.Err? ==> r.error == Content(messageType, message).error
    ensures r.Ok? ==> r.value.JObj?
    ensures r.Ok? ==> Get(r.value, "msg_type") == Some(JStr(messageType))
    ensures r.Ok? ==> Get(r.value, "content") == Some(Content(messageType, message).value)
    ensures r.Ok? ==> (Get(r.value, "timestamp").Some? <==> sig.Some?)
    ensures r.Ok? ==> (Get(r.value, "sign").Some? <==> sig.Some?)
    ensures r.Ok? && sig.Some? ==>
              Get(r.value, "timestamp") == Some(JStr(sig.value.timestamp))
              && Get(r.value, "sign") == Some(JStr(sig.value.sign))
  {
    var content :- Content(messageType, message);
    var body := [("msg_type", JStr(messageType)), ("content", content)];
    match sig
    case None => Ok(JObj(body))
    case Some(s) =>
      var signed := [("timestamp", JStr(s.timestamp)), ("sign", JStr(s.sign))] + body;
      assert signed[1..][1..] == body;
      Ok(JObj(signed))
  }

  /** The payload with its signature fields deleted. */
  function Unsigned(payload: Json): (r: Json)
    requires payload.JObj?
    ensures r.JObj? && !HasField(r.fields, "timestamp") && !HasField(r.fields, "sign")
  {
    JObj(Without(Without(payload.fields, "timestamp"), "sign"))
  }

  /** Post payload: `content.post.zh_cn.title` is the message's title, and
      `content.post.zh_cn.content` is a one-element list holding the message's
      whole tag list, nested one level rather than flattened into it. */
  lemma PostNestsTags(message: Json, sig: Option<Signature>)
    requires Build("post", message, sig).Ok?
    ensures message.JObj? && HasField(message.fields, "title") && HasField(message.fields, "tags")
    ensures At(Build("post", message, sig).value, ["content", "post", "zh_cn", "title"])
            == Lookup(message.fields, "title")
    ensures At(Build("post", message, sig).value, ["content", "post", "zh_cn", "content"])
            == Some(JArr([Lookup(message.fields, "tags").value]))
  {
    var payload := Build("post", message, sig).value;
    var title, tags := Lookup(message.fields, "title").value, Lookup(message.fields, "tags").value;
    var zhCn := JObj([("title", title), ("content", JArr([tags]))]);
    var post := JObj([("zh_cn", zhCn)]);
    var content := JObj([("post", post)]);
    assert Content("post", message) == Ok(content);
    assert Get(payload, "content") == Some(content);
    assert zhCn.fields[1..] == [("content", JArr([tags]))];
    forall last | last in ["title", "content"]
      ensures At(payload, ["content", "post", "zh_cn", last]) == At(zhCn, [last])
    {
      AtStep(payload, ["content", "post", "zh_cn", last]);
      assert ["content", "post", "zh_cn", last][1..] == ["post", "zh_cn", last];
      AtStep(content, ["post", "zh_cn", last]);
      assert ["post", "zh_cn", last][1..] == ["zh_cn", last];
      AtStep(post, ["zh_cn", last]);
      assert ["zh_cn", last][1..] == [last];
    }
    AtStep(zhCn, ["title"]);
    AtStep(zhCn, ["content"]);
  }

  /** The text wire formats: the message is passed through unchanged, whatever it
      is (a string, None, or even a dict), and a signature adds `timestamp` and
      `sign` in front of `msg_type` and `content`. */
  lemma TextWireFormat(message: Json, s: Signature)
    ensures Build("text", message, None)
            == Ok(JObj([("msg_type", JStr("text")), ("content", JObj([("text", message)]))]))
    ensures Build("text", message, Some(s))
            == Ok(JObj([("timestamp", JStr(s.timestamp)), ("sign", JStr(s.sign)),
                        ("msg_type", JStr("text")), ("content", JObj([("text", message)]))]))
  {
    var body := [("msg_type", JStr("text")), ("content", JObj([("text", message)]))];
    assert [("timestamp", JStr(s.timestamp)), ("sign", JStr(s.sign))] + body
           == [("timestamp", JStr(s.timestamp)), ("sign", JStr(s.sign)),
               ("msg_type", JStr("text")), ("content", JObj([("text", message)]))];
  }

  /** The post wire formats, for a dict message holding `title` and `tags`. */
  lemma PostWireFormat(fields: seq<(string, Json)>, title: Json, tags: Json, s: Signature)
    requires Lookup(fields, "title") == Some(title) && Lookup(fields, "tags") == Some(tags)
    ensures var content := JObj([("post", JObj([("zh_cn", JObj([("title", title), ("content", JArr([tags]))]))]))]);
            Build("post", JObj(fields), None) == Ok(JObj([("msg_type", JStr("post")), ("content", content)]))
            && Build("post", JObj(fields), Some(s))
               == Ok(JObj([("timestamp", JStr(s.timestamp)), ("sign", JStr(s.sign)),
                           ("msg_type", JStr("post")), ("content", content)]))
  {
    var content := JObj([("post", JObj([("zh_cn", JObj([("title", title), ("content", JArr([tags]))]))]))]);
    assert Content("post", JObj(fields)) == Ok(content);
    var body := [("msg_type", JStr("post")), ("content", content)];
    assert [("timestamp", JStr(s.timestamp)), ("sign", JStr(s.sign))] + body
           == [("timestamp", JStr(s.timestamp)), ("sign", JStr(s.sign)), ("msg_type", JStr("post")), ("content", content)];
  }

  /** The top-level keys of a payload, in order: `timestamp` and `sign` together
      exactly when signed, then `msg_type` and `content`, and nothing else. */
  lemma PayloadKeys(messageType: string, message: Json, sig: Option<Signature>)
    requires Build(messageType, message, sig).Ok?
    ensures sig.Some? ==> Keys(Build(messageType, message, sig).value.fields) == ["timestamp", "sign", "msg_type", "content"]
    ensures sig.None? ==> Keys(Build(messageType, message, sig).value.fields) == ["msg_type", "content"]
  {
  }

  /** Which inputs produce no payload, and with which error: the type first, then
      the dict check, then `message['title']`, then `message['tags']`. */
  lemma BuildErrors(messageType: string, message: Json, sig: Option<Signature>)
    ensures messageType != "text" && messageType != "post" ==> Build(messageType, message, sig) == Err(DataUnbound)
    ensures messageType == "post" && !message.JObj? ==> Build(messageType, message, sig) == Err(MessageNotDict)
    ensures messageType == "post" && message.JObj? && !HasField(message.fields, "title")
            ==> Build(messageType, message, sig) == Err(MissingKey("title"))
    ensures messageType == "post" && message.JObj? && HasField(message.fields, "title") && !HasField(message.fields, "tags")
            ==> Build(messageType, message, sig) == Err(MissingKey("tags"))
  {
  }

  /** Signing only adds the two signature fields: a message type and message that
      build unsigned also build signed, and deleting `timestamp` and `sign` from the
      signed payload gives exactly the unsigned payload. */
  lemma StripSignature(messageType: string, message: Json, s: Signature)
    ensures Build(messageType, message, Some(s)).Ok? <==> Build(messageType, message, None).Ok?
    ensures Build(messageType, message, Some(s)).Ok? ==>
              Unsigned(Build(messageType, message, Some(s)).value) == Build(messageType, message, None).value
    ensures Build(messageType, message, None).Ok? ==>
              Unsigned(Build(messageType, message, None).value) == Build(messageType, message, None).value
  {
    if Content(messageType, message).Ok? {
      var unsigned := [("msg_type", JStr(messageType)), ("content", Content(messageType, message).value)];
      StripFields(s, unsigned);
    }
  }

  lemma StripFields(s: Signature, unsigned: seq<(string, Json)>)
    requires !HasField(unsigned, "timestamp") && !HasField(unsigned, "sign")
    ensures Without(Without([("timestamp", JStr(s.timestamp)), ("sign", JStr(s.sign))] + unsigned, "timestamp"), "sign") == unsigned
    ensures Without(Without(unsigned, "timestamp"), "sign") == unsigned
  {
    var signed := [("timestamp", JStr(s.timestamp)), ("sign", JStr(s.sign))] + unsigned;
    WithoutAbsent(unsigned, "timestamp");
    WithoutAbsent(unsigned, "sign");
    assert signed[1..] == [("sign", JStr(s.sign))] + unsigned;
    assert Without(signed, "timestamp") == [("sign", JStr(s.sign))] + unsigned;
    assert ([("sign", JStr(s.sign))] + unsigned)[1..] == unsigned;
  }
}
