# Feishu webhook hook: a Dafny model

This project models `FeishuHook`, the Airflow hook that posts alert messages to a
Feishu (Lark) chat webhook. The hook can sign a request. It then takes the current
Unix time in whole seconds and builds the key `"<timestamp>\n<secret>"` from that
time and the connection's password. It sends the base64 HMAC-SHA256 of the empty
message under that key. The hook builds one of four JSON payloads: `text` or
`post`, each signed or unsigned. It posts the payload and accepts the reply only
when the reply's `StatusCode` converts to the integer 0.

Modules, leaf first:

- `Wrappers` (`wrappers.dfy`): `Option`, `Result`, Python truthiness of an optional string (`NonEmpty`), and `Error`. `Error` has one constructor per raise site of the hook. `MalformedResponse` stands for several Python exceptions at one site: AttributeError, TypeError and ValueError.
- `Json` (`json.dfy`): the JSON value tree the hook builds before `json.dumps`. Objects keep their keys in insertion order. The module also has lookup, paths and key deletion.
- `Decimal` (`decimal.dfy`): Python's `str(n)` (used for the timestamp) and `int(s)` (used on a string `StatusCode`). It proves that the two are inverse to each other.
- `Signer` (`signer.dfy`): `_get_sign`, which builds the signing key and rejects an empty secret.
- `Message` (`message.dfy`): the payload shapes of `_build_message` once the signature is known.
- `FeishuHook` (`hook.dfy`): the configuration, `_build_message` with its signing step, the response check, and `send`.

The hook's three fields (`message_type`, `message`, `secret`) are set once in
`__init__` and only read afterwards. They are therefore a `Config` value, and every
operation is a function of it. Inputs from the outside world are parameters:

- `now: nat` is the clock reading, already truncated to whole seconds.
- `Connection(host, password)` is the record the connection store returns.
- `mac` is the HMAC-SHA256-then-base64 function.
- `reply` is the JSON body the webhook answers with.

`Send` returns a `SendOutcome`. It records the request the hook would issue, if
any, and the exception it would raise, if any. This lets the model state "no
request was issued".

Points where the hook's behaviour is easy to misread:

- The host check is done by `get_conn`, which `self.run` calls, so it comes after the payload is built. An empty host is reported only when the type, secret and message checks all pass (`FeishuHook.Send`, `FeishuHook.SendRejectsBeforeRequest`).
- A `post` dict that lacks `title` or `tags` raises `KeyError` (`MissingKey`). `title` is checked first.
- A `text` message is passed through whatever it is: a string, `None` or a dict.
- `_build_message` on its own, called with a type it has no branch for, ends with `data` unbound (`DataUnbound`). `send` never reaches that case (`FeishuHook.SendNeverUnbound`).
- The `StatusCode` value goes through Python's `int()`. So `false`, `"0"`, `"-0"` and `"000"` are accepted as success, and a JSON `null` counts as missing.

## Model

| member | source | states |
|---|---|---|
| `Decimal.DecimalString` | hooks/feishu.py:49 | `str(n)` is a non-empty string of digits with no leading zero except in "0"; it has one digit exactly when n < 10 |
| `Decimal.DigitsValueOfDecimalString` | hooks/feishu.py:49 | reading the timestamp string back as a number gives the clock reading: `int(str(n)) == n` |
| `Decimal.DecimalStringOfDigitsValue` | hooks/feishu.py:49 | every canonical digit string is `str` of its value, so `str` is a bijection onto canonical strings |
| `Decimal.DecimalStringInjective` | hooks/feishu.py:49 | two different clock readings never give the same timestamp string |
| `Decimal.ParseInt` | hooks/feishu.py:126 | `int(s)` succeeds exactly on an optional sign followed by one or more digits; it yields the decimal value of the digits, negated after a `-` |
| `Decimal.ParseIntOfIntString` | hooks/feishu.py:126 | `int(str(i)) == i` for every integer, negative ones included |
| `Decimal.ZerosParseToZero` | hooks/feishu.py:126 | any non-empty run of zeros, bare or after `-` or `+`, reads as 0, so "00", "-0" and "+000" are success codes |
| `Signer.SignKey` | hooks/feishu.py:39 | the key is the timestamp, then one newline, then the secret, and nothing else |
| `Signer.SignKeyInjective` | hooks/feishu.py:39 | if neither timestamp holds a newline, equal keys mean equal timestamps and equal secrets |
| `Signer.GetSign` | hooks/feishu.py:32-45 | fails with MissingSecret exactly when the password is absent or empty; otherwise it is the MAC of the empty message under the key built from this timestamp and this secret |
| `Signer.TimestampedKeysDiffer` | hooks/feishu.py:39-50 | a different clock reading or a different secret always gives a different signing key |
| `Signer.SignaturesDiffer` | hooks/feishu.py:32-50 | if the MAC does not collide on the two keys, a different clock reading or a different secret gives a different signature, so a signature is tied to its timestamp |
| `Message.Content` | hooks/feishu.py:56-97 | content exists exactly for `text`, or for `post` with a dict holding `title` and `tags`; for text, `content.text` is the message unchanged |
| `Message.Build` | hooks/feishu.py:47-98 | fails exactly when the content fails, with the same error; a payload is an object whose `msg_type` is the message type and whose `content` is the content; `timestamp` and `sign` are present exactly when a signature is given, and carry its two strings |
| `Message.PostNestsTags` | hooks/feishu.py:61-97 | in a post payload, `content.post.zh_cn.title` is `message['title']`, and `content.post.zh_cn.content` is a one-element list holding `message['tags']` whole (nested, not flattened) |
| `Message.TextWireFormat` | hooks/feishu.py:51-81 | the exact signed and unsigned text payloads, with the message passed through unchanged |
| `Message.PostWireFormat` | hooks/feishu.py:58-97 | the exact signed and unsigned post payloads for a dict holding `title` and `tags` |
| `Message.PayloadKeys` | hooks/feishu.py:52-97 | a payload's keys, in order, are `timestamp, sign, msg_type, content` when signed and `msg_type, content` when unsigned |
| `Message.BuildErrors` | hooks/feishu.py:47-98 | the errors in order: an unknown type leaves `data` unbound; a post message that is not a dict raises TypeError; then a missing `title`, then a missing `tags`, raise KeyError |
| `Message.StripSignature` | hooks/feishu.py:48-97 | signing never changes whether a payload is built; deleting `timestamp` and `sign` from a signed payload gives exactly the unsigned one, and deleting them from an unsigned one changes nothing |
| `FeishuHook.Timestamp` | hooks/feishu.py:49 | the timestamp is the canonical decimal string whose value is the clock reading |
| `FeishuHook.BuildMessage` | hooks/feishu.py:47-98 | with signing on and no usable secret, the result is MissingSecret for every type and message, so the secret is checked before the dict check; otherwise it fails exactly when the content fails; a payload carries `msg_type` equal to the configured type, carries the signature fields exactly when signing is on, and its `timestamp` is the same string the signing key was built from |
| `FeishuHook.SignedExtendsUnsigned` | hooks/feishu.py:48-97 | for one configuration, the signed payload minus `timestamp` and `sign` is the unsigned payload |
| `FeishuHook.PyInt` | hooks/feishu.py:126 | `int(code)` keeps a number, maps `true` to 1 and `false` to 0, parses a string as `int()` does, and fails on null, lists and objects |
| `FeishuHook.ResponseError` | hooks/feishu.py:125-127 | the reply is accepted exactly when its `StatusCode` is present, not null, and converts to 0; a missing, null or non-zero code is a delivery failure (AirflowException); a code `int()` rejects, or a reply that is not an object, is malformed |
| `FeishuHook.StatusCodeZeroOnly` | hooks/feishu.py:125-127 | a numeric or decimal-string `StatusCode` is a success exactly when its value is 0 |
| `FeishuHook.Send` | hooks/feishu.py:112-127 | an unsupported type fails with UnsupportedType and issues no request; a request is issued exactly when the type is supported, the payload builds and the host is non-empty; the request goes to the host as `application/json` with the built payload; after a request, the outcome is the reply check; no request means an error; with a supported type, a failed build reaches the caller with its own error, and an empty host after a good build gives MissingHost |
| `FeishuHook.SendRejectsBeforeRequest` | hooks/feishu.py:100-121 | with a supported type: a missing secret, then a post message that is not a dict, then a missing `title`, then a missing `tags`, then an empty host each fail with no request, whatever is checked after them |
| `FeishuHook.SendNeverUnbound` | hooks/feishu.py:114-121 | the type whitelist means `send` never ends with `data` unbound |
| `FeishuHook.SendSuccess` | hooks/feishu.py:112-127 | a `send` that returns normally posted, to the configured host, a payload of the configured type that is signed exactly when signing is on, and the reply's `StatusCode` converted to 0 |
| `FeishuHook.AlertPayload` | example/alert.py:20-40 | the example's two-tag alert, sent signed as a post, builds a payload with the fixed title and with both tags in one nested list |

## Left out

- HTTP transport: `get_conn`'s session and headers, `self.run` and the POST itself are network I/O. The model records the request and takes the reply as a parameter. Transport errors raised inside `HttpHook.run`, such as a non-2xx status, are not part of this model.
- `resp.json()` on a body that is not JSON is not modelled: the reply is already a JSON value.
- HMAC-SHA256 and base64 are a parameter `mac` over the key and message strings. The UTF-8 encoding of both is folded into it.
- `time.time()` is the parameter `now`, already truncated to whole seconds. The float and its truncation are not modelled.
- `get_connection` is the `Connection` parameter. `_get_sign` and `get_conn` each look the connection up, and the model assumes both lookups return the same record.
- `json.dumps` is not modelled: the payload is the JSON value tree, not its text.
- JSON numbers are integers only. A float `StatusCode` (where `int(0.5) == 0`) is not modelled.
- `Decimal.ParseInt`: accepts only an optional sign followed by ASCII digits. Python's `int()` also allows surrounding whitespace, underscores between digits and non-ASCII digits. Those are not modelled.
- A Python dict never holds a key twice. A JSON object here can, and lookup then takes the first binding.
- Logging (`self.log.info`) and `pprint` have no behaviour to verify.
- operators/feishu.py only forwards its four arguments to the hook and calls `send`. It is not part of this model.
- example/alert.py reads an external Variable, percent-encodes a timestamp with `urllib.parse.quote` and executes the operator. None of that is modelled. Its message is used as the concrete input of `FeishuHook.AlertPayload`, with the summary text and the URL as parameters.
