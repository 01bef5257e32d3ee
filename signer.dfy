/** `FeishuHook._get_sign`: the signing key and the signature of a signed request. */
module Signer {
  import opened Wrappers
  import opened Decimal

  /** base64(HMAC-SHA256(key, message)) over the UTF-8 bytes of both strings.
      The digest and the encoding are library code, so the model takes them as a parameter. */
  type Mac = (string, string) -> string

  /** The key `f'{timestamp}\n{secret}'`: the timestamp, one newline, the secret. */
  function SignKey(timestamp: string, secret: string): (key: string)
    ensures |key| == |timestamp| + 1 + |secret|
    ensures key[..|timestamp|] == timestamp && key[|timestamp|] == '\n'
    ensures key[|timestamp| + 1..] == secret
  {
    timestamp + "\n" + secret
  }

  /** A key names its timestamp and its secret: when neither timestamp holds a
      newline (a decimal timestamp never does), equal keys mean equal inputs. */
  lemma SignKeyInjective(ts1: string, secret1: string, ts2: string, secret2: string)
    requires '\n' !in ts1 && '\n' !in ts2
    requires SignKey(ts1, secret1) == SignKey(ts2, secret2)
    ensures ts1 == ts2 && secret1 == secret2
  {
  }

  /** `_get_sign(timestamp)` given the connection's password: the MAC of the
      empty message under the key, or MissingSecret when the password is empty or absent. */
  function GetSign(timestamp: string, password: Option<string>, mac: Mac): (r: Result<string, Error>)
    ensures r.Err? <==> !NonEmpty(password)
    ensures r.Err? ==> r.error == MissingSecret
    ensures r.Ok? ==> r.value == mac(SignKey(timestamp, password.value), "")
  {
    if !NonEmpty(password) then Err(MissingSecret)
    else
      var key := SignKey(timestamp, password.value);
      Ok(mac(key, ""))
  }

  /** Two clock readings and two secrets that are not both the same give different
      signing keys, so a key, and any signature taken under it, is tied to its
      timestamp. */
  lemma TimestampedKeysDiffer(now1: nat, secret1: string, now2: nat, secret2: string)
    requires now1 != now2 || secret1 != secret2
    ensures SignKey(DecimalString(now1), secret1) != SignKey(DecimalString(now2), secret2)
  {
    var ts1, ts2 := DecimalString(now1), DecimalString(now2);
    if SignKey(ts1, secret1) == SignKey(ts2, secret2) {
      SignKeyInjective(ts1, secret1, ts2, secret2);
      DecimalStringInjective(now1, now2);
      assert false;
    }
  }

  /** Corollary: when the MAC does not collide on these two keys, the two
      signatures differ, so a signature cannot be reused with another timestamp. */
  lemma SignaturesDiffer(now1: nat, secret1: string, now2: nat, secret2: string, mac: Mac)
    requires |secret1| > 0 && |secret2| > 0
    requires now1 != now2 || secret1 != secret2
    requires mac(SignKey(DecimalString(now1), secret1), "") == mac(SignKey(DecimalString(now2), secret2), "")
             ==> SignKey(DecimalString(now1), secret1) == SignKey(DecimalString(now2), secret2)
    ensures GetSign(DecimalString(now1), Some(secret1), mac) != GetSign(DecimalString(now2), Some(secret2), mac)
  {
    TimestampedKeysDiffer(now1, secret1, now2, secret2);
  }
}
