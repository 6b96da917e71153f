/** The messaging webhook: the subscription handshake (GET), the
    constant-time byte comparison, the `x-hub-signature-256` check and the
    outcome of a delivery (POST).

    HMAC-SHA256, UTF-8 encoding and JSON parsing are library calls; they are
    parameters here (`hmacHex`, `utf8`, `parses`), so every property below
    holds whatever those functions compute. */
module Webhook {
  import opened Common

  type Byte = bv8

  const SignaturePrefix: string := "sha256="

  /** What a webhook handler answers. */
  datatype Reply =
    | JsonError(status: int, error: string)   // `{ error }` with that status
    | PlainText(status: int, text: string)    // a `text/plain` body
    | Received                                // `{ received: true }`, status 200

  function StatusOf(r: Reply): int {
    match r
    case JsonError(s, _) => s
    case PlainText(s, _) => s
    case Received => 200
  }

  // ---------------------------------------------------------------------
  // GET: subscription handshake

  /** The handshake decision. `verifyToken` is the configured token; the
      three others are the `hub.*` query parameters (None when absent). */
  function Handshake(verifyToken: Option<string>, mode: Option<string>,
                     token: Option<string>, challenge: Option<string>): (r: Reply)
    // no configured token: a server error, whatever the request says
    ensures !Truthy(verifyToken) ==> r == JsonError(500, "Missing verify token")
    // the challenge is echoed exactly when every condition holds
    ensures Truthy(verifyToken) ==>
              (r.PlainText? <==> mode == Some("subscribe") && token == verifyToken && Truthy(challenge))
    ensures r.PlainText? ==> r == PlainText(200, challenge.value)
    // every other configured case is a 403
    ensures Truthy(verifyToken) && !r.PlainText? ==> r == JsonError(403, "Invalid verification")
  {
    if !Truthy(verifyToken) then JsonError(500, "Missing verify token")
    else if mode == Some("subscribe") && token == verifyToken && Truthy(challenge) then
      PlainText(200, challenge.value)
    else JsonError(403, "Invalid verification")
  }

  // ---------------------------------------------------------------------
  // Constant-time comparison

  /** Every byte pair of two equal-length arrays is equal. */
  ghost predicate AllPairsEqual(a: seq<Byte>, b: seq<Byte>)
    requires |a| == |b|
  {
    forall i :: 0 <= i < |a| ==> a[i] == b[i]
  }

  /** The comparison loop: OR-accumulate the XOR of each byte pair and
      compare the accumulator with zero. Unequal lengths answer false at once. */
  method TimingSafeEqual(a: seq<Byte>, b: seq<Byte>) returns (equal: bool)
    ensures |a| != |b| ==> !equal
    ensures |a| == |b| ==> (equal <==> AllPairsEqual(a, b))
    ensures equal <==> a == b
  {
    if |a| != |b| {
      return false;
    }
    var out: Byte := 0;
    var i := 0;
    while i < |a|
      invariant 0 <= i <= |a|
      invariant out == 0 <==> a[..i] == b[..i]
    {
      assert a[..i + 1] == a[..i] + [a[i]] && b[..i + 1] == b[..i] + [b[i]];
      XorOrZero(out, a[i], b[i]);
      out := out | (a[i] ^ b[i]);
      i := i + 1;
    }
    assert a[..i] == a && b[..i] == b;
    equal := out == 0;
  }

  /** The accumulator stays zero exactly when it was zero and the new pair is equal. */
  lemma XorOrZero(acc: Byte, x: Byte, y: Byte)
    ensures (acc | (x ^ y)) == 0 <==> acc == 0 && x == y
  {
  }

  // ---------------------------------------------------------------------
  // Signature verification

  /** The value the header must carry: "sha256=" followed by the hex HMAC
      of the raw body under the secret. */
  function ExpectedSignature(hmacHex: (string, string) -> string, secret: string, rawBody: string): (r: string)
    ensures StartsWith(r, SignaturePrefix)
    ensures r[|SignaturePrefix|..] == hmacHex(secret, rawBody)
  {
    SignaturePrefix + hmacHex(secret, rawBody)
  }

  /** Reference definition of an authentic delivery: a secret is configured,
      the header is present, carries the prefix, and its UTF-8 bytes are those
      of the expected signature. */
  predicate Authentic(appSecret: Option<string>, header: Option<string>, rawBody: string,
                      hmacHex: (string, string) -> string, utf8: string -> seq<Byte>)
  {
    Truthy(appSecret) && header.Some? && StartsWith(header.value, SignaturePrefix)
    && utf8(header.value) == utf8(ExpectedSignature(hmacHex, appSecret.value, rawBody))
  }

  /** `verifySignature`: a missing header reads as "", an unset secret or a
      header without the prefix fails before any HMAC is computed, and
      otherwise the UTF-8 bytes of the header are compared in constant time
      with those of the expected signature. */
  method VerifySignature(appSecret: Option<string>, header: Option<string>, rawBody: string,
                         hmacHex: (string, string) -> string, utf8: string -> seq<Byte>)
    returns (valid: bool)
    ensures !Truthy(appSecret) ==> !valid
    ensures !StartsWith(if header.Some? then header.value else "", SignaturePrefix) ==> !valid
    ensures header.None? ==> !valid
    ensures valid <==> Authentic(appSecret, header, rawBody, hmacHex, utf8)
  {
    var signature := if header.Some? then header.value else "";
    if !Truthy(appSecret) || !StartsWith(signature, SignaturePrefix) {
      return false;
    }
    var expected := ExpectedSignature(hmacHex, appSecret.value, rawBody);
    valid := TimingSafeEqual(utf8(signature), utf8(expected));
  }

  // ---------------------------------------------------------------------
  // POST: delivery

  /** The outcome of a delivery: 401 before the body is looked at when the
      signature fails; otherwise `{ received: true }` once the body parses
      (whether or not it has an `object` field), and 500 when it does not. */
  method Deliver(appSecret: Option<string>, header: Option<string>, rawBody: string,
                 hmacHex: (string, string) -> string, utf8: string -> seq<Byte>,
                 parses: string -> bool, parseError: string)
    returns (reply: Reply)
    ensures StatusOf(reply) == 401 <==> !Authentic(appSecret, header, rawBody, hmacHex, utf8)
    ensures StatusOf(reply) == 401 ==> reply == JsonError(401, "Invalid signature")
    ensures reply == Received <==> StatusOf(reply) != 401 && parses(rawBody)
    ensures StatusOf(reply) != 401 && !parses(rawBody) ==>
              reply == JsonError(500, if parseError != "" then parseError else "Webhook error")
  {
    var valid := VerifySignature(appSecret, header, rawBody, hmacHex, utf8);
    if !valid {
      return JsonError(401, "Invalid signature");
    }
    if !parses(rawBody) {
      return JsonError(500, if parseError != "" then parseError else "Webhook error");
    }
    reply := Received;
  }
}
