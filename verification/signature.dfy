/** The webhook signature check of app/utils/webhook-verification.js.

    The keyed digest (HMAC per RFC 2104 over SHA-256 per FIPS 180-4, then
    base64 per section 4 of RFC 4648) is not modelled: it is the parameter
    `sign`, so every property below holds for whatever function computes it. */
module Signature {
  import opened Wrappers

  /** `sign(secret, message)`: the base64 text of the keyed digest of `message`. */
  type Signer = (string, string) -> string

  /** Length of a base64-encoded 32-byte SHA-256 digest: 4 * ceil(32 / 3). */
  const DigestLength: nat := 44

  /** The signer produces base64 SHA-256 digests, which always have 44 characters. */
  ghost predicate ProducesDigests(sign: Signer) {
    forall secret, message :: |sign(secret, message)| == DigestLength
  }

  /** `verifyShopifyWebhook(topic, hmac, body, rawBody)`: the digest of the raw
      body is compared by exact (`===`) equality with the header value, which is
      absent (`None`) when the header was not sent. `topic` and `body` are
      accepted but not consulted. */
  function VerifyWebhook<Topic, Body>(sign: Signer, secret: string, topic: Topic,
                                      hmac: Option<string>, body: Body, rawBody: string): (ok: bool)
    ensures ok <==> hmac.Some? && hmac.value == sign(secret, rawBody)
    ensures hmac.None? ==> !ok
  {
    Some(sign(secret, rawBody)) == hmac
  }

  /** The result depends only on the secret, the header and the raw body:
      neither the topic nor the parsed body can change it. */
  lemma VerifyIgnoresTopicAndBody<Topic, Body>(sign: Signer, secret: string, hmac: Option<string>,
                                               rawBody: string, t1: Topic, t2: Topic, b1: Body, b2: Body)
    ensures VerifyWebhook(sign, secret, t1, hmac, b1, rawBody)
         == VerifyWebhook(sign, secret, t2, hmac, b2, rawBody)
  {
  }

  /** A header produced with the same secret over the same raw body always verifies. */
  lemma SignedBodyVerifies<Topic, Body>(sign: Signer, secret: string, topic: Topic, body: Body, rawBody: string)
    ensures VerifyWebhook(sign, secret, topic, Some(sign(secret, rawBody)), body, rawBody)
  {
  }

  /** Tamper detection, up to collisions: a header signed over some body
      `signedBody` accepts the raw body received exactly when the two bodies
      have the same digest. A 44-character digest cannot tell every pair of
      texts apart, so a different body is rejected only when its digest
      differs; comparing digests offers no more than that. */
  lemma TamperedBodyFails<Topic, Body>(sign: Signer, secret: string, topic: Topic, body: Body,
                                       rawBody: string, signedBody: string)
    ensures VerifyWebhook(sign, secret, topic, Some(sign(secret, signedBody)), body, rawBody)
        <==> sign(secret, signedBody) == sign(secret, rawBody)
  {
  }

  /** An empty header never verifies, because a digest always has 44 characters. */
  lemma EmptyHeaderFails<Topic, Body>(sign: Signer, secret: string, topic: Topic, body: Body, rawBody: string)
    requires ProducesDigests(sign)
    ensures !VerifyWebhook(sign, secret, topic, Some(""), body, rawBody)
  {
    assert |sign(secret, rawBody)| == DigestLength;
  }
}
