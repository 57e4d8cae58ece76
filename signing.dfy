/**
 * The request signature shared by the agent and the server: HMAC-SHA256
 * (RFC 2104 over SHA-256) of the data under the secret key, written as
 * lower-case hexadecimal. The MAC itself is an abstract function.
 */
module Signing {
  import opened Bytes

  /** An HMAC implementation: key, message to tag. */
  type Mac = (Bytes, Bytes) -> Bytes

  /** The length of an HMAC-SHA256 tag: the SHA-256 output size. */
  const MacSize: nat := 32

  /** `calculateHash(data, key)`: the hexadecimal form of the tag, two digits per byte. */
  function CalculateHash(hmac: Mac, data: Bytes, key: Bytes): (r: string)
    ensures |r| == 2 * |hmac(key, data)|
  {
    Hex(hmac(key, data))
  }

  /** Comparing hash strings is comparing tags: two hashes are equal exactly when the two MACs are. */
  lemma HashesAgree(hmac: Mac, d1: Bytes, k1: Bytes, d2: Bytes, k2: Bytes)
    ensures CalculateHash(hmac, d1, k1) == CalculateHash(hmac, d2, k2) <==> hmac(k1, d1) == hmac(k2, d2)
  {
    if CalculateHash(hmac, d1, k1) == CalculateHash(hmac, d2, k2) {
      HexInjective(hmac(k1, d1), hmac(k2, d2));
    }
  }
}
