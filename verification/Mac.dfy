/** The keyed hash behind nonces, session cookies and CSRF tokens. */
module Mac {
  import Base64Url

  /** HMAC-SHA-256: secret, message, 32-byte tag. */
  type Hmac = (string, string) -> seq<Base64Url.Byte>

  ghost predicate Injective(hmac: Hmac, secret: string) {
    forall m, m' :: hmac(secret, m) == hmac(secret, m') ==> m == m'
  }
}
