/**
  Certificates as records: an issuer, a validity period and a key, without the cryptography.

  A CA root is identified by its serial number. A private key is identified by the serial number of the
  certificate it was generated with, so "the key matches the certificate" is an equality of serials. Instants
  and durations count seconds, as the validity period of a certificate does (section 4.1.2.5 of RFC 5280).
  Data that does not parse as a certificate is represented by a record whose period is empty: it never verifies.
 */
module Certs {
  import opened Options

  const DAY: int := 24 * 60 * 60
  const CA_EXPIRATION: int := 10 * 365 * DAY
  const SERVER_EXPIRATION: int := 1 * 365 * DAY
  const LOOKAHEAD: int := 60 * DAY

  /** A self-signed CA root certificate. */
  datatype CACert = CACert(serial: nat, notBefore: int, notAfter: int)

  /** A private key. `ec` is false when the PEM header is not "EC PRIVATE KEY". */
  datatype PrivateKey = PrivateKey(serial: nat, ec: bool)

  /** A certificate of a server or of a client, with the private key stored beside it. */
  datatype Leaf = Leaf(issuer: CACert, serial: nat, notBefore: int, notAfter: int, dnsName: string, key: PrivateKey)

  /** The data of the CA root Secret: `ca.crt`, `ca.key` and, after a rotation, `old-ca.crt`. */
  datatype CASecret = CASecret(cert: CACert, key: PrivateKey, previous: Option<CACert>)

  predicate ValidAt(cert: CACert, at: int) {
    cert.notBefore <= at <= cert.notAfter
  }

  predicate KeyMatches(serial: nat, key: PrivateKey) {
    key.ec && key.serial == serial
  }

  /** A CA root verifies against itself: only its period and, if given, its key matter. */
  predicate VerifyCA(cert: CACert, key: Option<PrivateKey>, at: int) {
    && (key.Some? ==> KeyMatches(cert.serial, key.value))
    && ValidAt(cert, at)
  }

  /** The chain of a leaf verifies when the leaf and the root that issued it are both inside their period. */
  predicate ChainValidAt(leaf: Leaf, at: int) {
    leaf.notBefore <= at <= leaf.notAfter && ValidAt(leaf.issuer, at)
  }

  /** VerifyCert for a leaf. An empty name skips the check of the name. */
  predicate VerifyLeaf(leaf: Leaf, pool: seq<CACert>, dnsName: string, at: int) {
    && KeyMatches(leaf.serial, leaf.key)
    && leaf.issuer in pool
    && ChainValidAt(leaf, at)
    && (dnsName == "" || dnsName == leaf.dnsName)
  }

  function GenerateCA(serial: nat, now: int): CACert {
    CACert(serial, now, now + CA_EXPIRATION)
  }

  function GenerateLeaf(ca: CACert, serial: nat, now: int, dnsName: string): Leaf {
    Leaf(ca, serial, now, now + SERVER_EXPIRATION, dnsName, PrivateKey(serial, true))
  }

  /** A certificate signed at `t` verifies under its name for 365 days, while the root that signed it is valid. */
  lemma LeafPeriod(ca: CACert, serial: nat, t: int, name: string, at: int)
    ensures VerifyLeaf(GenerateLeaf(ca, serial, t, name), [ca], name, at) <==>
              t <= at <= t + 31_536_000 && ca.notBefore <= at <= ca.notAfter
    ensures at > t + 31_536_000 ==> !ChainValidAt(GenerateLeaf(ca, serial, t, name), at)
  {
  }

  /** A CA root generated at `t` is valid for 3650 days, and has to rotate after 3590. */
  lemma RootPeriod(serial: nat, t: int, previous: Option<CACert>, now: int)
    requires t <= now
    ensures ValidAt(GenerateCA(serial, t), now) <==> now <= t + 315_360_000
    ensures MustRotate(CASecret(GenerateCA(serial, t), PrivateKey(serial, true), previous), now) <==>
              now > t + 310_176_000
  {
  }

  /** When a CA root has to rotate, every certificate that is not younger than the root has expired. */
  lemma LeafOutlived(secret: CASecret, leaf: Leaf, now: int)
    requires leaf.notAfter == leaf.notBefore + 31_536_000 && leaf.notBefore <= secret.cert.notBefore
    requires secret.cert.notAfter == secret.cert.notBefore + CA_EXPIRATION
    requires KeyMatches(secret.cert.serial, secret.key) && secret.cert.notBefore <= now && MustRotate(secret, now)
    ensures leaf.notAfter < now && !ChainValidAt(leaf, now)
  {
  }

  /** The CA bundle: the current CA root, followed by the old one if there is one. */
  function CABundle(secret: CASecret): (bundle: seq<CACert>)
    ensures secret.cert in bundle
    ensures forall c :: c in bundle <==> c == secret.cert || secret.previous == Some(c)
  {
    [secret.cert] + (if secret.previous.Some? then [secret.previous.value] else [])
  }

  function Rotate(secret: CASecret, renewed: CACert): CASecret {
    CASecret(renewed, PrivateKey(renewed.serial, true), Some(secret.cert))
  }

  predicate MustRotate(secret: CASecret, now: int) {
    !VerifyCA(secret.cert, Some(secret.key), now + LOOKAHEAD)
  }

  predicate MustDropOld(secret: CASecret, now: int) {
    secret.previous.Some? && !VerifyCA(secret.previous.value, None, now)
  }

  function DropOld(secret: CASecret): CASecret {
    secret.(previous := None)
  }
}
