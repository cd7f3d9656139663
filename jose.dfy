/**
 * The JOSE values the key-resolution code works on, as opaque data: JSON Web Keys (RFC 7517),
 * key material, algorithm names, and pac4j's signature and encryption configurations.
 */
module Jose {
  import opened Results

  type Bytes = seq<bv8>

  /** A key pair as extracted from a key; the private half is absent for a public-only key. */
  datatype KeyPair = KeyPair(publicKey: Bytes, privateKey: Option<Bytes>)

  /** The "use" parameter of a JWK (section 4.2 of RFC 7517): signing or encryption. */
  datatype KeyUse = Signature | Encryption

  /**
   * A parsed JSON Web Key, by its class: an octet sequence (symmetric) key, an RSA key, an
   * elliptic-curve key, or a key of any other type (for instance an octet key pair).
   */
  datatype Jwk =
    | OctetSequenceKey(secret: Bytes, use: Option<KeyUse>)
    | RsaKey(rsaPair: KeyPair, use: Option<KeyUse>)
    | EcKey(ecPair: KeyPair, use: Option<KeyUse>)
    | OtherKey(keyType: string, use: Option<KeyUse>)

  /** The algorithm families pac4j has configurations for. */
  datatype Family = Secret | Rsa | Ec

  /** Key material bound into a configuration: raw secret bytes or a key pair. */
  datatype KeyMaterial = SecretBytes(bytes: Bytes) | Pair(keyPair: KeyPair)

  /** The family a key belongs to, if pac4j supports it. */
  function FamilyOf(jwk: Jwk): Option<Family>
  {
    match jwk
    case OctetSequenceKey(_, _) => Some(Secret)
    case RsaKey(_, _) => Some(Rsa)
    case EcKey(_, _) => Some(Ec)
    case OtherKey(_, _) => None
  }

  /** The material of a supported key: its bytes, or its key pair. */
  function MaterialOf(jwk: Jwk): KeyMaterial
    requires FamilyOf(jwk).Some?
  {
    match jwk
    case OctetSequenceKey(b, _) => SecretBytes(b)
    case RsaKey(p, _) => Pair(p)
    case EcKey(p, _) => Pair(p)
  }

  /** An algorithm or content-encryption method: the configuration class's own, or one set by name. */
  datatype AlgorithmChoice = LibraryDefault | Named(name: string)

  /** The choice an optional configuration field makes: the named one if present, the default if not. */
  function Override(field: Option<string>): (a: AlgorithmChoice)
    ensures field.None? ==> a == LibraryDefault
    ensures field.Some? ==> a == Named(field.value)
  {
    match field
    case None => LibraryDefault
    case Some(name) => Named(name)
  }

  /** pac4j's secret, RSA or EC signature configuration. */
  datatype SignatureConfiguration =
    SignatureConfiguration(family: Family, material: KeyMaterial, algorithm: AlgorithmChoice)

  /** pac4j's secret, RSA or EC encryption configuration. */
  datatype EncryptionConfiguration =
    EncryptionConfiguration(family: Family, material: KeyMaterial, algorithm: AlgorithmChoice, encryptionMethod: AlgorithmChoice)

  /** A failure while reading key configuration: a malformed `jwk` entry, or a remote key set that could not be read. */
  datatype JoseError = MalformedJwk(reason: string) | KeySetUnavailable(url: string, reason: string)

  /**
   * One signature or encryption declaration of the configuration file: the outcome of parsing
   * its `jwk` entry (absent when the entry is missing), and the optional `algorithm` and
   * `method` fields (the latter as `encryptionMethod`).
   */
  datatype KeyDeclaration = KeyDeclaration(
    jwk: Option<Result<Jwk, JoseError>>,
    algorithm: Option<string>,
    encryptionMethod: Option<string>)
}
