/**
 * Resolution of a JSON Web Key, or of a configuration declaration holding one, into a pac4j
 * signature or encryption configuration. Keys of an unsupported type resolve to nothing
 * (Java's null), never to an error.
 */
module JwkParser {
  import opened Results
  import opened Jose

  /** `parseEncryption(JWK)`: secret, RSA or EC encryption configuration, or none. */
  function ParseEncryptionKey(jwk: Jwk): (r: Option<EncryptionConfiguration>)
    ensures r.Some? <==> FamilyOf(jwk).Some?
    ensures r.Some? ==> r.value.family == FamilyOf(jwk).value && r.value.material == MaterialOf(jwk)
    ensures r.Some? ==> r.value.algorithm == LibraryDefault && r.value.encryptionMethod == LibraryDefault
  {
    match jwk
    case OctetSequenceKey(b, _) => Some(EncryptionConfiguration(Secret, SecretBytes(b), LibraryDefault, LibraryDefault))
    case RsaKey(p, _) => Some(EncryptionConfiguration(Rsa, Pair(p), LibraryDefault, LibraryDefault))
    case EcKey(p, _) => Some(EncryptionConfiguration(Ec, Pair(p), LibraryDefault, LibraryDefault))
    case OtherKey(_, _) => None
  }

  /** `parseEncryption(Config)`: resolve the `jwk` entry, then apply `algorithm` and `method` independently. */
  function ParseEncryption(decl: KeyDeclaration): (r: Result<Option<EncryptionConfiguration>, JoseError>)
    ensures decl.jwk.None? ==> r == Ok(None)
    ensures decl.jwk.Some? && decl.jwk.value.Err? ==> r == Err(decl.jwk.value.error)
    ensures decl.jwk.Some? && decl.jwk.value.Ok? ==>
      r.Ok? && (r.value.Some? <==> FamilyOf(decl.jwk.value.value).Some?)
    ensures r.Ok? && r.value.Some? ==>
      && r.value.value.family == FamilyOf(decl.jwk.value.value).value
      && r.value.value.material == MaterialOf(decl.jwk.value.value)
      && r.value.value.algorithm == Override(decl.algorithm)
      && r.value.value.encryptionMethod == Override(decl.encryptionMethod)
  {
    match decl.jwk
    case None => Ok(None)
    case Some(Err(e)) => Err(e)
    case Some(Ok(jwk)) =>
      match ParseEncryptionKey(jwk)
      case None => Ok(None)
      case Some(c) =>
        var withAlgorithm := if decl.algorithm.Some? then c.(algorithm := Named(decl.algorithm.value)) else c;
        var withMethod := if decl.encryptionMethod.Some? then withAlgorithm.(encryptionMethod := Named(decl.encryptionMethod.value)) else withAlgorithm;
        Ok(Some(withMethod))
  }

  /** `parseSignature(JWK)`: secret, RSA or EC signature configuration, or none. */
  function ParseSignatureKey(jwk: Jwk): (r: Option<SignatureConfiguration>)
    ensures r.Some? <==> FamilyOf(jwk).Some?
    ensures r.Some? ==> r.value.family == FamilyOf(jwk).value && r.value.material == MaterialOf(jwk)
    ensures r.Some? ==> r.value.algorithm == LibraryDefault
  {
    match jwk
    case OctetSequenceKey(b, _) => Some(SignatureConfiguration(Secret, SecretBytes(b), LibraryDefault))
    case RsaKey(p, _) => Some(SignatureConfiguration(Rsa, Pair(p), LibraryDefault))
    case EcKey(p, _) => Some(SignatureConfiguration(Ec, Pair(p), LibraryDefault))
    case OtherKey(_, _) => None
  }

  /** `parseSignature(Config)`: resolve the `jwk` entry, then apply `algorithm`. */
  function ParseSignature(decl: KeyDeclaration): (r: Result<Option<SignatureConfiguration>, JoseError>)
    ensures decl.jwk.None? ==> r == Ok(None)
    ensures decl.jwk.Some? && decl.jwk.value.Err? ==> r == Err(decl.jwk.value.error)
    ensures decl.jwk.Some? && decl.jwk.value.Ok? ==>
      r.Ok? && (r.value.Some? <==> FamilyOf(decl.jwk.value.value).Some?)
    ensures r.Ok? && r.value.Some? ==>
      && r.value.value.family == FamilyOf(decl.jwk.value.value).value
      && r.value.value.material == MaterialOf(decl.jwk.value.value)
      && r.value.value.algorithm == Override(decl.algorithm)
  {
    match decl.jwk
    case None => Ok(None)
    case Some(Err(e)) => Err(e)
    case Some(Ok(jwk)) =>
      match ParseSignatureKey(jwk)
      case None => Ok(None)
      case Some(c) =>
        if decl.algorithm.Some? then Ok(Some(c.(algorithm := Named(decl.algorithm.value)))) else Ok(Some(c))
  }

  /** Signature and encryption resolution accept the same keys and bind the same material. */
  lemma SignatureAndEncryptionAgree(jwk: Jwk)
    ensures ParseSignatureKey(jwk).Some? <==> ParseEncryptionKey(jwk).Some?
    ensures ParseSignatureKey(jwk).Some? ==>
      && ParseSignatureKey(jwk).value.family == ParseEncryptionKey(jwk).value.family
      && ParseSignatureKey(jwk).value.material == ParseEncryptionKey(jwk).value.material
  {
  }

  /** Keys that differ in type or material (their use aside) never resolve to the same configuration. */
  lemma ParseSignatureKeyInjective(j1: Jwk, j2: Jwk)
    requires ParseSignatureKey(j1).Some? && ParseSignatureKey(j1) == ParseSignatureKey(j2)
    ensures FamilyOf(j1) == FamilyOf(j2) && MaterialOf(j1) == MaterialOf(j2)
  {
  }

  /** The overrides change only the algorithm fields: key family and material are those of the key. */
  lemma OverridesKeepKey(decl: KeyDeclaration)
    requires decl.jwk.Some? && decl.jwk.value.Ok?
    ensures ParseSignature(decl).value.Some? ==>
      var c := ParseSignature(decl).value.value;
      ParseSignatureKey(decl.jwk.value.value) == Some(c.(algorithm := LibraryDefault))
    ensures ParseEncryption(decl).value.Some? ==>
      var c := ParseEncryption(decl).value.value;
      ParseEncryptionKey(decl.jwk.value.value) == Some(c.(algorithm := LibraryDefault, encryptionMethod := LibraryDefault))
  {
  }
}
