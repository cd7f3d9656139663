/**
 * Building a JWT generator from configuration: at most one signature configuration and at most
 * one encryption configuration, each resolved by the shared key parser.
 */
module JwtGeneratorHelper {
  import opened Results
  import opened Jose
  import JwkParser

  /** The generator's configuration: optional `signature` and `encryption` sections. */
  datatype GeneratorConfig = GeneratorConfig(signature: Option<KeyDeclaration>, encryption: Option<KeyDeclaration>)

  /** pac4j's `JwtGenerator`: at most one signature and at most one encryption configuration. */
  datatype JwtGenerator = JwtGenerator(signature: Option<SignatureConfiguration>, encryption: Option<EncryptionConfiguration>)

  /** `parse(Config)`: the signature section is resolved first, so its failure is the one reported. */
  function Parse(conf: GeneratorConfig): (r: Result<JwtGenerator, JoseError>)
    ensures r.Ok? <==>
      && (conf.signature.None? || JwkParser.ParseSignature(conf.signature.value).Ok?)
      && (conf.encryption.None? || JwkParser.ParseEncryption(conf.encryption.value).Ok?)
    ensures conf.signature.Some? && JwkParser.ParseSignature(conf.signature.value).Err? ==>
      r == Err(JwkParser.ParseSignature(conf.signature.value).error)
    ensures (conf.signature.None? || JwkParser.ParseSignature(conf.signature.value).Ok?)
            && conf.encryption.Some? && JwkParser.ParseEncryption(conf.encryption.value).Err? ==>
      r == Err(JwkParser.ParseEncryption(conf.encryption.value).error)
    ensures r.Ok? && conf.signature.None? ==> r.value.signature.None?
    ensures r.Ok? && conf.signature.Some? ==>
      r.value.signature == JwkParser.ParseSignature(conf.signature.value).value
    ensures r.Ok? && conf.encryption.None? ==> r.value.encryption.None?
    ensures r.Ok? && conf.encryption.Some? ==>
      r.value.encryption == JwkParser.ParseEncryption(conf.encryption.value).value
  {
    var signature :-
      if conf.signature.Some? then JwkParser.ParseSignature(conf.signature.value) else Ok(None);
    var encryption :-
      if conf.encryption.Some? then JwkParser.ParseEncryption(conf.encryption.value) else Ok(None);
    Ok(JwtGenerator(signature, encryption))
  }

  /** Each component depends only on its own section: replacing the other section does not change it. */
  lemma ComponentsIndependent(conf: GeneratorConfig, other: GeneratorConfig)
    requires Parse(conf).Ok? && Parse(conf.(encryption := other.encryption)).Ok?
    requires Parse(conf.(signature := other.signature)).Ok?
    ensures Parse(conf.(encryption := other.encryption)).value.signature == Parse(conf).value.signature
    ensures Parse(conf.(signature := other.signature)).value.encryption == Parse(conf).value.encryption
  {
  }

  /** A section whose key is of an unsupported type, or that has no `jwk` entry, yields no component. */
  lemma UnsupportedKeyGivesNoComponent(conf: GeneratorConfig)
    requires Parse(conf).Ok?
    requires conf.signature.Some? ==>
      conf.signature.value.jwk.None? || FamilyOf(conf.signature.value.jwk.value.value).None?
    ensures Parse(conf).value.signature.None?
  {
  }
}
