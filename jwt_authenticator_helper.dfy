/**
 * Building a JWT authenticator from configuration. Keys come from remote key sets (each URL in
 * declared order: its signing keys to the signature list, its encryption keys to the encryption
 * list), then from the local `signatures` and `encryptions` declarations, in declared order.
 * Keys of unsupported types are skipped; a malformed declaration or an unreadable key set
 * aborts the whole build.
 */
module JwtAuthenticatorHelper {
  import opened Results
  import opened Jose
  import opened Collections
  import JwkParser

  // The builder keeps private copies of the key parser's four functions; the lemma
  // PrivateCopiesAgree shows that they behave exactly like the shared ones.

  function ParseSignatureKey(jwk: Jwk): Option<SignatureConfiguration>
  {
    match jwk
    case OctetSequenceKey(b, _) => Some(SignatureConfiguration(Secret, SecretBytes(b), LibraryDefault))
    case RsaKey(p, _) => Some(SignatureConfiguration(Rsa, Pair(p), LibraryDefault))
    case EcKey(p, _) => Some(SignatureConfiguration(Ec, Pair(p), LibraryDefault))
    case OtherKey(_, _) => None
  }

  function ParseSignature(decl: KeyDeclaration): Result<Option<SignatureConfiguration>, JoseError>
  {
    match decl.jwk
    case None => Ok(None)
    case Some(Err(e)) => Err(e)
    case Some(Ok(jwk)) =>
      match ParseSignatureKey(jwk)
      case None => Ok(None)
      case Some(c) =>
        if decl.algorithm.Some? then Ok(Some(c.(algorithm := Named(decl.algorithm.value)))) else Ok(Some(c))
  }

  function ParseEncryptionKey(jwk: Jwk): Option<EncryptionConfiguration>
  {
    match jwk
    case OctetSequenceKey(b, _) => Some(EncryptionConfiguration(Secret, SecretBytes(b), LibraryDefault, LibraryDefault))
    case RsaKey(p, _) => Some(EncryptionConfiguration(Rsa, Pair(p), LibraryDefault, LibraryDefault))
    case EcKey(p, _) => Some(EncryptionConfiguration(Ec, Pair(p), LibraryDefault, LibraryDefault))
    case OtherKey(_, _) => None
  }

  function ParseEncryption(decl: KeyDeclaration): Result<Option<EncryptionConfiguration>, JoseError>
  {
    match decl.jwk
    case None => Ok(None)
    case Some(Err(e)) => Err(e)
    case Some(Ok(jwk)) =>
      match ParseEncryptionKey(jwk)
      case None => Ok(None)
      case Some(c) =>
        var withAlgorithm := if decl.algorithm.Some? then c.(algorithm := Named(decl.algorithm.value)) else c;
        var withMethod := if decl.encryptionMethod.Some? then withAlgorithm.(encryptionMethod := Named(decl.encryptionMethod.value)) else withAlgorithm;
        Ok(Some(withMethod))
  }

  /** The builder's private parsers agree with the shared key parser on every key and declaration. */
  lemma PrivateCopiesAgree(jwk: Jwk, decl: KeyDeclaration)
    ensures ParseSignatureKey(jwk) == JwkParser.ParseSignatureKey(jwk)
    ensures ParseEncryptionKey(jwk) == JwkParser.ParseEncryptionKey(jwk)
    ensures ParseSignature(decl) == JwkParser.ParseSignature(decl)
    ensures ParseEncryption(decl) == JwkParser.ParseEncryption(decl)
  {
  }

  /** Settings of the HTTP retriever used to download key sets. */
  datatype RetrieverSettings = RetrieverSettings(connectTimeout: int, readTimeout: int, sizeLimit: int)

  /** The `jwk-retriever` section: each setting optional. */
  datatype RetrieverConfig = RetrieverConfig(connectTimeout: Option<int>, readTimeout: Option<int>, sizeLimit: Option<int>)

  /** The authenticator's configuration; a missing list is `None`. */
  datatype AuthenticatorConfig = AuthenticatorConfig(
    jwkRetriever: Option<RetrieverConfig>,
    jwkUrls: Option<seq<string>>,
    signatures: Option<seq<KeyDeclaration>>,
    encryptions: Option<seq<KeyDeclaration>>)

  /**
   * A remote key set: given the retriever (none means the key-set library's own), the keys
   * found at a URL, or the failure to build the URL, download or parse the set.
   */
  type KeySetSource = Option<RetrieverSettings> -> string -> Result<seq<Jwk>, JoseError>

  /** pac4j's `JwtAuthenticator`: the signature and encryption configurations it tries, in order. */
  datatype JwtAuthenticator = JwtAuthenticator(
    signatures: seq<SignatureConfiguration>,
    encryptions: seq<EncryptionConfiguration>)

  /** A configured setting, or the library's default when it is absent. */
  function OrDefault(setting: Option<int>, default: int): (v: int)
    ensures setting.Some? ==> v == setting.value
    ensures setting.None? ==> v == default
  {
    if setting.Some? then setting.value else default
  }

  /**
   * The retriever: none without a `jwk-retriever` section; otherwise each setting as configured,
   * or the key-set library's default (`defaults`) when absent.
   */
  function Retriever(conf: Option<RetrieverConfig>, defaults: RetrieverSettings): (r: Option<RetrieverSettings>)
    ensures r.None? <==> conf.None?
    ensures r.Some? ==>
      && r.value.connectTimeout == OrDefault(conf.value.connectTimeout, defaults.connectTimeout)
      && r.value.readTimeout == OrDefault(conf.value.readTimeout, defaults.readTimeout)
      && r.value.sizeLimit == OrDefault(conf.value.sizeLimit, defaults.sizeLimit)
  {
    match conf
    case None => None
    case Some(c) =>
      Some(RetrieverSettings(
        OrDefault(c.connectTimeout, defaults.connectTimeout),
        OrDefault(c.readTimeout, defaults.readTimeout),
        OrDefault(c.sizeLimit, defaults.sizeLimit)))
  }

  /** The keys of a key set selected by a key-use matcher: those whose `use` is `use`, in order. */
  function Selected(keys: seq<Jwk>, use: KeyUse): (r: seq<Jwk>)
    ensures |r| <= |keys|
  {
    if |keys| == 0 then []
    else Selected(keys[..|keys| - 1], use) + (if keys[|keys| - 1].use == Some(use) then [keys[|keys| - 1]] else [])
  }

  /** The selection keeps exactly the keys marked with `use`. */
  lemma {:induction false} SelectedMember(keys: seq<Jwk>, use: KeyUse, k: Jwk)
    ensures k in Selected(keys, use) <==> k in keys && k.use == Some(use)
  {
    if |keys| > 0 {
      var init := keys[..|keys| - 1];
      SelectedMember(init, use, k);
      assert keys == init + [keys[|keys| - 1]];
    }
  }

  /** For each downloaded key set in order, the configurations of its keys selected for `use`. */
  function FromKeySets<C>(sets: seq<seq<Jwk>>, use: KeyUse, resolve: Jwk -> Option<C>): seq<C>
  {
    if |sets| == 0 then []
    else FromKeySets(sets[..|sets| - 1], use, resolve) + FilterMap(Selected(sets[|sets| - 1], use), resolve)
  }

  /**
   * The authenticator `parse(Config)` builds: every key set is downloaded first, then the local
   * signature declarations and then the local encryption declarations are resolved; the first
   * failure aborts.
   */
  function Authenticator(conf: AuthenticatorConfig, keySets: KeySetSource, defaults: RetrieverSettings): (r: Result<JwtAuthenticator, JoseError>)
    ensures r.Err? <==>
      || (conf.jwkUrls.Some? &&
          exists i :: 0 <= i < |conf.jwkUrls.value| && keySets(Retriever(conf.jwkRetriever, defaults))(conf.jwkUrls.value[i]).Err?)
      || (conf.signatures.Some? &&
          exists i :: 0 <= i < |conf.signatures.value| && ParseSignature(conf.signatures.value[i]).Err?)
      || (conf.encryptions.Some? &&
          exists i :: 0 <= i < |conf.encryptions.value| && ParseEncryption(conf.encryptions.value[i]).Err?)
  {
    var urls := if conf.jwkUrls.Some? then conf.jwkUrls.value else [];
    var sets :- Traverse(urls, keySets(Retriever(conf.jwkRetriever, defaults)));
    var localSignatures :- CollectAll(if conf.signatures.Some? then conf.signatures.value else [], ParseSignature);
    var localEncryptions :- CollectAll(if conf.encryptions.Some? then conf.encryptions.value else [], ParseEncryption);
    Ok(JwtAuthenticator(
      FromKeySets(sets, Signature, ParseSignatureKey) + localSignatures,
      FromKeySets(sets, Encryption, ParseEncryptionKey) + localEncryptions))
  }

  /** The inner loop over one key set: append the configuration of every selected, supported key. */
  method AppendKeys<C>(list: seq<C>, keys: seq<Jwk>, use: KeyUse, resolve: Jwk -> Option<C>)
    returns (appended: seq<C>)
    ensures appended == list + FilterMap(Selected(keys, use), resolve)
  {
    appended := list;
    var selected := Selected(keys, use);
    for j := 0 to |selected|
      invariant appended == list + FilterMap(selected[..j], resolve)
    {
      assert selected[..j + 1][..j] == selected[..j];
      var c := resolve(selected[j]);
      if c.Some? {
        appended := appended + [c.value];
      }
    }
    assert selected[..|selected|] == selected;
  }

  /** The loop over a local declaration list: append every non-null resolution, or fail at the first error. */
  method AppendDeclared<C>(list: seq<C>, decls: seq<KeyDeclaration>, resolve: KeyDeclaration -> Result<Option<C>, JoseError>)
    returns (r: Result<seq<C>, JoseError>)
    ensures CollectAll(decls, resolve).Err? ==> r == Err(CollectAll(decls, resolve).error)
    ensures CollectAll(decls, resolve).Ok? ==> r == Ok(list + CollectAll(decls, resolve).value)
  {
    var appended := list;
    ghost var local: seq<C> := [];
    for i := 0 to |decls|
      invariant CollectAll(decls[..i], resolve) == Ok(local)
      invariant appended == list + local
    {
      assert decls[..i + 1][..i] == decls[..i];
      var c := resolve(decls[i]);
      if c.Err? {
        CollectAllPrefixError(decls, i + 1, resolve);
        return Err(c.error);
      }
      if c.value.Some? {
        appended := appended + [c.value.value];
      }
      local := local + AsSeq(c.value);
    }
    assert decls[..|decls|] == decls;
    r := Ok(appended);
  }

  /** The loop over `jwk-urls`: download each key set in order and sort its keys by use; the first failed download aborts. */
  method AppendKeySets(urls: seq<string>, fetch: string -> Result<seq<Jwk>, JoseError>)
    returns (r: Result<(seq<SignatureConfiguration>, seq<EncryptionConfiguration>), JoseError>)
    ensures Traverse(urls, fetch).Err? ==> r == Err(Traverse(urls, fetch).error)
    ensures r.Err? ==> exists i :: 0 <= i < |urls| && fetch(urls[i]) == Err(r.error)
                                   && forall j :: 0 <= j < i ==> fetch(urls[j]).Ok?
    ensures Traverse(urls, fetch).Ok? ==>
      var sets := Traverse(urls, fetch).value;
      r == Ok((FromKeySets(sets, Signature, ParseSignatureKey), FromKeySets(sets, Encryption, ParseEncryptionKey)))
  {
    var signatures: seq<SignatureConfiguration> := [];
    var encryptions: seq<EncryptionConfiguration> := [];
    ghost var sets: seq<seq<Jwk>> := [];
    for i := 0 to |urls|
      invariant Traverse(urls[..i], fetch) == Ok(sets)
      invariant signatures == FromKeySets(sets, Signature, ParseSignatureKey)
      invariant encryptions == FromKeySets(sets, Encryption, ParseEncryptionKey)
    {
      assert urls[..i + 1][..i] == urls[..i];
      var fetched := fetch(urls[i]);
      if fetched.Err? {
        TraversePrefixError(urls, i + 1, fetch);
        return Err(fetched.error);
      }
      signatures := AppendKeys(signatures, fetched.value, Signature, ParseSignatureKey);
      encryptions := AppendKeys(encryptions, fetched.value, Encryption, ParseEncryptionKey);
      ghost var before := sets;
      sets := sets + [fetched.value];
      assert sets[..|sets| - 1] == before;
    }
    assert urls[..|urls|] == urls;
    r := Ok((signatures, encryptions));
  }

  /** `parse(Config)`: download every key set and sort its keys by use, then add the local declarations. */
  method Parse(conf: AuthenticatorConfig, keySets: KeySetSource, defaults: RetrieverSettings)
    returns (r: Result<JwtAuthenticator, JoseError>)
    ensures r == Authenticator(conf, keySets, defaults)
  {
    var fetch := keySets(Retriever(conf.jwkRetriever, defaults));
    var remote := AppendKeySets(if conf.jwkUrls.Some? then conf.jwkUrls.value else [], fetch);
    if remote.Err? {
      return Err(remote.error);
    }
    var signatures := AppendDeclared(remote.value.0, if conf.signatures.Some? then conf.signatures.value else [], ParseSignature);
    if signatures.Err? {
      return Err(signatures.error);
    }
    var encryptions := AppendDeclared(remote.value.1, if conf.encryptions.Some? then conf.encryptions.value else [], ParseEncryption);
    if encryptions.Err? {
      return Err(encryptions.error);
    }
    r := Ok(JwtAuthenticator(signatures.value, encryptions.value));
  }

  /** One more downloaded key set appends its configurations after those of the earlier ones. */
  lemma FromKeySetsSnoc<C>(sets: seq<seq<Jwk>>, last: seq<Jwk>, use: KeyUse, resolve: Jwk -> Option<C>)
    ensures FromKeySets(sets + [last], use, resolve) == FromKeySets(sets, use, resolve) + FilterMap(Selected(last, use), resolve)
  {
    SnocPrefix(sets, last);
  }

  /** Key sets downloaded earlier contribute their configurations before those downloaded later. */
  lemma {:induction false} FromKeySetsConcat<C>(s1: seq<seq<Jwk>>, s2: seq<seq<Jwk>>, use: KeyUse, resolve: Jwk -> Option<C>)
    ensures FromKeySets(s1 + s2, use, resolve) == FromKeySets(s1, use, resolve) + FromKeySets(s2, use, resolve)
  {
    if |s2| == 0 {
      AppendEmpty(s1, s2);
    } else {
      var init, last := s2[..|s2| - 1], s2[|s2| - 1];
      SplitLast(s2);
      SnocAssoc(s1, init, last);
      FromKeySetsConcat(s1, init, use, resolve);
      FromKeySetsSnoc(s1 + init, last, use, resolve);
      FromKeySetsSnoc(init, last, use, resolve);
      AppendAssoc(FromKeySets(s1, use, resolve), FromKeySets(init, use, resolve), FilterMap(Selected(last, use), resolve));
    }
  }

  /** Within one key set: a configuration is collected exactly when a key marked with `use` resolves to it. */
  lemma KeySetMember<C>(keys: seq<Jwk>, use: KeyUse, resolve: Jwk -> Option<C>, c: C)
    ensures c in FilterMap(Selected(keys, use), resolve) <==>
      exists k :: k in keys && k.use == Some(use) && resolve(k) == Some(c)
  {
    var selected := Selected(keys, use);
    FilterMapMember(selected, resolve, c);
    if c in FilterMap(selected, resolve) {
      var j :| 0 <= j < |selected| && resolve(selected[j]) == Some(c);
      SelectedMember(keys, use, selected[j]);
    }
    if exists k :: k in keys && k.use == Some(use) && resolve(k) == Some(c) {
      var k :| k in keys && k.use == Some(use) && resolve(k) == Some(c);
      SelectedMember(keys, use, k);
      var j :| 0 <= j < |selected| && selected[j] == k;
    }
  }

  /** Every key of a set that is marked with `use` and resolves contributes its configuration. */
  lemma {:induction false} FromKeySetsComplete<C>(sets: seq<seq<Jwk>>, i: nat, k: Jwk, use: KeyUse, resolve: Jwk -> Option<C>, c: C)
    requires i < |sets| && k in sets[i] && k.use == Some(use) && resolve(k) == Some(c)
    ensures c in FromKeySets(sets, use, resolve)
  {
    var n := |sets| - 1;
    var init, last := sets[..n], sets[n];
    SplitLast(sets);
    FromKeySetsSnoc(init, last, use, resolve);
    if i < n {
      assert k in init[i];
      FromKeySetsComplete(init, i, k, use, resolve, c);
    } else {
      KeySetMember(last, use, resolve, c);
    }
  }

  /** Every collected configuration comes from a key of some set that is marked with `use`. */
  lemma {:induction false} FromKeySetsSound<C>(sets: seq<seq<Jwk>>, use: KeyUse, resolve: Jwk -> Option<C>, c: C)
    requires c in FromKeySets(sets, use, resolve)
    ensures exists i, k :: 0 <= i < |sets| && k in sets[i] && k.use == Some(use) && resolve(k) == Some(c)
  {
    var n := |sets| - 1;
    var init, last := sets[..n], sets[n];
    SplitLast(sets);
    FromKeySetsSnoc(init, last, use, resolve);
    if c in FromKeySets(init, use, resolve) {
      FromKeySetsSound(init, use, resolve, c);
      var i, k: Jwk :| 0 <= i < |init| && k in init[i] && k.use == Some(use) && resolve(k) == Some(c);
      assert k in sets[i];
    } else {
      KeySetMember(last, use, resolve, c);
      var k :| k in last && k.use == Some(use) && resolve(k) == Some(c);
      assert k in sets[n];
    }
  }

  /**
   * Partition by use: a configuration comes out of the key sets for `use` exactly when some key
   * of some set is marked with that use and resolves to it.
   */
  lemma FromKeySetsMember<C>(sets: seq<seq<Jwk>>, use: KeyUse, resolve: Jwk -> Option<C>, c: C)
    ensures c in FromKeySets(sets, use, resolve) <==>
      exists i, k :: 0 <= i < |sets| && k in sets[i] && k.use == Some(use) && resolve(k) == Some(c)
  {
    if c in FromKeySets(sets, use, resolve) {
      FromKeySetsSound(sets, use, resolve, c);
    }
    if exists i, k :: 0 <= i < |sets| && k in sets[i] && k.use == Some(use) && resolve(k) == Some(c) {
      var i, k :| 0 <= i < |sets| && k in sets[i] && k.use == Some(use) && resolve(k) == Some(c);
      FromKeySetsComplete(sets, i, k, use, resolve, c);
    }
  }

  /** A key marked with another use is not selected for `use`. */
  lemma SelectedIgnoresOtherUse(keys: seq<Jwk>, k: Jwk, use: KeyUse)
    requires k.use != Some(use)
    ensures Selected(keys + [k], use) == Selected(keys, use)
  {
    assert (keys + [k])[..|keys|] == keys;
  }

  /** A key marked with another use is ignored when collecting the configurations for `use`. */
  lemma {:induction false} OtherUseIgnored<C>(sets: seq<seq<Jwk>>, i: nat, k: Jwk, use: KeyUse, resolve: Jwk -> Option<C>)
    requires i < |sets| && k.use != Some(use)
    ensures FromKeySets(sets[i := sets[i] + [k]], use, resolve) == FromKeySets(sets, use, resolve)
  {
    var n := |sets| - 1;
    var init, last := sets[..n], sets[n];
    SplitLast(sets);
    UpdateSnoc(init, last, i, sets[i] + [k]);
    SelectedIgnoresOtherUse(sets[i], k, use);
    FromKeySetsSnoc(init, last, use, resolve);
    if i < n {
      OtherUseIgnored(init, i, k, use, resolve);
      FromKeySetsSnoc(init[i := sets[i] + [k]], last, use, resolve);
    } else {
      FromKeySetsSnoc(init, last + [k], use, resolve);
    }
  }

  /** The number of keys of the sets that are marked with `use` and of a supported type. */
  function SupportedCount<C>(sets: seq<seq<Jwk>>, use: KeyUse, resolve: Jwk -> Option<C>): nat
  {
    if |sets| == 0 then 0
    else SupportedCount(sets[..|sets| - 1], use, resolve) + |Hits(Selected(sets[|sets| - 1], use), resolve)|
  }

  /** One configuration per selected supported key, and nothing else. */
  lemma {:induction false} FromKeySetsLength<C>(sets: seq<seq<Jwk>>, use: KeyUse, resolve: Jwk -> Option<C>)
    ensures |FromKeySets(sets, use, resolve)| == SupportedCount(sets, use, resolve)
  {
    if |sets| > 0 {
      FromKeySetsLength(sets[..|sets| - 1], use, resolve);
      FilterMapLength(Selected(sets[|sets| - 1], use), resolve);
    }
  }

  /** A successful build holds the key-set configurations followed by the local ones, for each list. */
  lemma AuthenticatorLists(conf: AuthenticatorConfig, keySets: KeySetSource, defaults: RetrieverSettings)
    requires Authenticator(conf, keySets, defaults).Ok?
    ensures var urls := if conf.jwkUrls.Some? then conf.jwkUrls.value else [];
            var sets := Traverse(urls, keySets(Retriever(conf.jwkRetriever, defaults)));
            var sigs := CollectAll(if conf.signatures.Some? then conf.signatures.value else [], ParseSignature);
            var encs := CollectAll(if conf.encryptions.Some? then conf.encryptions.value else [], ParseEncryption);
            && sets.Ok? && sigs.Ok? && encs.Ok?
            && Authenticator(conf, keySets, defaults).value.signatures == FromKeySets(sets.value, Signature, ParseSignatureKey) + sigs.value
            && Authenticator(conf, keySets, defaults).value.encryptions == FromKeySets(sets.value, Encryption, ParseEncryptionKey) + encs.value
  {
  }

  /**
   * Everything in the built signature list comes from a signing key of a downloaded key set or
   * from a local signature declaration, and every such resolution is in it.
   */
  lemma SignaturesMember(conf: AuthenticatorConfig, keySets: KeySetSource, defaults: RetrieverSettings, c: SignatureConfiguration)
    requires Authenticator(conf, keySets, defaults).Ok?
    ensures var urls := if conf.jwkUrls.Some? then conf.jwkUrls.value else [];
            var sets := Traverse(urls, keySets(Retriever(conf.jwkRetriever, defaults))).value;
            var decls := if conf.signatures.Some? then conf.signatures.value else [];
            c in Authenticator(conf, keySets, defaults).value.signatures <==>
              || (exists i, k: Jwk :: 0 <= i < |sets| && k in sets[i] && k.use == Some(Signature) && ParseSignatureKey(k) == Some(c))
              || (exists i :: 0 <= i < |decls| && ParseSignature(decls[i]) == Ok(Some(c)))
  {
    var urls := if conf.jwkUrls.Some? then conf.jwkUrls.value else [];
    var sets := Traverse(urls, keySets(Retriever(conf.jwkRetriever, defaults))).value;
    var decls := if conf.signatures.Some? then conf.signatures.value else [];
    AuthenticatorLists(conf, keySets, defaults);
    var remote, local := FromKeySets(sets, Signature, ParseSignatureKey), CollectAll(decls, ParseSignature).value;
    assert Authenticator(conf, keySets, defaults).value.signatures == remote + local;
    assert c in remote + local <==> c in remote || c in local;
    FromKeySetsMember(sets, Signature, ParseSignatureKey, c);
    CollectAllMember(decls, ParseSignature, c);
  }

  /**
   * Everything in the built encryption list comes from an encryption key of a downloaded key set
   * or from a local encryption declaration, and every such resolution is in it.
   */
  lemma EncryptionsMember(conf: AuthenticatorConfig, keySets: KeySetSource, defaults: RetrieverSettings, c: EncryptionConfiguration)
    requires Authenticator(conf, keySets, defaults).Ok?
    ensures var urls := if conf.jwkUrls.Some? then conf.jwkUrls.value else [];
            var sets := Traverse(urls, keySets(Retriever(conf.jwkRetriever, defaults))).value;
            var decls := if conf.encryptions.Some? then conf.encryptions.value else [];
            c in Authenticator(conf, keySets, defaults).value.encryptions <==>
              || (exists i, k: Jwk :: 0 <= i < |sets| && k in sets[i] && k.use == Some(Encryption) && ParseEncryptionKey(k) == Some(c))
              || (exists i :: 0 <= i < |decls| && ParseEncryption(decls[i]) == Ok(Some(c)))
  {
    var urls := if conf.jwkUrls.Some? then conf.jwkUrls.value else [];
    var sets := Traverse(urls, keySets(Retriever(conf.jwkRetriever, defaults))).value;
    var decls := if conf.encryptions.Some? then conf.encryptions.value else [];
    AuthenticatorLists(conf, keySets, defaults);
    var remote, local := FromKeySets(sets, Encryption, ParseEncryptionKey), CollectAll(decls, ParseEncryption).value;
    assert Authenticator(conf, keySets, defaults).value.encryptions == remote + local;
    assert c in remote + local <==> c in remote || c in local;
    FromKeySetsMember(sets, Encryption, ParseEncryptionKey, c);
    CollectAllMember(decls, ParseEncryption, c);
  }

  /** A failed build reports the failure of the first URL, in declared order, whose key set could not be read. */
  lemma FirstKeySetFailureReported(conf: AuthenticatorConfig, keySets: KeySetSource, defaults: RetrieverSettings)
    requires conf.jwkUrls.Some?
    requires Traverse(conf.jwkUrls.value, keySets(Retriever(conf.jwkRetriever, defaults))).Err?
    ensures Authenticator(conf, keySets, defaults) == Err(Traverse(conf.jwkUrls.value, keySets(Retriever(conf.jwkRetriever, defaults))).error)
    ensures var urls, fetch := conf.jwkUrls.value, keySets(Retriever(conf.jwkRetriever, defaults));
            exists i :: 0 <= i < |urls| && fetch(urls[i]) == Err(Authenticator(conf, keySets, defaults).error)
                        && forall j :: 0 <= j < i ==> fetch(urls[j]).Ok?
  {
    TraverseFirstError(conf.jwkUrls.value, keySets(Retriever(conf.jwkRetriever, defaults)));
  }

  /**
   * A successful build holds, in each list, one configuration per selected supported key of the
   * key sets and one per local declaration that resolves to a configuration.
   */
  lemma AuthenticatorLength(conf: AuthenticatorConfig, keySets: KeySetSource, defaults: RetrieverSettings)
    requires Authenticator(conf, keySets, defaults).Ok?
    ensures var urls := if conf.jwkUrls.Some? then conf.jwkUrls.value else [];
            var sets := Traverse(urls, keySets(Retriever(conf.jwkRetriever, defaults))).value;
            var sigDecls := if conf.signatures.Some? then conf.signatures.value else [];
            var encDecls := if conf.encryptions.Some? then conf.encryptions.value else [];
            && |Authenticator(conf, keySets, defaults).value.signatures|
               == SupportedCount(sets, Signature, ParseSignatureKey) + |Resolved(sigDecls, ParseSignature)|
            && |Authenticator(conf, keySets, defaults).value.encryptions|
               == SupportedCount(sets, Encryption, ParseEncryptionKey) + |Resolved(encDecls, ParseEncryption)|
  {
    var urls := if conf.jwkUrls.Some? then conf.jwkUrls.value else [];
    var sets := Traverse(urls, keySets(Retriever(conf.jwkRetriever, defaults))).value;
    var sigDecls := if conf.signatures.Some? then conf.signatures.value else [];
    var encDecls := if conf.encryptions.Some? then conf.encryptions.value else [];
    AuthenticatorLists(conf, keySets, defaults);
    FromKeySetsLength(sets, Signature, ParseSignatureKey);
    FromKeySetsLength(sets, Encryption, ParseEncryptionKey);
    CollectAllLength(sigDecls, ParseSignature);
    CollectAllLength(encDecls, ParseEncryption);
  }
}
