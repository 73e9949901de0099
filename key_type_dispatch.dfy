/** The tag-keyed encoding of public keys: the algorithm name is the
    discriminant, and reading it back selects the variant
    (src/proto/public_key.rs, the impl_key_type_enum_ser_de! instance).

    Only the dispatch on the algorithm name is modelled: which variant, and
    for the two ECDSA families which curve, a name stands for. The payload
    layout and the wire framing are not part of this model. */
module KeyTypeDispatch {
  import opened Wrappers
  import opened Proto
  import opened PublicKeys

  /** What an algorithm name says about a key: its variant and, for the
      parameterised families, its curve identifier. One constructor per
      variant of the encoding, in the order the encoding lists them. */
  datatype KeyTypeTag =
    | DssTag
    | RsaTag
    | EcDsaTag(identifier: string)
    | SkEcDsaTag(identifier: string)
    | Ed25519Tag
    | SkEd25519Tag
  {
    function Family(): Family {
      match this
      case DssTag => DssFamily
      case RsaTag => RsaFamily
      case EcDsaTag(_) => EcDsaFamily
      case SkEcDsaTag(_) => SkEcDsaFamily
      case Ed25519Tag => Ed25519Family
      case SkEd25519Tag => SkEd25519Family
    }
  }

  /** Decoding fails on a name no variant claims, carrying that name. */
  datatype DispatchError = UnknownAlgorithm(name: string)

  /** The algorithm name that stands for a tag. */
  function TagName(t: KeyTypeTag): string {
    match t
    case DssTag => DSS_KEY_TYPE
    case RsaTag => RSA_KEY_TYPE
    case EcDsaTag(id) => EcDsaName(id)
    case SkEcDsaTag(id) => SkEcDsaName(id)
    case Ed25519Tag => ED25519_KEY_TYPE
    case SkEd25519Tag => SK_ED25519_KEY_TYPE
  }

  /** The tag of a key: its variant, and its curve where the name carries one. */
  function TagOf(k: PublicKey): (t: KeyTypeTag)
    ensures t.Family() == k.Family()
    ensures TagName(t) == KeyType(k)
  {
    match k
    case Dss(_) => DssTag
    case Rsa(_) => RsaTag
    case EcDsa(key) => EcDsaTag(key.identifier)
    case SkEcDsa(key) => SkEcDsaTag(key.identifier)
    case Ed25519(_) => Ed25519Tag
    case SkEd25519(_) => SkEd25519Tag
  }

  predicate HasPrefix(s: string, prefix: string) {
    |prefix| <= |s| && s[..|prefix|] == prefix
  }

  predicate HasSuffix(s: string, suffix: string) {
    |suffix| <= |s| && s[|s| - |suffix|..] == suffix
  }

  /** What lies between a prefix and a suffix of `s`. */
  function Between(s: string, prefix: string, suffix: string): (mid: string)
    requires HasPrefix(s, prefix) && HasSuffix(s[|prefix|..], suffix)
    ensures prefix + mid + suffix == s
  {
    var rest := s[|prefix|..];
    assert s == prefix + rest;
    assert rest == rest[..|rest| - |suffix|] + suffix;
    rest[..|rest| - |suffix|]
  }

  /** The curve of an ECDSA name: what follows the ECDSA prefix and `-`. */
  function EcDsaCurve(name: string): (id: Option<string>)
    ensures id.Some? <==> HasPrefix(name, ECDSA_KEY_TYPE + "-")
    ensures id.Some? ==> EcDsaName(id.value) == name
  {
    var prefix := ECDSA_KEY_TYPE + "-";
    if HasPrefix(name, prefix) then
      assert name == prefix + name[|prefix|..];
      Some(name[|prefix|..])
    else
      None
  }

  /** The curve of a security-key ECDSA name: what lies between its prefix
      and `-`, and the OpenSSH suffix. */
  function SkEcDsaCurve(name: string): (id: Option<string>)
    ensures id.Some? ==> SkEcDsaName(id.value) == name
    ensures !HasPrefix(name, SK_ECDSA_KEY_TYPE + "-") ==> id.None?
  {
    var prefix := SK_ECDSA_KEY_TYPE + "-";
    if HasPrefix(name, prefix) && HasSuffix(name[|prefix|..], OPENSSH_SUFFIX) then
      Some(Between(name, prefix, OPENSSH_SUFFIX))
    else
      None
  }

  /** Reads the discriminant: the variants are tried in the order the
      encoding lists them; an ECDSA name yields the curve that follows the
      prefix, a security-key ECDSA name the curve between its prefix and the
      OpenSSH suffix. Anything else is an unknown algorithm. */
  function ParseKeyType(name: string): (r: Result<KeyTypeTag, DispatchError>)
    ensures r.Success? ==> TagName(r.value) == name
    ensures r.Failure? ==> r.error == UnknownAlgorithm(name)
  {
    if name == DSS_KEY_TYPE then
      Success(DssTag)
    else if name == RSA_KEY_TYPE then
      Success(RsaTag)
    else if EcDsaCurve(name).Some? then
      Success(EcDsaTag(EcDsaCurve(name).value))
    else if SkEcDsaCurve(name).Some? then
      Success(SkEcDsaTag(SkEcDsaCurve(name).value))
    else if name == ED25519_KEY_TYPE then
      Success(Ed25519Tag)
    else if name == SK_ED25519_KEY_TYPE then
      Success(SkEd25519Tag)
    else
      Failure(UnknownAlgorithm(name))
  }

  /** The curve read from a security-key ECDSA name is the one it was built from. */
  lemma SkEcDsaCurveOfName(id: string)
    ensures SkEcDsaCurve(SkEcDsaName(id)) == Some(id)
  {
    var name, prefix := SkEcDsaName(id), SK_ECDSA_KEY_TYPE + "-";
    assert name == prefix + (id + OPENSSH_SUFFIX);
    assert name[..|prefix|] == prefix;
    var rest := name[|prefix|..];
    assert rest == id + OPENSSH_SUFFIX;
    assert rest[|rest| - |OPENSSH_SUFFIX|..] == OPENSSH_SUFFIX;
    var mid := Between(name, prefix, OPENSSH_SUFFIX);
    assert mid == (prefix + mid + OPENSSH_SUFFIX)[|prefix|..|name| - |OPENSSH_SUFFIX|];
    assert id == (prefix + id + OPENSSH_SUFFIX)[|prefix|..|name| - |OPENSSH_SUFFIX|];
  }

  /** A name not starting with 'e' is no ECDSA name. */
  lemma NotEcDsaName(name: string)
    requires |name| > 0 && name[0] != 'e'
    ensures EcDsaCurve(name) == None
  {
  }

  /** A name whose second letter is not 'k' or whose fourth is not 'e' is no
      security-key ECDSA name. */
  lemma NotSkEcDsaName(name: string)
    requires |name| > 3 && (name[1] != 'k' || name[3] != 'e')
    ensures SkEcDsaCurve(name) == None
  {
  }

  /** Every tag's name reads back as that tag, whatever the curve
      identifier holds. */
  lemma ParseTagName(t: KeyTypeTag)
    ensures ParseKeyType(TagName(t)) == Success(t)
  {
    var name := TagName(t);
    match t
    case DssTag =>
    case RsaTag =>
    case EcDsaTag(id) =>
      assert name[0] == 'e';
      assert name[..|ECDSA_KEY_TYPE| + 1] == ECDSA_KEY_TYPE + "-";
    case SkEcDsaTag(id) =>
      assert name[0] == 's';
      NotEcDsaName(name);
      SkEcDsaCurveOfName(id);
    case Ed25519Tag =>
      NotEcDsaName(name);
      NotSkEcDsaName(name);
    case SkEd25519Tag =>
      NotEcDsaName(name);
      NotSkEcDsaName(name);
  }

  /** A name reads as a tag exactly when it is that tag's name: the
      dispatch accepts the names keys produce and nothing else. */
  lemma ParseKeyTypeIff(name: string, t: KeyTypeTag)
    ensures ParseKeyType(name) == Success(t) <==> TagName(t) == name
  {
    if TagName(t) == name {
      ParseTagName(t);
    }
  }

  /** Decoding the name of a key selects that key's own variant and curve. */
  lemma KeyTypeReadsBack(k: PublicKey)
    ensures ParseKeyType(KeyType(k)) == Success(TagOf(k))
  {
    ParseTagName(TagOf(k));
  }

  /** Names never collide: two keys have the same algorithm name exactly
      when they are of the same variant and, for ECDSA, on the same curve.
      In particular keys of different families never share a name. */
  lemma KeyTypeDeterminesTag(a: PublicKey, b: PublicKey)
    ensures KeyType(a) == KeyType(b) <==> TagOf(a) == TagOf(b)
    ensures a.Family() != b.Family() ==> KeyType(a) != KeyType(b)
  {
    KeyTypeReadsBack(a);
    KeyTypeReadsBack(b);
  }

  /** The family a discriminant names, if any. */
  function FamilyOf(name: string): Option<Family> {
    match ParseKeyType(name)
    case Success(t) => Some(t.Family())
    case Failure(_) => None
  }

  /** A key the dispatch could have produced for a tag. */
  function Representative(t: KeyTypeTag): (k: PublicKey)
    ensures TagOf(k) == t
  {
    match t
    case DssTag => Dss(DssPublicKey([], [], [], []))
    case RsaTag => Rsa(RsaPublicKey([], []))
    case EcDsaTag(id) => EcDsa(EcDsaPublicKey(id, []))
    case SkEcDsaTag(id) => SkEcDsa(SkEcDsaPublicKey(id, [], ""))
    case Ed25519Tag => Ed25519(Ed25519PublicKey([]))
    case SkEd25519Tag => SkEd25519(SkEd25519PublicKey([], ""))
  }

  /** FamilyOf is a left inverse of KeyType at the family level, and it
      names a family only for names that some key of that family produces. */
  lemma FamilyOfKeyType(k: PublicKey, name: string, f: Family)
    ensures FamilyOf(KeyType(k)) == Some(k.Family())
    ensures FamilyOf(name) == Some(f) <==> exists key: PublicKey :: key.Family() == f && KeyType(key) == name
  {
    KeyTypeReadsBack(k);
    if FamilyOf(name) == Some(f) {
      var key := Representative(ParseKeyType(name).value);
      assert key.Family() == f && KeyType(key) == name;
    }
    if key: PublicKey :| key.Family() == f && KeyType(key) == name {
      KeyTypeReadsBack(key);
    }
  }

  /** A name outside the six families is refused with that name. */
  lemma UnknownNameRefused()
    ensures ParseKeyType("ssh-unknown-type") == Failure(UnknownAlgorithm("ssh-unknown-type"))
  {
    var name := "ssh-unknown-type";
    assert name[4] == 'u';
    assert !HasPrefix(name, ECDSA_KEY_TYPE + "-") by { assert name[0] != 'e'; }
    assert !HasPrefix(name, SK_ECDSA_KEY_TYPE + "-") by { assert name[1] != 'k'; }
  }
}
