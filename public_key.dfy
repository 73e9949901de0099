/** The SSH public-key families, their algorithm names and their projection
    from private keys (src/proto/public_key.rs). */
module PublicKeys {
  import opened Proto
  import PrivateKeys

  datatype RsaPublicKey = RsaPublicKey(e: MpInt, n: MpInt)

  datatype DssPublicKey = DssPublicKey(p: MpInt, q: MpInt, g: MpInt, y: MpInt)

  /** `identifier` is the curve name ("nistp256", ...); it is part of the
      algorithm name, and src/proto/public_key.rs does not validate it. */
  datatype EcDsaPublicKey = EcDsaPublicKey(identifier: string, q: MpInt)

  datatype SkEcDsaPublicKey = SkEcDsaPublicKey(identifier: string, q: MpInt, application: string)

  datatype Ed25519PublicKey = Ed25519PublicKey(enc_a: seq<uint8>)

  datatype SkEd25519PublicKey = SkEd25519PublicKey(enc_a: seq<uint8>, application: string)

  /** Exactly one of the six families is active in every public key. */
  datatype PublicKey =
    | Dss(dss: DssPublicKey)
    | Ed25519(ed25519: Ed25519PublicKey)
    | SkEd25519(skEd25519: SkEd25519PublicKey)
    | Rsa(rsa: RsaPublicKey)
    | EcDsa(ecdsa: EcDsaPublicKey)
    | SkEcDsa(skEcdsa: SkEcDsaPublicKey)
  {
    function Family(): Family {
      match this
      case Dss(_) => DssFamily
      case Ed25519(_) => Ed25519Family
      case SkEd25519(_) => SkEd25519Family
      case Rsa(_) => RsaFamily
      case EcDsa(_) => EcDsaFamily
      case SkEcDsa(_) => SkEcDsaFamily
    }
  }

  // The KEY_TYPE constant of each public struct. Four of them are, by
  // definition, the constant of the matching private-key type.
  const RSA_KEY_TYPE: string := PrivateKeys.RSA_KEY_TYPE
  const DSS_KEY_TYPE: string := PrivateKeys.DSS_KEY_TYPE
  const ED25519_KEY_TYPE: string := PrivateKeys.ED25519_KEY_TYPE
  const ECDSA_KEY_TYPE: string := PrivateKeys.ECDSA_KEY_TYPE
  const SK_ED25519_KEY_TYPE: string := "sk-ssh-ed25519@openssh.com"
  const SK_ECDSA_KEY_TYPE: string := "sk-ecdsa-sha2"

  /** The suffix OpenSSH appends to the names of its own algorithms. */
  const OPENSSH_SUFFIX: string := "@openssh.com"

  /** The algorithm name of an ECDSA key on the curve `identifier`. */
  function EcDsaName(identifier: string): string {
    ECDSA_KEY_TYPE + "-" + identifier
  }

  /** The algorithm name of a security-key ECDSA key on the curve `identifier`. */
  function SkEcDsaName(identifier: string): string {
    SK_ECDSA_KEY_TYPE + "-" + identifier + OPENSSH_SUFFIX
  }

  /** The algorithm name a public key is tagged with on the wire: a fixed
      name for four families, a name built from the curve identifier for
      the two ECDSA families. */
  function KeyType(k: PublicKey): (name: string)
    ensures k.Dss? ==> name == "ssh-dss"
    ensures k.Rsa? ==> name == "ssh-rsa"
    ensures k.Ed25519? ==> name == "ssh-ed25519"
    ensures k.SkEd25519? ==> name == "sk-ssh-ed25519@openssh.com"
    ensures k.EcDsa? ==> name == "ecdsa-sha2-" + k.ecdsa.identifier
    ensures k.SkEcDsa? ==> name == "sk-ecdsa-sha2-" + k.skEcdsa.identifier + "@openssh.com"
  {
    match k
    case Dss(_) => DSS_KEY_TYPE
    case Ed25519(_) => ED25519_KEY_TYPE
    case SkEd25519(_) => SK_ED25519_KEY_TYPE
    case Rsa(_) => RSA_KEY_TYPE
    case EcDsa(key) => EcDsaName(key.identifier)
    case SkEcDsa(key) => SkEcDsaName(key.identifier)
  }

  /** Two ECDSA keys have the same algorithm name exactly when they are on
      the same curve: the name ignores `q` and loses nothing of `identifier`. */
  lemma EcDsaKeyTypeIsCurve(a: EcDsaPublicKey, b: EcDsaPublicKey)
    ensures KeyType(EcDsa(a)) == KeyType(EcDsa(b)) <==> a.identifier == b.identifier
  {
    var n := |ECDSA_KEY_TYPE| + 1;
    assert EcDsaName(a.identifier)[n..] == a.identifier;
    assert EcDsaName(b.identifier)[n..] == b.identifier;
  }

  /** The same for security-key ECDSA keys: the name ignores `q` and
      `application` and loses nothing of `identifier`. */
  lemma SkEcDsaKeyTypeIsCurve(a: SkEcDsaPublicKey, b: SkEcDsaPublicKey)
    ensures KeyType(SkEcDsa(a)) == KeyType(SkEcDsa(b)) <==> a.identifier == b.identifier
  {
    var n := |SK_ECDSA_KEY_TYPE| + 1;
    var na, nb := SkEcDsaName(a.identifier), SkEcDsaName(b.identifier);
    assert na[n..|na| - |OPENSSH_SUFFIX|] == a.identifier;
    assert nb[n..|nb| - |OPENSSH_SUFFIX|] == b.identifier;
  }

  /** Every security-key ECDSA name starts with "sk-ecdsa" and ends with the
      OpenSSH suffix, so none of them is the security-key Ed25519 name. */
  lemma SkEcDsaNameIsNotSkEd25519(k: SkEcDsaPublicKey, e: SkEd25519PublicKey)
    ensures KeyType(SkEcDsa(k))[..8] == "sk-ecdsa"
    ensures KeyType(SkEcDsa(k)) != KeyType(SkEd25519(e))
  {
    var name := KeyType(SkEcDsa(k));
    assert name[3] == 'e';
    assert SK_ED25519_KEY_TYPE[3] == 's';
  }

  // Projections from private keys: each copies the public fields and
  // nothing else.

  function RsaPublicKeyFrom(key: PrivateKeys.RsaPrivateKey): (pk: RsaPublicKey)
    ensures pk.e == key.e && pk.n == key.n
  {
    RsaPublicKey(key.e, key.n)
  }

  function DssPublicKeyFrom(key: PrivateKeys.DssPrivateKey): (pk: DssPublicKey)
    ensures pk.p == key.p && pk.q == key.q && pk.g == key.g && pk.y == key.y
  {
    DssPublicKey(key.p, key.q, key.g, key.y)
  }

  function EcDsaPublicKeyFrom(key: PrivateKeys.EcDsaPrivateKey): (pk: EcDsaPublicKey)
    ensures pk.identifier == key.identifier && pk.q == key.q
  {
    EcDsaPublicKey(key.identifier, key.q)
  }

  function SkEcDsaPublicKeyFrom(key: PrivateKeys.SkEcDsaPrivateKey): (pk: SkEcDsaPublicKey)
    ensures pk.identifier == key.identifier && pk.q == key.q && pk.application == key.application
  {
    SkEcDsaPublicKey(key.identifier, key.q, key.application)
  }

  function Ed25519PublicKeyFrom(key: PrivateKeys.Ed25519PrivateKey): (pk: Ed25519PublicKey)
    ensures pk.enc_a == key.enc_a
  {
    Ed25519PublicKey(key.enc_a)
  }

  function SkEd25519PublicKeyFrom(key: PrivateKeys.SkEd25519PrivateKey): (pk: SkEd25519PublicKey)
    ensures pk.enc_a == key.enc_a && pk.application == key.application
  {
    SkEd25519PublicKey(key.enc_a, key.application)
  }

  /** The public key of a private key: total, and always of the same family. */
  function PublicKeyFrom(key: PrivateKeys.PrivateKey): (pk: PublicKey)
    ensures pk.Family() == key.Family()
  {
    match key
    case Dss(k) => Dss(DssPublicKeyFrom(k))
    case Ed25519(k) => Ed25519(Ed25519PublicKeyFrom(k))
    case SkEd25519(k) => SkEd25519(SkEd25519PublicKeyFrom(k))
    case Rsa(k) => Rsa(RsaPublicKeyFrom(k))
    case EcDsa(k) => EcDsa(EcDsaPublicKeyFrom(k))
    case SkEcDsa(k) => SkEcDsa(SkEcDsaPublicKeyFrom(k))
  }

  /** Reference definition: the private key of the same family made of the
      public fields of `pk` and the secret material `s`. */
  function WithSecret(pk: PublicKey, s: PrivateKeys.Secret): PrivateKeys.PrivateKey {
    match pk
    case Dss(k) => PrivateKeys.Dss(PrivateKeys.DssPrivateKey(k.p, k.q, k.g, k.y, s))
    case Ed25519(k) => PrivateKeys.Ed25519(PrivateKeys.Ed25519PrivateKey(k.enc_a, s))
    case SkEd25519(k) => PrivateKeys.SkEd25519(PrivateKeys.SkEd25519PrivateKey(k.enc_a, k.application, s))
    case Rsa(k) => PrivateKeys.Rsa(PrivateKeys.RsaPrivateKey(k.e, k.n, s))
    case EcDsa(k) => PrivateKeys.EcDsa(PrivateKeys.EcDsaPrivateKey(k.identifier, k.q, s))
    case SkEcDsa(k) => PrivateKeys.SkEcDsa(PrivateKeys.SkEcDsaPrivateKey(k.identifier, k.q, k.application, s))
  }

  /** The projection loses nothing but the secret: the public key together
      with the secret material gives the private key back. */
  lemma ProjectionKeepsPublicFields(key: PrivateKeys.PrivateKey)
    ensures WithSecret(PublicKeyFrom(key), key.SecretPart()) == key
  {
  }

  /** The projection reads no secret and adds nothing: whatever secret a
      private key holds, its public key is made of its public fields alone. */
  lemma ProjectionIgnoresSecret(pk: PublicKey, s: PrivateKeys.Secret)
    ensures PublicKeyFrom(WithSecret(pk, s)) == pk
  {
  }

  /** Two private keys have the same public key exactly when they differ at
      most in their secret material. */
  lemma SamePublicKeyIffSamePublicFields(a: PrivateKeys.PrivateKey, b: PrivateKeys.PrivateKey)
    ensures PublicKeyFrom(a) == PublicKeyFrom(b) <==> a == WithSecret(PublicKeyFrom(b), a.SecretPart())
  {
    ProjectionKeepsPublicFields(a);
    ProjectionIgnoresSecret(PublicKeyFrom(b), a.SecretPart());
  }

  /** Projecting never changes the algorithm name: it is the private-key
      type's constant for RSA, DSS and Ed25519, and the private ECDSA
      constant followed by the private key's curve for ECDSA. */
  lemma ProjectionKeepsKeyType(key: PrivateKeys.PrivateKey)
    ensures key.Rsa? ==> KeyType(PublicKeyFrom(key)) == PrivateKeys.RSA_KEY_TYPE
    ensures key.Dss? ==> KeyType(PublicKeyFrom(key)) == PrivateKeys.DSS_KEY_TYPE
    ensures key.Ed25519? ==> KeyType(PublicKeyFrom(key)) == PrivateKeys.ED25519_KEY_TYPE
    ensures key.EcDsa? ==>
      KeyType(PublicKeyFrom(key)) == PrivateKeys.ECDSA_KEY_TYPE + "-" + key.ecdsa.identifier
    ensures key.SkEcDsa? ==>
      KeyType(PublicKeyFrom(key)) == "sk-ecdsa-sha2-" + key.skEcdsa.identifier + "@openssh.com"
  {
  }
}
