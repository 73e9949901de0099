/** The private keys the public keys are projected from.

    The private-key module itself is not part of this model. Each private
    struct here carries exactly the public fields the projections read, under
    the same names, plus an opaque `Secret` standing for the secret material
    that no projection may copy. */
module PrivateKeys {
  import opened Proto

  /** Algorithm names of the private-key types, as the standards fix them:
      section 6.6 of RFC 4253 (ssh-rsa, ssh-dss), RFC 8709 (ssh-ed25519) and
      the prefix of the ECDSA names in section 6.2 of RFC 5656. */
  const RSA_KEY_TYPE: string := "ssh-rsa"
  const DSS_KEY_TYPE: string := "ssh-dss"
  const ED25519_KEY_TYPE: string := "ssh-ed25519"
  const ECDSA_KEY_TYPE: string := "ecdsa-sha2"

  /** Secret material (private exponents, seeds, key handles, flags), opaque here. */
  datatype Secret = Secret(material: seq<seq<uint8>>)

  datatype RsaPrivateKey = RsaPrivateKey(e: MpInt, n: MpInt, secret: Secret)

  datatype DssPrivateKey = DssPrivateKey(p: MpInt, q: MpInt, g: MpInt, y: MpInt, secret: Secret)

  datatype EcDsaPrivateKey = EcDsaPrivateKey(identifier: string, q: MpInt, secret: Secret)

  datatype SkEcDsaPrivateKey =
    SkEcDsaPrivateKey(identifier: string, q: MpInt, application: string, secret: Secret)

  datatype Ed25519PrivateKey = Ed25519PrivateKey(enc_a: seq<uint8>, secret: Secret)

  datatype SkEd25519PrivateKey =
    SkEd25519PrivateKey(enc_a: seq<uint8>, application: string, secret: Secret)

  datatype PrivateKey =
    | Dss(dss: DssPrivateKey)
    | Ed25519(ed25519: Ed25519PrivateKey)
    | SkEd25519(skEd25519: SkEd25519PrivateKey)
    | Rsa(rsa: RsaPrivateKey)
    | EcDsa(ecdsa: EcDsaPrivateKey)
    | SkEcDsa(skEcdsa: SkEcDsaPrivateKey)
  {
    function Family(): Family {
      match this
      case Dss(_) => DssFamily
      case Ed25519(_) => Ed25519Family
      case SkEd25519(_) => SkEd25519Family
      case Rsa(_) => RsaFamily
      case EcDsa(_) => EcDsaFamily
      case SkEcDsa(_) => SkEcDsaFamily
    }

    /** The secret part of the active variant. */
    function SecretPart(): Secret {
      match this
      case Dss(k) => k.secret
      case Ed25519(k) => k.secret
      case SkEd25519(k) => k.secret
      case Rsa(k) => k.secret
      case EcDsa(k) => k.secret
      case SkEcDsa(k) => k.secret
    }
  }
}
