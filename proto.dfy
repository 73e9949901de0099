/** Primitives shared by the private-key and public-key models. */
module Proto {

  newtype uint8 = x: int | 0 <= x < 256

  /** A multi-precision integer as it travels on the wire: an ordered byte
      buffer, compared byte for byte. No sign or leading-zero normalisation
      is imposed, because the key structs do not impose any. */
  type MpInt = seq<uint8>

  /** The six key families. Every private key and every public key belongs
      to exactly one of them. */
  datatype Family =
    | DssFamily
    | Ed25519Family
    | SkEd25519Family
    | RsaFamily
    | EcDsaFamily
    | SkEcDsaFamily
}
