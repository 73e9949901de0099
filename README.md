# SSH public keys: algorithm names, projection and tag dispatch

A Dafny model of the public-key core of the `ssh-agent-lib` Rust crate
(`src/proto/public_key.rs`). The crate's public keys come in six families:

- RSA;
- DSS;
- ECDSA;
- Ed25519;
- the security-key (hardware token) variants of ECDSA and Ed25519.

Each family is an immutable struct. The `PublicKey` enum holds exactly one of them.

The model covers three things:

- **Algorithm names (`KeyType`).** RSA, DSS and Ed25519 have fixed names:
  `ssh-rsa` and `ssh-dss` (section 6.6 of RFC 4253) and `ssh-ed25519` (RFC 8709).
  The security-key Ed25519 name is `sk-ssh-ed25519@openssh.com` (OpenSSH PROTOCOL.u2f).
  The two ECDSA families build their name from the curve identifier:
  `ecdsa-sha2-<identifier>` (section 6.2 of RFC 5656) and
  `sk-ecdsa-sha2-<identifier>@openssh.com`.
- **Private-to-public projection.** Every private key maps to a public key of the
  same family. The projection copies the public fields and nothing else.
- **Tag dispatch.** The tagged encoding uses the algorithm name as the
  discriminant. `ParseKeyType` reads a name back to the variant, and to the
  curve for the ECDSA families. It fails with `UnknownAlgorithm(name)` on any other name.

Files:

- `proto.dfy`: bytes, `MpInt` and the `Family` enumeration.
- `private_key.dfy`: the private-key side the projections read.
- `public_key.dfy`: the structs, `KeyType` and the projections.
- `key_type_dispatch.dfy`: the tag dispatch.
- `wrappers.dfy`: `Option` and `Result`.

The private-key module (`src/proto/private_key.rs`) is not part of this model.
Its private structs here hold the public fields the projections read, plus an
opaque `Secret`. Its four `KEY_TYPE` constants are set to the standard names above.

The names of different families never collide, whatever the curve identifier
holds. This is proved for any identifier, including one that contains `@openssh.com`.
Nothing in src/proto/public_key.rs validates an identifier, and the model needs no such validation.

An ECDSA `identifier` may be any string, the empty one included: nothing in
src/proto/public_key.rs requires it to be non-empty.

## Model

| member | source | states |
|---|---|---|
| `PublicKeys.KeyType` | src/proto/public_key.rs:58-88 | the algorithm name of each variant: `ssh-dss`, `ssh-rsa`, `ssh-ed25519`, `sk-ssh-ed25519@openssh.com`, `ecdsa-sha2-` then the curve, `sk-ecdsa-sha2-` then the curve then `@openssh.com` |
| `PublicKeys.EcDsaKeyTypeIsCurve` | src/proto/public_key.rs:70-75 | two ECDSA keys have the same name if and only if they have the same identifier; the name ignores `q` |
| `PublicKeys.SkEcDsaKeyTypeIsCurve` | src/proto/public_key.rs:82-87 | two security-key ECDSA keys have the same name if and only if they have the same identifier; the name ignores `q` and `application` |
| `PublicKeys.SkEcDsaNameIsNotSkEd25519` | src/proto/public_key.rs:78-87 | every security-key ECDSA name begins `sk-ecdsa`, so none equals the security-key Ed25519 name |
| `PublicKeys.RsaPublicKeyFrom` | src/proto/public_key.rs:103-107 | the RSA public key has the private key's `e` and `n` |
| `PublicKeys.DssPublicKeyFrom` | src/proto/public_key.rs:109-118 | the DSS public key has the private key's `p`, `q`, `g` and `y` |
| `PublicKeys.EcDsaPublicKeyFrom` | src/proto/public_key.rs:120-127 | the ECDSA public key has the private key's `identifier` and `q` |
| `PublicKeys.SkEcDsaPublicKeyFrom` | src/proto/public_key.rs:129-137 | the security-key ECDSA public key has the private key's `identifier`, `q` and `application` |
| `PublicKeys.Ed25519PublicKeyFrom` | src/proto/public_key.rs:139-143 | the Ed25519 public key has the private key's `enc_a` |
| `PublicKeys.SkEd25519PublicKeyFrom` | src/proto/public_key.rs:145-152 | the security-key Ed25519 public key has the private key's `enc_a` and `application` |
| `PublicKeys.PublicKeyFrom` | src/proto/public_key.rs:90-101 | the enum projection is total and maps every private key to a public key of the same family |
| `PublicKeys.ProjectionKeepsPublicFields` | src/proto/public_key.rs:90-152 | the public key plus the private key's secret rebuilds the private key, so no public field is lost or altered |
| `PublicKeys.ProjectionIgnoresSecret` | src/proto/public_key.rs:90-152 | projecting a private key built from a public key and any secret gives back that public key, so the projection adds nothing and reads no secret |
| `PublicKeys.SamePublicKeyIffSamePublicFields` | src/proto/public_key.rs:90-152 | two private keys project to the same public key if and only if they differ at most in their secret |
| `PublicKeys.ProjectionKeepsKeyType` | src/proto/public_key.rs:58-71 | a projected RSA, DSS or Ed25519 key is named by the private-key constant; a projected ECDSA key is named by the private ECDSA constant, `-` and the private key's curve |
| `KeyTypeDispatch.TagOf` | src/proto/public_key.rs:184-192 | each of the six variants has a tag of its own family whose name is the key's algorithm name |
| `KeyTypeDispatch.EcDsaCurve` | src/proto/public_key.rs:70-75 | a name yields a curve if and only if it starts with `ecdsa-sha2-`, and the ECDSA name of that curve is the name itself |
| `KeyTypeDispatch.SkEcDsaCurve` | src/proto/public_key.rs:82-87 | a curve read from a name rebuilds that name as a security-key ECDSA name; a name without the `sk-ecdsa-sha2-` prefix yields no curve |
| `KeyTypeDispatch.SkEcDsaCurveOfName` | src/proto/public_key.rs:82-87 | reading the curve of a security-key ECDSA name gives back the identifier it was built from, for any identifier |
| `KeyTypeDispatch.ParseKeyType` | src/proto/public_key.rs:184-192 | a name read successfully is exactly the name of the tag it yields; a failure is `UnknownAlgorithm` carrying that name |
| `KeyTypeDispatch.ParseTagName` | src/proto/public_key.rs:184-192 | every tag's name reads back as that tag, for any curve identifier |
| `KeyTypeDispatch.ParseKeyTypeIff` | src/proto/public_key.rs:184-192 | a name reads as a tag if and only if it is that tag's name |
| `KeyTypeDispatch.KeyTypeReadsBack` | src/proto/public_key.rs:184-192 | decoding a key's algorithm name selects that key's own variant and curve |
| `KeyTypeDispatch.KeyTypeDeterminesTag` | src/proto/public_key.rs:58-88 | two keys have the same name if and only if they have the same variant and curve; keys of different families never share a name |
| `KeyTypeDispatch.FamilyOfKeyType` | src/proto/public_key.rs:184-192 | the name-to-family map `FamilyOf` inverts `KeyType` at the family level; it names a family only for names some key of that family produces |
| `KeyTypeDispatch.UnknownNameRefused` | src/proto/public_key.rs:184-192 | `ssh-unknown-type` is refused with `UnknownAlgorithm("ssh-unknown-type")` |

## Left out

- Borrowed projections (`From<&PrivateKey>` and the four struct-level `From<&…>` forms, src/proto/public_key.rs:154-182): they clone and then call the owned form. Datatype values cannot be mutated or aliased, so in this model a borrowed projection is the owned function itself and the source cannot change. src/proto/public_key.rs has no borrowed struct-level form for the two security-key structs (lines 154-182 cover RSA, DSS, ECDSA and Ed25519 only). That asymmetry has no counterpart in the model.
- The body of `impl_key_type_enum_ser_de!` is not part of this model. It lives in another file, along with the serde mechanics. `ParseKeyType` accepts exactly the names `KeyType` produces, reading the curve out of the two ECDSA name forms, and tries the variants in the order of src/proto/public_key.rs:186-191. A decoder that matched on prefixes of the `KEY_TYPE` constants would accept more names than this model does.
- Payload encoding and decoding are not modelled: the field layout per family, the SSH string and mpint framing (section 5 of RFC 4251), the serializer round trip and the malformed-payload error. Whether an ECDSA payload's own curve field must agree with the curve in the tag is decided there as well.
- `ProtoError` lives in the crate's own error module, which is not part of this model; the serde `Serializer`/`Deserializer` traits are library code. Both are represented only by `DispatchError.UnknownAlgorithm`.
- The `Clone`, `Debug`, `Hash` and `PartialEq` derives are left out. Dafny datatype equality is already structural equality.
- The secret fields of the private keys are not modelled (exponents, seeds, key handles, flags). They are one opaque `Secret` value, because the private-key module is not part of this model.
- Cryptography is out of scope: signing, verification and key generation do not appear in this code.
