/**
  The JSON Web Signature side of the token: the signature algorithms the tool can
  emit, the closed mapping from the signer's key family to an algorithm, and the
  token under construction whose header and payload are filled in place.
 */
module Jws {
  import opened Wrappers

  /** The curve of an ECDSA public key: the standard ones of crypto/elliptic, or any other implementation. */
  datatype Curve = P224 | P256 | P384 | P521 | CustomCurve

  /** The dynamic type of the signer's public key, as the type switch in main() sees it. */
  datatype KeyFamily =
    | Rsa                  // *rsa.PublicKey
    | Ecdsa(curve: Curve)  // *ecdsa.PublicKey, any curve
    | Ed25519              // ed25519.PublicKey
    | Other                // any other public key type

  /** The JWS algorithms the tool can sign with. */
  datatype Alg = RS256 | ES256 | EdDSA

  /**
    The key family each algorithm signs with: RS256 uses an RSA key and ES256 an
    ECDSA key (section 3.1 of RFC 7518), EdDSA an Edwards-curve key (section 3.1
    of RFC 8037). ES256 is accepted for an ECDSA key on any curve, as the tool
    does not look at the curve.
   */
  predicate SignsWith(a: Alg, f: KeyFamily)
  {
    match a
    case RS256 => f.Rsa?
    case ES256 => f.Ecdsa?
    case EdDSA => f.Ed25519?
  }

  /**
    The type switch of main(): the algorithm for the signer's key family.
    Total over the three supported families, None for every other key type,
    and the algorithm chosen is the only one that signs with that family.
   */
  function SelectAlg(f: KeyFamily): (r: Option<Alg>)
    ensures r.None? <==> f.Other?
    ensures r.Some? ==> SignsWith(r.value, f)
    ensures forall a :: SignsWith(a, f) ==> r == Some(a)
  {
    match f
    case Rsa => Some(RS256)
    case Ecdsa(_) => Some(ES256)
    case Ed25519 => Some(EdDSA)
    case Other => None
  }

  /** A JSON value of a header parameter or a claim: a string or an integer. */
  datatype Value = Text(s: string) | Number(n: int)

  /** A JWS header or a JWT claim set, by member name. */
  type Claims = map<string, Value>

  /**
    A token under construction: the algorithm it was created for, and the header
    and payload maps that main() fills with successive Set calls. The header map
    holds only the parameters main() sets; what the library itself writes there
    (such as "alg") is given by the alg field.
   */
  class Token {
    const alg: Alg
    var header: Claims
    var payload: Claims

    /** jwt.New(alg): an empty header and an empty payload. */
    constructor (alg: Alg)
      ensures this.alg == alg
      ensures header == map[] && payload == map[]
    {
      this.alg := alg;
      header := map[];
      payload := map[];
    }

    /** token.Header().Set(name, v): adds or replaces one header parameter. */
    method SetHeader(name: string, v: Value)
      modifies this
      ensures header == old(header)[name := v]
      ensures payload == old(payload)
    {
      header := header[name := v];
    }

    /** token.Payload().Set(name, v): adds or replaces one claim. */
    method SetPayload(name: string, v: Value)
      modifies this
      ensures payload == old(payload)[name := v]
      ensures header == old(header)
    {
      payload := payload[name := v];
    }
  }
}
