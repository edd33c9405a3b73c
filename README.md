# jwttool token issuance, modelled in Dafny

jwttool is a command-line program that issues signed membership tokens. Given
the cluster's signing key, held in a hardware or software security module, and
a host's public key, it prints a JWT saying that this key, under this name,
belongs to cluster X, optionally until time T.

The model covers the whole decision procedure of `main()`:

- the cluster name is `CLUSTER`, or `default` when that is empty;
- the key store is queried under `seidan:<cluster>` and the first key listed is used;
- the command is matched case-insensitively;
- the operand count and the optional day count are checked;
- the host key must decode as unpadded base64url and parse as a PKIX public key;
- the algorithm is chosen from the signer's key family by a closed switch;
- the `kid` header and the claim set (`iss`, `iat`, `sub`, `nam`, `aud`, optional `exp`) are assembled;
- the token is signed and printed.

Files:

- `wrappers.dfy`: the `Option` type.
- `jws.dfy` (module `Jws`): key families and algorithms, `SelectAlg`, claim values, and the `Token` class whose header and payload maps are filled in place.
- `jwttool.dfy` (module `JwtTool`): the inputs, the `Outcome` of a run, the helpers, the clock lemmas, and the procedure itself as the method `Run`, with the claim assembly in `Assemble`.

The program's collaborators are not modelled; their results are inputs, given as fields of `Environment`:

- the security module (`hsm.New`, `ListKeysByName`);
- `strconv.Atoi`;
- the base64url decoder and encoder;
- `x509.ParsePKIXPublicKey` and `x509.MarshalPKIXPublicKey`;
- the JWT signer.

The two `time.Now()` readings are given as `Clock`, in nanoseconds since the epoch. An `Outcome` records four things:

- the exit status;
- what was printed on standard output;
- the name the key store was queried with, if it was queried;
- the request handed to the signer, if signing was attempted.

The last two let the contracts say whether the key store was queried and whether anything was signed.

Behaviour of the code worth noting, which the model keeps:

- An ECDSA signer key on any curve gets `ES256`. ES256 is ECDSA with P-256 (section 3.4 of RFC 7518), but the code has no curve check (main.go:90-91).
- The code reads the clock twice, once for `iat` (main.go:108) and once for `exp` (main.go:113). So `exp` is exactly `iat + days·86400` if and only if both readings fall in the same second (`ExpiryExactWhenSameSecond`). With a clock that does not go backwards, it is at least that (`ExpiryClaim`).
- The program's usage comment calls the third operand an optional expiration in days (main.go:53). The code accepts any integer there, and 0 or a negative count gives a token without `exp` (main.go:112).
- An unrecognised command exits with status 0 and prints nothing (main.go:123-125).
- An empty argument vector makes `os.Args[0]` (main.go:22) panic. The model records this as exit status 2 with nothing printed.

## Model

| member | source | states |
|---|---|---|
| `JwtTool.Run` | main.go:20-126 | The whole procedure. No arguments: panic. Only the program name: usage, exit 0, key store never queried. Otherwise the store is queried exactly when the module initialises, and always under `seidan:` + cluster name. No key: exit 1, nothing printed or signed, whatever the command. Unknown command: exit 0, no output. `gen` with fewer than two operands: gen usage, exit 1. Any failed check: exit 1, no output, no signing. Signing is attempted if and only if every check passed. The request then carries the first key, its `SelectAlg` algorithm, `kid` = the encoding of the marshalled signer key, and the `ClaimSet` with issuer = cluster name, subject = host-key argument, name = name operand and `ExpiryClaim` of the day count. The token plus a newline is printed only when signing succeeds. A failed signing prints nothing and exits 1. |
| `JwtTool.Assemble` | main.go:105-114 | Filling a new token in place gives a token for the given algorithm and key. Its header is exactly `kid` = the signer's encoded key. Its payload is exactly `ClaimSet` of the cluster, the first clock reading in seconds, the host key, the name and `ExpiryClaim` of the day count. |
| `JwtTool.ClaimSet` | main.go:107-114 | The claim keys are exactly `iss`, `iat`, `sub`, `nam`, `aud`, plus `exp` if and only if there is an expiry. `iss` = cluster, `iat` = issue second, `sub` = host key argument verbatim (never re-encoded), `nam` = name, `aud` = `directory.atonline.com`, `exp` = the expiry. |
| `JwtTool.ExpiryClaim` | main.go:112-113 | An expiry exists if and only if days > 0, so 0 and negative counts give a non-expiring token. It equals the second reading's Unix second + days·86400, and it is ≥ `iat` + days·86400 when the clock does not go backwards. |
| `Jws.SelectAlg` | main.go:86-97 | Closed and total: no algorithm exactly for a key type outside RSA, ECDSA, Ed25519. The chosen algorithm signs with the key's family (RS256 for RSA, ES256 for ECDSA on any curve, EdDSA for Ed25519), and it is the only algorithm that does. |
| `Jws.Token.constructor` | main.go:105 | A new token has the given algorithm and empty header and payload. |
| `Jws.Token.SetHeader` | main.go:106 | Sets one header parameter, leaving the rest of the header and the whole payload unchanged. |
| `Jws.Token.SetPayload` | main.go:107-114 | Sets one claim, leaving the other claims and the header unchanged. |
| `JwtTool.ClusterName` | main.go:25-28 | Never empty. `CLUSTER` verbatim when it is non-empty, `default` otherwise. |
| `JwtTool.LookupName` | main.go:36 | The lookup name is `seidan:` followed by the cluster name verbatim. |
| `JwtTool.LookupNameInjective` | main.go:36 | Two cluster names give the same lookup name only when they are equal. |
| `JwtTool.FirstKey` | main.go:37-46 | No key if and only if the listing failed or is empty. Otherwise the key is the first in list order. |
| `JwtTool.ResolvedKey` | main.go:21-46 | A key is held at the command switch if and only if there is a command, the module initialised and the namespaced listing yields a key. The key is then the first one of that listing. |
| `JwtTool.DayCount` | main.go:60-67 | Without a fourth operand the day count is 0. With one, it is that operand's parse, and None exactly when the parse fails. |
| `JwtTool.SignReady` | main.go:54-103 | All checks before signing passed. That means: both operands are there, a key was resolved, the signer's key family is supported, and the host key decodes and parses. |
| `JwtTool.ToLower` | main.go:50 | Keeps the length and lower-cases each character position by position. |
| `JwtTool.ToLowerIdempotent` | main.go:50 | Lower-casing twice gives the same result as lower-casing once. |
| `JwtTool.IsGenAnyCase` | main.go:50-51 | An argument selects `gen` if and only if it is three characters long and they are g/G, e/E, n/N. |
| `JwtTool.IsGenCaseInsensitive` | main.go:50-51 | An argument selects `gen` exactly when its lower-case form does. |
| `JwtTool.UnixSecondsMonotonic` | main.go:108-113 | Unix seconds never decrease as the clock advances. |
| `JwtTool.ExpiryExactWhenSameSecond` | main.go:108-113 | For a positive day count, `exp` = `iat` + days·86400 if and only if both clock readings fall in the same second. |
| `JwtTool.UnixSeconds` | main.go:108 | `time.Time.Unix()`: the whole second containing the reading, rounded down. |

## Left out

- The security module (`hsm.New`, `ListKeysByName`, key handles) is a foreign library. Only its results are modelled, as `hsmReady` and `listKeys`. A key handle is a display name, the family of its public key and an opaque identity.
- Base64url decoding and encoding, X.509 PKIX parsing and marshalling, and `strconv.Atoi` are library code. They are given as functions in `Environment`. Their internals and the exact inputs they accept are not modelled.
- JWT serialisation and signing are foreign cryptography. The signer is a function from the request to a compact token or an error. Header entries the library writes itself are not modelled, apart from the algorithm (`Token.alg`).
- `time.Now()` is a parameter: two readings, in nanoseconds.
- Go's 64-bit `time.Duration` and `int64` arithmetic is not modelled. Day counts above about 106751 overflow the duration in the code. The model uses unbounded integers, so there the model's `exp` differs from the code's.
- `JwtTool.ToLower`: only lower-cases ASCII letters, where Go's `strings.ToLower` also maps other Unicode letters. Which arguments select `gen` is unaffected, because no non-ASCII character lower-cases to g, e or n.
- Log messages (the "found key" line and every diagnostic on standard error) and the mechanics of `os.Exit` are left out. A run is represented only by its `Outcome`.
