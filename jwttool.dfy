/**
  The token-issuance procedure of the jwttool command: resolve the cluster's
  signing key in the security module, validate the caller's host key, select the
  signature algorithm, assemble the header and claim set, sign and print.

  The security module, the integer parser, the base64url codec, the X.509
  parser and marshaller and the signer are collaborators whose results are
  given in Environment; the two readings of the clock are given in Clock.
 */
module JwtTool {
  import opened Wrappers
  import opened Jws

  newtype Byte = b: int | 0 <= b < 256
  type Bytes = seq<Byte>

  const DEFAULT_CLUSTER := "default"
  const KEY_NAMESPACE := "seidan:"
  const AUDIENCE := "directory.atonline.com"
  const SECONDS_PER_DAY := 86400
  const NANOS_PER_SECOND := 1_000_000_000
  const NANOS_PER_DAY := SECONDS_PER_DAY * NANOS_PER_SECOND

  /** The claims every issued token carries; "exp" is added only for a positive day count. */
  const BASE_CLAIMS: set<string> := {"iss", "iat", "sub", "nam", "aud"}

  /** A key handle of the security module: its display name, the family of its public key and an opaque identity. */
  datatype KeyHandle = KeyHandle(displayName: string, family: KeyFamily, slot: nat)

  /** The result of listing the module's keys by name. */
  datatype Listing = ListError | Found(keys: seq<KeyHandle>)

  /** What is handed to the token's Sign call: the algorithm, the header, the payload and the key. */
  datatype SignRequest = SignRequest(alg: Alg, header: Claims, payload: Claims, key: KeyHandle)

  /** The process arguments (os.Args, program name first) and the CLUSTER variable ("" when unset). */
  datatype Invocation = Invocation(args: seq<string>, clusterVar: string)

  /**
    The collaborators' results:
    hsmReady     whether hsm.New() succeeds;
    listKeys     ListKeysByName for each name;
    atoi         strconv.Atoi;
    decodeKey    base64.RawURLEncoding.DecodeString;
    parsePkix    whether x509.ParsePKIXPublicKey accepts the bytes;
    marshalPkix  x509.MarshalPKIXPublicKey of the handle's public key;
    encodeKid    base64.RawURLEncoding.EncodeToString;
    sign         token.Sign: the compact token, or None on a signing error.
   */
  datatype Environment = Environment(
    hsmReady: bool,
    listKeys: string -> Listing,
    atoi: string -> Option<int>,
    decodeKey: string -> Option<Bytes>,
    parsePkix: Bytes -> bool,
    marshalPkix: KeyHandle -> Option<Bytes>,
    encodeKid: Bytes -> string,
    sign: SignRequest -> Option<string>)

  /** The two time.Now() readings, in nanoseconds since the Unix epoch: for "iat" and for "exp". */
  datatype Clock = Clock(atIssue: int, atExpiry: int)

  /**
    How the run ends: the exit status, what was written to standard output, the
    name the key store was queried with (None when it was not queried), and the
    request handed to the signer (None when no signing was attempted).
   */
  datatype Outcome = Outcome(exit: int, stdout: string, queried: Option<string>, signing: Option<SignRequest>)

  /** Indexing os.Args[0] of an empty argument vector panics; the Go runtime then exits with status 2. */
  const PANICKED := Outcome(2, "", None, None)

  function Usage(program: string): string
  {
    "Usage: " + program + " command\n"
  }

  function GenUsage(program: string): string
  {
    "Usage: " + program + " gen name key [expiration]\n"
  }

  // ---------------------------------------------------------------------------
  // Cluster identity and key resolution

  /** The cluster identity: the CLUSTER variable, or "default" when it is empty. It is never empty. */
  function ClusterName(clusterVar: string): (name: string)
    ensures name != ""
    ensures clusterVar != "" ==> name == clusterVar
    ensures clusterVar == "" ==> name == DEFAULT_CLUSTER
  {
    if clusterVar == "" then DEFAULT_CLUSTER else clusterVar
  }

  /** The namespaced name the key store is queried with: the namespace prefix, then the cluster name verbatim. */
  function LookupName(cluster: string): (n: string)
    ensures |n| == |KEY_NAMESPACE| + |cluster|
    ensures n[..|KEY_NAMESPACE|] == KEY_NAMESPACE && n[|KEY_NAMESPACE|..] == cluster
  {
    KEY_NAMESPACE + cluster
  }

  /** Distinct clusters are looked up under distinct names. */
  lemma LookupNameInjective(a: string, b: string)
    ensures LookupName(a) == LookupName(b) <==> a == b
  {
  }

  /** The key a listing yields: none on a listing error or an empty list, otherwise the first in list order. */
  function FirstKey(l: Listing): (k: Option<KeyHandle>)
    ensures k.None? <==> l.ListError? || l.keys == []
    ensures k.Some? ==> k.value == l.keys[0] && k.value in l.keys
  {
    if l.ListError? || |l.keys| == 0 then None else Some(l.keys[0])
  }

  /**
    The signing key main() holds when it reaches the command switch: there is a
    command, the module initialised, and the namespaced listing yields a key.
   */
  function ResolvedKey(inv: Invocation, env: Environment): (k: Option<KeyHandle>)
    ensures k.Some? <==>
              |inv.args| > 1 && env.hsmReady && FirstKey(env.listKeys(LookupName(ClusterName(inv.clusterVar)))).Some?
    ensures k.Some? ==> FirstKey(env.listKeys(LookupName(ClusterName(inv.clusterVar)))) == k
  {
    if |inv.args| > 1 && env.hsmReady
    then FirstKey(env.listKeys(LookupName(ClusterName(inv.clusterVar))))
    else None
  }

  // ---------------------------------------------------------------------------
  // Case-insensitive command dispatch (strings.ToLower on ASCII letters)

  function LowerChar(c: char): char
  {
    if 'A' <= c <= 'Z' then (c as int + 32) as char else c
  }

  /** Lower-cases every ASCII letter and keeps every other character, position by position. */
  function ToLower(s: string): (r: string)
    ensures |r| == |s|
    ensures forall i :: 0 <= i < |s| ==> r[i] == LowerChar(s[i])
  {
    if s == [] then [] else [LowerChar(s[0])] + ToLower(s[1..])
  }

  lemma ToLowerIdempotent(s: string)
    ensures ToLower(ToLower(s)) == ToLower(s)
  {
  }

  /** Whether the first argument selects the gen command. */
  predicate IsGen(command: string)
  {
    ToLower(command) == "gen"
  }

  /** The gen command is recognised in any mix of upper and lower case, and in no other spelling. */
  lemma IsGenAnyCase(command: string)
    ensures IsGen(command) <==>
      |command| == 3 && command[0] in "gG" && command[1] in "eE" && command[2] in "nN"
  {
  }

  /** Lower-casing the command before matching makes the match depend only on its lower-case form. */
  lemma IsGenCaseInsensitive(command: string)
    ensures IsGen(command) <==> IsGen(ToLower(command))
  {
  }

  // ---------------------------------------------------------------------------
  // Expiration

  /** The day count of gen: 0 when the fourth operand is absent, otherwise its parse (None when malformed). */
  function DayCount(args: seq<string>, atoi: string -> Option<int>): (d: Option<int>)
    ensures |args| <= 4 ==> d == Some(0)
    ensures |args| > 4 ==> (d.None? <==> atoi(args[4]).None?)
    ensures |args| > 4 && d.Some? ==> d.value == atoi(args[4]).value
  {
    if |args| > 4 then atoi(args[4]) else Some(0)
  }

  /** time.Time.Unix(): whole seconds since the epoch, rounded down (Dafny's division by a positive constant floors). */
  function UnixSeconds(t: int): (secs: int)
    ensures secs * NANOS_PER_SECOND <= t < (secs + 1) * NANOS_PER_SECOND
  {
    t / NANOS_PER_SECOND
  }

  /** now.Add(time.Duration(days) * 24 * time.Hour), in nanoseconds. */
  function AddDays(now: int, days: int): int
  {
    now + days * NANOS_PER_DAY
  }

  /** Whole seconds since the epoch never decrease as the clock advances. */
  lemma UnixSecondsMonotonic(t1: int, t2: int)
    ensures t1 <= t2 ==> UnixSeconds(t1) <= UnixSeconds(t2)
  {
  }

  /**
    The "exp" claim for a day count: none unless the count is positive, and
    then the second clock reading plus the days, in whole seconds.
   */
  function ExpiryClaim(clock: Clock, days: int): (e: Option<int>)
    ensures e.Some? <==> days > 0
    ensures e.Some? ==> e.value == UnixSeconds(clock.atExpiry) + days * SECONDS_PER_DAY
    ensures e.Some? && clock.atIssue <= clock.atExpiry ==>
      e.value >= UnixSeconds(clock.atIssue) + days * SECONDS_PER_DAY
  {
    if days > 0 then
      Some(UnixSeconds(AddDays(clock.atExpiry, days)))
    else
      None
  }

  /**
    The clock is read twice, so "exp" is exactly "iat" plus the day count in
    seconds if and only if both readings fall in the same second.
   */
  lemma ExpiryExactWhenSameSecond(clock: Clock, days: int)
    requires days > 0
    ensures ExpiryClaim(clock, days).value == UnixSeconds(clock.atIssue) + days * SECONDS_PER_DAY
        <==> UnixSeconds(clock.atIssue) == UnixSeconds(clock.atExpiry)
  {
  }

  // ---------------------------------------------------------------------------
  // Header and claim assembly

  /**
    The claim set of an issued token, by claim: the issuer, the issue time, the
    host key as subject, the host name, the fixed audience, and the expiry when
    there is one.
   */
  function ClaimSet(cluster: string, iat: int, key: string, name: string, exp: Option<int>): (c: Claims)
    ensures c.Keys == (if exp.Some? then BASE_CLAIMS + {"exp"} else BASE_CLAIMS)
    ensures c["iss"] == Text(cluster) && c["iat"] == Number(iat) && c["sub"] == Text(key)
    ensures c["nam"] == Text(name) && c["aud"] == Text(AUDIENCE)
    ensures exp.Some? ==> c["exp"] == Number(exp.value)
  {
    var base := map["iss" := Text(cluster), "iat" := Number(iat), "sub" := Text(key),
                    "nam" := Text(name), "aud" := Text(AUDIENCE)];
    if exp.Some? then base["exp" := Number(exp.value)] else base
  }

  /**
    Lines 105-114 of main(): a new token for the algorithm, the signer's key
    identifier as its only header parameter, and the claims set one by one.
   */
  method Assemble(alg: Alg, kid: string, cluster: string, key: string, name: string,
                  days: int, clock: Clock, k: KeyHandle) returns (r: SignRequest)
    ensures r.alg == alg && r.key == k
    ensures r.header == map["kid" := Text(kid)]
    ensures r.payload == ClaimSet(cluster, UnixSeconds(clock.atIssue), key, name, ExpiryClaim(clock, days))
  {
    var token := new Token(alg);
    token.SetHeader("kid", Text(kid));
    token.SetPayload("iss", Text(cluster));
    token.SetPayload("iat", Number(UnixSeconds(clock.atIssue)));
    token.SetPayload("sub", Text(key));
    token.SetPayload("nam", Text(name));
    token.SetPayload("aud", Text(AUDIENCE));
    if days > 0 {
      token.SetPayload("exp", Number(UnixSeconds(AddDays(clock.atExpiry, days))));
    }
    r := SignRequest(token.alg, token.header, token.payload, k);
  }

  // ---------------------------------------------------------------------------
  // The procedure

  /** Every check gen makes before signing passes: an operand count of at least two, a well-formed day count, a host key that decodes and parses, a supported signer family and a marshallable signer key. */
  predicate SignReady(inv: Invocation, env: Environment)
    ensures SignReady(inv, env) ==> |inv.args| > 3 && ResolvedKey(inv, env).Some?
    ensures SignReady(inv, env) ==> !ResolvedKey(inv, env).value.family.Other?
    ensures SignReady(inv, env) ==> env.decodeKey(inv.args[3]).Some? && env.parsePkix(env.decodeKey(inv.args[3]).value)
  {
    var k := ResolvedKey(inv, env);
    k.Some? && IsGen(inv.args[1]) && |inv.args| > 3 && DayCount(inv.args, env.atoi).Some? &&
    env.decodeKey(inv.args[3]).Some? && env.parsePkix(env.decodeKey(inv.args[3]).value) &&
    SelectAlg(k.value.family).Some? && env.marshalPkix(k.value).Some?
  }

  /**
    main(). Guard clauses in source order, each ending the run; on the gen
    path every validation precedes signing, and the token is printed only
    after the signer succeeds.
   */
  method Run(inv: Invocation, env: Environment, clock: Clock) returns (o: Outcome)
    // no command: usage on standard output, exit 0, the key store untouched
    ensures |inv.args| == 0 ==> o == PANICKED
    ensures |inv.args| == 1 ==> o == Outcome(0, Usage(inv.args[0]), None, None)
    // every run with a command queries the store, with the namespaced cluster name, once the module is up
    ensures o.queried.Some? <==> |inv.args| > 1 && env.hsmReady
    ensures o.queried.Some? ==> o.queried == Some(LookupName(ClusterName(inv.clusterVar)))
    // no key: exit 1, nothing printed, nothing signed, whatever the command
    ensures |inv.args| > 1 && ResolvedKey(inv, env).None? ==> o.exit == 1 && o.stdout == "" && o.signing.None?
    // an unrecognised command: exit 0, nothing printed, nothing signed
    ensures ResolvedKey(inv, env).Some? && !IsGen(inv.args[1]) ==>
      o.exit == 0 && o.stdout == "" && o.signing.None?
    // gen with fewer than two operands: the gen usage line and exit 1
    ensures ResolvedKey(inv, env).Some? && IsGen(inv.args[1]) && |inv.args| <= 3 ==>
      o.exit == 1 && o.stdout == GenUsage(inv.args[0]) && o.signing.None?
    // a failed validation on the gen path: exit 1, nothing printed, nothing signed
    ensures ResolvedKey(inv, env).Some? && IsGen(inv.args[1]) && |inv.args| > 3 && !SignReady(inv, env) ==>
      o.exit == 1 && o.stdout == "" && o.signing.None?
    // signing is attempted exactly when every check passed
    ensures o.signing.Some? <==> SignReady(inv, env)
    // what is signed: the first key, its algorithm, its kid, and the claim set
    ensures SignReady(inv, env) ==>
      var k := ResolvedKey(inv, env).value;
      var days := DayCount(inv.args, env.atoi).value;
      o.signing.value == SignRequest(
        SelectAlg(k.family).value,
        map["kid" := Text(env.encodeKid(env.marshalPkix(k).value))],
        ClaimSet(ClusterName(inv.clusterVar), UnixSeconds(clock.atIssue), inv.args[3], inv.args[2],
                 ExpiryClaim(clock, days)),
        k)
    // the result of signing decides the rest
    ensures o.signing.Some? ==>
      var res := env.sign(o.signing.value);
      (res.Some? ==> o.exit == 0 && o.stdout == res.value + "\n") &&
      (res.None? ==> o.exit == 1 && o.stdout == "")
    // a token reaches standard output only from a successful signing; failures print no token
    ensures o.exit == 0 && o.stdout != "" ==> |inv.args| == 1 || (o.signing.Some? && env.sign(o.signing.value).Some?)
    ensures o.exit != 0 ==> o.stdout == "" || (|inv.args| > 0 && o.stdout == GenUsage(inv.args[0]))
  {
    var args := inv.args;
    if |args| <= 1 {
      if |args| == 0 {
        return PANICKED;
      }
      return Outcome(0, Usage(args[0]), None, None);
    }
    var clusterName := inv.clusterVar;
    if clusterName == "" {
      clusterName := DEFAULT_CLUSTER;
    }

    if !env.hsmReady {
      return Outcome(1, "", None, None);
    }

    var lookup := KEY_NAMESPACE + clusterName;
    var ks := env.listKeys(lookup);
    if ks.ListError? {
      return Outcome(1, "", Some(lookup), None);
    } else if |ks.keys| == 0 {
      return Outcome(1, "", Some(lookup), None);
    }
    var k := ks.keys[0];

    if ToLower(args[1]) == "gen" {
      if |args| <= 3 {
        return Outcome(1, GenUsage(args[0]), Some(lookup), None);
      }
      var name := args[2];
      var key := args[3];
      var exp := 0;
      if |args| > 4 {
        var parsed := env.atoi(args[4]);
        if parsed.None? {
          return Outcome(1, "", Some(lookup), None);
        }
        exp := parsed.value;
      }

      var keyBin := env.decodeKey(key);
      if keyBin.None? {
        return Outcome(1, "", Some(lookup), None);
      }
      if !env.parsePkix(keyBin.value) {
        return Outcome(1, "", Some(lookup), None);
      }

      var jwtAlgo := SelectAlg(k.family);
      if jwtAlgo.None? {
        return Outcome(1, "", Some(lookup), None);
      }

      var kidBin := env.marshalPkix(k);
      if kidBin.None? {
        return Outcome(1, "", Some(lookup), None);
      }

      var request := Assemble(jwtAlgo.value, env.encodeKid(kidBin.value), clusterName, key, name, exp, clock, k);
      var res := env.sign(request);
      if res.None? {
        return Outcome(1, "", Some(lookup), Some(request));
      }
      return Outcome(0, res.value + "\n", Some(lookup), Some(request));
    }
    return Outcome(0, "", Some(lookup), None);
  }
}
