/**
 * Token generation and validation (src/localghost/auth/tokens.py).
 * A token is the Fernet encryption of a JSON payload naming the client, the
 * endpoint it was issued for, its permissions, the issue time and an optional
 * expiry time, all in integer seconds.
 */
module Tokens {
  import opened Wrappers
  import opened Json
  import opened Text
  import opened Crypto

  datatype TokenPayload = TokenPayload(
    clientId: string,
    endpoint: string,
    permissions: seq<string>,
    issuedAt: int,
    expiresAt: Option<int>)

  const PayloadKeys: set<string> := {"client_id", "endpoint", "permissions", "issued_at", "expires_at"}

  /** `TokenPayload.to_dict`. */
  function ToDict(p: TokenPayload): (d: Dict)
    ensures d.Keys == PayloadKeys
  {
    map[
      "client_id" := Str(p.clientId),
      "endpoint" := Str(p.endpoint),
      "permissions" := StrList(p.permissions),
      "issued_at" := Num(p.issuedAt),
      "expires_at" := if p.expiresAt.Some? then Num(p.expiresAt.value) else Null]
  }

  /**
   * `TokenPayload.from_dict`. A missing required key raises KeyError in the
   * source, which `validate_token` turns into None; a missing "expires_at"
   * reads as None. A value of the wrong JSON type is rejected here, where the
   * source would build the payload with it.
   */
  function FromDict(d: Dict): (r: Option<TokenPayload>)
    ensures r.Some? ==> "client_id" in d && "endpoint" in d && "permissions" in d && "issued_at" in d
    ensures r.Some? ==> d["client_id"] == Str(r.value.clientId) && d["endpoint"] == Str(r.value.endpoint)
    ensures r.Some? ==> ("expires_at" !in d || d["expires_at"] == Null <==> r.value.expiresAt.None?)
  {
    if "client_id" !in d || "endpoint" !in d || "permissions" !in d || "issued_at" !in d then None
    else
      var expires := if "expires_at" in d then d["expires_at"] else Null;
      match (d["client_id"], d["endpoint"], AsStrList(d["permissions"]), d["issued_at"], expires)
      case (Str(c), Str(e), Some(ps), Num(t), Null) => Some(TokenPayload(c, e, ps, t, None))
      case (Str(c), Str(e), Some(ps), Num(t), Num(x)) => Some(TokenPayload(c, e, ps, t, Some(x)))
      case _ => None
  }

  /** `from_dict(to_dict(p)) == p`. */
  lemma {:induction false} DictRoundTrip(p: TokenPayload)
    ensures FromDict(ToDict(p)) == Some(p)
  {
    StrListRoundTrip(p.permissions);
  }

  /** A payload without "expires_at" decodes with no expiry. */
  lemma {:induction false} MissingExpiryReadsAsNone(p: TokenPayload)
    ensures FromDict(ToDict(p) - {"expires_at"}) == Some(p.(expiresAt := None))
  {
    StrListRoundTrip(p.permissions);
    var d := ToDict(p) - {"expires_at"};
    assert "expires_at" !in d;
    assert d["permissions"] == StrList(p.permissions);
  }

  /** A payload missing any required key is rejected (KeyError). */
  lemma MissingFieldRejected(d: Dict, key: string)
    requires key in PayloadKeys - {"expires_at"}
    ensures FromDict(d - {key}) == None
  {
  }

  /**
   * The token manager: a Fernet cipher under a fixed secret key, and the
   * SHA-256 collaborator used for client ids. The fields never change after
   * construction.
   */
  datatype TokenManager = TokenManager(secretKey: Key, fernet: Cipher, sha256: string -> string)

  /** `TokenManager(secret_key)`: without a key, a freshly generated one is used. */
  function NewTokenManager(secret: Option<Key>, generated: Key, fernet: Cipher, sha256: string -> string): (m: TokenManager)
    ensures secret.Some? ==> m.secretKey == secret.value
    ensures secret.None? ==> m.secretKey == generated
  {
    TokenManager(if secret.Some? then secret.value else generated, fernet, sha256)
  }

  /** The payload `generate_token` builds at time `now`. */
  function IssuedPayload(clientId: string, endpoint: string, permissions: seq<string>,
                         expiresInHours: Option<int>, now: int): TokenPayload
  {
    TokenPayload(clientId, endpoint, permissions, now,
                 if expiresInHours.Some? then Some(now + expiresInHours.value * 3600) else None)
  }

  /** `generate_token`: encrypt the payload under the manager's key. */
  function GenerateToken(m: TokenManager, clientId: string, endpoint: string, permissions: seq<string>,
                         expiresInHours: Option<int>, now: int, nonce: Nonce): string
  {
    m.fernet.encrypt(m.secretKey, nonce, ToDict(IssuedPayload(clientId, endpoint, permissions, expiresInHours, now)))
  }

  /** Whether a payload is past its expiry at time `now` (strictly later than `expires_at`). */
  predicate Expired(p: TokenPayload, now: int) {
    p.expiresAt.Some? && now > p.expiresAt.value
  }

  /**
   * `validate_token`: None for a token that does not decrypt under the key,
   * whose payload lacks a field, or whose expiry has passed.
   */
  function ValidateToken(m: TokenManager, token: string, now: int): (r: Option<TokenPayload>)
    ensures r.Some? ==> !Expired(r.value, now)
    ensures r.Some? ==> exists d :: m.fernet.decrypt(m.secretKey, token) == Some(d) && FromDict(d) == r
  {
    match m.fernet.decrypt(m.secretKey, token)
    case None => None
    case Some(d) =>
      match FromDict(d)
      case None => None
      case Some(p) => if Expired(p, now) then None else Some(p)
  }

  /**
   * Round trip: a token validated under the key that generated it, no later
   * than its expiry, yields the payload it was built from, with `issued_at`
   * the generation time and `expires_at` that time plus the lifetime.
   */
  lemma {:induction false} GenerateValidateRoundTrip(
    m: TokenManager, clientId: string, endpoint: string, permissions: seq<string>,
    hours: Option<int>, now: int, nonce: Nonce, later: int)
    requires Sound(m.fernet)
    requires hours.None? || later <= now + hours.value * 3600
    ensures ValidateToken(m, GenerateToken(m, clientId, endpoint, permissions, hours, now, nonce), later)
         == Some(TokenPayload(clientId, endpoint, permissions, now,
                              if hours.Some? then Some(now + hours.value * 3600) else None))
  {
    DictRoundTrip(IssuedPayload(clientId, endpoint, permissions, hours, now));
  }

  /** A token generated without a lifetime is never rejected for age. */
  lemma NoExpiryNeverRejected(
    m: TokenManager, clientId: string, endpoint: string, permissions: seq<string>,
    now: int, nonce: Nonce, later: int)
    requires Sound(m.fernet)
    ensures ValidateToken(m, GenerateToken(m, clientId, endpoint, permissions, None, now, nonce), later).Some?
  {
    GenerateValidateRoundTrip(m, clientId, endpoint, permissions, None, now, nonce, later);
  }

  /** A token is rejected once the time is strictly past its expiry. */
  lemma {:induction false} ExpiredTokenRejected(
    m: TokenManager, clientId: string, endpoint: string, permissions: seq<string>,
    hours: int, now: int, nonce: Nonce, later: int)
    requires Sound(m.fernet)
    requires later > now + hours * 3600
    ensures ValidateToken(m, GenerateToken(m, clientId, endpoint, permissions, Some(hours), now, nonce), later) == None
  {
    DictRoundTrip(IssuedPayload(clientId, endpoint, permissions, Some(hours), now));
  }

  /** A token from a manager with a different secret is rejected. */
  lemma WrongKeyRejected(
    fernet: Cipher, sha256: string -> string, key: Key, otherKey: Key,
    clientId: string, endpoint: string, permissions: seq<string>,
    hours: Option<int>, now: int, nonce: Nonce, later: int)
    requires Sound(fernet) && key != otherKey
    ensures ValidateToken(TokenManager(otherKey, fernet, sha256),
                          GenerateToken(TokenManager(key, fernet, sha256), clientId, endpoint, permissions, hours, now, nonce),
                          later) == None
  {
  }

  /**
   * Two managers built from the same secret accept each other's tokens: a
   * token from one validates under the other, until its expiry, to the
   * payload it was issued with.
   */
  lemma {:induction false} SharedSecretInterop(
    fernet: Cipher, secret: Key, generated1: Key, generated2: Key, sha256: string -> string,
    clientId: string, endpoint: string, permissions: seq<string>, hours: Option<int>,
    now: int, nonce: Nonce, later: int)
    requires Sound(fernet)
    requires hours.None? || later <= now + hours.value * 3600
    ensures
      var m1 := NewTokenManager(Some(secret), generated1, fernet, sha256);
      var m2 := NewTokenManager(Some(secret), generated2, fernet, sha256);
      ValidateToken(m2, GenerateToken(m1, clientId, endpoint, permissions, hours, now, nonce), later)
        == Some(TokenPayload(clientId, endpoint, permissions, now,
                             if hours.Some? then Some(now + hours.value * 3600) else None))
  {
    DictRoundTrip(IssuedPayload(clientId, endpoint, permissions, hours, now));
  }

  /** The text `generate_client_id` hashes: the name, or "name:pid". */
  function ClientIdSource(programName: string, pid: Option<int>): string
  {
    if pid.Some? then programName + ":" + IntToDecimal(pid.value) else programName
  }

  /** `generate_client_id`: the first 16 hex characters of the SHA-256 digest. */
  function GenerateClientId(m: TokenManager, programName: string, pid: Option<int>): (id: string)
    ensures HexDigest(m.sha256) ==> |id| == 16 && forall i :: 0 <= i < 16 ==> id[i] in HexDigits
    ensures var digest := m.sha256(ClientIdSource(programName, pid));
      |id| <= 16 && |id| <= |digest| && id == digest[..|id|]
  {
    var digest := m.sha256(ClientIdSource(programName, pid));
    if |digest| >= 16 then digest[..16] else digest
  }

  /**
   * The name is not escaped before hashing, so a program whose name ends in
   * ":<pid>" gets the same id as that program name with that pid.
   */
  lemma ClientIdAmbiguity(m: TokenManager, name: string, pid: int)
    ensures GenerateClientId(m, name + ":" + IntToDecimal(pid), None) == GenerateClientId(m, name, Some(pid))
  {
  }
}
