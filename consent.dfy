/**
 * The consent flow (src/localghost/consent/handler.py). The native dialog is
 * an oracle: its answer is the `answer` parameter of the calls that show it.
 * Granting stores the row and returns the very token it stored.
 */
module Consent {
  import opened Wrappers
  import opened Text
  import opened Crypto
  import opened Tokens
  import opened Permissions
  import opened Requests

  /** What the consent dialog answers; a timed-out dialog answers Denied. */
  datatype ConsentResult = Denied | AllowOnce | AllowSession | AllowTimed | AllowPermanent

  /** The settings the handler reads. */
  datatype Settings = Settings(tokenExpiryHours: int, consentTimeoutSeconds: int, defaultGrantDurationHours: int)

  /** The configuration defaults. */
  const DefaultSettings: Settings := Settings(24, 60, 8)

  /** What the dialog is shown. */
  datatype ConsentPrompt = ConsentPrompt(
    clientId: string,
    clientName: string,
    endpoint: string,
    permissions: seq<string>,
    timeoutSeconds: int)

  /** Every approval grants exactly this permission list. */
  const GrantedPermissions: seq<string> := ["access"]

  /** `grant_type_map.get(result, GrantType.TEMPORARY)`. */
  function GrantTypeFor(result: ConsentResult): GrantType {
    match result
    case AllowOnce => Temporary
    case AllowSession => Session
    case AllowTimed => Timed
    case AllowPermanent => Permanent
    case Denied => Temporary
  }

  /** The token lifetime in hours: the grant duration for TIMED, none for PERMANENT, the token expiry otherwise. */
  function TokenLifetime(g: GrantType, settings: Settings): Option<int> {
    if g == Timed then Some(settings.defaultGrantDurationHours)
    else if g == Permanent then None
    else Some(settings.tokenExpiryHours)
  }

  /**
   * An approval whose grant `grant_permission` cannot write: the row's expiry
   * leaves `datetime`'s range, so it raises OverflowError.
   */
  predicate ApprovalOverflows(answer: ConsentResult, settings: Settings, now: int) {
    answer != Denied && ExpiryOverflows(GrantTypeFor(answer), TokenLifetime(GrantTypeFor(answer), settings), now)
  }

  /**
   * Which approvals overflow: session and permanent grants never do; a
   * one-time grant does when five minutes on leaves the range; a timed grant
   * with a non-zero duration does when that many hours on leaves it.
   */
  lemma ApprovalOverflowCases(answer: ConsentResult, settings: Settings, now: int)
    ensures answer == Denied || answer == AllowSession || answer == AllowPermanent ==>
      !ApprovalOverflows(answer, settings, now)
    ensures answer == AllowOnce ==>
      (ApprovalOverflows(answer, settings, now) <==> !(MinDatetime <= now + TemporarySeconds <= MaxDatetime))
    ensures answer == AllowTimed && settings.defaultGrantDurationHours != 0 ==>
      (ApprovalOverflows(answer, settings, now) <==>
         !(MinDatetime <= now + settings.defaultGrantDurationHours * 3600 <= MaxDatetime))
    ensures answer == AllowTimed && settings.defaultGrantDurationHours == 0 ==> !ApprovalOverflows(answer, settings, now)
  {
  }

  /** The name `request_consent` shows: the client id up to its first "-", or all of it. */
  function ClientNameOf(clientId: string): (name: string)
    ensures '-' !in name && |name| <= |clientId| && name == clientId[..|name|]
    ensures '-' !in clientId ==> name == clientId
    ensures '-' in clientId ==> clientId[|name|] == '-'
  {
    if '-' in clientId then BeforeFirst(clientId, '-') else clientId
  }

  /** The name `__call__` shows: the X-Process-Name header, or "Unknown Application". */
  function HeaderClientName(req: Request): string {
    req.processName.GetOr("Unknown Application")
  }

  /**
   * How a consent call ends: None / {"approved": False}, the granted
   * permissions with the stored token, or the store's RuntimeError.
   */
  datatype ConsentReply = Declined | Approved(permissions: seq<string>, token: string) | Failure(error: string)

  /** A request queued for the tray. */
  datatype PendingRequest = PendingRequest(clientId: string, clientName: string, endpoint: string, permissions: seq<string>)

  /** The pending-request key `f"{client_id}:{endpoint}"`. */
  function PendingKey(clientId: string, endpoint: string): string {
    clientId + ":" + endpoint
  }

  /** For client ids without ':' the key determines the pair. */
  lemma PendingKeyInjective(c1: string, e1: string, c2: string, e2: string)
    requires ':' !in c1 && ':' !in c2
    requires PendingKey(c1, e1) == PendingKey(c2, e2)
    ensures c1 == c2 && e1 == e2
  {
    var k := PendingKey(c1, e1);
    assert k[..|c1|] == c1 && k[|c1|] == ':';
    assert PendingKey(c2, e2)[..|c2|] == c2 && PendingKey(c2, e2)[|c2|] == ':';
    assert c1 == k[..|c1|] == c2;
    assert e1 == k[|c1| + 1..] == e2;
  }

  /** A client id containing ':' can share its key with another pair. */
  lemma PendingKeyCollision()
    ensures PendingKey("app:/a", "/b") == PendingKey("app", "/a:/b")
  {
  }

  /** The keys of `s` other than `k`, in order. */
  function Without(s: seq<string>, k: string): (r: seq<string>)
    ensures forall x :: x in r <==> x in s && x != k
    ensures Distinct(s) ==> Distinct(r)
  {
    if s == [] then []
    else if s[0] == k then Without(s[1..], k)
    else
      var rest := Without(s[1..], k);
      assert Distinct(s) ==> s[0] !in s[1..] && Distinct(s[1..]);
      [s[0]] + rest
  }

  predicate Distinct(s: seq<string>) {
    forall i, j :: 0 <= i < j < |s| ==> s[i] != s[j]
  }

  /** The dictionary's values in its key order: `list(d.values())`. */
  function ValuesInOrder(pending: map<string, PendingRequest>, order: seq<string>): (r: seq<PendingRequest>)
    requires forall k :: k in order ==> k in pending
    ensures |r| == |order| && forall i :: 0 <= i < |order| ==> r[i] == pending[order[i]]
  {
    if order == [] then [] else [pending[order[0]]] + ValuesInOrder(pending, order[1..])
  }

  /** Which settings an approval's store row and token take their expiry from. */
  lemma ApprovalExpiries(answer: ConsentResult, s: Settings, now: int)
    requires answer != Denied
    ensures
      var g := GrantTypeFor(answer);
      var rowExpiry := GrantExpiry(g, TokenLifetime(g, s), now);
      var tokenExpiry := IssuedPayload("", "", GrantedPermissions, TokenLifetime(g, s), now).expiresAt;
      && (answer == AllowOnce ==> rowExpiry == Some(now + TemporarySeconds) && tokenExpiry == Some(now + s.tokenExpiryHours * 3600))
      && (answer == AllowSession ==> rowExpiry == None && tokenExpiry == Some(now + s.tokenExpiryHours * 3600))
      && (answer == AllowTimed && s.defaultGrantDurationHours != 0 ==>
            rowExpiry == tokenExpiry == Some(now + s.defaultGrantDurationHours * 3600))
      && (answer == AllowTimed && s.defaultGrantDurationHours == 0 ==> rowExpiry == None && tokenExpiry == Some(now))
      && (answer == AllowPermanent ==> rowExpiry == None && tokenExpiry == None)
  {
  }

  /**
   * The token handed out on approval validates, under the handler's key and
   * before its expiry, to the approved client, endpoint and ["access"].
   */
  lemma {:induction false} ApprovedTokenValidates(
    tokens: TokenManager, settings: Settings, clientId: string, endpoint: string,
    answer: ConsentResult, now: int, nonce: Nonce, later: int)
    requires Sound(tokens.fernet) && answer != Denied
    requires var life := TokenLifetime(GrantTypeFor(answer), settings); life.None? || later <= now + life.value * 3600
    ensures
      var life := TokenLifetime(GrantTypeFor(answer), settings);
      var p := ValidateToken(tokens, GenerateToken(tokens, clientId, endpoint, GrantedPermissions, life, now, nonce), later);
      p.Some? && p.value.clientId == clientId && p.value.endpoint == endpoint && p.value.permissions == GrantedPermissions
  {
    var life := TokenLifetime(GrantTypeFor(answer), settings);
    GenerateValidateRoundTrip(tokens, clientId, endpoint, GrantedPermissions, life, now, nonce, later);
  }

  class ConsentHandler {
    const settings: Settings
    const tokens: TokenManager
    const store: PermissionStore
    /** `_pending_requests`, with `order` holding its keys in insertion order. */
    var pending: map<string, PendingRequest>
    var order: seq<string>
    /** The prompts shown so far, oldest first. */
    ghost var shown: seq<ConsentPrompt>

    ghost predicate Valid()
      reads this
    {
      Distinct(order) && (forall k :: k in order <==> k in pending)
    }

    constructor (settings: Settings, tokens: TokenManager, store: PermissionStore)
      ensures Valid()
      ensures this.settings == settings && this.store == store && this.tokens == tokens
      ensures pending == map[] && order == [] && shown == []
    {
      this.settings := settings;
      this.tokens := tokens;
      this.store := store;
      pending := map[];
      order := [];
      shown := [];
    }

    /**
     * The body shared by `__call__` and `request_consent`: show the prompt;
     * on any answer but Denied, map it to a grant type and a token
     * lifetime, generate the token and persist the grant with it.
     */
    method Settle(clientId: string, clientName: string, endpoint: string, now: int, nonce: Nonce, answer: ConsentResult)
      returns (reply: ConsentReply)
      requires store.Valid()
      modifies store, this`shown
      ensures store.Valid() && store.connected == old(store.connected)
      ensures shown == old(shown) + [ConsentPrompt(clientId, clientName, endpoint, GrantedPermissions, settings.consentTimeoutSeconds)]
      ensures answer == Denied ==> reply == Declined
      ensures answer != Denied && !old(store.connected) ==> reply == Failure(NotInitialized)
      ensures old(store.connected) && ApprovalOverflows(answer, settings, now) ==> reply == Failure(DateOverflow)
      ensures answer == Denied || !old(store.connected) || ApprovalOverflows(answer, settings, now) ==>
        store.rows == old(store.rows) && store.audit == old(store.audit)
      ensures answer != Denied && old(store.connected) && !ApprovalOverflows(answer, settings, now) ==>
        var g := GrantTypeFor(answer);
        var life := TokenLifetime(g, settings);
        var token := GenerateToken(tokens, clientId, endpoint, GrantedPermissions, life, now, nonce);
        && reply == Approved(GrantedPermissions, token)
        && store.rows == old(store.rows)[(clientId, endpoint) :=
             NewRow(clientId, endpoint, GrantedPermissions, g, token, Some(clientName), life, now)]
        && store.audit == old(store.audit) + [GrantEntry(clientId, endpoint, g, now)]
    {
      shown := shown + [ConsentPrompt(clientId, clientName, endpoint, GrantedPermissions, settings.consentTimeoutSeconds)];
      if answer == Denied {
        return Declined;
      }
      var g := GrantTypeFor(answer);
      var life := TokenLifetime(g, settings);
      var token := GenerateToken(tokens, clientId, endpoint, GrantedPermissions, life, now, nonce);
      var stored := store.GrantPermission(clientId, endpoint, GrantedPermissions, g, token, Some(clientName), life, now);
      if stored.Failed? {
        return Failure(stored.error);
      }
      reply := Approved(GrantedPermissions, token);
    }

    /** `__call__`: the consent flow for a request, naming the client by its X-Process-Name header. */
    method Call(clientId: string, endpoint: string, req: Request, now: int, nonce: Nonce, answer: ConsentResult)
      returns (reply: ConsentReply)
      requires store.Valid()
      modifies store, this`shown
      ensures store.Valid() && store.connected == old(store.connected)
      ensures shown == old(shown) + [ConsentPrompt(clientId, HeaderClientName(req), endpoint, GrantedPermissions, settings.consentTimeoutSeconds)]
      ensures reply.Declined? <==> answer == Denied
      ensures reply.Failure? <==> answer != Denied && (!old(store.connected) || ApprovalOverflows(answer, settings, now))
      ensures reply.Failure? ==> reply.error == if old(store.connected) then DateOverflow else NotInitialized
      ensures answer == Denied || !old(store.connected) || ApprovalOverflows(answer, settings, now) ==>
        store.rows == old(store.rows) && store.audit == old(store.audit)
      ensures reply.Approved? ==>
        var g := GrantTypeFor(answer);
        && reply.permissions == GrantedPermissions
        && reply.token == GenerateToken(tokens, clientId, endpoint, GrantedPermissions, TokenLifetime(g, settings), now, nonce)
        && store.rows == old(store.rows)[(clientId, endpoint) :=
             NewRow(clientId, endpoint, GrantedPermissions, g, reply.token, Some(HeaderClientName(req)), TokenLifetime(g, settings), now)]
        && store.audit == old(store.audit) + [GrantEntry(clientId, endpoint, g, now)]
    {
      reply := Settle(clientId, HeaderClientName(req), endpoint, now, nonce, answer);
    }

    /** `request_consent`: the same flow, naming the client after its id. */
    method RequestConsent(clientId: string, endpoint: string, now: int, nonce: Nonce, answer: ConsentResult)
      returns (reply: ConsentReply)
      requires store.Valid()
      modifies store, this`shown
      ensures store.Valid() && store.connected == old(store.connected)
      ensures shown == old(shown) + [ConsentPrompt(clientId, ClientNameOf(clientId), endpoint, GrantedPermissions, settings.consentTimeoutSeconds)]
      ensures reply.Declined? <==> answer == Denied
      ensures reply.Failure? <==> answer != Denied && (!old(store.connected) || ApprovalOverflows(answer, settings, now))
      ensures reply.Failure? ==> reply.error == if old(store.connected) then DateOverflow else NotInitialized
      ensures answer == Denied || !old(store.connected) || ApprovalOverflows(answer, settings, now) ==>
        store.rows == old(store.rows) && store.audit == old(store.audit)
      ensures reply.Approved? ==>
        var g := GrantTypeFor(answer);
        && reply.permissions == GrantedPermissions
        && reply.token == GenerateToken(tokens, clientId, endpoint, GrantedPermissions, TokenLifetime(g, settings), now, nonce)
        && store.rows == old(store.rows)[(clientId, endpoint) :=
             NewRow(clientId, endpoint, GrantedPermissions, g, reply.token, Some(ClientNameOf(clientId)), TokenLifetime(g, settings), now)]
        && store.audit == old(store.audit) + [GrantEntry(clientId, endpoint, g, now)]
    {
      reply := Settle(clientId, ClientNameOf(clientId), endpoint, now, nonce, answer);
    }

    /** `request_consent_via_tray`: queue (or overwrite) the request under its key. */
    method RequestConsentViaTray(clientId: string, clientName: string, endpoint: string, permissions: seq<string>)
      requires Valid()
      modifies this`pending, this`order
      ensures Valid()
      ensures pending == old(pending)[PendingKey(clientId, endpoint) := PendingRequest(clientId, clientName, endpoint, permissions)]
      ensures order == if PendingKey(clientId, endpoint) in old(pending) then old(order) else old(order) + [PendingKey(clientId, endpoint)]
    {
      var key := PendingKey(clientId, endpoint);
      if key !in pending {
        order := order + [key];
      }
      pending := pending[key := PendingRequest(clientId, clientName, endpoint, permissions)];
    }

    /** `get_pending_requests`: the queued requests, oldest key first. */
    function GetPendingRequests(): (r: seq<PendingRequest>)
      requires Valid()
      reads this
      ensures |r| == |pending| && forall q :: q in r <==> q in pending.Values
    {
      var r := ValuesInOrder(pending, order);
      assert forall q :: q in pending.Values ==> q in r by {
        forall q | q in pending.Values ensures q in r {
          var k :| k in pending && pending[k] == q;
          var i :| 0 <= i < |order| && order[i] == k;
          assert r[i] == q;
        }
      }
      DistinctKeysCount(pending, order);
      r
    }

    /** `clear_pending`: drop the request under the key, if there is one. */
    method ClearPending(clientId: string, endpoint: string)
      requires Valid()
      modifies this`pending, this`order
      ensures Valid()
      ensures pending == old(pending) - {PendingKey(clientId, endpoint)}
      ensures order == Without(old(order), PendingKey(clientId, endpoint))
    {
      var key := PendingKey(clientId, endpoint);
      pending := pending - {key};
      order := Without(order, key);
    }
  }

  /** A duplicate-free key sequence covering a map's domain is as long as the map. */
  lemma {:induction false} DistinctKeysCount(m: map<string, PendingRequest>, order: seq<string>)
    requires Distinct(order) && forall k :: k in order <==> k in m
    ensures |order| == |m|
  {
    if order != [] {
      var m' := m - {order[0]};
      assert Distinct(order[1..]);
      forall k ensures k in order[1..] <==> k in m' {
        if k in order[1..] {
          var j :| 1 <= j < |order| && order[j] == k;
          assert order[0] != order[j];
        }
        if k in m' {
          var j :| 0 <= j < |order| && order[j] == k;
          assert j != 0;
          assert order[1..][j - 1] == k;
        }
      }
      DistinctKeysCount(m', order[1..]);
    }
  }
}
