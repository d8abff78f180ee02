/**
 * Permission storage (src/localghost/auth/permissions.py).
 * The SQLite `permissions` table, unique on (client_id, endpoint), is a map
 * from that pair to its row; the `audit_log` table is a sequence that is only
 * ever appended to. Clock readings are the `now` parameter, in seconds.
 */
module Permissions {
  import opened Wrappers

  datatype GrantType = Temporary | Session | Timed | Permanent

  /** The text stored in the `grant_type` column and the audit details. */
  function GrantTypeValue(g: GrantType): string
  {
    match g
    case Temporary => "temporary"
    case Session => "session"
    case Timed => "timed"
    case Permanent => "permanent"
  }

  /** Distinct grant types are stored as distinct texts, so the column determines the type. */
  lemma GrantTypeValueInjective(g: GrantType, h: GrantType)
    requires GrantTypeValue(g) == GrantTypeValue(h)
    ensures g == h
  {
  }

  /** A row of the permissions table; the autoincrement id is not modelled. */
  datatype Row = Row(
    clientId: string,
    clientName: Option<string>,
    endpoint: string,
    permissions: seq<string>,
    grantType: GrantType,
    grantedAt: int,
    expiresAt: Option<int>,
    token: string)

  /** A row of the audit log; `details` is the JSON object of string fields. */
  datatype AuditEntry = AuditEntry(
    timestamp: int,
    clientId: string,
    endpoint: string,
    action: string,
    details: map<string, string>)

  type PairKey = (string, string)

  function KeyOf(r: Row): PairKey {
    (r.clientId, r.endpoint)
  }

  const NotInitialized: string := "Database not initialized"

  /** A temporary grant lasts five minutes. */
  const TemporarySeconds: int := 5 * 60

  /**
   * The expiry a new grant gets: five minutes for TEMPORARY, the given
   * number of hours for TIMED when that number is present and non-zero,
   * and none otherwise.
   */
  function GrantExpiry(grantType: GrantType, durationHours: Option<int>, now: int): Option<int>
  {
    if grantType == Timed && durationHours.Some? && durationHours.value != 0 then
      Some(now + durationHours.value * 3600)
    else if grantType == Temporary then
      Some(now + TemporarySeconds)
    else
      None
  }

  /**
   * The range of Python's `datetime` in Unix seconds, from 0001-01-01T00:00:00
   * to 9999-12-31T23:59:59 UTC; an addition that leaves it raises
   * OverflowError.
   */
  const MinDatetime: int := -62135596800
  const MaxDatetime: int := 253402300799
  const DateOverflow: string := "date value out of range"

  /** The expiry `grant_permission` computes lies outside `datetime`'s range, so it raises before writing. */
  predicate ExpiryOverflows(grantType: GrantType, durationHours: Option<int>, now: int) {
    var e := GrantExpiry(grantType, durationHours, now);
    e.Some? && !(MinDatetime <= e.value <= MaxDatetime)
  }

  /** The row `grant_permission` writes at time `now`. */
  function NewRow(clientId: string, endpoint: string, permissions: seq<string>, grantType: GrantType,
                  token: string, clientName: Option<string>, durationHours: Option<int>, now: int): (r: Row)
    ensures KeyOf(r) == (clientId, endpoint) && r.token == token && r.grantType == grantType
  {
    Row(clientId, clientName, endpoint, permissions, grantType, now, GrantExpiry(grantType, durationHours, now), token)
  }

  /** A row is expired once the time is strictly after its expiry. */
  predicate RowExpired(r: Row, now: int) {
    r.expiresAt.Some? && now > r.expiresAt.value
  }

  /** What `check_permission` returns for a connected store. */
  function LiveRow(rows: map<PairKey, Row>, clientId: string, endpoint: string, now: int): (r: Option<Row>)
    ensures r.Some? <==> (clientId, endpoint) in rows && !RowExpired(rows[(clientId, endpoint)], now)
    ensures r.Some? ==> r.value == rows[(clientId, endpoint)]
  {
    if (clientId, endpoint) in rows && !RowExpired(rows[(clientId, endpoint)], now) then
      Some(rows[(clientId, endpoint)])
    else
      None
  }

  /**
   * How long a freshly written grant stays live: five minutes for TEMPORARY,
   * the given hours for TIMED with a non-zero duration, and for ever
   * otherwise (SESSION, PERMANENT, and TIMED without a duration).
   */
  lemma GrantLifetime(rows: map<PairKey, Row>, clientId: string, endpoint: string, permissions: seq<string>,
                      grantType: GrantType, token: string, clientName: Option<string>,
                      durationHours: Option<int>, grantedAt: int, now: int)
    ensures
      var live := LiveRow(rows[(clientId, endpoint) :=
        NewRow(clientId, endpoint, permissions, grantType, token, clientName, durationHours, grantedAt)],
        clientId, endpoint, now).Some?;
      && (grantType == Temporary ==> (live <==> now <= grantedAt + TemporarySeconds))
      && (grantType == Timed && durationHours.Some? && durationHours.value != 0 ==>
            (live <==> now <= grantedAt + durationHours.value * 3600))
      && ((grantType == Session || grantType == Permanent ||
           (grantType == Timed && (durationHours.None? || durationHours.value == 0))) ==> live)
  {
  }

  /** The table after a lookup of the pair at time `now`: an expired row is deleted. */
  function AfterLookup(rows: map<PairKey, Row>, clientId: string, endpoint: string, now: int): (r: map<PairKey, Row>)
    ensures LiveRow(rows, clientId, endpoint, now).Some? ==> r == rows
    ensures LiveRow(rows, clientId, endpoint, now).None? ==> r == rows - {(clientId, endpoint)}
  {
    if (clientId, endpoint) in rows && RowExpired(rows[(clientId, endpoint)], now) then rows - {(clientId, endpoint)}
    else rows
  }

  /** The audit entries a lookup of the pair at time `now` appends: one "revoke" for an expired row. */
  function LookupAudit(rows: map<PairKey, Row>, clientId: string, endpoint: string, now: int): (r: seq<AuditEntry>)
    ensures |r| <= 1
    ensures r != [] <==> (clientId, endpoint) in rows && RowExpired(rows[(clientId, endpoint)], now)
    ensures r != [] ==> r == [RevokeEntry(clientId, endpoint, now)]
  {
    if (clientId, endpoint) in rows && RowExpired(rows[(clientId, endpoint)], now) then [RevokeEntry(clientId, endpoint, now)]
    else []
  }

  /** Every row is stored under its own (client_id, endpoint): the table's UNIQUE constraint. */
  ghost predicate KeyedByPair(rows: map<PairKey, Row>) {
    forall k :: k in rows ==> KeyOf(rows[k]) == k
  }

  /** The table after `DELETE ... WHERE client_id = ?`. */
  function WithoutClient(rows: map<PairKey, Row>, clientId: string): (r: map<PairKey, Row>)
    ensures forall k :: k in r <==> k in rows && k.0 != clientId
    ensures forall k :: k in r ==> r[k] == rows[k]
  {
    map k | k in rows && k.0 != clientId :: rows[k]
  }

  function GrantEntry(clientId: string, endpoint: string, grantType: GrantType, now: int): AuditEntry {
    AuditEntry(now, clientId, endpoint, "grant", map["grant_type" := GrantTypeValue(grantType)])
  }

  function RevokeEntry(clientId: string, endpoint: string, now: int): AuditEntry {
    AuditEntry(now, clientId, endpoint, "revoke", map[])
  }

  function RevokeAllEntry(clientId: string, now: int): AuditEntry {
    AuditEntry(now, clientId, "*", "revoke_all", map[])
  }

  predicate SortedByGrantedAtDesc(s: seq<Row>) {
    forall i, j :: 0 <= i < j < |s| ==> s[i].grantedAt >= s[j].grantedAt
  }

  /** Inserts a row into a listing ordered by `granted_at`, newest first. */
  function InsertByGrantedAt(s: seq<Row>, x: Row): (r: seq<Row>)
    ensures |r| == |s| + 1
    ensures multiset(r) == multiset(s) + multiset{x}
  {
    if s == [] || x.grantedAt >= s[0].grantedAt then [x] + s
    else
      assert s == [s[0]] + s[1..];
      [s[0]] + InsertByGrantedAt(s[1..], x)
  }

  /** Inserting into a listing ordered newest first keeps it ordered. */
  lemma {:induction false} InsertKeepsOrder(s: seq<Row>, x: Row)
    requires SortedByGrantedAtDesc(s)
    ensures SortedByGrantedAtDesc(InsertByGrantedAt(s, x))
  {
    if s == [] || x.grantedAt >= s[0].grantedAt {
    } else {
      var rest := InsertByGrantedAt(s[1..], x);
      InsertKeepsOrder(s[1..], x);
      forall j | 0 <= j < |rest| ensures s[0].grantedAt >= rest[j].grantedAt {
        assert rest[j] in multiset(s[1..]) + multiset{x};
      }
    }
  }

  lemma ValueKeyedByItself(rows: map<PairKey, Row>, g: Row)
    requires KeyedByPair(rows) && g in rows.Values
    ensures KeyOf(g) in rows && rows[KeyOf(g)] == g
  {
    var k :| k in rows && rows[k] == g;
  }

  class PermissionStore {
    /** Whether `initialize` has opened the database (and `close` has not closed it). */
    var connected: bool
    var rows: map<PairKey, Row>
    var audit: seq<AuditEntry>

    ghost predicate Valid()
      reads this
    {
      KeyedByPair(rows)
    }

    /**
     * `PermissionStore(db_path)`: no connection yet. The file at `db_path`
     * persists across runs, so the tables hold whatever earlier runs left
     * there (`rows0`, `audit0`), or nothing for a new file.
     */
    constructor (rows0: map<PairKey, Row>, audit0: seq<AuditEntry>)
      requires KeyedByPair(rows0)
      ensures Valid() && !connected && rows == rows0 && audit == audit0
    {
      connected := false;
      rows := rows0;
      audit := audit0;
    }

    /** `initialize`: connects; CREATE TABLE IF NOT EXISTS keeps what is stored. */
    method Initialize()
      requires Valid()
      modifies this
      ensures Valid() && connected && rows == old(rows) && audit == old(audit)
    {
      connected := true;
    }

    /** `close`: the connection goes away, the stored tables stay. */
    method Close()
      requires Valid()
      modifies this
      ensures Valid() && !connected && rows == old(rows) && audit == old(audit)
    {
      connected := false;
    }

    /** `_log_action`: appends one audit entry, or silently does nothing without a connection. */
    method LogAction(clientId: string, endpoint: string, action: string, details: map<string, string>, now: int)
      modifies this`audit
      ensures audit == if connected then old(audit) + [AuditEntry(now, clientId, endpoint, action, details)] else old(audit)
    {
      if !connected {
        return;
      }
      audit := audit + [AuditEntry(now, clientId, endpoint, action, details)];
    }

    /**
     * `grant_permission`: INSERT OR REPLACE the row for (client_id, endpoint)
     * and log a "grant" entry; raises without a connection, and raises
     * OverflowError, writing nothing, when the expiry leaves `datetime`'s range.
     */
    method GrantPermission(clientId: string, endpoint: string, permissions: seq<string>, grantType: GrantType,
                           token: string, clientName: Option<string>, durationHours: Option<int>, now: int)
      returns (out: Outcome)
      requires Valid()
      modifies this
      ensures Valid() && connected == old(connected)
      ensures out == if !old(connected) then Failed(NotInitialized)
                     else if ExpiryOverflows(grantType, durationHours, now) then Failed(DateOverflow)
                     else Done
      ensures out.Done? ==>
        && rows == old(rows)[(clientId, endpoint) := NewRow(clientId, endpoint, permissions, grantType, token, clientName, durationHours, now)]
        && audit == old(audit) + [GrantEntry(clientId, endpoint, grantType, now)]
      ensures out.Failed? ==> rows == old(rows) && audit == old(audit)
    {
      if !connected {
        return Failed(NotInitialized);
      }
      if ExpiryOverflows(grantType, durationHours, now) {
        return Failed(DateOverflow);
      }
      rows := rows[(clientId, endpoint) := NewRow(clientId, endpoint, permissions, grantType, token, clientName, durationHours, now)];
      LogAction(clientId, endpoint, "grant", map["grant_type" := GrantTypeValue(grantType)], now);
      out := Done;
    }

    /**
     * `revoke_permission`: deletes the row for the pair, if any, and logs a
     * "revoke" entry either way; raises without a connection.
     */
    method RevokePermission(clientId: string, endpoint: string, now: int) returns (out: Outcome)
      requires Valid()
      modifies this
      ensures Valid() && connected == old(connected)
      ensures out == if old(connected) then Done else Failed(NotInitialized)
      ensures old(connected) ==>
        rows == old(rows) - {(clientId, endpoint)} && audit == old(audit) + [RevokeEntry(clientId, endpoint, now)]
      ensures !old(connected) ==> rows == old(rows) && audit == old(audit)
    {
      if !connected {
        return Failed(NotInitialized);
      }
      rows := rows - {(clientId, endpoint)};
      LogAction(clientId, endpoint, "revoke", map[], now);
      out := Done;
    }

    /**
     * `check_permission`: the stored row for the pair, or None when there is
     * none; a row whose expiry has passed is revoked (deleted and logged)
     * and reported as None.
     */
    method CheckPermission(clientId: string, endpoint: string, now: int) returns (r: Result<Option<Row>>)
      requires Valid()
      modifies this
      ensures Valid() && connected == old(connected)
      ensures r == if old(connected) then Ok(LiveRow(old(rows), clientId, endpoint, now)) else Raised(NotInitialized)
      ensures old(connected) && (clientId, endpoint) in old(rows) && RowExpired(old(rows)[(clientId, endpoint)], now) ==>
        rows == old(rows) - {(clientId, endpoint)} && audit == old(audit) + [RevokeEntry(clientId, endpoint, now)]
      ensures !(old(connected) && (clientId, endpoint) in old(rows) && RowExpired(old(rows)[(clientId, endpoint)], now)) ==>
        rows == old(rows) && audit == old(audit)
    {
      if !connected {
        return Raised(NotInitialized);
      }
      if (clientId, endpoint) !in rows {
        return Ok(None);
      }
      var row := rows[(clientId, endpoint)];
      if row.expiresAt.Some? && now > row.expiresAt.value {
        var _ := RevokePermission(clientId, endpoint, now);
        return Ok(None);
      }
      r := Ok(Some(row));
    }

    /** `get_token`: the token of the row `check_permission` returns, if any. */
    method GetToken(clientId: string, endpoint: string, now: int) returns (r: Result<Option<string>>)
      requires Valid()
      modifies this
      ensures Valid() && connected == old(connected)
      ensures !old(connected) ==> r == Raised(NotInitialized)
      ensures old(connected) ==>
        var live := LiveRow(old(rows), clientId, endpoint, now);
        r == Ok(if live.Some? then Some(live.value.token) else None)
      ensures old(connected) && (clientId, endpoint) in old(rows) && RowExpired(old(rows)[(clientId, endpoint)], now) ==>
        rows == old(rows) - {(clientId, endpoint)} && audit == old(audit) + [RevokeEntry(clientId, endpoint, now)]
      ensures !(old(connected) && (clientId, endpoint) in old(rows) && RowExpired(old(rows)[(clientId, endpoint)], now)) ==>
        rows == old(rows) && audit == old(audit)
    {
      var perm := CheckPermission(clientId, endpoint, now);
      match perm
      case Raised(e) => r := Raised(e);
      case Ok(row) => r := Ok(if row.Some? then Some(row.value.token) else None);
    }

    /**
     * `revoke_all_for_client`: deletes every row of the client and logs one
     * "revoke_all" entry with endpoint "*"; raises without a connection.
     */
    method RevokeAllForClient(clientId: string, now: int) returns (out: Outcome)
      requires Valid()
      modifies this
      ensures Valid() && connected == old(connected)
      ensures out == if old(connected) then Done else Failed(NotInitialized)
      ensures old(connected) ==>
        rows == WithoutClient(old(rows), clientId) && audit == old(audit) + [RevokeAllEntry(clientId, now)]
      ensures !old(connected) ==> rows == old(rows) && audit == old(audit)
    {
      if !connected {
        return Failed(NotInitialized);
      }
      rows := WithoutClient(rows, clientId);
      LogAction(clientId, "*", "revoke_all", map[], now);
      out := Done;
    }

    /**
     * `list_all_grants`: every stored row exactly once, newest `granted_at`
     * first; raises without a connection. Rows with equal `granted_at` come
     * in no particular order, as with SQLite's ORDER BY.
     */
    method ListAllGrants() returns (r: Result<seq<Row>>)
      requires Valid()
      ensures !connected ==> r == Raised(NotInitialized)
      ensures connected ==> r.Ok? && SortedByGrantedAtDesc(r.value)
      ensures connected ==> forall g :: multiset(r.value)[g] == if g in rows.Values then 1 else 0
    {
      if !connected {
        return Raised(NotInitialized);
      }
      var remaining := rows.Keys;
      var listed: seq<Row> := [];
      while remaining != {}
        invariant remaining <= rows.Keys
        invariant SortedByGrantedAtDesc(listed)
        invariant forall g :: multiset(listed)[g] == if g in rows.Values && KeyOf(g) !in remaining then 1 else 0
        decreases remaining
      {
        var k :| k in remaining;
        var x := rows[k];
        forall g | g in rows.Values ensures KeyOf(g) in rows && rows[KeyOf(g)] == g {
          ValueKeyedByItself(rows, g);
        }
        InsertKeepsOrder(listed, x);
        listed := InsertByGrantedAt(listed, x);
        remaining := remaining - {k};
      }
      r := Ok(listed);
    }
  }
}
