/**
 * The permission-store behaviours exercised by tests/test_permissions.py,
 * run against a fresh store: each method builds its own store, so its
 * contract speaks only of what it returns.
 */
module StoreScenarios {
  import opened Wrappers
  import opened Permissions

  /** Granting twice for one pair leaves one row, holding the later token, grant type and permissions. */
  method UpsertReplacesRow(now: int) returns (rowCount: nat, found: Result<Option<Row>>)
    ensures rowCount == 1
    ensures found.Ok? && found.value.Some? && found.value.value.token == "token-2" &&
      found.value.value.grantType == Permanent && found.value.value.permissions == ["read", "write"]
  {
    var store := new PermissionStore(map[], []);
    store.Initialize();
    var _ := store.GrantPermission("test-client", "/test", ["read"], Temporary, "token-1", None, None, now);
    var _ := store.GrantPermission("test-client", "/test", ["read", "write"], Permanent, "token-2", None, None, now);
    rowCount := |store.rows|;
    found := store.CheckPermission("test-client", "/test", now);
  }

  /** A grant is found with its token; after revoking it, it is gone; an unknown pair is never found. */
  method GrantCheckRevoke(now: int) returns (token: Result<Option<string>>, afterRevoke: Result<Option<Row>>, unknown: Result<Option<Row>>)
    ensures token == Ok(Some("secret-token"))
    ensures afterRevoke == Ok(None) && unknown == Ok(None)
  {
    var store := new PermissionStore(map[], []);
    store.Initialize();
    var _ := store.GrantPermission("test-client", "/test", ["read"], Permanent, "secret-token", Some("Test App"), None, now);
    token := store.GetToken("test-client", "/test", now);
    var _ := store.RevokePermission("test-client", "/test", now);
    afterRevoke := store.CheckPermission("test-client", "/test", now);
    unknown := store.CheckPermission("nonexistent", "/unknown", now);
  }

  /**
   * Revoking all of one client's grants removes each of them, keeps another
   * client's grant, and logs a single "revoke_all" entry for endpoint "*".
   */
  method RevokeAllKeepsOthers(now: int) returns (found: seq<Result<Option<Row>>>, other: Result<Option<Row>>, last: AuditEntry)
    ensures found == [Ok(None), Ok(None), Ok(None)]
    ensures other.Ok? && other.value.Some? && other.value.value.token == "token-x"
    ensures last.endpoint == "*" && last.action == "revoke_all" && last.clientId == "test-client"
  {
    var store := new PermissionStore(map[], []);
    store.Initialize();
    var _ := store.GrantPermission("test-client", "/test/0", ["read"], Permanent, "token-0", None, None, now);
    var _ := store.GrantPermission("test-client", "/test/1", ["read"], Permanent, "token-1", None, None, now);
    var _ := store.GrantPermission("test-client", "/test/2", ["read"], Permanent, "token-2", None, None, now);
    var _ := store.GrantPermission("other-client", "/test/0", ["read"], Permanent, "token-x", None, None, now);
    var _ := store.RevokeAllForClient("test-client", now);
    last := store.audit[|store.audit| - 1];
    var f0 := store.CheckPermission("test-client", "/test/0", now);
    var f1 := store.CheckPermission("test-client", "/test/1", now);
    var f2 := store.CheckPermission("test-client", "/test/2", now);
    found := [f0, f1, f2];
    other := store.CheckPermission("other-client", "/test/0", now);
  }

  /** Three grants made one second apart are all listed, newest first. */
  method ListNewestFirst(now: int) returns (grants: Result<seq<Row>>)
    ensures grants.Ok? && |grants.value| == 3
    ensures grants.value[0].clientId == "client-2" && grants.value[2].clientId == "client-0"
  {
    var store := new PermissionStore(map[], []);
    store.Initialize();
    var _ := store.GrantPermission("client-0", "/test", ["read"], Permanent, "token-0", None, None, now);
    var _ := store.GrantPermission("client-1", "/test", ["read"], Permanent, "token-1", None, None, now + 1);
    var _ := store.GrantPermission("client-2", "/test", ["read"], Permanent, "token-2", None, None, now + 2);
    grants := store.ListAllGrants();
    ghost var rows := store.rows;
    ghost var r0 := rows[("client-0", "/test")];
    ghost var r1 := rows[("client-1", "/test")];
    ghost var r2 := rows[("client-2", "/test")];
    assert rows.Values == {r0, r1, r2} by {
      assert forall k :: k in rows <==> k in {("client-0", "/test"), ("client-1", "/test"), ("client-2", "/test")};
    }
    ListOfThree(grants.value, r0, r1, r2);
  }

  /** A listing holding each of three rows with distinct grant times once, newest first, is that order exactly. */
  lemma ListOfThree(s: seq<Row>, r0: Row, r1: Row, r2: Row)
    requires r0.grantedAt < r1.grantedAt < r2.grantedAt
    requires SortedByGrantedAtDesc(s)
    requires forall g :: multiset(s)[g] == if g in {r0, r1, r2} then 1 else 0
    ensures s == [r2, r1, r0]
  {
    assert multiset(s) == multiset{r0, r1, r2};
    assert |s| == 3 by {
      assert |multiset(s)| == |s|;
    }
    assert s == [s[0], s[1], s[2]];
    assert multiset{s[0], s[1], s[2]} == multiset{r0, r1, r2};
    forall i | 0 <= i < 3 ensures s[i] in {r0, r1, r2} {
      assert s[i] in multiset{s[0], s[1], s[2]};
    }
    assert r2 in multiset{s[0], s[1], s[2]} && r0 in multiset{s[0], s[1], s[2]};
    assert s[0] == r2 && s[2] == r0;
    assert s[1] == r1 by {
      assert r1 in multiset{s[0], s[1], s[2]};
    }
  }

  /** A TEMPORARY grant is found for five minutes; one second later it is deleted and a "revoke" is logged. */
  method TemporaryExpires(now: int) returns (within: Result<Option<Row>>, after: Result<Option<Row>>, rowCount: nat, last: AuditEntry)
    requires MinDatetime <= now + TemporarySeconds <= MaxDatetime
    ensures within.Ok? && within.value.Some?
    ensures after == Ok(None) && rowCount == 0
    ensures last == AuditEntry(now + TemporarySeconds + 1, "test-client", "/test", "revoke", map[])
  {
    var store := new PermissionStore(map[], []);
    store.Initialize();
    var _ := store.GrantPermission("test-client", "/test", ["read"], Temporary, "token", None, None, now);
    within := store.CheckPermission("test-client", "/test", now + TemporarySeconds);
    after := store.CheckPermission("test-client", "/test", now + TemporarySeconds + 1);
    rowCount := |store.rows|;
    last := store.audit[|store.audit| - 1];
  }

  /**
   * A TIMED grant of 100000000 hours, a value the grant duration setting
   * accepts, ends past the year 9999: at any time after 1970 the store
   * raises OverflowError and writes no row.
   */
  method OverlongTimedGrantRaises(now: int) returns (out: Outcome, rowCount: nat)
    requires 0 <= now
    ensures out == Failed(DateOverflow) && rowCount == 0
  {
    var store := new PermissionStore(map[], []);
    store.Initialize();
    out := store.GrantPermission("test-client", "/test", ["access"], Timed, "token", None, Some(100000000), now);
    rowCount := |store.rows|;
  }
}
