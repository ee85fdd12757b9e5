/** The mta-backend plugin's database: the `entity-application-mapping`
    table (catalog entity -> hub application) and the `oauth-mapping` table
    (portal user -> refresh token), and the operations of
    DataBaseEntityApplicationStorage over them. A table is the sequence of
    its rows in insertion order; `.where(...).first()` is the first row that
    matches. */
module Storage {
  import opened Wrappers

  /** A row of `entity-application-mapping`. */
  datatype EntityRow = EntityRow(entityUID: string, mtaApplication: string)

  /** A row of `oauth-mapping`. */
  datatype OAuthRow = OAuthRow(backstageID: string, mtaOAuthRefreshToken: string)

  function EntityUID(row: EntityRow): string { row.entityUID }

  function BackstageID(row: OAuthRow): string { row.backstageID }

  // ---------------------------------------------------------------------
  // Queries over a table
  // ---------------------------------------------------------------------

  /** Index of the first row whose `key` column equals `v`, or `|rows|` if
      there is none: the row `.where({column: v}).first()` yields. */
  function FirstWhere<R>(rows: seq<R>, key: R -> string, v: string): (k: nat)
    ensures k <= |rows|
    ensures forall j :: 0 <= j < k ==> key(rows[j]) != v
    ensures k < |rows| ==> key(rows[k]) == v
  {
    if rows == [] then 0
    else if key(rows[0]) == v then 0
    else 1 + FirstWhere(rows[1..], key, v)
  }

  /** What the application lookup yields for `e`: the `mtaApplication` of the
      first mapping row for `e`, if any. */
  function FirstApplication(rows: seq<EntityRow>, e: string): Option<string>
  {
    var k := FirstWhere(rows, EntityUID, e);
    if k < |rows| then Some(rows[k].mtaApplication) else None
  }

  /** What `getRefreshTokenForUser(u)` returns: nothing for the empty id,
      otherwise the token of the first row for `u`, if any. */
  function StoredToken(rows: seq<OAuthRow>, u: string): Option<string>
  {
    if u == "" then None
    else
      var k := FirstWhere(rows, BackstageID, u);
      if k < |rows| then Some(rows[k].mtaOAuthRefreshToken) else None
  }

  /** The table after `update({mtaOAuthRefreshToken: t}).where('backstageID', u)`. */
  function ReplaceTokens(rows: seq<OAuthRow>, u: string, t: string): (r: seq<OAuthRow>)
    ensures |r| == |rows|
    ensures forall i :: 0 <= i < |rows| ==>
      r[i] == if rows[i].backstageID == u then OAuthRow(u, t) else rows[i]
  {
    if rows == [] then []
    else
      var head := if rows[0].backstageID == u then OAuthRow(u, t) else rows[0];
      [head] + ReplaceTokens(rows[1..], u, t)
  }

  /** The number of rows for `u`: what that update reports as changed. */
  function RowsFor(rows: seq<OAuthRow>, u: string): (n: nat)
    ensures n <= |rows|
    ensures n == 0 <==> forall i :: 0 <= i < |rows| ==> rows[i].backstageID != u
  {
    if rows == [] then 0
    else (if rows[0].backstageID == u then 1 else 0) + RowsFor(rows[1..], u)
  }

  /** The `backstageID` column, row by row. */
  function Ids(rows: seq<OAuthRow>): seq<string>
  {
    seq(|rows|, i requires 0 <= i < |rows| => rows[i].backstageID)
  }

  /** The update's changed-row count is how often `u` occurs in the id
      column, so `data === 1` holds exactly when `u` has one row. */
  lemma {:induction false} RowsForCountsRows(rows: seq<OAuthRow>, u: string)
    ensures RowsFor(rows, u) == multiset(Ids(rows))[u]
  {
    if rows != [] {
      RowsForCountsRows(rows[1..], u);
      assert Ids(rows) == [rows[0].backstageID] + Ids(rows[1..]);
    }
  }

  /** The `oauth-mapping` table after `saveRefreshTokenForUser(u, t)`: unchanged
      for an empty id or token; every row for `u` rewritten when a truthy token
      different from `t` is stored; otherwise one row appended. */
  function SavedTokenRows(rows: seq<OAuthRow>, u: string, t: string): seq<OAuthRow>
  {
    if u == "" || t == "" then rows
    else
      var stored := StoredToken(rows, u);
      if Truthy(stored) && stored.value != t then ReplaceTokens(rows, u, t)
      else rows + [OAuthRow(u, t)]
  }

  /** The table invariant this class keeps: no row has an empty id or token,
      and all rows for one user carry the same token. */
  ghost predicate TokensConsistent(rows: seq<OAuthRow>)
  {
    && (forall i :: 0 <= i < |rows| ==>
          rows[i].backstageID != "" && rows[i].mtaOAuthRefreshToken != "")
    && (forall i, j ::
          0 <= i < |rows| && 0 <= j < |rows| && rows[i].backstageID == rows[j].backstageID
          ==> rows[i].mtaOAuthRefreshToken == rows[j].mtaOAuthRefreshToken)
  }

  // ---------------------------------------------------------------------
  // Lemmas about the queries
  // ---------------------------------------------------------------------

  /** Appending a row moves the first match only when there was none before. */
  lemma {:induction false} FirstWhereAppend<R>(rows: seq<R>, key: R -> string, v: string, row: R)
    ensures FirstWhere(rows + [row], key, v) ==
      if FirstWhere(rows, key, v) < |rows| then FirstWhere(rows, key, v)
      else if key(row) == v then |rows| else |rows| + 1
  {
    if rows == [] {
      assert [row][1..] == [];
    } else {
      assert (rows + [row])[1..] == rows[1..] + [row];
      if key(rows[0]) != v {
        FirstWhereAppend(rows[1..], key, v, row);
      }
    }
  }

  /** In a consistent table, every row for `u` carries the token the lookup
      returns. */
  lemma StoredTokenIsEveryRowsToken(rows: seq<OAuthRow>, u: string, i: int)
    requires TokensConsistent(rows)
    requires 0 <= i < |rows| && rows[i].backstageID == u
    ensures StoredToken(rows, u) == Some(rows[i].mtaOAuthRefreshToken)
  {
  }

  /** Save preserves the table invariant. */
  lemma SaveKeepsTokensConsistent(rows: seq<OAuthRow>, u: string, t: string)
    requires TokensConsistent(rows)
    ensures TokensConsistent(SavedTokenRows(rows, u, t))
  {
  }

  /** Save-then-get: after `saveRefreshTokenForUser(u, t)` with a non-empty id
      and token, `getRefreshTokenForUser(u)` returns `t`. */
  lemma SaveThenGetToken(rows: seq<OAuthRow>, u: string, t: string)
    requires TokensConsistent(rows)
    requires u != "" && t != ""
    ensures StoredToken(SavedTokenRows(rows, u, t), u) == Some(t)
  {
    var stored := StoredToken(rows, u);
    var r := SavedTokenRows(rows, u, t);
    if Truthy(stored) && stored.value != t {
      var k := FirstWhere(rows, BackstageID, u);
      var k' := FirstWhere(r, BackstageID, u);
      assert BackstageID(rows[k]) == u;
      assert r[k] == OAuthRow(u, t);
      assert BackstageID(r[k]) == u;
      assert k' <= k;
      assert BackstageID(r[k']) == u;
    } else {
      FirstWhereAppend(rows, BackstageID, u, OAuthRow(u, t));
      var k := FirstWhere(rows, BackstageID, u);
      if k < |rows| {
        assert r[k] == rows[k];
      }
    }
  }

  /** Saving for `u` does not change what any other user's lookup returns. */
  lemma SaveLeavesOtherUsers(rows: seq<OAuthRow>, u: string, t: string, v: string)
    requires v != u
    ensures StoredToken(SavedTokenRows(rows, u, t), v) == StoredToken(rows, v)
  {
    var r := SavedTokenRows(rows, u, t);
    if v != "" && u != "" && t != "" {
      var stored := StoredToken(rows, u);
      if Truthy(stored) && stored.value != t {
        SameKeysSameFirst(rows, r, u, t, v);
      } else {
        FirstWhereAppend(rows, BackstageID, v, OAuthRow(u, t));
        var k := FirstWhere(rows, BackstageID, v);
        if k < |rows| {
          assert r[k] == rows[k];
        }
      }
    }
  }

  /** Helper: rewriting `u`'s tokens leaves the first row for `v != u` where
      it was, with its token. */
  lemma SameKeysSameFirst(rows: seq<OAuthRow>, r: seq<OAuthRow>, u: string, t: string, v: string)
    requires v != u && r == ReplaceTokens(rows, u, t)
    ensures FirstWhere(r, BackstageID, v) == FirstWhere(rows, BackstageID, v)
    ensures FirstWhere(rows, BackstageID, v) < |rows| ==>
      r[FirstWhere(rows, BackstageID, v)] == rows[FirstWhere(rows, BackstageID, v)]
  {
  }

  /** Saving the same token twice leaves `u` with exactly one stored value,
      that token, in every one of its rows. */
  lemma SaveTwiceSameToken(rows: seq<OAuthRow>, u: string, t: string)
    requires TokensConsistent(rows)
    requires u != "" && t != ""
    ensures var r := SavedTokenRows(SavedTokenRows(rows, u, t), u, t);
      && RowsFor(r, u) > 0
      && forall i :: 0 <= i < |r| && r[i].backstageID == u ==> r[i].mtaOAuthRefreshToken == t
  {
  }

  /** Saving a mapping for an entity that has none makes the lookup return
      the new application. */
  lemma SaveThenGetApplication(rows: seq<EntityRow>, e: string, a: string)
    requires FirstApplication(rows, e) == None
    ensures FirstApplication(rows + [EntityRow(e, a)], e) == Some(a)
  {
    FirstWhereAppend(rows, EntityUID, e, EntityRow(e, a));
  }

  /** Saving a second mapping for an entity does not change what the lookup
      returns: the first row still wins. */
  lemma SaveKeepsEarlierApplication(rows: seq<EntityRow>, e: string, a: string, b: string)
    requires FirstApplication(rows, e) == Some(b)
    ensures FirstApplication(rows + [EntityRow(e, a)], e) == Some(b)
  {
    FirstWhereAppend(rows, EntityUID, e, EntityRow(e, a));
    var k := FirstWhere(rows, EntityUID, e);
    assert (rows + [EntityRow(e, a)])[k] == rows[k];
  }

  // ---------------------------------------------------------------------
  // The storage object
  // ---------------------------------------------------------------------

  class EntityApplicationStorage {
    var entities: seq<EntityRow>
    var oauth: seq<OAuthRow>

    ghost predicate Valid()
      reads this
    {
      TokensConsistent(oauth)
    }

    /** `create`: both tables exist (after migration) and hold the rows
        earlier runs wrote. */
    constructor (entities0: seq<EntityRow>, oauth0: seq<OAuthRow>)
      requires TokensConsistent(oauth0)
      ensures Valid()
      ensures entities == entities0 && oauth == oauth0
    {
      entities := entities0;
      oauth := oauth0;
    }

    /** `getAllEntities`: every row of the mapping table. */
    method GetAllEntities() returns (rows: seq<EntityRow>)
      ensures rows == entities
    {
      rows := entities;
    }

    /** `getApplicationIDForEntity`. */
    method GetApplicationIDForEntity(entityUID: string) returns (r: Option<string>)
      ensures r == if entityUID == "" then None else FirstApplication(entities, entityUID)
      ensures r.None? <==>
        entityUID == "" || forall i :: 0 <= i < |entities| ==> entities[i].entityUID != entityUID
      ensures r.Some? ==> exists i ::
        && 0 <= i < |entities|
        && entities[i].entityUID == entityUID
        && entities[i].mtaApplication == r.value
        && forall j :: 0 <= j < i ==> entities[j].entityUID != entityUID
    {
      if entityUID == "" {
        return None;
      }
      r := FirstApplication(entities, entityUID);
      if r.Some? {
        var k := FirstWhere(entities, EntityUID, entityUID);
        assert forall j :: 0 <= j < k ==> EntityUID(entities[j]) != entityUID;
      } else {
        forall i | 0 <= i < |entities| ensures entities[i].entityUID != entityUID {
          assert EntityUID(entities[i]) != entityUID;
        }
      }
    }

    /** `saveApplicationIDForEntity`: no uniqueness check; one row appended
        unless either argument is empty. */
    method SaveApplicationIDForEntity(entityID: string, applicationID: string)
      returns (r: Option<bool>)
      requires Valid()
      modifies this
      ensures Valid() && oauth == old(oauth)
      ensures entityID == "" || applicationID == "" ==> r == None && entities == old(entities)
      ensures entityID != "" && applicationID != "" ==>
        r == Some(true) && entities == old(entities) + [EntityRow(entityID, applicationID)]
    {
      if entityID == "" || applicationID == "" {
        return None;
      }
      entities := entities + [EntityRow(entityID, applicationID)];
      r := Some(true);
    }

    /** `saveRefreshTokenForUser`: the upsert. The update branch reports
        whether exactly one row changed. */
    method SaveRefreshTokenForUser(backstageID: string, refreshToken: string)
      returns (r: Option<bool>)
      requires Valid()
      modifies this
      ensures Valid() && entities == old(entities)
      ensures oauth == SavedTokenRows(old(oauth), backstageID, refreshToken)
      ensures r == if backstageID == "" || refreshToken == "" then None
        else if Truthy(StoredToken(old(oauth), backstageID)) &&
                StoredToken(old(oauth), backstageID).value != refreshToken
        then Some(RowsFor(old(oauth), backstageID) == 1)
        else Some(true)
      ensures backstageID != "" && refreshToken != "" ==>
        StoredToken(oauth, backstageID) == Some(refreshToken)
    {
      SaveKeepsTokensConsistent(oauth, backstageID, refreshToken);
      if backstageID != "" && refreshToken != "" {
        SaveThenGetToken(oauth, backstageID, refreshToken);
      }
      if backstageID == "" || refreshToken == "" {
        return None;
      }
      var stored := GetRefreshTokenForUser(backstageID);
      if Truthy(stored) && stored.value != refreshToken {
        var changed := RowsFor(oauth, backstageID);
        oauth := ReplaceTokens(oauth, backstageID, refreshToken);
        return Some(changed == 1);
      }
      oauth := oauth + [OAuthRow(backstageID, refreshToken)];
      r := Some(true);
    }

    /** `getRefreshTokenForUser`. */
    method GetRefreshTokenForUser(backstageID: string) returns (r: Option<string>)
      ensures r == StoredToken(oauth, backstageID)
      ensures r.None? <==>
        backstageID == "" || forall i :: 0 <= i < |oauth| ==> oauth[i].backstageID != backstageID
    {
      if backstageID == "" {
        return None;
      }
      var k := FirstWhere(oauth, BackstageID, backstageID);
      r := if k < |oauth| then Some(oauth[k].mtaOAuthRefreshToken) else None;
      if r.None? {
        forall i | 0 <= i < |oauth| ensures oauth[i].backstageID != backstageID {
          assert BackstageID(oauth[i]) != backstageID;
        }
      }
    }
  }
}
