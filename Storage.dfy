/**
 * The storage contract (`IStorage`) as implemented by `DatabaseStorage`,
 * with the three Postgres tables replaced by in-memory tables: each table is a
 * sequence of rows in insertion order, and each `serial` id column is a
 * counter holding the next value its sequence hands out.
 *
 * Creates append one row under a fresh id; the `get*` queries are
 * select-where filters, stated up to order; `UpdateConnectionStatus` rewrites
 * the status of the row with the given id, or fails when there is none.
 */
module Storage {
  import opened Wrappers
  import opened Schema
  import opened Tables

  /** Failures the storage reports to its callers. */
  datatype StorageError =
    | UniqueViolation(column: string)  // the `unique()` constraint on `username`
    | NotFound(message: string)        // `updateConnectionStatus` matched no row

  const ConnectionNotFound: string := "Connection not found"

  /** The `WHERE id = id` condition of each table. */
  function UserHasId(id: int): (r: User -> bool) { (u: User) => u.id == id }
  function CampaignHasId(id: int): (r: Campaign -> bool) { (c: Campaign) => c.id == id }
  function ConnectionHasId(id: int): (r: Connection -> bool) { (c: Connection) => c.id == id }

  /** No two rows share a value of `key`: a primary key or a unique column. */
  ghost predicate DistinctOn<T, K>(rows: seq<T>, key: T -> K) {
    forall i, j :: 0 <= i < j < |rows| ==> key(rows[i]) != key(rows[j])
  }

  /** The key columns of the three tables. */
  function UserId(u: User): (r: int) { u.id }
  function Username(u: User): (r: string) { u.username }
  function CampaignId(c: Campaign): (r: int) { c.id }
  function ConnectionId(c: Connection): (r: int) { c.id }

  /**
   * `UPDATE connections SET status = s WHERE id = id`, on the whole table:
   * the rows with that id get the new status, every other row is kept.
   */
  function SetStatus(rows: seq<Connection>, id: int, s: ConnectionStatus): (r: seq<Connection>)
    ensures |r| == |rows|
    ensures forall k :: 0 <= k < |rows| ==>
      r[k] == if rows[k].id == id then rows[k].(status := s) else rows[k]
  {
    if rows == [] then []
    else [if rows[0].id == id then rows[0].(status := s) else rows[0]] + SetStatus(rows[1..], id, s)
  }

  /** The update touches only `status`: ids, campaign ids and influencer ids stay as they were. */
  lemma SetStatusKeepsKeys(rows: seq<Connection>, id: int, s: ConnectionStatus)
    ensures forall k :: 0 <= k < |rows| ==>
      && SetStatus(rows, id, s)[k].id == rows[k].id
      && SetStatus(rows, id, s)[k].campaignId == rows[k].campaignId
      && SetStatus(rows, id, s)[k].influencerId == rows[k].influencerId
  {
  }

  /** With no row under `id`, the update changes nothing. */
  lemma SetStatusMissing(rows: seq<Connection>, id: int, s: ConnectionStatus)
    requires forall c :: c in rows ==> c.id != id
    ensures SetStatus(rows, id, s) == rows
  {
    assert forall k :: 0 <= k < |rows| ==> rows[k] in rows;
  }

  /**
   * The update does not look at the current status: a second update on the
   * same id simply overwrites the first (so `accepted` may become
   * `rejected`), and applying the same status twice is the same as once.
   */
  lemma SetStatusOverwrites(rows: seq<Connection>, id: int, s1: ConnectionStatus, s2: ConnectionStatus)
    ensures SetStatus(SetStatus(rows, id, s1), id, s2) == SetStatus(rows, id, s2)
    ensures SetStatus(SetStatus(rows, id, s2), id, s2) == SetStatus(rows, id, s2)
  {
  }

  /** Distinct ids under `id` mean at most one row matches it. */
  lemma DistinctOnAtMostOne(rows: seq<Connection>, id: int)
    requires DistinctOn(rows, ConnectionId)
    ensures AtMostOne(rows, ConnectionHasId(id))
  {
  }

  /** The update keeps ids distinct. */
  lemma SetStatusKeepsDistinct(rows: seq<Connection>, id: int, s: ConnectionStatus)
    requires DistinctOn(rows, ConnectionId)
    ensures DistinctOn(SetStatus(rows, id, s), ConnectionId)
  {
    SetStatusKeepsKeys(rows, id, s);
  }

  /**
   * What `.returning()` yields first after the update: the row that had the
   * id, now with the new status, or nothing when no row had it. Distinct ids
   * stay distinct.
   */
  lemma {:induction false} SetStatusReturning(rows: seq<Connection>, id: int, s: ConnectionStatus)
    requires DistinctOn(rows, ConnectionId)
    ensures DistinctOn(SetStatus(rows, id, s), ConnectionId)
    ensures FirstWhere(SetStatus(rows, id, s), ConnectionHasId(id)) ==
      match FirstWhere(rows, ConnectionHasId(id))
      case None => None
      case Some(c) => Some(c.(status := s))
  {
    var t := SetStatus(rows, id, s);
    var p := ConnectionHasId(id);
    SetStatusKeepsDistinct(rows, id, s);
    match FirstWhere(rows, p)
    case None =>
      SetStatusMissing(rows, id, s);
    case Some(c) =>
      var k :| 0 <= k < |rows| && rows[k] == c;
      assert t[k] == c.(status := s);
      assert t[k] in t;
      DistinctOnAtMostOne(t, id);
  }

  // The table invariants: ids are positive and below their sequence's next
  // value, ids are unique within each table (primary keys), and usernames
  // are unique.

  ghost predicate UsersTable(rows: seq<User>, next: int) {
    && 1 <= next
    && (forall i :: 0 <= i < |rows| ==> 1 <= rows[i].id < next)
    && DistinctOn(rows, UserId)
    && DistinctOn(rows, Username)
  }

  ghost predicate CampaignsTable(rows: seq<Campaign>, next: int) {
    && 1 <= next
    && (forall i :: 0 <= i < |rows| ==> 1 <= rows[i].id < next)
    && DistinctOn(rows, CampaignId)
  }

  ghost predicate ConnectionsTable(rows: seq<Connection>, next: int) {
    && 1 <= next
    && (forall i :: 0 <= i < |rows| ==> 1 <= rows[i].id < next)
    && DistinctOn(rows, ConnectionId)
  }

  /** The update keeps the connections table's invariant. */
  lemma SetStatusKeepsTable(rows: seq<Connection>, next: int, id: int, s: ConnectionStatus)
    requires ConnectionsTable(rows, next)
    ensures ConnectionsTable(SetStatus(rows, id, s), next)
  {
    SetStatusReturning(rows, id, s);
    SetStatusKeepsKeys(rows, id, s);
  }

  class DatabaseStorage {
    var users: seq<User>
    var campaigns: seq<Campaign>
    var connections: seq<Connection>
    /** The next value of each table's `serial` id sequence. */
    var nextUserId: int
    var nextCampaignId: int
    var nextConnectionId: int

    /** The table invariants, table by table. */
    ghost predicate Valid()
      reads this
    {
      UsersTable(users, nextUserId) && CampaignsTable(campaigns, nextCampaignId)
      && ConnectionsTable(connections, nextConnectionId)
    }

    /** Empty tables; every sequence starts at 1. */
    constructor ()
      ensures Valid()
      ensures users == [] && campaigns == [] && connections == []
      ensures nextUserId == 1 && nextCampaignId == 1 && nextConnectionId == 1
    {
      users, campaigns, connections := [], [], [];
      nextUserId, nextCampaignId, nextConnectionId := 1, 1, 1;
    }

    // -------------------------------------------------------------------------
    // Users
    // -------------------------------------------------------------------------

    /** `getUser(id)`: the user with that id, or absent when there is none. */
    function GetUser(id: int): (r: Option<User>)
      reads this
      ensures r.Some? ==> r.value in users && r.value.id == id
      ensures r.None? <==> forall u :: u in users ==> u.id != id
      ensures Valid() ==> forall u :: u in users && u.id == id ==> r == Some(u)
    {
      FirstWhere(users, UserHasId(id))
    }

    /** `getUserByUsername(name)`: the user with that username, or absent. */
    function GetUserByUsername(name: string): (r: Option<User>)
      reads this
      ensures r.Some? ==> r.value in users && r.value.username == name
      ensures r.None? <==> forall u :: u in users ==> u.username != name
      ensures Valid() ==> forall u :: u in users && u.username == name ==> r == Some(u)
    {
      FirstWhere(users, (u: User) => u.username == name)
    }

    /**
     * `getUsersByType(type)`: exactly the users whose `user_type` text equals
     * `type`, each once. The route passes its path parameter unchecked, so any
     * text may arrive here; one that names no role selects no row.
     */
    function GetUsersByType(userType: string): (r: seq<User>)
      reads this
      ensures forall u :: multiset(r)[u] == if UserTypeName(u.userType) == userType then multiset(users)[u] else 0
      ensures forall u :: u in r <==> u in users && UserTypeName(u.userType) == userType
      ensures userType !in UserTypeValues ==> r == []
    {
      Where(users, (u: User) => UserTypeName(u.userType) == userType)
    }

    /**
     * `createUser(data)`: appends the user under the next id, which no
     * existing user has. A username already present violates the table's
     * unique constraint: then nothing is stored.
     */
    method CreateUser(data: InsertUser) returns (r: Result<User, StorageError>)
      requires Valid()
      modifies this
      ensures Valid()
      ensures campaigns == old(campaigns) && connections == old(connections)
      ensures nextCampaignId == old(nextCampaignId) && nextConnectionId == old(nextConnectionId)
      ensures r.Err? <==> old(GetUserByUsername(data.username)).Some?
      ensures r.Err? ==> r.error == UniqueViolation("username") && users == old(users) && nextUserId == old(nextUserId)
      ensures r.Ok? ==> && UserFields(r.value) == data
                        && (forall u :: u in old(users) ==> u.id < r.value.id)
                        && users == old(users) + [r.value]
                        && nextUserId > old(nextUserId)
                        && GetUser(r.value.id) == Some(r.value)
                        && GetUserByUsername(data.username) == Some(r.value)
    {
      if GetUserByUsername(data.username).Some? {
        return Err(UniqueViolation("username"));
      }
      var u := User(nextUserId, data.username, data.password, data.email, data.userType, data.name,
                    data.bio, data.avatar, data.websiteUrl);
      users := users + [u];
      nextUserId := nextUserId + 1;
      r := Ok(u);
    }

    // -------------------------------------------------------------------------
    // Campaigns
    // -------------------------------------------------------------------------

    /** `getCampaign(id)`: the campaign with that id, or absent. */
    function GetCampaign(id: int): (r: Option<Campaign>)
      reads this
      ensures r.Some? ==> r.value in campaigns && r.value.id == id
      ensures r.None? <==> forall c :: c in campaigns ==> c.id != id
      ensures Valid() ==> forall c :: c in campaigns && c.id == id ==> r == Some(c)
    {
      FirstWhere(campaigns, CampaignHasId(id))
    }

    /** `getCampaignsByCompany(companyId)`: exactly that company's campaigns. */
    function GetCampaignsByCompany(companyId: int): (r: seq<Campaign>)
      reads this
      ensures forall c :: multiset(r)[c] == if c.companyId == companyId then multiset(campaigns)[c] else 0
      ensures forall c :: c in r <==> c in campaigns && c.companyId == companyId
    {
      Where(campaigns, (c: Campaign) => c.companyId == companyId)
    }

    /** `getActiveCampaigns()`: exactly the campaigns whose status is `active`; no draft, no completed one. */
    function GetActiveCampaigns(): (r: seq<Campaign>)
      reads this
      ensures forall c :: multiset(r)[c] == if c.status == Active then multiset(campaigns)[c] else 0
      ensures forall c :: c in r <==> c in campaigns && c.status == Active
      ensures forall c :: c in r ==> c.status != Draft && c.status != Completed
    {
      Where(campaigns, (c: Campaign) => c.status == Active)
    }

    /**
     * `createCampaign(data)`: appends the campaign, as given, under the next
     * id. Whether `companyId` names a company is not checked here.
     */
    method CreateCampaign(data: NewCampaign) returns (c: Campaign)
      requires Valid()
      modifies this
      ensures Valid()
      ensures users == old(users) && connections == old(connections)
      ensures nextUserId == old(nextUserId) && nextConnectionId == old(nextConnectionId)
      ensures CampaignFields(c) == data
      ensures forall x :: x in old(campaigns) ==> x.id < c.id
      ensures campaigns == old(campaigns) + [c]
      ensures nextCampaignId > old(nextCampaignId)
      ensures GetCampaign(c.id) == Some(c)
    {
      c := Campaign(nextCampaignId, data.companyId, data.title, data.description, data.requirements,
                    data.budget, data.status);
      campaigns := campaigns + [c];
      nextCampaignId := nextCampaignId + 1;
    }

    // -------------------------------------------------------------------------
    // Connections
    // -------------------------------------------------------------------------

    /**
     * The connection with that id, or absent. The storage contract has no
     * such query; the update below is specified with it.
     */
    function GetConnection(id: int): (r: Option<Connection>)
      reads this
      ensures r.Some? ==> r.value in connections && r.value.id == id
      ensures r.None? <==> forall c :: c in connections ==> c.id != id
      ensures Valid() ==> forall c :: c in connections && c.id == id ==> r == Some(c)
    {
      FirstWhere(connections, ConnectionHasId(id))
    }

    /** `getConnectionsByInfluencer(influencerId)`: exactly that influencer's connections. */
    function GetConnectionsByInfluencer(influencerId: int): (r: seq<Connection>)
      reads this
      ensures forall c :: multiset(r)[c] == if c.influencerId == influencerId then multiset(connections)[c] else 0
      ensures forall c :: c in r <==> c in connections && c.influencerId == influencerId
    {
      Where(connections, (c: Connection) => c.influencerId == influencerId)
    }

    /** `getConnectionsByCampaign(campaignId)`: exactly the connections to that campaign. */
    function GetConnectionsByCampaign(campaignId: int): (r: seq<Connection>)
      reads this
      ensures forall c :: multiset(r)[c] == if c.campaignId == campaignId then multiset(connections)[c] else 0
      ensures forall c :: c in r <==> c in connections && c.campaignId == campaignId
    {
      Where(connections, (c: Connection) => c.campaignId == campaignId)
    }

    /**
     * `createConnection(data)`: appends the connection, as given, under the
     * next id. Neither the campaign nor the influencer is checked to exist.
     */
    method CreateConnection(data: InsertConnection) returns (c: Connection)
      requires Valid()
      modifies this
      ensures Valid()
      ensures users == old(users) && campaigns == old(campaigns)
      ensures nextUserId == old(nextUserId) && nextCampaignId == old(nextCampaignId)
      ensures ConnectionFields(c) == data
      ensures forall x :: x in old(connections) ==> x.id < c.id
      ensures connections == old(connections) + [c]
      ensures nextConnectionId > old(nextConnectionId)
      ensures GetConnection(c.id) == Some(c)
    {
      c := Connection(nextConnectionId, data.campaignId, data.influencerId, data.status);
      connections := connections + [c];
      nextConnectionId := nextConnectionId + 1;
    }

    /**
     * `updateConnectionStatus(id, status)`: sets the status of the row with
     * that id and returns the updated row; only that row's `status` changes.
     * With no such row the update matches nothing, the table is as before,
     * and the call fails with "Connection not found". The row's current
     * status is not consulted.
     */
    method UpdateConnectionStatus(id: int, status: ConnectionStatus) returns (r: Result<Connection, StorageError>)
      requires Valid()
      requires status == Accepted || status == Rejected
      modifies this
      ensures Valid()
      ensures users == old(users) && campaigns == old(campaigns)
      ensures nextUserId == old(nextUserId) && nextCampaignId == old(nextCampaignId)
      ensures nextConnectionId == old(nextConnectionId)
      ensures connections == SetStatus(old(connections), id, status)
      ensures r.Err? <==> old(GetConnection(id)).None?
      ensures r.Err? ==> r.error == NotFound(ConnectionNotFound) && connections == old(connections)
      ensures r.Ok? ==> r.value == old(GetConnection(id)).value.(status := status)
      ensures r.Ok? ==> GetConnection(id) == Some(r.value)
    {
      SetStatusReturning(connections, id, status);
      SetStatusKeepsTable(connections, nextConnectionId, id, status);
      if GetConnection(id).None? {
        SetStatusMissing(connections, id, status);
      }
      connections := SetStatus(connections, id, status);
      var updated := FirstWhere(connections, ConnectionHasId(id));
      if updated.None? {
        return Err(NotFound(ConnectionNotFound));
      }
      r := Ok(updated.value);
    }
  }
}
