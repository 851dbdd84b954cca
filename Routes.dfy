/**
 * The request handlers registered by `registerRoutes`. Each handler is a
 * chain of early returns: 401 when the request is not authenticated, 403
 * when the caller's role is wrong, 400 when the body fails its insert
 * schema, and otherwise one storage call with the server's own fields
 * forced in.
 *
 * The decision is a function of the caller, the request and the current
 * tables (`Decide`); it yields either a reply or the single write to make.
 * `Serve` makes that write on the storage and builds the response from what
 * the storage returns.
 *
 * The handlers are modelled as they are written, gaps included: the status
 * update checks the caller's role but not that the caller owns the
 * campaign, connection creation does not check that the campaign exists,
 * takes its status from the body, and the status update does not look at
 * the current status.
 */
module Routes {
  import opened Wrappers
  import opened Schema
  import opened Storage

  /**
   * `req.isAuthenticated()` with `req.user`: the session layer provides the
   * user exactly when the request is authenticated.
   */
  datatype Auth = Anonymous | SignedIn(user: User)

  /** The routes of the core, with path parameters already parsed. */
  datatype Request =
    | GetProfile(userId: int)                               // GET   /api/profile/:id
    | GetUsers(userType: string)                            // GET   /api/users/:type
    | PostCampaign(body: Body)                              // POST  /api/campaigns
    | GetCampaigns                                          // GET   /api/campaigns
    | GetCompanyCampaigns                                   // GET   /api/campaigns/company
    | PostConnection(body: Body)                            // POST  /api/connections
    | GetInfluencerConnections                              // GET   /api/connections/influencer
    | GetCampaignConnections(campaignId: int)               // GET   /api/connections/campaign/:id
    | PatchConnectionStatus(connectionId: int, body: Body)  // PATCH /api/connections/:id/status

  /** What a response carries. */
  datatype Payload =
    | Message(text: string)               // `res.send(...)`, `res.sendStatus(...)`
    | InvalidFields(fields: set<string>)  // `res.status(400).json(parsed.error)`
    | UserJson(user: User)
    | UsersJson(users: seq<User>)
    | CampaignJson(campaign: Campaign)
    | CampaignsJson(campaigns: seq<Campaign>)
    | ConnectionJson(connection: Connection)
    | ConnectionsJson(connections: seq<Connection>)

  datatype Response = Response(code: int, payload: Payload)

  /** A handler's decision: a reply, or the one storage write whose result is the reply. */
  datatype Action =
    | Reply(response: Response)
    | WriteCampaign(campaign: NewCampaign)
    | WriteConnection(connection: InsertConnection)
    | WriteStatus(connectionId: int, status: ConnectionStatus)

  /** The end of a request: a response, or the error the handler did not catch. */
  datatype Outcome = Sent(response: Response) | Thrown(message: string)

  const Unauthorized: Action := Reply(Response(401, Message("Unauthorized")))
  const Forbidden: Action := Reply(Response(403, Message("Forbidden")))
  const UserNotFound: Action := Reply(Response(404, Message("User not found")))
  const InvalidStatus: Action := Reply(Response(400, Message("Invalid status")))

  function Success(p: Payload): (r: Action) {
    Reply(Response(200, p))
  }

  /** `{ ...parsed.data, companyId }`: a validated campaign payload owned by a company. */
  function OwnedBy(p: InsertCampaign, companyId: int): (r: NewCampaign) {
    NewCampaign(companyId, p.title, p.description, p.requirements, p.budget, p.status)
  }

  // ---------------------------------------------------------------------------
  // The access table: who may call each route
  // ---------------------------------------------------------------------------

  datatype Gate = Open | SignedInOnly | RoleOnly(role: UserType)

  /**
   * The access rule each handler enforces: profiles
   * and user lists are open; listing active campaigns and a campaign's
   * connections needs a session only; everything else needs a role.
   */
  function GateOf(req: Request): (r: Gate) {
    match req
    case GetProfile(_) => Open
    case GetUsers(_) => Open
    case PostCampaign(_) => RoleOnly(Company)
    case GetCampaigns => SignedInOnly
    case GetCompanyCampaigns => RoleOnly(Company)
    case PostConnection(_) => RoleOnly(Influencer)
    case GetInfluencerConnections => RoleOnly(Influencer)
    case GetCampaignConnections(_) => SignedInOnly
    case PatchConnectionStatus(_, _) => RoleOnly(Company)
  }

  predicate Admits(g: Gate, auth: Auth) {
    match g
    case Open => true
    case SignedInOnly => auth.SignedIn?
    case RoleOnly(role) => auth.SignedIn? && auth.user.userType == role
  }

  // ---------------------------------------------------------------------------
  // The handlers
  // ---------------------------------------------------------------------------

  /** `GET /api/profile/:id`: open to everyone; the stored user (password included) or 404. */
  function ProfileRoute(store: DatabaseStorage, id: int): (a: Action)
    reads store
    ensures a == UserNotFound <==> forall u :: u in store.users ==> u.id != id
    ensures a != UserNotFound ==>
      && a.Reply? && a.response.code == 200 && a.response.payload.UserJson?
      && a.response.payload.user in store.users && a.response.payload.user.id == id
    ensures store.Valid() ==> forall u :: u in store.users && u.id == id ==> a == Success(UserJson(u))
  {
    match store.GetUser(id)
    case None => UserNotFound
    case Some(u) => Success(UserJson(u))
  }

  /** `GET /api/users/:type`: open to everyone; exactly the users whose type is the path text. */
  function UsersRoute(store: DatabaseStorage, userType: string): (a: Action)
    reads store
    ensures a.Reply? && a.response.code == 200 && a.response.payload.UsersJson?
    ensures forall u :: u in a.response.payload.users <==> u in store.users && UserTypeName(u.userType) == userType
    ensures a.response.payload.users == store.GetUsersByType(userType)
  {
    Success(UsersJson(store.GetUsersByType(userType)))
  }

  /**
   * `POST /api/campaigns`: 401, then 403 for a non-company caller, then 400
   * with the failing fields; otherwise the validated payload is written with
   * `companyId` set to the caller's id, whatever the body says.
   */
  function CreateCampaignRoute(auth: Auth, body: Body): (a: Action)
    ensures auth.Anonymous? ==> a == Unauthorized
    ensures auth.SignedIn? && auth.user.userType != Company ==> a == Forbidden
    ensures auth.SignedIn? && auth.user.userType == Company && !Conforms(body, InsertCampaignColumns) ==>
      a == Reply(Response(400, InvalidFields(Violations(body, InsertCampaignColumns))))
    ensures a.WriteCampaign? <==> auth.SignedIn? && auth.user.userType == Company && Conforms(body, InsertCampaignColumns)
    ensures a.WriteCampaign? ==> a.campaign.companyId == auth.user.id
    ensures a.WriteCampaign? ==> a.campaign == OwnedBy(ParseCampaign(body).value, auth.user.id)
    ensures a.Reply? || a.WriteCampaign?
  {
    match auth
    case Anonymous => Unauthorized
    case SignedIn(user) =>
      if user.userType != Company then Forbidden
      else
        match ParseCampaign(body)
        case Err(fields) => Reply(Response(400, InvalidFields(fields)))
        case Ok(p) => WriteCampaign(OwnedBy(p, user.id))
  }

  /** `GET /api/campaigns`: any signed-in caller; exactly the active campaigns. */
  function ActiveCampaignsRoute(store: DatabaseStorage, auth: Auth): (a: Action)
    reads store
    ensures a.Reply?
    ensures auth.Anonymous? ==> a == Unauthorized
    ensures auth.SignedIn? ==>
      && a.response.code == 200 && a.response.payload.CampaignsJson?
      && (forall c :: c in a.response.payload.campaigns <==> c in store.campaigns && c.status == Active)
      && a.response.payload.campaigns == store.GetActiveCampaigns()
  {
    if auth.Anonymous? then Unauthorized
    else Success(CampaignsJson(store.GetActiveCampaigns()))
  }

  /** `GET /api/campaigns/company`: companies only; exactly the caller's own campaigns. */
  function CompanyCampaignsRoute(store: DatabaseStorage, auth: Auth): (a: Action)
    reads store
    ensures a.Reply?
    ensures auth.Anonymous? ==> a == Unauthorized
    ensures auth.SignedIn? && auth.user.userType != Company ==> a == Forbidden
    ensures auth.SignedIn? && auth.user.userType == Company ==>
      && a.response.code == 200 && a.response.payload.CampaignsJson?
      && (forall c :: c in a.response.payload.campaigns <==> c in store.campaigns && c.companyId == auth.user.id)
      && a.response.payload.campaigns == store.GetCampaignsByCompany(auth.user.id)
  {
    match auth
    case Anonymous => Unauthorized
    case SignedIn(user) =>
      if user.userType != Company then Forbidden
      else Success(CampaignsJson(store.GetCampaignsByCompany(user.id)))
  }

  /**
   * `POST /api/connections`: 401, then 403 for a non-influencer caller, then
   * 400; otherwise the validated payload is written with `influencerId`
   * replaced by the caller's id. The status is the one the body gave (not
   * forced to `pending`), and the campaign is not looked up: this handler
   * does not read the tables at all.
   */
  function CreateConnectionRoute(auth: Auth, body: Body): (a: Action)
    ensures auth.Anonymous? ==> a == Unauthorized
    ensures auth.SignedIn? && auth.user.userType != Influencer ==> a == Forbidden
    ensures auth.SignedIn? && auth.user.userType == Influencer && !Conforms(body, InsertConnectionColumns) ==>
      a == Reply(Response(400, InvalidFields(Violations(body, InsertConnectionColumns))))
    ensures a.WriteConnection? <==> auth.SignedIn? && auth.user.userType == Influencer && Conforms(body, InsertConnectionColumns)
    ensures a.WriteConnection? ==> a.connection.influencerId == auth.user.id
    ensures a.WriteConnection? ==>
      && a.connection.campaignId == ParseConnection(body).value.campaignId
      && a.connection.status == ParseConnection(body).value.status
    ensures a.Reply? || a.WriteConnection?
  {
    match auth
    case Anonymous => Unauthorized
    case SignedIn(user) =>
      if user.userType != Influencer then Forbidden
      else
        match ParseConnection(body)
        case Err(fields) => Reply(Response(400, InvalidFields(fields)))
        case Ok(p) => WriteConnection(p.(influencerId := user.id))
  }

  /** `GET /api/connections/influencer`: influencers only; exactly the caller's own connections. */
  function InfluencerConnectionsRoute(store: DatabaseStorage, auth: Auth): (a: Action)
    reads store
    ensures a.Reply?
    ensures auth.Anonymous? ==> a == Unauthorized
    ensures auth.SignedIn? && auth.user.userType != Influencer ==> a == Forbidden
    ensures auth.SignedIn? && auth.user.userType == Influencer ==>
      && a.response.code == 200 && a.response.payload.ConnectionsJson?
      && (forall c :: c in a.response.payload.connections <==> c in store.connections && c.influencerId == auth.user.id)
      && a.response.payload.connections == store.GetConnectionsByInfluencer(auth.user.id)
  {
    match auth
    case Anonymous => Unauthorized
    case SignedIn(user) =>
      if user.userType != Influencer then Forbidden
      else Success(ConnectionsJson(store.GetConnectionsByInfluencer(user.id)))
  }

  /**
   * `GET /api/connections/campaign/:id`: any signed-in caller, of either
   * role and whether or not they own the campaign; exactly the campaign's
   * connections.
   */
  function CampaignConnectionsRoute(store: DatabaseStorage, auth: Auth, campaignId: int): (a: Action)
    reads store
    ensures a.Reply?
    ensures auth.Anonymous? ==> a == Unauthorized
    ensures auth.SignedIn? ==>
      && a.response.code == 200 && a.response.payload.ConnectionsJson?
      && (forall c :: c in a.response.payload.connections <==> c in store.connections && c.campaignId == campaignId)
      && a.response.payload.connections == store.GetConnectionsByCampaign(campaignId)
  {
    if auth.Anonymous? then Unauthorized
    else Success(ConnectionsJson(store.GetConnectionsByCampaign(campaignId)))
  }

  /**
   * `PATCH /api/connections/:id/status`: 401, then 403 for a non-company
   * caller, then 400 "Invalid status" unless the body's `status` is the text
   * `accepted` or `rejected`; otherwise that status is written to the
   * connection. Which company calls, and which campaign the connection
   * belongs to, play no part.
   */
  function ConnectionStatusRoute(auth: Auth, id: int, body: Body): (a: Action)
    ensures auth.Anonymous? ==> a == Unauthorized
    ensures auth.SignedIn? && auth.user.userType != Company ==> a == Forbidden
    ensures auth.SignedIn? && auth.user.userType == Company ==>
      (a.WriteStatus? <==> Field(body, "status") in [JString("accepted"), JString("rejected")])
    ensures auth.SignedIn? && auth.user.userType == Company && !a.WriteStatus? ==> a == InvalidStatus
    ensures a.WriteStatus? ==>
      && a.connectionId == id && (a.status == Accepted || a.status == Rejected)
      && Field(body, "status") == JString(ConnectionStatusName(a.status))
    ensures a.Reply? || a.WriteStatus?
  {
    match auth
    case Anonymous => Unauthorized
    case SignedIn(user) =>
      if user.userType != Company then Forbidden
      else
        var status := Field(body, "status");
        if status == JString("accepted") then WriteStatus(id, Accepted)
        else if status == JString("rejected") then WriteStatus(id, Rejected)
        else InvalidStatus
  }

  // ---------------------------------------------------------------------------
  // Dispatch and the access table
  // ---------------------------------------------------------------------------

  /**
   * The handler for the request. A request is answered 401 exactly when its
   * route is gated and nobody is signed in, and 403 exactly when the route
   * wants a role the caller does not have; a write happens only on the three
   * writing routes, and only for a caller the access table admits.
   */
  function Decide(store: DatabaseStorage, auth: Auth, req: Request): (a: Action)
    reads store
    ensures a == Unauthorized <==> GateOf(req) != Open && auth.Anonymous?
    ensures a == Forbidden <==> auth.SignedIn? && GateOf(req).RoleOnly? && auth.user.userType != GateOf(req).role
    ensures !a.Reply? ==> Admits(GateOf(req), auth)
    ensures a.WriteCampaign? ==> req.PostCampaign?
    ensures a.WriteConnection? ==> req.PostConnection?
    ensures a.WriteStatus? ==> req.PatchConnectionStatus? && (a.status == Accepted || a.status == Rejected)
  {
    match req
    case GetProfile(id) => ProfileRoute(store, id)
    case GetUsers(t) => UsersRoute(store, t)
    case PostCampaign(body) => CreateCampaignRoute(auth, body)
    case GetCampaigns => ActiveCampaignsRoute(store, auth)
    case GetCompanyCampaigns => CompanyCampaignsRoute(store, auth)
    case PostConnection(body) => CreateConnectionRoute(auth, body)
    case GetInfluencerConnections => InfluencerConnectionsRoute(store, auth)
    case GetCampaignConnections(id) => CampaignConnectionsRoute(store, auth, id)
    case PatchConnectionStatus(id, body) => ConnectionStatusRoute(auth, id, body)
  }

  /**
   * Runs the handler: a reply is sent as decided and leaves the tables as
   * they were; a write goes to the storage and its result is sent as JSON,
   * except a status update on a missing connection, whose error escapes.
   */
  method Serve(store: DatabaseStorage, auth: Auth, req: Request) returns (out: Outcome)
    requires store.Valid()
    modifies store
    ensures store.Valid()
    ensures old(Decide(store, auth, req)).Reply? ==>
      out == Sent(old(Decide(store, auth, req)).response) && unchanged(store)
    ensures old(Decide(store, auth, req)).WriteCampaign? ==>
      && out.Sent? && out.response.code == 200 && out.response.payload.CampaignJson?
      && CampaignFields(out.response.payload.campaign) == old(Decide(store, auth, req)).campaign
      && (forall c :: c in old(store.campaigns) ==> c.id < out.response.payload.campaign.id)
      && store.campaigns == old(store.campaigns) + [out.response.payload.campaign]
      && store.users == old(store.users) && store.connections == old(store.connections)
      && store.nextUserId == old(store.nextUserId) && store.nextConnectionId == old(store.nextConnectionId)
      && store.nextCampaignId > old(store.nextCampaignId)
    ensures old(Decide(store, auth, req)).WriteConnection? ==>
      && out.Sent? && out.response.code == 200 && out.response.payload.ConnectionJson?
      && ConnectionFields(out.response.payload.connection) == old(Decide(store, auth, req)).connection
      && (forall c :: c in old(store.connections) ==> c.id < out.response.payload.connection.id)
      && store.connections == old(store.connections) + [out.response.payload.connection]
      && store.users == old(store.users) && store.campaigns == old(store.campaigns)
      && store.nextUserId == old(store.nextUserId) && store.nextCampaignId == old(store.nextCampaignId)
      && store.nextConnectionId > old(store.nextConnectionId)
    ensures old(Decide(store, auth, req)).WriteStatus? ==>
      var a := old(Decide(store, auth, req));
      && store.connections == SetStatus(old(store.connections), a.connectionId, a.status)
      && store.users == old(store.users) && store.campaigns == old(store.campaigns)
      && store.nextUserId == old(store.nextUserId) && store.nextCampaignId == old(store.nextCampaignId)
      && store.nextConnectionId == old(store.nextConnectionId)
      && (old(store.GetConnection(a.connectionId)).None? ==>
            out == Thrown(ConnectionNotFound) && store.connections == old(store.connections))
      && (old(store.GetConnection(a.connectionId)).Some? ==>
            out == Sent(Response(200, ConnectionJson(old(store.GetConnection(a.connectionId)).value.(status := a.status)))))
  {
    var a := Decide(store, auth, req);
    match a
    case Reply(response) =>
      out := Sent(response);
    case WriteCampaign(row) =>
      var c := store.CreateCampaign(row);
      out := Sent(Response(200, CampaignJson(c)));
    case WriteConnection(row) =>
      var c := store.CreateConnection(row);
      out := Sent(Response(200, ConnectionJson(c)));
    case WriteStatus(id, status) =>
      var r := store.UpdateConnectionStatus(id, status);
      match r
      case Ok(c) => out := Sent(Response(200, ConnectionJson(c)));
      case Err(e) => out := Thrown(e.message);
  }

  // ---------------------------------------------------------------------------
  // Properties of the handlers
  // ---------------------------------------------------------------------------

  /** Whatever the body holds under `companyId`, the campaign is written for the caller. */
  lemma {:induction false} CampaignOwnerForced(auth: Auth, body: Body, v: Json)
    ensures CreateCampaignRoute(auth, body["companyId" := v]) == CreateCampaignRoute(auth, body)
  {
    CampaignSchemaOmitsOwnership();
    CampaignIgnoresOtherKeys(body, "companyId", v);
  }

  /**
   * The body must carry a numeric `influencerId` to pass validation, but
   * which number it is does not matter: it is replaced by the caller's id.
   */
  lemma {:induction false} InfluencerIdOverwritten(auth: Auth, body: Body, n: int)
    requires Field(body, "influencerId").JNumber?
    ensures CreateConnectionRoute(auth, body["influencerId" := JNumber(n)]) == CreateConnectionRoute(auth, body)
  {
    var body' := body["influencerId" := JNumber(n)];
    ConnectionConformance(body);
    ConnectionConformance(body');
    InsertConnectionColumnsAre();
    forall c | c in InsertConnectionColumns
      ensures FieldConforms(body', c) == FieldConforms(body, c)
    {
    }
    assert Violations(body', InsertConnectionColumns) == Violations(body, InsertConnectionColumns);
    assert Field(body', "campaignId") == Field(body, "campaignId");
    assert Field(body', "status") == Field(body, "status");
  }

  /**
   * An influencer may create a connection in any status, `accepted`
   * included, against any campaign id; in this model, which leaves foreign
   * keys out, that holds whether or not the campaign exists.
   */
  lemma {:induction false} ConnectionStatusTakenFromBody(u: User, campaignId: int, bodyInfluencerId: int, s: ConnectionStatus)
    requires u.userType == Influencer
    ensures CreateConnectionRoute(SignedIn(u), ConnectionBody(InsertConnection(campaignId, bodyInfluencerId, s)))
         == WriteConnection(InsertConnection(campaignId, u.id, s))
  {
    ConnectionRoundTrip(InsertConnection(campaignId, bodyInfluencerId, s));
  }

  /** The status update decides the same for every company: it has no ownership check. */
  lemma StatusUpdateIgnoresOwnership(c1: User, c2: User, id: int, body: Body)
    requires c1.userType == Company && c2.userType == Company
    ensures ConnectionStatusRoute(SignedIn(c1), id, body) == ConnectionStatusRoute(SignedIn(c2), id, body)
  {
  }

  /** Listing a campaign's connections answers every signed-in caller alike. */
  lemma CampaignConnectionsIgnoreCaller(store: DatabaseStorage, u1: User, u2: User, campaignId: int)
    ensures CampaignConnectionsRoute(store, SignedIn(u1), campaignId) == CampaignConnectionsRoute(store, SignedIn(u2), campaignId)
  {
  }

  /**
   * Check order for the two creating routes: without a session the answer
   * is 401 whatever the body, and with the wrong role it is 403 whatever
   * the body, so validation is never reached on either path.
   */
  lemma ChecksPrecedeValidation(u: User, b1: Body, b2: Body)
    ensures CreateCampaignRoute(Anonymous, b1) == CreateCampaignRoute(Anonymous, b2) == Unauthorized
    ensures CreateConnectionRoute(Anonymous, b1) == CreateConnectionRoute(Anonymous, b2) == Unauthorized
    ensures u.userType == Influencer ==> CreateCampaignRoute(SignedIn(u), b1) == CreateCampaignRoute(SignedIn(u), b2) == Forbidden
    ensures u.userType == Company ==> CreateConnectionRoute(SignedIn(u), b1) == CreateConnectionRoute(SignedIn(u), b2) == Forbidden
  {
  }

  // ---------------------------------------------------------------------------
  // A session through the API
  // ---------------------------------------------------------------------------

  /**
   * A company and an influencer register; the company posts an active
   * campaign; the influencer finds it among the active campaigns and asks to
   * join; the company sees the pending request on its campaign and accepts
   * it; the influencer's own list then shows the connection as accepted.
   */
  method AcceptedConnectionScenario() returns (last: Outcome)
    ensures last.Sent? && last.response.code == 200 && last.response.payload.ConnectionsJson?
    ensures exists c :: c in last.response.payload.connections && c.status == Accepted
  {
    var store := new DatabaseStorage();
    var company, influencer := RegisterBoth(store);
    var campaign := PostActiveCampaign(store, company);
    var connection := JoinCampaign(store, influencer, campaign);
    var accepted := AcceptRequest(store, company, connection);
    last := ListOwnConnections(store, influencer);
    assert accepted in last.response.payload.connections;
  }

  /** A company and an influencer register under distinct usernames. */
  method RegisterBoth(store: DatabaseStorage) returns (company: User, influencer: User)
    requires store.Valid() && store.users == []
    modifies store
    ensures store.Valid()
    ensures store.users == old(store.users) + [company, influencer] && company.id != influencer.id
    ensures store.campaigns == old(store.campaigns) && store.connections == old(store.connections)
    ensures company.userType == Company && influencer.userType == Influencer
  {
    var registered := store.CreateUser(InsertUser("acme", "hash-1", "team@acme.test", Company, "Acme", None, None, None));
    assert registered.Ok?;
    company := registered.value;
    assert store.users == [company];
    registered := store.CreateUser(InsertUser("ivy", "hash-2", "ivy@mail.test", Influencer, "Ivy", None, None, None));
    assert registered.Ok?;
    influencer := registered.value;
  }

  /** The influencer lists its own connections. */
  method ListOwnConnections(store: DatabaseStorage, influencer: User) returns (out: Outcome)
    requires store.Valid() && influencer.userType == Influencer
    modifies store
    ensures unchanged(store)
    ensures out == Sent(Response(200, ConnectionsJson(store.GetConnectionsByInfluencer(influencer.id))))
  {
    assert Decide(store, SignedIn(influencer), GetInfluencerConnections)
        == Success(ConnectionsJson(store.GetConnectionsByInfluencer(influencer.id)));
    out := Serve(store, SignedIn(influencer), GetInfluencerConnections);
  }

  /** The company posts a campaign in status `active`. */
  method PostActiveCampaign(store: DatabaseStorage, company: User) returns (campaign: Campaign)
    requires store.Valid() && company.userType == Company
    modifies store
    ensures store.Valid() && store.connections == old(store.connections)
    ensures campaign in store.campaigns && campaign.status == Active && campaign.companyId == company.id
  {
    var draft := InsertCampaign("Spring launch", "Posts about the new line", None, "1000", Active);
    CampaignRoundTrip(draft);
    assert Decide(store, SignedIn(company), PostCampaign(CampaignBody(draft))) == WriteCampaign(OwnedBy(draft, company.id));
    var posted := Serve(store, SignedIn(company), PostCampaign(CampaignBody(draft)));
    campaign := posted.response.payload.campaign;
  }

  /** The influencer sees the campaign among the active ones and asks to join it. */
  method JoinCampaign(store: DatabaseStorage, influencer: User, campaign: Campaign) returns (connection: Connection)
    requires store.Valid() && influencer.userType == Influencer
    requires campaign in store.campaigns && campaign.status == Active
    modifies store
    ensures store.Valid()
    ensures connection in store.connections && connection.status == Pending
    ensures connection.campaignId == campaign.id && connection.influencerId == influencer.id
  {
    assert Decide(store, SignedIn(influencer), GetCampaigns) == Success(CampaignsJson(store.GetActiveCampaigns()));
    var listed := Serve(store, SignedIn(influencer), GetCampaigns);
    assert campaign in listed.response.payload.campaigns;

    var request := InsertConnection(campaign.id, influencer.id, Pending);
    ConnectionRoundTrip(request);
    assert Decide(store, SignedIn(influencer), PostConnection(ConnectionBody(request))) == WriteConnection(request);
    var joined := Serve(store, SignedIn(influencer), PostConnection(ConnectionBody(request)));
    connection := joined.response.payload.connection;
  }

  /** A signed-in caller lists a campaign's connections. */
  method ListCampaignConnections(store: DatabaseStorage, caller: User, campaignId: int) returns (out: Outcome)
    requires store.Valid()
    modifies store
    ensures store.Valid() && unchanged(store)
    ensures out == Sent(Response(200, ConnectionsJson(store.GetConnectionsByCampaign(campaignId))))
  {
    assert Decide(store, SignedIn(caller), GetCampaignConnections(campaignId))
        == Success(ConnectionsJson(store.GetConnectionsByCampaign(campaignId)));
    out := Serve(store, SignedIn(caller), GetCampaignConnections(campaignId));
  }

  /** The company finds the pending request on its campaign and accepts it. */
  method AcceptRequest(store: DatabaseStorage, company: User, connection: Connection) returns (accepted: Connection)
    requires store.Valid() && company.userType == Company
    requires connection in store.connections && connection.status == Pending
    modifies store
    ensures store.Valid()
    ensures accepted == connection.(status := Accepted) && accepted in store.connections
  {
    var pending := ListCampaignConnections(store, company, connection.campaignId);
    assert connection in pending.response.payload.connections;

    var decision := map["status" := JString("accepted")];
    assert Decide(store, SignedIn(company), PatchConnectionStatus(connection.id, decision))
        == WriteStatus(connection.id, Accepted);
    assert store.GetConnection(connection.id) == Some(connection);
    var outcome := Serve(store, SignedIn(company), PatchConnectionStatus(connection.id, decision));
    accepted := outcome.response.payload.connection;
    assert accepted == connection.(status := Accepted);
    assert store.GetConnection(connection.id) == Some(accepted);
  }
}
