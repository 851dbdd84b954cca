/**
 * The three tables `users`, `campaigns` and `connections`, their closed text
 * enums, and the three insert schemas that validate request bodies.
 *
 * A table is described twice: once as a typed row (`User`, `Campaign`,
 * `Connection`), and once as a list of column declarations (name, type,
 * not-null) as the table definitions write them. The insert schemas pick
 * columns from those declarations; the typed parsers are proved to accept a
 * body exactly when every picked column's value conforms to its declaration,
 * and to carry exactly the body's values.
 */
module Schema {
  import opened Wrappers

  // ---------------------------------------------------------------------------
  // Closed enums, stored as text
  // ---------------------------------------------------------------------------

  /** `user_type` of a user. */
  datatype UserType = Company | Influencer

  /** `status` of a campaign. */
  datatype CampaignStatus = Draft | Active | Completed

  /** `status` of a connection. */
  datatype ConnectionStatus = Pending | Accepted | Rejected

  const UserTypeValues: seq<string> := ["company", "influencer"]
  const CampaignStatusValues: seq<string> := ["draft", "active", "completed"]
  const ConnectionStatusValues: seq<string> := ["pending", "accepted", "rejected"]

  function UserTypeName(t: UserType): (s: string)
    ensures s in UserTypeValues
  {
    match t
    case Company => "company"
    case Influencer => "influencer"
  }

  function ParseUserType(s: string): (r: Option<UserType>)
    ensures r.Some? <==> s in UserTypeValues
    ensures r.Some? ==> UserTypeName(r.value) == s
  {
    if s == "company" then Some(Company)
    else if s == "influencer" then Some(Influencer)
    else None
  }

  function CampaignStatusName(t: CampaignStatus): (s: string)
    ensures s in CampaignStatusValues
  {
    match t
    case Draft => "draft"
    case Active => "active"
    case Completed => "completed"
  }

  function ParseCampaignStatus(s: string): (r: Option<CampaignStatus>)
    ensures r.Some? <==> s in CampaignStatusValues
    ensures r.Some? ==> CampaignStatusName(r.value) == s
  {
    if s == "draft" then Some(Draft)
    else if s == "active" then Some(Active)
    else if s == "completed" then Some(Completed)
    else None
  }

  function ConnectionStatusName(t: ConnectionStatus): (s: string)
    ensures s in ConnectionStatusValues
  {
    match t
    case Pending => "pending"
    case Accepted => "accepted"
    case Rejected => "rejected"
  }

  function ParseConnectionStatus(s: string): (r: Option<ConnectionStatus>)
    ensures r.Some? <==> s in ConnectionStatusValues
    ensures r.Some? ==> ConnectionStatusName(r.value) == s
  {
    if s == "pending" then Some(Pending)
    else if s == "accepted" then Some(Accepted)
    else if s == "rejected" then Some(Rejected)
    else None
  }

  /** Every enum value survives the trip through its text column. */
  lemma EnumNamesRoundTrip(u: UserType, c: CampaignStatus, k: ConnectionStatus)
    ensures ParseUserType(UserTypeName(u)) == Some(u)
    ensures ParseCampaignStatus(CampaignStatusName(c)) == Some(c)
    ensures ParseConnectionStatus(ConnectionStatusName(k)) == Some(k)
  {
  }

  // ---------------------------------------------------------------------------
  // Rows as stored (the `$inferSelect` types); nullable columns are Options
  // ---------------------------------------------------------------------------

  datatype User = User(
    id: int,
    username: string,
    password: string,
    email: string,
    userType: UserType,
    name: string,
    bio: Option<string>,
    avatar: Option<string>,
    websiteUrl: Option<string>)

  datatype Campaign = Campaign(
    id: int,
    companyId: int,
    title: string,
    description: string,
    requirements: Option<string>,
    budget: string,
    status: CampaignStatus)

  datatype Connection = Connection(
    id: int,
    campaignId: int,
    influencerId: int,
    status: ConnectionStatus)

  // ---------------------------------------------------------------------------
  // Insert payloads
  // ---------------------------------------------------------------------------

  /** What `insertUserSchema` yields, and what `createUser` stores: a user without its id. */
  datatype InsertUser = InsertUser(
    username: string,
    password: string,
    email: string,
    userType: UserType,
    name: string,
    bio: Option<string>,
    avatar: Option<string>,
    websiteUrl: Option<string>)

  /** What `insertCampaignSchema` yields: neither `id` nor `companyId`. */
  datatype InsertCampaign = InsertCampaign(
    title: string,
    description: string,
    requirements: Option<string>,
    budget: string,
    status: CampaignStatus)

  /**
   * What `insertConnectionSchema` yields; the same fields are what
   * `createConnection` stores (a connection without its id).
   */
  datatype InsertConnection = InsertConnection(
    campaignId: int,
    influencerId: int,
    status: ConnectionStatus)

  /** A campaign without its id, as `createCampaign` takes it. */
  datatype NewCampaign = NewCampaign(
    companyId: int,
    title: string,
    description: string,
    requirements: Option<string>,
    budget: string,
    status: CampaignStatus)

  /** `Omit<User, "id">`. */
  function UserFields(u: User): (r: InsertUser) {
    InsertUser(u.username, u.password, u.email, u.userType, u.name, u.bio, u.avatar, u.websiteUrl)
  }

  /** `Omit<Campaign, "id">`. */
  function CampaignFields(c: Campaign): (r: NewCampaign) {
    NewCampaign(c.companyId, c.title, c.description, c.requirements, c.budget, c.status)
  }

  /** `Omit<Connection, "id">`. */
  function ConnectionFields(c: Connection): (r: InsertConnection) {
    InsertConnection(c.campaignId, c.influencerId, c.status)
  }

  // ---------------------------------------------------------------------------
  // Request bodies
  // ---------------------------------------------------------------------------

  /** A JSON value as the body parser produces it (numbers are integers here). */
  datatype Json =
    | JNull
    | JBool(b: bool)
    | JNumber(n: int)
    | JString(s: string)
    | JArray(items: seq<Json>)
    | JObject(members: map<string, Json>)

  /** A request body: a JSON object, keyed by the TypeScript property names. */
  type Body = map<string, Json>

  /** The value of a key; a missing key reads as null, as the insert schemas treat `undefined`. */
  function Field(body: Body, key: string): (r: Json) {
    if key in body then body[key] else JNull
  }

  function Nullable(o: Option<string>): (r: Json) {
    match o
    case Some(s) => JString(s)
    case None => JNull
  }

  // ---------------------------------------------------------------------------
  // Column declarations and what an insert schema accepts for each
  // ---------------------------------------------------------------------------

  datatype ColumnType = Serial | Integer | Text | TextEnum(values: seq<string>)

  /** A column: its property name, its type, and whether it is `.notNull()`. */
  datatype Column = Column(key: string, kind: ColumnType, notNull: bool)

  const UsersColumns: seq<Column> := [
    Column("id", Serial, true),
    Column("username", Text, true),
    Column("password", Text, true),
    Column("email", Text, true),
    Column("userType", TextEnum(UserTypeValues), true),
    Column("name", Text, true),
    Column("bio", Text, false),
    Column("avatar", Text, false),
    Column("websiteUrl", Text, false)
  ]

  const CampaignsColumns: seq<Column> := [
    Column("id", Serial, true),
    Column("companyId", Integer, true),
    Column("title", Text, true),
    Column("description", Text, true),
    Column("requirements", Text, false),
    Column("budget", Text, true),
    Column("status", TextEnum(CampaignStatusValues), true)
  ]

  const ConnectionsColumns: seq<Column> := [
    Column("id", Serial, true),
    Column("campaignId", Integer, true),
    Column("influencerId", Integer, true),
    Column("status", TextEnum(ConnectionStatusValues), true)
  ]

  /** `insertUserSchema` picks every column but `id`. */
  const InsertUserColumns: seq<Column> := UsersColumns[1..]

  /** `insertCampaignSchema` picks every column but `id` and `companyId`. */
  const InsertCampaignColumns: seq<Column> := CampaignsColumns[2..]

  /** `insertConnectionSchema` picks every column but `id`. */
  const InsertConnectionColumns: seq<Column> := ConnectionsColumns[1..]

  function Keys(cols: seq<Column>): (ks: seq<string>)
    ensures |ks| == |cols|
    ensures forall i :: 0 <= i < |cols| ==> ks[i] == cols[i].key
  {
    if cols == [] then [] else [cols[0].key] + Keys(cols[1..])
  }

  /**
   * Whether the body's value for column `c` passes the insert schema: a
   * nullable column also takes null or a missing key, and so does a `serial`
   * column, whose database default makes it optional in an insert schema;
   * otherwise the value must be a string (text), a number (integer) or one of
   * the enum's strings.
   */
  predicate FieldConforms(body: Body, c: Column) {
    match Field(body, c.key)
    case JNull => !c.notNull || c.kind.Serial?
    case JString(s) => c.kind.Text? || (c.kind.TextEnum? && s in c.kind.values)
    case JNumber(_) => c.kind.Integer? || c.kind.Serial?
    case _ => false
  }

  ghost predicate Conforms(body: Body, cols: seq<Column>) {
    forall c :: c in cols ==> FieldConforms(body, c)
  }

  /** The keys of the picked columns whose values fail; the detail of a 400 reply. */
  function Violations(body: Body, cols: seq<Column>): (r: set<string>) {
    set c | c in cols && !FieldConforms(body, c) :: c.key
  }

  lemma ViolationsNonEmpty(body: Body, cols: seq<Column>)
    requires !Conforms(body, cols)
    ensures Violations(body, cols) != {}
  {
    var c :| c in cols && !FieldConforms(body, c);
    assert c.key in Violations(body, cols);
  }

  /** Two bodies agree on the given columns, reading a missing key as null. */
  ghost predicate AgreeOn(a: Body, b: Body, cols: seq<Column>) {
    forall c :: c in cols ==> Field(a, c.key) == Field(b, c.key)
  }

  // ---------------------------------------------------------------------------
  // The insert schemas' safeParse, on typed payloads
  // ---------------------------------------------------------------------------

  /** A payload as a JSON body (an absent optional is written as null). */
  function UserBody(u: InsertUser): (r: Body) {
    map[
      "username" := JString(u.username),
      "password" := JString(u.password),
      "email" := JString(u.email),
      "userType" := JString(UserTypeName(u.userType)),
      "name" := JString(u.name),
      "bio" := Nullable(u.bio),
      "avatar" := Nullable(u.avatar),
      "websiteUrl" := Nullable(u.websiteUrl)
    ]
  }

  function CampaignBody(p: InsertCampaign): (r: Body) {
    map[
      "title" := JString(p.title),
      "description" := JString(p.description),
      "requirements" := Nullable(p.requirements),
      "budget" := JString(p.budget),
      "status" := JString(CampaignStatusName(p.status))
    ]
  }

  function ConnectionBody(p: InsertConnection): (r: Body) {
    map[
      "campaignId" := JNumber(p.campaignId),
      "influencerId" := JNumber(p.influencerId),
      "status" := JString(ConnectionStatusName(p.status))
    ]
  }

  /** A nullable text value: absent for null, the string otherwise. */
  function OptionalText(v: Json): (r: Option<string>) {
    if v.JString? then Some(v.s) else None
  }

  // The picked columns, written out.

  lemma InsertUserColumnsAre()
    ensures InsertUserColumns == [
      Column("username", Text, true), Column("password", Text, true), Column("email", Text, true),
      Column("userType", TextEnum(UserTypeValues), true), Column("name", Text, true),
      Column("bio", Text, false), Column("avatar", Text, false), Column("websiteUrl", Text, false)]
  {
  }

  lemma InsertCampaignColumnsAre()
    ensures InsertCampaignColumns == [
      Column("title", Text, true), Column("description", Text, true), Column("requirements", Text, false),
      Column("budget", Text, true), Column("status", TextEnum(CampaignStatusValues), true)]
  {
  }

  lemma InsertConnectionColumnsAre()
    ensures InsertConnectionColumns == [
      Column("campaignId", Integer, true), Column("influencerId", Integer, true),
      Column("status", TextEnum(ConnectionStatusValues), true)]
  {
  }

  // Conformance to a picked column list, field by field.

  predicate UserFieldsConform(body: Body) {
    && Field(body, "username").JString? && Field(body, "password").JString? && Field(body, "email").JString?
    && Field(body, "userType").JString? && Field(body, "userType").s in UserTypeValues
    && Field(body, "name").JString?
    && (Field(body, "bio").JNull? || Field(body, "bio").JString?)
    && (Field(body, "avatar").JNull? || Field(body, "avatar").JString?)
    && (Field(body, "websiteUrl").JNull? || Field(body, "websiteUrl").JString?)
  }

  predicate CampaignFieldsConform(body: Body) {
    && Field(body, "title").JString? && Field(body, "description").JString?
    && (Field(body, "requirements").JNull? || Field(body, "requirements").JString?)
    && Field(body, "budget").JString?
    && Field(body, "status").JString? && Field(body, "status").s in CampaignStatusValues
  }

  predicate ConnectionFieldsConform(body: Body) {
    && Field(body, "campaignId").JNumber? && Field(body, "influencerId").JNumber?
    && Field(body, "status").JString? && Field(body, "status").s in ConnectionStatusValues
  }

  lemma UserConformance(body: Body)
    ensures Conforms(body, InsertUserColumns) <==> UserFieldsConform(body)
  {
    if Conforms(body, InsertUserColumns) {
      UserFieldsFromConformance(body);
    } else if UserFieldsConform(body) {
      UserConformanceFromFields(body);
    }
  }

  lemma UserFieldsFromConformance(body: Body)
    requires Conforms(body, InsertUserColumns)
    ensures UserFieldsConform(body)
  {
    InsertUserColumnsAre();
    var cs := InsertUserColumns;
    assert FieldConforms(body, cs[0]) && FieldConforms(body, cs[1]) && FieldConforms(body, cs[2]);
    assert FieldConforms(body, cs[3]) && FieldConforms(body, cs[4]) && FieldConforms(body, cs[5]);
    assert FieldConforms(body, cs[6]) && FieldConforms(body, cs[7]);
  }

  lemma UserConformanceFromFields(body: Body)
    requires UserFieldsConform(body)
    ensures Conforms(body, InsertUserColumns)
  {
    InsertUserColumnsAre();
  }

  lemma CampaignConformance(body: Body)
    ensures Conforms(body, InsertCampaignColumns) <==> CampaignFieldsConform(body)
  {
    InsertCampaignColumnsAre();
    var cs := InsertCampaignColumns;
    if Conforms(body, cs) {
      assert FieldConforms(body, cs[0]) && FieldConforms(body, cs[1]) && FieldConforms(body, cs[2]);
      assert FieldConforms(body, cs[3]) && FieldConforms(body, cs[4]);
    }
  }

  lemma ConnectionConformance(body: Body)
    ensures Conforms(body, InsertConnectionColumns) <==> ConnectionFieldsConform(body)
  {
    InsertConnectionColumnsAre();
    var cs := InsertConnectionColumns;
    if Conforms(body, cs) {
      assert FieldConforms(body, cs[0]) && FieldConforms(body, cs[1]) && FieldConforms(body, cs[2]);
    }
  }

  // What the encoders put under each key.

  lemma UserBodyFields(u: InsertUser)
    ensures Field(UserBody(u), "username") == JString(u.username)
    ensures Field(UserBody(u), "password") == JString(u.password)
    ensures Field(UserBody(u), "email") == JString(u.email)
    ensures Field(UserBody(u), "userType") == JString(UserTypeName(u.userType))
    ensures Field(UserBody(u), "name") == JString(u.name)
    ensures Field(UserBody(u), "bio") == Nullable(u.bio)
    ensures Field(UserBody(u), "avatar") == Nullable(u.avatar)
    ensures Field(UserBody(u), "websiteUrl") == Nullable(u.websiteUrl)
  {
  }

  lemma CampaignBodyFields(p: InsertCampaign)
    ensures Field(CampaignBody(p), "title") == JString(p.title)
    ensures Field(CampaignBody(p), "description") == JString(p.description)
    ensures Field(CampaignBody(p), "requirements") == Nullable(p.requirements)
    ensures Field(CampaignBody(p), "budget") == JString(p.budget)
    ensures Field(CampaignBody(p), "status") == JString(CampaignStatusName(p.status))
  {
  }

  lemma ConnectionBodyFields(p: InsertConnection)
    ensures Field(ConnectionBody(p), "campaignId") == JNumber(p.campaignId)
    ensures Field(ConnectionBody(p), "influencerId") == JNumber(p.influencerId)
    ensures Field(ConnectionBody(p), "status") == JString(ConnectionStatusName(p.status))
  {
  }

  /**
   * `insertUserSchema.safeParse(body)`: succeeds exactly when every picked
   * column conforms, and then carries the body's values; keys that are not
   * picked are ignored. `bio`, `avatar` and `websiteUrl` are the optional ones.
   */
  function ParseUser(body: Body): (r: Result<InsertUser, set<string>>)
    ensures r.Ok? <==> Conforms(body, InsertUserColumns)
    ensures r.Err? ==> r.error == Violations(body, InsertUserColumns) && r.error != {}
    ensures r.Ok? ==> AgreeOn(body, UserBody(r.value), InsertUserColumns)
  {
    UserConformance(body);
    if UserFieldsConform(body) then
      UserDecodeAgrees(body);
      Ok(DecodeUser(body))
    else
      ViolationsNonEmpty(body, InsertUserColumns);
      Err(Violations(body, InsertUserColumns))
  }

  function DecodeUser(body: Body): (r: InsertUser)
    requires UserFieldsConform(body)
  {
    InsertUser(
      Field(body, "username").s, Field(body, "password").s, Field(body, "email").s,
      ParseUserType(Field(body, "userType").s).value, Field(body, "name").s,
      OptionalText(Field(body, "bio")), OptionalText(Field(body, "avatar")),
      OptionalText(Field(body, "websiteUrl")))
  }

  lemma UserDecodeAgrees(body: Body)
    requires UserFieldsConform(body)
    ensures AgreeOn(body, UserBody(DecodeUser(body)), InsertUserColumns)
  {
    var u := DecodeUser(body);
    UserBodyFields(u);
    InsertUserColumnsAre();
    forall c | c in InsertUserColumns
      ensures Field(body, c.key) == Field(UserBody(u), c.key)
    {
    }
  }

  /**
   * `insertCampaignSchema.safeParse(body)`: `title`, `description`, `budget`
   * and `status` are required, `requirements` is optional; `id` and
   * `companyId` are not part of the schema, so whatever the body holds under
   * them is dropped.
   */
  function ParseCampaign(body: Body): (r: Result<InsertCampaign, set<string>>)
    ensures r.Ok? <==> Conforms(body, InsertCampaignColumns)
    ensures r.Err? ==> r.error == Violations(body, InsertCampaignColumns) && r.error != {}
    ensures r.Ok? ==> AgreeOn(body, CampaignBody(r.value), InsertCampaignColumns)
  {
    CampaignConformance(body);
    if CampaignFieldsConform(body) then
      var p := InsertCampaign(
        Field(body, "title").s, Field(body, "description").s, OptionalText(Field(body, "requirements")),
        Field(body, "budget").s, ParseCampaignStatus(Field(body, "status").s).value);
      CampaignBodyFields(p);
      InsertCampaignColumnsAre();
      Ok(p)
    else
      ViolationsNonEmpty(body, InsertCampaignColumns);
      Err(Violations(body, InsertCampaignColumns))
  }

  /**
   * `insertConnectionSchema.safeParse(body)`: `campaignId`, `influencerId`
   * and `status` are all required (the three columns are not-null and have no
   * default), and `status` may be any of the three connection statuses.
   */
  function ParseConnection(body: Body): (r: Result<InsertConnection, set<string>>)
    ensures r.Ok? <==> Conforms(body, InsertConnectionColumns)
    ensures r.Err? ==> r.error == Violations(body, InsertConnectionColumns) && r.error != {}
    ensures r.Ok? ==> AgreeOn(body, ConnectionBody(r.value), InsertConnectionColumns)
  {
    ConnectionConformance(body);
    if ConnectionFieldsConform(body) then
      var p := InsertConnection(
        Field(body, "campaignId").n, Field(body, "influencerId").n,
        ParseConnectionStatus(Field(body, "status").s).value);
      ConnectionBodyFields(p);
      InsertConnectionColumnsAre();
      Ok(p)
    else
      ViolationsNonEmpty(body, InsertConnectionColumns);
      Err(Violations(body, InsertConnectionColumns))
  }

  // ---------------------------------------------------------------------------
  // Properties of the insert schemas
  // ---------------------------------------------------------------------------

  lemma OptionalTextOfNullable(o: Option<string>)
    ensures OptionalText(Nullable(o)) == o
  {
  }

  /** Encoding a payload as a body and validating it gives the payload back. */
  lemma {:induction false} UserRoundTrip(u: InsertUser)
    ensures ParseUser(UserBody(u)) == Ok(u)
  {
    UserBodyFields(u);
    EnumNamesRoundTrip(u.userType, Draft, Pending);
    OptionalTextOfNullable(u.bio);
    OptionalTextOfNullable(u.avatar);
    OptionalTextOfNullable(u.websiteUrl);
    UserConformance(UserBody(u));
  }

  lemma {:induction false} CampaignRoundTrip(p: InsertCampaign)
    ensures ParseCampaign(CampaignBody(p)) == Ok(p)
  {
    CampaignBodyFields(p);
    EnumNamesRoundTrip(Company, p.status, Pending);
    OptionalTextOfNullable(p.requirements);
    CampaignConformance(CampaignBody(p));
  }

  lemma {:induction false} ConnectionRoundTrip(p: InsertConnection)
    ensures ParseConnection(ConnectionBody(p)) == Ok(p)
  {
    ConnectionBodyFields(p);
    EnumNamesRoundTrip(Company, Draft, p.status);
    ConnectionConformance(ConnectionBody(p));
  }

  /** Overwriting a key that no picked column names changes neither conformance nor what is read. */
  lemma UnpickedKeyIgnored(body: Body, cols: seq<Column>, k: string, v: Json)
    requires forall c :: c in cols ==> c.key != k
    ensures forall c :: c in cols ==> Field(body[k := v], c.key) == Field(body, c.key)
    ensures Conforms(body[k := v], cols) == Conforms(body, cols)
    ensures Violations(body[k := v], cols) == Violations(body, cols)
  {
    forall c | c in cols
      ensures Field(body[k := v], c.key) == Field(body, c.key)
      ensures FieldConforms(body[k := v], c) == FieldConforms(body, c)
    {
    }
  }

  /**
   * The campaign insert schema does not read `id`, `companyId` or any other
   * key outside its five columns: a body that differs only there parses the same.
   */
  lemma CampaignIgnoresOtherKeys(body: Body, k: string, v: Json)
    requires k !in Keys(InsertCampaignColumns)
    ensures ParseCampaign(body[k := v]) == ParseCampaign(body)
  {
    InsertCampaignColumnsAre();
    assert forall c :: c in InsertCampaignColumns ==> c.key != k;
    UnpickedKeyIgnored(body, InsertCampaignColumns, k, v);
    CampaignConformance(body);
    CampaignConformance(body[k := v]);
    assert Field(body[k := v], "title") == Field(body, "title");
    assert Field(body[k := v], "description") == Field(body, "description");
    assert Field(body[k := v], "requirements") == Field(body, "requirements");
    assert Field(body[k := v], "budget") == Field(body, "budget");
    assert Field(body[k := v], "status") == Field(body, "status");
  }

  /** The same for the connection insert schema and its three columns. */
  lemma ConnectionIgnoresOtherKeys(body: Body, k: string, v: Json)
    requires k !in Keys(InsertConnectionColumns)
    ensures ParseConnection(body[k := v]) == ParseConnection(body)
  {
    InsertConnectionColumnsAre();
    assert forall c :: c in InsertConnectionColumns ==> c.key != k;
    UnpickedKeyIgnored(body, InsertConnectionColumns, k, v);
    ConnectionConformance(body);
    ConnectionConformance(body[k := v]);
    assert Field(body[k := v], "campaignId") == Field(body, "campaignId");
    assert Field(body[k := v], "influencerId") == Field(body, "influencerId");
    assert Field(body[k := v], "status") == Field(body, "status");
  }

  /** Neither `id` nor `companyId` is a key of the campaign insert schema. */
  lemma CampaignSchemaOmitsOwnership()
    ensures "id" !in Keys(InsertCampaignColumns) && "companyId" !in Keys(InsertCampaignColumns)
    ensures Keys(InsertCampaignColumns) == ["title", "description", "requirements", "budget", "status"]
  {
    InsertCampaignColumnsAre();
  }

  /** `influencerId` IS a key of the connection insert schema, and a required one. */
  lemma ConnectionSchemaRequiresInfluencerId(body: Body)
    requires "influencerId" !in body
    ensures ParseConnection(body).Err? && "influencerId" in ParseConnection(body).error
  {
    InsertConnectionColumnsAre();
    ConnectionConformance(body);
    assert !FieldConforms(body, InsertConnectionColumns[1]);
  }
}
