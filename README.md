# Influencer marketplace: schema, storage and route decisions in Dafny

This project models the server core of a small marketplace where companies
post campaigns and influencers ask to join them:

- `Schema.dfy`: the three tables (`users`, `campaigns`, `connections`), their
  text enums, and the three insert schemas built from them. Request bodies are
  JSON objects (`Body = map<string, Json>`). Each insert schema is a parser
  that either yields a typed payload or lists the keys whose values fail.
- `Tables.dfy`: the two query shapes the storage uses. They are "all rows
  where p" (`Where`) and "the first row where p" (`FirstWhere`, which models
  `const [row] = await db.select()…where(…)`).
- `Storage.dfy`: `DatabaseStorage` as a class whose fields are the three
  tables, kept as sequences in insertion order, plus the next value of each
  table's `serial` id sequence. Queries are functions that read the object.
  `createUser`, `createCampaign`, `createConnection` and
  `updateConnectionStatus` are methods that modify it. The class keeps these
  invariants: ids are unique and below their sequence's next value, and
  usernames are unique.
- `Routes.dfy`: each Express handler as a decision function. It takes the
  signed-in user (or nobody), the request and the tables, and returns either a
  reply or one storage write. `Decide` dispatches, and `Serve` performs the
  write on the storage object.
  - The access table `GateOf` and the lemmas beside the handlers state the
    check order (401, then 403, then 400) and where the caller's id
    overrides the body.
  - `AcceptedConnectionScenario` registers a company and an influencer
    with `CreateUser` (registration is not one of the modelled routes). It
    then runs posting a campaign, listing it, requesting to join, accepting
    and listing through `Serve`.

The model follows the code as written, including these gaps:

- A new connection takes whatever `status` the body holds, `accepted`
  included. It is not forced to `pending` (server/routes.ts:57-63).
- A status update does not look at the current status, so `accepted` can
  later become `rejected`.
- The status update does not check that the company owns the connection's
  campaign.
- Creating a connection does not check that the campaign exists.
- Updating a missing connection throws "Connection not found"
  (server/storage.ts:96). There is no 404 reply; the error escapes the
  handler, and the model records it as `Thrown`.

## Model

| member | source | states |
|---|---|---|
| Schema.UserTypeName | shared/schema.ts:10 | the text stored for a user type is one of `company`, `influencer` |
| Schema.ParseUserType | shared/schema.ts:10 | a text is accepted as a user type exactly when it is one of the two enum values, and it is read back as that value |
| Schema.CampaignStatusName | shared/schema.ts:24 | the text stored for a campaign status is one of `draft`, `active`, `completed` |
| Schema.ParseCampaignStatus | shared/schema.ts:24 | a text is accepted as a campaign status exactly when it is one of the three enum values, and it is read back as that value |
| Schema.ConnectionStatusName | shared/schema.ts:31 | the text stored for a connection status is one of `pending`, `accepted`, `rejected` |
| Schema.ParseConnectionStatus | shared/schema.ts:31 | a text is accepted as a connection status exactly when it is one of the three enum values, and it is read back as that value |
| Schema.EnumNamesRoundTrip | shared/schema.ts:10-31 | every value of each enum survives the trip through its text column |
| Schema.Keys | shared/schema.ts:34-57 | the keys of a column list, in order, one per column |
| Schema.ViolationsNonEmpty | shared/schema.ts:34-57 | a body that fails an insert schema has at least one failing key |
| Schema.UserConformance | shared/schema.ts:5-15 | a body conforms to the user insert schema exactly when `username`, `password`, `email`, `name` are strings, `userType` is one of the two user types, and each of `bio`, `avatar`, `websiteUrl` is a string, null or missing |
| Schema.CampaignConformance | shared/schema.ts:17-25 | a body conforms to the campaign insert schema exactly when `title`, `description`, `budget` are strings, `status` is one of the three campaign statuses, and `requirements` is a string, null or missing |
| Schema.ConnectionConformance | shared/schema.ts:27-32 | a body conforms to the connection insert schema exactly when `campaignId` and `influencerId` are numbers and `status` is one of the three connection statuses |
| Schema.ParseUser | shared/schema.ts:34-43 | `insertUserSchema` accepts a body exactly when every picked column conforms: the five not-null ones need a value of the right type, and `bio`, `avatar`, `websiteUrl` may be null or missing. A failure reports exactly the failing keys; a success carries the body's values |
| Schema.ParseCampaign | shared/schema.ts:45-51 | `insertCampaignSchema` accepts a body exactly when `title`, `description`, `budget` are strings, `status` is a campaign status and `requirements` is a string, null or missing. A failure reports exactly the failing keys; a success carries the body's values |
| Schema.ParseConnection | shared/schema.ts:53-57 | `insertConnectionSchema` accepts a body exactly when `campaignId` and `influencerId` are numbers and `status` is any of the three connection statuses. A failure reports exactly the failing keys; a success carries the body's values |
| Schema.UserRoundTrip | shared/schema.ts:34-43 | encoding a user payload as a body and validating it gives the payload back |
| Schema.CampaignRoundTrip | shared/schema.ts:45-51 | encoding a campaign payload as a body and validating it gives the payload back |
| Schema.ConnectionRoundTrip | shared/schema.ts:53-57 | encoding a connection payload as a body and validating it gives the payload back |
| Schema.UnpickedKeyIgnored | shared/schema.ts:34-57 | a key that no picked column names changes neither conformance, nor the failing keys, nor the values read |
| Schema.CampaignIgnoresOtherKeys | shared/schema.ts:45-51 | the campaign schema's result does not depend on any key outside its five columns |
| Schema.ConnectionIgnoresOtherKeys | shared/schema.ts:53-57 | the connection schema's result does not depend on any key outside its three columns |
| Schema.CampaignSchemaOmitsOwnership | shared/schema.ts:45-51 | the campaign schema's keys are exactly title, description, requirements, budget, status; `id` and `companyId` are not among them |
| Schema.ConnectionSchemaRequiresInfluencerId | shared/schema.ts:53-57 | a body without `influencerId` fails the connection schema, and `influencerId` is among the failing keys |
| Tables.Where | server/storage.ts:55-88 | a `select … where p` returns each row of the table that satisfies p, as often as the table holds it, and no other row |
| Tables.FirstWhere | server/storage.ts:40-67 | taking the first row of a `select … where p` yields a matching row of the table, or nothing exactly when no row matches. When at most one row matches, it is that row |
| Storage.SetStatus | server/storage.ts:90-95 | `update … set status where id` keeps the table's length, gives every row with the id the new status and leaves every other row as it was |
| Storage.SetStatusKeepsKeys | server/storage.ts:90-95 | the update changes no row's id, campaign id or influencer id |
| Storage.SetStatusMissing | server/storage.ts:90-96 | with no row under the id, the update leaves the table as it was |
| Storage.SetStatusOverwrites | server/storage.ts:90-95 | the update ignores the current status: a second update overwrites the first, and repeating an update changes nothing |
| Storage.SetStatusReturning | server/storage.ts:91-96 | with unique ids, the row `.returning()` yields is the old row with that id given the new status, or nothing when no row had it; ids stay unique |
| Storage.SetStatusKeepsTable | server/storage.ts:90-95 | the update keeps the connections table's invariant |
| Storage.UsersTable | shared/schema.ts:5-15 | the users table's invariant: every id is positive and below the `serial` sequence's next value, ids are unique (primary key), and usernames are unique (`.unique()`) |
| Storage.CampaignsTable | shared/schema.ts:17-25 | the campaigns table's invariant: every id is positive and below the sequence's next value, and ids are unique (primary key) |
| Storage.ConnectionsTable | shared/schema.ts:27-32 | the connections table's invariant: every id is positive and below the sequence's next value, and ids are unique (primary key) |
| Storage.DatabaseStorage.Valid | shared/schema.ts:5-32 | the storage's invariant is the three table invariants together. The id and username lookups rely on it for uniqueness, and every write requires it and keeps it |
| Storage.DatabaseStorage.constructor | server/storage.ts:30-38 | the storage starts with empty tables, and every id sequence starts at 1. This stands for a fresh database: the source constructor only builds the session store and attaches to whatever the database already holds |
| Storage.DatabaseStorage.GetUser | server/storage.ts:40-43 | the user with the id, or absent exactly when no user has it |
| Storage.DatabaseStorage.GetUserByUsername | server/storage.ts:45-48 | the user with the username, or absent exactly when no user has it; since usernames are unique, it is that user |
| Storage.DatabaseStorage.GetUsersByType | server/storage.ts:55-57 | exactly the users whose stored type text equals the argument; a text that names no type selects nobody |
| Storage.DatabaseStorage.CreateUser | server/storage.ts:50-53 | fails with a unique violation on `username`, and changes nothing, exactly when the username is taken. Otherwise it appends the user under an id above every existing one, with the given fields; the user is then found by id and by username, and the other tables are unchanged |
| Storage.DatabaseStorage.GetCampaign | server/storage.ts:64-67 | the campaign with the id, or absent exactly when no campaign has it |
| Storage.DatabaseStorage.GetCampaignsByCompany | server/storage.ts:69-71 | exactly the campaigns of that company |
| Storage.DatabaseStorage.GetActiveCampaigns | server/storage.ts:73-75 | exactly the campaigns whose status is `active`; no draft and no completed one |
| Storage.DatabaseStorage.CreateCampaign | server/storage.ts:59-62 | appends the campaign as given, under an id above every existing one; it can then be found by id, and the other tables are unchanged |
| Storage.DatabaseStorage.GetConnection | server/storage.ts:90-96 | the connection with the id, or absent exactly when no connection has it (the lookup that `.returning()` stands for) |
| Storage.DatabaseStorage.GetConnectionsByInfluencer | server/storage.ts:82-84 | exactly the connections of that influencer |
| Storage.DatabaseStorage.GetConnectionsByCampaign | server/storage.ts:86-88 | exactly the connections to that campaign |
| Storage.DatabaseStorage.CreateConnection | server/storage.ts:77-80 | appends the connection as given, with no check that its campaign or influencer exists, under an id above every existing one; it can then be found by id, and the other tables are unchanged |
| Storage.DatabaseStorage.UpdateConnectionStatus | server/storage.ts:90-98 | the table becomes the old one with that id's status replaced. The call fails with "Connection not found", leaving the table unchanged, exactly when no connection had the id; otherwise it returns the old row with the new status. The other tables are unchanged |
| Routes.ProfileRoute | server/routes.ts:11-15 | open to everyone; 404 "User not found" exactly when no user has the id, otherwise 200 with the stored user, password included |
| Routes.UsersRoute | server/routes.ts:18-21 | open to everyone; 200 with exactly the users whose type text is the path parameter |
| Routes.CreateCampaignRoute | server/routes.ts:24-36 | 401 for no session, then 403 for a non-company, then 400 with the failing keys. A write happens exactly for a company with a conforming body; it stores the parsed fields with `companyId` set to the caller's id |
| Routes.ActiveCampaignsRoute | server/routes.ts:38-42 | 401 for no session; otherwise 200 with exactly the active campaigns |
| Routes.CompanyCampaignsRoute | server/routes.ts:44-50 | 401, then 403 for a non-company; otherwise 200 with exactly the caller's campaigns |
| Routes.CreateConnectionRoute | server/routes.ts:53-65 | 401, then 403 for a non-influencer, then 400 with the failing keys. A write happens exactly for an influencer with a conforming body; it stores the body's campaign id and status with `influencerId` set to the caller's id |
| Routes.InfluencerConnectionsRoute | server/routes.ts:67-73 | 401, then 403 for a non-influencer; otherwise 200 with exactly the caller's connections |
| Routes.CampaignConnectionsRoute | server/routes.ts:75-79 | 401 for no session; otherwise 200 with exactly the campaign's connections, for any caller |
| Routes.ConnectionStatusRoute | server/routes.ts:81-92 | 401, then 403 for a non-company. Then, for a company, a status write happens exactly when the body's `status` is the text `accepted` or `rejected` (that status, for the path's id); anything else is 400 "Invalid status" |
| Routes.GateOf | server/routes.ts:11-92 | the access table: profile and user lists are open; active campaigns and a campaign's connections need a session; creating and listing one's own campaigns and updating a status need a company; creating and listing one's own connections need an influencer |
| Routes.Admits | server/routes.ts:25-83 | a caller passes an open gate always, a session gate when signed in, and a role gate when signed in with that role |
| Routes.Decide | server/routes.ts:11-92 | across all routes: 401 exactly when the route is gated and nobody is signed in; 403 exactly when the route needs a role the caller lacks; a write only on its own route and only for an admitted caller; a status write only with `accepted` or `rejected` |
| Routes.Serve | server/routes.ts:11-92 | a reply is sent, and leaves the tables unchanged. A campaign or connection write appends exactly the decided row under a fresh id and sends it; it advances only that table's id sequence and leaves the other tables and sequences unchanged. A status write applies the update, leaves every sequence and the other tables unchanged, and sends the updated row. When that id has no row, it leaves the connections table unchanged and lets "Connection not found" escape |
| Routes.CampaignOwnerForced | server/routes.ts:28-34 | whatever the body holds under `companyId`, creating a campaign decides the same |
| Routes.InfluencerIdOverwritten | server/routes.ts:57-63 | when the body's `influencerId` is a number, replacing it with any other number decides the same: the caller's id is written instead |
| Routes.ConnectionStatusTakenFromBody | server/routes.ts:57-63 | an influencer can create a connection in any status, `accepted` included, for any campaign id; the write carries that status and campaign id with the caller's own id |
| Routes.StatusUpdateIgnoresOwnership | server/routes.ts:81-92 | every company gets the same decision on a status update; there is no ownership check |
| Routes.CampaignConnectionsIgnoreCaller | server/routes.ts:75-79 | every signed-in caller gets the same list of a campaign's connections |
| Routes.ChecksPrecedeValidation | server/routes.ts:24-58 | without a session both creating routes answer 401 whatever the body; with the wrong role they answer 403 whatever the body |
| Routes.AcceptedConnectionScenario | server/routes.ts:24-92 | a company and an influencer are created with `CreateUser` (registration is not a modelled route). Then, all through `Serve`, the campaign is posted and listed, and the request is made and accepted. The influencer's own list then holds an accepted connection |
| Routes.RegisterBoth | server/storage.ts:50-53 | on empty storage, a company and an influencer with distinct usernames both register: the users table becomes exactly those two rows, with distinct ids, and the other tables are unchanged |
| Routes.PostActiveCampaign | server/routes.ts:24-36 | a company's posted campaign is stored as active and owned by it |
| Routes.JoinCampaign | server/routes.ts:38-65 | an influencer finds the active campaign in the listing, and its request is stored as pending against that campaign under its own id |
| Routes.ListCampaignConnections | server/routes.ts:75-79 | listing a campaign's connections through `Serve` changes nothing and sends exactly that campaign's connections |
| Routes.AcceptRequest | server/routes.ts:75-92 | the company finds the pending request on the campaign, and accepting it stores it as accepted |
| Routes.ListOwnConnections | server/routes.ts:67-73 | the influencer's listing changes nothing and sends exactly its own connections |

## Left out

- The session store and its `PostgresSessionStore` (server/storage.ts:30-38) are left out. So are registration, login and hashing: `setupAuth` lives in server/auth.ts, which is not part of this model. A request carries the signed-in user, or nobody, as a parameter.
- The database is left out: the connection pool, asynchrony and concurrency. Each storage call is one atomic step on in-memory tables.
- Foreign keys (`references`, shared/schema.ts:19,29-30) are not modelled. The campaign route sets `companyId` to the caller's own id, so its foreign key always holds. The connection route, however, writes the body's `campaignId` unchecked (server/routes.ts:60-63). For a campaign that does not exist, the database would refuse the insert and the request would fail; the model appends the row anyway.
- The enum columns (`user_type` and both `status` columns, shared/schema.ts:10,24,31) are plain `text` in the database: drizzle's `enum` option fixes only the TypeScript type, and no check constraint is created. The model types them as closed datatypes, so a stored value outside the enum cannot be expressed. Within the modelled routes, every write is validated first (server/routes.ts:28,57,86). For users the assumption rests on registration, which is not modelled. A stored `user_type` outside the enum would get 403 from both role checks (server/routes.ts:26,55).
- Query results are specified up to order (as multisets), because the queries have no `ORDER BY`.
- JSON numbers are integers only. Fractional numbers, and `parseInt` on a path parameter that is not a number (`NaN`), are not modelled: path ids arrive as integers.
- Schema.ParseConnection: accepts any integer for `campaignId` and `influencerId`. The 32-bit range of the Postgres `integer` and `serial` columns (shared/schema.ts:6,18-19,28-30) is not modelled. Outside it, the source fails the request: the database refuses the value, or some drizzle-zod versions answer 400. The model writes the row.
- Storage.DatabaseStorage.CreateConnection: stores whatever integer ids it is given, with no 32-bit bound, for the same reason.
- Storage.DatabaseStorage.CreateUser: strings are Dafny strings, so a text value holding U+0000 is stored. Postgres `text` cannot hold that character: the database refuses the insert and the call throws.
- Storage.DatabaseStorage.CreateCampaign: a `title`, `description`, `requirements` or `budget` holding U+0000 is appended. The database refuses the insert and the call throws.
- Storage.DatabaseStorage.GetUserByUsername: a username holding U+0000 is compared like any other and reads as absent. The database refuses the query and the call throws.
- Storage.DatabaseStorage.GetUsersByType: a type text holding U+0000 (for instance from the path `/api/users/%00`) selects nobody, so the route answers 200 with an empty list. The database refuses the query and the call throws.
- Storage.DatabaseStorage.GetUser: an id outside the 32-bit range answers "absent" (so `Routes.ProfileRoute` answers 404); the database would raise an error instead. The same holds for Storage.DatabaseStorage.GetConnectionsByCampaign and Storage.DatabaseStorage.UpdateConnectionStatus, whose ids come from the path.
- A body that is not a JSON object is not modelled; nor is the exact shape of the Zod error object. A 400 reply carries the set of failing keys instead.
- What Express does with the error thrown by a status update on a missing connection is left out; the model ends at `Thrown("Connection not found")`.
- Storage.DatabaseStorage.CreateUser: a failed insert does not advance the id sequence, although a database sequence would skip a value. Ids are still fresh and increasing.
- The client pages under client/src are not part of this model.
