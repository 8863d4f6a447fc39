/** The rows of the database and the tables that hold them.
    A table is a map from primary key to row; every primary key comes from one
    increasing sequence `nextId`, so a key is never used twice. */
module Rows {
  import opened Prelude

  datatype Requirement = Requirement(key: string, service: string, optional: bool)

  /** A client manifest; `details` stands for the fields the services only copy. */
  datatype Manifest = Manifest(
    identifier: string, version: string, logo: Option<string>, scopes: seq<string>,
    requirements: seq<Requirement>, nodeId: Option<string>, details: string)

  /** The digests of the source and Python's `repr`, of which nothing but their being functions is assumed. */
  datatype Crypto = Crypto(
    manifestHash: Manifest -> string,
    deviceHash: (string, nat) -> string,
    sha256: string -> string,
    uuid5: string -> string,
    repr: string -> string)

  datatype Error =
    | LogoDownload
    | UnsupportedKind
    | NoMembership
    | NoScope
    | NoInstance(service: string)
    | NoCode
    | Ambiguous
    | Integrity
    | Unrenderable
    | NoConfiguration
    | Rejected

  datatype Kind = Development | Website | Desktop
  datatype Role = Interface | Agent
  datatype Status = Granted | Denied | Unavailable

  datatype Organization = Organization(slug: string, owner: nat)
  datatype Membership = Membership(user: nat, organization: nat, roles: set<nat>, createdThrough: Option<nat>)
  /** `karakter.Role` and `karakter.Scope` have the same columns. */
  datatype Grant = Grant(organization: nat, identifier: string, description: Option<string>,
                         creatingInstance: Option<nat>, usedBy: set<nat>)

  datatype App = App(identifier: string, logo: Option<string>)
  datatype Release = Release(app: nat, version: string, logo: Option<string>, scopes: seq<string>,
                             requirements: seq<Requirement>)
  datatype Device = Device(organization: nat, nodeId: string)
  datatype OAuthClient = OAuthClient(clientId: string)
  datatype Client = Client(
    release: nat, user: nat, tenant: nat, organization: nat, membership: nat, node: Option<nat>,
    token: string, kind: Kind, role: Role, oauthClient: nat, redirectUris: string,
    composition: Option<nat>, manifest: Manifest, requirementsHash: string,
    statuses: map<string, Status>, scopes: set<nat>)

  datatype RedeemToken = RedeemToken(
    token: string, user: nat, composition: nat, client: Option<nat>,
    expiresAt: Option<int>, manifestHash: Option<string>, allowReredeem: bool)
  datatype DeviceCode = DeviceCode(
    code: string, manifest: Manifest, kind: Kind, role: Role, redirectUris: seq<string>,
    expiresAt: int, denied: bool, client: Option<nat>)

  datatype Composition = Composition(organization: nat, identifier: string, token: string, name: string,
                                     description: string, creator: nat, authKey: Option<nat>)
  datatype Service = Service(identifier: string)
  datatype ServiceRelease = ServiceRelease(service: nat, version: string)
  datatype Instance = Instance(
    composition: nat, release: nat, token: string, instanceId: string, steward: nat, organization: nat,
    template: string, device: Option<nat>, publicKey: Option<string>,
    allowedUsers: set<nat>, deniedUsers: set<nat>, allowedGroups: set<nat>, deniedGroups: set<nat>)
  datatype AliasKind = Absolute | Relative
  datatype Alias = Alias(instance: nat, name: string, host: Option<string>, port: Option<int>, ssl: bool,
                         path: Option<string>, kind: AliasKind, challenge: string)

  // Rows that only matter because they refer to rows a deletion removes.
  datatype UsedAlias = UsedAlias(client: nat, alias: Option<nat>)
  datatype CodeRow = CodeRow(target: Option<nat>)

  /** The table of service-instance mappings is keyed by its unique constraint (client, key). */
  datatype Tables = Tables(
    nextId: nat,
    organizations: map<nat, Organization>,
    groups: map<nat, set<nat>>,
    memberships: map<nat, Membership>,
    roles: map<nat, Grant>,
    scopes: map<nat, Grant>,
    apps: map<nat, App>,
    releases: map<nat, Release>,
    devices: map<nat, Device>,
    oauthClients: map<nat, OAuthClient>,
    clients: map<nat, Client>,
    mappings: map<(nat, string), nat>,
    tokens: map<nat, RedeemToken>,
    codes: map<nat, DeviceCode>,
    compositions: map<nat, Composition>,
    services: map<nat, Service>,
    serviceReleases: map<nat, ServiceRelease>,
    instances: map<nat, Instance>,
    aliases: map<nat, Alias>,
    usedAliases: map<nat, UsedAlias>,
    permissions: map<nat, nat>,
    serviceCodes: map<nat, CodeRow>,
    compositionCodes: map<nat, CodeRow>,
    authKeys: map<nat, CodeRow>)

  /** A database without rows. */
  function NoTables(): Tables {
    Tables(0, map[], map[], map[], map[], map[], map[], map[], map[], map[], map[], map[], map[], map[], map[], map[],
           map[],
           map[], map[], map[], map[], map[], map[], map[])
  }

  /** A non-empty optional string: what Python's `if value:` tests. */
  predicate Truthy(value: Option<string>) {
    value.Some? && value.value != ""
  }

  /** Registering touches the registry tables only; the sequence never goes back. */
  predicate OnlyRegistry(t: Tables, u: Tables) {
    && t.nextId <= u.nextId
    && u == t.(nextId := u.nextId, apps := u.apps, releases := u.releases, devices := u.devices,
               oauthClients := u.oauthClients, clients := u.clients, mappings := u.mappings)
  }
}
