# A verified model of the fakts client lifecycle

This project models the part of the identity server that gives applications their configuration, and
proves what it promises. Applications register with a manifest (`create_client`), redeem a pre-issued
token or poll a device code; each becomes a client with an OAuth2 client, and each requirement of its
manifest is mapped to a service instance of a composition. Compositions are created from manifests and
from partners, organizations have members, invites and tailnet layers, and the OAuth2 endpoint
exchanges codes and refresh tokens.

## How it is laid out

The store is one record of tables, each a map from primary key to row (`Rows.dfy`). Every operation
has a specification, a function from the tables to the tables or the exception, and a method that works
on the tables in place and is proved to give exactly that outcome; `transaction.atomic` is a savepoint
that the method puts back when the call raises. Laws are proved about the specifications, over all
inputs, all runs or all interleavings. The specifications themselves are tied to the source by lemmas that
name none of their helpers: each answer, and each column of each row afterwards, is given by the rows of
before, the arguments and the clock (`Answers.HistoryAnswers` and the lemmas it is built from).

| files | what they hold |
|---|---|
| `Prelude`, `Rows`, `Tokens` | results, the look-ups `first()` and `get()`, the rows, the requirement digest |
| `Rendering`, `Clients`, `DeviceCodes`, `Claims` | specifications of composing, registering, redeeming, device codes and claims, and the laws of composing |
| `Invariants`, `Lifecycle`, `Traces`, `TokenTraces`, `Unambiguous` | events, runs, and what every run keeps |
| `RedeemRace`, `RaceSafety`, `RaceProgress` | concurrent redeems of one token, step by step: they serialize and they finish |
| `Requirements`, `Registrations`, `Redeeming`, `Accepting`, `Refusals`, `Answers` | the same operations said of the rows: what each answers, when it is refused and every column it leaves, in every store of every history |
| `RegistrationRace` | concurrent registrations, whose look-up and insertion nothing locks |
| `Database`, `Server` | the services as methods, and a server that works off events |
| `Compositions`, `CompositionLaws`, `CompositionTheorems`, `CompositionFrames`, `CompositionKeys`, `Manifests`, `CompositionServices` | composition manifests: specification, laws, frames, unique keys, the rows they leave, method |
| `Cascade`, `Partners` | deletion by cascade, partner approval and auto-configuration |
| `Survival`, `StaleGrant`, `SharedRole` | what survives a deletion, and inputs for what does not |
| `References`, `Histories`, `HistoryServices` | lifecycle events, manifests, partners and deletions in one history, and what every history keeps |
| `Organizations`, `OrganizationLaws`, `OrganizationAnswers`, `OrganizationServices` | memberships, invites, tailnet policies |
| `OAuth`, `OAuthRace`, `Scopes`, `Mentions` | code and token rotation, one request at a time and overlapping, scope strings, comment trees |

Proofs hide the bodies of the functions they do not need (`hide`), which keeps each of them small;
`dafny verify dfyconfig.toml` checks the whole project.

## How the source is read

- Digests (`hash_manifest`, `hash_device_id`, SHA-256, `uuid5`) and Python's `repr` are functions of which
  nothing is assumed. Client tokens, client ids, codes and the outcome of a logo download are parameters
  of each call; primary keys come from one increasing sequence.
- `first()` without an ordering is the lowest id. Rows that a loop visits in no particular order (mappings,
  aliases, layers) are visited in any order.
- Unique constraints do not see missing values, so `Only one per release, user and organization`
  (fakts/models.py:572-577) says nothing about clients without a node; that there is still at most one
  development client is proved of the runs, not assumed.
- The access filter of fakts/services/rendering.py:106-107 is read with Python's precedence: an instance
  without an allow-list admits everybody, its deny-lists notwithstanding.
- A client or a redeem token cannot be saved for a composition that does not exist, as the foreign keys at
  fakts/models.py:356 and 530 demand.
- In a race the late delete waits for the row lock, as a `DELETE` does. Several calls may so be told that the
  token has expired, where of calls made one by one the first deletes it and the others do not find it.
  This is the only difference, and it is stated exactly.

Where code and documentation disagree, the code is followed:

- The comment at fakts/services/clients.py:221 says that re-redeeming with a changed manifest updates the
  client. `validate_redeem_token` takes an existing client of the same identifier and version as it is
  and composes nothing (lines 158-168).
- `redirect_uris` at fakts/services/device_codes.py:101 is a one-element tuple, so the look-up compares the
  column with the text of a tuple and never finds a client stored with `""`. The row is found again inside
  `create_development_client`, which also replaces the token and the composition.
- `save_authorization_code` (authapp/grants.py:63-76) assigns a read-only property; codes are created by
  `accept_authorize_code` (api/management/mutations/authorize_code.py:22-63), which is what is modelled.
- `create_redeem_token` in api/management/mutations/redeem_token.py passes a column the table does not
  have; the modelled one is fakts/graphql/mutations/redeem_token.py:17-33, with expiry and
  `allow_reredeem` as further arguments.
- A staged alias may omit its challenge, but the column is not nullable: saving it raises, and the whole
  manifest with it.
- The deletion of a rejected composition also deletes an earlier composition of that identifier together
  with its clients.
- `decline_invite` does not look at the expiry. `create_ionscale_layer` creates the tailnet before the row,
  so a name that is taken leaves a tailnet without a layer.

Some properties fail of the code. The project shows the failure and says when the property holds:

- `create_client` with an empty requirement list moves a client to another composition and keeps the
  mappings into the old one (rendering.py:119-120). When the old composition is deleted those mappings go,
  and the client goes on reporting them as granted (`StaleGrant.StaleGrantIsReached`). The exact condition for
  statuses and mappings to agree is that no deletion takes a mapping from a client that stays; manifests that
  list a requirement always meet it (`Histories`).
- The cascade does not reach the OAuth2 clients of the clients it deletes (`StaleGrant.StrayIsReached`): all
  OAuth2 clients have an owner afterwards exactly when no client was deleted.
- It deletes the roles and scopes that its instances created even where other instances use them
  (`SharedRole`); what another composition's manifest asks for holds afterwards exactly when none of them is
  among its roles and scopes (`Survival`).
- Nothing locks an authorization code or a refresh token, so two overlapping requests can both be given a
  token for it; that happens exactly when one looks it up between the other's look-up and its deletion or
  revocation (`OAuthRace`).
- Nothing locks the clients that `create_development_client` looks up, and the unique constraint does not see
  a missing node, so two overlapping registrations without a node can both insert a client, after which
  registering raises; that happens exactly when one looks up between the other's look-up and its insertion
  (`RegistrationRace`). With a node the constraint refuses the second insertion.
- `hash_requirements` puts service and key together without a separator, and dots between requirements, so
  different lists can have one digest (`Tokens.ServicesCollide`, `Tokens.KeysCollide`). For keys and services
  without dots it tells all lists apart exactly when no service begins another (`Tokens.ReadsBackExactly`).
  For services with dots the condition goes one way (`Tokens.TextTellsApart`): a service may begin another if
  no label can begin after the next dot of the longer one, as with "x" and "x.y"
  (`Tokens.SpacedWithoutPrefixFree`). Beyond that it depends on how the labels of a list sort whether two that
  could be misread ever come to stand side by side.

## Model

| member | source | states |
|---|---|---|
| Answers.HistoryAnswers | fakts/services/clients.py:40-232 | from any whole store and after any history of lifecycle events, manifests, partners and deletions, each registration, issue, redeem, staging, acceptance, denial and poll is refused or answered, and changes the tables, exactly as the rows before it say, column by column |
| Answers.StepAnswers | fakts/views.py:159-232 | the same for one step from a sound store in which releases have their app and clients their release and device |
| Answers.IssueAnswers | fakts/graphql/mutations/redeem_token.py:17-33 | a token string that has a row keeps all its columns but user and composition; a new row has no client, no digest and the given expiry and policy; refused iff the composition is missing |
| Redeeming.RedeemAnswers | fakts/services/clients.py:193-232 | every answer by row, digest and clock: unknown iff no row has the string; expired, and the row deleted, iff its expiry is before now; else with a client and no or an equal digest that client, the digest recorded; else refused as changed iff a client is set and allow_reredeem is not; else a client taken and recorded with the digest, or a failure that changes nothing |
| Redeeming.Taken | fakts/services/clients.py:145-190 | the client taken is the first of the app, version, node, tenant, organization and composition without redirects, as it is; where there is none it is what registering leaves |
| Refusals.RedeemsExactly | fakts/services/clients.py:204-226 | a redeem is granted iff it is in time and the recorded client is asked for by the recorded manifest, or a client may and can be taken: the first that fits, or one that can be registered, held by no other token |
| Refusals.RegistersExactly | fakts/services/clients.py:96-142 | create_client succeeds iff the kind is development, the logo can be fetched, the user is a member of an organization with a slug, the composition exists, no other client has the token or, of another kind, the node, all named scopes exist and every requirement is met |
| Refusals.RegisteredFares | fakts/services/clients.py:133-140 | after a registration with distinct keys: declined optional keys are denied and unmapped, every other key is mapped to the lowest instance that suits the order's user and composition and granted, or optional, unmapped and unavailable |
| Registrations.RegistersAs | fakts/services/clients.py:96-142 | the rows after create_client: release, app, device, each column of the client, an OAuth2 client kept or new, the client found again iff one has the release, user, organization and node, its former scopes and exactly those named, its composition for the order's user, composition and declined keys; every other row as it was |
| Registrations.DevelopedAs | fakts/services/clients.py:40-93 | the client row that is found or inserted, column by column |
| Registrations.ScopesNamed | fakts/services/clients.py:139-140 | the scopes found are exactly the organization's scopes that are named |
| Requirements.FindsLowest | fakts/services/rendering.py:99-113 | the instance found is the lowest id in the composition whose release is of the required service and which lets the user in; none is found iff there is none |
| Requirements.ComposesAs | fakts/services/rendering.py:115-156 | each key is mapped to the lowest suitable instance of its first requirement that is not declined and has one, and reported denied, granted or unavailable by its last |
| Requirements.ComposesExactly | fakts/services/rendering.py:130-149 | composing any list succeeds iff for each required entry the instance its key is mapped to, by an entry no later than it, is its own lowest |
| Requirements.DistinctFaresAs | fakts/services/rendering.py:115-156 | with distinct keys, what becomes of each requirement by its own instances alone |
| Requirements.AutoComposesAs | fakts/services/rendering.py:115-156 | from before to after: the client's mappings, statuses and digest of the list; nothing else of it and nobody else's mappings change |
| Accepting.AcceptsAs | fakts/services/device_codes.py:85-146 | an accepted code holds the first client that fits, composed again with the declined keys, or else the client that registering with them leaves |
| Refusals.AcceptsExactly | fakts/services/device_codes.py:85-146 | accepting succeeds iff code and composition exist and, where a client fits, every requirement is met, or, where none does, the code is for a development client that can be registered |
| Accepting.PollAnswers | fakts/views.py:35-50 | every answer of a poll: error iff no row has the code; expired, and the row deleted, iff the expiry is past; denied likewise; else the token of the attached client, or pending without one |
| Accepting.EveryGrantIsTheClients | fakts/views.py:45-48 | over any run a poll hands out a token iff it is the token, at that moment, of the client attached to its unexpired, undenied code |
| Accepting.AcceptedIsPolled | fakts/views.py:35-50 | after an acceptance, whatever else happens but accepting or denying that code again, the next poll in time hands out the accepted client's token |
| Accepting.AcceptedToken | fakts/services/device_codes.py:96-146 | which is its former token if it was taken again, and the token drawn if it was registered |
| Accepting.StartsAs | fakts/services/device_codes.py:23-43 | staging succeeds iff the logo can be fetched and the code is new; each column of the new code |
| Manifests.ManifestReads | fakts/services/compositions.py:107-177 | each column written out: the composition's token, name, description and creator; each requested instance's release, by service and version, steward, organization, template and instance id; the roles and scopes it uses; each alias's host, port, ssl, path, kind and challenge; all of them the only rows of their keys |
| Manifests.PointsExactly | fakts/models.py:294-302 | placing an alias is refused iff it has no challenge, or another alias of the instance has its host, port, ssl, path and kind |
| Manifests.DeploysExactly | fakts/models.py:216-226 | deploying is refused iff another instance of the composition stands on the same device for the same release and instance id |
| CompositionServices.PutWrites | fakts/services/compositions.py:163-174 | the one alias row that is written, column by column |
| Cascade.DeletesExactly | fakts/models.py:186-188 | table by table: the rows that go are gone, the others stay as they were but for the deleted scopes, roles, users and auth keys they held |
| Partners.ConsideredExactly | fakts/models.py:59-106 | a partner is considered iff it is auto-configured, has a composition, and the owner's e-mail domain and username meet every condition listed: equal, ending so, equal, containing |
| Claims.ClaimReads | fakts/services/rendering.py:66-96 | a claim read row by row: token, statuses, scopes by name, an instance for exactly each mapping, and for exactly each of its aliases a url |
| Claims.UrlPoints | fakts/models.py:304-324 | a relative alias points to the request's host and scheme, and to the request's port if it has none; an absolute one to its own; refused iff absolute without a host |
| OrganizationAnswers.RunAnswers | karakter/models.py:307-328 | over any run every join, leave, layer, invite, acceptance, decline and cancellation is answered and changes the rows as written out, and at every moment the last policy of each layer admits a user iff some membership of its organization is that user's |
| OrganizationAnswers.CancelAnswers | karakter/graphql/mutations/invite.py:163-184 | cancelled iff the caller created it and it is pending; each refusal by its reason |
| OrganizationAnswers.CreateAnswers | karakter/graphql/mutations/invite.py:18-59 | each column of a new invite, its expiry and its roles included; refused iff the organization is missing or the token taken |
| OAuth.RunAnswers | authapp/grants.py:43-97 | over any run every answer of the token endpoint: what is refused, what raises, and each column of what is issued |
| Answers.RemovalAnswers | api/management/mutations/composition.py:31-35 | a deletion is carried out iff the caller owns the composition's organization, and else changes nothing |
| Claims.CanRenderExactly | fakts/models.py:229-246 | an instance renders iff it is there with its release and service and each absolute alias of it has a host |
| Requirements.FailsAs | fakts/services/rendering.py:130-149 | with distinct keys composing fails iff nothing suits some required key |
| Manifests.UsesAlways | fakts/services/compositions.py:151-160 | using a role or a scope is never refused |
| RaceSafety.ConcurrentRedeemsSerialize | fakts/services/clients.py:193-232 | for any number of concurrent redeems of one token and any interleaving of their steps, every answer given is that of running the calls one by one in lock order except that of the calls told "expired" only the first is told so and the others "unknown token"; with no late delete pending the tables are the serial tables |
| RaceSafety.SerialClockNeverFalls | fakts/services/clients.py:199-204 | the serial run it is compared with reads a clock that never goes back |
| RaceSafety.LateDeleteIsSafe | fakts/services/clients.py:228-232 | in every reachable state the delete outside the lock removes expired rows only |
| RaceSafety.ConcurrentGrantsAgree | fakts/services/clients.py:199-226 | without allow_reredeem all concurrent grants name one client and were made for manifests with one digest |
| RaceProgress.EveryCallFinishes | fakts/services/clients.py:193-232 | no schedule gets stuck or goes on for ever: calls take at most five steps each, and from every reachable state all of them can finish |
| RaceProgress.EnabledAdvances | fakts/services/clients.py:199-232 | every enabled step takes its own call further and touches no other; deciding and writing never find their row gone |
| RaceProgress.NeverStuck | fakts/services/clients.py:199-202 | while a call is unfinished some call can go on: the lock holder, or any call if nobody holds the lock |
| RaceSafety.ExecuteCoherent | fakts/services/clients.py:193-232 | the invariant behind these, kept by every lock, decide, write, commit, delete and tick step |
| TokenTraces.OneGrant | fakts/services/clients.py:204-226 | over any run, all grants of a token without allow_reredeem are one client and one manifest digest, those recorded on the row; a token with a client but no digest keeps its client and its first grant fixes the digest |
| TokenTraces.HashWithClient | fakts/services/clients.py:207-226 | a token that has a digest exactly when it has a client, as a fresh one does, stays so over any run, whatever other tokens there are |
| TokenTraces.StepEvolvesToken | fakts/services/clients.py:193-232 | how any step treats one token row: removed only once expired, text, expiry and policy fixed, client and digest written by grants only and never replaced without allow_reredeem |
| TokenTraces.GoneForGood | fakts/services/clients.py:228-232 | a deleted token row is never granted again and never comes back |
| Traces.TokensStayInjective | fakts/models.py:341 | in every reachable state no two redeem tokens hold the same client |
| Rendering.ComposeMeaning | fakts/services/rendering.py:99-156 | for any requirement list, repeated keys included: a key is mapped as its first satisfiable requirement asks, to the lowest eligible instance, and reported as its last requirement fares |
| Rendering.AdmitsExactly | fakts/services/rendering.py:106-108 | the access filter with its precedence: no allow-list, or listed, not denied, with an allowed group where groups are listed and no denied one |
| Rendering.ComposeDistinct | fakts/services/rendering.py:115-156 | with distinct keys a key is mapped iff it is granted, to the lowest-id eligible instance; declined optional keys are denied, every required key is granted, the rest are unavailable |
| Rendering.ComposeFails | fakts/services/rendering.py:130-149 | composing fails iff some required key has no eligible instance |
| Rendering.AgreementExactly | fakts/services/rendering.py:126-156 | with repeated keys, statuses and mappings agree iff each mapped key is listed last by a requirement that asks for what its first satisfiable one got |
| Rendering.RecomposeForgets | fakts/services/rendering.py:125-156 | after any run of composition attempts the last one alone decides mappings and statuses, or fails and changes nothing |
| Rendering.AutoComposeReplaces | fakts/services/rendering.py:125-156 | a non-empty composition replaces the client's mappings and statuses and touches no other client |
| DatabaseServices.Database.AutoCompose | fakts/services/rendering.py:115-156 | wipe and rebuild in loops; either the whole composition or, on an exception, the tables of before |
| DatabaseServices.Database.DeleteMappings | fakts/services/rendering.py:125-126 | the wipe loop removes exactly the client's mappings |
| DatabaseServices.Database.MapRequirement | fakts/services/rendering.py:133-144 | the lowest eligible instance is mapped; fails when there is none or the key maps elsewhere |
| Claims.ClaimListsGrantedKeys | fakts/services/rendering.py:66-96 | in every state reachable by registering, redeeming and accepting, the instance keys of a rendered claim are the keys whose reported status is granted |
| DatabaseServices.Database.RenderComposition | fakts/services/rendering.py:66-96 | one claim entry for every mapping; fails iff some mapped instance cannot be rendered |
| DatabaseServices.Database.RenderInstance | fakts/models.py:229-246 | every alias becomes a url; fails iff an absolute alias has no host |
| Traces.GrantedIsMapped | fakts/services/rendering.py:115-156 | granted keys are mapped keys in every reachable state, early returns with an empty requirement list included |
| Traces.OneClientPerNode | fakts/services/clients.py:40-93 | over all runs there is at most one development client per release, user, organization and node, a missing node included |
| Unambiguous.NeverAmbiguous | fakts/services/clients.py:52-53 | in a sound state, as every state of a run from one is, no step is ever refused because a look-up met two rows |
| Traces.NoStrayOAuthClients | fakts/services/clients.py:68-93 | no run leaves an OAuth2 client that no client owns, and every client keeps its own |
| Invariants.CreateClientKeeps | fakts/services/clients.py:96-142 | create_client keeps the registry sound, loses no client and leaves no OAuth2 client behind |
| RegistrationRace.OneClientExactly | fakts/services/clients.py:40-93 | over any interleaving of registrations that are all answered and that nothing else hinders: one development client per release, user, organization and node iff no fruitless look-up comes between another one's, about the same clients and without a node, and its insertion |
| RegistrationRace.NoOverlapOneClient | fakts/services/clients.py:40-93 | the safe half over every interleaving, hindered or unfinished ones included, at every point |
| RegistrationRace.TwoClientsAreReached | fakts/models.py:572-577 | two overlapping registrations that both insert, after which the next one is refused as ambiguous |
| RegistrationRace.AloneIsSerial | fakts/services/clients.py:40-93 | a look-up and a write that nothing comes between are create_development_client |
| Lifecycle.StepKeeps | fakts/services/clients.py:40-232 | every event keeps uniqueness, ownership and, with distinct keys, the agreement of statuses and mappings |
| Traces.RunKeeps | fakts/services/clients.py:40-232 | and so does every run |
| DatabaseServices.Database.CreateDevelopmentClient | fakts/services/clients.py:40-93 | find-or-create with a savepoint: its specified outcome, or an exception and the tables of before |
| DatabaseServices.Database.CreateClient | fakts/services/clients.py:96-142 | app, release, node, client, composition and scopes, all or none of them |
| DatabaseServices.Database.AddManifestScopes | fakts/services/clients.py:139-140 | the scope loop adds exactly the named scopes, and stops at one that does not exist |
| DatabaseServices.Database.GetOrCreateNode | fakts/services/clients.py:127-130 | the device row of the hashed node id, found or created |
| DatabaseServices.Database.ValidateRedeemToken | fakts/services/clients.py:145-190 | finds or creates the client and attaches it to the token, or restores every table |
| DatabaseServices.Database.RedeemToken | fakts/services/clients.py:193-232 | the whole of redeem_token, the delete outside the transaction included |
| Server.Handle | fakts/views.py:205-232 | one event handled on the database is one step of the run |
| Server.Serve | fakts/views.py:159-232 | events handled one after the other make the tables what the run says, sound, and in agreement where keys are distinct |
| Server.CreateRedeemToken | fakts/graphql/mutations/redeem_token.py:17-33 | update_or_create by the token string |
| Traces.PollsInOrder | fakts/views.py:35-50 | the answers to the polls of one code, over any run with a nondecreasing clock, form pending* granted* (expired or denied)? error* |
| Traces.NoGrantAfterEnd | fakts/views.py:35-50 | nothing is granted after the expiry or a denial |
| Traces.StageNeverFalls | fakts/views.py:35-50 | no start, accept, deny, tick or poll step takes a code back |
| DatabaseServices.Database.PollDeviceCode | fakts/views.py:159-173 | looks the code up and answers, deleting it on expiry or denial |
| DatabaseServices.Database.StartDeviceCode | fakts/services/device_codes.py:23-43 | stages a code with its expiry, or raises before any write |
| DatabaseServices.Database.ValidateDeviceCode | fakts/services/device_codes.py:85-146 | reuses or creates the client and sets it on the code, all or nothing |
| Server.AcceptCode | api/management/mutations/device_code.py:20-41 | accepts for the organization of the chosen composition |
| CompositionTheorems.ApplyTwice | fakts/services/compositions.py:107-177 | applying a manifest with distinct instance identifiers and alias names twice gives the store of applying it once |
| CompositionTheorems.ManifestHolds | fakts/services/compositions.py:107-177 | afterwards there is exactly one composition row, with the manifest's columns, one instance per request with the manifest's columns, used by its roles and scopes, and one alias per (instance, name) with the manifest's columns |
| CompositionFrames.ManifestFrame | fakts/services/compositions.py:107-177 | everything else stays: instances keep token, device, key and access lists and change only if deployed, new ones have no device, key or list, aliases change only where pointed, roles and scopes keep creator and description while used_by only grows, by instances of this manifest |
| CompositionFrames.NewGrantsOrigins | fakts/services/compositions.py:151-160 | a new role or scope is created by the instance, and described as in the manifest, where its key is first used |
| CompositionKeys.ApplyClear | fakts/services/compositions.py:115-174 | every key keeps one row, and no look-up of a manifest's application meets two |
| CompositionFrames.OthersUntouched | fakts/services/compositions.py:124-175 | another composition's instances and aliases are as they were, and no role or scope gains one of its instances |
| CompositionLaws.HoldsChangesNothing | fakts/services/compositions.py:124-175 | a part of a manifest that already holds changes nothing |
| CompositionLaws.HoldsStays | fakts/services/compositions.py:124-175 | what one part established, the later parts of the same manifest keep |
| CompositionServices.CreateCompositionFromManifest | fakts/services/compositions.py:107-177 | the nested loops give all of the manifest, or on an exception nothing |
| CompositionServices.ApplyRequest | fakts/services/compositions.py:124-175 | one turn of the outer loop: instance, roles, scopes and aliases in that order |
| CompositionServices.UpsertCompositionRow | fakts/services/compositions.py:115-127 | the composition row, found or created, with its token, defaults and owner |
| CompositionServices.UpdateOrCreateInstance | fakts/services/compositions.py:137-147 | the instance with this token, within the unique constraints |
| CompositionServices.AddRole | fakts/services/compositions.py:151-155 | the role is found or created by this instance, which becomes one of its users |
| CompositionServices.UpdateOrCreateAlias | fakts/services/compositions.py:163-174 | the alias with this name, within the unique constraint; none without a challenge |
| Cascade.Collect | fakts/models.py:186-188 | the collector terminates and finds exactly the rows that reach the composition by CASCADE foreign keys |
| Cascade.GoneIsReached | fakts/models.py:529-530 | whatever is deleted is reached from the composition |
| Cascade.GoneIsClosed | fakts/models.py:583-585 | whatever refers to a deleted row is deleted |
| Cascade.DeleteComposition | fakts/services/compositions.py:205-212 | collect, clear SET NULL references and many-to-many links, delete the rows |
| Cascade.DeleteLeavesNoDangling | karakter/models.py:95 | no reference to a composition, instance, client, alias, role, scope or auth key dangles after the deletion |
| Cascade.OtherCompositionsRemain | fakts/models.py:377-383 | every other composition remains with its instances, aliases and clients; it loses at most an auth key of the deleted one |
| Cascade.DeleteKeepsSound | fakts/models.py:331-360 | uniqueness and ownership always survive the deletion; agreement and OAuth2 clients are the next two rows |
| Cascade.DeleteAgreesExactly | fakts/models.py:583-585 | statuses and mappings agree after the deletion iff every mapping to an instance that goes is a mapping of a client that goes |
| Cascade.DeleteOwnsExactly | fakts/models.py:529-534 | every OAuth2 client has an owner after the deletion iff no client goes |
| StaleGrant.StaleGrantIsReached | fakts/services/rendering.py:119-120 | two registrations and a deletion after which a client reports a key as granted for which it has no mapping |
| StaleGrant.StrayIsReached | fakts/models.py:534 | a registration and a deletion after which an OAuth2 client has no owner |
| SharedRole.SharedRoleBreaks | karakter/models.py:91-97 | whenever two compositions ask for a role that was not there before, the second holds as its manifest says until the first is deleted, and not afterwards |
| SharedRole.SharedRoleIsReached | fakts/services/compositions.py:151-155 | two manifests for which that happens |
| Survival.RequestSurvivesExactly | karakter/models.py:95 | what a request of another composition established holds after the deletion iff no role or scope it asks for was created by an instance that goes |
| Survival.RequestSurvivesApply | fakts/services/compositions.py:107-177 | applying another composition's manifest leaves it as it is |
| Histories.HistoryKeepsWhole | fakts/services/compositions.py:107-252 | over any history of lifecycle events, manifests, partners and deletions: uniqueness, ownership and drawn keys are kept, every look-up key has one row and no reference dangles |
| Histories.AgreesExactly | fakts/services/rendering.py:115-156 | statuses and mappings agree in every store of a history iff no deletion on the way takes a mapping from a client that stays |
| Histories.ListingSpares | fakts/services/rendering.py:117-120 | where every manifest lists a requirement no deletion ever takes a mapping from a client that stays |
| Histories.ClaimListsGrantedKeys | fakts/services/rendering.py:66-96 | so the keys of a claim are the granted keys, under that condition on the deletions |
| Histories.ListingClaimsAgree | fakts/services/rendering.py:66-96 | and without it where every manifest lists its requirements, each key once |
| Histories.OwnsExactly | fakts/models.py:534 | all OAuth2 clients have an owner at the end of a history iff they had one at its start and no deletion took a client |
| Histories.OneClientPerNode | fakts/services/clients.py:40-93 | at most one development client per release, user, organization and node over any history |
| Histories.TokensStayInjective | fakts/models.py:341 | no two redeem tokens hold one client over any history |
| Histories.NeverAmbiguous | fakts/services/compositions.py:115-174 | no look-up of the lifecycle, of a manifest or of a partner meets two rows |
| Histories.OneGrant | fakts/services/clients.py:204-226 | all grants of a token without allow_reredeem are one client and one digest, whatever is created and deleted in between |
| Histories.HashWithClient | fakts/services/clients.py:207-226 | a token that has a digest exactly when it has a client stays so over any history |
| Histories.PollsInOrder | fakts/views.py:35-50 | the answers to the polls of a code keep their order although a deletion may take the code away |
| Histories.AutoConfigureIsHistory | fakts/services/compositions.py:217-252 | auto-configuration is the history of its offers, so all of this holds of it |
| References.StepKeepsReferences | fakts/models.py:356-360 | no lifecycle event makes a reference dangle, and mappings stay within their client's composition where the manifest lists a requirement |
| References.StepOnly | fakts/services/clients.py:40-232 | no lifecycle event writes another table |
| HistoryServices.Serve | api/management/mutations/composition.py:31-35 | one call of any kind, the deletion of a composition included, takes the tables to the next store of the history |
| HistoryServices.ServeAll | fakts/services/compositions.py:107-252 | any sequence of calls makes the tables those of the history, and whole |
| Partners.RejectionCleansUp | fakts/services/compositions.py:180-214 | a rejected partner's composition is gone, nothing dangles, and every other composition is there with its instances as before |
| Partners.PartnerDecides | fakts/services/compositions.py:180-214 | one partner concerns its own identifier only, which is there afterwards unless rejected, and then is not |
| Partners.ApplyKeepsReferences | fakts/services/compositions.py:107-177 | applying a manifest makes no reference dangle |
| Partners.ReturnsTheChosen | fakts/services/compositions.py:217-252 | the list returned is the in-order subsequence of the partners that are auto-configured, apply to the owner, have a composition and were not rejected |
| Partners.LastPartnerDecides | fakts/services/compositions.py:217-252 | for every identifier the last considered partner decides whether the composition exists at the end; where none was considered nothing changes |
| Partners.ReturnedCompositionsExist | fakts/services/compositions.py:217-252 | with distinct composition identifiers every returned partner's composition exists at the end |
| Survival.ReturnedCompositionsStand | fakts/services/compositions.py:217-252 | and has all its manifest asks for, where no rejected partner's composition was there at the start |
| Partners.CreateCompositionFromPartner | fakts/services/compositions.py:180-214 | create, ask, keep or delete |
| Partners.AutoConfigureKommunityPartners | fakts/services/compositions.py:217-252 | the loop over partners, with rejections passed over and other errors ending it |
| Partners.LastAt | fakts/models.py:75-76 | the e-mail domain is what follows the last at-sign |
| OrganizationLaws.PoliciesInStep | ionscale/manager.py:6-22 | after every completed operation of any run the last policy sent for each layer is the set of its organization's members |
| OrganizationLaws.NextKeeps | karakter/signals.py:63-74 | each completed operation keeps policies in step and pairs, tailnets and invite tokens unique |
| OrganizationServices.Directory.Sync | ionscale/manager.py:6-17 | sends the members of the layer's organization |
| OrganizationServices.Directory.SyncOrganizationLayers | ionscale/manager.py:20-23 | sends one such policy for every layer of the organization, in any order, and nothing else |
| OrganizationServices.Directory.CreateMembership | karakter/signals.py:63-67 | adds the row and synchronizes the layers |
| OrganizationServices.Directory.DeleteMembership | karakter/signals.py:70-74 | removes the row and synchronizes the layers |
| OrganizationServices.Directory.CreateIonscaleLayer | api/management/mutations/ionscale.py:20-45 | creates the tailnet, then the row if its name is new, then synchronizes that layer |
| OrganizationServices.Repository.UpdatePolicy | ionscale/testing.py:48-50 | appends to the record of policies |
| OrganizationLaws.AnswersAreFinal | karakter/models.py:307-328 | from any state of a run to any later one an answered invite is the same row |
| OrganizationLaws.OneMembershipPerInvite | karakter/graphql/mutations/invite.py:70-125 | over any run an invite creates at most one membership |
| OrganizationLaws.NeverMemberTwice | karakter/models.py:115-124 | nobody is a member of an organization twice in any state of a run |
| OrganizationLaws.AcceptMeaning | karakter/graphql/mutations/invite.py:70-125 | accepting is refused iff the invite is missing, answered or expired, and then changes nothing; else it returns the existing membership unchanged, or adds one with the invite's roles or the guest role |
| OrganizationLaws.NamedRolesExactly | karakter/graphql/mutations/invite.py:41-59 | an invite is issued with exactly the organization's roles that are named |
| OrganizationServices.Directory.CreateInvite | karakter/graphql/mutations/invite.py:18-59 | the invite with its expiry and roles |
| OrganizationServices.Directory.AcceptInvite | karakter/graphql/mutations/invite.py:70-125 | the steps of acceptance and the synchronization in between |
| OrganizationServices.Directory.DeclineInvite | karakter/graphql/mutations/invite.py:135-153 | a pending invite is declined, expired or not |
| OrganizationServices.Directory.CancelInvite | karakter/graphql/mutations/invite.py:163-184 | a pending invite is cancelled by its creator only |
| OAuth.HonoursOnce | authapp/grants.py:43-97 | over any serial run each code and each refresh token is honoured at most once and each chain has at most one unrevoked token |
| OAuth.HonouredInTime | authapp/models.py:160-213 | a code is honoured within 600 s of auth_time, a refresh token within 30 days and unrevoked, each for its own client; the new token keeps membership and chain |
| OAuth.CodeRefusalIsPermanent | authapp/grants.py:46-55 | a code once refused to a client is refused for ever |
| OAuth.RefreshRefusalIsPermanent | authapp/grants.py:83-90 | so is a refresh token |
| OAuth.RenewedThenRefused | authapp/grants.py:95-97 | an honoured refresh token is refused from then on |
| OAuthRace.HonouredOnceExactly | authapp/grants.py:46-97 | over any interleaving of token requests that are all answered, with fresh access tokens: no code or refresh token is honoured twice iff no look-up finds it between another request's look-up and its deletion or revocation |
| OAuthRace.NoOverlapHonoursOnce | authapp/grants.py:46-97 | the safe half over every interleaving, unfinished or not |
| OAuthRace.CodeHonouredTwice | authapp/grants.py:46-58 | an interleaving of two exchanges in which one code is honoured twice |
| OAuthRace.AloneIsSerial | authapp/grants.py:46-97 | a request whose three steps nothing comes between is the step of the serial run |
| OAuth.TokenEndpoint.ExchangeCode | authapp/grants.py:46-58 | look up, issue, delete |
| OAuth.TokenEndpoint.RenewToken | authapp/grants.py:83-97 | look up, issue, revoke |
| OAuth.TokenEndpoint.QueryAuthorizationCode | authapp/models.py:210-213 | the client's code unless it has expired |
| OAuth.TokenEndpoint.AuthenticateRefreshToken | authapp/models.py:170-177 | the token unless revoked, too old or another client's |
| Scopes.RoundTripExactly | authapp/models.py:13-24 | joining and splitting gives the list back iff no scope has a space in it or whitespace at its ends and the list is not the one empty scope |
| Scopes.JoinThenSplit | authapp/models.py:13-24 | in particular for all lists of non-empty scopes without whitespace |
| Scopes.AllowedReadsBack | authapp/models.py:89-93 | the allowed scope re-parses to the restriction of the request to the client's scopes |
| Scopes.RestrictPicks | authapp/models.py:92-93 | the restriction is the order-preserving subsequence of exactly the allowed scopes |
| Scopes.AllowedTwice | authapp/models.py:89-93 | restricting twice is restricting once |
| Mentions.Walk.RecurseExtract | komment/graphql/mutations/comment.py:30-54 | an equal copy of any nested value, with the mention nodes appended in the order of traversal |
| Mentions.ParseDescendants | komment/graphql/mutations/comment.py:11-59 | the copy and the mentions of a whole comment |
| Mentions.MentionsExactly | komment/graphql/mutations/comment.py:44-51 | every node of kind MENTION is collected, exactly once, at the place of its kind row in the order of traversal |
| Mentions.PreOrderWhenKindFirst | komment/graphql/mutations/comment.py:44-51 | where every mention has its kind first the list is in pre-order |
| Tokens.HashIgnoresOrder | fakts/services/tokens.py:19-21 | the text that is hashed for requirements depends neither on their order nor on which are optional |
| Tokens.TextTellsApart | fakts/services/tokens.py:19-21 | where keys have no dot, and a service begins another only if no label can begin after the next dot of the longer, two lists have one text iff they ask for the same keys of the same services |
| Tokens.ReadsBackExactly | fakts/services/tokens.py:19-21 | for services and keys without dots the text tells all lists apart iff no service begins another |
| Tokens.ServicesCollide | fakts/services/tokens.py:21 | two different requirements with one text, one service beginning the other |
| Tokens.KeysCollide | fakts/services/tokens.py:21 | two different lists with one text, one key with a dot |
| Tokens.SortedIsCanonical | fakts/services/tokens.py:21 | two sorted permutations of each other are equal |

## Left out

- Deletion of devices, users, organizations and releases: they clear nodes and cascade to instances, so the laws are about histories without them.
- `accept_composition_device_code`, `accept_service_device_code` and the decline mutations of device codes: they do not fit their tables; a denial is the setting of `denied`.
- Service and composition device codes: their polling is the same function; only their rows appear, as rows a cascade removes.
- `report_client`, `render_server_fakts`, authentication keys and `create_composition_auth_key`: no further state to reason about.
- HTTP parsing, GraphQL types, notifications and the partner's HTTP call: the hook's verdict is a parameter, and a partner without a hook is approved.
- Columns that are only copied (names, logos, public sources, descriptions of services, layer and scope of an alias) are part of a manifest's `details` or not modelled.
- Redirect-URI and PKCE checks and the expiry of access tokens are the OAuth library's.
- Concurrent redeems of one token are interleaved with each other and the clock, not with deletions; in `RegistrationRace` the calls of `create_development_client` that redeems, device codes and registrations make are interleaved, not what their callers write besides.
- Alias kinds other than "absolute" and "relative", and filter lists of partners that are not lists.
- The stored order of aliases in a claim and of subjects in a policy: both are sets here.
- When a whole manifest is refused is stated command by command (`Manifests.PointsExactly`, `Manifests.DeploysExactly`, `Manifests.UsesAlways`), and of a refused call that it changes nothing; which exception is raised is stated for redeems, polls, invites and tokens only.
