# Token lifecycle of the AAP secrets engine

The engine mints OAuth2 tokens on an Ansible Automation Platform (AAP) server, hands each one out under a
Vault lease and deletes it in AAP when the lease ends. Every call to AAP and every storage write can fail,
or can take effect without the engine learning of it, and minting does not take `configLock`, so a root
rotation can revoke the credential a mint is using. This project models that system and proves who answers
for every minted token, that revocation keeps working across rotations, and how the pieces it rests on (the
client cache, the snapshot codec, the config merge, the role locks, the request marker, the clock) behave.

## How it is organised

- `Wrappers`, `Text`, `Decimal`: shared shapes, Go's trimming, decimal text and float64 rounding of int64.
- `Client`, `Snapshot`, `ConfigWrite`, `Roles`, `Marker`, `Aap`: the pure parts and in-place loops of
  `client.go`, `revocation_config.go`, `wal.go`, `path_config.go`, `path_roles.go`, with AAP as an abstract server.
- `Protocol`: the whole system as a state machine, one step per AAP call, storage access or lock hand-over,
  each outcome chosen by the environment; any number of operations, crashes, invalidations and changes of
  operators' own credentials. `ledger` is bookkeeping: who answers for each token ever minted.
- `Invariant`, `StepKinds`, `CredsSteps`, `RevokeSteps`, `RootSteps`, `Lifecycle`: one inductive invariant and
  its preservation by every step; each step only has to respect a frame that the other operations rely on.
- `Ownership`, `Revocation`, `Effects`, `Rotations`, `Races`, `Conservation`, `Issuance`, `Windows`, `Progress`:
  the theorems about runs; `RaceRuns`: the runs in which a rotation overtakes another operation; `Refusals`: what
  becomes of refused mints; `Endpoints`: where credentials travel; `Replication`: changes from another node.
- `Clock`, `LiveLeases`, `Overtaken`: the same machine with time. `ConfigRuns`: runs of config events;
  `ConfigHistory`: every run of the whole machine is one of them.
- `Engine`: the operations as the program they are, methods of a backend object that assign its fields while
  other operations run in between (`Yield`). `Backend.Valid` says that the fields are exactly what `Protocol`
  makes of the log of everything that has happened, so every theorem about runs holds at every point of them, and that
  every answer in that log is one that a call was given: `Calls` reads the calls of AAP, storage and Vault off a run,
  and only the methods that make them add to the backend's own record.
- `RoleLocks`, `RoleStore`: the same pairing of machine and object for roles under the striped locks.

## What is assumed

- A storage write that reports an error changed nothing. A 2xx mint response that arrives is well formed, and
  any other answer that arrives means nothing was minted.
- A mint whose answer was lost has taken effect, or never will, before the sweep lists tokens.
- AAP ids are never reused; a bearer credential works while its token is live; a DELETE answers 2xx or 404 to
  a privileged identity and to the token's owner; tokens die only through the engine's DELETE calls.
- Operator-supplied credentials are not engine-minted tokens. All configurations address one AAP server.
- Request markers are fresh UUIDs of fixed length, and no token issued outside the engine carries one.

## Where the code and its documentation part

- `ARCHITECTURE.md:192-198,234-235` promises that WAL rollback covers every token whose lease was never stored,
  but for one window before the WAL entry exists. The WAL entry is deleted before Vault has the lease, so there
  is a second one, and the failed-PutWAL and sweep paths are others: `Windows.CrashIsCoveredIff` says exactly
  when a crash is covered and `Windows.CrashWindowIsReal` gives a reachable state in which it is not.
- `path_credentials.go:131-135` and `path_rotate_root.go:109-113`: best-effort revocation after a failed PutWAL
  uses only the minting credential, which a rotation may have revoked (`Races.UnloggedIsLostInRunIff`,
  `RaceRuns.UnloggedLossHappens`), and revocation falls back to the current configuration after any failure,
  not only an authentication failure.
- `secret_token.go:217-220` says that the current credential can still delete the token after a rotation. That
  holds of the credential stored at the DELETE, not of the one fetched before it: a rotation in between makes
  the attempt fail (`Races.FallbackFailsIff`, `RaceRuns.RevocationIsOvertaken`), and the next one is needed.
- Vault chooses create or update before the engine takes a lock. A create that finds something stored skips the
  rule that moving the endpoint needs a credential (`ConfigRuns.StepKeepsProvenance`, `StaleCreateHappens`) and
  resets an omitted role scope (`Roles.StaleCreateResetsScopeIff`).
- A WAL record without a configuration snapshot could never be rolled back (`Snapshot.SnapshotOfNothing`).
- `wal.go:15-17`: whether the five-minute minimum age keeps rollback away from a request depends on its role. One
  without username and application is safe with any `request_timeout`; one guard is safe below four minutes,
  both below two. Beyond, a lease can be handed out for a token already deleted (`Overtaken.LeasesAreLiveIff`).
- Clearing `tokens_api_path` lasts only until the next write, which stores the default in its place
  (`ConfigWrite.SettingsComposeIff`); both address the same path.

## Model

| member | source | states |
|---|---|---|
| Ownership.ExactlyOneAnswers | secret_token.go:121-171 | In every reachable state a live minted token is answered for by exactly one of: a lease, a WAL entry, the stored configuration, one operation in flight, or one recorded cause of loss |
| Ownership.RecordsAreDisjoint | path_credentials.go:92-120 | No id is both leased and in the WAL, none is recorded twice, and no record names the stored root token |
| Ownership.OrphansAreExplained | secret_token.go:121-169 | Every orphan of every run goes back to one step of that run: an unconfirmed sweep or DELETE, a lost root mint, a failed retry record, an operator's write or delete, or a crash |
| Ownership.StoredRootIsLive | path_rotate_root.go:73-129 | After every single step of anything, crashes and failure exits included, the stored engine-minted token is live, is the secret issued under its id, and no revocation in flight targets it |
| Lifecycle.RunKeeps | secret_token.go:59-172 | Every step of every operation, in any interleaving and with any outcome, keeps the lifecycle invariant |
| Lifecycle.TargetIsGrant | secret_token.go:200-215 | A recorded lease or WAL entry always reads back as the token granted and a client equal to the minting one |
| CredsSteps.SweepFindsOwn | client.go:379-385 | Whatever rows a sweep is given, tokens issued outside the engine among them, the exact description match leaves at most the request's own token |
| Revocation.CacheIsCoherent | backend.go:88-149 | Unless a stored change still awaits its reset, the cached client is nil or the one the stored configuration builds |
| Revocation.GetClientIsFresh | backend.go:115-149 | A getClient begun with no reset pending never yields the client of an older configuration, however the run goes on |
| Replication.InvalidationRestores | backend.go:104-112 | After another node of the cluster changed the configuration, serving the invalidation leaves a coherent node with nothing cached; every getClient begun later, in any run, yields a client no older than that change |
| Replication.StaleUntilInvalidated | backend.go:115-124 | Until then getClient hands out the client it had cached |
| Endpoints.EveryClientIsSecure | client.go:136-150 | In every reachable state, every client that is cached, in an operation's hands, or built from a stored, recorded or loaded configuration with any credential, addresses an https endpoint with a host |
| Rotations.StepRunsAs | path_rotate_root.go:73-100 | Every step but an operator's keeps the identity the engine acts as, through rotations and crashes |
| Races.AnsweredRevocationSucceeds | secret_token.go:221-243 | In any interleaving with mints, rotations, other revocations and crashes, while the engine runs as a privileged identity: a revocation whose last call is answered ends only with its token dead, or at its fallback with a client older than the stored configuration, and then changes no token and no record |
| Races.FallbackFailsIff | secret_token.go:235-242 | In any such run, an answered fallback DELETE fails if and only if the client in hand authenticates with an engine-minted root token that is no longer live |
| RaceRuns.RevocationIsOvertaken | secret_token.go:235-242 | A reachable state in which an attempt whose every call was answered fails, although the stored configuration may delete the token: one rotation killed the snapshot credential, the next one the client just fetched |
| Rotations.RevocableAfterRotations | secret_token.go:217-243 | After any interleaving with any number of rotations, the next attempt, if nothing interrupts it, deletes exactly the recorded token and discharges exactly its record, even with a dead snapshot credential |
| Rotations.StoredRunsAs | path_config.go:194-336 | In every reachable state without a root operation in flight, a stored configuration that works makes the engine run as its identity: an operator's credential, a basic-auth account or a rotated token |
| Rotations.ConfiguredEngineRunsAs | path_config.go:194-336 | And it goes on as that identity through every run in which operators leave the configuration and their credentials alone |
| Rotations.RollbackConverges | wal.go:59-81 | A pass over any set of WAL entries removes exactly those entries, kills exactly their tokens and touches nothing else |
| Rotations.FullPassEmptiesWal | wal.go:59-81 | After a full pass the WAL is empty, no recorded token is live, and deleting any of them again changes nothing |
| Aap.DeleteIsIdempotent | client.go:430-449 | A confirmed DELETE removes only its id; repeating it with any credential changes nothing and is confirmed again (section 9.2.2 of RFC 9110) |
| Conservation.RootTokensAreConserved | path_rotate_root.go:58-140 | With no rotation in flight, no crash and every mint answered, the live root tokens are the stored one and those in the WAL, reported, or given up by an operator |
| Issuance.EveryLeaseIsGuarded | secret_token.go:92-169 | In every run a lease's token is owned by the user, and bound to the application, that this very request was given: an answer to its own users, or applications, lookup, whose listing held the role's exact name once; its description in AAP tells the configured prefix and the role's description; TTLs are the role's |
| Issuance.MintBelongsToRequest | secret_token.go:77-123 | An answered mint creates one new live token, owned by the bootstrap token's user if the role has one and by the engine's identity otherwise, whose description no other minted token has and begins with the configured prefix and the role's description |
| Issuance.MintIsTagged | secret_token.go:107-118 | Every token a request mints, answered or not, carries that description |
| Issuance.RefusedMintIsCovered | secret_token.go:137-169 | While a request can still fail a guard, lose its caller or fail to clean up, no lease names its token, and a live token is named by its WAL entry |
| Refusals.AnsweredRefusalRevokes | secret_token.go:186-197 | In any interleaving, while the engine runs as a privileged identity: a request that leaves under its WAL entry, after a failed guard, a cancelled caller or a failed DeleteWAL, with its last call answered, leaves no lease and a dead token, and no entry once it came to delete it; or the root token it read has been revoked since and its entry still names the token |
| Refusals.UndoRevokesIff | secret_token.go:186-197 | An answered cleanup DELETE kills the token and leads on to deleting the entry if and only if the root token that the request read has not been revoked since |
| Refusals.UndoCommitRevokesIff | path_credentials.go:113-117 | After a failed DeleteWAL an answered DELETE kills the token under the same condition, and the entry stays |
| Refusals.OnlyCleanupLeaves | secret_token.go:137-169 | A failed guard and a cancelled caller lead to the cleanup, a failed DeleteWAL to the last resort, and nothing else ends a request that stands under its entry |
| Refusals.UndoIsOvertaken | secret_token.go:186-197 | A reachable state in which an answered cleanup fails: a rotation has revoked the credential the request read |
| Windows.CrashIsCoveredIff | secret_token.go:121-133 | After a crash a request's live token is still going to be revoked if and only if its WAL entry is in storage at that moment |
| Windows.CrashWindowIsReal | path_credentials.go:113-120 | A reachable state with a live token that no lease, WAL entry or configuration names, although nothing but the process failed |
| Races.UnloggedIsLostInRunIff | secret_token.go:128-132 | In any run of an engine that acts as a privileged identity: after a failed PutWAL and an answered DELETE the token is lost if and only if the root token its request read has been revoked since, although the stored configuration may delete it |
| RaceRuns.UnloggedLossHappens | secret_token.go:128-132 | A reachable state in which that happens, after one rotation between the mint and the failed PutWAL |
| Progress.EveryOperationCanFinish | backend.go:88-149 | No deadlock: from every reachable state every operation in flight can be finished by its own steps and those of the client lock's holder |
| Progress.ConfigLockIsReleased | path_rotate_root.go:59-60 | While configLock is held, the next step of its holder, or of the client lock's holder, brings its release closer |
| Effects.RunKeepsTokens | client.go:287-296 | No run changes the secret, owner, application or description of a minted token |
| Clock.RollbackNeverOvertakes | wal.go:15-17 | From time stamp to deletion a WAL entry sees the AAP calls of the guards its request asks for and two storage calls; while these fit into the minimum age it is still there and no rollback of it has begun |
| LiveLeases.MintsInTimeStayLive | secret_token.go:121-169 | For such a request, in every timed run, the token is live and the target of no revocation from the answered mint through both guards and the commit until Vault registers the lease |
| Clock.LeasedMintsAreSpared | path_credentials.go:113-118 | Once such a request has deleted its WAL entry, no rollback of it is ever under way |
| Overtaken.LeasesAreLiveIff | wal.go:15-17 | For every role and every configuration an operator can write: every lease that Vault registers is for a live token if and only if one AAP call limit per guard of the role and two storage limits add up to less than the minimum age |
| Engine.Backend.RotateRoot | path_rotate_root.go:58-130 | With others interleaved, a completed rotation stores a token that this call minted, live, in place of the credential of a configuration stored during the call, changing nothing else of it; the DELETE of the token it replaced was sent with the new credential, and that token is dead, recorded for retry, reported or of unknown id; it gives up or keeps the old credential only if a call failed or the configuration cannot rotate |
| Engine.Backend.RotateLocked | path_rotate_root.go:62-129 | Ends with a token it minted, whose DELETE was sent with the minting credential, reported cleaned up only if it is dead, or with it stored over a configuration found during the call, whose own token is accounted for |
| Engine.Backend.VerifyRootToken | path_rotate_root.go:84-97 | The new credential is tried; the rotation goes on to its store if it worked at that moment, otherwise to the cleanup |
| Engine.Backend.CleanupNewRootToken | path_rotate_root.go:132-140 | Sends the DELETE of the new token with the old credential, and reports it cleaned up only if it is dead; one that stays live is entered as lost to a failed cleanup |
| Engine.Backend.ResetAfterRotation | backend.go:90-94 | Leaves no cached client; if no previous token is known the rotation ends with its configuration still the stored one |
| Engine.Backend.CreateCreds | path_credentials.go:71-121 | A returned lease is new, for a token this call asked for in the role's scope and minted, with the role's TTLs and the minting configuration; no WAL entry, other lease or stored root shares its token; its owner and application are those this request's own lookups listed once under the role's exact names, its description tells the configured texts. No lease comes back only if one of its calls failed or the caller left, no client could be built, or AAP shows the token with another owner or application, whose DELETE was then sent |
| Engine.Backend.CreateToken | secret_token.go:59-172 | A token it returns was asked for and minted by this call, has the resolved owner and application and the configured description, and is named by the WAL entry returned with it, or has already been rolled back; it returns none only for the reasons of CreateCreds |
| Engine.Backend.UndoMint | secret_token.go:186-197 | Sends one DELETE with the minting credential; confirmed, the token is dead and its WAL entry gone unless deleting that failed; otherwise the entry stays while the token lives; answered for a privileged engine, it fails only to a root token revoked since |
| Engine.Backend.RevokeBestEffort | path_credentials.go:131-135 | The same single DELETE after a failed PutWAL or DeleteWAL |
| Engine.Backend.Sweep | client.go:331-399 | A nil return means that the DELETE of every id a listing showed under this description was confirmed, so the ambiguous token, if there is one, is dead or was not shown; an error means that a call failed; a token left live is entered as lost |
| Engine.Backend.GetClient | backend.go:115-149 | The client handed out is not older than what was settled at the call, and is the stored configuration's if the version is current; it fails only if its storage read did or the stored configuration yields no client |
| Engine.Backend.RevokeToken | secret_token.go:221-243 | Returns true only with the token dead; returns false only if a DELETE with the snapshot credential, if there is one, was sent and not confirmed, and getClient failed or a DELETE with the client it returned was sent and not confirmed |
| Engine.Backend.RevokeRecorded | secret_token.go:200-215 | A revocation or rollback reports success only if the token its record named is dead, and the record goes only then; it reports failure only if the recorded credential and the fallback were tried in vain, and, for a privileged engine whose calls are answered, only if a rotation overtook the fallback |
| Engine.Backend.ReadTarget | wal.go:62-81 | Lease and WAL decoding give the specified id and snapshot client or the specified error |
| Engine.Backend.WriteConfig | path_config.go:194-336 | An accepted write takes every field given over a configuration stored during the call, with an https endpoint, and is stored on return, well formed, with no cached client left; a refusal is the specified one for the stored configuration; any other error is that of a storage call or of the probe sent with the new credential |
| Engine.Backend.DeleteConfig | path_config.go:396-410 | After a delete neither a configuration nor a cached client is left; it fails only if the storage delete did |
| Engine.Backend.ProbeWrite | path_config.go:312-322 | The new credential is tried, and the write goes on to its store only if it worked at that moment |
| ConfigWrite.MergeCredentials | path_config.go:218-251 | The credential assignments yield the specified token, username, password and token id |
| ConfigWrite.SettingsComposeIff | path_config.go:253-275 | Two writes of settings amount to one in which the later value wins, if and only if the first does not clear the API path that the second leaves out; the connection is the same in any case |
| ConfigWrite.RepeatedWriteChangesNothing | path_config.go:198-319 | An accepted write sent once more as an update is accepted and changes nothing |
| ConfigWrite.MergeAndValidate | path_config.go:198-319 | The handler accepts, refuses and merges exactly as specified field by field; what it accepts takes every field given and addresses https |
| ConfigWrite.AcceptedIff | path_config.go:207-319 | A write is accepted if and only if there is something to update, a create gives an address, it gives one scheme at most, and the configuration taking its fields has one complete scheme, a bearer token for automated rotation, an https address with a host, a readable CA, and a given credential if an update moves the connection |
| ConfigWrite.AcceptedTakesFields | path_config.go:207-279 | Every field given is stored and every field left out is kept, but that a new credential drops the other scheme; the token id is kept exactly with token and connection |
| ConfigWrite.RefusedIff | path_config.go:203-310 | Which refusal a write gets, in the order of the handler's checks |
| ConfigWrite.AcceptedIsWellFormed | path_config.go:281-310 | An accepted write leaves one complete auth scheme and keeps a token id only with its own token and connection |
| ConfigWrite.RotatedIsWellFormed | path_rotate_root.go:85-87 | A rotated configuration is as well formed as the one before |
| ConfigHistory.EveryRunIsAHistory | path_config.go:194-336 | The configuration of every run of the whole machine is that of a sequence of accepted writes merged in that run, deletes and rotations; so it has one complete scheme and an id only for the secret AAP issued under it, and if no create was merged over a stored one, its secret was supplied for or minted on its connection |
| ConfigRuns.EveryRunKeepsConfig | path_config.go:194-336 | After any sequence of writes, deletes and rotations a stored configuration has one complete scheme and an id only for the secret issued under it; with timely creates its secret was supplied for or minted on its connection |
| ConfigRuns.StepKeepsProvenance | path_config.go:297-299 | A step keeps that provenance if and only if it is not a create over a stored configuration that changes the connection without a credential |
| ConfigRuns.StaleCreateHappens | path_config.go:153-159 | Such a create, with its effect |
| Client.UnchangedConnectionSameEndpoint | path_config.go:383-391 | "Connection unchanged" is an equivalence and holds exactly when the two clients differ in auth and timeout only |
| Client.BearerSwapBuilds | client.go:93-134 | Swapping in another bearer token never makes a usable connection unusable |
| Client.BuildsIff | client.go:93-150 | A client is built exactly for a non-empty address that is https with a host once trimmed, and a CA that is absent or readable |
| Client.BuiltIsSecure | client.go:93-169 | It speaks https to a host, with the configured trust settings, the given credential and a positive limit; its address is the configured one but for white space around it and slashes after it, its base path starts with a slash and does not end with one |
| Client.ResolveIdMeaning | client.go:216-232 | A lookup succeeds exactly on a listing with one row of the exact name and a positive id |
| Client.ResolveName | client.go:268-284 | The matching loop computes that lookup |
| Aap.TokenIdsByDescription | client.go:379-385 | The loop returns the specified ids in order |
| Aap.IdsWithDescriptionMeaning | client.go:379-385 | An id is returned exactly if a row lists it with this description and it is positive |
| Aap.Connection.RevokeTokensByDescription | client.go:388-399 | Only listed ids can be lost, and a nil return means all of them are |
| Aap.SweepIsExact | client.go:331-399 | Given a listing that may also show tokens issued outside the engine: a sweep that returns nil deleted only tokens of this description, and left none if and only if the listing held all of them; for a marked description it touches only engine-minted tokens |
| Marker.DescriptionsAreUnique | secret_token.go:174-184 | Descriptions of distinct requests differ for all prefixes and role descriptions, and differ from the root description |
| Marker.MintDescriptionTells | secret_token.go:107-184 | A description begins with prefix and role description, which a space parts from the marker at its end, and is the marker alone exactly if that text is blank |
| Snapshot.SnapshotRoundTrip | revocation_config.go:40-108 | A lease and a WAL record of any whole-second configuration, through JSON, revoke the same id with an equal client; only an empty address is refused |
| Snapshot.DecodedClient | revocation_config.go:71-105 | The rebuilt client equals the minting one if and only if the timeout is a whole number of seconds, and always has its credential |
| Snapshot.ConfigFromRevocationData | revocation_config.go:56-108 | The loop over destinations, in any order, decodes as specified, errors included |
| Snapshot.DecodesIff | revocation_config.go:56-108 | Stored data decodes to a configuration if and only if its address is a non-empty string, every other key present is of its kind, and the configuration is made of exactly these values and the defaults |
| Snapshot.LegacyIff | revocation_config.go:56-70 | Revocation falls back without a snapshot for data with neither address nor token, and nothing else; an absent or empty address otherwise is an error |
| Snapshot.InternalData.AddRevocationData | revocation_config.go:40-54 | Whichever JSON decoder reads it, the extended lease data decodes to the snapshot of this configuration; the other fields stay |
| Snapshot.NewWalToken | wal.go:38-57 | Whichever JSON decoder reads it, the record decodes to the snapshot of this configuration; without one it cannot be decoded |
| Snapshot.SnapshotOfNothing | wal.go:43-45 | Without a configuration a lease falls back to the current one, while a WAL record can never be rolled back |
| Snapshot.SecondsSurvive | revocation_config.go:136-158 | Seconds of any int64 duration survive JSON as float64 or number text |
| Snapshot.LegacyLeaseId | secret_token.go:281-305 | A numeric legacy id decodes to itself if and only if the number text was kept or the id is a float64; every id up to 2^53 is |
| Decimal.FormatParse | path_credentials.go:80 | Decimal print then parse is the identity on int64 and fails on nothing else |
| Decimal.FloatKeepsExactly | secret_token.go:299-301 | The float64 form is exact precisely at multiples of the spacing, so up to 2^53, and not at 2^53 + 1 |
| Roles.MergeRole | path_roles.go:188-228 | The handler merges and refuses exactly as specified, and an accepted role takes every field given |
| Roles.AcceptedTakesFields | path_roles.go:188-223 | The accepted role is the one with every field given, TTLs in seconds, every field left out as stored, and the default scope on a create |
| Roles.RefusedIff | path_roles.go:195-228 | Each refusal in terms of what is given and stored; with both TTLs given, and nothing else wrong, a write is refused if and only if max_ttl is not zero and ttl exceeds it |
| Roles.AcceptedRoleIsValid | path_roles.go:195-228 | A write is accepted if and only if the merged role has a valid scope, a bootstrap token with any username, and TTL within a non-zero MaxTTL |
| Roles.UpdatesCompose | path_roles.go:190-223 | Two updates compose field by field to one, repeating one changes nothing, and an empty one is the identity |
| Roles.StaleCreateResetsScopeIff | path_roles.go:188-194 | A create over a stored role differs from an update exactly by resetting an omitted non-default scope |
| RoleLocks.RoleOpsAreLinearizable | backend.go:96-102 | In any interleaving the stored roles and every answer are those of one serial order, and all stored roles are valid |
| RoleLocks.WroteTakesFields | path_roles.go:169-232 | Whatever ran before and beside it, a write answered as stored left, at its place in that order, the role that takes its fields over the one stored until then, and every other role alone |
| RoleLocks.CompletesInside | path_roles.go:176-177 | An operation joins that order once, by its own step, between taking and releasing its lock |
| RoleLocks.CredsFinishOnStoredRole | path_credentials.go:42-57 | A creds read finishes with the role it loaded still stored |
| RoleStore.RoleBackend.Write | path_roles.go:169-232 | With others interleaved, a write gets the answer of its place in the serial order and leaves only valid roles; answered as stored, the role took exactly its fields over the one before; storage is blamed only if it failed |
| RoleStore.RoleBackend.Delete | path_roles.go:235-244 | The same for a delete, which fails exactly if storage does |
| RoleStore.RoleBackend.ReadCredentials | path_credentials.go:42-57 | The same for a creds read, which holds its lock while it mints and blames storage exactly if the read failed |
| RoleStore.RoleBackend.LockRole | backend.go:96-102 | Returns holding the name's stripe, after its previous holder let go |
| RoleStore.RoleBackend.RenewLease | secret_token.go:247-271 | A renewal gets the present TTLs of the role named in the lease data, and is refused exactly if the data names none, or not as text, storage fails, or the role is gone; the data stored at issue names its role |

## Left out

- HTTP, TLS, `url.Parse` and PEM parsing: foreign code, parameters of `Client.Env` or one outcome per call.
- The Rotation Manager's registration calls and its parameter parsing: opaque but for whether a job is wanted.
- Error texts, warnings as strings, `truncate`, read responses, path schemas and plugin serving: nothing to prove.
- UUID generation: a parameter, assumed fresh.
- Undecodable 2xx mint bodies: they skip the sweep and leave a token behind, which the model assumes away.
- Revocation across different AAP servers whose ids collide.
- Lease TTL enforcement and lease persistence in Vault's core; the WAL kind check of `walRollback`.
- The scope, expiry and refresh fields of a token in AAP: the lifecycle does not depend on them; the scope is stated of the request that is sent.
- Lower-casing and the character set of role names: done by the framework before the handlers see them.
- Roles.TtlSeconds, ConfigWrite.TimeoutSeconds: seconds that a duration can represent, as the framework's field parser yields them.
- Clock.RollbackNeverOvertakes: takes local computation as instantaneous and an entry's age from the start of its PutWAL call; the rounding of the stored time stamp belongs to the framework.
- Rotations.RevocableAfterRotations: speaks of an attempt during which no other operation takes a step, begun with the client lock free and no reset pending; `Races.AnsweredRevocationSucceeds` and `Races.FallbackFailsIff` are the interleaved statements.
- Overtaken.LeasesAreLiveIff: the failing runs are for configurations that an operator wrote; for a rotated one only the safe direction is stated, by `LiveLeases.InTimeLeasesAreLive`.
- ConfigRuns.EveryRunKeepsConfig: one event per config operation; `ConfigHistory.EveryRunIsAHistory` carries it over to the interleaved machine.
- Replication.InvalidationRestores: changes that another node's operators make; a root rotation on another node would bring a token that this node's ledger does not know.
- Engine.Backend.GetClient: the read lock is taken alone for the check, so several readers at once are one after another.
- Engine.Backend.AwaitConfigLock: blocking is modelled as the holder running to its end, which is always possible.
