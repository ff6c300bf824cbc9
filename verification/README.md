# Verified model of the API-M service broker

The broker serves the Open Service Broker API (v2.14) on top of WSO2 API Manager. It keeps a local
database (instances, applications, bindings) in step with resources it creates in API-M (APIs,
applications, subscriptions). Its handlers are hand-written sagas: look up, create remotely, publish,
store a row, and compensate when something fails. The HTTP server runs them concurrently and takes no lock
between their calls. This project models that protocol, the token manager behind its API-M calls, the hash
that decides whether a repeated request is "the same", and the two retry loops.

`dafny verify dfyconfig.toml` checks the whole project.

## How it is built

**The two stores.** `Tables` has the three tables with their keys, the unique resource id, the CASCADE key
of applications and the RESTRICT key of bindings, as functions on a value and as a `Database` whose
methods update its fields. `ApiManager` has the remote side. In `Requests`, `Exec` takes a request over one
external call, together with the local code up to the next one. In `Interleaving` a run is any sequence of
arrivals and single calls, and a call may fail whenever it likes. The history kept beside a run (who created a
resource, where it was stored, which clean-up or row delete failed, which keys were issued) is bookkeeping:
no step reads it.

**What holds in every run.** `SagaInvariant` proves the invariant of all interleavings. `Lifecycle`,
`Bindings`, `RepeatedBind` and `Idempotence` draw the promises from it.

**Requests served in turn.** `Serial` shows that requests run one after the other are one
particular interleaving. `Catalog` refines them to a book: a map from instance IDs to what was asked for and
what is bound. `Outcomes` has the answer to every request, case by case on its fields, and what it leaves behind. The class in `Broker` has
the handlers as they are written, with their early returns and assignments, each proved to do what
its request does alone.

**The token manager.** `TokenSteps` is the step system of any number of callers around the read/write
lock; `TokenChain` has its invariant, `TokenPromises` what callers may rely on, and `TokenManager` the class
with its fields and loops.

**Supporting cores.** `ByteStrings`, `LittleEndian`, `Hash` and `Params` are the canonicalising parameter hash.
`BackOff`, `Client` and `Connection` are the retry loops over wrapping 64-bit arithmetic.

## Assumptions

- Identifiers are opaque, non-empty and only compared for equality, so they are natural numbers here.
- A failing remote or database call has no effect. A database statement is atomic.
- API-M gives every resource, of whatever kind, an id it never gave before. Deleting an absent
  resource, or one of another kind than the endpoint serves, fails; a delete removes exactly the resource it
  names. Nobody but the broker removes the broker's resources.
- Search calls return some id or fail. Which API or application they found plays no part in what is proved.
- The access token needed by a call is available, or the call counts as failed.
- A SHA-256 digest is represented by the bytes fed to it: equal here means equal streams.
- One step is one external call. Hashing the parameters is local to a request and atomic.
- The token manager's three field writes after a refresh are one step. They happen under the write lock, and
  the one read outside it looks at a single field, which the model reads in a step of its own.
- Answers of calls, the clock, generated UUIDs, seek failures and the value an oversized floating-point
  number converts to are parameters, quantified over in every statement.

## Where the code differs from what it says, or from what one expects

The model follows the code.

- The row of a deprovisioned application with bindings survives its API-M resource: the remote delete
  comes first and RESTRICT stops the row delete (pkg/broker/broker.go:932-938). `Bindings.DanglingExists` is a run that
  gets there without any failure, `Catalog.DanglesExactlyWhen` gives the exact condition, `Lifecycle.DanglingIsForever` the
  consequence.
- A binding can be left to an instance without keys when its instance is replaced between a Bind's
  lookup and its store. `Bindings.OnlyReplacedInstancesBreak` and `Bindings.KeysThroughoutExactlyWhen` say exactly when,
  `Bindings.KeylessBindingExists` is a run that does it.
- A repeated Bind can then be answered with empty credentials: `Bindings.EmptyKeysExactlyWhen` and, as a run,
  `Bindings.EmptyKeysAreHandedOut`.
- A repeated Provision is compared by parameters, space and organization, not by plan
  (pkg/broker/broker.go:1089-1109). `Idempotence.OtherPlanExists` is a subscription answered "already exists" because of
  an application.
- The hash writes no separators, sorts across fields and omits the version
  (pkg/apim/apim_client.go:422-439): `Params.ApiStreamMixesFields` and `Idempotence.PlansCollide`. What it does tell apart:
  `Params.ApiStreamTellsApart` and `Params.AppStreamTellsApart`.
- An update never writes the row, so the stored hash stays that of creation
  (pkg/broker/broker.go:982-1027): `Outcomes.UpdateIsAnswered`.
- A failed application update hands on the wrong error variable, so a missing application is never reported as such
  (pkg/broker/broker.go:1019-1022): `Outcomes.UpdateIsAnswered`.
- The comment on the back-off says attempt squared; the code computes two to the power of the attempt
  (pkg/client/client.go:294-297), which wraps from attempt 34 on: `BackOff.ExactlyWhenWrong` and
  `BackOff.RightAttempts`.
- A token counts as good for ten seconds after its expiry, not before it
  (pkg/token/token_manager.go:204-210): `TokenPromises.ExpiredTokenIsHandedOut`. Ten seconds is the limit:
  `TokenPromises.ReturnedTokensAreChecked` and `TokenPromises.RefreshesExactlyBeyondGrace`.
- A validity too long for a duration ends Init, but in Token the parse error is dropped and the validity becomes zero
  (pkg/token/token_manager.go:241-250): `TokenPromises.ExpiryExactlyAsGranted`.
- With no retries configured, connect makes no attempt and reports no error
  (pkg/db/db.go:148-164): `Connection.Connector.Connect`.

## Model

| member | source | states |
|---|---|---|
| Tables.Database.InsertInstance | pkg/db/db.go:57-65 | inserts unless the ID or the unique resource id is taken; otherwise changes nothing |
| Tables.Database.InsertApplication | pkg/db/db.go:68-73 | inserts unless the id is taken or no instance has that resource id |
| Tables.Database.InsertBind | pkg/db/db.go:76-83 | inserts unless the ID is taken or the instance is absent |
| Tables.Database.RemoveInstance | cmd/servicebroker/main.go:122-133 | refused while a binding refers to the row; takes the application row with it; absent rows are no error |
| Tables.Database.RemoveBind | pkg/db/db.go:197-199 | removes the row; absent rows are no error |
| Tables.StoreInstanceKeepsIntegrity | pkg/db/db.go:57-65 | storing an instance keeps resource ids unique and every child row's parent in place |
| Tables.StoreApplicationKeepsIntegrity | cmd/servicebroker/main.go:123-127 | storing an application never leaves a row without its instance |
| Tables.StoreBindKeepsIntegrity | cmd/servicebroker/main.go:128-132 | storing a binding never leaves a row without its instance |
| Tables.DeleteInstanceKeepsIntegrity | cmd/servicebroker/main.go:122-133 | CASCADE and RESTRICT together let no delete orphan an application or a binding |
| ApiManager.Server.CreateResource | pkg/apim/apim_client.go:96-104 | a create adds one live resource under an id never used, or changes nothing |
| ApiManager.Server.DeleteResource | pkg/apim/apim_client.go:269-283 | a delete removes exactly the named live resource of its kind, or changes nothing |
| SagaInvariant.EveryRunKeepsInv | pkg/broker/broker.go:125-432 | the invariant of both stores, all requests in flight and the history holds in every state of every interleaving with any failures |
| SagaInvariant.ProvisionKeepsInv | pkg/broker/broker.go:530-872 | each call of a Provision keeps it: create, publish, store and compensation |
| SagaInvariant.DeprovisionKeepsInv | pkg/broker/broker.go:874-958 | each call of a Deprovision keeps it: remote delete and row delete |
| SagaInvariant.BindKeepsInv | pkg/broker/broker.go:190-271 | each call of a Bind keeps it |
| Lifecycle.OneClassEach | pkg/broker/broker.go:530-958 | every resource ever created is referenced by a row, held by a request in flight, orphaned or removed: exactly one of these |
| Lifecycle.OneRowOneHolder | pkg/broker/broker.go:530-721 | at most one row names a resource and at most one request holds it, namely the one that created it |
| Lifecycle.RowsAreBacked | pkg/broker/broker.go:874-958 | a row's resource is live, or claimed by exactly one Deprovision of that row in flight, or that row delete failed: exactly one of these |
| Lifecycle.ClaimantRemovedResource | pkg/broker/broker.go:874-890 | a request about to delete a row removed that row's resource itself, at a definite earlier call |
| Lifecycle.DeprovisionDeletesItsOwnRow | pkg/broker/broker.go:912-938 | the row a Deprovision deletes by its ID is the one whose resource it removed, never a later one, and no other goes with it |
| Lifecycle.EveryRunExplainsRemovals | pkg/broker/broker.go:874-958 | a stored resource that is gone was removed at a definite call, one of a Deprovision of the very instance it was stored under |
| Lifecycle.OneWinner | pkg/broker/broker.go:602-721 | of all Provisions racing for one ID with no Deprovision of it, at most one succeeds; its row and resource are still there |
| Lifecycle.CompensationIsPrivate | pkg/broker/broker.go:602-633 | a loser's compensation deletes only the resource it created, which no row has ever named, and its failure is what orphans |
| Lifecycle.ProvisionIsIdempotent | pkg/broker/broker.go:1089-1109 | while a row lives a valid Provision of its ID changes nothing, and is answered "already exists" exactly when its stream, space and organization are the creator's |
| Lifecycle.DanglingIsForever | pkg/broker/broker.go:932-938 | once the resource is gone and the row delete failed, the row stays in every future |
| Bindings.OneSetOfKeys | pkg/broker/broker.go:190-271 | in any interleaving, two answered bindings of one resource have the same keys, or one is a repeated Bind that found none |
| Bindings.KeyGenerationsBalance | pkg/broker/broker.go:228-249 | key generations of a live instance's application are the lost ones, those in flight, and one more exactly if its Application row is there |
| Bindings.EveryRunCountsKeys | pkg/broker/broker.go:297-317 | in every run the generations of each resource are accounted for, whether its row lives or not |
| Bindings.OnlyReplacedInstancesBreak | pkg/broker/broker.go:220-271 | a call breaks "every binding's instance has its keys" if and only if it stores a binding whose instance now has another resource than the Bind looked up, one without an Application row |
| Bindings.KeysThroughoutExactlyWhen | pkg/broker/broker.go:220-271 | over a whole run every binding has its keys at every point if and only if no call stores one to a replaced instance |
| Bindings.KeylessBindingExists | pkg/broker/broker.go:220-271 | a run of two Provisions, a Bind and a Deprovision that leaves such a binding: the Bind answers with the keys of a resource that is gone |
| Bindings.EmptyKeysExactlyWhen | pkg/broker/broker.go:228-249 | a repeated Bind is answered with empty keys exactly when none were issued for the resource it read or that resource has lost its row; else with the keys first issued |
| Bindings.EmptyKeysAreHandedOut | pkg/broker/broker.go:228-249 | a run in which the same Bind is answered with keys first and without keys when it is sent again |
| Bindings.DanglingExists | pkg/broker/broker.go:922-938 | a run of a Provision, a Bind and a Deprovision, one after the other and no call failing, that leaves a row whose resource is gone |
| Bindings.BoundInstancesHaveKeys | pkg/broker/broker.go:220-271 | in every run in which no row is deleted from under a Bind that counts on it, every binding has its instance and keys, and every answered Bind handed out the keys first stored |
| RepeatedBind.BindingHasStorer | pkg/broker/broker.go:251-271 | in every such run, every binding was stored by a Bind answered with success, whose instance still has the resource it was answered with |
| RepeatedBind.RepeatedBindAgrees | pkg/broker/broker.go:179-249 | in every such run, a repeated Bind answered "already exists" returns exactly the resource and keys of the original Bind, also beside a Deprovision that RESTRICT refuses |
| Serial.EveryRequestIsAnswered | pkg/broker/broker.go:125-432 | however requests interleave and fail, a request that is not answered has calls left, and each call of its own uses one up |
| Serial.SevenCallsAreEnough | pkg/broker/broker.go:125-432 | however requests interleave and fail, seven of its own calls answer any request |
| Serial.AloneIsAnswered | pkg/broker/broker.go:125-432 | a request run alone with enough answers ends answered |
| Serial.ScheduleServesInTurn | pkg/broker/broker.go:125-432 | requests one after the other, as an interleaving, leave what running each alone leaves, and get the same answers |
| Serial.ScheduleIsApart | pkg/broker/broker.go:125-432 | in a serial run no row is deleted from under a Bind |
| Serial.SerialRunsAreInOrder | pkg/broker/broker.go:220-271 | after serial requests with any failures every binding has instance and keys, and generations less lost ones are one if the Application row exists, else none |
| Catalog.AloneServes | pkg/broker/broker.go:125-432 | one request run alone, with any failures, answers truly of the book and changes the book as its answer says |
| Catalog.SerialRunsRefineTheBook | pkg/broker/broker.go:125-432 | every serial run, with any failures, refines a map from instance ID to what was asked for and what is bound |
| Catalog.BookMatchesApim | pkg/broker/broker.go:530-958 | between serial requests a created resource is live exactly if a row without a failed delete names it or its compensation failed |
| Catalog.CleanRunsBiject | pkg/broker/broker.go:530-958 | with no failed row delete and no failed compensation, stored resource ids and live resources correspond one to one |
| Catalog.DanglesExactlyWhen | pkg/broker/broker.go:922-938 | a Deprovision leaves its row without a resource if and only if the remote delete works and a binding is left or the row delete fails |
| Outcomes.ProvisionSucceedsExactlyWhen | pkg/broker/broker.go:530-797 | alone, and written out on its fields, it stores one row for one new resource of its plan's kind exactly if every call works; else no row, and a resource only if its compensation failed too |
| Outcomes.ProvisionIsAnswered | pkg/broker/broker.go:125-146 | the answer to a Provision alone, case by case on its fields: each refusal, "already exists" and success exactly when |
| Outcomes.DeprovisionIsAnswered | pkg/broker/broker.go:874-958 | the answer to a Deprovision alone, case by case, and the whole state of both stores after it |
| Outcomes.BindIsAnswered | pkg/broker/broker.go:190-271 | the answer to a Bind alone, case by case on its fields: another instance's or another application's binding is refused, stored keys are handed out if there are any |
| Outcomes.BindLeaves | pkg/broker/broker.go:190-271 | what a Bind alone stores: the binding row in full exactly on first success, keys as soon as generated and stored, nothing else |
| Outcomes.UnbindIsAnswered | pkg/broker/broker.go:372-409 | the answer to an Unbind alone, case by case, and the state after it: exactly its binding goes |
| Outcomes.UpdateIsAnswered | pkg/broker/broker.go:982-1027 | the answer to an Update alone, case by case; neither store changes, and a missing resource is never reported for an application |
| Broker.APIM.Provision | pkg/broker/broker.go:125-142 | the handler does, call for call, what a Provision alone does |
| Broker.APIM.CheckInstanceWithAttributes | pkg/broker/broker.go:1089-1109 | answers early exactly when the first step of a Provision is already answered, and with that answer |
| Broker.APIM.CreateApiServiceInstance | pkg/broker/broker.go:530-587 | create, publish and store an API, with its early returns, is a Provision alone |
| Broker.APIM.PublishApi | pkg/broker/broker.go:602-615 | publishing, or deleting what could not be published, is the publish step and its compensation |
| Broker.APIM.StoreServiceInstance | pkg/broker/broker.go:619-633 | storing the row, or deleting the resource it could not be stored for, is the store step and its compensation |
| Broker.APIM.CreateAppServiceInstance | pkg/broker/broker.go:635-690 | create and store an application is a Provision alone |
| Broker.APIM.CreateSubscriptionServiceInstance | pkg/broker/broker.go:732-797 | search twice, subscribe and store is a Provision alone |
| Broker.APIM.Deprovision | pkg/broker/broker.go:148-162 | the handler does, call for call, what a Deprovision alone does |
| Broker.APIM.GetInstanceFromDB | pkg/broker/broker.go:894-909 | the row, or "does not exist", or an internal error |
| Broker.APIM.DeleteService | pkg/broker/broker.go:922-938 | remote delete, then row delete by ID, is a Deprovision alone |
| Broker.APIM.Bind | pkg/broker/broker.go:190-271 | the handler does, call for call, what a Bind alone does |
| Broker.APIM.BindToInstance | pkg/broker/broker.go:220-271 | from the instance lookup on, likewise |
| Broker.APIM.InitApplication | pkg/broker/broker.go:297-317 | generating and storing keys is those two steps, and a failure of either is the answer |
| Broker.APIM.StoreBinding | pkg/broker/broker.go:251-271 | the last step of a Bind |
| Broker.APIM.Unbind | pkg/broker/broker.go:372-393 | the handler does, call for call, what an Unbind alone does |
| Broker.APIM.Update | pkg/broker/broker.go:417-432 | the handler does, call for call, what an Update alone does |
| Broker.APIM.UpdateService | pkg/broker/broker.go:982-1027 | the lookup, the checks and the remote update, in that order |
| Idempotence.ReorderedProvisionExists | pkg/apim/apim_client.go:419-516 | provisioning an API again with its lists in another order or another version is answered "already exists" |
| Idempotence.PlansCollide | pkg/apim/apim_client.go:519-545 | an application and a subscription with the same stream |
| Idempotence.OtherPlanExists | pkg/broker/broker.go:1089-1109 | a run in which a subscription is answered "already exists" because an application has its ID |
| TokenChain.EveryRunKeepsInv | pkg/token/token_manager.go:213-254 | the invariant of lock, stored token, callers and log holds in every run |
| TokenPromises.EveryRunIsBracketed | pkg/token/token_manager.go:213-254 | every refresh is answered, and every grant stored, before the next refresh is sent |
| TokenPromises.RefreshesFormAChain | pkg/token/token_manager.go:229-250 | each refresh carries the refresh token of the latest successful response, and starts more than ten seconds after that token's expiry |
| TokenPromises.NoTokenSentAfterRedeemed | pkg/token/token_manager.go:229-264 | under a server that rotates refresh tokens, a redeemed one is never sent again |
| TokenPromises.OnlyGrantsAreStored | pkg/token/token_manager.go:233-250 | the stored token changes only when a caller stores the latest grant; a failed refresh leaves all of it |
| TokenPromises.ExpiryExactlyAsGranted | pkg/token/token_manager.go:241-250 | the stored expiry is the granted validity from now exactly when that fits a duration; else the token expires at once |
| TokenPromises.FreshAfterWaiting | pkg/token/token_manager.go:219-229 | a caller that finds the token unexpired after waiting for the write lock never sends a refresh |
| TokenPromises.RefreshesExactlyBeyondGrace | pkg/token/token_manager.go:205-233 | with the write lock, a caller goes without a refresh for good if and only if at most ten seconds have passed since the expiry |
| TokenPromises.LockIsExclusive | pkg/token/token_manager.go:213-254 | one writer or readers, never both; a finished caller holds nothing |
| TokenPromises.TokensAreNoOlder | pkg/token/token_manager.go:213-254 | a returned token was stored when the call began, or later |
| TokenPromises.SomebodyCanMove | pkg/token/token_manager.go:213-254 | unless all callers are done, one of them is not blocked |
| TokenPromises.EveryMoveCounts | pkg/token/token_manager.go:213-254 | every unblocked step lessens the steps left to all callers together |
| TokenPromises.ExpiredTokenIsHandedOut | pkg/token/token_manager.go:205-219 | a token at any time up to ten seconds past its expiry is still handed out |
| TokenPromises.ReturnedTokensAreChecked | pkg/token/token_manager.go:213-254 | in every run, a call that returns a token found one at most ten seconds past its expiry under a lock, the very one it returns if under the read lock, or was granted the one it returns |
| TokenPromises.ReturnedTokensArePicked | pkg/token/token_manager.go:213-254 | in every run, a returned token was the stored one at a step of that call, or the one just granted to it |
| TokenPromises.FailuresAreDenials | pkg/token/token_manager.go:233-237 | in every run, a call fails only because the endpoint denied the refresh it sent itself, at a definite step |
| TokenPromises.ContentExactlyWithinGrace | pkg/token/token_manager.go:205-219 | a look at the stored token under either lock is content if and only if at most ten seconds have passed since the expiry |
| TokenManager.ScopesRoundTrip | pkg/token/token_manager.go:180-194 | the server reads the very list of scopes back from the request |
| TokenManager.PasswordRefreshTokenGrantManager.CreateAccessTokenReq | pkg/token/token_manager.go:180-194 | the scope parameter is the scopes joined by single spaces |
| TokenManager.AloneIsAnswered | pkg/token/token_manager.go:213-254 | the answer to a call alone, case by case, and the token after it: it fails exactly if it looks twice in vain and is denied |
| TokenManager.PasswordRefreshTokenGrantManager.Init | pkg/token/token_manager.go:143-176 | runs once; exits exactly on a missing scope, a failed registration, a failed grant or a validity that overflows; else stores that grant |
| TokenManager.PasswordRefreshTokenGrantManager.GetToken | pkg/token/token_manager.go:213-254 | a call nobody interrupts does exactly the steps of the step system, and frees the lock; its result and the fields after it, case by case |
| TokenManager.PasswordRefreshTokenGrantManager.GetTokenExclusively | pkg/token/token_manager.go:226-236 | from the write lock on, likewise; a token another caller refreshed is returned, and failure is exactly a denied refresh |
| TokenManager.PasswordRefreshTokenGrantManager.GenerateRefreshToken | pkg/token/token_manager.go:233-264 | from the refresh call on, likewise |
| ByteStrings.SortSorts | pkg/hash/hash.go:79-90 | sorting puts strings in byte order |
| ByteStrings.LeqByFirstDifference | pkg/hash/hash.go:79-90 | byte order is a prefix, or the first byte that differs decides |
| ByteStrings.SortIsCanonical | pkg/hash/hash.go:79-90 | two lists sort alike exactly if they are permutations of each other |
| ByteStrings.ConcatInOrder | pkg/hash/hash.go:68-75 | strings are written one behind the other |
| ByteStrings.ConcatDetermines | pkg/hash/hash.go:68-75 | strings of one non-zero length can be read back although no separators are written |
| LittleEndian.DecodeEncode | pkg/hash/hash.go:107-112 | every unsigned number of a width is read back |
| LittleEndian.DecodeEncodeSigned | pkg/hash/hash.go:116-121 | every signed number of a width is read back |
| LittleEndian.FourBytes | pkg/hash/hash.go:107-121 | the four bytes one by one, least significant first, and two's complement |
| LittleEndian.EightBytes | pkg/hash/hash.go:125-139 | the eight bytes of a small number are its four, then zeros |
| LittleEndian.AddersDecode | pkg/hash/hash.go:107-139 | the bytes of the four integer adders determine the number that was added |
| Hash.ArrayStreamIgnoresOrder | pkg/hash/hash.go:79-90 | the order of a list does not show in its stream |
| Hash.ArrayStreamDetermines | pkg/hash/hash.go:79-90 | for non-empty strings of equal length two streams agree if and only if the multisets do |
| Hash.MapStreamIgnoresOrder | pkg/hash/hash.go:40-65 | however a map is iterated, the same bytes are written |
| Hash.OneEntry | pkg/hash/hash.go:40-65 | a map of one entry is written as its key and then its value |
| Hash.Manager.ResetHash | pkg/hash/hash.go:160-162 | whatever was hashed before is gone |
| Hash.Manager.AddSortedArray | pkg/hash/hash.go:68-75 | appends the strings in the order of the array |
| Hash.Manager.AddArray | pkg/hash/hash.go:79-90 | appends the strings in sorted order and leaves the caller's list alone; nothing for a nil list; an error without a hash |
| Hash.Manager.AddMap | pkg/hash/hash.go:40-65 | appends sorted keys, then their values, for whatever iteration order |
| Hash.Manager.AddString | pkg/hash/hash.go:94-103 | appends the string |
| Hash.Manager.AddUint32 | pkg/hash/hash.go:107-112 | appends the four-byte encoding |
| Hash.Manager.AddInt32 | pkg/hash/hash.go:116-121 | appends the four-byte two's complement encoding |
| Hash.Manager.AddUint64 | pkg/hash/hash.go:125-130 | appends the eight-byte encoding |
| Hash.Manager.AddInt64 | pkg/hash/hash.go:134-139 | appends the eight-byte two's complement encoding |
| Hash.Manager.AddBool | pkg/hash/hash.go:143-148 | appends one byte |
| Params.ApiStreamIgnoresOrder | pkg/apim/apim_client.go:419-516 | the stream of an API is unchanged by reordering any of its lists, its version or other unhashed fields |
| Params.ApiStreamMixesFields | pkg/apim/apim_client.go:422-439 | only the multisets of strings and of listed strings count, not which field they are in |
| Params.ApiStreamTellsApart | pkg/apim/apim_client.go:419-516 | with the same optional parts, strings of one length and listed strings of one length, APIs hash alike if and only if they use the same strings (every field named), list the same strings and agree in every hashed number and flag |
| Params.EveryStringShows | pkg/apim/apim_client.go:422-451 | under the same lengths, changing one string in any of the hashed fields changes the stream |
| Params.AppStreamTellsApart | pkg/apim/apim_client.go:519-531 | with fields of one length, applications hash alike if and only if they use the same four strings |
| Params.SubsStreamTellsApart | pkg/apim/apim_client.go:534-545 | with fields of one length, subscriptions hash alike if and only if they use the same three strings |
| Params.ValidExactlyWhen | pkg/broker/broker.go:962-980 | parameters are valid if and only if none of the required fields, named one by one, is empty |
| Params.HashingClient.GetApiParamHash | pkg/apim/apim_client.go:419-516 | the result depends on its argument alone, whatever the shared manager hashed before |
| Params.HashingClient.AddStringValues | pkg/apim/apim_client.go:421-455 | all plain strings, then those of the optional parts, as one sorted list |
| Params.HashingClient.AddListValues | pkg/apim/apim_client.go:474-496 | all string lists run together behind one empty string, as one sorted list |
| Params.HashingClient.GetAppParamHash | pkg/apim/apim_client.go:519-531 | the result depends on its argument alone |
| Params.HashingClient.GetSubsParamHash | pkg/apim/apim_client.go:534-545 | the result depends on its argument alone |
| BackOff.ExactUpTo33 | pkg/client/client.go:295-305 | up to attempt 33 the wait is two to the power of the attempt, in seconds, clamped |
| BackOff.ExactlyWhenWrong | pkg/client/client.go:295-305 | up to attempt 62 and for any bounds, the wait is right if and only if the attempt is at most 33, the bounds coincide, or the maximum is no greater than a listed constant of the attempt |
| BackOff.WrapsAsListed | pkg/client/client.go:295-297 | the constants are what the product in 64 bits comes to |
| BackOff.RightAttempts | pkg/client/client.go:295-305 | with a maximum of at most ninety-one years, the wait is right if and only if the attempt is at most 33 or 37, 41, 42, 45, 47, 50, 51 or 53 |
| BackOff.WrapsAt34 | pkg/client/client.go:295-305 | attempt 34 waits the minimum where the maximum is meant |
| BackOff.WrapsToZeroFrom55 | pkg/client/client.go:295-305 | attempts 55 to 62 wait the minimum |
| BackOff.AlwaysWithinBounds | pkg/db/db.go:105-115 | for every attempt the wait is within its bounds |
| BackOff.MonotoneUpTo33 | pkg/client/client.go:295-305 | waits never shrink up to attempt 33 |
| BackOff.ClientTotal | pkg/client/client.go:258-286 | n unclamped failures wait 2^(n+1) - 2 seconds in all |
| BackOff.DatabaseTotal | pkg/db/db.go:148-164 | n failed opens wait 2^n - 1 seconds up to six, then a minute more for each |
| Client.LastEndsTheLoop | pkg/client/client.go:256-287 | every attempt before the last met a status of 400 or more; the last met none, a lower one, or is the limit |
| Client.OnlyOneEnds | pkg/client/client.go:256-287 | no other attempt is such a last one |
| Client.Client.Do | pkg/client/client.go:256-287 | every attempt before the last met a status of 400 or more, the last met no response, a status below 400, a failed rewind, or is attempt max(1, maxRetry); the whole body is sent at every attempt after the first, and the back-off is waited after each that is to be retried |
| Client.Client.Invoke | pkg/client/client.go:151-183 | succeeds exactly if the response that ends the loop has the expected status, with a body that parses if one is wanted; the error carries the status |
| Connection.Connector.Connect | pkg/db/db.go:148-173 | fails exactly if attempts are allowed and none opens, and sleeps 2^n - 1 seconds for n failures up to six, then a minute for each |

## Left out

- HTTP, TLS, URL and request building, Base64 and JSON decoding: calls into libraries, seen only as success, failure and status.
- Client.Client.Invoke: does not model the contents of the response body, only whether it is wanted and parses.
- Tables.Database.constructor: does not model tables kept from an earlier process. A restart is a run whose requests in flight
  take no further step.
- Tables.Database.RetrieveInstance and its two siblings, Hash.Manager.Generate: plain reads, in no row above.
- Connection.Connector.Connect: does not model the log mode set on the opened connection.
- ApiManager.Server.DeleteResource: does not model other API-M users removing the broker's resources.
- TokenManager.PasswordRefreshTokenGrantManager.GetToken: does not run beside others; interleaved callers are the step system of `TokenSteps`.
- Broker.APIM.Provision: does not run beside others; interleaved requests are the step system of `Interleaving`.
- Params.HashingClient.GetApiParamHash: does not model two requests hashing at once on the shared, unlocked manager.
- SHA-256 itself, and with it any claim that different streams have different digests.
- gorm and MySQL beyond the declared keys: column lengths, transactions, NULLs, the lookup by non-empty fields.
- Panics: a missing token or request after an overwritten error, a key response without a token, a nil hash on reset.
- Labels and sequences of an API are kept by name only, since no hash looks at them.
- Dashboard URLs, the catalog and its JSON schemas, configuration, logging, graceful shutdown and the unsupported endpoints: no state worth proving.
- Fairness of the scheduler: progress of the token lock is stated as "somebody can move" and a shrinking measure.
