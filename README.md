# Songbird_SNS push bulb, modelled in Dafny

This project models the core of the `Songbird_SNS` bulb, the Amazon SNS push-notification
back end of the Songbird notification service in the Vineyard framework. The bulb keeps
one push endpoint per registered device. The TypeScript source is
`vineyard-songbird-sns.ts`; `vineyard-songbird-sns.js` is its compiled form, from a
slightly different revision. The model covers four parts:

- **The platform registry.** `create_platform` and `get_platform` form a map from
  platform name to SNS handle. `grow` fills it from the configured Android and iOS
  application ARNs.
- **The registration reconciler.** `on_login` calls `register`, which does one of three
  things:
  - keeps the device's stored endpoint;
  - creates a new endpoint;
  - replaces the endpoint: it deletes the remote endpoint, deletes the `push_targets`
    row, and creates a fresh endpoint with its row.

  The choice depends on the stored row for the device and on the provider's `Enabled`
  attribute for that endpoint.
- **Payload shaping.** `send_to_endpoint` wraps the message in the iOS `aps` envelope or
  the `GCM` envelope.
- **Fan-out and publish.** `send` calls `send_to_endpoint` once for each of the user's
  rows and joins the results like `when.all`. Each `publish` emits exactly one event.

The bulb is modelled as the class `Songbird.SongbirdSns`. Its fields are:

- the platform registry;
- the `push_targets` table, as a sequence of rows;
- the provider's endpoints, each mapped to its `Enabled` attribute;
- an append-only trace of every store query, provider call and emitted event.

Each method that changes state is proved equal to a pure effect function over a `State`
value, and the properties are lemmas about those functions.

Store and provider outcomes are inputs: a fault, the endpoint `addUser` creates, or the
reply `sns.publish` gives to the k-th publish of a call. The shared value types are in
separate modules:

- `Outcomes`: Option, Result and the three error kinds;
- `Json`;
- `PushTargets`: the table and its queries;
- `Payload`;
- `Registry`;
- `Effects`: the state and one step function per store or provider call.

The TypeScript `register` and `send` pass every failure on to the caller. The compiled
versions catch failures at the top level. The model follows both:

- `Registration.ReconcileEffect` and `Dispatch.SendEffect` follow the `.ts` source.
- `Registration.RegisterEffect` and `Dispatch.SendAbsorbingEffect` follow the `.js`
  source.

In the compiled `register`, the `.catch` covers only the promise chain, and
`get_platform` throws before that chain starts. So a name that is not registered escapes
the compiled `register` (`Threw`), while store and provider failures are absorbed. This
holds for every unregistered name except the twelve names a plain JavaScript object
inherits from Object.prototype (see "## Findings"): the model's register, send and
send_to_endpoint use the corrected lookup, which rejects those names too.

Three behaviours of the code are worth stating plainly, because a reader might expect
otherwise:

- **No failure isolation in `send`.** `when.all` (ts:188) rejects as soon as one publish
  fails, so a failed endpoint fails the whole `send`. The model proves the `when.all`
  outcome.
- **No top-level recovery in the TypeScript `register`.** It has no catch (ts:144-179).
  The compiled one (js:177-179) catches only the promise chain, so an unknown platform
  still throws (js:144).
- **An already-gone endpoint gets no special treatment.** `delete_endpoint` rejects on
  any error `deleteUser` reports (ts:91-95). The model injects that error as a fault;
  without one, deleting an endpoint the provider no longer holds succeeds.

## Model

| member | source | states |
|---|---|---|
| PushTargets.ForDevice | vineyard-songbird-sns.ts:151 | query_single on device_id: None exactly when no row holds the device; otherwise a row of the table holding that device_id |
| PushTargets.WithoutDevice | vineyard-songbird-sns.ts:157 | the DELETE by device_id keeps exactly the rows whose device_id differs |
| PushTargets.OfUser | vineyard-songbird-sns.ts:183 | the SELECT by user returns exactly the rows of that user, no more rows than the table holds |
| PushTargets.ForDeviceIsTheRow | vineyard-songbird-sns.ts:151-153 | with at most one row per device, the row query_single returns for a stored device is that device's row |
| PushTargets.WithoutDeviceKeepsUnique | vineyard-songbird-sns.ts:157 | deleting a device's rows keeps at most one row per device_id |
| PushTargets.AppendKeepsUnique | vineyard-songbird-sns.ts:116-118 | inserting a row for a device the table does not hold keeps at most one row per device_id |
| PushTargets.ReplacedRowIsOnlyRow | vineyard-songbird-sns.ts:154-159 | after the row delete and the insert of update_records, the inserted row is the device's only row |
| Payload.ApsFields | vineyard-songbird-sns.ts:199-204 | `aps.alert` is the message and `aps.payload` the data; the `badge` key is present exactly when the badge is truthy and then holds the badge; no other key |
| Payload.GcmBody | vineyard-songbird-sns.ts:212-216 | the GCM object has the single key `data`, holding `{message}` |
| Payload.Shape | vineyard-songbird-sns.ts:198-220 | for "ios" the wire object has exactly one key, the configured iOS payload key, holding the encoding of `{aps}`; for any other name exactly one key, "GCM", holding the encoding of `{data:{message}}` |
| Payload.GcmIgnoresDataAndBadge | vineyard-songbird-sns.js:215-224 | for a platform other than "ios" the wire object does not depend on data, badge or the iOS key, and contains no `aps` |
| Payload.FalsyBadgesShapeAlike | vineyard-songbird-sns.js:208-209 | badges 0 and undefined shape the same iOS message |
| Registry.ConfiguredPlatforms | vineyard-songbird-sns.js:46-50 | grow registers "android" exactly when android_arn is truthy and "ios" exactly when ios_arn is truthy, each built from the configuration and its ARN, and nothing else |
| Registry.GetPlatform | vineyard-songbird-sns.ts:71-77 | the lookup succeeds exactly when the name is registered, with the registered handle; otherwise it fails with the no-platform error for that name |
| Registry.GetAfterCreate | vineyard-songbird-sns.ts:58-69 | after create_platform the lookup of that name returns the new handle, and the lookup of every other name is unchanged |
| Registry.GetPlatformAsWritten | vineyard-songbird-sns.ts:71-77 | the property-read lookup throws exactly when the name is neither registered nor an Object.prototype member, and returns the registered handle for registered names |
| Registry.InheritedNameIsNotRejected | vineyard-songbird-sns.ts:72-74 | with no "constructor" platform, the lookup as written returns the inherited member while the intended lookup fails |
| Registry.LookupsAgreeOffPrototype | vineyard-songbird-sns.ts:71-77 | on registered names and on names outside Object.prototype both lookups agree |
| Effects.SelectByDeviceEffect | vineyard-songbird-sns.ts:151 | query_single by device_id, specification function: records the query; the store fault, or the device's row as PushTargets.ForDevice states |
| Effects.SelectByUserEffect | vineyard-songbird-sns.ts:183 | the row query by user, specification function: records the query; the store fault, or the user's rows as PushTargets.OfUser states |
| Effects.DeleteByDeviceEffect | vineyard-songbird-sns.ts:157 | the DELETE by device_id, specification function: records the delete; on a store fault the table is unchanged, otherwise it loses the device's rows |
| Effects.InsertEffect | vineyard-songbird-sns.ts:116-118 | the INSERT of create_endpoint, specification function: records the insert and appends the row |
| Effects.GetUserEffect | vineyard-songbird-sns.ts:127-142 | get_user, specification function: records getUser; rejects on a provider fault or an unknown endpoint, otherwise resolves with the `Enabled` attribute |
| Effects.DeleteEndpointEffect | vineyard-songbird-sns.ts:89-102 | delete_endpoint, specification function: records deleteUser; rejects on a provider fault, otherwise the endpoint is removed |
| Effects.CreateEndpointEffect | vineyard-songbird-sns.ts:104-125 | create_endpoint, specification function: records addUser with the `{userId}` payload; on an error rejects with nothing inserted, otherwise adds the enabled endpoint and inserts its row; Registration.NewDeviceIsCreated states the outcome |
| Effects.EventFor | vineyard-songbird-sns.ts:243-247 | the event publish emits: sendFailed with endpoint and error, or messageSent with endpoint and MessageId; Effects.PublishEmitsOneEvent states it is the only event |
| Effects.PublishEffect | vineyard-songbird-sns.ts:237-251 | publish, specification function: one sns.publish call with MessageStructure "json", one event, the callback's arguments; Effects.PublishEmitsOneEvent states its properties |
| Registry.NewPlatform | vineyard-songbird-sns.ts:61-68 | the handle create_platform builds: the platform name, region, API version and keys from the configuration, and the ARN; Registry.GetAfterCreate states the lookup after it |
| Registration.IsAnonymous | vineyard-songbird-sns.ts:146 | the anonymous-user guard: username or name is "anonymous"; Registration.AnonymousIsNoOp states its effect |
| Registration.ReplaceEffect | vineyard-songbird-sns.ts:154-159 | update_records, specification function; Registration.ReplaceStopsAtFirstFailure and Registration.DisabledEndpointIsReplaced state its outcomes |
| Registration.ChainEffect | vineyard-songbird-sns.ts:151-178 | the register chain, specification function; Registration.ChainNeverThrows and the per-branch lemmas state its outcomes |
| Registration.ReconcileEffect | vineyard-songbird-sns.ts:144-179 | the TypeScript register, specification function; Registration.ReconcileKeepsUniqueDevices and the per-branch lemmas state its properties |
| Registration.RegisterEffect | vineyard-songbird-sns.js:139-180 | the compiled register, specification function; Registration.RegisterAbsorbsChainFailures relates it to the TypeScript register |
| Dispatch.SendToEndpointEffect | vineyard-songbird-sns.ts:192-235 | send_to_endpoint, specification function; Dispatch.SendToKnownPlatform states its outcome for a configured platform |
| Dispatch.SettledWith | vineyard-songbird-sns.ts:223-232 | what the deferred settles with: the provider error for a failed publish, the MessageId (or null) for a successful one |
| Dispatch.FanOut | vineyard-songbird-sns.ts:188 | `rows.map(send_to_endpoint)`, specification function; Dispatch.FanOutSettlesEveryRow, Dispatch.FanOutPublishesOncePerRow, Dispatch.FanOutEmitsOncePerRow and Dispatch.StopsAtUnknownPlatform state its properties |
| Dispatch.SendEffect | vineyard-songbird-sns.ts:181-190 | the TypeScript send, specification function; Dispatch.SendPublishesToEveryRow and Dispatch.SendSettlesLikeWhenAll state its properties |
| Dispatch.SendAbsorbingEffect | vineyard-songbird-sns.js:182-195 | the compiled send, specification function; Dispatch.AbsorbingSendResolves relates it to the TypeScript send |
| Effects.CallbackFor | vineyard-songbird-sns.ts:249 | publish's callback gets an error exactly when the publish failed, and the MessageId exactly when the response carries a truthy one (else null) |
| Effects.PublishEmitsOneEvent | vineyard-songbird-sns.js:240-253 | one publish appends one sns.publish call to the endpoint and exactly one event: sendFailed with the endpoint and error, or messageSent with the endpoint and MessageId; table and endpoints unchanged |
| Registration.LoginTarget | vineyard-songbird-sns.js:74-82 | on_login registers exactly when args, args.platform and args.device_id are all truthy, with that platform and device |
| Registration.ChainNeverThrows | vineyard-songbird-sns.ts:151-178 | every failure of the register chain is a store or provider error, never the platform error |
| Registration.RegisterAbsorbsChainFailures | vineyard-songbird-sns.js:139-180 | the compiled register changes the state exactly as the TypeScript one, and resolves unless that one fails with the unknown-platform throw, which escapes |
| Registration.AnonymousIsNoOp | vineyard-songbird-sns.ts:146-147 | a user named or with username "anonymous" leaves the state, trace included, untouched and resolves |
| Registration.UnknownPlatformFailsFirst | vineyard-songbird-sns.ts:149 | an unknown platform name fails with the platform error before any store query is made |
| Registration.SelectFailureStops | vineyard-songbird-sns.ts:151-152 | a failing device query is the only step taken and its store error surfaces |
| Registration.NewDeviceIsCreated | vineyard-songbird-sns.ts:175-177 | with no row for the device: one addUser with the user-id payload, then on success one insert of (user, device, new endpoint, platform); on an addUser error, no insert and the error surfaces |
| Registration.HealthyEndpointIsKept | vineyard-songbird-sns.ts:162-169 | same owner and `Enabled` other than "false", whatever platform the login names: the only provider call is getUser, with the login's platform, and table and endpoints are unchanged |
| Registration.GetUserFailureStops | vineyard-songbird-sns.ts:162-163 | same owner and getUser rejecting, on a provider fault or an endpoint the provider does not hold: no replace, table and endpoints unchanged, the trace ends with getUser, and the provider error surfaces |
| Registration.DisabledEndpointIsReplaced | vineyard-songbird-sns.ts:154-169 | same owner and `Enabled` "false", whatever platform the login names: the trace is getUser, deleteUser of the old endpoint, row delete, addUser, insert, in that order, all with the login's platform; the old endpoint is gone and the new row records the login's platform |
| Registration.ReassignedDeviceMovesToNewOwner | vineyard-songbird-sns.ts:171-173 | a different owner, whatever platform the login names: replace without getUser, after which the table is the old rows of every other device followed by one new row for the device, which belongs to the new user and holds the new endpoint and the login's platform; the device's old endpoint is deleted and the new one added |
| Registration.ReplaceSucceeds | vineyard-songbird-sns.ts:154-159 | update_records with every step succeeding: the old endpoint is deleted, the device's rows go and every other row stays, and the new endpoint and its row are added, with deleteUser, the row delete, addUser and the insert recorded in that order |
| Registration.ReplaceStopsAtFirstFailure | vineyard-songbird-sns.ts:154-159 | a failed deleteUser leaves the row and makes no further call; a failed row delete creates no endpoint; a failed addUser inserts nothing; each error surfaces |
| Registration.ReconcileKeepsUniqueDevices | vineyard-songbird-sns.ts:144-179 | register keeps at most one row per device_id, whatever the outcomes |
| Registration.ReconcileOnlyAppendsTrace | vineyard-songbird-sns.ts:144-179 | register only appends to the trace of operations |
| Registration.ReRegisterAfterDisable | vineyard-songbird-sns.ts:161-169 | assuming addUser returns a second ARN different from the first: a new device registers, the provider disables its endpoint, it registers again; its only row then holds the second endpoint and the first endpoint is deleted |
| Dispatch.Join | vineyard-songbird-sns.ts:188 | when.all: success exactly when every result succeeded, with every value in order; otherwise the first failure in row order |
| Dispatch.SendToKnownPlatform | vineyard-songbird-sns.ts:192-235 | with a configured platform, send_to_endpoint is one publish of the shaped message and settles with the reply's MessageId or error |
| Dispatch.FanOutSettlesEveryRow | vineyard-songbird-sns.ts:188 | with every platform configured, the map never stops, settles one result per row in row order, leaves table and endpoints alone and only appends to the trace |
| Dispatch.FanOutPublishesOncePerRow | vineyard-songbird-sns.ts:188 | with every platform configured, the map publishes once to each row's endpoint, in row order |
| Dispatch.FanOutEmitsOncePerRow | vineyard-songbird-sns.ts:188 | with every platform configured, the map emits one event per row, in row order, each for that row's reply |
| Dispatch.FanOutStaysStopped | vineyard-songbird-sns.ts:194 | once a row's platform lookup has thrown, later rows change nothing |
| Dispatch.StopsAtUnknownPlatform | vineyard-songbird-sns.ts:194 | the first row with an unknown platform stops the map with its platform error, after publishing to exactly the rows before it |
| Dispatch.SendWithoutRows | vineyard-songbird-sns.ts:185-186 | a user without rows gets [] after the one row query, and nothing is published |
| Dispatch.SendPublishesToEveryRow | vineyard-songbird-sns.ts:181-190 | send queries the user's rows once, then publishes to each row once, in row order, with one event per row, and adds nothing else to the trace |
| Dispatch.SendSettlesLikeWhenAll | vineyard-songbird-sns.ts:184-189 | send resolves with one MessageId per row, in row order, exactly when every publish succeeded; otherwise it fails with the first publish error in row order |
| Dispatch.AbsorbingSendResolves | vineyard-songbird-sns.js:185-194 | the compiled send changes the state exactly as the TypeScript one and resolves; with no value exactly when the TypeScript one fails |
| Songbird.SongbirdSns.constructor | vineyard-songbird-sns.ts:33-34 | the bulb starts with no platforms, rows, endpoints or trace |
| Songbird.SongbirdSns.Grow | vineyard-songbird-sns.ts:49-55 | the registry gains exactly the configured platforms |
| Songbird.SongbirdSns.CreatePlatform | vineyard-songbird-sns.ts:58-69 | the registry maps the name to a handle built from the configuration and the ARN |
| Songbird.SongbirdSns.SelectDevice | vineyard-songbird-sns.ts:151 | records the query and returns the device's row, or the store error |
| Songbird.SongbirdSns.SelectUser | vineyard-songbird-sns.ts:183 | records the query and returns the user's rows, or the store error |
| Songbird.SongbirdSns.DeleteRows | vineyard-songbird-sns.ts:157 | records the delete and removes the device's rows unless the store fails |
| Songbird.SongbirdSns.Insert | vineyard-songbird-sns.ts:116-118 | records the insert and appends the row |
| Songbird.SongbirdSns.GetUser | vineyard-songbird-sns.ts:127-142 | records getUser and returns the endpoint's `Enabled` attribute, or the provider error |
| Songbird.SongbirdSns.DeleteEndpoint | vineyard-songbird-sns.ts:89-102 | records deleteUser and removes the endpoint unless the provider fails |
| Songbird.SongbirdSns.CreateEndpoint | vineyard-songbird-sns.ts:104-125 | records addUser; on success adds the enabled endpoint and inserts its row, on failure changes nothing else |
| Songbird.SongbirdSns.Replace | vineyard-songbird-sns.ts:154-159 | update_records, as Registration.ReplaceEffect states |
| Songbird.SongbirdSns.Chain | vineyard-songbird-sns.ts:151-178 | the register chain, as Registration.ChainEffect states |
| Songbird.SongbirdSns.Reconcile | vineyard-songbird-sns.ts:144-179 | the TypeScript register, as Registration.ReconcileEffect states, keeping at most one row per device_id |
| Songbird.SongbirdSns.Register | vineyard-songbird-sns.js:139-180 | the compiled register, as Registration.RegisterEffect states, keeping at most one row per device_id |
| Songbird.SongbirdSns.OnLogin | vineyard-songbird-sns.js:74-82 | registers the login's platform and device when Registration.LoginTarget finds them; otherwise resolves and changes nothing |
| Songbird.SongbirdSns.Publish | vineyard-songbird-sns.js:240-254 | the publish call and its one event, returning the callback's arguments, as Effects.PublishEffect states |
| Songbird.SongbirdSns.SendToEndpoint | vineyard-songbird-sns.ts:192-235 | lookup, shaping and one publish, as Dispatch.SendToEndpointEffect states |
| Songbird.SongbirdSns.SendToRows | vineyard-songbird-sns.ts:188 | the loop over the rows equals the map Dispatch.FanOut specifies |
| Songbird.SongbirdSns.SendSettled | vineyard-songbird-sns.ts:181-190 | the TypeScript send, as Dispatch.SendEffect states |
| Songbird.SongbirdSns.Send | vineyard-songbird-sns.js:182-195 | the compiled send, as Dispatch.SendAbsorbingEffect states |

## Left out

- The sns-mobile and AWS SDK calls (`addUser`, `deleteUser`, `getUser`, `sns.publish`) and their credentials are not modelled. Their outcomes are inputs: faults, the created endpoint ARN and the publish replies.
- `getUser` on an endpoint the provider does not hold is modelled as a provider error ("NotFound"). The real SDK error text is not modelled.
- SQL text, the MySQL connection and the `UNIX_TIMESTAMP(NOW())` timestamp column are not modelled. The table is a sequence of rows, and a query's rows come in table order.
- Registration.ReconcileEffect, Registration.RegisterEffect and Dispatch.SendToEndpointEffect use the corrected lookup Registry.GetPlatform. For the twelve Object.prototype names (see "## Findings"), the code as written instead queries the store (ts:151, js:146), and the chain then rejects with a TypeError from `platform.addUser`, `platform.getUser` or `platform.deleteUser`; the compiled register absorbs that rejection and resolves (js:177-179). The model does not follow that path. In a send, such a row's name makes `platform.sns.publish` (ts:238) throw a TypeError synchronously before anything is published, which stops the map at the same row with the same trace as the model's `NoPlatform` stop; the TypeScript send then rejects with that TypeError rather than the no-platform Error, and the compiled send resolves in both cases (js:192-194).
- The `Message` of an sns.publish request is `JSON.stringify` of the wire object (ts:239). The model's publish request keeps the wire object itself, unencoded.
- `data` is a JSON value; `undefined` data is not representable. For it, `JSON.stringify` would drop the `payload` key of `aps`, which the model does not show. An undefined badge is modelled (`None`).
- Effects.CreateEndpointEffect: every endpoint `addUser` creates is assumed to start with `Enabled` "true" at the provider; the provider's real attributes are not modelled.
- `JSON.stringify` is not modelled. Encoded values are the uninterpreted constructor `Stringified`, so no property about the characters of the wire message is stated.
- Console logging is not modelled. The framework glue in `grow` (schema loading, the `user.login` listener, `songbird.add_fallback` and the missing-Songbird check) is left out; only the configuration-to-registry step is kept.
- Concurrency is not modelled. The map in `send` runs publishes one after another in row order, and replies arrive in that order. `when.all` really rejects with the failure that settles first in time; the model takes the first in row order. Racing `register` calls for the same device are out of scope.
- Per-endpoint failure isolation in `send` is not proved, because the code does not provide it.
- A failing INSERT inside `create_endpoint` is not modelled: its deferred never settles, so the code gives no outcome for it.
- A successful publish whose response is missing is not modelled. On that path, `res.MessageId` would throw a TypeError inside the provider callback; the model assumes a response is present whenever there is no error.
- The `EMITTED_EVENTS` entries other than `messageSent` and `sendFailed` are not modelled, since nothing emits them.
- `Gruntfile.js` is build configuration and is not part of this model.

## Findings

| source | as written | input that shows it | evidently intended | confidence | as-written member | corrected member |
|---|---|---|---|---|---|---|
| vineyard-songbird-sns.ts:71-77 | `get_platform` reads `this.platforms[name]` on the plain object `{}` and throws only when that value is falsy. Names inherited from Object.prototype are therefore found. | platform name "constructor" (from login arguments or a stored row) with no such platform configured: the lookup returns the Object constructor instead of throwing | an unknown name, including an inherited one, fails with "There is no platform configuration named" | not executed; follows from JavaScript property lookup | Registry.GetPlatformAsWritten, Registry.InheritedNameIsNotRejected | Registry.GetPlatform |
