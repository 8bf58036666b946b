# homebridge-openwrt-control, modelled in Dafny

homebridge-openwrt-control is a Homebridge plugin. It exposes an OpenWrt router's wireless radios and SSIDs as HomeKit accessories and drives the router over its ubus JSON-RPC interface. This project models the plugin's decision logic and proves properties about it:

- **Router client** (`src/openwrt.js`, module `OpenWrt`). This part has:
  - the session cache with its 240 s lease in `login`;
  - the reply unwrapping in `ubusCall`;
  - the single-flight gate `handleWithLock`;
  - the radio/interface mapping and first-run `success` of `connect`;
  - the read, `uci set`, commit, reload sequence of `send('ssid', …)`.

  The client is an immutable record `{sessionId, expiresAt, lock, firstRun}` threaded through pure functions. The clock and the router's replies are functions of the trace position. Every operation returns the events it added: the POSTs it made and the events it emitted. `OpenWrtProperties` relates several calls, and checks every ubus call against the plugin's ACL.
- **ACL** (`src/constants.js`, module `Acl`): the rpcd access list the plugin installs, as the predicate `Permitted(service, method)`.
- **Router accessory** (`src/router.js`, modules `Router` and `RouterSync`). This part has:
  - the identity-keyed reconciliation of radio and SSID services against each `openWrtInfo` snapshot: add when missing, refresh when present, remove stale;
  - the `On` getters;
  - the button rules;
  - the RESTful/MQTT dispatch table.

  A published service is an abstract record `Svc(subtype, name, on)`. A radio or SSID "family" is its list of control services plus its list of sensor services.
- **Access-point accessory** (`src/accesspoint.js`, modules `AccessPoint` and `AccessPointProperties`). This part has:
  - the positional update of SSID services;
  - the 99-service cap on button services;
  - the button setter;
  - the integration dispatch.
- **Platform entry point** (`index.js`, modules `Platform` and `PlatformProperties`). This part has:
  - device validation;
  - the poll interval;
  - the device-type list;
  - the redacted configuration written to the debug log;
  - what one tick of the start-up task does with the outcome of `connect()`.

`Wrappers` (Option, Result), `JsValues` (JavaScript primitives, truthiness, plain objects, `?.`, `||`, `??`, spread) and `Services` (first match, order-keeping filter, service tables) are shared by all of them.

## Model

| member | source | states |
|---|---|---|
| OpenWrt.Login | src/openwrt.js:58-81 | A cached non-empty session whose lease has not run out is returned with no POST and no state change. Otherwise exactly one login POST is sent, under the all-zero session, with the configured user and password. Success caches the returned session with expiry `now + 240000`, where `now` is read before the request. A reply without a session id fails with `LoginFailed`. Every failure leaves the session and expiry unchanged. |
| OpenWrt.Unwrap | src/openwrt.js:93-97 | A reply succeeds exactly when it is an envelope with no `error` and with a `result`; it then yields `result[1]`. An `error` fails with exactly its message, or with "ubus call error" when the message is empty. A failure is never a login failure. |
| OpenWrt.UbusCall | src/openwrt.js:83-98 | At most the one requested call is posted, after the login's POSTs. On success, the last event is that call posted under the session now cached, and the value is the unwrapped reply to it. A failed login posts no call. The lock and first-run flag are untouched. |
| OpenWrt.Chain | src/openwrt.js:102-103 | Consecutive awaited calls are issued in order, and the first throw ends the sequence. The calls issued are a prefix of those requested. On success all of them were issued and one result is returned per call. |
| OpenWrt.WithLock | src/openwrt.js:44-56 | A busy gate returns at once with the state unchanged and nothing run. Otherwise the body runs with the lock held. Its throw becomes exactly one trailing `error` event and is not rethrown. The lock is released in every case. |
| OpenWrt.Disabled | src/openwrt.js:155 | The written `disabled` value is "0" exactly when the requested state is truthy, and "1" exactly when it is falsy. |
| OpenWrt.InterfaceInfos | src/openwrt.js:109-113 | One record per interface, in order, carrying its ssid and mode; `state` is true exactly when `up` is the boolean `true`. |
| OpenWrt.RadioInfos | src/openwrt.js:106-114 | The mapping describes the status: one record per radio, in order, with its name, `state` true exactly when `up === true`, and its interfaces mapped. |
| OpenWrt.FlatInterfaces | src/openwrt.js:116 | An interface is in the flattened list exactly when it belongs to some radio's interfaces. |
| OpenWrt.Emitted | src/openwrt.js:117-125 | The events a successful `connect` emits hold no ubus call and no `error` event, and hold `success` exactly on the first run. |
| OpenWrt.Connect | src/openwrt.js:100-135 | This is `connect` as written. It issues at most `system board` then `network.wireless status`. With `status` unbound, it always fails. When it succeeds, both reads were issued, the radios describe whatever `status` holds, `ssids` is empty, and `success` is emitted exactly on the first run. `firstRun` is cleared only on success. |
| OpenWrt.ConnectCorrected | src/openwrt.js:100-135 | This is `connect` as intended. The radios describe the wireless status just fetched, and an interface is in `ssids` exactly when some radio lists it. A status that is not wireless data fails with `MalformedStatus`. The first-run and event rules are the same as above. |
| OpenWrt.PollTick | src/openwrt.js:35-38 | A poll tick never throws and does nothing when the gate is busy. With the gate free it is `connect` run with the lock held: the same client and events, plus one `error` event when `connect` threw, and the gate released. |
| OpenWrt.ToggleSsid | src/openwrt.js:140-164 | The toggle leaves the gate and first-run flags alone. A failed status read is the toggle's failure. No interface found for the name fails with `SsidNotFound`, an interface without a truthy section with `NoUciSection`, and both issue only the status read. On success the section written is the one the lookup returned: the calls are status, `uci set` of its `disabled`, commit `wireless`, reload, and the last event is `success`. A failure never emits `success`. Whatever happens, the calls issued are the start of that sequence. |
| OpenWrt.Apply | src/openwrt.js:150-163 | It issues set, commit, reload for the section, in that order and no others. `success` is emitted only after all three. |
| OpenWrt.Send | src/openwrt.js:137-169 | A type other than 'ssid', or a busy gate, issues nothing and changes nothing. `send` never throws, and it releases the gate. Its calls are always the start of one toggle sequence. With the gate free, its events are the toggle's, followed by one `error` event exactly when the toggle threw. |
| OpenWrtProperties.SessionReuse | src/openwrt.js:59-62 | After a successful login, a later login before the lease runs out returns the same session with no POST. |
| OpenWrtProperties.LeaseExpiry | src/openwrt.js:60-69 | Once the lease has run out, the next login POSTs again. |
| OpenWrtProperties.FailedLoginKeepsSession | src/openwrt.js:71-74 | A failed login leaves `sessionId` and `sessionExpiresAt` as they were. |
| OpenWrtProperties.ConnectPermitted | src/openwrt.js:102-103 | Every call made by `connect`, as written and as corrected, is permitted by the ACL. |
| OpenWrtProperties.TogglePrefixIff | src/openwrt.js:143-161 | The structural description of a partial toggle holds exactly when some section makes the calls a prefix of the full toggle sequence. |
| OpenWrtProperties.ToggleCallsPermitted | src/openwrt.js:143-161 | Every call of a partial toggle (status, uci set, uci commit, reload) is permitted by the ACL. |
| OpenWrtProperties.SendPermitted | src/openwrt.js:137-169 | Every call `send` issues is permitted by the ACL, whatever the type and arguments. |
| OpenWrtProperties.SendNotFoundSwallowed | src/openwrt.js:143-145 | With the gate free, an unknown SSID produces only the status read and then an `error` event. It writes nothing, emits no `success`, and frees the gate. |
| OpenWrtProperties.SendNoSectionSwallowed | src/openwrt.js:143-148 | With the gate free, an interface found without a UCI section produces only the status read and then an `error` event. It writes nothing, emits no `success`, and frees the gate. |
| OpenWrtProperties.ToggledSuccess | src/openwrt.js:150-163 | A toggle that succeeded issued exactly status, set, commit, reload, and its last event is `success`. |
| OpenWrtProperties.SendSuccessSequence | src/openwrt.js:143-163 | With the gate free, a toggle that gets through wrote the section the lookup found for the name in the status read. It issues exactly status, set(section, `disabled`), commit, reload, ends with `success` and frees the gate. |
| OpenWrtProperties.ConnectNoErrorEvents | src/openwrt.js:100-135 | `connect` itself never emits `error`. |
| OpenWrtProperties.PollFailureOneError | src/openwrt.js:44-56 | A failing poll tick adds exactly one `error` event, as the last event, after the failed `connect`'s own events. |
| OpenWrtProperties.ConnectAsWrittenFails | src/openwrt.js:106 | When both reads succeed, `connect` as written still throws on the unbound `status`. Both reads were issued and nothing is published. |
| OpenWrtProperties.PollNeverPublishes | src/openwrt.js:36-38 | As written, every tick of the poll task with the gate free ends in `error` and never emits `success`. |
| OpenWrtProperties.ConnectDropsSsids | src/openwrt.js:116 | Even with `status` bound, the published `ssids` is empty while a published radio carries an interface. |
| OpenWrtProperties.CorrectedListsSsids | src/openwrt.js:116 | The corrected `connect` lists in `ssids` every interface of every published radio. |
| OpenWrtProperties.CorrectedAgreesExceptSsids | src/openwrt.js:106-131 | When `status` holds the fetched status, the written and corrected `connect` agree on everything except `ssids`. |
| Acl.Permitted | src/constants.js:5-31 | The router user may call a method exactly when it is on one of the three read-wildcard objects (`network.wireless`, `network.interface`, `system`), or it is `uci` get/set/commit, `network` reload, `service` restart or `file` write. |
| Acl.UciWriteWhitelist | src/constants.js:23 | The write section lets exactly `get`, `set`, `commit` through on `uci`. |
| Acl.ControlWriteWhitelist | src/constants.js:24-26 | Writes allow `network.wireless` down/up/reload, `network` reload and `system` reboot, and nothing else on those objects. |
| Acl.ReadWildcards | src/constants.js:8-20 | Reads are wildcard on exactly `network.wireless`, `network.interface` and `system`. |
| Acl.UciHasNoWildcard | src/constants.js:9-23 | A `uci` method is permitted exactly when it is `get`, `set` or `commit`. |
| Services.FindFirst | src/router.js:70 | `find` returns the first match, and there is no match exactly when no element satisfies the predicate. |
| Services.FirstWith | src/router.js:70 | The first service with a subtype is found exactly when some service carries it. |
| Services.Filter | src/router.js:98-114 | It keeps exactly the elements satisfying the predicate, in their original relative order. |
| Services.ShownButtons | src/router.js:27 | A button is kept exactly when its `displayType ?? 0` is positive, and kept buttons stay in configuration order. |
| Services.ButtonKind | src/accesspoint.js:35-37 | A button has a service type exactly when its display type is 1 (Outlet) or 2 (Switch). |
| Services.ControlKind | src/accesspoint.js:223 | A control has a service type exactly when its display type is 1, 2 or 3, and such a block is shown. |
| Services.SensorKind | src/accesspoint.js:249 | A sensor has a service type exactly when its display type is 1, 2 or 3, and such a block is shown. |
| Services.ButtonLabel | src/router.js:181 | A non-empty string name is the label, a positive number is printed in decimal, and a falsy name gives `Button <i>`. |
| Services.DispatchResult | src/router.js:240-254 | Dispatch resolves to `false` exactly when nothing was forwarded; otherwise it resolves to what `send` resolves to. |
| Router.Add | src/router.js:256-301 | `addRadio`/`addSSID` push one new service keyed by the entry onto each shown list and leave the hidden lists alone. |
| Router.Refresh | src/router.js:77-78 | Only the first service with the key is renamed and given the value. Lengths and subtypes are unchanged, and an absent key changes nothing. |
| Router.ControlStep | src/router.js:68-80 | A missing control key calls `addRadio` once. An existing control is refreshed to `!disabled`. A hidden control block does nothing. |
| Router.SensorStep | src/router.js:83-94 | A missing sensor key calls `addRadio` only if the control branch did not. An existing sensor is refreshed. |
| Router.Step | src/router.js:57-94 | There is at most one add per entry, and one exactly when a shown list lacks the key. The ensures give the exact resulting lists, including the duplicate `addRadio` pushes when only one list has the key. |
| Router.Process | src/router.js:57-95 | The whole loop leaves each shown list with its old subtypes plus exactly the snapshot's keys, and leaves a hidden list unchanged. |
| Router.Reconcile | src/router.js:57-114 | Whatever the lists held, after a cycle each shown list carries exactly the snapshot's keys and no list keeps a stale key. A hidden list is only filtered. The removals keep the loop's services in their relative order. |
| Router.PrunedSynced | src/router.js:98-114 | Removing the stale services from lists that carry every current key leaves them in step with the snapshot, keeping exactly the services whose key is current. |
| Router.Prune | src/router.js:98-114 | The backwards splice loop keeps exactly the services whose subtype is a current key, in their original order. |
| Router.ResetButtons | src/router.js:179-187 | Every button's state becomes false and its service is set off, keeping its configuration and subtype. |
| Router.Prepare | src/router.js:374-386 | Each shown list holds, in snapshot order, one service per entry, keyed and named after it, with nothing pushed yet. A hidden list stays empty. |
| Router.LinkStatus | src/router.js:52 | The satellite status is 1 exactly when `linkUp` is truthy, otherwise 2. |
| Router.OnInfo | src/router.js:48-192 | The handler stores the snapshot. When `systemInfo` is unset it throws at once, changing nothing else. Otherwise each family ends in step with the snapshot: each shown list carries exactly the current keys and no list keeps a stale one. Every button is then off, with its configuration and subtype kept. |
| Router.RadioOn | src/router.js:271-272 | The getter is true exactly when the first radio matching (device, band) exists and is not disabled. |
| Router.SsidOn | src/router.js:319-320 | The getter is true exactly when the first SSID matching (name, device, band) exists and is not disabled. |
| Router.ExternalSet | src/router.js:240-254 | A falsy value is ignored. The three known keys forward commands 0/1/2. Any other key is warned about. |
| Router.ButtonSet | src/router.js:400-404 | `onSet(false)` does nothing; `onSet(true)` sets the state and sends the button's command. |
| Router.RadioSetArgs | src/router.js:274-277 | A radio control's setter calls `send` with type 'radio'. |
| Router.SsidSetArgsAsWritten | src/router.js:322-324 | As written, the SSID setter passes the device as the SSID name and the SSID name as the state. |
| Router.SsidSetArgs | src/router.js:322-324 | The corrected setter passes the SSID name and the requested state. |
| Router.RadioKey | src/router.js:256-260 | A radio key is `radio:`, then the device, a `:`, then the band, each part recoverable at its position. |
| Router.SsidKey | src/router.js:303-308 | An SSID key is `ssid:`, the name, `:`, the device, `:`, then the band, each part recoverable at its position. |
| RouterSync.KeysDisjoint | src/router.js:62 | A radio key never equals an SSID key. |
| Router.StepSubtypes | src/router.js:57-94 | One loop step adds exactly the entry's key to each shown list's subtypes and leaves hidden lists unchanged. |
| Router.StepControlSubtypes | src/router.js:67-80 | With the control block shown, one step adds exactly the entry's key to the controls' subtypes, whether the control existed or not. |
| Router.StepSensorSubtypes | src/router.js:82-93 | With the sensor block shown, one step adds exactly the entry's key to the sensors' subtypes, whether the sensor existed, was added together with the control, or not. |
| Router.PruneSubtypes | src/router.js:98-114 | The removal loops keep exactly the subtypes that are also current keys. |
| RouterSync.StepKeepsAgreeing | src/router.js:65-94 | If neither list holds a duplicate and shown lists carry the same keys, one step keeps it so. |
| RouterSync.ProcessKeepsAgreeing | src/router.js:57-95 | The whole loop keeps that invariant. |
| RouterSync.PruneDistinct | src/router.js:98-114 | Removing services never creates a duplicate subtype. |
| RouterSync.ReconcileKeepsAgreeing | src/router.js:70-105 | A cycle keeps the invariant. With controls shown, the control subtypes are then exactly the current keys, each once. |
| RouterSync.PrepareAgrees | src/router.js:374-386 | A first snapshot without repeated keys yields lists that satisfy the invariant, each shown list carrying exactly its keys. |
| RouterSync.DuplicateWithoutAgreement | src/router.js:83-88 | Without the invariant, distinct controls are not enough: a control whose sensor is missing gets a second control with the same key. |
| RouterSync.StepUpdatesExisting | src/router.js:70-79 | Under the invariant, the existing control with the key is the one refreshed to `!disabled`, and no other control changes. |
| RouterSync.OnInfoKeepsAgreeing | src/router.js:48-176 | The whole handler keeps both families duplicate-free and agreeing. When it runs to the end, shown controls carry exactly the snapshot's keys. |
| RouterSync.RadioOnUnique | src/router.js:271-272 | With unique (device, band) pairs, the getter is `!disabled` of the matching radio, false if none. |
| RouterSync.ExternalSetIssuesNoCalls | src/router.js:244-249 | A forwarded integration command reaches `send('button', …)`, which issues no router call and resolves to `undefined`. |
| RouterSync.RadioSetIssuesNoCalls | src/router.js:274-277 | A radio control's setter issues no router call. |
| RouterSync.SsidSetAsWrittenEnables | src/router.js:323 | As written, switching a named SSID off writes `disabled = "0"`, that is, on. |
| RouterSync.SsidSetWritesRequest | src/router.js:322-324 | The corrected setter writes `disabled = "1"` exactly for a falsy request. |
| AccessPoint.ApName | src/accesspoint.js:19 | A truthy configured name is kept: a non-empty string as itself, a number or `true` printed as a template literal prints it, never the default. A falsy one gives `Access Point <hostname>`. |
| AccessPoint.SsidServiceName | src/accesspoint.js:224 | The name is `"<accessory> <ssid> <frequency>"` with `namePrefix`, else `"<ssid> <frequency>"`. |
| AccessPoint.SsidServices | src/accesspoint.js:215-260 | A shown block gets one service per SSID, in order, with subtype prefix+name+device and a getter fixed at `!disabled`. A hidden block gets none. |
| AccessPoint.ButtonCount | src/accesspoint.js:264-270 | It creates `min(buttons, 99 - services)` button services, and none when that is not positive. The accessory never exceeds 99. |
| AccessPoint.FirstUntyped | src/accesspoint.js:283-286 | It finds the first created button without a service type, or confirms every created button has one. |
| AccessPoint.Prepare | src/accesspoint.js:211-308 | It succeeds exactly when, for a non-empty SSID list, a shown control and a shown sensor each have a service type, and every created button has one. A shown untyped control throws first, then a shown untyped sensor, then the first created button without a type, at its index. On success it builds the SSID services, then the capped buttons with subtypes `Button <i>`, all states false. |
| AccessPoint.PushPositional | src/accesspoint.js:57-72 | Service `i` gets SSID `i`'s `!disabled` and name, by position only. Services past the snapshot are untouched, and subtypes and getters never change. |
| AccessPoint.Update | src/accesspoint.js:49-82 | Shown blocks are pushed positionally. Buttons are reset only when the snapshot has at least one SSID. |
| AccessPoint.OnInfo | src/accesspoint.js:45-46 | When `systemInfo` is unset the handler throws before touching any service or button, so nothing changes. Otherwise the update runs. |
| AccessPoint.ExternalSet | src/accesspoint.js:167-188 | Known keys forward 0/1/2 when the value is truthy and are ignored otherwise. An unknown key is warned about whatever its value. |
| AccessPoint.ButtonSetAsWritten | src/accesspoint.js:294-298 | As written, a press sends exactly when it is true and `this.power` is truthy. |
| AccessPoint.ButtonSet | src/accesspoint.js:294-298 | The corrected press sends the command exactly on a true press. |
| AccessPoint.SsidSetKind | src/accesspoint.js:236 | The SSID setter calls `send` with type 'apDevice', not 'ssid'. |
| AccessPointProperties.SameOrderPairsByIdentity | src/accesspoint.js:49-62 | If the new snapshot lists the same SSIDs in the same order, each control gets its own SSID's state. |
| AccessPointProperties.ReorderSwapsStates | src/accesspoint.js:49-62 | If two SSIDs swap places, each control is given the other SSID's state. |
| AccessPointProperties.GetterKeepsCreationState | src/accesspoint.js:229-233 | Updates never change what a control's getter returns. |
| AccessPointProperties.ExtraServicesUntouched | src/accesspoint.js:60-62 | Services with no SSID at their index are left as they were. |
| AccessPointProperties.ButtonsFit | src/accesspoint.js:264-270 | The button services fit under 99 services, and buttons are dropped only when the cap is reached. |
| AccessPointProperties.ButtonNeverSends | src/accesspoint.js:298 | As written, no press ever sends a command. |
| AccessPointProperties.ButtonSendsOnPress | src/accesspoint.js:294-298 | The corrected press sends where the written one does not. |
| AccessPointProperties.SsidSetIssuesNoCalls | src/accesspoint.js:234-236 | An SSID control's setter issues no router call. |
| AccessPointProperties.DispatchCompared | src/accesspoint.js:167-188 | The two accessories dispatch alike and resolve alike. The only difference is that an unknown key with a falsy value is warned about here and ignored by the router accessory. |
| Platform.Valid | index.js:29-33 | An entry that passes the `name`/`host`/`displayType` check is an object carrying all three members. |
| Platform.Enabled | index.js:34-41 | A device type is enabled exactly when the entry is an object with that block and the block's `enable` is truthy; the `{}` fallback never enables. |
| Platform.RefreshMs | index.js:36 | A nullish interval gives 5000 ms. A number `n` gives `n * 1000`, so 0 stays 0. |
| Platform.ConfiguredDevices | index.js:39-41 | 0 is present exactly when `apDevice.enable` is set, and 1 exactly when `swDevice.enable` is. The list is strictly increasing over {0, 1}, so the `default` case is unreachable. |
| Platform.Redacted | index.js:58-61 | Every field is copied except `passwd`, which becomes 'removed'. |
| Platform.SafeConfig | index.js:56-68 | Every top-level field is kept except `auth`, which is redacted, and `mqtt`, which is cut down to its redacted `auth`. |
| Platform.SafeConfigCorrected | index.js:56-68 | The same, and a top-level `passwd` is replaced as well. |
| Platform.ClientEnv | src/openwrt.js:12-13 | The client logs in with the device's top-level `user` and `passwd`. |
| Platform.LaunchDevice | index.js:28-70 | A nullish entry aborts the launch. An entry is planned exactly when name, host and display type are truthy and a device type is enabled. A planned entry carries the interval and the types, and the redacted configuration exactly when `log.debug` is set. |
| Platform.LaunchAll | index.js:28-33 | There is one decision per entry, in order, and the loop stops only after an aborting entry. |
| Platform.FirstThrow | index.js:95-121 | The position returned is the first start that throws: every earlier start returns, and the position is the end of the list only when none throws. |
| Platform.Launch | index.js:12-25 | Nothing is launched exactly when the configuration is falsy, `devices` is not an array, or the preferences directory cannot be created. Otherwise the launch loop runs over `devices`. |
| Platform.StartDevices | index.js:95-121 | Only types whose start returned an accessory are published. The loop completes exactly when no start threw, and then every type that returned an accessory is published. |
| Platform.StartDevicesInOrder | index.js:95-121 | The published list is exactly the types before the first throw whose start returned an accessory, in device-type order; nothing at or after a throw is published. |
| Platform.StartTick | index.js:75-127 | The poll task `{connect, refreshInterval}` starts exactly when `connect()` returns a successful state. Otherwise nothing is published and the start task keeps running. The start task stops exactly when no accessory start threw. |
| PlatformProperties.SafeConfigKeepsLoginPassword | index.js:56-68 | The logged configuration carries, unchanged, the password the router client logs in with. |
| PlatformProperties.SafeConfigLeaksExample | index.js:54-69 | A concrete debug-enabled device whose logged configuration shows `passwd: "secret"`. |
| PlatformProperties.SafeConfigCorrectedHidesPasswords | index.js:56-68 | The corrected redaction leaves no password in the top level, in `auth` or in `mqtt.auth`. |
| PlatformProperties.StartupNeverPolls | index.js:85-127 | With `connect` as written, no start-up tick starts the poll task or publishes anything. |
| PlatformProperties.StartupCorrectedPolls | index.js:85-124 | With the corrected `connect`, a tick whose reads succeed and whose accessories all start starts the poll task, publishes every type and stops the start task. |
| PlatformProperties.AllPublished | index.js:95-121 | When every start returns an accessory, every device type is published, in order. |
| PlatformProperties.PartialStartRetries | index.js:93-127 | A start that throws part-way leaves the poll task running and the start task too, with only the earlier accessories published. |

## Left out

- HTTP transport (axios, base URL, the 5 s timeout): the router's replies are a function `router(position, request)`, and a transport failure is one kind of reply.
- Time and timers: the clock is a function of the trace position. The impulse generators, the 300 ms button reset (src/router.js:405-408) and the 500 ms delay between devices (index.js:139) are not modelled. `PollTick` and `StartTick` model one tick each.
- Async interleaving: the gate is a sequential state machine. A `send` that overlaps a poll tick is dropped by the gate exactly as `WithLock` states, and concurrency beyond that is not modelled.
- `functions.findIfaceBySsid` is not part of this model. It is the parameter `find`, which returns an optional `{section}`.
- HomeKit construction: `Service`, `Characteristic`, UUIDs, the information service and the accessory category. A service is the record `Svc(subtype, name, on)`, and the information service counts as the one service every accessory starts with.
- Router.Step: a second `addRadio`/`addSSID` push onto a list that already has the key is kept as a second service with that subtype. The accessory library's `addService` (hap-nodejs, not part of this model) throws on a repeated service type and subtype, which would end the handler at that push; the model does not stop there (`RouterSync.DuplicateWithoutAgreement` shows the input).
- Router.Add: the accessory library's `addService` throws in two cases where the model still pushes the service. The first is a key the list already carries (the second `addService` with the same type and subtype). The second is a shown block whose `displayType` has no entry in `[null, Switch, Outlet, Lightbulb]` or the sensor table (4, or `true`), which makes the type `undefined` (src/router.js:266, 287, 314, 334).
- Router.Prepare: for the first snapshot (src/router.js:377-386), the same two cases throw in the program: a repeated key, such as two SSIDs with one name on the same device and band, and a shown block with no service type. The model creates one service per entry in both.
- Platform.StartTick: a device type other than 0 or 1 makes the program log and return from the tick (index.js:104-106). It is not modelled, because `ConfiguredDevices` yields only 0 and 1.
- AccessPoint.Prepare: two SSIDs with the same name on the same device give two services with one subtype `service<name><device>`. `addService` would throw on the second one; the model keeps both.
- Logging and event text, the `debug`/`info`/`warn` events, and the `devInfo` output. Only `success` and `error` events are kept, because properties depend on them.
- The RESTful and MQTT bridges (restful.js, mqtt.js are not part of this model). Only their `set` dispatch is modelled.
- src/swdevice.js and src/switch.js: the switch accessory is a device type tag (1) in `Platform`. Starting any accessory is the parameter `start` of `Platform.StartTick`.
- `openWrtInfo` events: src/openwrt.js never emits one, and index.js does not import src/router.js. Both accessory handlers are modelled on the snapshot shapes they read, as standalone components.
- `send` types other than 'ssid' ('radio', 'apDevice', 'button', 'Power') return without a call, as the source does; the radio `restart` argument is dropped.
- JavaScript coercions: numbers are integers, so NaN and fractions are absent. A string display type is not positive (JavaScript would convert it). Spreading a string or array copies nothing. Objects used as user or password become `undefined` in `Platform.ClientEnv`.
- Platform.RefreshMs: returns `None` for a string, object or array interval, where JavaScript would compute a number or NaN.
- The `session login` method is not listed in the ACL. It runs under the anonymous session, which rpcd handles apart from this list, so `Acl.Permitted` is checked only against the calls made after login.
- `LoginPosted`/`CallPosted` record the request only; the JSON-RPC `id` and `jsonrpc` fields are constant and left out.

## Notes on the code

- **`send` scope.** `send` handles only 'ssid'. It writes only `disabled`, applies it with a plain reload, and resolves to `undefined` (src/openwrt.js:137-169). No SSID is renamed and no radio is cycled.
- **Radio and link state.** `connect` maps the status reply's radios with `up === true` (src/openwrt.js:106-114). No `"0"`/`"1"` value is turned into a boolean, a radio that is off does not switch its SSIDs off, and nothing computes `linkUp`.
- **Ungated start-up read.** The start-up `connect()` (index.js:85) runs outside the gate; only the poll task's runs inside it (`OpenWrt.PollTick`).
- **Errors.** A failed read rethrows the underlying error unwrapped (`OpenWrt.Fault`).
- **Reconcile shape.** The router edits its service lists in place and updates the first service with a key. The lists stay duplicate-free only while the control and sensor lists agree (`RouterSync.PrepareAgrees`, `RouterSync.DuplicateWithoutAgreement`).
- **Access-point identity.** The access point pairs by position, not identity (`AccessPointProperties.ReorderSwapsStates`).
- **Access-point button reset.** The access point resets its buttons from inside the per-SSID loop, so not for a snapshot with no SSID (src/accesspoint.js:75-82, `AccessPoint.Update`).
- **Access-point getters.** The access point's getters read the SSID object captured at creation (src/accesspoint.js:229-233, `AccessPointProperties.GetterKeepsCreationState`).

## Findings

| source | as written | input that shows it | evidently intended | confidence | as-written member | corrected member |
|---|---|---|---|---|---|---|
| src/openwrt.js:106 | The radio mapping reads `status.radios`, an identifier that is never declared, so `connect()` throws a ReferenceError after both reads | Any router whose `system board` and `network.wireless status` replies succeed | Map `wirelessStatus.radios`, the status just fetched | high, not executed | OpenWrtProperties.ConnectAsWrittenFails | OpenWrt.ConnectCorrected |
| src/openwrt.js:116 | `ssids` flattens `openWrtInfo.wirelessRadios`, still the empty list from line 101 | A status whose radio `radio0` has one interface `Home`: `ssids` is `[]` | Flatten the radios just built | high, not executed | OpenWrtProperties.ConnectDropsSsids | OpenWrtProperties.CorrectedListsSsids |
| src/router.js:323 | `send('ssid', radio, name, state)` binds the device to `ssidName` and the SSID name to `state`, so the request is dropped | Switching SSID `Home` on `radio0` off: the lookup is for "radio0" and, if it matches, `disabled = "0"` is written | `send('ssid', name, state)` | high, not executed | RouterSync.SsidSetAsWrittenEnables | RouterSync.SsidSetWritesRequest |
| src/accesspoint.js:298 | A button press sends only when `this.power` is truthy, and no statement of the file assigns it | Any button press with state `true`: nothing is sent | Send the button's command on every true press | medium, not executed | AccessPointProperties.ButtonNeverSends | AccessPointProperties.ButtonSendsOnPress |
| index.js:56-68 | `safeConfig` redacts `auth.passwd` and `mqtt.auth.passwd` but copies the top-level `passwd`, which is the password the router client logs in with (src/openwrt.js:13) | A device with `passwd: "secret"` and `log.debug: true`: the logged configuration shows "secret" | Redact the top-level `passwd` as well | medium, not executed | PlatformProperties.SafeConfigLeaksExample | PlatformProperties.SafeConfigCorrectedHidesPasswords |
