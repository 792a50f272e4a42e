# refocus-real-time, modelled in Dafny

refocus-real-time is the gateway that takes Refocus real-time events from
Redis publish/subscribe channels and pushes them to connected socket.io
clients. This project models its core and proves properties of it:

- **Filter engine and key codec.** A perspective (or a bot room) is encoded
  into a key string: the root subject, then one `&type=value;value`
  component per filter dimension. `shouldIEmitThisObj` decodes that key and
  decides whether a subject, aspect or sample event matches it.
- **Active-room registry** (current key format). For each namespace it keeps
  the set of rooms with at least one authenticated client. Clients enter on
  connect and authentication, and leave on disconnect.
- **Connection checks.** These are the old- and new-format token checks, the
  IP whitelist check, and what a namespace's connect handler decides from
  them.
- **Envelope and payload shaping.** `getNewObjAsString` wraps the event into
  its envelope, and `parseObject` unwraps a Redis message.
- **Dispatcher** (`src/emitter.js`). It routes one event, under the feature
  toggles, to the new-format rooms and to the legacy namespaces.
- **Statistics aggregator** (`pubSubStats`). This is a per-process table of
  counters per event type, and the log lines it prints.
- **Boolean environment toggles** and **configuration** from the process
  environment.

The files are modules of one project:

- `results.dfy` holds `Option` and `Result`.
- `js_text.dfy` holds the JavaScript string operations used: `split`, `join`,
  `trim`, `toLowerCase` and `startsWith`, plus number printing.
- `entities.dfy` holds the event payload record and `whatAmI`.
- `filter.dfy`: `applyFilter`.
- `keys.dfy`: key encoding.
- `emit.dfy`: matching, envelope and unwrapping.
- `legacy_emit.dfy`: the older matcher in `util/emitUtils.js`.
- `whitelist.dfy`, `auth.dfy`, `registry.dfy`, `dispatcher.dfy`, `stats.dfy`,
  `toggles.dfy` and `config.dfy`.

These parts of the system become parameters:

- **The outcomes of I/O.** These are JWT verification, the user lookup, the
  whitelist service's answer, and which rejection settles first.
- **Clock readings.**
- **Toggle states.**
- **The transport's table of connected sockets.**

A thrown JavaScript error (such as reading a property of a missing nested
object) becomes an `Err` value, and an error stops the rest of the operation.

Both `src/util/emitUtils.js` and `util/emitUtils.js` contain identical copies
of `isPresent`, `applyFilter`, `botEmit`, `getNewObjAsString`, `parseObject`
and the key encoders. Each is modelled once; the rows below cite the `src/`
copy. The two copies of `perspectiveEmit` and `shouldIEmitThisObj` differ, so
the older one is modelled separately, in module `LegacyEmit`.

## Model

| member | source | states |
|---|---|---|
| Filter.IsPresent | src/util/emitUtils.js:64-72 | the loop answers true exactly when some object value is in the filter's value set, and false exactly when none is |
| Filter.ApplyFilterPermissive | src/util/emitUtils.js:84-105 | an absent or empty filter, one without `=`, or one whose type is neither INCLUDE nor EXCLUDE lets every object through |
| Filter.BareTypeMatchesEverything | src/util/emitUtils.js:95-101 | a component holding only a filter type (the form written for an empty filter) matches every object |
| Filter.IncludeMatchesMembers | src/util/emitUtils.js:107-111 | `INCLUDE=v1;…;vn` matches exactly the objects with at least one candidate value among v1…vn |
| Filter.ExcludeMatchesNonMembers | src/util/emitUtils.js:107-112 | `EXCLUDE=v1;…;vn` matches exactly the objects none of whose candidate values is among v1…vn |
| Filter.CandidatesMeetValues | src/util/emitUtils.js:107-109 | the membership test on the value set agrees with "some candidate is a listed value" |
| Filter.ExcludeNegatesInclude | src/util/emitUtils.js:111-112 | for the same value text, EXCLUDE is the exact negation of INCLUDE |
| Filter.ValueSetOfJoin | src/util/emitUtils.js:95-107 | decoding `type=` followed by the `;`-joined values gives back the type and exactly the set of those values |
| Filter.CriticalSampleAgainstOkFilters | src/util/emitUtils.js:84-113 | a Critical status passes `EXCLUDE=Ok` and fails `INCLUDE=Ok` |
| Keys.SegmentsExtend | src/util/emitUtils.js:239-246 | each loop step appends `&` and the next dimension's component to the key built so far |
| Keys.GetPerspectiveNamespaceString | src/util/emitUtils.js:233-249 | the loop's result is the perspective's key: `/`, the root subject, then one component per dimension in order |
| Keys.ComponentAvoidsAmpersand | src/util/emitUtils.js:240-245 | a component built from `&`-free types and values contains no `&` |
| Keys.KeyIsJoin | src/util/emitUtils.js:233-249 | the key is the `&`-join of the path and the four components |
| Keys.SplitKey | src/util/emitUtils.js:201 | splitting a key on `&`, as the matcher does, gives back exactly the path and the four components |
| Keys.ComponentInjective | src/util/emitUtils.js:240-245 | two dimensions with a type and without a separator in their values encode to the same component only if they are equal |
| Keys.DecodeComponent | src/util/emitUtils.js:240-242 | splitting a non-empty component on `=` gives back its type and its `;`-joined values |
| Keys.PerspectiveKeyInjective | src/util/emitUtils.js:233-249 | two perspectives whose filter types are all set and whose texts are separator-free have the same key only if they are equal |
| Keys.BotsKeyComponents | src/util/emitUtils.js:258-265 | a room key splits on `&` into `/Bots` and the room name |
| Emit.SampleEmit | src/util/emitUtils.js:164-167 | a sample throws exactly when it has no aspect, or its aspect passes and it has no subject; it is accepted exactly when all four filters pass |
| Emit.PerspectiveEmitAsWritten | src/util/emitUtils.js:125-168 | as written, the aspect branch throws exactly when the aspect record has no embedded `aspect` |
| Emit.PerspectiveEmit | src/util/emitUtils.js:125-168 | a key with only a path accepts everything; otherwise a subject is decided by the subject-tag filter alone, a sample by `SampleEmit`, and an aspect is accepted exactly when its name and tags pass the aspect filters (corrected branch, see Findings); it throws exactly when the sample checks throw |
| Emit.BotEmit | src/util/emitUtils.js:182-186 | without publisher options a bot key never matches |
| Emit.ShouldIEmitThisObj | src/util/emitUtils.js:199-219 | a key whose path prefixes the object's path is decided by `perspectiveEmit` on the key's components, and only such a key can throw; any other key matches only when it is a `/Bots` key that `botEmit` accepts |
| Emit.ComponentMatches | src/util/emitUtils.js:84-113 | applying an encoded component is the dimension's intended test: all for an empty or untyped filter, membership for INCLUDE, non-membership for EXCLUDE |
| Emit.EncodeMatch | src/util/emitUtils.js:199-219 | a perspective's key accepts an object under its root subject exactly when every one of its dimensions does, and rejects objects outside it (with the corrected aspect branch) |
| Emit.SubjectIgnoresOtherFilters | src/util/emitUtils.js:147-150 | for a subject, only the root subject and the subject-tag filter decide the match |
| Emit.BotRoomKeyAcceptsAll | src/util/emitUtils.js:214-216 | a room key accepts an event outside `/Bots` exactly when publisher options are given |
| Emit.AspectBranchThrows | src/util/emitUtils.js:156-159 | as written, an aspect record of the shape the tests build is rejected with a TypeError |
| Emit.AspectBranchCorrected | src/util/emitUtils.js:156-159 | corrected, the same aspect record passes a key whose aspect filter names it |
| Emit.IncludeNamesItsValue | src/util/emitUtils.js:107-111 | `INCLUDE=v` accepts the value `v` |
| Emit.AspectsNeverThrow | src/util/emitUtils.js:141-159 | corrected, subjects and aspects never make the matcher throw |
| Emit.ParseObject | src/util/emitUtils.js:568-576 | a subject-remove message with an old object yields the old object; otherwise a message with a new object yields that object; otherwise the message itself, unchanged |
| Emit.GetNewObj | src/util/emitUtils.js:497-515 | the envelope carries the event key; an update event is wrapped as `{new: obj}`; a sample no-change event becomes exactly the object's name, update time, aspect name and aspect timeout, and throws exactly when there is no aspect; any other event is sent whole |
| Emit.ParseObjectUnwraps | src/util/emitUtils.js:497-515 | the envelope's body, read back by `parseObject`, is the original object (round trip) |
| Emit.EmitToClients | src/util/emitUtils.js:526-553 | no room list or an empty one emits nothing; otherwise exactly one emission, failing exactly when the envelope cannot be built; it goes to those rooms, or with `enableClientStats` on to every socket connected to the namespace |
| LegacyEmit.IsThisSubject | util/emitUtils.js:30-32 | the older subject test agrees with `whatAmI`'s subject case |
| LegacyEmit.PerspectiveEmit | util/emitUtils.js:103-132 | the older matcher treats every non-subject as a sample |
| LegacyEmit.ShouldIEmitThisObj | util/emitUtils.js:162-181 | outside the key's path, the older decision is the bot-key decision |
| LegacyEmit.AgreesOnSubjectsAndSamples | util/emitUtils.js:162-181 | the older and newer matchers decide subjects and samples identically |
| LegacyEmit.AspectsThrow | util/emitUtils.js:125-131 | the older matcher throws on an aspect without an embedded `aspect` when any filter is present |
| Whitelist.GetIpAddressFromSocket | util/ipWhitelistUtils.js:55-69 | the address is the forwarded-for header if set, else the handshake address; without either, or without socket or handshake, it throws "could not identify ip address" |
| Whitelist.SrcLookupAgrees | src/util/emitUtils.js:483-495 | the copy in emitUtils returns `undefined` exactly where the whitelist utility throws, and the same address otherwise |
| Whitelist.IsWhitelisted | util/ipWhitelistUtils.js:29-43 | true without a service or when it allows; false when it denies or answers 400; otherwise the "refocus-whitelist error" |
| Auth.UserLookupPathSegments | src/util/emitUtils.js:442-443 | the path splits on `/` into `v1`, `users`, the user and, for a named token, `tokens` and the token |
| Auth.UserPathSegments | src/util/emitUtils.js:442 | the user path splits into `v1`, `users` and the user name |
| Auth.TokenPathSegments | src/util/emitUtils.js:443 | the token path splits into `v1`, `users`, the user name, `tokens` and the token name |
| Auth.UserLookupPathInjective | src/util/emitUtils.js:442-443 | different claims (user, and token when named) never look up the same path |
| Auth.ValidateTokenNewFormat | src/util/emitUtils.js:435-448 | no `auth` event before the timeout rejects; a bad token rejects with the verifier's error; otherwise the answer is the lookup at `<apiUrl>/<path>` |
| Auth.ValidateIp | src/util/emitUtils.js:457-473 | no service means no check; a missing address throws synchronously; otherwise it resolves to the address exactly when the service allows, and rejects with "ip not allowed" when it denies |
| Auth.ConnectDecision | src/util/emitUtils.js:362-385 | a client is authenticated exactly when neither check rejects, with the token's user and checked address; a synchronous IP throw escapes the handler; a rejection carries the message of a check that failed |
| Auth.NoTokenRefused | src/util/emitUtils.js:274-289 | a client of a legacy namespace without a token, or with an empty one, is refused with the no-token message whatever the IP check answers, unless that check throws |
| Auth.LegacyConnect | src/util/emitUtils.js:274-289 | without a token the outcome is the no-token refusal (or the IP check's synchronous throw), because that rejection has settled before the join starts; with a token it is the connect decision on the JWT verdict |
| Registry.SetAdd | src/util/emitUtils.js:407 | adding a room keeps the set duplicate-free and appends it only when new |
| Registry.SetDelete | src/util/emitUtils.js:419 | deleting a room removes exactly it, keeping the set duplicate-free |
| Registry.RegisteredIffMember | src/util/emitUtils.js:413-419 | with the registry's invariant, a room is registered exactly when a client has joined it, which is exactly the disconnect handler's activity test |
| Registry.RoomRegistry.constructor | src/util/emitUtils.js:402 | the registry starts empty and valid |
| Registry.RoomRegistry.InitializeNamespace | src/util/emitUtils.js:362-363 | the namespace's room set is reset to empty; the invariant is kept |
| Registry.RoomRegistry.Connect | src/util/emitUtils.js:364 | a connecting client is added to the transport's table without joining a room; the room sets are unchanged |
| Registry.RoomRegistry.Authenticated | src/util/emitUtils.js:369-376 | the client joins its requested room and that room is added to the namespace's set |
| Registry.RoomRegistry.Rejected | src/util/emitUtils.js:378-383 | a rejected client is dropped and no room set changes |
| Registry.RoomRegistry.Disconnect | src/util/emitUtils.js:409-421 | the client is dropped; its room is deleted exactly when it was authenticated and no remaining socket is in that room; soundness and completeness are kept |
| Registry.Enter | src/util/emitUtils.js:362-376 | a client that connects and authenticates for a room leaves it registered with one more member |
| Registry.Leave | src/util/emitUtils.js:409-421 | after a member leaves, the room is registered exactly when another member remains |
| Registry.OneClient | test/socketIOEmitter.js:2261-2266 | one client coming and going registers, then unregisters the room |
| Registry.ThreeEnter | test/socketIOEmitter.js:2268-2272 | three clients joining one after another keep the room registered |
| Registry.ThreeLeave | test/socketIOEmitter.js:2274-2281 | three clients leaving in turn keep the room registered until the last one goes |
| Registry.ThreeClients | test/socketIOEmitter.js:2268-2281 | three clients come, then leave in order; the room is active until the last one leaves |
| Registry.RoomLifecycle | test/socketIOEmitter.js:2257-2287 | the sequence of connects and disconnects in the client-events test gives the expected registered/unregistered answer at each step |
| Dispatcher.EventType | src/emitter.js:24 | the category is the fourth `.`-separated field of the key, and absent when the key has fewer fields |
| Dispatcher.EventTypeOfKey | src/emitter.js:24 | a key `refocus.internal.realtime.<category>.<action>` has that category |
| Dispatcher.EventTypeUnderPrefix | src/emitter.js:24 | any key starting with `refocus.internal.realtime.<category>.` has that category |
| Dispatcher.FilterRooms | src/emitter.js:29-31 | the target rooms are exactly the registered rooms whose key accepts the object; it fails exactly when some key's matcher throws |
| Dispatcher.InitEffects | src/emitter.js:47-60 | an init event creates its legacy namespace when that legacy toggle is on, and nothing is created with both legacy toggles off |
| Dispatcher.OldScan | src/emitter.js:78-95 | the legacy scan fails exactly when some connected namespace throws; every emission goes to a connected namespace that accepts the object; without a failure, every such namespace gets one |
| Dispatcher.PerspectiveEventsReachAcceptedRooms | src/emitter.js:27-32 | with only the new format on (`NewOnly`: legacy formats and `enableClientStats` off), a subject or sample event makes at most one `/perspectives` emission, addressed to exactly the registered rooms that accept it, and none when no room does |
| Dispatcher.UnregisteredRoomNeverTargeted | src/emitter.js:29-32 | with only the new format on (`NewOnly`), a room missing from the registry is never a target, whatever its key would accept |
| Dispatcher.BotEventTargets | src/emitter.js:33-37 | with only the new format on (`NewOnly`), a bot event goes to its room in `/rooms`, then to its bot in `/bots` |
| Dispatcher.RoomEventTargets | src/emitter.js:38-42 | with only the new format on (`NewOnly`), a room event goes to itself in `/rooms`, then to its type's bots in `/bots` when there are any |
| Dispatcher.OtherCategoriesSilent | src/emitter.js:27-44 | with only the new format on, events of other categories have no effect |
| Dispatcher.LegacyScanGated | src/emitter.js:62-96 | with the new format off, a non-init event is scanned exactly when its category's legacy toggle is on, and has no effect otherwise |
| Dispatcher.LegacyScanTargets | src/emitter.js:78-95 | the legacy scan emits to a namespace exactly when it has connections and its key accepts the object |
| Dispatcher.PerspectiveInitCreatesNamespace | src/emitter.js:47-52 | a perspective init event creates the perspective's legacy namespace exactly when that toggle is on, and does nothing else |
| Dispatcher.BotInitCreatesNamespace | src/emitter.js:33-60 | under any toggles, a bot init event creates the room's legacy namespace exactly when that toggle is on, right after the two new-format emissions when the new format is on and first otherwise |
| Dispatcher.NewFormatWidened | src/util/emitUtils.js:545-553 | with `enableClientStats` on, the new-format branch makes the same emissions with the same error, each sent to its whole namespace instead of its rooms |
| Dispatcher.ClientStatsWidensTargets | src/emitter.js:27-96 | turning `enableClientStats` on changes only the targets: the same emissions and namespace creations, in the same order and with the same error, each new-format emission sent to every socket on its namespace |
| Stats.InitKeysSpec | src/util/pubSubStats.js:160-178 | afterwards the event's row and counter exist; no counter value changes; other rows are untouched; a new event type is appended to the table's order and a new key to its row's order, and the row's keys grow by exactly that key |
| Stats.Bump | src/util/pubSubStats.js:150-151 | one counter grows by the amount; every other counter is unchanged |
| Stats.TrackTable | src/util/pubSubStats.js:108-152 | an invalid event name or object leaves the table alone; otherwise the event's row exists and the table stays well formed |
| Stats.TrackAddsOne | src/util/pubSubStats.js:146-151 | one tracked event adds one to its count and its delay to its time; nothing else changes |
| Stats.TrackRow | src/util/pubSubStats.js:146-151 | a tracked event's row gains exactly the count and time keys, appended in that order when new and in place when present; other rows are unchanged |
| Stats.PhaseCounters | test/pubSubStats.js:251-254 | three `bye.world` objects a second old and one `hello.world` object a millisecond old through one tracker add 3 and 3000, and 1 and 1, to their counters and nothing else |
| Stats.PhaseRows | test/pubSubStats.js:251-254 | that phase appends the tracker's two keys to both rows when they are new |
| Stats.ThreePhasesRows | test/pubSubStats.js:251-262 | the three phases, on distinct keys and from no table, leave two rows, `bye.world` then `hello.world`, each listing the six keys in the order the phases created them |
| Stats.ThreePhasesCounters | test/pubSubStats.js:251-262 | the three phases leave 3 and 3000 in each `bye.world` counter pair and 1 and 1 in each `hello.world` pair |
| Stats.CountersPrinted | src/util/pubSubStats.js:214-218 | a row of three trackers' keys prints their six fields in insertion order |
| Stats.TrackedLine | src/util/pubSubStats.js:200-218 | a tracked row's line is the three fixed fields followed by the six counters in insertion order |
| Stats.StageLines | src/util/pubSubStats.js:195-218 | a table at that stage prints the `bye.world` line, then the `hello.world` line |
| Stats.OracleLines | test/pubSubStats.js:249-275 | after the test's twelve tracker calls, `log` prints exactly two lines, `activity=pubsub key=bye.world process=MyProcessName subCount=3 subTime=3000 emitCount=3 emitTime=3000 clientCount=3 clientTime=3000 ` and the `hello.world` line with 1 in every field |
| Stats.TrackCountsEach | src/util/pubSubStats.js:108-152 | tracking n objects adds n to the event's count and leaves other events' counters alone |
| Stats.TrackConnectionsTable | src/util/pubSubStats.js:91-96 | a connection tracker adds one to its counter in the `connections` row only |
| Stats.Snapshot | src/util/pubSubStats.js:189-192 | with connection statistics on and a server given, the connected-socket count is recorded; nothing else changes |
| Stats.ActivityLogStringConcat | src/util/pubSubStats.js:214-218 | the log line of joined entry lists is the join of their log lines |
| Stats.Entries | src/util/pubSubStats.js:215 | a row's entries follow its property order |
| Stats.SpreadFresh | src/util/pubSubStats.js:201-206 | spreading new properties into an object appends them, in order, after its own |
| Stats.PrefixEntries | src/util/pubSubStats.js:201-205 | a log object starts with `activity`, `key` and `process`, with `None` for a missing key or process name |
| Stats.PrefixLine | src/util/pubSubStats.js:214-218 | the first three fields print as `activity=pubsub key=… process=… ` |
| Stats.LogLineShape | src/util/pubSubStats.js:200-220 | each log line is the three leading fields followed by the event's counters in insertion order |
| Stats.Lines | src/util/pubSubStats.js:200-206 | one log line per event type, in the order the types first appeared |
| Stats.LogLines | src/util/pubSubStats.js:195-206 | nothing is printed when no table exists; otherwise one line per event type |
| Stats.PubSubStats.constructor | src/util/pubSubStats.js:16 | the statistics start with no table |
| Stats.PubSubStats.InitKeys | src/util/pubSubStats.js:160-178 | the table becomes the key-initialized table |
| Stats.PubSubStats.Track | src/util/pubSubStats.js:108-152 | the table becomes the tracked table: invalid input is ignored, otherwise count and time are added |
| Stats.PubSubStats.TrackSubscribe | src/util/pubSubStats.js:23-32 | when enabled, the subscription counters are tracked at the current time; otherwise nothing changes |
| Stats.PubSubStats.TrackEmit | src/util/pubSubStats.js:39-48 | when enabled, the emit counters are tracked at the current time; otherwise nothing changes |
| Stats.PubSubStats.TrackClient | src/util/pubSubStats.js:56-64 | when enabled, the client counters are tracked at the time the client reports; otherwise nothing changes |
| Stats.PubSubStats.TrackConnections | src/util/pubSubStats.js:91-96 | when enabled, the named connection counter grows by one; otherwise nothing changes |
| Stats.PubSubStats.TrackConnect | src/util/pubSubStats.js:69-71 | a connect adds one to `connectCount` when enabled |
| Stats.PubSubStats.TrackDisconnect | src/util/pubSubStats.js:76-78 | a disconnect adds one to `disconnectCount` when enabled |
| Stats.PubSubStats.TrackAuthError | src/util/pubSubStats.js:83-85 | an authentication error adds one to `authErrorCount` when enabled |
| Stats.PubSubStats.Log | src/util/pubSubStats.js:187-207 | the snapshot is printed, one line per event type, and the table is discarded |
| Stats.LogTwice | src/util/pubSubStats.js:195-197 | a second log right after the first prints nothing, because the table was discarded |
| Stats.LogOracle | test/pubSubStats.js:249-263 | the test's calls run through the statistics object, with the clock fixed, print exactly the two oracle lines |
| Toggles.LowerIsWord | src/toggles.js:39 | lowercasing gives a lower-case word exactly when the text spells it in any mix of cases |
| Toggles.TrueIffSpelledTrue | src/toggles.js:36-40 | a variable is true exactly when it is boolean true or a text spelling `true` in any case |
| Toggles.FalseIffSpelledFalse | src/toggles.js:53-57 | a variable is false exactly when it is boolean false or a text spelling `false` in any case |
| Toggles.MissingIsNeither | src/toggles.js:36-57 | an unset or null variable is neither true nor false |
| Toggles.NeverBoth | src/toggles.js:36-57 | no variable is both true and false |
| Toggles.TrueSpellings | src/toggles.js:36-57 | `TRUE`, `True`, `true` and boolean true are true; `FALSE` and boolean false are false; `yes` is not true |
| Config.Resolve | conf/config.js:34-35 | resolving never yields more channels than names, and never an empty one |
| Config.ResolveMembers | conf/config.js:34-35 | a channel comes out exactly when some listed name is set to it |
| Config.ResolveConcat | conf/config.js:34-35 | resolving keeps the list order: it distributes over concatenation |
| Config.ResolveAllSet | conf/config.js:34-35 | when every listed name is set, each is replaced by its value, in order |
| Config.PubSubBots | conf/config.js:29 | the bot channel list has at most one entry, present exactly when both the list variable and the variable it names are set, and it is that variable's value |
| Config.Load | conf/config.js:17-35 | the exported defaults: an empty whitelist service, port 3000, channels `focus` and `imc`, and the two channel lists |
| Config.NoListNoChannels | conf/config.js:30-35 | an unset or empty perspective list gives no perspective channels |
| Config.PerspectiveChannelsFromListedNames | conf/config.js:30-35 | a perspective channel comes from a listed name whose variable is set |
| Config.TrimLeadingSpace | conf/config.js:33 | trimming drops leading white space |
| Config.TwoNamesListed | conf/config.js:32-33 | the list `a, b` names `a` and `b` |
| Config.TwoListedOneSet | test/config.js:77-82 | with `a, b` listed and only `a` set, the one channel is `a`'s value |
| Config.TwoListedBothSet | test/config.js:84-91 | with both set, both values come out, in list order |
| Config.BotsOracles | test/config.js:128-141 | `SOMETHING` naming a set variable gives its value; a comma list is not split, so it gives nothing |

## Left out

- JWT signature checking, the HTTP requests, the auth timer and the socket.io transport are not modelled. Their outcomes are parameters: the verdict, the lookup answer, whether an `auth` event arrived in time, and which rejection settles first.
- Sending an emission and `JSON.stringify` are not modelled. An emission is recorded as a value with its namespace, its target and its envelope.
- `initializePerspectiveNamespacesFromApi` and `initializeBotNamespacesFromApi` (HTTP plus a loop over `initialize…Namespace`) are not modelled. The connect handler of the legacy namespaces is `LegacyConnect`: `ConnectDecision` with the old-format token check.
- Logging, the `debug` output when the delay exceeds 2000 ms, `kafkaTracking` and the process bootstrap are not modelled.
- Whitelist.GetIpAddressFromSocket: a non-string header value is not modelled; headers are texts.
- Auth.ValidateIp: the service's `allow` answer is a boolean. A non-boolean truthy or falsy answer is not modelled.
- Auth.ValidateIp: the request URL is not modelled; the service's answer is a parameter. That URL reads `conf.ipWhitelistPath`, which conf/config.js does not define, so it would be `<service>/undefined/<address>` rather than the `v1/verify` path of util/ipWhitelistUtils.js:19.
- Emit.BotEmit: `filterIndex` is an integer. An undefined or non-numeric index is not modelled.
- Emit.PerspectiveEmit, Emit.ShouldIEmitThisObj, Emit.EncodeMatch, Dispatcher.FilterRooms, Dispatcher.OldScan: these use the corrected aspect branch, which filters the aspect's own name. The source reads `obj.aspect.name` there and throws on an aspect record without an embedded `aspect` (see Findings and `Emit.PerspectiveEmitAsWritten`). The branch is chosen by the object's shape, not the event's category: any subject, sample, bot or room payload that owns a `timeout` and no `parentAbsolutePath` reaches it, and in the source the TypeError then escapes the dispatcher, where the model targets the room or namespace whose filters pass. Real payloads of those categories carry no top-level `timeout`, so the difference is latent.
- Emit.ShouldIEmitThisObj: new-format rooms are matched without publisher options, as the dispatcher calls the matcher. `null` field values are not modelled.
- JsText.ToLower: lowercasing is ASCII-only. No non-ASCII letter lowercases into `true` or `false`, so the toggles are unaffected.
- Stats: counters are unbounded integers, and a delay computed from an invalid date (NaN) is not modelled. Update times are integers.
- Stats: JavaScript lists integer-like property names before the others. Event names are taken to be non-numeric, so insertion order is the property order.
- Stats.PubSubStats.TrackClient: the tracker calls made from inside the registry and `doEmit` are not modelled; the dispatcher models only where `enableClientStats` sends an emission. The acknowledgement callback that reports a client's timing is a parameter of `TrackClient`.
- Stats.OracleLines, Stats.LogOracle: the test matches `subTime=\d+`; the model fixes the clock, so the times are exactly 3000 and 1.
- Registry.RoomRegistry.Connect: socket ids and requested room ids are assumed distinct in a namespace. A client whose id equals another client's requested room would make that room look active.
- Registry: an authentication that completes after the client has already disconnected is not modelled.
- Toggles: an environment value is undefined, null, a boolean or a text. Numbers and objects are not modelled.
- Config.NoListNoChannels assumes no variable has the empty name, which `process.env` cannot have.
- Config.TwoListedOneSet, Config.TwoListedBothSet: the configuration tests' oracles are stated for any two separator-free, trimmed names, not only `SOMETHING` and `THING2`.

## Findings

| source | as written | input that shows it | evidently intended | confidence | as-written member | corrected member |
|---|---|---|---|---|---|---|
| src/util/emitUtils.js:156-159 | the aspect branch of `perspectiveEmit` reads `obj.aspect.name` | an aspect record `{name: 'asp1', timeout: '60s', tags: ['atag1']}` (the shape `textToAspect` in test/util/emitUtil.js builds) against a key with an aspect filter: `obj.aspect` is undefined, so the read throws a TypeError | the aspect's own `obj.name` is filtered | not executed | Emit.AspectBranchThrows | Emit.AspectBranchCorrected |
