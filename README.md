# Conductor's RPC bridge, modelled in Dafny

Conductor lets programs outside Steam call into the Steam client over
WebSockets. It has three layers:

- an **agent** script injected into Steam's shared JavaScript context;
- a **relay** server that both the agent and outside clients connect to;
- a **client** library that multiplexes calls over one socket.

Each layer exists in its current form and as an earlier version that is
still shipped. This project models the protocol logic of all of them, plus
the payload template substitution and the request envelope. It proves what
each one promises.

| module (file) | models |
|---|---|
| `Wire` (wire.dfy) | parsed JSON values and frames, and the JavaScript notions the agents rely on: truthiness, `??`, `{messageId, ...fields}`, decimal notation |
| `Ids` (ids.dfy) | the counter step shared by every id allocator: the id is the counter, then the counter goes up by one and drops to 0 at a capacity |
| `RpcMessage` (message.dfy) | the relay's `RpcRequest` envelope and its serde rules |
| `PayloadTemplate` (payload.dfy) | `make_payload`: one regex pass replacing `$REPLACE`, `$SECRET` and `$PORT` |
| `Relay` (relay.dfy) | the Rust relay: pure step functions on a `RelayState`, and a `Context` class whose methods update its fields and are proved to follow those functions |
| `PyServer` (pyserver.dfy) | the Python relay in main.py, in the same shape, and its line-by-line `make_payload` |
| `Steam` (steam.dfy) | what the agent reads from Steam (readiness, app map, app list, folders, UI mode) and the calls it makes to Steam, recorded as `Effect` values |
| `Browser` (browser.dfy) | the WebSocket and `window.rpc` the agents use: ready states, frames sent, `close` |
| `Handlers` (handlers.dfy) | the handler table of the current agent, `getFields` as a loop |
| `LegacyHandlers` (legacy_handlers.dfy) | the handler table of the older agent, its `reduce` as a loop |
| `Agent` (agent.dfy) | the injection guard, the secret check, `handleMessage`, and the listeners of both TypeScript agents |
| `EarlyAgent` (early_agent.dfy) | the two earliest scripts, which dispatch with a `switch` |
| `RpcClient` (client.dfy) | both client classes: the counter, deferral until the socket opens, and listener matching |

Every piece of code that changes state step by step is modelled twice:

- pure functions on a state value (`Forward`, `FirstFrame`, `SteamFrame`,
  `OnFrameAsWritten`, `CallStep`, `FrameStep`, ...), which serve as the specification;
- a class with the source's fields, whose methods mutate those fields and
  ensure `State() == Step(old(State()), ...)`.

The properties are lemmas about the pure functions.

For the two findings below, the classes run the code as written
(`Agent.HandleMessageAsWritten`, `PyServer.OnFrameAsWritten` and
`PyServer.OnCloseAsWritten`). The corrected definitions (`Agent.HandleMessage`,
`PyServer.OnFrame`, `PyServer.OnClose`) sit beside them. Lemmas such as
`Agent.OwnKeysDifferOnlyOnInheritedNames` and
`PyServer.AsWrittenIsOnFrameWhileFlagClear` say where the two agree.

Sockets are connection ids, and what the servers write is a `sent`
sequence of deliveries. Each frame is handled as one atomic step.

The relay of src/server.rs keeps no readiness state. It forwards a
request as soon as a Steam socket has sent `init:`, and its "Ready" frame
is only the answer to that `init:`.

## Model

| member | source | states |
|---|---|---|
| Wire.NatToString | src/payload.rs:19 | the decimal text of a number is a non-empty string of digits |
| Wire.ParseNatToString | src/payload.rs:19 | decimal text reads back as the number it was written from |
| Ids.NextId | src/js/client.test.ts:58-64 | a counter inside 0..cap-1 stays inside it; below cap-1 it moves up by one, at cap-1 it drops to 0 |
| Ids.IdInRange | src/js/client.test.ts:58-64 | with a positive capacity every id handed out lies in 0..cap-1 |
| Ids.IdShift | client.test.ts:39-43 | d calls later (d < cap) the id has moved on by d modulo cap |
| Ids.IdsCycle | src/js/client.test.ts:58-64 | call number q*cap + r gets id r: ids cycle through 0..cap-1 |
| Ids.IdsDistinctInWindow | src/js/client.test.ts:32 | any cap consecutive calls get pairwise different ids |
| Ids.IdReusedAfterCap | client.test.ts:39-43 | call k + cap gets the same id as call k |
| Ids.NoWrapBelowOne | src/js/client.test.ts:62-64 | the reset needs exact equality, so a capacity below 1 never wraps and ids grow without bound |
| RpcMessage.Serialize | src/message.rs:12-21 | the serialised object always has `command` and `args`, has `secret` and `messageId` exactly when present, and no other key |
| RpcMessage.Deserialize | src/message.rs:12-21 | only a JSON object or array can be read as a request |
| RpcMessage.EscapedStringsRejected | src/message.rs:14-17 | a `command` or `secret` whose text needs an escape cannot be borrowed as `&str`, so the request is unreadable; every request read has borrowable strings |
| RpcMessage.RoundTrip | src/message.rs:12-21 | serialising then deserialising gives back command, secret, id and args exactly when command and secret are borrowable; otherwise nothing is read back |
| RpcMessage.RequiredFields | src/message.rs:14-20 | an object without `command` or without `args` is not a request; a request's command and args are the object's |
| RpcMessage.OptionalFieldsDefault | src/message.rs:14-19 | an absent or null `secret`/`messageId` reads as None, whatever other keys are present, when the command is borrowable |
| RpcMessage.BadIdRejected | src/message.rs:19 | a `messageId` that is not a u32 makes the whole request invalid |
| PayloadTemplate.NoPlaceholderUnchanged | src/payload.rs:15-24 | text holding no placeholder comes back unchanged |
| PayloadTemplate.SplitBeforeDollar | src/payload.rs:13-22 | substitution distributes over a split before a '$': no placeholder straddles it |
| PayloadTemplate.LeadingMark | src/payload.rs:16-19 | a leading placeholder becomes its value and the rest is substituted |
| PayloadTemplate.EachPlaceholderReplaced | src/payload.rs:13-19 | wherever it stands, `$REPLACE` becomes "true"/"false", `$SECRET` the secret and `$PORT` the decimal port |
| PayloadTemplate.SubstitutedValueNotRescanned | src/payload.rs:15-22 | a secret reading "$PORT" is inserted verbatim: replaced text is not scanned again |
| Relay.MakeConfig | src/server.rs:53-69 | authentication is on exactly when an `[auth]` table enables it; tokens come from that table |
| Relay.Bump | src/server.rs:179 | `fetch_add(1)` moves the id up by one and wraps from 2^32-1 to 0 |
| Relay.SteamId | src/server.rs:379-385 | Steam's `messageId` is usable exactly when it is an integer in 0..2^64-1 |
| Relay.Context.constructor | src/server.rs:53-73 | the context starts unconnected, with counter 0 and empty tables |
| Relay.Context.ForwardRequest | src/server.rs:177-197 | forwarding updates counter, tables and Steam's frames exactly as `Forward` says |
| Relay.Context.Reject | src/server.rs:146-154 | an error reply is sent and the connection ends |
| Relay.Context.HandleFirstFrame | src/server.rs:98-222 | the first frame's handling follows `FirstFrame` |
| Relay.Context.HandleClientMessage | src/server.rs:312-360 | a later client frame's handling follows `ClientFrame` |
| Relay.Context.HandleSteamMessage | src/server.rs:362-408 | a Steam frame's handling follows `SteamFrame` |
| Relay.Context.Receive | src/server.rs:224-272 | the main loop hands each frame to the first-frame, Steam or client handler by the connection's role |
| Relay.Context.Close | src/server.rs:274-282 | only the Steam task's end clears `connected` and the Steam slot |
| Relay.InitialValid | src/server.rs:61-73 | the initial context is consistent |
| Relay.ForwardKeepsValid | src/server.rs:177-197 | forwarding keeps the context consistent |
| Relay.RefuseKeepsValid | src/server.rs:146-154 | refusing a connection keeps the context consistent |
| Relay.InitKeepsValid | src/server.rs:120-137 | accepting the Steam peer keeps the context consistent |
| Relay.FirstFrameKeepsValid | src/server.rs:120-222 | every first frame keeps the context consistent |
| Relay.StepKeepsValid | src/server.rs:224-272 | every frame keeps `connected` in step with the Steam slot and every recorded id with a client channel |
| Relay.ClosedKeepsValid | src/server.rs:274-282 | every disconnect keeps the context consistent |
| Relay.InitClaimsSteam | src/server.rs:120-137 | while unconnected, any `init:` frame makes its connection the Steam peer and gets "Ready"; the secret after the prefix is not checked |
| Relay.InitWhileConnectedRefused | src/server.rs:120-209 | once connected, an `init:` first frame is refused as "Message is not valid" |
| Relay.FirstFrameWithoutSteam | src/server.rs:210-221 | with no Steam channel a first frame gets "Not connected to Steam", the connection ends and nothing else changes |
| Relay.FirstRequestAuthenticated | src/server.rs:143-175 | the first request is forwarded exactly when authorised; otherwise "A secret is required" or "Wrong secret! Are you a hacker?" (or a silent end without a token list), and no id is taken |
| Relay.FirstFrameInvalid | src/server.rs:198-209 | a first frame that is not a request gets "Message is not valid" and the connection ends |
| Relay.ForwardRewrites | src/server.rs:177-197 | Steam receives the request serialised with the Steam secret and the counter as id (readable back when its strings are borrowable); the counter moves on; the channel is recorded, and the client's id only when sent |
| Relay.LaterFramesUnchecked | src/server.rs:312-360 | later requests are forwarded whatever their secret; a later invalid frame is dropped with no reply |
| Relay.RestoredFields | src/server.rs:387-392 | a routed answer keeps Steam's other fields; `messageId` is the client's own id when recorded and absent otherwise |
| Relay.SteamAnswerRouted | src/server.rs:387-408 | an answer with a known id goes to the recorded client, and routing removes no table entry |
| Relay.SteamFramesDropped | src/server.rs:363-398 | "Terminate" signals exit only; a non-object, an id-less frame or an unknown id is dropped |
| Relay.TruncatedIdAliases | src/server.rs:379-381 | only the low 32 bits of Steam's id are used: id + 2^32 routes like id |
| Relay.ForwardExtends | src/server.rs:181-191 | forwarding only adds or overwrites the entry at the counter |
| Relay.FirstFrameTablesKept | src/server.rs:120-222 | first frames that forward nothing leave both tables alone |
| Relay.FirstFrameExtends | src/server.rs:120-222 | a first frame only adds or overwrites the entry at the counter |
| Relay.TablesOnlyGrow | src/server.rs:274-282 | no frame and no disconnect removes a table entry |
| Relay.CorrelationRoundTrip | src/server.rs:312-408 | a client request forwarded under the counter's id comes back to the same client with its own `messageId` |
| Relay.SteamReconnects | src/server.rs:274-282 | after the Steam peer leaves, the tables are kept and the next `init:` is accepted |
| PyServer.PyHas | main.py:126 | Python's `in` on a parsed value: a dict tests its keys; a number, bool or None raises |
| PyServer.Context.constructor | main.py:30-50 | the context starts with no Steam socket, counter 0, empty maps, not reconnecting |
| PyServer.Context.Send | main.py:157-164 | a send appends one frame and changes nothing else |
| PyServer.Context.HandleSteamMessage | main.py:123-148 | a frame on the Steam socket is handled as `SteamMessage` says |
| PyServer.Context.HandleClientMessage | main.py:149-251 | a client frame is handled as `ClientMessage` says |
| PyServer.Context.Handle | main.py:108-121 | each frame is handled as `OnFrameAsWritten` says: a correct `init:` claims the Steam slot but leaves the context's `reconnecting` alone |
| PyServer.Context.Disconnect | main.py:256-263 | a socket's close is handled as `OnCloseAsWritten` says: only the socket's end is recorded, and no reconnection starts |
| PyServer.ReplayBlocked | main.py:109-111 | with a Steam socket and no reconnection, the correct `init:` changes nothing |
| PyServer.InitAccepted | main.py:112-118 | otherwise the correct `init:` makes its socket the Steam socket and, as written, changes nothing else; the corrected step also clears `reconnecting` |
| PyServer.AsWrittenIsOnFrameWhileFlagClear | main.py:108-263 | while `reconnecting` is clear, as it is from the start, the handler as written steps exactly as `OnFrame` and keeps the flag clear |
| PyServer.BadInitIgnored | main.py:120-121 | an `init:` frame with a wrong secret changes no state |
| PyServer.ClientChecksInOrder | main.py:150-218 | client frames are checked in order (not JSON, no command, no secret, unknown secret, no Steam), each with its own reply, before forwarding |
| PyServer.ForwardedRequest | main.py:220-251 | the counter is the id and wraps at 100; the socket is always recorded, the client id only when sent; `args` is forwarded only when sent |
| PyServer.CounterInRange | main.py:220-224 | the counter stays within 0..99, under the step as written and the corrected one |
| PyServer.SteamAnswerRouted | main.py:134-148 | a pending id's answer goes to its client, and both entries are removed |
| PyServer.RestoredFields | main.py:138-142 | the answer's `messageId` is the recorded client id, or removed |
| PyServer.SteamFramesDropped | main.py:124-134 | an answer without `messageId` or with an unknown id is ignored; non-JSON from Steam ends its handler |
| PyServer.StepKeepsAligned | main.py:226-229 | the client-id map's keys stay within the pending map's keys, under every step as written and corrected |
| PyServer.CorrelationRoundTrip | main.py:123-251 | a forwarded request's answer returns to its client with the client's id, and the tables return to their earlier state |
| PyServer.ReconnectingNeverSet | main.py:113-118 | as written, no frame and no disconnect changes the context's `reconnecting` |
| PyServer.SteamLossIsPermanent | main.py:256-263 | as written, after the Steam socket closes a new Steam socket's `init:` is refused and client requests die |
| PyServer.SteamReconnects | main.py:256-263 | losing the Steam socket starts a reconnection; the next `init:` is accepted and ends it |
| PyServer.MakePayload | main.py:268-283 | the loop produces the concatenation of every processed line, or "" without a template |
| PyServer.ReplaceAllNoDollar | main.py:274-276 | `str.replace` of a placeholder leaves '$'-free text alone |
| PyServer.ReplaceAllAt | main.py:274-276 | an occurrence preceded by '$'-free text is replaced and scanning continues after it |
| PyServer.LinesReplaced | main.py:273-277 | each of `$PORT`, `$SECRET` and `$REPLACE` on a line becomes its value |
| PyServer.ReplaceAllAbsent | main.py:274-276 | `str.replace` leaves text in which the pattern does not occur unchanged |
| PyServer.LineWithoutPlaceholder | main.py:273-277 | a line holding none of the three placeholders comes out unchanged |
| PyServer.TemplateLiteralLineKept | main.py:273-277 | a line whose every '$' opens a `${` substitution, as the agent script's template literals do, comes out unchanged |
| PyServer.PassReplaces | main.py:274-276 | one `str.replace` pass turns each of its placeholders into the value and copies '$'-free text and the later passes' placeholders |
| PyServer.PlaceholdersReplaced | main.py:273-277 | a line of any number of placeholders between '$'-free text becomes the line with each placeholder's value in its place, when the secret is '$'-free |
| PyServer.ChainedReplaceRescans | main.py:274-276 | the chained replaces rescan inserted text: a secret "$REPLACE" becomes "true"/"false", unlike src/payload.rs |
| Steam.Lookup | src/js/payload.template.ts:159-163 | Map lookup finds an entry only for a numeric key present in the map |
| Browser.Socket.Send | src/js/payload.template.ts:413-415 | a frame is sent only while the socket is open |
| Browser.Socket.Close | src/js/payload.template.ts:14-17 | closing an open socket makes it closing and sends nothing |
| Handlers.GetFields | src/js/payload.template.ts:28-43 | the loop computes `Fields`: the object itself without `fields`, else the listed keys |
| Handlers.ResultsHaveNoId | src/js/payload.template.ts:45-329 | no handler returns a `messageId` of its own |
| Handlers.AddShortcutNeedsExe | src/js/payload.template.ts:46-74 | without `exe` the answer is 'Missing argument "exe"' and Steam is not called; with it the shortcut is added first |
| Handlers.AddShortcutSettings | src/js/payload.template.ts:60-68 | name, icon and start directory are set exactly when given |
| Handlers.RunAppOnlyInstalled | src/js/payload.template.ts:151-178 | only an installed library app is run; otherwise "App with ID <id> not installed" and nothing is called |
| Handlers.RunAppNeedsNumericId | src/js/payload.template.ts:159-169 | a non-numeric id never finds an app |
| Handlers.FieldsSelectsListed | src/js/payload.template.ts:28-43 | `getFields` keeps exactly the listed fields the object has, or all of them when none are listed |
| Handlers.SelectIdsMembers | src/js/payload.template.ts:206-236 | an id is selected exactly when a kept app has it |
| Handlers.SelectIdsKeepsOrder | src/js/payload.template.ts:212-219 | selection preserves library order |
| Handlers.GetAppsFilters | src/js/payload.template.ts:206-236 | GetApps lists apps whose type is in `typeFilter` and, if `installedOnly`, installed; without a filter, `installedOnly` alone applies |
| Handlers.StringTypeFilterSelectsNothing | src/js/payload.template.ts:207-215 | a string type filter holds no numbers and selects nothing |
| Handlers.LibraryFoldersPicked | src/js/payload.template.ts:302-328 | every folder is answered through `getFields` |
| Handlers.MissingArgumentAnswered | src/js/payload.template.ts:45-292 | a falsy required argument is answered with that handler's missing-argument error and nothing is called |
| Handlers.NullishArgsRejected | src/js/payload.template.ts:45-329 | undefined or null `args` rejects every handler but GetApps, GetUIMode and an empty GetLibraryFolders, before any call |
| Handlers.NullishArgsReadFails | src/js/payload.template.ts:45-292 | a handler with a required argument reads it first, so undefined or null `args` throws the TypeError of reading that property |
| Handlers.NullishArgsUnchecked | src/js/payload.template.ts:206-328 | with undefined or null `args`, the handlers without a required argument call nothing, and only GetApps, GetUIMode and a GetLibraryFolders with no folders to describe answer without throwing |
| Handlers.CommandOf | src/js/payload.template.ts:45-329 | a name is found only under the key of the handler it names |
| Handlers.CommandOfName | src/js/payload.template.ts:45-329 | every handler is found under its own key |
| Handlers.NamesCapitalised | src/js/payload.template.ts:45-329 | every key of the handler table starts with an upper-case letter |
| Handlers.SingleCallCommands | src/js/payload.template.ts:75-150 | with their argument these handlers make exactly one call: single ids go as one-element lists, `autoConfirm` defaults to false |
| Handlers.TerminateAppInLibrary | src/js/payload.template.ts:179-205 | any library app is terminated, installed or not; other ids are "not installed" |
| Handlers.GetAppInfoDescribes | src/js/payload.template.ts:252-279 | a library app is described by type, installed, display name and tags; others are "not found in library" |
| Handlers.TagNamesPerTag | src/js/payload.template.ts:293-301 | one name per tag in order, null for unknown tags, an empty list without `tagIds` |
| LegacyHandlers.CollectInstalledIds | payload.template.ts:127-157 | the `reduce` loop computes `InstalledIds` |
| LegacyHandlers.ResultsHaveNoId | payload.template.ts:28-180 | no handler returns a `messageId` of its own |
| LegacyHandlers.InstalledIdsMembers | payload.template.ts:127-142 | a key is collected exactly when its app is installed (and a game, for games) |
| LegacyHandlers.InstalledIdsKeepsOrder | payload.template.ts:131-136 | collection follows the map's iteration order |
| LegacyHandlers.GamesAmongApps | payload.template.ts:143-157 | every installed game is an installed app |
| LegacyHandlers.InstalledAnswers | payload.template.ts:127-157 | GetInstalledApps and GetInstalledGames answer exactly those keys |
| LegacyHandlers.IsGamepadUIExactly | payload.template.ts:172-179 | `isGamepadUI` is true exactly when the UI mode is 4 |
| LegacyHandlers.RunAppOnlyInstalled | payload.template.ts:86-106 | only an installed library app is run; otherwise "not installed" |
| LegacyHandlers.AddShortcutNeedsLaunchOptions | payload.template.ts:29-35 | without `launchOptions` AddShortcut throws before calling Steam |
| LegacyHandlers.NullishArgsRejected | payload.template.ts:28-180 | undefined or null `args` rejects every handler that reads an argument |
| LegacyHandlers.NullishArgsReadFails | payload.template.ts:28-126 | such a handler throws the TypeError of reading its first argument |
| LegacyHandlers.NullishArgsUnread | payload.template.ts:127-180 | the handlers that read no argument settle regardless of `args` |
| LegacyHandlers.CommandOf | payload.template.ts:28-180 | a name is found only under the key of the handler it names |
| LegacyHandlers.CommandOfName | payload.template.ts:28-180 | every handler is found under its own key |
| LegacyHandlers.NamesCapitalised | payload.template.ts:28-180 | every key of the handler table starts with an upper-case letter |
| LegacyHandlers.ArgumentsPassedUnchecked | payload.template.ts:45-85 | arguments are passed to Steam unchecked, missing ones included |
| LegacyHandlers.AddShortcutSetsEverything | payload.template.ts:29-44 | name, icon and start directory are always set |
| LegacyHandlers.TerminateAppInLibrary | payload.template.ts:107-126 | any library app is terminated, installed or not |
| LegacyHandlers.GamepadModes | payload.template.ts:158-179 | Enter sets mode 4, Exit sets mode 7 |
| Agent.TablesAvoidInheritedNames | src/js/payload.template.ts:45-329 | no `Object.prototype` property name is a key of either generation's handler table |
| Agent.Agent.constructor | src/js/payload.template.ts:26 | a new socket to `ws://localhost:<port>`, connecting, nothing sent |
| Agent.Agent.OnOpen | src/js/payload.template.ts:413-415 | on open the agent sends `init:<secret>` |
| Agent.Agent.OnMessage | src/js/payload.template.ts:398-411 | a frame's answers are sent and its Steam calls made as `Deliver` says, with `handleMessage` as written |
| Agent.Inject | src/js/payload.template.ts:14-26 | an open socket is kept and nothing is created unless `replace`, then it is closed; otherwise a new socket goes into `window.rpc` |
| Agent.OnlyAuthorizedDispatched | src/js/payload.template.ts:404-410 | only a frame with the baked-in secret is dispatched to `handleMessage` as written, and it always gets an answer |
| Agent.RefusedFrames | src/js/payload.template.ts:398-410 | an empty secret or a frame without a string `secret` is refused silently |
| Agent.MissingCommandAnswer | src/js/payload.template.ts:388-395 | no command: exactly `{success:false, error:"Missing command"}`, without `messageId`, as written and corrected |
| Agent.NotReadyAnswer | src/js/payload.template.ts:336-345 | Steam not ready: the not-ready error under `messageId`, and no handler runs, as written and corrected |
| Agent.UnknownCommandAnswer | src/js/payload.template.ts:379-387 | corrected: a name outside the table gets "Invalid command: <name>"; as written, so does every such name that is not an `Object.prototype` property |
| Agent.SettleFrames | src/js/payload.template.ts:353-369 | a result is sent under `messageId`; a rejection sends "Command failed with <reason>" and then `messageId` alone |
| Agent.HandlerFieldsHaveNoId | src/js/payload.template.ts:364-369 | the request's `messageId` is never overwritten by a result |
| Agent.AnswersCarryId | src/js/payload.template.ts:331-396 | every answer to a message with a command carries its `messageId`, as written and corrected |
| Agent.KnownCommandRuns | src/js/payload.template.ts:347-369 | a table command runs its handler, and its calls are all the calls made; the corrected lookup answers it the same |
| Agent.InheritedNameAnswersEmptyError | src/js/payload.template.ts:347-378 | as written, "toString" is answered with `error: {}` instead of "Invalid command" |
| Agent.OwnKeysDifferOnlyOnInheritedNames | src/js/payload.template.ts:347-351 | own-key lookup changes only the answers to inherited names |
| Agent.GenerationsShareErrors | payload.template.ts:186-244 | both agents answer missing command and not-ready alike, as written and corrected |
| EarlyAgent.EarlyAgent.constructor | payload.template.js:9 | a new socket to `ws://localhost:<port>`, connecting, nothing sent |
| EarlyAgent.EarlyAgent.OnOpen | payload.template.js:57-59 | on open the script sends `init:<secret>` |
| EarlyAgent.EarlyAgent.OnMessage | payload.template.js:11-55 | a frame's replies and calls are those of `Deliver` |
| EarlyAgent.InjectReplacing | payload.template.js:2-9 | an open socket is always closed and replaced; there is no ignore mode |
| EarlyAgent.InjectOrAnnounce | client.template.js:1-4 | an open socket re-sends `init:<secret>` and nothing is created; otherwise a new socket |
| EarlyAgent.OnlyMatchingSecretDispatched | payload.template.js:13-54 | a frame whose secret differs gets no reply and no call |
| EarlyAgent.EmptySecretAccepted | client.template.js:7 | strict equality alone admits an empty secret |
| EarlyAgent.AddShortcutReply | payload.template.js:15-25 | AddShortcut replies `{messageId, appId}` without `success`, after four calls |
| EarlyAgent.OtherRepliesIdOnly | payload.template.js:26-46 | the other commands reply `{messageId}` only, after one call |
| EarlyAgent.UnknownCommandSilent | payload.template.js:47-49 | an unknown command gets no reply and no call |
| EarlyAgent.InjectorKnowsTwoCommands | client.template.js:8-30 | the injector ignores InstallApp, which the replacing script serves |
| RpcClient.Client.constructor | src/js/client.test.ts:34-45 | default capacity 500; only a non-empty secret is kept |
| RpcClient.Client.Send | src/js/client.test.ts:58-95 | one call takes the counter's id, advances it, sends and listens, as `Issue` says |
| RpcClient.Client.Call | src/js/client.test.ts:53-96 | a call waits before the socket opens and is issued after, as `CallStep` says |
| RpcClient.Client.OnOpen | src/js/client.test.ts:36-38 | opening issues the waiting calls in order, as `OpenStep` says |
| RpcClient.Client.OnFrame | src/js/client.test.ts:80-95 | the listeners run in order, as `FrameStep` says |
| RpcClient.Client.Close | src/js/client.test.ts:101-103 | closing changes no call state |
| RpcClient.LegacyClient.constructor | client.test.ts:11-21 | default capacity 100; only a non-empty secret is kept |
| RpcClient.LegacyClient.Send | client.test.ts:25-43 | send with the counter's id, then advance it, as `Issue` says |
| RpcClient.LegacyClient.Call | client.test.ts:23-60 | as `CallStep` says |
| RpcClient.LegacyClient.OnOpen | client.test.ts:13-15 | as `OpenStep` says |
| RpcClient.LegacyClient.OnFrame | client.test.ts:45-59 | as `FrameStep` says |
| RpcClient.LegacyClient.Close | client.test.ts:62-64 | closing changes no call state |
| RpcClient.ReadyCallsTakeSuccessiveIds | src/js/client.test.ts:58-76 | calls after opening are sent in order with successive ids from the counter cycle |
| RpcClient.DeferredCallsTakeSuccessiveIds | src/js/client.test.ts:53-64 | waiting calls go out in order with successive ids, each listening for its id |
| RpcClient.NothingSentBeforeReady | src/js/client.test.ts:53-56 | before the socket opens a call sends nothing and does not touch the counter |
| RpcClient.OpenFlushesDeferred | src/js/client.test.ts:36-38 | opening sends exactly the waiting calls, in order |
| RpcClient.RequestFields | src/js/client.test.ts:66-76 | for a request without its own `secret` or `messageId` field, the frame has `secret` exactly when one was kept and carries the call's `messageId`; it always carries every request field, so a request's own `secret` or `messageId` overrides the client's |
| RpcClient.EmptySecretNotSent | src/js/client.test.ts:42-44 | an empty secret is not sent |
| RpcClient.UnmatchedExactly | src/js/client.test.ts:85-89 | a listener is removed exactly when the frame has its `messageId` |
| RpcClient.MatchedExactly | src/js/client.test.ts:85-90 | a call resolves exactly when its id matches, and with the frame itself |
| RpcClient.UnmatchedFrameIgnored | src/js/client.test.ts:83-92 | a frame matching no waiting id changes nothing |
| RpcClient.ResolvedCallsStopListening | src/js/client.test.ts:89 | after a frame no listener for its id remains |

## Left out

- src/inject.rs is not part of this model. It holds the DevTools HTTP and WebSocket plumbing and its retry loops.
- src/main.rs is not part of this model: CLI parsing, logging set-up and task spawning.
- src/process.rs, src/enable_cef.rs and src/secrets.rs are not part of this model. They deal with processes, files and random tokens.
- The TOML parsing of src/config.rs is not modelled. Only the `[auth]` table's meaning is, in `Relay.MakeConfig`.
- server.py is not part of this model. Its client branch uses an undefined name, so it has no coherent behaviour.
- The type-only files (api.ts, api.d.ts, steam.ts, steam.d.ts, payload.ts, payload.d.ts) are used only for command names and constants.
- Concurrency is not modelled: tokio tasks, locks, atomic orderings, `select!` and Python's event loop. Each frame is one atomic step, and the agents' async handlers run to completion before the next frame.
- The reconnect and re-injection paths are not modelled: timers, sleeps and the injection they trigger (src/server.rs:285-310, main.py:78-102). As written, main.py never starts a reconnection (see Findings). The corrected `PyServer.OnClose` only sets the flag that would start one.
- The Rust send-failure branches (src/server.rs:194-197, 344-348) are not modelled. An unbounded channel's send fails only once the receiver is gone, and that receiver is the Steam task, which clears the slot first in this atomic model.
- JSON text is not modelled: frames are parsed values. Key order, duplicate keys, floating-point numbers and JavaScript's number formatting are left out. Numbers are integers.
- The V8 wording of TypeError messages is approximated. The texts are written into `Steam.ReadOfNullish`, `NotAFunction` and `NotIterable`.
- Steam's state is not changed by the calls the agents make. Calls are recorded as `Effect` values, and Steam's replies to them are inputs: the new shortcut id, and the UI mode, which `LegacyHandlers.IsGamepadUI` compares directly.
- Steam calls are assumed never to throw or reject: no `Host` makes `Apps.AddShortcut`, `RunGame`, `TerminateApp`, the `Installs` wizards, `UI.SetUIMode`, `UI.GetUIMode` or `InstallFolder.GetInstallFolders` fail. A failing call would reject its handler, and the current agent would then answer as `Agent.Settle`'s `Rejected` branch says ("Command failed with <reason>", then `{messageId}`). In payload.template.js:10-46 the async listener would end with the rejection and send nothing. The handler lemmas that list each handler's calls and answers (Handlers.RunAppOnlyInstalled, Handlers.SingleCallCommands, Handlers.TerminateAppInLibrary, LegacyHandlers.ArgumentsPassedUnchecked, LegacyHandlers.AddShortcutSetsEverything, EarlyAgent.OtherRepliesIdOnly) hold only under this assumption.
- Steam.ListOf: an undefined id inside `[msg.args.appId]` is written as null.
- Logging and ColorFormatter are not modelled.
- LegacyHandlers.IsGamepadUI: compares the value `SteamClient.UI.GetUIMode()` returns with 4 directly (payload.template.ts:173-177). It follows steam.d.ts:133, the declaration shipped with that script, where the call returns the mode itself. The newer declaration in src/js/steam.ts:336 returns `Promise<UIMode>`, and the current agent awaits it (src/js/payload.template.ts:250). Against a Steam client that returns a promise, `mode === 4` is always false, so `isGamepadUI` would always be false. Which declaration a given Steam client matches is outside the source, so the model keeps the one the script was written against.
- RpcMessage.Deserialize: frames are parsed values, so a borrowable string that the JSON text writes with a needless escape (`\u0041`, `\/`) is read here, while serde_json refuses to borrow it.
- Browser.Socket.Send: sending on a CONNECTING socket throws in browsers. The model drops the frame instead.
- EarlyAgent: the early scripts' `{{SECRET}}` and `{{PORT}}` placeholders are substituted by neither main.py's nor src/payload.rs's `make_payload`. The `make_payload` of server.py:62-67 fills them in client.template.js, but server.py is not part of this model. The secret and port are parameters.
- RpcClient: the "send then increment" order of client.test.ts and the "increment then send" order of src/js/client.test.ts cannot be told apart with atomic steps. Both follow `Issue`.
- RpcClient: the socket's own state after `close()` is not modelled. `sent` records every frame handed to `ws.send`, including calls made after `close()`, which the browser discards on a closing or closed socket.
- PyServer.OnClose: ignores the `closing` flag, because server shutdown is not modelled.

## Findings

| source | as written | input that shows it | evidently intended | confidence | as-written member | corrected member |
|---|---|---|---|---|---|---|
| src/js/payload.template.ts:347-351 | `handlers[msg.command]` also finds `Object.prototype` members (the same lookup is at payload.template.ts:198-200) | an authorised `{"command":"toString","messageId":1}` while Steam is ready; the answer is `{messageId:1, success:false, error:{}}` | the comment says an invalid command yields `undefined`, which gives "Invalid command: toString" | high, not executed | Agent.InheritedNameAnswersEmptyError | Agent.UnknownCommandAnswer |
| main.py:115 | `reconnecting = False` / `reconnecting = True` (lines 115, 258-259) bind locals of the handler, not `ctx.reconnecting`; line 258 raises UnboundLocalError for the Steam socket | the Steam socket closes, then a new socket sends the correct `init:`; it is refused as a replay and client requests go to the dead socket | losing Steam sets `ctx.reconnecting`, and the next `init:` is accepted and clears it | high, not executed | PyServer.SteamLossIsPermanent | PyServer.SteamReconnects |
