# SwiftHooksDiscord, modelled in Dafny

SwiftHooksDiscord is the Discord backend of the SwiftHooks bot framework. This
project models its core and proves properties of that model:

- **The gateway.** A `Shard` is one WebSocket connection to Discord's gateway.
  It reassembles zlib-compressed frames and answers opcodes with heartbeats,
  identify and resume payloads. It counts unacknowledged heartbeats, and it
  reconnects when the gateway's opcodes ask it to.
  The `Sharder` spawns shards on the gateway URL and disconnects them all.
  The `DiscordHook` boots the sharder, keeps the listeners registered per
  dispatch event, and runs them in order. It forwards every event to the
  enclosing hooks afterwards.
- **REST.** Every REST call is a verb and an endpoint below the v7 API root.
  `Routes` writes out each builder's path, and a decoder reads every path
  back to the call that produced it. The rate limiter keeps one state per
  bucket, read from the response headers, and answers how long the next
  request on a route must wait.
- **Identifiers and caches.** Snowflakes are Discord's 64-bit identifiers:
  bit fields, a decimal text form and a JSON encoding. Arrays of things that
  have a snowflake can be read, searched and written by snowflake. The
  client's `State` caches channels, guilds, direct messages, users and the
  current user.
- **Entities.** `Guild`, `Channel`, `GuildMember` and `Message` are classes.
  A class whose `client` is assigned hands that client on to the entities it
  holds. Every operation that talks to Discord is modelled as the request it
  hands to the REST client: the endpoint and the body. `User` and `Emoji`
  are values. The query strings of the listing requests are built item by
  item.

Each core file keeps its own form:

- State the source updates in place is a `class`: `Shard`, `Sharder`,
  `DiscordHook`, `RateLimiter`, `State` and the entity classes. Each method is
  specified by a function of the old state, and the protocol properties are
  lemmas about those functions.
- The loops of the source are `method`s with invariants: the inflate loop,
  the buffer reallocation and the client hand-offs to members, channels and
  mentioned users. The query builders, which append item by item, are
  methods too.
- Pure code is functions and lemmas.

The clock, the network, zlib and the HTTP client are parameters or scripts.
Times are integer milliseconds with a `now` parameter.

## Model

| member | source | states |
|---|---|---|
| Frames.CompleteIffEndsWithMarker | Sources/Discord/Gateway/Shard.swift:23-28 | a buffer counts as a complete frame exactly when it ends with the four marker bytes `00 00 FF FF` |
| Frames.AppendMarkerCompletes | Sources/Discord/Gateway/Shard.swift:23-28 | appending the marker completes any buffer, and a buffer shorter than four bytes is never complete |
| Frames.Written | Sources/Discord/Gateway/Shard.swift:93-96 | the bytes one inflate call makes available are a prefix of what zlib has ready, bounded by the room given, and all of it when it fits |
| Frames.Grow | Sources/Discord/Gateway/Shard.swift:99 | the output buffer grows by at most `maxBuff`, never shrinks, and a non-empty buffer always grows |
| Frames.AsWrittenLoop | Sources/Discord/Gateway/Shard.swift:92-104 | the loop as written keeps the output it started with as a prefix, and leaves early only on a status other than `Z_OK` |
| Frames.AsWrittenNeverLeavesWithoutInput | Sources/Discord/Gateway/Shard.swift:92-104 | once zlib can make no progress, the loop as written never leaves, however many calls follow, and only keeps growing the buffer |
| Frames.AsWrittenHangsOnSmallFrame | Sources/Discord/Gateway/Shard.swift:92-104 | a frame inflated whole by its first call never lets the loop as written leave, because a sync flush never reports `Z_STREAM_END` |
| Frames.AsWrittenTruncatesLargeFrame | Sources/Discord/Gateway/Shard.swift:92-104 | when a frame fills the buffer with input left, the loop as written leaves on `Z_BUF_ERROR` with the text cut short |
| Frames.SyncFlushLoop | Sources/Discord/Gateway/Shard.swift:92-104 | the corrected loop keeps the output it started with as a prefix of the output it leaves with |
| Frames.SyncFlushFinishesSmallFrame | Sources/Discord/Gateway/Shard.swift:92-104 | on the frame that hangs the loop as written, the corrected loop leaves after one call with the whole text |
| Frames.SyncFlushKeepsEveryByte | Sources/Discord/Gateway/Shard.swift:92-104 | when every call is given room for its bytes, the corrected loop leaves with all bytes of the calls it made, in order |
| Frames.WriteAt | Sources/Discord/Gateway/Shard.swift:93-96 | copying into the buffer at an offset leaves the bytes before the offset unchanged and places the source right after them |
| Frames.InflateFrame | Sources/Discord/Gateway/Shard.swift:71-104 | the in-place loop over a growing array ends exactly as the corrected loop on the same calls |
| Frames.CharLength | Sources/Discord/Gateway/Shard.swift:106-110 | the length of the UTF-8 character a sequence starts with is at most four and within the sequence, or 0 when no well-formed character starts there |
| Frames.Utf8Concat | Sources/Discord/Gateway/Shard.swift:106-110 | two well-formed UTF-8 texts joined are well-formed |
| Frames.AsciiIsUtf8 | Sources/Discord/Gateway/Shard.swift:106-110 | bytes below 0x80 are always well-formed UTF-8 |
| Frames.MalformedIsNotUtf8 | Sources/Discord/Gateway/Shard.swift:106-110 | a lone continuation byte or lead byte is not UTF-8, so a frame of that byte is dropped |
| Memory.Realloc | Sources/Discord/Utils/Memory.swift:8-18 | the new buffer has the requested size and holds every old element at its old index |
| Shards.Shard.constructor | Sources/Discord/Gateway/Shard.swift:40-57 | a new shard is in the initial state: empty buffer, no missed acknowledgements, not reconnecting, no session, sequence, socket, URL or heartbeat task, nothing sent; it meets the shard invariant |
| Shards.Shard.Send | Sources/Discord/Gateway/Shard.swift:148-155 | a payload is added to the outbox exactly when the socket is open, and nothing else changes |
| Shards.Shard.Heartbeat | Sources/Discord/Gateway/Shard.swift:127-131 | a heartbeat sends opcode 1 carrying the last sequence number, over an open socket |
| Shards.Shard.Identify | Sources/Discord/Gateway/Shard.swift:133-146 | identify sends the token, the platform properties and this shard's index with the shard count |
| Shards.Shard.Reconnect | Sources/Discord/Gateway/Shard.swift:157-166 | a reconnect disconnects an open socket, then connects again to the recorded URL, marked as reconnecting when it holds a session |
| Shards.Shard.HandleText | Sources/Discord/Gateway/Shard.swift:117-125 | text whose payload header decodes is handled as that payload, and anything else changes nothing |
| Shards.Shard.HandleBinary | Sources/Discord/Gateway/Shard.swift:64-115 | with the corrected inflate loop: the data is appended to the buffer; a complete frame is inflated, and well-formed UTF-8 output is handled as text, after emptying the buffer when the text is not empty |
| Shards.Shard.Disconnect | Sources/Discord/Gateway/Shard+Gateway.swift:50-56 | a disconnect resets the missed count and the buffer, cancels a running heartbeat task and drops the socket |
| Shards.Shard.Connect | Sources/Discord/Gateway/Shard+Gateway.swift:5-48 | a URL that parses is recorded and a connection to it started, and any other URL changes nothing |
| Shards.Shard.SocketOpened | Sources/Discord/Gateway/Shard+Gateway.swift:22 | the socket the connection yields becomes the shard's open socket |
| Shards.Shard.SocketClosed | Sources/Discord/Gateway/Shard+Gateway.swift:41-43 | a close by the network leaves the socket assigned but closed, and changes nothing else |
| Shards.Shard.Tick | Sources/Discord/Gateway/Shard+Payload.swift:31-44 | a heartbeat-task run does nothing without an open socket, reconnects after two unacknowledged beats, and otherwise counts and sends one beat |
| Shards.Shard.HandleHello | Sources/Discord/Gateway/Shard+Payload.swift:23-54 | a hello that does not decode disconnects; otherwise a heartbeat task is scheduled on the socket and a resume or an identify is sent |
| Shards.Shard.HandlePayload | Sources/Discord/Gateway/Shard+Payload.swift:6-66 | each opcode is handled as the source's switch prescribes: dispatch, heartbeat, invalid session, hello, reconnect, acknowledgement, or nothing |
| Shards.Shard.HandleDispatch | Sources/Discord/Gateway/Shard+Dispatch.swift:4-8 | a payload with an event name is forwarded once to the hook's `dispatchEvent` with its raw bytes, and one without is ignored |
| ShardLemmas.InitialStateIsQuiet | Sources/Discord/Gateway/Shard.swift:29-57 | a fresh shard meets the invariant and holds no buffer, missed beats, session, sequence, socket, timer or sent payload |
| ShardLemmas.HandleBinaryCases | Sources/Discord/Gateway/Shard.swift:64-115 | with the corrected inflate loop: an incomplete buffer, an inflation that runs out of steps and a frame that is not UTF-8 are only appended; a frame of non-empty text empties the buffer before the text is handled, and an empty text is handled with the buffer kept |
| ShardLemmas.TickCases | Sources/Discord/Gateway/Shard+Payload.swift:31-44 | a tick without an open socket does nothing; with one it beats and counts while fewer than two beats are unanswered, and otherwise reconnects; it never leaves more than two unanswered |
| ShardLemmas.ThirdSilentTickReconnects | Sources/Discord/Gateway/Shard+Payload.swift:37-43 | with no acknowledgements, two ticks send two heartbeats and the third drops the socket, resets the count and reconnects to the same URL |
| ShardLemmas.HelloSendsExactlyOne | Sources/Discord/Gateway/Shard+Payload.swift:29-54 | a hello that decodes sends exactly one payload over an open socket, a resume or an identify, runs a heartbeat task exactly when a socket is assigned, and keeps the session |
| ShardLemmas.ResumeIffReconnectingWithSession | Sources/Discord/Gateway/Shard+Payload.swift:46-54 | hello resumes exactly when the shard is reconnecting with a session and a sequence, and identifies exactly otherwise |
| ShardLemmas.BadHelloDisconnects | Sources/Discord/Gateway/Shard+Payload.swift:24-28 | a hello without a heartbeat interval disconnects, sends nothing and leaves no task running |
| ShardLemmas.DispatchRecordsAndForwards | Sources/Discord/Gateway/Shard+Payload.swift:9-12 | a dispatch records its sequence number, even a missing one, forwards its bytes once under its event name, and changes nothing else |
| ShardLemmas.AcknowledgementsDecrement | Sources/Discord/Gateway/Shard+Payload.swift:14-61 | an inbound heartbeat or acknowledgement lowers the missed count by one with no lower bound, so a fresh shard counts -1 |
| ShardLemmas.InvalidSessionCases | Sources/Discord/Gateway/Shard+Payload.swift:17-21 | an invalid session without a boolean changes nothing; with one it keeps the session when true, drops it when false, and reconnects |
| ShardLemmas.ReconnectOpcodeDropsSession | Sources/Discord/Gateway/Shard+Payload.swift:56-58 | the reconnect opcode drops the session and reconnects |
| ShardLemmas.UnhandledOpcodesChangeNothing | Sources/Discord/Gateway/Shard+Payload.swift:63-64 | the opcodes the switch does not name leave the shard unchanged |
| ShardLemmas.DisconnectProperties | Sources/Discord/Gateway/Shard+Gateway.swift:50-56 | a disconnect resets the count and buffer, stops the task and drops the socket, keeps the session fields, and doing it twice is the same as once |
| ShardLemmas.ConnectRecordsUrl | Sources/Discord/Gateway/Shard+Gateway.swift:5-48 | an unparseable URL changes nothing, and a parseable one is recorded and connected to, with the socket untouched |
| ShardLemmas.ReconnectProperties | Sources/Discord/Gateway/Shard.swift:157-166 | a reconnect closes only an open socket, connects again exactly when a URL is recorded, keeps the session, and never clears the reconnecting flag |
| ShardLemmas.RemoteCloseOrphansHeartbeat | Sources/Discord/Gateway/Shard.swift:157-166 | after the network closed the socket, a reconnect and the next hello replace the running heartbeat task without cancelling it |
| ShardLemmas.ConnectionPreservesInvariant | Sources/Discord/Gateway/Shard+Gateway.swift:5-56 | disconnect, connect, reconnect, a tick and the socket callbacks keep the missed count at most two and the recorded URL parseable |
| ShardLemmas.PayloadPreservesInvariant | Sources/Discord/Gateway/Shard+Payload.swift:6-66 | every inbound payload keeps the shard invariant |
| ShardLemmas.HandleTextPreservesInvariant | Sources/Discord/Gateway/Shard.swift:117-125 | handling text keeps the shard invariant |
| ShardLemmas.HandleBinaryPreservesInvariant | Sources/Discord/Gateway/Shard.swift:64-115 | handling a binary message with the corrected inflate loop keeps the shard invariant |
| Payloads.DecodeSinData | Sources/Discord/Gateway/Payload.swift:23-28 | a header decodes exactly when its opcode is known and a present event name is a known event; it keeps the opcode, the sequence number and the event name |
| Payloads.Outbound | Sources/Discord/Gateway/Payload.swift:45-50 | every payload the shard sends travels under its body's opcode, with no sequence number and no event name |
| Sharding.VersionIsSix | Sources/Discord/Gateway/Sharder.swift:6 | the gateway version renders as `6` |
| Sharding.GatewayUrl | Sources/Discord/Gateway/Sharder.swift:49-54 | the URL is the host followed by exactly `?v=6&encoding=json&compress=zlib-stream` |
| Sharding.GatewayUrlParses | Sources/Discord/Gateway/Sharder.swift:49-61 | a host that parses as a URL still parses with the query added, so a spawned shard records its URL |
| Sharding.Sharder.constructor | Sources/Discord/Gateway/Sharder.swift:34-39 | a new sharder has no shards, no hosts and a shard count of zero |
| Sharding.Sharder.Spawn | Sources/Discord/Gateway/Sharder.swift:48-63 | spawning records the gateway URL for the id and appends one new shard with that id, which has started connecting to that URL; the earlier shards are kept |
| Sharding.Sharder.Disconnect | Sources/Discord/Gateway/Sharder.swift:66-68 | every shard is disconnected |
| Hooks.HandlerRuns | Sources/Discord/Discord+Hook.swift:28-38 | a dispatch yields at most one run per listener, each on the dispatched bytes |
| Hooks.Translate | Sources/Discord/Discord+Hook.swift:60-66 | an event translates exactly when it is Discord's message creation, and then to the global message creation |
| Hooks.DiscordHook.constructor | Sources/Discord/Discord.swift:32-53 | a new hook has a fresh sharder with no shards, no listeners, no attached hooks and nothing delivered |
| Hooks.DiscordHook.Boot | Sources/Discord/Discord+Hook.swift:5-14 | booting attaches the hooks, sets the shard count to one and appends one new shard per index, each connecting to the Discord gateway with the hook's token |
| Hooks.DiscordHook.Shutdown | Sources/Discord/Discord+Hook.swift:16-22 | shutting down disconnects every shard, detaches the hooks and drops every listener |
| Hooks.DiscordHook.Listen | Sources/Discord/Discord+Hook.swift:24-41 | a Discord event gets the handler appended to its listeners, the other events keep theirs, and a foreign event changes nothing |
| Hooks.DiscordHook.DispatchEvent | Sources/Discord/Discord+Hook.swift:43-58 | a dispatch runs the event's listeners in order, a throwing one not stopping the rest, then forwards the event to the attached hooks |
| Hooks.HandlerRunsInOrder | Sources/Discord/Discord+Hook.swift:49-56 | every listener whose payload decodes runs, whatever the listeners before it did, and nothing else runs |
| Hooks.ListenThenDispatch | Sources/Discord/Discord+Hook.swift:24-58 | a handler just registered runs after the earlier listeners on the next dispatch of its event, before the forward |
| Hooks.ForwardedLastIffAttached | Sources/Discord/Discord+Hook.swift:44-47 | an event is forwarded, last, exactly when hooks are attached, and a foreign event is only forwarded |
| Hooks.ShutdownSilencesDispatch | Sources/Discord/Discord+Hook.swift:16-22 | with no listeners and no hooks, a dispatch delivers nothing |
| Ratelimit.ParseThousandths | Sources/Discord/Rest/Ratelimit.swift:20-23 | a header number reads as thousandths: a plain digit string reads as itself times 1000, an empty text is refused, and only a text with a leading `-` reads as negative |
| Ratelimit.WholeNumberParses | Sources/Discord/Rest/Ratelimit.swift:22-23 | the text of any whole number reads back as that many thousands |
| Ratelimit.SignNegates | Sources/Discord/Rest/Ratelimit.swift:22-23 | a leading `+` changes nothing, and a leading `-` reads exactly the texts the unsigned form reads, negated |
| Ratelimit.PointForms | Sources/Discord/Rest/Ratelimit.swift:22-23 | a number may start or end with its decimal point: `.5` reads as 500 thousandths and `1.` as 1000 |
| Ratelimit.SignAndExponentForms | Sources/Discord/Rest/Ratelimit.swift:22-23 | `-1` reads as -1000 thousandths and `1e3` as 1000000 |
| Ratelimit.RefusedForms | Sources/Discord/Rest/Ratelimit.swift:22-23 | a lone point, a lone sign and an exponent without digits are refused |
| Ratelimit.MakeRouteState | Sources/Discord/Rest/Ratelimit.swift:18-31 | with both headers present and numeric the state holds their values; with either missing or not read as a number it holds no remaining requests and a reset time of now |
| Ratelimit.UpdatedBucket | Sources/Discord/Rest/Ratelimit.swift:53 | a response is filed under `global` exactly when it carries the global header or the route's bucket is `global`, and under the route's bucket otherwise |
| Ratelimit.Limit | Sources/Discord/Rest/Ratelimit.swift:59-69 | a wait is returned exactly when the bucket has a state and it or the global state will limit; the wait is at least each relevant reset time from now and never negative |
| Ratelimit.RateLimiter.constructor | Sources/Discord/Rest/Ratelimit.swift:46-50 | a new limiter holds no states |
| Ratelimit.RateLimiter.Update | Sources/Discord/Rest/Ratelimit.swift:52-57 | an update stores the state read from the headers under the one bucket the response is filed under, and only there |
| Ratelimit.RateLimiter.Check | Sources/Discord/Rest/Ratelimit.swift:59-69 | a wait is returned exactly when the route's bucket has a state and it or the global state will rate-limit; the wait is never negative and at least the time to the bucket's reset |
| Ratelimit.NoStateNoWait | Sources/Discord/Rest/Ratelimit.swift:59-62 | a bucket with no state never waits, even under a global limit |
| Ratelimit.SameRouteSameLimit | Sources/Discord/Rest/Ratelimit.swift:9-11 | routes that compare equal get the same answer |
| Ratelimit.ExhaustedBucketWaits | Sources/Discord/Rest/Ratelimit.swift:35-37 | after a response with nothing remaining, the next check waits at least until the reset |
| Ratelimit.UpdateIsolatesBuckets | Sources/Discord/Rest/Ratelimit.swift:52-57 | a response for another non-global bucket does not change a route's answer |
| Ratelimit.MissingHeadersLimitUntilNow | Sources/Discord/Rest/Ratelimit.swift:27-30 | a response without the headers makes the next immediate check wait zero |
| Keyed.AsString | Sources/Discord/Utils/Snowflakable.swift:16-18 | a snowflake's text is canonical decimal and parses back to the snowflake |
| Keyed.Keys | Sources/Discord/Utils/Snowflakable.swift:41 | the keys are the elements' snowflakes, position by position |
| Keyed.FirstIndex | Sources/Discord/Utils/Snowflakable.swift:31 | the position of the first element with the snowflake, or nothing exactly when no element has it |
| Keyed.Get | Sources/Discord/Utils/Snowflakable.swift:27-29 | a found element is in the array and has the snowflake |
| Keyed.GetIsFirstMatch | Sources/Discord/Utils/Snowflakable.swift:27-31 | the getter finds exactly the element at the first matching position |
| Keyed.ContainsIffGet | Sources/Discord/Utils/Snowflakable.swift:40-47 | `sContains` holds exactly when some element matches, and exactly when the getter finds one |
| Keyed.RemoveAt | Sources/Discord/Utils/Snowflakable.swift:32 | removing a position shifts the later elements down by one and keeps the earlier ones |
| Keyed.Assign | Sources/Discord/Utils/Snowflakable.swift:30-36 | writing an absent key changes nothing; writing a present key removes the first match and appends the value, if any |
| Keyed.AssignPresent | Sources/Discord/Utils/Snowflakable.swift:32-35 | on a present key, nil shortens the array by one and a value comes last, with the other elements in order |
| Keyed.AssignPresentKeepsOthers | Sources/Discord/Utils/Snowflakable.swift:32-35 | on a present key, the write trades exactly the first match for the new value, as multisets |
| Keyed.AssignAbsent | Sources/Discord/Utils/Snowflakable.swift:31 | writing a key no element has, even a non-nil value, leaves the array as it was |
| Keyed.GetAfterAssign | Sources/Discord/Utils/Snowflakable.swift:26-37 | after writing a value under a key held by one element, reading the key gives that value |
| Snowflakes.Increment | Sources/Discord/Types/Snowflake.swift:8-10 | the increment is below 4096 |
| Snowflakes.ProcessId | Sources/Discord/Types/Snowflake.swift:12-14 | the process id is below 32 |
| Snowflakes.WorkerId | Sources/Discord/Types/Snowflake.swift:16-18 | the worker id is below 32 |
| Snowflakes.Milliseconds | Sources/Discord/Types/Snowflake.swift:20-27 | the time field fits in 42 bits |
| Snowflakes.TimestampSeconds | Sources/Discord/Types/Snowflake.swift:20-27 | the timestamp lies between the Discord epoch and 2^42 milliseconds after it |
| Snowflakes.NewFields | Sources/Discord/Types/Snowflake.swift:29-47 | a fresh snowflake reads back increment 128, process 1, worker 16, and the clock modulo 2^42 |
| Snowflakes.Description | Sources/Discord/Types/Snowflake.swift:97-99 | the description is canonical decimal |
| Snowflakes.Parse | Sources/Discord/Types/Snowflake.swift:88-94 | text parses exactly when it reads as an unsigned 64-bit decimal, and then to that raw value |
| Snowflakes.ParseDescription | Sources/Discord/Types/Snowflake.swift:88-99 | every snowflake's description parses back to it |
| Snowflakes.DescriptionOfParse | Sources/Discord/Types/Snowflake.swift:88-99 | canonical text that parses is the description of its snowflake |
| Snowflakes.ParseRejectsNonDigits | Sources/Discord/Types/Snowflake.swift:88-94 | text with anything but a digit after its first character never parses |
| Snowflakes.Encode | Sources/Discord/Types/Snowflake.swift:55-58 | encoding writes the raw value as an integer exactly when it fits a signed 64-bit integer, and traps otherwise |
| Snowflakes.Decode | Sources/Discord/Types/Snowflake.swift:60-68 | a string decodes exactly when it parses; an integer decodes to that raw value; any other JSON value is a decoding error |
| Snowflakes.DecodeEncode | Sources/Discord/Types/Snowflake.swift:55-68 | decoding an encoded snowflake gives it back wherever encoding does not trap |
| Snowflakes.DecodeDescription | Sources/Discord/Types/Snowflake.swift:60-68 | a snowflake sent as its decimal text always decodes back to it, over the whole 64-bit range |
| Snowflakes.ResolveArgument | Sources/Discord/Types/Snowflake.swift:121-126 | an argument resolves exactly when it parses, to that snowflake, and is refused as unconvertible otherwise |
| GatewayCodes.OPCodeRaw | Sources/Discord/Gateway/GatewayCodes.swift:1-13 | opcodes take the values 0 to 11 except 5 |
| GatewayCodes.OPCodeFromRaw | Sources/Discord/Gateway/GatewayCodes.swift:1-13 | a number decodes exactly when it is 0 to 11 other than 5, to the opcode with that value |
| GatewayCodes.OPCodeRoundTrip | Sources/Discord/Gateway/GatewayCodes.swift:1-13 | decoding an opcode's value gives it back, and no two opcodes share a value |
| GatewayCodes.ErrorCodeRaw | Sources/Discord/Gateway/GatewayCodes.swift:16-28 | close codes take the values 4000 to 4011 except 4006 |
| GatewayCodes.ErrorCodeFromRaw | Sources/Discord/Gateway/GatewayCodes.swift:16-28 | a number decodes exactly when it is 4000 to 4011 other than 4006, to the close code with that value |
| GatewayCodes.ErrorCodeRoundTrip | Sources/Discord/Gateway/GatewayCodes.swift:16-28 | decoding a close code's value gives it back, and no two close codes share a value |
| DispatchCodes.FromRaw | Sources/Discord/Gateway/DispatchCodes.swift:10-45 | an event name decodes only to the event whose name it is |
| DispatchCodes.FromRawOfRaw | Sources/Discord/Gateway/DispatchCodes.swift:10-45 | every event's name decodes back to the event |
| DispatchCodes.FromRawExactly | Sources/Discord/Gateway/DispatchCodes.swift:10-45 | a name decodes exactly when it is some event's name, and no two events share a name |
| DispatchCodes.SignatureInverts | Sources/Discord/Gateway/DispatchCodes.swift:10-45 | every event is recovered from its name's length and two of its characters |
| Routes.Url | Sources/Discord/Rest/Routes.swift:18-20 | a route's URL is the API root followed by its endpoint |
| Routes.IdOfAsString | Sources/Discord/Rest/Routes.swift:52-54 | a snowflake's path segment reads back as that snowflake, holds no `/` and starts with a digit, so it never reads as a fixed word |
| Routes.TargetOf | Sources/Discord/Rest/Routes.swift:33-551 | every builder's path lies below one of the API's top-level collections: gateway, channels, voice, invites, users, webhooks or guilds |
| Routes.GatewayTarget | Sources/Discord/Rest/Routes.swift:33-43 | both gateway builders read with GET below `gateway` |
| Routes.ChannelTarget | Sources/Discord/Rest/Routes.swift:45-175 | every channel builder's path starts with `channels` and the channel's snowflake |
| Routes.MessageTarget | Sources/Discord/Rest/Routes.swift:72-122 | every message builder's path starts with `channels`, the channel's snowflake and `messages` |
| Routes.InviteTarget | Sources/Discord/Rest/Routes.swift:185-199 | both invite builders address the invite by its code below `invites` |
| Routes.UserTarget | Sources/Discord/Rest/Routes.swift:201-251 | every user builder's path starts with `users`; the second segment is `@me` for all of them except the one that fetches another user |
| Routes.WebhookTarget | Sources/Discord/Rest/Routes.swift:253-315 | a webhook builder's path starts with `webhooks` exactly when it is not one of the three that list or create a channel's or guild's webhooks |
| Routes.GuildTarget | Sources/Discord/Rest/Routes.swift:317-354 | only guild creation posts to `guilds` alone; every other guild builder's path starts with `guilds` and the guild's snowflake |
| Routes.MemberTarget | Sources/Discord/Rest/Routes.swift:356-426 | every member and ban builder's path starts with `guilds` and the guild's snowflake |
| Routes.GuildItemTarget | Sources/Discord/Rest/Routes.swift:428-551 | every role, integration and emoji builder's path starts with `guilds` and the guild's snowflake |
| Routes.RouteOf | Sources/Discord/Rest/Routes.swift:33-551 | a route keeps the builder's verb, and its endpoint splits back into the builder's segments when no free-text argument holds a `/` |
| Routes.GatewayCallsRead | Sources/Discord/Rest/Routes.swift:33-43 | every gateway route decodes back to its call |
| Routes.ChannelCallsRead | Sources/Discord/Rest/Routes.swift:45-175 | every channel route decodes back to its call |
| Routes.MessageCallsRead | Sources/Discord/Rest/Routes.swift:72-122 | every message route decodes back to its call |
| Routes.VoiceCallsRead | Sources/Discord/Rest/Routes.swift:177-183 | every voice route decodes back to its call |
| Routes.InviteCallsRead | Sources/Discord/Rest/Routes.swift:185-199 | every invite route decodes back to its call |
| Routes.UserCallsRead | Sources/Discord/Rest/Routes.swift:201-251 | every user route decodes back to its call |
| Routes.WebhookCallsRead | Sources/Discord/Rest/Routes.swift:253-315 | every webhook route decodes back to its call |
| Routes.GuildCallsRead | Sources/Discord/Rest/Routes.swift:317-354 | every guild route decodes back to its call |
| Routes.MemberCallsRead | Sources/Discord/Rest/Routes.swift:356-426 | every member and ban route decodes back to its call |
| Routes.GuildItemCallsRead | Sources/Discord/Rest/Routes.swift:428-551 | every role, integration and emoji route decodes back to its call |
| Routes.DecodeTarget | Sources/Discord/Rest/Routes.swift:33-551 | reading a verb and path back by the group its prefix selects; its partner lemma `TargetsRead` shows every builder's verb and path decode to that builder, so no two builders share a route |
| Routes.TargetsRead | Sources/Discord/Rest/Routes.swift:33-551 | every builder's verb and path decode back to its call |
| Routes.DecodeRouteOf | Sources/Discord/Rest/Routes.swift:33-551 | every route whose free-text arguments hold no `/` decodes, from its verb and endpoint text, back to the call that built it (the misspelt removal reading as the removal) |
| Routes.RoutesDistinguishCalls | Sources/Discord/Rest/Routes.swift:33-551 | two such calls that build the same verb and endpoint are the same call, the misspelt removal counted as the removal |
| Routes.MisspeltRemoveIsRemove | Sources/Discord/Rest/Routes.swift:380-402 | the misspelt member-removal builder gives the same DELETE route as the member removal |
| Users.AllWithClient | Sources/Discord/Types/Channel/Channel.swift:5-11 | handing users to a client sets each one's client and changes nothing else |
| Users.AllWithClientKeepsUsers | Sources/Discord/Types/Channel/Channel.swift:5-11 | the hand-off keeps each user's id and name, and doing it twice is the same as once |
| Users.Identifier | Sources/Discord/Types/User/User.swift:42-44 | a user's identifier parses back to its snowflake |
| Users.Mention | Sources/Discord/Types/User/User.swift:84-86 | a mention is `<@`, then text, then `>` |
| Users.MentionNamesUser | Sources/Discord/Types/User/User.swift:84-86 | the text inside a mention parses back to the user's snowflake |
| Users.Description | Sources/Discord/Types/User/User.swift:90-92 | a tag's length is the name's, plus one for `#`, plus the discriminator's |
| Users.DescriptionSplits | Sources/Discord/Types/User/User.swift:90-92 | when the name holds no `#`, the tag's first `#` comes right after the name, and splitting there gives back the name and the discriminator |
| Users.ResolveArgument | Sources/Discord/Types/User/User.swift:52-63 | a user argument is always refused as unconvertible |
| Users.UploadedAvatarUrl | Sources/Discord/Types/User/User.swift:77 | an uploaded avatar's URL lies below the CDN's `avatars/` root and names the user: the digits up to the next `/` read back as the user's snowflake, followed by `/`, the avatar hash, `.`, the format and `?size=` with the size, whose text reads back as the size |
| Users.AssetUrlReadsBack | Sources/Discord/Types/User/User.swift:77 | every CDN asset URL built as `root/{id}/{hash}.{format}?size={size}` reads back: the digits after the root parse to the owner's snowflake, the rest is the hash, format and size, and the size's text parses back to the size |
| Users.AvatarUrlAsWritten | Sources/Discord/Types/User/User.swift:73-78 | as written, a user without an avatar gets a URL below the default-avatar root, and a user with one gets the uploaded avatar's URL |
| Users.AvatarUrl | Sources/Discord/Types/User/User.swift:73-78 | as intended, a user without an avatar gets a URL below the default-avatar root, and a user with one gets the uploaded avatar's URL |
| Users.TruncatingRemainder | Sources/Discord/Types/User/User.swift:75 | Swift's remainder is below the divisor in magnitude, equals the Euclidean one for a non-negative dividend and is never positive for a negative one |
| Users.AvatarUrlAsWrittenOutOfRange | Sources/Discord/Types/User/User.swift:75 | as written, discriminator "1234" names default avatar 1234, which does not exist |
| Users.DefaultAvatarIndex | Sources/Discord/Types/User/User.swift:75 | the corrected index is a numeric discriminator modulo 5, or 0 when it does not parse |
| Users.DefaultAvatarUrlInRange | Sources/Discord/Types/User/User.swift:73-78 | the corrected URL always names one of the five default avatars |
| Users.UploadedAvatarUnaffected | Sources/Discord/Types/User/User.swift:77 | with an uploaded avatar both versions give the same URL |
| Emojis.NewEmoji | Sources/Discord/Types/Emoji.swift:11-20 | the initialiser keeps the id and name and leaves every optional field nil |
| Emojis.Description | Sources/Discord/Types/Emoji.swift:36-38 | the description is the URL value in angle brackets |
| Emojis.Animated | Sources/Discord/Types/Emoji.swift:41 | an emoji counts as animated exactly when its flag is present and true |
| Emojis.UrlValue | Sources/Discord/Types/Emoji.swift:40-42 | a URL value starts with `a` exactly when the emoji is animated, and with `:` otherwise |
| Emojis.ParseUrlValue | Sources/Discord/Types/Emoji.swift:40-42 | reading a URL value back gives a name without `:` and the animation flag its first character shows |
| Emojis.Url | Sources/Discord/Types/Emoji.swift:52-54 | an emoji's URL lies below the emoji root and ends in `.gif` exactly when the emoji is animated |
| Emojis.UrlValueReadsBack | Sources/Discord/Types/Emoji.swift:40-42 | a URL value reads back as the animation flag, name and id |
| Emojis.UrlValueIdentifies | Sources/Discord/Types/Emoji.swift:40-42 | emojis with the same URL value agree on id, name and animation |
| Emojis.NilAnimatedIsStill | Sources/Discord/Types/Emoji.swift:40-54 | a nil animation flag counts as still, in both the URL value and the URL |
| Emojis.UrlIgnoresId | Sources/Discord/Types/Emoji.swift:52-54 | the URL depends only on the name and the animation flag, with a `.gif` or `.png` ending to match |
| ChannelTypes.ChannelTypeRaw | Sources/Discord/Types/Channel/Channel.swift:192-194 | channel types take the values 0 to 6 |
| ChannelTypes.ChannelTypeFromRaw | Sources/Discord/Types/Channel/Channel.swift:192-194 | a number decodes exactly when it is 0 to 6, to the type with that value |
| ChannelTypes.ChannelTypeRoundTrip | Sources/Discord/Types/Channel/Channel.swift:192-194 | decoding a type's value gives it back, and no two types share a value |
| ChannelTypes.Classification | Sources/Discord/Types/Channel/Channel.swift:68-82 | no type is both a guild and a DM type, news and store channels are neither, and the voice types are voice, DM and group DM |
| Channels.Channel.SetClient | Sources/Discord/Types/Channel/Channel.swift:5-11 | assigning the client hands it to every recipient and keeps them otherwise |
| Channels.Channel.Mention | Sources/Discord/Types/Channel/Channel.swift:64-66 | a channel mention is `<#`, then text, then `>` |
| Channels.Channel.Description | Sources/Discord/Types/Channel/Channel.swift:48-50 | the description is the channel's name, or text parsing back to its snowflake when it has none |
| Channels.Channel.IsGuild | Sources/Discord/Types/Channel/Channel.swift:68-70 | a channel is a guild channel exactly when it is neither a direct message nor a news or store channel |
| Channels.Channel.IsDm | Sources/Discord/Types/Channel/Channel.swift:72-74 | a direct-message channel is a voice type and never a guild type |
| Channels.Channel.IsNsfw | Sources/Discord/Types/Channel/Channel.swift:76-78 | an NSFW channel is a guild text channel whose flag is set; a missing flag counts as not NSFW |
| Channels.Channel.IsVoice | Sources/Discord/Types/Channel/Channel.swift:80-82 | a voice channel is a guild voice channel or any direct message |
| Channels.Channel.GetMessage | Sources/Discord/Types/Channel/Channel.swift:96-98 | fetching a message reads this channel's message by its snowflake |
| Channels.Channel.Send | Sources/Discord/Types/Channel/Channel.swift:101-105 | sending posts the text to this channel, with no nonce and no mention allowed |
| Channels.Channel.SendPayload | Sources/Discord/Types/Channel/Channel.swift:132-134 | a prepared message is posted to this channel as given |
| Channels.Channel.Pins | Sources/Discord/Types/Channel/Channel.swift:112-114 | listing pins reads this channel's pins |
| Channels.Channel.Pin | Sources/Discord/Types/Channel/Channel.swift:116-118 | pinning adds the message to this channel's pins |
| Channels.Channel.Unpin | Sources/Discord/Types/Channel/Channel.swift:120-122 | unpinning removes the message from this channel's pins |
| Channels.Channel.StartTyping | Sources/Discord/Types/Channel/Channel.swift:136-138 | typing is shown in this channel |
| Channels.Channel.DeleteMessages | Sources/Discord/Types/Channel/Channel.swift:140-151 | deleting messages issues at most one request, and none exactly when no message is given |
| Channels.Channel.Delete | Sources/Discord/Types/Channel/Channel.swift:153-156 | deletion is allowed exactly for a DM or with the guild's manageChannels permission, and deletes this channel; otherwise it fails with InvalidPermissions |
| Channels.Channel.Close | Sources/Discord/Types/Channel/Channel.swift:158-161 | closing is allowed exactly for a DM, and then is the deletion |
| Channels.DeleteMessagesDeletesThem | Sources/Discord/Types/Channel/Channel.swift:140-151 | each request deletes exactly the given messages, all in this channel |
| Channels.MentionNamesChannel | Sources/Discord/Types/Channel/Channel.swift:64-66 | the text inside a channel mention parses back to the channel's snowflake |
| Channels.ChannelClassification | Sources/Discord/Types/Channel/Channel.swift:68-82 | no channel is both a guild channel and a DM, exactly news and store channels are neither, voice means a voice channel or a DM, and an NSFW channel is a guild channel |
| Channels.DeleteAndCloseGuards | Sources/Discord/Types/Channel/Channel.swift:153-161 | a DM can always be deleted and closed; a guild channel is never closed and is deleted exactly with manageChannels |
| Channels.PinUnpinPair | Sources/Discord/Types/Channel/Channel.swift:116-122 | pinning and unpinning address the same endpoint, with PUT and DELETE |
| GuildMembers.GuildMember.SetClient | Sources/Discord/Types/Guild/GuildMember.swift:5-9 | assigning the client hands it to the member's user and keeps everything else |
| GuildMembers.GuildMember.CopyWith | Sources/Discord/Types/Guild/GuildMember.swift:24-28 | the copy is a new member with the same fields, handed to the client |
| GuildMembers.GuildMember.Id | Sources/Discord/Types/Guild/GuildMember.swift:119-121 | a member's id is its user's snowflake |
| GuildMembers.GuildMember.Identifier | Sources/Discord/Types/Guild/GuildMember.swift:51-53 | a member's identifier parses back to its user's snowflake |
| GuildMembers.GuildMember.Name | Sources/Discord/Types/Guild/GuildMember.swift:73-75 | the name is the nickname when set, and the username otherwise |
| GuildMembers.GuildMember.IsOwner | Sources/Discord/Types/Guild/GuildMember.swift:115-117 | a member owns the guild exactly when its user's snowflake is the guild's owner id |
| GuildMembers.GuildMember.SetNickname | Sources/Discord/Types/Guild/GuildMember.swift:89-96 | the current user renames itself through `@me`, and anyone else is modified with only the nickname |
| GuildMembers.GuildMember.ClearNickname | Sources/Discord/Types/Guild/GuildMember.swift:98-100 | clearing sets the empty nickname |
| GuildMembers.GuildMember.Modify | Sources/Discord/Types/Guild/GuildMember.swift:102-105 | modify sends the role ids, mute, deafen and channel given, and never a nickname |
| GuildMembers.GuildMember.Kick | Sources/Discord/Types/Guild/GuildMember.swift:77-79 | kicking sends no body and removes this member's user from the member's guild |
| GuildMembers.GuildMember.AddRole | Sources/Discord/Types/Guild/GuildMember.swift:107-109 | the role is added to this member in its guild |
| GuildMembers.GuildMember.RemoveRole | Sources/Discord/Types/Guild/GuildMember.swift:111-113 | the role is removed from this member in its guild |
| GuildMembers.GuildMember.Mention | Sources/Discord/Types/Guild/GuildMember.swift:123-125 | the member's mention names its user's snowflake |
| GuildMembers.GuildMember.Description | Sources/Discord/Types/Guild/GuildMember.swift:63-65 | the description is the user's name followed by `#` and the discriminator |
| GuildMembers.RoleIds | Sources/Discord/Types/Guild/GuildMember.swift:103 | the role ids are the roles' snowflakes, position by position |
| GuildMembers.ModifyKeepsNickname | Sources/Discord/Types/Guild/GuildMember.swift:89-105 | modify never touches the nickname, while clearing always sends the empty one |
| GuildMembers.RoleAddRemovePair | Sources/Discord/Types/Guild/GuildMember.swift:107-113 | adding and removing a role address the same endpoint, with PUT and DELETE |
| Guilds.Guild.SetClient | Sources/Discord/Types/Guild/Guild.swift:5-15 | assigning the client hands it to every member, with this guild's id, and to every channel |
| Guilds.Guild.HandMembers | Sources/Discord/Types/Guild/Guild.swift:7-10 | every member gets the client and this guild's id |
| Guilds.Guild.HandChannels | Sources/Discord/Types/Guild/Guild.swift:11-13 | every channel gets the client |
| Guilds.Guild.Owner | Sources/Discord/Types/Guild/Guild.swift:77-79 | the owner is one of the guild's members, and its user has the owner's snowflake |
| Guilds.Guild.GetPermissions | Sources/Discord/Types/Guild/Guild.swift:81-87 | the owner holds administrator alone; anyone else holds at least the `@everyone` role's permissions and every held role's |
| Guilds.Guild.CreateRoleRequest | Sources/Discord/Types/Guild/Guild.swift:89-92 | creating a role posts the name, permissions, colour and flags given to this guild's roles |
| Guilds.Guild.DeleteRole | Sources/Discord/Types/Guild/Guild.swift:94-96 | deleting a role sends DELETE on that role of this guild, with no body |
| Guilds.Guild.GetBans | Sources/Discord/Types/Guild/Guild.swift:103-105 | listing bans sends GET on this guild's bans, with no body |
| Guilds.Guild.Ban | Sources/Discord/Types/Guild/Guild.swift:107-113 | only a member or a user can be banned, by PUT on this guild's ban of its snowflake; anything else fails with UnbannableInstance |
| Guilds.Guild.Unban | Sources/Discord/Types/Guild/Guild.swift:115-121 | only a member or a user can be unbanned, by DELETE on this guild's ban of its snowflake; anything else fails with UnbannableInstance |
| Guilds.Guild.CreateCategory | Sources/Discord/Types/Guild/Guild.swift:123-126 | a category is created in this guild with the name and position given and never under a parent |
| Guilds.Guild.Leave | Sources/Discord/Types/Guild/Guild.swift:144-146 | leaving sends DELETE on the current user's membership of this guild, with no body |
| Guilds.Guild.GetEmojis | Sources/Discord/Types/Guild/Guild.swift:148-150 | listing emojis sends GET on this guild's emojis, with no body |
| Guilds.ParentId | Sources/Discord/Types/Guild/Guild.swift:132 | the parent's id is present exactly when a parent is given, and is that channel's snowflake |
| Guilds.TextAndVoiceChannelsAgree | Sources/Discord/Types/Guild/Guild.swift:128-142 | text and voice channels accept the same parents and use the same route; without type-specific fields their payloads differ only in the type |
| Guilds.Guild.CreateTextChannel | Sources/Discord/Types/Guild/Guild.swift:128-134 | a text channel is created in this guild under a category parent or none; the payload carries the name, position, topic, NSFW flag, slow-mode delay, overwrites and the parent's id as given, and no bitrate or user limit; any other parent fails with UnusableParent |
| Guilds.Guild.CreateVoiceChannel | Sources/Discord/Types/Guild/Guild.swift:136-142 | a voice channel is created in this guild under a category parent or none; the payload carries the name, position, bitrate, user limit, overwrites and the parent's id as given, and no topic, slow mode or NSFW flag; any other parent fails with UnusableParent |
| Guilds.Guild.IconUrl | Sources/Discord/Types/Guild/Guild.swift:152-155 | a guild has an icon URL exactly when it has an icon; the URL lies below the CDN's `icons/` root and names the guild's snowflake, the icon hash, the format and the size, each reading back |
| Guilds.Guild.SplashUrl | Sources/Discord/Types/Guild/Guild.swift:157-160 | a guild has a splash URL exactly when it has a splash; the URL lies below the CDN's `splashes/` root and names the guild's snowflake, the splash hash, the format and the size, each reading back |
| Guilds.ImageUrl | Sources/Discord/Types/Guild/Guild.swift:152-160 | a guild image URL lies below `https://cdn.discordapp.com/{kind}/` and names the guild, the hash, the format and the size |
| Guilds.MemberIndex | Sources/Discord/Types/Guild/Guild.swift:78 | the index of the first member whose user has the snowflake |
| Guilds.HeldRoles | Sources/Discord/Types/Guild/Guild.swift:85 | the held roles are exactly the guild's roles whose ids the member holds |
| Guilds.EveryonePermissions | Sources/Discord/Types/Guild/Guild.swift:86 | the `@everyone` permissions, when not empty, are those of a guild role whose id is the guild's |
| Guilds.UnionOf | Sources/Discord/Types/Guild/Guild.swift:86 | the fold keeps everything the accumulator grants and everything each role grants |
| Guilds.MemberPermissions | Sources/Discord/Types/Guild/Guild.swift:81-87 | the owner holds administrator alone; anyone else holds at least the `@everyone` permissions and every held role's |
| Guilds.UnionOfGrants | Sources/Discord/Types/Guild/Guild.swift:86 | the union holds exactly the permissions some role grants |
| Guilds.PermissionsGranted | Sources/Discord/Types/Guild/Guild.swift:81-87 | the owner holds administrator alone, and anyone else holds exactly what `@everyone` or one of the guild roles they hold grants |
| Guilds.UnknownRoleGrantsNothing | Sources/Discord/Types/Guild/Guild.swift:85-86 | a role id the guild does not have grants nothing |
| Guilds.OwnerIsAdministrator | Sources/Discord/Types/Guild/Guild.swift:82-84 | the owner's permissions are administrator alone, whatever roles it holds |
| Guilds.GuildRequestsNameGuild | Sources/Discord/Types/Guild/Guild.swift:89-150 | every request a guild issues names that guild, and a category is a parentless channel of the category type |
| Guilds.BanUnbanAgree | Sources/Discord/Types/Guild/Guild.swift:107-121 | ban and unban accept exactly users and members, refuse anything else with UnbannableInstance, and name this guild and the target's snowflake |
| Guilds.MemberBannable | Sources/Discord/Types/Guild/GuildMember.swift:81-87 | a member is banned as a member, by its user's snowflake |
| Guilds.MemberBanUnban | Sources/Discord/Types/Guild/Guild.swift:107-121 | a member can always be banned and unbanned from its guild by its user's snowflake |
| Guilds.IconUrlDefaults | Sources/Discord/Types/Guild/Guild.swift:152-155 | with the default format and size, the icon URL is the CDN's `icons` path for the guild and the icon hash, ending `.png?size=1024` |
| Messages.Message.SetClient | Sources/Discord/Types/Channel/Message/Message.swift:7-16 | assigning the client hands it to the author, the member and every mentioned user |
| Messages.Message.HandMember | Sources/Discord/Types/Channel/Message/Message.swift:9-12 | the member gets the client, the author as its user and the message's guild |
| Messages.Message.HandMentions | Sources/Discord/Types/Channel/Message/Message.swift:13-15 | every mentioned user gets the client, in order |
| Messages.Message.CopyWith | Sources/Discord/Types/Channel/Message/Message.swift:62-66 | the copy is a new message with the same fields, handed to the client |
| Messages.Message.GAuthor | Sources/Discord/Types/Channel/Message/Message.swift:132-134 | the author is the user when there is one, and the webhook otherwise |
| Messages.Message.Pin | Sources/Discord/Types/Channel/Message/Message.swift:168-170 | pinning pins this message in its channel |
| Messages.Message.Unpin | Sources/Discord/Types/Channel/Message/Message.swift:172-174 | unpinning unpins this message in its channel |
| Messages.Message.Reply | Sources/Discord/Types/Channel/Message/Message.swift:176-178 | a reply posts the text to the message's channel |
| Messages.Message.Edit | Sources/Discord/Types/Channel/Message/Message.swift:180-184 | editing modifies this message with the new text |
| Messages.Message.Delete | Sources/Discord/Types/Channel/Message/Message.swift:186-188 | deleting sends DELETE on this message in its channel, with no body |
| Messages.Message.AddReaction | Sources/Discord/Types/Channel/Message/Message.swift:190-201 | reacting sends PUT on this message's reactions with the emoji's URL value, which reads back as the emoji when its name holds no `:` |
| Messages.Message.Mentions | Sources/Discord/Types/Channel/Message/Message.swift:209-211 | a mentioned role's snowflake is always mentioned, and with no mentioned users only those are |
| Messages.Message.IsNotMeOrBot | Sources/Discord/Types/Channel/Message/Message.swift:159-162 | a message that passes has an author that is neither the current user nor a bot |
| Messages.Message.RemoveReaction | Sources/Discord/Types/Channel/Message/Message.swift:203-207 | the reaction of the given user is removed, or the current user's when none is given |
| Messages.Reactor | Sources/Discord/Types/Channel/Message/Message.swift:205 | the user segment is `@me` exactly when no user is given, and the user's snowflake otherwise |
| Messages.ErrorReply | Sources/Discord/Types/Channel/Message/Message.swift:136-149 | every command error gets a non-empty reply |
| Messages.ErrorReplyEndsWithUsage | Sources/Discord/Types/Channel/Message/Message.swift:136-149 | a reply ends with the usage text exactly when the error is not the permissions error |
| Messages.MissingArgumentNamed | Sources/Discord/Types/Channel/Message/Message.swift:140-141 | a missing argument's reply opens with the fixed text and then the argument between formatting marks |
| Messages.ErrorRepliesDistinct | Sources/Discord/Types/Channel/Message/Message.swift:136-149 | errors of different kinds never get the same reply |
| Messages.MentionsIff | Sources/Discord/Types/Channel/Message/Message.swift:209-211 | a message mentions a snowflake exactly when some mentioned user or some mentioned role has it |
| Messages.HandOffKeepsMentions | Sources/Discord/Types/Channel/Message/Message.swift:13-15 | handing the mentioned users to a client keeps who is mentioned |
| Messages.IsNotMeOrBotCases | Sources/Discord/Types/Channel/Message/Message.swift:159-162 | a message passes exactly when it has an author that is neither the current user nor a bot |
| Messages.GAuthorIdentifier | Sources/Discord/Types/Channel/Message/Message.swift:108-116 | the author's identifier is the user's snowflake text, and a webhook has none |
| Messages.ReactionsPairUp | Sources/Discord/Types/Channel/Message/Message.swift:190-207 | adding and removing one's own reaction address the same endpoint, and naming a user addresses that user instead |
| Messages.ActsThroughChannel | Sources/Discord/Types/Channel/Message/Message.swift:168-178 | a message pins, unpins and replies through exactly the requests its channel makes |
| Messages.GetEditDeletePair | Sources/Discord/Types/Channel/Message/Message.swift:180-188 | fetching, editing and deleting a message address one endpoint, with GET, PATCH and DELETE |
| States.Upsert | Sources/Discord/State/State.swift:76-85 | the state subscript's write removes the first match and appends the value, even when nothing matched |
| States.UpsertCases | Sources/Discord/State/State.swift:76-85 | on an absent key the state's write appends the value, unlike the array setter; on a present key it is the array setter |
| States.UpsertNilRemovesFirstOnly | Sources/Discord/State/State.swift:83-84 | writing nil removes only the first match, so a later duplicate survives |
| States.GetAfterUpsert | Sources/Discord/State/State.swift:72-85 | after writing a value, reading its key gives that value whenever no earlier element has the key |
| States.State.constructor | Sources/Discord/State/State.swift:14-21 | a new state holds no channels, guilds, DMs or users, and no current user |
| States.State.Me | Sources/Discord/State/State.swift:61-64 | reading the current user gives the stored one |
| States.State.SetMe | Sources/Discord/State/State.swift:65-67 | writing the current user replaces it and nothing else |
| States.State.SetChannels | Sources/Discord/State/State.swift:25-32 | writing the channels replaces them and nothing else |
| States.State.SetGuilds | Sources/Discord/State/State.swift:34-41 | writing the guilds replaces them and nothing else |
| States.State.SetDms | Sources/Discord/State/State.swift:43-50 | writing the DMs replaces them and nothing else |
| States.State.SetUsers | Sources/Discord/State/State.swift:52-59 | writing the users replaces them and nothing else |
| States.State.Channel | Sources/Discord/State/State.swift:73-75 | a found channel is one of the cached channels and has the snowflake |
| States.State.Guild | Sources/Discord/State/State.swift:73-75 | a found guild is one of the cached guilds and has the snowflake |
| States.State.WriteChannel | Sources/Discord/State/State.swift:76-85 | writing a channel updates the channel array by the state's upsert, detaches the channel from its client and changes nothing else |
| States.State.WriteGuild | Sources/Discord/State/State.swift:76-85 | writing a guild updates the guild array by the state's upsert, detaches the guild, its members and channels from the client and changes nothing else |
| States.ChannelReadsBack | Sources/Discord/State/State.swift:72-85 | a channel written under its own snowflake is read back |
| ChannelPayloads.SnowflakeItem | Sources/Discord/Types/Channel/ChannelPayloads.swift:29-31 | a snowflake query item carries the snowflake's text under its name |
| ChannelPayloads.LimitItem | Sources/Discord/Types/Channel/ChannelPayloads.swift:34 | the limit item carries the limit's decimal text |
| ChannelPayloads.MessagesQueryItems | Sources/Discord/Types/Channel/ChannelPayloads.swift:27-37 | the message query holds the anchors given, in order, and the limit last exactly when one is given |
| ChannelPayloads.ReactionsQueryItems | Sources/Discord/Types/Channel/ChannelPayloads.swift:68-77 | the reaction query holds the anchors given, in order, and the limit last exactly when one is given |
| UserComponents.GuildsQueryItems | Sources/Discord/Types/User/UserComponents.swift:13-22 | the guild query holds the anchors given, in order, and the limit last exactly when one is given |

## Left out

- Network and HTTP: executing a request is outside the model. An operation's effect is the request it hands to the REST client.
- The WebSocket: its connection and its callbacks are transitions of the shard (`SocketOpened`, `SocketClosed`). Dispatch queues and event loops are left out. Locks are left out: the model runs one operation at a time.
- Logging and metrics are left out.
- zlib is a foreign C library. Each inflate call is a step of a finite script. The model makes no claim about termination beyond the lemmas on that script.
- Time: `Date` and `Double` seconds become integer milliseconds, with the clock as a `now` parameter. Header numbers are read as exact decimals truncated to thousandths.
- Snowflakes.TimestampSeconds: whole seconds, because the source divides by 1000 in integer arithmetic before converting to `Double`.
- Snowflakes.Less is only a definition. Ordering by raw value is not stated as a property.
- Permissions: the option set, defined outside this package, is the set of its bit positions.
- `URL(string:)` is approximated: a URL is accepted when it is a non-empty string of the characters RFC 3986 allows (letters, digits and `-._~:/?#[]@!$&'()*+,;=%`). Its structure is not checked.
- Codable records: only the snowflake encoding, the payload header and the outbound bodies are modelled. `decodeConcreteType` and the other JSON bodies are left out.
- StatePlugin registration is left out.
- DispatchCodes: the typed event constants are only keys that name their event. Their Swift generic typing is left out.
- Memory.Realloc: requires the new size to be at least the old one. For a smaller size the source's copy writes past the end of the new buffer, which Swift leaves undefined.
- Force-unwraps become preconditions. Examples: the member's user in `GuildMember.Id`, and the owner's presence in `Guild.Owner`. `Routes.Url` is the exception below.
- Routes.Url: the source force-unwraps `URL(string:)` on the root plus the endpoint (Rest/Routes.swift:18), so an endpoint that is not URL text crashes it. One example is a reaction whose emoji name holds a space, reaching the endpoint through `Messages.Message.AddReaction` and `Emojis.UrlValue`. The model returns the text for every endpoint and does not model that crash.
- Lookups in the client's state (a message's channel and guild, a member's guild, the current user) are parameters or stored snowflakes.
- Messages: the lazily looked-up `channel` and `guild` properties and `gChannel` are not modelled.
- Messages: `setClient(_:)` applied to a reply's result is not modelled.
- Messages: `addReaction(String)`'s guard against non-emoji text outside Linux is left out, because it needs Unicode property tables.
- Embeds are not part of the message bodies. `Reply` and `Edit` send no embed.
- Messages.Message.Edit: the source passes three arguments (the channel, the message and the body) to the two-argument `ChannelMessagesModify` builder (Types/Channel/Message/Message.swift:183, Rest/Routes.swift:92), so it does not compile as written. The model takes the evident intent: a PATCH on this message in its channel, with the edit body.
- Messages.Message.Pin: in the source, `pin` and `unpin` return the channel's `Void` result as a future. The model takes the evident intent: the channel's request.
- Channel `set(...)` is not modelled. Its body is a REST call with a payload the model does not define.
- The channel-level `createTextChannel` and `createVoiceChannel` are not modelled. They throw `NotAGuild`, which is not a case of the error enum at Rest/RestClient.swift:4-9. The guild versions are modelled.
- GuildMember `ban` and `unban`: the source returns the `Void` of `guild.ban` without `try`, so it does not compile as written. `Guilds.MemberBannable` and `Guilds.MemberBanUnban` model the evident intent.
- Guild `requestGuildMembers` has an empty body and is not modelled.
- The guild's emojis, voice states and other decoded fields are not modelled, and neither is `GuildRole.mention`.
- Guilds.Guild.Ban: the dynamic type test on `Snowflakable` becomes the entity kind carried by `Bannable`.
- Routes: the builders take any `Snowflakable`; the model takes the snowflake itself. The pin builders (`ChannelsPinsAdd`, `ChannelsPinsDelete`, Rest/Routes.swift:156-162), the group-DM recipient builders (`ChannelGroupDMRecipientsAdd`, `ChannelGroupDMRecipientsDelete`, 168-174) and the ban builders through `GuildBansBase` (`GuildBansGet`, `GuildBansCreate`, `GuildBansRemove`, 408-410) interpolate the argument with `"\(x)"` instead of `asString`. For a `User` that gives its `name#discriminator` description, not its snowflake. Every call site in the modelled entities passes a snowflake, so that path is not modelled.
- Routes.MisspeltRemoveIsRemove: the misspelt `GuildMembresRemove` builder is identified with the member removal it duplicates.
- Structs mutated through a `let` binding, where Swift would copy, are modelled by their evident intent: the entity is updated.

- Shards.Shard.HandleBinary: runs the corrected inflate loop (`Frames.SyncFlushLoop`, `Frames.InflateFrame`), not the loop as written at Gateway/Shard.swift:92-104. As written, that loop never leaves on a small sync-flushed frame and cuts a large one short (see Findings), so a shard running it would not reach `HandleText` on such a frame (`Frames.AsWrittenHangsOnSmallFrame`).
- ShardLemmas.HandleBinaryCases: holds for the shard with the corrected inflate loop, not for the loop as written.
- ShardLemmas.HandleBinaryPreservesInvariant: holds for the shard with the corrected inflate loop, not for the loop as written.
- Ratelimit.ParseThousandths: reads an optional sign, digits with an optional point and an optional exponent, as `Double(_:)` does for decimal text. The hexadecimal form, `inf`, `infinity` and `nan` are refused, though `Double(_:)` reads them. Values are exact decimals truncated toward zero to thousandths, not rounded to a `Double`, and never overflow to infinity.

## Findings

| source | as written | input that shows it | evidently intended | confidence | as-written member | corrected member |
|---|---|---|---|---|---|---|
| Sources/Discord/Gateway/Shard.swift:92-104 | the inflate loop leaves only on `Z_STREAM_END` or an error status, and grows the buffer only on `Z_BUF_ERROR` with no input left | a sync-flushed frame that inflates in one call never yields `Z_STREAM_END`, so the loop never leaves; a frame that fills the buffer with input left ends on `Z_BUF_ERROR` with its text cut short | stop once the input is consumed and the output was not full, keeping every call's bytes | not executed | Frames.AsWrittenHangsOnSmallFrame | Frames.SyncFlushKeepsEveryByte |
| Sources/Discord/Types/User/User.swift:75 | `Int(discriminator) ?? 0 % 5` computes `Int(discriminator) ?? (0 % 5)` | discriminator "1234" without an avatar gives `embed/avatars/1234.png` | `(Int(discriminator) ?? 0) % 5`, one of the five default avatars | not executed | Users.AvatarUrlAsWrittenOutOfRange | Users.DefaultAvatarUrlInRange |
