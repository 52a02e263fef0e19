# TwitchSimpleLib: connection management and subscription bookkeeping

This project models the core of TwitchSimpleLib, a C# client library for
Twitch chat (IRC over WebSocket) and Twitch PubSub, and proves its
properties in Dafny. It covers these parts:

- **Reconnect backoff** (`Backoff`). `ReconnectionTime` doubles the wait on
  every attempt, up to a ceiling, and resets after a successful connect.
- **Connection** (`Transport`, `Framing`). `WsConnection` starts at most once
  and ignores writes unless the socket is open. A write that throws disposes
  the connection, and disposal notifies exactly once. The receive loop uses a
  buffer that grows in 512-character steps. At the end of a text message it
  splits the buffer on CRLF and dispatches every non-empty piece in order.
- **Keepalive watchdog** (`Watchdog`). `PingManager` is a state machine:
  - it moves from a delay phase, to a probe, to a timeout phase;
  - pongs that match cancel the wait;
  - a timeout is terminal.

  The class steps that state machine.
- **Client lifecycle** (`Client`). `BaseClient` holds:
  - the `Closed` flag and the current connection;
  - the disposal hook, which schedules a reconnect only when the client is
    not closed;
  - the reconnect task: the backoff wait plus a jitter, after which it
    connects again;
  - the connect order: reset the backoff, run the post-connect hook, raise
    `Connected`.
- **Chat client** (`ChatProtocol`, `Irc`, `Chat`).
  - The registry of auto-joined channels is kept in order, with no two names
    equal ignoring case.
  - The client builds the IRC commands, sends the login commands on connect,
    replays JOINs after authentication, and closes on a failed login.
  - It routes each received line to its channel.
  - It merges room settings field by field.
  - It parses the badges tag of a PRIVMSG.
- **PubSub client** (`PubsubTopics`, `Pubsub`).
  - The topic registry keeps topics in order, with no de-duplication.
  - LISTEN and UNLISTEN are sent when topics are added or removed while the
    client is connected.
  - On connect, topics are grouped by their effective token, with one LISTEN
    per group.
  - Each `\"` in a received message is unescaped, and the message goes to the
    first topic with that exact name.

Time, randomness and the network are inputs, not effects:
- a connect attempt succeeds or fails according to a parameter;
- writes throw from the moment `WsConnection.Break` is called;
- receive results are a sequence of frames;
- each timer firing is a method call on the watchdog;
- the reconnect jitter and the cancellation of the reconnect wait are
  parameters of `RunReconnectTask`, and so are the watchdog's probe texts
  (tick counts in the source).

Each fire-and-forget task (`Task.Run`, an `async void` handler) runs to
completion at the point where the source starts it. Every raised event
(`Connected`, `ConnectionClosed`, `ChannelJoined`, a topic's
`RawDataReceived`, and so on) is recorded in an event log. The contracts
state those logs.

State that the source mutates lives in classes:
- `ReconnectionTime`, `WsConnection`, `PingManager`, `BaseClient`,
  `ChatAutoChannel`, `TwitchChatClient`, `PubsubAutoTopic` and
  `TwitchPubsubClient`.

Their methods are proved against value-level functions:
- `WaitTime`, `AfterWrites`, `Step`, `AfterDisposing`, `Merge`, `Notify`,
  `RemoveFirst`, `GroupBy`, `Deliver` and `Listen`.

Lemmas prove what the source promises about those functions.

The chat client and the pubsub client each own a `BaseClient`. The source
instead derives them from it and overrides its virtual hooks. Each client
runs its disposal hook itself, right after a call that disposed its
connection. In the source this is done by the connection's `Disposing`
event.

## Model

| member | source | states |
|---|---|---|
| Backoff.WaitTime | Irc/ReconnectionTime.cs:26-37 | The wait is at most `maxTime`, and it is either `maxTime` or `minTime * 2^attempts`. |
| Backoff.Pow2 | Irc/ReconnectionTime.cs:29 | The factor `2^attempts` is positive and larger than the attempt count. |
| Backoff.Schedule | Irc/ReconnectionTime.cs:26-37 | The waits of successive attempts: one per attempt, none above the maximum or above `minTime * 2^attempts`. |
| Backoff.ReconnectionTime.constructor | Irc/ReconnectionTime.cs:10-19 | Starts with no attempts and the given bounds. |
| Backoff.ReconnectionTime.Connected | Irc/ReconnectionTime.cs:21-24 | Resets the attempt count to zero. |
| Backoff.ReconnectionTime.DoAttempt | Irc/ReconnectionTime.cs:26-37 | Returns `min(maxTime, minTime * 2^attempts)` for the attempts made before the call, and counts exactly one more attempt. |
| Backoff.Pow2Monotone | Irc/ReconnectionTime.cs:29 | The factor `2^attempts` never decreases as attempts grow. |
| Backoff.WaitTimeMonotone | Irc/ReconnectionTime.cs:29-36 | When `minTime >= 0`, more attempts never give a shorter wait. |
| Backoff.ScheduleNonDecreasing | Irc/ReconnectionTime.cs:29-36 | With no reset in between, successive waits never decrease and never exceed the maximum. |
| Backoff.WaitAfterReset | Irc/ReconnectionTime.cs:21-24 | After a reset the first wait is the smaller of the two bounds. |
| Backoff.DefaultSchedule | Irc/ReconnectionTime.cs:29-36 | With 500 ms and 15 s the waits are 500, 1000, 2000, 4000, 8000, 15000, 15000. |
| Backoff.FaultScenario | Irc/ReconnectionTime.cs:21-37 | Three failed attempts, a success and a failure wait 500, 1000, 2000 and 500 ms. |
| Transport.WritesCompose | Irc/WsConnection.cs:99-123 | Writing two batches is writing their concatenation. The connection is disposed by at most one of the batches. |
| Transport.AfterWrites | Irc/WsConnection.cs:99-123 | Writes only ever add to what was sent, and then all of the batch. The connection ends up disposed exactly when it already was, or it was open and a write of a non-empty batch threw; that adds one `SendFailed` disposal. Nothing is received. |
| Transport.WsConnection.constructor | Irc/WsConnection.cs:16-39 | The connection starts neither started nor disposed, with nothing sent, received or raised. |
| Transport.WsConnection.StartAsync | Irc/WsConnection.cs:48-78 | Throws (an error) if already started, then if already disposed, changing nothing. Otherwise it sets `started`. A failed connect disposes the connection once with the connect error and returns false. Success opens the socket, starts the receive loop and returns true. |
| Transport.WsConnection.SendAsync | Irc/WsConnection.cs:99-123 | A no-op unless the socket is open. A throwing write disposes the connection with the write error; otherwise the message is sent. |
| Transport.WsConnection.Dispose | Irc/WsConnection.cs:192-211 | Idempotent. Only the first call closes the socket and raises `Disposing`, exactly once and with the given reason; later calls change nothing. |
| Transport.WsConnection.Break | Irc/WsConnection.cs:116-122 | From now on every write throws; nothing else changes. |
| Transport.WsConnection.OnMessageReceived | Irc/WsConnection.cs:180-190 | Raises `MessageReceived` with the message and changes nothing else. |
| Transport.WsConnection.ListenAsync | Irc/WsConnection.cs:125-178 | The loop raises `MessageReceived` for exactly the lines `Framing.Listen` yields for the frames. A loop that ends on a Close frame or an error disposes the connection. A loop on a socket that is not open does nothing. Its variables `currentCount` and `spaceLeft` always add up to the buffer's length. |
| Transport.WsConnection.ReceiveOnce | Irc/WsConnection.cs:135-171 | One iteration in place on the buffer array. When `spaceLeft` is zero the buffer grows by 512, keeping its contents, and `spaceLeft` gains 512. The received chunk is appended and `spaceLeft` loses its length; the end of a text message resets `spaceLeft` to the buffer's length. The count, the free space and the buffer afterwards are the ones `Framing.Receive` gives. |
| Transport.WsConnection.RaiseAll | Irc/WsConnection.cs:158-161 | Dispatches the split pieces in order. |
| Transport.Grown | Irc/WsConnection.cs:135-139 | `Array.Resize`: the new array is 512 longer and starts with the old contents. |
| Transport.WriteAt | Irc/WsConnection.cs:140-144 | The socket writes the chunk into the segment after `currentCount`. |
| Framing.FindCrlf | Irc/WsConnection.cs:157 | The index found is a CRLF or the end of the text. |
| Framing.FindCrlfFirst | Irc/WsConnection.cs:157 | No CRLF lies before the index found. |
| Framing.FindCrlfIsFirst | Irc/WsConnection.cs:157 | The first CRLF at or after the start is the one found. |
| Framing.FindCrlfAbsent | Irc/WsConnection.cs:157 | A text without CRLF is searched to its end. |
| Framing.SplitLines | Irc/WsConnection.cs:157 | `Split("\r\n", RemoveEmptyEntries)`: every piece is non-empty, and there are never more pieces than characters. |
| Framing.Pieces | Irc/WsConnection.cs:157 | The plain split on CRLF, empty entries kept: there is always at least one piece. |
| Framing.NonEmpty | Irc/WsConnection.cs:157 | The empty-entry filter keeps only non-empty pieces, never more than it was given. |
| Framing.JoinPieces | Irc/WsConnection.cs:157 | Joining the plain split with CRLF gives back the text, for every text. |
| Framing.PiecesHaveNoCrlf | Irc/WsConnection.cs:157 | No piece of the plain split contains CRLF. |
| Framing.SplitLinesRemovesEmpty | Irc/WsConnection.cs:157 | For every text, the split with empty entries removed is the plain split with its empty pieces dropped. |
| Framing.SplitLinesAreLines | Irc/WsConnection.cs:157 | Splitting on CRLF with empty entries removed yields only non-empty pieces free of CRLF. |
| Framing.SplitJoin | Irc/WsConnection.cs:157 | Splitting non-empty, CRLF-free pieces joined with CRLF gives back exactly those pieces. |
| Framing.SplitIdempotent | Irc/WsConnection.cs:157 | Joining the pieces of a split and splitting again gives the same pieces. |
| Framing.Grow | Irc/WsConnection.cs:135-139 | The buffer grows by one 512 step exactly when `spaceLeft` is zero, and `spaceLeft` becomes positive. The pending text is kept and the invariant holds. |
| Framing.Chunk | Irc/WsConnection.cs:140-144 | A receive fills at most the free space of the segment and takes a prefix of the data. |
| Framing.Receive | Irc/WsConnection.cs:133-172 | One iteration ends the loop exactly on a receive error or a Close frame. Only the last Text frame of a message dispatches anything. |
| Framing.ReceiveKeepsInvariant | Irc/WsConnection.cs:129-164 | Every iteration keeps the loop invariant: `currentCount + spaceLeft` equals the buffer's length, and the length is a positive multiple of 512. The length grows by 512 exactly when `spaceLeft` was zero. |
| Framing.ReceiveDispatchesLines | Irc/WsConnection.cs:153-161 | No dispatched piece is empty or holds a CRLF. |
| Framing.NonFinalFrameAccumulates | Irc/WsConnection.cs:143-144 | A Binary frame, or a Text frame that does not end the message, only accumulates: its characters follow the pending ones and `spaceLeft` shrinks by their number. No dispatch happens. |
| Framing.FinalTextFrameDispatches | Irc/WsConnection.cs:153-164 | The last Text frame of a message dispatches the split of everything accumulated. The count resets to zero, `spaceLeft` to the length, and the grown buffer is kept. |
| Framing.CloseEndsLoop | Irc/WsConnection.cs:148-151 | A Close frame (or a receive error) dispatches nothing and ends the loop with its reason. |
| Framing.BatchedFrameDispatchesEach | Irc/WsConnection.cs:153-161 | A frame carrying several CRLF-joined lines dispatches each of them, in order. |
| Framing.Listen | Irc/WsConnection.cs:133-172 | A run over a sequence of receive results stops exactly when one of them is a receive error or a Close frame. |
| Framing.ListenInvariant | Irc/WsConnection.cs:133-172 | Over any sequence of frames the buffer invariant holds and every dispatched piece is a line. |
| Framing.NoEndOfMessageNoDispatch | Irc/WsConnection.cs:165-168 | Frames that never end a text message dispatch nothing. |
| Watchdog.Cancelled | Irc/PingManager.cs:38-66 | A cancellation keeps the timeout and probe counts and the stop flag. |
| Watchdog.Step | Irc/PingManager.cs:38-107 | One event never clears `Stopped` or the outer cancellation, adds at most one probe at the end, and counts a timeout exactly when the timeout wait elapses. |
| Watchdog.Run | Irc/PingManager.cs:69-107 | Over any sequence of events the flags stay set and the counts of timeouts and cycles never decrease. |
| Watchdog.MismatchedPongIgnored | Irc/PingManager.cs:53-56 | With text comparison on, a pong whose text differs from the expected one changes nothing. |
| Watchdog.AnyPongMatchesWithoutComparison | Irc/PingManager.cs:53-66 | With comparison off, any pong during the timeout phase cancels the wait and starts a new cycle. |
| Watchdog.StopIdempotent | Irc/PingManager.cs:38-51 | Stop sets `Stopped`; stopping twice is stopping once. |
| Watchdog.CancelDuringDelayEnds | Irc/PingManager.cs:77-87 | A stop, an outer cancellation or a matching pong during the delay ends the loop with no timeout. |
| Watchdog.ProbeSetsExpectedText | Irc/PingManager.cs:89-93 | The probe sets a fresh expected text and pings with exactly that text. |
| Watchdog.CancelDuringTimeoutRestarts | Irc/PingManager.cs:95-102 | A matching pong during the timeout phase starts a new cycle with a new cancellation source, unless stopped. |
| Watchdog.TimeoutEnds | Irc/PingManager.cs:104-105 | An uncancelled timeout raises `Timeouted` once and ends the loop. |
| Watchdog.EndedIsFinal | Irc/PingManager.cs:104-105 | After the loop ended, no event probes or times out again. |
| Watchdog.StepValid | Irc/PingManager.cs:69-107 | Every step keeps the watchdog's invariant. |
| Watchdog.RunValid | Irc/PingManager.cs:69-107 | Every sequence of steps keeps the watchdog's invariant. |
| Watchdog.AtMostOneTimeout | Irc/PingManager.cs:69-107 | From the start, any sequence of events raises `Timeouted` at most once. After it the loop has ended. |
| Watchdog.ProbesOnlyGrow | Irc/PingManager.cs:89-93 | The count of probes never decreases. |
| Watchdog.StoppedIsSilent | Irc/PingManager.cs:71 | A stopped watchdog that is not inside a cycle never probes or times out again. |
| Watchdog.StopSilences | Irc/PingManager.cs:38-51 | A stop leaves the watchdog stopped and silent. |
| Watchdog.PingManager.constructor | Irc/PingManager.cs:23-31 | Keeps the comparison flag and the state object; the watchdog is idle. |
| Watchdog.PingManager.Start | Irc/PingManager.cs:33-36 | Starts the loop: the first delay begins. |
| Watchdog.PingManager.Stop | Irc/PingManager.cs:38-51 | The new state is the state machine's step on Stop. |
| Watchdog.PingManager.PongReceived | Irc/PingManager.cs:53-67 | The new state is the step on the pong. |
| Watchdog.PingManager.OuterCancelled | Irc/PingManager.cs:75 | The new state is the step on the outer token's cancellation. |
| Watchdog.PingManager.DelayElapsed | Irc/PingManager.cs:79-93 | The new state is the step on the delay end. The probe text is returned exactly when the delay phase was running. |
| Watchdog.PingManager.TimeoutElapsed | Irc/PingManager.cs:97-105 | The new state is the step on the timeout. It reports a timeout exactly when the timeout phase was running. |
| Watchdog.PingManager.CancelWait | Irc/PingManager.cs:42-46 | The current wait is cancelled and nothing else changes. |
| Client.AfterDisposing | Irc/BaseClient.cs:94-118 | A reconnect task is scheduled exactly when the client is not closed. `ConnectionClosed` is raised either way, with the reason. |
| Client.BaseClient.constructor | Irc/BaseClient.cs:26-36 | No connection, not closed, a fresh backoff with the given bounds. |
| Client.BaseClient.StartConnection | Irc/BaseClient.cs:38-48 | `Closed` is cleared and a new connection replaces the old one and is started. The backoff is reset exactly when the start succeeded. |
| Client.BaseClient.RaiseConnected | Irc/BaseClient.cs:52 | Raises `Connected`. |
| Client.BaseClient.SendRaw | Irc/BaseClient.cs:56-65 | Without a connection, a completed no-op. Otherwise a gated write, reporting whether it disposed the connection. |
| Client.BaseClient.Close | Irc/BaseClient.cs:67-71 | Sets `Closed` and disposes the current connection if there is one. |
| Client.BaseClient.ReportProcessingException | Irc/BaseClient.cs:78-88 | A line whose handling throws raises `MessageProcessingException` with its raw text. |
| Client.BaseClient.ConnectionDisposing | Irc/BaseClient.cs:94-118 | Has the effect `AfterDisposing` states. |
| Client.BaseClient.RunReconnectTask | Irc/BaseClient.cs:98-113 | Runs one scheduled task. The wait is `DoAttempt()` plus the jitter, and the attempt is counted. A cancelled wait does not reconnect. With no task pending nothing happens. |
| Client.ReconnectWaitBounds | Irc/BaseClient.cs:100-102 | The reconnect wait exceeds the backoff wait by at least 50 ms and by less than 750 ms. |
| Client.ReconnectWaitMs | Irc/BaseClient.cs:100-102 | The wait minus the jitter is the backoff wait: at most the maximum, and either the maximum or the minimum doubled once per attempt. |
| Text.ToLower | Chat/TwitchChatClient.cs:194 | Lower-casing keeps the length and maps every character. |
| Text.ToLowerIdempotent | Chat/TwitchChatClient.cs:194 | Lower-casing twice is lower-casing once. |
| Text.IndexOfFirst | Chat/Messages/TwitchPrivateMessage.cs:136 | `IndexOf` finds the first occurrence and is absent exactly when there is none. |
| Text.IndexOfAt | Chat/Messages/TwitchPrivateMessage.cs:148 | The first occurrence is the one `IndexOf` returns. |
| Lists.IndexOfItemFirst | Chat/TwitchChatClient.cs:130 | The index found is the first occurrence, and there is none exactly when the item is absent. |
| Lists.RemoveFirst | Chat/TwitchChatClient.cs:130 | `List.Remove` leaves a list without the item as it was, and otherwise makes it exactly one shorter. |
| Lists.RemoveFirstSpec | Chat/TwitchChatClient.cs:130 | `List.Remove` leaves the list as it was when the item is absent. Otherwise it drops only the first occurrence. |
| Lists.RemoveFirstGone | Pubsub/TwitchPubsubClient.cs:288 | In a list without duplicates, the removed item is gone and there are still no duplicates. |
| Lists.RemoveFirstMembers | Pubsub/TwitchPubsubClient.cs:313 | In a list without duplicates, removal leaves exactly the other items. |
| Irc.Parameter | Chat/Messages/TwitchNoticeMessage.cs:29 | Reading a parameter succeeds exactly when it exists, and gives it. |
| Irc.LastParameter | Chat/TwitchChatClient.cs:255 | `parameters.Last()` succeeds exactly when there is a parameter, and gives the last one. |
| Irc.ChannelName | Chat/Messages/TwitchRoomStateMessage.cs:27 | `[1..]` succeeds exactly on a non-empty text and drops its first character. |
| Irc.ChannelParameter | Chat/TwitchChatClient.cs:237 | Parameter `i` without its first character, when it exists and is not empty. |
| Irc.OptionalTag | Chat/Messages/TwitchPrivateMessage.cs:129 | The tag's value if the message has tags and that key. |
| Irc.HasTag | Chat/Messages/TwitchPrivateMessage.cs:161 | A tag is present exactly when `OptionalTag` finds a value for it. |
| Irc.UpToFirst | Chat/Messages/TwitchPrivateMessage.cs:104 | The prefix before the first occurrence of the character, or everything when it is absent. |
| Irc.Items | Chat/Messages/TwitchPrivateMessage.cs:134-153 | The items the badge loop visits; there is always at least one. |
| Irc.BadgeOf | Chat/Messages/TwitchPrivateMessage.cs:148-151 | An item fails only with `BadgeWithoutSlash`. One that reads is its key, a `/` and its version, with no `/` in the key. |
| Irc.AddBadge | Chat/Messages/TwitchPrivateMessage.cs:148-151 | `Dictionary.Add` succeeds exactly when the item reads as a badge whose key is not yet present. Then the key maps to its version and every earlier entry is kept. |
| Irc.AddBadges | Chat/Messages/TwitchPrivateMessage.cs:134-153 | A successful parse keeps every entry it started from, and every key it adds is free of `/`. |
| Irc.ParseBadges | Chat/Messages/TwitchPrivateMessage.cs:127-156 | A missing or empty tag gives no badges; no key of a parsed map contains `/`. |
| Irc.BadgeOfSplits | Chat/Messages/TwitchPrivateMessage.cs:148-151 | An item maps the text before its first `/` to the text after it, and fails exactly when it has no `/`. |
| Irc.ReadBadges | Chat/Messages/TwitchPrivateMessage.cs:127-156 | The do-while loop over spans equals the specification `ParseBadges`, errors included. |
| Irc.ReadItem | Chat/Messages/TwitchPrivateMessage.cs:136-146 | One iteration splits off the next item at the first comma. The loop stops exactly when no comma is left. |
| Irc.ItemStep | Chat/Messages/TwitchPrivateMessage.cs:136-153 | Parsing the rest is parsing the next item and then the tail after its comma. |
| Irc.AddItem | Chat/Messages/TwitchPrivateMessage.cs:148-151 | `Dictionary.Add` of one item: it fails on a missing `/` or a key already present. |
| Irc.ItemsJoin | Chat/Messages/TwitchPrivateMessage.cs:134-153 | Items without commas, joined with commas, are split back into the same items. |
| Irc.JoinSplit | Chat/Messages/TwitchPrivateMessage.cs:134-153 | Joining the items of a text gives the text back. |
| Irc.TrailingCommaItem | Chat/Messages/TwitchPrivateMessage.cs:143-146 | A trailing comma yields a last item that is empty. |
| Irc.BadItemFails | Chat/Messages/TwitchPrivateMessage.cs:148-151 | An item without `/` makes the whole parse fail. |
| Irc.TrailingCommaRejected | Chat/Messages/TwitchPrivateMessage.cs:148-151 | A badges tag with a trailing comma is an error. |
| Irc.DuplicateFails | Chat/Messages/TwitchPrivateMessage.cs:150 | Two items with the same key make the parse fail. |
| Irc.PresentKeyFails | Chat/Messages/TwitchPrivateMessage.cs:150 | An item whose key is already in the dictionary makes the parse fail. |
| Irc.AddBadgesContents | Chat/Messages/TwitchPrivateMessage.cs:134-153 | A successful parse has one entry per item, each key mapping to the text after its `/`. |
| Irc.ParsedBadges | Chat/Messages/TwitchPrivateMessage.cs:127-156 | For a non-empty tag, the map has exactly one entry per comma-separated item, with its value. |
| Irc.BadgeItems | Chat/Messages/TwitchPrivateMessage.cs:148-151 | One `key/value` item per pair. |
| Irc.AddBadgeItems | Chat/Messages/TwitchPrivateMessage.cs:134-153 | Well-formed items with fresh, distinct keys parse to the map of their pairs. |
| Irc.BadgesRoundTrip | Chat/Messages/TwitchPrivateMessage.cs:127-156 | Serializing well-formed pairs and parsing them gives back their map, with one entry per pair. |
| Irc.PrivateMessageFields | Chat/Messages/TwitchPrivateMessage.cs:97-162 | A PRIVMSG parses exactly when it has a first parameter, a prefix, the tags `id`, `mod`, `room-id`, `subscriber`, `tmi-sent-ts`, `turbo` and `user-id`, and a readable badges tag. The channel is the first parameter without its first character. The username is the prefix up to its first `!`. `vip` is the presence of the tag. |
| Irc.ParsePrivateMessage | Chat/Messages/TwitchPrivateMessage.cs:97-162 | In the constructor's order: with a first parameter but no prefix the read fails with `MissingPrefix`; with a prefix but a required tag missing it fails with `MissingTag`. A read that succeeds had a prefix and every required tag. |
| Irc.NoBadgesTag | Chat/Messages/TwitchPrivateMessage.cs:127-131 | A missing or empty badges tag yields an empty map. |
| Irc.ParseNotice | Chat/Messages/TwitchNoticeMessage.cs:24-37 | A notice's channel is its first parameter without `#` and its text is parameter 1. Reading fails exactly when those are missing. |
| Irc.ParseClearChat | Chat/Messages/TwitchClearChatMessage.cs:39-56 | A CLEARCHAT reads exactly when it has a non-empty first parameter and both the `room-id` and `tmi-sent-ts` tags; a missing tag is `MissingTag`. The channel is the first parameter without `#`, the room id the tag's value. The username is parameter 1, present exactly when there are two parameters. |
| ChatProtocol.JoinCommands | Chat/TwitchChatClient.cs:389-396 | One JOIN per channel, in order. |
| ChatProtocol.ChannelTarget | Chat/TwitchChatClient.cs:194 | `#` and the channel in lower case: one character longer, naming the same channel ignoring case, and already lower-case. |
| ChatProtocol.JoinCommand | Chat/TwitchChatClient.cs:202-203 | `JOIN #` followed by a lower-case target equal to the channel ignoring case. |
| ChatProtocol.PartCommand | Chat/TwitchChatClient.cs:205-206 | `PART #` followed by a lower-case target equal to the channel ignoring case. |
| ChatProtocol.PrivMsgCommand | Chat/TwitchChatClient.cs:193-194 | Starts with `PRIVMSG #`, is 11 characters longer than the channel and the text together, and ends with the text unchanged. |
| ChatProtocol.ReplyCommand | Chat/TwitchChatClient.cs:196-197 | Starts with the `reply-parent-msg-id` tag and ends with the plain PRIVMSG line. |
| ChatProtocol.PongCommand | Chat/TwitchChatClient.cs:309-312 | `PONG :` followed by exactly the text. |
| ChatProtocol.PingCommand | Chat/TwitchChatClient.cs:369-375 | `PING :` followed by exactly the text. |
| ChatProtocol.PassCommand | Chat/TwitchChatClient.cs:213 | `PASS ` followed by the token; a null token leaves just `PASS `. |
| ChatProtocol.NickCommand | Chat/TwitchChatClient.cs:214 | `NICK ` followed by the user name; a null name leaves just `NICK `. |
| ChatProtocol.LoginCommands | Chat/TwitchChatClient.cs:212-214 | Three lines: the capability request, then PASS, then NICK. |
| ChatProtocol.LowerKeepsSpaces | Chat/TwitchChatClient.cs:194 | Lower-casing neither adds nor removes spaces. |
| ChatProtocol.PingPongRoundTrip | Chat/TwitchChatClient.cs:309-312 | The PONG for a text carries exactly that text, and likewise the PING. A PONG is not read as a PING. |
| ChatProtocol.PrivMsgRoundTrip | Chat/TwitchChatClient.cs:193-194 | A PRIVMSG command reads back as the lower-cased channel and the text. |
| ChatProtocol.PrivMsgTargetRead | Chat/TwitchChatClient.cs:193-194 | `PRIVMSG #<target> :<text>` reads back as the target and the text. |
| ChatProtocol.ReplyRoundTrip | Chat/TwitchChatClient.cs:196-197 | A reply reads back as the `reply-parent-msg-id` tag followed by the PRIVMSG. |
| ChatProtocol.TagRead | Chat/TwitchChatClient.cs:197 | A leading `@tag ` reads back as the tag and the rest. |
| ChatProtocol.CommandsIgnoreCase | Chat/TwitchChatClient.cs:199-206 | Two JOINs (or PARTs) are equal exactly when the channel names are equal ignoring case. A JOIN is never a PART. |
| ChatProtocol.LoginOrder | Chat/TwitchChatClient.cs:212-214 | The login commands are CAP REQ, PASS and NICK, in that order. |
| ChatProtocol.FindName | Chat/TwitchChatClient.cs:419-423 | The index found is in range. |
| ChatProtocol.FindNameFirst | Chat/TwitchChatClient.cs:419-423 | `FirstOrDefault` with `OrdinalIgnoreCase`: the first name equal ignoring case, or none exactly when no name matches. |
| ChatProtocol.FindNameUnique | Chat/TwitchChatClient.cs:53-68 | In a registry of distinct names the match is the only one. A name with no match can be appended without breaking distinctness. |
| ChatProtocol.DistinctWithout | Chat/TwitchChatClient.cs:125-139 | Removing an entry keeps the names distinct. |
| ChatProtocol.Overwrite | Chat/ChatAutoChannel.cs:72-81 | A present field overwrites; an absent one keeps the previous value. |
| ChatProtocol.Project | Chat/ChatAutoChannel.cs:72-81 | Projects one setting out of a sequence of messages. |
| ChatProtocol.MergeFieldwise | Chat/ChatAutoChannel.cs:70-81 | Each of the five settings is overwritten exactly when the message's field is present. |
| ChatProtocol.Merge | Chat/ChatAutoChannel.cs:70-81 | A message with no setting changes nothing, one with every setting replaces all of them, and complete settings stay complete. |
| ChatProtocol.MergeAll | Chat/ChatAutoChannel.cs:70-81 | Messages without settings change nothing, a complete last message decides every setting, and complete settings stay complete. |
| ChatProtocol.MergeUnknownIdentity | Chat/ChatAutoChannel.cs:72-81 | A message with every field absent leaves every setting unchanged. |
| ChatProtocol.MergeIdempotent | Chat/ChatAutoChannel.cs:70-81 | Applying the same room state twice is applying it once. |
| ChatProtocol.MergeAssociative | Chat/ChatAutoChannel.cs:70-81 | Two messages applied in turn act as their merge applied once. |
| ChatProtocol.LatestWins | Chat/ChatAutoChannel.cs:72-81 | The last present value wins. |
| ChatProtocol.LatestAllAbsent | Chat/ChatAutoChannel.cs:72-81 | With no present value, the kept value stays. |
| ChatProtocol.MergeAllLatest | Chat/ChatAutoChannel.cs:70-81 | Applying a sequence of messages sets each setting from its latest present value. |
| ChatProtocol.FieldLatest | Chat/ChatAutoChannel.cs:72-81 | For any one setting, the most recent present value wins, and the old value stays when none is present. |
| ChatProtocol.LatestSettingsWin | Chat/ChatAutoChannel.cs:70-81 | For every setting, the most recent non-null value wins. |
| ChatProtocol.ProjectAt | Chat/ChatAutoChannel.cs:72-81 | The projection picks the field of each message. |
| Chat.Notify | Chat/TwitchChatClient.cs:320-367 | The number of channels is kept, and every channel other than the target is unchanged. |
| Chat.NotifyReachesMatch | Chat/TwitchChatClient.cs:320-367 | In a registry of distinct names, a line for a channel reaches exactly the entry whose name is equal ignoring case. Every other entry is unchanged. |
| Chat.DeliveredSpec | Chat/ChatAutoChannel.cs:58-94 | Delivery appends the channel's event and sets `IsJoined` only for a join reply. Unknown settings keep the old ones, and the merged settings are stable under the same message. |
| Chat.AppendRegistry | Chat/TwitchChatClient.cs:53-68 | Appending a name with no case-insensitive match keeps the registry valid and makes the new entry the one found. |
| Chat.RemoveRegistry | Chat/TwitchChatClient.cs:125-139 | Removing an entry keeps the registry valid. The removed entry's name no longer matches any entry. |
| Chat.RemovedAt | Chat/TwitchChatClient.cs:130 | Removing the entry at an index keeps the names distinct and drops only that entry. |
| Chat.ChatAutoChannel.constructor | Chat/ChatAutoChannel.cs:42-46 | Not joined; every room setting is unknown (null); no events. |
| Chat.ChatAutoChannel.OnChannelJoined | Chat/ChatAutoChannel.cs:58-63 | Sets `IsJoined` and raises `ChannelJoined`. |
| Chat.ChatAutoChannel.OnPrivateMessageReceived | Chat/ChatAutoChannel.cs:65-68 | Raises `PrivateMessageReceived` with the message. |
| Chat.ChatAutoChannel.OnRoomStateReceived | Chat/ChatAutoChannel.cs:70-84 | The settings become the field-wise merge of the old ones with the message, and `RoomStateReceived` is raised. |
| Chat.ChatAutoChannel.OnNoticeReceived | Chat/ChatAutoChannel.cs:86-89 | Raises `NoticeReceived` with the message. |
| Chat.ChatAutoChannel.OnClearChatReceived | Chat/ChatAutoChannel.cs:91-94 | Raises `ClearChatReceived` with the message. |
| Chat.ChatAutoChannel.SendMessage | Chat/ChatAutoChannel.cs:48-51 | Sends the client's PRIVMSG for this channel's own name. |
| Chat.ChatAutoChannel.Reply | Chat/ChatAutoChannel.cs:53-56 | Sends the client's reply for this channel's own name. |
| Chat.TwitchChatClient.constructor | Chat/TwitchChatClient.cs:41-46 | An empty registry, no watchdog, no connection. |
| Chat.TwitchChatClient.GetChannel | Chat/TwitchChatClient.cs:419-423 | The result is a registered channel whose name is equal ignoring case. It is null exactly when no name matches. |
| Chat.TwitchChatClient.AddAutoJoinChannel | Chat/TwitchChatClient.cs:53-68 | Returns the existing entry for a name equal ignoring case, leaving the list alone. Otherwise it appends a new entry and returns it. |
| Chat.TwitchChatClient.AddAutoChannel | Chat/TwitchChatClient.cs:103-123 | As AddAutoJoinChannel. When a new entry is added while connected, its JOIN is also sent. |
| Chat.TwitchChatClient.Unregister | Chat/TwitchChatClient.cs:128-131 | `List.Remove` of that entry. It reports whether the entry was present. |
| Chat.TwitchChatClient.RemoveAutoChannel | Chat/TwitchChatClient.cs:146-160 | Returns true exactly when that entry was present, and removes only it. PART is sent only when something was removed and the client is connected. |
| Chat.TwitchChatClient.RemoveAutoChannelNamed | Chat/TwitchChatClient.cs:176-183 | With no match ignoring case: returns false and changes nothing. Otherwise it removes the match as RemoveAutoChannel does. |
| Chat.TwitchChatClient.CopyAutoChannels | Chat/TwitchChatClient.cs:185-191 | A snapshot in insertion order. Being a value, later changes to the registry do not affect it. |
| Chat.TwitchChatClient.ConnectionDisposing | Chat/TwitchChatClient.cs:399-417 | Marks every channel un-joined and stops the watchdog. Then the base hook runs. |
| Chat.TwitchChatClient.SendOn | Chat/TwitchChatClient.cs:202-203 | A gated write on the given connection. A write that disposes it runs the disposal hook. |
| Chat.TwitchChatClient.SendAllOn | Chat/TwitchChatClient.cs:393-396 | The messages are written in order. The connection is disposed, and the hook run, at most once. |
| Chat.TwitchChatClient.SendMessage | Chat/TwitchChatClient.cs:193-194 | `PRIVMSG #<lower> :<text>` on the current connection. |
| Chat.TwitchChatClient.Reply | Chat/TwitchChatClient.cs:196-197 | `@reply-parent-msg-id=<id> PRIVMSG #<lower> :<text>` on the current connection. |
| Chat.TwitchChatClient.Join | Chat/TwitchChatClient.cs:199-203 | `JOIN #<lower>` on the current connection. |
| Chat.TwitchChatClient.Leave | Chat/TwitchChatClient.cs:205-206 | `PART #<lower>` on the current connection. |
| Chat.TwitchChatClient.ConnectedAsync | Chat/TwitchChatClient.cs:208-222 | Writes CAP REQ, PASS and NICK in that order, then makes and starts a text-comparing watchdog for this connection. |
| Chat.TwitchChatClient.StartWatchdog | Chat/TwitchChatClient.cs:217-221 | A fresh, started, text-comparing watchdog whose state is the connection. |
| Chat.TwitchChatClient.ConnectAsync | Irc/BaseClient.cs:38-54 | A failed start raises no `Connected`. It reaches the reconnect only through the disposal hook. On success, in order: the backoff is reset, the login is written, the watchdog is started and `Connected` is raised. |
| Chat.TwitchChatClient.ConnectionOpened | Irc/BaseClient.cs:48-52 | The post-connect hook runs, then `Connected` is raised. A login write that throws runs the disposal hook first. |
| Chat.TwitchChatClient.Close | Irc/BaseClient.cs:67-71 | Closed, and a first disposal of the connection. The hook marks the channels un-joined, stops the watchdog, schedules no reconnect and raises `ConnectionClosed`. |
| Chat.TwitchChatClient.RunReconnectTask | Irc/BaseClient.cs:98-113 | A pending task waits the backoff plus jitter. If the wait is not cancelled it connects again; a cancelled wait does not reconnect. |
| Chat.TwitchChatClient.Pinging | Chat/TwitchChatClient.cs:369-375 | Sends `PING :<text>` only when the watchdog is the current one, its connection is current and the client is connected. |
| Chat.TwitchChatClient.Timeouted | Chat/TwitchChatClient.cs:377-383 | Under the same guard, it disposes the connection with the ping timeout, and the hook runs. Otherwise nothing happens. |
| Chat.TwitchChatClient.ProcessPong | Chat/TwitchChatClient.cs:314-318 | A PONG reaches the watchdog only when the watchdog was made for the receiving connection. |
| Chat.TwitchChatClient.ProcessPing | Chat/TwitchChatClient.cs:309-312 | A server PING `t` is answered with `PONG :t` on the receiving connection. |
| Chat.TwitchChatClient.ProcessAuth | Chat/TwitchChatClient.cs:385-397 | Raises `AuthFinished`, then sends one JOIN per registered channel on the receiving connection, in snapshot order. |
| Chat.TwitchChatClient.Process376 | Chat/TwitchChatClient.cs:294-302 | The end of the message of the day completes authentication only for an anonymous client. |
| Chat.TwitchChatClient.ProcessChannelJoined | Chat/TwitchChatClient.cs:320-326 | Raises `ChannelJoined` and marks the matching channel joined. |
| Chat.TwitchChatClient.ProcessPrivateMessage | Chat/TwitchChatClient.cs:328-334 | Raises the client event and forwards the message to the matching channel. |
| Chat.TwitchChatClient.ProcessRoomState | Chat/TwitchChatClient.cs:336-342 | Raises the client event and merges the settings into the matching channel. |
| Chat.TwitchChatClient.ProcessClearChat | Chat/TwitchChatClient.cs:361-367 | Raises the client event and forwards the message to the matching channel. |
| Chat.TwitchChatClient.ProcessNotice | Chat/TwitchChatClient.cs:344-359 | "Login authentication failed" closes the client, so no reconnect follows, and then raises `AuthFailed`. Any other notice goes to its channel. |
| Chat.TwitchChatClient.ForwardNotice | Chat/TwitchChatClient.cs:354-358 | The notice goes to the matching channel only. |
| Chat.TwitchChatClient.IrcMessageReceived | Chat/TwitchChatClient.cs:224-292 | A line is dispatched on its command. Commands that are not handled change nothing. A line whose fields cannot be read, a required tag of a PRIVMSG or CLEARCHAT included, raises `MessageProcessingException` with its raw text. |
| Chat.TwitchChatClient.Dispatch | Chat/TwitchChatClient.cs:228-291 | Each kind of line gets its handler. |
| Chat.TwitchChatClient.DispatchConnectionLine | Chat/TwitchChatClient.cs:242-267 | Handles 376, PING, PONG and GLOBALUSERSTATE. |
| Chat.TwitchChatClient.DispatchChannelLine | Chat/TwitchChatClient.cs:236-239 | Handles 366, PRIVMSG, ROOMSTATE, NOTICE and CLEARCHAT. |
| Chat.Classify | Chat/TwitchChatClient.cs:228-291 | Maps each command to its reading. A 366 reply takes parameter 1 without its first character, PING parameter 0, and PONG the last parameter. A CLEARCHAT is malformed exactly when its first parameter or its `room-id` or `tmi-sent-ts` tag is missing. Commands outside the handled set are ignored. |
| Chat.Read | Chat/TwitchChatClient.cs:265-289 | A reading that fails makes the line malformed. |
| PubsubTopics.TopicName | Pubsub/TwitchPubsubClient.cs:51-72 | The name is the topic key, a dot, then the channel id. |
| PubsubTopics.SplitTopic | Pubsub/TwitchPubsubClient.cs:53 | The key part holds no dot. |
| PubsubTopics.TopicNameSplits | Pubsub/TwitchPubsubClient.cs:53 | A name built from a key without dots splits back into that key and the channel id. |
| PubsubTopics.BuiltInTopicsSplit | Pubsub/TwitchPubsubClient.cs:15-17 | The three built-in names split back into their key and id. Names of different kinds never coincide. |
| PubsubTopics.OrDefault | Pubsub/TwitchPubsubClient.cs:453 | `token ?? OauthToken`. |
| PubsubTopics.ListenMessage | Pubsub/TwitchPubsubClient.cs:451-458 | A LISTEN with the topics. It carries the given token, or `OauthToken` when the token is null, and nonce "Starting". |
| PubsubTopics.UnlistenMessage | Pubsub/TwitchPubsubClient.cs:460-465 | An UNLISTEN carrying only the topics, with nonce "Starting". |
| PubsubTopics.OrDefaultIdempotent | Pubsub/TwitchPubsubClient.cs:475-484 | Substituting `OauthToken` twice, in the grouping key and in ListenAsync, is substituting once. |
| PubsubTopics.GroupBy | Pubsub/TwitchPubsubClient.cs:474-477 | One group per distinct key, in first-appearance order, each with that key's values in order. |
| PubsubTopics.KeysSpec | Pubsub/TwitchPubsubClient.cs:475 | The group keys are distinct and are exactly the keys that occur. |
| PubsubTopics.ValuesNonEmpty | Pubsub/TwitchPubsubClient.cs:475-476 | A key's group is non-empty exactly when the key occurs. |
| PubsubTopics.GroupByAppend | Pubsub/TwitchPubsubClient.cs:474-477 | One more entry adds its value to exactly one group. |
| PubsubTopics.GroupByPartition | Pubsub/TwitchPubsubClient.cs:474-477 | Every topic appears in exactly one group: the groups together hold exactly the values, with multiplicity. |
| PubsubTopics.GroupBySpec | Pubsub/TwitchPubsubClient.cs:474-477 | The keys are distinct and are exactly those that occur. Each group is non-empty and holds that key's values. |
| PubsubTopics.ListenMessages | Pubsub/TwitchPubsubClient.cs:480-486 | One LISTEN per group, in group order. |
| PubsubTopics.Unescape | Pubsub/TwitchPubsubClient.cs:567 | `Replace("\\\"", "\"")` never lengthens the text. |
| PubsubTopics.Escape | Pubsub/TwitchPubsubClient.cs:567 | The escaping that the unescape undoes. It never shortens a text, and an escaped text never begins with a bare quote. |
| PubsubTopics.UnescapeEscape | Pubsub/TwitchPubsubClient.cs:567 | Unescaping an escaped text gives the text back. |
| PubsubTopics.UnescapePlain | Pubsub/TwitchPubsubClient.cs:567 | A text without backslashes is unchanged. |
| PubsubTopics.FindTopic | Pubsub/TwitchPubsubClient.cs:572 | `FirstOrDefault(fullTopic == topic)`: the first exact match, or none exactly when no name is equal. |
| Pubsub.ChannelSplit | Pubsub/TwitchPubsubClient.cs:396 | `Where` on the channel id selects exactly that channel's topics. The rest are exactly the others, and together they are the registry. |
| Pubsub.WithChannel | Pubsub/TwitchPubsubClient.cs:420 | `Where` on the channel id: no more topics than the registry, each of them of that channel. |
| Pubsub.WithoutChannel | Pubsub/TwitchPubsubClient.cs:415-431 | The topics the corrected removal keeps: no more than the registry, none of them of that channel. |
| Pubsub.FullTopics | Pubsub/TwitchPubsubClient.cs:425 | The full names of the topics, one per topic, in order. |
| Pubsub.Entries | Pubsub/TwitchPubsubClient.cs:474-476 | Each topic paired with its effective token, its own or else the client's, in order. |
| Pubsub.RemoveAll | Pubsub/TwitchPubsubClient.cs:363-378 | Removing each listed topic in turn takes out at most one topic per entry. |
| Pubsub.ConnectListensAll | Pubsub/TwitchPubsubClient.cs:471-486 | The LISTENs of a connect cover every registered topic name exactly as often as it is registered. |
| Pubsub.ChannelRemovalAsWrittenRelistens | Pubsub/TwitchPubsubClient.cs:415-431 | Every topic that the by-channel removal returns is still registered. It is LISTENed to again on the next connect. |
| Pubsub.ChannelRemovalCorrectedForgets | Pubsub/TwitchPubsubClient.cs:386-390 | With the removal doing what its summary says, no topic of that channel is left. The next connect LISTENs to exactly the others. |
| Pubsub.RemoveAllSpec | Pubsub/TwitchPubsubClient.cs:363-378 | Removing a list of topics from a registry without duplicates leaves exactly the others, still without duplicates. |
| Pubsub.Deliver | Pubsub/TwitchPubsubClient.cs:575-578 | Only the target topic receives the data. |
| Pubsub.DeliverFirstMatch | Pubsub/TwitchPubsubClient.cs:565-583 | A message reaches only the first registered topic whose name is equal. With no match, nothing is delivered. |
| Pubsub.WithoutChannelRegistry | Pubsub/TwitchPubsubClient.cs:415-431 | The topics of the other channels are a registry of the same client, without duplicates. |
| Pubsub.PubsubAutoTopic.constructor | Pubsub/PubsubAutoTopic.cs:21-27 | Keeps the channel id, full name, optional token and client. |
| Pubsub.PubsubAutoTopic.Unlisten | Pubsub/PubsubAutoTopic.cs:29-30 | The topic removes itself from its client, with the client's UNLISTEN. |
| Pubsub.PubsubAutoTopic.OnRawDataReceived | Pubsub/PubsubAutoTopic.cs:32-35 | Raises `RawDataReceived` with the data. |
| Pubsub.TwitchPubsubClient.constructor | Pubsub/TwitchPubsubClient.cs:32-37 | An empty registry, no watchdog, no connection. |
| Pubsub.TwitchPubsubClient.CountTopics | Pubsub/TwitchPubsubClient.cs:39-45 | The number of registered topics. |
| Pubsub.TwitchPubsubClient.AddManualTopic | Pubsub/TwitchPubsubClient.cs:81-91 | Always appends a new topic, with no de-duplication, so the count grows by exactly one. |
| Pubsub.TwitchPubsubClient.AddPredictionsTopic | Pubsub/TwitchPubsubClient.cs:51-54 | Appends `predictions-channel-v1.<id>` with no token of its own. |
| Pubsub.TwitchPubsubClient.AddPlaybackTopic | Pubsub/TwitchPubsubClient.cs:60-63 | Appends `video-playback-by-id.<id>` with no token of its own. |
| Pubsub.TwitchPubsubClient.AddBroadcastSettingsTopic | Pubsub/TwitchPubsubClient.cs:69-72 | Appends `broadcast-settings-update.<id>` with no token of its own. |
| Pubsub.TwitchPubsubClient.AddManualAutoTopic | Pubsub/TwitchPubsubClient.cs:169-180 | Appends the topic. When connected it then LISTENs to that topic alone, with its token. |
| Pubsub.TwitchPubsubClient.Unregister | Pubsub/TwitchPubsubClient.cs:309-314 | `List.Remove` of that topic object. It reports whether the topic was present. |
| Pubsub.TwitchPubsubClient.RemoveAutoTopic | Pubsub/TwitchPubsubClient.cs:307-325 | Removes that one instance if present, and leaves the list unchanged otherwise. When connected, UNLISTEN is sent either way. |
| Pubsub.TwitchPubsubClient.RemoveAutoTopics | Pubsub/TwitchPubsubClient.cs:359-384 | Removes each listed topic, leaving exactly the others. When connected, one UNLISTEN of all their names is sent, even for an empty list. |
| Pubsub.TwitchPubsubClient.UnregisterAll | Pubsub/TwitchPubsubClient.cs:361-378 | Removes each listed topic in turn, leaving exactly the topics not listed, and collects every listed name, registered or not, in order. |
| Pubsub.TwitchPubsubClient.RemoveAutoTopicsOfChannelAsWritten | Pubsub/TwitchPubsubClient.cs:415-431 | Returns every topic with that channel id. When connected and non-empty, it UNLISTENs them. The list is not changed. |
| Pubsub.TwitchPubsubClient.RemoveAutoTopicsOfChannel | Pubsub/TwitchPubsubClient.cs:409-431 | The same selection and UNLISTEN, and the selected topics leave the registry. The other topics stay in order. |
| Pubsub.TwitchPubsubClient.DropChannel | Pubsub/TwitchPubsubClient.cs:417-421 | The registry part of the corrected removal. |
| Pubsub.TwitchPubsubClient.ConnectionDisposing | Pubsub/TwitchPubsubClient.cs:602-612 | Stops the watchdog, then the base hook runs. |
| Pubsub.TwitchPubsubClient.SendOn | Pubsub/TwitchPubsubClient.cs:442-449 | A gated write on the given connection; a write that disposes it runs the hook. |
| Pubsub.TwitchPubsubClient.SendAllOn | Pubsub/TwitchPubsubClient.cs:480-486 | The messages are written in order. The connection is disposed, and the hook run, at most once. |
| Pubsub.TwitchPubsubClient.SendMessage | Pubsub/TwitchPubsubClient.cs:439-440 | A write on the current connection. |
| Pubsub.TwitchPubsubClient.Listen | Pubsub/TwitchPubsubClient.cs:451-458 | A LISTEN on the current connection. |
| Pubsub.TwitchPubsubClient.Unlisten | Pubsub/TwitchPubsubClient.cs:460-465 | An UNLISTEN on the current connection. |
| Pubsub.TwitchPubsubClient.ConnectedAsync | Pubsub/TwitchPubsubClient.cs:467-498 | One LISTEN per token group, in group order, then a fresh, started watchdog that does not compare pong texts. |
| Pubsub.TwitchPubsubClient.ConnectListens | Pubsub/TwitchPubsubClient.cs:474-486 | One LISTEN per distinct effective token, and none with no topics registered. |
| Pubsub.TwitchPubsubClient.StartWatchdog | Pubsub/TwitchPubsubClient.cs:493-497 | A fresh, started watchdog without text comparison whose state is the connection. |
| Pubsub.TwitchPubsubClient.ConnectAsync | Irc/BaseClient.cs:38-54 | As for the chat client, with the grouped LISTENs as the post-connect writes. |
| Pubsub.TwitchPubsubClient.ConnectionOpened | Irc/BaseClient.cs:48-52 | The post-connect hook runs, then `Connected` is raised. A LISTEN that throws runs the disposal hook first. |
| Pubsub.TwitchPubsubClient.Close | Irc/BaseClient.cs:67-71 | Closed, and a first disposal: the watchdog is stopped and no reconnect is scheduled. |
| Pubsub.TwitchPubsubClient.RunReconnectTask | Irc/BaseClient.cs:98-113 | A pending task waits the backoff plus jitter, then connects again unless the wait was cancelled. |
| Pubsub.TwitchPubsubClient.Pinging | Pubsub/TwitchPubsubClient.cs:585-592 | Sends PING only when the watchdog is the current one, its connection is current and the client is connected. |
| Pubsub.TwitchPubsubClient.Timeouted | Pubsub/TwitchPubsubClient.cs:594-600 | Under the same guard, it disposes the connection with the ping timeout. |
| Pubsub.TwitchPubsubClient.MessageReceived | Pubsub/TwitchPubsubClient.cs:500-555 | A PONG reaches the watchdog only when the watchdog was made for the receiving connection. A MESSAGE is routed to its topic. Unreadable frames raise `MessageProcessingException`. Other frames change nothing. |
| Pubsub.TwitchPubsubClient.ProcessMessage | Pubsub/TwitchPubsubClient.cs:565-583 | The unescaped payload goes to the first topic with that exact name. With no match it is dropped. |

## Left out

- Socket I/O is not modelled: the `ClientWebSocket` connect, send, receive and abort calls, and the connect timeout. Connect outcomes are a parameter, write failures come from `Break`, and receive results are a frame sequence.
- UTF-8 is not modelled. Text is a character sequence, and the receive buffer holds characters, not bytes.
- Concurrency is not modelled: `lock`, the `SemaphoreSlim` that serializes writes, `Task.Run`, `async void` and `Task.Delay`. Each task runs to completion where the source starts it. No interleaving is modelled, including the check-then-add race in `AddAutoChannel`.
- `CancellationTokenSource` objects are not modelled; cancellations and timer expiries are discrete events.
- `RandomNumberGenerator` is not modelled. The reconnect jitter is a parameter bounded to [50, 750).
- `DateTime.Now.Ticks` ping texts are a parameter of `DelayElapsed`.
- `GenerateAnonymName` is outside the model: it depends only on a random number.
- Time itself and `TimeSpan` arithmetic are not modelled. Durations are unbounded integer milliseconds, so `Math.Pow` needs no floating point and cannot overflow.
- Backoff.WaitTime: models `minTime * 2^attempts` exactly. It does not model the `TimeSpan` overflow that `Math.Pow` hits after about 40 attempts.
- Logging is not modelled; every line that only logs is a no-op here.
- JSON serialization and deserialization are not modelled. PubSub frames arrive decoded as `PubsubFrame`, and messages go out as `PubsubOut` records.
- The payload classes are not modelled, and neither is the generic `PubsubAutoTopic<T>` with its deserializing callback or the generic `AddManualTopic<T>` overloads: they are the typed decoding of received data.
- `ProcessResponseMessage` is not modelled; it only logs.
- The IRC line parser (IrcParserNet) and `Irc/IrcClient.cs` are not part of this model. A received chat line arrives parsed as an `IrcMessage`.
- The typed tag readers of the message classes are modelled only as far as presence goes: `Tag`, `BoolTag` and `UnixMillisecondsTag` fail on a missing tag (`MissingTag`). The value formats they parse are not modelled, so a present `mod`, `tmi-sent-ts` or `ban-duration` with a value that does not parse is not an error here.
- The settings of a ROOMSTATE line are an input. A GLOBALUSERSTATE line is passed on as is.
- Chat.Classify: a GLOBALUSERSTATE line is never malformed here, although reading its tags can throw in the source.
- Irc.PrivateMessageFields: covers the fields this model reads (channel, text, username, badges and the presence of `vip`) and the presence of the required tags. The values of the other tags are not kept.
- The Async and fire-and-forget twins of the removal methods are not modelled separately (`AddAutoChannelAsync`, `RemoveAutoChannelAsync`, `RemoveAutoTopicAsync`, `RemoveAutoTopicsAsync`, `AddManualAutoTopicAsync`). Once tasks run to completion the two forms are the same, so each member stands for both.
- Event handlers are not modelled. Subscribing and unsubscribing `Pinging`/`Timeouted` becomes the `Owns` guard, and a raised event is an entry in an event log.
- Client.BaseClient.RunReconnectTask: does not consult `Closed`, just like the source. A `Close` during a pending reconnect wait does not stop the reconnect.
- The options classes are not modelled. Their defaults appear as constants (500 ms and 15 s for the backoff).
- Lists.RemoveFirst: used by `Chat.TwitchChatClient.Unregister` and `Pubsub.TwitchPubsubClient.Unregister`, it compares objects by reference, which is `List.Remove`'s default equality for these classes.
- Text.ToLower: folds only the ASCII letters `A`-`Z`, while `string.ToLower()` uses the current culture and all of Unicode. So JOIN, PART and PRIVMSG targets, the case-insensitive de-duplication of channels and `GetChannel` treat two non-ASCII names as different where the source may treat them as equal.
- Text.EqualsIgnoreCase: compares the ASCII-folded texts; `StringComparison.OrdinalIgnoreCase` also folds non-ASCII letters.
- Framing.Chunk: cuts data longer than the free space. A real receive never writes past its segment, so the cut stands for nothing the source does.
- `IsJoined` is changed by the owning client directly, as the source's `internal set` allows.
- Chat.TwitchChatClient.AddAutoChannel: the JOIN is sent before the entry is appended. The final state is the same as in the source, where the append comes first.

## Findings

| source | as written | input that shows it | evidently intended | confidence | as-written member | corrected member |
|---|---|---|---|---|---|---|
| Pubsub/TwitchPubsubClient.cs:415-431 | `RemoveAutoTopics(channelTwitchId)`, documented as removing all of a channel's topics, selects them with `Where` and UNLISTENs them. It never removes them from `_autoTopics`. The async twin at 391-407 does the same. | A client with one topic for channel `"42"` calls `RemoveAutoTopics("42")`. The topic is still registered and counted, and the next connect LISTENs to it again. | The selected topics leave the registry, as `RemoveAutoTopics(IEnumerable)` does for a list. | high (not executed) | Pubsub.ChannelRemovalAsWrittenRelistens | Pubsub.ChannelRemovalCorrectedForgets |
