# Golden Horde relay and membership core, in Dafny

This project models the stateful core of the Golden Horde Django back end:

- **The voice-chat relay consumer** (`hordes/consumers.py`). Every WebSocket connection to `ws/voice_chat/<tent_id>/` is a `VoiceChatConsumer`. On connect it joins the one group `voice_chat_tent_1`, whatever tent id its URL carries, and adds its channel name to a process-wide set of connected channels. On disconnect it leaves both. A `ping` message is answered with a `pong` that echoes the message's `ts`. Every other message goes to the group as a `voice_chat_config` event tagged with the sender's channel. A member that handles such an event forwards the message to its own client unless it sent the message itself.
- **The stale WebSocket cache sweep** (`cleanup_websocket_cache`). Backends that cannot scan keys are refused before anything is touched. Otherwise the command walks the scanned `ws_*` keys. It deletes those that start with `ws_channel_` or `ws_tent_`, counts the deletes that succeed, and reports the ones that raise without stopping. In dry-run mode it deletes nothing and its counter stays 0, so its summary always reads "Would clean 0 cache entries".
- **The account flows** (`membership/views.py`): sign-up, forgot-password and reset-password. They work on a user table and a password-reset token table. A token expires strictly more than one hour after it was created (`membership/models.py`).

Modules:

- `Wrappers` (wrappers.dfy) holds `Option`.
- `ResetTokens` (reset_tokens.dfy) holds the token record and its expiry test. Times are integer microseconds, the resolution of the stored date-times, so one hour is 3 600 000 000.
- `Accounts` (accounts.dfy) holds the tables as sequences of rows in insertion order, so "first matching row" means "lowest index". The class `Accounts` holds the users and the tokens. Its `Valid()` says that usernames, e-mails and token strings are each unique.
- `CacheCleanup` (cache_cleanup.dfy) holds the `Cache` class and the command's `Handle` method.
- `VoiceChat` (voice_chat.dfy) holds the channel layer, the shared connected set and the consumer.

In the channel layer model, `GroupSend` queues the event once for each channel that is in the group when it is called. `VoiceChatConfig` is the handler a member runs on one such event.

The consumer uses one hard-coded group, ignores the URL's tent id and broadcasts every non-ping message. `TentEventsConsumer` (routed at `ws/tent-events/`) and `CacheManager` (a cache with expiry of each user's channel and tent, used by the test script test_cache_ttl.py) are referenced but not defined in these files, and are not modelled.

## Model

| member | source | states |
|---|---|---|
| `ResetTokens.ExpiredIffElapsedOverHour` | membership/models.py:11-12 | a token is expired exactly when more than one hour has elapsed since its creation |
| `ResetTokens.ResetToken.IsExpired` | membership/models.py:11-12 | the expiry test: a token is never expired at or before its creation (the exact threshold is stated by `ExpiredIffElapsedOverHour`) |
| `ResetTokens.ExpiryBoundary` | membership/models.py:12 | at exactly one hour the token is not expired; one microsecond later it is |
| `ResetTokens.FreshDuringFirstHour` | membership/models.py:12 | a token is not expired at any time from its creation up to one hour later |
| `ResetTokens.ExpiryIsMonotone` | membership/models.py:12 | once expired at some time, a token is expired at every later time |
| `Accounts.Status` | membership/views.py:18-101 | the HTTP status of each outcome: 201 only for a created user, 200 only for a sent link or an updated password, 404 for unknown e-mail, unknown token or missing user, 400 for taken username or e-mail and for an expired token |
| `Accounts.HasUsername` | membership/views.py:21 | the username-exists check holds exactly when the name is among the usernames of the user table |
| `Accounts.HasEmail` | membership/views.py:25-26 | the e-mail-exists check holds exactly when the e-mail is among the e-mails of the user table |
| `Accounts.IndexOfEmail` | membership/views.py:43-46 | the lookup of a user by e-mail finds nothing exactly when no user has that e-mail; otherwise it finds the first user with that e-mail |
| `Accounts.IndexOfToken` | membership/views.py:81-84 | the lookup of a reset row by token finds nothing exactly when no row carries the token; otherwise it finds the first row carrying it |
| `Accounts.Without` | membership/views.py:88-99 | deleting the row at an index leaves every other row, in the same order, and nothing else |
| `Accounts.TokenMatchesAtMostOneRow` | membership/models.py:8 | because token strings are unique, at most one row matches a token |
| `Accounts.DeletedTokenIsGone` | membership/views.py:97-99 | deleting the used row keeps tokens unique, and the token can no longer be found, so it cannot be reused |
| `Accounts.ResetSetsOnlyOwnersPassword` | membership/views.py:91-98 | the reset gives the new password to the one user with the token's e-mail; every username, e-mail and other password stays as it was |
| `Accounts.Accounts.SignUp` | membership/views.py:18-32 | a taken username gives the username error and adds no user; otherwise a taken e-mail gives the e-mail error and adds no user; otherwise exactly one user with that username, e-mail and password is appended; tokens are untouched; uniqueness is preserved |
| `Accounts.Accounts.ForgotPassword` | membership/views.py:39-66 | an unknown e-mail gives not-found and stores nothing; for a known e-mail a token row for that e-mail created now is appended and the link is sent; if the token string is already stored the unique constraint fires and nothing changes; users are untouched |
| `Accounts.Accounts.ResetPassword` | membership/views.py:73-101 | an unknown token changes nothing and gives not-found. Otherwise the row is always deleted and its token can no longer be found. An expired row gives 400 and leaves the users as they were. A row whose e-mail has no user gives 404. Otherwise only that user's password becomes the new one and the answer is 200 |
| `CacheCleanup.StaleKeys` | hordes/management/commands/cleanup_websocket_cache.py:50-51 | the keys acted on are exactly the scanned keys that start with `ws_channel_` or `ws_tent_`, and there are never more of them than scanned keys |
| `CacheCleanup.StartsWithIsPrefix` | hordes/management/commands/cleanup_websocket_cache.py:51 | the `startswith` test holds exactly when the prefix is an initial segment of the key |
| `CacheCleanup.StaleKeyPrefixes` | hordes/management/commands/cleanup_websocket_cache.py:51 | a key is acted on exactly when it starts with `ws_channel_` or `ws_tent_`, so every key acted on is a `ws_` key |
| `CacheCleanup.Succeeded` | hordes/management/commands/cleanup_websocket_cache.py:49-59 | the value of `cleaned_count` after the targets: never more than the number of targets, and equal to it when no delete raises |
| `CacheCleanup.RemovedAreStaleKeysThatDoNotFail` | hordes/management/commands/cleanup_websocket_cache.py:55-56 | the keys a normal-mode sweep deletes are exactly the acted-on scanned keys whose delete does not raise |
| `CacheCleanup.OnlyScannedStaleKeysRemoved` | hordes/management/commands/cleanup_websocket_cache.py:49-59 | no key is removed unless it was scanned and has one of the two prefixes |
| `CacheCleanup.SweepStep` | hordes/management/commands/cleanup_websocket_cache.py:50-63 | processing one more key adds 1 to the count if it is acted on and its delete succeeds, reports it if it is acted on and its delete raises, and changes neither otherwise |
| `CacheCleanup.SweepStateStep` | hordes/management/commands/cleanup_websocket_cache.py:50-63 | one iteration of the normal-mode loop keeps the sweep state (count, failure report, remaining entries) equal to its value for the keys processed so far |
| `CacheCleanup.Failures` | hordes/management/commands/cleanup_websocket_cache.py:60-63 | a key is reported as failed exactly when it is a target whose delete raises |
| `CacheCleanup.CleanedPlusFailed` | hordes/management/commands/cleanup_websocket_cache.py:55-63 | every target is either counted as cleaned or reported as failed, never both and never neither |
| `CacheCleanup.CleanedAtMostScanned` | hordes/management/commands/cleanup_websocket_cache.py:49-59 | the cleaned count never exceeds the number of scanned keys |
| `CacheCleanup.Cache.Delete` | hordes/management/commands/cleanup_websocket_cache.py:56 | a delete that does not raise removes the key (an absent key is no error); one that raises leaves the cache as it was |
| `CacheCleanup.Handle` | hordes/management/commands/cleanup_websocket_cache.py:23-72 | Without scanning, nothing changes. In dry-run mode nothing is deleted and the count is 0. In normal mode exactly the stale scanned keys whose delete does not raise are removed, the count equals the number of such deletes, and the failed deletes are reported without stopping. Keys that were not scanned, or are not stale, keep their values |
| `VoiceChat.IsPing` | hordes/consumers.py:35 | a message is a heartbeat only if its `type` is the string `"ping"`; a message without `type` never is |
| `VoiceChat.Pong` | hordes/consumers.py:35-38 | the pong reply has exactly the fields `type` = `"pong"` and `ts`; `ts` is the request's `ts` unchanged, or null when absent |
| `VoiceChat.Forwarded` | hordes/consumers.py:49-52 | a member forwards the event's message, as is, at most once, and forwards nothing exactly when it is the sender |
| `VoiceChat.Frames` | hordes/consumers.py:49-52 | handling a queue of events sends the client at most one frame per event |
| `VoiceChat.FramesAppend` | hordes/consumers.py:49-52 | handling a queue in two parts sends the frames of the first part, then those of the second |
| `VoiceChat.OwnEventsSendNothing` | hordes/consumers.py:49-52 | a member never echoes its own messages: handling only events it sent sends its client nothing |
| `VoiceChat.BroadcastReachesOthersOnce` | hordes/consumers.py:40-52 | once a non-ping message from a sender has been queued for the group as `Receive` does, each group member other than the sender receives it exactly once more when it handles its queue. The sender and every channel outside the group receive nothing more |
| `VoiceChat.ChannelLayer.GroupAdd` | hordes/consumers.py:13-16 | the channel joins the group; no other group and no queue changes |
| `VoiceChat.ChannelLayer.GroupDiscard` | hordes/consumers.py:22-25 | the channel leaves the group (no change if it was not a member); no other group and no queue changes |
| `VoiceChat.ChannelLayer.GroupSend` | hordes/consumers.py:40-47 | the event is queued exactly once for every channel in the group at send time and for no channel outside it; membership is unchanged |
| `VoiceChat.VoiceChatConsumer.Connect` | hordes/consumers.py:9-19 | the channel joins group `voice_chat_tent_1` whatever the URL's tent id, and joins the connected set; the connection is accepted; the connected set and the room group stay equal if they were |
| `VoiceChat.VoiceChatConsumer.Disconnect` | hordes/consumers.py:21-27 | the channel leaves the room group and the connected set, and this is a no-op for a channel that is absent; the connected set and the room group stay equal if they were |
| `VoiceChat.VoiceChatConsumer.Receive` | hordes/consumers.py:29-47 | A ping gets exactly one pong, sent to the sender, and nothing goes to the group. Any other message, including one without `type`, is queued once for each group member as a `voice_chat_config` event. That event carries the message unchanged and the sender's channel. Membership and the connected set never change |
| `VoiceChat.VoiceChatConsumer.VoiceChatConfig` | hordes/consumers.py:49-52 | the client receives the event's message if and only if the event's sender is another channel |
| `VoiceChat.ConnectThenDisconnect` | hordes/consumers.py:7-26 | connecting then disconnecting a channel that was not connected restores the connected set and the room group's members |
| `VoiceChat.ConnectTwice` | hordes/consumers.py:7-17 | connecting the same channel twice leaves the connected set as after one connect |

## Left out

- JSON decoding and encoding. Inbound frames arrive as parsed JSON objects. The crash on malformed JSON or on a top-level value that is not an object is not modelled. JSON numbers are integers here; `ts` is copied, never inspected, so its type does not matter.
- Logging, `print` and the command's stdout and verbose output are left out. The stdout lines carry no state; the failure report is modelled as the list of failed keys.
- The channel layer's queues are unbounded and group membership never expires. Real channel layers silently drop a group message to a channel whose queue is full, and they expire group membership after a while. The "exactly once" of `VoiceChat.BroadcastReachesOthersOnce` rests on this choice.
- The delivery of queued group events to consumers is left out. Channels pops each event and calls the handler named by its type; that is framework code. `VoiceChatConfig` models the handler's effect for one event.
- The WebSocket handshake is reduced to an `accepted` flag. `Disconnect` and `Receive` require that `Connect` has run: the framework only calls them after connect, which sets the room group name.
- URL routing and ASGI wiring are left out. The URL's tent id is stored on the consumer and never used.
- `TentEventsConsumer`, `HeaderTokenAuthMiddleware` and `CacheManager` are not part of this model. They are referenced but not defined in the files modelled.
- Concurrency between connections is left out. Each handler is one atomic step.
- The cache sweep takes the scanned keys as a given sequence, which may repeat keys. Reading them from Redis is left out, and so are their byte decoding and any key prefixing done by the cache layer. Which keys make a delete raise is a constant set of the cache.
- The current time (`timezone.now()`) is a parameter.
- Mail sending, the environment variables, the token generator and password hashing are outside calls. The token string and the time are supplied, the password is stored as given, and the mail is assumed to go out.
- Request validation by the serializers is left out. It answers missing or malformed fields (including an invalid e-mail format) with 400. Each view here receives its fields as strings.
- The catch-all exception branch of sign-up is left out. It guards against database failures.
- Duplicate e-mails are excluded by `Accounts.Valid()`: the model assumes e-mails are unique and compares them as given. Sign-up checks the raw request e-mail before the serializer trims surrounding whitespace and stores the trimmed one, so an e-mail padded with spaces can slip past the check and store a second account for an existing address. After that, the lookups by e-mail in forgot-password and reset-password would raise. Whitespace trimming and that outcome are not modelled.
