# Audio server: a verified model

In-game audio travels from the Minecraft plugin through Redis to stateless relay nodes and on to
a browser tab. This project models that path, and the keys, tables and object storage beside it,
and proves what holds for every input, every reachable state and every interleaving.

Each protocol is a state machine: a `State`, the `Label`s of its atomic steps (one Redis command,
one socket frame, one SQL statement, one browser callback) and `Run`, the state after any list of
labels. Failures and lost replies are labels or flags of labels. The main results speak of `Run`;
histories that a state keeps are traced back to labels, and what a protocol is for is shown to be
reachable (`Progress.dfy`, `LinkedProgress.dfy`, `FeedProgress.dfy`).
Code that changes things in place is also written in place, as methods, many on classes. The `ensures`
of each ties it to the step functions, or to a specification that a lemma connects with them
(`RegionHandler.CallbackPublishes`, `AdminSession.LiveFeedIsSession`). No proof uses automatic induction.

| file | what it models |
|---|---|
| `Json.dfy` | the relay's JSON reader (RFC 8259, nesting limit 128) |
| `JsonTemplate.dfy` | the plugin's JSON writing: text templates without escaping; when they read back |
| `QuoteFree.dfy` | what can be read from a template whose texts hold no quotation mark |
| `Sequences.dfy`, `Options.dfy` | shared notions |
| `Uuids.dfy` | UUID text forms (section 4 of RFC 9562) |
| `Events.dfy` | the channel's events: printed by the plugin, filtered and rewritten by the relay, read by the page |
| `RegionHandler.dfy` | the WorldGuard callbacks, in place |
| `Relay.dfy` | one player session: credential, subscription, select loop |
| `Listen.dfy` | the listen page: desired against loaded clip, audio resumes, unmounting, socket close |
| `Playback.dfy` | all of the above together, many sessions at once |
| `PageHistory.dfy` | what a page wants from one state to a later one |
| `LinkedSessions.dfy` | the links of `OneTimeKeys.dfy` and the sessions of `Playback.dfy` in one run |
| `Progress.dfy`, `LinkedProgress.dfy` | what can always still happen: sessions drained, clips heard, links used |
| `RedisServer.dfy` | the Redis commands used |
| `Feed.dfy`, `AdminSession.dfy` | the recent-events list and the admin feed |
| `FeedProgress.dfy` | what an admin session can always still be sent |
| `OneTimeKeys.dfy`, `Exchange.dfy` | five families of single-use keys, the credentials minted from them, who accepts those |
| `Filenames.dfy`, `Media.dfy` | object keys; request, upload, confirm, permalink and delete |
| `KeyedStore.dfy` | stores changed one key at a time |
| `Sessions.dfy` | the `audio:sessions` hash and its concurrent tasks |
| `Settings.dfy` | `user_settings`, `players`, the default-client key |

## Where the code and its documentation differ

The model follows the code.

- The templates of `toJson`, `sessionJoin` and the proxy listeners escape nothing. They read back
  exactly when every text put into them is free of quotes, backslashes and control characters
  (`JsonTemplate.RoundTripExactly`, `Events.PlayForwardedExactly`, `Sessions.EntryReadsBackExactly`);
  `Events.QuotedUrlIsNotForwarded` is a failing input. A URL with quotation marks in one player's region can
  even reach any other player (`Events.QuotedUrlReachesAnother`); without quotation marks it reaches nobody
  else (`Events.OthersHearNothing`). `%.2f` and `%d` are taken with a locale that
  writes ASCII digits and a dot (plugin/common/src/main/java/dev/audioserver/event/AudioPlayEvent.java:18-20).
- `joined_at` is documented as the time of the proxy login (docs/events.md:80). `sessionJoin` rewrites
  it on every switch (`Sessions.SwitchRewritesJoinedAt`): the entry has the login's time exactly while the
  login is the player's last task (`Sessions.JoinedAtIsLoginExactly`); in general it has what the last task
  read from the clock (`Sessions.JoinedAtExactly`).
- The proxy's tasks go to unordered threads. An entry is right when the player's last submitted task was the
  last to change it (`Sessions.Current`), as it is when each player's own tasks run in order of submission
  (`Sessions.InOrderIsCurrent`); `Sessions.OvertakenLoginStays` shows what happens otherwise, and
  `Sessions.LastWrittenDecides` what the entry is in every case.
- The admin feed can miss an event published between reading the list and subscribing:
  `Feed.MissHappens`; exactly which are missed is `Feed.MissedExactly`.
- `sanitize_filename` says it keeps the extension (backend/src/api/media.rs:319-320). It does exactly when
  something before the extension survives the trim and the whole fits 200 bytes
  (`Filenames.ExtensionKeptExactly`); `.ogg` becomes `ogg` (`Filenames.BareExtensionIsTrimmed`), and a long name
  is cut (`Filenames.LongExtensionIsCut`). It aborts exactly on names whose 200th byte is inside a character
  (`Filenames.PanicsExactly`), and such names exist (`Filenames.AbortHappens`).
- `get_me` shows defaults to a player without a `players` row even when preferences are stored:
  `Settings.ListenerSeesDefaults`, with the exact condition in `Settings.ReadersAgreeExactly`.
- Deleting a medium removes object and row, but an upload URL stays good for an hour: a second upload after the
  deletion leaves an object without a row (`Media.OrphanHappens`); exactly then, by `Media.StoredObjectHasRow`.
- Preferences are kept by the text of the request. An admin's update under another spelling of a player's UUID
  than the canonical one never reaches the player (`Settings.UpdateReachesExactly`).
- `reconcile` adjusts a clip that is already loaded and does not start it again, so the claims are about
  the loaded clip and its parameters, not about sound.

## Model

| member | source | states |
|---|---|---|
| Playback.DrainedPageFollowsRegions | backend/src/ws/handler.rs:126-171 | in every run, once an open session has read the channel and the browser has taken its frames, the page wants exactly what the player's latest region callback since the subscription asked for; with audio enabled and no resume outstanding that very clip is loaded, or nothing is live. It takes the player's own URLs to be plain and everyone's texts to be free of quotation marks |
| Playback.PageFollowsSomePrefix | client-lite/src/routes/+page.svelte:125-157 | in every reachable state the page wants the player's latest wish of some moment since the subscription that the session had reached |
| PageHistory.PageMovesForward | client-lite/src/routes/+page.svelte:125-157 | as a run goes on those moments never go back: an open page's wish is that of n messages since the subscription, later that of m, and n is at most m |
| PageHistory.RunLater | backend/src/ws/handler.rs:81-176 | over any further steps a session keeps its player, credential and subscription, only adds frames, and its socket does not reopen |
| Progress.SessionOpenExactly | backend/src/ws/handler.rs:126-171 | in every run a subscribed session is open if and only if nothing it heard was a peer close, an end of stream, a receive error, a closed channel, a failed send or its own player's disconnect |
| Progress.CanDrain | backend/src/ws/handler.rs:126-171 | every open session with an open page, on readable events and no disconnect of its player to come, can be drained by moves of its own that disturb no other session, and its page then wants what the player's regions last asked for |
| Progress.CanBeHeard | client-lite/src/routes/+page.svelte:43-141 | at any point of any run a player can open a session, enable audio and have loaded the clip of a region entered then, with its volume and looping, whatever plain URL it has |
| Progress.WakeIsHeard | backend/src/ws/handler.rs:126-146 | whatever else wakes an open session is taken by its loop |
| Progress.SessionStarts | backend/src/ws/handler.rs:81-100 | a session starts open with its credential sent, or closed with nothing sent if that send fails, and no session there already is touched |
| Progress.SubscriptionFails | backend/src/ws/handler.rs:100-119 | a session that cannot subscribe ends with the credential and a close frame |
| LinkedSessions.SessionHasLink | backend/src/ws/handler.rs:35-69 | in every joint run of keys and sessions each session was opened by an audio link that the plugin wrote for the session's player, consumed before it expired and by no other session, and was handed that player's credential |
| LinkedSessions.LinkedPageFollowsRegions | backend/src/ws/handler.rs:35-69 | so a drained page wants what the regions of the player its link was written for last asked for |
| LinkedProgress.LinkOpens | backend/src/ws/handler.rs:35-69 | in every joint run a link just written opens a session for its player, with a credential of that player made at that time |
| LinkedProgress.LinkCanBeHeard | backend/src/ws/handler.rs:35-69 | so at any point of any joint run a player given a link can open a session with it and have the next region's clip loaded |
| Playback.StepConsistent | backend/src/ws/handler.rs:81-176 | every step of every process keeps every session's frames equal to the loop's output on the channel window since its subscription, and its page sound and in line with the frames taken |
| Playback.WishExpected | plugin/paper/src/main/java/dev/audioserver/module/worldguard/AudioSessionHandler.java:66-83 | the message owed to a player for a callback reads as that callback's clip (flag volume in percent or 1.0, loop only on ALLOW) or as a stop; lifecycle events owe none |
| Playback.MessagesCarryWishes | plugin/paper/src/main/java/dev/audioserver/module/worldguard/AudioSessionHandler.java:42-60 | a page that takes all of a player's forwarded messages ends with the wish of the player's latest callback |
| RegionHandler.Publish | plugin/common/src/main/java/dev/audioserver/redis/RedisManager.java:149-156 | puts the event's text on the channel and at the head of the trimmed list |
| RegionHandler.CallbackPublishes | plugin/paper/src/main/java/dev/audioserver/module/worldguard/AudioSessionHandler.java:41-60 | what a callback does to the channel is the pipeline's publish step, which touches no session |
| RegionHandler.PublishPlay | plugin/paper/src/main/java/dev/audioserver/module/worldguard/AudioSessionHandler.java:66-78 | publishes and records the play event of the pipeline for these flags |
| RegionHandler.OnInitialValue | plugin/paper/src/main/java/dev/audioserver/module/worldguard/AudioSessionHandler.java:41-46 | appends the callback's event to the channel and records it in the list; nothing for an absent source |
| RegionHandler.OnSetValue | plugin/paper/src/main/java/dev/audioserver/module/worldguard/AudioSessionHandler.java:48-53 | the same, and movement is allowed |
| RegionHandler.OnAbsentValue | plugin/paper/src/main/java/dev/audioserver/module/worldguard/AudioSessionHandler.java:55-60 | the same for leaving, with a stop |
| Relay.TranslateEvent | backend/src/ws/handler.rs:200-226 | editing the payload's object in place decides as the specification `Translate` does, error branches included |
| Relay.WsSession | backend/src/ws/handler.rs:81-176 | the frames put on the socket are exactly those of the loop's specification for any inputs and send failures; nothing without the credential, and the credential with a close frame without a subscription |
| Relay.SessionStream | backend/src/ws/handler.rs:126-171 | at every point the text frames are the credential and then the player's messages of a first part of the payloads heard, none missing, twice, out of order or beyond the disconnect; a close frame only for that disconnect, and last |
| Relay.PingsAnswered | backend/src/ws/handler.rs:132-136 | while the session is open its pongs are the pings received, in order, however messages interleave |
| Relay.OpenExactly | backend/src/ws/handler.rs:126-171 | a session is open if and only if none of its inputs ends one: peer close, end of stream, receive error, closed channel, a ping or message that could not be sent, the player's disconnect; other players' events, unreadable payloads and other frames do not |
| Relay.SessionExactly | backend/src/ws/handler.rs:126-171 | up to the first input that ends it a session sends the credential, all the player's messages and a pong for every ping, each in order, and then a close frame if and only if the end was the player's disconnect |
| Relay.ClosedStaysClosed | backend/src/ws/handler.rs:126-176 | nothing that arrives after the loop ended changes the session |
| Events.TranslatesAsExpected | backend/src/ws/handler.rs:191-226 | for every event without quotation marks, and with a plain URL if it is the player's own play, reading back what the plugin printed gives the player the fields with `event` renamed and `player_id` dropped, closes on a disconnect, and gives any other player nothing |
| Events.TranslateExactly | backend/src/ws/handler.rs:200-226 | for any payload at all: nothing unless it is an object naming the player and one of three events; a close for a disconnect; otherwise all its members but `event` and `player_id`, with `type` for the event |
| Events.OthersHearNothing | backend/src/ws/handler.rs:204-208 | an event without quotation marks, whatever backslashes and control characters it holds, gives no other player anything |
| Events.QuotedUrlReachesAnother | plugin/common/src/main/java/dev/audioserver/event/AudioPlayEvent.java:17-21 | for any two players, some URL makes the first one's play event a message for the second |
| Events.PlayForwardedExactly | plugin/common/src/main/java/dev/audioserver/event/AudioPlayEvent.java:17-21 | a play event reaches its player unaltered if and only if its URL is plain |
| Events.QuotedUrlIsNotForwarded | plugin/common/src/main/java/dev/audioserver/event/AudioPlayEvent.java:18-20 | one quotation mark in the URL is enough to lose the event's content |
| Events.PlayTemplate | plugin/common/src/main/java/dev/audioserver/event/AudioPlayEvent.java:18-20 | the printed text is the source's template, hole by hole |
| Events.StopTemplates | plugin/common/src/main/java/dev/audioserver/event/AudioStopEvent.java:15-18 | the printed stop and disconnect, name by name |
| Events.LifecycleTemplates | plugin/velocity/src/main/java/dev/audioserver/velocity/listener/PlayerEventListener.java:50-76 | the printed login and switch, name by name |
| Events.RegionTemplate | plugin/common/src/main/java/dev/audioserver/event/RegionEnterEvent.java:15-20 | the printed region entry, name by name |
| Events.RenamedPlay | backend/src/ws/handler.rs:215-220 | the rewrite of a play event's object leaves exactly type, src, volume and loop |
| Events.ClientReads | client-lite/src/routes/+page.svelte:143-155 | the page gets back source, volume as a number and loop flag of a forwarded play, and recognises a stop |
| JsonTemplate.RoundTripExactly | plugin/common/src/main/java/dev/audioserver/event/RegionEnterEvent.java:16-20 | for any template, reading the rendered text gives the fields back if and only if every text hole is plain |
| QuoteFree.QuoteFreeObject | plugin/common/src/main/java/dev/audioserver/event/RegionEnterEvent.java:16-20 | a template whose texts hold no quotation mark is refused by the reader, or read as its own names in order with the right value in every plain hole |
| JsonTemplate.ObjectAtLeast | backend/src/ws/handler.rs:201-202 | no object can be read from a text shorter than its members need when escaped |
| JsonTemplate.Fixed2Value | plugin/common/src/main/java/dev/audioserver/event/AudioPlayEvent.java:19-20 | `%.2f` of a number of hundredths is a JSON number denoting that number |
| Json.EscapesReadBack | backend/src/ws/handler.rs:201 | the reader gets back every text written wholly in numbered escapes, surrogate pairs included |
| Json.NamedEscapes | backend/src/ws/handler.rs:201 | and each of the eight named escapes |
| Uuids.PrintReadsBack | backend/src/auth/ott.rs:33-36 | the reader recovers every UUID from its canonical text |
| Uuids.SamePrint | backend/src/ws/handler.rs:205-208 | comparing printed UUIDs compares UUIDs |
| Uuids.AllFormsRead | backend/src/auth/ott.rs:33-36 | an identifier is also read without hyphens, in braces and as a URN |
| Listen.LoadedIsDesired | client-lite/src/routes/+page.svelte:43-82 | in every reachable state at most one clip is live, and with audio enabled and no resume outstanding the loaded clip is the one last asked for, volume and loop included |
| Listen.ClosedIsSilent | client-lite/src/routes/+page.svelte:163-178 | once the socket has closed nothing is live, whatever the order of close, unmount and resumes |
| Listen.LateResumeChangesNothing | client-lite/src/routes/+page.svelte:91-102 | once audio is enabled and a play or stop has been taken, a resume changes nothing, however late it settles and whatever happened in between, unmounting and closing included |
| Listen.StepsSound | client-lite/src/routes/+page.svelte:43-178 | the page's invariant (only the current clip can be live; enabled implies authenticated; an unmatched wish has a resume outstanding) holds after any actions |
| Listen.AuthenticatedExactly | client-lite/src/routes/+page.svelte:134-141 | after any actions the page is authenticated if and only if the credential arrived while the socket was open |
| Listen.EnabledExactly | client-lite/src/routes/+page.svelte:91-102 | audio is enabled if and only if the button was clicked on a mounted, authenticated page |
| Listen.SocketExactly | client-lite/src/routes/+page.svelte:106-121 | the socket is open if and only if the page had a token and was neither cut off nor unmounted |
| Listen.ClickExactly | client-lite/src/routes/+page.svelte:91-102 | a click loads the clip asked for at once, or, with suspended audio, nothing until the resume |
| Listen.ResumeLoads | client-lite/src/routes/+page.svelte:95-99 | a resume leaves none outstanding, and the clip last asked for loaded on a mounted, enabled page |
| Listen.PlayLoadsExactly | client-lite/src/routes/+page.svelte:54-81 | a play for the loaded source adjusts that clip, for any other source it loads one new clip |
| Listen.CloseExactly | client-lite/src/routes/+page.svelte:163-171 | a close takes the wish and the clip from an authenticated page and leaves any other alone |
| Listen.UnmountedIsSilent | client-lite/src/routes/+page.svelte:174-178 | after unmounting nothing is live unless a resume settles later |
| Listen.ListenPage.ReconcileNow | client-lite/src/routes/+page.svelte:43-82 | changes the clip objects as `Reconcile` says, unloading a replaced clip and reloading none that matches |
| Listen.ListenPage.Enable | client-lite/src/routes/+page.svelte:91-102 | enables, and reconciles unless the audio context is suspended |
| Listen.ListenPage.HandleMessage | client-lite/src/routes/+page.svelte:125-157 | takes each message as the value model does, and stores the credential and player of `auth_success` only |
| Listen.ListenPage.HandleClose | client-lite/src/routes/+page.svelte:163-171 | silences an authenticated page |
| Listen.ListenPage.Destroy | client-lite/src/routes/+page.svelte:174-178 | is the tab's unmount step: the socket is no longer open, the current clip and no other is unloaded |
| Feed.RecentList | plugin/common/src/main/java/dev/audioserver/redis/RedisManager.java:170-178 | for every interleaving of publishers the list is a first part of the reversed pushes, at least the last min(200, pushes), longer by at most one for each publisher between its push and its trim, and exactly the last 200 when there is none |
| Feed.ChannelIsPublished | plugin/common/src/main/java/dev/audioserver/redis/RedisManager.java:170-172 | the channel is the texts of the run's publications, in order |
| FeedProgress.ListIsBounded | plugin/common/src/main/java/dev/audioserver/redis/RedisManager.java:170-178 | the list's excess over 200 is at most the publishers between push and trim and the failures there since the last trim, counted on the run |
| Feed.AtMostOnce | backend/src/ws/admin.rs:51-140 | no admin session is sent one occurrence twice across replay and live phase |
| Feed.MissedExactly | backend/src/ws/admin.rs:51-96 | a live session has missed exactly the occurrences published before its subscription that were not in the list it read |
| Feed.MissHappens | backend/src/ws/admin.rs:53-96 | a run in which an event published between the two is missed |
| FeedProgress.CanGoLive | backend/src/ws/admin.rs:51-96 | at any point of any run a new session can be sent the whole list, oldest first, and the sentinel, and go live |
| FeedProgress.CanCatchUp | backend/src/ws/admin.rs:104-137 | every live session can be sent all that was published since it subscribed, no other session disturbed |
| FeedProgress.CanFollow | backend/src/ws/admin.rs:51-137 | a new session can be sent the list, the sentinel and the next event published |
| FeedProgress.SubscriptionFails | backend/src/ws/admin.rs:81-94 | a session that cannot subscribe has sent its history, the sentinel and a close |
| FeedProgress.EndedIsSentNothing | backend/src/ws/admin.rs:104-140 | nothing is sent to a session that has ended, whatever happens later |
| Feed.PublishAndRecord | plugin/common/src/main/java/dev/audioserver/redis/RedisManager.java:170-178 | appends to the channel, pushes at the head and keeps 200 |
| Feed.PublishAndRecordNow | plugin/common/src/main/java/dev/audioserver/redis/RedisManager.java:170-178 | undisturbed, the three commands have the effect of the state machine's three steps |
| AdminSession.Replay | backend/src/ws/admin.rs:61-80 | sends the history and the sentinel, as far as the socket takes them |
| AdminSession.SelectLoop | backend/src/ws/admin.rs:104-137 | forwards every message unfiltered and answers pings until something ends the loop or the socket breaks |
| AdminSession.AdminWsSession | backend/src/ws/admin.rs:51-140 | the frames sent are the first ones, as many as the socket takes, of reversed list, sentinel and live part |
| AdminSession.PortalHears | backend/src/ws/admin.rs:61-136 | on an unbroken socket the portal is sent the list oldest first, then the sentinel, then, pongs aside, every channel message in order |
| AdminSession.LoopExactly | backend/src/ws/admin.rs:104-137 | up to the first peer close, end of stream, receive error or closed channel, and for nothing else, the loop answers every ping with its pong and sends every payload, each kind in order; after it nothing |
| AdminSession.AroundTheLoop | backend/src/ws/admin.rs:51-96 | without a list only the sentinel precedes the loop; without a subscription a close takes its place |
| AdminSession.FeedIsSession | backend/src/ws/admin.rs:51-136 | the feed's state machine and the handler's session show the same frames for the same list and channel window |
| AdminSession.LiveFeedIsSession | backend/src/ws/admin.rs:51-136 | in every run what a live session of the state machine has sent is what the handler's session shows for the list read and the messages heard |
| OneTimeKeys.KeysApart | backend/src/auth/ott.rs:24 | keys of the five families are equal only for the same family and token, whatever text a client sends |
| OneTimeKeys.DecodesOwn | backend/src/auth/player_ott.rs:34-44 | each consumer reads back what its own issuer wrote, for every username |
| OneTimeKeys.OneGrantPerIssue | backend/src/auth/ott.rs:23-37 | in every run each issue is granted at most once, to its own family, before its expiry, for the subject it was written for |
| OneTimeKeys.ConsumesOwnFamilyOnly | backend/src/auth/player_ott.rs:21-30 | a consumer removes only a key its own family's issuer wrote under the token presented |
| OneTimeKeys.FirstConsumerSucceeds | backend/src/auth/admin_login_ott.rs:11-27 | nothing but time, or a step on the same family and token, keeps the first consumer from its grant |
| OneTimeKeys.PlayerTokenTraces | backend/src/auth/extractor.rs:52-72 | every token accepted on player routes comes from a link written for that very player and consumed once, in time; any other link that gave an equal token was the same player's, consumed in the same second |
| OneTimeKeys.AdminTokenTraces | backend/src/auth/extractor.rs:26-41 | every token accepted on admin routes comes from an admin link, with that link's subject and the grant's time and lifetime, or from a password login, with its own; and it is not accepted on player routes |
| OneTimeKeys.PlayerTokenAccepted | backend/src/auth/jwt.rs:37-55 | a minted player token is accepted on player routes exactly until it expires |
| OneTimeKeys.AdminTokenAccepted | backend/src/auth/jwt.rs:61-79 | a credential of an admin grant is accepted on admin routes exactly until its time, lifetime and leeway have passed |
| OneTimeKeys.LoginTokenAccepted | backend/src/auth/jwt.rs:61-79 | the same for a password login |
| OneTimeKeys.GrantedInTime | plugin/common/src/main/java/dev/audioserver/redis/RedisManager.java:42-46 | every grant came within 60, 300, 300, 15 or 3600 seconds of its issue, by family |
| OneTimeKeys.IssueWasWritten | plugin/common/src/main/java/dev/audioserver/redis/RedisManager.java:76-114 | every issue is a write of the run, at its time |
| OneTimeKeys.GrantWasConsumed | backend/src/auth/ott.rs:23-37 | every grant is a consumption of the run, at its time, with that node's lifetime |
| OneTimeKeys.LoginWasMade | backend/src/auth/jwt.rs:61-79 | every password login counted is one of the run, at its time |
| OneTimeKeys.AdminLinkTolerates | backend/src/auth/admin_login_ott.rs:20-26 | an admin link is read although white space surrounds the identifier |
| OneTimeKeys.AnswerIsGrant | backend/src/auth/ott.rs:33-36 | a validator's answer is the grant of its step |
| OneTimeKeys.WriteOttToken | plugin/common/src/main/java/dev/audioserver/redis/RedisManager.java:76-80 | is the write step of an audio link |
| OneTimeKeys.WritePortalOttToken | plugin/common/src/main/java/dev/audioserver/redis/RedisManager.java:108-114 | is the write step of a portal link |
| OneTimeKeys.WriteAdminOttToken | plugin/common/src/main/java/dev/audioserver/redis/RedisManager.java:91-96 | is the write step of an admin link |
| OneTimeKeys.IssueTicket | backend/src/auth/admin_ticket.rs:12-24 | is the write step of a feed ticket |
| OneTimeKeys.ValidateOtt | backend/src/auth/ott.rs:23-37 | is the consume step of its family, or no step when Redis was not reached, and answers what the key stood for, telling malformed values, absent keys and Redis failures apart |
| OneTimeKeys.ValidatePlayerOtt | backend/src/auth/player_ott.rs:21-45 | the same, with malformed values answered as absent |
| OneTimeKeys.ValidateAdminOtt | backend/src/auth/admin_login_ott.rs:11-27 | the same for admin links |
| OneTimeKeys.ValidateTicket | backend/src/auth/admin_ticket.rs:30-38 | the same for tickets |
| Exchange.WsHandler | backend/src/ws/handler.rs:35-69 | upgrades exactly for a token that stood for a player, once, with that player's credential, issued now and good for the lifetime; unauthorised exactly for an absent key; nothing is consumed for a missing token, and a Redis failure is a server error |
| Exchange.AdminOttLogin | backend/src/api/auth.rs:121-144 | mints an admin credential, issued now and good for the lifetime, exactly for a token that stood for an admin link, once; a Redis failure is a server error |
| Exchange.AdminWsHandler | backend/src/ws/admin.rs:23-49 | opens a feed exactly for a ticket that was issued and is not expired, once; a Redis failure is a server error |
| Filenames.SanitizedIsGood | backend/src/api/media.rs:321-331 | every name that comes out is non-empty, at most 200 bytes, of safe characters, with no leading dot, dash or underscore, and a second pass leaves it alone |
| Filenames.UnchangedExactly | backend/src/api/media.rs:321-331 | a name is left alone if and only if it is already so |
| Filenames.SanitizedIsTheRest | backend/src/api/media.rs:322-330 | the result is the input from its first leading-capable character on, each character kept or replaced, to the end or for exactly 200 bytes |
| Filenames.SanitizedSpelledOut | backend/src/api/media.rs:321-331 | the same in literal characters: letters, digits, dots and dashes kept, all else an underscore, 200 bytes |
| Filenames.CutAtBoundary | backend/src/api/media.rs:329 | cutting at a byte succeeds if and only if some character ends there |
| Filenames.PanicsExactly | backend/src/api/media.rs:329 | the function aborts if and only if the name is too long and its 200th byte is inside a character |
| Filenames.AbortHappens | backend/src/api/media.rs:329 | a name on which it aborts |
| Filenames.ExtensionKeptExactly | backend/src/api/media.rs:319-330 | the extension keeps its place if and only if some character before it cleans to other than a dot, dash or underscore and the cleaned name fits 200 bytes |
| Filenames.BareExtensionIsTrimmed | backend/src/api/media.rs:328 | a short name that loses its dot to the trim |
| Filenames.LongExtensionIsCut | backend/src/api/media.rs:329 | a long name that loses its extension to the cut |
| Filenames.KeySplits | backend/src/api/media.rs:74-76 | an object key determines its id and name |
| Media.RowsAreAsRequested | backend/src/api/media.rs:122-190 | in every run, failures anywhere, no object key ever has two rows, and each row's file name, content type and uploader are those of the request for its key, of an audio type |
| Media.RowComesFromRun | backend/src/api/media.rs:61-190 | every row of every run goes back to a request with its file name as given, its content type, beginning with `audio/`, and its admin, to a confirmation reporting its details, and to an insertion, that confirmation not having failed between; its key is the upload and the sanitised name |
| Media.PendingSince | backend/src/api/media.rs:78-98 | a key is pending only since a request that Redis stored, and not expired since |
| Media.StoredObjectHasRow | backend/src/api/media.rs:233-280 | a confirmed object in storage is without its row if and only if the row was deleted and the object put again since; of a deleted medium the object is in storage if and only if it was put again |
| Media.LateIsPutAgain | backend/src/api/media.rs:61-107 | put again, read off the run: some upload after the confirmation, with no removal after it |
| Media.OrphanHappens | backend/src/storage/mod.rs:51-54 | a run in which an upload after the deletion leaves an object without a row |
| Media.PermalinkIsStable | backend/src/api/media.rs:286-313 | all resolutions of one id give the same object, one that stops resolving was deleted, and a deleted one never resolves again |
| Media.ConfirmEffect | backend/src/api/media.rs:122-190 | an undisturbed confirmation takes the pending key and inserts one row for it, unless the reply, the insert or uniqueness fails |
| Media.DeleteEffect | backend/src/api/media.rs:233-280 | an undisturbed deletion touches the object first and the row only after that succeeded |
| Media.Library.RequestUploadUrl | backend/src/api/media.rs:61-107 | the key is the upload and the sanitised name, and the pending entry the name as given, content type and admin; refused exactly for a type not beginning with `audio/`; a URL is issued even when Redis did not store the entry |
| Media.Library.ConfirmUpload | backend/src/api/media.rs:122-190 | is the confirmation's steps; refused exactly for a key not pending or a reply that did not come, a server error without a connection |
| Media.Library.DeleteMedia | backend/src/api/media.rs:233-280 | is the deletion's steps; success exactly when both object and row went, not-found exactly for an unknown id, a failed lookup changes nothing |
| Media.Library.MediaPermalink | backend/src/api/media.rs:286-313 | redirects to the row's object or answers not-found, or a server error when the lookup fails |
| KeyedStore.ApplyAt | backend/src/api/settings.rs:84-92 | the value of a key is the fold of the changes made to that key alone |
| KeyedStore.Confluent | plugin/common/src/main/java/dev/audioserver/redis/RedisManager.java:190-208 | interleavings that agree on the changes of each key end in the same store |
| Sessions.EntryReadsBackExactly | backend/src/api/sessions.rs:33-41 | the relay reads back what `sessionJoin` wrote if and only if both names are plain and the time fits 64 bits |
| Sessions.LastTaskDecides | plugin/velocity/src/main/java/dev/audioserver/velocity/listener/PlayerEventListener.java:46-103 | a current entry is that of the player's last submitted task, with the time that task read from the clock |
| Sessions.LastWrittenDecides | plugin/common/src/main/java/dev/audioserver/redis/RedisManager.java:190-208 | the entry is always that of the task that changed it last, which is the last submitted one if and only if the entry is current |
| Sessions.InOrderIsCurrent | plugin/velocity/src/main/java/dev/audioserver/velocity/listener/PlayerEventListener.java:54-57 | tasks that all ran in order of submission leave the entry current |
| Sessions.JoinedAtExactly | plugin/common/src/main/java/dev/audioserver/redis/RedisManager.java:190-197 | a current entry's text carries a time if and only if the player's last task is a login or switch that read it from the clock, even when names make the text unreadable |
| Sessions.JoinedAtIsLoginExactly | plugin/common/src/main/java/dev/audioserver/redis/RedisManager.java:190-197 | the entry carries the login's time if and only if that login is the player's last task, given that later tasks were submitted in later seconds |
| Sessions.ListedExactly | backend/src/api/sessions.rs:47-73 | a player with a current entry is in the hash exactly when the last task was a login or switch, and is listed with that task's name, server and clock reading if and only if both names are plain and the time fits 64 bits |
| Sessions.HashConfluence | plugin/common/src/main/java/dev/audioserver/redis/RedisManager.java:190-208 | two runs with the same tasks of each player in the same order and current entries, in any interleaving, timing and publishing failures, end in the same hash up to the recorded times |
| Sessions.PublishedAfterRecorded | plugin/velocity/src/main/java/dev/audioserver/velocity/listener/PlayerEventListener.java:99-102 | a lifecycle event is on the channel only after its change of the hash, and at most once |
| Sessions.OvertakenLoginStays | plugin/velocity/src/main/java/dev/audioserver/velocity/listener/PlayerEventListener.java:54-57 | from any state, a login overtaken by the later disconnect leaves the player in the hash |
| Sessions.SwitchRewritesJoinedAt | plugin/common/src/main/java/dev/audioserver/redis/RedisManager.java:190-197 | whatever the entry was, a switch records the time of its own task |
| Sessions.TasksAreSubmissions | plugin/velocity/src/main/java/dev/audioserver/velocity/listener/PlayerEventListener.java:46-103 | the tasks are the run's submissions, in order, each at its time |
| Sessions.ClockWasRead | plugin/common/src/main/java/dev/audioserver/redis/RedisManager.java:190-193 | a task's clock reading is the time at which the run says it read the clock |
| Sessions.EffectIsWritten | plugin/common/src/main/java/dev/audioserver/redis/RedisManager.java:190-197 | a command that took effect leaves the entry of its task even if its reply was lost, and one that did not leaves the hash alone |
| Sessions.SessionJoin | plugin/common/src/main/java/dev/audioserver/redis/RedisManager.java:190-197 | sets the player's entry to name, server and present time |
| Sessions.SessionLeave | plugin/common/src/main/java/dev/audioserver/redis/RedisManager.java:204-208 | removes the player's entry and no other |
| Sessions.OnPostLogin | plugin/velocity/src/main/java/dev/audioserver/velocity/listener/PlayerEventListener.java:47-58 | undisturbed, is the login task's steps: entry with an empty server, then the event on the channel and in the list |
| Sessions.OnServerConnected | plugin/velocity/src/main/java/dev/audioserver/velocity/listener/PlayerEventListener.java:70-82 | the same for a switch |
| Sessions.OnDisconnect | plugin/velocity/src/main/java/dev/audioserver/velocity/listener/PlayerEventListener.java:93-103 | the same for a disconnect |
| Settings.SettingsAreLastProvided | backend/src/api/settings.rs:84-92 | for every interleaving of admin and player updates each field read under a text is the one last provided under that text, or the default |
| Settings.UpdateReachesExactly | backend/src/api/settings.rs:73-92 | an admin's update is among a player's if and only if the text it was made under is the player's canonical one; under another it leaves the player's row alone |
| Settings.SettingsConfluence | backend/src/api/settings.rs:73-106 | runs with the same updates for each player, in any interleaving, end in the same table |
| Settings.ProfileShowsLogins | backend/src/api/player.rs:102-115 | the profile shows the first and last portal login and the last name |
| Settings.ReadersAgreeExactly | backend/src/api/player.rs:138-164 | both routes show the same preferences if and only if the player has logged in to the portal or the stored ones are the defaults |
| Settings.ListenerSeesDefaults | backend/src/api/player.rs:150-159 | a run in which they differ |
| Settings.DefaultClientIsLastChoice | backend/src/api/player.rs:253-265 | the client shown, and the link given in game, follow the choice stored last, always one of two, the lite one when none was |
| Settings.ReadersShowRequests | backend/src/api/player.rs:138-176 | all that both routes and the game show, spelled out by the requests of the run: last given volume or 1, last given flag or on, last name, first and last login, last client or lite |
| Settings.Accounts.UpsertSettings | backend/src/api/player.rs:202-215 | the in-place upsert is the merge of the specification and touches one row |
| Settings.Accounts.HandlePutSettings | backend/src/api/settings.rs:73-106 | is the admin update step, answered with what later readers are shown |
| Settings.Accounts.HandleGetSettings | backend/src/api/settings.rs:35-67 | answers the row or the defaults, or a server error |
| Settings.Accounts.HandlePutPlayerSettings | backend/src/api/player.rs:184-247 | is the player update step; an unknown client changes nothing, a database failure leaves the choice alone |
| Settings.Accounts.HandleGetMe | backend/src/api/player.rs:130-178 | answers the joined profile of the specification, or a server error |
| Settings.Accounts.UpsertPlayer | backend/src/api/player.rs:102-115 | is the portal login step |
| Settings.Accounts.PlayerCallback | backend/src/api/player.rs:81-127 | a token is given exactly for a link just consumed, to its player, and only once the player's row is there; a Redis failure is a server error and changes no row |

## Left out

- The page's status texts, markup and `localStorage` beyond the stored credential.
- Howler beyond loaded, volume and loop: decoding, playing, load errors, and its refusal of volumes outside 0 to 1.
- Any claim that a volume lies in 0 to 1 after a player's own settings: the relay does not check it.
- JSON numbers out of range, which the relay's library refuses, and binary rounding: numbers keep their digits and denote reals.
- The text the relay prints for a forwarded object: the browser is taken to get the map of fields it was printed from.
- Messages of the wrong shape at the browser, which the relay never sends: the model's page ignores them.
- Volumes other than whole hundredths: the region handler publishes no others.
- Fields a session entry should not have are read as strictly as the others; the relay's library skips them more leniently.
- Redis dropping a slow subscriber: modelled as the stream closing.
- The answers given when no database or storage is configured, and failed writes of links and tickets, which leave no key.
- Randomness of tokens and ids: media and upload ids are fresh by requirement of the steps; reused link tokens overwrite, as in Redis.
- One logical clock instead of those of proxy, relay, Redis and database; expiry is exact on it, and the leeway of token checks is a parameter.
- Signatures: the tokens that verify are those some node minted with the shared secret, so a node's verdict depends only on token and time.
- The `Authorization` header's parsing, password hashing, admin accounts and the first one's creation: a password login is one step.
- The pending upload's JSON in Redis and presigned URLs: the map holds the values; an upload is a step on a key once asked for, at any later time.
- Which characters beyond ASCII are alphanumeric is a parameter of the sanitiser.
- `list_media`, statistics, the portal's pages and server actions, the two proxies, module registry and configuration: easy members only.
- WorldGuard's evaluation of regions: any sequence of callbacks.
- `region_enter` beyond being dropped: nothing in the repository publishes it.
