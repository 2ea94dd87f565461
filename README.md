# waffle-bot in Dafny

waffle-bot relays Twitch EventSub "stream went live" webhooks to Discord
channels. This project models the logic underneath its Express, axios, knex
and discord.js plumbing, and proves properties of that model.

- **The EventSub gateway** (module `TwitchController`).
  - Signature and retry check.
  - Dispatch on the message type.
  - The process-wide set of notification ids, modelled as a class with a `set` field.
- **The relational store** (modules `Schema` and `TwitchService`).
  - The two tables and their constraints: primary keys, NOT NULL, and the foreign key with ON DELETE CASCADE.
  - What the migrations' `up` and `down` do.
  - The eight knex queries: reads are functions of the table contents; writes are methods of a `Database` class.
- **The upstream protocol** (module `TwitchApi`).
  - Token grant and revoke, user lookup, the EventSub subscription request, subscription listing and clean-up.
  - Each HTTP call is an event appended to the `trace` of an `Upstream` object.
  - What the network answers is an oracle value passed in as a parameter.
- **The chat bot** (module `Bot`).
  - The command registry, filled in nested loops.
  - Prefix and tokenising rules.
  - The per-command, per-user cooldown map, driven by an explicit clock `now`.
  - The internal `/discord/twitch` route.
  - The "is live" embed strings and the per-channel fan-out loop.
- **Small request logic**.
  - Bearer-token check (`InternalAuth`).
  - Announcement gate (`AnnouncementGate`).
  - Route table (`TwitchRouter`).
  - Error middlewares (`Errors`).
  - The `help` command (`Help`).

Shared pieces:

- `Wrappers`: Option and Result.
- `Seqs`: counting and filtering.
- `JsText`: the JavaScript string built-ins the code uses (template interpolation, `split`, `join`, `trim`, `toLowerCase`).
- `Express`: the actions a middleware issues. These are `next()`, `next(err)`, `send`, `sendStatus` and `json`, plus the hand-offs to the notifier and to `twitchLive`. It also holds the shape both checking middlewares share: a `next(err)` per failed check, then `next()`.

Conventions:

- A JavaScript value that may be `undefined` is an `Option`. Interpolating `None` gives the text "undefined".
- A middleware is modelled as the ordered sequence of actions it issues.
- No middleware of this code base returns after `next(err)`, so the action sequence of one handler contains the fall-through calls exactly as the code issues them.
- Express stops at the first `next(err)`: it skips the rest of the chain and the error handler answers with that error. `Express.Effective` keeps the actions up to that call, and the two chains of handlers (`subscribe` and `POST /discord/twitch`) are modelled through it.

## Where the code departs from the system's design

The model follows the code in each of these cases.

- The handlers do not return after a rejection. The code of each of these goes on issuing calls after its `next(err)`:
  - a bad signature or too many retries (`verifySignature`);
  - a duplicate notification (`requestRouter`);
  - a missing or wrong internal token (`verifyInternalToken`);
  - a missing announcement (`verifyAnnouncementResult`).
  Express answers with the first error and runs no later handler of the chain, so these calls do not change the answer. A duplicate notification gets the 400 error and is not forwarded: the router's `sendStatus(200)` throws because the answer was already sent, which ends the handler before the forward (`TwitchController.DeliveredTwice`, `TwitchController.NotificationLog.Subscribe`). A missing token gets only the 401, even when the token is also wrong (`Bot.DiscordTwitchRoute`).
- No constraint makes a (guild, broadcaster) subscription pair unique. A second insert of the same pair succeeds, and the join then names the guild's channel twice (`TwitchService.DuplicatePairAdmitted`).
- `logSubscription` and `revokeAccessToken` are evaluated as arguments of `.then` and `.finally`. They are therefore issued right after the EventSub POST, whatever the POST answers. The store write is not conditional on upstream acceptance.
- Token revocation is not once per acquired token:
  - `fetchBroadcasterID` never revokes;
  - `cancelSubscriptions` revokes once per listed id, so it revokes never when there is no id and several times when there are several.
- `retrieveUserID` turns an empty user list into `""`, the same value as a transport failure.

## Model

| member | source | states |
|---|---|---|
| TwitchController.SignedMessage | api/twitch/twitch.controller.js:140-146 | the signed message ends with the raw body; with both headers present it is id, timestamp and body; with one absent that one reads "undefined"; with both absent it is "NaN" followed by the body |
| TwitchController.MissingHeadersSignAsNaN | api/twitch/twitch.controller.js:146 | a request without id and timestamp headers signs the same message as one whose id is "NaN" and whose timestamp is empty |
| TwitchController.ExpectedSignature | api/twitch/twitch.controller.js:140-148 | the expected header is "sha256=" followed by the HMAC digest of the signed message under the secret |
| TwitchController.VerifySignature | api/twitch/twitch.controller.js:123-161 | the 202 retry error is raised iff the retry count exceeds 1; the 400 signature error is raised iff the header differs from the expected signature; a single plain `next()` always comes last; it never responds |
| TwitchController.RouteActions | api/twitch/twitch.controller.js:33-117 | a verification echoes the challenge with 200 and nothing else; a notification issues the duplicate error iff its id was seen, then the 200 and exactly one forward, in that order; any other type gets only the 500 error; a rejection is issued iff the type is unknown or the notification a duplicate |
| TwitchController.UniqueAtFirstOccurrence | api/twitch/twitch.controller.js:170-182 | over a run of deliveries, an id is reported unique exactly at its first occurrence, and only if the set did not already hold it |
| TwitchController.NotificationLog.IsUniqueNotification | api/twitch/twitch.controller.js:170-182 | returns true iff the id was not in the set; afterwards the id is in the set; a repeated id leaves the set unchanged |
| TwitchController.NotificationLog.RequestRouter | api/twitch/twitch.controller.js:33-117 | only a notification consults and extends the set, and its actions are those of `RouteActions` with the uniqueness answer; other types leave the set unchanged |
| TwitchController.NotificationLog.Subscribe | api/twitch/twitch.controller.js:123-186 | the chain `[verifySignature, requestRouter]`: a failed check answers with its first error and leaves the set unchanged; an accepted notification extends the set and is answered with 200 and forwarded iff its id was new, otherwise answered with the duplicate error; the event is forwarded iff the signature is accepted, the message is a notification and its id is new |
| TwitchController.DeliveredTwice | api/twitch/twitch.controller.js:85-102 | the same notification delivered twice is flagged as a duplicate only the second time; the router's code issues the 200 and the forward both times, but what Express carries out of the second delivery is the duplicate error alone, so only the first is forwarded |
| Schema.AnnouncementsUp | db/migrations/20210626025207_createAnnouncementsTable.js:1-7 | creating `announcements` succeeds iff the table is absent, and it then exists |
| Schema.AnnouncementsDown | db/migrations/20210626025207_createAnnouncementsTable.js:9-11 | dropping `announcements` is a no-op when it is absent; it fails iff the table exists while `subscriptions`' foreign key depends on it; otherwise the table is gone |
| Schema.SubscriptionsUp | db/migrations/20210627192508_createSubscriptionsTable.js:1-13 | creating `subscriptions` succeeds iff it is absent and `announcements`, which its foreign key references, exists |
| Schema.SubscriptionsDown | db/migrations/20210627192508_createSubscriptionsTable.js:15-17 | dropping `subscriptions` always succeeds and leaves it absent, without touching `announcements` |
| Schema.MigrateThenRollback | db/migrations/20210627192508_createSubscriptionsTable.js:1-17 | both migrations up in order and then down in reverse order give back the empty schema; a further rollback changes nothing |
| TwitchService.ReadAnnouncement | api/twitch/twitch.service.js:39-44 | finds a row iff the guild has one, and the row found belongs to the guild |
| TwitchService.ReadFindsTheRow | db/migrations/20210626025207_createAnnouncementsTable.js:3 | with `guild_id` the primary key, reading a guild yields its only row |
| TwitchService.ReadSub | api/twitch/twitch.service.js:52-57 | finds a row iff some subscription matches both ids, and the row found matches both |
| TwitchService.ListSubsByGuild | api/twitch/twitch.service.js:64-68 | one broadcaster id per row of the guild, duplicates kept; an id is listed iff the guild has a row for it, and as many times as the guild has rows for it |
| TwitchService.Destinations | api/twitch/twitch.service.js:76-77 | the joined channels of a guild are exactly the channel ids of its announcement rows, and there are none iff it has none |
| TwitchService.ListChannelsForGivenSubscription | api/twitch/twitch.service.js:75-80 | a channel is listed iff some subscription of the broadcaster has a guild whose announcement row names it; a guild without an announcement row contributes nothing |
| TwitchService.DestinationsOfStoredGuild | api/twitch/twitch.service.js:76-77 | under the primary key, a stored guild joins with exactly its one channel |
| TwitchService.DestinationsOfOthers | db/migrations/20210626025207_createAnnouncementsTable.js:3 | when only the row at a given position has the guild, the join picks that row's channel alone |
| TwitchService.OneChannelPerSubscription | api/twitch/twitch.service.js:75-80 | under the schema's constraints, the join yields one channel per subscription of the broadcaster, in the model's row order: the channel of that subscription's guild |
| TwitchService.UpdateChannel | api/twitch/twitch.service.js:27-32 | the update keeps the table's length; it changes `channel_id` on the guild's rows and leaves every other row and field unchanged |
| TwitchService.ReadAfterUpdate | api/twitch/twitch.service.js:27-44 | after an update, reading the guild gives the new channel and every other guild reads as before |
| TwitchService.DestinationsAfterRemoval | db/migrations/20210627192508_createSubscriptionsTable.js:5-9 | deleting one guild's announcement row does not change the join for any other guild |
| TwitchService.JoinAfterCascade | db/migrations/20210627192508_createSubscriptionsTable.js:5-9 | after the cascade, the channels announced for a broadcaster are those reached through the remaining subscriptions only |
| TwitchService.Database.constructor | db/migrations/20210627192508_createSubscriptionsTable.js:3 | freshly migrated tables are empty, satisfy the constraints, and the id sequence starts at 1 |
| TwitchService.Database.CreateSubscription | api/twitch/twitch.service.js:8-10 | the insert succeeds iff both columns are given and the guild has an announcement row, appending exactly that row with the next id; otherwise the table is unchanged and the NOT NULL error names the missing column; the id sequence advances on every attempt; the constraints are kept |
| TwitchService.Database.SetAnnouncementChannel | api/twitch/twitch.service.js:17-19 | inserts a new row iff both columns are given and the guild has none; it never updates, and an existing guild gives the unique-key error |
| TwitchService.Database.UpdateAnnouncementChannel | api/twitch/twitch.service.js:27-32 | the new table is the update of the old one; it returns the guild's rows; `subscriptions` is unchanged; the constraints are kept |
| TwitchService.Database.Unsubscribe | api/twitch/twitch.service.js:88-95 | every row of the pair is deleted, every other row stays in order, and the count returned is the number of rows of the pair |
| TwitchService.Database.DeleteAnnouncement | db/migrations/20210627192508_createSubscriptionsTable.js:5-9 | deleting a guild's announcement row cascades to every subscription of that guild, leaves the other rows, and keeps the constraints |
| TwitchService.TwoGuildsOneBroadcaster | api/twitch/twitch.service.js:75-80 | two guilds each subscribed once to a broadcaster: the tables are well formed, the broadcaster's join names both channels in the model's row order, and another broadcaster's join names none |
| TwitchService.SeedJoin | db/seeds/01_seedSubscriptionsTable.js:7-10 | the seed tables satisfy the constraints; broadcaster 68047106 is announced in both seeded channels, once each; another broadcaster is announced nowhere |
| TwitchService.DuplicatePairAdmitted | db/migrations/20210627192508_createSubscriptionsTable.js:2-12 | two inserts of the same pair both succeed with distinct ids, and the join then names the guild's channel twice |
| TwitchApi.CallbackUrl | api/twitch/twitchAPI.js:74 | the callback URL is the base URL followed by "twitch/callback" |
| TwitchApi.TokenQueryParameters | api/twitch/twitchAPI.js:129 | without `&` in the id or the secret, the token query has exactly three parameters: the client id, the secret and the client-credentials grant |
| TwitchApi.Render | api/twitch/twitchAPI.js:126-133 | only the token grant and the revoke carry no bearer header; the POSTs are exactly the grant, revoke, subscription and logging calls; the DELETE is the subscription delete; the logging call carries the internal token and goes to the bot's base URL; EventSub calls go to the EventSub URL |
| TwitchApi.TokenRequestShape | api/twitch/twitchAPI.js:126-133 | the token request is a POST to the token endpoint that starts with the client id and ends with the client-credentials grant |
| TwitchApi.EventSubBody | api/twitch/twitchAPI.js:66-77 | version "1", type "stream.online", the resolved user id as condition, and a webhook transport with the callback URL and the secret |
| TwitchApi.AccessToken | api/twitch/twitchAPI.js:132-157 | the granted `access_token`, possibly undefined, or "" on any failure |
| TwitchApi.UserId | api/twitch/twitchAPI.js:213-238 | the first user's id, or "" on failure and on an empty list |
| TwitchApi.BroadcasterLogin | api/twitch/twitchAPI.js:340-359 | the first entry's login, or undefined on failure and on an empty list |
| TwitchApi.SubscribeProtocol | api/twitch/twitchAPI.js:30-112 | the token request comes first; without a token nothing follows it; a token is revoked exactly once, as the last call; the EventSub POST is issued iff both the token and the user id were obtained, with the body for that id; the logging call is issued iff the POST is, right after it |
| TwitchApi.CancelCalls | api/twitch/twitchAPI.js:490-509 | two calls per subscription id |
| TwitchApi.CancelCallsOrder | api/twitch/twitchAPI.js:490-509 | the DELETE of the k-th id is at position 2k, followed at once by a revoke |
| TwitchApi.CancelCallsRevokes | api/twitch/twitchAPI.js:490-509 | one revoke per id, so none when there is no id |
| TwitchApi.CancelCallsDeletes | api/twitch/twitchAPI.js:490-509 | an id listed n times is deleted n times; an id not listed is never deleted |
| TwitchApi.PushIds | api/twitch/twitchAPI.js:448-450 | the ids of the listed subscriptions, one per subscription, in response order |
| TwitchApi.SubIds | api/twitch/twitchAPI.js:434-462 | the listed ids in response order, or none when the listing fails |
| TwitchApi.Upstream.RetrieveAccessToken | api/twitch/twitchAPI.js:119-158 | issues the token grant and returns the token the reply yields |
| TwitchApi.Upstream.RevokeAccessToken | api/twitch/twitchAPI.js:168-194 | issues one revoke of the given token |
| TwitchApi.Upstream.RetrieveUserId | api/twitch/twitchAPI.js:203-239 | issues one user lookup with the token and returns the id the reply yields |
| TwitchApi.Upstream.LogSubscription | api/twitch/twitchAPI.js:248-285 | issues one logging call for the guild and the user id |
| TwitchApi.Upstream.SubscribeToTwitchEvents | api/twitch/twitchAPI.js:30-112 | issues exactly the calls of the subscription protocol, in order |
| TwitchApi.Upstream.FetchBroadcasterId | api/twitch/twitchAPI.js:293-313 | issues a token grant and a lookup, even with no token, and never a revoke; returns the looked-up id |
| TwitchApi.Upstream.FetchBroadcasterName | api/twitch/twitchAPI.js:321-361 | issues a token grant, the channel lookup and one revoke; returns the first login or undefined |
| TwitchApi.Upstream.DebugSubs | api/twitch/twitchAPI.js:370-412 | issues a token grant, the listing and one revoke |
| TwitchApi.Upstream.GetSubIds | api/twitch/twitchAPI.js:421-463 | issues the listing and returns the listed ids in order, or none on failure |
| TwitchApi.Upstream.CancelSubscriptions | api/twitch/twitchAPI.js:471-513 | issues a token grant and the listing, then, per listed id in order, a DELETE and a revoke; the token is not checked |
| InternalAuth.BearerToken | api/common/verifyAuthToken.js:16-17 | undefined without a header; the empty header itself when it is empty; otherwise a token exists iff the header holds a space; a token never holds a space |
| InternalAuth.AnySchemeAccepted | api/common/verifyAuthToken.js:17 | whatever the first word, "word token" yields the token |
| Express.Effective | api/errors/errorHandler.js:8-12 | what Express carries out: a prefix of the issued calls, all of them when there is no `next(err)`, otherwise up to and including the first `next(err)` and no earlier one |
| Express.EffectiveAppend | api/twitch/twitch.controller.js:184-186 | a chain whose first handler issues no `next(err)` goes on to the next handler; once it does, nothing issued after it counts |
| Express.TwoChecks | api/common/verifyAuthToken.js:19-40 | each failed check raises its own error, without returning; a single plain `next()` comes last; exactly `[next()]` iff both pass; only `next` is ever called |
| InternalAuth.VerifyInternalToken | api/common/verifyAuthToken.js:9-41 | the 401 is raised iff there is no token; the 403 is raised iff the token differs from the configured one; a single plain `next()` comes last; exactly `[next()]` iff the token matches; it never responds |
| InternalAuth.MissingHeader | api/common/verifyAuthToken.js:20-32 | without a header a configured token gets both the 401 and the 403, and an unset one gets only the 401 |
| InternalAuth.LogSubscriptionAuthorization | api/twitch/twitchAPI.js:256-261 | the bot's own logging request passes when both sides share a token without spaces; when the variable is unset on both sides, "Bearer undefined" is rejected with 403 |
| Errors.ErrorHandler | api/errors/errorHandler.js:8-28 | one JSON response with the error's status or 500 and its message or "Something went wrong!"; it neither calls `next` nor rejects |
| Errors.NotAllowedMessage | api/errors/methodNotAllowed.js:4 | the message starts with "Method " and ends with " not allowed" |
| Errors.NotAllowedNamesTheMethod | api/errors/methodNotAllowed.js:4 | the method is the second space-separated word of the message |
| Errors.MethodNotAllowed | api/errors/methodNotAllowed.js:1-6 | a single `next` with the 405 error and that message; it never responds |
| Errors.NotAllowedResponse | api/errors/errorHandler.js:9-12 | a 405 from `methodNotAllowed` reaches the client as status 405 with the message as JSON data |
| TwitchRouter.PathOf | api/twitch/twitch.router.js:30-52 | a guild route's path starts with its prefix |
| TwitchRouter.ParsePath | api/twitch/twitch.router.js:16-64 | a matched `:guild_id` is a non-empty path segment |
| TwitchRouter.ParsePathOf | api/twitch/twitch.router.js:16-64 | a route's path is matched by that route, with the same parameter |
| TwitchRouter.PathOfParse | api/twitch/twitch.router.js:16-64 | every matched path is the path of the route it matched |
| TwitchRouter.Dispatch | api/twitch/twitch.router.js:16-67 | every known path reaches a handler or the 405 handler, never falls out of the router |
| TwitchRouter.RouteRequest | api/twitch/twitch.router.js:16-67 | a request leaves the router iff its path matches no route; the 405 handler is reached only on a known path |
| TwitchRouter.DocumentedVersusRegistered | api/twitch/twitch.router.js:5-16 | except at `/callback`, the methods reaching a handler are exactly the documented ones; at `/callback` only POST does, so the documented GET reaches the 405 handler |
| TwitchRouter.CallbackOnlyPost | api/twitch/twitch.router.js:16 | POST on `/callback` reaches the EventSub handler and every other method the 405 handler |
| TwitchRouter.GuildRoutes | api/twitch/twitch.router.js:30-52 | on the guild routes GET, POST and DELETE, or GET and PUT, reach their handlers and every other method the 405 handler |
| Help.Names | commands/utility/help.js:8 | one name per command, in list order |
| Help.Lines | commands/utility/help.js:13 | one "**name** - description" line per command, in list order |
| Help.Find | commands/utility/help.js:12 | the first command whose name equals the argument exactly |
| Help.HelpReply | commands/utility/help.js:7-22 | the reply starts with a line break; a known first argument gets only that command's line; an empty name prints "[object Object]"; otherwise every line is joined by line breaks |
| Help.ExtraArgumentsIgnored | commands/utility/help.js:10-13 | only the first argument matters |
| Help.UnknownNameListsAll | commands/utility/help.js:10-13 | a first argument equal to no name, even one differing only in case, gets the full list |
| Help.ListingLines | commands/utility/help.js:13-16 | the full list splits back on line breaks into the command lines, in order |
| AnnouncementGate.Locals.AnnouncementExists | api/common/announcementExists.js:18-51 | stores null iff the guild has no announcement row, otherwise that guild's row; calls `next()` once and never rejects |
| AnnouncementGate.VerifyAnnouncementResult | api/common/verifyAnnouncementResult.js:13-34 | the 400 is raised iff the slot holds null; a single plain `next()` always comes last; a slot never assigned passes |
| AnnouncementGate.Gate | api/common/announcementExists.js:25-49 | the two middlewares in a row reject iff the guild has no announcement row; each calls `next()` once |
| Bot.JsFiles | bot.js:50-52 | only the `.js` files of a folder contribute commands |
| Bot.RegisterKeys | bot.js:55-58 | a name is registered iff it was before or some loaded command carries it |
| Bot.RegisterLastWins | bot.js:55-58 | a name is bound to the last command that carries it |
| Bot.RegisterKeepsOthers | bot.js:55-58 | a name no loaded command carries keeps its earlier binding |
| Bot.RegisterKeyed | bot.js:57 | every name is bound to a command of that name |
| Bot.Tokens | bot.js:85 | at least one token; no token holds a space; none is empty unless only white space follows the prefix |
| Bot.TokensRejoin | bot.js:85 | where the words are separated by single spaces, they join back into the trimmed text |
| Bot.Resolve | bot.js:82-92 | a command is found only for a message with the prefix from a human author; it is the registry's entry for the lower-cased first token, and its arguments are the remaining tokens |
| Bot.CooldownMs | bot.js:104 | a missing or zero cooldown is 3000 ms; otherwise the cooldown in seconds times 1000 |
| Bot.Handle | bot.js:80-126 | a message is ignored iff it does not resolve; a user on cooldown gets the wait reply with a positive remaining time and nothing changes; otherwise the command runs with its arguments and the user's timestamp for it becomes `now` |
| Bot.ExecutionFrame | bot.js:103-121 | a run changes the cooldown map only at its author's entry for its command: every other command keeps its timestamps, and every other user keeps theirs |
| Bot.OutcomeReadsOneEntry | bot.js:103-118 | two cooldown maps that agree on the author's entry for the command give the same outcome |
| Bot.Expire | bot.js:122 | the timer removes the user's timestamp for that command and changes nothing else |
| Bot.RateLimit | bot.js:107-121 | after a run at t1, the same user gets the wait reply before t1 plus the cooldown, and runs the command again from then on |
| Bot.OtherUsersUnaffected | bot.js:103-121 | one user's run leaves every other user's next outcome as it was |
| Bot.ExpiredCooldownRuns | bot.js:122 | once the timer has fired, the user runs the command again whatever the time |
| Bot.Client.constructor | bot.js:42-43 | the registry and the cooldown map start empty |
| Bot.RegisterFiles | bot.js:50-58 | the registry updated with the `.js` commands of one folder, in directory order |
| Bot.Client.LoadCommands | bot.js:46-59 | the registry becomes the old one updated with every `.js` command of every folder, in order |
| Bot.Client.OnMessage | bot.js:80-131 | the outcome and the new cooldown map are those of `Handle`; the registry is unchanged |
| Bot.Client.ExpireCooldown | bot.js:122 | the cooldown map becomes that of `Expire`; the registry is unchanged |
| Bot.DiscordTwitchRoute | bot.js:161-182 | with the configured token: `next()`, then 202, then the hand-off of the event to `twitchLive`; without a token only the 401 error, with a wrong one only the 403 error; the event is handed off iff the token matches |
| Bot.StreamTitle | bot.js:212 | the title ends with " is live NOW on Twitch!", and the display name is what precedes it |
| Bot.StreamUrl | bot.js:215 | the link starts with the channel base URL, and the login is what follows it |
| Bot.EmbedFor | bot.js:226-229 | the embed's title and link are those of the event's name and login |
| Bot.ChannelLookupUrl | bot.js:245 | the lookup goes to the base URL's announcements route with the broadcaster as query |
| Bot.Targets | bot.js:268-277 | one target per returned row: its interpolated `channel_id` |
| Bot.Announcer.TwitchLive | bot.js:195-317 | an undefined event sends nothing; otherwise one lookup, then one "@everyone" send attempt per returned row, in order; the failing channels, and only they, miss the announcement |
| Bot.SendAll | bot.js:268-286 | one send attempt per channel, in order, whatever became of the earlier ones; exactly the non-failing channels are delivered |
| Bot.SeedAnnouncement | db/seeds/00_seedAnnouncementsTable.js:6-9 | a live event for the seeded broadcaster, whatever its other fields and the base URL, is attempted in both seeded channels, and a failure on the first does not keep the second from getting it |

## Left out

- Logging (`lib/logger` calls throughout) has no behaviour to model.
- The HMAC-SHA-256 computation itself is the function parameter `hmacHex` of `ExpectedSignature`.
- The HTTP calls (axios), the Express request and response objects, and the discord.js client are not modelled as I/O. Upstream answers are oracle values passed to the operations. Outbound calls are the `trace` of `Upstream` and the `lookups` and `attempts` of `Announcer`. Discord send failures are the parameter set `failing`.
- Express's dispatch is modelled only as `Express.Effective`: the first `next(err)` decides the answer and ends the chain.
  - What Express does with the calls a handler issues after that is not modelled: a later response write throws because the answer was sent, and a later `next` reaches Express's final handler.
  - `InternalAuth.VerifyInternalToken`, `TwitchController.VerifySignature`, `TwitchController.RouteActions`, `TwitchController.NotificationLog.RequestRouter` and `AnnouncementGate.VerifyAnnouncementResult` state what the handler code issues when `next` only records the call; the answer the client gets is the `Effective` prefix.
- Promise scheduling and interleaving are not modelled.
  - Concurrent requests are not modelled; each handler is one sequential step.
  - The calls issued in `.then`/`.finally` arguments and in the `forEach` of `cancelSubscriptions` are taken in the order they are issued, not the order they complete.
- Express path matching details are not modelled: case-insensitivity, an optional trailing slash, and percent-decoding of `:guild_id`.
- The router refers to `controller.eventsub`, `listSubs` and other handlers that `twitch.controller.js` does not export, since it exports only `subscribe`. The route table is therefore modelled on its own, as declared, and the `getChannels` handler is not part of this model.
- Bot.Handle: the wait reply's text (`timeLeft.toFixed(1)` seconds) is left out; the outcome carries the remaining milliseconds instead.
- Bot.Client.OnMessage: `Date.now()` is the parameter `now`, and the `setTimeout` that clears a timestamp is the explicit step `ExpireCooldown`.
- Bot.Client.OnMessage: running the command and the reply sent when it throws are not modelled. The outcome `Executed` carries the command and its arguments.
- TwitchService.ListChannelsForGivenSubscription: the queries have no ORDER BY, so PostgreSQL promises no row order, and an UPDATE may change the order of a scan. The model returns rows in the order of the table sequence, one of the allowed orders. The orders stated by `TwitchService.OneChannelPerSubscription`, `TwitchService.TwoGuildsOneBroadcaster`, `TwitchService.SeedJoin`, `TwitchService.ListSubsByGuild` and `Bot.SeedAnnouncement` hold for that order only; the rows and their counts hold for every order. Likewise the "first row" of `ReadSub` is the first in that order.
- Bot.Announcer.TwitchLive: Discord send failures are a set of channels, so when the join names a channel twice both attempts at it fail or both succeed; failures that differ between attempts at the same channel are not modelled (the same holds for `Bot.SendAll`).
- Bot.Announcer.TwitchLive: the embed's colour, author, thumbnail, and date and time fields (`toDateString`, `toTimeString`) are left out; only the title and link are modelled.
- JsText.ToLower lower-cases ASCII letters only; the Unicode case mapping of `toLowerCase` for other characters is not modelled.
- TwitchApi.UserId: a users reply whose body is malformed in some other way than an empty list is modelled as `UsersFailed`.
- TwitchApi.Render: the `Client-ID` and `Content-Type` headers are not modelled, only the `Authorization` header.
- TwitchController.VerifySignature: the retry header is the number JavaScript's `>` makes of it; a header that is not a number is `None`.
- A missing `TWITCH_SECRET`, which makes `crypto.createHmac` throw, is not modelled; the secret is a string parameter.
- Knex and PostgreSQL details beyond the constraints are not modelled: column types and lengths, the exact values of `timestamps(true, true)` (a `now` parameter), and transactions.
- The legacy `api/twitch/subscribeToTwitchEvents.js`, `api/subscriptionRouter.js` and `lib/notifyDiscord.js` are not part of this model; they are thin I/O wrappers.
- The chat command handlers other than `help` are not part of this model; they are permission guards around HTTP and Discord calls.
- Configuration and bootstrapping (`knexfile.js`, `api/app.js`, `api/server.js`, the `ready` listener and the login) are not part of this model.
