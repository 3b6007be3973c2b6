# Telegram forwarding bot: verification and relay core

The bot relays private messages between strangers and one owner. A new sender must
first answer a captcha challenge. A verified sender's messages are forwarded to the
owner, and each forwarded copy is recorded in a mapping so that the owner can answer
by replying to it. The owner can block and unblock senders, by reply or by user id.
A sender who gives too many wrong answers is banned automatically.

The model has one module per layer, over one in-memory store:

- `Store` (`store.dfy`) holds the five tables of `src/utils/supabaseDatabase.js`:
  - verified users;
  - pending challenges, each with a code, an attempt count and an expiry;
  - blocked users;
  - message mappings, from forwarded id to sender;
  - an append-only failure log.

  The value type `Tables` gives each database operation as a function. The class
  `Database` keeps the tables as `map` and `seq` fields, and each of its methods is
  proved to change `Snapshot()` exactly as the matching function does.
- `Verification` (`verification.dfy`) is the challenge engine of
  `src/filters/adFilter.js`. `SubmitResponse` states its behaviour per answer:
  lazy expiry, then the increment, then the ban check, then the case-insensitive
  comparison. The class `UserVerification` runs the same steps against a `Database`.
- `Relay` (`relay.dfy`) is `src/handlers/messageHandler.js`. Each handler is a
  function from the store to a `Step`: the new store plus the transport calls made,
  in order, as tagged `Event`s. The class `MessageHandler` performs the handlers
  against the shared `Database` and appends every call to its `outbox`.
- `Routing` (`routing.dfy`) is the listener logic of `src/bot.js`. `Routes` gives
  the set of handlers a message reaches, and `Bot.Dispatch` runs one of them. The
  listeners are not exclusive, so a text containing `/start` reaches the start
  handler and may reach the text handler too.
- `Scenarios` (`scenarios.dfy`) chains handlers into two end-to-end runs.
- `Text` (`text.dfy`) and `Wrappers` (`wrappers.dfy`) hold the JavaScript string
  operations the core relies on (`trim`, `toLowerCase`, `startsWith`, and
  truthiness of optional strings), the matching of the command patterns, and
  `Option`.

Time is an explicit integer `now` in milliseconds, read once per handler call. Two
things are parameters of the handlers:

- the captcha generator's output: the code text and the rendered image, as a string;
- the id the transport assigns to a forwarded copy (`copyId`).

The attempt count is incremented before the strict `> 3` test
(`src/filters/adFilter.js:99-102`). So three wrong answers get 2, 1 and 0 remaining,
and the fourth answer bans, whatever it is (`Verification.FourthWrongAnswerBans`).

## Model

| member | source | states |
|---|---|---|
| Text.ToLower | src/filters/adFilter.js:57 | the result has the input's length, lowers exactly the ASCII capitals position by position, and contains no capital |
| Text.ToLowerIdempotent | src/filters/adFilter.js:119-121 | lowering an already lowered code changes nothing, so storing the code lowered and lowering it again at comparison agree |
| Text.TrimStart | src/filters/adFilter.js:119 | the result is a suffix of the input that starts with a non-space, and everything dropped is white space |
| Text.TrimEnd | src/filters/adFilter.js:119 | the result is a prefix of the input that ends with a non-space, and everything dropped is white space |
| Text.Trim | src/handlers/messageHandler.js:404 | the trimmed text is no longer than the input and neither starts nor ends with white space |
| Text.TrimPadded | src/filters/adFilter.js:119 | trimming text padded on both sides with white space gives back exactly the text |
| Text.FirstOccurrence | src/bot.js:47 | returns the leftmost position at or after the start where the pattern occurs; none means it occurs nowhere there |
| Text.SkipSpaces | src/bot.js:53 | a greedy `\s*` run: it stops at the first non-space, and everything it passed is white space |
| Text.SkipDigits | src/bot.js:53 | a greedy `\d*` run: it stops at the first non-digit, and everything it passed is a digit |
| Text.DigitsValue | src/bot.js:59-62 | a definition with no contract of its own; the value `parseInt` gives the captured digit run (also line 86), used by `BlockByIdRules` and `UnblockRules`, and pinned on "99" by `Scenarios.NinetyNine` |
| Store.FailureCount | src/utils/supabaseDatabase.js:399-413 | a user's failure count never exceeds the log length, and is zero exactly when no entry names the user |
| Store.WithoutUser | src/utils/supabaseDatabase.js:438-453 | deleting a user's entries keeps exactly the entries of other users, and the log shrinks by exactly that user's count |
| Store.Tables.SaveMessageMapping | src/utils/supabaseDatabase.js:30-51 | a definition with no contract of its own; the upsert on the forwarded id; `MappingLastWriteWins` and `CountsFollowWrites` state its effect |
| Store.Tables.GetMessageMapping | src/utils/supabaseDatabase.js:56-81 | a definition with no contract of its own; the `.single()` lookup; `MappingLookup` states it |
| Store.Tables.CleanupOldMappings | src/utils/supabaseDatabase.js:86-104 | a definition with no contract of its own; the seven-day sweep; `CleanupOldMappingsExact` states it |
| Store.Tables.SaveVerifiedUser | src/utils/supabaseDatabase.js:109-129 | a definition with no contract of its own; the upsert of a verified row; `Verification.ManualVerifyContract` and `Verification.MatchingAnswerVerifies` state its effect |
| Store.Tables.SavePendingVerification | src/utils/supabaseDatabase.js:159-184 | a definition with no contract of its own; the pending upsert; `SavePendingOverwrites` and `OperationsKeepWindow` state it |
| Store.Tables.LivePending | src/utils/supabaseDatabase.js:189-220 | a definition with no contract of its own; the value `getPendingVerification` returns; `PendingReadLazyExpiry` states it |
| Store.Tables.AfterPendingRead | src/utils/supabaseDatabase.js:204-209 | a definition with no contract of its own; the lazy deletion of an expired row on read; `PendingReadLazyExpiry` states it |
| Store.Tables.DeletePendingVerification | src/utils/supabaseDatabase.js:225-239 | a definition with no contract of its own; the delete by user id; `OperationsKeepWindow` and `Verification.RemoveVerificationKeepsVerified` state it |
| Store.Tables.IncrementResult | src/utils/supabaseDatabase.js:244-263 | a definition with no contract of its own; the count `incrementVerificationAttempts` returns, none for its `false`; `IncrementContract` states it |
| Store.Tables.AfterIncrement | src/utils/supabaseDatabase.js:244-263 | a definition with no contract of its own; the store after the read and the write-back; `IncrementContract` states it |
| Store.Tables.CleanupExpiredVerifications | src/utils/supabaseDatabase.js:268-283 | a definition with no contract of its own; the expiry sweep; `CleanupExpiredExact` states it |
| Store.Tables.BlockUser | src/utils/supabaseDatabase.js:288-307 | a definition with no contract of its own; the block upsert; `BlockUnblockContract` and `BlockedCountFollowsWrites` state it |
| Store.Tables.UnblockUser | src/utils/supabaseDatabase.js:312-327 | a definition with no contract of its own; the block delete; `BlockUnblockContract` and `BlockedCountFollowsWrites` state it |
| Store.Tables.BlockedUserCount | src/utils/supabaseDatabase.js:357-370 | a definition with no contract of its own; the exact count of block rows; `BlockedCountFollowsWrites` relates it to blocking and unblocking |
| Store.Tables.RecordFailedVerification | src/utils/supabaseDatabase.js:375-394 | a definition with no contract of its own; the log insert; `FailureLogContract` and `CountsFollowWrites` state it |
| Store.Tables.FailedVerificationCount | src/utils/supabaseDatabase.js:399-413 | a definition with no contract of its own; the per-user count; `FailureLogContract` and `FailedVerificationMeansPositiveCount` state it |
| Store.Tables.ClearFailedVerifications | src/utils/supabaseDatabase.js:438-453 | a definition with no contract of its own; the delete by user id on the log; `FailureLogContract` and `CountsFollowWrites` state it |
| Store.Tables.Counts | src/utils/supabaseDatabase.js:458-497 | a definition with no contract of its own; the five table sizes, pending rows included whether expired or not; `CountsFollowWrites` and `BlockedCountFollowsWrites` relate it to the writes |
| Store.MappingLastWriteWins | src/utils/supabaseDatabase.js:30-51 | after saving, the id maps to the new row; other ids and other tables are unchanged |
| Store.MappingLookup | src/utils/supabaseDatabase.js:56-81 | the lookup is absent exactly when no row is stored under the id, and otherwise returns that row |
| Store.CleanupOldMappingsExact | src/utils/supabaseDatabase.js:86-104 | a mapping survives the sweep iff it was created at or after now minus seven days; survivors are unchanged, as are other tables |
| Store.SavePendingOverwrites | src/utils/supabaseDatabase.js:159-184 | the user has one row with the given code and attempts, expiring five minutes from now, live at once; other users' rows and other tables are unchanged |
| Store.PendingReadLazyExpiry | src/utils/supabaseDatabase.js:189-220 | the read is absent iff the row is missing or its expiry is before now; such a row is deleted. Expiry equal to now is live. A live read returns the row and changes nothing |
| Store.IncrementContract | src/utils/supabaseDatabase.js:244-263 | without a live row the result is false and only an expired row disappears; otherwise the stored count becomes old + 1 and is returned, with code and expiry kept |
| Store.CleanupExpiredExact | src/utils/supabaseDatabase.js:268-283 | a pending row survives iff its expiry is at or after now; survivors are unchanged, as are other tables |
| Store.BlockUnblockContract | src/utils/supabaseDatabase.js:288-352 | blocking is an idempotent upsert that adds exactly the user; unblocking removes exactly the user; other users' status and other tables are unchanged |
| Store.FailureCountAppend | src/utils/supabaseDatabase.js:375-394 | appending an entry raises the count of its user by one and no other user's |
| Store.WithoutUserCount | src/utils/supabaseDatabase.js:438-453 | after deleting a user's entries their count is zero and every other user's count is unchanged |
| Store.FailureLogContract | src/utils/supabaseDatabase.js:375-453 | recording adds exactly one to that user's count; clearing makes it zero; other users' counts and other tables are unchanged |
| Store.FailedVerificationMeansPositiveCount | src/utils/supabaseDatabase.js:418-433 | a user has a failure on record iff their failure count is positive |
| Store.OperationsKeepWindow | src/utils/supabaseDatabase.js:159-283 | every pending-table operation keeps each row's expiry at exactly five minutes after its creation |
| Store.BlockedCountFollowsWrites | src/utils/supabaseDatabase.js:288-370 | blocking someone new raises the block count by one and re-blocking leaves it; unblocking lowers it by one exactly when the user was blocked; the statistics report that same count |
| Store.CountsFollowWrites | src/utils/supabaseDatabase.js:30-51 | a recorded failure raises only the failure count, by one (lines 375-394); clearing a user's log lowers only the failure count, by that user's count (lines 438-453); a mapping under a new id raises only the mapping count, by one, and one under a known id changes no count (lines 458-497) |
| Store.Database.constructor | src/utils/supabaseDatabase.js:9-14 | a new store is empty |
| Store.Database.SaveMessageMapping | src/utils/supabaseDatabase.js:30-51 | the store changes as `Tables.SaveMessageMapping` says |
| Store.Database.GetMessageMapping | src/utils/supabaseDatabase.js:56-81 | returns the row stored under the id, or none when there is none |
| Store.Database.CleanupOldMappings | src/utils/supabaseDatabase.js:86-104 | the store changes as the seven-day sweep says |
| Store.Database.SaveVerifiedUser | src/utils/supabaseDatabase.js:109-129 | the store changes as the upsert of a verified user says |
| Store.Database.IsUserVerified | src/utils/supabaseDatabase.js:134-154 | true iff the user has a verified row |
| Store.Database.SavePendingVerification | src/utils/supabaseDatabase.js:159-184 | the store changes as the pending upsert says |
| Store.Database.GetPendingVerification | src/utils/supabaseDatabase.js:189-220 | returns the live row, and deletes an expired one |
| Store.Database.DeletePendingVerification | src/utils/supabaseDatabase.js:225-239 | the user's pending row is removed |
| Store.Database.IncrementVerificationAttempts | src/utils/supabaseDatabase.js:244-263 | returns and stores the incremented count as `IncrementContract` describes |
| Store.Database.CleanupExpiredVerifications | src/utils/supabaseDatabase.js:268-283 | the store changes as the expiry sweep says |
| Store.Database.BlockUser | src/utils/supabaseDatabase.js:288-307 | the store changes as the block upsert says |
| Store.Database.UnblockUser | src/utils/supabaseDatabase.js:312-327 | the store changes as the block delete says |
| Store.Database.IsUserBlocked | src/utils/supabaseDatabase.js:332-352 | true iff the user has a block row |
| Store.Database.GetBlockedUserCount | src/utils/supabaseDatabase.js:357-370 | the number of blocked users |
| Store.Database.RecordFailedVerification | src/utils/supabaseDatabase.js:375-394 | one entry is appended to the log |
| Store.Database.GetFailedVerificationCount | src/utils/supabaseDatabase.js:399-413 | the number of log entries naming the user; zero iff none does |
| Store.Database.IsUserFailedVerification | src/utils/supabaseDatabase.js:418-433 | true iff some log entry names the user |
| Store.Database.ClearFailedVerifications | src/utils/supabaseDatabase.js:438-453 | the user's entries are removed from the log |
| Store.Database.GetStats | src/utils/supabaseDatabase.js:458-497 | the row count of each table; the pending count includes expired rows not yet swept |
| Verification.GenerateCaptcha | src/filters/adFilter.js:44-60 | the stored text is the generated text lowered: same length, no capitals, same lowered form; the image is kept |
| Verification.Normalize | src/filters/adFilter.js:119 | a definition with no contract of its own; `trim` then `toLowerCase` of the answer; `AnswerIgnoresCaseAndPadding` states what it ignores |
| Verification.IssueChallenge | src/filters/adFilter.js:67-79 | a definition with no contract of its own; the stored challenge; `IssueChallengeContract`, `FreshChallengeAcceptsCode` and `ExpiredChallengeIsAbsent` state it |
| Verification.SubmitResponse | src/filters/adFilter.js:88-148 | a definition with no contract of its own; `verifyCaptcha` step by step: lazy expiry, the increment, the ban test, then the comparison; `NoChallengeChangesNothing`, `ExhaustionPrecedesComparison`, `MatchingAnswerVerifies`, `WrongAnswerIsCounted` and `SuccessExactly` state each outcome |
| Verification.ManualVerify | src/filters/adFilter.js:155-162 | a definition with no contract of its own; the owner's override; `ManualVerifyContract` states it |
| Verification.DropChallenge | src/filters/adFilter.js:168-172 | a definition with no contract of its own; `removeVerification`; `RemoveVerificationKeepsVerified` states it |
| Verification.NoChallengeChangesNothing | src/filters/adFilter.js:89-96 | without a live challenge the answer is refused. Nothing is counted, logged or blocked; only an expired row disappears |
| Verification.ExhaustionPrecedesComparison | src/filters/adFilter.js:99-116 | once the incremented count exceeds 3, even a correct answer bans: the challenge is deleted, exactly one failure is logged, the user is blocked, and the verified and mapping tables are unchanged; the whole new state is the old one with only the user's challenge removed, one log entry appended and the user's block row added |
| Verification.MatchingAnswerVerifies | src/filters/adFilter.js:119-135 | a matching answer within budget stores the user's verified row with the given username and time and removes only their challenge; nothing else in the store changes |
| Verification.WrongAnswerIsCounted | src/filters/adFilter.js:137-146 | a wrong answer within budget stores attempts + 1, reports 3 - attempts remaining, and changes nothing else |
| Verification.SuccessExactly | src/filters/adFilter.js:88-148 | success happens iff the challenge is live, the budget is not exhausted and the normalized answer equals the lowered code |
| Verification.AnswerIgnoresCaseAndPadding | src/filters/adFilter.js:119-121 | an answer surrounded by white space matches exactly when it equals the code up to letter case |
| Verification.IssueChallengeContract | src/filters/adFilter.js:67-79 | issuing stores the lowered code with attempts 0 and a five-minute expiry, replacing any earlier challenge and touching nothing else |
| Verification.FreshChallengeAcceptsCode | src/filters/adFilter.js:67-135 | a fresh challenge accepts any answer that normalizes to its code, up to and including the moment of expiry |
| Verification.ExpiredChallengeIsAbsent | src/filters/adFilter.js:89-96 | after five minutes any answer gets "no challenge", and the stale row is gone |
| Verification.ManualVerifyContract | src/filters/adFilter.js:155-162 | the user ends up verified with no challenge; doing it twice equals doing it once; the whole new state is the old one with only that user's verified row written and challenge removed |
| Verification.RemoveVerificationKeepsVerified | src/filters/adFilter.js:168-172 | only the user's pending challenge is dropped; verified status and everything else are kept |
| Verification.Replay | src/filters/adFilter.js:88-148 | a run of answers yields one outcome per answer |
| Verification.Countdown | src/filters/adFilter.js:137-146 | the retry messages remaining from a given attempt count: one per answer still allowed |
| Verification.WrongAnswerKeepsChallenge | src/filters/adFilter.js:96-146 | a wrong, timely answer within budget gets Retry(remaining) and leaves the same challenge with one more attempt; no failure is logged and nobody is verified |
| Verification.LastWrongAnswerBans | src/filters/adFilter.js:99-112 | the answer after the last one allowed gives Exhausted: the challenge is gone, one failure is logged, the user is blocked and not verified |
| Verification.WrongAnswersCountDown | src/filters/adFilter.js:96-146 | timely wrong answers to a live challenge give Retry outcomes counting down to 0 remaining, then Exhausted |
| Verification.WrongAnswersBan | src/filters/adFilter.js:96-112 | after that run the challenge is gone, exactly one more failure is logged, the user is blocked and the verified table is unchanged |
| Verification.FourthWrongAnswerBans | src/filters/adFilter.js:18 | from a fresh challenge, four wrong answers within five minutes give Retry(2), Retry(1), Retry(0), then a ban |
| Verification.UserVerification.constructor | src/filters/adFilter.js:10-19 | the engine works on the given store |
| Verification.UserVerification.IsVerified | src/filters/adFilter.js:26-28 | true iff the user is in the verified table |
| Verification.UserVerification.HasPendingVerification | src/filters/adFilter.js:35-38 | true iff a live challenge exists; an expired one is deleted on the way |
| Verification.UserVerification.CreateVerificationForUser | src/filters/adFilter.js:67-79 | stores the challenge as `IssueChallenge` says and returns its image |
| Verification.UserVerification.VerifyCaptcha | src/filters/adFilter.js:88-148 | its outcome and new store are those of `SubmitResponse` |
| Verification.UserVerification.ManuallyVerifyUser | src/filters/adFilter.js:155-162 | the store changes as `ManualVerify` says |
| Verification.UserVerification.RemoveVerification | src/filters/adFilter.js:168-172 | the store changes as `DropChallenge` says |
| Verification.UserVerification.GetStats | src/filters/adFilter.js:178-180 | the row counts of the store |
| Relay.SenderName | src/handlers/messageHandler.js:26 | the display name is never empty; it is the username when there is one, else the first name when there is one, else the placeholder |
| Relay.Classify | src/handlers/messageHandler.js:36-104 | a definition with no contract of its own; the order of the sender checks: owner, blocked, verified, live challenge; `OwnerMessagesAreNotRelayed`, `BlockedSenderIsRejected`, `VerifiedSenderIsForwarded` and `ChallengedTextIsAnAnswer` state each class |
| Relay.TextStep | src/handlers/messageHandler.js:22-112 | a definition with no contract of its own; `handleTextMessage`; `OwnerMessagesAreNotRelayed`, `BlockedSenderIsRejected`, `NewSenderIsPrompted`, `ChallengedTextIsAnAnswer` and `VerifiedSenderIsForwarded` state it |
| Relay.ResponseEvents | src/handlers/messageHandler.js:63-92 | a definition with no contract of its own; the reply to an answer by outcome, with the owner's notices; `ChallengedTextIsAnAnswer` states it |
| Relay.PhotoStep | src/handlers/messageHandler.js:117-167 | a definition with no contract of its own; `handlePhotoMessage`; `BlockedSenderIsRejected`, `UnverifiedPhotoIsRefused` and `VerifiedSenderIsForwarded` state it |
| Relay.StartStep | src/handlers/messageHandler.js:172-234 | a definition with no contract of its own; `handleStartCommand`; `StartCommandOrder` and `OwnerStartShowsStats` state it |
| Relay.ChallengeStep | src/handlers/messageHandler.js:239-288 | a definition with no contract of its own; `sendCaptchaToUser`; `StartCommandOrder` and `Scenarios.ScenarioStart` state its store change and its image |
| Relay.ForwardStep | src/handlers/messageHandler.js:293-337 | a definition with no contract of its own; `forwardToOwner` and, with the photo flag, `forwardPhotoToOwner` (lines 342-386); `ForwardRecordsMapping` states it |
| Relay.OwnerReplyStep | src/handlers/messageHandler.js:391-483 | a definition with no contract of its own; `handleOwnerReply`; `ReplyCommandsComeFirst`, `ReplyDelivery` and `OwnerReplyIsNotForwarded` state it |
| Relay.Delivery | src/handlers/messageHandler.js:437-468 | a definition with no contract of its own; the sends of a reply to a mapped message; `ReplyDelivery` states them in full |
| Relay.BlockByReplyStep | src/handlers/messageHandler.js:488-534 | a definition with no contract of its own; `handleBlockUser`; `BlockByReplyRules` states it |
| Relay.BlockByIdStep | src/handlers/messageHandler.js:539-588 | a definition with no contract of its own; `handleBlockUserById`; `BlockByIdRules` states it |
| Relay.UnblockByReplyStep | src/handlers/messageHandler.js:593-651 | a definition with no contract of its own; `handleUnblockUser`; `UnblockRules` states it |
| Relay.UnblockByIdStep | src/handlers/messageHandler.js:656-699 | a definition with no contract of its own; `handleUnblockUserById`; `UnblockRules` states it |
| Relay.OwnerMessagesAreNotRelayed | src/handlers/messageHandler.js:36-44 | the owner's messages go to reply handling iff they reply to something; otherwise nothing happens. The same holds for photos (lines 129-137) |
| Relay.OwnerMessagesAreNeverForwarded | src/handlers/messageHandler.js:129-137 | nothing the owner sends produces a forward or changes the mappings |
| Relay.OwnerReplyIsNotForwarded | src/handlers/messageHandler.js:391-483 | reply handling never forwards and never changes the mappings |
| Relay.BlockedSenderIsRejected | src/handlers/messageHandler.js:47-54 | a blocked sender's text or photo gets only the block notice and leaves the store unchanged, whether or not verified (also lines 140-147) |
| Relay.NewSenderIsPrompted | src/handlers/messageHandler.js:57-101 | unverified text without a live challenge gets the /start prompt; nothing is counted, and only an expired challenge of the sender disappears |
| Relay.ChallengedTextIsAnAnswer | src/handlers/messageHandler.js:59-91 | unverified text with a live challenge is submitted as the answer, and the sender is told its outcome |
| Relay.UnverifiedPhotoIsRefused | src/handlers/messageHandler.js:150-156 | an unverified sender's photo is refused with the store unchanged; no attempt is used |
| Relay.VerifiedSenderIsForwarded | src/handlers/messageHandler.js:103-104 | a verified sender's text or photo goes to forwarding (also lines 159-160) |
| Relay.ForwardRecordsMapping | src/handlers/messageHandler.js:293-337 | forwarding maps the copy's id to the sender's id, name and time, changes no other table, forwards the original to the owner and confirms to the sender (also lines 342-386) |
| Relay.StartCommandOrder | src/handlers/messageHandler.js:198-225 | /start from a non-owner, in order: blocked gets a notice worded by whether failures are on record; verified gets welcome back; otherwise a new live challenge with attempts 0 replaces any old one, and its image is sent |
| Relay.OwnerStartShowsStats | src/handlers/messageHandler.js:183-194 | the owner's /start only reports the store's counts |
| Relay.ReplyCommandsComeFirst | src/handlers/messageHandler.js:404-415 | a reply whose trimmed, lowered text is `/block` or `/unblock` runs that command, even with no mapping |
| Relay.ReplyDelivery | src/handlers/messageHandler.js:420-468 | an ordinary reply never changes the store. With no mapping only the owner is told. With one, a photo reply sends the largest size with the caption, or the placeholder, to the mapped sender; failing that a text reply sends the text. Either way the owner then gets the confirmation naming the user, or the fallback name. A reply with neither is refused as unsupported |
| Relay.BlockByIdRules | src/handlers/messageHandler.js:539-562 | blocking by id refuses the owner's own id, is a no-op for a user already blocked, otherwise blocks exactly that user, with nothing else in the store changed |
| Relay.BlockByReplyRules | src/handlers/messageHandler.js:488-507 | blocking by reply blocks whoever the mapping names, without the by-id checks |
| Relay.UnblockRules | src/handlers/messageHandler.js:593-673 | either way of unblocking is a no-op for a user not blocked; otherwise it deletes only that user's block row and clears that user's failure log, leaving other users' blocks and counts and the other tables unchanged |
| Relay.MessageHandler.constructor | src/handlers/messageHandler.js:11-17 | the handler has the owner's id, the store and an empty outbox |
| Relay.MessageHandler.Send | src/handlers/messageHandler.js:48-52 | one transport call is appended to the outbox |
| Relay.MessageHandler.HandleTextMessage | src/handlers/messageHandler.js:22-112 | store and outbox change as `TextStep` says |
| Relay.MessageHandler.HandlePhotoMessage | src/handlers/messageHandler.js:117-167 | store and outbox change as `PhotoStep` says |
| Relay.MessageHandler.HandleStartCommand | src/handlers/messageHandler.js:172-234 | store and outbox change as `StartStep` says |
| Relay.MessageHandler.SendCaptchaToUser | src/handlers/messageHandler.js:239-288 | issues the challenge, then sends the instructions, the image and the owner's notice, as `ChallengeStep` says |
| Relay.MessageHandler.ForwardToOwner | src/handlers/messageHandler.js:293-337 | sends the header, forwards, saves the mapping and confirms, as `ForwardStep` says |
| Relay.MessageHandler.ForwardPhotoToOwner | src/handlers/messageHandler.js:342-386 | the same for a photo |
| Relay.MessageHandler.HandleOwnerReply | src/handlers/messageHandler.js:391-483 | store and outbox change as `OwnerReplyStep` says |
| Relay.MessageHandler.DeliverReply | src/handlers/messageHandler.js:437-468 | the outbox grows by exactly the sends `Delivery` lists for the mapped sender |
| Relay.MessageHandler.HandleBlockUser | src/handlers/messageHandler.js:488-534 | store and outbox change as `BlockByReplyStep` says |
| Relay.MessageHandler.HandleBlockUserById | src/handlers/messageHandler.js:539-588 | store and outbox change as `BlockByIdStep` says |
| Relay.MessageHandler.HandleUnblockUser | src/handlers/messageHandler.js:593-651 | store and outbox change as `UnblockByReplyStep` says |
| Relay.MessageHandler.HandleUnblockUserById | src/handlers/messageHandler.js:656-699 | store and outbox change as `UnblockByIdStep` says |
| Routing.StartRoutes | src/bot.js:47-49 | a definition with no contract of its own; the `/\/start/` listener; `ListenerConditions` states it |
| Routing.CommandRoute | src/bot.js:58-74 | a definition with no contract of its own; a command listener's branch: the id, else the reply, else the usage hint (also lines 85-101); `OwnerCommandDispatch` states it |
| Routing.CommandRoutes | src/bot.js:53-103 | a definition with no contract of its own; the `/block` and `/unblock` listeners, owner only; `CommandsAreOwnerOnly` and `OwnerCommandDispatch` state them |
| Routing.TextRoutes | src/bot.js:106-111 | a definition with no contract of its own; the message listener; `ListenerConditions` states it |
| Routing.PhotoRoutes | src/bot.js:114-116 | a definition with no contract of its own; the photo listener; `ListenerConditions` states it |
| Routing.Routes | src/bot.js:45-116 | a definition with no contract of its own; every listener a message fires; `RoutesAreWellFormed`, `CommandsAreOwnerOnly`, `OwnerCommandDispatch` and `ListenerConditions` state it |
| Routing.MatchCommand | src/bot.js:53 | the pattern fails iff the command occurs nowhere; a captured id is a non-empty string of digits |
| Routing.RoutesAreWellFormed | src/bot.js:59-62 | the id a command listener passes on is always a non-empty digit string |
| Routing.CommandsAreOwnerOnly | src/bot.js:53-58 | a sender other than the owner reaches only the start, text and photo handlers; `/block` and `/unblock` do nothing for them (also lines 80-85) |
| Routing.OwnerCommandDispatch | src/bot.js:59-74 | for the owner, a matching command listener picks exactly one branch: the captured id, else the reply, else the usage hint (also lines 86-101) |
| Routing.ListenerConditions | src/bot.js:106-116 | the text handler gets exactly the texts not starting with '/'; the photo handler gets every photo; the start handler gets every text containing `/start` (line 47) |
| Routing.CommandCapturesId | src/bot.js:53 | white space then digits right after the command's first occurrence are captured, the whole digit run |
| Routing.CommandWithoutIdIsBare | src/bot.js:53 | with no white space followed by a digit after the command, it matches without an id |
| Routing.StartInsideTextReachesBoth | src/bot.js:47-49 | "hi /start" from an ordinary user reaches both the start handler and the text handler |
| Routing.BlockCommandWithId | src/bot.js:53 | "/block 123456789" captures "123456789" |
| Routing.PaddedBlockReplyRoutes | src/bot.js:53-65 | an owner reply " /block" reaches both the block-by-reply listener and the text handler (lines 106-111) |
| Routing.CommandWordIsLower | src/handlers/messageHandler.js:404-411 | the words the lowered reply is compared with, `/block` and `/unblock`, are themselves lower case, so the comparison can succeed |
| Routing.PaddedCommandIsCommand | src/handlers/messageHandler.js:404-412 | trimming and lowering turn a command word with any white space around it into that command |
| Routing.PaddedBlockReplyBlocksTwice | src/handlers/messageHandler.js:404-408 | the text handler's path for that reply is the same block by reply, so the user is blocked twice |
| Routing.Bot.constructor | src/bot.js:19-28 | the bot's handler has the owner, the store and an empty outbox |
| Routing.Bot.Dispatch | src/bot.js:45-116 | running a route the message reaches changes store and outbox as that route's handler does; the usage hints are sent to the owner |
| Scenarios.UpperCaseAnswer | src/filters/adFilter.js:119-121 | "AB3D" normalizes to the lowered code "ab3d" |
| Scenarios.PlainReplyIsNoCommand | src/handlers/messageHandler.js:404-415 | "hi there" is neither reply command |
| Scenarios.ScenarioStart | src/handlers/messageHandler.js:216-225 | /start from new user 42 stores a fresh challenge and sends its image |
| Scenarios.ScenarioAnswer | src/handlers/messageHandler.js:59-76 | a matching answer within five minutes is told it succeeded and leaves 42 verified and not blocked |
| Scenarios.ScenarioHello | src/handlers/messageHandler.js:103-104 | the verified user's next text is forwarded, and copy x maps back to 42 |
| Scenarios.ScenarioReply | src/handlers/messageHandler.js:444-449 | the owner's plain text reply to x is delivered to 42 |
| Scenarios.RelayRun | src/handlers/messageHandler.js:22-112 | the chained run of /start, answer, text and owner reply gives the challenge image, success, the mapping x to 42, and delivery of the reply to 42 |
| Scenarios.NinetyNine | src/handlers/messageHandler.js:541 | "99" parses to 99 |
| Scenarios.IdCommandRoutes | src/bot.js:53-62 | the owner's command word, one blank and a digit run select exactly that command by that id (also lines 80-89) |
| Scenarios.BlockNinetyNineRoutes | src/bot.js:53-62 | the owner's "/block 99" selects blocking 99 by id and nothing else of the block listener |
| Scenarios.UnblockNinetyNineRoutes | src/bot.js:80-89 | the owner's "/unblock 99" selects unblocking 99 by id and nothing else of the unblock listener |
| Scenarios.BlockScenario | src/handlers/messageHandler.js:539-699 | after blocking 99 by id, 99 is blocked and their next text is refused with the blocked notice alone; unblocking 99 lifts the block and leaves zero failures on record |

## Left out

- Supabase client and remote I/O: the query chains are map and sequence operations, and "row not found" is absence. The storage error branches, which return false, null or 0, are not modelled.
- Transport failures: a send, photo send or forward that rejects, and the catch branches that report or log it, are not modelled. The exception is the missing-reply case of the owner's reply, block and unblock handlers. There, reading the replied-to id throws and the catch sends a failure notice to the owner, which the model keeps (`ReplyFailed`, `BlockFailed`, `UnblockFailed`).
- Store.Database.IncrementVerificationAttempts: the source reads, then writes, and two concurrent calls can lose an increment. The model is sequential and claims no atomicity.
- Concurrency between handlers: one message can start several handlers, and their awaited steps interleave at run time. The model gives the set of routes, and each route's effect from the store it starts with. It does not order or interleave them.
- Captcha generation with svg-captcha and the PNG conversion through sharp are randomness and rendering. The generated text and image are a `Captcha` parameter.
- The id Telegram gives a forwarded copy is the parameter `copyId`.
- `startCleanupTask`'s timer is not modelled. The two sweeps are plain operations.
- The unused `captchaExpiry` setting of the engine is not modelled. The five-minute window in the store is the one that applies.
- Calendar arithmetic: the seven-day cutoff is `setDate(getDate() - 7)` (src/utils/supabaseDatabase.js:88-89) and the pending expiry is `setMinutes(getMinutes() + 5)` (line 162), both in local time. Across a daylight-saving change either can differ from its nominal length; they are modelled as exactly seven days and exactly five minutes of milliseconds.
- Timestamps are ISO strings in the source and integers here.
- Each handler reads the clock several times in the source; the model reads `now` once per handler call.
- The literal Chinese message texts and `toLocaleString` renderings are not modelled. Each message is a `Notice` tag that carries the data it reports.
- Text.ToLower: covers the ASCII letters only. JavaScript's `toLowerCase` also lowers other Unicode capitals, so a code or command containing them (the Kelvin sign, say) is not modelled.
- User ids are unbounded integers here. `parseInt` loses precision beyond 2^53, and that is not modelled.
- Photos are modelled by their list of file ids. Only the largest, which is the last, is ever sent. Empty arrays, which Telegram does not send, count as no photo.
- Logging (`src/utils/logger.js`), configuration (`src/utils/config.js`, `src/check-config.js`), process startup and signals (`src/index.js`) and the supervisor configuration are not modelled.
- A text-handler call for a message without text does nothing here. The listener in `src/bot.js` never makes such a call.
