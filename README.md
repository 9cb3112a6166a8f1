# Subscriber records of a paid-channel Telegram bot

The bot sells access to a private Telegram channel. A user presses "buy". The bot
creates a payment at the YooKassa gateway and remembers it on the user's subscriber
record, a MongoDB `User` document. Once the payment is settled, the bot creates a
single-use invite link to the channel and posts an audit document to a payment group.
It writes the link onto the record and tells the user and every admin. Settlement is
noticed in one of two ways: the gateway pushes a `payment.succeeded` notification, or
the user polls with `/checkpayment`. When the user joins the channel, a `chat_member`
update marks the link consumed and revokes it. Admins edit the bot's texts through a
small menu whose back button is driven by a `navHistory` stack kept in the chat
session. An older, standalone variant of the whole bot (`src/index.js`) keeps its own,
smaller schema. It trusts the gateway's notification and keeps link expiry in seconds.

The project models this state machine in Dafny:

- `wrappers.dfy` and `js_text.dfy`: `Option`, and the JavaScript string operations the
  handlers rely on. These are `trim`, `split`, `replace` of the first occurrence,
  `split(...)[1]`, `Set` deduplication, UTF-16 length and truthiness.
- `collection.dfy`: a MongoDB collection as a class over a sequence of documents in
  natural order. `findOne` returns the first match. `updateOne` changes only the first
  match. `create` appends. The upsert changes the first match or appends.
- `user_model.dfy`: the `User` document, its defaults, the filters and the updates the
  handlers apply.
- `bot_api.dfy`: the environment variables and the gateway as a status oracle. It
  also holds the answers of the fallible Telegram calls and the log of Telegram side
  effects each handler produces.
- `telegram.dfy`: `sendInviteLink` and the `chat_member` handler of
  `services/telegram.js`.
- `webhook.dfy`: `handleYookassaWebhook` and the controller's own `chat_member`
  handler.
- `bot_controller.dfy`: `processPayment`, `/checkpayment`, `buy`, the `text` handler
  and the admin navigation. The chat session is a `Session` class whose fields the
  handlers update.
- `app.js` is modelled in `app.dfy`: the required-variable check and `/return`.
- `legacy.dfy`: the legacy webhook, `buy`, `/check_payment`, `/renew_link` and the
  command menus.
- `findings.dfy`: the defects listed under "## Findings". Each is shown on the code
  as written and paired with a corrected definition.

Every handler that writes the store has two parts. A pure function `...Spec` gives
the documents and the effect log the handler leaves. A method on the collection
carries out the handler step by step, and its postcondition ties its result to that
function. The properties are proved as lemmas about these functions. Telegram calls
that can fail take their answer as a parameter: `InviteReply`, `DocReply` and
`CreateReply`. The clock is a parameter too, a count of milliseconds.

## Model

| member | source | states |
|---|---|---|
| UserModel.NewDocument | models/User.js:3-21 | a created document is `'pending'`, not joined, not consumed, not processed, with no link, expiry or audit document (null), and carries the given user, chat and gateway payment id and no correlation id |
| UserModel.UpdatesKeepKeys | services/telegram.js:64-72 | the issuance write keeps `userId`, `paymentId` and `localPaymentId`, so the filters still find the same document, and leaves it `'succeeded'` with the new link, the expiry, `inviteLinkUsed` false and the audit link |
| Collection.FindFirst | services/telegram.js:112 | `findOne` yields the first matching document: it matches, and none before it does |
| Collection.Lookup | controllers/webhookController.js:29 | `findOne` finds nothing exactly when no document matches, and otherwise returns the first matching document in natural order |
| Collection.UpdateFirst | services/telegram.js:64-72 | `updateOne` changes only the first matching document, keeps the length, and writes nothing when nothing matches |
| Collection.Upsert | controllers/botController.js:33 | the upsert applies the update to the first match, and to no other document, when there is one, and otherwise appends the new document |
| Collection.FindFirstAfterSet | controllers/webhookController.js:50 | replacing a document by one that agrees on a filter does not move that filter's first match |
| Collection.FindFirstAfterUpdate | controllers/webhookController.js:50 | an update that keeps a filter's truth on every document does not move its first match |
| Collection.FindFirstAfterAppend | controllers/webhookController.js:35-41 | appending a document keeps an existing first match and otherwise makes the new document the first match when it matches |
| JsText.Trim | controllers/botController.js:474 | `trim()` yields the text with whitespace removed from both ends only, and the result neither starts nor ends with whitespace |
| JsText.TrimIdempotent | controllers/botController.js:474 | trimming a trimmed text changes nothing |
| JsText.Split | services/telegram.js:89 | `split(',')` yields at least one piece and no piece contains the separator |
| JsText.JoinSplit | services/telegram.js:89 | joining the pieces of `split` with the separator gives back the original text |
| JsText.IndexOf | services/telegram.js:63 | the first position where the pattern occurs, or none exactly when it occurs nowhere |
| JsText.ReplaceFirst | services/telegram.js:63 | `replace(pat, rep)` rewrites only the first occurrence and leaves a text without one unchanged |
| JsText.SecondPiece | src/index.js:279 | `split(pat)[1]` is `undefined` exactly when the pattern does not occur, and otherwise is the text between its first and second occurrences |
| JsText.Dedupe | services/telegram.js:89 | `new Set(...)` keeps exactly the elements of the list, each once |
| JsText.Utf16Length | controllers/botController.js:488 | `length` counts UTF-16 code units: between one and two per character, exactly one for characters of the basic plane |
| JsText.NatToString | services/telegram.js:63 | a message id is written as a non-empty string of decimal digits |
| JsText.NatToStringValue | services/telegram.js:63 | the digits written for a message id denote that id |
| BotApi.AdminSet | services/telegram.js:89 | the admins messaged are exactly the trimmed comma-separated ids of `ADMIN_CHAT_IDS`, each once |
| BotApi.AdminList | src/index.js:303 | the legacy admin list holds, in order, the trimmed comma-separated pieces, one entry per piece, duplicates kept |
| BotApi.NotifyAdmins | services/telegram.js:90-92 | the loop sends the same message to each admin, once per admin and in order |
| BotApi.ToChat | services/telegram.js:75-87 | consecutive messages to one chat are logged in order, one effect per message |
| BotApi.CountInvitesAppend | services/telegram.js:48-53 | the invites created by two runs of effects add up |
| BotApi.CountInvitesNone | services/telegram.js:94-103 | a log without an invite creation counts no invite |
| BotApi.MessagesCreateNoInvite | services/telegram.js:75-92 | sending messages to a chat or to the admins creates no invite |
| Telegram.StoredExpiryWithinDay | services/telegram.js:47 | the stored expiry is `(floor(now/1000) + 86400) * 1000` milliseconds: a whole second, at most 999 ms short of exactly 24 h after now |
| Telegram.AuditUrlOfSupergroup | services/telegram.js:63 | for a group id `-100<digits>` the audit link is `https://t.me/c/<digits>/<message id>` |
| Telegram.SendInviteLink | services/telegram.js:20-104 | the step-by-step workflow leaves exactly the documents, effects and escaping exception of `SendInviteLinkSpec` |
| Telegram.SendInviteLinkWrites | services/telegram.js:42-72 | the store is written only when the payment is settled, the link was created and the audit document was posted, and then only through the `{userId, paymentId}` update |
| Telegram.ThrowsIffNoChat | services/telegram.js:94-98 | an exception escapes `sendInviteLink` exactly when the record has no chat, because the catch block sends to that chat too |
| Telegram.ConsumedInviteNotReissued | services/telegram.js:23-39 | with a link that is joined and used, the gateway's answer does not matter, no invite is created, nothing is written, and the user gets the welcome and "already joined" messages |
| Telegram.NoIssueUnlessSettled | services/telegram.js:42-45 | unless the gateway reports `'succeeded'`, nothing is written, no invite is created, and the user and then every admin are told of the failure |
| Telegram.OneInvitePerSettledCall | services/telegram.js:47-53 | once settled, a call creates exactly one invite, first, with member limit 1 and the 24 h expire date; if the audit document fails the invite exists but nothing is written |
| Telegram.IssueWritesOnlyTheMatchingRecord | services/telegram.js:64-72 | only the first document matching both `userId` and `paymentId` changes, to `'succeeded'` with the link, the expiry, `inviteLinkUsed` false and the audit link; without a match nothing changes |
| Telegram.ConsumeInvite | services/telegram.js:107-134 | the join handler leaves exactly the documents and the revocation of `ConsumeInviteSpec` |
| Telegram.JoinConsumesInvite | services/telegram.js:110-128 | a `member` update in the channel for a paid user with an unused link marks that document joined and its link used, and revokes the link; a failed revoke leaves the same store |
| Telegram.RepeatJoinIsNoop | services/telegram.js:110-128 | consumption is never undone, and the same join again changes nothing and revokes nothing |
| Webhook.ValidateYookassaWebhook | controllers/webhookController.js:7-10 | the authenticity check accepts every request |
| Webhook.Resolve | controllers/webhookController.js:29-44 | the record is resolved by the payment's id, else by a truthy `metadata.userId`, else a new placeholder is appended with that user id or `unknown_<id>`, no chat, the payment's id and no entitlement |
| Webhook.HandleYookassaWebhook | controllers/webhookController.js:12-62 | the handler leaves exactly the status, documents and effects of `WebhookSpec` for the result of the authenticity check |
| Webhook.RejectedRequestTouchesNothing | controllers/webhookController.js:15-18 | a rejected request would be answered 400 with nothing changed; every accepted request is answered 200, even when processing throws |
| Webhook.OtherEventsIgnored | controllers/webhookController.js:54-57 | other events, an unparsable body and a notification without its payment object are answered 200 and change nothing |
| Webhook.NoIssueOnceJoinedOrProcessed | controllers/webhookController.js:47-53 | a resolved record that joined or was processed gets no invite and no message |
| Webhook.ProcessedAfterIssuanceAttempt | controllers/webhookController.js:47-50 | after an issuance attempt that did not throw, the first record carrying the payment id is `processed`, whether or not an invite was made |
| Webhook.RedeliveryIssuesNothing | controllers/webhookController.js:47-53 | for a record found by payment id and having a chat, the same notification delivered again changes nothing and issues nothing |
| Webhook.IssuanceKeepsPaymentMatch | services/telegram.js:64-72 | the invite write never changes a payment id, so the first record for any payment id stays where it was |
| Webhook.TrackMembership | controllers/webhookController.js:64-101 | the join/leave handler leaves exactly the documents of `MembershipSpec` |
| Webhook.MembershipIgnoresStrangers | controllers/webhookController.js:73-82 | updates for other chats, or for users without a `'succeeded'` record, change nothing |
| Webhook.MembershipTransitions | controllers/webhookController.js:84-96 | joining sets `joinedChannel` and `inviteLinkUsed`; leaving clears `joinedChannel` only; no other document or field changes |
| Webhook.MembershipKeepsConsumption | controllers/webhookController.js:84-96 | no membership update clears `inviteLinkUsed` |
| BotController.Session.Pop | controllers/botController.js:269 | popping `navHistory` returns and removes the last screen, and an empty history gives the start screen |
| BotController.Back | controllers/botController.js:269 | `back` removes exactly one entry, which it returns, and gives the start screen with an empty history unchanged |
| BotController.BackUndoesPush | controllers/botController.js:269 | `back` after any push returns the pushed screen and restores the history |
| BotController.OpenAdminPanel | controllers/botController.js:131-156 | an admin's `navHistory` gets `'start'` pushed; anyone else is refused and nothing changes |
| BotController.OpenAdminSubmenu | controllers/botController.js:158-183 | `stats` and `edit` push `'admin_panel'` for an admin; anyone else is refused and nothing changes |
| BotController.BeginEdit | controllers/botController.js:344-422 | an admin enters the editing mode of the chosen setting; anyone else is refused and nothing changes |
| BotController.GoBack | controllers/botController.js:262-313 | `back` pops one screen for anyone and leaves the other session fields alone |
| BotController.ValidEmailIsPattern | controllers/botController.js:477 | the email check accepts exactly the strings `^[^\s@]+@[^\s@]+\.[^\s@]+$` matches |
| BotController.NormalizeSupportLink | controllers/botController.js:493-495 | `@name` becomes `https://t.me/name`, an `http://` or `https://` link is kept, anything else is rejected; an accepted link always has an http(s) scheme |
| BotController.NormalizeSupportLinkIdempotent | controllers/botController.js:493-495 | an accepted link is accepted again unchanged |
| BotController.ProcessPayment | controllers/botController.js:7-46 | `processPayment` leaves exactly the documents and effects of `ProcessPaymentSpec` |
| BotController.PaidUserGetsExistingLink | controllers/botController.js:11-16 | a `'succeeded'` record with a link gets that link again, with no payment created and nothing written |
| BotController.PaymentFailureWritesNothing | controllers/botController.js:21-45 | a gateway error or timeout, or a missing record, writes nothing and ends in the failure reply (or the paid link); without a record the gateway is not called |
| BotController.CreatedPaymentRestartsRecord | controllers/botController.js:33 | a created payment writes the gateway id, the correlation id, `'pending'` and the chat over the user's record, even a `'succeeded'` one without a link, and changes nothing else |
| BotController.CheckPayment | controllers/botController.js:48-83 | `/checkpayment` leaves exactly the documents and effects of `CheckPaymentSpec` |
| BotController.CheckPaymentWithoutGateway | controllers/botController.js:53-70 | without a record or payment id, and for a paid user with a link, the gateway's answer does not matter, nothing is written, no invite is created, and the paid user gets the stored link |
| BotController.CheckPaymentIssuesOnlyIfSettled | controllers/botController.js:72-76 | the poll writes or creates an invite only when the gateway reports the user's payment `'succeeded'` |
| BotController.Buy | controllers/botController.js:424-443 | `buy` leaves exactly the documents, effects and session of `BuySpec` |
| BotController.BuyWithoutEmailAsks | controllers/botController.js:432-437 | without an email, `buy` sets `waitingForEmail`, asks for the email, and neither creates a payment nor writes |
| BotController.OnText | controllers/botController.js:468-520 | the `text` handler leaves exactly the documents, effects and session of `TextSpec` |
| BotController.EmailCapture | controllers/botController.js:476-482 | a trimmed text matching the email pattern is stored, clears the flag and starts the payment; any other text changes nothing and is asked again |
| BotController.PaymentKeepsEmail | controllers/botController.js:33 | the payment write keeps the number of records and the email of the user's record |
| BotController.EditorVerdict | controllers/botController.js:487-515 | an editor goes on to save exactly when its validator accepts: support link normalisable, amount accepted, other texts at least 10 UTF-16 units |
| BotController.EditorsKeepState | controllers/botController.js:485-515 | outside email capture only an admin in editing mode gets an answer, and neither the store nor the session ever changes |
| BotController.ShortTextsRejected | controllers/botController.js:488 | description and welcome texts shorter than 10 units are rejected with the field named |
| App.FirstMissingEnvVar | app.js:22-28 | start-up passes exactly when all eight variables are set and non-empty, and otherwise names the first one missing |
| App.HandleReturn | app.js:51-69 | `/return` reads the store only and gives exactly the message and page of `ReturnSpec` |
| App.ReturnOnlyInforms | app.js:53-68 | `/return` always answers the same page and never creates an invite; at most one message goes to the chat of the record found by the correlation id, and it says "confirmed" exactly when the gateway reports `'succeeded'` |
| Legacy.SetMainMenu | src/index.js:74-93 | the main menu is buy, check payment, renew link, with `admin` appended for an admin |
| Legacy.SetSupportMenu | src/index.js:96-114 | the support menu is support, renew link, with `admin` appended for an admin |
| Legacy.MainMenu | src/index.js:80-87 | the menu starts with the three commands and contains `admin` exactly for an admin |
| Legacy.SupportMenu | src/index.js:102-108 | the menu starts with the two commands and contains `admin` exactly for an admin |
| Legacy.AuditUrlsAgreeOnSupergroups | src/index.js:279 | for `-100<digits>` the legacy audit link equals the current one; for a group id without `-100` it reads `undefined`, where the current one keeps the id |
| Legacy.HandleWebhook | src/index.js:244-321 | the legacy webhook answers 200 and leaves exactly the documents and effects of `WebhookSpec` |
| Legacy.WebhookIgnoresUnknown | src/index.js:248-250 | other events, unknown payment ids and joined records change nothing |
| Legacy.WebhookRedeliverySkipped | src/index.js:252-292 | legacy issuance creates one invite, sets `'succeeded'` and joined at once, with the expiry 24 h ahead in seconds, so the same notification again does nothing |
| Legacy.Buy | src/index.js:369-416 | legacy `buy` leaves exactly the documents and effects of `BuySpec` |
| Legacy.BuyStoresLocalId | src/index.js:391-404 | a created legacy payment stores the local uuid as `paymentId` with `'pending'` and requests 399; no record gets the gateway's id |
| Legacy.CheckPayment | src/index.js:419-444 | `/check_payment` reads the store only and answers `CheckPaymentReply` |
| Legacy.PaidUserSeesLinkUntilExpiry | src/index.js:376-388 | for a paid user with a link, `buy` and `/check_payment` both hand out the link exactly while `inviteLinkExpires > now` in seconds, and otherwise point to `/renew_link`; `buy` then requests no payment and writes nothing |
| Legacy.RenewLink | src/index.js:447-488 | `/renew_link` leaves exactly the documents and effects of `RenewLinkSpec` |
| Legacy.RenewLinkReissuesOnlyWhenExpired | src/index.js:450-477 | unpaid users get nothing; an unexpired link comes back unchanged; otherwise, when the invite is created, exactly one 24 h invite is made, the user gets the new link, and only the link and its expiry (in seconds) of the user's record change; a failed invite writes nothing and gets the failure reply |
| Findings.PollThenPushIssuesTwice | controllers/webhookController.js:47 | a poll that issued the link, followed by the gateway's push, creates a second invite for the same payment and overwrites the first link |
| Findings.PlaceholderRedeliveryIssuesAgain | controllers/webhookController.js:34-50 | a placeholder without a chat gets an invite, the handler throws before `processed` is set, and the redelivery creates another invite |
| Findings.MetadataMatchRedeliveryIssuesAgain | controllers/webhookController.js:29-50 | a record found through `metadata.userId` with another payment id is never written, so every delivery creates an invite |
| Findings.ClaimFirstRedeliveryIssuesNothing | controllers/webhookController.js:47-50 | with one record per user, the corrected webhook handles a redelivered notification as a no-op, whatever the first delivery did |
| Findings.ClaimFirstSkipsIssuedRecord | controllers/webhookController.js:47 | the corrected webhook creates no invite for a record that is already paid with a link |
| Findings.AcceptedEditIsNeverSaved | controllers/botController.js:489 | an admin's accepted amount is answered with the error reply and editing mode stays on |
| Findings.EditFixed | controllers/botController.js:487-515 | the corrected editor saves exactly what the validator accepts, with the support link normalised to an http(s) link, and otherwise gives the same rejection |
| Findings.FixedEditingEndsOnSave | controllers/botController.js:487-515 | in the corrected handler editing mode ends exactly when a setting is saved, exactly where the code as written throws |
| Findings.LegacyPaidRecordNeverFound | src/index.js:391-404 | after a legacy `buy` the gateway's notification for that payment changes nothing and creates no invite |
| Findings.LegacyFixedPaymentIsServed | src/index.js:391-404 | with the gateway's id stored, the notification finds the user's record, creates one invite and marks the user paid with that link |

## Left out

- Timestamps (`lastActivity`, `paymentDate`), display fields (`firstName`, `username`, `phoneNumber`), message wording, keyboards, Markdown and locale date formatting are not modelled. Messages are constructors of `Msg`.
- Telegram sends are assumed to succeed, except a send to a missing chat id (a placeholder record), which throws. Admin notices and sends to empty admin ids are assumed to succeed.
- The gateway is a deterministic status oracle: `getPayment` called twice in one request (`/checkpayment` and then `sendInviteLink`) gets the same answer. The HTTP clients in `src/yookassa.js` and `services/yookassa.js` are not part of this model.
- The settings store (`models/Settings.js`, `services/settings.js`) is not part of this model. `paymentAmount` is an integer parameter and `supportLink` is not used.
- The `parseFloat` amount check is float parsing, so it is an input flag (`amountAccepted`).
- `getSettings()` calls inside handlers are assumed not to fail.
- The two `chat_member` handlers are each modelled on their own, not in their dispatch order. Telegraf runs the one in `services/telegram.js` first, and since it does not call `next`, the controller's handler does not run in the deployed bot.
- Concurrency between the push, the poll and `/return` is not modelled: handlers are sequential steps on the store. The 15 s timeout of `createPayment` is the `CreateFailed` input.
- Telegram API details are foreign calls logged as effects. This covers the meaning of invite parameters and revocation semantics. `services/telegram.js:52` passes the expiry as `expires_date`, while the Bot API parameter (used by `src/index.js:259`) is `expire_date`. The model records the expiry the code computes; how Telegram treats the parameter is not modelled.
- `/start`, `about`, `support`, `export_subscribers`, `stats` counting, the legacy `/start`, message and `admin` handlers and the legacy `/return` route are not modelled. They only render texts or spreadsheets, or they create the initial record.
- Express and Telegraf wiring, the `/bot<token>`, `/ping`, `/health` routes, logging and signal handlers are not modelled.
- BotController.GoBack: rendering the start screen is not modelled. That includes the TypeError when the user has no record, which only changes the reply.
- Legacy.HandleWebhook: the legacy `chatId` is always a string. A failing send in the legacy catch block (an unhandled rejection in Express) is not modelled.
- BotController.ProcessPayment: the `{upsert: true}` insert branch is not modelled because it is unreachable: without a record, `user.email` throws first.
- Webhook.TrackMembership: the `userId` in the catch block's log message is out of scope there (a ReferenceError inside the catch). It only affects logging and is not modelled.

## Findings

| source | as written | input that shows it | evidently intended | confidence | as-written member | corrected member |
|---|---|---|---|---|---|---|
| controllers/webhookController.js:47 | the webhook issues whenever the record has not joined and is not `processed`, even if `/checkpayment` already issued a link for the payment | one pending record with a chat and a settled payment; `/checkpayment`, then the `payment.succeeded` push | one invite per payment; a record already paid with a link is skipped, as `processPayment` and `/checkpayment` do | not executed; high | Findings.PollThenPushIssuesTwice | Findings.ClaimFirstSkipsIssuedRecord |
| controllers/webhookController.js:34-50 | a placeholder has no chat, so `sendInviteLink` creates the invite and then throws; `processed` is never set | an empty collection; `payment.succeeded` for an unknown id without metadata, delivered twice | the record is claimed (`processed`) before issuance, so a redelivery creates nothing | not executed; high | Findings.PlaceholderRedeliveryIssuesAgain | Findings.ClaimFirstRedeliveryIssuesNothing |
| controllers/webhookController.js:29-50 | a record found through `metadata.userId` carries another payment id, so the `{userId, paymentId}` write and the `{paymentId}` claim both miss it | a record with payment id `p2`; a notification for `p1` whose metadata names that user, delivered twice | the resolved record itself is claimed by its user id | not executed; medium | Findings.MetadataMatchRedeliveryIssuesAgain | Findings.ClaimFirstRedeliveryIssuesNothing |
| controllers/botController.js:489 | accepted edits call `Settings`, which the file never imports; the save throws and editing mode stays on | an admin editing the amount sends `500` | the value is saved, editing mode ends and the admin is told | not executed; high | Findings.AcceptedEditIsNeverSaved | Findings.FixedEditingEndsOnSave |
| src/index.js:391-404 | legacy `buy` stores its own uuid as `paymentId`, but the webhook looks the record up by the gateway's `object.id` | any legacy payment; the gateway's id differs from the uuid | the record keeps the gateway's payment id, so the notification finds it | not executed; high | Findings.LegacyPaidRecordNeverFound | Findings.LegacyFixedPaymentIsServed |
