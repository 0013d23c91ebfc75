# Telegram wallet bot: request handling

This project models the request-handling core of a Telegram bot. The bot creates referral wallets
for a third-party service. A user sends `/start`, then a number of wallets, then a 15-character
referral code. The bot then runs a batch (`main`) that logs in freshly generated wallets one by one.
It appends each wallet it gets to the user's ledger file `wallet_<chatId>.json` and charges each used
slot to the user's daily quota. An admin can do the following through a menu:
- block and unblock users;
- cancel a user's running batch;
- change the welcome text, the suffix, the daily limit (bot1.js, bot2.js) and a global caption
  (bot2.js);
- broadcast a message to every registered user.

The repository has four near-identical bots, modelled as follows:

- `bots.js`, `bot1.js` and `bot2.js` (the guarded bots) are one class, `Bots.Bot`. Its `variant`
  field (`Original`, `WithMaxLimit`, `WithCaption`) selects the few places where they differ:
  - the `change_max_limit` and `set_global_caption` admin stages;
  - how the welcome text is composed;
  - whether the Remove Suffix button does anything;
  - the fixed limit of 100 in `bots.js`.
- `bot.js`, the unguarded bot, is `Basic.BasicBot`. It has no quota, no admin, no cancellation and no
  retry.

The batch loop is specified twice. `Batch.Step`/`Batch.RunFrom` is a pure function over a `Run` record
(loop index, shared failure count, call counters, cancel flag, wallets, usage, ledger). The method
`Bots.Bot.ProcessRequest` runs the loop imperatively and is proved to end in exactly the state `Batch.Batch`
describes. The properties of a batch are lemmas about `Batch.Batch`:
- termination and a bound on the attempts;
- the 409 retry rule;
- the quota arithmetic;
- the append-only ledger;
- cancellation.

What the model cannot compute is supplied as parameters:
- The outcome of every `createWallet` call is `Env.login(n)`: a logged-in record, an HTTP error status,
  or no response.
- Whether the admin's cancel for this chat ran during the await before the k-th cancellation check is
  `Env.adminCancels(k)`.
- The date is a `today` string.
- The number `parseInt` read from a message is an `Option<int>` (None for NaN).

## Model

| member | source | states |
|---|---|---|
| Wallets.CreateWallet | bots.js:175-186 | An HTTP 409 becomes the conflict marker, and exactly a 409 does. Every other error, with or without a response, becomes `null`. A completed login yields its record. |
| Wallets.CreateWalletIgnoringStatus | bot.js:122-128 | In bot.js every error, whatever its status, yields `null`. A record is returned exactly when the login completed. |
| Wallets.ClassificationsAgreeExceptOnConflict | bot.js:78-129 | The bot.js classification equals the guarded one on every login result except a 409, which bot.js drops as `null`. |
| Ledger.Append | bots.js:361-375 | After a success the ledger is a JSON array. What could be read is kept as a prefix, and exactly the new record follows it. |
| Ledger.ReadAfterWrite | bots.js:361-375 | The read (`Ledger.Existing`) after a write gives the previous read followed by the new records. A missing or unparsable file reads as empty, so the first write replaces it with just the new records. |
| Ledger.Concat | bot.js:268-278 | The one write of bot.js: the previous contents are kept as a prefix, followed by exactly the batch's wallets. |
| Ledger.AppendAllIsConcat | bots.js:361-375 | Appending after every success leaves the same file as bot.js's single concatenation at the end, once there is at least one wallet. |
| Quota.Refresh | bots.js:327-330 | The usage record in force is dated today. A record already dated today is kept. An absent or stale record becomes a count of 0. |
| Quota.NewDayAdmits | bots.js:327-334 | The gate (`Quota.Admits`) resets daily: with no record for today, a batch is admitted exactly when it is within the limit. |
| Quota.AdmitsMonotone | bots.js:331-334 | An admitted batch leaves room for any smaller one. A refused batch stays refused at any lower limit. |
| Bots.BatchOutcomeOf | bots.js:325-388 | What `main` does with a request: it refreshes today's usage record, refuses the batch when `Quota.Admits` fails, and otherwise runs `Batch.Batch` from today's count. Its properties are `Bots.QuotaGate` and the Batch lemmas. |
| Bots.QuotaGate | bots.js:327-334 | A batch is refused exactly when today's count plus `count` exceeds the limit, and then reports today's count. A batch that runs keeps usage between today's count and today's count plus `count`, and never past the limit. |
| Text.Trim | bots.js:583 | `trim` result: no white space at either end, and empty exactly when the input is all white space. |
| Text.TrimRemovesOnlySpace | bots.js:583 | The input is white space, then the trimmed text, then white space: `trim` removes white space at the two ends and nothing else. |
| Text.TrimIdempotent | bots.js:583 | Trimming an already trimmed referral code changes nothing. |
| Text.TrimOfTrimmed | bots.js:583 | A text with no white space at either end is its own trim. |
| Text.Utf16Length | bots.js:584 | A JavaScript `length` lies between the number of characters and twice it, and equals the number of characters when every character is in the Basic Multilingual Plane. |
| Text.AppendLine | bot2.js:406-409 | An empty caption or suffix adds nothing. A non-empty one adds a newline and then itself at the end. |
| Bots.WelcomeText | bot2.js:398-412 | The welcome message comes first. In bot2.js the caption follows on its own line, then the suffix on its own line, and nothing else. The length is fixed by which of the two are non-empty. bots.js adds only the suffix. bot1.js sends the welcome message alone. |
| Lists.AddIfAbsent | bots.js:478-484 | Blocking adds the id only if absent. Afterwards the id is listed, the old list is a prefix, nothing else is added, and a duplicate-free list stays duplicate-free. |
| Lists.Without | bots.js:495-496 | Unblocking removes every occurrence of the id and keeps every other id. |
| Lists.WithoutCounts | bots.js:495-496 | The filter removes exactly the occurrences of the id. Every other id keeps its number of occurrences. |
| Lists.WithoutAbsent | bots.js:495-496 | Filtering out an id that is not listed leaves the list unchanged. |
| Lists.UnblockUndoesBlock | bots.js:471-504 | Blocking an id that was not listed and then unblocking it restores the list exactly. |
| Batch.Step | bots.js:342-380 | One pass of the loop body. It runs the cancel check at the top, then the check in `createAndProcessWallet`, then one `createWallet` call. A 409 raises the failure count and retries the slot, stopping at the third. A success appends to the ledger. A success or a `null` uses the slot and charges usage. Its properties are the Batch lemmas below. |
| Batch.RunFrom | bots.js:342-380 | Passes repeated until the batch stops or all `count` slots are used. It terminates by the measure of `Batch.StepDecreases`. |
| Batch.Batch | bots.js:340-380 | The whole loop, from `failureCount = 0`, an empty `wallets`, the chat's cancel flag, today's usage count and its ledger file. |
| Batch.StepDecreases | bots.js:342-380 | Every pass of a running loop with a slot left does one of three things: it advances `i`, raises the failure count, or stops. So `(count - i) + (3 - failureCount)` decreases. |
| Batch.AttemptBound | bots.js:340-380 | The loop terminates. `createAndProcessWallet` is called at most `count + 2` times, and `createWallet` no more often. |
| Batch.ConflictBound | bots.js:352-360 | A 409 never advances the slot: every call either used a slot or was one of the counted conflicts. The count is cumulative and reaches at most 3. The batch stops for a wrong referral code exactly when it reaches 3. A completed batch saw at most 2. |
| Batch.UsageCharge | bots.js:361-377 | Usage grows by exactly the number of slots used, whether by a success or a `null`, and never by a conflict or a cancellation. The successes number at most the slots used, which are at most `count`. |
| Batch.LedgerAppendOnly | bots.js:361-375 | A batch without a success leaves the ledger untouched. Otherwise the ledger is what could be read before, followed by the batch's wallets in order. An unparsable file is replaced by the batch's wallets alone. |
| Batch.SlotsNeverUnderstate | bot2.js:355-372 | The "Wallet n of count" numbers reported with the successes strictly increase, stay within `1..count`, and the j-th success reports at least j. |
| Batch.CancelStopsAttempts | bots.js:344-350 | If the admin's cancel lands before check k, the batch makes no check after k, and stops at k if it was still running. Every `createWallet` call it made came before check k: at most k/2 calls, since call n follows checks 2n and 2n+1. |
| Batch.StaleFlagBlocksBatch | bots.js:344-347 | A cancel flag left over from an earlier cancellation stops every later batch of the chat at its first check. Nothing is then attempted, charged or written. |
| Batch.AlwaysConflicting | bots.js:352-360 | When every login is answered with 409: exactly three `createWallet` calls are made, then the batch stops for a wrong referral code. Nothing is created or charged, and the ledger is untouched. |
| Batch.AlwaysSucceeding | bots.js:342-380 | When every login completes and nobody cancels: exactly `count` calls, and the wallets are the first `count` login records in call order. Usage grows by `count`, and the ledger gains all the wallets. |
| Batch.BatchWallets | bots.js:361-377 | A batch's wallets are the records of the logins that completed among its `createWallet` calls, in call order. A 409, a `null` or a cancellation adds none. |
| Conversation.Converse | bots.js:557-594 | One conversation step for one text: `/start` resets to `awaiting_count`; a chat without state is ignored; then the `awaiting_count` and `awaiting_ref` rules apply. Its properties are CountStage, RefStage and StartedRequestsAreValid. |
| Conversation.CountStage | bots.js:571-581 | In `awaiting_count` only a count in `1..limit` advances, to `awaiting_ref` with that count. Anything else keeps the stage. No batch starts. |
| Conversation.RefStage | bots.js:582-594 | In `awaiting_ref` a batch starts exactly when the trimmed text is 15 units long. It then carries the trimmed code and the stored count, and the chat's state is deleted. Otherwise the stage is kept. |
| Conversation.StartedRequestsAreValid | bots.js:564-594 | Every batch the conversation starts asks for at least one wallet, with a 15-unit code that is already trimmed. Stored stages hold only accepted counts. |
| Bots.ButtonStage | bots.js:598-642 | The admin stage each menu button opens, per variant. Show Stats, Remove Suffix and unknown buttons open none. Change Max Limit opens none in bots.js, and Set Global Caption opens one only in bot2.js. |
| Bots.AdminAccepts | bots.js:469-554 | Which admin input a pending stage accepts: a chat id for block, unblock and cancel; a positive limit for `change_max_limit` (bot1.js, bot2.js); any text for the text stages. A stage the variant has no case for accepts nothing. |
| Bots.Bot.constructor | bot2.js:99-106 | Start-up from the loaded files: the block list, usage, statistics, users, welcome text and suffix as loaded. The limit is as loaded, except in bots.js, where it is 100. The caption is as loaded in bot2.js and empty in the others. There are no cancel flags, admin stages or conversations yet. |
| Bots.Bot.IsBlocked | bots.js:408-410 | `isBlocked` is true exactly when the id occurs in the block list. |
| Bots.Bot.MarkCancelled | bots.js:513 | The cancel flag of the target is set and added to the flags already set. No flag is ever cleared. |
| Bots.Bot.CreateAndProcessWallet | bots.js:289-305 | A set cancel flag yields the cancelled marker without calling `createWallet`. Otherwise the result is `createWallet`'s classification. The shared failure count goes up by one exactly on a 409. |
| Bots.Bot.Pass | bots.js:342-380 | One loop pass takes the loop's locals, the usage record, the ledger and the cancel flags to `Batch.Step`'s next state. |
| Bots.Bot.RunBatch | bots.js:340-380 | The loop ends in exactly the run `Batch.Batch` describes. Usage, ledger files and cancel flags change only for this chat, as that run says. |
| Bots.Bot.BatchDone | bots.js:325-388 | The state `main` leaves: the outcome is `BatchOutcomeOf` at the limit in force. A refused batch only refreshes the usage record. A batch that runs adds `count` to the wallet-request statistics and leaves the usage, ledger and flags of its run. |
| Bots.Bot.ProcessRequest | bots.js:325-388 | `main` leaves exactly the state `BatchDone` describes. |
| Bots.Bot.HandleStart | bots.js:394-405 | The chat is registered once: `usersList` and `totalUsers` grow only for a new id. The welcome text is sent, and the chat is put in `awaiting_count`. |
| Bots.Bot.Broadcast | bots.js:538-549 | One delivery of the text to every registered user, in registration order. |
| Bots.Bot.AdminTextDone | bots.js:469-554 | The effect of the admin's text on a pending stage, field by field. It changes the block list, cancel flags, welcome text, suffix, limit, caption and admin stage, and gives the deliveries sent. |
| Bots.Bot.OnAdminText | bots.js:469-554 | Input a stage refuses keeps the stage and changes nothing: a non-numeric id, or, in bot1.js and bot2.js, a non-positive limit. An accepted input performs exactly its stage's update and returns the admin to `idle`. A stage the variant has no case for does nothing. |
| Bots.Bot.OnBlockListText | bots.js:471-504 | In the `block` stage a numeric id is added only when absent. In the `unblock` stage it is removed with every occurrence, and only when present. A non-numeric id keeps the stage and changes nothing. Otherwise the admin returns to `idle`. |
| Bots.Bot.OnSettingText | bot2.js:533-564 | The welcome text and the suffix take any text and return the admin to `idle`. The limit takes only a positive number, and not at all in bots.js. The caption is set only in bot2.js. Refused input keeps the stage and changes nothing. |
| Bots.Bot.AdminMessageDone | bots.js:463-554 | The admin's own message: `/admin` resets the admin's stage to `idle` and leaves block list, cancel flags, limit and texts unchanged. Any other text answers the pending stage exactly as `AdminTextDone` says. |
| Bots.Bot.OnAdminMessage | bots.js:463-554 | The admin's own message has exactly the effect `AdminMessageDone` describes, and the bot stays valid. |
| Bots.Bot.OnUserText | bots.js:557-594 | A blocked chat changes nothing. `/start` registers the chat and sends the welcome text. Any other text is the conversation step `Converse` at the current limit. |
| Bots.Bot.Continue | bots.js:569-594 | The stored stage moves as `Converse` says. The chat's state is deleted exactly when a batch starts. |
| Bots.Bot.UserMessageDone | bots.js:557-594 | The effect of a user's message. A blocked chat changes nothing. `/start` registers the chat and sends the welcome text. Any other text moves the stage as `Converse` says. A batch starts exactly when `Converse` accepts a code, and the state is then what `BatchDone` says for the stored count. |
| Bots.Bot.OnMessage | bots.js:454-595 | The `message` handler, case by case. A blocked chat changes nothing at all. `/admin` from the admin, or the admin's text with a stage pending, has exactly the effect `AdminMessageDone` describes: `idle` for `/admin`, otherwise the stage's own update, with conversations, users, statistics, usage and ledgers unchanged. Every other message has exactly the effect `UserMessageDone` describes, with the admin stages, block list, limit and texts unchanged. A started batch always comes from an unblocked chat, with a count of at least 1 and a valid referral code. |
| Bots.Bot.OnUserMessage | bots.js:557-594 | A user's message has exactly the effect `UserMessageDone` describes: the conversation step, then `main` with the stored count exactly when a code was accepted. |
| Bots.Bot.OnCallback | bots.js:598-642 | A sender other than the admin changes nothing. The admin's button opens its stage, or shows the statistics, or (bots.js, bot1.js) empties the suffix. In bot2.js Remove Suffix has no case and changes nothing. |
| Basic.Collected | bot.js:260-266 | The wallets bot.js keeps from `count` attempts: the completed logins' records, in slot order. Its properties are `Basic.CollectedBound`. |
| Basic.CollectedAllLoggedIn | bot.js:260-266 | When every login completed, bot.js keeps one wallet per attempt, and the n-th is the n-th login's record. |
| Basic.CollectedBound | bot.js:260-266 | bot.js keeps at most one wallet per attempt. It keeps one for every attempt exactly when every login completed, and every completed login's record is kept. |
| Basic.ConverseBasic | bot.js:316-356 | One step of bot.js's conversation. A chat without state is first put at `awaiting_count`, and `/start` resets to it. `awaiting_count` stores any positive count, and `awaiting_ref` starts a batch with the trimmed text. Its properties are `Basic.BasicConversationRules`. |
| Basic.BasicConversationRules | bot.js:316-356 | A chat without state starts at `awaiting_count`, and `/start` resets to it. Any positive count is accepted and stored as read, with no upper bound. Anything else keeps the chat at `awaiting_count` without starting a batch. At `awaiting_ref` any text starts a batch with the trimmed text as the code, and the state is deleted exactly then. |
| Basic.BasicBot.constructor | bot.js:290 | bot.js starts with no conversation state and the ledger files as found. |
| Basic.BasicBot.ProcessRequest | bot.js:257-279 | bot.js's `main` makes exactly `count` attempts and collects the completed wallets in slot order. It then writes the ledger once: the previous contents followed by those wallets. |
| Basic.BasicBot.OnMessage | bot.js:316-356 | The bot.js handler moves the stage as `ConverseBasic` says. When a batch starts it runs `main` with the stored count, and the ledger ends as `Collected` appended to the old file. |

## Left out

- Network and cryptography are not modelled. This covers the HTTP calls (the login, the reward claims,
  the mission calls, the account info), key generation and message signing. Only the classified result
  of `createWallet` is modelled, as `Env.login`. The reward claims swallow their own errors and do not
  affect the batch.
- The Telegram transport is not modelled: `sendMessage`, `sendDocument`, `answerCallbackQuery`, the
  admin menu markup, Markdown and code-block formatting, and colour styles. The only messages
  followed to their recipients are the welcome text, the cancel notice and broadcasts. Prompts,
  replies and the batch's progress log are not.
- Bots.Bot.Broadcast: the model records one delivery of the bare text per user. The variants
  decorate it differently. bots.js sends it after a bold `Broadcast Message:` line. bot1.js sends it
  inside a code block that starts with `Broadcast Message:`. bot2.js sends a code-block `Broadcast`
  header and then the text, as two messages.
- Files and the clock are abstracted. The settings files (`usage.json`, `stats.json`, blocked list,
  users list, welcome, suffix, limit, caption) are loaded once at start-up into the constructor's
  arguments, and their writes are the field updates. A ledger file that parses to JSON but not to an
  array (an object, a number, `null`) is not modelled. In the source, `existingWallets.push` then
  throws. In bots.js that rejects `main` with nobody handling it. In bot1.js and bot2.js `main`'s
  `catch` ends the batch before that slot's write and usage charge. The model's `LedgerFile` has no
  such case: every file is missing, a JSON array, or unparsable. The date is the `today` parameter.
- `setTimeout` delays, random usernames and the `readline` start-up prompts are not modelled. A
  non-numeric `ADMIN_ID` is not modelled either.
- Concurrency is not modelled. `main` is started without `await`, so two batches of one chat can
  overlap. The `uncaughtException` handler and the `try`/`catch` around `main` in bot1.js and bot2.js
  are also out. Each batch is one sequential run.
- The admin's handler can run during any await of a batch. The model captures this only for the cancel
  flag, through `Env.adminCancels`. A limit the admin changes mid-batch does not affect a running
  batch, since the gate has already passed. In bot1.js and bot2.js nothing is awaited between the
  loop's check and the one in `createAndProcessWallet`, so a cancel can land only before the first.
  The model allows both checkpoints for every variant, which over-approximates those two files.
- JavaScript `parseInt` is taken as given: the number it read is the `number` parameter. Its quirks
  (`"12abc"` reads 12, `-0`, precision above 2^53) are left out, as is Number precision in general.
  The model's integers are unbounded.
- Messages without text are not modelled. Neither is the `processing` stage. It is set before the
  "Starting wallet creation" send, and deleted after `main` is started, only if that send succeeded
  (bots.js:589-592, bot1.js:601-604, bot2.js:613-616). The model goes from `awaiting_ref` straight
  to no state, as a successful send does.
- Batch.Step, Batch.UsageCharge, Bots.Bot.RunBatch: every Telegram send is assumed to succeed. A send
  that rejects, for example because the user blocked the bot, ends the handler or `main` at that
  point. The model does not capture three such paths:
  - In bot1.js (362, 365) and bot2.js (369, 371), the success notices are awaited without a guard.
    They come after the ledger write (bot1.js:360, bot2.js:367) and before the usage charge
    (bot1.js:367, bot2.js:373). If one rejects, `main`'s `catch` (bot1.js:378, bot2.js:389) ends the
    batch. That wallet stays saved, but its slot is never charged. The model always charges the slot
    and goes on. bots.js sends its batch messages through `userLog`, which catches send errors.
  - If the "Starting wallet creation" send rejects (bots.js:590, bot1.js:602, bot2.js:614), `main`
    never runs. The chat stays at `processing`, where later texts do nothing until `/start`. The
    model always runs `main`.
  - `handleStart` sets `awaiting_count` only after its two sends (bots.js:402-404). If a send
    rejects, the user is registered but the stage is not set.
- Bots.Bot.OnUserText: the requested count is not shown to be at most the limit once a batch starts.
  The admin may lower the limit between the two conversation steps, so only `count >= 1` is stated.
  The quota gate in `main` is what bounds usage.

409 conflicts are counted over the whole batch and never reset by a success, so the third conflict
stops the batch even when successes came between the conflicts. In bot1.js the welcome text omits the
suffix.
