# ENM Store: ledger, account lists, admin configuration and bot commands

This project models the record-keeping core of the ENM Store web shop and of the Discord bot that its admin panel generates:

- **The storefront ledger** (`script.js`). This is the list of payment attempts kept under `enm_transactions`. The model covers:
  - the transaction id, the PayPal.me link and the pending record that the checkout builds;
  - the `ENM-T-`/`ENM-LT-` access keys;
  - the status update after a payment is confirmed;
  - the pending-count notice;
  - clearing completed records;
  - reopening verification from the URL;
  - the newest-first history order.
- **The Discord sign-in adapter** (`discord-auth.js`, class `DiscordAuth`). The model covers:
  - the access token and the user;
  - the OAuth2 redirect and callback;
  - the profile fetch and logout;
  - the per-user `purchases_<id>` and `keys_<id>` lists that `recordPurchase` appends to;
  - key codes, expiry dates, avatar URLs and key labels.
- **The payment confirmation** (`verifyPayment` in `script.js`). It ties the ledger and the account lists together.
- **The admin panel** (`admin.js`). The model covers:
  - the `botConfig` record the form handlers rewrite;
  - its secret-free copy in `enmBotConfig`, and how that copy is merged back on load and on import;
  - the log, with newest entries first and a cap of 1000;
  - the command, hex-colour, setup and webhook-test checks;
  - the session secrets and the admin password;
  - the dashboard counters.
- **The generated bot** (the code that `bot.config.js` writes out):
  - the `CommandHandler` command table, auto-responses, message dispatch and response templates;
  - the welcome template;
  - the premium-role rule and the no-role guard of `RoleManager`;
  - the command list that is written into the bot's README.

Each stateful object of the source is a Dafny `class` whose methods state the new state. These are `Ledger.TransactionStore`, `DiscordAuth.Session`, `Admin.AdminPanel` and `BotCommands.CommandHandler`. Each new state is stated through a function on the old state, and lemmas prove what those functions guarantee. The string work is pure and is written as functions over `seq<char>`:

- ids, keys and URLs;
- templates, `split`/`join` and radix digits.

### How the environment is modelled

- **Clocks.** `Date.now()` is a `nat` of milliseconds. `new Date()` in `discord-auth.js` is a local calendar `Moment` (day number, milliseconds into the day). `setDate(getDate() + n)` moves the day and keeps the time of day.
- **Random text.** The characters taken from `Math.random().toString(36)` are parameters.
- **Log times.** The `toLocaleString` text of a log entry is a parameter (`stamp`). Reading that text back as a time is the parameter `parseTime`.
- **Network.** The Discord profile request is a parameter with three outcomes: ok, not ok, threw. The role fetch in the bot is also a parameter.
- **Storage.** Browser storage is the fields of the classes. Each storage key becomes its own field or a map from storage key to list.

### Behaviour of the code worth knowing (the model follows the code)

- **No terminal state.** `updateTransactionStatus` has no terminal-state guard. A completed record can be cancelled or completed again with a new key (`Ledger.CompletedIsNotTerminal`).
- **No de-duplication.** `recordPurchase` does not de-duplicate. Recording the same purchase twice stores it twice (`DiscordAuth.RecordingTwiceStoresTwice`).
- **Active-key count.** The stored purchases never carry an `expiry` property. The dashboard's "active keys" therefore counts every stored purchase (`Admin.EveryPurchaseCountsAsActive`).
- **Empty admin password.** `ADMIN_PASSWORD` starts empty and only complete secrets replace it. After start-up, the empty input opens the dashboard exactly when neither the session nor the URL held complete secrets (`Admin.EmptyPasswordOpensAfterStart`).
- **Case-sensitive triggers.** The message is lower-cased before the auto-response triggers are looked for. A trigger added as case-sensitive with an upper-case letter therefore never fires (`BotCommands.CaseSensitiveUpperTriggerNeverFires`).
- **Pending notification.** `checkPendingTransactions` only creates the notification when none is on the page. It never rewrites the count and never removes it when nothing is pending any more (`Ledger.CheckPending`; see Findings).
- **Key type of the cards.** Every timed-key card's buy button carries the type `timed`, not its duration. Keys bought from the store page get an `ENM-T-` code in the ledger, and the account key has no expiry and is listed as `Lifetime` (`Checkout.TimedCardKeyShowsLifetime`; see Findings).
- **Price display.** The account purchase list calls `toFixed(2)` on the stored price, which the checkout stores as the button's text. On a string that call throws, so the list is not rendered (discord-auth.js:185). Display is outside the model.
- **Backup.** The backup download is the whole configuration, token and client id included. Only the `enmBotConfig` copy is stripped of them (`Admin.BackupImportRestores`).
- **Two different keys.** The key the buyer is shown and that the ledger stores is `ENM-T-…`/`ENM-LT-…` with four fields. The key in the account's key list is a different, freshly drawn `ENM-` code with five fields (`Checkout.AccountCodeIsNotIssuedKey`).

## Model

| member | source | states |
|---|---|---|
| Common.Filter | script.js:463-464 | the kept elements are an ordered sub-sequence of the input (hence no longer than it), and every kept element passes the test (shared by every `filter` of the core) |
| Common.FilterAppend | script.js:594-596 | filtering a concatenation filters each part: the kept elements stay in their original order |
| Common.FilterMembers | script.js:594-596 | an element is kept exactly when it is in the input and passes the test |
| Common.FilterMultiset | script.js:594-596 | a passing element is kept as often as it occurs, a failing one never |
| Common.FilterAll | admin.js:533-537 | a list whose elements all pass is returned unchanged |
| Common.FilterNone | bot.config.js:371 | a list none of whose elements pass filters to the empty list |
| Common.Appended | discord-auth.js:245-252 | read-push-write of one storage key: that key's list gains the element at its end, every other key is unchanged, no key is lost |
| Text.LowerIdempotent | bot.config.js:138-153 | lower-casing twice is lower-casing once |
| Text.LowerAppend | bot.config.js:153 | lower-casing works character by character over a concatenation |
| Text.ReplaceAllAbsent | bot.config.js:182-186 | a global replacement leaves text without the token unchanged |
| Text.ReplaceAllLeading | bot.config.js:182-186 | a token at the start is replaced and scanning resumes after it |
| Text.ReplaceAll | bot.config.js:182-186 | replacing a token by itself, or in text shorter than the token, leaves the text unchanged |
| Text.Join | discord-auth.js:263-265 | the join starts with the first part, is the part itself for one part, and puts the separator right after the first part otherwise |
| Text.JoinFour | script.js:458 | joining four parts puts one separator between neighbours |
| Text.IndexOfChar | script.js:125 | the index found holds the character and no earlier index does |
| Text.Split | discord-auth.js:263-265 | `split` yields at least one part |
| Text.SplitJoin | discord-auth.js:263-265 | splitting a join of separator-free parts gives the parts back |
| Text.TrimStart | bot.config.js:166 | the result is what follows a removed prefix of the text, and it does not start with white space |
| Text.TrimStartRemovesSpace | bot.config.js:166 | every character the leading trim removes is white space |
| Text.TrimEnd | bot.config.js:166 | the result is what precedes a removed suffix of the text, and it does not end with white space |
| Text.TrimEndRemovesSpace | bot.config.js:166 | every character the trailing trim removes is white space |
| Text.Trim | bot.config.js:166 | the trimmed text neither starts nor ends with white space and occurs in the input right after the removed leading white space |
| Text.FirstWord | bot.config.js:166-167 | the first word is a prefix of the text, contains no white space, and ends at the end of the text or at a white-space character (it is the longest such prefix) |
| Text.DivModStep | script.js:455 | one digit step of `toString(radix)` shrinks the number and splits it into quotient and digit |
| Text.DigitCharValue | script.js:455 | each radix digit reads back as its value |
| Text.Digits | script.js:455 | `n.toString(base)` is non-empty and made only of digits below the base |
| Text.ValueOfDigits | script.js:455 | reading `n.toString(base)` back in that base gives `n` |
| Text.ValueOfUpper | script.js:455 | upper-casing digit text does not change the number it reads as |
| Text.Base36LacksDash | script.js:456 | base-36 text contains no `-`, upper-cased or not |
| Text.UpperKeepsDigitValues | script.js:455 | upper-casing keeps the length and every digit's value |
| Text.UpperKeepsAbsent | discord-auth.js:264 | upper-casing cannot create a separator character |
| Ledger.TransactionIdFields | script.js:125 | the transaction id splits into `ENM`, the decimal time and the upper-cased random part |
| Ledger.TransactionIdInjective | script.js:125 | two ids are equal only when time and random part are equal |
| Ledger.TransactionId | script.js:125 | the id starts `ENM-`, then the decimal time and a `-`, then the random part |
| Ledger.PaymentLink | script.js:136 | the link starts with the PayPal.me address and the price can be read back between it and `EUR` |
| Ledger.NewPendingTransaction | script.js:125-137 | the new record is pending, has no key and no `verifiedAt`, has an id starting `ENM-` and the link `https://www.paypal.me/slimeryt/<price>EUR`, and copies the item's fields and the time |
| Ledger.GenerateKey | script.js:453-459 | the key starts `ENM-LT-` exactly for `lifetime` and `ENM-T-` exactly for every other type |
| Ledger.KeyRoundTrip | script.js:453-459 | a generated key parses back to its type, its creation time and its upper-cased random part |
| Ledger.ParseKey | script.js:453-459 | only an `ENM-` text parses as a key, and it parses as a lifetime key exactly when it starts `ENM-LT-` |
| Ledger.FirstIndex | script.js:280 | `find` by id: no index exactly when no record carries the id, otherwise the first such index |
| Ledger.WithStatus | script.js:278-288 | the update keeps the length, every id and every timestamp, and a record that changed now has the given id and status |
| Ledger.UpdateUnknownIdUnchanged | script.js:279-287 | an id not in the ledger leaves the list unchanged |
| Ledger.UpdateChangesFirstMatchOnly | script.js:280-286 | only the first record with the id changes: its status is the argument, `verifiedAt` is set, the key is replaced only by a non-empty key, and the length and all other records are unchanged |
| Ledger.CompletedIsNotTerminal | script.js:282-286 | a completed record can be cancelled, or completed again with a new key and time |
| Ledger.PendingCount | script.js:463-464 | the pending count never exceeds the number of records and is zero exactly when no record is pending |
| Ledger.PendingNotice | script.js:466-475 | the notification text exists exactly when the count is positive, starts `You have `, and ends in `s` exactly when the count exceeds one |
| Ledger.CheckPending | script.js:462-500 | a notification already shown is kept unchanged; with none shown, the notification for the current pending count appears, so there is none afterwards exactly when none was shown and nothing is pending |
| Ledger.StaleNoticeSurvives | script.js:462-500 | as written, after the only pending payment is confirmed the ledger has no pending record but the notification still says one is pending |
| Ledger.RefreshedNotice | script.js:466-475 | corrected check: the notification exists exactly when something is pending and always shows the current count |
| Ledger.RefreshedNoticeClearsOnConfirm | script.js:466-475 | corrected check: once the last pending payment is confirmed the notification is gone, whatever was shown |
| Ledger.OnePendingNotice | script.js:475 | the notification text for one pending transaction is `You have 1 pending transaction` |
| Ledger.PendingCountAfterSave | script.js:271-275 | appending a record raises the pending count by one exactly when the record is pending |
| Ledger.ClearCompletedKeepsOthers | script.js:594-596 | clearing keeps exactly the records that are not completed, with their multiplicities and in their original order |
| Ledger.ClearCompletedKeepsPending | script.js:594-596 | clearing completed records leaves the pending records unchanged |
| Ledger.ReopenTarget | script.js:624-639 | the modal reopens only for a non-empty `transaction` parameter whose first matching record exists and is pending |
| Ledger.InsertByTime | script.js:519 | inserting into a newest-first list keeps it newest first and adds exactly the one record |
| Ledger.HistoryOrder | script.js:519 | the history is newest first and is a permutation of the ledger |
| Ledger.TransactionStore.constructor | script.js:272 | the store starts from the stored list |
| Ledger.TransactionStore.SaveTransaction | script.js:271-275 | the new list is the old list with the record appended |
| Ledger.TransactionStore.UpdateTransactionStatus | script.js:278-288 | the new list is the first-match update of the old one, with the same length |
| Ledger.TransactionStore.ProceedToPayPal | script.js:121-158 | no selected item changes nothing; otherwise the new pending record is appended and returned, the pending count rises by one, and the notification check runs (a notification is then shown) |
| Ledger.TransactionStore.ClearCompletedTransactions | script.js:592-600 | after confirmation the list is the non-completed records in order and the notification check runs; otherwise nothing changes; the pending count never changes |
| DiscordAuth.CalculateExpiry | discord-auth.js:268-276 | no expiry exactly for types other than 24h/7d/30d; otherwise 1, 7 or 30 calendar days later at the same time of day |
| DiscordAuth.KeyExpiry | discord-auth.js:241 | a new key has no expiry exactly when its type is not 24h/7d/30d, and a later expiry otherwise |
| DiscordAuth.GenerateKeyCode | discord-auth.js:262-266 | the key code starts `ENM-` |
| DiscordAuth.KeyCodeGroups | discord-auth.js:262-266 | the key code splits into `ENM` followed by exactly the four upper-cased groups |
| DiscordAuth.AvatarPathIsNotDefault | discord-auth.js:107-109 | a user's CDN avatar URL is never the default avatar URL |
| DiscordAuth.ProfileAvatarUrl | discord-auth.js:107-109 | the header picture is the default one exactly when the user has no avatar hash; otherwise it is the user's CDN path followed by `?size=256` |
| DiscordAuth.AccountAvatarUrl | discord-auth.js:131 | the account picture is the default one exactly when the user has no avatar hash; otherwise it is the user's CDN path |
| DiscordAuth.ProfileAvatarIsSizedAccountAvatar | discord-auth.js:107-131 | both pictures show the same image; the header one only adds `?size=256` |
| DiscordAuth.StatusLabel | discord-auth.js:211 | the badge reads `Active` exactly for an active key, else `Expired` |
| DiscordAuth.ExpiryLabel | discord-auth.js:214 | the label reads `Lifetime` exactly when there is no expiry, else `Expires: …` |
| DiscordAuth.ReturnTarget | discord-auth.js:67 | the callback goes to the stored return URL when one is stored and non-empty, else to `/` |
| DiscordAuth.StorageKeysDistinct | discord-auth.js:245-252 | each user has their own purchase and key lists, and no purchase list is a key list |
| DiscordAuth.NewKey | discord-auth.js:234-242 | the stored key is active, carries the purchase's name and type, the fresh code and the date, its expiry matches its type, and a present expiry is the one `calculateExpiry` gives |
| DiscordAuth.RecordingKeepsKeysWellFormed | discord-auth.js:235-252 | appending a well-formed key keeps every stored key well formed |
| DiscordAuth.RecordingTwiceStoresTwice | discord-auth.js:245-252 | recording the same purchase twice stores it twice |
| DiscordAuth.Session.constructor | discord-auth.js:10-18 | the session starts signed out, then a stored token is adopted with its profile, or a failed fetch ends signed out |
| DiscordAuth.Session.CheckAuth | discord-auth.js:34-42 | without a stored token nothing changes; with one it becomes the access token and the fetch outcome decides between signed in and signed out |
| DiscordAuth.Session.Login | discord-auth.js:44-50 | the current URL is remembered as the return URL and the browser goes to the authorisation URL |
| DiscordAuth.Session.HandleCallback | discord-auth.js:52-72 | without a token nothing happens; with one it is stored and used, the redirect is the return target, and the stored return URL is removed |
| DiscordAuth.Session.GetUserInfo | discord-auth.js:74-95 | without a token nothing changes; an ok response sets the user; a rejected or failed request ends signed out |
| DiscordAuth.Session.Logout | discord-auth.js:149-153 | token, stored token and user are all cleared, and the lists are untouched |
| DiscordAuth.Session.RecordPurchase | discord-auth.js:221-260 | signed out: nothing changes; signed in: one purchase and one key are appended to that user's lists, nothing else changes, the key is returned, and well-formed key lists stay well formed |
| Checkout.IssuedKeyFields | script.js:453-459 | an issued key splits into `ENM`, `LT` or `T`, the upper-cased base-36 time and the upper-cased random part |
| Checkout.AccountCodeIsNotIssuedKey | script.js:389-446 | the code in the account's key list never equals the key the ledger stores |
| Checkout.VerifyPayment | script.js:381-450 | the key is the generated key; the ledger is the first-match completion with that key; a signed-in buyer's lists each gain the purchase and its key; signed out, the lists are untouched; the notification is the result of the check on the new ledger |
| Checkout.ConfirmedRecordCarriesKey | script.js:389-392 | after confirmation the matching record is completed and carries the issued key |
| Checkout.CardItem | script.js:74-98 | the item a timed-key card selects carries the card's id, name and price, and a type that is neither a duration nor `lifetime` |
| Checkout.DurationCardItem | script.js:55-74 | corrected card item: its type is the card id, one of the three durations |
| Checkout.TimedCardKeyShowsLifetime | discord-auth.js:234-242 | as written, a key bought from any timed-key card gets an `ENM-T-` code, no account expiry and the label `Lifetime` |
| Checkout.DurationCardKeyExpires | discord-auth.js:234-242 | with the duration as the type, the account key expires one, seven or thirty days after the purchase and is listed with that date |
| Admin.Override | admin.js:632 | `{ ...c, ...p }`: for each of the twelve fields, a present field of the patch replaces the value and an absent one keeps it |
| Admin.Stripped | admin.js:857-862 | the stored copy has an empty token and client id |
| Admin.FirstTruthy | admin.js:799-800 | `a \|\| b \|\| ''`: a non-empty current value wins, else the stored one, else empty |
| Admin.MergeStored | admin.js:795-801 | stored fields override the current ones, but a non-empty secret in memory is kept |
| Admin.SavedConfigLoadsBack | admin.js:795-862 | loading the saved copy gives the saved configuration back with the in-memory secrets |
| Admin.ReloadAfterSave | admin.js:795-862 | saving and loading again changes nothing |
| Admin.BackupImportRestores | admin.js:605-632 | importing a backup restores it entirely, secrets included |
| Admin.PushLog | admin.js:871-876 | the new entry is first, the earlier entries follow in order, and the length is capped at 1000 |
| Admin.RecentLogs | admin.js:533-537 | the purge never lengthens the log |
| Admin.RecentLogsMembers | admin.js:533-537 | the purge keeps exactly the entries whose time is later than a week ago |
| Admin.RecentLogsAppend | admin.js:533-537 | the purge keeps the surviving entries in their original order |
| Admin.RecentLogsIdempotent | admin.js:533-537 | purging twice is purging once |
| Admin.PrefixedName | admin.js:375 | the stored name starts with the prefix: the name itself if already prefixed, else the prefix plus the name |
| Admin.PrefixedNameIdempotent | admin.js:375 | prefixing twice is prefixing once |
| Admin.TypedColour | admin.js:332-337 | a typed value is taken exactly when it is `#` and six hex digits |
| Admin.HexColourIgnoresCase | admin.js:333 | the hex check ignores letter case |
| Admin.HexDigits | admin.js:327-330 | the padded hex text the picker reports has the requested width and only hex digits |
| Admin.FormatHexColour | admin.js:327-330 | every colour the picker reports passes the hex check |
| Admin.PickerColourAcceptedBack | admin.js:327-337 | a colour chosen with the picker and copied into the text field is accepted back by the field's check, in either letter case |
| Admin.ValidateSetup | admin.js:741-749 | setup is accepted exactly when token, client id and password are non-empty and the password is confirmed; a missing field is reported first |
| Admin.WebhookUrl | admin.js:457 | an unknown webhook type has no URL |
| Admin.ActiveCount | admin.js:923-926 | the active count never exceeds the number of purchases |
| Admin.EveryPurchaseCountsAsActive | admin.js:923-926 | since stored purchases carry no expiry, every purchase counts as active |
| Admin.AllPurchases | admin.js:912-921 | the gathered purchases are exactly those stored under the `purchases_` keys |
| Admin.UpdateStats | admin.js:901-935 | total purchases is the number of completed transactions; active keys is the number of purchases under `purchases_` keys that count as active, which is all of them; users is the number of `discord_access_token` keys |
| Admin.AdminPanel.constructor | admin.js:4-55 | the page starts with the default configuration and an empty admin password |
| Admin.AdminPanel.Start | admin.js:55-74 | the secrets are the chosen ones (session, else URL); the password is replaced only by complete secrets; the configuration is the stored copy merged in, then the secrets, then `Admin logged in` when the login flag was stored, then `Admin panel initialized` first in the log; setup is prompted exactly when no complete secrets were found and the loaded token or client id is empty; the stored copy matches |
| Admin.AdminPanel.SaveConfig | admin.js:854-866 | the stored copy becomes the configuration without secrets, and nothing else changes |
| Admin.AdminPanel.AddLog | admin.js:868-880 | the log gains the entry in front (capped at 1000), the copy is saved, and nothing else changes |
| Admin.AdminPanel.LoadConfig | admin.js:790-852 | nothing stored: unchanged; unreadable: a failure is logged and the copy is rewritten; parsed: the merge is applied and logged |
| Admin.AdminPanel.ImportConfig | admin.js:620-644 | unconfirmed: nothing; unparseable: a failure is logged; otherwise the override is applied, saved, reloaded and logged twice |
| Admin.AdminPanel.AddCommand | admin.js:362-387 | rejected with no change exactly when name, description or response is empty; otherwise exactly one command is appended under its prefixed name and logged |
| Admin.AdminPanel.AddAutoResponse | admin.js:400-419 | rejected with no change when the trigger or the message is empty; otherwise only a log entry is added |
| Admin.AdminPanel.CreateRole | admin.js:297-324 | refused with no change without a role name or while no token is set; otherwise only `Created new role: <name>` is logged |
| Admin.AdminPanel.SaveBotSettings | admin.js:132-153 | the bot fields are taken, saved, logged, and the secrets are copied to the session only when both are non-empty |
| Admin.AdminPanel.SaveChannels | admin.js:165-174 | the channels are replaced, saved and logged |
| Admin.AdminPanel.SaveRoles | admin.js:245-254 | the roles are replaced, saved and logged |
| Admin.AdminPanel.SaveAutomation | admin.js:423-434 | the automation settings are replaced, saved and logged |
| Admin.AdminPanel.SaveWebhooks | admin.js:480-488 | the webhook URLs are replaced, saved and logged |
| Admin.AdminPanel.PurgeOldLogs | admin.js:531-542 | after confirmation only recent entries remain, then the purge is logged |
| Admin.AdminPanel.ClearAllLogs | admin.js:569-576 | after confirmation the only entry left records the clearing |
| Admin.AdminPanel.ExportConfig | admin.js:605-617 | the backup is the whole configuration before the export is logged, secrets included |
| Admin.AdminPanel.SaveBackupSchedule | admin.js:646-650 | only a log entry is added |
| Admin.AdminPanel.Login | admin.js:76-108 | login succeeds exactly when the input equals the admin password; success sets the flag and logs |
| Admin.AdminPanel.Logout | admin.js:97-102 | the login flag is cleared and nothing else changes |
| Admin.AdminPanel.LoadSecrets | admin.js:653-696 | complete session secrets win, then complete URL secrets are copied in; loaded secrets set token, client id and password and are logged; otherwise nothing changes and setup is prompted exactly when token or client id is empty |
| Admin.ChosenSecrets | admin.js:653-690 | the chosen secrets are complete exactly when the session or the URL held complete ones; complete session secrets win over the URL's; otherwise the session's stay |
| Admin.AdminPanel.CompleteSetup | admin.js:735-770 | the outcome is the setup check; only an accepted setup stores the secrets, sets the password and logs |
| Admin.AdminPanel.SaveSecrets | admin.js:781-788 | the session gets token and client id only when both are non-empty; the configuration is untouched |
| Admin.AdminPanel.SendTestWebhook | admin.js:452-478 | a type with no URL changes nothing; otherwise the send is logged |
| Admin.EmptyPasswordOpensAfterStart | admin.js:55-82 | after start-up, the empty input logs in exactly when neither the session nor the URL held complete secrets |
| BotCommands.RenderResponse | bot.config.js:182-186 | a response without the four tokens is sent as written |
| BotCommands.RenderOrderMatters | bot.config.js:182-186 | replacements run in order: a user named `{server}` is shown as the server name |
| BotCommands.WelcomeMessage | bot.config.js:239-242 | a welcome text without its three tokens is sent as written |
| BotCommands.RegisteredKeys | bot.config.js:136-148 | a key is registered exactly when some enabled command has that lower-cased name |
| BotCommands.RegisteredLastWins | bot.config.js:136-148 | among enabled commands sharing a lower-cased name, the last one is registered |
| BotCommands.Registered | bot.config.js:136-148 | registering never removes a key already in the table |
| BotCommands.SetEntry | bot.config.js:195-198 | setting a key grows the map by at most one |
| BotCommands.SetEntryContents | bot.config.js:195-198 | the map grows exactly when the key is new; the new pair is present, every entry under another key survives, and nothing else appears |
| BotCommands.SetEntryProperties | bot.config.js:195-198 | after a set the key holds the new value once, the map grows only for a new key, and other entries keep their values |
| BotCommands.SetEntryKeepsPlaces | bot.config.js:195-198 | every entry under another key keeps its index, and a new key is appended last |
| BotCommands.FirstTrigger | bot.config.js:157-162 | the first trigger contained in the text, or none exactly when no trigger is contained |
| BotCommands.CommandKey | bot.config.js:166-168 | the command key starts with the prefix and is no longer than the prefix and the text after it |
| BotCommands.ExecuteCommand | bot.config.js:177-192 | a message without a server gets the error reply; in a server, a response without tokens is sent as written |
| BotCommands.RespondCases | bot.config.js:150-175 | no reply to bots; the first matching auto-response wins; with no trigger matching and the lower-cased text starting with the prefix, the reply is the command registered under the key, if there is one, and none otherwise; with neither, no reply |
| BotCommands.CommandHandler.constructor | bot.config.js:130-134 | the handler starts with no auto-responses and the enabled commands registered |
| BotCommands.CommandHandler.LoadCommands | bot.config.js:136-148 | the table gains every enabled command under its lower-cased name, later ones winning |
| BotCommands.CommandHandler.AddAutoResponse | bot.config.js:195-198 | the trigger is stored lower-cased unless case-sensitive, and re-adding overwrites |
| BotCommands.CommandHandler.HandleMessage | bot.config.js:150-175 | the reply is exactly the dispatch result |
| BotCommands.UppercasePrefixBlocksCommands | bot.config.js:153-170 | as written, with prefix `E!` and command `E!help`, the message `E!help` gets no reply |
| BotCommands.CaseSensitiveUpperTriggerNeverFires | bot.config.js:153-198 | a case-sensitive trigger with an upper-case letter never occurs in the lower-cased text |
| BotCommands.RespondCaseInsensitive | bot.config.js:150-175 | corrected dispatch: no reply to bots, and identical to the written one whenever the prefix has no upper-case letter |
| BotCommands.FirstWordOfWord | bot.config.js:166-167 | a word without white space is its own first word |
| BotCommands.TrimWord | bot.config.js:166 | a word without white space is unchanged by trimming |
| BotCommands.NameKey | bot.config.js:165-168 | a message that is the prefix followed by one word is looked up under its own lower-cased text |
| BotCommands.RegisteredCommandAnswers | bot.config.js:136-175 | with the corrected dispatch, typing an enabled command's name gets that command's reply |
| BotCommands.RegisteredCommandAnswersLowerPrefix | bot.config.js:136-175 | as written, typing an enabled command's name gets its reply when the prefix has no upper-case letter |
| BotCommands.HasPremium | bot.config.js:121 | premium exactly when some purchase is lifetime or costs at least 10 |
| BotCommands.RoleId | bot.config.js:84 | an unknown role type has no role id |
| BotCommands.AssignRole | bot.config.js:83-97 | false without a configured role id; true exactly when a role id is configured and the role was added |
| BotCommands.RolesToAssign | bot.config.js:115-125 | `customer` is asked for exactly when auto-assign is on, and `premium` exactly when some purchase is premium |
| BotCommands.CommandLineSingle | bot.config.js:371 | a command with single-line name and description gives a single line |
| BotCommands.CommandListLines | bot.config.js:371 | the list splits into exactly one line per enabled command, in configuration order |
| BotCommands.CommandListEmpty | bot.config.js:371 | with no enabled command the list is empty |
| BotCommands.CommandList | bot.config.js:371 | no enabled command gives the empty list; otherwise the list starts with the first enabled command's `- name: ` line |

## Left out

- **DOM work.** All DOM work is left out: modals, rendered HTML, alerts, tab and filter toggles, `displayLogs` slices, `updateBotStatus` and the 3D key animation. It has no state the model keeps.
- **Browser and library primitives.** `encodeURIComponent`, `URLSearchParams`, `JSON.parse`/`stringify`, Blob downloads, `window.open`, timers and `setInterval` are not modelled. Parsing outcomes are parameters: `Saved`, the `Option<ConfigPatch>` of an import, the URL and session secrets. A stored JSON value with a field explicitly set to `null` is not distinguished from an absent field.
- **Clock calls.** Several `Date.now()`/`new Date()` calls within one handler are taken as one instant. This applies to the id and timestamp of a pending record, and to the purchase date and key date.
- **Date formatting.** `toLocaleString`, `toLocaleDateString` and `toISOString` are parameters or calendar moments. No time-zone arithmetic is modelled.
- **Revenue.** The `parseFloat` sum and `toFixed(2)` of the revenue counter (admin.js:908,932) are floating point. They are left out.
- **Premium price.** `BotPurchase.price` is a real, and `HasPremium` compares it with 10 exactly.
- **Case and white space.** Case mapping and white space are ASCII only. Unicode case folding and Unicode spaces are not modelled.
- **Replacement patterns.** The `$` patterns that JavaScript expands inside a replacement string are not modelled. Replacement values are inserted literally.
- **Random text.** The lengths of the `Math.random` substrings (`substr(2, 9)`, `substring(2, 8)`, `substring(2, 6)`) are not enforced. The random parts are any base-36 text.
- **Asynchronous interleaving.** The interleaving of `checkAuth`, `handleCallback` and `getUserInfo` is not modelled. Each call runs to completion, and the profile fetch outcome is a parameter.
- **Transaction history.** `Ledger.HistoryOrder` states that the history is sorted newest first and is a permutation. It does not state that records with equal timestamps keep their relative order (the stability of `Array.prototype.sort`).
- **Account list display.** The account list display (`loadUserPurchases`, `updatePurchasesList`, `updateKeysList`) is left out apart from its labels. The same goes for `showKeyModal`, `saveKeyToAccount` (an alert only) and `exportTransactions` (a download).
- **Duplicate PayPal handler.** The second PayPal click handler in discord-auth.js (lines 402-430) scrapes the page and uses a timer. It is left out. Its only effect in scope is a `recordPurchase` call, which is modelled.
- **Simulated fetches.** The simulated channel and role fetches of the admin panel (admin.js:176-295) only build page content. They are left out. The role creation that follows them is modelled (`Admin.AdminPanel.CreateRole`).
- **Quick actions.** The test-message, sync-users, update-roles, refresh-status and log-export buttons are left out. They only alert, download, or refresh the page.
- **Webhook failure.** The failure branch of the simulated webhook test cannot be reached, because the simulated send never throws. It is not modelled.
- **Discord calls in the generated bot.** These are left out: fetching roles and channels, sending replies and embeds, presence updates, `removeRole`, and the purchase webhook. Whether a role was found and added is a parameter of `BotCommands.AssignRole`.
- **Storage failures.** Every browser-storage write is taken to succeed. When `saveConfig` fails, its `catch` calls `addLog`, which calls `saveConfig` again (admin.js:854-880). A write that keeps failing would therefore recurse without bound. This is not modelled.
- **Notification lifetime.** The close button and the 10-second timer of the pending notification remove it (script.js:483-497). They are not modelled: the notification on the page is a parameter, `shown`.
- **Other files.** `backend/server.js`, `backend/commands.js` and `frontend/admin.js` are not part of this model. They are Express, gateway and single `fetch` plumbing.

## Findings

| source | as written | input that shows it | evidently intended | confidence | as-written member | corrected member |
|---|---|---|---|---|---|---|
| bot.config.js:153-170 | the message is lower-cased before the prefix test and the lookup, but the prefix is not, so a prefix with an upper-case letter never matches | prefix `E!`, enabled command `E!help`, message `E!help`: the lower-cased text `e!help` does not start with `E!`, so no reply | compare with, and build the key from, the lower-cased prefix, so that every enabled command answers to its own name | medium (not executed) | BotCommands.UppercasePrefixBlocksCommands | BotCommands.RegisteredCommandAnswers |
| script.js:462-500 | the pending notification is created only when none is on the page; an existing one keeps its text and stays when the count drops to zero | one pending payment: the notification says `You have 1 pending transaction`; the payment is confirmed, the count is 0, the check leaves the notification as it was | refresh the notification on every check: show the current count, remove it at zero | medium (not executed) | Ledger.StaleNoticeSurvives | Ledger.RefreshedNoticeClearsOnConfirm |
| script.js:74-98 | every timed-key card's buy button has `data-type="timed"`, and that type is what the ledger key and the account key are built from | buy the 7-day card: the account key's type is `timed`, so `calculateExpiry` gives no expiry and the key is listed as `Lifetime` | the button carries the card's duration (`24h`, `7d`, `30d`) as its type, so the key expires after that duration | medium (not executed) | Checkout.TimedCardKeyShowsLifetime | Checkout.DurationCardKeyExpires |
