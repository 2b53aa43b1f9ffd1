# Instagram comment-to-DM automation: verified model

This project models the core of a small Instagram automation service in Dafny. Account owners connect an Instagram account and define two kinds of rules:

- **comment_to_dm** rules: when a comment on the owner's posts contains one of the rule's keywords, the owner's account sends the commenter a private reply.
- **auto_dm_reply** rules: when a direct message contains a trigger word, or when the rule has no trigger words at all, a reply text is generated.

Every reply is recorded in an activity log. The model covers:

- the Instagram webhook endpoint: the subscription handshake and the notification handler, including
  - the three-step account resolution for a comment;
  - the back-filling of the business id;
  - keyword and media matching;
  - statistics updates;
  - activity records;
  - the status the delivery is acknowledged with;
- the account disconnect cascade and the owner checks of the automation PATCH and DELETE routes;
- the storage layer the routes call, with the table records of the schema;
- the dashboard form that creates automations, its on/off switch and its reset;
- the OAuth callback addresses.

Layout:

| file | module | contents |
|---|---|---|
| `wrappers.dfy` | `Wrappers` | `Option` |
| `seqs.dfy` | `Seqs` | filter, first match, newest-first sort, prefix |
| `text.dfy` | `Text` | the JavaScript string operations the code uses: `toLowerCase`, `includes`, `trim`, `split`, `substring` |
| `schema.dfy` | `Schema` | table records, insert shapes and column defaults |
| `storage.dfy` | `Storage` | the tables as a value (`Tables`), one function per storage operation, the integrity invariant `ValidTables`, and the class `DatabaseStorage` |
| `http.dfy` | `Http` | status codes; the outcome of a handler: tables plus "an exception escaped" |
| `matching.dfy` | `Matching` | when a comment rule or a DM rule fires |
| `resolution.dfy` | `Resolution` | which account a comment notification belongs to |
| `webhook.dfy` | `Webhook` | the delivery format, the handshake, and the notification handler as functions from tables to tables |
| `webhook_properties.dfy` | `WebhookProperties` | what the handler guarantees |
| `webhook_handler.dfy` | `WebhookHandler` | the handler as the route runs it |
| `routes.dfy` | `Routes` | disconnect, PATCH and DELETE of automations |
| `automations_form.dfy` | `AutomationsForm` | the create form, the toggle, the reset |
| `callback.dfy` | `Callback` | the OAuth redirect addresses |

`DatabaseStorage` methods update the class's tables in place, one statement at a time. Each method is proved to leave exactly the state the matching function of `Storage` describes.

The `WebhookHandler` and `Routes` methods loop over entries, changes, events and rules against a `DatabaseStorage`. Each is proved to produce the tables and status that the function in `Webhook` or `Routes` prescribes. The properties are then proved about those functions.

## Model

| member | source | states |
|---|---|---|
| Schema.AccountRow | shared/schema.ts:13-27 | a stored account carries the inserted fields, `tokenType` defaults to "bearer", `isActive` defaults to true, and both timestamps are set to the insertion time |
| Schema.AutomationRow | shared/schema.ts:29-53 | a stored automation carries the inserted fields; `isActive` is false unless it was given as true; missing `stats` becomes the empty stats record |
| Schema.LogRow | shared/schema.ts:65-73 | a stored activity row carries the inserted user, automation, action, target and details, stamped with the insertion time |
| Storage.AccountById | server/storage.ts:75-78 | the row with that id when there is one; none exactly when no row has it |
| Storage.AccountsByUserId | server/storage.ts:80-82 | exactly the user's accounts |
| Storage.AccountByInstagramUserId | server/storage.ts:84-87 | some row with that Instagram user id; none exactly when no row has it |
| Storage.AccountByBusinessId | server/storage.ts:89-92 | some row with that business id; none exactly when no row has it |
| Storage.InsertAccount | server/storage.ts:94-97 | `createInstagramAccount`: appends the account row under a fresh id; its properties are in `Storage.InsertAccountValid` and `Storage.InsertAccountCanDuplicate` |
| Storage.UpsertAccount | server/storage.ts:99-123 | `upsertInstagramAccount`: refreshes the row of the same (user, Instagram user) pair, or inserts one; its effect is stated by `Storage.UpsertAccountEffect` and `Storage.UpsertKeepsPairsUnique` |
| Storage.UpsertAccountEffect | server/storage.ts:99-123 | with an existing row for the same (Instagram user, user) pair, only that row's token, expiry and update time change, and the row as it was is returned; otherwise exactly one row is inserted |
| Storage.UpsertKeepsPairsUnique | server/storage.ts:99-123 | upsert never creates a second row for the same (user, Instagram user) pair |
| Storage.InsertAccountCanDuplicate | server/storage.ts:94-97 | plain create does no such check and duplicates a pair that already exists |
| Storage.UpdateAccountToken | server/storage.ts:125-129 | only the token, expiry and update time of the row with that id change |
| Storage.SetBusinessId | server/storage.ts:131-135 | only the business id and update time of the row with that id change |
| Storage.SetPageToken | server/storage.ts:137-141 | only the page token, page id and update time of the row with that id change |
| Storage.RemoveAccount | server/storage.ts:143-145 | removes exactly the rows with that id; refused while an automation references the account |
| Storage.AutomationById | server/storage.ts:148-151 | the automation with that id when there is one; none exactly when no row has it |
| Storage.AutomationsByUserId | server/storage.ts:153-155 | exactly the user's automations, each as often as the table holds it, newest first |
| Storage.AutomationsByAccount | server/storage.ts:157-159 | exactly the account's automations, each as often as the table holds it, newest first |
| Storage.ActiveAutomations | server/storage.ts:161-163 | exactly the active automations of all accounts |
| Storage.InsertAutomation | server/storage.ts:165-171 | appends the row built from the insert, with missing stats replaced by the empty record, under a fresh id; refused when the account does not exist |
| Storage.Merge | server/storage.ts:173-177 | a shallow merge: each field the body gives (owner, account, kind, title, description, active flag, config, stats as a whole) replaces the stored one, every other field is kept, the id and creation time never change, and the update time is set |
| Storage.PatchAutomation | server/storage.ts:173-177 | only the row with that id changes, to the merge; refused only when the patch moves it to an account that does not exist |
| Storage.RemoveAutomation | server/storage.ts:179-181 | removes exactly the rows with that id; refused while an activity row references it |
| Storage.ActivityLogOf | server/storage.ts:197-202 | at most `limit` of the user's rows, newest first, none listed more often than the table holds it |
| Storage.ActivityLogNewest | server/storage.ts:197-202 | a row of the user's that is left out means the limit was reached and every row returned is at least as new |
| Storage.InsertLog | server/storage.ts:204-207 | appends the row under a fresh id; refused when it names an automation that does not exist |
| Storage.EmptyTablesValid | shared/schema.ts:13-73 | empty tables satisfy the integrity invariant: distinct ids below the id counter, every reference resolves |
| Storage.InsertAccountValid | server/storage.ts:94-97 | account creation keeps the invariant |
| Storage.UpsertAccountValid | server/storage.ts:99-123 | upsert keeps the invariant |
| Storage.UpdateAccountTokenValid | server/storage.ts:125-129 | a token update keeps the invariant |
| Storage.SetBusinessIdValid | server/storage.ts:131-135 | a business-id update keeps the invariant |
| Storage.SetPageTokenValid | server/storage.ts:137-141 | a page-token update keeps the invariant |
| Storage.RemoveAccountValid | server/storage.ts:143-145 | account deletion keeps the invariant |
| Storage.InsertAutomationValid | server/storage.ts:165-171 | automation creation keeps the invariant |
| Storage.PatchAutomationValid | server/storage.ts:173-177 | automation update keeps the invariant |
| Storage.RemoveAutomationValid | server/storage.ts:179-181 | automation deletion keeps the invariant |
| Storage.InsertLogValid | server/storage.ts:204-207 | recording activity keeps the invariant |
| Storage.AccountsRewrittenValid | server/storage.ts:125-141 | rewriting account rows in place under the same ids keeps the invariant |
| Storage.AutomationsRewrittenValid | server/storage.ts:173-177 | rewriting automation rows in place under the same ids, to existing accounts, keeps the invariant |
| Storage.SameIdSameAccount | shared/schema.ts:14 | under the invariant an account id names one row |
| Storage.SameIdSameAutomation | shared/schema.ts:30 | under the invariant an automation id names one row |
| Storage.PatchAutomationReadBack | server/storage.ts:173-177 | after an update, reading the automation back gives the merge, and every other row is kept |
| Storage.DatabaseStorage.constructor | server/storage.ts:57 | the store starts empty and valid |
| Storage.DatabaseStorage.CreateInstagramAccount | server/storage.ts:94-97 | the new state and the returned row are those of `InsertAccount`; the invariant holds |
| Storage.DatabaseStorage.UpsertInstagramAccount | server/storage.ts:99-123 | the new state and the returned row are those of `UpsertAccount`; the invariant holds |
| Storage.DatabaseStorage.UpdateInstagramAccountToken | server/storage.ts:125-129 | the new state is `UpdateAccountToken` of the old |
| Storage.DatabaseStorage.UpdateInstagramAccountBusinessId | server/storage.ts:131-135 | the new state is `SetBusinessId` of the old |
| Storage.DatabaseStorage.UpdateInstagramAccountPageToken | server/storage.ts:137-141 | the new state is `SetPageToken` of the old |
| Storage.DatabaseStorage.DeleteInstagramAccount | server/storage.ts:143-145 | the new state is `RemoveAccount` of the old, or unchanged when refused |
| Storage.DatabaseStorage.CreateAutomation | server/storage.ts:165-171 | the new state and row are those of `InsertAutomation`, or nothing changes when refused |
| Storage.DatabaseStorage.UpdateAutomation | server/storage.ts:173-177 | the new state is `PatchAutomation` of the old, or unchanged when refused |
| Storage.DatabaseStorage.DeleteAutomation | server/storage.ts:179-181 | the new state is `RemoveAutomation` of the old, or unchanged when refused |
| Storage.DatabaseStorage.CreateActivityLog | server/storage.ts:204-207 | the new state and row are those of `InsertLog`, or nothing changes when refused |
| Webhook.Handshake | server/routes.ts:453-464 | the subscription handshake; `WebhookProperties.HandshakeAccepts` states when it accepts |
| WebhookProperties.HandshakeAccepts | server/routes.ts:453-464 | the challenge is echoed with 200 exactly when the mode is "subscribe" and the token equals the secret; otherwise 403 and nothing is echoed; with no secret configured, a request without a token is accepted |
| Matching.CommentRuleFires | server/routes.ts:526-547 | an active comment_to_dm rule on the target media whose matched keyword is truthy; `Matching.CommentRuleFiresIff` characterises it |
| Matching.DmRuleFires | server/routes.ts:624-638 | an active auto_dm_reply rule with no trigger words or a trigger word in the message; `Matching.EmptyTriggerMatchesAll` and `Matching.DmRuleIgnoresCase` state its properties |
| Matching.FirstKeywordIn | server/routes.ts:541-545 | the found keyword is in the list and its lower-case form occurs in the text; nothing is found exactly when no keyword occurs |
| Matching.FirstKeywordAt | server/routes.ts:543-545 | the first keyword in list order that occurs is the one found |
| Matching.FirstKeywordIndex | server/routes.ts:543-545 | a found keyword sits at an index where it occurs and no earlier keyword does |
| Matching.CommentRuleFiresIff | server/routes.ts:526-547 | a comment rule fires exactly when it is an active comment_to_dm rule on the target media (or has none) and the first occurring keyword is non-empty; a rule without keywords never fires |
| Matching.EmptyKeywordBlocks | server/routes.ts:543-547 | an empty keyword is found in every text, so one reached before any matching keyword stops the rule from firing |
| Matching.CommentRuleIgnoresCase | server/routes.ts:542-544 | matching does not depend on the case of the comment |
| Matching.GuideRuleExample | server/routes.ts:526-547 | a rule with keyword "guide" fires on "Send me the GUIDE please" with "guide" as the matched keyword, and not on "no match here" |
| Matching.MediaFilterExample | server/routes.ts:534-539 | a rule targeting post-42 fires for a comment on post-42 and not for one on post-7 or one without media |
| Matching.AnyTriggerIn | server/routes.ts:635-636 | true exactly when some trigger word's lower-case form occurs in the text |
| Matching.EmptyTriggerMatchesAll | server/routes.ts:630-636 | an active DM rule with an empty trigger word answers every message |
| Matching.DmRuleIgnoresCase | server/routes.ts:634-636 | DM matching does not depend on the case of the message |
| Resolution.AccountByMediaRule | server/routes.ts:495-510 | the scan yields an existing account that some claiming rule belongs to, and yields none exactly when no claiming rule's account exists |
| Resolution.ResolveCommentAccount | server/routes.ts:486-516 | the business id wins, then the Instagram user id, then a media claim, whose account is that of an active comment rule claiming the media; nothing is resolved exactly when all three fail |
| Resolution.LinkedAccountResolvesDirectly | server/routes.ts:518-522 | after linking the business id, later comments for the same entry resolve to the linked account directly, whatever their media |
| Resolution.UnfilteredRuleClaimsUnknownEntries | server/routes.ts:494-510 | an active comment rule without a media filter makes comments for an unknown entry resolve to some account that matches the entry neither by business id nor by Instagram user id |
| Webhook.Bumped | server/routes.ts:572-580 | the reply count is the old one (absent counted as 0) plus one, and the last trigger time is the time of the delivery |
| Webhook.FireCommentRule | server/routes.ts:531-593 | one comment rule: send the private reply when the rule fires and the account has a token; on success bump the stats and log; `WebhookProperties.CommentRuleEffect` states its effect |
| Webhook.FireCommentRules | server/routes.ts:530-594 | the rules in order, each failure caught so the later rules still run; `WebhookProperties.FireCommentRulesEffect` states its full effect |
| Webhook.ProcessComment | server/routes.ts:481-594 | one comments change: resolve, link the business id, run the active comment rules, with the exceptions of a missing value; `WebhookProperties.ProcessCommentEffect` states its full effect for a change with a value |
| Webhook.ProcessChanges | server/routes.ts:478-600 | the changes in order, stopping at an exception; only "comments" changes act; `WebhookProperties.WellFormedChangesDoNotThrow` states when nothing is raised |
| Webhook.AnswerDmRule | server/routes.ts:629-659 | one DM rule: when it fires and a reply is generated, log a dm_auto_reply row; `WebhookProperties.DmRuleEffect` states its effect |
| Webhook.AnswerDmRules | server/routes.ts:628-660 | the DM rules in order, each failure caught; `WebhookProperties.AnswerDmRulesEffect` states its full effect |
| Webhook.ProcessMessage | server/routes.ts:606-661 | one messaging event with a sender and a text: the active DM rules of the account with that Instagram user id; `WebhookProperties.MessageEffect` states its full effect |
| Webhook.ProcessMessages | server/routes.ts:605-662 | the events in order; `WebhookProperties.ProcessMessagesEffect` states their full effect |
| Webhook.ProcessEntry | server/routes.ts:474-663 | one entry: its changes, then, unless an exception escaped, its messaging events |
| Webhook.ProcessEntries | server/routes.ts:473-664 | the entries in order, stopping at an exception; `WebhookProperties.WellFormedEntriesDoNotThrow` states when nothing is raised |
| Webhook.HandleDelivery | server/routes.ts:467-672 | the POST route: 200 for other objects, the entries for "instagram", 500 when an exception escaped; `WebhookProperties.AckStatus` states the statuses |
| WebhookProperties.WellFormedChangesDoNotThrow | server/routes.ts:478-600 | when every comments change carries a value, the change loop raises no exception |
| WebhookProperties.WellFormedEntriesDoNotThrow | server/routes.ts:473-664 | the same for all entries of a delivery |
| WebhookProperties.AckStatus | server/routes.ts:467-672 | the status is 200 or 500; other objects get 200 and leave the tables alone; a missing entry list gets 500; well-formed entries get 200 |
| WebhookProperties.MissingValueOnUnknownEntryFails | server/routes.ts:487-495 | a comments change without a value for an unknown entry throws before anything is written |
| WebhookProperties.MissingValueLinksBeforeFailing | server/routes.ts:518-542 | without a value, an account found by Instagram user id still gets its business id linked before the first rule throws |
| WebhookProperties.CommentRuleEffect | server/routes.ts:547-592 | a firing rule with a token whose reply is sent gets its stats replaced by the bumped stats and one comment_dm_sent row appended; in every other case nothing changes |
| WebhookProperties.FireCommentRuleFrame | server/routes.ts:550-592 | one rule's handling changes only that rule's row and appends only to the log |
| WebhookProperties.FireCommentRulesFrame | server/routes.ts:530-594 | the rule loop changes only the rows of the rules it walks |
| WebhookProperties.AutomationIdDeterminesRow | shared/schema.ts:30 | the row found by id is the rule the loop holds |
| WebhookProperties.CommentRulesOfMembers | server/routes.ts:524-528 | the walked rules are active comment_to_dm rules of the resolved account |
| WebhookProperties.CommentTouchesOnlyResolvedRules | server/routes.ts:481-594 | a comment with a value never throws; an unresolved comment changes nothing; only the resolved account's active comment rules change |
| WebhookProperties.CommentEntries | server/routes.ts:583-589 | one comment_dm_sent entry per rule, in the rules' order, naming the rule, the commenter and the matched keyword |
| WebhookProperties.Numbered | server/storage.ts:204-207 | entries inserted one after another become rows with consecutive ids from the next id, stamped with the time |
| WebhookProperties.RecordedTwice | server/storage.ts:204-207 | inserting two batches of entries one after the other is inserting them together: the ids run on |
| WebhookProperties.FireCommentRuleValid | server/routes.ts:547-592 | one rule's handling keeps the tables valid |
| WebhookProperties.FireCommentRulesEffect | server/routes.ts:530-594 | for distinct rules of the table: exactly the rules that fire, have a token and whose reply is sent get their rows bumped, and each gets one comment_dm_sent row, in rule order with consecutive ids; a rule whose send fails is skipped and the later ones still run; accounts and all other rows are unchanged and the tables stay valid |
| WebhookProperties.CommentRulesOfIdsDiffer | server/routes.ts:525-528 | the account's active comment rules are distinct rows of the table, so their ids differ |
| WebhookProperties.ProcessCommentSteps | server/routes.ts:481-530 | a comments change with a value resolves the account, links its business id, and runs the account's active comment rules as read before the link |
| WebhookProperties.AccountRulesEffect | server/routes.ts:524-594 | the effect of the loop over the account's active comment rules, on tables holding the same rules |
| WebhookProperties.LinkedRulesEffect | server/routes.ts:518-594 | the same effect after the business id has been linked |
| WebhookProperties.ProcessCommentEffect | server/routes.ts:481-594 | a comments change with a value never throws; with no account resolved nothing changes; otherwise the business id is linked when missing, exactly the account's active comment rules whose reply is sent are bumped, their comment_dm_sent rows are appended in rule order, and nothing else changes |
| WebhookProperties.FailedSendSkipsOnlyThatRule | server/routes.ts:549-591 | a rule whose send fails keeps its row and records nothing, while a later rule whose reply is sent is still bumped and recorded |
| WebhookProperties.OnlySecondSent | server/routes.ts:530-594 | of two rules, when only the second goes through, only the second is kept |
| WebhookProperties.DmRuleEffect | server/routes.ts:628-658 | a firing DM rule whose reply is generated appends one dm_auto_reply row with the first 50 characters of the message; nothing else changes, and stats never do |
| WebhookProperties.OnlyDmRecordsAddedTransitive | server/routes.ts:604-662 | "only DM records were appended" composes over consecutive steps |
| WebhookProperties.AnswerDmRulesAddsRecords | server/routes.ts:628-660 | the DM rule loop only appends dm_auto_reply rows |
| WebhookProperties.MessagesOnlyAddDmRecords | server/routes.ts:604-662 | messaging events only append dm_auto_reply rows; accounts and automations are untouched |
| WebhookProperties.DmEntries | server/routes.ts:648-654 | one dm_auto_reply entry per rule, in the rules' order, naming the rule, the sender and the start of the message |
| WebhookProperties.AnswerDmRulesEffect | server/routes.ts:628-660 | the DM rule loop appends exactly one dm_auto_reply row for each rule that fires and gets a reply, in rule order with consecutive ids; a rule whose reply is not generated is skipped and the later ones still run; nothing else changes |
| WebhookProperties.MessageEffect | server/routes.ts:606-661 | one messaging event appends exactly the rows of `EventEntries`: none without a sender, a text or an account with that Instagram user id, otherwise one per answered active DM rule of the account; nothing else changes |
| WebhookProperties.MessageEntriesFrame | server/routes.ts:614-625 | what an event records depends on the accounts and the rules only, not on earlier records |
| WebhookProperties.ProcessMessagesEffect | server/routes.ts:604-662 | the events of an entry append exactly their entries' rows, event after event, with consecutive ids, and change nothing else |
| WebhookHandler.ReplyToComment | server/routes.ts:530-594 | the loop over comment rules leaves the tables `FireCommentRules` describes |
| WebhookHandler.FindAccountByMedia | server/routes.ts:497-509 | the scan with its early exit returns what `AccountByMediaRule` describes |
| WebhookHandler.HandleComment | server/routes.ts:481-594 | one comments change leaves the tables and raises the exception `ProcessComment` describes |
| WebhookHandler.HandleChanges | server/routes.ts:477-601 | the change loop stops at an exception and otherwise matches `ProcessChanges` |
| WebhookHandler.ReplyToMessage | server/routes.ts:628-660 | the loop over DM rules leaves the tables `AnswerDmRules` describes |
| WebhookHandler.HandleMessages | server/routes.ts:604-663 | the messaging loop leaves the tables `ProcessMessages` describes |
| WebhookHandler.HandleWebhook | server/routes.ts:467-672 | the route leaves the tables and answers the status `HandleDelivery` describes |
| Routes.Disconnect | server/routes.ts:107-137 | the disconnect route: 404 without the owner, otherwise delete the account's automations then the account, 500 when a delete is refused; `Routes.DisconnectSucceeds`, `Routes.DisconnectFailsAfterActivity` and `Routes.DisconnectNeedsOwner` state its outcomes |
| Routes.DeleteAutomations | server/routes.ts:124-128 | the deletion loop; `Routes.DeleteAutomationsEffect` states its effect |
| Routes.PatchRoute | server/routes.ts:318-341 | the PATCH route; `Routes.PatchRouteEffect` states its outcomes |
| Routes.DeleteRoute | server/routes.ts:344-365 | the DELETE route; `Routes.DeleteRouteEffect` states its outcomes |
| Routes.OwnedAccount | server/routes.ts:117-118 | the caller's account with that id, or none exactly when the caller has no such account |
| Routes.DeleteAutomationsEffect | server/routes.ts:124-128 | the deletion loop removes exactly the listed rules, touches nothing else, and fails exactly when one of them is referenced by an activity row |
| Routes.DisconnectSucceeds | server/routes.ts:107-137 | a 200 disconnect came from the owner; afterwards the account and all its automations are gone and everything else is kept |
| Routes.DisconnectFailsAfterActivity | server/routes.ts:124-137 | once one of the account's rules has activity rows, disconnect answers 500 and the account stays |
| Routes.DisconnectNeedsOwner | server/routes.ts:112-122 | without a user, or when the caller owns no account with that id, the answer is 404 and nothing changes |
| Routes.DisconnectAccount | server/routes.ts:107-137 | the route's loop leaves the tables and answers the status `Disconnect` describes |
| Routes.OwnedAutomation | server/routes.ts:329-332 | an automation is only returned to its owner |
| Routes.OwnedAutomationIff | server/routes.ts:329-332 | the check passes exactly when there is a user and the automation with that id is theirs |
| Routes.PatchRouteEffect | server/routes.ts:318-341 | 404 for anyone but the owner; a move to a missing account gives 500; on 200 the automation reads back as the merge of the body, and other rows, accounts and log are kept |
| Routes.PatchCanChangeOwner | server/routes.ts:335-336 | the body is not filtered: an owner can hand an automation to another user |
| Routes.DeleteRouteEffect | server/routes.ts:344-365 | 404 for anyone but the owner; 500 while activity rows reference it; otherwise exactly that row is removed |
| Routes.PatchAutomationRoute | server/routes.ts:318-341 | the route leaves the tables and status `PatchRoute` describes and returns the row read back after the update |
| Routes.DeleteAutomationRoute | server/routes.ts:344-365 | the route leaves the tables and status `DeleteRoute` describes |
| AutomationsForm.CreateRequest | client/src/pages/Automations.tsx:156-189 | `handleCreateAutomation`: the validation and the request body; `AutomationsForm.CreateRequestChecks` states both |
| AutomationsForm.ParseKeywords | client/src/pages/Automations.tsx:183 | the keyword field split on commas, trimmed and lower-cased; `AutomationsForm.ParseKeywordsPieces` and `AutomationsForm.ParseKeywordsShape` state its result |
| AutomationsForm.ToggleRequest | client/src/pages/Automations.tsx:152-154 | `handleToggle`: a PATCH of `isActive` to the opposite of the shown state; `AutomationsForm.ToggleFlipsActive` states its effect |
| AutomationsForm.CreateRequestChecks | client/src/pages/Automations.tsx:156-189 | submits exactly when title and account are set and, for comment_to_dm, keywords and template too; otherwise the matching message; the request is switched off, copies the form, carries the parsed keywords and never trigger words |
| AutomationsForm.KeywordsOf | client/src/pages/Automations.tsx:183 | one keyword per piece, in order, each the piece trimmed and lower-cased |
| Text.TrimShape | client/src/pages/Automations.tsx:183 | `trim` keeps a contiguous slice of the text that neither starts nor ends with whitespace, and drops only whitespace around it |
| AutomationsForm.ParseKeywordsPieces | client/src/pages/Automations.tsx:183 | one keyword per comma-separated piece, in order: the comma-free pieces, joined with commas, give back the typed text, and each keyword is its piece trimmed and lower-cased |
| AutomationsForm.ParseKeywordsShape | client/src/pages/Automations.tsx:183 | an empty field gives no keywords; every keyword is lower-case, has no comma and no surrounding whitespace |
| AutomationsForm.KeywordShape | client/src/pages/Automations.tsx:183 | one piece, trimmed and lower-cased, is lower-case with no comma and no surrounding whitespace |
| AutomationsForm.ParseTwoKeywords | client/src/pages/Automations.tsx:183 | "a,b" gives the keywords of a and of b |
| AutomationsForm.ParseThreeKeywords | client/src/pages/Automations.tsx:183 | "a,b,c" gives the keywords of a, b and c |
| AutomationsForm.DoubledCommaKeywords | client/src/pages/Automations.tsx:183 | a doubled comma leaves an empty keyword in the list |
| AutomationsForm.DoubledCommaBlocksLaterKeywords | client/src/pages/Automations.tsx:183 | that empty keyword stops the later keywords: the rule fires for no comment that lacks the first keyword |
| AutomationsForm.FormDmRuleAnswersEveryMessage | client/src/pages/Automations.tsx:181-187 | a DM rule created with the form has no trigger words, so once switched on it answers every message |
| AutomationsForm.FormRuleStartsSwitchedOff | client/src/pages/Automations.tsx:180 | a created rule is inactive and fires on nothing |
| AutomationsForm.ResetFormCannotSubmit | client/src/pages/Automations.tsx:137-150 | the reset form cannot be submitted |
| AutomationsForm.AutomationsPage.ResetForm | client/src/pages/Automations.tsx:137-150 | the form is back to comment_to_dm with all fields empty, and no posts are listed |
| AutomationsForm.AutomationsPage.constructor | client/src/pages/Automations.tsx:137-150 | the page opens with the empty form and no posts |
| AutomationsForm.ToggleFlipsActive | client/src/pages/Automations.tsx:152-154 | the switch asks for the opposite state; the owner's automation reads back flipped, and a second press restores it |
| Callback.RequestHost | server/lib/instagram.ts:71 | the Host header, or "localhost:5000" when it is absent or empty |
| Callback.Scheme | server/lib/instagram.ts:72 | https for a secure request or a Replit host, the request's protocol otherwise |
| Callback.CallbackUrl | server/lib/instagram.ts:67-74 | the address ends with the path and starts with the configured host when one is set |
| Callback.InstagramCallbackUrl | server/lib/instagram.ts:67-74 | the address ends with the Instagram callback path |
| Callback.FacebookCallbackUrl | server/lib/instagram.ts:9-16 | the address ends with the Facebook callback path |
| Callback.ConfiguredHostIgnoresRequest | server/lib/instagram.ts:68-70 | a configured host makes the address independent of the request |
| Callback.ReplitHostUsesHttps | server/lib/instagram.ts:72-73 | a Replit host is addressed over https |
| Callback.OtherHostKeepsProtocol | server/lib/instagram.ts:72-73 | any other host keeps the request's protocol |
| Callback.DefaultCallbackUrl | server/lib/instagram.ts:71-73 | a plain http request without a Host header gets `http://localhost:5000` plus the path |
| Callback.CallbackUrlsDifferOnlyInPath | server/lib/instagram.ts:9-16 | the Facebook and Instagram addresses agree up to their paths |

## Left out

- Where the code and the written description of the service disagree, the model follows the code. The description says every notification is acknowledged with 200. The handler answers 500 when an exception escapes the per-rule try blocks, for example when the `entry` list is missing or a comments change has no `value`. The model answers 500 in those cases.
- Lower-casing is ASCII only (`Text.LowerChar`). JavaScript's full Unicode case mapping is not modelled.
- Storage failures are not modelled: the database is always reachable and every statement completes. The only refusals modelled are the schema's foreign keys:
  - an automation cannot name a missing account;
  - an activity row cannot name a missing automation;
  - a referenced row cannot be deleted.
- Ids are natural numbers from a counter rather than random UUIDs. Timestamps are integers. Each delivery is given one clock reading `now`.
- The private-reply request to Instagram and the reply generation are parameters (`Webhook.Services`). They are deterministic functions of their request, and each either succeeds or fails. The generated reply is not sent, in the model as in the code. Log output is left out.
- The users table and the session lookup of the signed-in user (`getUserByClerkId`) are not part of this model. The routes receive the caller's user id as an `Option<Id>`, where none means the 404 "User not found" path.
- The OAuth flows, the generated-content table and the other routes in `server/routes.ts` are not part of this model.
- The untyped JSON of `config` and `stats` is modelled by the typed records of the schema. In particular:
  - values of the wrong type (a keyword that is not a string, or a `totalReplies` that is not a number) are not modelled;
  - stats fields beyond `totalReplies` and `lastTriggered` are not kept.
- Storage.PatchAutomation: a PATCH body may only set the fields of `Storage.AutomationPatch`. It can set the account, owner, kind, title, description, active flag, config and stats. Writing `id`, `createdAt`, or a null `config` or `stats` through the body is not modelled.
- Automations with equal creation times are listed in table order. The database leaves their order unspecified.
- The active automations of all accounts are listed in table order. The query has no ORDER BY.
- The form never fills a DM rule's `triggerWords`; it stores the typed words in `keywords`. DM rules with trigger words are modelled as the handler reads them, whatever created them.
- Of the Automations page, only the form fields and the media list are modelled. Dialog state, media fetching and the toasts are left out.
- A webhook `changes` entry with field "messages" is ignored by the handler, and so by the model.
- The delivery is typed (`Webhook.Delivery`). Entries, changes and messaging events are never null, and ids and texts are strings or absent. In the source, some malformed payloads throw outside every try block and so get a 500. These cases cannot be written down in the model:
  - a null entry, read at `entry.id` (server/routes.ts:474);
  - a null change, read at `change.field` (server/routes.ts:479);
  - a comment text that is not a string, lower-cased at server/routes.ts:541;
  - a message text that is not a string, lower-cased at server/routes.ts:634.
- Text.Prefix: counts characters (Unicode code points), while `substring(0, 50)` at server/routes.ts:654 counts UTF-16 code units. For text outside the Basic Multilingual Plane the source keeps fewer characters in the DM log's `details`. It can also cut a surrogate pair in half, which a Dafny string cannot hold. Thirty emoji keep 25 in the source and 30 in the model.
- The foreign keys from `instagram_accounts`, `automations` and `activity_log` to the users table are not enforced, because that table is not part of this model. In the source, a PATCH that hands an automation to a user id with no row fails with 500. `Routes.PatchCanChangeOwner` answers 200 for any owner id.
