/** The Instagram webhook endpoint (server/routes.ts): the subscription handshake and the
    notification handler, as functions from the tables before a delivery to the tables after it
    and the status it is acknowledged with. The handler walks the entries of a delivery; in each
    entry it answers comment changes with a private reply per matching comment rule and direct
    messages with a generated reply per matching DM rule, recording each reply in the activity log.

    The two outside calls, the private-reply request to Instagram and the generation of a reply
    text, are parameters: each says whether it succeeded (a failure is the exception the handler
    catches per rule). The clock is a parameter too. */
module Webhook {
  import opened Wrappers
  import opened Seqs
  import opened Text
  import opened Schema
  import opened Storage
  import opened Matching
  import opened Resolution
  import opened Http

  // ---------------------------------------------------------------- the delivery

  /** The `value` of a comment change: the comment id, its text, its author's username and the
      id of the media it was left on, each possibly absent. */
  datatype CommentValue = CommentValue(
    id: Option<string>,
    text: Option<string>,
    fromUsername: Option<string>,
    mediaId: Option<string>)

  /** One change of an entry; `value` is absent when the payload has none. */
  datatype Change = Change(field: string, value: Option<CommentValue>)

  /** One messaging event, flattened to `sender?.id` and `message?.text`. */
  datatype MessagingEvent = MessagingEvent(senderId: Option<string>, text: Option<string>)

  /** One entry: the id of the Instagram account it is about and its optional lists. */
  datatype Entry = Entry(id: string, changes: Option<seq<Change>>, messaging: Option<seq<MessagingEvent>>)

  /** The request body: `object` and the optional `entry` list. */
  datatype Delivery = Delivery(objectKind: Option<string>, entries: Option<seq<Entry>>)

  const INSTAGRAM_OBJECT: string := "instagram"
  const COMMENTS_FIELD: string := "comments"
  const UNKNOWN_USERNAME: string := "unknown"
  const DM_PREVIEW_LENGTH: nat := 50

  // ---------------------------------------------------------------- outside calls

  /** `sendPrivateReply(accessToken, igBusinessId, commentId, message)`. */
  datatype SendRequest = SendRequest(accessToken: string, businessId: string, commentId: Option<string>, message: string)

  /** `generateAutoReply({ message, customPrompt })`. */
  datatype GenerateRequest = GenerateRequest(message: string, customPrompt: string)

  /** The outcome of each outside call: whether the reply was sent, and the generated text or
      None when generation failed. */
  datatype Services = Services(
    sendPrivateReply: SendRequest -> bool,
    generateAutoReply: GenerateRequest -> Option<string>)

  // ---------------------------------------------------------------- the handshake

  datatype HandshakeResponse = Challenge(body: Option<string>) | Refused

  /** The GET handshake: the challenge is echoed when the mode is `subscribe` and the token equals
      the configured secret, both read as possibly absent values; otherwise 403. */
  function Handshake(mode: Option<string>, token: Option<string>, challenge: Option<string>,
                     secret: Option<string>): HandshakeResponse
  {
    if mode == Some("subscribe") && token == secret then Challenge(challenge) else Refused
  }

  function HandshakeStatus(r: HandshakeResponse): int {
    if r.Challenge? then OK_STATUS else FORBIDDEN_STATUS
  }

  // ---------------------------------------------------------------- the notification handler

  /** `account.igBusinessAccountId || igUserId`, read from the account as it was resolved. */
  function ReplyBusinessId(acc: InstagramAccount, igUserId: string): string {
    if Given(acc.igBusinessAccountId) then acc.igBusinessAccountId.value else igUserId
  }

  /** The stats written after a reply: one more reply than recorded, last triggered now; the
      record is the one fetched for the loop. */
  function Bumped(s: AutomationStats, now: int): (r: AutomationStats)
    ensures r.totalReplies.Some? && r.totalReplies.value == s.totalReplies.GetOr(0) + 1
    ensures r.lastTriggered == Some(now)
  {
    AutomationStats(Some(s.totalReplies.GetOr(0) + 1), Some(now))
  }

  /** `commentData.from?.username || "unknown"`. */
  function CommentAuthor(c: CommentValue): string {
    if Given(c.fromUsername) then c.fromUsername.value else UNKNOWN_USERNAME
  }

  function CommentLogDetails(keyword: string): string {
    "Sent DM for keyword \"" + keyword + "\" on comment"
  }

  function DmLogDetails(text: string): string {
    "Auto-replied to DM: \"" + Prefix(text, DM_PREVIEW_LENGTH) + "...\""
  }

  /** The activity row recorded for a reply to a comment. */
  function CommentLogEntry(acc: InstagramAccount, a: Automation, c: CommentValue, keyword: string): NewActivityLogEntry {
    NewActivityLogEntry(acc.userId, Some(a.id), COMMENT_DM_SENT, Some(CommentAuthor(c)), Some(CommentLogDetails(keyword)))
  }

  /** The activity row recorded for a reply to a direct message. */
  function DmLogEntry(acc: InstagramAccount, a: Automation, sender: string, text: string): NewActivityLogEntry {
    NewActivityLogEntry(acc.userId, Some(a.id), DM_AUTO_REPLY, Some(sender), Some(DmLogDetails(text)))
  }

  /** The private reply a firing comment rule requests. */
  function ReplyRequest(acc: InstagramAccount, igUserId: string, c: CommentValue, a: Automation): SendRequest {
    SendRequest(acc.accessToken, ReplyBusinessId(acc, igUserId), c.id, MessageTemplate(a))
  }

  /** Records an activity row; a refused insert is an exception the rule's handler swallows. */
  function Record(t: Tables, e: NewActivityLogEntry, now: int): Tables {
    match InsertLog(t, e, now)
    case Some(w) => w.tables
    case None => t
  }

  /** One comment rule, inside its own try block: when it fires and the account has a token, the
      reply is requested; when that succeeds the rule's stats are bumped and the reply recorded.
      Any failure along the way ends the rule with whatever was already written. */
  function FireCommentRule(t: Tables, svc: Services, now: int, igUserId: string, acc: InstagramAccount,
                           c: CommentValue, a: Automation): Tables
  {
    if !CommentRuleFires(a, c.mediaId, c.text) || acc.accessToken == "" then t
    else if !svc.sendPrivateReply(ReplyRequest(acc, igUserId, c, a)) then t
    else
      var updated := PatchAutomation(t, a.id, StatsPatch(Bumped(a.stats, now)), now);
      Record(updated.value, CommentLogEntry(acc, a, c, MatchedKeyword(a, c.text).value), now)
  }

  /** The loop over the account's active comment rules, newest first. */
  function FireCommentRules(t: Tables, svc: Services, now: int, igUserId: string, acc: InstagramAccount,
                            c: CommentValue, rules: seq<Automation>): Tables
    decreases |rules|
  {
    if rules == [] then t
    else FireCommentRules(FireCommentRule(t, svc, now, igUserId, acc, c, rules[0]), svc, now, igUserId, acc, c, rules[1..])
  }

  /** The account's active comment rules, as the loop sees them (newest first). */
  function CommentRulesOf(t: Tables, accountId: Id): seq<Automation> {
    Filter(AutomationsByAccount(t, accountId), IsActiveCommentRule)
  }

  /** The account's active DM rules, newest first. */
  function DmRulesOf(t: Tables, accountId: Id): seq<Automation> {
    Filter(AutomationsByAccount(t, accountId), IsActiveDmRule)
  }

  /** A "comments" change on entry `igUserId`. Without a `value` the handler throws at the first
      place it reads the comment: in the media test of the third lookup step, or else at the first
      active comment rule, after the business id has been linked. */
  function ProcessComment(t: Tables, svc: Services, now: int, igUserId: string, value: Option<CommentValue>): Outcome {
    var mediaId := if value.Some? then value.value.mediaId else None;
    if AccountByBusinessId(t, igUserId).None? && AccountByInstagramUserId(t, igUserId).None? && value.None? then
      Outcome(t, true)
    else match ResolveCommentAccount(t, igUserId, mediaId)
      case None => Outcome(t, false)
      case Some(acc) =>
        var linked := if NeedsBusinessId(acc) then SetBusinessId(t, acc.id, igUserId, now) else t;
        var rules := CommentRulesOf(linked, acc.id);
        if value.None? then Outcome(linked, rules != [])
        else Outcome(FireCommentRules(linked, svc, now, igUserId, acc, value.value, rules), false)
  }

  /** The loop over an entry's changes; only "comments" changes do anything. */
  function ProcessChanges(t: Tables, svc: Services, now: int, igUserId: string, changes: seq<Change>): Outcome
    decreases |changes|
  {
    if changes == [] then Outcome(t, false)
    else if changes[0].field != COMMENTS_FIELD then ProcessChanges(t, svc, now, igUserId, changes[1..])
    else
      var o := ProcessComment(t, svc, now, igUserId, changes[0].value);
      if o.thrown then o else ProcessChanges(o.tables, svc, now, igUserId, changes[1..])
  }

  /** One DM rule, inside its own try block: when it fires a reply is generated and, when that
      succeeds, recorded (the reply itself is not sent). */
  function AnswerDmRule(t: Tables, svc: Services, now: int, acc: InstagramAccount, sender: string, text: string,
                        a: Automation): Tables
  {
    if !DmRuleFires(a, text) then t
    else if svc.generateAutoReply(GenerateRequest(text, Prompt(a))).None? then t
    else Record(t, DmLogEntry(acc, a, sender, text), now)
  }

  /** The loop over the account's active DM rules, newest first. */
  function AnswerDmRules(t: Tables, svc: Services, now: int, acc: InstagramAccount, sender: string, text: string,
                         rules: seq<Automation>): Tables
    decreases |rules|
  {
    if rules == [] then t
    else AnswerDmRules(AnswerDmRule(t, svc, now, acc, sender, text, rules[0]), svc, now, acc, sender, text, rules[1..])
  }

  /** A messaging event: ignored without a sender or a text, or when no account has the entry's
      Instagram user id (direct messages never use the business id). */
  function ProcessMessage(t: Tables, svc: Services, now: int, igUserId: string, ev: MessagingEvent): Tables {
    if !Given(ev.senderId) || !Given(ev.text) then t
    else match AccountByInstagramUserId(t, igUserId)
      case None => t
      case Some(acc) => AnswerDmRules(t, svc, now, acc, ev.senderId.value, ev.text.value, DmRulesOf(t, acc.id))
  }

  function ProcessMessages(t: Tables, svc: Services, now: int, igUserId: string, events: seq<MessagingEvent>): Tables
    decreases |events|
  {
    if events == [] then t
    else ProcessMessages(ProcessMessage(t, svc, now, igUserId, events[0]), svc, now, igUserId, events[1..])
  }

  /** One entry: its changes, then its messaging events. */
  function ProcessEntry(t: Tables, svc: Services, now: int, e: Entry): Outcome {
    var o := if e.changes.Some? then ProcessChanges(t, svc, now, e.id, e.changes.value) else Outcome(t, false);
    if o.thrown then o
    else if e.messaging.Some? then Outcome(ProcessMessages(o.tables, svc, now, e.id, e.messaging.value), false)
    else o
  }

  function ProcessEntries(t: Tables, svc: Services, now: int, entries: seq<Entry>): Outcome
    decreases |entries|
  {
    if entries == [] then Outcome(t, false)
    else
      var o := ProcessEntry(t, svc, now, entries[0]);
      if o.thrown then o else ProcessEntries(o.tables, svc, now, entries[1..])
  }

  /** The POST handler: deliveries about anything but Instagram are acknowledged untouched; an
      exception outside the per-rule try blocks is answered with 500, after the writes made before it. */
  function HandleDelivery(t: Tables, svc: Services, now: int, d: Delivery): Response {
    if d.objectKind != Some(INSTAGRAM_OBJECT) then Response(t, OK_STATUS)
    else if d.entries.None? then Response(t, ERROR_STATUS)
    else
      var o := ProcessEntries(t, svc, now, d.entries.value);
      Response(o.tables, if o.thrown then ERROR_STATUS else OK_STATUS)
  }
}
