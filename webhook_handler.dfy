/** The notification handler as the route runs it: loops over entries, changes, messaging events
    and rules that read and write the shared store one statement at a time. Each method is proved
    to leave the store in the state the corresponding function of module Webhook describes, and
    to report an exception that escapes the per-rule try blocks as `thrown`. */
module WebhookHandler {
  import opened Wrappers
  import opened Seqs
  import opened Schema
  import opened Storage
  import opened Matching
  import opened Resolution
  import opened Webhook
  import opened Http

  /** The loop over one comment's active rules. */
  method ReplyToComment(db: DatabaseStorage, svc: Services, now: int, igUserId: string, acc: InstagramAccount,
                        c: CommentValue, rules: seq<Automation>)
    requires db.Valid()
    modifies db
    ensures db.Valid()
    ensures db.State() == FireCommentRules(old(db.State()), svc, now, igUserId, acc, c, rules)
  {
    var i := 0;
    while i < |rules|
      invariant 0 <= i <= |rules|
      invariant db.Valid()
      invariant FireCommentRules(old(db.State()), svc, now, igUserId, acc, c, rules)
             == FireCommentRules(db.State(), svc, now, igUserId, acc, c, rules[i..])
    {
      var a := rules[i];
      ghost var before := db.State();
      if CommentRuleFires(a, c.mediaId, c.text) && acc.accessToken != "" {
        var sent := svc.sendPrivateReply(ReplyRequest(acc, igUserId, c, a));
        if sent {
          var _ := db.UpdateAutomation(a.id, StatsPatch(Bumped(a.stats, now)), now);
          var _ := db.CreateActivityLog(CommentLogEntry(acc, a, c, MatchedKeyword(a, c.text).value), now);
        }
      }
      assert db.State() == FireCommentRule(before, svc, now, igUserId, acc, c, a);
      assert rules[i..][1..] == rules[i + 1..];
      i := i + 1;
    }
  }

  /** The third lookup step: the scan over all active rules, stopping at the first claiming rule
      whose account exists. */
  method FindAccountByMedia(db: DatabaseStorage, mediaId: string) returns (account: Option<InstagramAccount>)
    ensures account == AccountByMediaRule(db.State(), ActiveAutomations(db.State()), mediaId)
  {
    var rules := db.GetAllActiveAutomations();
    account := None;
    var i := 0;
    while i < |rules| && account.None?
      invariant 0 <= i <= |rules|
      invariant account.None? ==>
        AccountByMediaRule(db.State(), rules, mediaId) == AccountByMediaRule(db.State(), rules[i..], mediaId)
      invariant account.Some? ==> account == AccountByMediaRule(db.State(), rules, mediaId)
    {
      var a := rules[i];
      if ClaimsMedia(a, mediaId) {
        account := db.GetInstagramAccount(a.instagramAccountId);
      }
      assert rules[i..][1..] == rules[i + 1..];
      i := i + 1;
    }
  }

  /** A "comments" change: resolve the account, link its business id when it has none, and run
      the account's active comment rules. */
  method HandleComment(db: DatabaseStorage, svc: Services, now: int, igUserId: string, value: Option<CommentValue>)
    returns (thrown: bool)
    requires db.Valid()
    modifies db
    ensures db.Valid()
    ensures Outcome(db.State(), thrown) == ProcessComment(old(db.State()), svc, now, igUserId, value)
  {
    var account := db.GetInstagramAccountByBusinessId(igUserId);
    if account.None? {
      account := db.GetInstagramAccountByInstagramUserId(igUserId);
    }
    if account.None? {
      if value.None? {
        return true;
      }
      if Given(value.value.mediaId) {
        account := FindAccountByMedia(db, value.value.mediaId.value);
      }
    }
    if account.None? {
      return false;
    }
    var acc := account.value;
    if NeedsBusinessId(acc) {
      db.UpdateInstagramAccountBusinessId(acc.id, igUserId, now);
    }
    var rules := Filter(db.GetAutomationsByInstagramAccountId(acc.id), IsActiveCommentRule);
    if value.None? {
      return rules != [];
    }
    ReplyToComment(db, svc, now, igUserId, acc, value.value, rules);
    return false;
  }

  /** The loop over an entry's changes; an exception ends it. */
  method HandleChanges(db: DatabaseStorage, svc: Services, now: int, igUserId: string, changes: seq<Change>)
    returns (thrown: bool)
    requires db.Valid()
    modifies db
    ensures db.Valid()
    ensures Outcome(db.State(), thrown) == ProcessChanges(old(db.State()), svc, now, igUserId, changes)
  {
    thrown := false;
    var i := 0;
    while i < |changes| && !thrown
      invariant 0 <= i <= |changes|
      invariant db.Valid()
      invariant !thrown ==>
        ProcessChanges(old(db.State()), svc, now, igUserId, changes) == ProcessChanges(db.State(), svc, now, igUserId, changes[i..])
      invariant thrown ==> ProcessChanges(old(db.State()), svc, now, igUserId, changes) == Outcome(db.State(), true)
    {
      var change := changes[i];
      ghost var before := db.State();
      assert changes[i..][0] == change && changes[i..][1..] == changes[i + 1..];
      if change.field == COMMENTS_FIELD {
        thrown := HandleComment(db, svc, now, igUserId, change.value);
        assert Outcome(db.State(), thrown) == ProcessComment(before, svc, now, igUserId, change.value);
      }
      i := i + 1;
    }
  }

  /** The loop over the active DM rules of the account a message was sent to. */
  method ReplyToMessage(db: DatabaseStorage, svc: Services, now: int, acc: InstagramAccount, sender: string, text: string,
                        rules: seq<Automation>)
    requires db.Valid()
    modifies db
    ensures db.Valid()
    ensures db.State() == AnswerDmRules(old(db.State()), svc, now, acc, sender, text, rules)
  {
    var i := 0;
    while i < |rules|
      invariant 0 <= i <= |rules|
      invariant db.Valid()
      invariant AnswerDmRules(old(db.State()), svc, now, acc, sender, text, rules)
             == AnswerDmRules(db.State(), svc, now, acc, sender, text, rules[i..])
    {
      var a := rules[i];
      ghost var before := db.State();
      if DmRuleFires(a, text) {
        var reply := svc.generateAutoReply(GenerateRequest(text, Prompt(a)));
        if reply.Some? {
          var _ := db.CreateActivityLog(DmLogEntry(acc, a, sender, text), now);
        }
      }
      assert db.State() == AnswerDmRule(before, svc, now, acc, sender, text, a);
      assert rules[i..][1..] == rules[i + 1..];
      i := i + 1;
    }
  }

  /** The loop over an entry's messaging events. */
  method HandleMessages(db: DatabaseStorage, svc: Services, now: int, igUserId: string, events: seq<MessagingEvent>)
    requires db.Valid()
    modifies db
    ensures db.Valid()
    ensures db.State() == ProcessMessages(old(db.State()), svc, now, igUserId, events)
  {
    var i := 0;
    while i < |events|
      invariant 0 <= i <= |events|
      invariant db.Valid()
      invariant ProcessMessages(old(db.State()), svc, now, igUserId, events)
             == ProcessMessages(db.State(), svc, now, igUserId, events[i..])
    {
      var ev := events[i];
      ghost var before := db.State();
      if Given(ev.senderId) && Given(ev.text) {
        var account := db.GetInstagramAccountByInstagramUserId(igUserId);
        if account.Some? {
          var rules := Filter(db.GetAutomationsByInstagramAccountId(account.value.id), IsActiveDmRule);
          ReplyToMessage(db, svc, now, account.value, ev.senderId.value, ev.text.value, rules);
        }
      }
      assert db.State() == ProcessMessage(before, svc, now, igUserId, ev);
      assert events[i..][1..] == events[i + 1..];
      i := i + 1;
    }
  }

  /** The POST route: walks the entries, and answers 500 when an exception escaped. */
  method HandleWebhook(db: DatabaseStorage, svc: Services, now: int, d: Delivery) returns (status: int)
    requires db.Valid()
    modifies db
    ensures db.Valid()
    ensures Response(db.State(), status) == HandleDelivery(old(db.State()), svc, now, d)
  {
    if d.objectKind != Some(INSTAGRAM_OBJECT) {
      return OK_STATUS;
    }
    if d.entries.None? {
      return ERROR_STATUS;
    }
    var entries := d.entries.value;
    var thrown := false;
    var i := 0;
    while i < |entries| && !thrown
      invariant 0 <= i <= |entries|
      invariant db.Valid()
      invariant !thrown ==>
        ProcessEntries(old(db.State()), svc, now, entries) == ProcessEntries(db.State(), svc, now, entries[i..])
      invariant thrown ==> ProcessEntries(old(db.State()), svc, now, entries) == Outcome(db.State(), true)
    {
      var entry := entries[i];
      ghost var before := db.State();
      if entry.changes.Some? {
        thrown := HandleChanges(db, svc, now, entry.id, entry.changes.value);
      }
      if !thrown && entry.messaging.Some? {
        HandleMessages(db, svc, now, entry.id, entry.messaging.value);
      }
      assert Outcome(db.State(), thrown) == ProcessEntry(before, svc, now, entry);
      assert entries[i..][1..] == entries[i + 1..];
      i := i + 1;
    }
    status := if thrown then ERROR_STATUS else OK_STATUS;
  }
}
