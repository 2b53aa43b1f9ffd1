/** What the webhook handler guarantees, and the quirks it has, stated over the functions of
    module Webhook. */
module WebhookProperties {
  import opened Wrappers
  import opened Seqs
  import opened Schema
  import opened Storage
  import opened Matching
  import opened Resolution
  import opened Webhook
  import opened Http

  // ---------------------------------------------------------------- handshake

  /** The challenge is echoed exactly when the mode is `subscribe` and the token equals the
      secret; with no secret configured, a request that carries no token is accepted. */
  lemma HandshakeAccepts(mode: Option<string>, token: Option<string>, challenge: Option<string>, secret: Option<string>)
    ensures var r := Handshake(mode, token, challenge, secret);
      (r.Challenge? <==> mode == Some("subscribe") && token == secret) &&
      (r.Challenge? ==> r.body == challenge && HandshakeStatus(r) == OK_STATUS) &&
      (r.Refused? ==> HandshakeStatus(r) == FORBIDDEN_STATUS)
    ensures secret.None? && mode == Some("subscribe") && token.None? ==> Handshake(mode, token, challenge, secret).Challenge?
  {
  }

  // ---------------------------------------------------------------- acknowledgement

  /** Every "comments" change carries a value. */
  predicate CommentsCarryValues(changes: seq<Change>) {
    forall i :: 0 <= i < |changes| && changes[i].field == COMMENTS_FIELD ==> changes[i].value.Some?
  }

  predicate EntriesWellFormed(entries: seq<Entry>) {
    forall i :: 0 <= i < |entries| && entries[i].changes.Some? ==> CommentsCarryValues(entries[i].changes.value)
  }

  lemma {:induction false} WellFormedChangesDoNotThrow(t: Tables, svc: Services, now: int, igUserId: string, changes: seq<Change>)
    requires CommentsCarryValues(changes)
    ensures !ProcessChanges(t, svc, now, igUserId, changes).thrown
    decreases |changes|
  {
    if changes != [] {
      assert CommentsCarryValues(changes[1..]) by {
        forall i | 0 <= i < |changes[1..]| && changes[1..][i].field == COMMENTS_FIELD
          ensures changes[1..][i].value.Some?
        {
          assert changes[1..][i] == changes[i + 1];
        }
      }
      if changes[0].field == COMMENTS_FIELD {
        var o := ProcessComment(t, svc, now, igUserId, changes[0].value);
        WellFormedChangesDoNotThrow(o.tables, svc, now, igUserId, changes[1..]);
      } else {
        WellFormedChangesDoNotThrow(t, svc, now, igUserId, changes[1..]);
      }
    }
  }

  lemma {:induction false} WellFormedEntriesDoNotThrow(t: Tables, svc: Services, now: int, entries: seq<Entry>)
    requires EntriesWellFormed(entries)
    ensures !ProcessEntries(t, svc, now, entries).thrown
    decreases |entries|
  {
    if entries != [] {
      var e := entries[0];
      if e.changes.Some? {
        WellFormedChangesDoNotThrow(t, svc, now, e.id, e.changes.value);
      }
      var o := ProcessEntry(t, svc, now, e);
      assert EntriesWellFormed(entries[1..]) by {
        forall i | 0 <= i < |entries[1..]| && entries[1..][i].changes.Some?
          ensures CommentsCarryValues(entries[1..][i].changes.value)
        {
          assert entries[1..][i] == entries[i + 1];
        }
      }
      WellFormedEntriesDoNotThrow(o.tables, svc, now, entries[1..]);
    }
  }

  /** The handler answers 200 or 500: other objects are acknowledged untouched, a delivery without
      an entry list fails, and a delivery whose comment changes all carry a value succeeds. */
  lemma AckStatus(t: Tables, svc: Services, now: int, d: Delivery)
    ensures var r := HandleDelivery(t, svc, now, d);
      (r.status == OK_STATUS || r.status == ERROR_STATUS) &&
      (d.objectKind != Some(INSTAGRAM_OBJECT) ==> r == Response(t, OK_STATUS)) &&
      (d.objectKind == Some(INSTAGRAM_OBJECT) && d.entries.None? ==> r == Response(t, ERROR_STATUS)) &&
      (d.objectKind == Some(INSTAGRAM_OBJECT) && d.entries.Some? && EntriesWellFormed(d.entries.value) ==>
         r.status == OK_STATUS)
  {
    if d.objectKind == Some(INSTAGRAM_OBJECT) && d.entries.Some? && EntriesWellFormed(d.entries.value) {
      WellFormedEntriesDoNotThrow(t, svc, now, d.entries.value);
    }
  }

  /** A "comments" change without a value, on an entry no account knows by business id or user
      id, fails the whole delivery with nothing written for it. */
  lemma MissingValueOnUnknownEntryFails(t: Tables, svc: Services, now: int, igUserId: string)
    requires !HasBusinessId(t, igUserId) && !HasInstagramUserId(t, igUserId)
    ensures ProcessComment(t, svc, now, igUserId, None) == Outcome(t, true)
  {
  }

  /** A "comments" change without a value, on an entry known by user id only: the business id is
      linked first, and the handler then fails exactly when the account has an active comment rule;
      the link stays written either way. */
  lemma MissingValueLinksBeforeFailing(t: Tables, svc: Services, now: int, igUserId: string, acc: InstagramAccount)
    requires !HasBusinessId(t, igUserId) && AccountByInstagramUserId(t, igUserId) == Some(acc)
    requires igUserId != "" && NeedsBusinessId(acc)
    ensures var linked := SetBusinessId(t, acc.id, igUserId, now);
      ProcessComment(t, svc, now, igUserId, None) == Outcome(linked, CommentRulesOf(linked, acc.id) != [])
    ensures SetBusinessId(t, acc.id, igUserId, now).accounts != t.accounts
  {
    var k :| 0 <= k < |t.accounts| && t.accounts[k] == acc;
    var linked := SetBusinessId(t, acc.id, igUserId, now);
    assert linked.accounts[k].igBusinessAccountId == Some(igUserId);
  }

  // ---------------------------------------------------------------- comment replies

  /** A rule's row after its reply went out: one more reply, triggered and updated now. */
  function BumpedRule(a: Automation, now: int): Automation {
    a.(stats := Bumped(a.stats, now), updatedAt := now)
  }

  /** What one comment rule does: when it fires, the account has a token and the reply goes out,
      the rule's stats are bumped (one more reply, triggered now), one activity row is appended,
      and nothing else changes; in every other case nothing changes at all. */
  lemma CommentRuleEffect(t: Tables, svc: Services, now: int, igUserId: string, acc: InstagramAccount,
                          c: CommentValue, a: Automation)
    requires ValidTables(t) && a in t.automations
    ensures var r := FireCommentRule(t, svc, now, igUserId, acc, c, a);
      if CommentRuleFires(a, c.mediaId, c.text) && acc.accessToken != "" && svc.sendPrivateReply(ReplyRequest(acc, igUserId, c, a))
      then
        r.accounts == t.accounts && |r.automations| == |t.automations| &&
        (forall k :: 0 <= k < |t.automations| ==>
          r.automations[k] == if t.automations[k].id == a.id then BumpedRule(a, now) else t.automations[k]) &&
        r.activityLog == t.activityLog + [LogRow(CommentLogEntry(acc, a, c, MatchedKeyword(a, c.text).value), t.nextId, now)] &&
        r.nextId == t.nextId + 1
      else r == t
  {
    if CommentRuleFires(a, c.mediaId, c.text) && acc.accessToken != "" && svc.sendPrivateReply(ReplyRequest(acc, igUserId, c, a)) {
      var p := StatsPatch(Bumped(a.stats, now));
      var u := PatchAutomation(t, a.id, p, now).value;
      var j :| 0 <= j < |t.automations| && t.automations[j] == a;
      forall k | 0 <= k < |t.automations| && t.automations[k].id == a.id
        ensures k == j
      {
      }
      assert u.automations[j].id == a.id;
      assert HasAutomation(u, a.id);
    }
  }

  /** `r` differs from `t` only in automation rows whose id is one of `rules`' ids and in rows
      appended to the activity log. */
  ghost predicate OnlyRulesChanged(t: Tables, r: Tables, rules: seq<Automation>) {
    r.accounts == t.accounts && |r.automations| == |t.automations| &&
    (forall k :: 0 <= k < |t.automations| ==> r.automations[k].id == t.automations[k].id) &&
    (forall k :: 0 <= k < |t.automations| && r.automations[k] != t.automations[k] ==>
      exists a :: a in rules && a.id == t.automations[k].id) &&
    t.activityLog <= r.activityLog
  }

  lemma FireCommentRuleFrame(t: Tables, svc: Services, now: int, igUserId: string, acc: InstagramAccount,
                             c: CommentValue, a: Automation)
    ensures OnlyRulesChanged(t, FireCommentRule(t, svc, now, igUserId, acc, c, a), [a])
  {
  }

  /** The loop over the comment rules writes nothing but the stats of those rules and new activity rows. */
  lemma {:induction false} FireCommentRulesFrame(t: Tables, svc: Services, now: int, igUserId: string, acc: InstagramAccount,
                                                 c: CommentValue, rules: seq<Automation>)
    ensures OnlyRulesChanged(t, FireCommentRules(t, svc, now, igUserId, acc, c, rules), rules)
    decreases |rules|
  {
    if rules != [] {
      var t1 := FireCommentRule(t, svc, now, igUserId, acc, c, rules[0]);
      var r := FireCommentRules(t1, svc, now, igUserId, acc, c, rules[1..]);
      FireCommentRuleFrame(t, svc, now, igUserId, acc, c, rules[0]);
      FireCommentRulesFrame(t1, svc, now, igUserId, acc, c, rules[1..]);
      forall k | 0 <= k < |t.automations| && r.automations[k] != t.automations[k]
        ensures exists a :: a in rules && a.id == t.automations[k].id
      {
        if t1.automations[k] != t.automations[k] {
          assert rules[0] in rules && rules[0].id == t.automations[k].id;
        } else {
          var a :| a in rules[1..] && a.id == t1.automations[k].id;
          assert a in rules;
        }
      }
    }
  }

  /** In valid tables a row is determined by its id. */
  lemma AutomationIdDeterminesRow(t: Tables, a: Automation, k: nat)
    requires ValidTables(t) && a in t.automations && k < |t.automations| && t.automations[k].id == a.id
    ensures t.automations[k] == a
  {
    var j :| 0 <= j < |t.automations| && t.automations[j] == a;
    forall m | 0 <= m < |t.automations| && t.automations[m].id == a.id
      ensures m == j
    {
    }
  }

  lemma CommentRulesOfMembers(t: Tables, accountId: Id)
    ensures forall a :: a in CommentRulesOf(t, accountId) ==>
      a in t.automations && IsActiveCommentRule(a) && a.instagramAccountId == accountId
  {
  }

  /** A comment notification bumps the stats of no rule but the active comment rules of the
      account it was resolved to; when no account is resolved it writes nothing. */
  lemma {:induction false} CommentTouchesOnlyResolvedRules(t: Tables, svc: Services, now: int, igUserId: string, c: CommentValue)
    requires ValidTables(t)
    ensures var r := ProcessComment(t, svc, now, igUserId, Some(c));
      var acc := ResolveCommentAccount(t, igUserId, c.mediaId);
      !r.thrown && |r.tables.automations| == |t.automations| &&
      (acc.None? ==> r.tables == t) &&
      (forall k :: 0 <= k < |t.automations| && r.tables.automations[k] != t.automations[k] ==>
        acc.Some? && IsActiveCommentRule(t.automations[k]) && t.automations[k].instagramAccountId == acc.value.id)
  {
    var acc := ResolveCommentAccount(t, igUserId, c.mediaId);
    if acc.Some? {
      var linked := if NeedsBusinessId(acc.value) then SetBusinessId(t, acc.value.id, igUserId, now) else t;
      assert linked.automations == t.automations;
      var rules := CommentRulesOf(linked, acc.value.id);
      var r := FireCommentRules(linked, svc, now, igUserId, acc.value, c, rules);
      assert ProcessComment(t, svc, now, igUserId, Some(c)) == Outcome(r, false);
      FireCommentRulesFrame(linked, svc, now, igUserId, acc.value, c, rules);
      CommentRulesOfMembers(linked, acc.value.id);
      forall k | 0 <= k < |t.automations| && r.automations[k] != t.automations[k]
        ensures IsActiveCommentRule(t.automations[k]) && t.automations[k].instagramAccountId == acc.value.id
      {
        var a :| a in rules && a.id == t.automations[k].id;
        AutomationIdDeterminesRow(t, a, k);
      }
    }
  }

  // ---------------------------------------------------------------- recorded activity

  /** The activity rows `entries` become when inserted one after another from id `id`. */
  function Numbered(entries: seq<NewActivityLogEntry>, id: Id, now: int): (r: seq<ActivityLogEntry>)
    ensures |r| == |entries|
    ensures forall i :: 0 <= i < |entries| ==> r[i] == LogRow(entries[i], id + i, now)
  {
    seq(|entries|, i requires 0 <= i < |entries| => LogRow(entries[i], id + i, now))
  }

  /** `t` after `entries` are inserted into the activity log, one after another, and nothing else. */
  function Recorded(t: Tables, entries: seq<NewActivityLogEntry>, now: int): Tables {
    t.(activityLog := t.activityLog + Numbered(entries, t.nextId, now), nextId := t.nextId + |entries|)
  }

  lemma RecordedNothing(t: Tables, now: int)
    ensures Recorded(t, [], now) == t
  {
    assert t.activityLog + [] == t.activityLog;
  }

  lemma RecordedOne(t: Tables, e: NewActivityLogEntry, now: int)
    ensures Recorded(t, [e], now) == t.(activityLog := t.activityLog + [LogRow(e, t.nextId, now)], nextId := t.nextId + 1)
  {
    assert Numbered([e], t.nextId, now) == [LogRow(e, t.nextId, now)];
  }

  lemma NumberedAppend(a: seq<NewActivityLogEntry>, b: seq<NewActivityLogEntry>, id: Id, next: Id, now: int)
    requires next == id + |a|
    ensures Numbered(a + b, id, now) == Numbered(a, id, now) + Numbered(b, next, now)
  {
    var l := Numbered(a + b, id, now);
    var r := Numbered(a, id, now) + Numbered(b, next, now);
    forall i | 0 <= i < |a + b|
      ensures l[i] == r[i]
    {
      if i >= |a| {
        assert (a + b)[i] == b[i - |a|];
      }
    }
  }

  /** Recording two batches of entries is recording them together: the ids run on. */
  lemma RecordedTwice(t: Tables, a: seq<NewActivityLogEntry>, b: seq<NewActivityLogEntry>, now: int)
    ensures Recorded(Recorded(t, a, now), b, now) == Recorded(t, a + b, now)
  {
    var x := Numbered(a, t.nextId, now);
    var y := Numbered(b, t.nextId + |a|, now);
    NumberedAppend(a, b, t.nextId, t.nextId + |a|, now);
    assert t.activityLog + x + y == t.activityLog + (x + y);
  }

  // ---------------------------------------------------------------- the comment rule loop, in full

  /** A comment rule goes through for comment `c`: it fires, the account has a token and the
      private reply is sent. */
  function CommentSent(svc: Services, igUserId: string, acc: InstagramAccount, c: CommentValue): Automation -> bool {
    (a: Automation) => CommentRuleFires(a, c.mediaId, c.text) && acc.accessToken != "" &&
                       svc.sendPrivateReply(ReplyRequest(acc, igUserId, c, a))
  }

  /** The entries recorded for replying to comment `c` with the rules `s`, one per rule, in order. */
  function CommentEntries(acc: InstagramAccount, c: CommentValue, s: seq<Automation>): (r: seq<NewActivityLogEntry>)
    ensures |r| == |s|
    ensures forall i :: 0 <= i < |s| ==> r[i] == CommentLogEntry(acc, s[i], c, MatchedKeyword(s[i], c.text).GetOr(""))
    decreases |s|
  {
    if s == [] then []
    else [CommentLogEntry(acc, s[0], c, MatchedKeyword(s[0], c.text).GetOr(""))] + CommentEntries(acc, c, s[1..])
  }

  lemma FireCommentRuleValid(t: Tables, svc: Services, now: int, igUserId: string, acc: InstagramAccount,
                             c: CommentValue, a: Automation)
    requires ValidTables(t) && a in t.automations
    ensures ValidTables(FireCommentRule(t, svc, now, igUserId, acc, c, a))
  {
    if CommentRuleFires(a, c.mediaId, c.text) && acc.accessToken != "" && svc.sendPrivateReply(ReplyRequest(acc, igUserId, c, a)) {
      var p := StatsPatch(Bumped(a.stats, now));
      var j :| 0 <= j < |t.automations| && t.automations[j] == a;
      assert HasAutomation(t, a.id);
      var u := PatchAutomation(t, a.id, p, now).value;
      PatchAutomationValid(t, a.id, p, now);
      assert u.automations[j].id == a.id;
      var e := CommentLogEntry(acc, a, c, MatchedKeyword(a, c.text).value);
      assert InsertLog(u, e, now).Some?;
      InsertLogValid(u, e, now);
      assert FireCommentRule(t, svc, now, igUserId, acc, c, a) == InsertLog(u, e, now).value.tables;
    }
  }

  /** Changing the rules and then recording, twice over, is recording both batches. */
  lemma RecordedWithRules(t: Tables, t1: Tables, r: Tables, a: seq<NewActivityLogEntry>, b: seq<NewActivityLogEntry>, now: int)
    requires t1 == Recorded(t, a, now).(automations := t1.automations)
    requires r == Recorded(t1, b, now).(automations := r.automations)
    ensures r == Recorded(t, a + b, now).(automations := r.automations)
  {
    RecordedTwice(t, a, b, now);
  }

  /** The rules after the first keep their rows when only the first one's row changes. */
  lemma LaterRules(t: Tables, t1: Tables, rules: seq<Automation>)
    requires rules != [] && (forall a :: a in rules ==> a in t.automations) && Pairwise(rules, AutomationIdsDiffer)
    requires |t1.automations| == |t.automations|
    requires forall k :: 0 <= k < |t.automations| && t.automations[k].id != rules[0].id ==> t1.automations[k] == t.automations[k]
    ensures forall b :: b in rules[1..] ==> b.id != rules[0].id && b in t1.automations
    ensures Pairwise(rules[1..], AutomationIdsDiffer)
  {
    var rest := rules[1..];
    forall b | b in rest
      ensures b.id != rules[0].id && b in t1.automations
    {
      var i :| 0 <= i < |rest| && rest[i] == b;
      assert rules[i + 1] == b;
      assert b in rules;
      var k :| 0 <= k < |t.automations| && t.automations[k] == b;
      assert t1.automations[k] == b;
    }
    forall i, j | 0 <= i < j < |rest|
      ensures AutomationIdsDiffer(rest[i], rest[j])
    {
      assert rest[i] == rules[i + 1] && rest[j] == rules[j + 1];
    }
  }

  /** One row through the loop: bumped by the first rule or by a later one, never by both. */
  lemma RowAfterRules(x: Automation, y: Automation, z: Automation, a: Automation, fired: bool,
                      sent: seq<Automation>, sentRest: seq<Automation>, now: int)
    requires x.id == a.id ==> x == a
    requires y == if x.id == a.id && fired then BumpedRule(a, now) else x
    requires z == if y in sentRest then BumpedRule(y, now) else y
    requires forall b :: b in sentRest ==> b.id != a.id
    requires forall b :: b in sent <==> (b == a && fired) || b in sentRest
    ensures z == if x in sent then BumpedRule(x, now) else x
  {
    if x.id == a.id {
      assert y !in sentRest;
    }
  }

  /** The first rule's effect followed by the rest's is the effect of all of them. */
  lemma FirstRuleThenRest(t: Tables, t1: Tables, r: Tables, a: Automation, fired: bool, e: NewActivityLogEntry,
                          sent: seq<Automation>, sentRest: seq<Automation>,
                          restEntries: seq<NewActivityLogEntry>, entries: seq<NewActivityLogEntry>, now: int)
    requires ValidTables(t) && a in t.automations
    requires fired ==>
      t1.accounts == t.accounts && |t1.automations| == |t.automations| &&
      (forall k :: 0 <= k < |t.automations| ==>
        t1.automations[k] == if t.automations[k].id == a.id then BumpedRule(a, now) else t.automations[k]) &&
      t1.activityLog == t.activityLog + [LogRow(e, t.nextId, now)] && t1.nextId == t.nextId + 1
    requires !fired ==> t1 == t
    requires |r.automations| == |t1.automations|
    requires forall k :: 0 <= k < |t1.automations| ==>
      r.automations[k] == if t1.automations[k] in sentRest then BumpedRule(t1.automations[k], now) else t1.automations[k]
    requires r == Recorded(t1, restEntries, now).(automations := r.automations)
    requires forall b :: b in sentRest ==> b.id != a.id
    requires forall b :: b in sent <==> (b == a && fired) || b in sentRest
    requires fired ==> entries == [e] + restEntries
    requires !fired ==> entries == restEntries
    ensures |r.automations| == |t.automations|
    ensures forall k :: 0 <= k < |t.automations| ==>
      r.automations[k] == if t.automations[k] in sent then BumpedRule(t.automations[k], now) else t.automations[k]
    ensures r == Recorded(t, entries, now).(automations := r.automations)
  {
    if fired {
      RecordedOne(t, e, now);
      RecordedWithRules(t, t1, r, [e], restEntries, now);
    } else {
      RecordedNothing(t, now);
      assert [] + restEntries == restEntries;
      RecordedWithRules(t, t1, r, [], restEntries, now);
    }
    forall k | 0 <= k < |t.automations|
      ensures r.automations[k] == if t.automations[k] in sent then BumpedRule(t.automations[k], now) else t.automations[k]
    {
      if t.automations[k].id == a.id {
        AutomationIdDeterminesRow(t, a, k);
      }
      RowAfterRules(t.automations[k], t1.automations[k], r.automations[k], a, fired, sent, sentRest, now);
    }
  }

  /** What the first of distinct rules leaves for the others: valid tables in which their rows
      are as they were, and either nothing changed or exactly the first rule's row was bumped and
      its activity row recorded. */
  lemma FirstCommentRule(t: Tables, svc: Services, now: int, igUserId: string, acc: InstagramAccount,
                         c: CommentValue, rules: seq<Automation>)
    requires rules != [] && ValidTables(t) && (forall a :: a in rules ==> a in t.automations) && Pairwise(rules, AutomationIdsDiffer)
    ensures var a := rules[0];
      var t1 := FireCommentRule(t, svc, now, igUserId, acc, c, a);
      var e := CommentLogEntry(acc, a, c, MatchedKeyword(a, c.text).GetOr(""));
      ValidTables(t1) && (forall b :: b in rules[1..] ==> b.id != a.id && b in t1.automations) &&
      Pairwise(rules[1..], AutomationIdsDiffer) &&
      (CommentSent(svc, igUserId, acc, c)(a) ==>
        t1.accounts == t.accounts && |t1.automations| == |t.automations| &&
        (forall k :: 0 <= k < |t.automations| ==>
          t1.automations[k] == if t.automations[k].id == a.id then BumpedRule(a, now) else t.automations[k]) &&
        t1.activityLog == t.activityLog + [LogRow(e, t.nextId, now)] && t1.nextId == t.nextId + 1) &&
      (!CommentSent(svc, igUserId, acc, c)(a) ==> t1 == t)
  {
    var a := rules[0];
    var t1 := FireCommentRule(t, svc, now, igUserId, acc, c, a);
    CommentRuleEffect(t, svc, now, igUserId, acc, c, a);
    FireCommentRuleValid(t, svc, now, igUserId, acc, c, a);
    LaterRules(t, t1, rules);
  }

  /** Which of `a` followed by `rest` go through, and what they record. */
  lemma SentSplit(svc: Services, igUserId: string, acc: InstagramAccount, c: CommentValue, rules: seq<Automation>)
    requires rules != []
    ensures var p := CommentSent(svc, igUserId, acc, c);
      var a := rules[0];
      var sent := Filter(rules, p);
      var sentRest := Filter(rules[1..], p);
      var e := CommentLogEntry(acc, a, c, MatchedKeyword(a, c.text).GetOr(""));
      (forall b :: b in sent <==> (b == a && p(a)) || b in sentRest) &&
      (p(a) ==> CommentEntries(acc, c, sent) == [e] + CommentEntries(acc, c, sentRest)) &&
      (!p(a) ==> CommentEntries(acc, c, sent) == CommentEntries(acc, c, sentRest))
  {
    var p := CommentSent(svc, igUserId, acc, c);
    var a := rules[0];
    var sentRest := Filter(rules[1..], p);
    assert rules == [a] + rules[1..];
    if p(a) {
      assert Filter(rules, p) == [a] + sentRest;
      assert ([a] + sentRest)[1..] == sentRest;
    } else {
      assert Filter(rules, p) == sentRest;
    }
  }

  /** The loop over distinct comment rules: every rule whose reply goes out has its row bumped and
      one activity row recorded, in rule order with consecutive ids; a rule whose send fails is
      skipped and the later rules still run; every other row, every account and everything else is
      unchanged, and the tables stay valid. */
  lemma {:induction false} FireCommentRulesEffect(t: Tables, svc: Services, now: int, igUserId: string, acc: InstagramAccount,
                                                  c: CommentValue, rules: seq<Automation>)
    requires ValidTables(t) && (forall a :: a in rules ==> a in t.automations) && Pairwise(rules, AutomationIdsDiffer)
    ensures var r := FireCommentRules(t, svc, now, igUserId, acc, c, rules);
      var sent := Filter(rules, CommentSent(svc, igUserId, acc, c));
      ValidTables(r) && |r.automations| == |t.automations| &&
      (forall k :: 0 <= k < |t.automations| ==>
        r.automations[k] == if t.automations[k] in sent then BumpedRule(t.automations[k], now) else t.automations[k]) &&
      r == Recorded(t, CommentEntries(acc, c, sent), now).(automations := r.automations)
    decreases |rules|
  {
    if rules == [] {
      RecordedNothing(t, now);
    } else {
      var p := CommentSent(svc, igUserId, acc, c);
      var a := rules[0];
      var t1 := FireCommentRule(t, svc, now, igUserId, acc, c, a);
      var r := FireCommentRules(t1, svc, now, igUserId, acc, c, rules[1..]);
      assert FireCommentRules(t, svc, now, igUserId, acc, c, rules) == r;
      FirstCommentRule(t, svc, now, igUserId, acc, c, rules);
      FireCommentRulesEffect(t1, svc, now, igUserId, acc, c, rules[1..]);
      SentSplit(svc, igUserId, acc, c, rules);
      var sentRest := Filter(rules[1..], p);
      assert forall b :: b in sentRest ==> b.id != a.id;
      FirstRuleThenRest(t, t1, r, a, p(a), CommentLogEntry(acc, a, c, MatchedKeyword(a, c.text).GetOr("")),
                        Filter(rules, p), sentRest, CommentEntries(acc, c, sentRest), CommentEntries(acc, c, Filter(rules, p)), now);
    }
  }

  /** The active comment rules of an account are distinct rows of the table, so their ids differ. */
  lemma CommentRulesOfIdsDiffer(t: Tables, accountId: Id)
    requires ValidTables(t)
    ensures Pairwise(CommentRulesOf(t, accountId), AutomationIdsDiffer)
  {
    var rules := CommentRulesOf(t, accountId);
    assert Distinct(t.automations);
    SubMultisetDistinct(t.automations, rules);
    CommentRulesOfMembers(t, accountId);
    forall i, j | 0 <= i < j < |rules|
      ensures AutomationIdsDiffer(rules[i], rules[j])
    {
      if rules[i].id == rules[j].id {
        SameIdSameAutomation(t, rules[i], rules[j]);
      }
    }
  }

  /** The steps of a comment notification with a value: resolve the account, link its business id,
      run its active comment rules (those of `t`: linking changes no rule). */
  lemma ProcessCommentSteps(t: Tables, svc: Services, now: int, igUserId: string, c: CommentValue)
    ensures var acc := ResolveCommentAccount(t, igUserId, c.mediaId);
      ProcessComment(t, svc, now, igUserId, Some(c)) ==
        if acc.None? then Outcome(t, false)
        else
          var linked := if NeedsBusinessId(acc.value) then SetBusinessId(t, acc.value.id, igUserId, now) else t;
          Outcome(FireCommentRules(linked, svc, now, igUserId, acc.value, c, CommentRulesOf(t, acc.value.id)), false)
  {
    var acc := ResolveCommentAccount(t, igUserId, c.mediaId);
    if acc.Some? {
      var linked := if NeedsBusinessId(acc.value) then SetBusinessId(t, acc.value.id, igUserId, now) else t;
      assert linked.automations == t.automations;
      assert CommentRulesOf(linked, acc.value.id) == CommentRulesOf(t, acc.value.id);
    }
  }

  /** The account's active comment rules of `t`, run on tables `u` that hold the same rules. */
  lemma AccountRulesEffect(t: Tables, u: Tables, svc: Services, now: int, igUserId: string, acc: InstagramAccount, c: CommentValue)
    requires ValidTables(t) && ValidTables(u) && u.automations == t.automations
    ensures var r := FireCommentRules(u, svc, now, igUserId, acc, c, CommentRulesOf(t, acc.id));
      var sent := Filter(CommentRulesOf(t, acc.id), CommentSent(svc, igUserId, acc, c));
      |r.automations| == |t.automations| &&
      (forall k :: 0 <= k < |t.automations| ==>
        r.automations[k] == if t.automations[k] in sent then BumpedRule(t.automations[k], now) else t.automations[k]) &&
      r == Recorded(u, CommentEntries(acc, c, sent), now).(automations := r.automations)
  {
    CommentRulesOfMembers(t, acc.id);
    CommentRulesOfIdsDiffer(t, acc.id);
    FireCommentRulesEffect(u, svc, now, igUserId, acc, c, CommentRulesOf(t, acc.id));
  }

  /** The rules of account `acc` run on the tables where its business id has been linked. */
  lemma LinkedRulesEffect(t: Tables, svc: Services, now: int, igUserId: string, acc: InstagramAccount, c: CommentValue)
    requires ValidTables(t)
    ensures var linked := if NeedsBusinessId(acc) then SetBusinessId(t, acc.id, igUserId, now) else t;
      var r := FireCommentRules(linked, svc, now, igUserId, acc, c, CommentRulesOf(t, acc.id));
      var sent := Filter(CommentRulesOf(t, acc.id), CommentSent(svc, igUserId, acc, c));
      |r.automations| == |t.automations| &&
      (forall k :: 0 <= k < |t.automations| ==>
        r.automations[k] == if t.automations[k] in sent then BumpedRule(t.automations[k], now) else t.automations[k]) &&
      r == Recorded(linked, CommentEntries(acc, c, sent), now).(automations := r.automations)
  {
    var linked := if NeedsBusinessId(acc) then SetBusinessId(t, acc.id, igUserId, now) else t;
    SetBusinessIdValid(t, acc.id, igUserId, now);
    AccountRulesEffect(t, linked, svc, now, igUserId, acc, c);
  }

  /** A comment notification with a value, end to end: it never fails; with no account resolved
      nothing changes; otherwise the account's business id is linked when it had none, every active
      comment rule of the account whose reply goes out has its row bumped and its activity row
      recorded, in rule order, and nothing else changes. */
  lemma ProcessCommentEffect(t: Tables, svc: Services, now: int, igUserId: string, c: CommentValue)
    requires ValidTables(t)
    ensures var out := ProcessComment(t, svc, now, igUserId, Some(c));
      var acc := ResolveCommentAccount(t, igUserId, c.mediaId);
      !out.thrown && (acc.None? ==> out.tables == t) &&
      (acc.Some? ==>
        var linked := if NeedsBusinessId(acc.value) then SetBusinessId(t, acc.value.id, igUserId, now) else t;
        var sent := Filter(CommentRulesOf(t, acc.value.id), CommentSent(svc, igUserId, acc.value, c));
        |out.tables.automations| == |t.automations| &&
        (forall k :: 0 <= k < |t.automations| ==>
          out.tables.automations[k] == if t.automations[k] in sent then BumpedRule(t.automations[k], now) else t.automations[k]) &&
        out.tables == Recorded(linked, CommentEntries(acc.value, c, sent), now).(automations := out.tables.automations))
  {
    var acc := ResolveCommentAccount(t, igUserId, c.mediaId);
    ProcessCommentSteps(t, svc, now, igUserId, c);
    if acc.Some? {
      LinkedRulesEffect(t, svc, now, igUserId, acc.value, c);
    }
  }

  /** A rule whose reply fails to send is skipped without stopping the loop: its row stays as it
      was while a later rule that goes through is bumped and recorded. */
  lemma FailedSendSkipsOnlyThatRule(t: Tables, svc: Services, now: int, igUserId: string, acc: InstagramAccount,
                                    c: CommentValue, failing: Automation, working: Automation, k: nat, m: nat)
    requires ValidTables(t) && k < |t.automations| && m < |t.automations|
    requires t.automations[k] == failing && t.automations[m] == working
    requires CommentRuleFires(failing, c.mediaId, c.text) && !svc.sendPrivateReply(ReplyRequest(acc, igUserId, c, failing))
    requires CommentSent(svc, igUserId, acc, c)(working)
    ensures var r := FireCommentRules(t, svc, now, igUserId, acc, c, [failing, working]);
      |r.automations| == |t.automations| && r.automations[k] == failing && r.automations[m] == BumpedRule(working, now) &&
      r.activityLog == t.activityLog + [LogRow(CommentLogEntry(acc, working, c, MatchedKeyword(working, c.text).GetOr("")), t.nextId, now)]
  {
    var p := CommentSent(svc, igUserId, acc, c);
    assert failing.id != working.id by {
      if failing.id == working.id {
        AutomationIdDeterminesRow(t, working, k);
      }
    }
    FireCommentRulesEffect(t, svc, now, igUserId, acc, c, [failing, working]);
    OnlySecondSent([failing, working], p);
    var e := CommentLogEntry(acc, working, c, MatchedKeyword(working, c.text).GetOr(""));
    assert CommentEntries(acc, c, [working]) == [e];
    RecordedOne(t, e, now);
  }

  lemma OnlySecondSent(rules: seq<Automation>, p: Automation -> bool)
    requires |rules| == 2 && !p(rules[0]) && p(rules[1])
    ensures Filter(rules, p) == [rules[1]]
  {
    assert rules[1..][1..] == [];
  }

  // ---------------------------------------------------------------- direct-message replies

  /** What one DM rule does: when it fires and a reply is generated, one activity row is appended
      (nothing is sent and no stats change); otherwise nothing changes. */
  lemma DmRuleEffect(t: Tables, svc: Services, now: int, acc: InstagramAccount, sender: string, text: string, a: Automation)
    requires a in t.automations
    ensures var r := AnswerDmRule(t, svc, now, acc, sender, text, a);
      if DmRuleFires(a, text) && svc.generateAutoReply(GenerateRequest(text, Prompt(a))).Some?
      then r == t.(activityLog := t.activityLog + [LogRow(DmLogEntry(acc, a, sender, text), t.nextId, now)], nextId := t.nextId + 1)
      else r == t
  {
    assert HasAutomation(t, a.id);
  }

  /** `r` differs from `t` only by activity rows appended, each a DM reply record. */
  ghost predicate OnlyDmRecordsAdded(t: Tables, r: Tables) {
    r == t.(activityLog := r.activityLog, nextId := r.nextId) &&
    t.activityLog <= r.activityLog &&
    forall k :: |t.activityLog| <= k < |r.activityLog| ==> r.activityLog[k].action == DM_AUTO_REPLY
  }

  lemma OnlyDmRecordsAddedTransitive(t: Tables, u: Tables, r: Tables)
    requires OnlyDmRecordsAdded(t, u) && OnlyDmRecordsAdded(u, r)
    ensures OnlyDmRecordsAdded(t, r)
  {
    forall k | |t.activityLog| <= k < |r.activityLog|
      ensures r.activityLog[k].action == DM_AUTO_REPLY
    {
      if k < |u.activityLog| {
        assert r.activityLog[k] == u.activityLog[k];
      }
    }
  }

  lemma {:induction false} AnswerDmRulesAddsRecords(t: Tables, svc: Services, now: int, acc: InstagramAccount, sender: string,
                                                    text: string, rules: seq<Automation>)
    ensures OnlyDmRecordsAdded(t, AnswerDmRules(t, svc, now, acc, sender, text, rules))
    decreases |rules|
  {
    if rules != [] {
      var t1 := AnswerDmRule(t, svc, now, acc, sender, text, rules[0]);
      assert OnlyDmRecordsAdded(t, t1);
      AnswerDmRulesAddsRecords(t1, svc, now, acc, sender, text, rules[1..]);
      OnlyDmRecordsAddedTransitive(t, t1, AnswerDmRules(t1, svc, now, acc, sender, text, rules[1..]));
    }
  }

  /** Direct messages never touch accounts or rules (no stats are kept for DM replies): they only
      append DM reply records to the activity log. */
  lemma {:induction false} MessagesOnlyAddDmRecords(t: Tables, svc: Services, now: int, igUserId: string, events: seq<MessagingEvent>)
    ensures OnlyDmRecordsAdded(t, ProcessMessages(t, svc, now, igUserId, events))
    decreases |events|
  {
    if events != [] {
      var ev := events[0];
      var t1 := ProcessMessage(t, svc, now, igUserId, ev);
      if Given(ev.senderId) && Given(ev.text) && AccountByInstagramUserId(t, igUserId).Some? {
        var acc := AccountByInstagramUserId(t, igUserId).value;
        AnswerDmRulesAddsRecords(t, svc, now, acc, ev.senderId.value, ev.text.value, DmRulesOf(t, acc.id));
      }
      MessagesOnlyAddDmRecords(t1, svc, now, igUserId, events[1..]);
      OnlyDmRecordsAddedTransitive(t, t1, ProcessMessages(t1, svc, now, igUserId, events[1..]));
    }
  }

  /** A DM rule answers `text`: it fires on it and a reply is generated for it. */
  function DmAnswered(svc: Services, text: string): Automation -> bool {
    (a: Automation) => DmRuleFires(a, text) && svc.generateAutoReply(GenerateRequest(text, Prompt(a))).Some?
  }

  /** The entries recorded for answering `text` from `sender` with the rules `s`, one per rule, in order. */
  function DmEntries(acc: InstagramAccount, sender: string, text: string, s: seq<Automation>): (r: seq<NewActivityLogEntry>)
    ensures |r| == |s|
    ensures forall i :: 0 <= i < |s| ==> r[i] == DmLogEntry(acc, s[i], sender, text)
    decreases |s|
  {
    if s == [] then [] else [DmLogEntry(acc, s[0], sender, text)] + DmEntries(acc, sender, text, s[1..])
  }

  lemma DmRulesOfMembers(t: Tables, accountId: Id)
    ensures forall a :: a in DmRulesOf(t, accountId) ==>
      a in t.automations && IsActiveDmRule(a) && a.instagramAccountId == accountId
  {
  }

  /** The loop over the DM rules records one row for every rule that fires and gets a reply, in
      rule order, with consecutive ids, and changes nothing else: a rule whose reply is not
      generated is skipped and the later rules still run. */
  lemma {:induction false} AnswerDmRulesEffect(t: Tables, svc: Services, now: int, acc: InstagramAccount, sender: string,
                                               text: string, rules: seq<Automation>)
    requires forall a :: a in rules ==> a in t.automations
    ensures AnswerDmRules(t, svc, now, acc, sender, text, rules) ==
      Recorded(t, DmEntries(acc, sender, text, Filter(rules, DmAnswered(svc, text))), now)
    decreases |rules|
  {
    if rules == [] {
      RecordedNothing(t, now);
    } else {
      var a := rules[0];
      var t1 := AnswerDmRule(t, svc, now, acc, sender, text, a);
      DmRuleEffect(t, svc, now, acc, sender, text, a);
      AnswerDmRulesEffect(t1, svc, now, acc, sender, text, rules[1..]);
      var rest := Filter(rules[1..], DmAnswered(svc, text));
      if DmAnswered(svc, text)(a) {
        var e := DmLogEntry(acc, a, sender, text);
        assert Filter(rules, DmAnswered(svc, text)) == [a] + rest;
        RecordedOne(t, e, now);
        assert ([a] + rest)[1..] == rest;
        RecordedTwice(t, [e], DmEntries(acc, sender, text, rest), now);
      } else {
        assert Filter(rules, DmAnswered(svc, text)) == rest;
      }
    }
  }

  /** The entries one messaging event records: none unless it has a sender and text and the entry
      id is an account's Instagram user id; otherwise one per active DM rule of that account that
      fires and gets a reply. */
  function EventEntries(t: Tables, svc: Services, igUserId: string, ev: MessagingEvent): seq<NewActivityLogEntry> {
    if !Given(ev.senderId) || !Given(ev.text) then []
    else match AccountByInstagramUserId(t, igUserId)
      case None => []
      case Some(acc) => DmEntries(acc, ev.senderId.value, ev.text.value, Filter(DmRulesOf(t, acc.id), DmAnswered(svc, ev.text.value)))
  }

  /** One messaging event records its entries and changes nothing else. */
  lemma MessageEffect(t: Tables, svc: Services, now: int, igUserId: string, ev: MessagingEvent)
    ensures ProcessMessage(t, svc, now, igUserId, ev) == Recorded(t, EventEntries(t, svc, igUserId, ev), now)
  {
    if Given(ev.senderId) && Given(ev.text) && AccountByInstagramUserId(t, igUserId).Some? {
      var acc := AccountByInstagramUserId(t, igUserId).value;
      DmRulesOfMembers(t, acc.id);
      AnswerDmRulesEffect(t, svc, now, acc, ev.senderId.value, ev.text.value, DmRulesOf(t, acc.id));
    } else {
      RecordedNothing(t, now);
    }
  }

  /** The entries a list of messaging events records, event by event. */
  function MessageEntries(t: Tables, svc: Services, igUserId: string, events: seq<MessagingEvent>): seq<NewActivityLogEntry>
    decreases |events|
  {
    if events == [] then []
    else EventEntries(t, svc, igUserId, events[0]) + MessageEntries(t, svc, igUserId, events[1..])
  }

  /** The entries depend on the accounts and the rules, not on the activity already recorded. */
  lemma {:induction false} MessageEntriesFrame(t: Tables, u: Tables, svc: Services, igUserId: string, events: seq<MessagingEvent>)
    requires u.accounts == t.accounts && u.automations == t.automations
    ensures MessageEntries(u, svc, igUserId, events) == MessageEntries(t, svc, igUserId, events)
    decreases |events|
  {
    if events != [] {
      assert EventEntries(u, svc, igUserId, events[0]) == EventEntries(t, svc, igUserId, events[0]);
      MessageEntriesFrame(t, u, svc, igUserId, events[1..]);
    }
  }

  /** The messaging events of an entry append exactly their rows to the activity log, in event
      order with consecutive ids, and change nothing else. */
  lemma {:induction false} ProcessMessagesEffect(t: Tables, svc: Services, now: int, igUserId: string, events: seq<MessagingEvent>)
    ensures ProcessMessages(t, svc, now, igUserId, events) == Recorded(t, MessageEntries(t, svc, igUserId, events), now)
    decreases |events|
  {
    if events == [] {
      RecordedNothing(t, now);
    } else {
      var first := EventEntries(t, svc, igUserId, events[0]);
      var t1 := ProcessMessage(t, svc, now, igUserId, events[0]);
      MessageEffect(t, svc, now, igUserId, events[0]);
      ProcessMessagesEffect(t1, svc, now, igUserId, events[1..]);
      MessageEntriesFrame(t, t1, svc, igUserId, events[1..]);
      RecordedTwice(t, first, MessageEntries(t, svc, igUserId, events[1..]), now);
    }
  }
}
