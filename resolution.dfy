/** Which connected account a comment notification is for (server/routes.ts, the start of the
    comment branch): the business id first, then the Instagram user id, then, when the comment
    carries a media id, any active comment rule that targets that media or no media at all. */
module Resolution {
  import opened Wrappers
  import opened Seqs
  import opened Schema
  import opened Storage
  import opened Matching

  /** The third lookup step accepts a rule of the comment kind whose media filter lets the media through. */
  predicate ClaimsMedia(a: Automation, mediaId: string) {
    a.kind == COMMENT_TO_DM && OnTargetMedia(a, Some(mediaId))
  }

  predicate HasBusinessId(t: Tables, igUserId: string) {
    exists a :: a in t.accounts && a.igBusinessAccountId == Some(igUserId)
  }

  predicate HasInstagramUserId(t: Tables, igUserId: string) {
    exists a :: a in t.accounts && a.instagramUserId == igUserId
  }

  /** The scan over the active rules: the account of the first claiming rule whose account exists. */
  function AccountByMediaRule(t: Tables, rules: seq<Automation>, mediaId: string): (r: Option<InstagramAccount>)
    ensures r.Some? ==> r.value in t.accounts
    ensures r.Some? ==> exists a :: a in rules && ClaimsMedia(a, mediaId) && a.instagramAccountId == r.value.id
    ensures r.None? <==> forall a :: a in rules && ClaimsMedia(a, mediaId) ==> !HasAccount(t, a.instagramAccountId)
  {
    if rules == [] then None
    else if ClaimsMedia(rules[0], mediaId) && AccountById(t, rules[0].instagramAccountId).Some?
    then AccountById(t, rules[0].instagramAccountId)
    else AccountByMediaRule(t, rules[1..], mediaId)
  }

  /** The account a comment notification on entry `igUserId` is handled for, or None when the
      notification is dropped. */
  function ResolveCommentAccount(t: Tables, igUserId: string, mediaId: Option<string>): (r: Option<InstagramAccount>)
    ensures r.Some? ==> r.value in t.accounts
    ensures HasBusinessId(t, igUserId) ==> r.Some? && r.value.igBusinessAccountId == Some(igUserId)
    ensures !HasBusinessId(t, igUserId) && HasInstagramUserId(t, igUserId) ==>
      r.Some? && r.value.instagramUserId == igUserId
    ensures r.Some? && !HasBusinessId(t, igUserId) && !HasInstagramUserId(t, igUserId) ==>
      mediaId.Some? &&
      exists a :: a in t.automations && a.isActive && ClaimsMedia(a, mediaId.value) && a.instagramAccountId == r.value.id
    ensures r.None? <==>
      !HasBusinessId(t, igUserId) && !HasInstagramUserId(t, igUserId) &&
      (!Given(mediaId) ||
       forall a :: a in t.automations && a.isActive && ClaimsMedia(a, mediaId.value) ==> !HasAccount(t, a.instagramAccountId))
  {
    var byBusiness := AccountByBusinessId(t, igUserId);
    if byBusiness.Some? then byBusiness
    else
      var byUser := AccountByInstagramUserId(t, igUserId);
      if byUser.Some? then byUser
      else if Given(mediaId) then AccountByMediaRule(t, ActiveAutomations(t), mediaId.value)
      else None
  }

  /** The handler links the business id to a resolved account that has none. */
  predicate NeedsBusinessId(acc: InstagramAccount) {
    !Given(acc.igBusinessAccountId)
  }

  /** After the business id has been linked, every later notification for the same entry id
      resolves in the first step to the updated row, which needs no further linking: the back-fill
      happens at most once. */
  lemma {:induction false} LinkedAccountResolvesDirectly(t: Tables, igUserId: string, mediaId: Option<string>,
                                                         acc: InstagramAccount, now: int, laterMedia: Option<string>)
    requires ValidTables(t) && igUserId != ""
    requires ResolveCommentAccount(t, igUserId, mediaId) == Some(acc) && NeedsBusinessId(acc)
    ensures var linked := acc.(igBusinessAccountId := Some(igUserId), updatedAt := now);
      var t' := SetBusinessId(t, acc.id, igUserId, now);
      ResolveCommentAccount(t', igUserId, laterMedia) == Some(linked) && !NeedsBusinessId(linked)
  {
    var linked := acc.(igBusinessAccountId := Some(igUserId), updatedAt := now);
    var t' := SetBusinessId(t, acc.id, igUserId, now);
    assert !HasBusinessId(t, igUserId);
    var k :| 0 <= k < |t.accounts| && t.accounts[k] == acc;
    assert t'.accounts[k] == linked;
    assert HasBusinessId(t', igUserId);
    forall m | 0 <= m < |t'.accounts| && t'.accounts[m].igBusinessAccountId == Some(igUserId)
      ensures m == k
    {
      assert t.accounts[m].id == acc.id;
    }
    var r := ResolveCommentAccount(t', igUserId, laterMedia).value;
    var m :| 0 <= m < |t'.accounts| && t'.accounts[m] == r;
    assert m == k;
  }

  /** An active comment rule with no media filter claims every comment that carries a media id and
      whose entry id no account knows: the notification is handled for some account, and the
      account it is handled for has neither that business id nor that user id. */
  lemma UnfilteredRuleClaimsUnknownEntries(t: Tables, igUserId: string, mediaId: string, rule: Automation)
    requires rule in t.automations && rule.isActive && rule.kind == COMMENT_TO_DM && TargetMediaId(rule).None?
    requires HasAccount(t, rule.instagramAccountId)
    requires !HasBusinessId(t, igUserId) && !HasInstagramUserId(t, igUserId) && mediaId != ""
    ensures var r := ResolveCommentAccount(t, igUserId, Some(mediaId));
      r.Some? && r.value.igBusinessAccountId != Some(igUserId) && r.value.instagramUserId != igUserId
  {
    assert ClaimsMedia(rule, mediaId);
  }
}
