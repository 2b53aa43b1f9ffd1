/** The account and automation routes that write the store (server/routes.ts): disconnecting an
    Instagram account, which deletes the account's automations one by one and then the account,
    and the PATCH and DELETE of an automation, which only the automation's owner may use.

    The signed-in user is a parameter: None stands for a session whose user is not in the users
    table (answered with 404). */
module Routes {
  import opened Wrappers
  import opened Seqs
  import opened Schema
  import opened Storage
  import opened Http

  // ---------------------------------------------------------------- disconnect

  predicate HasIdOf(a: InstagramAccount, accountId: Id) {
    a.id == accountId
  }

  /** `accounts.find(a => a.id === accountId)` over the user's own accounts. */
  function OwnedAccount(t: Tables, userId: Id, accountId: Id): (r: Option<InstagramAccount>)
    ensures r.Some? ==> r.value in t.accounts && r.value.id == accountId && r.value.userId == userId
    ensures r.None? <==> forall a :: a in t.accounts && a.userId == userId ==> a.id != accountId
  {
    var owned := AccountsByUserId(t, userId);
    match Find(owned, (a: InstagramAccount) => HasIdOf(a, accountId))
    case Some(a) => Some(a)
    case None => None
  }

  /** The deletion loop: each automation in turn; a refused delete throws and ends the route,
      keeping the deletions already made. */
  function DeleteAutomations(t: Tables, rules: seq<Automation>): Outcome
    decreases |rules|
  {
    if rules == [] then Outcome(t, false)
    else match RemoveAutomation(t, rules[0].id)
      case None => Outcome(t, true)
      case Some(t1) => DeleteAutomations(t1, rules[1..])
  }

  /** DELETE /api/instagram/accounts/:accountId. */
  function Disconnect(t: Tables, user: Option<Id>, accountId: Id): Response {
    if user.None? then Response(t, NOT_FOUND_STATUS)
    else match OwnedAccount(t, user.value, accountId)
      case None => Response(t, NOT_FOUND_STATUS)
      case Some(acc) =>
        var o := DeleteAutomations(t, AutomationsByAccount(t, acc.id));
        if o.thrown then Response(o.tables, ERROR_STATUS)
        else match RemoveAccount(o.tables, acc.id)
          case None => Response(o.tables, ERROR_STATUS)
          case Some(t2) => Response(t2, OK_STATUS)
  }

  /** The deletion loop removes exactly the rows with the ids of `rules` and nothing else, unless
      it throws, which happens exactly when one of those rows is referenced by an activity row. */
  lemma {:induction false} DeleteAutomationsEffect(t: Tables, rules: seq<Automation>)
    ensures var o := DeleteAutomations(t, rules);
      o.tables.accounts == t.accounts && o.tables.activityLog == t.activityLog && o.tables.nextId == t.nextId &&
      (forall a :: a in o.tables.automations ==> a in t.automations) &&
      (o.thrown <==> exists a :: a in rules && AutomationReferenced(t, a.id)) &&
      (!o.thrown ==> forall a :: a in o.tables.automations <==>
        a in t.automations && forall b :: b in rules ==> b.id != a.id)
    decreases |rules|
  {
    if rules != [] {
      match RemoveAutomation(t, rules[0].id)
      case None =>
      case Some(t1) =>
        DeleteAutomationsEffect(t1, rules[1..]);
        assert forall b :: b in rules <==> b == rules[0] || b in rules[1..];
    }
  }

  /** A successful disconnect removes the account and every automation of it, and nothing else. */
  lemma DisconnectSucceeds(t: Tables, user: Option<Id>, accountId: Id)
    requires ValidTables(t)
    requires Disconnect(t, user, accountId).status == OK_STATUS
    ensures var r := Disconnect(t, user, accountId).tables;
      user.Some? &&
      (exists a :: a in t.accounts && a.id == accountId && a.userId == user.value) &&
      (forall a :: a in r.accounts <==> a in t.accounts && a.id != accountId) &&
      (forall a :: a in r.automations <==> a in t.automations && a.instagramAccountId != accountId) &&
      r.activityLog == t.activityLog
  {
    var acc := OwnedAccount(t, user.value, accountId).value;
    var rules := AutomationsByAccount(t, acc.id);
    var o := DeleteAutomations(t, rules);
    DeleteAutomationsEffect(t, rules);
    var r := RemoveAccount(o.tables, acc.id).value;
    assert Disconnect(t, user, accountId).tables == r;
    forall a | a in t.automations
      ensures a in r.automations <==> a.instagramAccountId != accountId
    {
      if a.instagramAccountId == accountId {
        assert a in rules;
      } else {
        forall b | b in rules
          ensures b.id != a.id
        {
          if b.id == a.id {
            SameIdSameAutomation(t, a, b);
          }
        }
      }
    }
  }

  /** Once a rule of the account has replied to anyone (an activity row points at it), disconnect
      fails with 500: the account stays, and the automations deleted before the failing one stay
      deleted. */
  lemma DisconnectFailsAfterActivity(t: Tables, userId: Id, acc: InstagramAccount, rule: Automation)
    requires acc in t.accounts && acc.userId == userId && Pairwise(t.accounts, AccountIdsDiffer)
    requires rule in t.automations && rule.instagramAccountId == acc.id && AutomationReferenced(t, rule.id)
    ensures var r := Disconnect(t, Some(userId), acc.id);
      r.status == ERROR_STATUS && acc in r.tables.accounts &&
      forall a :: a in r.tables.automations ==> a in t.automations
  {
    var owned := OwnedAccount(t, userId, acc.id).value;
    forall m | 0 <= m < |t.accounts| && t.accounts[m].id == acc.id
      ensures t.accounts[m] == acc
    {
      var j :| 0 <= j < |t.accounts| && t.accounts[j] == acc;
      assert m == j || !AccountIdsDiffer(t.accounts[m], t.accounts[j]);
    }
    assert owned == acc;
    DeleteAutomationsEffect(t, AutomationsByAccount(t, acc.id));
    assert rule in AutomationsByAccount(t, acc.id);
  }

  /** Only the owner of the account can change anything. */
  lemma DisconnectNeedsOwner(t: Tables, user: Option<Id>, accountId: Id)
    requires user.None? || forall a :: a in t.accounts && a.userId == user.value ==> a.id != accountId
    ensures Disconnect(t, user, accountId) == Response(t, NOT_FOUND_STATUS)
  {
  }

  /** The route as it runs: find the account among the user's, delete its automations in a loop,
      then delete it. */
  method DisconnectAccount(db: DatabaseStorage, user: Option<Id>, accountId: Id) returns (status: int)
    requires db.Valid()
    modifies db
    ensures db.Valid()
    ensures Response(db.State(), status) == Disconnect(old(db.State()), user, accountId)
  {
    if user.None? {
      return NOT_FOUND_STATUS;
    }
    var account := OwnedAccount(db.State(), user.value, accountId);
    if account.None? {
      return NOT_FOUND_STATUS;
    }
    var acc := account.value;
    var rules := db.GetAutomationsByInstagramAccountId(acc.id);
    ghost var t0 := db.State();
    var i := 0;
    while i < |rules|
      invariant 0 <= i <= |rules|
      invariant db.Valid()
      invariant DeleteAutomations(t0, rules) == DeleteAutomations(db.State(), rules[i..])
    {
      var ok := db.DeleteAutomation(rules[i].id);
      if !ok {
        return ERROR_STATUS;
      }
      assert rules[i..][1..] == rules[i + 1..];
      i := i + 1;
    }
    var ok := db.DeleteInstagramAccount(acc.id);
    status := if ok then OK_STATUS else ERROR_STATUS;
  }

  // ---------------------------------------------------------------- PATCH and DELETE of an automation

  /** The automation with that id, when it belongs to the user. */
  function OwnedAutomation(t: Tables, user: Option<Id>, id: Id): (r: Option<Automation>)
    ensures r.Some? ==> user.Some? && r.value in t.automations && r.value.id == id && r.value.userId == user.value
    ensures user.None? || !HasAutomation(t, id) ==> r.None?
  {
    if user.None? then None
    else match AutomationById(t, id)
      case None => None
      case Some(a) => if a.userId == user.value then Some(a) else None
  }

  /** In valid tables the check passes exactly for the user the row belongs to. */
  lemma OwnedAutomationIff(t: Tables, user: Option<Id>, id: Id)
    requires ValidTables(t)
    ensures OwnedAutomation(t, user, id).Some? <==>
      user.Some? && exists a :: a in t.automations && a.id == id && a.userId == user.value
  {
    if user.Some? && exists a :: a in t.automations && a.id == id && a.userId == user.value {
      var a :| a in t.automations && a.id == id && a.userId == user.value;
      SameIdSameAutomation(t, a, AutomationById(t, id).value);
    }
  }

  /** PATCH /api/automations/:id: the body is merged into the row as it is, with no check of the
      columns it sets. */
  function PatchRoute(t: Tables, user: Option<Id>, id: Id, p: AutomationPatch, now: int): Response {
    if OwnedAutomation(t, user, id).None? then Response(t, NOT_FOUND_STATUS)
    else match PatchAutomation(t, id, p, now)
      case None => Response(t, ERROR_STATUS)
      case Some(t1) => Response(t1, OK_STATUS)
  }

  /** DELETE /api/automations/:id. */
  function DeleteRoute(t: Tables, user: Option<Id>, id: Id): Response {
    if OwnedAutomation(t, user, id).None? then Response(t, NOT_FOUND_STATUS)
    else match RemoveAutomation(t, id)
      case None => Response(t, ERROR_STATUS)
      case Some(t1) => Response(t1, OK_STATUS)
  }

  /** What PATCH answers: 404 and no change unless the row exists and is the user's; otherwise the
      row, and only it, becomes the merge of the patch into it, and that merge is the response
      body; 500 only when the patch points the row at an account that does not exist. */
  lemma PatchRouteEffect(t: Tables, user: Option<Id>, id: Id, p: AutomationPatch, now: int)
    requires ValidTables(t)
    ensures var r := PatchRoute(t, user, id, p, now);
      var owned := OwnedAutomation(t, user, id);
      (owned.None? ==> r == Response(t, NOT_FOUND_STATUS)) &&
      (owned.Some? && p.instagramAccountId.Some? && !HasAccount(t, p.instagramAccountId.value) ==>
        r == Response(t, ERROR_STATUS)) &&
      (r.status == OK_STATUS ==>
        owned.Some? && AutomationById(r.tables, id) == Some(Merge(owned.value, p, now)) &&
        r.tables.accounts == t.accounts && r.tables.activityLog == t.activityLog &&
        forall a :: a in t.automations && a.id != id ==> a in r.tables.automations)
  {
    var r := PatchRoute(t, user, id, p, now);
    if r.status == OK_STATUS {
      PatchAutomationReadBack(t, id, p, now, OwnedAutomation(t, user, id).value);
    }
  }

  /** The owner check is made on the row before the patch: the owner can hand the row to another
      user, who then owns it. */
  lemma PatchCanChangeOwner(t: Tables, userId: Id, id: Id, other: Id, now: int)
    requires ValidTables(t) && OwnedAutomation(t, Some(userId), id).Some?
    ensures var p := AutomationPatch(Some(other), None, None, None, None, None, None, None);
      var r := PatchRoute(t, Some(userId), id, p, now);
      r.status == OK_STATUS && OwnedAutomation(r.tables, Some(other), id).Some?
  {
    var p := AutomationPatch(Some(other), None, None, None, None, None, None, None);
    PatchRouteEffect(t, Some(userId), id, p, now);
  }

  /** What DELETE answers: 404 and no change unless the row is the user's; 500 and no change once an
      activity row points at it; otherwise the row goes and nothing else changes. */
  lemma DeleteRouteEffect(t: Tables, user: Option<Id>, id: Id)
    ensures var r := DeleteRoute(t, user, id);
      var owned := OwnedAutomation(t, user, id);
      (owned.None? ==> r == Response(t, NOT_FOUND_STATUS)) &&
      (owned.Some? && AutomationReferenced(t, id) ==> r == Response(t, ERROR_STATUS)) &&
      (owned.Some? && !AutomationReferenced(t, id) ==>
        r.status == OK_STATUS && AutomationById(r.tables, id).None? &&
        r.tables.accounts == t.accounts && r.tables.activityLog == t.activityLog &&
        forall a :: a in r.tables.automations <==> a in t.automations && a.id != id)
  {
  }

  /** The PATCH route as it runs; `body` is the row read back after the update. */
  method PatchAutomationRoute(db: DatabaseStorage, user: Option<Id>, id: Id, p: AutomationPatch, now: int)
    returns (status: int, body: Option<Automation>)
    requires db.Valid()
    modifies db
    ensures db.Valid()
    ensures Response(db.State(), status) == PatchRoute(old(db.State()), user, id, p, now)
    ensures status == OK_STATUS ==> body == AutomationById(db.State(), id)
  {
    body := None;
    if user.None? {
      return NOT_FOUND_STATUS, None;
    }
    var automation := db.GetAutomation(id);
    if automation.None? || automation.value.userId != user.value {
      return NOT_FOUND_STATUS, None;
    }
    var ok := db.UpdateAutomation(id, p, now);
    if !ok {
      return ERROR_STATUS, None;
    }
    body := db.GetAutomation(id);
    status := OK_STATUS;
  }

  /** The DELETE route as it runs. */
  method DeleteAutomationRoute(db: DatabaseStorage, user: Option<Id>, id: Id) returns (status: int)
    requires db.Valid()
    modifies db
    ensures db.Valid()
    ensures Response(db.State(), status) == DeleteRoute(old(db.State()), user, id)
  {
    if user.None? {
      return NOT_FOUND_STATUS;
    }
    var automation := db.GetAutomation(id);
    if automation.None? || automation.value.userId != user.value {
      return NOT_FOUND_STATUS;
    }
    var ok := db.DeleteAutomation(id);
    status := if ok then OK_STATUS else ERROR_STATUS;
  }
}
