/** The persistence layer the webhook engine and the routes call: the account, automation and
    activity-log methods of the database-backed store, over an in-memory copy of the three tables.
    `Tables` is the state as a value and the functions over it say what each store method reads
    or writes; `DatabaseStorage` holds the same state in fields and changes it in place. */
module Storage {
  import opened Wrappers
  import opened Seqs
  import opened Schema

  /** The three tables, each in insertion order, and the counter that stands for fresh uuids. */
  datatype Tables = Tables(
    accounts: seq<InstagramAccount>,
    automations: seq<Automation>,
    activityLog: seq<ActivityLogEntry>,
    nextId: Id)

  /** The outcome of an insert or upsert that hands back a row (`.returning()`). */
  datatype Written<R> = Written(tables: Tables, row: R)

  const EMPTY_TABLES: Tables := Tables([], [], [], 0)

  predicate AccountIdsDiffer(a: InstagramAccount, b: InstagramAccount) { a.id != b.id }
  predicate AutomationIdsDiffer(a: Automation, b: Automation) { a.id != b.id }
  predicate LogIdsDiffer(a: ActivityLogEntry, b: ActivityLogEntry) { a.id != b.id }

  predicate HasAccount(t: Tables, id: Id) {
    exists a | a in t.accounts :: a.id == id
  }

  predicate HasAutomation(t: Tables, id: Id) {
    exists a | a in t.automations :: a.id == id
  }

  /** Some automation points at the account (the `automations.instagram_account_id` foreign key). */
  predicate AccountReferenced(t: Tables, id: Id) {
    exists a | a in t.automations :: a.instagramAccountId == id
  }

  /** Some activity row points at the automation (the `activity_log.automation_id` foreign key). */
  predicate AutomationReferenced(t: Tables, id: Id) {
    exists e | e in t.activityLog :: e.automationId == Some(id)
  }

  /** Primary keys are unique and were handed out by the counter; the two foreign keys the engine
      depends on hold. */
  ghost predicate ValidTables(t: Tables) {
    && Pairwise(t.accounts, AccountIdsDiffer)
    && Pairwise(t.automations, AutomationIdsDiffer)
    && Pairwise(t.activityLog, LogIdsDiffer)
    && (forall k :: 0 <= k < |t.accounts| ==> t.accounts[k].id < t.nextId)
    && (forall k :: 0 <= k < |t.automations| ==> t.automations[k].id < t.nextId)
    && (forall k :: 0 <= k < |t.activityLog| ==> t.activityLog[k].id < t.nextId)
    && (forall k :: 0 <= k < |t.automations| ==> HasAccount(t, t.automations[k].instagramAccountId))
    && (forall k :: 0 <= k < |t.activityLog| && t.activityLog[k].automationId.Some? ==>
          HasAutomation(t, t.activityLog[k].automationId.value))
  }

  // ---------------------------------------------------------------- accounts

  /** The selection conditions shared by a query and the lemmas about it, as named values. */
  function AccountIdIsNot(id: Id): InstagramAccount -> bool { (a: InstagramAccount) => a.id != id }
  function AutomationIdIsNot(id: Id): Automation -> bool { (a: Automation) => a.id != id }
  function SamePairAs(n: NewInstagramAccount): InstagramAccount -> bool { (a: InstagramAccount) => SamePair(a, n) }
  function Refreshed(n: NewInstagramAccount, id: Id, now: int): InstagramAccount -> InstagramAccount {
    (a: InstagramAccount) => RefreshRow(a, n, id, now)
  }
  function AutomationOfUser(userId: Id): Automation -> bool { (a: Automation) => a.userId == userId }
  function AutomationOfAccount(accountId: Id): Automation -> bool { (a: Automation) => a.instagramAccountId == accountId }
  function LogOfUser(userId: Id): ActivityLogEntry -> bool { (e: ActivityLogEntry) => e.userId == userId }

  /** `getInstagramAccount`: the row with that id, if any. */
  function AccountById(t: Tables, id: Id): (r: Option<InstagramAccount>)
    ensures r.Some? ==> r.value in t.accounts && r.value.id == id
    ensures r.None? <==> !HasAccount(t, id)
  {
    Find(t.accounts, (a: InstagramAccount) => a.id == id)
  }

  /** `getInstagramAccountsByUserId`: exactly the user's accounts. */
  function AccountsByUserId(t: Tables, userId: Id): (r: seq<InstagramAccount>)
    ensures forall a :: a in r <==> a in t.accounts && a.userId == userId
  {
    Filter(t.accounts, (a: InstagramAccount) => a.userId == userId)
  }

  /** `getInstagramAccountByInstagramUserId`: some row with that Instagram user id, or none when
      no row has it. */
  function AccountByInstagramUserId(t: Tables, igUserId: string): (r: Option<InstagramAccount>)
    ensures r.Some? ==> r.value in t.accounts && r.value.instagramUserId == igUserId
    ensures r.None? <==> forall a :: a in t.accounts ==> a.instagramUserId != igUserId
  {
    Find(t.accounts, (a: InstagramAccount) => a.instagramUserId == igUserId)
  }

  /** `getInstagramAccountByBusinessId`: some row whose (non-null) business id is `businessId`,
      or none when no row has it. */
  function AccountByBusinessId(t: Tables, businessId: string): (r: Option<InstagramAccount>)
    ensures r.Some? ==> r.value in t.accounts && r.value.igBusinessAccountId == Some(businessId)
    ensures r.None? <==> forall a :: a in t.accounts ==> a.igBusinessAccountId != Some(businessId)
  {
    Find(t.accounts, (a: InstagramAccount) => a.igBusinessAccountId == Some(businessId))
  }

  /** `createInstagramAccount`: append one row with a fresh id, no duplicate check. */
  function InsertAccount(t: Tables, n: NewInstagramAccount, now: int): Written<InstagramAccount> {
    var row := AccountRow(n, t.nextId, now);
    Written(t.(accounts := t.accounts + [row], nextId := t.nextId + 1), row)
  }

  /** The row belongs to the same user and the same Instagram user as the insert. */
  predicate SamePair(a: InstagramAccount, n: NewInstagramAccount) {
    a.instagramUserId == n.instagramUserId && a.userId == n.userId
  }

  /** Two rows are for different (user, Instagram user) pairs. */
  predicate PairsDiffer(a: InstagramAccount, b: InstagramAccount) {
    a.userId != b.userId || a.instagramUserId != b.instagramUserId
  }

  /** The token refresh of an upsert applied to row `a` when its id is `id`: a new access token,
      a new expiry when one is given (an undefined value is not written), a new `updatedAt`. */
  function RefreshRow(a: InstagramAccount, n: NewInstagramAccount, id: Id, now: int): InstagramAccount {
    if a.id == id then
      a.(accessToken := n.accessToken,
         expiresIn := if n.expiresIn.Some? then n.expiresIn else a.expiresIn,
         updatedAt := now)
    else a
  }

  /** `upsertInstagramAccount`: refresh the token of an existing row for the same pair and hand back
      that row as it was before the update, or insert a new row. */
  function UpsertAccount(t: Tables, n: NewInstagramAccount, now: int): Written<InstagramAccount> {
    match Find(t.accounts, SamePairAs(n))
    case Some(e) =>
      Written(t.(accounts := Map(t.accounts, Refreshed(n, e.id, now))), e)
    case None => InsertAccount(t, n, now)
  }

  /** `updateInstagramAccountToken`. */
  function UpdateAccountToken(t: Tables, id: Id, token: string, expiresIn: int, now: int): (r: Tables)
    ensures |r.accounts| == |t.accounts|
    ensures r == t.(accounts := r.accounts)
    ensures forall k :: 0 <= k < |t.accounts| ==>
      r.accounts[k] == if t.accounts[k].id == id
                       then t.accounts[k].(accessToken := token, expiresIn := Some(expiresIn), updatedAt := now)
                       else t.accounts[k]
  {
    t.(accounts := Map(t.accounts, (a: InstagramAccount) =>
      if a.id == id then a.(accessToken := token, expiresIn := Some(expiresIn), updatedAt := now) else a))
  }

  /** `updateInstagramAccountBusinessId`: only the business id and `updatedAt` of the row with that id change. */
  function SetBusinessId(t: Tables, id: Id, businessId: string, now: int): (r: Tables)
    ensures |r.accounts| == |t.accounts|
    ensures r == t.(accounts := r.accounts)
    ensures forall k :: 0 <= k < |t.accounts| ==>
      r.accounts[k] == if t.accounts[k].id == id
                       then t.accounts[k].(igBusinessAccountId := Some(businessId), updatedAt := now)
                       else t.accounts[k]
  {
    t.(accounts := Map(t.accounts, (a: InstagramAccount) =>
      if a.id == id then a.(igBusinessAccountId := Some(businessId), updatedAt := now) else a))
  }

  /** `updateInstagramAccountPageToken`. */
  function SetPageToken(t: Tables, id: Id, pageToken: string, pageId: string, now: int): (r: Tables)
    ensures |r.accounts| == |t.accounts|
    ensures r == t.(accounts := r.accounts)
    ensures forall k :: 0 <= k < |t.accounts| ==>
      r.accounts[k] == if t.accounts[k].id == id
                       then t.accounts[k].(pageAccessToken := Some(pageToken), pageId := Some(pageId), updatedAt := now)
                       else t.accounts[k]
  {
    t.(accounts := Map(t.accounts, (a: InstagramAccount) =>
      if a.id == id then a.(pageAccessToken := Some(pageToken), pageId := Some(pageId), updatedAt := now) else a))
  }

  /** `deleteInstagramAccount`: the delete is refused (the database raises) while an automation
      still points at the account; otherwise the row with that id goes and nothing else changes. */
  function RemoveAccount(t: Tables, id: Id): (r: Option<Tables>)
    ensures r.None? <==> AccountReferenced(t, id)
    ensures r.Some? ==> r.value == t.(accounts := r.value.accounts)
    ensures r.Some? ==> forall a :: a in r.value.accounts <==> a in t.accounts && a.id != id
  {
    if AccountReferenced(t, id) then None
    else Some(t.(accounts := Filter(t.accounts, AccountIdIsNot(id))))
  }

  // ---------------------------------------------------------------- automations

  function AutomationCreatedAt(a: Automation): int { a.createdAt }

  /** `getAutomation`: the row with that id, if any. */
  function AutomationById(t: Tables, id: Id): (r: Option<Automation>)
    ensures r.Some? ==> r.value in t.automations && r.value.id == id
    ensures r.None? <==> !HasAutomation(t, id)
  {
    Find(t.automations, (a: Automation) => a.id == id)
  }

  /** `getAutomationsByUserId`: exactly the user's automations, newest `createdAt` first. */
  function AutomationsByUserId(t: Tables, userId: Id): (r: seq<Automation>)
    ensures forall a :: a in r <==> a in t.automations && a.userId == userId
    ensures multiset(r) == multiset(Filter(t.automations, AutomationOfUser(userId)))
    ensures SortedDesc(r, AutomationCreatedAt)
  {
    var mine := Filter(t.automations, AutomationOfUser(userId));
    SortDescCorrect(mine, AutomationCreatedAt);
    SortDesc(mine, AutomationCreatedAt)
  }

  /** `getAutomationsByInstagramAccountId`: exactly that account's automations, newest `createdAt` first. */
  function AutomationsByAccount(t: Tables, accountId: Id): (r: seq<Automation>)
    ensures forall a :: a in r <==> a in t.automations && a.instagramAccountId == accountId
    ensures multiset(r) == multiset(Filter(t.automations, AutomationOfAccount(accountId)))
    ensures SortedDesc(r, AutomationCreatedAt)
  {
    var mine := Filter(t.automations, AutomationOfAccount(accountId));
    SortDescCorrect(mine, AutomationCreatedAt);
    SortDesc(mine, AutomationCreatedAt)
  }

  /** `getAllActiveAutomations`: exactly the active automations of every account. The query has no
      ORDER BY; the model returns them in table order. */
  function ActiveAutomations(t: Tables): (r: seq<Automation>)
    ensures forall a :: a in r <==> a in t.automations && a.isActive
  {
    Filter(t.automations, (a: Automation) => a.isActive)
  }

  /** `createAutomation`: append one row with a fresh id and `stats` defaulted to `{}`; refused when
      the account it points at does not exist. */
  function InsertAutomation(t: Tables, n: NewAutomation, now: int): (r: Option<Written<Automation>>)
    ensures r.None? <==> !HasAccount(t, n.instagramAccountId)
    ensures r.Some? ==> r.value.row == AutomationRow(n, t.nextId, now)
    ensures r.Some? ==> r.value.tables == t.(automations := t.automations + [r.value.row], nextId := t.nextId + 1)
  {
    if !HasAccount(t, n.instagramAccountId) then None
    else
      var row := AutomationRow(n, t.nextId, now);
      Some(Written(t.(automations := t.automations + [row], nextId := t.nextId + 1), row))
  }

  /** The body of a PATCH: the columns present in it. */
  datatype AutomationPatch = AutomationPatch(
    userId: Option<Id>,
    instagramAccountId: Option<Id>,
    kind: Option<string>,
    title: Option<string>,
    description: Option<string>,
    isActive: Option<bool>,
    config: Option<AutomationConfig>,
    stats: Option<AutomationStats>)

  /** A patch that sets `stats` only. */
  function StatsPatch(s: AutomationStats): AutomationPatch {
    AutomationPatch(None, None, None, None, None, None, None, Some(s))
  }

  /** A patch that sets `isActive` only (what the toggle sends). */
  function ActivePatch(b: bool): AutomationPatch {
    AutomationPatch(None, None, None, None, None, Some(b), None, None)
  }

  /** Shallow merge `{ ...row, ...patch, updatedAt: now }`: a present column replaces the old value
      whole, an absent one keeps it. */
  function Merge(a: Automation, p: AutomationPatch, now: int): (r: Automation)
    ensures r.id == a.id && r.createdAt == a.createdAt && r.updatedAt == now
    ensures p.stats.Some? ==> r.stats == p.stats.value
    ensures p.stats.None? ==> r.stats == a.stats
    ensures p.isActive.Some? ==> r.isActive == p.isActive.value
    ensures p.isActive.None? ==> r.isActive == a.isActive
    ensures p.userId.Some? ==> r.userId == p.userId.value
    ensures p.userId.None? ==> r.userId == a.userId
    ensures p.instagramAccountId.Some? ==> r.instagramAccountId == p.instagramAccountId.value
    ensures p.instagramAccountId.None? ==> r.instagramAccountId == a.instagramAccountId
    ensures p.kind.Some? ==> r.kind == p.kind.value
    ensures p.kind.None? ==> r.kind == a.kind
    ensures p.title.Some? ==> r.title == p.title.value
    ensures p.title.None? ==> r.title == a.title
    ensures p.description.Some? ==> r.description == p.description
    ensures p.description.None? ==> r.description == a.description
    ensures p.config.Some? ==> r.config == p.config
    ensures p.config.None? ==> r.config == a.config
    ensures p == StatsPatch(r.stats) ==> r == a.(stats := r.stats, updatedAt := now)
  {
    Automation(a.id, p.userId.GetOr(a.userId), p.instagramAccountId.GetOr(a.instagramAccountId),
               p.kind.GetOr(a.kind), p.title.GetOr(a.title),
               if p.description.Some? then p.description else a.description,
               p.isActive.GetOr(a.isActive),
               if p.config.Some? then p.config else a.config,
               p.stats.GetOr(a.stats), a.createdAt, now)
  }

  /** `updateAutomation`: merge the patch into the row with that id. Refused when it would point the
      row at an account that does not exist; updating an id that no row has changes nothing. */
  function PatchAutomation(t: Tables, id: Id, p: AutomationPatch, now: int): (r: Option<Tables>)
    ensures r.None? <==> HasAutomation(t, id) && p.instagramAccountId.Some? && !HasAccount(t, p.instagramAccountId.value)
    ensures r.Some? ==> r.value == t.(automations := r.value.automations)
    ensures r.Some? ==> |r.value.automations| == |t.automations|
    ensures r.Some? ==> forall k :: 0 <= k < |t.automations| ==>
      r.value.automations[k] == if t.automations[k].id == id then Merge(t.automations[k], p, now) else t.automations[k]
  {
    if HasAutomation(t, id) && p.instagramAccountId.Some? && !HasAccount(t, p.instagramAccountId.value) then None
    else Some(t.(automations := Map(t.automations, (a: Automation) => if a.id == id then Merge(a, p, now) else a)))
  }

  /** `deleteAutomation`: refused (the database raises) while an activity row points at it; otherwise
      only the row with that id goes. */
  function RemoveAutomation(t: Tables, id: Id): (r: Option<Tables>)
    ensures r.None? <==> AutomationReferenced(t, id)
    ensures r.Some? ==> r.value == t.(automations := r.value.automations)
    ensures r.Some? ==> forall a :: a in r.value.automations <==> a in t.automations && a.id != id
  {
    if AutomationReferenced(t, id) then None
    else Some(t.(automations := Filter(t.automations, AutomationIdIsNot(id))))
  }

  // ---------------------------------------------------------------- activity log

  function LogCreatedAt(e: ActivityLogEntry): int { e.createdAt }

  /** Default page size of `getActivityLog`. */
  const DEFAULT_LOG_LIMIT: nat := 100

  /** `getActivityLog(userId, limit)`: the user's rows, newest first, at most `limit` of them. */
  function ActivityLogOf(t: Tables, userId: Id, limit: nat): (r: seq<ActivityLogEntry>)
    ensures |r| <= limit
    ensures forall e :: e in r ==> e in t.activityLog && e.userId == userId
    ensures multiset(r) <= multiset(Filter(t.activityLog, LogOfUser(userId)))
    ensures SortedDesc(r, LogCreatedAt)
  {
    var mine := Filter(t.activityLog, LogOfUser(userId));
    UserLogRows(t, userId);
    var sorted := SortDesc(mine, LogCreatedAt);
    SortDescCorrect(mine, LogCreatedAt);
    var page := Take(sorted, limit);
    assert forall e :: e in page ==> e in sorted;
    page
  }

  lemma UserLogRows(t: Tables, userId: Id)
    ensures forall e :: e in Filter(t.activityLog, LogOfUser(userId)) <==> e in t.activityLog && e.userId == userId
  {
  }

  /** `createActivityLog`: append one row with a fresh id; refused when it names an automation that
      does not exist. */
  function InsertLog(t: Tables, e: NewActivityLogEntry, now: int): (r: Option<Written<ActivityLogEntry>>)
    ensures r.None? <==> e.automationId.Some? && !HasAutomation(t, e.automationId.value)
    ensures r.Some? ==> r.value.row == LogRow(e, t.nextId, now)
    ensures r.Some? ==> r.value.tables == t.(activityLog := t.activityLog + [r.value.row], nextId := t.nextId + 1)
  {
    if e.automationId.Some? && !HasAutomation(t, e.automationId.value) then None
    else
      var row := LogRow(e, t.nextId, now);
      Some(Written(t.(activityLog := t.activityLog + [row], nextId := t.nextId + 1), row))
  }

  // ---------------------------------------------------------------- properties

  lemma EmptyTablesValid()
    ensures ValidTables(EMPTY_TABLES)
  {
  }

  /** A rewrite of the account rows that keeps every id in place keeps the tables valid. */
  lemma AccountsRewrittenValid(t: Tables, accounts: seq<InstagramAccount>)
    requires ValidTables(t)
    requires |accounts| == |t.accounts|
    requires forall k :: 0 <= k < |accounts| ==> accounts[k].id == t.accounts[k].id
    ensures ValidTables(t.(accounts := accounts))
  {
    var t' := t.(accounts := accounts);
    forall k | 0 <= k < |t.automations|
      ensures HasAccount(t', t.automations[k].instagramAccountId)
    {
      assert HasAccount(t, t.automations[k].instagramAccountId);
      var a :| a in t.accounts && a.id == t.automations[k].instagramAccountId;
      var i :| 0 <= i < |t.accounts| && t.accounts[i] == a;
      assert accounts[i] in accounts;
    }
    assert Pairwise(accounts, AccountIdsDiffer) by {
      forall i, j | 0 <= i < j < |accounts|
        ensures AccountIdsDiffer(accounts[i], accounts[j])
      {
        assert AccountIdsDiffer(t.accounts[i], t.accounts[j]);
      }
    }
  }

  /** A rewrite of the automation rows that keeps every id, and the account each points at, in
      place keeps the tables valid. */
  lemma AutomationsRewrittenValid(t: Tables, automations: seq<Automation>)
    requires ValidTables(t)
    requires |automations| == |t.automations|
    requires forall k :: 0 <= k < |automations| ==> automations[k].id == t.automations[k].id
    requires forall k :: 0 <= k < |automations| ==> HasAccount(t, automations[k].instagramAccountId)
    ensures ValidTables(t.(automations := automations))
  {
    var t' := t.(automations := automations);
    forall k | 0 <= k < |t.activityLog| && t.activityLog[k].automationId.Some?
      ensures HasAutomation(t', t.activityLog[k].automationId.value)
    {
      var a :| a in t.automations && a.id == t.activityLog[k].automationId.value;
      var i :| 0 <= i < |t.automations| && t.automations[i] == a;
      assert automations[i] in automations;
    }
    assert Pairwise(automations, AutomationIdsDiffer) by {
      forall i, j | 0 <= i < j < |automations|
        ensures AutomationIdsDiffer(automations[i], automations[j])
      {
        assert AutomationIdsDiffer(t.automations[i], t.automations[j]);
      }
    }
  }

  lemma InsertAccountValid(t: Tables, n: NewInstagramAccount, now: int)
    requires ValidTables(t)
    ensures ValidTables(InsertAccount(t, n, now).tables)
  {
    var t' := InsertAccount(t, n, now).tables;
    forall k | 0 <= k < |t.automations|
      ensures HasAccount(t', t.automations[k].instagramAccountId)
    {
      assert HasAccount(t, t.automations[k].instagramAccountId);
      var a :| a in t.accounts && a.id == t.automations[k].instagramAccountId;
      assert a in t'.accounts;
    }
  }

  lemma UpsertAccountValid(t: Tables, n: NewInstagramAccount, now: int)
    requires ValidTables(t)
    ensures ValidTables(UpsertAccount(t, n, now).tables)
  {
    match Find(t.accounts, SamePairAs(n))
    case Some(e) =>
      AccountsRewrittenValid(t, Map(t.accounts, Refreshed(n, e.id, now)));
    case None =>
      InsertAccountValid(t, n, now);
  }

  lemma SetBusinessIdValid(t: Tables, id: Id, businessId: string, now: int)
    requires ValidTables(t)
    ensures ValidTables(SetBusinessId(t, id, businessId, now))
  {
    AccountsRewrittenValid(t, SetBusinessId(t, id, businessId, now).accounts);
  }

  lemma UpdateAccountTokenValid(t: Tables, id: Id, token: string, expiresIn: int, now: int)
    requires ValidTables(t)
    ensures ValidTables(UpdateAccountToken(t, id, token, expiresIn, now))
  {
    AccountsRewrittenValid(t, UpdateAccountToken(t, id, token, expiresIn, now).accounts);
  }

  lemma SetPageTokenValid(t: Tables, id: Id, pageToken: string, pageId: string, now: int)
    requires ValidTables(t)
    ensures ValidTables(SetPageToken(t, id, pageToken, pageId, now))
  {
    AccountsRewrittenValid(t, SetPageToken(t, id, pageToken, pageId, now).accounts);
  }

  lemma RemoveAccountValid(t: Tables, id: Id)
    requires ValidTables(t) && RemoveAccount(t, id).Some?
    ensures ValidTables(RemoveAccount(t, id).value)
  {
    var t' := RemoveAccount(t, id).value;
    FilterPairwise(t.accounts, AccountIdIsNot(id), AccountIdsDiffer);
    forall k | 0 <= k < |t'.accounts|
      ensures t'.accounts[k].id < t.nextId
    {
      assert t'.accounts[k] in t.accounts;
    }
    forall k | 0 <= k < |t.automations|
      ensures HasAccount(t', t.automations[k].instagramAccountId)
    {
      assert HasAccount(t, t.automations[k].instagramAccountId);
      var a :| a in t.accounts && a.id == t.automations[k].instagramAccountId;
      assert t.automations[k] in t.automations;
      assert a in t'.accounts;
    }
  }

  lemma InsertAutomationValid(t: Tables, n: NewAutomation, now: int)
    requires ValidTables(t) && InsertAutomation(t, n, now).Some?
    ensures ValidTables(InsertAutomation(t, n, now).value.tables)
  {
    var t' := InsertAutomation(t, n, now).value.tables;
    forall k | 0 <= k < |t.activityLog| && t.activityLog[k].automationId.Some?
      ensures HasAutomation(t', t.activityLog[k].automationId.value)
    {
      var a :| a in t.automations && a.id == t.activityLog[k].automationId.value;
      assert a in t'.automations;
    }
  }

  lemma PatchAutomationValid(t: Tables, id: Id, p: AutomationPatch, now: int)
    requires ValidTables(t) && PatchAutomation(t, id, p, now).Some?
    ensures ValidTables(PatchAutomation(t, id, p, now).value)
  {
    var s := PatchAutomation(t, id, p, now).value.automations;
    forall k | 0 <= k < |s|
      ensures HasAccount(t, s[k].instagramAccountId)
    {
      if t.automations[k].id == id && p.instagramAccountId.Some? {
        assert t.automations[k] in t.automations;
      }
    }
    AutomationsRewrittenValid(t, s);
  }

  lemma RemoveAutomationValid(t: Tables, id: Id)
    requires ValidTables(t) && RemoveAutomation(t, id).Some?
    ensures ValidTables(RemoveAutomation(t, id).value)
  {
    var t' := RemoveAutomation(t, id).value;
    FilterPairwise(t.automations, AutomationIdIsNot(id), AutomationIdsDiffer);
    forall k | 0 <= k < |t'.automations|
      ensures t'.automations[k].id < t.nextId && HasAccount(t, t'.automations[k].instagramAccountId)
    {
      assert t'.automations[k] in t.automations;
    }
    forall k | 0 <= k < |t.activityLog| && t.activityLog[k].automationId.Some?
      ensures HasAutomation(t', t.activityLog[k].automationId.value)
    {
      var a :| a in t.automations && a.id == t.activityLog[k].automationId.value;
      assert t.activityLog[k] in t.activityLog;
      assert a in t'.automations;
    }
  }

  lemma InsertLogValid(t: Tables, e: NewActivityLogEntry, now: int)
    requires ValidTables(t) && InsertLog(t, e, now).Some?
    ensures ValidTables(InsertLog(t, e, now).value.tables)
  {
  }

  /** What an upsert does: with a row for the same (user, Instagram user) pair it hands back that
      row as it was, changes only its access token, expiry and `updatedAt`, and adds no row;
      without one it appends exactly one new row. */
  lemma UpsertAccountEffect(t: Tables, n: NewInstagramAccount, now: int)
    ensures var r := UpsertAccount(t, n, now);
      if exists a :: a in t.accounts && SamePair(a, n) then
        && r.row in t.accounts && SamePair(r.row, n)
        && r.tables == t.(accounts := r.tables.accounts)
        && |r.tables.accounts| == |t.accounts|
        && forall k :: 0 <= k < |t.accounts| ==>
             r.tables.accounts[k] ==
               if t.accounts[k].id == r.row.id
               then t.accounts[k].(accessToken := n.accessToken,
                                   expiresIn := if n.expiresIn.Some? then n.expiresIn else t.accounts[k].expiresIn,
                                   updatedAt := now)
               else t.accounts[k]
      else
        && r.row == AccountRow(n, t.nextId, now)
        && r.tables == t.(accounts := t.accounts + [r.row], nextId := t.nextId + 1)
  {
  }

  /** Used alone, upsert never creates a second row for the same (user, Instagram user) pair. */
  lemma UpsertKeepsPairsUnique(t: Tables, n: NewInstagramAccount, now: int)
    requires Pairwise(t.accounts, PairsDiffer)
    ensures Pairwise(UpsertAccount(t, n, now).tables.accounts, PairsDiffer)
  {
    var s := UpsertAccount(t, n, now).tables.accounts;
    match Find(t.accounts, SamePairAs(n))
    case Some(e) =>
      forall i, j | 0 <= i < j < |s|
        ensures PairsDiffer(s[i], s[j])
      {
        assert PairsDiffer(t.accounts[i], t.accounts[j]);
      }
    case None =>
      forall i, j | 0 <= i < j < |s|
        ensures PairsDiffer(s[i], s[j])
      {
        if j == |t.accounts| {
          assert t.accounts[i] in t.accounts;
        } else {
          assert PairsDiffer(t.accounts[i], t.accounts[j]);
        }
      }
  }

  /** `createInstagramAccount` does no such check: inserting for a pair that already has a row
      leaves two rows for it. */
  lemma InsertAccountCanDuplicate(t: Tables, n: NewInstagramAccount, now: int)
    requires exists a :: a in t.accounts && SamePair(a, n)
    ensures !Pairwise(InsertAccount(t, n, now).tables.accounts, PairsDiffer)
  {
    var s := InsertAccount(t, n, now).tables.accounts;
    var a :| a in t.accounts && SamePair(a, n);
    var i :| 0 <= i < |t.accounts| && t.accounts[i] == a;
    assert !PairsDiffer(s[i], s[|t.accounts|]);
  }

  /** The activity page is complete up to its limit: a row of the user that is left out only misses
      because the page is full of rows at least as new. */
  lemma {:induction false} ActivityLogNewest(t: Tables, userId: Id, limit: nat, e: ActivityLogEntry)
    requires e in t.activityLog && e.userId == userId
    requires e !in ActivityLogOf(t, userId, limit)
    ensures |ActivityLogOf(t, userId, limit)| == limit
    ensures forall x :: x in ActivityLogOf(t, userId, limit) ==> x.createdAt >= e.createdAt
  {
    var mine := Filter(t.activityLog, LogOfUser(userId));
    var sorted := SortDesc(mine, LogCreatedAt);
    SortDescCorrect(mine, LogCreatedAt);
    var page := ActivityLogOf(t, userId, limit);
    assert page == Take(sorted, limit);
    assert e in sorted;
    var j :| 0 <= j < |sorted| && sorted[j] == e;
    assert |sorted| > limit;
    assert j >= limit;
    forall x | x in page
      ensures x.createdAt >= e.createdAt
    {
      var i :| 0 <= i < |page| && page[i] == x;
      assert sorted[i] == x;
      assert LogCreatedAt(sorted[i]) >= LogCreatedAt(sorted[j]);
    }
  }

  /** In valid tables an id names one account row. */
  lemma SameIdSameAccount(t: Tables, a: InstagramAccount, b: InstagramAccount)
    requires ValidTables(t) && a in t.accounts && b in t.accounts && a.id == b.id
    ensures a == b
  {
    var i :| 0 <= i < |t.accounts| && t.accounts[i] == a;
    var j :| 0 <= j < |t.accounts| && t.accounts[j] == b;
    forall m | 0 <= m < |t.accounts| && t.accounts[m].id == a.id
      ensures m == i
    {
    }
  }

  /** In valid tables an id names one automation row. */
  lemma SameIdSameAutomation(t: Tables, a: Automation, b: Automation)
    requires ValidTables(t) && a in t.automations && b in t.automations && a.id == b.id
    ensures a == b
  {
    var i :| 0 <= i < |t.automations| && t.automations[i] == a;
    var j :| 0 <= j < |t.automations| && t.automations[j] == b;
    forall m | 0 <= m < |t.automations| && t.automations[m].id == a.id
      ensures m == i
    {
    }
  }

  /** After `updateAutomation` the row reads back as the merge of the patch into it, and every
      other row is still there unchanged. */
  lemma PatchAutomationReadBack(t: Tables, id: Id, p: AutomationPatch, now: int, a: Automation)
    requires ValidTables(t) && a in t.automations && a.id == id && PatchAutomation(t, id, p, now).Some?
    ensures var u := PatchAutomation(t, id, p, now).value;
      AutomationById(u, id) == Some(Merge(a, p, now)) &&
      forall b :: b in t.automations && b.id != id ==> b in u.automations
  {
    var u := PatchAutomation(t, id, p, now).value.automations;
    var j :| 0 <= j < |t.automations| && t.automations[j] == a;
    assert u[j] == Merge(a, p, now);
    var found := AutomationById(PatchAutomation(t, id, p, now).value, id).value;
    var k :| 0 <= k < |u| && u[k] == found;
    SameIdSameAutomation(t, t.automations[k], a);
    forall b | b in t.automations && b.id != id
      ensures b in u
    {
      var m :| 0 <= m < |t.automations| && t.automations[m] == b;
      assert u[m] == b;
    }
  }

  // ---------------------------------------------------------------- the store object

  /** The store the routes and the webhook handler share: the three tables as fields that its
      methods update in place. Each method's effect is the corresponding function above. */
  class DatabaseStorage {
    var accounts: seq<InstagramAccount>
    var automations: seq<Automation>
    var activityLog: seq<ActivityLogEntry>
    var nextId: Id

    /** The tables as a value. */
    function State(): Tables
      reads this
    {
      Tables(accounts, automations, activityLog, nextId)
    }

    ghost predicate Valid()
      reads this
    {
      ValidTables(State())
    }

    constructor ()
      ensures Valid() && State() == EMPTY_TABLES
    {
      accounts, automations, activityLog, nextId := [], [], [], 0;
      EmptyTablesValid();
    }

    function GetInstagramAccount(id: Id): Option<InstagramAccount>
      reads this
    {
      AccountById(State(), id)
    }

    function GetInstagramAccountsByUserId(userId: Id): seq<InstagramAccount>
      reads this
    {
      AccountsByUserId(State(), userId)
    }

    function GetInstagramAccountByInstagramUserId(igUserId: string): Option<InstagramAccount>
      reads this
    {
      AccountByInstagramUserId(State(), igUserId)
    }

    function GetInstagramAccountByBusinessId(businessId: string): Option<InstagramAccount>
      reads this
    {
      AccountByBusinessId(State(), businessId)
    }

    function GetAutomation(id: Id): Option<Automation>
      reads this
    {
      AutomationById(State(), id)
    }

    function GetAutomationsByUserId(userId: Id): seq<Automation>
      reads this
    {
      AutomationsByUserId(State(), userId)
    }

    function GetAutomationsByInstagramAccountId(accountId: Id): seq<Automation>
      reads this
    {
      AutomationsByAccount(State(), accountId)
    }

    function GetAllActiveAutomations(): seq<Automation>
      reads this
    {
      ActiveAutomations(State())
    }

    function GetActivityLog(userId: Id, limit: nat): seq<ActivityLogEntry>
      reads this
    {
      ActivityLogOf(State(), userId, limit)
    }

    method CreateInstagramAccount(n: NewInstagramAccount, now: int) returns (row: InstagramAccount)
      requires Valid()
      modifies this
      ensures Valid()
      ensures Written(State(), row) == InsertAccount(old(State()), n, now)
    {
      InsertAccountValid(State(), n, now);
      row := AccountRow(n, nextId, now);
      accounts := accounts + [row];
      nextId := nextId + 1;
    }

    method UpsertInstagramAccount(n: NewInstagramAccount, now: int) returns (row: InstagramAccount)
      requires Valid()
      modifies this
      ensures Valid()
      ensures Written(State(), row) == UpsertAccount(old(State()), n, now)
    {
      UpsertAccountValid(State(), n, now);
      var w := UpsertAccount(State(), n, now);
      accounts, nextId := w.tables.accounts, w.tables.nextId;
      row := w.row;
    }

    method UpdateInstagramAccountToken(id: Id, token: string, expiresIn: int, now: int)
      requires Valid()
      modifies this
      ensures Valid()
      ensures State() == UpdateAccountToken(old(State()), id, token, expiresIn, now)
    {
      UpdateAccountTokenValid(State(), id, token, expiresIn, now);
      accounts := UpdateAccountToken(State(), id, token, expiresIn, now).accounts;
    }

    method UpdateInstagramAccountBusinessId(id: Id, businessId: string, now: int)
      requires Valid()
      modifies this
      ensures Valid()
      ensures State() == SetBusinessId(old(State()), id, businessId, now)
    {
      SetBusinessIdValid(State(), id, businessId, now);
      accounts := SetBusinessId(State(), id, businessId, now).accounts;
    }

    method UpdateInstagramAccountPageToken(id: Id, pageToken: string, pageId: string, now: int)
      requires Valid()
      modifies this
      ensures Valid()
      ensures State() == SetPageToken(old(State()), id, pageToken, pageId, now)
    {
      SetPageTokenValid(State(), id, pageToken, pageId, now);
      accounts := SetPageToken(State(), id, pageToken, pageId, now).accounts;
    }

    /** `ok` is false when the database refuses the delete; the tables are then unchanged. */
    method DeleteInstagramAccount(id: Id) returns (ok: bool)
      requires Valid()
      modifies this
      ensures Valid()
      ensures ok == RemoveAccount(old(State()), id).Some?
      ensures State() == if ok then RemoveAccount(old(State()), id).value else old(State())
    {
      var r := RemoveAccount(State(), id);
      ok := r.Some?;
      if ok {
        RemoveAccountValid(State(), id);
        accounts := r.value.accounts;
      }
    }

    method CreateAutomation(n: NewAutomation, now: int) returns (row: Option<Automation>)
      requires Valid()
      modifies this
      ensures Valid()
      ensures var r := InsertAutomation(old(State()), n, now);
        if r.Some? then row == Some(r.value.row) && State() == r.value.tables
        else row.None? && State() == old(State())
    {
      var r := InsertAutomation(State(), n, now);
      if r.Some? {
        InsertAutomationValid(State(), n, now);
        automations, nextId := r.value.tables.automations, r.value.tables.nextId;
        row := Some(r.value.row);
      } else {
        row := None;
      }
    }

    method UpdateAutomation(id: Id, p: AutomationPatch, now: int) returns (ok: bool)
      requires Valid()
      modifies this
      ensures Valid()
      ensures ok == PatchAutomation(old(State()), id, p, now).Some?
      ensures State() == if ok then PatchAutomation(old(State()), id, p, now).value else old(State())
    {
      var r := PatchAutomation(State(), id, p, now);
      ok := r.Some?;
      if ok {
        PatchAutomationValid(State(), id, p, now);
        automations := r.value.automations;
      }
    }

    method DeleteAutomation(id: Id) returns (ok: bool)
      requires Valid()
      modifies this
      ensures Valid()
      ensures ok == RemoveAutomation(old(State()), id).Some?
      ensures State() == if ok then RemoveAutomation(old(State()), id).value else old(State())
    {
      var r := RemoveAutomation(State(), id);
      ok := r.Some?;
      if ok {
        RemoveAutomationValid(State(), id);
        automations := r.value.automations;
      }
    }

    method CreateActivityLog(e: NewActivityLogEntry, now: int) returns (row: Option<ActivityLogEntry>)
      requires Valid()
      modifies this
      ensures Valid()
      ensures var r := InsertLog(old(State()), e, now);
        if r.Some? then row == Some(r.value.row) && State() == r.value.tables
        else row.None? && State() == old(State())
    {
      var r := InsertLog(State(), e, now);
      if r.Some? {
        InsertLogValid(State(), e, now);
        activityLog, nextId := r.value.tables.activityLog, r.value.tables.nextId;
        row := Some(r.value.row);
      } else {
        row := None;
      }
    }
  }
}
