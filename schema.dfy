/** The records stored by the service (the `instagram_accounts`, `automations` and `activity_log`
    tables) and the shapes used to insert them, with their column defaults. Nullable or optional
    columns are `Option`s; row ids (generated uuids) and user ids are natural numbers; timestamps
    are integers supplied by the caller. */
module Schema {
  import opened Wrappers

  type Id = nat

  /** The automation kinds the webhook engine acts on; any other kind is inert. */
  const COMMENT_TO_DM: string := "comment_to_dm"
  const AUTO_DM_REPLY: string := "auto_dm_reply"

  /** Activity-log actions written by the webhook engine. */
  const COMMENT_DM_SENT: string := "comment_dm_sent"
  const DM_AUTO_REPLY: string := "dm_auto_reply"

  /** Column default of `instagram_accounts.token_type`. */
  const DEFAULT_TOKEN_TYPE: string := "bearer"

  /** A connected Instagram account. `igBusinessAccountId` is nullable and is back-filled by the
      webhook engine; nothing in the schema makes `(userId, instagramUserId)` unique. */
  datatype InstagramAccount = InstagramAccount(
    id: Id,
    userId: Id,
    instagramUserId: string,
    igBusinessAccountId: Option<string>,
    username: string,
    accessToken: string,
    pageAccessToken: Option<string>,
    pageId: Option<string>,
    tokenType: Option<string>,
    expiresIn: Option<int>,
    isActive: Option<bool>,
    createdAt: int,
    updatedAt: int)

  /** The insert shape of an account: the required columns and the optional ones; an absent
      `tokenType` or `isActive` takes the column default. */
  datatype NewInstagramAccount = NewInstagramAccount(
    userId: Id,
    instagramUserId: string,
    igBusinessAccountId: Option<string>,
    username: string,
    accessToken: string,
    pageAccessToken: Option<string>,
    pageId: Option<string>,
    tokenType: Option<string>,
    expiresIn: Option<int>,
    isActive: Option<bool>)

  /** The free-form `config` of an automation: every field is optional. */
  datatype AutomationConfig = AutomationConfig(
    prompt: Option<string>,
    triggerWords: Option<seq<string>>,
    responseTemplate: Option<string>,
    delaySeconds: Option<int>,
    keywords: Option<seq<string>>,
    mediaId: Option<string>,
    mediaPermalink: Option<string>,
    messageTemplate: Option<string>)

  /** The `stats` of an automation; the column default `{}` has neither field. */
  datatype AutomationStats = AutomationStats(totalReplies: Option<int>, lastTriggered: Option<int>)

  const EMPTY_STATS: AutomationStats := AutomationStats(None, None)

  /** An automation rule. `kind` is the `type` column; a null `is_active` reads as inactive
      everywhere the source looks at it, so it is a plain boolean here. */
  datatype Automation = Automation(
    id: Id,
    userId: Id,
    instagramAccountId: Id,
    kind: string,
    title: string,
    description: Option<string>,
    isActive: bool,
    config: Option<AutomationConfig>,
    stats: AutomationStats,
    createdAt: int,
    updatedAt: int)

  /** The insert shape of an automation; absent `isActive` defaults to false, absent `stats` to `{}`. */
  datatype NewAutomation = NewAutomation(
    userId: Id,
    instagramAccountId: Id,
    kind: string,
    title: string,
    description: Option<string>,
    isActive: Option<bool>,
    config: Option<AutomationConfig>,
    stats: Option<AutomationStats>)

  /** An activity-log row: `userId` and `action` are required, the rest optional. */
  datatype ActivityLogEntry = ActivityLogEntry(
    id: Id,
    userId: Id,
    automationId: Option<Id>,
    action: string,
    targetUsername: Option<string>,
    details: Option<string>,
    createdAt: int)

  datatype NewActivityLogEntry = NewActivityLogEntry(
    userId: Id,
    automationId: Option<Id>,
    action: string,
    targetUsername: Option<string>,
    details: Option<string>)

  /** The row an account insert creates: the given columns, the defaults for the absent ones. */
  function AccountRow(a: NewInstagramAccount, id: Id, now: int): (r: InstagramAccount)
    ensures r.id == id && r.userId == a.userId && r.instagramUserId == a.instagramUserId
    ensures r.accessToken == a.accessToken && r.igBusinessAccountId == a.igBusinessAccountId
    ensures r.username == a.username && r.pageAccessToken == a.pageAccessToken && r.pageId == a.pageId
    ensures r.expiresIn == a.expiresIn
    ensures r.tokenType == Some(a.tokenType.GetOr(DEFAULT_TOKEN_TYPE))
    ensures r.isActive == Some(a.isActive.GetOr(true))
    ensures r.createdAt == now && r.updatedAt == now
  {
    InstagramAccount(id, a.userId, a.instagramUserId, a.igBusinessAccountId, a.username, a.accessToken,
                     a.pageAccessToken, a.pageId, Some(a.tokenType.GetOr(DEFAULT_TOKEN_TYPE)), a.expiresIn,
                     Some(a.isActive.GetOr(true)), now, now)
  }

  /** The row an automation insert creates: inactive unless stated, stats `{}` unless given. */
  function AutomationRow(a: NewAutomation, id: Id, now: int): (r: Automation)
    ensures r.id == id && r.userId == a.userId && r.instagramAccountId == a.instagramAccountId
    ensures r.kind == a.kind && r.title == a.title && r.description == a.description && r.config == a.config
    ensures r.isActive <==> a.isActive == Some(true)
    ensures a.stats.None? ==> r.stats == EMPTY_STATS
    ensures a.stats.Some? ==> r.stats == a.stats.value
    ensures r.createdAt == now && r.updatedAt == now
  {
    Automation(id, a.userId, a.instagramAccountId, a.kind, a.title, a.description,
               a.isActive.GetOr(false), a.config, a.stats.GetOr(EMPTY_STATS), now, now)
  }

  /** The row an activity-log insert creates. */
  function LogRow(e: NewActivityLogEntry, id: Id, now: int): (r: ActivityLogEntry)
    ensures r.id == id && r.userId == e.userId && r.automationId == e.automationId
    ensures r.action == e.action && r.targetUsername == e.targetUsername && r.details == e.details
    ensures r.createdAt == now
  {
    ActivityLogEntry(id, e.userId, e.automationId, e.action, e.targetUsername, e.details, now)
  }
}
