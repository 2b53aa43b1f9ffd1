/** The automation form of the dashboard's Automations page (client/src/pages/Automations.tsx):
    the check and the request body of "create", the request of the on/off switch, and the reset of
    the form. The form's fields are the strings the inputs hold. */
module AutomationsForm {
  import opened Wrappers
  import opened Text
  import opened Schema
  import opened Storage
  import opened Http
  import opened Matching
  import opened Routes

  datatype FormData = FormData(
    kind: string,
    title: string,
    description: string,
    instagramAccountId: string,
    mediaId: string,
    mediaPermalink: string,
    keywords: string,
    messageTemplate: string,
    prompt: string)

  /** The form as the page opens it and as a reset leaves it. */
  const EMPTY_FORM: FormData := FormData(COMMENT_TO_DM, "", "", "", "", "", "", "", "")

  /** One post of the account, as the media picker lists it. */
  datatype MediaItem = MediaItem(id: string, permalink: string)

  /** The body sent to create an automation. */
  datatype CreatePayload = CreatePayload(
    kind: string,
    title: string,
    description: string,
    instagramAccountId: string,
    isActive: bool,
    config: AutomationConfig)

  /** What pressing "create" does: one of the two "missing fields" messages, or the request. */
  datatype CreateOutcome = MissingRequiredFields | MissingKeywordsOrTemplate | Submit(payload: CreatePayload)

  /** The keyword field: split on commas, each piece trimmed and lower-cased; an empty field gives
      no keywords. */
  function ParseKeywords(s: string): seq<string> {
    if s == "" then [] else KeywordsOf(Split(s, ','))
  }

  /** One piece of the keyword field, trimmed and lower-cased. */
  function Keyword(piece: string): string {
    Lower(Trim(piece))
  }

  /** The keywords of the pieces, in order. */
  function KeywordsOf(pieces: seq<string>): (r: seq<string>)
    ensures |r| == |pieces|
    ensures forall i :: 0 <= i < |pieces| ==> r[i] == Keyword(pieces[i])
  {
    if pieces == [] then [] else [Keyword(pieces[0])] + KeywordsOf(pieces[1..])
  }

  /** `handleCreateAutomation`: title and account are required, and a comment rule also needs
      keywords and a message template; the rule is created switched off, and its configuration
      carries the keyword list and never any trigger words. */
  function CreateRequest(f: FormData): CreateOutcome {
    if f.title == "" || f.instagramAccountId == "" then MissingRequiredFields
    else if f.kind == COMMENT_TO_DM && (f.keywords == "" || f.messageTemplate == "") then MissingKeywordsOrTemplate
    else
      Submit(CreatePayload(f.kind, f.title, f.description, f.instagramAccountId, false,
        AutomationConfig(Some(f.prompt), None, None, None, Some(ParseKeywords(f.keywords)),
                         Some(f.mediaId), Some(f.mediaPermalink), Some(f.messageTemplate))))
  }

  /** A PATCH request: the automation's id and the body. */
  datatype PatchRequest = PatchRequest(id: Id, patch: AutomationPatch)

  /** `handleToggle`: ask for the opposite of the state the switch shows. */
  function ToggleRequest(id: Id, currentState: bool): PatchRequest {
    PatchRequest(id, ActivePatch(!currentState))
  }

  /** The page's state that the form's handlers change. */
  class AutomationsPage {
    var formData: FormData
    var media: seq<MediaItem>

    constructor ()
      ensures formData == EMPTY_FORM && media == []
    {
      formData := EMPTY_FORM;
      media := [];
    }

    /** `resetForm`: back to the empty form, with no posts listed. */
    method ResetForm()
      modifies this
      ensures formData == EMPTY_FORM && media == []
    {
      formData := EMPTY_FORM;
      media := [];
    }
  }

  // ---------------------------------------------------------------- properties

  lemma LowerCharKeepsWhitespace(c: char)
    ensures IsWhitespace(LowerChar(c)) <==> IsWhitespace(c)
    ensures LowerChar(c) == ',' <==> c == ','
  {
  }

  /** Lower-casing keeps every character of the trimmed piece, so it adds no comma. */
  lemma KeywordHasNoComma(p: string)
    requires ',' !in p
    ensures ',' !in Keyword(p)
  {
    var trimmed := Trim(p);
    TrimShape(p);
    var i, j :| 0 <= i <= j <= |p| && trimmed == p[i..j];
    var k := Lower(trimmed);
    forall m | 0 <= m < |k|
      ensures k[m] != ','
    {
      assert trimmed[m] == p[i + m];
      LowerCharKeepsWhitespace(trimmed[m]);
    }
  }

  /** Lower-casing keeps the trimmed piece's edges free of whitespace. */
  lemma KeywordEdges(p: string)
    ensures var k := Keyword(p);
      k == "" || (!IsWhitespace(k[0]) && !IsWhitespace(k[|k| - 1]))
  {
    var trimmed := Trim(p);
    TrimShape(p);
    if trimmed != "" {
      LowerCharKeepsWhitespace(trimmed[0]);
      LowerCharKeepsWhitespace(trimmed[|trimmed| - 1]);
    }
  }

  /** One keyword: a piece without commas, trimmed and lower-cased, is lower-case, has no comma
      and no surrounding whitespace. */
  lemma KeywordShape(p: string)
    requires ',' !in p
    ensures var k := Keyword(p);
      Lower(k) == k && ',' !in k && (k == "" || (!IsWhitespace(k[0]) && !IsWhitespace(k[|k| - 1])))
  {
    LowerIdempotent(Trim(p));
    KeywordHasNoComma(p);
    KeywordEdges(p);
  }

  /** The keyword list has one entry per comma-separated piece, in order: the pieces are free of
      commas and, joined with commas, give back the typed text. */
  lemma ParseKeywordsPieces(s: string)
    requires s != ""
    ensures var r := ParseKeywords(s);
      |r| == Count(s, ',') + 1 &&
      exists pieces :: Join(pieces, ',') == s && |pieces| == |r| &&
        forall i :: 0 <= i < |r| ==> ',' !in pieces[i] && r[i] == Keyword(pieces[i])
  {
    var pieces := Split(s, ',');
    SplitLength(s, ',');
    SplitPiecesHaveNoSeparator(s, ',');
    SplitJoin(s, ',');
    var r := ParseKeywords(s);
    forall i | 0 <= i < |r|
      ensures ',' !in pieces[i] && r[i] == Keyword(pieces[i])
    {
      assert pieces[i] in pieces;
    }
  }

  /** Every keyword is lower-case, has no surrounding whitespace and no comma; an empty field gives
      no keywords. */
  lemma ParseKeywordsShape(s: string)
    ensures s == "" ==> ParseKeywords(s) == []
    ensures forall k :: k in ParseKeywords(s) ==>
      Lower(k) == k && ',' !in k && (k == "" || (!IsWhitespace(k[0]) && !IsWhitespace(k[|k| - 1])))
  {
    if s != "" {
      var pieces := Split(s, ',');
      SplitPiecesHaveNoSeparator(s, ',');
      var r := ParseKeywords(s);
      forall k | k in r
        ensures Lower(k) == k && ',' !in k
        ensures k == "" || (!IsWhitespace(k[0]) && !IsWhitespace(k[|k| - 1]))
      {
        var i :| 0 <= i < |r| && k == r[i];
        assert pieces[i] in pieces;
        KeywordShape(pieces[i]);
      }
    }
  }

  /** Pressing "create" submits exactly when title and account are filled in and, for a comment
      rule, keywords and message template too; the submitted rule is switched off, copies the form's
      fields, carries the parsed keyword list and never any trigger words. */
  lemma CreateRequestChecks(f: FormData)
    ensures var o := CreateRequest(f);
      (o == MissingRequiredFields <==> f.title == "" || f.instagramAccountId == "") &&
      (o == MissingKeywordsOrTemplate <==>
        f.title != "" && f.instagramAccountId != "" &&
        f.kind == COMMENT_TO_DM && (f.keywords == "" || f.messageTemplate == "")) &&
      (o.Submit? <==>
        f.title != "" && f.instagramAccountId != "" &&
        (f.kind != COMMENT_TO_DM || (f.keywords != "" && f.messageTemplate != ""))) &&
      (o.Submit? ==>
        var p := o.payload;
        p.kind == f.kind && p.title == f.title && p.description == f.description &&
        p.instagramAccountId == f.instagramAccountId && !p.isActive &&
        p.config.keywords == Some(ParseKeywords(f.keywords)) && p.config.triggerWords.None? &&
        p.config.mediaId == Some(f.mediaId) && p.config.mediaPermalink == Some(f.mediaPermalink) &&
        p.config.messageTemplate == Some(f.messageTemplate) && p.config.prompt == Some(f.prompt))
  {
  }

  /** A reset form cannot be submitted. */
  lemma ResetFormCannotSubmit()
    ensures CreateRequest(EMPTY_FORM) == MissingRequiredFields
  {
  }

  /** A DM rule created from the form carries no trigger words, whatever keywords were typed; once
      switched on it answers every direct message. */
  lemma FormDmRuleAnswersEveryMessage(f: FormData, a: Automation, text: string)
    requires f.kind == AUTO_DM_REPLY && CreateRequest(f).Submit?
    requires a.kind == f.kind && a.isActive && a.config == Some(CreateRequest(f).payload.config)
    ensures DmRuleFires(a, text)
  {
  }

  /** Rules are created switched off: none fires before it is toggled on. */
  lemma FormRuleStartsSwitchedOff(f: FormData, n: NewAutomation, id: Id, now: int, mediaId: Option<string>, text: string)
    requires CreateRequest(f).Submit? && n.isActive == Some(CreateRequest(f).payload.isActive)
    ensures var a := AutomationRow(n, id, now);
      !a.isActive && !CommentRuleFires(a, mediaId, Some(text)) && !DmRuleFires(a, text)
  {
  }

  /** Two pieces separated by one comma give two keywords. */
  lemma ParseTwoKeywords(a: string, b: string)
    requires ',' !in a && ',' !in b
    ensures ParseKeywords(a + [','] + b) == [Keyword(a), Keyword(b)]
  {
    var s := a + [','] + b;
    SplitWithoutSeparator(b, ',');
    SplitAtSeparator(a, ',', b);
    assert s[|a|] == ',';
    var r := KeywordsOf([a, b]);
    assert r == [r[0], r[1]];
  }

  /** Splitting at two commas gives the three pieces between them. */
  lemma SplitThree(a: string, b: string, c: string)
    requires ',' !in a && ',' !in b && ',' !in c
    ensures Split(a + [','] + b + [','] + c, ',') == [a, b, c]
  {
    SplitWithoutSeparator(c, ',');
    SplitAtSeparator(b, ',', c);
    assert a + [','] + b + [','] + c == a + [','] + (b + [','] + c);
    SplitAtSeparator(a, ',', b + [','] + c);
  }

  /** Three pieces separated by commas give three keywords. */
  lemma ParseThreeKeywords(a: string, b: string, c: string)
    requires ',' !in a && ',' !in b && ',' !in c
    ensures ParseKeywords(a + [','] + b + [','] + c) == [Keyword(a), Keyword(b), Keyword(c)]
  {
    var s := a + [','] + b + [','] + c;
    SplitThree(a, b, c);
    assert s[|a|] == ',';
    var r := KeywordsOf([a, b, c]);
    assert r == [r[0], r[1], r[2]];
  }

  /** A doubled comma in the keyword field leaves an empty keyword in the list. */
  lemma DoubledCommaKeywords(first: string, second: string)
    requires ',' !in first && ',' !in second
    ensures ParseKeywords(first + [',', ','] + second) == [Keyword(first), "", Keyword(second)]
  {
    assert first + [',', ','] + second == first + [','] + [] + [','] + second;
    ParseThreeKeywords(first, [], second);
    TrimUnchanged([]);
    assert Keyword([]) == "";
  }

  /** An empty keyword is found in every comment, so a rule typed as "guide,,link" never fires
      for "link" unless the comment also contains "guide". */
  lemma DoubledCommaBlocksLaterKeywords(a: Automation, first: string, second: string,
                                        mediaId: Option<string>, text: string)
    requires ',' !in first && ',' !in second
    requires Keywords(a) == ParseKeywords(first + [',', ','] + second)
    requires !Contains(Lower(text), Keyword(first))
    ensures !CommentRuleFires(a, mediaId, Some(text))
  {
    var kws := Keywords(a);
    var lowered := Lower(Some(text).GetOr(""));
    DoubledCommaKeywords(first, second);
    assert kws[1] == "" && kws[0] == Keyword(first);
    LowerIdempotent(Trim(first));
    forall j | 0 <= j < 1
      ensures !Contains(lowered, Lower(kws[j]))
    {
      assert j == 0;
    }
    EmptyKeywordBlocks(a, mediaId, Some(text), 1);
  }

  /** The switch flips the rule it is on and nothing else: the row reads back with the opposite
      state, and a second press restores the first. */
  lemma ToggleFlipsActive(t: Tables, userId: Id, a: Automation, now: int, later: int)
    requires ValidTables(t) && a in t.automations && a.userId == userId
    ensures var req := ToggleRequest(a.id, a.isActive);
      var r := PatchRoute(t, Some(userId), req.id, req.patch, now);
      r.status == OK_STATUS &&
      AutomationById(r.tables, a.id) == Some(a.(isActive := !a.isActive, updatedAt := now)) &&
      var back := ToggleRequest(a.id, !a.isActive);
      var r2 := PatchRoute(r.tables, Some(userId), back.id, back.patch, later);
      r2.status == OK_STATUS && AutomationById(r2.tables, a.id) == Some(a.(updatedAt := later))
  {
    var req := ToggleRequest(a.id, a.isActive);
    OwnedAutomationIff(t, Some(userId), a.id);
    PatchRouteEffect(t, Some(userId), a.id, req.patch, now);
    var r := PatchRoute(t, Some(userId), a.id, req.patch, now);
    var flipped := a.(isActive := !a.isActive, updatedAt := now);
    assert Merge(a, req.patch, now) == flipped;
    PatchAutomationValid(t, a.id, req.patch, now);
    var back := ToggleRequest(a.id, !a.isActive);
    OwnedAutomationIff(r.tables, Some(userId), a.id);
    PatchRouteEffect(r.tables, Some(userId), a.id, back.patch, later);
    assert Merge(flipped, back.patch, later) == a.(updatedAt := later);
  }
}
