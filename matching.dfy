/** Which automation rules a comment or a direct message sets off: the rule filters, the keyword
    search and the trigger-word test of the webhook handler (server/routes.ts). Text comparison is
    `toLowerCase` on both sides followed by `includes`. */
module Matching {
  import opened Wrappers
  import opened Text
  import opened Schema

  /** A JavaScript-truthy optional string: present and not empty. */
  predicate Given(o: Option<string>) {
    o.Some? && o.value != ""
  }

  predicate IsActiveCommentRule(a: Automation) {
    a.isActive && a.kind == COMMENT_TO_DM
  }

  predicate IsActiveDmRule(a: Automation) {
    a.isActive && a.kind == AUTO_DM_REPLY
  }

  // ---------------------------------------------------------------- rule configuration

  /** `config?.keywords || []`. */
  function Keywords(a: Automation): seq<string> {
    if a.config.Some? then a.config.value.keywords.GetOr([]) else []
  }

  /** `config?.messageTemplate || ""`. */
  function MessageTemplate(a: Automation): string {
    if a.config.Some? then a.config.value.messageTemplate.GetOr("") else ""
  }

  /** `config?.mediaId`. */
  function TargetMediaId(a: Automation): Option<string> {
    if a.config.Some? then a.config.value.mediaId else None
  }

  /** `config?.triggerWords || []`. */
  function TriggerWords(a: Automation): seq<string> {
    if a.config.Some? then a.config.value.triggerWords.GetOr([]) else []
  }

  /** `config?.prompt || ""`. */
  function Prompt(a: Automation): string {
    if a.config.Some? then a.config.value.prompt.GetOr("") else ""
  }

  // ---------------------------------------------------------------- comments

  /** The media filter: a rule with a (truthy) target media only accepts comments on that media;
      a comment without a media id never passes a filtering rule. */
  predicate OnTargetMedia(a: Automation, mediaId: Option<string>) {
    !Given(TargetMediaId(a)) || mediaId == TargetMediaId(a)
  }

  /** `keywords.find(kw => text.includes(kw.toLowerCase()))` over an already lower-cased text. */
  function FirstKeywordIn(keywords: seq<string>, text: string): (r: Option<string>)
    ensures r.Some? ==> r.value in keywords && Contains(text, Lower(r.value))
    ensures r.None? <==> forall kw :: kw in keywords ==> !Contains(text, Lower(kw))
  {
    if keywords == [] then None
    else if Contains(text, Lower(keywords[0])) then Some(keywords[0])
    else FirstKeywordIn(keywords[1..], text)
  }

  /** The keyword found in a comment's text (`(text || "").toLowerCase()`), if any. */
  function MatchedKeyword(a: Automation, text: Option<string>): Option<string> {
    FirstKeywordIn(Keywords(a), Lower(text.GetOr("")))
  }

  /** A comment sets a rule off: the rule is an active comment rule, the comment is on its target
      media, and the keyword found is truthy (an empty keyword is found but does not fire). */
  predicate CommentRuleFires(a: Automation, mediaId: Option<string>, text: Option<string>) {
    IsActiveCommentRule(a) && OnTargetMedia(a, mediaId) && Given(MatchedKeyword(a, text))
  }

  /** The search returns the first keyword the text contains. */
  lemma {:induction false} FirstKeywordAt(keywords: seq<string>, text: string, i: nat)
    requires i < |keywords| && Contains(text, Lower(keywords[i]))
    requires forall j :: 0 <= j < i ==> !Contains(text, Lower(keywords[j]))
    ensures FirstKeywordIn(keywords, text) == Some(keywords[i])
  {
    if i > 0 {
      assert !Contains(text, Lower(keywords[0]));
      assert forall j :: 0 <= j < i - 1 ==> keywords[1..][j] == keywords[j + 1];
      FirstKeywordAt(keywords[1..], text, i - 1);
    }
  }

  /** When the search finds something, it is the keyword at some index with no earlier match. */
  lemma {:induction false} FirstKeywordIndex(keywords: seq<string>, text: string) returns (i: nat)
    requires FirstKeywordIn(keywords, text).Some?
    ensures i < |keywords| && FirstKeywordIn(keywords, text) == Some(keywords[i])
    ensures Contains(text, Lower(keywords[i]))
    ensures forall j :: 0 <= j < i ==> !Contains(text, Lower(keywords[j]))
  {
    if Contains(text, Lower(keywords[0])) {
      i := 0;
    } else {
      var k := FirstKeywordIndex(keywords[1..], text);
      i := k + 1;
      forall j | 0 <= j < i
        ensures !Contains(text, Lower(keywords[j]))
      {
        if j > 0 {
          assert keywords[j] == keywords[1..][j - 1];
        }
      }
    }
  }

  /** A comment fires a rule exactly when, among the rule's keywords, the first one the lower-cased
      text contains is not empty; in particular a rule without keywords never fires. */
  lemma CommentRuleFiresIff(a: Automation, mediaId: Option<string>, text: Option<string>)
    ensures var kws := Keywords(a);
      var lowered := Lower(text.GetOr(""));
      CommentRuleFires(a, mediaId, text) <==>
        IsActiveCommentRule(a) && OnTargetMedia(a, mediaId) &&
        exists i :: 0 <= i < |kws| && kws[i] != "" && Contains(lowered, Lower(kws[i])) &&
          forall j :: 0 <= j < i ==> !Contains(lowered, Lower(kws[j]))
    ensures Keywords(a) == [] ==> !CommentRuleFires(a, mediaId, text)
  {
    var kws := Keywords(a);
    var lowered := Lower(text.GetOr(""));
    if FirstKeywordIn(kws, lowered).Some? {
      var i := FirstKeywordIndex(kws, lowered);
      forall i' | 0 <= i' < |kws| && Contains(lowered, Lower(kws[i'])) &&
          (forall j :: 0 <= j < i' ==> !Contains(lowered, Lower(kws[j])))
        ensures i' == i
      {
      }
    }
  }

  /** An empty keyword, reached before any other keyword matches, blocks the rule: `includes("")`
      is true, so the search stops on it, and an empty string is falsy. */
  lemma EmptyKeywordBlocks(a: Automation, mediaId: Option<string>, text: Option<string>, i: nat)
    requires i < |Keywords(a)| && Keywords(a)[i] == ""
    requires forall j :: 0 <= j < i ==> !Contains(Lower(text.GetOr("")), Lower(Keywords(a)[j]))
    ensures !CommentRuleFires(a, mediaId, text)
  {
    var lowered := Lower(text.GetOr(""));
    assert Lower(Keywords(a)[i]) == "";
    ContainsEmpty(lowered);
    FirstKeywordAt(Keywords(a), lowered, i);
  }

  /** Matching ignores the case of the comment text. */
  lemma CommentRuleIgnoresCase(a: Automation, mediaId: Option<string>, text: string)
    ensures CommentRuleFires(a, mediaId, Some(text)) <==> CommentRuleFires(a, mediaId, Some(Lower(text)))
  {
    LowerIdempotent(text);
  }

  /** The rule of the usage guide: keyword "guide" on every post fires on a comment saying
      "Send me the GUIDE please" and not on "no match here". */
  lemma GuideRuleExample(config: AutomationConfig, a: Automation)
    requires config.keywords == Some(["guide"]) && config.mediaId.None?
    requires a.kind == COMMENT_TO_DM && a.isActive && a.config == Some(config)
    ensures CommentRuleFires(a, Some("media-1"), Some("Send me the GUIDE please"))
    ensures MatchedKeyword(a, Some("Send me the GUIDE please")) == Some("guide")
    ensures !CommentRuleFires(a, Some("media-1"), Some("no match here"))
  {
    var hit := Lower("Send me the GUIDE please");
    assert Lower("guide") == "guide";
    assert hit[12..17] == "guide";
    assert OccursAt(hit, "guide", 12);
    var miss := Lower("no match here");
    NotContainsWithout(miss, "guide");
  }

  /** A rule restricted to one post ignores a matching comment on another post. */
  lemma MediaFilterExample(config: AutomationConfig, a: Automation)
    requires config.keywords == Some(["link"]) && config.mediaId == Some("post-42")
    requires a.kind == COMMENT_TO_DM && a.isActive && a.config == Some(config)
    ensures CommentRuleFires(a, Some("post-42"), Some("link please"))
    ensures !CommentRuleFires(a, Some("post-7"), Some("link please"))
    ensures !CommentRuleFires(a, None, Some("link please"))
  {
    assert Lower("link") == "link";
    assert Lower("link please")[0..4] == "link";
    assert OccursAt(Lower("link please"), "link", 0);
  }

  // ---------------------------------------------------------------- direct messages

  /** `triggerWords.some(tw => text.includes(tw.toLowerCase()))` over an already lower-cased text. */
  function AnyTriggerIn(words: seq<string>, text: string): (r: bool)
    ensures r <==> exists i :: 0 <= i < |words| && Contains(text, Lower(words[i]))
  {
    if words == [] then false
    else Contains(text, Lower(words[0])) || AnyTriggerIn(words[1..], text)
  }

  /** A direct message sets a rule off: an active DM rule with no trigger words answers every
      message, otherwise one trigger word must occur in the lower-cased text. */
  predicate DmRuleFires(a: Automation, text: string) {
    IsActiveDmRule(a) && (|TriggerWords(a)| == 0 || AnyTriggerIn(TriggerWords(a), Lower(text)))
  }

  /** A DM rule with an empty trigger word answers every message, like one with none. */
  lemma EmptyTriggerMatchesAll(a: Automation, text: string, i: nat)
    requires IsActiveDmRule(a) && i < |TriggerWords(a)| && TriggerWords(a)[i] == ""
    ensures DmRuleFires(a, text)
  {
    assert Lower(TriggerWords(a)[i]) == "";
    ContainsEmpty(Lower(text));
  }

  /** A DM rule answers a message exactly when it answers its lower-cased form. */
  lemma DmRuleIgnoresCase(a: Automation, text: string)
    ensures DmRuleFires(a, text) <==> DmRuleFires(a, Lower(text))
  {
    LowerIdempotent(text);
  }
}
