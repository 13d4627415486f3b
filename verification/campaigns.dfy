/**
 * The campaigns page: a fixed campaign list filtered by a case-insensitive
 * name search, the status badge text and colour, the pause/play action and
 * the empty-state hint. Its labels go through the translation function under
 * `campaigns.*` keys.
 */
module Campaigns {
  import opened Wrappers
  import opened Text
  import opened ListFilter
  import opened Translations
  import opened Localization

  /** A campaign; its `status` is one of 'active', 'paused', 'completed', 'draft'. */
  datatype Campaign = Campaign(
    id: string,
    name: string,
    description: string,
    budget: real,
    spent: real,
    reach: int,
    clicks: int,
    status: string,
    startDate: string,
    endDate: string,
    platform: string,
    image: string)

  const ActiveColor: string := "bg-green-100 text-green-800 dark:bg-green-900/20 dark:text-green-400"
  const PausedColor: string := "bg-yellow-100 text-yellow-800 dark:bg-yellow-900/20 dark:text-yellow-400"
  const CompletedColor: string := "bg-blue-100 text-blue-800 dark:bg-blue-900/20 dark:text-blue-400"
  const DraftColor: string := "bg-gray-100 text-gray-800 dark:bg-gray-900/20 dark:text-gray-400"

  /** `campaign.name.toLowerCase().includes(searchTerm.toLowerCase())` */
  predicate Keep(c: Campaign, searchTerm: string)
  {
    Includes(Lower(c.name), Lower(searchTerm))
  }

  /** `filteredCampaigns` */
  function FilteredCampaigns(campaigns: seq<Campaign>, searchTerm: string): (shown: seq<Campaign>)
    ensures |shown| <= |campaigns|
    ensures forall i :: 0 <= i < |shown| ==> Includes(Lower(shown[i].name), Lower(searchTerm))
  {
    Filter(campaigns, c => Keep(c, searchTerm))
  }

  /** A campaign is shown iff it is listed and its name contains the search term, ignoring case. */
  lemma FilteredCampaignsMembership(campaigns: seq<Campaign>, searchTerm: string, c: Campaign)
    ensures c in FilteredCampaigns(campaigns, searchTerm) <==>
      c in campaigns && exists i :: OccursAt(Lower(c.name), Lower(searchTerm), i)
  {
    FilterMembership(campaigns, c' => Keep(c', searchTerm), c);
    IncludesIff(Lower(c.name), Lower(searchTerm));
  }

  /** A campaign whose name matches is shown as many times as it is listed; any other campaign not at all. */
  lemma FilteredCampaignsCount(campaigns: seq<Campaign>, searchTerm: string, c: Campaign)
    ensures multiset(FilteredCampaigns(campaigns, searchTerm))[c] ==
      if Keep(c, searchTerm) then multiset(campaigns)[c] else 0
  {
    FilterCount(campaigns, c' => Keep(c', searchTerm), c);
  }

  /** The campaigns shown keep the order of the campaign list. */
  lemma FilteredCampaignsOrdered(campaigns: seq<Campaign>, searchTerm: string)
    ensures IsSubsequence(FilteredCampaigns(campaigns, searchTerm), campaigns)
  {
    FilterIsSubsequence(campaigns, c => Keep(c, searchTerm));
  }

  /** An empty search shows every campaign. */
  lemma EmptySearchShowsAll(campaigns: seq<Campaign>)
    ensures FilteredCampaigns(campaigns, "") == campaigns
  {
    forall c | c in campaigns ensures Keep(c, "") {
      IncludesEmpty(Lower(c.name));
    }
    FilterKeepsAll(campaigns, c => Keep(c, ""));
  }

  /** The search ignores case: a lower-cased search term shows the same campaigns. */
  lemma SearchIgnoresCase(campaigns: seq<Campaign>, searchTerm: string)
    ensures FilteredCampaigns(campaigns, Lower(searchTerm)) == FilteredCampaigns(campaigns, searchTerm)
  {
    LowerIdempotent(searchTerm);
    FilterCongruent(campaigns, c => Keep(c, Lower(searchTerm)), c => Keep(c, searchTerm));
  }

  /** `status.charAt(0).toUpperCase() + status.slice(1)`; the empty status stays empty. */
  function StatusLabel(status: string): (badge: string)
    ensures |badge| == |status|
    ensures status != [] ==> badge[1..] == status[1..]
    ensures status != [] ==> badge[0] == UpperChar(status[0])
  {
    if status == [] then [] else [UpperChar(status[0])] + status[1..]
  }

  /** The badge differs from the status in case only: lower-casing both gives the same text. */
  lemma StatusLabelSameLetters(status: string)
    ensures Lower(StatusLabel(status)) == Lower(status)
  {
    if status != [] {
      LowerUpperChar(status[0]);
      assert forall i :: 1 <= i < |status| ==> StatusLabel(status)[i] == status[i];
    }
  }

  /** The four statuses as badges. */
  lemma StatusLabelExamples()
    ensures StatusLabel("active") == "Active" && StatusLabel("paused") == "Paused"
    ensures StatusLabel("completed") == "Completed" && StatusLabel("draft") == "Draft"
  {
  }

  /** The action button offered next to Edit and Delete. */
  datatype Action = Pause | Play

  /** Pause for an active campaign, Play for a paused one, nothing otherwise. */
  function ToggleAction(status: string): (action: Option<Action>)
    ensures action == Some(Pause) <==> status == "active"
    ensures action == Some(Play) <==> status == "paused"
    ensures action.None? <==> status != "active" && status != "paused"
  {
    if status == "active" then Some(Pause)
    else if status == "paused" then Some(Play)
    else None
  }

  /** `getStatusColor` */
  function StatusColor(status: string): (color: string)
    ensures color == DraftColor <==> status !in {"active", "paused", "completed"}
  {
    match status
    case "active" => ActiveColor
    case "paused" => PausedColor
    case "completed" => CompletedColor
    case "draft" => DraftColor
    case _ => DraftColor
  }

  /** The translation key of the hint under "no campaigns found". */
  function EmptyStateHintKey(searchTerm: string): (key: string)
    ensures key == "campaigns.adjustSearchCriteria" <==> searchTerm != ""
    ensures key == "campaigns.createFirstCampaign" <==> searchTerm == ""
  {
    if searchTerm != "" then "campaigns.adjustSearchCriteria" else "campaigns.createFirstCampaign"
  }

  /**
   * No catalog has a `campaigns` namespace, so every `campaigns.<name>` label of
   * this page is shown as the raw key, in every language.
   */
  lemma CampaignLabelsUntranslated(lang: Language, name: string)
    requires '.' !in name
    ensures Translate(lang, "campaigns." + name) == "campaigns." + name
  {
    assert forall i :: 0 <= i < |TopKeys| ==> TopKeys[i] != "campaigns";
    assert "campaigns." + name == "campaigns" + "." + name;
    UnknownNamespaceFallsBack(lang, "campaigns", name);
  }
}
