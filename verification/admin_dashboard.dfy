/**
 * The admin dashboard: the story list with its status counts, the tab filter,
 * deleting a story, moving a story along draft -> pending_approval -> published,
 * and the badge and story-type label lookups.
 *
 * The list is whatever the loader hands over; the confirmation dialog of a delete
 * is a boolean input.
 */
module AdminDashboard {
  import opened Common

  datatype Story = Story(
    id: int,
    title: string,
    description: string,
    status: string,
    storyType: string,
    timePeriod: string,
    scope: string,
    slug: string)

  /** The dashboard's summary figures; the last two are fixed figures, never recomputed. */
  datatype Stats = Stats(
    totalStories: nat,
    publishedStories: nat,
    draftStories: nat,
    reviewStories: nat,
    latestUnemploymentRate: real,
    dataPoints: nat)

  const InitialStats := Stats(0, 0, 0, 0, 5.45, 15420)

  const Published := "published"
  const PendingApproval := "pending_approval"
  const Draft := "draft"
  const AllTab := "all"

  /** The stories with the given status, in list order (`stories.filter(s => s.status === status)`). */
  function WithStatus(stories: seq<Story>, status: string): (r: seq<Story>)
    ensures |r| <= |stories|
    ensures forall s :: s in r <==> s in stories && s.status == status
  {
    if |stories| == 0 then []
    else
      var rest := WithStatus(stories[1..], status);
      assert forall s :: s in stories <==> s == stories[0] || s in stories[1..];
      if stories[0].status == status then [stories[0]] + rest else rest
  }

  function Statuses(stories: seq<Story>): (r: seq<string>)
    ensures |r| == |stories|
    ensures forall i :: 0 <= i < |stories| ==> r[i] == stories[i].status
  {
    seq(|stories|, i requires 0 <= i < |stories| => stories[i].status)
  }

  /** How many stories carry each status, counted independently of the filter. */
  lemma {:induction false} CountIsOccurrences(stories: seq<Story>, status: string)
    ensures |WithStatus(stories, status)| == multiset(Statuses(stories))[status]
  {
    if |stories| > 0 {
      CountIsOccurrences(stories[1..], status);
      assert Statuses(stories) == [stories[0].status] + Statuses(stories[1..]);
    }
  }

  /** The counts set once the list is loaded; the fixed figures are kept. */
  function ComputeStats(prev: Stats, stories: seq<Story>): (st: Stats)
    ensures st.totalStories == |stories|
    ensures st.latestUnemploymentRate == prev.latestUnemploymentRate && st.dataPoints == prev.dataPoints
  {
    prev.(totalStories := |stories|,
          publishedStories := |WithStatus(stories, Published)|,
          draftStories := |WithStatus(stories, Draft)|,
          reviewStories := |WithStatus(stories, PendingApproval)|)
  }

  /**
   * The loaded counts: the total is the list length, and the published, draft and
   * review counts are the number of stories with that status.
   */
  lemma StatsCountStatuses(prev: Stats, stories: seq<Story>)
    ensures var st := ComputeStats(prev, stories);
      st.totalStories == |stories|
      && st.publishedStories == multiset(Statuses(stories))[Published]
      && st.draftStories == multiset(Statuses(stories))[Draft]
      && st.reviewStories == multiset(Statuses(stories))[PendingApproval]
  {
    CountIsOccurrences(stories, Published);
    CountIsOccurrences(stories, Draft);
    CountIsOccurrences(stories, PendingApproval);
  }

  /** When every story has one of the three statuses, the three counts add up to the total. */
  lemma {:induction false} CountsPartitionTotal(stories: seq<Story>)
    requires forall i :: 0 <= i < |stories| ==> stories[i].status in {Published, Draft, PendingApproval}
    ensures |WithStatus(stories, Published)| + |WithStatus(stories, Draft)| + |WithStatus(stories, PendingApproval)| == |stories|
  {
    if |stories| > 0 {
      CountsPartitionTotal(stories[1..]);
    }
  }

  /** The stories a tab lists: every story for 'all', else those whose status is the tab. */
  function FilterByTab(stories: seq<Story>, tab: string): (r: seq<Story>)
    ensures tab == AllTab ==> r == stories
    ensures tab != AllTab ==> r == WithStatus(stories, tab)
  {
    if tab == AllTab then stories else WithStatus(stories, tab)
  }

  /** The filter keeps list order: filtering a concatenation filters each part. */
  lemma {:induction false} FilterKeepsOrder(a: seq<Story>, b: seq<Story>, tab: string)
    ensures FilterByTab(a + b, tab) == FilterByTab(a, tab) + FilterByTab(b, tab)
  {
    if tab != AllTab {
      WithStatusAppend(a, b, tab);
    }
  }

  lemma {:induction false} WithStatusAppend(a: seq<Story>, b: seq<Story>, status: string)
    ensures WithStatus(a + b, status) == WithStatus(a, status) + WithStatus(b, status)
  {
    if |a| == 0 {
      assert a + b == b;
    } else {
      assert (a + b)[1..] == a[1..] + b;
      WithStatusAppend(a[1..], b, status);
    }
  }

  /** `stories.filter(story => story.id !== id)`. */
  function WithoutStory(stories: seq<Story>, id: int): (r: seq<Story>)
    ensures |r| <= |stories|
    ensures forall s :: s in r <==> s in stories && s.id != id
  {
    if |stories| == 0 then []
    else
      var rest := WithoutStory(stories[1..], id);
      assert forall s :: s in stories <==> s == stories[0] || s in stories[1..];
      if stories[0].id != id then [stories[0]] + rest else rest
  }

  /** Deleting keeps the others in their order: it distributes over concatenation. */
  lemma {:induction false} DeleteKeepsOrder(a: seq<Story>, b: seq<Story>, id: int)
    ensures WithoutStory(a + b, id) == WithoutStory(a, id) + WithoutStory(b, id)
  {
    if |a| == 0 {
      assert a + b == b;
    } else {
      assert (a + b)[1..] == a[1..] + b;
      DeleteKeepsOrder(a[1..], b, id);
    }
  }

  /** Deleting an id that is not listed changes nothing. */
  lemma {:induction false} DeleteAbsentId(stories: seq<Story>, id: int)
    requires forall i :: 0 <= i < |stories| ==> stories[i].id != id
    ensures WithoutStory(stories, id) == stories
  {
    if |stories| > 0 {
      DeleteAbsentId(stories[1..], id);
      assert [stories[0]] + stories[1..] == stories;
    }
  }

  /**
   * Deleting a story with a given status lowers the number of stories with that
   * status, so the count shown before the delete is then too high.
   */
  lemma {:induction false} DeleteLowersCount(stories: seq<Story>, id: int, i: nat)
    requires i < |stories| && stories[i].id == id
    ensures |WithStatus(WithoutStory(stories, id), stories[i].status)| < |WithStatus(stories, stories[i].status)|
  {
    var st := stories[i].status;
    if i == 0 {
      DeleteNeverRaisesCount(stories[1..], id, st);
    } else {
      DeleteLowersCount(stories[1..], id, i - 1);
    }
  }

  lemma {:induction false} DeleteNeverRaisesCount(stories: seq<Story>, id: int, status: string)
    ensures |WithStatus(WithoutStory(stories, id), status)| <= |WithStatus(stories, status)|
  {
    if |stories| > 0 {
      DeleteNeverRaisesCount(stories[1..], id, status);
    }
  }

  /** `stories.map(story => story.id === id ? {...story, status} : story)`. */
  function SetStatus(stories: seq<Story>, id: int, status: string): (r: seq<Story>)
    ensures |r| == |stories|
    ensures forall i :: 0 <= i < |stories| ==>
      r[i] == if stories[i].id == id then stories[i].(status := status) else stories[i]
  {
    seq(|stories|, i requires 0 <= i < |stories| =>
      if stories[i].id == id then stories[i].(status := status) else stories[i])
  }

  /**
   * A status change touches the matching stories' status only: the ids, their order
   * and every other field stay, and the list has the same length.
   */
  lemma StatusChangeOnlyStatus(stories: seq<Story>, id: int, status: string)
    ensures var r := SetStatus(stories, id, status);
      |r| == |stories|
      && (forall i :: 0 <= i < |r| ==> r[i].(status := stories[i].status) == stories[i])
      && (forall i :: 0 <= i < |r| ==> (r[i].status == status || r[i].status == stories[i].status))
      && (forall i :: 0 <= i < |r| && stories[i].id == id ==> r[i].status == status)
      && (forall i :: 0 <= i < |r| && stories[i].id != id ==> r[i] == stories[i])
  {
  }

  /** The status a row's button moves a story to: draft to review, review to published. */
  function OfferedTransition(status: string): (next: Option<string>)
    ensures status == Draft ==> next == Some(PendingApproval)
    ensures status == PendingApproval ==> next == Some(Published)
    ensures status != Draft && status != PendingApproval ==> next == None
  {
    if status == Draft then Some(PendingApproval)
    else if status == PendingApproval then Some(Published)
    else None
  }

  /** How far a status is along the publishing path. */
  function Stage(status: string): nat {
    if status == Draft then 0 else if status == PendingApproval then 1 else 2
  }

  /**
   * The buttons only move a story forward, one stage at a time; a published story
   * (and a story with any other status) is offered no move.
   */
  lemma TransitionsMoveForward(status: string)
    ensures OfferedTransition(status).Some? ==> Stage(OfferedTransition(status).value) == Stage(status) + 1
    ensures OfferedTransition(status).Some? <==> Stage(status) < 2
    ensures OfferedTransition(Published) == None
  {
  }

  /** Following the offered buttons from any status reaches no status with a button within two steps. */
  lemma TransitionsEnd(status: string)
    ensures var a := OfferedTransition(status);
      a.None? || (var b := OfferedTransition(a.value); b.None? || OfferedTransition(b.value).None?)
    ensures var a := OfferedTransition(status);
      a.Some? ==> a.value == PendingApproval || a.value == Published
  {
  }

  /** A status badge's CSS class and label. */
  datatype Badge = Badge(cssClass: string, caption: string)

  const DraftBadge := Badge("status-draft", "Draft")

  /** `getStatusBadge`: the badge of a known status, and the draft badge for any other. */
  function StatusBadge(status: string): (b: Badge)
    ensures status == Published ==> b == Badge("status-approved", "Dipublikasi")
    ensures status == PendingApproval ==> b == Badge("status-pending", "Review")
    ensures status != Published && status != PendingApproval ==> b == DraftBadge
  {
    if status == Published then Badge("status-approved", "Dipublikasi")
    else if status == PendingApproval then Badge("status-pending", "Review")
    else DraftBadge
  }

  /** The known story types and their labels. */
  const StoryTypeLabels: map<string, string> := map[
    "trend_analysis" := "Analisis Tren",
    "regional_comparison" := "Perbandingan Regional",
    "demographic_analysis" := "Analisis Demografis",
    "sectoral_analysis" := "Analisis Sektoral",
    "policy_impact" := "Dampak Kebijakan"]

  /** `getStoryTypeLabel`: the label of a known type, otherwise the type itself. */
  function StoryTypeLabel(storyType: string): (shown: string)
    ensures storyType in StoryTypeLabels ==> shown == StoryTypeLabels[storyType]
    ensures storyType !in StoryTypeLabels ==> shown == storyType
  {
    if storyType in StoryTypeLabels then StoryTypeLabels[storyType] else storyType
  }

  /** Distinct known types show distinct labels, and a non-empty type never shows as empty. */
  lemma StoryTypeLabelsDistinct(a: string, b: string)
    ensures a in StoryTypeLabels && b in StoryTypeLabels && a != b ==> StoryTypeLabel(a) != StoryTypeLabel(b)
    ensures a != "" ==> StoryTypeLabel(a) != ""
  {
  }

  /** Distinct known statuses get distinct badges; every unknown status looks like a draft. */
  lemma BadgeFallback(status: string)
    ensures StatusBadge(status) == DraftBadge <==> status != Published && status != PendingApproval
  {
  }

  class AdminDashboard {
    var stories: seq<Story>
    var stats: Stats
    var loading: bool
    var activeTab: string

    constructor ()
      ensures stories == [] && stats == InitialStats && loading && activeTab == AllTab
    {
      stories := [];
      stats := InitialStats;
      loading := true;
      activeTab := AllTab;
    }

    /** The loader's completion: the list is set and the counts computed from it, once. */
    method Load(loaded: seq<Story>)
      modifies this
      ensures stories == loaded && stats == ComputeStats(old(stats), loaded)
      ensures !loading && activeTab == old(activeTab)
    {
      stories := loaded;
      stats := ComputeStats(stats, loaded);
      loading := false;
    }

    /** `handleDelete`: a confirmed delete drops the stories with that id; the counts are not updated. */
    method HandleDelete(id: int, confirmed: bool)
      modifies this
      ensures confirmed ==> stories == WithoutStory(old(stories), id)
      ensures !confirmed ==> stories == old(stories)
      ensures stats == old(stats) && loading == old(loading) && activeTab == old(activeTab)
    {
      if confirmed {
        stories := WithoutStory(stories, id);
      }
    }

    /** `handleStatusChange`: the matching stories take the new status; the counts are not updated. */
    method HandleStatusChange(id: int, status: string)
      modifies this
      ensures stories == SetStatus(old(stories), id, status)
      ensures stats == old(stats) && loading == old(loading) && activeTab == old(activeTab)
    {
      stories := SetStatus(stories, id, status);
    }

    method SetActiveTab(tab: string)
      modifies this
      ensures activeTab == tab && stories == old(stories) && stats == old(stats) && loading == old(loading)
    {
      activeTab := tab;
    }

    /** The rows of the active tab. */
    function Visible(): seq<Story>
      reads this
    {
      FilterByTab(stories, activeTab)
    }
  }

  /**
   * Right after loading, each status tab's count is the number of rows it lists;
   * after a confirmed delete of a listed story, its tab still shows the old count.
   */
  lemma TabCountsGoStale(prev: Stats, stories: seq<Story>, i: nat)
    requires i < |stories|
    ensures var st := ComputeStats(prev, stories);
      st.draftStories == |FilterByTab(stories, Draft)|
      && st.reviewStories == |FilterByTab(stories, PendingApproval)|
      && st.publishedStories == |FilterByTab(stories, Published)|
    ensures var st := ComputeStats(prev, stories);
      var after := WithoutStory(stories, stories[i].id);
      stories[i].status == Draft ==> st.draftStories > |FilterByTab(after, Draft)|
  {
    DeleteLowersCount(stories, stories[i].id, i);
  }
}
