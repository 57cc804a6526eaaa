/**
 * The dashboard's recent activity (app/dashboard/page.tsx): the audit
 * history, a list of audits per URL, is flattened into one list of activities
 * and sorted newest first. Timestamps are integers; parsing the date strings
 * is not part of this model.
 */
module Dashboard {
  import opened Wrappers
  import opened Outcomes
  import opened Seqs
  import opened Sorting
  import opened Api

  const HistoryFailed := "Failed to fetch recent activity"

  /** One row of the recent-activity table (`ActivityItem`). */
  datatype ActivityItem = ActivityItem(title: string, date: int, seoScore: real, geoScore: real)

  /** The history response: each URL with its audits, in the order `Object.values` lists them. */
  type History = seq<(string, seq<SEOHistoryItem>)>

  /** The activity for one audit: its title, date and scores copied unchanged. */
  function ToActivity(item: SEOHistoryItem): (a: ActivityItem)
    ensures a.title == item.pageTitle && a.date == item.createdAt
    ensures a.seoScore == item.seoScore && a.geoScore == item.geoScore
  {
    ActivityItem(item.pageTitle, item.createdAt, item.seoScore, item.geoScore)
  }

  /** The sort key: newest first is non-increasing in the timestamp. */
  function DateKey(a: ActivityItem): real
  {
    a.date as real
  }

  /** Every audit of every URL, URL by URL, each URL's audits in their order. */
  function Flatten(h: History): seq<ActivityItem>
  {
    if h == [] then [] else Flatten(h[..|h| - 1]) + Map(ToActivity, h[|h| - 1].1)
  }

  /** The number of audits over all URLs. */
  function TotalAudits(h: History): nat
  {
    if h == [] then 0 else TotalAudits(h[..|h| - 1]) + |h[|h| - 1].1|
  }

  /** Where the audits of the `i`-th URL start in the flattened list. */
  function Offset(h: History, i: nat): nat
    requires i <= |h|
  {
    TotalAudits(h[..i])
  }

  lemma {:induction false} FlattenLength(h: History)
    ensures |Flatten(h)| == TotalAudits(h)
    decreases |h|
  {
    if h != [] {
      FlattenLength(h[..|h| - 1]);
    }
  }

  /**
   * The flattened list holds, at offset `Offset(h, i) + j`, the activity for
   * audit `j` of URL `i`: nothing is dropped, duplicated or reordered.
   */
  lemma {:induction false} FlattenAt(h: History, i: nat, j: nat)
    requires i < |h| && j < |h[i].1|
    ensures Offset(h, i) + j < |Flatten(h)|
    ensures Flatten(h)[Offset(h, i) + j] == ToActivity(h[i].1[j])
    decreases |h|
  {
    var init := h[..|h| - 1];
    FlattenLength(init);
    FlattenLength(h);
    if i == |h| - 1 {
      assert h[..i] == init;
    } else {
      assert init[..i] == h[..i];
      assert init[i] == h[i];
      FlattenAt(init, i, j);
    }
  }

  /** `Object.values(...).forEach(items => items.forEach(push))` followed by the in-place sort by date. */
  method BuildActivities(h: History) returns (activities: seq<ActivityItem>)
    ensures activities == SortDesc(Flatten(h), DateKey)
  {
    var pushed: seq<ActivityItem> := [];
    var i := 0;
    while i < |h|
      invariant 0 <= i <= |h|
      invariant pushed == Flatten(h[..i])
    {
      var items := h[i].1;
      var j := 0;
      while j < |items|
        invariant 0 <= j <= |items|
        invariant pushed == Flatten(h[..i]) + Map(ToActivity, items[..j])
      {
        assert items[..j + 1] == items[..j] + [items[j]];
        MapAppend(ToActivity, items[..j], [items[j]]);
        pushed := pushed + [ToActivity(items[j])];
        j := j + 1;
      }
      assert items[..j] == items;
      assert h[..i + 1][..i] == h[..i];
      i := i + 1;
    }
    assert h[..i] == h;
    var a := new ActivityItem[|pushed|](k requires 0 <= k < |pushed| => pushed[k]);
    assert a[..] == pushed;
    SortInPlace(a, DateKey);
    activities := a[..];
  }

  /**
   * The recent-activity list: one entry per audit (their number is the sum of
   * the per-URL list lengths), newest first, and audits with the same
   * timestamp in the order they were flattened.
   */
  lemma RecentActivitiesSpec(h: History, date: real)
    ensures |SortDesc(Flatten(h), DateKey)| == TotalAudits(h)
    ensures multiset(SortDesc(Flatten(h), DateKey)) == multiset(Flatten(h))
    ensures SortedDesc(SortDesc(Flatten(h), DateKey), DateKey)
    ensures WithKey(SortDesc(Flatten(h), DateKey), DateKey, date) == WithKey(Flatten(h), DateKey, date)
  {
    FlattenLength(h);
    SortPermutation(Flatten(h), DateKey);
    SortSorted(Flatten(h), DateKey);
    SortStable(Flatten(h), DateKey, date);
  }

  /** The dashboard's state fields. */
  datatype DashboardState = DashboardState(recentActivities: seq<ActivityItem>, isLoading: bool, error: Option<string>)

  /** The dashboard starts loading, with nothing to show. */
  const Initial := DashboardState([], true, None)

  /** `fetchHistory` up to the await. */
  function StartFetch(s: DashboardState): (t: DashboardState)
    ensures t.isLoading && t.error == None && t.recentActivities == s.recentActivities
  {
    s.(isLoading := true, error := None)
  }

  /** The rest of `fetchHistory`: a history replaces the list; a failure keeps it and records the error. */
  function Settle(s: DashboardState, outcome: Outcome<History>): (t: DashboardState)
    ensures !t.isLoading
    ensures outcome.Resolved? ==> t.recentActivities == SortDesc(Flatten(outcome.value), DateKey) && t.error == s.error
    ensures outcome.Rejected? ==> t.recentActivities == s.recentActivities
    ensures outcome.Rejected? ==> t.error == Some(ErrorText(outcome.thrown, HistoryFailed))
  {
    match outcome
    case Resolved(h) => s.(recentActivities := SortDesc(Flatten(h), DateKey), isLoading := false)
    case Rejected(thrown) => s.(error := Some(ErrorText(thrown, HistoryFailed)), isLoading := false)
  }

  datatype DashboardScreen = Loading | ErrorBanner(message: string) | Table(activities: seq<ActivityItem>)

  /** The spinner while loading, else the error, else the table. */
  function Render(s: DashboardState): (screen: DashboardScreen)
    ensures screen.Loading? <==> s.isLoading
    ensures screen.ErrorBanner? <==> !s.isLoading && Truthy(s.error)
    ensures screen.Table? ==> screen.activities == s.recentActivities
  {
    if s.isLoading then Loading
    else if Truthy(s.error) then ErrorBanner(s.error.value)
    else Table(s.recentActivities)
  }

  /**
   * After a failed fetch the error is shown, unless the thrown error's message
   * is empty: that message is falsy, so the table, still holding the old
   * list, is drawn instead.
   */
  lemma FailedFetchScreen(s: DashboardState, thrown: Thrown)
    ensures var t := Settle(StartFetch(s), Rejected(thrown));
      Render(t) == if ErrorText(thrown, HistoryFailed) == "" then Table(s.recentActivities)
                   else ErrorBanner(ErrorText(thrown, HistoryFailed))
  {
  }

  /** The dashboard with its state held in fields, as React holds it. */
  class Page {
    var recentActivities: seq<ActivityItem>
    var isLoading: bool
    var error: Option<string>

    function State(): DashboardState
      reads this
    {
      DashboardState(recentActivities, isLoading, error)
    }

    constructor ()
      ensures State() == Initial
    {
      recentActivities := [];
      isLoading := true;
      error := None;
    }

    method FetchStarted()
      modifies this
      ensures State() == StartFetch(old(State()))
    {
      isLoading := true;
      error := None;
    }

    method Settled(outcome: Outcome<History>)
      modifies this
      ensures State() == Settle(old(State()), outcome)
    {
      match outcome {
        case Resolved(h) =>
          var activities := BuildActivities(h);
          recentActivities := activities;
        case Rejected(thrown) =>
          error := Some(ErrorText(thrown, HistoryFailed));
      }
      isLoading := false;
    }
  }
}
