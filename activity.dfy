/**
 * The activity feed (`app/activity/page.tsx`): the activities shown under the
 * selected tab, and four counters over the whole feed.
 */
module Activity {
  import opened Wrappers
  import opened Seqs

  /** An `ActivityItem`; `kind` is its `type` ("like", "comment", "follow", "project", "github", "achievement"). */
  datatype ActivityItem = ActivityItem(
    id: string,
    kind: string,
    userName: string,
    action: string,
    target: Option<string>,
    timestamp: string)

  /** The `filter === "all" || activity.type === filter` callback. */
  function ShownUnder(filter: string): ActivityItem -> bool
  {
    (a: ActivityItem) => filter == "all" || a.kind == filter
  }

  /** The `a.type === kind` callback of the counters. */
  function OfKind(kind: string): ActivityItem -> bool
  {
    (a: ActivityItem) => a.kind == kind
  }

  /** `filteredActivities`. */
  function FilteredActivities(activities: seq<ActivityItem>, filter: string): seq<ActivityItem>
  {
    Filter(activities, ShownUnder(filter))
  }

  datatype Stats = Stats(totalLikes: nat, totalComments: nat, totalFollowers: nat, totalProjects: nat)

  /** `stats`. */
  function ActivityStats(activities: seq<ActivityItem>): Stats
  {
    Stats(
      Count(activities, OfKind("like")),
      Count(activities, OfKind("comment")),
      Count(activities, OfKind("follow")),
      Count(activities, OfKind("project")))
  }

  /** The number of activities of a kind, counted one activity at a time. */
  function Occurrences(activities: seq<ActivityItem>, kind: string): nat
  {
    if activities == [] then 0
    else (if activities[0].kind == kind then 1 else 0) + Occurrences(activities[1..], kind)
  }

  /** The "all" tab shows the whole feed in order. */
  lemma AllTabShowsEverything(activities: seq<ActivityItem>)
    ensures FilteredActivities(activities, "all") == activities
  {
    FilterAllPass(activities, ShownUnder("all"));
  }

  /** Any other tab shows exactly the activities of that type, in feed order. */
  lemma TabShowsItsKind(activities: seq<ActivityItem>, filter: string)
    requires filter != "all"
    ensures forall i :: 0 <= i < |FilteredActivities(activities, filter)| ==> FilteredActivities(activities, filter)[i].kind == filter
    ensures forall a :: a in activities && a.kind == filter ==> a in FilteredActivities(activities, filter)
    ensures IsSubsequence(FilteredActivities(activities, filter), activities)
  {
    var r := FilteredActivities(activities, filter);
    forall i | 0 <= i < |r| ensures r[i].kind == filter {
      assert ShownUnder(filter)(r[i]);
    }
    forall a | a in activities && a.kind == filter ensures a in r {
      assert ShownUnder(filter)(a);
    }
    FilterIsSubsequence(activities, ShownUnder(filter));
  }

  /** A counter counts the activities of its kind. */
  lemma {:induction false} CountIsOccurrences(activities: seq<ActivityItem>, kind: string)
    ensures Count(activities, OfKind(kind)) == Occurrences(activities, kind)
  {
    if activities != [] {
      CountIsOccurrences(activities[1..], kind);
    }
  }

  /** Each counter equals the length of its tab's list, and the number of activities of its kind. */
  lemma StatsMatchTabs(activities: seq<ActivityItem>)
    ensures ActivityStats(activities).totalLikes == |FilteredActivities(activities, "like")| == Occurrences(activities, "like")
    ensures ActivityStats(activities).totalComments == |FilteredActivities(activities, "comment")| == Occurrences(activities, "comment")
    ensures ActivityStats(activities).totalFollowers == |FilteredActivities(activities, "follow")| == Occurrences(activities, "follow")
    ensures ActivityStats(activities).totalProjects == |FilteredActivities(activities, "project")| == Occurrences(activities, "project")
  {
    FilterSamePredicate(activities, ShownUnder("like"), OfKind("like"));
    FilterSamePredicate(activities, ShownUnder("comment"), OfKind("comment"));
    FilterSamePredicate(activities, ShownUnder("follow"), OfKind("follow"));
    FilterSamePredicate(activities, ShownUnder("project"), OfKind("project"));
    CountIsOccurrences(activities, "like");
    CountIsOccurrences(activities, "comment");
    CountIsOccurrences(activities, "follow");
    CountIsOccurrences(activities, "project");
  }

  function StatsTotal(s: Stats): nat
  {
    s.totalLikes + s.totalComments + s.totalFollowers + s.totalProjects
  }

  lemma {:induction false} OccurrencesBounded(activities: seq<ActivityItem>)
    ensures Occurrences(activities, "like") + Occurrences(activities, "comment")
          + Occurrences(activities, "follow") + Occurrences(activities, "project") <= |activities|
  {
    if activities != [] {
      OccurrencesBounded(activities[1..]);
    }
  }

  /**
   * The four counters together never exceed the feed's length; "github" and
   * "achievement" entries make up the difference.
   */
  lemma StatsBoundedByFeed(activities: seq<ActivityItem>)
    ensures StatsTotal(ActivityStats(activities)) <= |activities|
  {
    StatsMatchTabs(activities);
    OccurrencesBounded(activities);
  }
}
