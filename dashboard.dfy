/**
 * The dashboard (`app/dashboard/page.tsx`): task totals and the rounded
 * overall progress, the team-member count, the three nearest future
 * deadlines, and the status and priority badge classes.
 */
module Dashboard {
  import opened Seqs

  datatype TeamMember = TeamMember(id: string, name: string, role: string)

  /** A dashboard project; `dueDate` is the due date's timestamp. */
  datatype DashProject = DashProject(
    id: string,
    title: string,
    status: string,
    progress: int,
    dueDate: int,
    team: seq<TeamMember>,
    unreadMessages: int,
    tasksCompleted: int,
    totalTasks: int,
    priority: string)

  // ---------------------------------------------------------------------------
  // Totals
  // ---------------------------------------------------------------------------

  /** `projects.reduce((sum, project) => sum + project.totalTasks, 0)`. */
  function TotalTasks(ps: seq<DashProject>): int
  {
    if ps == [] then 0 else ps[0].totalTasks + TotalTasks(ps[1..])
  }

  /** `projects.reduce((sum, project) => sum + project.tasksCompleted, 0)`. */
  function CompletedTasks(ps: seq<DashProject>): int
  {
    if ps == [] then 0 else ps[0].tasksCompleted + CompletedTasks(ps[1..])
  }

  /**
   * `projects.reduce((sum, project) => sum + project.team.length, 0)`: no team
   * is larger than the count, and the count is 0 exactly when every team is empty.
   */
  function TeamMembers(ps: seq<DashProject>): (n: nat)
    ensures forall i :: 0 <= i < |ps| ==> |ps[i].team| <= n
    ensures n == 0 <==> forall i :: 0 <= i < |ps| ==> ps[i].team == []
  {
    if ps == [] then 0 else |ps[0].team| + TeamMembers(ps[1..])
  }

  /** `Math.round(x)`, with `x = 100 * completed / total` taken exactly: the greatest integer not above `x + 1/2`. */
  function RoundedPercent(completed: int, total: int): int
    requires total > 0
  {
    (200 * completed + total) / (2 * total)
  }

  /** `overallProgress`: no division when there are no tasks. */
  function OverallProgress(completed: int, total: int): int
  {
    if total > 0 then RoundedPercent(completed, total) else 0
  }

  /**
   * The rounded value is the integer nearest to `100 * completed / total`,
   * halves going up: `r - 1/2 <= 100 * completed / total < r + 1/2`.
   */
  lemma RoundedPercentIsNearest(completed: int, total: int)
    requires total > 0
    ensures 2 * total * RoundedPercent(completed, total) - total <= 200 * completed
    ensures 200 * completed < 2 * total * RoundedPercent(completed, total) + total
  {
    var a := 200 * completed + total;
    var b := 2 * total;
    assert a == b * (a / b) + a % b;
    assert 0 <= a % b < b;
  }

  /** With no tasks at all the progress reads 0. */
  lemma NoTasksNoProgress(completed: int, total: int)
    requires total <= 0
    ensures OverallProgress(completed, total) == 0
  {
  }

  /** While no more tasks are completed than exist, the progress is a percentage; all done reads 100. */
  lemma ProgressIsPercentage(completed: int, total: int)
    requires 0 <= completed <= total
    ensures 0 <= OverallProgress(completed, total) <= 100
    ensures total > 0 && completed == total ==> OverallProgress(completed, total) == 100
  {
    if total > 0 {
      var r := RoundedPercent(completed, total);
      RoundedPercentIsNearest(completed, total);
      assert total * (2 * r - 201) <= 0;
      FactorSign(total, 2 * r - 201);
      assert total * (2 * r + 1) > 0;
      FactorSign(total, 2 * r + 1);
      if completed == total {
        assert total * (2 * r - 199) > 0;
        FactorSign(total, 2 * r - 199);
      }
    }
  }

  /** A product with a positive factor has the sign of the other factor. */
  lemma FactorSign(t: int, x: int)
    requires t > 0
    ensures t * x > 0 ==> x > 0
    ensures t * x <= 0 ==> x <= 0
  {
    if x > 0 {
      assert t * x >= t;
    }
  }

  /** Projects that never complete more tasks than they have keep the totals in the same relation. */
  lemma {:induction false} CompletedWithinTotal(ps: seq<DashProject>)
    requires forall i :: 0 <= i < |ps| ==> 0 <= ps[i].tasksCompleted <= ps[i].totalTasks
    ensures 0 <= CompletedTasks(ps) <= TotalTasks(ps)
  {
    if ps != [] {
      CompletedWithinTotal(ps[1..]);
    }
  }

  /** The dashboard's progress over its projects is a percentage whenever each project's counts are sensible. */
  lemma DashboardProgressIsPercentage(ps: seq<DashProject>)
    requires forall i :: 0 <= i < |ps| ==> 0 <= ps[i].tasksCompleted <= ps[i].totalTasks
    ensures 0 <= OverallProgress(CompletedTasks(ps), TotalTasks(ps)) <= 100
  {
    CompletedWithinTotal(ps);
    ProgressIsPercentage(CompletedTasks(ps), TotalTasks(ps));
  }

  /** Each project's team adds its length to the member count (a person on two teams counts twice). */
  lemma {:induction false} TeamMembersAppend(ps: seq<DashProject>, qs: seq<DashProject>)
    ensures TeamMembers(ps + qs) == TeamMembers(ps) + TeamMembers(qs)
  {
    if ps == [] {
      assert ps + qs == qs;
    } else {
      assert (ps + qs)[0] == ps[0];
      assert (ps + qs)[1..] == ps[1..] + qs;
      TeamMembersAppend(ps[1..], qs);
    }
  }

  // ---------------------------------------------------------------------------
  // Upcoming deadlines
  // ---------------------------------------------------------------------------

  /** The `new Date(project.dueDate) > new Date()` callback, the clock reading passed in. */
  function DueAfter(now: int): DashProject -> bool
  {
    (p: DashProject) => p.dueDate > now
  }

  /** The `(a, b) => a.dueDate - b.dueDate` comparator. */
  function ByDueDate(): (DashProject, DashProject) -> int
  {
    (a: DashProject, b: DashProject) => a.dueDate - b.dueDate
  }

  /** The upcoming-deadlines card: future projects, earliest first, at most three. */
  function Upcoming(ps: seq<DashProject>, now: int): seq<DashProject>
  {
    Take(SortWith(Filter(ps, DueAfter(now)), ByDueDate()), 3)
  }

  lemma ByDueDateIsConsistent()
    ensures Consistent(ByDueDate()) && Transitive(ByDueDate())
  {
  }

  /** The future projects in due-date order; the card shows a prefix of it. */
  lemma FutureSorted(ps: seq<DashProject>, now: int)
    ensures var s := SortWith(Filter(ps, DueAfter(now)), ByDueDate());
      forall i, j :: 0 <= i < j < |s| ==> s[i].dueDate <= s[j].dueDate
  {
    var s := SortWith(Filter(ps, DueAfter(now)), ByDueDate());
    ByDueDateIsConsistent();
    SortWithSorted(Filter(ps, DueAfter(now)), ByDueDate());
    SortedAllPairs(s, ByDueDate());
    assert forall i, j :: 0 <= i < j < |s| ==> ByDueDate()(s[i], s[j]) <= 0;
  }

  /** At most three entries, each a project of the list that is due strictly after now, in non-decreasing due-date order. */
  lemma UpcomingShape(ps: seq<DashProject>, now: int)
    ensures |Upcoming(ps, now)| <= 3
    ensures forall i :: 0 <= i < |Upcoming(ps, now)| ==> Upcoming(ps, now)[i].dueDate > now && Upcoming(ps, now)[i] in ps
    ensures forall i, j :: 0 <= i < j < |Upcoming(ps, now)| ==> Upcoming(ps, now)[i].dueDate <= Upcoming(ps, now)[j].dueDate
  {
    var f := Filter(ps, DueAfter(now));
    var s := SortWith(f, ByDueDate());
    var r := Upcoming(ps, now);
    assert r == s[..|r|];
    FutureSorted(ps, now);
    forall i | 0 <= i < |r| ensures r[i].dueDate > now && r[i] in ps {
      FutureEntry(ps, now, i);
    }
  }

  /** Each entry of the sorted future list is a project of the list due after now. */
  lemma FutureEntry(ps: seq<DashProject>, now: int, i: int)
    requires 0 <= i < |SortWith(Filter(ps, DueAfter(now)), ByDueDate())|
    ensures SortWith(Filter(ps, DueAfter(now)), ByDueDate())[i].dueDate > now
    ensures SortWith(Filter(ps, DueAfter(now)), ByDueDate())[i] in ps
  {
    var f := Filter(ps, DueAfter(now));
    var s := SortWith(f, ByDueDate());
    assert s[i] in multiset(s);
    var k :| 0 <= k < |f| && f[k] == s[i];
    assert DueAfter(now)(f[k]);
    assert f[k] in multiset(ps);
  }

  /**
   * The card holds the earliest future deadlines: a future project left off
   * it is due no sooner than any shown, and then the card is full.
   */
  lemma UpcomingAreEarliest(ps: seq<DashProject>, now: int, p: DashProject)
    requires p in ps && p.dueDate > now && p !in Upcoming(ps, now)
    ensures |Upcoming(ps, now)| == 3
    ensures forall i :: 0 <= i < 3 ==> Upcoming(ps, now)[i].dueDate <= p.dueDate
  {
    assert DueAfter(now)(p);
    assert p in Filter(ps, DueAfter(now));
    assert p in multiset(SortWith(Filter(ps, DueAfter(now)), ByDueDate()));
    FutureSorted(ps, now);
    LeftOffIsLater(SortWith(Filter(ps, DueAfter(now)), ByDueDate()), p);
  }

  /** In a list sorted by due date, an entry missing from the first three comes after three entries due no later. */
  lemma LeftOffIsLater(s: seq<DashProject>, p: DashProject)
    requires forall a, b :: 0 <= a < b < |s| ==> s[a].dueDate <= s[b].dueDate
    requires p in s && p !in Take(s, 3)
    ensures |Take(s, 3)| == 3
    ensures forall i :: 0 <= i < 3 ==> Take(s, 3)[i].dueDate <= p.dueDate
  {
    var r := Take(s, 3);
    var k :| 0 <= k < |s| && s[k] == p;
    forall i | 0 <= i < 3 ensures r[i].dueDate <= p.dueDate {
      assert r[i] == s[i];
    }
  }

  /** Every future project is shown when there are at most three of them. */
  lemma FewFutureAllShown(ps: seq<DashProject>, now: int)
    requires Count(ps, DueAfter(now)) <= 3
    ensures multiset(Upcoming(ps, now)) == multiset(Filter(ps, DueAfter(now)))
  {
  }

  // ---------------------------------------------------------------------------
  // Badge classes
  // ---------------------------------------------------------------------------

  const StatusDefault: string := "bg-gray-500/10 text-gray-600 border-gray-500/20"
  const PriorityDefault: string := "text-gray-600"

  /** `getStatusColor`. */
  function StatusColor(status: string): string
  {
    if status == "In Progress" then "bg-blue-500/10 text-blue-600 border-blue-500/20"
    else if status == "Planning" then "bg-yellow-500/10 text-yellow-600 border-yellow-500/20"
    else if status == "Review" then "bg-purple-500/10 text-purple-600 border-purple-500/20"
    else if status == "Completed" then "bg-green-500/10 text-green-600 border-green-500/20"
    else StatusDefault
  }

  /** `getPriorityColor`. */
  function PriorityColor(priority: string): string
  {
    if priority == "High" then "text-red-600"
    else if priority == "Medium" then "text-yellow-600"
    else if priority == "Low" then "text-green-600"
    else PriorityDefault
  }

  /** A status gets the gray class exactly when it is none of the four known ones, and known ones get distinct classes. */
  lemma StatusColorDefaultsIff(status: string, other: string)
    ensures StatusColor(status) == StatusDefault <==> status !in ["In Progress", "Planning", "Review", "Completed"]
    ensures StatusColor(status) != StatusDefault && StatusColor(status) == StatusColor(other) ==> status == other
  {
  }

  /** A priority gets the gray class exactly when it is none of the three known ones, and known ones get distinct classes. */
  lemma PriorityColorDefaultsIff(priority: string, other: string)
    ensures PriorityColor(priority) == PriorityDefault <==> priority !in ["High", "Medium", "Low"]
    ensures PriorityColor(priority) != PriorityDefault && PriorityColor(priority) == PriorityColor(other) ==> priority == other
  {
  }
}
