/**
 * The project listing (`app/projects/page.tsx`): a `projects` state list that
 * upvoting rewrites, and the visible list, which is the projects that pass the
 * search box and the "filter by" control, sorted by the "sort by" control.
 */
module Projects {
  import opened Text
  import opened Seqs

  /** A listed project (author, links and image left out). */
  datatype Project = Project(
    id: string,
    title: string,
    description: string,
    tags: seq<string>,
    upvotes: int,
    comments: int,
    createdAt: int,
    isOpenSource: bool,
    status: string,
    lookingForContributors: bool)

  // ---------------------------------------------------------------------------
  // Upvoting
  // ---------------------------------------------------------------------------

  /** The `map` callback of `handleUpvote`. */
  function UpvoteIf(projectId: string): Project -> Project
  {
    (p: Project) => if p.id == projectId then p.(upvotes := p.upvotes + 1) else p
  }

  /** `prev.map((project) => project.id === projectId ? { ...project, upvotes: project.upvotes + 1 } : project)`. */
  function Upvoted(projects: seq<Project>, projectId: string): seq<Project>
  {
    Map(projects, UpvoteIf(projectId))
  }

  /**
   * Upvoting adds exactly one vote to each project with the given id and
   * leaves every other project, and every other field, as it was; the list
   * keeps its length and order.
   */
  lemma UpvotedChangesOnlyMatches(projects: seq<Project>, projectId: string)
    ensures |Upvoted(projects, projectId)| == |projects|
    ensures forall i :: 0 <= i < |projects| && projects[i].id == projectId ==>
      Upvoted(projects, projectId)[i] == projects[i].(upvotes := projects[i].upvotes + 1)
    ensures forall i :: 0 <= i < |projects| && projects[i].id != projectId ==>
      Upvoted(projects, projectId)[i] == projects[i]
  {
    var r := Upvoted(projects, projectId);
    forall i | 0 <= i < |projects| ensures r[i] == UpvoteIf(projectId)(projects[i]) {
    }
  }

  /** An upvote for an id no project has changes nothing. */
  lemma UpvoteUnknownIdIsNoOp(projects: seq<Project>, projectId: string)
    requires forall i :: 0 <= i < |projects| ==> projects[i].id != projectId
    ensures Upvoted(projects, projectId) == projects
  {
    UpvotedChangesOnlyMatches(projects, projectId);
  }

  /** The sum of the vote counts (`reduce` over `upvotes`). */
  function TotalUpvotes(projects: seq<Project>): int
  {
    if projects == [] then 0 else projects[0].upvotes + TotalUpvotes(projects[1..])
  }

  function HasId(projectId: string): Project -> bool
  {
    (p: Project) => p.id == projectId
  }

  /** Each upvote adds one vote per project carrying the id. */
  lemma {:induction false} UpvoteAddsOnePerMatch(projects: seq<Project>, projectId: string)
    ensures TotalUpvotes(Upvoted(projects, projectId)) == TotalUpvotes(projects) + Count(projects, HasId(projectId))
  {
    if projects != [] {
      UpvoteAddsOnePerMatch(projects[1..], projectId);
      assert Upvoted(projects, projectId)[1..] == Upvoted(projects[1..], projectId);
    }
  }

  /** No two projects share an id, as in the page's mock data. */
  ghost predicate UniqueProjectIds(ps: seq<Project>)
  {
    forall i, j :: 0 <= i < j < |ps| ==> ps[i].id != ps[j].id
  }

  /** With unique ids, a present id is carried by exactly one project. */
  lemma {:induction false} UniqueCountOne(ps: seq<Project>, projectId: string, k: nat)
    requires UniqueProjectIds(ps) && k < |ps| && ps[k].id == projectId
    ensures Count(ps, HasId(projectId)) == 1
  {
    if k == 0 {
      assert forall i :: 0 <= i < |ps[1..]| ==> !HasId(projectId)(ps[1..][i]) by {
        forall i | 0 <= i < |ps[1..]| ensures !HasId(projectId)(ps[1..][i]) {
          assert ps[1..][i] == ps[i + 1];
        }
      }
      FilterNonePass(ps[1..], HasId(projectId));
    } else {
      assert UniqueProjectIds(ps[1..]) by {
        forall i, j | 0 <= i < j < |ps[1..]| ensures ps[1..][i].id != ps[1..][j].id {
          assert ps[1..][i] == ps[i + 1] && ps[1..][j] == ps[j + 1];
        }
      }
      assert ps[0].id != ps[k].id;
      assert ps[1..][k - 1] == ps[k];
      UniqueCountOne(ps[1..], projectId, k - 1);
    }
  }

  /** With unique ids, upvoting a listed project adds exactly one vote to the total. */
  lemma UpvoteUniqueAddsOne(ps: seq<Project>, projectId: string, k: nat)
    requires UniqueProjectIds(ps) && k < |ps| && ps[k].id == projectId
    ensures TotalUpvotes(Upvoted(ps, projectId)) == TotalUpvotes(ps) + 1
  {
    UpvoteAddsOnePerMatch(ps, projectId);
    UniqueCountOne(ps, projectId, k);
  }

  /** The page's state: the `projects` list that `setProjects` replaces. */
  class ProjectsPage {
    var projects: seq<Project>

    constructor (initial: seq<Project>)
      ensures projects == initial
    {
      projects := initial;
    }

    /** `handleUpvote`. */
    method HandleUpvote(projectId: string)
      modifies this
      ensures projects == Upvoted(old(projects), projectId)
      ensures |projects| == |old(projects)|
      ensures forall i :: 0 <= i < |projects| ==>
        projects[i] == (if old(projects)[i].id == projectId
                        then old(projects)[i].(upvotes := old(projects)[i].upvotes + 1)
                        else old(projects)[i])
    {
      UpvotedChangesOnlyMatches(projects, projectId);
      projects := Upvoted(projects, projectId);
    }
  }

  // ---------------------------------------------------------------------------
  // Filtering and sorting
  // ---------------------------------------------------------------------------

  /** Title, description or any tag contains the query, ignoring case; no short cut for an empty query. */
  predicate MatchesSearch(p: Project, query: string)
  {
    IncludesIgnoringCase(p.title, query)
    || IncludesIgnoringCase(p.description, query)
    || exists i :: 0 <= i < |p.tags| && IncludesIgnoringCase(p.tags[i], query)
  }

  /** An empty query passes every project, whatever the filter. */
  lemma EmptyQueryPassesSearch(p: Project)
    ensures MatchesSearch(p, "")
  {
    assert Lower("") == "";
    EmptyIsContained(Lower(p.title));
  }

  /** The search box selects the same projects whatever the case of the query. */
  lemma ProjectSearchIgnoresCase(p: Project, query: string)
    ensures MatchesSearch(p, query) <==> MatchesSearch(p, Lower(query))
  {
    LowerIdempotent(query);
    forall h: string ensures IncludesIgnoringCase(h, query) <==> IncludesIgnoringCase(h, Lower(query)) {
    }
  }

  /** The "filter by" control; a value it does not list passes nothing. */
  predicate MatchesFilter(p: Project, filterBy: string)
  {
    filterBy == "all"
    || (filterBy == "open-source" && p.isOpenSource)
    || (filterBy == "looking-for-contributors" && p.lookingForContributors)
    || (filterBy == "in-progress" && p.status == "In Progress")
    || (filterBy == "live" && p.status == "Live")
  }

  function Keeps(query: string, filterBy: string): Project -> bool
  {
    (p: Project) => MatchesSearch(p, query) && MatchesFilter(p, filterBy)
  }

  /** The comparator's `switch (sortBy)`; dates are compared as timestamps. */
  function Compare(sortBy: string, a: Project, b: Project): int
  {
    if sortBy == "upvotes" then b.upvotes - a.upvotes
    else if sortBy == "recent" then b.createdAt - a.createdAt
    else if sortBy == "comments" then b.comments - a.comments
    else 0
  }

  function Comparator(sortBy: string): (Project, Project) -> int
  {
    (a, b) => Compare(sortBy, a, b)
  }

  /** `filteredAndSortedProjects`. */
  function FilteredAndSorted(projects: seq<Project>, query: string, filterBy: string, sortBy: string): seq<Project>
  {
    SortWith(Filter(projects, Keeps(query, filterBy)), Comparator(sortBy))
  }

  /**
   * The visible list is a permutation of exactly the projects that match the
   * search and the filter.
   */
  lemma VisibleIsPermutationOfMatches(projects: seq<Project>, query: string, filterBy: string, sortBy: string)
    ensures multiset(FilteredAndSorted(projects, query, filterBy, sortBy)) == multiset(Filter(projects, Keeps(query, filterBy)))
    ensures multiset(FilteredAndSorted(projects, query, filterBy, sortBy)) <= multiset(projects)
    ensures forall p :: p in FilteredAndSorted(projects, query, filterBy, sortBy) <==>
      p in projects && MatchesSearch(p, query) && MatchesFilter(p, filterBy)
  {
    var kept := Filter(projects, Keeps(query, filterBy));
    var r := FilteredAndSorted(projects, query, filterBy, sortBy);
    forall p | p in r ensures p in projects && MatchesSearch(p, query) && MatchesFilter(p, filterBy) {
      assert p in multiset(r);
      var i :| 0 <= i < |kept| && kept[i] == p;
      assert Keeps(query, filterBy)(kept[i]);
      assert p in multiset(kept);
    }
    forall p | p in projects && MatchesSearch(p, query) && MatchesFilter(p, filterBy) ensures p in r {
      assert Keeps(query, filterBy)(p);
      assert p in multiset(kept);
    }
  }

  /** Each named filter passes exactly the projects with its flag or status; "all" passes everything. */
  lemma FilterValuesMeanTheirFlags(p: Project)
    ensures MatchesFilter(p, "all")
    ensures MatchesFilter(p, "open-source") <==> p.isOpenSource
    ensures MatchesFilter(p, "looking-for-contributors") <==> p.lookingForContributors
    ensures MatchesFilter(p, "in-progress") <==> p.status == "In Progress"
    ensures MatchesFilter(p, "live") <==> p.status == "Live"
    ensures !MatchesFilter(p, "beta")
    ensures forall f :: f !in {"all", "open-source", "looking-for-contributors", "in-progress", "live"} ==> !MatchesFilter(p, f)
  {
  }

  /** An empty search with filter "all" shows every project. */
  lemma EmptySearchShowsAll(projects: seq<Project>, sortBy: string)
    ensures multiset(FilteredAndSorted(projects, "", "all", sortBy)) == multiset(projects)
  {
    forall i | 0 <= i < |projects| ensures Keeps("", "all")(projects[i]) {
      EmptyNeedleMatches(projects[i].title);
    }
    FilterAllPass(projects, Keeps("", "all"));
  }

  lemma CompareIsConsistent(sortBy: string)
    ensures Consistent(Comparator(sortBy))
    ensures Transitive(Comparator(sortBy))
  {
  }

  /** Sorted by `sortBy`: every earlier project comes no later than every later one. */
  lemma VisibleOrdered(projects: seq<Project>, query: string, filterBy: string, sortBy: string)
    ensures forall i, j :: 0 <= i < j < |FilteredAndSorted(projects, query, filterBy, sortBy)| ==>
      Compare(sortBy, FilteredAndSorted(projects, query, filterBy, sortBy)[i], FilteredAndSorted(projects, query, filterBy, sortBy)[j]) <= 0
  {
    var r := FilteredAndSorted(projects, query, filterBy, sortBy);
    CompareIsConsistent(sortBy);
    SortWithSorted(Filter(projects, Keeps(query, filterBy)), Comparator(sortBy));
    SortedAllPairs(r, Comparator(sortBy));
    assert forall i, j :: 0 <= i < j < |r| ==> Comparator(sortBy)(r[i], r[j]) <= 0;
  }

  /** "upvotes", "comments" and "recent" each put the largest value of their field first. */
  lemma VisibleFieldNonIncreasing(projects: seq<Project>, query: string, filterBy: string, sortBy: string, i: int, j: int)
    requires 0 <= i < j < |FilteredAndSorted(projects, query, filterBy, sortBy)|
    ensures var r := FilteredAndSorted(projects, query, filterBy, sortBy);
      && (sortBy == "upvotes" ==> r[i].upvotes >= r[j].upvotes)
      && (sortBy == "comments" ==> r[i].comments >= r[j].comments)
      && (sortBy == "recent" ==> r[i].createdAt >= r[j].createdAt)
  {
    VisibleOrdered(projects, query, filterBy, sortBy);
  }

  /** A sort key the comparator does not know keeps the filtered projects in list order. */
  lemma UnknownSortKeepsOrder(projects: seq<Project>, query: string, filterBy: string, sortBy: string)
    requires sortBy !in {"upvotes", "recent", "comments"}
    ensures FilteredAndSorted(projects, query, filterBy, sortBy) == Filter(projects, Keeps(query, filterBy))
  {
    SortWithKeepsOrder(Filter(projects, Keeps(query, filterBy)), Comparator(sortBy));
  }
}
