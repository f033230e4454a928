/**
 * The matchmaking browser (`app/matchmaking/page.tsx`): the candidate list
 * is every mock user that passes the search box and the university, skill,
 * role and online-only filters, minus the signed-in user, sorted by the
 * selected key; the header shows how many are listed, how many are high
 * matches and how many are online.
 */
module Matchmaking {
  import opened Wrappers
  import opened Text
  import opened Seqs

  /** A candidate as the page reads it (display-only fields left out). */
  datatype MatchUser = MatchUser(
    id: string,
    firstName: string,
    lastName: string,
    university: string,
    bio: string,
    skills: seq<string>,
    interests: seq<string>,
    lookingFor: seq<string>,
    matchScore: int,
    isOnline: bool)

  /** The page's filter and sort controls. */
  datatype Criteria = Criteria(
    searchQuery: string,
    university: string,
    skill: string,
    lookingFor: string,
    sortBy: string,
    onlineOnly: bool)

  /** The "no filter" values of the three drop-downs. */
  const AllUniversities: string := "All Universities"
  const AllSkills: string := "All Skills"
  const AllRoles: string := "All Roles"

  /** The score from which a candidate counts as a high match. */
  const HighMatchScore: int := 85

  /** The controls as the page first shows them. */
  const InitialCriteria: Criteria := Criteria("", AllUniversities, AllSkills, AllRoles, "match-score", false)

  // ---------------------------------------------------------------------------
  // The filter
  // ---------------------------------------------------------------------------

  /** `items.some((x) => x.toLowerCase().includes(needle.toLowerCase()))`. */
  predicate AnyIncludes(items: seq<string>, needle: string)
  {
    exists i :: 0 <= i < |items| && IncludesIgnoringCase(items[i], needle)
  }

  predicate MatchesSearch(u: MatchUser, query: string)
  {
    query == ""
    || IncludesIgnoringCase(u.firstName, query)
    || IncludesIgnoringCase(u.lastName, query)
    || IncludesIgnoringCase(u.bio, query)
    || AnyIncludes(u.skills, query)
    || AnyIncludes(u.interests, query)
  }

  predicate MatchesUniversity(u: MatchUser, university: string)
  {
    university == AllUniversities || u.university == university
  }

  predicate MatchesSkill(u: MatchUser, skill: string)
  {
    skill == AllSkills || AnyIncludes(u.skills, skill)
  }

  predicate MatchesRole(u: MatchUser, role: string)
  {
    role == AllRoles || AnyIncludes(u.lookingFor, role)
  }

  predicate MatchesOnline(u: MatchUser, onlineOnly: bool)
  {
    !onlineOnly || u.isOnline
  }

  /** `user && matchUser.id === user.id`: `current` is the signed-in user's id, if any. */
  predicate IsSelf(u: MatchUser, current: Option<string>)
  {
    current.Some? && u.id == current.value
  }

  /** The callback handed to `filter`. */
  predicate Passes(u: MatchUser, current: Option<string>, c: Criteria)
  {
    !IsSelf(u, current)
    && MatchesSearch(u, c.searchQuery)
    && MatchesUniversity(u, c.university)
    && MatchesSkill(u, c.skill)
    && MatchesRole(u, c.lookingFor)
    && MatchesOnline(u, c.onlineOnly)
  }

  function PassesFilters(current: Option<string>, c: Criteria): MatchUser -> bool
  {
    u => Passes(u, current, c)
  }

  // ---------------------------------------------------------------------------
  // The sort
  // ---------------------------------------------------------------------------

  /** The comparator's `switch (sortBy)`. */
  function Compare(sortBy: string, a: MatchUser, b: MatchUser): int
  {
    if sortBy == "match-score" then b.matchScore - a.matchScore
    else if sortBy == "name" then Collate(a.firstName, b.firstName)
    else if sortBy == "university" then Collate(a.university, b.university)
    else if sortBy == "online" then (if b.isOnline then 1 else -1)
    else 0
  }

  function Comparator(sortBy: string): (MatchUser, MatchUser) -> int
  {
    (a, b) => Compare(sortBy, a, b)
  }

  /** `filteredUsers`. */
  function FilteredUsers(users: seq<MatchUser>, current: Option<string>, c: Criteria): seq<MatchUser>
  {
    SortWith(Filter(users, PassesFilters(current, c)), Comparator(c.sortBy))
  }

  // ---------------------------------------------------------------------------
  // The header counts
  // ---------------------------------------------------------------------------

  function IsHighMatch(): MatchUser -> bool
  {
    (u: MatchUser) => u.matchScore >= HighMatchScore
  }

  function IsOnline(): MatchUser -> bool
  {
    (u: MatchUser) => u.isOnline
  }

  /** `filteredUsers.filter((u) => u.matchScore >= 85).length`. */
  function HighMatchCount(listed: seq<MatchUser>): (n: nat)
    ensures n <= |listed|
    ensures n == |listed| <==> forall i :: 0 <= i < |listed| ==> listed[i].matchScore >= HighMatchScore
  {
    CountAllIff(listed, IsHighMatch());
    Count(listed, IsHighMatch())
  }

  /** `filteredUsers.filter((u) => u.isOnline).length`. */
  function OnlineCount(listed: seq<MatchUser>): (n: nat)
    ensures n <= |listed|
    ensures n == |listed| <==> forall i :: 0 <= i < |listed| ==> listed[i].isOnline
  {
    CountAllIff(listed, IsOnline());
    Count(listed, IsOnline())
  }

  lemma {:induction false} CountAllIff(s: seq<MatchUser>, p: MatchUser -> bool)
    ensures Count(s, p) == |s| <==> forall i :: 0 <= i < |s| ==> p(s[i])
  {
    if s != [] {
      CountAllIff(s[1..], p);
      if !p(s[0]) {
        assert |Filter(s, p)| == |Filter(s[1..], p)| <= |s[1..]|;
      } else if Count(s, p) == |s| {
        forall i | 0 <= i < |s| ensures p(s[i]) {
          if i > 0 { assert s[i] == s[1..][i - 1]; }
        }
      }
    }
  }

  // ---------------------------------------------------------------------------
  // Properties
  // ---------------------------------------------------------------------------

  /**
   * Every listed user passes every active filter and is not the signed-in
   * user; every user that passes is listed; and the list is a permutation of
   * the passing users, so it holds nothing the input did not.
   */
  lemma FilteredUsersExactly(users: seq<MatchUser>, current: Option<string>, c: Criteria)
    ensures forall u :: u in FilteredUsers(users, current, c) ==> u in users && Passes(u, current, c)
    ensures forall u :: u in users && Passes(u, current, c) ==> u in FilteredUsers(users, current, c)
    ensures multiset(FilteredUsers(users, current, c)) == multiset(Filter(users, PassesFilters(current, c)))
    ensures multiset(FilteredUsers(users, current, c)) <= multiset(users)
  {
    var kept := Filter(users, PassesFilters(current, c));
    var r := FilteredUsers(users, current, c);
    forall u | u in r ensures u in users && Passes(u, current, c) {
      assert u in multiset(r);
      assert u in kept;
      var i :| 0 <= i < |kept| && kept[i] == u;
      assert PassesFilters(current, c)(kept[i]);
      assert u in multiset(kept);
    }
    forall u | u in users && Passes(u, current, c) ensures u in r {
      assert PassesFilters(current, c)(u);
      assert u in multiset(kept);
    }
  }

  /** The signed-in user is never listed. */
  lemma SelfNeverListed(users: seq<MatchUser>, current: Option<string>, c: Criteria)
    requires current.Some?
    ensures forall u :: u in FilteredUsers(users, current, c) ==> u.id != current.value
  {
    FilteredUsersExactly(users, current, c);
  }

  /** With online-only on, nobody offline is listed. */
  lemma OnlineOnlyListsOnline(users: seq<MatchUser>, current: Option<string>, c: Criteria)
    requires c.onlineOnly
    ensures forall u :: u in FilteredUsers(users, current, c) ==> u.isOnline
  {
    FilteredUsersExactly(users, current, c);
  }

  /**
   * With every drop-down on its "All" value, an empty search and online-only
   * off, exactly the users other than the signed-in one are listed.
   */
  lemma SentinelsDisableFilters(users: seq<MatchUser>, current: Option<string>, c: Criteria)
    requires c.searchQuery == "" && c.university == AllUniversities && c.skill == AllSkills
    requires c.lookingFor == AllRoles && !c.onlineOnly
    ensures forall u :: u in FilteredUsers(users, current, c) <==> u in users && !IsSelf(u, current)
  {
    FilteredUsersExactly(users, current, c);
  }

  /** The page as first shown lists everyone but the signed-in user, best match first. */
  lemma InitialListsEveryoneElse(users: seq<MatchUser>, current: Option<string>)
    ensures forall u :: u in FilteredUsers(users, current, InitialCriteria) <==> u in users && !IsSelf(u, current)
    ensures forall i, j :: 0 <= i < j < |FilteredUsers(users, current, InitialCriteria)| ==>
      FilteredUsers(users, current, InitialCriteria)[i].matchScore >= FilteredUsers(users, current, InitialCriteria)[j].matchScore
  {
    SentinelsDisableFilters(users, current, InitialCriteria);
    ByScoreNonIncreasing(users, current, InitialCriteria);
  }

  /** The skill filter ignores the case of the chosen skill. */
  lemma SkillFilterIgnoresCase(u: MatchUser, skill: string)
    requires skill != AllSkills
    ensures MatchesSkill(u, skill) == MatchesSkill(u, Lower(skill))
  {
    LowerIdempotent(skill);
    FoldedHasNoCapitals(AllSkills, 0);
  }

  /** The role filter ignores the case of the chosen role. */
  lemma RoleFilterIgnoresCase(u: MatchUser, role: string)
    requires role != AllRoles
    ensures MatchesRole(u, role) == MatchesRole(u, Lower(role))
  {
    LowerIdempotent(role);
    FoldedHasNoCapitals(AllRoles, 0);
  }

  /** The university filter, unlike the skill filter, compares exactly: "mit" does not select "MIT". */
  lemma UniversityFilterIsExact(u: MatchUser)
    requires u.university == "MIT" && u.skills == ["Python"]
    ensures !MatchesUniversity(u, "mit")
    ensures MatchesSkill(u, "python")
  {
    assert Lower("Python") == "python";
    assert Lower("python") == "python";
    assert StartsWith("python", "python");
    assert IncludesIgnoringCase(u.skills[0], "python");
  }

  /** The search box selects the same users whatever the case of the query, over all five searched fields. */
  lemma SearchIgnoresCase(u: MatchUser, query: string)
    ensures MatchesSearch(u, query) <==> MatchesSearch(u, Lower(query))
  {
    LowerIdempotent(query);
    forall h: string ensures IncludesIgnoringCase(h, query) <==> IncludesIgnoringCase(h, Lower(query)) {
    }
  }

  lemma CompareIsConsistent(sortBy: string)
    requires sortBy != "online"
    ensures Consistent(Comparator(sortBy))
    ensures Transitive(Comparator(sortBy))
  {
    forall a: MatchUser, b: MatchUser ensures Comparator(sortBy)(a, b) > 0 ==> Comparator(sortBy)(b, a) <= 0 {
      CollateAntisymmetric(a.firstName, b.firstName);
      CollateAntisymmetric(a.university, b.university);
    }
    forall a: MatchUser, b: MatchUser, d: MatchUser
      | Comparator(sortBy)(a, b) <= 0 && Comparator(sortBy)(b, d) <= 0
      ensures Comparator(sortBy)(a, d) <= 0
    {
      if sortBy == "name" {
        CollateTransitive(a.firstName, b.firstName, d.firstName);
      } else if sortBy == "university" {
        CollateTransitive(a.university, b.university, d.university);
      }
    }
  }

  /** Sorted by `sortBy`: every earlier user comes no later than every later one. */
  lemma FilteredUsersOrdered(users: seq<MatchUser>, current: Option<string>, c: Criteria)
    requires c.sortBy != "online"
    ensures forall i, j :: 0 <= i < j < |FilteredUsers(users, current, c)| ==>
      Compare(c.sortBy, FilteredUsers(users, current, c)[i], FilteredUsers(users, current, c)[j]) <= 0
  {
    var r := FilteredUsers(users, current, c);
    CompareIsConsistent(c.sortBy);
    SortWithSorted(Filter(users, PassesFilters(current, c)), Comparator(c.sortBy));
    SortedAllPairs(r, Comparator(c.sortBy));
    assert forall i, j :: 0 <= i < j < |r| ==> Comparator(c.sortBy)(r[i], r[j]) <= 0;
  }

  /** Under "match-score" the scores never increase down the list. */
  lemma ByScoreNonIncreasing(users: seq<MatchUser>, current: Option<string>, c: Criteria)
    requires c.sortBy == "match-score"
    ensures forall i, j :: 0 <= i < j < |FilteredUsers(users, current, c)| ==>
      FilteredUsers(users, current, c)[i].matchScore >= FilteredUsers(users, current, c)[j].matchScore
  {
    FilteredUsersOrdered(users, current, c);
  }

  /** Under "name" the first names never decrease down the list. */
  lemma ByNameNonDecreasing(users: seq<MatchUser>, current: Option<string>, c: Criteria)
    requires c.sortBy == "name"
    ensures forall i, j :: 0 <= i < j < |FilteredUsers(users, current, c)| ==>
      Collate(FilteredUsers(users, current, c)[i].firstName, FilteredUsers(users, current, c)[j].firstName) <= 0
  {
    FilteredUsersOrdered(users, current, c);
  }

  /** A sort key the comparator does not know leaves the filtered users in their input order. */
  lemma UnknownSortKeepsOrder(users: seq<MatchUser>, current: Option<string>, c: Criteria)
    requires c.sortBy !in {"match-score", "name", "university", "online"}
    ensures FilteredUsers(users, current, c) == Filter(users, PassesFilters(current, c))
  {
    SortWithKeepsOrder(Filter(users, PassesFilters(current, c)), Comparator(c.sortBy));
  }
}
