# WeCollab pages, modelled in Dafny

WeCollab is a Next.js front end where students find collaborators, publish
projects, message each other and track team work. All of its logic lives
inside the React pages, as filter/sort pipelines over mock data and state
handlers that replace a list or a form. This project models that logic:

- the matchmaking browser: the candidate filter, the sort keys and the header counters;
- the project listing: upvoting, the search and "filter by" controls, and the "sort by" control;
- notifications: marking one or all read, and the unread badge;
- the inbox: the send guard, appending a message, writing the conversation back, and the name search;
- the onboarding wizard: the four-step counter and the three tag toggles;
- the profile editor: loading the form from the signed-in user, and the tag toggles;
- the project form: tag and role toggles, and the team-size field including `Number.parseInt`;
- the activity feed: tabs and counters;
- the dashboard: task totals, rounded progress, team count, the next three deadlines, and the badge classes;
- the sign-up submit checks.

Modules:

| file | module | what it holds |
|---|---|---|
| `wrappers.dfy` | `Wrappers` | `Option`, which stands for a value JavaScript may leave `undefined` or `null` |
| `text.dfy` | `Text` | `toLowerCase` (ASCII letters), `includes`, `trim` (the ECMAScript white-space and line-terminator set), and a code-point order standing in for `localeCompare` |
| `seqs.dfy` | `Seqs` | `filter`, `map`, `slice(0, n)`, a filter count, and `sort` as a stable insertion sort driven by a JavaScript-style comparator |
| `tags.dfy` | `Tags` | the toggle expression and the "options not yet chosen" filter, which three pages repeat word for word |
| `profile_options.dfy` | `ProfileOptions` | the skill, interest and "looking for" catalogues, which the onboarding and profile-edit pages both declare |
| one file per page | `Matchmaking`, `Projects`, `Notifications`, `Messages`, `Onboarding`, `ProfileEdit`, `ParseInt` and `ProjectCreate`, `Activity`, `Dashboard`, `Signup` | the page's logic |

Six pages hold state that their handlers replace with `setX`: projects,
notifications, messages, onboarding, profile edit and the project form.
Each replaced list or form becomes a field of a Dafny `class`, and each
handler becomes a method whose `ensures` gives the new state as a function
of the old one. The lemmas about those functions carry the properties. The pure pipelines (matchmaking, activity,
dashboard, sign-up) are functions with lemmas.

Inputs the pages take from the outside world become parameters:

- `Date.now()` message ids, `toLocaleTimeString` clock readings and `new Date()` are passed in.
- Dates are integer timestamps.

## Model

| member | source | states |
|---|---|---|
| `Matchmaking.FilteredUsersExactly` | wecollab-platform/app/matchmaking/page.tsx:176-220 | The listed users are exactly the input users that pass every filter and are not the signed-in user. The list is a permutation of the filtered users, whatever the sort key, "online" included. |
| `Matchmaking.SelfNeverListed` | wecollab-platform/app/matchmaking/page.tsx:179 | When somebody is signed in, no listed user has their id. |
| `Matchmaking.OnlineOnlyListsOnline` | wecollab-platform/app/matchmaking/page.tsx:204 | With "online only" on, every listed user is online. |
| `Matchmaking.SentinelsDisableFilters` | wecollab-platform/app/matchmaking/page.tsx:182-204 | With an empty search, the three "All ..." values and "online only" off, the list holds exactly everyone except the signed-in user. |
| `Matchmaking.InitialListsEveryoneElse` | wecollab-platform/app/matchmaking/page.tsx:169-174 | With the controls as the page first shows them, everyone but the signed-in user is listed, highest match score first. |
| `Matchmaking.SkillFilterIgnoresCase` | wecollab-platform/app/matchmaking/page.tsx:194-196 | A chosen skill matches the same users as its lower-cased form. |
| `Matchmaking.RoleFilterIgnoresCase` | wecollab-platform/app/matchmaking/page.tsx:199-201 | A chosen role matches the same users as its lower-cased form. |
| `Matchmaking.UniversityFilterIsExact` | wecollab-platform/app/matchmaking/page.tsx:191-196 | The university filter compares exactly ("mit" does not select "MIT"), unlike the skill filter ("python" selects "Python"). |
| `Matchmaking.SearchIgnoresCase` | wecollab-platform/app/matchmaking/page.tsx:182-188 | Whatever the case of the query, it selects the same users as its lower-cased form, over first name, last name, bio, skills and interests. |
| `Matchmaking.CompareIsConsistent` | wecollab-platform/app/matchmaking/page.tsx:207-219 | Every sort key except "online" gives a consistent, transitive comparator. |
| `Matchmaking.FilteredUsersOrdered` | wecollab-platform/app/matchmaking/page.tsx:207-220 | For every sort key except "online", each listed user comes no later under the comparator than every user after them. |
| `Matchmaking.ByScoreNonIncreasing` | wecollab-platform/app/matchmaking/page.tsx:209-210 | Under "match-score", match scores never increase down the list. |
| `Matchmaking.ByNameNonDecreasing` | wecollab-platform/app/matchmaking/page.tsx:211-212 | Under "name", first names never decrease down the list. |
| `Matchmaking.UnknownSortKeepsOrder` | wecollab-platform/app/matchmaking/page.tsx:217-218 | An unknown sort key leaves the filtered users in input order. |
| `Matchmaking.HighMatchCount` | wecollab-platform/app/matchmaking/page.tsx:253 | The high-match counter is at most the number listed. It equals that number exactly when every listed user scores at least 85. |
| `Matchmaking.OnlineCount` | wecollab-platform/app/matchmaking/page.tsx:260 | The online counter is at most the number listed. It equals that number exactly when every listed user is online. |
| `Projects.UpvotedChangesOnlyMatches` | wecollab-platform/app/projects/page.tsx:134-138 | Upvoting adds one vote to each project with the id. Every other project and every other field is unchanged, and length and order are kept. |
| `Projects.UpvoteUnknownIdIsNoOp` | wecollab-platform/app/projects/page.tsx:136 | An id that no project has leaves the list unchanged. |
| `Projects.UpvoteAddsOnePerMatch` | wecollab-platform/app/projects/page.tsx:136 | The vote total grows by exactly the number of projects carrying the id. |
| `Projects.UniqueCountOne` | wecollab-platform/app/projects/page.tsx:136 | When no two projects share an id, an id that one project carries is carried by exactly one. |
| `Projects.UpvoteUniqueAddsOne` | wecollab-platform/app/projects/page.tsx:134-138 | When no two projects share an id, upvoting a listed project raises the vote total by exactly one. |
| `Projects.ProjectsPage.HandleUpvote` | wecollab-platform/app/projects/page.tsx:134-138 | The new list is the mapped old list: a matching project gains one vote and the others are kept. |
| `Projects.ProjectsPage.constructor` | wecollab-platform/app/projects/page.tsx:129 | The page starts with the given list. |
| `Projects.VisibleIsPermutationOfMatches` | wecollab-platform/app/projects/page.tsx:140-167 | The visible list is a permutation of exactly the projects that match both the search and the filter. |
| `Projects.FilterValuesMeanTheirFlags` | wecollab-platform/app/projects/page.tsx:147-152 | "all" passes every project, and each named filter passes exactly the projects with its flag or status. A value the control does not list passes nothing. |
| `Projects.EmptySearchShowsAll` | wecollab-platform/app/projects/page.tsx:142-148 | An empty search under "all" shows every project: the free-text test matches every title, even with no shortcut for the empty query. |
| `Projects.EmptyQueryPassesSearch` | wecollab-platform/app/projects/page.tsx:142-145 | An empty query passes every project's search test, so under any filter the empty search hides nothing. |
| `Projects.ProjectSearchIgnoresCase` | wecollab-platform/app/projects/page.tsx:142-145 | Whatever the case of the query, it selects the same projects as its lower-cased form, over title, description and tags. |
| `Projects.CompareIsConsistent` | wecollab-platform/app/projects/page.tsx:156-167 | Every sort key gives a consistent, transitive comparator. |
| `Projects.VisibleOrdered` | wecollab-platform/app/projects/page.tsx:156-167 | Each visible project comes no later under the comparator than every project after it. |
| `Projects.VisibleFieldNonIncreasing` | wecollab-platform/app/projects/page.tsx:158-163 | Under "upvotes", "comments" and "recent", that field never increases down the list. |
| `Projects.UnknownSortKeepsOrder` | wecollab-platform/app/projects/page.tsx:164-165 | An unknown sort key keeps the filtered projects in list order. |
| `Notifications.UnreadCount` | wecollab-platform/app/notifications/page.tsx:100 | The badge is at most the number of notifications. It is zero exactly when every notification is read. |
| `Notifications.MarkAsReadChangesOnlyMatches` | wecollab-platform/app/notifications/page.tsx:92-94 | Marking read sets `read` on the notifications with the id and on nothing else. Length and order are kept. |
| `Notifications.MarkAsReadIdempotent` | wecollab-platform/app/notifications/page.tsx:93 | Marking the same id read twice is the same as once. |
| `Notifications.MarkAsReadUnknownIdIsNoOp` | wecollab-platform/app/notifications/page.tsx:93 | An unknown id changes nothing. |
| `Notifications.MarkAllAsReadClearsBadge` | wecollab-platform/app/notifications/page.tsx:96-100 | "Mark all read" only sets `read`, on every entry, and the badge becomes zero. |
| `Notifications.MarkUnreadDecrementsBadge` | wecollab-platform/app/notifications/page.tsx:92-100 | With unique ids, marking an unread notification read lowers the badge by exactly one. |
| `Notifications.NotificationsPage.MarkAsRead` | wecollab-platform/app/notifications/page.tsx:92-94 | The new list is the mapped old list, and unique ids stay unique. |
| `Notifications.NotificationsPage.MarkAllAsRead` | wecollab-platform/app/notifications/page.tsx:96-98 | The new list is the mapped old list, and no notification is left unread. |
| `Notifications.NotificationsPage.Unread` | wecollab-platform/app/notifications/page.tsx:100 | The page's badge is at most the number of notifications, and zero exactly when all are read. |
| `Notifications.NotificationsPage.constructor` | wecollab-platform/app/notifications/page.tsx:90 | The page starts with the given list. |
| `Messages.CanSendIff` | wecollab-platform/app/messages/page.tsx:109 | A message is sent exactly when a conversation is open and the draft holds a character other than white space. |
| `Messages.WithMessageAppendsOne` | wecollab-platform/app/messages/page.tsx:110-123 | The updated conversation has exactly one more message, at the end, sent by "me" with the untrimmed draft. Its preview is the draft and its time is "now". Nothing else about it changes. |
| `Messages.ReplacedChangesOnlyMatches` | wecollab-platform/app/messages/page.tsx:125 | Writing back replaces the conversations with the open one's id and no others. Length and order are kept. |
| `Messages.FilteredConversationsExactly` | wecollab-platform/app/messages/page.tsx:131-133 | The search keeps exactly the conversations whose contact name contains the query, ignoring case, in order. |
| `Messages.EmptySearchListsAll` | wecollab-platform/app/messages/page.tsx:131-133 | An empty search box lists every conversation. |
| `Messages.MessagesPage.SendMessage` | wecollab-platform/app/messages/page.tsx:108-129 | When the guard fails, nothing changes. Otherwise the list gets the appended conversation written back, that conversation becomes the open one, and the draft is cleared. The search box is untouched. |
| `Messages.MessagesPage.Select` | wecollab-platform/app/messages/page.tsx:162 | Choosing a conversation opens it and changes nothing else. |
| `Messages.MessagesPage.constructor` | wecollab-platform/app/messages/page.tsx:103-106 | The first conversation starts open, or none if the list is empty. The draft and the search box start empty. |
| `Tags.ToggleFlipsMembership` | wecollab-platform/app/onboarding/page.tsx:107-112 | Toggling flips the membership of the item and of nothing else. |
| `Tags.ToggleShape` | wecollab-platform/app/onboarding/page.tsx:110 | An absent item is appended at the end. A present item is removed everywhere, and the other items keep their order and multiplicities. |
| `Tags.FilterKeepsOthers` | wecollab-platform/app/profile/edit/page.tsx:129 | Removing an item keeps the count of every other item. |
| `Tags.RemoveAppended` | wecollab-platform/app/projects/create/page.tsx:78 | Removing an item that was just appended to a list lacking it gives back the list. |
| `Tags.ToggleTwiceRestores` | wecollab-platform/app/projects/create/page.tsx:78 | Toggling an absent item twice restores the list exactly. |
| `Tags.TogglePreservesNoDuplicates` | wecollab-platform/app/profile/edit/page.tsx:129 | Toggling never introduces a duplicate. |
| `Tags.AvailableSplitsOptions` | wecollab-platform/app/onboarding/page.tsx:257 | The offered options are disjoint from the selection, keep the catalogue's order, and together with the selection cover the catalogue. |
| `Onboarding.StepsStayInRange` | wecollab-platform/app/onboarding/page.tsx:132-142 | From a step in 1..4, both buttons stay in 1..4. "Next" does nothing exactly at 4 and "Previous" does nothing exactly at 1. |
| `Onboarding.ButtonsMatchGuards` | wecollab-platform/app/onboarding/page.tsx:394-403 | The disabled "Previous" button is exactly the no-op step of `handlePrevious`. The "Complete Setup" step is exactly the no-op step of `handleNext`. |
| `Onboarding.NextPreviousRoundTrip` | wecollab-platform/app/onboarding/page.tsx:132-142 | "Next" then "Previous" returns from any step below 4. "Previous" then "Next" returns from any step above 1. |
| `Onboarding.RunStaysInRange` | wecollab-platform/app/onboarding/page.tsx:132-142 | Any sequence of button presses from a valid step ends on a valid step. |
| `Onboarding.NextPressesSaturate` | wecollab-platform/app/onboarding/page.tsx:132-136 | n presses of "Next" from step s reach min(s + n, 4). |
| `Onboarding.OnboardingPage.constructor` | wecollab-platform/app/onboarding/page.tsx:93-102 | The wizard starts on step 1 with an empty form. |
| `Onboarding.OnboardingPage.HandleNext` | wecollab-platform/app/onboarding/page.tsx:132-136 | The step advances unless it is the last. The form is unchanged, and a valid step stays valid. |
| `Onboarding.OnboardingPage.HandlePrevious` | wecollab-platform/app/onboarding/page.tsx:138-142 | The step goes back unless it is the first. The form is unchanged, and a valid step stays valid. |
| `Onboarding.OnboardingPage.HandleSkillToggle` | wecollab-platform/app/onboarding/page.tsx:107-112 | Only `skills` changes, by the toggle. The step is unchanged, and no duplicates are introduced. |
| `Onboarding.OnboardingPage.HandleInterestToggle` | wecollab-platform/app/onboarding/page.tsx:114-121 | Only `interests` changes, by the toggle. The step is unchanged, and no duplicates are introduced. |
| `Onboarding.OnboardingPage.HandleLookingForToggle` | wecollab-platform/app/onboarding/page.tsx:123-130 | Only `lookingFor` changes, by the toggle. The step is unchanged, and no duplicates are introduced. |
| `Onboarding.OnboardingPage.OfferedSkills` | wecollab-platform/app/onboarding/page.tsx:257 | The offered skill buttons are exactly the catalogue entries not yet chosen, in catalogue order. |
| `Onboarding.OnboardingPage.OfferedInterests` | wecollab-platform/app/onboarding/page.tsx:303 | The offered interest buttons are exactly the catalogue entries not yet chosen, in catalogue order. |
| `Onboarding.OnboardingPage.OfferedLookingFor` | wecollab-platform/app/onboarding/page.tsx:349 | The offered "looking for" buttons are exactly the catalogue entries not yet chosen, in catalogue order. |
| `ProfileEdit.FromUserCopiesOrDefaults` | wecollab-platform/app/profile/edit/page.tsx:111-122 | Each field the user has is copied unchanged. Each missing string becomes "" and each missing list becomes []. |
| `ProfileEdit.LoadSavedRoundTrip` | wecollab-platform/app/profile/edit/page.tsx:111-122 | Loading a user record saved from a form gives that form back. |
| `ProfileEdit.BlankUserLoadsEmptyForm` | wecollab-platform/app/profile/edit/page.tsx:96-122 | A user with no field filled in loads as the initial empty form. |
| `ProfileEdit.ProfileEditPage.constructor` | wecollab-platform/app/profile/edit/page.tsx:96-107 | The form starts empty. |
| `ProfileEdit.ProfileEditPage.LoadFrom` | wecollab-platform/app/profile/edit/page.tsx:109-124 | When signed in, the whole form is replaced from the user. Without a user, the form keeps its values. |
| `ProfileEdit.ProfileEditPage.HandleSkillToggle` | wecollab-platform/app/profile/edit/page.tsx:126-131 | Only `skills` changes, by the toggle, and no duplicates are introduced. |
| `ProfileEdit.ProfileEditPage.HandleInterestToggle` | wecollab-platform/app/profile/edit/page.tsx:133-140 | Only `interests` changes, by the toggle, and no duplicates are introduced. |
| `ProfileEdit.ProfileEditPage.HandleLookingForToggle` | wecollab-platform/app/profile/edit/page.tsx:142-149 | Only `lookingFor` changes, by the toggle, and no duplicates are introduced. |
| `ProfileEdit.ProfileEditPage.OfferedSkills` | wecollab-platform/app/profile/edit/page.tsx:301 | The offered skill buttons are exactly the catalogue entries not yet chosen, in catalogue order. |
| `ProfileEdit.ProfileEditPage.OfferedInterests` | wecollab-platform/app/profile/edit/page.tsx:339 | The offered interest buttons are exactly the catalogue entries not yet chosen, in catalogue order. |
| `ProfileEdit.ProfileEditPage.OfferedLookingFor` | wecollab-platform/app/profile/edit/page.tsx:379 | The offered "looking for" buttons are exactly the catalogue entries not yet chosen, in catalogue order. |
| `ParseInt.NumeralValue` | wecollab-platform/app/projects/create/page.tsx:206 | A decimal numeral denotes its number. |
| `ParseInt.DigitPrefixOfDigits` | wecollab-platform/app/projects/create/page.tsx:206 | Reading digits stops exactly at the first character that is not a digit. |
| `ParseInt.ParseNumeral` | wecollab-platform/app/projects/create/page.tsx:206 | `parseInt` reads back a decimal numeral, bare or after `+` or `-`, whatever follows it that is neither a digit nor `x`. |
| `ParseInt.ParseNoDigits` | wecollab-platform/app/projects/create/page.tsx:206 | A blank input parses to NaN. |
| `ProjectCreate.TeamSize` | wecollab-platform/app/projects/create/page.tsx:206 | The team size is never 0: NaN gives 1, a parsed 0 gives 1, and any other parsed number, negative ones included, is kept. |
| `ProjectCreate.TeamSizeOfNumeral` | wecollab-platform/app/projects/create/page.tsx:206 | Typing a positive numeral sets that team size. |
| `ProjectCreate.ZeroTeamSizeIsOne` | wecollab-platform/app/projects/create/page.tsx:206 | "0" and "-0", followed by anything that ends the numeral, give team size 1. |
| `ProjectCreate.BlankTeamSizeIsOne` | wecollab-platform/app/projects/create/page.tsx:206 | A blank field gives team size 1. |
| `ProjectCreate.CreateProjectPage.constructor` | wecollab-platform/app/projects/create/page.tsx:61-73 | The form starts empty with team size 1. |
| `ProjectCreate.CreateProjectPage.HandleTagToggle` | wecollab-platform/app/projects/create/page.tsx:75-80 | Only `tags` changes, by the toggle. |
| `ProjectCreate.CreateProjectPage.HandleRoleToggle` | wecollab-platform/app/projects/create/page.tsx:82-89 | Only `contributorRoles` changes, by the toggle. |
| `ProjectCreate.CreateProjectPage.SetTeamSize` | wecollab-platform/app/projects/create/page.tsx:206 | Only `teamSize` changes, and it is never 0. |
| `ProjectCreate.CreateProjectPage.OfferedTags` | wecollab-platform/app/projects/create/page.tsx:258 | The offered tag buttons are exactly the catalogue entries not yet chosen, in catalogue order. |
| `ProjectCreate.CreateProjectPage.OfferedRoles` | wecollab-platform/app/projects/create/page.tsx:366-367 | The offered contributor-role buttons are exactly the catalogue entries not yet chosen, in catalogue order. |
| `Activity.AllTabShowsEverything` | wecollab-platform/app/activity/page.tsx:114 | The "all" tab shows the whole feed, in order. |
| `Activity.TabShowsItsKind` | wecollab-platform/app/activity/page.tsx:114 | Any other tab shows exactly the activities of that type, as an order-preserving subsequence. |
| `Activity.CountIsOccurrences` | wecollab-platform/app/activity/page.tsx:117-120 | A counter equals the number of activities of its type, counted one by one. |
| `Activity.StatsMatchTabs` | wecollab-platform/app/activity/page.tsx:114-121 | Each counter equals the length of its tab's list and the number of activities of its type. |
| `Activity.OccurrencesBounded` | wecollab-platform/app/activity/page.tsx:116-121 | The four per-type numbers add up to at most the feed's length. |
| `Activity.StatsBoundedByFeed` | wecollab-platform/app/activity/page.tsx:116-121 | The four counters together never exceed the number of activities. |
| `Dashboard.TeamMembers` | wecollab-platform/app/dashboard/page.tsx:249 | The member count is the sum of the team lengths: no team is larger than it, and it is 0 exactly when every team is empty. |
| `Dashboard.TeamMembersAppend` | wecollab-platform/app/dashboard/page.tsx:249 | The member count is additive over the project list, so it is the sum of the team lengths. |
| `Dashboard.RoundedPercentIsNearest` | wecollab-platform/app/dashboard/page.tsx:164 | The rounded progress is the integer nearest to 100 * completed / total, halves rounding up. |
| `Dashboard.NoTasksNoProgress` | wecollab-platform/app/dashboard/page.tsx:164 | With no tasks the progress is 0, and nothing is divided. |
| `Dashboard.ProgressIsPercentage` | wecollab-platform/app/dashboard/page.tsx:164 | If 0 <= completed <= total, the progress lies in 0..100. When all tasks are done it reads 100. |
| `Dashboard.CompletedWithinTotal` | wecollab-platform/app/dashboard/page.tsx:162-163 | When every project has 0 <= completed <= total, the summed totals keep that relation. |
| `Dashboard.DashboardProgressIsPercentage` | wecollab-platform/app/dashboard/page.tsx:162-164 | Over projects whose counts are sensible, the overall progress is a percentage. |
| `Dashboard.ByDueDateIsConsistent` | wecollab-platform/app/dashboard/page.tsx:441 | The due-date comparator is consistent and transitive. |
| `Dashboard.FutureSorted` | wecollab-platform/app/dashboard/page.tsx:440-441 | The future projects are sorted by non-decreasing due date. |
| `Dashboard.UpcomingShape` | wecollab-platform/app/dashboard/page.tsx:439-442 | The deadline card holds at most three projects of the list. Each is due strictly after now, in non-decreasing due-date order. |
| `Dashboard.FutureEntry` | wecollab-platform/app/dashboard/page.tsx:440 | Each project among the sorted future ones is a listed project due after now. |
| `Dashboard.UpcomingAreEarliest` | wecollab-platform/app/dashboard/page.tsx:439-442 | A future project missing from the card means the card is full, and each shown project is due no later than the missing one. |
| `Dashboard.LeftOffIsLater` | wecollab-platform/app/dashboard/page.tsx:442 | In a due-date-sorted list, an entry missing from the first three comes after three entries due no later. |
| `Dashboard.FewFutureAllShown` | wecollab-platform/app/dashboard/page.tsx:442 | With at most three future projects, all of them are shown. |
| `Dashboard.StatusColorDefaultsIff` | wecollab-platform/app/dashboard/page.tsx:119-132 | A status gets the gray class exactly when it is not one of the four known statuses. Known statuses get distinct classes. |
| `Dashboard.PriorityColorDefaultsIff` | wecollab-platform/app/dashboard/page.tsx:134-145 | A priority gets the gray class exactly when it is not one of the three known priorities. Known priorities get distinct classes. |
| `Signup.ProceedsIff` | wecollab-platform/app/signup/page.tsx:28-40 | Registration goes ahead exactly when the passwords agree and the terms are accepted. |
| `Signup.MismatchReportedFirst` | wecollab-platform/app/signup/page.tsx:30-33 | A password mismatch is reported whatever the terms box says. |
| `Signup.TermsReported` | wecollab-platform/app/signup/page.tsx:34-37 | With matching passwords, unaccepted terms are reported. |
| `Signup.DisabledNeverProceeds` | wecollab-platform/app/signup/page.tsx:205 | Whenever the submit button is disabled, submitting could not proceed anyway. |
| `Text.ContainsIffOccurs` | wecollab-platform/app/matchmaking/page.tsx:184 | `includes` holds exactly when the needle occurs at some position. |
| `Text.TrimEmptyIffBlank` | wecollab-platform/app/messages/page.tsx:109 | `trim()` is empty exactly when every character is white space. |
| `Text.CollateAntisymmetric` | wecollab-platform/app/matchmaking/page.tsx:212 | The stand-in for `localeCompare` is antisymmetric. |
| `Text.CollateTransitive` | wecollab-platform/app/matchmaking/page.tsx:214 | The stand-in for `localeCompare` is transitive. |
| `Seqs.SortWithSorted` | wecollab-platform/app/projects/page.tsx:156 | A stable sort with a consistent comparator leaves neighbours in order. |
| `Seqs.SortWithKeepsOrder` | wecollab-platform/app/projects/page.tsx:164-165 | A comparator that always returns 0 leaves the sequence as it is (stability). |
| `Seqs.FilterIsSubsequence` | wecollab-platform/app/activity/page.tsx:114 | `filter` keeps elements in their order. |

## Left out

- Rendering, styling, icons, routing and links are not modelled. These also cover the pages with no logic (home, layout, login, discover, profile view) and the activity page's icon and colour switches.
- The auth context (`useAuth`, `updateProfile`, `handleComplete`, `handleSubmit` of the profile and project forms) is a foreign call, and `alert`, `console.log`, the simulated delay and image upload are I/O. None is modelled; the signed-in user is a parameter.
- The clock and locale are not modelled: `Date.now()`, `toLocaleTimeString`, `new Date()` and date-string parsing become parameters, with dates as integers.
- `Text.Collate`: `localeCompare` is stood in for by code-point lexicographic order (Dafny characters are Unicode scalar values), because locale collation tables are outside the model. Only its sign and the antisymmetry and transitivity the sort relies on are used.
- `Text.Lower`: `toLowerCase` folds ASCII letters only, because Unicode case mapping tables are outside the model.
- `Matchmaking.FilteredUsersOrdered`: under the "online" key the comparator (`b.isOnline ? 1 : -1`) is not consistent, so the order depends on the engine's sort algorithm. Only the permutation is proved for that key (`Matchmaking.FilteredUsersExactly`).
- `Seqs.SortWith`: JavaScript's `sort` is modelled as a stable insertion sort. Any stable sort agrees with it on a consistent comparator. Under the inconsistent "online" comparator the model's order is one possible outcome only.
- `Dashboard.RoundedPercent`: `Math.round(c / t * 100)` is taken over exact rationals. Floating-point rounding of the quotient, which can move a value that sits exactly on a half, is not modelled.
- The dashboard's days-remaining badge (`Math.ceil` over milliseconds, and the 7-day threshold) and the onboarding progress bar percentage are floating-point display values and are not modelled.
- `ParseInt.Parse`: `parseInt` returns a double, so numerals beyond 2^53 lose precision there but not here, and `-0` is merged with `0`. The team-size field treats both zeros alike.
- `ProjectCreate.TeamSize`: `min="1"` and `max="20"` on the team-size input gate submission in the browser but not the state update. The model, like the handler, keeps negative and large values.
- The other form inputs (titles, descriptions, URLs, check boxes, the sign-up and message fields) are plain setters. They are not modelled as separate operations.
- The mock data literals are not modelled, and neither are React's `useMemo`/`useEffect` scheduling and re-rendering.
