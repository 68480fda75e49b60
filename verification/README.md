# Wellness-club admin dashboard: a verified model of its state and pages

This project models the core of a React/TypeScript admin dashboard for a chain
of wellness clubs. Super admins and admins log in and manage clubs, admins,
members, payments and expenses, inventory, attendance and subscription plans.
All data lives in client-side stores backed by fixed mock data. The model covers:

- **The application store** (`AppReducer`, `AppStore`):
  - the reducer with one SET/ADD/UPDATE/DELETE family per collection, plus the loading, error, selected-club and dashboard-metrics actions;
  - the per-club queries;
  - the provider's operations: load the clubs, load one club's data, select a club, and add/update/delete an admin, a club or a member. These are a `Store` class whose methods dispatch into the reducer.
- **The session store** (`Auth`):
  - the five-action authentication reducer;
  - the demo login with its two credential pairs;
  - session resumption from a stored token;
  - the role predicates;
  - `hasCreatedAdmin`, and `canViewClub` with its loop over created admins;
  - an `AuthProvider` class.
- **The pages** (`InventoryPage`, `MemberManagementPage`, `FinancePage`,
  `SubscriptionPage`, `AttendancePage`, `ClubManagementPage`,
  `AdminManagementPage`, with `Selection` for the shared toggle logic):
  - each page's filter pipeline: club scope, then the page's own filters and search;
  - its statistics;
  - the payload its form submits.
- **The widgets**:
  - the search box's suggestion list and handlers, and the quick-filter chips (`SearchComponents`);
  - the toast provider and helpers (`Toasts`);
  - the breakpoint and orientation hooks (`Responsive`);
  - the sidebar's role filter and role caption (`DashboardLayout`);
  - the route guard (`PrivateRoute`).

The support modules are:
- `Wrappers`: `Option`;
- `Seqs`: filter, subsequence, prefix, sum, find-by-id, and their lemmas;
- `Text`: ASCII lower-casing, substring test, and JS `||` fallback on strings;
- `Types`: the records and enumerations of the data model.

Some inputs become parameters:
- Record ids, timestamps and "today" (from `Date.now()`, `new Date()` and `Math.random()` in the source) are passed in.
- The window width and height are passed in.
- The token found in browser storage is passed in.
- The mock backing data is a value (`AppStore.Backing`) fixed when the store is built.
- A failed load is a `Fault` argument.

Where the specification and the code disagree, the model follows the code:
- `canViewClub` looks one level into created admins, not transitively; `Auth.VisibilityIsOneLevel` shows the difference.
- A successful load does not clear an earlier error: `loadClubs` and `loadClubData` never dispatch `SET_ERROR` with `null`.
- The "admin users" list offered for assignment keeps every user, because both roles pass its filter.
- ADD_* appends without checking ids. "Exactly once in its club query" holds only when the record was not already present (`AppStore.AddThenQuery`).

## Model

| member | source | states |
|---|---|---|
| AppReducer.ReplaceById | src/context/AppContext.tsx:134-140 | the UPDATE mapping keeps the length; each element with the payload's id becomes the payload; every other element is kept in place |
| AppReducer.ReduceWritesOnlyTarget | src/context/AppContext.tsx:112-379 | every action writes only the one state field it is named for; an unrecognised action returns the state unchanged |
| AppReducer.AddAppends | src/context/AppContext.tsx:129-133 | ADD_* grows the collection by one, puts the payload last and keeps the earlier prefix |
| AppReducer.UpdateReplacesMatches | src/context/AppContext.tsx:183-189 | UPDATE_* keeps the length, replaces every element whose id matches, and leaves the others in place |
| AppReducer.UpdateWithoutMatchIsNoop | src/context/AppContext.tsx:156-162 | UPDATE_* with an id nobody has leaves the collection unchanged |
| AppReducer.UpdateLeavesOnlyPayload | src/context/AppContext.tsx:134-140 | after UPDATE_*, the only value carrying the payload's id is the payload |
| AppReducer.DeleteRemovesMatches | src/context/AppContext.tsx:141-145 | DELETE_* keeps exactly the elements with another id, each as often as before, in their original order; elements with that id are gone |
| AppReducer.DeleteIdempotent | src/context/AppContext.tsx:163-167 | deleting the same id twice equals deleting it once |
| AppReducer.DeleteAbsentIsNoop | src/context/AppContext.tsx:190-194 | deleting an id nobody has leaves the collection unchanged |
| AppReducer.MemberActions | src/context/AppContext.tsx:178-194 | the member actions: add appends, update replaces by id, delete removes by id, and the users are untouched |
| AppStore.ForClubExact | src/context/AppContext.tsx:521-551 | a `getFiltered*` query holds exactly the records of that club, in store order |
| AppStore.ForClubPartitions | src/context/AppContext.tsx:521-523 | a record appears in its own club's query as often as in the store, and never in another club's query |
| AppStore.ScopedIsClubQuery | src/pages/FinancePage.tsx:23-25 | the pages' "selected club or everything" stage returns the whole list with no club and the club query otherwise; it keeps exactly the in-scope records |
| AppStore.ClubTotalSplits | src/pages/FinancePage.tsx:23-29 | the sum over one club plus the sum over all other clubs is the sum over the whole store |
| AppStore.ScopedAppend | src/pages/FinancePage.tsx:23-25 | appending a record appends it to the scoped list exactly when it is in scope |
| AppStore.AddThenQuery | src/context/AppContext.tsx:641-658 | adding a record raises its count in its club's query by one, and to exactly one when it was new |
| AppStore.QueriesPartition | src/context/AppContext.tsx:521-551 | over distinct clubs that cover every record, the club queries' sizes add up to the store's size |
| AppStore.OccurrencesOfDistinct | src/context/AppContext.tsx:521-551 | in a list of distinct club ids, a club occurs once when present and not at all otherwise |
| AppStore.QuerySizesAppend | src/context/AppContext.tsx:521-551 | appending one record adds one to the total query size for each listed copy of its club |
| AppStore.ZeroSizes | src/context/AppContext.tsx:521-551 | an empty store has empty queries |
| AppStore.FirstIdOr | src/context/AppContext.tsx:599-613 | the first assigned admin id, when present and non-empty, and otherwise the fallback (JS falsy-string semantics) |
| AppStore.NewAdmin | src/context/AppContext.tsx:560-573 | a new admin takes the form's name, phone, role, password and clubs; the email doubles as username; it gets the given id and both timestamps |
| AppStore.NewClub | src/context/AppContext.tsx:599-613 | a new club copies the address into location, the phone into contactNumber and the first admin into adminId, with the given id and timestamps |
| AppStore.NewMember | src/context/AppContext.tsx:641-658 | a new member is active exactly when its status is ACTIVE; it starts on the join date or on today when that is missing or empty; a year's end date, plan "default-plan", source "Direct" |
| AppStore.OverlaysFollowForm | src/context/AppContext.tsx:575-591 | an edit keeps the id and creation time; it re-derives the username, adminId, mobile and isActive from the form; an absent password keeps the old one |
| AppStore.LoadedContents | src/context/AppContext.tsx:471-510 | after a club load, members, payments, attendance and inventory hold exactly that club's records; the club is selected iff it exists; loading is off; the clubs, users and error are unchanged |
| AppStore.Store.constructor | src/context/AppContext.tsx:450-452 | the store starts in the initial state over the given backing data |
| AppStore.Store.Dispatch | src/context/AppContext.tsx:450-452 | a dispatch replaces the state by the reducer's result |
| AppStore.Store.LoadClubs | src/context/AppContext.tsx:454-469 | on success, the clubs are the backing clubs and loading is off; on failure, the error message is set and loading is off |
| AppStore.Store.LoadClubData | src/context/AppContext.tsx:471-510 | on success, the state is `Loaded` (see LoadedContents); on failure, the error is set and loading is off |
| AppStore.Store.InstallVisitRecords | src/context/AppContext.tsx:478-490 | installs that club's members, trials and visitors, and changes nothing else |
| AppStore.Store.InstallFinance | src/context/AppContext.tsx:481-492 | installs that club's payments and expenses, and changes nothing else |
| AppStore.Store.InstallOperations | src/context/AppContext.tsx:483-496 | installs that club's inventory, usage, attendance and plans, and changes nothing else |
| AppStore.Store.SetSelected | src/context/AppContext.tsx:513-518 | no club clears the selection and nothing else; a club triggers that club's load |
| AppStore.Store.AddAdmin | src/context/AppContext.tsx:560-573 | appends the admin built from the form |
| AppStore.Store.UpdateAdmin | src/context/AppContext.tsx:575-591 | with an unknown id nothing changes; otherwise the first admin with that id is overlaid with the form and replaces that id |
| AppStore.Store.DeleteAdmin | src/context/AppContext.tsx:593-597 | dispatches DELETE_USER for the id |
| AppStore.Store.AddClub | src/context/AppContext.tsx:599-613 | appends the club built from the form |
| AppStore.Store.UpdateClub | src/context/AppContext.tsx:615-633 | with an unknown id nothing changes; otherwise the found club is overlaid with the form |
| AppStore.Store.DeleteClub | src/context/AppContext.tsx:635-639 | dispatches DELETE_CLUB for the id |
| AppStore.Store.AddMember | src/context/AppContext.tsx:641-658 | appends the member built from the form |
| AppStore.Store.UpdateMember | src/context/AppContext.tsx:664-681 | with an unknown id nothing changes; otherwise the found member is overlaid with the form |
| AppStore.Store.DeleteMember | src/context/AppContext.tsx:683-687 | dispatches DELETE_MEMBER for the id |
| Auth.AuthTransitions | src/context/AuthContext.tsx:23-57 | LOGIN_START sets loading and clears the error; LOGIN_SUCCESS installs user and token; LOGIN_FAILURE and LOGOUT clear the session, and only a failure records an error |
| Auth.ReducePreservesConsistency | src/context/AuthContext.tsx:23-66 | an authenticated session always has a user and a token, after every action |
| Auth.LoginAccepts | src/context/AuthContext.tsx:118-150 | only superadmin/password and admin/password log in, and only the first yields a super admin; anything else ends with "Invalid credentials", no user and loading off |
| Auth.ResumeEscalatesAdmin | src/context/AuthContext.tsx:91-101 | as written, an admin who logs in and reloads comes back as the super-admin fixture user |
| Auth.LoginThenResume | src/context/AuthContext.tsx:91-150 | corrected resumption: logging in and then resuming from the stored token restores the same user, token and authentication |
| Auth.LoginGrantsRole | src/context/AuthContext.tsx:118-167 | after a login attempt the session is a super admin's iff the super-admin credentials were given, and an admin's iff the admin credentials were |
| Auth.StartupNeverAdmin | src/context/AuthContext.tsx:91-111 | as written, the startup check never restores an admin: it yields the super admin iff the stored token is present and non-empty |
| Seqs.Any | src/context/AuthContext.tsx:187 | `some` is true exactly when some element satisfies the predicate |
| Auth.HasCreatedAdmin | src/context/AuthContext.tsx:169-177 | false without a session; true for a super admin; for an admin, true iff the id is among their created admins |
| Auth.CanViewClub | src/context/AuthContext.tsx:180-199 | true exactly when a session exists and the user is super admin, owns the club, or created an admin who owns it |
| Auth.VisibilityIsOneLevel | src/context/AuthContext.tsx:189-196 | a club owned two levels down the created-admin chain is visible to the middle admin but not to the top one |
| Auth.AuthProvider.constructor | src/context/AuthContext.tsx:6-12 | the provider starts in the initial session state |
| Auth.AuthProvider.Dispatch | src/context/AuthContext.tsx:23-66 | a dispatch replaces the session by the reducer's result |
| Auth.AuthProvider.Login | src/context/AuthContext.tsx:118-150 | login is LOGIN_START followed by the outcome for the credentials |
| Auth.AuthProvider.SignOut | src/context/AuthContext.tsx:153-157 | logout dispatches LOGOUT |
| Auth.AuthProvider.CheckAuth | src/context/AuthContext.tsx:91-111 | the startup check as written: a present, non-empty stored token resumes as the default fixture user (the super admin) whoever it was issued to; no token or an empty one logs out |
| InventoryPage.FilteredItemsExact | src/pages/InventoryPage.tsx:25-32 | an item is listed iff it is in the store, in scope, in the chosen category and matches the search by name or description; store order is kept |
| InventoryPage.UnfilteredShowsAll | src/pages/InventoryPage.tsx:25-32 | with no club, all categories and an empty search, every item is listed |
| InventoryPage.LevelOf | src/pages/InventoryPage.tsx:40-50 | out of stock iff the quantity is 0; low iff non-zero and at or below the threshold; in stock iff above it |
| InventoryPage.BadgeAgrees | src/pages/InventoryPage.tsx:40-50 | the badge's text and colour always name the same level |
| InventoryPage.StatisticsBounds | src/pages/InventoryPage.tsx:35-38 | the low and out-of-stock counts are at most the total; with non-negative thresholds out-of-stock is at most low-stock |
| InventoryPage.NegativeThresholdUndercounts | src/pages/InventoryPage.tsx:36-37 | an empty item with a negative threshold counts as out of stock but not as low stock |
| InventoryPage.TotalValueNonNegative | src/pages/InventoryPage.tsx:38 | the stock value is non-negative when quantities and prices are |
| InventoryPage.TotalValueSplits | src/pages/InventoryPage.tsx:38 | the stock value is the low-stock items' value plus the rest's |
| MemberManagementPage.StatusOrder | src/pages/MemberManagementPage.tsx:98-103 | every status has a rank from 1 to 4 |
| MemberManagementPage.StatusOrderInjective | src/pages/MemberManagementPage.tsx:98-103 | distinct statuses have distinct ranks |
| MemberManagementPage.SortIsGrouped | src/pages/MemberManagementPage.tsx:96-105 | the stable sort equals the list grouped by status rank, each group in input order |
| MemberManagementPage.GroupedIsPermutation | src/pages/MemberManagementPage.tsx:96-105 | grouping by rank is a permutation |
| MemberManagementPage.SortByStatusCorrect | src/pages/MemberManagementPage.tsx:96-105 | the sort orders by status rank, is a permutation, and keeps the input order within each status |
| MemberManagementPage.FilteredMembersCorrect | src/pages/MemberManagementPage.tsx:87-105 | a member is listed iff in scope, of the chosen status, and matching name, email or phone; the list is sorted by status and is a permutation of the filtered members |
| MemberManagementPage.Names | src/pages/MemberManagementPage.tsx:254-255 | the names of the members, one per member in order |
| MemberManagementPage.NameSuggestionsSound | src/pages/MemberManagementPage.tsx:253-256 | at most five suggestions, each the name of a member that contains the search term |
| MemberManagementPage.SubmittedJoinDate | src/pages/MemberManagementPage.tsx:108-112 | the submitted join date is the entered one, or today when empty; a new member starts on it and an edit stores it |
| FinancePage.ShortId | src/pages/FinancePage.tsx:164 | the last six characters of the id (all of it when shorter) |
| FinancePage.TotalsFollowScope | src/pages/FinancePage.tsx:23-31 | revenue and expenses are the sums over all records with no club, and over the club query otherwise |
| FinancePage.ClubShareOfTotals | src/pages/FinancePage.tsx:23-29 | a club's revenue (expenses) plus the other clubs' is the chain's total |
| FinancePage.RecordingPaymentRaisesRevenue | src/pages/FinancePage.tsx:23-25 | a new payment of the selected club raises revenue by its amount; another club's payment leaves it unchanged |
| FinancePage.PaymentStatusesPartition | src/pages/FinancePage.tsx:122 | the FULL count and the count of all other payments add up to the number of payments |
| SubscriptionPage.Matched | src/pages/SubscriptionPage.tsx:34-37 | the number of subscribers whose plan is listed is at most the number of subscribers |
| SubscriptionPage.PlanColorCycles | src/pages/SubscriptionPage.tsx:39-47 | a plan's colour is one of four, repeats every four plans and differs between neighbours |
| SubscriptionPage.ActiveSubscriptionsExact | src/pages/SubscriptionPage.tsx:27-29 | the active subscriptions are exactly the in-scope members with a non-empty plan id |
| SubscriptionPage.PriceOfCons | src/pages/SubscriptionPage.tsx:35-36 | in a non-empty plan list the head plan answers for its own id, the rest for every other id |
| SubscriptionPage.RevenueCons | src/pages/SubscriptionPage.tsx:34-37 | when the head plan's id is unique, revenue is its price times its subscribers plus the revenue of the rest |
| SubscriptionPage.MatchedCons | src/pages/SubscriptionPage.tsx:34-37 | when the head plan's id is unique, the matched count is its subscribers plus the rest's |
| SubscriptionPage.RevenueWithoutPlans | src/pages/SubscriptionPage.tsx:34-37 | with no plans there is no revenue |
| SubscriptionPage.MatchedWithoutPlans | src/pages/SubscriptionPage.tsx:34-37 | with no plans no subscriber is matched |
| SubscriptionPage.RevenueByPlan | src/pages/SubscriptionPage.tsx:34-37 | with distinct plan ids, monthly revenue equals the sum over plans of price times the per-plan subscriber count shown on the card |
| SubscriptionPage.CountsByPlan | src/pages/SubscriptionPage.tsx:196 | with distinct plan ids, the per-plan counts add up to the matched subscribers, at most all subscribers |
| SubscriptionPage.UnlistedPlanEarnsNothing | src/pages/SubscriptionPage.tsx:34-37 | a subscriber whose plan is not listed adds nothing to revenue |
| AttendancePage.FilteredAttendanceExact | src/pages/AttendancePage.tsx:29-46 | a record is listed iff in scope, inside the date window and of the chosen status; store order is kept |
| AttendancePage.UnfilteredShowsAll | src/pages/AttendancePage.tsx:29-46 | with no club, all time and all statuses, every record is listed |
| AttendancePage.CountsPartition | src/pages/AttendancePage.tsx:49-51 | present plus absent is the total |
| AttendancePage.RateIsPercentage | src/pages/AttendancePage.tsx:52 | the rate is between 0 and 100, is 0 for an empty list, and is 100 when nobody is absent |
| AttendancePage.StatusFilterExcludesOther | src/pages/AttendancePage.tsx:46-51 | filtering on one status leaves no record of the other |
| AttendancePage.MemberNameFound | src/pages/AttendancePage.tsx:55-58 | the first member with the id gives the name; "Unknown Member" when none has it |
| SearchComponents.FilteredSuggestionsSound | src/components/ui/Search.tsx:49-51 | at most five suggestions, in the caller's order, each containing the value ignoring case and none equal to it |
| SearchComponents.FilteredSuggestionsComplete | src/components/ui/Search.tsx:49-51 | when at most five match, every matching suggestion other than the value is offered |
| SearchComponents.EmptyValueOffersNonEmpty | src/components/ui/Search.tsx:49-51 | with an empty value, the first five non-empty suggestions are offered |
| SearchComponents.HandleClear | src/components/ui/Search.tsx:66-69 | clearing reports the empty value, no pick, and leaves the dropdown open |
| SearchComponents.HandleSuggestionClick | src/components/ui/Search.tsx:71-76 | a pick reports the suggestion as the value, and as the selection iff a handler is given; it closes the dropdown |
| SearchComponents.PickedSuggestionNotOffered | src/components/ui/Search.tsx:49-76 | after a pick nothing is shown, and the pick is not offered again |
| SearchComponents.ClearOffersNonEmpty | src/components/ui/Search.tsx:49-69 | after a clear, the first five non-empty suggestions are on offer |
| SearchComponents.ClickHighlightsOnlyThatChip | src/components/ui/Search.tsx:246-247 | with distinct keys, clicking a chip makes it the only active chip |
| Toasts.WithId | src/components/ui/Toast.tsx:49-53 | the stored toast is the input with the assigned id |
| Toasts.ToastProvider.constructor | src/components/ui/Toast.tsx:46-47 | the provider starts with no toasts |
| Toasts.ToastProvider.AddToast | src/components/ui/Toast.tsx:49-62 | appends the toast under its id; schedules removal after the effective duration exactly when it is positive |
| Toasts.ToastProvider.RemoveToast | src/components/ui/Toast.tsx:64-66 | drops the toasts with that id |
| Toasts.WithoutToastExact | src/components/ui/Toast.tsx:64-66 | removal keeps exactly the toasts with another id, each as often as before, in order, and is idempotent |
| Toasts.RemoveAbsentIsNoop | src/components/ui/Toast.tsx:57-60 | removing an absent id (a timer after a manual close) changes nothing |
| Toasts.AddThenRemove | src/components/ui/Toast.tsx:49-66 | adding under a fresh id and removing that id restores the list |
| Toasts.DurationDefault | src/components/ui/Toast.tsx:56-57 | a missing duration means 5000 ms; only an explicit non-positive duration keeps a toast up |
| Toasts.BorderColorsDistinct | src/components/ui/Toast.tsx:114-125 | the four kinds have four different border colours |
| Toasts.BuildersTagKind | src/components/ui/Toast.tsx:175-200 | each helper tags its own kind and passes title and message unless the options override them |
| Responsive.Order | src/hooks/useResponsive.ts:15-21 | the five breakpoints are ranked 0 to 4 |
| Responsive.GetCurrentBreakpoint | src/hooks/useResponsive.ts:41-47 | the largest breakpoint whose minimum width is reached, and `sm` below `md` |
| Responsive.BreakpointMonotone | src/hooks/useResponsive.ts:41-47 | a wider window never has a smaller breakpoint |
| Responsive.DeviceClassesPartition | src/hooks/useResponsive.ts:51-60 | exactly one of mobile, tablet and desktop holds; large implies desktop |
| Responsive.DefaultIsDesktop | src/hooks/useResponsive.ts:24-27 | without a window the 1024×768 fallback size is a desktop at `lg`, not large; that size measures landscape, yet without a window the orientation hook reports its initial portrait |
| Responsive.UseOrientation | src/hooks/useResponsive.ts:132-145 | portrait until a window is measured; with a window, portrait iff it is taller than wide |
| Responsive.ActiveBreakpointAgrees | src/hooks/useResponsive.ts:90-129 | the media-query variant picks the same breakpoint as the width variant, whatever the `sm` flag says |
| Responsive.OrientationSquareIsLandscape | src/hooks/useResponsive.ts:136-138 | portrait iff taller than wide, so a square window is landscape |
| DashboardLayout.FilteredNavItemsExact | src/components/layout/DashboardLayout.tsx:91-97 | an entry shows iff it has no role list, the user is super admin, or the user's role is listed; a super admin sees all |
| DashboardLayout.OnlyAdminEntryRestricted | src/components/layout/DashboardLayout.tsx:42-89 | only the "/admins" entry carries a role list, and it names both roles |
| DashboardLayout.ShippedSidebarForRoles | src/components/layout/DashboardLayout.tsx:42-97 | every signed-in role sees all nine entries |
| DashboardLayout.ShippedSidebarWithoutUser | src/components/layout/DashboardLayout.tsx:42-97 | without a user every entry but "/admins" shows |
| DashboardLayout.RoleLabelExact | src/components/layout/DashboardLayout.tsx:276-278 | the caption is "Super Admin" iff the user is a super admin, otherwise "Admin" |
| PrivateRoute.GuardDecisions | src/components/auth/PrivateRoute.tsx:16-32 | unauthenticated goes to the login page; a non-super-admin on a super-admin route goes to the dashboard; otherwise the children or the outlet render |
| Selection.ToggleEffect | src/pages/ClubManagementPage.tsx:93-101 | toggling an absent id appends it; toggling a present id removes it and keeps the order; other ids are unaffected |
| Selection.ToggleTwiceRestores | src/pages/AdminManagementPage.tsx:79-87 | toggling an absent id twice restores the selection |
| Selection.ToggleTwiceMovesToEnd | src/pages/AdminManagementPage.tsx:79-87 | toggling a present id twice moves it to the end |
| Selection.ToggleKeepsDistinct | src/pages/ClubManagementPage.tsx:93-101 | a selection without duplicates stays without duplicates |
| Selection.SubseqKeepsDistinct | src/pages/ClubManagementPage.tsx:96 | dropping elements keeps a list duplicate-free |
| Selection.AdminUsersIsEveryUser | src/pages/ClubManagementPage.tsx:47-49 | the assignable-admin filter keeps every user |
| ClubManagementPage.FilteredClubsExact | src/pages/ClubManagementPage.tsx:52-56 | a club is listed iff its name, address or email contains the term ignoring case; order is kept; an empty term lists all |
| ClubManagementPage.SubmittedAssignment | src/pages/ClubManagementPage.tsx:103-109 | the submitted admins are the selection, and the first becomes adminId, or "" when none |
| ClubManagementPage.UntouchedEditKeepsAdmins | src/pages/ClubManagementPage.tsx:80-109 | editing a club without touching the selection keeps its admin list |
| AdminManagementPage.SubmitAdminPayload | src/pages/AdminManagementPage.tsx:89-107 | the payload carries the selected clubs; editing calls update with the typed password, adding calls add with the typed password or "defaultPassword123"; the selection is reset |
| AdminManagementPage.SubmittedAdminInStore | src/pages/AdminManagementPage.tsx:89-107 | the stored new admin has the selected clubs and a password; an edit stores the selected clubs |

## Left out

- Persistence in browser storage (`localStorage`) is left out; the stored token is a parameter of `Auth.AuthProvider.CheckAuth`.
- The 800 ms simulated login delay and the try/catch around `getMockUser` in the startup check (it cannot throw on mock data) are left out.
- Asynchrony is left out: `loadClubs` and `loadClubData` run as one step each, with the failure as a `Fault` argument.
- The other collections' ADD/UPDATE/DELETE wrappers on the provider are not modelled as methods. The reducer families for every collection are modelled.
- The dashboard metrics are an opaque record.
- Form validation (zod schemas) and the modal open/close state are left out; forms are taken as validated.
- The attendance page's search box does not take part in its filter in the code, so it is not modelled.
- The attendance clock is a parameter: "today", the day of a record and the start of the week and month.
- `AttendancePage.RateIsPercentage`: the rate is an exact real; the one-decimal `toFixed` rounding is not modelled.
- Lower-casing is ASCII only. Unicode case mapping is not modelled.
- Debouncing, focus, hover and click-outside state in the search box are left out. So are animations and every visual component without logic (buttons, skeletons, empty states).
- Toast timers are not run: `Toasts.ToastProvider.AddToast` returns the delay after which the removal fires. Toast ids are a parameter, since the source draws them at random.
- An `id` passed in a toast helper's options is dropped, because `addToast` overwrites it.
- The `useMediaQuery` listeners, the resize listener and `useTouchDevice` are left out. Widths, heights and media flags are parameters.
- `PrivateRoute.GuardDecisions`: the guard only ever refuses a non-super-admin on a super-admin route. A route requiring ADMIN lets a super admin through, and the model states that rather than a general role check.
- `MemberManagementPage.SortByStatusCorrect`: `Array.prototype.sort` is modelled as a stable insertion sort. The language requires stability, and the lemma proves the result equal to the stable grouping by rank, so any stable sort gives the same list.
- The sidebar caption reads "Admin" when no user is signed in; `DashboardLayout.RoleLabelExact` states that.
- An edit that submits an empty password string overwrites the stored password, because of the object spread. The model keeps that.
- Login, settings and dashboard pages and the router table are not part of this model.

## Findings

| source | as written | input that shows it | evidently intended | confidence | as-written member | corrected member |
|---|---|---|---|---|---|---|
| src/context/AuthContext.tsx:91-101 with src/utils/mockData.ts:489-492 | the startup check calls `getMockUser()` with its default role, so any stored token resumes as the super-admin fixture user | log in as admin/password (stores "mock-token-admin"), then reload the page | resume as the user the token was issued for | medium, not executed | Auth.ResumeEscalatesAdmin | Auth.LoginThenResume |
