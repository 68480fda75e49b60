/**
 * The entity store provider: club-scoped queries over the reducer state,
 * the record builders behind the admin/club/member forms, and the store
 * object whose methods issue dispatches. Record ids (`Date.now()`-based
 * in the application), timestamps and today's date are parameters.
 */
module AppStore {
  import opened Wrappers
  import opened Types
  import opened AppReducer
  import Seqs
  import Text

  // ---------------------------------------------------------------------
  // Club-scoped queries (getFiltered*)
  // ---------------------------------------------------------------------

  function MemberClub(m: Member): string { m.clubId }
  function TrialClub(t: Trial): string { t.clubId }
  function VisitorClub(v: Visitor): string { v.clubId }
  function PaymentClub(p: Payment): string { p.clubId }
  function ExpenseClub(e: Expense): string { e.clubId }
  function ItemClub(i: InventoryItem): string { i.clubId }
  function UsageClub(u: InventoryUsage): string { u.clubId }
  function AttendanceClub(a: Attendance): string { a.clubId }
  function PlanClub(p: SubscriptionPlan): string { p.clubId }

  /** `xs.filter(x => clubOf(x) === c)`. */
  function ForClub<T>(xs: seq<T>, clubOf: T -> string, c: string): seq<T>
  {
    Seqs.Filter(xs, (x: T) => clubOf(x) == c)
  }

  function GetFilteredMembers(s: AppState, c: string): seq<Member> { ForClub(s.members, MemberClub, c) }
  function GetFilteredTrials(s: AppState, c: string): seq<Trial> { ForClub(s.trials, TrialClub, c) }
  function GetFilteredVisitors(s: AppState, c: string): seq<Visitor> { ForClub(s.visitors, VisitorClub, c) }
  function GetFilteredPayments(s: AppState, c: string): seq<Payment> { ForClub(s.payments, PaymentClub, c) }
  function GetFilteredExpenses(s: AppState, c: string): seq<Expense> { ForClub(s.expenses, ExpenseClub, c) }
  function GetFilteredInventory(s: AppState, c: string): seq<InventoryItem> { ForClub(s.inventoryItems, ItemClub, c) }
  function GetFilteredAttendance(s: AppState, c: string): seq<Attendance> { ForClub(s.attendance, AttendanceClub, c) }
  function GetFilteredSubscriptionPlans(s: AppState, c: string): seq<SubscriptionPlan> { ForClub(s.subscriptionPlans, PlanClub, c) }

  /** A club query returns exactly the records of that club, in their original order. */
  lemma ForClubExact<T>(xs: seq<T>, clubOf: T -> string, c: string)
    ensures forall x :: x in ForClub(xs, clubOf, c) <==> x in xs && clubOf(x) == c
    ensures Seqs.Subseq(ForClub(xs, clubOf, c), xs)
  {
    Seqs.FilterMembership(xs, (x: T) => clubOf(x) == c);
    Seqs.FilterIsSubseq(xs, (x: T) => clubOf(x) == c);
  }

  /**
   * Each record lands, with its full multiplicity, in the query for its own
   * club and in no other query.
   */
  lemma ForClubPartitions<T>(xs: seq<T>, clubOf: T -> string, x: T, c: string)
    ensures multiset(ForClub(xs, clubOf, clubOf(x)))[x] == multiset(xs)[x]
    ensures c != clubOf(x) ==> x !in ForClub(xs, clubOf, c)
  {
    Seqs.FilterMultiplicity(xs, (y: T) => clubOf(y) == clubOf(x), x);
    Seqs.FilterMembership(xs, (y: T) => clubOf(y) == c);
  }

  /**
   * The pages' first filtering stage, `selectedClub ? x.clubId === selectedClub.id : true`:
   * with no club selected every record is in scope.
   */
  predicate InSelectedClub(selected: Option<Club>, clubId: string)
  {
    selected.None? || clubId == selected.value.id
  }

  function Scoped<T>(xs: seq<T>, clubOf: T -> string, selected: Option<Club>): seq<T>
  {
    Seqs.Filter(xs, (x: T) => InSelectedClub(selected, clubOf(x)))
  }

  /** A page's club stage is the identity without a selection and the store's club query with one. */
  lemma ScopedIsClubQuery<T>(xs: seq<T>, clubOf: T -> string, selected: Option<Club>)
    ensures selected.None? ==> Scoped(xs, clubOf, selected) == xs
    ensures selected.Some? ==> Scoped(xs, clubOf, selected) == ForClub(xs, clubOf, selected.value.id)
    ensures forall x :: x in Scoped(xs, clubOf, selected) <==> x in xs && InSelectedClub(selected, clubOf(x))
    ensures Seqs.Subseq(Scoped(xs, clubOf, selected), xs)
  {
    Seqs.FilterMembership(xs, (x: T) => InSelectedClub(selected, clubOf(x)));
    Seqs.FilterIsSubseq(xs, (x: T) => InSelectedClub(selected, clubOf(x)));
    if selected.None? {
      Seqs.FilterKeepsAll(xs, (x: T) => InSelectedClub(selected, clubOf(x)));
    } else {
      Seqs.FilterExt(xs, (x: T) => InSelectedClub(selected, clubOf(x)), (x: T) => clubOf(x) == selected.value.id);
    }
  }

  /** The records of every club but `c`. */
  function OtherClubs<T>(xs: seq<T>, clubOf: T -> string, c: string): seq<T>
  {
    Seqs.Filter(xs, (x: T) => clubOf(x) != c)
  }

  /** A total over one club's records plus the total over the rest is the grand total. */
  lemma ClubTotalSplits<T>(xs: seq<T>, clubOf: T -> string, c: string, f: T -> int)
    ensures Seqs.Sum(ForClub(xs, clubOf, c), f) + Seqs.Sum(OtherClubs(xs, clubOf, c), f) == Seqs.Sum(xs, f)
  {
    Seqs.SumSplit(xs, f, (x: T) => clubOf(x) == c, (x: T) => clubOf(x) != c);
  }

  /** Appending a record extends the page's club stage exactly when the record is in scope. */
  lemma ScopedAppend<T>(xs: seq<T>, clubOf: T -> string, selected: Option<Club>, x: T)
    ensures Scoped(xs + [x], clubOf, selected) ==
      Scoped(xs, clubOf, selected) + (if InSelectedClub(selected, clubOf(x)) then [x] else [])
  {
    Seqs.FilterAppend(xs, [x], (y: T) => InSelectedClub(selected, clubOf(y)));
    assert [x][1..] == [];
  }

  /** Appending a record makes it appear once more in its club's query. */
  lemma AddThenQuery<T>(xs: seq<T>, clubOf: T -> string, e: T)
    ensures multiset(ForClub(xs + [e], clubOf, clubOf(e)))[e] == multiset(ForClub(xs, clubOf, clubOf(e)))[e] + 1
    ensures e !in xs ==> multiset(ForClub(xs + [e], clubOf, clubOf(e)))[e] == 1
  {
    ForClubPartitions(xs + [e], clubOf, e, clubOf(e));
    ForClubPartitions(xs, clubOf, e, clubOf(e));
  }

  /** Total size of the queries for the clubs in `cs`. */
  function QuerySizes<T>(xs: seq<T>, clubOf: T -> string, cs: seq<string>): nat
  {
    if cs == [] then 0 else |ForClub(xs, clubOf, cs[0])| + QuerySizes(xs, clubOf, cs[1..])
  }

  /** Number of times `c` occurs in `cs`. */
  function Occurrences(cs: seq<string>, c: string): nat
  {
    if cs == [] then 0 else (if cs[0] == c then 1 else 0) + Occurrences(cs[1..], c)
  }

  lemma {:induction false} OccurrencesOfDistinct(cs: seq<string>, c: string)
    requires forall i, j :: 0 <= i < j < |cs| ==> cs[i] != cs[j]
    ensures Occurrences(cs, c) == if c in cs then 1 else 0
  {
    if cs != [] {
      OccurrencesOfDistinct(cs[1..], c);
      assert c in cs[1..] ==> cs[0] != c;
      assert c in cs <==> cs[0] == c || c in cs[1..];
    }
  }

  lemma {:induction false} QuerySizesAppend<T>(xs: seq<T>, clubOf: T -> string, x: T, cs: seq<string>)
    ensures QuerySizes(xs + [x], clubOf, cs) == QuerySizes(xs, clubOf, cs) + Occurrences(cs, clubOf(x))
  {
    if cs != [] {
      QuerySizesAppend(xs, clubOf, x, cs[1..]);
      Seqs.FilterAppend(xs, [x], (y: T) => clubOf(y) == cs[0]);
    }
  }

  /**
   * The queries for a duplicate-free list of club ids that covers every
   * record partition the collection: their sizes add up to its length.
   */
  lemma {:induction false} QueriesPartition<T>(xs: seq<T>, clubOf: T -> string, cs: seq<string>)
    requires forall i, j :: 0 <= i < j < |cs| ==> cs[i] != cs[j]
    requires forall i :: 0 <= i < |xs| ==> clubOf(xs[i]) in cs
    ensures QuerySizes(xs, clubOf, cs) == |xs|
    decreases |xs|
  {
    if xs == [] {
      ZeroSizes(clubOf, cs);
    } else {
      var init, x := xs[..|xs| - 1], xs[|xs| - 1];
      assert xs == init + [x];
      QueriesPartition(init, clubOf, cs);
      QuerySizesAppend(init, clubOf, x, cs);
      OccurrencesOfDistinct(cs, clubOf(x));
    }
  }

  lemma {:induction false} ZeroSizes<T>(clubOf: T -> string, cs: seq<string>)
    ensures QuerySizes([], clubOf, cs) == 0
  {
    if cs != [] {
      ZeroSizes(clubOf, cs[1..]);
    }
  }

  // ---------------------------------------------------------------------
  // Forms and record builders
  // ---------------------------------------------------------------------

  /** Admin form payload; absent optional keys are `None`. */
  datatype AdminForm = AdminForm(
    name: string, email: string, phone: string, password: Option<string>,
    role: UserRole, clubIds: Option<seq<string>>)

  datatype ClubForm = ClubForm(
    name: string, address: string, phone: string, email: string, adminIds: Option<seq<string>>)

  datatype MemberForm = MemberForm(
    name: string, phone: string, email: string, address: string,
    status: MemberStatus, joinDate: Option<string>, clubId: string)

  /** `ids?.[0] || fallback`. */
  function FirstIdOr(ids: Option<seq<string>>, fallback: string): (r: string)
    ensures ids.Some? && |ids.value| > 0 && ids.value[0] != "" ==> r == ids.value[0]
    ensures ids.None? || |ids.value| == 0 || ids.value[0] == "" ==> r == fallback
  {
    if ids.Some? && |ids.value| > 0 then Text.OrElse(Some(ids.value[0]), fallback) else fallback
  }

  /** `{...form, id, username: email, phone: form.phone || '', createdAt, updatedAt}`. */
  function NewAdmin(form: AdminForm, id: string, now: string): (u: User)
    ensures u.id == id && u.username == form.email && u.email == form.email
    ensures u.name == form.name && u.phone == form.phone && u.role == form.role
    ensures u.password == form.password && u.clubIds == form.clubIds
    ensures u.createdAt == now && u.updatedAt == now
  {
    User(id, form.email, form.name, form.email, Text.OrElse(Some(form.phone), ""), form.password,
         form.role, None, None, None, form.clubIds, now, now)
  }

  /** `{...existing, ...form, id, username: form.email, updatedAt}`. */
  function OverlayAdmin(existing: User, form: AdminForm, id: string, now: string): User
  {
    existing.(id := id, username := form.email, name := form.name, email := form.email,
              phone := form.phone, role := form.role,
              password := if form.password.Some? then form.password else existing.password,
              clubIds := if form.clubIds.Some? then form.clubIds else existing.clubIds,
              updatedAt := now)
  }

  /** `{...form, id, location: address, contactNumber: phone, adminId: adminIds?.[0] || '', ...}`. */
  function NewClub(form: ClubForm, id: string, now: string): (c: Club)
    ensures c.id == id && c.name == form.name && c.email == form.email
    ensures c.location == form.address && c.address == form.address
    ensures c.contactNumber == form.phone && c.phone == form.phone
    ensures c.adminIds == form.adminIds
    ensures c.adminId == FirstIdOr(form.adminIds, "")
    ensures c.createdAt == now && c.updatedAt == now
  {
    Club(id, form.name, form.address, form.phone, FirstIdOr(form.adminIds, ""), form.address,
         form.phone, form.email, form.adminIds, now, now)
  }

  /** `{...existing, ...form, id, location, contactNumber, adminId: adminIds?.[0] || existing.adminId, updatedAt}`. */
  function OverlayClub(existing: Club, form: ClubForm, id: string, now: string): Club
  {
    existing.(id := id, name := form.name, address := form.address, phone := form.phone,
              email := form.email, location := form.address, contactNumber := form.phone,
              adminIds := if form.adminIds.Some? then form.adminIds else existing.adminIds,
              adminId := FirstIdOr(form.adminIds, existing.adminId), updatedAt := now)
  }

  /**
   * The member record `addMember` builds. `today` is the current date,
   * `yearLater` the date 365 days on, `now` the timestamp.
   */
  function NewMember(form: MemberForm, id: string, memberNumber: string, today: string,
                     yearLater: string, now: string): (m: Member)
    ensures m.id == id && m.kind == KindMember && m.memberId == memberNumber
    ensures m.mobile == form.phone && m.phone == form.phone
    ensures m.isActive <==> form.status == StatusActive
    ensures m.status == form.status && m.clubId == form.clubId
    ensures m.name == form.name && m.email == form.email && m.address == form.address
    ensures m.joinDate == Some(m.membershipStartDate)
    ensures form.joinDate.Some? && form.joinDate.value != "" ==> m.membershipStartDate == form.joinDate.value
    ensures form.joinDate.None? || form.joinDate.value == "" ==> m.membershipStartDate == today
    ensures m.membershipEndDate == yearLater && m.subscriptionPlanId == "default-plan"
    ensures m.referralSource == "Direct" && m.visitDate == today
  {
    var start := Text.OrElse(form.joinDate, today);
    Member(id, form.name, form.phone, form.address, "Direct", today, KindMember, form.clubId, now, now,
           memberNumber, start, yearLater, "default-plan", form.status == StatusActive,
           form.phone, form.email, form.status, Some(start))
  }

  /** `{...existing, ...form, id, mobile: form.phone, isActive: form.status === ACTIVE, updatedAt}`. */
  function OverlayMember(existing: Member, form: MemberForm, id: string, now: string): Member
  {
    existing.(id := id, name := form.name, phone := form.phone, email := form.email,
              address := form.address, status := form.status, clubId := form.clubId,
              joinDate := if form.joinDate.Some? then form.joinDate else existing.joinDate,
              mobile := form.phone, isActive := form.status == StatusActive, updatedAt := now)
  }

  /**
   * Editing keeps the id and overlays the form: the admin's username
   * follows the email, the club's admin id follows the first selected
   * admin, the member's mobile and active flag follow phone and status.
   */
  lemma OverlaysFollowForm(u: User, af: AdminForm, c: Club, cf: ClubForm, m: Member, mf: MemberForm,
                           id: string, now: string)
    ensures OverlayAdmin(u, af, id, now).id == id && OverlayAdmin(u, af, id, now).username == af.email
    ensures OverlayAdmin(u, af, id, now).createdAt == u.createdAt
    ensures af.password.None? ==> OverlayAdmin(u, af, id, now).password == u.password
    ensures OverlayClub(c, cf, id, now).id == id
    ensures OverlayClub(c, cf, id, now).adminId ==
      (if cf.adminIds.Some? && |cf.adminIds.value| > 0 && cf.adminIds.value[0] != "" then cf.adminIds.value[0] else c.adminId)
    ensures OverlayClub(c, cf, id, now).createdAt == c.createdAt
    ensures OverlayMember(m, mf, id, now).id == id && OverlayMember(m, mf, id, now).mobile == mf.phone
    ensures OverlayMember(m, mf, id, now).isActive <==> mf.status == StatusActive
    ensures OverlayMember(m, mf, id, now).kind == m.kind && OverlayMember(m, mf, id, now).memberId == m.memberId
  {
  }

  // ---------------------------------------------------------------------
  // The store object
  // ---------------------------------------------------------------------

  /** The backing dataset a load reads from (the application's mock fixtures). */
  datatype Backing = Backing(
    users: seq<User>, clubs: seq<Club>, members: seq<Member>, trials: seq<Trial>,
    visitors: seq<Visitor>, payments: seq<Payment>, expenses: seq<Expense>,
    inventoryItems: seq<InventoryItem>, inventoryUsage: seq<InventoryUsage>,
    attendance: seq<Attendance>, subscriptionPlans: seq<SubscriptionPlan>,
    dashboardMetrics: DashboardMetrics)

  /** How the awaited load settles: normally, by throwing an `Error`, or by throwing something else. */
  datatype Fault = NoFault | ThrownError(message: string) | ThrownValue

  /** `error instanceof Error ? error.message : fallback`. */
  function FaultMessage(f: Fault, fallback: string): string
    requires !f.NoFault?
  {
    if f.ThrownError? then f.message else fallback
  }

  /** The state after a successful `loadClubData(clubId)` that started from `s`. */
  function Loaded(s: AppState, b: Backing, clubId: string): AppState
  {
    s.(members := ForClub(b.members, MemberClub, clubId),
       trials := ForClub(b.trials, TrialClub, clubId),
       visitors := ForClub(b.visitors, VisitorClub, clubId),
       payments := ForClub(b.payments, PaymentClub, clubId),
       expenses := ForClub(b.expenses, ExpenseClub, clubId),
       inventoryItems := ForClub(b.inventoryItems, ItemClub, clubId),
       inventoryUsage := ForClub(b.inventoryUsage, UsageClub, clubId),
       attendance := ForClub(b.attendance, AttendanceClub, clubId),
       subscriptionPlans := ForClub(b.subscriptionPlans, PlanClub, clubId),
       dashboardMetrics := Some(b.dashboardMetrics),
       selectedClub := Seqs.FindById(b.clubs, clubId, ClubKey),
       loading := false)
  }

  /**
   * After a successful load every per-club collection holds exactly the
   * backing records of that club, the selected club is the backing club
   * with that id (if any), loading is over, and the club list, the users
   * and the error message are untouched.
   */
  lemma LoadedContents(s: AppState, b: Backing, clubId: string)
    ensures forall m :: m in Loaded(s, b, clubId).members <==> m in b.members && m.clubId == clubId
    ensures forall p :: p in Loaded(s, b, clubId).payments <==> p in b.payments && p.clubId == clubId
    ensures forall a :: a in Loaded(s, b, clubId).attendance <==> a in b.attendance && a.clubId == clubId
    ensures forall i :: i in Loaded(s, b, clubId).inventoryItems <==> i in b.inventoryItems && i.clubId == clubId
    ensures Loaded(s, b, clubId).selectedClub.Some? ==>
      Loaded(s, b, clubId).selectedClub.value in b.clubs && Loaded(s, b, clubId).selectedClub.value.id == clubId
    ensures Loaded(s, b, clubId).selectedClub.None? <==> forall c :: c in b.clubs ==> c.id != clubId
    ensures !Loaded(s, b, clubId).loading
    ensures Loaded(s, b, clubId).clubs == s.clubs && Loaded(s, b, clubId).users == s.users
    ensures Loaded(s, b, clubId).error == s.error
  {
    ForClubExact(b.members, MemberClub, clubId);
    ForClubExact(b.payments, PaymentClub, clubId);
    ForClubExact(b.attendance, AttendanceClub, clubId);
    ForClubExact(b.inventoryItems, ItemClub, clubId);
    if Seqs.FindById(b.clubs, clubId, ClubKey).Some? {
      Seqs.FindByIdIsFirst(b.clubs, clubId, ClubKey);
    }
  }

  class Store {
    var state: AppState
    const backing: Backing

    constructor (backing: Backing)
      ensures state == Initial && this.backing == backing
    {
      state := Initial;
      this.backing := backing;
    }

    method Dispatch(a: Action)
      modifies this
      ensures state == Reduce(old(state), a)
    {
      state := Reduce(state, a);
    }

    /** `loadClubs`: install the backing club list; a failed load records the error. */
    method LoadClubs(fault: Fault)
      modifies this
      ensures fault.NoFault? ==> state == old(state).(clubs := backing.clubs, loading := false)
      ensures !fault.NoFault? ==>
        state == old(state).(error := Some(FaultMessage(fault, "Failed to load clubs")), loading := false)
    {
      Dispatch(SetLoading(true));
      if fault.NoFault? {
        Dispatch(Clubs(SetAll(backing.clubs)));
        Dispatch(SetLoading(false));
      } else {
        Dispatch(SetError(Some(FaultMessage(fault, "Failed to load clubs"))));
        Dispatch(SetLoading(false));
      }
    }

    /** `loadClubData(clubId)`: replace every per-club collection by the backing records of that club. */
    method LoadClubData(clubId: string, fault: Fault)
      modifies this
      ensures fault.NoFault? ==> state == Loaded(old(state), backing, clubId)
      ensures !fault.NoFault? ==>
        state == old(state).(error := Some(FaultMessage(fault, "Failed to load club data")), loading := false)
    {
      Dispatch(SetLoading(true));
      if fault.NoFault? {
        InstallVisitRecords(clubId);
        InstallFinance(clubId);
        InstallOperations(clubId);
        Dispatch(SetDashboardMetrics(backing.dashboardMetrics));
        Dispatch(SetSelectedClub(Seqs.FindById(backing.clubs, clubId, ClubKey)));
        Dispatch(SetLoading(false));
      } else {
        Dispatch(SetError(Some(FaultMessage(fault, "Failed to load club data"))));
        Dispatch(SetLoading(false));
      }
    }

    /** The SET_MEMBERS, SET_TRIALS and SET_VISITORS dispatches of a club load. */
    method InstallVisitRecords(clubId: string)
      modifies this
      ensures state == old(state).(members := ForClub(backing.members, MemberClub, clubId),
                                   trials := ForClub(backing.trials, TrialClub, clubId),
                                   visitors := ForClub(backing.visitors, VisitorClub, clubId))
    {
      Dispatch(Members(SetAll(ForClub(backing.members, MemberClub, clubId))));
      Dispatch(Trials(SetAll(ForClub(backing.trials, TrialClub, clubId))));
      Dispatch(Visitors(SetAll(ForClub(backing.visitors, VisitorClub, clubId))));
    }

    /** The SET_PAYMENTS and SET_EXPENSES dispatches of a club load. */
    method InstallFinance(clubId: string)
      modifies this
      ensures state == old(state).(payments := ForClub(backing.payments, PaymentClub, clubId),
                                   expenses := ForClub(backing.expenses, ExpenseClub, clubId))
    {
      Dispatch(Payments(SetAll(ForClub(backing.payments, PaymentClub, clubId))));
      Dispatch(Expenses(SetAll(ForClub(backing.expenses, ExpenseClub, clubId))));
    }

    /** The inventory, usage, attendance and plan dispatches of a club load. */
    method InstallOperations(clubId: string)
      modifies this
      ensures state == old(state).(inventoryItems := ForClub(backing.inventoryItems, ItemClub, clubId),
                                   inventoryUsage := ForClub(backing.inventoryUsage, UsageClub, clubId),
                                   attendance := ForClub(backing.attendance, AttendanceClub, clubId),
                                   subscriptionPlans := ForClub(backing.subscriptionPlans, PlanClub, clubId))
    {
      Dispatch(InventoryItems(SetAll(ForClub(backing.inventoryItems, ItemClub, clubId))));
      Dispatch(InventoryUsages(SetAll(ForClub(backing.inventoryUsage, UsageClub, clubId))));
      Dispatch(Attendances(SetAll(ForClub(backing.attendance, AttendanceClub, clubId))));
      Dispatch(SubscriptionPlans(SetAll(ForClub(backing.subscriptionPlans, PlanClub, clubId))));
    }

    /** `setSelectedClub(club)`: set the pointer, then load that club's data. */
    method SetSelected(club: Option<Club>, fault: Fault)
      modifies this
      ensures club.None? ==> state == old(state).(selectedClub := None)
      ensures club.Some? && fault.NoFault? ==> state == Loaded(old(state), backing, club.value.id)
      ensures club.Some? && !fault.NoFault? ==>
        state == old(state).(selectedClub := club, loading := false,
                             error := Some(FaultMessage(fault, "Failed to load club data")))
    {
      Dispatch(SetSelectedClub(club));
      if club.Some? {
        LoadClubData(club.value.id, fault);
      }
    }

    method AddAdmin(form: AdminForm, id: string, now: string)
      modifies this
      ensures state == old(state).(users := old(state).users + [NewAdmin(form, id, now)])
    {
      Dispatch(Users(Add(NewAdmin(form, id, now))));
    }

    method UpdateAdmin(adminId: string, form: AdminForm, now: string)
      modifies this
      ensures Seqs.FindById(old(state).users, adminId, UserKey).None? ==> state == old(state)
      ensures Seqs.FindById(old(state).users, adminId, UserKey).Some? ==>
        state == Reduce(old(state),
                        Users(Update(OverlayAdmin(Seqs.FindById(old(state).users, adminId, UserKey).value, form, adminId, now))))
    {
      var existing := Seqs.FindById(state.users, adminId, UserKey);
      if existing.Some? {
        Dispatch(Users(Update(OverlayAdmin(existing.value, form, adminId, now))));
      }
    }

    method DeleteAdmin(adminId: string)
      modifies this
      ensures state == Reduce(old(state), Users(Delete(adminId)))
    {
      Dispatch(Users(Delete(adminId)));
    }

    method AddClub(form: ClubForm, id: string, now: string)
      modifies this
      ensures state == old(state).(clubs := old(state).clubs + [NewClub(form, id, now)])
    {
      Dispatch(Clubs(Add(NewClub(form, id, now))));
    }

    method UpdateClub(clubId: string, form: ClubForm, now: string)
      modifies this
      ensures Seqs.FindById(old(state).clubs, clubId, ClubKey).None? ==> state == old(state)
      ensures Seqs.FindById(old(state).clubs, clubId, ClubKey).Some? ==>
        state == Reduce(old(state),
                        Clubs(Update(OverlayClub(Seqs.FindById(old(state).clubs, clubId, ClubKey).value, form, clubId, now))))
    {
      var existing := Seqs.FindById(state.clubs, clubId, ClubKey);
      if existing.Some? {
        Dispatch(Clubs(Update(OverlayClub(existing.value, form, clubId, now))));
      }
    }

    method DeleteClub(clubId: string)
      modifies this
      ensures state == Reduce(old(state), Clubs(Delete(clubId)))
    {
      Dispatch(Clubs(Delete(clubId)));
    }

    method AddMember(form: MemberForm, id: string, memberNumber: string, today: string,
                     yearLater: string, now: string)
      modifies this
      ensures state == old(state).(members := old(state).members + [NewMember(form, id, memberNumber, today, yearLater, now)])
    {
      Dispatch(Members(Add(NewMember(form, id, memberNumber, today, yearLater, now))));
    }

    method UpdateMember(memberId: string, form: MemberForm, now: string)
      modifies this
      ensures Seqs.FindById(old(state).members, memberId, MemberKey).None? ==> state == old(state)
      ensures Seqs.FindById(old(state).members, memberId, MemberKey).Some? ==>
        state == Reduce(old(state),
                        Members(Update(OverlayMember(Seqs.FindById(old(state).members, memberId, MemberKey).value, form, memberId, now))))
    {
      var existing := Seqs.FindById(state.members, memberId, MemberKey);
      if existing.Some? {
        Dispatch(Members(Update(OverlayMember(existing.value, form, memberId, now))));
      }
    }

    method DeleteMember(memberId: string)
      modifies this
      ensures state == Reduce(old(state), Members(Delete(memberId)))
    {
      Dispatch(Members(Delete(memberId)));
    }
  }
}
