/**
 * The entity store's reducer: one state record holding eleven collections
 * plus the selected club, dashboard metrics, a loading flag and an error,
 * and a pure transition function over it. Every collection is handled by
 * the same four operations (replace, append, replace-by-id, delete-by-id),
 * written once here for any record type with a string id.
 */
module AppReducer {
  import opened Wrappers
  import opened Types
  import Seqs

  datatype AppState = AppState(
    clubs: seq<Club>,
    users: seq<User>,
    members: seq<Member>,
    trials: seq<Trial>,
    visitors: seq<Visitor>,
    payments: seq<Payment>,
    expenses: seq<Expense>,
    inventoryItems: seq<InventoryItem>,
    inventoryUsage: seq<InventoryUsage>,
    attendance: seq<Attendance>,
    subscriptionPlans: seq<SubscriptionPlan>,
    dashboardMetrics: Option<DashboardMetrics>,
    selectedClub: Option<Club>,
    loading: bool,
    error: Option<string>)

  /** The provider's starting state: everything empty, loading. */
  const Initial: AppState :=
    AppState([], [], [], [], [], [], [], [], [], [], [], None, None, true, None)

  /** The four per-collection actions: SET_*, ADD_*, UPDATE_*, DELETE_*. */
  datatype CollectionOp<T> = SetAll(items: seq<T>) | Add(item: T) | Update(item: T) | Delete(id: string)

  datatype Action =
    | SetLoading(loadingFlag: bool)
    | SetError(message: Option<string>)
    | Users(usersOp: CollectionOp<User>)
    | Clubs(clubsOp: CollectionOp<Club>)
    | SetSelectedClub(club: Option<Club>)
    | Members(membersOp: CollectionOp<Member>)
    | Trials(trialsOp: CollectionOp<Trial>)
    | Visitors(visitorsOp: CollectionOp<Visitor>)
    | Payments(paymentsOp: CollectionOp<Payment>)
    | Expenses(expensesOp: CollectionOp<Expense>)
    | InventoryItems(itemsOp: CollectionOp<InventoryItem>)
    | InventoryUsages(usageOp: CollectionOp<InventoryUsage>)
    | Attendances(attendanceOp: CollectionOp<Attendance>)
    | SubscriptionPlans(plansOp: CollectionOp<SubscriptionPlan>)
    | SetDashboardMetrics(metrics: DashboardMetrics)
      /** An action type the reducer does not recognise (its `default` branch). */
    | Unrecognised(tag: string)

  // Record ids, used to match UPDATE_* and DELETE_* payloads.
  function ClubKey(c: Club): string { c.id }
  function UserKey(u: User): string { u.id }
  function MemberKey(m: Member): string { m.id }
  function TrialKey(t: Trial): string { t.id }
  function VisitorKey(v: Visitor): string { v.id }
  function PaymentKey(p: Payment): string { p.id }
  function ExpenseKey(e: Expense): string { e.id }
  function ItemKey(i: InventoryItem): string { i.id }
  function UsageKey(u: InventoryUsage): string { u.id }
  function AttendanceKey(a: Attendance): string { a.id }
  function PlanKey(p: SubscriptionPlan): string { p.id }

  /** `xs.map(y => key(y) === key(x) ? x : y)`. */
  function ReplaceById<T>(xs: seq<T>, x: T, key: T -> string): (r: seq<T>)
    ensures |r| == |xs|
    ensures forall i :: 0 <= i < |xs| ==> r[i] == (if key(xs[i]) == key(x) then x else xs[i])
  {
    if xs == [] then []
    else [if key(xs[0]) == key(x) then x else xs[0]] + ReplaceById(xs[1..], x, key)
  }

  /** `xs.filter(y => key(y) !== id)`. */
  function RemoveById<T>(xs: seq<T>, id: string, key: T -> string): seq<T>
  {
    Seqs.Filter(xs, (y: T) => key(y) != id)
  }

  function ApplyOp<T>(xs: seq<T>, op: CollectionOp<T>, key: T -> string): seq<T>
  {
    match op
    case SetAll(items) => items
    case Add(x) => xs + [x]
    case Update(x) => ReplaceById(xs, x, key)
    case Delete(id) => RemoveById(xs, id, key)
  }

  /** `appReducer(state, action)`. */
  function Reduce(s: AppState, a: Action): AppState
  {
    match a
    case SetLoading(b) => s.(loading := b)
    case SetError(e) => s.(error := e)
    case Users(op) => s.(users := ApplyOp(s.users, op, UserKey))
    case Clubs(op) => s.(clubs := ApplyOp(s.clubs, op, ClubKey))
    case SetSelectedClub(c) => s.(selectedClub := c)
    case Members(op) => s.(members := ApplyOp(s.members, op, MemberKey))
    case Trials(op) => s.(trials := ApplyOp(s.trials, op, TrialKey))
    case Visitors(op) => s.(visitors := ApplyOp(s.visitors, op, VisitorKey))
    case Payments(op) => s.(payments := ApplyOp(s.payments, op, PaymentKey))
    case Expenses(op) => s.(expenses := ApplyOp(s.expenses, op, ExpenseKey))
    case InventoryItems(op) => s.(inventoryItems := ApplyOp(s.inventoryItems, op, ItemKey))
    case InventoryUsages(op) => s.(inventoryUsage := ApplyOp(s.inventoryUsage, op, UsageKey))
    case Attendances(op) => s.(attendance := ApplyOp(s.attendance, op, AttendanceKey))
    case SubscriptionPlans(op) => s.(subscriptionPlans := ApplyOp(s.subscriptionPlans, op, PlanKey))
    case SetDashboardMetrics(m) => s.(dashboardMetrics := Some(m))
    case Unrecognised(_) => s
  }

  /** The fields of the state, one per action family. */
  datatype Field =
    | ClubsField | UsersField | MembersField | TrialsField | VisitorsField | PaymentsField
    | ExpensesField | ItemsField | UsageField | AttendanceField | PlansField
    | MetricsField | SelectedClubField | LoadingField | ErrorField

  /** The one field an action may write; `None` for an unrecognised action. */
  function Target(a: Action): Option<Field>
  {
    match a
    case SetLoading(_) => Some(LoadingField)
    case SetError(_) => Some(ErrorField)
    case Users(_) => Some(UsersField)
    case Clubs(_) => Some(ClubsField)
    case SetSelectedClub(_) => Some(SelectedClubField)
    case Members(_) => Some(MembersField)
    case Trials(_) => Some(TrialsField)
    case Visitors(_) => Some(VisitorsField)
    case Payments(_) => Some(PaymentsField)
    case Expenses(_) => Some(ExpensesField)
    case InventoryItems(_) => Some(ItemsField)
    case InventoryUsages(_) => Some(UsageField)
    case Attendances(_) => Some(AttendanceField)
    case SubscriptionPlans(_) => Some(PlansField)
    case SetDashboardMetrics(_) => Some(MetricsField)
    case Unrecognised(_) => None
  }

  /** `s` and `t` agree on every field other than `f` (on all fields when `f` is None). */
  predicate AgreeExcept(s: AppState, t: AppState, f: Option<Field>)
  {
    (f != Some(ClubsField) ==> t.clubs == s.clubs) &&
    (f != Some(UsersField) ==> t.users == s.users) &&
    (f != Some(MembersField) ==> t.members == s.members) &&
    (f != Some(TrialsField) ==> t.trials == s.trials) &&
    (f != Some(VisitorsField) ==> t.visitors == s.visitors) &&
    (f != Some(PaymentsField) ==> t.payments == s.payments) &&
    (f != Some(ExpensesField) ==> t.expenses == s.expenses) &&
    (f != Some(ItemsField) ==> t.inventoryItems == s.inventoryItems) &&
    (f != Some(UsageField) ==> t.inventoryUsage == s.inventoryUsage) &&
    (f != Some(AttendanceField) ==> t.attendance == s.attendance) &&
    (f != Some(PlansField) ==> t.subscriptionPlans == s.subscriptionPlans) &&
    (f != Some(MetricsField) ==> t.dashboardMetrics == s.dashboardMetrics) &&
    (f != Some(SelectedClubField) ==> t.selectedClub == s.selectedClub) &&
    (f != Some(LoadingField) ==> t.loading == s.loading) &&
    (f != Some(ErrorField) ==> t.error == s.error)
  }

  /** Every action writes only its own field; an unrecognised action changes nothing. */
  lemma ReduceWritesOnlyTarget(s: AppState, a: Action)
    ensures AgreeExcept(s, Reduce(s, a), Target(a))
    ensures a.Unrecognised? ==> Reduce(s, a) == s
  {
  }

  /** ADD_*: the payload goes at the end and every earlier element stays where it was. */
  lemma AddAppends<T>(xs: seq<T>, x: T, key: T -> string)
    ensures |ApplyOp(xs, Add(x), key)| == |xs| + 1
    ensures ApplyOp(xs, Add(x), key)[|xs|] == x
    ensures ApplyOp(xs, Add(x), key)[..|xs|] == xs
  {
  }

  /** UPDATE_*: every element with the payload's id becomes the payload; length and order of the rest are kept. */
  lemma UpdateReplacesMatches<T>(xs: seq<T>, x: T, key: T -> string)
    ensures |ApplyOp(xs, Update(x), key)| == |xs|
    ensures forall i :: 0 <= i < |xs| && key(xs[i]) == key(x) ==> ApplyOp(xs, Update(x), key)[i] == x
    ensures forall i :: 0 <= i < |xs| && key(xs[i]) != key(x) ==> ApplyOp(xs, Update(x), key)[i] == xs[i]
  {
  }

  /** UPDATE_* with an id that no element has leaves the collection as it was. */
  lemma {:induction false} UpdateWithoutMatchIsNoop<T>(xs: seq<T>, x: T, key: T -> string)
    requires forall i :: 0 <= i < |xs| ==> key(xs[i]) != key(x)
    ensures ApplyOp(xs, Update(x), key) == xs
  {
    var r := ReplaceById(xs, x, key);
    assert forall i :: 0 <= i < |xs| ==> r[i] == xs[i];
  }

  /** After UPDATE_*, the payload is the only value carrying its id. */
  lemma UpdateLeavesOnlyPayload<T>(xs: seq<T>, x: T, key: T -> string)
    ensures forall y :: y in ApplyOp(xs, Update(x), key) && key(y) == key(x) ==> y == x
  {
    var r := ApplyOp(xs, Update(x), key);
    forall y | y in r && key(y) == key(x) ensures y == x {
      var i :| 0 <= i < |r| && r[i] == y;
    }
  }

  /** DELETE_*: exactly the elements with that id disappear; the rest keep their order. */
  lemma DeleteRemovesMatches<T>(xs: seq<T>, id: string, key: T -> string)
    ensures forall y :: y in ApplyOp(xs, Delete(id), key) <==> y in xs && key(y) != id
    ensures forall y :: multiset(ApplyOp(xs, Delete(id), key))[y] == if key(y) != id then multiset(xs)[y] else 0
    ensures Seqs.Subseq(ApplyOp(xs, Delete(id), key), xs)
  {
    Seqs.FilterMembership(xs, (y: T) => key(y) != id);
    Seqs.FilterIsSubseq(xs, (y: T) => key(y) != id);
    forall y
      ensures multiset(ApplyOp(xs, Delete(id), key))[y] == if key(y) != id then multiset(xs)[y] else 0
    {
      Seqs.FilterMultiplicity(xs, (z: T) => key(z) != id, y);
    }
  }

  /** DELETE_* twice is DELETE_* once. */
  lemma DeleteIdempotent<T>(xs: seq<T>, id: string, key: T -> string)
    ensures ApplyOp(ApplyOp(xs, Delete(id), key), Delete(id), key) == ApplyOp(xs, Delete(id), key)
  {
    Seqs.FilterIdempotent(xs, (y: T) => key(y) != id);
  }

  /** DELETE_* of an id that no element has leaves the collection as it was. */
  lemma DeleteAbsentIsNoop<T>(xs: seq<T>, id: string, key: T -> string)
    requires forall i :: 0 <= i < |xs| ==> key(xs[i]) != id
    ensures ApplyOp(xs, Delete(id), key) == xs
  {
    Seqs.FilterKeepsAll(xs, (y: T) => key(y) != id);
  }

  /** The reducer's member actions, as an instance of the generic facts. */
  lemma MemberActions(s: AppState, m: Member, id: string)
    ensures Reduce(s, Members(Add(m))).members == s.members + [m]
    ensures |Reduce(s, Members(Update(m))).members| == |s.members|
    ensures forall i :: 0 <= i < |s.members| ==>
      Reduce(s, Members(Update(m))).members[i] == (if s.members[i].id == m.id then m else s.members[i])
    ensures forall y :: y in Reduce(s, Members(Delete(id))).members <==> y in s.members && y.id != id
    ensures Reduce(s, Members(Delete(id))).users == s.users
  {
    DeleteRemovesMatches(s.members, id, MemberKey);
  }
}
