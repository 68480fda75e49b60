/**
 * The finance page: revenue, expenses and net profit for the selected club
 * (or for every club), the count of fully paid payments and the two
 * "recent" lists.
 */
module FinancePage {
  import opened Wrappers
  import opened Types
  import Seqs
  import opened AppStore

  function PaymentAmount(p: Payment): int { p.amount }
  function ExpenseAmount(e: Expense): int { e.amount }

  function TotalRevenue(payments: seq<Payment>, selected: Option<Club>): int
  {
    Seqs.Sum(Scoped(payments, PaymentClub, selected), PaymentAmount)
  }

  function TotalExpenses(expenses: seq<Expense>, selected: Option<Club>): int
  {
    Seqs.Sum(Scoped(expenses, ExpenseClub, selected), ExpenseAmount)
  }

  function NetProfit(payments: seq<Payment>, expenses: seq<Expense>, selected: Option<Club>): int
  {
    TotalRevenue(payments, selected) - TotalExpenses(expenses, selected)
  }

  /** The "fully paid" card counts every payment in the store, whatever club is selected. */
  function FullPayments(payments: seq<Payment>): nat
  {
    |Seqs.Filter(payments, (p: Payment) => p.status == Full)|
  }

  function PartialPayments(payments: seq<Payment>): nat
  {
    |Seqs.Filter(payments, (p: Payment) => p.status != Full)|
  }

  /** `payments.slice(0, 5)`: also unscoped. */
  function RecentPayments(payments: seq<Payment>): seq<Payment> { Seqs.Take(payments, 5) }

  function RecentExpenses(expenses: seq<Expense>): seq<Expense> { Seqs.Take(expenses, 5) }

  /** `id.slice(-6)`: the last six characters, or the whole id when shorter. */
  function ShortId(id: string): (r: string)
    ensures |r| == if |id| < 6 then |id| else 6
    ensures id == id[..|id| - |r|] + r
  {
    if |id| <= 6 then id else id[|id| - 6..]
  }

  /**
   * Without a selection the totals cover every record; with one they are the
   * sums over the store's club queries.
   */
  lemma TotalsFollowScope(payments: seq<Payment>, expenses: seq<Expense>, selected: Option<Club>)
    ensures selected.None? ==> TotalRevenue(payments, selected) == Seqs.Sum(payments, PaymentAmount)
    ensures selected.None? ==> TotalExpenses(expenses, selected) == Seqs.Sum(expenses, ExpenseAmount)
    ensures selected.Some? ==>
      TotalRevenue(payments, selected) == Seqs.Sum(ForClub(payments, PaymentClub, selected.value.id), PaymentAmount)
    ensures selected.Some? ==>
      TotalExpenses(expenses, selected) == Seqs.Sum(ForClub(expenses, ExpenseClub, selected.value.id), ExpenseAmount)
  {
    ScopedIsClubQuery(payments, PaymentClub, selected);
    ScopedIsClubQuery(expenses, ExpenseClub, selected);
  }

  /**
   * The revenue shown for one club plus the revenue of every other club is
   * the unfiltered revenue, and likewise for expenses.
   */
  lemma ClubShareOfTotals(payments: seq<Payment>, expenses: seq<Expense>, c: Club)
    ensures TotalRevenue(payments, Some(c)) + Seqs.Sum(OtherClubs(payments, PaymentClub, c.id), PaymentAmount) ==
      TotalRevenue(payments, None)
    ensures TotalExpenses(expenses, Some(c)) + Seqs.Sum(OtherClubs(expenses, ExpenseClub, c.id), ExpenseAmount) ==
      TotalExpenses(expenses, None)
  {
    TotalsFollowScope(payments, expenses, Some(c));
    TotalsFollowScope(payments, expenses, None);
    ClubTotalSplits(payments, PaymentClub, c.id, PaymentAmount);
    ClubTotalSplits(expenses, ExpenseClub, c.id, ExpenseAmount);
  }

  /** A new payment raises its club's revenue by its amount and leaves other clubs' alone. */
  lemma RecordingPaymentRaisesRevenue(payments: seq<Payment>, p: Payment, c: Club)
    ensures p.clubId == c.id ==> TotalRevenue(payments + [p], Some(c)) == TotalRevenue(payments, Some(c)) + p.amount
    ensures p.clubId != c.id ==> TotalRevenue(payments + [p], Some(c)) == TotalRevenue(payments, Some(c))
  {
    ScopedAppend(payments, PaymentClub, Some(c), p);
    var scoped := Scoped(payments, PaymentClub, Some(c));
    if p.clubId == c.id {
      Seqs.SumAppend(scoped, [p], PaymentAmount);
    } else {
      assert scoped + [] == scoped;
    }
  }

  /** Every payment is either fully or partially paid. */
  lemma PaymentStatusesPartition(payments: seq<Payment>)
    ensures FullPayments(payments) + PartialPayments(payments) == |payments|
  {
    Seqs.FilterComplement(payments, (p: Payment) => p.status == Full, (p: Payment) => p.status != Full);
  }
}
