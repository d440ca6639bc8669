/** `financial_report_view`: income, outstanding amount and the latest
    completed payments, for admins only. */
module FinanceViews {
  import opened Wrappers
  import opened Queries
  import opened Finance
  import AdminViews

  /** How many payments the report lists. */
  const RecentLimit: nat := 20

  /** Latest first: `paid_at` never increases along `s`. */
  ghost predicate NewestFirst(s: seq<Payment>) {
    forall i, j :: 0 <= i < j < |s| ==> s[i].paidAt >= s[j].paidAt
  }

  /** Puts `x` into a latest-first sequence, after every payment at least as
      recent. */
  function InsertByPaidAt(x: Payment, s: seq<Payment>): (r: seq<Payment>)
    ensures |r| == |s| + 1
    decreases |s|
  {
    if s == [] then [x]
    else if x.paidAt > s[0].paidAt then [x] + s
    else [s[0]] + InsertByPaidAt(x, s[1..])
  }

  lemma {:induction false} InsertKeepsPayments(x: Payment, s: seq<Payment>)
    ensures multiset(InsertByPaidAt(x, s)) == multiset(s) + multiset{x}
    decreases |s|
  {
    if s != [] && x.paidAt <= s[0].paidAt {
      InsertKeepsPayments(x, s[1..]);
      assert s == [s[0]] + s[1..];
    }
  }

  lemma {:induction false} InsertKeepsOrder(x: Payment, s: seq<Payment>)
    requires NewestFirst(s)
    ensures NewestFirst(InsertByPaidAt(x, s))
    ensures forall j :: 0 <= j < |InsertByPaidAt(x, s)| ==> InsertByPaidAt(x, s)[j] == x || InsertByPaidAt(x, s)[j] in s
    decreases |s|
  {
    if s != [] && x.paidAt <= s[0].paidAt {
      var rest := InsertByPaidAt(x, s[1..]);
      InsertKeepsOrder(x, s[1..]);
      var r := [s[0]] + rest;
      forall j | 0 <= j < |rest|
        ensures rest[j].paidAt <= s[0].paidAt
      {
        if rest[j] != x {
          var k :| 0 <= k < |s[1..]| && s[1..][k] == rest[j];
          assert s[k + 1] == rest[j];
        }
      }
      assert forall j :: 1 <= j < |r| ==> r[j] == rest[j - 1];
    }
  }

  /** `order_by('-paid_at')`: the same payments, latest first. */
  function SortByPaidAt(s: seq<Payment>): (r: seq<Payment>)
    ensures |r| == |s|
    ensures NewestFirst(r)
    ensures multiset(r) == multiset(s)
    decreases |s|
  {
    if s == [] then []
    else
      assert s == [s[0]] + s[1..];
      var tail := SortByPaidAt(s[1..]);
      InsertKeepsPayments(s[0], tail);
      InsertKeepsOrder(s[0], tail);
      InsertByPaidAt(s[0], tail)
  }

  /** In a latest-first sequence, every payment after position `n` is no
      later than every payment before it. */
  lemma TailNoLater(sorted: seq<Payment>, n: nat)
    requires NewestFirst(sorted) && n <= |sorted|
    ensures forall x, y :: x in sorted[..n] && y in sorted[n..] ==> y.paidAt <= x.paidAt
  {
    forall x, y | x in sorted[..n] && y in sorted[n..]
      ensures y.paidAt <= x.paidAt
    {
      var a :| 0 <= a < n && sorted[a] == x;
      var b :| 0 <= b < |sorted[n..]| && sorted[n..][b] == y;
      assert sorted[n + b] == y;
    }
  }

  lemma PrefixFromSource(s: seq<Payment>, sorted: seq<Payment>, n: nat)
    requires multiset(sorted) == multiset(s) && n <= |sorted|
    ensures forall p :: p in sorted[..n] ==> p in s
  {
    forall p | p in sorted[..n]
      ensures p in s
    {
      assert p in multiset(sorted);
    }
  }

  /** What a prefix of an ordering of `s` leaves out is the rest of the
      ordering. */
  lemma LeftOutIsTail(s: seq<Payment>, sorted: seq<Payment>, n: nat)
    requires multiset(sorted) == multiset(s) && n <= |sorted|
    ensures forall y :: y in multiset(s) - multiset(sorted[..n]) ==> y in sorted[n..]
  {
    assert sorted == sorted[..n] + sorted[n..];
    assert multiset(s) - multiset(sorted[..n]) == multiset(sorted[n..]);
  }

  /** A prefix of an ordering of `s` takes each payment of `s` at most as
      often as `s` holds it. */
  lemma PrefixSubMultiset(s: seq<Payment>, sorted: seq<Payment>, n: nat)
    requires multiset(sorted) == multiset(s) && n <= |sorted|
    ensures multiset(sorted[..n]) <= multiset(s)
  {
    assert sorted == sorted[..n] + sorted[n..];
  }

  /** The first `n` of a latest-first ordering of `s` are latest first,
      come from `s` with no payment repeated beyond its count there, and are
      at least as recent as every payment of `s` left out. */
  lemma PrefixIsLatest(s: seq<Payment>, sorted: seq<Payment>, n: nat)
    requires NewestFirst(sorted) && multiset(sorted) == multiset(s) && n <= |sorted|
    ensures NewestFirst(sorted[..n])
    ensures forall p :: p in sorted[..n] ==> p in s
    ensures multiset(sorted[..n]) <= multiset(s)
    ensures forall x, y :: x in sorted[..n] && y in multiset(s) - multiset(sorted[..n]) ==> y.paidAt <= x.paidAt
  {
    PrefixSubMultiset(s, sorted, n);
    PrefixFromSource(s, sorted, n);
    LeftOutIsTail(s, sorted, n);
    TailNoLater(sorted, n);
  }

  predicate IsCompleted(p: Payment) {
    p.status == Completado
  }

  /** `Payment.objects.filter(status='completado').order_by('-paid_at')[:20]`. */
  function RecentPayments(payments: seq<Payment>): seq<Payment> {
    var sorted := SortByPaidAt(Filter(payments, IsCompleted));
    sorted[..if |sorted| < RecentLimit then |sorted| else RecentLimit]
  }

  /** The listed payments are at most 20 completed ones (fewer only when
      there are fewer), none listed more often than it occurs, latest first,
      and none left out is later than one listed. */
  lemma RecentPaymentsAreLatest(payments: seq<Payment>)
    ensures var r := RecentPayments(payments);
      var completed := Filter(payments, IsCompleted);
      && |r| == (if |completed| < RecentLimit then |completed| else RecentLimit)
      && (forall p :: p in r ==> p in payments && p.status == Completado)
      && multiset(r) <= multiset(completed)
      && NewestFirst(r)
      && (forall x, y :: x in r && y in multiset(completed) - multiset(r) ==> y.paidAt <= x.paidAt)
  {
    var completed := Filter(payments, IsCompleted);
    var sorted := SortByPaidAt(completed);
    var n := if |sorted| < RecentLimit then |sorted| else RecentLimit;
    assert RecentPayments(payments) == sorted[..n];
    PrefixIsLatest(completed, sorted, n);
  }

  datatype Report = Report(totalIncome: int, pendingAmount: int, recentPayments: seq<Payment>)

  /** `financial_report_view`: a non-admin is redirected and nothing is
      computed; otherwise the income is what the `completado` payments add
      up to and the outstanding amount is every invoice not `pagada`. */
  function FinancialReport(isAdmin: bool, invoices: seq<Invoice>, payments: seq<Payment>): (r: Option<Report>)
    ensures r.None? <==> !isAdmin
    ensures r.Some? ==>
      && r.value.totalIncome == PaymentTotal(payments, Completado)
      && r.value.pendingAmount + InvoiceTotal(invoices, {"pagada"}) == AmountSum(invoices)
      && r.value.recentPayments == RecentPayments(payments)
    ensures r.Some? && (forall i :: 0 <= i < |invoices| ==> invoices[i].amount >= 0) ==> r.value.pendingAmount >= 0
  {
    if !isAdmin then None
    else
      InvoiceTotalSplit(invoices, {"pagada"}, {"pendiente", "atrasada"});
      assert {"pagada"} + {"pendiente", "atrasada"} == {"pendiente", "pagada", "atrasada"};
      InvoiceTotalAllCodes(invoices);
      Some(Report(
        PaymentTotal(payments, Completado),
        InvoiceTotal(invoices, {"pendiente", "atrasada"}),
        RecentPayments(payments)))
  }

  /** The report and the admin dashboard agree: income is the dashboard's
      funds, and the outstanding amount is its pending plus overdue quotas. */
  lemma ReportMatchesDashboard(invoices: seq<Invoice>, payments: seq<Payment>)
    ensures var report := FinancialReport(true, invoices, payments).value;
      var dash := AdminViews.Dashboard(invoices, payments);
      report.totalIncome == dash.funds && report.pendingAmount == dash.pendingQuotas + dash.overdueQuotas
  {
    InvoiceTotalSplit(invoices, {"pendiente"}, {"atrasada"});
    assert {"pendiente"} + {"atrasada"} == {"pendiente", "atrasada"};
  }
}
