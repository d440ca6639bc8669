/** The bulk actions of the finance admin. `queryset.update` writes the
    rows directly and skips `save`, so it applies neither the overdue rule
    nor the payment cascade; the payment actions then save each payment's
    invoice one by one, which does apply the overdue rule. */
module FinanceAdmin {
  import opened Wrappers
  import opened Dates
  import opened Finance

  /** The invoices the selected payments belong to. */
  function InvoicesOf(payments: seq<Payment>, selected: set<nat>): (r: set<nat>)
    ensures forall i :: i in r <==> exists k :: k in selected && k < |payments| && payments[k].invoice == i
  {
    set k | k in selected && k < |payments| :: payments[k].invoice
  }

  /** One more selected payment adds its own invoice. */
  lemma InvoicesOfAdd(payments: seq<Payment>, selected: set<nat>, k: nat)
    requires k < |payments|
    ensures InvoicesOf(payments, selected + {k}) == InvoicesOf(payments, selected) + {payments[k].invoice}
  {
  }

  /** The rows an action's queryset yields when it is read: the selected
      payments that pass the changelist's `status` list filter, when one is
      set. The queryset is a query, not a list, so each read sees the rows
      as they are at that moment. */
  function Matching(payments: seq<Payment>, selected: set<nat>, statusFilter: Option<PaymentStatus>): (r: set<nat>)
    ensures r <= selected
    ensures forall k :: k in r <==>
      k in selected && k < |payments| && (statusFilter.None? || payments[k].status == statusFilter.value)
  {
    set k | k in selected && k < |payments| && (statusFilter.None? || payments[k].status == statusFilter.value)
  }

  /** Reading the queryset again after `update(status=s)`: every row still
      passes when no status filter is set or it asks for `s`, and none
      passes under a filter for any other status. */
  lemma MatchingAfterUpdate(before: seq<Payment>, after: seq<Payment>, q: set<nat>, s: PaymentStatus, statusFilter: Option<PaymentStatus>)
    requires |after| == |before|
    requires forall k :: k in q ==> k < |before| && after[k] == before[k].(status := s)
    ensures Matching(after, q, statusFilter) == if statusFilter.None? || statusFilter.value == s then q else {}
  {
  }

  /** `InvoiceAdmin.mark_as_paid`: every selected invoice becomes `pagada`. */
  method MarkAsPaid(ledger: Ledger, selected: set<nat>) returns (updated: nat)
    requires ledger.Valid() && forall i :: i in selected ==> i < |ledger.invoices|
    modifies ledger
    ensures ledger.Valid()
    ensures updated == |selected|
    ensures |ledger.invoices| == |old(ledger.invoices)|
    ensures forall i :: 0 <= i < |ledger.invoices| ==>
      ledger.invoices[i] == if i in selected then old(ledger.invoices[i]).(status := Pagada) else old(ledger.invoices[i])
    ensures ledger.fees == old(ledger.fees) && ledger.payments == old(ledger.payments)
  {
    updated := ledger.UpdateInvoiceStatus(selected, Pagada);
  }

  /** `InvoiceAdmin.mark_as_pending`: every selected invoice becomes
      `pendiente`, past due or not, since no `save` runs. */
  method MarkAsPending(ledger: Ledger, selected: set<nat>) returns (updated: nat)
    requires ledger.Valid() && forall i :: i in selected ==> i < |ledger.invoices|
    modifies ledger
    ensures ledger.Valid()
    ensures updated == |selected|
    ensures |ledger.invoices| == |old(ledger.invoices)|
    ensures forall i :: 0 <= i < |ledger.invoices| ==>
      ledger.invoices[i] == if i in selected then old(ledger.invoices[i]).(status := InvoiceStatus.Pendiente) else old(ledger.invoices[i])
    ensures ledger.fees == old(ledger.fees) && ledger.payments == old(ledger.payments)
  {
    updated := ledger.UpdateInvoiceStatus(selected, InvoiceStatus.Pendiente);
  }

  /** The two ways of reopening a past-due invoice disagree: the `update` of
      `mark_as_pending` leaves it `pendiente` and overdue, while `status =
      'pendiente'; save()` stores it as `atrasada`. */
  lemma UpdateSkipsOverdueRule(inv: Invoice, today: Date)
    requires Before(inv.dueDate, today)
    ensures IsOverdue(inv.(status := InvoiceStatus.Pendiente), today)
    ensures Reopened(inv, today).status == Atrasada
    ensures !IsOverdue(Reopened(inv, today), today)
  {
  }

  /** Reopening is idempotent, so the order in which the selected payments'
      invoices are saved does not matter. */
  lemma ReopenedIdempotent(inv: Invoice, today: Date)
    ensures Reopened(Reopened(inv, today), today) == Reopened(inv, today)
  {
    assert Reopened(inv, today).(status := InvoiceStatus.Pendiente) == inv.(status := InvoiceStatus.Pendiente);
  }

  /** Saving twice with the same status assigned first is saving once. */
  lemma SavedAsIdempotent(inv: Invoice, status: InvoiceStatus, today: Date)
    ensures Saved(Saved(inv.(status := status), today).(status := status), today) == Saved(inv.(status := status), today)
  {
    assert Saved(inv.(status := status), today).(status := status) == inv.(status := status);
  }

  /** One more payment handled by the loop: saving its invoice with `status`
      extends the set of saved invoices by that one, whether or not an
      earlier payment of the same invoice already saved it. */
  lemma SavedStep(start: seq<Invoice>, cur: seq<Invoice>, payments: seq<Payment>, done: set<nat>, k: nat,
                  status: InvoiceStatus, today: Date)
    requires |cur| == |start| && k < |payments| && payments[k].invoice < |cur|
    requires forall i :: 0 <= i < |cur| ==>
      cur[i] == if i in InvoicesOf(payments, done) then Saved(start[i].(status := status), today) else start[i]
    ensures var i := payments[k].invoice;
      var next := cur[i := Saved(cur[i].(status := status), today)];
      forall j :: 0 <= j < |next| ==>
        next[j] == if j in InvoicesOf(payments, done + {k}) then Saved(start[j].(status := status), today) else start[j]
  {
    InvoicesOfAdd(payments, done, k);
    var i := payments[k].invoice;
    if i in InvoicesOf(payments, done) {
      SavedAsIdempotent(start[i], status, today);
    }
  }

  /** The loop `for payment in queryset: payment.invoice.status = status;
      payment.invoice.save()` over the payments `seen`: each of their
      invoices is saved once with `status` assigned, and no other row
      changes. */
  method SaveInvoicesOf(ledger: Ledger, seen: set<nat>, status: InvoiceStatus, today: Date)
    requires ledger.Valid() && forall k :: k in seen ==> k < |ledger.payments|
    modifies ledger
    ensures ledger.Valid()
    ensures ledger.fees == old(ledger.fees) && ledger.payments == old(ledger.payments)
    ensures |ledger.invoices| == |old(ledger.invoices)|
    ensures forall i :: 0 <= i < |ledger.invoices| ==>
      ledger.invoices[i] == if i in InvoicesOf(ledger.payments, seen)
        then Saved(old(ledger.invoices[i]).(status := status), today) else old(ledger.invoices[i])
  {
    var rest := seen;
    ghost var done: set<nat> := {};
    while rest != {}
      invariant rest <= seen && done == seen - rest
      invariant ledger.Valid()
      invariant ledger.fees == old(ledger.fees) && ledger.payments == old(ledger.payments)
      invariant |ledger.invoices| == |old(ledger.invoices)|
      invariant forall i :: 0 <= i < |ledger.invoices| ==>
        ledger.invoices[i] == if i in InvoicesOf(ledger.payments, done)
          then Saved(old(ledger.invoices[i]).(status := status), today) else old(ledger.invoices[i])
      decreases |rest|
    {
      var k :| k in rest;
      var i := ledger.payments[k].invoice;
      SavedStep(old(ledger.invoices), ledger.invoices, ledger.payments, done, k, status, today);
      ledger.SaveInvoice(i, ledger.invoices[i].(status := status), today);
      rest := rest - {k};
      done := done + {k};
    }
  }

  /** `update(status=...)` on payments moves no payment to another invoice. */
  lemma InvoicesOfStatusUpdate(before: seq<Payment>, after: seq<Payment>, selected: set<nat>)
    requires |after| == |before|
    requires forall k :: 0 <= k < |before| ==> after[k].invoice == before[k].invoice
    ensures InvoicesOf(after, selected) == InvoicesOf(before, selected)
  {
  }

  /** `PaymentAdmin.mark_as_completed`: every payment of the queryset
      becomes `completado`; then, reading the queryset again, each payment
      still in it has its invoice saved as `pagada`. Under a `status` filter
      for any other status that second read is empty. */
  method MarkAsCompleted(ledger: Ledger, selected: set<nat>, statusFilter: Option<PaymentStatus>, today: Date) returns (updated: nat)
    requires ledger.Valid() && forall k :: k in selected ==> k < |ledger.payments|
    modifies ledger
    ensures ledger.Valid()
    ensures var q := Matching(old(ledger.payments), selected, statusFilter);
      && updated == |q|
      && |ledger.payments| == |old(ledger.payments)|
      && forall k :: 0 <= k < |ledger.payments| ==>
           ledger.payments[k] == if k in q then old(ledger.payments[k]).(status := Completado) else old(ledger.payments[k])
    // the loop reads the queryset again, after the update
    ensures var seen := Matching(ledger.payments, Matching(old(ledger.payments), selected, statusFilter), statusFilter);
      && |ledger.invoices| == |old(ledger.invoices)|
      && forall i :: 0 <= i < |ledger.invoices| ==>
           ledger.invoices[i] == if i in InvoicesOf(old(ledger.payments), seen) then old(ledger.invoices[i]).(status := Pagada) else old(ledger.invoices[i])
    ensures statusFilter.None? || statusFilter.value == Completado ==>
      forall i :: 0 <= i < |ledger.invoices| ==>
        ledger.invoices[i] == if i in InvoicesOf(old(ledger.payments), Matching(old(ledger.payments), selected, statusFilter))
          then old(ledger.invoices[i]).(status := Pagada) else old(ledger.invoices[i])
    ensures statusFilter.Some? && statusFilter.value != Completado ==> ledger.invoices == old(ledger.invoices)
    ensures ledger.fees == old(ledger.fees)
  {
    var q := Matching(ledger.payments, selected, statusFilter);
    updated := ledger.UpdatePaymentStatus(q, Completado);
    var seen := Matching(ledger.payments, q, statusFilter);
    MatchingAfterUpdate(old(ledger.payments), ledger.payments, q, Completado, statusFilter);
    InvoicesOfStatusUpdate(old(ledger.payments), ledger.payments, seen);
    SaveInvoicesOf(ledger, seen, Pagada, today);
    forall i | 0 <= i < |ledger.invoices|
      ensures Saved(old(ledger.invoices[i]).(status := Pagada), today) == old(ledger.invoices[i]).(status := Pagada)
    {
      SaveKeepsSettled(old(ledger.invoices[i]).(status := Pagada), today);
    }
  }

  /** `PaymentAdmin.mark_as_failed`: every payment of the queryset becomes
      `fallido`; then, reading the queryset again, each payment still in it
      has its invoice saved as `pendiente`, which stores `atrasada` once the
      due date has passed. Under a `status` filter for any other status that
      second read is empty. */
  method MarkAsFailed(ledger: Ledger, selected: set<nat>, statusFilter: Option<PaymentStatus>, today: Date) returns (updated: nat)
    requires ledger.Valid() && forall k :: k in selected ==> k < |ledger.payments|
    modifies ledger
    ensures ledger.Valid()
    ensures var q := Matching(old(ledger.payments), selected, statusFilter);
      && updated == |q|
      && |ledger.payments| == |old(ledger.payments)|
      && forall k :: 0 <= k < |ledger.payments| ==>
           ledger.payments[k] == if k in q then old(ledger.payments[k]).(status := Fallido) else old(ledger.payments[k])
    // the loop reads the queryset again, after the update
    ensures var seen := Matching(ledger.payments, Matching(old(ledger.payments), selected, statusFilter), statusFilter);
      && |ledger.invoices| == |old(ledger.invoices)|
      && forall i :: 0 <= i < |ledger.invoices| ==>
           ledger.invoices[i] == if i in InvoicesOf(old(ledger.payments), seen) then Reopened(old(ledger.invoices[i]), today) else old(ledger.invoices[i])
    ensures statusFilter.None? || statusFilter.value == Fallido ==>
      forall i :: 0 <= i < |ledger.invoices| ==>
        ledger.invoices[i] == if i in InvoicesOf(old(ledger.payments), Matching(old(ledger.payments), selected, statusFilter))
          then Reopened(old(ledger.invoices[i]), today) else old(ledger.invoices[i])
    ensures statusFilter.Some? && statusFilter.value != Fallido ==> ledger.invoices == old(ledger.invoices)
    ensures ledger.fees == old(ledger.fees)
  {
    var q := Matching(ledger.payments, selected, statusFilter);
    updated := ledger.UpdatePaymentStatus(q, Fallido);
    var seen := Matching(ledger.payments, q, statusFilter);
    MatchingAfterUpdate(old(ledger.payments), ledger.payments, q, Fallido, statusFilter);
    InvoicesOfStatusUpdate(old(ledger.payments), ledger.payments, seen);
    SaveInvoicesOf(ledger, seen, InvoiceStatus.Pendiente, today);
  }
}
