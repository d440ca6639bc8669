/** The billing tables of the `finance` app (fee definitions, invoices and
    payments) with the two save-time rules of their models: an invoice still
    `pendiente` past its due date is stored as `atrasada`, and a `completado`
    payment marks its invoice `pagada`. */
module Finance {
  import opened Wrappers
  import opened Dates

  datatype Period = Mensual | Anual

  /** `FeeDefinition`: `category` is a category's primary key, `None` for a
      club-wide fee; `amount` is in cents. */
  datatype FeeDefinition = FeeDefinition(category: Option<nat>, name: string, amount: int, period: Period)

  /** `Invoice.STATUS_CHOICES`. */
  datatype InvoiceStatus = Pendiente | Pagada | Atrasada

  /** `Payment.STATUS_CHOICES`. */
  datatype PaymentStatus = Pendiente | Completado | Fallido | Reembolsado

  datatype PaymentMethod = Efectivo | Transferencia | Tarjeta | Dummy

  /** The field defaults: `status = 'pendiente'` on both models. */
  const InvoiceStatusDefault: InvoiceStatus := InvoiceStatus.Pendiente
  const PaymentStatusDefault: PaymentStatus := PaymentStatus.Pendiente

  /** The string stored in the `status` column. */
  function InvoiceStatusCode(s: InvoiceStatus): string {
    match s
    case Pendiente => "pendiente"
    case Pagada => "pagada"
    case Atrasada => "atrasada"
  }

  function PaymentStatusCode(s: PaymentStatus): string {
    match s
    case Pendiente => "pendiente"
    case Completado => "completado"
    case Fallido => "fallido"
    case Reembolsado => "reembolsado"
  }

  /** Reading a stored code back: only the three choices name a status. */
  function InvoiceStatusFromCode(code: string): (r: Option<InvoiceStatus>)
    ensures r.Some? <==> code in {"pendiente", "pagada", "atrasada"}
    ensures r.Some? ==> InvoiceStatusCode(r.value) == code
  {
    if code == "pendiente" then Some(InvoiceStatus.Pendiente)
    else if code == "pagada" then Some(Pagada)
    else if code == "atrasada" then Some(Atrasada)
    else None
  }

  function PaymentStatusFromCode(code: string): (r: Option<PaymentStatus>)
    ensures r.Some? <==> code in {"pendiente", "completado", "fallido", "reembolsado"}
    ensures r.Some? ==> PaymentStatusCode(r.value) == code
  {
    if code == "pendiente" then Some(PaymentStatus.Pendiente)
    else if code == "completado" then Some(Completado)
    else if code == "fallido" then Some(Fallido)
    else if code == "reembolsado" then Some(Reembolsado)
    else None
  }

  /** Every status is stored as one of its choices and read back as itself. */
  lemma StatusCodesRoundTrip(s: InvoiceStatus, t: PaymentStatus)
    ensures InvoiceStatusFromCode(InvoiceStatusCode(s)) == Some(s)
    ensures PaymentStatusFromCode(PaymentStatusCode(t)) == Some(t)
  {
  }

  /** Both `status` fields default to the stored code `pendiente`. */
  lemma DefaultsArePendiente()
    ensures InvoiceStatusCode(InvoiceStatusDefault) == "pendiente"
    ensures PaymentStatusCode(PaymentStatusDefault) == "pendiente"
  {
  }

  /** `Invoice`: `guardian` is a user id, `player` a player's primary key
      (nullable), `fee` a fee definition's primary key; `createdAt` is the date
      of `created_at`. */
  datatype Invoice = Invoice(
    guardian: nat,
    player: Option<nat>,
    fee: nat,
    amount: int,
    dueDate: Date,
    status: InvoiceStatus,
    createdAt: Date)

  /** `Payment`: `invoice` is an invoice's primary key; `paidAt` a timestamp. */
  datatype Payment = Payment(
    invoice: nat,
    amount: int,
    paidAt: int,
    paymentMethod: PaymentMethod,
    status: PaymentStatus)

  /** `Invoice.is_overdue`. */
  predicate IsOverdue(inv: Invoice, today: Date) {
    Before(inv.dueDate, today) && inv.status == InvoiceStatus.Pendiente
  }

  /** The row `Invoice.save` writes for the instance `inv`. */
  function Saved(inv: Invoice, today: Date): (r: Invoice)
    ensures r == inv.(status := r.status)
    ensures !IsOverdue(r, today)
    ensures IsOverdue(inv, today) ==> r.status == Atrasada
    ensures !IsOverdue(inv, today) ==> r == inv
  {
    if IsOverdue(inv, today) && inv.status == InvoiceStatus.Pendiente then inv.(status := Atrasada) else inv
  }

  /** Saving again changes nothing. */
  lemma SaveIdempotent(inv: Invoice, today: Date)
    ensures Saved(Saved(inv, today), today) == Saved(inv, today)
  {
  }

  /** `pagada` and `atrasada` are never changed by a save. */
  lemma SaveKeepsSettled(inv: Invoice, today: Date)
    requires inv.status != InvoiceStatus.Pendiente
    ensures Saved(inv, today).status == inv.status
  {
  }

  /** Overdue is lazy: a row saved earlier and saved again later ends up as if
      it had only been saved later. */
  lemma SaveLater(inv: Invoice, t1: Date, t2: Date)
    requires NotAfter(t1, t2)
    ensures Saved(Saved(inv, t1), t2) == Saved(inv, t2)
  {
    if IsOverdue(inv, t1) && t1 != t2 {
      BeforeTransitive(inv.dueDate, t1, t2);
    }
  }

  /** What `status = 'pendiente'; save()` stores: `atrasada` once the due
      date has passed, `pendiente` otherwise. */
  function Reopened(inv: Invoice, today: Date): (r: Invoice)
    ensures r == inv.(status := r.status)
    ensures r.status == if Before(inv.dueDate, today) then Atrasada else InvoiceStatus.Pendiente
  {
    Saved(inv.(status := InvoiceStatus.Pendiente), today)
  }

  /** The row `Invoice.objects.create(...)` stores: `created_at` is set to the
      creation day, then the save rule applies. */
  function Created(inv: Invoice, today: Date): (r: Invoice)
    ensures r.createdAt == today
    ensures !IsOverdue(r, today)
    ensures r.(status := inv.status, createdAt := inv.createdAt) == inv
    ensures inv.status == InvoiceStatus.Pendiente ==>
      r.status == if Before(inv.dueDate, today) then Atrasada else InvoiceStatus.Pendiente
  {
    Saved(inv.(createdAt := today), today)
  }

  /** The effect of `Payment.save` on the invoice table: a `completado`
      payment leaves its invoice `pagada`, any other status leaves the table
      as it was; no other invoice is touched. */
  function PaymentCascade(invoices: seq<Invoice>, p: Payment, today: Date): (r: seq<Invoice>)
    requires p.invoice < |invoices|
    ensures |r| == |invoices|
    ensures forall i :: 0 <= i < |invoices| && i != p.invoice ==> r[i] == invoices[i]
    ensures p.status == Completado ==> r[p.invoice] == invoices[p.invoice].(status := Pagada)
    ensures p.status != Completado ==> r == invoices
    ensures invoices[p.invoice].status == Pagada ==> r == invoices
  {
    var inv := invoices[p.invoice];
    if p.status == Completado && inv.status != Pagada then invoices[p.invoice := Saved(inv.(status := Pagada), today)]
    else invoices
  }

  /** `Sum('amount')` over the invoices whose status code is in `codes`, with
      `or 0` for an empty selection. */
  function InvoiceTotal(invoices: seq<Invoice>, codes: set<string>): (t: int)
    ensures (forall i :: 0 <= i < |invoices| ==> invoices[i].amount >= 0) ==> t >= 0
    ensures (forall i :: 0 <= i < |invoices| ==> InvoiceStatusCode(invoices[i].status) !in codes) ==> t == 0
    decreases |invoices|
  {
    if invoices == [] then 0
    else
      var last := invoices[|invoices| - 1];
      InvoiceTotal(invoices[..|invoices| - 1], codes) + (if InvoiceStatusCode(last.status) in codes then last.amount else 0)
  }

  /** `Sum('amount')` over all the invoices given. */
  function AmountSum(invoices: seq<Invoice>): (t: int)
    ensures (forall i :: 0 <= i < |invoices| ==> invoices[i].amount >= 0) ==> t >= 0
    decreases |invoices|
  {
    if invoices == [] then 0 else AmountSum(invoices[..|invoices| - 1]) + invoices[|invoices| - 1].amount
  }

  /** `Sum('amount')` over the payments with status `status`, `or 0`. */
  function PaymentTotal(payments: seq<Payment>, status: PaymentStatus): (t: int)
    ensures (forall i :: 0 <= i < |payments| ==> payments[i].amount >= 0) ==> t >= 0
    ensures (forall i :: 0 <= i < |payments| ==> payments[i].status != status) ==> t == 0
    decreases |payments|
  {
    if payments == [] then 0
    else
      var last := payments[|payments| - 1];
      PaymentTotal(payments[..|payments| - 1], status) + (if last.status == status then last.amount else 0)
  }

  /** Disjoint status filters add up. */
  lemma {:induction false} InvoiceTotalSplit(invoices: seq<Invoice>, a: set<string>, b: set<string>)
    requires a !! b
    ensures InvoiceTotal(invoices, a + b) == InvoiceTotal(invoices, a) + InvoiceTotal(invoices, b)
    decreases |invoices|
  {
    if invoices != [] {
      InvoiceTotalSplit(invoices[..|invoices| - 1], a, b);
    }
  }

  /** Codes that name no status select nothing. */
  lemma {:induction false} InvoiceTotalIgnoresUnknownCodes(invoices: seq<Invoice>, codes: set<string>, extra: set<string>)
    requires forall s :: InvoiceStatusCode(s) !in extra
    ensures InvoiceTotal(invoices, codes + extra) == InvoiceTotal(invoices, codes)
    decreases |invoices|
  {
    if invoices != [] {
      InvoiceTotalIgnoresUnknownCodes(invoices[..|invoices| - 1], codes, extra);
    }
  }

  /** Filtering on every status choice is summing everything. */
  lemma {:induction false} InvoiceTotalAllCodes(invoices: seq<Invoice>)
    ensures InvoiceTotal(invoices, {"pendiente", "pagada", "atrasada"}) == AmountSum(invoices)
    decreases |invoices|
  {
    if invoices != [] {
      InvoiceTotalAllCodes(invoices[..|invoices| - 1]);
    }
  }

  /** The `finance` tables. Primary keys are positions. */
  class Ledger {
    var fees: seq<FeeDefinition>
    var invoices: seq<Invoice>
    var payments: seq<Payment>

    /** Every payment's invoice exists. */
    ghost predicate Valid()
      reads this
    {
      forall k :: 0 <= k < |payments| ==> payments[k].invoice < |invoices|
    }

    constructor (fees: seq<FeeDefinition>)
      ensures Valid()
      ensures this.fees == fees && invoices == [] && payments == []
    {
      this.fees, invoices, payments := fees, [], [];
    }

    /** `Invoice.save()` on the instance `inv` of an existing row. */
    method SaveInvoice(pk: nat, inv: Invoice, today: Date)
      requires Valid() && pk < |invoices|
      modifies this
      ensures Valid()
      ensures invoices == old(invoices)[pk := Saved(inv, today)]
      ensures fees == old(fees) && payments == old(payments)
    {
      var row := inv;
      if IsOverdue(row, today) && row.status == InvoiceStatus.Pendiente {
        row := row.(status := Atrasada);
      }
      invoices := invoices[pk := row];
    }

    /** `Invoice.objects.create(...)`: a new row at the next primary key. */
    method CreateInvoice(inv: Invoice, today: Date) returns (pk: nat)
      requires Valid()
      modifies this
      ensures Valid()
      ensures pk == |old(invoices)|
      ensures invoices == old(invoices) + [Created(inv, today)]
      ensures fees == old(fees) && payments == old(payments)
    {
      pk := |invoices|;
      invoices := invoices + [inv.(createdAt := today)];
      SaveInvoice(pk, invoices[pk], today);
    }

    /** `Payment.save()` on the instance `p` of an existing row: the invoice
        is marked `pagada` and saved first when the payment is `completado`
        and the invoice is not `pagada` yet. */
    method SavePayment(pk: nat, p: Payment, today: Date)
      requires Valid() && pk < |payments| && p.invoice < |invoices|
      modifies this
      ensures Valid()
      ensures payments == old(payments)[pk := p]
      ensures invoices == PaymentCascade(old(invoices), p, today)
      ensures fees == old(fees)
    {
      if p.status == Completado && invoices[p.invoice].status != Pagada {
        SaveInvoice(p.invoice, invoices[p.invoice].(status := Pagada), today);
      }
      payments := payments[pk := p];
    }

    /** `queryset.update(status=status)` on invoices: no `save`, so no
        overdue rule. Returns the number of rows updated. */
    method UpdateInvoiceStatus(selected: set<nat>, status: InvoiceStatus) returns (updated: nat)
      requires Valid() && forall i :: i in selected ==> i < |invoices|
      modifies this
      ensures Valid()
      ensures updated == |selected|
      ensures |invoices| == |old(invoices)|
      ensures forall i :: 0 <= i < |invoices| ==>
        invoices[i] == if i in selected then old(invoices[i]).(status := status) else old(invoices[i])
      ensures fees == old(fees) && payments == old(payments)
    {
      invoices := seq(|invoices|, i requires 0 <= i < |invoices| reads this =>
        if i in selected then invoices[i].(status := status) else invoices[i]);
      updated := |selected|;
    }

    /** `queryset.update(status=status)` on payments: no `Payment.save`, so no
        cascade to the invoices. */
    method UpdatePaymentStatus(selected: set<nat>, status: PaymentStatus) returns (updated: nat)
      requires Valid() && forall k :: k in selected ==> k < |payments|
      modifies this
      ensures Valid()
      ensures updated == |selected|
      ensures |payments| == |old(payments)|
      ensures forall k :: 0 <= k < |payments| ==>
        payments[k] == if k in selected then old(payments[k]).(status := status) else old(payments[k])
      ensures fees == old(fees) && invoices == old(invoices)
    {
      payments := seq(|payments|, k requires 0 <= k < |payments| reads this =>
        if k in selected then payments[k].(status := status) else payments[k]);
      updated := |selected|;
    }
  }
}
