/** The admin panel views that touch billing, players and tickets. The
    `is_admin` gate is the views' decorator and is taken as granted here. */
module AdminViews {
  import opened Wrappers
  import opened Dates
  import opened Text
  import opened Queries
  import opened Players
  import opened Finance
  import Tickets

  /** What a view answers, rendering and redirect targets aside. */
  datatype Response = Redirected | NotFound | FormShown | Refused

  // ---------------------------------------------------------------------
  // admin_dashboard

  datatype DashboardTotals = DashboardTotals(paidQuotas: int, pendingQuotas: int, overdueQuotas: int, funds: int)

  /** The status filter of `total_pending_quotas`; `en revisión` is no
      invoice status, so it selects nothing. */
  const PendingQuotaCodes: set<string> := {"pendiente", "en revisión"}

  /** The `pagada`, `pendiente` and `atrasada` totals add up to the whole
      invoice table. */
  lemma ThreeStatusesSplit(invoices: seq<Invoice>)
    ensures InvoiceTotal(invoices, {"pagada"}) + InvoiceTotal(invoices, {"pendiente"}) + InvoiceTotal(invoices, {"atrasada"})
      == AmountSum(invoices)
  {
    InvoiceTotalSplit(invoices, {"pagada"}, {"pendiente"});
    InvoiceTotalSplit(invoices, {"pagada", "pendiente"}, {"atrasada"});
    assert {"pagada"} + {"pendiente"} == {"pagada", "pendiente"};
    assert {"pagada", "pendiente"} + {"atrasada"} == {"pendiente", "pagada", "atrasada"};
    InvoiceTotalAllCodes(invoices);
  }

  /** The total of a status no row has is 0. */
  lemma StatusAbsentTotal(invoices: seq<Invoice>, st: InvoiceStatus)
    ensures (forall i :: 0 <= i < |invoices| ==> invoices[i].status != st) ==>
      InvoiceTotal(invoices, {InvoiceStatusCode(st)}) == 0
  {
    if forall i :: 0 <= i < |invoices| ==> invoices[i].status != st {
      forall i | 0 <= i < |invoices|
        ensures InvoiceStatusCode(invoices[i].status) !in {InvoiceStatusCode(st)}
      {
        StatusCodesRoundTrip(invoices[i].status, Completado);
        StatusCodesRoundTrip(st, Completado);
      }
    }
  }

  /** The money totals of `admin_dashboard`. Paid, pending and overdue
      quotas split the whole invoice table between them; `funds` is what the
      `completado` payments add up to. */
  function Dashboard(invoices: seq<Invoice>, payments: seq<Payment>): (t: DashboardTotals)
    ensures t.paidQuotas + t.pendingQuotas + t.overdueQuotas == AmountSum(invoices)
    ensures t.paidQuotas == InvoiceTotal(invoices, {"pagada"})
    ensures t.pendingQuotas == InvoiceTotal(invoices, {"pendiente"})
    ensures t.overdueQuotas == InvoiceTotal(invoices, {"atrasada"})
    ensures t.funds == PaymentTotal(payments, Completado)
    ensures (forall i :: 0 <= i < |invoices| ==> invoices[i].amount >= 0) ==>
      t.paidQuotas >= 0 && t.pendingQuotas >= 0 && t.overdueQuotas >= 0
    ensures (forall i :: 0 <= i < |invoices| ==> invoices[i].status != Pagada) ==> t.paidQuotas == 0
    ensures (forall i :: 0 <= i < |invoices| ==> invoices[i].status != InvoiceStatus.Pendiente) ==> t.pendingQuotas == 0
    ensures (forall i :: 0 <= i < |invoices| ==> invoices[i].status != Atrasada) ==> t.overdueQuotas == 0
  {
    InvoiceTotalIgnoresUnknownCodes(invoices, {"pendiente"}, {"en revisión"});
    assert {"pendiente"} + {"en revisión"} == PendingQuotaCodes;
    ThreeStatusesSplit(invoices);
    StatusAbsentTotal(invoices, Pagada);
    StatusAbsentTotal(invoices, InvoiceStatus.Pendiente);
    StatusAbsentTotal(invoices, Atrasada);
    DashboardTotals(
      InvoiceTotal(invoices, {"pagada"}),
      InvoiceTotal(invoices, PendingQuotaCodes),
      InvoiceTotal(invoices, {"atrasada"}),
      PaymentTotal(payments, Completado))
  }

  // ---------------------------------------------------------------------
  // admin_player_detail

  predicate IsPaid(inv: Invoice) {
    inv.status == Pagada
  }

  predicate IsUnpaid(inv: Invoice) {
    inv.status != Pagada
  }

  /** `Invoice.objects.filter(player=player)`. */
  function PlayerInvoices(invoices: seq<Invoice>, pk: nat): (r: seq<Invoice>)
    ensures forall x :: x in r <==> x in invoices && x.player == Some(pk)
    ensures forall x :: multiset(r)[x] == if x.player == Some(pk) then multiset(invoices)[x] else 0
  {
    FilterMultiset(invoices, (x: Invoice) => x.player == Some(pk));
    Filter(invoices, (x: Invoice) => x.player == Some(pk))
  }

  /** `GuardianPlayer.objects.filter(player=player)`. */
  function PlayerLinks(links: seq<GuardianLink>, pk: nat): (r: seq<GuardianLink>)
    ensures forall l :: l in r <==> l in links && l.player == pk
  {
    Filter(links, (l: GuardianLink) => l.player == pk)
  }

  lemma AmountSumAppend(invoices: seq<Invoice>, x: Invoice)
    ensures AmountSum(invoices + [x]) == AmountSum(invoices) + x.amount
  {
    assert (invoices + [x])[..|invoices|] == invoices;
  }

  /** Summing a status filter of the rows is summing the rows with those
      status codes. */
  lemma {:induction false} AmountSumOfFilter(invoices: seq<Invoice>, keep: Invoice -> bool, codes: set<string>)
    requires forall x :: keep(x) <==> InvoiceStatusCode(x.status) in codes
    ensures AmountSum(Filter(invoices, keep)) == InvoiceTotal(invoices, codes)
    decreases |invoices|
  {
    if invoices != [] {
      var init, last := invoices[..|invoices| - 1], invoices[|invoices| - 1];
      AmountSumOfFilter(init, keep, codes);
      assert keep(last) <==> InvoiceStatusCode(last.status) in codes;
      if keep(last) {
        assert Filter(invoices, keep) == Filter(init, keep) + [last];
        AmountSumAppend(Filter(init, keep), last);
      } else {
        assert Filter(invoices, keep) == Filter(init, keep);
      }
    }
  }

  datatype PlayerDetail = PlayerDetail(
    guardianLinks: seq<GuardianLink>,
    paidInvoices: seq<Invoice>,
    pendingInvoices: seq<Invoice>,
    totalDebt: int)

  /** The figures of `admin_player_detail`: 404 for an unknown player; the
      player's invoices split into paid and unpaid, and the debt is what the
      unpaid ones (`pendiente` or `atrasada`) add up to. */
  function PlayerDetailView(players: seq<Player>, links: seq<GuardianLink>, invoices: seq<Invoice>, pk: nat)
    : (r: Option<PlayerDetail>)
    ensures r.None? <==> pk >= |players|
    ensures r.Some? ==>
      var own := PlayerInvoices(invoices, pk);
      && multiset(r.value.paidInvoices) + multiset(r.value.pendingInvoices) == multiset(own)
      && (forall x :: x in r.value.paidInvoices <==> x in own && x.status == Pagada)
      && (forall x :: x in r.value.pendingInvoices <==> x in own && x.status != Pagada)
      && r.value.totalDebt == InvoiceTotal(own, {"pendiente", "atrasada"})
      && AmountSum(r.value.paidInvoices) + r.value.totalDebt == AmountSum(own)
      && (forall l :: l in r.value.guardianLinks <==> l in links && l.player == pk)
  {
    if pk >= |players| then None
    else
      var own := PlayerInvoices(invoices, pk);
      var paid, pending := Filter(own, IsPaid), Filter(own, IsUnpaid);
      FilterPartition(own, IsPaid, IsUnpaid);
      AmountSumOfFilter(own, IsPaid, {"pagada"});
      AmountSumOfFilter(own, IsUnpaid, {"pendiente", "atrasada"});
      InvoiceTotalSplit(own, {"pagada"}, {"pendiente", "atrasada"});
      assert {"pagada"} + {"pendiente", "atrasada"} == {"pendiente", "pagada", "atrasada"};
      InvoiceTotalAllCodes(own);
      Some(PlayerDetail(PlayerLinks(links, pk), paid, pending, AmountSum(pending)))
  }

  // ---------------------------------------------------------------------
  // approve_payment / reject_payment

  /** `approve_payment`: on POST the payment becomes `completado` and its
      invoice `pagada`, whatever either was before; any other method changes
      nothing. */
  method ApprovePayment(ledger: Ledger, isPost: bool, pk: nat, today: Date) returns (resp: Response)
    requires ledger.Valid()
    modifies ledger
    ensures ledger.Valid()
    ensures ledger.fees == old(ledger.fees)
    ensures resp == NotFound <==> isPost && pk >= |old(ledger.payments)|
    ensures resp == Redirected <==> !(isPost && pk >= |old(ledger.payments)|)
    ensures !(isPost && pk < |old(ledger.payments)|) ==>
      ledger.payments == old(ledger.payments) && ledger.invoices == old(ledger.invoices)
    ensures isPost && pk < |old(ledger.payments)| ==>
      var p := old(ledger.payments)[pk];
      && ledger.payments == old(ledger.payments)[pk := p.(status := Completado)]
      && ledger.invoices == old(ledger.invoices)[p.invoice := old(ledger.invoices)[p.invoice].(status := Pagada)]
    // the approved pair is settled, and no other row moved
    ensures isPost && pk < |old(ledger.payments)| ==>
      var inv := old(ledger.payments)[pk].invoice;
      && ledger.payments[pk].status == Completado
      && ledger.payments[pk].invoice == inv
      && ledger.invoices[inv].status == Pagada
      && (forall i :: 0 <= i < |ledger.payments| && i != pk ==> ledger.payments[i] == old(ledger.payments)[i])
      && (forall i :: 0 <= i < |ledger.invoices| && i != inv ==> ledger.invoices[i] == old(ledger.invoices)[i])
  {
    if !isPost {
      return Redirected;
    }
    if pk >= |ledger.payments| {
      return NotFound;
    }
    var p := ledger.payments[pk].(status := Completado);
    ledger.SavePayment(pk, p, today);
    ledger.SaveInvoice(p.invoice, ledger.invoices[p.invoice].(status := Pagada), today);
    return Redirected;
  }

  /** `reject_payment`: on POST the payment becomes `fallido` and its invoice
      is saved as `pendiente`, which the save rule turns into `atrasada` once
      the due date has passed; any other method changes nothing. */
  method RejectPayment(ledger: Ledger, isPost: bool, pk: nat, today: Date) returns (resp: Response)
    requires ledger.Valid()
    modifies ledger
    ensures ledger.Valid()
    ensures ledger.fees == old(ledger.fees)
    ensures resp == NotFound <==> isPost && pk >= |old(ledger.payments)|
    ensures resp == Redirected <==> !(isPost && pk >= |old(ledger.payments)|)
    ensures !(isPost && pk < |old(ledger.payments)|) ==>
      ledger.payments == old(ledger.payments) && ledger.invoices == old(ledger.invoices)
    ensures isPost && pk < |old(ledger.payments)| ==>
      var p := old(ledger.payments)[pk];
      && ledger.payments == old(ledger.payments)[pk := p.(status := Fallido)]
      && ledger.invoices == old(ledger.invoices)[p.invoice := Reopened(old(ledger.invoices)[p.invoice], today)]
  {
    if !isPost {
      return Redirected;
    }
    if pk >= |ledger.payments| {
      return NotFound;
    }
    var p := ledger.payments[pk].(status := Fallido);
    ledger.SavePayment(pk, p, today);
    ledger.SaveInvoice(p.invoice, ledger.invoices[p.invoice].(status := InvoiceStatus.Pendiente), today);
    return Redirected;
  }

  // ---------------------------------------------------------------------
  // assign_fees_to_category

  /** The posted `AssignFeeForm`: two model choices (primary keys) and a date,
      each absent when the posted value does not parse. */
  datatype AssignFeeForm = AssignFeeForm(fee: Option<nat>, category: Option<nat>, dueDate: Option<Date>)

  /** `AssignFeeForm.is_valid()`: both choices name existing rows and the
      date parsed. */
  predicate AssignFeeFormValid(form: AssignFeeForm, fees: seq<FeeDefinition>, categories: seq<Category>) {
    && form.fee.Some? && form.fee.value < |fees|
    && form.category.Some? && form.category.value < |categories|
    && form.dueDate.Some?
  }

  /** `GuardianPlayer.objects.filter(player__category=cat, player__status='active')`. */
  function CategoryLinks(links: seq<GuardianLink>, players: seq<Player>, cat: nat): (r: seq<GuardianLink>)
    ensures forall l :: l in r <==>
      l in links && l.player < |players| && players[l.player].category == cat && players[l.player].isActive
  {
    Filter(links, (l: GuardianLink) => l.player < |players| && players[l.player].category == cat && players[l.player].isActive)
  }

  /** Whether `player` has ever been billed for `fee`, in any month. */
  predicate HasFeeInvoice(invoices: seq<Invoice>, player: nat, fee: nat) {
    exists i :: 0 <= i < |invoices| && invoices[i].player == Some(player) && invoices[i].fee == fee
  }

  /** One turn of the loop over the category's guardian links. */
  function AssignLink(invoices: seq<Invoice>, fee: nat, def: FeeDefinition, due: Date, l: GuardianLink, today: Date)
    : seq<Invoice>
  {
    if HasFeeInvoice(invoices, l.player, fee) then invoices
    else invoices + [Created(Invoice(l.guardian, Some(l.player), fee, def.amount, due, InvoiceStatus.Pendiente, today), today)]
  }

  /** The loop over the links `ls`, in order. */
  function AssignLinks(invoices: seq<Invoice>, fee: nat, def: FeeDefinition, due: Date, ls: seq<GuardianLink>, today: Date)
    : seq<Invoice>
    decreases |ls|
  {
    if ls == [] then invoices
    else AssignLink(AssignLinks(invoices, fee, def, due, ls[..|ls| - 1], today), fee, def, due, ls[|ls| - 1], today)
  }

  lemma {:induction false} AssignLinksGrows(invoices: seq<Invoice>, fee: nat, def: FeeDefinition, due: Date,
                                            ls: seq<GuardianLink>, today: Date)
    ensures var r := AssignLinks(invoices, fee, def, due, ls, today);
      |invoices| <= |r| <= |invoices| + |ls| && r[..|invoices|] == invoices
    decreases |ls|
  {
    if ls != [] {
      AssignLinksGrows(invoices, fee, def, due, ls[..|ls| - 1], today);
      var m := AssignLinks(invoices, fee, def, due, ls[..|ls| - 1], today);
      var r := AssignLink(m, fee, def, due, ls[|ls| - 1], today);
      assert r[..|m|] == m;
      assert r[..|invoices|] == m[..|invoices|];
    }
  }

  /** What an assigned row holds: the fee's amount, the chosen due date, a
      guardian linked to the player in `ls`, and `pendiente` turned
      `atrasada` when the due date has already passed. */
  ghost predicate AssignedRow(inv: Invoice, fee: nat, def: FeeDefinition, due: Date, ls: seq<GuardianLink>, today: Date) {
    && inv.fee == fee
    && inv.amount == def.amount
    && inv.dueDate == due
    && inv.createdAt == today
    && inv.player.Some?
    && (exists l :: l in ls && l.guardian == inv.guardian && l.player == inv.player.value)
    && inv.status == if Before(due, today) then Atrasada else InvoiceStatus.Pendiente
  }

  lemma {:induction false} AssignNewRows(invoices: seq<Invoice>, fee: nat, def: FeeDefinition, due: Date,
                                         ls: seq<GuardianLink>, today: Date)
    ensures var r := AssignLinks(invoices, fee, def, due, ls, today);
      forall i :: |invoices| <= i < |r| ==> AssignedRow(r[i], fee, def, due, ls, today)
    decreases |ls|
  {
    if ls != [] {
      var init, l := ls[..|ls| - 1], ls[|ls| - 1];
      AssignNewRows(invoices, fee, def, due, init, today);
      AssignLinksGrows(invoices, fee, def, due, init, today);
      var m := AssignLinks(invoices, fee, def, due, init, today);
      var r := AssignLink(m, fee, def, due, l, today);
      forall i | |invoices| <= i < |r|
        ensures AssignedRow(r[i], fee, def, due, ls, today)
      {
        if i < |m| {
          assert r[i] == m[i];
          assert AssignedRow(m[i], fee, def, due, init, today);
          var l' :| l' in init && l'.guardian == m[i].guardian && l'.player == m[i].player.value;
          assert l' in ls;
        } else {
          assert l in ls;
        }
      }
    }
  }

  /** Row `j` is its player's first invoice for `fee` in the whole table. */
  ghost predicate FirstForFee(invoices: seq<Invoice>, j: nat, fee: nat)
    requires j < |invoices|
  {
    invoices[j].player.Some?
    && forall i :: 0 <= i < j ==> !(invoices[i].player == invoices[j].player && invoices[i].fee == fee)
  }

  /** Only players never billed for the fee get an invoice, and each of them
      gets one, however many guardian links they have. */
  lemma {:induction false} AssignFirstForFee(invoices: seq<Invoice>, fee: nat, def: FeeDefinition, due: Date,
                                             ls: seq<GuardianLink>, today: Date)
    ensures var r := AssignLinks(invoices, fee, def, due, ls, today);
      forall j :: |invoices| <= j < |r| ==> FirstForFee(r, j, fee)
    decreases |ls|
  {
    if ls != [] {
      var init, l := ls[..|ls| - 1], ls[|ls| - 1];
      AssignFirstForFee(invoices, fee, def, due, init, today);
      AssignLinksGrows(invoices, fee, def, due, init, today);
      var m := AssignLinks(invoices, fee, def, due, init, today);
      var r := AssignLink(m, fee, def, due, l, today);
      forall j | |invoices| <= j < |r|
        ensures FirstForFee(r, j, fee)
      {
        if j < |m| {
          assert FirstForFee(m, j, fee);
          assert forall i :: 0 <= i <= j ==> r[i] == m[i];
        } else {
          assert !HasFeeInvoice(m, l.player, fee);
          assert forall i :: 0 <= i < j ==> r[i] == m[i];
        }
      }
    }
  }

  /** After the loop every linked player has an invoice for the fee. */
  lemma {:induction false} AssignCovers(invoices: seq<Invoice>, fee: nat, def: FeeDefinition, due: Date,
                                        ls: seq<GuardianLink>, today: Date)
    ensures var r := AssignLinks(invoices, fee, def, due, ls, today);
      forall l :: l in ls ==> HasFeeInvoice(r, l.player, fee)
    decreases |ls|
  {
    if ls != [] {
      var init, last := ls[..|ls| - 1], ls[|ls| - 1];
      AssignCovers(invoices, fee, def, due, init, today);
      var m := AssignLinks(invoices, fee, def, due, init, today);
      var r := AssignLink(m, fee, def, due, last, today);
      assert ls == init + [last];
      forall l | l in ls
        ensures HasFeeInvoice(r, l.player, fee)
      {
        if l in init {
          var i :| 0 <= i < |m| && m[i].player == Some(l.player) && m[i].fee == fee;
          assert r[i] == m[i];
        } else if !HasFeeInvoice(m, last.player, fee) {
          assert r[|m|].player == Some(l.player) && r[|m|].fee == fee;
        }
      }
    }
  }

  /** When every linked player is billed for the fee already, the loop adds
      nothing. */
  lemma {:induction false} AssignAllBilled(invoices: seq<Invoice>, fee: nat, def: FeeDefinition, due: Date,
                                           ls: seq<GuardianLink>, today: Date)
    requires forall l :: l in ls ==> HasFeeInvoice(invoices, l.player, fee)
    ensures AssignLinks(invoices, fee, def, due, ls, today) == invoices
    decreases |ls|
  {
    if ls != [] {
      assert ls[|ls| - 1] in ls;
      assert forall l :: l in ls[..|ls| - 1] ==> l in ls;
      AssignAllBilled(invoices, fee, def, due, ls[..|ls| - 1], today);
    }
  }

  /** A repeat assignment of the same fee to the same links creates nothing,
      whatever due date or day it is run with. */
  lemma AssignRepeatCreatesNothing(invoices: seq<Invoice>, fee: nat, def: FeeDefinition, due: Date, due2: Date,
                                   ls: seq<GuardianLink>, today: Date, today2: Date)
    ensures var once := AssignLinks(invoices, fee, def, due, ls, today);
      AssignLinks(once, fee, def, due2, ls, today2) == once
  {
    AssignCovers(invoices, fee, def, due, ls, today);
    AssignAllBilled(AssignLinks(invoices, fee, def, due, ls, today), fee, def, due2, ls, today2);
  }

  /** One turn of the loop: the link's player is billed for the fee unless
      it already has an invoice for it. */
  method AssignOne(ledger: Ledger, fee: nat, def: FeeDefinition, due: Date, gp: GuardianLink, today: Date)
    requires ledger.Valid()
    modifies ledger
    ensures ledger.Valid()
    ensures ledger.fees == old(ledger.fees) && ledger.payments == old(ledger.payments)
    ensures ledger.invoices == AssignLink(old(ledger.invoices), fee, def, due, gp, today)
  {
    if !HasFeeInvoice(ledger.invoices, gp.player, fee) {
      var _ := ledger.CreateInvoice(
        Invoice(gp.guardian, Some(gp.player), fee, def.amount, due, InvoiceStatus.Pendiente, today), today);
    }
  }

  /** The loop `for gp in ...`: the invoice table becomes the fold over the
      links, in order. */
  method AssignAll(ledger: Ledger, fee: nat, def: FeeDefinition, due: Date, ls: seq<GuardianLink>, today: Date)
    requires ledger.Valid()
    modifies ledger
    ensures ledger.Valid()
    ensures ledger.fees == old(ledger.fees) && ledger.payments == old(ledger.payments)
    ensures ledger.invoices == AssignLinks(old(ledger.invoices), fee, def, due, ls, today)
  {
    for k := 0 to |ls|
      invariant ledger.Valid()
      invariant ledger.fees == old(ledger.fees) && ledger.payments == old(ledger.payments)
      invariant ledger.invoices == AssignLinks(old(ledger.invoices), fee, def, due, ls[..k], today)
    {
      assert ls[..k + 1][..k] == ls[..k];
      AssignOne(ledger, fee, def, due, ls[k], today);
    }
    assert ls[..|ls|] == ls;
  }

  /** `assign_fees_to_category`: a valid POST bills the fee to the active
      players of the category through their guardian links, skipping every
      player who already has an invoice for that fee; anything else only
      shows the form. */
  method AssignFeesToCategory(ledger: Ledger, roster: Roster, isPost: bool, form: AssignFeeForm, today: Date)
    returns (resp: Response)
    requires ledger.Valid() && roster.Valid()
    modifies ledger
    ensures ledger.Valid()
    ensures ledger.fees == old(ledger.fees) && ledger.payments == old(ledger.payments)
    ensures resp == Redirected <==> isPost && AssignFeeFormValid(form, ledger.fees, roster.categories)
    ensures resp != Redirected ==> resp == FormShown && ledger.invoices == old(ledger.invoices)
    ensures resp == Redirected ==>
      var fee := form.fee.value;
      ledger.invoices == AssignLinks(old(ledger.invoices), fee, ledger.fees[fee], form.dueDate.value,
                                     CategoryLinks(roster.links, roster.players, form.category.value), today)
  {
    if !isPost || !AssignFeeFormValid(form, ledger.fees, roster.categories) {
      return FormShown;
    }
    var fee, cat, due := form.fee.value, form.category.value, form.dueDate.value;
    var def := ledger.fees[fee];
    var ls := CategoryLinks(roster.links, roster.players, cat);
    AssignAll(ledger, fee, def, due, ls, today);
    return Redirected;
  }

  // ---------------------------------------------------------------------
  // manage_featured_players / toggle_category_registration

  /** The cap on featured players. */
  const MaxFeatured: nat := 4

  /** `manage_featured_players`: more than four ids are refused and change
      nothing; otherwise exactly the listed players end up featured, so never
      more than four. */
  method ManageFeaturedPlayers(roster: Roster, isPost: bool, ids: seq<nat>) returns (resp: Response)
    requires roster.Valid()
    modifies roster
    ensures roster.Valid()
    ensures roster.links == old(roster.links) && roster.categories == old(roster.categories)
    ensures resp == Refused <==> isPost && |ids| > MaxFeatured
    ensures !(isPost && |ids| <= MaxFeatured) ==> resp != Redirected && roster.players == old(roster.players)
    ensures isPost && |ids| <= MaxFeatured ==>
      && resp == Redirected
      && |roster.players| == |old(roster.players)|
      && (forall i :: 0 <= i < |roster.players| ==> roster.players[i] == old(roster.players[i]).(isFeatured := i in ids))
      && FeaturedCount(roster.players) <= MaxFeatured
  {
    if !isPost {
      return FormShown;
    }
    if |ids| > MaxFeatured {
      return Refused;
    }
    roster.UpdateAllFeatured(false);
    roster.UpdateFeaturedIn(ids, true);
    FeaturedAtMostListed(roster.players, ids);
    return Redirected;
  }

  /** The category with its registration flag flipped. */
  function RegistrationToggled(c: Category): (r: Category)
    ensures r.name == c.name && r.isRegistrationOpen == !c.isRegistrationOpen
  {
    c.(isRegistrationOpen := !c.isRegistrationOpen)
  }

  /** Toggling twice restores the category. */
  lemma ToggleTwiceRestores(c: Category)
    ensures RegistrationToggled(RegistrationToggled(c)) == c
  {
  }

  /** `toggle_category_registration`: on POST the category's registration
      flag flips (404 for an unknown category); otherwise nothing changes. */
  method ToggleCategoryRegistration(roster: Roster, isPost: bool, pk: nat) returns (resp: Response)
    requires roster.Valid()
    modifies roster
    ensures roster.Valid()
    ensures roster.players == old(roster.players) && roster.links == old(roster.links)
    ensures resp == NotFound <==> isPost && pk >= |old(roster.categories)|
    ensures !(isPost && pk < |old(roster.categories)|) ==> roster.categories == old(roster.categories)
    ensures isPost && pk < |old(roster.categories)| ==>
      resp == Redirected && roster.categories == old(roster.categories)[pk := RegistrationToggled(old(roster.categories)[pk])]
  {
    if !isPost {
      return Redirected;
    }
    if pk >= |roster.categories| {
      return NotFound;
    }
    roster.SaveCategory(pk, RegistrationToggled(roster.categories[pk]));
    return Redirected;
  }

  // ---------------------------------------------------------------------
  // view_admin_ticket / close_admin_ticket

  /** `view_admin_ticket`: 404 for an unknown ticket; an admin's non-blank
      reply is appended and the ticket becomes `respondido`; a plain view
      changes nothing. */
  method ViewAdminTicket(desk: Tickets.Desk, admin: nat, pk: nat, isPost: bool, message: string)
    returns (resp: Tickets.Response)
    requires desk.Valid()
    modifies desk
    ensures desk.Valid()
    ensures resp == Tickets.NotFound <==> pk >= |old(desk.tickets)|
    ensures resp.Replied? <==> pk < |old(desk.tickets)| && isPost && !Blank(message)
    ensures !resp.Replied? ==> desk.tickets == old(desk.tickets) && desk.replies == old(desk.replies)
    ensures resp.Replied? ==>
      && resp.ticket == pk
      && desk.replies == old(desk.replies) + [Tickets.Reply(pk, admin, Strip(message))]
      && desk.tickets == old(desk.tickets)[pk := old(desk.tickets)[pk].(status := Tickets.Respondido)]
  {
    if pk >= |desk.tickets| {
      return Tickets.NotFound;
    }
    if isPost {
      var cleaned := Tickets.CleanText(message, None);
      if cleaned.Some? {
        desk.AddReply(pk, admin, cleaned.value);
        desk.SetStatus(pk, Tickets.Respondido);
        return Tickets.Replied(pk);
      }
    }
    return Tickets.Unchanged;
  }

  /** `close_admin_ticket`: a POST closes the ticket (404 for an unknown
      one); any other method changes nothing and looks nothing up. */
  method CloseAdminTicket(desk: Tickets.Desk, isPost: bool, pk: nat) returns (resp: Tickets.Response)
    requires desk.Valid()
    modifies desk
    ensures desk.Valid()
    ensures desk.replies == old(desk.replies)
    ensures resp == Tickets.NotFound <==> isPost && pk >= |old(desk.tickets)|
    ensures resp.Closed? <==> isPost && pk < |old(desk.tickets)|
    ensures !resp.Closed? ==> desk.tickets == old(desk.tickets)
    ensures resp.Closed? ==> desk.tickets == old(desk.tickets)[pk := old(desk.tickets)[pk].(status := Tickets.Cerrado)]
  {
    if !isPost {
      return Tickets.Unchanged;
    }
    if pk >= |desk.tickets| {
      return Tickets.NotFound;
    }
    desk.SetStatus(pk, Tickets.Cerrado);
    return Tickets.Closed(pk);
  }
}
