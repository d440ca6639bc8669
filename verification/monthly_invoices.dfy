/** The `generate_monthly_invoices` management command: for every monthly
    fee definition and every active player it applies to, create this
    month's invoice unless the player already has one for that fee this
    month or has no guardian. */
module MonthlyInvoices {
  import opened Wrappers
  import opened Dates
  import opened Queries
  import opened Players
  import opened Finance

  /** `today.replace(day=10)`. Every month has a 10th, so the command's
      `except ValueError` fallback (last day of the month) is never taken. */
  function MonthlyDueDate(today: CalendarDate): (d: CalendarDate)
    ensures d.year == today.year && d.month == today.month && d.day == 10
  {
    ReplaceDay(today, 10).value
  }

  lemma DayTenAlwaysExists(today: CalendarDate)
    ensures ReplaceDay(today, 10).Some?
  {
  }

  /** `Player.objects.filter(status='active')`, narrowed to the fee's
      category when it has one. */
  predicate Billable(p: Player, category: Option<nat>) {
    p.isActive && (category.None? || p.category == category.value)
  }

  /** The primary keys of the players a fee is billed to, in table order. */
  function PlayersToBill(players: seq<Player>, category: Option<nat>): (r: seq<nat>)
    ensures forall i :: i in r <==>
      0 <= i < |players| && players[i].isActive && (category.None? || players[i].category == category.value)
    ensures forall a, b :: 0 <= a < b < |r| ==> r[a] < r[b]
  {
    IndicesWhere(players, p => Billable(p, category))
  }

  /** `FeeDefinition.objects.filter(period='mensual')`, as primary keys. */
  function MonthlyFees(fees: seq<FeeDefinition>): (r: seq<nat>)
    ensures forall i :: i in r <==> 0 <= i < |fees| && fees[i].period == Mensual
    ensures forall a :: 0 <= a < |r| ==> r[a] < |fees|
    ensures forall a, b :: 0 <= a < b < |r| ==> r[a] < r[b]
  {
    IndicesWhere(fees, (f: FeeDefinition) => f.period == Mensual)
  }

  /** An invoice of `player` for `fee` created in the month of `today`. */
  predicate BilledInMonth(inv: Invoice, player: nat, fee: nat, today: Date) {
    inv.player == Some(player) && inv.fee == fee
    && inv.createdAt.year == today.year && inv.createdAt.month == today.month
  }

  /** The command's duplicate check (`created_at__year`, `created_at__month`). */
  predicate AlreadyBilled(invoices: seq<Invoice>, player: nat, fee: nat, today: Date) {
    exists i :: 0 <= i < |invoices| && BilledInMonth(invoices[i], player, fee, today)
  }

  /** The invoice the command asks `Invoice.objects.create` for. */
  function Requested(guardian: nat, player: nat, fee: nat, def: FeeDefinition, today: CalendarDate): Invoice {
    Invoice(guardian, Some(player), fee, def.amount, MonthlyDueDate(today), InvoiceStatus.Pendiente, today)
  }

  /** The invoice table and the per-fee counters while one fee is processed. */
  datatype Tally = Tally(invoices: seq<Invoice>, created: nat, skipped: nat)

  /** One turn of the inner loop. `conflicts` holds the (fee, player) pairs
      whose creation raises IntegrityError. */
  function BillPlayer(t: Tally, fee: nat, def: FeeDefinition, player: nat, links: seq<GuardianLink>,
                      today: CalendarDate, conflicts: set<(nat, nat)>): Tally
  {
    if AlreadyBilled(t.invoices, player, fee, today) then t.(skipped := t.skipped + 1)
    else match FirstLinkOf(links, player)
      case None => t.(skipped := t.skipped + 1)
      case Some(k) =>
        if (fee, player) in conflicts then t.(skipped := t.skipped + 1)
        else t.(invoices := t.invoices + [Created(Requested(links[k].guardian, player, fee, def, today), today)],
                created := t.created + 1)
  }

  /** The inner loop over the players `ps`, in order. */
  function BillFee(t: Tally, fee: nat, def: FeeDefinition, ps: seq<nat>, links: seq<GuardianLink>,
                   today: CalendarDate, conflicts: set<(nat, nat)>): Tally
    decreases |ps|
  {
    if ps == [] then t
    else BillPlayer(BillFee(t, fee, def, ps[..|ps| - 1], links, today, conflicts), fee, def, ps[|ps| - 1], links, today, conflicts)
  }

  /** The counters the command reports for one fee. */
  datatype FeeCount = FeeCount(fee: nat, created: nat, skipped: nat)

  datatype Run = Run(invoices: seq<Invoice>, counts: seq<FeeCount>)

  /** The outer loop over the fee definitions `feeIds`; a fee with no player
      to bill is passed over (`continue`) without counters. */
  function BillFees(invoices: seq<Invoice>, fees: seq<FeeDefinition>, feeIds: seq<nat>, players: seq<Player>,
                    links: seq<GuardianLink>, today: CalendarDate, conflicts: set<(nat, nat)>): Run
    requires forall k :: 0 <= k < |feeIds| ==> feeIds[k] < |fees|
    decreases |feeIds|
  {
    if feeIds == [] then Run(invoices, [])
    else
      var r := BillFees(invoices, fees, feeIds[..|feeIds| - 1], players, links, today, conflicts);
      var f := feeIds[|feeIds| - 1];
      var ps := PlayersToBill(players, fees[f].category);
      if ps == [] then r
      else
        var t := BillFee(Tally(r.invoices, 0, 0), f, fees[f], ps, links, today, conflicts);
        Run(t.invoices, r.counts + [FeeCount(f, t.created, t.skipped)])
  }

  function SumCreated(counts: seq<FeeCount>): nat
    decreases |counts|
  {
    if counts == [] then 0 else SumCreated(counts[..|counts| - 1]) + counts[|counts| - 1].created
  }

  function SumSkipped(counts: seq<FeeCount>): nat
    decreases |counts|
  {
    if counts == [] then 0 else SumSkipped(counts[..|counts| - 1]) + counts[|counts| - 1].skipped
  }

  /** What the command reports: nothing when no monthly fee exists, otherwise
      the per-fee counters and the grand totals. */
  datatype Outcome = NoMonthlyFees | Finished(counts: seq<FeeCount>, createdTotal: nat, skippedTotal: nat)

  // ---------------------------------------------------------------------
  // Properties of one fee's loop

  /** Every player is counted once, as created or as skipped, and the table
      only grows by the created rows. */
  lemma {:induction false} BillFeeCounts(t: Tally, fee: nat, def: FeeDefinition, ps: seq<nat>, links: seq<GuardianLink>,
                                         today: CalendarDate, conflicts: set<(nat, nat)>)
    ensures var r := BillFee(t, fee, def, ps, links, today, conflicts);
      && r.created + r.skipped == t.created + t.skipped + |ps|
      && r.created >= t.created
      && |r.invoices| == |t.invoices| + (r.created - t.created)
      && r.invoices[..|t.invoices|] == t.invoices
    decreases |ps|
  {
    if ps != [] {
      BillFeeCounts(t, fee, def, ps[..|ps| - 1], links, today, conflicts);
      var m := BillFee(t, fee, def, ps[..|ps| - 1], links, today, conflicts);
      var r := BillPlayer(m, fee, def, ps[|ps| - 1], links, today, conflicts);
      assert r.invoices[..|m.invoices|] == m.invoices;
      assert r.invoices[..|t.invoices|] == m.invoices[..|t.invoices|];
    }
  }

  /** What a created row holds: the fee's amount, the 10th of the month as due
      date, today's creation date, the guardian of the player's first link,
      and `pendiente` turned `atrasada` when the 10th has already passed. */
  ghost predicate GeneratedRow(inv: Invoice, fee: nat, def: FeeDefinition, ps: seq<nat>, links: seq<GuardianLink>,
                               today: CalendarDate, conflicts: set<(nat, nat)>)
  {
    && inv.fee == fee
    && inv.player.Some? && inv.player.value in ps
    && (fee, inv.player.value) !in conflicts
    && inv.amount == def.amount
    && inv.dueDate == MonthlyDueDate(today)
    && inv.createdAt == today
    && FirstLinkOf(links, inv.player.value).Some?
    && inv.guardian == links[FirstLinkOf(links, inv.player.value).value].guardian
    && inv.status == (if today.day > 10 then Atrasada else InvoiceStatus.Pendiente)
  }

  lemma {:induction false} BillFeeNewRows(t: Tally, fee: nat, def: FeeDefinition, ps: seq<nat>, links: seq<GuardianLink>,
                                          today: CalendarDate, conflicts: set<(nat, nat)>)
    ensures var r := BillFee(t, fee, def, ps, links, today, conflicts);
      forall i :: |t.invoices| <= i < |r.invoices| ==> GeneratedRow(r.invoices[i], fee, def, ps, links, today, conflicts)
    decreases |ps|
  {
    if ps != [] {
      var init := ps[..|ps| - 1];
      BillFeeNewRows(t, fee, def, init, links, today, conflicts);
      BillFeeCounts(t, fee, def, init, links, today, conflicts);
      var m := BillFee(t, fee, def, init, links, today, conflicts);
      var r := BillPlayer(m, fee, def, ps[|ps| - 1], links, today, conflicts);
      forall i | |t.invoices| <= i < |r.invoices|
        ensures GeneratedRow(r.invoices[i], fee, def, ps, links, today, conflicts)
      {
        if i < |m.invoices| {
          assert r.invoices[i] == m.invoices[i];
          assert GeneratedRow(m.invoices[i], fee, def, init, links, today, conflicts);
        } else {
          assert ps[|ps| - 1] in ps;
        }
      }
    }
  }

  /** Row `j` is the first row of its (player, fee) in the month of `today`. */
  ghost predicate FirstInMonth(invoices: seq<Invoice>, j: nat, today: Date)
    requires j < |invoices|
  {
    invoices[j].player.Some?
    && forall i :: 0 <= i < j ==> !BilledInMonth(invoices[i], invoices[j].player.value, invoices[j].fee, today)
  }

  /** No created row duplicates a (player, fee) already billed this month,
      whether the earlier row was there before or was created in this loop. */
  lemma {:induction false} BillFeeFirstInMonth(t: Tally, fee: nat, def: FeeDefinition, ps: seq<nat>, links: seq<GuardianLink>,
                                               today: CalendarDate, conflicts: set<(nat, nat)>)
    ensures var r := BillFee(t, fee, def, ps, links, today, conflicts);
      forall j :: |t.invoices| <= j < |r.invoices| ==> FirstInMonth(r.invoices, j, today)
    decreases |ps|
  {
    if ps != [] {
      var init := ps[..|ps| - 1];
      BillFeeFirstInMonth(t, fee, def, init, links, today, conflicts);
      BillFeeCounts(t, fee, def, init, links, today, conflicts);
      var m := BillFee(t, fee, def, init, links, today, conflicts);
      var r := BillPlayer(m, fee, def, ps[|ps| - 1], links, today, conflicts);
      forall j | |t.invoices| <= j < |r.invoices|
        ensures FirstInMonth(r.invoices, j, today)
      {
        if j < |m.invoices| {
          assert r.invoices[..|m.invoices|] == m.invoices;
          assert FirstInMonth(m.invoices, j, today);
          assert forall i :: 0 <= i <= j ==> r.invoices[i] == m.invoices[i];
        } else {
          assert !AlreadyBilled(m.invoices, ps[|ps| - 1], fee, today);
          assert forall i :: 0 <= i < j ==> r.invoices[i] == m.invoices[i];
        }
      }
    }
  }

  lemma AlreadyBilledGrows(a: seq<Invoice>, b: seq<Invoice>, player: nat, fee: nat, today: Date)
    requires |a| <= |b| && b[..|a|] == a
    requires AlreadyBilled(a, player, fee, today)
    ensures AlreadyBilled(b, player, fee, today)
  {
    var i :| 0 <= i < |a| && BilledInMonth(a[i], player, fee, today);
    assert b[i] == a[i];
  }

  /** Without IntegrityErrors every player with a guardian ends the loop
      billed for this month. */
  lemma {:induction false} BillFeeCovers(t: Tally, fee: nat, def: FeeDefinition, ps: seq<nat>, links: seq<GuardianLink>,
                                         today: CalendarDate, conflicts: set<(nat, nat)>)
    requires forall k :: 0 <= k < |ps| ==> (fee, ps[k]) !in conflicts
    ensures var r := BillFee(t, fee, def, ps, links, today, conflicts);
      forall k :: 0 <= k < |ps| && FirstLinkOf(links, ps[k]).Some? ==> AlreadyBilled(r.invoices, ps[k], fee, today)
    decreases |ps|
  {
    if ps != [] {
      var init := ps[..|ps| - 1];
      BillFeeCovers(t, fee, def, init, links, today, conflicts);
      var m := BillFee(t, fee, def, init, links, today, conflicts);
      var p := ps[|ps| - 1];
      var r := BillPlayer(m, fee, def, p, links, today, conflicts);
      assert r.invoices[..|m.invoices|] == m.invoices;
      forall k | 0 <= k < |ps| && FirstLinkOf(links, ps[k]).Some?
        ensures AlreadyBilled(r.invoices, ps[k], fee, today)
      {
        if k < |init| {
          assert init[k] == ps[k];
          AlreadyBilledGrows(m.invoices, r.invoices, ps[k], fee, today);
        } else if AlreadyBilled(m.invoices, p, fee, today) {
          assert r == m.(skipped := m.skipped + 1);
        } else {
          assert BilledInMonth(r.invoices[|m.invoices|], p, fee, today);
        }
      }
    }
  }

  /** Some row from index `from` on is an invoice of `player` for `fee`. */
  ghost predicate NewRowFor(invoices: seq<Invoice>, from: nat, player: nat, fee: nat) {
    exists j :: from <= j < |invoices| && invoices[j].player == Some(player) && invoices[j].fee == fee
  }

  /** `player` has a row for `fee` in `after` past the end of `before`
      exactly when, in `before`, it was not yet billed this month for that
      fee, has a guardian, and the creation does not raise IntegrityError. */
  ghost predicate PairBilledExactly(before: seq<Invoice>, after: seq<Invoice>, player: nat, fee: nat,
                                    links: seq<GuardianLink>, today: Date, conflicts: set<(nat, nat)>)
  {
    NewRowFor(after, |before|, player, fee) <==>
      !AlreadyBilled(before, player, fee, today) && FirstLinkOf(links, player).Some? && (fee, player) !in conflicts
  }

  /** Which players of the loop get a new row is decided player by player
      against the table as it was before the loop: exactly those not yet
      billed this month for the fee, with a guardian, and without an
      IntegrityError. The order of `ps` plays no part in it. */
  lemma {:induction false} BillFeeBillsExactly(t: Tally, fee: nat, def: FeeDefinition, ps: seq<nat>, links: seq<GuardianLink>,
                                               today: CalendarDate, conflicts: set<(nat, nat)>)
    requires forall a, b :: 0 <= a < b < |ps| ==> ps[a] != ps[b]
    ensures var r := BillFee(t, fee, def, ps, links, today, conflicts);
      forall p :: p in ps ==> PairBilledExactly(t.invoices, r.invoices, p, fee, links, today, conflicts)
    decreases |ps|
  {
    if ps != [] {
      var init := ps[..|ps| - 1];
      var last := ps[|ps| - 1];
      forall a, b | 0 <= a < b < |init|
        ensures init[a] != init[b]
      {
        assert init[a] == ps[a] && init[b] == ps[b];
      }
      BillFeeBillsExactly(t, fee, def, init, links, today, conflicts);
      BillFeeCounts(t, fee, def, init, links, today, conflicts);
      BillFeeNewRows(t, fee, def, init, links, today, conflicts);
      var m := BillFee(t, fee, def, init, links, today, conflicts);
      var r := BillPlayer(m, fee, def, last, links, today, conflicts);
      assert last !in init by {
        forall a | 0 <= a < |init|
          ensures init[a] != last
        {
          assert init[a] == ps[a];
        }
      }
      LastPlayerUnbilledSoFar(t.invoices, m.invoices, fee, def, init, links, today, conflicts, last);
      NoNewRowForOutsider(t.invoices, m.invoices, fee, def, init, links, today, conflicts, last);
      forall p | p in ps
        ensures PairBilledExactly(t.invoices, r.invoices, p, fee, links, today, conflicts)
      {
        if p != last {
          assert p in init by {
            var a :| 0 <= a < |ps| && ps[a] == p;
            assert a < |init| && init[a] == p;
          }
        }
        if r.invoices != m.invoices {
          var row := r.invoices[|m.invoices|];
          assert r.invoices == m.invoices + [row];
          NewRowForAppend(m.invoices, |t.invoices|, row, p, fee);
        }
      }
    }
  }

  /** Appending a row of another player does not give `player` a new row. */
  lemma NewRowForAppend(invoices: seq<Invoice>, from: nat, row: Invoice, player: nat, fee: nat)
    requires from <= |invoices|
    ensures NewRowFor(invoices + [row], from, player, fee) <==>
      NewRowFor(invoices, from, player, fee) || (row.player == Some(player) && row.fee == fee)
  {
    var s := invoices + [row];
    if NewRowFor(s, from, player, fee) && !(row.player == Some(player) && row.fee == fee) {
      var j :| from <= j < |s| && s[j].player == Some(player) && s[j].fee == fee;
      assert j < |invoices| && s[j] == invoices[j];
    }
    if NewRowFor(invoices, from, player, fee) {
      var j :| from <= j < |invoices| && invoices[j].player == Some(player) && invoices[j].fee == fee;
      assert s[j] == invoices[j];
    }
    if row.player == Some(player) && row.fee == fee {
      assert s[|invoices|] == row;
    }
  }

  /** The rows the loop over `init` created belong to players of `init`. */
  lemma NoNewRowForOutsider(before: seq<Invoice>, m: seq<Invoice>, fee: nat, def: FeeDefinition, init: seq<nat>,
                            links: seq<GuardianLink>, today: CalendarDate, conflicts: set<(nat, nat)>, last: nat)
    requires |before| <= |m|
    requires forall i :: |before| <= i < |m| ==> GeneratedRow(m[i], fee, def, init, links, today, conflicts)
    requires last !in init
    ensures !NewRowFor(m, |before|, last, fee)
  {
    forall j | |before| <= j < |m|
      ensures m[j].player != Some(last)
    {
      assert GeneratedRow(m[j], fee, def, init, links, today, conflicts);
    }
  }

  /** A player outside `init` is billed in `m`, the table after the loop over
      `init`, only if it already was before the loop. */
  lemma LastPlayerUnbilledSoFar(before: seq<Invoice>, m: seq<Invoice>, fee: nat, def: FeeDefinition, init: seq<nat>,
                                links: seq<GuardianLink>, today: CalendarDate, conflicts: set<(nat, nat)>, last: nat)
    requires |before| <= |m| && m[..|before|] == before
    requires forall i :: |before| <= i < |m| ==> GeneratedRow(m[i], fee, def, init, links, today, conflicts)
    requires last !in init
    ensures AlreadyBilled(m, last, fee, today) <==> AlreadyBilled(before, last, fee, today)
  {
    NoNewRowForOutsider(before, m, fee, def, init, links, today, conflicts, last);
    if AlreadyBilled(m, last, fee, today) {
      var i :| 0 <= i < |m| && BilledInMonth(m[i], last, fee, today);
      assert i < |before| && before[i] == m[i];
    } else if AlreadyBilled(before, last, fee, today) {
      AlreadyBilledGrows(before, m, last, fee, today);
    }
  }

  /** When every player with a guardian is already billed this month, the
      loop creates nothing and skips everyone. */
  lemma {:induction false} BillFeeAllBilled(t: Tally, fee: nat, def: FeeDefinition, ps: seq<nat>, links: seq<GuardianLink>,
                                            today: CalendarDate, conflicts: set<(nat, nat)>)
    requires forall k :: 0 <= k < |ps| && FirstLinkOf(links, ps[k]).Some? ==> AlreadyBilled(t.invoices, ps[k], fee, today)
    ensures BillFee(t, fee, def, ps, links, today, conflicts) == t.(skipped := t.skipped + |ps|)
    decreases |ps|
  {
    if ps != [] {
      var init := ps[..|ps| - 1];
      forall k | 0 <= k < |init| && FirstLinkOf(links, init[k]).Some?
        ensures AlreadyBilled(t.invoices, init[k], fee, today)
      {
        assert init[k] == ps[k];
      }
      BillFeeAllBilled(t, fee, def, init, links, today, conflicts);
    }
  }

  // ---------------------------------------------------------------------
  // Properties of the whole run

  /** Per fee, `invoices_created_fee + players_skipped_fee` is the number of
      players to bill; the table grows by exactly the created total. */
  lemma {:induction false} BillFeesCounts(invoices: seq<Invoice>, fees: seq<FeeDefinition>, feeIds: seq<nat>, players: seq<Player>,
                                          links: seq<GuardianLink>, today: CalendarDate, conflicts: set<(nat, nat)>)
    requires forall k :: 0 <= k < |feeIds| ==> feeIds[k] < |fees|
    ensures var r := BillFees(invoices, fees, feeIds, players, links, today, conflicts);
      && (forall c :: c in r.counts ==> c.fee < |fees| && c.created + c.skipped == |PlayersToBill(players, fees[c.fee].category)|)
      && |r.invoices| == |invoices| + SumCreated(r.counts)
      && r.invoices[..|invoices|] == invoices
    decreases |feeIds|
  {
    if feeIds != [] {
      var init := feeIds[..|feeIds| - 1];
      BillFeesCounts(invoices, fees, init, players, links, today, conflicts);
      var m := BillFees(invoices, fees, init, players, links, today, conflicts);
      var f := feeIds[|feeIds| - 1];
      var ps := PlayersToBill(players, fees[f].category);
      if ps != [] {
        BillFeeCounts(Tally(m.invoices, 0, 0), f, fees[f], ps, links, today, conflicts);
        var t := BillFee(Tally(m.invoices, 0, 0), f, fees[f], ps, links, today, conflicts);
        var counts := m.counts + [FeeCount(f, t.created, t.skipped)];
        assert counts[..|counts| - 1] == m.counts;
        assert t.invoices[..|invoices|] == m.invoices[..|invoices|];
      }
    }
  }

  /** Every row the run creates is a well-formed invoice of one of the fees
      run for one of the players that fee is billed to. */
  lemma {:induction false} BillFeesNewRows(invoices: seq<Invoice>, fees: seq<FeeDefinition>, feeIds: seq<nat>, players: seq<Player>,
                                           links: seq<GuardianLink>, today: CalendarDate, conflicts: set<(nat, nat)>)
    requires forall k :: 0 <= k < |feeIds| ==> feeIds[k] < |fees|
    ensures var r := BillFees(invoices, fees, feeIds, players, links, today, conflicts);
      forall i :: |invoices| <= i < |r.invoices| ==>
        var inv := r.invoices[i];
        inv.fee in feeIds && inv.fee < |fees|
        && GeneratedRow(inv, inv.fee, fees[inv.fee], PlayersToBill(players, fees[inv.fee].category), links, today, conflicts)
    decreases |feeIds|
  {
    if feeIds != [] {
      var init := feeIds[..|feeIds| - 1];
      BillFeesNewRows(invoices, fees, init, players, links, today, conflicts);
      BillFeesCounts(invoices, fees, init, players, links, today, conflicts);
      var m := BillFees(invoices, fees, init, players, links, today, conflicts);
      var f := feeIds[|feeIds| - 1];
      var ps := PlayersToBill(players, fees[f].category);
      if ps != [] {
        var t0 := Tally(m.invoices, 0, 0);
        BillFeeNewRows(t0, f, fees[f], ps, links, today, conflicts);
        BillFeeCounts(t0, f, fees[f], ps, links, today, conflicts);
        var t := BillFee(t0, f, fees[f], ps, links, today, conflicts);
        forall i | |invoices| <= i < |t.invoices|
          ensures var inv := t.invoices[i];
            inv.fee in feeIds && inv.fee < |fees|
            && GeneratedRow(inv, inv.fee, fees[inv.fee], PlayersToBill(players, fees[inv.fee].category), links, today, conflicts)
        {
          if i < |m.invoices| {
            assert t.invoices[i] == m.invoices[..|m.invoices|][i];
            assert t.invoices[i].fee in init;
          } else {
            assert feeIds[|feeIds| - 1] in feeIds;
          }
        }
      }
    }
  }

  /** The run never creates a second invoice of a (player, fee) in the
      current month. */
  lemma {:induction false} BillFeesFirstInMonth(invoices: seq<Invoice>, fees: seq<FeeDefinition>, feeIds: seq<nat>, players: seq<Player>,
                                                links: seq<GuardianLink>, today: CalendarDate, conflicts: set<(nat, nat)>)
    requires forall k :: 0 <= k < |feeIds| ==> feeIds[k] < |fees|
    ensures var r := BillFees(invoices, fees, feeIds, players, links, today, conflicts);
      forall j :: |invoices| <= j < |r.invoices| ==> FirstInMonth(r.invoices, j, today)
    decreases |feeIds|
  {
    if feeIds != [] {
      var init := feeIds[..|feeIds| - 1];
      BillFeesFirstInMonth(invoices, fees, init, players, links, today, conflicts);
      BillFeesCounts(invoices, fees, init, players, links, today, conflicts);
      var m := BillFees(invoices, fees, init, players, links, today, conflicts);
      var f := feeIds[|feeIds| - 1];
      var ps := PlayersToBill(players, fees[f].category);
      if ps != [] {
        var t0 := Tally(m.invoices, 0, 0);
        BillFeeFirstInMonth(t0, f, fees[f], ps, links, today, conflicts);
        BillFeeCounts(t0, f, fees[f], ps, links, today, conflicts);
        var t := BillFee(t0, f, fees[f], ps, links, today, conflicts);
        forall j | |invoices| <= j < |m.invoices|
          ensures FirstInMonth(t.invoices, j, today)
        {
          assert FirstInMonth(m.invoices, j, today);
          assert forall i :: 0 <= i <= j ==> t.invoices[i] == m.invoices[i];
        }
      }
    }
  }

  /** Rows of other fees appended after `a` give no (player, `fee`) pair a
      new row. */
  lemma NewRowsOtherFee(a: seq<Invoice>, b: seq<Invoice>, from: nat, player: nat, fee: nat)
    requires from <= |a| <= |b| && b[..|a|] == a
    requires forall i :: |a| <= i < |b| ==> b[i].fee != fee
    ensures NewRowFor(b, from, player, fee) <==> NewRowFor(a, from, player, fee)
  {
    if NewRowFor(b, from, player, fee) {
      var j :| from <= j < |b| && b[j].player == Some(player) && b[j].fee == fee;
      assert j < |a| && b[j] == a[j];
    }
    if NewRowFor(a, from, player, fee) {
      var j :| from <= j < |a| && a[j].player == Some(player) && a[j].fee == fee;
      assert b[j] == a[j];
    }
  }

  /** Rows of other fees between `from` and `mid` give no (player, `fee`)
      pair a row. */
  lemma SkipOtherFeeRows(b: seq<Invoice>, from: nat, mid: nat, player: nat, fee: nat)
    requires from <= mid <= |b|
    requires forall i :: from <= i < mid ==> b[i].fee != fee
    ensures NewRowFor(b, from, player, fee) <==> NewRowFor(b, mid, player, fee)
  {
  }

  /** Rows of other fees appended after `a` do not change whether a
      (player, `fee`) pair is already billed. */
  lemma BilledOtherFee(a: seq<Invoice>, b: seq<Invoice>, player: nat, fee: nat, today: Date)
    requires |a| <= |b| && b[..|a|] == a
    requires forall i :: |a| <= i < |b| ==> b[i].fee != fee
    ensures AlreadyBilled(b, player, fee, today) <==> AlreadyBilled(a, player, fee, today)
  {
    if AlreadyBilled(b, player, fee, today) {
      var i :| 0 <= i < |b| && BilledInMonth(b[i], player, fee, today);
      assert i < |a| && b[i] == a[i];
    }
    if AlreadyBilled(a, player, fee, today) {
      AlreadyBilledGrows(a, b, player, fee, today);
    }
  }

  /** `PairBilledExactly` for every fee of `feeIds` and every player that
      fee is billed to. */
  ghost predicate BillsExactly(before: seq<Invoice>, after: seq<Invoice>, fees: seq<FeeDefinition>, feeIds: seq<nat>,
                               players: seq<Player>, links: seq<GuardianLink>, today: CalendarDate, conflicts: set<(nat, nat)>)
    requires forall k :: 0 <= k < |feeIds| ==> feeIds[k] < |fees|
  {
    forall k, p :: 0 <= k < |feeIds| && p in PlayersToBill(players, fees[feeIds[k]].category) ==>
      PairBilledExactly(before, after, p, feeIds[k], links, today, conflicts)
  }

  /** One more fee `f`, whose loop turned `mid` into `after`, keeps
      `BillsExactly`: the earlier fees see only rows of `f` appended, and
      `f` sees only rows of earlier fees before its own. */
  lemma BillsExactlySnoc(before: seq<Invoice>, mid: seq<Invoice>, after: seq<Invoice>, fees: seq<FeeDefinition>,
                         init: seq<nat>, f: nat, players: seq<Player>, links: seq<GuardianLink>,
                         today: CalendarDate, conflicts: set<(nat, nat)>)
    requires forall k :: 0 <= k < |init| ==> init[k] < |fees|
    requires f < |fees| && f !in init
    requires |before| <= |mid| <= |after| && mid[..|before|] == before && after[..|mid|] == mid
    requires forall i :: |before| <= i < |mid| ==> mid[i].fee in init
    requires forall i :: |mid| <= i < |after| ==> after[i].fee == f
    requires BillsExactly(before, mid, fees, init, players, links, today, conflicts)
    requires forall p :: p in PlayersToBill(players, fees[f].category) ==>
      PairBilledExactly(mid, after, p, f, links, today, conflicts)
    ensures BillsExactly(before, after, fees, init + [f], players, links, today, conflicts)
  {
    var feeIds := init + [f];
    assert after[..|before|] == before by {
      assert after[..|before|] == mid[..|before|];
    }
    forall k, p | 0 <= k < |feeIds| && p in PlayersToBill(players, fees[feeIds[k]].category)
      ensures PairBilledExactly(before, after, p, feeIds[k], links, today, conflicts)
    {
      if k < |init| {
        assert feeIds[k] == init[k] && init[k] in init;
        NewRowsOtherFee(mid, after, |before|, p, init[k]);
        assert PairBilledExactly(before, mid, p, init[k], links, today, conflicts);
      } else {
        assert feeIds[k] == f;
        BilledOtherFee(before, mid, p, f, today);
        forall i | |before| <= i < |mid|
          ensures after[i].fee != f
        {
          assert after[i] == mid[i] && mid[i].fee in init;
        }
        SkipOtherFeeRows(after, |before|, |mid|, p, f);
        assert PairBilledExactly(mid, after, p, f, links, today, conflicts);
      }
    }
  }

  /** Over the whole run, `BillsExactly` holds between the table before and
      after it: which (player, fee) pairs are billed depends on neither the
      order of the fees nor that of the players. */
  lemma {:induction false} BillFeesBillsExactly(invoices: seq<Invoice>, fees: seq<FeeDefinition>, feeIds: seq<nat>, players: seq<Player>,
                                                links: seq<GuardianLink>, today: CalendarDate, conflicts: set<(nat, nat)>)
    requires forall k :: 0 <= k < |feeIds| ==> feeIds[k] < |fees|
    requires forall a, b :: 0 <= a < b < |feeIds| ==> feeIds[a] != feeIds[b]
    ensures BillsExactly(invoices, BillFees(invoices, fees, feeIds, players, links, today, conflicts).invoices,
                         fees, feeIds, players, links, today, conflicts)
    decreases |feeIds|
  {
    if feeIds != [] {
      var init := feeIds[..|feeIds| - 1];
      var f := feeIds[|feeIds| - 1];
      assert feeIds == init + [f];
      forall a, b | 0 <= a < b < |init|
        ensures init[a] != init[b]
      {
        assert init[a] == feeIds[a] && init[b] == feeIds[b];
      }
      assert f !in init by {
        forall a | 0 <= a < |init|
          ensures init[a] != f
        {
          assert init[a] == feeIds[a];
        }
      }
      BillFeesBillsExactly(invoices, fees, init, players, links, today, conflicts);
      BillFeesCounts(invoices, fees, init, players, links, today, conflicts);
      BillFeesNewRows(invoices, fees, init, players, links, today, conflicts);
      var m := BillFees(invoices, fees, init, players, links, today, conflicts);
      var ps := PlayersToBill(players, fees[f].category);
      if ps != [] {
        var t0 := Tally(m.invoices, 0, 0);
        BillFeeCounts(t0, f, fees[f], ps, links, today, conflicts);
        BillFeeNewRows(t0, f, fees[f], ps, links, today, conflicts);
        BillFeeBillsExactly(t0, f, fees[f], ps, links, today, conflicts);
        var t := BillFee(t0, f, fees[f], ps, links, today, conflicts);
        BillsExactlySnoc(invoices, m.invoices, t.invoices, fees, init, f, players, links, today, conflicts);
      } else {
        assert m.invoices[..|m.invoices|] == m.invoices;
        BillsExactlySnoc(invoices, m.invoices, m.invoices, fees, init, f, players, links, today, conflicts);
      }
    }
  }

  /** At most one invoice per (player, fee) among those created this month. */
  ghost predicate AtMostOnePerMonth(invoices: seq<Invoice>, today: Date) {
    forall i, j :: 0 <= i < j < |invoices| && invoices[j].player.Some?
      && BilledInMonth(invoices[j], invoices[j].player.value, invoices[j].fee, today)
      ==> !BilledInMonth(invoices[i], invoices[j].player.value, invoices[j].fee, today)
  }

  lemma RunKeepsAtMostOnePerMonth(invoices: seq<Invoice>, fees: seq<FeeDefinition>, feeIds: seq<nat>, players: seq<Player>,
                                  links: seq<GuardianLink>, today: CalendarDate, conflicts: set<(nat, nat)>)
    requires forall k :: 0 <= k < |feeIds| ==> feeIds[k] < |fees|
    requires AtMostOnePerMonth(invoices, today)
    ensures AtMostOnePerMonth(BillFees(invoices, fees, feeIds, players, links, today, conflicts).invoices, today)
  {
    var r := BillFees(invoices, fees, feeIds, players, links, today, conflicts).invoices;
    BillFeesFirstInMonth(invoices, fees, feeIds, players, links, today, conflicts);
    BillFeesCounts(invoices, fees, feeIds, players, links, today, conflicts);
    forall i, j | 0 <= i < j < |r| && r[j].player.Some? && BilledInMonth(r[j], r[j].player.value, r[j].fee, today)
      ensures !BilledInMonth(r[i], r[j].player.value, r[j].fee, today)
    {
      if j < |invoices| {
        assert r[i] == invoices[i] && r[j] == invoices[j];
      } else {
        assert FirstInMonth(r, j, today);
      }
    }
  }

  /** Every player the fee bills who has a guardian holds an invoice for it
      dated this month. */
  ghost predicate FeeCovered(invoices: seq<Invoice>, players: seq<Player>, links: seq<GuardianLink>, fee: nat,
                             category: Option<nat>, today: Date) {
    forall p :: p in PlayersToBill(players, category) && FirstLinkOf(links, p).Some? ==> AlreadyBilled(invoices, p, fee, today)
  }

  lemma FeeCoveredGrows(a: seq<Invoice>, b: seq<Invoice>, players: seq<Player>, links: seq<GuardianLink>, fee: nat,
                        category: Option<nat>, today: Date)
    requires |a| <= |b| && b[..|a|] == a
    requires FeeCovered(a, players, links, fee, category, today)
    ensures FeeCovered(b, players, links, fee, category, today)
  {
    forall p | p in PlayersToBill(players, category) && FirstLinkOf(links, p).Some?
      ensures AlreadyBilled(b, p, fee, today)
    {
      AlreadyBilledGrows(a, b, p, fee, today);
    }
  }

  /** Being billed "this month" depends only on the year and the month. */
  lemma FeeCoveredInMonth(invoices: seq<Invoice>, players: seq<Player>, links: seq<GuardianLink>, fee: nat,
                          category: Option<nat>, today1: Date, today2: Date)
    requires today1.year == today2.year && today1.month == today2.month
    requires FeeCovered(invoices, players, links, fee, category, today1)
    ensures FeeCovered(invoices, players, links, fee, category, today2)
  {
    forall p | p in PlayersToBill(players, category) && FirstLinkOf(links, p).Some?
      ensures AlreadyBilled(invoices, p, fee, today2)
    {
      var i :| 0 <= i < |invoices| && BilledInMonth(invoices[i], p, fee, today1);
      assert BilledInMonth(invoices[i], p, fee, today2);
    }
  }

  /** Without IntegrityErrors, after the run every player with a guardian is
      billed this month for every fee that applies to them. */
  lemma {:induction false} BillFeesCovers(invoices: seq<Invoice>, fees: seq<FeeDefinition>, feeIds: seq<nat>, players: seq<Player>,
                                          links: seq<GuardianLink>, today: CalendarDate)
    requires forall k :: 0 <= k < |feeIds| ==> feeIds[k] < |fees|
    ensures var r := BillFees(invoices, fees, feeIds, players, links, today, {});
      forall k :: 0 <= k < |feeIds| ==> FeeCovered(r.invoices, players, links, feeIds[k], fees[feeIds[k]].category, today)
    decreases |feeIds|
  {
    if feeIds != [] {
      var init := feeIds[..|feeIds| - 1];
      BillFeesCovers(invoices, fees, init, players, links, today);
      var m := BillFees(invoices, fees, init, players, links, today, {});
      var f := feeIds[|feeIds| - 1];
      var ps := PlayersToBill(players, fees[f].category);
      var r := BillFees(invoices, fees, feeIds, players, links, today, {});
      var t0 := Tally(m.invoices, 0, 0);
      BillFeeCovers(t0, f, fees[f], ps, links, today, {});
      BillFeeCounts(t0, f, fees[f], ps, links, today, {});
      if ps == [] {
        assert r == m;
      } else {
        assert r.invoices == BillFee(t0, f, fees[f], ps, links, today, {}).invoices;
      }
      assert |m.invoices| <= |r.invoices| && r.invoices[..|m.invoices|] == m.invoices;
      forall k | 0 <= k < |feeIds|
        ensures FeeCovered(r.invoices, players, links, feeIds[k], fees[feeIds[k]].category, today)
      {
        if k < |init| {
          assert init[k] == feeIds[k];
          FeeCoveredGrows(m.invoices, r.invoices, players, links, feeIds[k], fees[feeIds[k]].category, today);
        } else {
          assert feeIds[k] == f;
          forall p | p in ps && FirstLinkOf(links, p).Some?
            ensures AlreadyBilled(r.invoices, p, f, today)
          {
            var q :| 0 <= q < |ps| && ps[q] == p;
          }
        }
      }
    }
  }

  /** A run over fees whose players are all billed already changes nothing. */
  lemma {:induction false} BillFeesAllBilled(invoices: seq<Invoice>, fees: seq<FeeDefinition>, feeIds: seq<nat>, players: seq<Player>,
                                             links: seq<GuardianLink>, today: CalendarDate, conflicts: set<(nat, nat)>)
    requires forall k :: 0 <= k < |feeIds| ==> feeIds[k] < |fees|
    requires forall k :: 0 <= k < |feeIds| ==> FeeCovered(invoices, players, links, feeIds[k], fees[feeIds[k]].category, today)
    ensures var r := BillFees(invoices, fees, feeIds, players, links, today, conflicts);
      r.invoices == invoices && SumCreated(r.counts) == 0
    decreases |feeIds|
  {
    if feeIds != [] {
      var init := feeIds[..|feeIds| - 1];
      forall k | 0 <= k < |init|
        ensures FeeCovered(invoices, players, links, init[k], fees[init[k]].category, today)
      {
        assert init[k] == feeIds[k];
      }
      BillFeesAllBilled(invoices, fees, init, players, links, today, conflicts);
      var m := BillFees(invoices, fees, init, players, links, today, conflicts);
      var f := feeIds[|feeIds| - 1];
      var ps := PlayersToBill(players, fees[f].category);
      if ps != [] {
        var t0 := Tally(m.invoices, 0, 0);
        assert FeeCovered(invoices, players, links, f, fees[f].category, today);
        forall q | 0 <= q < |ps| && FirstLinkOf(links, ps[q]).Some?
          ensures AlreadyBilled(t0.invoices, ps[q], f, today)
        {
          assert ps[q] in ps;
        }
        BillFeeAllBilled(t0, f, fees[f], ps, links, today, conflicts);
        var counts := m.counts + [FeeCount(f, 0, |ps|)];
        assert counts[..|counts| - 1] == m.counts;
      }
    }
  }

  /** Running the command a second time in the same calendar month (any day
      of it, whatever IntegrityErrors happen then) after a run without
      IntegrityErrors creates nothing. */
  lemma SecondRunInMonthCreatesNothing(invoices: seq<Invoice>, fees: seq<FeeDefinition>, players: seq<Player>,
                                       links: seq<GuardianLink>, today1: CalendarDate, today2: CalendarDate,
                                       conflicts2: set<(nat, nat)>)
    requires today1.year == today2.year && today1.month == today2.month
    ensures var feeIds := MonthlyFees(fees);
      var r1 := BillFees(invoices, fees, feeIds, players, links, today1, {});
      var r2 := BillFees(r1.invoices, fees, feeIds, players, links, today2, conflicts2);
      r2.invoices == r1.invoices && SumCreated(r2.counts) == 0
  {
    var feeIds := MonthlyFees(fees);
    var r1 := BillFees(invoices, fees, feeIds, players, links, today1, {});
    BillFeesCovers(invoices, fees, feeIds, players, links, today1);
    forall k | 0 <= k < |feeIds|
      ensures FeeCovered(r1.invoices, players, links, feeIds[k], fees[feeIds[k]].category, today2)
    {
      FeeCoveredInMonth(r1.invoices, players, links, feeIds[k], fees[feeIds[k]].category, today1, today2);
    }
    BillFeesAllBilled(r1.invoices, fees, feeIds, players, links, today2, conflicts2);
  }

  /** The command's run over the monthly fees bills exactly the pairs
      `BillsExactly` names, whatever order the fees and players are read in. */
  lemma RunBillsExactly(invoices: seq<Invoice>, fees: seq<FeeDefinition>, players: seq<Player>,
                        links: seq<GuardianLink>, today: CalendarDate, conflicts: set<(nat, nat)>)
    ensures var feeIds := MonthlyFees(fees);
      BillsExactly(invoices, BillFees(invoices, fees, feeIds, players, links, today, conflicts).invoices,
                   fees, feeIds, players, links, today, conflicts)
  {
    var feeIds := MonthlyFees(fees);
    BillFeesBillsExactly(invoices, fees, feeIds, players, links, today, conflicts);
  }

  // ---------------------------------------------------------------------
  // The command

  /** One more fee at the end of the outer loop. */
  lemma BillFeesSnoc(invoices: seq<Invoice>, fees: seq<FeeDefinition>, feeIds: seq<nat>, f: nat, players: seq<Player>,
                     links: seq<GuardianLink>, today: CalendarDate, conflicts: set<(nat, nat)>)
    requires forall k :: 0 <= k < |feeIds| ==> feeIds[k] < |fees|
    requires f < |fees|
    ensures var r := BillFees(invoices, fees, feeIds, players, links, today, conflicts);
      var ps := PlayersToBill(players, fees[f].category);
      var t := BillFee(Tally(r.invoices, 0, 0), f, fees[f], ps, links, today, conflicts);
      BillFees(invoices, fees, feeIds + [f], players, links, today, conflicts)
        == if ps == [] then r else Run(t.invoices, r.counts + [FeeCount(f, t.created, t.skipped)])
  {
    assert (feeIds + [f])[..|feeIds|] == feeIds;
  }

  lemma SumsSnoc(counts: seq<FeeCount>, c: FeeCount)
    ensures SumCreated(counts + [c]) == SumCreated(counts) + c.created
    ensures SumSkipped(counts + [c]) == SumSkipped(counts) + c.skipped
  {
    assert (counts + [c])[..|counts|] == counts;
  }

  /** The inner loop of `Command.handle` for one fee: `toBill` are the
      players to bill, in order. */
  method BillOneFee(ledger: Ledger, links: seq<GuardianLink>, f: nat, def: FeeDefinition, toBill: seq<nat>,
                    today: CalendarDate, conflicts: set<(nat, nat)>)
    returns (createdFee: nat, skippedFee: nat)
    requires ledger.Valid()
    modifies ledger
    ensures ledger.Valid()
    ensures ledger.fees == old(ledger.fees) && ledger.payments == old(ledger.payments)
    ensures Tally(ledger.invoices, createdFee, skippedFee)
      == BillFee(Tally(old(ledger.invoices), 0, 0), f, def, toBill, links, today, conflicts)
  {
    var dueDate := MonthlyDueDate(today);
    createdFee, skippedFee := 0, 0;
    for pi := 0 to |toBill|
      invariant ledger.Valid()
      invariant ledger.fees == old(ledger.fees) && ledger.payments == old(ledger.payments)
      invariant Tally(ledger.invoices, createdFee, skippedFee)
        == BillFee(Tally(old(ledger.invoices), 0, 0), f, def, toBill[..pi], links, today, conflicts)
    {
      assert toBill[..pi + 1][..pi] == toBill[..pi];
      var p := toBill[pi];
      var invoiceExists := AlreadyBilled(ledger.invoices, p, f, today);
      if !invoiceExists {
        var link := FirstLinkOf(links, p);
        if link.Some? {
          if (f, p) !in conflicts {
            var _ := ledger.CreateInvoice(
              Invoice(links[link.value].guardian, Some(p), f, def.amount, dueDate, InvoiceStatus.Pendiente, today), today);
            createdFee := createdFee + 1;
          } else {
            skippedFee := skippedFee + 1;
          }
        } else {
          skippedFee := skippedFee + 1;
        }
      } else {
        skippedFee := skippedFee + 1;
      }
    }
    assert toBill[..|toBill|] == toBill;
  }

  /** One pass of the outer loop of `Command.handle`, for the fee `f`:
      bill its players when it has any, and record its counters. */
  method RunFee(ledger: Ledger, fees: seq<FeeDefinition>, players: seq<Player>, links: seq<GuardianLink>, f: nat,
                today: CalendarDate, conflicts: set<(nat, nat)>, ghost start: seq<Invoice>, ghost done: seq<nat>,
                counts: seq<FeeCount>, createdTotal: nat, skippedTotal: nat)
    returns (counts': seq<FeeCount>, createdTotal': nat, skippedTotal': nat)
    requires ledger.Valid() && ledger.fees == fees && f < |fees|
    requires forall k :: 0 <= k < |done| ==> done[k] < |fees|
    requires Run(ledger.invoices, counts) == BillFees(start, fees, done, players, links, today, conflicts)
    requires createdTotal == SumCreated(counts) && skippedTotal == SumSkipped(counts)
    modifies ledger
    ensures ledger.Valid()
    ensures ledger.fees == fees && ledger.payments == old(ledger.payments)
    ensures Run(ledger.invoices, counts') == BillFees(start, fees, done + [f], players, links, today, conflicts)
    ensures createdTotal' == SumCreated(counts') && skippedTotal' == SumSkipped(counts')
  {
    BillFeesSnoc(start, fees, done, f, players, links, today, conflicts);
    var def := fees[f];
    var toBill := PlayersToBill(players, def.category);
    counts', createdTotal', skippedTotal' := counts, createdTotal, skippedTotal;
    if toBill != [] {
      var createdFee, skippedFee := BillOneFee(ledger, links, f, def, toBill, today, conflicts);
      SumsSnoc(counts, FeeCount(f, createdFee, skippedFee));
      counts' := counts + [FeeCount(f, createdFee, skippedFee)];
      createdTotal', skippedTotal' := createdTotal + createdFee, skippedTotal + skippedFee;
    }
  }

  /** The outer loop of `Command.handle`, over the monthly fees `monthly`. */
  method RunFees(ledger: Ledger, fees: seq<FeeDefinition>, players: seq<Player>, links: seq<GuardianLink>,
                 monthly: seq<nat>, today: CalendarDate, conflicts: set<(nat, nat)>)
    returns (counts: seq<FeeCount>, createdTotal: nat, skippedTotal: nat)
    requires ledger.Valid() && ledger.fees == fees
    requires forall k :: 0 <= k < |monthly| ==> monthly[k] < |fees|
    modifies ledger
    ensures ledger.Valid()
    ensures ledger.fees == fees && ledger.payments == old(ledger.payments)
    ensures Run(ledger.invoices, counts) == BillFees(old(ledger.invoices), fees, monthly, players, links, today, conflicts)
    ensures createdTotal == SumCreated(counts) && skippedTotal == SumSkipped(counts)
  {
    ghost var start := ledger.invoices;
    createdTotal, skippedTotal := 0, 0;
    counts := [];
    for fi := 0 to |monthly|
      invariant ledger.Valid()
      invariant ledger.fees == fees && ledger.payments == old(ledger.payments)
      invariant Run(ledger.invoices, counts) == BillFees(start, fees, monthly[..fi], players, links, today, conflicts)
      invariant createdTotal == SumCreated(counts) && skippedTotal == SumSkipped(counts)
    {
      var f := monthly[fi];
      assert monthly[..fi + 1] == monthly[..fi] + [f];
      counts, createdTotal, skippedTotal :=
        RunFee(ledger, fees, players, links, f, today, conflicts, start, monthly[..fi], counts, createdTotal, skippedTotal);
    }
    assert monthly[..|monthly|] == monthly;
  }

  /** `Command.handle`. `today` is `timezone.now().date()`; `conflicts` are
      the (fee, player) pairs whose `Invoice.objects.create` raises
      IntegrityError. */
  method GenerateMonthlyInvoices(ledger: Ledger, roster: Roster, today: CalendarDate, conflicts: set<(nat, nat)>)
    returns (outcome: Outcome)
    requires ledger.Valid()
    modifies ledger
    ensures ledger.Valid()
    ensures ledger.fees == old(ledger.fees) && ledger.payments == old(ledger.payments)
    ensures var monthly := MonthlyFees(ledger.fees);
      var run := BillFees(old(ledger.invoices), ledger.fees, monthly, roster.players, roster.links, today, conflicts);
      if monthly == [] then outcome == NoMonthlyFees && ledger.invoices == old(ledger.invoices)
      else outcome == Finished(run.counts, SumCreated(run.counts), SumSkipped(run.counts)) && ledger.invoices == run.invoices
  {
    var monthly := MonthlyFees(ledger.fees);
    if monthly == [] {
      return NoMonthlyFees;
    }
    var counts, createdTotal, skippedTotal := RunFees(ledger, ledger.fees, roster.players, roster.links, monthly, today, conflicts);
    outcome := Finished(counts, createdTotal, skippedTotal);
  }
}
