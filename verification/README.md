# Club billing: a verified model

This project models the billing core of a Django app for a sports club, and proves properties of that model. The app keeps players and their guardians, bills monthly and one-off fees as invoices, records payments against them, and runs a small support-ticket desk.

The model covers these parts:

- **Invoice save rule.** An invoice is `pendiente`, `pagada` or `atrasada`. Every save of a `pendiente` invoice whose due date has passed stores it as `atrasada`.
- **Payment cascade.** A payment is `pendiente`, `completado`, `fallido` or `reembolsado`. Saving a `completado` payment marks its invoice `pagada`.
- **Monthly generator.** The `generate_monthly_invoices` command loops over the monthly fees, and for each fee over the active players it applies to. It bills each such player at most once per fee and calendar month, through the player's first guardian link. It keeps per-fee and total created/skipped counters.
- **Admin operations:**
  - approve and reject a payment;
  - mass-assign a fee to a category;
  - the admin bulk actions that write with `queryset.update` and so bypass `save`;
  - the featured-players cap of four;
  - the category registration toggle;
  - admin ticket replies and closing.
- **Read-side totals.** These are the dashboard figures, the player-detail debt and the financial report, including its 20 latest completed payments.
- **Guardian ticket views.** Creating a ticket, replying to it, and the owner-only ticket list.
- **Derived fields.** Player age and full name, the birthday list's age column, and the activity duration column.

## How the model is built

- Each database table is a `seq` field of a class, and a row's primary key is its position:
  - `Finance.Ledger` holds fees, invoices and payments;
  - `Players.Roster` holds categories, players and guardian links;
  - `Tickets.Desk` holds tickets and replies;
  - `Schedules.Calendar` holds activities.
- Views and commands are methods over those objects. Each method's postcondition gives the whole new state.
- Loops are proved in one of two ways:
  - a loop that appends rows in order is proved against a pure fold function over the same data, and the properties are then proved about that function: `MonthlyInvoices.BillFee` / `MonthlyInvoices.BillFees` for the generator, `AdminViews.AssignLinks` for fee assignment;
  - the bulk-action loop over a set of payments (`FinanceAdmin.SaveInvoicesOf`) carries a closed-form invariant: the invoices of the payments handled so far are saved, and every other row is as before.
- Amounts are integer cents. Dates are (year, month, day) triples, compared in lexicographic order. Instants are whole seconds.
- "Today" is a parameter. A `POST` request is a boolean parameter, and so are the `is_admin` / `is_guardian` checks made inside a view body.
- Statuses are datatypes whose constructors carry the Spanish names. `Finance.InvoiceStatusCode` and the other `...Code` functions give the exact stored strings.

### Where the code and the model differ

- The generator and `assign_fees_to_category` select players with `status='active'` (core/management/commands/generate_monthly_invoices.py:45, users/admin_views.py:437). But `Player` declares a boolean `is_active` and no `status` field (players/models.py:27). As written, both lookups raise `FieldError`. The model encodes the evident intent and reads both selections as the declared active flag.
- The admin views read and write `Player.is_featured` and `Category.is_registration_open` (users/admin_views.py:409-412, users/admin_views.py:427). Neither field is declared in players/models.py. As written, `update(is_featured=...)` raises `FieldError` and reading `category.is_registration_open` raises `AttributeError`. The model encodes the evident intent and gives `Player` and `Category` these fields.
- The dashboard's pending filter also names `en revisión` (users/admin_views.py:41). That is not an invoice status, so it selects nothing. `AdminViews.Dashboard` proves the filter equals `pendiente` alone.

## Model

| member | source | states |
|---|---|---|
| Finance.InvoiceStatusFromCode | finance/models.py:36-40 | exactly the three invoice choices read back as a status, and each reads back to its own code |
| Finance.PaymentStatusFromCode | finance/models.py:74-79 | exactly the four payment choices read back as a status, and each reads back to its own code |
| Finance.StatusCodesRoundTrip | finance/models.py:36-40 | every invoice status, and every payment status (lines 74-79), is stored as one of its choices and read back unchanged |
| Finance.DefaultsArePendiente | finance/models.py:47 | invoices default to the stored code `pendiente`, and so do payments (line 92) |
| Finance.Saved | finance/models.py:59-69 | a save changes only the status; afterwards the invoice is never overdue; an overdue invoice becomes `atrasada`; any other invoice is stored unchanged |
| Finance.SaveIdempotent | finance/models.py:65-69 | saving a saved invoice again on the same day changes nothing |
| Finance.SaveKeepsSettled | finance/models.py:65-69 | a save never changes a `pagada` or `atrasada` status |
| Finance.SaveLater | finance/models.py:59-69 | saving on an earlier day and again later gives the same row as saving only later, so overdue is a lazy rule |
| Finance.Reopened | finance/models.py:65-69 | writing `pendiente` and saving stores `atrasada` exactly when the due date has passed, and changes nothing but the status |
| Finance.Created | finance/models.py:47-69 | a created invoice is stamped with today's date, is not overdue, keeps every requested field but the status, and a `pendiente` request is stored as `atrasada` exactly when already past due |
| Finance.PaymentCascade | finance/models.py:105-110 | saving a `completado` payment leaves its invoice `pagada`; no other invoice is touched; another payment status, or an invoice already `pagada`, leaves the table as it was |
| Finance.InvoiceTotal | users/admin_views.py:40-42 | a status-filtered sum of amounts is 0 when no row matches, and non-negative for non-negative amounts |
| Finance.PaymentTotal | users/admin_views.py:43 | the sum over the payments with one status is 0 when none has it, and non-negative for non-negative amounts |
| Finance.InvoiceTotalSplit | users/admin_views.py:40-42 | filters on disjoint status sets add up |
| Finance.InvoiceTotalIgnoresUnknownCodes | users/admin_views.py:41 | codes that name no status add nothing to a filter |
| Finance.InvoiceTotalAllCodes | finance/models.py:36-40 | filtering on all three status choices sums the whole table |
| Finance.Ledger.SaveInvoice | finance/models.py:65-69 | `Invoice.save` on an existing row stores the saved row and changes nothing else |
| Finance.Ledger.CreateInvoice | finance/models.py:65-69 | `Invoice.objects.create` appends the created row at the next primary key |
| Finance.Ledger.SavePayment | finance/models.py:105-110 | `Payment.save` stores the payment, and the invoice table becomes its cascade |
| Finance.Ledger.UpdateInvoiceStatus | finance/admin.py:56 | `update` sets the status of exactly the selected invoices, with no save rule, and reports how many |
| Finance.Ledger.UpdatePaymentStatus | finance/admin.py:104 | `update` sets the status of exactly the selected payments, with no cascade, and reports how many |
| Dates.ReplaceDay | core/management/commands/generate_monthly_invoices.py:21 | `date.replace(day=...)` succeeds exactly when the day exists in that month, and keeps the year and month |
| Players.NewPlayer | players/models.py:27 | a new player is active (and not featured) |
| Players.FullName | players/models.py:39-40 | the full name is the first name, one space, then the last name |
| Players.FullNameDetermines | players/models.py:39-40 | when first names have no space, equal full names mean equal first and last names |
| Players.Age | players/models.py:42-46 | the age is the year difference or one less |
| Players.AgeCountsBirthdays | players/models.py:46 | the age is at least `k` exactly when the `k`-th birthday has come |
| Players.AgeOnBirthday | players/models.py:46 | on the `k`-th birthday the age is `k` |
| Players.AgeBetweenBirthdays | players/models.py:46 | between two consecutive birthdays the age is constant |
| Players.AgeNonNegative | players/models.py:42-46 | the age is non-negative from the birth date on |
| Players.AgeMonotone | players/models.py:42-46 | the age never decreases as the days go by |
| Players.FirstLinkOf | core/management/commands/generate_monthly_invoices.py:71 | `.first()` finds the lowest-keyed link of the player, and none exactly when the player has no link |
| Players.FeaturedCount | users/admin_views.py:412 | the number of featured players is at most the number of players |
| Players.FeaturedAtMostListed | users/admin_views.py:409-410 | when exactly the listed players are featured, there are no more featured players than listed ids |
| Players.Roster.CreateLink | players/models.py:67 | a link is added exactly when the (guardian, player) pair is not linked yet, so links stay unique |
| Players.Roster.UpdateAllFeatured | users/admin_views.py:409 | every player's featured flag is set, and nothing else changes |
| Players.Roster.UpdateFeaturedIn | users/admin_views.py:410 | exactly the listed players' featured flag is set, and nothing else changes |
| Players.Roster.SaveCategory | users/admin_views.py:427 | saving a category replaces that row only |
| MonthlyInvoices.MonthlyDueDate | core/management/commands/generate_monthly_invoices.py:20-21 | the due date is day 10 of the current month and year |
| MonthlyInvoices.DayTenAlwaysExists | core/management/commands/generate_monthly_invoices.py:20-26 | `replace(day=10)` always succeeds, so the last-day fallback never runs |
| MonthlyInvoices.PlayersToBill | core/management/commands/generate_monthly_invoices.py:45-49 | the players billed for a fee are exactly the active ones, narrowed to the fee's category when it has one, each once, in primary-key order (see "Left out") |
| MonthlyInvoices.MonthlyFees | core/management/commands/generate_monthly_invoices.py:31 | the fees run are exactly those with period `mensual`, each once, in primary-key order (see "Left out") |
| MonthlyInvoices.BillFeeCounts | core/management/commands/generate_monthly_invoices.py:55-90 | per fee, created plus skipped is the number of players to bill; the table keeps its old rows and grows by the created count |
| MonthlyInvoices.BillFeeNewRows | core/management/commands/generate_monthly_invoices.py:71-82 | each created invoice has the fee's amount, day 10 as due date and today's creation date; it uses the guardian of the player's first link and a player with no IntegrityError, and is `pendiente`, or `atrasada` after the 10th |
| MonthlyInvoices.BillFeeFirstInMonth | core/management/commands/generate_monthly_invoices.py:62-69 | no created invoice repeats a (player, fee) already billed in the current month |
| MonthlyInvoices.BillFeeCovers | core/management/commands/generate_monthly_invoices.py:59-83 | without IntegrityErrors, every player with a guardian is billed this month once the fee's loop ends |
| MonthlyInvoices.BillFeeAllBilled | core/management/commands/generate_monthly_invoices.py:62-90 | when every player with a guardian is already billed this month, the loop creates nothing and skips them all |
| MonthlyInvoices.BillFeesCounts | core/management/commands/generate_monthly_invoices.py:41-96 | every reported fee has created plus skipped equal to its number of players to bill; the table grows by exactly the created total |
| MonthlyInvoices.BillFeesNewRows | core/management/commands/generate_monthly_invoices.py:41-82 | every invoice the run creates is a well-formed row of a monthly fee, for a player that fee bills |
| MonthlyInvoices.BillFeesFirstInMonth | core/management/commands/generate_monthly_invoices.py:41-69 | across all fees, no created invoice repeats a (player, fee) of the current month |
| MonthlyInvoices.RunKeepsAtMostOnePerMonth | core/management/commands/generate_monthly_invoices.py:62-83 | if each (player, fee) had at most one invoice this month before the run, that still holds after it |
| MonthlyInvoices.BillFeesCovers | core/management/commands/generate_monthly_invoices.py:41-83 | without IntegrityErrors, after the run every player with a guardian is billed this month for every fee that applies |
| MonthlyInvoices.BillFeesAllBilled | core/management/commands/generate_monthly_invoices.py:41-90 | a run in which everyone is billed already changes nothing and creates nothing |
| MonthlyInvoices.BillFeeBillsExactly | core/management/commands/generate_monthly_invoices.py:59-83 | within one fee's loop, a player gets a new invoice exactly when, in the table as it was before the loop, it had none for the fee this month, has a guardian link, and its creation raises no IntegrityError; so the order of the players does not decide who is billed |
| MonthlyInvoices.BillFeesBillsExactly | core/management/commands/generate_monthly_invoices.py:41-83 | the same over the whole run, for every fee and every player the fee applies to, measured against the table before the run; so neither the fee order nor the player order decides which pairs are billed |
| MonthlyInvoices.RunBillsExactly | core/management/commands/generate_monthly_invoices.py:31-83 | the command's run over the monthly fees bills exactly those (player, fee) pairs |
| MonthlyInvoices.SecondRunInMonthCreatesNothing | core/management/commands/generate_monthly_invoices.py:62-69 | a second run in the same calendar month, on any day of it, leaves the table unchanged and creates 0 invoices |
| MonthlyInvoices.BillOneFee | core/management/commands/generate_monthly_invoices.py:55-90 | the inner loop leaves the table and the two counters as the fold over the players says |
| MonthlyInvoices.RunFee | core/management/commands/generate_monthly_invoices.py:41-96 | one pass of the fee loop: a fee with no player to bill is passed over with no counters; otherwise the table grows as the fold over its players says, and the fee's counters are appended and added to the totals |
| MonthlyInvoices.RunFees | core/management/commands/generate_monthly_invoices.py:37-96 | the fee loop leaves the table and the counters as the fold over the fees says, and the totals are the sums of the per-fee counters |
| MonthlyInvoices.GenerateMonthlyInvoices | core/management/commands/generate_monthly_invoices.py:13-96 | with no monthly fee the command stops and changes nothing; otherwise the table, the per-fee counters and the totals (the sums of the per-fee counts) are the fold over the fees |
| AdminViews.Dashboard | users/admin_views.py:40-43 | paid is the `pagada` total, pending the `pendiente` total alone, overdue the `atrasada` total, and together they are the whole invoice table; each is 0 when no row has its status and non-negative for non-negative amounts; funds are the `completado` payments |
| AdminViews.ThreeStatusesSplit | users/admin_views.py:40-43 | the `pagada`, `pendiente` and `atrasada` totals add up to the sum over the whole invoice table |
| AdminViews.StatusAbsentTotal | users/admin_views.py:40-43 | a status no invoice has totals 0 |
| AdminViews.PlayerInvoices | users/admin_views.py:287 | the player's invoices are exactly those whose player is this one, each as many times as it occurs in the table |
| Queries.FilterMultiset | users/admin_views.py:287 | a filter keeps every matching row as many times as it occurs and drops every other row |
| AdminViews.PlayerLinks | users/admin_views.py:290 | the player's links are exactly those naming this player |
| Queries.FilterPartition | users/admin_views.py:291-292 | `filter` and `exclude` on complementary conditions split the rows between them |
| AdminViews.AmountSumOfFilter | users/admin_views.py:293 | summing a status-filtered queryset equals summing the rows with those status codes |
| AdminViews.PlayerDetailView | users/admin_views.py:285-293 | 404 exactly for an unknown player; paid and unpaid invoices partition the player's invoices; the debt is the unpaid sum, equal to the `pendiente`-plus-`atrasada` total, and paid plus debt is everything billed to the player |
| AdminViews.ApprovePayment | users/admin_views.py:255-260 | on POST, whatever the prior statuses, the payment becomes `completado` and its invoice `pagada`; nothing else changes; 404 for an unknown payment; non-POST changes nothing |
| AdminViews.RejectPayment | users/admin_views.py:264-269 | on POST the payment becomes `fallido` and its invoice is reopened (`atrasada` once past due, else `pendiente`); 404 for an unknown payment; non-POST changes nothing |
| AdminViews.CategoryLinks | users/admin_views.py:437 | the links iterated are exactly those of active players in the category |
| AdminViews.AssignLinksGrows | users/admin_views.py:437-439 | the loop only appends, at most one invoice per link |
| AdminViews.AssignNewRows | users/admin_views.py:437-439 | each assigned invoice has the fee's amount and the chosen due date, a guardian linked to the player, and is `pendiente` (or `atrasada` when the date is already past) |
| AdminViews.AssignFirstForFee | users/admin_views.py:438-439 | an invoice is created only for a player never billed for the fee, and at most once per player even with several guardian links |
| AdminViews.AssignCovers | users/admin_views.py:437-439 | afterwards every linked active player of the category has an invoice for the fee |
| AdminViews.AssignAllBilled | users/admin_views.py:438 | when everyone is billed for the fee already, the loop adds nothing |
| AdminViews.AssignRepeatCreatesNothing | users/admin_views.py:437-439 | repeating the assignment creates nothing, whatever due date or day |
| AdminViews.AssignFeesToCategory | users/admin_views.py:432-441 | a valid POST leaves the invoice table as the fold over the category's links; anything else only shows the form and changes nothing |
| AdminViews.AssignAll | users/admin_views.py:437-439 | the loop over the links leaves the invoice table as the fold over them, in order, and touches neither fees nor payments |
| AdminViews.AssignOne | users/admin_views.py:438-439 | one step of the loop: the table becomes what one link adds to it |
| AdminViews.ManageFeaturedPlayers | users/admin_views.py:405-412 | more than four ids are refused and change nothing; otherwise exactly the listed players are featured, so at most four, and nothing else changes |
| AdminViews.RegistrationToggled | users/admin_views.py:427 | toggling flips the registration flag and keeps the name |
| AdminViews.ToggleTwiceRestores | users/admin_views.py:427 | toggling twice restores the category |
| AdminViews.ToggleCategoryRegistration | users/admin_views.py:424-428 | on POST the category's flag flips (404 for an unknown one); otherwise nothing changes |
| AdminViews.ViewAdminTicket | users/admin_views.py:454-462 | 404 for an unknown ticket; a non-blank admin reply is appended (stripped) and the ticket becomes `respondido`; anything else changes nothing |
| AdminViews.CloseAdminTicket | users/admin_views.py:466-470 | a POST closes the ticket (404 for an unknown one); other methods change nothing |
| FinanceAdmin.InvoicesOf | finance/admin.py:106-107 | the invoices touched are exactly those of the selected payments |
| FinanceAdmin.MarkAsPaid | finance/admin.py:55-57 | every selected invoice becomes `pagada`; the others are unchanged; the count is the number selected |
| FinanceAdmin.MarkAsPending | finance/admin.py:60-62 | every selected invoice becomes `pendiente` even past due; the others are unchanged; the count is the number selected |
| FinanceAdmin.UpdateSkipsOverdueRule | finance/admin.py:60-62 | for a past-due invoice, `update` to `pendiente` leaves it overdue, while the save path stores `atrasada` |
| FinanceAdmin.ReopenedIdempotent | finance/admin.py:115-117 | re-saving a reopened invoice changes nothing, so the order of the loop does not matter |
| FinanceAdmin.Matching | finance/admin.py:72 | the action's queryset yields exactly the selected payments that pass the changelist's `status` filter, if one is set |
| FinanceAdmin.MatchingAfterUpdate | finance/admin.py:72 | after `update(status=s)`, reading the queryset again yields all its rows when no status filter is set or the filter asks for `s`, and none under a filter for another status |
| FinanceAdmin.SavedStep | finance/admin.py:105-107 | saving one more payment's invoice with the same status extends the saved set by that invoice, even when an earlier payment already saved it |
| FinanceAdmin.SaveInvoicesOf | finance/admin.py:105-107 | the loop saves each invoice of the payments it reads exactly once with the assigned status, in any order, and changes no other row |
| FinanceAdmin.MarkAsCompleted | finance/admin.py:103-109 | the payments of the queryset become `completado`, and the count is their number; then exactly the invoices of the payments the re-read queryset yields become `pagada`, which is all of them without a status filter or under `completado`, and none under a filter for another status; nothing else changes |
| FinanceAdmin.MarkAsFailed | finance/admin.py:112-118 | the payments of the queryset become `fallido`, and the count is their number; then exactly the invoices of the payments the re-read queryset yields are reopened (`atrasada` when past due), which is all of them without a status filter or under `fallido`, and none under a filter for another status; nothing else changes |
| FinanceViews.InsertKeepsPayments | finance/views.py:18 | inserting into the ordering keeps every payment |
| FinanceViews.InsertKeepsOrder | finance/views.py:18 | inserting into a latest-first sequence keeps it latest first |
| FinanceViews.PrefixSubMultiset | finance/views.py:18 | slicing `[:20]` off an ordering of the payments never yields a payment more often than it occurs |
| FinanceViews.SortByPaidAt | finance/views.py:18 | `order_by('-paid_at')` is a permutation, latest first |
| FinanceViews.PrefixIsLatest | finance/views.py:18 | the first `n` of a latest-first ordering are latest first, form a sub-multiset of the ordered payments, and are at least as recent as every payment left out |
| FinanceViews.RecentPaymentsAreLatest | finance/views.py:18 | the recent list holds min(20, number completed) completed payments, a sub-multiset of them (none repeated), latest first, and none left out is later than one listed |
| FinanceViews.FinancialReport | finance/views.py:12-24 | a non-admin gets nothing computed; income is the `completado` sum; the pending amount is everything not `pagada`, non-negative for non-negative amounts |
| FinanceViews.ReportMatchesDashboard | finance/views.py:15-16 | the report's income is the dashboard's funds, and its pending amount is the dashboard's pending plus overdue quotas |
| Tickets.TicketStatusCode | tickets/models.py:8-12 | every ticket status is stored as one of the three choice codes `abierto`, `respondido`, `cerrado` |
| Tickets.TicketStatusFromCode | tickets/models.py:8-12 | a stored string is read back exactly when it is one of the three choice codes, and then as the status whose code it is |
| Tickets.TicketStatusCodeRoundTrip | tickets/models.py:8-12 | reading back the code of a status gives that status |
| Tickets.TicketStatusCodeInjective | tickets/models.py:8-12 | different statuses are stored as different codes |
| Tickets.CleanText | tickets/forms.py:24-30 | a required text field accepts exactly the values that are non-blank (and within the length limit) once stripped, and cleans them to the stripped value |
| Tickets.CleanTicketForm | tickets/forms.py:4-16 | the ticket form is valid exactly when the subject and the message are non-blank and the stripped subject has at most 200 characters |
| Tickets.Thread | tickets/models.py:31 | a ticket's replies are exactly the replies naming it, each as many times as it was posted |
| Tickets.ReplyExtendsThread | tickets/views.py:72-75 | a new reply extends its own ticket's thread by exactly itself and leaves every other thread alone |
| Tickets.NewestFirst | tickets/models.py:22 | the listed keys are exactly the user's tickets, newest first |
| Tickets.ListTickets | tickets/views.py:8-20 | a non-guardian is turned away; a guardian gets exactly their own tickets |
| Tickets.Desk.AddTicket | tickets/views.py:33-36 | a new ticket is appended at the next key |
| Tickets.Desk.AddReply | tickets/views.py:72-75 | a reply is appended to an existing ticket |
| Tickets.Desk.SetStatus | tickets/views.py:78-79 | only that ticket's status changes |
| Tickets.CreateTicket | tickets/views.py:22-46 | a guardian's valid POST creates one `abierto` ticket they own, plus one reply with the cleaned message; anything else creates nothing |
| Tickets.ViewTicket | tickets/views.py:56-84 | only the owner finds the ticket (404 otherwise); a non-blank reply is appended and reopens the ticket from any status, `cerrado` included; a GET changes nothing |
| Schedules.ActivityTypeCode | schedules/models.py:31-34 | an activity type is stored as one of the two choices `entrenamiento` or `otro` |
| Schedules.ActivityTypeFromCode | schedules/models.py:31-34 | a stored string is read back exactly when it is one of the two choices, and then as the type whose code it is |
| Schedules.ActivityTypeCodeRoundTrip | schedules/models.py:31-34 | `entrenamiento` is stored as "entrenamiento" and `otro` as "otro", and each reads back to its own type |
| Schedules.ClockOf | schedules/models.py:58-60 | a duration splits into days and a time of day that add back up to it |
| Schedules.ClockOfTotal | schedules/models.py:58-60 | that split is unique: every normalised clock is the split of its own total |
| Schedules.TimedeltaStr | schedules/admin.py:109 | `str(timedelta)` is non-empty and ends in a digit, and a zero duration is `0:00:00` |
| Schedules.DayPart | schedules/admin.py:109 | the day part of `str(timedelta)` is empty exactly for a zero day count and otherwise ends in a space |
| Schedules.DayPartInjective | schedules/admin.py:109 | different day counts give different day parts |
| Schedules.ClockTextInjective | schedules/admin.py:109 | two normalised clocks shown the same way are the same clock |
| Schedules.TimedeltaStrInjective | schedules/admin.py:109 | different durations are shown as different texts, so the column determines the duration |
| Text.NatToStringValue | schedules/admin.py:109 | the decimal digits written for a number spell that number |
| Text.IntToStringInjective | schedules/admin.py:146 | different integers are written differently, sign included |
| Text.TwoDigitsValue | schedules/admin.py:109 | the two zero-padded digits of minutes and seconds spell the number |
| Schedules.DurationDisplay | schedules/admin.py:107-110 | the column shows `N/A` exactly when the duration is zero, and otherwise the duration |
| Schedules.AgeDisplay | schedules/admin.py:143-147 | the column is the age the `Player.age` formula gives for the birthday's date (the year difference or one less), followed by ` años` |
| Schedules.Calendar.UpdateKind | schedules/admin.py:114 | `update(type=...)` retypes exactly the selected activities and reports how many |
| Schedules.MarkAsTraining | schedules/admin.py:113-115 | the selected activities become `entrenamiento`, the others are unchanged, and the count is the number selected |
| Schedules.MarkAsOther | schedules/admin.py:118-120 | the selected activities become `otro`, the others are unchanged, and the count is the number selected |

## Left out

- **Guardian payment submission:** proof upload, the "in review" step and paying several invoices at once. The repository names these views, but no implementation of them exists. `en revisión` appears only as a filter code, and no status of that name is modelled.
- **Transaction ledger:** `admin_finances` and `add_transaction`. They query fields that the `Transaction` model does not declare, and they are outside the invoice/payment rules.
- **Other code:**
  - the seed and reset commands;
  - the guardian dashboard views;
  - sponsors, news, communications and email sending.
- **Dashboard counters.** Of `admin_dashboard`, only the money totals are modelled. The counts of players, guardians, registrations and sponsors, the monthly counts and the "recent" lists are left out.
- **Authentication decorators.** The admin views are modelled for an admin caller. The `is_admin` / `is_guardian` checks inside view bodies are boolean parameters.
- **Presentation:**
  - rendering, messages, redirect targets, pagination and JSON responses;
  - file uploads;
  - the player documents on the detail page.
- **Timestamps.** `created_at` is kept as a date, and only on invoices. `updated_at` is not modelled, so not re-saving an invoice that is already `pagada` cannot be observed.
- **One `today`.** The generator takes `timezone.now().date()`, while `Invoice.is_overdue` and `Player.age` use `date.today()`. Near midnight these can be different days. The model uses one `today` for both.
- **IntegrityError** in the generator comes from concurrent writers. Here it is the parameter `conflicts`: the (fee, player) pairs whose creation fails.
- **Amounts** are integer cents. The `Decimal` digit limits are not enforced.
- **Form parsing.** `AssignFeeForm` values arrive already parsed: an absent value stands for one that did not parse. Featured-player ids are numbers, so a non-numeric posted id is not modelled.
- **Tickets.CleanText** strips the ASCII characters `str.strip` removes (space, tab, line feed, vertical tab, form feed, carriage return and the separators 0x1C to 0x1F), but not the non-ASCII whitespace such as U+0085 or U+00A0 that Python also removes. A value made only of such characters is accepted here, while Django rejects it as blank.
- **Tickets.NewestFirst** orders by primary key as a stand-in for `created_at`.
- **FinanceViews.RecentPayments** fixes one order among payments with equal `paid_at`, where the database's order is unspecified. Only the facts in `FinanceViews.RecentPaymentsAreLatest` are claimed.
- **FinanceAdmin.MarkAsCompleted / FinanceAdmin.MarkAsFailed** pick the selected payments in any order, not in the admin's `-paid_at` order. The result is proved not to depend on the order. Of the changelist filters only `status` is modelled (`statusFilter`), since it is the only one the `update` can change. The `method`, date and search filters are taken as already applied to `selected`.
- **MonthlyInvoices.PlayersToBill / MonthlyInvoices.MonthlyFees** yield rows in primary-key order. The command reads them in `Meta.ordering` order: players by last and then first name (players/models.py:34), fees by name (finance/models.py:27). That order depends on the database collation, and ties are unordered. So the model can assign the new invoices different primary keys, and list the per-fee counters in a different order. Which (player, fee) pairs get an invoice does not depend on the order (`MonthlyInvoices.BillFeesBillsExactly`), and each fee's created plus skipped stays its number of players to bill (`MonthlyInvoices.BillFeeCounts`).
- **Tickets.CleanText** also does not model Django's rejection of text that contains a NUL character (`ProhibitNullCharactersValidator`), so such text is accepted here.
- **Schedules.TimedeltaStr:** durations are whole seconds, so the microseconds suffix of `str(timedelta)` is not modelled.
- **AdminViews.AssignFeesToCategory** walks the category's guardian links in primary-key order. `GuardianPlayer` has no `Meta.ordering`, so the source iterates them in the database's order. For a player with several guardians, the guardian written on the new invoice can therefore differ. Which players get an invoice does not depend on the order: exactly the linked players not yet billed for the fee (`AdminViews.AssignNewRows`, `AdminViews.AssignCovers`).
- **Concurrency** and database transactions are not modelled: every operation runs alone.
