# Water station ledger and remittance: a Dafny model

The application keeps two coupled books for a water refilling station. The **customer ledger** holds credit lines,
payments and borrowed containers, and stored aggregates that must agree with those rows: a customer's debt balance and
three container counters, and each line's remaining quantity. The aggregates are never recomputed; every service moves
them by its own delta. The **daily remittance** of a company and date is built from a form payload, may be a draft that
is replaced or cleared, and is finalized once; it links the day's customer payments and credit lines.

This project models both, the guards around them, and the pages that must agree with them, and proves what they promise.

## How the model is organised

| file | contents |
|---|---|
| `FiniteSums.dfy` | sums over the rows of a table, and the exchange of summations behind every per-owner balance |
| `Ledger.dfy` | the ledger tables, the invariant `Inv`, and each service from the point where it holds its row locks |
| `LedgerProofs.dfy`, `LedgerEffects.dfy`, `RowEffects.dfy`, `Admissions.dfy` | every service keeps `Inv`; what a batch does as a whole; which services undo each other; guards that cannot fire; what each service writes, column by column, and exactly when it goes through |
| `DebtViews.dfy`, `CollectionEntries.dfy` | the stored balance against the value of the units still open; what a submitted collection records, entry by entry |
| `RowLocking.dfy`, `LedgerTransactions.dfy`, `LedgerInterleavings.dfy` | the services as programs of row locks and statements, in any number and any interleaving |
| `DeletionRaces.dfy`, `DeletionTraces.dfy` | which commits leave a soft-deleted customer owing, and a run for either order |
| `AttemptLimiter.dfy`, `EditGate.dfy` | login and PIN attempt counters; who may edit or delete a record, in the services and on the history page |
| `RemittanceModel.dfy`, `RemittanceBuild.dfy`, `RemittanceFigures.dfy` | payload, stored rows and declarative totals; the one-pass build; what the totals mean |
| `StoredFigures.dfy`, `NoteTexts.dfy` | a stored remittance audited from its own rows; how notes are stored |
| `RemittanceServices.dfy`, `RunSafety.dfy`, `RepaymentTotals.dfy`, `DraftCycle.dfy` | the remittance services on the whole database, and what every run of all services keeps |
| `Finalization.dfy`, `BusinessDays.dfy` | finalizing and what it closes for good; which day's remittance a payment or a line belongs to |
| `LinkedEdits.dfy`, `DocumentedRefusals.dfy` | where a linked payment's edit, a negative total and an early paid flag go through, and exactly when |
| `DraftForm.dfy`, `ResavedForm.dfy` | reloading a saved draft into the form, and saving the whole form again |
| `RowGuards.dfy` | the database triggers that lock finalized remittances |
| `SettingsDisplay.dfy` | the settings page's printers and parsers |
| `Station.dfy`, `RecordedRequests.dfy` | the database as one object with a method per service; when its forms are refused and what they record |

Tables are maps from row key to row. Money is in centavos, the tithe rate in ten-thousandths, dates are day numbers and
timestamps seconds. A service that raises leaves the tables as they were. `Valid()` of `Station.Database` is the ledger
invariant together with: links stay within a company, one remittance per company and date, and deleted customers are clear.

Each imperative service is a method with the source's loops and branches, tied by its `ensures` to a function of the old
state (`Step` in `RemittanceServices.dfy`, `Build…` in `RemittanceModel.dfy`, `StateOf` and `Overlaid` in `DraftForm.dfy`);
the properties are proved about those functions. Concurrency is a state machine: a transaction works on private copies of
the rows it has locked, and its commit is shown to have the effect of the whole service at that moment.

## Where the code and its own text disagree

- `delete_credit_payment` says it reduces the balance (server/apps/customers/services.py:1297); the code adds the amount
  back (line 1336). The model adds.
- `create_remittance` says it raises when a financial total is negative (server/apps/remittance/services.py:202-204). The
  code rejects negative quantities, notes and salary overrides; remitted cash, commission override, other sales, offering
  and tithe rate may be negative, and so may total sales, net remittance, profit and tithe. `DocumentedRefusals.NegativeTotals`
  says exactly when, and `DocumentedRefusals.NegativeNetIsStored` gives a payload.
- `update_remittance_paid_status` says it works on finalized remittances and that a flag is immutable once set
  (server/apps/remittance/services.py:834-845). The code does not look at the status, and saving a draft again drops its
  flags (`DocumentedRefusals.PaidIgnoresStatus`, `DocumentedRefusals.MarkedDraftIsForgotten`).
- `delete_customer` and its signal check the pending items without a row lock (server/apps/customers/services.py:375-386,
  server/apps/customers/signals.py:45-56), and no service repeats the active-customer check under its locks. One request
  after another this is enough; interleaved, a deleted customer may be left owing in either order. `DeletionRaces.StepKeepsClear`
  and `DeletionRaces.RunKeepsClear` say exactly which commits do it, `DeletionTraces.BothRaces` gives both runs.
- The limit of five wrong PINs in 15 minutes (server/apps/users/services.py:228-237) is a limit of `validate_user_pin` and the
  ledger gate, not of the PIN. Finalizing on creation compares the PIN with no counter (server/apps/remittance/views.py:144);
  the remittance PIN dialog and the screen lock count three tries to a login session (server/apps/remittance/views.py:260-283,
  server/apps/users/views.py:971-985 and 1042-1061). `AttemptLimiter.FiveExactlyForCountedPlaces` says for which places it holds.
- The finalized-row trigger promises that only the paid flags may change; `net_remittance` is not among its compared
  columns, the child trigger reads the new parent of an updated row, and staff rows have no trigger (`RowGuards`).
- The currency printer and parser undo each other up to 28 digits of centavos only, the precision of the decimal context.
- Editing a payment that is already linked to a remittance, finalized or not, leaves that remittance's stored repayment
  total behind by exactly the change (`RepaymentTotals.StepDrift`); it goes through whenever the balance allows the new
  amount (`LinkedEdits.LinkedAmountCanChange`, and an input in `LinkedEdits.UnbalancingEditHappens`).
- Payments are linked to the remittance of the day they are dated, but the date of a linked payment or line can be edited
  too, and it then stays linked to the remittance of its old day (`BusinessDays.StepOnDay` says that nothing else does this).

## Model

| member | source | states |
|---|---|---|
| LedgerProofs.ExtendKeepsInv | server/apps/customers/services.py:257-296 | extending credit keeps every balance, remaining quantity and counter equal to the sum of its rows |
| LedgerProofs.LendKeepsInv | server/apps/customers/services.py:348-360 | recording a loan keeps them |
| Ledger.Later | server/apps/customers/services.py:288-296 | a backdated extension never moves the last credit date backwards |
| LedgerProofs.EditLineKeepsInv | server/apps/customers/services.py:914-979 | editing quantity and price of a line with payments on it keeps them |
| LedgerProofs.EditPaymentKeepsInv | server/apps/customers/services.py:1020-1079 | editing a payment's units and amount keeps them |
| LedgerProofs.EditBorrowingKeepsInv | server/apps/customers/services.py:1121-1167 | editing a loan keeps them |
| LedgerProofs.DeleteLineKeepsInv | server/apps/customers/services.py:1233-1274 | deleting a line with all its payments keeps them, however its payments were priced |
| LedgerProofs.DeletePaymentKeepsInv | server/apps/customers/services.py:1305-1337 | deleting a payment gives its units and money back and keeps them |
| LedgerProofs.DeleteBorrowingKeepsInv | server/apps/customers/services.py:1365-1393 | deleting a loan keeps them |
| LedgerProofs.CollectKeepsInv | server/apps/customers/services.py:590-626 | a collection naming the same line or loan several times keeps them, or is refused whole |
| LedgerProofs.CreateCustomerKeepsInv | server/apps/customers/services.py:151-170 | a new customer owes nothing and has nothing out |
| LedgerProofs.ApplyKeepsInv | server/apps/customers/services.py:210-626 | every ledger operation that succeeds keeps the whole invariant |
| LedgerProofs.ApplyKeepsPrices | server/apps/customers/services.py:922-970 | every line's total stays its quantity at its snapshot price |
| LedgerProofs.CountersNonNegative | server/apps/customers/models.py:105-116 | no counter is negative, and each open loan is covered by its counter |
| LedgerProofs.PaymentGuardsAreDead | server/apps/customers/services.py:1053-1056 | the over-credit guard of a payment edit never fires, and a payment deletes exactly when no remittance holds it |
| LedgerProofs.BorrowingGuardsAreDead | server/apps/customers/services.py:1154-1158 | the negative-count guards of loan edits and deletions never fire |
| LedgerEffects.CollectRows | server/apps/customers/services.py:590-619 | a batch takes off each line, and adds to each loan, exactly the sum of the entries naming it, and inserts one payment per entry |
| LedgerEffects.CollectBalances | server/apps/customers/services.py:598-626 | it lowers the balance and each counter by the batch totals and touches no other customer |
| LedgerEffects.DeletePaymentUndoesCollect | server/apps/customers/services.py:1331-1337 | deleting the payment a collection recorded restores the ledger exactly |
| LedgerEffects.DeleteBorrowingUndoesLend | server/apps/customers/services.py:1381-1393 | deleting a loan undoes recording it |
| LedgerEffects.DeleteLineUndoesExtend | server/apps/customers/services.py:1253-1274 | deleting an unpaid line undoes its extension except for the last credit date |
| LedgerEffects.EditPaymentBack | server/apps/customers/services.py:1014-1079 | editing a payment back restores the ledger, and the service lets the second edit through exactly when the payment was recorded with money |
| LedgerEffects.DeletionMayPassTheLimit | server/apps/customers/services.py:1331-1337 | deleting a payment ignores the credit limit, and passes it exactly when balance plus payment does |
| Admissions.CollectionGoesThrough | server/apps/customers/services.py:554-626 | a collection goes through exactly when its lines and loans are the customer's, the units and containers asked of each add up to no more than is open on it, the money to no more than is owed, and the new keys are free |
| Admissions.OperationGoesThrough | server/apps/customers/services.py:210-1393 | on a ledger in order every valid operation goes through exactly under its condition on the rows and balances it meets |
| Admissions.LimitIsTheReason | server/apps/customers/services.py:267-274 | the credit limit is named exactly when the request is otherwise in order and the new balance is above a positive limit, for extensions and line edits |
| Admissions.RequestGoesThrough | server/apps/customers/services.py:373-389 | on the database, for active customers alone, and a soft delete exactly with no balance and nothing out of any kind |
| RowEffects.ExtensionWrites | server/apps/customers/services.py:267-296 | a successful extension inserts the line, raises the balance by its total, keeps the later credit date, moves nothing else, and ends within a positive limit |
| RowEffects.LoanWrites | server/apps/customers/services.py:349-360 | a successful loan inserts the row, raises the counter of its kind and no other, and moves nothing else |
| RowEffects.CollectionWrites | server/apps/customers/services.py:590-626 | a collection stores one payment per entry with its line, units, amount and date, changes no other payment, and dates each returned loan by the last entry naming it |
| RowEffects.LineEditWrites | server/apps/customers/services.py:969-979 | an edited line carries the requested quantity, price, care-of user and date, keeps the units paid and every other column, and the balance moves by the change of its total |
| RowEffects.LineEditBack | server/apps/customers/services.py:922-979 | the edit that asks for what the line was restores the ledger, unless the balance it restores is above a positive limit and it is refused for that; it is let through exactly when the line had a price |
| RowEffects.EveryFieldEditedBack | server/apps/customers/services.py:936-976 | an edit that changes quantity, remaining units, price, total, care-of user and date, and the edit back |
| RowEffects.PaymentEditWrites | server/apps/customers/services.py:1069-1079 | an edited payment carries the requested units, amount and date, keeps every other column, and line and balance move by the changes |
| RowEffects.LoanEditWrites | server/apps/customers/services.py:1160-1167 | an edited loan carries the requested quantities and date, and the counter of its kind moves by the change in what is outstanding |
| RowEffects.LineDeletionWrites | server/apps/customers/services.py:1239-1274 | a deleted line goes with all its payments, none of them linked, and takes what it was still owed off the balance |
| RowEffects.PaymentDeletionWrites | server/apps/customers/services.py:1311-1337 | a deleted payment was not linked, and its units and money go back to line and balance |
| RowEffects.LoanDeletionWrites | server/apps/customers/services.py:1381-1393 | a deleted loan takes its outstanding containers off the counter of its kind |
| RowEffects.CustomerWrites | server/apps/customers/services.py:151-206 | a limit update writes the limit, a soft delete the mark, a creation a clear row, and none touches another column or table |
| DebtViews.DebtViewsDiffer | server/apps/customers/selectors.py:1026 | balance minus open units at current prices equals the sum over payments of units at the current price minus money, in every balanced state |
| DebtViews.DebtViewsAgree | server/apps/customers/services.py:545-546 | the two figures agree when every payment is exact at the current price |
| CollectionEntries.CollectionGap | server/apps/customers/services.py:604-626 | a collection moves the gap between stored balance and open value by units at the price of their line less the money recorded, entry by entry |
| CollectionEntries.FormGap | server/apps/customers/services.py:538-547 | recording a form moves the gap by its typed amounts alone: units entered without an amount leave it as it was |
| LedgerTransactions.RunReturnSteps | server/apps/customers/services.py:591-602 | the return updates, constraint by constraint, succeed exactly when the batch fits each loan |
| LedgerTransactions.RunPaySteps | server/apps/customers/services.py:604-619 | the payment inserts and unit updates succeed exactly when the batch fits each line and its keys are new |
| LedgerTransactions.CollectMeaning | server/apps/customers/services.py:554-626 | lock, re-check and apply, run statement by statement, is the whole-batch collection, all or nothing |
| LedgerTransactions.ProgramMeaning | server/apps/customers/services.py:257-296 | every service's program of locks and statements, run alone, is its service |
| LedgerTransactions.ProgramDisciplined | server/apps/customers/services.py:837-846 | no service reads or writes a row under it before holding the row's lock |
| LedgerTransactions.RunFrame | server/apps/customers/services.py:554-588 | a program run on private copies of its locked rows does to them what it would do to the tables |
| LedgerInterleavings.NextKeepsSystemOk | server/apps/customers/services.py:554-588 | every step of any transaction leaves all running transactions consistent with the tables |
| LedgerInterleavings.CommitIsAtomic | server/apps/customers/services.py:554-626 | a commit has exactly the effect of its whole service on the tables at that moment |
| LedgerInterleavings.EveryRunKeepsLedger | server/apps/customers/services.py:472-626 | in every state of every interleaving the committed tables satisfy the invariant |
| LedgerInterleavings.EveryRunStaysInBounds | server/apps/customers/models.py:215-226 | remaining stays in 0..credited, returned at most borrowed, and debt equals credits minus payments, in every interleaving |
| LedgerInterleavings.NoCommitPassesTheLimit | server/apps/customers/services.py:257-277 | no credit extension or line edit commits with the balance above a positive limit |
| DeletionRaces.OpKeepsClear | server/apps/customers/services.py:257-360 | whatever it meets, an operation leaves a deleted customer owing exactly when it deletes with something pending, or leaves money or containers open on a customer already deleted |
| DeletionRaces.StepKeepsClear | server/apps/customers/services.py:373-389 | a step of any interleaving does so exactly when it commits such an operation |
| DeletionRaces.RunKeepsClear | server/apps/customers/services.py:78-88 | a whole interleaving keeps every deleted customer clear exactly when none of its commits is one |
| DeletionTraces.BothRaces | server/apps/customers/signals.py:20-57 | both orders happen: a loan between the check and the write of a deletion, and a loan begun before a deletion that commits with nothing pending |
| AttemptLimiter.AtMostMaxFailures | server/apps/users/services.py:141-164 | any half-open window as long as the time to live, without a success in it, holds at most the maximum of failing comparisons |
| AttemptLimiter.MaxFailuresBlock | server/apps/users/services.py:179-187 | once a window holds the maximum, every later try in it is turned away |
| AttemptLimiter.BlockEndsOnTime | server/apps/users/services.py:228-237 | blocked tries change nothing, and the block ends exactly at the cell's expiry |
| AttemptLimiter.FifthTryBlocks | server/apps/users/services.py:141-159 | a wrong try blocks exactly when it is the fifth, for 60 seconds of logins and 900 of PINs |
| AttemptLimiter.FiveLoginsAMinute | server/apps/users/services.py:141-164 | a minute without a successful login holds at most five failed ones, and five of them turn away the rest of it |
| AttemptLimiter.LoginBucket.RecordFailure | server/apps/users/services.py:146-159 | a failed login rewrites the bucket with one more attempt and a fresh minute |
| AttemptLimiter.LoginBucket.Reset | server/apps/users/services.py:162-164 | a successful login clears the bucket |
| AttemptLimiter.LoginBucket.Login | server/apps/users/views.py:140-179 | one login POST steps the bucket as the limiter does and lets in exactly unblocked right credentials |
| AttemptLimiter.Validate | server/apps/users/services.py:219-237 | the PIN check accepts exactly a right PIN under the limit and steps its counter as the limiter does |
| AttemptLimiter.LedgerGate | server/apps/customers/services.py:750-767 | the ledger gate needs both counters under five, and counts every inner rejection |
| AttemptLimiter.PinGate.ValidatePin | server/apps/users/services.py:202-237 | the check in place on the user's counter |
| AttemptLimiter.PinGate.CheckLedgerPin | server/apps/customers/services.py:750-767 | the outer gate in place on both counters |
| AttemptLimiter.AtMostFiveCountedWrongPins | server/apps/users/services.py:228-237 | any 900 seconds without a PIN accepted through the shared counter hold at most five PINs it compared and found wrong, over the ledger gate and all callers of `validate_user_pin` |
| AttemptLimiter.FiveExactlyForCountedPlaces | server/apps/remittance/views.py:138-149 | that bound holds for all PINs compared at a set of places exactly when every one of them uses the shared counter |
| AttemptLimiter.SessionEndsAtThree | server/apps/remittance/views.py:260-283 | a login session is ended exactly at its third wrong PIN in a row at the session-counted places, and asks for no PIN after it |
| EditGate.VerifyLedgerEdit | server/apps/customers/services.py:739-783 | the edit gate in place: counters, then PIN, then age and finalized day for staff |
| EditGate.VerifyLedgerDelete | server/apps/customers/services.py:1198-1209 | the delete gate: administrators only, then the edit gate |
| LinkedEdits.GateMeaning | server/apps/customers/services.py:739-783 | on the remittance table itself: the edit gate passes exactly when the PIN gate accepts and, for staff, the record is at most 24 hours old and its company has no finalized remittance of its day; the delete gate exactly for administrators whose PIN is accepted |
| EditGate.EditablePredictsEdit | server/apps/customers/selectors.py:1179-1213 | with the right PIN and both counters under five, the gate passes exactly when the page says editable, and its reason is the page's |
| EditGate.DeletablePaymentAlwaysDeletes | server/apps/customers/selectors.py:1226-1229 | a payment deletes exactly when the page says deletable and the PIN is accepted |
| EditGate.DeletableBorrowingAlwaysDeletes | server/apps/customers/selectors.py:1236-1237 | the same for a loan |
| EditGate.OwedByLine | server/apps/customers/services.py:1253-1255 | a balance is the sum of what is open, or overpaid, on each line |
| EditGate.DeletableLineRefusal | server/apps/customers/selectors.py:1231-1234 | a deletable line is refused exactly when the customer's other lines are overpaid in total, so some other line is overpaid |
| EditGate.UndeletableLineIsRefused | server/apps/customers/services.py:1239-1245 | a line the page does not call deletable is always refused |
| RemittanceBuild.KeepNotes | server/apps/remittance/services.py:559-576 | the note loops reject exactly the lists with a negative amount, and keep and total the rest |
| RemittanceBuild.SkippedAddsNothing | server/apps/remittance/services.py:502-504 | a line the row rule skips contributes to no total |
| RemittanceBuild.KeepLines | server/apps/remittance/services.py:475-525 | the product-line loop stores the non-empty lines and totals all of them, or fails on a negative quantity or a repeated product |
| RemittanceBuild.KeepRider | server/apps/remittance/services.py:470-610 | one rider: payable, override, remitted cash, notes, shortfall and net commission |
| RemittanceBuild.KeepRiders | server/apps/remittance/services.py:456-610 | the rider loop, failing exactly on an unknown or repeated rider or a bad entry |
| RemittanceBuild.GroupRepayments | server/apps/remittance/services.py:130-141 | payments grouped by care-of user, each in exactly one group |
| RemittanceBuild.AddRepayments | server/apps/remittance/services.py:615-648 | all payments are totalled, and exactly the unlisted active drivers among the groups get a row and a commission |
| RemittanceBuild.KeepStaff | server/apps/remittance/services.py:691-760 | the staff loop over active staff: salaries, deductions, expenses |
| RemittanceBuild.Build | server/apps/remittance/services.py:384-811 | the one-pass build succeeds exactly on acceptable payloads and then stores the declarative rows and totals |
| Admissions.PayloadInOrder | server/apps/remittance/services.py:384-566 | a payload is acceptable exactly when every rider entry names an active rider once, known products, nothing negative and no product twice among its non-empty lines, the general expenses are not negative, and each active staff member has one entry without negative amounts or override |
| RemittanceFigures.SalesCountEveryLine | server/apps/remittance/services.py:686-689 | total sales are sold quantity at price over all payload lines, skipped ones included, plus other sales |
| RemittanceFigures.PayableBound | server/apps/remittance/services.py:488-498 | a payable is at least the unclamped one, with equality exactly when no priced line clamps |
| RemittanceFigures.RaisedCashRaisesNet | server/apps/remittance/services.py:596-610 | raising one rider's cash by x raises the net remittance by between 0 and x |
| RemittanceFigures.ShortfallIsCovered | server/apps/remittance/services.py:596-610 | a rider with positive net commission has the shortfall covered by cash and withheld commission |
| RemittanceFigures.CommissionByRider | server/apps/remittance/services.py:615-648 | rider rows are exactly the payload riders and active drivers with repayments, each contributing once to total commission |
| RemittanceFigures.CommissionBounds | server/apps/remittance/services.py:604-610 | total commission lies between zero and the sum of the positive gross commissions |
| RemittanceFigures.HistoryRowRecoversRemitted | server/apps/remittance/selectors.py:1008-1017 | the history row's formula recovers exactly the cash in the stored rider rows |
| RemittanceFigures.KeptAmount | server/apps/remittance/services.py:559-576 | dropping blank notes drops no money |
| RemittanceFigures.BreakdownMakesTotal | server/apps/remittance/selectors.py:1671-1696 | rider, staff and general expense totals of the detail page add up to the stored total |
| RemittanceFigures.SalaryFromRows | server/apps/remittance/models.py:351-356 | total salary is the sum of the effective salaries of the stored rows |
| StoredFigures.LineIsStored | server/apps/remittance/services.py:481-518 | a payload line that moves something has a row with its quantities as typed, and payable and commission on the units sold less credited plus repaid at the row's price and rate |
| StoredFigures.RiderRowSays | server/apps/remittance/services.py:520-545 | a payload rider's commission is the override when there is one and the sum of the commission column of the rider's product rows otherwise; the payable is the sum of theirs |
| StoredFigures.CommissionFromRows | server/apps/remittance/services.py:596-648 | total commission is, over the stored rows, the positive part of commission less shortfall and deductions for payload riders and the commission column for the others, whose rows hold the repaid units at their rates |
| StoredFigures.StaffRowIs | server/apps/remittance/services.py:698-758 | a staff row's deductions add up to its deducted total, and its net pay is the override, or the daily rate without one, less that |
| StoredFigures.FiguresFromRows | server/apps/remittance/services.py:762-783 | every total from the columns of the stored rows: sales, credit sales, borrowed items, commission, salaries, expenses, net, profit and tithe |
| StoredFigures.StoredFromLedger | server/apps/remittance/services.py:615-665 | on the database after a build: credit sales are the rows' or the day's ledger credits, whichever is more, and an unlisted driver earns the driver's rates on the linked payments of lines in the driver's care |
| NoteTexts.NoteIsKept | server/apps/remittance/services.py:559-576 | a note becomes a row unless it has neither text nor amount; the row has the stripped text, or a placeholder without one, and the amount |
| DocumentedRefusals.NegativeTotals | server/apps/remittance/services.py:762-784 | for acceptable payloads a total is negative exactly when other sales are, wages pass cash, or a surplus meets a negative tithe rate; net, sales and tithe each with their own condition, the others never |
| DocumentedRefusals.CreateStoresNegative | server/apps/remittance/services.py:184-252 | creating on a free day succeeds exactly on acceptable payloads and then stores a negative total exactly under that condition |
| DocumentedRefusals.NegativeNetIsStored | server/apps/remittance/services.py:762-773 | a payload stored with a net remittance of -100 on any free day, finalized or not |
| DocumentedRefusals.PaidIgnoresStatus | server/apps/remittance/services.py:848-867 | paid flags go through exactly when they take nothing back, and commute with the status |
| DocumentedRefusals.MarkedDraftIsForgotten | server/apps/remittance/services.py:280-316 | every draft can be marked paid, and saving it again stores it unpaid |
| RunSafety.BuildingRequest | server/apps/remittance/services.py:280-316 | creating or saving over a day unlinks and discards what was there, then links and stores one new row |
| RunSafety.StepKeepsDbOk | server/apps/remittance/models.py:50-61 | every request keeps the ledger invariant, links within a company, one remittance a day and clear deleted customers |
| RunSafety.RunKeepsDbOk | server/apps/remittance/services.py:184-932 | so does every run of requests of both books |
| RunSafety.ReachableCustomer | server/apps/customers/models.py:94-114 | in every reachable state the balance and the counters are the sums, never negative, and a deleted customer has returned everything |
| RunSafety.SoftDeleteClear | server/apps/customers/services.py:373-389 | marking a customer deleted keeps deleted customers clear exactly when nothing is pending |
| RunSafety.StepKeepsFinalized | server/apps/remittance/services.py:860-867 | no request changes a finalized remittance but to set its paid flags, nor its set of linked payments |
| RunSafety.RunKeepsFinalized | server/apps/remittance/services.py:213-218 | finalized is absorbing over every run |
| Finalization.FinalizeWrites | server/apps/remittance/services.py:902-926 | finalizing succeeds exactly for an administrator with an accepted PIN on a draft of the own company, and then writes status, user and time and nothing else in the database |
| Finalization.FinalizeIsFinal | server/apps/remittance/services.py:213-218 | after a successful finalize request and any run, creating, saving or clearing that day and finalizing that row are refused as already finalized |
| Finalization.BuildGoesThrough | server/apps/remittance/services.py:210-239 | a build goes through exactly when the day has no finalized remittance, and no draft if it creates without finalizing, on an acceptable payload and a free key; each refusal is named |
| Finalization.BuildWritesHeader | server/apps/remittance/services.py:403-410 | the stored row is finalized, with user and time, exactly when a create request asks for it; company, date, author, tithe rate and offering are the request's, both paid flags are down, and only drafts of the day vanish |
| Finalization.CreateFinalizedIsFinal | server/apps/remittance/services.py:788-811 | a row created finalized closes its day over every later run |
| Finalization.ClearGoesThrough | server/apps/remittance/services.py:337-351 | clearing is refused exactly over a finalized remittance of the day and changes nothing on an empty day |
| Finalization.ClearReleases | server/apps/remittance/services.py:144-180 | clearing takes away the day's draft, releases what hung from it, and moves no other row or link |
| Finalization.PaidWrites | server/apps/remittance/services.py:848-867 | setting the paid flags goes through exactly when it takes back none that is set, and then writes both as asked and nothing else |
| RepaymentTotals.StepDrift | server/apps/remittance/services.py:615-620 | each request's exact effect on a remittance's repayment total minus its linked amounts |
| RepaymentTotals.StepKeepsBalanced | server/apps/customers/services.py:1064-1073 | a step keeps all totals equal to the linked amounts exactly when it does not change a linked payment's amount |
| RepaymentTotals.RunKeepsBalanced | server/apps/remittance/services.py:144-161 | over every run without such an edit |
| LinkedEdits.LinkedAmountCanChange | server/apps/customers/services.py:1014-1073 | in every database in order, draft or finalized, the amount of a linked payment of an active customer can be set exactly to what is positive and within the balance, and moves the drift by the change |
| LinkedEdits.FinalizedDayGate | server/apps/customers/services.py:767-783 | on a finalized day the edit gate stops everyone but administrators with an accepted PIN |
| LinkedEdits.UnbalancingEditHappens | server/apps/customers/services.py:1061-1073 | a database in order and balanced, in either status, that an administrator's edit unbalances |
| RepaymentTotals.RepaymentsConserved | server/apps/remittance/services.py:619-620 | then the stored totals of all remittances add up to the amounts of all linked payments |
| RepaymentTotals.RunConservesRepayments | server/apps/customers/services.py:1311-1315 | conservation over runs of create, save, replace, clear, finalize, collect, edit and delete |
| DraftCycle.PreviewAgreesWithSave | server/apps/remittance/selectors.py:238-272 | the payments the form lists for a date are exactly those a build links, and their sum is the stored total |
| BusinessDays.CollectedPaymentBelongs | server/apps/remittance/services.py:103-112 | a payment collected with entry date `at`, whenever it was recorded and whatever ran in between that neither changed it nor built its day, is linked by a build of its company for day d exactly when d is `at` |
| BusinessDays.CollectThenBuild | server/apps/remittance/services.py:103-115 | from start to end: an admissible collection for an active customer and then an acceptable build into a free day both go through, and each new payment is linked exactly when the day is its entry's |
| BusinessDays.EditedPaymentBelongs | server/apps/customers/services.py:1069-1073 | an unlinked payment edited to a date is linked by the build of that day and of no other |
| BusinessDays.EditedLineBelongs | server/apps/customers/services.py:969-976 | an unlinked credit line edited to a date is linked by the build of that day and of no other |
| BusinessDays.NewLineBelongs | server/apps/customers/services.py:276-287 | a new credit line is linked by the build of its date and of no other |
| BusinessDays.UndatedIsLinked | server/apps/remittance/services.py:109-112 | a payment without a date belongs to the day its creation time falls on |
| BusinessDays.PreviewListed | server/apps/remittance/selectors.py:238-253 | what the form lists: the company's payments of the day that are free or hang from a draft of the day |
| BusinessDays.BuildLinks | server/apps/remittance/services.py:615-658 | on every payment and line a build moves the link alone, to the new row exactly for the company's free or released rows of the day |
| BusinessDays.StepOnDay | server/apps/customers/services.py:1069-1073 | a successful request keeps every linked payment and line dated as its remittance exactly when it is not an edit that re-dates a linked one |
| BusinessDays.RunOnDay | server/apps/remittance/services.py:103-112 | over every run without such an edit |
| DraftCycle.BuildLinksLines | server/apps/remittance/services.py:650-658 | a build links exactly the company's lines of the day that are unlinked or hang from the draft it replaces |
| DraftCycle.CreditSalesCoverLines | server/apps/remittance/services.py:660-665 | the stored credit sales cover the totals of all credit lines linked to the remittance |
| DraftCycle.SaveTwiceIsSaveOnce | server/apps/remittance/services.py:280-316 | saving the same payload again succeeds and changes only the row's key |
| DraftCycle.SaveThenClearIsIdentity | server/apps/remittance/services.py:337-363 | saving a draft for an empty day and clearing it restores the whole database |
| DraftForm.LoadLines | server/apps/remittance/selectors.py:435-444 | the line loop groups the stored quantities by rider and product |
| DraftForm.LoadDraft | server/apps/remittance/selectors.py:412-538 | the loader yields each rider's and staff member's stored fields and notes, and the general expenses |
| DraftForm.OverlayForm | server/apps/remittance/selectors.py:583-624 | the overlay loops write them onto the fresh form |
| DraftForm.KeptTwice | server/apps/remittance/services.py:559-576 | normalizing notes is idempotent |
| DraftForm.RiderComesBack | server/apps/remittance/selectors.py:592-614 | sold quantities, override, remitted cash, expenses and deductions of a payload rider come back, normalized |
| DraftForm.OtherRiderStaysEmpty | server/apps/remittance/selectors.py:592-614 | a rider the payload does not list comes back untouched |
| DraftForm.StaffComesBack | server/apps/remittance/selectors.py:617-624 | an active staff entry comes back, normalized |
| DraftForm.OtherStaffStaysEmpty | server/apps/remittance/selectors.py:617-624 | other staff stay as on the fresh form |
| DraftForm.GeneralExpensesComeBack | server/apps/remittance/selectors.py:483-496 | general expenses come back, normalized |
| DraftForm.ResaveStoresSameRider | server/apps/remittance/services.py:470-594 | saving the reloaded form stores the same rider fields, notes and sold quantities |
| DraftForm.ResaveStoresSameStaff | server/apps/remittance/services.py:691-758 | and the same staff row and staff expenses |
| DraftForm.ResaveStoresSameGeneral | server/apps/remittance/services.py:667-684 | and the same general expenses |
| ResavedForm.ResaveKeepsEverythingTyped | server/apps/remittance/services.py:456-758 | the whole reloaded form, saved again, has a row for every active rider and staff member and stores everything typed as before, an absent row counting as empty, even if repayments came in between |
| ResavedForm.WholeLine | server/apps/remittance/selectors.py:597-610 | a stored line is shown with its stored sold and credited quantities and the ledger's repaid units; any other as on the fresh form or zero |
| ResavedForm.NormalBuildsSame | server/apps/remittance/services.py:559-594 | a payload and its normalization build the same rows, notes and totals |
| ResavedForm.NormalIsAcceptable | server/apps/remittance/services.py:560-566 | and are accepted or rejected together |
| ResavedForm.SaveReloadSave | server/apps/remittance/selectors.py:579-624 | a filled-in form saved, reloaded and saved again with nothing new on the ledger is accepted and stores the same rows and totals |
| RowGuards.GuardChild | server/apps/remittance/migrations/0005_lock_finalized_remittance.py:108-143 | the child guard on rider and expense rows refuses exactly when the parent it reads is finalized |
| RowGuards.GuardLine | server/apps/remittance/migrations/0005_lock_finalized_remittance.py:108-143 | the same on product lines, through their rider row |
| RowGuards.ParentIsLocked | server/apps/remittance/migrations/0011_remove_remittance_notes_remove_ridercredit_notes.py:28-66 | over every sequence of row operations a finalized row stays, stays finalized and keeps every listed column |
| RowGuards.ParentUpdateAccepted | server/apps/remittance/migrations/0011_remove_remittance_notes_remove_ridercredit_notes.py:41-64 | an update of a finalized row is accepted exactly when it touches unlisted columns only |
| RowGuards.NetRemittanceIsNotLocked | server/apps/remittance/migrations/0011_remove_remittance_notes_remove_ridercredit_notes.py:41-64 | the net remittance of a finalized row can be overwritten |
| RowGuards.ChildrenAreLocked | server/apps/remittance/migrations/0005_lock_finalized_remittance.py:102-163 | an accepted operation keeps a finalized remittance's rider rows, lines and expenses exactly when it is not an update of one of them |
| RowGuards.RunKeepsChildren | server/apps/remittance/migrations/0005_lock_finalized_remittance.py:102-163 | over every sequence whose updates keep parents, the children stay |
| RowGuards.ExpenseMovesOff | server/apps/remittance/migrations/0005_lock_finalized_remittance.py:117-121 | an accepted update that moves an expense off a finalized remittance |
| RowGuards.FamilyIsLocked | server/apps/remittance/migrations/0005_lock_finalized_remittance.py:145-163 | with staff rows counted in, all children stay exactly when the operation neither updates a guarded child nor touches a staff row of the remittance |
| RowGuards.DraftsAreFree | server/apps/remittance/migrations/0005_lock_finalized_remittance.py:108-143 | while nothing is finalized the triggers accept every operation on rows that are there, and every insert under a free key |
| RowGuards.StaffReachesAnything | server/apps/remittance/migrations/0005_lock_finalized_remittance.py:145-163 | accepted operations take the staff table from any contents to any other, whatever is finalized, and change nothing else |
| RowGuards.TryRowOp | server/apps/remittance/migrations/0005_lock_finalized_remittance.py:145-163 | a row operation run through the trigger of its table writes exactly when the triggers accept it |
| SettingsDisplay.ReadPlain | server/apps/settings/services.py:70-77 | reading a printed number gives the number back |
| SettingsDisplay.ParseGrouped | server/apps/settings/services.py:68-77 | parsing the comma-grouped display gives the amount, or fails beyond 28 digits |
| SettingsDisplay.GroupsOfThree | server/apps/settings/selectors.py:131-132 | counted from the right, every fourth character of a grouped amount is a comma and no other |
| SettingsDisplay.CurrencyRoundTrip | server/apps/settings/selectors.py:128-134 | printing a stored amount and parsing the display gives it back exactly when it has at most 28 digits |
| SettingsDisplay.TitheRoundTrip | server/apps/settings/selectors.py:120-125 | for every stored fraction in 0..1 with at most four decimals, the percentage display parses back to an equal fraction |
| Station.ParsedReturns | server/apps/customers/services.py:473-504 | every parsed return is positive, not in the future, and fits its loan |
| Station.ParsedPayments | server/apps/customers/services.py:506-547 | every parsed payment fits its line, is non-negative, not in the future and not empty |
| Station.PaidUnitsCarryMoney | server/apps/customers/services.py:538-546 | units paid without an amount are given the line's price, so units are never recorded as paid for nothing |
| CollectionEntries.PaymentEntries | server/apps/customers/services.py:506-547 | the payment entries are read exactly when every one that names a line and is not all zero fits; then each is recorded once, in order, with its line, units and date, and the typed amount, or units at the line's price without one |
| CollectionEntries.ReturnEntries | server/apps/customers/services.py:473-502 | the same for returns |
| CollectionEntries.FormIsRead | server/apps/customers/services.py:468-552 | a form is read exactly for an active customer of the company with some entry that counts and none that does not fit, and what is read is those entries in order |
| RecordedRequests.DebtRefusals | server/apps/customers/services.py:235-245 | the checks of the debt form in order, the first that fails naming the refusal; without a date it is today |
| RecordedRequests.LoanRefusals | server/apps/customers/services.py:334-346 | the checks of the loan form in order |
| RecordedRequests.EditRefusals | server/apps/customers/services.py:905-912 | the field checks of the three edit forms in order |
| RecordedRequests.DebtIsRecorded | server/apps/customers/services.py:247-296 | a recorded debt holds what was asked for, at the typed price or without one the product's, and moves balance and credit date |
| RecordedRequests.LoanIsRecorded | server/apps/customers/services.py:348-360 | a recorded loan holds what was asked for with nothing returned |
| Station.Database.CreateCustomer | server/apps/customers/services.py:151-177 | creates the customer, or refuses without effect |
| Station.Database.DeleteCustomer | server/apps/customers/services.py:373-392 | soft delete of an active customer with nothing pending |
| Station.Database.UpdateLimit | server/apps/customers/services.py:180-206 | sets the credit limit of an active customer |
| Station.Database.RecordDebt | server/apps/customers/services.py:210-300 | the new line, balance and credit date, or the first of the refusals: customer, product, care-of user, date, quantity, credit limit |
| Station.Database.RecordBorrowed | server/apps/customers/services.py:310-361 | the new loan and counter, or the first of the refusals: customer, care-of user, date, container kind, quantity |
| Station.Database.ReadCollection | server/apps/customers/services.py:471-552 | reads and checks the submitted entries and their dates, failing with the first error |
| Station.Database.RecordCollection | server/apps/customers/services.py:440-642 | the batch in full with its total, or the first error and no effect |
| Station.Database.EditCreditLine | server/apps/customers/services.py:889-994 | field checks, then the record, then the gate, then the edited line and balance, or the first refusal by name |
| Station.Database.EditCreditPayment | server/apps/customers/services.py:997-1093 | field checks, then the record, then the gate, then the edited payment, line and balance, or the first refusal by name |
| Station.Database.EditBorrowedContainer | server/apps/customers/services.py:1096-1181 | field checks, then the record, then the gate, then the edited loan and counter, or the first refusal by name |
| Station.Database.DeleteBorrowedContainer | server/apps/customers/services.py:1348-1401 | the record, then the gate, then loan and counter removed, or the first refusal by name |
| Station.Database.DeleteCreditPayment | server/apps/customers/services.py:1287-1345 | the record, then the gate, then payment removed and units and money given back, or the first refusal by name |
| Station.Database.AddUp | server/apps/customers/services.py:1253 | the money on a set of payments |
| Station.Database.DeleteCreditLine | server/apps/customers/services.py:1212-1284 | the record, then the gate, then line and payments removed and the balance corrected, or the first refusal by name |
| Station.Database.CreateRemittance | server/apps/remittance/services.py:184-252 | refuses over a finalized day, or over a draft unless finalizing; otherwise replaces and builds |
| Station.Database.SaveRemittanceDraft | server/apps/remittance/services.py:256-316 | replaces the day's draft with a build of the payload |
| Station.Database.DeleteDraftRemittance | server/apps/remittance/services.py:320-363 | clears the day's draft, says whether there was one, refuses over a finalized day |
| Station.Database.FinalizeRemittance | server/apps/remittance/services.py:880-932 | administrators with an accepted PIN finalize a draft once |
| Station.Database.UpdatePaidStatus | server/apps/remittance/services.py:827-876 | sets the paid flags, refusing exactly to take one back |
| Station.Database.PreviewRepayments | server/apps/remittance/selectors.py:238-272 | the previewed payments and their total |
| Station.DiscardEach | server/apps/remittance/services.py:286-303 | unlinking and deleting the day's drafts one by one discards them all |
| Station.BuildOnto | server/apps/remittance/services.py:615-665 | gathers the day's repayments and credits, builds, and links |

## Left out

- Concurrency of the remittance services with each other or with ledger edits: each is one atomic step.
- Deadlock, lock waiting and liveness: a transaction may abort at any step, and nothing is claimed to finish. Isolation is
  read committed with row locks held to commit; cache counters are read and written by one request at a time.
- Status transitions of customers (flag, blacklist, reset), customer and product names and their uniqueness, contact data.
- Creating a customer on the fly while recording debt or a loan: it is `CreateCustomer` followed by the service.
- The bulk change of all credit limits of a company: each customer's change is the limit update modelled here.
- Users without a company, superusers, platform-wide rows: the acting user is a tenant user.
- Views, templates and the client code that assembles payloads, audit-log rows, logging, messages.
- Password and PIN hashing, roles and sessions: whether a PIN matches and whether a user is an administrator are inputs.
- Parsing of arbitrary decimal and date strings, rounding on storage below a centavo, conversion to float, time zones,
  small-integer overflow of stored quantities.
- The widths of the money columns (numeric(10,2) and numeric(12,2)): amounts are unbounded, so an overflow the database
  would raise is not among the reasons a service is refused.
- The request rates of the views (30 and 60 a minute where a PIN is compared without the shared counter).
- Whitespace beyond space, tab, newline and carriage return in `Trim`.
- The order of repayments within a day's query: groups are unordered.
- Updates of a remittance's primary key, foreign-key checks and cascades at the level of the triggers.
- The detail page's `drivers_remittance`, a different formula from the history row's; analytics, rankings and charts.
- RemittanceBuild.Build: when a payload is wrong in several ways it says that the reported one is among them, not which comes first.
- Station.Database.CreateRemittance: for the same reason states a refused build up to the two kinds of payload error.
- Station.Database.SaveRemittanceDraft: likewise.
- DraftForm.RiderComesBack: says nothing of credited and repaid quantities, which ResavedForm.WholeLine covers.
- DraftForm.ResaveStoresSameRider: is about one rider and product; ResavedForm.ResaveKeepsEverythingTyped is about the whole form.
- ResavedForm.ResaveKeepsEverythingTyped: supposes the second save accepted; ResavedForm.SaveReloadSave proves it for an unchanged ledger.
- Station.Database.CreateCustomer: names, their presence and their uniqueness, are not modelled.
- Station.Database.UpdateLimit: the name and contact fields saved with the limit are not modelled.
- LedgerInterleavings.EveryRunKeepsLedger: a request's checks before its first lock may be stale, so any valid request may begin in any state.
- RowGuards.FamilyIsLocked: leaves out deduction rows, which hang from rider and staff rows and have no trigger either.
- SettingsDisplay.TitheRoundTrip: fractions with more than four decimals are rounded by the display and are not covered.
