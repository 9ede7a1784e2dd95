/** Who may edit or delete a ledger record, and when: the gates the services apply and the flags the history
    page shows, written separately in the application and proved to agree. */
module EditGate {
  import opened FiniteSums
  import opened Ledger
  import opened LedgerProofs
  import opened AttemptLimiter

  datatype Record = OfLine(line: CreditLine) | OfPayment(payment: Payment) | OfBorrowing(borrowing: Borrowing) {
    function Company(): Id {
      match this case OfLine(r) => r.company case OfPayment(r) => r.company case OfBorrowing(r) => r.company
    }

    function Created(): int {
      match this case OfLine(r) => r.created case OfPayment(r) => r.created case OfBorrowing(r) => r.created
    }
  }

  /** What the gates read of the remittance table: each remittance's date, and the finalized (company, date) pairs. */
  datatype Books = Books(dates: map<Id, int>, finalized: set<(Id, int)>)

  const DAY_SECONDS := 86400

  /** The calendar day of a timestamp. */
  function Day(t: int): int { t / DAY_SECONDS }

  /** A linked payment's remittance exists. */
  predicate Resolves(books: Books, rec: Record) {
    rec.OfPayment? && rec.payment.remittance.Some? ==> rec.payment.remittance.value in books.dates
  }

  // ---- The services' gates -------------------------------------------------------------------------

  function LockDate(books: Books, rec: Record): int
    requires Resolves(books, rec)
  {
    match rec
    case OfPayment(pay) =>
      if pay.remittance.Some? then books.dates[pay.remittance.value] else
      if pay.paidAt.Some? then pay.paidAt.value else Day(pay.created)
    case OfLine(row) => row.date
    case OfBorrowing(row) => row.date
  }

  datatype Gate = Passed | Refused(error: Error)

  function VerifyEdit(s: Counters, books: Books, admin: bool, rec: Record, now: int, e: Entry): (Gate, Counters)
    requires Resolves(books, rec)
  {
    var (verdict, after) := LedgerGate(s, now, e);
    if verdict != Accepted then (Refused(PinRejected), after) else
    if admin then (Passed, after) else
    if now - rec.Created() > DAY_SECONDS then (Refused(TooOld), after) else
    if (rec.Company(), LockDate(books, rec)) in books.finalized then (Refused(LockedByFinalized), after) else
    (Passed, after)
  }

  function VerifyDelete(s: Counters, books: Books, admin: bool, rec: Record, now: int, e: Entry): (Gate, Counters)
    requires Resolves(books, rec)
  {
    if !admin then (Refused(AdminOnly), s) else VerifyEdit(s, books, admin, rec, now, e)
  }

  /** The edit gate as the service runs it, on the user's counters in place. */
  method VerifyLedgerEdit(gate: PinGate, books: Books, admin: bool, rec: Record, now: int, e: Entry) returns (r: Gate)
    requires Resolves(books, rec)
    modifies gate
    ensures (r, gate.State()) == VerifyEdit(old(gate.State()), books, admin, rec, now, e)
  {
    var verdict := gate.CheckLedgerPin(now, e);
    if verdict != Accepted { return Refused(PinRejected); }
    if admin { return Passed; }
    if now - rec.Created() > DAY_SECONDS { return Refused(TooOld); }
    var date := LockDate(books, rec);
    if (rec.Company(), date) in books.finalized { return Refused(LockedByFinalized); }
    return Passed;
  }

  method VerifyLedgerDelete(gate: PinGate, books: Books, admin: bool, rec: Record, now: int, e: Entry) returns (r: Gate)
    requires Resolves(books, rec)
    modifies gate
    ensures (r, gate.State()) == VerifyDelete(old(gate.State()), books, admin, rec, now, e)
  {
    if !admin { return Refused(AdminOnly); }
    r := VerifyLedgerEdit(gate, books, admin, rec, now, e);
  }

  // ---- The history page's flags --------------------------------------------------------------------

  datatype Reason = NoReason | Older | DayFinalized | NotAdmin | Linked | PaymentsLinked

  function HistoryEditable(books: Books, admin: bool, rec: Record, now: int): (bool, Reason)
    requires Resolves(books, rec)
  {
    if admin then (true, NoReason) else
    if now - rec.Created() > DAY_SECONDS then (false, Older) else
    var checkDate :=
      if rec.OfPayment? then
        var remittance := rec.payment.remittance;
        if remittance != None then books.dates[remittance.value] else
        if rec.payment.paidAt.Some? then rec.payment.paidAt.value else Day(rec.payment.created)
      else if rec.OfLine? then rec.line.date else rec.borrowing.date;
    if (rec.Company(), checkDate) in books.finalized then (false, DayFinalized) else (true, NoReason)
  }

  function LineDeletable(L: Ledger, admin: bool, l: Id): (bool, Reason) {
    if !admin then (false, NotAdmin) else
    if exists p :: p in L.payments && L.payments[p].line == l && L.payments[p].remittance.Some? then (false, PaymentsLinked) else
    (true, NoReason)
  }

  function PaymentDeletable(L: Ledger, admin: bool, p: Id): (bool, Reason)
    requires p in L.payments
  {
    if !admin then (false, NotAdmin) else
    if L.payments[p].remittance.Some? then (false, Linked) else (true, NoReason)
  }

  function BorrowingDeletable(admin: bool): (bool, Reason) { if !admin then (false, NotAdmin) else (true, NoReason) }

  // ---- The flags predict the services ----------------------------------------------------------------

  /** With the right PIN and neither counter at its limit, an edit passes the gate exactly when the page says
      the record is editable; and the gate's reason is the page's reason. */
  lemma EditablePredictsEdit(s: Counters, books: Books, admin: bool, rec: Record, now: int, e: Entry)
    requires Resolves(books, rec)
    ensures VerifyEdit(s, books, admin, rec, now, e).0 == Passed
       <==> ComparedAs(e) == Right && !Blocked(PIN, s.ledger, now) && !Blocked(PIN, s.pin, now)
            && HistoryEditable(books, admin, rec, now).0
    ensures LedgerGate(s, now, e).0 == Accepted ==>
      match HistoryEditable(books, admin, rec, now).1
      case NoReason => VerifyEdit(s, books, admin, rec, now, e).0 == Passed
      case Older => VerifyEdit(s, books, admin, rec, now, e).0 == Refused(TooOld)
      case DayFinalized => VerifyEdit(s, books, admin, rec, now, e).0 == Refused(LockedByFinalized)
      case _ => false
  {
  }

  /** The whole deletion of a payment: gate, then service. */
  function DeletePaymentRequest(s: Counters, L: Ledger, books: Books, admin: bool, p: Id, now: int, e: Entry): Result<Ledger>
    requires p in L.payments && Resolves(books, OfPayment(L.payments[p]))
  {
    match VerifyDelete(s, books, admin, OfPayment(L.payments[p]), now, e).0
    case Refused(error) => Err(error)
    case Passed => DeletePayment(L, p)
  }

  function DeleteBorrowingRequest(s: Counters, L: Ledger, books: Books, admin: bool, b: Id, now: int, e: Entry): Result<Ledger>
    requires b in L.borrowings
  {
    match VerifyDelete(s, books, admin, OfBorrowing(L.borrowings[b]), now, e).0
    case Refused(error) => Err(error)
    case Passed => DeleteBorrowing(L, b)
  }

  ghost function DeleteLineRequest(s: Counters, L: Ledger, books: Books, admin: bool, l: Id, now: int, e: Entry): Result<Ledger>
    requires l in L.lines
  {
    match VerifyDelete(s, books, admin, OfLine(L.lines[l]), now, e).0
    case Refused(error) => Err(error)
    case Passed => DeleteLine(L, l)
  }

  /** A payment can be deleted exactly when the page says so and the PIN is accepted. */
  lemma DeletablePaymentAlwaysDeletes(s: Counters, L: Ledger, books: Books, admin: bool, p: Id, now: int, e: Entry)
    requires Inv(L) && p in L.payments && Resolves(books, OfPayment(L.payments[p]))
    ensures DeletePaymentRequest(s, L, books, admin, p, now, e).Ok?
       <==> PaymentDeletable(L, admin, p).0 && LedgerGate(s, now, e).0 == Accepted
  {
    PaymentGuardsAreDead(L, p, 0, 0, 0);
    hide Inv;
  }

  lemma DeletableBorrowingAlwaysDeletes(s: Counters, L: Ledger, books: Books, admin: bool, b: Id, now: int, e: Entry)
    requires Inv(L) && b in L.borrowings
    ensures DeleteBorrowingRequest(s, L, books, admin, b, now, e).Ok?
       <==> BorrowingDeletable(admin).0 && LedgerGate(s, now, e).0 == Accepted
  {
    BorrowingGuardsAreDead(L, b, 1, 0, 0);
    hide Inv;
  }

  // ---- Deletable lines -------------------------------------------------------------------------------

  /** What is still owed on each of the customer's lines; negative where it was overpaid. */
  ghost function OpenBalances(L: Ledger, c: Id): map<Id, int> {
    map l | l in L.lines :: if L.lines[l].customer == c then L.lines[l].total - Collected(L, l) else 0
  }

  ghost function CollectedByLine(L: Ledger, c: Id): map<Id, int> {
    map l | l in L.lines :: if L.lines[l].customer == c then Collected(L, l) else 0
  }

  lemma CollectedGroups(L: Ledger, c: Id)
    requires LinesExist(L)
    ensures Sum(CollectedByLine(L, c)) == Sum(OwnedBy(Amounts(L), Payer(L), c))
  {
    var paid := OwnedBy(Amounts(L), Payer(L), c);
    forall l | l in L.lines ensures CollectedByLine(L, c)[l] == Sum(OwnedBy(paid, LineOf(L), l)) {
      if L.lines[l].customer == c {
        assert OwnedBy(paid, LineOf(L), l) == OwnedBy(Amounts(L), LineOf(L), l);
      } else {
        SumZero(OwnedBy(paid, LineOf(L), l));
      }
    }
    SumByOwner(paid, LineOf(L), CollectedByLine(L, c));
  }

  /** A customer's balance is the sum of what is open on each line. */
  lemma OwedByLine(L: Ledger, c: Id)
    requires LinesExist(L)
    ensures Owed(L, c) == Sum(OpenBalances(L, c))
  {
    CollectedGroups(L, c);
    SumDifference(OwnedBy(Totals(L), Debtor(L), c), CollectedByLine(L, c), OpenBalances(L, c));
  }

  /** A line the page calls deletable is refused, with the PIN accepted, exactly when the customer's other lines
      are overpaid in total; so some other line is overpaid, and the error says the balance would go negative. */
  lemma DeletableLineRefusal(s: Counters, L: Ledger, books: Books, l: Id, now: int, e: Entry)
    requires Inv(L) && l in L.lines && LineDeletable(L, true, l).0 && LedgerGate(s, now, e).0 == Accepted
    ensures var c := L.lines[l].customer;
      var r := DeleteLineRequest(s, L, books, true, l, now, e);
      && (r.Err? <==> Sum(OpenBalances(L, c) - {l}) < 0)
      && (r.Err? ==> r == Err(NegativeDebt) && OverpaidElsewhere(L, c, l))
  {
    var c := L.lines[l].customer;
    var rest := OpenBalances(L, c) - {l};
    LineFacts(L, l);
    OwedByLine(L, c);
    SumDrop(OpenBalances(L, c), l);
    if Sum(rest) < 0 {
      SomeNegative(rest);
      var j :| j in rest && rest[j] < 0;
      assert j in L.lines && j != l && L.lines[j].customer == c && L.lines[j].total < Collected(L, j);
    }
    DeleteLineCases(L, l);
    hide Inv, Owed, Collected, DeleteLine;
  }

  ghost predicate OverpaidElsewhere(L: Ledger, c: Id, l: Id) {
    exists j :: j in L.lines && j != l && L.lines[j].customer == c && L.lines[j].total < Collected(L, j)
  }

  lemma DeleteLineCases(L: Ledger, l: Id)
    requires l in L.lines && LineDeletable(L, true, l).0 && L.lines[l].customer in L.customers
    ensures var row := L.lines[l];
      var short := L.customers[row.customer].debt - (row.total - Collected(L, l)) < 0;
      if short then DeleteLine(L, l) == Err(NegativeDebt) else DeleteLine(L, l).Ok?
  {
    hide Collected;
    forall p | p in PaymentsOn(L, l) ensures L.payments[p].remittance.None? {}
  }

  lemma LineFacts(L: Ledger, l: Id)
    requires Inv(L) && l in L.lines
    ensures LinesExist(L) && L.lines[l].customer in L.customers
    ensures L.customers[L.lines[l].customer].debt == Owed(L, L.lines[l].customer)
  {
    hide Owed, UnitsPaid, Out;
    assert LineOk(L, L.lines[l]) && CustomerBalanced(L, L.lines[l].customer);
    forall p | p in L.payments ensures L.payments[p].line in L.lines { assert PaymentOk(L, L.payments[p]); }
  }

  lemma SomeNegative(m: map<Id, int>)
    requires Sum(m) < 0
    ensures exists k :: k in m && m[k] < 0
  {
    if forall k :: k in m ==> 0 <= m[k] { SumNonNegative(m); }
  }

  /** A line the page does not call deletable is always refused. */
  lemma UndeletableLineIsRefused(s: Counters, L: Ledger, books: Books, admin: bool, l: Id, now: int, e: Entry)
    requires l in L.lines && !LineDeletable(L, admin, l).0
    ensures DeleteLineRequest(s, L, books, admin, l, now, e).Err?
  {
    if admin {
      var p :| p in L.payments && L.payments[p].line == l && L.payments[p].remittance.Some?;
      assert p in PaymentsOn(L, l);
    }
  }
}
