/** The recording and editing forms: when they are refused before anything is locked, and what a recorded debt or loan
    leaves in the ledger. */
module RecordedRequests {
  import opened FiniteSums
  import opened Ledger
  import opened RemittanceServices
  import opened EditGate
  import opened RowEffects
  import opened BusinessDays
  import opened Station

  // ---- Refusals ----------------------------------------------------------------------------------------------

  predicate Recordable(f: DateField, today: int) { f.Blank? || (f.On? && f.day <= today) }

  /** The checks of the debt form, in order; the first that fails names the refusal. */
  lemma DebtRefusals(active: bool, product: Option<int>, careOf: CareOf, date: DateField, today: int, qty: int)
    ensures DebtRefusal(active, product, careOf, date, today, qty)
      == if !active then Some(CustomerNotFound) else if product == None then Some(ProductNotFound)
         else if careOf == Unknown then Some(CareOfNotFound)
         else if date == Malformed then Some(BadDate) else if !Recordable(date, today) then Some(FutureDate)
         else if qty <= 0 then Some(BadQuantity) else None
    ensures Recordable(date, today) ==> RecordDate(date, today) == Ok(if date.On? then date.day else today)
  {
  }

  lemma LoanRefusals(active: bool, careOf: CareOf, date: DateField, today: int, kind: Option<Kind>, qty: int)
    ensures LoanRefusal(active, careOf, date, today, kind, qty)
      == if !active then Some(CustomerNotFound) else if careOf == Unknown then Some(CareOfNotFound)
         else if date == Malformed then Some(BadDate) else if !Recordable(date, today) then Some(FutureDate)
         else if kind == None then Some(BadKind) else if qty <= 0 then Some(BadQuantity) else None
  {
  }

  lemma EditRefusals(active: bool, date: DateField, careOf: CareOf, qty: int, price: int, units: int, amount: int, borrowed: int, returned: int)
    ensures LineEditRefusal(active, qty, price, date, careOf)
      == if !active then Some(CustomerNotFound) else if qty < 0 then Some(BadQuantity) else if !date.On? then Some(BadDate)
         else if careOf == Unknown then Some(CareOfNotFound) else if price <= 0 then Some(BadPrice)
         else if qty == 0 then Some(BadQuantity) else None
    ensures PaymentEditRefusal(active, units, amount, date)
      == if !active then Some(CustomerNotFound) else if units < 0 then Some(BadQuantity) else if !date.On? then Some(BadDate)
         else if amount <= 0 then Some(BadAmount) else None
    ensures LoanEditRefusal(active, borrowed, returned, date)
      == if !active then Some(CustomerNotFound) else if borrowed < 0 || returned < 0 then Some(BadQuantity)
         else if !date.On? then Some(BadDate) else if borrowed == 0 then Some(BadQuantity)
         else if returned > borrowed then Some(ReturnedExceedsBorrowed) else None
  {
  }

  // ---- What is recorded --------------------------------------------------------------------------------------

  /** A recorded debt: the line holds what was asked for, at the typed price or without one the product's; the balance
      grows by the total within a positive limit; the last credit date becomes the start of the line's day unless it was
      later already; and the build of that day, and of no other, links the line. */
  lemma DebtIsRecorded(db: Db, key: Id, co: Id, c: Id, product: Id, careOf: Option<Id>, qty: int, typed: int, listed: int,
                       date: int, now: int, rq: Request)
    requires 0 < qty && 0 <= listed
    requires var op := ExtendOp(key, DebtRow(co, c, product, careOf, qty, ChosenPrice(typed, listed), date, now), date * DAY_SECONDS);
      ValidOp(op) && Step(db, LedgerRequest(op)).Ok?
      && Builds(rq) && rq.ro.company == co && Step(After(db, LedgerRequest(op)), rq).Ok?
    ensures c in db.ledger.customers
    ensures var op := ExtendOp(key, DebtRow(co, c, product, careOf, qty, ChosenPrice(typed, listed), date, now), date * DAY_SECONDS);
      var L, R := db.ledger, After(db, LedgerRequest(op)).ledger;
      var price, was := if typed > 0 then typed else listed, L.customers[c];
      && key !in L.lines
      && R.lines == L.lines[key := CreditLine(c, co, product, careOf, qty, qty, price, qty * price, date, now, None)]
      && c in R.customers && R.customers[c].debt == was.debt + qty * price
      && (was.limit > 0 ==> R.customers[c].debt <= was.limit)
      && R.customers[c].lastCredit.Some?
      && R.customers[c].lastCredit.value == (if was.lastCredit.Some? && was.lastCredit.value > 86400 * date then was.lastCredit.value else 86400 * date)
      && var end := After(After(db, LedgerRequest(op)), rq).ledger;
         key in end.lines && end.lines[key].remittance == (if rq.d == date then Some(rq.id) else None)
  {
    var row := DebtRow(co, c, product, careOf, qty, ChosenPrice(typed, listed), date, now);
    var op := ExtendOp(key, row, date * DAY_SECONDS);
    RequestApplies(db, op);
    ExtensionWrites(db.ledger, op);
    NewLineBelongs(db, op, rq);
    assert op.line.customer == c && op.line.date == date && op.line.company == co;
    hide Step, After, Apply, ValidOp;
  }

  /** A recorded loan: the row as asked for with nothing returned, and the counter of its kind raised. */
  lemma LoanIsRecorded(db: Db, key: Id, co: Id, c: Id, kind: Kind, qty: int, date: int, now: int)
    requires var op := LendOp(key, Borrowing(c, co, kind, qty, 0, date, now, None)); Step(db, LedgerRequest(op)).Ok?
    ensures var op := LendOp(key, Borrowing(c, co, kind, qty, 0, date, now, None));
      var L, R := db.ledger, After(db, LedgerRequest(op)).ledger;
      && key !in L.borrowings && R.borrowings == L.borrowings[key := Borrowing(c, co, kind, qty, 0, date, now, None)]
      && c in L.customers && c in R.customers && CountMoved(L.customers[c], R.customers[c], kind, qty)
  {
    var op := LendOp(key, Borrowing(c, co, kind, qty, 0, date, now, None));
    RequestApplies(db, op);
    LoanWrites(db.ledger, op);
    hide Step, After, Apply;
  }
}
