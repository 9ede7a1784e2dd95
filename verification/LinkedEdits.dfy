/** The edit that unbalances a remittance is not a corner no request reaches: editing the amount of a linked payment
    goes through on a draft and, for an administrator, on a finalized day. */
module LinkedEdits {
  import opened FiniteSums
  import opened Ledger
  import opened LedgerProofs
  import opened LedgerEffects
  import AttemptLimiter
  import opened EditGate
  import opened RemittanceModel
  import opened RunSafety
  import opened RepaymentTotals
  import R = RemittanceServices

  /** A new amount for a payment, its units kept. */
  function Amend(L: Ledger, p: Id, amount: int, at: int): Op
    requires p in L.payments && L.payments[p].line in L.lines
  {
    var pay := L.payments[p];
    EditPaymentOp(L.lines[pay.line].customer, pay.line, p, pay.containers, amount, at)
  }

  predicate LinkedAndActive(db: R.Db, p: Id) {
    && p in db.ledger.payments && db.ledger.payments[p].remittance.Some? && db.ledger.payments[p].line in db.ledger.lines
    && R.TargetActive(db.ledger, Amend(db.ledger, p, 0, 0))
  }

  /** In every database in order, whatever the status of the remittance: the amount of a linked payment can be set to
      anything positive the balance allows, and moves the drift of its remittance by exactly the change. */
  lemma LinkedAmountCanChange(db: R.Db, p: Id, amount: int, at: int)
    requires R.DbOk(db) && LinkedAndActive(db, p)
    ensures var op, pay := Amend(db.ledger, p, amount, at), db.ledger.payments[p];
      var after := R.After(db, R.LedgerRequest(op));
      && db.ledger.lines[pay.line].customer in db.ledger.customers && pay.remittance.value in db.rems
      && after.rems == db.rems
      && (GoesThrough(db.ledger, op) <==> 0 < amount <= db.ledger.customers[db.ledger.lines[pay.line].customer].debt + pay.amount)
      && (GoesThrough(db.ledger, op) ==>
            Drift(after, pay.remittance.value) == Drift(db, pay.remittance.value) + pay.amount - amount)
  {
    AmendFacts(db, p, amount, at);
    var L, op := db.ledger, Amend(db.ledger, p, amount, at);
    hide *;
    OrderedLedger(db);
    LinkTarget(db, p);
    AmendOutcome(L, p, amount, at);
    AmendStep(db, op);
    if GoesThrough(L, op) { LedgerRequestDrift(db, op, L.payments[p].remittance.value); }
  }

  lemma AmendFacts(db: R.Db, p: Id, amount: int, at: int)
    requires LinkedAndActive(db, p)
    ensures var op, pay := Amend(db.ledger, p, amount, at), db.ledger.payments[p];
      && R.TargetActive(db.ledger, op) && op.EditPaymentOp? && pay.remittance.Some?
      && DriftFrom(db.ledger, R.LedgerRequest(op), pay.remittance.value) == pay.amount - amount
      && (EditsLinkedAmount(db.ledger, R.LedgerRequest(op)) <==> amount != pay.amount)
  {
  }

  /** The service accepts the request. */
  ghost predicate GoesThrough(L: Ledger, op: Op) { ValidOp(op) && R.LedgerStep(L, op).Ok? }

  lemma OrderedLedger(db: R.Db)
    requires R.DbOk(db)
    ensures Inv(db.ledger)
  {
  }

  lemma AmendStep(db: R.Db, op: Op)
    requires R.TargetActive(db.ledger, op) && !op.MarkDeletedOp?
    ensures R.LedgerStep(db.ledger, op) == Apply(db.ledger, op) && (GoesThrough(db.ledger, op) ==> ValidOp(op))
    ensures GoesThrough(db.ledger, op) <==> ValidOp(op) && Apply(db.ledger, op).Ok?
    ensures R.After(db, R.LedgerRequest(op)).rems == db.rems
    ensures R.LedgerStep(db.ledger, op).Ok? ==>
      R.After(db, R.LedgerRequest(op)) == db.(ledger := R.LedgerStep(db.ledger, op).value)
  {
    hide Apply;
  }

  lemma AmendOutcome(L: Ledger, p: Id, amount: int, at: int)
    requires Inv(L) && p in L.payments && L.payments[p].line in L.lines
    ensures var op, c := Amend(L, p, amount, at), L.lines[L.payments[p].line].customer;
      && c in L.customers
      && (ValidOp(op) && Apply(L, op).Ok? <==> 0 < amount <= L.customers[c].debt + L.payments[p].amount)
  {
    PaymentHasUnits(L, p);
    PaymentHasLine(L, p);
    LineInRange(L, L.payments[p].line);
    hide Inv;
  }

  lemma LineInRange(L: Ledger, l: Id)
    requires Inv(L) && l in L.lines
    ensures 0 <= L.lines[l].remaining <= L.lines[l].credited
  {
    hide Owed, Out, UnitsPaid;
    assert LineOk(L, L.lines[l]);
  }

  /** The gate does not stop an administrator on a finalized day; it stops everyone else there. */
  lemma FinalizedDayGate(s: AttemptLimiter.Counters, db: R.Db, p: Id, now: int, e: AttemptLimiter.Entry)
    requires R.LinksOk(db) && p in db.ledger.payments && db.ledger.payments[p].remittance.Some?
    ensures var pay, rec := db.ledger.payments[p], OfPayment(db.ledger.payments[p]);
      && Resolves(R.BooksOf(db), rec) && pay.remittance.value in db.rems
      && (VerifyEdit(s, R.BooksOf(db), true, rec, now, e).0 == Passed <==> AttemptLimiter.LedgerGate(s, now, e).0 == AttemptLimiter.Accepted)
      && (db.rems[pay.remittance.value].status == Finalized ==> VerifyEdit(s, R.BooksOf(db), false, rec, now, e).0 != Passed)
  {
  }

  // ---- The gate on the database ----------------------------------------------------------------------------

  /** The business day an edit of the record touches. */
  predicate OnDay(db: R.Db, rec: Record, d: int) {
    match rec
    case OfLine(row) => row.date == d
    case OfBorrowing(row) => row.date == d
    case OfPayment(pay) =>
      if pay.remittance.Some? then pay.remittance.value in db.rems && db.rems[pay.remittance.value].date == d
      else if pay.paidAt.Some? then pay.paidAt.value == d
      else 86400 * d <= pay.created < 86400 * (d + 1)
  }

  predicate OwnRecord(rec: Record, co: Id, created: int) {
    match rec
    case OfLine(row) => row.company == co && row.created == created
    case OfBorrowing(row) => row.company == co && row.created == created
    case OfPayment(pay) => pay.company == co && pay.created == created
  }

  /** Who may edit a record: with an accepted PIN administrators always, and others while the record is at most 24 hours
      old and no remittance of its company and day is finalized. */
  lemma GateMeaning(s: AttemptLimiter.Counters, db: R.Db, admin: bool, rec: Record, co: Id, created: int, now: int, e: AttemptLimiter.Entry)
    requires Resolves(R.BooksOf(db), rec) && OwnRecord(rec, co, created)
    ensures VerifyEdit(s, R.BooksOf(db), admin, rec, now, e).0 == Passed <==>
      AttemptLimiter.LedgerGate(s, now, e).0 == AttemptLimiter.Accepted
      && (admin || (now - created <= 86400 && !FinalOn(db, rec, co)))
    ensures VerifyDelete(s, R.BooksOf(db), admin, rec, now, e).0 == Passed <==>
      admin && AttemptLimiter.LedgerGate(s, now, e).0 == AttemptLimiter.Accepted
  {
    var d := LockDate(R.BooksOf(db), rec);
    DayIs(db, rec);
    FinalPairs(db, co, d);
    assert FinalOn(db, rec, co) <==> (co, d) in R.BooksOf(db).finalized;
    hide AttemptLimiter.LedgerGate, R.BooksOf, LockDate, OnDay;
  }

  ghost predicate FinalOn(db: R.Db, rec: Record, co: Id) {
    exists r :: r in db.rems && db.rems[r].status == Finalized && db.rems[r].company == co && OnDay(db, rec, db.rems[r].date)
  }

  lemma DayIs(db: R.Db, rec: Record)
    requires Resolves(R.BooksOf(db), rec)
    ensures forall d :: OnDay(db, rec, d) <==> d == LockDate(R.BooksOf(db), rec)
  {
  }

  lemma FinalPairs(db: R.Db, co: Id, d: int)
    ensures (co, d) in R.BooksOf(db).finalized
       <==> exists r :: r in db.rems && db.rems[r].status == Finalized && db.rems[r].company == co && db.rems[r].date == d
  {
  }

  // ---- A database where it happens -----------------------------------------------------------------------

  /** Two units on credit at 100; one of them paid and linked to the day's remittance. */
  function TwoUnits(): CreditLine { CreditLine(0, 0, 0, None, 2, 1, 100, 200, 1, 86400, Some(0)) }

  function OnePaid(): Payment { Payment(0, 0, 1, 100, Some(1), 86400, Some(0)) }

  function OneDebtor(): Ledger {
    Ledger(map[0 := Customer(0, 100, 0, 0, 0, 0, Some(86400), false)], map[0 := TwoUnits()], map[0 := OnePaid()], map[])
  }

  function OneDay(status: Status): Remittance {
    Remittance(0, 1, 9, status, Figures(0, 200, 0, 0, 0, 0, 0, 100, 0, 0, 0), 0, 0, false, false, None, None,
               Children(map[], map[], [], map[]))
  }

  function OneLinked(status: Status): R.Db { R.Db(OneDebtor(), map[0 := OneDay(status)]) }

  lemma SumOne(m: map<Id, int>, v: int)
    requires m.Keys == {0} && m[0] == v
    ensures Sum(m) == v
  {
    SumEmpty();
    var none: map<Id, int> := map[];
    SumPut(none, 0, v);
    assert m == none[0 := v];
  }

  lemma DebtorOwes(L: Ledger)
    requires L == OneDebtor()
    ensures Owed(L, 0) == 100
  {
    SumOne(OwnedBy(Totals(L), Debtor(L), 0), 200);
    SumOne(OwnedBy(Amounts(L), Payer(L), 0), 100);
  }

  lemma DebtorPaid(L: Ledger)
    requires L == OneDebtor()
    ensures UnitsPaid(L, 0) == 1
  {
    SumOne(OwnedBy(Units(L), LineOf(L), 0), 1);
  }

  lemma NothingOut(L: Ledger, c: Id, k: Kind)
    requires L.borrowings == map[]
    ensures Out(L, c, k) == 0
  {
    SumZero(OwnedBy(OutOfKind(L, k), Borrower(L), c));
  }

  lemma DebtorBalanced(L: Ledger)
    requires L == OneDebtor()
    ensures forall c :: c in L.customers ==> CustomerBalanced(L, c)
    ensures forall l :: l in L.lines ==> LineBalanced(L, l)
  {
    DebtorOwes(L);
    DebtorPaid(L);
    hide Owed, Out, UnitsPaid;
    forall c | c in L.customers ensures CustomerBalanced(L, c) {
      forall k ensures L.customers[c].Counter(k) == Out(L, c, k) { NothingOut(L, c, k); }
    }
  }

  lemma DebtorInOrder(L: Ledger)
    requires L == OneDebtor()
    ensures Inv(L) && Priced(L) && R.DeletedAreClear(L)
  {
    DebtorBalanced(L);
    DebtorRows(L);
    hide Owed, Out, UnitsPaid, CustomerBalanced, LineBalanced, RowsOk, Priced, R.DeletedAreClear;
  }

  lemma DebtorRows(L: Ledger)
    requires L == OneDebtor()
    ensures RowsOk(L) && Priced(L) && R.DeletedAreClear(L)
  {
  }

  lemma OneLinkedOk(status: Status)
    ensures R.DbOk(OneLinked(status)) && Balanced(OneLinked(status)) && LinkedAndActive(OneLinked(status), 0)
  {
    var db := OneLinked(status);
    DebtorInOrder(db.ledger);
    OneLinkedBalanced(db, status);
    OneLinkedLinks(db, status);
    hide Inv, Priced, R.DeletedAreClear, R.LinksOk, R.OnePerDay, Balanced, LinkedAndActive;
  }

  lemma OneLinkedLinks(db: R.Db, status: Status)
    requires db == OneLinked(status)
    ensures R.LinksOk(db) && R.OnePerDay(db) && LinkedAndActive(db, 0)
  {
  }

  lemma OneLinkedBalanced(db: R.Db, status: Status)
    requires db == OneLinked(status)
    ensures Balanced(db)
  {
    SumOne(LinkedAmounts(db.ledger, 0), 100);
  }

  /** The edit of payment `p` goes through and leaves the balanced books unbalanced, by the change of amount. */
  ghost predicate Unbalances(db: R.Db, p: Id, amount: int, at: int)
    requires LinkedAndActive(db, p)
  {
    var rq := R.LedgerRequest(Amend(db.ledger, p, amount, at));
    var after, r := R.After(db, rq), db.ledger.payments[p].remittance.value;
    && R.DbOk(db) && Balanced(db) && R.ValidRequest(rq) && R.Step(db, rq).Ok? && EditsLinkedAmount(db.ledger, rq)
    && after.rems == db.rems && r in db.rems && Drift(after, r) == db.ledger.payments[p].amount - amount && !Balanced(after)
  }

  /** Every other amount the balance allows does. */
  lemma OtherAmountUnbalances(db: R.Db, p: Id, amount: int, at: int)
    requires R.DbOk(db) && Balanced(db) && LinkedAndActive(db, p) && GoesThrough(db.ledger, Amend(db.ledger, p, amount, at))
    requires amount != db.ledger.payments[p].amount
    ensures Unbalances(db, p, amount, at)
  {
    var L, op := db.ledger, Amend(db.ledger, p, amount, at);
    var after := R.After(db, R.LedgerRequest(op));
    AmendFacts(db, p, amount, at);
    assert p in L.payments;
    var r := L.payments[p].remittance.value;
    hide *;
    AmendRequest(db, op);
    LinkedAmountCanChange(db, p, amount, at);
    DriftTells(db, r);
    DriftTells(after, r);
    UnbalancesFrom(db, p, amount, at, after);
  }

  lemma UnbalancesFrom(db: R.Db, p: Id, amount: int, at: int, after: R.Db)
    requires LinkedAndActive(db, p) && R.DbOk(db) && Balanced(db) && !Balanced(after)
    requires db.ledger.payments[p].remittance.Some?
    requires var rq, r := R.LedgerRequest(Amend(db.ledger, p, amount, at)), db.ledger.payments[p].remittance.value;
      && after == R.After(db, rq) && R.ValidRequest(rq) && R.Step(db, rq).Ok? && EditsLinkedAmount(db.ledger, rq)
      && after.rems == db.rems && r in db.rems && Drift(after, r) == db.ledger.payments[p].amount - amount
    ensures Unbalances(db, p, amount, at)
  {
    hide R.DbOk, Balanced, R.After, R.Step, R.ValidRequest, EditsLinkedAmount, Drift, LinkedAndActive, Amend;
  }

  lemma DriftTells(db: R.Db, r: Id)
    requires r in db.rems
    ensures Balanced(db) ==> Drift(db, r) == 0
  {
    hide Drift;
  }

  lemma AmendRequest(db: R.Db, op: Op)
    requires GoesThrough(db.ledger, op)
    ensures R.ValidRequest(R.LedgerRequest(op)) && R.Step(db, R.LedgerRequest(op)).Ok?
  {
    hide ValidOp, R.LedgerStep;
  }

  lemma OneLinkedAmounts(status: Status)
    ensures var db := OneLinked(status);
      && db.rems[0].status == status && db.ledger.payments[0] == OnePaid() && OnePaid().remittance == Some(0)
      && OnePaid().amount == 100
      && db.ledger.lines[0].customer == 0 && db.ledger.customers[0].debt == 100 && OnePaid().line == 0
  {
  }

  lemma OrderedLinks(db: R.Db)
    requires R.DbOk(db)
    ensures R.LinksOk(db)
  {
  }

  /** From books in order and balanced, on a draft or a finalized day: an administrator whose PIN is accepted passes the
      gate, and raising the linked payment from 100 to 150 goes through and leaves the remittance 50 behind. */
  lemma UnbalancingEditHappens(status: Status, s: AttemptLimiter.Counters, now: int, e: AttemptLimiter.Entry)
    ensures var db := OneLinked(status);
      && LinkedAndActive(db, 0) && Unbalances(db, 0, 150, 1) && 0 in db.rems && db.rems[0].status == status
      && db.ledger.payments[0] == OnePaid() && OnePaid().remittance == Some(0) && OnePaid().amount == 100
      && Resolves(R.BooksOf(db), OfPayment(OnePaid()))
      && (VerifyEdit(s, R.BooksOf(db), true, OfPayment(OnePaid()), now, e).0 == Passed <==>
            AttemptLimiter.LedgerGate(s, now, e).0 == AttemptLimiter.Accepted)
  {
    var db := OneLinked(status);
    OneLinkedOk(status);
    OneLinkedAmounts(status);
    assert 0 in db.ledger.payments && 0 in db.rems && 0 in db.ledger.lines && 0 in db.ledger.customers;
    hide *;
    OrderedLinks(db);
    FinalizedDayGate(s, db, 0, now, e);
    LinkedAmountCanChange(db, 0, 150, 1);
    OtherAmountUnbalances(db, 0, 150, 1);
  }
}
