/** The remittance services as operations on the whole database: a remittance of a (company, date) is built,
    replaced, cleared or finalized, and customer payments and credit lines are linked to it and unlinked again.
    Together with the ledger services they are the requests of a run. */
module RemittanceServices {
  import opened FiniteSums
  import opened Ledger
  import opened RemittanceModel
  import opened EditGate

  datatype Db = Db(ledger: Ledger, rems: map<Id, Remittance>)

  /** What the edit gates read of the remittance table. */
  function BooksOf(db: Db): Books {
    Books(map r | r in db.rems :: db.rems[r].date,
          set r | r in db.rems && db.rems[r].status == Status.Finalized :: (db.rems[r].company, db.rems[r].date))
  }

  // ---- What a build reads of the ledger ----------------------------------------------------------------

  /** The payment's business day: `paid_at`, or for old rows the day it was created. */
  predicate PaidOn(pay: Payment, d: int) { pay.paidAt == Some(d) || (pay.paidAt.None? && Day(pay.created) == d) }

  predicate IsEligible(pay: Payment, co: Id, d: int) { pay.company == co && pay.remittance.None? && PaidOn(pay, d) }

  function Eligible(L: Ledger, co: Id, d: int): set<Id> { set p | p in L.payments && IsEligible(L.payments[p], co, d) }

  function RepaymentsOf(L: Ledger, ps: set<Id>): map<Id, Repayment> {
    map p | p in ps && p in L.payments && L.payments[p].line in L.lines ::
      var pay := L.payments[p];
      Repayment(L.lines[pay.line].careOf, L.lines[pay.line].product, pay.containers, pay.amount)
  }

  function CreditsOn(L: Ledger, co: Id, d: int): map<Id, int> {
    map l | l in L.lines && L.lines[l].date == d && L.lines[l].company == co :: L.lines[l].total
  }

  // ---- Links -------------------------------------------------------------------------------------------

  function LinkedPayment(pay: Payment, r: Id, co: Id, d: int): Payment {
    if IsEligible(pay, co, d) then pay.(remittance := Some(r)) else pay
  }

  function LinkedLine(row: CreditLine, r: Id, co: Id, d: int): CreditLine {
    if row.date == d && row.remittance.None? && row.company == co then row.(remittance := Some(r)) else row
  }

  /** Every eligible payment and every unlinked line of the day goes to the remittance. */
  function Link(L: Ledger, r: Id, co: Id, d: int): Ledger {
    L.(payments := map p | p in L.payments :: LinkedPayment(L.payments[p], r, co, d),
       lines := map l | l in L.lines :: LinkedLine(L.lines[l], r, co, d))
  }

  function Freed(link: Option<Id>, rs: set<Id>): Option<Id> { if link.Some? && link.value in rs then None else link }

  function Unlink(L: Ledger, rs: set<Id>): Ledger {
    L.(payments := map p | p in L.payments :: L.payments[p].(remittance := Freed(L.payments[p].remittance, rs)),
       lines := map l | l in L.lines :: L.lines[l].(remittance := Freed(L.lines[l].remittance, rs)))
  }

  // ---- The services ------------------------------------------------------------------------------------

  function OfDay(db: Db, co: Id, d: int): set<Id> {
    set r | r in db.rems && db.rems[r].company == co && db.rems[r].date == d
  }

  predicate SomeFinalized(db: Db, rs: set<Id>) { exists r :: r in rs && r in db.rems && db.rems[r].status == Finalized }

  function Discard(db: Db, rs: set<Id>): Db { Db(Unlink(db.ledger, rs), db.rems - rs) }

  ghost function BuiltRemittance(L: Ledger, ro: Roster, p: Payload, d: int, user: Id, finalized: Option<int>): Remittance {
    var reps := RepaymentsOf(L, Eligible(L, ro.company, d));
    Remittance(ro.company, d, user, if finalized.Some? then Finalized else Draft,
               BuiltFigures(ro, p, reps, Sum(CreditsOn(L, ro.company, d))), p.titheRate, p.offering, false, false,
               if finalized.Some? then Some(user) else None, finalized, BuiltChildren(ro, p, reps))
  }

  /** Builds into a day that has no remittance. `id` is the new row's key, `finalized` the time if it is finalized at once. */
  ghost function BuildDay(db: Db, ro: Roster, p: Payload, d: int, id: Id, user: Id, finalized: Option<int>): Result<Db> {
    if !Acceptable(ro, p) then Err(PayloadRejected) else
    if id in db.rems || OfDay(db, ro.company, d) != {} then Err(ConstraintViolated) else
    Ok(Db(Link(db.ledger, id, ro.company, d), db.rems[id := BuiltRemittance(db.ledger, ro, p, d, user, finalized)]))
  }

  ghost function CreateRemittance(db: Db, ro: Roster, p: Payload, d: int, id: Id, user: Id, finalize: bool, now: int): Result<Db> {
    var day := OfDay(db, ro.company, d);
    if SomeFinalized(db, day) then Err(AlreadyFinalized) else
    if day != {} && !finalize then Err(DraftExists) else
    BuildDay(Discard(db, day), ro, p, d, id, user, if finalize then Some(now) else None)
  }

  ghost function SaveDraft(db: Db, ro: Roster, p: Payload, d: int, id: Id, user: Id): Result<Db> {
    var day := OfDay(db, ro.company, d);
    if SomeFinalized(db, day) then Err(AlreadyFinalized) else
    BuildDay(Discard(db, day), ro, p, d, id, user, None)
  }

  function ClearDraft(db: Db, co: Id, d: int): Result<Db> {
    var day := OfDay(db, co, d);
    if SomeFinalized(db, day) then Err(AlreadyFinalized) else Ok(Discard(db, day))
  }

  predicate HasRemittance(db: Db, co: Id, r: Id) { r in db.rems && db.rems[r].company == co }

  function Finalize(db: Db, co: Id, admin: bool, pinAccepted: bool, r: Id, user: Id, now: int): Result<Db> {
    if !admin then Err(AdminOnly) else
    if !pinAccepted then Err(PinRejected) else
    if !HasRemittance(db, co, r) then Err(RemittanceNotFound) else
    if db.rems[r].status == Finalized then Err(AlreadyFinalized) else
    Ok(db.(rems := db.rems[r := db.rems[r].(status := Finalized, finalizedBy := Some(user), finalizedAt := Some(now))]))
  }

  /** Whether the new flags would take back one that was set. */
  predicate Reverts(rem: Remittance, tithes: bool, offering: bool) {
    (rem.tithesPaid && !tithes) || (rem.offeringPaid && !offering)
  }

  function SetPaid(db: Db, co: Id, r: Id, tithes: bool, offering: bool): Result<Db> {
    if !HasRemittance(db, co, r) then Err(RemittanceNotFound) else
    if db.rems[r].tithesPaid && !tithes then Err(FlagImmutable) else
    if db.rems[r].offeringPaid && !offering then Err(FlagImmutable) else
    Ok(db.(rems := db.rems[r := db.rems[r].(tithesPaid := tithes, offeringPaid := offering)]))
  }

  // ---- Requests ----------------------------------------------------------------------------------------

  /** One request of a run. Rosters, clock readings, new keys and PIN verdicts come with it. */
  datatype Request =
    | LedgerRequest(op: Op)
    | CreateRequest(ro: Roster, p: Payload, d: int, id: Id, user: Id, finalize: bool, now: int)
    | SaveRequest(ro: Roster, p: Payload, d: int, id: Id, user: Id)
    | ClearRequest(co: Id, d: int)
    | FinalizeRequest(co: Id, admin: bool, pinAccepted: bool, r: Id, user: Id, now: int)
    | PaidRequest(co: Id, r: Id, tithes: bool, offering: bool)

  predicate ValidRequest(rq: Request) { rq.LedgerRequest? ==> ValidOp(rq.op) }

  function CustomerOf(op: Op): Option<Id> {
    match op
    case ExtendOp(_, row, _) => Some(row.customer)
    case LendOp(_, row) => Some(row.customer)
    case CreateOp(_, _, _) => None
    case CollectOp(_, c, _, _, _) => Some(c)
    case EditLineOp(c, _, _, _, _, _) => Some(c)
    case EditPaymentOp(c, _, _, _, _, _) => Some(c)
    case EditBorrowingOp(c, _, _, _, _) => Some(c)
    case DeleteLineOp(c, _) => Some(c)
    case DeletePaymentOp(c, _, _) => Some(c)
    case DeleteBorrowingOp(c, _) => Some(c)
    case SetLimitOp(c, _) => Some(c)
    case MarkDeletedOp(c) => Some(c)
  }

  /** The views resolve active customers only. */
  predicate TargetActive(L: Ledger, op: Op) {
    var c := CustomerOf(op);
    c.Some? ==> c.value in L.customers && !L.customers[c.value].deleted
  }

  ghost function LedgerStep(L: Ledger, op: Op): Result<Ledger> {
    if !TargetActive(L, op) then Err(CustomerNotFound) else
    if op.MarkDeletedOp? then SoftDelete(L, op.c) else Apply(L, op)
  }

  /** The outcome of one request, run alone. A refused request changes nothing. */
  ghost function Step(db: Db, rq: Request): Result<Db> {
    match rq
    case LedgerRequest(op) =>
      (match LedgerStep(db.ledger, op) case Ok(L) => Ok(db.(ledger := L)) case Err(e) => Err(e))
    case CreateRequest(ro, p, d, id, user, finalize, now) => CreateRemittance(db, ro, p, d, id, user, finalize, now)
    case SaveRequest(ro, p, d, id, user) => SaveDraft(db, ro, p, d, id, user)
    case ClearRequest(co, d) => ClearDraft(db, co, d)
    case FinalizeRequest(co, admin, pinAccepted, r, user, now) => Finalize(db, co, admin, pinAccepted, r, user, now)
    case PaidRequest(co, r, tithes, offering) => SetPaid(db, co, r, tithes, offering)
  }

  ghost function After(db: Db, rq: Request): Db {
    match Step(db, rq) case Ok(next) => next case Err(_) => db
  }

  ghost function Run(db: Db, rqs: seq<Request>): Db {
    if rqs == [] then db else After(Run(db, rqs[..|rqs| - 1]), rqs[|rqs| - 1])
  }

  // ---- The invariant of runs ---------------------------------------------------------------------------

  /** A link points to a remittance of the row's own company. */
  ghost predicate LinksOk(db: Db) {
    && (forall p :: p in db.ledger.payments && db.ledger.payments[p].remittance.Some? ==>
          HasRemittance(db, db.ledger.payments[p].company, db.ledger.payments[p].remittance.value))
    && (forall l :: l in db.ledger.lines && db.ledger.lines[l].remittance.Some? ==>
          HasRemittance(db, db.ledger.lines[l].company, db.ledger.lines[l].remittance.value))
  }

  predicate SameDay(a: Remittance, b: Remittance) { a.company == b.company && a.date == b.date }

  /** At most one remittance per company and date. */
  ghost predicate OnePerDay(db: Db) {
    forall r, s :: r in db.rems && s in db.rems && SameDay(db.rems[r], db.rems[s]) ==> r == s
  }

  predicate IsDeleted(L: Ledger, c: Id) { c in L.customers && L.customers[c].deleted }

  /** A soft-deleted customer owes nothing and has returned everything. */
  ghost predicate DeletedAreClear(L: Ledger) {
    && (forall c :: IsDeleted(L, c) ==> L.customers[c].debt == 0)
    && (forall b :: b in L.borrowings && IsDeleted(L, L.borrowings[b].customer) ==> L.borrowings[b].Outstanding() == 0)
  }

  ghost predicate DbOk(db: Db) {
    Inv(db.ledger) && Priced(db.ledger) && LinksOk(db) && OnePerDay(db) && DeletedAreClear(db.ledger)
  }
}
