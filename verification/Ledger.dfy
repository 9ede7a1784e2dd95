/** The customer ledger: its tables, the invariant that ties every stored aggregate to the rows
    it summarises, and what each service does to the tables once it holds its row locks.
    Money is in centavos, dates are day numbers, timestamps are seconds. */
module Ledger {
  import opened FiniteSums

  datatype Kind = Round | Slim | OtherKind

  datatype Customer = Customer(company: Id, debt: int, limit: int, round: int, slim: int, other: int,
                               lastCredit: Option<int>, deleted: bool) {
    function Counter(k: Kind): int {
      match k case Round => round case Slim => slim case OtherKind => other
    }

    function AddToCounter(k: Kind, n: int): Customer {
      match k
      case Round => this.(round := round + n)
      case Slim => this.(slim := slim + n)
      case OtherKind => this.(other := other + n)
    }
  }

  datatype CreditLine = CreditLine(customer: Id, company: Id, product: Id, careOf: Option<Id>,
                                   credited: int, remaining: int, price: int, total: int,
                                   date: int, created: int, remittance: Option<Id>)

  datatype Payment = Payment(line: Id, company: Id, containers: int, amount: int,
                             paidAt: Option<int>, created: int, remittance: Option<Id>)

  datatype Borrowing = Borrowing(customer: Id, company: Id, kind: Kind, borrowed: int, returned: int,
                                 date: int, created: int, returnedAt: Option<int>) {
    function Outstanding(): int { borrowed - returned }
  }

  datatype Ledger = Ledger(customers: map<Id, Customer>, lines: map<Id, CreditLine>,
                           payments: map<Id, Payment>, borrowings: map<Id, Borrowing>)

  datatype Error =
    | CustomerNotFound | LineNotFound | PaymentNotFound | BorrowingNotFound | RemittanceNotFound
    | ProductNotFound | CareOfNotFound
    | BadQuantity | BadPrice | BadAmount | BadDate | FutureDate | BadKind | NothingToRecord
    | OverReturn | OverPay | OverCredited | Stale | BelowPaid | ReturnedExceedsBorrowed
    | LimitExceeded | NegativeDebt | NegativeCount | LinkedToRemittance | HasPendingItems
    | PinRejected | AdminOnly | TooOld | LockedByFinalized
    | AlreadyFinalized | DraftExists | FlagImmutable | PayloadRejected
    | ConstraintViolated  // a CHECK, UNIQUE or PRIMARY KEY constraint of the database

  datatype Result<+T> = Ok(value: T) | Err(error: Error)

  // ---- Aggregates recomputed from the rows -------------------------------------------------

  function Totals(L: Ledger): map<Id, int> { map l | l in L.lines :: L.lines[l].total }

  function Debtor(L: Ledger): map<Id, Id> { map l | l in L.lines :: L.lines[l].customer }

  function Amounts(L: Ledger): map<Id, int> { map p | p in L.payments :: L.payments[p].amount }

  function Units(L: Ledger): map<Id, int> { map p | p in L.payments :: L.payments[p].containers }

  function LineOf(L: Ledger): map<Id, Id> { map p | p in L.payments :: L.payments[p].line }

  function Payer(L: Ledger): map<Id, Id> {
    map p | p in L.payments && L.payments[p].line in L.lines :: L.lines[L.payments[p].line].customer
  }

  function OutOfKind(L: Ledger, k: Kind): map<Id, int> {
    map b | b in L.borrowings :: if L.borrowings[b].kind == k then L.borrowings[b].Outstanding() else 0
  }

  function Borrower(L: Ledger): map<Id, Id> { map b | b in L.borrowings :: L.borrowings[b].customer }

  /** Credits extended to a customer, less everything the customer paid. */
  ghost function Owed(L: Ledger, c: Id): int {
    Sum(OwnedBy(Totals(L), Debtor(L), c)) - Sum(OwnedBy(Amounts(L), Payer(L), c))
  }

  /** Units paid on a line. */
  ghost function UnitsPaid(L: Ledger, l: Id): int { Sum(OwnedBy(Units(L), LineOf(L), l)) }

  /** Money collected on a line. */
  ghost function Collected(L: Ledger, l: Id): int { Sum(OwnedBy(Amounts(L), LineOf(L), l)) }

  /** Containers of one kind a customer still has. */
  ghost function Out(L: Ledger, c: Id, k: Kind): int { Sum(OwnedBy(OutOfKind(L, k), Borrower(L), c)) }

  // ---- The invariant ------------------------------------------------------------------------

  predicate LineOk(L: Ledger, row: CreditLine) {
    && row.customer in L.customers && row.company == L.customers[row.customer].company
    && 1 <= row.credited && 0 <= row.remaining <= row.credited
    && 0 <= row.price && 0 <= row.total
  }

  predicate PaymentOk(L: Ledger, row: Payment) {
    && row.line in L.lines && row.company == L.lines[row.line].company
    && 0 <= row.containers && 0 <= row.amount
  }

  predicate BorrowingOk(L: Ledger, row: Borrowing) {
    && row.customer in L.customers && row.company == L.customers[row.customer].company
    && 1 <= row.borrowed && 0 <= row.returned <= row.borrowed
  }

  ghost predicate RowsOk(L: Ledger) {
    && (forall l :: l in L.lines ==> LineOk(L, L.lines[l]))
    && (forall p :: p in L.payments ==> PaymentOk(L, L.payments[p]))
    && (forall b :: b in L.borrowings ==> BorrowingOk(L, L.borrowings[b]))
    && (forall c :: c in L.customers ==> 0 <= L.customers[c].debt && 0 <= L.customers[c].limit)
  }

  ghost predicate CustomerBalanced(L: Ledger, c: Id)
    requires c in L.customers
  {
    && L.customers[c].debt == Owed(L, c)
    && forall k :: L.customers[c].Counter(k) == Out(L, c, k)
  }

  ghost predicate LineBalanced(L: Ledger, l: Id)
    requires l in L.lines
  {
    L.lines[l].remaining == L.lines[l].credited - UnitsPaid(L, l)
  }

  /** Every stored aggregate equals the sum of the rows it summarises. */
  ghost predicate Inv(L: Ledger) {
    && RowsOk(L)
    && (forall c :: c in L.customers ==> CustomerBalanced(L, c))
    && (forall l :: l in L.lines ==> LineBalanced(L, l))
  }

  /** A line's total is its quantity at its snapshot price. */
  predicate PriceOk(row: CreditLine) { row.total == row.credited * row.price }

  ghost predicate Priced(L: Ledger) { forall l :: l in L.lines ==> PriceOk(L.lines[l]) }

  // ---- Row primitives -----------------------------------------------------------------------

  function PutCustomer(L: Ledger, c: Id, row: Customer): Ledger { L.(customers := L.customers[c := row]) }

  function PutLine(L: Ledger, l: Id, row: CreditLine): Ledger { L.(lines := L.lines[l := row]) }

  function PutPayment(L: Ledger, p: Id, row: Payment): Ledger { L.(payments := L.payments[p := row]) }

  function PutBorrowing(L: Ledger, b: Id, row: Borrowing): Ledger { L.(borrowings := L.borrowings[b := row]) }

  function AddDebt(L: Ledger, c: Id, n: int): Ledger
    requires c in L.customers
  {
    PutCustomer(L, c, L.customers[c].(debt := L.customers[c].debt + n))
  }

  function AddCount(L: Ledger, c: Id, k: Kind, n: int): Ledger
    requires c in L.customers
  {
    PutCustomer(L, c, L.customers[c].AddToCounter(k, n))
  }

  function PaymentsOn(L: Ledger, l: Id): set<Id> {
    set p | p in L.payments && L.payments[p].line == l
  }

  // ---- Services, from the point where they hold their row locks ------------------------------

  /** A backdated extension never moves the last credit date backwards. */
  function Later(a: Option<int>, t: int): (r: Option<int>)
    ensures r.Some? && t <= r.value && (a.Some? ==> a.value <= r.value) && (r == a || r == Some(t))
  {
    if a.Some? && a.value > t then a else Some(t)
  }

  /** Extend credit: the balance after the new line may not pass a positive limit. */
  function Extend(L: Ledger, id: Id, row: CreditLine, start: int): Result<Ledger> {
    var c := row.customer;
    if c !in L.customers then Err(CustomerNotFound) else
    var cust := L.customers[c];
    if cust.limit > 0 && cust.debt + row.total > cust.limit then Err(LimitExceeded) else
    if id in L.lines then Err(ConstraintViolated) else
    Ok(PutCustomer(PutLine(L, id, row), c,
                   cust.(debt := cust.debt + row.total, lastCredit := Later(cust.lastCredit, start))))
  }

  function Lend(L: Ledger, id: Id, row: Borrowing): Result<Ledger> {
    if row.customer !in L.customers then Err(CustomerNotFound) else
    if id in L.borrowings then Err(ConstraintViolated) else
    Ok(AddCount(PutBorrowing(L, id, row), row.customer, row.kind, row.borrowed))
  }

  datatype ReturnEntry = ReturnEntry(borrowing: Id, qty: int, at: int)

  /** `id` is the key the new payment row will get. */
  datatype PayEntry = PayEntry(id: Id, line: Id, units: int, amount: int, at: int)

  function ReturnOne(L: Ledger, c: Id, r: ReturnEntry): Ledger
    requires c in L.customers && r.borrowing in L.borrowings
  {
    var row := L.borrowings[r.borrowing];
    AddCount(PutBorrowing(L, r.borrowing, row.(returned := row.returned + r.qty, returnedAt := Some(r.at))),
             c, row.kind, -r.qty)
  }

  function PaymentRow(company: Id, now: int, e: PayEntry): Payment {
    Payment(e.line, company, e.units, e.amount, Some(e.at), now, None)
  }

  function PayOne(L: Ledger, company: Id, now: int, e: PayEntry): Ledger
    requires e.line in L.lines
  {
    var row := L.lines[e.line];
    PutLine(PutPayment(L, e.id, PaymentRow(company, now, e)), e.line, row.(remaining := row.remaining - e.units))
  }

  function ApplyReturns(L: Ledger, c: Id, rs: seq<ReturnEntry>): (R: Ledger)
    requires c in L.customers && forall i :: 0 <= i < |rs| ==> rs[i].borrowing in L.borrowings
    ensures R.customers.Keys == L.customers.Keys && R.borrowings.Keys == L.borrowings.Keys
    ensures R.lines == L.lines && R.payments == L.payments
  {
    if rs == [] then L else
    ReturnOne(ApplyReturns(L, c, rs[..|rs| - 1]), c, rs[|rs| - 1])
  }

  function ApplyPayments(L: Ledger, company: Id, now: int, es: seq<PayEntry>): (R: Ledger)
    requires forall i :: 0 <= i < |es| ==> es[i].line in L.lines
    ensures R.lines.Keys == L.lines.Keys && R.customers == L.customers && R.borrowings == L.borrowings
  {
    if es == [] then L else
    PayOne(ApplyPayments(L, company, now, es[..|es| - 1]), company, now, es[|es| - 1])
  }

  /** Containers a batch returns on one borrowing, however many entries name it. */
  function Returned(rs: seq<ReturnEntry>, b: Id): int {
    if rs == [] then 0 else
    Returned(rs[..|rs| - 1], b) + (if rs[|rs| - 1].borrowing == b then rs[|rs| - 1].qty else 0)
  }

  /** Units a batch pays on one line, however many entries name it. */
  function Paid(es: seq<PayEntry>, l: Id): int {
    if es == [] then 0 else
    Paid(es[..|es| - 1], l) + (if es[|es| - 1].line == l then es[|es| - 1].units else 0)
  }

  function TotalCollected(es: seq<PayEntry>): int {
    if es == [] then 0 else TotalCollected(es[..|es| - 1]) + es[|es| - 1].amount
  }

  /** The per-entry re-check made under the row locks. A row's customer never changes and keys are
      never handed out twice, so the customer and company match found before locking still holds here. */
  predicate ReturnFits(L: Ledger, co: Id, c: Id, r: ReturnEntry) {
    && r.borrowing in L.borrowings
    && L.borrowings[r.borrowing].customer == c && L.borrowings[r.borrowing].company == co
    && r.qty <= L.borrowings[r.borrowing].Outstanding()
  }

  predicate PaymentFits(L: Ledger, co: Id, c: Id, e: PayEntry) {
    && e.line in L.lines && L.lines[e.line].customer == c && L.lines[e.line].company == co
    && e.units <= L.lines[e.line].remaining
  }

  predicate Recheck(L: Ledger, co: Id, c: Id, rs: seq<ReturnEntry>, es: seq<PayEntry>) {
    && (forall i :: 0 <= i < |rs| ==> ReturnFits(L, co, c, rs[i]))
    && (forall i :: 0 <= i < |es| ==> PaymentFits(L, co, c, es[i]))
  }

  predicate FreshKeys(L: Ledger, es: seq<PayEntry>) {
    && (forall i :: 0 <= i < |es| ==> es[i].id !in L.payments)
    && (forall i, j :: 0 <= i < j < |es| ==> es[i].id != es[j].id)
  }

  /** The batch as a whole fits: what the database constraints let through. */
  predicate BatchFits(L: Ledger, c: Id, rs: seq<ReturnEntry>, es: seq<PayEntry>)
    requires c in L.customers
  {
    && (forall b :: b in L.borrowings ==> Returned(rs, b) <= L.borrowings[b].Outstanding())
    && (forall l :: l in L.lines ==> Paid(es, l) <= L.lines[l].remaining)
    && TotalCollected(es) <= L.customers[c].debt
    && FreshKeys(L, es)
  }

  function Collect(L: Ledger, co: Id, c: Id, now: int, rs: seq<ReturnEntry>, es: seq<PayEntry>): Result<Ledger> {
    if c !in L.customers then Err(CustomerNotFound) else
    if !Recheck(L, co, c, rs, es) then Err(Stale) else
    if !BatchFits(L, c, rs, es) then Err(ConstraintViolated) else
    Ok(AddDebt(ApplyPayments(ApplyReturns(L, c, rs), co, now, es), c, -TotalCollected(es)))
  }

  function EditLine(L: Ledger, l: Id, qty: int, price: int, careOf: Option<Id>, date: int): Result<Ledger> {
    if l !in L.lines then Err(LineNotFound) else
    var row := L.lines[l];
    var remaining := qty - (row.credited - row.remaining);
    if remaining < 0 then Err(BelowPaid) else
    if row.customer !in L.customers then Err(CustomerNotFound) else
    var cust := L.customers[row.customer];
    var projected := cust.debt + qty * price - row.total;
    if projected < 0 then Err(NegativeDebt) else
    if cust.limit > 0 && projected > cust.limit then Err(LimitExceeded) else
    Ok(AddDebt(PutLine(L, l, row.(credited := qty, remaining := remaining, price := price,
                                  total := qty * price, careOf := careOf, date := date)),
               row.customer, qty * price - row.total))
  }

  function EditPayment(L: Ledger, p: Id, units: int, amount: int, at: int): Result<Ledger> {
    if p !in L.payments then Err(PaymentNotFound) else
    var pay := L.payments[p];
    if pay.line !in L.lines then Err(LineNotFound) else
    var row := L.lines[pay.line];
    var remaining := row.remaining - (units - pay.containers);
    if remaining < 0 then Err(OverPay) else
    if remaining > row.credited then Err(OverCredited) else
    if row.customer !in L.customers then Err(CustomerNotFound) else
    if L.customers[row.customer].debt + pay.amount - amount < 0 then Err(NegativeDebt) else
    Ok(AddDebt(PutLine(PutPayment(L, p, pay.(containers := units, amount := amount, paidAt := Some(at))),
                       pay.line, row.(remaining := remaining)),
               row.customer, pay.amount - amount))
  }

  function EditBorrowing(L: Ledger, b: Id, borrowed: int, returned: int, date: int): Result<Ledger> {
    if b !in L.borrowings then Err(BorrowingNotFound) else
    var row := L.borrowings[b];
    if row.customer !in L.customers then Err(CustomerNotFound) else
    var change := borrowed - returned - row.Outstanding();
    if L.customers[row.customer].Counter(row.kind) + change < 0 then Err(NegativeCount) else
    Ok(AddCount(PutBorrowing(L, b, row.(borrowed := borrowed, returned := returned, date := date)),
                row.customer, row.kind, change))
  }

  ghost function DeleteLine(L: Ledger, l: Id): Result<Ledger> {
    if l !in L.lines then Err(LineNotFound) else
    var row := L.lines[l];
    if exists p :: p in PaymentsOn(L, l) && L.payments[p].remittance.Some? then Err(LinkedToRemittance) else
    if row.customer !in L.customers then Err(CustomerNotFound) else
    var outstanding := row.total - Collected(L, l);
    if L.customers[row.customer].debt - outstanding < 0 then Err(NegativeDebt) else
    Ok(AddDebt(L.(payments := L.payments - PaymentsOn(L, l), lines := L.lines - {l}), row.customer, -outstanding))
  }

  function DeletePayment(L: Ledger, p: Id): Result<Ledger> {
    if p !in L.payments then Err(PaymentNotFound) else
    var pay := L.payments[p];
    if pay.remittance.Some? then Err(LinkedToRemittance) else
    if pay.line !in L.lines then Err(LineNotFound) else
    var row := L.lines[pay.line];
    if row.customer !in L.customers then Err(CustomerNotFound) else
    if row.remaining + pay.containers > row.credited then Err(ConstraintViolated) else
    Ok(AddDebt(PutLine(L.(payments := L.payments - {p}), pay.line, row.(remaining := row.remaining + pay.containers)),
               row.customer, pay.amount))
  }

  function DeleteBorrowing(L: Ledger, b: Id): Result<Ledger> {
    if b !in L.borrowings then Err(BorrowingNotFound) else
    var row := L.borrowings[b];
    if row.customer !in L.customers then Err(CustomerNotFound) else
    if L.customers[row.customer].Counter(row.kind) - row.Outstanding() < 0 then Err(NegativeCount) else
    Ok(AddCount(L.(borrowings := L.borrowings - {b}), row.customer, row.kind, -row.Outstanding()))
  }

  function SetLimit(L: Ledger, c: Id, limit: int): Result<Ledger> {
    if c !in L.customers then Err(CustomerNotFound) else
    if limit < 0 then Err(ConstraintViolated) else
    Ok(PutCustomer(L, c, L.customers[c].(limit := limit)))
  }

  predicate PendingItems(cust: Customer) { cust.debt > 0 || cust.round + cust.slim + cust.other > 0 }

  /** The write of a soft delete. It follows a check of the pending items that takes no lock. */
  function MarkDeleted(L: Ledger, c: Id): Result<Ledger> {
    if c !in L.customers then Err(CustomerNotFound) else Ok(PutCustomer(L, c, L.customers[c].(deleted := true)))
  }

  function SoftDelete(L: Ledger, c: Id): Result<Ledger> {
    if c in L.customers && PendingItems(L.customers[c]) then Err(HasPendingItems) else MarkDeleted(L, c)
  }

  function CreateCustomer(L: Ledger, id: Id, company: Id, limit: int): Result<Ledger> {
    if id in L.customers || limit < 0 then Err(ConstraintViolated) else
    Ok(PutCustomer(L, id, Customer(company, 0, limit, 0, 0, 0, None, false)))
  }

  // ---- One operation type for all services ----------------------------------------------------

  /** A validated request. Keys and times the database would supply are part of the request. */
  datatype Op =
    | ExtendOp(id: Id, line: CreditLine, start: int)
    | LendOp(id: Id, borrowing: Borrowing)
    | CollectOp(co: Id, c: Id, now: int, rs: seq<ReturnEntry>, es: seq<PayEntry>)
    | EditLineOp(c: Id, l: Id, qty: int, price: int, careOf: Option<Id>, date: int)
    | EditPaymentOp(c: Id, l: Id, p: Id, units: int, amount: int, at: int)
    | EditBorrowingOp(c: Id, b: Id, borrowed: int, returned: int, date: int)
    | DeleteLineOp(c: Id, l: Id)
    | DeletePaymentOp(c: Id, l: Id, p: Id)
    | DeleteBorrowingOp(c: Id, b: Id)
    | SetLimitOp(c: Id, limit: int)
    | MarkDeletedOp(c: Id)
    | CreateOp(id: Id, co: Id, limit: int)

  /** What the services check about a request before they lock anything. */
  predicate ValidOp(op: Op) {
    match op
    case ExtendOp(_, row, _) => 0 < row.credited == row.remaining && 0 <= row.price && 0 <= row.total && PriceOk(row)
                                && row.remittance.None?
    case LendOp(_, row) => 0 < row.borrowed && row.returned == 0
    case CollectOp(_, _, _, rs, es) =>
      && |rs| + |es| > 0
      && (forall i :: 0 <= i < |rs| ==> 0 < rs[i].qty)
      && (forall i :: 0 <= i < |es| ==> 0 <= es[i].units && 0 <= es[i].amount)
    case EditLineOp(_, _, qty, price, _, _) => 0 < qty && 0 < price
    case EditPaymentOp(_, _, _, units, amount, _) => 0 <= units && 0 < amount
    case EditBorrowingOp(_, _, borrowed, returned, _) => 0 < borrowed && 0 <= returned <= borrowed
    case _ => true
  }

  predicate HasCustomer(L: Ledger, co: Id, c: Id) { c in L.customers && L.customers[c].company == co }

  predicate LineOfCustomer(L: Ledger, c: Id, l: Id) { l in L.lines && L.lines[l].customer == c }

  predicate PaymentOnLine(L: Ledger, c: Id, l: Id, p: Id) {
    p in L.payments && L.payments[p].line == l && LineOfCustomer(L, c, l)
  }

  predicate BorrowingOfCustomer(L: Ledger, c: Id, b: Id) { b in L.borrowings && L.borrowings[b].customer == c }

  ghost function Apply(L: Ledger, op: Op): Result<Ledger> {
    match op
    case ExtendOp(id, row, start) =>
      if HasCustomer(L, row.company, row.customer) then Extend(L, id, row, start) else Err(CustomerNotFound)
    case LendOp(id, row) =>
      if HasCustomer(L, row.company, row.customer) then Lend(L, id, row) else Err(CustomerNotFound)
    case CollectOp(co, c, now, rs, es) => Collect(L, co, c, now, rs, es)
    case EditLineOp(c, l, qty, price, careOf, date) =>
      if LineOfCustomer(L, c, l) then EditLine(L, l, qty, price, careOf, date) else Err(LineNotFound)
    case EditPaymentOp(c, l, p, units, amount, at) =>
      if PaymentOnLine(L, c, l, p) then EditPayment(L, p, units, amount, at) else Err(PaymentNotFound)
    case EditBorrowingOp(c, b, borrowed, returned, date) =>
      if BorrowingOfCustomer(L, c, b) then EditBorrowing(L, b, borrowed, returned, date) else Err(BorrowingNotFound)
    case DeleteLineOp(c, l) => if LineOfCustomer(L, c, l) then DeleteLine(L, l) else Err(LineNotFound)
    case DeletePaymentOp(c, l, p) => if PaymentOnLine(L, c, l, p) then DeletePayment(L, p) else Err(PaymentNotFound)
    case DeleteBorrowingOp(c, b) =>
      if BorrowingOfCustomer(L, c, b) then DeleteBorrowing(L, b) else Err(BorrowingNotFound)
    case SetLimitOp(c, limit) => SetLimit(L, c, limit)
    case MarkDeletedOp(c) => MarkDeleted(L, c)
    case CreateOp(id, co, limit) => CreateCustomer(L, id, co, limit)
  }
}
