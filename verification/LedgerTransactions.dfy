/** The ledger services as concurrent transactions: each is a program of row locks and statements, and any
    number of them interleave. Every commit has exactly the effect of the whole service run alone on the
    tables at that moment, so what holds of one service after another holds of every interleaving. */
module LedgerTransactions {
  import opened FiniteSums
  import opened Ledger
  import opened LedgerProofs
  import opened RowLocking

  /** Statements, and services that write only once they hold all their locks. */
  datatype Action =
    | CheckReturn(co: Id, c: Id, r: ReturnEntry)
    | CheckPayment(co: Id, c: Id, e: PayEntry)
    | ReturnUpdate(r: ReturnEntry)
    | LowerCounter(c: Id, b: Id, qty: int)
    | InsertPayment(co: Id, now: int, e: PayEntry)
    | TakeUnits(l: Id, units: int)
    | LowerDebt(c: Id, amount: int)
    | InsertBorrowing(id: Id, row: Borrowing)
    | RaiseCounter(co: Id, c: Id, k: Kind, qty: int)
    | Whole(op: Op)

  /** The effect of a statement; `None` is an exception or a violated constraint. */
  ghost function Act(a: Action, L: Ledger): Option<Ledger> {
    match a
    case CheckReturn(co, c, r) => if ReturnFits(L, co, c, r) then Some(L) else None
    case CheckPayment(co, c, e) => if PaymentFits(L, co, c, e) then Some(L) else None
    case ReturnUpdate(r) =>
      if r.borrowing !in L.borrowings then None else
      var row := L.borrowings[r.borrowing];
      if !(0 <= row.returned + r.qty <= row.borrowed) then None else
      Some(PutBorrowing(L, r.borrowing, row.(returned := row.returned + r.qty, returnedAt := Some(r.at))))
    case LowerCounter(c, b, qty) =>
      if c !in L.customers || b !in L.borrowings then None else
      if L.customers[c].Counter(L.borrowings[b].kind) - qty < 0 then None else
      Some(AddCount(L, c, L.borrowings[b].kind, -qty))
    case InsertPayment(co, now, e) =>
      if e.id in L.payments || e.line !in L.lines then None else Some(PutPayment(L, e.id, PaymentRow(co, now, e)))
    case TakeUnits(l, units) =>
      if l !in L.lines || !(0 <= L.lines[l].remaining - units <= L.lines[l].credited) then None else
      Some(PutLine(L, l, L.lines[l].(remaining := L.lines[l].remaining - units)))
    case LowerDebt(c, amount) =>
      if c !in L.customers || L.customers[c].debt - amount < 0 then None else Some(AddDebt(L, c, -amount))
    case InsertBorrowing(id, row) => if id in L.borrowings then None else Some(PutBorrowing(L, id, row))
    case RaiseCounter(co, c, k, qty) => if HasCustomer(L, co, c) then Some(AddCount(L, c, k, qty)) else None
    case Whole(op) => match Apply(L, op) case Ok(R) => Some(R) case Err(_) => None
  }

  /** The rows a statement reads or writes. Deleting a line also reads every payment on it. */
  function Footprint(a: Action): Rows {
    match a
    case CheckReturn(_, _, r) => BorrowRow(r.borrowing)
    case CheckPayment(_, _, e) => LineRow(e.line)
    case ReturnUpdate(r) => BorrowRow(r.borrowing)
    case LowerCounter(c, b, _) => CustRow(c).Plus(BorrowRow(b))
    case InsertPayment(_, _, e) => PayRow(e.id).Plus(LineRow(e.line))
    case TakeUnits(l, _) => LineRow(l)
    case LowerDebt(c, _) => CustRow(c)
    case InsertBorrowing(id, _) => BorrowRow(id)
    case RaiseCounter(_, c, _, _) => CustRow(c)
    case Whole(op) =>
      match op
      case ExtendOp(id, row, _) => CustRow(row.customer).Plus(LineRow(id))
      case LendOp(id, row) => CustRow(row.customer).Plus(BorrowRow(id))
      case CollectOp(_, c, _, _, _) => CustRow(c)
      case EditLineOp(c, l, _, _, _, _) => CustRow(c).Plus(LineRow(l))
      case EditPaymentOp(c, l, p, _, _, _) => CustRow(c).Plus(LineRow(l)).Plus(PayRow(p))
      case EditBorrowingOp(c, b, _, _, _) => CustRow(c).Plus(BorrowRow(b))
      case DeleteLineOp(c, l) => CustRow(c).Plus(LineRow(l))
      case DeletePaymentOp(c, l, p) => CustRow(c).Plus(LineRow(l)).Plus(PayRow(p))
      case DeleteBorrowingOp(c, b) => CustRow(c).Plus(BorrowRow(b))
      case SetLimitOp(c, _) => CustRow(c)
      case MarkDeletedOp(c) => CustRow(c)
      case CreateOp(id, _, _) => CustRow(id)
  }

  datatype Instr =
    | Acquire(rows: Rows)             // SELECT ... FOR UPDATE, or the lock an INSERT or UPDATE takes
    | AcquirePaymentsOf(l: Id)        // the same, for every payment on a line
    | Do(a: Action)

  // ---- The services' programs -------------------------------------------------------------------

  function LockReturns(rs: seq<ReturnEntry>): seq<Instr> {
    if rs == [] then [] else LockReturns(rs[..|rs| - 1]) + [Acquire(BorrowRow(rs[|rs| - 1].borrowing))]
  }

  function CheckReturns(co: Id, c: Id, rs: seq<ReturnEntry>): seq<Instr> {
    if rs == [] then [] else CheckReturns(co, c, rs[..|rs| - 1]) + [Do(CheckReturn(co, c, rs[|rs| - 1]))]
  }

  function LockLines(es: seq<PayEntry>): seq<Instr> {
    if es == [] then [] else LockLines(es[..|es| - 1]) + [Acquire(LineRow(es[|es| - 1].line))]
  }

  function CheckPayments(co: Id, c: Id, es: seq<PayEntry>): seq<Instr> {
    if es == [] then [] else CheckPayments(co, c, es[..|es| - 1]) + [Do(CheckPayment(co, c, es[|es| - 1]))]
  }

  function ReturnSteps(c: Id, rs: seq<ReturnEntry>): seq<Instr> {
    if rs == [] then [] else
    var r := rs[|rs| - 1];
    ReturnSteps(c, rs[..|rs| - 1]) + [Do(ReturnUpdate(r)), Acquire(CustRow(c)), Do(LowerCounter(c, r.borrowing, r.qty))]
  }

  function PaySteps(co: Id, now: int, es: seq<PayEntry>): seq<Instr> {
    if es == [] then [] else
    var e := es[|es| - 1];
    PaySteps(co, now, es[..|es| - 1]) + [Acquire(PayRow(e.id)), Do(InsertPayment(co, now, e)), Do(TakeUnits(e.line, e.units))]
  }

  function DebtSteps(c: Id, es: seq<PayEntry>): seq<Instr> {
    if TotalCollected(es) > 0 then [Acquire(CustRow(c)), Do(LowerDebt(c, TotalCollected(es)))] else []
  }

  /** Lock and re-check every borrowing, lock and re-check every line, then apply. */
  function CollectProgram(co: Id, c: Id, now: int, rs: seq<ReturnEntry>, es: seq<PayEntry>): seq<Instr> {
    LockReturns(rs) + CheckReturns(co, c, rs) + LockLines(es) + CheckPayments(co, c, es)
    + ReturnSteps(c, rs) + PaySteps(co, now, es) + DebtSteps(c, es)
  }

  function ProgramOf(op: Op): seq<Instr> {
    match op
    case ExtendOp(id, row, _) => [Acquire(CustRow(row.customer)), Acquire(LineRow(id)), Do(Whole(op))]
    case LendOp(id, row) => [Acquire(BorrowRow(id)), Do(InsertBorrowing(id, row)), Acquire(CustRow(row.customer)),
                             Do(RaiseCounter(row.company, row.customer, row.kind, row.borrowed))]
    case CollectOp(co, c, now, rs, es) => CollectProgram(co, c, now, rs, es)
    case EditLineOp(c, l, _, _, _, _) => [Acquire(LineRow(l)), Acquire(CustRow(c)), Do(Whole(op))]
    case EditPaymentOp(c, l, p, _, _, _) => [Acquire(PayRow(p)), Acquire(LineRow(l)), Acquire(CustRow(c)), Do(Whole(op))]
    case EditBorrowingOp(c, b, _, _, _) => [Acquire(BorrowRow(b)), Acquire(CustRow(c)), Do(Whole(op))]
    case DeleteLineOp(c, l) => [Acquire(LineRow(l)), AcquirePaymentsOf(l), Acquire(CustRow(c)), Do(Whole(op))]
    case DeletePaymentOp(c, l, p) => [Acquire(PayRow(p)), Acquire(LineRow(l)), Acquire(CustRow(c)), Do(Whole(op))]
    case DeleteBorrowingOp(c, b) => [Acquire(BorrowRow(b)), Acquire(CustRow(c)), Do(Whole(op))]
    case SetLimitOp(c, _) => [Acquire(CustRow(c)), Do(Whole(op))]
    case MarkDeletedOp(c) => [Acquire(CustRow(c)), Do(Whole(op))]
    case CreateOp(id, _, _) => [Acquire(CustRow(id)), Do(Whole(op))]
  }

  /** A program run alone: locks are free, statements follow one another. */
  ghost function Run(prog: seq<Instr>, L: Ledger): Option<Ledger> {
    if prog == [] then Some(L) else
    var before, last := Run(prog[..|prog| - 1], L), prog[|prog| - 1];
    if before.None? || !last.Do? then before else Act(last.a, before.value)
  }

  // ---- What a statement does to the copies is what it does to the tables ---------------------------

  /** Locked rows read the same in the copies and in the tables. */
  lemma InstallReads(big: Ledger, small: Ledger, locks: Rows)
    ensures SameRows(Install(big, small, locks).customers, small.customers, locks.customers)
    ensures SameRows(Install(big, small, locks).lines, small.lines, locks.lines)
    ensures SameRows(Install(big, small, locks).payments, small.payments, locks.payments)
    ensures SameRows(Install(big, small, locks).borrowings, small.borrowings, locks.borrowings)
  {
  }

  ghost predicate SameRows<V>(a: map<Id, V>, b: map<Id, V>, keys: set<Id>) {
    forall k :: k in keys ==> (k in a <==> k in b) && (k in a ==> a[k] == b[k])
  }

  ghost predicate PaymentsLocked(L: Ledger, l: Id, locks: Rows) {
    forall p :: p in L.payments && L.payments[p].line == l ==> p in locks.payments
  }

  ghost predicate ReadsLocked(a: Action, big: Ledger, locks: Rows) {
    && locks.Contains(Footprint(a))
    && (a.Whole? && a.op.DeleteLineOp? ==> PaymentsLocked(big, a.op.l, locks))
    && !(a.Whole? && (a.op.CollectOp? || a.op.LendOp?))
  }

  lemma StatementFrame(a: Action, big: Ledger, small: Ledger, locks: Rows)
    requires ReadsLocked(a, big, locks) && Covered(small, locks) && Act(a, small).Some? && !a.Whole?
    ensures Covered(Act(a, small).value, locks)
    ensures Act(a, Install(big, small, locks)) == Some(Install(big, Act(a, small).value, locks))
  {
    InstallReads(big, small, locks);
    hide Install;
    match a
    case CheckReturn(_, _, _) =>
    case CheckPayment(_, _, _) =>
    case ReturnUpdate(r) =>
      InstallPutBorrowing(big, small, locks, r.borrowing, Act(a, small).value.borrowings[r.borrowing]);
    case LowerCounter(c, _, _) => InstallPutCustomer(big, small, locks, c, Act(a, small).value.customers[c]);
    case InsertPayment(co, now, e) => InstallPutPayment(big, small, locks, e.id, PaymentRow(co, now, e));
    case TakeUnits(l, _) => InstallPutLine(big, small, locks, l, Act(a, small).value.lines[l]);
    case LowerDebt(c, _) => InstallPutCustomer(big, small, locks, c, Act(a, small).value.customers[c]);
    case InsertBorrowing(id, row) => InstallPutBorrowing(big, small, locks, id, row);
    case RaiseCounter(_, c, _, _) => InstallPutCustomer(big, small, locks, c, Act(a, small).value.customers[c]);
  }

  lemma ExtendFrame(big: Ledger, small: Ledger, locks: Rows, op: Op)
    requires op.ExtendOp? && ReadsLocked(Whole(op), big, locks) && Apply(small, op).Ok?
    ensures Apply(Install(big, small, locks), op) == Ok(Install(big, Apply(small, op).value, locks))
  {
    InstallReads(big, small, locks);
    hide Install;
    var c := op.line.customer;
    var M := PutLine(small, op.id, op.line);
    InstallPutLine(big, small, locks, op.id, op.line);
    InstallPutCustomer(big, M, locks, c, Apply(small, op).value.customers[c]);
  }

  lemma EditFrame(big: Ledger, small: Ledger, locks: Rows, op: Op)
    requires op.EditLineOp? || op.EditPaymentOp? || op.EditBorrowingOp?
    requires ReadsLocked(Whole(op), big, locks) && Apply(small, op).Ok?
    ensures Apply(Install(big, small, locks), op) == Ok(Install(big, Apply(small, op).value, locks))
  {
    InstallReads(big, small, locks);
    hide Install;
    var R := Apply(small, op).value;
    match op
    case EditLineOp(c, l, _, _, _, _) =>
      InstallPutLine(big, small, locks, l, R.lines[l]);
      InstallPutCustomer(big, PutLine(small, l, R.lines[l]), locks, c, R.customers[c]);
    case EditPaymentOp(c, l, p, _, _, _) =>
      var M := PutPayment(small, p, R.payments[p]);
      InstallPutPayment(big, small, locks, p, R.payments[p]);
      InstallPutLine(big, M, locks, l, R.lines[l]);
      InstallPutCustomer(big, PutLine(M, l, R.lines[l]), locks, c, R.customers[c]);
    case EditBorrowingOp(c, b, _, _, _) =>
      InstallPutBorrowing(big, small, locks, b, R.borrowings[b]);
      InstallPutCustomer(big, PutBorrowing(small, b, R.borrowings[b]), locks, c, R.customers[c]);
  }

  lemma DeleteFrame(big: Ledger, small: Ledger, locks: Rows, op: Op)
    requires op.DeletePaymentOp? || op.DeleteBorrowingOp?
    requires ReadsLocked(Whole(op), big, locks) && Apply(small, op).Ok?
    ensures Apply(Install(big, small, locks), op) == Ok(Install(big, Apply(small, op).value, locks))
  {
    InstallReads(big, small, locks);
    hide Install;
    var R := Apply(small, op).value;
    match op
    case DeletePaymentOp(c, l, p) =>
      var M := small.(payments := small.payments - {p});
      InstallDropPayments(big, small, locks, {p});
      InstallPutLine(big, M, locks, l, R.lines[l]);
      InstallPutCustomer(big, PutLine(M, l, R.lines[l]), locks, c, R.customers[c]);
    case DeleteBorrowingOp(c, b) =>
      InstallDropBorrowing(big, small, locks, b);
      InstallPutCustomer(big, small.(borrowings := small.borrowings - {b}), locks, c, R.customers[c]);
  }

  lemma CustomerFrame(big: Ledger, small: Ledger, locks: Rows, op: Op)
    requires op.SetLimitOp? || op.MarkDeletedOp? || op.CreateOp?
    requires ReadsLocked(Whole(op), big, locks) && Apply(small, op).Ok?
    ensures Apply(Install(big, small, locks), op) == Ok(Install(big, Apply(small, op).value, locks))
  {
    InstallReads(big, small, locks);
    hide Install;
    var c := if op.CreateOp? then op.id else op.c;
    InstallPutCustomer(big, small, locks, c, Apply(small, op).value.customers[c]);
  }

  /** What is collected on a line depends on the payments on that line alone. */
  lemma CollectedFrame(L: Ledger, R: Ledger, l: Id)
    requires PaymentsOn(L, l) == PaymentsOn(R, l)
    requires forall p :: p in PaymentsOn(L, l) ==> L.payments[p] == R.payments[p]
    ensures Collected(L, l) == Collected(R, l)
  {
    var a, b, ps := OwnedBy(Amounts(L), LineOf(L), l), OwnedBy(Amounts(R), LineOf(R), l), PaymentsOn(L, l);
    SumSplit(a, ps);
    SumSplit(b, ps);
    SumZero(a - ps);
    SumZero(b - ps);
    assert (map p | p in a && p in ps :: a[p]) == (map p | p in b && p in ps :: b[p]);
  }

  lemma PaymentsOnFrame(big: Ledger, small: Ledger, locks: Rows, l: Id)
    requires PaymentsLocked(big, l, locks) && Covered(small, locks)
    ensures PaymentsOn(Install(big, small, locks), l) == PaymentsOn(small, l)
  {
  }

  lemma InstallWithoutLine(big: Ledger, small: Ledger, locks: Rows, l: Id)
    requires PaymentsLocked(big, l, locks) && Covered(small, locks) && l in locks.lines
    ensures Install(big, WithoutLine(small, l), locks) == WithoutLine(Install(big, small, locks), l)
  {
    var ps := PaymentsOn(small, l);
    PaymentsOnFrame(big, small, locks, l);
    hide Install;
    var M := small.(payments := small.payments - ps);
    InstallDropPayments(big, small, locks, ps);
    InstallDropLine(big, M, locks, l);
    assert WithoutLine(small, l) == M.(lines := M.lines - {l});
  }

  lemma DeleteLineReads(big: Ledger, small: Ledger, locks: Rows, l: Id)
    requires PaymentsLocked(big, l, locks) && Covered(small, locks)
    ensures var X := Install(big, small, locks);
      && Collected(X, l) == Collected(small, l) && PaymentsOn(X, l) == PaymentsOn(small, l)
      && forall p :: p in PaymentsOn(small, l) ==> p in X.payments && X.payments[p] == small.payments[p]
  {
    InstallReads(big, small, locks);
    PaymentsOnFrame(big, small, locks, l);
    hide Install;
    CollectedFrame(Install(big, small, locks), small, l);
  }

  lemma DeleteLineFrame(big: Ledger, small: Ledger, locks: Rows, op: Op)
    requires op.DeleteLineOp? && ReadsLocked(Whole(op), big, locks) && Covered(small, locks) && Apply(small, op).Ok?
    ensures Apply(Install(big, small, locks), op) == Ok(Install(big, Apply(small, op).value, locks))
  {
    var X, c, l := Install(big, small, locks), op.c, op.l;
    DeleteLineReads(big, small, locks, l);
    hide Collected;
    InstallReads(big, small, locks);
    InstallWithoutLine(big, small, locks, l);
    hide Install, Covered, PaymentsLocked;
    var n := Collected(small, l) - small.lines[l].total;
    InstallPutCustomer(big, WithoutLine(small, l), locks, c, small.customers[c].(debt := small.customers[c].debt + n));
    assert Apply(small, op) == Ok(AddDebt(WithoutLine(small, l), c, n));
    assert Apply(X, op) == Ok(AddDebt(WithoutLine(X, l), c, n));
  }

  lemma WholeCovered(op: Op, small: Ledger, locks: Rows)
    requires locks.Contains(Footprint(Whole(op))) && Covered(small, locks) && Apply(small, op).Ok?
    requires !op.CollectOp? && !op.LendOp?
    ensures Covered(Apply(small, op).value, locks)
  {
  }

  lemma ActFrame(a: Action, big: Ledger, small: Ledger, locks: Rows)
    requires ReadsLocked(a, big, locks) && Covered(small, locks) && Act(a, small).Some?
    ensures Covered(Act(a, small).value, locks)
    ensures Act(a, Install(big, small, locks)) == Some(Install(big, Act(a, small).value, locks))
  {
    if a.Whole? {
      WholeCovered(a.op, small, locks);
      match a.op
      case ExtendOp(_, _, _) => ExtendFrame(big, small, locks, a.op);
      case EditLineOp(_, _, _, _, _, _) => EditFrame(big, small, locks, a.op);
      case EditPaymentOp(_, _, _, _, _, _) => EditFrame(big, small, locks, a.op);
      case EditBorrowingOp(_, _, _, _, _) => EditFrame(big, small, locks, a.op);
      case DeleteLineOp(_, _) => DeleteLineFrame(big, small, locks, a.op);
      case DeletePaymentOp(_, _, _) => DeleteFrame(big, small, locks, a.op);
      case DeleteBorrowingOp(_, _) => DeleteFrame(big, small, locks, a.op);
      case SetLimitOp(_, _) => CustomerFrame(big, small, locks, a.op);
      case MarkDeletedOp(_) => CustomerFrame(big, small, locks, a.op);
      case CreateOp(_, _, _) => CustomerFrame(big, small, locks, a.op);
      case LendOp(_, _) =>
      case CollectOp(_, _, _, _, _) =>
    } else {
      StatementFrame(a, big, small, locks);
    }
  }

  ghost predicate AllReadsLocked(prog: seq<Instr>, big: Ledger, locks: Rows) {
    forall i :: 0 <= i < |prog| && prog[i].Do? ==> ReadsLocked(prog[i].a, big, locks)
  }

  /** A program run on the copies does to them what it would do to the tables. */
  lemma {:induction false} RunFrame(prog: seq<Instr>, big: Ledger, small: Ledger, locks: Rows)
    requires AllReadsLocked(prog, big, locks) && Covered(small, locks) && Run(prog, small).Some?
    ensures Covered(Run(prog, small).value, locks)
    ensures Run(prog, Install(big, small, locks)) == Some(Install(big, Run(prog, small).value, locks))
  {
    hide Install, Act, Covered, ReadsLocked;
    if prog != [] {
      var init, last := prog[..|prog| - 1], prog[|prog| - 1];
      RunFrame(init, big, small, locks);
      if last.Do? { ActFrame(last.a, big, Run(init, small).value, locks); }
    }
  }

  // ---- The programs compute the services ---------------------------------------------------------

  /** Runs the rest of a program after its first part. */
  lemma {:induction false} RunConcat(p: seq<Instr>, q: seq<Instr>, L: Ledger)
    ensures Run(p + q, L) == match Run(p, L) case Some(M) => Run(q, M) case None => None
  {
    hide Act;
    if q == [] {
      assert p + q == p;
    } else {
      assert (p + q)[..|p + q| - 1] == p + q[..|q| - 1];
      RunConcat(p, q[..|q| - 1], L);
    }
  }

  lemma RunDo(p: seq<Instr>, a: Action, L: Ledger)
    ensures Run(p + [Do(a)], L) == match Run(p, L) case Some(M) => Act(a, M) case None => None
  {
    hide Act;
    assert (p + [Do(a)])[..|p|] == p;
  }

  lemma RunLock(p: seq<Instr>, i: Instr, L: Ledger)
    requires !i.Do?
    ensures Run(p + [i], L) == Run(p, L)
  {
    assert (p + [i])[..|p|] == p;
  }

  lemma {:induction false} RunLockReturns(rs: seq<ReturnEntry>, L: Ledger)
    ensures Run(LockReturns(rs), L) == Some(L)
  {
    if rs != [] {
      RunLockReturns(rs[..|rs| - 1], L);
      RunLock(LockReturns(rs[..|rs| - 1]), Acquire(BorrowRow(rs[|rs| - 1].borrowing)), L);
    }
  }

  lemma {:induction false} RunLockLines(es: seq<PayEntry>, L: Ledger)
    ensures Run(LockLines(es), L) == Some(L)
  {
    if es != [] {
      RunLockLines(es[..|es| - 1], L);
      RunLock(LockLines(es[..|es| - 1]), Acquire(LineRow(es[|es| - 1].line)), L);
    }
  }

  lemma {:induction false} RunCheckReturns(co: Id, c: Id, rs: seq<ReturnEntry>, L: Ledger)
    ensures Run(CheckReturns(co, c, rs), L)
         == if forall i :: 0 <= i < |rs| ==> ReturnFits(L, co, c, rs[i]) then Some(L) else None
  {
    hide ReturnFits;
    if rs != [] {
      RunCheckReturns(co, c, rs[..|rs| - 1], L);
      RunDo(CheckReturns(co, c, rs[..|rs| - 1]), CheckReturn(co, c, rs[|rs| - 1]), L);
    }
  }

  lemma {:induction false} RunCheckPayments(co: Id, c: Id, es: seq<PayEntry>, L: Ledger)
    ensures Run(CheckPayments(co, c, es), L)
         == if forall i :: 0 <= i < |es| ==> PaymentFits(L, co, c, es[i]) then Some(L) else None
  {
    hide PaymentFits;
    if es != [] {
      RunCheckPayments(co, c, es[..|es| - 1], L);
      RunDo(CheckPayments(co, c, es[..|es| - 1]), CheckPayment(co, c, es[|es| - 1]), L);
    }
  }

  ghost predicate ReturnsWithin(L: Ledger, rs: seq<ReturnEntry>) {
    forall b :: b in L.borrowings ==> Returned(rs, b) <= L.borrowings[b].Outstanding()
  }

  ghost predicate ReturnsChecked(L: Ledger, co: Id, c: Id, rs: seq<ReturnEntry>) {
    && c in L.customers
    && (forall i :: 0 <= i < |rs| ==> 0 < rs[i].qty && rs[i].borrowing in L.borrowings && ReturnFits(L, co, c, rs[i]))
  }

  /** The return updates succeed together exactly when no borrowing gets back more than is out:
      the counter constraint never fires on its own. */
  lemma {:induction false} RunReturnSteps(co: Id, c: Id, rs: seq<ReturnEntry>, L: Ledger)
    requires Inv(L) && ReturnsChecked(L, co, c, rs)
    ensures Run(ReturnSteps(c, rs), L) == if ReturnsWithin(L, rs) then Some(ApplyReturns(L, c, rs)) else None
  {
    BorrowingsOk(L);
    hide Act, Inv, ReturnFits;
    if rs != [] {
      var init, r := rs[..|rs| - 1], rs[|rs| - 1];
      assert rs == init + [r];
      RunReturnSteps(co, c, init, L);
      RunReturnStep(c, init, r, L);
      if ReturnsWithin(L, init) {
        ReturnStepFits(L, co, c, init, r);
      } else if ReturnsWithin(L, rs) {
        WithinPrefix(L, rs);
      }
    }
  }

  lemma BorrowingsOk(L: Ledger)
    requires Inv(L)
    ensures forall b :: b in L.borrowings ==> 0 <= L.borrowings[b].returned && 0 <= L.borrowings[b].Outstanding()
  {
    forall b | b in L.borrowings ensures 0 <= L.borrowings[b].returned && 0 <= L.borrowings[b].Outstanding() {
      assert BorrowingOk(L, L.borrowings[b]);
    }
  }

  lemma RunReturnStep(c: Id, init: seq<ReturnEntry>, r: ReturnEntry, L: Ledger)
    ensures Run(ReturnSteps(c, init + [r]), L) == match Run(ReturnSteps(c, init), L)
      case None => None
      case Some(M) => ReturnStep(c, r, M)
  {
    hide Act;
    var p := ReturnSteps(c, init);
    assert (init + [r])[..|init|] == init;
    assert ReturnSteps(c, init + [r])
        == p + [Do(ReturnUpdate(r))] + [Acquire(CustRow(c))] + [Do(LowerCounter(c, r.borrowing, r.qty))];
    RunDo(p, ReturnUpdate(r), L);
    RunLock(p + [Do(ReturnUpdate(r))], Acquire(CustRow(c)), L);
    RunDo(p + [Do(ReturnUpdate(r))] + [Acquire(CustRow(c))], LowerCounter(c, r.borrowing, r.qty), L);
  }

  ghost function ReturnStep(c: Id, r: ReturnEntry, L: Ledger): Option<Ledger> {
    match Act(ReturnUpdate(r), L) case None => None case Some(M) => Act(LowerCounter(c, r.borrowing, r.qty), M)
  }

  lemma WithinPrefix(L: Ledger, rs: seq<ReturnEntry>)
    requires rs != [] && 0 <= rs[|rs| - 1].qty && ReturnsWithin(L, rs)
    ensures ReturnsWithin(L, rs[..|rs| - 1])
  {
    forall b | b in L.borrowings ensures Returned(rs[..|rs| - 1], b) <= L.borrowings[b].Outstanding() {
      assert Returned(rs, b) <= L.borrowings[b].Outstanding();
    }
  }

  lemma WithinStep(L: Ledger, init: seq<ReturnEntry>, r: ReturnEntry)
    requires ReturnsWithin(L, init) && r.borrowing in L.borrowings
    ensures ReturnsWithin(L, init + [r])
       <==> Returned(init, r.borrowing) + r.qty <= L.borrowings[r.borrowing].Outstanding()
  {
    assert (init + [r])[..|init|] == init;
    forall b ensures Returned(init + [r], b) == Returned(init, b) + (if r.borrowing == b then r.qty else 0) {
    }
  }

  /** One return step on tables where the earlier returns of the batch were applied. */
  lemma ReturnStepFits(L: Ledger, co: Id, c: Id, init: seq<ReturnEntry>, r: ReturnEntry)
    requires Inv(L) && ReturnsChecked(L, co, c, init) && ReturnsChecked(L, co, c, init + [r]) && ReturnsWithin(L, init)
    ensures ReturnStep(c, r, ApplyReturns(L, c, init))
         == if ReturnsWithin(L, init + [r]) then Some(ApplyReturns(L, c, init + [r])) else None
  {
    hide Owed, UnitsPaid, Out, Collected;
    assert (init + [r])[..|init|] == init && (init + [r])[|init|] == r;
    assert ReturnsFit(L, co, c, init);
    var M := ApplyReturns(L, c, init);
    ApplyReturnsKeepsInv(L, co, c, init);
    ApplyReturnsRows(L, co, c, init);
    CountersNonNegative(M, c, M.borrowings[r.borrowing].kind);
    WithinStep(L, init, r);
    ReturnStepOn(M, c, r);
  }

  lemma ReturnStepOn(M: Ledger, c: Id, r: ReturnEntry)
    requires c in M.customers && r.borrowing in M.borrowings && 0 < r.qty
    requires M.borrowings[r.borrowing].Outstanding() <= M.customers[c].Counter(M.borrowings[r.borrowing].kind)
    requires 0 <= M.borrowings[r.borrowing].returned
    ensures ReturnStep(c, r, M)
         == if r.qty <= M.borrowings[r.borrowing].Outstanding() then Some(ReturnOne(M, c, r)) else None
  {
  }

  ghost predicate PaymentsWithin(L: Ledger, es: seq<PayEntry>) {
    FreshKeys(L, es) && forall l :: l in L.lines ==> Paid(es, l) <= L.lines[l].remaining
  }

  ghost predicate PaymentsChecked(L: Ledger, co: Id, c: Id, es: seq<PayEntry>) {
    && c in L.customers
    && (forall i :: 0 <= i < |es| ==> 0 <= es[i].units && 0 <= es[i].amount && es[i].line in L.lines
                                      && PaymentFits(L, co, c, es[i]))
  }

  ghost function PayStep(co: Id, now: int, e: PayEntry, L: Ledger): Option<Ledger> {
    match Act(InsertPayment(co, now, e), L) case None => None case Some(M) => Act(TakeUnits(e.line, e.units), M)
  }

  lemma RunPayStep(co: Id, now: int, init: seq<PayEntry>, e: PayEntry, L: Ledger)
    ensures Run(PaySteps(co, now, init + [e]), L) == match Run(PaySteps(co, now, init), L)
      case None => None
      case Some(M) => PayStep(co, now, e, M)
  {
    hide Act;
    var p := PaySteps(co, now, init);
    assert (init + [e])[..|init|] == init;
    assert PaySteps(co, now, init + [e])
        == p + [Acquire(PayRow(e.id))] + [Do(InsertPayment(co, now, e))] + [Do(TakeUnits(e.line, e.units))];
    RunLock(p, Acquire(PayRow(e.id)), L);
    RunDo(p + [Acquire(PayRow(e.id))], InsertPayment(co, now, e), L);
    RunDo(p + [Acquire(PayRow(e.id))] + [Do(InsertPayment(co, now, e))], TakeUnits(e.line, e.units), L);
  }

  lemma PaymentsWithinPrefix(L: Ledger, es: seq<PayEntry>)
    requires es != [] && 0 <= es[|es| - 1].units && PaymentsWithin(L, es)
    ensures PaymentsWithin(L, es[..|es| - 1])
  {
    forall l | l in L.lines ensures Paid(es[..|es| - 1], l) <= L.lines[l].remaining {
      assert Paid(es, l) <= L.lines[l].remaining;
    }
  }

  lemma PaymentsWithinStep(L: Ledger, init: seq<PayEntry>, e: PayEntry)
    requires PaymentsWithin(L, init) && e.line in L.lines
    ensures PaymentsWithin(L, init + [e]) <==>
      && Paid(init, e.line) + e.units <= L.lines[e.line].remaining
      && e.id !in L.payments && forall i :: 0 <= i < |init| ==> init[i].id != e.id
  {
    var es := init + [e];
    assert es[..|init|] == init && es[|init|] == e;
    forall l ensures Paid(es, l) == Paid(init, l) + (if e.line == l then e.units else 0) {
    }
    if FreshKeys(L, es) {
      forall i | 0 <= i < |init| ensures init[i].id != e.id { assert es[i] == init[i]; }
    }
  }

  lemma PayStepOn(co: Id, now: int, M: Ledger, e: PayEntry)
    requires e.line in M.lines && 0 <= e.units && M.lines[e.line].remaining <= M.lines[e.line].credited
    ensures PayStep(co, now, e, M)
         == if e.id !in M.payments && e.units <= M.lines[e.line].remaining then Some(PayOne(M, co, now, e)) else None
  {
  }

  lemma LinesOk(L: Ledger)
    requires Inv(L)
    ensures forall l :: l in L.lines ==> 0 <= L.lines[l].remaining <= L.lines[l].credited
  {
    forall l | l in L.lines ensures 0 <= L.lines[l].remaining <= L.lines[l].credited {
      assert LineOk(L, L.lines[l]);
    }
  }

  lemma PayStepFits(co: Id, c: Id, now: int, init: seq<PayEntry>, e: PayEntry, L: Ledger)
    requires PaymentsChecked(L, co, c, init) && PaymentsChecked(L, co, c, init + [e]) && PaymentsWithin(L, init)
    requires forall l :: l in L.lines ==> 0 <= L.lines[l].remaining <= L.lines[l].credited
    requires 0 <= Paid(init, e.line) && e.line in L.lines && 0 <= e.units
    ensures PayStep(co, now, e, ApplyPayments(L, co, now, init))
         == if PaymentsWithin(L, init + [e]) then Some(ApplyPayments(L, co, now, init + [e])) else None
  {
    assert (init + [e])[..|init|] == init && (init + [e])[|init|] == e;
    assert PaymentsFit(L, co, c, init);
    ApplyPaymentsLines(L, co, now, c, init);
    ApplyPaymentsInserts(L, co, now, init);
    NewPaymentsRows(co, now, init);
    PaymentsWithinStep(L, init, e);
    PayStepOn(co, now, ApplyPayments(L, co, now, init), e);
  }

  lemma {:induction false} PaidNonNegative(es: seq<PayEntry>, l: Id)
    requires forall i :: 0 <= i < |es| ==> 0 <= es[i].units
    ensures 0 <= Paid(es, l)
  {
    if es != [] { PaidNonNegative(es[..|es| - 1], l); }
  }

  /** The payment steps succeed together exactly when no line is paid beyond what remains on it,
      however often the batch names it. */
  lemma {:induction false} RunPaySteps(co: Id, c: Id, now: int, es: seq<PayEntry>, L: Ledger)
    requires PaymentsChecked(L, co, c, es)
    requires forall l :: l in L.lines ==> 0 <= L.lines[l].remaining <= L.lines[l].credited
    ensures Run(PaySteps(co, now, es), L) == if PaymentsWithin(L, es) then Some(ApplyPayments(L, co, now, es)) else None
  {
    hide Act, PaymentFits;
    if es != [] {
      var init, e := es[..|es| - 1], es[|es| - 1];
      assert es == init + [e];
      RunPaySteps(co, c, now, init, L);
      RunPayStep(co, now, init, e, L);
      PaidNonNegative(init, e.line);
      if PaymentsWithin(L, init) {
        PayStepFits(co, c, now, init, e, L);
      } else if PaymentsWithin(L, es) {
        PaymentsWithinPrefix(L, es);
      }
    }
  }

  lemma RunChecks(co: Id, c: Id, rs: seq<ReturnEntry>, es: seq<PayEntry>, L: Ledger)
    ensures Run(LockReturns(rs) + CheckReturns(co, c, rs) + LockLines(es) + CheckPayments(co, c, es), L)
         == if Recheck(L, co, c, rs, es) then Some(L) else None
  {
    hide Run, ReturnFits, PaymentFits;
    var p, q, r, s := LockReturns(rs), CheckReturns(co, c, rs), LockLines(es), CheckPayments(co, c, es);
    RunConcat(p, q, L);
    RunConcat(p + q, r, L);
    RunConcat(p + q + r, s, L);
    RunLockReturns(rs, L);
    RunCheckReturns(co, c, rs, L);
    RunLockLines(es, L);
    RunCheckPayments(co, c, es, L);
  }

  lemma RunDebtSteps(c: Id, es: seq<PayEntry>, L: Ledger)
    requires c in L.customers && 0 <= TotalCollected(es) && 0 <= L.customers[c].debt
    ensures Run(DebtSteps(c, es), L)
         == if TotalCollected(es) <= L.customers[c].debt then Some(AddDebt(L, c, -TotalCollected(es))) else None
  {
    if TotalCollected(es) > 0 {
      RunLock([], Acquire(CustRow(c)), L);
      RunDo([Acquire(CustRow(c))], LowerDebt(c, TotalCollected(es)), L);
      assert DebtSteps(c, es) == [Acquire(CustRow(c))] + [Do(LowerDebt(c, TotalCollected(es)))];
      assert [] + [Acquire(CustRow(c))] == [Acquire(CustRow(c))];
    } else {
      assert L.customers[c := L.customers[c].(debt := L.customers[c].debt - 0)] == L.customers;
    }
  }

  lemma {:induction false} CollectedNonNegative(es: seq<PayEntry>)
    requires forall i :: 0 <= i < |es| ==> 0 <= es[i].amount
    ensures 0 <= TotalCollected(es)
  {
    if es != [] { CollectedNonNegative(es[..|es| - 1]); }
  }

  /** After the checks pass: returns, then payments, then the balance. */
  lemma RunApply(co: Id, c: Id, now: int, rs: seq<ReturnEntry>, es: seq<PayEntry>, L: Ledger)
    requires Inv(L) && ReturnsChecked(L, co, c, rs) && PaymentsChecked(L, co, c, es)
    ensures Run(ReturnSteps(c, rs) + PaySteps(co, now, es) + DebtSteps(c, es), L)
         == if BatchFits(L, c, rs, es)
            then Some(AddDebt(ApplyPayments(ApplyReturns(L, c, rs), co, now, es), c, -TotalCollected(es))) else None
  {
    LinesOk(L);
    CollectedNonNegative(es);
    assert 0 <= L.customers[c].debt;
    RunReturnSteps(co, c, rs, L);
    RunConcat(ReturnSteps(c, rs), PaySteps(co, now, es), L);
    RunConcat(ReturnSteps(c, rs) + PaySteps(co, now, es), DebtSteps(c, es), L);
    if ReturnsWithin(L, rs) {
      var M := ApplyReturns(L, c, rs);
      AfterReturns(L, co, c, rs, es);
      hide Run, Inv;
      RunPaySteps(co, c, now, es, M);
      if PaymentsWithin(M, es) {
        RunDebtSteps(c, es, ApplyPayments(M, co, now, es));
      }
    }
  }

  /** Returns leave lines and balances alone, so the payments face the tables they were checked against. */
  lemma AfterReturns(L: Ledger, co: Id, c: Id, rs: seq<ReturnEntry>, es: seq<PayEntry>)
    requires ReturnsChecked(L, co, c, rs) && PaymentsChecked(L, co, c, es) && ReturnsWithin(L, rs)
    ensures PaymentsChecked(ApplyReturns(L, c, rs), co, c, es)
    ensures PaymentsWithin(ApplyReturns(L, c, rs), es) <==> PaymentsWithin(L, es)
    ensures ApplyReturns(L, c, rs).customers[c].debt == L.customers[c].debt
  {
    ApplyReturnsRows(L, co, c, rs);
    forall i | 0 <= i < |es| ensures PaymentFits(ApplyReturns(L, c, rs), co, c, es[i]) {
      assert PaymentFits(L, co, c, es[i]);
    }
  }

  lemma CheckedCustomerExists(co: Id, c: Id, rs: seq<ReturnEntry>, es: seq<PayEntry>, L: Ledger)
    requires Inv(L) && Recheck(L, co, c, rs, es) && |rs| + |es| > 0
    ensures c in L.customers
  {
    if rs != [] {
      assert ReturnFits(L, co, c, rs[0]) && BorrowingOk(L, L.borrowings[rs[0].borrowing]);
    } else {
      assert PaymentFits(L, co, c, es[0]) && LineOk(L, L.lines[es[0].line]);
    }
  }

  ghost function Outcome(r: Result<Ledger>): Option<Ledger> {
    match r case Ok(L) => Some(L) case Err(_) => None
  }

  lemma CollectMeaning(co: Id, c: Id, now: int, rs: seq<ReturnEntry>, es: seq<PayEntry>, L: Ledger)
    requires Inv(L) && ValidOp(CollectOp(co, c, now, rs, es))
    ensures Run(CollectProgram(co, c, now, rs, es), L) == Outcome(Collect(L, co, c, now, rs, es))
  {
    hide Run, Inv, Recheck, BatchFits, ApplyReturns, ApplyPayments;
    var checks := LockReturns(rs) + CheckReturns(co, c, rs) + LockLines(es) + CheckPayments(co, c, es);
    var rest := ReturnSteps(c, rs) + PaySteps(co, now, es) + DebtSteps(c, es);
    assert CollectProgram(co, c, now, rs, es) == checks + rest;
    RunChecks(co, c, rs, es, L);
    RunConcat(checks, rest, L);
    if Recheck(L, co, c, rs, es) {
      CheckedCustomerExists(co, c, rs, es, L);
      CheckedEntries(L, co, c, rs, es);
      RunApply(co, c, now, rs, es, L);
    }
  }

  lemma CheckedEntries(L: Ledger, co: Id, c: Id, rs: seq<ReturnEntry>, es: seq<PayEntry>)
    requires Recheck(L, co, c, rs, es) && c in L.customers
    requires forall i :: 0 <= i < |rs| ==> 0 < rs[i].qty
    requires forall i :: 0 <= i < |es| ==> 0 <= es[i].units && 0 <= es[i].amount
    ensures ReturnsChecked(L, co, c, rs) && PaymentsChecked(L, co, c, es)
  {
    forall i | 0 <= i < |rs| ensures rs[i].borrowing in L.borrowings { assert ReturnFits(L, co, c, rs[i]); }
    forall i | 0 <= i < |es| ensures es[i].line in L.lines { assert PaymentFits(L, co, c, es[i]); }
  }

  lemma LendMeaning(id: Id, row: Borrowing, L: Ledger)
    requires Inv(L)
    ensures Run(ProgramOf(LendOp(id, row)), L) == Outcome(Apply(L, LendOp(id, row)))
  {
    var a, b := InsertBorrowing(id, row), RaiseCounter(row.company, row.customer, row.kind, row.borrowed);
    var p0 := [Acquire(BorrowRow(id))];
    var p1 := p0 + [Do(a)];
    var p2 := p1 + [Acquire(CustRow(row.customer))];
    assert ProgramOf(LendOp(id, row)) == p2 + [Do(b)];
    RunLock([], Acquire(BorrowRow(id)), L);
    assert [] + p0 == p0;
    RunDo(p0, a, L);
    RunLock(p1, Acquire(CustRow(row.customer)), L);
    RunDo(p2, b, L);
  }

  /** Every program, run alone, is its service. */
  lemma ProgramMeaning(op: Op, L: Ledger)
    requires Inv(L) && ValidOp(op)
    ensures Run(ProgramOf(op), L) == Outcome(Apply(L, op))
  {
    if op.CollectOp? {
      CollectMeaning(op.co, op.c, op.now, op.rs, op.es, L);
    } else if op.LendOp? {
      LendMeaning(op.id, op.borrowing, L);
    } else {
      LocksThenWhole(op);
      hide Run, ProgramOf, Apply, Inv, ValidOp;
      var p := ProgramOf(op);
      var n := |p| - 1;
      RunDo(p[..n], Whole(op), L);
      LocksOnly(p[..n], L);
    }
  }

  /** The other programs take their locks and then run the service. */
  lemma LocksThenWhole(op: Op)
    requires !op.CollectOp? && !op.LendOp?
    ensures var p := ProgramOf(op);
      |p| > 0 && p == p[..|p| - 1] + [Do(Whole(op))] && forall i :: 0 <= i < |p| - 1 ==> !p[i].Do?
  {
  }

  lemma {:induction false} LocksOnly(p: seq<Instr>, L: Ledger)
    requires forall i :: 0 <= i < |p| ==> !p[i].Do?
    ensures Run(p, L) == Some(L)
  {
    if p != [] { LocksOnly(p[..|p| - 1], L); }
  }

  // ---- Small programs ------------------------------------------------------------------------------------

  lemma RunNothing(L: Ledger)
    ensures Run([], L) == Some(L)
  {
  }

  lemma NoReturns(c: Id, rs: seq<ReturnEntry>)
    requires rs == []
    ensures ReturnSteps(c, rs) == []
  {
  }

  lemma NoPayments(co: Id, now: int, es: seq<PayEntry>)
    requires es == []
    ensures PaySteps(co, now, es) == []
  {
  }

  /** The balance step alone. */
  lemma RunDebt(c: Id, es: seq<PayEntry>, L: Ledger)
    ensures Run(DebtSteps(c, es), L) == if TotalCollected(es) > 0 then Act(LowerDebt(c, TotalCollected(es)), L) else Some(L)
  {
    if TotalCollected(es) > 0 {
      var a := LowerDebt(c, TotalCollected(es));
      RunLock([], Acquire(CustRow(c)), L);
      assert [] + [Acquire(CustRow(c))] == [Acquire(CustRow(c))];
      RunDo([Acquire(CustRow(c))], a, L);
      assert [Acquire(CustRow(c))] + [Do(a)] == DebtSteps(c, es);
    }
  }

  // ---- Every program locks what it touches ----------------------------------------------------------

  /** The rows an instruction asks to lock, apart from the payments of a whole line. */
  function Asked(i: Instr): Rows { if i.Acquire? then i.rows else NoRows() }

  /** The rows a program has asked to lock. */
  function Held(prog: seq<Instr>): Rows {
    if prog == [] then NoRows() else Held(prog[..|prog| - 1]).Plus(Asked(prog[|prog| - 1]))
  }

  ghost predicate StepLocked(i: Instr, earlier: seq<Instr>, held: Rows) {
    match i
    case Acquire(_) => true
    case AcquirePaymentsOf(l) => l in held.lines
    case Do(a) =>
      && held.Contains(Footprint(a))
      && !(a.Whole? && (a.op.CollectOp? || a.op.LendOp?))
      && (a.Whole? && a.op.DeleteLineOp? ==> AcquirePaymentsOf(a.op.l) in earlier)
  }

  /** Started with `held` locked, the program never touches a row it has not locked. */
  ghost predicate Disciplined(prog: seq<Instr>, held: Rows) {
    prog != [] ==>
      var init := prog[..|prog| - 1];
      Disciplined(init, held) && StepLocked(prog[|prog| - 1], init, held.Plus(Held(init)))
  }

  lemma {:induction false} HeldConcat(p: seq<Instr>, q: seq<Instr>)
    ensures Held(p + q) == Held(p).Plus(Held(q))
  {
    if q == [] {
      assert p + q == p;
    } else {
      var init, last := q[..|q| - 1], q[|q| - 1];
      assert (p + q)[..|p + q| - 1] == p + init;
      HeldConcat(p, init);
      assert Held(p + q) == Held(p + init).Plus(Asked(last)) && Held(q) == Held(init).Plus(Asked(last));
      hide Held, Asked;
      PlusAssociates(Held(p), Held(init), Asked(last));
    }
  }

  lemma PlusAssociates(a: Rows, b: Rows, c: Rows)
    ensures a.Plus(b).Plus(c) == a.Plus(b.Plus(c))
  {
  }

  lemma {:induction false} DisciplinedConcat(p: seq<Instr>, q: seq<Instr>, held: Rows)
    requires Disciplined(p, held) && Disciplined(q, held.Plus(Held(p)))
    ensures Disciplined(p + q, held)
  {
    if q == [] {
      assert p + q == p;
    } else {
      var init, last := q[..|q| - 1], q[|q| - 1];
      assert (p + q)[..|p + q| - 1] == p + init;
      DisciplinedConcat(p, init, held);
      HeldConcat(p, init);
      assert held.Plus(Held(p)).Plus(Held(init)) == held.Plus(Held(p + init));
    }
  }

  lemma {:induction false} DisciplinedMore(p: seq<Instr>, held: Rows, more: Rows)
    requires Disciplined(p, held) && more.Contains(held)
    ensures Disciplined(p, more)
  {
    if p != [] { DisciplinedMore(p[..|p| - 1], held, more); }
  }

  /** The discipline holds at every instruction. */
  lemma {:induction false} DisciplinedAt(p: seq<Instr>, i: nat)
    requires Disciplined(p, NoRows()) && i < |p|
    ensures StepLocked(p[i], p[..i], Held(p[..i]))
  {
    if i == |p| - 1 {
      assert NoRows().Plus(Held(p[..i])) == Held(p[..i]);
    } else {
      DisciplinedAt(p[..|p| - 1], i);
      assert p[..|p| - 1][..i] == p[..i];
    }
  }

  /** Adding one instruction. */
  lemma Snoc(p: seq<Instr>, i: Instr, held: Rows)
    requires Disciplined(p, held) && StepLocked(i, p, held.Plus(Held(p)))
    ensures Disciplined(p + [i], held) && Held(p + [i]) == Held(p).Plus(Asked(i))
  {
    assert (p + [i])[..|p|] == p;
  }

  lemma SnocThree(p: seq<Instr>, i: Instr, j: Instr, k: Instr, held: Rows)
    requires Disciplined(p, held) && StepLocked(i, p, held.Plus(Held(p)))
    requires StepLocked(j, p + [i], held.Plus(Held(p).Plus(Asked(i))))
    requires StepLocked(k, p + [i] + [j], held.Plus(Held(p).Plus(Asked(i)).Plus(Asked(j))))
    ensures Disciplined(p + [i] + [j] + [k], held)
  {
    hide StepLocked, Disciplined, Held, Asked;
    Snoc(p, i, held);
    Snoc(p + [i], j, held);
    Snoc(p + [i] + [j], k, held);
  }

  function BorrowRows(rs: seq<ReturnEntry>): Rows { Rows({}, {}, {}, set r | r in rs :: r.borrowing) }

  function LineRows(es: seq<PayEntry>): Rows { Rows({}, set e | e in es :: e.line, {}, {}) }

  lemma BorrowRowsSnoc(rs: seq<ReturnEntry>)
    requires rs != []
    ensures BorrowRows(rs) == BorrowRows(rs[..|rs| - 1]).Plus(BorrowRow(rs[|rs| - 1].borrowing))
  {
    var init, r := rs[..|rs| - 1], rs[|rs| - 1];
    assert rs == init + [r];
    assert (set x | x in rs :: x.borrowing) == (set x | x in init :: x.borrowing) + {r.borrowing};
  }

  lemma LineRowsSnoc(es: seq<PayEntry>)
    requires es != []
    ensures LineRows(es) == LineRows(es[..|es| - 1]).Plus(LineRow(es[|es| - 1].line))
  {
    var init, e := es[..|es| - 1], es[|es| - 1];
    assert es == init + [e];
    assert (set x | x in es :: x.line) == (set x | x in init :: x.line) + {e.line};
  }

  lemma {:induction false} LockReturnsHeld(rs: seq<ReturnEntry>)
    ensures Held(LockReturns(rs)) == BorrowRows(rs) && Disciplined(LockReturns(rs), NoRows())
  {
    if rs == [] {
    } else {
      LockReturnsHeld(rs[..|rs| - 1]);
      BorrowRowsSnoc(rs);
      Snoc(LockReturns(rs[..|rs| - 1]), Acquire(BorrowRow(rs[|rs| - 1].borrowing)), NoRows());
    }
  }

  lemma {:induction false} LockLinesHeld(es: seq<PayEntry>)
    ensures Held(LockLines(es)) == LineRows(es) && Disciplined(LockLines(es), NoRows())
  {
    if es == [] {
    } else {
      LockLinesHeld(es[..|es| - 1]);
      LineRowsSnoc(es);
      Snoc(LockLines(es[..|es| - 1]), Acquire(LineRow(es[|es| - 1].line)), NoRows());
    }
  }

  lemma {:induction false} CheckReturnsDisciplined(co: Id, c: Id, rs: seq<ReturnEntry>)
    ensures Disciplined(CheckReturns(co, c, rs), BorrowRows(rs))
  {
    if rs != [] {
      CheckReturnsDisciplined(co, c, rs[..|rs| - 1]);
      var p := CheckReturns(co, c, rs[..|rs| - 1]);
      BorrowRowsSnoc(rs);
      DisciplinedMore(p, BorrowRows(rs[..|rs| - 1]), BorrowRows(rs));
      Snoc(p, Do(CheckReturn(co, c, rs[|rs| - 1])), BorrowRows(rs));
    }
  }

  lemma {:induction false} CheckPaymentsDisciplined(co: Id, c: Id, es: seq<PayEntry>)
    ensures Disciplined(CheckPayments(co, c, es), LineRows(es))
  {
    if es != [] {
      CheckPaymentsDisciplined(co, c, es[..|es| - 1]);
      var p := CheckPayments(co, c, es[..|es| - 1]);
      LineRowsSnoc(es);
      DisciplinedMore(p, LineRows(es[..|es| - 1]), LineRows(es));
      Snoc(p, Do(CheckPayment(co, c, es[|es| - 1])), LineRows(es));
    }
  }

  lemma {:induction false} ReturnStepsDisciplined(c: Id, rs: seq<ReturnEntry>)
    ensures Disciplined(ReturnSteps(c, rs), BorrowRows(rs))
  {
    if rs != [] {
      ReturnStepsDisciplined(c, rs[..|rs| - 1]);
      var p0, r, held := ReturnSteps(c, rs[..|rs| - 1]), rs[|rs| - 1], BorrowRows(rs);
      BorrowRowsSnoc(rs);
      DisciplinedMore(p0, BorrowRows(rs[..|rs| - 1]), held);
      var i1, i2, i3 := Do(ReturnUpdate(r)), Acquire(CustRow(c)), Do(LowerCounter(c, r.borrowing, r.qty));
      hide Disciplined, Held, BorrowRows;
      SnocThree(p0, i1, i2, i3, held);
      assert ReturnSteps(c, rs) == p0 + [i1] + [i2] + [i3];
    }
  }

  lemma {:induction false} PayStepsDisciplined(co: Id, now: int, es: seq<PayEntry>)
    ensures Disciplined(PaySteps(co, now, es), LineRows(es))
  {
    if es != [] {
      PayStepsDisciplined(co, now, es[..|es| - 1]);
      var p0, e, held := PaySteps(co, now, es[..|es| - 1]), es[|es| - 1], LineRows(es);
      LineRowsSnoc(es);
      DisciplinedMore(p0, LineRows(es[..|es| - 1]), held);
      var i1, i2, i3 := Acquire(PayRow(e.id)), Do(InsertPayment(co, now, e)), Do(TakeUnits(e.line, e.units));
      hide Disciplined, Held, LineRows;
      SnocThree(p0, i1, i2, i3, held);
      assert PaySteps(co, now, es) == p0 + [i1] + [i2] + [i3];
    }
  }

  lemma DebtStepsDisciplined(c: Id, es: seq<PayEntry>)
    ensures Disciplined(DebtSteps(c, es), NoRows())
  {
    var i1, i2 := Acquire(CustRow(c)), Do(LowerDebt(c, TotalCollected(es)));
    Snoc([], i1, NoRows());
    Snoc([] + [i1], i2, NoRows());
    assert [i1, i2] == [] + [i1] + [i2];
  }

  /** A part that is disciplined given `needs` can follow a program that holds them. */
  lemma Follow(p: seq<Instr>, q: seq<Instr>, needs: Rows)
    requires Disciplined(p, NoRows()) && Disciplined(q, needs) && Held(p).Contains(needs)
    ensures Disciplined(p + q, NoRows()) && Held(p + q).Contains(Held(p)) && Held(p + q).Contains(Held(q))
  {
    DisciplinedMore(q, needs, NoRows().Plus(Held(p)));
    DisciplinedConcat(p, q, NoRows());
    HeldConcat(p, q);
  }

  lemma CollectDisciplined(co: Id, c: Id, now: int, rs: seq<ReturnEntry>, es: seq<PayEntry>)
    ensures Disciplined(CollectProgram(co, c, now, rs, es), NoRows())
  {
    LockReturnsHeld(rs);
    LockLinesHeld(es);
    CheckReturnsDisciplined(co, c, rs);
    CheckPaymentsDisciplined(co, c, es);
    ReturnStepsDisciplined(c, rs);
    PayStepsDisciplined(co, now, es);
    DebtStepsDisciplined(c, es);
    hide Disciplined, Held, BorrowRows, LineRows;
    var p := LockReturns(rs);
    Follow(p, CheckReturns(co, c, rs), BorrowRows(rs));
    p := p + CheckReturns(co, c, rs);
    Follow(p, LockLines(es), NoRows());
    p := p + LockLines(es);
    Follow(p, CheckPayments(co, c, es), LineRows(es));
    p := p + CheckPayments(co, c, es);
    Follow(p, ReturnSteps(c, rs), BorrowRows(rs));
    p := p + ReturnSteps(c, rs);
    Follow(p, PaySteps(co, now, es), LineRows(es));
    Follow(p + PaySteps(co, now, es), DebtSteps(c, es), NoRows());
  }

  /** No service reads or writes a row before it holds the lock. */
  lemma ProgramDisciplined(op: Op)
    ensures Disciplined(ProgramOf(op), NoRows())
  {
    if op.CollectOp? {
      CollectDisciplined(op.co, op.c, op.now, op.rs, op.es);
    } else {
      var p := ProgramOf(op);
      Prefixes(p);
      assert StepLocked(p[1], p[..1], Held(p[..1]));
      assert |p| > 2 ==> StepLocked(p[2], p[..2], Held(p[..2]));
      assert |p| > 3 ==> StepLocked(p[3], p[..3], Held(p[..3]));
      hide StepLocked, Held, ProgramOf;
      ShortDisciplined(p);
    }
  }

  /** A short program, checked instruction by instruction. */
  lemma ShortDisciplined(p: seq<Instr>)
    requires 2 <= |p| <= 4
    requires p[0].Acquire? && StepLocked(p[1], p[..1], Held(p[..1]))
    requires |p| > 2 ==> StepLocked(p[2], p[..2], Held(p[..2]))
    requires |p| > 3 ==> StepLocked(p[3], p[..3], Held(p[..3]))
    ensures Disciplined(p, NoRows())
  {
    Prefixes(p);
    hide StepLocked;
    var none := NoRows();
    NoneFirst(p[..1]);
    NoneFirst(p[..2]);
    assert Disciplined(p[..1], none) by { OneAcquire(p[0]); }
    Snoc(p[..1], p[1], none);
    assert p[..2] == p[..1] + [p[1]];
    if |p| > 2 {
      Snoc(p[..2], p[2], none);
      assert p[..3] == p[..2] + [p[2]];
    }
    if |p| > 3 {
      NoneFirst(p[..3]);
      Snoc(p[..3], p[3], none);
      assert p == p[..3] + [p[3]];
    }
    assert |p| == 2 ==> p == p[..2];
    assert |p| == 3 ==> p == p[..3];
  }

  lemma OneAcquire(i: Instr)
    requires i.Acquire?
    ensures Disciplined([i], NoRows())
  {
    Snoc([], i, NoRows());
    assert [] + [i] == [i];
  }

  lemma NoneFirst(p: seq<Instr>)
    ensures NoRows().Plus(Held(p)) == Held(p)
  {
  }

  /** The prefixes of a short program, with the locks they hold. */
  lemma Prefixes(p: seq<Instr>)
    requires 2 <= |p| <= 4
    ensures p[..1] == [p[0]] && Held(p[..1]) == Asked(p[0])
    ensures p[..2] == [p[0], p[1]] && Held(p[..2]) == Asked(p[0]).Plus(Asked(p[1]))
    ensures |p| > 2 ==> p[..3] == [p[0], p[1], p[2]] && Held(p[..3]) == Asked(p[0]).Plus(Asked(p[1])).Plus(Asked(p[2]))
  {
    assert p[..1][..0] == [] && NoRows().Plus(Asked(p[0])) == Asked(p[0]);
    assert p[..2][..1] == p[..1];
    if |p| > 2 { assert p[..3][..2] == p[..2]; }
  }
}
