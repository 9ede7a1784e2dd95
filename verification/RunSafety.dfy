/** What every run of requests keeps: the ledger invariant, links within a company, one remittance a day, clear
    books for deleted customers, immutable finalized remittances, and the repayment totals. */
module RunSafety {
  import opened FiniteSums
  import opened Ledger
  import opened LedgerProofs
  import opened LedgerEffects
  import opened RemittanceModel
  import opened RemittanceServices

  // ---- Changing links changes no aggregate -----------------------------------------------------------

  ghost predicate SameButLinks(L: Ledger, R: Ledger) {
    && R.customers == L.customers && R.borrowings == L.borrowings
    && R.payments.Keys == L.payments.Keys && R.lines.Keys == L.lines.Keys
    && (forall p :: p in L.payments ==> R.payments[p] == L.payments[p].(remittance := R.payments[p].remittance))
    && (forall l :: l in L.lines ==> R.lines[l] == L.lines[l].(remittance := R.lines[l].remittance))
  }

  lemma SameSums(L: Ledger, R: Ledger, c: Id, l: Id, k: Kind)
    requires SameButLinks(L, R)
    ensures Owed(R, c) == Owed(L, c) && UnitsPaid(R, l) == UnitsPaid(L, l) && Out(R, c, k) == Out(L, c, k)
  {
    assert Totals(R) == Totals(L) && Debtor(R) == Debtor(L) && Amounts(R) == Amounts(L) && Units(R) == Units(L);
    assert LineOf(R) == LineOf(L) && Payer(R) == Payer(L);
    SameBorrowings(L, R, c, k);
  }

  lemma SameRowsOk(L: Ledger, R: Ledger)
    requires SameButLinks(L, R) && RowsOk(L)
    ensures RowsOk(R)
  {
    forall l | l in R.lines ensures LineOk(R, R.lines[l]) { assert LineOk(L, L.lines[l]); }
    forall p | p in R.payments ensures PaymentOk(R, R.payments[p]) { assert PaymentOk(L, L.payments[p]); }
    forall b | b in R.borrowings ensures BorrowingOk(R, R.borrowings[b]) { assert BorrowingOk(L, L.borrowings[b]); }
  }

  lemma LinksKeepInv(L: Ledger, R: Ledger)
    requires SameButLinks(L, R) && Inv(L) && Priced(L)
    ensures Inv(R) && Priced(R)
  {
    SameRowsOk(L, R);
    forall c | c in R.customers ensures CustomerBalanced(R, c) {
      assert CustomerBalanced(L, c);
      SameSums(L, R, c, 0, Round);
      SameSums(L, R, c, 0, Slim);
      SameSums(L, R, c, 0, OtherKind);
    }
    forall l | l in R.lines ensures LineBalanced(R, l) {
      assert LineBalanced(L, l);
      SameSums(L, R, 0, l, Round);
    }
    forall l | l in R.lines ensures PriceOk(R.lines[l]) { assert PriceOk(L.lines[l]); }
  }

  lemma LinkChangesLinks(L: Ledger, r: Id, co: Id, d: int)
    ensures SameButLinks(L, Link(L, r, co, d))
  {
  }

  lemma UnlinkChangesLinks(L: Ledger, rs: set<Id>)
    ensures SameButLinks(L, Unlink(L, rs))
  {
  }

  // ---- What a ledger operation does to links ---------------------------------------------------------

  /** The amount a linked payment has after the operation: only an edit of that payment changes it. */
  function AmountAfter(op: Op, p: Id, before: int): int {
    if op.EditPaymentOp? && op.p == p then op.amount else before
  }

  ghost predicate PaymentsCarriedOver(L: Ledger, R: Ledger, op: Op) {
    && (forall p :: p in L.payments && L.payments[p].remittance.Some? ==> p in R.payments)
    && (forall p :: p in R.payments ==> CarriedOver(L, R, op, p) || R.payments[p].remittance.None?)
    && (forall p :: p in R.payments && p in L.payments ==> CarriedOver(L, R, op, p))
  }

  ghost predicate CarriedOver(L: Ledger, R: Ledger, op: Op, p: Id)
    requires p in R.payments
  {
    p in L.payments && R.payments[p].remittance == L.payments[p].remittance && R.payments[p].company == L.payments[p].company
    && R.payments[p].amount == AmountAfter(op, p, L.payments[p].amount)
  }

  predicate SameLink(a: CreditLine, b: CreditLine) { a.remittance == b.remittance && a.company == b.company }

  lemma CollectCarriesOver(L: Ledger, op: Op)
    requires op.CollectOp? && ValidOp(op) && Apply(L, op).Ok?
    ensures PaymentsCarriedOver(L, Apply(L, op).value, op)
    ensures LinesCarriedOver(L, Apply(L, op).value)
  {
    var R := Collect(L, op.co, op.c, op.now, op.rs, op.es).value;
    assert Apply(L, op).value == R;
    CollectRows(L, op.co, op.c, op.now, op.rs, op.es);
    hide *;
    BatchCarriesOver(L, R, op);
  }

  lemma BatchCarriesOver(L: Ledger, R: Ledger, op: Op)
    requires op.CollectOp? && FreshKeys(L, op.es) && R.payments == L.payments + NewPayments(op.co, op.now, op.es)
    requires R.lines.Keys == L.lines.Keys
    requires forall l :: l in L.lines ==> R.lines[l] == L.lines[l].(remaining := L.lines[l].remaining - Paid(op.es, l))
    ensures PaymentsCarriedOver(L, R, op) && LinesCarriedOver(L, R)
  {
    NewPaymentsRows(op.co, op.now, op.es);
    hide NewPayments, Paid, Returned;
    forall p | p in R.payments && p !in L.payments ensures R.payments[p].remittance.None? {
      var i :| 0 <= i < |op.es| && op.es[i].id == p;
    }
  }

  lemma OpCarriesPayments(L: Ledger, op: Op)
    requires Apply(L, op).Ok? && ValidOp(op)
    ensures PaymentsCarriedOver(L, Apply(L, op).value, op)
  {
    match op
    case CollectOp(_, _, _, _, _) => CollectCarriesOver(L, op);
    case EditPaymentOp(_, _, p, units, amount, at) =>
      assert Apply(L, op).value.payments == L.payments[p := L.payments[p].(containers := units, amount := amount, paidAt := Some(at))];
    case DeleteLineOp(_, l) => DeleteLineCarriesPayments(L, op);
    case DeletePaymentOp(_, _, p) =>
    case ExtendOp(_, _, _) =>
    case LendOp(_, _) =>
    case EditLineOp(_, _, _, _, _, _) =>
    case EditBorrowingOp(_, _, _, _, _) =>
    case DeleteBorrowingOp(_, _) =>
    case SetLimitOp(_, _) =>
    case MarkDeletedOp(_) =>
    case CreateOp(_, _, _) =>
  }

  lemma DeleteLineCarriesPayments(L: Ledger, op: Op)
    requires op.DeleteLineOp? && Apply(L, op).Ok?
    ensures PaymentsCarriedOver(L, Apply(L, op).value, op)
  {
    hide Collected;
    var R := Apply(L, op).value;
    assert R.payments == L.payments - PaymentsOn(L, op.l);
    forall p | p in PaymentsOn(L, op.l) ensures L.payments[p].remittance.None? {}
  }

  ghost predicate LinesCarriedOver(L: Ledger, R: Ledger) {
    forall l :: l in R.lines ==> R.lines[l].remittance.None? || (l in L.lines && SameLink(L.lines[l], R.lines[l]))
  }

  lemma OpCarriesLines(L: Ledger, op: Op)
    requires Apply(L, op).Ok? && ValidOp(op)
    ensures LinesCarriedOver(L, Apply(L, op).value)
  {
    hide Collected;
    match op
    case CollectOp(_, _, _, _, _) => CollectCarriesOver(L, op);
    case EditPaymentOp(_, l, _, _, _, _) => assert Apply(L, op).value.lines == L.lines[l := Apply(L, op).value.lines[l]];
    case DeleteLineOp(_, l) => assert Apply(L, op).value.lines == L.lines - {l};
    case DeletePaymentOp(_, l, p) => assert Apply(L, op).value.lines == L.lines[l := Apply(L, op).value.lines[l]];
    case ExtendOp(id, row, _) => assert Apply(L, op).value.lines == L.lines[id := row];
    case LendOp(_, _) =>
    case EditLineOp(_, l, _, _, _, _) => assert Apply(L, op).value.lines == L.lines[l := Apply(L, op).value.lines[l]];
    case EditBorrowingOp(_, _, _, _, _) =>
    case DeleteBorrowingOp(_, _) =>
    case SetLimitOp(_, _) =>
    case MarkDeletedOp(_) =>
    case CreateOp(_, _, _) =>
  }

  // ---- Deleted customers -----------------------------------------------------------------------------

  /** An operation touches one customer's row and borrowings only. */
  ghost predicate TouchesOnly(L: Ledger, R: Ledger, c: Id) {
    && (forall d :: d in R.customers && d != c ==> d in L.customers && R.customers[d] == L.customers[d])
    && (forall b :: b in R.borrowings && R.borrowings[b].customer != c ==>
          b in L.borrowings && R.borrowings[b] == L.borrowings[b])
  }

  lemma CollectTouchesOne(L: Ledger, op: Op)
    requires op.CollectOp? && ValidOp(op) && Apply(L, op).Ok?
    ensures TouchesOnly(L, Apply(L, op).value, op.c)
    ensures op.c in Apply(L, op).value.customers && op.c in L.customers
    ensures Apply(L, op).value.customers[op.c].deleted == L.customers[op.c].deleted
  {
    var R := Collect(L, op.co, op.c, op.now, op.rs, op.es).value;
    assert Apply(L, op).value == R;
    CollectNamesOwn(L, op.co, op.c, op.now, op.rs, op.es);
    hide Collect, Apply, ValidOp;
    CollectRows(L, op.co, op.c, op.now, op.rs, op.es);
    CollectBalances(L, op.co, op.c, op.now, op.rs, op.es);
    hide NewPayments, Paid, ReturnedOfKind, TotalCollected, FreshKeys;
    CollectReturnsOwn(L, op.c, op.rs);
  }

  lemma CollectNamesOwn(L: Ledger, co: Id, c: Id, now: int, rs: seq<ReturnEntry>, es: seq<PayEntry>)
    requires Collect(L, co, c, now, rs, es).Ok?
    ensures forall i :: 0 <= i < |rs| ==> rs[i].borrowing in L.borrowings && L.borrowings[rs[i].borrowing].customer == c
  {
    hide ApplyReturns, ApplyPayments, BatchFits;
    forall i | 0 <= i < |rs| ensures rs[i].borrowing in L.borrowings && L.borrowings[rs[i].borrowing].customer == c {
      assert ReturnFits(L, co, c, rs[i]);
    }
  }

  /** A batch returns nothing on another customer's borrowings, and leaves their rows as they are. */
  lemma {:induction false} CollectReturnsOwn(L: Ledger, c: Id, rs: seq<ReturnEntry>)
    requires forall i :: 0 <= i < |rs| ==> rs[i].borrowing in L.borrowings && L.borrowings[rs[i].borrowing].customer == c
    ensures forall b :: b in L.borrowings && L.borrowings[b].customer != c ==> Returned(rs, b) == 0
  {
    if rs != [] { CollectReturnsOwn(L, c, rs[..|rs| - 1]); }
  }

  lemma OpTouchesOne(L: Ledger, op: Op)
    requires ValidOp(op) && Apply(L, op).Ok? && CustomerOf(op).Some?
    ensures var R, c := Apply(L, op).value, CustomerOf(op).value;
      && TouchesOnly(L, R, c) && c in L.customers && c in R.customers
      && (!op.MarkDeletedOp? ==> R.customers[c].deleted == L.customers[c].deleted)
  {
    hide Collected;
    match op
    case CollectOp(_, _, _, _, _) => CollectTouchesOne(L, op);
    case ExtendOp(_, row, _) => assert Apply(L, op).value.customers == L.customers[row.customer := Apply(L, op).value.customers[row.customer]];
    case LendOp(id, row) => LendTouchesOne(L, id, row);
    case EditLineOp(_, _, _, _, _, _) =>
    case EditPaymentOp(_, _, _, _, _, _) =>
    case EditBorrowingOp(c, b, borrowed, returned, date) =>
      assert Apply(L, op).value.borrowings == L.borrowings[b := L.borrowings[b].(borrowed := borrowed, returned := returned, date := date)];
    case DeleteLineOp(c, l) =>
      assert Apply(L, op).value.customers == L.customers[c := Apply(L, op).value.customers[c]];
    case DeletePaymentOp(_, _, _) =>
    case DeleteBorrowingOp(_, b) => assert Apply(L, op).value.borrowings == L.borrowings - {b};
    case SetLimitOp(_, _) =>
    case MarkDeletedOp(_) =>
  }

  lemma LendTouchesOne(L: Ledger, id: Id, row: Borrowing)
    requires Lend(L, id, row).Ok?
    ensures TouchesOnly(L, Lend(L, id, row).value, row.customer)
  {
    assert Lend(L, id, row).value.borrowings == L.borrowings[id := row];
  }

  lemma ActiveTargetKeepsClear(L: Ledger, op: Op)
    requires Inv(L) && ValidOp(op) && DeletedAreClear(L) && TargetActive(L, op) && !op.MarkDeletedOp? && Apply(L, op).Ok?
    ensures DeletedAreClear(Apply(L, op).value)
  {
    var R := Apply(L, op).value;
    if op.CreateOp? {
      CreateKeepsClear(L, op);
    } else {
      OpTouchesOne(L, op);
      hide *;
      TouchesKeepsClear(L, R, CustomerOf(op).value);
    }
  }

  lemma TouchesKeepsClear(L: Ledger, R: Ledger, c: Id)
    requires DeletedAreClear(L) && TouchesOnly(L, R, c) && c in R.customers && !R.customers[c].deleted
    ensures DeletedAreClear(R)
  {
    forall b | b in R.borrowings && IsDeleted(R, R.borrowings[b].customer) ensures R.borrowings[b].Outstanding() == 0 {
      assert IsDeleted(L, L.borrowings[b].customer);
    }
    forall d | IsDeleted(R, d) ensures R.customers[d].debt == 0 { assert IsDeleted(L, d); }
  }

  lemma CreateKeepsClear(L: Ledger, op: Op)
    requires Inv(L) && DeletedAreClear(L) && op.CreateOp? && Apply(L, op).Ok?
    ensures DeletedAreClear(Apply(L, op).value)
  {
    hide Owed, Out, UnitsPaid;
    var R := Apply(L, op).value;
    forall b | b in R.borrowings && IsDeleted(R, R.borrowings[b].customer) ensures R.borrowings[b].Outstanding() == 0 {
      assert BorrowingOk(L, L.borrowings[b]) && IsDeleted(L, L.borrowings[b].customer);
    }
  }

  /** The pending-items check is exactly what keeps a soft delete clean. */
  lemma SoftDeleteClear(L: Ledger, c: Id)
    requires Inv(L) && DeletedAreClear(L) && c in L.customers
    ensures DeletedAreClear(MarkDeleted(L, c).value) <==> !PendingItems(L.customers[c])
  {
    var R := MarkDeleted(L, c).value;
    if DeletedAreClear(R) {
      assert IsDeleted(R, c);
      AllReturned(L, c, Round);
      AllReturned(L, c, Slim);
      AllReturned(L, c, OtherKind);
    }
    if !PendingItems(L.customers[c]) { NothingPending(L, c); }
  }

  lemma NothingPending(L: Ledger, c: Id)
    requires Inv(L) && DeletedAreClear(L) && c in L.customers && !PendingItems(L.customers[c])
    ensures DeletedAreClear(MarkDeleted(L, c).value)
  {
    var R := MarkDeleted(L, c).value;
    CountersNonNegative(L, c, Round);
    CountersNonNegative(L, c, Slim);
    CountersNonNegative(L, c, OtherKind);
    BalanceNonNegative(L, c);
    hide Inv;
    forall b | b in R.borrowings && IsDeleted(R, R.borrowings[b].customer) ensures R.borrowings[b].Outstanding() == 0 {
      if R.borrowings[b].customer == c {
        OutstandingNonNegative(L, b);
      } else {
        assert IsDeleted(L, R.borrowings[b].customer);
      }
    }
    forall d | IsDeleted(R, d) ensures R.customers[d].debt == 0 {
      if d != c { assert IsDeleted(L, d); }
    }
  }

  lemma BalanceNonNegative(L: Ledger, c: Id)
    requires Inv(L) && c in L.customers
    ensures 0 <= L.customers[c].debt
  {
  }

  lemma OutstandingNonNegative(L: Ledger, b: Id)
    requires Inv(L) && b in L.borrowings
    ensures 0 <= L.borrowings[b].Outstanding()
  {
    assert BorrowingOk(L, L.borrowings[b]);
  }

  lemma AllReturned(L: Ledger, c: Id, k: Kind)
    requires Inv(L) && c in L.customers
    requires forall b :: b in L.borrowings && L.borrowings[b].customer == c ==> L.borrowings[b].Outstanding() == 0
    ensures L.customers[c].Counter(k) == 0
  {
    hide Owed, UnitsPaid;
    assert CustomerBalanced(L, c);
    SumZero(OwnedBy(OutOfKind(L, k), Borrower(L), c));
  }

  // ---- Every request keeps the database invariant ------------------------------------------------------

  lemma LedgerRequestKeepsLinks(db: Db, op: Op)
    requires LinksOk(db) && ValidOp(op) && Apply(db.ledger, op).Ok?
    ensures LinksOk(db.(ledger := Apply(db.ledger, op).value))
  {
    var L, R := db.ledger, Apply(db.ledger, op).value;
    OpCarriesPayments(L, op);
    OpCarriesLines(L, op);
    hide Apply, ValidOp;
    forall p | p in R.payments && R.payments[p].remittance.Some?
      ensures HasRemittance(db, R.payments[p].company, R.payments[p].remittance.value)
    {
      assert CarriedOver(L, R, op, p);
    }
  }

  lemma LedgerRequestKeepsDbOk(db: Db, op: Op)
    requires DbOk(db) && ValidOp(op) && LedgerStep(db.ledger, op).Ok?
    ensures DbOk(db.(ledger := LedgerStep(db.ledger, op).value))
  {
    hide Inv, Priced, LinksOk, DeletedAreClear;
    var L := db.ledger;
    if op.MarkDeletedOp? {
      SoftDeleteClear(L, op.c);
      assert Apply(L, op) == MarkDeleted(L, op.c);
    } else {
      hide Apply;
      ActiveTargetKeepsClear(L, op);
    }
    hide Apply;
    ApplyKeepsInv(L, op);
    ApplyKeepsPrices(L, op);
    LedgerRequestKeepsLinks(db, op);
  }

  lemma LinksKeepClear(L: Ledger, R: Ledger)
    requires SameButLinks(L, R) && DeletedAreClear(L)
    ensures DeletedAreClear(R)
  {
    forall d | IsDeleted(R, d) ensures R.customers[d].debt == 0 { assert IsDeleted(L, d); }
    forall b | b in R.borrowings && IsDeleted(R, R.borrowings[b].customer) ensures R.borrowings[b].Outstanding() == 0 {
      assert IsDeleted(L, L.borrowings[b].customer);
    }
  }

  lemma DiscardKeepsDbOk(db: Db, rs: set<Id>)
    requires DbOk(db)
    ensures DbOk(Discard(db, rs))
  {
    var R := Discard(db, rs);
    UnlinkChangesLinks(db.ledger, rs);
    DiscardKeepsLinks(db, rs);
    assert OnePerDay(R);
    hide Inv, Priced, LinksOk, DeletedAreClear, Unlink, OnePerDay;
    LinksKeepInv(db.ledger, R.ledger);
    LinksKeepClear(db.ledger, R.ledger);
  }

  lemma DiscardKeepsLinks(db: Db, rs: set<Id>)
    requires LinksOk(db)
    ensures LinksOk(Discard(db, rs))
  {
  }

  /** A build's effect, given the row it stores. */
  function Stored(db: Db, co: Id, d: int, id: Id, rem: Remittance): Db {
    Db(Link(db.ledger, id, co, d), db.rems[id := rem])
  }

  lemma StoreKeepsDbOk(db: Db, co: Id, d: int, id: Id, rem: Remittance)
    requires DbOk(db) && id !in db.rems && OfDay(db, co, d) == {} && rem.company == co && rem.date == d
    ensures DbOk(Stored(db, co, d, id, rem))
  {
    var R := Stored(db, co, d, id, rem);
    LinkChangesLinks(db.ledger, id, co, d);
    StoreKeepsLinks(db, co, d, id, rem);
    StoreKeepsDays(db, co, d, id, rem);
    hide Inv, Priced, LinksOk, DeletedAreClear, Link, OnePerDay;
    LinksKeepInv(db.ledger, R.ledger);
    LinksKeepClear(db.ledger, R.ledger);
  }

  lemma StoreKeepsLinks(db: Db, co: Id, d: int, id: Id, rem: Remittance)
    requires LinksOk(db) && id !in db.rems && rem.company == co
    ensures LinksOk(Stored(db, co, d, id, rem))
  {
  }

  lemma StoreKeepsDays(db: Db, co: Id, d: int, id: Id, rem: Remittance)
    requires OnePerDay(db) && id !in db.rems && OfDay(db, co, d) == {} && rem.company == co && rem.date == d
    ensures OnePerDay(Stored(db, co, d, id, rem))
  {
    forall r | r in db.rems ensures !SameDay(db.rems[r], rem) { assert r !in OfDay(db, co, d); }
  }

  /** The row a build stores. */
  lemma BuildStores(db: Db, ro: Roster, p: Payload, d: int, id: Id, user: Id, finalized: Option<int>)
    requires BuildDay(db, ro, p, d, id, user, finalized).Ok?
    ensures id !in db.rems && OfDay(db, ro.company, d) == {} && Acceptable(ro, p)
    ensures var rem := BuiltRemittance(db.ledger, ro, p, d, user, finalized);
      && BuildDay(db, ro, p, d, id, user, finalized).value == Stored(db, ro.company, d, id, rem)
      && rem.company == ro.company && rem.date == d && rem.status == (if finalized.Some? then Finalized else Draft)
      && !rem.tithesPaid && !rem.offeringPaid
      && rem.figures.repayments == Sum(RepaymentAmounts(RepaymentsOf(db.ledger, Eligible(db.ledger, ro.company, d))))
  {
    hide BuiltChildren, TallyRiders, Unlisted, UnlistedCommissions, SalaryOf, AmountOf, StaffSpent, ActiveStaff;
    hide Eligible, Acceptable;
  }

  /** Rebuilding a day: discard what is there, then build. */
  ghost predicate IsRebuild(db: Db, R: Db, co: Id, d: int, id: Id) {
    var day := OfDay(db, co, d);
    && !SomeFinalized(db, day) && id !in Discard(db, day).rems && id in R.rems
    && R == Stored(Discard(db, day), co, d, id, R.rems[id])
    && R.rems[id].company == co && R.rems[id].date == d
    && R.rems[id].figures.repayments
       == Sum(RepaymentAmounts(RepaymentsOf(Unlink(db.ledger, day), Eligible(Unlink(db.ledger, day), co, d))))
  }

  lemma BuildingRequest(db: Db, rq: Request)
    requires (rq.CreateRequest? || rq.SaveRequest?) && Step(db, rq).Ok?
    ensures IsRebuild(db, Step(db, rq).value, rq.ro.company, rq.d, rq.id)
    ensures Acceptable(rq.ro, rq.p)
  {
    var day := OfDay(db, rq.ro.company, rq.d);
    var finalized := if rq.CreateRequest? && rq.finalize then Some(rq.now) else None;
    assert Step(db, rq) == BuildDay(Discard(db, day), rq.ro, rq.p, rq.d, rq.id, rq.user, finalized) by {
      hide BuildDay, Discard, OfDay, SomeFinalized;
    }
    hide Step, BuildDay, OfDay, BuiltRemittance, Link, SomeFinalized, Eligible, RepaymentsOf, RepaymentAmounts, Acceptable;
    BuildStores(Discard(db, day), rq.ro, rq.p, rq.d, rq.id, rq.user, finalized);
    NoneFinalized(db, rq);
  }

  lemma NoneFinalized(db: Db, rq: Request)
    requires (rq.CreateRequest? || rq.SaveRequest?) && Step(db, rq).Ok?
    ensures !SomeFinalized(db, OfDay(db, rq.ro.company, rq.d))
  {
    hide BuildDay, Discard, OfDay, SomeFinalized;
  }

  lemma RebuildKeepsDbOk(db: Db, R: Db, co: Id, d: int, id: Id)
    requires DbOk(db) && IsRebuild(db, R, co, d, id)
    ensures DbOk(R)
  {
    var day := OfDay(db, co, d);
    hide DbOk, Stored, RepaymentsOf, RepaymentAmounts;
    DiscardKeepsDbOk(db, day);
    NothingLeft(db, co, d);
    StoreKeepsDbOk(Discard(db, day), co, d, id, R.rems[id]);
  }

  lemma NothingLeft(db: Db, co: Id, d: int)
    ensures OfDay(Discard(db, OfDay(db, co, d)), co, d) == {}
  {
  }

  lemma StatusKeepsDays(db: Db, rq: Request)
    requires (rq.FinalizeRequest? || rq.PaidRequest?) && Step(db, rq).Ok?
    ensures var R := Step(db, rq).value;
      && R.ledger == db.ledger && R.rems.Keys == db.rems.Keys && (forall r :: r in db.rems ==> SameDay(db.rems[r], R.rems[r]))
  {
  }

  lemma StatusRequestKeepsDbOk(db: Db, rq: Request)
    requires DbOk(db) && (rq.FinalizeRequest? || rq.PaidRequest?) && Step(db, rq).Ok?
    ensures DbOk(Step(db, rq).value)
  {
    var R := Step(db, rq).value;
    StatusKeepsDays(db, rq);
    hide Inv, Priced, DeletedAreClear, Step;
    forall r, s | r in R.rems && s in R.rems && SameDay(R.rems[r], R.rems[s]) ensures r == s {
      assert SameDay(db.rems[r], db.rems[s]);
    }
  }

  lemma StepKeepsDbOk(db: Db, rq: Request)
    requires DbOk(db) && ValidRequest(rq)
    ensures DbOk(After(db, rq))
  {
    hide DbOk;
    if Step(db, rq).Ok? {
      match rq
      case LedgerRequest(op) => LedgerRequestKeepsDbOk(db, op);
      case CreateRequest(ro, _, d, id, _, _, _) =>
        BuildingRequest(db, rq);
        RebuildKeepsDbOk(db, Step(db, rq).value, ro.company, d, id);
      case SaveRequest(ro, _, d, id, _) =>
        BuildingRequest(db, rq);
        RebuildKeepsDbOk(db, Step(db, rq).value, ro.company, d, id);
      case ClearRequest(co, d) => DiscardKeepsDbOk(db, OfDay(db, co, d));
      case FinalizeRequest(_, _, _, _, _, _) => StatusRequestKeepsDbOk(db, rq);
      case PaidRequest(_, _, _, _) => StatusRequestKeepsDbOk(db, rq);
    }
  }

  ghost predicate AllValid(rqs: seq<Request>) { forall i :: 0 <= i < |rqs| ==> ValidRequest(rqs[i]) }

  /** Every run of requests, refused ones included, keeps the ledger balanced and priced, links within a company,
      at most one remittance a day, and deleted customers clear. */
  lemma {:induction false} RunKeepsDbOk(db: Db, rqs: seq<Request>)
    requires DbOk(db) && AllValid(rqs)
    ensures DbOk(Run(db, rqs))
  {
    hide DbOk, After;
    if rqs != [] {
      RunKeepsDbOk(db, rqs[..|rqs| - 1]);
      StepKeepsDbOk(Run(db, rqs[..|rqs| - 1]), rqs[|rqs| - 1]);
    }
  }

  predicate AllReturnedBy(L: Ledger, c: Id) {
    forall b :: b in L.borrowings && L.borrowings[b].customer == c ==> L.borrowings[b].Outstanding() == 0
  }

  /** Spelled out for one customer of any reachable state. */
  lemma ReachableCustomer(db: Db, rqs: seq<Request>, c: Id, k: Kind)
    requires DbOk(db) && AllValid(rqs) && c in Run(db, rqs).ledger.customers
    ensures var L := Run(db, rqs).ledger;
      && L.customers[c].debt == Owed(L, c) && 0 <= L.customers[c].debt
      && L.customers[c].Counter(k) == Out(L, c, k) && 0 <= L.customers[c].Counter(k)
      && (L.customers[c].deleted ==> L.customers[c].debt == 0 && AllReturnedBy(L, c))
  {
    RunKeepsDbOk(db, rqs);
    var L := Run(db, rqs).ledger;
    hide Run, Owed, Out, UnitsPaid;
    CountersNonNegative(L, c, k);
    assert CustomerBalanced(L, c);
    assert L.customers[c].deleted ==> IsDeleted(L, c);
  }

  // ---- Finalized remittances are immutable -------------------------------------------------------------

  function LinkedTo(L: Ledger, r: Id): set<Id> { set p | p in L.payments && L.payments[p].remittance == Some(r) }

  /** Same remittance, except that paid flags may have been set. */
  predicate OnlyFlagsSet(was: Remittance, now: Remittance) {
    && now == was.(tithesPaid := now.tithesPaid, offeringPaid := now.offeringPaid)
    && (was.tithesPaid ==> now.tithesPaid) && (was.offeringPaid ==> now.offeringPaid)
  }

  ghost predicate Kept(db: Db, R: Db, r: Id) {
    && r in db.rems && r in R.rems && OnlyFlagsSet(db.rems[r], R.rems[r])
    && LinkedTo(R.ledger, r) == LinkedTo(db.ledger, r)
  }

  lemma RebuildKeepsFinalized(db: Db, R: Db, co: Id, d: int, id: Id, r: Id)
    requires LinksOk(db) && IsRebuild(db, R, co, d, id) && r in db.rems && db.rems[r].status == Finalized
    ensures Kept(db, R, r)
  {
    var day := OfDay(db, co, d);
    assert r !in day;
    hide RepaymentsOf, RepaymentAmounts;
    DiscardKeepsOthers(db, day, r);
    StoreKeepsOthers(Discard(db, day), co, d, id, R.rems[id], r);
  }

  lemma DiscardKeepsOthers(db: Db, rs: set<Id>, r: Id)
    requires r in db.rems && r !in rs
    ensures Kept(db, Discard(db, rs), r)
  {
  }

  lemma StoreKeepsOthers(db: Db, co: Id, d: int, id: Id, rem: Remittance, r: Id)
    requires r in db.rems && id !in db.rems
    ensures Kept(db, Stored(db, co, d, id, rem), r)
  {
  }

  lemma LedgerRequestKeepsLinked(db: Db, op: Op, r: Id)
    requires ValidOp(op) && LedgerStep(db.ledger, op).Ok? && r in db.rems
    ensures Kept(db, db.(ledger := LedgerStep(db.ledger, op).value), r)
  {
    var L := db.ledger;
    if op.MarkDeletedOp? {
      assert Apply(L, op) == MarkDeleted(L, op.c);
    } else {
      hide Apply, ValidOp;
      OpCarriesPayments(L, op);
      var R := Apply(L, op).value;
      forall p ensures p in LinkedTo(L, r) <==> p in LinkedTo(R, r) {
        if p in R.payments && p in L.payments { assert CarriedOver(L, R, op, p); }
      }
    }
  }

  /** No request changes a finalized remittance's totals, rows, date, company or linked payments; its paid flags
      only go from false to true. */
  lemma StepKeepsFinalized(db: Db, rq: Request, r: Id)
    requires DbOk(db) && ValidRequest(rq) && r in db.rems && db.rems[r].status == Finalized
    ensures Kept(db, After(db, rq), r)
  {
    hide Inv, Priced, DeletedAreClear, OnePerDay;
    if Step(db, rq).Ok? {
      var R := Step(db, rq).value;
      match rq
      case LedgerRequest(op) => LedgerRequestKeepsLinked(db, op, r);
      case CreateRequest(ro, _, d, id, _, _, _) =>
        BuildingRequest(db, rq);
        RebuildKeepsFinalized(db, R, ro.company, d, id, r);
      case SaveRequest(ro, _, d, id, _) =>
        BuildingRequest(db, rq);
        RebuildKeepsFinalized(db, R, ro.company, d, id, r);
      case ClearRequest(co, d) => DiscardKeepsOthers(db, OfDay(db, co, d), r);
      case FinalizeRequest(_, _, _, s, _, _) =>
      case PaidRequest(_, s, _, _) =>
    }
  }

  lemma KeptTrans(a: Db, b: Db, c: Db, r: Id)
    requires Kept(a, b, r) && Kept(b, c, r)
    ensures Kept(a, c, r)
  {
  }

  /** Over every run, once finalized is finalized for good. */
  lemma {:induction false} RunKeepsFinalized(db: Db, rqs: seq<Request>, r: Id)
    requires DbOk(db) && AllValid(rqs) && r in db.rems && db.rems[r].status == Finalized
    ensures Kept(db, Run(db, rqs), r)
  {
    hide DbOk, After;
    if rqs != [] {
      var init := rqs[..|rqs| - 1];
      RunKeepsDbOk(db, init);
      RunKeepsFinalized(db, init, r);
      StepKeepsFinalized(Run(db, init), rqs[|rqs| - 1], r);
      KeptTrans(db, Run(db, init), Run(db, rqs), r);
    }
  }
}
