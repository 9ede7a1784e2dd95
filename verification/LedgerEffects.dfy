/** What a collection does as a whole, and which ledger operations undo one another. */
module LedgerEffects {
  import opened FiniteSums
  import opened Ledger
  import opened LedgerProofs

  /** Containers of one kind a batch returns. */
  function ReturnedOfKind(L: Ledger, rs: seq<ReturnEntry>, k: Kind): int {
    if rs == [] then 0 else
    var r := rs[|rs| - 1];
    ReturnedOfKind(L, rs[..|rs| - 1], k)
    + (if r.borrowing in L.borrowings && L.borrowings[r.borrowing].kind == k then r.qty else 0)
  }

  lemma {:induction false} ReturnsLowerCounters(L: Ledger, co: Id, c: Id, rs: seq<ReturnEntry>, k: Kind)
    requires ReturnsFit(L, co, c, rs)
    ensures ApplyReturns(L, c, rs).customers[c].Counter(k) == L.customers[c].Counter(k) - ReturnedOfKind(L, rs, k)
    ensures forall d :: d in L.customers && d != c ==> ApplyReturns(L, c, rs).customers[d] == L.customers[d]
  {
    if rs != [] {
      var init, r := rs[..|rs| - 1], rs[|rs| - 1];
      ReturnsFitPrefix(L, co, c, rs);
      ReturnsLowerCounters(L, co, c, init, k);
      ApplyReturnsRows(L, co, c, init);
      assert ReturnFits(L, co, c, r);
      assert ApplyReturns(L, c, rs) == ReturnOne(ApplyReturns(L, c, init), c, r);
      hide ApplyReturns, ReturnsFit, Returned;
    }
  }

  /** A borrowing after a batch that returns `n` of it. */
  predicate ReturnedRow(was: Borrowing, now: Borrowing, n: int) {
    now == was.(returned := was.returned + n, returnedAt := now.returnedAt) && (n == 0 ==> now == was)
  }

  lemma {:induction false} UntouchedBorrowings(L: Ledger, c: Id, rs: seq<ReturnEntry>)
    requires c in L.customers && forall i :: 0 <= i < |rs| ==> rs[i].borrowing in L.borrowings && 0 < rs[i].qty
    ensures forall b :: 0 <= Returned(rs, b)
    ensures forall b :: b in L.borrowings && Returned(rs, b) == 0 ==> ApplyReturns(L, c, rs).borrowings[b] == L.borrowings[b]
  {
    if rs != [] { UntouchedBorrowings(L, c, rs[..|rs| - 1]); }
  }

  lemma CollectFits(L: Ledger, co: Id, c: Id, now: int, rs: seq<ReturnEntry>, es: seq<PayEntry>)
    requires ValidOp(CollectOp(co, c, now, rs, es)) && Collect(L, co, c, now, rs, es).Ok?
    ensures ReturnsFit(L, co, c, rs) && PaymentsFit(L, co, c, es)
  {
    assert NonNegative(rs, es);
    hide Collect;
    BatchFitsTogether(L, co, c, now, rs, es);
  }

  /** A collection that names lines and borrowings any number of times takes off each line exactly the units its
      entries pay there, adds to each borrowing exactly what they return there, and inserts one payment per entry. */
  lemma CollectRows(L: Ledger, co: Id, c: Id, now: int, rs: seq<ReturnEntry>, es: seq<PayEntry>)
    requires ValidOp(CollectOp(co, c, now, rs, es)) && Collect(L, co, c, now, rs, es).Ok?
    ensures var R := Collect(L, co, c, now, rs, es).value;
      && R.lines.Keys == L.lines.Keys && R.borrowings.Keys == L.borrowings.Keys
      && (forall l :: l in L.lines ==> R.lines[l] == L.lines[l].(remaining := L.lines[l].remaining - Paid(es, l)))
      && (forall b :: b in L.borrowings ==> ReturnedRow(L.borrowings[b], R.borrowings[b], Returned(rs, b)))
      && FreshKeys(L, es) && R.payments == L.payments + NewPayments(co, now, es)
  {
    CollectFits(L, co, c, now, rs, es);
    CollectParts(L, co, c, now, rs, es);
    PaymentsStillFit(L, co, c, rs, es);
    ApplyReturnsRows(L, co, c, rs);
    UntouchedBorrowings(L, c, rs);
    var M := ApplyReturns(L, c, rs);
    assert M.lines == L.lines && M.payments == L.payments;
    ApplyPaymentsLines(M, co, now, c, es);
    ApplyPaymentsInserts(M, co, now, es);
    hide ApplyReturns, ApplyPayments, NewPayments, Paid, Returned, TotalCollected, Collect, ReturnFits, PaymentFits;
  }

  /** It lowers the balance and the counters by the batch's totals, and touches no other customer. */
  lemma CollectBalances(L: Ledger, co: Id, c: Id, now: int, rs: seq<ReturnEntry>, es: seq<PayEntry>)
    requires ValidOp(CollectOp(co, c, now, rs, es)) && Collect(L, co, c, now, rs, es).Ok?
    ensures var R := Collect(L, co, c, now, rs, es).value;
      && R.customers.Keys == L.customers.Keys && c in L.customers
      && (forall d :: d in L.customers && d != c ==> R.customers[d] == L.customers[d])
      && R.customers[c] == L.customers[c].(debt := L.customers[c].debt - TotalCollected(es),
           round := L.customers[c].round - ReturnedOfKind(L, rs, Round),
           slim := L.customers[c].slim - ReturnedOfKind(L, rs, Slim),
           other := L.customers[c].other - ReturnedOfKind(L, rs, OtherKind))
  {
    hide *;
    CollectFits(L, co, c, now, rs, es);
    CollectParts(L, co, c, now, rs, es);
    PayerExists(L, co, c, now, rs, es);
    ReturnsLowerCounters(L, co, c, rs, Round);
    ReturnsLowerCounters(L, co, c, rs, Slim);
    ReturnsLowerCounters(L, co, c, rs, OtherKind);
    ApplyReturnsRows(L, co, c, rs);
    var M := ApplyReturns(L, c, rs);
    BalancesAfter(L, M, ApplyPayments(M, co, now, es), c, TotalCollected(es), ReturnedOfKind(L, rs, Round),
                  ReturnedOfKind(L, rs, Slim), ReturnedOfKind(L, rs, OtherKind));
  }

  lemma PayerExists(L: Ledger, co: Id, c: Id, now: int, rs: seq<ReturnEntry>, es: seq<PayEntry>)
    requires Collect(L, co, c, now, rs, es).Ok?
    ensures c in L.customers
  {
  }

  lemma BalancesAfter(L: Ledger, M: Ledger, N: Ledger, c: Id, paid: int, round: int, slim: int, other: int)
    requires c in L.customers && M.customers.Keys == L.customers.Keys && N.customers == M.customers
    requires forall d :: d in L.customers && d != c ==> M.customers[d] == L.customers[d]
    requires var was, now := L.customers[c], M.customers[c];
      && CountersMoved(was, now) && now.Counter(Round) == was.Counter(Round) - round
      && now.Counter(Slim) == was.Counter(Slim) - slim
      && now.Counter(OtherKind) == was.Counter(OtherKind) - other
    ensures var R, was := AddDebt(N, c, -paid), L.customers[c];
      && R.customers.Keys == L.customers.Keys
      && (forall d :: d in L.customers && d != c ==> R.customers[d] == L.customers[d])
      && R.customers[c] == was.(debt := was.debt - paid, round := was.round - round, slim := was.slim - slim,
                                other := was.other - other)
  {
  }

  // ---- Operations that undo one another ----------------------------------------------------------------

  lemma LineFacts(L: Ledger, l: Id)
    requires Inv(L) && l in L.lines
    ensures LineOk(L, L.lines[l])
  {
  }

  lemma BalanceFacts(L: Ledger, c: Id)
    requires Inv(L) && c in L.customers
    ensures 0 <= L.customers[c].debt
  {
  }

  /** Only the newly recorded payment and the units and money it took stand between the two ledgers. */
  ghost predicate PaidOnce(L: Ledger, R: Ledger, co: Id, c: Id, now: int, e: PayEntry) {
    && e.id !in L.payments && R.payments == L.payments[e.id := PaymentRow(co, now, e)]
    && e.line in L.lines && L.lines[e.line].customer == c && c in L.customers && R.borrowings == L.borrowings
    && R.lines == L.lines[e.line := L.lines[e.line].(remaining := L.lines[e.line].remaining - e.units)]
    && R.customers == L.customers[c := L.customers[c].(debt := L.customers[c].debt - e.amount)]
  }

  lemma CollectOne(L: Ledger, co: Id, c: Id, now: int, e: PayEntry)
    requires ValidOp(CollectOp(co, c, now, [], [e])) && Collect(L, co, c, now, [], [e]).Ok?
    ensures PaidOnce(L, Collect(L, co, c, now, [], [e]).value, co, c, now, e)
  {
    CollectFits(L, co, c, now, [], [e]);
    assert [e][0] == e && PaymentFits(L, co, c, [e][0]);
    CollectParts(L, co, c, now, [], [e]);
    assert ApplyReturns(L, c, []) == L;
    assert [e][..0] == [] && ApplyPayments(L, co, now, [e]) == PayOne(L, co, now, e);
  }

  /** Deleting the payment a one-entry collection recorded restores the ledger, to the last field. */
  lemma DeletePaymentUndoesCollect(L: Ledger, co: Id, c: Id, now: int, e: PayEntry)
    requires Inv(L) && ValidOp(CollectOp(co, c, now, [], [e])) && Collect(L, co, c, now, [], [e]).Ok?
    ensures DeletePayment(Collect(L, co, c, now, [], [e]).value, e.id) == Ok(L)
  {
    hide Inv;
    CollectOne(L, co, c, now, e);
    LineFacts(L, e.line);
    hide Collect;
    UnpayOne(L, Collect(L, co, c, now, [], [e]).value, co, c, now, e);
  }

  lemma UnpayOne(L: Ledger, R: Ledger, co: Id, c: Id, now: int, e: PayEntry)
    requires PaidOnce(L, R, co, c, now, e) && LineOk(L, L.lines[e.line])
    ensures DeletePayment(R, e.id) == Ok(L)
  {
    assert R.payments - {e.id} == L.payments;
    assert R.lines[e.line := L.lines[e.line]] == L.lines;
    assert R.customers[c := L.customers[c]] == L.customers;
  }

  lemma DeleteBorrowingUndoesLend(L: Ledger, id: Id, row: Borrowing)
    requires ValidOp(LendOp(id, row)) && Lend(L, id, row).Ok? && Inv(L)
    ensures DeleteBorrowing(Lend(L, id, row).value, id) == Ok(L)
  {
    hide Inv;
    CountersNonNegative(L, row.customer, row.kind);
    var R, c := Lend(L, id, row).value, row.customer;
    assert R.borrowings - {id} == L.borrowings;
    assert R.customers[c].AddToCounter(row.kind, -row.borrowed) == L.customers[c];
    assert R.customers[c := L.customers[c]] == L.customers;
  }

  /** Deleting a line nobody paid on undoes its extension, except that the customer's last credit date stays. */
  lemma DeleteLineUndoesExtend(L: Ledger, id: Id, row: CreditLine, start: int)
    requires ValidOp(ExtendOp(id, row, start)) && Extend(L, id, row, start).Ok? && Inv(L)
    ensures var c := row.customer;
      DeleteLine(Extend(L, id, row, start).value, id)
      == Ok(PutCustomer(L, c, L.customers[c].(lastCredit := Later(L.customers[c].lastCredit, start))))
  {
    hide Inv;
    var R, c := Extend(L, id, row, start).value, row.customer;
    NoneOnNewLine(L, id);
    BalanceFacts(L, c);
    SamePaymentRows(L, R);
    UnextendOne(L, R, id, row, L.customers[c].(lastCredit := Later(L.customers[c].lastCredit, start)));
  }

  lemma UnextendOne(L: Ledger, R: Ledger, id: Id, row: CreditLine, cust: Customer)
    requires var c := row.customer;
      && id !in L.lines && c in L.customers && 0 <= cust.debt
      && R == PutCustomer(PutLine(L, id, row), c, cust.(debt := cust.debt + row.total))
    requires PaymentsOn(L, id) == {} && Collected(R, id) == 0
    ensures DeleteLine(R, id) == Ok(PutCustomer(L, row.customer, cust))
  {
    hide Collected;
    assert PaymentsOn(R, id) == {};
    assert R.payments - {} == L.payments && R.lines - {id} == L.lines;
    assert R.customers[row.customer := cust] == L.customers[row.customer := cust];
  }

  lemma NoneOnNewLine(L: Ledger, id: Id)
    requires Inv(L) && id !in L.lines
    ensures PaymentsOn(L, id) == {} && Collected(L, id) == 0
  {
    hide Owed, Out, UnitsPaid;
    forall p | p in L.payments ensures L.payments[p].line in L.lines { assert PaymentOk(L, L.payments[p]); }
    NoPaymentsYet(L, id);
  }

  lemma EditRestores(L: Ledger, p: Id, units: int, amount: int, at: int)
    requires Inv(L) && 0 <= units && EditPayment(L, p, units, amount, at).Ok?
    requires L.payments[p].paidAt.Some?
    ensures var was, R := L.payments[p], EditPayment(L, p, units, amount, at).value;
      EditPayment(R, p, was.containers, was.amount, was.paidAt.value) == Ok(L)
  {
    hide Inv;
    var was, R := L.payments[p], EditPayment(L, p, units, amount, at).value;
    var c := L.lines[was.line].customer;
    LineFacts(L, was.line);
    BalanceFacts(L, c);
    assert R.payments[p := was] == L.payments;
    assert R.lines[was.line := L.lines[was.line]] == L.lines;
    assert R.customers[c := L.customers[c]] == L.customers;
  }

  lemma EditKeepsPlace(L: Ledger, p: Id, units: int, amount: int, at: int)
    requires EditPayment(L, p, units, amount, at).Ok?
    ensures p in L.payments && L.payments[p].line in L.lines
    ensures var was := L.payments[p];
      PaymentOnLine(EditPayment(L, p, units, amount, at).value, L.lines[was.line].customer, was.line, p)
  {
  }

  /** An edit can be edited back to the same ledger, except that a missing payment date cannot be restored; and the
      service lets the second edit through exactly when the payment was recorded with money. */
  lemma EditPaymentBack(L: Ledger, p: Id, units: int, amount: int, at: int)
    requires Inv(L) && 0 <= units && EditPayment(L, p, units, amount, at).Ok?
    requires L.payments[p].paidAt.Some?
    ensures L.payments[p].line in L.lines
    ensures var was, R := L.payments[p], EditPayment(L, p, units, amount, at).value;
      var back := EditPaymentOp(L.lines[was.line].customer, was.line, p, was.containers, was.amount, was.paidAt.value);
      Apply(R, back) == Ok(L) && (ValidOp(back) <==> 0 < was.amount)
  {
    EditKeepsPlace(L, p, units, amount, at);
    hide EditPayment, PaymentOnLine, Inv;
    PaymentHasUnits(L, p);
    EditRestores(L, p, units, amount, at);
  }

  lemma PaymentHasUnits(L: Ledger, p: Id)
    requires Inv(L) && p in L.payments
    ensures 0 <= L.payments[p].containers
  {
    hide Owed, Out, UnitsPaid;
    assert PaymentOk(L, L.payments[p]);
  }

  // ---- After the limit was checked -----------------------------------------------------------------------

  /** Deleting a payment does not look at the credit limit: it can put a balance that respected it over it. */
  lemma DeletionMayPassTheLimit(L: Ledger, p: Id)
    requires Inv(L) && p in L.payments && L.payments[p].remittance.None?
    ensures var c := L.lines[L.payments[p].line].customer;
      && L.payments[p].line in L.lines && c in L.customers && DeletePayment(L, p).Ok?
      && var cust := DeletePayment(L, p).value.customers[c];
         && cust.limit == L.customers[c].limit
         && (cust.debt > cust.limit <==> L.customers[c].debt + L.payments[p].amount > L.customers[c].limit)
  {
    PaymentGuardsAreDead(L, p, 0, 0, 0);
    PaymentHasLine(L, p);
    hide Inv;
  }

  lemma PaymentHasLine(L: Ledger, p: Id)
    requires Inv(L) && p in L.payments
    ensures L.payments[p].line in L.lines && L.lines[L.payments[p].line].customer in L.customers
  {
    hide Owed, Out, UnitsPaid;
    assert PaymentOk(L, L.payments[p]) && LineOk(L, L.lines[L.payments[p].line]);
  }
}
