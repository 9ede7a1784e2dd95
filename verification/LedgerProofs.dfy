/** Every ledger service keeps the ledger invariant, and what else follows from it. */
module LedgerProofs {
  import opened FiniteSums
  import opened Ledger

  // ---- What one row change does to the recomputed aggregates ---------------------------------

  ghost predicate LinesExist(L: Ledger) {
    forall p :: p in L.payments ==> L.payments[p].line in L.lines
  }

  lemma SamePaymentRows(L: Ledger, R: Ledger)
    requires R.payments == L.payments
    ensures Amounts(R) == Amounts(L) && Units(R) == Units(L) && LineOf(R) == LineOf(L)
  {
  }

  lemma SameLineRows(L: Ledger, R: Ledger)
    requires R.lines == L.lines
    ensures Totals(R) == Totals(L) && Debtor(R) == Debtor(L)
  {
  }

  lemma SameBorrowings(L: Ledger, R: Ledger, c: Id, k: Kind)
    requires R.borrowings == L.borrowings
    ensures Out(R, c, k) == Out(L, c, k)
  {
    assert Borrower(R) == Borrower(L) && OutOfKind(R, k) == OutOfKind(L, k);
  }

  lemma SameCredit(L: Ledger, R: Ledger, c: Id, l: Id)
    requires R.lines == L.lines && R.payments == L.payments
    ensures Owed(R, c) == Owed(L, c) && UnitsPaid(R, l) == UnitsPaid(L, l) && Collected(R, l) == Collected(L, l)
  {
    SameLineRows(L, R);
    SamePaymentRows(L, R);
    assert Payer(R) == Payer(L);
  }

  /** The aggregates are recomputed from rows only, never from the customer table. */
  lemma PutCustomerSums(L: Ledger, d: Id, row: Customer, c: Id, l: Id, k: Kind)
    ensures var R := PutCustomer(L, d, row);
      Owed(R, c) == Owed(L, c) && UnitsPaid(R, l) == UnitsPaid(L, l) && Out(R, c, k) == Out(L, c, k)
  {
    SameCredit(L, PutCustomer(L, d, row), c, l);
    SameBorrowings(L, PutCustomer(L, d, row), c, k);
  }

  lemma PutLineViews(L: Ledger, l: Id, row: CreditLine)
    requires LinesExist(L) && (l in L.lines ==> L.lines[l].customer == row.customer)
    ensures var R := PutLine(L, l, row);
      Totals(R) == Totals(L)[l := row.total] && Debtor(R) == Debtor(L)[l := row.customer] && Payer(R) == Payer(L)
  {
  }

  /** Storing a line changes what its customer owes by the change in its total. */
  lemma PutLineSums(L: Ledger, l: Id, row: CreditLine, c: Id, j: Id, k: Kind)
    requires LinesExist(L) && (l in L.lines ==> L.lines[l].customer == row.customer)
    ensures var R := PutLine(L, l, row);
      && Owed(R, c) == Owed(L, c) + (if row.customer == c then row.total - At(Totals(L), l) else 0)
      && UnitsPaid(R, j) == UnitsPaid(L, j) && Out(R, c, k) == Out(L, c, k)
  {
    PutLineViews(L, l, row);
    SamePaymentRows(L, PutLine(L, l, row));
    SameBorrowings(L, PutLine(L, l, row), c, k);
    OwnedByPut(Totals(L), Debtor(L), c, l, row.total, row.customer);
  }

  lemma PutPaymentViews(L: Ledger, p: Id, pay: Payment)
    requires pay.line in L.lines
    ensures var R := PutPayment(L, p, pay);
      && Amounts(R) == Amounts(L)[p := pay.amount] && Units(R) == Units(L)[p := pay.containers]
      && LineOf(R) == LineOf(L)[p := pay.line] && Payer(R) == Payer(L)[p := L.lines[pay.line].customer]
  {
  }

  /** Storing a payment lowers what its payer owes and raises the units paid on its line. */
  lemma PutPaymentSums(L: Ledger, p: Id, pay: Payment, c: Id, j: Id, k: Kind)
    requires pay.line in L.lines && (p in L.payments ==> L.payments[p].line == pay.line)
    ensures var R := PutPayment(L, p, pay);
      && Owed(R, c) == Owed(L, c) - (if L.lines[pay.line].customer == c then pay.amount - At(Amounts(L), p) else 0)
      && UnitsPaid(R, j) == UnitsPaid(L, j) + (if pay.line == j then pay.containers - At(Units(L), p) else 0)
      && Out(R, c, k) == Out(L, c, k)
  {
    PutPaymentViews(L, p, pay);
    SameLineRows(L, PutPayment(L, p, pay));
    SameBorrowings(L, PutPayment(L, p, pay), c, k);
    OwnedByPut(Amounts(L), Payer(L), c, p, pay.amount, L.lines[pay.line].customer);
    OwnedByPut(Units(L), LineOf(L), j, p, pay.containers, pay.line);
  }

  lemma DropPaymentViews(L: Ledger, p: Id)
    ensures var R := L.(payments := L.payments - {p});
      && Amounts(R) == Amounts(L) - {p} && Units(R) == Units(L) - {p}
      && LineOf(R) == LineOf(L) - {p} && Payer(R) == Payer(L) - {p}
  {
  }

  lemma DropPaymentSums(L: Ledger, p: Id, c: Id, j: Id, k: Kind)
    requires p in L.payments && L.payments[p].line in L.lines
    ensures var R, pay := L.(payments := L.payments - {p}), L.payments[p];
      && Owed(R, c) == Owed(L, c) + (if L.lines[pay.line].customer == c then pay.amount else 0)
      && UnitsPaid(R, j) == UnitsPaid(L, j) - (if pay.line == j then pay.containers else 0)
      && Out(R, c, k) == Out(L, c, k)
  {
    DropPaymentViews(L, p);
    SameLineRows(L, L.(payments := L.payments - {p}));
    SameBorrowings(L, L.(payments := L.payments - {p}), c, k);
    OwnedByDrop(Amounts(L), Payer(L), c, p);
    OwnedByDrop(Units(L), LineOf(L), j, p);
  }

  function WithoutLine(L: Ledger, l: Id): Ledger {
    L.(payments := L.payments - PaymentsOn(L, l), lines := L.lines - {l})
  }

  /** Deleting a line with all its payments lowers what its customer owes by the uncollected part. */
  lemma DropLineSums(L: Ledger, l: Id, c: Id, j: Id, k: Kind)
    requires LinesExist(L) && l in L.lines
    ensures var R := WithoutLine(L, l);
      && Owed(R, c) == Owed(L, c) - (if L.lines[l].customer == c then L.lines[l].total - Collected(L, l) else 0)
      && (j != l ==> UnitsPaid(R, j) == UnitsPaid(L, j))
      && Out(R, c, k) == Out(L, c, k)
  {
    var R := WithoutLine(L, l);
    SameBorrowings(L, R, c, k);
    assert Totals(R) == Totals(L) - {l} && Debtor(R) == Debtor(L) - {l};
    OwnedByDrop(Totals(L), Debtor(L), c, l);
    DropPaymentsAmounts(L, l, c);
    if j != l { DropPaymentsUnits(L, l, j); }
  }

  lemma DropPaymentsUnits(L: Ledger, l: Id, j: Id)
    requires j != l
    ensures UnitsPaid(WithoutLine(L, l), j) == UnitsPaid(L, j)
  {
    var m, gone := OwnedBy(Units(L), LineOf(L), j), PaymentsOn(L, l);
    SumSplit(m, gone);
    SumZero(map p | p in m && p in gone :: m[p]);
    assert OwnedBy(Units(WithoutLine(L, l)), LineOf(WithoutLine(L, l)), j) == m - gone;
  }

  lemma DropLineViews(L: Ledger, l: Id)
    requires LinesExist(L)
    ensures Amounts(WithoutLine(L, l)) == Amounts(L) - PaymentsOn(L, l)
    ensures Payer(WithoutLine(L, l)) == Payer(L) - PaymentsOn(L, l)
  {
  }

  /** The payments of a line are all its customer's, and nobody else's. */
  lemma PaidOnLine(L: Ledger, l: Id, c: Id)
    requires LinesExist(L) && l in L.lines
    ensures var m, gone := OwnedBy(Amounts(L), Payer(L), c), PaymentsOn(L, l);
      Sum(map p | p in m && p in gone :: m[p]) == if L.lines[l].customer == c then Collected(L, l) else 0
  {
    var m, gone := OwnedBy(Amounts(L), Payer(L), c), PaymentsOn(L, l);
    var inside := map p | p in m && p in gone :: m[p];
    if L.lines[l].customer == c {
      var onLine := OwnedBy(Amounts(L), LineOf(L), l);
      SumSplit(onLine, gone);
      SumZero(onLine - gone);
      assert inside == map p | p in onLine && p in gone :: onLine[p];
    } else {
      SumZero(inside);
    }
  }

  lemma DropPaymentsAmounts(L: Ledger, l: Id, c: Id)
    requires LinesExist(L) && l in L.lines
    ensures var R := WithoutLine(L, l);
      Sum(OwnedBy(Amounts(R), Payer(R), c))
      == Sum(OwnedBy(Amounts(L), Payer(L), c)) - (if L.lines[l].customer == c then Collected(L, l) else 0)
  {
    SumSplit(OwnedBy(Amounts(L), Payer(L), c), PaymentsOn(L, l));
    PaidOnLine(L, l, c);
    DropLineViews(L, l);
    OwnedByRemove(Amounts(L), Payer(L), c, PaymentsOn(L, l));
  }

  lemma PutBorrowingViews(L: Ledger, b: Id, row: Borrowing, k: Kind)
    ensures Borrower(PutBorrowing(L, b, row)) == Borrower(L)[b := row.customer]
    ensures OutOfKind(PutBorrowing(L, b, row), k)
         == OutOfKind(L, k)[b := if row.kind == k then row.Outstanding() else 0]
  {
  }

  lemma DropBorrowingViews(L: Ledger, b: Id, k: Kind)
    ensures Borrower(L.(borrowings := L.borrowings - {b})) == Borrower(L) - {b}
    ensures OutOfKind(L.(borrowings := L.borrowings - {b}), k) == OutOfKind(L, k) - {b}
  {
  }

  lemma PutBorrowingSums(L: Ledger, b: Id, row: Borrowing, c: Id, l: Id, k: Kind)
    requires b in L.borrowings ==> L.borrowings[b].customer == row.customer && L.borrowings[b].kind == row.kind
    ensures var R := PutBorrowing(L, b, row);
      var was := if b in L.borrowings then L.borrowings[b].Outstanding() else 0;
      && Owed(R, c) == Owed(L, c) && UnitsPaid(R, l) == UnitsPaid(L, l)
      && Out(R, c, k) == Out(L, c, k) + (if row.customer == c && row.kind == k then row.Outstanding() - was else 0)
  {
    var R := PutBorrowing(L, b, row);
    SameCredit(L, R, c, l);
    PutBorrowingViews(L, b, row, k);
    OwnedByPut(OutOfKind(L, k), Borrower(L), c, b, if row.kind == k then row.Outstanding() else 0, row.customer);
  }

  lemma DropBorrowingSums(L: Ledger, b: Id, c: Id, l: Id, k: Kind)
    requires b in L.borrowings
    ensures var R, row := L.(borrowings := L.borrowings - {b}), L.borrowings[b];
      && Owed(R, c) == Owed(L, c) && UnitsPaid(R, l) == UnitsPaid(L, l)
      && Out(R, c, k) == Out(L, c, k) - (if row.customer == c && row.kind == k then row.Outstanding() else 0)
  {
    var R := L.(borrowings := L.borrowings - {b});
    SameCredit(L, R, c, l);
    DropBorrowingViews(L, b, k);
    OwnedByDrop(OutOfKind(L, k), Borrower(L), c, b);
  }

  lemma CountersNonNegative(L: Ledger, c: Id, k: Kind)
    requires Inv(L) && c in L.customers
    ensures 0 <= L.customers[c].Counter(k)
    ensures forall b :: b in L.borrowings && L.borrowings[b].customer == c && L.borrowings[b].kind == k
                        ==> L.borrowings[b].Outstanding() <= L.customers[c].Counter(k)
  {
    var m := OwnedBy(OutOfKind(L, k), Borrower(L), c);
    SumNonNegative(m);
    forall b | b in L.borrowings && L.borrowings[b].customer == c && L.borrowings[b].kind == k
      ensures L.borrowings[b].Outstanding() <= L.customers[c].Counter(k)
    {
      assert b in m;
    }
  }

  /** A payment's units and money are part of what its line has been paid. */
  lemma PaymentWithinLine(L: Ledger, p: Id)
    requires RowsOk(L) && p in L.payments
    ensures 0 <= L.payments[p].containers <= UnitsPaid(L, L.payments[p].line)
    ensures 0 <= L.payments[p].amount <= Collected(L, L.payments[p].line)
  {
    var l := L.payments[p].line;
    SumNonNegative(OwnedBy(Units(L), LineOf(L), l));
    assert OwnedBy(Units(L), LineOf(L), l)[p] == L.payments[p].containers;
    SumNonNegative(OwnedBy(Amounts(L), LineOf(L), l));
    assert OwnedBy(Amounts(L), LineOf(L), l)[p] == L.payments[p].amount;
  }

  lemma NoPaymentsYet(L: Ledger, l: Id)
    requires LinesExist(L) && l !in L.lines
    ensures UnitsPaid(L, l) == 0 && Collected(L, l) == 0
  {
    SumZero(OwnedBy(Units(L), LineOf(L), l));
    SumZero(OwnedBy(Amounts(L), LineOf(L), l));
  }

  // ---- Row validity ------------------------------------------------------------------------------

  lemma PutCustomerRows(L: Ledger, c: Id, row: Customer)
    requires RowsOk(L) && 0 <= row.debt && 0 <= row.limit
    requires c in L.customers ==> row.company == L.customers[c].company
    ensures RowsOk(PutCustomer(L, c, row))
  {
  }

  lemma PutLineRows(L: Ledger, l: Id, row: CreditLine)
    requires RowsOk(L) && LineOk(L, row)
    requires l in L.lines ==> row.company == L.lines[l].company
    ensures RowsOk(PutLine(L, l, row)) && LinesExist(L)
  {
  }

  lemma PutPaymentRows(L: Ledger, p: Id, pay: Payment)
    requires RowsOk(L) && PaymentOk(L, pay)
    ensures RowsOk(PutPayment(L, p, pay)) && LinesExist(L)
  {
  }

  lemma PutBorrowingRows(L: Ledger, b: Id, row: Borrowing)
    requires RowsOk(L) && BorrowingOk(L, row)
    ensures RowsOk(PutBorrowing(L, b, row))
  {
  }

  // ---- The invariant with slack: where a service stands between two of its updates ----------------

  /** How far stored aggregates lag behind the rows: `debt` for customer `d`, `count` for the
      customer's containers of kind `k`, `units` for line `l`. */
  datatype Slack = Slack(d: Id, debt: int, k: Kind, count: int, l: Id, units: int)

  ghost predicate NearAt(L: Ledger, s: Slack, c: Id, k: Kind, l: Id) {
    && (c in L.customers ==> L.customers[c].debt + (if c == s.d then s.debt else 0) == Owed(L, c))
    && (c in L.customers ==>
          L.customers[c].Counter(k) + (if c == s.d && k == s.k then s.count else 0) == Out(L, c, k))
    && (l in L.lines ==>
          L.lines[l].remaining + (if l == s.l then s.units else 0) == L.lines[l].credited - UnitsPaid(L, l))
  }

  ghost predicate Near(L: Ledger, s: Slack) {
    LinesExist(L) && forall c, k, l :: NearAt(L, s, c, k, l)
  }

  lemma NearFromInv(L: Ledger, s: Slack)
    requires Inv(L) && s.debt == s.count == s.units == 0
    ensures Near(L, s)
  {
    forall c, k, l ensures NearAt(L, s, c, k, l) {
      assert c in L.customers ==> CustomerBalanced(L, c);
      assert l in L.lines ==> LineBalanced(L, l);
    }
  }

  lemma InvFromNear(L: Ledger, s: Slack)
    requires RowsOk(L) && Near(L, s) && s.debt == s.count == s.units == 0
    ensures Inv(L)
  {
    forall c | c in L.customers ensures CustomerBalanced(L, c) {
      forall k ensures L.customers[c].Counter(k) == Out(L, c, k) { assert NearAt(L, s, c, k, 0); }
      assert NearAt(L, s, c, Round, 0);
    }
    forall l | l in L.lines ensures LineBalanced(L, l) {
      assert NearAt(L, s, 0, Round, l);
    }
  }

  lemma NearPutLine(L: Ledger, s: Slack, row: CreditLine)
    requires Near(L, s) && row.customer == s.d && (s.l in L.lines ==> L.lines[s.l].customer == s.d)
    ensures var was := if s.l in L.lines then L.lines[s.l] else row.(total := 0, credited := s.units, remaining := 0);
      Near(PutLine(L, s.l, row),
           s.(debt := s.debt + row.total - was.total,
              units := s.units + (row.credited - row.remaining) - (was.credited - was.remaining)))
  {
    var R := PutLine(L, s.l, row);
    var was := if s.l in L.lines then L.lines[s.l] else row.(total := 0, credited := s.units, remaining := 0);
    var t := s.(debt := s.debt + row.total - was.total,
                units := s.units + (row.credited - row.remaining) - (was.credited - was.remaining));
    if s.l !in L.lines { NoPaymentsYet(L, s.l); }
    forall c, k, l ensures NearAt(R, t, c, k, l) {
      assert NearAt(L, s, c, k, l);
      PutLineSums(L, s.l, row, c, l, k);
    }
  }

  lemma NearPutPayment(L: Ledger, s: Slack, p: Id, pay: Payment)
    requires Near(L, s) && pay.line == s.l && s.l in L.lines && L.lines[s.l].customer == s.d
    requires p in L.payments ==> L.payments[p].line == s.l
    ensures Near(PutPayment(L, p, pay), s.(debt := s.debt - pay.amount + At(Amounts(L), p),
                                           units := s.units - pay.containers + At(Units(L), p)))
  {
    var t := s.(debt := s.debt - pay.amount + At(Amounts(L), p), units := s.units - pay.containers + At(Units(L), p));
    forall c, k, l ensures NearAt(PutPayment(L, p, pay), t, c, k, l) {
      assert NearAt(L, s, c, k, l);
      PutPaymentSums(L, p, pay, c, l, k);
    }
  }

  lemma NearDropPayment(L: Ledger, s: Slack, p: Id)
    requires Near(L, s) && p in L.payments && L.payments[p].line == s.l && L.lines[s.l].customer == s.d
    ensures Near(L.(payments := L.payments - {p}),
                 s.(debt := s.debt + L.payments[p].amount, units := s.units + L.payments[p].containers))
  {
    var R, pay := L.(payments := L.payments - {p}), L.payments[p];
    var t := s.(debt := s.debt + pay.amount, units := s.units + pay.containers);
    forall c, k, l ensures NearAt(R, t, c, k, l) {
      assert NearAt(L, s, c, k, l);
      DropPaymentSums(L, p, c, l, k);
    }
  }

  lemma NearDropLine(L: Ledger, s: Slack)
    requires Near(L, s) && s.l in L.lines && L.lines[s.l].customer == s.d
    ensures Near(WithoutLine(L, s.l), s.(debt := s.debt - (L.lines[s.l].total - Collected(L, s.l)), units := 0))
  {
    var t := s.(debt := s.debt - (L.lines[s.l].total - Collected(L, s.l)), units := 0);
    forall c, k, l ensures NearAt(WithoutLine(L, s.l), t, c, k, l) {
      assert NearAt(L, s, c, k, l);
      DropLineSums(L, s.l, c, l, k);
    }
  }

  lemma NearPutBorrowing(L: Ledger, s: Slack, b: Id, row: Borrowing)
    requires Near(L, s) && row.customer == s.d && row.kind == s.k
    requires b in L.borrowings ==> L.borrowings[b].customer == s.d && L.borrowings[b].kind == s.k
    ensures var was := if b in L.borrowings then L.borrowings[b].Outstanding() else 0;
      Near(PutBorrowing(L, b, row), s.(count := s.count + row.Outstanding() - was))
  {
    var was := if b in L.borrowings then L.borrowings[b].Outstanding() else 0;
    var t := s.(count := s.count + row.Outstanding() - was);
    forall c, k, l ensures NearAt(PutBorrowing(L, b, row), t, c, k, l) {
      assert NearAt(L, s, c, k, l);
      PutBorrowingSums(L, b, row, c, l, k);
    }
  }

  lemma NearDropBorrowing(L: Ledger, s: Slack, b: Id)
    requires Near(L, s) && b in L.borrowings && L.borrowings[b].customer == s.d && L.borrowings[b].kind == s.k
    ensures Near(L.(borrowings := L.borrowings - {b}), s.(count := s.count - L.borrowings[b].Outstanding()))
  {
    var t := s.(count := s.count - L.borrowings[b].Outstanding());
    forall c, k, l ensures NearAt(L.(borrowings := L.borrowings - {b}), t, c, k, l) {
      assert NearAt(L, s, c, k, l);
      DropBorrowingSums(L, b, c, l, k);
    }
  }

  /** Updating the customer row takes up part of the slack. */
  lemma NearPutCustomer(L: Ledger, s: Slack, cust: Customer, debt: int, count: int)
    requires Near(L, s) && s.d in L.customers
    requires cust.debt == L.customers[s.d].debt + debt
    requires forall k :: cust.Counter(k) == L.customers[s.d].Counter(k) + (if k == s.k then count else 0)
    ensures Near(PutCustomer(L, s.d, cust), s.(debt := s.debt - debt, count := s.count - count))
  {
    var t := s.(debt := s.debt - debt, count := s.count - count);
    forall c, k, l ensures NearAt(PutCustomer(L, s.d, cust), t, c, k, l) {
      assert NearAt(L, s, c, k, l);
      PutCustomerSums(L, s.d, cust, c, l, k);
    }
  }

  /** Once the customer row takes up the slack, the invariant holds again. */
  lemma Settle(L: Ledger, s: Slack, cust: Customer)
    requires RowsOk(L) && Near(L, s) && s.d in L.customers && s.units == 0
    requires cust.company == L.customers[s.d].company && 0 <= cust.limit
    requires 0 <= cust.debt == L.customers[s.d].debt + s.debt
    requires forall k :: cust.Counter(k) == L.customers[s.d].Counter(k) + (if k == s.k then s.count else 0)
    ensures Inv(PutCustomer(L, s.d, cust))
  {
    NearPutCustomer(L, s, cust, s.debt, s.count);
    PutCustomerRows(L, s.d, cust);
    InvFromNear(PutCustomer(L, s.d, cust), s.(debt := 0, count := 0));
  }

  lemma SettleDebt(L: Ledger, s: Slack)
    requires RowsOk(L) && Near(L, s) && s.d in L.customers && s.units == s.count == 0
    requires 0 <= L.customers[s.d].debt + s.debt
    ensures Inv(AddDebt(L, s.d, s.debt))
  {
    var cust := L.customers[s.d].(debt := L.customers[s.d].debt + s.debt);
    assert AddDebt(L, s.d, s.debt) == PutCustomer(L, s.d, cust);
    assert 0 <= cust.limit;
    Settle(L, s, cust);
  }

  lemma SettleCount(L: Ledger, s: Slack)
    requires RowsOk(L) && Near(L, s) && s.d in L.customers && s.units == s.debt == 0
    ensures Inv(AddCount(L, s.d, s.k, s.count))
  {
    var cust := L.customers[s.d].AddToCounter(s.k, s.count);
    assert AddCount(L, s.d, s.k, s.count) == PutCustomer(L, s.d, cust);
    assert 0 <= cust.limit && 0 <= cust.debt;
    Settle(L, s, cust);
  }

  // ---- The services keep the invariant ---------------------------------------------------------

  lemma ExtendKeepsInv(L: Ledger, id: Id, row: CreditLine, start: int)
    requires Inv(L)
    requires row.customer in L.customers ==> LineOk(L, row) && row.remaining == row.credited
    ensures Extend(L, id, row, start).Ok? ==> Inv(Extend(L, id, row, start).value)
  {
    hide Owed, UnitsPaid, Out, Collected;
    if Extend(L, id, row, start).Ok? {
      var s := Slack(row.customer, 0, Round, 0, id, 0);
      NearFromInv(L, s);
      NearPutLine(L, s, row);
      PutLineRows(L, id, row);
      var M := PutLine(L, id, row);
      var cust := L.customers[row.customer].(debt := L.customers[row.customer].debt + row.total,
                                             lastCredit := Later(L.customers[row.customer].lastCredit, start));
      assert Extend(L, id, row, start).value == PutCustomer(M, row.customer, cust);
      Settle(M, s.(debt := row.total), cust);
    }
  }

  lemma LendKeepsInv(L: Ledger, id: Id, row: Borrowing)
    requires Inv(L)
    requires row.customer in L.customers ==> BorrowingOk(L, row) && row.returned == 0
    ensures Lend(L, id, row).Ok? ==> Inv(Lend(L, id, row).value)
  {
    hide Owed, UnitsPaid, Out, Collected;
    if Lend(L, id, row).Ok? {
      var s := Slack(row.customer, 0, row.kind, 0, 0, 0);
      NearFromInv(L, s);
      NearPutBorrowing(L, s, id, row);
      PutBorrowingRows(L, id, row);
      var M := PutBorrowing(L, id, row);
      assert Lend(L, id, row).value == AddCount(M, row.customer, row.kind, row.borrowed);
      SettleCount(M, s.(count := row.borrowed));
    }
  }

  lemma EditLineKeepsInv(L: Ledger, l: Id, qty: int, price: int, careOf: Option<Id>, date: int)
    requires Inv(L) && 0 < qty && 0 < price
    ensures var r := EditLine(L, l, qty, price, careOf, date); r.Ok? ==> Inv(r.value)
  {
    hide Owed, UnitsPaid, Out, Collected;
    if EditLine(L, l, qty, price, careOf, date).Ok? {
      var row, total := L.lines[l], qty * price;
      var edited := row.(credited := qty, remaining := qty - (row.credited - row.remaining), price := price,
                         total := total, careOf := careOf, date := date);
      var s := Slack(row.customer, 0, Round, 0, l, 0);
      NearFromInv(L, s);
      NearPutLine(L, s, edited);
      assert LineOk(L, row) && 0 <= total;
      PutLineRows(L, l, edited);
      var M := PutLine(L, l, edited);
      assert EditLine(L, l, qty, price, careOf, date).value == AddDebt(M, row.customer, total - row.total);
      SettleDebt(M, s.(debt := total - row.total));
    }
  }

  lemma EditPaymentKeepsInv(L: Ledger, p: Id, units: int, amount: int, at: int)
    requires Inv(L) && 0 <= units && 0 <= amount
    ensures var r := EditPayment(L, p, units, amount, at); r.Ok? ==> Inv(r.value)
  {
    hide Owed, UnitsPaid, Out, Collected;
    if EditPayment(L, p, units, amount, at).Ok? {
      var pay := L.payments[p];
      var row := L.lines[pay.line];
      var paid := pay.(containers := units, amount := amount, paidAt := Some(at));
      var edited := row.(remaining := row.remaining - (units - pay.containers));
      var M := PutPayment(L, p, paid);
      var s := Slack(row.customer, 0, Round, 0, pay.line, 0);
      NearFromInv(L, s);
      NearPutPayment(L, s, p, paid);
      NearPutLine(M, s.(debt := pay.amount - amount, units := pay.containers - units), edited);
      EditPaymentRows(L, p, paid, edited);
      var N := PutLine(M, pay.line, edited);
      assert EditPayment(L, p, units, amount, at).value == AddDebt(N, row.customer, pay.amount - amount);
      SettleDebt(N, s.(debt := pay.amount - amount));
    }
  }

  /** The guard against paying more than was credited cannot fire: the other payments on
      the line already account for the rest of it. */
  lemma EditPaymentRows(L: Ledger, p: Id, paid: Payment, edited: CreditLine)
    requires Inv(L) && p in L.payments && PaymentOk(L, paid) && paid.line == L.payments[p].line
    requires var row := L.lines[paid.line];
      edited == row.(remaining := row.remaining - (paid.containers - L.payments[p].containers))
    requires 0 <= edited.remaining
    ensures edited.remaining <= edited.credited
    ensures RowsOk(PutLine(PutPayment(L, p, paid), paid.line, edited))
  {
    hide Owed, UnitsPaid, Out, Collected;
    assert LineOk(L, L.lines[paid.line]) && LineBalanced(L, paid.line);
    PaymentWithinLine(L, p);
    PutPaymentRows(L, p, paid);
    PutLineRows(PutPayment(L, p, paid), paid.line, edited);
  }

  lemma EditBorrowingKeepsInv(L: Ledger, b: Id, borrowed: int, returned: int, date: int)
    requires Inv(L) && 0 < borrowed && 0 <= returned <= borrowed
    ensures var r := EditBorrowing(L, b, borrowed, returned, date); r.Ok? ==> Inv(r.value)
  {
    hide Owed, UnitsPaid, Out, Collected;
    if EditBorrowing(L, b, borrowed, returned, date).Ok? {
      var row := L.borrowings[b];
      var edited := row.(borrowed := borrowed, returned := returned, date := date);
      var s := Slack(row.customer, 0, row.kind, 0, 0, 0);
      NearFromInv(L, s);
      NearPutBorrowing(L, s, b, edited);
      PutBorrowingRows(L, b, edited);
      var M, n := PutBorrowing(L, b, edited), borrowed - returned - row.Outstanding();
      assert EditBorrowing(L, b, borrowed, returned, date).value == AddCount(M, row.customer, row.kind, n);
      SettleCount(M, s.(count := n));
    }
  }

  lemma DeleteLineKeepsInv(L: Ledger, l: Id)
    requires Inv(L)
    ensures DeleteLine(L, l).Ok? ==> Inv(DeleteLine(L, l).value)
  {
    hide Owed, UnitsPaid, Out, Collected;
    if DeleteLine(L, l).Ok? {
      var row := L.lines[l];
      var s := Slack(row.customer, 0, Round, 0, l, 0);
      NearFromInv(L, s);
      NearDropLine(L, s);
      DropLineRows(L, l);
      var n := Collected(L, l) - row.total;
      assert DeleteLine(L, l).value == AddDebt(WithoutLine(L, l), row.customer, n);
      SettleDebt(WithoutLine(L, l), s.(debt := n));
    }
  }

  lemma DropLineRows(L: Ledger, l: Id)
    requires RowsOk(L)
    ensures RowsOk(WithoutLine(L, l))
  {
    hide Owed, UnitsPaid, Out, Collected;
  }

  lemma DeletePaymentKeepsInv(L: Ledger, p: Id)
    requires Inv(L)
    ensures DeletePayment(L, p).Ok? ==> Inv(DeletePayment(L, p).value)
  {
    hide Owed, UnitsPaid, Out, Collected;
    if DeletePayment(L, p).Ok? {
      var pay := L.payments[p];
      var row := L.lines[pay.line];
      var edited := row.(remaining := row.remaining + pay.containers);
      var M := L.(payments := L.payments - {p});
      var s := Slack(row.customer, 0, Round, 0, pay.line, 0);
      NearFromInv(L, s);
      NearDropPayment(L, s, p);
      NearPutLine(M, s.(debt := pay.amount, units := pay.containers), edited);
      RestoredUnitsFit(L, p);
      DeletePaymentRows(L, p);
      var N := PutLine(M, pay.line, edited);
      assert DeletePayment(L, p).value == AddDebt(N, row.customer, pay.amount);
      SettleDebt(N, s.(debt := pay.amount));
    }
  }

  /** Giving a deleted payment's units back to its line cannot exceed what was credited. */
  lemma RestoredUnitsFit(L: Ledger, p: Id)
    requires Inv(L) && p in L.payments
    ensures var pay := L.payments[p];
      pay.line in L.lines && 0 <= pay.containers && L.lines[pay.line].remaining + pay.containers <= L.lines[pay.line].credited
  {
    hide Owed, UnitsPaid, Out, Collected;
    assert PaymentOk(L, L.payments[p]);
    PaymentWithinLine(L, p);
    assert LineBalanced(L, L.payments[p].line);
  }

  lemma DeletePaymentRows(L: Ledger, p: Id)
    requires RowsOk(L) && p in L.payments
    requires var pay := L.payments[p];
      0 <= L.lines[pay.line].remaining + pay.containers <= L.lines[pay.line].credited
    ensures var pay := L.payments[p];
      var row := L.lines[pay.line];
      RowsOk(PutLine(L.(payments := L.payments - {p}), pay.line, row.(remaining := row.remaining + pay.containers)))
  {
    var pay := L.payments[p];
    var M := L.(payments := L.payments - {p});
    assert RowsOk(M);
    PutLineRows(M, pay.line, L.lines[pay.line].(remaining := L.lines[pay.line].remaining + pay.containers));
  }

  lemma DeleteBorrowingKeepsInv(L: Ledger, b: Id)
    requires Inv(L)
    ensures DeleteBorrowing(L, b).Ok? ==> Inv(DeleteBorrowing(L, b).value)
  {
    hide Owed, UnitsPaid, Out, Collected;
    if DeleteBorrowing(L, b).Ok? {
      var row := L.borrowings[b];
      var s := Slack(row.customer, 0, row.kind, 0, 0, 0);
      NearFromInv(L, s);
      NearDropBorrowing(L, s, b);
      var M := L.(borrowings := L.borrowings - {b});
      assert RowsOk(M);
      assert DeleteBorrowing(L, b).value == AddCount(M, row.customer, row.kind, -row.Outstanding());
      SettleCount(M, s.(count := -row.Outstanding()));
    }
  }

  // ---- Batch collection ------------------------------------------------------------------------

  lemma ReturnOneKeepsInv(L: Ledger, co: Id, c: Id, r: ReturnEntry)
    requires Inv(L) && c in L.customers && ReturnFits(L, co, c, r) && 0 <= r.qty
    ensures Inv(ReturnOne(L, c, r))
  {
    hide Owed, UnitsPaid, Out, Collected;
    var row := L.borrowings[r.borrowing];
    var edited := row.(returned := row.returned + r.qty, returnedAt := Some(r.at));
    var s := Slack(c, 0, row.kind, 0, 0, 0);
    NearFromInv(L, s);
    NearPutBorrowing(L, s, r.borrowing, edited);
    assert BorrowingOk(L, row);
    PutBorrowingRows(L, r.borrowing, edited);
    var M := PutBorrowing(L, r.borrowing, edited);
    assert ReturnOne(L, c, r) == AddCount(M, c, row.kind, -r.qty);
    SettleCount(M, s.(count := -r.qty));
  }

  ghost predicate NonNegative(rs: seq<ReturnEntry>, es: seq<PayEntry>) {
    && (forall i :: 0 <= i < |rs| ==> 0 <= rs[i].qty)
    && (forall i :: 0 <= i < |es| ==> 0 <= es[i].units && 0 <= es[i].amount)
  }

  ghost predicate ReturnsFit(L: Ledger, co: Id, c: Id, rs: seq<ReturnEntry>) {
    && c in L.customers && NonNegative(rs, [])
    && (forall i :: 0 <= i < |rs| ==> ReturnFits(L, co, c, rs[i]))
    && (forall b :: b in L.borrowings ==> Returned(rs, b) <= L.borrowings[b].Outstanding())
  }

  lemma ReturnsFitPrefix(L: Ledger, co: Id, c: Id, rs: seq<ReturnEntry>)
    requires ReturnsFit(L, co, c, rs) && rs != []
    ensures ReturnsFit(L, co, c, rs[..|rs| - 1])
  {
    var last := rs[|rs| - 1];
    forall b | b in L.borrowings ensures Returned(rs[..|rs| - 1], b) <= L.borrowings[b].Outstanding() {
      assert Returned(rs, b) == Returned(rs[..|rs| - 1], b) + (if last.borrowing == b then last.qty else 0);
    }
  }

  /** A borrowing to which `n` containers came back. */
  predicate GotBack(was: Borrowing, now: Borrowing, n: int) {
    now == was.(returned := was.returned + n, returnedAt := now.returnedAt)
  }

  /** Only the counters differ. */
  predicate CountersMoved(was: Customer, now: Customer) {
    now == was.(round := now.round, slim := now.slim, other := now.other)
  }

  lemma ReturnOneRows(M: Ledger, c: Id, r: ReturnEntry)
    requires c in M.customers && r.borrowing in M.borrowings
    ensures var R := ReturnOne(M, c, r);
      && (forall b :: b in M.borrowings ==> GotBack(M.borrowings[b], R.borrowings[b], if b == r.borrowing then r.qty else 0))
      && (forall d :: d in M.customers ==> CountersMoved(M.customers[d], R.customers[d]))
  {
  }

  /** A batch adds to each borrowing exactly what its entries return there, in any number of entries. */
  lemma {:induction false} ApplyReturnsRows(L: Ledger, co: Id, c: Id, rs: seq<ReturnEntry>)
    requires ReturnsFit(L, co, c, rs)
    ensures forall b :: b in L.borrowings ==> GotBack(L.borrowings[b], ApplyReturns(L, c, rs).borrowings[b], Returned(rs, b))
    ensures forall d :: d in L.customers ==> CountersMoved(L.customers[d], ApplyReturns(L, c, rs).customers[d])
  {
    if rs != [] {
      var init, r := rs[..|rs| - 1], rs[|rs| - 1];
      ReturnsFitPrefix(L, co, c, rs);
      ApplyReturnsRows(L, co, c, init);
      assert ReturnFits(L, co, c, r) && ApplyReturns(L, c, rs) == ReturnOne(ApplyReturns(L, c, init), c, r);
      ReturnOneRows(ApplyReturns(L, c, init), c, r);
      assert forall b :: Returned(rs, b) == Returned(init, b) + (if r.borrowing == b then r.qty else 0);
      hide ApplyReturns, ReturnOne, Returned, ReturnsFit, ReturnFits;
    }
  }

  lemma {:induction false} ApplyReturnsKeepsInv(L: Ledger, co: Id, c: Id, rs: seq<ReturnEntry>)
    requires Inv(L) && ReturnsFit(L, co, c, rs)
    ensures Inv(ApplyReturns(L, c, rs))
  {
    hide Owed, UnitsPaid, Out, Collected;
    if rs != [] {
      var init, last := rs[..|rs| - 1], rs[|rs| - 1];
      ReturnsFitPrefix(L, co, c, rs);
      ApplyReturnsRows(L, co, c, init);
      ApplyReturnsKeepsInv(L, co, c, init);
      assert Returned(rs, last.borrowing) == Returned(init, last.borrowing) + last.qty;
      assert ReturnFits(L, co, c, last);
      ReturnOneKeepsInv(ApplyReturns(L, c, init), co, c, last);
    }
  }

  ghost predicate PaymentsFit(L: Ledger, co: Id, c: Id, es: seq<PayEntry>) {
    && c in L.customers && NonNegative([], es) && FreshKeys(L, es)
    && (forall i :: 0 <= i < |es| ==> PaymentFits(L, co, c, es[i]))
    && (forall l :: l in L.lines ==> Paid(es, l) <= L.lines[l].remaining)
  }

  lemma PaymentsFitPrefix(L: Ledger, co: Id, c: Id, es: seq<PayEntry>)
    requires PaymentsFit(L, co, c, es) && es != []
    ensures PaymentsFit(L, co, c, es[..|es| - 1])
  {
    var last := es[|es| - 1];
    forall l | l in L.lines ensures Paid(es[..|es| - 1], l) <= L.lines[l].remaining {
      assert Paid(es, l) == Paid(es[..|es| - 1], l) + (if last.line == l then last.units else 0);
    }
  }

  /** The payment rows a batch inserts. */
  function NewPayments(company: Id, now: int, es: seq<PayEntry>): map<Id, Payment> {
    if es == [] then map[] else
    NewPayments(company, now, es[..|es| - 1])[es[|es| - 1].id := PaymentRow(company, now, es[|es| - 1])]
  }

  /** One row per entry, holding what the entry says. */
  lemma {:induction false} NewPaymentsRows(company: Id, now: int, es: seq<PayEntry>)
    requires forall i, j :: 0 <= i < j < |es| ==> es[i].id != es[j].id
    ensures var m := NewPayments(company, now, es);
      && (forall i :: 0 <= i < |es| ==> es[i].id in m && m[es[i].id] == PaymentRow(company, now, es[i]))
      && (forall p :: p in m ==> exists i :: 0 <= i < |es| && es[i].id == p)
  {
    if es != [] {
      NewPaymentsRows(company, now, es[..|es| - 1]);
    }
  }

  /** A batch takes off each line exactly what its entries pay there. */
  lemma {:induction false} ApplyPaymentsLines(L: Ledger, co: Id, now: int, c: Id, es: seq<PayEntry>)
    requires PaymentsFit(L, co, c, es)
    ensures var R := ApplyPayments(L, co, now, es);
      forall l :: l in L.lines ==> R.lines[l] == L.lines[l].(remaining := L.lines[l].remaining - Paid(es, l))
  {
    if es != [] {
      PaymentsFitPrefix(L, co, c, es);
      ApplyPaymentsLines(L, co, now, c, es[..|es| - 1]);
    }
  }

  lemma {:induction false} ApplyPaymentsInserts(L: Ledger, co: Id, now: int, es: seq<PayEntry>)
    requires forall i :: 0 <= i < |es| ==> es[i].line in L.lines
    ensures ApplyPayments(L, co, now, es).payments == L.payments + NewPayments(co, now, es)
  {
    if es != [] {
      ApplyPaymentsInserts(L, co, now, es[..|es| - 1]);
    }
  }

  lemma NextEntryFits(L: Ledger, co: Id, now: int, c: Id, es: seq<PayEntry>)
    requires PaymentsFit(L, co, c, es) && es != []
    ensures var M, last := ApplyPayments(L, co, now, es[..|es| - 1]), es[|es| - 1];
      && last.id !in M.payments && PaymentFits(M, co, c, last)
  {
    var init, last := es[..|es| - 1], es[|es| - 1];
    PaymentsFitPrefix(L, co, c, es);
    ApplyPaymentsLines(L, co, now, c, init);
    ApplyPaymentsInserts(L, co, now, init);
    NewPaymentsRows(co, now, init);
    assert PaymentFits(L, co, c, last);
    assert Paid(es, last.line) == Paid(init, last.line) + last.units;
  }

  lemma {:induction false} ApplyPaymentsNear(L: Ledger, co: Id, now: int, c: Id, es: seq<PayEntry>)
    requires RowsOk(L) && Near(L, Slack(c, 0, Round, 0, 0, 0)) && PaymentsFit(L, co, c, es)
    ensures RowsOk(ApplyPayments(L, co, now, es))
    ensures Near(ApplyPayments(L, co, now, es), Slack(c, -TotalCollected(es), Round, 0, 0, 0))
  {
    hide Near, RowsOk;
    if es == [] {
      assert ApplyPayments(L, co, now, es) == L && -TotalCollected(es) == 0;
    } else {
      var init, last := es[..|es| - 1], es[|es| - 1];
      assert PaymentFits(L, co, c, last);
      PaymentsFitPrefix(L, co, c, es);
      ApplyPaymentsNear(L, co, now, c, init);
      NextEntryFits(L, co, now, c, es);
      PayOneNear(ApplyPayments(L, co, now, init), co, now, c, -TotalCollected(init), -TotalCollected(es), last);
    }
  }

  lemma PayOneNear(M: Ledger, co: Id, now: int, c: Id, debt: int, after: int, e: PayEntry)
    requires after == debt - e.amount
    requires RowsOk(M) && Near(M, Slack(c, debt, Round, 0, 0, 0)) && e.id !in M.payments
    requires PaymentFits(M, co, c, e) && 0 <= e.units && 0 <= e.amount
    ensures RowsOk(PayOne(M, co, now, e)) && Near(PayOne(M, co, now, e), Slack(c, after, Round, 0, 0, 0))
  {
    hide Owed, UnitsPaid, Out, Collected;
    var s := Slack(c, debt, Round, 0, e.line, 0);
    NearMoved(M, s.(l := 0), e.line);
    var pay := PaymentRow(co, now, e);
    var row := M.lines[e.line];
    NearPutPayment(M, s, e.id, pay);
    PutPaymentRows(M, e.id, pay);
    var N := PutPayment(M, e.id, pay);
    var t := s.(debt := after, units := -e.units);
    assert Near(N, t);
    var edited := row.(remaining := row.remaining - e.units);
    NearPutLine(N, t, edited);
    assert LineOk(M, row) && LineOk(N, edited);
    PutLineRows(N, e.line, edited);
    NearMoved(PutLine(N, e.line, edited), t.(units := 0), 0);
  }

  lemma NearMoved(L: Ledger, s: Slack, l: Id)
    requires Near(L, s) && s.units == 0
    ensures Near(L, s.(l := l))
  {
    hide Owed, UnitsPaid, Out, Collected;
    forall c, k, j ensures NearAt(L, s.(l := l), c, k, j) {
      assert NearAt(L, s, c, k, j);
    }
  }

  lemma PaymentsStillFit(L: Ledger, co: Id, c: Id, rs: seq<ReturnEntry>, es: seq<PayEntry>)
    requires ReturnsFit(L, co, c, rs) && PaymentsFit(L, co, c, es)
    ensures PaymentsFit(ApplyReturns(L, c, rs), co, c, es)
  {
    forall i | 0 <= i < |es| ensures PaymentFits(ApplyReturns(L, c, rs), co, c, es[i]) { assert PaymentFits(L, co, c, es[i]); }
  }

  lemma BatchFitsTogether(L: Ledger, co: Id, c: Id, now: int, rs: seq<ReturnEntry>, es: seq<PayEntry>)
    requires NonNegative(rs, es) && Collect(L, co, c, now, rs, es).Ok?
    ensures ReturnsFit(L, co, c, rs) && PaymentsFit(L, co, c, es) && TotalCollected(es) <= L.customers[c].debt
  {
    hide ApplyReturns, ApplyPayments, TotalCollected, ReturnFits, PaymentFits, FreshKeys, Returned, Paid;
  }

  lemma CollectParts(L: Ledger, co: Id, c: Id, now: int, rs: seq<ReturnEntry>, es: seq<PayEntry>)
    requires Collect(L, co, c, now, rs, es).Ok? && ReturnsFit(L, co, c, rs) && PaymentsFit(L, co, c, es)
    ensures forall i :: 0 <= i < |rs| ==> rs[i].borrowing in L.borrowings
    ensures forall i :: 0 <= i < |es| ==> es[i].line in L.lines
    ensures Collect(L, co, c, now, rs, es).value
         == AddDebt(ApplyPayments(ApplyReturns(L, c, rs), co, now, es), c, -TotalCollected(es))
  {
    hide BatchFits, Recheck, ApplyReturns, ApplyPayments, FreshKeys, TotalCollected;
    forall i | 0 <= i < |rs| ensures rs[i].borrowing in L.borrowings { assert ReturnFits(L, co, c, rs[i]); }
    forall i | 0 <= i < |es| ensures es[i].line in L.lines { assert PaymentFits(L, co, c, es[i]); }
  }

  /** A batch that names the same line or borrowing several times keeps the invariant or is refused whole. */
  lemma CollectKeepsInv(L: Ledger, co: Id, c: Id, now: int, rs: seq<ReturnEntry>, es: seq<PayEntry>)
    requires Inv(L) && NonNegative(rs, es)
    ensures Collect(L, co, c, now, rs, es).Ok? ==> Inv(Collect(L, co, c, now, rs, es).value)
  {
    hide *;
    if Collect(L, co, c, now, rs, es).Ok? {
      BatchFitsTogether(L, co, c, now, rs, es);
      CollectParts(L, co, c, now, rs, es);
      ApplyBatchKeepsInv(L, co, c, now, rs, es);
    }
  }

  lemma ApplyBatchKeepsInv(L: Ledger, co: Id, c: Id, now: int, rs: seq<ReturnEntry>, es: seq<PayEntry>)
    requires Inv(L) && ReturnsFit(L, co, c, rs) && PaymentsFit(L, co, c, es) && TotalCollected(es) <= L.customers[c].debt
    ensures Inv(AddDebt(ApplyPayments(ApplyReturns(L, c, rs), co, now, es), c, -TotalCollected(es)))
  {
    hide Owed, UnitsPaid, Out, Collected;
    ApplyReturnsKeepsInv(L, co, c, rs);
    ApplyReturnsRows(L, co, c, rs);
    PaymentsStillFit(L, co, c, rs, es);
    ApplyPaymentsKeepsInv(ApplyReturns(L, c, rs), co, now, c, es);
  }

  lemma ApplyPaymentsKeepsInv(L: Ledger, co: Id, now: int, c: Id, es: seq<PayEntry>)
    requires Inv(L) && PaymentsFit(L, co, c, es) && TotalCollected(es) <= L.customers[c].debt
    ensures Inv(AddDebt(ApplyPayments(L, co, now, es), c, -TotalCollected(es)))
  {
    hide Owed, UnitsPaid, Out, Collected, ApplyPayments, TotalCollected, Near;
    NearFromInv(L, Slack(c, 0, Round, 0, 0, 0));
    assert RowsOk(L);
    hide RowsOk, Inv;
    ApplyPaymentsNear(L, co, now, c, es);
    SettleDebt(ApplyPayments(L, co, now, es), Slack(c, -TotalCollected(es), Round, 0, 0, 0));
  }

  // ---- Services that touch the customer row only -------------------------------------------------

  lemma PutCustomerKeepsInv(L: Ledger, c: Id, row: Customer)
    requires Inv(L) && c in L.customers && 0 <= row.limit
    requires var was := L.customers[c]; row == was.(limit := row.limit, lastCredit := row.lastCredit, deleted := row.deleted)
    ensures Inv(PutCustomer(L, c, row))
  {
    hide Owed, UnitsPaid, Out, Collected;
    NearFromInv(L, Slack(c, 0, Round, 0, 0, 0));
    Settle(L, Slack(c, 0, Round, 0, 0, 0), row);
  }

  lemma CreateCustomerKeepsInv(L: Ledger, id: Id, company: Id, limit: int)
    requires Inv(L)
    ensures CreateCustomer(L, id, company, limit).Ok? ==> Inv(CreateCustomer(L, id, company, limit).value)
  {
    hide Owed, UnitsPaid, Out, Collected;
    if CreateCustomer(L, id, company, limit).Ok? {
      var row := Customer(company, 0, limit, 0, 0, 0, None, false);
      var R, s := PutCustomer(L, id, row), Slack(id, 0, Round, 0, 0, 0);
      NearFromInv(L, s);
      PutCustomerRows(L, id, row);
      forall c, k, l ensures NearAt(R, s, c, k, l) {
        assert NearAt(L, s, c, k, l);
        PutCustomerSums(L, id, row, c, l, k);
        NoRowsYet(L, id, k);
      }
      InvFromNear(R, s);
    }
  }

  lemma NoRowsYet(L: Ledger, c: Id, k: Kind)
    requires RowsOk(L) && c !in L.customers
    ensures Owed(L, c) == 0 && Out(L, c, k) == 0
  {
    SumZero(OwnedBy(Totals(L), Debtor(L), c));
    SumZero(OwnedBy(Amounts(L), Payer(L), c));
    SumZero(OwnedBy(OutOfKind(L, k), Borrower(L), c));
  }

  // ---- All services, all runs -----------------------------------------------------------------------

  lemma LimitNonNegative(L: Ledger, c: Id)
    requires Inv(L) && c in L.customers
    ensures 0 <= L.customers[c].limit
  {
  }

  lemma ApplyKeepsInv(L: Ledger, op: Op)
    requires Inv(L) && ValidOp(op)
    ensures Apply(L, op).Ok? ==> Inv(Apply(L, op).value)
  {
    hide Inv, RowsOk;
    match op
    case ExtendOp(id, row, start) => if HasCustomer(L, row.company, row.customer) { ExtendKeepsInv(L, id, row, start); }
    case LendOp(id, row) => if HasCustomer(L, row.company, row.customer) { LendKeepsInv(L, id, row); }
    case CollectOp(co, c, now, rs, es) => CollectKeepsInv(L, co, c, now, rs, es);
    case EditLineOp(_, l, qty, price, careOf, date) => EditLineKeepsInv(L, l, qty, price, careOf, date);
    case EditPaymentOp(_, _, p, units, amount, at) => EditPaymentKeepsInv(L, p, units, amount, at);
    case EditBorrowingOp(_, b, borrowed, returned, date) => EditBorrowingKeepsInv(L, b, borrowed, returned, date);
    case DeleteLineOp(_, l) => DeleteLineKeepsInv(L, l);
    case DeletePaymentOp(_, _, p) => DeletePaymentKeepsInv(L, p);
    case DeleteBorrowingOp(_, b) => DeleteBorrowingKeepsInv(L, b);
    case SetLimitOp(c, limit) =>
      if SetLimit(L, c, limit).Ok? { PutCustomerKeepsInv(L, c, L.customers[c].(limit := limit)); }
    case MarkDeletedOp(c) =>
      if MarkDeleted(L, c).Ok? {
        LimitNonNegative(L, c);
        PutCustomerKeepsInv(L, c, L.customers[c].(deleted := true));
      }
    case CreateOp(id, co, limit) => CreateCustomerKeepsInv(L, id, co, limit);
  }

  lemma ApplyKeepsPrices(L: Ledger, op: Op)
    requires Priced(L) && ValidOp(op)
    ensures Apply(L, op).Ok? ==> Priced(Apply(L, op).value)
  {
    if op.CollectOp? && Apply(L, op).Ok? {
      ApplyPaymentsPrices(ApplyReturns(L, op.c, op.rs), op.co, op.now, op.es);
    }
  }

  lemma {:induction false} ApplyPaymentsPrices(L: Ledger, co: Id, now: int, es: seq<PayEntry>)
    requires Priced(L) && forall i :: 0 <= i < |es| ==> es[i].line in L.lines
    ensures Priced(ApplyPayments(L, co, now, es))
  {
    if es != [] {
      ApplyPaymentsPrices(L, co, now, es[..|es| - 1]);
    }
  }

  // ---- Guards that can never fire ---------------------------------------------------------------------

  /** Editing a payment never trips the guard against crediting back more than was credited, and deleting
      one always succeeds unless a remittance holds it. */
  lemma PaymentGuardsAreDead(L: Ledger, p: Id, units: int, amount: int, at: int)
    requires Inv(L) && p in L.payments && 0 <= units
    ensures EditPayment(L, p, units, amount, at) != Err(OverCredited)
    ensures DeletePayment(L, p).Ok? <==> L.payments[p].remittance.None?
  {
    hide Owed, UnitsPaid, Out, Collected;
    var pay := L.payments[p];
    assert PaymentOk(L, pay) && LineOk(L, L.lines[pay.line]);
    RestoredUnitsFit(L, p);
  }

  /** No edit or deletion of a borrowing can drive a counter negative, so those guards never fire. */
  lemma BorrowingGuardsAreDead(L: Ledger, b: Id, borrowed: int, returned: int, date: int)
    requires Inv(L) && b in L.borrowings && 0 < borrowed && 0 <= returned <= borrowed
    ensures EditBorrowing(L, b, borrowed, returned, date).Ok? && DeleteBorrowing(L, b).Ok?
  {
    hide Owed, UnitsPaid, Out, Collected;
    var row := L.borrowings[b];
    assert BorrowingOk(L, row);
    CountersNonNegative(L, row.customer, row.kind);
  }
}
