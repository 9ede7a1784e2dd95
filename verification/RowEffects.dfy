/** What each ledger operation writes, column by column, and what it leaves alone. */
module RowEffects {
  import opened FiniteSums
  import opened Ledger
  import opened LedgerProofs
  import opened LedgerEffects
  import LinkedEdits

  /** A line edit writes the requested quantity, price, care-of user and date, keeps the units paid, and moves the
      balance by the change of the line's total. */
  lemma LineEditWrites(L: Ledger, op: Op)
    requires op.EditLineOp? && Apply(L, op).Ok?
    ensures op.l in L.lines && L.lines[op.l].customer == op.c && op.c in L.customers
    ensures var R, was := Apply(L, op).value, L.lines[op.l];
      && op.l in R.lines && R.lines == L.lines[op.l := R.lines[op.l]] && R.payments == L.payments
      && R.borrowings == L.borrowings
      && var now := R.lines[op.l];
         && now.credited == op.qty && now.price == op.price && now.careOf == op.careOf && now.date == op.date
         && now.total == op.qty * op.price && now.credited - now.remaining == was.credited - was.remaining
         && now.product == was.product && now.customer == was.customer && now.company == was.company
         && now.created == was.created && now.remittance == was.remittance
         && R.customers == L.customers[op.c := L.customers[op.c].(debt := L.customers[op.c].debt + op.qty * op.price - was.total)]
  {
  }

  /** A payment edit writes the requested units, amount and date, and moves the line and the balance by the changes. */
  lemma PaymentEditWrites(L: Ledger, op: Op)
    requires op.EditPaymentOp? && Apply(L, op).Ok?
    ensures op.p in L.payments && L.payments[op.p].line == op.l && op.l in L.lines
    ensures L.lines[op.l].customer == op.c && op.c in L.customers
    ensures var R, was := Apply(L, op).value, L.payments[op.p];
      && op.p in R.payments && R.payments == L.payments[op.p := R.payments[op.p]] && R.borrowings == L.borrowings
      && var now := R.payments[op.p];
         && now.containers == op.units && now.amount == op.amount && now.paidAt == Some(op.at)
         && now.line == was.line && now.company == was.company && now.created == was.created
         && now.remittance == was.remittance
         && R.lines == L.lines[op.l := L.lines[op.l].(remaining := L.lines[op.l].remaining + was.containers - op.units)]
         && R.customers == L.customers[op.c := L.customers[op.c].(debt := L.customers[op.c].debt + was.amount - op.amount)]
  {
  }

  /** Containers of one kind on a customer row. */
  function OfKind(cust: Customer, k: Kind): int { match k case Round => cust.round case Slim => cust.slim case OtherKind => cust.other }

  predicate CountMoved(was: Customer, now: Customer, k: Kind, n: int) {
    && now == was.(round := now.round, slim := now.slim, other := now.other)
    && forall j :: OfKind(now, j) == OfKind(was, j) + (if j == k then n else 0)
  }

  lemma LoanEditWrites(L: Ledger, op: Op)
    requires op.EditBorrowingOp? && Apply(L, op).Ok?
    ensures op.b in L.borrowings && L.borrowings[op.b].customer == op.c && op.c in L.customers
    ensures var R, was := Apply(L, op).value, L.borrowings[op.b];
      && op.b in R.borrowings && R.borrowings == L.borrowings[op.b := R.borrowings[op.b]] && R.lines == L.lines
      && R.payments == L.payments
      && var now := R.borrowings[op.b];
         && now.borrowed == op.borrowed && now.returned == op.returned && now.date == op.date && now.kind == was.kind
         && now.customer == was.customer && now.company == was.company && now.created == was.created
         && now.returnedAt == was.returnedAt
         && op.c in R.customers && R.customers == L.customers[op.c := R.customers[op.c]]
         && CountMoved(L.customers[op.c], R.customers[op.c], was.kind, op.borrowed - op.returned - (was.borrowed - was.returned))
  {
  }

  lemma ExtensionWrites(L: Ledger, op: Op)
    requires op.ExtendOp? && Apply(L, op).Ok?
    ensures var R, c := Apply(L, op).value, op.line.customer;
      && op.id !in L.lines && R.lines == L.lines[op.id := op.line] && R.payments == L.payments
      && R.borrowings == L.borrowings
      && c in L.customers && L.customers[c].company == op.line.company && c in R.customers
      && var was, now := L.customers[c], R.customers[c];
         && R.customers == L.customers[c := now] && now.debt == was.debt + op.line.total
         && now.lastCredit == (if was.lastCredit.Some? && was.lastCredit.value > op.start then was.lastCredit else Some(op.start))
         && now == was.(debt := now.debt, lastCredit := now.lastCredit)
         && (was.limit > 0 ==> now.debt <= was.limit)
  {
  }

  lemma LoanWrites(L: Ledger, op: Op)
    requires op.LendOp? && Apply(L, op).Ok?
    ensures var R, c, row := Apply(L, op).value, op.borrowing.customer, op.borrowing;
      && op.id !in L.borrowings && R.borrowings == L.borrowings[op.id := row] && R.lines == L.lines
      && R.payments == L.payments
      && c in L.customers && L.customers[c].company == row.company && c in R.customers
      && R.customers == L.customers[c := R.customers[c]]
      && CountMoved(L.customers[c], R.customers[c], row.kind, row.borrowed)
  {
  }

  /** The three operations on a customer row alone. */
  lemma CustomerWrites(L: Ledger, op: Op)
    requires (op.SetLimitOp? || op.MarkDeletedOp? || op.CreateOp?) && Apply(L, op).Ok?
    ensures var R := Apply(L, op).value;
      && R.lines == L.lines && R.payments == L.payments && R.borrowings == L.borrowings
      && (op.SetLimitOp? ==> 0 <= op.limit && op.c in L.customers)
      && (op.SetLimitOp? ==> R.customers == L.customers[op.c := L.customers[op.c].(limit := op.limit)])
      && (op.MarkDeletedOp? ==> op.c in L.customers && R.customers == L.customers[op.c := L.customers[op.c].(deleted := true)])
      && (op.CreateOp? ==> 0 <= op.limit && op.id !in L.customers)
      && (op.CreateOp? ==> R.customers == L.customers[op.id := Customer(op.co, 0, op.limit, 0, 0, 0, None, false)])
  {
  }

  lemma PaymentDeletionWrites(L: Ledger, op: Op)
    requires op.DeletePaymentOp? && Apply(L, op).Ok?
    ensures op.p in L.payments && L.payments[op.p].line == op.l && op.l in L.lines && L.payments[op.p].remittance == None
    ensures L.lines[op.l].customer == op.c && op.c in L.customers
    ensures var R, was := Apply(L, op).value, L.payments[op.p];
      && R.payments == L.payments - {op.p} && R.borrowings == L.borrowings
      && R.lines == L.lines[op.l := L.lines[op.l].(remaining := L.lines[op.l].remaining + was.containers)]
      && R.customers == L.customers[op.c := L.customers[op.c].(debt := L.customers[op.c].debt + was.amount)]
  {
  }

  lemma LoanDeletionWrites(L: Ledger, op: Op)
    requires op.DeleteBorrowingOp? && Apply(L, op).Ok?
    ensures op.b in L.borrowings && L.borrowings[op.b].customer == op.c && op.c in L.customers
    ensures var R, was := Apply(L, op).value, L.borrowings[op.b];
      && R.borrowings == L.borrowings - {op.b} && R.lines == L.lines && R.payments == L.payments
      && op.c in R.customers && R.customers == L.customers[op.c := R.customers[op.c]]
      && CountMoved(L.customers[op.c], R.customers[op.c], was.kind, was.returned - was.borrowed)
  {
  }

  /** A line goes with all its payments, none of them linked; what it was still owed leaves the balance. */
  lemma LineDeletionWrites(L: Ledger, op: Op)
    requires op.DeleteLineOp? && Apply(L, op).Ok?
    ensures op.l in L.lines && L.lines[op.l].customer == op.c && op.c in L.customers
    ensures var R := Apply(L, op).value;
      && R.lines == L.lines - {op.l} && R.borrowings == L.borrowings
      && (forall p :: p in R.payments <==> p in L.payments && L.payments[p].line != op.l)
      && (forall p :: p in R.payments ==> R.payments[p] == L.payments[p])
      && (forall p :: p in L.payments && L.payments[p].line == op.l ==> L.payments[p].remittance == None)
      && var debt := L.customers[op.c].debt - L.lines[op.l].total + Collected(L, op.l);
         0 <= debt && R.customers == L.customers[op.c := L.customers[op.c].(debt := debt)]
  {
    hide Collected;
    forall p | p in L.payments && L.payments[p].line == op.l ensures L.payments[p].remittance == None {
      assert p in PaymentsOn(L, op.l);
    }
  }

  // ---- Collections -----------------------------------------------------------------------------------------

  /** Entry `j` is the last of the batch to name the borrowing. */
  predicate LastFor(rs: seq<ReturnEntry>, j: nat, b: Id)
    requires j < |rs|
  {
    rs[j].borrowing == b && forall k :: j < k < |rs| ==> rs[k].borrowing != b
  }

  lemma {:induction false} ReturnDates(L: Ledger, c: Id, rs: seq<ReturnEntry>, j: nat, b: Id)
    requires c in L.customers && forall i :: 0 <= i < |rs| ==> rs[i].borrowing in L.borrowings
    requires j < |rs| && LastFor(rs, j, b)
    ensures ApplyReturns(L, c, rs).borrowings[b].returnedAt == Some(rs[j].at)
  {
    if j < |rs| - 1 {
      var init := rs[..|rs| - 1];
      assert LastFor(init, j, b);
      ReturnDates(L, c, init, j, b);
    }
  }

  predicate RecordedAs(op: Op, i: nat, pay: Payment)
    requires op.CollectOp? && i < |op.es|
  {
    pay == Payment(op.es[i].line, op.co, op.es[i].units, op.es[i].amount, Some(op.es[i].at), op.now, None)
  }

  /** A collection stores one payment for each entry, with that entry's line, units, amount and date, whenever it was
      made; it changes no other payment; and each returned loan carries the date of the last entry naming it. */
  lemma CollectionWrites(L: Ledger, op: Op)
    requires op.CollectOp? && ValidOp(op) && Apply(L, op).Ok?
    ensures var R := Apply(L, op).value;
      && (forall i :: 0 <= i < |op.es| ==> op.es[i].id !in L.payments && op.es[i].id in R.payments && RecordedAs(op, i, R.payments[op.es[i].id]))
      && (forall p :: p in L.payments ==> p in R.payments && R.payments[p] == L.payments[p])
      && (forall p :: p in R.payments ==> p in L.payments || exists i :: 0 <= i < |op.es| && op.es[i].id == p)
      && (forall j, b :: 0 <= j < |op.rs| && LastFor(op.rs, j, b) ==> b in R.borrowings && R.borrowings[b].returnedAt == Some(op.rs[j].at))
  {
    var R := Apply(L, op).value;
    CollectRows(L, op.co, op.c, op.now, op.rs, op.es);
    CollectFits(L, op.co, op.c, op.now, op.rs, op.es);
    CollectParts(L, op.co, op.c, op.now, op.rs, op.es);
    NewPaymentsRows(op.co, op.now, op.es);
    hide Collect, NewPayments, ApplyReturns, Paid, Returned, TotalCollected;
    forall j, b | 0 <= j < |op.rs| && LastFor(op.rs, j, b) ensures b in R.borrowings && R.borrowings[b].returnedAt == Some(op.rs[j].at) {
      ReturnDates(L, op.c, op.rs, j, b);
    }
  }

  // ---- Editing a line back ---------------------------------------------------------------------------------

  /** The edit that asks for what the line was. */
  function LineBack(L: Ledger, l: Id): Op
    requires l in L.lines
  {
    var was := L.lines[l];
    EditLineOp(was.customer, l, was.credited, was.price, was.careOf, was.date)
  }

  /** Editing a line back restores the ledger, unless the balance it restores is above a positive limit, and is then
      refused for the limit; the service lets it through exactly when the line had a price. */
  lemma LineEditBack(L: Ledger, op: Op)
    requires Inv(L) && Priced(L) && op.EditLineOp? && Apply(L, op).Ok?
    ensures op.l in L.lines && op.c in L.customers
    ensures var cust := L.customers[op.c];
      Apply(Apply(L, op).value, LineBack(L, op.l))
      == if 0 < cust.limit < cust.debt then Err(LimitExceeded) else Ok(L)
    ensures ValidOp(LineBack(L, op.l)) <==> 0 < L.lines[op.l].price
  {
    LineEditWrites(L, op);
    LineFacts(L, op.l);
    BalanceFacts(L, op.c);
    assert PriceOk(L.lines[op.l]);
    hide Inv, Priced, Apply;
    BackFrom(L, Apply(L, op).value, op.l);
  }

  lemma BackFrom(L: Ledger, R: Ledger, l: Id)
    requires l in L.lines && l in R.lines && L.lines[l].customer in L.customers && LineOk(L, L.lines[l])
    requires PriceOk(L.lines[l])
    requires R.lines == L.lines[l := R.lines[l]] && R.payments == L.payments && R.borrowings == L.borrowings
    requires var was, now, c := L.lines[l], R.lines[l], L.lines[l].customer;
      && now == was.(credited := now.credited, remaining := now.remaining, price := now.price, total := now.total,
                     careOf := now.careOf, date := now.date)
      && now.credited - now.remaining == was.credited - was.remaining && 0 <= L.customers[c].debt
      && R.customers == L.customers[c := L.customers[c].(debt := L.customers[c].debt + now.total - was.total)]
    ensures var cust := L.customers[L.lines[l].customer];
      Apply(R, LineBack(L, l)) == if 0 < cust.limit < cust.debt then Err(LimitExceeded) else Ok(L)
  {
    var was, c := L.lines[l], L.lines[l].customer;
    assert R.lines[l := was] == L.lines;
    assert R.customers[c := L.customers[c]] == L.customers;
    assert was.credited * was.price == was.total;
    var now, cust := R.lines[l], R.customers[c];
    assert cust.debt + was.total - now.total == L.customers[c].debt && cust.limit == L.customers[c].limit;
    assert was.credited - (now.credited - now.remaining) == was.remaining;
    assert Apply(R, LineBack(L, l)) == EditLine(R, l, was.credited, was.price, was.careOf, was.date);
  }

  /** An edit that changes every field and is edited back. */
  lemma EveryFieldEditedBack()
    ensures var L := LinkedEdits.OneDebtor();
      var op := EditLineOp(0, 0, 3, 150, Some(3), 2);
      && Inv(L) && Priced(L) && ValidOp(op) && Apply(L, op).Ok?
      && var was, now := L.lines[0], Apply(L, op).value.lines[0];
         && now.credited != was.credited && now.remaining != was.remaining && now.price != was.price
         && now.total != was.total && now.careOf != was.careOf && now.date != was.date
         && Apply(L, op).value != L && ValidOp(LineBack(L, 0)) && Apply(Apply(L, op).value, LineBack(L, 0)) == Ok(L)
  {
    var L, op := LinkedEdits.OneDebtor(), EditLineOp(0, 0, 3, 150, Some(3), 2);
    LinkedEdits.DebtorInOrder(L);
    hide Inv, Priced;
    LineEditBack(L, op);
  }
}
