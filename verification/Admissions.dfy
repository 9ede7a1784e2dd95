/** Which requests the services let through: for every operation the exact condition on the state it meets. */
module Admissions {
  import opened FiniteSums
  import opened Ledger
  import opened LedgerProofs
  import opened RemittanceModel
  import opened RemittanceServices

  // ---- Batches -----------------------------------------------------------------------------------------------

  function UnitsOn(es: seq<PayEntry>, l: Id): map<Id, int> {
    map i: Id | 0 <= i < |es| && es[i].line == l :: es[i].units
  }

  function Money(es: seq<PayEntry>): map<Id, int> { map i: Id | 0 <= i < |es| :: es[i].amount }

  function BackOn(rs: seq<ReturnEntry>, b: Id): map<Id, int> {
    map i: Id | 0 <= i < |rs| && rs[i].borrowing == b :: rs[i].qty
  }

  /** What a batch pays on a line is the sum over the entries naming the line; and its money the sum over all. */
  lemma {:induction false} PaidIsSum(es: seq<PayEntry>, l: Id)
    ensures Paid(es, l) == Sum(UnitsOn(es, l)) && TotalCollected(es) == Sum(Money(es))
  {
    if es == [] {
      assert UnitsOn(es, l) == map[] && Money(es) == map[];
      SumEmpty();
    } else {
      var n := |es| - 1;
      PaidIsSum(es[..n], l);
      assert Money(es) == Money(es[..n])[n := es[n].amount];
      SumPut(Money(es[..n]), n, es[n].amount);
      if es[n].line == l {
        assert UnitsOn(es, l) == UnitsOn(es[..n], l)[n := es[n].units];
        SumPut(UnitsOn(es[..n], l), n, es[n].units);
      } else {
        assert UnitsOn(es, l) == UnitsOn(es[..n], l);
      }
    }
  }

  lemma {:induction false} ReturnedIsSum(rs: seq<ReturnEntry>, b: Id)
    ensures Returned(rs, b) == Sum(BackOn(rs, b))
  {
    if rs == [] {
      assert BackOn(rs, b) == map[];
      SumEmpty();
    } else {
      var n := |rs| - 1;
      ReturnedIsSum(rs[..n], b);
      if rs[n].borrowing == b {
        assert BackOn(rs, b) == BackOn(rs[..n], b)[n := rs[n].qty];
        SumPut(BackOn(rs[..n], b), n, rs[n].qty);
      } else {
        assert BackOn(rs, b) == BackOn(rs[..n], b);
      }
    }
  }

  /** The batch names lines and loans of the customer and company, takes no more from any of them than is open, pays no
      more than is owed, and its new keys are free and apart. */
  ghost predicate BatchAdmissible(L: Ledger, co: Id, c: Id, rs: seq<ReturnEntry>, es: seq<PayEntry>) {
    && c in L.customers && Sum(Money(es)) <= L.customers[c].debt
    && (forall i :: 0 <= i < |rs| ==> rs[i].borrowing in L.borrowings
                                      && L.borrowings[rs[i].borrowing].customer == c
                                      && L.borrowings[rs[i].borrowing].company == co)
    && (forall i :: 0 <= i < |es| ==> es[i].line in L.lines
                                      && L.lines[es[i].line].customer == c && L.lines[es[i].line].company == co)
    && (forall b :: b in L.borrowings ==> Sum(BackOn(rs, b)) <= L.borrowings[b].borrowed - L.borrowings[b].returned)
    && (forall l :: l in L.lines ==> Sum(UnitsOn(es, l)) <= L.lines[l].remaining)
    && (forall i :: 0 <= i < |es| ==> es[i].id !in L.payments)
    && (forall i, j :: 0 <= i < j < |es| ==> es[i].id != es[j].id)
  }

  lemma BatchSums(L: Ledger, c: Id, rs: seq<ReturnEntry>, es: seq<PayEntry>)
    requires c in L.customers
    ensures BatchFits(L, c, rs, es) <==>
      && (forall b :: b in L.borrowings ==> Sum(BackOn(rs, b)) <= L.borrowings[b].borrowed - L.borrowings[b].returned)
      && (forall l :: l in L.lines ==> Sum(UnitsOn(es, l)) <= L.lines[l].remaining)
      && Sum(Money(es)) <= L.customers[c].debt
      && (forall i :: 0 <= i < |es| ==> es[i].id !in L.payments)
      && (forall i, j :: 0 <= i < j < |es| ==> es[i].id != es[j].id)
  {
    hide Paid, Returned, TotalCollected, UnitsOn, BackOn, Money;
    PaidIsSum(es, 0);
    forall l: Id ensures Paid(es, l) == Sum(UnitsOn(es, l)) { PaidIsSum(es, l); }
    forall b: Id ensures Returned(rs, b) == Sum(BackOn(rs, b)) { ReturnedIsSum(rs, b); }
  }

  lemma EntriesWithinSums(rs: seq<ReturnEntry>, es: seq<PayEntry>)
    requires (forall i :: 0 <= i < |rs| ==> 0 < rs[i].qty) && forall i :: 0 <= i < |es| ==> 0 <= es[i].units
    ensures forall i :: 0 <= i < |rs| ==> rs[i].qty <= Sum(BackOn(rs, rs[i].borrowing))
    ensures forall i :: 0 <= i < |es| ==> es[i].units <= Sum(UnitsOn(es, es[i].line))
  {
    forall i | 0 <= i < |rs| ensures rs[i].qty <= Sum(BackOn(rs, rs[i].borrowing)) {
      SumNonNegative(BackOn(rs, rs[i].borrowing));
      assert i in BackOn(rs, rs[i].borrowing);
    }
    forall i | 0 <= i < |es| ensures es[i].units <= Sum(UnitsOn(es, es[i].line)) {
      SumNonNegative(UnitsOn(es, es[i].line));
      assert i in UnitsOn(es, es[i].line);
    }
  }

  /** A collection goes through exactly when the batch as a whole is admissible, and is otherwise refused whole. */
  lemma CollectionGoesThrough(L: Ledger, op: Op)
    requires op.CollectOp? && ValidOp(op)
    ensures Apply(L, op).Ok? <==> BatchAdmissible(L, op.co, op.c, op.rs, op.es)
  {
    if op.c in L.customers {
      BatchSums(L, op.c, op.rs, op.es);
      EntriesWithinSums(op.rs, op.es);
      hide BatchFits, BackOn, UnitsOn, Money, ApplyReturns, ApplyPayments, TotalCollected;
    }
  }

  // ---- Every operation ---------------------------------------------------------------------------------------

  /** No limit, or not above it. */
  predicate WithinLimit(cust: Customer, debt: int) { cust.limit > 0 ==> debt <= cust.limit }

  /** What an operation needs of a ledger in order. */
  ghost predicate Admissible(L: Ledger, op: Op) {
    match op
    case ExtendOp(id, row, _) =>
      && row.customer in L.customers && L.customers[row.customer].company == row.company && id !in L.lines
      && WithinLimit(L.customers[row.customer], L.customers[row.customer].debt + row.total)
    case LendOp(id, row) =>
      row.customer in L.customers && L.customers[row.customer].company == row.company && id !in L.borrowings
    case CollectOp(co, c, _, rs, es) => BatchAdmissible(L, co, c, rs, es)
    case EditLineOp(c, l, qty, price, _, _) =>
      && l in L.lines && L.lines[l].customer == c && c in L.customers && L.lines[l].credited - L.lines[l].remaining <= qty
      && var debt := L.customers[c].debt + qty * price - L.lines[l].total;
         0 <= debt && WithinLimit(L.customers[c], debt)
    case EditPaymentOp(c, l, p, units, amount, _) =>
      && p in L.payments && L.payments[p].line == l && l in L.lines && L.lines[l].customer == c && c in L.customers
      && units <= L.lines[l].remaining + L.payments[p].containers
      && amount <= L.customers[c].debt + L.payments[p].amount
    case EditBorrowingOp(c, b, _, _, _) => b in L.borrowings && L.borrowings[b].customer == c
    case DeleteLineOp(c, l) =>
      && l in L.lines && L.lines[l].customer == c && c in L.customers
      && (forall p :: p in L.payments && L.payments[p].line == l ==> L.payments[p].remittance == None)
      && L.lines[l].total - Collected(L, l) <= L.customers[c].debt
    case DeletePaymentOp(c, l, p) =>
      && p in L.payments && L.payments[p].line == l && l in L.lines && L.lines[l].customer == c
      && L.payments[p].remittance == None
    case DeleteBorrowingOp(c, b) => b in L.borrowings && L.borrowings[b].customer == c
    case SetLimitOp(c, limit) => c in L.customers && 0 <= limit
    case MarkDeletedOp(c) => c in L.customers
    case CreateOp(id, _, limit) => id !in L.customers && 0 <= limit
  }

  lemma PaymentGoesThrough(L: Ledger, op: Op)
    requires Inv(L) && ValidOp(op) && (op.EditPaymentOp? || op.DeletePaymentOp?)
    ensures Apply(L, op).Ok? <==> Admissible(L, op)
  {
    if op.p in L.payments {
      if op.EditPaymentOp? {
        PaymentGuardsAreDead(L, op.p, op.units, op.amount, op.at);
      } else {
        PaymentGuardsAreDead(L, op.p, 0, 0, 0);
      }
    }
    hide Inv;
  }

  lemma LoanGoesThrough(L: Ledger, op: Op)
    requires Inv(L) && ValidOp(op) && (op.EditBorrowingOp? || op.DeleteBorrowingOp?)
    ensures Apply(L, op).Ok? <==> Admissible(L, op)
  {
    if op.b in L.borrowings {
      if op.EditBorrowingOp? {
        BorrowingGuardsAreDead(L, op.b, op.borrowed, op.returned, op.date);
      } else {
        BorrowingGuardsAreDead(L, op.b, 1, 0, 0);
      }
    }
    hide Inv, EditBorrowing, DeleteBorrowing;
  }

  lemma RowGoesThrough(L: Ledger, op: Op)
    requires op.ExtendOp? || op.LendOp? || op.EditLineOp? || op.SetLimitOp? || op.MarkDeletedOp? || op.CreateOp?
    ensures Apply(L, op).Ok? <==> Admissible(L, op)
  {
  }

  /** On a ledger in order a valid operation goes through exactly when it is admissible. */
  lemma OperationGoesThrough(L: Ledger, op: Op)
    requires Inv(L) && ValidOp(op)
    ensures Apply(L, op).Ok? <==> Admissible(L, op)
  {
    hide *;
    match op
    case CollectOp(_, _, _, _, _) =>
      CollectionGoesThrough(L, op);
      CollectionIs(L, op);
    case EditPaymentOp(_, _, _, _, _, _) => PaymentGoesThrough(L, op);
    case DeletePaymentOp(_, _, _) => PaymentGoesThrough(L, op);
    case EditBorrowingOp(_, _, _, _, _) => LoanGoesThrough(L, op);
    case DeleteBorrowingOp(_, _) => LoanGoesThrough(L, op);
    case DeleteLineOp(_, _) => LineDeletion(L, op);
    case _ => RowGoesThrough(L, op);
  }

  lemma CollectionIs(L: Ledger, op: Op)
    requires op.CollectOp?
    ensures Admissible(L, op) == BatchAdmissible(L, op.co, op.c, op.rs, op.es)
  {
  }

  lemma LineDeletion(L: Ledger, op: Op)
    requires op.DeleteLineOp?
    ensures Apply(L, op).Ok? <==> Admissible(L, op)
  {
    hide Collected;
    forall p | p in L.payments && L.payments[p].line == op.l ensures p in PaymentsOn(L, op.l) {}
  }

  /** A limit is named exactly when it is the reason: the request is in order otherwise and passes a positive limit. */
  lemma LimitIsTheReason(L: Ledger, op: Op)
    requires op.ExtendOp? || op.EditLineOp?
    ensures op.ExtendOp? ==> (Apply(L, op) == Err(LimitExceeded) <==>
      var c := op.line.customer;
      && c in L.customers && L.customers[c].company == op.line.company
      && 0 < L.customers[c].limit < L.customers[c].debt + op.line.total)
    ensures op.EditLineOp? ==> (Apply(L, op) == Err(LimitExceeded) <==>
      && op.l in L.lines && L.lines[op.l].customer == op.c && op.c in L.customers
      && L.lines[op.l].credited - L.lines[op.l].remaining <= op.qty
      && var debt := L.customers[op.c].debt + op.qty * op.price - L.lines[op.l].total;
         0 <= debt && 0 < L.customers[op.c].limit < debt)
  {
  }

  /** On the database: a ledger request goes through exactly when its customer is active, the operation is admissible,
      and a deletion finds nothing owed and nothing out. */
  lemma RequestGoesThrough(db: Db, op: Op)
    requires Inv(db.ledger) && ValidOp(op)
    ensures var L, c := db.ledger, CustomerOf(op);
      Step(db, LedgerRequest(op)).Ok? <==>
        && (c.Some? ==> c.value in L.customers && !L.customers[c.value].deleted)
        && Admissible(L, op)
        && (op.MarkDeletedOp? ==> L.customers[op.c].debt == 0 && forall k :: Out(L, op.c, k) == 0)
  {
    OperationGoesThrough(db.ledger, op);
    if op.MarkDeletedOp? && op.c in db.ledger.customers { NothingPending(db.ledger, op.c); }
    hide Inv, Apply, Out;
  }

  lemma NothingPending(L: Ledger, c: Id)
    requires Inv(L) && c in L.customers
    ensures PendingItems(L.customers[c]) <==> !(L.customers[c].debt == 0 && forall k :: Out(L, c, k) == 0)
  {
    hide Owed, Out, UnitsPaid;
    assert CustomerBalanced(L, c);
    CountersNonNegative(L, c, Round);
    CountersNonNegative(L, c, Slim);
    CountersNonNegative(L, c, OtherKind);
    var cust := L.customers[c];
    assert cust.round == Out(L, c, Round) && cust.slim == Out(L, c, Slim) && cust.other == Out(L, c, OtherKind);
    if cust.debt == 0 && cust.round == 0 && cust.slim == 0 && cust.other == 0 {
      forall k ensures Out(L, c, k) == 0 { match k case Round => case Slim => case OtherKind => }
    }
  }

  // ---- Payloads ----------------------------------------------------------------------------------------------

  predicate NoneNegative(ns: seq<Note>) { forall i :: 0 <= i < |ns| ==> 0 <= ns[i].amount }

  /** Whether a product line leaves a row. */
  predicate LeavesRow(e: ProductEntry) { e.sold - e.credited + e.repaid > 0 || e.credited != 0 || e.borrowed != 0 }

  /** A rider entry in order: an active rider, known products, no negative quantity or amount, no product twice among the
      lines that leave a row. */
  predicate RiderInOrder(ro: Roster, r: RiderEntry) {
    && r.rider in ro.riders && NoneNegative(r.expenses) && NoneNegative(r.deductions)
    && (forall j :: 0 <= j < |r.lines| ==>
          && r.lines[j].product in ro.prices
          && 0 <= r.lines[j].sold && 0 <= r.lines[j].credited && 0 <= r.lines[j].borrowed && 0 <= r.lines[j].repaid)
    && (forall j, k :: 0 <= j < k < |r.lines| && LeavesRow(r.lines[j]) && LeavesRow(r.lines[k]) ==>
          r.lines[j].product != r.lines[k].product)
  }

  lemma OneRider(ro: Roster, r: RiderEntry)
    ensures RiderInOrder(ro, r) <==>
      && RiderOk(ro, r) && LineKeysOk(r.lines) && forall j :: 0 <= j < |r.lines| ==> r.lines[j].product in ro.prices
  {
    if LinesOk(r.lines) {
      forall j | 0 <= j < |r.lines| ensures LeavesRow(r.lines[j]) <==> !Skipped(r.lines[j]) { assert EntryOk(r.lines[j]); }
      hide LeavesRow, Skipped;
    }
  }

  lemma AllRiders(ro: Roster, rs: seq<RiderEntry>)
    ensures RidersOk(ro, rs) && ProductsKnown(ro, rs) && RiderKeysOk(rs) <==>
      && (forall i :: 0 <= i < |rs| ==> RiderInOrder(ro, rs[i]))
      && (forall i, j :: 0 <= i < j < |rs| ==> rs[i].rider != rs[j].rider)
  {
    forall i | 0 <= i < |rs|
      ensures RiderInOrder(ro, rs[i]) <==>
        && RiderOk(ro, rs[i]) && LineKeysOk(rs[i].lines)
        && forall j :: 0 <= j < |rs[i].lines| ==> rs[i].lines[j].product in ro.prices
    {
      OneRider(ro, rs[i]);
    }
    hide RiderInOrder, RiderOk, LineKeysOk;
  }

  predicate StaffInOrder(s: StaffEntry) {
    (s.override.Some? ==> 0 <= s.override.value) && NoneNegative(s.deductions) && NoneNegative(s.expenses)
  }

  ghost predicate ActiveInOrder(ro: Roster, ss: seq<StaffEntry>) {
    forall i :: 0 <= i < |ss| && ss[i].staff in ro.staff ==> StaffInOrder(ss[i])
  }

  ghost predicate ActiveApart(ro: Roster, ss: seq<StaffEntry>) {
    forall i, j :: 0 <= i < j < |ss| && ss[i].staff in ro.staff ==> ss[i].staff != ss[j].staff
  }

  lemma {:induction false} ActiveMembers(ro: Roster, ss: seq<StaffEntry>)
    ensures forall e :: e in ActiveStaff(ro, ss) <==> e in ss && e.staff in ro.staff
  {
    if ss != [] {
      ActiveMembers(ro, ss[..|ss| - 1]);
      assert ss == ss[..|ss| - 1] + [ss[|ss| - 1]];
    }
  }

  lemma KeysSnoc(ss: seq<StaffEntry>, s: StaffEntry)
    ensures StaffKeysOk(ss + [s]) <==> StaffKeysOk(ss) && forall e :: e in ss ==> e.staff != s.staff
  {
    var all := ss + [s];
    if StaffKeysOk(all) {
      forall i, j | 0 <= i < j < |ss| ensures ss[i].staff != ss[j].staff { assert all[i] == ss[i] && all[j] == ss[j]; }
      forall e | e in ss ensures e.staff != s.staff {
        var i :| 0 <= i < |ss| && ss[i] == e;
        assert all[i] == e && all[|ss|] == s;
      }
    }
  }

  lemma ApartSnoc(ro: Roster, ss: seq<StaffEntry>, s: StaffEntry)
    ensures ActiveApart(ro, ss + [s])
       <==> ActiveApart(ro, ss) && (s.staff in ro.staff ==> forall e :: e in ss ==> e.staff != s.staff)
  {
    var all := ss + [s];
    if ActiveApart(ro, all) {
      forall i, j | 0 <= i < j < |ss| && ss[i].staff in ro.staff ensures ss[i].staff != ss[j].staff {
        assert all[i] == ss[i] && all[j] == ss[j];
      }
      forall e | e in ss && s.staff in ro.staff ensures e.staff != s.staff {
        var i :| 0 <= i < |ss| && ss[i] == e;
        assert all[i] == e && all[|ss|] == s;
      }
    }
  }

  lemma {:induction false} ActiveKeys(ro: Roster, ss: seq<StaffEntry>)
    ensures StaffKeysOk(ActiveStaff(ro, ss)) <==> ActiveApart(ro, ss)
  {
    if ss != [] {
      var init, s := ss[..|ss| - 1], ss[|ss| - 1];
      ActiveKeys(ro, init);
      ActiveMembers(ro, init);
      KeysSnoc(ActiveStaff(ro, init), s);
      ApartSnoc(ro, init, s);
      assert init + [s] == ss && ActiveStaff(ro, init) + [] == ActiveStaff(ro, init);
      hide StaffKeysOk, ActiveApart;
    }
  }

  lemma AllActive(ro: Roster, ss: seq<StaffEntry>)
    ensures AllStaffOk(ActiveStaff(ro, ss)) <==> ActiveInOrder(ro, ss)
  {
    ActiveMembers(ro, ss);
    hide ActiveStaff;
    if AllStaffOk(ActiveStaff(ro, ss)) {
      forall i | 0 <= i < |ss| && ss[i].staff in ro.staff ensures StaffInOrder(ss[i]) {
        assert ss[i] in ActiveStaff(ro, ss);
        var j :| 0 <= j < |ActiveStaff(ro, ss)| && ActiveStaff(ro, ss)[j] == ss[i];
        assert StaffOk(ActiveStaff(ro, ss)[j]);
      }
    }
    if ActiveInOrder(ro, ss) {
      forall j | 0 <= j < |ActiveStaff(ro, ss)| ensures StaffOk(ActiveStaff(ro, ss)[j]) {
        assert ActiveStaff(ro, ss)[j] in ActiveStaff(ro, ss);
        var i :| 0 <= i < |ss| && ss[i] == ActiveStaff(ro, ss)[j];
        assert StaffInOrder(ss[i]);
      }
    }
  }

  lemma NotesInOrder(ns: seq<Note>)
    ensures NotesOk(ns) <==> NoneNegative(ns)
  {
  }

  /** A payload is acceptable exactly when every rider entry is in order, no rider is listed twice, the general expenses
      are not negative, and every entry of an active staff member has no negative override or amount and is the only one. */
  lemma PayloadInOrder(ro: Roster, p: Payload)
    ensures Acceptable(ro, p) <==>
      && (forall i :: 0 <= i < |p.riders| ==> RiderInOrder(ro, p.riders[i]))
      && (forall i, j :: 0 <= i < j < |p.riders| ==> p.riders[i].rider != p.riders[j].rider)
      && NoneNegative(p.expenses)
      && (forall i :: 0 <= i < |p.staff| && p.staff[i].staff in ro.staff ==> StaffInOrder(p.staff[i]))
      && (forall i, j :: 0 <= i < j < |p.staff| && p.staff[i].staff in ro.staff ==> p.staff[i].staff != p.staff[j].staff)
  {
    AllRiders(ro, p.riders);
    AllActive(ro, p.staff);
    ActiveKeys(ro, p.staff);
    NotesInOrder(p.expenses);
    hide StaffInOrder, NoneNegative, NotesOk;
    hide RidersOk, ProductsKnown, RiderKeysOk, RiderInOrder, ActiveStaff, AllStaffOk, StaffKeysOk;
  }
}
