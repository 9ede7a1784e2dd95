/** The repayments a remittance says it received against the payments linked to it: conserved over runs, previewed
    exactly by the form, and unchanged by saving again or by saving and clearing. */
module RepaymentTotals {
  import opened FiniteSums
  import opened Ledger
  import opened LedgerProofs
  import opened RemittanceModel
  import opened RemittanceServices
  import opened RunSafety

  // ---- Conservation ------------------------------------------------------------------------------------

  function LinkedAmounts(L: Ledger, r: Id): map<Id, int> {
    map p | p in L.payments && L.payments[p].remittance == Some(r) :: L.payments[p].amount
  }

  /** How far the stored repayment total is from the payments linked now. */
  ghost function Drift(db: Db, r: Id): int
    requires r in db.rems
  {
    db.rems[r].figures.repayments - Sum(LinkedAmounts(db.ledger, r))
  }

  /** What a request adds to the drift of a remittance: only editing one of its linked payments adds anything. */
  function DriftFrom(L: Ledger, rq: Request, r: Id): int {
    if rq.LedgerRequest? && rq.op.EditPaymentOp? && rq.op.p in L.payments && L.payments[rq.op.p].remittance == Some(r)
    then L.payments[rq.op.p].amount - rq.op.amount else 0
  }

  lemma OpMovesDrift(L: Ledger, R: Ledger, op: Op, r: Id)
    requires PaymentsCarriedOver(L, R, op)
    ensures Sum(LinkedAmounts(R, r)) == Sum(LinkedAmounts(L, r)) - DriftFrom(L, LedgerRequest(op), r)
  {
    var a, b := LinkedAmounts(L, r), LinkedAmounts(R, r);
    forall p ensures p in a <==> p in b {
      if p in R.payments && p in L.payments { assert CarriedOver(L, R, op, p); }
    }
    forall p | p in a ensures b[p] == AmountAfter(op, p, a[p]) { assert CarriedOver(L, R, op, p); }
    if op.EditPaymentOp? && op.p in a {
      SumPut(a, op.p, op.amount);
      assert b == a[op.p := op.amount];
    } else {
      assert b == a;
    }
  }

  lemma LedgerRequestDrift(db: Db, op: Op, r: Id)
    requires ValidOp(op) && LedgerStep(db.ledger, op).Ok? && r in db.rems
    ensures Drift(db.(ledger := LedgerStep(db.ledger, op).value), r) == Drift(db, r) + DriftFrom(db.ledger, LedgerRequest(op), r)
  {
    var L := db.ledger;
    if op.MarkDeletedOp? {
      assert Apply(L, op) == MarkDeleted(L, op.c);
      assert LinkedAmounts(MarkDeleted(L, op.c).value, r) == LinkedAmounts(L, r);
    } else {
      hide Apply, ValidOp;
      OpCarriesPayments(L, op);
      hide PaymentsCarriedOver;
      OpMovesDrift(L, Apply(L, op).value, op, r);
    }
  }

  lemma DiscardDrift(db: Db, rs: set<Id>, r: Id)
    requires r in db.rems && r !in rs
    ensures r in Discard(db, rs).rems && Drift(Discard(db, rs), r) == Drift(db, r)
  {
    assert LinkedAmounts(Unlink(db.ledger, rs), r) == LinkedAmounts(db.ledger, r);
  }

  lemma StoreDriftOthers(db: Db, co: Id, d: int, id: Id, rem: Remittance, r: Id)
    requires r in db.rems && id !in db.rems
    ensures Drift(RunSafety.Stored(db, co, d, id, rem), r) == Drift(db, r)
  {
    assert LinkedAmounts(Link(db.ledger, id, co, d), r) == LinkedAmounts(db.ledger, r);
  }

  /** The payments linked by a build are those it totals. */
  lemma NewRemittanceBalanced(L: Ledger, id: Id, co: Id, d: int)
    requires LinesExist(L) && forall p :: p in L.payments ==> L.payments[p].remittance != Some(id)
    ensures LinkedAmounts(Link(L, id, co, d), id) == RepaymentAmounts(RepaymentsOf(L, Eligible(L, co, d)))
    ensures LinkedTo(Link(L, id, co, d), id) == Eligible(L, co, d)
  {
  }

  lemma NoLinkTo(db: Db, id: Id)
    requires LinksOk(db) && id !in db.rems
    ensures forall p :: p in db.ledger.payments ==> db.ledger.payments[p].remittance != Some(id)
    ensures forall l :: l in db.ledger.lines ==> db.ledger.lines[l].remittance != Some(id)
  {
  }

  lemma PaymentsHaveLines(L: Ledger)
    requires Inv(L)
    ensures LinesExist(L)
  {
    hide Owed, Out, UnitsPaid;
    forall p | p in L.payments ensures L.payments[p].line in L.lines { assert PaymentOk(L, L.payments[p]); }
  }

  lemma RebuildDrift(db: Db, R: Db, co: Id, d: int, id: Id, r: Id)
    requires DbOk(db) && IsRebuild(db, R, co, d, id) && r in R.rems
    ensures r == id || r in db.rems
    ensures Drift(R, r) == if r == id then 0 else Drift(db, r)
    ensures LinkedTo(R.ledger, id) == Eligible(Unlink(db.ledger, OfDay(db, co, d)), co, d)
  {
    var day := OfDay(db, co, d);
    var mid := Discard(db, day);
    DiscardKeepsDbOk(db, day);
    PaymentsHaveLines(mid.ledger);
    NoLinkTo(mid, id);
    NewRemittanceBalanced(mid.ledger, id, co, d);
    hide DbOk, Inv, LinesExist;
    if r != id {
      StoreDriftOthers(mid, co, d, id, R.rems[id], r);
      DiscardDrift(db, day, r);
    }
    hide Eligible, RepaymentsOf, RepaymentAmounts, Link, LinkedTo, LinkedAmounts, OfDay, SomeFinalized, Unlink;
  }

  /** Each step's effect on the drift of each remittance it leaves: a freshly built one has none, and the others
      keep theirs, except that editing a linked payment moves its remittance by exactly the change of amount. */
  lemma StepDrift(db: Db, rq: Request, r: Id)
    requires DbOk(db) && ValidRequest(rq) && r in After(db, rq).rems && Step(db, rq).Ok?
    ensures var R := After(db, rq);
      if r !in db.rems || ((rq.CreateRequest? || rq.SaveRequest?) && r == rq.id) then Drift(R, r) == 0
      else Drift(R, r) == Drift(db, r) + DriftFrom(db.ledger, rq, r)
  {
    hide DbOk, Drift;
    match rq
    case LedgerRequest(op) => LedgerRequestDrift(db, op, r);
    case CreateRequest(ro, _, d, id, _, _, _) =>
      BuildingRequest(db, rq);
      RebuildDrift(db, Step(db, rq).value, ro.company, d, id, r);
    case SaveRequest(ro, _, d, id, _) =>
      BuildingRequest(db, rq);
      RebuildDrift(db, Step(db, rq).value, ro.company, d, id, r);
    case ClearRequest(co, d) => DiscardDrift(db, OfDay(db, co, d), r);
    case FinalizeRequest(_, _, _, _, _, _) => StatusDrift(db, rq, r);
    case PaidRequest(_, _, _, _) => StatusDrift(db, rq, r);
  }

  lemma StatusDrift(db: Db, rq: Request, r: Id)
    requires (rq.FinalizeRequest? || rq.PaidRequest?) && Step(db, rq).Ok? && r in Step(db, rq).value.rems
    ensures r in db.rems && Drift(Step(db, rq).value, r) == Drift(db, r)
  {
  }

  ghost predicate Balanced(db: Db) { forall r :: r in db.rems ==> Drift(db, r) == 0 }

  /** The one request that unbalances: a change of the amount of a linked payment. */
  predicate EditsLinkedAmount(L: Ledger, rq: Request) {
    rq.LedgerRequest? && rq.op.EditPaymentOp? && rq.op.p in L.payments && L.payments[rq.op.p].remittance.Some?
    && L.payments[rq.op.p].amount != rq.op.amount
  }

  /** A successful step keeps the books balanced exactly when it is not such an edit. */
  lemma StepKeepsBalanced(db: Db, rq: Request)
    requires DbOk(db) && ValidRequest(rq) && Balanced(db) && Step(db, rq).Ok?
    ensures Balanced(After(db, rq)) <==> !EditsLinkedAmount(db.ledger, rq)
  {
    var R := After(db, rq);
    if EditsLinkedAmount(db.ledger, rq) {
      var r := db.ledger.payments[rq.op.p].remittance.value;
      LinkTarget(db, rq.op.p);
      assert R.rems == db.rems by { hide Inv, Drift, LedgerStep; }
      hide DbOk, Drift, Step, After;
      StepDrift(db, rq, r);
      assert Drift(R, r) != 0;
    } else {
      hide DbOk, Drift, Step, After;
      forall r | r in R.rems ensures Drift(R, r) == 0 {
        StepDrift(db, rq, r);
        NoDriftFrom(db, rq, r);
      }
    }
  }

  lemma NoDriftFrom(db: Db, rq: Request, r: Id)
    requires !EditsLinkedAmount(db.ledger, rq)
    ensures DriftFrom(db.ledger, rq, r) == 0
  {
  }

  lemma LinkTarget(db: Db, p: Id)
    requires DbOk(db) && p in db.ledger.payments && db.ledger.payments[p].remittance.Some?
    ensures db.ledger.payments[p].remittance.value in db.rems
  {
  }

  /** No step of the run succeeds in changing the amount of a payment that is linked at that moment. */
  ghost predicate NoLinkedEdits(db: Db, rqs: seq<Request>) {
    forall i :: 0 <= i < |rqs| ==> EditFree(Run(db, rqs[..i]), rqs[i])
  }

  ghost predicate EditFree(db: Db, rq: Request) { Step(db, rq).Ok? ==> !EditsLinkedAmount(db.ledger, rq) }

  lemma {:induction false} RunKeepsBalanced(db: Db, rqs: seq<Request>)
    requires DbOk(db) && AllValid(rqs) && Balanced(db) && NoLinkedEdits(db, rqs)
    ensures Balanced(Run(db, rqs))
  {
    hide DbOk, Balanced, Step, EditsLinkedAmount;
    if rqs != [] {
      var n := |rqs| - 1;
      var init := rqs[..n];
      forall i | 0 <= i < n ensures EditFree(Run(db, init[..i]), init[i]) {
        assert init[..i] == rqs[..i] && EditFree(Run(db, rqs[..i]), rqs[i]);
      }
      RunKeepsBalanced(db, init);
      RunKeepsDbOk(db, init);
      assert EditFree(Run(db, rqs[..n]), rqs[n]);
      if Step(Run(db, init), rqs[n]).Ok? { StepKeepsBalanced(Run(db, init), rqs[n]); }
    }
  }

  function StoredRepayments(db: Db): map<Id, int> { map r | r in db.rems :: db.rems[r].figures.repayments }

  function AllLinkedAmounts(L: Ledger): map<Id, int> {
    map p | p in L.payments && L.payments[p].remittance.Some? :: L.payments[p].amount
  }

  function LinkOf(L: Ledger): map<Id, Id> {
    map p | p in L.payments && L.payments[p].remittance.Some? :: L.payments[p].remittance.value
  }

  /** In balanced books the stored repayment totals of all remittances add up to the amounts of all linked payments. */
  lemma RepaymentsConserved(db: Db)
    requires LinksOk(db) && Balanced(db)
    ensures Sum(StoredRepayments(db)) == Sum(AllLinkedAmounts(db.ledger))
  {
    var L := db.ledger;
    forall r | r in db.rems ensures StoredRepayments(db)[r] == Sum(OwnedBy(AllLinkedAmounts(L), LinkOf(L), r)) {
      LinkedShare(L, r);
      assert Drift(db, r) == 0;
    }
    SumByOwner(AllLinkedAmounts(L), LinkOf(L), StoredRepayments(db));
  }

  lemma LinkedShare(L: Ledger, r: Id)
    ensures Sum(OwnedBy(AllLinkedAmounts(L), LinkOf(L), r)) == Sum(LinkedAmounts(L, r))
  {
    var m := OwnedBy(AllLinkedAmounts(L), LinkOf(L), r);
    SumSplit(m, LinkedAmounts(L, r).Keys);
    assert (map p | p in m && p in LinkedAmounts(L, r).Keys :: m[p]) == LinkedAmounts(L, r);
    SumZero(m - LinkedAmounts(L, r).Keys);
  }

  /** Over every run that starts balanced, up to linked-payment edits. */
  lemma RunConservesRepayments(db: Db, rqs: seq<Request>)
    requires DbOk(db) && AllValid(rqs) && Balanced(db) && NoLinkedEdits(db, rqs)
    ensures var R := Run(db, rqs); Sum(StoredRepayments(R)) == Sum(AllLinkedAmounts(R.ledger))
  {
    RunKeepsBalanced(db, rqs);
    RunKeepsDbOk(db, rqs);
    hide Run, Inv, Priced;
    RepaymentsConserved(Run(db, rqs));
  }
}
