/** Which day's remittance a payment or a credit line belongs to: the date it carries, whenever it was recorded. */
module BusinessDays {
  import opened FiniteSums
  import opened Ledger
  import opened LedgerProofs
  import opened LedgerEffects
  import opened RemittanceModel
  import opened RemittanceServices
  import opened RunSafety
  import opened RepaymentTotals
  import opened DraftCycle
  import opened Finalization
  import opened RowEffects
  import Admissions
  import EditGate

  /** The day of a payment: its date, or for a payment without one the day its creation time falls on. */
  predicate BelongsTo(pay: Payment, d: int) {
    match pay.paidAt
    case Some(at) => at == d
    case None => 86400 * d <= pay.created < 86400 * (d + 1)
  }

  predicate Builds(rq: Request) { rq.CreateRequest? || rq.SaveRequest? }

  /** A remittance of the day that a build replaces. */
  predicate Replaced(db: Db, rq: Request, link: Option<Id>)
    requires Builds(rq)
  {
    link.Some? && link.value in db.rems && db.rems[link.value].company == rq.ro.company && db.rems[link.value].date == rq.d
  }

  /** The link a build leaves on a row of company `co`. */
  function LinkAfter(db: Db, rq: Request, link: Option<Id>, co: Id, ofDay: bool): Option<Id>
    requires Builds(rq)
  {
    var free := if Replaced(db, rq, link) then None else link;
    if free == None && co == rq.ro.company && ofDay then Some(rq.id) else free
  }

  lemma DayOfTime(t: int, d: int)
    ensures EditGate.Day(t) == d <==> 86400 * d <= t < 86400 * (d + 1)
  {
  }

  lemma UnlinkRows(db: Db, rq: Request, p: Id, l: Id)
    requires Builds(rq)
    ensures var mid := Discard(db, OfDay(db, rq.ro.company, rq.d)).ledger;
      && (p in db.ledger.payments ==> p in mid.payments && var link := db.ledger.payments[p].remittance;
            mid.payments[p] == db.ledger.payments[p].(remittance := if Replaced(db, rq, link) then None else link))
      && (l in db.ledger.lines ==> l in mid.lines && var link := db.ledger.lines[l].remittance;
            mid.lines[l] == db.ledger.lines[l].(remittance := if Replaced(db, rq, link) then None else link))
  {
  }

  lemma LinkRows(L: Ledger, r: Id, co: Id, d: int, p: Id, l: Id)
    ensures p in L.payments ==> p in Link(L, r, co, d).payments && var pay := L.payments[p];
      Link(L, r, co, d).payments[p]
      == pay.(remittance := if pay.remittance == None && pay.company == co && BelongsTo(pay, d) then Some(r) else pay.remittance)
    ensures l in L.lines ==> l in Link(L, r, co, d).lines && var row := L.lines[l];
      Link(L, r, co, d).lines[l]
      == row.(remittance := if row.remittance == None && row.company == co && row.date == d then Some(r) else row.remittance)
  {
    if p in L.payments { DayOfTime(L.payments[p].created, d); }
  }

  /** The effect of a build on every payment and line: the link alone moves. It goes to the new remittance exactly when
      the row is of the company and the day and was free or hung from a draft that is replaced. */
  lemma BuildLinks(db: Db, rq: Request, p: Id, l: Id)
    requires Builds(rq) && Step(db, rq).Ok?
    ensures p in db.ledger.payments ==> p in After(db, rq).ledger.payments && var pay := db.ledger.payments[p];
      After(db, rq).ledger.payments[p]
      == pay.(remittance := LinkAfter(db, rq, pay.remittance, pay.company, BelongsTo(pay, rq.d)))
    ensures l in db.ledger.lines ==> l in After(db, rq).ledger.lines && var row := db.ledger.lines[l];
      After(db, rq).ledger.lines[l] == row.(remittance := LinkAfter(db, rq, row.remittance, row.company, row.date == rq.d))
  {
    BuildIsStored(db, rq);
    UnlinkRows(db, rq, p, l);
    LinkRows(Discard(db, OfDay(db, rq.ro.company, rq.d)).ledger, rq.id, rq.ro.company, rq.d, p, l);
    hide Step, After, BuildDay, BuiltRemittance, Acceptable, Discard, OfDay, Link, Replaced;
  }

  // ---- Ledger requests ---------------------------------------------------------------------------------------

  lemma RequestApplies(db: Db, op: Op)
    requires Step(db, LedgerRequest(op)).Ok?
    ensures Apply(db.ledger, op).Ok? && After(db, LedgerRequest(op)) == db.(ledger := Apply(db.ledger, op).value)
  {
    hide Extend, Lend, Collect, EditLine, EditPayment, EditBorrowing, DeleteLine, DeletePayment, DeleteBorrowing, ValidOp;
  }

  /** The operations that change or remove a payment. */
  predicate Changes(op: Op, p: Id, l: Id) {
    (op.EditPaymentOp? && op.p == p) || (op.DeletePaymentOp? && op.p == p) || (op.DeleteLineOp? && op.l == l)
  }

  lemma PaymentKept(L: Ledger, op: Op, p: Id)
    requires ValidOp(op) && Apply(L, op).Ok? && p in L.payments && !Changes(op, p, L.payments[p].line)
    ensures p in Apply(L, op).value.payments && Apply(L, op).value.payments[p] == L.payments[p]
  {
    hide Apply, ValidOp, Collected;
    match op
    case CollectOp(_, _, _, _, _) => CollectionWrites(L, op);
    case EditPaymentOp(_, _, _, _, _, _) => PaymentEditWrites(L, op);
    case DeleteLineOp(_, _) => LineDeletionWrites(L, op);
    case DeletePaymentOp(_, _, _) => PaymentDeletionWrites(L, op);
    case ExtendOp(_, _, _) => ExtensionWrites(L, op);
    case LendOp(_, _) => LoanWrites(L, op);
    case EditLineOp(_, _, _, _, _, _) => LineEditWrites(L, op);
    case EditBorrowingOp(_, _, _, _, _) => LoanEditWrites(L, op);
    case DeleteBorrowingOp(_, _) => LoanDeletionWrites(L, op);
    case _ => CustomerWrites(L, op);
  }

  // ---- A payment waits for its day ---------------------------------------------------------------------------

  /** A build's outcome for an unlinked payment of its company: linked exactly on its day. */
  lemma WaitingIsLinked(db: Db, rq: Request, p: Id)
    requires Builds(rq) && Step(db, rq).Ok? && p in db.ledger.payments
    requires db.ledger.payments[p].company == rq.ro.company && db.ledger.payments[p].remittance == None
    ensures p in After(db, rq).ledger.payments
    ensures After(db, rq).ledger.payments[p].remittance == if BelongsTo(db.ledger.payments[p], rq.d) then Some(rq.id) else None
  {
    BuildLinks(db, rq, p, 0);
    hide Step, After, BelongsTo;
  }

  /** A payment without a date belongs to the day its creation time falls on. */
  lemma UndatedIsLinked(db: Db, rq: Request, p: Id)
    requires Builds(rq) && Step(db, rq).Ok? && p in db.ledger.payments
    requires db.ledger.payments[p].company == rq.ro.company && db.ledger.payments[p].remittance == None
    requires db.ledger.payments[p].paidAt == None
    ensures p in After(db, rq).ledger.payments
    ensures After(db, rq).ledger.payments[p].remittance == Some(rq.id)
       <==> 86400 * rq.d <= db.ledger.payments[p].created < 86400 * (rq.d + 1)
  {
    WaitingIsLinked(db, rq, p);
    hide Step, After;
  }

  /** A request that leaves an unlinked payment dated `at` alone: it neither changes it nor builds its day. */
  predicate Spares(rq: Request, p: Id, pay: Payment) {
    match rq
    case LedgerRequest(op) => !Changes(op, p, pay.line)
    case CreateRequest(ro, _, d, _, _, _, _) => !(ro.company == pay.company && BelongsTo(pay, d))
    case SaveRequest(ro, _, d, _, _) => !(ro.company == pay.company && BelongsTo(pay, d))
    case _ => true
  }

  lemma StepSpares(db: Db, rq: Request, p: Id)
    requires ValidRequest(rq) && p in db.ledger.payments && db.ledger.payments[p].remittance == None
    requires Spares(rq, p, db.ledger.payments[p])
    ensures p in After(db, rq).ledger.payments && After(db, rq).ledger.payments[p] == db.ledger.payments[p]
  {
    if Step(db, rq).Ok? {
      match rq
      case LedgerRequest(op) =>
        RequestApplies(db, op);
        hide Step, After, Apply, BelongsTo;
        PaymentKept(db.ledger, op, p);
      case ClearRequest(_, _) =>
        ClearReleases(db, rq);
        hide Step, After, BelongsTo;
      case FinalizeRequest(_, _, _, _, _, _) =>
      case PaidRequest(_, _, _, _) =>
      case CreateRequest(_, _, _, _, _, _, _) =>
        BuildLinks(db, rq, p, 0);
        hide Step, After, BelongsTo;
      case SaveRequest(_, _, _, _, _) =>
        BuildLinks(db, rq, p, 0);
        hide Step, After, BelongsTo;
    }
  }

  ghost predicate AllSpare(rqs: seq<Request>, p: Id, pay: Payment) { forall i :: 0 <= i < |rqs| ==> Spares(rqs[i], p, pay) }

  lemma {:induction false} RunSpares(db: Db, rqs: seq<Request>, p: Id)
    requires AllValid(rqs) && p in db.ledger.payments && db.ledger.payments[p].remittance == None
    requires AllSpare(rqs, p, db.ledger.payments[p])
    ensures p in Run(db, rqs).ledger.payments && Run(db, rqs).ledger.payments[p] == db.ledger.payments[p]
  {
    hide After, Spares, ValidRequest;
    if rqs != [] {
      var init := rqs[..|rqs| - 1];
      RunSpares(db, init, p);
      StepSpares(Run(db, init), rqs[|rqs| - 1], p);
    }
  }

  /** A payment collected with entry date `at` is linked by a build of its company for day d exactly when d is `at`:
      whenever it was recorded, and whatever ran in between without changing it or building its day. */
  lemma CollectedPaymentBelongs(db: Db, op: Op, i: nat, rqs: seq<Request>, rq: Request)
    requires op.CollectOp? && ValidOp(op) && Step(db, LedgerRequest(op)).Ok? && i < |op.es| && AllValid(rqs)
    requires AllSpare(rqs, op.es[i].id, Payment(op.es[i].line, op.co, op.es[i].units, op.es[i].amount, Some(op.es[i].at), op.now, None))
    requires Builds(rq) && rq.ro.company == op.co && Step(Run(After(db, LedgerRequest(op)), rqs), rq).Ok?
    ensures var end, p := After(Run(After(db, LedgerRequest(op)), rqs), rq), op.es[i].id;
      && p in end.ledger.payments
      && end.ledger.payments[p].remittance == (if rq.d == op.es[i].at then Some(rq.id) else None)
      && end.ledger.payments[p].amount == op.es[i].amount && end.ledger.payments[p].containers == op.es[i].units
  {
    RequestApplies(db, op);
    CollectionWrites(db.ledger, op);
    assert RecordedAs(op, i, Apply(db.ledger, op).value.payments[op.es[i].id]);
    hide Step, Apply, ValidOp, Run, AllSpare;
    var recorded := After(db, LedgerRequest(op));
    hide After;
    RunSpares(recorded, rqs, op.es[i].id);
    BuildLinks(Run(recorded, rqs), rq, op.es[i].id, 0);
  }

  /** From start to end: an admissible batch for an active customer, then an acceptable build into a day of the company
      that is still free, both go through, and each payment of the batch is linked exactly when the day is its entry's. */
  lemma CollectThenBuild(db: Db, op: Op, rq: Request)
    requires Inv(db.ledger) && op.CollectOp? && ValidOp(op)
    requires Admissions.BatchAdmissible(db.ledger, op.co, op.c, op.rs, op.es) && !db.ledger.customers[op.c].deleted
    requires Builds(rq) && rq.ro.company == op.co && Acceptable(rq.ro, rq.p) && rq.id !in db.rems
    requires forall r :: r in db.rems ==> !(db.rems[r].company == op.co && db.rems[r].date == rq.d)
    ensures Step(db, LedgerRequest(op)).Ok? && Step(After(db, LedgerRequest(op)), rq).Ok?
    ensures var end := After(After(db, LedgerRequest(op)), rq);
      forall i :: 0 <= i < |op.es| ==>
        && op.es[i].id in end.ledger.payments
        && end.ledger.payments[op.es[i].id].remittance == (if rq.d == op.es[i].at then Some(rq.id) else None)
  {
    var mid := After(db, LedgerRequest(op));
    assert Step(db, LedgerRequest(op)).Ok? by { CollectionAccepted(db, op); }
    RequestApplies(db, op);
    assert Step(mid, rq).Ok? by { FreeDayAccepted(mid, rq); }
    hide *;
    RunNothing(mid);
    forall i | 0 <= i < |op.es|
      ensures op.es[i].id in After(mid, rq).ledger.payments
      ensures After(mid, rq).ledger.payments[op.es[i].id].remittance
           == (if rq.d == op.es[i].at then Some(rq.id) else None)
    {
      CollectedPaymentBelongs(db, op, i, [], rq);
    }
  }

  lemma RunNothing(db: Db)
    ensures Run(db, []) == db && AllValid([]) && forall p: Id, pay :: AllSpare([], p, pay)
  {
  }

  lemma CollectionAccepted(db: Db, op: Op)
    requires Inv(db.ledger) && op.CollectOp? && ValidOp(op)
    requires Admissions.BatchAdmissible(db.ledger, op.co, op.c, op.rs, op.es) && !db.ledger.customers[op.c].deleted
    ensures Step(db, LedgerRequest(op)).Ok?
  {
    Admissions.RequestGoesThrough(db, op);
    Admissions.CollectionIs(db.ledger, op);
    assert CustomerOf(op) == Some(op.c);
    hide *;
  }

  lemma FreeDayAccepted(db: Db, rq: Request)
    requires Builds(rq) && Acceptable(rq.ro, rq.p) && rq.id !in db.rems
    requires forall r :: r in db.rems ==> !(db.rems[r].company == rq.ro.company && db.rems[r].date == rq.d)
    ensures Step(db, rq).Ok?
  {
    Finalization.BuildGoesThrough(db, rq);
    hide Step, Acceptable;
  }

  /** Editing an unlinked payment's date moves it to the builds of the new day, and of no other. */
  lemma EditedPaymentBelongs(db: Db, op: Op, rq: Request)
    requires op.EditPaymentOp? && ValidOp(op) && Step(db, LedgerRequest(op)).Ok?
    requires op.p in db.ledger.payments && db.ledger.payments[op.p].remittance == None
    requires Builds(rq) && rq.ro.company == db.ledger.payments[op.p].company && Step(After(db, LedgerRequest(op)), rq).Ok?
    ensures var end := After(After(db, LedgerRequest(op)), rq);
      && op.p in end.ledger.payments
      && end.ledger.payments[op.p].remittance == (if rq.d == op.at then Some(rq.id) else None)
      && end.ledger.payments[op.p].amount == op.amount && end.ledger.payments[op.p].containers == op.units
  {
    RequestApplies(db, op);
    PaymentEditWrites(db.ledger, op);
    hide Step, Apply, ValidOp;
    var edited := After(db, LedgerRequest(op));
    hide After;
    BuildLinks(edited, rq, op.p, 0);
  }

  /** The same for a credit line: edited to a date, it is linked by the build of that day and of no other. */
  lemma EditedLineBelongs(db: Db, op: Op, rq: Request)
    requires op.EditLineOp? && ValidOp(op) && Step(db, LedgerRequest(op)).Ok?
    requires op.l in db.ledger.lines && db.ledger.lines[op.l].remittance == None
    requires Builds(rq) && rq.ro.company == db.ledger.lines[op.l].company && Step(After(db, LedgerRequest(op)), rq).Ok?
    ensures var end := After(After(db, LedgerRequest(op)), rq);
      && op.l in end.ledger.lines
      && end.ledger.lines[op.l].remittance == (if rq.d == op.date then Some(rq.id) else None)
      && end.ledger.lines[op.l].careOf == op.careOf && end.ledger.lines[op.l].total == op.qty * op.price
  {
    RequestApplies(db, op);
    LineEditWrites(db.ledger, op);
    hide Step, Apply, ValidOp;
    var edited := After(db, LedgerRequest(op));
    hide After;
    BuildLinks(edited, rq, 0, op.l);
  }

  /** A new credit line is linked by the build of its date. */
  lemma NewLineBelongs(db: Db, op: Op, rq: Request)
    requires op.ExtendOp? && ValidOp(op) && Step(db, LedgerRequest(op)).Ok?
    requires Builds(rq) && rq.ro.company == op.line.company && Step(After(db, LedgerRequest(op)), rq).Ok?
    ensures var end := After(After(db, LedgerRequest(op)), rq);
      && op.id in end.ledger.lines
      && end.ledger.lines[op.id].remittance == (if rq.d == op.line.date then Some(rq.id) else None)
  {
    RequestApplies(db, op);
    ExtensionWrites(db.ledger, op);
    assert op.line.remittance == None;
    hide Step, Apply, ValidOp;
    var extended := After(db, LedgerRequest(op));
    hide After;
    BuildLinks(extended, rq, 0, op.id);
  }

  /** What the form lists for a day: the company's payments of the day that are free or hang from a draft of the day. */
  lemma PreviewListed(db: Db, co: Id, d: int, p: Id)
    ensures p in Preview(db, co, d)
       <==> p in db.ledger.payments
            && var pay := db.ledger.payments[p];
               && pay.company == co && BelongsTo(pay, d)
               && (pay.remittance == None
                   || exists r :: pay.remittance == Some(r) && r in db.rems && db.rems[r].status == Draft && db.rems[r].date == d)
  {
    if p in db.ledger.payments {
      var pay := db.ledger.payments[p];
      DayOfTime(pay.created, d);
      if pay.remittance.Some? { assert pay.remittance == Some(pay.remittance.value); }
    }
  }

  // ---- Every link is on its day ------------------------------------------------------------------------------

  /** Every linked payment and line is dated as the remittance it hangs from. */
  ghost predicate OnItsDay(db: Db) {
    && (forall p, r :: p in db.ledger.payments && db.ledger.payments[p].remittance == Some(r) && r in db.rems ==>
          BelongsTo(db.ledger.payments[p], db.rems[r].date))
    && (forall l, r :: l in db.ledger.lines && db.ledger.lines[l].remittance == Some(r) && r in db.rems ==>
          db.ledger.lines[l].date == db.rems[r].date)
  }

  /** An edit that moves a linked payment or line to another day than its remittance's. */
  predicate Redates(db: Db, rq: Request) {
    rq.LedgerRequest?
    && match rq.op
       case EditPaymentOp(_, _, p, _, _, at) =>
         p in db.ledger.payments && var link := db.ledger.payments[p].remittance;
         link.Some? && link.value in db.rems && db.rems[link.value].date != at
       case EditLineOp(_, l, _, _, _, date) =>
         l in db.ledger.lines && var link := db.ledger.lines[l].remittance;
         link.Some? && link.value in db.rems && db.rems[link.value].date != date
       case _ => false
  }

  /** Links and dates that an operation leaves alone, and those of the row it edits. */
  ghost predicate DatesCarried(L: Ledger, R: Ledger, op: Op) {
    && (forall p :: p in R.payments && R.payments[p].remittance.Some? ==>
          p in L.payments && R.payments[p].remittance == L.payments[p].remittance && R.payments[p].created == L.payments[p].created
          && R.payments[p].paidAt == (if op.EditPaymentOp? && op.p == p then Some(op.at) else L.payments[p].paidAt))
    && (forall l :: l in R.lines && R.lines[l].remittance.Some? ==>
          l in L.lines && R.lines[l].remittance == L.lines[l].remittance
          && R.lines[l].date == (if op.EditLineOp? && op.l == l then op.date else L.lines[l].date))
    && (op.EditPaymentOp? ==> op.p in L.payments && op.p in R.payments && R.payments[op.p].remittance == L.payments[op.p].remittance)
    && (op.EditLineOp? ==> op.l in L.lines && op.l in R.lines && R.lines[op.l].remittance == L.lines[op.l].remittance)
  }

  lemma OpCarriesDates(L: Ledger, op: Op)
    requires ValidOp(op) && Apply(L, op).Ok?
    ensures DatesCarried(L, Apply(L, op).value, op)
  {
    if op.ExtendOp? { assert op.line.remittance == None; }
    hide Apply, ValidOp, Collected;
    match op
    case CollectOp(_, _, _, _, _) => CollectCarriesDates(L, op);
    case EditPaymentOp(_, _, _, _, _, _) => PaymentEditWrites(L, op);
    case DeleteLineOp(_, _) => LineDeletionWrites(L, op);
    case DeletePaymentOp(_, _, _) => PaymentDeletionWrites(L, op);
    case ExtendOp(_, _, _) => ExtensionWrites(L, op);
    case LendOp(_, _) => LoanWrites(L, op);
    case EditLineOp(_, _, _, _, _, _) => LineEditWrites(L, op);
    case EditBorrowingOp(_, _, _, _, _) => LoanEditWrites(L, op);
    case DeleteBorrowingOp(_, _) => LoanDeletionWrites(L, op);
    case _ => CustomerWrites(L, op);
  }

  lemma CollectCarriesDates(L: Ledger, op: Op)
    requires op.CollectOp? && ValidOp(op) && Apply(L, op).Ok?
    ensures DatesCarried(L, Apply(L, op).value, op)
  {
    var R := Collect(L, op.co, op.c, op.now, op.rs, op.es).value;
    assert Apply(L, op).value == R;
    CollectionWrites(L, op);
    CollectRows(L, op.co, op.c, op.now, op.rs, op.es);
    hide *;
    BatchDates(L, R, op);
  }

  lemma BatchDates(L: Ledger, R: Ledger, op: Op)
    requires op.CollectOp?
    requires forall i :: 0 <= i < |op.es| ==> op.es[i].id !in L.payments && op.es[i].id in R.payments && RecordedAs(op, i, R.payments[op.es[i].id])
    requires forall p :: p in L.payments ==> p in R.payments && R.payments[p] == L.payments[p]
    requires forall p :: p in R.payments ==> p in L.payments || exists i :: 0 <= i < |op.es| && op.es[i].id == p
    requires R.lines.Keys == L.lines.Keys
    requires forall l :: l in L.lines ==> R.lines[l] == L.lines[l].(remaining := L.lines[l].remaining - Paid(op.es, l))
    ensures DatesCarried(L, R, op)
  {
    hide Paid;
    forall p | p in R.payments && p !in L.payments ensures R.payments[p].remittance == None {
      var i :| 0 <= i < |op.es| && op.es[i].id == p;
      assert RecordedAs(op, i, R.payments[p]);
    }
  }

  lemma LedgerStepOnDay(db: Db, op: Op)
    requires OnItsDay(db) && ValidOp(op) && Step(db, LedgerRequest(op)).Ok?
    ensures OnItsDay(After(db, LedgerRequest(op))) <==> !Redates(db, LedgerRequest(op))
  {
    RequestApplies(db, op);
    OpCarriesDates(db.ledger, op);
    hide Step, Apply, ValidOp;
    var R := After(db, LedgerRequest(op));
    hide After;
    if Redates(db, LedgerRequest(op)) {
      if op.EditPaymentOp? {
        var r := db.ledger.payments[op.p].remittance.value;
        assert R.ledger.payments[op.p].remittance == Some(r) && r in R.rems && !BelongsTo(R.ledger.payments[op.p], R.rems[r].date);
      } else {
        var r := db.ledger.lines[op.l].remittance.value;
        assert R.ledger.lines[op.l].remittance == Some(r) && r in R.rems && R.ledger.lines[op.l].date != R.rems[r].date;
      }
    }
  }

  lemma BuildOnDay(db: Db, rq: Request)
    requires LinksOk(db) && OnItsDay(db) && Builds(rq) && Step(db, rq).Ok?
    ensures OnItsDay(After(db, rq))
  {
    var R := After(db, rq);
    NewKeyIsFree(db, rq);
    hide Step, After, LinksOk, OnItsDay;
    forall p, r | p in R.ledger.payments && R.ledger.payments[p].remittance == Some(r) && r in R.rems
      ensures BelongsTo(R.ledger.payments[p], R.rems[r].date)
    {
      PaymentOnDay(db, rq, p, r);
    }
    forall l, r | l in R.ledger.lines && R.ledger.lines[l].remittance == Some(r) && r in R.rems
      ensures R.ledger.lines[l].date == R.rems[r].date
    {
      LineOnDay(db, rq, l, r);
    }
    DaysTogether(R);
  }

  lemma DaysTogether(db: Db)
    requires forall p, r :: p in db.ledger.payments && db.ledger.payments[p].remittance == Some(r) && r in db.rems ==>
      BelongsTo(db.ledger.payments[p], db.rems[r].date)
    requires forall l, r :: l in db.ledger.lines && db.ledger.lines[l].remittance == Some(r) && r in db.rems ==>
      db.ledger.lines[l].date == db.rems[r].date
    ensures OnItsDay(db)
  {
    hide BelongsTo;
  }

  /** What a build leaves under a key: the new row, or a row of another day as it was. */
  lemma RowAfterBuild(db: Db, rq: Request, r: Id)
    requires Builds(rq) && Step(db, rq).Ok? && r in After(db, rq).rems
    ensures if r == rq.id then After(db, rq).rems[r].date == rq.d
      else r in db.rems && After(db, rq).rems[r] == db.rems[r]
  {
    BuildWritesHeader(db, rq);
    hide Step, After;
  }

  /** A link after a build is the new one, given on the day, or an old one to a row that stays. */
  lemma LinkGoes(db: Db, rq: Request, link: Option<Id>, co: Id, ofDay: bool, r: Id)
    requires Builds(rq) && (link.Some? ==> link.value in db.rems) && LinkAfter(db, rq, link, co, ofDay) == Some(r)
    requires rq.id in db.rems ==> db.rems[rq.id].company == rq.ro.company && db.rems[rq.id].date == rq.d
    ensures if r == rq.id then ofDay else link == Some(r)
  {
  }

  lemma PaymentOnDay(db: Db, rq: Request, p: Id, r: Id)
    requires LinksOk(db) && OnItsDay(db) && Builds(rq) && Step(db, rq).Ok? && r in After(db, rq).rems
    requires p in db.ledger.payments && p in After(db, rq).ledger.payments
    requires After(db, rq).ledger.payments[p].remittance == Some(r)
    ensures BelongsTo(After(db, rq).ledger.payments[p], After(db, rq).rems[r].date)
  {
    hide Step, After;
    BuildLinks(db, rq, p, p);
    RowAfterBuild(db, rq, r);
    NewKeyIsFree(db, rq);
    var pay := db.ledger.payments[p];
    assert pay.remittance.Some? ==> pay.remittance.value in db.rems;
    hide LinksOk, LinkAfter;
    LinkGoes(db, rq, pay.remittance, pay.company, BelongsTo(pay, rq.d), r);
  }

  lemma LineOnDay(db: Db, rq: Request, l: Id, r: Id)
    requires LinksOk(db) && OnItsDay(db) && Builds(rq) && Step(db, rq).Ok? && r in After(db, rq).rems
    requires l in db.ledger.lines && l in After(db, rq).ledger.lines && After(db, rq).ledger.lines[l].remittance == Some(r)
    ensures After(db, rq).ledger.lines[l].date == After(db, rq).rems[r].date
  {
    hide Step, After;
    BuildLinks(db, rq, l, l);
    RowAfterBuild(db, rq, r);
    NewKeyIsFree(db, rq);
    var row := db.ledger.lines[l];
    assert row.remittance.Some? ==> row.remittance.value in db.rems;
    hide LinksOk, LinkAfter;
    LinkGoes(db, rq, row.remittance, row.company, row.date == rq.d, r);
  }

  lemma NewKeyIsFree(db: Db, rq: Request)
    requires Builds(rq) && Step(db, rq).Ok?
    ensures rq.id in db.rems ==> db.rems[rq.id].company == rq.ro.company && db.rems[rq.id].date == rq.d
    ensures After(db, rq).ledger.payments.Keys == db.ledger.payments.Keys
    ensures After(db, rq).ledger.lines.Keys == db.ledger.lines.Keys
  {
    BuildIsStored(db, rq);
    hide Step, After, BuildDay, BuiltRemittance, Acceptable;
  }

  /** Every successful step keeps all links on their days, except exactly an edit that re-dates a linked row. */
  lemma StepOnDay(db: Db, rq: Request)
    requires LinksOk(db) && OnItsDay(db) && ValidRequest(rq) && Step(db, rq).Ok?
    ensures OnItsDay(After(db, rq)) <==> !Redates(db, rq)
  {
    match rq
    case LedgerRequest(op) => LedgerStepOnDay(db, op);
    case CreateRequest(_, _, _, _, _, _, _) => BuildOnDay(db, rq);
    case SaveRequest(_, _, _, _, _) => BuildOnDay(db, rq);
    case ClearRequest(_, _) =>
      ClearReleases(db, rq);
      hide Step, After, BelongsTo;
    case FinalizeRequest(_, _, _, _, _, _) =>
      FinalizeWrites(db, rq);
      hide Step, After, BelongsTo;
    case PaidRequest(_, _, _, _) =>
      PaidWrites(db, rq);
      hide Step, After, BelongsTo;
  }

  ghost predicate NoneRedates(db: Db, rqs: seq<Request>) {
    forall i :: 0 <= i < |rqs| ==> StaysOnDay(Run(db, rqs[..i]), rqs[i])
  }

  ghost predicate StaysOnDay(db: Db, rq: Request) { Step(db, rq).Ok? ==> !Redates(db, rq) }

  /** Over every run without such an edit. */
  lemma {:induction false} RunOnDay(db: Db, rqs: seq<Request>)
    requires DbOk(db) && AllValid(rqs) && OnItsDay(db) && NoneRedates(db, rqs)
    ensures OnItsDay(Run(db, rqs))
  {
    hide Step, Redates, OnItsDay, ValidRequest, Inv, Priced, LinksOk, OnePerDay, DeletedAreClear;
    if rqs != [] {
      var n := |rqs| - 1;
      var init := rqs[..n];
      forall i | 0 <= i < n ensures StaysOnDay(Run(db, init[..i]), init[i]) {
        assert init[..i] == rqs[..i] && StaysOnDay(Run(db, rqs[..i]), rqs[i]);
      }
      RunOnDay(db, init);
      RunKeepsDbOk(db, init);
      assert StaysOnDay(Run(db, rqs[..n]), rqs[n]);
      if Step(Run(db, init), rqs[n]).Ok? { StepOnDay(Run(db, init), rqs[n]); }
    }
  }
}
