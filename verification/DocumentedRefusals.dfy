/** Two refusals the remittance services document and do not make: negative totals are stored, and paid flags are set
    on drafts. Each is given with the exact condition under which it happens, and an input. */
module DocumentedRefusals {
  import opened FiniteSums
  import opened Ledger
  import opened LedgerProofs
  import opened RemittanceModel
  import opened RemittanceBuild
  import opened RemittanceFigures
  import opened RemittanceServices
  import opened RunSafety

  // ---- Negative totals ---------------------------------------------------------------------------------

  /** Prices, commission rates and daily rates are not negative. */
  predicate RosterOk(ro: Roster) { ro.NonNegative() && forall s :: s in ro.staff ==> 0 <= ro.staff[s] }

  predicate RepaymentsOk(reps: map<Id, Repayment>) {
    UnitsNonNegative(reps) && forall q :: q in reps ==> 0 <= reps[q].amount
  }

  predicate NegativeTotal(f: Figures) {
    f.sales < 0 || f.creditSales < 0 || f.commission < 0 || f.salary < 0 || f.expenses < 0 || f.otherSales < 0
    || f.borrowed < 0 || f.repayments < 0 || f.net < 0 || f.profit < 0 || f.tithe < 0
  }

  /** Cash brought in by the riders and from other sales. */
  ghost function CashIn(p: Payload): int { Sum(RemittedByRider(p.riders)) + p.otherSales }

  /** Commissions and salaries to be paid from it. */
  ghost function Wages(ro: Roster, p: Payload, reps: map<Id, Repayment>): int {
    Sum(Contributions(ro, p, reps)) + SalaryOf(ro, ActiveStaff(ro, p.staff))
  }

  /** What a caller can see in the payload: other sales entered negative, wages above the cash, or a negative tithe
      rate on a surplus. */
  ghost predicate EntersNegative(ro: Roster, p: Payload, reps: map<Id, Repayment>) {
    p.otherSales < 0 || CashIn(p) < Wages(ro, p, reps) || (CashIn(p) > Wages(ro, p, reps) && p.titheRate < 0)
  }

  lemma LineTallyNonNegative(ro: Roster, rider: Id, e: ProductEntry)
    requires ro.NonNegative() && EntryOk(e)
    ensures var t := LineFigures(ro, rider, e); 0 <= t.credit && 0 <= t.gross && 0 <= t.borrowed
  {
    var price := ro.Price(e.product);
    assert 0 <= price;
    assert 0 <= e.credited * price && 0 <= e.sold * price;
  }

  lemma {:induction false} LinesNonNegative(ro: Roster, rider: Id, es: seq<ProductEntry>)
    requires ro.NonNegative() && LinesOk(es)
    ensures var t := TallyLines(ro, rider, es); 0 <= t.credit && 0 <= t.gross && 0 <= t.borrowed
  {
    if es != [] {
      var init, e := es[..|es| - 1], es[|es| - 1];
      forall i | 0 <= i < |init| ensures EntryOk(init[i]) { assert init[i] == es[i]; }
      LinesNonNegative(ro, rider, init);
      LineTallyNonNegative(ro, rider, e);
      hide LineFigures;
    }
  }

  lemma {:induction false} RidersNonNegative(ro: Roster, rs: seq<RiderEntry>)
    requires ro.NonNegative() && RidersOk(ro, rs)
    ensures var t := TallyRiders(ro, rs); 0 <= t.credit && 0 <= t.gross && 0 <= t.borrowed && 0 <= t.expenses
  {
    if rs != [] {
      var init, r := rs[..|rs| - 1], rs[|rs| - 1];
      forall i | 0 <= i < |init| ensures RiderOk(ro, init[i]) { assert init[i] == rs[i]; }
      RidersNonNegative(ro, init);
      assert RiderOk(ro, r);
      LinesNonNegative(ro, r.rider, r.lines);
      NotesSumUp(r.expenses);
      hide TallyLines, AmountOf, NetCommission, RidersOk;
    }
  }

  lemma {:induction false} StaffNonNegative(ro: Roster, ss: seq<StaffEntry>)
    requires RosterOk(ro) && AllStaffOk(ss)
    ensures 0 <= SalaryOf(ro, ss) && 0 <= StaffSpent(ss)
  {
    if ss != [] {
      var init, s := ss[..|ss| - 1], ss[|ss| - 1];
      forall i | 0 <= i < |init| ensures StaffOk(init[i]) { assert init[i] == ss[i]; }
      StaffNonNegative(ro, init);
      assert StaffOk(s);
      NotesSumUp(s.expenses);
    }
  }

  lemma RepaidNonNegative(reps: map<Id, Repayment>)
    requires RepaymentsOk(reps)
    ensures 0 <= Sum(RepaymentAmounts(reps))
  {
    SumNonNegative(RepaymentAmounts(reps));
  }

  /** The figures without the sums: what `NegativeTotals` needs to know of each. */
  lemma FiguresApart(ro: Roster, p: Payload, reps: map<Id, Repayment>, dateCredits: int)
    requires Acceptable(ro, p)
    ensures var f := BuiltFigures(ro, p, reps, dateCredits);
      && f.commission + f.salary == Wages(ro, p, reps) && f.otherSales == p.otherSales
      && f.net == f.profit == CashIn(p) - Wages(ro, p, reps) && f.tithe == Max0(f.net) * p.titheRate
      && f.sales == TallyRiders(ro, p.riders).gross + p.otherSales
      && f.creditSales >= dateCredits && f.borrowed == TallyRiders(ro, p.riders).borrowed
      && f.expenses == TallyRiders(ro, p.riders).expenses + AmountOf(p.expenses) + StaffSpent(ActiveStaff(ro, p.staff))
      && f.repayments == Sum(RepaymentAmounts(reps)) && f.salary == SalaryOf(ro, ActiveStaff(ro, p.staff))
  {
    RemittedByRiderSum(ro, p.riders);
    CommissionByRider(ro, p, reps, dateCredits);
    hide TallyRiders, RemittedByRider, Contributions, UnlistedCommissions, Unlisted, SalaryOf, StaffSpent, AmountOf;
    hide ActiveStaff;
    hide BuiltChildren, FieldsOk, RiderKeysOk;
  }

  /** An acceptable payload gives a negative total exactly when its other sales are negative, its wages pass its cash,
      or it has a surplus and a negative tithe rate; every other total is non-negative whatever was entered. */
  lemma NegativeTotals(ro: Roster, p: Payload, reps: map<Id, Repayment>, dateCredits: int)
    requires Acceptable(ro, p) && RosterOk(ro) && RepaymentsOk(reps) && 0 <= dateCredits
    ensures var f := BuiltFigures(ro, p, reps, dateCredits);
      && (NegativeTotal(f) <==> EntersNegative(ro, p, reps))
      && (f.net < 0 <==> CashIn(p) < Wages(ro, p, reps))
      && (f.sales < 0 <==> p.otherSales < 0 && SoldValue(ro, AllLines(p.riders)) < -p.otherSales)
      && (f.tithe < 0 <==> CashIn(p) > Wages(ro, p, reps) && p.titheRate < 0)
      && 0 <= f.commission && 0 <= f.salary && 0 <= f.expenses && 0 <= f.creditSales && 0 <= f.borrowed && 0 <= f.repayments
  {
    FiguresApart(ro, p, reps, dateCredits);
    CommissionBounds(ro, p, reps, dateCredits);
    RidersNonNegative(ro, p.riders);
    RidersGross(ro, p.riders);
    NotesSumUp(p.expenses);
    StaffNonNegative(ro, ActiveStaff(ro, p.staff));
    RepaidNonNegative(reps);
    hide BuiltFigures, CashIn, Wages, TallyRiders, AmountOf, StaffSpent, SalaryOf, RepaymentAmounts, PositivePart;
    hide AllLines, SoldValue;
    hide Acceptable, RosterOk, RepaymentsOk, ActiveStaff;
    var f := BuiltFigures(ro, p, reps, dateCredits);
    TitheSign(f.net, p.titheRate);
  }

  lemma TitheSign(net: int, rate: int)
    ensures Max0(net) * rate < 0 <==> net > 0 && rate < 0
  {
    if net > 0 && rate < 0 { assert net * rate < 0; }
    if net > 0 && rate >= 0 { assert net * rate >= 0; }
  }

  /** What a build reads of a ledger in order is never negative. */
  lemma LedgerReadsOk(L: Ledger, co: Id, d: int)
    requires Inv(L)
    ensures RepaymentsOk(RepaymentsOf(L, Eligible(L, co, d))) && 0 <= Sum(CreditsOn(L, co, d))
  {
    hide Owed, Out, UnitsPaid;
    forall q | q in RepaymentsOf(L, Eligible(L, co, d))
      ensures 0 <= RepaymentsOf(L, Eligible(L, co, d))[q].units && 0 <= RepaymentsOf(L, Eligible(L, co, d))[q].amount
    {
      assert PaymentOk(L, L.payments[q]);
    }
    forall l | l in CreditsOn(L, co, d) ensures 0 <= CreditsOn(L, co, d)[l] { assert LineOk(L, L.lines[l]); }
    SumNonNegative(CreditsOn(L, co, d));
  }

  /** Creating on a free day succeeds on every acceptable payload, and then stores a negative total exactly as above. */
  lemma CreateStoresNegative(db: Db, ro: Roster, p: Payload, d: int, id: Id, user: Id, finalize: bool, now: int)
    requires DbOk(db) && RosterOk(ro) && id !in db.rems && OfDay(db, ro.company, d) == {}
    ensures var r := CreateRemittance(db, ro, p, d, id, user, finalize, now);
      var reps := RepaymentsOf(db.ledger, Eligible(db.ledger, ro.company, d));
      && (r.Ok? <==> Acceptable(ro, p))
      && (r.Ok? ==> id in r.value.rems && (NegativeTotal(r.value.rems[id].figures) <==> EntersNegative(ro, p, reps)))
  {
    var reps, credits := RepaymentsOf(db.ledger, Eligible(db.ledger, ro.company, d)), Sum(CreditsOn(db.ledger, ro.company, d));
    NothingToDiscard(db);
    LedgerReadsOk(db.ledger, ro.company, d);
    CreateBuilds(db, ro, p, d, id, user, finalize, now);
    hide Inv, Priced, LinksOk, OnePerDay, DeletedAreClear, CreateRemittance;
    hide Acceptable, NegativeTotal, EntersNegative, RepaymentsOk, RosterOk, RepaymentsOf, CreditsOn, Eligible;
    hide BuiltFigures, BuiltChildren;
    if Acceptable(ro, p) { NegativeTotals(ro, p, reps, credits); }
  }

  lemma NothingToDiscard(db: Db)
    ensures Discard(db, {}) == db
  {
    assert Unlink(db.ledger, {}).payments == db.ledger.payments;
    assert Unlink(db.ledger, {}).lines == db.ledger.lines;
    assert db.rems - {} == db.rems;
  }

  lemma CreateBuilds(db: Db, ro: Roster, p: Payload, d: int, id: Id, user: Id, finalize: bool, now: int)
    requires id !in db.rems && OfDay(db, ro.company, d) == {} && Discard(db, {}) == db
    ensures var r := CreateRemittance(db, ro, p, d, id, user, finalize, now);
      && (r.Ok? <==> Acceptable(ro, p))
      && (r.Ok? ==>
            && id in r.value.rems
            && r.value.rems[id].figures == BuiltFigures(ro, p, RepaymentsOf(db.ledger, Eligible(db.ledger, ro.company, d)),
                                                        Sum(CreditsOn(db.ledger, ro.company, d))))
  {
    hide Acceptable, BuiltFigures, BuiltChildren, RepaymentsOf, Eligible, CreditsOn, Link, Discard, OfDay;
  }

  // ---- An input ----------------------------------------------------------------------------------------

  /** One staff member on a daily rate of 100; nobody brings in cash. */
  function QuietDay(): Roster { Roster(0, {}, map[5 := 100], map[], map[]) }

  function PayDay(): Payload { Payload([], [], 0, 0, 0, [StaffEntry(5, None, [], [])]) }

  /** On any free day of the company it is stored with a net remittance of -100, finalized at once or not. */
  lemma NegativeNetIsStored(db: Db, d: int, id: Id, user: Id, finalize: bool, now: int)
    requires DbOk(db) && id !in db.rems && OfDay(db, 0, d) == {}
    ensures var r := CreateRemittance(db, QuietDay(), PayDay(), d, id, user, finalize, now);
      r.Ok? && id in r.value.rems && r.value.rems[id].figures.net == -100
  {
    QuietDayIs();
    hide *;
    CreateStoresNet(db, QuietDay(), PayDay(), d, id, user, finalize, now);
    NobodyRemits(QuietDay(), PayDay(), RepaymentsOf(db.ledger, Eligible(db.ledger, 0, d)));
  }

  lemma QuietDayIs()
    ensures var ro, p := QuietDay(), PayDay();
      && ro.company == 0 && ro.riders == {} && p.riders == [] && p.otherSales == 0 && Acceptable(ro, p)
      && SalaryOf(ro, ActiveStaff(ro, p.staff)) == 100
  {
    PayDayStaff();
    hide ActiveStaff, SalaryOf;
  }

  lemma CreateStoresNet(db: Db, ro: Roster, p: Payload, d: int, id: Id, user: Id, finalize: bool, now: int)
    requires id !in db.rems && OfDay(db, ro.company, d) == {} && Acceptable(ro, p)
    ensures var r := CreateRemittance(db, ro, p, d, id, user, finalize, now);
      && r.Ok? && id in r.value.rems
      && r.value.rems[id].figures.net == CashIn(p) - Wages(ro, p, RepaymentsOf(db.ledger, Eligible(db.ledger, ro.company, d)))
  {
    hide *;
    NothingToDiscard(db);
    CreateBuilds(db, ro, p, d, id, user, finalize, now);
    FiguresApart(ro, p, RepaymentsOf(db.ledger, Eligible(db.ledger, ro.company, d)), Sum(CreditsOn(db.ledger, ro.company, d)));
  }

  lemma NobodyRemits(ro: Roster, p: Payload, reps: map<Id, Repayment>)
    requires p.riders == [] && ro.riders == {}
    ensures CashIn(p) == p.otherSales && Wages(ro, p, reps) == SalaryOf(ro, ActiveStaff(ro, p.staff))
  {
    SumEmpty();
    NobodyElse(ro, p, reps);
    hide SalaryOf, ActiveStaff, Contributions;
    assert RemittedByRider(p.riders) == map[];
  }

  lemma PayDayStaff()
    ensures ActiveStaff(QuietDay(), PayDay().staff) == PayDay().staff && SalaryOf(QuietDay(), PayDay().staff) == 100
  {
    var ro, ss := QuietDay(), PayDay().staff;
    assert ss[..0] == [];
    assert ActiveStaff(ro, ss) == ActiveStaff(ro, ss[..0]) + ss;
    assert SalaryOf(ro, ss) == SalaryOf(ro, ss[..0]) + 100;
  }

  lemma NobodyElse(ro: Roster, p: Payload, reps: map<Id, Repayment>)
    requires p.riders == [] && ro.riders == {}
    ensures Contributions(ro, p, reps) == map[]
  {
    hide RepaymentCommission;
    assert Unlisted(ro, p.riders, reps) == {};
  }

  // ---- Paid flags --------------------------------------------------------------------------------------

  /** The same database with one remittance in another status. */
  function InStatus(db: Db, r: Id, s: Status): Db
    requires r in db.rems
  {
    db.(rems := db.rems[r := db.rems[r].(status := s)])
  }

  /** Setting the paid flags does not look at the status: it goes through on a draft exactly as on a finalized row. */
  lemma PaidIgnoresStatus(db: Db, co: Id, r: Id, tithes: bool, offering: bool, s: Status)
    requires HasRemittance(db, co, r)
    ensures SetPaid(db, co, r, tithes, offering).Ok? <==> !Reverts(db.rems[r], tithes, offering)
    ensures SetPaid(InStatus(db, r, s), co, r, tithes, offering)
         == (match SetPaid(db, co, r, tithes, offering) case Ok(next) => Ok(InStatus(next, r, s)) case Err(e) => Err(e))
  {
    if SetPaid(db, co, r, tithes, offering).Ok? {
      var next := SetPaid(db, co, r, tithes, offering).value;
      assert SetPaid(InStatus(db, r, s), co, r, tithes, offering).value.rems == InStatus(next, r, s).rems;
    }
  }

  /** On a draft the flag does not last: rebuilding the day stores it unset. */
  lemma RebuildForgetsPaid(db: Db, rq: Request)
    requires (rq.CreateRequest? || rq.SaveRequest?) && Step(db, rq).Ok?
    ensures rq.id in After(db, rq).rems
    ensures var rem := After(db, rq).rems[rq.id]; !rem.tithesPaid && !rem.offeringPaid
    ensures OfDay(After(db, rq), rq.ro.company, rq.d) == {rq.id}
  {
    StepIsBuild(db, rq);
    var finalized := if rq.CreateRequest? && rq.finalize then Some(rq.now) else None;
    var mid := Discard(db, OfDay(db, rq.ro.company, rq.d));
    hide Step, BuildDay, BuiltRemittance, Discard, OfDay, Acceptable, Eligible, RepaymentsOf, RepaymentAmounts;
    hide RunSafety.Stored;
    BuildStores(mid, rq.ro, rq.p, rq.d, rq.id, rq.user, finalized);
    StoredDay(mid, rq.ro.company, rq.d, rq.id, BuiltRemittance(mid.ledger, rq.ro, rq.p, rq.d, rq.user, finalized));
  }

  lemma StepIsBuild(db: Db, rq: Request)
    requires (rq.CreateRequest? || rq.SaveRequest?) && Step(db, rq).Ok?
    ensures Step(db, rq) == BuildDay(Discard(db, OfDay(db, rq.ro.company, rq.d)), rq.ro, rq.p, rq.d, rq.id, rq.user,
                                     if rq.CreateRequest? && rq.finalize then Some(rq.now) else None)
  {
    hide BuildDay, Discard, OfDay, SomeFinalized;
  }

  lemma StoredDay(db: Db, co: Id, d: int, id: Id, rem: Remittance)
    requires OfDay(db, co, d) == {} && rem.company == co && rem.date == d
    ensures var R := RunSafety.Stored(db, co, d, id, rem); id in R.rems && R.rems[id] == rem && OfDay(R, co, d) == {id}
  {
    hide Link;
    var R := RunSafety.Stored(db, co, d, id, rem);
    forall r ensures r in OfDay(R, co, d) <==> r == id {
      if r != id { assert r !in OfDay(db, co, d); }
    }
  }

  /** So any draft can be marked paid and saved again, and is unpaid. On a finalized remittance the flags last. */
  lemma MarkedDraftIsForgotten(db: Db, ro: Roster, p: Payload, d: int, id: Id, again: Id, user: Id)
    requires var save := SaveRequest(ro, p, d, id, user); Step(db, save).Ok?
    requires again !in db.rems && again != id
    ensures var paid, save := PaidRequest(ro.company, id, true, true), SaveRequest(ro, p, d, again, user);
      var drafted := After(db, SaveRequest(ro, p, d, id, user));
      var marked := After(drafted, paid);
      && Step(drafted, paid).Ok? && Step(marked, save).Ok?
      && id in marked.rems && marked.rems[id].status == Draft && marked.rems[id].tithesPaid && marked.rems[id].offeringPaid
      && var saved := After(marked, save);
         again in saved.rems && !saved.rems[again].tithesPaid && !saved.rems[again].offeringPaid
         && OfDay(saved, ro.company, d) == {again}
  {
    var first, save := SaveRequest(ro, p, d, id, user), SaveRequest(ro, p, d, again, user);
    var drafted := After(db, first);
    DraftedDay(db, ro, p, d, id, user);
    hide BuildDay, Discard, Link, Acceptable;
    var marked := After(drafted, PaidRequest(ro.company, id, true, true));
    MarkedDay(drafted, ro.company, d, id);
    hide Step, After;
    SaveOverDraft(marked, ro, p, d, id, again, user);
    RebuildForgetsPaid(marked, save);
  }

  lemma DraftedDay(db: Db, ro: Roster, p: Payload, d: int, id: Id, user: Id)
    requires Step(db, SaveRequest(ro, p, d, id, user)).Ok?
    ensures var R := After(db, SaveRequest(ro, p, d, id, user));
      && Acceptable(ro, p) && OfDay(R, ro.company, d) == {id} && id in R.rems && R.rems.Keys <= db.rems.Keys + {id}
      && R.rems[id].company == ro.company && R.rems[id].status == Draft && !R.rems[id].tithesPaid
      && !R.rems[id].offeringPaid
  {
    var save := SaveRequest(ro, p, d, id, user);
    var mid := Discard(db, OfDay(db, ro.company, d));
    StepIsBuild(db, save);
    RebuildForgetsPaid(db, save);
    assert mid.rems.Keys <= db.rems.Keys;
    hide Step, BuildDay, BuiltRemittance, Discard, OfDay, Link, Acceptable, Eligible, RepaymentsOf, RepaymentAmounts;
    BuildStores(mid, ro, p, d, id, user, None);
  }

  lemma MarkedDay(db: Db, co: Id, d: int, id: Id)
    requires id in db.rems && db.rems[id].company == co && OfDay(db, co, d) == {id} && !db.rems[id].tithesPaid
    requires !db.rems[id].offeringPaid
    ensures var paid := PaidRequest(co, id, true, true);
      && Step(db, paid).Ok?
      && var R := After(db, paid);
         && R.rems.Keys == db.rems.Keys && OfDay(R, co, d) == {id}
         && R.rems[id].status == db.rems[id].status && R.rems[id].tithesPaid && R.rems[id].offeringPaid
  {
    var R := After(db, PaidRequest(co, id, true, true));
    forall r ensures r in OfDay(R, co, d) <==> r in OfDay(db, co, d) {}
  }

  lemma SaveOverDraft(db: Db, ro: Roster, p: Payload, d: int, id: Id, again: Id, user: Id)
    requires Acceptable(ro, p) && id in db.rems && OfDay(db, ro.company, d) == {id} && db.rems[id].status == Draft
    requires again !in db.rems
    ensures Step(db, SaveRequest(ro, p, d, again, user)).Ok?
  {
    NothingLeft(db, ro.company, d);
    hide Acceptable, BuiltRemittance, Link, Unlink, OfDay;
  }
}
