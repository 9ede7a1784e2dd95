/** The life of a draft: the form's preview of repayments is what saving links, saving again changes nothing but
    the row's key, and saving then clearing an empty day leaves no trace. */
module DraftCycle {
  import opened FiniteSums
  import opened Ledger
  import opened RemittanceModel
  import opened RemittanceServices
  import opened RunSafety
  import opened RepaymentTotals

  /** What the form lists: payments of the day that are unlinked, or linked to a draft of the same date. */
  predicate Previewed(db: Db, pay: Payment, co: Id, d: int) {
    && pay.company == co && PaidOn(pay, d)
    && (pay.remittance.None?
        || (pay.remittance.value in db.rems && db.rems[pay.remittance.value].status == Draft
            && db.rems[pay.remittance.value].date == d))
  }

  function Preview(db: Db, co: Id, d: int): set<Id> {
    set p | p in db.ledger.payments && Previewed(db, db.ledger.payments[p], co, d)
  }

  function PreviewAmounts(db: Db, co: Id, d: int): map<Id, int> {
    map p | p in db.ledger.payments && Previewed(db, db.ledger.payments[p], co, d) :: db.ledger.payments[p].amount
  }

  lemma PreviewIsEligible(db: Db, co: Id, d: int)
    requires DbOk(db) && !SomeFinalized(db, OfDay(db, co, d))
    ensures Eligible(Unlink(db.ledger, OfDay(db, co, d)), co, d) == Preview(db, co, d)
  {
    hide Inv, Priced, DeletedAreClear;
    var L, day := db.ledger, OfDay(db, co, d);
    forall p | p in L.payments
      ensures IsEligible(Unlink(L, day).payments[p], co, d) <==> Previewed(db, L.payments[p], co, d)
    {
      var link := L.payments[p].remittance;
      if link.Some? && L.payments[p].company == co {
        assert HasRemittance(db, co, link.value);
        assert link.value in day <==> db.rems[link.value].date == d;
      }
    }
  }

  lemma PreviewAmountsAgree(db: Db, co: Id, d: int)
    requires DbOk(db) && Eligible(Unlink(db.ledger, OfDay(db, co, d)), co, d) == Preview(db, co, d)
    ensures var M := Unlink(db.ledger, OfDay(db, co, d));
      RepaymentAmounts(RepaymentsOf(M, Eligible(M, co, d))) == PreviewAmounts(db, co, d)
  {
    hide DbOk;
    LinesOfPayments(db);
    hide Eligible, Previewed, PaidOn, OfDay;
    var M := Unlink(db.ledger, OfDay(db, co, d));
    assert forall p :: p in Preview(db, co, d) <==> p in db.ledger.payments && Previewed(db, db.ledger.payments[p], co, d);
    hide Preview;
    forall p | p in Preview(db, co, d) ensures RepaymentsOf(M, Preview(db, co, d))[p].amount == db.ledger.payments[p].amount {
      assert M.payments[p].line in M.lines;
    }
  }

  lemma LinesOfPayments(db: Db)
    requires DbOk(db)
    ensures forall p :: p in db.ledger.payments ==> db.ledger.payments[p].line in db.ledger.lines
  {
    hide Inv, Priced, LinksOk, OnePerDay, DeletedAreClear;
    PaymentsHaveLines(db.ledger);
  }

  /** The payments the form lists for a date are exactly those a build for that date links, and their sum is the
      repayment total it stores. */
  lemma PreviewAgreesWithSave(db: Db, rq: Request)
    requires DbOk(db) && (rq.SaveRequest? || rq.CreateRequest?) && Step(db, rq).Ok?
    ensures var R, co := Step(db, rq).value, rq.ro.company;
      && rq.id in R.rems && LinkedTo(R.ledger, rq.id) == Preview(db, co, rq.d)
      && R.rems[rq.id].figures.repayments == Sum(PreviewAmounts(db, co, rq.d))
  {
    var co := rq.ro.company;
    BuildingRequest(db, rq);
    NoneFinalized(db, rq);
    hide DbOk, Step;
    PreviewIsEligible(db, co, rq.d);
    PreviewAmountsAgree(db, co, rq.d);
    RebuildDrift(db, Step(db, rq).value, co, rq.d, rq.id, rq.id);
    hide Preview, PreviewAmounts, Eligible, OfDay, RepaymentsOf, RepaymentAmounts, Drift, LinkedTo;
  }

  // ---- Credit lines --------------------------------------------------------------------------------------

  function LinesLinkedTo(L: Ledger, r: Id): set<Id> { set l | l in L.lines && L.lines[l].remittance == Some(r) }

  /** The lines a build for the day takes: the company's lines of that date that are unlinked or hang from one of the
      drafts it replaces. */
  function LinesOfDay(db: Db, co: Id, d: int): set<Id> {
    set l | l in db.ledger.lines && db.ledger.lines[l].company == co && db.ledger.lines[l].date == d
            && (db.ledger.lines[l].remittance.None? || db.ledger.lines[l].remittance.value in OfDay(db, co, d))
  }

  /** Lines edited to another date while linked to the day's draft are released, and the day's lines are all linked. */
  lemma BuildLinksLines(db: Db, rq: Request)
    requires DbOk(db) && (rq.SaveRequest? || rq.CreateRequest?) && Step(db, rq).Ok?
    ensures LinesLinkedTo(Step(db, rq).value.ledger, rq.id) == LinesOfDay(db, rq.ro.company, rq.d)
  {
    var co, day := rq.ro.company, OfDay(db, rq.ro.company, rq.d);
    var mid := Discard(db, day);
    BuildingRequest(db, rq);
    DiscardKeepsDbOk(db, day);
    FreeLines(mid);
    StoredCreditSales(db, rq);
    hide *;
    NoLinkTo(mid, rq.id);
    LinkTakesLines(mid.ledger, rq.id, co, rq.d);
    UnlinkFreesLines(db, co, rq.d);
  }

  lemma FreeLines(db: Db)
    requires DbOk(db)
    ensures LinksOk(db)
  {
  }

  lemma LinkTakesLines(L: Ledger, id: Id, co: Id, d: int)
    requires forall l :: l in L.lines ==> L.lines[l].remittance != Some(id)
    ensures LinesLinkedTo(Link(L, id, co, d), id) == UnlinkedLines(L, co, d)
  {
  }

  function UnlinkedLines(L: Ledger, co: Id, d: int): set<Id> {
    set l | l in L.lines && L.lines[l].company == co && L.lines[l].date == d && L.lines[l].remittance.None?
  }

  lemma UnlinkFreesLines(db: Db, co: Id, d: int)
    ensures UnlinkedLines(Discard(db, OfDay(db, co, d)).ledger, co, d) == LinesOfDay(db, co, d)
  {
    hide OfDay;
  }

  function LinkedLineTotals(L: Ledger, r: Id): map<Id, int> {
    map l | l in L.lines && L.lines[l].remittance == Some(r) :: L.lines[l].total
  }

  lemma LinkedWithinDay(L: Ledger, id: Id, co: Id, d: int)
    requires forall l :: l in L.lines ==> L.lines[l].remittance != Some(id) && 0 <= L.lines[l].total
    ensures Sum(LinkedLineTotals(Link(L, id, co, d), id)) <= Sum(CreditsOn(L, co, d))
  {
    var linked, all := LinkedLineTotals(Link(L, id, co, d), id), CreditsOn(L, co, d);
    SumSplit(all, linked.Keys);
    assert (map k | k in all && k in linked.Keys :: all[k]) == linked;
    SumNonNegative(all - linked.Keys);
  }

  /** The stored credit sales cover the total of every credit line linked to the remittance, whatever the payload said. */
  lemma CreditSalesCoverLines(db: Db, rq: Request)
    requires DbOk(db) && (rq.SaveRequest? || rq.CreateRequest?) && Step(db, rq).Ok?
    ensures var R := Step(db, rq).value;
      rq.id in R.rems && Sum(LinkedLineTotals(R.ledger, rq.id)) <= R.rems[rq.id].figures.creditSales
  {
    var co, day := rq.ro.company, OfDay(db, rq.ro.company, rq.d);
    var mid := Discard(db, day);
    BuildingRequest(db, rq);
    DiscardKeepsDbOk(db, day);
    NoLinkTo(mid, rq.id);
    TotalsNonNegative(mid);
    StoredCreditSales(db, rq);
    hide *;
    LinkedWithinDay(mid.ledger, rq.id, co, rq.d);
  }

  lemma TotalsNonNegative(db: Db)
    requires DbOk(db)
    ensures LinksOk(db) && forall l :: l in db.ledger.lines ==> 0 <= db.ledger.lines[l].total
  {
    forall l | l in db.ledger.lines ensures 0 <= db.ledger.lines[l].total { assert LineOk(db.ledger, db.ledger.lines[l]); }
  }

  lemma StoredCreditSales(db: Db, rq: Request)
    requires (rq.SaveRequest? || rq.CreateRequest?) && Step(db, rq).Ok?
    ensures var R, mid := Step(db, rq).value, Discard(db, OfDay(db, rq.ro.company, rq.d));
      && rq.id in R.rems && rq.id !in mid.rems && R.ledger == Link(mid.ledger, rq.id, rq.ro.company, rq.d)
      && Sum(CreditsOn(mid.ledger, rq.ro.company, rq.d)) <= R.rems[rq.id].figures.creditSales
  {
    hide OfDay, Discard, SomeFinalized, Acceptable, Eligible, RepaymentsOf, CreditsOn, Link, BuiltChildren;
    hide TallyRiders, Unlisted, UnlistedCommissions, SalaryOf, StaffSpent, AmountOf, ActiveStaff, RepaymentAmounts;
  }

  // ---- Saving again ------------------------------------------------------------------------------------

  function RenameLink(link: Option<Id>, a: Id, b: Id): Option<Id> { if link == Some(a) then Some(b) else link }

  /** The same database with remittance row `a` stored under key `b`. */
  function Renamed(db: Db, a: Id, b: Id): Db
    requires a in db.rems
  {
    var L := db.ledger;
    Db(L.(payments := map p | p in L.payments :: L.payments[p].(remittance := RenameLink(L.payments[p].remittance, a, b)),
          lines := map l | l in L.lines :: L.lines[l].(remittance := RenameLink(L.lines[l].remittance, a, b))),
       (db.rems - {a})[b := db.rems[a]])
  }

  /** Discarding what was just stored gives back what it was stored into. */
  lemma DiscardUndoesStore(db: Db, co: Id, d: int, id: Id, rem: Remittance)
    requires LinksOk(db) && id !in db.rems
    ensures Discard(RunSafety.Stored(db, co, d, id, rem), {id}) == db
  {
    NoLinkTo(db, id);
    var M := Link(db.ledger, id, co, d);
    assert Unlink(M, {id}).payments == db.ledger.payments;
    assert Unlink(M, {id}).lines == db.ledger.lines;
    assert db.rems[id := rem] - {id} == db.rems;
  }

  lemma OnlyRemittanceOfDay(db: Db, co: Id, d: int, id: Id, rem: Remittance)
    requires OfDay(db, co, d) == {} && rem.company == co && rem.date == d
    ensures OfDay(RunSafety.Stored(db, co, d, id, rem), co, d) == {id}
  {
    var R := RunSafety.Stored(db, co, d, id, rem);
    forall r | r in R.rems && r != id ensures r !in OfDay(R, co, d) { assert r !in OfDay(db, co, d); }
  }

  lemma StoreRenames(db: Db, co: Id, d: int, a: Id, b: Id, rem: Remittance)
    requires LinksOk(db) && a !in db.rems && b !in db.rems
    ensures RunSafety.Stored(db, co, d, b, rem) == Renamed(RunSafety.Stored(db, co, d, a, rem), a, b)
  {
    NoLinkTo(db, a);
    var A, B := Link(db.ledger, a, co, d), Link(db.ledger, b, co, d);
    var R := Renamed(RunSafety.Stored(db, co, d, a, rem), a, b);
    assert R.ledger.payments == B.payments;
    assert R.ledger.lines == B.lines;
    assert (db.rems[a := rem] - {a})[b := rem] == db.rems[b := rem];
  }

  /** What saving a draft stores, and where. */
  lemma SaveStores(db: Db, ro: Roster, p: Payload, d: int, id: Id, user: Id)
    requires DbOk(db) && SaveDraft(db, ro, p, d, id, user).Ok?
    ensures var mid := Discard(db, OfDay(db, ro.company, d));
      && DbOk(mid) && id !in mid.rems && OfDay(mid, ro.company, d) == {} && Acceptable(ro, p)
      && var rem := BuiltRemittance(mid.ledger, ro, p, d, user, None);
         rem.company == ro.company && rem.date == d && rem.status == Draft
         && SaveDraft(db, ro, p, d, id, user).value == RunSafety.Stored(mid, ro.company, d, id, rem)
  {
    var day := OfDay(db, ro.company, d);
    assert SaveDraft(db, ro, p, d, id, user) == BuildDay(Discard(db, day), ro, p, d, id, user, None) by {
      hide BuildDay, Discard, OfDay, SomeFinalized;
    }
    hide SaveDraft, BuildDay, OfDay, DbOk, BuiltRemittance;
    DiscardKeepsDbOk(db, day);
    BuildStores(Discard(db, day), ro, p, d, id, user, None);
  }

  /** Saving the same payload again succeeds under any new key, and differs from saving once in that key only. */
  lemma SaveTwiceIsSaveOnce(db: Db, ro: Roster, p: Payload, d: int, a: Id, b: Id, user: Id)
    requires DbOk(db) && SaveDraft(db, ro, p, d, a, user).Ok? && b !in SaveDraft(db, ro, p, d, a, user).value.rems
    ensures var once := SaveDraft(db, ro, p, d, a, user).value;
      a in once.rems && SaveDraft(once, ro, p, d, b, user) == Ok(Renamed(once, a, b))
  {
    var once, co := SaveDraft(db, ro, p, d, a, user).value, ro.company;
    var mid := Discard(db, OfDay(db, co, d));
    var rem := BuiltRemittance(mid.ledger, ro, p, d, user, None);
    SaveStores(db, ro, p, d, a, user);
    assert once == RunSafety.Stored(mid, co, d, a, rem) && b !in mid.rems;
    OnlyRemittanceOfDay(mid, co, d, a, rem);
    DiscardUndoesStore(mid, co, d, a, rem) by { assert LinksOk(mid); }
    StoreRenames(mid, co, d, a, b, rem);
    assert !SomeFinalized(once, {a});
    assert SaveDraft(once, ro, p, d, b, user) == BuildDay(mid, ro, p, d, b, user, None) by {
      hide BuildDay, OfDay, BuiltRemittance, DbOk;
    }
    hide SaveDraft, DbOk, OfDay, Renamed, BuiltRemittance, Acceptable, Discard;
    assert BuildDay(mid, ro, p, d, b, user, None) == Ok(RunSafety.Stored(mid, co, d, b, rem));
  }

  lemma DiscardNothing(db: Db)
    ensures Discard(db, {}) == db
  {
    assert Unlink(db.ledger, {}).payments == db.ledger.payments;
    assert Unlink(db.ledger, {}).lines == db.ledger.lines;
  }

  /** Saving a draft for a day without a remittance and clearing it again restores every link, and the whole database. */
  lemma SaveThenClearIsIdentity(db: Db, ro: Roster, p: Payload, d: int, id: Id, user: Id)
    requires DbOk(db) && OfDay(db, ro.company, d) == {} && SaveDraft(db, ro, p, d, id, user).Ok?
    ensures ClearDraft(SaveDraft(db, ro, p, d, id, user).value, ro.company, d) == Ok(db)
  {
    var R, co := SaveDraft(db, ro, p, d, id, user).value, ro.company;
    var rem := BuiltRemittance(db.ledger, ro, p, d, user, None);
    DiscardNothing(db);
    SaveStores(db, ro, p, d, id, user);
    OnlyRemittanceOfDay(db, co, d, id, rem);
    DiscardUndoesStore(db, co, d, id, rem) by { assert LinksOk(db); }
    assert !SomeFinalized(R, {id});
    hide SaveDraft, DbOk, OfDay, BuiltRemittance;
  }
}
