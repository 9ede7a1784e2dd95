/** Finalizing: which requests do it, what they write, and that nothing can be built, cleared or finalized over it in
    any run that follows. */
module Finalization {
  import opened FiniteSums
  import opened Ledger
  import opened RemittanceModel
  import opened RemittanceServices
  import opened RunSafety

  /** Finalizing succeeds exactly for an administrator with an accepted PIN on a draft of the own company, and then the
      row is finalized by that user at that time and nothing else in the database differs. */
  lemma FinalizeWrites(db: Db, rq: Request)
    requires rq.FinalizeRequest?
    ensures Step(db, rq).Ok?
       <==> rq.admin && rq.pinAccepted && rq.r in db.rems && db.rems[rq.r].company == rq.co && db.rems[rq.r].status == Draft
    ensures Step(db, rq).Ok? ==>
      && rq.r in db.rems && rq.r in After(db, rq).rems
      && var was, now := db.rems[rq.r], After(db, rq).rems[rq.r];
         && now.status == Finalized && now.finalizedBy == Some(rq.user) && now.finalizedAt == Some(rq.now)
         && now == was.(status := now.status, finalizedBy := now.finalizedBy, finalizedAt := now.finalizedAt)
         && After(db, rq) == db.(rems := db.rems[rq.r := now])
    ensures Step(db, rq).Err? ==> After(db, rq) == db
  {
  }

  /** A row is finalized, and its day is taken. */
  predicate IsFinal(db: Db, r: Id) { r in db.rems && db.rems[r].status == Finalized }

  /** The requests that would build over, clear or finalize again. */
  predicate Aims(rq: Request, r: Id, rem: Remittance) {
    match rq
    case CreateRequest(ro, _, d, _, _, _, _) => ro.company == rem.company && d == rem.date
    case SaveRequest(ro, _, d, _, _) => ro.company == rem.company && d == rem.date
    case ClearRequest(co, d) => co == rem.company && d == rem.date
    case FinalizeRequest(co, admin, pinAccepted, s, _, _) => s == r && co == rem.company && admin && pinAccepted
    case _ => false
  }

  lemma AimsIsRefused(db: Db, rq: Request, r: Id)
    requires IsFinal(db, r) && Aims(rq, r, db.rems[r])
    ensures Step(db, rq) == Err(AlreadyFinalized)
  {
    if !rq.FinalizeRequest? {
      assert r in OfDay(db, db.rems[r].company, db.rems[r].date);
      assert SomeFinalized(db, OfDay(db, db.rems[r].company, db.rems[r].date));
    }
    hide BuildDay, Discard, OfDay, SomeFinalized;
  }

  /** After any further run, a request that aims at the finalized day or row is refused, and as already finalized. */
  lemma FinalForGood(db: Db, r: Id, rqs: seq<Request>, rq: Request)
    requires DbOk(db) && IsFinal(db, r) && AllValid(rqs) && Aims(rq, r, db.rems[r])
    ensures IsFinal(Run(db, rqs), r) && Step(Run(db, rqs), rq) == Err(AlreadyFinalized)
    ensures After(Run(db, rqs), rq) == Run(db, rqs)
  {
    RunKeepsFinalized(db, rqs, r);
    assert OnlyFlagsSet(db.rems[r], Run(db, rqs).rems[r]);
    hide DbOk, Run, LinkedTo;
    AimsIsRefused(Run(db, rqs), rq, r);
  }

  /** A successful finalize request is the last of its kind: whatever runs after it, nothing is built over its day, it is
      not cleared, and it is not finalized again. */
  lemma FinalizeIsFinal(db: Db, rq: Request, rqs: seq<Request>, later: Request)
    requires DbOk(db) && rq.FinalizeRequest? && Step(db, rq).Ok? && AllValid(rqs)
    requires rq.r in db.rems && Aims(later, rq.r, db.rems[rq.r])
    ensures Step(Run(After(db, rq), rqs), later) == Err(AlreadyFinalized)
  {
    FinalizeWrites(db, rq);
    StepKeepsDbOk(db, rq);
    hide DbOk, Run, Step, After;
    FinalForGood(After(db, rq), rq.r, rqs, later);
  }

  /** What a build stores around the figures and children. A create request stores a finalized row exactly when it
      finalizes, a save request never does. */
  lemma BuildWritesHeader(db: Db, rq: Request)
    requires (rq.CreateRequest? || rq.SaveRequest?) && Step(db, rq).Ok?
    ensures rq.id in After(db, rq).rems
    ensures var rem, final := After(db, rq).rems[rq.id], rq.CreateRequest? && rq.finalize;
      && (rem.status == Finalized <==> final)
      && rem.finalizedBy == (if final then Some(rq.user) else None) && rem.finalizedAt == (if final then Some(rq.now) else None)
      && rem.company == rq.ro.company && rem.date == rq.d && rem.createdBy == rq.user
      && rem.titheRate == rq.p.titheRate && rem.offering == rq.p.offering && !rem.tithesPaid && !rem.offeringPaid
    ensures forall r :: r in After(db, rq).rems && r != rq.id ==> r in db.rems && After(db, rq).rems[r] == db.rems[r]
    ensures forall r :: r in db.rems && r !in After(db, rq).rems ==>
      db.rems[r].company == rq.ro.company && db.rems[r].date == rq.d && db.rems[r].status == Draft
  {
    BuildIsStored(db, rq);
    var day := OfDay(db, rq.ro.company, rq.d);
    NoneFinalized(db, rq);
    forall r | r in day ensures db.rems[r].status == Draft { assert r in day && r in db.rems; }
    hide Step, BuildDay, Unlink, Link, Eligible, RepaymentsOf, CreditsOn, BuiltFigures, BuiltChildren, Acceptable;
  }

  lemma BuildIsStored(db: Db, rq: Request)
    requires (rq.CreateRequest? || rq.SaveRequest?) && Step(db, rq).Ok?
    ensures var mid, final := Discard(db, OfDay(db, rq.ro.company, rq.d)), rq.CreateRequest? && rq.finalize;
      && rq.id !in mid.rems
      && After(db, rq).rems
         == mid.rems[rq.id := BuiltRemittance(mid.ledger, rq.ro, rq.p, rq.d, rq.user, if final then Some(rq.now) else None)]
      && After(db, rq).ledger == Link(mid.ledger, rq.id, rq.ro.company, rq.d)
      && Acceptable(rq.ro, rq.p)
  {
    hide OfDay, Discard, SomeFinalized, BuiltRemittance, Link, Acceptable;
  }

  /** The company has a remittance of the day with the given status. */
  predicate Taken(db: Db, co: Id, d: int, status: Status) {
    exists r :: r in db.rems && db.rems[r].company == co && db.rems[r].date == d && db.rems[r].status == status
  }

  /** When a build goes through: the day has no finalized remittance, a create request that does not finalize finds no
      draft either, the payload is acceptable, and the new key is free once the day's drafts are gone. */
  lemma BuildGoesThrough(db: Db, rq: Request)
    requires rq.CreateRequest? || rq.SaveRequest?
    ensures var co, meets := rq.ro.company, rq.CreateRequest? && !rq.finalize && Taken(db, rq.ro.company, rq.d, Draft);
      && (Taken(db, co, rq.d, Finalized) ==> Step(db, rq) == Err(AlreadyFinalized))
      && (!Taken(db, co, rq.d, Finalized) && meets ==> Step(db, rq) == Err(DraftExists))
      && (!Taken(db, co, rq.d, Finalized) && !meets && !Acceptable(rq.ro, rq.p) ==> Step(db, rq) == Err(PayloadRejected))
      && (Step(db, rq).Ok? <==>
            && !Taken(db, co, rq.d, Finalized) && !meets && Acceptable(rq.ro, rq.p)
            && (rq.id in db.rems ==> db.rems[rq.id].company == co && db.rems[rq.id].date == rq.d))
  {
    var day := OfDay(db, rq.ro.company, rq.d);
    DayTaken(db, rq.ro.company, rq.d);
    var mid := Discard(db, day);
    assert OfDay(mid, rq.ro.company, rq.d) == {} && (rq.id in mid.rems <==> rq.id in db.rems && rq.id !in day);
    hide SomeFinalized, Taken, Discard, Acceptable, BuiltRemittance, Link;
  }

  lemma DayTaken(db: Db, co: Id, d: int)
    ensures SomeFinalized(db, OfDay(db, co, d)) <==> Taken(db, co, d, Finalized)
    ensures OfDay(db, co, d) != {} <==> Taken(db, co, d, Finalized) || Taken(db, co, d, Draft)
  {
    if OfDay(db, co, d) != {} {
      var r :| r in OfDay(db, co, d);
      assert db.rems[r].status == Finalized || db.rems[r].status == Draft;
    }
    if r :| r in db.rems && db.rems[r].company == co && db.rems[r].date == d {
      assert r in OfDay(db, co, d);
    }
    if Taken(db, co, d, Finalized) {
      var r :| r in db.rems && db.rems[r].company == co && db.rems[r].date == d && db.rems[r].status == Finalized;
      assert r in OfDay(db, co, d);
    }
  }

  /** The same for a row finalized at once: from then on its day is closed. */
  lemma CreateFinalizedIsFinal(db: Db, rq: Request, rqs: seq<Request>, later: Request)
    requires DbOk(db) && rq.CreateRequest? && rq.finalize && Step(db, rq).Ok? && AllValid(rqs)
    requires match later
      case CreateRequest(ro, _, d, _, _, _, _) => ro.company == rq.ro.company && d == rq.d
      case SaveRequest(ro, _, d, _, _) => ro.company == rq.ro.company && d == rq.d
      case ClearRequest(co, d) => co == rq.ro.company && d == rq.d
      case FinalizeRequest(co, admin, pinAccepted, s, _, _) => s == rq.id && co == rq.ro.company && admin && pinAccepted
      case _ => false
    ensures Step(Run(After(db, rq), rqs), later) == Err(AlreadyFinalized)
  {
    BuildWritesHeader(db, rq);
    StepKeepsDbOk(db, rq);
    hide DbOk, Run, Step, After, OfDay;
    FinalForGood(After(db, rq), rq.id, rqs, later);
  }

  // ---- The paid flags ------------------------------------------------------------------------------------

  /** Setting the flags of a remittance of the own company goes through exactly when it takes back none that is set, and
      then writes both as asked, and nothing else. */
  lemma PaidWrites(db: Db, rq: Request)
    requires rq.PaidRequest?
    ensures Step(db, rq).Ok? <==>
      && rq.r in db.rems && db.rems[rq.r].company == rq.co
      && (db.rems[rq.r].tithesPaid ==> rq.tithes) && (db.rems[rq.r].offeringPaid ==> rq.offering)
    ensures Step(db, rq).Ok? ==>
      && rq.r in db.rems && rq.r in After(db, rq).rems
      && var now := After(db, rq).rems[rq.r];
         && now.tithesPaid == rq.tithes && now.offeringPaid == rq.offering
         && now == db.rems[rq.r].(tithesPaid := now.tithesPaid, offeringPaid := now.offeringPaid)
         && After(db, rq) == db.(rems := db.rems[rq.r := now])
  {
  }

  /** Clearing a day takes away its draft and releases what hung from it; no other remittance and no other link moves. */
  lemma ClearReleases(db: Db, rq: Request)
    requires rq.ClearRequest? && Step(db, rq).Ok?
    ensures var R := After(db, rq);
      && (forall r :: r in R.rems <==> r in db.rems && !(db.rems[r].company == rq.co && db.rems[r].date == rq.d))
      && (forall r :: r in R.rems ==> R.rems[r] == db.rems[r])
      && R.ledger.customers == db.ledger.customers && R.ledger.borrowings == db.ledger.borrowings
      && R.ledger.payments.Keys == db.ledger.payments.Keys && R.ledger.lines.Keys == db.ledger.lines.Keys
      && (forall p :: p in R.ledger.payments ==>
            R.ledger.payments[p] == db.ledger.payments[p].(remittance := Released(db, R, db.ledger.payments[p].remittance)))
      && (forall l :: l in R.ledger.lines ==>
            R.ledger.lines[l] == db.ledger.lines[l].(remittance := Released(db, R, db.ledger.lines[l].remittance)))
  {
  }

  /** Clearing is refused exactly over a finalized remittance of the day; on a day without any it changes nothing. */
  lemma ClearGoesThrough(db: Db, rq: Request)
    requires rq.ClearRequest?
    ensures Step(db, rq) == Err(AlreadyFinalized) <==> Taken(db, rq.co, rq.d, Finalized)
    ensures Step(db, rq).Ok? <==> !Taken(db, rq.co, rq.d, Finalized)
    ensures !Taken(db, rq.co, rq.d, Finalized) && !Taken(db, rq.co, rq.d, Draft) ==> After(db, rq) == db
  {
    DayTaken(db, rq.co, rq.d);
    if OfDay(db, rq.co, rq.d) == {} { assert Unlink(db.ledger, {}) == db.ledger; }
    hide SomeFinalized, Taken;
  }

  /** A link survives unless its remittance was there and is gone. */
  function Released(db: Db, R: Db, link: Option<Id>): Option<Id> {
    if link.Some? && link.value in db.rems && link.value !in R.rems then None else link
  }
}
