/** The application's database as one object, with a method for each service. A method that fails leaves every
    table as it was; the PIN counters live in a cache and are not rolled back. */
module Station {
  import opened FiniteSums
  import opened Ledger
  import opened LedgerProofs
  import opened LedgerEffects
  import opened RemittanceModel
  import opened RemittanceServices
  import opened RunSafety
  import opened EditGate
  import AttemptLimiter
  import T = LedgerTransactions
  import RemittanceBuild
  import DraftCycle

  /** A date field as submitted. */
  datatype DateField = Blank | Malformed | On(day: int)

  /** Dates of new records default to today and may not be in the future. */
  function RecordDate(f: DateField, today: int): (r: Result<int>)
    ensures r.Ok? ==> r.value <= today
  {
    match f
    case Blank => Ok(today)
    case Malformed => Err(BadDate)
    case On(day) => if day > today then Err(FutureDate) else Ok(day)
  }

  /** Dates of edited records must be given, and are not compared with today. */
  function EditDate(f: DateField): Result<int> { if f.On? then Ok(f.day) else Err(BadDate) }

  /** What looking up an optional care-of user found. */
  datatype CareOf = NoCareOf | Unknown | User(id: Id) {
    function Key(): Option<Id> { if User? then Some(id) else None }
  }

  /** A return or payment entry as submitted; an entry without a reference is ignored. */
  datatype RawReturn = RawReturn(borrowing: Option<Id>, qty: int, at: DateField)
  datatype RawPayment = RawPayment(line: Option<Id>, units: int, amount: int, at: DateField)

  // ---- What the services check before they write ---------------------------------------------------------

  /** The active customer of the user's company. */
  predicate Active(L: Ledger, co: Id, c: Id) { HasCustomer(L, co, c) && !L.customers[c].deleted }

  function ParseReturn(L: Ledger, co: Id, c: Id, today: int, raw: RawReturn): Result<Option<ReturnEntry>> {
    if raw.borrowing.None? then Ok(None) else
    if raw.qty < 0 then Err(BadQuantity) else
    if raw.qty == 0 then Ok(None) else
    var at := RecordDate(raw.at, today);
    if at.Err? then Err(at.error) else
    var b := raw.borrowing.value;
    if !(BorrowingOfCustomer(L, c, b) && L.borrowings[b].company == co) then Err(BorrowingNotFound) else
    if raw.qty > L.borrowings[b].Outstanding() then Err(OverReturn) else
    Ok(Some(ReturnEntry(b, raw.qty, at.value)))
  }

  /** An amount left at zero for paid units is filled in at the line's price. */
  function ParsePayment(L: Ledger, co: Id, c: Id, today: int, raw: RawPayment, key: Id): Result<Option<PayEntry>> {
    if raw.line.None? then Ok(None) else
    if raw.units < 0 then Err(BadQuantity) else
    if raw.amount < 0 then Err(BadAmount) else
    if raw.units == 0 && raw.amount == 0 then Ok(None) else
    var at := RecordDate(raw.at, today);
    if at.Err? then Err(at.error) else
    var l := raw.line.value;
    if !(LineOfCustomer(L, c, l) && L.lines[l].company == co) then Err(LineNotFound) else
    if raw.units > L.lines[l].remaining then Err(OverPay) else
    Ok(Some(PayEntry(key, l, raw.units,
                     if raw.units > 0 && raw.amount == 0 then raw.units * L.lines[l].price else raw.amount, at.value)))
  }

  function ParseReturns(L: Ledger, co: Id, c: Id, today: int, raws: seq<RawReturn>): Result<seq<ReturnEntry>> {
    if raws == [] then Ok([]) else
    var init := ParseReturns(L, co, c, today, raws[..|raws| - 1]);
    if init.Err? then init else
    match ParseReturn(L, co, c, today, raws[|raws| - 1])
    case Err(e) => Err(e)
    case Ok(None) => init
    case Ok(Some(entry)) => Ok(init.value + [entry])
  }

  /** New payments take consecutive keys from `key` on. */
  function ParsePayments(L: Ledger, co: Id, c: Id, today: int, raws: seq<RawPayment>, key: Id): Result<seq<PayEntry>> {
    if raws == [] then Ok([]) else
    var init := ParsePayments(L, co, c, today, raws[..|raws| - 1], key);
    if init.Err? then init else
    match ParsePayment(L, co, c, today, raws[|raws| - 1], key + |init.value|)
    case Err(e) => Err(e)
    case Ok(None) => init
    case Ok(Some(entry)) => Ok(init.value + [entry])
  }

  function ParseCollection(L: Ledger, co: Id, c: Id, today: int, returned: seq<RawReturn>, paid: seq<RawPayment>, key: Id)
    : Result<(seq<ReturnEntry>, seq<PayEntry>)>
  {
    if !Active(L, co, c) then Err(CustomerNotFound) else
    var rs := ParseReturns(L, co, c, today, returned);
    if rs.Err? then Err(rs.error) else
    var es := ParsePayments(L, co, c, today, paid, key);
    if es.Err? then Err(es.error) else
    if rs.value == [] && es.value == [] then Err(NothingToRecord) else
    Ok((rs.value, es.value))
  }

  /** What parsing guarantees: the request is valid, and everything passes the first check. */
  lemma {:induction false} ParsedReturns(L: Ledger, co: Id, c: Id, today: int, raws: seq<RawReturn>)
    ensures var rs := ParseReturns(L, co, c, today, raws);
      rs.Ok? ==> forall i :: 0 <= i < |rs.value| ==> 0 < rs.value[i].qty && rs.value[i].at <= today && ReturnFits(L, co, c, rs.value[i])
  {
    if raws != [] { ParsedReturns(L, co, c, today, raws[..|raws| - 1]); }
  }

  lemma {:induction false} ParsedPayments(L: Ledger, co: Id, c: Id, today: int, raws: seq<RawPayment>, key: Id)
    requires forall l :: l in L.lines ==> 0 <= L.lines[l].price
    ensures var es := ParsePayments(L, co, c, today, raws, key);
      es.Ok? ==> forall i :: 0 <= i < |es.value| ==>
        var e := es.value[i];
        0 <= e.units && 0 <= e.amount && e.at <= today && e.id == key + i && PaymentFits(L, co, c, e) && (e.units > 0 || e.amount > 0)
  {
    if raws != [] { ParsedPayments(L, co, c, today, raws[..|raws| - 1], key); }
  }

  lemma FilledIn(L: Ledger, co: Id, c: Id, today: int, raw: RawPayment, key: Id)
    requires forall l :: l in L.lines ==> 0 < L.lines[l].price
    ensures var e := ParsePayment(L, co, c, today, raw, key); e.Ok? && e.value.Some? ==> 0 < e.value.value.amount
  {
    if raw.line.Some? && raw.line.value in L.lines && raw.units > 0 {
      var price := L.lines[raw.line.value].price;
      assert 0 < raw.units * price;
    }
  }

  /** A collected entry always carries money when its line has a price: units are never recorded as paid for nothing. */
  lemma {:induction false} PaidUnitsCarryMoney(L: Ledger, co: Id, c: Id, today: int, raws: seq<RawPayment>, key: Id)
    requires forall l :: l in L.lines ==> 0 < L.lines[l].price
    ensures var es := ParsePayments(L, co, c, today, raws, key);
      es.Ok? ==> forall i :: 0 <= i < |es.value| ==> 0 < es.value[i].amount
  {
    if raws != [] {
      var init := ParsePayments(L, co, c, today, raws[..|raws| - 1], key);
      PaidUnitsCarryMoney(L, co, c, today, raws[..|raws| - 1], key);
      if init.Ok? { FilledIn(L, co, c, today, raws[|raws| - 1], key + |init.value|); }
      hide ParsePayment;
    }
  }

  function DebtRow(co: Id, c: Id, product: Id, careOf: Option<Id>, qty: int, price: int, date: int, created: int): CreditLine {
    CreditLine(c, co, product, careOf, qty, qty, price, qty * price, date, created, None)
  }

  /** The typed price, or the product's when none was typed. */
  function ChosenPrice(typed: int, product: int): int { if typed > 0 then typed else product }

  // ---- What a request is refused for before anything is locked ---------------------------------------------

  function FirstOf(a: Option<Error>, b: Option<Error>): Option<Error> { if a.Some? then a else b }

  function Unless(ok: bool, e: Error): Option<Error> { if ok then None else Some(e) }

  /** `product` is the price of the looked-up product, if it was found. */
  function DebtRefusal(active: bool, product: Option<int>, careOf: CareOf, date: DateField, today: int, qty: int): Option<Error> {
    FirstOf(Unless(active, CustomerNotFound), FirstOf(Unless(product.Some?, ProductNotFound),
    FirstOf(Unless(!careOf.Unknown?, CareOfNotFound), FirstOf(Refusal(RecordDate(date, today)), Unless(0 < qty, BadQuantity)))))
  }

  function LoanRefusal(active: bool, careOf: CareOf, date: DateField, today: int, kind: Option<Kind>, qty: int): Option<Error> {
    FirstOf(Unless(active, CustomerNotFound), FirstOf(Unless(!careOf.Unknown?, CareOfNotFound),
    FirstOf(Refusal(RecordDate(date, today)), FirstOf(Unless(kind.Some?, BadKind), Unless(0 < qty, BadQuantity)))))
  }

  function LineEditRefusal(active: bool, qty: int, price: int, date: DateField, careOf: CareOf): Option<Error> {
    FirstOf(Unless(active, CustomerNotFound), FirstOf(Unless(0 <= qty, BadQuantity), FirstOf(Refusal(EditDate(date)),
    FirstOf(Unless(!careOf.Unknown?, CareOfNotFound), FirstOf(Unless(0 < price, BadPrice), Unless(0 < qty, BadQuantity))))))
  }

  function PaymentEditRefusal(active: bool, units: int, amount: int, date: DateField): Option<Error> {
    FirstOf(Unless(active, CustomerNotFound), FirstOf(Unless(0 <= units, BadQuantity), FirstOf(Refusal(EditDate(date)),
    Unless(0 < amount, BadAmount))))
  }

  function LoanEditRefusal(active: bool, borrowed: int, returned: int, date: DateField): Option<Error> {
    FirstOf(Unless(active, CustomerNotFound), FirstOf(Unless(0 <= borrowed && 0 <= returned, BadQuantity),
    FirstOf(Refusal(EditDate(date)), FirstOf(Unless(0 < borrowed, BadQuantity), Unless(returned <= borrowed, ReturnedExceedsBorrowed)))))
  }

  function Refusal<T>(r: Result<T>): Option<Error> { match r case Ok(_) => None case Err(e) => Some(e) }

  /** The request was carried out, or refused without effect and for the given reason. */
  ghost predicate Did(before: Db, after: Db, rq: Request, refusal: Option<Error>) {
    after == After(before, rq) && refusal == Refusal(Step(before, rq))
  }

  predicate BuildRefusal(e: Error) { e == PayloadRejected || e == ConstraintViolated }

  /** The same for a build. A payload can be wrong in several ways at once, and the first one met is reported. */
  ghost predicate DidBuild(before: Db, after: Db, rq: Request, refusal: Option<Error>) {
    && after == After(before, rq)
    && match Step(before, rq)
       case Ok(_) => refusal == None
       case Err(e) => refusal == Some(e) || (BuildRefusal(e) && refusal.Some? && BuildRefusal(refusal.value))
  }

  /** A service behind the edit or delete gate: an unknown record is refused as `missing` before the gate, the gate
      updates the user's counters, and only a passed gate lets the operation run. */
  ghost predicate Gated(before: Db, after: Db, s: AttemptLimiter.Counters, t: AttemptLimiter.Counters, deleting: bool, admin: bool,
                        rec: Option<Record>, missing: Error, now: int, e: AttemptLimiter.Entry, op: Op, refusal: Option<Error>) {
    if rec.None? then after == before && t == s && refusal == Some(missing) else
    Resolves(BooksOf(before), rec.value) &&
    var (gate, u) := if deleting then VerifyDelete(s, BooksOf(before), admin, rec.value, now, e)
                     else VerifyEdit(s, BooksOf(before), admin, rec.value, now, e);
    t == u && if gate == Passed then Did(before, after, LedgerRequest(op), refusal) else after == before && refusal == Some(gate.error)
  }

  function FindLine(L: Ledger, co: Id, c: Id, l: Id): Option<Record> {
    if LineOfCustomer(L, c, l) && L.lines[l].company == co then Some(OfLine(L.lines[l])) else None
  }

  function FindPayment(L: Ledger, co: Id, c: Id, p: Id): Option<Record> {
    if p in L.payments && LineOfCustomer(L, c, L.payments[p].line) && L.payments[p].company == co
    then Some(OfPayment(L.payments[p])) else None
  }

  function FindBorrowing(L: Ledger, co: Id, c: Id, b: Id): Option<Record> {
    if BorrowingOfCustomer(L, c, b) && L.borrowings[b].company == co then Some(OfBorrowing(L.borrowings[b])) else None
  }

  lemma LinkResolves(db: Db, p: Id)
    requires DbOk(db) && p in db.ledger.payments
    ensures Resolves(BooksOf(db), OfPayment(db.ledger.payments[p]))
  {
  }

  /** What a method has to do to carry out a ledger operation for an active customer. */
  lemma Carry(db: Db, op: Op)
    requires DbOk(db) && ValidOp(op) && TargetActive(db.ledger, op) && !op.MarkDeletedOp?
    ensures match Apply(db.ledger, op)
      case Ok(L) => Did(db, db.(ledger := L), LedgerRequest(op), None) && DbOk(db.(ledger := L))
      case Err(e) => Did(db, db, LedgerRequest(op), Some(e))
  {
    StepKeepsDbOk(db, LedgerRequest(op));
    hide DbOk, Apply, ValidOp, TargetActive;
  }

  lemma SoftDeleteMeans(db: Db, c: Id)
    requires DbOk(db) && c in db.ledger.customers && !db.ledger.customers[c].deleted
    ensures var rq, R := LedgerRequest(MarkDeletedOp(c)), db.(ledger := MarkDeleted(db.ledger, c).value);
      if PendingItems(db.ledger.customers[c]) then Did(db, db, rq, Some(HasPendingItems)) else Did(db, R, rq, None) && DbOk(R)
  {
    hide DbOk, Apply;
    StepKeepsDbOk(db, LedgerRequest(MarkDeletedOp(c)));
  }

  lemma ValidLimit(c: Id, limit: int)
    ensures ValidOp(SetLimitOp(c, limit))
  {
  }

  lemma ValidDebt(id: Id, row: CreditLine, start: int, qty: int, price: int)
    requires 0 < qty && 0 <= price && row.credited == row.remaining == qty && row.price == price && row.total == qty * price
    requires row.remittance.None?
    ensures ValidOp(ExtendOp(id, row, start))
  {
    assert 0 <= qty * price;
  }

  class Database {
    var customers: map<Id, Customer>
    var lines: map<Id, CreditLine>
    var payments: map<Id, Payment>
    var borrowings: map<Id, Borrowing>
    var rems: map<Id, Remittance>
    var nextKey: Id  // keys are handed out in order and never reused

    function Book(): Ledger
      reads this
    {
      Ledger(customers, lines, payments, borrowings)
    }

    function State(): Db
      reads this
    {
      Db(Book(), rems)
    }

    ghost predicate KeysBelow()
      reads this
    {
      && (forall k :: k in customers ==> k < nextKey) && (forall k :: k in lines ==> k < nextKey)
      && (forall k :: k in payments ==> k < nextKey) && (forall k :: k in borrowings ==> k < nextKey)
      && (forall k :: k in rems ==> k < nextKey)
    }

    ghost predicate Valid()
      reads this
    {
      DbOk(State()) && KeysBelow()
    }

    constructor ()
      ensures Valid() && State() == Db(Ledger(map[], map[], map[], map[]), map[])
    {
      customers, lines, payments, borrowings, rems, nextKey := map[], map[], map[], map[], map[], 0;
      new;
      assert DbOk(State());
    }

    // ---- Customers ---------------------------------------------------------------------------------------

    method CreateCustomer(co: Id, limit: int) returns (r: Result<Id>)
      requires Valid()
      modifies this
      ensures Valid() && Did(old(State()), State(), LedgerRequest(CreateOp(old(nextKey), co, limit)), Refusal(r))
      ensures r.Ok? ==> r.value == old(nextKey)
    {
      hide DbOk, Did;
      Carry(State(), CreateOp(nextKey, co, limit));
      if limit < 0 { return Err(ConstraintViolated); }
      var id := nextKey;
      customers := customers[id := Customer(co, 0, limit, 0, 0, 0, None, false)];
      nextKey := nextKey + 1;
      return Ok(id);
    }

    method DeleteCustomer(co: Id, c: Id) returns (r: Result<()>)
      requires Valid()
      modifies this
      ensures Valid()
      ensures !Active(old(Book()), co, c) ==> r == Err(CustomerNotFound) && State() == old(State())
      ensures Active(old(Book()), co, c) ==> Did(old(State()), State(), LedgerRequest(MarkDeletedOp(c)), Refusal(r))
    {
      hide DbOk, Did;
      if !Active(Book(), co, c) { return Err(CustomerNotFound); }
      SoftDeleteMeans(State(), c);
      var cust := customers[c];
      if cust.debt > 0 { return Err(HasPendingItems); }
      if cust.round + cust.slim + cust.other > 0 { return Err(HasPendingItems); }
      customers := customers[c := cust.(deleted := true)];
      return Ok(());
    }

    method UpdateLimit(co: Id, c: Id, limit: int) returns (r: Result<()>)
      requires Valid()
      modifies this
      ensures Valid()
      ensures !Active(old(Book()), co, c) ==> r == Err(CustomerNotFound) && State() == old(State())
      ensures Active(old(Book()), co, c) ==> Did(old(State()), State(), LedgerRequest(SetLimitOp(c, limit)), Refusal(r))
    {
      hide DbOk, Did, ValidOp;
      if !Active(Book(), co, c) { return Err(CustomerNotFound); }
      ValidLimit(c, limit);
      Carry(State(), SetLimitOp(c, limit));
      if limit < 0 { return Err(ConstraintViolated); }
      customers := customers[c := customers[c].(limit := limit)];
      return Ok(());
    }

    // ---- Recording ---------------------------------------------------------------------------------------

    /** `product` is the looked-up product's key and price. */
    method RecordDebt(co: Id, c: Id, product: Option<(Id, int)>, careOf: CareOf, qty: int, typedPrice: int,
                      typed: DateField, today: int, now: int) returns (r: Result<Id>)
      requires Valid() && (product.Some? ==> 0 <= product.value.1)
      modifies this
      ensures Valid()
      ensures var price := if product.Some? then Some(product.value.1) else None;
        match DebtRefusal(Active(old(Book()), co, c), price, careOf, typed, today, qty)
        case Some(e) => r == Err(e) && State() == old(State())
        case None =>
          var date := RecordDate(typed, today).value;
          var row := DebtRow(co, c, product.value.0, careOf.Key(), qty, ChosenPrice(typedPrice, price.value), date, now);
          Did(old(State()), State(), LedgerRequest(ExtendOp(old(nextKey), row, date * DAY_SECONDS)), Refusal(r))
    {
      hide DbOk, Did, ValidOp;
      if !Active(Book(), co, c) { return Err(CustomerNotFound); }
      if product.None? { return Err(ProductNotFound); }
      if careOf.Unknown? { return Err(CareOfNotFound); }
      var date := RecordDate(typed, today);
      if date.Err? { return Err(date.error); }
      if qty <= 0 { return Err(BadQuantity); }
      var price := if typedPrice > 0 then typedPrice else product.value.1;
      var total := qty * price;
      var start := date.value * DAY_SECONDS;
      var row := DebtRow(co, c, product.value.0, careOf.Key(), qty, price, date.value, now);
      ValidDebt(nextKey, row, start, qty, price);
      Carry(State(), ExtendOp(nextKey, row, start));
      var locked := customers[c];
      if locked.limit > 0 {
        var projected := locked.debt + total;
        if projected > locked.limit { return Err(LimitExceeded); }
      }
      var id := nextKey;
      lines := lines[id := row];
      customers := customers[c := locked.(debt := locked.debt + total, lastCredit := Later(locked.lastCredit, start))];
      nextKey := nextKey + 1;
      return Ok(id);
    }

    method RecordBorrowed(co: Id, c: Id, careOf: CareOf, typed: DateField, today: int, kind: Option<Kind>, qty: int, now: int)
      returns (r: Result<Id>)
      requires Valid()
      modifies this
      ensures Valid()
      ensures match LoanRefusal(Active(old(Book()), co, c), careOf, typed, today, kind, qty)
        case Some(e) => r == Err(e) && State() == old(State())
        case None =>
          var row := Borrowing(c, co, kind.value, qty, 0, RecordDate(typed, today).value, now, None);
          Did(old(State()), State(), LedgerRequest(LendOp(old(nextKey), row)), Refusal(r))
    {
      hide DbOk, Did;
      if !Active(Book(), co, c) { return Err(CustomerNotFound); }
      if careOf.Unknown? { return Err(CareOfNotFound); }
      var date := RecordDate(typed, today);
      if date.Err? { return Err(date.error); }
      if kind.None? { return Err(BadKind); }
      if qty <= 0 { return Err(BadQuantity); }
      var row := Borrowing(c, co, kind.value, qty, 0, date.value, now, None);
      Carry(State(), LendOp(nextKey, row));
      var id := nextKey;
      borrowings := borrowings[id := row];
      customers := customers[c := customers[c].AddToCounter(kind.value, qty)];
      nextKey := nextKey + 1;
      return Ok(id);
    }

    // ---- Collection ----------------------------------------------------------------------------------------

    /** Reads and checks the submitted entries, without locks. */
    method ReadCollection(co: Id, c: Id, today: int, returned: seq<RawReturn>, paid: seq<RawPayment>)
      returns (r: Result<(seq<ReturnEntry>, seq<PayEntry>)>)
      requires Active(Book(), co, c)
      ensures r == ParseCollection(Book(), co, c, today, returned, paid, nextKey)
    {
      var rs: seq<ReturnEntry> := [];
      for i := 0 to |returned|
        invariant ParseReturns(Book(), co, c, today, returned[..i]) == Ok(rs)
      {
        assert returned[..i + 1][..i] == returned[..i];
        StopsReturns(Book(), co, c, today, returned, i + 1);
        var parsed := ParseReturn(Book(), co, c, today, returned[i]);
        if parsed.Err? { return Err(parsed.error); }
        if parsed.value.None? { continue; }
        rs := rs + [parsed.value.value];
      }
      assert returned[..|returned|] == returned;
      var es: seq<PayEntry> := [];
      for i := 0 to |paid|
        invariant ParsePayments(Book(), co, c, today, paid[..i], nextKey) == Ok(es)
      {
        assert paid[..i + 1][..i] == paid[..i];
        StopsPayments(Book(), co, c, today, paid, nextKey, i + 1);
        var parsed := ParsePayment(Book(), co, c, today, paid[i], nextKey + |es|);
        if parsed.Err? { return Err(parsed.error); }
        if parsed.value.None? { continue; }
        es := es + [parsed.value.value];
      }
      assert paid[..|paid|] == paid;
      if rs == [] && es == [] { return Err(NothingToRecord); }
      return Ok((rs, es));
    }

    /** Returns and payments of one customer, all or nothing: entries are read and checked, checked again under row
        locks, and applied one by one under the database constraints. */
    method RecordCollection(co: Id, c: Id, today: int, now: int, returned: seq<RawReturn>, paid: seq<RawPayment>) returns (r: Result<int>)
      requires Valid()
      modifies this
      ensures Valid()
      ensures match ParseCollection(old(Book()), co, c, today, returned, paid, old(nextKey))
        case Err(e) => r == Err(e) && State() == old(State())
        case Ok((rs, es)) =>
          && Did(old(State()), State(), LedgerRequest(CollectOp(co, c, now, rs, es)), Refusal(r))
          && (r.Ok? ==> r.value == TotalCollected(es))
    {
      hide DbOk, Did, Collect, ParseCollection, T.ReturnSteps, T.PaySteps, T.DebtSteps, T.Run;
      if !Active(Book(), co, c) {
        InactiveParses(Book(), co, c, today, returned, paid, nextKey);
        return Err(CustomerNotFound);
      }
      var read := ReadCollection(co, c, today, returned, paid);
      if read.Err? { return Err(read.error); }
      var (rs, es) := read.value;
      var L := Book();
      ParsedIsValid(State(), co, c, today, now, returned, paid, nextKey);
      Carry(State(), CollectOp(co, c, now, rs, es));
      CollectOutcome(State(), co, c, now, rs, es);
      for i := 0 to |rs|
        invariant forall a :: 0 <= a < i ==> ReturnFits(L, co, c, rs[a])
      {
        if !ReturnFits(L, co, c, rs[i]) { return Err(Stale); }
      }
      for i := 0 to |es|
        invariant forall a :: 0 <= a < i ==> PaymentFits(L, co, c, es[a])
      {
        if !PaymentFits(L, co, c, es[i]) { return Err(Stale); }
      }
      var ok, M := ApplyEach(L, co, c, now, rs, es);
      if !ok { return Err(ConstraintViolated); }
      PaymentKeys(L, co, c, now, rs, es, nextKey);
      customers, lines, payments, borrowings := M.customers, M.lines, M.payments, M.borrowings;
      nextKey := nextKey + |es|;
      var total := Total(es);
      return Ok(total);
    }

    // ---- Edits behind the PIN gate -------------------------------------------------------------------------

    method EditCreditLine(gate: AttemptLimiter.PinGate, admin: bool, e: AttemptLimiter.Entry, co: Id, c: Id, l: Id, qty: int,
                          price: int, careOf: CareOf, typed: DateField, now: int) returns (r: Result<()>)
      requires Valid()
      modifies this, gate
      ensures Valid()
      ensures match LineEditRefusal(Active(old(Book()), co, c), qty, price, typed, careOf)
        case Some(error) => r == Err(error) && State() == old(State()) && gate.State() == old(gate.State())
        case None =>
          Gated(old(State()), State(), old(gate.State()), gate.State(), false, admin, FindLine(old(Book()), co, c, l), LineNotFound,
                now, e, EditLineOp(c, l, qty, price, careOf.Key(), typed.day), Refusal(r))
    {
      hide DbOk, Did, VerifyEdit;
      if !Active(Book(), co, c) { return Err(CustomerNotFound); }
      if qty < 0 { return Err(BadQuantity); }
      if !typed.On? { return Err(BadDate); }
      if careOf.Unknown? { return Err(CareOfNotFound); }
      if price <= 0 { return Err(BadPrice); }
      if qty <= 0 { return Err(BadQuantity); }
      if !(LineOfCustomer(Book(), c, l) && lines[l].company == co) { return Err(LineNotFound); }
      var row := lines[l];
      var verdict := VerifyLedgerEdit(gate, BooksOf(State()), admin, OfLine(row), now, e);
      if verdict.Refused? { return Err(verdict.error); }
      Carry(State(), EditLineOp(c, l, qty, price, careOf.Key(), typed.day));
      var total := qty * price;
      var paid := row.credited - row.remaining;
      var remaining := qty - paid;
      if remaining < 0 { return Err(BelowPaid); }
      var locked := customers[c];
      var projected := locked.debt + total - row.total;
      if projected < 0 { return Err(NegativeDebt); }
      if locked.limit > 0 && projected > locked.limit { return Err(LimitExceeded); }
      lines := lines[l := row.(credited := qty, remaining := remaining, price := price, total := total, careOf := careOf.Key(), date := typed.day)];
      customers := customers[c := locked.(debt := locked.debt + (total - row.total))];
      return Ok(());
    }

    method EditCreditPayment(gate: AttemptLimiter.PinGate, admin: bool, e: AttemptLimiter.Entry, co: Id, c: Id, p: Id,
                             units: int, amount: int, typed: DateField, now: int) returns (r: Result<()>)
      requires Valid()
      modifies this, gate
      ensures Valid()
      ensures match PaymentEditRefusal(Active(old(Book()), co, c), units, amount, typed)
        case Some(error) => r == Err(error) && State() == old(State()) && gate.State() == old(gate.State())
        case None =>
          Gated(old(State()), State(), old(gate.State()), gate.State(), false, admin, FindPayment(old(Book()), co, c, p), PaymentNotFound,
                now, e, EditPaymentOp(c, if p in old(payments) then old(payments)[p].line else 0, p, units, amount, typed.day), Refusal(r))
    {
      hide DbOk, Did, VerifyEdit;
      if !Active(Book(), co, c) { return Err(CustomerNotFound); }
      if units < 0 { return Err(BadQuantity); }
      if !typed.On? { return Err(BadDate); }
      if amount <= 0 { return Err(BadAmount); }
      if !(p in payments && LineOfCustomer(Book(), c, payments[p].line) && payments[p].company == co) { return Err(PaymentNotFound); }
      var pay := payments[p];
      LinkResolves(State(), p);
      var verdict := VerifyLedgerEdit(gate, BooksOf(State()), admin, OfPayment(pay), now, e);
      if verdict.Refused? { return Err(verdict.error); }
      Carry(State(), EditPaymentOp(c, pay.line, p, units, amount, typed.day));
      var row := lines[pay.line];
      var change := units - pay.containers;
      var remaining := row.remaining - change;
      if remaining < 0 { return Err(OverPay); }
      if remaining > row.credited { return Err(OverCredited); }
      var locked := customers[c];
      var projected := locked.debt + pay.amount - amount;
      if projected < 0 { return Err(NegativeDebt); }
      payments := payments[p := pay.(containers := units, amount := amount, paidAt := Some(typed.day))];
      lines := lines[pay.line := row.(remaining := row.remaining - change)];
      customers := customers[c := locked.(debt := locked.debt + (pay.amount - amount))];
      return Ok(());
    }

    method EditBorrowedContainer(gate: AttemptLimiter.PinGate, admin: bool, e: AttemptLimiter.Entry, co: Id, c: Id, b: Id,
                                 borrowed: int, returned: int, typed: DateField, now: int) returns (r: Result<()>)
      requires Valid()
      modifies this, gate
      ensures Valid()
      ensures match LoanEditRefusal(Active(old(Book()), co, c), borrowed, returned, typed)
        case Some(error) => r == Err(error) && State() == old(State()) && gate.State() == old(gate.State())
        case None =>
          Gated(old(State()), State(), old(gate.State()), gate.State(), false, admin, FindBorrowing(old(Book()), co, c, b), BorrowingNotFound,
                now, e, EditBorrowingOp(c, b, borrowed, returned, typed.day), Refusal(r))
    {
      hide DbOk, Did, VerifyEdit;
      if !Active(Book(), co, c) { return Err(CustomerNotFound); }
      if borrowed < 0 || returned < 0 { return Err(BadQuantity); }
      if !typed.On? { return Err(BadDate); }
      if borrowed <= 0 { return Err(BadQuantity); }
      if returned > borrowed { return Err(ReturnedExceedsBorrowed); }
      if !(BorrowingOfCustomer(Book(), c, b) && borrowings[b].company == co) { return Err(BorrowingNotFound); }
      var row := borrowings[b];
      var verdict := VerifyLedgerEdit(gate, BooksOf(State()), admin, OfBorrowing(row), now, e);
      if verdict.Refused? { return Err(verdict.error); }
      Carry(State(), EditBorrowingOp(c, b, borrowed, returned, typed.day));
      var change := (borrowed - returned) - (row.borrowed - row.returned);
      var locked := customers[c];
      if locked.Counter(row.kind) + change < 0 { return Err(NegativeCount); }
      borrowings := borrowings[b := row.(borrowed := borrowed, returned := returned, date := typed.day)];
      customers := customers[c := locked.AddToCounter(row.kind, change)];
      return Ok(());
    }

    // ---- Deletions behind the admin and PIN gates ------------------------------------------------------------

    method DeleteBorrowedContainer(gate: AttemptLimiter.PinGate, admin: bool, e: AttemptLimiter.Entry, co: Id, c: Id, b: Id, now: int)
      returns (r: Result<()>)
      requires Valid()
      modifies this, gate
      ensures Valid()
      ensures !Active(old(Book()), co, c) ==> r == Err(CustomerNotFound) && State() == old(State()) && gate.State() == old(gate.State())
      ensures Active(old(Book()), co, c) ==>
        Gated(old(State()), State(), old(gate.State()), gate.State(), true, admin, FindBorrowing(old(Book()), co, c, b), BorrowingNotFound,
              now, e, DeleteBorrowingOp(c, b), Refusal(r))
    {
      hide DbOk, Did, VerifyDelete;
      if !Active(Book(), co, c) { return Err(CustomerNotFound); }
      if !(BorrowingOfCustomer(Book(), c, b) && borrowings[b].company == co) { return Err(BorrowingNotFound); }
      var row := borrowings[b];
      var verdict := VerifyLedgerDelete(gate, BooksOf(State()), admin, OfBorrowing(row), now, e);
      if verdict.Refused? { return Err(verdict.error); }
      Carry(State(), DeleteBorrowingOp(c, b));
      var outstanding := row.borrowed - row.returned;
      var locked := customers[c];
      if locked.Counter(row.kind) - outstanding < 0 { return Err(NegativeCount); }
      borrowings := borrowings - {b};
      customers := customers[c := locked.AddToCounter(row.kind, -outstanding)];
      return Ok(());
    }

    method DeleteCreditPayment(gate: AttemptLimiter.PinGate, admin: bool, e: AttemptLimiter.Entry, co: Id, c: Id, p: Id, now: int)
      returns (r: Result<()>)
      requires Valid()
      modifies this, gate
      ensures Valid()
      ensures !Active(old(Book()), co, c) ==> r == Err(CustomerNotFound) && State() == old(State()) && gate.State() == old(gate.State())
      ensures Active(old(Book()), co, c) ==>
        Gated(old(State()), State(), old(gate.State()), gate.State(), true, admin, FindPayment(old(Book()), co, c, p), PaymentNotFound,
              now, e, DeletePaymentOp(c, if p in old(payments) then old(payments)[p].line else 0, p), Refusal(r))
    {
      hide DbOk, Did, VerifyDelete;
      if !Active(Book(), co, c) { return Err(CustomerNotFound); }
      if !(p in payments && LineOfCustomer(Book(), c, payments[p].line) && payments[p].company == co) { return Err(PaymentNotFound); }
      var pay := payments[p];
      LinkResolves(State(), p);
      var verdict := VerifyLedgerDelete(gate, BooksOf(State()), admin, OfPayment(pay), now, e);
      if verdict.Refused? { return Err(verdict.error); }
      Carry(State(), DeletePaymentOp(c, pay.line, p));
      if pay.remittance.Some? { return Err(LinkedToRemittance); }
      var row, locked := lines[pay.line], customers[c];
      if row.remaining + pay.containers > row.credited { return Err(ConstraintViolated); }
      payments := payments - {p};
      lines := lines[pay.line := row.(remaining := row.remaining + pay.containers)];
      customers := customers[c := locked.(debt := locked.debt + pay.amount)];
      return Ok(());
    }

    /** The money on a set of payments, added up one by one. */
    method AddUp(ps: set<Id>) returns (total: int)
      requires ps <= payments.Keys
      ensures total == Sum(AmountsIn(Book(), ps))
    {
      total := 0;
      var todo := ps;
      SumEmpty();
      assert ps - todo == {} && AmountsIn(Book(), {}) == map[];
      while todo != {}
        invariant todo <= ps && total == Sum(AmountsIn(Book(), ps - todo))
        decreases |todo|
      {
        var p :| p in todo;
        SumPut(AmountsIn(Book(), ps - todo), p, payments[p].amount);
        assert AmountsIn(Book(), ps - (todo - {p})) == AmountsIn(Book(), ps - todo)[p := payments[p].amount];
        todo := todo - {p};
        total := total + payments[p].amount;
      }
      assert ps - todo == ps;
    }

    method DeleteCreditLine(gate: AttemptLimiter.PinGate, admin: bool, e: AttemptLimiter.Entry, co: Id, c: Id, l: Id, now: int)
      returns (r: Result<()>)
      requires Valid()
      modifies this, gate
      ensures Valid()
      ensures !Active(old(Book()), co, c) ==> r == Err(CustomerNotFound) && State() == old(State()) && gate.State() == old(gate.State())
      ensures Active(old(Book()), co, c) ==>
        Gated(old(State()), State(), old(gate.State()), gate.State(), true, admin, FindLine(old(Book()), co, c, l), LineNotFound,
              now, e, DeleteLineOp(c, l), Refusal(r))
    {
      hide DbOk, Did, VerifyDelete;
      if !Active(Book(), co, c) { return Err(CustomerNotFound); }
      if !(LineOfCustomer(Book(), c, l) && lines[l].company == co) { return Err(LineNotFound); }
      var row := lines[l];
      var verdict := VerifyLedgerDelete(gate, BooksOf(State()), admin, OfLine(row), now, e);
      if verdict.Refused? { return Err(verdict.error); }
      Carry(State(), DeleteLineOp(c, l));
      var children := PaymentsOn(Book(), l);
      if exists p :: p in children && payments[p].remittance.Some? { return Err(LinkedToRemittance); }
      var collected := AddUp(children);
      CollectedIsSum(Book(), l);
      hide Collected, PaymentsOn, AmountsIn;
      var locked := customers[c];
      var outstanding := row.total - collected;
      if locked.debt - outstanding < 0 { return Err(NegativeDebt); }
      payments := payments - children;
      lines := lines - {l};
      customers := customers[c := locked.(debt := locked.debt + -outstanding)];
      return Ok(());
    }

    // ---- Remittances -----------------------------------------------------------------------------------------

    method CreateRemittance(ro: Roster, p: Payload, d: int, user: Id, finalize: bool, now: int) returns (r: Result<Id>)
      requires Valid()
      modifies this
      ensures Valid()
      ensures DidBuild(old(State()), State(), CreateRequest(ro, p, d, old(nextKey), user, finalize, now), Refusal(r))
      ensures SomeFinalized(old(State()), OfDay(old(State()), ro.company, d)) ==> r == Err(AlreadyFinalized)
    {
      hide DbOk, BuildDay, Discard, OfDay, SomeFinalized, DidBuild;
      BuildMeans(State(), CreateRequest(ro, p, d, nextKey, user, finalize, now));
      var db, day := State(), OfDay(State(), ro.company, d);
      var found := AnyFinalized(db, day);
      if found { return Err(AlreadyFinalized); }
      if day != {} {
        if !finalize { return Err(DraftExists); }
        db := DiscardEach(db, day);
      } else {
        DraftCycle.DiscardNothing(db);
      }
      var built := BuildOnto(db, ro, p, d, nextKey, user, if finalize then Some(now) else None);
      if built.Err? { return Err(built.error); }
      BuildKeys(Discard(State(), day), ro, p, d, nextKey, user, if finalize then Some(now) else None);
      DiscardKeys(State(), day);
      var id := nextKey;
      payments, lines, rems := built.value.ledger.payments, built.value.ledger.lines, built.value.rems;
      nextKey := nextKey + 1;
      return Ok(id);
    }

    method SaveRemittanceDraft(ro: Roster, p: Payload, d: int, user: Id) returns (r: Result<Id>)
      requires Valid()
      modifies this
      ensures Valid() && DidBuild(old(State()), State(), SaveRequest(ro, p, d, old(nextKey), user), Refusal(r))
      ensures SomeFinalized(old(State()), OfDay(old(State()), ro.company, d)) ==> r == Err(AlreadyFinalized)
    {
      hide DbOk, BuildDay, Discard, OfDay, SomeFinalized, DidBuild;
      BuildMeans(State(), SaveRequest(ro, p, d, nextKey, user));
      var db, day := State(), OfDay(State(), ro.company, d);
      var found := AnyFinalized(db, day);
      if found { return Err(AlreadyFinalized); }
      db := DiscardEach(db, day);
      var built := BuildOnto(db, ro, p, d, nextKey, user, None);
      if built.Err? { return Err(built.error); }
      BuildKeys(Discard(State(), day), ro, p, d, nextKey, user, None);
      DiscardKeys(State(), day);
      var id := nextKey;
      payments, lines, rems := built.value.ledger.payments, built.value.ledger.lines, built.value.rems;
      nextKey := nextKey + 1;
      return Ok(id);
    }

    /** `cleared` tells whether there was a draft to clear. */
    method DeleteDraftRemittance(co: Id, d: int) returns (r: Result<bool>)
      requires Valid()
      modifies this
      ensures Valid() && Did(old(State()), State(), ClearRequest(co, d), Refusal(r))
      ensures r.Ok? ==> (r.value <==> OfDay(old(State()), co, d) != {})
    {
      hide DbOk, Discard, OfDay, SomeFinalized, Did;
      ClearMeans(State(), ClearRequest(co, d));
      var db, day := State(), OfDay(State(), co, d);
      if day == {} {
        NoneToFinalize(db);
        DraftCycle.DiscardNothing(db);
        return Ok(false);
      }
      var found := AnyFinalized(db, day);
      if found { return Err(AlreadyFinalized); }
      db := DiscardEach(db, day);
      DiscardKeys(State(), day);
      payments, lines, rems := db.ledger.payments, db.ledger.lines, db.rems;
      return Ok(true);
    }

    method FinalizeRemittance(gate: AttemptLimiter.PinGate, admin: bool, e: AttemptLimiter.Entry, co: Id, id: Id, user: Id, now: int)
      returns (r: Result<()>)
      requires Valid()
      modifies this, gate
      ensures Valid()
      ensures !admin ==> r == Err(AdminOnly) && State() == old(State()) && gate.State() == old(gate.State())
      ensures admin ==>
        var checked := AttemptLimiter.Validate(old(gate.pin), now, e);
        && gate.pin == checked.1 && gate.ledger == old(gate.ledger)
        && Did(old(State()), State(), FinalizeRequest(co, admin, checked.0 == AttemptLimiter.Accepted, id, user, now), Refusal(r))
    {
      hide DbOk;
      if !admin { return Err(AdminOnly); }
      var verdict := gate.ValidatePin(now, e);
      var accepted := verdict == AttemptLimiter.Accepted;
      StepKeepsDbOk(State(), FinalizeRequest(co, admin, accepted, id, user, now));
      if !accepted { return Err(PinRejected); }
      if !(id in rems && rems[id].company == co) { return Err(RemittanceNotFound); }
      if rems[id].status == Status.Finalized { return Err(AlreadyFinalized); }
      rems := rems[id := rems[id].(status := Status.Finalized, finalizedBy := Some(user), finalizedAt := Some(now))];
      return Ok(());
    }

    method UpdatePaidStatus(co: Id, id: Id, tithes: bool, offering: bool) returns (r: Result<()>)
      requires Valid()
      modifies this
      ensures Valid() && Did(old(State()), State(), PaidRequest(co, id, tithes, offering), Refusal(r))
      ensures r == Err(FlagImmutable) <==> (HasRemittance(old(State()), co, id) && Reverts(old(rems)[id], tithes, offering))
    {
      StepKeepsDbOk(State(), PaidRequest(co, id, tithes, offering));
      hide DbOk;
      if !(id in rems && rems[id].company == co) { return Err(RemittanceNotFound); }
      var rem := rems[id];
      if rem.tithesPaid && !tithes { return Err(FlagImmutable); }
      if rem.offeringPaid && !offering { return Err(FlagImmutable); }
      rems := rems[id := rem.(tithesPaid := tithes, offeringPaid := offering)];
      return Ok(());
    }

    /** What the form shows before saving: the payments of the day and their total. */
    method PreviewRepayments(co: Id, d: int) returns (ps: set<Id>, total: int)
      ensures ps == DraftCycle.Preview(State(), co, d) && total == Sum(DraftCycle.PreviewAmounts(State(), co, d))
    {
      ps := DraftCycle.Preview(State(), co, d);
      total := AddUp(ps);
      assert AmountsIn(Book(), ps) == DraftCycle.PreviewAmounts(State(), co, d);
    }
  }

  ghost function FinalizedAt(rq: Request): Option<int> { if rq.CreateRequest? && rq.finalize then Some(rq.now) else None }

  /** What the two building services come down to. */
  lemma BuildMeans(db: Db, rq: Request)
    requires DbOk(db) && (rq.CreateRequest? || rq.SaveRequest?)
    ensures var day := OfDay(db, rq.ro.company, rq.d);
      if SomeFinalized(db, day) then DidBuild(db, db, rq, Some(AlreadyFinalized)) else
      if rq.CreateRequest? && day != {} && !rq.finalize then DidBuild(db, db, rq, Some(DraftExists)) else
      match BuildDay(Discard(db, day), rq.ro, rq.p, rq.d, rq.id, rq.user, FinalizedAt(rq))
      case Ok(R) => DidBuild(db, R, rq, None) && DbOk(R)
      case Err(_) => forall e :: BuildRefusal(e) ==> DidBuild(db, db, rq, Some(e))
  {
    hide DbOk, BuildDay, Discard, OfDay, SomeFinalized;
    BuildDayRefusal(Discard(db, OfDay(db, rq.ro.company, rq.d)), rq);
    StepIsBuild(db, rq);
    StepKeepsDbOk(db, rq);
    hide Step;
  }

  lemma StepIsBuild(db: Db, rq: Request)
    requires rq.CreateRequest? || rq.SaveRequest?
    ensures var day := OfDay(db, rq.ro.company, rq.d);
      Step(db, rq) == if SomeFinalized(db, day) then Err(AlreadyFinalized)
        else if rq.CreateRequest? && day != {} && !rq.finalize then Err(DraftExists)
        else BuildDay(Discard(db, day), rq.ro, rq.p, rq.d, rq.id, rq.user, FinalizedAt(rq))
  {
    hide BuildDay, Discard, OfDay, SomeFinalized;
  }

  lemma BuildDayRefusal(db: Db, rq: Request)
    requires rq.CreateRequest? || rq.SaveRequest?
    ensures var r := BuildDay(db, rq.ro, rq.p, rq.d, rq.id, rq.user, FinalizedAt(rq)); r.Err? ==> BuildRefusal(r.error)
  {
    hide BuiltRemittance, Acceptable, OfDay, Link;
  }

  lemma ClearMeans(db: Db, rq: Request)
    requires DbOk(db) && rq.ClearRequest?
    ensures var day := OfDay(db, rq.co, rq.d);
      if SomeFinalized(db, day) then Did(db, db, rq, Some(AlreadyFinalized))
      else Did(db, Discard(db, day), rq, None) && DbOk(Discard(db, day))
  {
    hide DbOk, Discard, OfDay, SomeFinalized;
    StepKeepsDbOk(db, rq);
  }

  // ---- Helpers of the remittance methods ---------------------------------------------------------------------

  method AnyFinalized(db: Db, day: set<Id>) returns (found: bool)
    ensures found <==> SomeFinalized(db, day)
  {
    found := false;
    var todo := day;
    while todo != {}
      invariant todo <= day && (found <==> SomeFinalized(db, day - todo))
      decreases |todo|
    {
      var r :| r in todo;
      assert day - (todo - {r}) == (day - todo) + {r};
      if r in db.rems && db.rems[r].status == Status.Finalized { found := true; }
      todo := todo - {r};
    }
    assert day - todo == day;
  }

  lemma NoneToFinalize(db: Db)
    ensures !SomeFinalized(db, {})
  {
  }

  lemma DiscardBoth(db: Db, a: set<Id>, r: Id)
    ensures Discard(Discard(db, a), {r}) == Discard(db, a + {r})
  {
    assert Unlink(Unlink(db.ledger, a), {r}).payments == Unlink(db.ledger, a + {r}).payments;
    assert Unlink(Unlink(db.ledger, a), {r}).lines == Unlink(db.ledger, a + {r}).lines;
    assert db.rems - a - {r} == db.rems - (a + {r});
  }

  /** Unlink and delete the drafts of a day, one after the other. */
  method DiscardEach(db: Db, day: set<Id>) returns (out: Db)
    ensures out == Discard(db, day)
  {
    out := db;
    var todo := day;
    DraftCycle.DiscardNothing(db);
    assert day - todo == {};
    while todo != {}
      invariant todo <= day && out == Discard(db, day - todo)
      decreases |todo|
    {
      hide Discard;
      var r :| r in todo;
      DiscardBoth(db, day - todo, r);
      assert day - (todo - {r}) == (day - todo) + {r};
      out := Discard(out, {r});
      todo := todo - {r};
    }
    assert day - todo == day;
  }

  lemma DiscardKeys(db: Db, day: set<Id>)
    ensures var R := Discard(db, day);
      && R.ledger.payments.Keys == db.ledger.payments.Keys && R.ledger.lines.Keys == db.ledger.lines.Keys
      && R.ledger.customers == db.ledger.customers && R.ledger.borrowings == db.ledger.borrowings
      && R.rems.Keys <= db.rems.Keys
  {
  }

  lemma BuildKeys(db: Db, ro: Roster, p: Payload, d: int, id: Id, user: Id, finalized: Option<int>)
    requires BuildDay(db, ro, p, d, id, user, finalized).Ok?
    ensures var R := BuildDay(db, ro, p, d, id, user, finalized).value;
      && R.ledger.payments.Keys == db.ledger.payments.Keys && R.ledger.lines.Keys == db.ledger.lines.Keys
      && R.ledger.customers == db.ledger.customers && R.ledger.borrowings == db.ledger.borrowings
      && R.rems.Keys == db.rems.Keys + {id}
  {
    hide BuiltRemittance, Acceptable;
  }

  method AddAll(m: map<Id, int>) returns (total: int)
    ensures total == Sum(m)
  {
    total := 0;
    var todo := m.Keys;
    SumEmpty();
    assert m - todo == map[];
    while todo != {}
      invariant todo <= m.Keys && total == Sum(m - todo)
      decreases |todo|
    {
      var k :| k in todo;
      SumPut(m - todo, k, m[k]);
      assert m - (todo - {k}) == (m - todo)[k := m[k]];
      todo := todo - {k};
      total := total + m[k];
    }
    assert m - todo == m;
  }

  /** The build against the database: gather the day's repayments and credits, build the rows and totals, link. */
  method BuildOnto(db: Db, ro: Roster, p: Payload, d: int, id: Id, user: Id, finalized: Option<int>) returns (r: Result<Db>)
    ensures r.Ok? <==> BuildDay(db, ro, p, d, id, user, finalized).Ok?
    ensures r.Ok? ==> r == BuildDay(db, ro, p, d, id, user, finalized)
    ensures r.Err? ==> r == Err(PayloadRejected) || r == Err(ConstraintViolated)
  {
    hide Acceptable, BuiltChildren, BuiltFigures, RepaymentsOf, Eligible, CreditsOn, Link;
    if id in db.rems || OfDay(db, ro.company, d) != {} { return Err(ConstraintViolated); }
    var reps := RepaymentsOf(db.ledger, Eligible(db.ledger, ro.company, d));
    var credits := AddAll(CreditsOn(db.ledger, ro.company, d));
    var built := RemittanceBuild.Build(ro, p, reps, credits);
    if built.Err? { return Err(built.error); }
    var (children, figures) := built.value;
    var rem := Remittance(ro.company, d, user, if finalized.Some? then Status.Finalized else Draft, figures, p.titheRate, p.offering,
                          false, false, if finalized.Some? then Some(user) else None, finalized, children);
    return Ok(Db(Link(db.ledger, id, ro.company, d), db.rems[id := rem]));
  }

  function AmountsIn(L: Ledger, ps: set<Id>): map<Id, int> { map p | p in L.payments && p in ps :: L.payments[p].amount }

  lemma CollectedIsSum(L: Ledger, l: Id)
    ensures Collected(L, l) == Sum(AmountsIn(L, PaymentsOn(L, l)))
  {
    var m := OwnedBy(Amounts(L), LineOf(L), l);
    SumSplit(m, PaymentsOn(L, l));
    assert (map p | p in m && p in PaymentsOn(L, l) :: m[p]) == AmountsIn(L, PaymentsOn(L, l));
    SumZero(m - PaymentsOn(L, l));
  }

  // ---- Collection requests ---------------------------------------------------------------------------------

  /** An entry that fails ends the parse with its error. */
  lemma {:induction false} StopsReturns(L: Ledger, co: Id, c: Id, today: int, raws: seq<RawReturn>, i: nat)
    requires i <= |raws|
    ensures ParseReturns(L, co, c, today, raws[..i]).Err? ==> ParseReturns(L, co, c, today, raws) == ParseReturns(L, co, c, today, raws[..i])
  {
    if i == |raws| {
      assert raws[..i] == raws;
    } else {
      StopsReturns(L, co, c, today, raws[..|raws| - 1], i);
      assert raws[..|raws| - 1][..i] == raws[..i];
    }
  }

  lemma {:induction false} StopsPayments(L: Ledger, co: Id, c: Id, today: int, raws: seq<RawPayment>, key: Id, i: nat)
    requires i <= |raws|
    ensures ParsePayments(L, co, c, today, raws[..i], key).Err? ==> ParsePayments(L, co, c, today, raws, key) == ParsePayments(L, co, c, today, raws[..i], key)
  {
    if i == |raws| {
      assert raws[..i] == raws;
    } else {
      StopsPayments(L, co, c, today, raws[..|raws| - 1], key, i);
      assert raws[..|raws| - 1][..i] == raws[..i];
    }
  }

  lemma InactiveParses(L: Ledger, co: Id, c: Id, today: int, returned: seq<RawReturn>, paid: seq<RawPayment>, key: Id)
    requires !Active(L, co, c)
    ensures ParseCollection(L, co, c, today, returned, paid, key) == Err(CustomerNotFound)
  {
  }

  /** A parsed collection is a valid request for an active customer, with fresh consecutive keys. */
  lemma ParsedIsValid(db: Db, co: Id, c: Id, today: int, now: int, returned: seq<RawReturn>, paid: seq<RawPayment>, key: Id)
    requires DbOk(db) && ParseCollection(db.ledger, co, c, today, returned, paid, key).Ok?
    ensures var (rs, es) := ParseCollection(db.ledger, co, c, today, returned, paid, key).value;
      && ValidOp(CollectOp(co, c, now, rs, es)) && TargetActive(db.ledger, CollectOp(co, c, now, rs, es))
      && forall i :: 0 <= i < |es| ==> es[i].id == key + i
  {
    hide DbOk, ParseReturns, ParsePayments, ReturnFits, PaymentFits;
    PricesNonNegative(db);
    ParsedReturns(db.ledger, co, c, today, returned);
    ParsedPayments(db.ledger, co, c, today, paid, key);
  }

  lemma PricesNonNegative(db: Db)
    requires DbOk(db)
    ensures forall l :: l in db.ledger.lines ==> 0 <= db.ledger.lines[l].price
  {
    forall l | l in db.ledger.lines ensures 0 <= db.ledger.lines[l].price { assert LineOk(db.ledger, db.ledger.lines[l]); }
  }

  /** When the re-check passes, the outcome is that of the statements run one after another. */
  lemma CollectOutcome(db: Db, co: Id, c: Id, now: int, rs: seq<ReturnEntry>, es: seq<PayEntry>)
    requires DbOk(db) && ValidOp(CollectOp(co, c, now, rs, es)) && c in db.ledger.customers
    ensures var L := db.ledger;
      && (!Recheck(L, co, c, rs, es) ==> Apply(L, CollectOp(co, c, now, rs, es)) == Err(Stale))
      && (Recheck(L, co, c, rs, es) ==>
            Apply(L, CollectOp(co, c, now, rs, es)) == Applied(T.Run(T.ReturnSteps(c, rs) + T.PaySteps(co, now, es) + T.DebtSteps(c, es), L)))
  {
    hide T.Run, T.ReturnSteps, T.PaySteps, T.DebtSteps, BatchFits, Inv, Recheck, ApplyReturns, ApplyPayments;
    var L := db.ledger;
    if Recheck(L, co, c, rs, es) {
      T.CheckedEntries(L, co, c, rs, es);
      T.RunApply(co, c, now, rs, es, L);
    }
  }

  ghost function Applied(out: Option<Ledger>): Result<Ledger> {
    match out case Some(M) => Ok(M) case None => Err(ConstraintViolated)
  }

  // ---- Applying a batch statement by statement -------------------------------------------------------------

  /** Add to the borrowing's returned count, then take the same off the customer's counter. */
  method TryReturn(L: Ledger, c: Id, r: ReturnEntry) returns (out: Option<Ledger>)
    ensures out == T.ReturnStep(c, r, L)
  {
    if r.borrowing !in L.borrowings { return None; }
    var row := L.borrowings[r.borrowing];
    var returned := row.returned + r.qty;
    if returned < 0 || returned > row.borrowed { return None; }
    var M := PutBorrowing(L, r.borrowing, row.(returned := returned, returnedAt := Some(r.at)));
    if c !in M.customers { return None; }
    var count := M.customers[c].Counter(row.kind) - r.qty;
    if count < 0 { return None; }
    return Some(PutCustomer(M, c, M.customers[c].AddToCounter(row.kind, -r.qty)));
  }

  /** Insert the payment row, then take its units off the line. */
  method TryPayment(L: Ledger, co: Id, now: int, e: PayEntry) returns (out: Option<Ledger>)
    ensures out == T.PayStep(co, now, e, L)
  {
    if e.id in L.payments || e.line !in L.lines { return None; }
    var M := PutPayment(L, e.id, PaymentRow(co, now, e));
    var remaining := M.lines[e.line].remaining - e.units;
    if remaining < 0 || remaining > M.lines[e.line].credited { return None; }
    return Some(PutLine(M, e.line, M.lines[e.line].(remaining := remaining)));
  }

  lemma {:induction false} ReturnsStayFailed(L: Ledger, c: Id, rs: seq<ReturnEntry>, i: nat)
    requires i <= |rs| && T.Run(T.ReturnSteps(c, rs[..i]), L).None?
    ensures T.Run(T.ReturnSteps(c, rs), L).None?
  {
    if i == |rs| {
      assert rs[..i] == rs;
    } else {
      var init := rs[..|rs| - 1];
      assert init[..i] == rs[..i];
      ReturnsStayFailed(L, c, init, i);
      T.RunReturnStep(c, init, rs[|rs| - 1], L);
      assert rs == init + [rs[|rs| - 1]];
    }
  }

  lemma {:induction false} PaymentsStayFailed(L: Ledger, co: Id, now: int, es: seq<PayEntry>, i: nat)
    requires i <= |es| && T.Run(T.PaySteps(co, now, es[..i]), L).None?
    ensures T.Run(T.PaySteps(co, now, es), L).None?
  {
    if i == |es| {
      assert es[..i] == es;
    } else {
      var init := es[..|es| - 1];
      assert init[..i] == es[..i];
      PaymentsStayFailed(L, co, now, init, i);
      T.RunPayStep(co, now, init, es[|es| - 1], L);
      assert es == init + [es[|es| - 1]];
    }
  }

  method ApplyReturnEntries(L: Ledger, c: Id, rs: seq<ReturnEntry>) returns (out: Option<Ledger>)
    ensures out == T.Run(T.ReturnSteps(c, rs), L)
  {
    hide T.ReturnSteps, T.Run, T.ReturnStep;
    T.RunNothing(L);
    assert T.ReturnSteps(c, rs[..0]) == [] by { T.NoReturns(c, rs[..0]); }
    var M := L;
    for i := 0 to |rs|
      invariant T.Run(T.ReturnSteps(c, rs[..i]), L) == Some(M)
    {
      assert rs[..i + 1] == rs[..i] + [rs[i]];
      T.RunReturnStep(c, rs[..i], rs[i], L);
      out := TryReturn(M, c, rs[i]);
      if out.None? {
        ReturnsStayFailed(L, c, rs, i + 1);
        return;
      }
      M := out.value;
    }
    assert rs[..|rs|] == rs;
    out := Some(M);
  }

  method ApplyPaymentEntries(L: Ledger, co: Id, now: int, es: seq<PayEntry>) returns (out: Option<Ledger>)
    ensures out == T.Run(T.PaySteps(co, now, es), L)
  {
    hide T.PaySteps, T.Run, T.PayStep;
    T.RunNothing(L);
    assert T.PaySteps(co, now, es[..0]) == [] by { T.NoPayments(co, now, es[..0]); }
    var M := L;
    for i := 0 to |es|
      invariant T.Run(T.PaySteps(co, now, es[..i]), L) == Some(M)
    {
      assert es[..i + 1] == es[..i] + [es[i]];
      T.RunPayStep(co, now, es[..i], es[i], L);
      out := TryPayment(M, co, now, es[i]);
      if out.None? {
        PaymentsStayFailed(L, co, now, es, i + 1);
        return;
      }
      M := out.value;
    }
    assert es[..|es|] == es;
    out := Some(M);
  }

  /** The batch: every return, every payment, and the balance, or nothing. */
  method ApplyEach(L: Ledger, co: Id, c: Id, now: int, rs: seq<ReturnEntry>, es: seq<PayEntry>) returns (ok: bool, M: Ledger)
    ensures T.Run(T.ReturnSteps(c, rs) + T.PaySteps(co, now, es) + T.DebtSteps(c, es), L) == if ok then Some(M) else None
  {
    hide T.ReturnSteps, T.PaySteps, T.Run, T.DebtSteps;
    T.RunConcat(T.ReturnSteps(c, rs), T.PaySteps(co, now, es), L);
    T.RunConcat(T.ReturnSteps(c, rs) + T.PaySteps(co, now, es), T.DebtSteps(c, es), L);
    var out := ApplyReturnEntries(L, c, rs);
    if out.None? { return false, L; }
    M := out.value;
    out := ApplyPaymentEntries(M, co, now, es);
    if out.None? { return false, L; }
    M := out.value;
    var total := Total(es);
    T.RunDebt(c, es, M);
    if total > 0 {
      if c !in M.customers || M.customers[c].debt - total < 0 { return false, L; }
      M := PutCustomer(M, c, M.customers[c].(debt := M.customers[c].debt - total));
    }
    ok := true;
  }

  method Total(es: seq<PayEntry>) returns (total: int)
    ensures total == TotalCollected(es)
  {
    total := 0;
    for i := 0 to |es|
      invariant total == TotalCollected(es[..i])
    {
      assert es[..i + 1][..i] == es[..i];
      total := total + es[i].amount;
    }
    assert es[..|es|] == es;
  }

  lemma PaymentKeys(L: Ledger, co: Id, c: Id, now: int, rs: seq<ReturnEntry>, es: seq<PayEntry>, key: Id)
    requires ValidOp(CollectOp(co, c, now, rs, es)) && Collect(L, co, c, now, rs, es).Ok?
    requires forall i :: 0 <= i < |es| ==> es[i].id == key + i
    requires forall p :: p in L.payments ==> p < key
    ensures var R := Collect(L, co, c, now, rs, es).value;
      && (forall p :: p in R.payments ==> p < key + |es|)
      && R.customers.Keys == L.customers.Keys && R.lines.Keys == L.lines.Keys && R.borrowings.Keys == L.borrowings.Keys
  {
    CollectRows(L, co, c, now, rs, es);
    CollectBalances(L, co, c, now, rs, es);
    NewPaymentsRows(co, now, es);
    hide Collect, NewPayments, TotalCollected, Paid, Returned, ReturnedOfKind, FreshKeys;
  }
}
