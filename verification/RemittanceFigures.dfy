/** What the built totals mean: where the commission comes from, how it reacts to remitted cash, and what the
    history and detail pages can recover from the stored rows. */
module RemittanceFigures {
  import opened FiniteSums
  import opened Ledger
  import opened RemittanceModel
  import opened RemittanceBuild

  // ---- Sales and payables ----------------------------------------------------------------------------

  /** Every line of the payload, whether or not it gets a row. */
  function AllLines(rs: seq<RiderEntry>): seq<ProductEntry> {
    if rs == [] then [] else AllLines(rs[..|rs| - 1]) + rs[|rs| - 1].lines
  }

  function SoldValue(ro: Roster, es: seq<ProductEntry>): int {
    if es == [] then 0 else SoldValue(ro, es[..|es| - 1]) + es[|es| - 1].sold * ro.Price(es[|es| - 1].product)
  }

  lemma {:induction false} SoldValueConcat(ro: Roster, a: seq<ProductEntry>, b: seq<ProductEntry>)
    ensures SoldValue(ro, a + b) == SoldValue(ro, a) + SoldValue(ro, b)
  {
    if b == [] {
      assert a + b == a;
    } else {
      assert (a + b)[..|a + b| - 1] == a + b[..|b| - 1];
      SoldValueConcat(ro, a, b[..|b| - 1]);
    }
  }

  lemma {:induction false} GrossIsSoldValue(ro: Roster, rider: Id, es: seq<ProductEntry>)
    ensures TallyLines(ro, rider, es).gross == SoldValue(ro, es)
  {
    if es != [] { GrossIsSoldValue(ro, rider, es[..|es| - 1]); }
  }

  lemma {:induction false} RidersGross(ro: Roster, rs: seq<RiderEntry>)
    ensures TallyRiders(ro, rs).gross == SoldValue(ro, AllLines(rs))
  {
    if rs != [] {
      var r := rs[|rs| - 1];
      RidersGross(ro, rs[..|rs| - 1]);
      GrossIsSoldValue(ro, r.rider, r.lines);
      SoldValueConcat(ro, AllLines(rs[..|rs| - 1]), r.lines);
    }
  }

  /** Total sales are sold quantity at price over all payload lines, those the row rule skips included, plus
      other sales. */
  lemma SalesCountEveryLine(ro: Roster, p: Payload, reps: map<Id, Repayment>, dateCredits: int)
    ensures BuiltFigures(ro, p, reps, dateCredits).sales == SoldValue(ro, AllLines(p.riders)) + p.otherSales
  {
    RidersGross(ro, p.riders);
  }

  /** The payable without the per-line clamp at zero. */
  function UnclampedPayable(ro: Roster, es: seq<ProductEntry>): int {
    if es == [] then 0 else
    var e := es[|es| - 1];
    UnclampedPayable(ro, es[..|es| - 1]) + (e.sold - e.credited + e.repaid) * ro.Price(e.product)
  }

  predicate Clamps(ro: Roster, e: ProductEntry) { e.sold - e.credited + e.repaid < 0 && ro.Price(e.product) != 0 }

  lemma LineClamp(ro: Roster, e: ProductEntry)
    requires ro.NonNegative()
    ensures var unclamped := (e.sold - e.credited + e.repaid) * ro.Price(e.product);
      && unclamped <= UnitsDue(e) * ro.Price(e.product)
      && (unclamped == UnitsDue(e) * ro.Price(e.product) <==> !Clamps(ro, e))
  {
    var n, price := e.sold - e.credited + e.repaid, ro.Price(e.product);
    assert 0 <= price;
    if n < 0 && price > 0 { assert n * price < 0; }
  }

  /** A rider's payable is at least the unclamped one, and equal to it exactly when no priced line clamps. */
  lemma {:induction false} PayableBound(ro: Roster, rider: Id, es: seq<ProductEntry>)
    requires ro.NonNegative()
    ensures UnclampedPayable(ro, es) <= TallyLines(ro, rider, es).payable
    ensures TallyLines(ro, rider, es).payable == UnclampedPayable(ro, es)
       <==> forall i :: 0 <= i < |es| ==> !Clamps(ro, es[i])
  {
    if es != [] {
      var init, e := es[..|es| - 1], es[|es| - 1];
      PayableBound(ro, rider, init);
      LineClamp(ro, e);
      if i :| 0 <= i < |init| && Clamps(ro, init[i]) { assert Clamps(ro, es[i]); }
      if forall i :: 0 <= i < |es| ==> !Clamps(ro, es[i]) {
        forall i | 0 <= i < |init| ensures !Clamps(ro, init[i]) { assert init[i] == es[i]; }
      }
    }
  }

  // ---- Remitted cash ---------------------------------------------------------------------------------

  function Raised(r: RiderEntry, x: int): RiderEntry { r.(remitted := Some(OrZero(r.remitted) + x)) }

  /** Cash brought in frees at most as much commission. */
  lemma RaiseOneRider(ro: Roster, r: RiderEntry, x: int)
    requires 0 <= x
    ensures var more := NetCommission(ro, Raised(r, x)) - NetCommission(ro, r); 0 <= more <= x
  {
  }

  lemma {:induction false} RaiseTally(ro: Roster, rs: seq<RiderEntry>, i: nat, x: int)
    requires i < |rs| && 0 <= x
    ensures var a, b := TallyRiders(ro, rs), TallyRiders(ro, rs[i := Raised(rs[i], x)]);
      b.remitted == a.remitted + x && 0 <= b.commission - a.commission <= x
  {
    var more := rs[i := Raised(rs[i], x)];
    var n := |rs| - 1;
    if i == n {
      assert more[..n] == rs[..n];
      RaiseOneRider(ro, rs[i], x);
    } else {
      RaiseTally(ro, rs[..n], i, x);
      assert more[..n] == rs[..n][i := Raised(rs[i], x)];
    }
  }

  /** Raising one rider's remitted cash by x raises the net remittance by between 0 and x, through the shortfall
      and commission clamps and whatever the other riders do. */
  lemma RaisedCashRaisesNet(ro: Roster, p: Payload, reps: map<Id, Repayment>, dateCredits: int, i: nat, x: int)
    requires i < |p.riders| && 0 <= x
    ensures var q := p.(riders := p.riders[i := Raised(p.riders[i], x)]);
      var more := BuiltFigures(ro, q, reps, dateCredits).net - BuiltFigures(ro, p, reps, dateCredits).net;
      0 <= more <= x
  {
    var rs := p.riders[i := Raised(p.riders[i], x)];
    RaiseTally(ro, p.riders, i, x);
    SameRiders(p.riders, i, x);
    assert Unlisted(ro, rs, reps) == Unlisted(ro, p.riders, reps);
    hide Unlisted, TallyRiders, UnlistedCommissions;
  }

  lemma SameRiders(rs: seq<RiderEntry>, i: nat, x: int)
    requires i < |rs|
    ensures Listed(rs[i := Raised(rs[i], x)]) == Listed(rs)
  {
    var more := rs[i := Raised(rs[i], x)];
    forall r | r in rs ensures r.rider in Listed(more) {
      var j :| 0 <= j < |rs| && rs[j] == r;
      assert more[j] in more;
    }
    forall r | r in more ensures r.rider in Listed(rs) {
      var j :| 0 <= j < |more| && more[j] == r;
      assert rs[j] in rs;
    }
  }

  /** A rider who still earns a net commission has the shortfall fully covered: cash remitted plus commission
      withheld for it reach the payable less the rider's expenses. */
  lemma ShortfallIsCovered(ro: Roster, r: RiderEntry)
    requires NetCommission(ro, r) > 0
    ensures var withheld := GrossCommission(ro, r) - AmountOf(r.deductions) - NetCommission(ro, r);
      OrZero(r.remitted) + withheld >= Payable(ro, r) - AmountOf(r.expenses)
  {
  }

  // ---- Commission ------------------------------------------------------------------------------------

  /** What each payload rider contributes. */
  function NetByRider(ro: Roster, rs: seq<RiderEntry>): map<Id, int> {
    if rs == [] then map[] else NetByRider(ro, rs[..|rs| - 1])[rs[|rs| - 1].rider := NetCommission(ro, rs[|rs| - 1])]
  }

  function RemittedByRider(rs: seq<RiderEntry>): map<Id, int> {
    if rs == [] then map[] else RemittedByRider(rs[..|rs| - 1])[rs[|rs| - 1].rider := OrZero(rs[|rs| - 1].remitted)]
  }

  lemma NewRider(rs: seq<RiderEntry>)
    requires rs != [] && RiderKeysOk(rs)
    ensures RiderKeysOk(rs[..|rs| - 1]) && rs[|rs| - 1].rider !in Listed(rs[..|rs| - 1])
    ensures Listed(rs) == Listed(rs[..|rs| - 1]) + {rs[|rs| - 1].rider}
  {
    var init, last := rs[..|rs| - 1], rs[|rs| - 1];
    assert rs == init + [last];
    forall r | r in init ensures r.rider != last.rider {
      var j :| 0 <= j < |init| && init[j] == r;
      assert rs[j] == r;
    }
    forall i | 0 <= i < |init| ensures LineKeysOk(init[i].lines) { assert rs[i] == init[i]; }
  }

  lemma {:induction false} NetByRiderSum(ro: Roster, rs: seq<RiderEntry>)
    requires RiderKeysOk(rs)
    ensures NetByRider(ro, rs).Keys == Listed(rs) && Sum(NetByRider(ro, rs)) == TallyRiders(ro, rs).commission
  {
    SumEmpty();
    if rs != [] {
      NewRider(rs);
      NetByRiderSum(ro, rs[..|rs| - 1]);
      hide NetCommission, RiderKeysOk;
      SumPut(NetByRider(ro, rs[..|rs| - 1]), rs[|rs| - 1].rider, NetCommission(ro, rs[|rs| - 1]));
    }
  }

  lemma {:induction false} RemittedByRiderSum(ro: Roster, rs: seq<RiderEntry>)
    requires RiderKeysOk(rs)
    ensures RemittedByRider(rs).Keys == Listed(rs) && Sum(RemittedByRider(rs)) == TallyRiders(ro, rs).remitted
  {
    SumEmpty();
    if rs != [] {
      NewRider(rs);
      RemittedByRiderSum(ro, rs[..|rs| - 1]);
      hide NetCommission, RiderKeysOk;
      SumPut(RemittedByRider(rs[..|rs| - 1]), rs[|rs| - 1].rider, OrZero(rs[|rs| - 1].remitted));
    }
  }

  /** Contributions to the total commission: the net commission of each payload rider, and the repayment commission
      of each active driver with repayments who is not in the payload. */
  ghost function Contributions(ro: Roster, p: Payload, reps: map<Id, Repayment>): map<Id, int> {
    NetByRider(ro, p.riders) + UnlistedCommissions(ro, reps, Unlisted(ro, p.riders, reps))
  }

  predicate HasRepayment(reps: map<Id, Repayment>, d: Id) { exists q :: q in reps && reps[q].careOf == Some(d) }

  lemma DisjointSum(a: map<Id, int>, b: map<Id, int>)
    requires a.Keys !! b.Keys
    ensures Sum(a + b) == Sum(a) + Sum(b)
  {
    SumSplit(a + b, a.Keys);
    assert (map k | k in a + b && k in a.Keys :: (a + b)[k]) == a;
    assert (a + b) - a.Keys == b;
  }

  /** The rider rows of a build are exactly the payload riders and the active drivers with repayments, and each
      contributes once to the total commission. */
  lemma CommissionByRider(ro: Roster, p: Payload, reps: map<Id, Repayment>, dateCredits: int)
    requires RiderKeysOk(p.riders)
    ensures var c := BuiltChildren(ro, p, reps);
      && (forall d :: d in c.riders <==> (d in Listed(p.riders) || (d in ro.riders && HasRepayment(reps, d))))
      && Contributions(ro, p, reps).Keys == c.riders.Keys
      && BuiltFigures(ro, p, reps, dateCredits).commission == Sum(Contributions(ro, p, reps))
  {
    var ds := Unlisted(ro, p.riders, reps);
    NetByRiderSum(ro, p.riders);
    RiderRowsKeys(ro, p.riders);
    DisjointSum(NetByRider(ro, p.riders), UnlistedCommissions(ro, reps, ds));
    UnlistedRowsKeys(ro, reps, ds);
    assert UnlistedCommissions(ro, reps, ds).Keys == ds;
    hide NetByRider, RiderRows, UnlistedRows, UnlistedCommissions, RiderKeysOk, TallyRiders, ProductRows;
  }

  function PositivePart(rows: map<Id, RiderRow>): map<Id, int> { map r | r in rows :: Max0(rows[r].commission) }

  lemma {:induction false} SumAtMost(a: map<Id, int>, b: map<Id, int>)
    requires a.Keys == b.Keys && forall k :: k in a ==> a[k] <= b[k]
    ensures Sum(a) <= Sum(b)
    decreases |a|
  {
    if a == map[] {
      assert b == map[];
    } else {
      var k :| k in a;
      SumDrop(a, k);
      SumDrop(b, k);
      SumAtMost(a - {k}, b - {k});
    }
  }

  predicate UnitsNonNegative(reps: map<Id, Repayment>) { forall p :: p in reps ==> 0 <= reps[p].units }

  lemma EarningsNonNegative(ro: Roster, reps: map<Id, Repayment>, d: Id)
    requires ro.NonNegative() && UnitsNonNegative(reps)
    ensures 0 <= RepaymentCommission(ro, reps, d)
  {
    var m := RepaymentEarnings(ro, reps, d);
    forall p | p in m ensures 0 <= m[p] {
      var units, rate := reps[p].units, ro.Rate(d, reps[p].product);
      assert 0 <= units && 0 <= rate && m[p] == units * rate;
    }
    SumNonNegative(m);
  }

  lemma {:induction false} NetWithinGross(ro: Roster, rs: seq<RiderEntry>)
    requires RidersOk(ro, rs) && RiderKeysOk(rs)
    ensures RiderRows(ro, rs).Keys == NetByRider(ro, rs).Keys == Listed(rs)
    ensures forall r :: r in Listed(rs) ==> 0 <= NetByRider(ro, rs)[r] <= Max0(RiderRows(ro, rs)[r].commission)
  {
    if rs != [] {
      NewRider(rs);
      NetWithinGross(ro, rs[..|rs| - 1]);
      NotesSumUp(rs[|rs| - 1].deductions);
      assert RiderOk(ro, rs[|rs| - 1]);
      hide RidersOk, RiderKeysOk, TallyLines, AmountOf;
    }
  }

  lemma {:induction false} NotesSumUp(ns: seq<Note>)
    requires NotesOk(ns)
    ensures 0 <= AmountOf(ns)
  {
    if ns != [] { NotesSumUp(ns[..|ns| - 1]); }
  }

  /** Total commission is never negative and never exceeds the positive gross commissions of the rider rows. */
  lemma CommissionBounds(ro: Roster, p: Payload, reps: map<Id, Repayment>, dateCredits: int)
    requires Acceptable(ro, p) && ro.NonNegative() && UnitsNonNegative(reps)
    ensures 0 <= BuiltFigures(ro, p, reps, dateCredits).commission
              <= Sum(PositivePart(BuiltChildren(ro, p, reps).riders))
  {
    var ds := Unlisted(ro, p.riders, reps);
    var net, rows, late := NetByRider(ro, p.riders), RiderRows(ro, p.riders), UnlistedCommissions(ro, reps, ds);
    var all := rows + UnlistedRows(ro, reps, ds);
    CommissionByRider(ro, p, reps, dateCredits);
    NetWithinGross(ro, p.riders);
    NetByRiderSum(ro, p.riders);
    RiderRowsKeys(ro, p.riders);
    forall d | d in ds ensures 0 <= RepaymentCommission(ro, reps, d) { EarningsNonNegative(ro, reps, d); }
    assert BuiltChildren(ro, p, reps).riders == all;
    hide NetByRider, RiderRows, RepaymentCommission, BuiltFigures, BuiltChildren, Acceptable;
    forall d | d in net + late ensures 0 <= (net + late)[d] <= PositivePart(all)[d] {}
    SumNonNegative(net + late);
    SumAtMost(net + late, PositivePart(all));
  }

  // ---- What the pages recover ------------------------------------------------------------------------

  /** The cash each stored rider row turned in. */
  function RemittedRows(c: Children): map<Id, int> { map r | r in c.riders :: OrZero(c.riders[r].remitted) }

  /** The history row's formula for the cash riders turned in, which no column stores. */
  function DriversRemittance(f: Figures): int { f.net - f.otherSales + f.commission + f.salary }

  lemma {:induction false} RowsKeepRemitted(ro: Roster, rs: seq<RiderEntry>)
    requires RiderKeysOk(rs)
    ensures RiderRows(ro, rs).Keys == Listed(rs) == RemittedByRider(rs).Keys
    ensures forall r :: r in Listed(rs) ==> OrZero(RiderRows(ro, rs)[r].remitted) == RemittedByRider(rs)[r]
  {
    if rs != [] {
      NewRider(rs);
      RowsKeepRemitted(ro, rs[..|rs| - 1]);
      hide RiderKeysOk, TallyLines;
    }
  }

  /** The formula recovers exactly the cash in the stored rider rows. */
  lemma HistoryRowRecoversRemitted(ro: Roster, p: Payload, reps: map<Id, Repayment>, dateCredits: int)
    requires RiderKeysOk(p.riders)
    ensures DriversRemittance(BuiltFigures(ro, p, reps, dateCredits)) == Sum(RemittedRows(BuiltChildren(ro, p, reps)))
  {
    RemittedByRiderSum(ro, p.riders);
    RowsKeepRemitted(ro, p.riders);
    LateRowsRemitNothing(ro, p, reps);
    hide TallyRiders, RiderRows, UnlistedRows, RemittedByRider;
  }

  lemma LateRowsRemitNothing(ro: Roster, p: Payload, reps: map<Id, Repayment>)
    requires RiderRows(ro, p.riders).Keys == Listed(p.riders) == RemittedByRider(p.riders).Keys
    requires forall r :: r in Listed(p.riders) ==> OrZero(RiderRows(ro, p.riders)[r].remitted) == RemittedByRider(p.riders)[r]
    ensures Sum(RemittedRows(BuiltChildren(ro, p, reps))) == Sum(RemittedByRider(p.riders))
  {
    hide RiderRows, RemittedByRider, RepaymentCommission, ProductRows, RiderExpenses, StaffExpenses, ActiveStaff;
    var m := RemittedRows(BuiltChildren(ro, p, reps));
    SumSplit(m, Listed(p.riders));
    assert (map r | r in m && r in Listed(p.riders) :: m[r]) == RemittedByRider(p.riders);
    SumZero(m - Listed(p.riders));
  }

  datatype Part = RiderPart | StaffPart | GeneralPart

  /** The detail page lists an expense under its rider's or staff member's row, or as general. */
  predicate InPart(c: Children, e: ExpenseRow, part: Part) {
    match part
    case RiderPart => e.owner.OfRider? && e.owner.rider in c.riders
    case StaffPart => e.owner.OfStaff? && e.owner.staff in c.staff
    case GeneralPart => e.owner.General?
  }

  function PartTotal(c: Children, es: seq<ExpenseRow>, part: Part): int {
    if es == [] then 0 else
    PartTotal(c, es[..|es| - 1], part) + (if InPart(c, es[|es| - 1], part) then es[|es| - 1].note.amount else 0)
  }

  function Spent(es: seq<ExpenseRow>): int {
    if es == [] then 0 else Spent(es[..|es| - 1]) + es[|es| - 1].note.amount
  }

  predicate Shown(c: Children, e: ExpenseRow) {
    (e.owner.OfRider? ==> e.owner.rider in c.riders) && (e.owner.OfStaff? ==> e.owner.staff in c.staff)
  }

  lemma {:induction false} PartsMakeTotal(c: Children, es: seq<ExpenseRow>)
    requires forall e :: e in es ==> Shown(c, e)
    ensures PartTotal(c, es, RiderPart) + PartTotal(c, es, StaffPart) + PartTotal(c, es, GeneralPart) == Spent(es)
  {
    if es != [] {
      assert es[|es| - 1] in es;
      PartsMakeTotal(c, es[..|es| - 1]);
    }
  }

  lemma {:induction false} SpentConcat(a: seq<ExpenseRow>, b: seq<ExpenseRow>)
    ensures Spent(a + b) == Spent(a) + Spent(b)
  {
    if b == [] {
      assert a + b == a;
    } else {
      assert (a + b)[..|a + b| - 1] == a + b[..|b| - 1];
      SpentConcat(a, b[..|b| - 1]);
    }
  }

  lemma {:induction false} ExpensedSpent(owner: Owner, ns: seq<Note>)
    ensures Spent(Expensed(owner, ns)) == AmountOf(ns)
    ensures forall e :: e in Expensed(owner, ns) ==> e.owner == owner
  {
    if ns != [] {
      ExpensedSpent(owner, ns[..|ns| - 1]);
      assert Expensed(owner, ns)[..|ns| - 1] == Expensed(owner, ns[..|ns| - 1]) by { ExpensedLength(owner, ns[..|ns| - 1]); }
    }
  }

  lemma {:induction false} ExpensedLength(owner: Owner, ns: seq<Note>)
    ensures |Expensed(owner, ns)| == |ns|
  {
    if ns != [] { ExpensedLength(owner, ns[..|ns| - 1]); }
  }

  /** Dropping blank notes drops no money. */
  lemma {:induction false} KeptAmount(ns: seq<Note>)
    ensures AmountOf(Kept(ns)) == AmountOf(ns)
  {
    if ns != [] {
      var init, n := ns[..|ns| - 1], ns[|ns| - 1];
      KeptAmount(init);
      if Blank(n) {
        assert Kept(ns) == Kept(init);
      } else {
        assert Kept(ns)[..|Kept(ns)| - 1] == Kept(init);
      }
    }
  }

  lemma {:induction false} RiderExpensesSpent(ro: Roster, rs: seq<RiderEntry>)
    ensures Spent(RiderExpenses(rs)) == TallyRiders(ro, rs).expenses
    ensures forall e :: e in RiderExpenses(rs) ==> e.owner.OfRider? && e.owner.rider in Listed(rs)
  {
    if rs != [] {
      var init, r := rs[..|rs| - 1], rs[|rs| - 1];
      RiderExpensesSpent(ro, init);
      ExpensedSpent(OfRider(r.rider), Kept(r.expenses));
      KeptAmount(r.expenses);
      SpentConcat(RiderExpenses(init), Expensed(OfRider(r.rider), Kept(r.expenses)));
      assert TallyRiders(ro, rs).expenses == TallyRiders(ro, init).expenses + AmountOf(r.expenses);
      assert RiderExpenses(rs) == RiderExpenses(init) + Expensed(OfRider(r.rider), Kept(r.expenses));
      assert rs == init + [r];
      hide Expensed, Kept, NetCommission, TallyLines, TallyRiders, RiderExpenses, Spent, AmountOf;
    }
  }

  lemma {:induction false} StaffExpensesSpent(ro: Roster, ss: seq<StaffEntry>)
    ensures Spent(StaffExpenses(ss)) == StaffSpent(ss)
    ensures forall e :: e in StaffExpenses(ss) ==> e.owner.OfStaff? && e.owner.staff in StaffRows(ro, ss)
  {
    if ss != [] {
      var init, s := ss[..|ss| - 1], ss[|ss| - 1];
      StaffExpensesSpent(ro, init);
      ExpensedSpent(OfStaff(s.staff), Kept(s.expenses));
      KeptAmount(s.expenses);
      SpentConcat(StaffExpenses(init), Expensed(OfStaff(s.staff), Kept(s.expenses)));
      hide Expensed, Kept, StaffRowOf;
    }
  }

  /** Rider, staff and general expense totals of the detail page add up to the stored total, for every build. */
  lemma BreakdownMakesTotal(ro: Roster, p: Payload, reps: map<Id, Repayment>, dateCredits: int)
    ensures var c, f := BuiltChildren(ro, p, reps), BuiltFigures(ro, p, reps, dateCredits);
      PartTotal(c, c.expenses, RiderPart) + PartTotal(c, c.expenses, StaffPart) + PartTotal(c, c.expenses, GeneralPart)
      == f.expenses
  {
    var c, staff := BuiltChildren(ro, p, reps), ActiveStaff(ro, p.staff);
    var general := Expensed(General, Kept(p.expenses));
    RiderExpensesSpent(ro, p.riders);
    RiderRowsKeys(ro, p.riders);
    StaffExpensesSpent(ro, staff);
    ExpensedSpent(General, Kept(p.expenses));
    KeptAmount(p.expenses);
    SpentConcat(RiderExpenses(p.riders), general);
    SpentConcat(RiderExpenses(p.riders) + general, StaffExpenses(staff));
    hide RiderExpenses, StaffExpenses, StaffRows, RiderRows, Expensed, Kept, ActiveStaff, TallyRiders, Spent, UnlistedRows;
    forall e | e in c.expenses ensures Shown(c, e) {}
    PartsMakeTotal(c, c.expenses);
  }

  /** The salary each stored staff row stands for. */
  function SalaryRows(rows: map<Id, StaffRow>): map<Id, int> { map s | s in rows :: rows[s].EffectiveSalary() }

  lemma NewStaff(ro: Roster, ss: seq<StaffEntry>)
    requires ss != [] && StaffKeysOk(ss)
    ensures StaffKeysOk(ss[..|ss| - 1]) && ss[|ss| - 1].staff !in StaffRows(ro, ss[..|ss| - 1])
  {
    var init := ss[..|ss| - 1];
    StaffRowsKeys(ro, init);
    forall s | s in init ensures s.staff != ss[|ss| - 1].staff {
      var j :| 0 <= j < |init| && init[j] == s;
      assert ss[j] == s;
    }
  }

  lemma {:induction false} SalaryRowsSum(ro: Roster, ss: seq<StaffEntry>)
    requires StaffKeysOk(ss)
    ensures Sum(SalaryRows(StaffRows(ro, ss))) == SalaryOf(ro, ss)
  {
    SumEmpty();
    if ss == [] {
      assert SalaryRows(StaffRows(ro, ss)) == map[];
    } else {
      var init, s := ss[..|ss| - 1], ss[|ss| - 1];
      NewStaff(ro, ss);
      SalaryRowsSum(ro, init);
      var before := StaffRows(ro, init);
      assert StaffRows(ro, ss) == before[s.staff := StaffRowOf(ro, s)];
      hide StaffRows, StaffKeysOk;
      SumPut(SalaryRows(before), s.staff, Salary(ro, s));
      assert SalaryRows(before[s.staff := StaffRowOf(ro, s)]) == SalaryRows(before)[s.staff := Salary(ro, s)];
    }
  }

  /** Total salary is the sum of the effective salaries of the stored staff rows. */
  lemma SalaryFromRows(ro: Roster, p: Payload, reps: map<Id, Repayment>, dateCredits: int)
    requires KeysOk(ro, p)
    ensures BuiltFigures(ro, p, reps, dateCredits).salary == Sum(SalaryRows(BuiltChildren(ro, p, reps).staff))
  {
    SalaryRowsSum(ro, ActiveStaff(ro, p.staff));
    hide StaffRows, ActiveStaff, SalaryOf;
  }
}
