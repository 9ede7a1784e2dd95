/** A stored remittance audited from its own rows: every column of a product, rider or staff row, and every total, from
    the stored columns and the payload's fields. */
module StoredFigures {
  import opened FiniteSums
  import opened Ledger
  import opened RemittanceModel
  import opened RemittanceBuild
  import opened RemittanceFigures
  import opened DraftForm
  import S = RemittanceServices
  import RunSafety
  import RepaymentTotals
  import Finalization

  // ---- Columns of a rider's product rows ---------------------------------------------------------------------

  /** The stored columns, and the value of the units sold at the row's price. */
  datatype Column = SoldColumn | CreditedColumn | BorrowedColumn | PayableColumn | CreditColumn | CommissionColumn | ValueColumn

  function Cell(row: ProductRow, col: Column): int {
    match col
    case SoldColumn => row.sold
    case CreditedColumn => row.credited
    case BorrowedColumn => row.borrowed
    case PayableColumn => row.payable
    case CreditColumn => row.credit
    case CommissionColumn => row.commission
    case ValueColumn => row.sold * row.price
  }

  function CellsOf(rows: map<(Id, Id), ProductRow>, r: Id, col: Column): map<Id, int> {
    map k | k in (set key | key in rows && key.0 == r :: key.1) :: Cell(rows[(r, k)], col)
  }

  /** A rider's total of a column. */
  ghost function Total(c: Children, r: Id, col: Column): int { Sum(CellsOf(c.products, r, col)) }

  /** What a payload line says in a column: quantities as typed, money at the roster's price and rate, on the units sold
      less credited plus repaid, none when that is negative. */
  function Said(ro: Roster, r: Id, e: ProductEntry, col: Column): int {
    var units := e.sold - e.credited + e.repaid;
    var due := if units > 0 then units else 0;
    var price := if e.product in ro.prices then ro.prices[e.product] else 0;
    var rate := if (r, e.product) in ro.rates then ro.rates[(r, e.product)] else 0;
    match col
    case SoldColumn => e.sold
    case CreditedColumn => e.credited
    case BorrowedColumn => e.borrowed
    case PayableColumn => due * price
    case CreditColumn => e.credited * price
    case CommissionColumn => due * rate
    case ValueColumn => e.sold * price
  }

  /** A line of the payload that leaves a row: it moves something. */
  predicate Moves(e: ProductEntry) { e.sold - e.credited + e.repaid > 0 || e.credited != 0 || e.borrowed != 0 }

  /** The row of a line, column by column. */
  predicate RowSays(ro: Roster, r: Id, e: ProductEntry, row: ProductRow) {
    && row.price == (if e.product in ro.prices then ro.prices[e.product] else 0)
    && row.rate == (if (r, e.product) in ro.rates then ro.rates[(r, e.product)] else 0)
    && forall col :: Cell(row, col) == Said(ro, r, e, col)
  }

  lemma RowIs(ro: Roster, r: Id, e: ProductEntry)
    ensures RowSays(ro, r, e, ProductRowOf(ro, r, e))
    ensures EntryOk(e) ==> (Skipped(e) <==> !Moves(e))
    ensures EntryOk(e) && !Moves(e) ==> forall col :: Said(ro, r, e, col) == 0
  {
    forall col ensures Cell(ProductRowOf(ro, r, e), col) == Said(ro, r, e, col) {
      match col
      case SoldColumn => case CreditedColumn => case BorrowedColumn => case PayableColumn =>
      case CreditColumn => case CommissionColumn => case ValueColumn =>
    }
    if EntryOk(e) && !Moves(e) {
      forall col ensures Said(ro, r, e, col) == 0 {
        match col
        case SoldColumn => case CreditedColumn => case BorrowedColumn => case PayableColumn =>
        case CreditColumn => case CommissionColumn => case ValueColumn =>
      }
    }
  }

  function SaidSum(ro: Roster, r: Id, es: seq<ProductEntry>, col: Column): int {
    if es == [] then 0 else SaidSum(ro, r, es[..|es| - 1], col) + Said(ro, r, es[|es| - 1], col)
  }

  /** A rider's own lines add up in each column to what the payload says. */
  lemma {:induction false} LineCells(ro: Roster, r: Id, es: seq<ProductEntry>, col: Column)
    requires LinesOk(es) && LineKeysOk(es)
    ensures Sum(CellsOf(LineRows(ro, r, es), r, col)) == SaidSum(ro, r, es, col)
  {
    if es == [] {
      assert CellsOf(LineRows(ro, r, es), r, col) == map[];
      SumEmpty();
    } else {
      var init, e := es[..|es| - 1], es[|es| - 1];
      LinesPrefix(es);
      LineCells(ro, r, init, col);
      RowIs(ro, r, e);
      if !Skipped(e) {
        NoEarlierRow(ro, r, es);
        CellsPut(LineRows(ro, r, init), r, e.product, ProductRowOf(ro, r, e), col);
      }
      hide Said, Cell, CellsOf, LineKeysOk, LinesOk, Moves, Skipped;
    }
  }

  lemma CellsPut(rows: map<(Id, Id), ProductRow>, r: Id, k: Id, row: ProductRow, col: Column)
    requires (r, k) !in rows
    ensures Sum(CellsOf(rows[(r, k) := row], r, col)) == Sum(CellsOf(rows, r, col)) + Cell(row, col)
  {
    hide Cell;
    var m, n := CellsOf(rows, r, col), CellsOf(rows[(r, k) := row], r, col);
    assert k !in m;
    assert n == m[k := Cell(row, col)] by {
      assert (set key | key in rows[(r, k) := row] && key.0 == r :: key.1) == (set key | key in rows && key.0 == r :: key.1) + {k};
    }
    SumPut(m, k, Cell(row, col));
  }

  /** A rider's rows in the table are the rows of the rider's own lines. */
  lemma {:induction false} RiderProducts(ro: Roster, rs: seq<RiderEntry>, i: nat, k: Id)
    requires i < |rs| && RidersOk(ro, rs) && RiderKeysOk(rs)
    ensures var all, own, key := ProductRows(ro, rs), LineRows(ro, rs[i].rider, rs[i].lines), (rs[i].rider, k);
      (key in all <==> key in own) && (key in all ==> all[key] == own[key])
  {
    var n := |rs| - 1;
    var init, last := rs[..n], rs[n];
    RidersPrefix(ro, rs);
    hide RidersOk, RiderKeysOk, LineRows;
    LineRowsKeys(ro, last.rider, last.lines, (rs[i].rider, k));
    if i == n {
      if (last.rider, k) in ProductRows(ro, init) { ProductRowsListed(ro, init, last.rider, k); }
    } else {
      RiderProducts(ro, init, i, k);
      assert init[i] in init && init[i].rider in Listed(init);
    }
  }

  lemma SameCells(a: map<(Id, Id), ProductRow>, b: map<(Id, Id), ProductRow>, r: Id, col: Column)
    requires forall k :: (r, k) in a <==> (r, k) in b
    requires forall k :: (r, k) in a ==> a[(r, k)] == b[(r, k)]
    ensures Sum(CellsOf(a, r, col)) == Sum(CellsOf(b, r, col))
  {
    hide Cell;
    var m, n := CellsOf(a, r, col), CellsOf(b, r, col);
    assert (set key | key in a && key.0 == r :: key.1) == (set key | key in b && key.0 == r :: key.1);
    assert m == n;
  }

  /** A payload rider's stored rows add up in each column to what the payload says. */
  lemma RiderTotal(ro: Roster, p: Payload, reps: map<Id, Repayment>, i: nat, col: Column)
    requires Acceptable(ro, p) && i < |p.riders|
    ensures Total(BuiltChildren(ro, p, reps), p.riders[i].rider, col) == SaidSum(ro, p.riders[i].rider, p.riders[i].lines, col)
  {
    var e := p.riders[i];
    assert RiderOk(ro, e) && LineKeysOk(e.lines);
    RidersStored(ro, p, reps, e.rider);
    hide BuiltChildren, SaidSum, CellsOf, LineKeysOk;
    forall k: Id ensures ((e.rider, k) in ProductRows(ro, p.riders) <==> (e.rider, k) in LineRows(ro, e.rider, e.lines))
      && ((e.rider, k) in ProductRows(ro, p.riders) ==>
            ProductRows(ro, p.riders)[(e.rider, k)] == LineRows(ro, e.rider, e.lines)[(e.rider, k)])
    {
      RiderProducts(ro, p.riders, i, k);
    }
    SameCells(ProductRows(ro, p.riders), LineRows(ro, e.rider, e.lines), e.rider, col);
    LineCells(ro, e.rider, e.lines, col);
  }

  lemma UnlistedTotal(ro: Roster, p: Payload, reps: map<Id, Repayment>, r: Id, col: Column)
    requires r !in Listed(p.riders)
    ensures Total(BuiltChildren(ro, p, reps), r, col) == 0
  {
    RidersStored(ro, p, reps, r);
    hide BuiltChildren, Cell;
    forall k: Id ensures (r, k) !in ProductRows(ro, p.riders) {
      if (r, k) in ProductRows(ro, p.riders) { ProductRowsListed(ro, p.riders, r, k); }
    }
    assert CellsOf(ProductRows(ro, p.riders), r, col) == map[];
    SumEmpty();
  }

  lemma {:induction false} TallyIsSaid(ro: Roster, r: Id, es: seq<ProductEntry>)
    ensures var t := TallyLines(ro, r, es);
      && t.payable == SaidSum(ro, r, es, PayableColumn) && t.commission == SaidSum(ro, r, es, CommissionColumn)
      && t.credit == SaidSum(ro, r, es, CreditColumn) && t.borrowed == SaidSum(ro, r, es, BorrowedColumn)
      && t.gross == SaidSum(ro, r, es, ValueColumn)
  {
    if es != [] { TallyIsSaid(ro, r, es[..|es| - 1]); }
  }

  // ---- Rows --------------------------------------------------------------------------------------------------

  lemma {:induction false} OwnRow(ro: Roster, r: Id, es: seq<ProductEntry>, k: nat)
    requires k < |es| && LineKeysOk(es) && !Skipped(es[k])
    ensures (r, es[k].product) in LineRows(ro, r, es)
    ensures LineRows(ro, r, es)[(r, es[k].product)] == ProductRowOf(ro, r, es[k])
  {
    var n := |es| - 1;
    hide Skipped, ProductRowOf;
    if k < n {
      var init := es[..n];
      forall a, b | 0 <= a < b < n && !Skipped(init[a]) && !Skipped(init[b]) ensures init[a].product != init[b].product {
        assert init[a] == es[a] && init[b] == es[b];
      }
      OwnRow(ro, r, init, k);
    }
  }

  /** Every line of the payload that moves something has its row, and the row says what the line says: quantities as
      typed, money and commission on the remittable units at the row's own price and rate. */
  lemma LineIsStored(ro: Roster, p: Payload, reps: map<Id, Repayment>, i: nat, k: nat)
    requires Acceptable(ro, p) && i < |p.riders| && k < |p.riders[i].lines| && Moves(p.riders[i].lines[k])
    ensures var rows, e, r := BuiltChildren(ro, p, reps).products, p.riders[i].lines[k], p.riders[i].rider;
      && (r, e.product) in rows && RowSays(ro, r, e, rows[(r, e.product)])
      && var row, units := rows[(r, e.product)], e.sold - e.credited + e.repaid;
         && row.commission == (if units > 0 then units else 0) * row.rate && row.payable == (if units > 0 then units else 0) * row.price
         && row.credit == row.credited * row.price
  {
    var e, r := p.riders[i].lines[k], p.riders[i].rider;
    assert RiderOk(ro, p.riders[i]) && LineKeysOk(p.riders[i].lines);
    RowIs(ro, r, e);
    OwnRow(ro, r, p.riders[i].lines, k);
    RiderProducts(ro, p.riders, i, e.product);
    RidersStored(ro, p, reps, r);
    var row := ProductRowOf(ro, r, e);
    assert Cell(row, CommissionColumn) == Said(ro, r, e, CommissionColumn) && Cell(row, PayableColumn) == Said(ro, r, e, PayableColumn);
    assert Cell(row, CreditColumn) == Said(ro, r, e, CreditColumn) && Cell(row, CreditedColumn) == Said(ro, r, e, CreditedColumn);
    hide BuiltChildren, ProductRows, LineRows, Acceptable, LineKeysOk, RiderOk, ProductRowOf;
  }

  /** A payload rider's row from the rider's product rows: what is payable, and the commission, which is the override
      when one was given and the sum of the commission column otherwise. */
  lemma RiderRowSays(ro: Roster, p: Payload, reps: map<Id, Repayment>, i: nat)
    requires Acceptable(ro, p) && i < |p.riders|
    ensures var c, e := BuiltChildren(ro, p, reps), p.riders[i];
      && e.rider in c.riders
      && var row := c.riders[e.rider];
         && row.override == e.override && row.remitted == e.remitted && row.deductions == Kept(e.deductions)
         && row.payable == Total(c, e.rider, PayableColumn)
         && row.commission == (if e.override.Some? then e.override.value else Total(c, e.rider, CommissionColumn))
         && NotesOf(c.expenses, OfRider(e.rider)) == Kept(e.expenses)
  {
    var e := p.riders[i];
    RiderIsStored(ro, p, reps, i, 0);
    RiderTotal(ro, p, reps, i, PayableColumn);
    RiderTotal(ro, p, reps, i, CommissionColumn);
    TallyIsSaid(ro, e.rider, e.lines);
    hide BuiltChildren, Total, SaidSum, TallyLines, Kept, NotesOf, Acceptable;
  }

  /** What a rider row earns: the positive part of its commission less the shortfall and its deductions, where the
      shortfall is what of the payable neither the rider's expenses nor the remitted cash covers. */
  function Earned(c: Children, r: Id): int
    requires r in c.riders
  {
    var row := c.riders[r];
    var owed := row.payable - AmountOf(NotesOf(c.expenses, OfRider(r))) - (if row.remitted.Some? then row.remitted.value else 0);
    var net := row.commission - (if owed > 0 then owed else 0) - AmountOf(row.deductions);
    if net > 0 then net else 0
  }

  lemma RiderEarns(ro: Roster, p: Payload, reps: map<Id, Repayment>, i: nat)
    requires Acceptable(ro, p) && i < |p.riders|
    ensures var c, e := BuiltChildren(ro, p, reps), p.riders[i];
      && e.rider in c.riders && Earned(c, e.rider) == NetCommission(ro, e)
  {
    var e := p.riders[i];
    RiderIsStored(ro, p, reps, i, 0);
    KeptAmount(e.expenses);
    KeptAmount(e.deductions);
    hide BuiltChildren, TallyLines, Kept, NotesOf, Acceptable, AmountOf, RiderRowOf, Earned, NetCommission;
    EarnedIs(ro, e, BuiltChildren(ro, p, reps));
  }

  lemma EarnedIs(ro: Roster, e: RiderEntry, c: Children)
    requires e.rider in c.riders && c.riders[e.rider] == RiderRowOf(ro, e)
    requires AmountOf(NotesOf(c.expenses, OfRider(e.rider))) == AmountOf(e.expenses)
    requires AmountOf(Kept(e.deductions)) == AmountOf(e.deductions)
    ensures Earned(c, e.rider) == NetCommission(ro, e)
  {
    hide TallyLines, Kept, NotesOf, AmountOf;
  }

  // ---- Totals ------------------------------------------------------------------------------------------------

  /** A column's total for each rider row. */
  ghost function TotalByRider(c: Children, col: Column): map<Id, int> { map r | r in c.riders :: Total(c, r, col) }

  function SaidByRider(ro: Roster, rs: seq<RiderEntry>, col: Column): map<Id, int> {
    if rs == [] then map[] else
    SaidByRider(ro, rs[..|rs| - 1], col)[rs[|rs| - 1].rider := SaidSum(ro, rs[|rs| - 1].rider, rs[|rs| - 1].lines, col)]
  }

  function SaidInAll(ro: Roster, rs: seq<RiderEntry>, col: Column): int {
    if rs == [] then 0 else
    SaidInAll(ro, rs[..|rs| - 1], col) + SaidSum(ro, rs[|rs| - 1].rider, rs[|rs| - 1].lines, col)
  }

  lemma {:induction false} SaidByRiderSum(ro: Roster, rs: seq<RiderEntry>, col: Column)
    requires RiderKeysOk(rs)
    ensures SaidByRider(ro, rs, col).Keys == Listed(rs) && Sum(SaidByRider(ro, rs, col)) == SaidInAll(ro, rs, col)
    ensures forall i :: 0 <= i < |rs| ==> SaidByRider(ro, rs, col)[rs[i].rider] == SaidSum(ro, rs[i].rider, rs[i].lines, col)
  {
    hide SaidSum, RiderKeysOk;
    SumEmpty();
    if rs != [] {
      var n := |rs| - 1;
      NewRider(rs);
      SaidByRiderSum(ro, rs[..n], col);
      SumPut(SaidByRider(ro, rs[..n], col), rs[n].rider, SaidSum(ro, rs[n].rider, rs[n].lines, col));
      forall i | 0 <= i < n ensures rs[i].rider in Listed(rs[..n]) { assert rs[..n][i] == rs[i] && rs[i] in rs[..n]; }
    }
  }

  lemma {:induction false} SaidInAllIsTally(ro: Roster, rs: seq<RiderEntry>)
    ensures SaidInAll(ro, rs, CreditColumn) == TallyRiders(ro, rs).credit
    ensures SaidInAll(ro, rs, BorrowedColumn) == TallyRiders(ro, rs).borrowed
    ensures SaidInAll(ro, rs, ValueColumn) == TallyRiders(ro, rs).gross
  {
    if rs != [] {
      var r := rs[|rs| - 1];
      SaidInAllIsTally(ro, rs[..|rs| - 1]);
      TallyIsSaid(ro, r.rider, r.lines);
      assert RiderFigures(ro, r).credit == TallyLines(ro, r.rider, r.lines).credit;
      assert RiderFigures(ro, r).borrowed == TallyLines(ro, r.rider, r.lines).borrowed;
      assert RiderFigures(ro, r).gross == TallyLines(ro, r.rider, r.lines).gross;
      hide NetCommission, AmountOf;
    }
  }

  /** A table that agrees with another on some keys and is zero on the rest has the same sum. */
  lemma {:induction false} SumExtended(m: map<Id, int>, n: map<Id, int>)
    requires m.Keys <= n.Keys && (forall k :: k in m ==> n[k] == m[k]) && forall k :: k in n && k !in m ==> n[k] == 0
    ensures Sum(n) == Sum(m)
    decreases |n|
  {
    if m.Keys == n.Keys {
      assert m == n;
    } else {
      var k :| k in n && k !in m;
      SumDrop(n, k);
      SumExtended(m, n - {k});
    }
  }

  /** Over all rider rows a column adds up to what the payload says. */
  lemma ColumnTotal(ro: Roster, p: Payload, reps: map<Id, Repayment>, col: Column)
    requires Acceptable(ro, p)
    ensures Sum(TotalByRider(BuiltChildren(ro, p, reps), col)) == SaidInAll(ro, p.riders, col)
  {
    var c, m := BuiltChildren(ro, p, reps), SaidByRider(ro, p.riders, col);
    SaidByRiderSum(ro, p.riders, col);
    CommissionByRider(ro, p, reps, 0);
    var n := TotalByRider(c, col);
    assert n.Keys == c.riders.Keys;
    hide BuiltChildren, SaidByRider, SaidInAll, Total, Contributions, BuiltFigures, SaidSum, Acceptable;
    forall r | r in m ensures n[r] == m[r] {
      var i :| 0 <= i < |p.riders| && p.riders[i].rider == r;
      RiderTotal(ro, p, reps, i, col);
    }
    forall r | r in n && r !in m ensures n[r] == 0 { UnlistedTotal(ro, p, reps, r, col); }
    SumExtended(m, n);
  }

  /** What each rider row adds to the total commission: what it earns if the payload lists the rider, and otherwise its
      commission, earned on repayments alone. */
  function EarnedByRow(c: Children, listed: set<Id>): map<Id, int> {
    map r | r in c.riders :: if r in listed then Earned(c, r) else c.riders[r].commission
  }

  lemma {:induction false} NetAt(ro: Roster, rs: seq<RiderEntry>, i: nat)
    requires i < |rs| && RiderKeysOk(rs)
    ensures rs[i].rider in NetByRider(ro, rs) && NetByRider(ro, rs)[rs[i].rider] == NetCommission(ro, rs[i])
  {
    var n := |rs| - 1;
    NewRider(rs);
    hide RiderKeysOk, NetCommission;
    if i < n {
      NetAt(ro, rs[..n], i);
      assert rs[..n][i] in rs[..n];
    }
  }

  /** The total commission is the sum of what the rows earn; a driver the payload does not list earns the repaid units at
      the driver's rates. */
  lemma CommissionFromRows(ro: Roster, p: Payload, reps: map<Id, Repayment>, dateCredits: int)
    requires Acceptable(ro, p)
    ensures var c := BuiltChildren(ro, p, reps);
      && BuiltFigures(ro, p, reps, dateCredits).commission == Sum(EarnedByRow(c, Listed(p.riders)))
      && forall r :: r in c.riders && r !in Listed(p.riders) ==>
           c.riders[r] == RiderRow(0, Sum(LateEarnings(ro, reps, r)), None, None, [])
  {
    hide *;
    var c := BuiltChildren(ro, p, reps);
    AcceptableKeys(ro, p);
    CommissionByRider(ro, p, reps, dateCredits);
    var m, n := Contributions(ro, p, reps), EarnedByRow(c, Listed(p.riders));
    EarnedRows(c, Listed(p.riders));
    forall r | r in c.riders && r in Listed(p.riders) ensures n[r] == m[r] {
      var i := ListedAt(p.riders, r);
      ListedEarns(ro, p, reps, i);
    }
    forall r | r in c.riders && r !in Listed(p.riders)
      ensures n[r] == m[r]
      ensures c.riders[r] == RiderRow(0, Sum(LateEarnings(ro, reps, r)), None, None, [])
    {
      LateEarns(ro, p, reps, r);
    }
    assert m == n;
  }

  lemma EarnedRows(c: Children, listed: set<Id>)
    ensures EarnedByRow(c, listed).Keys == c.riders.Keys
    ensures forall r :: r in c.riders ==> EarnedByRow(c, listed)[r] == if r in listed then Earned(c, r) else c.riders[r].commission
  {
    hide Earned;
  }

  lemma ListedAt(rs: seq<RiderEntry>, r: Id) returns (i: nat)
    requires r in Listed(rs)
    ensures i < |rs| && rs[i].rider == r
  {
    var e :| e in rs && e.rider == r;
    i :| 0 <= i < |rs| && rs[i] == e;
  }

  lemma AcceptableKeys(ro: Roster, p: Payload)
    requires Acceptable(ro, p)
    ensures RiderKeysOk(p.riders)
  {
  }

  /** The repaid units of a driver's payments at the driver's rates. */
  function LateEarnings(ro: Roster, reps: map<Id, Repayment>, r: Id): map<Id, int> {
    map q | q in reps && reps[q].careOf == Some(r) :: reps[q].units * RateOf(ro, r, reps[q].product)
  }

  function RateOf(ro: Roster, r: Id, product: Id): int { if (r, product) in ro.rates then ro.rates[(r, product)] else 0 }

  lemma ListedEarns(ro: Roster, p: Payload, reps: map<Id, Repayment>, i: nat)
    requires Acceptable(ro, p) && i < |p.riders|
    ensures var c, r := BuiltChildren(ro, p, reps), p.riders[i].rider;
      r in c.riders && r in Contributions(ro, p, reps) && Contributions(ro, p, reps)[r] == Earned(c, r)
  {
    RiderEarns(ro, p, reps, i);
    NetAt(ro, p.riders, i);
    assert p.riders[i] in p.riders;
    hide BuiltChildren, Earned, NetByRider, NetCommission, Acceptable, RepaymentCommission;
  }

  lemma LateEarns(ro: Roster, p: Payload, reps: map<Id, Repayment>, r: Id)
    requires RiderKeysOk(p.riders) && r in BuiltChildren(ro, p, reps).riders && r !in Listed(p.riders)
    ensures var row := BuiltChildren(ro, p, reps).riders[r];
      && r in Contributions(ro, p, reps) && Contributions(ro, p, reps)[r] == row.commission
      && row == RiderRow(0, Sum(LateEarnings(ro, reps, r)), None, None, [])
  {
    RiderRowsKeys(ro, p.riders);
    NetByRiderSum(ro, p.riders);
    assert RepaymentEarnings(ro, reps, r) == LateEarnings(ro, reps, r);
    hide NetByRider, RiderRows, ProductRows, RiderExpenses, StaffExpenses, ActiveStaff;
  }

  // ---- Staff rows and the remaining totals --------------------------------------------------------------------

  /** A staff row's own arithmetic: what was deducted is the sum of its deductions, and the net pay is the override, or the
      daily rate without one, less that. */
  predicate StaffRowSays(ro: Roster, e: StaffEntry, row: StaffRow) {
    && e.staff in ro.staff && row.rate == ro.staff[e.staff] && row.override == e.override
    && row.deductions == Kept(e.deductions)
    && row.deducted == AmountOf(row.deductions)
    && row.netPay == (if row.override.Some? then row.override.value else row.rate) - row.deducted
  }

  lemma StaffRowIs(ro: Roster, p: Payload, reps: map<Id, Repayment>, j: nat)
    requires Acceptable(ro, p) && j < |ActiveStaff(ro, p.staff)|
    ensures var c, e := BuiltChildren(ro, p, reps), ActiveStaff(ro, p.staff)[j];
      e.staff in c.staff && StaffRowSays(ro, e, c.staff[e.staff])
  {
    var e := ActiveStaff(ro, p.staff)[j];
    StaffIsStored(ro, p, reps, j);
    KeptAmount(e.deductions);
    OnlyActive(ro, p.staff);
    assert e in ActiveStaff(ro, p.staff);
    hide BuiltChildren, Kept, AmountOf, NotesOf, Acceptable, ActiveStaff;
  }

  lemma {:induction false} OnlyActive(ro: Roster, ss: seq<StaffEntry>)
    ensures forall e :: e in ActiveStaff(ro, ss) ==> e.staff in ro.staff && e in ss
  {
    if ss != [] {
      OnlyActive(ro, ss[..|ss| - 1]);
      assert ss == ss[..|ss| - 1] + [ss[|ss| - 1]];
    }
  }

  function PaidByRow(c: Children): map<Id, int> {
    map s | s in c.staff :: if c.staff[s].override.Some? then c.staff[s].override.value else c.staff[s].rate
  }

  function CashByRow(c: Children): map<Id, int> {
    map r | r in c.riders :: if c.riders[r].remitted.Some? then c.riders[r].remitted.value else 0
  }

  lemma AllSpent(ro: Roster, p: Payload, reps: map<Id, Repayment>, dateCredits: int)
    ensures Spent(BuiltChildren(ro, p, reps).expenses) == BuiltFigures(ro, p, reps, dateCredits).expenses
  {
    var staff := ActiveStaff(ro, p.staff);
    var general := Expensed(General, Kept(p.expenses));
    RiderExpensesSpent(ro, p.riders);
    StaffExpensesSpent(ro, staff);
    ExpensedSpent(General, Kept(p.expenses));
    KeptAmount(p.expenses);
    SpentConcat(RiderExpenses(p.riders), general);
    SpentConcat(RiderExpenses(p.riders) + general, StaffExpenses(staff));
    hide RiderExpenses, StaffExpenses, StaffRows, RiderRows, Expensed, Kept, ActiveStaff, TallyRiders, Spent, UnlistedRows;
  }

  lemma SamePages(c: Children)
    ensures PaidByRow(c) == SalaryRows(c.staff) && CashByRow(c) == RemittedRows(c)
  {
  }

  /** The totals that are read off the figures themselves. */
  lemma FiguresAgree(ro: Roster, p: Payload, reps: map<Id, Repayment>, dateCredits: int)
    ensures var f, credit := BuiltFigures(ro, p, reps, dateCredits), TallyRiders(ro, p.riders).credit;
      && f.creditSales == (if credit > dateCredits then credit else dateCredits)
      && f.borrowed == TallyRiders(ro, p.riders).borrowed && f.sales == TallyRiders(ro, p.riders).gross + p.otherSales
      && f.otherSales == p.otherSales && f.repayments == Sum(map q | q in reps :: reps[q].amount)
      && f.profit == f.net && f.tithe == (if f.net > 0 then f.net * p.titheRate else 0)
      && DriversRemittance(f) == f.net - p.otherSales + f.commission + f.salary
  {
    assert RepaymentAmounts(reps) == map q | q in reps :: reps[q].amount;
    hide TallyRiders, Unlisted, UnlistedCommissions, SalaryOf, StaffSpent, AmountOf, ActiveStaff;
  }

  /** Every total of a build from the rows it stores: sales, credit sales, borrowed items, commission, salaries, expenses and
      the net of cash, with the profit and tithe that follow from it. */
  lemma FiguresFromRows(ro: Roster, p: Payload, reps: map<Id, Repayment>, dateCredits: int)
    requires Acceptable(ro, p)
    ensures var c, f := BuiltChildren(ro, p, reps), BuiltFigures(ro, p, reps, dateCredits);
      var credit := Sum(TotalByRider(c, CreditColumn));
      && f.sales == Sum(TotalByRider(c, ValueColumn)) + f.otherSales
      && f.creditSales == (if credit > dateCredits then credit else dateCredits)
      && f.borrowed == Sum(TotalByRider(c, BorrowedColumn)) && f.commission == Sum(EarnedByRow(c, Listed(p.riders)))
      && f.salary == Sum(PaidByRow(c)) && f.expenses == Spent(c.expenses)
      && f.otherSales == p.otherSales && f.repayments == Sum(map q | q in reps :: reps[q].amount)
      && f.net == Sum(CashByRow(c)) + f.otherSales - f.commission - f.salary
      && f.profit == f.net && f.tithe == (if f.net > 0 then f.net * p.titheRate else 0)
  {
    AcceptableKeys(ro, p);
    assert KeysOk(ro, p);
    hide *;
    ColumnTotal(ro, p, reps, CreditColumn);
    ColumnTotal(ro, p, reps, BorrowedColumn);
    ColumnTotal(ro, p, reps, ValueColumn);
    SaidInAllIsTally(ro, p.riders);
    CommissionFromRows(ro, p, reps, dateCredits);
    SalaryFromRows(ro, p, reps, dateCredits);
    AllSpent(ro, p, reps, dateCredits);
    HistoryRowRecoversRemitted(ro, p, reps, dateCredits);
    SamePages(BuiltChildren(ro, p, reps));
    FiguresAgree(ro, p, reps, dateCredits);
  }

  // ---- On the database ---------------------------------------------------------------------------------------

  /** The totals of the company's credit lines of a day, linked or not. */
  function DayTotals(L: Ledger, co: Id, d: int): map<Id, int> {
    map l | l in L.lines && L.lines[l].company == co && L.lines[l].date == d :: L.lines[l].total
  }

  function LinkedUnits(L: Ledger, ro: Roster, id: Id, r: Id): map<Id, int> {
    map q | q in L.payments && L.payments[q].remittance == Some(id) && L.payments[q].line in L.lines
            && L.lines[L.payments[q].line].careOf == Some(r)
      :: L.payments[q].containers * RateOf(ro, r, L.lines[L.payments[q].line].product)
  }

  lemma StoredParts(db: S.Db, rq: S.Request)
    requires (rq.CreateRequest? || rq.SaveRequest?) && S.Step(db, rq).Ok?
    ensures var M, R := S.Discard(db, S.OfDay(db, rq.ro.company, rq.d)).ledger, S.After(db, rq);
      var reps := S.RepaymentsOf(M, S.Eligible(M, rq.ro.company, rq.d));
      && Acceptable(rq.ro, rq.p) && rq.id in R.rems && R.ledger == S.Link(M, rq.id, rq.ro.company, rq.d)
      && R.rems[rq.id].children == BuiltChildren(rq.ro, rq.p, reps)
      && R.rems[rq.id].figures == BuiltFigures(rq.ro, rq.p, reps, Sum(S.CreditsOn(M, rq.ro.company, rq.d)))
  {
    Finalization.BuildIsStored(db, rq);
    hide S.Step, S.After, S.Discard, S.OfDay, S.RepaymentsOf, S.Eligible, S.Link, S.CreditsOn, BuiltChildren;
    hide BuiltFigures, Acceptable;
  }

  lemma DayTotalsKept(db: S.Db, rs: set<Id>, co: Id, d: int)
    ensures S.CreditsOn(S.Discard(db, rs).ledger, co, d) == DayTotals(db.ledger, co, d)
  {
  }

  lemma LinkedUnitsAre(M: Ledger, ro: Roster, id: Id, co: Id, d: int, r: Id)
    requires RunSafety.LinkedTo(S.Link(M, id, co, d), id) == S.Eligible(M, co, d)
    ensures LinkedUnits(S.Link(M, id, co, d), ro, id, r) == LateEarnings(ro, S.RepaymentsOf(M, S.Eligible(M, co, d)), r)
  {
    hide RateOf, S.IsEligible;
    var N, reps := S.Link(M, id, co, d), S.RepaymentsOf(M, S.Eligible(M, co, d));
    var a, b := LinkedUnits(N, ro, id, r), LateEarnings(ro, reps, r);
    forall q ensures q in a <==> q in b {
      assert q in N.payments && N.payments[q].remittance == Some(id) <==> q in RunSafety.LinkedTo(N, id);
    }
    forall q | q in a ensures a[q] == b[q] {}
    assert a == b;
  }

  /** On the database: the credit sales are at least the day's ledger credits, and are those or the payload's, whichever
      is more; and a driver the payload does not list earns the driver's rates on the units of the linked payments whose
      line names the driver. */
  lemma StoredFromLedger(db: S.Db, rq: S.Request)
    requires S.DbOk(db) && (rq.CreateRequest? || rq.SaveRequest?) && S.Step(db, rq).Ok?
    ensures rq.id in S.After(db, rq).rems
    ensures var L, rem := S.After(db, rq).ledger, S.After(db, rq).rems[rq.id];
      var credit, day := Sum(TotalByRider(rem.children, CreditColumn)), Sum(DayTotals(db.ledger, rq.ro.company, rq.d));
      && rem.figures.creditSales == (if credit > day then credit else day)
      && rem.figures.commission == Sum(EarnedByRow(rem.children, Listed(rq.p.riders)))
      && rem.figures.net == Sum(CashByRow(rem.children)) + rq.p.otherSales - rem.figures.commission - Sum(PaidByRow(rem.children))
      && forall r :: r in rem.children.riders && r !in Listed(rq.p.riders) ==>
           rem.children.riders[r] == RiderRow(0, Sum(LinkedUnits(L, rq.ro, rq.id, r)), None, None, [])
  {
    hide *;
    StoredParts(db, rq);
    var day := S.OfDay(db, rq.ro.company, rq.d);
    var M := S.Discard(db, day).ledger;
    var reps := S.RepaymentsOf(M, S.Eligible(M, rq.ro.company, rq.d));
    DayTotalsKept(db, day, rq.ro.company, rq.d);
    FiguresFromRows(rq.ro, rq.p, reps, Sum(S.CreditsOn(M, rq.ro.company, rq.d)));
    CommissionFromRows(rq.ro, rq.p, reps, Sum(S.CreditsOn(M, rq.ro.company, rq.d)));
    LinkedAreEligible(db, rq);
    forall r | r in S.After(db, rq).rems[rq.id].children.riders && r !in Listed(rq.p.riders)
      ensures S.After(db, rq).rems[rq.id].children.riders[r]
           == RiderRow(0, Sum(LinkedUnits(S.After(db, rq).ledger, rq.ro, rq.id, r)), None, None, [])
    {
      LinkedUnitsAre(M, rq.ro, rq.id, rq.ro.company, rq.d, r);
    }
  }

  lemma LinkedAreEligible(db: S.Db, rq: S.Request)
    requires S.DbOk(db) && (rq.CreateRequest? || rq.SaveRequest?) && S.Step(db, rq).Ok?
    ensures var M := S.Discard(db, S.OfDay(db, rq.ro.company, rq.d)).ledger;
      RunSafety.LinkedTo(S.Link(M, rq.id, rq.ro.company, rq.d), rq.id) == S.Eligible(M, rq.ro.company, rq.d)
  {
    var mid := S.Discard(db, S.OfDay(db, rq.ro.company, rq.d));
    Finalization.BuildIsStored(db, rq);
    RunSafety.DiscardKeepsDbOk(db, S.OfDay(db, rq.ro.company, rq.d));
    hide S.Step, S.After, S.Discard, S.OfDay, S.Eligible, S.Link, Inv, S.OnePerDay, S.DeletedAreClear, Priced;
    hide S.BuiltRemittance, RunSafety.LinkedTo;
    RepaymentTotals.NoLinkTo(mid, rq.id);
    RepaymentTotals.PaymentsHaveLines(mid.ledger);
    RepaymentTotals.NewRemittanceBalanced(mid.ledger, rq.id, rq.ro.company, rq.d);
  }
}
