/** The daily remittance: the client payload, the stored rows, and what a build makes of the one and the other.
    The definitions here are declarative, table by table and total by total; the one-pass build is proved to
    compute them. Money is in centavos; the tithe is in ten-thousandths of a centavo. */
module RemittanceModel {
  import opened FiniteSums
  import opened Ledger

  // ---- The payload ---------------------------------------------------------------------------------

  /** An expense or a deduction as typed. */
  datatype Note = Note(desc: string, amount: int)

  datatype ProductEntry = ProductEntry(product: Id, sold: int, credited: int, borrowed: int, repaid: int)

  datatype RiderEntry = RiderEntry(rider: Id, lines: seq<ProductEntry>, override: Option<int>, remitted: Option<int>,
                                   expenses: seq<Note>, deductions: seq<Note>)

  datatype StaffEntry = StaffEntry(staff: Id, override: Option<int>, deductions: seq<Note>, expenses: seq<Note>)

  /** `titheRate` is in ten-thousandths. */
  datatype Payload = Payload(riders: seq<RiderEntry>, expenses: seq<Note>, offering: int, titheRate: int,
                             otherSales: int, staff: seq<StaffEntry>)

  /** What the build looks up: the company's active riders and staff (with daily rates), products (with prices)
      and commission rates. */
  datatype Roster = Roster(company: Id, riders: set<Id>, staff: map<Id, int>, prices: map<Id, int>,
                           rates: map<(Id, Id), int>) {
    function Price(product: Id): int { if product in prices then prices[product] else 0 }

    function Rate(rider: Id, product: Id): int { if (rider, product) in rates then rates[(rider, product)] else 0 }

    predicate NonNegative() {
      && (forall p :: p in prices ==> 0 <= prices[p])
      && (forall k :: k in rates ==> 0 <= rates[k])
    }
  }

  /** A customer payment collected on the day, with the care-of user and product of its line. */
  datatype Repayment = Repayment(careOf: Option<Id>, product: Id, units: int, amount: int)

  // ---- The stored rows -----------------------------------------------------------------------------

  datatype RiderRow = RiderRow(payable: int, commission: int, override: Option<int>, remitted: Option<int>,
                               deductions: seq<Note>)

  datatype ProductRow = ProductRow(sold: int, credited: int, borrowed: int, price: int, rate: int,
                                   payable: int, credit: int, commission: int)

  datatype Owner = General | OfRider(rider: Id) | OfStaff(staff: Id)

  datatype ExpenseRow = ExpenseRow(owner: Owner, note: Note)

  datatype StaffRow = StaffRow(rate: int, override: Option<int>, deductions: seq<Note>, deducted: int, netPay: int) {
    function EffectiveSalary(): int { if override.Some? then override.value else rate }
  }

  datatype Children = Children(riders: map<Id, RiderRow>, products: map<(Id, Id), ProductRow>,
                               expenses: seq<ExpenseRow>, staff: map<Id, StaffRow>)

  datatype Figures = Figures(sales: int, creditSales: int, commission: int, salary: int, expenses: int, otherSales: int,
                             borrowed: int, repayments: int, net: int, profit: int, tithe: int)

  datatype Status = Draft | Finalized

  datatype Remittance = Remittance(company: Id, date: int, createdBy: Id, status: Status, figures: Figures,
                                   titheRate: int, offering: int, tithesPaid: bool, offeringPaid: bool,
                                   finalizedBy: Option<Id>, finalizedAt: Option<int>, children: Children)

  // ---- Notes ---------------------------------------------------------------------------------------

  predicate Space(c: char) { c == ' ' || c == '\t' || c == '\n' || c == '\r' }

  function TrimLeft(s: string): string { if s != "" && Space(s[0]) then TrimLeft(s[1..]) else s }

  function TrimRight(s: string): string { if s != "" && Space(s[|s| - 1]) then TrimRight(s[..|s| - 1]) else s }

  function Trim(s: string): string { TrimRight(TrimLeft(s)) }

  const UNNAMED := "(unnamed)"

  /** An untouched row of the form. */
  predicate Blank(n: Note) { Trim(n.desc) == "" && n.amount == 0 }

  function Stored(n: Note): Note { Note(if Trim(n.desc) == "" then UNNAMED else Trim(n.desc), n.amount) }

  /** The notes that become rows. */
  function Kept(ns: seq<Note>): seq<Note> {
    if ns == [] then [] else
    Kept(ns[..|ns| - 1]) + (if Blank(ns[|ns| - 1]) then [] else [Stored(ns[|ns| - 1])])
  }

  function AmountOf(ns: seq<Note>): int {
    if ns == [] then 0 else AmountOf(ns[..|ns| - 1]) + ns[|ns| - 1].amount
  }

  // ---- Riders --------------------------------------------------------------------------------------

  function Max0(x: int): int { if x > 0 then x else 0 }

  function OrZero(o: Option<int>): int { if o.Some? then o.value else 0 }

  /** Units the rider must remit for: sold, less given on credit, plus repaid. */
  function UnitsDue(e: ProductEntry): int { Max0(e.sold - e.credited + e.repaid) }

  /** A line with no activity gets no row. */
  predicate Skipped(e: ProductEntry) { UnitsDue(e) == 0 && e.credited == 0 && e.borrowed == 0 }

  datatype LineTally = LineTally(payable: int, commission: int, credit: int, gross: int, borrowed: int) {
    function Plus(o: LineTally): LineTally {
      LineTally(payable + o.payable, commission + o.commission, credit + o.credit, gross + o.gross, borrowed + o.borrowed)
    }
  }

  function LineFigures(ro: Roster, rider: Id, e: ProductEntry): LineTally {
    LineTally(UnitsDue(e) * ro.Price(e.product), UnitsDue(e) * ro.Rate(rider, e.product),
              e.credited * ro.Price(e.product), e.sold * ro.Price(e.product), e.borrowed)
  }

  /** Totals over all of a rider's lines, the skipped ones included. */
  function TallyLines(ro: Roster, rider: Id, es: seq<ProductEntry>): LineTally {
    if es == [] then LineTally(0, 0, 0, 0, 0) else
    TallyLines(ro, rider, es[..|es| - 1]).Plus(LineFigures(ro, rider, es[|es| - 1]))
  }

  function Payable(ro: Roster, r: RiderEntry): int { TallyLines(ro, r.rider, r.lines).payable }

  /** Gross commission: the override if one was typed, else units due at the rider's rates. */
  function GrossCommission(ro: Roster, r: RiderEntry): int {
    if r.override.Some? then r.override.value else TallyLines(ro, r.rider, r.lines).commission
  }

  /** What the rider should have remitted and did not. */
  function ShortfallOf(ro: Roster, r: RiderEntry): int {
    Max0(Payable(ro, r) - AmountOf(r.expenses) - OrZero(r.remitted))
  }

  function NetCommission(ro: Roster, r: RiderEntry): int {
    Max0(GrossCommission(ro, r) - ShortfallOf(ro, r) - AmountOf(r.deductions))
  }

  datatype RiderTally = RiderTally(gross: int, credit: int, borrowed: int, remitted: int, expenses: int, commission: int) {
    function Plus(o: RiderTally): RiderTally {
      RiderTally(gross + o.gross, credit + o.credit, borrowed + o.borrowed, remitted + o.remitted,
                 expenses + o.expenses, commission + o.commission)
    }
  }

  function RiderFigures(ro: Roster, r: RiderEntry): RiderTally {
    var t := TallyLines(ro, r.rider, r.lines);
    RiderTally(t.gross, t.credit, t.borrowed, OrZero(r.remitted), AmountOf(r.expenses), NetCommission(ro, r))
  }

  function TallyRiders(ro: Roster, rs: seq<RiderEntry>): RiderTally {
    if rs == [] then RiderTally(0, 0, 0, 0, 0, 0) else
    TallyRiders(ro, rs[..|rs| - 1]).Plus(RiderFigures(ro, rs[|rs| - 1]))
  }

  function RiderRowOf(ro: Roster, r: RiderEntry): RiderRow {
    RiderRow(Payable(ro, r), GrossCommission(ro, r), r.override, r.remitted, Kept(r.deductions))
  }

  function RiderRows(ro: Roster, rs: seq<RiderEntry>): map<Id, RiderRow> {
    if rs == [] then map[] else
    RiderRows(ro, rs[..|rs| - 1])[rs[|rs| - 1].rider := RiderRowOf(ro, rs[|rs| - 1])]
  }

  function ProductRowOf(ro: Roster, rider: Id, e: ProductEntry): ProductRow {
    var t := LineFigures(ro, rider, e);
    ProductRow(e.sold, e.credited, e.borrowed, ro.Price(e.product), ro.Rate(rider, e.product), t.payable, t.credit, t.commission)
  }

  function LineRows(ro: Roster, rider: Id, es: seq<ProductEntry>): map<(Id, Id), ProductRow> {
    if es == [] then map[] else
    var init, e := LineRows(ro, rider, es[..|es| - 1]), es[|es| - 1];
    if Skipped(e) then init else init[(rider, e.product) := ProductRowOf(ro, rider, e)]
  }

  function ProductRows(ro: Roster, rs: seq<RiderEntry>): map<(Id, Id), ProductRow> {
    if rs == [] then map[] else
    ProductRows(ro, rs[..|rs| - 1]) + LineRows(ro, rs[|rs| - 1].rider, rs[|rs| - 1].lines)
  }

  function Expensed(owner: Owner, ns: seq<Note>): seq<ExpenseRow> {
    if ns == [] then [] else Expensed(owner, ns[..|ns| - 1]) + [ExpenseRow(owner, ns[|ns| - 1])]
  }

  function RiderExpenses(rs: seq<RiderEntry>): seq<ExpenseRow> {
    if rs == [] then [] else
    RiderExpenses(rs[..|rs| - 1]) + Expensed(OfRider(rs[|rs| - 1].rider), Kept(rs[|rs| - 1].expenses))
  }

  // ---- Repayments ----------------------------------------------------------------------------------

  function Listed(rs: seq<RiderEntry>): set<Id> { set r | r in rs :: r.rider }

  /** Active drivers with repayments on the day who are not in the payload. */
  function Unlisted(ro: Roster, rs: seq<RiderEntry>, reps: map<Id, Repayment>): set<Id> {
    (set p | p in reps && reps[p].careOf.Some? :: reps[p].careOf.value) * ro.riders - Listed(rs)
  }

  /** A driver's repayments at the driver's rates. */
  function RepaymentEarnings(ro: Roster, reps: map<Id, Repayment>, d: Id): map<Id, int> {
    map p | p in reps && reps[p].careOf == Some(d) :: reps[p].units * ro.Rate(d, reps[p].product)
  }

  ghost function RepaymentCommission(ro: Roster, reps: map<Id, Repayment>, d: Id): int {
    Sum(RepaymentEarnings(ro, reps, d))
  }

  function RepaymentAmounts(reps: map<Id, Repayment>): map<Id, int> { map p | p in reps :: reps[p].amount }

  ghost function UnlistedCommissions(ro: Roster, reps: map<Id, Repayment>, ds: set<Id>): map<Id, int> {
    map d | d in ds :: RepaymentCommission(ro, reps, d)
  }

  ghost function UnlistedRows(ro: Roster, reps: map<Id, Repayment>, ds: set<Id>): map<Id, RiderRow> {
    map d | d in ds :: RiderRow(0, RepaymentCommission(ro, reps, d), None, None, [])
  }

  // ---- Staff ---------------------------------------------------------------------------------------

  /** Entries for anyone but active staff are ignored. */
  function ActiveStaff(ro: Roster, ss: seq<StaffEntry>): seq<StaffEntry> {
    if ss == [] then [] else
    ActiveStaff(ro, ss[..|ss| - 1]) + (if ss[|ss| - 1].staff in ro.staff then [ss[|ss| - 1]] else [])
  }

  function Salary(ro: Roster, s: StaffEntry): int {
    if s.override.Some? then s.override.value else if s.staff in ro.staff then ro.staff[s.staff] else 0
  }

  function StaffRowOf(ro: Roster, s: StaffEntry): StaffRow {
    StaffRow(if s.staff in ro.staff then ro.staff[s.staff] else 0, s.override, Kept(s.deductions),
             AmountOf(s.deductions), Salary(ro, s) - AmountOf(s.deductions))
  }

  function SalaryOf(ro: Roster, ss: seq<StaffEntry>): int {
    if ss == [] then 0 else SalaryOf(ro, ss[..|ss| - 1]) + Salary(ro, ss[|ss| - 1])
  }

  function StaffSpent(ss: seq<StaffEntry>): int {
    if ss == [] then 0 else StaffSpent(ss[..|ss| - 1]) + AmountOf(ss[|ss| - 1].expenses)
  }

  function StaffRows(ro: Roster, ss: seq<StaffEntry>): map<Id, StaffRow> {
    if ss == [] then map[] else StaffRows(ro, ss[..|ss| - 1])[ss[|ss| - 1].staff := StaffRowOf(ro, ss[|ss| - 1])]
  }

  function StaffExpenses(ss: seq<StaffEntry>): seq<ExpenseRow> {
    if ss == [] then [] else
    StaffExpenses(ss[..|ss| - 1]) + Expensed(OfStaff(ss[|ss| - 1].staff), Kept(ss[|ss| - 1].expenses))
  }

  // ---- What a payload must satisfy -----------------------------------------------------------------

  predicate NotesOk(ns: seq<Note>) { forall i :: 0 <= i < |ns| ==> 0 <= ns[i].amount }

  predicate EntryOk(e: ProductEntry) { 0 <= e.sold && 0 <= e.credited && 0 <= e.borrowed && 0 <= e.repaid }

  predicate LinesOk(es: seq<ProductEntry>) { forall i :: 0 <= i < |es| ==> EntryOk(es[i]) }

  predicate ProductsKnown(ro: Roster, rs: seq<RiderEntry>) {
    forall i, j :: 0 <= i < |rs| && 0 <= j < |rs[i].lines| ==> rs[i].lines[j].product in ro.prices
  }

  predicate RiderOk(ro: Roster, r: RiderEntry) {
    r.rider in ro.riders && LinesOk(r.lines) && NotesOk(r.expenses) && NotesOk(r.deductions)
  }

  predicate RidersOk(ro: Roster, rs: seq<RiderEntry>) { forall i :: 0 <= i < |rs| ==> RiderOk(ro, rs[i]) }

  predicate StaffOk(s: StaffEntry) {
    (s.override.Some? ==> 0 <= s.override.value) && NotesOk(s.deductions) && NotesOk(s.expenses)
  }

  predicate AllStaffOk(ss: seq<StaffEntry>) { forall i :: 0 <= i < |ss| ==> StaffOk(ss[i]) }

  /** Every name resolves and no quantity or amount is negative. */
  predicate FieldsOk(ro: Roster, p: Payload) {
    ProductsKnown(ro, p.riders) && RidersOk(ro, p.riders) && NotesOk(p.expenses) && AllStaffOk(ActiveStaff(ro, p.staff))
  }

  predicate LineKeysOk(es: seq<ProductEntry>) {
    forall i, j :: 0 <= i < j < |es| && !Skipped(es[i]) && !Skipped(es[j]) ==> es[i].product != es[j].product
  }

  predicate RiderKeysOk(rs: seq<RiderEntry>) {
    && (forall i, j :: 0 <= i < j < |rs| ==> rs[i].rider != rs[j].rider)
    && (forall i :: 0 <= i < |rs| ==> LineKeysOk(rs[i].lines))
  }

  predicate StaffKeysOk(ss: seq<StaffEntry>) { forall i, j :: 0 <= i < j < |ss| ==> ss[i].staff != ss[j].staff }

  /** No two rows for one rider, one rider's product or one staff member: the unique constraints. */
  predicate KeysOk(ro: Roster, p: Payload) { RiderKeysOk(p.riders) && StaffKeysOk(ActiveStaff(ro, p.staff)) }

  predicate Acceptable(ro: Roster, p: Payload) { FieldsOk(ro, p) && KeysOk(ro, p) }

  // ---- The build -----------------------------------------------------------------------------------

  ghost function BuiltChildren(ro: Roster, p: Payload, reps: map<Id, Repayment>): Children {
    var staff := ActiveStaff(ro, p.staff);
    Children(RiderRows(ro, p.riders) + UnlistedRows(ro, reps, Unlisted(ro, p.riders, reps)), ProductRows(ro, p.riders),
             RiderExpenses(p.riders) + Expensed(General, Kept(p.expenses)) + StaffExpenses(staff), StaffRows(ro, staff))
  }

  /** `dateCredits` is the total of the credit lines dated that day. */
  ghost function BuiltFigures(ro: Roster, p: Payload, reps: map<Id, Repayment>, dateCredits: int): Figures {
    var t, staff := TallyRiders(ro, p.riders), ActiveStaff(ro, p.staff);
    var commission := t.commission + Sum(UnlistedCommissions(ro, reps, Unlisted(ro, p.riders, reps)));
    var net := t.remitted + p.otherSales - commission - SalaryOf(ro, staff);
    Figures(t.gross + p.otherSales, if t.credit > dateCredits then t.credit else dateCredits, commission, SalaryOf(ro, staff),
            t.expenses + AmountOf(p.expenses) + StaffSpent(staff), p.otherSales, t.borrowed, Sum(RepaymentAmounts(reps)),
            net, net, Max0(net) * p.titheRate)
  }
}
