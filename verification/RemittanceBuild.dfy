/** The one-pass build of a remittance: nested loops that validate, skip empty rows, write rows and accumulate
    totals as they go, proved to produce exactly the declarative rows and totals. */
module RemittanceBuild {
  import opened FiniteSums
  import opened Ledger
  import opened RemittanceModel

  // ---- Stepping the declarative definitions ----------------------------------------------------------

  lemma KeptStep(ns: seq<Note>, i: nat)
    requires i < |ns|
    ensures Kept(ns[..i + 1]) == Kept(ns[..i]) + (if Blank(ns[i]) then [] else [Stored(ns[i])])
    ensures AmountOf(ns[..i + 1]) == AmountOf(ns[..i]) + ns[i].amount
  {
    assert ns[..i + 1][..i] == ns[..i];
  }

  lemma LineRowsStep(ro: Roster, rider: Id, es: seq<ProductEntry>, i: nat)
    requires i < |es|
    ensures LineRows(ro, rider, es[..i + 1])
         == if Skipped(es[i]) then LineRows(ro, rider, es[..i])
            else LineRows(ro, rider, es[..i])[(rider, es[i].product) := ProductRowOf(ro, rider, es[i])]
    ensures TallyLines(ro, rider, es[..i + 1]) == TallyLines(ro, rider, es[..i]).Plus(LineFigures(ro, rider, es[i]))
  {
    assert es[..i + 1][..i] == es[..i];
  }

  /** The products a rider has rows for. */
  lemma {:induction false} LineRowsKeys(ro: Roster, rider: Id, es: seq<ProductEntry>, k: (Id, Id))
    ensures k in LineRows(ro, rider, es) <==> k.0 == rider && exists i :: 0 <= i < |es| && !Skipped(es[i]) && es[i].product == k.1
  {
    if es != [] {
      var n := |es| - 1;
      LineRowsKeys(ro, rider, es[..n], k);
      if i :| 0 <= i < |es| && !Skipped(es[i]) && es[i].product == k.1 && i < n {
        assert es[..n][i] == es[i];
      }
    }
  }

  /** The row rule loses nothing: a skipped line adds nothing to any total. */
  lemma SkippedAddsNothing(ro: Roster, rider: Id, e: ProductEntry)
    requires EntryOk(e) && Skipped(e)
    ensures LineFigures(ro, rider, e) == LineTally(0, 0, 0, 0, 0)
    ensures e.sold == 0 && e.repaid == 0
  {
  }

  lemma RidersStep(ro: Roster, rs: seq<RiderEntry>, i: nat)
    requires i < |rs|
    ensures RiderRows(ro, rs[..i + 1]) == RiderRows(ro, rs[..i])[rs[i].rider := RiderRowOf(ro, rs[i])]
    ensures ProductRows(ro, rs[..i + 1]) == ProductRows(ro, rs[..i]) + LineRows(ro, rs[i].rider, rs[i].lines)
    ensures RiderExpenses(rs[..i + 1]) == RiderExpenses(rs[..i]) + Expensed(OfRider(rs[i].rider), Kept(rs[i].expenses))
    ensures TallyRiders(ro, rs[..i + 1]) == TallyRiders(ro, rs[..i]).Plus(RiderFigures(ro, rs[i]))
  {
    assert rs[..i + 1][..i] == rs[..i];
  }

  lemma {:induction false} RiderRowsKeys(ro: Roster, rs: seq<RiderEntry>)
    ensures RiderRows(ro, rs).Keys == Listed(rs)
  {
    if rs != [] {
      var init, r := rs[..|rs| - 1], rs[|rs| - 1];
      RiderRowsKeys(ro, init);
      assert rs == init + [r];
      assert Listed(rs) == Listed(init) + {r.rider};
    }
  }

  lemma StaffStep(ro: Roster, ss: seq<StaffEntry>, i: nat)
    requires i < |ss|
    ensures ActiveStaff(ro, ss[..i + 1])
         == if ss[i].staff in ro.staff then ActiveStaff(ro, ss[..i]) + [ss[i]] else ActiveStaff(ro, ss[..i])
  {
    assert ss[..i + 1][..i] == ss[..i];
  }

  lemma StaffSnoc(ro: Roster, ss: seq<StaffEntry>, s: StaffEntry)
    ensures StaffRows(ro, ss + [s]) == StaffRows(ro, ss)[s.staff := StaffRowOf(ro, s)]
    ensures SalaryOf(ro, ss + [s]) == SalaryOf(ro, ss) + Salary(ro, s)
    ensures StaffSpent(ss + [s]) == StaffSpent(ss) + AmountOf(s.expenses)
    ensures StaffExpenses(ss + [s]) == StaffExpenses(ss) + Expensed(OfStaff(s.staff), Kept(s.expenses))
  {
    assert (ss + [s])[..|ss|] == ss;
  }

  lemma {:induction false} StaffRowsKeys(ro: Roster, ss: seq<StaffEntry>)
    ensures StaffRows(ro, ss).Keys == set s | s in ss :: s.staff
  {
    if ss != [] {
      var init, s := ss[..|ss| - 1], ss[|ss| - 1];
      StaffRowsKeys(ro, init);
      assert ss == init + [s];
      assert (set x | x in ss :: x.staff) == (set x | x in init :: x.staff) + {s.staff};
    }
  }

  lemma {:induction false} ActiveStaffPrefix(ro: Roster, ss: seq<StaffEntry>, i: nat)
    requires i <= |ss|
    ensures ActiveStaff(ro, ss[..i]) <= ActiveStaff(ro, ss)
  {
    if i == |ss| {
      assert ss[..i] == ss;
    } else {
      ActiveStaffPrefix(ro, ss[..|ss| - 1], i);
      assert ss[..|ss| - 1][..i] == ss[..i];
    }
  }

  // ---- The loops -------------------------------------------------------------------------------------

  /** One of the note loops: skip blank notes, refuse negative amounts, keep the rest and add them up. */
  method KeepNotes(ns: seq<Note>) returns (ok: bool, kept: seq<Note>, total: int)
    ensures ok <==> NotesOk(ns)
    ensures ok ==> kept == Kept(ns) && total == AmountOf(ns)
  {
    kept, total := [], 0;
    for i := 0 to |ns|
      invariant NotesOk(ns[..i]) && kept == Kept(ns[..i]) && total == AmountOf(ns[..i])
    {
      KeptStep(ns, i);
      var desc := Trim(ns[i].desc);
      if desc == "" && ns[i].amount == 0 { continue; }
      if ns[i].amount < 0 { return false, [], 0; }
      kept := kept + [Note(if desc == "" then UNNAMED else desc, ns[i].amount)];
      total := total + ns[i].amount;
    }
    assert ns[..|ns|] == ns;
    ok := true;
  }

  lemma NoLines(ro: Roster, rider: Id)
    ensures LineKeysOk([]) && LineRows(ro, rider, []) == map[] && TallyLines(ro, rider, []) == LineTally(0, 0, 0, 0, 0)
  {
  }

  lemma SecondRow(ro: Roster, rider: Id, es: seq<ProductEntry>, i: nat)
    requires i < |es| && !Skipped(es[i]) && (rider, es[i].product) in LineRows(ro, rider, es[..i])
    ensures !LineKeysOk(es)
  {
    LineRowsKeys(ro, rider, es[..i], (rider, es[i].product));
    var j :| 0 <= j < i && !Skipped(es[..i][j]) && es[..i][j].product == es[i].product;
    assert es[j].product == es[i].product;
  }

  lemma FirstRow(ro: Roster, rider: Id, es: seq<ProductEntry>, i: nat)
    requires i < |es| && LineKeysOk(es[..i])
    requires !Skipped(es[i]) ==> (rider, es[i].product) !in LineRows(ro, rider, es[..i])
    ensures LineKeysOk(es[..i + 1])
  {
    LineRowsKeys(ro, rider, es[..i], (rider, es[i].product));
    var more := es[..i + 1];
    forall a, b | 0 <= a < b < |more| && !Skipped(more[a]) && !Skipped(more[b]) ensures more[a].product != more[b].product {
      assert more[a] == es[..i][a];
      if b < i { assert more[b] == es[..i][b]; }
    }
  }

  /** A rider's product lines. */
  method KeepLines(ro: Roster, rider: Id, es: seq<ProductEntry>)
    returns (r: Result<(map<(Id, Id), ProductRow>, LineTally)>)
    ensures r.Ok? <==> LinesOk(es) && LineKeysOk(es)
    ensures r.Ok? ==> r.value == (LineRows(ro, rider, es), TallyLines(ro, rider, es))
    ensures r.Err? ==> r == Err(PayloadRejected) || r == Err(ConstraintViolated)
    ensures r == Err(PayloadRejected) ==> !LinesOk(es)
    ensures r == Err(ConstraintViolated) ==> !LineKeysOk(es)
  {
    hide LineKeysOk, LineRows, TallyLines;
    var rows: map<(Id, Id), ProductRow> := map[];
    assert es[..0] == [];
    NoLines(ro, rider);
    var payable, commission, credit, gross, borrowed := 0, 0, 0, 0, 0;
    for i := 0 to |es|
      invariant LinesOk(es[..i]) && LineKeysOk(es[..i]) && rows == LineRows(ro, rider, es[..i])
      invariant LineTally(payable, commission, credit, gross, borrowed) == TallyLines(ro, rider, es[..i])
    {
      var e := es[i];
      LineRowsStep(ro, rider, es, i);
      if e.sold < 0 || e.credited < 0 || e.borrowed < 0 || e.repaid < 0 { return Err(PayloadRejected); }
      var paid := if e.sold - e.credited + e.repaid > 0 then e.sold - e.credited + e.repaid else 0;
      var price, rate := ro.Price(e.product), ro.Rate(rider, e.product);
      if paid == 0 && e.credited == 0 && e.borrowed == 0 {
        SkippedAddsNothing(ro, rider, e);
        FirstRow(ro, rider, es, i);
        continue;
      }
      if (rider, e.product) in rows {
        SecondRow(ro, rider, es, i);
        return Err(ConstraintViolated);
      }
      FirstRow(ro, rider, es, i);
      rows := rows[(rider, e.product) := ProductRow(e.sold, e.credited, e.borrowed, price, rate, paid * price,
                                                    e.credited * price, paid * rate)];
      payable, commission, credit := payable + paid * price, commission + paid * rate, credit + e.credited * price;
      borrowed, gross := borrowed + e.borrowed, gross + e.sold * price;
    }
    assert es[..|es|] == es;
    return Ok((rows, LineTally(payable, commission, credit, gross, borrowed)));
  }

  /** One rider of the payload, from the lines to the net commission. */
  method KeepRider(ro: Roster, e: RiderEntry)
    returns (r: Result<(RiderRow, map<(Id, Id), ProductRow>, seq<Note>, RiderTally)>)
    requires e.rider in ro.riders
    ensures r.Ok? <==> RiderOk(ro, e) && LineKeysOk(e.lines)
    ensures r.Ok? ==> r.value == (RiderRowOf(ro, e), LineRows(ro, e.rider, e.lines), Kept(e.expenses), RiderFigures(ro, e))
    ensures r.Err? ==> r == Err(PayloadRejected) || r == Err(ConstraintViolated)
    ensures r == Err(PayloadRejected) ==> !RiderOk(ro, e)
    ensures r == Err(ConstraintViolated) ==> !LineKeysOk(e.lines)
  {
    hide LineRows, TallyLines, Kept, AmountOf, LinesOk, LineKeysOk, NotesOk;
    var lines := KeepLines(ro, e.rider, e.lines);
    if lines.Err? { return Err(lines.error); }
    var (rows, t) := lines.value;
    var commission := t.commission;
    if e.override.Some? { commission := e.override.value; }
    var remitted := 0;
    if e.remitted.Some? { remitted := e.remitted.value; }
    var ok, expenses, spent := KeepNotes(e.expenses);
    if !ok { return Err(PayloadRejected); }
    var deductions, deducted;
    ok, deductions, deducted := KeepNotes(e.deductions);
    if !ok { return Err(PayloadRejected); }
    var balance := t.payable - spent - remitted;
    var shortfall := if balance > 0 then balance else 0;
    var left := commission - shortfall - deducted;
    var net := if left > 0 then left else 0;
    return Ok((RiderRow(t.payable, commission, e.override, e.remitted, deductions), rows, expenses,
               RiderTally(t.gross, t.credit, t.borrowed, remitted, spent, net)));
  }

  /** Every payment but those in `todo` sits in the group of its care-of user, and nothing else does. */
  ghost predicate GroupedUpTo(reps: map<Id, Repayment>, groups: map<Option<Id>, set<Id>>, todo: set<Id>) {
    && (forall p :: p in reps && p !in todo ==> reps[p].careOf in groups && p in groups[reps[p].careOf])
    && (forall k :: k in groups ==> groups[k] != {} && GroupOk(reps, k, groups[k]))
  }

  ghost predicate GroupOk(reps: map<Id, Repayment>, k: Option<Id>, ps: set<Id>) {
    forall p :: p in ps ==> p in reps && reps[p].careOf == k
  }

  lemma GroupOne(reps: map<Id, Repayment>, groups: map<Option<Id>, set<Id>>, todo: set<Id>, p: Id)
    requires GroupedUpTo(reps, groups, todo) && p in todo && p in reps
    ensures var k := reps[p].careOf;
      GroupedUpTo(reps, groups[k := (if k in groups then groups[k] else {}) + {p}], todo - {p})
  {
    var k := reps[p].careOf;
    var mine := if k in groups then groups[k] else {};
    var more := groups[k := mine + {p}];
    assert GroupOk(reps, k, mine) ==> GroupOk(reps, k, mine + {p});
    hide GroupOk;
    forall q | q in reps && q !in todo - {p} ensures reps[q].careOf in more && q in more[reps[q].careOf] {
      if q != p { assert q in groups[reps[q].careOf]; }
    }
  }

  /** Payments by the care-of user of their line. */
  method GroupRepayments(reps: map<Id, Repayment>) returns (groups: map<Option<Id>, set<Id>>)
    ensures Grouped(reps, groups)
  {
    groups := map[];
    var todo := reps.Keys;
    while todo != {}
      invariant todo <= reps.Keys && GroupedUpTo(reps, groups, todo)
      decreases |todo|
    {
      var p :| p in todo;
      GroupOne(reps, groups, todo, p);
      todo := todo - {p};
      var k := reps[p].careOf;
      groups := groups[k := (if k in groups then groups[k] else {}) + {p}];
    }
  }

  function AmountsIn(reps: map<Id, Repayment>, ps: set<Id>): map<Id, int> { map p | p in reps && p in ps :: reps[p].amount }

  method AddAmounts(reps: map<Id, Repayment>, ps: set<Id>) returns (total: int)
    requires ps <= reps.Keys
    ensures total == Sum(AmountsIn(reps, ps))
  {
    total := 0;
    var todo := ps;
    SumEmpty();
    assert AmountsIn(reps, {}) == map[];
    assert ps - todo == {};
    while todo != {}
      invariant todo <= ps && total == Sum(AmountsIn(reps, ps - todo))
      decreases |todo|
    {
      var p :| p in todo;
      SumPut(AmountsIn(reps, ps - todo), p, reps[p].amount);
      assert AmountsIn(reps, ps - (todo - {p})) == AmountsIn(reps, ps - todo)[p := reps[p].amount];
      todo := todo - {p};
      total := total + reps[p].amount;
    }
    assert ps - todo == ps;
  }

  function EarningsIn(ro: Roster, reps: map<Id, Repayment>, d: Id, ps: set<Id>): map<Id, int> {
    map p | p in reps && p in ps :: reps[p].units * ro.Rate(d, reps[p].product)
  }

  method AddEarnings(ro: Roster, reps: map<Id, Repayment>, d: Id, ps: set<Id>) returns (total: int)
    requires ps <= reps.Keys
    ensures total == Sum(EarningsIn(ro, reps, d, ps))
  {
    total := 0;
    var todo := ps;
    SumEmpty();
    assert EarningsIn(ro, reps, d, {}) == map[];
    assert ps - todo == {};
    while todo != {}
      invariant todo <= ps && total == Sum(EarningsIn(ro, reps, d, ps - todo))
      decreases |todo|
    {
      var p :| p in todo;
      var earned := reps[p].units * ro.Rate(d, reps[p].product);
      SumPut(EarningsIn(ro, reps, d, ps - todo), p, earned);
      assert EarningsIn(ro, reps, d, ps - (todo - {p})) == EarningsIn(ro, reps, d, ps - todo)[p := earned];
      todo := todo - {p};
      total := total + earned;
    }
    assert ps - todo == ps;
  }

  lemma AmountsJoin(reps: map<Id, Repayment>, a: set<Id>, b: set<Id>)
    requires a !! b
    ensures Sum(AmountsIn(reps, a + b)) == Sum(AmountsIn(reps, a)) + Sum(AmountsIn(reps, b))
  {
    var m := AmountsIn(reps, a + b);
    SumSplit(m, a);
    assert (map k | k in m && k in a :: m[k]) == AmountsIn(reps, a);
    assert m - a == AmountsIn(reps, b);
  }

  /** The payments of the groups already visited. */
  ghost function Visited(groups: map<Option<Id>, set<Id>>, todo: set<Option<Id>>): set<Id> {
    set k, p | k in groups.Keys - todo && p in groups[k] :: p
  }

  ghost function DriversOf(keys: set<Option<Id>>): set<Id> { set k | k in keys && k.Some? :: k.value }

  ghost predicate Grouped(reps: map<Id, Repayment>, groups: map<Option<Id>, set<Id>>) { GroupedUpTo(reps, groups, {}) }

  lemma VisitGroup(reps: map<Id, Repayment>, groups: map<Option<Id>, set<Id>>, todo: set<Option<Id>>, k: Option<Id>)
    requires Grouped(reps, groups) && k in todo && todo <= groups.Keys
    ensures Sum(AmountsIn(reps, Visited(groups, todo - {k}))) == Sum(AmountsIn(reps, Visited(groups, todo))) + Sum(AmountsIn(reps, groups[k]))
    ensures var seen := DriversOf(groups.Keys - todo);
      DriversOf(groups.Keys - (todo - {k})) == if k.Some? then seen + {k.value} else seen
    ensures k.Some? ==> k.value !in DriversOf(groups.Keys - todo)
  {
    AmountsJoin(reps, Visited(groups, todo), groups[k]);
    assert groups.Keys - (todo - {k}) == (groups.Keys - todo) + {k};
    assert Visited(groups, todo - {k}) == Visited(groups, todo) + groups[k];
  }

  lemma DriverEarned(ro: Roster, reps: map<Id, Repayment>, ds: set<Id>, d: Id, ps: set<Id>)
    requires (forall p :: p in ps <==> p in reps && reps[p].careOf == Some(d)) && d !in ds
    ensures RepaymentCommission(ro, reps, d) == Sum(EarningsIn(ro, reps, d, ps))
    ensures Sum(UnlistedCommissions(ro, reps, ds + {d})) == Sum(UnlistedCommissions(ro, reps, ds)) + RepaymentCommission(ro, reps, d)
  {
    assert EarningsIn(ro, reps, d, ps) == RepaymentEarnings(ro, reps, d);
    hide RepaymentEarnings;
    var more := UnlistedCommissions(ro, reps, ds + {d});
    SumDrop(more, d);
    assert more - {d} == UnlistedCommissions(ro, reps, ds);
  }

  lemma DriverRow(ro: Roster, reps: map<Id, Repayment>, listed: map<Id, RiderRow>, ds: set<Id>, d: Id)
    ensures listed + UnlistedRows(ro, reps, ds + {d})
         == (listed + UnlistedRows(ro, reps, ds))[d := RiderRow(0, RepaymentCommission(ro, reps, d), None, None, [])]
  {
    hide RepaymentCommission;
  }

  lemma AllVisited(reps: map<Id, Repayment>, groups: map<Option<Id>, set<Id>>)
    requires Grouped(reps, groups)
    ensures AmountsIn(reps, Visited(groups, {})) == RepaymentAmounts(reps)
    ensures DriversOf(groups.Keys) == set p | p in reps && reps[p].careOf.Some? :: reps[p].careOf.value
  {
    assert Visited(groups, {}) == reps.Keys;
    forall d | d in DriversOf(groups.Keys) ensures exists p :: p in reps && reps[p].careOf == Some(d) {
      var p :| p in groups[Some(d)];
    }
  }

  lemma UnlistedRowsKeys(ro: Roster, reps: map<Id, Repayment>, ds: set<Id>)
    ensures UnlistedRows(ro, reps, ds).Keys == ds
  {
  }

  lemma NextDriver(seen: set<Id>, d: Id, active: set<Id>, listed: set<Id>)
    ensures var ds := seen * active - listed;
      (seen + {d}) * active - listed == if d in active && d !in listed then ds + {d} else ds
  {
  }

  /** What the pass has built once it has visited every group but `todo`. */
  ghost predicate Passed(ro: Roster, listed: map<Id, RiderRow>, reps: map<Id, Repayment>,
                         groups: map<Option<Id>, set<Id>>, todo: set<Option<Id>>,
                         rows: map<Id, RiderRow>, received: int, commission: int) {
    var ds := DriversOf(groups.Keys - todo) * ro.riders - listed.Keys;
    && received == Sum(AmountsIn(reps, Visited(groups, todo)))
    && rows == listed + UnlistedRows(ro, reps, ds)
    && commission == Sum(UnlistedCommissions(ro, reps, ds))
  }

  lemma PassStarts(ro: Roster, listed: map<Id, RiderRow>, reps: map<Id, Repayment>, groups: map<Option<Id>, set<Id>>)
    ensures Passed(ro, listed, reps, groups, groups.Keys, listed, 0, 0)
  {
    SumEmpty();
    assert Visited(groups, groups.Keys) == {} && AmountsIn(reps, {}) == map[];
    assert DriversOf(groups.Keys - groups.Keys) * ro.riders - listed.Keys == {};
    assert UnlistedCommissions(ro, reps, {}) == map[] && UnlistedRows(ro, reps, {}) == map[];
  }

  lemma GroupOf(reps: map<Id, Repayment>, groups: map<Option<Id>, set<Id>>, d: Id)
    requires Grouped(reps, groups) && Some(d) in groups
    ensures forall p :: p in groups[Some(d)] <==> p in reps && reps[p].careOf == Some(d)
  {
    assert GroupOk(reps, Some(d), groups[Some(d)]);
  }

  /** A group that gives no new row. */
  lemma PassSkips(ro: Roster, listed: map<Id, RiderRow>, reps: map<Id, Repayment>, groups: map<Option<Id>, set<Id>>,
                  todo: set<Option<Id>>, k: Option<Id>, rows: map<Id, RiderRow>, received: int, commission: int)
    requires Grouped(reps, groups) && k in todo && todo <= groups.Keys && (k.Some? && k.value in ro.riders ==> k.value in rows)
    requires Passed(ro, listed, reps, groups, todo, rows, received, commission)
    ensures Passed(ro, listed, reps, groups, todo - {k}, rows, received + Sum(AmountsIn(reps, groups[k])), commission)
  {
    var seen := DriversOf(groups.Keys - todo);
    var ds := seen * ro.riders - listed.Keys;
    VisitGroup(reps, groups, todo, k);
    UnlistedRowsKeys(ro, reps, ds);
    hide UnlistedRows, UnlistedCommissions, Visited, DriversOf, AmountsIn, Grouped;
    if k.Some? { NextDriver(seen, k.value, ro.riders, listed.Keys); }
  }

  /** The group of an active driver without a row yet. */
  lemma PassAdds(ro: Roster, listed: map<Id, RiderRow>, reps: map<Id, Repayment>, groups: map<Option<Id>, set<Id>>,
                 todo: set<Option<Id>>, d: Id, rows: map<Id, RiderRow>, received: int, commission: int)
    requires Grouped(reps, groups) && Some(d) in todo && todo <= groups.Keys && d in ro.riders && d !in rows
    requires Passed(ro, listed, reps, groups, todo, rows, received, commission)
    ensures var earned := Sum(EarningsIn(ro, reps, d, groups[Some(d)]));
      Passed(ro, listed, reps, groups, todo - {Some(d)}, rows[d := RiderRow(0, earned, None, None, [])],
             received + Sum(AmountsIn(reps, groups[Some(d)])), commission + earned)
  {
    var seen := DriversOf(groups.Keys - todo);
    var ds := seen * ro.riders - listed.Keys;
    VisitGroup(reps, groups, todo, Some(d));
    GroupOf(reps, groups, d);
    hide UnlistedRows, UnlistedCommissions, RepaymentCommission, Visited, DriversOf, AmountsIn, EarningsIn, Grouped;
    NextDriver(seen, d, ro.riders, listed.Keys);
    DriverEarned(ro, reps, ds, d, groups[Some(d)]);
    DriverRow(ro, reps, listed, ds, d);
  }

  /** The repayment pass: total the payments, and give each unlisted active driver a row. */
  method AddRepayments(ro: Roster, listed: map<Id, RiderRow>, reps: map<Id, Repayment>)
    returns (rows: map<Id, RiderRow>, received: int, commission: int)
    ensures var ds := (set p | p in reps && reps[p].careOf.Some? :: reps[p].careOf.value) * ro.riders - listed.Keys;
      && rows == listed + UnlistedRows(ro, reps, ds)
      && commission == Sum(UnlistedCommissions(ro, reps, ds))
    ensures received == Sum(RepaymentAmounts(reps))
  {
    var groups := GroupRepayments(reps);
    rows, received, commission := listed, 0, 0;
    var todo := groups.Keys;
    PassStarts(ro, listed, reps, groups);
    while todo != {}
      invariant todo <= groups.Keys && Passed(ro, listed, reps, groups, todo, rows, received, commission)
      decreases |todo|
    {
      hide Passed, AmountsIn, EarningsIn;
      var k :| k in todo;
      if k.Some? && k.value in ro.riders && k.value !in rows {
        PassAdds(ro, listed, reps, groups, todo, k.value, rows, received, commission);
      } else {
        PassSkips(ro, listed, reps, groups, todo, k, rows, received, commission);
      }
      todo := todo - {k};
      var part := AddAmounts(reps, groups[k]);
      received := received + part;
      if k.None? || k.value !in ro.riders { continue; }
      if k.value in rows { continue; }
      var earned := AddEarnings(ro, reps, k.value, groups[k]);
      rows := rows[k.value := RiderRow(0, earned, None, None, [])];
      commission := commission + earned;
    }
    AllVisited(reps, groups);
    assert groups.Keys - todo == groups.Keys;
  }

  lemma StaffKept(ro: Roster, ss: seq<StaffEntry>, i: nat)
    requires i < |ss| && ss[i].staff in ro.staff
    ensures ss[i] in ActiveStaff(ro, ss)
    ensures ActiveStaff(ro, ss[..i]) + [ss[i]] <= ActiveStaff(ro, ss)
  {
    StaffStep(ro, ss, i);
    ActiveStaffPrefix(ro, ss, i + 1);
  }

  lemma SecondStaff(ro: Roster, ss: seq<StaffEntry>, i: nat)
    requires i < |ss| && ss[i].staff in ro.staff && ss[i].staff in StaffRows(ro, ActiveStaff(ro, ss[..i]))
    ensures !StaffKeysOk(ActiveStaff(ro, ss))
  {
    var init := ActiveStaff(ro, ss[..i]);
    StaffRowsKeys(ro, init);
    StaffKept(ro, ss, i);
    var s :| s in init && s.staff == ss[i].staff;
    var j :| 0 <= j < |init| && init[j] == s;
    assert ActiveStaff(ro, ss)[j] == (init + [ss[i]])[j] && ActiveStaff(ro, ss)[|init|] == (init + [ss[i]])[|init|];
  }

  lemma FirstStaff(ro: Roster, init: seq<StaffEntry>, s: StaffEntry)
    requires StaffKeysOk(init) && AllStaffOk(init) && StaffOk(s) && s.staff !in StaffRows(ro, init)
    ensures StaffKeysOk(init + [s]) && AllStaffOk(init + [s])
  {
    StaffRowsKeys(ro, init);
    hide StaffOk;
  }

  lemma BadStaff(ro: Roster, ss: seq<StaffEntry>, i: nat)
    requires i < |ss| && ss[i].staff in ro.staff
    ensures !StaffOk(ss[i]) ==> !AllStaffOk(ActiveStaff(ro, ss))
  {
    hide StaffOk, ActiveStaff;
    StaffKept(ro, ss, i);
  }

  lemma BadOverride(s: StaffEntry)
    requires s.override.Some? && s.override.value < 0
    ensures !StaffOk(s)
  {
  }

  /** One active staff member. */
  method KeepStaffEntry(ro: Roster, s: StaffEntry) returns (ok: bool, row: StaffRow, kept: seq<Note>, salary: int, spent: int)
    requires s.staff in ro.staff && (s.override.Some? ==> 0 <= s.override.value)
    ensures ok <==> StaffOk(s)
    ensures ok ==> row == StaffRowOf(ro, s) && kept == Kept(s.expenses) && salary == Salary(ro, s) && spent == AmountOf(s.expenses)
  {
    hide Kept, AmountOf, NotesOk;
    var rate := ro.staff[s.staff];
    row, kept, salary, spent := StaffRow(0, None, [], 0, 0), [], 0, 0;
    var effective := if s.override.Some? then s.override.value else rate;
    var deductions, deducted;
    ok, deductions, deducted := KeepNotes(s.deductions);
    if !ok { return false, row, [], 0, 0; }
    ok, kept, spent := KeepNotes(s.expenses);
    if !ok { return false, row, [], 0, 0; }
    row, salary := StaffRow(rate, s.override, deductions, deducted, effective - deducted), effective;
  }

  /** What the staff loop has kept of the entries it has seen. */
  ghost predicate StaffSoFar(ro: Roster, active: seq<StaffEntry>, rows: map<Id, StaffRow>, expenses: seq<ExpenseRow>,
                             salary: int, spent: int) {
    && AllStaffOk(active) && StaffKeysOk(active) && rows == StaffRows(ro, active) && expenses == StaffExpenses(active)
    && salary == SalaryOf(ro, active) && spent == StaffSpent(active)
  }

  lemma OneMoreStaff(ro: Roster, active: seq<StaffEntry>, s: StaffEntry, rows: map<Id, StaffRow>, expenses: seq<ExpenseRow>,
                     salary: int, spent: int)
    requires StaffSoFar(ro, active, rows, expenses, salary, spent) && StaffOk(s) && s.staff !in rows
    ensures StaffSoFar(ro, active + [s], rows[s.staff := StaffRowOf(ro, s)],
                       expenses + Expensed(OfStaff(s.staff), Kept(s.expenses)), salary + Salary(ro, s), spent + AmountOf(s.expenses))
  {
    FirstStaff(ro, active, s);
    StaffSnoc(ro, active, s);
    hide *;
    StaffSoFarFrom(ro, active, s, rows, expenses, salary, spent);
  }

  lemma StaffSoFarFrom(ro: Roster, active: seq<StaffEntry>, s: StaffEntry, rows: map<Id, StaffRow>, expenses: seq<ExpenseRow>,
                       salary: int, spent: int)
    requires StaffSoFar(ro, active, rows, expenses, salary, spent)
    requires StaffKeysOk(active + [s]) && AllStaffOk(active + [s])
    requires StaffRows(ro, active + [s]) == StaffRows(ro, active)[s.staff := StaffRowOf(ro, s)]
    requires SalaryOf(ro, active + [s]) == SalaryOf(ro, active) + Salary(ro, s)
    requires StaffSpent(active + [s]) == StaffSpent(active) + AmountOf(s.expenses)
    requires StaffExpenses(active + [s]) == StaffExpenses(active) + Expensed(OfStaff(s.staff), Kept(s.expenses))
    ensures StaffSoFar(ro, active + [s], rows[s.staff := StaffRowOf(ro, s)],
                       expenses + Expensed(OfStaff(s.staff), Kept(s.expenses)), salary + Salary(ro, s), spent + AmountOf(s.expenses))
  {
    hide AllStaffOk, StaffKeysOk, StaffRows, StaffExpenses, SalaryOf, StaffSpent, StaffRowOf, Salary, AmountOf;
    hide Expensed, Kept;
  }

  lemma RowsSoFar(ro: Roster, active: seq<StaffEntry>, rows: map<Id, StaffRow>, expenses: seq<ExpenseRow>, salary: int, spent: int)
    requires StaffSoFar(ro, active, rows, expenses, salary, spent)
    ensures AllStaffOk(active) && StaffKeysOk(active) && rows == StaffRows(ro, active) && expenses == StaffExpenses(active)
    ensures salary == SalaryOf(ro, active) && spent == StaffSpent(active)
  {
  }

  lemma NoStaffYet(ro: Roster, none: seq<StaffEntry>)
    requires none == []
    ensures StaffSoFar(ro, ActiveStaff(ro, none), map[], [], 0, 0)
  {
  }

  /** The staff loop: salaries, deductions and staff expenses. */
  method KeepStaff(ro: Roster, ss: seq<StaffEntry>)
    returns (r: Result<(map<Id, StaffRow>, seq<ExpenseRow>)>, salary: int, spent: int)
    ensures var active := ActiveStaff(ro, ss);
      && (r.Ok? <==> AllStaffOk(active) && StaffKeysOk(active))
      && (r.Ok? ==> r.value == (StaffRows(ro, active), StaffExpenses(active)))
      && (r.Ok? ==> salary == SalaryOf(ro, active) && spent == StaffSpent(active))
      && (r.Err? ==> r == Err(PayloadRejected) || r == Err(ConstraintViolated))
      && (r == Err(PayloadRejected) ==> !AllStaffOk(active))
      && (r == Err(ConstraintViolated) ==> !StaffKeysOk(active))
  {
    hide *;
    var rows: map<Id, StaffRow> := map[];
    var expenses: seq<ExpenseRow> := [];
    salary, spent := 0, 0;
    NoStaffYet(ro, ss[..0]);
    for i := 0 to |ss|
      invariant StaffSoFar(ro, ActiveStaff(ro, ss[..i]), rows, expenses, salary, spent)
    {
      RowsSoFar(ro, ActiveStaff(ro, ss[..i]), rows, expenses, salary, spent);
      var s := ss[i];
      StaffStep(ro, ss, i);
      if s.staff !in ro.staff { continue; }
      BadStaff(ro, ss, i);
      if s.override.Some? && s.override.value < 0 {
        BadOverride(s);
        return Err(PayloadRejected), 0, 0;
      }
      if s.staff in rows {
        SecondStaff(ro, ss, i);
        return Err(ConstraintViolated), 0, 0;
      }
      var ok, row, kept, earned, paidOut := KeepStaffEntry(ro, s);
      if !ok { return Err(PayloadRejected), 0, 0; }
      OneMoreStaff(ro, ActiveStaff(ro, ss[..i]), s, rows, expenses, salary, spent);
      rows := rows[s.staff := row];
      expenses := expenses + Expensed(OfStaff(s.staff), kept);
      salary, spent := salary + earned, spent + paidOut;
    }
    assert ss[..|ss|] == ss;
    RowsSoFar(ro, ActiveStaff(ro, ss), rows, expenses, salary, spent);
    r := Ok((rows, expenses));
  }

  lemma SecondRider(ro: Roster, rs: seq<RiderEntry>, i: nat)
    requires i < |rs| && rs[i].rider in RiderRows(ro, rs[..i])
    ensures !RiderKeysOk(rs)
  {
    RiderRowsKeys(ro, rs[..i]);
    var r :| r in rs[..i] && r.rider == rs[i].rider;
    var j :| 0 <= j < i && rs[..i][j] == r;
    assert rs[j].rider == rs[i].rider;
  }

  lemma FirstRider(ro: Roster, rs: seq<RiderEntry>, i: nat)
    requires i < |rs| && RiderKeysOk(rs[..i]) && RidersOk(ro, rs[..i]) && rs[i].rider !in RiderRows(ro, rs[..i])
    requires RiderOk(ro, rs[i]) && LineKeysOk(rs[i].lines)
    ensures RiderKeysOk(rs[..i + 1]) && RidersOk(ro, rs[..i + 1])
  {
    RiderRowsKeys(ro, rs[..i]);
    var more := rs[..i + 1];
    hide RiderOk, LineKeysOk;
    forall a | 0 <= a < |more| ensures RiderOk(ro, more[a]) && LineKeysOk(more[a].lines) {
      if a < i { assert more[a] == rs[..i][a]; }
    }
    forall a, b | 0 <= a < b < |more| ensures more[a].rider != more[b].rider {
      assert more[a] == rs[..i][a];
      if b < i { assert more[b] == rs[..i][b]; }
    }
  }

  /** The rider loop. */
  method KeepRiders(ro: Roster, rs: seq<RiderEntry>)
    returns (r: Result<(map<Id, RiderRow>, map<(Id, Id), ProductRow>, seq<ExpenseRow>)>, t: RiderTally)
    ensures r.Ok? <==> RidersOk(ro, rs) && RiderKeysOk(rs)
    ensures r.Ok? ==> r.value == (RiderRows(ro, rs), ProductRows(ro, rs), RiderExpenses(rs)) && t == TallyRiders(ro, rs)
    ensures r.Err? ==> r == Err(PayloadRejected) || r == Err(ConstraintViolated)
    ensures r == Err(PayloadRejected) ==> !RidersOk(ro, rs)
    ensures r == Err(ConstraintViolated) ==> !RiderKeysOk(rs)
  {
    var rows: map<Id, RiderRow> := map[];
    var products: map<(Id, Id), ProductRow> := map[];
    var expenses: seq<ExpenseRow> := [];
    t := RiderTally(0, 0, 0, 0, 0, 0);
    for i := 0 to |rs|
      invariant RidersOk(ro, rs[..i]) && RiderKeysOk(rs[..i])
      invariant rows == RiderRows(ro, rs[..i]) && products == ProductRows(ro, rs[..i]) && expenses == RiderExpenses(rs[..i])
      invariant t == TallyRiders(ro, rs[..i])
    {
      hide RiderRows, ProductRows, RiderExpenses, TallyRiders, LineRows, LineKeysOk, NotesOk, LinesOk;
      var e := rs[i];
      RidersStep(ro, rs, i);
      if e.rider !in ro.riders { return Err(PayloadRejected), t; }
      if e.rider in rows {
        SecondRider(ro, rs, i);
        return Err(ConstraintViolated), t;
      }
      var kept := KeepRider(ro, e);
      if kept.Err? { return Err(kept.error), t; }
      FirstRider(ro, rs, i);
      var (row, lines, spent, tally) := kept.value;
      rows := rows[e.rider := row];
      products := products + lines;
      expenses := expenses + Expensed(OfRider(e.rider), spent);
      t := t.Plus(tally);
    }
    assert rs[..|rs|] == rs;
    r := Ok((rows, products, expenses));
  }

  /** The product keys the payload names. */
  method NamedProducts(rs: seq<RiderEntry>) returns (keys: set<Id>)
    ensures forall k :: k in keys <==> exists i, j :: 0 <= i < |rs| && 0 <= j < |rs[i].lines| && rs[i].lines[j].product == k
  {
    keys := {};
    for i := 0 to |rs|
      invariant forall k :: k in keys <==> exists a, b :: 0 <= a < i && 0 <= b < |rs[a].lines| && rs[a].lines[b].product == k
    {
      ghost var before := keys;
      for j := 0 to |rs[i].lines|
        invariant forall k :: k in keys <==> k in before || exists b :: 0 <= b < j && rs[i].lines[b].product == k
      {
        keys := keys + {rs[i].lines[j].product};
      }
    }
  }

  lemma Missing(ro: Roster, rs: seq<RiderEntry>, named: set<Id>)
    requires forall k :: k in named <==> exists i, j :: 0 <= i < |rs| && 0 <= j < |rs[i].lines| && rs[i].lines[j].product == k
    ensures named - ro.prices.Keys == {} <==> ProductsKnown(ro, rs)
  {
    if named - ro.prices.Keys == {} {
      forall i, j | 0 <= i < |rs| && 0 <= j < |rs[i].lines| ensures rs[i].lines[j].product in ro.prices {
        var k := rs[i].lines[j].product;
        assert k in named && k !in named - ro.prices.Keys;
      }
    } else {
      var k :| k in named - ro.prices.Keys;
    }
  }

  /** The whole build. It succeeds exactly on acceptable payloads, and then stores the declarative rows and totals. */
  method Build(ro: Roster, p: Payload, reps: map<Id, Repayment>, dateCredits: int) returns (r: Result<(Children, Figures)>)
    ensures r.Ok? <==> Acceptable(ro, p)
    ensures r.Ok? ==> r.value == (BuiltChildren(ro, p, reps), BuiltFigures(ro, p, reps, dateCredits))
    ensures r.Err? ==> r == Err(PayloadRejected) || r == Err(ConstraintViolated)
    ensures r == Err(PayloadRejected) ==> !FieldsOk(ro, p)
    ensures r == Err(ConstraintViolated) ==> !KeysOk(ro, p)
  {
    hide *;
    PartsOk(ro, p);
    var named := NamedProducts(p.riders);
    var missing := named - ro.prices.Keys;
    Missing(ro, p.riders, named);
    if missing != {} { return Err(PayloadRejected); }
    var kept, t := KeepRiders(ro, p.riders);
    if kept.Err? { return Err(kept.error); }
    var (riders, products, expenses) := kept.value;
    var rows, received, earned := AddRepayments(ro, riders, reps);
    var commission := t.commission + earned;
    var ok, general, spent := KeepNotes(p.expenses);
    if !ok { return Err(PayloadRejected); }
    expenses := expenses + Expensed(General, general);
    var staff, salary, staffSpent := KeepStaff(ro, p.staff);
    if staff.Err? { return Err(staff.error); }
    expenses := expenses + staff.value.1;
    var credit := if t.credit > dateCredits then t.credit else dateCredits;
    var net := t.remitted + p.otherSales - commission - salary;
    var tithe := Max0(net) * p.titheRate;
    UnlistedDrivers(ro, p.riders, reps);
    Built(ro, p, reps, dateCredits);
    return Ok((Children(rows, products, expenses, staff.value.0),
               Figures(t.gross + p.otherSales, credit, commission, salary, t.expenses + spent + staffSpent, p.otherSales,
                       t.borrowed, received, net, net, tithe)));
  }

  lemma PartsOk(ro: Roster, p: Payload)
    ensures FieldsOk(ro, p) <==> ProductsKnown(ro, p.riders) && RidersOk(ro, p.riders) && NotesOk(p.expenses)
                                 && AllStaffOk(ActiveStaff(ro, p.staff))
    ensures KeysOk(ro, p) <==> RiderKeysOk(p.riders) && StaffKeysOk(ActiveStaff(ro, p.staff))
    ensures Acceptable(ro, p) <==> FieldsOk(ro, p) && KeysOk(ro, p)
  {
  }

  lemma UnlistedDrivers(ro: Roster, rs: seq<RiderEntry>, reps: map<Id, Repayment>)
    ensures (set q | q in reps && reps[q].careOf.Some? :: reps[q].careOf.value) * ro.riders - RiderRows(ro, rs).Keys
         == Unlisted(ro, rs, reps)
  {
    RiderRowsKeys(ro, rs);
  }

  lemma Built(ro: Roster, p: Payload, reps: map<Id, Repayment>, dateCredits: int)
    ensures var t, staff := TallyRiders(ro, p.riders), ActiveStaff(ro, p.staff);
      var ds := Unlisted(ro, p.riders, reps);
      var commission := t.commission + Sum(UnlistedCommissions(ro, reps, ds));
      var net := t.remitted + p.otherSales - commission - SalaryOf(ro, staff);
      && BuiltChildren(ro, p, reps) == Children(RiderRows(ro, p.riders) + UnlistedRows(ro, reps, ds), ProductRows(ro, p.riders),
            RiderExpenses(p.riders) + Expensed(General, Kept(p.expenses)) + StaffExpenses(staff), StaffRows(ro, staff))
      && BuiltFigures(ro, p, reps, dateCredits)
         == Figures(t.gross + p.otherSales, if t.credit > dateCredits then t.credit else dateCredits, commission,
              SalaryOf(ro, staff), t.expenses + AmountOf(p.expenses) + StaffSpent(staff), p.otherSales, t.borrowed,
              Sum(RepaymentAmounts(reps)), net, net, Max0(net) * p.titheRate)
  {
    hide TallyRiders, ActiveStaff, Unlisted, UnlistedRows, UnlistedCommissions, RiderRows, ProductRows, RiderExpenses,
      StaffExpenses, StaffRows, SalaryOf, StaffSpent, AmountOf, Kept, Expensed, RepaymentAmounts, Max0;
  }
}
