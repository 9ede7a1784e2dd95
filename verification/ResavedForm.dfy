/** Saving a whole reloaded form. The client submits every rider and staff member the form shows, in form order, so a
    second save rewrites all rows of the day; what it stores is what the first save stored. */
module ResavedForm {
  import opened FiniteSums
  import opened RemittanceModel
  import opened RemittanceBuild
  import opened RemittanceFigures
  import opened DraftForm

  // ---- What the client submits -----------------------------------------------------------------------------

  /** The form has no field for borrowed containers. */
  function SubmittedLine(l: FormLine): ProductEntry { ProductEntry(l.product, l.sold, l.credited, 0, l.repaid) }

  function SubmittedRider(g: FormRider): RiderEntry {
    RiderEntry(g.id, seq(|g.lines|, i requires 0 <= i < |g.lines| => SubmittedLine(g.lines[i])), g.override, g.remitted,
               g.expenses, g.deductions)
  }

  function SubmittedStaff(g: FormStaff): StaffEntry { StaffEntry(g.id, g.override, g.deductions, g.expenses) }

  /** Offering, tithe rate and other sales are fields of the form of their own. */
  function Submitted(g: Form, offering: int, titheRate: int, otherSales: int): Payload {
    Payload(seq(|g.riders|, i requires 0 <= i < |g.riders| => SubmittedRider(g.riders[i])), g.expenses, offering, titheRate, otherSales,
            seq(|g.staff|, i requires 0 <= i < |g.staff| => SubmittedStaff(g.staff[i])))
  }

  /** The payload of the form that shows a stored draft. */
  function Resubmitted(c: Children, repaid: map<Id, map<Id, int>>, f: Form, offering: int, titheRate: int, otherSales: int): Payload {
    Submitted(Overlaid(StateOf(c, repaid), f), offering, titheRate, otherSales)
  }

  predicate FreshRider(f: FormRider) { DistinctProducts(f) && forall l :: l in f.lines ==> l.sold == 0 }

  predicate FreshStaff(f: FormStaff) { f == FormStaff(f.id, None, [], []) }

  function RiderIds(f: Form): set<Id> { set r | r in f.riders :: r.id }

  function StaffIds(f: Form): set<Id> { set s | s in f.staff :: s.id }

  /** The form of a day: one empty entry for each active rider and staff member. */
  ghost predicate FreshForm(ro: Roster, f: Form) {
    && RiderIds(f) == ro.riders && (forall r :: r in f.riders ==> FreshRider(r))
    && StaffIds(f) == ro.staff.Keys && (forall s :: s in f.staff ==> FreshStaff(s))
  }

  // ---- Any payload, saved again from the form --------------------------------------------------------------

  /** What was typed for a rider. A missing row says the same as an empty one. */
  datatype Typed = Typed(override: Option<int>, remitted: Option<int>, deductions: seq<Note>, expenses: seq<Note>)

  function RiderTyped(c: Children, r: Id): Typed {
    if r in c.riders then Typed(c.riders[r].override, c.riders[r].remitted, c.riders[r].deductions, NotesOf(c.expenses, OfRider(r)))
    else Typed(None, None, [], NotesOf(c.expenses, OfRider(r)))
  }

  function StaffTyped(c: Children, s: Id): Typed {
    if s in c.staff then Typed(c.staff[s].override, None, c.staff[s].deductions, NotesOf(c.expenses, OfStaff(s)))
    else Typed(None, None, [], NotesOf(c.expenses, OfStaff(s)))
  }

  /** Everything typed stands in both: each rider's and staff member's fields and notes, each sold quantity of a
      product on the form, and the general expenses. */
  ghost predicate SameTyped(f: Form, was: Children, now: Children) {
    && (forall i :: 0 <= i < |f.riders| ==> RiderTyped(now, f.riders[i].id) == RiderTyped(was, f.riders[i].id))
    && (forall i, k :: 0 <= i < |f.riders| && 0 <= k < |f.riders[i].lines| ==> SameSold(f.riders[i], k, was, now))
    && (forall i :: 0 <= i < |f.staff| ==> StaffTyped(now, f.staff[i].id) == StaffTyped(was, f.staff[i].id))
    && NotesOf(now.expenses, General) == NotesOf(was.expenses, General)
  }

  predicate SameSold(f: FormRider, k: nat, was: Children, now: Children)
    requires k < |f.lines|
  {
    SoldStored(now.products, f.id, f.lines[k].product) == SoldStored(was.products, f.id, f.lines[k].product)
  }

  /** What a build stores for a rider it does not list. */
  lemma UnlistedTyped(ro: Roster, p: Payload, reps: map<Id, Repayment>, r: Id, k: Id)
    requires r !in Listed(p.riders)
    ensures RiderTyped(BuiltChildren(ro, p, reps), r) == Typed(None, None, [], [])
    ensures SoldStored(BuiltChildren(ro, p, reps).products, r, k) == 0
  {
    RiderRowsKeys(ro, p.riders);
    RidersStored(ro, p, reps, r);
    NotesOfRiders(p.riders, OfRider(r));
    NotesOfStaffs(ActiveStaff(ro, p.staff), OfRider(r));
    BuiltNotes(ro, p, reps, OfRider(r));
    if (r, k) in ProductRows(ro, p.riders) { ProductRowsListed(ro, p.riders, r, k); }
    hide BuiltChildren, NotesOf, ActiveStaff, RiderRows, ProductRows, RiderExpenses, StaffExpenses, RepaymentCommission;
  }

  lemma ListedTyped(ro: Roster, p: Payload, reps: map<Id, Repayment>, j: nat)
    requires Acceptable(ro, p) && j < |p.riders|
    ensures var e := p.riders[j];
      RiderTyped(BuiltChildren(ro, p, reps), e.rider) == Typed(e.override, e.remitted, Kept(e.deductions), Kept(e.expenses))
  {
    RiderIsStored(ro, p, reps, j, 0);
    hide BuiltChildren, NotesOf, Kept, Acceptable, TallyLines;
  }

  /** One rider of the form, listed in the first payload or not. */
  lemma ResavedRider(ro: Roster, p: Payload, q: Payload, reps: map<Id, Repayment>, again: map<Id, Repayment>,
                     repaid: map<Id, map<Id, int>>, f: FormRider, m: nat)
    requires Acceptable(ro, p) && Acceptable(ro, q) && m < |q.riders| && FreshRider(f)
    requires q.riders[m] == SubmittedRider(OverlaidRider(StateOf(BuiltChildren(ro, p, reps), repaid), f))
    ensures var was, now := BuiltChildren(ro, p, reps), BuiltChildren(ro, q, again);
      && RiderTyped(now, f.id) == RiderTyped(was, f.id)
      && forall k :: 0 <= k < |f.lines| ==> SameSold(f, k, was, now)
  {
    if f.id in Listed(p.riders) {
      var j :| 0 <= j < |p.riders| && p.riders[j].rider == f.id;
      ResavedListed(ro, p, q, reps, again, repaid, f, j, m);
    } else {
      ResavedUnlisted(ro, p, q, reps, again, repaid, f, m);
    }
  }

  lemma SubmittedFields(g: FormRider)
    ensures var e := SubmittedRider(g);
      SubmitsRider(e, g) && e.rider == g.id && e.override == g.override && e.remitted == g.remitted
      && e.expenses == g.expenses && e.deductions == g.deductions
  {
  }

  lemma SoldIsSame(f: FormRider, k: nat, was: Children, now: Children)
    requires k < |f.lines|
    requires SoldStored(now.products, f.id, f.lines[k].product) == SoldStored(was.products, f.id, f.lines[k].product)
    ensures SameSold(f, k, was, now)
  {
  }

  lemma ResavedListed(ro: Roster, p: Payload, q: Payload, reps: map<Id, Repayment>, again: map<Id, Repayment>,
                      repaid: map<Id, map<Id, int>>, f: FormRider, j: nat, m: nat)
    requires Acceptable(ro, p) && Acceptable(ro, q) && m < |q.riders| && j < |p.riders| && FreshRider(f)
    requires p.riders[j].rider == f.id
    requires q.riders[m] == SubmittedRider(OverlaidRider(StateOf(BuiltChildren(ro, p, reps), repaid), f))
    ensures var was, now := BuiltChildren(ro, p, reps), BuiltChildren(ro, q, again);
      && RiderTyped(now, f.id) == RiderTyped(was, f.id)
      && forall k :: 0 <= k < |f.lines| ==> SameSold(f, k, was, now)
  {
    var was, now := BuiltChildren(ro, p, reps), BuiltChildren(ro, q, again);
    var g := OverlaidRider(StateOf(was, repaid), f);
    RiderComesBack(ro, p, reps, repaid, f, j);
    SubmittedFields(g);
    assert g.id == f.id && DistinctProducts(f) && forall l :: l in f.lines ==> l.sold == 0;
    hide *;
    ListedTyped(ro, q, again, m);
    ListedTyped(ro, p, reps, j);
    KeptTwice(p.riders[j].expenses);
    KeptTwice(p.riders[j].deductions);
    forall k | 0 <= k < |f.lines| ensures SameSold(f, k, was, now) {
      ResaveStoresSameRider(ro, p, q, reps, again, repaid, f, j, m, k);
      SoldIsSame(f, k, was, now);
    }
  }

  lemma ResavedUnlisted(ro: Roster, p: Payload, q: Payload, reps: map<Id, Repayment>, again: map<Id, Repayment>,
                        repaid: map<Id, map<Id, int>>, f: FormRider, m: nat)
    requires Acceptable(ro, q) && m < |q.riders| && FreshRider(f) && f.id !in Listed(p.riders)
    requires q.riders[m] == SubmittedRider(OverlaidRider(StateOf(BuiltChildren(ro, p, reps), repaid), f))
    ensures var was, now := BuiltChildren(ro, p, reps), BuiltChildren(ro, q, again);
      && RiderTyped(now, f.id) == RiderTyped(was, f.id)
      && forall k :: 0 <= k < |f.lines| ==> SameSold(f, k, was, now)
  {
    var was, now, e := BuiltChildren(ro, p, reps), BuiltChildren(ro, q, again), q.riders[m];
    var g := OverlaidRider(StateOf(was, repaid), f);
    OtherRiderStaysEmpty(ro, p, reps, repaid, f);
    forall i | 0 <= i < |e.lines| ensures e.lines[i].sold == 0 {
      assert ShowsSold(g.lines[i], f.lines[i].product, 0);
    }
    UnlistedTyped(ro, p, reps, f.id, 0);
    hide BuiltChildren, StateOf, OverlaidRider, Acceptable, NotesOf, RiderTyped, SoldOf, SoldStored;
    ListedTyped(ro, q, again, m);
    forall k | 0 <= k < |f.lines| ensures SameSold(f, k, was, now) {
      UnlistedTyped(ro, p, reps, f.id, f.lines[k].product);
      RiderIsStored(ro, q, again, m, f.lines[k].product);
      NothingSold(e.lines, f.lines[k].product);
    }
  }

  lemma {:induction false} NothingSold(es: seq<ProductEntry>, k: Id)
    requires forall i :: 0 <= i < |es| ==> es[i].sold == 0
    ensures SoldOf(es, k) == 0
  {
    if es != [] { NothingSold(es[..|es| - 1], k); }
  }

  lemma {:induction false} AllActive(ro: Roster, ss: seq<StaffEntry>)
    requires forall i :: 0 <= i < |ss| ==> ss[i].staff in ro.staff
    ensures ActiveStaff(ro, ss) == ss
  {
    if ss != [] {
      AllActive(ro, ss[..|ss| - 1]);
      assert ss == ss[..|ss| - 1] + [ss[|ss| - 1]];
    }
  }

  lemma ListedStaffTyped(ro: Roster, p: Payload, reps: map<Id, Repayment>, j: nat)
    requires Acceptable(ro, p) && j < |ActiveStaff(ro, p.staff)|
    ensures var e := ActiveStaff(ro, p.staff)[j];
      && e.staff in BuiltChildren(ro, p, reps).staff
      && StaffTyped(BuiltChildren(ro, p, reps), e.staff) == Typed(e.override, None, Kept(e.deductions), Kept(e.expenses))
  {
    StaffIsStored(ro, p, reps, j);
    StaffRowFields(ro, ActiveStaff(ro, p.staff)[j]);
    hide BuiltChildren, NotesOf, Kept, Acceptable, StaffRowOf, ActiveStaff;
  }

  lemma UnlistedStaffTyped(ro: Roster, p: Payload, reps: map<Id, Repayment>, s: Id)
    requires forall e :: e in ActiveStaff(ro, p.staff) ==> e.staff != s
    ensures StaffTyped(BuiltChildren(ro, p, reps), s) == Typed(None, None, [], [])
  {
    StaffRowsKeys(ro, ActiveStaff(ro, p.staff));
    RidersStored(ro, p, reps, 0);
    NotesOfRiders(p.riders, OfStaff(s));
    NotesOfStaffs(ActiveStaff(ro, p.staff), OfStaff(s));
    BuiltNotes(ro, p, reps, OfStaff(s));
    hide NotesOf, BuiltChildren, ActiveStaff, Kept, StaffRows, RiderRows, RiderExpenses, StaffExpenses;
  }

  lemma ResavedStaff(ro: Roster, p: Payload, q: Payload, reps: map<Id, Repayment>, again: map<Id, Repayment>,
                     repaid: map<Id, map<Id, int>>, f: FormStaff, m: nat)
    requires Acceptable(ro, p) && Acceptable(ro, q) && m < |ActiveStaff(ro, q.staff)| && FreshStaff(f)
    requires ActiveStaff(ro, q.staff)[m] == SubmittedStaff(OverlaidStaff(StateOf(BuiltChildren(ro, p, reps), repaid), f))
    ensures StaffTyped(BuiltChildren(ro, q, again), f.id) == StaffTyped(BuiltChildren(ro, p, reps), f.id)
  {
    var g := OverlaidStaff(StateOf(BuiltChildren(ro, p, reps), repaid), f);
    assert g.id == f.id;
    hide BuiltChildren, StateOf, OverlaidStaff, StaffTyped, Acceptable, ActiveStaff;
    ListedStaffTyped(ro, q, again, m);
    if j :| 0 <= j < |ActiveStaff(ro, p.staff)| && ActiveStaff(ro, p.staff)[j].staff == f.id {
      var e := ActiveStaff(ro, p.staff)[j];
      StaffComesBack(ro, p, reps, repaid, f, j);
      ListedStaffTyped(ro, p, reps, j);
      KeptTwice(e.deductions);
      KeptTwice(e.expenses);
    } else {
      OtherStaffStaysEmpty(ro, p, reps, repaid, f);
      UnlistedStaffTyped(ro, p, reps, f.id);
    }
  }

  /** What the submitted payload lists: every rider and staff member on the form. */
  lemma SubmittedLists(ro: Roster, c: Children, repaid: map<Id, map<Id, int>>, f: Form, q: Payload)
    requires FreshForm(ro, f) && q == Resubmitted(c, repaid, f, q.offering, q.titheRate, q.otherSales)
    ensures |q.riders| == |f.riders| && Listed(q.riders) == ro.riders
    ensures forall i :: 0 <= i < |f.riders| ==> q.riders[i] == SubmittedRider(OverlaidRider(StateOf(c, repaid), f.riders[i]))
    ensures |q.staff| == |f.staff| && ActiveStaff(ro, q.staff) == q.staff
    ensures forall i :: 0 <= i < |f.staff| ==> q.staff[i] == SubmittedStaff(OverlaidStaff(StateOf(c, repaid), f.staff[i]))
    ensures (set s | s in q.staff :: s.staff) == ro.staff.Keys
    ensures q.expenses == Overlaid(StateOf(c, repaid), f).expenses
  {
    hide StateOf;
    forall i | 0 <= i < |f.staff| ensures q.staff[i].staff == f.staff[i].id && f.staff[i].id in ro.staff {
      assert f.staff[i] in f.staff;
    }
    forall i | 0 <= i < |f.riders| ensures q.riders[i].rider == f.riders[i].id && f.riders[i].id in ro.riders {
      assert f.riders[i] in f.riders;
    }
    SameIds(f, q);
    AllActive(ro, q.staff);
  }

  lemma SameIds(f: Form, q: Payload)
    requires |q.riders| == |f.riders| && forall i :: 0 <= i < |f.riders| ==> q.riders[i].rider == f.riders[i].id
    requires |q.staff| == |f.staff| && forall i :: 0 <= i < |f.staff| ==> q.staff[i].staff == f.staff[i].id
    ensures Listed(q.riders) == RiderIds(f) && (set s | s in q.staff :: s.staff) == StaffIds(f)
  {
    forall r | r in f.riders ensures r.id in Listed(q.riders) {
      var i :| 0 <= i < |f.riders| && f.riders[i] == r;
      assert q.riders[i] in q.riders;
    }
    forall s | s in f.staff ensures s.id in (set s | s in q.staff :: s.staff) {
      var i :| 0 <= i < |f.staff| && f.staff[i] == s;
      assert q.staff[i] in q.staff;
    }
  }

  /** Saving the reloaded form of any draft stores everything typed again: the rows of listed riders and staff as they
      were, and an empty row for every other active one. Repayments may have come in between. */
  lemma ResaveKeepsEverythingTyped(ro: Roster, p: Payload, q: Payload, reps: map<Id, Repayment>, again: map<Id, Repayment>,
                                   repaid: map<Id, map<Id, int>>, f: Form)
    requires Acceptable(ro, p) && FreshForm(ro, f)
    requires q == Resubmitted(BuiltChildren(ro, p, reps), repaid, f, p.offering, p.titheRate, p.otherSales)
    requires Acceptable(ro, q)
    ensures var was, now := BuiltChildren(ro, p, reps), BuiltChildren(ro, q, again);
      now.riders.Keys == ro.riders && now.staff.Keys == ro.staff.Keys && SameTyped(f, was, now)
  {
    var was := BuiltChildren(ro, p, reps);
    assert q.offering == p.offering && q.titheRate == p.titheRate && q.otherSales == p.otherSales;
    SubmittedLists(ro, was, repaid, f, q);
    AllFresh(ro, f);
    hide *;
    StoredKeys(ro, q, again);
    ResaveStoresSameGeneral(ro, p, q, reps, again, repaid, f);
    ResavedRiders(ro, p, q, reps, again, repaid, f);
    ResavedStaffs(ro, p, q, reps, again, repaid, f);
    TypedTogether(f, was, BuiltChildren(ro, q, again));
  }

  lemma AllFresh(ro: Roster, f: Form)
    requires FreshForm(ro, f)
    ensures (forall r :: r in f.riders ==> FreshRider(r)) && (forall s :: s in f.staff ==> FreshStaff(s))
  {
    hide FreshRider, FreshStaff;
  }

  lemma TypedTogether(f: Form, was: Children, now: Children)
    requires forall i :: 0 <= i < |f.riders| ==> RiderTyped(now, f.riders[i].id) == RiderTyped(was, f.riders[i].id)
    requires forall i, k :: 0 <= i < |f.riders| && 0 <= k < |f.riders[i].lines| ==> SameSold(f.riders[i], k, was, now)
    requires forall i :: 0 <= i < |f.staff| ==> StaffTyped(now, f.staff[i].id) == StaffTyped(was, f.staff[i].id)
    requires NotesOf(now.expenses, General) == NotesOf(was.expenses, General)
    ensures SameTyped(f, was, now)
  {
    hide RiderTyped, SameSold, StaffTyped, NotesOf;
  }

  lemma ResavedRiders(ro: Roster, p: Payload, q: Payload, reps: map<Id, Repayment>, again: map<Id, Repayment>,
                      repaid: map<Id, map<Id, int>>, f: Form)
    requires Acceptable(ro, p) && Acceptable(ro, q) && |q.riders| == |f.riders| && forall r :: r in f.riders ==> FreshRider(r)
    requires forall i :: 0 <= i < |f.riders| ==>
      q.riders[i] == SubmittedRider(OverlaidRider(StateOf(BuiltChildren(ro, p, reps), repaid), f.riders[i]))
    ensures var was, now := BuiltChildren(ro, p, reps), BuiltChildren(ro, q, again);
      && (forall i :: 0 <= i < |f.riders| ==> RiderTyped(now, f.riders[i].id) == RiderTyped(was, f.riders[i].id))
      && (forall i, k :: 0 <= i < |f.riders| && 0 <= k < |f.riders[i].lines| ==> SameSold(f.riders[i], k, was, now))
  {
    hide BuiltChildren, StateOf, OverlaidRider, SubmittedRider, Acceptable, RiderTyped, SameSold, FreshRider;
    var was, now := BuiltChildren(ro, p, reps), BuiltChildren(ro, q, again);
    forall i | 0 <= i < |f.riders|
      ensures RiderTyped(now, f.riders[i].id) == RiderTyped(was, f.riders[i].id)
      ensures forall k :: 0 <= k < |f.riders[i].lines| ==> SameSold(f.riders[i], k, was, now)
    {
      assert f.riders[i] in f.riders;
      ResavedRider(ro, p, q, reps, again, repaid, f.riders[i], i);
    }
  }

  lemma ResavedStaffs(ro: Roster, p: Payload, q: Payload, reps: map<Id, Repayment>, again: map<Id, Repayment>,
                      repaid: map<Id, map<Id, int>>, f: Form)
    requires Acceptable(ro, p) && Acceptable(ro, q) && ActiveStaff(ro, q.staff) == q.staff && |q.staff| == |f.staff|
    requires forall s :: s in f.staff ==> FreshStaff(s)
    requires forall i :: 0 <= i < |f.staff| ==>
      q.staff[i] == SubmittedStaff(OverlaidStaff(StateOf(BuiltChildren(ro, p, reps), repaid), f.staff[i]))
    ensures forall i :: 0 <= i < |f.staff| ==>
      StaffTyped(BuiltChildren(ro, q, again), f.staff[i].id) == StaffTyped(BuiltChildren(ro, p, reps), f.staff[i].id)
  {
    hide BuiltChildren, StateOf, OverlaidStaff, SubmittedStaff, Acceptable, StaffTyped, FreshStaff, ActiveStaff;
    forall i | 0 <= i < |f.staff|
      ensures StaffTyped(BuiltChildren(ro, q, again), f.staff[i].id) == StaffTyped(BuiltChildren(ro, p, reps), f.staff[i].id)
    {
      assert f.staff[i] in f.staff;
      ResavedStaff(ro, p, q, reps, again, repaid, f.staff[i], i);
    }
  }

  lemma StoredKeys(ro: Roster, q: Payload, reps: map<Id, Repayment>)
    requires Acceptable(ro, q) && Listed(q.riders) == ro.riders && ActiveStaff(ro, q.staff) == q.staff
    ensures BuiltChildren(ro, q, reps).riders.Keys == ro.riders
    ensures BuiltChildren(ro, q, reps).staff.Keys == (set s | s in q.staff :: s.staff)
  {
    CommissionByRider(ro, q, reps, 0);
    RidersStored(ro, q, reps, 0);
    StaffRowsKeys(ro, q.staff);
    hide BuiltChildren, BuiltFigures, Contributions, StaffRows, HasRepayment;
  }

  // ---- Normalized payloads -----------------------------------------------------------------------------------

  function NormalRider(e: RiderEntry): RiderEntry { e.(expenses := Kept(e.expenses), deductions := Kept(e.deductions)) }

  function NormalRiders(rs: seq<RiderEntry>): (qs: seq<RiderEntry>)
    ensures |qs| == |rs| && forall i :: 0 <= i < |rs| ==> qs[i] == NormalRider(rs[i])
  {
    seq(|rs|, i requires 0 <= i < |rs| => NormalRider(rs[i]))
  }

  function NormalEntry(s: StaffEntry): StaffEntry { s.(deductions := Kept(s.deductions), expenses := Kept(s.expenses)) }

  function NormalEntries(ss: seq<StaffEntry>): (ts: seq<StaffEntry>)
    ensures |ts| == |ss| && forall i :: 0 <= i < |ss| ==> ts[i] == NormalEntry(ss[i])
  {
    seq(|ss|, i requires 0 <= i < |ss| => NormalEntry(ss[i]))
  }

  /** The payload with every list of notes as it is stored. */
  function Normal(p: Payload): Payload {
    p.(riders := NormalRiders(p.riders), expenses := Kept(p.expenses), staff := NormalEntries(p.staff))
  }

  lemma NormalRiderBuildsSame(ro: Roster, e: RiderEntry)
    ensures RiderRowOf(ro, NormalRider(e)) == RiderRowOf(ro, e) && RiderFigures(ro, NormalRider(e)) == RiderFigures(ro, e)
    ensures Kept(NormalRider(e).expenses) == Kept(e.expenses)
  {
    KeptTwice(e.expenses);
    KeptTwice(e.deductions);
    KeptAmount(e.expenses);
    KeptAmount(e.deductions);
    hide Kept, AmountOf, TallyLines;
  }

  lemma {:induction false} NormalRidersBuildSame(ro: Roster, rs: seq<RiderEntry>)
    ensures var qs := NormalRiders(rs);
      && RiderRows(ro, qs) == RiderRows(ro, rs) && ProductRows(ro, qs) == ProductRows(ro, rs)
      && RiderExpenses(qs) == RiderExpenses(rs) && TallyRiders(ro, qs) == TallyRiders(ro, rs)
  {
    if rs != [] {
      var n := |rs| - 1;
      NormalRidersBuildSame(ro, rs[..n]);
      assert NormalRiders(rs)[..n] == NormalRiders(rs[..n]);
      NormalRiderBuildsSame(ro, rs[n]);
      hide Kept, RiderRowOf, RiderFigures, LineRows, Expensed;
    }
  }

  lemma NormalRidersListed(rs: seq<RiderEntry>)
    ensures Listed(NormalRiders(rs)) == Listed(rs)
  {
    hide Kept;
    var qs := NormalRiders(rs);
    forall r | r in rs ensures r.rider in Listed(qs) {
      var i :| 0 <= i < |rs| && rs[i] == r;
      assert qs[i] in qs;
    }
    forall r | r in qs ensures r.rider in Listed(rs) {
      var i :| 0 <= i < |qs| && qs[i] == r;
      assert rs[i] in rs;
    }
  }

  lemma NormalEntryBuildsSame(ro: Roster, s: StaffEntry)
    ensures StaffRowOf(ro, NormalEntry(s)) == StaffRowOf(ro, s) && Salary(ro, NormalEntry(s)) == Salary(ro, s)
    ensures Kept(NormalEntry(s).expenses) == Kept(s.expenses) && AmountOf(NormalEntry(s).expenses) == AmountOf(s.expenses)
  {
    KeptTwice(s.expenses);
    KeptTwice(s.deductions);
    KeptAmount(s.expenses);
    KeptAmount(s.deductions);
    hide Kept, AmountOf;
  }

  lemma {:induction false} NormalStaffBuildsSame(ro: Roster, ss: seq<StaffEntry>)
    ensures var ts := NormalEntries(ss);
      && StaffRows(ro, ts) == StaffRows(ro, ss) && StaffExpenses(ts) == StaffExpenses(ss)
      && SalaryOf(ro, ts) == SalaryOf(ro, ss) && StaffSpent(ts) == StaffSpent(ss)
  {
    if ss != [] {
      var n := |ss| - 1;
      NormalStaffBuildsSame(ro, ss[..n]);
      assert NormalEntries(ss)[..n] == NormalEntries(ss[..n]);
      NormalEntryBuildsSame(ro, ss[n]);
      hide Kept, AmountOf, StaffRowOf, Salary, Expensed;
    }
  }

  lemma {:induction false} NormalActiveStaff(ro: Roster, ss: seq<StaffEntry>)
    ensures ActiveStaff(ro, NormalEntries(ss)) == NormalEntries(ActiveStaff(ro, ss))
  {
    hide Kept;
    if ss != [] {
      var n := |ss| - 1;
      NormalActiveStaff(ro, ss[..n]);
      assert NormalEntries(ss)[..n] == NormalEntries(ss[..n]);
      assert NormalEntries(ss)[n] == NormalEntry(ss[n]);
    }
  }

  /** What a build reads of a payload, part by part. */
  lemma NormalParts(ro: Roster, p: Payload, reps: map<Id, Repayment>)
    ensures var q, ss := Normal(p), ActiveStaff(ro, p.staff);
      && RiderRows(ro, q.riders) == RiderRows(ro, p.riders) && ProductRows(ro, q.riders) == ProductRows(ro, p.riders)
      && RiderExpenses(q.riders) == RiderExpenses(p.riders) && TallyRiders(ro, q.riders) == TallyRiders(ro, p.riders)
      && Unlisted(ro, q.riders, reps) == Unlisted(ro, p.riders, reps)
      && ActiveStaff(ro, q.staff) == NormalEntries(ss) && Kept(q.expenses) == Kept(p.expenses)
      && AmountOf(q.expenses) == AmountOf(p.expenses)
  {
    NormalRidersBuildSame(ro, p.riders);
    NormalRidersListed(p.riders);
    NormalActiveStaff(ro, p.staff);
    KeptTwice(p.expenses);
    KeptAmount(p.expenses);
    hide NormalRiders, NormalEntries, ActiveStaff, RiderRows, ProductRows, RiderExpenses, TallyRiders, Kept;
    hide AmountOf, Listed;
  }

  /** Normalizing is invisible to a build: the same rows, notes and totals. */
  lemma NormalBuildsSame(ro: Roster, p: Payload, reps: map<Id, Repayment>, dateCredits: int)
    ensures BuiltChildren(ro, Normal(p), reps) == BuiltChildren(ro, p, reps)
    ensures BuiltFigures(ro, Normal(p), reps, dateCredits) == BuiltFigures(ro, p, reps, dateCredits)
  {
    var q := Normal(p);
    NormalParts(ro, p, reps);
    NormalStaffBuildsSame(ro, ActiveStaff(ro, p.staff));
    assert q.otherSales == p.otherSales && q.titheRate == p.titheRate;
    hide Normal, NormalEntries, ActiveStaff, RiderRows, ProductRows, RiderExpenses, TallyRiders, StaffRows, StaffExpenses;
    hide SalaryOf, StaffSpent, Kept, AmountOf, Unlisted, UnlistedRows, UnlistedCommissions, Expensed;
  }

  lemma {:induction false} KeptIsOk(ns: seq<Note>)
    ensures NotesOk(Kept(ns)) <==> NotesOk(ns)
  {
    if ns != [] {
      var init, n, ks := ns[..|ns| - 1], ns[|ns| - 1], Kept(ns[..|ns| - 1]);
      KeptIsOk(init);
      NotesSnoc(init, n);
      assert ns == init + [n];
      if Blank(n) {
        assert Kept(ns) == ks;
      } else {
        NotesSnoc(ks, RemittanceModel.Stored(n));
        assert Kept(ns) == ks + [RemittanceModel.Stored(n)];
      }
    }
  }

  lemma NotesSnoc(ns: seq<Note>, n: Note)
    ensures NotesOk(ns + [n]) <==> NotesOk(ns) && 0 <= n.amount
  {
    var all := ns + [n];
    if NotesOk(all) {
      forall i | 0 <= i < |ns| ensures 0 <= ns[i].amount { assert all[i] == ns[i]; }
      assert all[|ns|] == n;
    }
  }

  /** The normalized payload is accepted exactly when the payload is. */
  lemma NormalIsAcceptable(ro: Roster, p: Payload)
    ensures Acceptable(ro, Normal(p)) <==> Acceptable(ro, p)
  {
    var q := Normal(p);
    forall i | 0 <= i < |p.riders| ensures RiderOk(ro, q.riders[i]) <==> RiderOk(ro, p.riders[i]) {
      KeptIsOk(p.riders[i].expenses);
      KeptIsOk(p.riders[i].deductions);
    }
    NormalActiveStaff(ro, p.staff);
    var ss, ts := ActiveStaff(ro, p.staff), ActiveStaff(ro, q.staff);
    forall i | 0 <= i < |ss| ensures StaffOk(ts[i]) <==> StaffOk(ss[i]) {
      KeptIsOk(ss[i].expenses);
      KeptIsOk(ss[i].deductions);
    }
    KeptIsOk(p.expenses);
    hide Kept, ActiveStaff, RiderOk, StaffOk, LineKeysOk;
    SameChecks(ro, p.riders, q.riders);
  }

  lemma SameChecks(ro: Roster, rs: seq<RiderEntry>, qs: seq<RiderEntry>)
    requires |qs| == |rs| && forall i :: 0 <= i < |rs| ==> qs[i].rider == rs[i].rider && qs[i].lines == rs[i].lines
    ensures RiderKeysOk(qs) <==> RiderKeysOk(rs)
    ensures ProductsKnown(ro, qs) <==> ProductsKnown(ro, rs)
  {
    hide LineKeysOk;
  }

  // ---- Saving, reloading and saving again -------------------------------------------------------------------

  predicate DistinctLines(es: seq<ProductEntry>) { forall a, b :: 0 <= a < b < |es| ==> es[a].product != es[b].product }

  /** With one line for each product, a line has a row exactly when the row rule keeps it, and the row is its own. */
  lemma {:induction false} LineRowAt(ro: Roster, r: Id, es: seq<ProductEntry>, k: nat)
    requires k < |es| && DistinctLines(es)
    ensures var rows, key := LineRows(ro, r, es), (r, es[k].product);
      (key in rows <==> !Skipped(es[k])) && (key in rows ==> rows[key] == ProductRowOf(ro, r, es[k]))
  {
    var n := |es| - 1;
    hide Skipped, ProductRowOf;
    if k == n {
      LineRowsKeys(ro, r, es[..n], (r, es[n].product));
      assert forall i :: 0 <= i < n ==> es[..n][i] == es[i];
    } else {
      LineRowAt(ro, r, es[..n], k);
    }
  }

  lemma {:induction false} ProductRowAt(ro: Roster, rs: seq<RiderEntry>, i: nat, k: nat)
    requires i < |rs| && RidersOk(ro, rs) && RiderKeysOk(rs) && k < |rs[i].lines| && DistinctLines(rs[i].lines)
    ensures var rows, key := ProductRows(ro, rs), (rs[i].rider, rs[i].lines[k].product);
      && (key in rows <==> !Skipped(rs[i].lines[k])) && (key in rows ==> rows[key] == ProductRowOf(ro, rs[i].rider, rs[i].lines[k]))
  {
    var n := |rs| - 1;
    var init, last, key := rs[..n], rs[n], (rs[i].rider, rs[i].lines[k].product);
    RidersPrefix(ro, rs);
    hide RidersOk, RiderKeysOk, Skipped, ProductRowOf;
    LineRowsKeys(ro, last.rider, last.lines, key);
    if i == n {
      LineRowAt(ro, last.rider, last.lines, k);
      if key in ProductRows(ro, init) { ProductRowsListed(ro, init, key.0, key.1); }
    } else {
      ProductRowAt(ro, init, i, k);
      assert init[i] in init && init[i].rider in Listed(init);
    }
  }

  /** The units a ledger-fed map holds for a product. */
  function Fed(repaid: map<Id, map<Id, int>>, r: Id, k: Id): int {
    if k in GetMap(repaid, r) then GetMap(repaid, r)[k] else 0
  }

  /** What the reloaded form shows on one line. */
  lemma WholeLine(c: Children, repaid: map<Id, map<Id, int>>, r: Id, l: FormLine)
    ensures var g, key := OverlaidLine(StateOf(c, repaid), r, l), (r, l.product);
      && g.product == l.product
      && (key in c.products ==> g == FormLine(l.product, c.products[key].sold, c.products[key].credited, Fed(repaid, r, l.product)))
      && (key !in c.products ==> g.sold == l.sold && g.credited in {0, l.credited} && g.repaid in {Fed(repaid, r, l.product), l.repaid})
  {
    GroupIsGet(SoldValues(c), r);
    GroupIsGet(CreditedValues(c), r);
    ShownGroups(c, r, l.product);
    hide GroupBy, NotesOf, Saved, Group;
  }

  lemma ShownGroups(c: Children, r: Id, k: Id)
    ensures var sold, credited := Group(SoldValues(c), r), Group(CreditedValues(c), r);
      && (k in sold <==> (r, k) in c.products) && (k in credited <==> (r, k) in c.products)
      && ((r, k) in c.products ==> sold[k] == c.products[(r, k)].sold && credited[k] == c.products[(r, k)].credited)
  {
  }

  /** A payload line as the form was submitted: what the ledger says about credits and repayments stands on the form. */
  predicate FilledLine(l: FormLine, e: ProductEntry) {
    e.product == l.product && e.credited == l.credited && e.repaid == l.repaid && e.borrowed == 0
  }

  ghost predicate FilledRider(f: FormRider, e: RiderEntry, repaid: map<Id, map<Id, int>>) {
    && e.rider == f.id && |e.lines| == |f.lines|
    && forall k :: 0 <= k < |f.lines| ==> FilledLine(f.lines[k], e.lines[k]) && f.lines[k].repaid == Fed(repaid, f.id, f.lines[k].product)
  }

  /** The payload is the fresh form, filled in and submitted, rider by rider and staff member by staff member. */
  ghost predicate FilledForm(f: Form, p: Payload, repaid: map<Id, map<Id, int>>) {
    && |p.riders| == |f.riders| && (forall i :: 0 <= i < |f.riders| ==> FilledRider(f.riders[i], p.riders[i], repaid))
    && |p.staff| == |f.staff| && (forall i :: 0 <= i < |f.staff| ==> p.staff[i].staff == f.staff[i].id)
  }

  /** One line: skipped or stored, it comes back as submitted. */
  lemma LineComesBack(ro: Roster, p: Payload, reps: map<Id, Repayment>, repaid: map<Id, map<Id, int>>, f: FormRider, i: nat, k: nat)
    requires Acceptable(ro, p) && i < |p.riders| && FilledRider(f, p.riders[i], repaid) && FreshRider(f) && k < |f.lines|
    ensures SubmittedLine(OverlaidLine(StateOf(BuiltChildren(ro, p, reps), repaid), f.id, f.lines[k])) == p.riders[i].lines[k]
  {
    var c, e, l := BuiltChildren(ro, p, reps), p.riders[i].lines[k], f.lines[k];
    assert FilledLine(l, e) && l in f.lines;
    assert DistinctLines(p.riders[i].lines) by {
      forall a, b | 0 <= a < b < |f.lines| ensures p.riders[i].lines[a].product != p.riders[i].lines[b].product {
        assert FilledLine(f.lines[a], p.riders[i].lines[a]) && FilledLine(f.lines[b], p.riders[i].lines[b]);
      }
    }
    assert EntryOk(e) by { assert RiderOk(ro, p.riders[i]); }
    ProductRowAt(ro, p.riders, i, k);
    RidersStored(ro, p, reps, f.id);
    WholeLine(c, repaid, f.id, l);
    if Skipped(e) { SkippedAddsNothing(ro, f.id, e); }
    hide BuiltChildren, StateOf, OverlaidLine, ProductRows, RiderRows, Acceptable, Fed;
  }

  lemma RiderReloads(ro: Roster, p: Payload, reps: map<Id, Repayment>, repaid: map<Id, map<Id, int>>, f: FormRider, i: nat)
    requires Acceptable(ro, p) && i < |p.riders| && FilledRider(f, p.riders[i], repaid) && FreshRider(f)
    ensures SubmittedRider(OverlaidRider(StateOf(BuiltChildren(ro, p, reps), repaid), f)) == NormalRider(p.riders[i])
  {
    var st := StateOf(BuiltChildren(ro, p, reps), repaid);
    var g := OverlaidRider(st, f);
    RiderComesBack(ro, p, reps, repaid, f, i);
    SubmittedFields(g);
    assert g.id == f.id && |p.riders[i].lines| == |f.lines| && p.riders[i].rider == f.id;
    LinesSubmitted(st, f);
    hide *;
    forall k | 0 <= k < |f.lines| ensures SubmittedRider(g).lines[k] == p.riders[i].lines[k] {
      LineComesBack(ro, p, reps, repaid, f, i, k);
    }
    NormalFields(p.riders[i], SubmittedRider(g));
  }

  lemma LinesSubmitted(st: DraftState, f: FormRider)
    ensures var e := SubmittedRider(OverlaidRider(st, f));
      |e.lines| == |f.lines| && forall k :: 0 <= k < |f.lines| ==> e.lines[k] == SubmittedLine(OverlaidLine(st, f.id, f.lines[k]))
  {
    hide OverlaidLine;
  }

  lemma NormalFields(e: RiderEntry, n: RiderEntry)
    requires n.rider == e.rider && n.override == e.override && n.remitted == e.remitted
    requires n.expenses == Kept(e.expenses) && n.deductions == Kept(e.deductions)
    requires |n.lines| == |e.lines| && forall k :: 0 <= k < |e.lines| ==> n.lines[k] == e.lines[k]
    ensures n == NormalRider(e)
  {
    hide Kept;
    assert n.lines == e.lines;
  }

  lemma StaffReloads(ro: Roster, p: Payload, reps: map<Id, Repayment>, repaid: map<Id, map<Id, int>>, f: FormStaff, i: nat)
    requires Acceptable(ro, p) && ActiveStaff(ro, p.staff) == p.staff && i < |p.staff| && p.staff[i].staff == f.id
    ensures SubmittedStaff(OverlaidStaff(StateOf(BuiltChildren(ro, p, reps), repaid), f)) == NormalEntry(p.staff[i])
  {
    hide BuiltChildren, StateOf, Acceptable, ActiveStaff, Kept, OverlaidStaff;
    StaffComesBack(ro, p, reps, repaid, f, i);
  }

  /** The reloaded form, submitted, is the first payload, normalized. */
  lemma ReloadIsNormal(ro: Roster, p: Payload, reps: map<Id, Repayment>, repaid: map<Id, map<Id, int>>, f: Form)
    requires Acceptable(ro, p) && FreshForm(ro, f) && FilledForm(f, p, repaid)
    ensures Resubmitted(BuiltChildren(ro, p, reps), repaid, f, p.offering, p.titheRate, p.otherSales) == Normal(p)
  {
    var c := BuiltChildren(ro, p, reps);
    var q := Resubmitted(c, repaid, f, p.offering, p.titheRate, p.otherSales);
    assert q.offering == p.offering && q.titheRate == p.titheRate && q.otherSales == p.otherSales;
    SubmittedLists(ro, c, repaid, f, q);
    GeneralExpensesComeBack(ro, p, reps, repaid, f);
    assert |p.riders| == |f.riders| && |p.staff| == |f.staff|;
    hide *;
    RidersReload(ro, p, reps, repaid, f);
    StaffsReload(ro, p, reps, repaid, f);
    NormalIs(p, q);
  }

  lemma RidersReload(ro: Roster, p: Payload, reps: map<Id, Repayment>, repaid: map<Id, map<Id, int>>, f: Form)
    requires Acceptable(ro, p) && FreshForm(ro, f) && FilledForm(f, p, repaid)
    ensures forall i :: 0 <= i < |f.riders| ==>
      SubmittedRider(OverlaidRider(StateOf(BuiltChildren(ro, p, reps), repaid), f.riders[i])) == NormalRider(p.riders[i])
  {
    hide BuiltChildren, StateOf, Acceptable, OverlaidRider, SubmittedRider, NormalRider, FilledRider, FreshRider;
    hide FreshStaff;
    forall i | 0 <= i < |f.riders|
      ensures SubmittedRider(OverlaidRider(StateOf(BuiltChildren(ro, p, reps), repaid), f.riders[i])) == NormalRider(p.riders[i])
    {
      assert f.riders[i] in f.riders;
      RiderReloads(ro, p, reps, repaid, f.riders[i], i);
    }
  }

  lemma StaffsReload(ro: Roster, p: Payload, reps: map<Id, Repayment>, repaid: map<Id, map<Id, int>>, f: Form)
    requires Acceptable(ro, p) && FreshForm(ro, f) && FilledForm(f, p, repaid)
    ensures forall i :: 0 <= i < |f.staff| ==>
      SubmittedStaff(OverlaidStaff(StateOf(BuiltChildren(ro, p, reps), repaid), f.staff[i])) == NormalEntry(p.staff[i])
  {
    hide BuiltChildren, StateOf, Acceptable, ActiveStaff, OverlaidStaff, SubmittedStaff, NormalEntry, FilledRider;
    hide FreshRider, FreshStaff;
    forall i | 0 <= i < |p.staff| ensures p.staff[i].staff in ro.staff { assert f.staff[i] in f.staff && f.staff[i].id in StaffIds(f); }
    AllActive(ro, p.staff);
    forall i | 0 <= i < |f.staff|
      ensures SubmittedStaff(OverlaidStaff(StateOf(BuiltChildren(ro, p, reps), repaid), f.staff[i])) == NormalEntry(p.staff[i])
    {
      StaffReloads(ro, p, reps, repaid, f.staff[i], i);
    }
  }

  lemma NormalIs(p: Payload, q: Payload)
    requires |q.riders| == |p.riders| && forall i :: 0 <= i < |p.riders| ==> q.riders[i] == NormalRider(p.riders[i])
    requires |q.staff| == |p.staff| && forall i :: 0 <= i < |p.staff| ==> q.staff[i] == NormalEntry(p.staff[i])
    requires q.expenses == Kept(p.expenses)
    requires q.offering == p.offering && q.titheRate == p.titheRate && q.otherSales == p.otherSales
    ensures q == Normal(p)
  {
    hide NormalRider, NormalEntry, Kept;
    assert q.riders == NormalRiders(p.riders) && q.staff == NormalEntries(p.staff);
  }

  /** Fill in the form, save, reload and save again with nothing new on the ledger: the second save is accepted and
      stores the same rows and the same totals. */
  lemma SaveReloadSave(ro: Roster, p: Payload, reps: map<Id, Repayment>, repaid: map<Id, map<Id, int>>, f: Form, dateCredits: int)
    requires Acceptable(ro, p) && FreshForm(ro, f) && FilledForm(f, p, repaid)
    ensures var q := Resubmitted(BuiltChildren(ro, p, reps), repaid, f, p.offering, p.titheRate, p.otherSales);
      && Acceptable(ro, q) && BuiltChildren(ro, q, reps) == BuiltChildren(ro, p, reps)
      && BuiltFigures(ro, q, reps, dateCredits) == BuiltFigures(ro, p, reps, dateCredits)
      && q.offering == p.offering && q.titheRate == p.titheRate
  {
    hide *;
    ReloadIsNormal(ro, p, reps, repaid, f);
    NormalIsAcceptable(ro, p);
    NormalBuildsSame(ro, p, reps, dateCredits);
    NormalKeeps(p);
  }

  lemma NormalKeeps(p: Payload)
    ensures Normal(p).offering == p.offering && Normal(p).titheRate == p.titheRate
  {
  }
}
