/** Reloading a saved draft into the remittance form: loading the stored rows and overlaying them on a fresh form
    gives back what was typed, normalized, and saving the reloaded form stores the same again. */
module DraftForm {
  import opened FiniteSums
  import opened Ledger
  import opened RemittanceModel
  import opened RemittanceBuild
  import opened RemittanceFigures

  // ---- The form ----------------------------------------------------------------------------------------

  datatype FormLine = FormLine(product: Id, sold: int, credited: int, repaid: int)

  datatype FormRider = FormRider(id: Id, lines: seq<FormLine>, expenses: seq<Note>, deductions: seq<Note>,
                                 override: Option<int>, remitted: Option<int>)

  datatype FormStaff = FormStaff(id: Id, override: Option<int>, deductions: seq<Note>, expenses: seq<Note>)

  datatype Form = Form(riders: seq<FormRider>, staff: seq<FormStaff>, expenses: seq<Note>)

  datatype SavedStaff = SavedStaff(override: Option<int>, deductions: seq<Note>, expenses: seq<Note>)

  /** The form-facing state of a stored draft. */
  datatype DraftState = DraftState(sold: map<Id, map<Id, int>>, credited: map<Id, map<Id, int>>,
                                   repaid: map<Id, map<Id, int>>,
                                   expenses: map<Id, seq<Note>>, deductions: map<Id, seq<Note>>,
                                   overrides: map<Id, int>, remitted: map<Id, int>, general: seq<Note>,
                                   staff: map<Id, SavedStaff>)

  // ---- Loading -----------------------------------------------------------------------------------------

  /** The notes of one owner, in stored order. */
  function NotesOf(es: seq<ExpenseRow>, owner: Owner): seq<Note> {
    if es == [] then [] else
    NotesOf(es[..|es| - 1], owner) + (if es[|es| - 1].owner == owner then [es[|es| - 1].note] else [])
  }

  /** Values keyed by (rider, product), grouped by rider and then by product. */
  function GroupBy(v: map<(Id, Id), int>): map<Id, map<Id, int>> {
    map r | r in (set k | k in v :: k.0) :: Group(v, r)
  }

  function Group(v: map<(Id, Id), int>, r: Id): map<Id, int> {
    map p | p in (set k | k in v && k.0 == r :: k.1) :: v[(r, p)]
  }

  function SoldValues(c: Children): map<(Id, Id), int> { map k | k in c.products :: c.products[k].sold }

  function CreditedValues(c: Children): map<(Id, Id), int> { map k | k in c.products :: c.products[k].credited }

  function Saved(c: Children, s: Id): SavedStaff
    requires s in c.staff
  {
    SavedStaff(c.staff[s].override, c.staff[s].deductions, NotesOf(c.expenses, OfStaff(s)))
  }

  function StateOf(c: Children, repaid: map<Id, map<Id, int>>): DraftState {
    DraftState(GroupBy(SoldValues(c)), GroupBy(CreditedValues(c)), repaid,
               map r | r in c.riders :: NotesOf(c.expenses, OfRider(r)), map r | r in c.riders :: c.riders[r].deductions,
               map r | r in c.riders && c.riders[r].override.Some? :: c.riders[r].override.value,
               map r | r in c.riders && c.riders[r].remitted.Some? :: c.riders[r].remitted.value,
               NotesOf(c.expenses, General), map s | s in c.staff :: Saved(c, s))
  }

  method OwnNotes(es: seq<ExpenseRow>, owner: Owner) returns (ns: seq<Note>)
    ensures ns == NotesOf(es, owner)
  {
    ns := [];
    for i := 0 to |es|
      invariant ns == NotesOf(es[..i], owner)
    {
      assert es[..i + 1][..i] == es[..i];
      if es[i].owner == owner { ns := ns + [es[i].note]; }
    }
    assert es[..|es|] == es;
  }

  function GetMap(m: map<Id, map<Id, int>>, k: Id): map<Id, int> { if k in m then m[k] else map[] }

  lemma GroupKeys(v: map<(Id, Id), int>, r: Id, p: Id, x: int)
    ensures GroupBy(v[(r, p) := x]).Keys == GroupBy(v).Keys + {r}
  {
    hide Group;
    assert (set k | k in v[(r, p) := x] :: k.0) == (set k | k in v :: k.0) + {r};
  }

  /** A rider's group is what the dictionary holds for the rider, if anything. */
  lemma GroupIsGet(v: map<(Id, Id), int>, r: Id)
    ensures GetMap(GroupBy(v), r) == Group(v, r)
  {
    if r !in GroupBy(v) {
      assert (set k | k in v && k.0 == r :: k.1) == {};
    }
  }

  lemma GroupPut(v: map<(Id, Id), int>, r: Id, p: Id, x: int)
    ensures GroupBy(v[(r, p) := x]) == GroupBy(v)[r := GetMap(GroupBy(v), r)[p := x]]
  {
    var w := v[(r, p) := x];
    var g := GroupBy(v)[r := GetMap(GroupBy(v), r)[p := x]];
    GroupKeys(v, r, p, x);
    hide GroupBy, GetMap;
    forall q | q in g ensures GetMap(GroupBy(w), q) == GetMap(g, q) {
      GroupIsGet(w, q);
      GroupIsGet(v, q);
      GroupPutOne(v, r, p, x, q);
      PutGet(GroupBy(v), r, GetMap(GroupBy(v), r)[p := x], q);
    }
    SameGets(GroupBy(w), g);
  }

  lemma PutGet(m: map<Id, map<Id, int>>, r: Id, x: map<Id, int>, q: Id)
    ensures GetMap(m[r := x], q) == if q == r then x else GetMap(m, q)
  {
  }

  lemma SameGets(a: map<Id, map<Id, int>>, b: map<Id, map<Id, int>>)
    requires a.Keys == b.Keys && forall q :: q in b ==> GetMap(a, q) == GetMap(b, q)
    ensures a == b
  {
    forall q | q in b ensures a[q] == b[q] { assert GetMap(a, q) == GetMap(b, q); }
  }

  lemma GroupPutOne(v: map<(Id, Id), int>, r: Id, p: Id, x: int, q: Id)
    ensures Group(v[(r, p) := x], q) == if q == r then Group(v, r)[p := x] else Group(v, q)
  {
    var w := v[(r, p) := x];
    if q == r {
      assert (set k | k in w && k.0 == r :: k.1) == (set k | k in v && k.0 == r :: k.1) + {p};
    } else {
      assert (set k | k in w && k.0 == q :: k.1) == (set k | k in v && k.0 == q :: k.1);
    }
  }

  /** The values already visited. */
  function Visited(v: map<(Id, Id), int>, todo: set<(Id, Id)>): map<(Id, Id), int> { map k | k in v && k !in todo :: v[k] }

  lemma VisitNext(v: map<(Id, Id), int>, todo: set<(Id, Id)>, r: Id, p: Id)
    requires (r, p) in todo && (r, p) in v
    ensures var g := GroupBy(Visited(v, todo));
      GroupBy(Visited(v, todo - {(r, p)})) == g[r := GetMap(g, r)[p := v[(r, p)]]]
  {
    assert Visited(v, todo - {(r, p)}) == Visited(v, todo)[(r, p) := v[(r, p)]];
    hide Visited;
    GroupPut(Visited(v, todo), r, p, v[(r, p)]);
  }

  lemma VisitEnds(v: map<(Id, Id), int>)
    ensures Visited(v, {}) == v && GroupBy(Visited(v, v.Keys)) == map[]
  {
  }

  /** The product-line loop: quantities grouped by rider, then by product. */
  method LoadLines(c: Children) returns (sold: map<Id, map<Id, int>>, credited: map<Id, map<Id, int>>)
    ensures sold == GroupBy(SoldValues(c)) && credited == GroupBy(CreditedValues(c))
  {
    hide GroupBy, Visited, GetMap;
    sold, credited := map[], map[];
    var todo := c.products.Keys;
    assert SoldValues(c).Keys == todo == CreditedValues(c).Keys;
    VisitEnds(SoldValues(c));
    VisitEnds(CreditedValues(c));
    while todo != {}
      invariant todo <= c.products.Keys
      invariant sold == GroupBy(Visited(SoldValues(c), todo)) && credited == GroupBy(Visited(CreditedValues(c), todo))
      decreases |todo|
    {
      var key :| key in todo;
      var (r, p) := key;
      VisitNext(SoldValues(c), todo, r, p);
      VisitNext(CreditedValues(c), todo, r, p);
      sold := sold[r := GetMap(sold, r)[p := c.products[key].sold]];
      credited := credited[r := GetMap(credited, r)[p := c.products[key].credited]];
      todo := todo - {key};
    }
  }

  /** The note lists of the riders already visited. */
  function NotesBut(c: Children, todo: set<Id>): map<Id, seq<Note>> {
    map r | r in c.riders && r !in todo :: NotesOf(c.expenses, OfRider(r))
  }

  function DeductionsBut(c: Children, todo: set<Id>): map<Id, seq<Note>> {
    map r | r in c.riders && r !in todo :: c.riders[r].deductions
  }

  lemma NextNotes(c: Children, todo: set<Id>, r: Id)
    requires r in c.riders && r in todo
    ensures NotesBut(c, todo - {r}) == NotesBut(c, todo)[r := NotesOf(c.expenses, OfRider(r))]
    ensures DeductionsBut(c, todo - {r}) == DeductionsBut(c, todo)[r := c.riders[r].deductions]
  {
    hide NotesOf;
  }

  lemma NotesEnds(c: Children)
    ensures NotesBut(c, c.riders.Keys) == map[] && DeductionsBut(c, c.riders.Keys) == map[]
    ensures NotesBut(c, {}) == map r | r in c.riders :: NotesOf(c.expenses, OfRider(r))
    ensures DeductionsBut(c, {}) == map r | r in c.riders :: c.riders[r].deductions
  {
    hide NotesOf;
  }

  method LoadRiderNotes(c: Children) returns (expenses: map<Id, seq<Note>>, deductions: map<Id, seq<Note>>)
    ensures expenses == map r | r in c.riders :: NotesOf(c.expenses, OfRider(r))
    ensures deductions == map r | r in c.riders :: c.riders[r].deductions
  {
    hide NotesOf, NotesBut, DeductionsBut;
    NotesEnds(c);
    expenses, deductions := map[], map[];
    var todo := c.riders.Keys;
    while todo != {}
      invariant todo <= c.riders.Keys && expenses == NotesBut(c, todo) && deductions == DeductionsBut(c, todo)
      decreases |todo|
    {
      var r :| r in todo;
      NextNotes(c, todo, r);
      var notes := OwnNotes(c.expenses, OfRider(r));
      expenses, deductions := expenses[r := notes], deductions[r := c.riders[r].deductions];
      todo := todo - {r};
    }
  }

  method LoadRiderSums(c: Children) returns (overrides: map<Id, int>, remitted: map<Id, int>)
    ensures overrides == map r | r in c.riders && c.riders[r].override.Some? :: c.riders[r].override.value
    ensures remitted == map r | r in c.riders && c.riders[r].remitted.Some? :: c.riders[r].remitted.value
  {
    overrides, remitted := map[], map[];
    var todo := c.riders.Keys;
    while todo != {}
      invariant todo <= c.riders.Keys
      invariant overrides == map r | r in c.riders && r !in todo && c.riders[r].override.Some? :: c.riders[r].override.value
      invariant remitted == map r | r in c.riders && r !in todo && c.riders[r].remitted.Some? :: c.riders[r].remitted.value
      decreases |todo|
    {
      var r :| r in todo;
      if c.riders[r].override.Some? { overrides := overrides[r := c.riders[r].override.value]; }
      if c.riders[r].remitted.Some? { remitted := remitted[r := c.riders[r].remitted.value]; }
      todo := todo - {r};
    }
  }

  /** The loader: lines, rider rows with their notes, general expenses, and staff rows. `repaid` is the units of
      the payments linked to the draft, by care-of user and product. */
  method LoadDraft(c: Children, repaid: map<Id, map<Id, int>>) returns (st: DraftState)
    ensures st == StateOf(c, repaid)
  {
    var sold, credited := LoadLines(c);
    var expenses, deductions := LoadRiderNotes(c);
    var overrides, remitted := LoadRiderSums(c);
    var general := OwnNotes(c.expenses, General);
    var staff := LoadStaff(c);
    hide GroupBy, NotesOf, Saved;
    st := DraftState(sold, credited, repaid, expenses, deductions, overrides, remitted, general, staff);
  }

  method LoadStaff(c: Children) returns (staff: map<Id, SavedStaff>)
    ensures staff == map s | s in c.staff :: Saved(c, s)
  {
    staff := map[];
    var todo := c.staff.Keys;
    while todo != {}
      invariant todo <= c.staff.Keys && staff == map s | s in c.staff && s !in todo :: Saved(c, s)
      decreases |todo|
    {
      var s :| s in todo;
      var notes := OwnNotes(c.expenses, OfStaff(s));
      staff := staff[s := SavedStaff(c.staff[s].override, c.staff[s].deductions, notes)];
      todo := todo - {s};
    }
  }

  // ---- The overlay -------------------------------------------------------------------------------------

  function GetNotes(m: map<Id, seq<Note>>, k: Id): seq<Note> { if k in m then m[k] else [] }

  function GetInt(m: map<Id, int>, k: Id): Option<int> { if k in m then Some(m[k]) else None }

  function OverlaidLine(st: DraftState, r: Id, l: FormLine): FormLine {
    var sold, credited, repaid := GetMap(st.sold, r), GetMap(st.credited, r), GetMap(st.repaid, r);
    if sold == map[] && credited == map[] && repaid == map[] then l else
    FormLine(l.product, if l.product in sold then sold[l.product] else l.sold,
             if l.product in credited then credited[l.product] else if sold != map[] then 0 else l.credited,
             if l.product in repaid then repaid[l.product] else if sold != map[] then 0 else l.repaid)
  }

  function OverlaidRider(st: DraftState, f: FormRider): FormRider {
    FormRider(f.id, seq(|f.lines|, i requires 0 <= i < |f.lines| => OverlaidLine(st, f.id, f.lines[i])),
              GetNotes(st.expenses, f.id), GetNotes(st.deductions, f.id), GetInt(st.overrides, f.id), GetInt(st.remitted, f.id))
  }

  function OverlaidStaff(st: DraftState, f: FormStaff): FormStaff {
    if f.id in st.staff then FormStaff(f.id, st.staff[f.id].override, st.staff[f.id].deductions, st.staff[f.id].expenses) else f
  }

  function Overlaid(st: DraftState, f: Form): Form {
    Form(seq(|f.riders|, i requires 0 <= i < |f.riders| => OverlaidRider(st, f.riders[i])),
         seq(|f.staff|, i requires 0 <= i < |f.staff| => OverlaidStaff(st, f.staff[i])), st.general)
  }

  /** The overlay loops of the form page. */
  method OverlayForm(st: DraftState, f: Form) returns (g: Form)
    ensures g == Overlaid(st, f)
  {
    var riders: seq<FormRider> := [];
    for i := 0 to |f.riders|
      invariant |riders| == i && forall a :: 0 <= a < i ==> riders[a] == OverlaidRider(st, f.riders[a])
    {
      var r := f.riders[i];
      var lines: seq<FormLine> := [];
      var sold, credited, repaid := GetMap(st.sold, r.id), GetMap(st.credited, r.id), GetMap(st.repaid, r.id);
      for j := 0 to |r.lines|
        invariant |lines| == j && forall b :: 0 <= b < j ==> lines[b] == OverlaidLine(st, r.id, r.lines[b])
      {
        var l := r.lines[j];
        if sold != map[] || credited != map[] || repaid != map[] {
          if l.product in sold { l := l.(sold := sold[l.product]); }
          if l.product in credited {
            l := l.(credited := credited[l.product]);
          } else if sold != map[] {
            l := l.(credited := 0);
          }
          if l.product in repaid {
            l := l.(repaid := repaid[l.product]);
          } else if sold != map[] {
            l := l.(repaid := 0);
          }
        }
        lines := lines + [l];
      }
      riders := riders + [FormRider(r.id, lines, GetNotes(st.expenses, r.id), GetNotes(st.deductions, r.id),
                                    GetInt(st.overrides, r.id), GetInt(st.remitted, r.id))];
    }
    var staff: seq<FormStaff> := [];
    for i := 0 to |f.staff|
      invariant |staff| == i && forall a :: 0 <= a < i ==> staff[a] == OverlaidStaff(st, f.staff[a])
    {
      var m := f.staff[i];
      if m.id in st.staff {
        var saved := st.staff[m.id];
        m := FormStaff(m.id, saved.override, saved.deductions, saved.expenses);
      }
      staff := staff + [m];
    }
    g := Form(riders, staff, st.general);
  }

  // ---- Normalization -----------------------------------------------------------------------------------

  lemma {:induction false} TrimLeftDone(s: string)
    ensures var t := TrimLeft(s); t == "" || !Space(t[0])
    ensures TrimLeft(TrimLeft(s)) == TrimLeft(s)
  {
    if s != "" && Space(s[0]) { TrimLeftDone(s[1..]); }
  }

  lemma {:induction false} TrimRightDone(s: string)
    ensures var t := TrimRight(s);
      && (t == "" || !Space(t[|t| - 1])) && TrimRight(t) == t
      && (s != "" && !Space(s[0]) ==> t != "" && t[0] == s[0])
  {
    if s != "" && Space(s[|s| - 1]) { TrimRightDone(s[..|s| - 1]); }
  }

  lemma TrimTwice(s: string)
    ensures Trim(Trim(s)) == Trim(s)
  {
    TrimLeftDone(s);
    TrimRightDone(TrimLeft(s));
  }

  lemma StoredTwice(n: Note)
    ensures Stored(Stored(n)) == Stored(n) && (!Blank(n) ==> !Blank(Stored(n)))
  {
    TrimTwice(n.desc);
    assert Trim(UNNAMED) == UNNAMED by {
      assert TrimLeft(UNNAMED) == UNNAMED && TrimRight(UNNAMED) == UNNAMED;
    }
  }

  /** Normalizing notes is idempotent: stored notes, read back and stored again, are the same. */
  lemma {:induction false} KeptTwice(ns: seq<Note>)
    ensures Kept(Kept(ns)) == Kept(ns)
  {
    if ns != [] {
      var init, n := ns[..|ns| - 1], ns[|ns| - 1];
      KeptTwice(init);
      hide Blank, Stored;
      StoredTwice(n);
      if Blank(n) {
        assert Kept(ns) == Kept(init);
      } else {
        assert Kept(ns)[..|Kept(ns)| - 1] == Kept(init);
      }
    }
  }

  // ---- What was stored for one rider -------------------------------------------------------------------

  /** What a rider sold of a product, over all the lines that name it. */
  function SoldOf(es: seq<ProductEntry>, k: Id): int {
    if es == [] then 0 else SoldOf(es[..|es| - 1], k) + (if es[|es| - 1].product == k then es[|es| - 1].sold else 0)
  }

  function SoldStored(rows: map<(Id, Id), ProductRow>, r: Id, k: Id): int { if (r, k) in rows then rows[(r, k)].sold else 0 }

  lemma LinesPrefix(es: seq<ProductEntry>)
    requires es != [] && LinesOk(es) && LineKeysOk(es)
    ensures LinesOk(es[..|es| - 1]) && LineKeysOk(es[..|es| - 1]) && EntryOk(es[|es| - 1])
  {
    var init := es[..|es| - 1];
    forall i | 0 <= i < |init| ensures EntryOk(init[i]) { assert init[i] == es[i]; }
    forall i, j | 0 <= i < j < |init| && !Skipped(init[i]) && !Skipped(init[j]) ensures init[i].product != init[j].product {
      assert init[i] == es[i] && init[j] == es[j];
    }
  }

  lemma NoEarlierRow(ro: Roster, r: Id, es: seq<ProductEntry>)
    requires es != [] && LineKeysOk(es) && !Skipped(es[|es| - 1])
    ensures (r, es[|es| - 1].product) !in LineRows(ro, r, es[..|es| - 1])
  {
    var init := es[..|es| - 1];
    LineRowsKeys(ro, r, init, (r, es[|es| - 1].product));
    forall i | 0 <= i < |init| && !Skipped(init[i]) ensures init[i].product != es[|es| - 1].product {
      assert init[i] == es[i];
    }
  }

  lemma {:induction false} LineSold(ro: Roster, r: Id, es: seq<ProductEntry>, k: Id)
    requires LinesOk(es) && LineKeysOk(es)
    ensures SoldStored(LineRows(ro, r, es), r, k) == SoldOf(es, k)
  {
    if es != [] {
      var init, e := es[..|es| - 1], es[|es| - 1];
      LinesPrefix(es);
      LineSold(ro, r, init, k);
      if Skipped(e) {
        SkippedAddsNothing(ro, r, e);
      } else {
        NoEarlierRow(ro, r, es);
      }
    }
  }

  lemma {:induction false} ProductRowsListed(ro: Roster, rs: seq<RiderEntry>, r: Id, k: Id)
    requires (r, k) in ProductRows(ro, rs)
    ensures r in Listed(rs)
  {
    if rs != [] {
      var init, last := rs[..|rs| - 1], rs[|rs| - 1];
      LineRowsKeys(ro, last.rider, last.lines, (r, k));
      if (r, k) in ProductRows(ro, init) { ProductRowsListed(ro, init, r, k); }
    }
  }

  lemma RidersPrefix(ro: Roster, rs: seq<RiderEntry>)
    requires rs != [] && RidersOk(ro, rs) && RiderKeysOk(rs)
    ensures RidersOk(ro, rs[..|rs| - 1]) && RiderKeysOk(rs[..|rs| - 1])
    ensures RiderOk(ro, rs[|rs| - 1]) && LineKeysOk(rs[|rs| - 1].lines)
    ensures rs[|rs| - 1].rider !in Listed(rs[..|rs| - 1])
  {
    NewRider(rs);
    hide RiderOk, LineKeysOk;
    var init := rs[..|rs| - 1];
    forall i | 0 <= i < |init| ensures RiderOk(ro, init[i]) { assert init[i] == rs[i]; }
  }

  lemma {:induction false} ProductsOfRider(ro: Roster, rs: seq<RiderEntry>, i: nat, k: Id)
    requires i < |rs| && RidersOk(ro, rs) && RiderKeysOk(rs)
    ensures SoldStored(ProductRows(ro, rs), rs[i].rider, k) == SoldOf(rs[i].lines, k)
  {
    var n := |rs| - 1;
    var init, last := rs[..n], rs[n];
    RidersPrefix(ro, rs);
    hide RidersOk, RiderKeysOk;
    LineRowsKeys(ro, last.rider, last.lines, (rs[i].rider, k));
    if i == n {
      LineSold(ro, last.rider, last.lines, k);
      if (last.rider, k) in ProductRows(ro, init) { ProductRowsListed(ro, init, last.rider, k); }
    } else {
      ProductsOfRider(ro, init, i, k);
      assert init[i] in init && init[i].rider in Listed(init);
    }
  }

  lemma {:induction false} RowOfRider(ro: Roster, rs: seq<RiderEntry>, i: nat)
    requires i < |rs| && RiderKeysOk(rs)
    ensures rs[i].rider in RiderRows(ro, rs) && RiderRows(ro, rs)[rs[i].rider] == RiderRowOf(ro, rs[i])
  {
    var n := |rs| - 1;
    NewRider(rs);
    hide RiderKeysOk, RiderRowOf;
    if i < n {
      RowOfRider(ro, rs[..n], i);
      assert rs[..n][i] in rs[..n];
    }
  }

  // ---- The notes of each owner -------------------------------------------------------------------------

  lemma {:induction false} NotesOfConcat(a: seq<ExpenseRow>, b: seq<ExpenseRow>, o: Owner)
    ensures NotesOf(a + b, o) == NotesOf(a, o) + NotesOf(b, o)
  {
    if b == [] {
      assert a + b == a;
    } else {
      assert (a + b)[..|a + b| - 1] == a + b[..|b| - 1];
      NotesOfConcat(a, b[..|b| - 1], o);
    }
  }

  lemma {:induction false} NotesOfExpensed(owner: Owner, ns: seq<Note>, o: Owner)
    ensures NotesOf(Expensed(owner, ns), o) == if o == owner then ns else []
  {
    if ns != [] {
      var init := ns[..|ns| - 1];
      NotesOfExpensed(owner, init, o);
      ExpensedLength(owner, init);
      assert Expensed(owner, ns)[..|Expensed(owner, ns)| - 1] == Expensed(owner, init);
      assert ns == init + [ns[|ns| - 1]];
    }
  }

  lemma NotesOfLastRider(rs: seq<RiderEntry>, o: Owner)
    requires rs != []
    ensures NotesOf(RiderExpenses(rs), o) == NotesOf(RiderExpenses(rs[..|rs| - 1]), o)
      + (if o == OfRider(rs[|rs| - 1].rider) then Kept(rs[|rs| - 1].expenses) else [])
  {
    var init, last := rs[..|rs| - 1], rs[|rs| - 1];
    NotesOfExpensed(OfRider(last.rider), Kept(last.expenses), o);
    NotesOfConcat(RiderExpenses(init), Expensed(OfRider(last.rider), Kept(last.expenses)), o);
    hide NotesOf, Expensed, Kept;
  }

  lemma {:induction false} NotesOfRiders(rs: seq<RiderEntry>, o: Owner)
    ensures (o.OfRider? && o.rider in Listed(rs)) || NotesOf(RiderExpenses(rs), o) == []
  {
    if rs != [] {
      var init, last := rs[..|rs| - 1], rs[|rs| - 1];
      NotesOfRiders(init, o);
      NotesOfLastRider(rs, o);
      assert rs == init + [last];
      hide NotesOf, RiderExpenses, Kept;
    }
  }

  lemma {:induction false} NotesOfRider(rs: seq<RiderEntry>, i: nat)
    requires i < |rs| && RiderKeysOk(rs)
    ensures NotesOf(RiderExpenses(rs), OfRider(rs[i].rider)) == Kept(rs[i].expenses)
  {
    var n := |rs| - 1;
    NewRider(rs);
    NotesOfLastRider(rs, OfRider(rs[i].rider));
    NotesOfRiders(rs[..n], OfRider(rs[i].rider));
    hide RiderKeysOk, NotesOf, RiderExpenses, Kept;
    if i < n {
      NotesOfRider(rs[..n], i);
      assert rs[..n][i] in rs[..n];
    }
  }

  lemma NotesOfLastStaff(ss: seq<StaffEntry>, o: Owner)
    requires ss != []
    ensures NotesOf(StaffExpenses(ss), o) == NotesOf(StaffExpenses(ss[..|ss| - 1]), o)
      + (if o == OfStaff(ss[|ss| - 1].staff) then Kept(ss[|ss| - 1].expenses) else [])
  {
    var init, last := ss[..|ss| - 1], ss[|ss| - 1];
    NotesOfExpensed(OfStaff(last.staff), Kept(last.expenses), o);
    NotesOfConcat(StaffExpenses(init), Expensed(OfStaff(last.staff), Kept(last.expenses)), o);
    hide NotesOf, Expensed, Kept;
  }

  lemma {:induction false} NotesOfStaffs(ss: seq<StaffEntry>, o: Owner)
    ensures (o.OfStaff? && exists s :: s in ss && s.staff == o.staff) || NotesOf(StaffExpenses(ss), o) == []
  {
    hide Kept;
    if ss != [] {
      hide NotesOf, StaffExpenses;
      var init, last := ss[..|ss| - 1], ss[|ss| - 1];
      NotesOfStaffs(init, o);
      NotesOfLastStaff(ss, o);
      if o.OfStaff? && exists s :: s in init && s.staff == o.staff {
        var s :| s in init && s.staff == o.staff;
        assert s in ss;
      } else {
        assert last in ss;
      }
    }
  }

  lemma NewStaffMember(ss: seq<StaffEntry>)
    requires ss != [] && StaffKeysOk(ss)
    ensures StaffKeysOk(ss[..|ss| - 1]) && forall s :: s in ss[..|ss| - 1] ==> s.staff != ss[|ss| - 1].staff
  {
    var init := ss[..|ss| - 1];
    forall s | s in init ensures s.staff != ss[|ss| - 1].staff {
      var j :| 0 <= j < |init| && init[j] == s;
      assert ss[j] == s;
    }
  }

  lemma {:induction false} StaffOf(ro: Roster, ss: seq<StaffEntry>, i: nat)
    requires i < |ss| && StaffKeysOk(ss)
    ensures NotesOf(StaffExpenses(ss), OfStaff(ss[i].staff)) == Kept(ss[i].expenses)
    ensures ss[i].staff in StaffRows(ro, ss) && StaffRows(ro, ss)[ss[i].staff] == StaffRowOf(ro, ss[i])
  {
    hide StaffKeysOk, NotesOf, StaffExpenses, Kept, StaffRowOf;
    var n := |ss| - 1;
    NewStaffMember(ss);
    NotesOfLastStaff(ss, OfStaff(ss[i].staff));
    if i == n {
      NotesOfStaffs(ss[..n], OfStaff(ss[i].staff));
    } else {
      StaffOf(ro, ss[..n], i);
      assert ss[..n][i] in ss[..n];
    }
  }

  /** The stored expenses of a build, owner by owner. */
  lemma BuiltNotes(ro: Roster, p: Payload, reps: map<Id, Repayment>, o: Owner)
    ensures var es, staff := BuiltChildren(ro, p, reps).expenses, ActiveStaff(ro, p.staff);
      NotesOf(es, o) == NotesOf(RiderExpenses(p.riders), o) + (if o == General then Kept(p.expenses) else [])
                        + NotesOf(StaffExpenses(staff), o)
  {
    var staff := ActiveStaff(ro, p.staff);
    var general := Expensed(General, Kept(p.expenses));
    NotesOfExpensed(General, Kept(p.expenses), o);
    NotesOfConcat(RiderExpenses(p.riders), general, o);
    NotesOfConcat(RiderExpenses(p.riders) + general, StaffExpenses(staff), o);
    hide NotesOf, Expensed, Kept, RiderExpenses, StaffExpenses, ActiveStaff, RiderRows, ProductRows, StaffRows;
    hide UnlistedRows;
  }

  // ---- The round trip ----------------------------------------------------------------------------------

  predicate ShowsSold(l: FormLine, product: Id, sold: int) { l.product == product && l.sold == sold }

  /** What the reloaded form shows of a stored rider. */
  lemma OverlayRider(c: Children, repaid: map<Id, map<Id, int>>, f: FormRider)
    requires forall l :: l in f.lines ==> l.sold == 0
    ensures var g := OverlaidRider(StateOf(c, repaid), f);
      && g.id == f.id && |g.lines| == |f.lines|
      && (forall i :: 0 <= i < |f.lines| ==> ShowsSold(g.lines[i], f.lines[i].product, SoldStored(c.products, f.id, f.lines[i].product)))
      && g.expenses == (if f.id in c.riders then NotesOf(c.expenses, OfRider(f.id)) else [])
      && g.deductions == (if f.id in c.riders then c.riders[f.id].deductions else [])
      && g.override == (if f.id in c.riders then c.riders[f.id].override else None)
      && g.remitted == (if f.id in c.riders then c.riders[f.id].remitted else None)
  {
    GroupIsGet(SoldValues(c), f.id);
    hide GroupBy, NotesOf, Saved;
    forall i | 0 <= i < |f.lines|
      ensures OverlaidLine(StateOf(c, repaid), f.id, f.lines[i]).sold == SoldStored(c.products, f.id, f.lines[i].product)
    {
      assert f.lines[i] in f.lines;
      OverlayLine(c, repaid, f.id, f.lines[i]);
    }
  }

  lemma OverlayLine(c: Children, repaid: map<Id, map<Id, int>>, r: Id, l: FormLine)
    requires l.sold == 0 && GetMap(GroupBy(SoldValues(c)), r) == Group(SoldValues(c), r)
    ensures OverlaidLine(StateOf(c, repaid), r, l).sold == SoldStored(c.products, r, l.product)
  {
    var g := Group(SoldValues(c), r);
    assert l.product in g <==> (r, l.product) in c.products;
    hide GroupBy, GetMap, NotesOf, Saved;
  }

  lemma RidersStored(ro: Roster, p: Payload, reps: map<Id, Repayment>, r: Id)
    ensures var c := BuiltChildren(ro, p, reps);
      && (r in RiderRows(ro, p.riders) && r !in UnlistedRows(ro, reps, Unlisted(ro, p.riders, reps)) ==>
            r in c.riders && c.riders[r] == RiderRows(ro, p.riders)[r])
      && (r !in RiderRows(ro, p.riders) && r in c.riders ==> c.riders[r] == RiderRow(0, RepaymentCommission(ro, reps, r), None, None, []))
      && c.products == ProductRows(ro, p.riders)
      && c.staff == StaffRows(ro, ActiveStaff(ro, p.staff))
  {
    hide RiderRows, ProductRows, StaffRows, ActiveStaff, Unlisted, RepaymentCommission;
  }

  /** A payload rider shown on the form comes back as typed, up to normalization of the notes: every sold quantity,
      the override, the remitted amount, the expenses and the deductions. */
  lemma RiderComesBack(ro: Roster, p: Payload, reps: map<Id, Repayment>, repaid: map<Id, map<Id, int>>, f: FormRider, j: nat)
    requires Acceptable(ro, p) && j < |p.riders| && f.id == p.riders[j].rider && forall l :: l in f.lines ==> l.sold == 0
    ensures var g, e := OverlaidRider(StateOf(BuiltChildren(ro, p, reps), repaid), f), p.riders[j];
      && |g.lines| == |f.lines|
      && (forall i :: 0 <= i < |f.lines| ==> ShowsSold(g.lines[i], f.lines[i].product, SoldOf(e.lines, f.lines[i].product)))
      && g.override == e.override && g.remitted == e.remitted
      && g.expenses == Kept(e.expenses) && g.deductions == Kept(e.deductions)
  {
    var c, e := BuiltChildren(ro, p, reps), p.riders[j];
    var ds := Unlisted(ro, p.riders, reps);
    OverlayRider(c, repaid, f);
    RowOfRider(ro, p.riders, j);
    RidersStored(ro, p, reps, e.rider);
    UnlistedRowsKeys(ro, reps, ds);
    assert e.rider !in ds by { assert e in p.riders; }
    NotesOfRider(p.riders, j);
    NotesOfStaffs(ActiveStaff(ro, p.staff), OfRider(e.rider));
    BuiltNotes(ro, p, reps, OfRider(e.rider));
    forall i | 0 <= i < |f.lines| ensures SoldStored(c.products, f.id, f.lines[i].product) == SoldOf(e.lines, f.lines[i].product) {
      ProductsOfRider(ro, p.riders, j, f.lines[i].product);
    }
    hide *;
  }

  /** A rider the payload does not list comes back untouched. */
  lemma OtherRiderStaysEmpty(ro: Roster, p: Payload, reps: map<Id, Repayment>, repaid: map<Id, map<Id, int>>, f: FormRider)
    requires f.id !in Listed(p.riders) && forall l :: l in f.lines ==> l.sold == 0
    ensures var g := OverlaidRider(StateOf(BuiltChildren(ro, p, reps), repaid), f);
      && |g.lines| == |f.lines| && (forall i :: 0 <= i < |f.lines| ==> ShowsSold(g.lines[i], f.lines[i].product, 0))
      && g.override == None && g.remitted == None && g.expenses == [] && g.deductions == []
  {
    var c := BuiltChildren(ro, p, reps);
    OverlayRider(c, repaid, f);
    RiderRowsKeys(ro, p.riders);
    RidersStored(ro, p, reps, f.id);
    NotesOfRiders(p.riders, OfRider(f.id));
    NotesOfStaffs(ActiveStaff(ro, p.staff), OfRider(f.id));
    BuiltNotes(ro, p, reps, OfRider(f.id));
    forall i | 0 <= i < |f.lines| ensures SoldStored(c.products, f.id, f.lines[i].product) == 0 {
      if (f.id, f.lines[i].product) in ProductRows(ro, p.riders) {
        ProductRowsListed(ro, p.riders, f.id, f.lines[i].product);
      }
    }
    hide *;
  }

  /** General expenses come back as typed, normalized. */
  lemma GeneralExpensesComeBack(ro: Roster, p: Payload, reps: map<Id, Repayment>, repaid: map<Id, map<Id, int>>, f: Form)
    ensures Overlaid(StateOf(BuiltChildren(ro, p, reps), repaid), f).expenses == Kept(p.expenses)
  {
    NotesOfRiders(p.riders, General);
    NotesOfStaffs(ActiveStaff(ro, p.staff), General);
    BuiltNotes(ro, p, reps, General);
    hide NotesOf, GroupBy, BuiltChildren, ActiveStaff, RiderExpenses, StaffExpenses, Kept, Saved;
  }

  /** An active staff entry comes back as typed, normalized. */
  lemma StaffComesBack(ro: Roster, p: Payload, reps: map<Id, Repayment>, repaid: map<Id, map<Id, int>>, f: FormStaff, j: nat)
    requires Acceptable(ro, p) && j < |ActiveStaff(ro, p.staff)| && f.id == ActiveStaff(ro, p.staff)[j].staff
    ensures var e := ActiveStaff(ro, p.staff)[j];
      OverlaidStaff(StateOf(BuiltChildren(ro, p, reps), repaid), f) == FormStaff(f.id, e.override, Kept(e.deductions), Kept(e.expenses))
  {
    StaffIsStored(ro, p, reps, j);
    hide *;
    OverlayStaff(BuiltChildren(ro, p, reps), repaid, f);
    StaffRowFields(ro, ActiveStaff(ro, p.staff)[j]);
  }

  lemma StaffRowFields(ro: Roster, e: StaffEntry)
    ensures StaffRowOf(ro, e).override == e.override && StaffRowOf(ro, e).deductions == Kept(e.deductions)
  {
    hide Kept, AmountOf;
  }

  /** What the reloaded form shows of a stored staff member. */
  lemma OverlayStaff(c: Children, repaid: map<Id, map<Id, int>>, f: FormStaff)
    requires f.id in c.staff
    ensures OverlaidStaff(StateOf(c, repaid), f)
         == FormStaff(f.id, c.staff[f.id].override, c.staff[f.id].deductions, NotesOf(c.expenses, OfStaff(f.id)))
  {
    hide NotesOf, GroupBy;
  }

  lemma OtherStaffStaysEmpty(ro: Roster, p: Payload, reps: map<Id, Repayment>, repaid: map<Id, map<Id, int>>, f: FormStaff)
    requires forall s :: s in ActiveStaff(ro, p.staff) ==> s.staff != f.id
    ensures OverlaidStaff(StateOf(BuiltChildren(ro, p, reps), repaid), f) == f
  {
    StaffRowsKeys(ro, ActiveStaff(ro, p.staff));
    RidersStored(ro, p, reps, 0);
    hide NotesOf, GroupBy, BuiltChildren, ActiveStaff, Kept, StaffRows, RiderRows, Saved;
  }

  // ---- Saving the reloaded form ------------------------------------------------------------------------

  /** A payload entry submitted from a form rider; credited, borrowed and repaid units come from elsewhere. */
  ghost predicate SubmitsRider(e: RiderEntry, g: FormRider) {
    && e.rider == g.id && e.override == g.override && e.remitted == g.remitted
    && e.expenses == g.expenses && e.deductions == g.deductions && |e.lines| == |g.lines|
    && forall i :: 0 <= i < |g.lines| ==> e.lines[i].product == g.lines[i].product && e.lines[i].sold == g.lines[i].sold
  }

  predicate DistinctProducts(f: FormRider) { forall i, j :: 0 <= i < j < |f.lines| ==> f.lines[i].product != f.lines[j].product }

  lemma {:induction false} SoldOfOne(es: seq<ProductEntry>, i: nat)
    requires i < |es| && forall a, b :: 0 <= a < b < |es| ==> es[a].product != es[b].product
    ensures SoldOf(es, es[i].product) == es[i].sold
  {
    var n := |es| - 1;
    if i == n {
      NoneSold(es[..n], es[n].product);
    } else {
      SoldOfOne(es[..n], i);
    }
  }

  lemma {:induction false} NoneSold(es: seq<ProductEntry>, k: Id)
    requires forall e :: e in es ==> e.product != k
    ensures SoldOf(es, k) == 0
  {
    if es != [] { NoneSold(es[..|es| - 1], k); }
  }

  /** Saving the reloaded form stores, for each rider of the original payload, the same override, remitted amount,
      deductions, expenses and sold quantities as before. */
  lemma ResaveStoresSameRider(ro: Roster, p: Payload, q: Payload, reps: map<Id, Repayment>, again: map<Id, Repayment>,
                              repaid: map<Id, map<Id, int>>, f: FormRider, j: nat, m: nat, i: nat)
    requires Acceptable(ro, p) && Acceptable(ro, q) && j < |p.riders| && m < |q.riders| && f.id == p.riders[j].rider
    requires DistinctProducts(f) && i < |f.lines| && forall l :: l in f.lines ==> l.sold == 0
    requires SubmitsRider(q.riders[m], OverlaidRider(StateOf(BuiltChildren(ro, p, reps), repaid), f))
    ensures var was, now := BuiltChildren(ro, p, reps), BuiltChildren(ro, q, again);
      && f.id in was.riders && f.id in now.riders
      && now.riders[f.id].override == was.riders[f.id].override && now.riders[f.id].remitted == was.riders[f.id].remitted
      && now.riders[f.id].deductions == was.riders[f.id].deductions
      && NotesOf(now.expenses, OfRider(f.id)) == NotesOf(was.expenses, OfRider(f.id))
      && SoldStored(now.products, f.id, f.lines[i].product) == SoldStored(was.products, f.id, f.lines[i].product)
  {
    var e := q.riders[m];
    RiderComesBack(ro, p, reps, repaid, f, j);
    RiderIsStored(ro, p, reps, j, f.lines[i].product);
    RiderIsStored(ro, q, again, m, f.lines[i].product);
    KeptTwice(p.riders[j].expenses);
    KeptTwice(p.riders[j].deductions);
    assert SoldOf(e.lines, f.lines[i].product) == SoldOf(p.riders[j].lines, f.lines[i].product) by {
      hide BuiltChildren, OverlaidRider, StateOf, SoldOf;
      assert e.lines[i].product == f.lines[i].product;
      forall a, b | 0 <= a < b < |e.lines| ensures e.lines[a].product != e.lines[b].product {
        assert ShowsSold(OverlaidRider(StateOf(BuiltChildren(ro, p, reps), repaid), f).lines[a], f.lines[a].product,
                         SoldOf(p.riders[j].lines, f.lines[a].product));
      }
      SoldOfOne(e.lines, i);
    }
    hide BuiltChildren, OverlaidRider, StateOf, SoldOf, Acceptable, NotesOf, Kept, SoldStored;
  }

  /** What a build stores for one payload rider. */
  lemma RiderIsStored(ro: Roster, p: Payload, reps: map<Id, Repayment>, j: nat, k: Id)
    requires Acceptable(ro, p) && j < |p.riders|
    ensures var c, e := BuiltChildren(ro, p, reps), p.riders[j];
      && e.rider in c.riders && c.riders[e.rider] == RiderRowOf(ro, e)
      && NotesOf(c.expenses, OfRider(e.rider)) == Kept(e.expenses)
      && SoldStored(c.products, e.rider, k) == SoldOf(e.lines, k)
  {
    var e, ds := p.riders[j], Unlisted(ro, p.riders, reps);
    RowOfRider(ro, p.riders, j);
    RidersStored(ro, p, reps, e.rider);
    UnlistedRowsKeys(ro, reps, ds);
    assert e.rider !in ds by { assert e in p.riders; }
    NotesOfRider(p.riders, j);
    NotesOfStaffs(ActiveStaff(ro, p.staff), OfRider(e.rider));
    BuiltNotes(ro, p, reps, OfRider(e.rider));
    ProductsOfRider(ro, p.riders, j, k);
    hide *;
  }

  ghost predicate SubmitsStaff(e: StaffEntry, g: FormStaff) {
    e.staff == g.id && e.override == g.override && e.deductions == g.deductions && e.expenses == g.expenses
  }

  /** The same for an active staff entry of the original payload, and for the general expenses. */
  lemma ResaveStoresSameStaff(ro: Roster, p: Payload, q: Payload, reps: map<Id, Repayment>, again: map<Id, Repayment>,
                              repaid: map<Id, map<Id, int>>, f: FormStaff, j: nat, m: nat)
    requires Acceptable(ro, p) && Acceptable(ro, q) && j < |ActiveStaff(ro, p.staff)| && m < |ActiveStaff(ro, q.staff)|
    requires f.id == ActiveStaff(ro, p.staff)[j].staff && f.id in ro.staff
    requires SubmitsStaff(ActiveStaff(ro, q.staff)[m], OverlaidStaff(StateOf(BuiltChildren(ro, p, reps), repaid), f))
    ensures var was, now := BuiltChildren(ro, p, reps), BuiltChildren(ro, q, again);
      && f.id in was.staff && f.id in now.staff && now.staff[f.id] == was.staff[f.id]
      && NotesOf(now.expenses, OfStaff(f.id)) == NotesOf(was.expenses, OfStaff(f.id))
  {
    var e, before := ActiveStaff(ro, q.staff)[m], ActiveStaff(ro, p.staff)[j];
    StaffComesBack(ro, p, reps, repaid, f, j);
    StaffIsStored(ro, p, reps, j);
    StaffIsStored(ro, q, again, m);
    KeptTwice(before.expenses);
    KeptTwice(before.deductions);
    KeptAmount(before.deductions);
    hide BuiltChildren, OverlaidStaff, StateOf, Acceptable, NotesOf, Kept, ActiveStaff, AmountOf;
  }

  lemma StaffIsStored(ro: Roster, p: Payload, reps: map<Id, Repayment>, j: nat)
    requires Acceptable(ro, p) && j < |ActiveStaff(ro, p.staff)|
    ensures var c, e := BuiltChildren(ro, p, reps), ActiveStaff(ro, p.staff)[j];
      && e.staff in c.staff && c.staff[e.staff] == StaffRowOf(ro, e)
      && NotesOf(c.expenses, OfStaff(e.staff)) == Kept(e.expenses)
  {
    var o := OfStaff(ActiveStaff(ro, p.staff)[j].staff);
    StaffOf(ro, ActiveStaff(ro, p.staff), j);
    RidersStored(ro, p, reps, 0);
    NotesOfRiders(p.riders, o);
    BuiltNotes(ro, p, reps, o);
    hide *;
  }

  lemma ResaveStoresSameGeneral(ro: Roster, p: Payload, q: Payload, reps: map<Id, Repayment>, again: map<Id, Repayment>,
                                repaid: map<Id, map<Id, int>>, f: Form)
    requires q.expenses == Overlaid(StateOf(BuiltChildren(ro, p, reps), repaid), f).expenses
    ensures NotesOf(BuiltChildren(ro, q, again).expenses, General) == NotesOf(BuiltChildren(ro, p, reps).expenses, General)
  {
    GeneralExpensesComeBack(ro, p, reps, repaid, f);
    GeneralExpensesComeBack(ro, q, again, repaid, f);
    KeptTwice(p.expenses);
    hide BuiltChildren, Kept, NotesOf, GroupBy;
  }
}
