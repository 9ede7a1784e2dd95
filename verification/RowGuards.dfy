/** The database triggers that lock finalized remittances: one decides on each update or delete of a remittance
    row, the other on each change of a child row. Any client of the database meets them, not only the services. */
module RowGuards {
  import opened FiniteSums

  datatype Status = DRAFT | FINALIZED

  /** The columns the parent guard compares. */
  datatype Listed = Listed(date: int, createdBy: Id, finalizedBy: Option<Id>, totalSales: int, totalCreditSales: int,
                           totalCommission: int, totalSalary: int, totalExpenses: int, totalOtherSales: int,
                           totalBorrowedItems: int, netProfit: int, totalRepayments: int, titheRate: Option<int>,
                           titheAmount: int, offeringAmount: int, company: Option<Id>, createdAt: int, finalizedAt: Option<int>)

  /** A remittance row: its status, the compared columns, and those that are not compared. */
  datatype Parent = Parent(status: Status, listed: Listed, netRemittance: int, tithesPaid: bool, offeringPaid: bool, updatedAt: int)

  /** A rider row or an expense: its remittance and everything else. */
  datatype Child = Child(remittance: Id, content: int)

  /** A product line hangs from a rider row. */
  datatype Line = Line(riderRow: Id, content: int)

  datatype Tables = Tables(parents: map<Id, Parent>, riders: map<Id, Child>, lines: map<Id, Line>, expenses: map<Id, Child>,
                           staff: map<Id, Child>)

  /** One row operation. Updates keep the primary key. */
  datatype RowOp =
    | InsertParent(id: Id, parent: Parent) | UpdateParent(id: Id, parent: Parent) | DeleteParent(id: Id)
    | InsertRider(id: Id, child: Child) | UpdateRider(id: Id, child: Child) | DeleteRider(id: Id)
    | InsertLine(id: Id, line: Line) | UpdateLine(id: Id, line: Line) | DeleteLine(id: Id)
    | InsertExpense(id: Id, child: Child) | UpdateExpense(id: Id, child: Child) | DeleteExpense(id: Id)
    | InsertStaff(id: Id, child: Child) | UpdateStaff(id: Id, child: Child) | DeleteStaff(id: Id)

  // ---- The trigger functions ---------------------------------------------------------------------------

  datatype Operation = INSERT | UPDATE | DELETE

  /** `fn_lock_finalized_remittance`: may the row go from `was` to `now` (for a delete, `now` is not read)? */
  predicate LockFinalized(op: Operation, was: Parent, now: Parent) {
    if was.status == FINALIZED then
      if op == DELETE then false else
      if now.status != FINALIZED then false else
      now.listed == was.listed
    else true
  }

  /** `fn_guard_remittance_child` on rider and expense rows. */
  method GuardChild(t: Tables, op: Operation, was: Option<Child>, now: Option<Child>) returns (ok: bool)
    requires op == DELETE ==> was.Some?
    requires op != DELETE ==> now.Some?
    ensures ok <==> !IsFinalized(t, ParentRead(op, was, now))
  {
    var remittance: Option<Id> := None;
    if op == DELETE {
      remittance := Some(was.value.remittance);
    } else {
      remittance := Some(now.value.remittance);
    }
    if remittance.None? { return true; }
    var status: Option<Status> := None;
    if remittance.value in t.parents { status := Some(t.parents[remittance.value].status); }
    if status == Some(FINALIZED) { return false; }
    return true;
  }

  /** The same on product lines, which reach their remittance through the rider row. */
  method GuardLine(t: Tables, op: Operation, was: Option<Line>, now: Option<Line>) returns (ok: bool)
    requires op == DELETE ==> was.Some?
    requires op != DELETE ==> now.Some?
    ensures ok <==> !IsFinalized(t, LineParentRead(t, op, was, now))
  {
    var remittance: Option<Id> := None;
    var riderRow := if op != DELETE then now.value.riderRow else was.value.riderRow;
    if riderRow in t.riders { remittance := Some(t.riders[riderRow].remittance); }
    if remittance.None? { return true; }
    var status: Option<Status> := None;
    if remittance.value in t.parents { status := Some(t.parents[remittance.value].status); }
    if status == Some(FINALIZED) { return false; }
    return true;
  }

  /** The parent the child guard looks at: the new one, except for a delete. */
  function ParentRead(op: Operation, was: Option<Child>, now: Option<Child>): Option<Id> {
    if op == DELETE then (if was.Some? then Some(was.value.remittance) else None)
    else if now.Some? then Some(now.value.remittance) else None
  }

  function LineParentRead(t: Tables, op: Operation, was: Option<Line>, now: Option<Line>): Option<Id> {
    var line := if op == DELETE then was else now;
    if line.Some? && line.value.riderRow in t.riders then Some(t.riders[line.value.riderRow].remittance) else None
  }

  predicate IsFinalized(t: Tables, parent: Option<Id>) {
    parent.Some? && parent.value in t.parents && t.parents[parent.value].status == FINALIZED
  }

  // ---- Row operations under the triggers -----------------------------------------------------------------

  function Get<V>(m: map<Id, V>, k: Id): Option<V> { if k in m then Some(m[k]) else None }

  /** Whether the row exists (or not, for an insert) and the triggers let the operation through. Staff and deduction
      rows have no trigger. */
  predicate Accepts(t: Tables, op: RowOp) {
    match op
    case InsertParent(id, _) => id !in t.parents
    case UpdateParent(id, now) => id in t.parents && LockFinalized(UPDATE, t.parents[id], now)
    case DeleteParent(id) => id in t.parents && LockFinalized(DELETE, t.parents[id], t.parents[id])
    case InsertRider(id, now) => id !in t.riders && !IsFinalized(t, ParentRead(INSERT, None, Some(now)))
    case UpdateRider(id, now) => id in t.riders && !IsFinalized(t, ParentRead(UPDATE, Get(t.riders, id), Some(now)))
    case DeleteRider(id) => id in t.riders && !IsFinalized(t, ParentRead(DELETE, Get(t.riders, id), None))
    case InsertLine(id, now) => id !in t.lines && !IsFinalized(t, LineParentRead(t, INSERT, None, Some(now)))
    case UpdateLine(id, now) => id in t.lines && !IsFinalized(t, LineParentRead(t, UPDATE, Get(t.lines, id), Some(now)))
    case DeleteLine(id) => id in t.lines && !IsFinalized(t, LineParentRead(t, DELETE, Get(t.lines, id), None))
    case InsertExpense(id, now) => id !in t.expenses && !IsFinalized(t, ParentRead(INSERT, None, Some(now)))
    case UpdateExpense(id, now) => id in t.expenses && !IsFinalized(t, ParentRead(UPDATE, Get(t.expenses, id), Some(now)))
    case DeleteExpense(id) => id in t.expenses && !IsFinalized(t, ParentRead(DELETE, Get(t.expenses, id), None))
    case InsertStaff(id, _) => id !in t.staff
    case UpdateStaff(id, _) => id in t.staff
    case DeleteStaff(id) => id in t.staff
  }

  function Apply(t: Tables, op: RowOp): Tables {
    match op
    case InsertParent(id, now) => t.(parents := t.parents[id := now])
    case UpdateParent(id, now) => t.(parents := t.parents[id := now])
    case DeleteParent(id) => t.(parents := t.parents - {id})
    case InsertRider(id, now) => t.(riders := t.riders[id := now])
    case UpdateRider(id, now) => t.(riders := t.riders[id := now])
    case DeleteRider(id) => t.(riders := t.riders - {id})
    case InsertLine(id, now) => t.(lines := t.lines[id := now])
    case UpdateLine(id, now) => t.(lines := t.lines[id := now])
    case DeleteLine(id) => t.(lines := t.lines - {id})
    case InsertExpense(id, now) => t.(expenses := t.expenses[id := now])
    case UpdateExpense(id, now) => t.(expenses := t.expenses[id := now])
    case DeleteExpense(id) => t.(expenses := t.expenses - {id})
    case InsertStaff(id, now) => t.(staff := t.staff[id := now])
    case UpdateStaff(id, now) => t.(staff := t.staff[id := now])
    case DeleteStaff(id) => t.(staff := t.staff - {id})
  }

  /** The tables after a sequence of operations; refused ones change nothing. */
  function Run(t: Tables, ops: seq<RowOp>): Tables {
    if ops == [] then t else
    var before, op := Run(t, ops[..|ops| - 1]), ops[|ops| - 1];
    if Accepts(before, op) then Apply(before, op) else before
  }

  // ---- The parent row ------------------------------------------------------------------------------------

  predicate Locked(t: Tables, id: Id) { id in t.parents && t.parents[id].status == FINALIZED }

  /** Whatever is tried, a finalized remittance row stays, stays finalized, and keeps every listed column. */
  lemma {:induction false} ParentIsLocked(t: Tables, ops: seq<RowOp>, id: Id)
    requires Locked(t, id)
    ensures Locked(Run(t, ops), id) && Run(t, ops).parents[id].listed == t.parents[id].listed
  {
    if ops != [] { ParentIsLocked(t, ops[..|ops| - 1], id); }
  }

  /** The net remittance is not a listed column: on a finalized row an update of that column alone is accepted. */
  lemma NetRemittanceIsNotLocked(t: Tables, id: Id, net: int)
    requires Locked(t, id)
    ensures var op := UpdateParent(id, t.parents[id].(netRemittance := net));
      Accepts(t, op) && Apply(t, op).parents[id].netRemittance == net
  {
  }

  /** An update of a finalized row is accepted exactly when it touches unlisted columns only. */
  lemma ParentUpdateAccepted(t: Tables, id: Id, now: Parent)
    requires Locked(t, id)
    ensures Accepts(t, UpdateParent(id, now))
       <==> now == t.parents[id].(netRemittance := now.netRemittance, tithesPaid := now.tithesPaid,
                                  offeringPaid := now.offeringPaid, updatedAt := now.updatedAt)
  {
  }

  // ---- The child rows ------------------------------------------------------------------------------------

  function RidersOf(t: Tables, id: Id): map<Id, Child> { map k | k in t.riders && t.riders[k].remittance == id :: t.riders[k] }

  function ExpensesOf(t: Tables, id: Id): map<Id, Child> {
    map k | k in t.expenses && t.expenses[k].remittance == id :: t.expenses[k]
  }

  function LinesOf(t: Tables, id: Id): map<Id, Line> {
    map k | k in t.lines && t.lines[k].riderRow in t.riders && t.riders[t.lines[k].riderRow].remittance == id :: t.lines[k]
  }

  predicate SameChildren(t: Tables, u: Tables, id: Id) {
    RidersOf(u, id) == RidersOf(t, id) && LinesOf(u, id) == LinesOf(t, id) && ExpensesOf(u, id) == ExpensesOf(t, id)
  }

  /** An update of a row that is now a child of the remittance. */
  predicate UpdatesChild(t: Tables, op: RowOp, id: Id) {
    match op
    case UpdateRider(k, _) => k in RidersOf(t, id)
    case UpdateLine(k, _) => k in LinesOf(t, id)
    case UpdateExpense(k, _) => k in ExpensesOf(t, id)
    case _ => false
  }

  lemma RiderStepKeepsChildren(t: Tables, op: RowOp, id: Id)
    requires Locked(t, id) && Accepts(t, op) && !UpdatesChild(t, op, id)
    requires op.InsertRider? || op.UpdateRider? || op.DeleteRider?
    ensures SameChildren(t, Apply(t, op), id)
  {
    var u := Apply(t, op);
    assert op.id !in RidersOf(t, id) && op.id !in RidersOf(u, id);
    assert RidersOf(u, id) == RidersOf(t, id);
    assert LinesOf(u, id) == LinesOf(t, id);
  }

  lemma LineStepKeepsChildren(t: Tables, op: RowOp, id: Id)
    requires Locked(t, id) && Accepts(t, op) && !UpdatesChild(t, op, id)
    requires op.InsertLine? || op.UpdateLine? || op.DeleteLine?
    ensures SameChildren(t, Apply(t, op), id)
  {
    var u := Apply(t, op);
    assert op.id !in LinesOf(t, id) && op.id !in LinesOf(u, id);
    assert LinesOf(u, id) == LinesOf(t, id);
  }

  lemma ExpenseStepKeepsChildren(t: Tables, op: RowOp, id: Id)
    requires Locked(t, id) && Accepts(t, op) && !UpdatesChild(t, op, id)
    requires op.InsertExpense? || op.UpdateExpense? || op.DeleteExpense?
    ensures SameChildren(t, Apply(t, op), id)
  {
    var u := Apply(t, op);
    assert op.id !in ExpensesOf(t, id) && op.id !in ExpensesOf(u, id);
    assert ExpensesOf(u, id) == ExpensesOf(t, id);
  }

  lemma MovedOff(t: Tables, op: RowOp, id: Id)
    requires Locked(t, id) && Accepts(t, op) && UpdatesChild(t, op, id)
    ensures !SameChildren(t, Apply(t, op), id)
  {
    var u := Apply(t, op);
    match op
    case UpdateRider(k, _) => assert k in RidersOf(t, id) && k !in RidersOf(u, id);
    case UpdateLine(k, _) => assert k in LinesOf(t, id) && k !in LinesOf(u, id);
    case UpdateExpense(k, _) => assert k in ExpensesOf(t, id) && k !in ExpensesOf(u, id);
  }

  /** The child guard reads the new parent, so an accepted operation leaves the rider rows, product lines and
      expenses of a finalized remittance as they were exactly when it is not an update of one of them: such an
      update, if accepted, moves the row to another parent. */
  lemma ChildrenAreLocked(t: Tables, op: RowOp, id: Id)
    requires Locked(t, id) && Accepts(t, op)
    ensures SameChildren(t, Apply(t, op), id) <==> !UpdatesChild(t, op, id)
  {
    if UpdatesChild(t, op, id) {
      MovedOff(t, op, id);
    } else if op.InsertRider? || op.UpdateRider? || op.DeleteRider? {
      RiderStepKeepsChildren(t, op, id);
    } else if op.InsertLine? || op.UpdateLine? || op.DeleteLine? {
      LineStepKeepsChildren(t, op, id);
    } else if op.InsertExpense? || op.UpdateExpense? || op.DeleteExpense? {
      ExpenseStepKeepsChildren(t, op, id);
    } else {
      var u := Apply(t, op);
      assert u.riders == t.riders && u.lines == t.lines && u.expenses == t.expenses;
    }
  }

  /** An update that keeps its row's parent. */
  predicate KeepsParent(t: Tables, op: RowOp) {
    match op
    case UpdateRider(k, now) => k in t.riders ==> now.remittance == t.riders[k].remittance
    case UpdateLine(k, now) => k in t.lines ==> now.riderRow == t.lines[k].riderRow
    case UpdateExpense(k, now) => k in t.expenses ==> now.remittance == t.expenses[k].remittance
    case _ => true
  }

  predicate AllKeepParents(t: Tables, ops: seq<RowOp>) { forall i :: 0 <= i < |ops| ==> KeepsParent(Run(t, ops[..i]), ops[i]) }

  /** Over every sequence of operations whose updates keep parents, a finalized remittance keeps its children. */
  lemma {:induction false} RunKeepsChildren(t: Tables, ops: seq<RowOp>, id: Id)
    requires Locked(t, id) && AllKeepParents(t, ops)
    ensures SameChildren(t, Run(t, ops), id)
  {
    if ops != [] {
      var n := |ops| - 1;
      var init := ops[..n];
      forall i | 0 <= i < n ensures KeepsParent(Run(t, init[..i]), init[i]) {
        assert init[..i] == ops[..i] && KeepsParent(Run(t, ops[..i]), ops[i]);
      }
      hide SameChildren, Apply, KeepsParent, Accepts;
      RunKeepsChildren(t, init, id);
      ParentIsLocked(t, init, id);
      assert KeepsParent(Run(t, ops[..n]), ops[n]);
      if Accepts(Run(t, init), ops[n]) {
        NoMove(Run(t, init), ops[n], id);
        ChildrenAreLocked(Run(t, init), ops[n], id);
        SameTrans(t, Run(t, init), Run(t, ops), id);
      }
    }
  }

  lemma NoMove(t: Tables, op: RowOp, id: Id)
    requires Locked(t, id) && Accepts(t, op) && KeepsParent(t, op)
    ensures !UpdatesChild(t, op, id)
  {
  }

  lemma SameTrans(t: Tables, u: Tables, v: Tables, id: Id)
    requires SameChildren(t, u, id) && SameChildren(u, v, id)
    ensures SameChildren(t, v, id)
  {
  }

  /** A concrete move: an expense of finalized remittance 1 is updated onto draft 2, and accepted. */
  lemma ExpenseMovesOff(listed: Listed)
    ensures var p := Parent(FINALIZED, listed, 0, false, false, 0);
      var t := Tables(map[1 := p, 2 := p.(status := DRAFT)], map[], map[], map[7 := Child(1, 50)], map[]);
      var op := UpdateExpense(7, Child(2, 50));
      Locked(t, 1) && Accepts(t, op) && 7 in ExpensesOf(t, 1) && ExpensesOf(Apply(t, op), 1) == map[]
  {
    var p := Parent(FINALIZED, listed, 0, false, false, 0);
    var t := Tables(map[1 := p, 2 := p.(status := DRAFT)], map[], map[], map[7 := Child(1, 50)], map[]);
    assert t.expenses[7] == Child(1, 50);
    var u := Apply(t, UpdateExpense(7, Child(2, 50)));
    assert u.expenses[7].remittance == 2 && u.expenses.Keys == {7};
  }

  // ---- The staff rows ------------------------------------------------------------------------------------

  function StaffOf(t: Tables, id: Id): map<Id, Child> { map k | k in t.staff && t.staff[k].remittance == id :: t.staff[k] }

  /** An operation on a staff row that is a child of the remittance, or becomes one, and does not write it back as it is. */
  predicate TouchesStaff(t: Tables, op: RowOp, id: Id) {
    match op
    case InsertStaff(_, now) => now.remittance == id
    case UpdateStaff(k, now) => k in t.staff && now != t.staff[k] && (now.remittance == id || t.staff[k].remittance == id)
    case DeleteStaff(k) => k in StaffOf(t, id)
    case _ => false
  }

  lemma StaffStep(t: Tables, op: RowOp, id: Id)
    requires Accepts(t, op)
    ensures StaffOf(Apply(t, op), id) == StaffOf(t, id) <==> !TouchesStaff(t, op, id)
  {
    var u := Apply(t, op);
    if op.InsertStaff? || op.UpdateStaff? || op.DeleteStaff? {
      var k := op.id;
      assert u.staff - {k} == t.staff - {k};
      assert forall j :: j != k ==> (j in StaffOf(t, id) <==> j in StaffOf(u, id));
      if Get(StaffOf(t, id), k) == Get(StaffOf(u, id), k) {
        assert StaffOf(u, id) == StaffOf(t, id);
      }
    } else {
      assert u.staff == t.staff;
    }
  }

  /** Which children of a finalized remittance are locked: an accepted operation leaves all of them, staff rows
      included, as they were exactly when it neither updates a guarded child nor touches a staff row. */
  lemma FamilyIsLocked(t: Tables, op: RowOp, id: Id)
    requires Locked(t, id) && Accepts(t, op)
    ensures SameChildren(t, Apply(t, op), id) && StaffOf(Apply(t, op), id) == StaffOf(t, id)
       <==> !UpdatesChild(t, op, id) && !TouchesStaff(t, op, id)
  {
    hide SameChildren, Apply, Accepts;
    ChildrenAreLocked(t, op, id);
    StaffStep(t, op, id);
  }

  predicate AllAccepted(t: Tables, ops: seq<RowOp>) { forall i :: 0 <= i < |ops| ==> Accepts(Run(t, ops[..i]), ops[i]) }

  lemma AcceptedSnoc(t: Tables, ops: seq<RowOp>, op: RowOp)
    requires AllAccepted(t, ops) && Accepts(Run(t, ops), op)
    ensures AllAccepted(t, ops + [op]) && Run(t, ops + [op]) == Apply(Run(t, ops), op)
  {
    hide Accepts, Apply;
    var all := ops + [op];
    assert all[..|ops|] == ops;
    forall i | 0 <= i < |all| ensures Accepts(Run(t, all[..i]), all[i]) {
      if i < |ops| { assert all[..i] == ops[..i]; }
    }
  }

  lemma DeletesStaff(t: Tables, k: Id)
    requires k in t.staff
    ensures Accepts(t, DeleteStaff(k)) && Apply(t, DeleteStaff(k)) == t.(staff := t.staff - {k})
  {
  }

  lemma InsertsStaff(t: Tables, k: Id, row: Child)
    requires k !in t.staff
    ensures Accepts(t, InsertStaff(k, row)) && Apply(t, InsertStaff(k, row)) == t.(staff := t.staff[k := row])
  {
  }

  lemma DropStaff(t: Tables, ks: set<Id>) returns (ops: seq<RowOp>)
    requires ks <= t.staff.Keys
    ensures AllAccepted(t, ops) && Run(t, ops) == t.(staff := t.staff - ks)
    decreases |ks|
  {
    if ks == {} {
      ops := [];
      assert t.staff - ks == t.staff;
    } else {
      var k :| k in ks;
      var init := DropStaff(t, ks - {k});
      DeletesStaff(Run(t, init), k);
      hide Run, Accepts, Apply, AllAccepted;
      AcceptedSnoc(t, init, DeleteStaff(k));
      ops := init + [DeleteStaff(k)];
      assert t.staff - (ks - {k}) - {k} == t.staff - ks;
    }
  }

  lemma FillStaff(t: Tables, empty: seq<RowOp>, target: map<Id, Child>) returns (ops: seq<RowOp>)
    requires AllAccepted(t, empty) && Run(t, empty) == t.(staff := map[])
    ensures AllAccepted(t, ops) && Run(t, ops) == t.(staff := target)
    decreases |target.Keys|
  {
    hide Run, Accepts, Apply, AllAccepted;
    if target == map[] {
      ops := empty;
    } else {
      var k :| k in target;
      assert (target - {k}).Keys == target.Keys - {k};
      var init := FillStaff(t, empty, target - {k});
      InsertsStaff(t.(staff := target - {k}), k, target[k]);
      AcceptedSnoc(t, init, InsertStaff(k, target[k]));
      ops := init + [InsertStaff(k, target[k])];
      assert (target - {k})[k := target[k]] == target;
    }
  }

  /** Staff rows carry no guard, so whatever is finalized, some sequence of accepted operations takes the staff table
      to any contents, and changes nothing else. */
  lemma StaffReachesAnything(t: Tables, target: map<Id, Child>) returns (ops: seq<RowOp>)
    ensures AllAccepted(t, ops) && Run(t, ops) == t.(staff := target)
  {
    var empty := DropStaff(t, t.staff.Keys);
    assert t.staff - t.staff.Keys == map[];
    ops := FillStaff(t, empty, target);
  }

  /** While nothing is finalized the triggers refuse nothing: an operation is accepted exactly when its row is there, or for
      an insert is not. */
  lemma DraftsAreFree(t: Tables, op: RowOp)
    requires forall r :: r in t.parents ==> t.parents[r].status == DRAFT
    ensures Accepts(t, op) <==> match op
      case InsertParent(id, _) => id !in t.parents
      case UpdateParent(id, _) => id in t.parents
      case DeleteParent(id) => id in t.parents
      case InsertRider(id, _) => id !in t.riders
      case UpdateRider(id, _) => id in t.riders
      case DeleteRider(id) => id in t.riders
      case InsertLine(id, _) => id !in t.lines
      case UpdateLine(id, _) => id in t.lines
      case DeleteLine(id) => id in t.lines
      case InsertExpense(id, _) => id !in t.expenses
      case UpdateExpense(id, _) => id in t.expenses
      case DeleteExpense(id) => id in t.expenses
      case InsertStaff(id, _) => id !in t.staff
      case UpdateStaff(id, _) => id in t.staff
      case DeleteStaff(id) => id in t.staff
  {
  }

  // ---- One operation through its trigger -----------------------------------------------------------------

  /** The operation as the database runs it: the trigger of the table it is on, then the write. */
  method TryRowOp(t: Tables, op: RowOp) returns (u: Tables)
    ensures u == if Accepts(t, op) then Apply(t, op) else t
  {
    var ok := false;
    match op {
      case InsertParent(id, now) => ok := id !in t.parents;
      case UpdateParent(id, now) => ok := id in t.parents && LockFinalized(UPDATE, t.parents[id], now);
      case DeleteParent(id) => ok := id in t.parents && LockFinalized(DELETE, t.parents[id], t.parents[id]);
      case InsertRider(id, now) => if id !in t.riders { ok := GuardChild(t, INSERT, None, Some(now)); }
      case UpdateRider(id, now) => if id in t.riders { ok := GuardChild(t, UPDATE, Some(t.riders[id]), Some(now)); }
      case DeleteRider(id) => if id in t.riders { ok := GuardChild(t, DELETE, Some(t.riders[id]), None); }
      case InsertLine(id, now) => if id !in t.lines { ok := GuardLine(t, INSERT, None, Some(now)); }
      case UpdateLine(id, now) => if id in t.lines { ok := GuardLine(t, UPDATE, Some(t.lines[id]), Some(now)); }
      case DeleteLine(id) => if id in t.lines { ok := GuardLine(t, DELETE, Some(t.lines[id]), None); }
      case InsertExpense(id, now) => if id !in t.expenses { ok := GuardChild(t, INSERT, None, Some(now)); }
      case UpdateExpense(id, now) => if id in t.expenses { ok := GuardChild(t, UPDATE, Some(t.expenses[id]), Some(now)); }
      case DeleteExpense(id) => if id in t.expenses { ok := GuardChild(t, DELETE, Some(t.expenses[id]), None); }
      case InsertStaff(id, now) => ok := id !in t.staff;
      case UpdateStaff(id, now) => ok := id in t.staff;
      case DeleteStaff(id) => ok := id in t.staff;
    }
    return if ok then Apply(t, op) else t;
  }
}
