/** Two runs that leave a deleted customer owing: a loan made between the check and the write of a deletion, and a loan
    begun before a deletion and committed after it. */
module DeletionTraces {
  import opened FiniteSums
  import opened Ledger
  import opened RowLocking
  import opened LedgerTransactions
  import opened LedgerInterleavings
  import opened DeletionRaces
  import R = RemittanceServices

  // ---- One transaction among idle ones -----------------------------------------------------------------

  /** The others hold no lock yet. */
  ghost predicate Idle(others: map<Id, Tx>, k: Id) {
    k !in others && forall u :: u in others ==> others[u].locks == NoRows()
  }

  function Among(db: Ledger, others: map<Id, Tx>, k: Id, tx: Tx): System { System(db, others[k := tx]) }

  function Fresh(op: Op): Tx { Tx(op, 0, NoRows(), Nothing()) }

  lemma AmongBegins(db: Ledger, others: map<Id, Tx>, k: Id, op: Op)
    requires k !in others && ValidOp(op)
    ensures Begin(System(db, others), Among(db, others, k, Fresh(op)), k, op)
    ensures Next(System(db, others), Among(db, others, k, Fresh(op)), k)
  {
    assert Begin(System(db, others), Among(db, others, k, Fresh(op)), k, op);
    BeginIsNext(System(db, others), Among(db, others, k, Fresh(op)), k, op);
    hide Next;
  }

  lemma BeginIsNext(s: System, s': System, t: Id, op: Op)
    requires Begin(s, s', t, op)
    ensures Next(s, s', t)
  {
  }

  lemma AmongLocks(db: Ledger, others: map<Id, Tx>, k: Id, tx: Tx)
    requires Idle(others, k) && tx.pc < |tx.Program()| && tx.Program()[tx.pc].Acquire?
    ensures Next(Among(db, others, k, tx), Among(db, others, k, AfterLocking(db, tx, tx.Program()[tx.pc].rows)), k)
  {
    hide ProgramOf, Install, Copies;
    var t := AfterLocking(db, tx, tx.Program()[tx.pc].rows);
    assert others[k := tx][k := t] == others[k := t];
    assert LockStep(Among(db, others, k, tx), Among(db, others, k, t), k);
  }

  lemma AmongDoes(db: Ledger, others: map<Id, Tx>, k: Id, tx: Tx)
    requires tx.pc < |tx.Program()| && tx.Program()[tx.pc].Do? && Act(tx.Program()[tx.pc].a, tx.mine).Some?
    ensures Next(Among(db, others, k, tx),
                 Among(db, others, k, tx.(pc := tx.pc + 1, mine := Act(tx.Program()[tx.pc].a, tx.mine).value)), k)
  {
    hide ProgramOf, Act;
    var t := tx.(pc := tx.pc + 1, mine := Act(tx.Program()[tx.pc].a, tx.mine).value);
    assert others[k := tx][k := t] == others[k := t];
    assert DoStep(Among(db, others, k, tx), Among(db, others, k, t), k);
  }

  lemma AmongCommits(db: Ledger, others: map<Id, Tx>, k: Id, tx: Tx)
    requires k !in others && tx.pc == |tx.Program()|
    ensures Commit(Among(db, others, k, tx), System(Install(db, tx.mine, tx.locks), others), k)
    ensures Next(Among(db, others, k, tx), System(Install(db, tx.mine, tx.locks), others), k)
  {
    hide ProgramOf, Install, Next;
    var s, e := Among(db, others, k, tx), System(Install(db, tx.mine, tx.locks), others);
    assert others[k := tx] - {k} == others && s.txs[k] == tx;
    assert Commit(s, e, k);
    CommitIsNext(s, e, k);
  }

  lemma CommitIsNext(s: System, s': System, t: Id)
    requires Commit(s, s', t)
    ensures Next(s, s', t)
  {
  }

  /** The rest of a begun transaction, from state `s` to its commit in state `e`; nothing else runs meanwhile. */
  ghost predicate TxRun(states: seq<System>, n: nat, k: Id, s: System, e: System) {
    && n > 0 && |states| == n + 1 && IsRun(states, seq(n, _ => k)) && states[0] == s && states[n] == e
    && k in s.txs && k in states[n - 1].txs && states[n - 1].txs[k].op == s.txs[k].op && states[n - 1].db == s.db
    && Commit(states[n - 1], e, k)
  }

  lemma ThreeSteps(states: seq<System>, t: Id)
    requires |states| == 4 && Next(states[0], states[1], t) && Next(states[1], states[2], t)
    requires Next(states[2], states[3], t)
    ensures IsRun(states, seq(3, _ => t))
  {
    hide Next;
    var who := seq(3, _ => t);
    forall i | 0 <= i < 3 ensures Next(states[i], states[i + 1], who[i]) {
      if i == 0 {} else if i == 1 {} else { assert i == 2; }
    }
  }

  lemma RunsJoin(a: seq<System>, aw: seq<Id>, b: seq<System>, bw: seq<Id>)
    requires IsRun(a, aw) && IsRun(b, bw) && a[|aw|] == b[0]
    ensures IsRun(a + b[1..], aw + bw)
    ensures forall i :: 0 <= i <= |aw| ==> (a + b[1..])[i] == a[i]
    ensures forall i :: 0 <= i <= |bw| ==> (a + b[1..])[|aw| + i] == b[i]
  {
    hide Next;
    var states, who := a + b[1..], aw + bw;
    forall i | 0 <= i < |who| ensures Next(states[i], states[i + 1], who[i]) {
      if i < |aw| {
        assert Next(a[i], a[i + 1], aw[i]);
      } else {
        assert Next(b[i - |aw|], b[i - |aw| + 1], bw[i - |aw|]);
      }
    }
  }

  // ---- The lending transaction ---------------------------------------------------------------------------

  /** The copies the lending transaction works on. */
  function LendCopies(db: Ledger, row: Borrowing): Ledger
    requires row.customer in db.customers
  {
    Nothing().(customers := map[row.customer := db.customers[row.customer]], borrowings := map[0 := row])
  }

  lemma LendLocks(db: Ledger, row: Borrowing)
    requires row.customer in db.customers && db.borrowings == map[]
    ensures Install(Copies(db, BorrowRow(0)), Nothing(), NoRows()) == Nothing()
    ensures Install(Copies(db, CustRow(row.customer)), Nothing().(borrowings := map[0 := row]), BorrowRow(0))
         == LendCopies(db, row)
  {
  }

  lemma LendInstalls(db: Ledger, row: Borrowing)
    requires row.customer in db.customers && db.borrowings == map[]
    ensures Install(db, AddCount(LendCopies(db, row), row.customer, row.kind, row.borrowed), BorrowRow(0).Plus(CustRow(row.customer)))
         == Lend(db, 0, row).value
  {
  }

  /** What the lending transaction looks like after each of its instructions. */
  function LendAt(db: Ledger, row: Borrowing, n: nat): Tx
    requires row.customer in db.customers && n <= 4
  {
    var both := BorrowRow(0).Plus(CustRow(row.customer));
    var locks := if n == 0 then NoRows() else if n <= 2 then BorrowRow(0) else both;
    var mine := if n <= 1 then Nothing() else if n == 2 then Nothing().(borrowings := map[0 := row])
      else if n == 3 then LendCopies(db, row) else AddCount(LendCopies(db, row), row.customer, row.kind, row.borrowed);
    Tx(LendOp(0, row), n, locks, mine)
  }

  lemma LendStep(db: Ledger, others: map<Id, Tx>, k: Id, row: Borrowing, n: nat)
    requires db.borrowings == map[] && HasCustomer(db, row.company, row.customer) && Idle(others, k) && n < 4
    ensures Next(Among(db, others, k, LendAt(db, row, n)), Among(db, others, k, LendAt(db, row, n + 1)), k)
  {
    LendMoves(db, row, n);
    hide LendAt, ProgramOf, Install, Copies, Act, Next, Among, AfterLocking;
    var t := LendAt(db, row, n);
    if t.Program()[n].Acquire? {
      AmongLocks(db, others, k, t);
    } else {
      AmongDoes(db, others, k, t);
    }
  }

  /** Each instruction takes the transaction to its next form. */
  lemma LendMoves(db: Ledger, row: Borrowing, n: nat)
    requires db.borrowings == map[] && HasCustomer(db, row.company, row.customer) && n < 4
    ensures var t, u := LendAt(db, row, n), LendAt(db, row, n + 1);
      && t.pc == n < |t.Program()|
      && (t.Program()[n].Acquire? || (t.Program()[n].Do? && Act(t.Program()[n].a, t.mine).Some?))
      && (t.Program()[n].Acquire? ==> u == AfterLocking(db, t, t.Program()[n].rows))
      && (t.Program()[n].Do? ==> u == t.(pc := n + 1, mine := Act(t.Program()[n].a, t.mine).value))
  {
    LendLocks(db, row);
    assert NoRows().Plus(BorrowRow(0)) == BorrowRow(0);
    hide Install, Copies;
  }

  lemma LendCommits(db: Ledger, others: map<Id, Tx>, k: Id, row: Borrowing)
    requires db.borrowings == map[] && HasCustomer(db, row.company, row.customer) && k !in others
    ensures Lend(db, 0, row).Ok?
    ensures var s, e := Among(db, others, k, LendAt(db, row, 4)), System(Lend(db, 0, row).value, others);
      Next(s, e, k) && Commit(s, e, k)
  {
    LendInstalls(db, row);
    hide Install, Next, Commit, Among;
    AmongCommits(db, others, k, LendAt(db, row, 4));
  }

  lemma LendAtKeepsOp(db: Ledger, others: map<Id, Tx>, k: Id, row: Borrowing, n: nat)
    requires row.customer in db.customers && n <= 4
    ensures var s := Among(db, others, k, LendAt(db, row, n)); s.db == db && k in s.txs && s.txs[k].op == LendOp(0, row)
    ensures LendAt(db, row, 0) == Fresh(LendOp(0, row))
  {
  }

  function LendTrace(db: Ledger, others: map<Id, Tx>, k: Id, row: Borrowing): (states: seq<System>)
    requires HasCustomer(db, row.company, row.customer) && 0 !in db.borrowings
    ensures |states| == 6 && states[5] == System(Lend(db, 0, row).value, others)
    ensures forall n :: 0 <= n < 5 ==> states[n] == Among(db, others, k, LendAt(db, row, n))
  {
    seq(5, n requires 0 <= n < 5 => Among(db, others, k, LendAt(db, row, n))) + [System(Lend(db, 0, row).value, others)]
  }

  lemma LendRuns(db: Ledger, others: map<Id, Tx>, k: Id, row: Borrowing)
    requires db.borrowings == map[] && HasCustomer(db, row.company, row.customer) && Idle(others, k)
    ensures IsRun(LendTrace(db, others, k, row), seq(5, _ => k))
  {
    var states, who := LendTrace(db, others, k, row), seq(5, _ => k);
    assert k !in others;
    hide Lend, LendAt, Among, Next, Idle, LendTrace;
    forall n | 0 <= n < 5 ensures Next(states[n], states[n + 1], who[n]) {
      if n < 4 { LendStep(db, others, k, row, n); } else { LendCommits(db, others, k, row); }
    }
  }

  /** The lending transaction from its begin to its commit. */
  lemma LendAmong(db: Ledger, others: map<Id, Tx>, k: Id, row: Borrowing) returns (states: seq<System>)
    requires db.borrowings == map[] && HasCustomer(db, row.company, row.customer) && Idle(others, k)
    ensures Lend(db, 0, row).Ok?
    ensures TxRun(states, 5, k, Among(db, others, k, Fresh(LendOp(0, row))), System(Lend(db, 0, row).value, others))
  {
    LendAtKeepsOp(db, others, k, row, 0);
    LendAtKeepsOp(db, others, k, row, 4);
    assert k !in others;
    hide Lend, LendAt, Among, Next, Commit, Fresh, Idle, IsRun, LendTrace;
    LendCommits(db, others, k, row);
    LendRuns(db, others, k, row);
    states := LendTrace(db, others, k, row);
  }

  // ---- The deleting transaction --------------------------------------------------------------------------

  lemma DeleteCopies(db: Ledger, c: Id)
    requires c in db.customers
    ensures var mine, row := Nothing().(customers := map[c := db.customers[c]]), db.customers[c].(deleted := true);
      && Install(Copies(db, CustRow(c)), Nothing(), NoRows()) == mine
      && MarkDeleted(mine, c) == Ok(Nothing().(customers := map[c := row]))
      && Install(db, Nothing().(customers := map[c := row]), CustRow(c)) == MarkDeleted(db, c).value
  {
    var mine, row := Nothing().(customers := map[c := db.customers[c]]), db.customers[c].(deleted := true);
    assert mine.customers[c := row] == map[c := row];
  }

  /** The deleting transaction from its begin to its commit. */
  lemma DeleteAmong(db: Ledger, others: map<Id, Tx>, k: Id, c: Id) returns (states: seq<System>)
    requires c in db.customers && Idle(others, k)
    ensures TxRun(states, 3, k, Among(db, others, k, Fresh(MarkDeletedOp(c))), System(MarkDeleted(db, c).value, others))
  {
    var op, row := MarkDeletedOp(c), db.customers[c];
    var mine := Nothing().(customers := map[c := row]);
    var t0, t1 := Fresh(op), Tx(op, 1, CustRow(c), mine);
    var t2 := Tx(op, 2, CustRow(c), mine.(customers := map[c := row.(deleted := true)]));
    DeleteCopies(db, c);
    assert NoRows().Plus(CustRow(c)) == CustRow(c);
    hide Install, Copies, MarkDeleted, Next, Commit, IsRun;
    assert t1 == AfterLocking(db, t0, CustRow(c));
    AmongLocks(db, others, k, t0);
    AmongDoes(db, others, k, t1);
    AmongCommits(db, others, k, t2);
    states := [Among(db, others, k, t0), Among(db, others, k, t1), Among(db, others, k, t2), System(MarkDeleted(db, c).value, others)];
    ThreeSteps(states, k);
  }

  // ---- The two races -------------------------------------------------------------------------------------

  function OneCustomer(): Ledger { Nothing().(customers := map[0 := Customer(0, 0, 0, 0, 0, 0, None, false)]) }

  function FiveRound(): Borrowing { Borrowing(0, 0, Round, 5, 0, 1, 1, None) }

  /** A deleted customer with five containers out. */
  ghost predicate LeftOwing(L: Ledger) {
    && R.IsDeleted(L, 0) && 0 in L.borrowings && L.borrowings[0].customer == 0 && L.borrowings[0].Outstanding() == 5
    && !R.DeletedAreClear(L)
  }

  lemma TwoBegin(db: Ledger, j: Id, op: Op, k: Id, oq: Op) returns (states: seq<System>, who: seq<Id>)
    requires ValidOp(op) && ValidOp(oq) && j != k
    ensures IsRun(states, who) && who == [j, k] && |states| == 3 && Idle(map[j := Fresh(op)], k) && Idle(map[], k)
    ensures states[0] == System(db, map[]) && Begin(states[0], states[1], j, op) && Begin(states[1], states[2], k, oq)
    ensures states[2] == Among(db, map[j := Fresh(op)], k, Fresh(oq)) && states[1].db == db
  {
    var none: map<Id, Tx>, first := map[], map[j := Fresh(op)];
    assert none[j := Fresh(op)] == first;
    hide NoRows, Nothing;
    AmongBegins(db, none, j, op);
    AmongBegins(db, first, k, oq);
    hide Next, Begin;
    states, who := [System(db, none), System(db, first), Among(db, first, k, Fresh(oq))], [j, k];
  }

  /** Two begun transactions, then the second to its end, then the first to its end. */
  lemma JoinRuns(a: seq<System>, aw: seq<Id>, k: Id, b: seq<System>, n: nat, j: Id, c: seq<System>, m: nat)
      returns (states: seq<System>, who: seq<Id>)
    requires |aw| == 2 && |a| == 3 && IsRun(a, aw)
    requires n > 0 && m > 0 && |b| == n + 1 && |c| == m + 1
    requires TxRun(b, n, k, a[2], c[0]) && TxRun(c, m, j, c[0], c[m])
    ensures |states| == n + m + 3 && |who| == n + m + 2 && IsRun(states, who)
    ensures states[0] == a[0] && states[1] == a[1] && states[2] == a[2]
    ensures states[n + 1] == b[n - 1] && states[n + 2] == b[n] && states[n + m + 1] == c[m - 1] && states[n + m + 2] == c[m]
    ensures who[0] == aw[0] && who[1] == aw[1] && who[n + 1] == k && who[n + m + 1] == j
  {
    var bw, cw := seq(n, _ => k), seq(m, _ => j);
    hide Commit;
    RunsJoin(a, aw, b, bw);
    var ab := a + b[1..];
    RunsJoin(ab, aw + bw, c, cw);
    hide *;
    states, who := ab + c[1..], aw + bw + cw;
    assert ab[2 + n - 1] == b[n - 1] && ab[2 + n] == b[n];
  }

  ghost predicate Commits(states: seq<System>, who: seq<Id>, i: nat, k: Id, op: Op, L: Ledger, N: Ledger) {
    && i < |who| && |states| == |who| + 1 && who[i] == k && Commit(states[i], states[i + 1], k)
    && k in states[i].txs && states[i].txs[k].op == op && states[i].db == L && states[i + 1].db == N
  }

  /** Transaction `j` begins `op`, `k` begins `oq`, `k` commits, then `j` commits, and nothing else runs. */
  ghost predicate Nested(states: seq<System>, who: seq<Id>, db: Ledger, j: Id, op: Op, k: Id, oq: Op, n: nat, mid: Ledger, end: Ledger) {
    && |states| == |who| + 1 && 2 < n < |who| && IsRun(states, who) && states[0] == System(db, map[]) && states[1].db == db
    && Begin(states[0], states[1], j, op) && Begin(states[1], states[2], k, oq)
    && Commits(states, who, n - 1, k, oq, db, mid) && Commits(states, who, |who| - 1, j, op, mid, end)
  }

  lemma NestedRun(db: Ledger, j: Id, op: Op, k: Id, oq: Op, b: seq<System>, n: nat, mid: Ledger, c: seq<System>, m: nat, end: Ledger)
      returns (states: seq<System>, who: seq<Id>)
    requires ValidOp(op) && ValidOp(oq) && j != k && n > 0 && m > 0
    requires TxRun(b, n, k, Among(db, map[j := Fresh(op)], k, Fresh(oq)), System(mid, map[j := Fresh(op)]))
    requires TxRun(c, m, j, System(mid, map[j := Fresh(op)]), System(end, map[]))
    ensures Nested(states, who, db, j, op, k, oq, n + 2, mid, end) && |who| == n + m + 2
  {
    hide Next, IsRun, Begin, Commit, ValidOp, Idle, NoRows, Nothing;
    var a, aw := TwoBegin(db, j, op, k, oq);
    states, who := JoinRuns(a, aw, k, b, n, j, c, m);
  }

  function Del(): Op { MarkDeletedOp(0) }

  function Loan(): Op { LendOp(0, FiveRound()) }

  /** First order: the deletion passes its check, the loan is made, and the deletion commits with something pending. */
  ghost predicate LoanSlipsIn(states: seq<System>, who: seq<Id>, lent: Ledger, end: Ledger) {
    var db := OneCustomer();
    && Start(System(db, map[])) && R.DeletedAreClear(db) && SoftDelete(db, 0).Ok?
    && Nested(states, who, db, 1, Del(), 2, Loan(), 7, lent, end) && Spoils(lent, Del()) && LeftOwing(end)
  }

  /** Second order: the loan is begun for an active customer, the deletion commits with nothing pending, and the loan
      still commits. */
  ghost predicate LoanComesLate(states: seq<System>, who: seq<Id>, gone: Ledger, end: Ledger) {
    var db := OneCustomer();
    && Start(System(db, map[])) && R.DeletedAreClear(db) && R.TargetActive(db, Loan()) && SoftDelete(db, 0).Ok?
    && Nested(states, who, db, 2, Loan(), 1, Del(), 5, gone, end) && R.IsDeleted(gone, 0) && R.DeletedAreClear(gone)
    && Spoils(gone, Loan()) && LeftOwing(end)
  }

  /** Both orders happen. */
  lemma BothRaces() returns (states: seq<System>, who: seq<Id>, lent: Ledger, end: Ledger,
                             states': seq<System>, who': seq<Id>, gone: Ledger, end': Ledger)
    ensures LoanSlipsIn(states, who, lent, end) && LoanComesLate(states', who', gone, end')
  {
    hide *;
    states, who, lent, end := FirstRace();
    states', who', gone, end' := SecondRace();
  }

  lemma FirstRace() returns (states: seq<System>, who: seq<Id>, lent: Ledger, end: Ledger)
    ensures LoanSlipsIn(states, who, lent, end)
  {
    hide Nested, Spoils, LeftOwing, R.DeletedAreClear, Start, R.TargetActive, SoftDelete, Lend, MarkDeleted;
    hide OneCustomer, FiveRound;
    hide HasCustomer, ValidOp, PendingItems;
    RaceStarts();
    lent, end := LoanThenDeletion();
    states, who := FirstRun(OneCustomer(), FiveRound(), lent, end);
  }

  lemma FirstRun(db: Ledger, row: Borrowing, lent: Ledger, end: Ledger) returns (states: seq<System>, who: seq<Id>)
    requires db.borrowings == map[] && row.customer == 0 && HasCustomer(db, row.company, 0) && ValidOp(LendOp(0, row))
    requires ValidOp(Del())
    requires Lend(db, 0, row) == Ok(lent) && 0 in lent.customers && MarkDeleted(lent, 0) == Ok(end)
    ensures Nested(states, who, db, 1, Del(), 2, LendOp(0, row), 7, lent, end)
  {
    FreshIsIdle(1, Del(), 2);
    Alone(lent, 1, Fresh(Del()));
    hide Lend, MarkDeleted, TxRun, Nested, Idle, Among, Fresh, HasCustomer, ValidOp, NoRows, Nothing;
    var b := LendAmong(db, map[1 := Fresh(Del())], 2, row);
    var c := DeleteAmong(lent, map[], 1, 0);
    states, who := NestedRun(db, 1, Del(), 2, LendOp(0, row), b, 5, lent, c, 3, end);
  }

  lemma SecondRace() returns (states: seq<System>, who: seq<Id>, gone: Ledger, end: Ledger)
    ensures LoanComesLate(states, who, gone, end)
  {
    hide Nested, Spoils, LeftOwing, R.DeletedAreClear, Start, R.TargetActive, SoftDelete, Lend, MarkDeleted;
    hide OneCustomer, FiveRound;
    hide HasCustomer, ValidOp, R.IsDeleted;
    RaceStarts();
    gone, end := DeletionThenLoan();
    states, who := SecondRun(OneCustomer(), FiveRound(), gone, end);
  }

  lemma SecondRun(db: Ledger, row: Borrowing, gone: Ledger, end: Ledger) returns (states: seq<System>, who: seq<Id>)
    requires 0 in db.customers && MarkDeleted(db, 0) == Ok(gone) && ValidOp(LendOp(0, row)) && ValidOp(Del())
    requires gone.borrowings == map[] && HasCustomer(gone, row.company, row.customer) && Lend(gone, 0, row) == Ok(end)
    ensures Nested(states, who, db, 2, LendOp(0, row), 1, Del(), 5, gone, end)
  {
    FreshIsIdle(2, LendOp(0, row), 1);
    Alone(gone, 2, Fresh(LendOp(0, row)));
    hide Lend, MarkDeleted, TxRun, Nested, Idle, Among, Fresh, HasCustomer, ValidOp, NoRows, Nothing;
    var b := DeleteAmong(db, map[2 := Fresh(LendOp(0, row))], 1, 0);
    var c := LendAmong(gone, map[], 2, row);
    states, who := NestedRun(db, 2, LendOp(0, row), 1, Del(), b, 3, gone, c, 5, end);
  }

  lemma FreshIsIdle(j: Id, op: Op, k: Id)
    requires j != k
    ensures Idle(map[j := Fresh(op)], k)
  {
  }

  lemma Alone(db: Ledger, k: Id, tx: Tx)
    ensures System(db, map[k := tx]) == Among(db, map[], k, tx) && Idle(map[], k)
  {
    var none: map<Id, Tx> := map[];
    assert none[k := tx] == map[k := tx];
  }

  lemma RaceStarts()
    ensures var db := OneCustomer();
      && Start(System(db, map[])) && R.DeletedAreClear(db) && SoftDelete(db, 0).Ok?
      && 0 in db.customers && FiveRound().customer == 0 && HasCustomer(db, FiveRound().company, 0)
      && db.borrowings == map[] && ValidOp(Loan()) && ValidOp(Del())
      && R.TargetActive(db, Loan())
  {
    hide Inv, Priced;
    OneCustomerOk(OneCustomer());
  }

  lemma LoanThenDeletion() returns (lent: Ledger, end: Ledger)
    ensures Lend(OneCustomer(), 0, FiveRound()) == Ok(lent) && MarkDeleted(lent, 0) == Ok(end)
    ensures 0 in lent.customers && Spoils(lent, Del()) && LeftOwing(end)
  {
    lent := Lend(OneCustomer(), 0, FiveRound()).value;
    end := MarkDeleted(lent, 0).value;
    assert R.IsDeleted(end, end.borrowings[0].customer);
  }

  lemma DeletionThenLoan() returns (gone: Ledger, end: Ledger)
    ensures MarkDeleted(OneCustomer(), 0) == Ok(gone) && Lend(gone, 0, FiveRound()) == Ok(end)
    ensures R.IsDeleted(gone, 0) && R.DeletedAreClear(gone) && Spoils(gone, Loan()) && LeftOwing(end)
    ensures gone.borrowings == map[] && HasCustomer(gone, FiveRound().company, FiveRound().customer)
  {
    gone := MarkDeleted(OneCustomer(), 0).value;
    end := Lend(gone, 0, FiveRound()).value;
    assert R.IsDeleted(end, end.borrowings[0].customer);
  }

  lemma OneCustomerOk(L: Ledger)
    requires L == OneCustomer()
    ensures Inv(L) && Priced(L)
  {
    hide Owed, Out, UnitsPaid;
    NothingOwed(L, Round);
    NothingOwed(L, Slim);
    NothingOwed(L, OtherKind);
    NothingIsOut(L);
  }

  lemma NothingIsOut(L: Ledger)
    requires L == OneCustomer() && Owed(L, 0) == Out(L, 0, Round) == Out(L, 0, Slim) == Out(L, 0, OtherKind) == 0
    ensures forall c :: c in L.customers ==> CustomerBalanced(L, c)
  {
    hide Owed, Out;
    forall c | c in L.customers ensures CustomerBalanced(L, c) {
      assert c == 0;
      forall k ensures L.customers[c].Counter(k) == Out(L, c, k) {
        match k case Round => case Slim => case OtherKind =>
      }
    }
  }

  lemma NothingOwed(L: Ledger, k: Kind)
    requires L == OneCustomer()
    ensures Owed(L, 0) == 0 && Out(L, 0, k) == 0
  {
    SumZero(OwnedBy(Totals(L), Debtor(L), 0));
    SumZero(OwnedBy(Amounts(L), Payer(L), 0));
    SumZero(OwnedBy(OutOfKind(L, k), Borrower(L), 0));
  }
}
