/** Any number of ledger transactions, interleaved step by step under row locks (READ COMMITTED: a
    transaction's writes stay private until it commits, and a row locked by one is locked to all others). */
module LedgerInterleavings {
  import opened FiniteSums
  import opened Ledger
  import opened LedgerProofs
  import opened RowLocking
  import opened LedgerTransactions

  /** A running transaction: its request, how far it got, its locks, and its copies of the locked rows. */
  datatype Tx = Tx(op: Op, pc: nat, locks: Rows, mine: Ledger) {
    function Program(): seq<Instr> { ProgramOf(op) }
  }

  datatype System = System(db: Ledger, txs: map<Id, Tx>)

  ghost predicate Free(s: System, t: Id, rows: Rows) {
    forall u :: u in s.txs && u != t ==> s.txs[u].locks.Disjoint(rows)
  }

  /** A request that passed the unlocked validation becomes a transaction. What it read then may be stale. */
  ghost predicate Begin(s: System, s': System, t: Id, op: Op) {
    t !in s.txs && ValidOp(op) && s' == s.(txs := s.txs[t := Tx(op, 0, NoRows(), Nothing())])
  }

  function AfterLocking(db: Ledger, tx: Tx, rows: Rows): Tx {
    tx.(pc := tx.pc + 1, locks := tx.locks.Plus(rows), mine := Install(Copies(db, rows), tx.mine, tx.locks))
  }

  /** The rows a lock instruction asks for. */
  function Wanted(db: Ledger, i: Instr): Rows
    requires !i.Do?
  {
    if i.Acquire? then i.rows else Rows({}, {}, PaymentsOn(db, i.l), {})
  }

  ghost predicate LockStep(s: System, s': System, t: Id) {
    && t in s.txs && s.txs[t].pc < |s.txs[t].Program()|
    && var tx := s.txs[t];
       var i := tx.Program()[tx.pc];
       && !i.Do? && Free(s, t, Wanted(s.db, i))
       && s' == s.(txs := s.txs[t := AfterLocking(s.db, tx, Wanted(s.db, i))])
  }

  /** A statement, on the transaction's own copies. */
  ghost predicate DoStep(s: System, s': System, t: Id) {
    && t in s.txs && s.txs[t].pc < |s.txs[t].Program()|
    && var tx := s.txs[t];
       var i := tx.Program()[tx.pc];
       && i.Do? && Act(i.a, tx.mine).Some?
       && s' == s.(txs := s.txs[t := tx.(pc := tx.pc + 1, mine := Act(i.a, tx.mine).value)])
  }

  ghost predicate Commit(s: System, s': System, t: Id) {
    && t in s.txs && s.txs[t].pc == |s.txs[t].Program()|
    && s' == System(Install(s.db, s.txs[t].mine, s.txs[t].locks), s.txs - {t})
  }

  /** Any exception, violated constraint or deadlock: the private writes vanish. */
  ghost predicate Abort(s: System, s': System, t: Id) {
    t in s.txs && s' == s.(txs := s.txs - {t})
  }

  ghost predicate Next(s: System, s': System, t: Id) {
    (exists op :: Begin(s, s', t, op)) || LockStep(s, s', t) || DoStep(s, s', t) || Commit(s, s', t) || Abort(s, s', t)
  }

  // ---- What every transaction keeps ---------------------------------------------------------------

  /** What a transaction has executed so far. */
  function Executed(tx: Tx): seq<Instr>
    requires tx.pc <= |tx.Program()|
  {
    tx.Program()[..tx.pc]
  }

  /** A line whose payments were all locked stays locked, and no payment on it has appeared since. */
  ghost predicate ScansHeld(db: Ledger, tx: Tx)
    requires tx.pc <= |tx.Program()|
  {
    forall l :: AcquirePaymentsOf(l) in Executed(tx) ==> l in tx.locks.lines && PaymentsLocked(db, l, tx.locks)
  }

  /** A private payment row is on a locked line, or stands in the tables on the same line. */
  ghost predicate PaymentLinesHeld(db: Ledger, tx: Tx) {
    forall p :: p in tx.mine.payments ==>
      tx.mine.payments[p].line in tx.locks.lines || (p in db.payments && db.payments[p].line == tx.mine.payments[p].line)
  }

  ghost predicate TxOk(db: Ledger, tx: Tx) {
    && ValidOp(tx.op) && tx.pc <= |tx.Program()|
    && Covered(tx.mine, tx.locks) && tx.locks.Contains(Held(Executed(tx)))
    && ScansHeld(db, tx) && PaymentLinesHeld(db, tx)
    // the copies are what the program so far makes of the locked rows as they now stand in the tables
    && Run(Executed(tx), Copies(db, tx.locks)) == Some(tx.mine)
  }

  ghost predicate SystemOk(s: System) {
    && (forall t :: t in s.txs ==> TxOk(s.db, s.txs[t]))
    && (forall t, u :: t in s.txs && u in s.txs && t != u ==> s.txs[t].locks.Disjoint(s.txs[u].locks))
  }

  lemma HeldGrows(p: seq<Instr>, i: nat)
    requires i <= |p|
    ensures Held(p).Contains(Held(p[..i]))
  {
    HeldConcat(p[..i], p[i..]);
    assert p == p[..i] + p[i..];
  }

  /** Everything a transaction has read or written so far, it holds. */
  lemma ReadsAreHeld(db: Ledger, tx: Tx, any: Ledger)
    requires TxOk(db, tx) && any.payments.Keys <= db.payments.Keys
    requires forall p :: p in any.payments ==> any.payments[p] == db.payments[p]
    ensures AllReadsLocked(Executed(tx), any, tx.locks)
  {
    var prog := tx.Program();
    ProgramDisciplined(tx.op);
    forall i | 0 <= i < tx.pc && Executed(tx)[i].Do? ensures ReadsLocked(Executed(tx)[i].a, any, tx.locks) {
      NextIsLocked(db, tx, i);
      var a := prog[i].a;
      if a.Whole? && a.op.DeleteLineOp? {
        assert AcquirePaymentsOf(a.op.l) in Executed(tx);
      }
    }
  }

  lemma NextIsLocked(db: Ledger, tx: Tx, i: nat)
    requires TxOk(db, tx) && i <= tx.pc && i < |tx.Program()|
    ensures StepLocked(tx.Program()[i], tx.Program()[..i], tx.locks)
  {
    var prog := tx.Program();
    ProgramDisciplined(tx.op);
    DisciplinedAt(prog, i);
    HeldGrows(Executed(tx), i);
    assert Executed(tx)[..i] == prog[..i];
  }

  lemma CopiesAreRows(db: Ledger, rows: Rows)
    ensures var any := Copies(db, rows);
      && any.payments.Keys <= db.payments.Keys && (forall p :: p in any.payments ==> any.payments[p] == db.payments[p])
      && Covered(any, rows)
  {
  }

  lemma InstallCovered(big: Ledger, small: Ledger, rows: Rows, locks: Rows)
    requires Covered(big, rows) && Covered(small, locks)
    ensures Covered(Install(big, small, locks), locks.Plus(rows))
  {
  }

  lemma LockKeepsCopies(db: Ledger, tx: Tx, rows: Rows)
    requires TxOk(db, tx) && tx.pc < |tx.Program()| && !tx.Program()[tx.pc].Do?
    ensures var t := AfterLocking(db, tx, rows);
      Covered(t.mine, t.locks) && Run(Executed(t), Copies(db, t.locks)) == Some(t.mine)
  {
    var t := AfterLocking(db, tx, rows);
    var big, small := Copies(db, rows), Copies(db, tx.locks);
    CopiesAreRows(db, rows);
    CopiesAreCovered(db, tx.locks);
    assert Executed(t) == Executed(tx) + [tx.Program()[tx.pc]];
    assert Run(Executed(tx), small) == Some(tx.mine);
    InstallCovered(big, tx.mine, rows, tx.locks);
    hide Run, Install, Copies, Covered, ProgramOf;
    ReadsAreHeld(db, tx, big);
    CopiesGrow(db, tx.locks, rows);
    RunLock(Executed(tx), tx.Program()[tx.pc], Copies(db, t.locks));
    RunFrame(Executed(tx), big, small, tx.locks);
  }

  lemma LockKeepsTxOk(db: Ledger, tx: Tx)
    requires TxOk(db, tx) && tx.pc < |tx.Program()| && !tx.Program()[tx.pc].Do?
    ensures TxOk(db, AfterLocking(db, tx, Wanted(db, tx.Program()[tx.pc])))
  {
    var i := tx.Program()[tx.pc];
    var rows := Wanted(db, i);
    var t := AfterLocking(db, tx, rows);
    LockKeepsCopies(db, tx, rows);
    LockKeepsScans(db, tx);
    Snoc2(Executed(tx), i);
    assert Executed(t) == Executed(tx) + [i];
    hide Run, Held, ScansHeld, ProgramOf, Install, Copies;
    LockKeepsPaymentLines(db, tx, rows);
  }

  lemma LockKeepsPaymentLines(db: Ledger, tx: Tx, rows: Rows)
    requires PaymentLinesHeld(db, tx) && Covered(tx.mine, tx.locks)
    ensures PaymentLinesHeld(db, AfterLocking(db, tx, rows))
  {
  }

  lemma LockKeepsScans(db: Ledger, tx: Tx)
    requires TxOk(db, tx) && tx.pc < |tx.Program()| && !tx.Program()[tx.pc].Do?
    ensures ScansHeld(db, AfterLocking(db, tx, Wanted(db, tx.Program()[tx.pc])))
  {
    var i := tx.Program()[tx.pc];
    var t := AfterLocking(db, tx, Wanted(db, i));
    NextIsLocked(db, tx, tx.pc);
    assert Executed(t) == Executed(tx) + [i];
    hide Run, Held, Install, Copies;
    forall l | AcquirePaymentsOf(l) in Executed(t) ensures l in t.locks.lines && PaymentsLocked(db, l, t.locks) {
      if AcquirePaymentsOf(l) in Executed(tx) { assert PaymentsLocked(db, l, tx.locks); }
    }
  }

  lemma Snoc2(p: seq<Instr>, i: Instr)
    ensures Held(p + [i]) == Held(p).Plus(Asked(i))
  {
    assert (p + [i])[..|p|] == p;
  }

  /** A statement leaves every payment on its line, and puts new ones on a line it has locked. */
  lemma ActPaymentLines(a: Action, L: Ledger)
    requires Act(a, L).Some? && !(a.Whole? && (a.op.CollectOp? || a.op.LendOp?))
    ensures forall p :: p in Act(a, L).value.payments ==>
      Act(a, L).value.payments[p].line in Footprint(a).lines
      || (p in L.payments && L.payments[p].line == Act(a, L).value.payments[p].line)
  {
    if a.Whole? { WholePaymentLines(a.op, L); }
  }

  lemma WholePaymentLines(op: Op, L: Ledger)
    requires Apply(L, op).Ok? && !op.CollectOp?
    ensures forall p :: p in Apply(L, op).value.payments ==>
      p in L.payments && L.payments[p].line == Apply(L, op).value.payments[p].line
  {
    match op
    case EditPaymentOp(_, _, p, units, amount, at) =>
      var R := EditPayment(L, p, units, amount, at).value;
      assert R.payments == L.payments[p := L.payments[p].(containers := units, amount := amount, paidAt := Some(at))];
    case DeleteLineOp(_, l) =>
      var R := DeleteLine(L, l).value;
      assert R.payments == L.payments - PaymentsOn(L, l);
    case DeletePaymentOp(_, _, p) =>
    case ExtendOp(_, _, _) =>
    case LendOp(_, _) =>
    case EditLineOp(_, _, _, _, _, _) =>
    case EditBorrowingOp(_, _, _, _, _) =>
    case DeleteBorrowingOp(_, _) =>
    case SetLimitOp(_, _) =>
    case MarkDeletedOp(_) =>
    case CreateOp(_, _, _) =>
  }

  lemma DoKeepsTxOk(db: Ledger, tx: Tx)
    requires TxOk(db, tx) && tx.pc < |tx.Program()| && tx.Program()[tx.pc].Do?
    requires Act(tx.Program()[tx.pc].a, tx.mine).Some?
    ensures TxOk(db, tx.(pc := tx.pc + 1, mine := Act(tx.Program()[tx.pc].a, tx.mine).value))
  {
    var a := tx.Program()[tx.pc].a;
    var t := tx.(pc := tx.pc + 1, mine := Act(a, tx.mine).value);
    NextIsLocked(db, tx, tx.pc);
    assert Executed(t) == Executed(tx) + [Do(a)];
    NothingToRead(a, tx.locks);
    hide Run, Held, Act, ProgramOf, Copies, Install, Covered;
    Snoc2(Executed(tx), Do(a));
    RunDo(Executed(tx), a, Copies(db, tx.locks));
    ActFrame(a, Nothing(), tx.mine, tx.locks);
    ActPaymentLines(a, tx.mine);
    hide *;
    DoKeepsScans(db, tx, t, a);
    DoKeepsPaymentLines(db, tx, t, a);
    DoTxOk(db, tx, t, a);
  }

  lemma DoTxOk(db: Ledger, tx: Tx, t: Tx, a: Action)
    requires TxOk(db, tx) && tx.pc < |tx.Program()| && t.op == tx.op && t.pc == tx.pc + 1 && t.locks == tx.locks
    requires Executed(t) == Executed(tx) + [Do(a)] && Held(Executed(t)) == Held(Executed(tx)).Plus(Asked(Do(a)))
    requires Covered(t.mine, t.locks) && ScansHeld(db, t) && PaymentLinesHeld(db, t)
    requires Run(Executed(t), Copies(db, t.locks)) == Some(t.mine)
    ensures TxOk(db, t)
  {
    hide Run, Held, Covered, ScansHeld, PaymentLinesHeld, Copies, ProgramOf;
  }

  lemma DoKeepsScans(db: Ledger, tx: Tx, t: Tx, a: Action)
    requires tx.pc <= |tx.Program()| && t.pc <= |t.Program()|
    requires ScansHeld(db, tx) && t.locks == tx.locks && Executed(t) == Executed(tx) + [Do(a)]
    ensures ScansHeld(db, t)
  {
    hide ProgramOf;
  }

  lemma DoKeepsPaymentLines(db: Ledger, tx: Tx, t: Tx, a: Action)
    requires PaymentLinesHeld(db, tx) && t.locks == tx.locks && tx.locks.Contains(Footprint(a))
    requires forall p :: p in t.mine.payments ==>
      t.mine.payments[p].line in Footprint(a).lines
      || (p in tx.mine.payments && tx.mine.payments[p].line == t.mine.payments[p].line)
    ensures PaymentLinesHeld(db, t)
  {
    hide Footprint;
  }

  lemma NothingToRead(a: Action, locks: Rows)
    requires locks.Contains(Footprint(a)) && !(a.Whole? && (a.op.CollectOp? || a.op.LendOp?))
    ensures ReadsLocked(a, Nothing(), locks)
  {
    hide Footprint;
  }

  /** A commit of other rows leaves a transaction in step with the tables. */
  lemma CommitKeepsOther(db: Ledger, tx: Tx, other: Tx)
    requires TxOk(db, tx) && TxOk(db, other) && tx.locks.Disjoint(other.locks)
    ensures TxOk(Install(db, other.mine, other.locks), tx)
  {
    var R := Install(db, other.mine, other.locks);
    CopiesUnaffected(db, other.mine, other.locks, tx.locks);
    hide Run, Held;
    forall l | AcquirePaymentsOf(l) in Executed(tx) ensures PaymentsLocked(R, l, tx.locks) {
      assert PaymentsLocked(db, l, tx.locks) && l in tx.locks.lines;
      forall p | p in R.payments && R.payments[p].line == l ensures p in tx.locks.payments {
        if p in other.locks.payments {
          assert false;
        }
      }
    }
    assert PaymentLinesHeld(R, tx);
  }

  lemma FreshTxOk(db: Ledger, op: Op)
    requires ValidOp(op)
    ensures TxOk(db, Tx(op, 0, NoRows(), Nothing()))
  {
    assert Copies(db, NoRows()) == Nothing();
  }

  /** Every step of every transaction keeps all transactions in step. */
  lemma NextKeepsSystemOk(s: System, s': System, t: Id)
    requires SystemOk(s) && Next(s, s', t)
    ensures SystemOk(s')
  {
    hide TxOk, Held, Run;
    if LockStep(s, s', t) {
      LockKeepsTxOk(s.db, s.txs[t]);
    } else if DoStep(s, s', t) {
      DoKeepsTxOk(s.db, s.txs[t]);
    } else if Commit(s, s', t) {
      forall u | u in s'.txs ensures TxOk(s'.db, s'.txs[u]) {
        CommitKeepsOther(s.db, s.txs[u], s.txs[t]);
      }
    } else if Abort(s, s', t) {
    } else {
      var op :| Begin(s, s', t, op);
      FreshTxOk(s.db, op);
    }
  }

  // ---- Commits are atomic ----------------------------------------------------------------------------

  /** A commit has exactly the effect of the whole service applied to the tables at that moment. */
  lemma CommitIsAtomic(s: System, s': System, t: Id)
    requires SystemOk(s) && Inv(s.db) && Commit(s, s', t)
    ensures Apply(s.db, s.txs[t].op) == Ok(s'.db)
  {
    var tx := s.txs[t];
    assert TxOk(s.db, tx);
    assert Executed(tx) == tx.Program();
    CopiesAreCovered(s.db, tx.locks);
    InstallOwnCopies(s.db, tx.locks);
    ReadsAreHeld(s.db, tx, s.db);
    hide Run, Install, Inv;
    RunFrame(tx.Program(), s.db, Copies(s.db, tx.locks), tx.locks);
    ProgramMeaning(tx.op, s.db);
  }

  lemma CopiesAreCovered(L: Ledger, locks: Rows)
    ensures Covered(Copies(L, locks), locks)
  {
  }

  // ---- Runs ------------------------------------------------------------------------------------------

  /** `who[i]` takes the step from `states[i]` to `states[i + 1]`. */
  ghost predicate IsRun(states: seq<System>, who: seq<Id>) {
    && |states| == |who| + 1
    && forall i :: 0 <= i < |who| ==> Next(states[i], states[i + 1], who[i])
  }

  ghost predicate Start(s: System) { s.txs == map[] && Inv(s.db) && Priced(s.db) }

  /** Each step leaves the committed tables alone or applies one whole service to them. */
  lemma StepIsService(s: System, s': System, t: Id)
    requires SystemOk(s) && Inv(s.db) && Next(s, s', t)
    ensures s'.db == s.db || (t in s.txs && ValidOp(s.txs[t].op) && Apply(s.db, s.txs[t].op) == Ok(s'.db))
  {
    hide Inv;
    if Commit(s, s', t) {
      CommitIsAtomic(s, s', t);
      assert TxOk(s.db, s.txs[t]);
    }
  }

  lemma StartIsOk(s: System)
    requires Start(s)
    ensures SystemOk(s)
  {
  }

  /** In every state of every interleaving, the committed tables satisfy the ledger invariant. */
  lemma {:induction false} EveryRunKeepsLedger(states: seq<System>, who: seq<Id>)
    requires IsRun(states, who) && Start(states[0])
    ensures forall i :: 0 <= i < |states| ==> SystemOk(states[i]) && Inv(states[i].db) && Priced(states[i].db)
  {
    hide Inv, Priced, SystemOk, Next;
    var n := |who|;
    if n == 0 {
      StartIsOk(states[0]);
    } else {
      EveryRunKeepsLedger(states[..n], who[..n - 1]);
      var s, s', t := states[n - 1], states[n], who[n - 1];
      assert s == states[..n][n - 1];
      NextKeepsSystemOk(s, s', t);
      StepIsService(s, s', t);
      if s'.db != s.db {
        ApplyKeepsInv(s.db, s.txs[t].op);
        ApplyKeepsPrices(s.db, s.txs[t].op);
      }
      forall i | 0 <= i < |states| ensures SystemOk(states[i]) && Inv(states[i].db) && Priced(states[i].db) {
        if i < n { assert states[i] == states[..n][i]; }
      }
    }
  }

  /** Spelled out: quantities stay in range and balances equal credits minus payments. */
  lemma EveryRunStaysInBounds(states: seq<System>, who: seq<Id>, i: nat)
    requires IsRun(states, who) && Start(states[0]) && i < |states|
    ensures var L := states[i].db;
      && (forall l :: l in L.lines ==> 0 <= L.lines[l].remaining <= L.lines[l].credited)
      && (forall l :: l in L.lines ==> L.lines[l].remaining == L.lines[l].credited - UnitsPaid(L, l))
      && (forall b :: b in L.borrowings ==> 0 <= L.borrowings[b].returned <= L.borrowings[b].borrowed)
      && (forall c :: c in L.customers ==> 0 <= L.customers[c].debt == Owed(L, c))
  {
    EveryRunKeepsLedger(states, who);
    var L := states[i].db;
    hide Owed, UnitsPaid, Out, Next;
    forall l | l in L.lines ensures LineOk(L, L.lines[l]) && LineBalanced(L, l) {}
    forall b | b in L.borrowings ensures BorrowingOk(L, L.borrowings[b]) {}
    forall c | c in L.customers ensures CustomerBalanced(L, c) {}
  }

  function Extended(L: Ledger, op: Op): Id
    requires op.ExtendOp? || (op.EditLineOp? && op.l in L.lines)
  {
    if op.ExtendOp? then op.line.customer else L.lines[op.l].customer
  }

  /** No credit extension or line edit commits with the balance above a positive limit, whatever ran meanwhile. */
  lemma NoCommitPassesTheLimit(states: seq<System>, who: seq<Id>, i: nat)
    requires IsRun(states, who) && Start(states[0]) && i < |who| && Commit(states[i], states[i + 1], who[i])
    requires var op := states[i].txs[who[i]].op; op.ExtendOp? || op.EditLineOp?
    ensures var op, L, R := states[i].txs[who[i]].op, states[i].db, states[i + 1].db;
      && (op.EditLineOp? ==> op.l in L.lines)
      && var c := Extended(L, op);
         c in R.customers && (R.customers[c].limit > 0 ==> R.customers[c].debt <= R.customers[c].limit)
  {
    EveryRunKeepsLedger(states, who);
    hide Inv, Priced, SystemOk, Next, Commit, Apply;
    CommitIsAtomic(states[i], states[i + 1], who[i]);
    LimitRespected(states[i].db, states[i].txs[who[i]].op);
  }

  lemma LimitRespected(L: Ledger, op: Op)
    requires (op.ExtendOp? || op.EditLineOp?) && Apply(L, op).Ok?
    ensures op.EditLineOp? ==> op.l in L.lines
    ensures var R, c := Apply(L, op).value, Extended(L, op);
      c in R.customers && (R.customers[c].limit > 0 ==> R.customers[c].debt <= R.customers[c].limit)
  {
  }
}
