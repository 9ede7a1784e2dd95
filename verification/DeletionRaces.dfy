/** Soft deletion under interleaving. Neither the pending-items check of a deletion nor the active-customer check of a
    ledger request is repeated under the row locks, so a deleted customer may be left owing. This module says exactly
    which commits do that, step by step and over whole runs. */
module DeletionRaces {
  import opened FiniteSums
  import opened Ledger
  import opened LedgerProofs
  import opened RowLocking
  import opened LedgerTransactions
  import opened LedgerInterleavings
  import opened RunSafety
  import R = RemittanceServices

  // ---- Which operations leave a deleted customer owing -----------------------------------------------

  /** On a customer who owes nothing: does the operation leave money or containers open? */
  ghost predicate Reopens(L: Ledger, op: Op) {
    match op
    case ExtendOp(_, row, _) => row.total != 0
    case LendOp(_, _) => true
    case EditLineOp(_, l, qty, price, _, _) => l in L.lines && qty * price != L.lines[l].total
    case EditPaymentOp(_, _, p, _, amount, _) => p in L.payments && amount != L.payments[p].amount
    case EditBorrowingOp(_, _, borrowed, returned, _) => borrowed != returned
    case DeleteLineOp(_, l) => l in L.lines && L.lines[l].total != Collected(L, l)
    case DeletePaymentOp(_, _, p) => p in L.payments && L.payments[p].amount != 0
    case _ => false
  }

  /** A deletion with something pending, or an operation on a deleted customer that leaves something open. */
  ghost predicate Spoils(L: Ledger, op: Op) {
    if op.MarkDeletedOp? then op.c in L.customers && PendingItems(L.customers[op.c])
    else R.CustomerOf(op).Some? && R.IsDeleted(L, R.CustomerOf(op).value) && Reopens(L, op)
  }

  predicate ClearOf(L: Ledger, c: Id) { c in L.customers && L.customers[c].debt == 0 && AllReturnedBy(L, c) }

  lemma TouchedIsClear(L: Ledger, N: Ledger, c: Id)
    requires R.DeletedAreClear(L) && TouchesOnly(L, N, c) && R.IsDeleted(N, c)
    ensures R.DeletedAreClear(N) <==> ClearOf(N, c)
  {
    if ClearOf(N, c) {
      forall b | b in N.borrowings && R.IsDeleted(N, N.borrowings[b].customer) ensures N.borrowings[b].Outstanding() == 0 {
        if N.borrowings[b].customer != c { assert R.IsDeleted(L, L.borrowings[b].customer); }
      }
      forall d | R.IsDeleted(N, d) ensures N.customers[d].debt == 0 {
        if d != c { assert R.IsDeleted(L, d); }
      }
    }
  }

  /** The operation moves the balance and leaves the borrowings alone. */
  lemma MoneyReopens(L: Ledger, op: Op)
    requires ValidOp(op) && Apply(L, op).Ok? && R.CustomerOf(op).Some? && ClearOf(L, R.CustomerOf(op).value)
    requires op.ExtendOp? || op.EditLineOp? || op.EditPaymentOp? || op.DeleteLineOp? || op.DeletePaymentOp? || op.SetLimitOp?
    ensures ClearOf(Apply(L, op).value, R.CustomerOf(op).value) <==> !Reopens(L, op)
  {
    hide Collected;
    var c, N := R.CustomerOf(op).value, Apply(L, op).value;
    assert N.borrowings == L.borrowings;
    assert AllReturnedBy(N, c);
  }

  lemma LendReopens(L: Ledger, op: Op)
    requires ValidOp(op) && op.LendOp? && Apply(L, op).Ok?
    ensures !ClearOf(Apply(L, op).value, op.borrowing.customer)
  {
    var N := Apply(L, op).value;
    assert N.borrowings[op.id] == op.borrowing && op.borrowing.Outstanding() > 0;
  }

  lemma LoanReopens(L: Ledger, op: Op)
    requires ValidOp(op) && (op.EditBorrowingOp? || op.DeleteBorrowingOp?) && Apply(L, op).Ok? && ClearOf(L, op.c)
    ensures ClearOf(Apply(L, op).value, op.c) <==> !Reopens(L, op)
  {
    var N := Apply(L, op).value;
    assert N.customers[op.c].debt == L.customers[op.c].debt;
    if op.EditBorrowingOp? {
      assert N.borrowings == L.borrowings[op.b := N.borrowings[op.b]];
      assert N.borrowings[op.b].Outstanding() == op.borrowed - op.returned && N.borrowings[op.b].customer == op.c;
    } else {
      assert N.borrowings == L.borrowings - {op.b};
    }
  }

  lemma ReturnNeedsOpen(L: Ledger, op: Op)
    requires ValidOp(op) && op.CollectOp? && Apply(L, op).Ok? && op.rs != []
    ensures !ClearOf(L, op.c)
  {
    hide ApplyPayments, ApplyReturns, BatchFits;
    assert ReturnFits(L, op.co, op.c, op.rs[0]) && 0 < op.rs[0].qty;
  }

  /** Nothing can be collected from a customer who owes nothing. */
  lemma CollectReopensNothing(L: Ledger, op: Op)
    requires ValidOp(op) && op.CollectOp? && Apply(L, op).Ok? && ClearOf(L, op.c)
    ensures ClearOf(Apply(L, op).value, op.c)
  {
    if op.rs != [] { ReturnNeedsOpen(L, op); }
    TotalNonNegative(op.es);
    hide ApplyPayments;
    var N := Apply(L, op).value;
    assert N.borrowings == L.borrowings;
    assert N.customers[op.c].debt == 0 - TotalCollected(op.es);
    assert AllReturnedBy(N, op.c);
  }

  lemma {:induction false} TotalNonNegative(es: seq<PayEntry>)
    requires forall i :: 0 <= i < |es| ==> 0 <= es[i].amount
    ensures 0 <= TotalCollected(es)
  {
    if es != [] { TotalNonNegative(es[..|es| - 1]); }
  }

  lemma ClearReopens(L: Ledger, op: Op)
    requires ValidOp(op) && Apply(L, op).Ok? && R.CustomerOf(op).Some? && !op.MarkDeletedOp?
    requires ClearOf(L, R.CustomerOf(op).value)
    ensures ClearOf(Apply(L, op).value, R.CustomerOf(op).value) <==> !Reopens(L, op)
  {
    hide Apply, ClearOf, ValidOp;
    match op
    case LendOp(_, _) => LendReopens(L, op);
    case EditBorrowingOp(_, _, _, _, _) => LoanReopens(L, op);
    case DeleteBorrowingOp(_, _) => LoanReopens(L, op);
    case CollectOp(_, _, _, _, _) => CollectReopensNothing(L, op);
    case _ => MoneyReopens(L, op);
  }

  /** An operation breaks "deleted customers have returned everything" exactly when it spoils. */
  lemma OpKeepsClear(L: Ledger, op: Op)
    requires Inv(L) && R.DeletedAreClear(L) && ValidOp(op) && Apply(L, op).Ok?
    ensures R.DeletedAreClear(Apply(L, op).value) <==> !Spoils(L, op)
  {
    var N := Apply(L, op).value;
    if op.MarkDeletedOp? {
      SoftDeleteClear(L, op.c);
    } else if op.CreateOp? {
      CreateKeepsClear(L, op);
    } else {
      hide Inv, Apply, ValidOp, Reopens;
      var c := R.CustomerOf(op).value;
      OpTouchesOne(L, op);
      if N.customers[c].deleted {
        assert R.IsDeleted(L, c);
        ClearReopens(L, op);
        TouchedIsClear(L, N, c);
      } else {
        TouchesKeepsClear(L, N, c);
      }
    }
  }

  // ---- Steps and runs ----------------------------------------------------------------------------------

  ghost predicate SpoilingCommit(s: System, s': System, t: Id) { Commit(s, s', t) && Spoils(s.db, s.txs[t].op) }

  /** A step of any interleaving leaves a deleted customer owing exactly when it is a spoiling commit. */
  lemma StepKeepsClear(s: System, s': System, t: Id)
    requires SystemOk(s) && Inv(s.db) && R.DeletedAreClear(s.db) && Next(s, s', t)
    ensures R.DeletedAreClear(s'.db) <==> !SpoilingCommit(s, s', t)
  {
    hide Inv, Apply, Spoils, Install, R.DeletedAreClear;
    if Commit(s, s', t) {
      CommitIsAtomic(s, s', t);
      assert TxOk(s.db, s.txs[t]);
      OpKeepsClear(s.db, s.txs[t].op);
    }
  }

  ghost predicate AllClear(states: seq<System>) { forall i :: 0 <= i < |states| ==> R.DeletedAreClear(states[i].db) }

  ghost predicate NoneSpoils(states: seq<System>, who: seq<Id>)
    requires |states| == |who| + 1
  {
    forall i :: 0 <= i < |who| ==> !SpoilingCommit(states[i], states[i + 1], who[i])
  }

  lemma {:induction false} NoneSpoilsKeepsClear(states: seq<System>, who: seq<Id>, n: nat)
    requires IsRun(states, who) && Start(states[0]) && R.DeletedAreClear(states[0].db) && NoneSpoils(states, who)
    requires n < |states|
    ensures R.DeletedAreClear(states[n].db)
  {
    hide R.DeletedAreClear, Inv, Priced, SystemOk, Next, SpoilingCommit;
    if n > 0 {
      NoneSpoilsKeepsClear(states, who, n - 1);
      EveryRunKeepsLedger(states, who);
      assert Next(states[n - 1], states[n - 1 + 1], who[n - 1]) && !SpoilingCommit(states[n - 1], states[n - 1 + 1], who[n - 1]);
      StepKeepsClear(states[n - 1], states[n], who[n - 1]);
    }
  }

  /** A whole interleaving keeps every deleted customer clear exactly when none of its commits spoils. */
  lemma RunKeepsClear(states: seq<System>, who: seq<Id>)
    requires IsRun(states, who) && Start(states[0]) && R.DeletedAreClear(states[0].db)
    ensures AllClear(states) <==> NoneSpoils(states, who)
  {
    hide R.DeletedAreClear, Inv, Priced, SystemOk, Next, SpoilingCommit;
    if NoneSpoils(states, who) {
      forall n | 0 <= n < |states| ensures R.DeletedAreClear(states[n].db) { NoneSpoilsKeepsClear(states, who, n); }
    }
    if AllClear(states) {
      EveryRunKeepsLedger(states, who);
      forall i | 0 <= i < |who| ensures !SpoilingCommit(states[i], states[i + 1], who[i]) {
        StepKeepsClear(states[i], states[i + 1], who[i]);
      }
    }
  }
}
