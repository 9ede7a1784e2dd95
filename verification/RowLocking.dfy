/** Private copies of locked rows. A transaction works on copies of the rows it has locked and, when it
    commits, installs them in the shared tables. */
module RowLocking {
  import opened FiniteSums
  import opened Ledger

  /** Row locks: the locked keys of each table. */
  datatype Rows = Rows(customers: set<Id>, lines: set<Id>, payments: set<Id>, borrowings: set<Id>) {
    function Plus(o: Rows): Rows {
      Rows(customers + o.customers, lines + o.lines, payments + o.payments, borrowings + o.borrowings)
    }

    predicate Disjoint(o: Rows) {
      customers !! o.customers && lines !! o.lines && payments !! o.payments && borrowings !! o.borrowings
    }

    predicate Contains(o: Rows) {
      customers >= o.customers && lines >= o.lines && payments >= o.payments && borrowings >= o.borrowings
    }
  }

  function NoRows(): Rows { Rows({}, {}, {}, {}) }
  function CustRow(c: Id): Rows { Rows({c}, {}, {}, {}) }
  function LineRow(l: Id): Rows { Rows({}, {l}, {}, {}) }
  function PayRow(p: Id): Rows { Rows({}, {}, {p}, {}) }
  function BorrowRow(b: Id): Rows { Rows({}, {}, {}, {b}) }

  /** One table with its locked rows replaced by what `small` says (absent means deleted). */
  function Overlay<V>(big: map<Id, V>, small: map<Id, V>, locked: set<Id>): map<Id, V> {
    map k | k in big.Keys + small.Keys && (if k in locked then k in small else k in big)
      :: if k in locked then small[k] else big[k]
  }

  function Install(big: Ledger, small: Ledger, locks: Rows): Ledger {
    Ledger(Overlay(big.customers, small.customers, locks.customers), Overlay(big.lines, small.lines, locks.lines),
           Overlay(big.payments, small.payments, locks.payments), Overlay(big.borrowings, small.borrowings, locks.borrowings))
  }

  function Nothing(): Ledger { Ledger(map[], map[], map[], map[]) }

  /** Copies of the given rows. */
  function Copies(L: Ledger, rows: Rows): Ledger { Install(Nothing(), L, rows) }

  predicate Covered(small: Ledger, locks: Rows) {
    && small.customers.Keys <= locks.customers && small.lines.Keys <= locks.lines
    && small.payments.Keys <= locks.payments && small.borrowings.Keys <= locks.borrowings
  }

  lemma OverlayPut<V>(big: map<Id, V>, small: map<Id, V>, locked: set<Id>, k: Id, v: V)
    requires k in locked
    ensures Overlay(big, small[k := v], locked) == Overlay(big, small, locked)[k := v]
  {
  }

  lemma OverlayDrop<V>(big: map<Id, V>, small: map<Id, V>, locked: set<Id>, ks: set<Id>)
    requires ks <= locked
    ensures Overlay(big, small - ks, locked) == Overlay(big, small, locked) - ks
  {
  }

  lemma OverlayOwn<V>(big: map<Id, V>, locked: set<Id>)
    ensures Overlay(big, Overlay(map[], big, locked), locked) == big
  {
  }

  lemma OverlayGrow<V>(big: map<Id, V>, locked: set<Id>, more: set<Id>)
    ensures Overlay(map[], big, locked + more)
         == Overlay(Overlay(map[], big, more), Overlay(map[], big, locked), locked)
  {
  }

  lemma OverlayOther<V>(big: map<Id, V>, small: map<Id, V>, theirs: set<Id>, mine: set<Id>)
    requires mine !! theirs
    ensures Overlay(map[], Overlay(big, small, theirs), mine) == Overlay(map[], big, mine)
  {
  }

  /** Installing copies taken from the tables themselves changes nothing. */
  lemma InstallOwnCopies(L: Ledger, locks: Rows)
    ensures Install(L, Copies(L, locks), locks) == L
  {
    hide Overlay;
    OverlayOwn(L.customers, locks.customers);
    OverlayOwn(L.lines, locks.lines);
    OverlayOwn(L.payments, locks.payments);
    OverlayOwn(L.borrowings, locks.borrowings);
  }

  /** Locking more rows adds their copies. */
  lemma CopiesGrow(L: Ledger, locks: Rows, more: Rows)
    ensures Copies(L, locks.Plus(more)) == Install(Copies(L, more), Copies(L, locks), locks)
  {
    hide Overlay;
    OverlayGrow(L.customers, locks.customers, more.customers);
    OverlayGrow(L.lines, locks.lines, more.lines);
    OverlayGrow(L.payments, locks.payments, more.payments);
    OverlayGrow(L.borrowings, locks.borrowings, more.borrowings);
  }

  /** A commit on other rows leaves the copies as they were. */
  lemma CopiesUnaffected(L: Ledger, other: Ledger, theirs: Rows, mine: Rows)
    requires mine.Disjoint(theirs)
    ensures Copies(Install(L, other, theirs), mine) == Copies(L, mine)
  {
    hide Overlay;
    OverlayOther(L.customers, other.customers, theirs.customers, mine.customers);
    OverlayOther(L.lines, other.lines, theirs.lines, mine.lines);
    OverlayOther(L.payments, other.payments, theirs.payments, mine.payments);
    OverlayOther(L.borrowings, other.borrowings, theirs.borrowings, mine.borrowings);
  }

  // ---- Row updates commute with installing ------------------------------------------------------

  lemma InstallPutCustomer(big: Ledger, small: Ledger, locks: Rows, c: Id, row: Customer)
    requires c in locks.customers
    ensures Install(big, PutCustomer(small, c, row), locks) == PutCustomer(Install(big, small, locks), c, row)
  {
    hide Overlay;
    OverlayPut(big.customers, small.customers, locks.customers, c, row);
  }

  lemma InstallPutLine(big: Ledger, small: Ledger, locks: Rows, l: Id, row: CreditLine)
    requires l in locks.lines
    ensures Install(big, PutLine(small, l, row), locks) == PutLine(Install(big, small, locks), l, row)
  {
    hide Overlay;
    OverlayPut(big.lines, small.lines, locks.lines, l, row);
  }

  lemma InstallPutPayment(big: Ledger, small: Ledger, locks: Rows, p: Id, row: Payment)
    requires p in locks.payments
    ensures Install(big, PutPayment(small, p, row), locks) == PutPayment(Install(big, small, locks), p, row)
  {
    hide Overlay;
    OverlayPut(big.payments, small.payments, locks.payments, p, row);
  }

  lemma InstallPutBorrowing(big: Ledger, small: Ledger, locks: Rows, b: Id, row: Borrowing)
    requires b in locks.borrowings
    ensures Install(big, PutBorrowing(small, b, row), locks) == PutBorrowing(Install(big, small, locks), b, row)
  {
    hide Overlay;
    OverlayPut(big.borrowings, small.borrowings, locks.borrowings, b, row);
  }

  lemma InstallDropPayments(big: Ledger, small: Ledger, locks: Rows, ps: set<Id>)
    requires ps <= locks.payments
    ensures Install(big, small.(payments := small.payments - ps), locks)
         == Install(big, small, locks).(payments := Install(big, small, locks).payments - ps)
  {
    hide Overlay;
    OverlayDrop(big.payments, small.payments, locks.payments, ps);
  }

  lemma InstallDropLine(big: Ledger, small: Ledger, locks: Rows, l: Id)
    requires l in locks.lines
    ensures Install(big, small.(lines := small.lines - {l}), locks)
         == Install(big, small, locks).(lines := Install(big, small, locks).lines - {l})
  {
    hide Overlay;
    OverlayDrop(big.lines, small.lines, locks.lines, {l});
  }

  lemma InstallDropBorrowing(big: Ledger, small: Ledger, locks: Rows, b: Id)
    requires b in locks.borrowings
    ensures Install(big, small.(borrowings := small.borrowings - {b}), locks)
         == Install(big, small, locks).(borrowings := Install(big, small, locks).borrowings - {b})
  {
    hide Overlay;
    OverlayDrop(big.borrowings, small.borrowings, locks.borrowings, {b});
  }
}
