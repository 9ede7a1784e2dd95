/** The two figures the application shows for what a customer owes: the stored balance, and the
    value of the units still open on the customer's lines. They differ by a closed form. */
module DebtViews {
  import opened FiniteSums
  import opened Ledger
  import opened LedgerProofs

  /** Units still open on each of the customer's lines, at the line's current price. */
  function OpenValue(L: Ledger, c: Id): map<Id, int> {
    map l | l in L.lines :: if L.lines[l].customer == c then L.lines[l].remaining * L.lines[l].price else 0
  }

  /** Each of the customer's payments: its units at the line's current price, less the money paid. */
  function Shortfall(L: Ledger, c: Id): map<Id, int>
    requires LinesExist(L)
  {
    map p | p in L.payments ::
      var pay := L.payments[p];
      if L.lines[pay.line].customer == c then pay.containers * L.lines[pay.line].price - pay.amount else 0
  }

  function PaidValue(L: Ledger, c: Id): map<Id, int>
    requires LinesExist(L)
  {
    map p | p in L.payments ::
      var pay := L.payments[p];
      if L.lines[pay.line].customer == c then L.lines[pay.line].price * pay.containers else 0
  }

  ghost function PaidByLine(L: Ledger, c: Id): map<Id, int> {
    map l | l in L.lines :: if L.lines[l].customer == c then L.lines[l].price * UnitsPaid(L, l) else 0
  }

  /** Valuing payments one by one or line by line gives the same total. */
  lemma PaidValueByLine(L: Ledger, c: Id)
    requires LinesExist(L)
    ensures Sum(PaidByLine(L, c)) == Sum(PaidValue(L, c))
  {
    forall l | l in L.lines ensures PaidByLine(L, c)[l] == Sum(OwnedBy(PaidValue(L, c), LineOf(L), l)) {
      if L.lines[l].customer == c {
        SumScale(OwnedBy(Units(L), LineOf(L), l), OwnedBy(PaidValue(L, c), LineOf(L), l), L.lines[l].price);
      } else {
        SumZero(OwnedBy(PaidValue(L, c), LineOf(L), l));
      }
    }
    SumByOwner(PaidValue(L, c), LineOf(L), PaidByLine(L, c));
  }

  lemma LineOpenValue(L: Ledger, c: Id, l: Id)
    requires l in L.lines && PriceOk(L.lines[l]) && LineBalanced(L, l)
    ensures OpenValue(L, c)[l] == OwnedBy(Totals(L), Debtor(L), c)[l] - PaidByLine(L, c)[l]
  {
    var paid := UnitsPaid(L, l);
    hide UnitsPaid;
    var row := L.lines[l];
    assert (row.credited - paid) * row.price == row.credited * row.price - row.price * paid;
  }

  lemma OpenValueSum(L: Ledger, c: Id)
    requires Priced(L) && forall l :: l in L.lines ==> LineBalanced(L, l)
    ensures Sum(OpenValue(L, c)) == Sum(OwnedBy(Totals(L), Debtor(L), c)) - Sum(PaidByLine(L, c))
  {
    forall l | l in L.lines
      ensures OpenValue(L, c)[l] == OwnedBy(Totals(L), Debtor(L), c)[l] - PaidByLine(L, c)[l]
    {
      LineOpenValue(L, c, l);
    }
    hide UnitsPaid, LineBalanced, Priced;
    SumDifference(OwnedBy(Totals(L), Debtor(L), c), PaidByLine(L, c), OpenValue(L, c));
  }

  lemma ShortfallSum(L: Ledger, c: Id)
    requires LinesExist(L)
    ensures Sum(Shortfall(L, c)) == Sum(PaidValue(L, c)) - Sum(OwnedBy(Amounts(L), Payer(L), c))
  {
    SumDifference(PaidValue(L, c), OwnedBy(Amounts(L), Payer(L), c), Shortfall(L, c));
  }

  /** In every balanced ledger, also after line prices were edited, the stored balance exceeds the
      open value by the sum over payments of (units at the current price - money paid). */
  lemma DebtViewsDiffer(L: Ledger, c: Id)
    requires Inv(L) && Priced(L) && c in L.customers
    ensures LinesExist(L) && L.customers[c].debt - Sum(OpenValue(L, c)) == Sum(Shortfall(L, c))
  {
    assert LinesExist(L) by {
      forall p | p in L.payments ensures L.payments[p].line in L.lines { assert PaymentOk(L, L.payments[p]); }
    }
    assert CustomerBalanced(L, c);
    PaidValueByLine(L, c);
    OpenValueSum(L, c);
    ShortfallSum(L, c);
  }

  /** The two figures agree when every payment was exact at the current price. */
  lemma DebtViewsAgree(L: Ledger, c: Id)
    requires Inv(L) && Priced(L) && c in L.customers && LinesExist(L)
    requires forall p :: p in L.payments && L.lines[L.payments[p].line].customer == c ==>
      L.payments[p].amount == L.payments[p].containers * L.lines[L.payments[p].line].price
    ensures L.customers[c].debt == Sum(OpenValue(L, c))
  {
    DebtViewsDiffer(L, c);
    SumZero(Shortfall(L, c));
  }
}
