/** What a submitted collection form records: entry by entry, in order, and with what amount. */
module CollectionEntries {
  import opened FiniteSums
  import opened Ledger
  import opened LedgerProofs
  import opened LedgerEffects
  import opened RowEffects
  import opened DebtViews
  import opened Station

  // ---- What counts -------------------------------------------------------------------------------------------

  /** A payment entry that names a line and is not all zero. */
  predicate Pays(raw: RawPayment) { raw.line.Some? && !(raw.units == 0 && raw.amount == 0) }

  /** A return entry that names a borrowing and is not zero. */
  predicate Returns(raw: RawReturn) { raw.borrowing.Some? && raw.qty != 0 }

  function PayingEntries(raws: seq<RawPayment>): seq<RawPayment> {
    if raws == [] then [] else
    PayingEntries(raws[..|raws| - 1]) + (if Pays(raws[|raws| - 1]) then [raws[|raws| - 1]] else [])
  }

  function ReturningEntries(raws: seq<RawReturn>): seq<RawReturn> {
    if raws == [] then [] else
    ReturningEntries(raws[..|raws| - 1]) + (if Returns(raws[|raws| - 1]) then [raws[|raws| - 1]] else [])
  }

  /** A date field that was left empty or holds a day no later than today, and the day it stands for. */
  predicate DateOk(f: DateField, today: int) { f.Blank? || (f.On? && f.day <= today) }

  function DayOf(f: DateField, today: int): int { if f.On? then f.day else today }

  // ---- Payments ----------------------------------------------------------------------------------------------

  /** The entry can be recorded for the customer: a line of the customer and company with that many units open. */
  predicate PaymentGood(L: Ledger, co: Id, c: Id, today: int, raw: RawPayment) {
    && raw.line.Some? && 0 <= raw.units && 0 <= raw.amount && DateOk(raw.at, today)
    && raw.line.value in L.lines && L.lines[raw.line.value].customer == c && L.lines[raw.line.value].company == co
    && raw.units <= L.lines[raw.line.value].remaining
  }

  /** The recorded entry says what was submitted: line, units and date, the typed amount when there is one, and
      otherwise the units at the line's price. */
  predicate PaymentAs(L: Ledger, today: int, raw: RawPayment, e: PayEntry) {
    && raw.line.Some? && raw.line.value in L.lines
    && e.line == raw.line.value && e.units == raw.units && e.at == DayOf(raw.at, today)
    && e.amount == (if raw.amount > 0 then raw.amount else raw.units * L.lines[raw.line.value].price)
  }

  ghost predicate PaymentsAs(L: Ledger, today: int, raws: seq<RawPayment>, es: seq<PayEntry>) {
    |es| == |raws| && forall i :: 0 <= i < |raws| ==> PaymentAs(L, today, raws[i], es[i])
  }

  ghost predicate AllPaymentsGood(L: Ledger, co: Id, c: Id, today: int, raws: seq<RawPayment>) {
    forall i :: 0 <= i < |raws| ==> PaymentGood(L, co, c, today, raws[i])
  }

  lemma OnePayment(L: Ledger, co: Id, c: Id, today: int, raw: RawPayment, key: Id)
    ensures var r := ParsePayment(L, co, c, today, raw, key);
      && (!Pays(raw) <==> r == Ok(None))
      && (Pays(raw) ==> (r.Ok? <==> PaymentGood(L, co, c, today, raw)))
      && (Pays(raw) && r.Ok? ==> r.value.Some? && PaymentAs(L, today, raw, r.value.value) && r.value.value.id == key)
  {
    if raw.line.Some? && raw.line.value in L.lines && raw.units == 0 { assert raw.units * L.lines[raw.line.value].price == 0; }
  }

  lemma PaymentsSnoc(L: Ledger, co: Id, c: Id, today: int, raws: seq<RawPayment>, raw: RawPayment)
    ensures AllPaymentsGood(L, co, c, today, raws + [raw])
       <==> AllPaymentsGood(L, co, c, today, raws) && PaymentGood(L, co, c, today, raw)
  {
    hide PaymentGood;
    var all := raws + [raw];
    if AllPaymentsGood(L, co, c, today, all) {
      forall i | 0 <= i < |raws| ensures PaymentGood(L, co, c, today, raws[i]) { assert all[i] == raws[i]; }
      assert all[|raws|] == raw;
    }
  }

  lemma NoPayments(L: Ledger, co: Id, c: Id, today: int)
    ensures AllPaymentsGood(L, co, c, today, []) && PaymentsAs(L, today, [], [])
  {
  }

  lemma PaymentsAsSnoc(L: Ledger, today: int, raws: seq<RawPayment>, es: seq<PayEntry>, raw: RawPayment, e: PayEntry)
    requires PaymentsAs(L, today, raws, es) && PaymentAs(L, today, raw, e)
    ensures PaymentsAs(L, today, raws + [raw], es + [e]) && |es| == |raws|
  {
    hide PaymentAs;
  }

  /** The payment entries of a form are read exactly when every counting one is good, and then each counting entry is
      recorded once, in order, under consecutive keys. */
  lemma {:induction false} PaymentEntries(L: Ledger, co: Id, c: Id, today: int, raws: seq<RawPayment>, key: Id)
    ensures var r := ParsePayments(L, co, c, today, raws, key);
      && (r.Ok? <==> AllPaymentsGood(L, co, c, today, PayingEntries(raws)))
      && (r.Ok? ==> PaymentsAs(L, today, PayingEntries(raws), r.value))
      && (r.Ok? ==> forall i :: 0 <= i < |r.value| ==> r.value[i].id == key + i)
  {
    hide PaymentGood, PaymentAs, ParsePayment, Pays, PaymentsAs, AllPaymentsGood;
    if raws == [] {
      NoPayments(L, co, c, today);
    } else {
      var init, raw := raws[..|raws| - 1], raws[|raws| - 1];
      PaymentEntries(L, co, c, today, init, key);
      var before := ParsePayments(L, co, c, today, init, key);
      PaymentsSnoc(L, co, c, today, PayingEntries(init), raw);
      assert PayingEntries(raws) == if Pays(raw) then PayingEntries(init) + [raw] else PayingEntries(init);
      if before.Ok? {
        OnePayment(L, co, c, today, raw, key + |before.value|);
        var one := ParsePayment(L, co, c, today, raw, key + |before.value|);
        if Pays(raw) && one.Ok? { PaymentsAsSnoc(L, today, PayingEntries(init), before.value, raw, one.value.value); }
      }
    }
  }

  // ---- Returns -----------------------------------------------------------------------------------------------

  predicate ReturnGood(L: Ledger, co: Id, c: Id, today: int, raw: RawReturn) {
    && raw.borrowing.Some? && 0 <= raw.qty && DateOk(raw.at, today)
    && raw.borrowing.value in L.borrowings && L.borrowings[raw.borrowing.value].customer == c
    && L.borrowings[raw.borrowing.value].company == co
    && raw.qty <= L.borrowings[raw.borrowing.value].borrowed - L.borrowings[raw.borrowing.value].returned
  }

  predicate ReturnAs(today: int, raw: RawReturn, e: ReturnEntry) {
    raw.borrowing == Some(e.borrowing) && e.qty == raw.qty && e.at == DayOf(raw.at, today)
  }

  ghost predicate ReturnsAs(today: int, raws: seq<RawReturn>, rs: seq<ReturnEntry>) {
    |rs| == |raws| && forall i :: 0 <= i < |raws| ==> ReturnAs(today, raws[i], rs[i])
  }

  ghost predicate AllReturnsGood(L: Ledger, co: Id, c: Id, today: int, raws: seq<RawReturn>) {
    forall i :: 0 <= i < |raws| ==> ReturnGood(L, co, c, today, raws[i])
  }

  lemma OneReturn(L: Ledger, co: Id, c: Id, today: int, raw: RawReturn)
    ensures var r := ParseReturn(L, co, c, today, raw);
      && (!Returns(raw) <==> r == Ok(None))
      && (Returns(raw) ==> (r.Ok? <==> ReturnGood(L, co, c, today, raw)))
      && (Returns(raw) && r.Ok? ==> r.value.Some? && ReturnAs(today, raw, r.value.value))
  {
  }

  lemma ReturnsSnoc(L: Ledger, co: Id, c: Id, today: int, raws: seq<RawReturn>, raw: RawReturn)
    ensures AllReturnsGood(L, co, c, today, raws + [raw])
       <==> AllReturnsGood(L, co, c, today, raws) && ReturnGood(L, co, c, today, raw)
  {
    hide ReturnGood;
    var all := raws + [raw];
    if AllReturnsGood(L, co, c, today, all) {
      forall i | 0 <= i < |raws| ensures ReturnGood(L, co, c, today, raws[i]) { assert all[i] == raws[i]; }
      assert all[|raws|] == raw;
    }
  }

  lemma NoReturns(L: Ledger, co: Id, c: Id, today: int)
    ensures AllReturnsGood(L, co, c, today, []) && ReturnsAs(today, [], [])
  {
  }

  lemma ReturnsAsSnoc(today: int, raws: seq<RawReturn>, rs: seq<ReturnEntry>, raw: RawReturn, e: ReturnEntry)
    requires ReturnsAs(today, raws, rs) && ReturnAs(today, raw, e)
    ensures ReturnsAs(today, raws + [raw], rs + [e])
  {
    hide ReturnAs;
  }

  /** The same for the returns of a form. */
  lemma {:induction false} ReturnEntries(L: Ledger, co: Id, c: Id, today: int, raws: seq<RawReturn>)
    ensures var r := ParseReturns(L, co, c, today, raws);
      && (r.Ok? <==> AllReturnsGood(L, co, c, today, ReturningEntries(raws)))
      && (r.Ok? ==> ReturnsAs(today, ReturningEntries(raws), r.value))
  {
    hide ReturnGood, ReturnAs, ParseReturn, Returns, ReturnsAs, AllReturnsGood;
    if raws == [] {
      NoReturns(L, co, c, today);
    } else {
      var init, raw := raws[..|raws| - 1], raws[|raws| - 1];
      ReturnEntries(L, co, c, today, init);
      OneReturn(L, co, c, today, raw);
      ReturnsSnoc(L, co, c, today, ReturningEntries(init), raw);
      assert ReturningEntries(raws) == if Returns(raw) then ReturningEntries(init) + [raw] else ReturningEntries(init);
      var before, one := ParseReturns(L, co, c, today, init), ParseReturn(L, co, c, today, raw);
      if before.Ok? && Returns(raw) && one.Ok? { ReturnsAsSnoc(today, ReturningEntries(init), before.value, raw, one.value.value); }
    }
  }

  // ---- The whole form ----------------------------------------------------------------------------------------

  /** A collection form is read exactly when the customer is an active one of the company, every counting entry is good
      and some entry counts; and what is read is every counting entry, in order. */
  lemma FormIsRead(L: Ledger, co: Id, c: Id, today: int, returned: seq<RawReturn>, paid: seq<RawPayment>, key: Id)
    ensures var r, rs, es := ParseCollection(L, co, c, today, returned, paid, key), ReturningEntries(returned), PayingEntries(paid);
      && (r.Ok? <==> c in L.customers && L.customers[c].company == co && !L.customers[c].deleted
                     && AllReturnsGood(L, co, c, today, rs) && AllPaymentsGood(L, co, c, today, es) && |rs| + |es| > 0)
      && (r.Ok? ==> ReturnsAs(today, rs, r.value.0) && PaymentsAs(L, today, es, r.value.1)
                    && forall i :: 0 <= i < |es| ==> r.value.1[i].id == key + i)
  {
    PaymentEntries(L, co, c, today, paid, key);
    ReturnEntries(L, co, c, today, returned);
    hide ParsePayments, ParseReturns, PayingEntries, ReturningEntries, AllPaymentsGood, AllReturnsGood, PaymentAs, ReturnAs;
  }

  // ---- The two views of a debt -------------------------------------------------------------------------------

  /** What the stored balance says beyond the value of the open units. */
  ghost function Gap(L: Ledger, c: Id): int
    requires c in L.customers
  {
    L.customers[c].debt - Sum(OpenValue(L, c))
  }

  /** Units at the line's price, less the money recorded for them. */
  function Missing(L: Ledger, e: PayEntry): int
    requires e.line in L.lines
  {
    e.units * L.lines[e.line].price - e.amount
  }

  function AllMissing(L: Ledger, es: seq<PayEntry>): int
    requires forall i :: 0 <= i < |es| ==> es[i].line in L.lines
  {
    if es == [] then 0 else AllMissing(L, es[..|es| - 1]) + Missing(L, es[|es| - 1])
  }

  function ShortWith(L: Ledger, c: Id, es: seq<PayEntry>): map<Id, int>
    requires LinesExist(L) && forall i :: 0 <= i < |es| ==> es[i].line in L.lines
  {
    if es == [] then Shortfall(L, c) else ShortWith(L, c, es[..|es| - 1])[es[|es| - 1].id := Missing(L, es[|es| - 1])]
  }

  lemma {:induction false} ShortWithSum(L: Ledger, c: Id, es: seq<PayEntry>)
    requires LinesExist(L) && FreshKeys(L, es) && forall i :: 0 <= i < |es| ==> es[i].line in L.lines
    ensures Sum(ShortWith(L, c, es)) == Sum(Shortfall(L, c)) + AllMissing(L, es)
    ensures forall p :: p in ShortWith(L, c, es) <==> p in L.payments || exists i :: 0 <= i < |es| && es[i].id == p
    ensures forall p :: p in L.payments ==> ShortWith(L, c, es)[p] == Shortfall(L, c)[p]
    ensures forall i :: 0 <= i < |es| ==> ShortWith(L, c, es)[es[i].id] == Missing(L, es[i])
  {
    if es != [] {
      var init, e := es[..|es| - 1], es[|es| - 1];
      ShortWithSum(L, c, init);
      SumPut(ShortWith(L, c, init), e.id, Missing(L, e));
      assert forall i :: 0 <= i < |init| ==> init[i] == es[i];
      hide Missing, Shortfall;
    }
  }

  lemma ShortAfter(L: Ledger, R: Ledger, op: Op)
    requires op.CollectOp? && LinesExist(L) && LinesExist(R) && FreshKeys(L, op.es)
    requires forall i :: 0 <= i < |op.es| ==>
      op.es[i].line in L.lines && L.lines[op.es[i].line].customer == op.c
      && op.es[i].id in R.payments && RecordedAs(op, i, R.payments[op.es[i].id])
    requires forall p :: p in L.payments ==> p in R.payments && R.payments[p] == L.payments[p]
    requires forall p :: p in R.payments ==> p in L.payments || exists i :: 0 <= i < |op.es| && op.es[i].id == p
    requires forall l :: l in L.lines ==> l in R.lines && R.lines[l].price == L.lines[l].price && R.lines[l].customer == L.lines[l].customer
    ensures Shortfall(R, op.c) == ShortWith(L, op.c, op.es)
  {
    hide *;
    ShortWithSum(L, op.c, op.es);
    var a, b := Shortfall(R, op.c), ShortWith(L, op.c, op.es);
    ShortKeys(R, op.c);
    forall p | p in R.payments ensures p in b && a[p] == b[p] {
      if p in L.payments {
        ShortOfOld(L, R, op.c, p);
      } else {
        var i :| 0 <= i < |op.es| && op.es[i].id == p;
        ShortOfNew(L, R, op, i);
      }
    }
    assert b.Keys == R.payments.Keys;
  }

  lemma ShortKeys(L: Ledger, c: Id)
    requires LinesExist(L)
    ensures Shortfall(L, c).Keys == L.payments.Keys
  {
  }

  lemma ShortOfOld(L: Ledger, R: Ledger, c: Id, p: Id)
    requires LinesExist(L) && LinesExist(R) && p in L.payments && p in R.payments && R.payments[p] == L.payments[p]
    requires forall l :: l in L.lines ==> l in R.lines && R.lines[l].price == L.lines[l].price && R.lines[l].customer == L.lines[l].customer
    ensures Shortfall(R, c)[p] == Shortfall(L, c)[p]
  {
  }

  lemma ShortOfNew(L: Ledger, R: Ledger, op: Op, i: nat)
    requires op.CollectOp? && LinesExist(R) && i < |op.es| && op.es[i].line in L.lines && op.es[i].line in R.lines
    requires L.lines[op.es[i].line].customer == op.c && R.lines[op.es[i].line].customer == op.c
    requires R.lines[op.es[i].line].price == L.lines[op.es[i].line].price
    requires op.es[i].id in R.payments && RecordedAs(op, i, R.payments[op.es[i].id])
    ensures Shortfall(R, op.c)[op.es[i].id] == Missing(L, op.es[i])
  {
  }

  /** A collection moves the gap between the two views by what its entries leave missing or pay too much at the prices of
      their lines, and by nothing else. */
  lemma CollectionGap(L: Ledger, op: Op)
    requires Inv(L) && Priced(L) && op.CollectOp? && ValidOp(op) && Apply(L, op).Ok?
    ensures op.c in L.customers && op.c in Apply(L, op).value.customers
    ensures forall i :: 0 <= i < |op.es| ==> op.es[i].line in L.lines
    ensures Gap(Apply(L, op).value, op.c) == Gap(L, op.c) + AllMissing(L, op.es)
  {
    hide *;
    ApplyIsCollect(L, op);
    var R := Collect(L, op.co, op.c, op.now, op.rs, op.es).value;
    ApplyKeepsInv(L, op);
    ApplyKeepsPrices(L, op);
    CollectionWrites(L, op);
    CollectRows(L, op.co, op.c, op.now, op.rs, op.es);
    CollectBalances(L, op.co, op.c, op.now, op.rs, op.es);
    PaidOnOwnLines(L, op);
    DebtViewsDiffer(L, op.c);
    DebtViewsDiffer(R, op.c);
    GapIs(L, op.c);
    GapIs(R, op.c);
    ShortAfter(L, R, op);
    ShortWithSum(L, op.c, op.es);
  }

  lemma ApplyIsCollect(L: Ledger, op: Op)
    requires op.CollectOp? && Apply(L, op).Ok?
    ensures Apply(L, op) == Collect(L, op.co, op.c, op.now, op.rs, op.es)
  {
    hide Collect;
  }

  lemma GapIs(L: Ledger, c: Id)
    requires c in L.customers
    ensures Gap(L, c) == L.customers[c].debt - Sum(OpenValue(L, c))
  {
  }

  lemma PaidOnOwnLines(L: Ledger, op: Op)
    requires op.CollectOp? && Apply(L, op).Ok?
    ensures forall i :: 0 <= i < |op.es| ==> op.es[i].line in L.lines && L.lines[op.es[i].line].customer == op.c
  {
    hide ApplyReturns, ApplyPayments, BatchFits;
    forall i | 0 <= i < |op.es| ensures op.es[i].line in L.lines && L.lines[op.es[i].line].customer == op.c {
      assert PaymentFits(L, op.co, op.c, op.es[i]);
    }
  }

  /** What the typed amounts of a form leave missing. An entry without a typed amount leaves nothing. */
  function TypedMissing(L: Ledger, raws: seq<RawPayment>): int
    requires forall i :: 0 <= i < |raws| ==> raws[i].line.Some? && raws[i].line.value in L.lines
  {
    if raws == [] then 0 else
    var raw := raws[|raws| - 1];
    TypedMissing(L, raws[..|raws| - 1]) + (if raw.amount > 0 then raw.units * L.lines[raw.line.value].price - raw.amount else 0)
  }

  lemma {:induction false} MissingIsTyped(L: Ledger, today: int, raws: seq<RawPayment>, es: seq<PayEntry>)
    requires PaymentsAs(L, today, raws, es)
    ensures (forall i :: 0 <= i < |raws| ==> raws[i].line.Some? && raws[i].line.value in L.lines)
      && (forall i :: 0 <= i < |es| ==> es[i].line in L.lines)
    ensures AllMissing(L, es) == TypedMissing(L, raws)
  {
    forall i | 0 <= i < |raws| ensures raws[i].line.Some? && raws[i].line.value in L.lines && es[i].line in L.lines {
      assert PaymentAs(L, today, raws[i], es[i]);
    }
    if raws != [] {
      var n := |raws| - 1;
      forall i | 0 <= i < n ensures PaymentAs(L, today, raws[..n][i], es[..n][i]) { assert PaymentAs(L, today, raws[i], es[i]); }
      MissingIsTyped(L, today, raws[..n], es[..n]);
      assert PaymentAs(L, today, raws[n], es[n]);
    }
  }

  /** Recording a form moves the gap by its typed amounts alone: entries with units and no amount leave it unchanged. */
  lemma FormGap(L: Ledger, co: Id, c: Id, today: int, now: int, returned: seq<RawReturn>, paid: seq<RawPayment>, key: Id)
    requires Inv(L) && Priced(L) && ParseCollection(L, co, c, today, returned, paid, key).Ok?
    requires var (rs, es) := ParseCollection(L, co, c, today, returned, paid, key).value;
      ValidOp(CollectOp(co, c, now, rs, es)) && Apply(L, CollectOp(co, c, now, rs, es)).Ok?
    ensures forall i :: 0 <= i < |PayingEntries(paid)| ==>
      PayingEntries(paid)[i].line.Some? && PayingEntries(paid)[i].line.value in L.lines
    ensures var (rs, es) := ParseCollection(L, co, c, today, returned, paid, key).value;
      var R := Apply(L, CollectOp(co, c, now, rs, es)).value;
      c in L.customers && c in R.customers && Gap(R, c) == Gap(L, c) + TypedMissing(L, PayingEntries(paid))
  {
    hide *;
    var (rs, es) := ParseCollection(L, co, c, today, returned, paid, key).value;
    FormIsRead(L, co, c, today, returned, paid, key);
    CollectionGap(L, CollectOp(co, c, now, rs, es));
    MissingIsTyped(L, today, PayingEntries(paid), es);
  }

  lemma {:induction false} NothingTyped(L: Ledger, raws: seq<RawPayment>)
    requires forall i :: 0 <= i < |raws| ==> raws[i].line.Some? && raws[i].line.value in L.lines && raws[i].amount <= 0
    ensures TypedMissing(L, raws) == 0
  {
    if raws != [] { NothingTyped(L, raws[..|raws| - 1]); }
  }
}
