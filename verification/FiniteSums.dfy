/** Sums of integers over the rows of a table (a finite map from row id to value). */
module FiniteSums {

  type Id = nat

  datatype Option<+T> = None | Some(value: T)

  /** The value at a key, with 0 for a missing row. */
  function At(m: map<Id, int>, k: Id): int {
    if k in m then m[k] else 0
  }

  /** A fold that visits the rows in some order. */
  ghost function Fold(m: map<Id, int>): int
    decreases |m|
  {
    if m == map[] then 0 else
      var k :| k in m;
      m[k] + Fold(m - {k})
  }

  /** The result does not depend on the order of the visit. */
  lemma {:induction false} FoldDrop(m: map<Id, int>, k: Id)
    ensures Fold(m - {k}) == Fold(m) - At(m, k)
    decreases |m|
  {
    if k !in m {
      assert m - {k} == m;
    } else {
      var c :| c in m && Fold(m) == m[c] + Fold(m - {c});
      if c != k {
        FoldDrop(m - {c}, k);
        FoldDrop(m - {k}, c);
        assert m - {c} - {k} == m - {k} - {c};
      }
    }
  }

  /** What it is to be a sum: nothing for the empty table, and linear in each row. */
  ghost predicate IsSum(f: map<Id, int> -> int) {
    && f(map[]) == 0
    && forall m: map<Id, int>, k: Id :: f(m - {k}) == f(m) - At(m, k)
  }

  /** The sum of a table, known by its two laws only. */
  ghost function Sum(m: map<Id, int>): int {
    assert IsSum(Fold) by {
      forall m: map<Id, int>, k: Id ensures Fold(m - {k}) == Fold(m) - At(m, k) { FoldDrop(m, k); }
    }
    var f :| IsSum(f);
    f(m)
  }

  lemma SumEmpty()
    ensures Sum(map[]) == 0
  {
  }

  lemma SumDrop(m: map<Id, int>, k: Id)
    ensures Sum(m - {k}) == Sum(m) - At(m, k)
  {
  }

  lemma SumPut(m: map<Id, int>, k: Id, v: int)
    ensures Sum(m[k := v]) == Sum(m) - At(m, k) + v
  {
    SumDrop(m[k := v], k);
    SumDrop(m, k);
    assert m[k := v] - {k} == m - {k};
  }

  /** Splitting the rows in two splits the sum. */
  lemma {:induction false} SumSplit(m: map<Id, int>, part: set<Id>)
    ensures Sum(m) == Sum(map k | k in m && k in part :: m[k]) + Sum(m - part)
    decreases |m|
  {
    var inside := map k | k in m && k in part :: m[k];
    if m == map[] {
      assert inside == map[] && m - part == map[];
    } else {
      var k :| k in m;
      var rest := m - {k};
      SumSplit(rest, part);
      SumDrop(m, k);
      SumDrop(inside, k);
      SumDrop(m - part, k);
      assert (map j | j in rest && j in part :: rest[j]) == inside - {k};
      assert rest - part == (m - part) - {k};
    }
  }

  /** Row-wise subtraction. */
  lemma {:induction false} SumDifference(a: map<Id, int>, b: map<Id, int>, c: map<Id, int>)
    requires a.Keys == b.Keys == c.Keys
    requires forall k :: k in c ==> c[k] == a[k] - b[k]
    ensures Sum(c) == Sum(a) - Sum(b)
    decreases |c|
  {
    if c == map[] {
      assert a == map[] && b == map[];
    } else {
      var k :| k in c;
      SumDrop(a, k);
      SumDrop(b, k);
      SumDrop(c, k);
      SumDifference(a - {k}, b - {k}, c - {k});
    }
  }

  /** Scaling every row scales the sum. */
  lemma {:induction false} SumScale(a: map<Id, int>, c: map<Id, int>, w: int)
    requires a.Keys == c.Keys
    requires forall k :: k in c ==> c[k] == w * a[k]
    ensures Sum(c) == w * Sum(a)
    decreases |c|
  {
    if c == map[] {
      assert a == map[];
    } else {
      var k :| k in c;
      SumDrop(a, k);
      SumDrop(c, k);
      SumScale(a - {k}, c - {k}, w);
      assert w * (Sum(a) - a[k]) == w * Sum(a) - w * a[k];
    }
  }

  lemma {:induction false} SumNonNegative(m: map<Id, int>)
    requires forall k :: k in m ==> 0 <= m[k]
    ensures 0 <= Sum(m)
    ensures forall k :: k in m ==> m[k] <= Sum(m)
    decreases |m|
  {
    if m != map[] {
      var k :| k in m;
      SumNonNegative(m - {k});
      SumDrop(m, k);
      forall j | j in m ensures m[j] <= Sum(m) {
        if j != k { assert j in m - {k}; }
      }
    }
  }

  lemma {:induction false} SumZero(m: map<Id, int>)
    requires forall k :: k in m ==> m[k] == 0
    ensures Sum(m) == 0
    decreases |m|
  {
    if m != map[] {
      var k :| k in m;
      SumZero(m - {k});
      SumDrop(m, k);
    }
  }

  /** The rows owned by `o`, keeping every key and zeroing the others. */
  function OwnedBy(v: map<Id, int>, owner: map<Id, Id>, o: Id): map<Id, int> {
    map k | k in v :: if k in owner && owner[k] == o then v[k] else 0
  }

  /** What row `k` contributes to the sum over the rows of `o`. */
  function Share(v: map<Id, int>, owner: map<Id, Id>, o: Id, k: Id): int {
    if k in v && k in owner && owner[k] == o then v[k] else 0
  }

  lemma OwnedByDrop(v: map<Id, int>, owner: map<Id, Id>, o: Id, k: Id)
    ensures Sum(OwnedBy(v - {k}, owner, o)) == Sum(OwnedBy(v, owner, o)) - Share(v, owner, o, k)
    ensures Sum(OwnedBy(v - {k}, owner - {k}, o)) == Sum(OwnedBy(v, owner, o)) - Share(v, owner, o, k)
  {
    SumDrop(OwnedBy(v, owner, o), k);
    assert OwnedBy(v - {k}, owner, o) == OwnedBy(v, owner, o) - {k};
    assert OwnedBy(v - {k}, owner - {k}, o) == OwnedBy(v, owner, o) - {k};
  }

  lemma OwnedByPut(v: map<Id, int>, owner: map<Id, Id>, o: Id, k: Id, x: int, w: Id)
    ensures Sum(OwnedBy(v[k := x], owner[k := w], o))
         == Sum(OwnedBy(v, owner, o)) - Share(v, owner, o, k) + (if w == o then x else 0)
  {
    SumPut(OwnedBy(v, owner, o), k, if w == o then x else 0);
    assert OwnedBy(v[k := x], owner[k := w], o) == OwnedBy(v, owner, o)[k := if w == o then x else 0];
  }

  lemma OwnedByRemove(v: map<Id, int>, owner: map<Id, Id>, o: Id, gone: set<Id>)
    ensures OwnedBy(v - gone, owner - gone, o) == OwnedBy(v, owner, o) - gone
  {
  }

  ghost predicate GroupSums(v: map<Id, int>, owner: map<Id, Id>, groups: map<Id, int>) {
    forall o :: o in groups ==> groups[o] == Sum(OwnedBy(v, owner, o))
  }

  lemma GroupSumsDrop(v: map<Id, int>, owner: map<Id, Id>, groups: map<Id, int>, k: Id)
    requires k in v && k in owner && owner[k] in groups && GroupSums(v, owner, groups)
    ensures GroupSums(v - {k}, owner, groups[owner[k] := groups[owner[k]] - v[k]])
  {
    forall o | o in groups
      ensures (if o == owner[k] then groups[o] - v[k] else groups[o]) == Sum(OwnedBy(v - {k}, owner, o))
    {
      OwnedByDrop(v, owner, o, k);
    }
  }

  /** Grouping the rows by owner and summing the groups gives the total:
      the exchange of the two summations behind every per-owner balance. */
  lemma {:induction false} SumByOwner(v: map<Id, int>, owner: map<Id, Id>, groups: map<Id, int>)
    requires forall k :: k in v ==> k in owner && owner[k] in groups
    requires GroupSums(v, owner, groups)
    ensures Sum(groups) == Sum(v)
    decreases |v|
  {
    if v == map[] {
      forall o | o in groups ensures groups[o] == 0 {
        assert OwnedBy(v, owner, o) == map[];
      }
      SumZero(groups);
    } else {
      var k :| k in v;
      var smaller := groups[owner[k] := groups[owner[k]] - v[k]];
      GroupSumsDrop(v, owner, groups, k);
      SumByOwner(v - {k}, owner, smaller);
      SumPut(groups, owner[k], smaller[owner[k]]);
      SumDrop(v, k);
    }
  }
}
