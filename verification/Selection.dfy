/** Ordered selection from a set of ids. */
module Selection {

  /** The ids of a sequence. */
  function Members(ids: seq<int>): set<int> {
    set id | id in ids
  }

  method PickAny<T(==)>(c: set<T>) returns (y: T)
    requires c != {}
    ensures y in c
  {
    y :| y in c;
  }

  lemma {:induction false} Member<T>(c: set<T>) returns (y: T)
    requires c != {}
    ensures y in c
  {
    y :| y in c;
  }

  lemma {:induction false} LeastExists(c: set<int>)
    requires c != {}
    ensures exists m :: m in c && forall x | x in c :: m <= x
  {
    var y := Member(c);
    if c != {y} {
      var rest := c - {y};
      assert c == rest + {y};
      LeastExists(rest);
      var m :| m in rest && forall x | x in rest :: m <= x;
      var least := if m <= y then m else y;
      assert least in c && forall x | x in c :: least <= x;
    }
  }

  /** `ids` is what `ORDER BY id LIMIT n` returns from `c`. */
  predicate IsSmallest(c: set<int>, n: nat, ids: seq<int>) {
    && |ids| == (if |c| < n then |c| else n)
    && (forall i | 0 <= i < |ids| :: ids[i] in c)
    && (forall i, j | 0 <= i < j < |ids| :: ids[i] < ids[j])
    && (forall x, i | x in c && x !in ids && 0 <= i < |ids| :: ids[i] < x)
  }

  lemma {:induction false} LeastFirst(c: set<int>, n: nat, m: int, rest: seq<int>)
    requires n > 0 && m in c && (forall x | x in c :: m <= x) && IsSmallest(c - {m}, n - 1, rest)
    ensures IsSmallest(c, n, [m] + rest)
  {
    assert c == {m} + (c - {m});
    assert forall i | 0 <= i < |rest| :: m < rest[i];
  }

  /** The smallest `n` members of a set, in ascending order: `ORDER BY id LIMIT n`. */
  function Smallest(c: set<int>, n: nat): (ids: seq<int>)
    ensures IsSmallest(c, n, ids)
  {
    if c == {} || n == 0 then []
    else
      LeastExists(c);
      var m :| m in c && forall x | x in c :: m <= x;
      var rest := Smallest(c - {m}, n - 1);
      LeastFirst(c, n, m, rest);
      [m] + rest
  }

  lemma {:induction false} SmallestIsUnique(c: set<int>, n: nat, ids: seq<int>)
    requires IsSmallest(c, n, ids)
    ensures ids == Smallest(c, n)
    decreases n
  {
    if ids != [] {
      var least := Smallest(c, n)[0];
      assert ids[0] == least;
      var rest := c - {least};
      assert |rest| == |c| - 1;
      forall x, i | x in rest && x !in ids[1..] && 0 <= i < |ids| - 1
        ensures ids[1..][i] < x
      {
        assert x !in ids;
      }
      SmallestIsUnique(rest, n - 1, ids[1..]);
    }
  }

  /** The first `n` members stay the first when only others are taken away. */
  lemma {:induction false} SmallestOfSubset(c: set<int>, d: set<int>, n: nat)
    requires d <= c && forall i | 0 <= i < |Smallest(c, n)| :: Smallest(c, n)[i] in d
    ensures Smallest(d, n) == Smallest(c, n)
  {
    var ids := Smallest(c, n);
    SizeOfMembers(ids);
    SubsetSize(Members(ids), d);
    SubsetSize(d, c);
    SmallestIsUnique(d, n, ids);
  }

  /** Distinct ids make a set of the same size. */
  lemma {:induction false} SizeOfMembers(ids: seq<int>)
    requires forall i, j | 0 <= i < j < |ids| :: ids[i] < ids[j]
    ensures |Members(ids)| == |ids|
  {
    if ids != [] {
      SizeOfMembers(ids[1..]);
      assert Members(ids) == {ids[0]} + Members(ids[1..]);
    }
  }

  lemma {:induction false} SubsetSize(a: set<int>, b: set<int>)
    requires a <= b
    ensures |a| <= |b|
  {
    assert b == a + (b - a);
  }
}
