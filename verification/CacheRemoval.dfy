/** The bounded removal of the audit cache in src/migration_rehearsal/final_runner.py. */
module CacheRemoval {
  import opened Sql

  const MAX_DEPTH: nat := 12
  const MAX_ENTRIES: nat := 4096
  const MAX_BYTES: nat := 64 * 1024 * 1024

  /** A directory lists its entries in the order in which a scan yields them. */
  datatype Node = File(size: nat) | Directory(entries: seq<Node>) | Special(link: bool)

  // ---------------------------------------------------------------- measures of a forest

  function Entries(forest: seq<Node>): nat {
    if forest == [] then 0
    else 1 + (if forest[0].Directory? then Entries(forest[0].entries) else 0) + Entries(forest[1..])
  }

  function Bytes(forest: seq<Node>): nat {
    if forest == [] then 0
    else
      (match forest[0]
       case File(size) => size
       case Directory(entries) => Bytes(entries)
       case Special(_) => 0)
      + Bytes(forest[1..])
  }

  function Specials(forest: seq<Node>): nat {
    if forest == [] then 0
    else
      (match forest[0]
       case File(_) => 0
       case Directory(entries) => Specials(entries)
       case Special(_) => 1)
      + Specials(forest[1..])
  }

  /** How many levels of directories a forest nests. */
  function Levels(forest: seq<Node>): nat {
    if forest == [] then 0
    else
      var here := if forest[0].Directory? then 1 + Levels(forest[0].entries) else 0;
      var rest := Levels(forest[1..]);
      if here > rest then here else rest
  }

  // ---------------------------------------------------------------- what may remain

  /** Some entries are gone, in some directories, and nothing else differs. */
  predicate Remains(left: seq<Node>, forest: seq<Node>)
    decreases forest
  {
    if forest == [] then left == []
    else
      || Remains(left, forest[1..])
      || (&& left != [] && Remains(left[1..], forest[1..])
          && if left[0].Directory? && forest[0].Directory? then Remains(left[0].entries, forest[0].entries)
             else left[0] == forest[0])
  }

  lemma {:induction false} AllRemains(forest: seq<Node>)
    ensures Remains(forest, forest)
  {
    if forest != [] {
      if forest[0].Directory? {
        AllRemains(forest[0].entries);
      }
      AllRemains(forest[1..]);
    }
  }

  lemma {:induction false} SuffixRemains(left: seq<Node>, forest: seq<Node>, i: nat)
    requires i <= |forest| && Remains(left, forest[i..])
    ensures Remains(left, forest)
  {
    if i > 0 {
      assert forest[1..][i - 1..] == forest[i..];
      SuffixRemains(left, forest[1..], i - 1);
    } else {
      assert forest[0..] == forest;
    }
  }

  // ---------------------------------------------------------------- the order of a scan

  function Without(forest: seq<Node>, j: nat): seq<Node>
    requires j < |forest|
  {
    forest[..j] + forest[j + 1..]
  }

  /** The same forest, scanned in another order in any of its directories. */
  ghost predicate Reordered(a: seq<Node>, b: seq<Node>)
    decreases a
  {
    if a == [] then b == []
    else
      exists j: nat ::
        && j < |b| && Reordered(a[1..], Without(b, j))
        && if a[0].Directory? && b[j].Directory? then Reordered(a[0].entries, b[j].entries) else a[0] == b[j]
  }

  function Max(a: nat, b: nat): nat {
    if a > b then a else b
  }

  lemma {:induction false} MeasuresOfCons(node: Node, rest: seq<Node>)
    ensures Entries([node] + rest) == Entries([node]) + Entries(rest)
    ensures Bytes([node] + rest) == Bytes([node]) + Bytes(rest)
    ensures Specials([node] + rest) == Specials([node]) + Specials(rest)
    ensures Levels([node] + rest) == Max(Levels([node]), Levels(rest))
  {
    assert ([node] + rest)[1..] == rest && [node][1..] == [];
  }

  lemma {:induction false} MeasuresWithout(b: seq<Node>, j: nat)
    requires j < |b|
    ensures Entries(b) == Entries([b[j]]) + Entries(Without(b, j))
    ensures Bytes(b) == Bytes([b[j]]) + Bytes(Without(b, j))
    ensures Specials(b) == Specials([b[j]]) + Specials(Without(b, j))
    ensures Levels(b) == Max(Levels([b[j]]), Levels(Without(b, j)))
  {
    var tail := b[1..];
    assert b == [b[0]] + tail;
    MeasuresOfCons(b[0], tail);
    if j == 0 {
      assert Without(b, 0) == tail;
    } else {
      MeasuresWithout(tail, j - 1);
      MeasuresOfCons(b[0], Without(tail, j - 1));
      assert Without(b, j) == [b[0]] + Without(tail, j - 1);
      assert tail[j - 1] == b[j];
    }
  }

  /** The limits do not depend on the order in which directories are scanned. */
  lemma {:induction false} OrderDoesNotMatter(a: seq<Node>, b: seq<Node>)
    requires Reordered(a, b)
    ensures Entries(a) == Entries(b) && Bytes(a) == Bytes(b) && Specials(a) == Specials(b) && Levels(a) == Levels(b)
    ensures forall depth, seen, bytes :: Fits(a, depth, seen, bytes) <==> Fits(b, depth, seen, bytes)
    decreases a
  {
    if a != [] {
      var j: nat :| j < |b| && Reordered(a[1..], Without(b, j))
        && if a[0].Directory? && b[j].Directory? then Reordered(a[0].entries, b[j].entries) else a[0] == b[j];
      OrderDoesNotMatter(a[1..], Without(b, j));
      if a[0].Directory? && b[j].Directory? {
        OrderDoesNotMatter(a[0].entries, b[j].entries);
      }
      MeasuresWithout(b, j);
      MeasuresWithout(a, 0);
      assert Without(a, 0) == a[1..];
    }
  }

  // ---------------------------------------------------------------- the removal

  /** What the limits leave room for, at a depth, after so many entries and bytes. */
  predicate Fits(forest: seq<Node>, depth: nat, seen: nat, bytes: nat) {
    && depth + Levels(forest) <= MAX_DEPTH
    && seen + Entries(forest) <= MAX_ENTRIES && bytes + Bytes(forest) <= MAX_BYTES
    && Specials(forest) == 0
  }

  class Remover {
    var seen: nat
    var totalBytes: nat

    constructor ()
      ensures seen == 0 && totalBytes == 0
    {
      seen, totalBytes := 0, 0;
    }

    /**
     `remove`. It succeeds exactly when the forest fits the limits, and then nothing is left; otherwise part of the
     forest is left, every special entry included, and no more than the limits was removed.
     */
    method Remove(forest: seq<Node>, depth: nat) returns (ok: bool, left: seq<Node>)
      requires seen <= MAX_ENTRIES && totalBytes <= MAX_BYTES
      modifies this
      ensures ok <==> Fits(forest, depth, old(seen), old(totalBytes))
      ensures ok ==> left == [] && seen == old(seen) + Entries(forest) && totalBytes == old(totalBytes) + Bytes(forest)
      ensures Remains(left, forest) && Specials(left) == Specials(forest)
      ensures old(seen) + Entries(forest) <= MAX_ENTRIES + Entries(left)
      ensures old(totalBytes) + Bytes(forest) <= MAX_BYTES + Bytes(left)
      decreases forest
    {
      if depth > MAX_DEPTH {
        AllRemains(forest);
        return false, forest;
      }
      var i := 0;
      while i < |forest|
        invariant 0 <= i <= |forest| && seen <= MAX_ENTRIES && totalBytes <= MAX_BYTES
        invariant Fits(forest, depth, old(seen), old(totalBytes)) <==> Fits(forest[i..], depth, seen, totalBytes)
        invariant seen + Entries(forest[i..]) == old(seen) + Entries(forest)
        invariant totalBytes + Bytes(forest[i..]) == old(totalBytes) + Bytes(forest)
        invariant Specials(forest[i..]) == Specials(forest)
      {
        left := forest[i..];
        AllRemains(left);
        SuffixRemains(left, forest, i);
        assert left[1..] == forest[i + 1..];
        seen := seen + 1;
        if seen > MAX_ENTRIES {
          return false, left;
        }
        match forest[i] {
          case Special(_) => return false, left;
          case File(size) =>
            totalBytes := totalBytes + size;
            if totalBytes > MAX_BYTES {
              return false, left;
            }
          case Directory(entries) =>
            var removed, inner := Remove(entries, depth + 1);
            if !removed {
              AllRemains(left[1..]);
              SuffixRemains([Directory(inner)] + left[1..], forest, i);
              MeasuresOfCons(Directory(inner), left[1..]);
              MeasuresOfCons(forest[i], left[1..]);
              assert left == [forest[i]] + left[1..];
              return false, [Directory(inner)] + left[1..];
            }
        }
        i := i + 1;
      }
      ok, left := true, [];
      SuffixRemains([], forest, i);
    }
  }

  /**
   `_remove_pip_audit_cache_at`. It succeeds exactly when there is no cache, or the cache is a directory without links
   and special entries and within the limits; then nothing is left. Otherwise part of the cache is left.
   */
  method RemoveCache(cache: Option<Node>) returns (ok: bool, left: Option<Node>)
    ensures ok <==>
            || cache.None?
            || (&& cache.value.Directory? && Levels(cache.value.entries) <= 11 && Entries(cache.value.entries) <= 4096
                && Bytes(cache.value.entries) <= 67108864 && Specials(cache.value.entries) == 0)
    ensures ok ==> left.None?
    ensures !ok ==> cache.Some? && left.Some? && Remains([left.value], [cache.value])
  {
    if cache.None? {
      return true, None;
    }
    if !cache.value.Directory? {
      AllRemains([cache.value]);
      return false, cache;
    }
    var remover := new Remover();
    var removed, inner := remover.Remove(cache.value.entries, 1);
    if !removed {
      assert Remains([], []);
      assert [Directory(inner)][1..] == [] && [cache.value][1..] == [];
      return false, Some(Directory(inner));
    }
    return true, None;
  }
}
