/** Row sets in insertion order, with the few query shapes the store uses. */
module Tables {
  import opened Bytes

  /** The first row that satisfies `p`. */
  function First<T>(rows: seq<T>, p: T -> bool): (i: Option<nat>)
    ensures i.Some? ==> i.value < |rows| && p(rows[i.value])
    ensures i.None? ==> forall k | 0 <= k < |rows| :: !p(rows[k])
    decreases |rows|
  {
    if rows == [] then None
    else
      var earlier := First(rows[..|rows| - 1], p);
      if earlier.Some? then earlier
      else if p(rows[|rows| - 1]) then Some(|rows| - 1) else None
  }

  /** How many rows an update with this condition changes. */
  function Count<T>(rows: seq<T>, p: T -> bool): nat
    decreases |rows|
  {
    if rows == [] then 0 else Count(rows[..|rows| - 1], p) + if p(rows[|rows| - 1]) then 1 else 0
  }

  lemma {:induction false} CountNone<T>(rows: seq<T>, p: T -> bool)
    requires forall k | 0 <= k < |rows| :: !p(rows[k])
    ensures Count(rows, p) == 0
    decreases |rows|
  {
    if rows != [] {
      CountNone(rows[..|rows| - 1], p);
    }
  }

  lemma {:induction false} CountUnique<T>(rows: seq<T>, p: T -> bool, i: nat)
    requires i < |rows| && p(rows[i])
    requires forall k | 0 <= k < |rows| && k != i :: !p(rows[k])
    ensures Count(rows, p) == 1
    decreases |rows|
  {
    if i == |rows| - 1 {
      CountNone(rows[..|rows| - 1], p);
    } else {
      CountUnique(rows[..|rows| - 1], p, i);
    }
  }

  /** Rewrites every row that satisfies `p`. */
  function Update<T>(rows: seq<T>, p: T -> bool, f: T -> T): (r: seq<T>)
    ensures |r| == |rows|
    ensures forall i | 0 <= i < |rows| :: r[i] == if p(rows[i]) then f(rows[i]) else rows[i]
  {
    seq(|rows|, i requires 0 <= i < |rows| => if p(rows[i]) then f(rows[i]) else rows[i])
  }

  /** `COALESCE(MAX(key), 0)` over the rows. */
  function Highest<T>(rows: seq<T>, key: T -> int): int
    decreases |rows|
  {
    if rows == [] then 0
    else
      var earlier, last := Highest(rows[..|rows| - 1], key), key(rows[|rows| - 1]);
      if |rows| == 1 || last > earlier then last else earlier
  }

  /** Keys count the rows from one without gaps. */
  ghost predicate Numbered<T>(rows: seq<T>, key: T -> int) {
    forall i | 0 <= i < |rows| :: key(rows[i]) == i + 1
  }

  lemma {:induction false} HighestOfNumbered<T>(rows: seq<T>, key: T -> int)
    requires Numbered(rows, key)
    ensures Highest(rows, key) == |rows|
    decreases |rows|
  {
    if rows != [] {
      HighestOfNumbered(rows[..|rows| - 1], key);
    }
  }

  lemma UpdateUnique<T>(rows: seq<T>, p: T -> bool, f: T -> T, i: nat)
    requires i < |rows| && p(rows[i])
    requires forall k | 0 <= k < |rows| && k != i :: !p(rows[k])
    ensures Update(rows, p, f) == rows[i := f(rows[i])]
  {
  }
}
