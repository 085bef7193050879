/**
 * The result slice both client operations fill in place (lambda/skyflow.go):
 * one slot per inbound row, addressed by the row's original position.
 */
module Slots {
  import opened Rows

  /** Every malformed row of `rows` holds its placeholder in `s`. */
  ghost predicate Placeholders(s: seq<OutRow>, rows: seq<seq<Value>>)
  {
    |s| == |rows| && forall r | 0 <= r < |rows| && !WellFormed(rows[r]) :: s[r] == OutRow(Position(r), MissingValue)
  }

  /** `after` differs from `before` only at the original positions of the items of `batch`. */
  ghost predicate OnlyAt(before: seq<OutRow>, after: seq<OutRow>, batch: seq<Item>)
  {
    |after| == |before| && forall r | 0 <= r < |after| && r !in Positions(batch) :: after[r] == before[r]
  }

  /** Every item's original position is below n. */
  ghost predicate Within(batch: seq<Item>, n: nat)
  {
    forall q | 0 <= q < |batch| :: batch[q].origIdx < n
  }

  /** The original positions of the items of `batch`. */
  function Positions(batch: seq<Item>): (ps: set<nat>)
    ensures forall q | 0 <= q < |batch| :: batch[q].origIdx in ps
  {
    if |batch| == 0 then {} else Positions(batch[..|batch| - 1]) + {batch[|batch| - 1].origIdx}
  }

  /** A position no item of `batch` has is not one of its positions. */
  lemma {:induction false} NotInPositions(batch: seq<Item>, r: nat)
    requires forall q | 0 <= q < |batch| :: batch[q].origIdx != r
    ensures r !in Positions(batch)
  {
    if |batch| > 0 {
      NotInPositions(batch[..|batch| - 1], r);
    }
  }

  /** A slice of `items` has no position that `items` lacks. */
  lemma {:induction false} PositionsOfSlice(items: seq<Item>, off: nat, batch: seq<Item>)
    requires off + |batch| <= |items| && forall j | 0 <= j < |batch| :: items[off + j] == batch[j]
    ensures Positions(batch) <= Positions(items)
  {
    if |batch| > 0 {
      var n := |batch| - 1;
      PositionsOfSlice(items, off, batch[..n]);
      assert batch[n] == items[off + n];
    }
  }

  /** Two writes confined to `items` and to a part of it are together confined to `items`. */
  lemma OnlyAtWiden(s0: seq<OutRow>, s1: seq<OutRow>, s2: seq<OutRow>, batch: seq<Item>, items: seq<Item>)
    requires OnlyAt(s0, s1, items) && OnlyAt(s1, s2, batch) && Positions(batch) <= Positions(items)
    ensures OnlyAt(s0, s2, items)
  {
  }

  /** Writing only at the positions of well-formed rows leaves every placeholder in place. */
  lemma PlaceholdersKept(before: seq<OutRow>, after: seq<OutRow>, rows: seq<seq<Value>>, show: Value -> string, batch: seq<Item>)
    requires Placeholders(before, rows) && OnlyAt(before, after, batch) && FromRows(rows, show, batch)
    ensures Placeholders(after, rows)
  {
    forall r | 0 <= r < |rows| && !WellFormed(rows[r])
      ensures after[r] == before[r]
    {
      NotInPositions(batch, r);
    }
  }
}
