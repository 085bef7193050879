/**
 * Inbound rows and outbound rows of one batch (lambda/skyflow.go).
 * A row field is a decoded JSON value of unknown type; the core only carries
 * row[0] through unchanged and formats row[1] with `%v`, which every
 * operation receives as a `show` function.
 */
module Rows {

  /** One field of an inbound row (Go `interface{}`); opaque to the core. */
  type Value(!new)

  /** First element of an outbound row: a malformed row reports its position instead of row[0]. */
  datatype Key = Position(index: nat) | RowKey(value: Value)

  /** An outbound row `[key, text]`. */
  datatype OutRow = OutRow(key: Key, text: string)

  /** A well-formed row: its position, row[0] and the `%v` text of row[1] (`indexedValue`). */
  datatype Item = Item(origIdx: nat, rowKey: Value, value: string)

  predicate WellFormed(row: seq<Value>) { |row| >= 2 }

  /** The placeholder text both client operations give a row with fewer than two fields. */
  const MissingValue := "ERROR: missing value"

  /** `it` describes the well-formed row of `rows` at its own position. */
  ghost predicate FromRow(rows: seq<seq<Value>>, show: Value -> string, it: Item)
  {
    && it.origIdx < |rows|
    && WellFormed(rows[it.origIdx])
    && it.rowKey == rows[it.origIdx][0]
    && it.value == show(rows[it.origIdx][1])
  }

  /** Strictly increasing original positions. */
  predicate Ascending(items: seq<Item>)
  {
    forall p, q | 0 <= p < q < |items| :: items[p].origIdx < items[q].origIdx
  }

  /** Every item comes from its row. */
  ghost predicate FromRows(rows: seq<seq<Value>>, show: Value -> string, items: seq<Item>)
  {
    forall p | 0 <= p < |items| :: FromRow(rows, show, items[p])
  }

  function CountWellFormed(rows: seq<seq<Value>>): nat
  {
    if |rows| == 0 then 0
    else CountWellFormed(rows[..|rows| - 1]) + (if WellFormed(rows[|rows| - 1]) then 1 else 0)
  }

  /**
   * Row normalisation: the well-formed rows in input order. Every item comes
   * from the row at its own position, positions strictly increase, and there
   * is one item per well-formed row.
   */
  function Items(rows: seq<seq<Value>>, show: Value -> string): (items: seq<Item>)
    ensures |items| == CountWellFormed(rows)
    ensures FromRows(rows, show, items)
    ensures Ascending(items)
    decreases |rows|
  {
    if |rows| == 0 then []
    else
      var n := |rows| - 1;
      var init := Items(rows[..n], show);
      assert forall p | 0 <= p < |init| :: FromRow(rows, show, init[p]);
      init + (if WellFormed(rows[n]) then [Item(n, rows[n][0], show(rows[n][1]))] else [])
  }

  /**
   * The well-formed row i is the item at index Rank(rows, show, i) — the
   * number of well-formed rows before it — and at no other index.
   */
  lemma {:induction false} ItemAt(rows: seq<seq<Value>>, show: Value -> string, i: nat)
    requires i < |rows| && WellFormed(rows[i])
    ensures Rank(rows, show, i) < |Items(rows, show)|
    ensures Items(rows, show)[Rank(rows, show, i)] == Item(i, rows[i][0], show(rows[i][1]))
    ensures forall p | 0 <= p < |Items(rows, show)| :: Items(rows, show)[p].origIdx == i <==> p == Rank(rows, show, i)
    decreases |rows|
  {
    var n := |rows| - 1;
    if i < n {
      ItemAt(rows[..n], show, i);
      assert rows[..n][..i] == rows[..i];
    } else {
      assert rows[..i] == rows[..n];
    }
  }

  function Rank(rows: seq<seq<Value>>, show: Value -> string, i: nat): nat
    requires i <= |rows|
  {
    |Items(rows[..i], show)|
  }
}
