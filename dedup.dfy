/**
 * The deduplication loop of SkyflowClient.Detokenize (lambda/skyflow.go): the
 * distinct `%v` texts (tokens) of the well-formed rows in the order they first
 * occur (orderedTokens), and for each token the rows that carry it (tokenMap).
 * A rowRef of the source is an Item here: its position, its row[0] and the
 * token it carries.
 */
module Dedup {
  import opened Rows

  /** No element occurs twice. */
  predicate NoDup<T(==)>(s: seq<T>)
  {
    forall p, q | 0 <= p < q < |s| :: s[p] != s[q]
  }

  /** `refs` are well-formed rows of `rows`, in increasing position, each carrying token t. */
  ghost predicate Carriers(rows: seq<seq<Value>>, show: Value -> string, t: string, refs: seq<Item>)
  {
    && |refs| > 0
    && FromRows(rows, show, refs)
    && Ascending(refs)
    && forall q | 0 <= q < |refs| :: refs[q].value == t
  }

  /**
   * tokenMap: every token of a well-formed row is a key, and each key lists
   * only rows that carry it, in increasing position (RefOf shows it lists
   * all of them).
   */
  function TokenMap(rows: seq<seq<Value>>, show: Value -> string): (m: map<string, seq<Item>>)
    ensures forall t | t in m :: Carriers(rows, show, t, m[t])
    ensures forall i | 0 <= i < |rows| && WellFormed(rows[i]) :: show(rows[i][1]) in m
    decreases |rows|
  {
    if |rows| == 0 then map[]
    else
      var n := |rows| - 1;
      var init := TokenMap(rows[..n], show);
      assert forall t | t in init :: Carriers(rows, show, t, init[t]) by {
        forall t | t in init
          ensures Carriers(rows, show, t, init[t])
        {
          CarriersLift(rows, show, n, t, init[t]);
        }
      }
      if !WellFormed(rows[n]) then init
      else
        var t := show(rows[n][1]);
        init[t := (if t in init then init[t] else []) + [Item(n, rows[n][0], t)]]
  }

  /** Carriers among the first n rows are carriers among all rows, all before position n. */
  lemma CarriersLift(rows: seq<seq<Value>>, show: Value -> string, n: nat, t: string, refs: seq<Item>)
    requires n <= |rows| && Carriers(rows[..n], show, t, refs)
    ensures Carriers(rows, show, t, refs)
    ensures forall q | 0 <= q < |refs| :: refs[q].origIdx < n
  {
    forall q | 0 <= q < |refs|
      ensures FromRow(rows, show, refs[q]) && refs[q].origIdx < n
    {
      assert FromRow(rows[..n], show, refs[q]);
    }
  }

  /**
   * orderedTokens: a token is appended when its row is the first to carry it.
   * No token occurs twice, and the tokens are exactly the keys of tokenMap.
   */
  function Distinct(rows: seq<seq<Value>>, show: Value -> string): (d: seq<string>)
    ensures NoDup(d)
    ensures forall t :: t in d <==> t in TokenMap(rows, show)
    decreases |rows|
  {
    if |rows| == 0 then []
    else
      var n := |rows| - 1;
      var init := Distinct(rows[..n], show);
      if WellFormed(rows[n]) && show(rows[n][1]) !in init then init + [show(rows[n][1])] else init
  }

  /** The token of every well-formed row is in orderedTokens. */
  lemma TokenListed(rows: seq<seq<Value>>, show: Value -> string, i: nat)
    requires i < |rows| && WellFormed(rows[i])
    ensures show(rows[i][1]) in Distinct(rows, show)
  {
    assert show(rows[i][1]) in TokenMap(rows, show);
  }

  /**
   * tokenMap lists every row carrying a token: the well-formed row i is
   * entry q of its token's list.
   */
  lemma {:induction false} RefOf(rows: seq<seq<Value>>, show: Value -> string, i: nat) returns (q: nat)
    requires i < |rows| && WellFormed(rows[i])
    ensures var refs := TokenMap(rows, show)[show(rows[i][1])];
      q < |refs| && refs[q] == Item(i, rows[i][0], show(rows[i][1]))
    decreases |rows|
  {
    var n := |rows| - 1;
    var init := TokenMap(rows[..n], show);
    var t := show(rows[i][1]);
    if i < n {
      q := RefOf(rows[..n], show, i);
      assert rows[..n][i] == rows[i];
    } else {
      q := if t in init then |init[t]| else 0;
    }
  }

  /** The position of the first row listed under token t. */
  ghost function FirstRow(rows: seq<seq<Value>>, show: Value -> string, t: string): nat
    requires t in TokenMap(rows, show)
  {
    TokenMap(rows, show)[t][0].origIdx
  }

  /** The first row listed under a token is the first row that carries it. */
  lemma FirstCarrier(rows: seq<seq<Value>>, show: Value -> string, i: nat)
    requires i < |rows| && WellFormed(rows[i])
    ensures FirstRow(rows, show, show(rows[i][1])) <= i
  {
    var q := RefOf(rows, show, i);
  }

  /**
   * orderedTokens is in first-occurrence order: the first row carrying an
   * earlier token precedes the first row carrying a later one.
   */
  lemma {:induction false} DistinctOrder(rows: seq<seq<Value>>, show: Value -> string)
    ensures forall p, q | 0 <= p < q < |Distinct(rows, show)| ::
      FirstRow(rows, show, Distinct(rows, show)[p]) < FirstRow(rows, show, Distinct(rows, show)[q])
    decreases |rows|
  {
    if |rows| > 0 {
      var n := |rows| - 1;
      DistinctOrder(rows[..n], show);
      var d, init := Distinct(rows, show), Distinct(rows[..n], show);
      forall p, q | 0 <= p < q < |d|
        ensures FirstRow(rows, show, d[p]) < FirstRow(rows, show, d[q])
      {
        assert d[p] == init[p];
        FirstRowKept(rows, show, init[p]);
        if q < |init| {
          assert d[q] == init[q];
          FirstRowKept(rows, show, init[q]);
        } else {
          FirstRowNew(rows, show);
        }
      }
    }
  }

  /** A token already carried by an earlier row keeps its first row when a row is added. */
  lemma FirstRowKept(rows: seq<seq<Value>>, show: Value -> string, t: string)
    requires |rows| > 0 && t in Distinct(rows[..|rows| - 1], show)
    ensures t in TokenMap(rows, show)
    ensures FirstRow(rows, show, t) == FirstRow(rows[..|rows| - 1], show, t) < |rows| - 1
  {
    var n := |rows| - 1;
    var initMap := TokenMap(rows[..n], show);
    assert t in initMap;
    assert FromRow(rows[..n], show, initMap[t][0]);
    var m := TokenMap(rows, show);
    if WellFormed(rows[n]) && show(rows[n][1]) == t {
      assert m[t] == initMap[t] + [Item(n, rows[n][0], t)];
    } else {
      assert m[t] == initMap[t];
    }
  }

  /** A token first carried by the last row has the last row as its first row. */
  lemma FirstRowNew(rows: seq<seq<Value>>, show: Value -> string)
    requires |rows| > 0 && |Distinct(rows, show)| > |Distinct(rows[..|rows| - 1], show)|
    ensures var d := Distinct(rows, show);
      d[|d| - 1] in TokenMap(rows, show) && FirstRow(rows, show, d[|d| - 1]) == |rows| - 1
  {
    var n := |rows| - 1;
    assert show(rows[n][1]) !in TokenMap(rows[..n], show);
  }

  /** Deduplication never adds work: at most one token per well-formed row. */
  lemma {:induction false} DistinctCount(rows: seq<seq<Value>>, show: Value -> string)
    ensures |Distinct(rows, show)| <= CountWellFormed(rows)
    decreases |rows|
  {
    if |rows| > 0 {
      DistinctCount(rows[..|rows| - 1], show);
    }
  }

  /**
   * The row loop of Detokenize: a row with fewer than two fields gets
   * [i, MissingValue] in place; every other row is appended to its token's
   * list, and its token to orderedTokens when the list was empty.
   */
  method Deduplicate(rows: seq<seq<Value>>, show: Value -> string, result: array<OutRow>)
    returns (tokenMap: map<string, seq<Item>>, orderedTokens: seq<string>)
    requires result.Length == |rows|
    modifies result
    ensures tokenMap == TokenMap(rows, show) && orderedTokens == Distinct(rows, show)
    ensures forall r | 0 <= r < |rows| && !WellFormed(rows[r]) :: result[r] == OutRow(Position(r), MissingValue)
    ensures forall r | 0 <= r < |rows| && WellFormed(rows[r]) :: result[r] == old(result[r])
  {
    tokenMap, orderedTokens := map[], [];
    for i := 0 to |rows|
      invariant tokenMap == TokenMap(rows[..i], show) && orderedTokens == Distinct(rows[..i], show)
      invariant forall r | 0 <= r < i && !WellFormed(rows[r]) :: result[r] == OutRow(Position(r), MissingValue)
      invariant forall r | 0 <= r < |rows| && (r >= i || WellFormed(rows[r])) :: result[r] == old(result[r])
    {
      assert rows[..i + 1][..i] == rows[..i];
      if |rows[i]| < 2 {
        result[i] := OutRow(Position(i), MissingValue);
        continue;
      }
      var token := show(rows[i][1]);
      var refs := if token in tokenMap then tokenMap[token] else [];
      if |refs| == 0 {
        orderedTokens := orderedTokens + [token];
      }
      tokenMap := tokenMap[token := refs + [Item(i, rows[i][0], token)]];
    }
    assert rows[..|rows|] == rows;
  }
}
