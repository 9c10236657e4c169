/**
  Ranking the payment options by their ARS cost and recommending the
  cheapest one, as the results section of app.py does after the option
  list is built.
*/
module Ranking {
  import opened PaymentOptions

  /** Rows ordered by the "Costo en ARS" column, cheapest first. */
  predicate SortedByCost(rows: seq<Row>)
  {
    forall i, j :: 0 <= i < j < |rows| ==> rows[i].cost <= rows[j].cost
  }

  /** `table` holds exactly the rows of `rows`, each as often, sorted by cost. */
  predicate IsSortedByCost(table: seq<Row>, rows: seq<Row>)
  {
    multiset(table) == multiset(rows) && SortedByCost(table)
  }

  /** Places `r` into an already sorted table, after every cheaper row. */
  function Insert(r: Row, rows: seq<Row>): (out: seq<Row>)
    requires SortedByCost(rows)
    ensures multiset(out) == multiset(rows) + multiset{r}
    ensures SortedByCost(out)
  {
    if rows == [] then [r]
    else if r.cost <= rows[0].cost then [r] + rows
    else
      var rest := Insert(r, rows[1..]);
      assert rows == [rows[0]] + rows[1..];
      forall k | 0 <= k < |rest|
        ensures rows[0].cost <= rest[k].cost
      {
        FromEither(rest[k], r, rows[1..], rest);
      }
      ConsSorted(rows[0], rest);
      [rows[0]] + rest
  }

  /** A row of `rest`, whose rows are those of `tail` and `r`, is `r` or a row of `tail`. */
  lemma {:induction false} FromEither(x: Row, r: Row, tail: seq<Row>, rest: seq<Row>)
    requires x in rest && multiset(rest) == multiset(tail) + multiset{r}
    ensures x == r || x in tail
  {
    assert x in multiset(rest);
  }

  /** Putting a row no dearer than any row of a sorted table in front keeps it sorted. */
  lemma {:induction false} ConsSorted(x: Row, rest: seq<Row>)
    requires SortedByCost(rest)
    requires forall k :: 0 <= k < |rest| ==> x.cost <= rest[k].cost
    ensures SortedByCost([x] + rest)
  {
    var s := [x] + rest;
    forall i, j | 0 <= i < j < |s|
      ensures s[i].cost <= s[j].cost
    {
      if i > 0 {
        assert s[i] == rest[i - 1] && s[j] == rest[j - 1];
      }
    }
  }

  /**
    The cost sort of the table. pandas' `sort_values` is code outside this
    model; this insertion sort stands in for it, and callers rely only on
    its result being a sorted rearrangement of its input.
  */
  function SortByCost(rows: seq<Row>): (table: seq<Row>)
    ensures IsSortedByCost(table, rows)
  {
    if rows == [] then []
    else
      assert rows == [rows[0]] + rows[1..];
      Insert(rows[0], SortByCost(rows[1..]))
  }

  /** The least cost among the rows. */
  function MinCost(rows: seq<Row>): (m: real)
    requires rows != []
    ensures exists i :: 0 <= i < |rows| && rows[i].cost == m
    ensures forall i :: 0 <= i < |rows| ==> m <= rows[i].cost
  {
    if |rows| == 1 then rows[0].cost
    else
      var rest := MinCost(rows[1..]);
      assert forall i :: 1 <= i < |rows| ==> rows[i] == rows[1..][i - 1];
      if rows[0].cost <= rest then rows[0].cost else rest
  }

  /** What the results section shows: nothing to compare, or the sorted table and its first row. */
  datatype Outcome = NothingToCompare | Recommend(table: seq<Row>, best: Row)

  /**
    Builds the option list; when it is empty there is nothing to compare,
    otherwise the list is sorted by cost and its first row is recommended.
  */
  method Compare(price: real, accepted: Accepted, rates: Rates) returns (outcome: Outcome)
    ensures outcome.NothingToCompare? <==> Options(price, accepted, rates) == []
    ensures outcome.Recommend? ==>
      IsSortedByCost(outcome.table, Options(price, accepted, rates)) &&
      outcome.table != [] && outcome.best == outcome.table[0]
    ensures outcome.Recommend? ==>
      outcome.best in Options(price, accepted, rates) &&
      outcome.best.cost == MinCost(Options(price, accepted, rates))
  {
    var rows := BuildOptions(price, accepted, rates);
    if rows != [] {
      var table := SortByCost(rows);
      assert |table| == |multiset(table)| == |multiset(rows)| == |rows|;
      outcome := Recommend(table, table[0]);
      SortedHeadIsMin(table, rows);
    } else {
      outcome := NothingToCompare;
    }
  }

  /** The first row of any sorted rearrangement is one of the rows and carries the least cost. */
  lemma {:induction false} SortedHeadIsMin(table: seq<Row>, rows: seq<Row>)
    requires IsSortedByCost(table, rows) && table != []
    ensures rows != [] && table[0] in rows && table[0].cost == MinCost(rows)
  {
    assert table[0] in multiset(table);
    assert table[0] in multiset(rows);
    var m := MinCost(rows);
    var i :| 0 <= i < |rows| && rows[i].cost == m;
    assert rows[i] in multiset(rows);
    assert rows[i] in multiset(table);
    var j :| 0 <= j < |table| && table[j] == rows[i];
    assert table[0].cost <= table[j].cost;
  }

  /**
    Ranking happens on the rounded costs, so the recommended row may cost
    up to one cent more, before rounding, than another listed option.
  */
  lemma {:induction false} RecommendedNearlyCheapest(price: real, accepted: Accepted, rates: Rates, best: Row, i: nat)
    requires best in Options(price, accepted, rates)
    requires best.cost == MinCost(Options(price, accepted, rates))
    requires i < |Options(price, accepted, rates)|
    ensures Resolvable(PathOf(best.channel), rates)
    ensures var other := Options(price, accepted, rates)[i];
      Resolvable(PathOf(other.channel), rates) &&
      ExactCost(PathOf(best.channel), price, rates)
        <= ExactCost(PathOf(other.channel), price, rates) + 0.01
  {
    var rows := Options(price, accepted, rates);
    var b :| 0 <= b < |rows| && rows[b] == best;
    OptionCostNearExact(price, accepted, rates, b);
    OptionCostNearExact(price, accepted, rates, i);
  }

  /**
    Two rows of equal rounded cost can come out in either order: both
    orders are sorted rearrangements, so which one is recommended is left
    to the sort.
  */
  lemma {:induction false} TiesLeaveTheRecommendationOpen(a: Row, b: Row)
    requires a.cost == b.cost
    ensures IsSortedByCost([a, b], [a, b]) && IsSortedByCost([b, a], [a, b])
  {
    assert multiset([b, a]) == multiset{b} + multiset{a} == multiset([a, b]);
  }
}
