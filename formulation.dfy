/**
 * The transportation problem as integer arithmetic: one non-negative integer
 * quantity per (warehouse, customer) pair, its total cost, the row sums
 * bounded by supply and the column sums bounded below by demand.
 */
module Formulation {
  import opened Dataset

  /** The values of the decision variables `x[i][j]`, keyed by (warehouse, customer). */
  type Quantities = map<(Name, Name), int>

  /** The map has an entry for every pair of a listed warehouse and a listed customer. */
  predicate Covers<V>(m: map<(Name, Name), V>, ws: seq<Name>, cs: seq<Name>)
  {
    forall w, c :: w in ws && c in cs ==> (w, c) in m
  }

  /** Every quantity on a listed pair is at least 0 (`lowBound=0`). */
  predicate Nonnegative(x: Quantities, ws: seq<Name>, cs: seq<Name>)
    requires Covers(x, ws, cs)
  {
    forall w, c :: w in ws && c in cs ==> x[(w, c)] >= 0
  }

  /** What warehouse `w` ships out: the sum of `x[w][j]` over the customers `cs`. */
  function RowSum(x: Quantities, w: Name, cs: seq<Name>): int
    requires forall c :: c in cs ==> (w, c) in x
    decreases |cs|
  {
    if cs == [] then 0 else RowSum(x, w, cs[..|cs| - 1]) + x[(w, cs[|cs| - 1])]
  }

  /** What customer `c` receives: the sum of `x[i][c]` over the warehouses `ws`. */
  function ColSum(x: Quantities, ws: seq<Name>, c: Name): int
    requires forall w :: w in ws ==> (w, c) in x
    decreases |ws|
  {
    if ws == [] then 0 else ColSum(x, ws[..|ws| - 1], c) + x[(ws[|ws| - 1], c)]
  }

  /** The cost of warehouse `w`'s row: the sum of `costs[(w, j)] * x[w][j]` over `cs`. */
  function RowCost(costs: map<(Name, Name), int>, x: Quantities, w: Name, cs: seq<Name>): int
    requires forall c :: c in cs ==> (w, c) in costs && (w, c) in x
    decreases |cs|
  {
    if cs == [] then 0
    else
      var c := cs[|cs| - 1];
      RowCost(costs, x, w, cs[..|cs| - 1]) + costs[(w, c)] * x[(w, c)]
  }

  /**
   * The objective: the sum of `costs[(i, j)] * x[i][j]` over every warehouse
   * `i` and, for each, every customer `j`, in list order.
   */
  function TotalCost(costs: map<(Name, Name), int>, x: Quantities, ws: seq<Name>, cs: seq<Name>): int
    requires Covers(costs, ws, cs) && Covers(x, ws, cs)
    decreases |ws|
  {
    if ws == [] then 0
    else TotalCost(costs, x, ws[..|ws| - 1], cs) + RowCost(costs, x, ws[|ws| - 1], cs)
  }

  /** The sum of `amounts[n]` over the listed names (total supply, total demand). */
  function Total(amounts: map<Name, int>, names: seq<Name>): int
    requires forall n :: n in names ==> n in amounts
    decreases |names|
  {
    if names == [] then 0 else Total(amounts, names[..|names| - 1]) + amounts[names[|names| - 1]]
  }

  /** Everything shipped, counted warehouse by warehouse. */
  function SumOfRows(x: Quantities, ws: seq<Name>, cs: seq<Name>): int
    requires Covers(x, ws, cs)
    decreases |ws|
  {
    if ws == [] then 0 else SumOfRows(x, ws[..|ws| - 1], cs) + RowSum(x, ws[|ws| - 1], cs)
  }

  /** Everything shipped, counted customer by customer. */
  function SumOfCols(x: Quantities, ws: seq<Name>, cs: seq<Name>): int
    requires Covers(x, ws, cs)
    decreases |cs|
  {
    if cs == [] then 0 else SumOfCols(x, ws, cs[..|cs| - 1]) + ColSum(x, ws, cs[|cs| - 1])
  }

  /**
   * A plan is feasible when it gives every pair a quantity of at least 0, no
   * warehouse ships more than its supply and every customer receives at least
   * its demand.
   */
  predicate Feasible(p: Problem, x: Quantities)
    requires WellFormed(p)
  {
    && Covers(x, p.warehouses, p.customers)
    && Nonnegative(x, p.warehouses, p.customers)
    && (forall w :: w in p.warehouses ==> RowSum(x, w, p.customers) <= p.supply[w])
    && (forall c :: c in p.customers ==> ColSum(x, p.warehouses, c) >= p.demand[c])
  }

  lemma {:induction false} SumOfColsNoWarehouses(x: Quantities, cs: seq<Name>)
    ensures SumOfCols(x, [], cs) == 0
  {
    if cs != [] {
      SumOfColsNoWarehouses(x, cs[..|cs| - 1]);
    }
  }

  /** Adding a warehouse adds its row to every column. */
  lemma {:induction false} SumOfColsExtend(x: Quantities, ws: seq<Name>, w: Name, cs: seq<Name>)
    requires Covers(x, ws + [w], cs)
    ensures SumOfCols(x, ws + [w], cs) == SumOfCols(x, ws, cs) + RowSum(x, w, cs)
  {
    if cs != [] {
      var init := cs[..|cs| - 1];
      SumOfColsExtend(x, ws, w, init);
      assert (ws + [w])[..|ws|] == ws;
    }
  }

  /** Counting the matrix by rows and by columns gives the same total. */
  lemma {:induction false} RowsEqualCols(x: Quantities, ws: seq<Name>, cs: seq<Name>)
    requires Covers(x, ws, cs)
    ensures SumOfRows(x, ws, cs) == SumOfCols(x, ws, cs)
  {
    if ws == [] {
      SumOfColsNoWarehouses(x, cs);
    } else {
      var init, w := ws[..|ws| - 1], ws[|ws| - 1];
      RowsEqualCols(x, init, cs);
      assert init + [w] == ws;
      SumOfColsExtend(x, init, w, cs);
    }
  }

  lemma {:induction false} RowsWithinSupply(x: Quantities, supply: map<Name, int>, ws: seq<Name>, cs: seq<Name>)
    requires Covers(x, ws, cs)
    requires forall w :: w in ws ==> w in supply && RowSum(x, w, cs) <= supply[w]
    ensures SumOfRows(x, ws, cs) <= Total(supply, ws)
  {
    if ws != [] {
      RowsWithinSupply(x, supply, ws[..|ws| - 1], cs);
    }
  }

  lemma {:induction false} ColsMeetDemand(x: Quantities, demand: map<Name, int>, ws: seq<Name>, cs: seq<Name>)
    requires Covers(x, ws, cs)
    requires forall c :: c in cs ==> c in demand && ColSum(x, ws, c) >= demand[c]
    ensures SumOfCols(x, ws, cs) >= Total(demand, cs)
  {
    if cs != [] {
      ColsMeetDemand(x, demand, ws, cs[..|cs| - 1]);
    }
  }

  /** A feasible plan exists only when total supply is at least total demand. */
  lemma FeasibleSupplyCoversDemand(p: Problem, x: Quantities)
    requires WellFormed(p) && Feasible(p, x)
    ensures Total(p.supply, p.warehouses) >= Total(p.demand, p.customers)
  {
    RowsWithinSupply(x, p.supply, p.warehouses, p.customers);
    ColsMeetDemand(x, p.demand, p.warehouses, p.customers);
    RowsEqualCols(x, p.warehouses, p.customers);
  }

  lemma {:induction false} RowCostNonnegative(costs: map<(Name, Name), int>, x: Quantities, w: Name, cs: seq<Name>)
    requires forall c :: c in cs ==> (w, c) in costs && (w, c) in x && costs[(w, c)] >= 0 && x[(w, c)] >= 0
    ensures RowCost(costs, x, w, cs) >= 0
  {
    if cs != [] {
      var c := cs[|cs| - 1];
      RowCostNonnegative(costs, x, w, cs[..|cs| - 1]);
      assert costs[(w, c)] * x[(w, c)] >= 0;
    }
  }

  lemma {:induction false} TotalCostNonnegative(costs: map<(Name, Name), int>, x: Quantities, ws: seq<Name>, cs: seq<Name>)
    requires Covers(costs, ws, cs) && Covers(x, ws, cs)
    requires forall w, c :: w in ws && c in cs ==> costs[(w, c)] >= 0 && x[(w, c)] >= 0
    ensures TotalCost(costs, x, ws, cs) >= 0
  {
    if ws != [] {
      TotalCostNonnegative(costs, x, ws[..|ws| - 1], cs);
      RowCostNonnegative(costs, x, ws[|ws| - 1], cs);
    }
  }

  /** With non-negative unit costs, a feasible plan never has a negative total cost. */
  lemma FeasibleCostNonnegative(p: Problem, x: Quantities)
    requires WellFormed(p) && Feasible(p, x)
    requires Covers(p.costs, p.warehouses, p.customers)
    requires forall w, c :: w in p.warehouses && c in p.customers ==> p.costs[(w, c)] >= 0
    ensures TotalCost(p.costs, x, p.warehouses, p.customers) >= 0
  {
    TotalCostNonnegative(p.costs, x, p.warehouses, p.customers);
  }

  lemma {:induction false} TotalUnaffected(amounts: map<Name, int>, names: seq<Name>, n: Name, v: int)
    requires forall m :: m in names ==> m in amounts
    requires n !in names
    ensures Total(amounts[n := v], names) == Total(amounts, names)
  {
    if names != [] {
      TotalUnaffected(amounts, names[..|names| - 1], n, v);
    }
  }

  /**
   * With distinct names, the total of the loaded dictionary over the loaded
   * list is the sum of the amounts column of the table.
   */
  lemma {:induction false} TotalOfRows(rows: seq<NodeRow>)
    requires Distinct(Names(rows))
    ensures forall n :: n in Names(rows) ==> n in AmountMap(rows)
    ensures Total(AmountMap(rows), Names(rows)) == AmountTotal(rows)
  {
    AmountMapKeys(rows);
    if rows != [] {
      var init, last := rows[..|rows| - 1], rows[|rows| - 1];
      assert Names(init) == Names(rows)[..|rows| - 1];
      DistinctLast(Names(rows));
      TotalOfRows(init);
      TotalUnaffected(AmountMap(init), Names(init), last.name, last.amount);
    }
  }

  lemma {:induction false} TotalAppend(amounts: map<Name, int>, a: seq<Name>, b: seq<Name>)
    requires forall n :: n in a + b ==> n in amounts
    ensures forall n :: n in a ==> n in amounts
    ensures forall n :: n in b ==> n in amounts
    ensures Total(amounts, a + b) == Total(amounts, a) + Total(amounts, b)
  {
    assert forall n :: n in a ==> n in a + b;
    assert forall n :: n in b ==> n in a + b;
    if b == [] {
      assert a + b == a;
    } else {
      var init := b[..|b| - 1];
      assert (a + b)[..|a + b| - 1] == a + init;
      assert forall n :: n in a + init ==> n in a + b;
      TotalAppend(amounts, a, init);
    }
  }

  /** Taking the last name off one list and a matching name out of a reordering of it leaves reorderings. */
  lemma RemoveMatching(s: seq<Name>, t: seq<Name>, i: nat)
    requires multiset(s) == multiset(t) && s != [] && i < |t| && t[i] == s[|s| - 1]
    ensures multiset(s[..|s| - 1]) == multiset(t[..i] + t[i + 1..])
  {
    var init, last := s[..|s| - 1], s[|s| - 1];
    var front, back := t[..i], t[i + 1..];
    assert s == init + [last];
    assert t == front + [last] + back;
    assert multiset(s) == multiset(init) + multiset{last};
    assert multiset(t) == multiset(front) + multiset{last} + multiset(back);
    assert multiset(front + back) == multiset(front) + multiset(back);
    forall n
      ensures multiset(init)[n] == multiset(front + back)[n]
    {
      assert multiset(s)[n] == multiset(t)[n];
    }
  }

  /** Taking the name at position `i` out of a list takes its amount out of the total. */
  lemma TotalRemove(amounts: map<Name, int>, t: seq<Name>, i: nat)
    requires forall n :: n in t ==> n in amounts
    requires i < |t|
    ensures forall n :: n in t[..i] + t[i + 1..] ==> n in amounts
    ensures Total(amounts, t) == Total(amounts, t[..i] + t[i + 1..]) + amounts[t[i]]
  {
    var front, back := t[..i], t[i + 1..];
    assert t == front + [t[i]] + back;
    assert forall n :: n in front + back ==> n in t;
    TotalAppend(amounts, front + [t[i]], back);
    TotalAppend(amounts, front, [t[i]]);
    TotalAppend(amounts, front, back);
    assert [t[i]][..0] == [];
  }

  /** The names of a reordered list are the names of the list. */
  lemma ReorderedMembers(s: seq<Name>, t: seq<Name>)
    requires multiset(s) == multiset(t)
    ensures forall n :: n in t <==> n in s
  {
    forall n
      ensures n in t <==> n in s
    {
      assert n in t <==> n in multiset(t);
      assert n in s <==> n in multiset(s);
    }
  }

  /** The total over a list does not depend on the order of its names. */
  lemma {:induction false} TotalPermutation(amounts: map<Name, int>, s: seq<Name>, t: seq<Name>)
    requires forall n :: n in s ==> n in amounts
    requires multiset(s) == multiset(t)
    ensures forall n :: n in t ==> n in amounts
    ensures Total(amounts, s) == Total(amounts, t)
    decreases |s|
  {
    ReorderedMembers(s, t);
    if s == [] {
      assert |t| == |multiset(t)| == 0;
    } else {
      var init, last := s[..|s| - 1], s[|s| - 1];
      assert last in t;
      var i :| 0 <= i < |t| && t[i] == last;
      RemoveMatching(s, t, i);
      assert forall n :: n in init ==> n in s;
      TotalPermutation(amounts, init, t[..i] + t[i + 1..]);
      TotalRemove(amounts, t, i);
    }
  }

  /**
   * With distinct names, the total of the loaded dictionary over a list of the
   * table's names, in any order, is the sum of the amounts column of the table.
   */
  lemma TotalOfNames(names: seq<Name>, rows: seq<NodeRow>)
    requires Distinct(Names(rows)) && SameNames(names, rows)
    ensures forall n :: n in names ==> n in AmountMap(rows)
    ensures Total(AmountMap(rows), names) == AmountTotal(rows)
  {
    TotalOfRows(rows);
    TotalPermutation(AmountMap(rows), Names(rows), names);
  }

  /** The variables of warehouse `w`'s row, `(w, j)` for every customer `j` in list order. */
  function RowRoutes(w: Name, cs: seq<Name>): seq<(Name, Name)>
    decreases |cs|
  {
    if cs == [] then [] else RowRoutes(w, cs[..|cs| - 1]) + [(w, cs[|cs| - 1])]
  }

  /**
   * Every (warehouse, customer) pair in the order `for i in warehouses for j
   * in customers`: the order in which the decision variables are created, the
   * objective is summed and the plan is reported.
   */
  function Routes(ws: seq<Name>, cs: seq<Name>): seq<(Name, Name)>
    decreases |ws|
  {
    if ws == [] then [] else Routes(ws[..|ws| - 1], cs) + RowRoutes(ws[|ws| - 1], cs)
  }

  lemma {:induction false} RowRoutesMembers(w: Name, cs: seq<Name>)
    ensures forall r :: r in RowRoutes(w, cs) <==> r.0 == w && r.1 in cs
  {
    if cs != [] {
      var init := cs[..|cs| - 1];
      RowRoutesMembers(w, init);
      assert cs == init + [cs[|cs| - 1]];
    }
  }

  /** There is one variable for each pair of a listed warehouse and a listed customer, and no other. */
  lemma {:induction false} RoutesMembers(ws: seq<Name>, cs: seq<Name>)
    ensures forall r :: r in Routes(ws, cs) <==> r.0 in ws && r.1 in cs
  {
    if ws != [] {
      var init := ws[..|ws| - 1];
      RoutesMembers(init, cs);
      RowRoutesMembers(ws[|ws| - 1], cs);
      assert ws == init + [ws[|ws| - 1]];
    }
  }

  /** The sum of `costs[r] * x[r]` over a list of pairs, in list order. */
  function CostOf(costs: map<(Name, Name), int>, x: Quantities, routes: seq<(Name, Name)>): int
    requires forall r :: r in routes ==> r in costs && r in x
    decreases |routes|
  {
    if routes == [] then 0
    else
      var r := routes[|routes| - 1];
      CostOf(costs, x, routes[..|routes| - 1]) + costs[r] * x[r]
  }

  lemma {:induction false} CostOfAppend(costs: map<(Name, Name), int>, x: Quantities, a: seq<(Name, Name)>, b: seq<(Name, Name)>)
    requires forall r :: r in a + b ==> r in costs && r in x
    ensures CostOf(costs, x, a + b) == CostOf(costs, x, a) + CostOf(costs, x, b)
  {
    if b == [] {
      assert a + b == a;
    } else {
      var init := b[..|b| - 1];
      CostOfAppend(costs, x, a, init);
      assert (a + b)[..|a + b| - 1] == a + init;
    }
  }

  lemma {:induction false} CostOfRowRoutes(costs: map<(Name, Name), int>, x: Quantities, w: Name, cs: seq<Name>)
    requires forall c :: c in cs ==> (w, c) in costs && (w, c) in x
    ensures forall r :: r in RowRoutes(w, cs) ==> r in costs && r in x
    ensures CostOf(costs, x, RowRoutes(w, cs)) == RowCost(costs, x, w, cs)
  {
    RowRoutesMembers(w, cs);
    if cs != [] {
      var init := cs[..|cs| - 1];
      CostOfRowRoutes(costs, x, w, init);
      CostOfAppend(costs, x, RowRoutes(w, init), [(w, cs[|cs| - 1])]);
    }
  }

  /** Summing over the flat list of pairs gives the objective summed row by row. */
  lemma {:induction false} CostOfRoutes(costs: map<(Name, Name), int>, x: Quantities, ws: seq<Name>, cs: seq<Name>)
    requires Covers(costs, ws, cs) && Covers(x, ws, cs)
    ensures forall r :: r in Routes(ws, cs) ==> r in costs && r in x
    ensures CostOf(costs, x, Routes(ws, cs)) == TotalCost(costs, x, ws, cs)
  {
    RoutesMembers(ws, cs);
    if ws != [] {
      var init, w := ws[..|ws| - 1], ws[|ws| - 1];
      CostOfRoutes(costs, x, init, cs);
      CostOfRowRoutes(costs, x, w, cs);
      RoutesMembers(init, cs);
      CostOfAppend(costs, x, Routes(init, cs), RowRoutes(w, cs));
    }
  }
}
