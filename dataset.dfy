/**
 * The dataset loader: the three tables `warehouses`, `customers` and `costs`
 * read back as rows, and the lists and dictionaries the optimisation model is
 * built from.
 */
module Dataset {

  type Name = string

  /** A row of the `warehouses` table (name, supply) or of the `customers` table (name, demand). */
  datatype NodeRow = NodeRow(name: Name, amount: int)

  /** A row of the `costs` table: the unit cost of shipping from a warehouse to a customer. */
  datatype CostRow = CostRow(warehouse: Name, customer: Name, cost: int)

  /** The key of a cost row, the table's composite primary key. */
  function Route(row: CostRow): (Name, Name)
  {
    (row.warehouse, row.customer)
  }

  /** No name occurs twice: what a `name TEXT PRIMARY KEY` column guarantees. */
  predicate Distinct(names: seq<Name>)
  {
    forall a, b :: 0 <= a < b < |names| ==> names[a] != names[b]
  }

  /** No (warehouse, customer) key occurs twice: the `PRIMARY KEY (warehouse, customer)` of `costs`. */
  predicate DistinctRoutes(rows: seq<CostRow>)
  {
    forall a, b :: 0 <= a < b < |rows| ==> Route(rows[a]) != Route(rows[b])
  }

  /** Without repetitions, the last name is not among the earlier ones, which have no repetitions either. */
  lemma DistinctLast(names: seq<Name>)
    requires Distinct(names) && names != []
    ensures Distinct(names[..|names| - 1])
    ensures names[|names| - 1] !in names[..|names| - 1]
  {
    var init := names[..|names| - 1];
    forall k | 0 <= k < |init|
      ensures init[k] != names[|names| - 1]
    {
      assert names[k] != names[|names| - 1];
    }
  }

  /** The first column of every row, in row order (the `warehouses` and `customers` lists). */
  function Names(rows: seq<NodeRow>): seq<Name>
  {
    seq(|rows|, k requires 0 <= k < |rows| => rows[k].name)
  }

  /**
   * The dictionary `{row[0]: row[1] for row in rows}`: rows are entered in
   * order, so a later row with the same name replaces an earlier one.
   */
  function AmountMap(rows: seq<NodeRow>): map<Name, int>
    decreases |rows|
  {
    if rows == [] then map[]
    else
      var last := rows[|rows| - 1];
      AmountMap(rows[..|rows| - 1])[last.name := last.amount]
  }

  /** The sum of the amounts of all rows (total supply or total demand of a table). */
  function AmountTotal(rows: seq<NodeRow>): int
    decreases |rows|
  {
    if rows == [] then 0 else AmountTotal(rows[..|rows| - 1]) + rows[|rows| - 1].amount
  }

  /** The dictionary has exactly one key per listed name. */
  lemma {:induction false} AmountMapKeys(rows: seq<NodeRow>)
    ensures forall n :: n in AmountMap(rows) <==> n in Names(rows)
  {
    if rows != [] {
      var init := rows[..|rows| - 1];
      AmountMapKeys(init);
      assert Names(rows) == Names(init) + [rows[|rows| - 1].name];
    }
  }

  /** With distinct names, the dictionary maps each row's name to that row's amount. */
  lemma {:induction false} AmountMapLookup(rows: seq<NodeRow>, k: nat)
    requires Distinct(Names(rows))
    requires k < |rows|
    ensures rows[k].name in AmountMap(rows)
    ensures AmountMap(rows)[rows[k].name] == rows[k].amount
  {
    var init := rows[..|rows| - 1];
    if k < |rows| - 1 {
      assert Names(init) == Names(rows)[..|rows| - 1];
      AmountMapLookup(init, k);
      assert Names(rows)[k] != Names(rows)[|rows| - 1];
    }
  }

  /**
   * The costs dictionary as the loading loop leaves it: each row in turn sets
   * `costs[(row[0], row[1])] = row[2]`, so a later row with the same key wins.
   */
  function CostTable(rows: seq<CostRow>): map<(Name, Name), int>
    decreases |rows|
  {
    if rows == [] then map[]
    else
      var last := rows[|rows| - 1];
      CostTable(rows[..|rows| - 1])[Route(last) := last.cost]
  }

  /** The loop filling the costs dictionary row by row. */
  method LoadCosts(rows: seq<CostRow>) returns (costs: map<(Name, Name), int>)
    ensures costs == CostTable(rows)
  {
    costs := map[];
    for k := 0 to |rows|
      invariant costs == CostTable(rows[..k])
    {
      costs := costs[(rows[k].warehouse, rows[k].customer) := rows[k].cost];
      assert rows[..k + 1][..k] == rows[..k];
    }
    assert rows[..|rows|] == rows;
  }

  /** The keys of the costs dictionary are exactly the keys of the rows. */
  lemma {:induction false} CostTableKeys(rows: seq<CostRow>)
    ensures forall r :: r in CostTable(rows) <==> exists k :: 0 <= k < |rows| && Route(rows[k]) == r
  {
    if rows != [] {
      var init := rows[..|rows| - 1];
      CostTableKeys(init);
      forall r | r in CostTable(rows)
        ensures exists k :: 0 <= k < |rows| && Route(rows[k]) == r
      {
        if r != Route(rows[|rows| - 1]) {
          assert r in CostTable(init);
          var k :| 0 <= k < |init| && Route(init[k]) == r;
          assert Route(rows[k]) == r;
        }
      }
      forall r | exists k :: 0 <= k < |rows| && Route(rows[k]) == r
        ensures r in CostTable(rows)
      {
        var k :| 0 <= k < |rows| && Route(rows[k]) == r;
        if k < |rows| - 1 {
          assert Route(init[k]) == r;
        }
      }
    }
  }

  /** With distinct keys, the costs dictionary returns each row's cost for that row's key. */
  lemma {:induction false} CostTableLookup(rows: seq<CostRow>, k: nat)
    requires DistinctRoutes(rows)
    requires k < |rows|
    ensures Route(rows[k]) in CostTable(rows)
    ensures CostTable(rows)[Route(rows[k])] == rows[k].cost
  {
    var init := rows[..|rows| - 1];
    if k < |rows| - 1 {
      CostTableLookup(init, k);
    }
  }

  /**
   * The list read by `SELECT name` holds the same names as the rows read by
   * `SELECT *`, in an order of its own: neither query has an `ORDER BY`.
   */
  predicate SameNames(names: seq<Name>, rows: seq<NodeRow>)
  {
    multiset(names) == multiset(Names(rows))
  }

  /** A list without repetitions counts every name at most once. */
  lemma {:induction false} DistinctCounts(names: seq<Name>)
    requires Distinct(names)
    ensures forall n :: multiset(names)[n] <= 1
  {
    if names != [] {
      var init, last := names[..|names| - 1], names[|names| - 1];
      assert names == init + [last];
      DistinctLast(names);
      DistinctCounts(init);
      assert multiset(names) == multiset(init) + multiset{last};
    }
  }

  /** Two positions holding the same name make it count at least twice. */
  lemma RepeatCounts(names: seq<Name>, a: nat, b: nat)
    requires a < b < |names|
    ensures names[a] == names[b] ==> multiset(names)[names[a]] >= 2
  {
    var front := names[..b];
    assert names == front + [names[b]] + names[b + 1..];
    assert front[a] == names[a];
    assert multiset(names) == multiset(front) + multiset{names[b]} + multiset(names[b + 1..]);
  }

  /** Reordering a list without repetitions gives a list without repetitions. */
  lemma DistinctReordered(names: seq<Name>, others: seq<Name>)
    requires Distinct(others) && multiset(names) == multiset(others)
    ensures Distinct(names)
  {
    DistinctCounts(others);
    forall a, b | 0 <= a < b < |names|
      ensures names[a] != names[b]
    {
      RepeatCounts(names, a, b);
    }
  }

  /**
   * The loaded data: the warehouse and customer lists as the `SELECT name`
   * queries return them (in any order, holding the rows' names), the supply
   * and demand dictionaries and the costs dictionary.
   */
  datatype Problem = Problem(
    warehouses: seq<Name>,
    supply: map<Name, int>,
    customers: seq<Name>,
    demand: map<Name, int>,
    costs: map<(Name, Name), int>)

  /** Every listed warehouse has a supply and every listed customer a demand. */
  predicate WellFormed(p: Problem)
  {
    && (forall w :: w in p.warehouses ==> w in p.supply)
    && (forall c :: c in p.customers ==> c in p.demand)
  }

  /**
   * The data as loaded from the three tables. The lists come from the
   * `SELECT name` queries and the supply and demand dictionaries from the
   * `SELECT *` queries over the same tables, so looking up a listed
   * warehouse's supply or a listed customer's demand never fails.
   */
  function Snapshot(warehouses: seq<Name>, warehouseRows: seq<NodeRow>,
                    customers: seq<Name>, customerRows: seq<NodeRow>, costRows: seq<CostRow>): (p: Problem)
    requires SameNames(warehouses, warehouseRows) && SameNames(customers, customerRows)
    ensures WellFormed(p)
    ensures SameNames(p.warehouses, warehouseRows) && SameNames(p.customers, customerRows)
  {
    AmountMapKeys(warehouseRows);
    AmountMapKeys(customerRows);
    assert forall w :: w in warehouses <==> w in Names(warehouseRows) by {
      forall w
        ensures w in warehouses <==> w in Names(warehouseRows)
      {
        assert w in warehouses <==> w in multiset(warehouses);
        assert w in Names(warehouseRows) <==> w in multiset(Names(warehouseRows));
      }
    }
    assert forall c :: c in customers <==> c in Names(customerRows) by {
      forall c
        ensures c in customers <==> c in Names(customerRows)
      {
        assert c in customers <==> c in multiset(customers);
        assert c in Names(customerRows) <==> c in multiset(Names(customerRows));
      }
    }
    Problem(warehouses, AmountMap(warehouseRows), customers, AmountMap(customerRows), CostTable(costRows))
  }
}
