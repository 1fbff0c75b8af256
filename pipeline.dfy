/**
 * One run of the program: load the tables, build the integer program, take
 * the external solver's answer and report the status, the total cost and the
 * shipping lines.
 */
module Pipeline {
  import opened Dataset
  import opened Formulation
  import opened ModelBuilder
  import opened PlanExtractor

  /** The solver statuses PuLP distinguishes. */
  datatype Status = NotSolved | Optimal | Infeasible | Unbounded | Undefined

  /** What the external solver hands back: a status and an integer value for every variable. */
  datatype SolverAnswer = SolverAnswer(status: Status, values: Quantities)

  /** What the program reports: the status, the value of the objective and the shipping lines. */
  datatype Report = Report(status: Status, totalCost: int, plan: seq<Shipment>)

  /**
   * The run. The lists `warehouses` and `customers` are what the `SELECT name`
   * queries return: the tables' names, in an order the queries do not fix.
   * The solver is outside the model: its answer is a parameter, with a value
   * for every pair, and all the run relies on is that an answer reported
   * optimal is feasible. The tables' primary keys make the names distinct.
   */
  method Optimize(warehouses: seq<Name>, warehouseRows: seq<NodeRow>,
                  customers: seq<Name>, customerRows: seq<NodeRow>, costRows: seq<CostRow>,
                  answer: SolverAnswer) returns (r: Result<Report>)
    requires Distinct(Names(warehouseRows)) && Distinct(Names(customerRows))
    requires SameNames(warehouses, warehouseRows) && SameNames(customers, customerRows)
    requires Covers(answer.values, warehouses, customers)
    requires answer.status == Optimal ==>
               Feasible(Snapshot(warehouses, warehouseRows, customers, customerRows, costRows), answer.values)
    ensures r.Failure? <==> !Covers(CostTable(costRows), warehouses, customers)
    ensures r.Failure? ==>
              var (w, c) := r.error.route;
              w in warehouses && c in customers && (w, c) !in CostTable(costRows)
    ensures r.Success? ==>
              && r.value.status == answer.status
              && r.value.totalCost == TotalCost(CostTable(costRows), answer.values, warehouses, customers)
              && r.value.plan == ShippingPlan(warehouses, customers, answer.values)
              && (forall s :: s in r.value.plan ==> s.quantity > 0)
    ensures r.Success? && answer.status == Optimal ==>
              && (forall s :: s in r.value.plan ==> (s.warehouse, s.customer) in CostTable(costRows))
              && PlanCost(CostTable(costRows), r.value.plan) == r.value.totalCost
              && (forall k :: 0 <= k < |warehouseRows| ==>
                    Outgoing(r.value.plan, warehouseRows[k].name) <= warehouseRows[k].amount)
              && (forall k :: 0 <= k < |customerRows| ==>
                    Incoming(r.value.plan, customerRows[k].name) >= customerRows[k].amount)
    ensures answer.status == Optimal ==> AmountTotal(warehouseRows) >= AmountTotal(customerRows)
  {
    var costs := LoadCosts(costRows);
    var p := Problem(warehouses, AmountMap(warehouseRows), customers, AmountMap(customerRows), costs);
    assert p == Snapshot(warehouses, warehouseRows, customers, customerRows, costRows);
    var ws, cs, x := warehouses, customers, answer.values;
    DistinctReordered(ws, Names(warehouseRows));
    DistinctReordered(cs, Names(customerRows));
    TotalOfNames(ws, warehouseRows);
    TotalOfNames(cs, customerRows);
    if answer.status == Optimal {
      FeasibleSupplyCoversDemand(p, x);
    }
    FormulateFails(p);
    var built := BuildModel(p);
    if built.Failure? {
      return Failure(built.error);
    }
    FormulateMeaning(p, x);
    var plan := ExtractPlan(ws, cs, x);
    ShippingPlanMembers(ws, cs, x);
    r := Success(Report(answer.status, Eval(built.value.objective, x), plan));
    if answer.status == Optimal {
      PlanCostMatchesObjective(costs, ws, cs, x);
      FeasiblePlanWithinRows(ws, warehouseRows, cs, customerRows, costRows, x);
    }
  }

  /**
   * For a feasible answer, the printed lines ship out of no warehouse more
   * than its row's supply and into every customer at least its row's demand.
   */
  lemma FeasiblePlanWithinRows(warehouses: seq<Name>, warehouseRows: seq<NodeRow>,
                               customers: seq<Name>, customerRows: seq<NodeRow>, costRows: seq<CostRow>,
                               x: Quantities)
    requires Distinct(Names(warehouseRows)) && Distinct(Names(customerRows))
    requires SameNames(warehouses, warehouseRows) && SameNames(customers, customerRows)
    requires Feasible(Snapshot(warehouses, warehouseRows, customers, customerRows, costRows), x)
    ensures forall k :: 0 <= k < |warehouseRows| ==>
              Outgoing(ShippingPlan(warehouses, customers, x), warehouseRows[k].name) <= warehouseRows[k].amount
    ensures forall k :: 0 <= k < |customerRows| ==>
              Incoming(ShippingPlan(warehouses, customers, x), customerRows[k].name) >= customerRows[k].amount
  {
    var p := Snapshot(warehouses, warehouseRows, customers, customerRows, costRows);
    DistinctReordered(warehouses, Names(warehouseRows));
    DistinctReordered(customers, Names(customerRows));
    PlanFlows(warehouses, customers, x);
    ReorderedMembers(Names(warehouseRows), warehouses);
    ReorderedMembers(Names(customerRows), customers);
    forall k | 0 <= k < |warehouseRows|
      ensures Outgoing(ShippingPlan(warehouses, customers, x), warehouseRows[k].name) <= warehouseRows[k].amount
    {
      AmountMapLookup(warehouseRows, k);
      assert warehouseRows[k].name == Names(warehouseRows)[k];
      assert warehouseRows[k].name in p.warehouses;
    }
    forall k | 0 <= k < |customerRows|
      ensures Incoming(ShippingPlan(warehouses, customers, x), customerRows[k].name) >= customerRows[k].amount
    {
      AmountMapLookup(customerRows, k);
      assert customerRows[k].name == Names(customerRows)[k];
      assert customerRows[k].name in p.customers;
    }
  }

  /** The sample rows the program inserts into its three tables. */
  const SampleWarehouses: seq<NodeRow> := [NodeRow("W1", 80), NodeRow("W2", 70)]
  const SampleCustomers: seq<NodeRow> := [NodeRow("C1", 40), NodeRow("C2", 50), NodeRow("C3", 60)]
  const SampleCosts: seq<CostRow> := [
    CostRow("W1", "C1", 2), CostRow("W1", "C2", 4), CostRow("W1", "C3", 5),
    CostRow("W2", "C1", 3), CostRow("W2", "C2", 1), CostRow("W2", "C3", 7)
  ]

  /**
   * The sample data as loaded. Whether `SELECT name` answers in insertion
   * order or in primary-key order, the sample names come back as W1, W2 and
   * C1, C2, C3.
   */
  function SampleProblem(): Problem
  {
    assert Names(SampleWarehouses) == ["W1", "W2"];
    assert Names(SampleCustomers) == ["C1", "C2", "C3"];
    Snapshot(["W1", "W2"], SampleWarehouses, ["C1", "C2", "C3"], SampleCustomers, SampleCosts)
  }

  /** A plan for the sample data: W1 sends 20 to C1 and 60 to C3, W2 sends 20 to C1 and 50 to C2. */
  const SamplePlan: Quantities := map[
    ("W1", "C1") := 20, ("W1", "C2") := 0, ("W1", "C3") := 60,
    ("W2", "C1") := 20, ("W2", "C2") := 50, ("W2", "C3") := 0
  ]

  /** The sample lists, supplies and demands as loaded. */
  lemma SampleLoaded()
    ensures var p := SampleProblem();
            && p.warehouses == ["W1", "W2"] && p.customers == ["C1", "C2", "C3"]
            && p.supply["W1"] == 80 && p.supply["W2"] == 70
            && p.demand["C1"] == 40 && p.demand["C2"] == 50 && p.demand["C3"] == 60
  {
    AmountMapLookup(SampleWarehouses, 0);
    AmountMapLookup(SampleWarehouses, 1);
    AmountMapLookup(SampleCustomers, 0);
    AmountMapLookup(SampleCustomers, 1);
    AmountMapLookup(SampleCustomers, 2);
  }

  /** The sample unit costs as loaded: one for every pair. */
  lemma SampleCostsLoaded()
    ensures var p := SampleProblem();
            && Covers(p.costs, ["W1", "W2"], ["C1", "C2", "C3"])
            && p.costs[("W1", "C1")] == 2 && p.costs[("W1", "C2")] == 4 && p.costs[("W1", "C3")] == 5
            && p.costs[("W2", "C1")] == 3 && p.costs[("W2", "C2")] == 1 && p.costs[("W2", "C3")] == 7
  {
    CostTableLookup(SampleCosts, 0);
    CostTableLookup(SampleCosts, 1);
    CostTableLookup(SampleCosts, 2);
    CostTableLookup(SampleCosts, 3);
    CostTableLookup(SampleCosts, 4);
    CostTableLookup(SampleCosts, 5);
  }

  /** On the sample data the plan above costs 450. */
  lemma SamplePlanCost()
    ensures var p := SampleProblem();
            && Covers(p.costs, p.warehouses, p.customers)
            && TotalCost(p.costs, SamplePlan, p.warehouses, p.customers) == 450
  {
    SampleLoaded();
    SamplePlanNonnegative();
    SampleCostExpanded(SamplePlan);
  }

  /** What each sample warehouse ships out and each sample customer receives under the plan above. */
  lemma SamplePlanSums()
    ensures RowSum(SamplePlan, "W1", ["C1", "C2", "C3"]) == 80
    ensures RowSum(SamplePlan, "W2", ["C1", "C2", "C3"]) == 70
    ensures ColSum(SamplePlan, ["W1", "W2"], "C1") == 40
    ensures ColSum(SamplePlan, ["W1", "W2"], "C2") == 50
    ensures ColSum(SamplePlan, ["W1", "W2"], "C3") == 60
  {
    var ws, cs := ["W1", "W2"], ["C1", "C2", "C3"];
    assert cs[..2] == ["C1", "C2"] && ["C1", "C2"][..1] == ["C1"] && ["C1"][..0] == [];
    assert ws[..1] == ["W1"] && ["W1"][..0] == [];
  }

  /** The plan above gives every sample pair a quantity of at least 0. */
  lemma SamplePlanNonnegative()
    ensures Covers(SamplePlan, ["W1", "W2"], ["C1", "C2", "C3"])
    ensures Nonnegative(SamplePlan, ["W1", "W2"], ["C1", "C2", "C3"])
  {
  }

  /** On the sample data the plan above is feasible. */
  lemma SamplePlanFeasible()
    ensures var p := SampleProblem();
            Feasible(p, SamplePlan)
  {
    SampleLoaded();
    SamplePlanNonnegative();
    SamplePlanSums();
    var p := SampleProblem();
    var ws, cs := p.warehouses, p.customers;
    forall w | w in ws
      ensures RowSum(SamplePlan, w, cs) <= p.supply[w]
    {
      assert w == "W1" || w == "W2";
    }
    forall c | c in cs
      ensures ColSum(SamplePlan, ws, c) >= p.demand[c]
    {
      assert c == "C1" || c == "C2" || c == "C3";
    }
  }

  /** Row and column sums of any plan on the sample lists, written out. */
  lemma SampleSumsExpanded(x: Quantities)
    requires Covers(x, ["W1", "W2"], ["C1", "C2", "C3"])
    ensures RowSum(x, "W1", ["C1", "C2", "C3"]) == x[("W1", "C1")] + x[("W1", "C2")] + x[("W1", "C3")]
    ensures RowSum(x, "W2", ["C1", "C2", "C3"]) == x[("W2", "C1")] + x[("W2", "C2")] + x[("W2", "C3")]
    ensures ColSum(x, ["W1", "W2"], "C1") == x[("W1", "C1")] + x[("W2", "C1")]
    ensures ColSum(x, ["W1", "W2"], "C2") == x[("W1", "C2")] + x[("W2", "C2")]
    ensures ColSum(x, ["W1", "W2"], "C3") == x[("W1", "C3")] + x[("W2", "C3")]
  {
    var ws, cs := ["W1", "W2"], ["C1", "C2", "C3"];
    assert cs[..2] == ["C1", "C2"] && ["C1", "C2"][..1] == ["C1"] && ["C1"][..0] == [];
    assert ws[..1] == ["W1"] && ["W1"][..0] == [];
  }

  /** The sample objective of any plan, written out with the sample unit costs. */
  lemma SampleCostExpanded(x: Quantities)
    requires Covers(x, ["W1", "W2"], ["C1", "C2", "C3"])
    ensures Covers(SampleProblem().costs, ["W1", "W2"], ["C1", "C2", "C3"])
    ensures TotalCost(SampleProblem().costs, x, ["W1", "W2"], ["C1", "C2", "C3"])
         == 2 * x[("W1", "C1")] + 4 * x[("W1", "C2")] + 5 * x[("W1", "C3")]
          + 3 * x[("W2", "C1")] + 1 * x[("W2", "C2")] + 7 * x[("W2", "C3")]
  {
    SampleCostsLoaded();
    var ws, cs := ["W1", "W2"], ["C1", "C2", "C3"];
    assert cs[..2] == ["C1", "C2"] && ["C1", "C2"][..1] == ["C1"] && ["C1"][..0] == [];
    assert ws[..1] == ["W1"] && ["W1"][..0] == [];
  }

  /**
   * No feasible plan for the sample data costs less than 450, so the plan
   * above is optimal. The weights 1 and 0 on the supply constraints and 3, 1
   * and 6 on the demand constraints price every pair at or below its unit
   * cost and add up to 3*40 + 1*50 + 6*60 - 1*80 = 450.
   */
  lemma SampleOptimal(x: Quantities)
    requires Feasible(SampleProblem(), x)
    ensures var p := SampleProblem();
            && Covers(p.costs, p.warehouses, p.customers)
            && TotalCost(p.costs, x, p.warehouses, p.customers) >= 450
  {
    SampleLoaded();
    var p := SampleProblem();
    var ws, cs := p.warehouses, p.customers;
    SampleSumsExpanded(x);
    SampleCostExpanded(x);
    assert "W1" in ws && "W2" in ws && "C1" in cs && "C2" in cs && "C3" in cs;
    assert x[("W1", "C2")] >= 0 && x[("W2", "C3")] >= 0;
    assert RowSum(x, "W1", cs) <= 80;
    assert ColSum(x, ws, "C1") >= 40 && ColSum(x, ws, "C2") >= 50 && ColSum(x, ws, "C3") >= 60;
  }

  /** The six sample pairs in loop order: warehouse by warehouse, then customer by customer. */
  const SampleRoutes: seq<(Name, Name)> :=
    [("W1", "C1"), ("W1", "C2"), ("W1", "C3"), ("W2", "C1"), ("W2", "C2"), ("W2", "C3")]

  /** The sample pairs, listed as the nested loops visit them. */
  lemma SampleRoutesInOrder()
    ensures Routes(["W1", "W2"], ["C1", "C2", "C3"]) == SampleRoutes
  {
    var ws, cs := ["W1", "W2"], ["C1", "C2", "C3"];
    assert cs[..2] == ["C1", "C2"] && ["C1", "C2"][..1] == ["C1"] && ["C1"][..0] == [];
    assert ws[..1] == ["W1"] && ["W1"][..0] == [];
    assert RowRoutes("W1", cs) == SampleRoutes[..3];
    assert RowRoutes("W2", cs) == SampleRoutes[3..];
  }

  /** Every sample pair with its quantity in the sample plan. */
  lemma SampleShipments()
    ensures Valued(SampleRoutes, SamplePlan)
    ensures ShipmentsOf(SampleRoutes, SamplePlan)
            == [Shipment("W1", "C1", 20), Shipment("W1", "C2", 0), Shipment("W1", "C3", 60),
                Shipment("W2", "C1", 20), Shipment("W2", "C2", 50), Shipment("W2", "C3", 0)]
  {
    var r, x := SampleRoutes, SamplePlan;
    assert r[..1][..0] == [] && r[..2][..1] == r[..1] && r[..3][..2] == r[..2];
    assert r[..4][..3] == r[..3] && r[..5][..4] == r[..4] && r[..6] == r;
    assert ShipmentsOf(r[..1], x) == [Shipment("W1", "C1", 20)];
    assert ShipmentsOf(r[..2], x) == [Shipment("W1", "C1", 20), Shipment("W1", "C2", 0)];
    assert ShipmentsOf(r[..3], x) == ShipmentsOf(r[..2], x) + [Shipment("W1", "C3", 60)];
    assert ShipmentsOf(r[..4], x) == ShipmentsOf(r[..3], x) + [Shipment("W2", "C1", 20)];
    assert ShipmentsOf(r[..5], x) == ShipmentsOf(r[..4], x) + [Shipment("W2", "C2", 50)];
  }

  /** The two zero lines of the sample plan are dropped. */
  lemma SamplePositive()
    ensures PositiveOnly([Shipment("W1", "C1", 20), Shipment("W1", "C2", 0), Shipment("W1", "C3", 60),
                          Shipment("W2", "C1", 20), Shipment("W2", "C2", 50), Shipment("W2", "C3", 0)])
            == [Shipment("W1", "C1", 20), Shipment("W1", "C3", 60),
                Shipment("W2", "C1", 20), Shipment("W2", "C2", 50)]
  {
    var s := [Shipment("W1", "C1", 20), Shipment("W1", "C2", 0), Shipment("W1", "C3", 60),
              Shipment("W2", "C1", 20), Shipment("W2", "C2", 50), Shipment("W2", "C3", 0)];
    assert s[..1][..0] == [] && s[..2][..1] == s[..1] && s[..3][..2] == s[..2];
    assert s[..4][..3] == s[..3] && s[..5][..4] == s[..4] && s[..6] == s;
    assert PositiveOnly(s[..1]) == [s[0]];
    assert PositiveOnly(s[..2]) == [s[0]];
    assert PositiveOnly(s[..3]) == [s[0], s[2]];
    assert PositiveOnly(s[..4]) == [s[0], s[2], s[3]];
    assert PositiveOnly(s[..5]) == [s[0], s[2], s[3], s[4]];
  }

  /** On the sample data the plan above is reported as four lines, in loop order. */
  lemma SamplePlanLines()
    ensures var p := SampleProblem();
            && Covers(SamplePlan, p.warehouses, p.customers)
            && ShippingPlan(p.warehouses, p.customers, SamplePlan)
               == [Shipment("W1", "C1", 20), Shipment("W1", "C3", 60),
                   Shipment("W2", "C1", 20), Shipment("W2", "C2", 50)]
  {
    SampleLoaded();
    SampleRoutesInOrder();
    SampleShipments();
    SamplePositive();
    RoutesMembers(["W1", "W2"], ["C1", "C2", "C3"]);
  }
}
