# Inventory optimisation: a Dafny model

`inventory_optimization_sql.py` is a single script. It fills three SQLite tables:

- `warehouses(name, supply)`;
- `customers(name, demand)`;
- `costs(warehouse, customer, cost)`.

It then reads them back into Python lists and dictionaries and states a transportation problem as an integer program in PuLP:

- one non-negative integer variable `x[w][c]` per warehouse/customer pair;
- the objective minimises the sum of `cost × quantity`;
- one `<= supply` constraint per warehouse;
- one `>= demand` constraint per customer.

It solves the program with CBC and prints the status, the total cost and every pair shipped in a positive quantity.

This project models that core in Dafny:

- **`Dataset`** (`dataset.dfy`): the rows read back from the tables. Also covered:
  - the name lists. `SELECT name` (lines 60 and 63) and `SELECT *` (lines 61 and 64) are separate queries without `ORDER BY`, so SQLite may return them in different orders. The model therefore takes each list as an input of its own. It requires only that the list holds the same names as the rows (`SameNames`, equal multisets), in any order;
  - the supply and demand dictionaries, built by comprehension;
  - the costs dictionary, built by the row loop (`LoadCosts`, proved equal to the fold `CostTable`);
  - the loaded data as a `Problem` value.
- **`Formulation`** (`formulation.dfy`): the meaning of the integer program, stated on a map `x` from (warehouse, customer) to an integer quantity:
  - row sums and column sums;
  - total cost;
  - `Feasible`;
  - the list of pairs in the order the nested comprehension visits them.
  
  Its proved properties: feasibility implies total supply ≥ total demand, and costs ≥ 0 imply total cost ≥ 0.
- **`ModelBuilder`** (`model_builder.dfy`): the `LpProblem` the script assembles, as a value made of variables, objective terms and constraints.
  - `BuildModel` is the imperative construction: the objective, then the two constraint loops. It is proved equal to `Formulate`.
  - A missing cost key fails with `MissingCost(pair)`, which stands for the `KeyError` of `costs[(i, j)]`. `FormulateFails` proves that this happens exactly when some pair has no cost.
  - `FormulateMeaning` proves two things. The objective evaluates to `TotalCost`. The constraints and variable bounds hold exactly when `Feasible` does.
- **`PlanExtractor`** (`plan_extractor.dfy`): the reporting loop (`ExtractPlan`), proved equal to `ShippingPlan`. The plan is then characterised in four ways:
  - by membership: exactly the positive pairs;
  - by order: warehouse-major, then customer;
  - by cost: the plan's cost equals the objective;
  - by flows: each warehouse's outgoing total is its row sum, and each customer's incoming total is its column sum.
- **`Pipeline`** (`pipeline.dfy`): one run, `Optimize`, from table rows to a report. It also holds the script's sample data and a plan for it:
  - the plan is proved feasible, proved to cost 450, and proved to print as four lines;
  - `SampleOptimal` proves that no feasible plan for the sample data costs less than 450, so this plan is optimal.

The solver is not modelled. `Optimize` takes its answer as a parameter: a status and an integer per variable. Its preconditions are:

- the warehouse names and the customer names are each distinct (the `name` primary keys make non-NULL names distinct);
- each name list holds the same names as its table's rows;
- the answer has a value for every warehouse/customer pair, whatever its status;
- an answer reported `Optimal` is feasible.

For a general run, optimality itself (the minimum cost) is not stated.

## Model

| member | source | states |
|---|---|---|
| Dataset.LoadCosts | inventory_optimization_sql.py:66-68 | the costs-dictionary loop yields exactly `CostTable(rows)`, the row-by-row fold in which a later row with the same key replaces an earlier one |
| Dataset.CostTableKeys | inventory_optimization_sql.py:66-68 | a pair is a key of the costs dictionary iff some cost row has that (warehouse, customer) |
| Dataset.CostTableLookup | inventory_optimization_sql.py:39 | under the `(warehouse, customer)` primary key, the dictionary returns each row's own cost for that row's pair |
| Dataset.AmountMapKeys | inventory_optimization_sql.py:60-64 | the supply (demand) dictionary has a key for a name iff some `SELECT *` row has that name |
| Dataset.AmountMapLookup | inventory_optimization_sql.py:61 | with distinct names (the `name` primary key), the dictionary maps each row's name to that row's supply or demand |
| Dataset.Snapshot | inventory_optimization_sql.py:60-68 | for name lists holding the same names as the rows, in any order, every listed warehouse has a supply and every listed customer a demand, and the lists keep those names |
| Dataset.DistinctReordered | inventory_optimization_sql.py:60-64 | a list holding the same names as a list without repetitions has no repetitions either, so the `SELECT name` list is distinct like the primary-key column |
| Formulation.RowsEqualCols | inventory_optimization_sql.py:82-87 | summing all shipments warehouse by warehouse gives the same total as summing them customer by customer |
| Formulation.FeasibleSupplyCoversDemand | inventory_optimization_sql.py:82-87 | any plan meeting the supply and demand constraints implies total listed supply ≥ total listed demand |
| Formulation.FeasibleCostNonnegative | inventory_optimization_sql.py:76-79 | with non-negative unit costs, a feasible plan (quantities ≥ 0) has non-negative total cost |
| Formulation.TotalPermutation | inventory_optimization_sql.py:60-64 | the total supply (demand) over a name list does not depend on the order the list comes in |
| Formulation.TotalOfNames | inventory_optimization_sql.py:60-64 | with distinct names, the dictionary's total over the `SELECT name` list, in whatever order it comes, equals the sum of the table's amount column |
| Formulation.TotalOfRows | inventory_optimization_sql.py:60-64 | with distinct names, summing the dictionary over the name list equals summing the amount column of the rows |
| Formulation.RoutesMembers | inventory_optimization_sql.py:76-79 | the pair list visited by `for i in warehouses for j in customers` holds exactly the warehouse × customer pairs |
| Formulation.CostOfRoutes | inventory_optimization_sql.py:79 | the objective summed in the comprehension's list order equals the total cost summed warehouse by warehouse |
| Formulation.TotalCostNonnegative | inventory_optimization_sql.py:79 | non-negative costs and quantities give a non-negative objective value |
| ModelBuilder.ObjectiveTerms | inventory_optimization_sql.py:79 | succeeds iff every pair has a cost, then holds one `cost × x[pair]` term per pair in list order; otherwise it fails on a missing pair whose predecessors all have costs |
| ModelBuilder.BuildModel | inventory_optimization_sql.py:73-87 | the imperative construction (objective, then one supply constraint per warehouse, then one demand constraint per customer) yields exactly `Formulate(p)`, including its failure |
| ModelBuilder.FormulateFails | inventory_optimization_sql.py:66-79 | building fails iff some warehouse/customer pair has no cost row, and the reported pair is such a listed pair without cost |
| ModelBuilder.FormulateMeaning | inventory_optimization_sql.py:76-87 | the built objective evaluates to the total cost, and `x` satisfies the bounds and all constraints iff `Feasible` holds (both directions) |
| ModelBuilder.SupplyTermsEval | inventory_optimization_sql.py:83 | the left side of a warehouse's constraint evaluates to that warehouse's row sum |
| ModelBuilder.DemandTermsEval | inventory_optimization_sql.py:87 | the left side of a customer's constraint evaluates to that customer's column sum |
| ModelBuilder.WithinBoundsNonnegative | inventory_optimization_sql.py:76 | the `lowBound=0` bounds hold iff every quantity is non-negative |
| PlanExtractor.ExtractPlan | inventory_optimization_sql.py:99-102 | the reporting loop yields exactly `ShippingPlan`: the positive pairs with their quantities, in loop order |
| PlanExtractor.ShippingPlanMembers | inventory_optimization_sql.py:99-102 | a line is in the plan iff its warehouse and customer are listed, its quantity is the solved value, and that value is > 0 |
| PlanExtractor.PlanInLoopOrder | inventory_optimization_sql.py:99-100 | with distinct names, the lines appear warehouse by warehouse in list order, and within a warehouse customer by customer |
| PlanExtractor.PlanCostMatchesObjective | inventory_optimization_sql.py:99-102 | for non-negative quantities, dropping the zero pairs keeps the cost: the printed lines cost exactly the objective value |
| PlanExtractor.PlanFlows | inventory_optimization_sql.py:99-102 | with distinct names and non-negative quantities, each warehouse's printed outgoing total is its row sum and each customer's printed incoming total is its column sum |
| PlanExtractor.PositiveOnlyMembers | inventory_optimization_sql.py:101 | the filter keeps a line iff it was present and its quantity is > 0 |
| PlanExtractor.IndexOf | inventory_optimization_sql.py:99-100 | returns the first position of a name in the list |
| Pipeline.Optimize | inventory_optimization_sql.py:60-102 | a run fails iff some pair has no cost. Otherwise it reports the solver's status, the total cost and the printed plan. For an optimal answer it also gives: each printed line has a cost, the lines cost the reported total, no warehouse ships more than its supply, every customer receives at least its demand, and total supply ≥ total demand |
| Pipeline.FeasiblePlanWithinRows | inventory_optimization_sql.py:82-102 | for a feasible answer, the printed lines ship out of each warehouse at most its row's supply and into each customer at least its row's demand |
| Pipeline.SampleLoaded | inventory_optimization_sql.py:44-45 | loading the sample rows gives lists W1,W2 and C1,C2,C3, supplies 80/70 and demands 40/50/60 |
| Pipeline.SampleCostsLoaded | inventory_optimization_sql.py:46-49 | loading the sample cost rows gives a cost for every pair: 2, 4, 5 from W1 and 3, 1, 7 from W2 |
| Pipeline.SamplePlanFeasible | inventory_optimization_sql.py:44-49 | the plan W1→C1 20, W1→C3 60, W2→C1 20, W2→C2 50 meets every sample supply and demand constraint |
| Pipeline.SamplePlanCost | inventory_optimization_sql.py:44-49 | that plan costs 450 |
| Pipeline.SampleOptimal | inventory_optimization_sql.py:44-49 | every feasible plan for the sample data costs at least 450, so the plan above is optimal (dual weights 1, 0 on supplies and 3, 1, 6 on demands) |
| Pipeline.SampleRoutesInOrder | inventory_optimization_sql.py:99-100 | on the sample lists the loops visit the six pairs W1-C1 … W2-C3 in that order |
| Pipeline.SamplePlanLines | inventory_optimization_sql.py:99-102 | on the sample data that plan is printed as exactly four lines, in loop order |

## Left out

- SQLite (lines 11-55 and 105) is not modelled. The tables are given as sequences of rows in the order `SELECT *` returns them, and the name lists as separate sequences in the order `SELECT name` returns them. Which order SQLite picks (insertion order or primary-key order) is not modelled: every order is allowed. Table creation, the inserts and closing the connection are outside the model.
- The CBC call (line 90) is not modelled. The solver's answer is a parameter of `Pipeline.Optimize`. The model does not check that the answer is optimal: it relies only on an `Optimal` answer being feasible.
- Pipeline.Optimize: it does not state that the reported total cost is the minimum over all feasible plans, because minimality is the solver's promise and not something the script computes.
- Pipeline.Optimize: it requires distinct warehouse and customer names. The `name TEXT PRIMARY KEY` columns give distinct non-NULL names. SQLite lets such a column hold NULL, and several NULLs, which the model does not cover.
- The printing of the status, the cost and the lines (lines 95-102) is not modelled as text. The report holds the status, the total and the list of printed lines instead. The lookup of the status name in `pulp.LpStatus` is left out.
- The quantities are floats in PuLP and in the printed lines. The model uses integers, matching `cat="Integer"`. Solver tolerances and values printed as `20.0` are not modelled.
- PuLP's `LpProblem` and `LpVariable` objects are represented as a plain value (`ModelBuilder.LpProblem`): variables, objective terms and constraints. Their internal bookkeeping (variable names like `ship_W1_C1`, the problem name) is not modelled. The `LpMinimize` sense is not modelled either: `LpProblem` has no sense field, and no contract speaks of minimisation.
- The tables' primary keys rule out duplicate rows only for non-NULL keys. For duplicate keys, the model keeps Python's dictionary semantics: a later row replaces an earlier one.
- Column values: names are modelled as non-NULL strings, and supplies, demands and costs as integers. SQLite does not enforce either. A nullable `TEXT PRIMARY KEY` accepts NULL, and an `INTEGER` column with type affinity accepts REAL or TEXT values. NULL or non-integer column values, which Python would see as `None`, floats or strings, are outside the model.
- Things the script does not do:
  - no validation before solving;
  - the filter is exactly `> 0`;
  - CBC runs without a time limit;
  - the printed lines are not sorted. They follow the order of the `SELECT name` lists.
