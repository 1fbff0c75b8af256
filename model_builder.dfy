/**
 * The model builder: the integer program handed to the solver, built in the
 * order the program builds it (the variables, then the objective, then one
 * supply constraint per warehouse, then one demand constraint per customer),
 * and what it means for a candidate answer.
 */
module ModelBuilder {
  import opened Dataset
  import opened Formulation

  /** The lookup failure raised when the objective needs a cost the costs dictionary lacks. */
  datatype BuildError = MissingCost(route: (Name, Name))

  datatype Result<T> = Success(value: T) | Failure(error: BuildError)

  /** `coef * ship_<warehouse>_<customer>` */
  datatype Term = Term(coef: int, route: (Name, Name))

  datatype Sense = AtMost | AtLeast

  /** `lhs <= rhs` or `lhs >= rhs` */
  datatype Constraint = Constraint(lhs: seq<Term>, sense: Sense, rhs: int)

  /**
   * A minimisation problem: its integer variables, each with lower bound 0,
   * the objective to minimise and the constraints in the order they were added.
   */
  datatype LpProblem = LpProblem(variables: seq<(Name, Name)>, objective: seq<Term>, constraints: seq<Constraint>)

  /** Every variable the terms mention has a value. */
  predicate Defined(terms: seq<Term>, x: Quantities)
  {
    forall t :: t in terms ==> t.route in x
  }

  /** The value of a linear expression under the variable values `x`. */
  function Eval(terms: seq<Term>, x: Quantities): int
    requires Defined(terms, x)
    decreases |terms|
  {
    if terms == [] then 0
    else
      var t := terms[|terms| - 1];
      Eval(terms[..|terms| - 1], x) + t.coef * x[t.route]
  }

  predicate Holds(con: Constraint, x: Quantities)
    requires Defined(con.lhs, x)
  {
    match con.sense
    case AtMost => Eval(con.lhs, x) <= con.rhs
    case AtLeast => Eval(con.lhs, x) >= con.rhs
  }

  /** Every variable in the list has a value of at least 0. */
  predicate WithinBounds(variables: seq<(Name, Name)>, x: Quantities)
  {
    forall v :: v in variables ==> v in x && x[v] >= 0
  }

  /** Every constraint in the list holds. */
  predicate AllHold(constraints: seq<Constraint>, x: Quantities)
  {
    forall con :: con in constraints ==> Defined(con.lhs, x) && Holds(con, x)
  }

  /** The values respect every variable's lower bound and every constraint. */
  predicate Satisfied(m: LpProblem, x: Quantities)
  {
    WithinBounds(m.variables, x) && AllHold(m.constraints, x)
  }

  /**
   * The objective's terms `costs[(i, j)] * x[i][j]` for the pairs in order.
   * Looking up a pair the costs dictionary lacks fails, and the failure names
   * the first such pair, where the program's comprehension stops.
   */
  function ObjectiveTerms(costs: map<(Name, Name), int>, routes: seq<(Name, Name)>): (r: Result<seq<Term>>)
    decreases |routes|
    ensures r.Success? <==> forall q :: q in routes ==> q in costs
    ensures r.Success? ==> |r.value| == |routes|
    ensures r.Success? ==> forall k :: 0 <= k < |routes| ==> r.value[k] == Term(costs[routes[k]], routes[k])
    ensures r.Failure? ==> exists k :: 0 <= k < |routes| && routes[k] == r.error.route && routes[k] !in costs
                                      && forall i :: 0 <= i < k ==> routes[i] in costs
  {
    if routes == [] then Success([])
    else
      var init, last := routes[..|routes| - 1], routes[|routes| - 1];
      assert routes == init + [last];
      assert forall i :: 0 <= i < |init| ==> routes[i] == init[i];
      var prefix := ObjectiveTerms(costs, init);
      if prefix.Failure? then
        Failure(prefix.error)
      else if last !in costs then
        assert routes[|routes| - 1] == last;
        Failure(MissingCost(last))
      else
        Success(prefix.value + [Term(costs[last], last)])
  }

  /** `lpSum([x[w][j] for j in customers])` */
  function SupplyTerms(w: Name, cs: seq<Name>): seq<Term>
    decreases |cs|
  {
    if cs == [] then [] else SupplyTerms(w, cs[..|cs| - 1]) + [Term(1, (w, cs[|cs| - 1]))]
  }

  /** `lpSum([x[i][c] for i in warehouses])` */
  function DemandTerms(ws: seq<Name>, c: Name): seq<Term>
    decreases |ws|
  {
    if ws == [] then [] else DemandTerms(ws[..|ws| - 1], c) + [Term(1, (ws[|ws| - 1], c))]
  }

  /** Warehouse `w` ships at most its supply. */
  function SupplyConstraint(p: Problem, w: Name): Constraint
    requires w in p.supply
  {
    Constraint(SupplyTerms(w, p.customers), AtMost, p.supply[w])
  }

  /** Customer `c` receives at least its demand. */
  function DemandConstraint(p: Problem, c: Name): Constraint
    requires c in p.demand
  {
    Constraint(DemandTerms(p.warehouses, c), AtLeast, p.demand[c])
  }

  function SupplyConstraints(p: Problem, ws: seq<Name>): seq<Constraint>
    requires forall w :: w in ws ==> w in p.supply
    decreases |ws|
  {
    if ws == [] then [] else SupplyConstraints(p, ws[..|ws| - 1]) + [SupplyConstraint(p, ws[|ws| - 1])]
  }

  function DemandConstraints(p: Problem, cs: seq<Name>): seq<Constraint>
    requires forall c :: c in cs ==> c in p.demand
    decreases |cs|
  {
    if cs == [] then [] else DemandConstraints(p, cs[..|cs| - 1]) + [DemandConstraint(p, cs[|cs| - 1])]
  }

  /** The problem the program builds from the loaded data, or the lookup failure that stops it. */
  function Formulate(p: Problem): Result<LpProblem>
    requires WellFormed(p)
  {
    var variables := Routes(p.warehouses, p.customers);
    var objective := ObjectiveTerms(p.costs, variables);
    if objective.Failure? then Failure(objective.error)
    else
      Success(LpProblem(variables, objective.value,
                        SupplyConstraints(p, p.warehouses) + DemandConstraints(p, p.customers)))
  }

  /**
   * Builds the problem step by step: the variables, the objective, then the
   * constraints added one at a time by the two loops.
   */
  method BuildModel(p: Problem) returns (r: Result<LpProblem>)
    requires WellFormed(p)
    ensures r == Formulate(p)
  {
    var ws, cs := p.warehouses, p.customers;
    var variables := Routes(ws, cs);
    var objective := ObjectiveTerms(p.costs, variables);
    if objective.Failure? {
      return Failure(objective.error);
    }
    var constraints: seq<Constraint> := [];
    for i := 0 to |ws|
      invariant constraints == SupplyConstraints(p, ws[..i])
    {
      SupplyStep(p, i);
      constraints := constraints + [SupplyConstraint(p, ws[i])];
    }
    assert ws[..|ws|] == ws;
    ghost var supplyPart := constraints;
    for j := 0 to |cs|
      invariant constraints == supplyPart + DemandConstraints(p, cs[..j])
    {
      DemandStep(p, j);
      constraints := constraints + [DemandConstraint(p, cs[j])];
    }
    assert cs[..|cs|] == cs;
    r := Success(LpProblem(variables, objective.value, constraints));
  }

  /** One more warehouse adds its supply constraint at the end. */
  lemma SupplyStep(p: Problem, i: nat)
    requires WellFormed(p) && i < |p.warehouses|
    ensures p.warehouses[i] in p.supply
    ensures forall w :: w in p.warehouses[..i] ==> w in p.supply
    ensures forall w :: w in p.warehouses[..i + 1] ==> w in p.supply
    ensures SupplyConstraints(p, p.warehouses[..i + 1])
         == SupplyConstraints(p, p.warehouses[..i]) + [SupplyConstraint(p, p.warehouses[i])]
  {
    var ws := p.warehouses;
    assert forall w :: w in ws[..i + 1] ==> w in ws;
    assert forall w :: w in ws[..i] ==> w in ws;
    assert ws[..i + 1][..i] == ws[..i];
  }

  /** One more customer adds its demand constraint at the end. */
  lemma DemandStep(p: Problem, j: nat)
    requires WellFormed(p) && j < |p.customers|
    ensures p.customers[j] in p.demand
    ensures forall c :: c in p.customers[..j] ==> c in p.demand
    ensures forall c :: c in p.customers[..j + 1] ==> c in p.demand
    ensures DemandConstraints(p, p.customers[..j + 1])
         == DemandConstraints(p, p.customers[..j]) + [DemandConstraint(p, p.customers[j])]
  {
    var cs := p.customers;
    assert forall c :: c in cs[..j + 1] ==> c in cs;
    assert forall c :: c in cs[..j] ==> c in cs;
    assert cs[..j + 1][..j] == cs[..j];
  }

  /**
   * Building fails exactly when some warehouse and customer pair has no cost,
   * and the failure names such a pair.
   */
  lemma FormulateFails(p: Problem)
    requires WellFormed(p)
    ensures Formulate(p).Failure? <==> !Covers(p.costs, p.warehouses, p.customers)
    ensures Formulate(p).Failure? ==>
              var (w, c) := Formulate(p).error.route;
              w in p.warehouses && c in p.customers && (w, c) !in p.costs
  {
    RoutesMembers(p.warehouses, p.customers);
    if !Covers(p.costs, p.warehouses, p.customers) {
      var w, c :| w in p.warehouses && c in p.customers && (w, c) !in p.costs;
      assert (w, c) in Routes(p.warehouses, p.customers);
    }
  }

  /** The objective's terms evaluate to the cost of the pairs they were built from. */
  lemma {:induction false} EvalObjectiveTerms(costs: map<(Name, Name), int>, x: Quantities,
                                              routes: seq<(Name, Name)>, terms: seq<Term>)
    requires forall r :: r in routes ==> r in costs && r in x
    requires |terms| == |routes|
    requires forall k :: 0 <= k < |routes| ==> terms[k] == Term(costs[routes[k]], routes[k])
    ensures Defined(terms, x)
    ensures Eval(terms, x) == CostOf(costs, x, routes)
  {
    if routes != [] {
      EvalObjectiveTerms(costs, x, routes[..|routes| - 1], terms[..|terms| - 1]);
    }
  }

  lemma {:induction false} SupplyTermsEval(w: Name, cs: seq<Name>, x: Quantities)
    requires forall c :: c in cs ==> (w, c) in x
    ensures Defined(SupplyTerms(w, cs), x)
    ensures Eval(SupplyTerms(w, cs), x) == RowSum(x, w, cs)
  {
    if cs != [] {
      var init := cs[..|cs| - 1];
      SupplyTermsEval(w, init, x);
      var terms := SupplyTerms(w, cs);
      assert terms[..|terms| - 1] == SupplyTerms(w, init);
    }
  }

  lemma {:induction false} DemandTermsEval(ws: seq<Name>, c: Name, x: Quantities)
    requires forall w :: w in ws ==> (w, c) in x
    ensures Defined(DemandTerms(ws, c), x)
    ensures Eval(DemandTerms(ws, c), x) == ColSum(x, ws, c)
  {
    if ws != [] {
      var init := ws[..|ws| - 1];
      DemandTermsEval(init, c, x);
      var terms := DemandTerms(ws, c);
      assert terms[..|terms| - 1] == DemandTerms(init, c);
    }
  }

  /** The supply constraints of the listed warehouses all hold exactly when none ships more than its supply. */
  lemma {:induction false} SupplyConstraintsHold(p: Problem, ws: seq<Name>, x: Quantities)
    requires forall w :: w in ws ==> w in p.supply
    requires Covers(x, ws, p.customers)
    ensures AllHold(SupplyConstraints(p, ws), x)
        <==> (forall w :: w in ws ==> RowSum(x, w, p.customers) <= p.supply[w])
  {
    if ws != [] {
      var init, w := ws[..|ws| - 1], ws[|ws| - 1];
      assert ws == init + [w];
      SupplyConstraintsHold(p, init, x);
      SupplyTermsEval(w, p.customers, x);
      AllHoldAppend(SupplyConstraints(p, init), [SupplyConstraint(p, w)], x);
    }
  }

  /** The demand constraints of the listed customers all hold exactly when each receives at least its demand. */
  lemma {:induction false} DemandConstraintsHold(p: Problem, cs: seq<Name>, x: Quantities)
    requires forall c :: c in cs ==> c in p.demand
    requires Covers(x, p.warehouses, cs)
    ensures AllHold(DemandConstraints(p, cs), x)
        <==> (forall c :: c in cs ==> ColSum(x, p.warehouses, c) >= p.demand[c])
  {
    if cs != [] {
      var init, c := cs[..|cs| - 1], cs[|cs| - 1];
      assert cs == init + [c];
      DemandConstraintsHold(p, init, x);
      DemandTermsEval(p.warehouses, c, x);
      AllHoldAppend(DemandConstraints(p, init), [DemandConstraint(p, c)], x);
    }
  }

  lemma AllHoldAppend(a: seq<Constraint>, b: seq<Constraint>, x: Quantities)
    ensures AllHold(a + b, x) <==> AllHold(a, x) && AllHold(b, x)
  {
  }

  /** Given values for all pairs, the variables' lower bounds hold exactly when no quantity is negative. */
  lemma WithinBoundsNonnegative(ws: seq<Name>, cs: seq<Name>, x: Quantities)
    requires Covers(x, ws, cs)
    ensures WithinBounds(Routes(ws, cs), x) <==> Nonnegative(x, ws, cs)
  {
    RoutesMembers(ws, cs);
    if Nonnegative(x, ws, cs) {
      forall v | v in Routes(ws, cs)
        ensures v in x && x[v] >= 0
      {
        assert v.0 in ws && v.1 in cs;
      }
    }
    if WithinBounds(Routes(ws, cs), x) {
      forall w, c | w in ws && c in cs
        ensures x[(w, c)] >= 0
      {
        assert (w, c) in Routes(ws, cs);
      }
    }
  }

  /**
   * For values of all the variables, the built problem's objective is the
   * total cost, and the values satisfy the built problem exactly when they
   * form a feasible plan.
   */
  lemma FormulateMeaning(p: Problem, x: Quantities)
    requires WellFormed(p) && Formulate(p).Success?
    requires Covers(x, p.warehouses, p.customers)
    ensures Covers(p.costs, p.warehouses, p.customers)
    ensures Defined(Formulate(p).value.objective, x)
    ensures Eval(Formulate(p).value.objective, x) == TotalCost(p.costs, x, p.warehouses, p.customers)
    ensures Satisfied(Formulate(p).value, x) <==> Feasible(p, x)
  {
    var ws, cs := p.warehouses, p.customers;
    var m := Formulate(p).value;
    FormulateFails(p);
    CostOfRoutes(p.costs, x, ws, cs);
    EvalObjectiveTerms(p.costs, x, Routes(ws, cs), m.objective);
    RoutesMembers(ws, cs);
    SupplyConstraintsHold(p, ws, x);
    DemandConstraintsHold(p, cs, x);
    AllHoldAppend(SupplyConstraints(p, ws), DemandConstraints(p, cs), x);
    WithinBoundsNonnegative(ws, cs, x);
  }
}
