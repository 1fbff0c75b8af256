/**
 * The plan extractor: the report that walks the warehouses, and for each the
 * customers, and keeps every pair whose solved quantity is greater than zero.
 */
module PlanExtractor {
  import opened Dataset
  import opened Formulation

  /** One reported line: ship `quantity` units from `warehouse` to `customer`. */
  datatype Shipment = Shipment(warehouse: Name, customer: Name, quantity: int)

  /** Every pair of the list has a solved quantity. */
  predicate Valued(routes: seq<(Name, Name)>, x: Quantities)
  {
    forall r :: r in routes ==> r in x
  }

  /** Every pair of the list with its solved quantity, in list order. */
  function ShipmentsOf(routes: seq<(Name, Name)>, x: Quantities): seq<Shipment>
    requires Valued(routes, x)
    decreases |routes|
  {
    if routes == [] then []
    else
      var r := routes[|routes| - 1];
      ShipmentsOf(routes[..|routes| - 1], x) + [Shipment(r.0, r.1, x[r])]
  }

  /** The shipments whose quantity is greater than zero, in their original order. */
  function PositiveOnly(ships: seq<Shipment>): seq<Shipment>
    decreases |ships|
  {
    if ships == [] then []
    else
      var s := ships[|ships| - 1];
      PositiveOnly(ships[..|ships| - 1]) + if s.quantity > 0 then [s] else []
  }

  /** The reported plan: the non-zero pairs, warehouse by warehouse, then customer by customer. */
  function ShippingPlan(ws: seq<Name>, cs: seq<Name>, x: Quantities): seq<Shipment>
    requires Covers(x, ws, cs)
  {
    RoutesMembers(ws, cs);
    PositiveOnly(ShipmentsOf(Routes(ws, cs), x))
  }

  /** The reporting loop: for each warehouse, for each customer, keep the pair when its quantity is positive. */
  method ExtractPlan(ws: seq<Name>, cs: seq<Name>, x: Quantities) returns (plan: seq<Shipment>)
    requires Covers(x, ws, cs)
    ensures plan == ShippingPlan(ws, cs, x)
  {
    plan := [];
    ghost var visited: seq<(Name, Name)> := [];
    for i := 0 to |ws|
      invariant visited == Routes(ws[..i], cs)
      invariant Valued(visited, x)
      invariant plan == PositiveOnly(ShipmentsOf(visited, x))
    {
      for j := 0 to |cs|
        invariant visited == Routes(ws[..i], cs) + RowRoutes(ws[i], cs[..j])
        invariant Valued(visited, x)
        invariant plan == PositiveOnly(ShipmentsOf(visited, x))
      {
        VisitStep(ws, cs, x, i, j);
        PlanStep(visited, (ws[i], cs[j]), x);
        var q := x[(ws[i], cs[j])];
        if q > 0 {
          plan := plan + [Shipment(ws[i], cs[j], q)];
        }
        visited := visited + [(ws[i], cs[j])];
      }
      RoutesStep(ws, cs, i);
    }
    assert ws[..|ws|] == ws;
  }

  /** The inner loop's step: pair `(ws[i], cs[j])` has a value and is the next pair the loops visit. */
  lemma VisitStep(ws: seq<Name>, cs: seq<Name>, x: Quantities, i: nat, j: nat)
    requires Covers(x, ws, cs) && i < |ws| && j < |cs|
    ensures (ws[i], cs[j]) in x
    ensures Routes(ws[..i], cs) + RowRoutes(ws[i], cs[..j]) + [(ws[i], cs[j])]
         == Routes(ws[..i], cs) + RowRoutes(ws[i], cs[..j + 1])
  {
    assert ws[i] in ws && cs[j] in cs;
    RowRoutesStep(ws[i], cs, j);
  }

  /** Visiting one more pair appends its shipment when, and only when, its quantity is positive. */
  lemma PlanStep(visited: seq<(Name, Name)>, r: (Name, Name), x: Quantities)
    requires Valued(visited, x)
    requires r in x
    ensures Valued(visited + [r], x)
    ensures PositiveOnly(ShipmentsOf(visited + [r], x))
         == PositiveOnly(ShipmentsOf(visited, x)) + if x[r] > 0 then [Shipment(r.0, r.1, x[r])] else []
  {
    assert (visited + [r])[..|visited|] == visited;
    var ships := ShipmentsOf(visited + [r], x);
    assert ships[..|ships| - 1] == ShipmentsOf(visited, x);
  }

  lemma RoutesStep(ws: seq<Name>, cs: seq<Name>, i: nat)
    requires i < |ws|
    ensures Routes(ws[..i + 1], cs) == Routes(ws[..i], cs) + RowRoutes(ws[i], cs[..|cs|])
  {
    assert cs[..|cs|] == cs;
    assert ws[..i + 1][..i] == ws[..i];
  }

  lemma RowRoutesStep(w: Name, cs: seq<Name>, j: nat)
    requires j < |cs|
    ensures RowRoutes(w, cs[..j + 1]) == RowRoutes(w, cs[..j]) + [(w, cs[j])]
  {
    assert cs[..j + 1][..j] == cs[..j];
  }

  lemma {:induction false} PositiveOnlyMembers(ships: seq<Shipment>)
    ensures forall s :: s in PositiveOnly(ships) <==> s in ships && s.quantity > 0
  {
    if ships != [] {
      var init := ships[..|ships| - 1];
      PositiveOnlyMembers(init);
      assert ships == init + [ships[|ships| - 1]];
    }
  }

  lemma {:induction false} ShipmentsOfMembers(routes: seq<(Name, Name)>, x: Quantities)
    requires forall r :: r in routes ==> r in x
    ensures forall s :: s in ShipmentsOf(routes, x) <==>
              (s.warehouse, s.customer) in routes && s.quantity == x[(s.warehouse, s.customer)]
  {
    if routes != [] {
      var init := routes[..|routes| - 1];
      ShipmentsOfMembers(init, x);
      assert routes == init + [routes[|routes| - 1]];
    }
  }

  /**
   * The plan holds exactly the pairs of a listed warehouse and a listed
   * customer whose quantity is positive, each with that quantity: no zero pair
   * is reported and no positive pair is skipped.
   */
  lemma ShippingPlanMembers(ws: seq<Name>, cs: seq<Name>, x: Quantities)
    requires Covers(x, ws, cs)
    ensures forall s :: s in ShippingPlan(ws, cs, x) <==>
              && s.warehouse in ws && s.customer in cs
              && s.quantity == x[(s.warehouse, s.customer)] && s.quantity > 0
  {
    RoutesMembers(ws, cs);
    ShipmentsOfMembers(Routes(ws, cs), x);
    PositiveOnlyMembers(ShipmentsOf(Routes(ws, cs), x));
  }

  /** The sum of unit cost times quantity over the reported lines. */
  function PlanCost(costs: map<(Name, Name), int>, plan: seq<Shipment>): int
    requires forall s :: s in plan ==> (s.warehouse, s.customer) in costs
    decreases |plan|
  {
    if plan == [] then 0
    else
      var s := plan[|plan| - 1];
      PlanCost(costs, plan[..|plan| - 1]) + costs[(s.warehouse, s.customer)] * s.quantity
  }

  lemma {:induction false} PlanCostOfShipments(costs: map<(Name, Name), int>, x: Quantities, routes: seq<(Name, Name)>)
    requires forall r :: r in routes ==> r in costs && r in x
    ensures forall s :: s in ShipmentsOf(routes, x) ==> (s.warehouse, s.customer) in costs
    ensures PlanCost(costs, ShipmentsOf(routes, x)) == CostOf(costs, x, routes)
  {
    ShipmentsOfMembers(routes, x);
    if routes != [] {
      var init := routes[..|routes| - 1];
      PlanCostOfShipments(costs, x, init);
      var ships := ShipmentsOf(routes, x);
      assert ships[..|ships| - 1] == ShipmentsOf(init, x);
    }
  }

  /** Dropping lines of quantity zero leaves the cost of a plan without negative quantities unchanged. */
  lemma {:induction false} PlanCostPositiveOnly(costs: map<(Name, Name), int>, ships: seq<Shipment>)
    requires forall s :: s in ships ==> (s.warehouse, s.customer) in costs && s.quantity >= 0
    ensures forall s :: s in PositiveOnly(ships) ==> (s.warehouse, s.customer) in costs
    ensures PlanCost(costs, PositiveOnly(ships)) == PlanCost(costs, ships)
  {
    PositiveOnlyMembers(ships);
    if ships != [] {
      var init, s := ships[..|ships| - 1], ships[|ships| - 1];
      PlanCostPositiveOnly(costs, init);
      var kept := PositiveOnly(ships);
      if s.quantity > 0 {
        assert kept[..|kept| - 1] == PositiveOnly(init);
      } else {
        assert kept == PositiveOnly(init);
      }
    }
  }

  /** For a plan without negative quantities, the reported lines cost exactly the objective. */
  lemma PlanCostMatchesObjective(costs: map<(Name, Name), int>, ws: seq<Name>, cs: seq<Name>, x: Quantities)
    requires Covers(costs, ws, cs) && Covers(x, ws, cs) && Nonnegative(x, ws, cs)
    ensures forall s :: s in ShippingPlan(ws, cs, x) ==> (s.warehouse, s.customer) in costs
    ensures PlanCost(costs, ShippingPlan(ws, cs, x)) == TotalCost(costs, x, ws, cs)
  {
    var routes := Routes(ws, cs);
    RoutesMembers(ws, cs);
    CostOfRoutes(costs, x, ws, cs);
    PlanCostOfShipments(costs, x, routes);
    ShipmentsOfMembers(routes, x);
    PlanCostPositiveOnly(costs, ShipmentsOf(routes, x));
  }

  /** What the reported lines ship out of warehouse `w`. */
  function Outgoing(plan: seq<Shipment>, w: Name): int
    decreases |plan|
  {
    if plan == [] then 0
    else
      var s := plan[|plan| - 1];
      Outgoing(plan[..|plan| - 1], w) + if s.warehouse == w then s.quantity else 0
  }

  /** What the reported lines deliver to customer `c`. */
  function Incoming(plan: seq<Shipment>, c: Name): int
    decreases |plan|
  {
    if plan == [] then 0
    else
      var s := plan[|plan| - 1];
      Incoming(plan[..|plan| - 1], c) + if s.customer == c then s.quantity else 0
  }

  lemma {:induction false} ShipmentsOfAppend(a: seq<(Name, Name)>, b: seq<(Name, Name)>, x: Quantities)
    requires Valued(a + b, x)
    ensures Valued(a, x) && Valued(b, x)
    ensures ShipmentsOf(a + b, x) == ShipmentsOf(a, x) + ShipmentsOf(b, x)
  {
    if b == [] {
      assert a + b == a;
    } else {
      var init := b[..|b| - 1];
      assert (a + b)[..|a + b| - 1] == a + init;
      ShipmentsOfAppend(a, init, x);
    }
  }

  lemma {:induction false} OutgoingAppend(a: seq<Shipment>, b: seq<Shipment>, w: Name)
    ensures Outgoing(a + b, w) == Outgoing(a, w) + Outgoing(b, w)
  {
    if b == [] {
      assert a + b == a;
    } else {
      var init := b[..|b| - 1];
      assert (a + b)[..|a + b| - 1] == a + init;
      OutgoingAppend(a, init, w);
    }
  }

  lemma {:induction false} IncomingAppend(a: seq<Shipment>, b: seq<Shipment>, c: Name)
    ensures Incoming(a + b, c) == Incoming(a, c) + Incoming(b, c)
  {
    if b == [] {
      assert a + b == a;
    } else {
      var init := b[..|b| - 1];
      assert (a + b)[..|a + b| - 1] == a + init;
      IncomingAppend(a, init, c);
    }
  }

  /** Dropping lines of quantity zero changes no warehouse's total. */
  lemma {:induction false} OutgoingPositiveOnly(ships: seq<Shipment>, w: Name)
    requires forall s :: s in ships ==> s.quantity >= 0
    ensures Outgoing(PositiveOnly(ships), w) == Outgoing(ships, w)
  {
    if ships != [] {
      var init, s := ships[..|ships| - 1], ships[|ships| - 1];
      assert forall t :: t in init ==> t in ships;
      OutgoingPositiveOnly(init, w);
      var tail := if s.quantity > 0 then [s] else [];
      assert PositiveOnly(ships) == PositiveOnly(init) + tail;
      OutgoingAppend(PositiveOnly(init), tail, w);
      assert [s][..0] == [];
      assert Outgoing(tail, w) == if s.warehouse == w then s.quantity else 0;
    }
  }

  /** Dropping lines of quantity zero changes no customer's total. */
  lemma {:induction false} IncomingPositiveOnly(ships: seq<Shipment>, c: Name)
    requires forall s :: s in ships ==> s.quantity >= 0
    ensures Incoming(PositiveOnly(ships), c) == Incoming(ships, c)
  {
    if ships != [] {
      var init, s := ships[..|ships| - 1], ships[|ships| - 1];
      assert forall t :: t in init ==> t in ships;
      IncomingPositiveOnly(init, c);
      var tail := if s.quantity > 0 then [s] else [];
      assert PositiveOnly(ships) == PositiveOnly(init) + tail;
      IncomingAppend(PositiveOnly(init), tail, c);
      assert [s][..0] == [];
      assert Incoming(tail, c) == if s.customer == c then s.quantity else 0;
    }
  }

  lemma {:induction false} OutgoingRow(v: Name, cs: seq<Name>, x: Quantities, w: Name)
    requires forall c :: c in cs ==> (v, c) in x
    ensures Valued(RowRoutes(v, cs), x)
    ensures Outgoing(ShipmentsOf(RowRoutes(v, cs), x), w) == if v == w then RowSum(x, w, cs) else 0
  {
    RowRoutesMembers(v, cs);
    if cs != [] {
      var init, c := cs[..|cs| - 1], cs[|cs| - 1];
      assert cs == init + [c];
      OutgoingRow(v, init, x, w);
      ShipmentsOfAppend(RowRoutes(v, init), [(v, c)], x);
      var s := Shipment(v, c, x[(v, c)]);
      assert [(v, c)][..0] == [] && [s][..0] == [];
      assert ShipmentsOf([(v, c)], x) == [s];
      assert Outgoing([s], w) == if v == w then x[(v, c)] else 0;
      OutgoingAppend(ShipmentsOf(RowRoutes(v, init), x), [s], w);
    }
  }

  lemma {:induction false} OutgoingAll(ws: seq<Name>, cs: seq<Name>, x: Quantities, w: Name)
    requires Distinct(ws) && Covers(x, ws, cs)
    ensures Valued(Routes(ws, cs), x)
    ensures Outgoing(ShipmentsOf(Routes(ws, cs), x), w) == if w in ws then RowSum(x, w, cs) else 0
  {
    RoutesMembers(ws, cs);
    if ws != [] {
      var init, v := ws[..|ws| - 1], ws[|ws| - 1];
      assert ws == init + [v];
      DistinctLast(ws);
      OutgoingAll(init, cs, x, w);
      OutgoingRow(v, cs, x, w);
      ShipmentsOfAppend(Routes(init, cs), RowRoutes(v, cs), x);
      OutgoingAppend(ShipmentsOf(Routes(init, cs), x), ShipmentsOf(RowRoutes(v, cs), x), w);
    }
  }

  lemma {:induction false} IncomingRow(v: Name, cs: seq<Name>, x: Quantities, c: Name)
    requires Distinct(cs)
    requires forall d :: d in cs ==> (v, d) in x
    ensures Valued(RowRoutes(v, cs), x)
    ensures Incoming(ShipmentsOf(RowRoutes(v, cs), x), c) == if c in cs then x[(v, c)] else 0
  {
    RowRoutesMembers(v, cs);
    if cs != [] {
      var init, d := cs[..|cs| - 1], cs[|cs| - 1];
      assert cs == init + [d];
      DistinctLast(cs);
      IncomingRow(v, init, x, c);
      ShipmentsOfAppend(RowRoutes(v, init), [(v, d)], x);
      var s := Shipment(v, d, x[(v, d)]);
      assert [(v, d)][..0] == [] && [s][..0] == [];
      assert ShipmentsOf([(v, d)], x) == [s];
      assert Incoming([s], c) == if d == c then x[(v, d)] else 0;
      IncomingAppend(ShipmentsOf(RowRoutes(v, init), x), [s], c);
    }
  }

  lemma {:induction false} IncomingAll(ws: seq<Name>, cs: seq<Name>, x: Quantities, c: Name)
    requires Distinct(cs) && Covers(x, ws, cs) && c in cs
    ensures Valued(Routes(ws, cs), x)
    ensures Incoming(ShipmentsOf(Routes(ws, cs), x), c) == ColSum(x, ws, c)
  {
    RoutesMembers(ws, cs);
    if ws != [] {
      var init, v := ws[..|ws| - 1], ws[|ws| - 1];
      assert ws == init + [v];
      IncomingAll(init, cs, x, c);
      IncomingRow(v, cs, x, c);
      ShipmentsOfAppend(Routes(init, cs), RowRoutes(v, cs), x);
      IncomingAppend(ShipmentsOf(Routes(init, cs), x), ShipmentsOf(RowRoutes(v, cs), x), c);
    }
  }

  /**
   * With distinct names and no negative quantity, each warehouse's reported
   * lines add up to its row sum and each customer's to its column sum.
   */
  lemma PlanFlows(ws: seq<Name>, cs: seq<Name>, x: Quantities)
    requires Distinct(ws) && Distinct(cs)
    requires Covers(x, ws, cs) && Nonnegative(x, ws, cs)
    ensures forall w :: w in ws ==> Outgoing(ShippingPlan(ws, cs, x), w) == RowSum(x, w, cs)
    ensures forall c :: c in cs ==> Incoming(ShippingPlan(ws, cs, x), c) == ColSum(x, ws, c)
  {
    var routes := Routes(ws, cs);
    RoutesMembers(ws, cs);
    ShipmentsOfMembers(routes, x);
    forall w | w in ws
      ensures Outgoing(ShippingPlan(ws, cs, x), w) == RowSum(x, w, cs)
    {
      OutgoingAll(ws, cs, x, w);
      OutgoingPositiveOnly(ShipmentsOf(routes, x), w);
    }
    forall c | c in cs
      ensures Incoming(ShippingPlan(ws, cs, x), c) == ColSum(x, ws, c)
    {
      IncomingAll(ws, cs, x, c);
      IncomingPositiveOnly(ShipmentsOf(routes, x), c);
    }
  }

  /** The position of a name in a list: the index of its first occurrence. */
  function IndexOf(names: seq<Name>, n: Name): (k: nat)
    requires n in names
    ensures k < |names| && names[k] == n
    ensures forall i :: 0 <= i < k ==> names[i] != n
    decreases |names|
  {
    if names[0] == n then 0 else 1 + IndexOf(names[1..], n)
  }

  lemma IndexOfDistinct(names: seq<Name>, k: nat)
    requires Distinct(names) && k < |names|
    ensures IndexOf(names, names[k]) == k
  {
  }

  /**
   * Line `s` comes before line `t` in the loop `for i in warehouses: for j in
   * customers`: an earlier warehouse, or the same warehouse and an earlier customer.
   */
  predicate Before(ws: seq<Name>, cs: seq<Name>, s: Shipment, t: Shipment)
  {
    && s.warehouse in ws && t.warehouse in ws && s.customer in cs && t.customer in cs
    && (|| IndexOf(ws, s.warehouse) < IndexOf(ws, t.warehouse)
        || (IndexOf(ws, s.warehouse) == IndexOf(ws, t.warehouse) && IndexOf(cs, s.customer) < IndexOf(cs, t.customer)))
  }

  /** Every line comes before every later line. */
  predicate InLoopOrder(ws: seq<Name>, cs: seq<Name>, plan: seq<Shipment>)
  {
    forall a, b :: 0 <= a < b < |plan| ==> Before(ws, cs, plan[a], plan[b])
  }

  lemma InLoopOrderAppend(ws: seq<Name>, cs: seq<Name>, a: seq<Shipment>, b: seq<Shipment>)
    requires InLoopOrder(ws, cs, a) && InLoopOrder(ws, cs, b)
    requires forall s, t :: s in a && t in b ==> Before(ws, cs, s, t)
    ensures InLoopOrder(ws, cs, a + b)
  {
    var ab := a + b;
    forall i, j | 0 <= i < j < |ab|
      ensures Before(ws, cs, ab[i], ab[j])
    {
      if j < |a| {
        assert ab[i] == a[i] && ab[j] == a[j];
      } else if i >= |a| {
        assert ab[i] == b[i - |a|] && ab[j] == b[j - |a|];
      } else {
        assert ab[i] == a[i] && ab[j] == b[j - |a|];
      }
    }
  }

  /** The lines of warehouse `ws[i]` over the first `m` customers name that warehouse and one of those customers. */
  lemma RowShipmentsBound(ws: seq<Name>, cs: seq<Name>, i: nat, m: nat, x: Quantities)
    requires Covers(x, ws, cs) && i < |ws| && m <= |cs|
    ensures Valued(RowRoutes(ws[i], cs[..m]), x)
    ensures forall s :: s in ShipmentsOf(RowRoutes(ws[i], cs[..m]), x) ==>
              s.warehouse == ws[i] && s.customer in cs && IndexOf(cs, s.customer) < m
  {
    var w := ws[i];
    RowRoutesMembers(w, cs[..m]);
    assert forall c :: c in cs[..m] ==> c in cs;
    assert w in ws;
    ShipmentsOfMembers(RowRoutes(w, cs[..m]), x);
    forall s | s in ShipmentsOf(RowRoutes(w, cs[..m]), x)
      ensures s.warehouse == w && s.customer in cs && IndexOf(cs, s.customer) < m
    {
      var k :| 0 <= k < m && cs[..m][k] == s.customer;
      assert cs[k] == s.customer;
    }
  }

  /** The lines of the first `n` warehouses name one of those warehouses and a listed customer. */
  lemma PrefixShipmentsBound(ws: seq<Name>, cs: seq<Name>, n: nat, x: Quantities)
    requires Covers(x, ws, cs) && n <= |ws|
    ensures Valued(Routes(ws[..n], cs), x)
    ensures forall s :: s in ShipmentsOf(Routes(ws[..n], cs), x) ==>
              s.warehouse in ws && s.customer in cs && IndexOf(ws, s.warehouse) < n
  {
    RoutesMembers(ws[..n], cs);
    assert forall w :: w in ws[..n] ==> w in ws;
    ShipmentsOfMembers(Routes(ws[..n], cs), x);
    forall s | s in ShipmentsOf(Routes(ws[..n], cs), x)
      ensures s.warehouse in ws && IndexOf(ws, s.warehouse) < n
    {
      var k :| 0 <= k < n && ws[..n][k] == s.warehouse;
      assert ws[k] == s.warehouse;
    }
  }

  /** Within a row, the line for customer `cs[j]` comes after the lines for the customers before it. */
  lemma RowLastAfter(ws: seq<Name>, cs: seq<Name>, i: nat, j: nat, x: Quantities)
    requires Distinct(cs) && Covers(x, ws, cs)
    requires i < |ws| && j < |cs|
    ensures Valued(RowRoutes(ws[i], cs[..j]), x)
    ensures (ws[i], cs[j]) in x
    ensures forall s :: s in ShipmentsOf(RowRoutes(ws[i], cs[..j]), x) ==>
              Before(ws, cs, s, Shipment(ws[i], cs[j], x[(ws[i], cs[j])]))
  {
    RowShipmentsBound(ws, cs, i, j, x);
    IndexOfDistinct(cs, j);
    assert ws[i] in ws && cs[j] in cs;
  }

  /** The lines of one warehouse's row come out customer by customer. */
  lemma {:induction false} RowInLoopOrder(ws: seq<Name>, cs: seq<Name>, i: nat, m: nat, x: Quantities)
    requires Distinct(ws) && Distinct(cs) && Covers(x, ws, cs)
    requires i < |ws| && m <= |cs|
    ensures Valued(RowRoutes(ws[i], cs[..m]), x)
    ensures InLoopOrder(ws, cs, ShipmentsOf(RowRoutes(ws[i], cs[..m]), x))
  {
    var w := ws[i];
    if m == 0 {
      assert cs[..0] == [];
    } else {
      RowInLoopOrder(ws, cs, i, m - 1, x);
      RowLastAfter(ws, cs, i, m - 1, x);
      RowRoutesStep(w, cs, m - 1);
      var earlier := ShipmentsOf(RowRoutes(w, cs[..m - 1]), x);
      var last := Shipment(w, cs[m - 1], x[(w, cs[m - 1])]);
      ShipmentsOfAppend(RowRoutes(w, cs[..m - 1]), [(w, cs[m - 1])], x);
      assert ShipmentsOf(RowRoutes(w, cs[..m]), x) == earlier + [last];
      InLoopOrderAppend(ws, cs, earlier, [last]);
    }
  }

  /** The lines of the first `n` warehouses come out warehouse by warehouse, each row in customer order. */
  lemma {:induction false} PrefixInLoopOrder(ws: seq<Name>, cs: seq<Name>, n: nat, x: Quantities)
    requires Distinct(ws) && Distinct(cs) && Covers(x, ws, cs)
    requires n <= |ws|
    ensures Valued(Routes(ws[..n], cs), x)
    ensures InLoopOrder(ws, cs, ShipmentsOf(Routes(ws[..n], cs), x))
  {
    PrefixShipmentsBound(ws, cs, n, x);
    if n > 0 {
      PrefixInLoopOrder(ws, cs, n - 1, x);
      PrefixShipmentsBound(ws, cs, n - 1, x);
      RowInLoopOrder(ws, cs, n - 1, |cs|, x);
      RowShipmentsBound(ws, cs, n - 1, |cs|, x);
      RoutesStep(ws[..n], cs, n - 1);
      assert ws[..n][..n - 1] == ws[..n - 1] && ws[..n][n - 1] == ws[n - 1] && ws[..n][..n] == ws[..n];
      var earlier := ShipmentsOf(Routes(ws[..n - 1], cs), x);
      var row := ShipmentsOf(RowRoutes(ws[n - 1], cs[..|cs|]), x);
      ShipmentsOfAppend(Routes(ws[..n - 1], cs), RowRoutes(ws[n - 1], cs[..|cs|]), x);
      IndexOfDistinct(ws, n - 1);
      InLoopOrderAppend(ws, cs, earlier, row);
    }
  }

  /** Keeping only the positive lines keeps their order. */
  lemma {:induction false} PositiveOnlyInLoopOrder(ws: seq<Name>, cs: seq<Name>, ships: seq<Shipment>)
    requires InLoopOrder(ws, cs, ships)
    ensures InLoopOrder(ws, cs, PositiveOnly(ships))
  {
    if ships != [] {
      var init, s := ships[..|ships| - 1], ships[|ships| - 1];
      PositiveOnlyInLoopOrder(ws, cs, init);
      PositiveOnlyMembers(init);
      var tail := if s.quantity > 0 then [s] else [];
      forall t, u | t in PositiveOnly(init) && u in tail
        ensures Before(ws, cs, t, u)
      {
        var k :| 0 <= k < |init| && init[k] == t;
        assert ships[k] == t;
      }
      InLoopOrderAppend(ws, cs, PositiveOnly(init), tail);
    }
  }

  /**
   * With distinct names, the plan lists its lines in the loop's order:
   * warehouse by warehouse in list order, and within a warehouse customer by
   * customer in list order.
   */
  lemma PlanInLoopOrder(ws: seq<Name>, cs: seq<Name>, x: Quantities)
    requires Distinct(ws) && Distinct(cs) && Covers(x, ws, cs)
    ensures InLoopOrder(ws, cs, ShippingPlan(ws, cs, x))
  {
    PrefixInLoopOrder(ws, cs, |ws|, x);
    assert ws[..|ws|] == ws;
    PositiveOnlyInLoopOrder(ws, cs, ShipmentsOf(Routes(ws, cs), x));
  }
}
