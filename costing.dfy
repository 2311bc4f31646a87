/**
 * The costing arithmetic of the order handlers: the per-line sums of price and
 * weight, the border-cost `reduce`, the choice of the representative
 * border-cost record and the truck count.
 */
module Costing {
  import opened Wrappers

  /** One resolved order line: the product's unit price and unit weight, and the requested quantity. */
  datatype Line = Line(precioUnitario: real, pesoKg: real, cantidad: real)

  /** A border-cost record (`costoFronterizo`). */
  datatype BorderCost = BorderCost(id: int, tipoCosto: string, costo: real)

  /** One truck carries 18000 kg. */
  const TruckCapacityKg: real := 18000.0

  /** Σ precioUnitario × cantidad, accumulated front to back. */
  function LinesCost(lines: seq<Line>): (cost: real)
  {
    if lines == [] then 0.0
    else LinesCost(lines[..|lines| - 1]) + lines[|lines| - 1].precioUnitario * lines[|lines| - 1].cantidad
  }

  /** Σ pesoKg × cantidad, accumulated front to back. */
  function LinesWeight(lines: seq<Line>): (weight: real)
  {
    if lines == [] then 0.0
    else LinesWeight(lines[..|lines| - 1]) + lines[|lines| - 1].pesoKg * lines[|lines| - 1].cantidad
  }

  /** Both sums split over a concatenation, so the order of accumulation does not matter. */
  lemma {:induction false} LinesTotalsAppend(a: seq<Line>, b: seq<Line>)
    ensures LinesCost(a + b) == LinesCost(a) + LinesCost(b)
    ensures LinesWeight(a + b) == LinesWeight(a) + LinesWeight(b)
  {
    if b == [] {
      assert a + b == a;
    } else {
      var b' := b[..|b| - 1];
      assert (a + b)[..|a + b| - 1] == a + b';
      LinesTotalsAppend(a, b');
    }
  }

  /** With positive prices, weights and quantities, a non-empty order costs and weighs something. */
  lemma {:induction false} LinesTotalsPositive(lines: seq<Line>)
    requires lines != []
    requires forall i :: 0 <= i < |lines| ==>
      lines[i].precioUnitario > 0.0 && lines[i].pesoKg > 0.0 && lines[i].cantidad > 0.0
    ensures LinesCost(lines) > 0.0 && LinesWeight(lines) > 0.0
  {
    var last := lines[|lines| - 1];
    assert last.precioUnitario * last.cantidad > 0.0;
    assert last.pesoKg * last.cantidad > 0.0;
    if |lines| > 1 {
      LinesTotalsPositive(lines[..|lines| - 1]);
    }
  }

  /** `todos.reduce((sum, c) => sum + c.costo, 0)`. */
  function BorderSum(costs: seq<BorderCost>): (sum: real)
  {
    if costs == [] then 0.0 else BorderSum(costs[..|costs| - 1]) + costs[|costs| - 1].costo
  }

  /** Border costs are positive, so opting in with at least one record always adds to the total. */
  lemma {:induction false} BorderSumPositive(costs: seq<BorderCost>)
    requires costs != []
    requires forall i :: 0 <= i < |costs| ==> costs[i].costo > 0.0
    ensures BorderSum(costs) > 0.0
  {
    if |costs| > 1 {
      BorderSumPositive(costs[..|costs| - 1]);
    }
  }

  /** `costoFronterizoExtra`: the sum of all border costs when the flag is truthy, else 0. */
  function BorderExtra(aplicar: bool, costs: seq<BorderCost>): (extra: real)
  {
    if aplicar then BorderSum(costs) else 0.0
  }

  /** `primerCostoId`: the first record's id when the flag is truthy and a record exists, else null. */
  function FirstCostId(aplicar: bool, costs: seq<BorderCost>): (first: Option<int>)
  {
    if aplicar && |costs| > 0 then Some(costs[0].id) else None
  }

  /**
   * The link a new order gets, from `...(primerCostoId && aplicarCostosFronterizos && {connect})`:
   * a falsy id (0) connects nothing either.
   */
  function CreateLink(aplicar: bool, costs: seq<BorderCost>): (link: Option<int>)
    ensures link.Some? <==> aplicar && costs != [] && costs[0].id != 0
    ensures link.Some? ==> link.value == costs[0].id
  {
    match FirstCostId(aplicar, costs)
    case None => None
    case Some(id) => if id != 0 && aplicar then Some(id) else None
  }

  /**
   * The link after an update, from
   * `...(aplicar ? (primerCostoId && {connect}) : {disconnect: true})`:
   * spreading a falsy `primerCostoId` changes nothing, so `current` stays.
   */
  function UpdateLink(aplicar: bool, costs: seq<BorderCost>, current: Option<int>): (link: Option<int>)
  {
    if aplicar then
      match FirstCostId(aplicar, costs)
      case None => current
      case Some(id) => if id != 0 then Some(id) else current
    else None
  }

  /** `Math.ceil(pesoTotal / 18000)`: the least number of whole trucks that carries the weight. */
  function TruckCount(pesoTotal: real): (camiones: int)
    ensures (camiones - 1) as real * TruckCapacityKg < pesoTotal <= camiones as real * TruckCapacityKg
  {
    -((-pesoTotal / TruckCapacityKg).Floor)
  }

  /** The boundary cases: nothing needs no truck, exactly one load needs one, a tenth of a gram more needs two. */
  lemma TruckCountBoundaries()
    ensures TruckCount(0.0) == 0
    ensures TruckCount(18000.0) == 1
    ensures TruckCount(18000.0001) == 2
  {
  }

  /** More weight never needs fewer trucks. */
  lemma TruckCountMonotone(lighter: real, heavier: real)
    requires lighter <= heavier
    ensures TruckCount(lighter) <= TruckCount(heavier)
  {
  }
}
