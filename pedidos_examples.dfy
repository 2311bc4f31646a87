/**
 * POST and PUT /pedidos worked out on a small store: an order with two
 * products, an order with a negative quantity, which the guards let through,
 * and a fractional quantity, which the guards also let through but the
 * line items' `Int` column refuses.
 */
module PedidosExamples {
  import opened Wrappers
  import opened JsValue
  import opened Costing
  import opened Catalog
  import opened Pedidos

  /** A store with two products, one client, one insurance, carrier and tax rate, and no border costs. */
  function SampleDb(): (db: Db)
  {
    Db(map[1 := Product("P1", "Tornillos", 10.0, 5.0), 2 := Product("P2", "Tuercas", 20.0, 3.0)],
       map[1 := Client("123", "Ana", "empresa")], {1}, {1}, {1}, [], map[], [], 3, 2, 1, 1)
  }

  function Item(productoId: real, cantidad: real): (item: Value)
  {
    Obj(map["productoId" := Num(productoId), "cantidad" := Num(cantidad)])
  }

  function SampleBody(productos: seq<Value>): (body: map<string, Value>)
  {
    map["codigoPedido" := Str("PED-1"), "clienteId" := Num(1.0), "seguroId" := Num(1.0),
        "transportadoraId" := Num(1.0), "tasaImpositivaId" := Num(1.0), "productos" := Arr(productos)]
  }

  /** The sample store once the two-product order below is stored as order 1. */
  function StoredDb(): (db: Db)
  {
    SampleDb().(pedidos := map[1 := Order("PED-1", 40.0, 1, 1, 1, 1, None)],
                items := [LineItem(1, 1, 2.0, 5.0), LineItem(1, 2, 1.0, 3.0)],
                nextPedidoId := 2)
  }

  /** Two of P1 (10 each, 5 kg) and one of P2 (20, 3 kg): total 40, weight 13 kg, one truck, order id 1. */
  lemma TwoProductOrder()
    ensures
      var step := CreatePedido(SampleDb(), SampleBody([Item(1.0, 2.0), Item(2.0, 1.0)]));
      step.resp.Created?
      && step.resp.view.id == 1
      && step.resp.view.pedido.costoTotal == 40.0
      && step.resp.view.pesoTotal == 13.0
      && step.resp.view.camionesNecesarios == 1
      && step.resp.view.pedido.costoFronterizoId == None
      && step.db == StoredDb()
  {
    var req := OrderRequest(Str("PED-1"), Num(1.0), Num(1.0), Num(1.0), Num(1.0),
                            [ItemRequest(1.0, 2.0), ItemRequest(2.0, 1.0)], false);
    var drafts := [Draft(1, 2.0, 5.0), Draft(2, 1.0, 3.0)];
    TwoProductRequest();
    TwoProductResolution();
    assert CreatePedido(SampleDb(), SampleBody([Item(1.0, 2.0), Item(2.0, 1.0)]))
        == InsertPedido(SampleDb(), req, 40.0, 13.0, drafts);
    assert Connect(SampleDb(), req) == Some(Refs("PED-1", 1, 1, 1, 1));
    assert IntColumnValue(2.0) && IntColumnValue(1.0);
    assert NewItems(1, drafts) == [LineItem(1, 1, 2.0, 5.0), LineItem(1, 2, 1.0, 3.0)];
    assert TruckCount(13.0) == 1;
  }

  /** The guards accept the two-product body as it is. */
  lemma TwoProductRequest()
    ensures ValidateBody(SampleBody([Item(1.0, 2.0), Item(2.0, 1.0)]))
         == Accepted(OrderRequest(Str("PED-1"), Num(1.0), Num(1.0), Num(1.0), Num(1.0),
                                  [ItemRequest(1.0, 2.0), ItemRequest(2.0, 1.0)], false))
  {
    var body := SampleBody([Item(1.0, 2.0), Item(2.0, 1.0)]);
    assert Field(body, "codigoPedido") == Str("PED-1");
    assert Field(body, "clienteId") == Num(1.0) && Field(body, "seguroId") == Num(1.0);
    assert Field(body, "transportadoraId") == Num(1.0) && Field(body, "tasaImpositivaId") == Num(1.0);
    assert Field(body, "productos") == Arr([Item(1.0, 2.0), Item(2.0, 1.0)]);
    assert Field(body, "aplicarCostosFronterizos") == Undefined;
    TwoProductItems();
  }

  /** Both elements of `productos` carry numeric `productoId` and `cantidad`, so `every` passes. */
  lemma TwoProductItems()
    ensures CheckItems([Item(1.0, 2.0), Item(2.0, 1.0)])
         == AllNumeric([ItemRequest(1.0, 2.0), ItemRequest(2.0, 1.0)])
  {
    assert CheckItems([Item(2.0, 1.0)]) == AllNumeric([ItemRequest(2.0, 1.0)]);
  }

  /** Both products resolve: 2 × 10 + 1 × 20 = 40 and 2 × 5 + 1 × 3 = 13. */
  lemma TwoProductResolution()
    ensures Resolve(SampleDb().productos, [ItemRequest(1.0, 2.0), ItemRequest(2.0, 1.0)])
         == Resolved(40.0, 13.0, [Draft(1, 2.0, 5.0), Draft(2, 1.0, 3.0)])
  {
    var reqs := [ItemRequest(1.0, 2.0), ItemRequest(2.0, 1.0)];
    assert reqs[..1] == [ItemRequest(1.0, 2.0)];
    assert Resolve(SampleDb().productos, reqs[..1]) == Resolved(20.0, 10.0, [Draft(1, 2.0, 5.0)]);
  }

  /** A negative quantity passes the guards and lowers the total: the order is created with total -20. */
  lemma NegativeQuantityAccepted()
    ensures
      var step := CreatePedido(SampleDb(), SampleBody([Item(2.0, -1.0)]));
      step.resp.Created? && step.resp.view.pedido.costoTotal == -20.0 && step.resp.view.pesoTotal == -3.0
      && step.resp.view.camionesNecesarios == 0
  {
    var body := SampleBody([Item(2.0, -1.0)]);
    var req := OrderRequest(Str("PED-1"), Num(1.0), Num(1.0), Num(1.0), Num(1.0), [ItemRequest(2.0, -1.0)], false);
    assert ValidateBody(body) == Accepted(req);
    assert req.items[..0] == [];
    assert Resolve(SampleDb().productos, req.items) == Resolved(-20.0, -3.0, [Draft(2, -1.0, 3.0)]);
    assert TruckCount(-3.0) == 0;
  }

  /** A quantity of 0.5 passes the guards, but the write is refused: 500 and no order. */
  lemma FractionalQuantityRefusedOnCreate()
    ensures
      var step := CreatePedido(SampleDb(), SampleBody([Item(1.0, 0.5)]));
      step == Step(SampleDb(), ServerError)
  {
    var body := SampleBody([Item(1.0, 0.5)]);
    var req := OrderRequest(Str("PED-1"), Num(1.0), Num(1.0), Num(1.0), Num(1.0), [ItemRequest(1.0, 0.5)], false);
    assert ValidateBody(body) == Accepted(req);
    assert req.items[..0] == [];
    assert Resolve(SampleDb().productos, req.items) == Resolved(5.0, 2.5, [Draft(1, 0.5, 5.0)]);
    assert !IntColumnValue(0.5);
  }

  /**
   * Updating order 1 with a quantity of 0.5 answers 500 after its line items
   * were deleted: the order is left without any.
   */
  lemma FractionalQuantityUpdateLosesItems()
    ensures
      var step := UpdatePedido(StoredDb(), 1, SampleBody([Item(1.0, 0.5)]));
      step == Step(StoredDb().(items := []), ServerError)
  {
    var body := SampleBody([Item(1.0, 0.5)]);
    var req := OrderRequest(Str("PED-1"), Num(1.0), Num(1.0), Num(1.0), Num(1.0), [ItemRequest(1.0, 0.5)], false);
    assert ValidateBody(body) == Accepted(req);
    assert req.items[..0] == [];
    assert Resolve(StoredDb().productos, req.items) == Resolved(5.0, 2.5, [Draft(1, 0.5, 5.0)]);
    assert !IntColumnValue(0.5);
    var stored := StoredDb().items;
    assert stored[..1] == [LineItem(1, 1, 2.0, 5.0)];
    assert WithoutItemsOf(stored, 1) == [];
  }
}
