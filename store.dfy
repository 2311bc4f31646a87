/**
 * The store the handlers write to, as an object whose tables are fields, and
 * the handlers as methods that change it step by step in the order the
 * handlers issue their store calls.
 */
module Store {
  import opened Wrappers
  import opened JsValue
  import opened Costing
  import opened Catalog
  import opened Pedidos
  import opened PedidosProperties

  /**
   * The resolution loop of POST and PUT /pedidos: look each product up,
   * answer with the first id that does not resolve, otherwise accumulate
   * `costoTotal` and `pesoTotal` and push one entry onto `productosParaCrear`.
   */
  method ResolveItems(catalog: map<int, Product>, reqs: seq<ItemRequest>) returns (r: Resolution)
    ensures r == Resolve(catalog, reqs)
  {
    var costoTotal := 0.0;
    var pesoTotal := 0.0;
    var productosParaCrear: seq<Draft> := [];
    var i := 0;
    while i < |reqs|
      invariant 0 <= i <= |reqs|
      invariant Resolve(catalog, reqs[..i]) == Resolved(costoTotal, pesoTotal, productosParaCrear)
    {
      var item := reqs[i];
      assert reqs[..i + 1][..i] == reqs[..i];
      var producto := FindProduct(catalog, item.productoId);
      if producto.None? {
        ResolveMissingStays(catalog, reqs, i + 1);
        return Missing(item.productoId);
      }
      var p := catalog[producto.value];
      costoTotal := costoTotal + p.precioUnitario * item.cantidad;
      pesoTotal := pesoTotal + p.pesoKg * item.cantidad;
      productosParaCrear := productosParaCrear + [Draft(producto.value, item.cantidad, p.pesoKg)];
      assert reqs[..i + 1][|reqs[..i + 1]| - 1] == item;
      i := i + 1;
    }
    assert reqs[..i] == reqs;
    r := Resolved(costoTotal, pesoTotal, productosParaCrear);
  }

  /** The loop GET /pedidos runs per order: Σ pesoKg × cantidad over its line items' snapshots. */
  method SumWeights(productosPedido: seq<LineItem>) returns (pesoTotal: real)
    ensures pesoTotal == ItemsWeight(productosPedido)
  {
    pesoTotal := 0.0;
    var i := 0;
    while i < |productosPedido|
      invariant 0 <= i <= |productosPedido|
      invariant pesoTotal == ItemsWeight(productosPedido[..i])
    {
      assert productosPedido[..i + 1][..i] == productosPedido[..i];
      pesoTotal := pesoTotal + productosPedido[i].pesoKg * productosPedido[i].cantidad;
      i := i + 1;
    }
    assert productosPedido[..i] == productosPedido;
  }

  /** The answers of the catalog inserts (HTTP status in the comment). */
  datatype CatalogResponse =
    | CatalogCreated(id: int)  // 201
    | CatalogBadRequest        // 400
    | CatalogConflict          // 409
    | CatalogServerError       // 500

  class OrderStore {
    var productos: map<int, Product>
    var clientes: map<int, Client>
    var seguros: set<int>
    var transportadoras: set<int>
    var tasas: set<int>
    var costos: seq<BorderCost>
    var pedidos: map<int, Order>
    var items: seq<LineItem>
    var nextProductoId: int
    var nextClienteId: int
    var nextCostoId: int
    var nextPedidoId: int

    /** The tables as one value. */
    function State(): (db: Db)
      reads this
    {
      Db(productos, clientes, seguros, transportadoras, tasas, costos, pedidos, items,
         nextProductoId, nextClienteId, nextCostoId, nextPedidoId)
    }

    ghost predicate Valid()
      reads this
    {
      DbValid(State())
    }

    /**
     * An empty store; the insurance, carrier and tax-rate tables are given,
     * since only the existence of their ids matters to an order.
     */
    constructor (seguros: set<int>, transportadoras: set<int>, tasas: set<int>)
      ensures Valid()
      ensures State() == Db(map[], map[], seguros, transportadoras, tasas, [], map[], [], 1, 1, 1, 1)
    {
      this.productos := map[];
      this.clientes := map[];
      this.seguros := seguros;
      this.transportadoras := transportadoras;
      this.tasas := tasas;
      this.costos := [];
      this.pedidos := map[];
      this.items := [];
      this.nextProductoId := 1;
      this.nextClienteId := 1;
      this.nextCostoId := 1;
      this.nextPedidoId := 1;
    }

    /** POST /pedidos. */
    method PostPedido(body: map<string, Value>) returns (resp: Response)
      requires Valid()
      modifies this
      ensures Valid()
      ensures Step(State(), resp) == CreatePedido(old(State()), body)
    {
      match ValidateBody(body)
      case ThrowsTypeError =>
        return NoResponse;
      case Rejected(reason) =>
        return BadRequest(reason);
      case Accepted(req) =>
        var resolution := ResolveItems(productos, req.items);
        if resolution.Missing? {
          return ProductNotFound(resolution.productoId);
        }
        resp := InsertOrder(req, resolution.costoTotal, resolution.pesoTotal, resolution.drafts);
        CreatePreservesValid(old(State()), body);
    }

    /** The `prisma.pedido.create` call of POST /pedidos, with the border costs added first. */
    method InsertOrder(req: OrderRequest, costo: real, peso: real, drafts: seq<Draft>) returns (resp: Response)
      modifies this
      ensures Step(State(), resp) == InsertPedido(old(State()), req, costo, peso, drafts)
    {
      var costoFronterizoExtra, primerCostoId := BorderCharge(req.aplicar);
      var costoTotal := costo + costoFronterizoExtra;
      var refs := Connect(State(), req);
      if refs.None? || !StorableQuantities(req.items) {
        return ServerError;
      }
      var link := if primerCostoId.Some? && primerCostoId.value != 0 && req.aplicar then primerCostoId else None;
      assert link == CreateLink(req.aplicar, costos);
      var id := nextPedidoId;
      var order := OrderOf(refs.value, costoTotal, link);
      var news := NewItems(id, drafts);
      pedidos := pedidos[id := order];
      items := items + news;
      nextPedidoId := id + 1;
      resp := Created(OrderView(id, order, news, peso, TruckCount(peso)));
    }

    /** PUT /pedidos/:id: delete the order's line items, then update the order with the new ones. */
    method PutPedido(id: int, body: map<string, Value>) returns (resp: Response)
      requires Valid()
      modifies this
      ensures Valid()
      ensures Step(State(), resp) == UpdatePedido(old(State()), id, body)
    {
      match ValidateBody(body)
      case ThrowsTypeError =>
        return NoResponse;
      case Rejected(reason) =>
        return BadRequest(reason);
      case Accepted(req) =>
        var resolution := ResolveItems(productos, req.items);
        if resolution.Missing? {
          return ProductNotFound(resolution.productoId);
        }
        var costoFronterizoExtra, primerCostoId := BorderCharge(req.aplicar);
        var costoTotal := resolution.costoTotal + costoFronterizoExtra;
        items := WithoutItemsOf(items, id);
        UpdatePreservesValid(old(State()), id, body);
        resp := UpdateOrder(id, req, resolution.costoTotal, costoTotal, primerCostoId, resolution.pesoTotal, resolution.drafts);
    }

    /**
     * The `prisma.pedido.update` call of PUT /pedidos/:id, made after the line
     * items are gone; `costoTotal` and `primerCostoId` come from the border costs.
     */
    method UpdateOrder(id: int, req: OrderRequest, costo: real, costoTotal: real, primerCostoId: Option<int>,
                       peso: real, drafts: seq<Draft>) returns (resp: Response)
      requires costoTotal == costo + BorderExtra(req.aplicar, costos)
      requires primerCostoId == FirstCostId(req.aplicar, costos)
      modifies this
      ensures Step(State(), resp) == ReplacePedido(old(State()), id, req, costo, peso, drafts)
    {
      var refs := Connect(State(), req);
      if refs.None? || id !in pedidos || !StorableQuantities(req.items) {
        return ServerError;
      }
      var link :=
        if req.aplicar then
          (if primerCostoId.Some? && primerCostoId.value != 0 then primerCostoId else pedidos[id].costoFronterizoId)
        else None;
      assert link == UpdateLink(req.aplicar, costos, pedidos[id].costoFronterizoId);
      var order := OrderOf(refs.value, costoTotal, link);
      var news := NewItems(id, drafts);
      pedidos := pedidos[id := order];
      items := items + news;
      resp := Updated(OrderView(id, order, news, peso, TruckCount(peso)));
    }

    /**
     * `costoFronterizoExtra` and `primerCostoId`: only when the flag is truthy
     * are the border costs read, folded left to right as `reduce` does, and
     * the first record's id taken.
     */
    method BorderCharge(aplicar: bool) returns (extra: real, primerCostoId: Option<int>)
      ensures extra == BorderExtra(aplicar, costos)
      ensures primerCostoId == FirstCostId(aplicar, costos)
    {
      extra := 0.0;
      primerCostoId := None;
      if aplicar {
        var todos := costos;
        var i := 0;
        while i < |todos|
          invariant 0 <= i <= |todos|
          invariant extra == BorderSum(todos[..i])
        {
          assert todos[..i + 1][..i] == todos[..i];
          extra := extra + todos[i].costo;
          i := i + 1;
        }
        assert todos[..i] == todos;
        if |todos| > 0 {
          primerCostoId := Some(todos[0].id);
        }
      }
    }

    /** DELETE /pedidos/:id: the line items first, then the order. */
    method DeletePedidoById(id: int) returns (resp: Response)
      requires Valid()
      modifies this
      ensures Valid()
      ensures Step(State(), resp) == DeletePedido(old(State()), id)
    {
      items := WithoutItemsOf(items, id);
      DeletePreservesValid(old(State()), id);
      if id !in pedidos {
        return ServerError;
      }
      pedidos := pedidos - {id};
      resp := Deleted;
    }

    /** GET /pedidos: every order with the weight and truck count recomputed from its line items. */
    method GetPedidos() returns (views: map<int, OrderView>)
      ensures views == ListPedidos(State())
    {
      ghost var listing := ListPedidos(State());
      views := map[];
      var pending := pedidos.Keys;
      while pending != {}
        invariant pending <= pedidos.Keys == listing.Keys
        invariant views.Keys == pedidos.Keys - pending
        invariant forall k :: k in views ==> views[k] == listing[k]
        decreases pending
      {
        var id :| id in pending;
        var view := Summarize(id);
        views := views[id := view];
        pending := pending - {id};
      }
      assert views.Keys == listing.Keys;
    }

    /** The body of the `map` in GET /pedidos: one order, its line items, and their weight and truck count. */
    method Summarize(id: int) returns (view: OrderView)
      requires id in pedidos
      ensures view == Summary(State(), id)
    {
      var productosPedido := ItemsOf(items, id);
      var pesoTotal := SumWeights(productosPedido);
      view := OrderView(id, pedidos[id], productosPedido, pesoTotal, TruckCount(pesoTotal));
    }

    /** POST /productos: guard, then check-then-insert on the unique code. */
    method PostProducto(body: map<string, Value>) returns (resp: CatalogResponse)
      requires Valid()
      modifies this
      ensures Valid()
      ensures
        var codigo := Field(body, "codigo");
        var nombre := Field(body, "nombre");
        if !ProductBodyValid(body) then resp == CatalogBadRequest && State() == old(State())
        else if !codigo.Str? then resp == CatalogServerError && State() == old(State())
        else if exists k :: k in old(productos) && old(productos)[k].codigo == codigo.s then
          resp == CatalogConflict && State() == old(State())
        else if !nombre.Str? then resp == CatalogServerError && State() == old(State())
        else
          var p := Product(codigo.s, nombre.s, Field(body, "precioUnitario").n, Field(body, "pesoKg").n);
          resp == CatalogCreated(old(nextProductoId)) && old(nextProductoId) !in old(productos)
          && State() == old(State()).(productos := old(productos)[old(nextProductoId) := p],
                                      nextProductoId := old(nextProductoId) + 1)
    {
      if !ProductBodyValid(body) {
        return CatalogBadRequest;
      }
      var codigo := Field(body, "codigo");
      var nombre := Field(body, "nombre");
      if !codigo.Str? {
        return CatalogServerError;
      }
      var existe := exists k :: k in productos && productos[k].codigo == codigo.s;
      if existe {
        return CatalogConflict;
      }
      if !nombre.Str? {
        return CatalogServerError;
      }
      var id := nextProductoId;
      productos := productos[id := Product(codigo.s, nombre.s, Field(body, "precioUnitario").n, Field(body, "pesoKg").n)];
      nextProductoId := id + 1;
      resp := CatalogCreated(id);
    }

    /** POST /clientes: guard, then check-then-insert on the unique `ci`. */
    method PostCliente(body: map<string, Value>) returns (resp: CatalogResponse)
      requires Valid()
      modifies this
      ensures Valid()
      ensures
        var ci := Field(body, "ci");
        var nombre := Field(body, "nombre");
        var tipo := Field(body, "tipo");
        if !ClientBodyValid(body) then resp == CatalogBadRequest && State() == old(State())
        else if !ci.Str? then resp == CatalogServerError && State() == old(State())
        else if exists k :: k in old(clientes) && old(clientes)[k].ci == ci.s then
          resp == CatalogConflict && State() == old(State())
        else if !nombre.Str? || !tipo.Str? then resp == CatalogServerError && State() == old(State())
        else
          resp == CatalogCreated(old(nextClienteId)) && old(nextClienteId) !in old(clientes)
          && State() == old(State()).(clientes := old(clientes)[old(nextClienteId) := Client(ci.s, nombre.s, tipo.s)],
                                      nextClienteId := old(nextClienteId) + 1)
    {
      if !ClientBodyValid(body) {
        return CatalogBadRequest;
      }
      var ci := Field(body, "ci");
      var nombre := Field(body, "nombre");
      var tipo := Field(body, "tipo");
      if !ci.Str? {
        return CatalogServerError;
      }
      var existe := exists k :: k in clientes && clientes[k].ci == ci.s;
      if existe {
        return CatalogConflict;
      }
      if !nombre.Str? || !tipo.Str? {
        return CatalogServerError;
      }
      var id := nextClienteId;
      clientes := clientes[id := Client(ci.s, nombre.s, tipo.s)];
      nextClienteId := id + 1;
      resp := CatalogCreated(id);
    }

    /** POST /costos-fronterizos: guard, then insert at the end of the table. */
    method PostCostoFronterizo(body: map<string, Value>) returns (resp: CatalogResponse)
      requires Valid()
      modifies this
      ensures Valid()
      ensures
        var tipoCosto := Field(body, "tipoCosto");
        if !BorderCostBodyValid(body) then resp == CatalogBadRequest && State() == old(State())
        else if !tipoCosto.Str? then resp == CatalogServerError && State() == old(State())
        else
          resp == CatalogCreated(old(nextCostoId))
          && State() == old(State()).(costos := old(costos) + [BorderCost(old(nextCostoId), tipoCosto.s, Field(body, "costo").n)],
                                      nextCostoId := old(nextCostoId) + 1)
    {
      if !BorderCostBodyValid(body) {
        return CatalogBadRequest;
      }
      var tipoCosto := Field(body, "tipoCosto");
      if !tipoCosto.Str? {
        return CatalogServerError;
      }
      var id := nextCostoId;
      costos := costos + [BorderCost(id, tipoCosto.s, Field(body, "costo").n)];
      nextCostoId := id + 1;
      resp := CatalogCreated(id);
    }
  }
}
