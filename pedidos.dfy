/**
 * The order (`pedido`) handlers as state transitions of the store: request
 * validation, product resolution and costing, and the writes of POST, PUT and
 * DELETE /pedidos, plus the summary GET /pedidos computes on the way out.
 */
module Pedidos {
  import opened Wrappers
  import opened JsValue
  import opened Costing
  import opened Catalog

  // ---------------------------------------------------------------- validation

  /** The two 400 answers: a missing required field, or an item without numeric fields. */
  datatype Rejection = MissingFields | InvalidItems

  /** One element of `productos` once both its fields are known to be numbers. */
  datatype ItemRequest = ItemRequest(productoId: real, cantidad: real)

  /** A request body that passed both guards. */
  datatype OrderRequest = OrderRequest(
    codigo: Value,
    clienteId: Value,
    seguroId: Value,
    transportadoraId: Value,
    tasaImpositivaId: Value,
    items: seq<ItemRequest>,
    aplicar: bool)

  datatype ItemsCheck = AllNumeric(items: seq<ItemRequest>) | NotNumeric | Throws

  /** What the guards make of a body: accepted, rejected with 400, or a TypeError thrown outside the `try`. */
  datatype Validation = Accepted(req: OrderRequest) | Rejected(reason: Rejection) | ThrowsTypeError

  /** An element of `productos` whose `productoId` and `cantidad` are both numbers. */
  predicate NumericItem(v: Value)
  {
    v.Obj? && Field(v.props, "productoId").Num? && Field(v.props, "cantidad").Num?
  }

  function ToItem(v: Value): (item: ItemRequest)
    requires NumericItem(v)
  {
    ItemRequest(Field(v.props, "productoId").n, Field(v.props, "cantidad").n)
  }

  /**
   * `productos.every(p => typeof p.productoId === 'number' && typeof p.cantidad === 'number')`:
   * left to right, stopping at the first element that fails; reading a member
   * of a null element throws.
   */
  function CheckItems(elems: seq<Value>): (check: ItemsCheck)
  {
    if elems == [] then AllNumeric([])
    else
      match Member(elems[0], "productoId")
      case None => Throws
      case Some(pid) =>
        if !pid.Num? then NotNumeric
        else
          match Member(elems[0], "cantidad")
          case None => Throws
          case Some(q) =>
            if !q.Num? then NotNumeric
            else
              match CheckItems(elems[1..])
              case AllNumeric(rest) => AllNumeric([ItemRequest(pid.n, q.n)] + rest)
              case other => other
  }

  /** The five required fields truthy and `productos` a non-empty array. */
  predicate HasRequiredFields(body: map<string, Value>)
  {
    Truthy(Field(body, "codigoPedido")) && Truthy(Field(body, "clienteId"))
    && Truthy(Field(body, "seguroId")) && Truthy(Field(body, "transportadoraId"))
    && Truthy(Field(body, "tasaImpositivaId"))
    && Field(body, "productos").Arr? && Field(body, "productos").elems != []
  }

  /** The two guards shared by POST and PUT /pedidos. */
  function ValidateBody(body: map<string, Value>): (validation: Validation)
  {
    var codigo := Field(body, "codigoPedido");
    var clienteId := Field(body, "clienteId");
    var seguroId := Field(body, "seguroId");
    var transportadoraId := Field(body, "transportadoraId");
    var tasaImpositivaId := Field(body, "tasaImpositivaId");
    var productos := Field(body, "productos");
    if !Truthy(codigo) || !Truthy(clienteId) || !Truthy(seguroId) || !Truthy(transportadoraId)
       || !Truthy(tasaImpositivaId) || !Truthy(productos) || !productos.Arr? || |productos.elems| == 0
    then Rejected(MissingFields)
    else
      match CheckItems(productos.elems)
      case Throws => ThrowsTypeError
      case NotNumeric => Rejected(InvalidItems)
      case AllNumeric(items) =>
        Accepted(OrderRequest(codigo, clienteId, seguroId, transportadoraId, tasaImpositivaId,
                              items, Truthy(Field(body, "aplicarCostosFronterizos"))))
  }

  // ---------------------------------------------------------------- resolution

  /** `prisma.producto.findUnique({ where: { id } })`: the key of the product with that id, if any. */
  function FindProduct(catalog: map<int, Product>, id: real): (k: Option<int>)
    ensures k.Some? ==> k.value in catalog && k.value as real == id
    ensures k.None? ==> forall key :: key in catalog ==> key as real != id
  {
    if id == id.Floor as real && id.Floor in catalog then Some(id.Floor) else None
  }

  /** An entry of `productosParaCrear`: the product, the requested quantity, the product's weight now. */
  datatype Draft = Draft(productoId: int, cantidad: real, pesoKg: real)

  /** The outcome of the resolution loop: the first unknown product id, or the two sums and the drafts. */
  datatype Resolution =
    | Missing(productoId: real)
    | Resolved(costoTotal: real, pesoTotal: real, drafts: seq<Draft>)

  /** The resolution loop, item by item, returning at the first product that does not resolve. */
  function Resolve(catalog: map<int, Product>, reqs: seq<ItemRequest>): (resolution: Resolution)
  {
    if reqs == [] then Resolved(0.0, 0.0, [])
    else
      match Resolve(catalog, reqs[..|reqs| - 1])
      case Missing(id) => Missing(id)
      case Resolved(costo, peso, drafts) =>
        var item := reqs[|reqs| - 1];
        match FindProduct(catalog, item.productoId)
        case None => Missing(item.productoId)
        case Some(k) =>
          var p := catalog[k];
          Resolved(costo + p.precioUnitario * item.cantidad, peso + p.pesoKg * item.cantidad,
                   drafts + [Draft(k, item.cantidad, p.pesoKg)])
  }

  predicate Found(catalog: map<int, Product>, r: ItemRequest)
  {
    FindProduct(catalog, r.productoId).Some?
  }

  predicate AllFound(catalog: map<int, Product>, reqs: seq<ItemRequest>)
  {
    forall i :: 0 <= i < |reqs| ==> Found(catalog, reqs[i])
  }

  /** The costing input of one item: the resolved product's price and weight, and the quantity. */
  function LineOf(catalog: map<int, Product>, r: ItemRequest): (line: Line)
    requires Found(catalog, r)
  {
    var p := catalog[FindProduct(catalog, r.productoId).value];
    Line(p.precioUnitario, p.pesoKg, r.cantidad)
  }

  function LinesOf(catalog: map<int, Product>, reqs: seq<ItemRequest>): (lines: seq<Line>)
    requires AllFound(catalog, reqs)
  {
    seq(|reqs|, i requires 0 <= i < |reqs| => LineOf(catalog, reqs[i]))
  }

  function DraftOf(catalog: map<int, Product>, r: ItemRequest): (draft: Draft)
    requires Found(catalog, r)
  {
    var k := FindProduct(catalog, r.productoId).value;
    Draft(k, r.cantidad, catalog[k].pesoKg)
  }

  // ---------------------------------------------------------------- the store

  /** A stored order: `costoTotal` is persisted, weight and truck count are not. */
  datatype Order = Order(
    codigo: string,
    costoTotal: real,
    clienteId: int,
    seguroId: int,
    transportadoraId: int,
    tasaImpositivaId: int,
    costoFronterizoId: Option<int>)

  /** A stored line item (`productoPedido`), with the weight snapshot taken when it was written. */
  datatype LineItem = LineItem(pedidoId: int, productoId: int, cantidad: real, pesoKg: real)

  /**
   * The tables the handlers touch. Border costs keep the order `findMany`
   * returns them in; line items are one table, in creation order.
   */
  datatype Db = Db(
    productos: map<int, Product>,
    clientes: map<int, Client>,
    seguros: set<int>,
    transportadoras: set<int>,
    tasas: set<int>,
    costos: seq<BorderCost>,
    pedidos: map<int, Order>,
    items: seq<LineItem>,
    nextProductoId: int,
    nextClienteId: int,
    nextCostoId: int,
    nextPedidoId: int)

  /** The invariants the store keeps: fresh ids, positive catalog values, unique keys, no orphan line items. */
  ghost predicate DbValid(db: Db)
  {
    0 < db.nextProductoId && 0 < db.nextClienteId && 0 < db.nextCostoId && 0 < db.nextPedidoId
    && (forall k :: k in db.productos ==>
       0 < k < db.nextProductoId && db.productos[k].precioUnitario > 0.0 && db.productos[k].pesoKg > 0.0)
    && (forall k, k' :: k in db.productos && k' in db.productos && k != k' ==>
          db.productos[k].codigo != db.productos[k'].codigo)
    && (forall k :: k in db.clientes ==> 0 < k < db.nextClienteId)
    && (forall k, k' :: k in db.clientes && k' in db.clientes && k != k' ==>
          db.clientes[k].ci != db.clientes[k'].ci)
    && (forall i :: 0 <= i < |db.costos| ==> 0 < db.costos[i].id < db.nextCostoId && db.costos[i].costo > 0.0)
    && (forall k :: k in db.pedidos ==> 0 < k < db.nextPedidoId)
    && (forall i :: 0 <= i < |db.items| ==> db.items[i].pedidoId in db.pedidos && IntColumnValue(db.items[i].cantidad))
  }

  /** `where: { pedidoId }` on the line-item table, in table order. */
  function ItemsOf(items: seq<LineItem>, pedidoId: int): (own: seq<LineItem>)
  {
    if items == [] then []
    else
      var last := items[|items| - 1];
      ItemsOf(items[..|items| - 1], pedidoId) + (if last.pedidoId == pedidoId then [last] else [])
  }

  /** What `productoPedido.deleteMany({ where: { pedidoId } })` leaves in the table. */
  function WithoutItemsOf(items: seq<LineItem>, pedidoId: int): (kept: seq<LineItem>)
  {
    if items == [] then []
    else
      var last := items[|items| - 1];
      WithoutItemsOf(items[..|items| - 1], pedidoId) + (if last.pedidoId != pedidoId then [last] else [])
  }

  /** `productosPedido: { create: productosParaCrear }`: one row per draft, in draft order. */
  function NewItems(pedidoId: int, drafts: seq<Draft>): (news: seq<LineItem>)
  {
    seq(|drafts|, i requires 0 <= i < |drafts| =>
      LineItem(pedidoId, drafts[i].productoId, drafts[i].cantidad, drafts[i].pesoKg))
  }

  /** Σ pesoKg × cantidad over stored line items, from their snapshots. */
  function ItemsWeight(items: seq<LineItem>): (weight: real)
  {
    if items == [] then 0.0
    else ItemsWeight(items[..|items| - 1]) + items[|items| - 1].pesoKg * items[|items| - 1].cantidad
  }

  predicate ProductsKnown(catalog: map<int, Product>, items: seq<LineItem>)
  {
    forall i :: 0 <= i < |items| ==> items[i].productoId in catalog
  }

  /** Σ precioUnitario × cantidad over line items, at the catalog's prices. */
  function ItemsCost(catalog: map<int, Product>, items: seq<LineItem>): (cost: real)
    requires ProductsKnown(catalog, items)
  {
    if items == [] then 0.0
    else
      var last := items[|items| - 1];
      ItemsCost(catalog, items[..|items| - 1]) + catalog[last.productoId].precioUnitario * last.cantidad
  }

  /** The order's scalar field and the four `connect` targets, once the store can accept them. */
  datatype Refs = Refs(codigo: string, clienteId: int, seguroId: int, transportadoraId: int, tasaImpositivaId: int)

  /**
   * The store accepts an order write only if the code is a string and each of
   * the four `connect` ids names an existing record; otherwise the write throws.
   */
  function Connect(db: Db, req: OrderRequest): (refs: Option<Refs>)
  {
    var cliente := IntId(req.clienteId);
    var seguro := IntId(req.seguroId);
    var transportadora := IntId(req.transportadoraId);
    var tasa := IntId(req.tasaImpositivaId);
    if req.codigo.Str?
       && cliente.Some? && cliente.value in db.clientes
       && seguro.Some? && seguro.value in db.seguros
       && transportadora.Some? && transportadora.value in db.transportadoras
       && tasa.Some? && tasa.value in db.tasas
    then Some(Refs(req.codigo.s, cliente.value, seguro.value, transportadora.value, tasa.value))
    else None
  }

  /** The range of a Prisma `Int` column, a signed 32-bit integer. */
  const IntColumnMin: int := -0x8000_0000
  const IntColumnMax: int := 0x7FFF_FFFF

  /** A number an `Int` column accepts: integral and within 32 bits. */
  predicate IntColumnValue(x: real)
  {
    x == x.Floor as real && IntColumnMin <= x.Floor <= IntColumnMax
  }

  /**
   * The quantities fit the line items' `cantidad` column (an `Int`); otherwise
   * the nested `create` of the line items is refused and the write throws.
   */
  predicate StorableQuantities(items: seq<ItemRequest>)
  {
    forall i :: 0 <= i < |items| ==> IntColumnValue(items[i].cantidad)
  }

  /** An order as the handlers answer with it: the stored order, its line items and the two derived fields. */
  datatype OrderView = OrderView(
    id: int,
    pedido: Order,
    productosPedido: seq<LineItem>,
    pesoTotal: real,
    camionesNecesarios: int)

  /** The answers of the order handlers (HTTP status in the comment). */
  datatype Response =
    | Created(view: OrderView)           // 201
    | Updated(view: OrderView)           // 200
    | Deleted                            // 200
    | BadRequest(reason: Rejection)      // 400
    | ProductNotFound(productoId: real)  // 404
    | ServerError                        // 500
    | NoResponse                         // exception outside the try block

  /** A handler's effect: the store after it, and its answer. */
  datatype Step = Step(db: Db, resp: Response)

  function OrderOf(refs: Refs, costoTotal: real, link: Option<int>): (order: Order)
  {
    Order(refs.codigo, costoTotal, refs.clienteId, refs.seguroId, refs.transportadoraId, refs.tasaImpositivaId, link)
  }

  /** POST /pedidos. */
  function CreatePedido(db: Db, body: map<string, Value>): (step: Step)
  {
    match ValidateBody(body)
    case ThrowsTypeError => Step(db, NoResponse)
    case Rejected(reason) => Step(db, BadRequest(reason))
    case Accepted(req) => CreateValidated(db, req)
  }

  /** POST /pedidos once the guards passed: resolve, then write. */
  function CreateValidated(db: Db, req: OrderRequest): (step: Step)
  {
    match Resolve(db.productos, req.items)
    case Missing(pid) => Step(db, ProductNotFound(pid))
    case Resolved(costo, peso, drafts) => InsertPedido(db, req, costo, peso, drafts)
  }

  /** `prisma.pedido.create`, with its line items nested in the same write. */
  function InsertPedido(db: Db, req: OrderRequest, costo: real, peso: real, drafts: seq<Draft>): (step: Step)
  {
    match Connect(db, req)
    case None => Step(db, ServerError)
    case Some(refs) =>
      if !StorableQuantities(req.items) then Step(db, ServerError)
      else
        var id := db.nextPedidoId;
        var order := OrderOf(refs, costo + BorderExtra(req.aplicar, db.costos), CreateLink(req.aplicar, db.costos));
        var news := NewItems(id, drafts);
        Step(db.(pedidos := db.pedidos[id := order], items := db.items + news, nextPedidoId := id + 1),
             Created(OrderView(id, order, news, peso, TruckCount(peso))))
  }

  /**
   * PUT /pedidos/:id. The line items are deleted in a call of their own, so a
   * later failure of the order update leaves them deleted.
   */
  function UpdatePedido(db: Db, id: int, body: map<string, Value>): (step: Step)
  {
    match ValidateBody(body)
    case ThrowsTypeError => Step(db, NoResponse)
    case Rejected(reason) => Step(db, BadRequest(reason))
    case Accepted(req) => UpdateValidated(db, id, req)
  }

  /** PUT /pedidos/:id once the guards passed: resolve, then delete the line items and write. */
  function UpdateValidated(db: Db, id: int, req: OrderRequest): (step: Step)
  {
    match Resolve(db.productos, req.items)
    case Missing(pid) => Step(db, ProductNotFound(pid))
    case Resolved(costo, peso, drafts) =>
      ReplacePedido(db.(items := WithoutItemsOf(db.items, id)), id, req, costo, peso, drafts)
  }

  /** `prisma.pedido.update` on a store whose line items for `id` are already deleted. */
  function ReplacePedido(cleared: Db, id: int, req: OrderRequest, costo: real, peso: real, drafts: seq<Draft>): (step: Step)
  {
    match Connect(cleared, req)
    case None => Step(cleared, ServerError)
    case Some(refs) =>
      if id !in cleared.pedidos || !StorableQuantities(req.items) then Step(cleared, ServerError)
      else
        var link := UpdateLink(req.aplicar, cleared.costos, cleared.pedidos[id].costoFronterizoId);
        var order := OrderOf(refs, costo + BorderExtra(req.aplicar, cleared.costos), link);
        var news := NewItems(id, drafts);
        Step(cleared.(pedidos := cleared.pedidos[id := order], items := cleared.items + news),
             Updated(OrderView(id, order, news, peso, TruckCount(peso))))
  }

  /** DELETE /pedidos/:id: the line items first, then the order, which must exist. */
  function DeletePedido(db: Db, id: int): (step: Step)
  {
    var cleared := db.(items := WithoutItemsOf(db.items, id));
    if id in db.pedidos then Step(cleared.(pedidos := db.pedidos - {id}), Deleted)
    else Step(cleared, ServerError)
  }

  /** The summary GET /pedidos adds to one stored order, from its line items' snapshots. */
  function Summary(db: Db, id: int): (view: OrderView)
    requires id in db.pedidos
  {
    var its := ItemsOf(db.items, id);
    OrderView(id, db.pedidos[id], its, ItemsWeight(its), TruckCount(ItemsWeight(its)))
  }

  /** GET /pedidos: every stored order with its summary, by id. */
  function ListPedidos(db: Db): (views: map<int, OrderView>)
  {
    map id | id in db.pedidos :: Summary(db, id)
  }
}
