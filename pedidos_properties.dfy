/**
 * What the order handlers promise, proved about the transitions in `Pedidos`:
 * validation before any write, one snapshot line item per requested item,
 * the cost and weight sums, the border-cost link, replace-on-update,
 * delete, and the read path agreeing with the write responses.
 */
module PedidosProperties {
  import opened Wrappers
  import opened JsValue
  import opened Costing
  import opened Catalog
  import opened Pedidos

  // ---------------------------------------------------------------- validation

  /** `every` accepts exactly the arrays of objects with numeric fields, and throws exactly at a leading null. */
  lemma CheckItemsMeaning(elems: seq<Value>)
    ensures CheckItems(elems).AllNumeric? <==> forall i :: 0 <= i < |elems| ==> NumericItem(elems[i])
    ensures CheckItems(elems).AllNumeric? ==>
      |CheckItems(elems).items| == |elems|
      && forall i :: 0 <= i < |elems| ==> NumericItem(elems[i]) && CheckItems(elems).items[i] == ToItem(elems[i])
    ensures CheckItems(elems).Throws? <==>
      exists i :: 0 <= i < |elems| && (elems[i].Null? || elems[i].Undefined?)
                  && forall j :: 0 <= j < i ==> NumericItem(elems[j])
  {
    CheckItemsAccepts(elems);
    CheckItemsThrows(elems);
  }

  /** `every` accepts exactly when every element has numeric fields, and then yields those fields in order. */
  lemma {:induction false} CheckItemsAccepts(elems: seq<Value>)
    ensures CheckItems(elems).AllNumeric? <==> forall i :: 0 <= i < |elems| ==> NumericItem(elems[i])
    ensures CheckItems(elems).AllNumeric? ==>
      |CheckItems(elems).items| == |elems|
      && forall i :: 0 <= i < |elems| ==> NumericItem(elems[i]) && CheckItems(elems).items[i] == ToItem(elems[i])
  {
    if elems != [] {
      var rest := elems[1..];
      CheckItemsAccepts(rest);
      assert forall i :: 0 < i < |elems| ==> elems[i] == rest[i - 1];
    }
  }

  /** `every` throws exactly when it reaches a null or undefined element, all earlier ones passing. */
  lemma CheckItemsThrows(elems: seq<Value>)
    ensures CheckItems(elems).Throws? <==>
      exists i :: 0 <= i < |elems| && (elems[i].Null? || elems[i].Undefined?)
                  && forall j :: 0 <= j < i ==> NumericItem(elems[j])
  {
    if CheckItems(elems).Throws? {
      var i := ThrowingElement(elems);
    }
    if exists i :: 0 <= i < |elems| && (elems[i].Null? || elems[i].Undefined?)
                   && forall j :: 0 <= j < i ==> NumericItem(elems[j]) {
      var i :| 0 <= i < |elems| && (elems[i].Null? || elems[i].Undefined?)
               && forall j :: 0 <= j < i ==> NumericItem(elems[j]);
      ThrowsAt(elems, i);
    }
  }

  /** When `every` throws, it is at a null or undefined element that all earlier ones lead up to. */
  lemma {:induction false} ThrowingElement(elems: seq<Value>) returns (i: int)
    requires CheckItems(elems).Throws?
    ensures 0 <= i < |elems| && (elems[i].Null? || elems[i].Undefined?)
    ensures forall j :: 0 <= j < i ==> NumericItem(elems[j])
  {
    if NumericItem(elems[0]) {
      var rest := elems[1..];
      var i' := ThrowingElement(rest);
      assert forall j :: 0 < j < |elems| ==> elems[j] == rest[j - 1];
      i := i' + 1;
    } else {
      i := 0;
    }
  }

  /** A null or undefined element after elements that all pass makes `every` throw. */
  lemma {:induction false} ThrowsAt(elems: seq<Value>, i: int)
    requires 0 <= i < |elems| && (elems[i].Null? || elems[i].Undefined?)
    requires forall j :: 0 <= j < i ==> NumericItem(elems[j])
    ensures CheckItems(elems).Throws?
  {
    if i > 0 {
      var rest := elems[1..];
      assert forall j :: 0 <= j < i - 1 ==> rest[j] == elems[j + 1];
      ThrowsAt(rest, i - 1);
    }
  }

  /**
   * The guards reject with "missing fields" exactly when a required field is
   * falsy (0 and "" included) or `productos` is not a non-empty array, accept
   * exactly when every element also has numeric `productoId` and `cantidad`
   * (whatever their sign), and pass the fields on unchanged.
   */
  lemma ValidateBodyMeaning(body: map<string, Value>)
    ensures ValidateBody(body) == Rejected(MissingFields) <==> !HasRequiredFields(body)
    ensures ValidateBody(body).Accepted? <==>
      HasRequiredFields(body)
      && forall i :: 0 <= i < |Field(body, "productos").elems| ==> NumericItem(Field(body, "productos").elems[i])
    ensures ValidateBody(body).Accepted? ==>
      var req := ValidateBody(body).req;
      var elems := Field(body, "productos").elems;
      req.codigo == Field(body, "codigoPedido") && req.clienteId == Field(body, "clienteId")
      && req.seguroId == Field(body, "seguroId") && req.transportadoraId == Field(body, "transportadoraId")
      && req.tasaImpositivaId == Field(body, "tasaImpositivaId")
      && req.aplicar == Truthy(Field(body, "aplicarCostosFronterizos"))
      && |req.items| == |elems|
      && forall i :: 0 <= i < |elems| ==> NumericItem(elems[i]) && req.items[i] == ToItem(elems[i])
  {
    if HasRequiredFields(body) {
      CheckItemsMeaning(Field(body, "productos").elems);
    }
  }

  // ---------------------------------------------------------------- resolution

  /** Once the loop has returned 404 on a prefix, later items change nothing. */
  lemma {:induction false} ResolveMissingStays(catalog: map<int, Product>, reqs: seq<ItemRequest>, i: nat)
    requires i <= |reqs|
    requires Resolve(catalog, reqs[..i]).Missing?
    ensures Resolve(catalog, reqs) == Resolve(catalog, reqs[..i])
  {
    if i == |reqs| {
      assert reqs[..i] == reqs;
    } else {
      var prefix := reqs[..|reqs| - 1];
      assert prefix[..i] == reqs[..i];
      ResolveMissingStays(catalog, prefix, i);
    }
  }

  /**
   * Resolution fails exactly when some product id does not resolve, and then
   * names the first such id; otherwise it yields one draft per item, in order,
   * with the item's quantity and the product's current weight, and the two
   * sums over the resolved lines.
   */
  lemma ResolveMeaning(catalog: map<int, Product>, reqs: seq<ItemRequest>)
    ensures Resolve(catalog, reqs).Resolved? <==> AllFound(catalog, reqs)
    ensures Resolve(catalog, reqs).Missing? ==>
      exists i :: 0 <= i < |reqs| && reqs[i].productoId == Resolve(catalog, reqs).productoId
                  && !Found(catalog, reqs[i]) && AllFound(catalog, reqs[..i])
    ensures Resolve(catalog, reqs).Resolved? ==>
      var r := Resolve(catalog, reqs);
      AllFound(catalog, reqs) && |r.drafts| == |reqs|
      && (forall i :: 0 <= i < |reqs| ==> r.drafts[i] == DraftOf(catalog, reqs[i]))
      && r.costoTotal == LinesCost(LinesOf(catalog, reqs))
      && r.pesoTotal == LinesWeight(LinesOf(catalog, reqs))
  {
    ResolveOutcome(catalog, reqs);
    if Resolve(catalog, reqs).Resolved? {
      ResolvedContents(catalog, reqs);
    }
  }

  /** Resolution succeeds iff every id resolves, and a failure names the first id that does not. */
  lemma {:induction false} ResolveOutcome(catalog: map<int, Product>, reqs: seq<ItemRequest>)
    ensures Resolve(catalog, reqs).Resolved? <==> AllFound(catalog, reqs)
    ensures Resolve(catalog, reqs).Missing? ==>
      exists i :: 0 <= i < |reqs| && reqs[i].productoId == Resolve(catalog, reqs).productoId
                  && !Found(catalog, reqs[i]) && AllFound(catalog, reqs[..i])
  {
    if reqs != [] {
      var n := |reqs|;
      var prefix := reqs[..n - 1];
      ResolveOutcome(catalog, prefix);
      assert forall i :: 0 <= i < n - 1 ==> prefix[i] == reqs[i];
      match Resolve(catalog, prefix)
      case Missing(id) =>
        var i :| 0 <= i < |prefix| && prefix[i].productoId == id
                 && !Found(catalog, prefix[i]) && AllFound(catalog, prefix[..i]);
        assert prefix[..i] == reqs[..i];
        assert !Found(catalog, reqs[i]);
      case Resolved(_, _, _) =>
        if Found(catalog, reqs[n - 1]) {
          assert AllFound(catalog, reqs);
        } else {
          assert reqs[..n - 1] == prefix;
        }
    }
  }

  /** A successful resolution: one draft per item, in order, and the sums over the resolved lines. */
  lemma ResolvedContents(catalog: map<int, Product>, reqs: seq<ItemRequest>)
    requires Resolve(catalog, reqs).Resolved?
    ensures
      var r := Resolve(catalog, reqs);
      AllFound(catalog, reqs) && |r.drafts| == |reqs|
      && (forall i :: 0 <= i < |reqs| ==> r.drafts[i] == DraftOf(catalog, reqs[i]))
      && r.costoTotal == LinesCost(LinesOf(catalog, reqs))
      && r.pesoTotal == LinesWeight(LinesOf(catalog, reqs))
  {
    ResolvedDrafts(catalog, reqs);
    ResolvedSums(catalog, reqs);
  }

  /** A successful resolution has one draft per item, in order. */
  lemma {:induction false} ResolvedDrafts(catalog: map<int, Product>, reqs: seq<ItemRequest>)
    requires Resolve(catalog, reqs).Resolved?
    ensures AllFound(catalog, reqs)
    ensures |Resolve(catalog, reqs).drafts| == |reqs|
    ensures forall i :: 0 <= i < |reqs| ==> Resolve(catalog, reqs).drafts[i] == DraftOf(catalog, reqs[i])
  {
    if reqs != [] {
      var n := |reqs|;
      var prefix := reqs[..n - 1];
      ResolvedDrafts(catalog, prefix);
      assert Found(catalog, reqs[n - 1]);
      assert Resolve(catalog, reqs).drafts == Resolve(catalog, prefix).drafts + [DraftOf(catalog, reqs[n - 1])];
      assert forall i :: 0 <= i < n - 1 ==> prefix[i] == reqs[i];
    }
  }

  /** A successful resolution's sums are the cost and weight of the resolved lines. */
  lemma {:induction false} ResolvedSums(catalog: map<int, Product>, reqs: seq<ItemRequest>)
    requires Resolve(catalog, reqs).Resolved?
    ensures AllFound(catalog, reqs)
    ensures Resolve(catalog, reqs).costoTotal == LinesCost(LinesOf(catalog, reqs))
    ensures Resolve(catalog, reqs).pesoTotal == LinesWeight(LinesOf(catalog, reqs))
  {
    ResolvedDrafts(catalog, reqs);
    if reqs == [] {
      assert LinesOf(catalog, reqs) == [];
    } else {
      var n := |reqs|;
      var prefix := reqs[..n - 1];
      var last := reqs[n - 1];
      var rp := Resolve(catalog, prefix);
      ResolvedSums(catalog, prefix);
      assert Found(catalog, last);
      var line := LineOf(catalog, last);
      assert Resolve(catalog, reqs).costoTotal == rp.costoTotal + line.precioUnitario * last.cantidad;
      assert Resolve(catalog, reqs).pesoTotal == rp.pesoTotal + line.pesoKg * last.cantidad;
      assert forall i :: 0 <= i < n - 1 ==> prefix[i] == reqs[i];
      assert LinesOf(catalog, reqs) == LinesOf(catalog, prefix) + [line];
    }
  }

  // ---------------------------------------------------------------- the line-item table

  lemma {:induction false} ItemsOfAppend(a: seq<LineItem>, b: seq<LineItem>, id: int)
    ensures ItemsOf(a + b, id) == ItemsOf(a, id) + ItemsOf(b, id)
    ensures WithoutItemsOf(a + b, id) == WithoutItemsOf(a, id) + WithoutItemsOf(b, id)
  {
    if b == [] {
      assert a + b == a;
    } else {
      var b' := b[..|b| - 1];
      assert (a + b)[..|a + b| - 1] == a + b';
      ItemsOfAppend(a, b', id);
    }
  }

  /** A table none of whose rows belongs to `id`: no rows of it, and deleting them removes nothing. */
  lemma {:induction false} ItemsOfForeign(a: seq<LineItem>, id: int)
    requires forall i :: 0 <= i < |a| ==> a[i].pedidoId != id
    ensures ItemsOf(a, id) == [] && WithoutItemsOf(a, id) == a
  {
    if a != [] {
      ItemsOfForeign(a[..|a| - 1], id);
      assert a == a[..|a| - 1] + [a[|a| - 1]];
    }
  }

  /** A table all of whose rows belong to `id`: all of them are its rows, and deleting them leaves nothing. */
  lemma {:induction false} ItemsOfOwn(a: seq<LineItem>, id: int)
    requires forall i :: 0 <= i < |a| ==> a[i].pedidoId == id
    ensures ItemsOf(a, id) == a && WithoutItemsOf(a, id) == []
  {
    if a != [] {
      ItemsOfOwn(a[..|a| - 1], id);
      assert a == a[..|a| - 1] + [a[|a| - 1]];
    }
  }

  /** deleteMany keeps exactly the other orders' rows, in their order. */
  lemma {:induction false} WithoutItemsOfMeaning(a: seq<LineItem>, id: int)
    ensures forall x :: x in WithoutItemsOf(a, id) ==> x in a && x.pedidoId != id
    ensures forall o :: ItemsOf(WithoutItemsOf(a, id), o) == if o == id then [] else ItemsOf(a, o)
  {
    if a != [] {
      var a' := a[..|a| - 1];
      var last := a[|a| - 1];
      WithoutItemsOfMeaning(a', id);
      var kept := if last.pedidoId != id then [last] else [];
      forall o
        ensures ItemsOf(WithoutItemsOf(a, id), o) == if o == id then [] else ItemsOf(a, o)
      {
        ItemsOfAppend(WithoutItemsOf(a', id), kept, o);
      }
    }
  }

  /** The rows written from the drafts carry exactly the resolved lines' cost and weight. */
  lemma {:induction false} DraftedItemsTotals(catalog: map<int, Product>, reqs: seq<ItemRequest>,
                                              drafts: seq<Draft>, id: int)
    requires AllFound(catalog, reqs) && |drafts| == |reqs|
    requires forall i :: 0 <= i < |reqs| ==> drafts[i] == DraftOf(catalog, reqs[i])
    ensures ProductsKnown(catalog, NewItems(id, drafts))
    ensures ItemsCost(catalog, NewItems(id, drafts)) == LinesCost(LinesOf(catalog, reqs))
    ensures ItemsWeight(NewItems(id, drafts)) == LinesWeight(LinesOf(catalog, reqs))
  {
    if reqs != [] {
      var n := |reqs|;
      assert NewItems(id, drafts)[..n - 1] == NewItems(id, drafts[..n - 1]);
      assert LinesOf(catalog, reqs)[..n - 1] == LinesOf(catalog, reqs[..n - 1]);
      DraftedItemsTotals(catalog, reqs[..n - 1], drafts[..n - 1], id);
    }
  }

  // ---------------------------------------------------------------- no write before validation and resolution

  /**
   * A failed guard or an unknown product writes nothing, on create and on
   * update alike: a missing or falsy field answers 400, and an unknown product
   * answers 404 naming the first unknown id, before any line item is deleted.
   */
  lemma NoWriteBeforeResolution(db: Db, id: int, body: map<string, Value>)
    ensures !HasRequiredFields(body) ==>
      CreatePedido(db, body) == Step(db, BadRequest(MissingFields))
      && UpdatePedido(db, id, body) == Step(db, BadRequest(MissingFields))
    ensures !ValidateBody(body).Accepted? ==>
      CreatePedido(db, body).db == db && UpdatePedido(db, id, body).db == db
    ensures ValidateBody(body).Accepted? && !AllFound(db.productos, ValidateBody(body).req.items) ==>
      var items := ValidateBody(body).req.items;
      var resp := CreatePedido(db, body).resp;
      CreatePedido(db, body).db == db && UpdatePedido(db, id, body) == Step(db, resp)
      && resp.ProductNotFound?
      && exists i :: 0 <= i < |items| && items[i].productoId == resp.productoId
                     && !Found(db.productos, items[i]) && AllFound(db.productos, items[..i])
  {
    ValidateBodyMeaning(body);
    if ValidateBody(body).Accepted? {
      ResolveMeaning(db.productos, ValidateBody(body).req.items);
    }
  }

  // ---------------------------------------------------------------- what a write stores

  /**
   * The order's code and its four references are the request body's own
   * values, and each reference names an existing record.
   */
  predicate WrittenFromBody(db: Db, body: map<string, Value>, o: Order)
  {
    Field(body, "codigoPedido") == Str(o.codigo)
    && Field(body, "clienteId") == Num(o.clienteId as real) && o.clienteId in db.clientes
    && Field(body, "seguroId") == Num(o.seguroId as real) && o.seguroId in db.seguros
    && Field(body, "transportadoraId") == Num(o.transportadoraId as real) && o.transportadoraId in db.transportadoras
    && Field(body, "tasaImpositivaId") == Num(o.tasaImpositivaId as real) && o.tasaImpositivaId in db.tasas
  }

  /**
   * One line item of order `id` per requested item, in order, each with the
   * resolved product, the requested quantity (an `Int` column value) and a
   * snapshot of the product's current weight.
   */
  predicate BuiltFromItems(catalog: map<int, Product>, reqs: seq<ItemRequest>, id: int, lineItems: seq<LineItem>)
  {
    |lineItems| == |reqs|
    && forall i :: 0 <= i < |reqs| ==>
         var li := lineItems[i];
         li.pedidoId == id && li.productoId in catalog && li.productoId as real == reqs[i].productoId
         && li.cantidad == reqs[i].cantidad && IntColumnValue(li.cantidad)
         && li.pesoKg == catalog[li.productoId].pesoKg
  }

  // ---------------------------------------------------------------- create

  /**
   * A created order gets a fresh id; exactly its row and its line items are
   * added, one line item per requested item, in order, each with the requested
   * quantity and a snapshot of the product's current weight; its code and
   * references are the body's, and name existing records.
   */
  lemma CreatedOrderContents(db: Db, body: map<string, Value>)
    requires DbValid(db)
    requires CreatePedido(db, body).resp.Created?
    ensures ValidateBody(body).Accepted?
    ensures
      var s := CreatePedido(db, body);
      var v := s.resp.view;
      v.id !in db.pedidos
      && s.db == db.(pedidos := db.pedidos[v.id := v.pedido], items := db.items + v.productosPedido,
                     nextPedidoId := db.nextPedidoId + 1)
      && BuiltFromItems(db.productos, ValidateBody(body).req.items, v.id, v.productosPedido)
      && WrittenFromBody(db, body, v.pedido)
  {
    var req := ValidateBody(body).req;
    ValidateBodyMeaning(body);
    ResolveMeaning(db.productos, req.items);
  }

  /**
   * A created order's total is Σ precioUnitario × cantidad over its line items
   * plus, when the flag is truthy, every border cost; its weight is
   * Σ pesoKg × cantidad and its truck count the ceiling of weight / 18000.
   */
  lemma CreatedOrderTotals(db: Db, body: map<string, Value>)
    requires CreatePedido(db, body).resp.Created?
    ensures ValidateBody(body).Accepted?
    ensures
      var v := CreatePedido(db, body).resp.view;
      var req := ValidateBody(body).req;
      ProductsKnown(db.productos, v.productosPedido)
      && v.pedido.costoTotal == ItemsCost(db.productos, v.productosPedido) + BorderExtra(req.aplicar, db.costos)
      && v.pesoTotal == ItemsWeight(v.productosPedido)
      && v.camionesNecesarios == TruckCount(v.pesoTotal)
  {
    var req := ValidateBody(body).req;
    ResolveMeaning(db.productos, req.items);
    var r := Resolve(db.productos, req.items);
    DraftedItemsTotals(db.productos, req.items, r.drafts, db.nextPedidoId);
  }

  /**
   * A created order is linked to a border-cost record exactly when the flag is
   * truthy and a record exists, and then to the first one.
   */
  lemma CreatedOrderLink(db: Db, body: map<string, Value>)
    requires DbValid(db)
    requires CreatePedido(db, body).resp.Created?
    ensures ValidateBody(body).Accepted?
    ensures
      var link := CreatePedido(db, body).resp.view.pedido.costoFronterizoId;
      var req := ValidateBody(body).req;
      (link.Some? <==> req.aplicar && db.costos != [])
      && (link.Some? ==> link.value == db.costos[0].id)
      && (req.aplicar && db.costos != [] ==> BorderExtra(req.aplicar, db.costos) > 0.0)
  {
    var req := ValidateBody(body).req;
    if req.aplicar && db.costos != [] {
      BorderSumPositive(db.costos);
    }
  }

  /** What GET /pedidos shows for a just-created order is exactly what POST answered with. */
  lemma CreatedOrderListed(db: Db, body: map<string, Value>)
    requires DbValid(db)
    requires CreatePedido(db, body).resp.Created?
    ensures
      var s := CreatePedido(db, body);
      s.resp.view.id in ListPedidos(s.db) && ListPedidos(s.db)[s.resp.view.id] == s.resp.view
  {
    var req := ValidateBody(body).req;
    var r := Resolve(db.productos, req.items);
    assert CreatePedido(db, body) == InsertPedido(db, req, r.costoTotal, r.pesoTotal, r.drafts);
    ResolveMeaning(db.productos, req.items);
    DraftedItemsTotals(db.productos, req.items, r.drafts, db.nextPedidoId);
    InsertedOrderListed(db, req, r.costoTotal, r.pesoTotal, r.drafts);
  }

  /** The listing of a store the order write has just added to shows the written order as answered. */
  lemma InsertedOrderListed(db: Db, req: OrderRequest, costo: real, peso: real, drafts: seq<Draft>)
    requires forall i :: 0 <= i < |db.items| ==> db.items[i].pedidoId != db.nextPedidoId
    requires peso == ItemsWeight(NewItems(db.nextPedidoId, drafts))
    requires InsertPedido(db, req, costo, peso, drafts).resp.Created?
    ensures
      var s := InsertPedido(db, req, costo, peso, drafts);
      s.resp.view.id in ListPedidos(s.db) && ListPedidos(s.db)[s.resp.view.id] == s.resp.view
  {
    var s := InsertPedido(db, req, costo, peso, drafts);
    var id := db.nextPedidoId;
    var news := NewItems(id, drafts);
    ItemsOfAppend(db.items, news, id);
    ItemsOfForeign(db.items, id);
    ItemsOfOwn(news, id);
    assert s.db.items == db.items + news;
    assert ItemsOf(s.db.items, id) == news;
    assert ListPedidos(s.db)[id] == Summary(s.db, id);
  }

  // ---------------------------------------------------------------- update

  /**
   * An update that succeeds rewrites the order row and replaces its line items
   * with the newly built ones, one per requested item, in order, with the
   * requested quantity and the product's weight snapshot; nothing else in the
   * store changes. The new code and references are the body's, and name
   * existing records.
   */
  lemma UpdatedOrderContents(db: Db, id: int, body: map<string, Value>)
    requires UpdatePedido(db, id, body).resp.Updated?
    ensures ValidateBody(body).Accepted?
    ensures
      var s := UpdatePedido(db, id, body);
      var v := s.resp.view;
      id in db.pedidos && v.id == id
      && s.db == db.(pedidos := db.pedidos[id := v.pedido], items := WithoutItemsOf(db.items, id) + v.productosPedido)
      && BuiltFromItems(db.productos, ValidateBody(body).req.items, id, v.productosPedido)
      && WrittenFromBody(db, body, v.pedido)
  {
    ValidateBodyMeaning(body);
    ResolveMeaning(db.productos, ValidateBody(body).req.items);
  }

  /**
   * After a successful update the order's line items are exactly the ones in
   * the answer, every other order keeps its line items, and the total, weight
   * and truck count are those of the new items, plus border costs when opted in.
   */
  lemma UpdatedOrderItems(db: Db, id: int, body: map<string, Value>)
    requires UpdatePedido(db, id, body).resp.Updated?
    ensures ValidateBody(body).Accepted?
    ensures
      var s := UpdatePedido(db, id, body);
      var v := s.resp.view;
      var req := ValidateBody(body).req;
      ItemsOf(s.db.items, id) == v.productosPedido
      && (forall o :: o != id ==> ItemsOf(s.db.items, o) == ItemsOf(db.items, o))
      && ProductsKnown(db.productos, v.productosPedido)
      && v.pedido.costoTotal == ItemsCost(db.productos, v.productosPedido) + BorderExtra(req.aplicar, db.costos)
      && v.pesoTotal == ItemsWeight(v.productosPedido)
      && v.camionesNecesarios == TruckCount(v.pesoTotal)
  {
    var req := ValidateBody(body).req;
    ResolveMeaning(db.productos, req.items);
    var r := Resolve(db.productos, req.items);
    DraftedItemsTotals(db.productos, req.items, r.drafts, id);
    var cleared := WithoutItemsOf(db.items, id);
    var news := NewItems(id, r.drafts);
    WithoutItemsOfMeaning(db.items, id);
    forall o
      ensures ItemsOf(cleared + news, o) == if o == id then news else ItemsOf(db.items, o)
    {
      ItemsOfAppend(cleared, news, o);
      if o == id {
        ItemsOfOwn(news, id);
      } else {
        ItemsOfForeign(news, o);
      }
    }
  }

  /**
   * The border-cost link after an update: a falsy flag disconnects it; a
   * truthy flag links the first record when one exists, and otherwise leaves
   * whatever link the order had.
   */
  lemma UpdatedOrderLink(db: Db, id: int, body: map<string, Value>)
    requires DbValid(db)
    requires UpdatePedido(db, id, body).resp.Updated?
    ensures ValidateBody(body).Accepted? && id in db.pedidos
    ensures
      var link := UpdatePedido(db, id, body).resp.view.pedido.costoFronterizoId;
      var req := ValidateBody(body).req;
      (!req.aplicar ==> link == None)
      && (req.aplicar && db.costos != [] ==> link == Some(db.costos[0].id))
      && (req.aplicar && db.costos == [] ==> link == db.pedidos[id].costoFronterizoId)
  {
    if ValidateBody(body).req.aplicar && db.costos != [] {
      assert db.costos[0].id > 0;
    }
  }

  /** Repeating a successful update with the same body changes nothing and answers the same. */
  lemma UpdateIdempotent(db: Db, id: int, body: map<string, Value>)
    requires UpdatePedido(db, id, body).resp.Updated?
    ensures
      var s := UpdatePedido(db, id, body);
      UpdatePedido(s.db, id, body) == s
  {
    var req := ValidateBody(body).req;
    assert ValidateBody(body) == Accepted(req);
    var r := Resolve(db.productos, req.items);
    assert r.Resolved?;
    var clearedDb := db.(items := WithoutItemsOf(db.items, id));
    WithoutItemsOfMeaning(db.items, id);
    assert forall i :: 0 <= i < |clearedDb.items| ==> clearedDb.items[i] in db.items;
    ReplaceIdempotent(clearedDb, id, req, r.costoTotal, r.pesoTotal, r.drafts);
  }

  lemma ReplaceIdempotent(cleared: Db, id: int, req: OrderRequest, costo: real, peso: real, drafts: seq<Draft>)
    requires forall i :: 0 <= i < |cleared.items| ==> cleared.items[i].pedidoId != id
    requires ReplacePedido(cleared, id, req, costo, peso, drafts).resp.Updated?
    ensures
      var s := ReplacePedido(cleared, id, req, costo, peso, drafts);
      ReplacePedido(s.db.(items := WithoutItemsOf(s.db.items, id)), id, req, costo, peso, drafts) == s
  {
    var s := ReplacePedido(cleared, id, req, costo, peso, drafts);
    var news := NewItems(id, drafts);
    var order := s.resp.view.pedido;
    assert s.db == cleared.(pedidos := cleared.pedidos[id := order], items := cleared.items + news);
    ItemsOfAppend(cleared.items, news, id);
    ItemsOfForeign(cleared.items, id);
    ItemsOfOwn(news, id);
    var again := s.db.(items := cleared.items);
    assert WithoutItemsOf(s.db.items, id) == cleared.items;
    assert Connect(again, req) == Connect(cleared, req);
    assert UpdateLink(req.aplicar, cleared.costos, order.costoFronterizoId) == order.costoFronterizoId;
  }

  /**
   * The update is not atomic: when the order write is refused (a code that is
   * not a string, an id that names no record, or a quantity the `Int` column
   * does not take), the earlier deleteMany stays done and the order is left
   * without line items.
   */
  lemma UpdateRefusedKeepsDeletion(db: Db, id: int, body: map<string, Value>)
    requires ValidateBody(body).Accepted?
    requires AllFound(db.productos, ValidateBody(body).req.items)
    requires Connect(db, ValidateBody(body).req).None? || !StorableQuantities(ValidateBody(body).req.items)
    ensures
      var s := UpdatePedido(db, id, body);
      s.resp == ServerError && s.db == db.(items := WithoutItemsOf(db.items, id)) && ItemsOf(s.db.items, id) == []
      && forall o :: o != id ==> ItemsOf(s.db.items, o) == ItemsOf(db.items, o)
  {
    ResolveMeaning(db.productos, ValidateBody(body).req.items);
    WithoutItemsOfMeaning(db.items, id);
  }

  /** Updating an order that does not exist never succeeds and leaves the store as it was. */
  lemma UpdateMissingOrder(db: Db, id: int, body: map<string, Value>)
    requires DbValid(db)
    requires id !in db.pedidos
    ensures UpdatePedido(db, id, body).db == db
    ensures !UpdatePedido(db, id, body).resp.Updated?
  {
    ItemsOfForeign(db.items, id);
  }

  // ---------------------------------------------------------------- delete

  /**
   * Delete removes the order and all its line items and nothing else; an id
   * that names no order answers 500 and changes nothing.
   */
  lemma DeleteOrder(db: Db, id: int)
    requires DbValid(db)
    ensures
      var s := DeletePedido(db, id);
      (id in db.pedidos ==>
         s.resp == Deleted && s.db == db.(pedidos := db.pedidos - {id}, items := WithoutItemsOf(db.items, id))
         && ItemsOf(s.db.items, id) == []
         && forall o :: o != id ==> ItemsOf(s.db.items, o) == ItemsOf(db.items, o))
      && (id !in db.pedidos ==> s == Step(db, ServerError))
  {
    WithoutItemsOfMeaning(db.items, id);
    if id !in db.pedidos {
      ItemsOfForeign(db.items, id);
    }
  }

  // ---------------------------------------------------------------- read path

  /** GET /pedidos reads the line items' weight snapshots, never the products' current weights. */
  lemma ListIgnoresCurrentProducts(db: Db, productos: map<int, Product>)
    ensures ListPedidos(db.(productos := productos)) == ListPedidos(db)
  {
  }

  // ---------------------------------------------------------------- invariants

  lemma CreatePreservesValid(db: Db, body: map<string, Value>)
    requires DbValid(db)
    ensures DbValid(CreatePedido(db, body).db)
  {
    if ValidateBody(body).Accepted? {
      var req := ValidateBody(body).req;
      if Resolve(db.productos, req.items).Resolved? {
        var r := Resolve(db.productos, req.items);
        ResolveMeaning(db.productos, req.items);
        InsertPreservesValid(db, req, r.costoTotal, r.pesoTotal, r.drafts);
      }
    }
  }

  /** The order write keeps the invariant when each draft carries its item's quantity. */
  lemma InsertPreservesValid(db: Db, req: OrderRequest, costo: real, peso: real, drafts: seq<Draft>)
    requires DbValid(db)
    requires |drafts| == |req.items| && forall i :: 0 <= i < |drafts| ==> drafts[i].cantidad == req.items[i].cantidad
    ensures DbValid(InsertPedido(db, req, costo, peso, drafts).db)
  {
  }

  lemma UpdatePreservesValid(db: Db, id: int, body: map<string, Value>)
    requires DbValid(db)
    ensures DbValid(UpdatePedido(db, id, body).db)
  {
    if ValidateBody(body).Accepted? {
      var req := ValidateBody(body).req;
      if Resolve(db.productos, req.items).Resolved? {
        var r := Resolve(db.productos, req.items);
        ResolveMeaning(db.productos, req.items);
        var cleared := db.(items := WithoutItemsOf(db.items, id));
        WithoutItemsOfMeaning(db.items, id);
        assert DbValid(cleared);
        ReplacePreservesValid(cleared, id, req, r.costoTotal, r.pesoTotal, r.drafts);
      }
    }
  }

  /** The order update keeps the invariant when each draft carries its item's quantity. */
  lemma ReplacePreservesValid(cleared: Db, id: int, req: OrderRequest, costo: real, peso: real, drafts: seq<Draft>)
    requires DbValid(cleared)
    requires |drafts| == |req.items| && forall i :: 0 <= i < |drafts| ==> drafts[i].cantidad == req.items[i].cantidad
    ensures DbValid(ReplacePedido(cleared, id, req, costo, peso, drafts).db)
  {
  }

  lemma DeletePreservesValid(db: Db, id: int)
    requires DbValid(db)
    ensures DbValid(DeletePedido(db, id).db)
  {
    WithoutItemsOfMeaning(db.items, id);
  }
}
