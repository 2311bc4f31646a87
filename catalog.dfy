/**
 * The catalog records the order handlers read, and the input guards of the
 * catalog endpoints that create them.
 */
module Catalog {
  import opened JsValue

  /** A product (`producto`): its code is unique among products. */
  datatype Product = Product(codigo: string, nombre: string, precioUnitario: real, pesoKg: real)

  /** A client (`cliente`): its national identifier `ci` is unique among clients. */
  datatype Client = Client(ci: string, nombre: string, tipo: string)

  /** A positive number, as `typeof x === 'number' && x > 0` accepts it. */
  predicate PositiveNumber(v: Value)
  {
    v.Num? && v.n > 0.0
  }

  /** The guard of POST /productos: code and name truthy, price and weight positive numbers. */
  predicate ProductBodyValid(body: map<string, Value>)
  {
    Truthy(Field(body, "codigo")) && Truthy(Field(body, "nombre"))
    && PositiveNumber(Field(body, "precioUnitario")) && PositiveNumber(Field(body, "pesoKg"))
  }

  /** The guard of POST /clientes: all three fields truthy. */
  predicate ClientBodyValid(body: map<string, Value>)
  {
    Truthy(Field(body, "ci")) && Truthy(Field(body, "nombre")) && Truthy(Field(body, "tipo"))
  }

  /** The guard of POST /costos-fronterizos: a truthy cost type and a positive cost. */
  predicate BorderCostBodyValid(body: map<string, Value>)
  {
    Truthy(Field(body, "tipoCosto")) && PositiveNumber(Field(body, "costo"))
  }
}
