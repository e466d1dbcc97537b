/** The fixed product catalogue (constants.ts). */
module Catalog {
  import opened Types

  const Products: seq<Product> := [
    Product("mainline", "Mainline Hot Wheels", 179.0),
    Product("silver", "Silver Series Hot Wheels", 299.0),
    Product("premium", "Premium Hot Wheels", 549.0)
  ]

  /** No two products of `ps` share an id. */
  predicate DistinctIds(ps: seq<Product>) {
    forall i, j :: 0 <= i < j < |ps| ==> ps[i].id != ps[j].id
  }

  /** True when some product of `ps` has this id. */
  predicate HasId(ps: seq<Product>, id: string) {
    exists i :: 0 <= i < |ps| && ps[i].id == id
  }

  /** `PRODUCTS.find(p => p.id === id)`: the first product with this id, if any. */
  function Find(ps: seq<Product>, id: string): (r: Option<Product>)
    ensures r.None? <==> !HasId(ps, id)
    ensures r.Some? ==> exists i :: 0 <= i < |ps| && ps[i] == r.value && r.value.id == id
                                    && forall j :: 0 <= j < i ==> ps[j].id != id
  {
    if ps == [] then None
    else if ps[0].id == id then Some(ps[0])
    else
      var r := Find(ps[1..], id);
      assert forall i :: 0 <= i < |ps| - 1 ==> ps[1..][i] == ps[i + 1];
      r
  }

  /** `product?.price || 0`: the price of the first product with this id, or 0 for an unknown id. */
  function UnitPrice(ps: seq<Product>, id: string): (r: real)
    ensures !HasId(ps, id) ==> r == 0.0
    ensures HasId(ps, id) ==> exists i :: 0 <= i < |ps| && ps[i].id == id && ps[i].price == r
  {
    match Find(ps, id)
    case Some(p) => p.price
    case None => 0.0
  }

  /** In a catalogue with distinct ids, the unit price of a listed id is that product's price. */
  lemma UnitPriceOfListed(ps: seq<Product>, i: nat)
    requires DistinctIds(ps) && i < |ps|
    ensures UnitPrice(ps, ps[i].id) == ps[i].price
  {
  }

  /** The shipped catalogue has three products with distinct ids and non-negative prices. */
  lemma ProductsWellFormed()
    ensures |Products| == 3 && DistinctIds(Products)
    ensures forall i :: 0 <= i < |Products| ==> Products[i].price >= 0.0
    ensures UnitPrice(Products, "mainline") == 179.0
    ensures UnitPrice(Products, "silver") == 299.0
    ensures UnitPrice(Products, "premium") == 549.0
  {
  }
}
