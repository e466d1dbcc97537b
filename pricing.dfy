/** The derived totals of the form (App.tsx, lines 80-90): subtotal, final total and balance. */
module Pricing {
  import opened Types
  import opened Catalog
  import Invoice

  // ---- catalogue part ----

  /** What one catalogue product adds: its price times its selected quantity, 0 when not selected. */
  function Term(p: Product, m: map<string, int>): real {
    if p.id in m then p.price * (m[p.id] as real) else 0.0
  }

  /** Reference definition: walking the catalogue in order, each selected product adds its price
      times its quantity. */
  function CatalogSum(ps: seq<Product>, m: map<string, int>): real {
    if ps == [] then 0.0 else Term(ps[0], m) + CatalogSum(ps[1..], m)
  }

  /** What the entry for `id` contributes to the source's fold: its unit price (0 if unknown)
      times its quantity, or nothing when the key is absent. */
  function LineAt(ps: seq<Product>, m: map<string, int>, id: string): real {
    if id in m then UnitPrice(ps, id) * (m[id] as real) else 0.0
  }

  lemma TailDistinct(ps: seq<Product>)
    requires ps != [] && DistinctIds(ps)
    ensures DistinctIds(ps[1..]) && !HasId(ps[1..], ps[0].id)
  {
  }

  lemma LineAtHead(ps: seq<Product>, m: map<string, int>, id: string)
    requires ps != [] && DistinctIds(ps) && ps[0].id == id
    ensures Term(ps[0], m) == LineAt(ps, m, id) && LineAt(ps[1..], m, id) == 0.0
  {
  }

  lemma LineAtSkip(ps: seq<Product>, m: map<string, int>, id: string)
    requires ps != [] && ps[0].id != id
    ensures LineAt(ps, m, id) == LineAt(ps[1..], m, id)
  {
  }

  lemma TermAgree(p: Product, m: map<string, int>, m': map<string, int>, id: string)
    requires Invoice.AgreeExcept(m, m', id) && p.id != id
    ensures Term(p, m) == Term(p, m')
  {
  }

  /** Changing the map at one key changes the catalogue sum by exactly that key's contribution. */
  lemma {:induction false} CatalogSumExcept(ps: seq<Product>, m: map<string, int>, m': map<string, int>, id: string)
    requires DistinctIds(ps)
    requires Invoice.AgreeExcept(m, m', id)
    ensures CatalogSum(ps, m') == CatalogSum(ps, m) - LineAt(ps, m, id) + LineAt(ps, m', id)
    decreases |ps|
  {
    if ps != [] {
      TailDistinct(ps);
      CatalogSumExcept(ps[1..], m, m', id);
      if ps[0].id == id {
        LineAtHead(ps, m, id);
        LineAtHead(ps, m', id);
      } else {
        LineAtSkip(ps, m, id);
        LineAtSkip(ps, m', id);
        TermAgree(ps[0], m, m', id);
      }
    }
  }

  /** `Object.entries(selectedProducts)`: the map's pairs in some order, each key exactly once. */
  ghost predicate IsEntriesOf(entries: seq<(string, int)>, m: map<string, int>) {
    && (forall i, j :: 0 <= i < j < |entries| ==> entries[i].0 != entries[j].0)
    && (forall i :: 0 <= i < |entries| ==> entries[i].0 in m && m[entries[i].0] == entries[i].1)
    && (forall k :: k in m ==> exists i :: 0 <= i < |entries| && entries[i].0 == k)
  }

  /** The source's fold `entries.reduce((sum, [id, qty]) => sum + (price of id || 0) * qty, 0)`. */
  function EntriesSum(ps: seq<Product>, entries: seq<(string, int)>): real {
    if entries == [] then 0.0
    else
      var last := entries[|entries| - 1];
      EntriesSum(ps, entries[..|entries| - 1]) + UnitPrice(ps, last.0) * (last.1 as real)
  }

  /** The map a list of pairs describes, later pairs overriding earlier ones. */
  function MapOf(entries: seq<(string, int)>): (r: map<string, int>)
    ensures forall k :: k in r <==> exists i :: 0 <= i < |entries| && entries[i].0 == k
  {
    if entries == [] then map[]
    else
      var init := entries[..|entries| - 1];
      var last := entries[|entries| - 1];
      var r := MapOf(init)[last.0 := last.1];
      assert forall i :: 0 <= i < |init| ==> init[i] == entries[i];
      r
  }

  /** With distinct keys every pair is kept as it is. */
  lemma {:induction false} MapOfAt(entries: seq<(string, int)>, i: nat)
    requires forall a, b :: 0 <= a < b < |entries| ==> entries[a].0 != entries[b].0
    requires i < |entries|
    ensures entries[i].0 in MapOf(entries) && MapOf(entries)[entries[i].0] == entries[i].1
    decreases |entries|
  {
    if i < |entries| - 1 {
      var init := entries[..|entries| - 1];
      assert init[i] == entries[i];
      MapOfAt(init, i);
    }
  }

  /** An enumeration of `m` describes `m`. */
  lemma MapOfEntries(entries: seq<(string, int)>, m: map<string, int>)
    requires IsEntriesOf(entries, m)
    ensures MapOf(entries) == m
  {
    var r := MapOf(entries);
    forall k | k in r ensures k in m && r[k] == m[k] {
      var i :| 0 <= i < |entries| && entries[i].0 == k;
      MapOfAt(entries, i);
    }
  }

  /** With distinct keys, the last key is not among the earlier ones. */
  lemma LastKeyFresh(entries: seq<(string, int)>)
    requires entries != []
    requires forall a, b :: 0 <= a < b < |entries| ==> entries[a].0 != entries[b].0
    ensures entries[|entries| - 1].0 !in MapOf(entries[..|entries| - 1])
  {
  }

  /** Nothing selected, nothing summed. */
  lemma {:induction false} CatalogSumEmpty(ps: seq<Product>)
    ensures CatalogSum(ps, map[]) == 0.0
    decreases |ps|
  {
    if ps != [] {
      CatalogSumEmpty(ps[1..]);
    }
  }

  /** The fold over a list of distinct keys equals the catalogue sum of the map they describe. */
  lemma {:induction false} EntriesSumIsCatalogSum(ps: seq<Product>, entries: seq<(string, int)>)
    requires DistinctIds(ps)
    requires forall a, b :: 0 <= a < b < |entries| ==> entries[a].0 != entries[b].0
    ensures EntriesSum(ps, entries) == CatalogSum(ps, MapOf(entries))
    decreases |entries|
  {
    if entries == [] {
      CatalogSumEmpty(ps);
    } else {
      var init := entries[..|entries| - 1];
      var last := entries[|entries| - 1];
      assert forall a :: 0 <= a < |init| ==> init[a] == entries[a];
      EntriesSumIsCatalogSum(ps, init);
      var m := MapOf(init);
      LastKeyFresh(entries);
      assert MapOf(entries) == m[last.0 := last.1];
      assert EntriesSum(ps, entries) == EntriesSum(ps, init) + UnitPrice(ps, last.0) * (last.1 as real);
      CatalogSumExcept(ps, m, m[last.0 := last.1], last.0);
    }
  }

  /** Whatever order `Object.entries` lists the selection in, the fold gives the catalogue sum. */
  lemma StandardSubtotal(ps: seq<Product>, m: map<string, int>, entries: seq<(string, int)>)
    requires DistinctIds(ps)
    requires IsEntriesOf(entries, m)
    ensures EntriesSum(ps, entries) == CatalogSum(ps, m)
  {
    EntriesSumIsCatalogSum(ps, entries);
    MapOfEntries(entries, m);
  }

  // ---- custom part ----

  /** `customItems.reduce((sum, item) => sum + item.price * item.quantity, 0)`, folded from the left. */
  function CustomSum(items: seq<CustomItem>): real {
    if items == [] then 0.0 else CustomSum(items[..|items| - 1]) + LineTotal(items[|items| - 1])
  }

  /** The fold over a concatenation is the sum of the folds. */
  lemma {:induction false} CustomSumAppend(a: seq<CustomItem>, b: seq<CustomItem>)
    ensures CustomSum(a + b) == CustomSum(a) + CustomSum(b)
    decreases |b|
  {
    if b == [] {
      assert a + b == a;
    } else {
      var b' := b[..|b| - 1];
      assert (a + b)[..|a + b| - 1] == a + b';
      CustomSumAppend(a, b');
    }
  }

  /** Lists whose line totals agree item by item have the same sum. */
  lemma {:induction false} CustomSumPointwise(a: seq<CustomItem>, b: seq<CustomItem>)
    requires |a| == |b|
    requires forall i :: 0 <= i < |a| ==> LineTotal(a[i]) == LineTotal(b[i])
    ensures CustomSum(a) == CustomSum(b)
    decreases |a|
  {
    if a != [] {
      CustomSumPointwise(a[..|a| - 1], b[..|b| - 1]);
    }
  }

  /** The summed line totals of the items carrying `id`. */
  function IdTotal(items: seq<CustomItem>, id: string): real {
    if items == [] then 0.0
    else (if items[0].id == id then LineTotal(items[0]) else 0.0) + IdTotal(items[1..], id)
  }

  /** The custom sum splits into the items a removal keeps and the items it drops. */
  lemma {:induction false} CustomSumSplit(items: seq<CustomItem>, id: string)
    ensures CustomSum(items) == CustomSum(Invoice.Without(items, id)) + IdTotal(items, id)
    decreases |items|
  {
    if items != [] {
      CustomSumSplit(items[1..], id);
      assert items == [items[0]] + items[1..];
      CustomSumAppend([items[0]], items[1..]);
      var rest := Invoice.Without(items[1..], id);
      if items[0].id != id {
        CustomSumAppend([items[0]], rest);
      }
    }
  }

  // ---- totals of a state ----

  /** The subtotal, independent of enumeration order: catalogue sum plus custom sum. */
  function Subtotal(s: InvoiceState): real {
    CatalogSum(Products, s.selectedProducts) + CustomSum(s.customItems)
  }

  /** `finalTotal = subtotal + shippingCharges`. */
  function FinalTotal(s: InvoiceState): real {
    Subtotal(s) + s.shippingCharges
  }

  /** `balance = finalTotal - amountPaid`; negative when overpaid. */
  function Balance(s: InvoiceState): real {
    FinalTotal(s) - s.amountPaid
  }

  /** The source's `useMemo` subtotal for a given listing of `selectedProducts`. */
  function ComputedSubtotal(s: InvoiceState, entries: seq<(string, int)>): real {
    EntriesSum(Products, entries) + CustomSum(s.customItems)
  }

  /** For every listing of the selection, the source's subtotal is `Subtotal(s)`. */
  lemma ComputedSubtotalIsSubtotal(s: InvoiceState, entries: seq<(string, int)>)
    requires IsEntriesOf(entries, s.selectedProducts)
    ensures ComputedSubtotal(s, entries) == Subtotal(s)
    ensures ComputedSubtotal(s, entries) + s.shippingCharges == FinalTotal(s)
    ensures ComputedSubtotal(s, entries) + s.shippingCharges - s.amountPaid == Balance(s)
  {
    ProductsWellFormed();
    StandardSubtotal(Products, s.selectedProducts, entries);
  }

  // ---- how each transition moves the subtotal ----

  /** Toggling on adds the product's unit price; toggling off removes its line. */
  lemma ToggleSubtotal(s: InvoiceState, id: string)
    ensures Subtotal(Invoice.ToggleProduct(s, id)) ==
            Subtotal(s) - LineAt(Products, s.selectedProducts, id)
            + (if Invoice.Selected(s.selectedProducts, id) then 0.0 else UnitPrice(Products, id))
  {
    ProductsWellFormed();
    var r := Invoice.ToggleProduct(s, id);
    CatalogSumExcept(Products, s.selectedProducts, r.selectedProducts, id);
  }

  /** A quantity change replaces the product's line by unit price times the clamped quantity. */
  lemma ChangeQuantitySubtotal(s: InvoiceState, id: string, q: int)
    ensures Subtotal(Invoice.ChangeQuantity(s, id, q)) ==
            Subtotal(s) - LineAt(Products, s.selectedProducts, id)
            + UnitPrice(Products, id) * (Invoice.ClampQuantity(q) as real)
  {
    ProductsWellFormed();
    var r := Invoice.ChangeQuantity(s, id, q);
    CatalogSumExcept(Products, s.selectedProducts, r.selectedProducts, id);
  }

  /** A new blank item costs nothing: no total changes. */
  lemma AddCustomItemKeepsTotals(s: InvoiceState, now: nat)
    ensures Subtotal(Invoice.AddCustomItem(s, now)) == Subtotal(s)
    ensures Balance(Invoice.AddCustomItem(s, now)) == Balance(s)
  {
  }

  /** Removing an id takes exactly the line totals of the items carrying it off the subtotal. */
  lemma RemoveCustomItemSubtotal(s: InvoiceState, id: string)
    ensures Subtotal(Invoice.RemoveCustomItem(s, id)) == Subtotal(s) - IdTotal(s.customItems, id)
  {
    CustomSumSplit(s.customItems, id);
  }

  /** Renaming an item, or changing its id, leaves the totals alone. */
  lemma UpdateLabelKeepsTotals(s: InvoiceState, id: string, u: Invoice.FieldUpdate)
    requires u.SetName? || u.SetId?
    ensures Subtotal(Invoice.UpdateCustomItem(s, id, u)) == Subtotal(s)
  {
    CustomSumPointwise(s.customItems, Invoice.UpdateCustomItem(s, id, u).customItems);
  }

  /** With selected quantities at least 1 and custom items of non-negative price and quantity,
      the subtotal is not negative. */
  lemma SubtotalNonNegative(s: InvoiceState)
    requires Invoice.QuantitiesPositive(s.selectedProducts)
    requires forall i :: 0 <= i < |s.customItems| ==> s.customItems[i].price >= 0.0 && s.customItems[i].quantity >= 0
    ensures Subtotal(s) >= 0.0
  {
    ProductsWellFormed();
    CatalogSumNonNegative(Products, s.selectedProducts);
    CustomSumNonNegative(s.customItems);
  }

  lemma {:induction false} CatalogSumNonNegative(ps: seq<Product>, m: map<string, int>)
    requires Invoice.QuantitiesPositive(m)
    requires forall i :: 0 <= i < |ps| ==> ps[i].price >= 0.0
    ensures CatalogSum(ps, m) >= 0.0
    decreases |ps|
  {
    if ps != [] {
      assert forall i :: 0 <= i < |ps| - 1 ==> ps[1..][i] == ps[i + 1];
      CatalogSumNonNegative(ps[1..], m);
    }
  }

  lemma {:induction false} CustomSumNonNegative(items: seq<CustomItem>)
    requires forall i :: 0 <= i < |items| ==> items[i].price >= 0.0 && items[i].quantity >= 0
    ensures CustomSum(items) >= 0.0
    decreases |items|
  {
    if items != [] {
      var last := items[|items| - 1];
      CustomSumNonNegative(items[..|items| - 1]);
    }
  }
}
