/** The state transitions of the invoice form (App.tsx): each handler maps the previous
    `InvoiceState` to the next one. */
module Invoice {
  import opened Types
  import Decimal

  /** The state the form starts in: no logo, empty customer, nothing selected, no custom items,
      no shipping and nothing paid. */
  function InitialState(): InvoiceState {
    InvoiceState(None, CustomerDetails("", "", ""), map[], [], 0.0, 0.0)
  }

  /** The JavaScript test `selectedProducts[id]` for an id that is an own key or absent: the key
      is present and its quantity is not 0. Ids naming members inherited by every JavaScript
      object (`toString`, `constructor`, ...) are outside this model; the form only passes
      catalogue ids. */
  predicate Selected(m: map<string, int>, id: string)
    ensures Selected(m, id) ==> id in m
  {
    id in m && m[id] != 0
  }

  /** The invariant the handlers keep: every stored quantity is at least 1. */
  predicate QuantitiesPositive(m: map<string, int>) {
    forall k :: k in m ==> m[k] >= 1
  }

  /** While the invariant holds, the truthiness test is plain membership. */
  lemma SelectedIsPresence(m: map<string, int>, id: string)
    requires QuantitiesPositive(m)
    ensures Selected(m, id) <==> id in m
  {
  }

  /** Two maps agree on every key other than `id`. */
  ghost predicate AgreeExcept(m: map<string, int>, m': map<string, int>, id: string) {
    forall k :: k != id ==> (k in m <==> k in m') && (k in m ==> m[k] == m'[k])
  }

  // ---- catalogue selection ----

  /** `handleProductToggle`: a selected product is deleted from the map, any other id is set to 1. */
  function ToggleProduct(s: InvoiceState, id: string): (r: InvoiceState)
    ensures r.(selectedProducts := s.selectedProducts) == s
    ensures id in r.selectedProducts <==> !Selected(s.selectedProducts, id)
    ensures id in r.selectedProducts ==> r.selectedProducts[id] == 1
    ensures AgreeExcept(s.selectedProducts, r.selectedProducts, id)
  {
    var m := s.selectedProducts;
    var m' := if Selected(m, id) then m - {id} else m[id := 1];
    s.(selectedProducts := m')
  }

  /** `Math.max(1, quantity)`. */
  function ClampQuantity(q: int): (r: int)
    ensures r >= 1 && r >= q
    ensures r == q || r == 1
  {
    if q < 1 then 1 else q
  }

  /** `handleQuantityChange`: stores `max(1, q)` under `id`, inserting the key if it was absent. */
  function ChangeQuantity(s: InvoiceState, id: string, q: int): (r: InvoiceState)
    ensures r.(selectedProducts := s.selectedProducts) == s
    ensures id in r.selectedProducts && r.selectedProducts[id] == ClampQuantity(q)
    ensures AgreeExcept(s.selectedProducts, r.selectedProducts, id)
  {
    s.(selectedProducts := s.selectedProducts[id := ClampQuantity(q)])
  }

  /** The quantity box passes `parseInt(text) || 1`: an unparseable entry or 0 becomes 1. */
  function QuantityInput(parsed: Option<int>): (q: int)
    ensures q != 0
    ensures parsed.Some? && parsed.value != 0 ==> q == parsed.value
    ensures parsed.None? || parsed.value == 0 ==> q == 1
  {
    match parsed
    case Some(v) => if v == 0 then 1 else v
    case None => 1
  }

  /** Toggling an id that is not in the map twice gives back the same state. */
  lemma ToggleTwiceUnselected(s: InvoiceState, id: string)
    requires id !in s.selectedProducts
    ensures ToggleProduct(ToggleProduct(s, id), id) == s
  {
  }

  /** Toggling a selected product off and on again resets its quantity to 1. */
  lemma ToggleTwiceSelected(s: InvoiceState, id: string)
    requires Selected(s.selectedProducts, id)
    ensures ToggleProduct(ToggleProduct(s, id), id) == s.(selectedProducts := s.selectedProducts[id := 1])
  {
  }

  lemma ToggleKeepsPositive(s: InvoiceState, id: string)
    requires QuantitiesPositive(s.selectedProducts)
    ensures QuantitiesPositive(ToggleProduct(s, id).selectedProducts)
  {
  }

  lemma ChangeQuantityKeepsPositive(s: InvoiceState, id: string, q: int)
    requires QuantitiesPositive(s.selectedProducts)
    ensures QuantitiesPositive(ChangeQuantity(s, id, q).selectedProducts)
  {
  }

  // ---- custom line items ----

  /** The id `custom-${Date.now()}` given to a new custom item, for a clock reading `now`. */
  function CustomId(now: nat): (r: string)
    ensures |r| > 7 && r[..7] == "custom-" && r[7..] == Decimal.DecimalString(now)
    ensures Decimal.AllDigits(r[7..])
  {
    "custom-" + Decimal.DecimalString(now)
  }

  /** Two different clock readings never give the same custom id. */
  lemma CustomIdInjective(a: nat, b: nat)
    requires CustomId(a) == CustomId(b)
    ensures a == b
  {
    assert CustomId(a)[7..] == Decimal.DecimalString(a);
    assert CustomId(b)[7..] == Decimal.DecimalString(b);
    Decimal.DecimalStringInjective(a, b);
  }

  /** A blank custom item: empty name, price 0, quantity 1. */
  function NewCustomItem(now: nat): CustomItem {
    CustomItem(CustomId(now), "", 0.0, 1)
  }

  /** `addCustomItem`: appends one blank item after the existing ones. */
  function AddCustomItem(s: InvoiceState, now: nat): (r: InvoiceState)
    ensures r.(customItems := s.customItems) == s
    ensures |r.customItems| == |s.customItems| + 1
    ensures r.customItems[..|s.customItems|] == s.customItems
    ensures var last := r.customItems[|s.customItems|];
            last.id == CustomId(now) && last.name == "" && last.price == 0.0 && last.quantity == 1
  {
    s.(customItems := s.customItems + [NewCustomItem(now)])
  }

  /** The value written by `updateCustomItem(id, field, value)`, one case per field of `CustomItem`. */
  datatype FieldUpdate =
    | SetId(id: string)
    | SetName(name: string)
    | SetPrice(price: real)
    | SetQuantity(quantity: int)

  /** `{ ...item, [field]: value }`: the named field takes the new value, the others keep theirs. */
  function ApplyUpdate(item: CustomItem, u: FieldUpdate): (r: CustomItem)
    ensures r.id == (if u.SetId? then u.id else item.id)
    ensures r.name == (if u.SetName? then u.name else item.name)
    ensures r.price == (if u.SetPrice? then u.price else item.price)
    ensures r.quantity == (if u.SetQuantity? then u.quantity else item.quantity)
  {
    match u
    case SetId(v) => item.(id := v)
    case SetName(v) => item.(name := v)
    case SetPrice(v) => item.(price := v)
    case SetQuantity(v) => item.(quantity := v)
  }

  /** The price, shipping and paid boxes pass `parseFloat(text) || 0`: an unparseable entry
      becomes 0, any number (a negative one too) is kept as typed. */
  function FloatInput(parsed: Option<real>): (p: real)
    ensures parsed.None? ==> p == 0.0
    ensures parsed.Some? ==> p == parsed.value
    ensures p < 0.0 <==> parsed.Some? && parsed.value < 0.0
  {
    match parsed
    case Some(v) => v
    case None => 0.0
  }

  /** `customItems.map(item => item.id === id ? { ...item, [field]: value } : item)`. */
  function UpdateItems(items: seq<CustomItem>, id: string, u: FieldUpdate): (r: seq<CustomItem>)
    ensures |r| == |items|
    ensures forall i :: 0 <= i < |items| && items[i].id != id ==> r[i] == items[i]
    ensures forall i :: 0 <= i < |items| && items[i].id == id ==> r[i] == ApplyUpdate(items[i], u)
  {
    seq(|items|, i requires 0 <= i < |items| =>
      if items[i].id == id then ApplyUpdate(items[i], u) else items[i])
  }

  /** `updateCustomItem`. */
  function UpdateCustomItem(s: InvoiceState, id: string, u: FieldUpdate): (r: InvoiceState)
    ensures r.(customItems := s.customItems) == s
    ensures |r.customItems| == |s.customItems|
    ensures forall i :: 0 <= i < |s.customItems| ==>
              r.customItems[i] == (if s.customItems[i].id == id then ApplyUpdate(s.customItems[i], u)
                                   else s.customItems[i])
  {
    s.(customItems := UpdateItems(s.customItems, id, u))
  }

  /** Updating an id that no item carries changes nothing. */
  lemma UpdateAbsentIsNoOp(s: InvoiceState, id: string, u: FieldUpdate)
    requires forall i :: 0 <= i < |s.customItems| ==> s.customItems[i].id != id
    ensures UpdateCustomItem(s, id, u) == s
  {
  }

  /** The number of items of `items` whose id is `id`. */
  function CountId(items: seq<CustomItem>, id: string): nat {
    if items == [] then 0 else (if items[0].id == id then 1 else 0) + CountId(items[1..], id)
  }

  /** `customItems.filter(item => item.id !== id)`. */
  function Without(items: seq<CustomItem>, id: string): (r: seq<CustomItem>)
    ensures |r| == |items| - CountId(items, id)
    ensures forall x :: x in r <==> x in items && x.id != id
  {
    if items == [] then []
    else
      var rest := Without(items[1..], id);
      assert forall x :: x in items <==> x == items[0] || x in items[1..];
      if items[0].id == id then rest else [items[0]] + rest
  }

  /** Filtering keeps relative order: it distributes over concatenation. */
  lemma {:induction false} WithoutAppend(a: seq<CustomItem>, b: seq<CustomItem>, id: string)
    ensures Without(a + b, id) == Without(a, id) + Without(b, id)
    decreases |a|
  {
    if a == [] {
      assert a + b == b;
    } else {
      assert (a + b)[1..] == a[1..] + b;
      WithoutAppend(a[1..], b, id);
    }
  }

  /** Filtering out an id no item carries gives back the same list. */
  lemma {:induction false} WithoutAbsent(items: seq<CustomItem>, id: string)
    requires CountId(items, id) == 0
    ensures Without(items, id) == items
    decreases |items|
  {
    if items != [] {
      WithoutAbsent(items[1..], id);
    }
  }

  /** `removeCustomItem`. */
  function RemoveCustomItem(s: InvoiceState, id: string): (r: InvoiceState)
    ensures r.(customItems := s.customItems) == s
    ensures |r.customItems| == |s.customItems| - CountId(s.customItems, id)
    ensures forall x :: x in r.customItems <==> x in s.customItems && x.id != id
  {
    s.(customItems := Without(s.customItems, id))
  }

  /** Removing an id that no item carries changes nothing. */
  lemma RemoveAbsentIsNoOp(s: InvoiceState, id: string)
    requires CountId(s.customItems, id) == 0
    ensures RemoveCustomItem(s, id) == s
  {
    WithoutAbsent(s.customItems, id);
  }

  /** Removing the item just added, under an id no other item carries, restores the state. */
  lemma RemoveUndoesAdd(s: InvoiceState, now: nat)
    requires CountId(s.customItems, CustomId(now)) == 0
    ensures RemoveCustomItem(AddCustomItem(s, now), CustomId(now)) == s
  {
    WithoutAppend(s.customItems, [NewCustomItem(now)], CustomId(now));
    WithoutAbsent(s.customItems, CustomId(now));
  }

  /** Two items added at the same clock reading share an id, so one removal deletes both. */
  lemma SameInstantAddsCollide(s: InvoiceState, now: nat)
    ensures var t := AddCustomItem(AddCustomItem(s, now), now);
            RemoveCustomItem(t, CustomId(now)).customItems == Without(s.customItems, CustomId(now))
  {
    var x := NewCustomItem(now);
    WithoutAppend(s.customItems, [x], CustomId(now));
    WithoutAppend(s.customItems + [x], [x], CustomId(now));
  }

  // ---- the plain field setters ----

  /** The three customer fields, each written by its own input. */
  datatype CustomerField = Name | Phone | Address

  /** `setState(prev => ({ ...prev, customer: { ...prev.customer, [field]: value } }))`. */
  function SetCustomerField(s: InvoiceState, f: CustomerField, v: string): (r: InvoiceState)
    ensures r.(customer := s.customer) == s
    ensures r.customer.name == (if f == Name then v else s.customer.name)
    ensures r.customer.phone == (if f == Phone then v else s.customer.phone)
    ensures r.customer.address == (if f == Address then v else s.customer.address)
  {
    match f
    case Name => s.(customer := s.customer.(name := v))
    case Phone => s.(customer := s.customer.(phone := v))
    case Address => s.(customer := s.customer.(address := v))
  }

  function SetShipping(s: InvoiceState, v: real): (r: InvoiceState)
    ensures r.(shippingCharges := s.shippingCharges) == s && r.shippingCharges == v
  {
    s.(shippingCharges := v)
  }

  function SetAmountPaid(s: InvoiceState, v: real): (r: InvoiceState)
    ensures r.(amountPaid := s.amountPaid) == s && r.amountPaid == v
  {
    s.(amountPaid := v)
  }

  /** Storing a loaded data URL (`Some`) or clearing the logo (`None`). */
  function SetLogo(s: InvoiceState, logo: Option<string>): (r: InvoiceState)
    ensures r.(logo := s.logo) == s && r.logo == logo
  {
    s.(logo := logo)
  }
}
