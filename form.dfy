/** The `App` component (App.tsx, lines 9-90): it owns the current `InvoiceState`, which every
    handler replaces wholesale with the next snapshot through `setState`. */
module Form {
  import opened Types
  import Catalog
  import Invoice
  import Pricing
  import Preview

  class InvoiceForm {
    /** The snapshot held by `useState<InvoiceState>`. */
    var state: InvoiceState

    /** The invariant every handler keeps: each stored catalogue quantity is at least 1. */
    ghost predicate Valid()
      reads this
    {
      Invoice.QuantitiesPositive(state.selectedProducts)
    }

    /** The form as first rendered: no logo, empty customer, nothing selected or added,
        no shipping and nothing paid. */
    constructor ()
      ensures Valid()
      ensures state == Invoice.InitialState()
      ensures Pricing.Subtotal(state) == 0.0 && Pricing.Balance(state) == 0.0
    {
      state := Invoice.InitialState();
      Pricing.CatalogSumEmpty(Catalog.Products);
    }

    /** `handleProductToggle`: copies the selection, deletes a selected id or sets it to 1,
        and stores the copy. */
    method HandleProductToggle(id: string)
      requires Valid()
      modifies this
      ensures Valid()
      ensures state == Invoice.ToggleProduct(old(state), id)
      ensures id in state.selectedProducts <==> id !in old(state).selectedProducts
    {
      Invoice.SelectedIsPresence(state.selectedProducts, id);
      var newSelected := state.selectedProducts;
      if Invoice.Selected(newSelected, id) {
        newSelected := newSelected - {id};
      } else {
        newSelected := newSelected[id := 1];
      }
      state := state.(selectedProducts := newSelected);
    }

    /** `handleQuantityChange`, fed by the quantity box's `parseInt(text) || 1`. */
    method HandleQuantityChange(id: string, parsed: Option<int>)
      requires Valid()
      modifies this
      ensures Valid()
      ensures state == Invoice.ChangeQuantity(old(state), id, Invoice.QuantityInput(parsed))
      ensures state.selectedProducts[id] >= 1
    {
      state := Invoice.ChangeQuantity(state, id, Invoice.QuantityInput(parsed));
    }

    /** `addCustomItem`, with the clock reading `now` standing for `Date.now()`. */
    method AddCustomItem(now: nat)
      requires Valid()
      modifies this
      ensures Valid()
      ensures state == Invoice.AddCustomItem(old(state), now)
      ensures Pricing.Subtotal(state) == Pricing.Subtotal(old(state))
    {
      Pricing.AddCustomItemKeepsTotals(state, now);
      state := Invoice.AddCustomItem(state, now);
    }

    /** `updateCustomItem(id, field, value)`. */
    method UpdateCustomItem(id: string, u: Invoice.FieldUpdate)
      requires Valid()
      modifies this
      ensures Valid()
      ensures state == Invoice.UpdateCustomItem(old(state), id, u)
    {
      state := Invoice.UpdateCustomItem(state, id, u);
    }

    /** The item's name box: `updateCustomItem(item.id, 'name', text)`. */
    method EditCustomItemName(id: string, text: string)
      requires Valid()
      modifies this
      ensures Valid()
      ensures state == Invoice.UpdateCustomItem(old(state), id, Invoice.SetName(text))
    {
      UpdateCustomItem(id, Invoice.SetName(text));
    }

    /** The item's price box: `updateCustomItem(item.id, 'price', parseFloat(text) || 0)`. */
    method EditCustomItemPrice(id: string, parsed: Option<real>)
      requires Valid()
      modifies this
      ensures Valid()
      ensures state == Invoice.UpdateCustomItem(old(state), id, Invoice.SetPrice(Invoice.FloatInput(parsed)))
    {
      UpdateCustomItem(id, Invoice.SetPrice(Invoice.FloatInput(parsed)));
    }

    /** The item's quantity box: `updateCustomItem(item.id, 'quantity', parseInt(text) || 1)`;
        the stored quantity is never 0, but a negative entry is kept. */
    method EditCustomItemQuantity(id: string, parsed: Option<int>)
      requires Valid()
      modifies this
      ensures Valid()
      ensures state == Invoice.UpdateCustomItem(old(state), id, Invoice.SetQuantity(Invoice.QuantityInput(parsed)))
      ensures forall i :: 0 <= i < |state.customItems| && state.customItems[i].id == id ==>
                state.customItems[i].quantity != 0
    {
      UpdateCustomItem(id, Invoice.SetQuantity(Invoice.QuantityInput(parsed)));
    }

    /** `removeCustomItem(id)`. */
    method RemoveCustomItem(id: string)
      requires Valid()
      modifies this
      ensures Valid()
      ensures state == Invoice.RemoveCustomItem(old(state), id)
      ensures Pricing.Subtotal(state) == Pricing.Subtotal(old(state)) - Pricing.IdTotal(old(state).customItems, id)
    {
      Pricing.RemoveCustomItemSubtotal(state, id);
      state := Invoice.RemoveCustomItem(state, id);
    }

    /** The customer name, phone and address inputs. */
    method SetCustomerField(f: Invoice.CustomerField, v: string)
      requires Valid()
      modifies this
      ensures Valid()
      ensures state == Invoice.SetCustomerField(old(state), f, v)
    {
      state := Invoice.SetCustomerField(state, f, v);
    }

    /** The shipping input, fed by `parseFloat(text) || 0`. */
    method SetShipping(parsed: Option<real>)
      requires Valid()
      modifies this
      ensures Valid()
      ensures state == Invoice.SetShipping(old(state), Invoice.FloatInput(parsed))
    {
      state := Invoice.SetShipping(state, Invoice.FloatInput(parsed));
    }

    /** The paid input, fed by `parseFloat(text) || 0`. */
    method SetAmountPaid(parsed: Option<real>)
      requires Valid()
      modifies this
      ensures Valid()
      ensures state == Invoice.SetAmountPaid(old(state), Invoice.FloatInput(parsed))
    {
      state := Invoice.SetAmountPaid(state, Invoice.FloatInput(parsed));
    }

    /** A loaded logo (`Some`) or the clear button (`None`). */
    method SetLogo(logo: Option<string>)
      requires Valid()
      modifies this
      ensures Valid()
      ensures state == Invoice.SetLogo(old(state), logo)
    {
      state := Invoice.SetLogo(state, logo);
    }

    /** The render-time totals: the `useMemo` fold over the selection, listed in the order
        `entries` (the order `Object.entries` happens to give), then `finalTotal` and `balance`.
        Whatever the order, they are the state's subtotal, final total and balance. */
    method Totals(entries: seq<(string, int)>) returns (subtotal: real, finalTotal: real, balance: real)
      requires Pricing.IsEntriesOf(entries, state.selectedProducts)
      ensures subtotal == Pricing.Subtotal(state)
      ensures finalTotal == subtotal + state.shippingCharges
      ensures balance == finalTotal - state.amountPaid
    {
      subtotal := Pricing.ComputedSubtotal(state, entries);
      finalTotal := subtotal + state.shippingCharges;
      balance := finalTotal - state.amountPaid;
      Pricing.ComputedSubtotalIsSubtotal(state, entries);
    }

    /** The payment banner the preview shows for the current state. */
    method Banner() returns (b: Preview.Banner)
      ensures b == Preview.FullPaymentDone <==> state.amountPaid >= Pricing.FinalTotal(state)
      ensures b.BalanceDue? ==> b.amount == Pricing.FinalTotal(state) - state.amountPaid
    {
      b := Preview.PaymentBanner(Pricing.Balance(state));
      Preview.BannerOfState(state);
    }
  }
}
