/** The records of the invoice form (types.ts). Money is exact `real`, quantities are `int`. */
module Types {

  /** A value that may be absent: `string | null`, or the outcome of parsing a text field. */
  datatype Option<T> = None | Some(value: T)

  /** A catalogue product: id, display name and unit price. */
  datatype Product = Product(id: string, name: string, price: real)

  /** The bill-to contact fields; each defaults to the empty string. */
  datatype CustomerDetails = CustomerDetails(name: string, phone: string, address: string)

  /** A free-form line item. The preview also builds its catalogue rows in this shape. */
  datatype CustomItem = CustomItem(id: string, name: string, price: real, quantity: int)

  /** The whole form: `selectedProducts` maps a product id to its quantity (present = selected),
      `customItems` is kept in insertion order. */
  datatype InvoiceState = InvoiceState(
    logo: Option<string>,
    customer: CustomerDetails,
    selectedProducts: map<string, int>,
    customItems: seq<CustomItem>,
    shippingCharges: real,
    amountPaid: real)

  /** The line total `price * quantity` of one row. */
  function LineTotal(item: CustomItem): real {
    item.price * (item.quantity as real)
  }
}
