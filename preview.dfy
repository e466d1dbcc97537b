/** The presentation decisions of `InvoicePreview` (App.tsx, lines 303-399), as pure functions
    of the state and its totals. */
module Preview {
  import opened Types
  import opened Catalog
  import Decimal
  import Invoice
  import Pricing

  /** The brand wordmark shown when there is no logo. */
  const Brand: string := "one:64.vault"

  // ---- the combined item list ----

  /** The preview row built for a selected catalogue product. */
  function ProductRow(p: Product, q: int): CustomItem {
    CustomItem(p.id, p.name, p.price, q)
  }

  /** `PRODUCTS.filter(p => selectedProducts[p.id]).map(p => ({ id, name, price, quantity }))`. */
  function StandardItems(ps: seq<Product>, m: map<string, int>): (r: seq<CustomItem>)
    ensures |r| <= |ps|
    ensures forall x :: x in r <==>
              exists i :: 0 <= i < |ps| && Invoice.Selected(m, ps[i].id) && x == ProductRow(ps[i], m[ps[i].id])
  {
    if ps == [] then []
    else
      var rest := StandardItems(ps[1..], m);
      assert forall i :: 0 <= i < |ps| - 1 ==> ps[1..][i] == ps[i + 1];
      if Invoice.Selected(m, ps[0].id) then [ProductRow(ps[0], m[ps[0].id])] + rest else rest
  }

  /** Catalogue order is kept: the selection of a concatenated catalogue is the concatenation. */
  lemma {:induction false} StandardItemsAppend(a: seq<Product>, b: seq<Product>, m: map<string, int>)
    ensures StandardItems(a + b, m) == StandardItems(a, m) + StandardItems(b, m)
    decreases |a|
  {
    if a == [] {
      assert a + b == b;
    } else {
      assert (a + b)[1..] == a[1..] + b;
      StandardItemsAppend(a[1..], b, m);
    }
  }

  /** `[...standardItems, ...state.customItems]`. */
  function AllItems(s: InvoiceState): (r: seq<CustomItem>)
    ensures |s.customItems| <= |r| <= |Products| + |s.customItems|
    ensures r[|r| - |s.customItems|..] == s.customItems
  {
    StandardItems(Products, s.selectedProducts) + s.customItems
  }

  /** The row of product `p` when it tests as selected, nothing otherwise. */
  function RowIfSelected(p: Product, m: map<string, int>): seq<CustomItem> {
    if Invoice.Selected(m, p.id) then [ProductRow(p, m[p.id])] else []
  }

  /** The preview list is the selected catalogue products in catalogue order (mainline, silver,
      premium), each with its stored quantity, followed by the custom items in insertion order. */
  lemma AllItemsInCatalogOrder(s: InvoiceState)
    ensures AllItems(s) == RowIfSelected(Products[0], s.selectedProducts)
                         + RowIfSelected(Products[1], s.selectedProducts)
                         + RowIfSelected(Products[2], s.selectedProducts)
                         + s.customItems
  {
    var m := s.selectedProducts;
    assert Products == [Products[0]] + [Products[1]] + [Products[2]];
    StandardItemsAppend([Products[0]] + [Products[1]], [Products[2]], m);
    StandardItemsAppend([Products[0]], [Products[1]], m);
    assert StandardItems([Products[0]], m) == RowIfSelected(Products[0], m);
    assert StandardItems([Products[1]], m) == RowIfSelected(Products[1], m);
    assert StandardItems([Products[2]], m) == RowIfSelected(Products[2], m);
  }

  /** The list is empty exactly when no catalogue product tests as selected and there are no
      custom items. */
  lemma AllItemsEmpty(s: InvoiceState)
    ensures AllItems(s) == [] <==>
            s.customItems == [] && forall i :: 0 <= i < |Products| ==> !Invoice.Selected(s.selectedProducts, Products[i].id)
  {
    var m := s.selectedProducts;
    var std := StandardItems(Products, m);
    if std != [] {
      assert std[0] in std;
    }
    forall i | 0 <= i < |Products| && Invoice.Selected(m, Products[i].id)
      ensures std != []
    {
      assert ProductRow(Products[i], m[Products[i].id]) in std;
    }
  }

  /** The line totals of the catalogue rows add up to the catalogue sum. */
  lemma {:induction false} StandardItemsTotal(ps: seq<Product>, m: map<string, int>)
    ensures Pricing.CustomSum(StandardItems(ps, m)) == Pricing.CatalogSum(ps, m)
    decreases |ps|
  {
    if ps != [] {
      StandardItemsTotal(ps[1..], m);
      var rest := StandardItems(ps[1..], m);
      if Invoice.Selected(m, ps[0].id) {
        Pricing.CustomSumAppend([ProductRow(ps[0], m[ps[0].id])], rest);
        assert Pricing.CustomSum([ProductRow(ps[0], m[ps[0].id])]) == Pricing.Term(ps[0], m);
      } else {
        assert Pricing.Term(ps[0], m) == 0.0;
      }
    }
  }

  // ---- the table ----

  /** A table row: an item with its description, price, quantity and line total, or the single
      "No Items Selected" row. */
  datatype Row = ItemRow(description: string, price: real, quantity: int, total: real) | NoItemsRow

  /** `item.name || 'Custom Item'`. */
  function Description(item: CustomItem): (d: string)
    ensures d != ""
    ensures item.name != "" ==> d == item.name
  {
    if item.name == "" then "Custom Item" else item.name
  }

  /** One table row per item, in list order. */
  function ItemRows(items: seq<CustomItem>): (r: seq<Row>)
    ensures |r| == |items|
    ensures forall i :: 0 <= i < |items| ==>
              r[i] == ItemRow(Description(items[i]), items[i].price, items[i].quantity, LineTotal(items[i]))
  {
    seq(|items|, i requires 0 <= i < |items| =>
      ItemRow(Description(items[i]), items[i].price, items[i].quantity, LineTotal(items[i])))
  }

  /** The table body: the item rows, or the placeholder row when there are no items. */
  function TableRows(items: seq<CustomItem>): (r: seq<Row>)
    ensures |r| == if items == [] then 1 else |items|
    ensures NoItemsRow in r <==> items == []
    ensures items == [] ==> r == [NoItemsRow]
    ensures items != [] ==> r == ItemRows(items)
  {
    if |items| > 0 then ItemRows(items) else [NoItemsRow]
  }

  function RowTotal(row: Row): real {
    match row
    case ItemRow(_, _, _, t) => t
    case NoItemsRow => 0.0
  }

  /** The line totals shown in the table, added up. */
  function RowsTotal(rows: seq<Row>): real {
    if rows == [] then 0.0 else RowsTotal(rows[..|rows| - 1]) + RowTotal(rows[|rows| - 1])
  }

  lemma {:induction false} ItemRowsTotal(items: seq<CustomItem>)
    ensures RowsTotal(ItemRows(items)) == Pricing.CustomSum(items)
    decreases |items|
  {
    if items != [] {
      var init := items[..|items| - 1];
      assert ItemRows(items)[..|items| - 1] == ItemRows(init);
      ItemRowsTotal(init);
    }
  }

  /** The line totals in the preview table add up to the subtotal, for every state: an id that is
      not in the catalogue is neither shown nor charged. */
  lemma PreviewTotalIsSubtotal(s: InvoiceState)
    ensures RowsTotal(TableRows(AllItems(s))) == Pricing.Subtotal(s)
  {
    var std := StandardItems(Products, s.selectedProducts);
    StandardItemsTotal(Products, s.selectedProducts);
    Pricing.CustomSumAppend(std, s.customItems);
    ItemRowsTotal(AllItems(s));
    if AllItems(s) == [] {
      assert RowsTotal([NoItemsRow]) == RowsTotal([]) + 0.0;
    }
  }

  // ---- the payment banner ----

  datatype Banner = FullPaymentDone | BalanceDue(amount: real)

  /** `balance <= 0 ? 'Full Payment Done' : 'Balance Due: ' + balance`. */
  function PaymentBanner(balance: real): (b: Banner)
    ensures b == FullPaymentDone <==> balance <= 0.0
    ensures b.BalanceDue? ==> b.amount == balance && b.amount > 0.0
  {
    if balance <= 0.0 then FullPaymentDone else BalanceDue(balance)
  }

  /** The invoice shows "Full Payment Done" exactly when the amount paid covers the final total;
      otherwise it shows the shortfall. */
  lemma BannerOfState(s: InvoiceState)
    ensures PaymentBanner(Pricing.Balance(s)) == FullPaymentDone <==> s.amountPaid >= Pricing.FinalTotal(s)
    ensures PaymentBanner(Pricing.Balance(s)).BalanceDue? ==>
              PaymentBanner(Pricing.Balance(s)).amount == Pricing.FinalTotal(s) - s.amountPaid
  {
  }

  // ---- header and bill-to block ----

  /** Either the uploaded logo or the brand wordmark. */
  datatype Masthead = LogoImage(src: string) | Wordmark(text: string)

  /** `state.logo ? <img src={logo}> : wordmark`: an empty data string also falls back. */
  function MastheadOf(logo: Option<string>): (r: Masthead)
    ensures r.LogoImage? <==> logo.Some? && logo.value != ""
    ensures r.LogoImage? ==> r.src == logo.value
    ensures r.Wordmark? ==> r.text == Brand
  {
    if logo.Some? && logo.value != "" then LogoImage(logo.value) else Wordmark(Brand)
  }

  /** `text || '---'`. */
  function OrDash(text: string): (r: string)
    ensures r != ""
    ensures text != "" ==> r == text
    ensures text == "" ==> r == "---"
  {
    if text == "" then "---" else text
  }

  datatype BillTo = BillTo(name: string, phone: string, address: string)

  /** The bill-to block: each customer field, or a dash when it is empty. */
  function BillToOf(c: CustomerDetails): (r: BillTo)
    ensures r.name != "" && r.phone != "" && r.address != ""
    ensures c.name != "" ==> r.name == c.name
    ensures c.phone != "" ==> r.phone == c.phone
    ensures c.address != "" ==> r.address == c.address
  {
    BillTo(OrDash(c.name), OrDash(c.phone), OrDash(c.address))
  }

  // ---- the date ----

  /** `String(n).padStart(2, '0')`. */
  function TwoDigits(n: nat): string {
    Decimal.PadStart(Decimal.DecimalString(n), 2, '0')
  }

  /** A day or month number below 100 is written with exactly two digits, read back unchanged. */
  lemma TwoDigitsRoundTrip(n: nat)
    requires n < 100
    ensures |TwoDigits(n)| == 2 && Decimal.AllDigits(TwoDigits(n))
    ensures Decimal.ParseDecimal(TwoDigits(n)) == n
  {
    var d := Decimal.DecimalString(n);
    Decimal.ParseDecimalString(n);
    if n < 10 {
      assert TwoDigits(n) == "0" + d;
      Decimal.ParseLeadingZero(d);
    } else {
      assert |Decimal.DecimalString(n / 10)| == 1;
    }
  }

  /** The date line DD/MM/YYYY from the day of the month, the 0-based month and the year. */
  function FormatDate(day: nat, month: nat, year: nat): string {
    TwoDigits(day) + "/" + TwoDigits(month + 1) + "/" + Decimal.DecimalString(year)
  }

  /** The date line has slashes at positions 2 and 5 between digit fields that read back as the
      day, the 1-based month and the year; a four-digit year gives ten characters. */
  lemma FormatDateRoundTrip(day: nat, month: nat, year: nat)
    requires 1 <= day <= 31 && month <= 11
    ensures var s := FormatDate(day, month, year);
            && |s| >= 7 && s[2] == '/' && s[5] == '/'
            && Decimal.AllDigits(s[..2]) && Decimal.ParseDecimal(s[..2]) == day
            && Decimal.AllDigits(s[3..5]) && Decimal.ParseDecimal(s[3..5]) == month + 1
            && Decimal.AllDigits(s[6..]) && Decimal.ParseDecimal(s[6..]) == year
            && (1000 <= year <= 9999 ==> |s| == 10)
  {
    var s := FormatDate(day, month, year);
    TwoDigitsRoundTrip(day);
    TwoDigitsRoundTrip(month + 1);
    Decimal.ParseDecimalString(year);
    assert s[..2] == TwoDigits(day);
    assert s[3..5] == TwoDigits(month + 1);
    assert s[6..] == Decimal.DecimalString(year);
    if 1000 <= year <= 9999 {
      assert |Decimal.DecimalString(year / 1000)| == 1;
      assert |Decimal.DecimalString(year / 100)| == 2;
      assert |Decimal.DecimalString(year / 10)| == 3;
    }
  }

  // ---- worked examples ----

  /** mainline x2 and silver x1 cost 179 * 2 + 299 = 657; shipping 50 makes 707; with 700 paid
      the banner reads "Balance Due" for 7. */
  lemma ExampleInvoice()
    ensures var s := InvoiceState(None, CustomerDetails("", "", ""), map["mainline" := 2, "silver" := 1], [], 50.0, 700.0);
            && Pricing.Subtotal(s) == 657.0
            && Pricing.FinalTotal(s) == 707.0
            && Pricing.Balance(s) == 7.0
            && PaymentBanner(Pricing.Balance(s)) == BalanceDue(7.0)
            && |TableRows(AllItems(s))| == 2
  {
  }

  /** A fresh form shows the single placeholder row, a zero subtotal and "Full Payment Done". */
  lemma ExampleEmptyInvoice()
    ensures var s := Invoice.InitialState();
            && TableRows(AllItems(s)) == [NoItemsRow]
            && Pricing.Subtotal(s) == 0.0
            && PaymentBanner(Pricing.Balance(s)) == FullPaymentDone
  {
  }
}
