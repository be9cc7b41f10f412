/** Line items and totals shared by the invoice creation and edit pages
    (src/pages/CreateInvoice.tsx, src/pages/EditInvoice.tsx): the totals the
    pages display, and the three edits both pages apply to their item list.
    Amounts are exact reals. */
module InvoiceItems {

  import opened Shared

  /** The two invoice kinds. */
  datatype InvoiceType = Definitive | Proforma

  /** One invoice line as the pages hold it. */
  datatype Item = Item(designation: string, quantity: real, unitPrice: real)

  /** The line appended by "add item": empty designation, quantity 1, price 0. */
  const DefaultItem: Item := Item("", 1.0, 0.0)

  /** Quantity times unit price. */
  function LineTotal(item: Item): real {
    item.quantity * item.unitPrice
  }

  /** The line totals added up from the left, starting at 0. */
  function Sum(items: seq<Item>): real {
    if items == [] then 0.0 else Sum(items[..|items| - 1]) + LineTotal(items[|items| - 1])
  }

  /** The three amounts the pages display. */
  datatype Totals = Totals(ht: real, vat: real, ttc: real)

  /** Totals of a list of items with a flat labour cost added to the pre-tax
      sum (0 on the edit page) and a VAT percentage. */
  function ComputeTotals(items: seq<Item>, laborCost: real, vatRate: real): (r: Totals)
    ensures r.ht - laborCost == Sum(items)
    ensures r.vat * 100.0 == r.ht * vatRate
    ensures r.ttc - r.vat == r.ht
  {
    var ht := Sum(items) + laborCost;
    var vat := ht * (vatRate / 100.0);
    Totals(ht, vat, ht + vat)
  }

  /** TTC is HT scaled by (1 + rate/100); with a zero rate TTC equals HT. */
  lemma TotalsScale(items: seq<Item>, laborCost: real, vatRate: real)
    ensures ComputeTotals(items, laborCost, vatRate).ttc
            == ComputeTotals(items, laborCost, vatRate).ht * (1.0 + vatRate / 100.0)
    ensures vatRate == 0.0 ==> ComputeTotals(items, laborCost, vatRate).ttc
                               == ComputeTotals(items, laborCost, vatRate).ht
  {
  }

  /** The sum distributes over concatenation. */
  lemma {:induction false} SumConcat(a: seq<Item>, b: seq<Item>)
    ensures Sum(a + b) == Sum(a) + Sum(b)
    decreases |b|
  {
    if b == [] {
      assert a + b == a;
    } else {
      var init := b[..|b| - 1];
      assert (a + b)[..|a + b| - 1] == a + init;
      assert (a + b)[|a + b| - 1] == b[|b| - 1];
      SumConcat(a, init);
    }
  }

  /** With non-negative quantities and prices the sum is non-negative. */
  lemma {:induction false} SumNonNegative(items: seq<Item>)
    requires forall k :: 0 <= k < |items| ==> items[k].quantity >= 0.0 && items[k].unitPrice >= 0.0
    ensures Sum(items) >= 0.0
    decreases |items|
  {
    if items != [] {
      SumNonNegative(items[..|items| - 1]);
      var last := items[|items| - 1];
      assert last.quantity * last.unitPrice >= 0.0;
    }
  }

  /** With non-negative lines, labour and rate: 0 <= HT <= TTC. */
  lemma TotalsOrdered(items: seq<Item>, laborCost: real, vatRate: real)
    requires forall k :: 0 <= k < |items| ==> items[k].quantity >= 0.0 && items[k].unitPrice >= 0.0
    requires laborCost >= 0.0 && vatRate >= 0.0
    ensures 0.0 <= ComputeTotals(items, laborCost, vatRate).ht <= ComputeTotals(items, laborCost, vatRate).ttc
  {
    SumNonNegative(items);
    var ht := Sum(items) + laborCost;
    assert ht * (vatRate / 100.0) >= 0.0;
  }

  /** The body the pages send to the invoice API. */
  datatype InvoicePayload = InvoicePayload(
    organizationId: string,
    invoiceType: InvoiceType,
    vatRate: real,
    items: seq<Item>,
    clientName: Option<string>,
    clientAddress: Option<string>,
    laborCost: Option<real>)

  // ---- The list edits, as functions of the old list ----

  /** The list with the default line appended. */
  function Appended(items: seq<Item>): (r: seq<Item>)
    ensures |r| == |items| + 1 && r[..|items|] == items && r[|items|] == DefaultItem
  {
    items + [DefaultItem]
  }

  /** The list without position `index`, the others kept in order; an index
      outside the list removes nothing. */
  function Without(items: seq<Item>, index: int): (r: seq<Item>)
    ensures 0 <= index < |items| ==> |r| == |items| - 1
    ensures 0 <= index < |items| ==> forall j :: 0 <= j < index ==> r[j] == items[j]
    ensures 0 <= index < |items| ==> forall j :: index <= j < |r| ==> r[j] == items[j + 1]
    ensures !(0 <= index < |items|) ==> r == items
  {
    if 0 <= index < |items| then items[..index] + items[index + 1..] else items
  }

  /** The field `updateItem` writes, with the value written. */
  datatype ItemEdit = SetDesignation(d: string) | SetQuantity(q: real) | SetUnitPrice(p: real)

  /** The named field replaced, the others kept. */
  function Apply(item: Item, edit: ItemEdit): (r: Item)
    ensures r.designation == (if edit.SetDesignation? then edit.d else item.designation)
    ensures r.quantity == (if edit.SetQuantity? then edit.q else item.quantity)
    ensures r.unitPrice == (if edit.SetUnitPrice? then edit.p else item.unitPrice)
  {
    match edit
    case SetDesignation(d) => item.(designation := d)
    case SetQuantity(q) => item.(quantity := q)
    case SetUnitPrice(p) => item.(unitPrice := p)
  }

  /** A copy of the list with `newItems[index]` replaced. */
  function Updated(items: seq<Item>, index: nat, edit: ItemEdit): (r: seq<Item>)
    requires index < |items|
    ensures |r| == |items| && r[index] == Apply(items[index], edit)
    ensures forall j :: 0 <= j < |items| && j != index ==> r[j] == items[j]
  {
    items[index := Apply(items[index], edit)]
  }

  /** Appending the default line leaves every total unchanged. */
  lemma AppendKeepsTotals(items: seq<Item>, laborCost: real, vatRate: real)
    ensures ComputeTotals(Appended(items), laborCost, vatRate) == ComputeTotals(items, laborCost, vatRate)
  {
    assert Appended(items)[..|items|] == items;
  }

  /** Removing a line takes exactly its line total out of the sum. */
  lemma SumWithout(items: seq<Item>, index: nat)
    requires index < |items|
    ensures Sum(Without(items, index)) == Sum(items) - LineTotal(items[index])
  {
    var left, right, x := items[..index], items[index + 1..], items[index];
    WithoutSplit(items, index);
    SumConcat(left + [x], right);
    SumConcat(left, right);
    SumSnoc(left, x);
  }

  lemma WithoutSplit(items: seq<Item>, index: nat)
    requires index < |items|
    ensures Without(items, index) == items[..index] + items[index + 1..]
    ensures items == (items[..index] + [items[index]]) + items[index + 1..]
  {
  }

  lemma SumSnoc(left: seq<Item>, x: Item)
    ensures Sum(left + [x]) == Sum(left) + LineTotal(x)
  {
    assert (left + [x])[..|left|] == left;
  }

  /** Editing one line changes the sum by that line's change only. */
  lemma SumUpdated(items: seq<Item>, index: nat, edit: ItemEdit)
    requires index < |items|
    ensures Sum(Updated(items, index, edit))
            == Sum(items) - LineTotal(items[index]) + LineTotal(Apply(items[index], edit))
  {
    var r := Updated(items, index, edit);
    SumWithout(items, index);
    SumWithout(r, index);
    assert Without(r, index) == Without(items, index);
  }

  /** Renaming a line never changes the totals. */
  lemma DesignationEditKeepsTotals(items: seq<Item>, index: nat, d: string, laborCost: real, vatRate: real)
    requires index < |items|
    ensures ComputeTotals(Updated(items, index, SetDesignation(d)), laborCost, vatRate)
            == ComputeTotals(items, laborCost, vatRate)
  {
    SumUpdated(items, index, SetDesignation(d));
  }

  /** The remove control is offered only while more than one line exists, so
      a removal through it never empties the list. */
  lemma OfferedRemoveKeepsALine(items: seq<Item>, index: nat)
    requires |items| > 1 && index < |items|
    ensures |Without(items, index)| >= 1
  {
  }
}
