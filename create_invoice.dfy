/** The invoice creation page (src/pages/CreateInvoice.tsx): its item list,
    VAT rate, client fields and labour cost, the live totals, and the submit
    handler. The call to the invoice API is abstracted to its outcome. */
module CreateInvoice {

  import opened Shared
  import opened InvoiceItems

  const NoOrganizationError: string := "Veuillez sélectionner un établissement"
  const CreateFailedError: string := "Erreur lors de la création de la facture"

  /** The body `handleSubmit` sends: empty client fields are left out, and the
      labour cost is sent only when positive. */
  function CreatePayload(orgId: string, invoiceType: InvoiceType, vatRate: real, items: seq<Item>,
                         clientName: string, clientAddress: string, laborCost: real): (r: InvoicePayload)
    ensures r.organizationId == orgId && r.invoiceType == invoiceType && r.vatRate == vatRate && r.items == items
    ensures r.clientName.None? <==> clientName == ""
    ensures r.clientName.Some? ==> r.clientName.value == clientName
    ensures r.clientAddress.None? <==> clientAddress == ""
    ensures r.clientAddress.Some? ==> r.clientAddress.value == clientAddress
    ensures r.laborCost.Some? <==> laborCost > 0.0
    ensures r.laborCost.Some? ==> r.laborCost.value == laborCost
  {
    InvoicePayload(orgId, invoiceType, vatRate, items,
                   if clientName != "" then Some(clientName) else None,
                   if clientAddress != "" then Some(clientAddress) else None,
                   if laborCost > 0.0 then Some(laborCost) else None)
  }

  class CreateInvoicePage {
    const invoiceType: InvoiceType
    var items: seq<Item>
    var vatRate: real
    var clientName: string
    var clientAddress: string
    var laborCost: real
    var loading: bool
    var error: string

    /** The page never shows an empty item list. */
    ghost predicate Valid()
      reads this
    {
      |items| >= 1
    }

    /** The initial state: one default line, VAT 18 %, no labour cost. */
    constructor (invoiceType: InvoiceType)
      ensures Valid()
      ensures this.invoiceType == invoiceType
      ensures items == [DefaultItem] && vatRate == 18.0 && laborCost == 0.0
      ensures clientName == "" && clientAddress == "" && !loading && error == ""
    {
      this.invoiceType := invoiceType;
      items := [DefaultItem];
      vatRate := 18.0;
      clientName := "";
      clientAddress := "";
      loading := false;
      error := "";
      laborCost := 0.0;
    }

    /** The totals the page displays: labour cost included. */
    function CurrentTotals(): Totals
      reads this
    {
      ComputeTotals(items, laborCost, vatRate)
    }

    method AddItem()
      requires Valid()
      modifies this`items
      ensures Valid()
      ensures items == Appended(old(items))
      ensures CurrentTotals() == old(CurrentTotals())
    {
      items := items + [DefaultItem];
      AppendKeepsTotals(old(items), laborCost, vatRate);
    }

    /** Only reachable through the delete button, which is rendered only while
        the list holds more than one line. */
    method RemoveItem(index: int)
      requires Valid() && |items| > 1
      modifies this`items
      ensures Valid()
      ensures items == Without(old(items), index)
      ensures 0 <= index < |old(items)| ==>
              CurrentTotals().ht == old(CurrentTotals()).ht - LineTotal(old(items)[index])
    {
      if 0 <= index < |items| {
        SumWithout(items, index);
        items := items[..index] + items[index + 1..];
      }
    }

    method UpdateItem(index: nat, edit: ItemEdit)
      requires Valid() && index < |items|
      modifies this`items
      ensures Valid()
      ensures items == Updated(old(items), index, edit)
      ensures CurrentTotals().ht
              == old(CurrentTotals()).ht - LineTotal(old(items)[index]) + LineTotal(items[index])
    {
      SumUpdated(items, index, edit);
      var newItems := items;
      newItems := newItems[index := Apply(newItems[index], edit)];
      items := newItems;
    }

    /** `handleSubmit`: refuse without a selected organization; otherwise
        send the payload and either navigate to the invoice list or show the
        error. Returns the payload sent, if any, and the navigation target. */
    method Submit(currentOrganization: Option<Organization>, response: Status)
      returns (sent: Option<InvoicePayload>, navigateTo: Option<string>)
      modifies this`error, this`loading
      ensures currentOrganization.None? ==>
              sent.None? && navigateTo.None? && error == NoOrganizationError && loading == old(loading)
      ensures currentOrganization.Some? ==>
                && !loading
                && sent == Some(CreatePayload(currentOrganization.value.id, invoiceType, vatRate, items,
                                              clientName, clientAddress, laborCost))
      ensures currentOrganization.Some? && response.Done? ==> navigateTo == Some("/invoices") && error == ""
      ensures currentOrganization.Some? && response.Failed? ==>
              navigateTo.None? && error == MessageOr(response.message, CreateFailedError)
    {
      error := "";
      sent, navigateTo := None, None;
      if currentOrganization.None? {
        error := NoOrganizationError;
        return;
      }
      loading := true;
      sent := Some(CreatePayload(currentOrganization.value.id, invoiceType, vatRate, items,
                                 clientName, clientAddress, laborCost));
      match response {
        case Done =>
          navigateTo := Some("/invoices");
        case Failed(message) =>
          error := MessageOr(message, CreateFailedError);
      }
      loading := false;
    }
  }

  /** The worked figures: 2 x 5000 at 19.25 % gives 10000 / 1925 / 11925, and
      3 x 1000 at 18 % gives 3000 / 540 / 3540, or 3500 / 630 / 4130 with a
      labour cost of 500. */
  lemma WorkedExamples()
    ensures ComputeTotals([Item("", 2.0, 5000.0)], 0.0, 19.25) == Totals(10000.0, 1925.0, 11925.0)
    ensures ComputeTotals([Item("Widget", 3.0, 1000.0)], 0.0, 18.0) == Totals(3000.0, 540.0, 3540.0)
    ensures ComputeTotals([Item("Widget", 3.0, 1000.0)], 500.0, 18.0) == Totals(3500.0, 630.0, 4130.0)
  {
    var one := [Item("", 2.0, 5000.0)];
    assert one[..0] == [];
    var widget := [Item("Widget", 3.0, 1000.0)];
    assert widget[..0] == [];
  }
}
