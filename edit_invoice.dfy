/** The invoice edit page (src/pages/EditInvoice.tsx): loading a stored
    invoice into the form, the same three item edits as the creation page, the
    live totals (which, unlike the creation page, carry no labour cost) and the
    submit handler. The API calls are abstracted to their outcomes. */
module EditInvoice {

  import opened Shared
  import opened InvoiceItems

  const MissingIdError: string := "ID de facture manquant"
  const NoOrganizationError: string := "Aucun établissement sélectionné"
  const LoadFailedError: string := "Erreur lors du chargement"
  const UpdateFailedError: string := "Erreur lors de la modification"

  /** An item as the invoice API returns it. */
  datatype StoredItem = StoredItem(designation: string, quantity: real, unitPrice: real)

  /** An invoice as the invoice API returns it. */
  datatype StoredInvoice = StoredInvoice(
    invoiceType: InvoiceType,
    vatRate: real,
    clientName: Option<string>,
    clientAddress: Option<string>,
    items: seq<StoredItem>)

  /** The projection `loadInvoice` applies: designation, quantity and price of
      each stored item, same count, same order. */
  function Project(stored: seq<StoredItem>): (r: seq<Item>)
    ensures |r| == |stored|
    ensures forall k :: 0 <= k < |stored| ==>
              r[k].designation == stored[k].designation
              && r[k].quantity == stored[k].quantity
              && r[k].unitPrice == stored[k].unitPrice
  {
    seq(|stored|, k requires 0 <= k < |stored| => Item(stored[k].designation, stored[k].quantity, stored[k].unitPrice))
  }

  /** The edit page's totals are the creation page's totals with no labour. */
  function EditTotals(items: seq<Item>, vatRate: real): (r: Totals)
    ensures r.ht == Sum(items)
    ensures r == ComputeTotals(items, 0.0, vatRate)
  {
    var ht := Sum(items);
    var vat := ht * (vatRate / 100.0);
    Totals(ht, vat, ht + vat)
  }

  /** The body `handleSubmit` sends: client fields as they are, no labour cost. */
  function UpdatePayload(orgId: string, invoiceType: InvoiceType, vatRate: real, items: seq<Item>,
                         clientName: string, clientAddress: string): (r: InvoicePayload)
    ensures r.laborCost.None?
    ensures r.clientName == Some(clientName) && r.clientAddress == Some(clientAddress)
    ensures r.organizationId == orgId && r.invoiceType == invoiceType && r.vatRate == vatRate && r.items == items
  {
    InvoicePayload(orgId, invoiceType, vatRate, items, Some(clientName), Some(clientAddress), None)
  }

  class EditInvoicePage {
    const id: Option<string>
    var loading: bool
    var submitting: bool
    var error: string
    var invoiceType: InvoiceType
    var vatRate: real
    var clientName: string
    var clientAddress: string
    var items: seq<Item>

    constructor (id: Option<string>)
      ensures this.id == id && loading && !submitting && error == ""
      ensures invoiceType == Definitive && vatRate == 18.0 && clientName == "" && clientAddress == ""
      ensures items == [DefaultItem]
    {
      this.id := id;
      loading := true;
      submitting := false;
      error := "";
      invoiceType := Definitive;
      vatRate := 18.0;
      clientName := "";
      clientAddress := "";
      items := [DefaultItem];
    }

    function CurrentTotals(): Totals
      reads this
    {
      EditTotals(items, vatRate)
    }

    /** `loadInvoice`: nothing happens without an id (the page keeps its
        spinner); otherwise the fetched invoice fills the form, or the error is
        shown, and loading ends. */
    method LoadInvoice(fetched: Result<StoredInvoice>)
      modifies this
      ensures id.None? ==> unchanged(this)
      ensures id.Some? && fetched.Ok? ==>
                && invoiceType == fetched.value.invoiceType
                && vatRate == fetched.value.vatRate
                && clientName == OrDefault(fetched.value.clientName, "")
                && clientAddress == OrDefault(fetched.value.clientAddress, "")
                && items == Project(fetched.value.items)
                && error == old(error)
      ensures id.Some? && fetched.Err? ==>
                && error == MessageOr(fetched.message, LoadFailedError)
                && items == old(items) && vatRate == old(vatRate) && invoiceType == old(invoiceType)
                && clientName == old(clientName) && clientAddress == old(clientAddress)
      ensures id.Some? ==> !loading && submitting == old(submitting)
    {
      if id.None? {
        return;
      }
      match fetched {
        case Ok(invoice) =>
          invoiceType := invoice.invoiceType;
          vatRate := invoice.vatRate;
          clientName := OrDefault(invoice.clientName, "");
          clientAddress := OrDefault(invoice.clientAddress, "");
          items := Project(invoice.items);
        case Err(message) =>
          error := MessageOr(message, LoadFailedError);
      }
      loading := false;
    }

    method AddItem()
      modifies this`items
      ensures items == Appended(old(items))
      ensures CurrentTotals() == old(CurrentTotals())
    {
      items := items + [DefaultItem];
      AppendKeepsTotals(old(items), 0.0, vatRate);
    }

    /** Only reachable through the delete button, rendered while the list holds
        more than one line. */
    method RemoveItem(index: int)
      requires |items| > 1
      modifies this`items
      ensures |items| >= 1
      ensures items == Without(old(items), index)
      ensures 0 <= index < |old(items)| ==>
              CurrentTotals().ht == old(CurrentTotals()).ht - LineTotal(old(items)[index])
    {
      if 0 <= index < |items| {
        SumWithout(items, index);
        items := items[..index] + items[index + 1..];
      }
    }

    method UpdateItem(index: nat, edit: ItemEdit)
      requires index < |items|
      modifies this`items
      ensures items == Updated(old(items), index, edit)
      ensures CurrentTotals().ht
              == old(CurrentTotals()).ht - LineTotal(old(items)[index]) + LineTotal(items[index])
    {
      SumUpdated(items, index, edit);
      var newItems := items;
      newItems := newItems[index := Apply(newItems[index], edit)];
      items := newItems;
    }

    /** `handleSubmit`: an error without an id or without a selected
        organization, checked in that order and without calling the API;
        otherwise the payload is sent and the page navigates to the invoice or
        shows the error. */
    method Submit(currentOrganization: Option<Organization>, response: Status)
      returns (sent: Option<InvoicePayload>, navigateTo: Option<string>)
      modifies this`error, this`submitting
      ensures !submitting
      ensures id.None? ==> sent.None? && navigateTo.None? && error == MissingIdError
      ensures id.Some? && currentOrganization.None? ==>
              sent.None? && navigateTo.None? && error == NoOrganizationError
      ensures id.Some? && currentOrganization.Some? ==>
              sent == Some(UpdatePayload(currentOrganization.value.id, invoiceType, vatRate, items,
                                         clientName, clientAddress))
      ensures id.Some? && currentOrganization.Some? && response.Done? ==>
              navigateTo == Some("/invoices/" + id.value) && error == ""
      ensures id.Some? && currentOrganization.Some? && response.Failed? ==>
              navigateTo.None? && error == MessageOr(response.message, UpdateFailedError)
    {
      submitting := true;
      error := "";
      sent, navigateTo := None, None;
      if id.None? {
        error := MissingIdError;
      } else if currentOrganization.None? {
        error := NoOrganizationError;
      } else {
        sent := Some(UpdatePayload(currentOrganization.value.id, invoiceType, vatRate, items,
                                   clientName, clientAddress));
        match response {
          case Done =>
            navigateTo := Some("/invoices/" + id.value);
          case Failed(message) =>
            error := MessageOr(message, UpdateFailedError);
        }
      }
      submitting := false;
    }
  }

  /** Loading preserves the stored lines' count, order and amounts, so the
      page's pre-tax total is the sum of the stored quantity x price products. */
  lemma {:induction false} LoadedSum(stored: seq<StoredItem>)
    ensures Sum(Project(stored)) == StoredSum(stored)
    decreases |stored|
  {
    if stored != [] {
      var init := stored[..|stored| - 1];
      LoadedSum(init);
      assert Project(stored)[..|stored| - 1] == Project(init);
    }
  }

  /** Sum of quantity x unit price over the stored lines. */
  function StoredSum(stored: seq<StoredItem>): real {
    if stored == [] then 0.0
    else StoredSum(stored[..|stored| - 1]) + stored[|stored| - 1].quantity * stored[|stored| - 1].unitPrice
  }

  /** The edit page ignores a labour cost the creation page had added: its
      pre-tax total falls short by exactly that cost. */
  lemma EditDropsLabour(items: seq<Item>, laborCost: real, vatRate: real)
    ensures EditTotals(items, vatRate).ht == ComputeTotals(items, laborCost, vatRate).ht - laborCost
  {
  }
}
