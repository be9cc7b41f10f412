/** The organizations admin page (src/pages/AdminOrganizations.tsx): the
    case-insensitive search over the listed organizations, and the form that
    `handleEdit` fills from an organization and `resetForm` clears. */
module AdminOrganizations {

  import opened Shared
  import opened Text
  import AdminApi

  const DefaultCountry: string := "Cameroun"

  /** The page's form; every field is a plain string. */
  datatype OrganizationForm = OrganizationForm(
    name: string,
    email: string,
    phone: string,
    address: string,
    city: string,
    postalCode: string,
    country: string,
    taxNumber: string)

  /** The form `resetForm` restores: all blank, country "Cameroun". */
  const BlankForm: OrganizationForm := OrganizationForm("", "", "", "", "", "", DefaultCountry, "")

  /** A field matches when its lower-cased text contains the search; an unset
      field never matches. */
  predicate FieldMatches(field: Option<string>, search: string) {
    field.Some? && Includes(Lower(field.value), search)
  }

  /** The page's search test: an empty term keeps everything; otherwise the
      lower-cased term must occur in the lower-cased name, city, email or
      country. */
  predicate Matches(org: Organization, term: string) {
    term == "" ||
    var search := Lower(term);
    Includes(Lower(org.name), search) || FieldMatches(org.city, search)
    || FieldMatches(org.email, search) || FieldMatches(org.country, search)
  }

  /** `filteredOrganizations`. */
  function FilterOrganizations(orgs: seq<Organization>, term: string): (r: seq<Organization>)
    ensures |r| <= |orgs|
    ensures forall k :: 0 <= k < |r| ==> Matches(r[k], term) && r[k] in orgs
  {
    Filter(orgs, org => Matches(org, term))
  }

  /** The form `handleEdit` fills in: missing optional fields become empty,
      a missing country becomes "Cameroun". */
  function FormOf(org: Organization): (f: OrganizationForm)
    ensures f.name == org.name
    ensures f.country == (if Truthy(org.country) then org.country.value else DefaultCountry)
    ensures Truthy(org.email) ==> f.email == org.email.value
    ensures !Truthy(org.email) ==> f.email == ""
    ensures f.phone == OrDefault(org.phone, "")
    ensures f.address == OrDefault(org.address, "")
    ensures f.city == OrDefault(org.city, "")
    ensures f.postalCode == OrDefault(org.postalCode, "")
    ensures f.taxNumber == OrDefault(org.taxNumber, "")
  {
    OrganizationForm(org.name, OrDefault(org.email, ""), OrDefault(org.phone, ""), OrDefault(org.address, ""),
                     OrDefault(org.city, ""), OrDefault(org.postalCode, ""),
                     OrDefault(org.country, DefaultCountry), OrDefault(org.taxNumber, ""))
  }

  /** The form as the admin REST client receives it: every field present. */
  function FormData(f: OrganizationForm): AdminApi.OrganizationData {
    AdminApi.OrganizationData(Some(f.name), Some(f.email), Some(f.phone), Some(f.address), Some(f.city),
                              Some(f.postalCode), Some(f.country), Some(f.taxNumber))
  }

  /** An organization record as data for the admin REST client. */
  function RecordData(org: Organization): AdminApi.OrganizationData {
    AdminApi.OrganizationData(Some(org.name), org.email, org.phone, org.address, org.city,
                              org.postalCode, org.country, org.taxNumber)
  }

  class AdminOrganizationsPage {
    var organizations: seq<Organization>
    var showForm: bool
    var editingOrg: Option<Organization>
    var formData: OrganizationForm
    var searchTerm: string

    constructor ()
      ensures organizations == [] && !showForm && editingOrg.None? && formData == BlankForm && searchTerm == ""
    {
      organizations := [];
      showForm := false;
      editingOrg := None;
      formData := BlankForm;
      searchTerm := "";
    }

    /** The organizations listed under the current search term. */
    function Shown(): seq<Organization>
      reads this
    {
      FilterOrganizations(organizations, searchTerm)
    }

    /** `handleEdit`: remember the organization, copy it into the form and
        open the form. */
    method HandleEdit(org: Organization)
      modifies this`editingOrg, this`formData, this`showForm
      ensures editingOrg == Some(org) && showForm
      ensures formData == FormOf(org)
    {
      editingOrg := Some(org);
      formData := OrganizationForm(
        org.name,
        if Truthy(org.email) then org.email.value else "",
        if Truthy(org.phone) then org.phone.value else "",
        if Truthy(org.address) then org.address.value else "",
        if Truthy(org.city) then org.city.value else "",
        if Truthy(org.postalCode) then org.postalCode.value else "",
        if Truthy(org.country) then org.country.value else DefaultCountry,
        if Truthy(org.taxNumber) then org.taxNumber.value else "");
      showForm := true;
    }

    /** `resetForm`. */
    method ResetForm()
      modifies this`formData
      ensures formData == BlankForm
    {
      formData := OrganizationForm("", "", "", "", "", "", DefaultCountry, "");
    }
  }

  /** The shown list is the full list with some organizations left out, the
      rest in order, so the shown count never exceeds the total; an
      organization is shown exactly when it matches. */
  lemma FilterShape(orgs: seq<Organization>, term: string)
    ensures IsSubsequence(FilterOrganizations(orgs, term), orgs)
    ensures |FilterOrganizations(orgs, term)| <= |orgs|
    ensures forall o :: o in FilterOrganizations(orgs, term) <==> o in orgs && Matches(o, term)
  {
    FilterIsSubsequence(orgs, org => Matches(org, term));
  }

  /** An empty term shows every organization. */
  lemma EmptyTermShowsAll(orgs: seq<Organization>)
    ensures FilterOrganizations(orgs, "") == orgs
  {
    FilterAll(orgs, org => Matches(org, ""));
  }

  /** The search ignores the case of the term's ASCII letters. */
  lemma SearchIgnoresCase(org: Organization, term: string)
    ensures Matches(org, Lower(term)) == Matches(org, term)
  {
    LowerIdempotent(term);
  }

  /** Every organization's name contains itself, so a search by its exact
      name (in any case) finds it. */
  lemma {:induction false} FoundByName(org: Organization)
    ensures Matches(org, org.name)
  {
    IncludesIff(Lower(org.name), Lower(org.name));
    assert OccursAt(Lower(org.name), Lower(org.name), 0);
  }

  /** Apart from the country, a form field is kept exactly when the record's
      field is, with the same text. */
  lemma FormFieldLikeRecord(org: Organization, k: AdminApi.Key)
    requires k != AdminApi.Country
    ensures AdminApi.Kept(AdminApi.Field(FormData(FormOf(org)), k)) == AdminApi.Kept(AdminApi.Field(RecordData(org), k))
    ensures AdminApi.Kept(AdminApi.Field(RecordData(org), k)) ==>
              AdminApi.Field(FormData(FormOf(org)), k) == AdminApi.Field(RecordData(org), k)
  {
    match k
    case Name =>
    case Email =>
    case Phone =>
    case Address =>
    case City =>
    case PostalCode =>
    case TaxNumber =>
  }

  /** Opening an organization in the form and saving it unchanged sends the
      same cleaned update body as the record itself, except for the country,
      which gains the default when unset. */
  lemma EditedFormCleansLikeRecord(org: Organization)
    ensures AdminApi.CleanFields(FormData(FormOf(org)), AdminApi.AllKeys - {AdminApi.Country})
            == AdminApi.CleanFields(RecordData(org), AdminApi.AllKeys - {AdminApi.Country})
    ensures !Truthy(org.country) ==>
              AdminApi.Country in AdminApi.CleanFields(FormData(FormOf(org)), AdminApi.AllKeys)
  {
    var keys := AdminApi.AllKeys - {AdminApi.Country};
    var a := AdminApi.CleanFields(FormData(FormOf(org)), keys);
    var b := AdminApi.CleanFields(RecordData(org), keys);
    forall k | k in keys
      ensures (k in a <==> k in b) && (k in a ==> a[k] == b[k])
    {
      FormFieldLikeRecord(org, k);
    }
    assert a == b;
    if !Truthy(org.country) {
      assert Trim(DefaultCountry) == DefaultCountry by {
        TrimmedIsFixed(DefaultCountry);
      }
    }
  }
}
