/** The admin REST client's request builders (src/lib/adminApi.ts): the
    bearer header taken from the current session, and the cleaned JSON bodies
    sent to create or update an organization. The fetch calls themselves are
    not modelled. */
module AdminApi {

  import opened Shared
  import opened Text

  /** The organization form as the pages pass it; every field may be unset. */
  datatype OrganizationData = OrganizationData(
    name: Option<string>,
    email: Option<string>,
    phone: Option<string>,
    address: Option<string>,
    city: Option<string>,
    postalCode: Option<string>,
    country: Option<string>,
    taxNumber: Option<string>)

  /** The keys of an organization body. */
  datatype Key = Name | Email | Phone | Address | City | PostalCode | Country | TaxNumber

  /** The JSON spelling of each key. */
  function JsonKey(k: Key): string {
    match k
    case Name => "name"
    case Email => "email"
    case Phone => "phone"
    case Address => "address"
    case City => "city"
    case PostalCode => "postal_code"
    case Country => "country"
    case TaxNumber => "tax_number"
  }

  /** A JSON body with string values, keyed by field. */
  type Payload = map<Key, string>

  /** The keys that both builders treat as optional. */
  const OptionalKeys: set<Key> := {Email, Phone, Address, City, PostalCode, Country, TaxNumber}
  const AllKeys: set<Key> := OptionalKeys + {Name}

  /** The form field behind a key. */
  function Field(data: OrganizationData, key: Key): Option<string> {
    match key
    case Name => data.name
    case Email => data.email
    case Phone => data.phone
    case Address => data.address
    case City => data.city
    case PostalCode => data.postalCode
    case Country => data.country
    case TaxNumber => data.taxNumber
  }

  /** `v && v.trim()`: the field is set and not blank. */
  predicate Kept(v: Option<string>) {
    Truthy(v) && Trim(v.value) != ""
  }

  /** The fields among `keys` that are set and not blank, each trimmed. */
  function CleanFields(data: OrganizationData, keys: set<Key>): Payload {
    map k | k in keys && Kept(Field(data, k)) :: Trim(Field(data, k).value)
  }

  /** `getAuthHeader`: a bearer header when the session has a token, else none. */
  function AuthHeader(accessToken: Option<string>): (h: map<string, string>)
    ensures "Authorization" in h <==> Truthy(accessToken)
    ensures "Authorization" in h ==> h["Authorization"] == "Bearer " + accessToken.value
    ensures h.Keys <= {"Authorization"}
  {
    if Truthy(accessToken) then map["Authorization" := "Bearer " + accessToken.value] else map[]
  }

  /** A field is written, trimmed, only when it is set and not blank. */
  function Put(clean: Payload, key: Key, v: Option<string>): Payload {
    if Kept(v) then clean[key := Trim(v.value)] else clean
  }

  /** Adds `key` to the body, trimmed, when the field is set and not blank. */
  method PutIfKept(clean: Payload, key: Key, v: Option<string>) returns (clean': Payload)
    ensures clean' == Put(clean, key, v)
  {
    clean' := clean;
    if v.Some? && v.value != "" && Trim(v.value) != "" {
      clean' := clean'[key := Trim(v.value)];
    }
  }

  /** One more field handled: the body is the cleaned fields of one more key. */
  lemma PutStep(data: OrganizationData, done: set<Key>, key: Key, extra: Payload)
    requires key !in done && key !in extra
    ensures Put(CleanFields(data, done) + extra, key, Field(data, key)) == CleanFields(data, done + {key}) + extra
  {
  }

  /** The body of `createOrganization`: the name exactly as given, and every
      other field only when set and not blank, trimmed. */
  method CreateOrganizationBody(data: OrganizationData) returns (clean: Payload)
    requires data.name.Some?
    ensures clean == CleanFields(data, OptionalKeys) + map[Name := data.name.value]
  {
    var name := map[Name := data.name.value];
    ghost var done: set<Key> := {};
    clean := name;
    assert clean == CleanFields(data, done) + name;
    PutStep(data, done, Email, name);
    clean := PutIfKept(clean, Email, data.email);
    done := done + {Email};
    PutStep(data, done, Phone, name);
    clean := PutIfKept(clean, Phone, data.phone);
    done := done + {Phone};
    PutStep(data, done, Address, name);
    clean := PutIfKept(clean, Address, data.address);
    done := done + {Address};
    PutStep(data, done, City, name);
    clean := PutIfKept(clean, City, data.city);
    done := done + {City};
    PutStep(data, done, PostalCode, name);
    clean := PutIfKept(clean, PostalCode, data.postalCode);
    done := done + {PostalCode};
    PutStep(data, done, Country, name);
    clean := PutIfKept(clean, Country, data.country);
    done := done + {Country};
    PutStep(data, done, TaxNumber, name);
    clean := PutIfKept(clean, TaxNumber, data.taxNumber);
    done := done + {TaxNumber};
    assert done == OptionalKeys;
  }

  /** One more field handled, starting from an empty body. */
  lemma PutStepPlain(data: OrganizationData, done: set<Key>, key: Key)
    requires key !in done
    ensures Put(CleanFields(data, done), key, Field(data, key)) == CleanFields(data, done + {key})
  {
  }

  /** The body of `updateOrganization`: every field, the name included, only
      when set and not blank, trimmed. */
  method UpdateOrganizationBody(data: OrganizationData) returns (clean: Payload)
    ensures clean == CleanFields(data, AllKeys)
  {
    ghost var done: set<Key> := {};
    clean := map[];
    assert clean == CleanFields(data, done);
    PutStepPlain(data, done, Name);
    clean := PutIfKept(clean, Name, data.name);
    done := done + {Name};
    PutStepPlain(data, done, Email);
    clean := PutIfKept(clean, Email, data.email);
    done := done + {Email};
    PutStepPlain(data, done, Phone);
    clean := PutIfKept(clean, Phone, data.phone);
    done := done + {Phone};
    PutStepPlain(data, done, Address);
    clean := PutIfKept(clean, Address, data.address);
    done := done + {Address};
    PutStepPlain(data, done, City);
    clean := PutIfKept(clean, City, data.city);
    done := done + {City};
    PutStepPlain(data, done, PostalCode);
    clean := PutIfKept(clean, PostalCode, data.postalCode);
    done := done + {PostalCode};
    PutStepPlain(data, done, Country);
    clean := PutIfKept(clean, Country, data.country);
    done := done + {Country};
    PutStepPlain(data, done, TaxNumber);
    clean := PutIfKept(clean, TaxNumber, data.taxNumber);
    done := done + {TaxNumber};
    assert done == AllKeys;
  }

  /** The form a body reads back as. */
  function AsData(p: Payload): OrganizationData {
    OrganizationData(Get(p, Name), Get(p, Email), Get(p, Phone), Get(p, Address),
                     Get(p, City), Get(p, PostalCode), Get(p, Country), Get(p, TaxNumber))
  }

  function Get(p: Payload, key: Key): Option<string> {
    if key in p then Some(p[key]) else None
  }

  /** A cleaned field is included exactly when its input is set and not blank,
      and it is never empty nor starts or ends with whitespace. */
  lemma CleanFieldsMeaning(data: OrganizationData, keys: set<Key>, k: Key)
    ensures k in CleanFields(data, keys) <==> k in keys && Kept(Field(data, k))
    ensures k in CleanFields(data, keys) ==>
              var v := CleanFields(data, keys)[k];
              v == Trim(Field(data, k).value) && v != "" && !IsSpace(v[0]) && !IsSpace(v[|v| - 1])
  {
  }

  /** The update body may lack a name: a blank name is dropped like any other field. */
  lemma BlankNameDroppedOnUpdate(data: OrganizationData)
    requires data.name.Some? && forall i :: 0 <= i < |data.name.value| ==> IsSpace(data.name.value[i])
    ensures Name !in CleanFields(data, AllKeys)
  {
    TrimEmptyIff(data.name.value);
  }

  /** Cleaning a cleaned body again changes nothing. */
  lemma CleanIdempotent(data: OrganizationData, keys: set<Key>)
    requires keys <= AllKeys
    ensures CleanFields(AsData(CleanFields(data, keys)), keys) == CleanFields(data, keys)
  {
    var c := CleanFields(data, keys);
    var again := CleanFields(AsData(c), keys);
    forall k | k in keys
      ensures (k in again <==> k in c) && (k in c ==> again[k] == c[k])
    {
      assert Field(AsData(c), k) == Get(c, k);
      if k in c {
        TrimIdempotent(Field(data, k).value);
      }
    }
  }
}
