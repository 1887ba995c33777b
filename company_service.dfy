/**
 * The company service of the front end: the address mappers between the
 * form's shape and the API's, the multipart fields sent on create and
 * update, the reuse-or-create choice for the address, and the listing that
 * fetches each distinct address once and attaches it to its companies.
 */
module CompanyService {
  import opened Common

  // ---------------------------------------------------------------------
  // Address mappers

  /** The form's address; every field may be missing. */
  datatype CompanyAddress = CompanyAddress(
    cep: Option<string>,
    street: Option<string>,
    number: Option<string>,
    complement: Option<string>,
    neighborhood: Option<string>,
    city: Option<string>,
    state: Option<string>,
    uuid: Option<string>)

  /** The address the API receives. */
  datatype ApiAddress = ApiAddress(
    zipCode: string,
    street: string,
    number: string,
    complement: string,
    neighborhood: string,
    city: string,
    state: string)

  /** An address object as the API returns it; every field may be missing. */
  datatype RawAddress = RawAddress(
    zipCode: Option<string>,
    street: Option<string>,
    number: Option<string>,
    complement: Option<string>,
    neighborhood: Option<string>,
    city: Option<string>,
    state: Option<string>,
    uuid: Option<string>,
    id: Option<string>)

  /** `mapAddressToApi`: `cep` renamed to `zip_code`, every missing or empty field sent as ''. */
  function MapAddressToApi(a: CompanyAddress): (r: ApiAddress)
    ensures r.zipCode == OrEmpty(a.cep) && r.street == OrEmpty(a.street) && r.number == OrEmpty(a.number)
    ensures r.complement == OrEmpty(a.complement) && r.neighborhood == OrEmpty(a.neighborhood)
    ensures r.city == OrEmpty(a.city) && r.state == OrEmpty(a.state)
  {
    ApiAddress(OrEmpty(a.cep), OrEmpty(a.street), OrEmpty(a.number), OrEmpty(a.complement),
               OrEmpty(a.neighborhood), OrEmpty(a.city), OrEmpty(a.state))
  }

  /** `mapAddressFromApi(addr)`, with None for a null or missing `addr`. */
  function MapAddressFromApi(addr: Option<RawAddress>): (r: CompanyAddress)
    ensures r.cep.Some? && r.street.Some? && r.number.Some? && r.complement.Some?
    ensures r.neighborhood.Some? && r.city.Some? && r.state.Some?
    ensures addr.None? ==> r.uuid.None? && r.city == Some("") && r.cep == Some("")
    ensures addr.Some? ==> r.cep == Some(OrEmpty(addr.value.zipCode)) && r.city == Some(OrEmpty(addr.value.city))
    ensures addr.Some? && Truthy(addr.value.uuid) ==> r.uuid == addr.value.uuid
    ensures addr.Some? && !Truthy(addr.value.uuid) ==> r.uuid == (if Truthy(addr.value.id) then addr.value.id else None)
  {
    if addr.None? then CompanyAddress(Some(""), Some(""), Some(""), Some(""), Some(""), Some(""), Some(""), None)
    else
      var a := addr.value;
      CompanyAddress(Some(OrEmpty(a.zipCode)), Some(OrEmpty(a.street)), Some(OrEmpty(a.number)),
                     Some(OrEmpty(a.complement)), Some(OrEmpty(a.neighborhood)), Some(OrEmpty(a.city)),
                     Some(OrEmpty(a.state)),
                     if Truthy(a.uuid) then a.uuid else if Truthy(a.id) then a.id else None)
  }

  /** The object the API holds after receiving an address payload (no uuid or id yet). */
  function AsReturned(p: ApiAddress): RawAddress
  {
    RawAddress(Some(p.zipCode), Some(p.street), Some(p.number), Some(p.complement),
               Some(p.neighborhood), Some(p.city), Some(p.state), None, None)
  }

  /** Form to API and back: every field is kept, missing ones become '', and the uuid is dropped. */
  lemma AddressRoundTrip(a: CompanyAddress)
    ensures MapAddressFromApi(Some(AsReturned(MapAddressToApi(a)))) ==
      CompanyAddress(Some(OrEmpty(a.cep)), Some(OrEmpty(a.street)), Some(OrEmpty(a.number)),
                     Some(OrEmpty(a.complement)), Some(OrEmpty(a.neighborhood)), Some(OrEmpty(a.city)),
                     Some(OrEmpty(a.state)), None)
  {
    var p := MapAddressToApi(a);
    assert OrEmpty(Some(p.zipCode)) == p.zipCode && OrEmpty(Some(p.street)) == p.street;
    assert OrEmpty(Some(p.number)) == p.number && OrEmpty(Some(p.complement)) == p.complement;
    assert OrEmpty(Some(p.neighborhood)) == p.neighborhood && OrEmpty(Some(p.city)) == p.city;
    assert OrEmpty(Some(p.state)) == p.state;
  }

  /** API to form and back: the payload carries the API object's seven fields, missing ones as ''. */
  lemma ApiRoundTrip(r: RawAddress)
    ensures MapAddressToApi(MapAddressFromApi(Some(r))) ==
      ApiAddress(OrEmpty(r.zipCode), OrEmpty(r.street), OrEmpty(r.number), OrEmpty(r.complement),
                 OrEmpty(r.neighborhood), OrEmpty(r.city), OrEmpty(r.state))
  {
  }

  // ---------------------------------------------------------------------
  // Multipart fields

  /** The logo input: a File object or some other value. */
  datatype Logo = LogoFile(name: string) | NotAFile

  datatype FormValue = Text(text: string) | FileValue(name: string)

  datatype CompanyData = CompanyData(
    cnpj: Option<string>,
    fantasyName: Option<string>,
    socialReason: Option<string>,
    openingDate: Option<string>,
    cnae: Option<string>,
    email: Option<string>,
    phone: Option<string>,
    mobilePhone: Option<string>,
    stateRegistration: Option<string>,
    municipalRegistration: Option<string>,
    taxRegime: Option<string>,
    logo: Option<Logo>,
    address: Option<CompanyAddress>,
    typeOf: Option<string>)

  /** `String(x)` as FormData stores it: a missing value becomes "undefined". */
  function JsString(o: Option<string>): string
  {
    if o.Some? then o.value else "undefined"
  }

  /** `if (x) formData.append(key, x)`. */
  function IfTruthy(key: string, o: Option<string>): (r: seq<(string, FormValue)>)
    ensures r != [] <==> Truthy(o)
    ensures r != [] ==> r == [(key, Text(o.value))]
    ensures forall e :: e in r <==> Truthy(o) && e == (key, Text(o.value))
  {
    if Truthy(o) then [(key, Text(o.value))] else []
  }

  function LogoField(logo: Option<Logo>): (r: seq<(string, FormValue)>)
    ensures forall e :: e in r ==> e.0 == "logo" && e.1.FileValue?
  {
    if logo.Some? && logo.value.LogoFile? then [("logo", FileValue(logo.value.name))] else []
  }

  /** The fields `create` appends, in order. */
  function CreateFields(d: CompanyData, addressUuid: Option<string>): seq<(string, FormValue)>
  {
    [("cnpj", Text(JsString(d.cnpj))), ("fantasy_name", Text(JsString(d.fantasyName))),
     ("social_reason", Text(JsString(d.socialReason))), ("opening_date", Text(JsString(d.openingDate))),
     ("cnae", Text(JsString(d.cnae)))]
    + IfTruthy("email", d.email) + IfTruthy("phone", d.phone) + IfTruthy("mobile_phone", d.mobilePhone)
    + IfTruthy("state_registration", d.stateRegistration) + IfTruthy("municipal_registration", d.municipalRegistration)
    + IfTruthy("tax_regime", d.taxRegime)
    + [("type_of", Text(OrElse(d.typeOf, "Client")))]
    + IfTruthy("address", addressUuid)
    + LogoField(d.logo)
  }

  /** The fields `update` appends, in order. */
  function UpdateFields(d: CompanyData, addressUuid: Option<string>): seq<(string, FormValue)>
  {
    IfTruthy("cnpj", d.cnpj) + IfTruthy("fantasy_name", d.fantasyName) + IfTruthy("social_reason", d.socialReason)
    + IfTruthy("opening_date", d.openingDate) + IfTruthy("cnae", d.cnae)
    + IfTruthy("email", d.email) + IfTruthy("phone", d.phone) + IfTruthy("mobile_phone", d.mobilePhone)
    + IfTruthy("state_registration", d.stateRegistration) + IfTruthy("municipal_registration", d.municipalRegistration)
    + IfTruthy("tax_regime", d.taxRegime) + IfTruthy("type_of", d.typeOf)
    + IfTruthy("address", addressUuid)
    + LogoField(d.logo)
  }

  function Keys(form: seq<(string, FormValue)>): (r: seq<string>)
    ensures |r| == |form| && forall i :: 0 <= i < |form| ==> r[i] == form[i].0
  {
    if form == [] then [] else [form[0].0] + Keys(form[1..])
  }

  /** `create` always sends the five identifying fields and a `type_of` defaulting to 'Client'. */
  lemma CreateSendsRequiredFields(d: CompanyData, addressUuid: Option<string>)
    ensures var f := CreateFields(d, addressUuid);
      f[..5] == [("cnpj", Text(JsString(d.cnpj))), ("fantasy_name", Text(JsString(d.fantasyName))),
                 ("social_reason", Text(JsString(d.socialReason))), ("opening_date", Text(JsString(d.openingDate))),
                 ("cnae", Text(JsString(d.cnae)))] &&
      ("type_of", Text(OrElse(d.typeOf, "Client"))) in f
  {
  }

  /** No field of the body carries the empty text. */
  predicate NoEmptyText(form: seq<(string, FormValue)>)
  {
    forall e :: e in form ==> e.1 != Text("")
  }

  lemma NoEmptyTextAppend(a: seq<(string, FormValue)>, b: seq<(string, FormValue)>)
    requires NoEmptyText(a) && NoEmptyText(b)
    ensures NoEmptyText(a + b)
  {
  }

  /** `update` never sends an empty text. */
  lemma UpdateSendsOnlyTruthy(d: CompanyData, addressUuid: Option<string>)
    ensures NoEmptyText(UpdateFields(d, addressUuid))
  {
    var f := IfTruthy("cnpj", d.cnpj);
    NoEmptyTextAppend(f, IfTruthy("fantasy_name", d.fantasyName));
    f := f + IfTruthy("fantasy_name", d.fantasyName);
    NoEmptyTextAppend(f, IfTruthy("social_reason", d.socialReason));
    f := f + IfTruthy("social_reason", d.socialReason);
    NoEmptyTextAppend(f, IfTruthy("opening_date", d.openingDate));
    f := f + IfTruthy("opening_date", d.openingDate);
    NoEmptyTextAppend(f, IfTruthy("cnae", d.cnae));
    f := f + IfTruthy("cnae", d.cnae);
    NoEmptyTextAppend(f, IfTruthy("email", d.email));
    f := f + IfTruthy("email", d.email);
    NoEmptyTextAppend(f, IfTruthy("phone", d.phone));
    f := f + IfTruthy("phone", d.phone);
    NoEmptyTextAppend(f, IfTruthy("mobile_phone", d.mobilePhone));
    f := f + IfTruthy("mobile_phone", d.mobilePhone);
    NoEmptyTextAppend(f, IfTruthy("state_registration", d.stateRegistration));
    f := f + IfTruthy("state_registration", d.stateRegistration);
    NoEmptyTextAppend(f, IfTruthy("municipal_registration", d.municipalRegistration));
    f := f + IfTruthy("municipal_registration", d.municipalRegistration);
    NoEmptyTextAppend(f, IfTruthy("tax_regime", d.taxRegime));
    f := f + IfTruthy("tax_regime", d.taxRegime);
    NoEmptyTextAppend(f, IfTruthy("type_of", d.typeOf));
    f := f + IfTruthy("type_of", d.typeOf);
    NoEmptyTextAppend(f, IfTruthy("address", addressUuid));
    f := f + IfTruthy("address", addressUuid);
    NoEmptyTextAppend(f, LogoField(d.logo));
    f := f + LogoField(d.logo);
    assert f == UpdateFields(d, addressUuid);
  }

  /** `update` sends `type_of` only when one is given. */
  lemma UpdateKeepsTypeUnlessGiven(d: CompanyData, addressUuid: Option<string>)
    ensures !Truthy(d.typeOf) ==> forall v :: ("type_of", v) !in UpdateFields(d, addressUuid)
  {
  }

  /** `create` sends a text for every field `update` would send. */
  lemma UpdateFieldsSubsetOfCreate(d: CompanyData, addressUuid: Option<string>)
    requires Truthy(d.typeOf)
    ensures forall p :: p in UpdateFields(d, addressUuid) ==> p in CreateFields(d, addressUuid)
  {
  }

  /** The address response after a POST: its `uuid`, else its `id`. */
  datatype Created = Created(uuid: Option<string>, id: Option<string>)

  /** The address sent to the POST, if one is made: only for an address given without a uuid. */
  function AddressToPost(address: Option<CompanyAddress>): (r: Option<ApiAddress>)
    ensures r.Some? <==> address.Some? && !Truthy(address.value.uuid)
  {
    if address.Some? && !Truthy(address.value.uuid) then Some(MapAddressToApi(address.value)) else None
  }

  /** The address uuid sent with the company. */
  function AddressUuid(address: Option<CompanyAddress>, created: Created): (r: Option<string>)
    ensures address.Some? && Truthy(address.value.uuid) ==> r == address.value.uuid
    ensures address.None? ==> r.None?
  {
    if address.None? then None
    else if Truthy(address.value.uuid) then address.value.uuid
    else if Truthy(created.uuid) then created.uuid
    else created.id
  }

  /** The address uuid as the service resolves it, and the address it POSTs when it has to create one. */
  method ResolveAddress(address: Option<CompanyAddress>, created: Created) returns (posted: Option<ApiAddress>, addressUuid: Option<string>)
    ensures posted == AddressToPost(address)
    ensures addressUuid == AddressUuid(address, created)
  {
    addressUuid := None;
    posted := None;
    if address.Some? {
      if Truthy(address.value.uuid) {
        addressUuid := address.value.uuid;
      } else {
        posted := Some(MapAddressToApi(address.value));
        addressUuid := if Truthy(created.uuid) then created.uuid else created.id;
      }
    }
  }

  /** `create`: builds the multipart body by successive appends. */
  method BuildCreateForm(d: CompanyData, created: Created) returns (posted: Option<ApiAddress>, form: seq<(string, FormValue)>)
    ensures posted == AddressToPost(d.address)
    ensures form == CreateFields(d, AddressUuid(d.address, created))
  {
    var addressUuid;
    posted, addressUuid := ResolveAddress(d.address, created);
    form := [];
    form := form + [("cnpj", Text(JsString(d.cnpj)))];
    form := form + [("fantasy_name", Text(JsString(d.fantasyName)))];
    form := form + [("social_reason", Text(JsString(d.socialReason)))];
    form := form + [("opening_date", Text(JsString(d.openingDate)))];
    form := form + [("cnae", Text(JsString(d.cnae)))];
    assert form == [("cnpj", Text(JsString(d.cnpj))), ("fantasy_name", Text(JsString(d.fantasyName))),
     ("social_reason", Text(JsString(d.socialReason))), ("opening_date", Text(JsString(d.openingDate))),
     ("cnae", Text(JsString(d.cnae)))];
    form := form + IfTruthy("email", d.email);
    form := form + IfTruthy("phone", d.phone);
    form := form + IfTruthy("mobile_phone", d.mobilePhone);
    form := form + IfTruthy("state_registration", d.stateRegistration);
    form := form + IfTruthy("municipal_registration", d.municipalRegistration);
    form := form + IfTruthy("tax_regime", d.taxRegime);
    form := form + [("type_of", Text(OrElse(d.typeOf, "Client")))];
    form := form + IfTruthy("address", addressUuid);
    form := form + LogoField(d.logo);
  }

  /** `update`: appends only the fields that are given. */
  method BuildUpdateForm(d: CompanyData, created: Created) returns (posted: Option<ApiAddress>, form: seq<(string, FormValue)>)
    ensures posted == AddressToPost(d.address)
    ensures form == UpdateFields(d, AddressUuid(d.address, created))
  {
    var addressUuid;
    posted, addressUuid := ResolveAddress(d.address, created);
    form := IfTruthy("cnpj", d.cnpj);
    form := form + IfTruthy("fantasy_name", d.fantasyName);
    form := form + IfTruthy("social_reason", d.socialReason);
    form := form + IfTruthy("opening_date", d.openingDate);
    form := form + IfTruthy("cnae", d.cnae);
    form := form + IfTruthy("email", d.email);
    form := form + IfTruthy("phone", d.phone);
    form := form + IfTruthy("mobile_phone", d.mobilePhone);
    form := form + IfTruthy("state_registration", d.stateRegistration);
    form := form + IfTruthy("municipal_registration", d.municipalRegistration);
    form := form + IfTruthy("tax_regime", d.taxRegime);
    form := form + IfTruthy("type_of", d.typeOf);
    form := form + IfTruthy("address", addressUuid);
    form := form + LogoField(d.logo);
  }

  // ---------------------------------------------------------------------
  // Listing

  /** A company's `address` as listed: absent, null, an id, or an inline object. */
  datatype AddrRef = AddrMissing | AddrNull | AddrId(id: string) | AddrObj(obj: RawAddress)

  datatype RawCompany = RawCompany(uuid: string, address: AddrRef)

  datatype ListedCompany = ListedCompany(company: RawCompany, address: CompanyAddress)

  /** The truthy address ids, in list order. */
  function AddressIds(companies: seq<RawCompany>): (r: seq<string>)
    ensures forall u :: u in r <==> exists i :: 0 <= i < |companies| && companies[i].address == AddrId(u) && u != ""
  {
    if companies == [] then []
    else
      var rest := AddressIds(companies[1..]);
      assert forall u :: (exists i :: 0 <= i < |companies[1..]| && companies[1..][i].address == AddrId(u) && u != "") <==>
        (exists i :: 1 <= i < |companies| && companies[i].address == AddrId(u) && u != "") by {
        forall u | exists i :: 1 <= i < |companies| && companies[i].address == AddrId(u) && u != ""
          ensures exists i :: 0 <= i < |companies[1..]| && companies[1..][i].address == AddrId(u) && u != ""
        {
          var i :| 1 <= i < |companies| && companies[i].address == AddrId(u) && u != "";
          assert companies[1..][i - 1] == companies[i];
        }
      }
      if companies[0].address.AddrId? && companies[0].address.id != "" then [companies[0].address.id] + rest
      else rest
  }

  /** The placeholder for an address that could not be fetched. */
  function Placeholder(uuid: Option<string>): CompanyAddress
  {
    CompanyAddress(None, None, None, None, None, Some(""), Some(""), uuid)
  }

  /** The address attached to one listed company. */
  function Hydrate(ref: AddrRef, addressMap: map<string, CompanyAddress>): CompanyAddress
  {
    if ref.AddrId? then
      (if ref.id in addressMap then addressMap[ref.id] else Placeholder(Some(ref.id)))
    else if ref.AddrObj? then MapAddressFromApi(Some(ref.obj))
    else if ref.AddrNull? then MapAddressFromApi(None)
    else Placeholder(None)
  }

  function HydrateAll(companies: seq<RawCompany>, addressMap: map<string, CompanyAddress>): (r: seq<ListedCompany>)
    ensures |r| == |companies|
    ensures forall i :: 0 <= i < |companies| ==>
      r[i] == ListedCompany(companies[i], Hydrate(companies[i].address, addressMap))
  {
    if companies == [] then [] else [ListedCompany(companies[0], Hydrate(companies[0].address, addressMap))] + HydrateAll(companies[1..], addressMap)
  }

  /** The address map after the fetches: each requested id whose GET succeeded. */
  function FetchedMap(requested: seq<string>, fetched: map<string, RawAddress>): map<string, CompanyAddress>
  {
    map u | u in requested && u in fetched :: MapAddressFromApi(Some(fetched[u]))
  }

  /** Requesting one more id adds its fetched address, if the GET succeeded. */
  lemma FetchedMapSnoc(requested: seq<string>, u: string, fetched: map<string, RawAddress>)
    ensures FetchedMap(requested + [u], fetched) ==
      if u in fetched then FetchedMap(requested, fetched)[u := MapAddressFromApi(Some(fetched[u]))]
      else FetchedMap(requested, fetched)
  {
  }

  /**
   * `getAll`: `listed` is the response body (None when it is empty) and
   * `fetched` the address GETs that succeeded. Returns the ids requested and
   * the hydrated list.
   */
  method GetAll(listed: Option<seq<RawCompany>>, fetched: map<string, RawAddress>)
    returns (requested: seq<string>, hydrated: seq<ListedCompany>)
    ensures var companies := if listed.Some? then listed.value else [];
      requested == Distinct(AddressIds(companies)) &&
      hydrated == HydrateAll(companies, FetchedMap(requested, fetched))
  {
    var companies := if listed.Some? then listed.value else [];
    requested := Distinct(AddressIds(companies));
    var addressMap: map<string, CompanyAddress> := map[];
    var i := 0;
    while i < |requested|
      invariant 0 <= i <= |requested|
      invariant addressMap == FetchedMap(requested[..i], fetched)
    {
      var u := requested[i];
      assert requested[..i + 1] == requested[..i] + [u];
      FetchedMapSnoc(requested[..i], u, fetched);
      if u in fetched {
        addressMap := addressMap[u := MapAddressFromApi(Some(fetched[u]))];
      }
      i := i + 1;
    }
    assert requested[..i] == requested;
    hydrated := HydrateAll(companies, addressMap);
  }

  /** Each distinct truthy address id is requested exactly once, and nothing else is requested. */
  lemma EachAddressRequestedOnce(companies: seq<RawCompany>)
    ensures NoDuplicates(Distinct(AddressIds(companies)))
    ensures forall u :: u in Distinct(AddressIds(companies)) <==>
      exists i :: 0 <= i < |companies| && companies[i].address == AddrId(u) && u != ""
  {
  }

  /** The address a listed id resolves to: the fetched one, or a placeholder carrying the id. */
  function ResolvedAddress(u: string, fetched: map<string, RawAddress>): CompanyAddress
  {
    if u in fetched then MapAddressFromApi(Some(fetched[u])) else Placeholder(Some(u))
  }

  /** A company whose address id was fetched gets the fetched address; otherwise it gets the placeholder with that id. */
  lemma ListedAddress(companies: seq<RawCompany>, fetched: map<string, RawAddress>, i: nat)
    requires i < |companies| && companies[i].address.AddrId? && companies[i].address.id != ""
    ensures HydrateAll(companies, FetchedMap(Distinct(AddressIds(companies)), fetched))[i].address ==
      ResolvedAddress(companies[i].address.id, fetched)
  {
    var u := companies[i].address.id;
    var m := FetchedMap(Distinct(AddressIds(companies)), fetched);
    var h := HydrateAll(companies, m);
    assert u in AddressIds(companies);
    assert h[i] == ListedCompany(companies[i], Hydrate(companies[i].address, m));
    if u in fetched {
      assert h[i].address == m[u];
    } else {
      assert h[i].address == Placeholder(Some(u));
    }
  }
}
