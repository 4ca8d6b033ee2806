/** `VendorOnboarding`: the vendor business-profile form. The `profiles` table,
    `getCurrentUserId` and `saveUserRole` are not part of this model; what they
    return is an input of the handler that calls them. */
module VendorOnboarding {
  import opened Wrappers
  import opened Types
  import opened Text
  import opened Forms
  import opened Auth
  import opened Routes
  import opened ProtectedRoute

  /** The form's keys. */
  datatype VendorField = CompanyName | BusinessType | YearsInBusiness | Location | ContactPerson | Phone | Description

  /** The keys in the order `validate` checks them. */
  const FIELDS: seq<VendorField> := [CompanyName, BusinessType, YearsInBusiness, Location, ContactPerson, Phone, Description]

  /** `formData`. */
  datatype VendorForm = VendorForm(
    companyName: FieldValue, businessType: FieldValue, yearsInBusiness: FieldValue, location: FieldValue,
    contactPerson: FieldValue, phone: FieldValue, description: FieldValue)
  {
    function Get(k: VendorField): FieldValue
    {
      match k
      case CompanyName => companyName
      case BusinessType => businessType
      case YearsInBusiness => yearsInBusiness
      case Location => location
      case ContactPerson => contactPerson
      case Phone => phone
      case Description => description
    }

    /** `{ ...prev, [k]: v }`. */
    function With(k: VendorField, v: FieldValue): (f: VendorForm)
      ensures f.Get(k) == v
      ensures forall j :: j != k ==> f.Get(j) == Get(j)
    {
      match k
      case CompanyName => this.(companyName := v)
      case BusinessType => this.(businessType := v)
      case YearsInBusiness => this.(yearsInBusiness := v)
      case Location => this.(location := v)
      case ContactPerson => this.(contactPerson := v)
      case Phone => this.(phone := v)
      case Description => this.(description := v)
    }
  }

  /** The initial form: business type "Cement", zero years, empty texts. */
  const DefaultForm := VendorForm(Str(""), Str("Cement"), Num(0), Str(""), Str(""), Str(""), Str(""))

  /** The error message of each field. */
  function Message(k: VendorField): string
  {
    match k
    case CompanyName => "Company name is required"
    case BusinessType => "Business type is required"
    case YearsInBusiness => "Years in business must be a positive number"
    case Location => "Location is required"
    case ContactPerson => "Contact person is required"
    case Phone => "Phone number is required"
    case Description => "Description is required"
  }

  /** The trimmed text fields. */
  predicate IsTextField(k: VendorField)
  {
    !k.BusinessType? && !k.YearsInBusiness?
  }

  /** Validation throws when a trimmed field holds a number. */
  predicate Throws(f: VendorForm)
  {
    f.companyName.Num? || f.location.Num? || f.contactPerson.Num? || f.phone.Num? || f.description.Num?
  }

  /** The rule of each field: blank after trim, falsy, or not a number at least 0. */
  predicate Fails(f: VendorForm, k: VendorField)
  {
    match k
    case BusinessType => Falsy(f.businessType)
    case YearsInBusiness => NotNonNegativeNumber(f.yearsInBusiness)
    case _ => f.Get(k).Str? && IsBlank(f.Get(k).text)
  }

  lemma AllFieldsListed(k: VendorField)
    ensures k in FIELDS
  {
    match k
    case CompanyName => assert FIELDS[0] == k;
    case BusinessType => assert FIELDS[1] == k;
    case YearsInBusiness => assert FIELDS[2] == k;
    case Location => assert FIELDS[3] == k;
    case ContactPerson => assert FIELDS[4] == k;
    case Phone => assert FIELDS[5] == k;
    case Description => assert FIELDS[6] == k;
  }

  /** The failures among the first `n` fields `validate` checks. */
  function Partial(f: VendorForm, n: nat): map<VendorField, string>
    requires n <= |FIELDS|
  {
    map k | k in FIELDS[..n] && Fails(f, k) :: Message(k)
  }

  /** One more check of `validate` extends the partial error map by that field alone. */
  lemma PartialStep(f: VendorForm, n: nat)
    requires n < |FIELDS|
    ensures Partial(f, n + 1) ==
      if Fails(f, FIELDS[n]) then Partial(f, n)[FIELDS[n] := Message(FIELDS[n])] else Partial(f, n)
  {
    assert FIELDS[..n + 1] == FIELDS[..n] + [FIELDS[n]];
  }

  /** One check of `validate`: the `n`-th field's message is recorded when it fails. */
  function Checked(f: VendorForm, m: map<VendorField, string>, n: nat): (r: map<VendorField, string>)
    requires n < |FIELDS| && m == Partial(f, n)
    ensures r == Partial(f, n + 1)
  {
    PartialStep(f, n);
    if Fails(f, FIELDS[n]) then m[FIELDS[n] := Message(FIELDS[n])] else m
  }

  /** The error map `validate` builds: exactly the failing fields, each with its message. */
  function Validation(f: VendorForm): Reply<map<VendorField, string>>
  {
    if Throws(f) then Threw else Returned(Partial(f, |FIELDS|))
  }

  /** The form is accepted iff no field fails, so zero years is accepted and a
      negative or textual number is not. */
  lemma ValidIffNoFieldFails(f: VendorForm)
    requires !Throws(f)
    ensures Validation(f) == Returned(map[]) <==> forall k :: !Fails(f, k)
    ensures Validation(f).value.Keys == set k | Fails(f, k)
  {
    var m := Validation(f).value;
    if Validation(f) == Returned(map[]) {
      forall k ensures !Fails(f, k) {
        AllFieldsListed(k);
        assert k !in m;
      }
    }
    assert FIELDS[..|FIELDS|] == FIELDS;
    forall k ensures k in m <==> Fails(f, k) {
      AllFieldsListed(k);
    }
  }

  /** Only the trimmed text fields fail on the initial form. */
  lemma DefaultFormFailures()
    ensures !Throws(DefaultForm)
    ensures forall k :: Fails(DefaultForm, k) <==> IsTextField(k)
  {
    forall k ensures Fails(DefaultForm, k) <==> IsTextField(k) {
      if IsTextField(k) {
        assert IsBlank(DefaultForm.Get(k).text);
      } else {
        assert Trim("Cement") != "";
      }
    }
  }

  /** The `vendor_data` object. */
  datatype VendorData = VendorData(form: VendorForm, createdAt: string)

  /** A `profiles` row as the upsert writes it and the fetch reads it. */
  datatype Profile = Profile(
    id: string, vendorData: Option<VendorData>, fullName: Option<string>, avatarUrl: Option<string>,
    updatedAt: Option<string>, createdAt: Option<string>)

  /** The result of `select('*').eq('id', …).single()`. */
  datatype ProfileFetch = ProfileFetch(data: Option<Profile>, error: Option<string>)

  /** PostgREST's "no rows" error code. */
  const NOT_FOUND_CODE := "PGRST116"

  /** A fetch error other than "not found" aborts the submit. */
  predicate FetchAborts(r: ProfileFetch)
  {
    r.error.Some? && r.error.value != NOT_FOUND_CODE
  }

  /** `x || null` for an optional string column. */
  function OrNull(x: Option<string>): (r: Option<string>)
    ensures Truthy(x) ==> r == x
    ensures !Truthy(x) ==> r == None
  {
    if Truthy(x) then x else None
  }

  /** The upserted row: the new vendor data and the user id; the existing name,
      avatar and creation time are kept when set, and `now` is the time of submit. */
  function MergePayload(userId: string, data: VendorData, existing: Option<Profile>, now: string): (p: Profile)
    ensures p.id == userId && p.vendorData == Some(data) && p.updatedAt == Some(now)
    ensures existing.Some? ==> p.fullName == OrNull(existing.value.fullName) && p.avatarUrl == OrNull(existing.value.avatarUrl)
    ensures existing.None? ==> p.fullName == None && p.avatarUrl == None
    ensures p.createdAt == if existing.Some? && Truthy(existing.value.createdAt) then existing.value.createdAt else Some(now)
  {
    var fullName := if existing.Some? then OrNull(existing.value.fullName) else None;
    var avatarUrl := if existing.Some? then OrNull(existing.value.avatarUrl) else None;
    var createdAt := if existing.Some? && Truthy(existing.value.createdAt) then existing.value.createdAt else Some(now);
    Profile(userId, Some(data), fullName, avatarUrl, Some(now), createdAt)
  }

  /** Submitting again over the row a first submit wrote keeps its name, avatar
      and creation time: only the vendor data and the update time change. */
  lemma ResubmitKeepsProfile(userId: string, d1: VendorData, d2: VendorData, existing: Option<Profile>, now1: string, now2: string)
    requires now1 != ""
    ensures var first := MergePayload(userId, d1, existing, now1);
            var second := MergePayload(userId, d2, Some(first), now2);
            second.fullName == first.fullName && second.avatarUrl == first.avatarUrl && second.createdAt == first.createdAt &&
            second.vendorData == Some(d2) && second.updatedAt == Some(now2)
  {
  }

  /** The state of the form page. */
  class VendorOnboardingPage {
    var formData: VendorForm
    var errors: map<VendorField, string>
    var isSubmitting: bool

    constructor ()
      ensures formData == DefaultForm && errors == map[] && !isSubmitting
    {
      formData, errors, isSubmitting := DefaultForm, map[], false;
    }

    /** `handleChange(k, v)`: only field `k` changes, and only `k`'s error is cleared, when it is set. */
    method HandleChange(k: VendorField, v: FieldValue)
      modifies this`formData, this`errors
      ensures formData == old(formData).With(k, v)
      ensures errors == if k in old(errors) && old(errors)[k] != "" then old(errors)[k := ""] else old(errors)
      ensures forall j :: j != k ==> formData.Get(j) == old(formData).Get(j)
      ensures forall j :: j != k ==> (j in errors <==> j in old(errors)) && (j in errors ==> errors[j] == old(errors)[j])
    {
      formData := formData.With(k, v);
      if k in errors && errors[k] != "" {
        errors := errors[k := ""];
      }
    }

    /** `validate`: checks the fields one by one and records the failures. A
        number in a trimmed field makes it throw before `errors` is set. */
    method Validate() returns (ok: Reply<bool>)
      modifies this`errors
      ensures Validation(formData).Threw? ==> ok.Threw? && errors == old(errors)
      ensures Validation(formData).Returned? ==> errors == Validation(formData).value && ok == Returned(|errors| == 0)
    {
      var f := formData;
      var m: map<VendorField, string> := map[];
      assert m == Partial(f, 0);
      if f.companyName.Num? { return Threw; }
      m := Checked(f, m, 0);
      m := Checked(f, m, 1);
      m := Checked(f, m, 2);
      if f.location.Num? { return Threw; }
      m := Checked(f, m, 3);
      if f.contactPerson.Num? { return Threw; }
      m := Checked(f, m, 4);
      if f.phone.Num? { return Threw; }
      m := Checked(f, m, 5);
      if f.description.Num? { return Threw; }
      m := Checked(f, m, 6);
      assert FIELDS[..|FIELDS|] == FIELDS;
      errors := m;
      ok := Returned(|m| == 0);
    }

    /** `handleSubmit`. `userId` is what `getCurrentUserId` did, `fetched` the
        profile read, `upsertError` the upsert's error, `save` what
        `saveUserRole('vendor')` did and `now` the time of submit. `calls` lists the
        backend requests made; `sent` is the upserted row. */
    method HandleSubmit(store: LocalStore, userId: Reply<Option<string>>, fetched: ProfileFetch,
                        upsertError: Option<string>, save: Reply<()>, now: string)
      returns (nav: Option<Route>, calls: seq<BackendCall>, sent: Option<Profile>)
      modifies this`errors, this`isSubmitting, store
      ensures formData == old(formData)
      ensures Validation(old(formData)).Returned? ==> errors == Validation(old(formData)).value
      ensures Validation(old(formData)).Threw? ==> errors == old(errors)
      // A rejected or throwing validation returns before anything else.
      ensures Validation(old(formData)) != Returned(map[]) ==>
        && calls == [] && sent == None && nav == None
        && isSubmitting == old(isSubmitting) && store.Snapshot() == old(store.Snapshot())
      ensures Validation(old(formData)) == Returned(map[]) ==> |calls| > 0 && calls[0] == GetUserId
      // Every failure after the user-id lookup ends with the button enabled again.
      ensures Validation(old(formData)) == Returned(map[]) && userId.Threw? ==>
        && calls == [GetUserId] && sent == None && nav == None
        && !isSubmitting && store.Snapshot() == old(store.Snapshot())
      ensures Validation(old(formData)) == Returned(map[]) && userId.Returned? && !Truthy(userId.value) ==>
        && calls == [GetUserId] && sent == None && nav == Some(ToLogin)
        && isSubmitting && store.Snapshot() == old(store.Snapshot())
      ensures Validation(old(formData)) == Returned(map[]) && userId.Returned? && Truthy(userId.value) ==>
        var id := userId.value.value;
        && |calls| >= 2 && calls[..2] == [GetUserId, FetchProfile(id)]
        && (FetchAborts(fetched) ==>
             && calls == [GetUserId, FetchProfile(id)] && sent == None && nav == None
             && !isSubmitting && store.Snapshot() == old(store.Snapshot()))
        && (!FetchAborts(fetched) ==>
             && |calls| >= 3 && calls[..3] == [GetUserId, FetchProfile(id), Upsert("profiles", id)]
             && sent == Some(MergePayload(id, VendorData(old(formData), now), fetched.data, now)))
        && (!FetchAborts(fetched) && upsertError.Some? ==>
             && |calls| == 3 && nav == None && !isSubmitting && store.Snapshot() == old(store.Snapshot()))
        && (!FetchAborts(fetched) && upsertError.None? ==> calls == [GetUserId, FetchProfile(id), Upsert("profiles", id), SaveRole(Vendor)])
        && (!FetchAborts(fetched) && upsertError.None? && save.Threw? ==>
             && nav == None && !isSubmitting && store.Snapshot() == old(store.Snapshot()))
        && (!FetchAborts(fetched) && upsertError.None? && save.Returned? ==>
             && nav == Some(ToDashboard(Vendor)) && isSubmitting
             && store.Snapshot() == old(store.Snapshot()).Set(ACTIVE_ROLE, RoleName(Vendor)))
    {
      var valid := Validate();
      calls, sent, nav := [], None, None;
      if valid.Threw? || !valid.value {
        return;
      }
      isSubmitting := true;
      calls := [GetUserId];
      if userId.Threw? {
        isSubmitting := false;
        return;
      }
      if !Truthy(userId.value) {
        nav := Some(ToLogin);
        return;
      }
      var id := userId.value.value;
      var data := VendorData(formData, now);
      calls := calls + [FetchProfile(id)];
      if FetchAborts(fetched) {
        isSubmitting := false;
        return;
      }
      var payload := MergePayload(id, data, fetched.data, now);
      calls := calls + [Upsert("profiles", id)];
      sent := Some(payload);
      if upsertError.Some? {
        isSubmitting := false;
        return;
      }
      calls := calls + [SaveRole(Vendor)];
      if save.Threw? {
        isSubmitting := false;
        return;
      }
      SetActiveRole(store, Vendor);
      nav := Some(ToDashboard(Vendor));
    }
  }

  /** The mount check: a signed-out user goes to the login page; a user whose
      profile already holds vendor data is made a vendor and sent to the dashboard;
      anyone else stays on the form. */
  method CheckAuthentication(store: LocalStore, userId: Option<string>, fetched: ProfileFetch)
    returns (nav: Option<Route>, calls: seq<BackendCall>)
    modifies store
    ensures !IsAuthenticated(old(store.Snapshot())) ==>
      nav == Some(ToLogin) && calls == [] && store.Snapshot() == old(store.Snapshot())
    ensures IsAuthenticated(old(store.Snapshot())) ==>
      calls == (if Truthy(userId) then [GetUserId, FetchProfile(userId.value)] else [GetUserId])
    ensures IsAuthenticated(old(store.Snapshot())) && Truthy(userId) &&
            fetched.error.None? && fetched.data.Some? && fetched.data.value.vendorData.Some? ==>
      nav == Some(ToDashboard(Vendor)) && store.Snapshot() == old(store.Snapshot()).Set(ACTIVE_ROLE, RoleName(Vendor))
    ensures IsAuthenticated(old(store.Snapshot())) &&
            !(Truthy(userId) && fetched.error.None? && fetched.data.Some? && fetched.data.value.vendorData.Some?) ==>
      nav == None && store.Snapshot() == old(store.Snapshot())
  {
    var authenticated := IsAuthenticated(store.Snapshot());
    if !authenticated {
      return Some(ToLogin), [];
    }
    calls := [GetUserId];
    nav := None;
    if Truthy(userId) {
      calls := calls + [FetchProfile(userId.value)];
      if fetched.error.None? && fetched.data.Some? && fetched.data.value.vendorData.Some? {
        SetActiveRole(store, Vendor);
        nav := Some(ToDashboard(Vendor));
      }
    }
  }

  /** A successful submit writes the profile to the backend and the active role
      to the local store, but not the local vendor list; so unless the user was
      already listed there, the vendor dashboard it navigates to sends the user
      back to this form. */
  lemma SubmitLeavesLocalListIncomplete(s: Store)
    requires IsAuthenticated(s) && Truthy(s.Get(USER_ID)) && s.Get(USER_ID).value !in s.vendors
    ensures CheckAuth(s.Set(ACTIVE_ROLE, RoleName(Vendor)), [Vendor], DefaultRequireOnboarding) == Some(ToOnboarding(Vendor))
  {
    ActiveRoleRoundTrip(s, Vendor);
  }
}
