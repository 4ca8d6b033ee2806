/** `ProfessionalOnboarding`: the professional profile form. The session lookup
    and the `professionals` table are not part of this model; what they return is
    an input of the submit handler. */
module ProfessionalOnboarding {
  import opened Wrappers
  import opened Types
  import opened Text
  import opened Forms
  import opened Auth
  import opened Routes

  /** The form's keys. */
  datatype ProfessionalField = FullName | ProfessionType | Experience | Location | Phone | Bio

  /** The keys in the order `validate` checks them. */
  const FIELDS: seq<ProfessionalField> := [FullName, ProfessionType, Experience, Location, Phone, Bio]

  lemma AllFieldsListed(k: ProfessionalField)
    ensures k in FIELDS
  {
    match k
    case FullName => assert FIELDS[0] == k;
    case ProfessionType => assert FIELDS[1] == k;
    case Experience => assert FIELDS[2] == k;
    case Location => assert FIELDS[3] == k;
    case Phone => assert FIELDS[4] == k;
    case Bio => assert FIELDS[5] == k;
  }

  /** `formData`. */
  datatype ProfessionalForm = ProfessionalForm(
    fullName: FieldValue, professionType: FieldValue, experience: FieldValue,
    location: FieldValue, phone: FieldValue, bio: FieldValue)
  {
    function Get(k: ProfessionalField): FieldValue
    {
      match k
      case FullName => fullName
      case ProfessionType => professionType
      case Experience => experience
      case Location => location
      case Phone => phone
      case Bio => bio
    }

    /** `{ ...prev, [k]: v }`. */
    function With(k: ProfessionalField, v: FieldValue): (f: ProfessionalForm)
      ensures f.Get(k) == v
      ensures forall j :: j != k ==> f.Get(j) == Get(j)
    {
      match k
      case FullName => this.(fullName := v)
      case ProfessionType => this.(professionType := v)
      case Experience => this.(experience := v)
      case Location => this.(location := v)
      case Phone => this.(phone := v)
      case Bio => this.(bio := v)
    }
  }

  /** The initial form: profession "Civil Engineer", zero years, empty texts. */
  const DefaultForm := ProfessionalForm(Str(""), Str("Civil Engineer"), Num(0), Str(""), Str(""), Str(""))

  /** The error message of each field. */
  function Message(k: ProfessionalField): string
  {
    match k
    case FullName => "Full name is required"
    case ProfessionType => "Profession type is required"
    case Experience => "Experience must be a positive number"
    case Location => "Location is required"
    case Phone => "Phone number is required"
    case Bio => "Bio is required"
  }

  /** The trimmed text fields. */
  predicate IsTextField(k: ProfessionalField)
  {
    !k.ProfessionType? && !k.Experience?
  }

  /** Validation throws when a trimmed field holds a number. */
  predicate Throws(f: ProfessionalForm)
  {
    f.fullName.Num? || f.location.Num? || f.phone.Num? || f.bio.Num?
  }

  /** The rule of each field: blank after trim, falsy, or not a number at least 0. */
  predicate Fails(f: ProfessionalForm, k: ProfessionalField)
  {
    match k
    case ProfessionType => Falsy(f.professionType)
    case Experience => NotNonNegativeNumber(f.experience)
    case _ => f.Get(k).Str? && IsBlank(f.Get(k).text)
  }

  /** The failures among the first `n` fields `validate` checks. */
  function Partial(f: ProfessionalForm, n: nat): map<ProfessionalField, string>
    requires n <= |FIELDS|
  {
    map k | k in FIELDS[..n] && Fails(f, k) :: Message(k)
  }

  /** One more check of `validate` extends the partial error map by that field alone. */
  lemma PartialStep(f: ProfessionalForm, n: nat)
    requires n < |FIELDS|
    ensures Partial(f, n + 1) ==
      if Fails(f, FIELDS[n]) then Partial(f, n)[FIELDS[n] := Message(FIELDS[n])] else Partial(f, n)
  {
    assert FIELDS[..n + 1] == FIELDS[..n] + [FIELDS[n]];
  }

  /** One check of `validate`: the `n`-th field's message is recorded when it fails. */
  function Checked(f: ProfessionalForm, m: map<ProfessionalField, string>, n: nat): (r: map<ProfessionalField, string>)
    requires n < |FIELDS| && m == Partial(f, n)
    ensures r == Partial(f, n + 1)
  {
    PartialStep(f, n);
    if Fails(f, FIELDS[n]) then m[FIELDS[n] := Message(FIELDS[n])] else m
  }

  /** The error map `validate` builds: exactly the failing fields, each with its message. */
  function Validation(f: ProfessionalForm): Reply<map<ProfessionalField, string>>
  {
    if Throws(f) then Threw else Returned(Partial(f, |FIELDS|))
  }

  /** The form is accepted iff no field fails; the error keys are exactly the failing fields. */
  lemma ValidIffNoFieldFails(f: ProfessionalForm)
    requires !Throws(f)
    ensures Validation(f) == Returned(map[]) <==> forall k :: !Fails(f, k)
    ensures Validation(f).value.Keys == set k | Fails(f, k)
  {
    var m := Validation(f).value;
    if Validation(f) == Returned(map[]) {
      forall k ensures !Fails(f, k) {
        AllFieldsListed(k);
        assert k !in m;
      }
    }
    forall k ensures k in m <==> Fails(f, k) {
      AllFieldsListed(k);
    }
  }

  /** The rules, field by field. */
  predicate RulesHold(f: ProfessionalForm)
    requires !Throws(f)
  {
    && !IsBlank(f.fullName.text) && !IsBlank(f.location.text) && !IsBlank(f.phone.text) && !IsBlank(f.bio.text)
    && !Falsy(f.professionType) && f.experience.Num? && f.experience.n >= 0
  }

  /** A form on which no field fails satisfies every rule. */
  lemma RulesHoldWhenNoFailure(f: ProfessionalForm)
    requires !Throws(f)
    requires !Fails(f, FullName) && !Fails(f, ProfessionType) && !Fails(f, Experience)
    requires !Fails(f, Location) && !Fails(f, Phone) && !Fails(f, Bio)
    ensures RulesHold(f)
  {
  }

  /** A form satisfying every rule has no failing field. */
  lemma NoFailureWhenRulesHold(f: ProfessionalForm)
    requires !Throws(f) && RulesHold(f)
    ensures forall k :: !Fails(f, k)
  {
    forall k ensures !Fails(f, k) {
      match k
      case FullName =>
      case ProfessionType =>
      case Experience =>
      case Location =>
      case Phone =>
      case Bio =>
    }
  }

  /** Hence the form is accepted iff the four texts are non-blank, a profession is
      set and the experience is a number at least 0. */
  lemma ValidIffRulesHold(f: ProfessionalForm)
    requires !Throws(f)
    ensures Validation(f) == Returned(map[]) <==> RulesHold(f)
  {
    ValidIffNoFieldFails(f);
    if RulesHold(f) {
      NoFailureWhenRulesHold(f);
    }
    if forall k :: !Fails(f, k) {
      assert !Fails(f, FullName) && !Fails(f, ProfessionType) && !Fails(f, Experience);
      assert !Fails(f, Location) && !Fails(f, Phone) && !Fails(f, Bio);
      RulesHoldWhenNoFailure(f);
    }
  }

  /** On the initial form only the four text fields can fail: the profession and
      the experience pass as they are. */
  lemma DefaultFormFailures()
    ensures !Throws(DefaultForm)
    ensures forall k :: Fails(DefaultForm, k) <==> IsTextField(k)
  {
    forall k ensures Fails(DefaultForm, k) <==> IsTextField(k) {
      if IsTextField(k) {
        assert IsBlank(DefaultForm.Get(k).text);
      } else {
        assert Trim("Civil Engineer") != "";
      }
    }
  }

  /** The row upserted into `professionals`. */
  datatype ProfessionalData = ProfessionalData(
    id: string, fullName: FieldValue, professionType: FieldValue, experience: FieldValue,
    location: FieldValue, phone: FieldValue, bio: FieldValue, profilePicture: string, createdAt: string)

  /** The form fields a row carries. */
  function FormOf(p: ProfessionalData): ProfessionalForm
  {
    ProfessionalForm(p.fullName, p.professionType, p.experience, p.location, p.phone, p.bio)
  }

  /** `professionalData`: the form as it is, the session user's id, no picture and
      the time of submit. */
  function Payload(userId: string, f: ProfessionalForm, now: string): (p: ProfessionalData)
    ensures p.id == userId && p.profilePicture == "" && p.createdAt == now
    ensures FormOf(p) == f
  {
    ProfessionalData(userId, f.fullName, f.professionType, f.experience, f.location, f.phone, f.bio, "", now)
  }

  /** The mount check: a signed-out user goes to the login page. */
  function MountRedirect(s: Store): (nav: Option<Route>)
    ensures nav.Some? <==> !IsAuthenticated(s)
    ensures nav.Some? ==> nav.value == ToLogin
  {
    if !IsAuthenticated(s) then Some(ToLogin) else None
  }

  /** The state of the form page. */
  class ProfessionalOnboardingPage {
    var formData: ProfessionalForm
    var errors: map<ProfessionalField, string>
    var isSubmitting: bool

    constructor ()
      ensures formData == DefaultForm && errors == map[] && !isSubmitting
    {
      formData, errors, isSubmitting := DefaultForm, map[], false;
    }

    /** `handleChange(k, v)`: only field `k` changes, and only `k`'s error is cleared, when it is set. */
    method HandleChange(k: ProfessionalField, v: FieldValue)
      modifies this`formData, this`errors
      ensures formData == old(formData).With(k, v)
      ensures errors == if k in old(errors) && old(errors)[k] != "" then old(errors)[k := ""] else old(errors)
      ensures forall j :: j != k ==> formData.Get(j) == old(formData).Get(j)
      ensures forall j :: j != k ==> (j in errors <==> j in old(errors)) && (j in errors ==> errors[j] == old(errors)[j])
    {
      formData := formData.With(k, v);
      if k in errors && errors[k] != "" {
        errors := errors[k := ""];
      }
    }

    /** `validate`: checks the fields one by one and records the failures. A
        number in a trimmed field makes it throw before `errors` is set. */
    method Validate() returns (ok: Reply<bool>)
      modifies this`errors
      ensures Validation(formData).Threw? ==> ok.Threw? && errors == old(errors)
      ensures Validation(formData).Returned? ==> errors == Validation(formData).value && ok == Returned(|errors| == 0)
    {
      var f := formData;
      var m: map<ProfessionalField, string> := map[];
      assert m == Partial(f, 0);
      if f.fullName.Num? { return Threw; }
      m := Checked(f, m, 0);
      m := Checked(f, m, 1);
      m := Checked(f, m, 2);
      if f.location.Num? { return Threw; }
      m := Checked(f, m, 3);
      if f.phone.Num? { return Threw; }
      m := Checked(f, m, 4);
      if f.bio.Num? { return Threw; }
      m := Checked(f, m, 5);
      errors := m;
      ok := Returned(|m| == 0);
    }

    /** `handleSubmit`. `sessionUser` is what the session lookup did (the user id
        it found, if any), `upsertError` the upsert's error and `now` the time of
        submit. `calls` lists the backend requests made; `sent` is the upserted
        row. The local store is not touched. */
    method HandleSubmit(sessionUser: Reply<Option<string>>, upsertError: Option<string>, now: string)
      returns (nav: Option<Route>, calls: seq<BackendCall>, sent: Option<ProfessionalData>)
      modifies this`errors, this`isSubmitting
      ensures formData == old(formData)
      ensures Validation(old(formData)).Returned? ==> errors == Validation(old(formData)).value
      ensures Validation(old(formData)).Threw? ==> errors == old(errors)
      // A rejected or throwing validation: no session lookup and no upsert.
      ensures Validation(old(formData)) != Returned(map[]) ==>
        calls == [] && sent == None && nav == None && isSubmitting == old(isSubmitting)
      ensures Validation(old(formData)) == Returned(map[]) && sessionUser.Threw? ==>
        calls == [GetSession] && sent == None && nav == None && !isSubmitting
      // No session user: to the login page, and nothing is written.
      ensures Validation(old(formData)) == Returned(map[]) && sessionUser.Returned? && !Truthy(sessionUser.value) ==>
        calls == [GetSession] && sent == None && nav == Some(ToLogin) && isSubmitting
      ensures Validation(old(formData)) == Returned(map[]) && sessionUser.Returned? && Truthy(sessionUser.value) ==>
        var id := sessionUser.value.value;
        && calls == [GetSession, Upsert("professionals", id)]
        && sent == Some(Payload(id, old(formData), now))
        && (upsertError.Some? ==> nav == None && !isSubmitting)
        && (upsertError.None? ==> nav == Some(ToDashboard(Professional)) && isSubmitting)
    {
      var valid := Validate();
      calls, sent, nav := [], None, None;
      if valid.Threw? || !valid.value {
        return;
      }
      isSubmitting := true;
      calls := [GetSession];
      if sessionUser.Threw? {
        isSubmitting := false;
        return;
      }
      if !Truthy(sessionUser.value) {
        nav := Some(ToLogin);
        return;
      }
      var id := sessionUser.value.value;
      var data := Payload(id, formData, now);
      calls := calls + [Upsert("professionals", id)];
      sent := Some(data);
      if upsertError.Some? {
        isSubmitting := false;
        return;
      }
      nav := Some(ToDashboard(Professional));
    }
  }
}
