/** The user record and the request shapes of the user schema, with the
    field constraints Pydantic enforces before a request reaches a handler.

    Pydantic's `pattern` uses an engine whose `$` matches only at the end of
    the text, so the schema checks below are exact: unlike the `re.match`
    checks of the validators, a final newline is never accepted. */
module UserSchema {
  import opened Common
  import opened Validators

  datatype UserType = Seller | Buyer | Both

  /** The stored user row. */
  datatype User = User(
    id: Uuid,
    email: string,
    phone: string,
    passwordHash: string,
    companyName: string,
    contactPerson: string,
    gstNumber: string,
    businessLicense: Option<string>,
    address: Option<string>,
    city: Option<string>,
    state: Option<string>,
    pincode: Option<string>,
    isVerified: bool,
    isActive: bool,
    userType: UserType,
    createdAt: int,
    updatedAt: int)

  /** The registration request: the profile fields and the plain password. */
  datatype UserCreate = UserCreate(
    email: string,
    phone: string,
    companyName: string,
    contactPerson: string,
    gstNumber: string,
    businessLicense: Option<string>,
    address: Option<string>,
    city: Option<string>,
    state: Option<string>,
    pincode: Option<string>,
    userType: UserType,
    password: string)

  /** The profile update request: only these fields can be changed, each
      either left out or supplied; the address fields and the pincode,
      which are nullable text, may be supplied as null. */
  datatype UserUpdate = UserUpdate(
    companyName: Patch<string>,
    contactPerson: Patch<string>,
    address: Patch<Option<string>>,
    city: Patch<Option<string>>,
    state: Patch<Option<string>>,
    pincode: Patch<Option<string>>,
    userType: Patch<UserType>)

  const DefaultUserType := Both
  const MinPasswordLength := 8

  /** `\d{9,15}`. */
  predicate PhoneDigits(t: string) { 9 <= |t| <= 15 && AllDigits(t) }

  /** `1?\d{9,15}`. */
  predicate OptionalOneThenDigits(t: string)
  {
    PhoneDigits(t) || (|t| > 0 && t[0] == '1' && PhoneDigits(t[1..]))
  }

  /** `^\+?1?\d{9,15}$`. */
  predicate SchemaPhone(s: string)
  {
    OptionalOneThenDigits(s) || (|s| > 0 && s[0] == '+' && OptionalOneThenDigits(s[1..]))
  }

  /** The schema GST pattern, anchored at both ends. */
  predicate SchemaGst(s: string) { GstShape(s) }

  /** A valid phone is an optional `+` followed by nothing but digits: 9 to
      15 of them, or 16 when the first is the optional `1`. */
  lemma SchemaPhoneDigits(s: string)
    ensures var t := if |s| > 0 && s[0] == '+' then s[1..] else s;
      SchemaPhone(s) <==> AllDigits(t) && (9 <= |t| <= 15 || (|t| == 16 && t[0] == '1'))
  {
    var t := if |s| > 0 && s[0] == '+' then s[1..] else s;
    OneDigits(t);
    if |s| > 0 && s[0] == '+' {
      assert !AllDigits(s) by { assert !IsAsciiDigit(s[0]); }
      assert !OptionalOneThenDigits(s);
    }
  }

  lemma OneDigits(t: string)
    ensures OptionalOneThenDigits(t) <==> AllDigits(t) && (9 <= |t| <= 15 || (|t| == 16 && t[0] == '1'))
  {
    if |t| > 0 && t[0] == '1' {
      assert AllDigits(t) <==> AllDigits(t[1..]) by {
        assert forall i :: 1 <= i < |t| ==> t[i] == t[1..][i - 1];
      }
    }
  }

  /** Every Indian number the validator accepts (without a final newline)
      also satisfies the schema's phone pattern. */
  lemma IndianPhoneIsSchemaPhone(phone: string)
    requires ValidatePhoneNumber(phone) && AnchoredBody(phone) == phone
    ensures SchemaPhone(phone)
  {
    PhoneAccepted(phone);
    SchemaPhoneDigits(phone);
    var m := phone[|phone| - 10..];
    var t := if |phone| > 0 && phone[0] == '+' then phone[1..] else phone;
    assert forall i :: |phone| - 10 <= i < |phone| ==> phone[i] == m[i - (|phone| - 10)];
    if |phone| == 12 {
      assert phone[0] == '9' && phone[1] == '1' && t == phone;
    } else if |phone| == 13 {
      assert phone[1] == '9' && phone[2] == '1';
      assert forall i :: 0 <= i < |t| ==> t[i] == phone[i + 1];
    }
  }

  /** The schema GST check and `validate_gst_number` agree on every text
      that does not end in a newline. */
  lemma SchemaGstAgrees(s: string)
    requires AnchoredBody(s) == s
    ensures SchemaGst(s) <==> ValidateGstNumber(s)
  {
  }

  /** They disagree on a well-formed number followed by a newline: the
      validator accepts it and the schema does not. */
  lemma SchemaGstStricter()
    ensures ValidateGstNumber(SampleGst1 + "\n") && !SchemaGst(SampleGst1 + "\n")
  {
    var s := SampleGst1 + "\n";
    assert AnchoredBody(s) == SampleGst1;
    SampleGstNumbersValid();
  }

  /** The constraints of `UserBase`/`UserCreate` other than the e-mail syntax. */
  predicate ValidUserCreate(u: UserCreate)
  {
    && SchemaPhone(u.phone)
    && SchemaGst(u.gstNumber)
    && (u.pincode.Some? ==> IsPincode(u.pincode.value))
    && |u.password| >= MinPasswordLength
  }

  /** The constraint of `UserUpdate`: a supplied pincode has six digits. */
  predicate ValidUserUpdate(u: UserUpdate)
  {
    u.pincode.Given? && u.pincode.value.Some? ==> IsPincode(u.pincode.value.value)
  }

  /** The demo seller of the sample data, as a registration request with
      the given password. */
  function DemoUserCreate(password: string): UserCreate
  {
    UserCreate("demo@manufacturer.com", SamplePhone, "Demo Manufacturing Ltd", "John Doe", SampleGst1,
               None, Some("Demo Address, Industrial Area"), Some("Mumbai"), Some("Maharashtra"),
               Some("400001"), DefaultUserType, password)
  }

  /** The demo seller's details pass the schema, so whether the request is
      accepted depends on the password length alone: "demo123", the
      password the sample data stores for that account, is one character
      too short to register through the schema. */
  lemma DemoRegistrationNeedsLongerPassword(password: string)
    ensures ValidUserCreate(DemoUserCreate(password)) <==> |password| >= 8
    ensures !ValidUserCreate(DemoUserCreate("demo123"))
  {
    SampleGstNumbersValid();
    SamplePhoneValid();
    IndianPhoneIsSchemaPhone(SamplePhone);
    assert IsPincode("400001");
  }

  /** The profile update: each supplied field is written, the others kept. */
  function ApplyUserUpdate(u: User, upd: UserUpdate): (r: User)
    ensures r.id == u.id && r.email == u.email && r.phone == u.phone
    ensures r.gstNumber == u.gstNumber && r.passwordHash == u.passwordHash
    ensures r.isVerified == u.isVerified && r.isActive == u.isActive
    ensures r.businessLicense == u.businessLicense && r.createdAt == u.createdAt
    ensures upd.companyName.Omitted? ==> r.companyName == u.companyName
    ensures upd.companyName.Given? ==> r.companyName == upd.companyName.value
    ensures upd.contactPerson.Omitted? ==> r.contactPerson == u.contactPerson
    ensures upd.contactPerson.Given? ==> r.contactPerson == upd.contactPerson.value
    ensures upd.address.Omitted? ==> r.address == u.address
    ensures upd.address.Given? ==> r.address == upd.address.value
    ensures upd.city.Omitted? ==> r.city == u.city
    ensures upd.city.Given? ==> r.city == upd.city.value
    ensures upd.state.Omitted? ==> r.state == u.state
    ensures upd.state.Given? ==> r.state == upd.state.value
    ensures upd.pincode.Omitted? ==> r.pincode == u.pincode
    ensures upd.pincode.Given? ==> r.pincode == upd.pincode.value
    ensures upd.userType.Omitted? ==> r.userType == u.userType
    ensures upd.userType.Given? ==> r.userType == upd.userType.value
  {
    u.(companyName := Patched(u.companyName, upd.companyName),
       contactPerson := Patched(u.contactPerson, upd.contactPerson),
       address := Patched(u.address, upd.address),
       city := Patched(u.city, upd.city),
       state := Patched(u.state, upd.state),
       pincode := Patched(u.pincode, upd.pincode),
       userType := Patched(u.userType, upd.userType))
  }

  const EmptyUserUpdate := UserUpdate(Omitted, Omitted, Omitted, Omitted, Omitted, Omitted, Omitted)

  /** An update that supplies nothing changes nothing, and applying the
      same update twice is the same as applying it once. */
  lemma ApplyUserUpdateLaws(u: User, upd: UserUpdate)
    ensures ApplyUserUpdate(u, EmptyUserUpdate) == u
    ensures ApplyUserUpdate(ApplyUserUpdate(u, upd), upd) == ApplyUserUpdate(u, upd)
  {
  }
}
