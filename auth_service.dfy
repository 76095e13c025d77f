/** The user table and the authentication service over it: creating a user,
    checking a password, looking users up by their unique keys, and the GST
    verification that marks a user verified.

    Password hashing and checking are not modelled: the hash is a parameter
    of `CreateUser` and the check a function parameter of
    `AuthenticateUser`. Lookups take the first row in stored order. */
module AuthService {
  import opened Common
  import opened Validators
  import opened UserSchema

  /** `db_user` as `create_user` builds it from the request: the hash in
      place of the password, the columns without a value at their defaults. */
  function NewUser(uc: UserCreate, passwordHash: string, id: Uuid, now: int): (u: User)
    ensures u.id == id && u.passwordHash == passwordHash
    ensures u.email == uc.email && u.phone == uc.phone && u.gstNumber == uc.gstNumber
    ensures u.companyName == uc.companyName && u.contactPerson == uc.contactPerson
    ensures u.pincode == uc.pincode && u.userType == uc.userType
    ensures u.businessLicense == uc.businessLicense && u.address == uc.address
    ensures u.city == uc.city && u.state == uc.state
    ensures u.createdAt == now && u.updatedAt == now
    ensures !u.isVerified && u.isActive
  {
    User(id, uc.email, uc.phone, passwordHash, uc.companyName, uc.contactPerson, uc.gstNumber,
         uc.businessLicense, uc.address, uc.city, uc.state, uc.pincode,
         false, true, uc.userType, now, now)
  }

  /** Two rows that would violate one of the table's unique constraints
      (primary key, e-mail, phone, GST number). */
  predicate SharesKey(a: User, b: User)
  {
    a.id == b.id || a.email == b.email || a.phone == b.phone || a.gstNumber == b.gstNumber
  }

  /** The table's unique constraints. */
  predicate UniqueKeys(users: seq<User>)
  {
    forall i, j :: 0 <= i < j < |users| ==> !SharesKey(users[i], users[j])
  }

  function ByEmail(email: string): User -> bool { (u: User) => u.email == email }
  function ByGst(gst: string): User -> bool { (u: User) => u.gstNumber == gst }
  function ByPhone(phone: string): User -> bool { (u: User) => u.phone == phone }
  function ById(id: Uuid): User -> bool { (u: User) => u.id == id }

  /** The first row satisfying `p`. */
  function FindUser(users: seq<User>, p: User -> bool): (r: Option<User>)
    ensures r.Some? ==> r.value in users && p(r.value)
    ensures r.None? <==> forall u :: u in users ==> !p(u)
  {
    match FirstIndex(users, p)
    case None => None
    case Some(k) => Some(users[k])
  }

  /** `get_user_by_email`. */
  function GetUserByEmail(users: seq<User>, email: string): (r: Option<User>)
    ensures r.Some? ==> r.value in users && r.value.email == email
    ensures r.None? <==> forall u :: u in users ==> u.email != email
  {
    FindUser(users, ByEmail(email))
  }

  /** `get_user_by_gst`. */
  function GetUserByGst(users: seq<User>, gst: string): (r: Option<User>)
    ensures r.Some? ==> r.value in users && r.value.gstNumber == gst
    ensures r.None? <==> forall u :: u in users ==> u.gstNumber != gst
  {
    FindUser(users, ByGst(gst))
  }

  /** `get_user_by_phone`. */
  function GetUserByPhone(users: seq<User>, phone: string): (r: Option<User>)
    ensures r.Some? ==> r.value in users && r.value.phone == phone
    ensures r.None? <==> forall u :: u in users ==> u.phone != phone
  {
    FindUser(users, ByPhone(phone))
  }

  /** The lookup by primary key that `verify_user_gst` and the refresh
      endpoint perform. */
  function GetUserById(users: seq<User>, id: Uuid): (r: Option<User>)
    ensures r.Some? ==> r.value in users && r.value.id == id
    ensures r.None? <==> forall u :: u in users ==> u.id != id
  {
    FindUser(users, ById(id))
  }

  /** Under the unique constraints a lookup by any key finds the one row
      holding that key. */
  lemma {:induction false} LookupsExact(users: seq<User>, u: User)
    requires UniqueKeys(users) && u in users
    ensures GetUserByEmail(users, u.email) == Some(u)
    ensures GetUserByGst(users, u.gstNumber) == Some(u)
    ensures GetUserByPhone(users, u.phone) == Some(u)
    ensures GetUserById(users, u.id) == Some(u)
  {
    var i :| 0 <= i < |users| && users[i] == u;
    forall j | 0 <= j < |users| && j != i
      ensures !SharesKey(users[j], u)
    {
      if j < i { assert !SharesKey(users[j], users[i]); }
      else { assert !SharesKey(users[i], users[j]); }
    }
    FindOnly(users, ByEmail(u.email), i);
    FindOnly(users, ByGst(u.gstNumber), i);
    FindOnly(users, ByPhone(u.phone), i);
    FindOnly(users, ById(u.id), i);
  }

  /** A lookup finds the only row satisfying its condition. */
  lemma FindOnly(users: seq<User>, p: User -> bool, i: nat)
    requires i < |users| && p(users[i])
    requires forall j :: 0 <= j < |users| && j != i ==> !p(users[j])
    ensures FindUser(users, p) == Some(users[i])
  {
  }

  /** `authenticate_user`: the row with that e-mail, if the password checks
      against its stored hash. */
  function AuthenticateUser(users: seq<User>, email: string, password: string,
                            verifyPassword: (string, string) -> bool): (r: Option<User>)
    ensures r.Some? ==> r.value in users && r.value.email == email
    ensures r.Some? ==> verifyPassword(password, r.value.passwordHash)
    ensures r.None? <==>
      (forall u :: u in users ==> u.email != email)
      || !verifyPassword(password, GetUserByEmail(users, email).value.passwordHash)
  {
    match GetUserByEmail(users, email)
    case None => None
    case Some(u) => if verifyPassword(password, u.passwordHash) then Some(u) else None
  }

  /** What `verify_user_gst` returns. */
  datatype GstOutcome = GstOutcome(success: bool, message: string)

  const UserNotFound := GstOutcome(false, "User not found")
  const GstVerified := GstOutcome(true, "GST verified successfully")
  const GstVerificationFailed := GstOutcome(false, "GST verification failed")

  /** A conflicting insert is refused by the database. */
  datatype DbError = IntegrityError

  /** Any GST number that passed the registration schema verifies. */
  lemma SchemaGstVerifies(gst: string)
    requires SchemaGst(gst)
    ensures VerifyGstNumber(gst).IsValid()
  {
  }

  class UserTable {
    var users: seq<User>

    ghost predicate Valid()
      reads this
    {
      UniqueKeys(users)
    }

    constructor ()
      ensures Valid() && users == []
    {
      users := [];
    }

    /** `create_user`: insert the new row; the unique constraints refuse it
        when it shares a key with a stored row. */
    method CreateUser(uc: UserCreate, passwordHash: string, newId: Uuid, now: int)
      returns (r: Result<User, DbError>)
      requires Valid()
      modifies this
      ensures Valid()
      ensures r.Ok? <==> forall v :: v in old(users) ==> !SharesKey(v, NewUser(uc, passwordHash, newId, now))
      ensures r.Ok? ==> r.value == NewUser(uc, passwordHash, newId, now) && users == old(users) + [r.value]
      ensures r.Err? ==> users == old(users)
    {
      var u := NewUser(uc, passwordHash, newId, now);
      if forall v :: v in users ==> !SharesKey(v, u) {
        users := users + [u];
        r := Ok(u);
      } else {
        r := Err(IntegrityError);
      }
    }

    /** `verify_user_gst`: mark the user verified when the mock GST check
        accepts the stored number. */
    method VerifyUserGst(userId: Uuid) returns (r: GstOutcome)
      requires Valid()
      modifies this
      ensures Valid()
      ensures FirstIndex(old(users), ById(userId)).None? ==> r == UserNotFound && users == old(users)
      ensures FirstIndex(old(users), ById(userId)).Some? ==>
        var k := FirstIndex(old(users), ById(userId)).value;
        if ValidateGstNumber(old(users)[k].gstNumber) then
          r == GstVerified && users == old(users)[k := old(users)[k].(isVerified := true)]
        else
          r == GstVerificationFailed && users == old(users)
    {
      var found := FirstIndex(users, ById(userId));
      if found.None? {
        return UserNotFound;
      }
      var k := found.value;
      var verification := VerifyGstNumber(users[k].gstNumber);
      if verification.IsValid() {
        var u := users[k].(isVerified := true);
        SameKeysUpdate(users, k, u);
        users := users[k := u];
        return GstVerified;
      }
      return GstVerificationFailed;
    }
  }

  /** Replacing a row by one with the same keys keeps the constraints. */
  lemma SameKeysUpdate(users: seq<User>, k: nat, u: User)
    requires UniqueKeys(users) && k < |users|
    requires u.id == users[k].id && u.email == users[k].email
    requires u.phone == users[k].phone && u.gstNumber == users[k].gstNumber
    ensures UniqueKeys(users[k := u])
  {
    var s := users[k := u];
    forall i, j | 0 <= i < j < |s| ensures !SharesKey(s[i], s[j]) {
      assert !SharesKey(users[i], users[j]);
    }
  }
}
