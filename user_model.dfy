/** The two mongoose models, `Users` and `Vendors`: their records, what
    `create` does to a record (the `lowercase` setters, `default`) and which
    records it refuses (`required`, `enum`, the `validate` functions), and the
    two collections as maps keyed by the stored email. */
module UserModel {
  import opened Wrappers
  import opened Text
  import opened Validator
  import opened Bcrypt

  datatype User = User(
    firstName: string, lastName: string, email: string,
    password: Digest, verified: bool, role: Option<string>)

  /** The vendor schema has neither a password nor a verified flag. */
  datatype Vendor = Vendor(
    firstName: string, lastName: string, email: string, businessName: string,
    businessCategory: string, phone: string, state: string)

  /** A record found in either collection. */
  datatype Account = UserAccount(user: User) | VendorAccount(vendor: Vendor) {
    /** `account.password`: only user records have the field. */
    function Password(): Option<Digest> {
      match this
      case UserAccount(u) => Some(u.password)
      case VendorAccount(_) => None
    }
  }

  /** The fields handed to `userModel.create`; `None` is a field left undefined. */
  datatype UserInput = UserInput(
    firstName: Option<string>, lastName: Option<string>, email: Option<string>,
    password: Option<Digest>, verified: Option<bool>, role: Option<string>)

  datatype VendorInput = VendorInput(
    firstName: Option<string>, lastName: Option<string>, email: Option<string>,
    businessName: Option<string>, businessCategory: Option<string>,
    phone: Option<string>, state: Option<string>)

  /** One entry of a mongoose `ValidationError`. */
  datatype PathError = PathError(path: string, message: string)

  const BusinessCategories: seq<string> := [
    "caterers", "bakers", "djs", "photographers", "videographers",
    "hair & makeup", "musicians"]

  const States: seq<string> := [
    "andhra pradesh", "arunachal pradesh", "assam", "bihar", "chhattisgarh",
    "goa", "gujarat", "haryana", "himachal pradesh", "jharkhand", "karnataka",
    "kerala", "madhya pradesh", "maharashtra", "manipur", "meghalaya",
    "mizoram", "nagaland", "odisha", "punjab", "rajasthan", "sikkim",
    "tamil nadu", "telangana", "tripura", "uttar pradesh", "uttarakhand",
    "west bengal", "andaman and nicobar islands", "chandigarh",
    "dadra and nagar haveli and daman and diu", "delhi", "lakshadweep",
    "ladakh", "jammu and kashmir", "puducherry"]

  /** The `lowercase: true` setter, which runs before validation. */
  function Lowered(o: Option<string>): Option<string> {
    match o
    case None => None
    case Some(s) => Some(Lower(s))
  }

  /** The message of mongoose's `required` validator. */
  function Required(path: string): PathError {
    PathError(path, "Path `" + path + "` is required.")
  }

  /** A required path whose `validate` throws `message` when the trimmed
      value is empty. A path reports only its first failing validator. */
  function TextPath(path: string, v: Option<string>, message: string): seq<PathError> {
    if !Truthy(v) then [Required(path)]
    else if IsEmptyIgnoringWhitespace(v.value) then [PathError(path, message)]
    else []
  }

  /** A required path with an `enum` whitelist. */
  function EnumPath(path: string, v: Option<string>, values: seq<string>): seq<PathError> {
    if !Truthy(v) then [Required(path)]
    else if v.value !in values then [PathError(path, "Invalid for the value " + v.value)]
    else []
  }

  /** The errors of `userAuthSchema`, in the order of its paths. */
  function UserErrors(i: UserInput, o: Oracle): seq<PathError> {
    var email := Lowered(i.email);
    var role := Lowered(i.role);
    TextPath("firstName", Lowered(i.firstName), "First name should be of atleast 2 characters")
    + TextPath("lastName", Lowered(i.lastName), "Last name should be of atleast 2 characters")
    + (if !Truthy(email) then [Required("email")]
       else if !o.isEmail(email.value) then [PathError("email", "Ivalid credentials" + email.value)]
       else [])
    // The stored value is the digest, whose encoding always meets `minlength: 8`;
    // the `validate` function discards the result of `isLength`, so it never fails.
    + (if i.password.None? then [Required("password")]
       else if EncodedLength < 8 then [PathError("password", "Path `password` is shorter than the minimum allowed length (8).")]
       else [])
    + (if role.Some? && role.value != "user" then [PathError("role", "Role type " + role.value + " is invalid")]
       else [])
  }

  /** The errors of `vendorRegisterSchema`, in the order of its paths. */
  function VendorErrors(i: VendorInput, o: Oracle): seq<PathError> {
    var email := Lowered(i.email);
    TextPath("firstName", Lowered(i.firstName), "First name is requried")
    + TextPath("lastName", Lowered(i.lastName), "First name is requried")
    + (if !Truthy(email) then [Required("email")]
       else if !o.isEmail(email.value) then [PathError("email", "Email " + email.value + " is not valid")]
       else [])
    + TextPath("businessName", Lowered(i.businessName), "Business Name is requried")
    + EnumPath("businessCategory", Lowered(i.businessCategory), BusinessCategories)
    + (if !Truthy(i.phone) then [Required("phone")]
       else if !o.isMobilePhone(i.phone.value) then [PathError("phone", "Phone number is invalid")]
       else [])
    + EnumPath("state", Lowered(i.state), States)
  }

  /** What `userAuthSchema` admits, stated on the fields as given: names not
      blank, a valid email once lowercased, a password, and a role that is
      "user" in some letter case if it is given at all. */
  predicate UserAcceptable(i: UserInput, o: Oracle) {
    && Truthy(i.firstName) && !IsEmptyIgnoringWhitespace(i.firstName.value)
    && Truthy(i.lastName) && !IsEmptyIgnoringWhitespace(i.lastName.value)
    && Truthy(i.email) && o.isEmail(Lower(i.email.value))
    && i.password.Some?
    && (i.role.Some? ==> Lower(i.role.value) == "user")
  }

  /** What `vendorRegisterSchema` admits, stated on the fields as given. */
  predicate VendorAcceptable(i: VendorInput, o: Oracle) {
    && Truthy(i.firstName) && !IsEmptyIgnoringWhitespace(i.firstName.value)
    && Truthy(i.lastName) && !IsEmptyIgnoringWhitespace(i.lastName.value)
    && Truthy(i.email) && o.isEmail(Lower(i.email.value))
    && Truthy(i.businessName) && !IsEmptyIgnoringWhitespace(i.businessName.value)
    && Truthy(i.businessCategory) && Lower(i.businessCategory.value) in BusinessCategories
    && Truthy(i.phone) && o.isMobilePhone(i.phone.value)
    && Truthy(i.state) && Lower(i.state.value) in States
  }

  /** Lowercasing changes neither emptiness nor blankness. */
  lemma LoweredKeepsText(v: Option<string>)
    ensures Truthy(Lowered(v)) <==> Truthy(v)
    ensures Truthy(v) ==> (IsEmptyIgnoringWhitespace(Lowered(v).value) <==> IsEmptyIgnoringWhitespace(v.value))
  {
    if v.Some? {
      var s := v.value;
      var l := Lower(s);
      assert |l| == |s|;
      forall i | 0 <= i < |s|
        ensures IsWhitespace(l[i]) <==> IsWhitespace(s[i])
      {
        assert l[i] == LowerChar(s[i]);
      }
      if s != "" {
        assert l[0] == LowerChar(s[0]);
      }
    }
  }

  lemma TextPathAccepts(path: string, v: Option<string>, message: string)
    ensures TextPath(path, Lowered(v), message) == [] <==> Truthy(v) && !IsEmptyIgnoringWhitespace(v.value)
  {
    LoweredKeepsText(v);
  }

  lemma EnumPathAccepts(path: string, v: Option<string>, values: seq<string>)
    ensures EnumPath(path, Lowered(v), values) == [] <==> Truthy(v) && Lower(v.value) in values
  {
    LoweredKeepsText(v);
  }

  /** `userModel.create(i)`: the stored record, or the validation errors. */
  function CreateUser(i: UserInput, o: Oracle): (r: Result<User, seq<PathError>>)
    ensures r.Ok? <==> UserAcceptable(i, o)
    ensures r.Err? ==> |r.error| > 0
    ensures r.Ok? ==> && r.value.email == Lower(i.email.value)
                      && r.value.firstName == Lower(i.firstName.value)
                      && r.value.lastName == Lower(i.lastName.value)
                      && r.value.password == i.password.value
                      && r.value.verified == i.verified.GetOr(false)
                      && r.value.role == Lowered(i.role)
  {
    TextPathAccepts("firstName", i.firstName, "First name should be of atleast 2 characters");
    TextPathAccepts("lastName", i.lastName, "Last name should be of atleast 2 characters");
    LoweredKeepsText(i.email);
    var errors := UserErrors(i, o);
    if errors == [] then
      Ok(User(Lower(i.firstName.value), Lower(i.lastName.value), Lower(i.email.value),
              i.password.value, i.verified.GetOr(false), Lowered(i.role)))
    else Err(errors)
  }

  /** `vendorRegisterModel.create(i)`: the stored record, or the validation errors. */
  function CreateVendor(i: VendorInput, o: Oracle): (r: Result<Vendor, seq<PathError>>)
    ensures r.Ok? <==> VendorAcceptable(i, o)
    ensures r.Err? ==> |r.error| > 0
    ensures r.Ok? ==> && r.value.email == Lower(i.email.value)
                      && r.value.firstName == Lower(i.firstName.value)
                      && r.value.lastName == Lower(i.lastName.value)
                      && r.value.businessName == Lower(i.businessName.value)
                      && r.value.businessCategory == Lower(i.businessCategory.value)
                      && r.value.businessCategory in BusinessCategories
                      && r.value.state == Lower(i.state.value)
                      && r.value.state in States
                      && r.value.phone == i.phone.value
  {
    TextPathAccepts("firstName", i.firstName, "First name is requried");
    TextPathAccepts("lastName", i.lastName, "First name is requried");
    TextPathAccepts("businessName", i.businessName, "Business Name is requried");
    EnumPathAccepts("businessCategory", i.businessCategory, BusinessCategories);
    EnumPathAccepts("state", i.state, States);
    LoweredKeepsText(i.email);
    LoweredKeepsText(i.phone);
    var errors := VendorErrors(i, o);
    if errors == [] then
      Ok(Vendor(Lower(i.firstName.value), Lower(i.lastName.value), Lower(i.email.value),
                Lower(i.businessName.value), Lower(i.businessCategory.value),
                i.phone.value, Lower(i.state.value)))
    else Err(errors)
  }

  /** A whitespace-only first name is refused by both schemas, with the
      schema's own message. */
  lemma BlankFirstNameRefused(u: UserInput, v: VendorInput, o: Oracle)
    requires u.firstName == v.firstName
    requires Truthy(u.firstName) && IsEmptyIgnoringWhitespace(u.firstName.value)
    ensures CreateUser(u, o).Err? && CreateUser(u, o).error[0] == PathError("firstName", "First name should be of atleast 2 characters")
    ensures CreateVendor(v, o).Err? && CreateVendor(v, o).error[0] == PathError("firstName", "First name is requried")
  {
    LoweredKeepsText(u.firstName);
  }

  /** Both collections of the database. */
  datatype Db = Db(users: map<string, User>, vendors: map<string, Vendor>)

  /** Each collection is keyed by the email stored in its records; that is its
      `unique: true` index. Nothing relates the two collections, so one email
      may be both a user and a vendor. */
  ghost predicate WellKeyed(db: Db) {
    && (forall k :: k in db.users ==> db.users[k].email == k)
    && (forall k :: k in db.vendors ==> db.vendors[k].email == k)
  }

  /** `findOne({ email })` on a collection keyed by lowercased email: the
      `lowercase` setter is applied to query filters as well. */
  function FindUser(db: Db, email: string): Option<User> {
    var k := Lower(email);
    if k in db.users then Some(db.users[k]) else None
  }

  function FindVendor(db: Db, email: string): Option<Vendor> {
    var k := Lower(email);
    if k in db.vendors then Some(db.vendors[k]) else None
  }

  /** The lookup of login and forgot-password: the users first, and the
      vendors only when no user has the email. */
  function FindAccount(db: Db, email: string): (r: Option<Account>)
    ensures r.Some? <==> Lower(email) in db.users || Lower(email) in db.vendors
    ensures r.Some? && r.value.VendorAccount? ==> Lower(email) !in db.users
    ensures r.Some? && r.value.UserAccount? ==> Lower(email) in db.users && db.users[Lower(email)] == r.value.user
    ensures r.Some? && r.value.VendorAccount? ==> Lower(email) in db.vendors && db.vendors[Lower(email)] == r.value.vendor
  {
    match FindUser(db, email)
    case Some(u) => Some(UserAccount(u))
    case None =>
      match FindVendor(db, email)
      case Some(v) => Some(VendorAccount(v))
      case None => None
  }
}
