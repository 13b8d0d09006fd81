/**
 * User accounts: registration as a customer, partial profile updates with
 * duplicate checks on email (ignoring case) and phone, role changes that
 * never take a vendor's role away, activation, deactivation that spares
 * vendor owners, and deletion that refuses a vendor owner.
 */
module UserService {
  import opened Common
  import opened Entities
  import opened Repositories

  /** A registration request; `None` stands for a field the request leaves null. */
  datatype UserRequest = UserRequest(
    fullName: string,
    email: string,
    phone: Option<string>,
    password: string,
    profileImage: Option<string>,
    gender: Option<string>,
    bio: Option<string>)

  /** A partial update: every `None` field is left as it is. */
  datatype UserUpdate = UserUpdate(
    fullName: Option<string>,
    email: Option<string>,
    phone: Option<string>,
    profileImage: Option<string>,
    gender: Option<string>,
    bio: Option<string>)

  // ---------------------------------------------------------------------
  // Repository queries

  /** `existsByEmailIgnoreCase`. */
  predicate EmailTaken(users: map<UserId, User>, email: string)
  {
    exists k :: k in users && EqualsIgnoreCase(users[k].email, email)
  }

  /** `existsByEmailIgnoreCaseAndIdNot`. */
  predicate EmailTakenByOther(users: map<UserId, User>, email: string, id: UserId)
  {
    exists k :: k in users && k != id && EqualsIgnoreCase(users[k].email, email)
  }

  /** `existsByPhone`. */
  predicate PhoneTaken(users: map<UserId, User>, phone: string)
  {
    exists k :: k in users && users[k].phone == Some(phone)
  }

  /** `existsByPhoneAndIdNot`. */
  predicate PhoneTakenByOther(users: map<UserId, User>, phone: string, id: UserId)
  {
    exists k :: k in users && k != id && users[k].phone == Some(phone)
  }

  /** The user has a vendor profile (`user.getVendor() != null`, `findByUserId(..).isPresent()`). */
  predicate HasVendor(vendors: map<VendorId, Vendor>, u: UserId)
  {
    exists v :: v in vendors && vendors[v].user == u
  }

  // ---------------------------------------------------------------------
  // Invariants of the user table

  /**
   * No two users share an email, even up to case, and no two share a
   * phone number. (The unique columns only ask for exact equality.)
   */
  predicate UserColumnsUnique(users: map<UserId, User>)
  {
    forall a, b :: a in users && b in users && a != b ==>
      !EqualsIgnoreCase(users[a].email, users[b].email)
      && (users[a].phone.Some? ==> users[a].phone != users[b].phone)
  }

  /** The owner of every vendor profile is a stored, active user with the vendor role. */
  predicate VendorOwnersActive(users: map<UserId, User>, vendors: map<VendorId, Vendor>)
  {
    forall v :: v in vendors ==>
      vendors[v].user in users && users[vendors[v].user].role == VendorUser && users[vendors[v].user].isActive
  }

  /** Adding a user whose email and phone pass the duplicate checks keeps the columns unique. */
  lemma AddUserKeepsUnique(users: map<UserId, User>, id: UserId, u: User)
    requires id !in users
    requires !EmailTaken(users, u.email)
    requires u.phone.Some? ==> !PhoneTaken(users, u.phone.value)
    ensures UserColumnsUnique(users) ==> UserColumnsUnique(users[id := u])
  {
    if UserColumnsUnique(users) {
      var after := users[id := u];
      forall a, b | a in after && b in after && a != b
        ensures !EqualsIgnoreCase(after[a].email, after[b].email)
        ensures after[a].phone.Some? ==> after[a].phone != after[b].phone
      {
        EqualsIgnoreCaseEquivalence(after[a].email, after[b].email, after[a].email);
        if a == id {
          assert b in users;
        } else if b == id {
          assert a in users;
        }
      }
    }
  }

  /**
   * Rewriting one user keeps the columns unique when the new email is the
   * old one up to case or used by nobody else, and the new phone is the old
   * one or used by nobody else.
   */
  lemma EditUserKeepsUnique(users: map<UserId, User>, id: UserId, u: User)
    requires id in users
    requires EqualsIgnoreCase(users[id].email, u.email) || !EmailTakenByOther(users, u.email, id)
    requires u.phone.Some? ==> u.phone == users[id].phone || !PhoneTakenByOther(users, u.phone.value, id)
    ensures UserColumnsUnique(users) ==> UserColumnsUnique(users[id := u])
  {
    if UserColumnsUnique(users) {
      var after := users[id := u];
      forall a, b | a in after && b in after && a != b
        ensures !EqualsIgnoreCase(after[a].email, after[b].email)
        ensures after[a].phone.Some? ==> after[a].phone != after[b].phone
      {
        if a == id {
          EqualsIgnoreCaseEquivalence(users[id].email, u.email, users[b].email);
          EqualsIgnoreCaseEquivalence(u.email, users[id].email, users[b].email);
          EqualsIgnoreCaseEquivalence(users[b].email, u.email, users[id].email);
        } else if b == id {
          EqualsIgnoreCaseEquivalence(users[id].email, u.email, users[a].email);
          EqualsIgnoreCaseEquivalence(u.email, users[id].email, users[a].email);
          EqualsIgnoreCaseEquivalence(users[a].email, u.email, users[id].email);
        }
      }
    }
  }

  // ---------------------------------------------------------------------
  // Validations

  /** `validateUserCreation`: the email, ignoring case, then a given phone, must be unused. */
  function ValidateUserCreation(users: map<UserId, User>, req: UserRequest): (c: Check)
    ensures c == Pass <==> !EmailTaken(users, req.email) && (req.phone.Some? ==> !PhoneTaken(users, req.phone.value))
    ensures EmailTaken(users, req.email) ==> c == Fail(AlreadyExists(Email))
    ensures c.Fail? && !EmailTaken(users, req.email) ==> c == Fail(AlreadyExists(Phone))
  {
    if EmailTaken(users, req.email) then Fail(AlreadyExists(Email))
    else if req.phone.Some? && PhoneTaken(users, req.phone.value) then Fail(AlreadyExists(Phone))
    else Pass
  }

  /**
   * `validateUserUpdate` as written: the phone comparison dereferences the
   * stored phone, so a user registered without one cannot be given one.
   * Apart from that crash it decides exactly as `ValidateUserUpdate`.
   */
  function ValidateUserUpdateAsWritten(users: map<UserId, User>, id: UserId, user: User, upd: UserUpdate): (c: Check)
    ensures c == Fail(NullReference) <==>
      ValidateUserUpdate(users, id, user, upd) != Fail(AlreadyExists(Email))
      && upd.phone.Some? && user.phone.None?
    ensures c != Fail(NullReference) ==> c == ValidateUserUpdate(users, id, user, upd)
  {
    if upd.email.Some? && !EqualsIgnoreCase(user.email, upd.email.value) && EmailTakenByOther(users, upd.email.value, id) then
      Fail(AlreadyExists(Email))
    else if upd.phone.Some? && user.phone.None? then
      Fail(NullReference)
    else if upd.phone.Some? && user.phone.value != upd.phone.value && PhoneTakenByOther(users, upd.phone.value, id) then
      Fail(AlreadyExists(Phone))
    else
      Pass
  }

  /**
   * `validateUserUpdate`, null-safe: a given email must be the current one
   * up to case or unused by other users; a given phone must be the current
   * one or unused by other users. A missing stored phone counts as different.
   */
  function ValidateUserUpdate(users: map<UserId, User>, id: UserId, user: User, upd: UserUpdate): (c: Check)
    ensures c == Pass <==>
      (upd.email.Some? ==> EqualsIgnoreCase(user.email, upd.email.value) || !EmailTakenByOther(users, upd.email.value, id))
      && (upd.phone.Some? ==> user.phone == upd.phone || !PhoneTakenByOther(users, upd.phone.value, id))
    ensures c.Fail? ==> c.error == AlreadyExists(Email) || c.error == AlreadyExists(Phone)
  {
    if upd.email.Some? && !EqualsIgnoreCase(user.email, upd.email.value) && EmailTakenByOther(users, upd.email.value, id) then
      Fail(AlreadyExists(Email))
    else if upd.phone.Some? && user.phone != upd.phone && PhoneTakenByOther(users, upd.phone.value, id) then
      Fail(AlreadyExists(Phone))
    else
      Pass
  }

  /** A user without a phone who asks for a fresh one: the code as written crashes, the null-safe check passes. */
  lemma NullStoredPhoneCrashesUpdate()
    ensures var ann := User("Ann", "ann@shop.test", None, "secret", Customer, None, None, None, true);
      var upd := UserUpdate(None, None, Some("5550100"), None, None, None);
      ValidateUserUpdateAsWritten(map[1 := ann], 1, ann, upd) == Fail(NullReference)
      && ValidateUserUpdate(map[1 := ann], 1, ann, upd) == Pass
  {
    var ann := User("Ann", "ann@shop.test", None, "secret", Customer, None, None, None, true);
    assert !PhoneTakenByOther(map[1 := ann], "5550100", 1);
  }

  /** `updateUserEntity`: each field given in the update replaces the stored one; the rest stay. */
  function UpdateUserEntity(u: User, upd: UserUpdate): (r: User)
    ensures r.password == u.password && r.role == u.role && r.isActive == u.isActive
    ensures upd.fullName.Some? ==> r.fullName == upd.fullName.value
    ensures upd.fullName.None? ==> r.fullName == u.fullName
    ensures upd.email.Some? ==> r.email == upd.email.value
    ensures upd.email.None? ==> r.email == u.email
    ensures upd.phone.Some? ==> r.phone == upd.phone
    ensures upd.phone.None? ==> r.phone == u.phone
    ensures upd.profileImage.Some? ==> r.profileImage == upd.profileImage
    ensures upd.profileImage.None? ==> r.profileImage == u.profileImage
    ensures upd.gender.Some? ==> r.gender == upd.gender
    ensures upd.gender.None? ==> r.gender == u.gender
    ensures upd.bio.Some? ==> r.bio == upd.bio
    ensures upd.bio.None? ==> r.bio == u.bio
  {
    u.(fullName := if upd.fullName.Some? then upd.fullName.value else u.fullName,
       email := if upd.email.Some? then upd.email.value else u.email,
       phone := if upd.phone.Some? then upd.phone else u.phone,
       profileImage := if upd.profileImage.Some? then upd.profileImage else u.profileImage,
       gender := if upd.gender.Some? then upd.gender else u.gender,
       bio := if upd.bio.Some? then upd.bio else u.bio)
  }

  /** Applying the same update twice is the same as applying it once; an empty update changes nothing. */
  lemma UpdateUserEntityIdempotent(u: User, upd: UserUpdate)
    ensures UpdateUserEntity(UpdateUserEntity(u, upd), upd) == UpdateUserEntity(u, upd)
    ensures UpdateUserEntity(u, UserUpdate(None, None, None, None, None, None)) == u
  {
  }

  /** The role rule of `updateUserRole`: a vendor user keeps the vendor role. */
  function ValidateRoleChange(current: Role, next: Role): (c: Check)
    ensures c.Fail? <==> current == VendorUser && next != VendorUser
    ensures c.Fail? ==> c.error == BusinessRule(VendorRoleIsLocked)
  {
    if current == VendorUser && next != VendorUser then Fail(BusinessRule(VendorRoleIsLocked)) else Pass
  }

  /** The rule of `deactivateUser`: a vendor user cannot be deactivated. */
  function ValidateDeactivation(current: Role): (c: Check)
    ensures c.Fail? <==> current == VendorUser
    ensures c.Fail? ==> c.error == BusinessRule(VendorCannotBeDeactivated)
  {
    if current == VendorUser then Fail(BusinessRule(VendorCannotBeDeactivated)) else Pass
  }

  /** The owner of a vendor profile can neither lose the vendor role nor be deactivated. */
  lemma VendorOwnerIsProtected(users: map<UserId, User>, vendors: map<VendorId, Vendor>, u: UserId, next: Role)
    requires VendorOwnersActive(users, vendors) && HasVendor(vendors, u)
    ensures u in users && users[u].isActive
    ensures ValidateDeactivation(users[u].role).Fail?
    ensures next != VendorUser ==> ValidateRoleChange(users[u].role, next).Fail?
  {
    var v :| v in vendors && vendors[v].user == u;
  }

  // ---------------------------------------------------------------------
  // Operations

  /** `findUserById`. */
  function FindUserById(users: map<UserId, User>, id: UserId): (r: Result<User>)
    ensures r.Ok? <==> id in users
    ensures r.Ok? ==> r.value == users[id]
    ensures r.Err? ==> r.error == NotFound(UserRecord)
  {
    if id in users then Ok(users[id]) else Err(NotFound(UserRecord))
  }

  /** `isUserActive`: false for an unknown id, otherwise the stored flag. */
  function IsUserActive(users: map<UserId, User>, id: UserId): (b: bool)
    ensures b <==> FindUserById(users, id).Ok? && FindUserById(users, id).value.isActive
    ensures id !in users ==> !b
  {
    id in users && users[id].isActive
  }

  /**
   * `createUser`: a request passing the duplicate checks is stored under
   * the next key as an active customer.
   */
  method CreateUser(st: Store, req: UserRequest) returns (r: Result<UserId>)
    requires st.Valid()
    modifies st`users, st`nextUserId
    ensures st.Valid()
    ensures r.Err? <==> ValidateUserCreation(old(st.users), req).Fail?
    ensures r.Err? ==>
      r.error == ValidateUserCreation(old(st.users), req).error
      && st.users == old(st.users) && st.nextUserId == old(st.nextUserId)
    ensures r.Ok? ==>
      r.value == old(st.nextUserId) && r.value !in old(st.users)
      && st.users == old(st.users)[r.value := User(req.fullName, req.email, req.phone, req.password, Customer, req.profileImage, req.gender, req.bio, true)]
      && IsUserActive(st.users, r.value)
    ensures old(UserColumnsUnique(st.users)) ==> UserColumnsUnique(st.users)
    ensures old(VendorOwnersActive(st.users, st.vendors)) ==> VendorOwnersActive(st.users, st.vendors)
  {
    var check := ValidateUserCreation(st.users, req);
    if check.Fail? {
      return Err(check.error);
    }
    var id := st.nextUserId;
    var user := User(req.fullName, req.email, req.phone, req.password, Customer, req.profileImage, req.gender, req.bio, true);
    AddUserKeepsUnique(st.users, id, user);
    st.users := st.users[id := user];
    st.nextUserId := st.nextUserId + 1;
    r := Ok(id);
  }

  /**
   * `updateUser`: the user must exist and the update pass the (null-safe)
   * duplicate checks; then the given fields replace the stored ones.
   */
  method UpdateUser(st: Store, id: UserId, upd: UserUpdate) returns (r: Result<User>)
    requires st.Valid()
    modifies st`users
    ensures st.Valid()
    ensures id !in old(st.users) ==> r == Err(NotFound(UserRecord))
    ensures id in old(st.users) ==>
      (r.Err? <==> ValidateUserUpdate(old(st.users), id, old(st.users)[id], upd).Fail?)
    ensures id in old(st.users) && r.Err? ==> r.error == ValidateUserUpdate(old(st.users), id, old(st.users)[id], upd).error
    ensures r.Err? ==> st.users == old(st.users)
    ensures r.Ok? ==>
      id in old(st.users) && r.value == UpdateUserEntity(old(st.users)[id], upd)
      && st.users == old(st.users)[id := r.value]
    ensures old(UserColumnsUnique(st.users)) ==> UserColumnsUnique(st.users)
    ensures old(VendorOwnersActive(st.users, st.vendors)) ==> VendorOwnersActive(st.users, st.vendors)
  {
    if id !in st.users {
      return Err(NotFound(UserRecord));
    }
    var user := st.users[id];
    var check := ValidateUserUpdate(st.users, id, user, upd);
    if check.Fail? {
      return Err(check.error);
    }
    var updated := UpdateUserEntity(user, upd);
    EqualsIgnoreCaseEquivalence(user.email, user.email, user.email);
    EditUserKeepsUnique(st.users, id, updated);
    st.users := st.users[id := updated];
    r := Ok(updated);
  }

  /** `updateUserRole`: any role change is accepted except taking the vendor role away. */
  method UpdateUserRole(st: Store, id: UserId, role: Role) returns (r: Result<User>)
    requires st.Valid()
    modifies st`users
    ensures st.Valid()
    ensures id !in old(st.users) ==> r == Err(NotFound(UserRecord))
    ensures id in old(st.users) ==>
      (r.Err? <==> ValidateRoleChange(old(st.users)[id].role, role).Fail?)
    ensures id in old(st.users) && r.Err? ==> r.error == ValidateRoleChange(old(st.users)[id].role, role).error
    ensures r.Err? ==> st.users == old(st.users)
    ensures r.Ok? ==>
      id in old(st.users) && r.value == old(st.users)[id].(role := role)
      && st.users == old(st.users)[id := r.value]
    ensures id in old(st.users) && old(st.users)[id].role == VendorUser ==> st.users[id].role == VendorUser
    ensures old(UserColumnsUnique(st.users)) ==> UserColumnsUnique(st.users)
    ensures old(VendorOwnersActive(st.users, st.vendors)) ==> VendorOwnersActive(st.users, st.vendors)
  {
    if id !in st.users {
      return Err(NotFound(UserRecord));
    }
    var check := ValidateRoleChange(st.users[id].role, role);
    if check.Fail? {
      return Err(check.error);
    }
    var updated := st.users[id].(role := role);
    EqualsIgnoreCaseEquivalence(updated.email, updated.email, updated.email);
    EditUserKeepsUnique(st.users, id, updated);
    st.users := st.users[id := updated];
    r := Ok(updated);
  }

  /** `deactivateUser`: a vendor user is refused; anyone else is marked inactive. */
  method DeactivateUser(st: Store, id: UserId) returns (r: Check)
    requires st.Valid()
    modifies st`users
    ensures st.Valid()
    ensures id !in old(st.users) ==> r == Fail(NotFound(UserRecord))
    ensures id in old(st.users) ==>
      (r.Fail? <==> ValidateDeactivation(old(st.users)[id].role).Fail?)
    ensures id in old(st.users) && r.Fail? ==> r == ValidateDeactivation(old(st.users)[id].role)
    ensures r.Fail? ==> st.users == old(st.users)
    ensures r.Pass? ==>
      id in old(st.users) && st.users == old(st.users)[id := old(st.users)[id].(isActive := false)]
      && !IsUserActive(st.users, id)
    ensures old(UserColumnsUnique(st.users)) ==> UserColumnsUnique(st.users)
    ensures old(VendorOwnersActive(st.users, st.vendors)) ==> VendorOwnersActive(st.users, st.vendors)
  {
    if id !in st.users {
      return Fail(NotFound(UserRecord));
    }
    var check := ValidateDeactivation(st.users[id].role);
    if check.Fail? {
      return check;
    }
    var updated := st.users[id].(isActive := false);
    EqualsIgnoreCaseEquivalence(updated.email, updated.email, updated.email);
    EditUserKeepsUnique(st.users, id, updated);
    st.users := st.users[id := updated];
    r := Pass;
  }

  /** `activateUser`: any stored user is marked active. */
  method ActivateUser(st: Store, id: UserId) returns (r: Check)
    requires st.Valid()
    modifies st`users
    ensures st.Valid()
    ensures r.Fail? <==> id !in old(st.users)
    ensures r.Fail? ==> r.error == NotFound(UserRecord) && st.users == old(st.users)
    ensures r.Pass? ==>
      st.users == old(st.users)[id := old(st.users)[id].(isActive := true)]
      && IsUserActive(st.users, id)
    ensures old(UserColumnsUnique(st.users)) ==> UserColumnsUnique(st.users)
    ensures old(VendorOwnersActive(st.users, st.vendors)) ==> VendorOwnersActive(st.users, st.vendors)
  {
    if id !in st.users {
      return Fail(NotFound(UserRecord));
    }
    var updated := st.users[id].(isActive := true);
    EqualsIgnoreCaseEquivalence(updated.email, updated.email, updated.email);
    EditUserKeepsUnique(st.users, id, updated);
    st.users := st.users[id := updated];
    r := Pass;
  }

  /** A row of another table still points at the user: a cart it owns or a product it sells. */
  predicate ReferencedUser(carts: map<CartId, CartRow>, products: map<ProductId, Product>, u: UserId)
  {
    (exists c :: c in carts && carts[c].user == u) || (exists p :: p in products && products[p].vendor == u)
  }

  /**
   * `deleteUser`: refused for the owner of a vendor profile. Otherwise the
   * user goes with the orders and reviews it owns; a cart or a product that
   * still points at the user makes the commit fail on its foreign key.
   */
  method DeleteUser(st: Store, id: UserId) returns (r: Check)
    requires st.Valid()
    modifies st`users, st`orders, st`reviews
    ensures st.Valid()
    ensures id !in old(st.users) ==> r == Fail(NotFound(UserRecord))
    ensures id in old(st.users) && HasVendor(st.vendors, id) ==> r == Fail(BusinessRule(UserOwnsVendor))
    ensures id in old(st.users) && !HasVendor(st.vendors, id) ==>
      (r == Fail(ForeignKeyViolation) <==> ReferencedUser(st.carts, st.products, id))
    ensures id in old(st.users) && !HasVendor(st.vendors, id) && !ReferencedUser(st.carts, st.products, id) ==> r.Pass?
    ensures r.Fail? ==> st.users == old(st.users) && st.orders == old(st.orders) && st.reviews == old(st.reviews)
    ensures r.Pass? ==>
      st.users == old(st.users) - {id}
      && st.orders == (map o | o in old(st.orders) && old(st.orders)[o].user != id :: old(st.orders)[o])
      && st.reviews == (map k | k in old(st.reviews) && old(st.reviews)[k].user != id :: old(st.reviews)[k])
    ensures old(UserColumnsUnique(st.users)) ==> UserColumnsUnique(st.users)
    ensures old(VendorOwnersActive(st.users, st.vendors)) ==> VendorOwnersActive(st.users, st.vendors)
  {
    if id !in st.users {
      return Fail(NotFound(UserRecord));
    }
    if HasVendor(st.vendors, id) {
      return Fail(BusinessRule(UserOwnsVendor));
    }
    if ReferencedUser(st.carts, st.products, id) {
      return Fail(ForeignKeyViolation);
    }
    st.users := st.users - {id};
    st.orders := map o | o in st.orders && st.orders[o].user != id :: st.orders[o];
    st.reviews := map k | k in st.reviews && st.reviews[k].user != id :: st.reviews[k];
    r := Pass;
  }
}
