/**
 * Vendor profiles: registration together with a new user or for an existing
 * one, the status guard, partial profile updates with duplicate checks on
 * shop name (ignoring case) and tax number, and the activity query. The
 * service is transactional: a failing call leaves every table as it was.
 */
module VendorService {
  import opened Common
  import opened Entities
  import opened Repositories
  import opened UserService

  /** Registration of a vendor together with its owner's account (no bank details). */
  datatype VendorCreateRequest = VendorCreateRequest(
    fullName: string,
    email: string,
    phone: Option<string>,
    password: string,
    profileImage: Option<string>,
    gender: Option<string>,
    bio: Option<string>,
    shopName: string,
    shopDescription: Option<string>,
    shopLogo: Option<string>,
    businessEmail: Option<string>,
    businessPhone: Option<string>,
    taxNumber: Option<string>)

  /** A vendor profile for a user who already has an account. */
  datatype VendorRequest = VendorRequest(
    shopName: string,
    shopDescription: Option<string>,
    shopLogo: Option<string>,
    businessEmail: Option<string>,
    businessPhone: Option<string>,
    taxNumber: Option<string>,
    bankAccountDetails: Option<string>)

  /** A partial profile update: every `None` field is left as it is. */
  datatype VendorUpdate = VendorUpdate(
    shopName: Option<string>,
    shopDescription: Option<string>,
    shopLogo: Option<string>,
    businessEmail: Option<string>,
    businessPhone: Option<string>,
    taxNumber: Option<string>,
    bankAccountDetails: Option<string>)

  // ---------------------------------------------------------------------
  // Repository queries

  /** `existsByShopNameIgnoreCase`. */
  predicate ShopNameTaken(vendors: map<VendorId, Vendor>, name: string)
  {
    exists k :: k in vendors && EqualsIgnoreCase(vendors[k].shopName, name)
  }

  /** `existsByShopNameIgnoreCaseAndIdNot`. */
  predicate ShopNameTakenByOther(vendors: map<VendorId, Vendor>, name: string, id: VendorId)
  {
    exists k :: k in vendors && k != id && EqualsIgnoreCase(vendors[k].shopName, name)
  }

  /** `existsByTaxNumber`. */
  predicate TaxNumberTaken(vendors: map<VendorId, Vendor>, tax: string)
  {
    exists k :: k in vendors && vendors[k].taxNumber == Some(tax)
  }

  /** `existsByTaxNumberAndIdNot`. */
  predicate TaxNumberTakenByOther(vendors: map<VendorId, Vendor>, tax: string, id: VendorId)
  {
    exists k :: k in vendors && k != id && vendors[k].taxNumber == Some(tax)
  }

  // ---------------------------------------------------------------------
  // Invariant of the vendor table

  /**
   * No two vendors share a shop name, even up to case, or a tax number, and
   * no user owns two vendor profiles.
   */
  predicate VendorColumnsUnique(vendors: map<VendorId, Vendor>)
  {
    forall a, b :: a in vendors && b in vendors && a != b ==>
      !EqualsIgnoreCase(vendors[a].shopName, vendors[b].shopName)
      && (vendors[a].taxNumber.Some? ==> vendors[a].taxNumber != vendors[b].taxNumber)
      && vendors[a].user != vendors[b].user
  }

  /** Adding a profile that passes the duplicate checks, for a user without one, keeps the columns unique. */
  lemma AddVendorKeepsUnique(vendors: map<VendorId, Vendor>, id: VendorId, v: Vendor)
    requires id !in vendors
    requires !ShopNameTaken(vendors, v.shopName)
    requires v.taxNumber.Some? ==> !TaxNumberTaken(vendors, v.taxNumber.value)
    requires !HasVendor(vendors, v.user)
    ensures VendorColumnsUnique(vendors) ==> VendorColumnsUnique(vendors[id := v])
  {
    if VendorColumnsUnique(vendors) {
      var after := vendors[id := v];
      forall a, b | a in after && b in after && a != b
        ensures !EqualsIgnoreCase(after[a].shopName, after[b].shopName)
        ensures after[a].taxNumber.Some? ==> after[a].taxNumber != after[b].taxNumber
        ensures after[a].user != after[b].user
      {
        EqualsIgnoreCaseEquivalence(after[a].shopName, after[b].shopName, after[a].shopName);
        if a == id {
          assert b in vendors;
        } else if b == id {
          assert a in vendors;
        }
      }
    }
  }

  /**
   * Rewriting one profile, owner kept, keeps the columns unique when the new
   * shop name is the old one up to case or used by no other vendor, and the
   * new tax number is the old one or used by no other vendor.
   */
  lemma EditVendorKeepsUnique(vendors: map<VendorId, Vendor>, id: VendorId, v: Vendor)
    requires id in vendors && v.user == vendors[id].user
    requires EqualsIgnoreCase(vendors[id].shopName, v.shopName) || !ShopNameTakenByOther(vendors, v.shopName, id)
    requires v.taxNumber.Some? ==> v.taxNumber == vendors[id].taxNumber || !TaxNumberTakenByOther(vendors, v.taxNumber.value, id)
    ensures VendorColumnsUnique(vendors) ==> VendorColumnsUnique(vendors[id := v])
  {
    if VendorColumnsUnique(vendors) {
      var after := vendors[id := v];
      forall a, b | a in after && b in after && a != b
        ensures !EqualsIgnoreCase(after[a].shopName, after[b].shopName)
        ensures after[a].taxNumber.Some? ==> after[a].taxNumber != after[b].taxNumber
        ensures after[a].user != after[b].user
      {
        if a == id {
          EqualsIgnoreCaseEquivalence(vendors[id].shopName, v.shopName, vendors[b].shopName);
          EqualsIgnoreCaseEquivalence(v.shopName, vendors[id].shopName, vendors[b].shopName);
          EqualsIgnoreCaseEquivalence(vendors[b].shopName, v.shopName, vendors[id].shopName);
        } else if b == id {
          EqualsIgnoreCaseEquivalence(vendors[id].shopName, v.shopName, vendors[a].shopName);
          EqualsIgnoreCaseEquivalence(v.shopName, vendors[id].shopName, vendors[a].shopName);
          EqualsIgnoreCaseEquivalence(vendors[a].shopName, v.shopName, vendors[id].shopName);
        }
      }
    }
  }

  // ---------------------------------------------------------------------
  // Validations

  /**
   * `validateVendorCreation`: the owner's email (ignoring case), the shop
   * name (ignoring case) and a given tax number must all be unused, checked
   * in that order.
   */
  function ValidateVendorCreation(users: map<UserId, User>, vendors: map<VendorId, Vendor>, req: VendorCreateRequest): (c: Check)
    ensures c == Pass <==>
      !EmailTaken(users, req.email) && !ShopNameTaken(vendors, req.shopName)
      && (req.taxNumber.Some? ==> !TaxNumberTaken(vendors, req.taxNumber.value))
    ensures EmailTaken(users, req.email) ==> c == Fail(AlreadyExists(Email))
    ensures !EmailTaken(users, req.email) && ShopNameTaken(vendors, req.shopName) ==> c == Fail(AlreadyExists(ShopName))
    ensures !EmailTaken(users, req.email) && !ShopNameTaken(vendors, req.shopName)
              && req.taxNumber.Some? && TaxNumberTaken(vendors, req.taxNumber.value)
      ==> c == Fail(AlreadyExists(TaxNumber))
    ensures c.Fail? ==> c.error in {AlreadyExists(Email), AlreadyExists(ShopName), AlreadyExists(TaxNumber)}
  {
    if EmailTaken(users, req.email) then Fail(AlreadyExists(Email))
    else if ShopNameTaken(vendors, req.shopName) then Fail(AlreadyExists(ShopName))
    else if req.taxNumber.Some? && TaxNumberTaken(vendors, req.taxNumber.value) then Fail(AlreadyExists(TaxNumber))
    else Pass
  }

  /** `validateVendorProfileCreation`: the shop name (ignoring case), then a given tax number, must be unused. */
  function ValidateProfileCreation(vendors: map<VendorId, Vendor>, req: VendorRequest): (c: Check)
    ensures c == Pass <==>
      !ShopNameTaken(vendors, req.shopName) && (req.taxNumber.Some? ==> !TaxNumberTaken(vendors, req.taxNumber.value))
    ensures ShopNameTaken(vendors, req.shopName) ==> c == Fail(AlreadyExists(ShopName))
    ensures !ShopNameTaken(vendors, req.shopName) && req.taxNumber.Some? && TaxNumberTaken(vendors, req.taxNumber.value)
      ==> c == Fail(AlreadyExists(TaxNumber))
    ensures c.Fail? ==> c.error in {AlreadyExists(ShopName), AlreadyExists(TaxNumber)}
  {
    if ShopNameTaken(vendors, req.shopName) then Fail(AlreadyExists(ShopName))
    else if req.taxNumber.Some? && TaxNumberTaken(vendors, req.taxNumber.value) then Fail(AlreadyExists(TaxNumber))
    else Pass
  }

  /**
   * `validateUserCanBecomeVendor`: the user must be active, must not own a
   * profile yet and must not be an administrator, checked in that order.
   */
  function ValidateUserCanBecomeVendor(vendors: map<VendorId, Vendor>, id: UserId, user: User): (c: Check)
    ensures c == Pass <==> user.isActive && !HasVendor(vendors, id) && user.role != Admin
    ensures !user.isActive ==> c == Fail(BusinessRule(InactiveUserCannotBecomeVendor))
    ensures user.isActive && HasVendor(vendors, id) ==> c == Fail(AlreadyExists(VendorProfile))
    ensures user.isActive && !HasVendor(vendors, id) && user.role == Admin ==> c == Fail(BusinessRule(AdminCannotBecomeVendor))
  {
    if !user.isActive then Fail(BusinessRule(InactiveUserCannotBecomeVendor))
    else if HasVendor(vendors, id) then Fail(AlreadyExists(VendorProfile))
    else if user.role == Admin then Fail(BusinessRule(AdminCannotBecomeVendor))
    else Pass
  }

  /** `validateStatusTransition`: the only refused move is from rejected to active. */
  function ValidateStatusTransition(current: VendorStatus, next: VendorStatus): (c: Check)
    ensures c.Fail? <==> current == Rejected && next == Active
    ensures c.Fail? ==> c.error == BusinessRule(RejectedVendorCannotBeActivated)
  {
    if current == Rejected && next == Active then Fail(BusinessRule(RejectedVendorCannotBeActivated)) else Pass
  }

  /** The guard is one step deep: a rejected vendor reaches active through any other status. */
  lemma RejectionIsNotFinal(via: VendorStatus)
    requires via != Active && via != Rejected
    ensures ValidateStatusTransition(Rejected, via).Pass? && ValidateStatusTransition(via, Active).Pass?
  {
  }

  /**
   * `validateVendorProfileUpdate` as written: the tax-number comparison
   * dereferences the stored tax number, so a vendor registered without one
   * cannot be given one. Apart from that crash it decides exactly as
   * `ValidateProfileUpdate`.
   */
  function ValidateProfileUpdateAsWritten(vendors: map<VendorId, Vendor>, id: VendorId, vendor: Vendor, upd: VendorUpdate): (c: Check)
    ensures c == Fail(NullReference) <==>
      ValidateProfileUpdate(vendors, id, vendor, upd) != Fail(AlreadyExists(ShopName))
      && upd.taxNumber.Some? && vendor.taxNumber.None?
    ensures c != Fail(NullReference) ==> c == ValidateProfileUpdate(vendors, id, vendor, upd)
  {
    if upd.shopName.Some? && !EqualsIgnoreCase(vendor.shopName, upd.shopName.value) && ShopNameTakenByOther(vendors, upd.shopName.value, id) then
      Fail(AlreadyExists(ShopName))
    else if upd.taxNumber.Some? && vendor.taxNumber.None? then
      Fail(NullReference)
    else if upd.taxNumber.Some? && vendor.taxNumber.value != upd.taxNumber.value && TaxNumberTakenByOther(vendors, upd.taxNumber.value, id) then
      Fail(AlreadyExists(TaxNumber))
    else
      Pass
  }

  /**
   * `validateVendorProfileUpdate`, null-safe: a given shop name conflicts
   * only when it differs from the current one ignoring case and another
   * vendor uses it; a given tax number conflicts only when it differs from
   * the current one (a missing one counts as different) and another vendor
   * uses it.
   */
  function ValidateProfileUpdate(vendors: map<VendorId, Vendor>, id: VendorId, vendor: Vendor, upd: VendorUpdate): (c: Check)
    ensures c == Pass <==>
      (upd.shopName.Some? ==> EqualsIgnoreCase(vendor.shopName, upd.shopName.value) || !ShopNameTakenByOther(vendors, upd.shopName.value, id))
      && (upd.taxNumber.Some? ==> vendor.taxNumber == upd.taxNumber || !TaxNumberTakenByOther(vendors, upd.taxNumber.value, id))
    ensures c.Fail? ==> c.error == AlreadyExists(ShopName) || c.error == AlreadyExists(TaxNumber)
  {
    if upd.shopName.Some? && !EqualsIgnoreCase(vendor.shopName, upd.shopName.value) && ShopNameTakenByOther(vendors, upd.shopName.value, id) then
      Fail(AlreadyExists(ShopName))
    else if upd.taxNumber.Some? && vendor.taxNumber != upd.taxNumber && TaxNumberTakenByOther(vendors, upd.taxNumber.value, id) then
      Fail(AlreadyExists(TaxNumber))
    else
      Pass
  }

  /** A vendor without a tax number who supplies a fresh one: the code as written crashes, the null-safe check passes. */
  lemma NullStoredTaxNumberCrashesUpdate()
    ensures var shop := Vendor("Corner Shop", None, None, None, None, None, None, Active, 7);
      var upd := VendorUpdate(None, None, None, None, None, Some("TX-1"), None);
      ValidateProfileUpdateAsWritten(map[1 := shop], 1, shop, upd) == Fail(NullReference)
      && ValidateProfileUpdate(map[1 := shop], 1, shop, upd) == Pass
  {
    var shop := Vendor("Corner Shop", None, None, None, None, None, None, Active, 7);
    assert !TaxNumberTakenByOther(map[1 := shop], "TX-1", 1);
  }

  /** `updateVendorEntity`: each field given in the update replaces the stored one; the rest stay. */
  function UpdateVendorEntity(v: Vendor, upd: VendorUpdate): (r: Vendor)
    ensures r.status == v.status && r.user == v.user
    ensures upd.shopName.Some? ==> r.shopName == upd.shopName.value
    ensures upd.shopName.None? ==> r.shopName == v.shopName
    ensures upd.shopDescription.Some? ==> r.shopDescription == upd.shopDescription
    ensures upd.shopDescription.None? ==> r.shopDescription == v.shopDescription
    ensures upd.shopLogo.Some? ==> r.shopLogo == upd.shopLogo
    ensures upd.shopLogo.None? ==> r.shopLogo == v.shopLogo
    ensures upd.businessEmail.Some? ==> r.businessEmail == upd.businessEmail
    ensures upd.businessEmail.None? ==> r.businessEmail == v.businessEmail
    ensures upd.businessPhone.Some? ==> r.businessPhone == upd.businessPhone
    ensures upd.businessPhone.None? ==> r.businessPhone == v.businessPhone
    ensures upd.taxNumber.Some? ==> r.taxNumber == upd.taxNumber
    ensures upd.taxNumber.None? ==> r.taxNumber == v.taxNumber
    ensures upd.bankAccountDetails.Some? ==> r.bankAccountDetails == upd.bankAccountDetails
    ensures upd.bankAccountDetails.None? ==> r.bankAccountDetails == v.bankAccountDetails
  {
    v.(shopName := if upd.shopName.Some? then upd.shopName.value else v.shopName,
       shopDescription := if upd.shopDescription.Some? then upd.shopDescription else v.shopDescription,
       shopLogo := if upd.shopLogo.Some? then upd.shopLogo else v.shopLogo,
       businessEmail := if upd.businessEmail.Some? then upd.businessEmail else v.businessEmail,
       businessPhone := if upd.businessPhone.Some? then upd.businessPhone else v.businessPhone,
       taxNumber := if upd.taxNumber.Some? then upd.taxNumber else v.taxNumber,
       bankAccountDetails := if upd.bankAccountDetails.Some? then upd.bankAccountDetails else v.bankAccountDetails)
  }

  /** Applying the same update twice is the same as applying it once; an empty update changes nothing. */
  lemma UpdateVendorEntityIdempotent(v: Vendor, upd: VendorUpdate)
    ensures UpdateVendorEntity(UpdateVendorEntity(v, upd), upd) == UpdateVendorEntity(v, upd)
    ensures UpdateVendorEntity(v, VendorUpdate(None, None, None, None, None, None, None)) == v
  {
  }

  /** `isVendorActive`: false for an unknown id, otherwise whether the status is active. */
  function IsVendorActive(vendors: map<VendorId, Vendor>, id: VendorId): (b: bool)
    ensures id !in vendors ==> !b
    ensures id in vendors ==> (b <==> vendors[id].status == Active)
  {
    id in vendors && vendors[id].status == Active
  }

  // ---------------------------------------------------------------------
  // Operations

  /**
   * `createVendorWithNewUser`: after the duplicate checks, an active user
   * with the vendor role is stored, then a pending profile it owns. A phone
   * already held by another user is not checked by the service; the unique
   * phone column then refuses the insert and the whole call is undone.
   */
  method CreateVendorWithNewUser(st: Store, req: VendorCreateRequest) returns (r: Result<VendorId>)
    requires st.Valid()
    modifies st`users, st`nextUserId, st`vendors, st`nextVendorId
    ensures st.Valid()
    ensures ValidateVendorCreation(old(st.users), old(st.vendors), req).Fail? ==>
      r == Err(ValidateVendorCreation(old(st.users), old(st.vendors), req).error)
    ensures ValidateVendorCreation(old(st.users), old(st.vendors), req).Pass? ==>
      (r == Err(UniqueViolation) <==> req.phone.Some? && PhoneTaken(old(st.users), req.phone.value))
    ensures ValidateVendorCreation(old(st.users), old(st.vendors), req).Pass?
              && !(req.phone.Some? && PhoneTaken(old(st.users), req.phone.value))
      ==> r.Ok?
    ensures r.Err? ==>
      st.users == old(st.users) && st.vendors == old(st.vendors)
      && st.nextUserId == old(st.nextUserId) && st.nextVendorId == old(st.nextVendorId)
    ensures r.Ok? ==>
      var u := old(st.nextUserId);
      u !in old(st.users) && r.value == old(st.nextVendorId) && r.value !in old(st.vendors)
      && st.users == old(st.users)[u := User(req.fullName, req.email, req.phone, req.password, VendorUser, req.profileImage, req.gender, req.bio, true)]
      && st.vendors == old(st.vendors)[r.value := Vendor(req.shopName, req.shopDescription, req.shopLogo, req.businessEmail, req.businessPhone, req.taxNumber, None, PendingApproval, u)]
    ensures old(UserColumnsUnique(st.users)) ==> UserColumnsUnique(st.users)
    ensures old(VendorColumnsUnique(st.vendors)) ==> VendorColumnsUnique(st.vendors)
    ensures old(VendorOwnersActive(st.users, st.vendors)) ==> VendorOwnersActive(st.users, st.vendors)
  {
    var check := ValidateVendorCreation(st.users, st.vendors, req);
    if check.Fail? {
      return Err(check.error);
    }
    if req.phone.Some? && PhoneTaken(st.users, req.phone.value) {
      return Err(UniqueViolation);
    }
    var u := st.nextUserId;
    var user := User(req.fullName, req.email, req.phone, req.password, VendorUser, req.profileImage, req.gender, req.bio, true);
    AddUserKeepsUnique(st.users, u, user);
    assert !HasVendor(st.vendors, u);
    var id := st.nextVendorId;
    var vendor := Vendor(req.shopName, req.shopDescription, req.shopLogo, req.businessEmail, req.businessPhone, req.taxNumber, None, PendingApproval, u);
    AddVendorKeepsUnique(st.vendors, id, vendor);
    st.users := st.users[u := user];
    st.nextUserId := st.nextUserId + 1;
    st.vendors := st.vendors[id := vendor];
    st.nextVendorId := st.nextVendorId + 1;
    r := Ok(id);
  }

  /**
   * `createVendorForExistingUser`: the user must exist and be eligible and
   * the profile pass the duplicate checks; then a pending profile with the
   * bank details is stored and the user takes the vendor role.
   */
  method CreateVendorForExistingUser(st: Store, userId: UserId, req: VendorRequest) returns (r: Result<VendorId>)
    requires st.Valid()
    modifies st`users, st`vendors, st`nextVendorId
    ensures st.Valid()
    ensures userId !in old(st.users) ==> r == Err(NotFound(UserRecord))
    ensures userId in old(st.users) ==>
      (r.Err? <==>
        ValidateUserCanBecomeVendor(old(st.vendors), userId, old(st.users)[userId]).Fail?
        || ValidateProfileCreation(old(st.vendors), req).Fail?)
    ensures userId in old(st.users) && ValidateUserCanBecomeVendor(old(st.vendors), userId, old(st.users)[userId]).Fail? ==>
      r == Err(ValidateUserCanBecomeVendor(old(st.vendors), userId, old(st.users)[userId]).error)
    ensures userId in old(st.users) && ValidateUserCanBecomeVendor(old(st.vendors), userId, old(st.users)[userId]).Pass?
              && ValidateProfileCreation(old(st.vendors), req).Fail? ==>
      r == Err(ValidateProfileCreation(old(st.vendors), req).error)
    ensures r.Err? ==> st.users == old(st.users) && st.vendors == old(st.vendors) && st.nextVendorId == old(st.nextVendorId)
    ensures r.Ok? ==>
      userId in old(st.users) && r.value == old(st.nextVendorId) && r.value !in old(st.vendors)
      && st.vendors == old(st.vendors)[r.value := Vendor(req.shopName, req.shopDescription, req.shopLogo, req.businessEmail, req.businessPhone, req.taxNumber, req.bankAccountDetails, PendingApproval, userId)]
      && st.users == old(st.users)[userId := old(st.users)[userId].(role := VendorUser)]
    ensures old(UserColumnsUnique(st.users)) ==> UserColumnsUnique(st.users)
    ensures old(VendorColumnsUnique(st.vendors)) ==> VendorColumnsUnique(st.vendors)
    ensures old(VendorOwnersActive(st.users, st.vendors)) ==> VendorOwnersActive(st.users, st.vendors)
  {
    if userId !in st.users {
      return Err(NotFound(UserRecord));
    }
    var user := st.users[userId];
    var eligible := ValidateUserCanBecomeVendor(st.vendors, userId, user);
    if eligible.Fail? {
      return Err(eligible.error);
    }
    var check := ValidateProfileCreation(st.vendors, req);
    if check.Fail? {
      return Err(check.error);
    }
    var id := st.nextVendorId;
    var vendor := Vendor(req.shopName, req.shopDescription, req.shopLogo, req.businessEmail, req.businessPhone, req.taxNumber, req.bankAccountDetails, PendingApproval, userId);
    AddVendorKeepsUnique(st.vendors, id, vendor);
    var promoted := user.(role := VendorUser);
    EqualsIgnoreCaseEquivalence(user.email, user.email, user.email);
    EditUserKeepsUnique(st.users, userId, promoted);
    st.vendors := st.vendors[id := vendor];
    st.nextVendorId := st.nextVendorId + 1;
    st.users := st.users[userId := promoted];
    r := Ok(id);
  }

  /** `updateVendorStatus`: the vendor must exist and the move pass the transition guard. */
  method UpdateVendorStatus(st: Store, id: VendorId, status: VendorStatus) returns (r: Result<Vendor>)
    requires st.Valid()
    modifies st`vendors
    ensures st.Valid()
    ensures id !in old(st.vendors) ==> r == Err(NotFound(VendorRecord))
    ensures id in old(st.vendors) ==>
      (r.Err? <==> ValidateStatusTransition(old(st.vendors)[id].status, status).Fail?)
    ensures id in old(st.vendors) && r.Err? ==> r.error == ValidateStatusTransition(old(st.vendors)[id].status, status).error
    ensures r.Err? ==> st.vendors == old(st.vendors)
    ensures r.Ok? ==>
      id in old(st.vendors) && r.value == old(st.vendors)[id].(status := status)
      && st.vendors == old(st.vendors)[id := r.value]
      && (IsVendorActive(st.vendors, id) <==> status == Active)
    ensures old(VendorColumnsUnique(st.vendors)) ==> VendorColumnsUnique(st.vendors)
    ensures old(VendorOwnersActive(st.users, st.vendors)) ==> VendorOwnersActive(st.users, st.vendors)
  {
    if id !in st.vendors {
      return Err(NotFound(VendorRecord));
    }
    var check := ValidateStatusTransition(st.vendors[id].status, status);
    if check.Fail? {
      return Err(check.error);
    }
    var updated := st.vendors[id].(status := status);
    EqualsIgnoreCaseEquivalence(updated.shopName, updated.shopName, updated.shopName);
    EditVendorKeepsUnique(st.vendors, id, updated);
    st.vendors := st.vendors[id := updated];
    r := Ok(updated);
  }

  /** `approveVendor`. */
  method ApproveVendor(st: Store, id: VendorId) returns (r: Result<Vendor>)
    requires st.Valid()
    modifies st`vendors
    ensures st.Valid()
    ensures id !in old(st.vendors) ==> r == Err(NotFound(VendorRecord))
    ensures id in old(st.vendors) ==> (r.Err? <==> old(st.vendors)[id].status == Rejected)
    ensures id in old(st.vendors) && old(st.vendors)[id].status == Rejected ==>
      r == Err(BusinessRule(RejectedVendorCannotBeActivated))
    ensures r.Ok? ==>
      st.vendors == old(st.vendors)[id := old(st.vendors)[id].(status := Active)] && r.value == st.vendors[id]
    ensures r.Ok? ==> IsVendorActive(st.vendors, id)
    ensures r.Err? ==> st.vendors == old(st.vendors)
    ensures old(VendorColumnsUnique(st.vendors)) ==> VendorColumnsUnique(st.vendors)
    ensures old(VendorOwnersActive(st.users, st.vendors)) ==> VendorOwnersActive(st.users, st.vendors)
  {
    r := UpdateVendorStatus(st, id, Active);
  }

  /** `suspendVendor`: always allowed for a stored vendor. */
  method SuspendVendor(st: Store, id: VendorId) returns (r: Result<Vendor>)
    requires st.Valid()
    modifies st`vendors
    ensures st.Valid()
    ensures r.Ok? <==> id in old(st.vendors)
    ensures r.Err? ==> r.error == NotFound(VendorRecord)
    ensures r.Ok? ==>
      st.vendors == old(st.vendors)[id := old(st.vendors)[id].(status := Suspended)] && r.value == st.vendors[id]
    ensures r.Err? ==> st.vendors == old(st.vendors)
    ensures old(VendorColumnsUnique(st.vendors)) ==> VendorColumnsUnique(st.vendors)
    ensures old(VendorOwnersActive(st.users, st.vendors)) ==> VendorOwnersActive(st.users, st.vendors)
  {
    r := UpdateVendorStatus(st, id, Suspended);
  }

  /** `rejectVendor`: always allowed for a stored vendor. */
  method RejectVendor(st: Store, id: VendorId) returns (r: Result<Vendor>)
    requires st.Valid()
    modifies st`vendors
    ensures st.Valid()
    ensures r.Ok? <==> id in old(st.vendors)
    ensures r.Err? ==> r.error == NotFound(VendorRecord)
    ensures r.Ok? ==>
      st.vendors == old(st.vendors)[id := old(st.vendors)[id].(status := Rejected)] && r.value == st.vendors[id]
    ensures r.Err? ==> st.vendors == old(st.vendors)
    ensures old(VendorColumnsUnique(st.vendors)) ==> VendorColumnsUnique(st.vendors)
    ensures old(VendorOwnersActive(st.users, st.vendors)) ==> VendorOwnersActive(st.users, st.vendors)
  {
    r := UpdateVendorStatus(st, id, Rejected);
  }

  /**
   * `updateVendorProfile`: the vendor must exist and the update pass the
   * (null-safe) duplicate checks; then the given fields replace the stored
   * ones.
   */
  method UpdateVendorProfile(st: Store, id: VendorId, upd: VendorUpdate) returns (r: Result<Vendor>)
    requires st.Valid()
    modifies st`vendors
    ensures st.Valid()
    ensures id !in old(st.vendors) ==> r == Err(NotFound(VendorRecord))
    ensures id in old(st.vendors) ==>
      (r.Err? <==> ValidateProfileUpdate(old(st.vendors), id, old(st.vendors)[id], upd).Fail?)
    ensures id in old(st.vendors) && r.Err? ==> r.error == ValidateProfileUpdate(old(st.vendors), id, old(st.vendors)[id], upd).error
    ensures r.Err? ==> st.vendors == old(st.vendors)
    ensures r.Ok? ==>
      id in old(st.vendors) && r.value == UpdateVendorEntity(old(st.vendors)[id], upd)
      && st.vendors == old(st.vendors)[id := r.value]
    ensures old(VendorColumnsUnique(st.vendors)) ==> VendorColumnsUnique(st.vendors)
    ensures old(VendorOwnersActive(st.users, st.vendors)) ==> VendorOwnersActive(st.users, st.vendors)
  {
    if id !in st.vendors {
      return Err(NotFound(VendorRecord));
    }
    var vendor := st.vendors[id];
    var check := ValidateProfileUpdate(st.vendors, id, vendor, upd);
    if check.Fail? {
      return Err(check.error);
    }
    var updated := UpdateVendorEntity(vendor, upd);
    EqualsIgnoreCaseEquivalence(vendor.shopName, vendor.shopName, vendor.shopName);
    EditVendorKeepsUnique(st.vendors, id, updated);
    st.vendors := st.vendors[id := updated];
    r := Ok(updated);
  }
}
