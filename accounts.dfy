/**
 * accounts/models.py: the custom User and its role. A user carries one role out of four; the
 * role tests are equality tests, and `is_admin` also lets in staff accounts.
 */
module Accounts {

  import opened Basics

  datatype Role = Customer | Artisan | Influencer | Admin

  /** `role` defaults to 'customer'. */
  const DefaultRole: Role := Customer

  /** The parts of a user row the core reads. */
  datatype User = User(id: UserId, role: Role, isStaff: bool, email: string, username: string)

  /** `is_customer()`: the role every new account starts with. */
  predicate IsCustomer(u: User): (r: bool)
    ensures r <==> u.role == DefaultRole
  {
    u.role == Customer
  }

  /** `is_influencer()`: never true of a customer. */
  predicate IsInfluencer(u: User): (r: bool)
    ensures r ==> !IsCustomer(u)
  {
    u.role == Influencer
  }

  /** `is_artisan()`: never true of a customer or an influencer. */
  predicate IsArtisan(u: User): (r: bool)
    ensures r ==> !IsInfluencer(u) && !IsCustomer(u)
  {
    u.role == Artisan
  }

  /**
   * `is_admin()`: the admin role, or a staff account of any role. A non-staff admin passes none
   * of the other role tests.
   */
  predicate IsAdmin(u: User): (r: bool)
    ensures u.isStaff ==> r
    ensures r && !u.isStaff ==> !IsArtisan(u) && !IsInfluencer(u) && !IsCustomer(u)
  {
    u.role == Admin || u.isStaff
  }

  /** The three role tests exclude each other, and an admin-role user passes none of them. */
  lemma RoleTestsExclusive(u: User)
    ensures !(IsArtisan(u) && IsInfluencer(u))
    ensures !(IsArtisan(u) && IsCustomer(u))
    ensures !(IsInfluencer(u) && IsCustomer(u))
    ensures u.role == Admin ==> !IsArtisan(u) && !IsInfluencer(u) && !IsCustomer(u) && IsAdmin(u)
  {
  }

  /** A non-staff user is an admin exactly when the role says so; a staff user always is. */
  lemma IsAdminCases(u: User)
    ensures u.isStaff ==> IsAdmin(u)
    ensures !u.isStaff ==> (IsAdmin(u) <==> u.role == Admin)
  {
  }
}

/**
 * accounts/decorators.py: each decorator either runs the wrapped view or redirects. Every one of
 * them sends an anonymous visitor to the sign-in page before looking at any role.
 */
module AccessDecorators {

  import opened Accounts

  /** Who is asking: `request.user` is either anonymous or an authenticated user. */
  datatype Requester = Anonymous | Authenticated(user: User)

  /** The decorator's decision: run the view, or redirect to 'signin' or to 'dashboard'. */
  datatype Gate = Admit | ToSignin | ToDashboard

  /** `login_required`. */
  function LoginRequired(req: Requester): (g: Gate)
    ensures g == Admit <==> req.Authenticated?
    ensures g == ToSignin <==> req.Anonymous?
  {
    if req.Anonymous? then ToSignin else Admit
  }

  /** The common shape of the role decorators: sign-in first, then the role test. */
  function Guarded(req: Requester, allowed: bool): Gate {
    if req.Anonymous? then ToSignin else if !allowed then ToDashboard else Admit
  }

  /** `role_required(role)`: the view runs only for that exact role. */
  function RoleRequired(role: Role, req: Requester): (g: Gate)
    ensures g == Admit <==> req.Authenticated? && req.user.role == role
    ensures g == ToSignin <==> req.Anonymous?
  {
    Guarded(req, req.Authenticated? && req.user.role == role)
  }

  /** `artisan_required`. */
  function ArtisanRequired(req: Requester): (g: Gate)
    ensures g == Admit <==> req.Authenticated? && IsArtisan(req.user)
    ensures g == ToSignin <==> req.Anonymous?
  {
    Guarded(req, req.Authenticated? && IsArtisan(req.user))
  }

  /** `influencer_required`. */
  function InfluencerRequired(req: Requester): (g: Gate)
    ensures g == Admit <==> req.Authenticated? && IsInfluencer(req.user)
    ensures g == ToSignin <==> req.Anonymous?
  {
    Guarded(req, req.Authenticated? && IsInfluencer(req.user))
  }

  /** `customer_required`. */
  function CustomerRequired(req: Requester): (g: Gate)
    ensures g == Admit <==> req.Authenticated? && IsCustomer(req.user)
    ensures g == ToSignin <==> req.Anonymous?
  {
    Guarded(req, req.Authenticated? && IsCustomer(req.user))
  }

  /** `admin_required`: only `is_staff` is tested, not the admin role. */
  function AdminRequired(req: Requester): (g: Gate)
    ensures g == Admit <==> req.Authenticated? && req.user.isStaff
    ensures g == ToSignin <==> req.Anonymous?
  {
    Guarded(req, req.Authenticated? && req.user.isStaff)
  }

  /**
   * `owner_or_admin_required`: staff and admins pass, and so does every artisan; ownership of
   * the resource is never looked at.
   */
  function OwnerOrAdminRequired(req: Requester): (g: Gate)
    ensures g == Admit <==> req.Authenticated? && (IsAdmin(req.user) || IsArtisan(req.user))
    ensures g == ToSignin <==> req.Anonymous?
  {
    if req.Anonymous? then ToSignin
    else if req.user.isStaff || IsAdmin(req.user) then Admit
    else if !IsArtisan(req.user) then ToDashboard
    else Admit
  }

  /** A user with the admin role but without `is_staff` is refused by `admin_required`. */
  lemma AdminRoleWithoutStaffRefused(u: User)
    requires u.role == Admin && !u.isStaff
    ensures AdminRequired(Authenticated(u)) == ToDashboard
    ensures IsAdmin(u)
  {
  }

  /** The named role decorators agree with `role_required` for their own role. */
  lemma NamedDecoratorsAreRoleRequired(req: Requester)
    ensures ArtisanRequired(req) == RoleRequired(Artisan, req)
    ensures InfluencerRequired(req) == RoleRequired(Influencer, req)
    ensures CustomerRequired(req) == RoleRequired(Customer, req)
  {
  }

  /** At most one of the artisan, influencer and customer gates admits any given requester. */
  lemma RoleGatesExclusive(req: Requester)
    ensures !(ArtisanRequired(req) == Admit && InfluencerRequired(req) == Admit)
    ensures !(ArtisanRequired(req) == Admit && CustomerRequired(req) == Admit)
    ensures !(InfluencerRequired(req) == Admit && CustomerRequired(req) == Admit)
  {
  }
}

/**
 * accounts/forms.py: UserSignUpForm's checks and its save. The sign-up form offers only three
 * roles, so no account can be registered with the admin role.
 */
module SignupForms {

  import opened Basics
  import opened Accounts

  /** The form's own ROLE_CHOICES. */
  datatype SignupRole = ShopChoice | ArtisanChoice | InfluencerChoice

  function RoleOf(c: SignupRole): (r: Role)
    ensures r != Admin
    ensures r == Customer <==> c == ShopChoice
    ensures r == Artisan <==> c == ArtisanChoice
    ensures r == Influencer <==> c == InfluencerChoice
  {
    match c
    case ShopChoice => Customer
    case ArtisanChoice => Artisan
    case InfluencerChoice => Influencer
  }

  datatype SignupError = EmailTaken | PasswordMismatch

  datatype Checked<T> = Valid(value: T) | Invalid(error: SignupError)

  /** `clean_email`: an address some user already has is refused; otherwise it passes unchanged. */
  function CleanEmail(email: string, registered: set<string>): (r: Checked<string>)
    ensures r.Invalid? <==> email in registered
    ensures r.Invalid? ==> r.error == EmailTaken
    ensures r.Valid? ==> r.value == email
  {
    if email in registered then Invalid(EmailTaken) else Valid(email)
  }

  /** A cleaned value Python treats as true: present and non-empty. */
  predicate Given(s: Option<string>) {
    s.Some? && Filled(s.value)
  }

  /**
   * `clean_password2`: a mismatch is reported only when both passwords were given; in every
   * other case password2 comes back as it was.
   */
  function CleanPassword2(password1: Option<string>, password2: Option<string>): (r: Checked<Option<string>>)
    ensures r.Invalid? <==> Given(password1) && Given(password2) && password1.value != password2.value
    ensures r.Invalid? ==> r.error == PasswordMismatch
    ensures r.Valid? ==> r.value == password2
  {
    if Given(password1) && Given(password2) && password1.value != password2.value then Invalid(PasswordMismatch)
    else Valid(password2)
  }

  /** `save`: the username becomes the email and the role the chosen one; nothing else changes. */
  method Save(built: User, choice: SignupRole) returns (user: User)
    ensures user.username == built.email
    ensures user.role == RoleOf(choice) && user.role != Admin
    ensures user.id == built.id && user.email == built.email && user.isStaff == built.isStaff
  {
    user := built;
    user := user.(username := user.email);
    user := user.(role := RoleOf(choice));
  }
}
