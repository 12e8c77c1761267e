/** An account of the platform, with its role. */
module Users {
  import opened JavaLang
  import opened Roles
  import opened Names

  class User {
    var firstName: Option<string>
    var lastName: Option<string>
    var email: Option<string>
    var password: Option<string>
    var phoneNumber: Option<string>
    var role: Option<Role>
    var avatarUrl: Option<string>
    var emailVerified: Option<bool>
    var phoneVerified: Option<bool>
    var lastLoginAt: Option<int>
    var passwordResetToken: Option<string>
    var passwordResetExpiresAt: Option<int>
    var emailVerificationToken: Option<string>
    var emailVerificationExpiresAt: Option<int>
    var businessId: Option<int>

    /** A new account has verified neither its e-mail nor its phone and has never logged in. */
    constructor (firstName: Option<string>, lastName: Option<string>, email: Option<string>, password: Option<string>, role: Option<Role>)
      ensures this.firstName == firstName && this.lastName == lastName && this.email == email
      ensures this.password == password && this.role == role
      ensures emailVerified == Some(false) && phoneVerified == Some(false) && lastLoginAt == None
      ensures phoneNumber == None && avatarUrl == None && businessId == None
      ensures passwordResetToken == None && passwordResetExpiresAt == None
      ensures emailVerificationToken == None && emailVerificationExpiresAt == None
    {
      this.firstName, this.lastName, this.email, this.password, this.role := firstName, lastName, email, password, role;
      emailVerified, phoneVerified, lastLoginAt := Some(false), Some(false), None;
      phoneNumber, avatarUrl, businessId := None, None, None;
      passwordResetToken, passwordResetExpiresAt := None, None;
      emailVerificationToken, emailVerificationExpiresAt := None, None;
    }

    /** "first last", each null name rendered as "null". */
    function FullName(): string
      reads this`firstName, this`lastName
    {
      Render(firstName) + " " + Render(lastName)
    }

    predicate IsBusinessAdmin()
      reads this`role
    {
      role == Some(BUSINESS_OWNER) || role == Some(BUSINESS_ADMIN)
    }

    predicate IsSuperAdmin()
      reads this`role
    {
      role == Some(SUPER_ADMIN)
    }

    method UpdateLastLogin(now: int)
      modifies this`lastLoginAt
      ensures lastLoginAt == Some(now)
    {
      lastLoginAt := Some(now);
    }
  }

  /** The full name is both names joined by one space, an unset name rendered
      as "null"; it gives both names back when the first has no space. */
  lemma FullNameSplits(u: User)
    ensures u.FullName() == Render(u.firstName) + " " + Render(u.lastName)
    ensures u.lastName.None? ==> u.FullName() == Render(u.firstName) + " null"
    ensures ' ' !in Render(u.firstName) ==>
              SplitAtFirstSpace(u.FullName()) == (Render(u.firstName), Render(u.lastName))
  {
    if ' ' !in Render(u.firstName) {
      SplitJoined(Render(u.firstName), Render(u.lastName));
    }
  }

  /** Business admins are owners and admins of a business, the super admin is
      neither, and professionals, customers and role-less accounts are neither kind. */
  lemma RoleChecks(u: User)
    ensures u.IsBusinessAdmin() <==> u.role == Some(BUSINESS_OWNER) || u.role == Some(BUSINESS_ADMIN)
    ensures u.IsSuperAdmin() <==> u.role == Some(SUPER_ADMIN)
    ensures !(u.IsSuperAdmin() && u.IsBusinessAdmin())
    ensures u.role == Some(PROFESSIONAL) || u.role == Some(CUSTOMER) || u.role == None ==> !u.IsSuperAdmin() && !u.IsBusinessAdmin()
  {
  }
}
