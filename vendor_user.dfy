/** The vendor portal user (packages/nexus-procurement/src/Models/VendorUser.php):
    its fields, portal access, full name and serialised form, and the record
    updates the portal's controllers and service make to it. */
module VendorUsers {
  import opened Common
  import Text

  datatype VendorUser = VendorUser(
    vendorId: nat,
    email: string,
    password: Hash,
    firstName: string,
    lastName: string,
    phone: Option<string>,
    isPrimaryContact: bool,
    isActive: bool,
    lastLoginAt: Option<Instant>,
    passwordResetToken: Option<Hash>,
    passwordResetExpiresAt: Option<Instant>)

  /** The vendor status that admits its users to the portal. */
  const ActiveVendorStatus: string := "active"

  /** `canAccessPortal`: the user is active and its vendor's status is `active`. */
  predicate CanAccessPortal(u: VendorUser, vendorStatus: string)
  {
    u.isActive && vendorStatus == ActiveVendorStatus
  }

  /** An inactive user never reaches the portal, whatever its vendor's status. */
  lemma InactiveNeverAccesses(u: VendorUser, vendorStatus: string)
    requires !u.isActive
    ensures !CanAccessPortal(u, vendorStatus)
  {
  }

  /** The `full_name` accessor: first and last name joined by a space, trimmed. */
  function FullName(u: VendorUser): (name: string)
    ensures name == [] || (!Text.IsTrimmed(name[0]) && !Text.IsTrimmed(name[|name| - 1]))
  {
    Text.Trim(u.firstName + " " + u.lastName)
  }

  /** With an empty last name the full name is the trimmed first name. */
  lemma FullNameWithoutLastName(u: VendorUser)
    requires u.lastName == ""
    ensures FullName(u) == Text.Trim(u.firstName)
  {
    assert u.firstName + " " + u.lastName == u.firstName + [' '];
    Text.TrimRightAppend(u.firstName, ' ');
  }

  /** Names without surrounding blanks are joined by exactly one space. */
  lemma FullNameOfCleanNames(u: VendorUser)
    requires u.firstName != [] && !Text.IsTrimmed(u.firstName[0]) && !Text.IsTrimmed(u.firstName[|u.firstName| - 1])
    requires u.lastName != [] && !Text.IsTrimmed(u.lastName[0]) && !Text.IsTrimmed(u.lastName[|u.lastName| - 1])
    ensures FullName(u) == u.firstName + " " + u.lastName
  {
    var s := u.firstName + " " + u.lastName;
    assert s[0] == u.firstName[0] && s[|s| - 1] == u.lastName[|u.lastName| - 1];
    Text.TrimKeeps(s);
  }

  /** The attributes left out of the serialised form. */
  const Hidden: set<string> := {"password", "password_reset_token"}

  /** Serialisation drops the hidden attributes and keeps every other one. */
  function Serialize<V>(attributes: map<string, V>): (visible: map<string, V>)
    ensures "password" !in visible && "password_reset_token" !in visible
    ensures forall k :: k in attributes && k !in Hidden ==> k in visible && visible[k] == attributes[k]
    ensures forall k :: k in visible ==> k in attributes
  {
    map k | k in attributes && k !in Hidden :: attributes[k]
  }

  /** The row `createVendorUser` inserts: active, never logged in, no reset
      token, a hash of the temporary password; `phone` defaults to null and
      `is_primary_contact` to false. */
  function NewVendorUser(vendorId: nat, email: string, tempPassword: string, firstName: string,
                         lastName: string, phone: Option<string>, isPrimaryContact: Option<bool>): (u: VendorUser)
    ensures u.isActive && u.lastLoginAt == None
    ensures u.passwordResetToken == None && u.passwordResetExpiresAt == None
    ensures u.isPrimaryContact <==> isPrimaryContact == Some(true)
    ensures u.phone == phone && u.email == email && u.vendorId == vendorId
    ensures HashMatches(tempPassword, u.password)
  {
    var primary := match isPrimaryContact case Some(b) => b case None => false;
    VendorUser(vendorId, email, H(tempPassword), firstName, lastName, phone, primary, true, None, None, None)
  }

  /** How long a reset token stays valid: 24 hours. */
  const ResetTokenLifetime: int := 24 * SecondsPerHour

  /** The reset-token check of `resetPassword`: a token is stored, it is the
      hash of the given token, and its expiry is not before `now`. A missing
      expiry compares as earlier than any instant. */
  predicate ResetTokenAccepted(u: VendorUser, token: string, now: Instant)
  {
    && u.passwordResetToken.Some?
    && HashMatches(token, u.passwordResetToken.value)
    && u.passwordResetExpiresAt.Some?
    && !(u.passwordResetExpiresAt.value < now)
  }

  /** The record after `requestPasswordReset` stores a token at `now`. */
  function WithResetToken(u: VendorUser, token: string, now: Instant): (r: VendorUser)
    ensures r.passwordResetExpiresAt == Some(now + ResetTokenLifetime)
    ensures r.passwordResetToken == Some(H(token))
    ensures r.(passwordResetToken := u.passwordResetToken, passwordResetExpiresAt := u.passwordResetExpiresAt) == u
  {
    u.(passwordResetToken := Some(H(token)), passwordResetExpiresAt := Some(now + ResetTokenLifetime))
  }

  /** The record after a successful `resetPassword`: new password, no token. */
  function AfterPasswordReset(u: VendorUser, password: string): (r: VendorUser)
    ensures HashMatches(password, r.password)
    ensures r.passwordResetToken == None && r.passwordResetExpiresAt == None
    ensures r.(password := u.password, passwordResetToken := u.passwordResetToken,
               passwordResetExpiresAt := u.passwordResetExpiresAt) == u
  {
    u.(password := H(password), passwordResetToken := None, passwordResetExpiresAt := None)
  }

  /** A fresh token is accepted from the moment it is issued up to and
      including its expiry instant, and not a second later. */
  lemma ResetTokenWindow(u: VendorUser, token: string, issuedAt: Instant, now: Instant)
    ensures ResetTokenAccepted(WithResetToken(u, token, issuedAt), token, now) <==>
      now <= issuedAt + ResetTokenLifetime
  {
  }

  /** Only the issued token is accepted. */
  lemma OnlyIssuedTokenAccepted(u: VendorUser, token: string, other: string, issuedAt: Instant, now: Instant)
    requires other != token
    ensures !ResetTokenAccepted(WithResetToken(u, token, issuedAt), other, now)
  {
  }

  /** A token works at most once: after a reset no token is accepted. */
  lemma ResetTokenSingleUse(u: VendorUser, password: string, token: string, now: Instant)
    ensures !ResetTokenAccepted(AfterPasswordReset(u, password), token, now)
  {
  }
}
