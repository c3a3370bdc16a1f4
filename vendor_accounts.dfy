/** The state-changing endpoints of the vendor portal's account handling:
    login, password-reset request and reset, initial user creation
    (packages/nexus-procurement/src/Http/Controllers/VendorPortalAuthController.php)
    and password change
    (packages/nexus-procurement/src/Http/Controllers/VendorPortalController.php).
    The `vendor_users` table is a sequence of rows with unique e-mails; the
    vendors table is a map from vendor id to status. */
module VendorAccounts {
  import opened Common
  import Text
  import opened VendorUsers

  /** An HTTP reply: a success with its status code, a refusal with its code
      and error text, or the 422 that a failed validation produces. */
  datatype Reply =
    | Done(status: int, message: string)
    | Created(user: VendorUser, temporaryPassword: string)
    | Refused(status: int, error: string)
    | ValidationFailed

  datatype LoginReply =
    | LoggedIn(user: VendorUser, token: string, tokenType: string)
    | LoginRefused(status: int, error: string)
    | LoginInvalid

  const InvalidCredentials: string := "Invalid credentials"
  const InactiveAccount: string := "Account is inactive or vendor is suspended"
  const InactiveForReset: string := "Account is inactive"
  const InvalidResetToken: string := "Invalid or expired reset token"
  const WrongCurrentPassword: string := "Current password is incorrect"
  const BearerTokenType: string := "Bearer"

  predicate EmailsUnique(users: seq<VendorUser>)
  {
    forall i, j :: 0 <= i < j < |users| ==> users[i].email != users[j].email
  }

  /** `VendorUser::where('email', $email)->first()`: the position of the first
      row with that e-mail. */
  function FindByEmail(users: seq<VendorUser>, email: string): (r: Option<nat>)
    ensures r.Some? ==> r.value < |users| && users[r.value].email == email
    ensures r.Some? ==> forall j :: 0 <= j < r.value ==> users[j].email != email
    ensures r.None? ==> forall j :: 0 <= j < |users| ==> users[j].email != email
    decreases |users|
  {
    if users == [] then None
    else if users[0].email == email then Some(0)
    else match FindByEmail(users[1..], email)
      case Some(k) => Some(k + 1)
      case None => None
  }

  /** Every row has a filled, unique e-mail and a known vendor. */
  predicate StoreInvariant(users: seq<VendorUser>, vendorStatus: map<nat, string>)
  {
    EmailsUnique(users) &&
    forall i :: 0 <= i < |users| ==> users[i].vendorId in vendorStatus && Text.Filled(users[i].email)
  }

  /** `required|string|min:8|confirmed`. */
  predicate ValidNewPassword(password: string, confirmation: string)
  {
    Text.Filled(password) && |password| >= 8 && password == confirmation
  }

  class VendorAccountStore {
    var users: seq<VendorUser>
    const vendorStatus: map<nat, string>

    ghost predicate Valid()
      reads this
    {
      StoreInvariant(users, vendorStatus)
    }

    constructor (vendorStatus: map<nat, string>)
      ensures Valid() && users == [] && this.vendorStatus == vendorStatus
    {
      users := [];
      this.vendorStatus := vendorStatus;
    }

    /** The portal-access check of the user at position `i`. */
    predicate AccessAt(i: nat)
      reads this
      requires Valid() && i < |users|
    {
      CanAccessPortal(users[i], vendorStatus[users[i].vendorId])
    }

    /** `login`: 422 when e-mail or password is blank; 401 for an unknown
        e-mail or a wrong password, decided before
        the access check; 403 without portal access; otherwise `last_login_at`
        becomes `now` and a Bearer token is issued. Nothing else changes. */
    method Login(email: string, password: string, now: Instant, issuedToken: string) returns (reply: LoginReply)
      requires Valid()
      modifies this
      ensures Valid()
      ensures var found := FindByEmail(old(users), email);
        if !Text.Filled(email) || !Text.Filled(password) then
          reply == LoginInvalid && users == old(users)
        else if found.None? || !HashMatches(password, old(users)[found.value].password) then
          reply == LoginRefused(401, InvalidCredentials) && users == old(users)
        else if !old(AccessAt(found.value)) then
          reply == LoginRefused(403, InactiveAccount) && users == old(users)
        else
          users == old(users)[found.value := old(users)[found.value].(lastLoginAt := Some(now))] &&
          reply == LoggedIn(users[found.value], issuedToken, BearerTokenType)
    {
      if !Text.Filled(email) || !Text.Filled(password) {
        return LoginInvalid;
      }
      var found := FindByEmail(users, email);
      if found.None? || !HashMatches(password, users[found.value].password) {
        return LoginRefused(401, InvalidCredentials);
      }
      var i := found.value;
      if !AccessAt(i) {
        return LoginRefused(403, InactiveAccount);
      }
      ReplaceKeepsValid(users, vendorStatus, i, users[i].(lastLoginAt := Some(now)));
      users := users[i := users[i].(lastLoginAt := Some(now))];
      reply := LoggedIn(users[i], issuedToken, BearerTokenType);
    }

    /** `requestPasswordReset`: 422 for an unknown e-mail, 403 without portal
        access, otherwise the hash of the new token is stored with an expiry
        24 hours after `now`. */
    method RequestPasswordReset(email: string, token: string, now: Instant) returns (reply: Reply)
      requires Valid()
      modifies this
      ensures Valid()
      ensures var found := FindByEmail(old(users), email);
        if !Text.Filled(email) || found.None? then
          reply == ValidationFailed && users == old(users)
        else if !old(AccessAt(found.value)) then
          reply == Refused(403, InactiveForReset) && users == old(users)
        else
          reply.Done? && reply.status == 200 &&
          users == old(users)[found.value := WithResetToken(old(users)[found.value], token, now)]
    {
      var found := FindByEmail(users, email);
      if !Text.Filled(email) || found.None? {
        return ValidationFailed;
      }
      var i := found.value;
      if !AccessAt(i) {
        return Refused(403, InactiveForReset);
      }
      var u := WithResetToken(users[i], token, now);
      ReplaceKeepsValid(users, vendorStatus, i, u);
      users := users[i := u];
      reply := Done(200, "Password reset link sent to your email");
    }

    /** `resetPassword`: 422 on failed validation; 422 when no token is
        stored, the token does not match or it expired before `now`;
        otherwise the password is replaced and the token cleared. */
    method ResetPassword(email: string, token: string, password: string, confirmation: string, now: Instant)
      returns (reply: Reply)
      requires Valid()
      modifies this
      ensures Valid()
      ensures var found := FindByEmail(old(users), email);
        if !Text.Filled(email) || found.None? || !Text.Filled(token) || !ValidNewPassword(password, confirmation) then
          reply == ValidationFailed && users == old(users)
        else if !ResetTokenAccepted(old(users)[found.value], token, now) then
          reply == Refused(422, InvalidResetToken) && users == old(users)
        else
          reply.Done? && reply.status == 200 &&
          users == old(users)[found.value := AfterPasswordReset(old(users)[found.value], password)]
    {
      var found := FindByEmail(users, email);
      if !Text.Filled(email) || found.None? || !Text.Filled(token) || !ValidNewPassword(password, confirmation) {
        return ValidationFailed;
      }
      var i := found.value;
      var u := users[i];
      if u.passwordResetToken.None? || !HashMatches(token, u.passwordResetToken.value)
         || u.passwordResetExpiresAt.None? || u.passwordResetExpiresAt.value < now {
        return Refused(422, InvalidResetToken);
      }
      ReplaceKeepsValid(users, vendorStatus, i,
                        u.(password := H(password), passwordResetToken := None, passwordResetExpiresAt := None));
      users := users[i := u.(password := H(password), passwordResetToken := None, passwordResetExpiresAt := None)];
      reply := Done(200, "Password reset successfully");
    }

    /** `changePassword` for the authenticated user at position `who`: 422 on
        failed validation, 422 when the current password does not match (the
        stored password stays), otherwise the new password's hash is stored. */
    method ChangePassword(who: nat, current: string, password: string, confirmation: string) returns (reply: Reply)
      requires Valid() && who < |users|
      modifies this
      ensures Valid()
      ensures if !Text.Filled(current) || !ValidNewPassword(password, confirmation) then
          reply == ValidationFailed && users == old(users)
        else if !HashMatches(current, old(users)[who].password) then
          reply == Refused(422, WrongCurrentPassword) && users == old(users)
        else
          reply == Done(200, "Password changed successfully") &&
          users == old(users)[who := old(users)[who].(password := H(password))]
    {
      if !Text.Filled(current) || !ValidNewPassword(password, confirmation) {
        return ValidationFailed;
      }
      if !HashMatches(current, users[who].password) {
        return Refused(422, WrongCurrentPassword);
      }
      ReplaceKeepsValid(users, vendorStatus, who, users[who].(password := H(password)));
      users := users[who := users[who].(password := H(password))];
      reply := Done(200, "Password changed successfully");
    }

    /** The validation of `createVendorUser`: the vendor exists, the e-mail
        is filled and not taken, both names are filled and at most 50 characters and a
        phone has at most 20. */
    predicate CreationValid(vendorId: nat, email: string, firstName: string, lastName: string, phone: Option<string>)
      reads this
    {
      vendorId in vendorStatus && Text.Filled(email) && FindByEmail(users, email).None? &&
      Text.Filled(firstName) && |firstName| <= 50 &&
      Text.Filled(lastName) && |lastName| <= 50 &&
      (phone.Some? ==> |phone.value| <= 20)
    }

    /** `createVendorUser`: 422 on failed validation, otherwise the new
        active user is appended and returned (with code 201) together with
        its temporary password. */
    method CreateVendorUser(vendorId: nat, email: string, firstName: string, lastName: string,
                            phone: Option<string>, isPrimaryContact: Option<bool>, tempPassword: string)
      returns (reply: Reply)
      requires Valid()
      modifies this
      ensures Valid()
      ensures !old(CreationValid(vendorId, email, firstName, lastName, phone)) ==>
        reply == ValidationFailed && users == old(users)
      ensures old(CreationValid(vendorId, email, firstName, lastName, phone)) ==>
        users == old(users) + [NewVendorUser(vendorId, email, tempPassword, firstName, lastName, phone, isPrimaryContact)] &&
        reply == Created(users[|old(users)|], tempPassword)
    {
      if !CreationValid(vendorId, email, firstName, lastName, phone) {
        return ValidationFailed;
      }
      var u := NewVendorUser(vendorId, email, tempPassword, firstName, lastName, phone, isPrimaryContact);
      AppendKeepsEmailsUnique(users, u);
      users := users + [u];
      reply := Created(u, tempPassword);
    }
  }

  /** Replacing a row by one with the same e-mail and vendor keeps the
      store's invariant. */
  lemma ReplaceKeepsValid(users: seq<VendorUser>, vendorStatus: map<nat, string>, i: nat, u: VendorUser)
    requires StoreInvariant(users, vendorStatus)
    requires i < |users| && u.email == users[i].email && u.vendorId == users[i].vendorId
    ensures StoreInvariant(users[i := u], vendorStatus)
  {
    var r := users[i := u];
    forall k | 0 <= k < |r| ensures r[k].email == users[k].email && r[k].vendorId == users[k].vendorId {
    }
  }

  /** Appending a row whose e-mail is not taken keeps e-mails unique. */
  lemma AppendKeepsEmailsUnique(users: seq<VendorUser>, u: VendorUser)
    requires EmailsUnique(users) && FindByEmail(users, u.email).None?
    ensures EmailsUnique(users + [u])
  {
  }

  // ----- properties across calls

  /** A blank e-mail never names a stored user: no row can be found by it,
      so no token is ever issued for it. */
  lemma BlankEmailNeverFound(users: seq<VendorUser>, vendorStatus: map<nat, string>, email: string)
    requires StoreInvariant(users, vendorStatus) && !Text.Filled(email)
    ensures FindByEmail(users, email).None?
  {
    assert forall j :: 0 <= j < |users| ==> users[j].email != email;
  }

  /** A successful reset followed by a second reset with the same token, at
      any later instant, is refused. */
  lemma SecondResetRefused(u: VendorUser, token: string, password: string, now: Instant, later: Instant)
    requires ResetTokenAccepted(u, token, now)
    ensures !ResetTokenAccepted(AfterPasswordReset(u, password), token, later)
  {
  }
}
