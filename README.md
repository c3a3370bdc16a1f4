# Verified model of the Nexus ERP business rules

This project models in Dafny the small rule sets at the core of the Nexus ERP
repository and proves properties of them:

- the tenant lifecycle workflow: four states, five guarded transitions, and
  hooks that write the status enum and soft-delete or restore the tenant;
- the status predicates and the `active` scope of the core tenant model;
- the user account's login-lockout counter (five failures lock the account
  for 30 minutes), its lock and MFA predicates and its last-login stamp.
  `isAdmin` and `isActive` are the predicates `UserAccount.IsAdmin` and
  `UserAccount.IsActive`;
- the role authorization policy;
- the CRM load-balancing assignment: the least-loaded user, first in list
  order on ties;
- the serial-number override action with its ordered checks and its log;
- the vendor portal:
  - the user model's portal access, full name and hidden fields;
  - the middleware's decision chain;
  - login, the password-reset token lifecycle, password change and user
    creation;
  - invoice submission, by the service and by the HTTP endpoint with its
    validation rules;
  - purchase-order access;
  - the payment-status summary;
  - the two recent-activity feeds;
- custom unit registration: (code, owner) uniqueness, conversion edges to
  earlier units named by code, and factors stored as fixed-point decimals
  with twelve fractional digits.

## How the model is built

- **Modules.** There is one module per source concern.
  - `Common` holds Option, Result, the instant type and the hash.
  - `Text` holds PHP's `trim` and Laravel's `required` test on strings.
- **Mutable state.** Code that updates rows in place becomes a class whose
  fields are the columns or the table. Each method is tied by its `ensures`
  to a pure function of the old state. The lemmas about those functions
  carry the properties that span several calls.
- **Refusals.** A refused transition or request leaves the state unchanged
  and says so in its result. Callers are not required to avoid it.
- **Time.** Time is an integer number of seconds, passed in as `now`.
- **Hashing.** `Hash::make` is the injective constructor `H`, so
  `Hash::check(p, h)` is `h == H(p)`.
- **Random values.** Random tokens and temporary passwords are parameters.
- **Database.** Database tables are sequences or maps, and queries are
  functions over them. The load balancer's per-user assignment count is a
  given function from user to workload.
- **Custom units.** The registrar's implementation is not part of this
  model. Only its interface and a feature test exist, so the model follows
  them and makes these choices:
  - a conversion target is resolved among the same owner's custom units by
    code. Codes are unique per owner, so at most one unit matches;
  - a factor is written as digits with an optional fraction of one to twelve
    digits, and it must be positive;
  - a conversion is linear only when the request says true; an absent
    `is_linear` is false;
  - the unit's factor is checked before the conversions. The conversions are
    checked in order, and any failure stores nothing.

## Where the specification and the code differ

The model follows the code: PHP's `null === null` makes a user without a
tenant pass the tenant test of `delete` for a global role (one whose
`team_id` is null). `RolePolicy.GlobalRoleDeletion` states this.

## Model

| member | source | states |
|---|---|---|
| TenantLifecycle.Fire | src/Models/Tenant.php:76-185 | A transition fires iff the tenant is in one of its `from` states and its guard holds. Afterwards the state is the `to` state and the status enum agrees with the workflow state. Domain and billing e-mail are kept. |
| TenantLifecycle.Guard | src/Models/Tenant.php:76-185 | Definition of the five guards. `activate` needs domain, billing e-mail and an approver, and `suspend` has no guard. `reactivate` needs the issue resolved, `archive` admin approval, and `restore` super-admin approval and intact data. The Condition lemmas state each one. |
| TenantLifecycle.Allowed | src/Models/Tenant.php:76-185 | Definition: the tenant is in one of the transition's `from` states and its guard holds. `Fire` fires exactly when it holds. |
| TenantLifecycle.Attempt | src/Models/Tenant.php:76-185 | Definition: the tenant after firing the transition, or unchanged when it is refused. |
| TenantLifecycle.Run | src/Models/Tenant.php:76-185 | Definition: the attempts applied one after another. The Run lemmas state what every run keeps. |
| TenantLifecycle.NewTenantIsPending | src/Models/Tenant.php:52 | A new tenant starts in `pending` and is not soft-deleted. |
| TenantLifecycle.ActivateCondition | src/Models/Tenant.php:77-86 | `activate` fires iff the state is `pending`, domain and billing e-mail are present and an approver is given. |
| TenantLifecycle.SuspendCondition | src/Models/Tenant.php:99-102 | `suspend` fires iff the state is `active`; no context can stop it. |
| TenantLifecycle.ReactivateCondition | src/Models/Tenant.php:120-127 | `reactivate` fires iff the state is `suspended` and the issue is resolved. |
| TenantLifecycle.ArchiveEffect | src/Models/Tenant.php:138-160 | `archive` fires iff the state is `active` or `suspended` with admin approval. Afterwards the tenant is soft-deleted with status ARCHIVED. |
| TenantLifecycle.RestoreEffect | src/Models/Tenant.php:163-177 | `restore` fires iff the state is `archived` with super-admin approval and intact data. Afterwards the tenant is active and not deleted. |
| TenantLifecycle.OnlyExits | src/Models/Tenant.php:76-185 | A successful transition out of `pending` is `activate`; out of `archived` it is `restore`. |
| TenantLifecycle.NeverBackToPending | src/Models/Tenant.php:76-185 | No successful transition ends in `pending`. |
| TenantLifecycle.RunDeletedIffArchived | src/Models/Tenant.php:138-177 | Along any sequence of attempts, a tenant whose soft-delete marker agrees with its state keeps it agreeing: deleted exactly while archived. |
| TenantLifecycle.NewTenantDeletedIffArchived | src/Models/Tenant.php:46-186 | Every new tenant, after any attempts, is soft-deleted exactly while archived. |
| TenantLifecycle.RunKeepsStatusMirrored | src/Models/Tenant.php:87-178 | Once the status enum agrees with the workflow state, every sequence of attempts keeps it so. |
| TenantLifecycle.LeavingPendingNeedsActivate | src/Models/Tenant.php:77-80 | A sequence of attempts that takes a tenant out of `pending` contains an `activate` that fires on the still-pending tenant the earlier attempts left. |
| TenantLifecycle.Tenant.constructor | src/Models/Tenant.php:52 | A new tenant row is in the initial state and not deleted. |
| TenantLifecycle.Tenant.Activate | src/Models/Tenant.php:77-97 | Reports whether `activate` was allowed and leaves the row as its firing or refusal gives. |
| TenantLifecycle.Tenant.Suspend | src/Models/Tenant.php:99-118 | Reports whether `suspend` was allowed and leaves the row as its firing or refusal gives. |
| TenantLifecycle.Tenant.Reactivate | src/Models/Tenant.php:120-136 | Reports whether `reactivate` was allowed and leaves the row as its firing or refusal gives. |
| TenantLifecycle.Tenant.Archive | src/Models/Tenant.php:138-161 | Reports whether `archive` was allowed and leaves the row as its firing or refusal gives. |
| TenantLifecycle.Tenant.Restore | src/Models/Tenant.php:163-184 | Reports whether `restore` was allowed and leaves the row as its firing or refusal gives. |
| CoreTenant.StatusPredicates | app/Domains/Core/Models/Tenant.php:62-81 | Each predicate holds iff the status is its value, and no two hold at once. |
| CoreTenant.ScopeActive | app/Domains/Core/Models/Tenant.php:86-89 | The scope keeps only active tenants, and keeps each active tenant exactly as often as it occurs. |
| CoreTenant.ScopeActiveIdempotent | app/Domains/Core/Models/Tenant.php:86-89 | Applying the scope twice is applying it once. |
| UserAccount.AfterFailedLogin | app/Models/User.php:123-133 | The counter rises by exactly one. At five or more the lock ends 30 minutes after `now`; below five the lock is unchanged; nothing else changes. |
| UserAccount.IsAdmin | app/Models/User.php:78-81 | Definition: the admin flag is set. |
| UserAccount.IsActive | app/Models/User.php:86-89 | Definition: the status is ACTIVE. |
| UserAccount.IsLocked | app/Models/User.php:96-108 | Definition: status LOCKED, or a lock time strictly after `now`. LockedStatusAlwaysLocked and TemporaryLock state the two branches. |
| UserAccount.HasMfaEnabled | app/Models/User.php:113-116 | Definition: the flag is set and the secret is not empty in PHP's sense. MfaCondition states it. |
| UserAccount.AfterReset | app/Models/User.php:140-145 | The counter is 0 and the lock is cleared; nothing else changes. |
| UserAccount.AfterLogin | app/Models/User.php:150-154 | The last login is `now`; nothing else changes. |
| UserAccount.LockedStatusAlwaysLocked | app/Models/User.php:96-100 | A user with status LOCKED is locked whatever the lock time. |
| UserAccount.TemporaryLock | app/Models/User.php:102-107 | Otherwise the user is locked iff a lock time is set and lies strictly after `now`. |
| UserAccount.ResetUnlocks | app/Models/User.php:96-145 | After a reset a user without status LOCKED is not locked. |
| UserAccount.FailedLoginsCount | app/Models/User.php:123-133 | n failures raise the counter by exactly n and change nothing but counter and lock. |
| UserAccount.LockAfterReset | app/Models/User.php:123-145 | After a reset, fewer than five failures leave no lock. Five or more lock until 30 minutes after the last failure. |
| UserAccount.LockedAfterFailures | app/Models/User.php:96-145 | After a reset and n failures, a user without status LOCKED is locked at `now` iff n is at least five and `now` is before the last failure plus 30 minutes. |
| UserAccount.FiveFailuresLock | app/Models/User.php:96-145 | After a reset and five failures at t, the account is locked at every instant before t + 30 minutes. |
| UserAccount.MfaCondition | app/Models/User.php:113-116 | MFA is enabled iff the flag is set and the secret is neither null, "" nor "0". |
| UserAccount.User.IncrementFailedLoginAttempts | app/Models/User.php:123-133 | The row becomes the failed-login update of the old row. |
| UserAccount.User.ResetFailedLoginAttempts | app/Models/User.php:140-145 | The row becomes the reset of the old row. |
| UserAccount.User.UpdateLastLogin | app/Models/User.php:150-154 | The row becomes the login stamp of the old row. |
| RolePolicy.ViewAny | apps/headless-erp-app/app/Policies/RolePolicy.php:26-29 | Allowed iff the user holds `view-roles`. |
| RolePolicy.View | apps/headless-erp-app/app/Policies/RolePolicy.php:37-47 | A super-admin may always view. Anyone else needs `view-roles` and a role that is global or of the user's tenant. |
| RolePolicy.Create | apps/headless-erp-app/app/Policies/RolePolicy.php:54-57 | Allowed iff the user holds `manage-roles`. |
| RolePolicy.Update | apps/headless-erp-app/app/Policies/RolePolicy.php:65-80 | A super-admin may always update. Only a super-admin may update `super-admin`. Anyone else needs `manage-roles` and a role in scope. |
| RolePolicy.Delete | apps/headless-erp-app/app/Policies/RolePolicy.php:88-103 | Nobody may delete `super-admin`. A non-super-admin needs `manage-roles` and a tenant equal to the role's team. |
| RolePolicy.Assign | apps/headless-erp-app/app/Policies/RolePolicy.php:111-126 | A super-admin may always assign. Only a super-admin may assign `super-admin`. Anyone else needs `assign-roles` and a role in scope. |
| RolePolicy.ViewForOthers | apps/headless-erp-app/app/Policies/RolePolicy.php:44-46 | For non-super-admins, viewing is allowed iff the user holds the permission and the role is global or of the user's tenant. |
| RolePolicy.UpdateForOthers | apps/headless-erp-app/app/Policies/RolePolicy.php:72-79 | For non-super-admins, updating is allowed iff the role is not `super-admin`, the user holds `manage-roles` and the role is in scope. |
| RolePolicy.AssignForOthers | apps/headless-erp-app/app/Policies/RolePolicy.php:118-125 | For non-super-admins, assigning is allowed iff the role is not `super-admin`, the user holds `assign-roles` and the role is in scope. |
| RolePolicy.DeleteForOthers | apps/headless-erp-app/app/Policies/RolePolicy.php:95-102 | For non-super-admins, deleting is allowed iff the role is not `super-admin`, the user holds `manage-roles` and tenant equals team. There is no global-role exception. |
| RolePolicy.DeleteForSuperAdmin | apps/headless-erp-app/app/Policies/RolePolicy.php:90-93 | A super-admin may delete exactly the roles other than `super-admin`. |
| RolePolicy.GlobalRoleDeletion | apps/headless-erp-app/app/Policies/RolePolicy.php:100-102 | A non-super-admin with `manage-roles` may delete a global role iff the user has no tenant. |
| LoadBalance.Resolve | packages/nexus-crm/src/Core/LoadBalanceAssignmentStrategy.php:20-42 | A missing or empty user list gives an empty map. Otherwise the map has exactly one entry: the first user in list order whose workload is minimal, with the configured role or `assignee`. |
| LoadBalance.RoleOrDefault | packages/nexus-crm/src/Core/LoadBalanceAssignmentStrategy.php:23 | Definition: the configured role, or `assignee` when none is configured. |
| LoadBalance.CollectWorkloads | packages/nexus-crm/src/Core/LoadBalanceAssignmentStrategy.php:30-37 | The workload map covers every listed user with that user's workload. Its keys are in first-occurrence order. |
| LoadBalance.LeastWorkload | packages/nexus-crm/src/Core/LoadBalanceAssignmentStrategy.php:39 | `min`: a workload in the map that is at most every workload. |
| LoadBalance.FirstKeyWith | packages/nexus-crm/src/Core/LoadBalanceAssignmentStrategy.php:39 | `array_keys(...)[0]`: the first key whose workload is the minimum. |
| LoadBalance.FirstLeastLoadedUnique | packages/nexus-crm/src/Core/LoadBalanceAssignmentStrategy.php:39 | At most one position is the first with the least workload, so the choice is determined. |
| SerialOverride.Check | packages/nexus-sequencing-management/src/Actions/OverrideSerialNumberAction.php:56-76 | The gate fails iff the caller is authenticated without override permission; a guest skips it. The override is allowed iff the gate passes, the sequence exists and the number is not yet logged for that tenant and sequence. |
| SerialOverride.OverrideEntry | packages/nexus-sequencing-management/src/Actions/OverrideSerialNumberAction.php:79-99 | The new entry carries tenant, sequence, number, the override flag and the reason. The causer is null for a guest and the user otherwise. |
| SerialOverride.Override | packages/nexus-sequencing-management/src/Actions/OverrideSerialNumberAction.php:62-99 | A failed check leaves the log unchanged. Success appends exactly the override entry for this caller, tenant, sequence, number, reason and instant. |
| SerialOverride.UnknownSequenceFirst | packages/nexus-sequencing-management/src/Actions/OverrideSerialNumberAction.php:62-66 | Past the gate, an unknown sequence is reported as SequenceNotFound, even when the number is also logged. |
| SerialOverride.DuplicateExactly | packages/nexus-sequencing-management/src/Actions/OverrideSerialNumberAction.php:69-76 | Past the gate, for a known sequence, DuplicateNumber is reported iff the number is already logged for that tenant and sequence. |
| SerialOverride.OverridePreservesNoDuplicates | packages/nexus-sequencing-management/src/Actions/OverrideSerialNumberAction.php:69-99 | A log without duplicates per (tenant, sequence) keeps none after any override. |
| SerialOverride.RepeatIsDuplicate | packages/nexus-sequencing-management/src/Actions/OverrideSerialNumberAction.php:69-92 | Repeating a successful override fails with DuplicateNumber. |
| SerialOverride.DuplicateCheckIsScoped | packages/nexus-sequencing-management/src/Actions/OverrideSerialNumberAction.php:69-71 | Entries of other tenants or sequences never count as the number being logged. |
| SerialOverride.SerialNumberLog.Handle | packages/nexus-sequencing-management/src/Actions/OverrideSerialNumberAction.php:50-108 | Returns the failed check, if any, and leaves the log as the override gives. |
| SerialOverride.SerialNumberLog.FindLogged | packages/nexus-sequencing-management/src/Actions/OverrideSerialNumberAction.php:69-72 | The search loop finds an entry iff the number is logged for the tenant and sequence. |
| Text.Trim | packages/nexus-procurement/src/Models/VendorUser.php:63 | The result is no longer than the input and has no surrounding whitespace. It is empty iff the input is all whitespace. |
| Text.TrimInfix | packages/nexus-procurement/src/Models/VendorUser.php:63 | The trim is one contiguous part of the input with only whitespace before and after it, and it is empty or begins and ends with a non-whitespace character. |
| Text.TrimIdempotent | packages/nexus-procurement/src/Models/VendorUser.php:63 | Trimming twice is trimming once. |
| VendorUsers.InactiveNeverAccesses | packages/nexus-procurement/src/Models/VendorUser.php:69-72 | An inactive user never has portal access, whatever the vendor's status. |
| VendorUsers.CanAccessPortal | packages/nexus-procurement/src/Models/VendorUser.php:69-72 | Definition: the user is active and the vendor's status is `active`. |
| VendorUsers.FullName | packages/nexus-procurement/src/Models/VendorUser.php:61-64 | The full name has no leading or trailing whitespace. |
| VendorUsers.FullNameWithoutLastName | packages/nexus-procurement/src/Models/VendorUser.php:63 | With an empty last name the full name is the trimmed first name. |
| VendorUsers.FullNameOfCleanNames | packages/nexus-procurement/src/Models/VendorUser.php:63 | Names without surrounding whitespace give first, one space, last. |
| VendorUsers.Serialize | packages/nexus-procurement/src/Models/VendorUser.php:37-40 | The serialised form has no password and no reset token and keeps every other attribute as it was. |
| VendorUsers.NewVendorUser | packages/nexus-procurement/src/Services/VendorPortalService.php:29-38 | A new user is active, has no last login and no reset token, and is a primary contact only when given true. Its password checks against the temporary password. |
| VendorUsers.WithResetToken | packages/nexus-procurement/src/Http/Controllers/VendorPortalAuthController.php:95-100 | Stores H(token) with expiry 24 hours after `now`; nothing else changes. |
| VendorUsers.AfterPasswordReset | packages/nexus-procurement/src/Http/Controllers/VendorPortalAuthController.php:131-135 | The password checks against the new one, token and expiry are cleared, and nothing else changes. |
| VendorUsers.ResetTokenWindow | packages/nexus-procurement/src/Http/Controllers/VendorPortalAuthController.php:123-128 | An issued token is accepted iff `now` is at most 24 hours after issue; the expiry instant itself still counts. |
| VendorUsers.ResetTokenAccepted | packages/nexus-procurement/src/Http/Controllers/VendorPortalAuthController.php:123-128 | Definition: a token hash and an expiry are stored, the token checks against the hash, and `now` is not after the expiry. |
| VendorUsers.OnlyIssuedTokenAccepted | packages/nexus-procurement/src/Http/Controllers/VendorPortalAuthController.php:123-125 | Any other token is refused. |
| VendorUsers.ResetTokenSingleUse | packages/nexus-procurement/src/Http/Controllers/VendorPortalAuthController.php:123-135 | After a reset no token is accepted. |
| VendorPortalAuth.Handle | packages/nexus-procurement/src/Http/Middleware/VendorPortalAuth.php:22-42 | The request passes iff the user is an authenticated vendor user with portal access. No user gives 401, which takes precedence. A non-vendor user gives 403 "Access denied". Every refusal is 401 or 403. |
| VendorPortalAuth.InactiveVendorUserRefused | packages/nexus-procurement/src/Http/Middleware/VendorPortalAuth.php:37-39 | A vendor user without portal access gets 403 "inactive or vendor is suspended". |
| VendorAccounts.FindByEmail | packages/nexus-procurement/src/Http/Controllers/VendorPortalAuthController.php:31 | The position of the first user with the e-mail, or none when no user has it. |
| VendorAccounts.VendorAccountStore.Login | packages/nexus-procurement/src/Http/Controllers/VendorPortalAuthController.php:24-56 | A blank field gives 422. An unknown e-mail or wrong password gives 401, decided before access. No portal access gives 403 without touching last login. Otherwise last login becomes `now` and a Bearer token is returned. |
| VendorAccounts.VendorAccountStore.RequestPasswordReset | packages/nexus-procurement/src/Http/Controllers/VendorPortalAuthController.php:81-108 | An unknown e-mail gives 422 and no portal access gives 403, both leaving the table unchanged. Otherwise only that user gets the new token hash and expiry. |
| VendorAccounts.VendorAccountStore.ResetPassword | packages/nexus-procurement/src/Http/Controllers/VendorPortalAuthController.php:113-140 | Failed validation gives 422. A missing, wrong or expired token gives 422 and changes nothing. Otherwise only that user's password is replaced and the token cleared. |
| VendorAccounts.VendorAccountStore.ChangePassword | packages/nexus-procurement/src/Http/Controllers/VendorPortalController.php:225-243 | A wrong current password gives 422 and keeps the stored password. Otherwise the password checks against the new one. |
| VendorAccounts.VendorAccountStore.CreateVendorUser | packages/nexus-procurement/src/Http/Controllers/VendorPortalAuthController.php:145-181 | Failed validation gives 422 and changes nothing; validation covers the vendor existing, a filled and unique e-mail, names and phone. Otherwise the new active user is appended and returned with the temporary password. E-mails stay unique. |
| VendorAccounts.VendorAccountStore.CreationValid | packages/nexus-procurement/src/Http/Controllers/VendorPortalAuthController.php:151-158 | Definition of the validation rules: the vendor exists, the e-mail is filled and not yet used, first and last names are filled with at most 50 characters, and a given phone has at most 20. |
| VendorAccounts.SecondResetRefused | packages/nexus-procurement/src/Http/Controllers/VendorPortalAuthController.php:123-135 | A token that was used for a reset is refused at any later instant. |
| VendorInvoices.FindNumber | packages/nexus-procurement/src/Services/VendorPortalService.php:118 | The search finds the number iff some invoice of that purchase order carries it. |
| VendorInvoices.AppendKeepsNumbersUnique | packages/nexus-procurement/src/Services/VendorPortalService.php:118-135 | Adding an invoice whose number is free on its order keeps numbers unique per order. |
| VendorInvoices.SubmitCheck | packages/nexus-procurement/src/Services/VendorPortalService.php:113-120 | A foreign order is refused. A number already used on the order is refused, and only for the vendor's own order. Otherwise nothing is refused. |
| VendorInvoices.ServiceInvoice | packages/nexus-procurement/src/Services/VendorPortalService.php:123-145 | The new invoice has status, payment status and match status all `pending`. Its order, vendor, number and items are the submitted ones, with items empty when absent. |
| VendorInvoices.EndpointInvoice | packages/nexus-procurement/src/Http/Controllers/VendorPortalController.php:147-158 | The new invoice has status `pending`, the authenticated user's vendor, and the column defaults for payment and match status, which the endpoint does not set. |
| VendorInvoices.ValidSubmission | packages/nexus-procurement/src/Http/Controllers/VendorPortalController.php:115-132 | Definition of the validation rules: known order, filled invoice number of at most 50 characters, due date after invoice date, non-negative amounts, three-letter currency, notes of at most 500, at least one valid item, and attachments of the allowed types and size. |
| VendorInvoices.PurchaseOrderAccess | packages/nexus-procurement/src/Http/Controllers/VendorPortalController.php:76-89 | 200 iff the order belongs to the user's vendor, 403 otherwise. |
| VendorInvoices.InvoiceLedger.SubmitInvoice | packages/nexus-procurement/src/Services/VendorPortalService.php:110-146 | A failed check is returned and leaves the table unchanged. Otherwise exactly the new invoice is appended, and numbers stay unique per order. |
| VendorInvoices.InvoiceLedger.SubmitInvoiceRequest | packages/nexus-procurement/src/Http/Controllers/VendorPortalController.php:113-172 | Failed validation gives 422. A foreign order gives 403 before the duplicate 422. Otherwise the new invoice is appended and returned. Numbers stay unique per order. |
| VendorInvoices.OwnershipBeforeDuplicate | packages/nexus-procurement/src/Services/VendorPortalService.php:113-120 | A foreign order is refused as foreign even when the number is also taken. |
| VendorInvoices.ResubmissionIsDuplicate | packages/nexus-procurement/src/Services/VendorPortalService.php:118-135 | Submitting the same number to the same order again is refused as a duplicate. |
| VendorInvoices.NumberScopedToOrder | packages/nexus-procurement/src/Services/VendorPortalService.php:118 | For the vendor's own order, a number that no invoice of that order carries is not refused, whatever other orders use. |
| VendorInvoices.OtherOrderUnaffected | packages/nexus-procurement/src/Services/VendorPortalService.php:118 | Adding an invoice of another order changes no check for this order. |
| PaymentSummary.WithPaymentStatus | packages/nexus-procurement/src/Services/VendorPortalService.php:265 | The filter keeps exactly the invoices with that payment status and is no longer than its input. |
| PaymentSummary.Overdue | packages/nexus-procurement/src/Services/VendorPortalService.php:266-268 | The filter keeps exactly the unpaid invoices due strictly before `now`. |
| PaymentSummary.PaymentStatusSummary | packages/nexus-procurement/src/Services/VendorPortalService.php:260-276 | Each count is the length of its filter and each amount is the sum of its filter's totals. No count exceeds the number of invoices. |
| PaymentSummary.StatusFilterExact | packages/nexus-procurement/src/Services/VendorPortalService.php:265 | The status filter keeps every invoice with that payment status exactly as often as it occurs, and no other. |
| PaymentSummary.OverdueFilterExact | packages/nexus-procurement/src/Services/VendorPortalService.php:266-268 | The overdue filter keeps every unpaid invoice due before `now` exactly as often as it occurs, and no other. |
| PaymentSummary.StatusCountIsPositions | packages/nexus-procurement/src/Services/VendorPortalService.php:265 | The status filter has one entry per position whose invoice has that payment status. |
| PaymentSummary.OverdueCountIsPositions | packages/nexus-procurement/src/Services/VendorPortalService.php:266-268 | The overdue filter has one entry per position whose invoice is unpaid and due before `now`. |
| PaymentSummary.SummaryCounts | packages/nexus-procurement/src/Services/VendorPortalService.php:264-270 | The pending, paid, authorized and overdue totals are the numbers of invoices with that payment status, or overdue. |
| PaymentSummary.StatusCountsBounded | packages/nexus-procurement/src/Services/VendorPortalService.php:265-270 | Pending, paid and authorized counts together are at most the number of invoices. |
| PaymentSummary.PaidAndOverdueDisjoint | packages/nexus-procurement/src/Services/VendorPortalService.php:266-269 | Paid and overdue counts together are at most the number of invoices. |
| PaymentSummary.SummaryAdditive | packages/nexus-procurement/src/Services/VendorPortalService.php:264-275 | Every count and amount over two lists joined is the sum over each list. |
| PaymentSummary.AmountsBounded | packages/nexus-procurement/src/Services/VendorPortalService.php:271-274 | With non-negative totals the pending and overdue amounts lie between 0 and the sum of all totals. |
| PaymentSummary.PaidInvoiceNeverOverdue | packages/nexus-procurement/src/Services/VendorPortalService.php:266-269 | A paid invoice is counted as paid and never as overdue. |
| RecentActivity.SortByDateDesc | packages/nexus-procurement/src/Services/VendorPortalService.php:207 | The result is newest first and a permutation of the input. |
| RecentActivity.Take | packages/nexus-procurement/src/Services/VendorPortalService.php:208 | The first n entries, or all when fewer. |
| RecentActivity.Latest | packages/nexus-procurement/src/Services/VendorPortalService.php:156-159 | At most n entries, newest first, all drawn from the source. |
| RecentActivity.LatestKeepsNewest | packages/nexus-procurement/src/Services/VendorPortalService.php:156-159 | Nothing left out is newer than any entry kept. |
| RecentActivity.PaymentEntries | packages/nexus-procurement/src/Services/VendorPortalService.php:188-202 | Only payment entries, and no more of them than invoices. |
| RecentActivity.PaymentEntriesCount | packages/nexus-procurement/src/Services/VendorPortalService.php:188-202 | There is one payment entry per invoice whose payment was authorised. |
| RecentActivity.PaymentEntriesSound | packages/nexus-procurement/src/Services/VendorPortalService.php:188-202 | Every payment entry belongs to an authorised invoice: it is dated at the authorisation and carries that invoice's number and total. |
| RecentActivity.PaymentEntriesComplete | packages/nexus-procurement/src/Services/VendorPortalService.php:188-202 | Every authorised invoice has its payment entry in the list. |
| RecentActivity.ServiceFeed | packages/nexus-procurement/src/Services/VendorPortalService.php:151-210 | The service feed is newest first and has at most `limit` entries. |
| RecentActivity.DashboardFeed | packages/nexus-procurement/src/Http/Controllers/VendorPortalController.php:248-287 | The dashboard feed is newest first and has at most 10 entries. |
| RecentActivity.ServiceFeedShape | packages/nexus-procurement/src/Services/VendorPortalService.php:151-210 | The feed is newest first and holds only candidates. Its length is the limit when that many candidates exist, and all of them otherwise. |
| RecentActivity.ServiceFeedNewestFirst | packages/nexus-procurement/src/Services/VendorPortalService.php:151-210 | With a positive limit the feed starts with an entry at least as new as every candidate. |
| RecentActivity.DashboardFeedShape | packages/nexus-procurement/src/Http/Controllers/VendorPortalController.php:248-287 | The dashboard feed is newest first and drawn from the five newest orders and five newest invoices. It has min(10, min(5, orders) + min(5, invoices)) entries. |
| CustomUnits.FormatParseRoundTrip | packages/nexus-uom-management/tests/Feature/CustomUnitRegistrationTest.php:55 | Reading back the stored twelve-digit text of any factor gives the factor. |
| CustomUnits.ParseDecimal | packages/nexus-uom-management/tests/Feature/CustomUnitRegistrationTest.php:41 | Definition: a non-empty run of digits, optionally followed by a dot and one to twelve digits, read as a value scaled by 10^12. |
| CustomUnits.FormatDecimal | packages/nexus-uom-management/tests/Feature/CustomUnitRegistrationTest.php:55 | Definition: the scaled value written with its whole part, a dot and twelve fraction digits. FormatParseRoundTrip reads it back. |
| CustomUnits.FactorFourParsed | packages/nexus-uom-management/tests/Feature/CustomUnitRegistrationTest.php:41 | The factor text "4" is accepted as 4 * 10^12. |
| CustomUnits.FactorFourWritten | packages/nexus-uom-management/tests/Feature/CustomUnitRegistrationTest.php:55 | The stored value 4 * 10^12 is written "4.000000000000". |
| CustomUnits.ParseFactor | packages/nexus-uom-management/tests/Feature/CustomUnitRegistrationTest.php:30-41 | An accepted factor is positive and is the decimal's scaled value. |
| CustomUnits.FindUnit | packages/nexus-uom-management/tests/Feature/CustomUnitRegistrationTest.php:40 | The owner's unit with the code, or none iff the code is free for that owner. |
| CustomUnits.Edge | packages/nexus-uom-management/tests/Feature/CustomUnitRegistrationTest.php:39-43 | An edge is built iff the target code exists for the owner and the factor is accepted. It runs from the new unit to that unit with that factor. |
| CustomUnits.Plan | packages/nexus-uom-management/tests/Feature/CustomUnitRegistrationTest.php:38-44 | On success there is one edge per request, each from the new unit. |
| CustomUnits.Registration | packages/nexus-uom-management/src/Contracts/CustomUnitRegistrar.php:15 | Registration succeeds iff the code is free for the owner, the factor is accepted and every conversion can be planned. Otherwise it reports the duplicate code, then the bad factor, then the first failing conversion. A new unit has that code, that owner, the next id and the accepted factor, and its edges are the planned ones. |
| CustomUnits.CustomUnitRegistrar.Register | packages/nexus-uom-management/src/Contracts/CustomUnitRegistrar.php:15 | Any failure stores nothing. Success appends the unit and its edges, and codes stay unique per owner. |
| CustomUnits.PlanEdges | packages/nexus-uom-management/tests/Feature/CustomUnitRegistrationTest.php:38-44 | The loop over the requested conversions yields the planned edges or the first failure. |
| CustomUnits.FreshCodeRegisters | packages/nexus-uom-management/tests/Feature/CustomUnitRegistrationTest.php:26-31 | A fresh (code, owner) with an accepted factor and no conversions is registered. |
| CustomUnits.SecondRegistrationRefused | packages/nexus-uom-management/tests/Feature/CustomUnitRegistrationTest.php:58-75 | After a successful registration the same code for the same owner is refused. |
| CustomUnits.OtherOwnerNotBlocked | packages/nexus-uom-management/tests/Feature/CustomUnitRegistrationTest.php:58-74 | Uniqueness is per owner: a code held only by other owners does not block the owner. |
| CustomUnits.OtherOwnerUnaffected | packages/nexus-uom-management/tests/Feature/CustomUnitRegistrationTest.php:58-74 | A unit registered for one owner changes nothing about what another owner may register. |
| CustomUnits.EdgesFollowRequests | packages/nexus-uom-management/tests/Feature/CustomUnitRegistrationTest.php:49-54 | The k-th edge runs from the new unit to the owner's unit named by the k-th request, with its factor. |
| CustomUnits.FeatureScenario | packages/nexus-uom-management/tests/Feature/CustomUnitRegistrationTest.php:21-55 | Box, then Crate with a conversion to Box at factor "4", gives one edge from Crate to Box, written "4.000000000000". |

## Left out

- Hashing, `Str::random` and Sanctum tokens: these are foreign calls. Hashing is the injective `H`; tokens and temporary passwords are parameters.
- Activity logging, events, notifications and mail have no effect on the modelled state.
- The dashboard statistics and the average payment time: they depend on calendar arithmetic and floating-point rounding.
- The service's `authenticate`: it makes the same decisions as `login` without the HTTP replies.
- Floating-point rounding of amounts is not modelled: amounts, their sums and comparisons are exact decimals (`real`).
- Concurrency: check-then-insert races in the duplicate checks are not modelled; everything is sequential.
- E-mail format and date-string parsing in validation. E-mails are plain strings and dates are already instants.
- Untyped or missing request fields, and PHP type juggling in `!==` comparisons. Inputs are typed.
- `RecentActivity.Take`: a negative `take` argument (counting from the end) is not modelled; limits are naturals.
- `RecentActivity.SortByDateDesc`: it keeps entries with equal dates in input order, as PHP's stable sort does, but no lemma states this. The database's `latest()` order among equal timestamps is unspecified in the source, and the model uses the same stable order.
- `LoadBalance.Resolve`: the workload is a given function, not a query over assignments.
- `TenantLifecycle.Fire`: truthy context values are booleans. The base status a tenant starts with is a parameter.
- The unit-of-measure converters, alias resolution, packaging and compound units are not part of this model: only their interfaces exist.
- `CustomUnits.Registration`: unit types are not checked. The test always passes an existing type.
