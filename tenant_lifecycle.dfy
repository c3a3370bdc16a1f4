/** The tenant lifecycle workflow of the ERP orchestration layer
    (src/Models/Tenant.php): four workflow states, five guarded transitions,
    and the hooks that write the business status enum and soft-delete or
    restore the tenant. The workflow state and the status enum are separate
    columns; the hooks keep them in step. */
module TenantLifecycle {
  import opened Common

  datatype WorkflowState = Pending | Active | Suspended | Archived

  /** The business status enum the after-hooks write. The hooks name only
      ACTIVE, SUSPENDED and ARCHIVED; any other case of the enum is
      `OtherStatus`. */
  datatype TenantStatus = StatusActive | StatusSuspended | StatusArchived | OtherStatus(name: string)

  datatype Transition = Activate | Suspend | Reactivate | Archive | Restore

  /** The context map handed to guards. Each entry is read as `$context[k] ?? false`,
      so each is modelled by its truth value; an absent key is `false`. */
  datatype Context = Context(
    approvedBy: bool,
    issueResolved: bool,
    adminApproved: bool,
    superAdminApproved: bool,
    dataIntact: bool)

  /** The tenant fields the workflow reads or writes. `deleted` is the soft
      delete marker (`deleted_at` set). */
  datatype TenantRecord = TenantRecord(
    state: WorkflowState,
    status: TenantStatus,
    deleted: bool,
    domain: Option<string>,
    billingEmail: Option<string>)

  /** `initialState`. */
  const InitialState: WorkflowState := Pending

  /** The `from` list of each transition. */
  function Sources(t: Transition): set<WorkflowState>
  {
    match t
    case Activate => {Pending}
    case Suspend => {Active}
    case Reactivate => {Suspended}
    case Archive => {Active, Suspended}
    case Restore => {Archived}
  }

  /** The `to` state of each transition. */
  function Target(t: Transition): WorkflowState
  {
    match t
    case Activate => Active
    case Suspend => Suspended
    case Reactivate => Active
    case Archive => Archived
    case Restore => Active
  }

  /** Each transition's `guard`; `suspend` has none. */
  predicate Guard(t: Transition, tenant: TenantRecord, ctx: Context)
  {
    match t
    case Activate => tenant.domain.Some? && tenant.billingEmail.Some? && ctx.approvedBy
    case Suspend => true
    case Reactivate => ctx.issueResolved
    case Archive => ctx.adminApproved
    case Restore => ctx.superAdminApproved && ctx.dataIntact
  }

  /** The workflow engine fires a transition when the tenant is in one of its
      source states and its guard holds. */
  predicate Allowed(tenant: TenantRecord, t: Transition, ctx: Context)
  {
    tenant.state in Sources(t) && Guard(t, tenant, ctx)
  }

  /** The status value each transition's after-hook writes. */
  function StatusWritten(t: Transition): TenantStatus
  {
    match t
    case Activate => StatusActive
    case Suspend => StatusSuspended
    case Reactivate => StatusActive
    case Archive => StatusArchived
    case Restore => StatusActive
  }

  /** The status enum agrees with the workflow state. */
  predicate StatusMirrorsState(tenant: TenantRecord)
  {
    && (tenant.state == Active <==> tenant.status == StatusActive)
    && (tenant.state == Suspended <==> tenant.status == StatusSuspended)
    && (tenant.state == Archived <==> tenant.status == StatusArchived)
  }

  /** Firing a transition: `None` when the engine refuses it, otherwise the
      tenant after the state change and the before/after hooks. */
  function Fire(tenant: TenantRecord, t: Transition, ctx: Context): (r: Option<TenantRecord>)
    ensures r.Some? <==> Allowed(tenant, t, ctx)
    ensures r.Some? ==> r.value.state == Target(t) && StatusMirrorsState(r.value)
    ensures r.Some? ==> r.value.domain == tenant.domain && r.value.billingEmail == tenant.billingEmail
  {
    if !Allowed(tenant, t, ctx) then None
    else
      var deleted :=
        match t
        case Archive => true
        case Restore => false
        case _ => tenant.deleted;
      Some(tenant.(state := Target(t), status := StatusWritten(t), deleted := deleted))
  }

  /** One attempt: a refused transition leaves the tenant as it was. */
  function Attempt(tenant: TenantRecord, t: Transition, ctx: Context): TenantRecord
  {
    match Fire(tenant, t, ctx)
    case Some(after) => after
    case None => tenant
  }

  /** A sequence of attempts, applied in order. */
  function Run(tenant: TenantRecord, steps: seq<(Transition, Context)>): TenantRecord
    decreases |steps|
  {
    if steps == [] then tenant
    else Attempt(Run(tenant, steps[..|steps| - 1]), steps[|steps| - 1].0, steps[|steps| - 1].1)
  }

  /** A new tenant: workflow state `pending`, not deleted. The status the base
      model starts with is not part of this model and is a parameter. */
  function NewTenant(domain: Option<string>, billingEmail: Option<string>, status: TenantStatus): TenantRecord
  {
    TenantRecord(InitialState, status, false, domain, billingEmail)
  }

  // ----- properties of single transitions

  lemma NewTenantIsPending(domain: Option<string>, billingEmail: Option<string>, status: TenantStatus)
    ensures NewTenant(domain, billingEmail, status).state == Pending
    ensures !NewTenant(domain, billingEmail, status).deleted
  {
  }

  /** `activate` fires exactly from `pending`, with domain, billing e-mail and approver present. */
  lemma ActivateCondition(tenant: TenantRecord, ctx: Context)
    ensures Fire(tenant, Activate, ctx).Some? <==>
      tenant.state == Pending && tenant.domain.Some? && tenant.billingEmail.Some? && ctx.approvedBy
  {
  }

  /** `suspend` fires exactly from `active`; no context entry can stop it. */
  lemma SuspendCondition(tenant: TenantRecord, ctx: Context)
    ensures Fire(tenant, Suspend, ctx).Some? <==> tenant.state == Active
  {
  }

  lemma ReactivateCondition(tenant: TenantRecord, ctx: Context)
    ensures Fire(tenant, Reactivate, ctx).Some? <==> tenant.state == Suspended && ctx.issueResolved
  {
  }

  /** `archive` fires from `active` or `suspended` with admin approval and
      leaves the tenant soft-deleted with status ARCHIVED. */
  lemma ArchiveEffect(tenant: TenantRecord, ctx: Context)
    ensures Fire(tenant, Archive, ctx).Some? <==>
      (tenant.state == Active || tenant.state == Suspended) && ctx.adminApproved
    ensures Fire(tenant, Archive, ctx).Some? ==>
      Fire(tenant, Archive, ctx).value.deleted && Fire(tenant, Archive, ctx).value.status == StatusArchived
  {
  }

  /** `restore` fires from `archived` only with both approvals and undoes the soft delete. */
  lemma RestoreEffect(tenant: TenantRecord, ctx: Context)
    ensures Fire(tenant, Restore, ctx).Some? <==>
      tenant.state == Archived && ctx.superAdminApproved && ctx.dataIntact
    ensures Fire(tenant, Restore, ctx).Some? ==>
      !Fire(tenant, Restore, ctx).value.deleted && Fire(tenant, Restore, ctx).value.state == Active
  {
  }

  /** `pending` is left only by `activate`, and `archived` only by `restore`. */
  lemma OnlyExits(tenant: TenantRecord, t: Transition, ctx: Context)
    requires Fire(tenant, t, ctx).Some?
    ensures tenant.state == Pending ==> t == Activate
    ensures tenant.state == Archived ==> t == Restore
  {
  }

  /** No transition leads back into `pending`. */
  lemma NeverBackToPending(tenant: TenantRecord, t: Transition, ctx: Context)
    requires Fire(tenant, t, ctx).Some?
    ensures Fire(tenant, t, ctx).value.state != Pending
  {
  }

  // ----- properties of whole runs

  /** Along any run that starts from a tenant whose soft-delete marker agrees
      with its workflow state, the tenant is soft-deleted exactly while it is
      archived. */
  lemma {:induction false} RunDeletedIffArchived(tenant: TenantRecord, steps: seq<(Transition, Context)>)
    requires tenant.deleted <==> tenant.state == Archived
    ensures Run(tenant, steps).deleted <==> Run(tenant, steps).state == Archived
    decreases |steps|
  {
    if steps != [] {
      RunDeletedIffArchived(tenant, steps[..|steps| - 1]);
    }
  }

  /** Every new tenant is soft-deleted exactly while archived, whatever is attempted. */
  lemma NewTenantDeletedIffArchived(domain: Option<string>, billingEmail: Option<string>,
                                    status: TenantStatus, steps: seq<(Transition, Context)>)
    ensures Run(NewTenant(domain, billingEmail, status), steps).deleted <==>
            Run(NewTenant(domain, billingEmail, status), steps).state == Archived
  {
    RunDeletedIffArchived(NewTenant(domain, billingEmail, status), steps);
  }

  /** Once the status enum agrees with the workflow state, every run keeps it so. */
  lemma {:induction false} RunKeepsStatusMirrored(tenant: TenantRecord, steps: seq<(Transition, Context)>)
    requires StatusMirrorsState(tenant)
    ensures StatusMirrorsState(Run(tenant, steps))
    decreases |steps|
  {
    if steps != [] {
      RunKeepsStatusMirrored(tenant, steps[..|steps| - 1]);
    }
  }

  /** A run that leaves `pending` contains a successful `activate`: the first
      step that changes the state of a pending tenant is an activation that
      fires on the tenant as the earlier steps left it. */
  lemma {:induction false} LeavingPendingNeedsActivate(tenant: TenantRecord, steps: seq<(Transition, Context)>)
    requires tenant.state == Pending
    requires Run(tenant, steps).state != Pending
    ensures exists i :: 0 <= i < |steps| && steps[i].0 == Activate &&
              Run(tenant, steps[..i]).state == Pending && Fire(Run(tenant, steps[..i]), Activate, steps[i].1).Some?
    decreases |steps|
  {
    var n := |steps|;
    var before := Run(tenant, steps[..n - 1]);
    if before.state == Pending {
      assert Fire(before, steps[n - 1].0, steps[n - 1].1).Some?;
      assert steps[n - 1].0 == Activate;
    } else {
      var init := steps[..n - 1];
      LeavingPendingNeedsActivate(tenant, init);
      var i :| 0 <= i < n - 1 && init[i].0 == Activate &&
               Run(tenant, init[..i]).state == Pending && Fire(Run(tenant, init[..i]), Activate, init[i].1).Some?;
      assert init[..i] == steps[..i] && init[i] == steps[i];
    }
  }

  /** The tenant row as the workflow sees it. */
  class Tenant {
    var state: WorkflowState
    var status: TenantStatus
    var deleted: bool
    var domain: Option<string>
    var billingEmail: Option<string>

    function Record(): TenantRecord
      reads this
    {
      TenantRecord(state, status, deleted, domain, billingEmail)
    }

    constructor (domain: Option<string>, billingEmail: Option<string>, status: TenantStatus)
      ensures Record() == NewTenant(domain, billingEmail, status)
    {
      this.state := InitialState;
      this.status := status;
      this.deleted := false;
      this.domain := domain;
      this.billingEmail := billingEmail;
    }

    /** `activate`: pending -> active; the after-hook writes ACTIVE. */
    method Activate(ctx: Context) returns (ok: bool)
      modifies this
      ensures ok == Allowed(old(Record()), Transition.Activate, ctx)
      ensures Record() == Attempt(old(Record()), Transition.Activate, ctx)
    {
      ok := state == Pending && domain != None && billingEmail != None && ctx.approvedBy;
      if ok {
        state := WorkflowState.Active;
        status := StatusActive;
      }
    }

    /** `suspend`: active -> suspended, unguarded; the after-hook writes
        SUSPENDED. The context only feeds the activity log. */
    method Suspend(ctx: Context) returns (ok: bool)
      modifies this
      ensures ok == Allowed(old(Record()), Transition.Suspend, ctx)
      ensures Record() == Attempt(old(Record()), Transition.Suspend, ctx)
    {
      ok := state == WorkflowState.Active;
      if ok {
        state := Suspended;
        status := StatusSuspended;
      }
    }

    /** `reactivate`: suspended -> active once the issue is resolved. */
    method Reactivate(ctx: Context) returns (ok: bool)
      modifies this
      ensures ok == Allowed(old(Record()), Transition.Reactivate, ctx)
      ensures Record() == Attempt(old(Record()), Transition.Reactivate, ctx)
    {
      ok := state == Suspended && ctx.issueResolved;
      if ok {
        state := WorkflowState.Active;
        status := StatusActive;
      }
    }

    /** `archive`: active or suspended -> archived with admin approval; the
        after-hook writes ARCHIVED and soft-deletes the tenant. */
    method Archive(ctx: Context) returns (ok: bool)
      modifies this
      ensures ok == Allowed(old(Record()), Transition.Archive, ctx)
      ensures Record() == Attempt(old(Record()), Transition.Archive, ctx)
    {
      ok := (state == WorkflowState.Active || state == Suspended) && ctx.adminApproved;
      if ok {
        state := Archived;
        status := StatusArchived;
        deleted := true;
      }
    }

    /** `restore`: archived -> active with super-admin approval and intact
        data; the before-hook undoes the soft delete, the after-hook writes ACTIVE. */
    method Restore(ctx: Context) returns (ok: bool)
      modifies this
      ensures ok == Allowed(old(Record()), Transition.Restore, ctx)
      ensures Record() == Attempt(old(Record()), Transition.Restore, ctx)
    {
      ok := state == Archived && ctx.superAdminApproved && ctx.dataIntact;
      if ok {
        deleted := false;
        state := WorkflowState.Active;
        status := StatusActive;
      }
    }
  }
}
