/** The status predicates and the `active` query scope of the core tenant
    model (app/Domains/Core/Models/Tenant.php). */
module CoreTenant {

  /** The core status enum; only the three cases the predicates test are
      named, any other case is `OtherStatus`. */
  datatype TenantStatus = Active | Suspended | Archived | OtherStatus(name: string)

  datatype Tenant = Tenant(id: string, name: string, status: TenantStatus)

  predicate IsActive(t: Tenant)
  {
    t.status == Active
  }

  predicate IsSuspended(t: Tenant)
  {
    t.status == Suspended
  }

  predicate IsArchived(t: Tenant)
  {
    t.status == Archived
  }

  /** Each predicate is an exact status test, and no two of them hold together. */
  lemma StatusPredicates(t: Tenant)
    ensures IsActive(t) <==> t.status == Active
    ensures IsSuspended(t) <==> t.status == Suspended
    ensures IsArchived(t) <==> t.status == Archived
    ensures !(IsActive(t) && IsSuspended(t))
    ensures !(IsActive(t) && IsArchived(t))
    ensures !(IsSuspended(t) && IsArchived(t))
  {
  }

  /** `scopeActive`: the rows whose status is ACTIVE, in their order, each as
      often as it occurs; nothing else. */
  function ScopeActive(ts: seq<Tenant>): (r: seq<Tenant>)
    ensures forall i :: 0 <= i < |r| ==> IsActive(r[i])
    ensures multiset(r) <= multiset(ts)
    ensures forall t :: IsActive(t) ==> multiset(r)[t] == multiset(ts)[t]
    decreases |ts|
  {
    if ts == [] then []
    else
      var rest := ScopeActive(ts[..|ts| - 1]);
      var last := ts[|ts| - 1];
      assert ts == ts[..|ts| - 1] + [last];
      if IsActive(last) then rest + [last] else rest
  }

  /** Filtering twice is filtering once. */
  lemma {:induction false} ScopeActiveIdempotent(ts: seq<Tenant>)
    ensures ScopeActive(ScopeActive(ts)) == ScopeActive(ts)
    decreases |ts|
  {
    if ts != [] {
      var rest := ScopeActive(ts[..|ts| - 1]);
      ScopeActiveIdempotent(ts[..|ts| - 1]);
      var last := ts[|ts| - 1];
      if IsActive(last) {
        assert (rest + [last])[..|rest + [last]| - 1] == rest;
      }
    }
  }
}
