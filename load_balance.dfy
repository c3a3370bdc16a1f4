/** The CRM load-balancing assignment strategy
    (packages/nexus-crm/src/Core/LoadBalanceAssignmentStrategy.php): among the
    configured users, pick the one with the fewest active assignments on the
    entity, the first in list order on a tie. The database count is given as
    a function from user to workload. */
module LoadBalance {
  import opened Common

  type UserId = int

  const DefaultRole: string := "assignee"

  /** `$config['role'] ?? 'assignee'`. */
  function RoleOrDefault(role: Option<string>): string
  {
    match role
    case Some(r) => r
    case None => DefaultRole
  }

  /** `$config['users'] ?? []`. */
  function UsersOrEmpty(users: Option<seq<UserId>>): seq<UserId>
  {
    match users
    case Some(us) => us
    case None => []
  }

  /** Position `i` holds a user of least workload, and every user before it
      is strictly busier. */
  predicate IsFirstLeastLoaded(us: seq<UserId>, workload: UserId -> nat, i: int)
  {
    && 0 <= i < |us|
    && (forall j :: 0 <= j < |us| ==> workload(us[i]) <= workload(us[j]))
    && (forall j :: 0 <= j < i ==> workload(us[i]) < workload(us[j]))
  }

  /** At most one position is the first of least workload. */
  lemma FirstLeastLoadedUnique(us: seq<UserId>, workload: UserId -> nat, i: int, i': int)
    requires IsFirstLeastLoaded(us, workload, i) && IsFirstLeastLoaded(us, workload, i')
    ensures i == i'
  {
    var a, b := workload(us[i]), workload(us[i']);
    assert a <= b && b <= a;
  }

  /** `resolve`: a one-entry map from the selected user to the role, or the
      empty map when no users are configured. */
  method Resolve(users: Option<seq<UserId>>, role: Option<string>, workload: UserId -> nat)
    returns (selection: map<UserId, string>)
    ensures UsersOrEmpty(users) == [] ==> selection == map[]
    ensures UsersOrEmpty(users) != [] ==>
      exists i :: IsFirstLeastLoaded(UsersOrEmpty(users), workload, i) &&
        selection == map[UsersOrEmpty(users)[i] := RoleOrDefault(role)]
  {
    var available := UsersOrEmpty(users);
    var assignedRole := RoleOrDefault(role);
    if available == [] {
      return map[];
    }
    var keys, loads, firstAt := CollectWorkloads(available, workload);
    assert available[0] in loads;
    var least := LeastWorkload(keys, loads);
    var p := FirstKeyWith(keys, loads, least);
    var selected := keys[p];

    ghost var i := firstAt[p];
    forall j | 0 <= j < |available|
      ensures workload(selected) <= workload(available[j])
    {
      assert available[j] in loads;
    }
    forall j | 0 <= j < i
      ensures workload(selected) < workload(available[j])
    {
      assert available[j] in loads;
      var q :| 0 <= q < |keys| && keys[q] == available[j];
      assert firstAt[q] <= j;
      assert q < p;
    }
    assert IsFirstLeastLoaded(available, workload, i);
    selection := map[selected := assignedRole];
  }

  /** The `foreach` that fills `$userWorkloads`: the keys in insertion order
      (a repeated user keeps its first position, `firstAt` records it) and
      each user's workload. */
  method CollectWorkloads(available: seq<UserId>, workload: UserId -> nat)
    returns (keys: seq<UserId>, loads: map<UserId, nat>, ghost firstAt: seq<nat>)
    ensures |firstAt| == |keys|
    ensures loads.Keys == set k | k in keys
    ensures forall u :: u in loads ==> loads[u] == workload(u)
    ensures forall j :: 0 <= j < |available| ==> available[j] in loads
    ensures forall k :: 0 <= k < |keys| ==> firstAt[k] < |available| && available[firstAt[k]] == keys[k]
    ensures forall k :: 0 <= k < |keys| ==> forall j :: 0 <= j < firstAt[k] ==> available[j] != keys[k]
    ensures forall a, b :: 0 <= a < b < |keys| ==> firstAt[a] < firstAt[b]
  {
    keys, loads, firstAt := [], map[], [];
    var n := 0;
    while n < |available|
      invariant 0 <= n <= |available|
      invariant |firstAt| == |keys|
      invariant loads.Keys == set k | k in keys
      invariant forall u :: u in loads ==> loads[u] == workload(u)
      invariant forall j :: 0 <= j < n ==> available[j] in loads
      invariant forall k :: 0 <= k < |keys| ==> firstAt[k] < n && available[firstAt[k]] == keys[k]
      invariant forall k :: 0 <= k < |keys| ==> forall j :: 0 <= j < firstAt[k] ==> available[j] != keys[k]
      invariant forall a, b :: 0 <= a < b < |keys| ==> firstAt[a] < firstAt[b]
    {
      var userId := available[n];
      if userId !in loads {
        assert forall j :: 0 <= j < n ==> available[j] != userId;
        keys := keys + [userId];
        firstAt := firstAt + [n];
      }
      loads := loads[userId := workload(userId)];
      n := n + 1;
    }
  }

  /** `min($userWorkloads)`. */
  method LeastWorkload(keys: seq<UserId>, loads: map<UserId, nat>) returns (least: nat)
    requires keys != [] && forall k :: 0 <= k < |keys| ==> keys[k] in loads
    ensures exists m :: 0 <= m < |keys| && least == loads[keys[m]]
    ensures forall m :: 0 <= m < |keys| ==> least <= loads[keys[m]]
  {
    least := loads[keys[0]];
    var k := 1;
    while k < |keys|
      invariant 1 <= k <= |keys|
      invariant exists m :: 0 <= m < k && least == loads[keys[m]]
      invariant forall m :: 0 <= m < k ==> least <= loads[keys[m]]
    {
      if loads[keys[k]] < least {
        least := loads[keys[k]];
      }
      k := k + 1;
    }
  }

  /** `array_keys($userWorkloads, $least)[0]`: the first key, in insertion
      order, whose workload is `least`. */
  method FirstKeyWith(keys: seq<UserId>, loads: map<UserId, nat>, least: nat) returns (p: nat)
    requires forall k :: 0 <= k < |keys| ==> keys[k] in loads
    requires exists m :: 0 <= m < |keys| && least == loads[keys[m]]
    ensures p < |keys| && loads[keys[p]] == least
    ensures forall m :: 0 <= m < p ==> loads[keys[m]] != least
  {
    p := 0;
    while loads[keys[p]] != least
      invariant 0 <= p < |keys|
      invariant forall m :: 0 <= m < p ==> loads[keys[m]] != least
      invariant exists m :: p <= m < |keys| && least == loads[keys[m]]
      decreases |keys| - p
    {
      p := p + 1;
    }
  }
}
