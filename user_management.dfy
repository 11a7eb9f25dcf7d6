/**
 * The team page's rules: which of the four displayed permissions a user is
 * shown as holding, and the colour and gradient of the performance bar.
 */
module UserManagement {
  datatype Role = Admin | Manager | SalesRep

  /** The permissions shown on every user card, in this order. */
  const PermissionNames: seq<string> := ["Create Deals", "Edit Contacts", "View Reports", "Manage Team"]

  /** `hasPermission` for the permission at `index`: only the `all` entry of the list is consulted. */
  predicate HasPermission(role: Role, permissions: seq<string>, index: nat) {
    "all" in permissions || (role == Manager && index < 3) || (role == SalesRep && index < 2)
  }

  /** The four check marks of a user card. */
  function Grants(role: Role, permissions: seq<string>): (g: seq<bool>)
    ensures |g| == |PermissionNames|
    ensures forall i :: 0 <= i < |g| ==> g[i] == HasPermission(role, permissions, i)
  {
    [ HasPermission(role, permissions, 0), HasPermission(role, permissions, 1),
      HasPermission(role, permissions, 2), HasPermission(role, permissions, 3) ]
  }

  /** `all` grants all four, whatever the role. */
  lemma AllGrantsEverything(role: Role, permissions: seq<string>)
    requires "all" in permissions
    ensures Grants(role, permissions) == [true, true, true, true]
  {
  }

  /** Without `all`: a manager gets all but "Manage Team", a sales rep the first two, an admin none. */
  lemma GrantsByRole(role: Role, permissions: seq<string>)
    requires "all" !in permissions
    ensures role == Manager ==> Grants(role, permissions) == [true, true, true, false]
    ensures role == SalesRep ==> Grants(role, permissions) == [true, true, false, false]
    ensures role == Admin ==> Grants(role, permissions) == [false, false, false, false]
  {
  }

  /** Grants are prefix-closed: holding a permission means holding every one listed before it. */
  lemma GrantsPrefixClosed(role: Role, permissions: seq<string>, i: nat, j: nat)
    requires j <= i && HasPermission(role, permissions, i)
    ensures HasPermission(role, permissions, j)
  {
  }

  /** Two permission lists that agree on containing `all` grant the same. */
  lemma OnlyAllConsulted(role: Role, p1: seq<string>, p2: seq<string>)
    requires ("all" in p1) <==> ("all" in p2)
    ensures Grants(role, p1) == Grants(role, p2)
  {
  }

  /** `getPerformanceColor`. */
  function PerformanceColor(performance: int): string {
    if performance >= 90 then "text-crm-emerald bg-crm-emerald/20"
    else if performance >= 70 then "text-amber-400 bg-amber-500/20"
    else "text-red-400 bg-red-500/20"
  }

  /** `getPerformanceGradient`. */
  function PerformanceGradient(performance: int): string {
    if performance >= 90 then "from-crm-emerald to-emerald-400"
    else if performance >= 70 then "from-amber-500 to-amber-400"
    else "from-red-500 to-red-400"
  }

  /** The three bands: 90 and up emerald, 70 to 89 amber, below 70 red, for both colour and gradient. */
  lemma PerformanceBands(performance: int)
    ensures performance >= 90 <==> PerformanceColor(performance) == "text-crm-emerald bg-crm-emerald/20"
    ensures 70 <= performance < 90 <==> PerformanceColor(performance) == "text-amber-400 bg-amber-500/20"
    ensures performance < 70 <==> PerformanceColor(performance) == "text-red-400 bg-red-500/20"
    ensures performance >= 90 <==> PerformanceGradient(performance) == "from-crm-emerald to-emerald-400"
    ensures 70 <= performance < 90 <==> PerformanceGradient(performance) == "from-amber-500 to-amber-400"
    ensures performance < 70 <==> PerformanceGradient(performance) == "from-red-500 to-red-400"
  {
  }

  /** Colour and gradient share their thresholds: two scores get the same colour iff they get the same gradient. */
  lemma SharedThresholds(p: int, q: int)
    ensures PerformanceColor(p) == PerformanceColor(q) <==> PerformanceGradient(p) == PerformanceGradient(q)
  {
    PerformanceBands(p);
    PerformanceBands(q);
  }
}
