/**
 * The sidebar: the navigation entries with the active one highlighted, the
 * collapsed-mode labels and tooltips, and the plan-status gauge.
 */
module Sidebar {
  import opened Optional
  import CreditWidget

  datatype NavItem = NavItem(caption: string, path: string)

  /** `navItems`, in display order. */
  const NavItems: seq<NavItem> := [
    NavItem("Dashboard", "/"),
    NavItem("Produtos", "/produtos"),
    NavItem("Atendimento", "/atendimento"),
    NavItem("Analytics", "/analytics"),
    NavItem("Meu Perfil", "/perfil"),
    NavItem("Planos", "/billing/plans")
  ]

  /** A rendered entry: the inline label when expanded, the tooltip when collapsed. */
  datatype NavEntry = NavEntry(path: string, active: bool, inlineLabel: Option<string>, tooltip: Option<string>)

  /** `maxPlanCredits`, written out again in the sidebar. */
  function MaxPlanCredits(plan: string): (cap: int)
    ensures cap == CreditWidget.MaxCredits(plan)
  {
    if plan == "trial" then 50 else if plan == "starter" then 100 else if plan == "growth" then 300 else 800
  }

  /** `remainingPercent`: the balance as a share of the plan cap, capped above at 100. */
  function RemainingPercent(plan: string, totalCredits: int): (left: real)
    ensures left <= 100.0
    ensures totalCredits >= MaxPlanCredits(plan) ==> left == 100.0
    ensures totalCredits <= MaxPlanCredits(plan) ==>
      left * (MaxPlanCredits(plan) as real) == (totalCredits as real) * 100.0
    ensures totalCredits < 0 ==> left < 0.0
  {
    var cap := MaxPlanCredits(plan) as real;
    var share := ((totalCredits as real) / cap) * 100.0;
    if share < 100.0 then share else 100.0
  }

  /** One entry: active on its own path; the label inline when expanded, in a tooltip when collapsed. */
  function Entry(item: NavItem, pathname: string, collapsed: bool): (e: NavEntry)
    ensures e.path == item.path
    ensures e.active <==> pathname == item.path
    ensures e.inlineLabel.Some? <==> !collapsed
    ensures e.tooltip.Some? <==> collapsed
    ensures e.inlineLabel.Some? ==> e.inlineLabel.value == item.caption
    ensures e.tooltip.Some? ==> e.tooltip.value == item.caption
  {
    NavEntry(item.path, pathname == item.path, if collapsed then None else Some(item.caption),
             if collapsed then Some(item.caption) else None)
  }

  /** The navigation list, one entry per item in order. */
  function Navigation(pathname: string, collapsed: bool): (entries: seq<NavEntry>)
    ensures |entries| == |NavItems|
    ensures forall i :: 0 <= i < |entries| ==> entries[i] == Entry(NavItems[i], pathname, collapsed)
  {
    seq(|NavItems|, i requires 0 <= i < |NavItems| => Entry(NavItems[i], pathname, collapsed))
  }

  /** The six paths are distinct, so at most one entry is highlighted, and the one on a listed path is. */
  lemma AtMostOneActive(pathname: string, collapsed: bool)
    ensures var entries := Navigation(pathname, collapsed);
      forall i, j :: 0 <= i < j < |entries| ==> !(entries[i].active && entries[j].active)
    ensures var entries := Navigation(pathname, collapsed);
      forall i :: 0 <= i < |entries| && NavItems[i].path == pathname ==> entries[i].active
  {
    var entries := Navigation(pathname, collapsed);
    forall i, j | 0 <= i < j < |entries|
      ensures !(entries[i].active && entries[j].active)
    {
      assert |NavItems[i].path| != |NavItems[j].path|;
    }
  }
}
