/** Tab selection: the `activeTab` slot names the section the sidebar chose,
    and `renderContent` picks the one view to show for it. */
module Tabs {

  const DashboardTab: string := "dashboard"
  const TablesTab: string := "tables"
  const CalendarTab: string := "calendar"
  const KanbanTab: string := "kanban"

  /** The four values the sidebar buttons write. */
  predicate IsTab(tab: string) {
    tab == DashboardTab || tab == TablesTab || tab == CalendarTab || tab == KanbanTab
  }

  /** The four views of the dashboard, one per component. */
  datatype View = Dashboard | DataTable | Calendar | KanbanBoard

  /** The tab whose sidebar button selects a view. */
  function TabOf(v: View): (tab: string)
    ensures IsTab(tab)
  {
    match v
    case Dashboard => DashboardTab
    case DataTable => TablesTab
    case Calendar => CalendarTab
    case KanbanBoard => KanbanTab
  }

  /** The switch in the renderer: each named tab shows its own view, and any
      other value falls back to the dashboard. */
  function RenderContent(activeTab: string): (v: View)
    ensures IsTab(activeTab) ==> TabOf(v) == activeTab
    ensures !IsTab(activeTab) ==> v == Dashboard
  {
    if activeTab == DashboardTab then Dashboard
    else if activeTab == TablesTab then DataTable
    else if activeTab == CalendarTab then Calendar
    else if activeTab == KanbanTab then KanbanBoard
    else Dashboard
  }

  /** Selecting the tab of a view renders exactly that view, so every view
      is reachable and no two tabs share a view. */
  lemma RenderTabOf(v: View)
    ensures RenderContent(TabOf(v)) == v
  {
  }

  /** Two different named tabs never render the same view. */
  lemma RenderInjectiveOnTabs(a: string, b: string)
    requires IsTab(a) && IsTab(b) && a != b
    ensures RenderContent(a) != RenderContent(b)
  {
  }

  /** The dashboard is shown exactly for its own tab and for every value
      that is not a tab. */
  lemma RenderDashboardIff(activeTab: string)
    ensures RenderContent(activeTab) == Dashboard <==> (activeTab == DashboardTab || !IsTab(activeTab))
  {
  }
}
