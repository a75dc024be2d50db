/** The main dashboard: which tabs a role sees, which overview it gets, and which tab bodies exist. */
module Dashboard {
  import opened Schema

  /** The tab values `overview`, `video`, `calendar`, `tasks`, `students`, `users`, `settings`. */
  datatype Tab = Overview | Video | Calendar | Tasks | Students | Users | Settings

  /** The three overview layouts. */
  datatype OverviewView = StudentOverview | TeacherOverview | AdminOverview

  /** The body of the `tasks` tab: its caption and whether the Create-Task button is shown. */
  datatype TasksPanel = TasksPanel(caption: TasksCaption, createButton: bool)
  datatype TasksCaption = CreateAndManage | ViewAndSubmit

  /** The tabs every role gets, in this order. */
  const CommonTabs: seq<Tab> := [Overview, Video, Calendar]

  predicate NoDuplicates<T(==)>(s: seq<T>)
  {
    forall i, j :: 0 <= i < j < |s| ==> s[i] != s[j]
  }

  /** `getTabsForRole`: the common tabs followed by the role's own tabs. */
  function TabsForRole(role: string): (tabs: seq<Tab>)
    ensures 3 <= |tabs| <= 5 && tabs[..3] == CommonTabs
    ensures NoDuplicates(tabs)
    ensures role == "student" ==> tabs[3..] == [Tasks]
    ensures role == "teacher" ==> tabs[3..] == [Tasks, Students]
    ensures role == "admin" ==> tabs[3..] == [Users, Settings]
    ensures ParseRole(role).None? ==> tabs == CommonTabs
  {
    if role == "student" then CommonTabs + [Tasks]
    else if role == "teacher" then CommonTabs + [Tasks, Students]
    else if role == "admin" then CommonTabs + [Users, Settings]
    else CommonTabs
  }

  /** Which role sees which optional tab. */
  lemma TabMembership(role: string)
    ensures Tasks in TabsForRole(role) <==> role == "student" || role == "teacher"
    ensures Students in TabsForRole(role) <==> role == "teacher"
    ensures Users in TabsForRole(role) <==> role == "admin"
    ensures Settings in TabsForRole(role) <==> role == "admin"
  {
  }

  /** `getDashboardContent`: teacher and admin get their own overview, every other role the student one. */
  function OverviewFor(role: string): (v: OverviewView)
    ensures v == TeacherOverview <==> role == "teacher"
    ensures v == AdminOverview <==> role == "admin"
    ensures ParseRole(role).None? ==> v == StudentOverview
  {
    if role == "student" then StudentOverview
    else if role == "teacher" then TeacherOverview
    else if role == "admin" then AdminOverview
    else StudentOverview
  }

  /** The tab bodies the page renders: the four unconditional ones plus the role-conditional ones. */
  function PanelsFor(role: string): (panels: set<Tab>)
    ensures {Overview, Video, Calendar, Tasks} <= panels
    ensures Students in panels <==> role == "teacher"
    ensures Users in panels <==> role == "admin"
    ensures Settings in panels <==> role == "admin"
  {
    {Overview, Video, Calendar, Tasks}
      + (if role == "teacher" then {Students} else {})
      + (if role == "admin" then {Users, Settings} else {})
  }

  /** Every tab a role is offered has a body to show. */
  lemma EveryTabHasPanel(role: string)
    ensures forall t :: t in TabsForRole(role) ==> t in PanelsFor(role)
  {
  }

  /** The body of the `tasks` tab: only a teacher gets the Create-Task button and the "manage" caption. */
  function TasksPanelFor(role: string): (p: TasksPanel)
    ensures p.createButton <==> role == "teacher"
    ensures p.caption == CreateAndManage <==> p.createButton
  {
    if role == "teacher" then TasksPanel(CreateAndManage, true) else TasksPanel(ViewAndSubmit, false)
  }

  /** The admin overview is shown exactly to the role that gets the `users` tab. */
  lemma AdminOverviewIffUsersTab(role: string)
    ensures OverviewFor(role) == AdminOverview <==> Users in TabsForRole(role)
  {
  }
}
