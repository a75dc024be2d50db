/**
 * The admin dashboard: the lists it loads, the user search and role filter,
 * the badge colours, the "recent" lists and the role counts on the stats card.
 */
module AdminDashboard {
  import opened Common
  import opened Text
  import opened Schema

  /** A row of `classes` joined with its teacher's name. */
  datatype ClassRow = ClassRow(id: string, name: string, teacherName: Option<string>)

  /** A row of `tasks` joined with its class and teacher names. */
  datatype TaskRow = TaskRow(id: string, title: string, className: Option<string>, teacherName: Option<string>)

  /** A row of `meetings`; its status column is nullable. */
  datatype MeetingRow = MeetingRow(id: string, title: string, status: Option<MeetingStatus>,
                                   className: Option<string>, teacherName: Option<string>)

  /** The role selector: "all" or one role. */
  datatype RoleFilter = AllRoles | OnlyRole(role: Role)

  /** The badge background classes `bg-red-500`, `bg-blue-500`, `bg-green-500`, `bg-gray-500`. */
  datatype Badge = Red | Blue | Green | Gray

  /** How many entries the "Recent Tasks" and "Recent Meetings" cards show. */
  const RecentLimit: nat := 5

  /** The toast raised when loading fails. */
  const FetchFailedToast := ErrorToast("Failed to fetch data. Please try again.")

  // ----- search and role filter -----

  predicate MatchesSearch(u: Profile, searchTerm: string)
  {
    Includes(Lower(u.name), Lower(searchTerm)) || Includes(Lower(u.email), Lower(searchTerm))
  }

  predicate MatchesRole(u: Profile, selectedRole: RoleFilter)
  {
    selectedRole.AllRoles? || u.role == selectedRole.role
  }

  predicate Kept(u: Profile, searchTerm: string, selectedRole: RoleFilter)
  {
    MatchesSearch(u, searchTerm) && MatchesRole(u, selectedRole)
  }

  /** The users listed under "User Management": a user is kept iff it matches the search and the role. */
  function FilteredUsers(users: seq<Profile>, searchTerm: string, selectedRole: RoleFilter): (r: seq<Profile>)
    ensures |r| <= |users|
    ensures forall u :: u in r <==> u in users && Kept(u, searchTerm, selectedRole)
  {
    if users == [] then []
    else
      var rest := FilteredUsers(users[1..], searchTerm, selectedRole);
      if Kept(users[0], searchTerm, selectedRole) then [users[0]] + rest else rest
  }

  /** `a` can be obtained from `b` by deleting elements, keeping the order of the rest. */
  predicate IsSubsequence<T(==)>(a: seq<T>, b: seq<T>)
  {
    if a == [] then true
    else if b == [] then false
    else if a[0] == b[0] then IsSubsequence(a[1..], b[1..])
    else IsSubsequence(a, b[1..])
  }

  lemma {:induction false} FilteredUsersIsSubsequence(users: seq<Profile>, searchTerm: string, selectedRole: RoleFilter)
    ensures IsSubsequence(FilteredUsers(users, searchTerm, selectedRole), users)
  {
    if users != [] {
      FilteredUsersIsSubsequence(users[1..], searchTerm, selectedRole);
      var rest := FilteredUsers(users[1..], searchTerm, selectedRole);
      if !Kept(users[0], searchTerm, selectedRole) && rest != [] {
        assert rest[0] in rest;
        assert rest[0] != users[0];
      }
    }
  }

  /** A kept user is listed as many times as it occurs in `users`. */
  lemma {:induction false} FilteredUsersKeepsMultiplicity(users: seq<Profile>, searchTerm: string, selectedRole: RoleFilter, u: Profile)
    requires Kept(u, searchTerm, selectedRole)
    ensures multiset(FilteredUsers(users, searchTerm, selectedRole))[u] == multiset(users)[u]
  {
    if users != [] {
      FilteredUsersKeepsMultiplicity(users[1..], searchTerm, selectedRole, u);
      assert users == [users[0]] + users[1..];
      assert multiset(users) == multiset([users[0]]) + multiset(users[1..]);
    }
  }

  /** With role filter `r`, every listed user has role `r`. */
  lemma FilteredUsersHaveRole(users: seq<Profile>, searchTerm: string, r: Role)
    ensures forall u :: u in FilteredUsers(users, searchTerm, OnlyRole(r)) ==> u.role == r
  {
  }

  /** The initial state of the filter (empty search, "all") lists every user, in order. */
  lemma {:induction false} EmptySearchAllRolesKeepsEveryone(users: seq<Profile>)
    ensures FilteredUsers(users, "", AllRoles) == users
  {
    if users != [] {
      EmptySearchAllRolesKeepsEveryone(users[1..]);
      IncludesEmpty(Lower(users[0].name));
      assert Kept(users[0], "", AllRoles);
      assert [users[0]] + users[1..] == users;
    }
  }

  /** The search is case-insensitive: lower-casing the term first changes nothing. */
  lemma {:induction false} SearchIgnoresCase(users: seq<Profile>, searchTerm: string, selectedRole: RoleFilter)
    ensures FilteredUsers(users, Lower(searchTerm), selectedRole) == FilteredUsers(users, searchTerm, selectedRole)
  {
    LowerIdempotent(searchTerm);
    if users != [] {
      SearchIgnoresCase(users[1..], searchTerm, selectedRole);
    }
  }

  // ----- badges -----

  /** `getRoleColor`: admin red, teacher blue, student green, anything else gray. */
  function RoleColor(role: string): (b: Badge)
    ensures b == Red <==> role == "admin"
    ensures b == Blue <==> role == "teacher"
    ensures b == Green <==> role == "student"
    ensures b == Gray <==> ParseRole(role).None?
  {
    match ParseRole(role)
    case Some(Admin) => Red
    case Some(Teacher) => Blue
    case Some(Student) => Green
    case None => Gray
  }

  /** `getStatusColor`: active green, scheduled blue, ended and anything else gray. */
  function StatusColor(status: string): (b: Badge)
    ensures b == Green <==> status == "active"
    ensures b == Blue <==> status == "scheduled"
    ensures b == Gray <==> status != "active" && status != "scheduled"
    ensures b != Red
  {
    match ParseStatus(status)
    case Some(Active) => Green
    case Some(Scheduled) => Blue
    case Some(Ended) => Gray
    case None => Gray
  }

  /** The badge of a meeting row; a `null` status falls into the default case. */
  function MeetingBadge(m: MeetingRow): (b: Badge)
    ensures b == Green <==> m.status == Some(Active)
    ensures b == Blue <==> m.status == Some(Scheduled)
    ensures b == Gray <==> m.status != Some(Active) && m.status != Some(Scheduled)
  {
    match m.status
    case Some(s) => StatusColor(StatusName(s))
    case None => Gray
  }

  /** Distinct roles get distinct badges, and no role gets the default one. */
  lemma RoleColorsDistinguishRoles(r1: Role, r2: Role)
    ensures RoleColor(RoleName(r1)) != Gray
    ensures RoleColor(RoleName(r1)) == RoleColor(RoleName(r2)) <==> r1 == r2
  {
  }

  // ----- loading and the derived lists -----

  /** `data || []`: a missing result becomes the empty list, a present one is kept as is. */
  function OrEmpty<T>(data: Option<seq<T>>): (r: seq<T>)
    ensures data.None? ==> r == []
    ensures data.Some? ==> r == data.value
  {
    match data
    case Some(xs) => xs
    case None => []
  }

  /** `xs.slice(0, 5)`: a prefix of the list holding at most five entries. */
  function Recent<T>(xs: seq<T>): (r: seq<T>)
    ensures r <= xs
    ensures |r| == if |xs| < RecentLimit then |xs| else RecentLimit
  {
    if |xs| <= RecentLimit then xs else xs[..RecentLimit]
  }

  /** `users.filter(u => u.role === role).length`. */
  function CountRole(users: seq<Profile>, role: Role): (n: nat)
    ensures n <= |users|
  {
    if users == [] then 0
    else (if users[0].role == role then 1 else 0) + CountRole(users[1..], role)
  }

  /** The three role counts add up to the number of users. */
  lemma {:induction false} RoleCountsPartitionUsers(users: seq<Profile>)
    ensures CountRole(users, Student) + CountRole(users, Teacher) + CountRole(users, Admin) == |users|
  {
    if users != [] {
      RoleCountsPartitionUsers(users[1..]);
    }
  }

  /** The stats card's "students" and "teachers" never exceed the total. */
  lemma StudentsAndTeachersAtMostTotal(users: seq<Profile>)
    ensures CountRole(users, Student) + CountRole(users, Teacher) <= |users|
  {
  }

  /** A role count is the length of the user list filtered by that role with an empty search. */
  lemma {:induction false} CountRoleIsFilteredLength(users: seq<Profile>, role: Role)
    ensures CountRole(users, role) == |FilteredUsers(users, "", OnlyRole(role))|
  {
    if users != [] {
      CountRoleIsFilteredLength(users[1..], role);
      IncludesEmpty(Lower(users[0].name));
    }
  }

  /** The state of the admin dashboard component. */
  class AdminDashboardState {
    var users: seq<Profile>
    var classes: seq<ClassRow>
    var tasks: seq<TaskRow>
    var meetings: seq<MeetingRow>
    var loading: bool
    var searchTerm: string
    var selectedRole: RoleFilter
    var toasts: seq<Toast>

    constructor ()
      ensures users == [] && classes == [] && tasks == [] && meetings == []
      ensures loading && searchTerm == "" && selectedRole == AllRoles && toasts == []
    {
      users, classes, tasks, meetings := [], [], [], [];
      loading := true;
      searchTerm, selectedRole := "", AllRoles;
      toasts := [];
    }

    /**
     * `fetchAllData`: four queries awaited in order. Only when all four return are the lists
     * overwritten; a throw anywhere leaves them as they were and raises the error toast.
     * Either way `loading` ends false.
     */
    method FetchAllData(usersQuery: Call<Option<seq<Profile>>>, classesQuery: Call<Option<seq<ClassRow>>>,
                        tasksQuery: Call<Option<seq<TaskRow>>>, meetingsQuery: Call<Option<seq<MeetingRow>>>)
      modifies this
      ensures !loading
      ensures searchTerm == old(searchTerm) && selectedRole == old(selectedRole)
      ensures usersQuery.Returns? && classesQuery.Returns? && tasksQuery.Returns? && meetingsQuery.Returns? ==>
        && users == OrEmpty(usersQuery.value) && classes == OrEmpty(classesQuery.value)
        && tasks == OrEmpty(tasksQuery.value) && meetings == OrEmpty(meetingsQuery.value)
        && toasts == old(toasts)
      ensures usersQuery.Throws? || classesQuery.Throws? || tasksQuery.Throws? || meetingsQuery.Throws? ==>
        && users == old(users) && classes == old(classes) && tasks == old(tasks) && meetings == old(meetings)
        && toasts == old(toasts) + [FetchFailedToast]
    {
      var thrown := false;
      var usersData: Option<seq<Profile>> := None;
      var classesData: Option<seq<ClassRow>> := None;
      var tasksData: Option<seq<TaskRow>> := None;
      var meetingsData: Option<seq<MeetingRow>> := None;
      match usersQuery {
        case Throws => thrown := true;
        case Returns(d) => usersData := d;
      }
      if !thrown {
        match classesQuery {
          case Throws => thrown := true;
          case Returns(d) => classesData := d;
        }
      }
      if !thrown {
        match tasksQuery {
          case Throws => thrown := true;
          case Returns(d) => tasksData := d;
        }
      }
      if !thrown {
        match meetingsQuery {
          case Throws => thrown := true;
          case Returns(d) => meetingsData := d;
        }
      }
      if !thrown {
        users := OrEmpty(usersData);
        classes := OrEmpty(classesData);
        tasks := OrEmpty(tasksData);
        meetings := OrEmpty(meetingsData);
      } else {
        toasts := toasts + [FetchFailedToast];
      }
      loading := false;
    }

    /** The search box's `onChange`. */
    method SetSearchTerm(term: string)
      modifies this
      ensures searchTerm == term
      ensures users == old(users) && classes == old(classes) && tasks == old(tasks) && meetings == old(meetings)
      ensures loading == old(loading) && selectedRole == old(selectedRole) && toasts == old(toasts)
    {
      searchTerm := term;
    }

    /** The role selector's `onValueChange`. */
    method SetSelectedRole(filter: RoleFilter)
      modifies this
      ensures selectedRole == filter
      ensures users == old(users) && classes == old(classes) && tasks == old(tasks) && meetings == old(meetings)
      ensures loading == old(loading) && searchTerm == old(searchTerm) && toasts == old(toasts)
    {
      selectedRole := filter;
    }
  }
}
