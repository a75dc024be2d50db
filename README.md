# TechMeet institute hub: the decision logic of the portal

This project models the client-side decisions of a role-based education portal (admin, teacher,
student) whose data and authentication live in a hosted database service. The model covers:

- the admin dashboard's user search and role filter, its badge colours, its `|| []` handling of
  missing query results, its "recent five" lists, its role counts, and the `fetchAllData` state
  update;
- the main dashboard's tab list per role, the overview chosen per role, and which tab bodies exist;
- the login modal's two forms (updated one field at a time), the validation of login and
  registration, the simulated user record, the role icon, and the order of `onLogin` / `onClose`;
- the admin login modal's handler: loading and error state, the admin-role gate, sign-out of
  non-admins, and the catch/finally behaviour, with the auth service's answers as parameters;
- the index page's session toggle between the landing page and the dashboard, and how the login
  modal's callbacks drive it.

One module per source file: `Schema` (the enums and profile row of the generated database types),
`AdminDashboard`, `Dashboard`, `LoginModal`, `AdminLoginModal`, `IndexPage`; plus `Common` (option,
result, remote-call outcome, toast) and `Text` (ASCII `toLowerCase` and `String.includes`).
Components whose state the source updates in place are classes (`AdminDashboardState`,
`LoginModalState`, `AdminLoginModalState`, `IndexState`); their handler methods are specified by pure
functions (`OrEmpty`, `LoginEffects`, `RegisterEffects`, `LoginRun`, `Step`) about which the lemmas
are proved. Remote calls are `Call<T>` values (`Returns(v)` or `Throws`); toasts, sign-out and the
callbacks are recorded in an `effects` sequence in the order the handler performs them.

The registration handler only validates the form and signs the user in with a locally built
record. The success path of both login-modal handlers calls `onLogin`, then `onClose`, then raises
the toast.

A failed admin login does not always show an error: when sign-in answers with neither a user nor
an error, or with an error whose message is empty, the attempt ends with no error shown and
`onLogin` not called (`NoUserNoErrorIsSilent`, `EmptyAuthMessageIsSilent`).

## Model

| member | source | states |
|---|---|---|
| Text.Lower | src/components/AdminDashboard.tsx:99-100 | `toLowerCase` on ASCII: same length, each character lower-cased, no upper-case letter left |
| Text.Includes | src/components/AdminDashboard.tsx:99-100 | `includes`: true when the needle is a prefix, and only when the needle is no longer than the haystack |
| Text.IncludesIffOccurs | src/components/AdminDashboard.tsx:99-100 | the `includes` test used by the search holds iff the needle occurs at some position of the haystack |
| Text.LowerIdempotent | src/components/AdminDashboard.tsx:99-100 | lower-casing twice is lower-casing once |
| Schema.ParseRole | src/integrations/supabase/types.ts:401 | a string is recognised as a role exactly when it is the name of one of student, teacher, admin, and then names that role |
| Schema.ParseRoleName | src/integrations/supabase/types.ts:531 | parsing a role's name gives back the role |
| Schema.ParseStatus | src/integrations/supabase/types.ts:399 | a string is a meeting status exactly when it names scheduled, active or ended |
| Schema.ParseStatusName | src/integrations/supabase/types.ts:529 | parsing a status name gives back the status |
| AdminDashboard.FilteredUsers | src/components/AdminDashboard.tsx:98-103 | a user is listed iff it is in `users`, the lower-cased term occurs in its lower-cased name or email, and the role filter is "all" or equals its role; the list is no longer than `users` |
| AdminDashboard.FilteredUsersIsSubsequence | src/components/AdminDashboard.tsx:98-103 | the filtered list is a subsequence of `users`: relative order is preserved |
| AdminDashboard.FilteredUsersKeepsMultiplicity | src/components/AdminDashboard.tsx:98-103 | a kept user appears in the filtered list exactly as many times as in `users` |
| AdminDashboard.FilteredUsersHaveRole | src/components/AdminDashboard.tsx:101 | with a role selected, every listed user has exactly that role |
| AdminDashboard.EmptySearchAllRolesKeepsEveryone | src/components/AdminDashboard.tsx:99-101 | with an empty search and "all", the filtered list equals `users` |
| AdminDashboard.SearchIgnoresCase | src/components/AdminDashboard.tsx:99-100 | lower-casing the search term first does not change the result |
| AdminDashboard.RoleColor | src/components/AdminDashboard.tsx:105-112 | admin red, teacher blue, student green, and gray exactly for strings that are no role |
| AdminDashboard.RoleColorsDistinguishRoles | src/components/AdminDashboard.tsx:105-112 | no role gets gray, and two roles get the same colour only if they are the same role |
| AdminDashboard.StatusColor | src/components/AdminDashboard.tsx:114-121 | green exactly for "active", blue exactly for "scheduled", gray for "ended" and every other string, never red |
| AdminDashboard.MeetingBadge | src/components/AdminDashboard.tsx:314 | a meeting's badge is green iff its status is active, blue iff scheduled, and gray iff it is ended or null |
| AdminDashboard.OrEmpty | src/components/AdminDashboard.tsx:82-85 | a null query result becomes the empty list, a non-null one is kept unchanged |
| AdminDashboard.Recent | src/components/AdminDashboard.tsx:280 | the recent list is a prefix of the full list with min(5, length) entries |
| AdminDashboard.CountRole | src/components/AdminDashboard.tsx:166 | a role count never exceeds the number of users |
| AdminDashboard.RoleCountsPartitionUsers | src/components/AdminDashboard.tsx:164-166 | student, teacher and admin counts add up to the total user count |
| AdminDashboard.StudentsAndTeachersAtMostTotal | src/components/AdminDashboard.tsx:164-166 | students plus teachers never exceed total users |
| AdminDashboard.CountRoleIsFilteredLength | src/components/AdminDashboard.tsx:166 | a role count equals the length of the user list filtered by that role with an empty search |
| AdminDashboard.AdminDashboardState.constructor | src/components/AdminDashboard.tsx:32-38 | empty lists, loading, empty search, role filter "all" |
| AdminDashboard.AdminDashboardState.FetchAllData | src/components/AdminDashboard.tsx:45-96 | when all four queries return, each list becomes its result with null as empty; when any throws, no list changes and the error toast is raised; loading is false afterwards |
| AdminDashboard.AdminDashboardState.SetSearchTerm | src/components/AdminDashboard.tsx:220 | sets the search term and nothing else |
| AdminDashboard.AdminDashboardState.SetSelectedRole | src/components/AdminDashboard.tsx:224 | sets the role filter and nothing else |
| Dashboard.TabsForRole | src/components/Dashboard.tsx:195-208 | every list starts with overview, video, calendar, has 3 to 5 entries and no duplicates; student adds tasks, teacher tasks and students, admin users and settings, any other role nothing |
| Dashboard.TabMembership | src/components/Dashboard.tsx:198-207 | tasks is offered iff the role is student or teacher, students iff teacher, users and settings iff admin |
| Dashboard.OverviewFor | src/components/Dashboard.tsx:182-193 | teacher view iff role is teacher, admin view iff admin, student view for student and every unrecognised role |
| Dashboard.PanelsFor | src/components/Dashboard.tsx:255-327 | overview, video, calendar and tasks bodies always exist; students only for teacher; users and settings only for admin |
| Dashboard.EveryTabHasPanel | src/components/Dashboard.tsx:242-328 | every tab a role is offered has a body |
| Dashboard.TasksPanelFor | src/components/Dashboard.tsx:283-297 | the Create-Task button appears iff the role is teacher, together with the "create and manage" caption |
| Dashboard.AdminOverviewIffUsersTab | src/components/Dashboard.tsx:182-208 | the admin overview is shown exactly to roles offered the users tab |
| LoginModal.WithLoginValue | src/components/LoginModal.tsx:128-174 | updating one login field sets that field and leaves the other two unchanged |
| LoginModal.WithRegisterValue | src/components/LoginModal.tsx:200-274 | updating one registration field sets that field and leaves the other five unchanged |
| LoginModal.CheckLogin | src/components/LoginModal.tsx:35-51 | rejected with "Please fill in all fields" iff institute ID, password or role is empty; otherwise id is the institute ID, role the role, no email, and the name is Admin User, John Teacher or Jane Student by role |
| LoginModal.LoginIgnoresPassword | src/components/LoginModal.tsx:46-51 | any non-empty password gives the same outcome |
| LoginModal.CheckRegister | src/components/LoginModal.tsx:62-89 | "Please fill in all fields" iff any of the six fields is empty (checked first); "Passwords do not match" iff all are filled and the passwords differ; accepted iff all six are filled and the passwords match, and then the record is institute ID, role, name and email, with no password |
| LoginModal.RegisterIgnoresPasswordValue | src/components/LoginModal.tsx:84-89 | an accepted registration has matching passwords and its record does not depend on their value |
| LoginModal.RoleIcon | src/components/LoginModal.tsx:100-107 | graduation cap exactly for student, user icon exactly for teacher, shield exactly for admin, no icon for any other string |
| LoginModal.RoleIconsDistinct | src/components/LoginModal.tsx:100-107 | distinct roles get distinct icons |
| LoginModal.LoginEffects | src/components/LoginModal.tsx:35-60 | a rejected login only raises the destructive "Please fill in all fields" toast; an accepted one calls `onLogin` with the record, then `onClose`, then raises a non-destructive toast |
| LoginModal.RegisterEffects | src/components/LoginModal.tsx:62-98 | a rejected registration only raises the destructive toast with its error; an accepted one calls `onLogin` with the record, then `onClose`, then raises a non-destructive toast |
| LoginModal.LoginCallbacks | src/components/LoginModal.tsx:53-54 | an accepted login calls `onLogin` once with the record and then `onClose`; a rejected one calls neither |
| LoginModal.RegisterCallbacks | src/components/LoginModal.tsx:91-92 | an accepted registration calls `onLogin` once and then `onClose`; a rejected one calls neither |
| LoginModal.LoginModalState.constructor | src/components/LoginModal.tsx:19-32 | both forms empty, password hidden, nothing done yet |
| LoginModal.LoginModalState.UpdateLogin | src/components/LoginModal.tsx:128-174 | changes one login field only; the registration form and all else unchanged |
| LoginModal.LoginModalState.UpdateRegister | src/components/LoginModal.tsx:200-274 | changes one registration field only; the login form and all else unchanged |
| LoginModal.LoginModalState.TogglePasswordVisibility | src/components/LoginModal.tsx:182 | flips the show-password flag and nothing else |
| LoginModal.LoginModalState.HandleLogin | src/components/LoginModal.tsx:35-60 | appends exactly the effects of `LoginEffects` on the current form; the forms are unchanged |
| LoginModal.LoginModalState.HandleRegister | src/components/LoginModal.tsx:62-98 | appends exactly the effects of `RegisterEffects` on the current form; the forms are unchanged |
| AdminLoginModal.LoginRun | src/components/AdminLoginModal.tsx:24-70 | every run of `handleLogin` first sets loading with the old error, then clears the error, and its last state is not loading |
| AdminLoginModal.LoginRunLoadingDiscipline | src/components/AdminLoginModal.tsx:26-69 | each attempt first sets loading, then clears the error, stays loading until its last state, and ends with loading false |
| AdminLoginModal.FinalErrorIsFresh | src/components/AdminLoginModal.tsx:27 | the error after an attempt and its effects do not depend on the error shown before it |
| AdminLoginModal.OnLoginOnlyForAdmin | src/components/AdminLoginModal.tsx:48-63 | `onLogin` is reached iff sign-in returns a user with no error and the profile exists with role admin |
| AdminLoginModal.AdmittedRun | src/components/AdminLoginModal.tsx:54-63 | an admin's attempt shows no error and does toast, `onLogin("admin", user with profile)`, `onClose`, in that order |
| AdminLoginModal.AuthErrorShown | src/components/AdminLoginModal.tsx:35-38 | an auth error's message becomes the error and nothing else happens |
| AdminLoginModal.NonAdminDenied | src/components/AdminLoginModal.tsx:48-52 | a missing or non-admin profile signs out and shows the access-denied message, replaced by the generic one if sign-out throws |
| AdminLoginModal.ThrowShowsUnexpected | src/components/AdminLoginModal.tsx:65-66 | a throw from sign-in or the profile lookup shows "An unexpected error occurred" and has no other effect |
| AdminLoginModal.NoUserNoErrorIsSilent | src/components/AdminLoginModal.tsx:35-40 | a sign-in answer with neither user nor error ends with no error shown and no effect |
| AdminLoginModal.EmptyAuthMessageIsSilent | src/components/AdminLoginModal.tsx:35-38 | an auth error with an empty message ends with no error shown and no effect |
| AdminLoginModal.RejectionShowsError | src/components/AdminLoginModal.tsx:35-66 | when sign-in yields a user or a non-empty error, the attempt fails to reach `onLogin` iff it ends with a non-empty error |
| AdminLoginModal.AdminLoginModalState.constructor | src/components/AdminLoginModal.tsx:18-21 | empty email and password, not loading, no error |
| AdminLoginModal.AdminLoginModalState.SetEmail | src/components/AdminLoginModal.tsx:89 | sets the email and nothing else |
| AdminLoginModal.AdminLoginModalState.SetPassword | src/components/AdminLoginModal.tsx:102 | sets the password and nothing else |
| AdminLoginModal.AdminLoginModalState.HandleLogin | src/components/AdminLoginModal.tsx:24-70 | passes through exactly the states of `LoginRun`, performs exactly its effects, ends not loading with its final error, and leaves email and password alone |
| IndexPage.Step | src/pages/Index.tsx:13-33 | login sets the user, logout clears it, and both leave the modal flag; the two buttons open the modal, `onClose` closes it, and these leave the user |
| IndexPage.Deliver | src/pages/Index.tsx:31-35 | running the modal's effects through the page: toasts alone change nothing, the user changes only through `onLogin`, the modal flag only through `onClose` |
| IndexPage.Render | src/pages/Index.tsx:21-36 | the dashboard is shown iff a user is set, for that user; otherwise the landing page with the modal open iff the flag is set |
| IndexPage.LoginIgnoresUserType | src/pages/Index.tsx:13-15 | the user type passed to `handleLogin` makes no difference |
| IndexPage.DeliverOnlyCallbacks | src/pages/Index.tsx:31-35 | toasts do not change the page; only the callbacks do |
| IndexPage.AcceptedLoginShowsDashboard | src/pages/Index.tsx:13-22 | after an accepted login the user is the record built from the form, the modal is closed, and the dashboard is shown |
| IndexPage.RejectedLoginChangesNothing | src/components/LoginModal.tsx:37-44 | a rejected login leaves the page state unchanged |
| IndexPage.AcceptedRegistrationShowsDashboard | src/components/LoginModal.tsx:84-92 | after an accepted registration the page shows the dashboard of the registered record with the modal closed |
| IndexPage.RejectedRegistrationChangesNothing | src/components/LoginModal.tsx:64-81 | a rejected registration leaves the page state unchanged |
| IndexPage.LoginThenLogoutLandsClosed | src/pages/Index.tsx:17-19 | signing in and then logging out shows the landing page with the modal closed |
| IndexPage.IndexState.constructor | src/pages/Index.tsx:10-11 | no user, modal closed |
| IndexPage.IndexState.HandleLogin | src/pages/Index.tsx:13-15 | sets the user to the record and leaves the modal flag |
| IndexPage.IndexState.HandleLogout | src/pages/Index.tsx:17-19 | clears the user and leaves the modal flag |
| IndexPage.IndexState.OpenLoginModal | src/pages/Index.tsx:27-28 | Navbar Login and Get Started open the modal and leave the user |
| IndexPage.IndexState.CloseLoginModal | src/pages/Index.tsx:33 | the modal's `onClose` closes it and leaves the user |
| IndexPage.IndexState.View | src/pages/Index.tsx:21-23 | the current screen is the dashboard iff the user is set |

## Left out

- The database queries of `fetchAllData`, the auth service's sign-in, profile lookup and sign-out are network calls into a library outside this model; only their outcomes (a value, null, an error message, or a throw) are parameters. The `created_at` ordering of the query results is the database's; the lists are kept in the order received.
- `toast` is a UI side effect; toasts are recorded as values in the `effects` / `toasts` sequences.
- `console.error` in the admin dashboard's `catch` writes to the browser console only; it is not modelled.
- RejectionShowsError: "a failed admin login shows an error" is stated only for sign-in answers that carry a user or a non-empty error message, because the source sets no error in the other two cases (see `NoUserNoErrorIsSilent` and `EmptyAuthMessageIsSilent`).
- `onLogin`, `onClose` and `toast` are assumed not to throw; a throw from them inside the admin handler's `try` is not modelled. The `{ error }` that `signOut` returns is ignored, as in the source.
- All JSX rendering, CSS classes, animations, the avatar initial (`charAt(0).toUpperCase()`), icons beyond their identity, and `toLocaleDateString` are presentational or locale behaviour.
- `toLowerCase` is modelled on ASCII letters only; Unicode case mapping is not.
- The dashboard's `activeTab` is a value driven only by the tab widget; it is not modelled.
- The show-password flag is modelled, but not its effect on the input's type.
- The registration role selector offers only student and teacher, but the handler accepts any non-empty role string; the model follows the handler.
- Async scheduling, React's batching of state updates and re-render timing: each handler is one sequential run, and `history` records the state after every setter call.
- The pending-user approval flow and institute-ID activation are not in the code of these components, so they are not modelled; the registration handler only simulates sign-up.
- The `task_status` enumeration is not used by these components and is not modelled; `src/components/HeroSection.tsx`, `src/components/FeaturesSection.tsx` and `src/components/Navbar.tsx` are static markup apart from the two buttons modelled by `OpenLoginModal`.
