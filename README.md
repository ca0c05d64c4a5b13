# Military asset dashboard — a Dafny model

This project models the client-side logic of a React dashboard. The dashboard tracks a
military organisation's equipment across bases. It covers:

- **The four record pages.** Purchases, transfers, assignments and expenditures each keep
  an in-memory list of records and a set of filter inputs. Each shows the records that
  pass the filters and prepends new records created from an entry form. A new record's
  id is derived from the list length (`pur4`, `trans4`, …).
- **The four entry forms.** Each keeps a draft and an error dictionary, clears an input's
  error when the input is edited, validates the draft, and hands it to the page only when
  no error is found.
- **The dashboard.** It narrows the equipment summary rows by equipment type, totals their
  columns and labels the net movement. Its filter panel edits, applies and resets the
  dashboard filters.
- **Navigation.** The sidebar's role table hides links a visitor is not permitted to see
  and keeps at most one submenu open. The page frame's access gate sends visitors who are
  not signed in to `/login` and unpermitted visitors to `/unauthorized`. The application's
  route table maps paths to pages and roles.

**How the model is built.**

- Each React component whose state the handlers update is a Dafny `class`. The component's
  `useState` values are its fields, and each handler is a method whose `ensures` gives the
  complete new state.
- Each filter callback is written twice. The first version follows the page's own checks,
  in order. The second is a declarative reading of what a set filter means. The filtered
  list is proved to hold exactly the records that match, each as often as in the input, in their original order.
- Each validator is a method that builds the error dictionary check by check. It is proved
  equal to a declarative error function, and the form is proved accepted exactly when the
  draft is valid.
- Every page state keeps an invariant: its ids are `<prefix><k>` with `k` between 1 and the
  list length, and no id repeats. Creating a record preserves it, so a new id never
  collides with an existing one.

**Where the model follows the code rather than the design text.** The dashboard's
`filteredData` looks only at the equipment type. The date range and the base it receives
have no effect on the rows (`DashboardPage.OnlyTypeNarrows`).

The assignments page compares its end bound with the return date when there is one. An
assignment that started inside the window but was returned after it is therefore not
listed (`AssignmentsPage.ReturnedAfterEndExcluded`).

**Parameters and assumptions.**

- The date of today comes from the clock in the source and is a parameter here.
- The authentication context (`src/context/AuthContext`) is not part of this model. Its
  `isAuthenticated` flag and `hasPermission` check are a parameter (`Auth.Session`).
- `Auth.SignedInAs` reads permission as role membership. It is used only in the lemmas that
  state what each role sees.

## Model

| member | source | states |
|---|---|---|
| Strings.LexLeqTotalOrder | src/pages/PurchasesPage.tsx:47-54 | the string order used for the date bounds is a total order: reflexive, antisymmetric, transitive and total |
| Strings.ParseNatToString | src/pages/PurchasesPage.tsx:31 | the decimal rendering of a count reads back as the same count, so numbered ids carry their number |
| Collections.FilterCounts | src/pages/PurchasesPage.tsx:39-57 | `filter` keeps every copy of a kept element and no copy of any other |
| Collections.Find | src/pages/PurchasesPage.tsx:64 | `find` returns nothing exactly when no element matches, and otherwise the first element that matches |
| Types.ParseEquipmentType | src/types/index.ts:32 | a filter string names an equipment type exactly when it is that type's literal, and the empty string names none |
| Types.StatusNamesDistinct | src/types/index.ts:64 | the transfer and assignment status literals are non-empty and distinct, so filtering by status literal selects exactly one status |
| RecordIds.NextIdNumber | src/pages/PurchasesPage.tsx:31 | the id given when the list holds n records carries the number n + 1 |
| RecordIds.PrependNextId | src/pages/PurchasesPage.tsx:29-37 | prepending a record whose id is the prefix plus the length plus one keeps the ids well numbered, and the new id collides with none of the existing ids |
| RecordIds.SequentialIds | src/mock/mockData.ts:107-139 | ids numbered 1, 2, 3, … in list order, as in the seeded lists, are well numbered |
| FormErrors.Cleared | src/components/purchases/PurchaseForm.tsx:37-40 | editing an input leaves its error entry present, if it was present, but empty; an already empty entry is unchanged |
| PurchaseForm.PurchaseErrorsOf | src/components/purchases/PurchaseForm.tsx:43-76 | the equipment-type check never fires, and the dictionary is empty exactly when quantity and cost are positive and base, date, order number and supplier are non-empty |
| PurchaseForm.PurchaseFormState.constructor | src/components/purchases/PurchaseForm.tsx:21-31 | the form starts with a weapon, quantity 0, today's date, empty texts, cost 0, no notes entry and no errors |
| PurchaseForm.PurchaseFormState.HandleChange | src/components/purchases/PurchaseForm.tsx:33-41 | the edited input, the notes textarea included, takes the new value and only that input's error is cleared |
| PurchaseForm.PurchaseFormState.ValidateForm | src/components/purchases/PurchaseForm.tsx:43-76 | the stored errors are the declarative verdict on the draft, and the result is true exactly when the draft is valid |
| PurchaseForm.PurchaseFormState.HandleSubmit | src/components/purchases/PurchaseForm.tsx:78-84 | the draft reaches `onSubmit` exactly when it is valid, and the errors are updated either way |
| PurchaseForm.NotesNeverValidated | src/components/purchases/PurchaseForm.tsx:172-177 | the notes textarea stores its value, but the notes never affect the verdict |
| PurchaseForm.InitialPurchaseFormInvalid | src/components/purchases/PurchaseForm.tsx:21-76 | the initial form is rejected, with errors on quantity, base, order number, supplier and cost |
| TransferForm.TransferErrorsOf | src/components/transfers/TransferForm.tsx:41-70 | the destination has an error exactly when it is empty or equal to the source, and equal bases always report "must be different"; the dictionary is empty exactly when the draft is valid |
| TransferForm.TransferFormState.constructor | src/components/transfers/TransferForm.tsx:20-29 | the form starts with a weapon, quantity 0, empty bases and notes, today's date and no errors |
| TransferForm.TransferFormState.HandleChange | src/components/transfers/TransferForm.tsx:31-39 | the edited input takes the new value and only that input's error is cleared |
| TransferForm.TransferFormState.ValidateForm | src/components/transfers/TransferForm.tsx:41-70 | the sequential checks, with the later same-base check overwriting the destination error, give the declarative verdict; the result is true exactly when the draft is valid |
| TransferForm.TransferFormState.HandleSubmit | src/components/transfers/TransferForm.tsx:72-78 | the draft reaches `onSubmit` exactly when it is valid |
| TransferForm.BothBasesEmptyReportsSameBase | src/components/transfers/TransferForm.tsx:56-62 | with both bases empty, the destination reports "must be different", not "required" |
| TransferForm.NotesNeverValidated | src/components/transfers/TransferForm.tsx:41-70 | the notes never affect the verdict |
| ExpenditureForm.ExpenditureErrorsOf | src/components/expenditures/ExpenditureForm.tsx:39-64 | the equipment-type check never fires, and the dictionary is empty exactly when the draft is valid |
| ExpenditureForm.ExpenditureFormState.constructor | src/components/expenditures/ExpenditureForm.tsx:19-27 | the form starts with ammunition, quantity 0, today's date, empty base and purpose, and no errors |
| ExpenditureForm.ExpenditureFormState.HandleChange | src/components/expenditures/ExpenditureForm.tsx:29-37 | the edited input takes the new value and only that input's error is cleared |
| ExpenditureForm.ExpenditureFormState.ValidateForm | src/components/expenditures/ExpenditureForm.tsx:39-64 | the stored errors are the declarative verdict, and the result is true exactly when the draft is valid |
| ExpenditureForm.ExpenditureFormState.HandleSubmit | src/components/expenditures/ExpenditureForm.tsx:66-72 | the draft reaches `onSubmit` exactly when it is valid |
| ExpenditureForm.InitialExpenditureFormInvalid | src/components/expenditures/ExpenditureForm.tsx:19-64 | the initial form preselects ammunition and is rejected for its zero quantity |
| AssignmentForm.AssignmentErrorsOf | src/components/assignments/AssignmentForm.tsx:36-57 | the dictionary is empty exactly when equipment, personnel, date and purpose are all non-empty |
| AssignmentForm.AssignmentFormState.constructor | src/components/assignments/AssignmentForm.tsx:17-24 | the form starts with empty equipment, personnel and purpose, today's date and no errors |
| AssignmentForm.AssignmentFormState.HandleChange | src/components/assignments/AssignmentForm.tsx:26-34 | the edited input takes the new value and only that input's error is cleared |
| AssignmentForm.AssignmentFormState.ValidateForm | src/components/assignments/AssignmentForm.tsx:36-57 | the stored errors are the declarative verdict, and the result is true exactly when the draft is valid |
| AssignmentForm.AssignmentFormState.HandleSubmit | src/components/assignments/AssignmentForm.tsx:59-65 | the draft reaches `onSubmit` exactly when it is valid |
| AssignmentForm.InitialAssignmentFormInvalid | src/components/assignments/AssignmentForm.tsx:17-57 | the initial form is rejected, with errors on equipment, personnel and purpose |
| AssignmentForm.AvailableEquipment | src/components/assignments/AssignmentForm.tsx:68-70 | the choosable equipment is exactly the available equipment, each item as often as in the input, in its original order |
| AssignmentForm.SeededAvailableEquipment | src/components/assignments/AssignmentForm.tsx:68-70 | of the seeded equipment, the first and third items are choosable |
| PurchasesPage.FilteredPurchases | src/pages/PurchasesPage.tsx:39-57 | the listed purchases are exactly those matching every set filter (base, type, inclusive date window), each as often as in the input, in their original order |
| PurchasesPage.NoFiltersListsAll | src/pages/PurchasesPage.tsx:15-20 | with the initial, empty filters every purchase is listed |
| PurchasesPage.FilteredPurchasesIdempotent | src/pages/PurchasesPage.tsx:39-57 | filtering the listed purchases again changes nothing |
| PurchasesPage.BaseName | src/pages/PurchasesPage.tsx:63-66 | the name of the first base with the id, or "Unknown Base" when none has it |
| PurchasesPage.SeededBaseNames | src/mock/mockData.ts:56-76 | base1, base2 and base3 resolve to Fort Alpha, Base Bravo and Camp Charlie, and every other id is unknown |
| PurchasesPage.PurchasesPageState.constructor | src/pages/PurchasesPage.tsx:13-20 | the page starts with the seeded purchases, well numbered, no filters and the form hidden |
| PurchasesPage.PurchasesPageState.HandleFilterChange | src/pages/PurchasesPage.tsx:22-27 | the named filter takes the value; the other filters keep theirs |
| PurchasesPage.PurchasesPageState.HandleCreatePurchase | src/pages/PurchasesPage.tsx:29-37 | the submitted purchase is prepended under a fresh id, the ids stay well numbered, and the form closes |
| TransfersPage.FilteredTransfers | src/pages/TransfersPage.tsx:43-69 | the listed transfers are exactly those matching every set filter (both bases, type, status, inclusive date window), each as often as in the input, in order |
| TransfersPage.NoFiltersListsAll | src/pages/TransfersPage.tsx:15-22 | with the initial, empty filters every transfer is listed |
| TransfersPage.FilteredTransfersIdempotent | src/pages/TransfersPage.tsx:43-69 | filtering the listed transfers again changes nothing |
| TransfersPage.FormatEquipmentType | src/pages/TransfersPage.tsx:80-82 | the label has the same length, with the first character upper-cased and the rest unchanged |
| TransfersPage.FormatEquipmentTypeLabels | src/pages/TransfersPage.tsx:80-82 | formatting twice is formatting once, and "weapon" and "communication" become "Weapon" and "Communication" |
| TransfersPage.TransfersPageState.constructor | src/pages/TransfersPage.tsx:13-22 | the page starts with the seeded transfers, well numbered, no filters and the form hidden |
| TransfersPage.TransfersPageState.HandleFilterChange | src/pages/TransfersPage.tsx:24-29 | the named filter takes the value; the other filters keep theirs |
| TransfersPage.TransfersPageState.HandleCreateTransfer | src/pages/TransfersPage.tsx:31-41 | a pending transfer authorised by user "1" is prepended under a fresh id, the ids stay well numbered, and the form closes |
| AssignmentsPage.FilteredAssignments | src/pages/AssignmentsPage.tsx:42-62 | the listed assignments are exactly those of the set status whose period starts no earlier than the start bound and ends, at its return date if any, no later than the end bound, each as often as in the input, in order |
| AssignmentsPage.NoFiltersListsAll | src/pages/AssignmentsPage.tsx:15-19 | with the initial, empty filters every assignment is listed |
| AssignmentsPage.FilteredAssignmentsIdempotent | src/pages/AssignmentsPage.tsx:42-62 | filtering the listed assignments again changes nothing |
| AssignmentsPage.ReturnedAfterEndExcluded | src/pages/AssignmentsPage.tsx:50-58 | an assignment returned after the end bound is not listed, even if it started inside the window |
| AssignmentsPage.SeededEndBound | src/pages/AssignmentsPage.tsx:50-58 | with end bound 2023-10-01 the seeded assignment returned on 2023-10-15 is dropped and the open one is kept |
| AssignmentsPage.PersonnelName | src/pages/AssignmentsPage.tsx:92-102 | a known id gives its directory name, any other id "Unknown Personnel", and the name is never empty |
| AssignmentsPage.PersonnelDirectory | src/pages/AssignmentsPage.tsx:93-99 | the directory knows exactly p001 to p005 |
| AssignmentsPage.AssignmentsPageState.constructor | src/pages/AssignmentsPage.tsx:13-19 | the page starts with the seeded assignments, well numbered, no filters and the form hidden |
| AssignmentsPage.AssignmentsPageState.HandleFilterChange | src/pages/AssignmentsPage.tsx:21-26 | the named filter takes the value; the other filters keep theirs |
| AssignmentsPage.AssignmentsPageState.HandleCreateAssignment | src/pages/AssignmentsPage.tsx:28-40 | an active, unreturned assignment is prepended under a fresh id, the ids stay well numbered, and the form closes |
| ExpendituresPage.FilteredExpenditures | src/pages/ExpendituresPage.tsx:39-57 | the listed expenditures are exactly those matching every set filter (base, type, inclusive date window), each as often as in the input, in their original order |
| ExpendituresPage.NoFiltersListsAll | src/pages/ExpendituresPage.tsx:14-19 | with the initial, empty filters every expenditure is listed |
| ExpendituresPage.FilteredExpendituresIdempotent | src/pages/ExpendituresPage.tsx:39-57 | filtering the listed expenditures again changes nothing |
| ExpendituresPage.ExpendituresPageState.constructor | src/pages/ExpendituresPage.tsx:12-19 | the page starts with the seeded expenditures, well numbered, no filters and the form hidden |
| ExpendituresPage.ExpendituresPageState.HandleFilterChange | src/pages/ExpendituresPage.tsx:21-26 | the named filter takes the value; the other filters keep theirs |
| ExpendituresPage.ExpendituresPageState.HandleCreateExpenditure | src/pages/ExpendituresPage.tsx:28-37 | an expenditure authorised by user "1" is prepended under a fresh id, the ids stay well numbered, and the form closes |
| DashboardPage.FilteredData | src/pages/DashboardPage.tsx:19-25 | the rows shown are exactly the rows of the set type (every row when none is set), each as often as in the input, in order |
| DashboardPage.OnlyTypeNarrows | src/pages/DashboardPage.tsx:19-25 | the date range and base do not change the rows, and without a type every row is shown |
| DashboardPage.SumOfNetMovement | src/pages/DashboardPage.tsx:34 | summing the per-row movement gives total purchases plus total transfers in minus total transfers out |
| DashboardPage.TotalsOf | src/pages/DashboardPage.tsx:28-50 | the net movement is purchases plus transfers in minus transfers out, excluding assignments and expenditures, and no rows give all zeros |
| DashboardPage.ComputeTotals | src/pages/DashboardPage.tsx:28-50 | the row-by-row accumulation yields every column summed over the rows |
| DashboardPage.NetMovementLabel | src/pages/DashboardPage.tsx:79 | the label starts with '+' exactly when the movement is non-negative, and with '-' otherwise; its digits read back as the magnitude |
| DashboardPage.DashboardPageState.constructor | src/pages/DashboardPage.tsx:11-16 | the dashboard starts with today as both ends of the range, and no base and no type |
| DashboardPage.DashboardPageState.HandleApplyFilters | src/pages/DashboardPage.tsx:57-59 | the filters handed over become the dashboard's filters |
| DashboardPage.SeededAmmunitionTotals | src/mock/mockData.ts:239-248 | filtering the seeded rows by ammunition leaves the one ammunition row, with closing balance 31500 and net movement 15000 |
| FilterBar.ResetShowsAllRows | src/components/dashboard/FilterBar.tsx:55-64 | after a reset the dashboard shows every summary row |
| FilterBar.StoredValue | src/components/dashboard/FilterBar.tsx:45 | an empty value is stored as no value, and any other value as itself |
| FilterBar.FilterChanged | src/components/dashboard/FilterBar.tsx:25-48 | a date key changes only its end of the range, the base and type keys store their value with "" as none, and other keys change nothing |
| FilterBar.FilterChangesCompose | src/components/dashboard/FilterBar.tsx:25-48 | of two changes to one key the later wins, and changes to different keys commute |
| FilterBar.ClearedTypeShowsAllRows | src/components/dashboard/FilterBar.tsx:42-46 | clearing the type makes the dashboard show every row |
| FilterBar.FilterBarState.constructor | src/components/dashboard/FilterBar.tsx:13-19 | the panel starts closed, with the reset filters |
| FilterBar.FilterBarState.ToggleFilter | src/components/dashboard/FilterBar.tsx:21-23 | the panel's open flag is negated, so two toggles restore it |
| FilterBar.FilterBarState.HandleFilterChange | src/components/dashboard/FilterBar.tsx:25-48 | the filters become the changed filters |
| FilterBar.FilterBarState.HandleApplyFilters | src/components/dashboard/FilterBar.tsx:50-53 | the current filters are handed over unchanged and the panel closes |
| FilterBar.FilterBarState.HandleResetFilters | src/components/dashboard/FilterBar.tsx:55-64 | the filters are reset and the same reset value is handed over; the open flag is unchanged |
| Layout.LayoutDecision | src/components/layout/Layout.tsx:14-30 | the page renders exactly when sign-in is not required or the visitor is signed in and permitted; otherwise it sends to /login when not signed in and to /unauthorized when not permitted |
| Layout.DefaultRolesAdmitEveryRole | src/components/layout/Layout.tsx:18 | the default role list admits every signed-in role, and nobody signed out |
| Sidebar.RoleTable | src/components/layout/Sidebar.tsx:18-69 | settings is for administrators only, expenditures for administrators and base commanders, and every other link and sublink for all three roles |
| Sidebar.ShownSubLinks | src/components/layout/Sidebar.tsx:136-142 | sublinks show only under the open submenu, and then exactly the permitted ones, each as often as listed, in order |
| Sidebar.Menu | src/components/layout/Sidebar.tsx:116-120 | the menu holds exactly the permitted links, in order, each with its shown sublinks |
| Sidebar.SharedLinksFirst | src/components/layout/Sidebar.tsx:116-120 | a visitor permitted the first four links sees them, followed by whichever of the last two they are permitted |
| Sidebar.SharedLinksAdmitAll | src/components/layout/Sidebar.tsx:18-50 | a visitor permitted the all-roles list is permitted each of the four shared links |
| Sidebar.LogisticsOfficerMenu | src/components/layout/Sidebar.tsx:18-69 | a logistics officer sees the four shared links only |
| Sidebar.BaseCommanderMenu | src/components/layout/Sidebar.tsx:18-69 | a base commander also sees expenditures, but not settings |
| Sidebar.AdminMenu | src/components/layout/Sidebar.tsx:18-69 | an administrator sees every link |
| Sidebar.LogisticsOfficerSubmenu | src/components/layout/Sidebar.tsx:37-56 | with the assignments submenu open, a logistics officer sees both of its sublinks |
| Sidebar.Toggled | src/components/layout/Sidebar.tsx:71-77 | toggling opens the given submenu exactly when it was not the open one, and closes everything exactly when it was |
| Sidebar.ToggleTwice | src/components/layout/Sidebar.tsx:71-77 | two toggles of one submenu restore a closed or already open state, but close any other open submenu for good |
| Sidebar.SidebarState.constructor | src/components/layout/Sidebar.tsx:16 | no submenu is open at first |
| Sidebar.SidebarState.ToggleSubmenu | src/components/layout/Sidebar.tsx:71-77 | the open submenu becomes the toggled value |
| App.Route | src/App.tsx:18-85 | an ungated route shows only the login or unauthorized page, every gated page sits behind the frame with the same roles wherever it is routed, and redirects lead only to /login or /dashboard |
| App.Visit | src/App.tsx:21-85 | one visit shows a gated page only to a signed-in visitor permitted its roles, and otherwise sends on only to /login, /unauthorized or /dashboard |
| App.Follow | src/App.tsx:18-85 | however many redirects are followed, a gated page is reached only by a signed-in visitor permitted its roles |
| App.RouteTable | src/App.tsx:18-85 | only /login and /unauthorized are ungated; only /expenditures narrows the roles, to administrators and base commanders; the three assignment paths show the assignments page; redirects lead to /login or /dashboard |
| App.GuardedVisitSettles | src/App.tsx:21-82 | a gated page is shown exactly to a signed-in, permitted visitor; others land on the login or unauthorized page |
| App.NoRedirectLoops | src/App.tsx:84-85 | every path reaches a page within three visits, and signed out, every path but /unauthorized ends at the login page |
| App.ExpendituresByRole | src/App.tsx:71-79 | administrators and base commanders reach the expenditures page, while logistics officers land on the unauthorized page |
| App.SidebarLinksRouted | src/App.tsx:21-85 | each sidebar link but settings leads to a gated page admitting exactly the link's roles, and /settings falls through to the dashboard |

## Left out

- Rendering, icons, badges, date formatting (`formatDate`), table columns and the show/hide button for the entry forms are presentation. `getEquipmentName`, `getEquipmentType` and `getStatusBadge` are display lookups and are not modelled.
- The clock: "today" is a parameter wherever the source reads `new Date()`.
- The authentication context, sign-in and sign-out are not part of this model. Permission is a parameter, and role membership is only an example reading of it.
- The login page and the unauthorized page are treated as screens; their own behaviour is not modelled.
- Strings.LexLess: compares code points, whereas JavaScript compares UTF-16 code units; the two orders differ only outside the Basic Multilingual Plane.
- TransfersPage.UpperAscii: upper-cases ASCII letters only, whereas `toUpperCase` also maps other scripts; the equipment-type literals are ASCII.
- Numeric inputs are integers. `handleChange` stores raw input strings, so JavaScript coercion of a number field's string value is not modelled.
- The forms' "Equipment type is required" check is kept in the validators but can never fire, since the type is always one of the five non-empty literals.
- TransfersPage.TransfersPageState.HandleCreateTransfer: the created record omits the draft's `notes`, which the source spreads into the object but the `Transfer` type does not declare.
- PurchasesPage.PurchasesPageState.HandleCreatePurchase: the created record omits the draft's `notes`, which the source spreads into the object but the `Purchase` type does not declare.
- The pages' `handleFilterChange` accepts only the filter names the page declares. An unknown name, which the source would store as an extra property, leaves the filters unchanged here.
- FilterBar.FilterChanged: keys other than the four the panel sends leave the filters unchanged, whereas the source would add them as extra properties.
- App.Route: matches exact paths. The router's case-insensitive matching and trailing-slash handling are not modelled.
- AssignmentsPage.PersonnelName: the source's object lookup would also find inherited properties such as "constructor"; the model's map holds only the five ids.
- App.Follow: bounds the number of visits by fuel; `NoRedirectLoops` shows three always suffice.
- Mock users and the current user are not used by the modelled logic; the authoriser id "1" is a constant.
