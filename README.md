# backadmin — a Dafny model of the back-office logic

The back office is a Next.js interface for handling nationality-process requests
("serviços"). Its logic sits inside React components. This project models that logic and proves
properties of the model.

- **The service workflow of the service modal**: modules `ServiceWorkflow` and `ServiceModalState`.
  - The five action handlers and the inline "simulate payment" button each write a status together
    with its payload fields in one `updateService` call. The client-edit save is modelled too.
  - The buttons' `disabled`/visibility conditions are separate predicates. A click is the handler
    guarded by its button's predicate.
  - `ServiceModalState.ServiceModal` is a class that holds the record and the form fields. Each of
    its methods is proved equal to the pure handler.
- **The role/permission configuration page**: modules `Profiles` and `PermissionCatalogue`.
  - A record from role to permission list, toggled one permission at a time.
  - The record is saved to the browser store or reset to the compiled-in defaults.
  - The permission catalogue is grouped by category, in one pass of a reduce.
- **The permission checks of the authentication context**: module `Auth`.
  - `hasPermission`, `hasAnyPermission` and `hasAllPermissions` over the current user's role.
- **The user-management page**: module `Users`.
  - Edit by id, create by append, and delete with a guard against deleting oneself.
  - Each new list is written to the page state and to the store at once.
- **The dashboard list**: module `Dashboard`.
  - The search and status filter, and the distinct statuses offered in the filter.
- **The data model**: module `Types`.
  - The `ServiceStatus` enumeration with its string values, the `Service` and `ServiceWithRelations`
    record shapes, and the `LawyerAction` kind.
  - The role and permission enumerations.
- **Generic list helpers**: module `Seqs`.
  - `filter`, `includes`, `some`, `every`, and the first-occurrence order of a `Set`.

The contents of `ROLE_PERMISSIONS` are not modelled; every member that reads it takes it as a
parameter `table` (a total function from role to permission list). `updateService` belongs to the
services context, which is not part of this model. `ServiceWorkflow.ApplyUpdate` states the behaviour assumed for it: it overwrites the
fields the patch supplies, keeps the others, and stores a status member as its string.

In two places the code does something other than its names suggest, and the model follows the code:
- `hasPermission` reads only the compiled-in `ROLE_PERMISSIONS`, so an override saved on the
  profiles page never changes its answer (`Profiles.SavedConfigIgnoredByHasPermission`).
- The "Aprovar" and "Quase Lá" buttons are enabled at every status except STEP_7_APPROVED and
  STEP_8, so they are enabled after submission too (`ServiceWorkflow.ApproveReopensSubmitted`).

## Model

| member | source | states |
|---|---|---|
| Types.StatusName | src/lib/types.ts:8-29 | the string value of each of the twenty members, as declared; `StatusNameInjective` and `ParseStatusName` state that the values are distinct and read back |
| Types.ParseStatus | src/lib/types.ts:8-29 | a string reads as a status member only when it is that member's string value |
| Types.ParseStatusName | src/lib/types.ts:8-29 | every member's string reads back as that member |
| Types.ParseStepName | src/lib/types.ts:9-15 | the round trip for STEP_1 to STEP_7 |
| Types.ParseSubStepName | src/lib/types.ts:16-20 | the round trip for STEP_7_WAITING to STEP_8 |
| Types.ParseLaterName | src/lib/types.ts:21-28 | the round trip for the members after STEP_8 |
| Types.ParseStep8Name | src/lib/types.ts:21-24 | the round trip for the STEP_8 confirmations, CANCELLED and SUBMITTED |
| Types.ParseReviewName | src/lib/types.ts:25-28 | the round trip for UNDER_ANALYSIS to COMPLETED |
| Types.StatusNameInjective | src/lib/types.ts:8-29 | two members have the same string exactly when they are the same member |
| Types.StatusIs | src/lib/types.ts:117 | a stored status (null or any string) equals a member's string exactly when it parses as that member |
| Types.WithRelations | src/lib/types.ts:155-161 | a `ServiceWithRelations` is a service whose person and both document lists are present; the modal's constructor requires it of the record passed in |
| Types.ParseLawyerActionType | src/lib/types.ts:173-174 | exactly the four strings approve, refuse, almost and add_irn_data are action kinds, each read as its own kind |
| Types.LawyerActionRoundTrip | src/lib/types.ts:174 | every action kind's string reads back as that kind |
| Types.EveryRoleListed | src/app/configuracoes/perfis/page.tsx:156-173 | the role list holds every role, as the exhaustive role-label record does |
| Auth.HasPermission | src/contexts/AuthContext.tsx:42-46 | true exactly when there is a user and `p` is in the table entry of the user's role |
| Auth.HasAnyPermission | src/contexts/AuthContext.tsx:49-52 | true exactly when there is a user and some permission of the list is in the user's role entry |
| Auth.HasAllPermissions | src/contexts/AuthContext.tsx:55-58 | true exactly when there is a user and every permission of the list is in the user's role entry |
| Auth.NoUserHoldsNothing | src/contexts/AuthContext.tsx:42-58 | without a user all three checks are false, even for the empty list |
| Auth.EmptyList | src/contexts/AuthContext.tsx:49-58 | no one holds "any" of the empty list; a user exists exactly when they hold "all" of it |
| Auth.AllImpliesAny | src/contexts/AuthContext.tsx:49-58 | for a non-empty list, holding all of it implies holding some of it |
| Dashboard.ToLower | src/app/dashboard/page.tsx:34-36 | lower-casing keeps the length and lower-cases each ASCII letter in place |
| Dashboard.Includes | src/app/dashboard/page.tsx:34-36 | `includes` is true exactly when the needle occurs as a contiguous block |
| Dashboard.MatchesSearch | src/app/dashboard/page.tsx:33-36 | an empty search matches; otherwise the lowered search must occur in the lowered name, e-mail or process number (when there is one) |
| Dashboard.MatchesStatus | src/app/dashboard/page.tsx:38 | "all" matches every service; any other filter matches exactly the services whose status equals it |
| Dashboard.Matches | src/app/dashboard/page.tsx:31-40 | a service is listed when it matches both the search and the status filter |
| Dashboard.FilterServices | src/app/dashboard/page.tsx:30-42 | the result holds exactly the services matching both search and status, each as often as it occurs in the input; with a status filter every result has that status |
| Dashboard.FilterPreservesOrder | src/app/dashboard/page.tsx:31 | the filtered list is a subsequence of the services, in their order |
| Dashboard.NoFilterListsAll | src/app/dashboard/page.tsx:31-41 | with an empty search and "all", the result is the whole list |
| Dashboard.FilterIdempotent | src/app/dashboard/page.tsx:31-41 | filtering the result again gives the result |
| Dashboard.TruthyStatuses | src/app/dashboard/page.tsx:46 | holds exactly the non-null, non-empty statuses occurring in the services |
| Dashboard.UniqueStatuses | src/app/dashboard/page.tsx:45-48 | no duplicates, no empty status, and exactly the truthy statuses of the services |
| Seqs.FirstOccurrences | src/app/dashboard/page.tsx:46-47 | a `Set` read back as an array: no duplicates, and exactly the elements of the input |
| Profiles.AsConfig | src/app/configuracoes/perfis/page.tsx:177 | the defaults as a record: an entry for every role, equal to the table's list |
| Profiles.PermissionsOf | src/app/configuracoes/perfis/page.tsx:209 | a role's entry, or the empty list for a role without one |
| Profiles.DefaultsLookup | src/app/configuracoes/perfis/page.tsx:177 | every role's entry in the defaults is the table's list |
| Profiles.CanConfigure | src/app/configuracoes/perfis/page.tsx:196 | the page is usable exactly when there is a user whose role is ADMIN |
| Profiles.ConfigureGateIgnoresTable | src/app/configuracoes/perfis/page.tsx:196 | the gate looks at the role only: a non-administrator holding every permission is refused, an administrator holding none is let in |
| Profiles.Without | src/app/configuracoes/perfis/page.tsx:215 | the list without `p`: every occurrence of `p` gone, every other permission kept as often as it occurs and in its original order, so the list shrinks by the number of occurrences of `p` |
| Profiles.Toggled | src/app/configuracoes/perfis/page.tsx:209-216 | a present permission is removed entirely; an absent one is appended at the end; every other permission keeps its membership |
| Profiles.ToggledConfig | src/app/configuracoes/perfis/page.tsx:207-218 | only the toggled role's entry changes, and a role without an entry starts from the empty list |
| Profiles.ToggleTwiceMembership | src/app/configuracoes/perfis/page.tsx:210-216 | toggling twice restores the permission's membership and leaves the other roles alone |
| Profiles.ToggleAbsentTwice | src/app/configuracoes/perfis/page.tsx:214-216 | toggling an absent permission twice restores the list exactly |
| Profiles.TogglePresentTwice | src/app/configuracoes/perfis/page.tsx:214-216 | toggling a present permission twice drops its duplicates and moves it to the end |
| Profiles.SavedConfigIgnoredByHasPermission | src/contexts/AuthContext.tsx:44 | a saved record that drops a permission from a role does not take it away from a user of that role |
| Profiles.ProfilesPage.constructor | src/app/configuracoes/perfis/page.tsx:177-193 | the page starts from the defaults and adopts the stored record if there is one; BACKOFFICE is selected, with no changes and no message |
| Profiles.ProfilesPage.SelectRole | src/app/configuracoes/perfis/page.tsx:273 | only the selected role changes |
| Profiles.ProfilesPage.SaveEnabled | src/app/configuracoes/perfis/page.tsx:292 | the save button is enabled exactly when there are unsaved changes; `SaveConfig` requires it |
| Profiles.ProfilesPage.SelectedPermissions | src/app/configuracoes/perfis/page.tsx:249 | the selected role's entry, or the empty list when it has none |
| Profiles.ProfilesPage.TogglePermission | src/app/configuracoes/perfis/page.tsx:207-221 | the record becomes the toggled record; `hasChanges` is set and the saved message cleared |
| Profiles.ProfilesPage.SaveConfig | src/app/configuracoes/perfis/page.tsx:223-227 | the store holds the current record; `hasChanges` is cleared and the saved message shown |
| Profiles.ProfilesPage.HideSaveMessage | src/app/configuracoes/perfis/page.tsx:229 | the saved message is hidden and the page invariant is kept |
| Profiles.ProfilesPage.ResetToDefault | src/app/configuracoes/perfis/page.tsx:232-239 | when confirmed, the record becomes the defaults, the stored override is removed and both flags are cleared; otherwise nothing changes |
| PermissionCatalogue.PermissionLabels | src/app/configuracoes/perfis/page.tsx:12-154 | the 28 catalogue entries in declaration order, each with its permission, display name and category; `CatalogueDistinct` and `CatalogueComplete` state that every permission has exactly one entry |
| PermissionCatalogue.Push | src/app/configuracoes/perfis/page.tsx:243-246 | one step of the reduce: the category's array is created if missing, then the permission is pushed onto it |
| PermissionCatalogue.Reduce | src/app/configuracoes/perfis/page.tsx:242-247 | the reduce over the entries from an empty object; `ReduceKeys`, `ReduceOrder` and `ReduceGroups` state its keys, their order and its arrays |
| PermissionCatalogue.InCategory | src/app/configuracoes/perfis/page.tsx:242-247 | a category's permissions are exactly those of the entries carrying that category |
| PermissionCatalogue.InCategoryAbsent | src/app/configuracoes/perfis/page.tsx:244 | a category that no entry carries has no permissions |
| PermissionCatalogue.ReduceKeys | src/app/configuracoes/perfis/page.tsx:244 | the reduce's object has a key exactly for each category in its key order |
| PermissionCatalogue.ReduceOrder | src/app/configuracoes/perfis/page.tsx:242-247 | the keys come in order of each category's first appearance |
| PermissionCatalogue.ReduceGroups | src/app/configuracoes/perfis/page.tsx:242-247 | each key holds its category's permissions in declaration order |
| PermissionCatalogue.GroupByCategory | src/app/configuracoes/perfis/page.tsx:242-247 | the loop that pushes each entry onto its category's array computes the reduce |
| PermissionCatalogue.Entries | src/app/configuracoes/perfis/page.tsx:334 | one group per key, in key order, holding that key's array |
| PermissionCatalogue.PermissionsByCategory | src/app/configuracoes/perfis/page.tsx:242-247 | one group per category in order of first appearance, each holding its category's permissions in declaration order |
| PermissionCatalogue.EntryInOwnGroup | src/app/configuracoes/perfis/page.tsx:242-247 | every entry's permission is shown in the group of its own category |
| PermissionCatalogue.GroupsDisjoint | src/app/configuracoes/perfis/page.tsx:242-247 | when no permission is listed twice, a permission lies in one group only |
| PermissionCatalogue.CatalogueDistinct | src/app/configuracoes/perfis/page.tsx:12-154 | the catalogue lists no permission twice |
| PermissionCatalogue.CatalogueComplete | src/app/configuracoes/perfis/page.tsx:12-154 | every permission is listed in the catalogue |
| PermissionCatalogue.EachPermissionInOneGroup | src/app/configuracoes/perfis/page.tsx:12-247 | every permission is shown in the group of its own category and in no other group |
| Users.CanManageUsers | src/app/configuracoes/usuarios/page.tsx:68 | the page is usable exactly when there is a user whose role holds MANAGE_USERS |
| Users.FormFor | src/app/configuracoes/usuarios/page.tsx:79-88 | the form for an existing user carries the user's id, name, e-mail and role, with an empty password |
| Users.Edited | src/app/configuracoes/usuarios/page.tsx:119-127 | name, e-mail and role come from the form; the password changes only when one was typed; id, active flag and creation time are kept |
| Users.EditUsers | src/app/configuracoes/usuarios/page.tsx:118-129 | same length; records with the edited id are edited and all others are untouched |
| Users.EditKeepsIds | src/app/configuracoes/usuarios/page.tsx:118-129 | every record keeps its id, in place |
| Users.EditAbsentId | src/app/configuracoes/usuarios/page.tsx:118-129 | editing an id no record has changes nothing |
| Users.EditIdempotent | src/app/configuracoes/usuarios/page.tsx:118-129 | submitting the same edit twice gives the list of one submission |
| Users.NewUser | src/app/configuracoes/usuarios/page.tsx:133-141 | the new record has the form's fields, the given id and creation time, and is active |
| Users.CreateUser | src/app/configuracoes/usuarios/page.tsx:133-142 | exactly one record is appended at the end, and the existing records are unchanged |
| Users.DeleteUser | src/app/configuracoes/usuarios/page.tsx:155-157 | the result holds exactly the records whose id differs from the deleted one, each as often as it occurs in the input |
| Users.DeleteKeepsOrder | src/app/configuracoes/usuarios/page.tsx:156 | the remaining records keep their order |
| Users.DeleteAbsentId | src/app/configuracoes/usuarios/page.tsx:156 | deleting an id no record has changes nothing |
| Users.DeleteUndoesCreate | src/app/configuracoes/usuarios/page.tsx:133-157 | creating a user with a fresh id and then deleting that id gives back the list |
| Users.UsersPage.constructor | src/app/configuracoes/usuarios/page.tsx:45-59 | a readable stored list is shown; an unreadable one is replaced on screen by the built-in list; a missing one is filled with the built-in list |
| Users.UsersPage.SaveUsers | src/app/configuracoes/usuarios/page.tsx:62-65 | the page state and the store entry both become the new list |
| Users.UsersPage.OpenModal | src/app/configuracoes/usuarios/page.tsx:79-100 | the modal opens with the user's form, or the empty form for a new user, and the password hidden |
| Users.UsersPage.CloseModal | src/app/configuracoes/usuarios/page.tsx:102-110 | the modal closes and the form returns to empty fields with role VISUALIZADOR |
| Users.UsersPage.SetFormData | src/app/configuracoes/usuarios/page.tsx:286-336 | the form holds what was typed |
| Users.UsersPage.HandleSubmit | src/app/configuracoes/usuarios/page.tsx:113-146 | the edited list when editing, else the list with the new user appended; saved to the store; the modal closed and the form reset |
| Users.UsersPage.HandleDelete | src/app/configuracoes/usuarios/page.tsx:148-159 | deleting one's own id, or not confirming, changes nothing; a confirmed delete removes that id and saves |
| ServiceWorkflow.ApplyUpdate | src/components/pedidos/service-modal.tsx:53-116 | the assumed `updateService`: each supplied field is overwritten, each other field kept, and a status member stored as its string |
| ServiceWorkflow.NoChangeKeepsRecord | src/components/pedidos/service-modal.tsx:53-58 | an update supplying no field leaves the record unchanged |
| ServiceWorkflow.ApplyUpdateIdempotent | src/components/pedidos/service-modal.tsx:53-58 | sending the same update twice is the same as sending it once |
| ServiceWorkflow.TrimStart | src/components/pedidos/service-modal.tsx:70 | the suffix left after exactly the leading whitespace is dropped |
| ServiceWorkflow.TrimEnd | src/components/pedidos/service-modal.tsx:70 | the prefix left after exactly the trailing whitespace is dropped |
| ServiceWorkflow.Trim | src/components/pedidos/service-modal.tsx:70 | `trim`: both ends' whitespace dropped |
| ServiceWorkflow.IsBlank | src/components/pedidos/service-modal.tsx:70 | the note trims to the empty string |
| ServiceWorkflow.BlankIffAllSpace | src/components/pedidos/service-modal.tsx:70 | a note trims to empty exactly when all its characters are whitespace |
| ServiceWorkflow.ClampToMaxLength | src/components/pedidos/service-modal.tsx:486-495 | a typed value is cut to its first `n` characters and kept whole when it fits |
| ServiceWorkflow.Approved | src/components/pedidos/service-modal.tsx:63-64 | the status becomes STEP_7_APPROVED and no other field changes |
| ServiceWorkflow.MarkedAlmost | src/components/pedidos/service-modal.tsx:69-77 | a blank note leaves the record unchanged; otherwise status STEP_7_ALMOST and the untrimmed note are written together, and nothing else |
| ServiceWorkflow.WithIrnData | src/components/pedidos/service-modal.tsx:83-92 | an empty entity or reference changes nothing; otherwise entity, reference and status STEP_8 are written together, and nothing else |
| ServiceWorkflow.PaymentSimulated | src/components/pedidos/service-modal.tsx:370-371 | the status becomes STEP_8_CLIENT_CONFIRMED and no other field changes |
| ServiceWorkflow.GovernmentConfirmed | src/components/pedidos/service-modal.tsx:97-102 | status STEP_8_CONFIRMED_BY_GOVERNMENT, paid flag true and payment time `now` are written together, and nothing else |
| ServiceWorkflow.ProcessSubmitted | src/components/pedidos/service-modal.tsx:106-116 | an empty number or password changes nothing; otherwise both, status SUBMITTED and submission time `now` are written together, and nothing else |
| ServiceWorkflow.ClientFormOf | src/components/pedidos/service-modal.tsx:28-36 | the form starts from the person's fields, each absent one as the empty string, and is all empty without a person |
| ServiceWorkflow.Merged | src/components/pedidos/service-modal.tsx:54-57 | the seven form fields overwrite the person's and every other person field is kept |
| ServiceWorkflow.ClientEdited | src/components/pedidos/service-modal.tsx:51-58 | without a person nothing changes; otherwise only the person changes, to the merge |
| ServiceWorkflow.UneditedSaveFillsEmptyStrings | src/components/pedidos/service-modal.tsx:28-58 | saving the loaded form unedited turns an absent optional person field into an empty string |
| ServiceWorkflow.ReviewEnabled | src/components/pedidos/service-modal.tsx:315-323 | Approve and Almost are disabled when the status is STEP_7_APPROVED or STEP_8 |
| ServiceWorkflow.IrnEnabled | src/components/pedidos/service-modal.tsx:345 | the IRN button is enabled only when the status is STEP_7_APPROVED |
| ServiceWorkflow.PaymentOffered | src/components/pedidos/service-modal.tsx:366 | the simulate-payment button is shown only when the status is STEP_8 |
| ServiceWorkflow.GovernmentEnabled | src/components/pedidos/service-modal.tsx:399 | the government button is enabled only when the status is STEP_8_CLIENT_CONFIRMED |
| ServiceWorkflow.ProcessEnabled | src/components/pedidos/service-modal.tsx:419 | the process button is enabled only when the status is STEP_8_CONFIRMED_BY_GOVERNMENT |
| ServiceWorkflow.ReviewEnabledByMember | src/components/pedidos/service-modal.tsx:315-323 | Approve and Almost are disabled exactly at STEP_7_APPROVED and STEP_8, and enabled for every other status, unknown string or null |
| ServiceWorkflow.SingleStatusButtonsByMember | src/components/pedidos/service-modal.tsx:345-419 | IRN is enabled only at STEP_7_APPROVED, simulate-payment shown only at STEP_8, government only at STEP_8_CLIENT_CONFIRMED, process only at STEP_8_CONFIRMED_BY_GOVERNMENT |
| ServiceWorkflow.ForwardButtonsExclusive | src/components/pedidos/service-modal.tsx:345-419 | at most one of the four forward buttons is enabled at once |
| ServiceWorkflow.Enabled | src/components/pedidos/service-modal.tsx:306-419 | each action's button condition |
| ServiceWorkflow.Handle | src/components/pedidos/service-modal.tsx:63-116 | each action's handler, run whatever the status |
| ServiceWorkflow.Step | src/components/pedidos/service-modal.tsx:306-419 | a click on a disabled or hidden button changes nothing; on an enabled one it runs the handler |
| ServiceWorkflow.Run | src/components/pedidos/service-modal.tsx:306-419 | a sequence of clicks applied in order |
| ServiceWorkflow.StepKeepsOtherFields | src/components/pedidos/service-modal.tsx:63-116 | a click never changes a field outside the workflow fields |
| ServiceWorkflow.SameExceptTransitive | src/components/pedidos/service-modal.tsx:63-116 | "unchanged outside the workflow fields" composes over two steps |
| ServiceWorkflow.RunKeepsOtherFields | src/components/pedidos/service-modal.tsx:63-116 | no sequence of clicks changes a field outside the workflow fields |
| ServiceWorkflow.ReviewKeepsPhaseInv | src/components/pedidos/service-modal.tsx:63-80 | approving or marking "almost" keeps the stage data in step: the review statuses need none |
| ServiceWorkflow.IrnKeepsPhaseInv | src/components/pedidos/service-modal.tsx:83-92 | entering the IRN data reaches STEP_8 only with non-empty entity and reference |
| ServiceWorkflow.PaymentKeepsPhaseInv | src/components/pedidos/service-modal.tsx:366-371 | simulating the payment from STEP_8 keeps the IRN data |
| ServiceWorkflow.GovernmentKeepsPhaseInv | src/components/pedidos/service-modal.tsx:97-102 | confirming the government payment sets the paid flag with the status |
| ServiceWorkflow.ProcessKeepsPhaseInv | src/components/pedidos/service-modal.tsx:106-116 | submitting from STEP_8_CONFIRMED_BY_GOVERNMENT stores the process data on top of the IRN data and the payment |
| ServiceWorkflow.StepKeepsPhaseInv | src/components/pedidos/service-modal.tsx:63-419 | a click through an enabled button keeps the stage data in step with the status: IRN data from STEP_8 on, the government payment once confirmed, the process data once submitted, process data only on top of the other two |
| ServiceWorkflow.RunKeepsPhaseInv | src/components/pedidos/service-modal.tsx:63-419 | no sequence of clicks breaks that agreement |
| ServiceWorkflow.HandlerBreaksPhaseInv | src/components/pedidos/service-modal.tsx:106-419 | the submit handler alone breaks it from STEP_7 without IRN data; only the disabled process button prevents that |
| ServiceWorkflow.HappyPath | src/components/pedidos/service-modal.tsx:63-419 | approve, IRN, simulate, government and submit, through enabled buttons with non-empty values, end at SUBMITTED with every payload stored |
| ServiceWorkflow.ApproveReopensSubmitted | src/components/pedidos/service-modal.tsx:306-345 | at SUBMITTED, Approve is still enabled and sends the service back to STEP_7_APPROVED, re-enabling IRN |
| ServiceWorkflow.BlankNoteRefused | src/components/pedidos/service-modal.tsx:69-73 | an all-whitespace note is refused even when the button is enabled |
| ServiceModalState.ServiceModal.constructor | src/components/pedidos/service-modal.tsx:15-43 | the record passed in is a `ServiceWithRelations`; the record shown is the stored one if present, else the one passed in (and then has its relations); the forms start from its values, absent ones as "" |
| ServiceModalState.ServiceModal.StartEditingClient | src/components/pedidos/service-modal.tsx:157 | edit mode is entered |
| ServiceModalState.ServiceModal.CancelEditingClient | src/components/pedidos/service-modal.tsx:165 | edit mode is left, the form unchanged |
| ServiceModalState.ServiceModal.EditClient | src/components/pedidos/service-modal.tsx:179-228 | the client form holds what was typed |
| ServiceModalState.ServiceModal.HandleSaveClientEdit | src/components/pedidos/service-modal.tsx:51-59 | the record becomes the client-edited record, and edit mode ends only when a person exists |
| ServiceModalState.ServiceModal.HandleApprove | src/components/pedidos/service-modal.tsx:63-64 | the record becomes the approved record |
| ServiceModalState.ServiceModal.SetAlmostNote | src/components/pedidos/service-modal.tsx:462 | the note holds what was typed |
| ServiceModalState.ServiceModal.HandleAlmost | src/components/pedidos/service-modal.tsx:69-79 | the record becomes the marked record; the note is cleared only when accepted |
| ServiceModalState.ServiceModal.SetEntity | src/components/pedidos/service-modal.tsx:484-486 | the entity holds at most five typed characters |
| ServiceModalState.ServiceModal.SetReference | src/components/pedidos/service-modal.tsx:493-495 | the reference holds at most eleven typed characters |
| ServiceModalState.ServiceModal.HandleAddIRN | src/components/pedidos/service-modal.tsx:83-92 | the record becomes the record with the IRN data |
| ServiceModalState.ServiceModal.SimulatePayment | src/components/pedidos/service-modal.tsx:370-371 | the record becomes the payment-simulated record |
| ServiceModalState.ServiceModal.HandleConfirmGovernment | src/components/pedidos/service-modal.tsx:97-102 | the record becomes the government-confirmed record at `now` |
| ServiceModalState.ServiceModal.SetProcessNumber | src/components/pedidos/service-modal.tsx:520 | the process number holds what was typed |
| ServiceModalState.ServiceModal.SetProcessPassword | src/components/pedidos/service-modal.tsx:528 | the process password holds what was typed |
| ServiceModalState.ServiceModal.HandleSubmitProcess | src/components/pedidos/service-modal.tsx:106-116 | the record becomes the submitted record at `now` |

## Left out

- Browser storage (`localStorage`) and `JSON.parse` are not modelled as I/O. Each store entry is a field of the page class. An unreadable entry of the users page is the `Unreadable` case.
- Profiles.ProfilesPage.constructor: an unreadable `"role_permissions_config"` entry is treated like a missing one. The page shows the defaults in both cases, but in the source the unreadable text stays in the store.
- Loading and saving the current user in the authentication context (src/contexts/AuthContext.tsx:11-39) is not modelled. The current user is a parameter.
- The clock and the id generator are parameters: `now` for `new Date().toISOString()` and `newId` for `` `user_${Date.now()}` ``.
- Users.NewUser: the id's `user_` prefix and its timestamp are not modelled, so creating with an id already in the list is not excluded.
- The three-second timer that hides the saved message is not modelled. `HideSaveMessage` is the timer's effect.
- `toLowerCase` is modelled for ASCII letters only, and `trim` for ASCII whitespace only. Unicode case mapping and the Unicode space characters are not modelled.
- The answer to each `confirm` dialog is a boolean parameter. `alert` messages, JSX, styling, tabs, the mini-modal visibility flags and router navigation are presentation and are not modelled.
- The contents of `ROLE_PERMISSIONS` are not modelled: it is the parameter `table`. The string values of `UserRole` and `Permission` are not modelled either; only their members are.
- The services context (`getService`, `updateService`) is not part of this model. The record the modal opens with is the constructor's `stored` parameter, and the update follows the assumption stated on `ServiceWorkflow.ApplyUpdate`.
- The descriptions of the permission labels, the role labels and the role colours are display text and are not modelled. The catalogue keeps each entry's permission, display name and category.
- PermissionCatalogue.PermissionsByCategory: the model lists `Object.entries(PERMISSION_LABELS)` in declaration order. JavaScript lists integer-like keys first, so this assumes that no `Permission` string value is integer-like; those string values are not modelled.
- The HTML form validation of the user modal is not modelled: `required` on name, e-mail and (for a new user) password, and the e-mail input type. `HandleSubmit` accepts any form.
- The show-password toggle is not modelled. Only its reset when the modal opens is kept.
- The status history, service filters and pagination types of `src/lib/types.ts` are declared but used by no modelled operation.
- Phase-based visibility filtering and format checks of the process number and password are not modelled, because no source function implements them.
- The dashboard's login redirect and the overview, landing and layout pages are not modelled.
