# cmms-react-app client core, modelled in Dafny

This project models the browser client of a maintenance-management system (CMMS), which talks to a Django REST API. The model covers:

- **Authentication slice.** This is the Redux session with five reducers. The `authToken` storage cell sits beside it.
- **Login and logout flows.** They dispatch those reducers around the remote calls.
- **Resource bindings.** There are four of them: assets, parts, users and work orders. The model covers their request builders and cache tags, plus the technician filter of the work-order binding.
- **`ProtectedRoute`.** This is the guard in front of the application. The model covers its skip flag, its verification effect and its three-way render decision.
- **The list pages.** These are the work-order, user, asset and part pages. The model covers:
  - their permission predicates;
  - their form defaults and change handlers;
  - their save and delete handlers;
  - their error texts.
- **The main layout.** This covers the role-dependent menu, the drawer toggle and logout.
- **The login page.** This covers its submit guard, its error text and its redirect.

## How the model is built

- **Each remote call's outcome is an input.** A login response, a profile response, or a mutation's success is passed in as a value. The model never performs the call.
- **The session is a specification plus a store.** `AuthSlice.Apply` specifies one reducer step on a value. The class `AuthSlice.Session` is the in-place store. Each of its methods is proved to perform exactly the `Apply` step for its action.
- **The login and logout flows drive that store.** `AuthApi.LoginFlow` and `AuthApi.LogoutFlow` are methods on the `Session` class. They are proved to leave `Run(old state, dispatched actions)`.
- **JSON objects are maps.** A JSON object (a form's data or a request body) is a `map<string, Value>`. A JavaScript `undefined` field is an absent key.
- **Every truthiness test follows JavaScript.** The model writes out each one: `if (token)`, `if (toDeleteId)`, `x || fallback`.
- **`parseInt(value, 10) || 0` is written out.** `JsNumbers.ParseIntOrZero` skips ASCII blanks, reads an optional sign and the leading digits, and gives 0 when there are no digits.
- **One list-page state class serves all four pages.** `CrudPage.PageState` holds `openForm`, the selected entity, `openDeleteConfirm` and the pending id.

Three results follow from the proved invariant of the session (`AuthSlice.Consistent`). It says the stored token equals the session token, an authenticated session holds a token, and a truthy token is authenticated. The results are:

- In every state reachable from start-up, `ProtectedRoute` skips the profile query and its verification effect never fires (`ProtectedRoute.ReachableSkipsQuery`, `ProtectedRoute.ReachableEffectInert`).
- A cold start with a stored token renders the protected pages before any user profile is known (`ProtectedRoute.ColdStartRendersOutlet`).
- When the profile fetch fails after the token was granted, the user is briefly let in and then sent back (`LoginPage.ProfileFailureBouncesBack`). The provisional success authenticates them as a requester, so the login page navigates to `/dashboard` and the guard renders it. The later failure de-authenticates the session, the guard redirects to `/login`, and the login page shows no error there.

The model also shows a quirk of the work-order page's load alert. The page renames the `isError` flags of the assets and technicians queries to `assetsError` and `techniciansError`, then reads `?.data?.detail` on them. So when only one of those queries fails, the alert always shows the fallback text (`WorkOrderPage.AuxiliaryFailureHasNoDetail`).

A similar quirk sits in the login flow. Its `catch` reads `error?.data?…` on what `await queryFulfilled` throws, which is the query library's wrapper and has no `data` field of its own. So a rejected login always records `Credenciales inválidas.`, whatever the server said (`AuthApi.RejectedLoginStoresFixedText`). A rejected profile fetch, thrown by `.unwrap()`, does carry the server's message.

The technician list of the work-order page is never refetched by a mutation. Its `providesTags` gives `Users` tags (src/services/workOrdersApi.ts:79-85), which the comment at line 22 expects to be invalidated. But the `usersApi` mutations run in their own `createApi` slice, and the `workOrdersApi` mutations invalidate only `WorkOrders` tags. The lemmas are `WorkOrdersApi.TechniciansShareUserTags`, `UserMutationsSpareTechnicians` and `WorkOrderMutationsSpareTechnicians`. So a user created or edited on the user page does not reach the work-order form's selector until that query is fetched again for another reason.

## Model

The work-order, user and part pages are modelled as written, but the route table at src/App.tsx:86-99 does not mount them. `/work-orders`, `/inventory` and `/users` render only placeholder headings; `/assets` is the one route that renders its list page (src/App.tsx:82-85). So the `RoleMatrix` lemmas about those three pages' buttons describe components the application does not show in this version. The claims about the menu and the asset page do hold for what it shows.


| member | source | states |
|---|---|---|
| AuthSlice.Initial | src/stores/auth/authSlice.ts:14-20 | The start-up state restores the stored token with no user and no error. It is authenticated exactly when the stored token is non-empty (`!!token`). |
| AuthSlice.Apply | src/stores/auth/authSlice.ts:25-64 | One reducer step. `loginSuccess` authenticates as its user with its token. `loginFailure` and `logout` end the session. `loginStart` and `setUser` leave the token, the authentication flag and storage alone. Every other reducer stops loading and leaves storage holding the session token. |
| AuthSlice.Run | src/stores/auth/authSlice.ts:25-64 | Dispatching a sequence of actions in order: the empty sequence changes nothing, and a sequence ending in `logout` leaves no session and nothing stored. |
| AuthSlice.LoginStartEffect | src/stores/auth/authSlice.ts:27-30 | `loginStart` sets loading and clears the error. The user, the token, `isAuthenticated` and storage are unchanged. |
| AuthSlice.LoginSuccessEffect | src/stores/auth/authSlice.ts:32-41 | `loginSuccess(u,t)` authenticates as `u` with token `t` and stores `t`. It stops loading and leaves the error untouched. |
| AuthSlice.SecondLoginSuccessWins | src/stores/auth/authSlice.ts:32-41 | Of two successive successes, the second payload wins. |
| AuthSlice.LoginFailureEffect | src/stores/auth/authSlice.ts:43-50 | `loginFailure(m)` clears the user, the token and storage, de-authenticates, stops loading and records `m`. |
| AuthSlice.LogoutEffect | src/stores/auth/authSlice.ts:52-59 | `logout` clears the same fields, with no error. |
| AuthSlice.LogoutIdempotent | src/stores/auth/authSlice.ts:52-59 | Logging out twice is logging out once. |
| AuthSlice.SetUserChangesOnlyUser | src/stores/auth/authSlice.ts:61-63 | `setUser` changes the user and nothing else. |
| AuthSlice.StorageFollowsToken | src/stores/auth/authSlice.ts:32-59 | After a success, a failure or a logout, storage holds exactly the session token. |
| AuthSlice.InitialConsistent | src/stores/auth/authSlice.ts:16-17 | The start-up state satisfies the session invariant. |
| AuthSlice.ApplyPreservesConsistent | src/stores/auth/authSlice.ts:27-63 | Every reducer preserves the session invariant: authenticated implies a token, a truthy token implies authenticated, and storage mirrors the token. |
| AuthSlice.RunPreservesConsistent | src/stores/auth/authSlice.ts:27-63 | Any sequence of reducers preserves the invariant (induction on the sequence). |
| AuthSlice.RunConcat | src/stores/auth/authSlice.ts:27-63 | Dispatching `a + b` is dispatching `a`, then `b`. |
| AuthSlice.ReachableConsistent | src/stores/auth/authSlice.ts:14-63 | Every state reachable from start-up is consistent. |
| AuthSlice.LogoutEndsEverySession | src/stores/auth/authSlice.ts:52-59 | A final logout leaves no session and no stored token, whatever came before. |
| AuthSlice.ColdStartAuthenticatedWithoutUser | src/stores/auth/authSlice.ts:15-17 | At start-up with a stored token the session is authenticated, yet no user is known. |
| AuthSlice.Session.constructor | src/stores/auth/authSlice.ts:14-20 | The store starts in `Initial(stored token)`. |
| AuthSlice.Session.LoginStart | src/stores/auth/authSlice.ts:27-30 | Assigns exactly the fields `loginStart` assigns; the new state is `Apply(old, LoginStart)`. |
| AuthSlice.Session.LoginSuccess | src/stores/auth/authSlice.ts:32-41 | Assigns the five fields and the storage cell; the new state is `Apply(old, LoginSuccess(u,t))`. |
| AuthSlice.Session.LoginFailure | src/stores/auth/authSlice.ts:43-50 | Clears the session, records the message and removes the stored token; the new state is `Apply(old, LoginFailure(m))`. |
| AuthSlice.Session.Logout | src/stores/auth/authSlice.ts:52-59 | Clears the session and the stored token; the new state is `Apply(old, Logout)`. |
| AuthSlice.Session.SetUser | src/stores/auth/authSlice.ts:61-63 | Replaces only the user; the new state is `Apply(old, SetUser(u))`. |
| AuthSlice.Session.Dispatch | src/stores/auth/authSlice.ts:25-64 | Dispatching an action performs that action's reducer step. |
| Http.PrepareHeaders | src/services/authApi.ts:14-21 | `Authorization` becomes `Token <t>` exactly when the token is truthy. Every other header is kept and none is added. A falsy token leaves the headers unchanged. The same rule is at src/services/assetsApi.ts:16-22, partsApi.ts:15-21, usersApi.ts:15-21 and workOrdersApi.ts:14-20. |
| Http.HeaderCarriesToken | src/services/authApi.ts:18 | The header built from a non-empty token reads back as that token. |
| Http.DetailOr | src/pages/AssetListPage.tsx:110 | `data.detail || fallback`: the server's detail when truthy, else the fallback. |
| Http.FirstTruthy | src/pages/WorkOrderListPage.tsx:410-413 | An `a \|\| b \|\| … \|\| fallback` chain gives the first truthy candidate, or the fallback when none is truthy. |
| Http.DetailOrError | src/pages/PartListPage.tsx:108 | `error ? data.detail \|\| error.error : null`: nothing without an error, then the detail when truthy, else the transport error text. |
| AuthApi.LoginQuery | src/services/authApi.ts:28-32 | Login is a POST of the credentials to `.../api/v1/auth/token/login/`. |
| AuthApi.ProfileQuery | src/services/authApi.ts:67-69 | The profile is a GET of `.../api/v1/auth/users/me/`. |
| AuthApi.LogoutQuery | src/services/authApi.ts:72-76 | Logout is a POST without a body to `.../api/v1/auth/token/logout/`. |
| AuthApi.RegisterQuery | src/services/authApi.ts:89-95 | Register is a POST of the new user to `.../api/v1/auth/users/`. |
| AuthApi.ProvisionalUser | src/services/authApi.ts:44 | The placeholder user has an empty id and email, the typed username, and the requester role. |
| AuthApi.LoginErrorMessage | src/services/authApi.ts:60 | Applied to a thrown error, the message is `non_field_errors[0]` if truthy, else `detail` if truthy, else `Credenciales inválidas.`; it is never empty. |
| AuthApi.QueryFulfilledRejection | src/services/authApi.ts:37 | The value `await queryFulfilled` throws is the library's wrapper around the request's error. It has no `data`, no `status` and no transport text of its own. |
| AuthApi.RejectedLoginStoresFixedText | src/services/authApi.ts:57-61 | `error?.data?…` read on that wrapper finds nothing, so a rejected login always gives `Credenciales inválidas.`, whatever the server answered. |
| AuthApi.LoginDispatches | src/services/authApi.ts:34-63 | `loginStart` comes first. A granted token is followed by a success carrying the provisional user. The flow has two or three steps, and the last is a failure exactly when the login or the profile fetch failed. A rejected login dispatches `loginFailure('Credenciales inválidas.')`. A rejected profile fetch dispatches the failure with the message chosen from the fetch's own error, which `.unwrap()` throws. |
| AuthApi.LoginSucceeds | src/services/authApi.ts:44-55 | From any state, a granted token and a fetched profile end authenticated as that profile, with the token stored and no error. |
| AuthApi.LoginFails | src/services/authApi.ts:57-62 | A rejected login, or a rejected profile fetch after the provisional success, ends de-authenticated. The token and storage are cleared. The error holds `Credenciales inválidas.` for a rejected login, and the message chosen from the server's answer for a rejected profile fetch. |
| AuthApi.LoginOverwritesSession | src/services/authApi.ts:34-62 | A login's final state does not depend on the state it started from. |
| AuthApi.LoginFlow | src/services/authApi.ts:34-63 | Dispatches exactly `LoginDispatches`, and the session ends in `Run(old, dispatched)`. When the token was granted, the profile request carries `Token <t>` from the provisional success. |
| AuthApi.LogoutFlow | src/services/authApi.ts:77-85 | The logout reducer runs whether the server call succeeded or not. The request carries the closing session's token. |
| ResourceApi.ListQuery | src/services/assetsApi.ts:28 | A list query is a GET of the collection URL. |
| ResourceApi.ByIdQuery | src/services/assetsApi.ts:40 | A by-id query is a GET of `collection/{id}/`. |
| ResourceApi.CreateQuery | src/services/assetsApi.ts:46-50 | A create is a POST of the body to the collection. |
| ResourceApi.UpdateQuery | src/services/assetsApi.ts:56-60 | An update is a PATCH on `collection/{id}/` with the argument's `id` printed as a template literal. Its body holds exactly the argument's other fields. |
| ResourceApi.UpdateBodyRestoresArgument | src/services/assetsApi.ts:56 | `{id, ...patch}` splits losslessly: putting `id` back into the body gives back the argument. |
| ResourceApi.DeleteQuery | src/services/assetsApi.ts:66-69 | A delete is a DELETE on `collection/{id}/` without a body. |
| ResourceApi.ListProvides | src/services/assetsApi.ts:29-35 | A list provides one tag per entity, in result order, then LIST; with no result it provides only LIST. |
| ResourceApi.ByIdProvides | src/services/assetsApi.ts:41 | A by-id query provides exactly the tag of its own id, whatever the result or error. The same callback is at partsApi.ts:37, usersApi.ts:40 and workOrdersApi.ts:39. |
| ResourceApi.CreateInvalidates | src/services/assetsApi.ts:51 | A create invalidates exactly its type's LIST tag. The same list is at partsApi.ts:45, usersApi.ts:52 and workOrdersApi.ts:49. |
| ResourceApi.UpdateInvalidates | src/services/assetsApi.ts:61 | An update invalidates exactly the tag of the argument's `id`. A string id is the tag id as it is (`Models.TemplateText`). The same callback is at partsApi.ts:53, usersApi.ts:62 and workOrdersApi.ts:59. |
| ResourceApi.DeleteInvalidates | src/services/assetsApi.ts:70-73 | A delete invalidates exactly the tag of its id and its type's LIST tag. The same callback is at partsApi.ts:60, usersApi.ts:71 and workOrdersApi.ts:68. |
| ResourceApi.ListProvidesOwnType | src/services/assetsApi.ts:29-35 | A list query provides only tags of its own type. |
| ResourceApi.ListProvidesExactly | src/services/assetsApi.ts:29-35 | A tag is provided exactly when it is LIST or the tag of one of the entities. |
| ResourceApi.CreateTouchesNoEntity | src/services/assetsApi.ts:51 | A create invalidates no entity tag. |
| ResourceApi.UpdateSparesList | src/services/assetsApi.ts:61 | An update invalidates exactly its entity's tag and not LIST. |
| ResourceApi.DeleteIsUpdateAndCreate | src/services/assetsApi.ts:70-73 | A delete invalidates exactly the union of update's and create's tags for the same id. |
| ResourceApi.TagsIgnoreOutcome | src/services/assetsApi.ts:41 | The by-id, update and delete tag callbacks return the same tags whatever the result or error. |
| ResourceApi.CreateRefetchesList | src/services/assetsApi.ts:51 | Under the stated matching assumption, a create refetches every list query of its type in the same `createApi` slice. |
| ResourceApi.CreateKeepsEntities | src/services/assetsApi.ts:51 | Under the assumption, a create leaves cached by-id queries alone, in any slice. |
| ResourceApi.UpdateRefetchesContainingList | src/services/assetsApi.ts:61 | Under the assumption, updating an entity refetches any cached list of the same slice that contains it. |
| ResourceApi.UpdateSparesOthers | src/services/assetsApi.ts:61 | Under the assumption, updating one id leaves the by-id queries of other ids alone, in any slice. |
| ResourceApi.DeleteRefetchesEntityAndList | src/services/assetsApi.ts:70-73 | Under the assumption, a delete refetches the entity's query and every list of its type in the same slice. |
| ResourceApi.TypesIsolated | src/services/assetsApi.ts:24 | Tags of different types never match, even inside one slice, so a mutation refetches no query whose tags are all of another type. |
| ResourceApi.SlicesIsolated | src/services/assetsApi.ts:13 | A mutation refetches no query cached by another `createApi` slice, whatever tags the two share. The four bindings are separate slices (assetsApi.ts:13, partsApi.ts:12, usersApi.ts:12, workOrdersApi.ts:11). |
| AssetsApi.Endpoints | src/services/assetsApi.ts:27-69 | The five asset endpoints have their concrete URLs and methods under `.../api/v1/assets/`. |
| AssetsApi.CacheTags | src/services/assetsApi.ts:29-73 | The concrete `Assets` tag lists of the five endpoints. |
| PartsApi.Endpoints | src/services/partsApi.ts:25-61 | The five part endpoints under `.../api/v1/parts/`. |
| PartsApi.CacheTags | src/services/partsApi.ts:27-60 | The concrete `Parts` tag lists. |
| UsersApi.Endpoints | src/services/usersApi.ts:6-72 | The user endpoints live under the admin base, so the list is `.../api/v1/admin/users/`. |
| UsersApi.CacheTags | src/services/usersApi.ts:28-71 | The concrete `Users` tag lists. |
| WorkOrdersApi.Endpoints | src/services/workOrdersApi.ts:25-69 | The five work-order endpoints under `.../api/v1/work-orders/`. |
| WorkOrdersApi.CacheTags | src/services/workOrdersApi.ts:27-68 | The concrete `WorkOrders` tag lists. |
| WorkOrdersApi.TechniciansQuery | src/services/workOrdersApi.ts:73 | Technicians are fetched from `.../api/v1/auth/users/`. |
| WorkOrdersApi.TransformTechnicians | src/services/workOrdersApi.ts:76-78 | The filter keeps exactly the technicians, admins and managers. The result contains no requester and is a subsequence of the response. |
| WorkOrdersApi.TransformDistributes | src/services/workOrdersApi.ts:77 | Filtering a concatenation filters each part in place, so order is kept. |
| WorkOrdersApi.TransformIdempotent | src/services/workOrdersApi.ts:77 | Filtering twice is filtering once. |
| WorkOrdersApi.TransformKeepsAssignable | src/services/workOrdersApi.ts:77 | A response without requesters passes through unchanged. |
| WorkOrdersApi.TechniciansProvideUserTags | src/services/workOrdersApi.ts:79-85 | `getTechnicians` provides only `Users` tags and never a `WorkOrders` tag. |
| WorkOrdersApi.TechniciansShareUserTags | src/services/workOrdersApi.ts:79-85 | Updating a listed technician through `usersApi` names one of the tags `getTechnicians` provided. |
| WorkOrdersApi.UserMutationsSpareTechnicians | src/services/workOrdersApi.ts:11 | Still, no create, update or delete of `usersApi` refetches `getTechnicians`, because the list is cached in the `workOrdersApi` slice. |
| WorkOrdersApi.WorkOrderMutationsSpareTechnicians | src/services/workOrdersApi.ts:22 | No work-order mutation refetches `getTechnicians` either, because they invalidate only `WorkOrders` tags. So no mutation refetches the cached technician list. |
| ProtectedRoute.Decide | src/App.tsx:51-66 | A spinner exactly while verifying, or while a truthy token is unauthenticated without an error. Otherwise the outlet exactly when authenticated, else a redirect to `/login`. |
| ProtectedRoute.SkipProfileQuery | src/App.tsx:28-30 | The profile query runs exactly when there is a non-empty token and the session is not authenticated. |
| ProtectedRoute.VerificationEffect | src/App.tsx:32-49 | The effect acts only for a truthy, unauthenticated token with the query settled. A profile gives `loginSuccess(profile, token)`; otherwise an error gives `logout`; otherwise nothing. |
| ProtectedRoute.ProfileBeatsError | src/App.tsx:34-39 | A fetched profile wins over a simultaneous error flag. |
| ProtectedRoute.EffectNeedsQuery | src/App.tsx:28-33 | The effect can act only when the profile query is not skipped. |
| ProtectedRoute.EffectSettlesRender | src/App.tsx:28-66 | After the effect's action the query is skipped. The render is the outlet for a profile and the redirect for an error. |
| ProtectedRoute.ReachableSkipsQuery | src/App.tsx:28-30 | In every reachable session state the profile query is skipped. |
| ProtectedRoute.ReachableEffectInert | src/App.tsx:32-40 | In every reachable state the verification effect does nothing, whatever the query reports. |
| ProtectedRoute.ReachableRendersAtOnce | src/App.tsx:51-66 | In every reachable state, with the skipped query idle, the guard renders the outlet or the redirect and never the spinner. |
| ProtectedRoute.ColdStartRendersOutlet | src/App.tsx:51-66 | A cold start with a stored token renders the protected pages while the user is still unknown. |
| Forms.SetField | src/pages/WorkOrderListPage.tsx:97 | `{...prev, [name]: v}` sets one field and keeps every other. |
| Forms.HandleChange | src/pages/WorkOrderListPage.tsx:93-98 | A text change stores the raw value under its name. |
| Forms.DateValue | src/pages/WorkOrderListPage.tsx:102 | `value \|\| null` is `null` exactly for the empty text and the text otherwise. |
| Forms.HandleDateChange | src/pages/WorkOrderListPage.tsx:100-103 | A date change stores `null` exactly for an empty value, else the text. The same handler is at src/pages/AssetListPage.tsx:81-83 and PartListPage.tsx:99-101. |
| Forms.DateRetyped | src/pages/AssetListPage.tsx:81-83 | Clearing a date and typing it again equals typing it directly. |
| Forms.LastChangeWins | src/pages/AssetListPage.tsx:76-79 | Of two changes to the same field, the later one wins. |
| Forms.ChangesCommute | src/pages/AssetListPage.tsx:76-79 | Changes to different fields commute. |
| CrudPage.UpdateArgument | src/pages/WorkOrderListPage.tsx:348-351 | `{id: selected.id, ...data}` holds every form field, and the form's own `id`, spread last, wins. |
| CrudPage.SaveMutation | src/pages/WorkOrderListPage.tsx:347-358 | With a selection the save is an update of that id; without one it is a create of the form as is. |
| CrudPage.EditSavePatchesSelected | src/pages/AssetListPage.tsx:266-268 | For a form without `id`, an edit save PATCHes the selected entity's URL with exactly the form. |
| CrudPage.EditSaveWithOwnId | src/pages/PartListPage.tsx:259-260 | A form carrying the selected entity's own `id` PATCHes that URL with every other field. |
| CrudPage.FormIdOverridesSelected | src/pages/WorkOrderListPage.tsx:348-351 | A form carrying a different `id` sends the patch to that id instead. |
| CrudPage.CreateSavePostsForm | src/pages/AssetListPage.tsx:269-271 | A new-entity save POSTs the form to the collection. |
| CrudPage.DeleteCall | src/pages/WorkOrderListPage.tsx:377 | A delete is issued exactly for a truthy pending id, with that id. |
| CrudPage.PageState.constructor | src/pages/WorkOrderListPage.tsx:317-324 | The page starts with both dialogs closed, no selection and no pending id. |
| CrudPage.PageState.SelectedId | src/pages/WorkOrderListPage.tsx:347-349 | The selected entity's id exactly when something is selected. |
| CrudPage.PageState.OpenCreate | src/pages/WorkOrderListPage.tsx:326-329 | Opens the form with no selection. |
| CrudPage.PageState.OpenEdit | src/pages/WorkOrderListPage.tsx:331-334 | Opens the form on the given entity. |
| CrudPage.PageState.CloseForm | src/pages/WorkOrderListPage.tsx:336-339 | Closes the form and clears the selection. |
| CrudPage.PageState.Settle | src/pages/WorkOrderListPage.tsx:360-363 | After an awaited save the form closes only on success; on failure nothing changes. |
| CrudPage.PageState.Save | src/pages/WorkOrderListPage.tsx:341-364 | Issues `SaveMutation` for the selection held before the call. Closes only on success, and leaves the delete dialog alone. The same handler is at AssetListPage.tsx:264-278 and PartListPage.tsx:257-268. |
| CrudPage.PageState.OpenDeleteConfirm | src/pages/WorkOrderListPage.tsx:366-369 | Records the pending id and opens the confirmation. |
| CrudPage.PageState.CloseDeleteConfirm | src/pages/WorkOrderListPage.tsx:371-374 | Closes the confirmation and clears the pending id. |
| CrudPage.PageState.ConfirmDelete | src/pages/WorkOrderListPage.tsx:376-385 | Deletes only for a truthy pending id, and closes only after success. The same handler is at AssetListPage.tsx:290-299, PartListPage.tsx:280-289 and UserListPage.tsx:277-286. |
| WorkOrderPage.WorkOrderControls | src/pages/WorkOrderListPage.tsx:312-315 | Create and delete need admin or manager. Edit needs that, or a technician assigned to the order. |
| WorkOrderPage.DeleterCanEdit | src/pages/WorkOrderListPage.tsx:313-315 | Whoever may delete an order may edit it. |
| WorkOrderPage.TechnicianControls | src/pages/WorkOrderListPage.tsx:428-487 | A technician edits exactly their assigned orders and never creates or deletes one. |
| WorkOrderPage.NewWorkOrderForm | src/pages/WorkOrderListPage.tsx:66-75 | The new-order form has `open` status and `medium` priority, and empty text elsewhere. |
| WorkOrderPage.WorkOrderForm | src/pages/WorkOrderListPage.tsx:64-76 | The form starts as the edited order (with its id), else as the defaults (without an id). |
| WorkOrderPage.EditedOrderPatchesItsUrl | src/pages/WorkOrderListPage.tsx:347-351 | An edited order is PATCHed at `.../work-orders/{id}/` with the rest of its form. |
| WorkOrderPage.FormErrorText | src/pages/WorkOrderListPage.tsx:133-134 | The dialog's alert is the detail, else `Error al guardar la orden de trabajo.` |
| WorkOrderPage.QueryDetail | src/pages/WorkOrderListPage.tsx:410 | `error?.data?.detail` is absent when the query did not fail, else the error's detail. |
| WorkOrderPage.FlagDetail | src/pages/WorkOrderListPage.tsx:411-412 | `?.data?.detail` looked up on an `isError` boolean is always absent. |
| WorkOrderPage.LoadErrorText | src/pages/WorkOrderListPage.tsx:409-413 | The load alert shows the orders query's detail when truthy, else `Error desconocido.` The assets and technicians candidates are those queries' `isError` flags, renamed at lines 295 and 300, so they never contribute. |
| WorkOrderPage.AuxiliaryFailureHasNoDetail | src/pages/WorkOrderListPage.tsx:405-413 | When only the assets or technicians query failed, the alert shows the fallback whatever those errors carried. |
| UserPage.UserControls | src/pages/UserListPage.tsx:355-373 | Create and edit need an administrator; delete also needs a row other than the current user. |
| UserPage.DeleteOnlyOthers | src/pages/UserListPage.tsx:365 | An administrator is offered every other user's delete, never their own. |
| UserPage.NewUserForm | src/pages/UserListPage.tsx:59-67 | The new-user form has the `requester` role, `is_active` true, and empty text elsewhere, password included. |
| UserPage.UserForm | src/pages/UserListPage.tsx:59 | The edit form is the user with an empty password; either form has an empty password. |
| UserPage.HandleUserChange | src/pages/UserListPage.tsx:82-88 | A checkbox stores its `checked` flag; any other input stores its value. |
| UserPage.SubmitData | src/pages/UserListPage.tsx:90-100 | When editing, a falsy password is removed and everything else is kept. When creating, the form is kept unchanged. |
| UserPage.UserPatch | src/pages/UserListPage.tsx:242-253 | The patch holds the selected id, the six listed fields the form has, and the password exactly when it is truthy. Each is copied from the form. |
| UserPage.UserSaveMutation | src/pages/UserListPage.tsx:239-257 | An edit sends the patch of the selected user; a create sends the form as is. |
| UserPage.SaveUser | src/pages/UserListPage.tsx:237-264 | Issues the user save call and closes the form only on success. |
| UserPage.BlankPasswordNotSent | src/pages/UserListPage.tsx:95-97 | Editing without a typed password sends no password. |
| UserPage.TypedPasswordSent | src/pages/UserListPage.tsx:251-253 | A typed password is sent as typed. |
| UserPage.CreateSendsForm | src/pages/UserListPage.tsx:257 | A create sends the whole form, password included. |
| UserPage.PatchGoesToAdminUrl | src/pages/UserListPage.tsx:254 | An edit PATCHes `.../admin/users/{id}/` with no `id` in the body. |
| UserPage.ListErrorMessage | src/pages/UserListPage.tsx:289-295 | A 401 gives the fixed unauthorized text and wins over the detail. Otherwise a truthy detail is shown, else `Error al cargar usuarios.` |
| UserPage.FormErrorText | src/pages/UserListPage.tsx:102-115 | No error gives no alert. Otherwise the alert is the truthy detail, else the truthy transport error, else the serialised error body. An error with none of the three shows no alert, because `JSON.stringify(undefined)` is `undefined`. |
| AssetPage.AssetControls | src/pages/AssetListPage.tsx:242 | Create, edit and delete all follow one predicate: admin or manager. |
| AssetPage.NewAssetForm | src/pages/AssetListPage.tsx:54-61 | The new-asset form has `operational` status, the `equipment` type, and empty text elsewhere. |
| AssetPage.AssetForm | src/pages/AssetListPage.tsx:54 | The form starts as the edited asset, else as the defaults. |
| AssetPage.EditedAssetPatchesItsUrl | src/pages/AssetListPage.tsx:266-268 | An edited asset is PATCHed at `.../assets/{id}/`. |
| AssetPage.FormErrorText | src/pages/AssetListPage.tsx:110 | The dialog's alert is the detail, else `Error al guardar el activo.` |
| AssetPage.LoadErrorText | src/pages/AssetListPage.tsx:315 | The load alert shows the detail, else `Error desconocido.` |
| PartPage.PartControls | src/pages/PartListPage.tsx:235 | Create, edit and delete all follow admin or manager. |
| PartPage.HandlePartChange | src/pages/PartListPage.tsx:87-97 | `quantity` and `reorder_point` store `parseInt(value,10) \|\| 0`. Every other field, `unit_cost` included, stores the raw text. |
| PartPage.TypedCountIsStored | src/pages/PartListPage.tsx:90-91 | Typing an integer's decimal text into a count field stores that integer. |
| PartPage.ClearedCountIsZero | src/pages/PartListPage.tsx:91 | Clearing a count field stores 0. |
| PartPage.NonNumericCountIsZero | src/pages/PartListPage.tsx:91 | Text that does not start with a sign or a digit is stored as 0. |
| PartPage.NewPartForm | src/pages/PartListPage.tsx:53-64 | The new-part form has quantity 0, reorder point 0, and empty text elsewhere. |
| PartPage.TextOrEmpty | src/pages/PartListPage.tsx:71 | `x \|\| ''` for an optional text. |
| PartPage.PartForm | src/pages/PartListPage.tsx:69-84 | The edit form keeps the part's id and quantity. Its cost and reorder date become text, and an absent one becomes `''`. |
| PartPage.EditedPartPatchesItsUrl | src/pages/PartListPage.tsx:259-260 | An edited part is PATCHed at `.../parts/{id}/`. |
| PartPage.LoadErrorText | src/pages/PartListPage.tsx:305 | The load alert shows the detail, else `Error desconocido.` |
| JsNumbers.TrimStart | src/pages/PartListPage.tsx:91 | `parseInt` first drops leading blanks: the result is a suffix of the input, every dropped character is a blank, and the result does not start with a blank. |
| JsNumbers.DigitPrefix | src/pages/PartListPage.tsx:91 | The digits `parseInt` reads: a prefix of the text, all digits, and followed by no other digit. |
| JsNumbers.DecimalText | src/pages/PartListPage.tsx:91 | The decimal text of a natural number starts with a digit. |
| JsNumbers.ParseIntOrZero | src/pages/PartListPage.tsx:91 | Text with no digits after the blanks and an optional sign gives 0. This includes a bare sign and a sign followed by a non-digit. |
| JsNumbers.ParseIntText | src/pages/PartListPage.tsx:91 | Reading back an integer's decimal text gives that integer. |
| JsNumbers.IntText | src/services/assetsApi.ts:57 | The text of a number in a template-literal URL. |
| Models.TemplateText | src/services/assetsApi.ts:57 | A string id prints as itself in a URL. |
| Models.ParseRole | src/types/models.ts:3-14 | Parsing a role name gives back a role with that name. |
| Models.RoleNameRoundTrip | src/types/models.ts:3-14 | Role names parse back to their roles. |
| Models.ParseAssetStatus | src/types/models.ts:31 | Parsing an asset status name gives back a status with that name. |
| Models.ParseAssetType | src/types/models.ts:32-38 | Parsing an asset type name gives back a type with that name. |
| Models.ParseOrderStatus | src/types/models.ts:63 | Parsing a work-order status name gives back a status with that name. |
| Models.ParsePriority | src/types/models.ts:64 | Parsing a priority name gives back a priority with that name. |
| Models.AssetStatusNameRoundTrip | src/types/models.ts:31 | Every asset status's name parses back to that status. |
| Models.AssetTypeNameRoundTrip | src/types/models.ts:32-38 | Every asset type's name parses back to that type. |
| Models.OrderStatusNameRoundTrip | src/types/models.ts:63 | Every work-order status's name parses back to that status. |
| Models.PriorityNameRoundTrip | src/types/models.ts:64 | Every priority's name parses back to that priority. |
| Models.UserRecord | src/types/models.ts:3-14 | A user as a JSON object carries its `id` and its role name. |
| Models.AssetRecord | src/types/models.ts:22-44 | An asset as a JSON object carries its `id`. |
| Models.WorkOrderRecord | src/types/models.ts:55-69 | A work order as a JSON object carries its `id`. |
| Models.PartRecord | src/types/models.ts:78-92 | A part as a JSON object carries its `id` and quantity. |
| MainLayout.MenuItems | src/layouts/MainLayout.tsx:51-59 | The menu is Dashboard, Activos, Órdenes de Trabajo and Inventario, then Usuarios for admins and managers only, then Configuración. That makes 6 entries for those roles and 5 otherwise. |
| MainLayout.MenuEntriesDistinct | src/layouts/MainLayout.tsx:66-67 | Menu entries have distinct texts (the list keys) and distinct paths. |
| MainLayout.ItemAction | src/layouts/MainLayout.tsx:68 | An entry's click navigates to its own path. |
| MainLayout.DisplayName | src/layouts/MainLayout.tsx:114 | The header name is the first name when truthy, else the username. |
| MainLayout.RoleTitle | src/layouts/MainLayout.tsx:110 | The role name in capitals, letter by letter. |
| MainLayout.HeaderTitle | src/layouts/MainLayout.tsx:110 | The title is `CMMS - <ROLE>`, or `CMMS - Usuario` with no user. |
| MainLayout.Drawer.Toggle | src/layouts/MainLayout.tsx:42-44 | Toggling negates `mobileOpen`. |
| MainLayout.Drawer.constructor | src/layouts/MainLayout.tsx:37 | The mobile drawer starts closed. |
| MainLayout.HandleLogout | src/layouts/MainLayout.tsx:46-49 | The logout reducer runs, then navigation goes to `/login` with replace. The guard would then redirect to the login too. |
| LoginPage.LoginForm.constructor | src/pages/LoginPage.tsx:17-18 | The fields start as `admin` and `password`. |
| LoginPage.LoginForm.SetUsername | src/pages/LoginPage.tsx:82 | Typing in the username field replaces the username and keeps the password. |
| LoginPage.LoginForm.SetPassword | src/pages/LoginPage.tsx:93 | Typing in the password field replaces the password and keeps the username. |
| LoginPage.Submit | src/pages/LoginPage.tsx:34-47 | The login runs with the form's credentials exactly when both fields are non-empty; otherwise nothing is dispatched. |
| LoginPage.CanSubmit | src/pages/LoginPage.tsx:36 | Submitting is allowed exactly when both the username and the password are non-empty. |
| LoginPage.MutationError | src/pages/LoginPage.tsx:22 | The mutation reports an error exactly when the login request was rejected. |
| LoginPage.ErrorMessage | src/pages/LoginPage.tsx:50-52 | No error gives no message. Otherwise the message is the detail when truthy, else the transport error text. |
| LoginPage.RedirectEffect | src/pages/LoginPage.tsx:28-32 | Navigation to `/dashboard` happens exactly when authenticated. |
| LoginPage.SuccessfulLoginRedirects | src/pages/LoginPage.tsx:28-39 | A successful login moves on to the dashboard. |
| LoginPage.ProfileFailureBouncesBack | src/pages/LoginPage.tsx:28-52 | When the profile fetch fails after the token was granted, there are two steps. After the provisional success the session holds a requester named after the typed username, the page navigates to `/dashboard`, and the guard renders it. In the final state the guard redirects to `/login`, the page does not navigate, and it shows no error; the failure message is only in the session's error. |
| RoleMatrix.RequesterIsReadOnly | src/pages/WorkOrderListPage.tsx:312-315 | A requester sees five menu entries and no create, edit or delete button on any page. |
| RoleMatrix.TechnicianEditsOnlyAssignedOrders | src/pages/WorkOrderListPage.tsx:313-315 | A technician's only button is edit on their assigned orders. |
| RoleMatrix.ManagerSeesUsersButCannotManageThem | src/pages/UserListPage.tsx:214 | A manager is shown Usuarios in the menu (MainLayout.tsx:57), but the user page offers them no button. |
| RoleMatrix.AdminManagesEverything | src/pages/UserListPage.tsx:214 | An administrator is offered everything except deleting their own account. |
| RoleMatrix.AnonymousIsReadOnly | src/pages/AssetListPage.tsx:242 | With no user, no page offers any button. |

## Left out

- **Rendering.** JSX, MUI styling, dialog layout and the loading spinners of the list pages are not modelled. Only the gating predicates and texts that decide what is shown are modelled.
- **The query library's internals** (cache storage, refetching, subscriptions, `.unwrap()`). Only the tag lists the callbacks return are modelled.
  - `ResourceApi.Refetched` states the matching rule as an assumption: a cached query is refetched when it belongs to the same `createApi` slice as the mutation and provided a tag the mutation invalidates.
  - `ProtectedRoute.Idle` states another assumption: a skipped query reports not loading, no data and no error.
  - `LoginPage.MutationError` states a third: the login mutation's error is the login request's own error.
  - `AuthApi.QueryFulfilledRejection` states a fourth: a rejected `queryFulfilled` throws a wrapper holding the request's error under `error`, with no `data` of its own.
- **Network I/O, `fetch`, `await` timing and response order.** Every remote outcome is an input, and the model assumes responses arrive in program order.
- **Browser storage.** It is the single `stored` field of the session, not a browser API.
- **Dates and floating point.** This covers:
  - the ISO conversions of `completed_at` (src/pages/WorkOrderListPage.tsx:256-267);
  - the reorder date of the part edit form (src/pages/PartListPage.tsx:72). `PartPage.PartForm` keeps the stored text as is, rather than re-normalising it through `Date`;
  - the `toFixed(2)` cost display (src/pages/PartListPage.tsx:350).
- **AuthApi.LoginDispatches: the shape of a rejected `queryFulfilled`.** No source file shows it. The model assumes the query library's wrapper (`error`, `isUnhandledError`, `meta`), with no `data` field, so a rejected login records `Credenciales inválidas.`. No source file reads `state.auth.error`, so this text is never shown.
- **ResourceApi.UpdateInvalidates: an argument without `id`.** The model makes the tag id the text `undefined`. The query library would treat an undefined id as the whole type. The argument's type `{ id: string }` and every caller rule this case out.
- **JSON `null` in records.** A record field the server sends as `null` (such as `assigned_to`, src/types/models.ts:61) is modelled as an absent key. So the PATCH of an unassigned order's edit form omits `assigned_to`, where the program would send `assigned_to: null`.
- **JsNumbers.ParseIntOrZero: Unicode whitespace and the float range.** The model skips only ASCII white space. It also ignores that large digit runs lose precision as JavaScript numbers.
- **UserPage.FormErrorText: the output of `JSON.stringify`.** The serialised text is not modelled; the alert is represented by the body it would serialise. An absent body (`undefined`) shows no alert. A JSON `null` body is not modelled apart from an absent one, although it would serialise to the text `null` and show an alert.
- **JsNumbers.IntText: exponent notation.** It prints every integer in plain decimal. JavaScript's `${n}` switches to exponent form from 1e21. This only matters for a numeric id, and the record types give every id as a string.
- **`console.error` logging.**
- **Wiring with no logic.** This covers:
  - the store set-up (src/stores/store.ts);
  - the entry point (src/main.tsx);
  - the typed hooks (src/hooks/reduxHooks.ts);
  - the route table (src/App.tsx:69-113);
  - DashboardPage, which is not part of this model.
- **The static option lists of the select inputs** (status, priority, asset type, role labels).
- **The unused `WorkOrderStatus` alias in src/types/models.ts:46-52.** The status set of `WorkOrder.status` is used instead.
- **"LIST" as an entity id.** The tag id `LIST` is a plain string, so an entity whose id were `LIST` would share the list's tag. The lemmas that depend on it require `id != "LIST"`.
