# zap-table management front-end: the decision logic, in Dafny

This project models the sequential logic underneath the zap-table management dashboard.
It leaves out the React screens and the HTTP wrappers that sit on top of that logic.

It covers:

- **Session handling of the NextAuth configuration** (`src/lib/auth.ts`):
  - the role check;
  - the credentials guard;
  - the `jwt` callback, modelled as a method on a `Token` object. It copies a signed-in user into the token, refuses to re-enter while `refreshing` is set, decides when to refresh (15-minute lifetime, 5-minute skew), applies or clears the refreshed tokens, and applies role updates;
  - the `session` callback and the sign-out request.
- **Path logic:**
  - business and restaurant ids read from a dashboard path, with the cookie fallback (`src/lib/business.ts`);
  - breadcrumbs and page titles (`src/lib/breadcrumbs.ts`);
  - the middleware's public-path check and sign-in redirect (`src/middleware.ts`);
  - the sidebar's active-entry test and owner-group rules (`src/components/sidebar/app-sidebar.tsx`).
- **The two client-side providers.** Each is a class whose fields are the React state, sharing one `LocalStorage` object whose `items` map stands for `localStorage`:
  - mock login, logout and restore on mount (`src/providers/auth-provider.tsx`);
  - business and restaurant selection (`src/providers/business-provider.tsx`).
- **The five in-memory API routes** (`src/app/api/{tables,products,ingredients,menus,categories}/route.ts`). Each is a class holding the module-level array, as a `seq` field, and the `nextId` counter. POST validates the JSON body and appends a record. GET returns the store; the tables route first seeds an empty store.
- **Validators and small mappings:**
  - the role enumeration and the sign-up and sign-in schemas, with a hand-written recogniser for the password pattern (`src/types/auth.types.ts`);
  - the meal price pattern and the meal schemas (`src/types/meals.types.ts`);
  - `translateTableStatus` (`src/lib/i18n.ts`);
  - the category and ingredient toggles of the meal editor (`src/components/meals/meals-editor.tsx`);
  - the search of the business list (`src/components/business/business-selector-page.tsx`).

JavaScript semantics are written out where the code depends on them:

- truthiness: `""`, `0`, `null` and `undefined` are falsy;
- `split("/").filter(Boolean)`;
- `startsWith`;
- ASCII `toLowerCase`;
- `isNaN(Number(s))`, through the StringToNumber grammar of ECMA-262 (section 7.1.4.1.1);
- template-literal interpolation;
- the difference between `??` and `||`.

The two regular expressions follow ECMAScript RegExp semantics (ECMA-262, section 22.2):

- `\d` is `[0-9]`;
- `.` matches anything except a line terminator.

Each is modelled by a recogniser, which is proved equal to a declarative reading of the pattern.

Shared helpers:

- `wrappers.dfy`: `Option` and `Result`.
- `seqs.dfy`: `Filter`, subsequences, `Split` and `Join`.
- `text.dfy`: prefixes, substrings, ASCII lower case, decimal text.
- `js_number.dfy`: the JavaScript number-conversion grammar.
- `api_json.dfy`: JSON bodies, JavaScript truthiness of JSON values, their conversion to text in a template literal (which throws on an own `toString` key), and id freshness.

## Model

| member | source | states |
|---|---|---|
| AuthTypes.ParseRole | src/types/auth.types.ts:3 | a string is accepted as a role iff it is "admin", "owner" or "staff", and the parsed role's name is that string |
| AuthTypes.RoleRoundTrip | src/types/auth.types.ts:3 | every role parses back from its own name |
| AuthTypes.SignUpPasswordCorrect | src/types/auth.types.ts:12-19 | the password recogniser accepts exactly the strings of length at least 8, with no line terminator, and with a lower-case letter, an upper-case letter and a character outside `[a-zA-Z0-9]` |
| AuthTypes.NoDigitRequired | src/types/auth.types.ts:17 | "Abcdefg!", which has no digit, is accepted |
| AuthTypes.LineTerminatorNeverMatches | src/types/auth.types.ts:17 | a password containing a line terminator anywhere never matches |
| AuthTypes.SignUpIssues | src/types/auth.types.ts:5-25 | sign-up has no issues iff the name and email are non-empty, the email is well formed, the password satisfies the pattern, and the confirmation equals the password; a mismatch always yields the issue on `passwordConfirmation`, and only a mismatch puts an issue there |
| AuthTypes.SignInIssues | src/types/auth.types.ts:27-36 | sign-in has no issues iff the email is non-empty and well formed and the password has at least 8 characters; an empty password reports both length messages |
| AuthTypes.SignInWeakerThanSignUp | src/types/auth.types.ts:12-35 | every password accepted at sign-up is accepted at sign-in, and "abcdefgh" shows the converse fails |
| Auth.SomeIn | src/lib/auth.ts:13 | `wanted.some(r => have.includes(r))` holds iff some wanted role is in `have` |
| Auth.HasRole | src/lib/auth.ts:7-14 | false without roles; otherwise true iff some required role (one role or a list) is among the user's roles; an empty list gives false |
| Auth.Authorize | src/lib/auth.ts:66-96 | with a missing or empty email or password the result is null; otherwise a user is returned iff the login call answers, carrying its id, email, name, roles and both tokens |
| Auth.AuthorizeGuardSkipsBackend | src/lib/auth.ts:67 | when the guard fails, the result does not depend on the backend answer |
| Auth.Token.Jwt | src/lib/auth.ts:105-167 | the token after the callback is `JwtStep` of the token before; a refresh call is made iff the token, after the sign-in copy, is not refreshing and is due, and the call carries the current refresh token |
| Auth.SignInDoesNotRefresh | src/lib/auth.ts:107-128 | on sign-in the token copies the user, expires at now + 900000, has `refreshing` false, and is not refreshed in the same call |
| Auth.RefreshingTokenUnchanged | src/lib/auth.ts:119-121 | a token entering with `refreshing` set, and no user, is returned unchanged, role update included |
| Auth.NotDueLeavesTokens | src/lib/auth.ts:124-128 | when the refresh condition fails, the tokens, the expiry, the flag and the id, email and name are untouched |
| Auth.RefreshSuccessReplacesTokens | src/lib/auth.ts:139-143 | an answer with both tokens non-empty replaces both, sets the expiry to the post-call clock + 900000, and clears the flag |
| Auth.RefreshFailureClearsTokens | src/lib/auth.ts:145-158 | a missing token or a thrown error nulls the three token fields, clears the flag, and keeps the id, email, name and role answers |
| Auth.RefreshingFlagCleared | src/lib/auth.ts:115-158 | on return, `refreshing` is set iff the call was skipped because it was already set and no user was supplied |
| Auth.RoleUpdateOnlyTouchesRoles | src/lib/auth.ts:162-164 | an update trigger with a session user gives the same token as no trigger, except that the roles are the session's |
| Auth.NoSecondRefreshRightAway | src/lib/auth.ts:124-143 | after an accepted refresh, a later call refreshes again exactly when ten minutes have passed since the refresh settled (an expiry of exactly 0 being falsy), so not at the moment it settles |
| Auth.SessionOf | src/lib/auth.ts:169-182 | the session exposes the token's id, email, name, roles and both tokens |
| Auth.SignOutRequest | src/lib/auth.ts:186-198 | a logout call is made iff the access token is non-empty, with the header `Bearer <token>` |
| Auth.FailedRefreshEndsSession | src/lib/auth.ts:145-198 | after a failed refresh the session has no tokens, signing out calls nothing, and the roles are still there |
| BusinessIds.StripLeadingSlashIrrelevant | src/lib/business.ts:13 | stripping one leading slash does not change the non-empty segments |
| BusinessIds.ParseBusinessRestaurantIds | src/lib/business.ts:8-41 | a business id is returned iff the first segment is "business" and the second is numeric, and it is that segment verbatim; a restaurant id is returned iff, in addition, there are at least 4 segments, the third is "restaurant" and the fourth is numeric; a restaurant id implies a business id |
| BusinessIds.RootSelectsNothing | src/lib/business.ts:9-11 | "/" and "" yield no ids |
| BusinessIds.TwoSegmentsNoRestaurant | src/lib/business.ts:24-26 | two segments never yield a restaurant id |
| BusinessIds.RepeatedSlashesCollapse | src/lib/business.ts:13 | "//business//5" parses like "/business/5", namely business "5" and no restaurant |
| BusinessIds.OrNull | src/lib/business.ts:56 | reading a cookie with the `or null` fallback: present iff the cookie is set and non-empty |
| BusinessIds.GetBusinessRestaurantIdsClient | src/lib/business.ts:44-72 | both ids from the URL are kept; a URL business alone takes the restaurant from its cookie; without a URL business both come from the cookies; an empty cookie counts as none |
| BusinessIds.ClientRestaurantWithoutBusiness | src/lib/business.ts:60-68 | the cookie fallback can produce a restaurant id without a business id |
| JsNumber.DigitsAreNumeric | src/lib/business.ts:20 | a string of ASCII digits is not NaN |
| JsNumber.BlankIsNumeric | src/lib/business.ts:20 | a segment of spaces converts to 0, so it passes the NaN test |
| JsNumber.UnitSuffixIsNaN | src/lib/business.ts:32 | "12px" is NaN |
| Breadcrumbs.CrumbsFollowSegments | src/lib/breadcrumbs.ts:68-185 | at most one crumb per segment, in segment order: the k-th crumb is produced by the k-th contributing segment, and those segments strictly increase |
| Breadcrumbs.GenerateBreadcrumbs | src/lib/breadcrumbs.ts:63-188 | the loop produces the crumbs of all non-empty segments in order, and no more crumbs than segments |
| Breadcrumbs.BusinessSegmentCrumb | src/lib/breadcrumbs.ts:75-92 | "business" gives "Negócios", linked to /business unless it is the last segment |
| Breadcrumbs.CreateSegmentCrumb | src/lib/breadcrumbs.ts:94-104 | "create" gives "Criar Negócio" after "business", "Criar Restaurante" after "restaurant", and nothing otherwise |
| Breadcrumbs.SectionSegmentCrumb | src/lib/breadcrumbs.ts:106-162 | the six section segments give their fixed caption and never a link |
| Breadcrumbs.RestaurantSegmentSilent | src/lib/breadcrumbs.ts:130-132 | "restaurant" as the last segment, or before "create", gives nothing |
| Breadcrumbs.RestaurantSegmentCrumb | src/lib/breadcrumbs.ts:133-148 | otherwise "restaurant" gives the restaurant name or "Restaurante", linked to /business/{bid}/restaurant/{rid} iff a restaurant is given and segments follow its id |
| Breadcrumbs.BusinessNameCrumb | src/lib/breadcrumbs.ts:164-176 | a non-keyword segment after "business" gives the business name (linked iff a business is given and it is not last, the link going to "/business/<id>") or "Empresa" |
| Breadcrumbs.UnknownSegmentSilent | src/lib/breadcrumbs.ts:177-183 | any other unknown segment gives nothing |
| Breadcrumbs.GetPageConfig | src/lib/breadcrumbs.ts:190-205 | total: exact key first, then the route pattern, then the "Página" default; the result is always the default or one of the table's entries |
| Breadcrumbs.RestaurantPageConfig | src/lib/breadcrumbs.ts:10-55 | for any numeric business and restaurant ids, the restaurant root, tables and orders pages get the entry of their route pattern through the digit-run replacement |
| Breadcrumbs.BusinessPageConfig | src/lib/breadcrumbs.ts:10-55 | for any numeric business id, the business root, categories, ingredients, meals and menus pages get the entry of their route pattern |
| Middleware.IsPublicPath | src/middleware.ts:3-7 | true iff the path starts with one of the four public prefixes |
| Middleware.Guard | src/middleware.ts:9-26 | public paths pass; other paths pass iff the access-token cookie is present and non-empty; a redirect goes to /sign-in carrying the original path |
| Middleware.RedirectTargetIsPublic | src/middleware.ts:3-23 | following a redirect is never redirected again |
| Middleware.TokenAlwaysPasses | src/middleware.ts:25 | any non-empty token passes, whatever its value |
| Middleware.PrefixMatchIsLoose | src/middleware.ts:5-7 | "/sign-inx" and "/_next/…" are public |
| Middleware.DashboardNeedsToken | src/middleware.ts:17-23 | "/business" without a token, or with an empty one, redirects to /sign-in with redirect "/business" |
| AuthContext.FindByEmail | src/providers/auth-provider.tsx:58 | the first user with that email, or none iff no user has it |
| AuthContext.AuthProvider.constructor | src/providers/auth-provider.tsx:25-26 | no user, loading |
| AuthContext.AuthProvider.Mount | src/providers/auth-provider.tsx:28-34 | a saved user is restored, and loading is over either way |
| AuthContext.AuthProvider.Login | src/providers/auth-provider.tsx:36-66 | succeeds iff a mock user has that email and the password is "password"; on success the user is set and stored under "user", and loading ends; on failure the error is "Invalid credentials", user and storage are unchanged, and loading stays on |
| AuthContext.AuthProvider.Logout | src/providers/auth-provider.tsx:68-73 | no user; exactly "user", "currentBusiness" and "currentRestaurant" leave storage |
| AuthContext.LoginAcceptsOnlyMockAccounts | src/providers/auth-provider.tsx:41-61 | login succeeds iff the password is "password" and the email is one of the two demo emails |
| AuthContext.MockAccountRoles | src/providers/auth-provider.tsx:41-56 | the demo owner has no business; the demo staff member is tied to restaurant "1" |
| AuthContext.LoginSurvivesReload | src/providers/auth-provider.tsx:28-61 | what login stores is what mount restores |
| AuthContext.LogoutForgetsUser | src/providers/auth-provider.tsx:68-73 | after logout, a reload restores nobody |
| BusinessContext.OwnedBusinesses | src/providers/business-provider.tsx:98-100 | the owner's businesses, as an order-preserving sublist of the mock businesses |
| BusinessContext.BusinessProvider.constructor | src/providers/business-provider.tsx:94-143 | nothing is selected before the effect runs |
| BusinessContext.BusinessProvider.OnUserChange | src/providers/business-provider.tsx:94-143 | the new state is `UserEffect` of the previous one |
| BusinessContext.BusinessProvider.SetCurrentBusiness | src/providers/business-provider.tsx:145-155 | selects the business, clears the restaurant, stores the business or removes its key, and always removes "currentRestaurant" |
| BusinessContext.BusinessProvider.SetCurrentRestaurant | src/providers/business-provider.tsx:157-165 | only the restaurant and its storage key change |
| BusinessContext.BusinessProvider.RestaurantsForBusiness | src/providers/business-provider.tsx:167-169 | the order-preserving sublist of restaurants of that business |
| BusinessContext.BusinessProvider.CanAccessRestaurant | src/providers/business-provider.tsx:171-181 | owner: any restaurant; staff: only their own; no user: none |
| BusinessContext.NoUserClearsSelection | src/providers/business-provider.tsx:137-142 | without a user all four fields are cleared |
| BusinessContext.OwnerRestore | src/providers/business-provider.tsx:96-120 | an owner sees their businesses and all restaurants; a saved business is restored exactly when it is one of the owner's, and a saved restaurant exactly when some mock restaurant has its id; otherwise the selection is kept |
| BusinessContext.OwnerRestaurantFromOtherBusiness | src/providers/business-provider.tsx:108-120 | the restored restaurant may belong to another business than the restored one |
| BusinessContext.StaffSelection | src/providers/business-provider.tsx:121-135 | when both ids are set and resolve, staff get singleton lists holding the business and restaurant with those ids, both selected; otherwise nothing changes |
| BusinessContext.StaffWithoutIdsChangesNothing | src/providers/business-provider.tsx:123 | staff missing either id leave the state unchanged |
| BusinessContext.DemoStaffSelection | src/providers/business-provider.tsx:48-135 | the demo staff member gets Downtown Bistro of Delicious Dining Group |
| BusinessContext.SelectionSurvivesReload | src/providers/business-provider.tsx:105-155 | after choosing one of the owner's businesses, a fresh provider restores it with no restaurant |
| ApiJson.AppendKeepsIdsFresh | src/app/api/tables/route.ts:31-40 | handing out nextId and incrementing it keeps ids increasing and below nextId |
| ApiJson.FreshIdsDistinct | src/app/api/tables/route.ts:14-15 | fresh ids never repeat |
| ApiJson.Interpolate | src/app/api/tables/route.ts:27 | a string interpolates as itself and `undefined` as "undefined"; the conversion throws exactly when the value is an object with its own "toString" key or an array holding one at any depth |
| ApiJson.JsonText | src/app/api/tables/route.ts:27 | `String(j)` throws exactly when `j` is an object with its own "toString" key or an array holding one at any depth |
| ApiJson.ObjectInterpolation | src/app/api/tables/route.ts:27 | a plain object interpolates as "[object Object]"; an object with its own "toString" key throws, and so does an array holding one |
| ApiJson.ArrayInterpolation | src/app/api/tables/route.ts:27 | an array interpolates as its comma-joined elements, and null elements as nothing |
| TablesApi.TablesRoute.constructor | src/app/api/tables/route.ts:14-15 | empty store, nextId 1 |
| TablesApi.TablesRoute.Post | src/app/api/tables/route.ts:17-47 | an unreadable body gives 500; a falsy table_number or restaurant_id gives 400; a readable body with both truthy gives 500 when interpolating table_number throws (an object with its own "toString" key, or an array holding one) and otherwise the stored table: one table is appended with id = old nextId, the body's values, active, open, and the QR URL `<base>/table/<id>?table=<table_number>`, and nextId grows by 1; failures change nothing; fresh ids stay fresh |
| TablesApi.TablesRoute.Get | src/app/api/tables/route.ts:50-70 | an empty store is seeded with the five example tables; a non-empty one is returned unchanged; nextId never moves |
| TablesApi.SeedContents | src/app/api/tables/route.ts:54-66 | seeded table k+1 has id and number k+1, restaurant 1, is active, closed iff even, with its QR URL |
| TablesApi.SeedThenPostRepeatsId | src/app/api/tables/route.ts:15-66 | GET then a POST that stores its table, on a fresh store, yields two tables with id 1 |
| ProductsApi.ProductsRoute.Post | src/app/api/products/route.ts:7-31 | 500 on an unreadable body; 400 unless name and categoryId are truthy and ingredientIds is an array; otherwise a product with id = old nextId, photo "", price 0 and business 1 is appended and nextId grows by 1; failures change nothing |
| ProductsApi.ProductsRoute.Get | src/app/api/products/route.ts:33-35 | the whole store, in insertion order |
| ProductsApi.ProductKeepsNoLinks | src/app/api/products/route.ts:16-23 | the category and ingredients sent do not affect the stored product |
| ProductsApi.MinimalProduct | src/app/api/products/route.ts:12-14 | an empty ingredient array is accepted; categoryId 0 and a non-array ingredientIds are not |
| IngredientsApi.IngredientsRoute.Post | src/app/api/ingredients/route.ts:7-30 | 500 on an unreadable body; 400 on a falsy name; otherwise an ingredient with id = old nextId, the body's name and description, photo "" and business 1 is appended and nextId grows by 1 |
| IngredientsApi.IngredientsRoute.Get | src/app/api/ingredients/route.ts:32-34 | the whole store |
| MenusApi.MenusRoute.Post | src/app/api/menus/route.ts:7-31 | 500 on an unreadable body; 400 on a falsy name; otherwise an active menu with id = old nextId, photo "" and business 1 is appended and nextId grows by 1 |
| MenusApi.MenusRoute.Get | src/app/api/menus/route.ts:33-35 | the whole store |
| CategoriesApi.CategoriesRoute.Post | src/app/api/categories/route.ts:7-29 | 500 on an unreadable body; 400 on a falsy name; otherwise a category with id = old nextId, order 0 and menu 1 is appended and nextId grows by 1 |
| CategoriesApi.CategoriesRoute.Get | src/app/api/categories/route.ts:31-33 | the whole store |
| MealsTypes.PriceRecogniserCorrect | src/types/meals.types.ts:24-29 | the price recogniser accepts exactly the strings of `-?\d+(\.\d{1,2})?` |
| MealsTypes.PatternSplitIsGreedy | src/types/meals.types.ts:27 | any way the pattern splits a string is the split the recogniser takes |
| MealsTypes.AcceptedPrices | src/types/meals.types.ts:27 | "12", "12.5", "12.50" and "-3.99" pass |
| MealsTypes.RejectedDecimals | src/types/meals.types.ts:27 | "12.", ".5", "12.345" and "1,5" fail |
| MealsTypes.RejectedSigns | src/types/meals.types.ts:27 | "+1", "", "-" and "1.5\n" fail |
| MealsTypes.CreateMealIssues | src/types/meals.types.ts:21-32 | no issues iff the name and description are non-empty and the price matches; each issue is reported iff its field fails |
| MealsTypes.UpdateMealIssues | src/types/meals.types.ts:34 | no issues iff every present field passes its create rule |
| MealsTypes.FullUpdateIsCreate | src/types/meals.types.ts:32-34 | an update with every field is judged exactly like a create |
| MealsTypes.EmptyUpdateValid | src/types/meals.types.ts:34 | the empty update is valid |
| I18n.TranslateTableStatus | src/lib/i18n.ts:3-14 | empty iff there is no status; the three statuses get "Disponível", "Ocupado" and "Reservado" |
| I18n.TranslationInjective | src/lib/i18n.ts:6-13 | distinct statuses get distinct labels |
| I18n.StatusNamesDistinct | src/types/tables.types.ts:3 | the three wire names are distinct |
| MealsEditor.Without | src/components/meals/meals-editor.tsx:180-186 | every occurrence of the id is removed, the rest kept in order |
| MealsEditor.WithoutCounts | src/components/meals/meals-editor.tsx:180-186 | removing an id keeps each other id exactly as often as it occurred and leaves no occurrence of the removed one |
| MealsEditor.Toggle | src/components/meals/meals-editor.tsx:162-169 | the id is present afterwards iff it was absent before; others keep their membership; an absent id is appended at the end; removal keeps the order of the rest |
| MealsEditor.ToggleCategory | src/components/meals/meals-editor.tsx:162-169 | toggles the categories and leaves the ingredients alone |
| MealsEditor.ToggleIngredient | src/components/meals/meals-editor.tsx:171-178 | toggles the ingredients and leaves the categories alone |
| MealsEditor.RemoveCategory | src/components/meals/meals-editor.tsx:180-186 | removes the id from the categories only |
| MealsEditor.RemoveIngredient | src/components/meals/meals-editor.tsx:188-194 | removes the id from the ingredients only |
| MealsEditor.RemoveAbsentIsNoop | src/components/meals/meals-editor.tsx:180-186 | removing an absent id changes nothing |
| MealsEditor.RemoveIdempotent | src/components/meals/meals-editor.tsx:180-186 | removing twice is removing once |
| MealsEditor.ToggleTwiceRestores | src/components/meals/meals-editor.tsx:162-169 | toggling an absent id twice restores the list |
| MealsEditor.ToggleSelectedIsRemove | src/components/meals/meals-editor.tsx:162-186 | on a selected category, toggling is removing |
| MealsEditor.ToggleRemovesOnlyIt | src/components/meals/meals-editor.tsx:164-165 | toggling an id that occurs once drops just it, the others keeping their order |
| Sidebar.IsActive | src/components/sidebar/app-sidebar.tsx:109-114 | "/" is active only on "/"; any other url is active on every path it prefixes |
| Sidebar.Render | src/components/sidebar/app-sidebar.tsx:102-169 | nothing without a user; the owner group is non-empty iff the user is an owner, and is disabled iff no restaurant is selected; the seven main entries are never disabled, and each is active as `isActive` says; an owner sees the owner entries in order, each active as `isActive` says |
| Sidebar.ActiveExamples | src/components/sidebar/app-sidebar.tsx:109-114 | "/tables" is active on "/tablesx" (a prefix, not a segment test); "/menus" is not active on "/menu" |
| Sidebar.ActiveEntriesMatchPath | src/components/sidebar/app-sidebar.tsx:157-159 | off "/", only entries whose url prefixes the path are active |
| BusinessSelector.FilterBusinesses | src/components/business/business-selector-page.tsx:39-43 | the businesses whose lower-cased name or description contains the lower-cased term, in order |
| BusinessSelector.SelectorPage | src/components/business/business-selector-page.tsx:31-43 | loading wins, then an absent or empty list, and only then the filtered listing |
| BusinessSelector.EmptyTermKeepsAll | src/components/business/business-selector-page.tsx:39-43 | an empty search keeps every business |
| BusinessSelector.SearchIgnoresCase | src/components/business/business-selector-page.tsx:41-42 | a term and its lower-case form select the same businesses |

## Left out

- The network is not modelled. The `ky` clients, the `auth/login` and `auth/refresh-token` calls and the `auth/logout` POST are out. The answers of the first two are parameters (`login`, `outcome`). Of the logout call only its Authorization header is modelled (`SignOutRequest`).
- The clock is not modelled: `Date.now()` is two parameters. `now` is the time when the callback starts. `refreshedAt` is the time read after the refresh call has settled.
- Concurrent runs of the `jwt` callback, and the interleavings the `refreshing` flag is meant to guard against, are not modelled: each run is one sequential call.
- A failed refresh clears the access token, the refresh token and the expiry and keeps `roles` (src/lib/auth.ts:145-158), so `hasRole` answers as before; `Auth.RefreshFailureClearsTokens` states this.
- No access-token cache with a TTL and no retry on a 401 answer appear in the modelled files, so neither is modelled.
- zod's `.email()` check is a boolean parameter (`emailWellFormed`), not a recogniser of e-mail syntax.
- The zod object `.refine` on sign-up follows zod version 3: the refinement runs even when field checks have failed, so a mismatch is always reported.
- JSON numbers are integers. Fractions, precision, and the `default_price` float checks the routes' types imply are not modelled, and neither are ids beyond JavaScript's safe integers.
- `JSON.parse` of malformed storage, and a stored value of the wrong shape under a key, both count as an absent entry: storage is a typed map.
- `localStorage` keys are only ever written by the providers here, so other writers are out.
- Lengths are counted in characters, not UTF-16 code units. `toLowerCase` is ASCII only.
- In the `PAGE_CONFIGS` lookup, keys inherited from `Object.prototype` (for example "constructor") are truthy in JavaScript. They are not modelled: such a path gets the default here.
- `Breadcrumbs.Business` and `Breadcrumbs.Restaurant` ids are integers, printed in decimal.
- A page configuration's `description` is optional in its type but present in every table entry, so it is a plain string.
- The business selector reads `isLoadingBusinesses`, which the business provider does not supply (it is `undefined`, hence falsy, at run time). It is a parameter of `BusinessSelector.SelectorPage`.
- `generateQRCode` (src/lib/utils.ts:8-12) returns its argument, so the stored QR code is the URL itself.
- `process.env.NEXT_PUBLIC_APP_URL` is a parameter of `TablesApi.TablesRoute.Post`.
- TablesApi.TablesRoute.Post: each POST runs to completion before the next starts. The route puts `nextId` into the QR URL (src/app/api/tables/route.ts:27), awaits `generateQRCode` (:28) and only then takes `id: nextId++` (:32), so two concurrent POSTs can give a table a QR URL that names another table's id; that interleaving is not modelled.
- Breadcrumbs.BusinessPageConfig: the "/restaurant/create" page of a business is not covered, because its path holds the "/restaurant/" key without an id.
- JSX rendering, icons, router glue and the meal popup are not modelled. `Sidebar.Render` keeps only the entries, their disabled and active flags, and the owner-group visibility.
- The `LocalStorage` class models only `setItem`, `removeItem` and reads of its map. Storage events and quotas are out.
