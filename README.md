# Commodity dashboard: table logic, access gate and password reset

This project models, in Dafny, the parts of a commodity-trading dashboard front end whose logic the application owns itself:

- the `DataTable` component: it reorders rows by drag and drop, converts the "Quantity (MT)" cell from kilograms, picks the order-status badge's colours, drives the select/select-all checkboxes, and decides which columns the "View" menu may hide;
- the request gate `middleware`, which decides from the path and from whether there is a session;
- the two password routes: `/api/auth/forgot-password` (OPTIONS, POST, PUT, and the in-place `addCorsHeaders`) and `/api/auth/update-password` (POST);
- the "Update your password" page: its pre-flight checks, its `error`/`message`/`isLoading` state, and its render and redirect guard.

Each source file keeps its own form.

- The component's state (`data`, `rowSelection`, `columnVisibility`) is a class. Its methods replace that state.
- The two `splice` calls of `handleDragEnd` run in place on an array. They are proved against the specification function `Move`.
- The `findIndex` loop is proved against the recursive `FirstIndexOf`.
- `addCorsHeaders` is a method that changes a `Headers` object in place.
- The page's state is a class.
- Everything else is a pure function: the gate, the route handlers, the pre-flight checks and the cell conversions.

Each call to the hosted auth provider is an abstract outcome given as an input: returned with or without an error, returned with or without data or a user, or threw. A handler's result records its reply and the provider calls it made, in order.

Modules:
- `Js`: JavaScript values, truthiness, `startsWith`, UTF-16 length.
- `RowReorder`, `Quantity`, `StatusPalette`, `Selection`, `Columns`, `DataTable`.
- `Middleware`.
- `Http`: responses, CORS headers, the `Headers` class.
- `AuthProvider`: provider calls and outcomes, request bodies.
- `ForgotPasswordRoute`, `UpdatePasswordRoute`, `UpdatePasswordPage`.

The quantity column has no sort function of its own. The table library sorts the raw `target` string, and sorting is not modelled.

`handleSubmit` awaits the request, so it is modelled in two steps, `BeginSubmit` and `CompleteSubmit`.

The table is given no `getRowId`, so the library keys each row's selection by the row's index in `data`. `Selection.RowKey` is that index.

Rows marked "definition" name a function or predicate that models the code directly. Its properties are stated by the members named in that row.

## Model

| member | source | states |
|---|---|---|
| RowReorder.Move | src/components/data-table.tsx:343-345 | Definition of the two splices on a list. Its properties are proved in MoveAt, MovePermutes, MoveLands, MoveShifts, MoveToSelf and MoveUndo. |
| RowReorder.OriginRoundTrip | src/components/data-table.tsx:343-345 | The position map of the reverse move undoes the position map of the move, so each reorder is a bijection on indices. |
| RowReorder.MoveAt | src/components/data-table.tsx:343-345 | After taking the row at `from` out and inserting it at `to`, position `k` holds the element from `Origin(from, to, k)`. That is `from` at `to`, a neighbour shifted by one inside the range, and itself elsewhere. |
| RowReorder.MovePermutes | src/components/data-table.tsx:343-347 | A reorder keeps the length and the multiset of rows, so the result is a permutation. |
| RowReorder.MoveLands | src/components/data-table.tsx:340-345 | The dragged row ends at the drop target's former index. |
| RowReorder.MoveShifts | src/components/data-table.tsx:344-345 | Rows outside the closed range between the two indices keep their positions. Rows inside it shift by one toward the vacated slot. |
| RowReorder.MoveToSelf | src/components/data-table.tsx:338 | Moving a row to its own index leaves the list unchanged. |
| RowReorder.MoveUndo | src/components/data-table.tsx:343-345 | Dragging the row back from its new index to its old one restores the original order. |
| RowReorder.MoveExample | src/components/data-table.tsx:340-345 | [A,B,C,D] with A dropped on C gives [B,C,A,D]. |
| RowReorder.SpliceMove | src/components/data-table.tsx:343-345 | The two splices on the copied list, done in place on an array, leave exactly `Move(old contents, from, to)`. |
| DataTable.FirstIndexOf | src/components/data-table.tsx:340-341 | The index `findIndex` returns for an id that is present: a row with that id, and no earlier row has it. |
| DataTable.FindIndex | src/components/data-table.tsx:340-341 | The `findIndex` loop returns `FirstIndexOf` when the id is present and -1 otherwise. |
| DataTable.ReorderRows | src/components/data-table.tsx:339-348 | The `setData` updater returns `Move` of the list from the dragged row's index to the target's index: a permutation with the dragged row at the target's former index. |
| DataTable.Table.constructor | src/components/data-table.tsx:321-323 | On mount, the rows are the ones passed in, nothing is selected and no visibility entry is recorded. |
| DataTable.Table.HandleDragEnd | src/components/data-table.tsx:335-350 | Without a drop target, or when dropped on itself, the rows are unchanged. Otherwise they are reordered by `Move` between the two first indices. Selection and visibility are untouched. |
| DataTable.DragLeavesSelectionOnPositions | src/components/data-table.tsx:321-322 | With row B of [A,B,C,D] selected, dropping A on C gives [B,C,A,D], and the selection, still on index 1, now picks C. |
| DataTable.FollowMoveKeepsRecords | src/components/data-table.tsx:335-350 | Remapping the selected indices through the move keeps exactly the same rows selected after the reorder. |
| DataTable.Table.HandleDragEndKeepingSelection | src/components/data-table.tsx:335-350 | The drag handler with the selection remapped through `FollowMove`: the rows change as in `HandleDragEnd`, and the selected rows are the same records as before. |
| DataTable.Table.ToggleAllPageRowsSelected | src/components/data-table.tsx:132 | The selection becomes `SetPageSelected` of the page with `!!value`. Rows and visibility are untouched. |
| DataTable.Table.ToggleRowSelected | src/components/data-table.tsx:140 | The selection becomes `SetRowSelected` of that row with `!!value`. Rows and visibility are untouched. |
| DataTable.Table.ToggleColumnVisibility | src/components/data-table.tsx:413-415 | Visibility becomes `ToggleVisibility` for that menu column. Rows and selection are untouched. |
| Selection.HeaderState | src/components/data-table.tsx:127-131 | The header box is checked iff the page has rows and all of them are selected, indeterminate iff some but not all are, and unchecked iff none is. |
| Selection.SetPageSelected | src/components/data-table.tsx:132 | Every row on the page gets the new value. Every row off the page keeps its selection. |
| Selection.SetRowSelected | src/components/data-table.tsx:140 | The row gets the new value. Every other row keeps its selection. |
| Selection.HeaderToggleSettles | src/components/data-table.tsx:127-132 | Switching the header on makes it checked. Switching it off makes it unchecked, whatever was selected before. |
| Selection.RowToggleReflected | src/components/data-table.tsx:127-141 | After a row toggle, the header is checked iff the row was switched on and every other row on the page was already selected. Switching on never leaves the header unchecked, and switching off never leaves it checked. |
| DataTable.Table.HeaderCheckbox | src/components/data-table.tsx:128-131 | Definition: the header box's `checked` is `HeaderState` of the page on the current selection. Its properties are proved in Selection.HeaderState, HeaderToggleSettles and RowToggleReflected. |
| DataTable.Table.RowCheckbox | src/components/data-table.tsx:140 | Definition: `row.getIsSelected()` is membership of the row's key in the selection. Its properties are proved in Selection.SetRowSelected and SetPageSelected. |
| Columns.ViewMenu | src/components/data-table.tsx:405-407 | Definition of the "View" menu's filter on `getCanHide()`. Its properties are proved in ViewMenuLists and TableViewMenu. |
| Columns.ViewMenuLists | src/components/data-table.tsx:405-407 | The "View" menu lists an id iff some column with that id can be hidden. |
| Columns.TableViewMenu | src/components/data-table.tsx:147 | The menu is exactly drag, type, status, target, limit, origin, actions. "select" and "header" never appear (their `enableHiding` is false at 147 and 153). |
| Columns.IsVisible | src/components/data-table.tsx:323 | Definition: a column is visible unless the visibility state records false for its id. Its properties are proved in AllVisibleOnMount, ToggleVisibility, UntouchedColumnKeepsVisibility, LastToggleWins and FixedColumnsStayVisible. |
| DataTable.Table.ColumnVisible | src/components/data-table.tsx:412 | Definition: `column.getIsVisible()` is `IsVisible` on the current visibility state. Its properties are proved in the Columns.IsVisible lemmas and ToggleVisibility. |
| Columns.AllVisibleOnMount | src/components/data-table.tsx:323 | With the initial empty visibility state, every column is visible. |
| Columns.UntouchedColumnKeepsVisibility | src/components/data-table.tsx:413-415 | A column that none of a sequence of menu toggles names keeps its visibility. |
| Columns.LastToggleWins | src/components/data-table.tsx:413-415 | After a sequence of toggles, a column's visibility is the value of the last toggle that named it. |
| Columns.ToggleVisibility | src/components/data-table.tsx:413-415 | The toggled column's visibility becomes the value. Every other column's is unchanged. |
| Columns.FixedColumnsStayVisible | src/components/data-table.tsx:147-153 | However many menu toggles are applied, the select and header columns stay visible. |
| Quantity.RemoveCommas | src/components/data-table.tsx:218 | Definition of `replace(/,/g, '')`. Its properties are proved in RemoveCommasRemovesAll and RemoveCommasAppend. |
| Quantity.RemoveCommasRemovesAll | src/components/data-table.tsx:218 | `replace(/,/g, '')` leaves no comma, and leaves text without commas unchanged. |
| Quantity.RemoveCommasAppend | src/components/data-table.tsx:218 | Removing commas distributes over concatenation. |
| Quantity.TrimStart | src/components/data-table.tsx:218 | `parseInt` skips leading white space: the result is empty or starts with a non-space, and text that starts with a non-space is kept. |
| Quantity.TrimStartDropsOnlySpace | src/components/data-table.tsx:218 | The trimmed text is a suffix of the input, and every character removed before it is white space. |
| Quantity.DigitValue | src/components/data-table.tsx:218 | A digit's value is below its radix. In radix 10, exactly '0'..'9' are digits. |
| Quantity.DigitRun | src/components/data-table.tsx:218 | `parseInt` reads the longest prefix of digits: all characters before the run's end are digits and the next one is not. |
| Quantity.ParseInt | src/components/data-table.tsx:218 | Definition of `parseInt` with no radix: skip white space, read one sign, read a "0x" prefix as radix 16, then the longest run of digits; no digits is NaN (None). Its properties are proved in ParseDecimal, ParseNegativeDecimal, ParsePositiveDecimal, LeadingWhiteSpaceSkipped and HexPrefixExample. |
| Quantity.ParseMagnitude | src/components/data-table.tsx:218 | Definition of the unsigned part of `parseInt`: the hex prefix test and the digit run. Its properties are proved in DecimalMagnitudeOf and MinusNegates. |
| Quantity.DecimalValue | src/components/data-table.tsx:218 | A decimal numeral reads back as its number. |
| Quantity.DigitsThenRest | src/components/data-table.tsx:218 | Digits followed by a non-digit, non-'x' tail parse to the digits' value. |
| Quantity.ParseDecimal | src/components/data-table.tsx:218 | Round trip: `parseInt(String(n) + rest) == n` for every natural n and every tail that begins with a non-digit other than x/X. |
| Quantity.DecimalMagnitudeOf | src/components/data-table.tsx:218 | The unsigned reading of a decimal numeral followed by such a tail is the numeral's value. |
| Quantity.MinusNegates | src/components/data-table.tsx:218 | A leading '-' negates the value of the unsigned text after it. |
| Quantity.ParseNegativeDecimal | src/components/data-table.tsx:218 | Round trip with a minus sign: `parseInt("-" + String(n) + rest) == -n`. |
| Quantity.ParsePositiveDecimal | src/components/data-table.tsx:218 | A leading '+' is skipped: `parseInt("+" + String(n) + rest) == n`. |
| Quantity.LeadingWhiteSpaceSkipped | src/components/data-table.tsx:218 | One leading white-space character does not change what `parseInt` reads. |
| Quantity.HexPrefixExample | src/components/data-table.tsx:218 | The quantity "0x10" is read as 16 kilograms, because `parseInt` without a radix accepts a hexadecimal prefix. |
| Quantity.RoundKgToTonnes | src/components/data-table.tsx:219-223 | `Math.round(kg/1000)` is the integer t with 1000t-500 <= kg < 1000t+500, so halves round up. |
| Quantity.RoundingIsNearest | src/components/data-table.tsx:223 | Only one integer meets that bound, so the rounding is unique. |
| Quantity.QuantityKg | src/components/data-table.tsx:218 | Definition of `parseInt(...) \|\| 0` on the comma-free text. Its properties are proved in UnreadableShowsZero, KilogramsToTonnes and HexPrefixExample. |
| Quantity.QuantityTonnes | src/components/data-table.tsx:218-223 | The shown value is the nearest integer to kg/1000, halves up. |
| Quantity.SameDigitsSameQuantity | src/components/data-table.tsx:218 | Two strings that are equal once commas are removed show the same value. |
| Quantity.CommasIgnored | src/components/data-table.tsx:218 | Inserting a comma anywhere does not change the shown value. |
| Quantity.UnreadableShowsZero | src/components/data-table.tsx:218-223 | An unreadable quantity shows 0, not "N/A". |
| Quantity.KilogramsToTonnes | src/components/data-table.tsx:218-223 | A written kilogram count shows the tonnes nearest to it. |
| Quantity.WholeTonnesExample | src/components/data-table.tsx:218-223 | "150000" shows 150. |
| Quantity.HalfTonneRoundsUpExample | src/components/data-table.tsx:218-223 | "150,500" shows 151. |
| Quantity.NotANumberExample | src/components/data-table.tsx:218-223 | "N/A" shows 0. |
| StatusPalette.StatusColors | src/components/data-table.tsx:167-196 | A listed status gets its own table palette, distinct from every other listed status's. A status is gray iff it is not one of Delivered, Processing, On Hold and In Transit. |
| StatusPalette.KnownStatusPalettes | src/components/data-table.tsx:168-196 | Delivered is emerald, Processing amber, On Hold rose and In Transit blue, each with its light and dark background classes. Any other status, such as "Cancelled", is gray. |
| StatusPalette.LookupAsWritten | src/components/data-table.tsx:192 | Definition of indexing the object literal: its own entries first, then the inherited members of Object.prototype. Its properties are proved in AsWrittenAgreesElsewhere and InheritedNameLosesDefault. |
| StatusPalette.ColorsAsWritten | src/components/data-table.tsx:192-196 | Definition of `statusColors[status] \|\| gray` as written, where an inherited member gives no palette. Its properties are proved in AsWrittenAgreesElsewhere and InheritedNameLosesDefault. |
| StatusPalette.AsWrittenAgreesElsewhere | src/components/data-table.tsx:192-196 | The code as written gives the intended palette iff the status is not an Object.prototype name. It gives no palette at all iff the status is such a name. |
| StatusPalette.InheritedNameLosesDefault | src/components/data-table.tsx:192-196 | The status "constructor" gets no colour classes as written, where gray is intended. |
| Middleware.Gate | middleware.ts:17-42 | Definition of the gate's decision from the pathname and the session. Its properties are proved in PublicAndApiPass, PrivatePathsNeedSession, SignedInUserReachesLogin, RedirectTargetPasses and DashboardRedirectUnreachable. |
| Middleware.SomePrefix | middleware.ts:22-24 | `some(startsWith)` is true iff one of the listed paths is a prefix of the pathname. |
| Middleware.IsPublicPath | middleware.ts:22-24 | Definition: `isPublicPath` is `SomePrefix` of the nine public paths. Its properties are proved in SomePrefix and PublicPathIsPrefixTest. |
| Middleware.PublicPathIsPrefixTest | middleware.ts:5-15 | A path is public iff it starts with one of the nine prefixes, so "/loginx" and "/auth/v1/anything" are public. |
| Middleware.PublicAndApiPass | middleware.ts:27-29 | Public paths and "/api/" paths pass, with or without a session. |
| Middleware.PrivatePathsNeedSession | middleware.ts:32-41 | Any other path redirects to "/login" without a session and passes with one. |
| Middleware.LoginAndSignupArePublic | middleware.ts:6-7 | "/login" and "/signup" are public. |
| Middleware.DashboardIsPrivate | middleware.ts:5-15 | "/dashboard" is neither public nor an API path. |
| Middleware.DashboardRedirectUnreachable | middleware.ts:37-39 | The gate never answers with the redirect to "/dashboard". |
| Middleware.ResetPagePasses | middleware.ts:9 | "/update-password" is public, so the gate passes it with or without a session. |
| Middleware.SignedInUserReachesLogin | middleware.ts:27-29 | A signed-in request for "/login" passes. |
| Middleware.RedirectTargetPasses | middleware.ts:33 | Every redirect goes to "/login", and "/login" passes with or without a session, so there is no redirect loop. |
| Middleware.IntendedGate | middleware.ts:36-39 | Definition of the gate with the "/login" and "/signup" redirect moved before the public-path pass. Its properties are proved in IntendedGateRedirectsSignedInUsers. |
| Middleware.IntendedGateRedirectsSignedInUsers | middleware.ts:36-39 | The corrected gate sends signed-in users on "/login" or "/signup" to "/dashboard". It agrees with the code everywhere else, and every redirect target passes. |
| Http.Json | src/app/api/auth/forgot-password/route.ts:34-37 | `NextResponse.json` gives the status and body and no CORS header. |
| Http.EmptyNoContent | src/app/api/auth/forgot-password/route.ts:29 | The in-handler preflight answer is 204 with no body and no CORS header. |
| Http.WithCorsHeaders | src/app/api/auth/forgot-password/route.ts:18-23 | After the three headers are set, they carry their values and every other header is kept. |
| Http.AddCors | src/app/api/auth/forgot-password/route.ts:18-23 | `addCorsHeaders` keeps the status and body and adds all three CORS headers. |
| Http.Headers.Set | src/app/api/auth/forgot-password/route.ts:19-21 | `headers.set` replaces that header's value and changes no other header. |
| Http.AddCorsHeaders | src/app/api/auth/forgot-password/route.ts:18-23 | The three in-place `set` calls leave the header list equal to `WithCorsHeaders` of the old one. |
| Http.ThreeSetsAddCors | src/app/api/auth/forgot-password/route.ts:19-21 | Three successive sets equal adding the CORS map. |
| ForgotPasswordRoute.Options | src/app/api/auth/forgot-password/route.ts:6-15 | OPTIONS answers 204, with no body and all three CORS headers. |
| ForgotPasswordRoute.RedirectTo | src/app/api/auth/forgot-password/route.ts:43-44 | Definition of the reset link. Its properties are proved in ResetLinkReachable and PostWithEmail. |
| ForgotPasswordRoute.ResetLinkReachable | src/app/api/auth/forgot-password/route.ts:43-44 | The reset link ends in "/update-password" and starts with NEXT_PUBLIC_SITE_URL when that is set and non-empty; otherwise it is "http://localhost:3000/update-password". The gate lets "/update-password" through with or without a session. |
| ForgotPasswordRoute.Post | src/app/api/auth/forgot-password/route.ts:26-85 | Definition of POST. Its properties are proved in PostRequiresEmail, PostHidesAccountExistence, PostWithEmail and CorsOnlyOnSuccess. |
| ForgotPasswordRoute.PostRequiresEmail | src/app/api/auth/forgot-password/route.ts:33-38 | A missing or falsy email gives 400 "Email is required", and no reset is attempted. |
| ForgotPasswordRoute.PostHidesAccountExistence | src/app/api/auth/forgot-password/route.ts:55-77 | The reply and the calls are identical whether or not the provider reports an error. |
| ForgotPasswordRoute.PostWithEmail | src/app/api/auth/forgot-password/route.ts:43-84 | With an email there is exactly one reset call, for that email and the redirect URL. A returned outcome gives 200 with the neutral notice and CORS. A thrown one gives 500 with the generic message. |
| ForgotPasswordRoute.Put | src/app/api/auth/forgot-password/route.ts:88-140 | Definition of PUT. Its properties are proved in PutRequiresFields, PutRejectsBadToken, PutUpdatesOnlyVerifiedUsers, PutOutcomeAfterVerification and CorsOnlyOnSuccess. |
| ForgotPasswordRoute.PutRequiresFields | src/app/api/auth/forgot-password/route.ts:95-100 | A missing token or password gives 400 "Token and password are required", and no provider call is made. |
| ForgotPasswordRoute.PutRejectsBadToken | src/app/api/auth/forgot-password/route.ts:111-117 | A verification error or a missing user gives 400. Only the verification call is made. |
| ForgotPasswordRoute.PutUpdatesOnlyVerifiedUsers | src/app/api/auth/forgot-password/route.ts:104-122 | The password is updated only after a verification with no error and with a user. The calls are then exactly verify, then update. |
| ForgotPasswordRoute.PutOutcomeAfterVerification | src/app/api/auth/forgot-password/route.ts:124-138 | Once the token is accepted, an update error or a throw gives 500, and success gives 200 "Password updated successfully!" with CORS. |
| ForgotPasswordRoute.CorsOnlyOnSuccess | src/app/api/auth/forgot-password/route.ts:6-23 | Every POST or PUT reply has status 200, 204, 400 or 500. It carries the CORS headers iff its status is 200. Non-200 replies carry none. OPTIONS carries them. |
| UpdatePasswordRoute.Failure | src/app/api/auth/update-password/route.ts:43-48 | The catch block answers 500 with the caught error's message, or "Failed to update password" when the message is missing or empty. |
| UpdatePasswordRoute.Post | src/app/api/auth/update-password/route.ts:5-49 | Definition of POST. Its properties are proved in PostRequiresFields, PostRejectsBadToken, PostUpdatesOnlyAfterVerification and PostStatuses. |
| UpdatePasswordRoute.PostRequiresFields | src/app/api/auth/update-password/route.ts:8-13 | A missing token or password gives 400, and no provider call is made. |
| UpdatePasswordRoute.PostRejectsBadToken | src/app/api/auth/update-password/route.ts:24-29 | A verification error or null session data gives 400 "Invalid or expired token", and no update is made. |
| UpdatePasswordRoute.PostUpdatesOnlyAfterVerification | src/app/api/auth/update-password/route.ts:17-34 | An update happens iff both fields are present and the verification returned data with no error. The calls are then exactly verify, then update. |
| UpdatePasswordRoute.PostStatuses | src/app/api/auth/update-password/route.ts:36-48 | Statuses are 200, 400 or 500, and none carries CORS headers. The status is 200 iff verification and update both succeed, and that reply is "Password updated successfully". A thrown verification, an update error or a thrown update gives `Failure` of that error. |
| UpdatePasswordPage.HasRecoveryLink | src/app/update-password/page.tsx:105-107 | Definition of the recovery-link test. Its properties are proved in RenderedFormHasToken. |
| UpdatePasswordPage.PreflightError | src/app/update-password/page.tsx:39-52 | The checks run in order: missing token, then mismatch, then length under 6. Each message appears iff the checks before it passed and its own failed. Pre-flight passes iff the token is present, the passwords match and the length is at least 6. |
| UpdatePasswordPage.RenderedFormHasToken | src/app/update-password/page.tsx:105-107 | On a rendered form, the invalid-link error cannot occur. |
| UpdatePasswordPage.PutRequest | src/app/update-password/page.tsx:69-72 | The request body carries the token and the password as strings. |
| UpdatePasswordPage.Completion | src/app/update-password/page.tsx:78-102 | Success happens iff a response arrived, it is ok and it is a JSON object. Otherwise: a body that is not JSON gives "Invalid response from server"; a non-ok response gives the server's `error` or "Failed to update password"; a network error gives its message or "An error occurred. Please try again.". |
| UpdatePasswordPage.Delivered | src/app/update-password/page.tsx:78-89 | Definition of how a route reply reaches the page: `ok` for a 2xx status, the JSON body's `error`, no JSON for an empty body or an escaped exception. Its properties are proved in PageShowsReply and PageReportsRouteOutcome. |
| UpdatePasswordPage.PageShowsReply | src/app/update-password/page.tsx:78-102 | For any route reply: an escaped exception shows "Invalid response from server". A 2xx reply succeeds iff it has a JSON body. A non-2xx reply shows its own non-empty `error`, or "Failed to update password" when its body has no `error`. |
| UpdatePasswordPage.PreflightCoversRouteCheck | src/app/update-password/page.tsx:39-52 | A request that passed pre-flight never gets the PUT route's 400 for missing fields. |
| UpdatePasswordPage.PageReportsRouteOutcome | src/app/update-password/page.tsx:63-98 | After pre-flight, the page reports success iff the PUT route verified a user and updated the password. Otherwise it shows the route's own error message. |
| UpdatePasswordPage.Page.constructor | src/app/update-password/page.tsx:15-23 | The page mounts with empty fields, no messages and no loading. |
| UpdatePasswordPage.Page.RedirectsOnMount | src/app/update-password/page.tsx:25-34 | Definition: the mount effect redirects to "/login" exactly when the link is not a recovery link, which is also when the render guard shows nothing. |
| UpdatePasswordPage.Page.SetPassword | src/app/update-password/page.tsx:131 | Only the password field changes. |
| UpdatePasswordPage.Page.SetConfirmPassword | src/app/update-password/page.tsx:143 | Only the confirmation field changes. |
| UpdatePasswordPage.Page.BeginSubmit | src/app/update-password/page.tsx:36-56 | A failed check sets only `error` and sends nothing: `message` and `isLoading` are untouched. A passed check sets `isLoading`, clears `error` and `message`, and returns the request. |
| UpdatePasswordPage.Page.CompleteSubmit | src/app/update-password/page.tsx:78-102 | `isLoading` ends false. Success sets the success message and schedules the redirect. Failure sets `error` from `Completion`. |
| UpdatePasswordPage.Page.Submit | src/app/update-password/page.tsx:36-102 | After an accepted form, exactly one of `message` and `error` is shown, and a redirect is scheduled iff the request succeeded. |
| Js.Utf16Length | src/app/update-password/page.tsx:49 | `password.length` counts UTF-16 code units: at least the number of characters, at most twice that, and equal to it for text inside the Basic Multilingual Plane. |

## Left out

- DataTable.Table.HandleDragEnd: requires both dragged and target ids to be present. The code does not guard this: `findIndex` gives -1, and `splice(-1, …)` then acts on the last row.
- DataTable.ReorderRows: requires both ids to be present, for the same reason.
- DataTable.Table.HandleDragEndKeepingSelection: requires both ids to be present, for the same reason.
- Drag ids are the rows' numeric ids. The code compares their `toString()` forms, which are equal exactly when the integers are.
- The two `splice` calls on the copied list run on a fixed-length array. The list shrinking and growing in between is not modelled, only the final contents.
- Columns.FixedColumnsStayVisible: requires toggles to come from the "View" menu. The table library's own `setColumnVisibility` API is not part of the component.
- Filtering, global search, sorting, pagination, faceting, the page-size options and the "Page n of m" label belong to the table library and are not modelled.
- Drag sensors and collision detection belong to the drag-and-drop library and are not modelled.
- The `parseFloat` price cell, the origin cell, `toLocaleString` digit grouping, numbers beyond 2^53 and the sign of -0 are not modelled. They involve floating point or locale formatting.
- The quantity cell's "N/A" catch branch is not modelled: converting a string and replacing in it cannot throw.
- The session lookup, cookies, provider clients, `console` logging, `fetch`, `setTimeout` and `router.push` are not modelled. They are I/O. Session presence, provider outcomes and fetch outcomes are inputs; the scheduled redirect is a returned flag.
- The middleware `matcher` configuration, and the origin of redirect URLs, are framework routing and are not modelled.
- A request body that is not valid JSON, or is `null`, makes the handler throw before any try block. It is modelled as an escaped exception, without the framework's error response. Any other JSON value destructures to missing fields and gets the route's 400.
- UpdatePasswordPage.Delivered: assumes the framework's error page for an escaped exception is not JSON.
- Page JSON replies that parse to something other than an object (such as `null`) are not modelled. Nor are non-string `error` fields.
- The mount effect and the render guard are both modelled as reading the same URL parameters.
- Overlapping submissions while a request is in flight are not modelled.
- Header names are written in lower case because HTTP compares them without regard to case. The `content-type` header is the only other header modelled.
- Dafny strings hold Unicode scalar values, so lone surrogate code units cannot be represented.

## Findings

| source | as written | input that shows it | evidently intended | confidence | as-written member | corrected member |
|---|---|---|---|---|---|---|
| middleware.ts:37-39 | The redirect of signed-in users from "/login" and "/signup" to "/dashboard" comes after the public-path pass at 27-29. Both paths are public, so the branch is dead. | pathname "/login" with a session: passes | a signed-in user asking for "/login" or "/signup" is sent to "/dashboard" | high; not executed | Middleware.DashboardRedirectUnreachable | Middleware.IntendedGateRedirectsSignedInUsers |
| src/components/data-table.tsx:192-196 | The lookup with the gray fallback also finds members that the object literal inherits from Object.prototype. Those are truthy, so they win over the default, and their `bg`/`text`/`border` are undefined. | status "constructor" (or "toString"): no colour classes | every status not in the table gets the gray palette | medium; not executed | StatusPalette.InheritedNameLosesDefault | StatusPalette.StatusColors |
| src/components/data-table.tsx:321-322 | The table has no `getRowId`, so the selection is keyed by row index. `handleDragEnd` reorders `data` and leaves `rowSelection` alone, so the selection stays on positions, not on the rows. | [A,B,C,D] with B selected, A dropped on C: C is selected | the selection follows the dragged records | medium; not executed | DataTable.DragLeavesSelectionOnPositions | DataTable.FollowMoveKeepsRecords |
