# ZeroBuild.Ai application core in Dafny

A model of the non-visual logic of the ZeroBuild.Ai single-page application (the `App`
component). The application lets a client describe a building plot or a room by its
dimensions and style. It keeps length, breadth and area consistent as the user edits them.
It sends the description to external generation services and joins their results into one
ownership-tagged record. Clients and administrators can then read those records back.

Modules, leaf first:

- `Wrappers` (wrappers.dfy): `Option` for `null`/`undefined`, and `Result` for a settled gateway call.
- `Types` (types.dfy): `ProjectRecord`, `RoomRecord`, `User` with role `CLIENT | DEVELOPER`, the line-item types, and the first entries of the constant tables used as form defaults.
- `JsText` (jstext.dfy): the JavaScript string built-ins the handlers rely on: `${n}` for an integer, `trim()`, and `split('@')[0]`.
- `Geometry` (geometry.dfy): the dimension reconciler shared by the building and the room forms, over exact reals. `parseFloat(x.toFixed(2))` is exact decimal rounding (`Round2`). `parseFloat(Math.sqrt(a).toFixed(2))` is the hundredth nearest the square root (`RoundedSqrt`), characterised without a real square root.
- `Forms` (forms.dfy): the building and room forms (`Partial` records whose dimensions may be missing), the two dimension updaters, and the plot-analysis merge.
- `Synthesis` (synthesis.dfy): the guards of `generateProject` and `handleGenerateRoom`, the `Promise.all` joins as all-or-nothing functions, and the finished records.
- `Access` (access.dfy): the ownership filter, the administrator lookup, the client registry, room selection by id, and the fixed-table login check.
- `AppState` (app.dfy): class `App` with the component's state fields. The handlers are methods that update those fields. `Valid()` is the invariant every handler keeps. Stored records have well-formed ids and are owned by a signed-in user's id. The selected room id names a stored room. Lookup rows and the open project are stored records.

Behaviour a reader may not expect, which the model keeps as the code has it:

- After a length or breadth edit, the area is `length * breadth` with no rounding.
- Repeating an area edit can change the triple (`Geometry.AreaEditNotIdempotent`).
- Validation asks for a truthy area, so a negative area passes.
- The administrator role is `DEVELOPER`. Login checks a fixed credential table in the component.
- The administrator search performs no role check of its own. Only the registry is scoped by role.
- The side render returned by the gateway is not stored in the project.

## Model

| member | source | states |
|---|---|---|
| `Geometry.Round2` | App.tsx:138 | The result has at most two decimals, lies within 1/200 of the input, and is non-negative for a non-negative input. |
| `Geometry.RootSearch` | App.tsx:141 | The result k is the integer nearest the square root of x: (k - 1/2)^2 <= x < (k + 1/2)^2, or k = 0 when x < 1/4. |
| `Geometry.RootUnique` | App.tsx:141 | At most one integer meets that characterisation, so the rounded root is determined. |
| `Geometry.RoundedSqrt` | App.tsx:141 | The rounded square root is non-negative with at most two decimals, and 100 times it is the integer nearest 100 times the root of the area: (k - 1/2)^2 <= 10000a < (k + 1/2)^2. |
| `Geometry.RoundedSqrtError` | App.tsx:141-142 | The rounded root squared differs from the area by at most root/100 + 1/40000. |
| `Geometry.Reconcile` | App.tsx:122-147 | A length edit sets length and keeps breadth; a breadth edit sets breadth and keeps length. Either way area becomes exactly length * breadth. An area edit sets area, and a non-positive area leaves both sides unchanged. Missing fields read as 0. |
| `Geometry.PositiveAreaEdit` | App.tsx:134-144 | For a positive area the branch is chosen by what is known. A positive length is kept and breadth is area/length rounded. Otherwise a positive breadth is kept and length is area/breadth rounded. Otherwise both sides are the rounded square root. |
| `Geometry.KeptLengthConsistent` | App.tsx:138 | Keeping a positive length gives non-negative sides whose product is within rounding of the area. |
| `Geometry.KeptBreadthConsistent` | App.tsx:139 | Keeping a positive breadth gives non-negative sides whose product is within rounding of the area. |
| `Geometry.SquareConsistent` | App.tsx:140-143 | The square fallback gives non-negative sides whose product is within rounding of the area. |
| `Geometry.PositiveAreaEditConsistent` | App.tsx:134-144 | After any positive area edit no side is negative and length * breadth is within (length + breadth)/200 + 1/40000 of the area. |
| `Geometry.LinearEditIdempotent` | App.tsx:128-133 | Repeating a length or breadth edit gives the same triple. |
| `Geometry.AreaEditIdempotentWithKnownLength` | App.tsx:134-138 | Repeating an area edit gives the same triple when the length was already positive. |
| `Geometry.AreaEditNotIdempotent` | App.tsx:134-144 | With breadth 7 and no length, area 1 gives length 0.14; the same edit again gives breadth 7.14. |
| `Geometry.ReconcileExamples` | App.tsx:122-147 | (0,0,0) with length 5 gives (5,0,0). (5,4,20) with area 40 gives (5,8,40). (0,0,0) with area 49 gives (7,7,49). (5,0,0) with area 0 gives (5,0,0). |
| `Forms.UpdateBuildingDimensions` | App.tsx:122-148 | Only the building form's three dimensions change, all three become present, and they form the reconciled triple. |
| `Forms.UpdateRoomDimensions` | App.tsx:151-176 | Only the room form's three dimensions change, all three become present, and they form the reconciled triple. |
| `Forms.BuildingAndRoomAgree` | App.tsx:151-176 | The room updater yields the same triple as the building updater from the same length and breadth, a missing field agreeing with 0. |
| `Forms.MergeAnalysis` | App.tsx:247-255 | No analysis changes nothing. Otherwise each dimension takes the reading when present and non-zero and keeps its value otherwise. No other field changes and nothing is reconciled. |
| `Forms.MergeAnalysisIdempotent` | App.tsx:276-283 | Merging the same analysis twice equals merging it once. |
| `Forms.MergeCompleteAnalysisOverrides` | App.tsx:248-254 | A complete, non-zero analysis overrides any previous dimensions. |
| `JsText.NatToDecimal` | App.tsx:310 | The rendering is all digits, has no leading zero, and its length is the number of decimal digits of n. |
| `JsText.DecimalRoundTrip` | App.tsx:310 | Reading a rendered number back gives the number. |
| `JsText.FourDigits` | App.tsx:310 | Every number from 1000 to 9999 renders as four digits, the first non-zero. |
| `JsText.TrimStart` | App.tsx:295 | The result is a suffix of the input with no leading whitespace, and only whitespace was removed. |
| `JsText.TrimEnd` | App.tsx:295 | The result is a prefix of the input with no trailing whitespace, and only whitespace was removed. |
| `JsText.TrimEmptyIffBlank` | App.tsx:295 | `trim()` is empty exactly when every character is ECMAScript whitespace or a line terminator. |
| `JsText.BeforeFirst` | App.tsx:187 | The result is the longest prefix without the separator; the separator, if present, follows it. |
| `JsText.BeforeFirstSeparator` | App.tsx:187 | The text before the first separator is everything up to it, whatever follows. |
| `Synthesis.Join4` | App.tsx:315-320 | The join yields all four values exactly when all four calls fulfilled, and nothing otherwise. |
| `Synthesis.Join2` | App.tsx:358-361 | The join yields both values exactly when both calls fulfilled, and nothing otherwise. |
| `Synthesis.RecordIdShape` | App.tsx:310 | A generated id is the prefix and four digits, the first non-zero, and the digits read back as 1000 + r. |
| `Synthesis.SynthesizeProject` | App.tsx:301-328 | The draft is rejected exactly when the title is empty, the area is missing or 0, or no user is signed in. It fails exactly when it is ready and a gateway call was rejected. Otherwise the record has a PRJ id, the user's id as owner, and the display name or "Private Client". The before image is the photo or else the generated one. It also carries the render, interior, narrative and budget. The form's title, area, type, location, budget, colour, style, floors and rooms per floor are copied, and a missing length or breadth becomes 0. |
| `Synthesis.SynthesizeRoom` | App.tsx:338-362 | The draft is rejected exactly when the type is empty, the area is missing or 0, or no user is signed in. It fails exactly when it is ready and a call was rejected. Otherwise the room has a ROOM id, the user as owner, the neutral range, a budget defaulting to "0", a primary colour defaulting to the first palette colour, the form's dimensions, and the render and item list. Its before image is the photo when one was given, and absent otherwise. |
| `Access.OwnedBy` | App.tsx:296-297 | The filter keeps exactly the elements owned by the id and is no longer than its input. |
| `Access.OwnedByConcat` | App.tsx:296-297 | Filtering distributes over concatenation, so store order is kept. |
| `Access.NoneOwned` | App.tsx:296-297 | An id that owns nothing filters to the empty sequence. |
| `Access.OwnedByPrepend` | App.tsx:330 | A prepended record enters the front of its owner's view and no other view. |
| `Access.AdminLookup` | App.tsx:294-299 | The lookup returns exactly the projects and rooms whose clientId equals the untrimmed search string. |
| `Access.UnknownClientLookupIsEmpty` | App.tsx:296-298 | A lookup for an id that owns nothing yields two empty lists, not an error. |
| `Access.LookupAfterNewProject` | App.tsx:330 | A new project appears first in its owner's lookup and changes no other lookup. |
| `Access.LookupAfterNewRoom` | App.tsx:363 | A new room appears first in its owner's lookup and changes no other lookup. |
| `Access.Registry` | App.tsx:687 | A CLIENT sees exactly the projects with their own id, and a DEVELOPER sees all projects. |
| `Access.ClientRegistryIsOwnLookup` | App.tsx:687 | A client's registry equals the administrator lookup of that client's id. |
| `Access.FindRoom` | App.tsx:444 | A room is found exactly when an id is selected and some room has it. The room found is the first, most recent, with that id. |
| `Access.NewestRoomSelected` | App.tsx:363-364 | Selecting a just-prepended room's id finds that room, even when an older room has the same id. |
| `Access.Authenticate` | App.tsx:180-187 | A user results exactly for the two valid role, username and password triples. The user has the role, the username, the role's id (CLIENT-8293 exactly for CLIENT), and the text before the first `@` as display name. |
| `Access.ClientAccount` | App.tsx:182-187 | The client account signs in as "client" with id CLIENT-8293. |
| `Access.AdminAccount` | App.tsx:183-187 | The administrator account signs in as "admin" with id ADMIN-0001. |
| `Access.RoleMustMatch` | App.tsx:181-183 | Valid credentials presented under the other role are refused. |
| `AppState.App.constructor` | App.tsx:58-111 | The initial state: the one seeded project, no rooms, blank forms, no user, no lookup, no images, no selection, not loading. |
| `AppState.App.SelectedRoom` | App.tsx:444 | Under the invariant, a selected id always finds a stored room with that id. |
| `AppState.App.EditBuildingDimension` | App.tsx:122-148 | The building form becomes the reconciled form and the invariant is kept. |
| `AppState.App.EditRoomDimension` | App.tsx:151-176 | The room form becomes the reconciled form and the invariant is kept. |
| `AppState.App.HandleLogin` | App.tsx:178-191 | Under the chosen role, or CLIENT when none was chosen, valid credentials sign the user in and close the portal. Otherwise nothing changes. |
| `AppState.App.HandleLogout` | App.tsx:193-199 | Clears the user, the portal, the open project, the photo and the lookup. The record store is untouched. |
| `AppState.App.HandleNewProject` | App.tsx:216-233 | Resets the building form to its blank defaults and clears the photo and the open project. |
| `AppState.App.ChoosePortal` | App.tsx:587 | Opens the chosen role's login and resets the building form. |
| `AppState.App.LoadPlotPhoto` | App.tsx:266-292 | The photo becomes the preview. A fulfilled analysis is merged into the form; a rejected one changes nothing. Loading ends. |
| `AppState.App.HandleAdminSearch` | App.tsx:294-299 | A whitespace-only id leaves the lookup unchanged. Any other id shows exactly that client's projects and rooms. |
| `AppState.App.GenerateProject` | App.tsx:301-336 | A rejected draft changes nothing, not even loading. Success prepends exactly one record and opens it; a gateway failure leaves the projects unchanged. Loading ends in both cases. |
| `AppState.App.HandleGenerateRoom` | App.tsx:338-372 | A rejected draft changes nothing. Success prepends exactly one room, selects it and clears the photo; a failure leaves the history unchanged. Loading ends in both cases. |

## Left out

- Rendering and view switching: `renderAdminLookup`, `renderRoomsView`, `renderTabContent`, the landing and login pages, `viewMode`, `activeTab`, `roomViewMode`, `showHistory`, zoom and perspective state. They are presentation.
- The inline field setters in the markup are presentation. They cover the title, budget, floors, type, colours, room type and room budget. The handlers take the forms as they stand.
- The room photo reader (App.tsx:462) is presentation. `HandleGenerateRoom` takes `roomPreviewImage` as it stands.
- The clicks that open a stored project from a list (App.tsx:401, 687) and the portal's back button are presentation.
- Camera, canvas and `FileReader` plumbing is browser I/O. `LoadPlotPhoto` receives the image and the settled analysis. `capturePhoto` runs the same steps, plus stopping the camera and the flash, and is not a separate member.
- The `./services/gemini` calls are external services whose source is not part of this model. Their settled outcomes are parameters, and what is sent to them (the base record, the photo, the perspective, the language) is not modelled.
- `Promise.all` concurrency and the rejection reason are not modelled. The join is all-or-nothing over settled outcomes.
- `alert` and `console.error` messages are not modelled.
- Interleaving is not modelled: each handler runs atomically. In the component another event can run while gateway calls are pending, and each pending synthesis later prepends its own record.
- `Math.random` is the integer draw `r` in [0, 9000). `new Date().toLocaleDateString()` is an opaque date string parameter.
- IEEE double arithmetic is not modelled. Numbers are exact reals, `toFixed(2)` is exact decimal rounding, and `Math.sqrt` is exact. NaN from `Number(...)` on non-numeric input is not modelled.
- The `credentials` and `searchClientId` state fields are the handlers' parameters.
- Synthesis.SynthesizeProject: a form whose length or breadth is undefined would carry `undefined` into the record through `...formData`. The model stores 0 instead. Every writer of the form sets both fields, so this cannot arise in the component.
- `constants.ts` translation tables and the rest of the colour, type and culture lists are not modelled. Only their first entries, the form defaults, are.
- `src/components/Layout.tsx` is presentational markup.
