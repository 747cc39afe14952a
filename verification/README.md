# Ride-hailing app back-end helpers: a Dafny model

This project models the small amount of sequential logic in a ride-hailing web application whose other parts are UI and document-database glue:

- **Admin-ID minting** (`POST /api/users/generate-admin-id`). The `counters/adminId` document's `currentId` is read and incremented. It starts at 1 when the document is absent. The new value is written back and formatted as `AD` followed by the number, left-padded with `0` to three digits. `AdminId.AdminCounter` is the counter document, with a `Next` method. The formatting is the pure function `AdminId.FormatAdminId`. The lemma `AdminId.ParseFormat` proves, through the separate parser `AdminId.ParseAdminId`, that the id encodes exactly the stored counter.
- **Saved-route insert** (`POST /api/users/saved-routes/add`). Three guards run in order: the top-level fields, the pickup point, the dropoff point. The first one that fails answers 400 with its own message. Otherwise one document goes into `savedRoutes`: the payload spread with `createdAt`.
- **Favorite-location insert** (`POST /api/users/favorite-locations/add`). One guard answers 400. Otherwise one document is inserted and read back.
- **Favorite drivers** (`useFavoriteDrivers`, `addFavoriteDriver`). The snapshot callback loops over the documents. It skips any document without data or without a `driverId`. It fills missing display fields from the driver's profile, and stored values win. It carries one `customId` variable from document to document.

Request bodies are JavaScript values (`Js.Value`). The guards apply JavaScript truthiness (`!x`), `typeof x === 'number'`, and property reads that throw on `undefined`/`null`. The database is an in-memory `DocStore.Collection`: `add` picks a fresh id. Database failures, the JSON parse failure of the body and the `Timestamp.now()` reading are parameters of the handlers.

Modules: `Basics` (Option, Result, Outcome), `Js`, `Http` (the status and body fields of a response), `DocStore`, `AdminId`, `SavedRoutes`, `FavoriteLocations`, `FavoriteDrivers`.

## Model

| member | source | states |
|---|---|---|
| `AdminId.Decimal` | src/app/api/users/generate-admin-id/route.ts:39 | `toString()` of a non-negative integer is a non-empty string of decimal digits with no leading zero |
| `AdminId.PadStart` | src/app/api/users/generate-admin-id/route.ts:39 | `padStart(width, fill)` keeps the string as its suffix, prefixes fill characters only, and reaches length max(width, length) without ever truncating |
| `AdminId.FormatAdminId` | src/app/api/users/generate-admin-id/route.ts:39 | the id is `AD` followed by digits only, ends with the number's own decimal digits, and is max(3, digit count) + 2 characters long |
| `AdminId.ParseFormat` | src/app/api/users/generate-admin-id/route.ts:37-39 | the number read back from the formatted id is exactly the counter value, so the stored counter and the returned id agree |
| `AdminId.FormatInjective` | src/app/api/users/generate-admin-id/route.ts:30-39 | distinct counter values give distinct ids |
| `AdminId.FormatWidth` | src/app/api/users/generate-admin-id/route.ts:39 | ids below 1000 are exactly `AD` plus three digits; from 1000 on the id grows and is not truncated |
| `AdminId.FirstAdminId` | src/app/api/users/generate-admin-id/route.ts:30-39 | counter value 1, the value issued when no counter document exists, gives `AD001` |
| `AdminId.IssuedIdsDistinct` | src/app/api/users/generate-admin-id/route.ts:21-39 | a strictly increasing run of counter values, as sequential calls issue, never repeats an id |
| `AdminId.AdminCounter.Next` | src/app/api/users/generate-admin-id/route.ts:29-37 | issues 1 when the document is absent, else the stored value plus one; stores the issued value; the issued value exceeds every earlier one, and the issue history stays strictly increasing |
| `AdminId.GenerateSequentialAdminId` | src/app/api/users/generate-admin-id/route.ts:21-44 | no counter reference fails with 'Database not available'; a database error is rethrown and leaves the counter unchanged; on success the returned id is the formatted new counter value, and that value parses back out of the id |
| `AdminId.Post` | src/app/api/users/generate-admin-id/route.ts:5-18 | success answers `success: true` with the formatted id of the stored counter; every failure answers 500 'Internal server error' and writes nothing |
| `DocStore.Stamped` | src/app/api/users/saved-routes/add/route.ts:43-46 | the stored document holds every payload field unchanged plus `createdAt`, which overrides a payload field of that name |
| `DocStore.Collection.Add` | src/app/api/users/saved-routes/add/route.ts:48 | adds exactly one document under an id no existing document has, and changes no other document |
| `DocStore.Collection.Get` | src/app/api/users/favorite-locations/add/route.ts:33 | reads back the stored document under an id, and nothing when there is none |
| `SavedRoutes.Validate` | src/app/api/users/saved-routes/add/route.ts:29-41 | a nullish body throws the TypeError of reading `userId`; a missing or falsy `userId`/`label`/`pickupLocation`/`dropoffLocation` gives the first message; otherwise an invalid pickup point gives the pickup message; otherwise an invalid dropoff point gives the dropoff message; acceptance holds iff every check passes, and only object bodies are accepted |
| `SavedRoutes.CoordinateValueIrrelevant` | src/app/api/users/saved-routes/add/route.ts:35-39 | coordinates are checked by type only: replacing a numeric latitude or longitude of either point by any number leaves the verdict unchanged |
| `SavedRoutes.ZeroCoordinateAccepted` | src/app/api/users/saved-routes/add/route.ts:35-41 | both points of an accepted route are objects, and the route stays accepted with a latitude or longitude of 0 |
| `SavedRoutes.StopsIgnored` | src/app/api/users/saved-routes/add/route.ts:22-41 | `stops` is never validated: for any object body, any value of it gives the same verdict |
| `SavedRoutes.DoorOrFlatIgnored` | src/app/api/users/saved-routes/add/route.ts:14-41 | a point's `doorOrFlat` is never validated: any value of it gives the same verdict |
| `SavedRoutes.Post` | src/app/api/users/saved-routes/add/route.ts:25-53 | 400 iff the guards reject, with the first failing guard's message; 200 iff they accept and the insert succeeds, and then exactly one new document (the payload stamped with `createdAt`) is added under the returned id; on every non-200 answer the collection is unchanged; failures answer 500 'Failed to add saved route' with, as details, the parse error, the TypeError of reading `userId` from a null body, or the insert's error |
| `FavoriteLocations.Acceptable` | src/app/api/users/favorite-locations/add/route.ts:23 | the guard: truthy `userId`, `label` and `address`, numeric coordinates; only an object body with all three text fields and numeric coordinates passes |
| `FavoriteLocations.AcceptableIff` | src/app/api/users/favorite-locations/add/route.ts:23 | for a payload of the declared shape the guard holds iff `userId`, `label` and `address` are non-empty; any numeric coordinate, zero included, passes |
| `FavoriteLocations.NonNumberCoordinateRefused` | src/app/api/users/favorite-locations/add/route.ts:23 | a latitude or longitude that is not a number (a numeric string included) is refused |
| `FavoriteLocations.Post` | src/app/api/users/favorite-locations/add/route.ts:18-41 | 400 with the one fixed message iff a body other than null or undefined fails the guard; 200 iff the guard holds and both insert and read-back succeed, and then `id` is the new document's fresh id and `data` is the stamped payload as stored; nothing is written unless the guard holds and the insert succeeds; failures answer 500 'Failed to add favorite location' with, as details, the parse error, the TypeError of reading `userId` from a null body, the insert's error, or the read-back's error |
| `FavoriteDrivers.ProfileUsed` | src/hooks/useFavoriteDrivers.ts:43-48 | profile data is used iff a display field is missing and the driver's profile document exists with data |
| `FavoriteDrivers.VehicleInfo` | src/hooks/useFavoriteDrivers.ts:51 | make/model, followed by " - " and the registration only when a registration exists; empty iff neither exists |
| `FavoriteDrivers.CustomIdOf` | src/hooks/useFavoriteDrivers.ts:53 | the profile's `customId`, else its `driverIdentifier`, else '' |
| `FavoriteDrivers.Fill` | src/hooks/useFavoriteDrivers.ts:39-58 | the record keeps the document id and `driverId`; stored non-empty display values always win; with no profile data the stored fields are kept as they are; a missing field is taken from the profile, `vehicleInfo` as the formatted vehicle string |
| `FavoriteDrivers.KeptDocs` | src/hooks/useFavoriteDrivers.ts:32-37 | exactly the documents with data and a non-empty `driverId` survive, each one from the snapshot |
| `FavoriteDrivers.KeptDocsAppend` | src/hooks/useFavoriteDrivers.ts:32-37 | skipping distributes over concatenation, so the kept documents stay in snapshot order |
| `FavoriteDrivers.Records` | src/hooks/useFavoriteDrivers.ts:31-59 | the records the callback builds as written, with `customId` carried from document to document; never more records than documents |
| `FavoriteDrivers.RecordsFollowKeptDocs` | src/hooks/useFavoriteDrivers.ts:31-59 | one record per kept document, in snapshot order, each filled from its own document and its own driver's profile (`customId` aside) |
| `FavoriteDrivers.UnusableLookupKeepsStored` | src/hooks/useFavoriteDrivers.ts:44-58 | a missing profile, an empty one or a failed lookup is swallowed, and the record is still emitted with exactly its stored fields |
| `FavoriteDrivers.CustomIdCarriedOver` | src/hooks/useFavoriteDrivers.ts:53-58 | as written, a document that needs no lookup, read after one whose profile was used, carries the earlier driver's custom id |
| `FavoriteDrivers.CustomIdLeakExample` | src/hooks/useFavoriteDrivers.ts:53-58 | a concrete pair of favorites on which the second driver's record shows the first driver's custom id |
| `FavoriteDrivers.PerDocumentRecords` | src/hooks/useFavoriteDrivers.ts:31-59 | the corrected records, with a per-document `customId`; never more records than documents |
| `FavoriteDrivers.PerDocumentCustomId` | src/hooks/useFavoriteDrivers.ts:53 | with a per-document `customId`, every record's custom id comes from its own driver's profile, and is absent when that profile was not used |
| `FavoriteDrivers.CorrectionOnlyChangesCustomId` | src/hooks/useFavoriteDrivers.ts:53-58 | the per-document records differ from the as-written ones only in `customId` |
| `FavoriteDrivers.BuildFavorites` | src/hooks/useFavoriteDrivers.ts:31-59 | the loop with its carried `customId` builds exactly the as-written records: one per kept document, in order, each filled from its own document and profile |
| `FavoriteDrivers.FavoriteDriversHook.constructor` | src/hooks/useFavoriteDrivers.ts:15-17 | the hook starts with an empty list, `loading` true and no error |
| `FavoriteDrivers.FavoriteDriversHook.Subscribe` | src/hooks/useFavoriteDrivers.ts:19-28 | with no database or no user id the list is empty, `loading` false and `error` null, and nothing is subscribed; otherwise `loading` is raised |
| `FavoriteDrivers.FavoriteDriversHook.OnSnapshot` | src/hooks/useFavoriteDrivers.ts:30-62 | publishes the records built from the snapshot and clears `loading` |
| `FavoriteDrivers.FavoriteDriversHook.OnError` | src/hooks/useFavoriteDrivers.ts:63-66 | records the listener's error message and clears `loading`, keeping the list |
| `FavoriteDrivers.NewFavorite` | src/hooks/useFavoriteDrivers.ts:77 | the stored favorite holds the driver id and the given name, or '' when none is given, and nothing else |
| `FavoriteDrivers.AddFavoriteDriver` | src/hooks/useFavoriteDrivers.ts:74-78 | throws 'Missing user or driver ID' without a database, a user id or a driver id; otherwise adds exactly one favorite under a fresh id, unless the insert fails, in which case it rejects with the insert's own error and nothing is added |
| `FavoriteDrivers.AddedFavoriteListed` | src/hooks/useFavoriteDrivers.ts:74-78 | a favorite added with a driver id is never skipped by the snapshot pass and yields a record with its id and driver id; having no `avatarUrl`, it always triggers a profile lookup |

## Left out

- The read-then-write race on the counter document is a concurrency concern. The model covers sequential calls only, and uniqueness is not claimed under interleaving.
- `AdminId.AdminCounter.Next`: assumes the stored `currentId` is a non-negative integer, as this code writes it. A stored string (JavaScript `+` would concatenate) or a missing field (giving `NaN`) is not modelled.
- `AdminId.FormatAdminId`: treats numbers as unbounded integers. JavaScript's loss of precision above 2^53 and its exponent notation from 10^21 are not modelled.
- `AdminId.GenerateSequentialAdminId`: a failing `getDoc` and a failing `setDoc` are merged into one error, and both leave the counter unchanged. A write that fails after taking effect is not modelled.
- `SavedRoutes.Post`, `FavoriteLocations.Post`, `FavoriteDrivers.AddFavoriteDriver`: a failing `add`/`addDoc` is modelled as failing before anything is written, which is why these contracts promise an unchanged collection on that failure. An insert that takes effect and still reports an error is not modelled.
- Firestore and firebase-admin initialisation, the network, `safeDoc`, `getDoc`, `setDoc`, `add` and `addDoc` are replaced by in-memory collections. Generated document ids are abstract naturals, not 20-character strings.
- `Timestamp.now()` is a parameter. The JSON serialisation of `createdAt` in a response is not modelled.
- `req.json()`: the body arrives already parsed, or as the error parsing threw.
- Coordinates are not modelled as floating-point numbers. Only their type and truthiness are kept.
- `Js.Value.Get` reads only an object's own properties. Prototype properties are not modelled, and none of the keys the handlers read is one.
- The favorite-driver fields (`driverId`, `name`, `avatarUrl`, `vehicleInfo`, the profile fields) are optional strings, following the hook's declared record type. Stored values of other types are not modelled.
- `FavoriteDrivers.FavoriteDriversHook.OnSnapshot`: a snapshot's documents and the profile documents are parameters, not read from a store. Firestore's snapshot order is whatever order the documents arrive in.
- In `useFavoriteDrivers`, each user's `favoriteDrivers` subcollection is modelled as one collection of favorites tagged with the user id.
- The React effect lifecycle is not modelled: unsubscribing, re-running on a new `userId`, the timing of state updates, and the interleaving of the `await`s inside the loop. The `&& db` test inside the callback always holds there, because the effect returns early without a database.
- `console.log`/`console.error`, and the parts of `NextResponse` other than the status and the body fields.
- The login form, the root layout and the available-rides page are UI rendering and library-defined form validation, with no logic of their own to verify.

## Findings

| source | as written | input that shows it | evidently intended | confidence | as-written member | corrected member |
|---|---|---|---|---|---|---|
| src/hooks/useFavoriteDrivers.ts:53 | `customId` is declared with `var` inside the loop, so it is scoped to the whole callback and keeps the value set by the last document whose profile was used | favorite `alice` with no display fields (profile `customId` DR001), then favorite `bob` with all display fields stored (profile `customId` DR002): bob's record carries DR001 | each record carries its own driver's custom id, or none when that profile was not read | medium; not executed | `FavoriteDrivers.CustomIdLeakExample` | `FavoriteDrivers.PerDocumentRecords` |

The hook's loop (`FavoriteDrivers.BuildFavorites`) keeps the behaviour as written, so that the model of the hook matches the code. `FavoriteDrivers.PerDocumentRecords` is the corrected definition. `FavoriteDrivers.PerDocumentCustomId` proves its intended property. `FavoriteDrivers.CorrectionOnlyChangesCustomId` proves that the correction changes nothing else.
