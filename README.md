# Medicine prescription and billing: a Dafny model

This project models the record-keeping policy of a small medicine-billing application. It
proves properties of that model.

The server keeps four tables: stores, medicines, billings (prescriptions) and users. Express
route handlers guard every change to them. The model holds the tables as maps from ids to
records:

- `Database.Db` is the value of the four maps.
- `Database.Database` is a class with the four maps as fields.

Each route handler is written twice:

- a pure function, such as `StoreRoutes.CreateStore`, that gives the status code and the new
  tables;
- a method, such as `StoreRoutes.HandleCreateStore`, that updates a `Database` in place and
  is proved to agree with that function.

Lemmas then state what the handlers preserve. `Database.Integrity` is the conjunction of:

- store names are unique;
- emails are unique;
- every record satisfies its schema;
- every medicine's store exists;
- every billing's medicine and store exist;
- a billing's store is its medicine's store.

Other lemmas state what the handlers do not preserve: the places where the code leaves one
of these invariants unchecked.

The client is a React application. Its pure helpers are functions: search filters, name
fallbacks, form guards and expiry classification. Its components' state is held in classes
whose methods model the event handlers:

- `ClientApp.ListState` models the shared lists in `App.tsx`, which are updated after each
  API call.
- `ClientApp.App` models the shell's token, loading and error state, and the choice of
  screen.
- The editor classes of the views model each view's form state and submit, edit, reset and
  delete handlers.

Some cross-lemmas connect the client to the server. For example:

- the user form sends no password when the field is empty, and the server's merge then
  keeps the stored one;
- typing `admin` in the login form takes the server's admin branch.

Conventions:

- The clock is an integer parameter `now` or `today`, in milliseconds.
- JWT signing and verification are the function parameters `sign: Payload -> string` and
  `verify: string -> Option<Payload>`.
- The id of a new record is a parameter `newId`.
- Any call into the database or the network is replaced by its outcome, given as a
  parameter.

Behaviour of the Mongoose library that the model assumes:

- `create` and `save` run setters (trim, lowercase) and then validators. A failed
  validation gives 500.
- `findByIdAndUpdate` runs setters but no validators.
- A unique-index clash gives 500. So does an insert under an id that is already taken.
- In an update, an id given as the empty string fails the ObjectId cast with 500. Fields
  left `undefined` are dropped from the update.
- Timestamps: on insert, `createdAt` and `updatedAt` are both `now`. On update,
  `updatedAt` becomes `now`.

Files, one module each:

| file | module | source |
|---|---|---|
| wrappers.dfy | Wrappers, Ids | Option and ids |
| text.dfy | Text | JavaScript `trim`, `toLowerCase`, `includes`, `replace` on strings |
| store_model.dfy, medicine_model.dfy, billing_model.dfy, user_model.dfy | StoreModel, MedicineModel, BillingModel, UserModel | server/src/models/*.ts |
| database.dfy | Database | the four collections and their invariants |
| middleware.dfy | Middleware | server/src/middleware/auth.ts |
| store_routes.dfy, medicine_routes.dfy, billing_routes.dfy, user_routes.dfy, auth_routes.dfy | StoreRoutes, MedicineRoutes, BillingRoutes, UserRoutes, AuthRoutes | server/src/routes/*.ts |
| seqs.dfy | Seqs | array `filter` and `map` as the client uses them |
| client_types.dfy | ClientTypes | client/src/types.ts, the populated records |
| client_app.dfy | ClientApp | client/src/App.tsx |
| client_billing.dfy, client_medicine.dfy, client_user.dfy, client_store.dfy, client_login.dfy | ClientBilling, ClientMedicine, ClientUser, ClientStore, ClientLogin | client/src/components/*.tsx |

Where the code and its documentation disagree, the model follows the code. Examples:

- Medicine creation never passes a batch number, so it always fails. See "## Findings".
- Billing routes have no authentication.
- Billing creation inserts the billing before it saves the medicine with one unit less. When that save fails, the answer is 500 and the billing stays.
- `server/src/index.ts` mounts only the store, medicine and billing routers. The user and auth routers are modelled as written.

## Model

| member | source | states |
|---|---|---|
| Text.TrimStart | server/src/routes/store.ts:69 | the result is a suffix of the input, everything dropped is white space, and it does not start with white space |
| Text.TrimEnd | server/src/routes/store.ts:69 | the result is a prefix, everything dropped is white space, and it does not end with white space |
| Text.Trim | server/src/models/Store.ts:14 | the result is the slice of the input left once white space is cut from both ends, and only white space is cut; it has no white space at either end |
| Text.TrimOfTrimmed | server/src/models/Billing.ts:28-37 | trimming a string with no white space at either end returns it unchanged |
| Text.TrimIdempotent | server/src/routes/billing.ts:153-154 | applying the trim setter to an already trimmed value changes nothing |
| Text.BlankIffAllSpace | server/src/routes/store.ts:69 | `name.trim() === ''` holds exactly when every character is white space |
| Text.ToLower | server/src/models/User.ts:16 | same length, each character lower-cased on its own |
| Text.ToLowerIdempotent | server/src/models/User.ts:16 | lower-casing twice is lower-casing once |
| Text.ToLowerConcat | server/src/routes/user.ts:27 | lower-casing distributes over concatenation |
| Text.LowerCharSpace | server/src/models/User.ts:13-16 | lower-casing neither creates nor removes white space |
| Text.TrimStartLower | server/src/models/User.ts:13-16 | removing leading white space commutes with lower-casing |
| Text.TrimEndLower | server/src/models/User.ts:13-16 | removing trailing white space commutes with lower-casing |
| Text.TrimLowerCommute | server/src/models/User.ts:13-16 | the order of the trim and lowercase setters does not matter |
| Text.IndexFrom | server/src/middleware/auth.ts:9 | the first occurrence of a pattern at or after a position, or none at all |
| Text.IndexOf | server/src/middleware/auth.ts:9 | `None` exactly when the pattern never occurs; otherwise its first occurrence |
| Text.IncludesEmpty | client/src/components/Store.tsx:35-37 | every string includes the empty string |
| Text.ReplaceFirst | server/src/middleware/auth.ts:9 | without an occurrence the string is unchanged; with one, the first occurrence, and only it, is replaced |
| Text.ReplacePrefix | server/src/middleware/auth.ts:9 | replacing a pattern that starts the string swaps just that prefix |
| Text.ReplaceWithItself | server/src/middleware/auth.ts:9 | replacing the pattern by itself gives back the string |
| Text.EmptySearchMatches | client/src/components/Store.tsx:35-37 | an empty search term matches every string |
| Text.SearchIgnoresCase | client/src/components/Store.tsx:35-37 | lower-casing either side does not change whether the search matches |
| Text.SearchFindsItself | client/src/components/Store.tsx:35-37 | a string is found by searching for itself |
| StoreModel.Build | server/src/models/Store.ts:9-19 | a store is created exactly when the name is not blank; it is valid, the name trimmed, both timestamps now |
| MedicineModel.Build | server/src/models/Medicine.ts:11-19 | a medicine is created exactly when name and store are given, stock is at least 0 and a batch number is present; it is valid and stamped now |
| BillingModel.TrimOpt | server/src/models/Billing.ts:38-42 | an optional field stays absent or present, and a present one is trimmed |
| BillingModel.Build | server/src/models/Billing.ts:12-45 | a billing is created exactly when both references, an allowed frequency and non-blank name and number are given; it is valid, with trimmed text and timestamps now |
| UserModel.CastRole | server/src/models/User.ts:22-27 | an absent type defaults to 'user'; a present type is accepted exactly when it is 'admin' or 'user', and keeps its text |
| UserModel.NormalizeEmailIdempotent | server/src/models/User.ts:11-17 | applying the email setters twice is applying them once |
| UserModel.NormalizeEmail | server/src/models/User.ts:15-16 | the stored email is lower-case, no longer than the input, and empty exactly when the input is blank |
| UserModel.Build | server/src/models/User.ts:10-34 | a user is created exactly when the normalized email and the password are non-empty and the type casts; it is valid, with its email normalized |
| UserModel.ProfileOf | server/src/routes/user.ts:10 | the listed user keeps id, email, role and store, and has no password |
| Database.Select | server/src/routes/store.ts:56 | a query keeps exactly the records that satisfy its filter, and nothing else |
| Database.IntegrityBoundsStock | server/src/models/Medicine.ts:15 | in tables whose records satisfy their schemas, no stock is negative |
| Database.Database.constructor | server/src/index.ts:41-43 | the database starts with four empty tables |
| Database.EmptyDbIntegrity | server/src/index.ts:41-43 | the empty database satisfies every invariant |
| Middleware.ExtractToken | server/src/middleware/auth.ts:9 | the token is absent exactly when the header is; a header without "Bearer " is passed through unchanged |
| Middleware.BearerHeaderYieldsToken | server/src/middleware/auth.ts:9 | "Bearer " followed by a token yields exactly that token |
| Middleware.Authenticate | server/src/middleware/auth.ts:8-23 | authentication succeeds exactly when the token is non-empty and verifies; the user is then the decoded payload |
| Middleware.IsAdmin | server/src/middleware/auth.ts:25-31 | `next` is called exactly when there is a user whose type is admin; otherwise the answer is 403 |
| Middleware.AdminGate | server/src/middleware/auth.ts:8-31 | the chain `auth, isAdmin`: it passes exactly for an authenticated admin, else answers 401 when not authenticated and 403 when not an admin |
| Middleware.AuthRequest.constructor | server/src/middleware/auth.ts:4-6 | a request starts with no user |
| Middleware.AuthRequest.Auth | server/src/middleware/auth.ts:8-23 | on success `req.user` is the decoded payload and `next` is called; on failure 401 and the user is untouched |
| Middleware.RunAdminChain | server/src/middleware/auth.ts:8-31 | running `auth` and then `isAdmin` on a fresh request gives the admin gate's answer |
| Middleware.RunAuth | server/src/middleware/auth.ts:8-23 | running `auth` on a fresh request gives the authentication result |
| Middleware.SignedTokenAuthenticates | server/src/middleware/auth.ts:9-17 | a bearer header carrying a signed payload authenticates as that payload |
| Middleware.SignedTokenAdminGate | server/src/middleware/auth.ts:25-31 | a signed payload passes the admin gate exactly when its role is admin, and otherwise gets 403 |
| StoreRoutes.ListStores | server/src/routes/store.ts:10-26 | 401 without authentication; an admin sees every store, anyone else exactly the store named in the token |
| StoreRoutes.GetStore | server/src/routes/store.ts:29-43 | 200 with the store exactly when it exists, else 404 |
| StoreRoutes.NameMissing | server/src/routes/store.ts:69 | a name is missing exactly when it is absent or made only of white space |
| StoreRoutes.MedicinesOfStore | server/src/routes/store.ts:46-62 | 404 for an unknown store, else exactly the medicines of that store |
| StoreRoutes.CreateStore | server/src/routes/store.ts:65-87 | the admin gate, then 400 for a blank name, then 400 for a name already taken after trimming; 201 inserts the trimmed name; otherwise nothing changes |
| StoreRoutes.UpdateStore | server/src/routes/store.ts:90-124 | the admin gate, 400 for a blank name and for a name held by a different store, 404 for an unknown id; 200 changes only that store's name and update time |
| StoreRoutes.DeleteStore | server/src/routes/store.ts:127-160 | the admin gate, 400 while medicines or billings reference the store, then 404; 200 removes only that store |
| StoreRoutes.HandleListStores | server/src/routes/store.ts:10-26 | the handler answers what `ListStores` specifies and changes nothing |
| StoreRoutes.HandleCreateStore | server/src/routes/store.ts:65-87 | the handler returns the status and leaves the tables `CreateStore` specifies |
| StoreRoutes.HandleUpdateStore | server/src/routes/store.ts:90-124 | the handler returns the status and leaves the tables `UpdateStore` specifies |
| StoreRoutes.HandleDeleteStore | server/src/routes/store.ts:127-160 | the handler returns the status and leaves the tables `DeleteStore` specifies |
| StoreRoutes.CreateStorePreservesIntegrity | server/src/routes/store.ts:74-80 | creating a store preserves every invariant, unique names included |
| StoreRoutes.UpdateStorePreservesIntegrity | server/src/routes/store.ts:100-113 | renaming a store preserves every invariant, unique names included |
| StoreRoutes.SavedStoreKeepsIntegrity | server/src/models/Store.ts:11-15 | writing a valid store whose name no other store holds, under a new or an existing id, keeps every invariant |
| StoreRoutes.DeleteStorePreservesIntegrity | server/src/routes/store.ts:132-149 | the deletion guards keep every medicine and billing pointing at an existing store |
| StoreRoutes.RenameToOwnNameSucceeds | server/src/routes/store.ts:100-103 | renaming a store to its own name is not a clash and succeeds |
| StoreRoutes.DeleteStoreOrphansUsers | server/src/routes/store.ts:127-160 | after a successful delete, users still point at existing stores exactly when none pointed at the deleted one |
| StoreRoutes.CreateAndUpdateStoreKeepUserStores | server/src/routes/store.ts:65-124 | creating or renaming a store never breaks a user's store reference |
| MedicineRoutes.ListMedicines | server/src/routes/medicine.ts:9-24 | 401 without authentication; an admin sees every medicine, anyone else exactly those of the store named in the token |
| MedicineRoutes.MedicinesByStore | server/src/routes/medicine.ts:27-43 | 404 for an unknown store, else exactly the medicines of that store |
| MedicineRoutes.GetMedicine | server/src/routes/medicine.ts:46-60 | 200 with the medicine exactly when it exists, else 404 |
| MedicineRoutes.FieldsMissing | server/src/routes/medicine.ts:68 | a present stock of 0 is not missing, unlike an empty name or store id; a body with nothing missing has a name, a store id and a stock |
| MedicineRoutes.CreateChecks | server/src/routes/medicine.ts:68-94 | the checks pass exactly when all fields are present, stock is at least 0, the store exists and the date is valid and not in the past; the first failure chooses 400 or 404 in source order |
| MedicineRoutes.CreateMedicineWith | server/src/routes/medicine.ts:63-110 | POST given the batch number it hands to the insert: the gate, the checks, then 201 exactly when the schema accepts the record under a fresh id |
| MedicineRoutes.CreateMedicine | server/src/routes/medicine.ts:96-101 | as written, POST never inserts; once the gate and checks pass it answers 500 |
| MedicineRoutes.CreateMedicineCorrected | server/src/routes/medicine.ts:63-110 | with the batch number passed on, POST succeeds exactly when the gate, the checks and the schema pass, and stores that batch number |
| MedicineRoutes.UpdateChecks | server/src/routes/medicine.ts:119-142 | PUT's checks pass exactly when a given stock is at least 0, a truthy store exists and a truthy date is valid and not past |
| MedicineRoutes.ApplyMedicineUpdate | server/src/routes/medicine.ts:144-148 | only the supplied fields change (the name trimmed); batch number and creation time are kept |
| MedicineRoutes.UpdateMedicine | server/src/routes/medicine.ts:113-165 | the gate, the checks, 404 for an unknown id; 200 changes only that medicine, as `ApplyMedicineUpdate` says |
| MedicineRoutes.PatchStock | server/src/routes/medicine.ts:168-192 | the gate, 400 for a missing or negative stock, 404 for an unknown id; 200 sets only the stock |
| MedicineRoutes.DeleteMedicine | server/src/routes/medicine.ts:195-219 | the gate, 400 while billings reference the medicine (before the existence check), then 404; 200 removes only that medicine |
| MedicineRoutes.HandleListMedicines | server/src/routes/medicine.ts:9-24 | the handler answers what `ListMedicines` specifies |
| MedicineRoutes.HandleCreateMedicineWith | server/src/routes/medicine.ts:63-110 | the handler returns the status and leaves the tables `CreateMedicineWith` specifies |
| MedicineRoutes.HandleCreateMedicine | server/src/routes/medicine.ts:63-110 | the handler as written agrees with `CreateMedicine` |
| MedicineRoutes.HandleUpdateMedicine | server/src/routes/medicine.ts:113-165 | the handler returns the status and leaves the tables `UpdateMedicine` specifies |
| MedicineRoutes.BuildMedicineUpdate | server/src/routes/medicine.ts:144-148 | building `updateData` field by field gives `ApplyMedicineUpdate` |
| MedicineRoutes.HandlePatchStock | server/src/routes/medicine.ts:168-192 | the handler returns the status and leaves the tables `PatchStock` specifies |
| MedicineRoutes.HandleDeleteMedicine | server/src/routes/medicine.ts:195-219 | the handler returns the status and leaves the tables `DeleteMedicine` specifies |
| MedicineRoutes.BatchNumberOmission | server/src/routes/medicine.ts:96-101 | a request that passes every check gets 500 as written and 201 once the batch number is passed on |
| MedicineRoutes.CreateMedicineCorrectedPreservesIntegrity | server/src/routes/medicine.ts:80-101 | the corrected insert preserves every invariant |
| MedicineRoutes.InsertedMedicineKeepsIntegrity | server/src/routes/medicine.ts:80-101 | inserting a valid medicine of an existing store under a fresh id keeps every invariant |
| MedicineRoutes.PatchStockPreservesIntegrity | server/src/routes/medicine.ts:173-181 | setting the stock preserves every invariant, non-negative stock included |
| MedicineRoutes.DeleteMedicinePreservesIntegrity | server/src/routes/medicine.ts:200-208 | the billing guard keeps every billing pointing at an existing medicine |
| MedicineRoutes.UpdateMedicineMayMoveStore | server/src/routes/medicine.ts:124-150 | moving a medicine to another store keeps billings' stores matching exactly when no billing references it |
| MedicineRoutes.UpdateMedicineMayStoreBlankName | server/src/routes/medicine.ts:145-150 | a blank name given to PUT is stored, and the record then breaks its schema |
| MedicineRoutes.UpdateMedicineInPlacePreservesIntegrity | server/src/routes/medicine.ts:113-165 | an update that keeps the store and does not blank the name preserves every invariant |
| BillingRoutes.ListBillings | server/src/routes/billing.ts:9-20 | every billing |
| BillingRoutes.BillingsOfStore | server/src/routes/billing.ts:23-43 | 404 for an unknown store, else exactly the billings of that store |
| BillingRoutes.BillingsOfMedicine | server/src/routes/billing.ts:46-66 | 404 for an unknown medicine, else exactly the billings of that medicine |
| BillingRoutes.GetBilling | server/src/routes/billing.ts:88-104 | 200 with the billing exactly when it exists, else 404 |
| BillingRoutes.FieldsMissing | server/src/routes/billing.ts:112 | a body with nothing missing has every id, the frequency, the name and the number non-empty; an empty name or number is missing |
| BillingRoutes.CreateChecks | server/src/routes/billing.ts:112-147 | in order: 400 for a missing field, 400 for a bad frequency, 404 for the medicine, 404 for the store, 400 when the medicine is in another store, 400 when out of stock; none exactly when all pass |
| BillingRoutes.Described | server/src/routes/billing.ts:155 | the description is kept, trimmed, exactly when it is truthy |
| BillingRoutes.NewBilling | server/src/routes/billing.ts:149-156 | the record to insert exists exactly when the schema accepts it; it carries the ids, the frequency and the trimmed texts |
| BillingRoutes.Dispensed | server/src/routes/billing.ts:159-160 | the medicine's stock goes down by exactly one and everything else but the update time is kept |
| BillingRoutes.CreateBilling | server/src/routes/billing.ts:107-171 | a failed check answers its status and changes nothing; after the checks, 201 exactly when the billing and the dispensed medicine pass their schemas and the id is fresh, else 500; 201 inserts one billing and lowers that one medicine's stock by one; a 500 from the stock save keeps the inserted billing; stores and users never change |
| BillingRoutes.InsertBilling | server/src/routes/billing.ts:149-160 | once the checks pass: 201 or 500; the billing is inserted first, so a failing stock save answers 500 with the billing kept and the stock untouched; 201 exactly when both schemas pass and the id is fresh, with both writes and nothing else |
| BillingRoutes.UpdateChecks | server/src/routes/billing.ts:180-210 | PUT's checks pass exactly when a truthy frequency is allowed, truthy ids exist and, when both are given, the medicine is in that store |
| BillingRoutes.ApplyBillingUpdate | server/src/routes/billing.ts:212-218 | only the supplied fields change, the texts trimmed; creation time is kept |
| BillingRoutes.UpdateBilling | server/src/routes/billing.ts:174-237 | the checks, 500 for an empty id, 404 for an unknown billing; 200 changes only that billing; medicines (stock included), stores and users never change |
| BillingRoutes.DeleteBilling | server/src/routes/billing.ts:240-257 | 404 for an unknown id; 200 removes exactly that billing and restores no stock |
| BillingRoutes.CheckCreateBilling | server/src/routes/billing.ts:112-147 | the guard chain run against the database gives `CreateChecks` |
| BillingRoutes.HandleCreateBilling | server/src/routes/billing.ts:107-171 | the handler returns the status and leaves the tables `CreateBilling` specifies |
| BillingRoutes.HandleInsertBilling | server/src/routes/billing.ts:149-160 | `Billing.create` and then `medicine.save()`, in that order, return the status and leave the tables `InsertBilling` specifies |
| BillingRoutes.InsertBillingDoc | server/src/routes/billing.ts:149-156 | `Billing.create` writes that one billing and nothing else |
| BillingRoutes.SaveMedicine | server/src/routes/billing.ts:159-160 | `medicine.save()` writes that one medicine and nothing else |
| BillingRoutes.BuildBillingUpdate | server/src/routes/billing.ts:212-218 | building `updateData` field by field gives `ApplyBillingUpdate` |
| BillingRoutes.HandleUpdateBilling | server/src/routes/billing.ts:174-237 | the handler returns the status and leaves the tables `UpdateBilling` specifies |
| BillingRoutes.HandleDeleteBilling | server/src/routes/billing.ts:240-257 | the handler returns the status and leaves the tables `DeleteBilling` specifies |
| BillingRoutes.CreateBillingDispensesOne | server/src/routes/billing.ts:145-160 | a successful create lowers the chosen medicine's stock by exactly one, leaves it non-negative and no other medicine changes |
| BillingRoutes.DispensedTables | server/src/routes/billing.ts:159-160 | after the two writes the medicine has one unit less and stays at least 0, other medicines are unchanged and exactly the new billing is added |
| BillingRoutes.CreateBillingSaveSucceeds | server/src/routes/billing.ts:145-160 | for whole-number stock, on tables that satisfy their schemas, the stock save never fails, so 201 follows from the checks and the schema alone |
| BillingRoutes.CreateBillingMayKeepBillingOnFailedSave | server/src/routes/billing.ts:149-160 | for a stored medicine with a blank name the checks pass, the answer is 500, the new billing is kept and no medicine changes |
| BillingRoutes.CreateBillingPreservesIntegrity | server/src/routes/billing.ts:107-171 | creating a billing preserves every invariant |
| BillingRoutes.InsertedBillingKeepsIntegrity | server/src/routes/billing.ts:149-160 | inserting a consistent billing and dispensing its medicine keeps every invariant |
| BillingRoutes.DeleteBillingPreservesIntegrity | server/src/routes/billing.ts:240-257 | deleting a billing preserves every invariant |
| BillingRoutes.UpdateBillingBothIdsKeepsStoresMatch | server/src/routes/billing.ts:203-210 | when both ids or neither are supplied, billings' stores still match their medicines' stores |
| BillingRoutes.UpdateBillingMedicineOnlyBreaksStoresMatch | server/src/routes/billing.ts:203 | a new medicine alone, in another store, is accepted and breaks the match |
| BillingRoutes.UpdateBillingStoreOnlyBreaksStoresMatch | server/src/routes/billing.ts:203 | a new store alone, not the medicine's, is accepted and breaks the match |
| BillingRoutes.UpdateBillingMayStoreEmptyFrequency | server/src/routes/billing.ts:180-215 | an empty frequency skips the check, is stored, and breaks the schema |
| UserRoutes.ListUsers | server/src/routes/user.ts:8-16 | the admin gate; then every user, each without the password |
| UserRoutes.FieldsMissing | server/src/routes/user.ts:23 | a body with nothing missing has a non-empty email, password, type and store id |
| UserRoutes.CreateUser | server/src/routes/user.ts:19-41 | the gate, 400 for a missing field, 400 when the lower-cased email is taken; 201 inserts one valid user; otherwise nothing changes |
| UserRoutes.MergeUser | server/src/routes/user.ts:53-56 | each field takes the new value when truthy and keeps the old one otherwise; only a type that does not cast fails |
| UserRoutes.Touched | server/src/routes/user.ts:58 | the save keeps the fields; it moves the update time only when something changed |
| UserRoutes.UpdateUser | server/src/routes/user.ts:44-66 | the gate, 404 for an unknown id, 500 for a failed cast, validation or email clash; 200 saves the merged user and nothing else |
| UserRoutes.DeleteUser | server/src/routes/user.ts:69-83 | the gate, 404 for an unknown id; 200 removes exactly that user |
| UserRoutes.HandleListUsers | server/src/routes/user.ts:8-16 | the handler answers what `ListUsers` specifies |
| UserRoutes.HandleCreateUser | server/src/routes/user.ts:19-41 | the handler returns the status and leaves the tables `CreateUser` specifies |
| UserRoutes.HandleUpdateUser | server/src/routes/user.ts:44-66 | overwriting the loaded user's fields and saving leaves the tables `UpdateUser` specifies |
| UserRoutes.HandleDeleteUser | server/src/routes/user.ts:69-83 | the handler returns the status and leaves the tables `DeleteUser` specifies |
| UserRoutes.CreateUserPreservesIntegrity | server/src/routes/user.ts:27-33 | creating a user preserves every invariant, unique emails included |
| UserRoutes.UpdateUserPreservesIntegrity | server/src/routes/user.ts:53-58 | updating a user preserves every invariant |
| UserRoutes.SavedUserKeepsIntegrity | server/src/routes/user.ts:58 | saving a valid user whose email no other user holds keeps every invariant |
| UserRoutes.UserWriteKeepsReferences | server/src/routes/user.ts:58 | a write that touches only users keeps the store, medicine and billing invariants |
| UserRoutes.SavedUserKeepsEmailsUnique | server/src/models/User.ts:12 | saving an email no other user holds keeps emails unique |
| UserRoutes.SavedUserKeepsDocsValid | server/src/models/User.ts:10-34 | saving a valid user keeps every record valid |
| UserRoutes.DeleteUserPreservesIntegrity | server/src/routes/user.ts:69-83 | deleting a user preserves every invariant and every user's store reference |
| UserRoutes.CreateUserMayReferenceMissingStore | server/src/routes/user.ts:23-33 | POST accepts a store id that does not exist, which breaks users' store references |
| UserRoutes.UpdateUserMayReferenceMissingStore | server/src/routes/user.ts:56-58 | PUT accepts a store id that does not exist, which breaks users' store references |
| UserRoutes.EmptyUpdateChangesNothing | server/src/routes/user.ts:53-58 | an update with no truthy field answers 200 and leaves the tables as they were |
| AuthRoutes.UserPayload | server/src/routes/auth.ts:44-50 | the token's claims carry the user's id, email, type and store |
| AuthRoutes.Login | server/src/routes/auth.ts:8-69 | 400 without email and username or without a password; the fixed admin account is signed without a lookup; 500 when only a username is given; 401 when no user matches; 200 with the signed claims of a matching user |
| AuthRoutes.UsernameWithoutEmailIsServerError | server/src/routes/auth.ts:12-41 | a username that is not the admin login, with a password and no email, gets 500 from `email.toLowerCase()` on undefined |
| AuthRoutes.LoginCorrected | server/src/routes/auth.ts:12-41 | with the missing email refused: 200, 400 or 401 only; 200 exactly for the admin login or a matching user |
| AuthRoutes.LoginCorrectedRefusesWith401 | server/src/routes/auth.ts:37-41 | the corrected login answers as written except that the missing-email 500 becomes 401 |
| AuthRoutes.Me | server/src/routes/auth.ts:72-100 | 401 unless the token verifies; the fixed admin profile for the admin id; otherwise the user's profile without the password, or 401 for an unknown user |
| AuthRoutes.AdminLoginIgnoresUsers | server/src/routes/auth.ts:15-34 | the admin login answers the same whatever the user table holds |
| AuthRoutes.LoginFindsUser | server/src/routes/auth.ts:37-62 | with unique emails, a matching user logs in with exactly their own claims |
| AuthRoutes.LoginThenMe | server/src/routes/auth.ts:8-100 | the token a successful login returns makes `/me` answer 200 with the same user |
| AuthRoutes.MeWithoutHeader | server/src/routes/auth.ts:74-78 | without an Authorization header `/me` answers 401 |
| Seqs.Filter | client/src/App.tsx:101 | `filter` keeps exactly the elements that satisfy the predicate |
| Seqs.FilterConcat | client/src/App.tsx:101 | filtering distributes over concatenation |
| Seqs.FilterAll | client/src/App.tsx:101 | when every element satisfies the predicate, filtering keeps the whole list in order |
| Seqs.FilterIdempotent | client/src/components/Store.tsx:35-37 | filtering twice is filtering once |
| Seqs.Replaced | client/src/App.tsx:89-91 | the same length; each element with the id becomes the new record and every other stays in place |
| Seqs.ReplacedAbsent | client/src/App.tsx:89-91 | updating an id not in the list leaves it unchanged |
| Seqs.ReplacedKeepsKeys | client/src/App.tsx:89-91 | replacing by the record's own id keeps the set of ids |
| Seqs.Removed | client/src/App.tsx:101 | exactly the elements with another id remain, and the id is gone |
| Seqs.RemoveAppended | client/src/App.tsx:76-106 | deleting a record just appended under a new id gives back the list before the create |
| ClientTypes.StoreName | client/src/components/Billing.tsx:48-50 | the store's name, or 'Unknown Store' when it is empty; never empty |
| ClientApp.ListState.constructor | client/src/App.tsx:23-25 | a list starts empty |
| ClientApp.ListState.Create | client/src/App.tsx:76-85 | on success the returned record is appended; on failure the list is unchanged and the failure passed on |
| ClientApp.ListState.Update | client/src/App.tsx:86-97 | on success the elements with that id are replaced; on failure the list is unchanged and the failure passed on |
| ClientApp.ListState.Delete | client/src/App.tsx:98-106 | on success the elements with that id are removed; on failure the list is unchanged and the failure passed on |
| ClientApp.ViewFor | client/src/App.tsx:228-263 | each known tab shows its own view, and any other tab the stores view |
| ClientApp.App.constructor | client/src/App.tsx:17-26 | the token from storage, the stores tab, loading, no error, no current user and three empty lists |
| ClientApp.App.Screen | client/src/App.tsx:178-263 | the login form exactly without a token; the main view exactly with a token, not loading and no error, and it is the view for the active tab |
| ClientApp.App.LoadAllData | client/src/App.tsx:51-72 | the three lists on success, the fixed error message and unchanged lists on failure; loading ends either way |
| ClientApp.App.OnTokenChange | client/src/App.tsx:34-49 | with a token the user `/me` returns becomes the current user (a failed `/me` keeps the old one) and everything is loaded; without one the current user, the lists and the error are kept, loading ends and the login form shows |
| ClientApp.App.FetchUser | client/src/App.tsx:36-44 | `/me` succeeding sets the current user to what it returned; a failure leaves the current user unchanged |
| ClientApp.App.Logout | client/src/App.tsx:28-31 | the token is cleared, and the login form is shown |
| ClientBilling.MedicineName | client/src/components/Billing.tsx:52-54 | the medicine's name, or 'Unknown Medicine' when it is empty |
| ClientBilling.AvailableMedicines | client/src/components/Billing.tsx:57-60 | none without a chosen store, otherwise exactly the medicines of that store |
| ClientBilling.FilteredBillings | client/src/components/Billing.tsx:62-67 | a billing is kept exactly when the term occurs, ignoring case, in its name, number, medicine name or store name |
| ClientBilling.EmptySearchShowsAllBillings | client/src/components/Billing.tsx:62-67 | an empty search keeps the whole list in order |
| ClientBilling.FormOf | client/src/components/Billing.tsx:91-102 | the form takes the billing's ids, frequency, name and number, and its description or '' |
| ClientBilling.SubmitAllowed | client/src/components/Billing.tsx:71 | a form the guard lets through has a non-empty name and number |
| ClientBilling.BodyOf | client/src/components/Billing.tsx:77-81 | the body the server finds a field missing in is exactly the one with an empty id, frequency, name or number; the description is sent as typed |
| ClientBilling.SubmittedFormHasAllFields | client/src/components/Billing.tsx:71-73 | a form the guard accepts passes the server's missing-field check |
| ClientBilling.BillingEditor.constructor | client/src/components/Billing.tsx:36-46 | the form starts at its defaults (frequency 'morning') with nothing being edited |
| ClientBilling.BillingEditor.ResetForm | client/src/components/Billing.tsx:118-129 | the defaults come back, editing is cleared and the modal closed |
| ClientBilling.BillingEditor.HandleStoreChange | client/src/components/Billing.tsx:132-134 | the store is set, the medicine cleared and the other fields kept |
| ClientBilling.BillingEditor.HandleEdit | client/src/components/Billing.tsx:91-102 | the billing is being edited, the form filled from it and the modal opened |
| ClientBilling.BillingEditor.HandleDelete | client/src/components/Billing.tsx:104-116 | the billing leaves the list only when confirmed and the call succeeds |
| ClientBilling.BillingEditor.HandleSubmit | client/src/components/Billing.tsx:69-89 | a no-op when the guard fails; otherwise an update when editing, else a create, with the list reconciled and the form reset on success and kept on failure |
| ClientMedicine.DaysCeil | client/src/components/Medicine.tsx:51-52 | the number of days rounded up, bounded on both sides |
| ClientMedicine.ExpiringSoonWindow | client/src/components/Medicine.tsx:48-54 | expiring soon exactly when the expiry is after now and at most thirty days later |
| ClientMedicine.IsExpiringSoon | client/src/components/Medicine.tsx:48-54 | a medicine is expiring soon only when its expiry lies after now |
| ClientMedicine.IsExpired | client/src/components/Medicine.tsx:56-60 | an expired medicine is never also expiring soon |
| ClientMedicine.StatusOf | client/src/components/Medicine.tsx:215-227 | Expired exactly when the expiry is before now |
| ClientMedicine.GoodStatusWindow | client/src/components/Medicine.tsx:215-227 | Good exactly when the expiry is now or more than thirty days on; Expiring Soon exactly in the window between |
| ClientMedicine.StockBadge | client/src/components/Medicine.tsx:205-209 | red exactly at 10 or less, green exactly above 50, yellow between |
| ClientMedicine.StockBadgeMonotone | client/src/components/Medicine.tsx:205-209 | more stock never gives a more alarming badge |
| ClientMedicine.FilteredMedicines | client/src/components/Medicine.tsx:62-66 | a medicine is kept exactly when the term occurs, ignoring case, in its name, store name or batch number |
| ClientMedicine.EmptySearchShowsAllMedicines | client/src/components/Medicine.tsx:62-66 | an empty search keeps the whole list in order |
| ClientMedicine.FormOf | client/src/components/Medicine.tsx:90-100 | the form takes the medicine's fields, with the expiry formatted as a date |
| ClientMedicine.SubmitAllowed | client/src/components/Medicine.tsx:70 | a form the guard lets through has a name, a batch number and a stock of at least 0 |
| ClientMedicine.MedicineEditor.constructor | client/src/components/Medicine.tsx:33-42 | the form starts empty with stock 0 and nothing being edited |
| ClientMedicine.MedicineEditor.ResetForm | client/src/components/Medicine.tsx:116-120 | the empty form comes back, editing is cleared and the modal closed |
| ClientMedicine.MedicineEditor.HandleEdit | client/src/components/Medicine.tsx:90-100 | the medicine is being edited, the form filled from it and the modal opened |
| ClientMedicine.MedicineEditor.HandleDelete | client/src/components/Medicine.tsx:102-114 | the medicine leaves the list only when confirmed and the call succeeds |
| ClientMedicine.MedicineEditor.HandleSubmit | client/src/components/Medicine.tsx:68-88 | a no-op for a blank name or batch, an empty store or expiry, or negative stock; otherwise update or create, resetting on success only |
| ClientUser.FirstStoreIndex | client/src/components/User.tsx:40 | the position of the first store with the id; no earlier store has it |
| ClientUser.FindStore | client/src/components/User.tsx:40 | none exactly when no store has the id; otherwise the first store that has it |
| ClientUser.StoreNameOf | client/src/components/User.tsx:38-44 | an id is looked up among the stores, a populated store gives its own name, and a missing or unnamed one gives 'Unknown Store' |
| ClientUser.FilteredUsers | client/src/components/User.tsx:46-49 | a user is kept exactly when the term occurs, ignoring case, in the email or the store name |
| ClientUser.EmptySearchShowsAllUsers | client/src/components/User.tsx:46-49 | an empty search keeps the whole list in order |
| ClientUser.CreateBody | client/src/components/User.tsx:59-64 | the create body casts to the plain user role and carries the email, password and store as typed |
| ClientUser.UpdateBody | client/src/components/User.tsx:81-85 | the update body carries a truthy password exactly when one was typed, never a type, and the email and store as typed |
| ClientUser.CreateFormIncomplete | client/src/components/User.tsx:53 | a create form the guard lets through has a non-empty email, password and store |
| ClientUser.CreateBodyIsComplete | client/src/components/User.tsx:53-64 | a create the view lets through passes the server's missing-field check and makes a regular user |
| ClientUser.UpdateBodyKeepsPassword | client/src/components/User.tsx:81-85 | an update with an empty password keeps the stored one and the role, and sets the email and store |
| ClientUser.UserEditor.constructor | client/src/components/User.tsx:24-36 | the users fetched, or none and 'Failed to fetch users' |
| ClientUser.UserEditor.ResetForm | client/src/components/User.tsx:115-122 | every form field is cleared, editing and the error too, and the modal is closed |
| ClientUser.UserEditor.HandleCreateUser | client/src/components/User.tsx:51-71 | a blank field only sets the error; otherwise type 'user' is sent, the new user appended and the form reset, or the failure reported with the list kept |
| ClientUser.UserEditor.HandleUpdateUser | client/src/components/User.tsx:73-92 | without a user being edited, or with a blank field, only the error is set; otherwise the update is sent without an empty password and the user replaced, or the failure reported |
| ClientUser.UserEditor.HandleDeleteUser | client/src/components/User.tsx:94-103 | after confirmation the user is removed, or the failure reported |
| ClientUser.UserEditor.HandleEditClick | client/src/components/User.tsx:105-113 | the form takes the user's email and store id, the password is cleared and the modal opened |
| ClientStore.FilteredStores | client/src/components/Store.tsx:35-37 | a store is kept exactly when its name contains the term, ignoring case |
| ClientStore.EmptySearchShowsAllStores | client/src/components/Store.tsx:35-37 | an empty search keeps the whole list in order |
| ClientStore.StoreSearchIdempotent | client/src/components/Store.tsx:35-37 | searching the filtered list again with the same term changes nothing |
| ClientStore.SubmitAllowed | client/src/components/Store.tsx:41 | the guard lets a name through exactly when it has a character that is not white space |
| ClientStore.ShowAdminControls | client/src/components/Store.tsx:92 | without a current user no admin control shows |
| ClientStore.SubmitGuardMatchesServer | client/src/components/Store.tsx:41 | the client's guard accepts exactly the names the server does not reject as missing |
| ClientStore.ViewOfProfile | client/src/components/Store.tsx:92 | the current user as the view receives it: id, email and the text of the role |
| ClientStore.AdminControlsIffAdmin | client/src/components/Store.tsx:92-144 | the add, edit and delete controls show exactly for the admin role |
| ClientStore.StoreEditor.constructor | client/src/components/Store.tsx:30-32 | an empty name and nothing being edited |
| ClientStore.StoreEditor.ResetForm | client/src/components/Store.tsx:79-83 | the name and the editing state are cleared and the modal closed |
| ClientStore.StoreEditor.HandleEdit | client/src/components/Store.tsx:59-63 | the store is being edited, with its name in the form |
| ClientStore.StoreEditor.HandleDelete | client/src/components/Store.tsx:65-77 | the store leaves the list only when confirmed and the call succeeds |
| ClientStore.StoreEditor.HandleSubmit | client/src/components/Store.tsx:39-57 | a no-op for a blank name; otherwise update when editing, else create, sending the name untrimmed; the form is reset on success only |
| ClientLogin.CredentialsFor | client/src/components/Login.tsx:13-18 | the password is always sent; the username exactly when it is non-empty, else the email |
| ClientLogin.LoginForm.constructor | client/src/components/Login.tsx:5-8 | all fields start empty |
| ClientLogin.LoginForm.OnChange | client/src/components/Login.tsx:56-65 | exactly 'admin' sets the username and clears the email; anything else sets the email and clears the username; the input then shows what was typed |
| ClientLogin.LoginForm.OnPasswordChange | client/src/components/Login.tsx:76 | the password is what was typed |
| ClientLogin.LoginForm.Shown | client/src/components/Login.tsx:55 | the input shows the email when there is one, else the username, and is empty only when both are |
| ClientLogin.LoginForm.HandleLogin | client/src/components/Login.tsx:10-25 | it sends `CredentialsFor` the fields; keeps the token on success; sets 'Invalid credentials' on failure |
| ClientLogin.AdminInputLogsInAsAdmin | client/src/components/Login.tsx:13-18 | 'admin' with the fixed password takes the server's admin branch, whatever the users |
| ClientLogin.AdminInputWrongPasswordIsServerError | client/src/components/Login.tsx:13-18 | 'admin' with another password sends no email, and the server answers 500 rather than 401 |

## Left out

- Express wiring and CORS in `server/src/index.ts` are not modelled. It mounts only the store, medicine and billing routers (lines 26-28). The user and auth routers are modelled as written, as if they were mounted.
- The client's fetch wrappers (`client/src/services/api.ts`) are left out. Each API call is replaced by its outcome, given as an `ApiResult` parameter.
- JWT signing and verification are abstract functions. Token expiry (`expiresIn: '24h'`) and the secret are not modelled.
- Dates are not parsed. The server receives a date as `DateText`: falsy, unparsable, or an instant in milliseconds. The client keeps expiry dates as milliseconds. The date-input formatting in `handleEdit` is a parameter. Locale formatting is not modelled.
- Medicine and billing reads `populate` the referenced store and medicine. Listings are modelled as the maps of stored records, because the join adds no decision. The creation-time sort of billings is not modelled.
- The patient search (`GET /patient/:name`) is not modelled. It uses the name as a regular expression, and regular-expression semantics are out of scope.
- Query filters are taken literally. Mongoose's query casting also applies the schema's `trim` and `lowercase` setters to filter values; the model does not. So an email with white space around it behaves differently: POST /users with " a@b.com" when "a@b.com" exists answers 400 in the program and 500 in the model (the unique index), and a login with a padded but otherwise correct email answers 200 in the program and 401 in the model.
- For a caller that is not an admin, a token without a store id is modelled as matching no store or medicine. Mongoose's treatment of an `undefined` filter value is not modelled.
- ObjectId casting is not modelled beyond the empty id in updates. Ids are opaque strings. A malformed id in a lookup is treated as an id that is not found.
- Request bodies are modelled with the types the fields are meant to have. Other JSON types, `null`, and numbers sent as strings are not modelled.
- Lower-casing covers ASCII letters only. White space is the usual ASCII and Unicode space characters. Full Unicode case mapping is not modelled.
- The billing insert and the stock save of POST are two writes. The model orders them as the source does, so a failing save leaves the billing behind. A failure of the database itself between the two writes is not modelled.
- `UserModel.Profile` leaves out the timestamps that `select('-pwd')` still returns with a user. They decide nothing.
- BillingRoutes.CreateBillingSaveSucceeds: stock is a whole number in the model. The schema's stock is a `Number`, and PUT and PATCH accept a fractional stock such as 0.5. For such a medicine the billing checks pass, the billing is inserted, and the save of stock -0.5 fails `min: 0`, so the answer is 500 with the billing kept. The model does not reach this path.
- The client is modelled as if `client/src/services/api.ts` exported `userAPI` and `authAPI` and sent the token. As written it exports only `storeAPI`, `medicineAPI` and `billingAPI`, and no wrapper sends an `Authorization` header. So login, `/me` and the user list always fail in the client, and every route behind `auth` answers 401. The client's API outcomes are unconstrained parameters, so the model covers these failures, but the client-to-server lemmas (for example `ClientLogin.AdminInputLogsInAsAdmin`) describe the intended flow.
- Concurrent requests are not modelled. A handler runs against one snapshot of the tables.
- The client's JSX, styling, loading flags, `alert`, `confirm`, `console`, `localStorage` and reloading are not modelled. `confirm` is a boolean parameter. Storing the token is a field of the login form.
- The Header component (`client/src/components/Header.tsx`) and its tab switching are not modelled. The active tab is a field.
- ClientUser.UserEditor.HandleEditClick requires a user with a store. For a user without one, the source reads `_id` of `undefined` (the JSON has no `storeId` key) and throws.
- ClientApp.ListState: the React state setter is modelled as direct assignment. Updates are not batched and asynchronous interleavings are not modelled.
- ClientMedicine.StatusOf: its contract states only the Expired case. The other two cases are stated by ClientMedicine.GoodStatusWindow.
- The server answers 500 when reading a record or a list fails. The model treats those reads as always succeeding.

## Findings

| source | as written | input that shows it | evidently intended | confidence | as-written member | corrected member |
|---|---|---|---|---|---|---|
| server/src/routes/medicine.ts:96-101 | `Medicine.create` is called with name, store, expiry and stock, but not the batch number, which the schema requires (server/src/models/Medicine.ts:16) | an admin POST `{name: "Aspirin", storeId: <an existing store>, expirydate: <a future date>, stock: 5, batchNumber: "B1"}` passes every check and is answered 500 (see `MedicineRoutes.BatchNumberOmission`) | pass `batchNumber` from the body to the insert, so that a valid request answers 201 | not executed | MedicineRoutes.CreateMedicine | MedicineRoutes.CreateMedicineCorrected |
| server/src/routes/auth.ts:37 | after the admin check, `email.toLowerCase()` runs whether or not an email was sent | POST `{username: "admin", pwd: "wrong"}` (or any other username with a password and no email) is answered 500, not 401 (see `AuthRoutes.UsernameWithoutEmailIsServerError` and `ClientLogin.AdminInputWrongPasswordIsServerError`) | refuse credentials without an email with 401, as wrong credentials are | not executed | AuthRoutes.UsernameWithoutEmailIsServerError | AuthRoutes.LoginCorrected |
