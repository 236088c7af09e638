# NFT collection admin: client-side state and decisions

This project models the client-side core of an NFT marketplace front end's
collection administration, and proves properties of it:

- the **collection reducer**, the total transition function of the
  `{collections}` slice of the application state: wholesale replace
  (GET_COLLECTIONS), unconditional append (ADD_NEW_COLLECTION), in-place logo
  update of every entry with a given address (UPDATE_COLLECTION), identity on
  every other action type;
- the **collection action creators**: the success-gated dispatch of a fetched
  list, the ADD_NEW_COLLECTION payload, and the argument shaping of the
  `deployCollection` and `setLogoURI` contract calls; dispatch is an append to
  the store's action log followed by one reducer step (`CollectionActions.Store`);
- the **app shell**: the ADMIN/OWNER access predicate and its redirecting guard,
  the route table with its `*` fallback, the `accountsChanged` choice, and the
  record built from on-chain reads for each `CollectionAdded` event;
- the **dashboard collection screen** as a class whose fields are the form and
  modal state and whose methods are the handlers; everything a handler sends
  to the chain or the backend is appended to its `effects` log.

Chain and HTTP results are parameters of the handler that awaits them; the
ether-to-wei conversion is an uninterpreted function parameter `toWei` that
returns None for a price it refuses to convert (the library throws there).

Three behaviours of the code are worth stating outright. ADD_NEW_COLLECTION
appends without looking up the address, so an address already listed is
listed twice (`AddKeepsDuplicates`). UPDATE_COLLECTION updates every entry
whose address matches, not only the first (`UpdateSetsEveryMatch`). `save`
requires six inputs, the image URL among them (`AllFieldsPresent`).

Files: `types.dfy` (shared values), `collection_reducer.dfy` (module
`Reducer`), `collection_actions.dfy` (module `CollectionActions`),
`app_shell.dfy` (module `AppShell`), `dashboard_collection.dfy` (module
`DashboardCollection`).

## Model

| member | source | states |
|---|---|---|
| `Reducer.InitialState` | src/store/reducers/collection/index.js:8-10 | the initial state holds no collections |
| `Reducer.Reduce` | src/store/reducers/collection/index.js:12-33 | the transition function: GET_COLLECTIONS gives the payload's length, ADD_NEW_COLLECTION one entry more, UPDATE_COLLECTION the same length, and every other action type the state unchanged |
| `Reducer.ReduceAll` | src/store/reducers/collection/index.js:12-33 | the state the store makes of its log by running the reducer over it in order; a log with no GET_COLLECTIONS and no ADD_NEW_COLLECTION keeps the number of entries |
| `Reducer.UpdateLogos` | src/store/reducers/collection/index.js:22-29 | the list after an update has the same length as before |
| `Reducer.CollectionReducer` | src/store/reducers/collection/index.js:12-33 | the reducer, with its index loop over the list for UPDATE_COLLECTION, returns exactly the state the transition function `Reduce` gives |
| `Reducer.UpdateLogosAt` | src/store/reducers/collection/index.js:24-27 | at every index, an entry whose address matches gets the new logo and nothing else changes, and an entry whose address differs is unchanged |
| `Reducer.UpdateLogosFields` | src/store/reducers/collection/index.js:24-27 | field by field: only `logo_uri` can change, and it becomes the new URI exactly for matching addresses |
| `Reducer.UpdateSetsEveryMatch` | src/store/reducers/collection/index.js:24-27 | the length is kept, the set of matching positions is the same before and after, and every matching entry, not only the first, carries the new logo |
| `Reducer.UpdateAbsentIsNoOp` | src/store/reducers/collection/index.js:24-29 | an update for an address no entry has returns the state unchanged |
| `Reducer.UpdateIdempotent` | src/store/reducers/collection/index.js:24-29 | applying the same update twice gives the same state as applying it once |
| `Reducer.AddAppends` | src/store/reducers/collection/index.js:18-21 | an add makes the list one longer, keeps the old list as its prefix and puts the new record last |
| `Reducer.AddKeepsDuplicates` | src/store/reducers/collection/index.js:20 | the number of entries with the added record's address grows by one every time, so a record whose address is already listed ends up listed twice |
| `Reducer.CountPositive` | src/store/reducers/collection/index.js:20 | some entry has an address exactly when that address's count is positive |
| `Reducer.GetReplaces` | src/store/reducers/collection/index.js:14-17 | GET_COLLECTIONS yields exactly its payload, whatever the old state was |
| `Reducer.UnhandledIsIdentity` | src/store/reducers/collection/index.js:30-31 | GET_MINT_PRICE and every other unhandled action type leave the state unchanged |
| `Reducer.ReduceAllSnoc` | src/store/reducers/collection/index.js:12-33 | running a log extended by one action is one more reducer step on the state of the log |
| `Reducer.LastGetWins` | src/store/reducers/collection/index.js:14-21 | whatever actions came before, a log ending in GET_COLLECTIONS leaves exactly its payload, so an appended record not in the fetched list is gone after a re-fetch |
| `CollectionActions.Store.constructor` | src/store/reducers/collection/index.js:12 | the store starts in the reducer's initial state with an empty log |
| `CollectionActions.Store.Dispatch` | src/store/actions/collection/index.js:22-27 | dispatch appends the action to the log and moves the state on by one reducer step, keeping the state equal to the reducer run over the whole log |
| `CollectionActions.GetCollections` | src/store/actions/collection/index.js:19-30 | on a successful response exactly one GET_COLLECTIONS with payload `{collections: result}` is dispatched and the store then holds exactly `result`; otherwise nothing is dispatched and the state is unchanged |
| `CollectionActions.AddNewCollection` | src/store/actions/collection/index.js:32-39 | exactly one ADD_NEW_COLLECTION carrying the record unchanged is dispatched, and the store's list gains that record at its end |
| `CollectionActions.DeployCollection` | src/store/actions/collection/index.js:41-54 | nothing is sent exactly when the conversion refuses the mint price; otherwise the manager-contract call carries title, symbol, base URI, logo URI, max supply in that order and the mint price converted once, sent from `authAddress` |
| `CollectionActions.UpdateCollection` | src/store/actions/collection/index.js:56-66 | the call is `setLogoURI` on the contract at the collection's address with its logo URI, sent from `authAddress`, and nothing is dispatched |
| `AppShell.IsAdminOrOwner` | src/App.js:96-103 | true exactly for ADMIN and OWNER accounts, false for guests and users |
| `AppShell.ProtectedRoute` | src/App.js:105-111 | a replacing redirect to `/` exactly when the account is not admin or owner, the guarded screen exactly when it is |
| `AppShell.Routes` | src/App.js:118-147 | the route table in declaration order: each path with its screen, `/dashboard` and `/create-details` behind the guard, `/collection/:id` as a one-parameter pattern, and `*` last |
| `AppShell.GuardedRoutes` | src/App.js:124-144 | the only guarded entries of the table are those of `/dashboard` and `/create-details` |
| `AppShell.Matches` | src/App.js:119-146 | a fixed path matches only itself, `/collection/:id` matches its prefix followed by one non-empty segment without `/`, and `*` matches every path |
| `AppShell.Resolve` | src/App.js:105-147 | what a path renders for an account: an admin or owner is never redirected, and every redirect is the replacing one to `/` |
| `AppShell.FirstMatch` | src/App.js:118-147 | the route chosen is the first in table order whose pattern matches, and none is chosen only when no pattern matches |
| `AppShell.DashboardRoute` | src/App.js:124-132 | `/dashboard` shows the dashboard behind the guard |
| `AppShell.CreateDetailsRoute` | src/App.js:136-144 | `/create-details` shows the details screen behind the guard |
| `AppShell.CollectionPathRoute` | src/App.js:134 | `/collection/` followed by one segment shows the collection screen to every account |
| `AppShell.FallbackAt` | src/App.js:146 | a path outside the fixed routes and the collection pages is caught by the last, `*`, route |
| `AppShell.UnknownPathIsNotFound` | src/App.js:119-146 | such a path renders the not-found screen for every account |
| `AppShell.OnlyTwoPathsGuarded` | src/App.js:119-146 | a path redirects exactly when it is `/dashboard` or `/create-details` and the account is neither admin nor owner, and every redirect is the replacing one to `/` |
| `AppShell.AccountsChanged` | src/App.js:43-50 | the account check gets the first account when the list is non-empty and none exactly when it is empty |
| `AppShell.NewCollectionRecord` | src/App.js:81-90 | the record maps name to title, symbol, logoURI to logo, baseURI to base URI, the raw MINT_PRICE and MAX_SUPPLY, the event's address and the owner |
| `AppShell.ReadsSucceed` | src/App.js:73-79 | true exactly when each of the seven accessors the handler awaits (name, symbol, logoURI, MINT_PRICE, MAX_SUPPLY, baseURI, owner) reads successfully |
| `AppShell.RecordFromReads` | src/App.js:73-90 | every field of the record is the value of its accessor read, and the address is the event's |
| `AppShell.OnCollectionAdded` | src/App.js:66-93 | when all seven reads succeed exactly one ADD_NEW_COLLECTION with the record built from them is dispatched and the store's list ends with it; a failing read dispatches nothing |
| `DashboardCollection.IsImageMime` | src/screens/Dashboard/Collection/index.js:51 | `type.slice(0, 6) === "image/"` holds exactly when the type is at least six characters long and begins with `image/` |
| `DashboardCollection.CanUpload` | src/screens/Dashboard/Collection/index.js:51 | the drop is uploaded exactly when the list is non-empty and the first file's type has the prefix `image/` |
| `DashboardCollection.AllFieldsPresent` | src/screens/Dashboard/Collection/index.js:75 | `save` proceeds exactly when none of image URL, title, symbol, base URI, max supply and mint price is empty |
| `DashboardCollection.DeployCallOf` | src/screens/Dashboard/Collection/index.js:90-92 | nothing is sent exactly when the conversion refuses the mint price; otherwise the deployment carries title, symbol, base URI, image URL and max supply in that order and the mint price converted once, sent from `auth.address` |
| `DashboardCollection.SaveRecordOf` | src/screens/Dashboard/Collection/index.js:103-111 | the posted record copies title, symbol, base URI and max supply from the form, uses the image URL as initial logo, the unconverted mint price and the event's address |
| `DashboardCollection.SaveMatchesDeployAction` | src/screens/Dashboard/Collection/index.js:90-92 | when both send from the same account, the screen's inline deployment equals the `deployCollection` action creator's call on the draft |
| `DashboardCollection.DeployAndRecordAgree` | src/screens/Dashboard/Collection/index.js:90-111 | the chain call and the backend record describe the same draft; only the chain side gets the converted price |
| `DashboardCollection.CollectionForm.constructor` | src/screens/Dashboard/Collection/index.js:23-33 | both modals hidden, every text field empty except the base URI, which starts as the API URL followed by `/token/`; nothing sent |
| `DashboardCollection.CollectionForm.SetText` | src/screens/Dashboard/Collection/index.js:251-287 | each text input changes its own field and nothing else |
| `DashboardCollection.CollectionForm.OnDrop` | src/screens/Dashboard/Collection/index.js:49-65 | a refused drop changes and sends nothing; an accepted one uploads the first file, and only a successful upload sets the image URL and the file, a failed one leaves every field as it was |
| `DashboardCollection.CollectionForm.RemoveImage` | src/screens/Dashboard/Collection/index.js:67-71 | sends the removal of the current image, clears the image URL and the file, and changes nothing else |
| `DashboardCollection.CollectionForm.Save` | src/screens/Dashboard/Collection/index.js:73-99 | with any of the six inputs empty nothing changes and nothing is sent; with all present the add modal closes, and then exactly one deployment with the converted price is sent, or nothing at all when the conversion refuses the price |
| `DashboardCollection.CollectionForm.SaveCollection` | src/screens/Dashboard/Collection/index.js:101-123 | posts the record built from the form and the event's address, asks for the list again only on a truthy result, and changes no field |
| `DashboardCollection.CollectionForm.Cancel` | src/screens/Dashboard/Collection/index.js:125-132 | hides the add modal and clears id, image URL and title only; symbol, base URI, supply, price and file keep their values |
| `DashboardCollection.CollectionForm.Update` | src/screens/Dashboard/Collection/index.js:134-141 | opens the add modal with the row's id, image and title and changes nothing else |
| `DashboardCollection.CollectionForm.DeleteModal` | src/screens/Dashboard/Collection/index.js:143-147 | opens the delete modal with the row's image and id and changes nothing else |
| `DashboardCollection.CollectionForm.DeleteItem` | src/screens/Dashboard/Collection/index.js:149-161 | always sends the image removal and the delete; only a successful delete re-fetches, closes the delete modal and clears image URL and id, a failed one keeps every field |
| `DashboardCollection.CollectionForm.CancelDelete` | src/screens/Dashboard/Collection/index.js:163-166 | hides the delete modal and clears the id only |
| `DashboardCollection.CancelThenSave` | src/screens/Dashboard/Collection/index.js:73-132 | after a cancel, a save sends nothing, because cancel empties two required inputs |
| `DashboardCollection.RemoveImageThenSave` | src/screens/Dashboard/Collection/index.js:67-78 | after removing the image, a save sends nothing beyond the removal request |

## Left out

- Reducer.CollectionReducer: the UPDATE_COLLECTION case copies the state only shallowly and assigns `logo_uri` on entry objects it shares with the previous state, so in the program the previous state's entries change too; the model computes the new state as a value and does not capture that sharing.
- Wallet connection, contract objects and event subscriptions are not modelled. `save` registers a fresh `CollectionAdded` listener on every call and the shell registers one at mount; the model has one handler call per event (`OnCollectionAdded`, `SaveCollection`) and no listener registry.
- Chain calls are recorded, not executed: a wallet rejection or a failed transaction of the deployment `save` sends produces no state change in the program and none in the model; the transaction block timeout `save` sets is configuration.
- HTTP calls (image upload, image removal, collection save and delete, collection fetch) are abstract outcomes passed to the handler that awaits them, or requests appended to `effects`. Whatever the upload resolves to is stored as the image URL; in the program that is the HTTP response value.
- Each handler runs to completion in the model; interleaving of other handlers between an `await` and the setters after it is not modelled, and `saveCollection` reads the form's fields when it runs rather than the values its closure captured when `save` ran.
- The dashboard's re-fetch (Dashboard/Collection/index.js:42, :117, :153) calls `getCollections()` without a dispatch argument, so its `.then` calls an undefined `dispatch` and the fetched list never reaches the store; the model records the re-fetch request (`RefetchCollections`) and does not connect it to the store.
- The dashboard then dispatches the returned promise; whether that throws depends on the store's middleware, which is not part of this model. The model assumes dispatch returns normally: were it to throw, `deleteItem` would stop at that dispatch and skip the resets that `CollectionForm.DeleteItem` performs on success.
- The dashboard reads `collectionReducer.data` and its list renders `init_logo_uri`, while the reducer stores `collections` and writes `logo_uri`; rendering is not modelled, so neither mismatch shows up in it. If the root reducer registers this reducer as `collectionReducer`, the screen's `collections` is undefined and `collections.map` throws on the first render; the root reducer is not part of this model. The backend's collection records are taken to have the same fields as the record the shell builds.
- The dashboard sends from `auth.address`, the action creators from `auth.authAddress`; both are fields of `Auth`, and the auth reducer that fills them is not part of this model.
- The shell's record keeps the on-chain `MINT_PRICE` (wei) while the dashboard's record keeps the ether amount typed in; the model keeps both as they are.
- `toWei` is an uninterpreted parameter returning None where the conversion throws; which strings it accepts (decimal ether amounts) and the wei scale are not modelled. When it refuses, `save` has already closed the modal and then sends nothing and registers no listener; `deployCollection` rejects before sending.
- Rendering: JSX, toasts, the Dropzone (shown only while the image URL is empty), body-scroll locking, styles, the "Add" button that opens the modal, and the `isAddingCollection` state, which the Save button reads as `disabled` but nothing ever sets, so the button is never disabled.
- Routing beyond a path-to-screen table lookup: react-router's ranking, case-insensitive matching and trailing-slash tolerance. With this table, first match in declaration order picks the same route as ranking, since only `*` overlaps the others.
- The `chainChanged` reload and the login and account-type checks (`checkIfLoggedIn`, `checkAccountType`): `AccountsChanged` models only the argument handed to the check. The account constants are taken as GUEST, USER, ADMIN and OWNER; utils/constants is not part of this model.
- The unused `MINT_PRICE_STATE` constant of the reducer file, and the FAQ screen, which only renders the first article's HTML.
