# Paste app core, modelled in Dafny

This project models NoteSaverApp, a small paste/note sharing app, and proves properties of the model. It has three parts:

- **The REST paste service** (`backend/routes/pastes.js`). The paste collection is a map from id to document, held by a `PasteStore` object. Its `nextId` counter is the source of fresh ids and its `clock` field is the server clock. Its invariant also says that every stored title and content is non-empty, as the `notEmpty()` validators of create and update guarantee. Each route handler is a method that returns `Ok(..)` or one of `ValidationError(fields)`, `NotFound`, `Forbidden`. The caller's id is an input: the bearer-token guard (`router.use(protect)`, line 9) is not part of this model, and every route, `GET /public/all` included, sits behind it.
- **The client** (`frontend/src/...`). The Redux paste cache is a `PasteState` class with `pastes`, `loading` and `error` fields. The create/edit form is a `HomeState` class; its submit trims the fields with ECMAScript's `String.prototype.trim` (ECMA-262, TrimString). The list page's preview, view selection and dispatches are functions.
- **The earlier local-only prototype** (`src/...`). It has its own paste slice (append, replace at the first index, splice out the first match), an auth slice whose invariant is `isAuthenticated <==> token != null`, a form that makes ids from `Date.now().toString(36)`, and a case-insensitive title search.

Modules, one per file: `Wrappers` (Option), `Subsequence`, `IdLists` (the generic `findIndex` / replace / `filter` / `splice` operations both slices share), `EcmaTrim`, `Base36`, `PasteRoutes`, `PasteSlice`, `HomeForm`, `PasteListView`, `LocalPasteSlice`, `AuthSlice`, `LocalHome`, `LocalPasteView`.

The model follows the code in these places:
- `GET /public/all` is marked "Public (no auth required)" in its own comment (`backend/routes/pastes.js:177`), but `router.use(protect)` at line 9 mounts the guard on every route, this one included.
- The 401 status of the ownership checks is modelled as `Forbidden`.
- `notEmpty()` accepts whitespace-only titles and content. Only the client trims.
- No `updatedAt` field is modelled: the document schema is not part of this model.

## Model

| member | source | states |
|---|---|---|
| PasteRoutes.Missing | backend/routes/pastes.js:16-26 | The validation failure lists `Title` exactly when the title is empty and `Content` exactly when the content is empty, in validator order. It is empty exactly when both fields are non-empty. |
| PasteRoutes.IsOwner | backend/routes/pastes.js:122 | The owner test of the update and delete routes (also lines 80 and 157): the paste's `user` is the caller. |
| PasteRoutes.CanRead | backend/routes/pastes.js:80 | The read gate of `GET /:id`. The owner can always read. A private paste can be read by its owner and nobody else. |
| PasteRoutes.Matches | backend/routes/pastes.js:53 | The filters `{ user }` (line 53) and `{ isPublic: true }` (line 180). Every document a filter matches is one its reader may open: the caller owns it, or anyone can read it. |
| PasteRoutes.Find | backend/routes/pastes.js:53 | `find(filter)` returns exactly the stored documents that match the filter (caller's id, or `isPublic: true`), each once, in increasing id order. |
| PasteRoutes.Insert | backend/routes/pastes.js:53-55 | Insertion adds exactly one copy of the entry (multiset) and nothing else. |
| PasteRoutes.InsertSorted | backend/routes/pastes.js:53-55 | Inserting into a newest-first sequence keeps it newest first. |
| PasteRoutes.InsertDistinct | backend/routes/pastes.js:53-55 | Inserting an entry with a new id keeps ids distinct. |
| PasteRoutes.SortNewest | backend/routes/pastes.js:53-55 | `.sort({ createdAt: -1 })` returns a permutation (same multiset) ordered by `createdAt`, newest first. |
| PasteRoutes.SortNewestDistinct | backend/routes/pastes.js:182 | Sorting keeps ids distinct. |
| PasteRoutes.Limit | backend/routes/pastes.js:183 | `.limit(n)` returns the prefix of length min(n, size). |
| PasteRoutes.Populate | backend/routes/pastes.js:181 | `.populate("user", "username")` keeps the document and attaches the owner's username when that user exists, and null otherwise. |
| PasteRoutes.PopulateAll | backend/routes/pastes.js:181 | Populating a list keeps its length and populates each entry in place. |
| PasteRoutes.LimitKeepsNewest | backend/routes/pastes.js:182-183 | Cutting a newest-first list short only drops entries that are no newer than the last one kept, and the cut list is then full. |
| PasteRoutes.PublicFeed | backend/routes/pastes.js:180-183 | The public feed has at most 20 entries. |
| PasteRoutes.PublicFeedFromStore | backend/routes/pastes.js:180-181 | Every feed entry is a stored document with `isPublic = true`, with its owner's name resolved. |
| PasteRoutes.PublicFeedOrdered | backend/routes/pastes.js:182 | The feed is newest first and lists no document twice. |
| PasteRoutes.PublicFeedNewest | backend/routes/pastes.js:182-183 | A public document missing from the feed is no newer than the feed's last entry, and the feed then holds 20 entries. |
| PasteRoutes.PasteStore.constructor | backend/routes/pastes.js:3 | The `Paste` collection the routes use starts empty, with the clock at the given time, and the store invariant holds. |
| PasteRoutes.PasteStore.Advance | backend/routes/pastes.js:30-35 | The server clock that stamps `createdAt` on `Paste.create` only moves forward, by exactly the elapsed time, and the store invariant is kept. |
| PasteRoutes.PasteStore.Create | backend/routes/pastes.js:20-40 | An empty title or content gives `ValidationError` and changes nothing. Otherwise a new document gets a fresh id, the caller as owner, `isPublic` defaulting to false and the current time. No other document changes. |
| PasteRoutes.PasteStore.ListMine | backend/routes/pastes.js:51-61 | Returns every document the caller owns and no other, newest first, each once, with `count` equal to the list's length. |
| PasteRoutes.PasteStore.Get | backend/routes/pastes.js:71-89 | `NotFound` exactly when the id is absent. `Forbidden` exactly when the caller is neither the owner nor is the paste public. Otherwise the stored document. |
| PasteRoutes.PasteStore.Update | backend/routes/pastes.js:99-137 | Checks run in order: validation, then `NotFound`, then `Forbidden` for a non-owner. Every failure leaves the collection unchanged. Success replaces only title, content and `isPublic` of that document, keeping owner and `createdAt`, and no other document changes. |
| PasteRoutes.PasteStore.Delete | backend/routes/pastes.js:148-168 | `NotFound` exactly when the id is absent, and `Forbidden` exactly for a non-owner, both leaving the collection unchanged. Success removes exactly that id. |
| PasteRoutes.PasteStore.ListPublic | backend/routes/pastes.js:178-189 | At most 20 public documents with usernames, newest first, each once, `count` equal to the length. No public document left out is newer than the oldest one listed. |
| PasteRoutes.CreateThenGet | backend/routes/pastes.js:28-40 | Create followed by a Get from the same caller returns exactly the stored document: title, content, owner, and `isPublic` false unless the body set it. |
| PasteRoutes.DeleteThenGet | backend/routes/pastes.js:150-167 | After a successful delete, a Get by anyone returns `NotFound`. |
| PasteRoutes.ShareScenario | backend/routes/pastes.js:71-137 | Another user is refused a private paste (`Forbidden`). After the owner updates it to public, that user reads it with the new fields. The paste keeps its original creation time, even though the clock has moved on. |
| IdLists.FindIndex | frontend/src/redux/pasteSlice.js:170-172 | `findIndex` by `_id` returns the first index with that id, or -1 exactly when no element has it. |
| IdLists.ReplaceFirst | src/redux/pasteSlice.js:21-23 | Length is kept. Only the first element with the payload's id becomes the payload. With no match the list is unchanged. |
| IdLists.RemoveAll | frontend/src/redux/pasteSlice.js:190-192 | `filter(p => p._id !== id)` keeps exactly the elements whose id differs, as an order-preserving subsequence. |
| IdLists.RemoveAllSpec | frontend/src/redux/pasteSlice.js:190-192 | After the filter no element has the id, the length falls by the number of matches, and filtering again changes nothing. |
| IdLists.RemoveFirst | src/redux/pasteSlice.js:36-39 | `splice(findIndex(..), 1)` drops the element at the first matching index and no other. With no match the list is unchanged. |
| IdLists.RemoveFirstSpec | src/redux/pasteSlice.js:36-39 | With a match the length falls by exactly one and the number of elements with that id by exactly one, so later duplicates survive. |
| IdLists.RemoveFirstIsNotRemoveAll | src/redux/pasteSlice.js:35-43 | With two or more matches, the prototype's remove-first and the client's remove-all give different lists. |
| PasteSlice.Prepend | frontend/src/redux/pasteSlice.js:153-156 | `unshift` puts the payload at index 0 and shifts the old elements right by one, in order. The length grows by one. |
| PasteSlice.ReplaceById | frontend/src/redux/pasteSlice.js:168-175 | Length is kept. Only the first element with the payload's `_id` becomes the payload. With no match the list is unchanged. |
| PasteSlice.WithoutId | frontend/src/redux/pasteSlice.js:188-193 | Keeps exactly the pastes whose `_id` differs. None with that id remains, and the length falls by the number of matches. |
| PasteSlice.WithoutIdIdempotent | frontend/src/redux/pasteSlice.js:190-192 | Deleting the same id twice equals deleting it once. The result keeps the relative order of the rest. |
| PasteSlice.PasteState.constructor | frontend/src/redux/pasteSlice.js:112-116 | Initial state: empty list, not loading, no error. |
| PasteSlice.PasteState.IsInitial | frontend/src/redux/pasteSlice.js:112-116 | `initialState`: no pastes, not loading, no error. The constructor and `resetPastes` establish it. |
| PasteSlice.PasteState.ClearError | frontend/src/redux/pasteSlice.js:122-124 | `clearError` clears the error and changes nothing else. |
| PasteSlice.PasteState.ResetPastes | frontend/src/redux/pasteSlice.js:125-129 | `resetPastes` restores the initial state. |
| PasteSlice.PasteState.Pending | frontend/src/redux/pasteSlice.js:134-137 | Every `pending` case (fetch 134-137, create 149-152, update 164-167, delete 184-187) sets loading, clears the error and leaves the list unchanged. |
| PasteSlice.PasteState.Rejected | frontend/src/redux/pasteSlice.js:143-147 | Every `rejected` case (fetch 143-147, create 158-162, update 178-182, delete 195-199) stops loading, sets the error to the payload and leaves the list unchanged. |
| PasteSlice.PasteState.FetchFulfilled | frontend/src/redux/pasteSlice.js:138-142 | The list is replaced wholesale by the payload, and loading stops. |
| PasteSlice.PasteState.CreateFulfilled | frontend/src/redux/pasteSlice.js:153-157 | The created paste is prepended, and loading stops. |
| PasteSlice.PasteState.UpdateFulfilled | frontend/src/redux/pasteSlice.js:168-177 | The first paste with the payload's `_id` is replaced, and loading stops. |
| PasteSlice.PasteState.DeleteFulfilled | frontend/src/redux/pasteSlice.js:188-194 | Every paste with the payload id is removed, and loading stops. |
| PasteSlice.PasteState.FetchPastes | frontend/src/redux/pasteSlice.js:8-31 | A whole fetch run ends not loading. On success the list is the server's; on failure the list is unchanged and the message is the error. |
| PasteSlice.PasteState.CreatePaste | frontend/src/redux/pasteSlice.js:33-58 | A whole create run ends not loading. On success the paste is prepended; on failure the list is unchanged and the error is set. |
| PasteSlice.PasteState.UpdatePaste | frontend/src/redux/pasteSlice.js:60-85 | A whole update run ends not loading. On success the paste is replaced by id; on failure the list is unchanged and the error is set. |
| PasteSlice.PasteState.DeletePaste | frontend/src/redux/pasteSlice.js:87-110 | A whole delete run ends not loading. On success the fulfilled payload is the requested id and every paste with it goes; on failure the list is unchanged. |
| EcmaTrim.TrimStart | frontend/src/components/Home.jsx:39-40 | Removes the longest leading run of WhiteSpace/LineTerminator code points and nothing else. |
| EcmaTrim.TrimEnd | frontend/src/components/Home.jsx:39-40 | Removes the longest trailing run of WhiteSpace/LineTerminator code points and nothing else. |
| EcmaTrim.Trim | frontend/src/components/Home.jsx:34-40 | `s.trim()` is TrimEnd after TrimStart. TrimSpec, TrimEmptyIffBlank and TrimIdempotent state what it yields. |
| EcmaTrim.TrimSpec | frontend/src/components/Home.jsx:39-40 | `trim` returns a contiguous piece of the string that neither starts nor ends with a trimmable code point, and everything cut off is trimmable. |
| EcmaTrim.TrimEmptyIffBlank | frontend/src/components/Home.jsx:34 | `x.trim()` is empty exactly when every code point of `x` is trimmable. |
| EcmaTrim.TrimIdempotent | frontend/src/components/Home.jsx:39-40 | Trimming twice equals trimming once. |
| HomeForm.CanSubmit | frontend/src/components/Home.jsx:34 | The submit guard of `handleCreatePaste` passes when both trimmed fields are non-empty. CanSubmitIffNotBlank states it in terms of blank input. |
| HomeForm.CanSubmitIffNotBlank | frontend/src/components/Home.jsx:34 | The submit guard passes exactly when neither the title nor the content is blank. |
| HomeForm.MakePasteData | frontend/src/components/Home.jsx:38-42 | The payload holds the trimmed title and content, which are non-empty with nothing left to trim, and the current `isPublic`. |
| HomeForm.SubmitDisabled | frontend/src/components/Home.jsx:84 | The button is disabled exactly when loading or when the title or the content is blank, the same test as the submit guard. |
| HomeForm.HomeState.constructor | frontend/src/components/Home.jsx:7-11 | An empty, private form whose edit mode comes from the URL. |
| HomeForm.HomeState.Prefill | frontend/src/components/Home.jsx:17-31 | A signed-out user is sent to login. In edit mode the first cached paste with `pasteId` fills title, content and `isPublic`. With no such paste the form is unchanged. |
| HomeForm.HomeState.HandleCreatePaste | frontend/src/components/Home.jsx:33-54 | A blank field dispatches nothing and leaves the form unchanged. Otherwise: update with the truthy `pasteId`, else create, with the trimmed payload. The form is then cleared, made private, and the search params are dropped. |
| PasteListView.Preview | frontend/src/components/Paste.jsx:121-123 | The preview is at most 203 characters and starts with the first min(200, length) characters of the content. Short content is shown whole; longer content is cut and ends in "...". |
| PasteListView.PreviewUnchangedIff | frontend/src/components/Paste.jsx:121-123 | The preview equals the content exactly when the content has at most 200 characters, or has 203 characters ending in "...". |
| PasteListView.SelectView | frontend/src/components/Paste.jsx:33-79 | Fixed priority: signed out shows the login prompt, else loading shows the spinner, else an empty list shows the empty message, else the cards of the list. |
| PasteListView.OnMount | frontend/src/components/Paste.jsx:11-15 | `fetchPastes` is dispatched exactly when the user is signed in. |
| PasteListView.HandleDelete | frontend/src/components/Paste.jsx:17-21 | `deletePaste` is dispatched with the card's id exactly when the user confirms. |
| LocalPasteSlice.LocalPasteState.constructor | src/redux/pasteSlice.js:5-7 | The initial list is the stored list, or empty when nothing is stored. |
| LocalPasteSlice.LocalPasteState.AddToPaste | src/redux/pasteSlice.js:13-15 | The note is appended at the end. |
| LocalPasteSlice.LocalPasteState.UpdateToPastes | src/redux/pasteSlice.js:19-29 | The first note with the payload's `_id` is replaced. `found` is false exactly on the not-found branch, which leaves the list unchanged. |
| LocalPasteSlice.LocalPasteState.ResetAllPaste | src/redux/pasteSlice.js:31-32 | The list becomes empty. |
| LocalPasteSlice.LocalPasteState.RemoveFromPaste | src/redux/pasteSlice.js:35-43 | Only the first note with that `_id` is removed. The length and the count of that id each fall by exactly one when there is a match; with no match the list is unchanged. |
| AuthSlice.AuthState.constructor | src/redux/authSlice.js:4-12 | The stored token is used only when truthy, and `isAuthenticated` is the same truthiness test, so the invariant holds. |
| AuthSlice.AuthState.Start | src/redux/authSlice.js:18-21 | `loginStart`, and `registerStart` (36-39), set loading and clear the error. Nothing else changes, and the invariant is kept. |
| AuthSlice.AuthState.Success | src/redux/authSlice.js:22-30 | `loginSuccess`, and `registerSuccess` (40-48), set authenticated, stop loading, and take user and token from the payload. The invariant is kept. |
| AuthSlice.AuthState.Failure | src/redux/authSlice.js:31-35 | `loginFailure`, and `registerFailure` (49-53), stop loading and set the error. User, token and `isAuthenticated` are unchanged. |
| AuthSlice.AuthState.Logout | src/redux/authSlice.js:54-61 | User and token become null and `isAuthenticated` false. Loading and error are unchanged, and the invariant is kept. |
| AuthSlice.AuthState.ClearError | src/redux/authSlice.js:62-64 | Only the error is cleared. |
| Base36.ToBase36 | src/components/Home.jsx:28 | `n.toString(36)` is non-empty, uses only 0-9 and a-z, and has no leading zero. |
| Base36.FromToBase36 | src/components/Home.jsx:28 | Reading the base-36 rendering back gives the number. |
| Base36.ToFromBase36 | src/components/Home.jsx:28 | Every canonical base-36 string is the rendering of the number it denotes. |
| Base36.Injective | src/components/Home.jsx:28 | Distinct clock readings give distinct ids. |
| LocalHome.NoteIdFor | src/components/Home.jsx:28 | The id is `pasteId` or else `Date.now().toString(36)`: a truthy `pasteId` is kept. Otherwise the id is the canonical base-36 rendering of the clock. |
| LocalHome.LocalHomeState.constructor | src/components/Home.jsx:7-10 | The form starts with an empty title and content, and its edit mode is the `pasteId` search parameter. |
| LocalHome.LocalHomeState.Prefill | src/components/Home.jsx:14-22 | Outside edit mode nothing happens. Otherwise the first stored note with `pasteId` fills title and content. With none, the effect throws before changing the form. |
| LocalHome.LocalHomeState.CreatePaste | src/components/Home.jsx:24-42 | The fields are not checked. The note carries the edited or clock-made id and the current ISO time. Update is dispatched exactly in edit mode, else add. The form is cleared and the search params are dropped. |
| LocalHome.Dispatch | src/components/Home.jsx:32-37 | Add appends the note to the local slice; update replaces the first note with its id. |
| LocalHome.EditStoredNote | src/components/Home.jsx:25-37 | Editing a stored note replaces it in place with the new fields and the new time stamp, which overwrites the original `createdAt`. The length is kept. |
| LocalPasteView.FilteredData | src/components/Paste.jsx:13-15 | The filtered list is an order-preserving subsequence. A note is kept exactly when lower(title) includes lower(searchTerm), and every copy of a kept note stays: its count is the stored count, and 0 for a note the search drops. |
| LocalPasteView.Includes | src/components/Paste.jsx:14 | `hay.includes(needle)`: the needle occurs at some position. A prefix is always included, and an included needle is never longer than the haystack. |
| LocalPasteView.Keep | src/components/Paste.jsx:14 | The filter predicate on lower-cased title and search term. An empty lower-cased search keeps every note, and a kept note's lower-cased title is at least as long as the search. |
| LocalPasteView.EmptySearchKeepsAll | src/components/Paste.jsx:13-15 | An empty search keeps every note, given that lower("") is "". |
| LocalPasteView.HandleDelete | src/components/Paste.jsx:17-19 | `handleDelete(pasteId)` leaves the stored list as `removeFromPaste` makes it: the first note with that id is spliced out. When one exists, the length and that id's count each drop by one. |
| LocalPasteView.DeleteListed | src/components/Paste.jsx:17-19 | Deleting the i-th listed note removes the first stored note with that note's own id, and nothing else. The length and that id's count each drop by one. |

## Left out

- HTTP encoding, status codes and the JSON shape of responses. Outcomes are a result datatype; the 401 of the ownership checks is `Forbidden`.
- The `500 Server error` branches. Storage failures and Mongoose `CastError`s for malformed ids are not modelled; ids are natural numbers from a counter.
- The `protect` bearer-token middleware and the auth routes, which are not part of this model. The caller id is a trusted input.
- express-validator internals. `notEmpty()` is modelled as "non-empty string", and a field missing from the body counts as empty.
- PasteRoutes.PasteStore.Update: a body without `isPublic` is not modelled (the parameter is a boolean). The client always sends the field.
- PasteRoutes.PasteStore.ListPublic: which of several equally old public pastes fill the last places of the feed is left to the model's sort, because MongoDB leaves it open.
- `updatedAt` and other schema timestamps, and schema validators. The document model file is not part of this model.
- The network requests inside the async thunks. Each thunk run takes the server's answer as a `Response` parameter; toasts are not modelled.
- Local storage reads and writes. Stored values become constructor parameters, and the JSON parsing of the stored user and of the stored notes (`JSON.parse(localStorage.getItem('pastes'))`) is not modelled.
- React hooks, rendering, navigation, `navigator.clipboard` and `window.confirm`. The confirmation is a boolean parameter.
- `formatDate` and locale date formatting. `new Date().toISOString()` is a string parameter.
- `src/components/ViewPaste.jsx`: a single lookup by id, rendered into disabled inputs.
- Routing in `src/App.jsx` and store wiring in `frontend/src/store.js`.
- Concurrent requests and overlapping thunks: the last write wins in the source.
- String lengths: JavaScript counts UTF-16 code units, while the model counts Unicode scalar values. The two differ only for characters outside the Basic Multilingual Plane, for example in the 200-character preview.
- LocalPasteView.FilteredData: `toLowerCase` is an arbitrary total function on strings, a parameter; no Unicode case mapping is modelled.
