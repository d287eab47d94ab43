# Shopping list store — a Dafny model

This project models the server side of a small shared shopping-list web
application. The state is one collection, `{ items: ShoppingItem[] }`. The
operations rewrite it:

- The item endpoint (`src/app/api/shopping-list/route.ts`) has GET, POST,
  PUT and DELETE handlers. POST, PUT and DELETE read the whole collection
  from a JSON file, change it in memory and write it all back. GET only
  reads it, and the 400 and 404 answers write nothing.
- The persistence gateway (`src/app/api/shopping-list/data-service.ts`)
  keeps an in-process copy of the collection. It mirrors that copy to one
  key of a Redis store only when a Redis URL is configured and the process
  runs in production mode.
- Two bulk endpoints (`clear/route.ts` and `clear-completed/route.ts`) load
  the collection through the gateway, empty it or drop the completed items,
  and save it.

Modules, one per source file, plus two shared ones:

- `ShoppingItems` (`items.dfy`): the `Item` record and `Option`. It also holds
  a stable `Filter` with its laws, and the decimal rendering of a clock
  reading that becomes an item id.
- `Http` (`http.dfy`): status codes, and response bodies of four shapes.
- `ListRoute` (`list_route.dfy`): the class `ListFile`. Its field `items` is
  the file's collection, and its methods are the four handlers. The pure
  functions that specify them are `NewItem`, `Merge`, `FindIndex` and
  `WithoutId`.
- `DataService` (`data_service.dfy`): the class `Gateway`. It has the
  in-process copy, the remote key's value, the lazily created client handle
  and the gate. The pure functions `Load` and `Save` specify `getData` and
  `saveData`.
- `ClearRoute`, `ClearCompletedRoute`: each handler is a method over a
  `Gateway`. A function gives each request's outcome (new state and answer).

Some things are parameters of the model, not hidden inputs:

- The clock (`Date.now()`, `toISOString()`).
- The environment variables (`REDIS_URL`, `NODE_ENV`, with an unset one read
  as the empty string).
- Whether a connection, a remote read or a remote write succeeds.

Behaviour worth knowing:

- An absent remote key makes `getData` answer an empty list, not the
  in-process copy (`data-service.ts:44`).
- PUT can overwrite any field, `createdAt` included. It cannot change `id`:
  the item it merges into was found by that same id (`PutKeepsIds`).
- The handlers in `route.ts` catch no errors. An exception escaping one of
  them ends the request before anything is written, and the web framework
  answers 500 on its own. The model has no such path for them (see
  "Left out"). Only the two clear routes turn errors into their own 500
  answer.
- A PUT body without an `id` matches no item, so it is answered with 404.
- The item endpoint's JSON file and the gateway are separate stores. The
  model keeps them apart too, as `ListFile` and `Gateway`. GET lists the
  file, while the two clear routes change only the gateway's copies, so a
  clear never changes what GET lists.

## Model

| member | source | states |
|---|---|---|
| `ShoppingItems.Filter` | src/app/api/shopping-list/route.ts:90 | the result keeps only elements satisfying the predicate, holds exactly the input's elements that satisfy it, and is never longer |
| `ShoppingItems.FilterAppend` | src/app/api/shopping-list/route.ts:90 | filtering never reorders: filtering `a + b` is filtering `a` then `b` |
| `ShoppingItems.FilterAllKept` | src/app/api/shopping-list/route.ts:90 | when every element passes, the filter changes nothing |
| `ShoppingItems.FilterShrinks` | src/app/api/shopping-list/route.ts:90 | when some element fails, the result is strictly shorter |
| `ShoppingItems.FilterIdempotent` | src/app/api/shopping-list/route.ts:90 | filtering twice equals filtering once |
| `ShoppingItems.DecimalString` | src/app/api/shopping-list/route.ts:48 | the id text of a clock reading is non-empty, all decimal digits, with no leading zero |
| `ShoppingItems.DecimalRoundTrip` | src/app/api/shopping-list/route.ts:48 | reading the id's digits back gives the clock reading |
| `ShoppingItems.DecimalStringInjective` | src/app/api/shopping-list/route.ts:48 | distinct clock readings give distinct id texts |
| `ListRoute.NewItem` | src/app/api/shopping-list/route.ts:47-54 | the new item has the clock id (non-empty), the body's name, `completed` false, the ISO time; quantity is the body's when present and non-zero, else 1; description the body's when present, else empty |
| `ListRoute.Merge` | src/app/api/shopping-list/route.ts:70 | `{...item, ...body}`: each field present in the body wins, each absent one keeps the item's value |
| `ListRoute.FindIndex` | src/app/api/shopping-list/route.ts:68 | answers -1 exactly when no item has the body's id, otherwise the first index whose item has it |
| `ListRoute.ListFile.constructor` | src/app/api/shopping-list/route.ts:16-18 | a missing file starts as an empty list; an existing one keeps its contents |
| `ListRoute.ListFile.Get` | src/app/api/shopping-list/route.ts:36-39 | answers 200 with the stored collection and changes nothing |
| `ListRoute.ListFile.Post` | src/app/api/shopping-list/route.ts:42-60 | the collection grows by exactly one item at the end, earlier items unchanged and in order; the answer is that last item |
| `ListRoute.ListFile.Put` | src/app/api/shopping-list/route.ts:63-76 | unknown id: 404, collection unchanged; known id: same length, the first matching item replaced by the merge, every other index unchanged, answer is the merged item |
| `ListRoute.ListFile.Delete` | src/app/api/shopping-list/route.ts:79-94 | missing or empty id: 400, collection unchanged; otherwise the collection becomes the items whose id differs, answer 200 with the confirmation |
| `ListRoute.PostIdsDiffer` | src/app/api/shopping-list/route.ts:48 | items posted at different clock readings get different ids |
| `ListRoute.MergeEmptyPatch` | src/app/api/shopping-list/route.ts:70 | a body holding only the matched id leaves the item as it is |
| `ListRoute.MergeIdempotent` | src/app/api/shopping-list/route.ts:70 | applying the same PUT body twice equals applying it once |
| `ListRoute.MergeCombine` | src/app/api/shopping-list/route.ts:70 | two successive PUTs equal one PUT with the combined body, later fields winning |
| `ListRoute.ToggleChangesOnlyCompleted` | src/app/api/shopping-list/route.ts:68-72 | a body of only the id and `completed` changes `completed` and no other field |
| `ListRoute.PutKeepsIds` | src/app/api/shopping-list/route.ts:68-72 | a successful PUT leaves the sequence of ids unchanged |
| `ListRoute.DeleteRemovesExactly` | src/app/api/shopping-list/route.ts:90 | what remains is exactly the items whose id differs; no item with the id is left |
| `ListRoute.DeleteAbsentIdIsNoOp` | src/app/api/shopping-list/route.ts:90-93 | deleting an id that no item has leaves the collection unchanged |
| `ListRoute.DeletePresentIdShrinks` | src/app/api/shopping-list/route.ts:90 | deleting an id some item has shortens the collection |
| `ListRoute.DeleteIdempotent` | src/app/api/shopping-list/route.ts:90 | deleting the same id twice equals deleting it once |
| `ListRoute.DeleteKeepsOrder` | src/app/api/shopping-list/route.ts:90 | deletion keeps the relative order of the remaining items |
| `DataService.GateDecidesRemoteUse` | src/app/api/shopping-list/data-service.ts:40-62 | with the gate closed (Redis URL empty or mode not `production`) a load answers the in-process copy and a save leaves the remote key alone; with it open and reachable a load answers the stored document and a save writes the saved list to the key |
| `DataService.Load` | src/app/api/shopping-list/data-service.ts:38-52 | with the gate closed or the remote store unreachable the answer is the in-process copy; otherwise a stored document is the answer, an absent key or empty text reads as an empty list, and unparsable text reads as the in-process copy; a non-list answer can only come from the remote value |
| `DataService.Save` | src/app/api/shopping-list/data-service.ts:54-67 | the in-process copy always becomes the saved list; the remote key changes, to that list, only when the gate is open and the write goes through |
| `DataService.Gateway.constructor` | src/app/api/shopping-list/data-service.ts:18-21 | the in-process copy starts empty, no client exists, the gate is evaluated from the two variables, and the configured URL is recorded for the client |
| `DataService.Gateway.GetRedisClient` | src/app/api/shopping-list/data-service.ts:24-35 | the first call creates the one client and reports whether it connected; later calls answer the same handle without connecting; at most one client is ever created |
| `DataService.Gateway.GetData` | src/app/api/shopping-list/data-service.ts:38-52 | answers `Load` of the state, never fails, changes neither the in-process copy nor the remote key; with the gate open a client exists afterwards, and an existing client is kept and not recreated |
| `DataService.Gateway.SaveData` | src/app/api/shopping-list/data-service.ts:54-67 | the new state is `Save` of the old one; a failed remote write is swallowed; with the gate open a client exists afterwards, and an existing client is kept and not recreated |
| `DataService.SaveThenLoadLocal` | src/app/api/shopping-list/data-service.ts:51-56 | with the gate closed, a load after a save answers the saved list |
| `DataService.SaveThenLoadRemote` | src/app/api/shopping-list/data-service.ts:40-62 | with the gate open and the write through, a load after the save answers the saved list whether its read succeeds or not |
| `DataService.FailedWriteReadsStale` | src/app/api/shopping-list/data-service.ts:56-65 | after a swallowed write failure the in-process copy holds the new list but a successful read answers the old remote list |
| `DataService.LoadThenSaveLocalIsNoOp` | src/app/api/shopping-list/data-service.ts:51-56 | with the gate closed, saving what was loaded leaves the state unchanged |
| `DataService.LoadThenSaveRemoteIsNoOp` | src/app/api/shopping-list/data-service.ts:40-62 | with the gate open and both copies agreeing, saving what was loaded leaves the state unchanged |
| `DataService.UnreachableFallsBack` | src/app/api/shopping-list/data-service.ts:41-51 | when the remote store cannot be reached the load answers the in-process copy |
| `DataService.AbsentKeyReadsEmpty` | src/app/api/shopping-list/data-service.ts:44 | an absent remote key reads as an empty list, whatever the in-process copy holds |
| `DataService.MalformedFallsBack` | src/app/api/shopping-list/data-service.ts:44-51 | remote text that does not parse reads as the in-process copy |
| `ClearRoute.ClearOutcome` | src/app/api/shopping-list/clear/route.ts:5-18 | a loaded list leads to the state `saveData([])` leaves (empty in-process copy, the remote key emptied when the write goes through) and a 200 confirmation; a loaded non-object leads to 500 with the error message and nothing saved |
| `ClearRoute.Delete` | src/app/api/shopping-list/clear/route.ts:5-18 | the request's new gateway state and answer are those of `ClearOutcome`; the client handle exists exactly when the gate is open, and an existing one is kept |
| `ClearRoute.ClearTwice` | src/app/api/shopping-list/clear/route.ts:10-13 | once a clear has been saved, a second clear leaves the same state and answers success again |
| `ClearRoute.ClearTwiceAfterFailedWrite` | src/app/api/shopping-list/clear/route.ts:7-16 | a clear that fell back to the in-process copy and failed its write can be followed by a clear that fails with 500 |
| `ClearCompletedRoute.ClearCompletedOutcome` | src/app/api/shopping-list/clear-completed/route.ts:5-18 | a loaded list leads to the state `saveData` of its open items leaves (in-process copy, and remote key when the write goes through) and a 200 confirmation; a loaded non-object leads to 500 with the error message and nothing saved |
| `ClearCompletedRoute.Delete` | src/app/api/shopping-list/clear-completed/route.ts:5-18 | the request's new gateway state and answer are those of `ClearCompletedOutcome`; the client handle exists exactly when the gate is open, and an existing one is kept |
| `ClearCompletedRoute.PendingExactly` | src/app/api/shopping-list/clear-completed/route.ts:10 | exactly the open items remain, no completed one, and the list never grows |
| `ClearCompletedRoute.PendingKeepsOrder` | src/app/api/shopping-list/clear-completed/route.ts:10 | the remaining items keep their relative order |
| `ClearCompletedRoute.PendingOfPendingList` | src/app/api/shopping-list/clear-completed/route.ts:10 | a list with no completed item is left unchanged |
| `ClearCompletedRoute.PendingIdempotent` | src/app/api/shopping-list/clear-completed/route.ts:10 | filtering twice equals filtering once |
| `ClearCompletedRoute.PendingExample` | src/app/api/shopping-list/clear-completed/route.ts:10 | `[A open, B done, C done]` becomes `[A]` |
| `ClearCompletedRoute.ClearCompletedTwice` | src/app/api/shopping-list/clear-completed/route.ts:10-13 | once a run has been saved, a second run leaves the same state and answers the same |

## Left out

- File-system plumbing (`route.ts:7-13`, `readFileSync`, `writeFileSync`): the file is the field `ListFile.items`. A file whose contents do not parse, which would make a handler throw, is not modelled.
- JSON parsing and serialisation are the identity on the records. A remote value that is an object or array without an `items` list is not modelled. The model has two kinds of parsed value: a list document and a value that is not an object.
- A request body that is not JSON makes `request.json()` throw in POST and PUT (`route.ts:43`, `route.ts:64`), and the framework answers 500 with nothing written. This path is not modelled: bodies are always parsed values.
- Request bodies carry only the item fields. These are not modelled: extra fields (the spread would copy them into the item), `null` field values, a non-numeric or fractional `quantity`, and a POST body without `name`. The optional `description` is always a string in the model.
- The Redis client's connection lifecycle, its `error` event handler and all logging are left out. The model records only that the handle is created once, before connecting. Whether an existing handle is still connected is not tracked. Each call's read or write outcome is a parameter.
- Aliasing is not modelled. When `getData` falls back, it hands the clear routes the in-process object itself, and they change it before calling `saveData`. `saveData` then stores that same value, so the end state equals the model's value-based one.
- Concurrent requests racing on the collection (lost updates) are left out: that is concurrency, and the code has no guard against it.
- The React user interface is left out: `ShoppingList.tsx`, `SettingsMenu.tsx`, `ThemeProvider.tsx`, `page.tsx`, `layout.tsx`. So is the date formatting, which depends on locale and the JavaScript `Date` class.
