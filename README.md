# Statistics search front-end: search classification and favorites store

This project models the two pieces of logic in a small browser front-end for a
statistics catalog:

- **`fetchData`** (`src/pages/index.tsx`), module `Search`. It takes the
  response of a search request and decides the outcome. In real-API mode a
  401 status means "Invalid API Key" and is checked before the generic `ok`
  check. Any non-ok response means "Network response was not ok". In demo
  mode, only the term "statista" (in any letter case) returns the body's
  items; every other term returns the empty list. In real-API mode the
  result is the body's items, or the empty list when the body has none. The
  network request is not modelled: `FetchData` is a pure function of the
  search term, the mode flag and the `Response` the request produced. A
  response is `ok` when its status is in 200..299, as the Fetch standard
  defines it.
- **The favorites store** (`src/hooks/useFavorites.ts`), module `Favorites`.
  It keeps a list of `Item`s in local storage under the single key
  `"favorites"`. `Storage` is a class whose `entries` map models
  `localStorage`. `GetFavorites`, `SaveFavorite` and `RemoveFavorite` are
  methods over it. Each method is specified by a pure function of the
  storage contents: `FavoritesIn`, `AfterSave` and `AfterRemove`. The lemmas
  are stated about those functions. The list transform is `WithoutId` (the
  `filter` call). An append is plain sequence concatenation.

Local storage holds strings, and JSON is treated as an ideal round trip. An
`Entry` is `Json(items)` for a string that `JSON.parse` reads back as that
item array, which is what `JSON.stringify` writes. It is `Text(raw)` for any
other string. `Text(raw)` never stands for the JSON text of an item array:
such a string is always written `Json(items)`. The datatype does not enforce
this; a value like `Text("[]")` is read as a failure and is outside the
model's intended meaning. Reading treats "nothing stored" and the empty string (the only
falsy string) as the empty list. Any other non-JSON text is a read failure:
`JSON.parse` throws and the returned promise rejects. When that happens,
`saveFavorite` and `removeFavorite` never run their write callback, and the
promise they return never settles. The model represents this as
`resolved == false` with the storage unchanged.

`fetchData` has no page parameter and does no slicing by page
(`src/pages/index.tsx:4`), and its query key is (term, mode)
(`src/pages/index.tsx:43`). So demo mode returns the whole `items` array of
the body for "statista".

Saving the same item twice stores it twice. The code does not deduplicate,
and the model keeps that behaviour (`SaveThenRead`).

## Model

| member | source | states |
|---|---|---|
| `Search.Lower` | src/pages/index.tsx:26 | lower-casing keeps the length and folds each ASCII capital to its small letter, leaving every other character as it is |
| `Search.LowerMatches` | src/pages/index.tsx:26 | for a lower-case word, `Lower(t) == word` holds exactly when `t` spells the word letter by letter in any mix of cases (both directions) |
| `Search.FetchData` | src/pages/index.tsx:4-36 | the call fails exactly when the response is not ok; the invalid-key error is reported for a real-API 401 and for nothing else; in real-API mode a success always carries a list |
| `Search.RealApiUnauthorized` | src/pages/index.tsx:13-21 | in real-API mode a 401 gives "Invalid API Key" and never the network error, whatever the body and term |
| `Search.DemoUnauthorized` | src/pages/index.tsx:16-22 | in demo mode a 401 gets no special treatment and gives the network error |
| `Search.NotOkIsNetworkError` | src/pages/index.tsx:20-22 | every other non-ok status gives the network error in either mode, so no data |
| `Search.DemoResult` | src/pages/index.tsx:25-26 | demo mode with an ok response: the body's items unchanged (even when absent) if the term is "statista" in any case, otherwise the empty list whatever the body holds |
| `Search.DemoSpellings` | src/pages/index.tsx:26 | "Statista" and "STATISTA" return the body's items; "statistics" returns the empty list |
| `Search.RealApiResult` | src/pages/index.tsx:27-29 | real-API mode with an ok response: the body's items when present, the empty list when absent |
| `Search.RealApiIgnoresTerm` | src/pages/index.tsx:8-29 | in real-API mode any two search terms give the same outcome for the same response |
| `Search.MessagesIdentifyErrors` | src/pages/index.tsx:13-22 | the two error messages differ, so the text a caller sees identifies which error was thrown and rethrown |
| `Favorites.Storage.GetItem` | src/hooks/useFavorites.ts:8 | `getItem` returns the stored entry, or nothing when the key is absent |
| `Favorites.Storage.SetItem` | src/hooks/useFavorites.ts:16 | `setItem` replaces the entry of one key and leaves the rest of the storage as it was |
| `Favorites.ParseFavorites` | src/hooks/useFavorites.ts:8-9 | nothing stored, or the empty string, reads as the empty list; stored JSON reads back as its items; only non-empty non-JSON text fails |
| `Favorites.GetFavorites` | src/hooks/useFavorites.ts:6-11 | returns the list the storage holds under `"favorites"`, and the empty list when the key is absent |
| `Favorites.WithoutId` | src/hooks/useFavorites.ts:25 | the filtered list is no longer than the input, and none of its items has the removed identifier |
| `Favorites.WithoutIdIsSubsequence` | src/hooks/useFavorites.ts:25 | the filtered list is a subsequence of the input: the items left keep their relative order |
| `Favorites.WithoutIdCounts` | src/hooks/useFavorites.ts:25 | each item with another identifier occurs as often as in the input; items with the identifier occur zero times, however many there were |
| `Favorites.WithoutAbsentId` | src/hooks/useFavorites.ts:25 | removing an identifier no item has returns the list unchanged |
| `Favorites.WithoutIdAppend` | src/hooks/useFavorites.ts:25 | filtering a concatenation is the concatenation of the filtered parts |
| `Favorites.WithoutIdIdempotent` | src/hooks/useFavorites.ts:25 | filtering twice by one identifier equals filtering once |
| `Favorites.WithoutIdCommutes` | src/hooks/useFavorites.ts:25 | removing two identifiers gives the same list in either order |
| `Favorites.AfterSave` | src/hooks/useFavorites.ts:4-20 | a save touches no key other than `"favorites"` |
| `Favorites.AfterRemove` | src/hooks/useFavorites.ts:4-30 | a removal touches no key other than `"favorites"` |
| `Favorites.FailedReadWritesNothing` | src/hooks/useFavorites.ts:13-30 | when the stored list cannot be read, neither a save nor a removal changes the storage, since the write sits in the `then` callback that never runs |
| `Favorites.SaveThenRead` | src/hooks/useFavorites.ts:6-20 | reading after a save gives the old list with the item at the end; the length grows by exactly one even if the identifier is already present; the item is in the list |
| `Favorites.RemoveThenRead` | src/hooks/useFavorites.ts:6-30 | reading after a removal gives the filtered list: no item has the identifier, and the result is a subsequence of the old list |
| `Favorites.RemoveIdempotent` | src/hooks/useFavorites.ts:22-30 | removing the same identifier twice leaves the storage as removing it once |
| `Favorites.RemoveAbsent` | src/hooks/useFavorites.ts:22-30 | removing an identifier no stored item has leaves the list read back unchanged |
| `Favorites.SaveThenRemove` | src/hooks/useFavorites.ts:13-30 | saving an item and then removing its identifier reads back as removing the identifier alone; with another identifier, the new item stays at the end of the filtered list |
| `Favorites.SaveFavorite` | src/hooks/useFavorites.ts:13-20 | the new storage is `AfterSave` of the old one; the promise resolves exactly when the stored list could be read |
| `Favorites.RemoveFavorite` | src/hooks/useFavorites.ts:22-30 | the new storage is `AfterRemove` of the old one; the promise resolves exactly when the stored list could be read |

## Left out

- The `fetch` calls, the URLs, the API-key header and `process.env` (`src/pages/index.tsx:8-12, 17`). This is network I/O, so the response is an input.
- A `fetch` that rejects (no network) and a body that is not valid JSON. Both make `fetchData` rethrow an error that is not one of the two classified ones, and the model has no response for them.
- A `null` JSON body. Reading `data.items` from it throws a `TypeError` that is rethrown. This happens in real-API mode, and in demo mode only when the term is "statista", since only that branch reads `data.items` (`src/pages/index.tsx:26-28`). A body that is a number, string, boolean or array has no `items` field and is the model's `Body(None)`.
- Parsing and serialising JSON (`src/hooks/useFavorites.ts:9, 16`, `src/pages/index.tsx:24`). The model treats them as an ideal round trip through `Entry.Json`.
- `ParseFavorites`: stored text that parses as JSON but not as an array (`"null"`, `"0"`, `"{}"`, a string literal) makes `getFavorites` resolve to that value. The model reports a read failure instead, so save and remove write nothing and do not resolve.
- `SaveFavorite`: for any such value except a JSON string literal, `[...favorites, newFavorite]` throws, so the model's outcome matches. A stored string literal is spread into its characters (`src/hooks/useFavorites.ts:16`): for a stored `"\"ab\""` the source writes `["a","b",newFavorite]` and resolves. The model writes nothing.
- `RemoveFavorite`: for every non-array value `favorites.filter` throws (`src/hooks/useFavorites.ts:25`), so nothing is written and the promise does not settle, as in the model.
- `Storage.GetItem`, `Storage.SetItem`: in the browser, `getItem` throws when storage is disabled, and `setItem` throws when the quota is exceeded or storage is disabled. In `saveFavorite` and `removeFavorite` such an error leaves the returned promise unsettled. The model's storage never fails.
- `Lower`: `toLowerCase` follows Unicode case mapping. The model folds ASCII letters only and leaves every other character unchanged.
- `Item.identifier` is a JavaScript number, modelled as an unbounded integer. `NaN`, for which `!==` always holds, is not modelled.
- Promises and async sequencing. Each storage operation is modelled as atomic. The lost update when two read-modify-write mutations interleave is a concurrency effect and is not modelled.
- The React Query wiring: `useQuery`, `useMutation`, `invalidateQueries` and the `QueryClient` built on each call of `useFavorites` (`src/hooks/useFavorites.ts:32-50`, `src/pages/index.tsx:42-46`). This is library behaviour.
- The `Home` component, `src/pages/favorites.tsx` and `src/pages/statistic/[id].tsx`. These are rendering code.
- The `console.error` logging before the rethrow (`src/pages/index.tsx:33`).
