# Effect queue and active-game summaries of the kairos card-game client

This project models two small parts of the kairos web client in Dafny and proves properties of them.

- **The effect-animation queue** (`src/lib/stores/fx.ts`) is a store holding an ordered list of `FxItem` records. Each record is a damage or heal effect that flies from one screen rectangle to another.
  - `start` appends an item under a freshly generated id. It fills in a 900 ms duration when the caller gives none, and it returns the id.
  - `finish(id)` removes every item carrying that id.
  - `clear` empties the list.

  In the model, the store is the class `Fx.FxStore` with a `seq<FxItem>` field. Each method states the new list exactly, and `Valid()` is the invariant that every stored item has a duration. The filter behind `finish` is the function `Fx.Without`, and its properties are proved as lemmas: what survives, the order, the multiplicity, idempotence, commutation and undoing a `start`.
- **The active-game summary mapping** (`listActive` in `src/lib/api/GameClient.ts`) turns each raw record from `GET /game/active` into a `GameSummary { id, playerAId }`.
  - `id` is the record's `gameId` when that is a string. Otherwise it is `JSON.stringify` of the whole record.
  - `playerAId` is `players[0]` when `players` is a non-empty array. Otherwise it is `'unknown'`.

  In the model, a raw record is the datatype `GameClient.Json`. `JSON.stringify` is a function-typed parameter `serialize`, so nothing is assumed about it.

The module `Options` holds the `Option` datatype. `GetOr` plays JavaScript's `??`.

`GameSummary` has exactly the two fields the code builds, `id` and `playerAId`. As written, the mapping throws on a `null` record (see Findings). The helpers `GameClient.Property` (a property read on a record) and `GameClient.SummarizeAsWritten` (one record as the code handles it) are the definitions used by `Summarize` and `ListActiveAsWritten`, whose contracts carry the promises.

## Model

| member | source | states |
|---|---|---|
| Fx.MakeItem | src/lib/stores/fx.ts:27-29 | the stored item carries the fresh id and every input field unchanged; its duration is the input's when given and 900 otherwise, so it always has one |
| Fx.Without | src/lib/stores/fx.ts:34 | the filtered list is no longer than the input, contains no item with the id, and contains exactly the input's items whose id differs |
| Fx.WithoutAppend | src/lib/stores/fx.ts:34 | filtering a concatenation is the concatenation of the filtered parts (order across parts is preserved) |
| Fx.WithoutKeeps | src/lib/stores/fx.ts:34 | an item whose id differs survives, at the position equal to the number of survivors before it |
| Fx.WithoutPrefix | src/lib/stores/fx.ts:34 | the survivors of a prefix of the list are a prefix of the survivors of the whole list |
| Fx.WithoutKeepsOrder | src/lib/stores/fx.ts:34 | of two surviving items, the earlier one in the input lands strictly earlier in the output |
| Fx.WithoutCount | src/lib/stores/fx.ts:34 | each item with a different id occurs in the result as often as in the input; items with the id occur zero times |
| Fx.WithoutAbsent | src/lib/stores/fx.ts:34 | filtering leaves the list unchanged if and only if no item carries the id |
| Fx.WithoutIdempotent | src/lib/stores/fx.ts:34 | finishing an id twice gives the same list as finishing it once |
| Fx.WithoutCommutes | src/lib/stores/fx.ts:34 | finishing two ids gives the same list in either order |
| Fx.FinishUndoesStart | src/lib/stores/fx.ts:27-34 | when no item already uses the new id, `finish` of that id after `start` restores the previous list |
| Fx.FxStore.constructor | src/lib/stores/fx.ts:22-23 | a new store holds the empty list and satisfies the duration invariant |
| Fx.FxStore.Start | src/lib/stores/fx.ts:27-31 | the list becomes the old list followed by exactly one new item built from the input and the fresh id; the returned id is the one stored on that item; the invariant is kept |
| Fx.FxStore.Finish | src/lib/stores/fx.ts:33-35 | the list becomes the old list filtered by id, and the invariant is kept |
| Fx.FxStore.Clear | src/lib/stores/fx.ts:36-38 | the list becomes empty, whatever it held |
| GameClient.Summarize | src/lib/api/GameClient.ts:26-33 | `id` is `gameId` when that is a string and the serialisation of the whole record otherwise; `playerAId` is `players[0]` when `players` is a non-empty array and `'unknown'` otherwise |
| GameClient.SerializeOnlyAsFallback | src/lib/api/GameClient.ts:27 | the serialisation affects the summary only when the record has no string `gameId` |
| GameClient.ListActive | src/lib/api/GameClient.ts:22-34 | one summary per raw record: the result is exactly as long as the raw list |
| GameClient.ListActiveAt | src/lib/api/GameClient.ts:26-33 | the i-th summary is the summary of the i-th raw record alone |
| GameClient.ListActiveAppend | src/lib/api/GameClient.ts:26-33 | mapping a concatenation is the concatenation of the mapped parts, so nothing is dropped, reordered or merged |
| GameClient.ListActiveAsWritten | src/lib/api/GameClient.ts:26-33 | given an array body, the mapping as written succeeds if and only if no record is `null`, and then equals `ListActive` |
| GameClient.NullRecordThrows | src/lib/api/GameClient.ts:26-27 | the response `[null]` makes the as-written mapping throw, while the corrected mapping yields one summary |

## Left out

- `makeId` (src/lib/stores/fx.ts:18-20) reads the clock and a random source. Its result is the `newId` parameter of `Start`, and nothing is claimed about uniqueness. For that reason `Finish` removes every item with the id.
- The Svelte store plumbing (`writable`, `subscribe`, `update`, `set`) is reactive UI machinery. Only the list value and the three operations on it are modelled.
- `DOMRect` is the opaque type `Fx.Rect`, carried through unchanged.
- JavaScript numbers (`amount`, `duration`, JSON numbers) are `real`. NaN, infinities and rounding are not modelled.
- `JSON.stringify` is the parameter `serialize`, and its internals are not modelled.
- `listActiveRaw`, `health`, `startGame`, `expireGames` and `endGameOnServer` (src/lib/api/GameClient.ts:6-10, 37-64) are HTTP requests and status checks. They are not part of this model, and neither is the fetch inside `listActive`.
- The response body is taken to be an array (`seq<Json>`). `listActiveRaw` returns `res.json()` unchecked (src/lib/api/GameClient.ts:9), so a non-array body such as `{}` or `null` throws a TypeError at `raw.map` (src/lib/api/GameClient.ts:26); the model does not represent that case.
- The `console.log` call (src/lib/api/GameClient.ts:24) is I/O and is not modelled.
- `GameClient.Json` objects are maps from keys to values, so key order and duplicate keys are not represented. Key order only matters to `JSON.stringify`, which is uninterpreted.
- src/lib/stores/game.ts declares only types and a store, with no behaviour, so it is not part of this model.

## Findings

| source | as written | input that shows it | evidently intended | confidence | as-written member | corrected member |
|---|---|---|---|---|---|---|
| src/lib/api/GameClient.ts:27 | `g.gameId` is read without a guard, so a `null` element throws a TypeError and `listActive` rejects the whole list | a response body `[null]` | every record yields a summary; for `null`, the `id` is the serialisation `"null"` and `playerAId` is `'unknown'` (as with `g?.gameId`), matching the fallback the code uses for other malformed records | low: not executed; the backend may never send `null` | GameClient.ListActiveAsWritten | GameClient.ListActive |
