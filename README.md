# Board cache of the gallery store

This project models the `boards` slice of the InvokeAI web client's gallery store. The slice is a normalized, in-memory cache of boards. It holds:

- a table of boards keyed by `board_id`;
- `ids`, the table's keys ordered newest `updated_at` first;
- the pagination fields `offset`, `limit` and `total`;
- the loading flag `isLoading`;
- the view fields `selectedBoardId`, `searchText` and `updateBoardModalOpen`.

A reducer drives the slice. It handles these cases:

- the six slice actions (`boardUpserted`, `boardUpdatedOne`, `boardRemoved`, `boardIdSelected`, `setBoardSearchText`, `setUpdateBoardModalOpen`);
- the three phases of the `receivedBoards` fetch;
- the successes of `boardCreated` and `boardUpdated`;
- the request (pending) phase of `boardDeleted`, which removes the board before the server confirms.

Selectors read the table.

The project has five files:

- `boards.dfy` (module `Boards`): the board record and the shallow merge (`Object.assign`) that the adapter applies to a cached record.
- `date_order.dfy` (module `DateOrder`): the adapter's sort comparer, `dateComparator(b.updated_at, a.updated_at)`.
  - It also holds the stable sort the adapter re-derives `ids` with, and the filter `removeOne` applies to `ids`.
  - It proves that the sort orders newest first, permutes, keeps ids distinct, and commutes with the filter.
- `entity_adapter.dfy` (module `EntityAdapter`): the sorted entity adapter behind `boardsAdapter`, with `upsertOne`, `upsertMany`, `updateOne` and `removeOne` as functions from the table before to the table after.
  - The table carries `keyOrder`, the order in which keys were first written into `entities`. A JavaScript object enumerates its keys in that order, and the adapter re-sorts `Object.values(entities)` stably. So `ids` is always `SortByDate(keyOrder, entities)`, and ties between equal timestamps are resolved exactly as the adapter resolves them.
- `board_slice.dfy` (module `BoardSlice`): the slice state, its actions, the reducer `Reduce` on state values, the selectors, and the properties of every case.
- `boards_store.dfy` (module `BoardsStore`): the slice as the store holds it. The class `BoardsSliceState` has the slice's fields and one method per reducer case. Each method assigns the fields in place and is proved against `Reduce`, keeping the table invariant.

Nothing here runs the client: the fetch, create, update and delete calls are network operations, and their lifecycle events arrive as actions, one at a time.

Two points of the adapter's behaviour shape the model:

- Upserting a cached board is a shallow merge (`Object.assign`), not a full replace.
  - The model merges.
  - `BoardSlice.UpsertEventStoresBoard` proves the result is exactly the incoming board whenever that board names every cached field.
- Ties between equal `updated_at` follow key insertion order, because the re-sort is stable.

## Model

| member | source | states |
|---|---|---|
| Boards.Assign | invokeai/frontend/web/src/features/gallery/store/boardSlice.ts:51-53 | merging changes into a record keeps its id, carries every value the changes set, keeps every field they do not name, and adds no field beyond the two key sets |
| Boards.AssignIdempotent | invokeai/frontend/web/src/features/gallery/store/boardSlice.ts:48-50 | merging the same changes twice equals merging them once |
| Boards.AssignFullRecord | invokeai/frontend/web/src/features/gallery/store/boardSlice.ts:86-89 | a board with the cached record's id that names all its fields replaces that record exactly |
| DateOrder.SortByDate | invokeai/frontend/web/src/features/gallery/store/boardSlice.ts:20 | the re-sort is a permutation of the ids it is given |
| DateOrder.SortByDateSorted | invokeai/frontend/web/src/features/gallery/store/boardSlice.ts:20 | the re-sort orders ids by `updated_at`, non-increasing (newest first, per the reversed comparer) |
| DateOrder.SortByDateNoDups | invokeai/frontend/web/src/features/gallery/store/boardSlice.ts:18-20 | re-sorting distinct ids gives distinct ids |
| DateOrder.FilterSortByDate | invokeai/frontend/web/src/features/gallery/store/boardSlice.ts:54-56 | filtering the sorted ids (what `removeOne` does to `ids`) equals sorting the filtered key order, so removal needs no re-sort |
| DateOrder.Filter | invokeai/frontend/web/src/features/gallery/store/boardSlice.ts:55 | `ids.filter(id => id in entities)` keeps exactly the ids that are in the kept set, and never grows |
| EntityAdapter.EmptyTable | invokeai/frontend/web/src/features/gallery/store/boardSlice.ts:33-34 | `getInitialState` gives an empty table that satisfies the table invariant |
| EntityAdapter.MergeBatch | invokeai/frontend/web/src/features/gallery/store/boardSlice.ts:80 | after `upsertMany` the keys are the old keys plus the ids of the batch |
| EntityAdapter.NewIds | invokeai/frontend/web/src/features/gallery/store/boardSlice.ts:80 | the keys a batch adds are exactly its ids that were not cached, each once |
| EntityAdapter.UpsertMany | invokeai/frontend/web/src/features/gallery/store/boardSlice.ts:80 | `upsertMany`: the keys afterwards are the old keys plus the batch's ids, records the batch does not name are unchanged, and every key-order id stays cached |
| EntityAdapter.UpsertOne | invokeai/frontend/web/src/features/gallery/store/boardSlice.ts:49 | `upsertOne` in closed form: a new board is written whole and appended to the key order; a cached one is merged in place and keeps its position |
| EntityAdapter.UpdateOne | invokeai/frontend/web/src/features/gallery/store/boardSlice.ts:52 | `updateOne` on a cached id keeps the key set and key order, carries the changes, keeps unnamed fields and leaves every other record unchanged; on a missing id it returns the table unchanged |
| EntityAdapter.RemoveOne | invokeai/frontend/web/src/features/gallery/store/boardSlice.ts:55 | `removeOne` deletes exactly that key; on a cached id, `ids` keeps exactly the other cached ids; on a missing id the table is unchanged |
| EntityAdapter.UpsertManyValid | invokeai/frontend/web/src/features/gallery/store/boardSlice.ts:80 | `upsertMany` keeps the table invariant: distinct keys, `ids` in step with `entities`, each record under its own `board_id`, `ids` sorted newest first |
| EntityAdapter.UpsertOneValid | invokeai/frontend/web/src/features/gallery/store/boardSlice.ts:49 | `upsertOne` keeps the table invariant |
| EntityAdapter.UpdateOneValid | invokeai/frontend/web/src/features/gallery/store/boardSlice.ts:52 | `updateOne` keeps the table invariant |
| EntityAdapter.RemoveOneValid | invokeai/frontend/web/src/features/gallery/store/boardSlice.ts:55 | `removeOne` keeps the table invariant |
| EntityAdapter.ValidTableIds | invokeai/frontend/web/src/features/gallery/store/boardSlice.ts:18-20 | under the invariant `ids` has no duplicates, holds exactly the keys of `entities`, is sorted newest first, and is as long as the table is large |
| EntityAdapter.UpsertManyCovers | invokeai/frontend/web/src/features/gallery/store/boardSlice.ts:80 | after `upsertMany` every board of the batch is cached with the values of its last occurrence, unnamed records are unchanged, and no other key appears |
| EntityAdapter.UpsertOneFullRecord | invokeai/frontend/web/src/features/gallery/store/boardSlice.ts:84 | upserting a board that names every cached field leaves exactly that board under its id |
| EntityAdapter.UpsertOneUnchanged | invokeai/frontend/web/src/features/gallery/store/boardSlice.ts:49 | upserting a board the table already holds field for field changes nothing |
| EntityAdapter.UpsertOneIdempotent | invokeai/frontend/web/src/features/gallery/store/boardSlice.ts:49 | upserting the same board twice equals upserting it once (the whole table, `ids` included) |
| EntityAdapter.UpsertOneCount | invokeai/frontend/web/src/features/gallery/store/boardSlice.ts:49 | upsert lengthens `ids` by one for a new board and by none for a cached one |
| EntityAdapter.UpsertCachedIsUpdate | invokeai/frontend/web/src/features/gallery/store/boardSlice.ts:49-52 | for a cached id, `upsertOne(board)` equals `updateOne` with the whole board as changes |
| EntityAdapter.UpsertManyIsSequential | invokeai/frontend/web/src/features/gallery/store/boardSlice.ts:80 | a batch with distinct ids gives the same table as upserting its boards one by one |
| EntityAdapter.UpdateOneIdempotent | invokeai/frontend/web/src/features/gallery/store/boardSlice.ts:52 | applying the same update twice equals applying it once |
| EntityAdapter.RemoveOneEntry | invokeai/frontend/web/src/features/gallery/store/boardSlice.ts:55 | `removeOne` on a cached id drops exactly that id from `entities` and from `ids`, shortening `ids` by one |
| EntityAdapter.RemoveUndoesInsert | invokeai/frontend/web/src/features/gallery/store/boardSlice.ts:84-93 | removing a board just added restores the previous table exactly, `ids` included |
| BoardSlice.InitialBoardsState | invokeai/frontend/web/src/features/gallery/store/boardSlice.ts:33-40 | the initial state has an empty valid table, `offset` 0, `limit` 50, `total` 0, not loading, modal closed, no selection and no search text |
| BoardSlice.Reduce | invokeai/frontend/web/src/features/gallery/store/boardSlice.ts:44-95 | the reducer: one case per handled action; an unhandled action returns the state as is; every id in the key order stays cached |
| BoardSlice.ReduceAll | invokeai/frontend/web/src/features/gallery/store/boardSlice.ts:44-95 | events applied one at a time in delivery order keep every key-order id cached |
| BoardSlice.SelectBoardsAll | invokeai/frontend/web/src/features/gallery/store/boardSlice.ts:99 | `selectAll` returns the record of each id of `ids`, in order |
| BoardSlice.SelectBoardsById | invokeai/frontend/web/src/features/gallery/store/boardSlice.ts:100 | `selectById` finds a board exactly when its id is cached, and then returns that record |
| BoardSlice.SelectBoardsTotal | invokeai/frontend/web/src/features/gallery/store/boardSlice.ts:103 | `selectTotal` (`ids.length`) equals the number of cached boards whenever the table invariant holds |
| BoardSlice.ReduceValid | invokeai/frontend/web/src/features/gallery/store/boardSlice.ts:48-94 | every reducer case keeps the table invariant |
| BoardSlice.ReduceAllValid | invokeai/frontend/web/src/features/gallery/store/boardSlice.ts:44-95 | any sequence of events keeps the table invariant |
| BoardSlice.Reachable | invokeai/frontend/web/src/features/gallery/store/boardSlice.ts:18-20 | in every state reachable from the initial one, `ids` has no duplicates and equals the key set of `entities`; each record sits under its own `board_id`; `ids` is sorted newest first; `selectTotal` equals the number of cached boards |
| BoardSlice.UpsertEventEffect | invokeai/frontend/web/src/features/gallery/store/boardSlice.ts:82-89 | `boardUpserted`, `boardCreated.fulfilled` and `boardUpdated.fulfilled` cache the board under its id with its values (exactly the board if new), change no other record and no field outside the table |
| BoardSlice.UpsertEventStoresBoard | invokeai/frontend/web/src/features/gallery/store/boardSlice.ts:86-89 | after an upsert event with a board naming every cached field, `selectById` returns exactly that board |
| BoardSlice.UpsertEventIdempotent | invokeai/frontend/web/src/features/gallery/store/boardSlice.ts:82-89 | delivering the same upsert event twice yields the same state as once |
| BoardSlice.UpsertEventTotal | invokeai/frontend/web/src/features/gallery/store/boardSlice.ts:82-85 | an upsert event raises `selectTotal` by one for a new board and leaves it for a cached one |
| BoardSlice.UpdateEventEffect | invokeai/frontend/web/src/features/gallery/store/boardSlice.ts:51-53 | `boardUpdatedOne` merges the changes into that record alone and touches nothing outside the table; on a missing id the state is unchanged |
| BoardSlice.RemoveEventEffect | invokeai/frontend/web/src/features/gallery/store/boardSlice.ts:90-94 | `boardRemoved` and `boardDeleted.pending` remove exactly the given id from `entities` and `ids`, touch nothing else, and make `selectById` miss; a missing id leaves the state unchanged |
| BoardSlice.RemoveEventTotal | invokeai/frontend/web/src/features/gallery/store/boardSlice.ts:54-56 | removing a cached board lowers `selectTotal` by one |
| BoardSlice.DeleteUndoesCreate | invokeai/frontend/web/src/features/gallery/store/boardSlice.ts:82-94 | `boardCreated.fulfilled` of a new board followed by `boardDeleted.pending` of its id restores the state exactly |
| BoardSlice.LoadingLifecycle | invokeai/frontend/web/src/features/gallery/store/boardSlice.ts:68-73 | `receivedBoards.pending` sets `isLoading` and nothing else; `receivedBoards.rejected` clears it and changes nothing else, from any state (also after an earlier fetch already finished) |
| BoardSlice.FulfilledPage | invokeai/frontend/web/src/features/gallery/store/boardSlice.ts:74-81 | `receivedBoards.fulfilled` clears `isLoading`, overwrites `offset`, `limit` and `total`, caches every item (last occurrence wins), keeps boards from earlier pages, and leaves the view fields alone |
| BoardSlice.FulfilledPageIsUpserts | invokeai/frontend/web/src/features/gallery/store/boardSlice.ts:80 | a page with distinct ids is cached as if each board had been upserted by itself |
| BoardSlice.ViewSetters | invokeai/frontend/web/src/features/gallery/store/boardSlice.ts:57-65 | `boardIdSelected`, `setBoardSearchText` and `setUpdateBoardModalOpen` each write only their own field |
| BoardSlice.SelectAllNewestFirst | invokeai/frontend/web/src/features/gallery/store/boardSlice.ts:99 | `selectAll` lists boards with non-increasing `updated_at` |
| BoardSlice.SelectAllOnce | invokeai/frontend/web/src/features/gallery/store/boardSlice.ts:99 | `selectAll` lists no board twice |
| BoardSlice.SelectAllEvery | invokeai/frontend/web/src/features/gallery/store/boardSlice.ts:99 | `selectAll` lists a board with id `k` exactly when `k` is cached |
| BoardSlice.SelectTotalCounts | invokeai/frontend/web/src/features/gallery/store/boardSlice.ts:103 | `selectTotal` is the number of cached boards |
| BoardsStore.BoardsSliceState.constructor | invokeai/frontend/web/src/features/gallery/store/boardSlice.ts:33-40 | a fresh store holds `initialBoardsState` and satisfies the table invariant |
| BoardsStore.BoardsSliceState.BoardUpserted | invokeai/frontend/web/src/features/gallery/store/boardSlice.ts:48-50 | the fields afterwards are the reducer's result for `boardUpserted`; the invariant is kept |
| BoardsStore.BoardsSliceState.BoardUpdatedOne | invokeai/frontend/web/src/features/gallery/store/boardSlice.ts:51-53 | the fields afterwards are the reducer's result for `boardUpdatedOne`; the invariant is kept |
| BoardsStore.BoardsSliceState.BoardRemoved | invokeai/frontend/web/src/features/gallery/store/boardSlice.ts:54-56 | the fields afterwards are the reducer's result for `boardRemoved`; the invariant is kept |
| BoardsStore.BoardsSliceState.BoardIdSelected | invokeai/frontend/web/src/features/gallery/store/boardSlice.ts:57-59 | only `selectedBoardId` changes, to the payload |
| BoardsStore.BoardsSliceState.SetBoardSearchText | invokeai/frontend/web/src/features/gallery/store/boardSlice.ts:60-62 | only `searchText` changes, to the payload |
| BoardsStore.BoardsSliceState.SetUpdateBoardModalOpen | invokeai/frontend/web/src/features/gallery/store/boardSlice.ts:63-65 | only `updateBoardModalOpen` changes, to the payload |
| BoardsStore.BoardsSliceState.ReceivedBoardsPending | invokeai/frontend/web/src/features/gallery/store/boardSlice.ts:68-70 | only `isLoading` changes, to true |
| BoardsStore.BoardsSliceState.ReceivedBoardsRejected | invokeai/frontend/web/src/features/gallery/store/boardSlice.ts:71-73 | only `isLoading` changes, to false |
| BoardsStore.BoardsSliceState.ReceivedBoardsFulfilled | invokeai/frontend/web/src/features/gallery/store/boardSlice.ts:74-81 | the fields afterwards are the reducer's result for the fulfilled page; the invariant is kept |
| BoardsStore.BoardsSliceState.BoardCreatedFulfilled | invokeai/frontend/web/src/features/gallery/store/boardSlice.ts:82-85 | the fields afterwards are the reducer's result for `boardCreated.fulfilled`; the invariant is kept |
| BoardsStore.BoardsSliceState.BoardUpdatedFulfilled | invokeai/frontend/web/src/features/gallery/store/boardSlice.ts:86-89 | the fields afterwards are the reducer's result for `boardUpdated.fulfilled`; the invariant is kept |
| BoardsStore.BoardsSliceState.BoardDeletedPending | invokeai/frontend/web/src/features/gallery/store/boardSlice.ts:90-94 | the fields afterwards are the reducer's result for `boardDeleted.pending`; the invariant is kept |
| BoardsStore.BoardsSliceState.Dispatch | invokeai/frontend/web/src/features/gallery/store/boardSlice.ts:44-95 | dispatching any action leaves the fields equal to `Reduce` of the old state and keeps the invariant |
| BoardsStore.BoardsSliceState.SelectAll | invokeai/frontend/web/src/features/gallery/store/boardSlice.ts:99 | `selectAll` on the store lists the records of `ids` in order, each under its own id, newest first |
| BoardsStore.BoardsSliceState.SelectById | invokeai/frontend/web/src/features/gallery/store/boardSlice.ts:100 | `selectById` on the store finds a board exactly when its id is in `ids`, and returns the record stored under that id |
| BoardsStore.BoardsSliceState.SelectTotal | invokeai/frontend/web/src/features/gallery/store/boardSlice.ts:103 | `selectTotal` on the store equals the number of cached boards |

## Left out

- The thunks `receivedBoards`, `boardCreated`, `boardUpdated` and `boardDeleted` are network calls. Only their lifecycle events are modelled, as actions carrying their payloads; `boardCreated`'s and `boardUpdated`'s pending and rejected events are not handled by the slice and are the `Other` action.
- The `createSlice`, Immer and action-creator wiring, `getSelectors<RootState>` and `boardsSelector` are library plumbing. The selectors take the slice state directly.
- `selectBoardsEntities` and `selectBoardsIds` return the `entities` and `ids` fields as they are; they are those fields of the state and have no separate member.
- The `console.log` in the `boardDeleted.pending` case is output only and is not modelled.
- `dateComparator` (in `common/util/dateComparator`) is not part of this model. `updated_at` is an integer timestamp compared by sign; parsing of date strings is not modelled.
- `BoardDTO` fields other than `board_id` and `updated_at` are an opaque name-to-value map; their types are not modelled.
- Redux Toolkit's entity adapter is not part of this model. Its behaviour follows the implementation of the sorted entity adapter in Redux Toolkit 1.9; later versions rewrote that adapter.
  - A batch is split into cached and new ids.
  - A cached id gets a shallow merge.
  - A new id is written whole, and a later duplicate overwrites an earlier one.
  - `ids` is re-sorted stably over key insertion order.
  - `removeOne` filters `ids` without re-sorting.
- EntityAdapter.UpdateOne: changes that alter `board_id` (the adapter then re-keys the record) are not modelled; `BoardChanges` has no `board_id`.
- EntityAdapter.UpsertMany: it always re-derives `ids` from the key order. The adapter re-sorts whenever the batch names a cached id, and writes `ids` only when the re-sorted order differs. It skips its add step entirely when the batch has no new boards. The two agree on every table satisfying the invariant, which every reachable state does (`BoardSlice.Reachable`).
- JavaScript orders integer-like object keys numerically before all others. Board ids are treated as non-numeric strings, so the key order is plain insertion order.
- Arithmetic width: `offset`, `limit` and `total` are unbounded integers; JavaScript number limits are not modelled.
- Concurrency: the host applies events one at a time, and `ReduceAll` applies them in delivery order. Overlapping requests are only interleavings of such events.
