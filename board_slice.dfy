/**
 * The `boards` slice: the board cache together with the pagination, loading
 * and view fields around it, the events that drive it, and the selectors
 * that read it. `Reduce` is the slice's reducer on one state value; the
 * class in `BoardsStore` applies the same cases to its fields in place.
 */
module BoardSlice {
  import opened Boards
  import opened DateOrder
  import opened EntityAdapter

  /** `BoardsState`: the adapter's table plus `AdditionalBoardsState`.
      The optional fields are `None` while unset (`undefined`). */
  datatype BoardsState = BoardsState(
    table: EntityState,
    offset: int,
    limit: int,
    total: int,
    isLoading: bool,
    selectedBoardId: Option<string>,
    searchText: Option<string>,
    updateBoardModalOpen: bool)

  /** The payload of `receivedBoards.fulfilled`: one page of boards. */
  datatype Page = Page(items: seq<Board>, offset: int, limit: int, total: int)

  /** Every action the slice handles; `Other` stands for any action it does
      not (for instance `boardCreated.pending`), which leaves the state as is. */
  datatype BoardsAction =
    | BoardUpserted(board: Board)
    | BoardUpdatedOne(update: Update)
    | BoardRemoved(boardId: string)
    | BoardIdSelected(selected: Option<string>)
    | SetBoardSearchText(text: string)
    | SetUpdateBoardModalOpen(open: bool)
    | ReceivedBoardsPending
    | ReceivedBoardsRejected
    | ReceivedBoardsFulfilled(page: Page)
    | BoardCreatedFulfilled(created: Board)
    | BoardUpdatedFulfilled(updated: Board)
    | BoardDeletedPending(deletedId: string)
    | Other

  /** The events whose reducer upserts the board they carry. */
  predicate IsUpsertEvent(a: BoardsAction)
  {
    a.BoardUpserted? || a.BoardCreatedFulfilled? || a.BoardUpdatedFulfilled?
  }

  function UpsertedBoard(a: BoardsAction): Board
    requires IsUpsertEvent(a)
  {
    match a
    case BoardUpserted(b) => b
    case BoardCreatedFulfilled(b) => b
    case BoardUpdatedFulfilled(b) => b
  }

  /** The events whose reducer removes the id they carry. */
  predicate IsRemoveEvent(a: BoardsAction)
  {
    a.BoardRemoved? || a.BoardDeletedPending?
  }

  function RemovedId(a: BoardsAction): string
    requires IsRemoveEvent(a)
  {
    match a
    case BoardRemoved(id) => id
    case BoardDeletedPending(id) => id
  }

  /** `initialBoardsState`: an empty table, the first page of fifty, nothing
      loading, selected or searched, and the update modal closed. */
  function InitialBoardsState(): (s: BoardsState)
    ensures ValidTable(s.table)
    ensures s.table.ids == [] && s.table.entities == map[]
    ensures s.offset == 0 && s.limit == 50 && s.total == 0
    ensures !s.isLoading && !s.updateBoardModalOpen
    ensures s.selectedBoardId.None? && s.searchText.None?
  {
    BoardsState(EmptyTable(), 0, 50, 0, false, None, None, false)
  }

  /** The slice reducer: the state after one action. */
  function Reduce(s: BoardsState, a: BoardsAction): (r: BoardsState)
    requires KeysCached(s.table)
    ensures KeysCached(r.table)
  {
    match a
    case BoardUpserted(b) => s.(table := UpsertOne(s.table, b))
    case BoardUpdatedOne(u) => s.(table := UpdateOne(s.table, u))
    case BoardRemoved(id) => s.(table := RemoveOne(s.table, id))
    case BoardIdSelected(sel) => s.(selectedBoardId := sel)
    case SetBoardSearchText(text) => s.(searchText := Some(text))
    case SetUpdateBoardModalOpen(open) => s.(updateBoardModalOpen := open)
    case ReceivedBoardsPending => s.(isLoading := true)
    case ReceivedBoardsRejected => s.(isLoading := false)
    case ReceivedBoardsFulfilled(p) =>
      s.(isLoading := false, offset := p.offset, limit := p.limit, total := p.total,
         table := UpsertMany(s.table, p.items))
    case BoardCreatedFulfilled(b) => s.(table := UpsertOne(s.table, b))
    case BoardUpdatedFulfilled(b) => s.(table := UpsertOne(s.table, b))
    case BoardDeletedPending(id) => s.(table := RemoveOne(s.table, id))
    case Other => s
  }

  /** The state after a sequence of actions, applied one at a time. */
  function ReduceAll(s: BoardsState, acts: seq<BoardsAction>): (r: BoardsState)
    requires KeysCached(s.table)
    ensures KeysCached(r.table)
    decreases |acts|
  {
    if acts == [] then s else ReduceAll(Reduce(s, acts[0]), acts[1..])
  }

  // ---------------------------------------------------------------------
  // Selectors

  /** `selectBoardsAll`: the cached boards in `ids` order. */
  function SelectBoardsAll(s: BoardsState): (r: seq<Board>)
    requires AllIn(s.table.ids, s.table.entities)
    ensures |r| == |s.table.ids|
    ensures forall i :: 0 <= i < |r| ==> r[i] == s.table.entities[s.table.ids[i]]
    decreases |s.table.ids|
  {
    if s.table.ids == [] then []
    else
      var rest := s.(table := s.table.(ids := s.table.ids[1..]));
      assert AllIn(rest.table.ids, rest.table.entities) by {
        assert forall x :: x in s.table.ids[1..] ==> x in s.table.ids;
      }
      [s.table.entities[s.table.ids[0]]] + SelectBoardsAll(rest)
  }

  /** `selectBoardsById`: the board cached under `id`, if any. */
  function SelectBoardsById(s: BoardsState, id: string): (r: Option<Board>)
    ensures r.Some? <==> id in s.table.entities
    ensures r.Some? ==> r.value == s.table.entities[id]
  {
    if id in s.table.entities then Some(s.table.entities[id]) else None
  }

  /** `selectBoardsTotal`: how many boards are cached. */
  function SelectBoardsTotal(s: BoardsState): (n: nat)
    ensures ValidTable(s.table) ==> n == |s.table.entities|
  {
    TableSize(s.table);
    |s.table.ids|
  }

  // ---------------------------------------------------------------------
  // The table invariant holds in every reachable state

  lemma ReduceValid(s: BoardsState, a: BoardsAction)
    requires ValidTable(s.table)
    ensures ValidTable(Reduce(s, a).table)
  {
    match a
    case BoardUpserted(b) => UpsertOneValid(s.table, b);
    case BoardUpdatedOne(u) => UpdateOneValid(s.table, u);
    case BoardRemoved(id) => RemoveOneValid(s.table, id);
    case ReceivedBoardsFulfilled(p) => UpsertManyValid(s.table, p.items);
    case BoardCreatedFulfilled(b) => UpsertOneValid(s.table, b);
    case BoardUpdatedFulfilled(b) => UpsertOneValid(s.table, b);
    case BoardDeletedPending(id) => RemoveOneValid(s.table, id);
    case _ =>
  }

  lemma {:induction false} ReduceAllValid(s: BoardsState, acts: seq<BoardsAction>)
    requires ValidTable(s.table)
    ensures ValidTable(ReduceAll(s, acts).table)
    decreases |acts|
  {
    if acts != [] {
      ReduceValid(s, acts[0]);
      ReduceAllValid(Reduce(s, acts[0]), acts[1..]);
    }
  }

  /** After any sequence of events from the initial state, `ids` lists every
      cached id exactly once, newest first, each record sits under its own
      `board_id`, and the selectors agree with one another. */
  lemma Reachable(acts: seq<BoardsAction>)
    ensures var s := ReduceAll(InitialBoardsState(), acts);
            && NoDups(s.table.ids)
            && (forall k :: k in s.table.ids <==> k in s.table.entities)
            && KeyedById(s.table.entities)
            && SortedByDate(s.table.ids, s.table.entities)
            && SelectBoardsTotal(s) == |s.table.entities|
  {
    var s := ReduceAll(InitialBoardsState(), acts);
    ReduceAllValid(InitialBoardsState(), acts);
    ValidTableIds(s.table);
  }

  // ---------------------------------------------------------------------
  // Upsert events

  /** The three upsert events all run `upsertOne` on the board they carry. */
  lemma UpsertEventIsUpsertOne(s: BoardsState, a: BoardsAction)
    requires KeysCached(s.table) && IsUpsertEvent(a)
    ensures Reduce(s, a) == s.(table := UpsertOne(s.table, UpsertedBoard(a)))
  {
  }

  /** An upsert event caches its board under its `board_id` with the board's
      values, changes no other record and no other field, and adds no key
      but the board's. */
  lemma UpsertEventEffect(s: BoardsState, a: BoardsAction)
    requires KeysCached(s.table) && IsUpsertEvent(a)
    ensures var b, r := UpsertedBoard(a), Reduce(s, a);
            && r == s.(table := r.table)
            && r.table.entities.Keys == s.table.entities.Keys + {b.board_id}
            && Carries(r.table.entities[b.board_id], AsChanges(b))
            && (b.board_id !in s.table.entities ==> r.table.entities[b.board_id] == b)
            && forall k :: k in s.table.entities && k != b.board_id ==>
                 r.table.entities[k] == s.table.entities[k]
  {
    UpsertEventIsUpsertOne(s, a);
  }

  /** A board the server returns names every field the cache holds for it,
      and then upserting it leaves exactly that board in the cache. */
  lemma UpsertEventStoresBoard(s: BoardsState, a: BoardsAction)
    requires ValidTable(s.table) && IsUpsertEvent(a)
    requires UpsertedBoard(a).board_id in s.table.entities ==>
               s.table.entities[UpsertedBoard(a).board_id].fields.Keys <= UpsertedBoard(a).fields.Keys
    ensures SelectBoardsById(Reduce(s, a), UpsertedBoard(a).board_id) == Some(UpsertedBoard(a))
  {
    UpsertEventIsUpsertOne(s, a);
    UpsertOneFullRecord(s.table, UpsertedBoard(a));
  }

  /** Receiving the same board twice is receiving it once. */
  lemma UpsertEventIdempotent(s: BoardsState, a: BoardsAction)
    requires KeysCached(s.table) && IsUpsertEvent(a)
    ensures Reduce(Reduce(s, a), a) == Reduce(s, a)
  {
    UpsertEventIsUpsertOne(s, a);
    UpsertEventIsUpsertOne(Reduce(s, a), a);
    UpsertOneIdempotent(s.table, UpsertedBoard(a));
  }

  /** A new board raises the total by one; a cached one leaves it. */
  lemma UpsertEventTotal(s: BoardsState, a: BoardsAction)
    requires IdsSorted(s.table) && IsUpsertEvent(a)
    ensures SelectBoardsTotal(Reduce(s, a))
         == SelectBoardsTotal(s) + (if UpsertedBoard(a).board_id in s.table.entities then 0 else 1)
  {
    UpsertEventIsUpsertOne(s, a);
    UpsertOneCount(s.table, UpsertedBoard(a));
  }

  // ---------------------------------------------------------------------
  // updateOne and the remove events

  /** `boardUpdatedOne` on a cached id merges the changes into that record
      alone; on an id that is not cached it changes nothing. */
  lemma UpdateEventEffect(s: BoardsState, u: Update)
    requires KeysCached(s.table)
    ensures var r := Reduce(s, BoardUpdatedOne(u));
            && r == s.(table := r.table)
            && r.table.entities.Keys == s.table.entities.Keys
            && (u.id in s.table.entities ==> Carries(r.table.entities[u.id], u.changes))
            && (u.id !in s.table.entities ==> r == s)
            && forall k :: k in s.table.entities && k != u.id ==>
                 r.table.entities[k] == s.table.entities[k]
  {
  }

  /** The two remove events both run `removeOne` on the id they carry. */
  lemma RemoveEventIsRemoveOne(s: BoardsState, a: BoardsAction)
    requires KeysCached(s.table) && IsRemoveEvent(a)
    ensures Reduce(s, a) == s.(table := RemoveOne(s.table, RemovedId(a)))
  {
  }

  /** `boardRemoved` and `boardDeleted.pending` remove exactly the given id
      from the records and from `ids` and touch nothing else; an id that is
      not cached leaves the state as it was. */
  lemma RemoveEventEffect(s: BoardsState, a: BoardsAction)
    requires ValidTable(s.table) && IsRemoveEvent(a)
    ensures var id, r := RemovedId(a), Reduce(s, a);
            && r == s.(table := r.table)
            && r.table.entities == s.table.entities - {id}
            && (forall k :: k in r.table.ids <==> k in s.table.ids && k != id)
            && SelectBoardsById(r, id).None?
            && (id !in s.table.entities ==> r == s)
  {
    RemoveEventIsRemoveOne(s, a);
    if RemovedId(a) in s.table.entities {
      RemoveOneEntry(s.table, RemovedId(a));
    } else {
      ValidTableIds(s.table);
    }
  }

  /** Removing a cached board lowers the total by one. */
  lemma RemoveEventTotal(s: BoardsState, a: BoardsAction)
    requires ValidTable(s.table) && IsRemoveEvent(a) && RemovedId(a) in s.table.entities
    ensures SelectBoardsTotal(Reduce(s, a)) == SelectBoardsTotal(s) - 1
  {
    RemoveEventIsRemoveOne(s, a);
    RemoveOneEntry(s.table, RemovedId(a));
  }

  /** Deleting a board that was just created restores the state before it. */
  lemma DeleteUndoesCreate(s: BoardsState, b: Board)
    requires IdsSorted(s.table) && b.board_id !in s.table.entities
    ensures Reduce(Reduce(s, BoardCreatedFulfilled(b)), BoardDeletedPending(b.board_id)) == s
  {
    UpsertEventIsUpsertOne(s, BoardCreatedFulfilled(b));
    RemoveEventIsRemoveOne(Reduce(s, BoardCreatedFulfilled(b)), BoardDeletedPending(b.board_id));
    RemoveUndoesInsert(s.table, b);
  }

  // ---------------------------------------------------------------------
  // receivedBoards

  /** `receivedBoards.pending` sets the loading flag and nothing else;
      `receivedBoards.rejected` clears it and nothing else, so a failed fetch
      leaves the table and pagination as they were. */
  lemma LoadingLifecycle(s: BoardsState)
    requires KeysCached(s.table)
    ensures Reduce(s, ReceivedBoardsPending) == s.(isLoading := true)
    ensures Reduce(Reduce(s, ReceivedBoardsPending), ReceivedBoardsRejected) == s.(isLoading := false)
    ensures Reduce(s, ReceivedBoardsRejected) == s.(isLoading := false)
  {
  }

  /** `receivedBoards.fulfilled` runs `upsertMany` on the page's boards. */
  lemma FulfilledIsUpsertMany(s: BoardsState, p: Page)
    requires KeysCached(s.table)
    ensures Reduce(s, ReceivedBoardsFulfilled(p))
         == s.(isLoading := false, offset := p.offset, limit := p.limit, total := p.total,
               table := UpsertMany(s.table, p.items))
  {
  }

  /** `receivedBoards.fulfilled` clears the loading flag, takes `offset`,
      `limit` and `total` from the page, caches every board of the page with
      the values of its last occurrence, keeps the boards already cached that
      the page does not name, and leaves the view fields alone. */
  lemma FulfilledPage(s: BoardsState, p: Page)
    requires KeysCached(s.table)
    ensures var r := Reduce(s, ReceivedBoardsFulfilled(p));
            && !r.isLoading
            && r.offset == p.offset && r.limit == p.limit && r.total == p.total
            && r.selectedBoardId == s.selectedBoardId && r.searchText == s.searchText
            && r.updateBoardModalOpen == s.updateBoardModalOpen
            && r.table.entities.Keys == s.table.entities.Keys + IdsOf(p.items)
            && (forall i :: 0 <= i < |p.items| && LastWithId(p.items, i) ==>
                  p.items[i].board_id in r.table.entities &&
                  Carries(r.table.entities[p.items[i].board_id], AsChanges(p.items[i])))
            && forall k :: k in s.table.entities && k !in IdsOf(p.items) ==>
                 r.table.entities[k] == s.table.entities[k]
  {
    UpsertManyCovers(s.table, p.items);
  }

  /** A page whose boards have distinct ids is cached as if each board had
      arrived by itself through `boardUpserted`. */
  lemma FulfilledPageIsUpserts(s: BoardsState, p: Page)
    requires IdsSorted(s.table) && DistinctIds(p.items)
    ensures Reduce(s, ReceivedBoardsFulfilled(p)).table == UpsertEach(s.table, p.items)
  {
    FulfilledIsUpsertMany(s, p);
    UpsertManyIsSequential(s.table, p.items);
  }

  // ---------------------------------------------------------------------
  // View setters

  /** The three view setters each write their own field and nothing else. */
  lemma ViewSetters(s: BoardsState, sel: Option<string>, text: string, open: bool)
    requires KeysCached(s.table)
    ensures Reduce(s, BoardIdSelected(sel)) == s.(selectedBoardId := sel)
    ensures Reduce(s, SetBoardSearchText(text)) == s.(searchText := Some(text))
    ensures Reduce(s, SetUpdateBoardModalOpen(open)) == s.(updateBoardModalOpen := open)
  {
  }

  // ---------------------------------------------------------------------
  // What the selectors return

  /** `selectBoardsAll` lists the cached boards newest first. */
  lemma SelectAllNewestFirst(s: BoardsState)
    requires ValidTable(s.table)
    ensures AllIn(s.table.ids, s.table.entities)
    ensures var r := SelectBoardsAll(s);
            forall i, j :: 0 <= i < j < |r| ==> r[i].updated_at >= r[j].updated_at
  {
    ValidTableIds(s.table);
  }

  /** `selectBoardsAll` lists no board twice. */
  lemma SelectAllOnce(s: BoardsState)
    requires ValidTable(s.table)
    ensures AllIn(s.table.ids, s.table.entities)
    ensures var r := SelectBoardsAll(s);
            forall i, j :: 0 <= i < j < |r| ==> r[i].board_id != r[j].board_id
  {
    ValidTableIds(s.table);
    SelectAllIds(s);
  }

  /** `selectBoardsAll` lists every cached board. */
  lemma SelectAllEvery(s: BoardsState)
    requires ValidTable(s.table)
    ensures AllIn(s.table.ids, s.table.entities)
    ensures var r := SelectBoardsAll(s);
            forall k :: k in s.table.entities <==> exists i :: 0 <= i < |r| && r[i].board_id == k
  {
    ValidTableIds(s.table);
    SelectAllIds(s);
    var r := SelectBoardsAll(s);
    var ids := s.table.ids;
    forall k | k in s.table.entities
      ensures exists i :: 0 <= i < |r| && r[i].board_id == k
    {
      var i :| 0 <= i < |ids| && ids[i] == k;
      assert r[i].board_id == k;
    }
  }

  /** The boards `selectBoardsAll` lists carry the ids of `ids`, in order. */
  lemma SelectAllIds(s: BoardsState)
    requires AllIn(s.table.ids, s.table.entities) && KeyedById(s.table.entities)
    ensures var r := SelectBoardsAll(s);
            forall i :: 0 <= i < |r| ==> r[i].board_id == s.table.ids[i]
  {
  }

  /** The total counts the cached boards. */
  lemma SelectTotalCounts(s: BoardsState)
    requires ValidTable(s.table)
    ensures SelectBoardsTotal(s) == |s.table.entities|
  {
    ValidTableIds(s.table);
  }
}
