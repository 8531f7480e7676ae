/**
 * The `boards` slice as the store holds it: one object whose fields the
 * reducer cases assign in place, one method per case. Each method is proved
 * against `Reduce`, so every lemma about `Reduce` holds of the object too,
 * and each keeps the table invariant.
 */
module BoardsStore {
  import opened Boards
  import opened EntityAdapter
  import opened BoardSlice

  class BoardsSliceState {
    // the adapter's table
    var ids: seq<string>
    var entities: map<string, Board>
    var keyOrder: seq<string>
    // AdditionalBoardsState
    var offset: int
    var limit: int
    var total: int
    var isLoading: bool
    var selectedBoardId: Option<string>
    var searchText: Option<string>
    var updateBoardModalOpen: bool

    function Table(): EntityState
      reads this
    {
      EntityState(ids, entities, keyOrder)
    }

    /** The state value the fields hold. */
    function State(): BoardsState
      reads this
    {
      BoardsState(Table(), offset, limit, total, isLoading, selectedBoardId, searchText,
                  updateBoardModalOpen)
    }

    ghost predicate Valid()
      reads this
    {
      ValidTable(Table())
    }

    /** The slice's `initialBoardsState`. */
    constructor ()
      ensures Valid()
      ensures State() == InitialBoardsState()
    {
      ids, entities, keyOrder := [], map[], [];
      offset, limit, total := 0, 50, 0;
      isLoading := false;
      selectedBoardId, searchText := None, None;
      updateBoardModalOpen := false;
    }

    /** Writes the adapter's new table into the three table fields. */
    method SetTable(t: EntityState)
      modifies this
      ensures Table() == t
      ensures State() == old(State()).(table := t)
    {
      ids, entities, keyOrder := t.ids, t.entities, t.keyOrder;
    }

    /** Clears the loading flag and takes the pagination fields of a page. */
    method SetPage(p: Page)
      modifies this
      ensures State() == old(State()).(isLoading := false, offset := p.offset, limit := p.limit, total := p.total)
    {
      isLoading := false;
      offset, limit, total := p.offset, p.limit, p.total;
    }

    method BoardUpserted(b: Board)
      requires Valid()
      modifies this
      ensures Valid()
      ensures State() == Reduce(old(State()), BoardsAction.BoardUpserted(b))
    {
      UpsertEventIsUpsertOne(State(), BoardsAction.BoardUpserted(b));
      UpsertOneValid(Table(), b);
      SetTable(UpsertOne(Table(), b));
    }

    method BoardUpdatedOne(u: Update)
      requires Valid()
      modifies this
      ensures Valid()
      ensures State() == Reduce(old(State()), BoardsAction.BoardUpdatedOne(u))
    {
      UpdateOneValid(Table(), u);
      SetTable(UpdateOne(Table(), u));
    }

    method BoardRemoved(id: string)
      requires Valid()
      modifies this
      ensures Valid()
      ensures State() == Reduce(old(State()), BoardsAction.BoardRemoved(id))
    {
      RemoveEventIsRemoveOne(State(), BoardsAction.BoardRemoved(id));
      RemoveOneValid(Table(), id);
      SetTable(RemoveOne(Table(), id));
    }

    method BoardIdSelected(sel: Option<string>)
      modifies this
      ensures Table() == old(Table())
      ensures State() == old(State()).(selectedBoardId := sel)
    {
      selectedBoardId := sel;
    }

    method SetBoardSearchText(text: string)
      modifies this
      ensures Table() == old(Table())
      ensures State() == old(State()).(searchText := Some(text))
    {
      searchText := Some(text);
    }

    method SetUpdateBoardModalOpen(open: bool)
      modifies this
      ensures Table() == old(Table())
      ensures State() == old(State()).(updateBoardModalOpen := open)
    {
      updateBoardModalOpen := open;
    }

    method ReceivedBoardsPending()
      modifies this
      ensures Table() == old(Table())
      ensures State() == old(State()).(isLoading := true)
    {
      isLoading := true;
    }

    method ReceivedBoardsRejected()
      modifies this
      ensures Table() == old(Table())
      ensures State() == old(State()).(isLoading := false)
    {
      isLoading := false;
    }

    method ReceivedBoardsFulfilled(p: Page)
      requires Valid()
      modifies this
      ensures Valid()
      ensures State() == Reduce(old(State()), BoardsAction.ReceivedBoardsFulfilled(p))
    {
      FulfilledIsUpsertMany(State(), p);
      UpsertManyValid(Table(), p.items);
      var t := UpsertMany(Table(), p.items);
      SetPage(p);
      SetTable(t);
    }

    method BoardCreatedFulfilled(b: Board)
      requires Valid()
      modifies this
      ensures Valid()
      ensures State() == Reduce(old(State()), BoardsAction.BoardCreatedFulfilled(b))
    {
      UpsertEventIsUpsertOne(State(), BoardsAction.BoardCreatedFulfilled(b));
      UpsertOneValid(Table(), b);
      SetTable(UpsertOne(Table(), b));
    }

    method BoardUpdatedFulfilled(b: Board)
      requires Valid()
      modifies this
      ensures Valid()
      ensures State() == Reduce(old(State()), BoardsAction.BoardUpdatedFulfilled(b))
    {
      UpsertEventIsUpsertOne(State(), BoardsAction.BoardUpdatedFulfilled(b));
      UpsertOneValid(Table(), b);
      SetTable(UpsertOne(Table(), b));
    }

    method BoardDeletedPending(id: string)
      requires Valid()
      modifies this
      ensures Valid()
      ensures State() == Reduce(old(State()), BoardsAction.BoardDeletedPending(id))
    {
      RemoveEventIsRemoveOne(State(), BoardsAction.BoardDeletedPending(id));
      RemoveOneValid(Table(), id);
      SetTable(RemoveOne(Table(), id));
    }

    /** The reducer: hand the action to its case; an action the slice does
        not handle leaves every field as it was. */
    method Dispatch(a: BoardsAction)
      requires Valid()
      modifies this
      ensures Valid()
      ensures State() == Reduce(old(State()), a)
    {
      match a
      case BoardUpserted(b) => BoardUpserted(b);
      case BoardUpdatedOne(u) => BoardUpdatedOne(u);
      case BoardRemoved(id) => BoardRemoved(id);
      case BoardIdSelected(sel) => BoardIdSelected(sel);
      case SetBoardSearchText(text) => SetBoardSearchText(text);
      case SetUpdateBoardModalOpen(open) => SetUpdateBoardModalOpen(open);
      case ReceivedBoardsPending => ReceivedBoardsPending();
      case ReceivedBoardsRejected => ReceivedBoardsRejected();
      case ReceivedBoardsFulfilled(p) => ReceivedBoardsFulfilled(p);
      case BoardCreatedFulfilled(b) => BoardCreatedFulfilled(b);
      case BoardUpdatedFulfilled(b) => BoardUpdatedFulfilled(b);
      case BoardDeletedPending(id) => BoardDeletedPending(id);
      case Other =>
    }

    /** `selectBoardsAll` on the current fields. */
    function SelectAll(): (r: seq<Board>)
      reads this
      requires Valid()
      ensures |r| == |ids|
      ensures forall i, j :: 0 <= i < j < |r| ==> r[i].updated_at >= r[j].updated_at
      ensures forall i :: 0 <= i < |r| ==> ids[i] in entities && r[i] == entities[ids[i]] && r[i].board_id == ids[i]
    {
      SelectAllNewestFirst(State());
      ValidTableIds(Table());
      SelectBoardsAll(State())
    }

    /** `selectBoardsById` on the current fields. */
    function SelectById(id: string): (r: Option<Board>)
      reads this
      requires Valid()
      ensures r.Some? <==> id in ids
      ensures r.Some? ==> id in entities && r.value == entities[id] && r.value.board_id == id
    {
      ValidTableIds(Table());
      SelectBoardsById(State(), id)
    }

    /** `selectBoardsTotal` on the current fields. */
    function SelectTotal(): (n: nat)
      reads this
      requires Valid()
      ensures n == |entities|
    {
      SelectTotalCounts(State());
      SelectBoardsTotal(State())
    }
  }
}
