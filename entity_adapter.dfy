/**
 * The sorted entity adapter that `boardsAdapter` is built from: the table of
 * boards keyed by `board_id`, and the four operations the board reducers call
 * on it. Each operation takes the table before and gives the table after.
 *
 * The table also carries `keyOrder`, the order in which ids were first
 * written into `entities`: a JavaScript object enumerates its (non-numeric)
 * keys in that order, and the adapter re-derives `ids` by stably sorting the
 * records in that enumeration order. So `ids` is always
 * `SortByDate(keyOrder, entities)`.
 */
module EntityAdapter {
  import opened Boards
  import opened DateOrder

  datatype EntityState = EntityState(ids: seq<string>, entities: Entities, keyOrder: seq<string>)

  /** Every record is stored under its own `board_id` (the adapter's `selectId`). */
  ghost predicate KeyedById(e: Entities)
  {
    forall k :: k in e ==> e[k].board_id == k
  }

  /** The table invariant: the key order lists every key once, records sit
      under their own ids, and `ids` is the key order sorted newest first. */
  ghost predicate ValidTable(t: EntityState)
  {
    && NoDups(t.keyOrder)
    && (forall k :: k in t.keyOrder <==> k in t.entities)
    && KeyedById(t.entities)
    && t.ids == SortByDate(t.keyOrder, t.entities)
  }

  /** The empty table of `getInitialState`. */
  function EmptyTable(): (t: EntityState)
    ensures ValidTable(t)
    ensures t.ids == [] && t.entities == map[]
  {
    EntityState([], map[], [])
  }

  /** The ids of a batch of boards. */
  function IdsOf(items: seq<Board>): set<string>
    decreases |items|
  {
    if items == [] then {} else {items[0].board_id} + IdsOf(items[1..])
  }

  /** No two boards of the batch share an id. */
  ghost predicate DistinctIds(items: seq<Board>)
  {
    forall i, j :: 0 <= i < j < |items| ==> items[i].board_id != items[j].board_id
  }

  /** `items[i]` is the last board of the batch with its id. */
  ghost predicate LastWithId(items: seq<Board>, i: int)
    requires 0 <= i < |items|
  {
    forall j :: i < j < |items| ==> items[j].board_id != items[i].board_id
  }

  /**
   * The records after `upsertMany(items)`. The adapter splits the batch by
   * the ids `known` before it: a board whose id was known is shallow-merged
   * into the cached record (`Object.assign`), one whose id was not is written
   * whole, a later one with the same new id overwriting an earlier one. The
   * two kinds touch disjoint keys, so one pass in batch order gives the same
   * records as the adapter's update pass followed by its add pass.
   */
  function MergeBatch(known: set<string>, e: Entities, items: seq<Board>): (r: Entities)
    ensures r.Keys == e.Keys + IdsOf(items)
    decreases |items|
  {
    if items == [] then e
    else
      var b := items[0];
      var e' := if b.board_id in known && b.board_id in e
                then e[b.board_id := Assign(e[b.board_id], AsChanges(b))]
                else e[b.board_id := b];
      MergeBatch(known, e', items[1..])
  }

  /** The ids of `items` not in `known`, each once, in order of first appearance:
      the keys the batch adds to `entities`, in the order it adds them. */
  function NewIds(known: set<string>, items: seq<Board>): (r: seq<string>)
    ensures NoDups(r)
    ensures forall x :: x in r <==> x in IdsOf(items) && x !in known
    decreases |items|
  {
    if items == [] then []
    else if items[0].board_id in known then NewIds(known, items[1..])
    else
      var rest := NewIds(known + {items[0].board_id}, items[1..]);
      NoDupsCons(items[0].board_id, rest);
      [items[0].board_id] + rest
  }

  /** Every id of the key order has a record: what the re-sort needs. */
  ghost predicate KeysCached(t: EntityState)
  {
    AllIn(t.keyOrder, t.entities)
  }

  /** `ids` is what the adapter's re-sort makes of the key order. */
  ghost predicate IdsSorted(t: EntityState)
  {
    KeysCached(t) && t.ids == SortByDate(t.keyOrder, t.entities)
  }

  /** `upsertMany(state, items)`: merge the batch in, then re-sort. */
  function UpsertMany(t: EntityState, items: seq<Board>): (r: EntityState)
    requires KeysCached(t)
    ensures KeysCached(r)
    ensures r.entities.Keys == t.entities.Keys + IdsOf(items)
    ensures forall k :: k in t.entities && k !in IdsOf(items) ==> r.entities[k] == t.entities[k]
  {
    MergeBatchKeeps(t.entities.Keys, t.entities, items);
    var e := MergeBatch(t.entities.Keys, t.entities, items);
    var keys := t.keyOrder + NewIds(t.entities.Keys, items);
    assert AllIn(keys, e);
    EntityState(SortByDate(keys, e), e, keys)
  }

  /** `upsertOne(state, board)`: the adapter runs it as a batch of one. */
  function UpsertOne(t: EntityState, b: Board): (r: EntityState)
    requires KeysCached(t)
    ensures KeysCached(r)
    ensures r.entities
         == if b.board_id in t.entities
            then t.entities[b.board_id := Assign(t.entities[b.board_id], AsChanges(b))]
            else t.entities[b.board_id := b]
    ensures r.keyOrder
         == if b.board_id in t.entities then t.keyOrder else t.keyOrder + [b.board_id]
  {
    var k := t.entities.Keys;
    assert [b][1..] == [];
    assert MergeBatch(k, t.entities, [b])
        == if b.board_id in k
           then t.entities[b.board_id := Assign(t.entities[b.board_id], AsChanges(b))]
           else t.entities[b.board_id := b];
    assert NewIds(k, [b]) == if b.board_id in k then [] else [b.board_id];
    UpsertMany(t, [b])
  }

  /** `updateOne(state, {id, changes})`: merge the changes into a cached record
      and re-sort; an id that is not cached leaves the table as it is. */
  function UpdateOne(t: EntityState, u: Update): (r: EntityState)
    requires KeysCached(t)
    ensures KeysCached(r)
    ensures r.entities.Keys == t.entities.Keys && r.keyOrder == t.keyOrder
    ensures u.id in t.entities ==> Carries(r.entities[u.id], u.changes)
    ensures u.id in t.entities ==>
              forall f :: f in t.entities[u.id].fields && f !in u.changes.fields ==>
                f in r.entities[u.id].fields && r.entities[u.id].fields[f] == t.entities[u.id].fields[f]
    ensures forall k :: k in t.entities && k != u.id ==> r.entities[k] == t.entities[k]
    ensures u.id !in t.entities ==> r == t
  {
    if u.id in t.entities then
      var e := t.entities[u.id := Assign(t.entities[u.id], u.changes)];
      EntityState(SortByDate(t.keyOrder, e), e, t.keyOrder)
    else t
  }

  /** `removeOne(state, id)`: delete the record and keep, in their order, the
      ids that are still cached; an id that is not cached changes nothing. */
  function RemoveOne(t: EntityState, id: string): (r: EntityState)
    ensures KeysCached(t) ==> KeysCached(r)
    ensures r.entities == t.entities - {id}
    ensures id in t.entities ==> forall k :: k in r.ids <==> k in t.ids && k in t.entities && k != id
    ensures id !in t.entities ==> r == t
  {
    if id in t.entities then
      var e := t.entities - {id};
      EntityState(Filter(t.ids, e.Keys), e, Filter(t.keyOrder, e.Keys))
    else t
  }

  /** Upserting a batch one board at a time. */
  function UpsertEach(t: EntityState, items: seq<Board>): (r: EntityState)
    requires KeysCached(t)
    ensures KeysCached(r)
    decreases |items|
  {
    if items == [] then t else UpsertEach(UpsertOne(t, items[0]), items[1..])
  }

  // ---------------------------------------------------------------------
  // Every operation keeps the table invariant

  lemma UpsertManyValid(t: EntityState, items: seq<Board>)
    requires ValidTable(t)
    ensures ValidTable(UpsertMany(t, items))
  {
    var k := t.entities.Keys;
    NoDupsAppend(t.keyOrder, NewIds(k, items));
    MergeBatchKeeps(k, t.entities, items);
  }

  lemma UpsertOneValid(t: EntityState, b: Board)
    requires ValidTable(t)
    ensures ValidTable(UpsertOne(t, b))
  {
    UpsertManyValid(t, [b]);
  }

  lemma UpdateOneValid(t: EntityState, u: Update)
    requires ValidTable(t)
    ensures ValidTable(UpdateOne(t, u))
  {
  }

  lemma RemoveOneValid(t: EntityState, id: string)
    requires ValidTable(t)
    ensures ValidTable(RemoveOne(t, id))
  {
    if id in t.entities {
      var e := t.entities - {id};
      FilterNoDups(t.keyOrder, e.Keys);
      FilterSortByDate(t.keyOrder, e.Keys, t.entities);
      SortByDateAgree(Filter(t.keyOrder, e.Keys), t.entities, e);
    }
  }

  lemma NoDupsAppend(a: seq<string>, b: seq<string>)
    requires NoDups(a) && NoDups(b)
    requires forall x :: x in a ==> x !in b
    ensures NoDups(a + b)
  {
    var s := a + b;
    forall i, j | 0 <= i < j < |s| ensures s[i] != s[j] {
      if j < |a| {
        assert s[i] == a[i] && s[j] == a[j];
      } else if i >= |a| {
        assert s[i] == b[i - |a|] && s[j] == b[j - |a|];
      } else {
        assert s[i] == a[i] && s[j] == b[j - |a|];
        assert b[j - |a|] in b;
      }
    }
  }

  /** The merge writes each board under its own id and touches no record
      the batch does not name. */
  lemma {:induction false} MergeBatchKeeps(known: set<string>, e: Entities, items: seq<Board>)
    ensures KeyedById(e) ==> KeyedById(MergeBatch(known, e, items))
    ensures forall k :: k in e && k !in IdsOf(items) ==> MergeBatch(known, e, items)[k] == e[k]
    decreases |items|
  {
    if items != [] {
      var b := items[0];
      var e' := if b.board_id in known && b.board_id in e
                then e[b.board_id := Assign(e[b.board_id], AsChanges(b))]
                else e[b.board_id := b];
      MergeBatchKeeps(known, e', items[1..]);
    }
  }

  lemma {:induction false} IdsOfIndex(items: seq<Board>, x: string)
    ensures x in IdsOf(items) <==> exists j :: 0 <= j < |items| && items[j].board_id == x
    decreases |items|
  {
    if items != [] {
      IdsOfIndex(items[1..], x);
      if exists j :: 0 <= j < |items| && items[j].board_id == x {
        var j :| 0 <= j < |items| && items[j].board_id == x;
        if j > 0 {
          assert items[1..][j - 1].board_id == x;
        }
      }
      if exists j :: 0 <= j < |items[1..]| && items[1..][j].board_id == x {
        var j :| 0 <= j < |items[1..]| && items[1..][j].board_id == x;
        assert items[j + 1].board_id == x;
      }
    }
  }

  lemma FilterKeepsAll(s: seq<string>, keep: set<string>)
    requires forall x :: x in s ==> x in keep
    ensures Filter(s, keep) == s
    decreases |s|
  {
    if s != [] {
      assert forall x :: x in s[1..] ==> x in s;
      FilterKeepsAll(s[1..], keep);
      assert s == [s[0]] + s[1..];
    }
  }

  // ---------------------------------------------------------------------
  // What the table invariant gives a reader of `ids`

  /** `ids` holds every cached id exactly once, newest first, and is as long
      as the table is large. */
  lemma ValidTableIds(t: EntityState)
    requires ValidTable(t)
    ensures NoDups(t.ids)
    ensures forall k :: k in t.ids <==> k in t.entities
    ensures SortedByDate(t.ids, t.entities)
    ensures |t.ids| == |t.entities|
  {
    SortByDateSorted(t.keyOrder, t.entities);
    SortByDateNoDups(t.keyOrder, t.entities);
    assert forall k :: k in t.ids <==> k in multiset(t.keyOrder);
    NoDupsCard(t.ids);
    assert (set x | x in t.ids) == t.entities.Keys;
  }

  /** Under the invariant, `ids` is as long as the table is large. */
  lemma TableSize(t: EntityState)
    ensures ValidTable(t) ==> |t.ids| == |t.entities|
  {
    if ValidTable(t) {
      ValidTableIds(t);
    }
  }

  // ---------------------------------------------------------------------
  // upsertMany / upsertOne

  /** The last board of a batch with a given id is what its record holds
      afterwards; a record new to the batch is exactly that board. */
  lemma {:induction false} MergeBatchLast(known: set<string>, e: Entities, items: seq<Board>, i: int)
    requires 0 <= i < |items| && LastWithId(items, i)
    ensures items[i].board_id in MergeBatch(known, e, items)
    ensures Carries(MergeBatch(known, e, items)[items[i].board_id], AsChanges(items[i]))
    ensures items[i].board_id !in known ==> MergeBatch(known, e, items)[items[i].board_id] == items[i]
    decreases |items|
  {
    var b := items[0];
    var e' := if b.board_id in known && b.board_id in e
              then e[b.board_id := Assign(e[b.board_id], AsChanges(b))]
              else e[b.board_id := b];
    assert MergeBatch(known, e, items) == MergeBatch(known, e', items[1..]);
    if i == 0 {
      var id := b.board_id;
      MergeBatchKeeps(known, e', items[1..]);
      assert id !in IdsOf(items[1..]) by {
        IdsOfIndex(items[1..], id);
        assert forall j :: 0 <= j < |items[1..]| ==> items[1..][j] == items[j + 1];
      }
    } else {
      assert LastWithId(items[1..], i - 1) by {
        forall j | i - 1 < j < |items[1..]| ensures items[1..][j].board_id != items[1..][i - 1].board_id {
          assert items[1..][j] == items[j + 1];
        }
      }
      MergeBatchLast(known, e', items[1..], i - 1);
    }
  }

  /** `upsertMany`: every board of the batch is cached afterwards with the
      values of its last occurrence, records the batch does not name are kept
      unchanged, and nothing else is added. */
  lemma UpsertManyCovers(t: EntityState, items: seq<Board>)
    requires KeysCached(t)
    ensures var r := UpsertMany(t, items).entities;
            && r.Keys == t.entities.Keys + IdsOf(items)
            && (forall k :: k in t.entities && k !in IdsOf(items) ==> r[k] == t.entities[k])
            && forall i :: 0 <= i < |items| && LastWithId(items, i) ==>
                 items[i].board_id in r && Carries(r[items[i].board_id], AsChanges(items[i]))
  {
    var r := MergeBatch(t.entities.Keys, t.entities, items);
    assert UpsertMany(t, items).entities == r;
    MergeBatchKeeps(t.entities.Keys, t.entities, items);
    forall i | 0 <= i < |items| && LastWithId(items, i)
      ensures items[i].board_id in r && Carries(r[items[i].board_id], AsChanges(items[i]))
    {
      MergeBatchLast(t.entities.Keys, t.entities, items, i);
    }
  }

  /** When the board names every field of the cached record (as a board the
      server returns does), upsert leaves exactly that board in the table. */
  lemma UpsertOneFullRecord(t: EntityState, b: Board)
    requires ValidTable(t)
    requires b.board_id in t.entities ==> t.entities[b.board_id].fields.Keys <= b.fields.Keys
    ensures UpsertOne(t, b).entities[b.board_id] == b
  {
    if b.board_id in t.entities {
      AssignFullRecord(t.entities[b.board_id], b);
    }
  }

  /** Upserting a board the table already holds, field for field, changes
      nothing. */
  lemma UpsertOneUnchanged(t: EntityState, b: Board)
    requires IdsSorted(t) && b.board_id in t.entities
    requires Assign(t.entities[b.board_id], AsChanges(b)) == t.entities[b.board_id]
    ensures UpsertOne(t, b) == t
  {
    assert UpsertOne(t, b).entities == t.entities;
  }

  /** Upserting the same board twice leaves the table as upserting it once. */
  lemma UpsertOneIdempotent(t: EntityState, b: Board)
    requires KeysCached(t)
    ensures UpsertOne(UpsertOne(t, b), b) == UpsertOne(t, b)
  {
    var t1 := UpsertOne(t, b);
    var id := b.board_id;
    if id in t.entities {
      AssignIdempotent(t.entities[id], AsChanges(b));
    } else {
      AssignFullRecord(b, b);
    }
    UpsertOneUnchanged(t1, b);
  }

  /** Upsert adds one id to `ids` when the board is new and none otherwise. */
  lemma UpsertOneCount(t: EntityState, b: Board)
    requires IdsSorted(t)
    ensures |UpsertOne(t, b).ids| == |t.ids| + (if b.board_id in t.entities then 0 else 1)
  {
  }

  /** For an id already cached, upsert is `updateOne` with the whole board. */
  lemma UpsertCachedIsUpdate(t: EntityState, b: Board)
    requires KeysCached(t) && b.board_id in t.entities
    ensures UpsertOne(t, b) == UpdateOne(t, Update(b.board_id, AsChanges(b)))
  {
    var t1 := UpsertOne(t, b);
    var t2 := UpdateOne(t, Update(b.board_id, AsChanges(b)));
    assert t1.entities == t2.entities;
    assert t1.keyOrder == t2.keyOrder;
    assert t1.ids == t2.ids;
  }

  lemma {:induction false} MergeBatchKnown(k1: set<string>, k2: set<string>, e: Entities, items: seq<Board>)
    requires forall x :: x in IdsOf(items) ==> (x in k1 <==> x in k2)
    ensures MergeBatch(k1, e, items) == MergeBatch(k2, e, items)
    decreases |items|
  {
    if items != [] {
      MergeBatchKnown(k1, k2, e[items[0].board_id := items[0]], items[1..]);
      if items[0].board_id in e {
        MergeBatchKnown(k1, k2, e[items[0].board_id := Assign(e[items[0].board_id], AsChanges(items[0]))], items[1..]);
      }
    }
  }

  /** The first board of a batch whose id the rest does not repeat lands in
      the records as a batch of one would put it. */
  lemma StepRecords(k: set<string>, e: Entities, items: seq<Board>)
    requires k == e.Keys && items != [] && items[0].board_id !in IdsOf(items[1..])
    ensures MergeBatch(k, e, items)
         == MergeBatch(k + {items[0].board_id}, MergeBatch(k, e, [items[0]]), items[1..])
  {
    var e1 := MergeBatch(k, e, [items[0]]);
    assert [items[0]][1..] == [];
    MergeBatchKnown(k, k + {items[0].board_id}, e1, items[1..]);
  }

  /** ... and its id, when new, is the first key the batch adds. */
  lemma StepKeys(keyOrder: seq<string>, k: set<string>, items: seq<Board>)
    requires items != []
    ensures keyOrder + NewIds(k, items)
         == (keyOrder + NewIds(k, [items[0]])) + NewIds(k + {items[0].board_id}, items[1..])
  {
    var id, rest := items[0].board_id, items[1..];
    var one := [items[0]];
    assert one[0] == items[0] && one[1..] == [];
    if id in k {
      assert NewIds(k, one) == [] && NewIds(k, items) == NewIds(k, rest);
      assert k + {id} == k;
      assert keyOrder + [] == keyOrder;
    } else {
      assert NewIds(k, one) == [id] + NewIds(k + {id}, []) == [id];
      assert NewIds(k, items) == [id] + NewIds(k + {id}, rest);
      assert keyOrder + ([id] + NewIds(k + {id}, rest)) == (keyOrder + [id]) + NewIds(k + {id}, rest);
    }
  }

  lemma UpsertManyStep(t: EntityState, items: seq<Board>)
    requires KeysCached(t) && items != [] && items[0].board_id !in IdsOf(items[1..])
    ensures UpsertMany(t, items) == UpsertMany(UpsertOne(t, items[0]), items[1..])
  {
    var k := t.entities.Keys;
    var t1 := UpsertOne(t, items[0]);
    assert t1.entities == MergeBatch(k, t.entities, [items[0]]);
    assert t1.keyOrder == t.keyOrder + NewIds(k, [items[0]]);
    assert t1.entities.Keys == k + {items[0].board_id};
    StepRecords(k, t.entities, items);
    StepKeys(t.keyOrder, k, items);
  }

  /** Batch equivalence: when no two boards of the batch share an id,
      `upsertMany` gives the same table as upserting them one by one. */
  lemma {:induction false} UpsertManyIsSequential(t: EntityState, items: seq<Board>)
    requires IdsSorted(t)
    requires DistinctIds(items)
    ensures UpsertMany(t, items) == UpsertEach(t, items)
    decreases |items|
  {
    if items == [] {
      assert NewIds(t.entities.Keys, items) == [];
      assert t.keyOrder + [] == t.keyOrder;
    } else {
      var rest := items[1..];
      assert DistinctIds(rest) by {
        forall i, j | 0 <= i < j < |rest| ensures rest[i].board_id != rest[j].board_id {
          assert rest[i] == items[i + 1] && rest[j] == items[j + 1];
        }
      }
      assert items[0].board_id !in IdsOf(rest) by {
        IdsOfIndex(rest, items[0].board_id);
        assert forall j :: 0 <= j < |rest| ==> rest[j] == items[j + 1];
      }
      UpsertManyStep(t, items);
      UpsertManyIsSequential(UpsertOne(t, items[0]), rest);
      assert UpsertEach(t, items) == UpsertEach(UpsertOne(t, items[0]), rest);
    }
  }

  // ---------------------------------------------------------------------
  // updateOne

  /** Applying the same update twice is applying it once. */
  lemma UpdateOneIdempotent(t: EntityState, u: Update)
    requires KeysCached(t)
    ensures UpdateOne(UpdateOne(t, u), u) == UpdateOne(t, u)
  {
    if u.id in t.entities {
      AssignIdempotent(t.entities[u.id], u.changes);
      assert UpdateOne(UpdateOne(t, u), u).entities == UpdateOne(t, u).entities;
    }
  }

  // ---------------------------------------------------------------------
  // removeOne

  /** `removeOne` on a cached id drops exactly that id from the records, the
      key order and `ids`, and leaves every other record as it was. */
  lemma RemoveOneEntry(t: EntityState, id: string)
    requires ValidTable(t) && id in t.entities
    ensures RemoveOne(t, id).entities == t.entities - {id}
    ensures forall k :: k in RemoveOne(t, id).ids <==> k in t.ids && k != id
    ensures |RemoveOne(t, id).ids| == |t.ids| - 1
  {
    var r := RemoveOne(t, id);
    ValidTableIds(t);
    RemoveOneValid(t, id);
    ValidTableIds(r);
  }

  /** Removing a board that was just added restores the table it was added to. */
  lemma RemoveUndoesInsert(t: EntityState, b: Board)
    requires IdsSorted(t) && b.board_id !in t.entities
    ensures RemoveOne(UpsertOne(t, b), b.board_id) == t
  {
    var id := b.board_id;
    var t1 := UpsertOne(t, b);
    assert t1.entities - {id} == t.entities;
    assert IdsSorted(t1);
    RemoveAfterAddRecords(t, t1, id);
    RemoveAfterAddIds(t, t1, id);
    var r := RemoveOne(t1, id);
    assert r.ids == t.ids && r.entities == t.entities && r.keyOrder == t.keyOrder;
  }

  lemma RemoveAfterAddRecords(t: EntityState, t1: EntityState, id: string)
    requires KeysCached(t) && id !in t.entities && id in t1.entities
    requires t1.entities - {id} == t.entities && t1.keyOrder == t.keyOrder + [id]
    ensures RemoveOne(t1, id).entities == t.entities
    ensures RemoveOne(t1, id).keyOrder == t.keyOrder
  {
    var keep := t.entities.Keys;
    FilterAppend(t.keyOrder, id, keep);
    FilterKeepsAll(t.keyOrder, keep);
  }

  lemma RemoveAfterAddIds(t: EntityState, t1: EntityState, id: string)
    requires IdsSorted(t) && IdsSorted(t1) && id !in t.entities && id in t1.entities
    requires t1.entities - {id} == t.entities && t1.keyOrder == t.keyOrder + [id]
    ensures RemoveOne(t1, id).ids == t.ids
  {
    var keep := t.entities.Keys;
    assert (t1.entities - {id}).Keys == keep;
    assert RemoveOne(t1, id).ids == Filter(t1.ids, keep);
    FilterSortByDate(t1.keyOrder, keep, t1.entities);
    FilterAppend(t.keyOrder, id, keep);
    FilterKeepsAll(t.keyOrder, keep);
    assert Filter(t1.keyOrder, keep) == t.keyOrder;
    assert forall x :: x in t.keyOrder ==> x in t.entities && x != id;
    SortByDateAgree(t.keyOrder, t1.entities, t.entities);
  }
}
