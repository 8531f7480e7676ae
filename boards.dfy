/**
 * Board records as the board cache stores them, and the shallow merge the
 * entity adapter applies when a record with a known id arrives again.
 */
module Boards {

  datatype Option<+T> = None | Some(value: T)

  /** Every field of a board other than its id and its timestamp, by name.
      The cache never looks inside them. */
  type Fields = map<string, string>

  /** A board: `board_id` keys it in the cache, `updated_at` orders it. */
  datatype Board = Board(board_id: string, updated_at: int, fields: Fields)

  /** The changes of an update: what is present overwrites the record, what
      is absent is kept. Changes that alter `board_id` are not modelled. */
  datatype BoardChanges = BoardChanges(updated_at: Option<int>, fields: Fields)

  /** The payload of `updateOne`: the id of the record and its changes. */
  datatype Update = Update(id: string, changes: BoardChanges)

  /** A whole board handed to the merge, as upsert does. */
  function AsChanges(b: Board): BoardChanges
  {
    BoardChanges(Some(b.updated_at), b.fields)
  }

  /** `r` holds every value that `c` sets. */
  predicate Carries(r: Board, c: BoardChanges)
  {
    && (c.updated_at.Some? ==> r.updated_at == c.updated_at.value)
    && forall f :: f in c.fields ==> f in r.fields && r.fields[f] == c.fields[f]
  }

  /** `Object.assign(record, changes)`: a shallow merge onto the record. */
  function Assign(b: Board, c: BoardChanges): (r: Board)
    ensures r.board_id == b.board_id
    ensures Carries(r, c)
    ensures r.fields.Keys == b.fields.Keys + c.fields.Keys
    ensures c.updated_at.None? ==> r.updated_at == b.updated_at
    ensures forall f :: f in b.fields && f !in c.fields ==> r.fields[f] == b.fields[f]
  {
    Board(b.board_id, if c.updated_at.Some? then c.updated_at.value else b.updated_at, b.fields + c.fields)
  }

  /** Merging the same changes twice is merging them once. */
  lemma AssignIdempotent(b: Board, c: BoardChanges)
    ensures Assign(Assign(b, c), c) == Assign(b, c)
  {
    var once := Assign(b, c);
    assert once.fields + c.fields == once.fields;
  }

  /** A record that names every field the cached one has replaces it
      entirely: the shallow merge then leaves nothing of the old record. */
  lemma AssignFullRecord(cached: Board, b: Board)
    requires cached.board_id == b.board_id
    requires cached.fields.Keys <= b.fields.Keys
    ensures Assign(cached, AsChanges(b)) == b
  {
    assert cached.fields + b.fields == b.fields;
  }
}
