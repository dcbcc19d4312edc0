/** Streaming the catalogue to a client in chunks, and the map the client builds from them. */
module Catalogue {
  import opened Common

  /** A row by its id, version and position in the catalogue, with everything else it says. */
  datatype Row = Row(id: string, data: string)

  // ---- configuration ----

  function AtLeastOne(n: int): nat { if n > 1 then n else 1 }

  function ChunkSize(configured: Option<int>): nat { AtLeastOne(if configured.Some? then configured.value else 4000) }

  function FirstChunkSize(first: Option<int>, configured: Option<int>): nat {
    AtLeastOne(if first.Some? then first.value else ChunkSize(configured))
  }

  // ---- the server ----

  function Min(a: nat, b: nat): nat { if a < b then a else b }

  /** The rows a SELECT with LIMIT and OFFSET yields, in a fixed row order. */
  function FetchEntries(rows: seq<Row>, limit: nat, offset: nat): seq<Row> {
    rows[Min(offset, |rows|)..Min(offset + limit, |rows|)]
  }

  /** The messages __load_next_chunk publishes from an offset on; after the last one it publishes nothing more. */
  function Chunks(rows: seq<Row>, count: nat, limit: nat, size: nat, offset: nat): seq<seq<Row>>
    requires limit >= 1 && size >= 1
    decreases count - offset
  {
    if offset >= count then []
    else [FetchEntries(rows, limit, offset)] + Chunks(rows, count, size, size, offset + limit)
  }

  function Stream(rows: seq<Row>, count: nat, first: Option<int>, configured: Option<int>): seq<seq<Row>> {
    Chunks(rows, count, FirstChunkSize(first, configured), ChunkSize(configured), 0)
  }

  function Flatten(chunks: seq<seq<Row>>): seq<Row> { if chunks == [] then [] else chunks[0] + Flatten(chunks[1..]) }

  /** From an offset on, the chunks are the rows from there on, none missed or repeated, and none of them is empty. */
  lemma {:induction false} ChunksPartition(rows: seq<Row>, limit: nat, size: nat, offset: nat)
    requires limit >= 1 && size >= 1 && offset <= |rows|
    ensures Flatten(Chunks(rows, |rows|, limit, size, offset)) == rows[offset..]
    ensures forall k :: 0 <= k < |Chunks(rows, |rows|, limit, size, offset)| ==>
        Chunks(rows, |rows|, limit, size, offset)[k] != []
    decreases |rows| - offset
  {
    if offset < |rows| {
      var end := Min(offset + limit, |rows|);
      var rest := Chunks(rows, |rows|, size, size, offset + limit);
      if offset + limit <= |rows| {
        ChunksPartition(rows, size, size, offset + limit);
      } else {
        assert rest == [] && rows[end..] == [];
      }
      assert ([rows[offset..end]] + rest)[1..] == rest;
      assert rows[offset..] == rows[offset..end] + rows[end..];
    }
  }

  /** Whatever the configured sizes, the stream holds every row once, in order. */
  lemma {:induction false} StreamIsComplete(rows: seq<Row>, first: Option<int>, configured: Option<int>)
    ensures Flatten(Stream(rows, |rows|, first, configured)) == rows
  {
    ChunksPartition(rows, FirstChunkSize(first, configured), ChunkSize(configured), 0);
    assert rows[0..] == rows;
  }

  /** Where the k-th chunk from an offset on starts. */
  function StartOf(limit: nat, size: nat, offset: nat, k: nat): nat {
    if k == 0 then offset else offset + limit + (k - 1) * size
  }

  lemma {:induction false} StartShifts(limit: nat, size: nat, offset: nat, k: nat)
    requires k > 0
    ensures StartOf(limit, size, offset, k) == StartOf(size, size, offset + limit, k - 1)
  {
    assert k >= 2 ==> (k - 1) * size == size + (k - 2) * size;
  }

  /** The k-th chunk starts where the sizes say, and holds as many rows as its size allows. */
  lemma {:induction false} ChunkAt(rows: seq<Row>, limit: nat, size: nat, offset: nat, k: nat)
    requires limit >= 1 && size >= 1 && k < |Chunks(rows, |rows|, limit, size, offset)|
    ensures StartOf(limit, size, offset, k) < |rows|
    ensures Chunks(rows, |rows|, limit, size, offset)[k] ==
        FetchEntries(rows, if k == 0 then limit else size, StartOf(limit, size, offset, k))
    decreases k
  {
    if k > 0 {
      ChunkAt(rows, size, size, offset + limit, k - 1);
      StartShifts(limit, size, offset, k);
    }
  }

  // ---- the client ----

  /** Rows by id, a later one replacing an earlier one. */
  function ById(rows: seq<Row>): map<string, Row> {
    if rows == [] then map[] else ById(rows[..|rows| - 1])[rows[|rows| - 1].id := rows[|rows| - 1]]
  }

  /** loadEntries: what was there of another version is dropped, and the new rows are merged in. */
  function LoadEntries(prefix: string, entries: map<string, Row>, chunk: seq<Row>): map<string, Row> {
    (map id | id in entries && prefix <= id :: entries[id]) + ById(chunk)
  }

  /** Chunks applied in the order they are delivered. */
  function Deliver(prefix: string, entries: map<string, Row>, chunks: seq<seq<Row>>, order: seq<nat>): map<string, Row>
    requires forall i :: 0 <= i < |order| ==> order[i] < |chunks|
  {
    if order == [] then entries
    else LoadEntries(prefix, Deliver(prefix, entries, chunks, order[..|order| - 1]), chunks[order[|order| - 1]])
  }

  predicate DistinctIds(rows: seq<Row>) { forall i, j :: 0 <= i < j < |rows| ==> rows[i].id != rows[j].id }

  predicate Versioned(prefix: string, rows: seq<Row>) { forall i :: 0 <= i < |rows| ==> prefix <= rows[i].id }

  lemma {:induction false} ByIdIs(rows: seq<Row>)
    requires DistinctIds(rows)
    ensures forall id :: id in ById(rows) <==> exists i :: 0 <= i < |rows| && rows[i].id == id
    ensures forall i :: 0 <= i < |rows| ==> rows[i].id in ById(rows) && ById(rows)[rows[i].id] == rows[i]
  {
    if rows != [] {
      var front, last := rows[..|rows| - 1], rows[|rows| - 1];
      ByIdIs(front);
      forall id
        ensures id in ById(rows) <==> exists i :: 0 <= i < |rows| && rows[i].id == id
      {
        if id in ById(front) {
          var i :| 0 <= i < |front| && front[i].id == id;
          assert rows[i].id == id;
        }
        if i :| 0 <= i < |rows| && rows[i].id == id { assert i == |front| || front[i].id == id; }
        assert last.id in ById(rows) && rows[|front|].id == last.id;
      }
      forall i | 0 <= i < |rows|
        ensures rows[i].id in ById(rows) && ById(rows)[rows[i].id] == rows[i]
      {
        if i < |front| { assert front[i] == rows[i] && rows[i].id != rows[|front|].id; }
      }
    }
  }

  /** A chunk found in a longer sequence of rows. */
  predicate PartOf(chunk: seq<Row>, start: nat, rows: seq<Row>) {
    start + |chunk| <= |rows| && rows[start..start + |chunk|] == chunk
  }

  lemma {:induction false} ShiftPart(chunk: seq<Row>, start: nat, rows: seq<Row>, front: seq<Row>)
    requires PartOf(chunk, start, rows)
    ensures PartOf(chunk, |front| + start, front + rows)
  {
  }

  lemma {:induction false} FlattenAt(chunks: seq<seq<Row>>, k: nat) returns (start: nat)
    requires k < |chunks|
    ensures PartOf(chunks[k], start, Flatten(chunks))
    decreases k
  {
    if k == 0 {
      start := 0;
    } else {
      var s := FlattenAt(chunks[1..], k - 1);
      ShiftPart(chunks[k], s, Flatten(chunks[1..]), chunks[0]);
      start := |chunks[0]| + s;
    }
  }

  lemma {:induction false} ChunkOf(chunks: seq<seq<Row>>, j: nat) returns (k: nat, i: nat)
    requires j < |Flatten(chunks)|
    ensures k < |chunks| && i < |chunks[k]| && chunks[k][i] == Flatten(chunks)[j]
    decreases chunks
  {
    if j < |chunks[0]| {
      k, i := 0, j;
    } else {
      var k', i' := ChunkOf(chunks[1..], j - |chunks[0]|);
      k, i := k' + 1, i';
    }
  }

  lemma {:induction false} PartAt(chunk: seq<Row>, start: nat, rows: seq<Row>, i: nat)
    requires PartOf(chunk, start, rows) && i < |chunk|
    ensures rows[start + i] == chunk[i]
  {
    assert rows[start..start + |chunk|][i] == chunk[i];
  }

  /** A chunk's map is a part of the map of all rows. */
  lemma {:induction false} ChunkIsPart(chunks: seq<seq<Row>>, k: nat, id: string)
    requires DistinctIds(Flatten(chunks)) && k < |chunks|
    ensures id in ById(chunks[k]) ==> id in ById(Flatten(chunks)) && ById(chunks[k])[id] == ById(Flatten(chunks))[id]
  {
    var all, chunk := Flatten(chunks), chunks[k];
    var start := FlattenAt(chunks, k);
    forall a, b | 0 <= a < b < |chunk|
      ensures chunk[a].id != chunk[b].id
    {
      PartAt(chunk, start, all, a);
      PartAt(chunk, start, all, b);
    }
    ByIdIs(chunk);
    ByIdIs(all);
    if id in ById(chunk) {
      var i :| 0 <= i < |chunk| && chunk[i].id == id;
      PartAt(chunk, start, all, i);
    }
  }

  /** Every row's id is in the map of one of the chunks. */
  lemma {:induction false} EveryIdIsSent(chunks: seq<seq<Row>>, id: string) returns (k: nat)
    requires DistinctIds(Flatten(chunks)) && id in ById(Flatten(chunks))
    ensures k < |chunks| && id in ById(chunks[k])
  {
    var all := Flatten(chunks);
    ByIdIs(all);
    var j :| 0 <= j < |all| && all[j].id == id;
    var i: nat;
    k, i := ChunkOf(chunks, j);
    ByIdHas(chunks[k], i);
  }

  lemma {:induction false} ByIdHas(rows: seq<Row>, i: nat)
    requires i < |rows|
    ensures rows[i].id in ById(rows)
  {
    if i < |rows| - 1 { ByIdHas(rows[..|rows| - 1], i); }
  }

  lemma {:induction false} IdsAreVersioned(prefix: string, rows: seq<Row>, id: string)
    requires Versioned(prefix, rows) && id in ById(rows)
    ensures prefix <= id
  {
    if id != rows[|rows| - 1].id { IdsAreVersioned(prefix, rows[..|rows| - 1], id); }
  }

  predicate Sent(chunks: seq<seq<Row>>, order: seq<nat>, id: string)
    requires forall i :: 0 <= i < |order| ==> order[i] < |chunks|
  {
    exists n :: 0 <= n < |order| && id in ById(chunks[order[n]])
  }

  lemma {:induction false} LoadedAt(prefix: string, entries: map<string, Row>, chunk: seq<Row>, id: string)
    ensures Get(LoadEntries(prefix, entries, chunk), id) ==
            if id in ById(chunk) then Some(ById(chunk)[id]) else if prefix <= id then Get(entries, id) else None
  {
  }

  lemma {:induction false} SentOneMore(chunks: seq<seq<Row>>, order: seq<nat>, id: string)
    requires order != [] && forall i :: 0 <= i < |order| ==> order[i] < |chunks|
    ensures Sent(chunks, order, id) <==>
        Sent(chunks, order[..|order| - 1], id)
        || id in ById(chunks[order[|order| - 1]])
  {
    var front := order[..|order| - 1];
    if Sent(chunks, front, id) {
      var n :| 0 <= n < |front| && id in ById(chunks[front[n]]);
      assert order[n] == front[n];
    }
    if Sent(chunks, order, id) {
      var n :| 0 <= n < |order| && id in ById(chunks[order[n]]);
      assert n == |front| || front[n] == order[n];
    }
  }

  /** What an id maps to once some of the chunks have come, in any order. */
  lemma {:induction false} DeliveredAt(
      prefix: string, entries: map<string, Row>, chunks: seq<seq<Row>>, order: seq<nat>, id: string)
    requires forall i :: 0 <= i < |order| ==> order[i] < |chunks|
    requires DistinctIds(Flatten(chunks)) && Versioned(prefix, Flatten(chunks))
    ensures Sent(chunks, order, id) ==> id in ById(Flatten(chunks))
    ensures Get(Deliver(prefix, entries, chunks, order), id) ==
            if Sent(chunks, order, id) then Get(ById(Flatten(chunks)), id) else if order == [] || prefix <= id
                then Get(entries, id) else None
    decreases order
  {
    if order != [] {
      var front, k := order[..|order| - 1], order[|order| - 1];
      DeliveredAt(prefix, entries, chunks, front, id);
      LoadedAt(prefix, Deliver(prefix, entries, chunks, front), chunks[k], id);
      SentOneMore(chunks, order, id);
      ChunkIsPart(chunks, k, id);
      if Sent(chunks, front, id) { IdsAreVersioned(prefix, Flatten(chunks), id); }
    }
  }

  /** Every index of the chunks, in any order and any number of times. */
  predicate Covers(order: seq<nat>, count: nat) {
    (forall i :: 0 <= i < |order| ==> order[i] < count) && forall k :: 0 <= k < count ==> k in order
  }

  lemma {:induction false} AnyOrderAt(
      prefix: string, entries: map<string, Row>, chunks: seq<seq<Row>>, order: seq<nat>, id: string)
    requires chunks != [] && DistinctIds(Flatten(chunks)) && Versioned(prefix, Flatten(chunks))
        && Covers(order, |chunks|)
    ensures Get(Deliver(prefix, entries, chunks, order), id) == Get(LoadEntries(prefix, entries, Flatten(chunks)), id)
  {
    assert 0 in order;
    DeliveredAt(prefix, entries, chunks, order, id);
    LoadedAt(prefix, entries, Flatten(chunks), id);
    if id in ById(Flatten(chunks)) {
      var k := EveryIdIsSent(chunks, id);
      assert k in order;
      var n :| 0 <= n < |order| && order[n] == k;
      assert Sent(chunks, order, id);
    }
  }

  /** Chunks delivered in any order, each at least once, give what loading all the rows at once would. */
  lemma {:induction false} AnyOrderLoadsAll(
      prefix: string, entries: map<string, Row>, chunks: seq<seq<Row>>, order: seq<nat>)
    requires chunks != [] && DistinctIds(Flatten(chunks)) && Versioned(prefix, Flatten(chunks))
        && Covers(order, |chunks|)
    ensures Deliver(prefix, entries, chunks, order) == LoadEntries(prefix, entries, Flatten(chunks))
  {
    var delivered, loaded := Deliver(prefix, entries, chunks, order), LoadEntries(prefix, entries, Flatten(chunks));
    forall id
      ensures Get(delivered, id) == Get(loaded, id)
    {
      AnyOrderAt(prefix, entries, chunks, order, id);
    }
    SameMaps(delivered, loaded);
  }

  /** A client that asks for the catalogue ends with all of it, by id, whatever the chunk sizes and the order of
      delivery. */
  lemma {:induction false} ClientGetsWholeCatalogue(prefix: string, entries: map<string, Row>, rows: seq<Row>,
      first: Option<int>, configured: Option<int>, order: seq<nat>)
    requires rows != [] && DistinctIds(rows) && Versioned(prefix, rows)
        && Covers(order, |Stream(rows, |rows|, first, configured)|)
    ensures Deliver(prefix, entries, Stream(rows, |rows|, first, configured), order) ==
        LoadEntries(prefix, entries, rows)
  {
    StreamIsComplete(rows, first, configured);
    AnyOrderLoadsAll(prefix, entries, Stream(rows, |rows|, first, configured), order);
  }

  /** Row by row: the client holds every row of the catalogue under its id, and of what it held before it keeps exactly
      the rows of this version that are not replaced. */
  lemma {:induction false} ClientHoldsEveryRow(prefix: string, entries: map<string, Row>, rows: seq<Row>,
      first: Option<int>, configured: Option<int>, order: seq<nat>, id: string)
    requires rows != [] && DistinctIds(rows) && Versioned(prefix, rows)
        && Covers(order, |Stream(rows, |rows|, first, configured)|)
    ensures
      var held := Deliver(prefix, entries, Stream(rows, |rows|, first, configured), order);
      && (forall i :: 0 <= i < |rows| && rows[i].id == id ==> Get(held, id) == Some(rows[i]))
      && ((forall i :: 0 <= i < |rows| ==> rows[i].id != id) ==>
          Get(held, id) == if prefix <= id then Get(entries, id) else None)
  {
    ClientGetsWholeCatalogue(prefix, entries, rows, first, configured, order);
    LoadedAt(prefix, entries, rows, id);
    ByIdIs(rows);
  }

  /** The first message holds as many rows as the first size says, the size of the others where it says nothing, 4000
      where neither is given, and at least one; unless there are fewer. */
  lemma {:induction false} FirstMessage(rows: seq<Row>, first: Option<int>, configured: Option<int>)
    requires rows != []
    ensures Stream(rows, |rows|, first, configured) != []
    ensures
      var asked := if first.Some? then first.value else if configured.Some? then configured.value else 4000;
      |Stream(rows, |rows|, first, configured)[0]| ==
      if asked <= 1 then 1 else if asked < |rows| then asked else |rows|
  {
    var limit, size := FirstChunkSize(first, configured), ChunkSize(configured);
    assert Stream(rows, |rows|, first, configured)[0] == FetchEntries(rows, limit, 0);
    assert rows[0..Min(limit, |rows|)] == FetchEntries(rows, limit, 0);
  }
}
