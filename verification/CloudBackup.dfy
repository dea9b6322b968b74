/** Chunked cloud backups (CloudBackupNow, ListCloudBackupsForUser, DeleteCloudBackup, RestoreCloudBackup and
    splitStringIntoChunks, internal/integration/supabase_auth.go). Chunk 0 is uploaded last and is what makes a backup
    listed. */
module CloudBackup {
  import opened Domain

  // ----- splitting -----

  ghost function Join(chunks: seq<string>): string
  {
    if chunks == [] then "" else Join(chunks[..|chunks| - 1]) + chunks[|chunks| - 1]
  }

  /** Chunks are non-empty, all of full size but possibly the last, and joined in order give the string back. */
  ghost predicate Splits(s: string, size: nat, chunks: seq<string>)
  {
    && Join(chunks) == s
    && (forall k :: 0 <= k < |chunks| ==> 0 < |chunks[k]| <= size)
    && (forall k :: 0 <= k < |chunks| - 1 ==> |chunks[k]| == size)
  }

  lemma JoinAppend(chunks: seq<string>, chunk: string)
    ensures Join(chunks + [chunk]) == Join(chunks) + chunk
  {
    assert (chunks + [chunk])[..|chunks|] == chunks;
  }

  method SplitStringIntoChunks(s: string, size: nat) returns (chunks: seq<string>)
    requires size > 0
    ensures Splits(s, size, chunks)
  {
    chunks := [];
    var rest := s;
    while |rest| > 0
      invariant Join(chunks) + rest == s
      invariant forall k :: 0 <= k < |chunks| ==> |chunks[k]| == size
      decreases |rest|
    {
      if |rest| < size {
        JoinAppend(chunks, rest);
        chunks := chunks + [rest];
        rest := "";
        break;
      }
      JoinAppend(chunks, rest[..size]);
      assert rest == rest[..size] + rest[size..];
      chunks := chunks + [rest[..size]];
      rest := rest[size..];
    }
  }

  // ----- the server's table -----

  datatype Key = Key(backup: Id, index: nat)

  /** One uploaded chunk; every chunk carries the chunk count of its backup. */
  datatype Row = Row(total: nat, createdAt: nat, data: string)

  type Rows = map<Key, Row>

  /** The listing filter: chunk 0 is there. */
  predicate Listed(rows: Rows, id: Id) { Key(id, 0) in rows }

  /** The chunks of a backup with an index below `n`, joined in index order. */
  ghost function Restored(rows: Rows, id: Id, n: nat): string
  {
    if n == 0 then ""
    else Restored(rows, id, n - 1) + if Key(id, n - 1) in rows then rows[Key(id, n - 1)].data else ""
  }

  /** All chunks are there and give back the encoded snapshot. */
  ghost predicate Whole(rows: Rows, id: Id, encoded: string)
    requires Listed(rows, id)
  {
    var n := rows[Key(id, 0)].total;
    && (forall i: nat :: Key(id, i) in rows <==> i < n)
    && Restored(rows, id, n) == encoded
  }

  /** Every listed backup is whole. */
  ghost predicate Committed(rows: Rows, snapshots: map<Id, string>)
  {
    forall id :: Listed(rows, id) ==> id in snapshots && Whole(rows, id, snapshots[id])
  }

  /** The table `base` with the first `j` uploads of a new backup applied: chunks 1, 2, ... and, after the others, chunk
      0. */
  ghost predicate PartWay(base: Rows, rows: Rows, id: Id, chunks: seq<string>, t: nat, j: nat)
    requires j <= |chunks|
  {
    && (forall b, i: nat :: Key(b, i) in rows <==> Key(b, i) in base || (b == id && Uploaded(i, j, |chunks|)))
    && (forall b, i: nat :: Key(b, i) in base ==> Key(b, i) in rows && rows[Key(b, i)] == base[Key(b, i)])
    && (forall i: nat :: Uploaded(i, j, |chunks|) ==> rows[Key(id, i)] == Row(|chunks|, t, chunks[i]))
  }

  predicate Uploaded(i: nat, j: nat, n: nat) { (1 <= i <= j && i < n) || (i == 0 && j == n && n > 0) }

  ghost predicate NewId(rows: Rows, id: Id) { forall i: nat :: Key(id, i) !in rows }

  lemma {:induction false} SameRestored(a: Rows, b: Rows, id: Id, n: nat)
    requires forall i: nat :: i < n ==> (Key(id, i) in a <==> Key(id, i) in b)
    requires forall i: nat :: i < n && Key(id, i) in a ==> a[Key(id, i)].data == b[Key(id, i)].data
    ensures Restored(a, id, n) == Restored(b, id, n)
  {
    if n > 0 { SameRestored(a, b, id, n - 1); }
  }

  lemma {:induction false} RestoredIsJoin(rows: Rows, id: Id, chunks: seq<string>, n: nat)
    requires n <= |chunks| && forall i: nat :: i < n ==> Key(id, i) in rows && rows[Key(id, i)].data == chunks[i]
    ensures Restored(rows, id, n) == Join(chunks[..n])
  {
    if n > 0 {
      RestoredIsJoin(rows, id, chunks, n - 1);
      assert chunks[..n] == chunks[..n - 1] + [chunks[n - 1]];
      JoinAppend(chunks[..n - 1], chunks[n - 1]);
    }
  }

  /** Stopping after any upload leaves every listed backup whole; after the last one the new backup is listed and
      whole. */
  lemma AnyStopIsCommitted(base: Rows, rows: Rows, snapshots: map<Id, string>, id: Id, chunks: seq<string>, t: nat,
                           j: nat)
    requires Committed(base, snapshots) && NewId(base, id) && 0 < |chunks| && j <= |chunks|
             && PartWay(base, rows, id, chunks, t, j)
    ensures Committed(rows, snapshots[id := Join(chunks)])
    ensures Listed(rows, id) <==> j == |chunks|
  {
    forall b | Listed(rows, b)
      ensures b in snapshots[id := Join(chunks)] && Whole(rows, b, snapshots[id := Join(chunks)][b]) {
      if b == id {
        RestoredIsJoin(rows, id, chunks, |chunks|);
        assert chunks[..|chunks|] == chunks;
      } else {
        assert Listed(base, b);
        SameRestored(base, rows, b, base[Key(b, 0)].total);
      }
    }
  }

  /** DELETE ... WHERE backup_id = id. */
  function Without(rows: Rows, id: Id): (r: Rows)
    ensures forall b, i: nat :: Key(b, i) in r <==> Key(b, i) in rows && b != id
  {
    map k | k in rows && k.backup != id :: rows[k]
  }

  lemma WithoutIsCommitted(rows: Rows, snapshots: map<Id, string>, id: Id)
    requires Committed(rows, snapshots)
    ensures Committed(Without(rows, id), snapshots)
  {
    var r := Without(rows, id);
    forall b | Listed(r, b) ensures b in snapshots && Whole(r, b, snapshots[b]) {
      assert Listed(rows, b);
      SameRestored(rows, r, b, rows[Key(b, 0)].total);
    }
  }

  /** Newest first. */
  ghost predicate IsListing(rows: Rows, ids: seq<Id>)
  {
    && (forall id :: id in ids <==> Listed(rows, id))
    && (forall a, b :: 0 <= a < b < |ids| ==> ids[a] != ids[b])
    && (forall a, b :: 0 <= a < b < |ids| ==> CreatedAt(rows, ids[a]) >= CreatedAt(rows, ids[b]))
  }

  function CreatedAt(rows: Rows, id: Id): nat { if Listed(rows, id) then rows[Key(id, 0)].createdAt else 0 }

  /** One more upload: chunk `j + 1`, or chunk 0 when it is the last. */
  lemma NextUpload(base: Rows, rows: Rows, id: Id, chunks: seq<string>, t: nat, j: nat)
    requires NewId(base, id) && j < |chunks| && PartWay(base, rows, id, chunks, t, j)
    ensures var i := if j + 1 < |chunks| then j + 1 else 0;
            PartWay(base, rows[Key(id, i) := Row(|chunks|, t, chunks[i])], id, chunks, t, j + 1)
  {
  }

  /** Conditions outside the model: whether the listing, the deletion and the size check succeed, how many uploads are
      acknowledged, and whether the next one lands although its reply is lost. */
  datatype World = World(listWorks: bool, deleteWorks: bool, sizeOk: bool, uploads: nat, replyLost: bool)
  {
    /** How many of `n` uploads take effect. */
    function Landed(n: nat): nat { if uploads >= n then n else if replyLost then uploads + 1 else uploads }
  }

  class CloudStore {
    var rows: Rows
    ghost var snapshots: map<Id, string>

    constructor ()
      ensures Valid() && rows == map[]
    {
      rows, snapshots := map[], map[];
    }

    ghost predicate Valid()
      reads this
    {
      Committed(rows, snapshots)
    }

    method Delete(id: Id)
      requires Valid()
      modifies this
      ensures Valid() && rows == Without(old(rows), id) && snapshots == old(snapshots)
    {
      WithoutIsCommitted(rows, snapshots, id);
      rows := Without(rows, id);
    }

    /** Makes room by deleting the oldest backup once the limit is reached, then uploads. Whenever it stops, every
        listed backup is whole; the new one is listed exactly when all its chunks went up. */
    method CloudBackupNow(id: Id, t: nat, encoded: string, chunkSize: nat, limit: nat, world: World, listing: seq<Id>)
      returns (r: Result<()>, ghost base: Rows)
      requires Valid() && NewId(rows, id) && encoded != "" && chunkSize > 0 && IsListing(rows, listing)
      modifies this
      ensures Valid()
      ensures base == if world.listWorks && |listing| >= limit && |listing| > 0 && world.deleteWorks
                      then Without(old(rows), listing[|listing| - 1]) else old(rows)
      ensures r.Ok? ==> Listed(rows, id)
      ensures Listed(rows, id) ==> snapshots[id] == encoded && Whole(rows, id, encoded)
      ensures r.Err? && !world.replyLost ==> !Listed(rows, id)
      ensures forall b, i: nat :: b != id ==> (Key(b, i) in rows <==> Key(b, i) in base)
      ensures forall b, i: nat :: Key(b, i) in base ==> Key(b, i) in rows && rows[Key(b, i)] == base[Key(b, i)]
      ensures !world.sizeOk ==> r.Err? && rows == base
    {
      if world.listWorks && |listing| >= limit && |listing| > 0 && world.deleteWorks {
        Delete(listing[|listing| - 1]);
      }
      base := rows;
      if !world.sizeOk {
        return Err(InvalidAmount), base;
      }
      var chunks := SplitStringIntoChunks(encoded, chunkSize);
      assert chunks != [] by { assert Join([]) == ""; }
      r := UploadAll(id, t, chunks, world);
    }

    method UploadAll(id: Id, t: nat, chunks: seq<string>, world: World) returns (r: Result<()>)
      requires Valid() && NewId(rows, id) && chunks != []
      modifies this
      ensures Valid() && PartWay(old(rows), rows, id, chunks, t, world.Landed(|chunks|))
      ensures r.Ok? <==> world.uploads >= |chunks|
      ensures Listed(rows, id) <==> world.Landed(|chunks|) == |chunks|
      ensures Listed(rows, id) ==> snapshots[id] == Join(chunks) && Whole(rows, id, Join(chunks))
    {
      ghost var base, before := rows, snapshots;
      var order := UploadOrder(|chunks|);
      var uploadOrder := order[..];
      var j := 0;
      while j < |uploadOrder| && j < world.uploads
        invariant j <= |chunks| && j <= world.uploads
        invariant PartWay(base, rows, id, chunks, t, j)
        invariant snapshots == before
      {
        NextUpload(base, rows, id, chunks, t, j);
        Upload(id, uploadOrder[j], t, chunks);
        j := j + 1;
      }
      r := Ok(());
      ghost var landed := j;
      if j < |uploadOrder| {
        r := Err(InvalidAmount);
        if world.replyLost {
          NextUpload(base, rows, id, chunks, t, j);
          Upload(id, uploadOrder[j], t, chunks);
          landed := j + 1;
        }
      }
      AnyStopIsCommitted(base, rows, before, id, chunks, t, landed);
      snapshots := before[id := Join(chunks)];
    }

    method Upload(id: Id, i: nat, t: nat, chunks: seq<string>)
      requires i < |chunks|
      modifies this`rows
      ensures rows == old(rows)[Key(id, i) := Row(|chunks|, t, chunks[i])]
    {
      rows := rows[Key(id, i) := Row(|chunks|, t, chunks[i])];
    }

    /** Chunks 1..n-1 first, chunk 0 last. */
    method UploadOrder(n: nat) returns (order: array<nat>)
      requires n > 0
      ensures fresh(order) && order.Length == n && order[n - 1] == 0
      ensures forall k :: 0 <= k < n - 1 ==> order[k] == k + 1
    {
      order := new nat[n];
      if n > 1 {
        var idx := 0;
        for i := 1 to n
          invariant idx == i - 1 && forall k :: 0 <= k < idx ==> order[k] == k + 1
        {
          order[idx] := i;
          idx := idx + 1;
        }
        order[idx] := 0;
      } else {
        order[0] := 0;
      }
    }

    /** Joins whatever rows the backup has, in index order. For a listed backup that is the snapshot. */
    method RestoreCloudBackup(id: Id) returns (r: Result<string>)
      requires Valid()
      ensures r.Err? <==> NewId(rows, id)
      ensures Listed(rows, id) ==> r.Ok? && r.value == snapshots[id]
    {
      var todo := set k | k in rows && k.backup == id;
      if todo == {} {
        assert forall i: nat :: Key(id, i) in rows ==> Key(id, i) in todo;
        return Err(OrderNotFound);
      }
      var data := "";
      ghost var next: nat := 0;
      while todo != {}
        invariant forall k :: k in todo <==> k in rows && k.backup == id && k.index >= next
        invariant data == Restored(rows, id, next)
        invariant next == 0 || Key(id, next - 1) in rows
        decreases todo
      {
        LowestKey(todo);
        var k :| k in todo && forall j :: j in todo ==> k.index <= j.index;
        NothingBetween(rows, id, next, k.index);
        data := data + rows[k].data;
        todo := todo - {k};
        next := k.index + 1;
        assert k == Key(id, k.index);
      }
      if Listed(rows, id) {
        assert Whole(rows, id, snapshots[id]);
        AllJoined(rows, id, next);
      }
      r := Ok(data);
    }
  }

  lemma LowestKey(keys: set<Key>)
    requires keys != {}
    ensures exists k :: k in keys && forall j :: j in keys ==> k.index <= j.index
  {
    var k :| k in keys;
    if keys != {k} {
      LowestKey(keys - {k});
      var m :| m in keys - {k} && forall j :: j in keys - {k} ==> m.index <= j.index;
      var low := if k.index <= m.index then k else m;
      assert low in keys && forall j :: j in keys ==> low.index <= j.index;
    }
  }

  lemma {:induction false} NothingBetween(rows: Rows, id: Id, from: nat, upto: nat)
    requires from <= upto && forall i: nat :: from <= i < upto ==> Key(id, i) !in rows
    ensures Restored(rows, id, upto) == Restored(rows, id, from)
    decreases upto
  {
    if from < upto { NothingBetween(rows, id, from, upto - 1); }
  }

  lemma AllJoined(rows: Rows, id: Id, next: nat)
    requires Listed(rows, id) && forall i: nat :: Key(id, i) in rows <==> i < rows[Key(id, 0)].total
    requires forall k :: k in rows && k.backup == id ==> k.index < next
    requires next == 0 || Key(id, next - 1) in rows
    ensures next == rows[Key(id, 0)].total
  {
    var n := rows[Key(id, 0)].total;
    assert Key(id, n - 1) in rows;
  }
}
