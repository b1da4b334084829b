/**
 Cursor scans over organization ids: each load returns the next ids above the cursor, in order and at most a hundred.
 The loop of apps/api/src/commands/automation-worker.ts, and the sharding of messaging-worker.ts.
 */
module Paging {
  import opened Wrappers

  type Id = nat

  const BATCH := 100

  predicate Above(cursor: Option<Id>, id: Id) {
    cursor.Some? ==> cursor.value < id
  }

  ghost predicate Increasing(ids: seq<Id>) {
    forall i, j | 0 <= i < j < |ids| :: ids[i] < ids[j]
  }

  // ----- pages -----

  lemma {:induction false} LeastOf(ids: set<Id>) returns (m: Id)
    requires ids != {}
    ensures m in ids && forall x <- ids :: m <= x
    decreases |ids|
  {
    m :| m in ids;
    var rest := ids - {m};
    if rest != {} {
      var least := LeastOf(rest);
      forall x <- ids ensures x == m || least <= x { if x != m { assert x in rest; } }
      if least < m { m := least; }
    } else {
      forall x <- ids ensures x == m { assert x !in rest; }
    }
  }

  function Smallest(ids: set<Id>): (m: Id)
    requires ids != {}
    ensures m in ids && forall x <- ids :: m <= x
  {
    assert exists m :: m in ids && forall x <- ids :: m <= x by { var least := LeastOf(ids); }
    var m :| m in ids && forall x <- ids :: m <= x;
    m
  }

  function IdsAbove(ids: set<Id>, cursor: Option<Id>): set<Id> {
    set id | id in ids && Above(cursor, id)
  }

  /** The first `n` ids above the cursor. */
  function Page(ids: set<Id>, cursor: Option<Id>, n: nat): (page: seq<Id>)
    ensures |page| <= n
    ensures forall id <- page :: id in ids && Above(cursor, id)
    decreases n
  {
    if n == 0 || IdsAbove(ids, cursor) == {} then []
    else
      var first := Smallest(IdsAbove(ids, cursor));
      [first] + Page(ids, Some(first), n - 1)
  }

  /** A page is in order and leaves no gap; a short one leaves nothing behind it. */
  lemma {:induction false} PageIsDense(ids: set<Id>, cursor: Option<Id>, n: nat)
    ensures var page := Page(ids, cursor, n);
      && Increasing(page)
      && (forall id <- ids | Above(cursor, id) :: id in page || (|page| == n && forall x <- page :: x < id))
    decreases n
  {
    if n > 0 && IdsAbove(ids, cursor) != {} {
      var first := Smallest(IdsAbove(ids, cursor));
      PageIsDense(ids, Some(first), n - 1);
      var rest := Page(ids, Some(first), n - 1);
      assert Page(ids, cursor, n) == [first] + rest;
      forall id <- ids | Above(cursor, id)
        ensures id in [first] + rest || (1 + |rest| == n && forall x <- [first] + rest :: x < id)
      {
        assert id in IdsAbove(ids, cursor);
        if id != first { assert Above(Some(first), id); }
      }
    } else if n > 0 {
      forall id <- ids ensures !Above(cursor, id) { assert id !in IdsAbove(ids, cursor); }
    }
  }

  // ----- the scan -----

  function LastOr(page: seq<Id>, cursor: Option<Id>): Option<Id> {
    if page == [] then cursor else Some(page[|page| - 1])
  }

  ghost predicate AlwaysPresent(present: nat -> set<Id>, loads: nat, id: Id) {
    forall k | 0 <= k < loads :: id in present(k)
  }

  ghost predicate OncePresent(present: nat -> set<Id>, loads: nat, id: Id) {
    exists k | 0 <= k < loads :: id in present(k)
  }

  /** What has been visited when `loads` pages are done and the cursor stands behind the last of them. */
  ghost predicate ScannedTo(present: nat -> set<Id>, loads: nat, visited: seq<Id>, cursor: Option<Id>, more: bool) {
    && Increasing(visited) && LastOr(visited, None) == cursor
    && (forall id <- visited :: OncePresent(present, loads, id))
    && (loads > 0 ==> forall id | AlwaysPresent(present, loads, id) && (!more || !Above(cursor, id)) :: id in visited)
    && (more ==> (loads > 0 <==> cursor.Some?))
    && (!more ==> loads > 0)
  }

  lemma PageFollows(visited: seq<Id>, page: seq<Id>)
    requires Increasing(visited) && Increasing(page) && forall id <- page :: Above(LastOr(visited, None), id)
    ensures Increasing(visited + page)
    ensures LastOr(visited + page, None) == LastOr(page, LastOr(visited, None))
  {
    var all := visited + page;
    forall i, j | 0 <= i < j < |all| ensures all[i] < all[j] {
      if i < |visited| <= j {
        assert page[j - |visited|] in page;
        assert visited[i] <= visited[|visited| - 1];
      }
    }
  }

  lemma PageCovers(ids: set<Id>, cursor: Option<Id>, id: Id)
    requires id in ids && Above(cursor, id)
    ensures var page := Page(ids, cursor, BATCH); id in page || (|page| == BATCH && Above(LastOr(page, cursor), id))
  {
    PageIsDense(ids, cursor, BATCH);
    var page := Page(ids, cursor, BATCH);
    if page != [] { assert page[|page| - 1] in page; }
  }

  lemma PageExtendsScan(present: nat -> set<Id>, loads: nat, visited: seq<Id>, cursor: Option<Id>)
    requires ScannedTo(present, loads, visited, cursor, true)
    ensures var page := Page(present(loads), cursor, BATCH);
      ScannedTo(present, loads + 1, visited + page, LastOr(page, cursor), |page| == BATCH)
  {
    var page := Page(present(loads), cursor, BATCH);
    PageIsDense(present(loads), cursor, BATCH);
    PageFollows(visited, page);
    hide Page, Increasing;
    var all, after := visited + page, LastOr(page, cursor);
    forall id <- all ensures OncePresent(present, loads + 1, id) {
      if id in visited { assert OncePresent(present, loads, id); } else { assert id in page && id in present(loads); }
    }
    forall id | AlwaysPresent(present, loads + 1, id) && (|page| != BATCH || !Above(after, id)) ensures id in all {
      assert id in present(loads);
      if Above(cursor, id) {
        PageCovers(present(loads), cursor, id);
      } else {
        assert AlwaysPresent(present, loads, id);
      }
    }
  }

  lemma NothingScanned(present: nat -> set<Id>)
    ensures ScannedTo(present, 0, [], None, true)
  {
  }

  lemma PageIsAhead(ids: set<Id>, cursor: Option<Id>)
    ensures var page := Page(ids, cursor, BATCH); page != [] ==> Above(cursor, page[|page| - 1])
  {
    var page := Page(ids, cursor, BATCH);
    if page != [] { assert page[|page| - 1] in page; }
  }

  lemma PrefixIsSound(present: nat -> set<Id>, loads: nat, visited: seq<Id>, page: seq<Id>, i: nat)
    requires i <= |page| && Increasing(visited + page) && forall id <- visited + page :: OncePresent(present, loads, id)
    ensures Increasing(visited + page[..i]) && forall id <- visited + page[..i] :: OncePresent(present, loads, id)
  {
    assert visited + page[..i] == (visited + page)[..|visited| + i];
  }

  /**
   `scanOperationalOrganizations`: the k-th load sees the organizations `present(k)`, who may come and go between
   loads. An abort or an unhandled error ends the scan early, at any visit.
   */
  method Scan(present: nat -> set<Id>, bound: Id) returns (visited: seq<Id>, loads: nat, completed: bool)
    requires forall k: nat :: forall id <- present(k) :: id < bound
    ensures Increasing(visited)
    ensures forall id <- visited :: OncePresent(present, loads, id)
    ensures completed ==> loads > 0 && forall id | AlwaysPresent(present, loads, id) :: id in visited
  {
    hide Page, Increasing, OncePresent, AlwaysPresent;
    visited, loads, completed := [], 0, false;
    var cursor: Option<Id>, more := None, true;
    NothingScanned(present);
    while more
      invariant ScannedTo(present, loads, visited, cursor, more)
      invariant cursor.Some? ==> cursor.value < bound
      decreases if more then 1 else 0, bound - (if cursor.Some? then cursor.value + 1 else 0)
    {
      var aborted: bool := *;
      if aborted { return; }
      var page := Page(present(loads), cursor, BATCH);
      PageExtendsScan(present, loads, visited, cursor);
      assert page != [] ==> page[|page| - 1] in page;
      ghost var before := visited;
      PageIsAhead(present(loads), cursor);
      loads := loads + 1;
      more := |page| == BATCH;
      cursor := LastOr(page, cursor);
      for i := 0 to |page|
        invariant visited == before + page[..i]
      {
        PrefixIsSound(present, loads, before, page, i);
        var stopped: bool := *;
        if stopped { return; }
        visited := visited + [page[i]];
      }
      assert page[..|page|] == page;
    }
    completed := true;
  }

  // ----- shards -----

  /** `belongsToWorkerShard`, over any hash of the organization id. */
  predicate BelongsToShard(hash: Id -> nat, id: Id, shard: nat, shards: nat)
    requires shards > 0
  {
    hash(id) % shards == shard
  }

  /** What one worker of the fleet works on, out of what its scan visits. */
  function Kept(hash: Id -> nat, visited: seq<Id>, shard: nat, shards: nat): seq<Id>
    requires shards > 0
  {
    if visited == [] then []
    else
      (if BelongsToShard(hash, visited[0], shard, shards) then [visited[0]] else [])
      + Kept(hash, visited[1..], shard, shards)
  }

  lemma {:induction false} KeptIffMine(hash: Id -> nat, visited: seq<Id>, shard: nat, shards: nat, id: Id)
    requires shards > 0
    ensures multiset(Kept(hash, visited, shard, shards))[id] ==
      if BelongsToShard(hash, id, shard, shards) then multiset(visited)[id] else 0
  {
    if visited != [] {
      KeptIffMine(hash, visited[1..], shard, shards, id);
      assert visited == [visited[0]] + visited[1..];
    }
  }

  lemma {:induction false} IncreasingHasNoRepeats(ids: seq<Id>, id: Id)
    requires Increasing(ids)
    ensures multiset(ids)[id] == if id in ids then 1 else 0
  {
    if ids != [] {
      assert ids == [ids[0]] + ids[1..];
      IncreasingHasNoRepeats(ids[1..], id);
    }
  }

  /**
   Completed scans of all shards together serve an organization that all of them saw exactly once, by its own shard.
   */
  lemma EachOrganizationHasOneWorker(hash: Id -> nat, shards: nat, visited: seq<seq<Id>>, id: Id, shard: nat)
    requires shards > 0 && |visited| == shards && shard < shards
    requires forall s | 0 <= s < shards :: Increasing(visited[s]) && id in visited[s]
    ensures multiset(Kept(hash, visited[shard], shard, shards))[id] == if shard == hash(id) % shards then 1 else 0
    ensures 0 <= hash(id) % shards < shards
  {
    KeptIffMine(hash, visited[shard], shard, shards, id);
    IncreasingHasNoRepeats(visited[shard], id);
  }
}
