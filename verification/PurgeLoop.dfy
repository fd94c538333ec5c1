/**
 The purge of one meeting: list a page, delete it in batches, start over, list again, and
 delete the row only if that last listing was empty. It is proved against any paging store,
 one that fails, refuses deletions or is written to meanwhile included.
 */
module PurgeLoop {
  import opened Common
  import P = PipelineState
  import T = PipelineTraces
  import StorageKeys

  datatype Page = Page(keys: seq<string>, cursor: Option<nat>)

  datatype Deletion = Deletion(deleted: nat, failed: seq<string>)

  const DELETE_BATCH_MAX := 1000

  function Under(objects: set<string>, prefix: string): set<string> { set k | k in objects && prefix <= k }

  function KeySet(keys: seq<string>): set<string> { set k | k in keys }

  /**
   The object store. Whether its calls may fail and whether others write to it during the
   purge is settled at the start and unknown to the caller.
   */
  class Store {
    const healthy: bool
    const quiet: bool
    var objects: set<string>
    /** Every key this client has had deleted. */
    ghost var removed: set<string>

    constructor (objects: set<string>, healthy: bool, quiet: bool)
      ensures this.objects == objects && this.healthy == healthy && this.quiet == quiet && removed == {}
    {
      this.objects, this.healthy, this.quiet, removed := objects, healthy, quiet, {};
    }

    /** What others do meanwhile. */
    method Interfere()
      modifies `objects
      ensures quiet ==> objects == old(objects)
    {
      if !quiet { objects := *; }
    }

    /** One page of a listing: any keys under the prefix, but some if there is no cursor and there are any. */
    method ListPrefix(prefix: string, cursor: Option<nat>) returns (page: Option<Page>)
      modifies `objects
      ensures quiet ==> objects == old(objects)
      ensures healthy ==> page.Some?
      ensures page.Some? ==> Distinct(page.value.keys) && KeySet(page.value.keys) <= Under(objects, prefix)
      ensures page.Some? && cursor.None? && page.value.keys == [] ==> Under(objects, prefix) == {}
    {
      Interfere();
      var fails := false;
      if !healthy { fails := *; }
      if fails { return None; }
      var todo := Under(objects, prefix);
      var keys: seq<string> := [];
      var more := true;
      if cursor.Some? { more := *; }
      while todo != {} && more
        invariant todo <= Under(objects, prefix) && Distinct(keys)
        invariant KeySet(keys) <= Under(objects, prefix) && KeySet(keys) !! todo
        invariant cursor.None? && keys == [] ==> more && todo == Under(objects, prefix)
        decreases |todo|
      {
        var k :| k in todo;
        assert KeySet(keys + [k]) == KeySet(keys) + {k};
        keys := keys + [k];
        todo := todo - {k};
        more := *;
      }
      var next: Option<nat> := *;
      return Some(Page(keys, next));
    }

    /** A batch deletion; a key the store refuses comes back in `failed`, an outage is None. */
    method DeleteMany(batch: seq<string>) returns (r: Option<Deletion>)
      requires |batch| <= 1000
      modifies `objects, `removed
      ensures old(removed) <= removed <= old(removed) + KeySet(batch)
      ensures healthy ==> r.Some? && r.value.failed == []
      ensures r.Some? ==> r.value.deleted + |r.value.failed| == |batch|
      ensures quiet ==> old(objects) - KeySet(batch) <= objects <= old(objects)
      ensures quiet && r.Some? && r.value.failed == [] ==> objects == old(objects) - KeySet(batch)
    {
      Interfere();
      var failed: seq<string> := [];
      var i := 0;
      while i < |batch|
        invariant 0 <= i <= |batch| && |failed| <= i && (healthy ==> failed == [])
        invariant old(removed) <= removed <= old(removed) + KeySet(batch)
        invariant quiet ==> old(objects) - KeySet(batch[..i]) <= objects <= old(objects)
        invariant quiet && failed == [] ==> objects == old(objects) - KeySet(batch[..i])
      {
        assert batch[..i + 1] == batch[..i] + [batch[i]];
        var refused := false;
        if !healthy { refused := *; }
        if refused {
          failed := failed + [batch[i]];
        } else {
          objects := objects - {batch[i]};
          removed := removed + {batch[i]};
        }
        i := i + 1;
      }
      assert batch[..i] == batch;
      var outage := false;
      if !healthy { outage := *; }
      if outage { return None; }
      return Some(Deletion(|batch| - |failed|, failed));
    }
  }

  /** The meeting's row in `meetings`, as far as deletion is concerned. */
  class MeetingRow {
    var present: bool
    var deletion: P.DeletionState
    var notBefore: Option<int>
    var failure: Option<string>

    predicate Due(dbNow: int)
      reads this
    {
      present && deletion != P.Live && notBefore.Some? && notBefore.value <= dbNow
    }

    /** `markDeleteFailed`. */
    method MarkDeleteFailed(code: string)
      modifies this
      ensures present == old(present) && notBefore == old(notBefore)
      ensures present && old(deletion) != P.Live ==> deletion == P.DeleteFailed && failure == Some(code)
      ensures !present || old(deletion) == P.Live ==> deletion == old(deletion) && failure == old(failure)
    {
      if present && deletion != P.Live { deletion, failure := P.DeleteFailed, Some(code); }
    }

    /** `deleteMeetingRow`: the deadline is checked again by the database. */
    method Delete(dbNow: int) returns (deleted: bool)
      modifies `present
      ensures deleted == old(Due(dbNow))
      ensures present == (old(present) && !deleted)
    {
      deleted := Due(dbNow);
      if deleted { present := false; }
    }
  }

  datatype Outcome = Purged | TooEarly | StorageFailed | PrefixNotEmpty | RowNotDeleted

  datatype Report = Report(outcome: Outcome, found: nat, deleted: nat, remaining: Option<nat>, batches: nat)

  /** One page deleted in batches, stopping at the first refusal or outage. */
  method DeletePage(store: Store, keys: seq<string>, ghost prefix: string)
    returns (ok: bool, deleted: nat, batches: nat, outage: bool)
    requires Distinct(keys) && forall k | k in keys :: prefix <= k
    modifies store`objects, store`removed
    ensures old(store.removed) <= store.removed <= old(store.removed) + KeySet(keys)
    ensures deleted <= |keys| && (ok ==> deleted == |keys|)
    ensures ok ==> DELETE_BATCH_MAX * (batches - 1) < |keys| <= DELETE_BATCH_MAX * batches || (keys == [] && batches == 0)
    ensures store.healthy ==> ok
    ensures ok ==> !outage
    ensures store.quiet ==> old(store.objects) - KeySet(keys) <= store.objects <= old(store.objects)
    ensures store.quiet && ok ==> store.objects == old(store.objects) - KeySet(keys)
  {
    deleted, batches, outage := 0, 0, false;
    var i := 0;
    while i < |keys|
      invariant 0 <= i <= |keys| && deleted == i && i <= DELETE_BATCH_MAX * batches
      invariant i < |keys| ==> i == DELETE_BATCH_MAX * batches
      invariant i == |keys| ==> DELETE_BATCH_MAX * (batches - 1) < |keys| || (keys == [] && batches == 0)
      invariant old(store.removed) <= store.removed <= old(store.removed) + KeySet(keys)
      invariant store.quiet ==> store.objects == old(store.objects) - KeySet(keys[..i])
    {
      var end := if i + DELETE_BATCH_MAX < |keys| then i + DELETE_BATCH_MAX else |keys|;
      var r := store.DeleteMany(keys[i..end]);
      assert KeySet(keys[..end]) == KeySet(keys[..i]) + KeySet(keys[i..end]) by {
        assert keys[..end] == keys[..i] + keys[i..end];
      }
      assert KeySet(keys[..end]) <= KeySet(keys);
      if r.None? { return false, deleted, batches, true; }
      deleted, batches := deleted + r.value.deleted, batches + 1;
      if r.value.failed != [] { return false, deleted, batches, false; }
      i := end;
    }
    assert keys[..i] == keys;
    ok := true;
  }

  lemma {:induction false} DistinctKeysCount(keys: seq<string>)
    requires Distinct(keys)
    ensures |KeySet(keys)| == |keys|
  {
    if keys == [] {
      assert KeySet(keys) == {};
    } else {
      var n := |keys| - 1;
      DistinctKeysCount(keys[..n]);
      assert keys == keys[..n] + [keys[n]];
      assert KeySet(keys) == KeySet(keys[..n]) + {keys[n]};
    }
  }

  lemma {:induction false} DeletedKeysCount(objects: set<string>, keys: seq<string>, prefix: string)
    requires Distinct(keys) && KeySet(keys) <= Under(objects, prefix)
    ensures Under(objects - KeySet(keys), prefix) == Under(objects, prefix) - KeySet(keys)
    ensures |Under(objects - KeySet(keys), prefix)| == |Under(objects, prefix)| - |keys|
  {
    DistinctKeysCount(keys);
    assert Under(objects - KeySet(keys), prefix) == Under(objects, prefix) - KeySet(keys);
  }

  /** The page loop of `purgeMeeting`; None is success, otherwise the failure code to record. */
  method EmptyPrefix(store: Store, prefix: string, maxPages: nat)
    returns (failure: Option<string>, found: nat, deleted: nat, batches: nat)
    modifies store`objects, store`removed
    ensures forall k | k in store.removed && k !in old(store.removed) :: prefix <= k
    ensures deleted <= found && (failure.None? ==> deleted == found)
    ensures store.healthy ==> failure.None?
    ensures store.quiet ==> store.objects <= old(store.objects) && old(store.objects) - store.objects <= Under(old(store.objects), prefix)
    ensures store.quiet && store.healthy ==> found + |Under(store.objects, prefix)| == |Under(old(store.objects), prefix)|
    ensures store.quiet && store.healthy && Under(store.objects, prefix) != {} ==> maxPages < |Under(old(store.objects), prefix)|
  {
    ghost var start := Under(store.objects, prefix);
    failure, found, deleted, batches := None, 0, 0, 0;
    var cursor: Option<nat> := None;
    var page := 0;
    while page < maxPages
      invariant 0 <= page && deleted == found && failure.None?
      invariant forall k | k in store.removed && k !in old(store.removed) :: prefix <= k
      invariant store.quiet ==> store.objects <= old(store.objects) && old(store.objects) - store.objects <= start
      invariant store.quiet && store.healthy ==> found + |Under(store.objects, prefix)| == |start|
      invariant store.quiet && store.healthy && Under(store.objects, prefix) != {} ==>
                  cursor.None? && |Under(store.objects, prefix)| + page <= |start|
    {
      var listed := store.ListPrefix(prefix, cursor);
      if listed.None? { return Some("storage_unavailable"), found, deleted, batches; }
      var keys := listed.value.keys;
      found := found + |keys|;
      page := page + 1;
      if keys != [] {
        assert forall k | k in keys :: k in KeySet(keys);
        DeletedKeysCount(store.objects, keys, prefix);
        var ok, gone, lots, outage := DeletePage(store, keys, prefix);
        deleted, batches := deleted + gone, batches + lots;
        if !ok { return Some(if outage then "storage_unavailable" else "objects_not_deleted"), found, deleted, batches; }
        cursor := None;
        continue;
      }
      cursor := listed.value.cursor;
      if cursor.None? { break; }
    }
  }

  /** `purgeMeeting`. `now` is the service's clock, `dbNow` the database's when the row goes. */
  method PurgeMeeting(scope: StorageKeys.Scope, store: Store, row: MeetingRow, now: int, dbNow: int, maxPages: nat)
    returns (report: Report)
    requires StorageKeys.ValidScope(scope)
    modifies store`objects, store`removed, row
    // Only keys of this meeting are ever deleted, on any store.
    ensures forall k | k in store.removed && k !in old(store.removed) :: StorageKeys.KeyBelongsToMeeting(k, scope) == Some(true)
    ensures store.quiet ==> old(store.objects) - store.objects <= Under(old(store.objects), Prefix(scope))
    // On a quiet, sound store with pages enough, everything goes and is counted.
    ensures store.quiet && store.healthy && report.outcome != TooEarly && |Under(old(store.objects), Prefix(scope))| <= maxPages ==>
              && report.outcome == (if old(row.Due(dbNow)) then Purged else RowNotDeleted)
              && report.found == report.deleted == |Under(old(store.objects), Prefix(scope))|
    ensures store.quiet && report.remaining == Some(0) ==> Under(store.objects, Prefix(scope)) == {}
    ensures report.outcome == TooEarly <==> old(row.notBefore).Some? && now < old(row.notBefore).value
    ensures report.outcome == TooEarly ==> store.objects == old(store.objects) && row.deletion == old(row.deletion)
    // The row goes only after an empty listing, with every key found deleted, and once it is due.
    ensures row.present == (old(row.present) && report.outcome != Purged)
    ensures report.outcome == Purged <==> report.remaining == Some(0) && old(row.Due(dbNow))
    ensures report.outcome == RowNotDeleted <==> report.remaining == Some(0) && !old(row.Due(dbNow))
    ensures report.outcome == PrefixNotEmpty <==> report.remaining.Some? && report.remaining.value > 0
    ensures report.deleted <= report.found && (report.remaining.Some? ==> report.found == report.deleted)
    ensures store.healthy ==> report.outcome != StorageFailed
    // Any other end leaves it marked for a retry.
    ensures report.outcome != Purged && report.outcome != TooEarly && old(row.present) && old(row.deletion) != P.Live ==>
              row.deletion == P.DeleteFailed && row.failure.Some?
  {
    if row.notBefore.Some? && row.notBefore.value > now { return Report(TooEarly, 0, 0, None, 0); }
    var prefix := Prefix(scope);
    var failure, found, deleted, batches := EmptyPrefix(store, prefix, maxPages);
    if failure.Some? {
      row.MarkDeleteFailed(failure.value);
      return Report(StorageFailed, found, deleted, None, batches);
    }
    var verification := store.ListPrefix(prefix, None);
    if verification.None? {
      row.MarkDeleteFailed("storage_unavailable");
      return Report(StorageFailed, found, deleted, None, batches);
    }
    var remaining := |verification.value.keys|;
    if remaining > 0 {
      assert verification.value.keys[0] in KeySet(verification.value.keys);
      row.MarkDeleteFailed("prefix_not_empty");
      return Report(PrefixNotEmpty, found, deleted, Some(remaining), batches);
    }
    var gone := row.Delete(dbNow);
    if !gone {
      row.MarkDeleteFailed("row_not_deleted");
      return Report(RowNotDeleted, found, deleted, Some(remaining), batches);
    }
    return Report(Purged, found, deleted, Some(remaining), batches);
  }

  // ---- The protocol's steps ------------------------------------------------------------------------

  /** The object is the row of meeting `m` in the tables. */
  predicate Represents(row: MeetingRow, s: P.State, m: Id)
    reads row
  {
    && (row.present <==> m in s.meetings)
    && (m in s.meetings ==> row.deletion == s.meetings[m].deletion && row.notBefore == s.meetings[m].deletionNotBefore)
  }

  /** The row goes here exactly when the step that deletes it does something there, once a re-list was empty. */
  lemma DueIsDeleteRow(row: MeetingRow, s: P.State, p: P.Purger)
    requires P.RefsOk(s) && Represents(row, s, p.meeting) && p in s.purgers && p.sawEmpty
    ensures p.meeting !in P.Next(s, P.DoDeleteRow(p)).meetings <==> !row.present || row.Due(s.now)
    ensures !row.Due(s.now) ==> P.Next(s, P.DoDeleteRow(p)) == s
  {
  }

  /** A purge that is not too early, of a meeting to be deleted that has a deadline, is one that may start there. */
  lemma NotTooEarlyIsStart(row: MeetingRow, s: P.State, m: Id)
    requires P.RefsOk(s) && Represents(row, s, m)
    ensures row.present && row.deletion != P.Live && row.notBefore.Some? && row.notBefore.value <= s.now
            ==> P.Purger(m, row.notBefore.value, false) in P.Next(s, P.DoStartPurge(m)).purgers
    ensures row.notBefore.Some? && s.now < row.notBefore.value ==> P.Next(s, P.DoStartPurge(m)) == s
  {
  }

  lemma {:induction false} PurgedKeys(s: P.State, p: P.Purger, keys: seq<P.ObjectKey>)
    requires P.RefsOk(s) && p in s.purgers && forall i | 0 <= i < |keys| :: keys[i].meeting == p.meeting
    ensures T.After(s, PurgeSteps(p, keys)) == s.(objects := s.objects - (set k | k in keys))
    decreases |keys|
  {
    if keys == [] {
      assert s.objects - (set k | k in keys) == s.objects;
    } else {
      var t := P.PurgeObject(s, p, keys[0]);
      assert PurgeSteps(p, keys)[0] == P.DoPurgeObject(p, keys[0]) && PurgeSteps(p, keys)[1..] == PurgeSteps(p, keys[1..]);
      PurgedKeys(t, p, keys[1..]);
      assert s.objects - (set k | k in keys) == t.objects - (set k | k in keys[1..]);
    }
  }

  /** The steps of deleting these keys. */
  function PurgeSteps(p: P.Purger, keys: seq<P.ObjectKey>): seq<P.Step>
  {
    if keys == [] then [] else [P.DoPurgeObject(p, keys[0])] + PurgeSteps(p, keys[1..])
  }

  /** Deleting the keys of the prefix one by one and listing it again are steps that find it empty exactly when all were deleted. */
  lemma PurgeIsSteps(s: P.State, p: P.Purger, keys: seq<P.ObjectKey>)
    requires P.RefsOk(s) && p in s.purgers && forall i | 0 <= i < |keys| :: keys[i].meeting == p.meeting
    ensures var t := T.After(s, PurgeSteps(p, keys));
            P.PrefixEmpty(t, p.meeting) <==> forall k | k in s.objects && k.meeting == p.meeting :: k in keys
  {
    PurgedKeys(s, p, keys);
  }

  /** The prefix a meeting's purge empties. */
  function Prefix(scope: StorageKeys.Scope): string
    requires StorageKeys.ValidScope(scope)
  {
    StorageKeys.MeetingPrefix(scope).value + "/"
  }
}
