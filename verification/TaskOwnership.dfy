/** Which queue serves which: ownership over whole runs, and what merging can undo. */
module TaskOwnership {
  import opened Wrappers
  import opened DelayedTasks
  import opened TaskSources
  import opened TaskQueueTable
  import opened TaskQueueRuns

  /** The three states a queue can be in. */
  predicate IsOwner(t: Table, q: QueueId) requires q in t.entries { t.entries[q].ownerOf != {} && t.entries[q].subsumedBy.None? }
  predicate IsSubsumed(t: Table, q: QueueId) requires q in t.entries { t.entries[q].ownerOf == {} && t.entries[q].subsumedBy.Some? }
  predicate IsIndependent(t: Table, q: QueueId) requires q in t.entries { t.entries[q].ownerOf == {} && t.entries[q].subsumedBy.None? }

  /** In every reachable table the two kinds of link agree, name live queues only, never a queue
      itself, and leave each queue in exactly one of the three states. */
  lemma OwnershipIsAForest(ops: seq<Op>, q: QueueId, s: QueueId)
    requires AllowedRun(ops) && q in Run(ops).entries
    ensures var t := Run(ops);
            && (s in t.entries[q].ownerOf <==> s in t.entries && t.entries[s].subsumedBy == Some(q))
            && q !in t.entries[q].ownerOf
            && (s in t.entries[q].ownerOf ==> IsOwner(t, q) && IsSubsumed(t, s))
            && (t.entries[q].subsumedBy.Some? ==> t.entries[q].subsumedBy.value in t.entries)
            && (IsOwner(t, q) || IsSubsumed(t, q) || IsIndependent(t, q))
  {
    hide IsTidy, Run, AllowedRun;
    var t := Run(ops);
    assert t.Valid();
    if s in t.entries[q].ownerOf { OwnedIsLive(t, q, s); }
  }

  /** Disposing of a queue takes its whole group, and no queue left names one that is gone. */
  lemma DisposeLeavesNoTrace(t: Table, q: QueueId, p: QueueId)
    requires t.Valid() && q in t.entries && t.entries[q].subsumedBy.None?
    requires p in t.Dispose(q).entries
    ensures var t' := t.Dispose(q);
            && t'.entries.Keys == t.entries.Keys - t.Group(q) && t'.entries[p] == t.entries[p]
            && t.entries[p].ownerOf !! t.Group(q)
            && (t.entries[p].subsumedBy.Some? ==> t.entries[p].subsumedBy.value !in t.Group(q))
  {
    hide IsForest, IsTidy;
    DisposeIsForest(t, q);
    ForestIsClosed(t.entries - t.Group(q), p);
  }

  lemma ForestIsClosed(entries: map<QueueId, Entry>, p: QueueId)
    requires IsForest(entries) && p in entries
    ensures entries[p].ownerOf <= entries.Keys
    ensures entries[p].subsumedBy.Some? ==> entries[p].subsumedBy.value in entries
  {
  }

  lemma MergeShape(t: Table, owner: QueueId, subsumed: QueueId)
    requires t.Valid() && t.CanMerge(owner, subsumed)
    ensures t.Merge(owner, subsumed).1 == Ok(true) && t.Linked(owner, subsumed).Valid()
    ensures t.Merge(owner, subsumed).0 == t.Linked(owner, subsumed).(wakes := t.Merge(owner, subsumed).0.wakes)
  {
    hide IsForest, IsTidy, Table.HasPending, Table.Peek;
    LinkedIsValid(t, owner, subsumed);
    CanMergeIsNew(t, owner, subsumed);
  }

  lemma CanMergeIsNew(t: Table, owner: QueueId, subsumed: QueueId)
    requires t.Forest() && t.CanMerge(owner, subsumed)
    ensures subsumed !in t.entries[owner].ownerOf
  {
  }

  lemma UnmergeShape(t: Table, owner: QueueId, subsumed: QueueId)
    requires t.Valid() && owner in t.entries && subsumed in t.entries[owner].ownerOf
    ensures subsumed in t.entries && subsumed != owner
    ensures t.Unmerge(owner, subsumed).1 == Ok(true)
    ensures t.Unmerge(owner, subsumed).0 == t.Unlinked(owner, subsumed).(wakes := t.Unmerge(owner, subsumed).0.wakes)
  {
    hide IsForest, IsTidy, Table.HasPending, Table.Peek;
    OwnedIsLive(t, owner, subsumed);
    UnlinkedIsValid(t, owner, subsumed);
    WokenIsValid(t.Unlinked(owner, subsumed), owner);
  }

  lemma LinkThenUnlink(t: Table, owner: QueueId, subsumed: QueueId)
    requires t.Forest() && t.CanMerge(owner, subsumed)
    ensures t.Linked(owner, subsumed).Unlinked(owner, subsumed) == t
  {
    CanMergeIsNew(t, owner, subsumed);
    hide IsForest;
    var t1 := t.Linked(owner, subsumed);
    assert t1.entries[owner].ownerOf - {subsumed} == t.entries[owner].ownerOf;
    assert t1.Unlinked(owner, subsumed).entries == t.entries;
  }

  lemma UnlinkedIgnoresLog(t: Table, owner: QueueId, subsumed: QueueId, wakes: seq<Wake>)
    requires owner in t.entries && subsumed in t.entries && owner != subsumed
    ensures t.(wakes := wakes).Unlinked(owner, subsumed) == t.Unlinked(owner, subsumed).(wakes := wakes)
  {
  }

  /** Merging two queues and unmerging them again restores the table, wake-ups aside. */
  lemma MergeThenUnmerge(t: Table, owner: QueueId, subsumed: QueueId)
    requires t.Valid() && t.CanMerge(owner, subsumed)
    ensures var t1 := t.Merge(owner, subsumed).0;
            && t1.Valid() && t.Merge(owner, subsumed).1 == Ok(true)
            && t1.Unmerge(owner, subsumed).1 == Ok(true)
            && t1.Unmerge(owner, subsumed).0 == t.(wakes := t1.Unmerge(owner, subsumed).0.wakes)
  {
    hide IsForest, IsTidy, Table.Merge, Table.Unmerge, Table.Unlinked;
    MergeShape(t, owner, subsumed);
    MergeIsValid(t, owner, subsumed);
    var t1 := t.Merge(owner, subsumed).0;
    UnmergeShape(t1, owner, subsumed);
    UnlinkedIgnoresLog(t.Linked(owner, subsumed), owner, subsumed, t1.wakes);
    LinkThenUnlink(t, owner, subsumed);
  }

  /** When each call is refused: a failed merge or unmerge changes nothing. */
  lemma RefusedChangesNothing(t: Table, owner: QueueId, subsumed: QueueId)
    requires t.Valid() && owner in t.entries && subsumed in t.entries
    ensures t.Merge(owner, subsumed).1 == Ok(false) ==>
              t.Merge(owner, subsumed).0 == t && (IsSubsumed(t, owner) || IsOwner(t, subsumed) || IsSubsumed(t, subsumed))
    ensures t.Unmerge(owner, subsumed).1 == Ok(owner in t.entries && t.Owns(owner, subsumed))
    ensures !t.Owns(owner, subsumed) ==> t.Unmerge(owner, subsumed).0 == t
  {
    if subsumed in t.entries[owner].ownerOf { UnmergeShape(t, owner, subsumed); }
    ThreeStates(t, owner);
    ThreeStates(t, subsumed);
    hide IsForest, IsTidy;
  }

  /** Between two live queues each call decides who owns whom, and touches no other pair: after a
      Merge the owner owns the queue exactly when the call said so, and after an Unmerge it does not,
      the call saying whether it did. */
  lemma CallsDecideOwnership(t: Table, owner: QueueId, subsumed: QueueId, q: QueueId, s: QueueId)
    requires t.Valid() && owner in t.entries && subsumed in t.entries && owner != subsumed && q in t.entries
    ensures var (t', r) := t.Merge(owner, subsumed);
            && r == Ok(t'.Owns(owner, subsumed)) && t'.entries.Keys == t.entries.Keys
            && ((q, s) != (owner, subsumed) ==> t'.Owns(q, s) == t.Owns(q, s))
    ensures var (t', r) := t.Unmerge(owner, subsumed);
            && r == Ok(t.Owns(owner, subsumed)) && t'.entries.Keys == t.entries.Keys
            && !t'.Owns(owner, subsumed) && ((q, s) != (owner, subsumed) ==> t'.Owns(q, s) == t.Owns(q, s))
  {
    RefusedChangesNothing(t, owner, subsumed);
    if t.CanMerge(owner, subsumed) { MergeShape(t, owner, subsumed); }
    if t.Owns(owner, subsumed) { UnmergeShape(t, owner, subsumed); }
    hide IsForest, IsTidy, Table.Woken, Table.Unmerge;
  }

  lemma ThreeStates(t: Table, q: QueueId)
    requires t.Forest() && q in t.entries
    ensures t.entries[q].subsumedBy.Some? ==> t.entries[q].ownerOf == {}
  {
  }
}
