/** What each operation does to every live queue and to the log, read off the fields. */
module TaskEffects {
  import opened Wrappers
  import opened DelayedTasks
  import opened TaskSources
  import opened Unions
  import opened TaskQueueTable
  import opened TaskQueueRuns
  import opened TaskConservation
  import opened TaskDispatch
  import opened TaskOwnership

  /** Only the source of the entry differs. */
  ghost predicate SameButSource(e: Entry, e': Entry) {
    e'.ownerOf == e.ownerOf && e'.subsumedBy == e.subsumedBy && e'.wakeable == e.wakeable
  }

  // ----- Registering

  /** The task goes to the queue that was named, merged or not, on the heap of its grade; no
      other queue's source changes, and no queue's links. */
  lemma RegisterTouchesItsQueue(t: Table, q: QueueId, closure: nat, time: int, grade: Grade, p: QueueId)
    requires t.Valid() && q in t.entries && p in t.entries
    ensures var t', task := t.Register(q, closure, time, grade), Task(t.order, closure, time, grade);
      && t'.entries.Keys == t.entries.Keys && t'.order == t.order + 1 && SameButSource(t.entries[p], t'.entries[p])
      && t'.entries[q].source.Held() == t.entries[q].source.Held() + multiset{task}
      && (p != q ==> t'.entries[p].source == t.entries[p].source)
      && var s, s' := t.entries[q].source, t'.entries[q].source;
         && s'.pause == s.pause
         && if grade == DartEventLoop
            then multiset(s'.secondary) == multiset(s.secondary) + multiset{task} && s'.primary == s.primary
            else multiset(s'.primary) == multiset(s.primary) + multiset{task} && s'.secondary == s.secondary
  {
    hide IsForest, IsTidy, Table.Woken, Source.Held;
    var task := Task(t.order, closure, time, grade);
    var s := t.entries[q].source;
    SubmittedIsValid(t, q, task);
    SubmittedSource(t, q, task);
    ServingIsLive(t, q);
    WokenEntries(t.Submitted(q, task), t.LoopOf(q));
    WokenKeepsRest(t.Submitted(q, task), t.LoopOf(q));
    PushKeepsTasks(s.secondary, task);
    PushKeepsTasks(s.primary, task);
  }

  /** From `t` to `t'` the source of `q` got the task and no other source changed. */
  ghost predicate TaskAdded(t: Table, t': Table, q: QueueId, task: Task)
    requires q in t.entries
  {
    && t'.entries.Keys == t.entries.Keys
    && t'.entries[q].source.Held() == t.entries[q].source.Held() + multiset{task}
    && forall p :: p in t.entries && p != q ==> t'.entries[p].source == t.entries[p].source
  }

  lemma RegisterAddsTask(t: Table, q: QueueId, closure: nat, time: int, grade: Grade)
    requires t.Valid()
    ensures q in t.entries ==>
      TaskAdded(t, t.Register(q, closure, time, grade), q, Task(t.order, closure, time, grade))
  {
    hide IsForest, IsTidy, Table.Register, Source.Held;
    if q in t.entries {
      RegisterTouchesItsQueue(t, q, closure, time, grade, q);
      forall p | p in t.entries && p != q
        ensures p in t.Register(q, closure, time, grade).entries
          && t.Register(q, closure, time, grade).entries[p].source == t.entries[p].source
      {
        RegisterTouchesItsQueue(t, q, closure, time, grade, p);
      }
    }
  }

  lemma WokenKeepsRest(t: Table, q: QueueId)
    requires t.Valid() && q in t.entries
    ensures t.Woken(q) == t.(wakes := t.Woken(q).wakes)
  {
    hide IsForest, IsTidy, Table.HasPending, Table.Peek;
  }

  /** On a dead queue only the order number is spent. */
  lemma RegisterOnDeadQueue(t: Table, q: QueueId, closure: nat, time: int, grade: Grade)
    requires t.Valid() && q !in t.entries
    ensures t.Register(q, closure, time, grade) == t.(order := t.order + 1)
  {
    hide IsForest, IsTidy;
  }

  // ----- Wake-ups

  /** From log `before` to log `after` the loop of `q` was woken for the earliest task its list in `t`
      has, if it has a loop and a task; and nobody else was. */
  ghost predicate WokeOnly(before: seq<Wake>, after: seq<Wake>, t: Table, q: QueueId)
    requires t.Forest() && q in t.entries
  {
    if t.VisibleOf(q) == multiset{} || !t.entries[q].wakeable then after == before
    else
      exists u :: u in t.VisibleOf(q) && (forall w :: w in t.VisibleOf(q) ==> u.time <= w.time)
        && after == before + [Wake(q, u.time)]
  }

  lemma WokenWokeOnly(t: Table, q: QueueId)
    requires t.Valid() && q in t.entries
    ensures t.Woken(q).Valid() && t.Woken(q).entries == t.entries
    ensures WokeOnly(t.wakes, t.Woken(q).wakes, t, q) && WokeOnly(t.wakes, t.Woken(q).wakes, t.Woken(q), q)
  {
    hide IsForest, IsTidy, Table.VisibleOf, Table.Woken;
    WokenIsValid(t, q);
    WakesForLeast(t, q);
    SameEntriesSameList(t, t.Woken(q), q);
    if !(t.VisibleOf(q) == multiset{} || !t.entries[q].wakeable) {
      var u :| IsLeast(u, t.VisibleOf(q)) && t.Woken(q).wakes == t.wakes + [Wake(q, u.time)];
      assert forall w :: w in t.VisibleOf(q) ==> u.time <= w.time;
    }
  }

  /** RegisterTask wakes the loop that serves the queue, its owner's if it is subsumed. */
  lemma RegisterWakes(t: Table, q: QueueId, closure: nat, time: int, grade: Grade)
    requires t.Valid() && q in t.entries
    ensures var t' := t.Register(q, closure, time, grade);
      var serving := match t.entries[q].subsumedBy case Some(owner) => owner case None => q;
      t'.Valid() && serving in t'.entries && WokeOnly(t.wakes, t'.wakes, t', serving)
  {
    hide IsForest, IsTidy, Table.Woken, WokeOnly;
    var task := Task(t.order, closure, time, grade);
    SubmittedIsValid(t, q, task);
    ServingIsLive(t, q);
    WokenWokeOnly(t.Submitted(q, task), t.LoopOf(q));
  }

  lemma ServingIsLive(t: Table, q: QueueId)
    requires t.Forest() && q in t.entries
    ensures t.LoopOf(q) in t.entries
  {
  }

  /** GetNextTaskToRun wakes the loop for the task it finds, due or not, before it takes it. */
  lemma GetNextWakes(t: Table, q: QueueId, now: int)
    requires t.Valid() && q in t.entries
    ensures WokeOnly(t.wakes, t.GetNext(q, now).0.wakes, t, q)
  {
    hide IsForest, IsTidy, Table.VisibleOf, Table.Woken, Table.HasPending, Table.Peek, WokeOnly;
    WokenWokeOnly(t, q);
    if t.HasPending(q) {
      if t.Peek(q).1.time <= now { GetNextDue(t, q, now); } else { GetNextNotDue(t, q, now); }
    } else {
      NotPendingNotWoken(t, q);
    }
  }

  lemma NotPendingNotWoken(t: Table, q: QueueId)
    requires t.Valid() && q in t.entries && !t.HasPending(q)
    ensures t.Woken(q) == t
  {
    hide IsForest, IsTidy, Table.HasPending;
  }

  /** A Merge that links wakes the owner alone, for its grown list; an Unmerge wakes the owner and
      then the queue it let go; a resume wakes the resumed queue itself. */
  lemma MergeWakes(t: Table, owner: QueueId, subsumed: QueueId)
    requires t.Valid() && t.CanMerge(owner, subsumed)
    ensures var t' := t.Merge(owner, subsumed).0;
      t'.Valid() && owner in t'.entries && WokeOnly(t.wakes, t'.wakes, t', owner)
  {
    hide IsForest, IsTidy, Table.Woken, WokeOnly;
    LinkedIsValid(t, owner, subsumed);
    MergeIsValid(t, owner, subsumed);
    NotYetOwned(t, owner, subsumed);
    WokenWokeOnly(t.Linked(owner, subsumed), owner);
  }

  lemma NotYetOwned(t: Table, owner: QueueId, subsumed: QueueId)
    requires t.Forest() && t.CanMerge(owner, subsumed)
    ensures subsumed !in t.entries[owner].ownerOf
  {
  }

  lemma UnmergeWakes(t: Table, owner: QueueId, subsumed: QueueId)
    requires t.Valid() && owner in t.entries && subsumed in t.entries[owner].ownerOf
    ensures var t' := t.Unmerge(owner, subsumed).0;
      t'.Valid() && owner in t'.entries && subsumed in t'.entries
      && exists between :: WokeOnly(t.wakes, between, t', owner) && WokeOnly(between, t'.wakes, t', subsumed)
  {
    hide IsForest, IsTidy, Table.Woken, WokeOnly, Table.VisibleOf;
    OwnedIsLive(t, owner, subsumed);
    UnlinkedIsValid(t, owner, subsumed);
    var t1 := t.Unlinked(owner, subsumed);
    WokenWokeOnly(t1, owner);
    var t2 := t1.Woken(owner);
    WokenWokeOnly(t2, subsumed);
    UnmergeIs(t, owner, subsumed);
    WokeOnlySame(t.wakes, t2.wakes, t1, t2.Woken(subsumed), owner);
  }

  lemma UnmergeIs(t: Table, owner: QueueId, subsumed: QueueId)
    requires t.Valid() && owner in t.entries && subsumed in t.entries[owner].ownerOf
    ensures subsumed in t.entries && subsumed != owner && t.Unlinked(owner, subsumed).Valid()
    ensures var t1 := t.Unlinked(owner, subsumed);
      && t1.Woken(owner).Valid() && subsumed in t1.Woken(owner).entries
      && t.Unmerge(owner, subsumed).0 == t1.Woken(owner).Woken(subsumed)
  {
    OwnedIsLive(t, owner, subsumed);
    UnlinkedIsValid(t, owner, subsumed);
    OwnerHasLoop(t, owner, subsumed);
    hide IsForest, IsTidy, Table.Woken;
    WokenWokeOnly(t.Unlinked(owner, subsumed), owner);
  }

  lemma OwnerHasLoop(t: Table, owner: QueueId, subsumed: QueueId)
    requires t.Forest() && owner in t.entries && subsumed in t.entries[owner].ownerOf
    ensures t.entries[owner].subsumedBy.None?
  {
  }

  lemma WokeOnlySame(before: seq<Wake>, after: seq<Wake>, t: Table, t': Table, q: QueueId)
    requires t.Forest() && q in t.entries && t'.entries == t.entries && WokeOnly(before, after, t, q)
    ensures t'.Forest() && WokeOnly(before, after, t', q)
  {
    SameEntriesSameList(t, t', q);
    hide IsForest, Table.VisibleOf;
  }

  lemma ResumeWakes(t: Table, q: QueueId)
    requires t.Valid() && q in t.entries && t.entries[q].source.pause > 0
    ensures var t' := t.Resume(q); t'.Valid() && q in t'.entries && WokeOnly(t.wakes, t'.wakes, t', q)
  {
    hide IsForest, IsTidy, Table.Woken, WokeOnly;
    ResumedIsValid(t, q);
    WokenWokeOnly(t.Resumed(q), q);
  }

  // ----- The other operations, entry by entry

  lemma CreateAddsOne(t: Table, p: QueueId)
    requires t.Valid()
    ensures var t' := t.Create(); var id := t.nextId;
      && id !in t.entries && t'.entries.Keys == t.entries.Keys + {id} && t'.nextId == id + 1 && t'.wakes == t.wakes
      && (p in t.entries ==> t'.entries[p] == t.entries[p])
      && var e := t'.entries[id];
         && e.source.primary == [] && e.source.secondary == [] && e.source.pause == 0
         && e.ownerOf == {} && e.subsumedBy == None && !e.wakeable
  {
    hide IsForest;
    CreateIsNew(t);
  }

  lemma SetWakeableTouchesItsQueue(t: Table, q: QueueId, p: QueueId)
    requires q in t.entries && p in t.entries
    ensures var t' := t.SetWakeable(q);
      && t'.entries.Keys == t.entries.Keys && t'.wakes == t.wakes
      && t'.entries[q].wakeable && t'.entries[p].source == t.entries[p].source
      && t'.entries[p].ownerOf == t.entries[p].ownerOf && t'.entries[p].subsumedBy == t.entries[p].subsumedBy
      && (p != q ==> t'.entries[p] == t.entries[p])
  {
  }

  /** Pausing and resuming count on the queue that was named, whoever owns it. */
  lemma PauseTouchesItsQueue(t: Table, q: QueueId, p: QueueId)
    requires q in t.entries && p in t.entries
    ensures var t' := t.Pause(q); var s, s' := t.entries[q].source, t'.entries[q].source;
      && t'.entries.Keys == t.entries.Keys && t'.wakes == t.wakes && SameButSource(t.entries[p], t'.entries[p])
      && s'.pause == s.pause + 1 && s'.primary == s.primary && s'.secondary == s.secondary
      && (p != q ==> t'.entries[p].source == t.entries[p].source)
  {
  }

  lemma ResumeTouchesItsQueue(t: Table, q: QueueId, p: QueueId)
    requires t.Valid() && q in t.entries && p in t.entries && t.entries[q].source.pause > 0
    ensures var t' := t.Resume(q); var s, s' := t.entries[q].source, t'.entries[q].source;
      && t'.entries.Keys == t.entries.Keys && SameButSource(t.entries[p], t'.entries[p])
      && s'.pause == s.pause - 1 && s'.primary == s.primary && s'.secondary == s.secondary
      && (p != q ==> t'.entries[p].source == t.entries[p].source)
  {
    hide IsForest, IsTidy, Table.Woken;
    ResumedIsValid(t, q);
    WokenEntries(t.Resumed(q), q);
  }

  /** Both heaps of the queue and of every queue it owns are emptied; their pauses, all links and all
      other queues stay. */
  lemma DisposeTasksEmptiesGroup(t: Table, q: QueueId, p: QueueId)
    requires t.Valid() && q in t.entries && p in t.entries
    ensures var t' := t.DisposeTasks(q); var s, s' := t.entries[p].source, t'.entries[p].source;
      && t'.entries.Keys == t.entries.Keys && t'.wakes == t.wakes && SameButSource(t.entries[p], t'.entries[p])
      && s'.pause == s.pause
      && if p == q || p in t.entries[q].ownerOf then s'.primary == [] && s'.secondary == [] else s' == s
  {
    hide IsForest, IsTidy, Union;
  }

  /** A Merge that links writes two links, one each way, and nothing else of any entry. */
  lemma MergeWritesTwoLinks(t: Table, owner: QueueId, subsumed: QueueId, p: QueueId)
    requires t.Valid() && t.CanMerge(owner, subsumed) && p in t.entries
    ensures var t' := t.Merge(owner, subsumed).0; var e, e' := t.entries[p], t'.entries[p];
      && t' == t.(entries := t'.entries, wakes := t'.wakes)
      && t'.entries.Keys == t.entries.Keys && e'.source == e.source && e'.wakeable == e.wakeable
      && e'.ownerOf == (if p == owner then e.ownerOf + {subsumed} else e.ownerOf)
      && e'.subsumedBy == if p == subsumed then Some(owner) else e.subsumedBy
  {
    hide IsForest, IsTidy;
    MergeShape(t, owner, subsumed);
    hide Table.Merge;
  }

  lemma UnmergeErasesTwoLinks(t: Table, owner: QueueId, subsumed: QueueId, p: QueueId)
    requires t.Valid() && owner in t.entries && subsumed in t.entries[owner].ownerOf && p in t.entries
    ensures var t' := t.Unmerge(owner, subsumed).0; var e, e' := t.entries[p], t'.entries[p];
      && t' == t.(entries := t'.entries, wakes := t'.wakes)
      && t'.entries.Keys == t.entries.Keys && e'.source == e.source && e'.wakeable == e.wakeable
      && e'.ownerOf == (if p == owner then e.ownerOf - {subsumed} else e.ownerOf)
      && e'.subsumedBy == if p == subsumed then None else e.subsumedBy
  {
    hide IsForest, IsTidy;
    UnmergeShape(t, owner, subsumed);
    hide Table.Unmerge;
  }

  /** Disposing wakes nobody and frees no id: later queues get new ones. */
  lemma DisposeKeepsCounters(t: Table, q: QueueId)
    requires t.Valid()
    ensures var t' := t.Dispose(q); t'.wakes == t.wakes && t'.nextId == t.nextId && t'.order == t.order
  {
    hide IsForest, IsTidy, Union;
  }

  // ----- What a queue offers

  /** A task is on offer unless it is of the secondary grade and its source is paused. */
  lemma VisibleIs(s: Source, u: Task)
    requires s.Valid()
    ensures s.Visible()[u] == if u.grade == DartEventLoop && s.pause > 0 then 0 else multiset(s.primary)[u] + multiset(s.secondary)[u]
  {
    if u.grade == DartEventLoop { assert u !in s.primary; } else { assert u !in s.secondary; }
  }

  lemma UnionOfGroup(q: QueueId, owned: set<QueueId>, f: map<QueueId, multiset<Task>>, u: Task)
    requires {q} + owned <= f.Keys
    ensures u in Union({q} + owned, f) <==> u in f[q] || exists s :: s in owned && u in f[s]
  {
    UnionMember({q} + owned, f, u);
    hide Union;
  }

  lemma FlatListOf(t: Table, q: QueueId)
    requires t.Valid() && q in t.entries
    ensures {q} + t.entries[q].ownerOf <= t.entries.Keys == t.VisibleMap().Keys
    ensures t.VisibleOf(q) ==
      if t.entries[q].subsumedBy.Some? then multiset{} else Union({q} + t.entries[q].ownerOf, t.VisibleMap())
  {
    GroupIsLive(t, q);
    hide IsForest, IsTidy, Union, Source.Visible;
  }

  lemma Offered(t: Table, q: QueueId, u: Task)
    requires q in t.entries
    ensures q in t.VisibleMap() && (u in t.VisibleMap()[q] <==> u in t.entries[q].source.Visible())
  {
  }

  /** The flat list of a queue is what it and the queues it owns offer; a subsumed queue has none. */
  lemma FlatListIs(t: Table, q: QueueId, u: Task)
    requires t.Valid() && q in t.entries
    ensures t.entries[q].ownerOf <= t.entries.Keys
    ensures u in t.VisibleOf(q) <==>
      && t.entries[q].subsumedBy == None
      && (u in t.entries[q].source.Visible() || exists s :: s in t.entries[q].ownerOf && u in t.entries[s].source.Visible())
  {
    hide IsForest, IsTidy, Union, Source.Visible, Table.VisibleOf, Table.VisibleMap;
    FlatListOf(t, q);
    Offered(t, q, u);
    forall s | s in t.entries[q].ownerOf
      ensures s in t.VisibleMap() && (u in t.VisibleMap()[s] <==> u in t.entries[s].source.Visible())
    {
      Offered(t, s, u);
    }
    UnionOfGroup(q, t.entries[q].ownerOf, t.VisibleMap(), u);
  }
}
