/** Runs of the queue table: any sequence of its operations, in any order. */
module TaskQueueRuns {
  import opened Wrappers
  import opened DelayedTasks
  import opened TaskSources
  import opened Unions
  import opened TaskQueueTable

  datatype Op =
    | Create
    | SetWakeable(q: QueueId)
    | Dispose(q: QueueId)
    | DisposeTasks(q: QueueId)
    | Register(q: QueueId, closure: nat, time: int, grade: Grade)
    | GetNext(q: QueueId, now: int)
    | Merge(owner: QueueId, subsumed: QueueId)
    | Unmerge(owner: QueueId, subsumed: QueueId)
    | Pause(q: QueueId)
    | Resume(q: QueueId)

  /** What the CHECKs and DCHECKs of the source demand of the caller. */
  ghost predicate Allowed(t: Table, op: Op) {
    match op
    case SetWakeable(q) => q in t.entries ==> !t.entries[q].wakeable
    case Dispose(q) => q in t.entries ==> t.entries[q].subsumedBy.None?
    case DisposeTasks(q) => q in t.entries ==> t.entries[q].subsumedBy.None?
    case Resume(q) => q in t.entries ==> t.entries[q].source.pause > 0
    case _ => true
  }

  ghost function Apply(t: Table, op: Op): Table
    requires t.Valid() && Allowed(t, op)
  {
    match op
    case Create => t.Create()
    case SetWakeable(q) => t.SetWakeable(q)
    case Dispose(q) => t.Dispose(q)
    case DisposeTasks(q) => t.DisposeTasks(q)
    case Register(q, closure, time, grade) => t.Register(q, closure, time, grade)
    case GetNext(q, now) => t.GetNext(q, now).0
    case Merge(owner, subsumed) => t.Merge(owner, subsumed).0
    case Unmerge(owner, subsumed) => t.Unmerge(owner, subsumed).0
    case Pause(q) => t.Pause(q)
    case Resume(q) => t.Resume(q)
  }

  /** Every call of the run meets the demands on its caller. */
  ghost predicate AllowedRun(ops: seq<Op>)
    decreases |ops|, 0
  {
    ops == [] || (AllowedRun(ops[..|ops| - 1]) && Allowed(Run(ops[..|ops| - 1]), ops[|ops| - 1]))
  }

  /** The table after a run that started with no queues. Every reachable table is valid. */
  ghost function Run(ops: seq<Op>): (t: Table)
    requires AllowedRun(ops)
    ensures t.Valid()
    decreases |ops|, 1
  {
    if ops == [] then EmptyTable
    else
      StepIsValid(Run(ops[..|ops| - 1]), ops[|ops| - 1]);
      Apply(Run(ops[..|ops| - 1]), ops[|ops| - 1])
  }

  // ----- Every step keeps the table valid

  lemma CreateIsNew(t: Table)
    requires t.Valid()
    ensures t.nextId !in t.entries
  {
  }

  lemma CreateIsForest(t: Table)
    requires t.Forest() && t.nextId !in t.entries
    ensures t.Create().Forest()
  {
    var e, e' := t.entries, t.Create().entries;
    assert forall q :: q in e ==> e'[q] == e[q];
    assert e'[t.nextId].ownerOf == {} && e'[t.nextId].subsumedBy.None?;
  }

  lemma CreateIsValid(t: Table)
    requires t.Valid()
    ensures t.Create().Valid()
  {
    hide IsForest;
    assert SourceTidy(t.nextId, EmptyEntry.source, t.homes);
    hide SourceTidy;
    CreateIsForest(t);
  }

  lemma SetWakeableIsValid(t: Table, q: QueueId)
    requires t.Valid()
    ensures t.SetWakeable(q).Valid()
  {
    hide SourceTidy;
  }

  /** Two queues with loops of their own serve disjoint groups. */
  lemma GroupsAreDisjoint(t: Table, p: QueueId, q: QueueId)
    requires t.Forest() && p in t.entries && q in t.entries && p != q
    requires t.entries[p].subsumedBy.None? && t.entries[q].subsumedBy.None?
    ensures t.Group(p) !! t.Group(q) && t.Group(p) <= t.entries.Keys
  {
    forall x | x in t.Group(p) ensures x !in t.Group(q) && x in t.entries {
      if x in t.entries[p].ownerOf { assert t.entries[x].subsumedBy == Some(p); }
    }
  }

  lemma DisposeIsForest(t: Table, q: QueueId)
    requires t.Forest() && q in t.entries && t.entries[q].subsumedBy.None?
    ensures IsForest(t.entries - t.Group(q))
  {
    var e := t.entries - t.Group(q);
    forall p, s | p in e && s in e[p].ownerOf ensures s in e {
      assert t.entries[s].subsumedBy == Some(p);
    }
    forall s | s in e && e[s].subsumedBy.Some? ensures e[s].subsumedBy.value in e {
      var p := e[s].subsumedBy.value;
      assert s in t.entries[p].ownerOf;
      assert t.entries[p].subsumedBy.None?;
    }
  }

  lemma DisposeIsValid(t: Table, q: QueueId)
    requires t.Valid() && (q in t.entries ==> t.entries[q].subsumedBy.None?)
    ensures t.Dispose(q).Valid()
  {
    hide SourceTidy;
    if q in t.entries { DisposeIsForest(t, q); }
    hide IsForest;
  }

  lemma DisposeTasksIsForest(t: Table, q: QueueId)
    requires t.Forest()
    ensures t.DisposeTasks(q).Forest()
  {
    SameLinks(t.entries, t.DisposeTasks(q).entries);
  }

  /** A forest is a matter of the links alone. */
  lemma SameLinks(e: map<QueueId, Entry>, f: map<QueueId, Entry>)
    requires IsForest(e) && f.Keys == e.Keys
    requires forall p :: p in e ==> f[p].ownerOf == e[p].ownerOf && f[p].subsumedBy == e[p].subsumedBy
    ensures IsForest(f)
  {
  }

  lemma DisposeTasksIsValid(t: Table, q: QueueId)
    requires t.Valid()
    ensures t.DisposeTasks(q).Valid()
  {
    DisposeTasksIsForest(t, q);
    hide IsForest;
    var t' := t.DisposeTasks(q);
    forall p | p in t.entries ensures SourceTidy(p, t'.entries[p].source, t.homes) {
      assert SourceTidy(p, t.entries[p].source, t.homes);
      assert SourceTidy(p, t.entries[p].source.ShutDown(), t.homes);
    }
    hide SourceTidy;
  }

  lemma FirstIsTop(q: QueueId, s: Source, homes: map<nat, Home>, task: Task)
    requires SourceTidy(q, s, homes) && task in s.Visible() && AllAfter(task, s)
    ensures !s.IsEmpty() && task == s.Top()
    ensures if task.grade == DartEventLoop then s.secondary != [] else s.primary != []
    ensures s.Pop(task.grade).Valid()
    ensures s.Pop(task.grade).Held() == s.Held() - multiset{task}
    ensures s.Pop(task.grade).Visible() == s.Visible() - multiset{task}
  {
    VisibleCount(s);
    SourceOrders(q, s, homes);
    TopIsLeast(s);
  }

  /** The task that is next heads a heap of the queue that holds it. */
  lemma PeekIsTop(t: Table, q: QueueId)
    requires t.Valid() && q in t.entries && t.HasPending(q)
    ensures var (h, task) := t.Peek(q);
            && h in t.Group(q) && h in t.entries && SourceTidy(h, t.entries[h].source, t.homes)
            && task in t.entries[h].source.Visible() && AllAfter(task, t.entries[h].source)
  {
    hide Table.HasPending, SourceTidy, AllAfter;
    var r := t.Peek(q);
    assert t.Group(q) <= t.entries.Keys;
    assert SourceTidy(r.0, t.entries[r.0].source, t.homes);
  }

  lemma PoppedIsValid(t: Table, q: QueueId)
    requires t.Valid() && q in t.entries && t.HasPending(q)
    ensures var (h, task) := t.Peek(q);
            && h in t.Group(q) && h in t.entries
            && (if task.grade == DartEventLoop then t.entries[h].source.secondary != [] else t.entries[h].source.primary != [])
            && t.Popped(h, task).Valid()
            && t.Popped(h, task).entries[h].source.Held() == t.entries[h].source.Held() - multiset{task}
            && t.Popped(h, task).entries[h].source.Visible() == t.entries[h].source.Visible() - multiset{task}
            && task in t.entries[h].source.Visible()
  {
    hide Table.HasPending, IsForest, IsTidy, AllAfter, IsFirst;
    PeekIsTop(t, q);
    var r := t.Peek(q);
    FirstIsTop(r.0, t.entries[r.0].source, t.homes, r.1);
    hide SourceTidy, Source.Visible;
    WithSourceIsValid(t, r.0, t.entries[r.0].source.Pop(r.1.grade));
  }

  lemma GetNextIsValid(t: Table, q: QueueId, now: int)
    requires t.Valid()
    ensures t.GetNext(q, now).0.Valid()
  {
    if q in t.entries && t.HasPending(q) {
      PoppedIsValid(t, q);
      WokenIsValid(t, q);
    }
    hide IsForest, IsTidy, Table.HasPending, IsFirst;
  }

  lemma RegisterIsValid(t: Table, q: QueueId, closure: nat, time: int, grade: Grade)
    requires t.Valid()
    ensures t.Register(q, closure, time, grade).Valid()
  {
    var task := Task(t.order, closure, time, grade);
    SubmittedIsValid(t, q, task);
    if q in t.entries { WokenIsValid(t.Submitted(q, task), t.LoopOf(q)); }
    hide IsForest, IsTidy, Table.HasPending;
  }

  lemma MergeIsValid(t: Table, owner: QueueId, subsumed: QueueId)
    requires t.Valid()
    ensures t.Merge(owner, subsumed).0.Valid()
  {
    if t.CanMerge(owner, subsumed) {
      LinkedIsValid(t, owner, subsumed);
      WokenIsValid(t.Linked(owner, subsumed), owner);
    }
    hide IsForest, IsTidy, Table.HasPending;
  }

  lemma UnmergeIsValid(t: Table, owner: QueueId, subsumed: QueueId)
    requires t.Valid()
    ensures t.Unmerge(owner, subsumed).0.Valid()
  {
    if owner in t.entries && subsumed in t.entries[owner].ownerOf {
      UnlinkedIsValid(t, owner, subsumed);
      var t1 := t.Unlinked(owner, subsumed);
      WokenIsValid(t1, owner);
      WokenIsValid(t1.Woken(owner), subsumed);
    }
    hide IsForest, IsTidy, Table.HasPending;
  }

  lemma SourceOfEntry(t: Table, q: QueueId)
    requires t.Valid() && q in t.entries
    ensures t.entries[q].source.Valid()
  {
    hide IsForest;
    assert SourceTidy(q, t.entries[q].source, t.homes);
  }

  lemma PausedSource(s: Source)
    requires s.Valid()
    ensures var r := s.(pause := s.pause + 1); r.Valid() && r.Held() == s.Held()
  {
  }

  lemma PauseIsValid(t: Table, q: QueueId)
    requires t.Valid()
    ensures t.Pause(q).Valid()
  {
    if q in t.entries {
      SourceOfEntry(t, q);
      var s := t.entries[q].source;
      PausedSource(s);
      hide IsForest, IsTidy, Source.Valid, Source.Held;
      WithSourceIsValid(t, q, s.(pause := s.pause + 1));
    }
  }

  lemma StepIsValid(t: Table, op: Op)
    requires t.Valid() && Allowed(t, op)
    ensures Apply(t, op).Valid()
  {
    hide IsForest, IsTidy, Table.HasPending;
    match op
    case Create => CreateIsValid(t);
    case SetWakeable(q) => SetWakeableIsValid(t, q);
    case Dispose(q) => DisposeIsValid(t, q);
    case DisposeTasks(q) => DisposeTasksIsValid(t, q);
    case Register(q, closure, time, grade) => RegisterIsValid(t, q, closure, time, grade);
    case GetNext(q, now) => GetNextIsValid(t, q, now);
    case Merge(owner, subsumed) => MergeIsValid(t, owner, subsumed);
    case Unmerge(owner, subsumed) => UnmergeIsValid(t, owner, subsumed);
    case Pause(q) => PauseIsValid(t, q);
    case Resume(q) =>
      if q in t.entries {
        ResumedIsValid(t, q);
        WokenIsValid(t.Resumed(q), q);
      }
  }
}
