/** No task is lost or invented: the ledger balances, and the pending counts that live queues
    report add up to what their sources hold. */
module TaskConservation {
  import opened Wrappers
  import opened DelayedTasks
  import opened TaskSources
  import opened Unions
  import opened TaskQueueTable
  import opened TaskQueueRuns

  /** Every registered task was delivered, is still held, or was dropped with its queue. */
  ghost predicate Balanced(t: Table) {
    t.registered == multiset(t.delivered) + t.Held() + t.dropped
  }

  lemma HeldSame(t: Table, t': Table)
    requires t.entries.Keys == t'.entries.Keys
    requires forall q :: q in t.entries ==> t.entries[q].source.Held() == t'.entries[q].source.Held()
    ensures t.Held() == t'.Held()
  {
    UnionSame(t.entries.Keys, t.HeldMap(), t'.HeldMap());
  }

  /** Queue `q` holds one task more, the others what they held. */
  lemma HeldAdd(t: Table, t': Table, q: QueueId, task: Task)
    requires t.entries.Keys == t'.entries.Keys && q in t.entries
    requires forall p :: p in t.entries && p != q ==> t.entries[p].source.Held() == t'.entries[p].source.Held()
    requires t'.entries[q].source.Held() == t.entries[q].source.Held() + multiset{task}
    ensures t'.Held() == t.Held() + multiset{task}
  {
    hide Union, Source.Held;
    UnionUpdate(t.entries.Keys, t.HeldMap(), t'.HeldMap(), q);
  }

  lemma CreateHeld(t: Table)
    requires t.nextId !in t.entries
    ensures t.Create().Held() == t.Held()
  {
    hide Union;
    var t' := t.Create();
    var f, f' := t.HeldMap(), t'.HeldMap();
    assert t'.entries.Keys - {t.nextId} == t.entries.Keys;
    assert f'[t.nextId] == multiset{};
    UnionRemove(t'.entries.Keys, f', t.nextId);
    UnionSame(t.entries.Keys, f, f');
  }

  lemma SubmittedSource(t: Table, q: QueueId, task: Task)
    requires t.Tidy() && task.order == t.order && q in t.entries
    ensures t.Submitted(q, task).entries[q].source.Held() == t.entries[q].source.Held() + multiset{task}
  {
    assert t.order !in t.homes && SourceTidy(q, t.entries[q].source, t.homes);
    SourceAfterRegister(q, t.entries[q].source, task, t.homes);
  }

  lemma RegisterHeld(t: Table, q: QueueId, task: Task)
    requires t.Tidy() && task.order == t.order && q in t.entries
    ensures t.Submitted(q, task).Held() == t.Held() + multiset{task}
  {
    hide IsTidy, Source.Register, Source.Held, Table.Held;
    SubmittedSource(t, q, task);
    HeldAdd(t, t.Submitted(q, task), q, task);
  }

  lemma AddBack(a: multiset<Task>, b: multiset<Task>, task: Task)
    requires task in a && b == a - multiset{task}
    ensures a == b + multiset{task}
  {
  }

  lemma PoppedAdds(t: Table, h: QueueId, task: Task)
    requires h in t.entries && task in t.entries[h].source.Held()
    requires if task.grade == DartEventLoop then t.entries[h].source.secondary != [] else t.entries[h].source.primary != []
    requires t.Popped(h, task).entries[h].source.Held() == t.entries[h].source.Held() - multiset{task}
    ensures t.Held() == t.Popped(h, task).Held() + multiset{task}
  {
    hide Source.Held, Table.Held, Source.Pop;
    AddBack(t.entries[h].source.Held(), t.Popped(h, task).entries[h].source.Held(), task);
    HeldAdd(t.Popped(h, task), t, h, task);
  }

  lemma PopHeld(t: Table, q: QueueId)
    requires t.Valid() && q in t.entries && t.HasPending(q)
    ensures PopDefined(t, q)
    ensures t.Held() == t.Popped(t.Peek(q).0, t.Peek(q).1).Held() + multiset{t.Peek(q).1}
  {
    hide Table.HasPending, IsForest, IsTidy, IsFirst, Table.Held, Table.Popped, Table.Peek, Source.Pop;
    PoppedIsValid(t, q);
    VisibleIsHeld(t.entries[t.Peek(q).0].source, t.Peek(q).1);
    PoppedAdds(t, t.Peek(q).0, t.Peek(q).1);
  }

  lemma VisibleIsHeld(s: Source, task: Task)
    requires task in s.Visible()
    ensures task in s.Held()
  {
  }

  /** The task found can be popped off the queue that holds it. */
  ghost predicate PopDefined(t: Table, q: QueueId)
    requires t.Valid() && q in t.entries && t.HasPending(q)
  {
    var (h, task) := t.Peek(q);
    h in t.entries && if task.grade == DartEventLoop then t.entries[h].source.secondary != [] else t.entries[h].source.primary != []
  }

  lemma DisposeHeld(t: Table, q: QueueId)
    requires t.Forest() && q in t.entries
    ensures t.Held() == t.Dispose(q).Held() + Union(t.Group(q), t.HeldMap())
  {
    var f, gone, t' := t.HeldMap(), t.Group(q), t.Dispose(q);
    assert gone <= t.entries.Keys;
    hide IsForest, Union, Source.Held;
    var kept := t.entries.Keys - gone;
    assert t'.entries.Keys == kept && gone + kept == t.entries.Keys;
    UnionDisjoint(gone, kept, f);
    UnionSame(kept, f, t'.HeldMap());
  }

  lemma {:induction false} UnionEmpty(s: set<nat>, f: map<nat, multiset<Task>>)
    requires s <= f.Keys && forall x :: x in s ==> f[x] == multiset{}
    ensures Union(s, f) == multiset{}
    decreases |s|
  {
    if s != {} {
      var x :| x in s;
      UnionRemove(s, f, x);
      UnionEmpty(s - {x}, f);
    }
  }

  lemma ShutDownHeld(t: Table, q: QueueId)
    requires t.Forest() && q in t.entries
    ensures t.Group(q) <= t.entries.Keys == t.DisposeTasks(q).entries.Keys
    ensures forall p :: p in t.entries && p !in t.Group(q) ==> t.DisposeTasks(q).HeldMap()[p] == t.HeldMap()[p]
    ensures forall p :: p in t.Group(q) ==> t.DisposeTasks(q).HeldMap()[p] == multiset{}
  {
  }

  /** A union splits over a part of the keys; if the part is emptied, what is left is the rest. */
  lemma UnionSplit(keys: set<nat>, gone: set<nat>, f: map<nat, multiset<Task>>, f': map<nat, multiset<Task>>)
    requires gone <= keys <= f.Keys && keys <= f'.Keys
    requires forall p :: p in keys && p !in gone ==> f'[p] == f[p]
    requires forall p :: p in gone ==> f'[p] == multiset{}
    ensures Union(keys, f) == Union(keys, f') + Union(gone, f)
  {
    hide Union;
    var kept := keys - gone;
    assert gone + kept == keys;
    UnionDisjoint(gone, kept, f);
    UnionDisjoint(gone, kept, f');
    UnionEmpty(gone, f');
    UnionSame(kept, f, f');
  }

  lemma DisposeTasksHeld(t: Table, q: QueueId)
    requires t.Forest() && q in t.entries
    ensures t.Held() == t.DisposeTasks(q).Held() + Union(t.Group(q), t.HeldMap())
  {
    hide IsForest, Union, Table.DisposeTasks;
    ShutDownHeld(t, q);
    UnionSplit(t.entries.Keys, t.Group(q), t.HeldMap(), t.DisposeTasks(q).HeldMap());
  }

  /** `t'` holds and accounts for the same tasks. */
  ghost predicate SameTasks(t: Table, t': Table) {
    && t'.Held() == t.Held()
    && t'.registered == t.registered && t'.delivered == t.delivered && t'.dropped == t.dropped
  }

  lemma WokenHeld(t: Table, q: QueueId)
    requires t.Valid() && q in t.entries
    ensures SameTasks(t, t.Woken(q)) && t.Woken(q).entries == t.entries
  {
    hide IsForest, IsTidy, Table.HasPending, Table.Held, Table.Peek;
    HeldSame(t, t.Woken(q));
  }

  lemma WithHeld(t: Table, q: QueueId, e: Entry)
    requires q in t.entries && e.source.Held() == t.entries[q].source.Held()
    ensures SameTasks(t, t.With(q, e))
  {
    hide Table.Held, Source.Held;
    HeldSame(t, t.With(q, e));
  }

  lemma SourceStepHeld(t: Table, q: QueueId)
    ensures SameTasks(t, t.SetWakeable(q)) && SameTasks(t, t.Pause(q))
    ensures q in t.entries && t.entries[q].source.pause > 0 ==> SameTasks(t, t.Resumed(q))
  {
    hide SameTasks;
    if q in t.entries {
      var e := t.entries[q];
      WithHeld(t, q, e.(wakeable := true));
      WithHeld(t, q, e.(source := e.source.(pause := e.source.pause + 1)));
      if e.source.pause > 0 { WithHeld(t, q, e.(source := e.source.(pause := e.source.pause - 1))); }
    } else {
      SameTasksReflexive(t);
    }
  }

  lemma SameTasksReflexive(t: Table)
    ensures SameTasks(t, t)
  {
  }

  lemma ResumeHeld(t: Table, q: QueueId)
    requires t.Valid() && (q in t.entries ==> t.entries[q].source.pause > 0)
    ensures SameTasks(t, t.Resume(q))
  {
    hide IsForest, IsTidy, Table.Held, Table.Woken;
    if q in t.entries {
      SourceStepHeld(t, q);
      ResumedIsValid(t, q);
      WokenHeld(t.Resumed(q), q);
    }
  }

  lemma MergeHeld(t: Table, owner: QueueId, subsumed: QueueId)
    requires t.Valid()
    ensures SameTasks(t, t.Merge(owner, subsumed).0)
  {
    hide IsForest, IsTidy, Table.Held, Table.Woken, Source.Held;
    if t.CanMerge(owner, subsumed) {
      var t1 := t.Linked(owner, subsumed);
      LinkedIsValid(t, owner, subsumed);
      HeldSame(t, t1);
      WokenHeld(t1, owner);
    }
  }

  lemma UnlinkedHeld(t: Table, owner: QueueId, subsumed: QueueId)
    requires t.Valid() && owner in t.entries && subsumed in t.entries[owner].ownerOf
    ensures subsumed in t.entries && subsumed != owner && t.Unlinked(owner, subsumed).Valid()
    ensures SameTasks(t, t.Unlinked(owner, subsumed))
  {
    hide IsForest, IsTidy, Table.Held, Source.Held;
    OwnedIsLive(t, owner, subsumed);
    UnlinkedIsValid(t, owner, subsumed);
    HeldSame(t, t.Unlinked(owner, subsumed));
  }

  lemma UnmergeHeld(t: Table, owner: QueueId, subsumed: QueueId)
    requires t.Valid() && owner in t.entries && subsumed in t.entries[owner].ownerOf
    ensures SameTasks(t, t.Unmerge(owner, subsumed).0)
  {
    hide IsForest, IsTidy, Table.Held, Table.Woken;
    if t.entries[owner].subsumedBy.None? {
      UnlinkedHeld(t, owner, subsumed);
      var t1 := t.Unlinked(owner, subsumed);
      WokenIsValid(t1, owner);
      WokenHeld(t1, owner);
      WokenHeld(t1.Woken(owner), subsumed);
    }
  }

  /** Steps that only move links, wake-ups and pause counts around. */
  lemma QuietStepHeld(t: Table, op: Op)
    requires t.Valid() && Allowed(t, op)
    requires op.SetWakeable? || op.Merge? || op.Unmerge? || op.Pause? || op.Resume?
    ensures SameTasks(t, Apply(t, op))
  {
    hide IsForest, IsTidy, Table.Held, Table.Woken, Table.Merge, Table.Resume, Table.SetWakeable, Table.Pause, Table.HasPending;
    match op
    case SetWakeable(q) => SourceStepHeld(t, q);
    case Pause(q) => SourceStepHeld(t, q);
    case Resume(q) => ResumeHeld(t, q);
    case Merge(owner, subsumed) => MergeHeld(t, owner, subsumed);
    case Unmerge(owner, subsumed) =>
      if owner in t.entries && subsumed in t.entries[owner].ownerOf { UnmergeHeld(t, owner, subsumed); }
  }

  lemma GetNextHeld(t: Table, q: QueueId, now: int)
    requires t.Valid()
    ensures var (t', r) := t.GetNext(q, now);
            && t'.registered == t.registered && t'.dropped == t.dropped
            && if r.Ok? && r.value.Some?
               then t'.delivered == t.delivered + [r.value.value] && t.Held() == t'.Held() + multiset{r.value.value}
               else t'.delivered == t.delivered && t'.Held() == t.Held()
  {
    hide IsForest, IsTidy, Table.HasPending, IsFirst, Table.Held;
    if q in t.entries && t.HasPending(q) {
      PopHeld(t, q);
      var r := t.Peek(q);
      HeldSame(t.Woken(q), t);
      HeldSame(t.Woken(q).Popped(r.0, r.1), t.Popped(r.0, r.1));
    }
  }

  lemma RegisterStepHeld(t: Table, q: QueueId, closure: nat, time: int, grade: Grade)
    requires t.Valid()
    ensures var t', task := t.Register(q, closure, time, grade), Task(t.order, closure, time, grade);
            && t'.delivered == t.delivered && t'.dropped == t.dropped
            && if q in t.entries then t'.Held() == t.Held() + multiset{task} && t'.registered == t.registered + multiset{task}
               else t'.Held() == t.Held() && t'.registered == t.registered
  {
    var task := Task(t.order, closure, time, grade);
    var t1 := t.Submitted(q, task);
    SubmittedIsValid(t, q, task);
    if q in t.entries {
      RegisterHeld(t, q, task);
      assert t.LoopOf(q) in t1.entries;
      hide IsForest, IsTidy, Table.Woken, Table.Held, Source.Register;
      WokenHeld(t1, t.LoopOf(q));
    } else {
      hide IsForest, IsTidy, Table.Woken, Table.Held, Source.Register;
      HeldSame(t, t1);
    }
  }

  /** The ledger moved with the tasks: what was added and taken away is accounted for. */
  lemma BalanceMoves(t: Table, t': Table, added: multiset<Task>, done: seq<Task>, lost: multiset<Task>)
    requires Balanced(t)
    requires t'.Held() + multiset(done) + lost == t.Held() + added
    requires t'.registered == t.registered + added
    requires t'.delivered == t.delivered + done && t'.dropped == t.dropped + lost
    ensures Balanced(t')
  {
    hide Table.Held;
    assert multiset(t'.delivered) == multiset(t.delivered) + multiset(done);
    Rebalance(t.registered, added, multiset(t.delivered), multiset(done), t.Held(), t'.Held(), t.dropped, lost);
  }

  lemma Rebalance(r: multiset<Task>, added: multiset<Task>, d: multiset<Task>, done: multiset<Task>,
                  h: multiset<Task>, h': multiset<Task>, x: multiset<Task>, lost: multiset<Task>)
    requires r == d + h + x && h' + done + lost == h + added
    ensures r + added == (d + done) + h' + (x + lost)
  {
    assert r + added == d + (h + added) + x;
    assert (d + done) + h' + (x + lost) == d + (h' + done + lost) + x;
  }

  lemma DisposeBalances(t: Table, q: QueueId)
    requires t.Valid() && Balanced(t)
    ensures Balanced(t.Dispose(q))
  {
    hide IsForest, IsTidy, Union, Table.Held, Balanced;
    if q in t.entries {
      DisposeHeld(t, q);
      GroupIsLive(t, q);
      BalanceMoves(t, t.Dispose(q), multiset{}, [], Union(t.Group(q), t.HeldMap()));
    }
  }

  lemma DisposeTasksBalances(t: Table, q: QueueId)
    requires t.Valid() && Balanced(t)
    ensures Balanced(t.DisposeTasks(q))
  {
    hide IsForest, IsTidy, Union, Table.Held, Balanced;
    if q in t.entries {
      DisposeTasksHeld(t, q);
      GroupIsLive(t, q);
      BalanceMoves(t, t.DisposeTasks(q), multiset{}, [], Union(t.Group(q), t.HeldMap()));
    }
  }

  lemma GetNextBalances(t: Table, q: QueueId, now: int)
    requires t.Valid() && Balanced(t)
    ensures Balanced(t.GetNext(q, now).0)
  {
    hide *;
    GetNextHeld(t, q, now);
    var (t', r) := t.GetNext(q, now);
    BalanceMoves(t, t', multiset{}, if r.Ok? && r.value.Some? then [r.value.value] else [], multiset{});
  }

  lemma RegisterBalances(t: Table, q: QueueId, closure: nat, time: int, grade: Grade)
    requires t.Valid() && Balanced(t)
    ensures Balanced(t.Register(q, closure, time, grade))
  {
    hide *;
    RegisterStepHeld(t, q, closure, time, grade);
    var task := Task(t.order, closure, time, grade);
    BalanceMoves(t, t.Register(q, closure, time, grade),
                 if q in t.entries then multiset{task} else multiset{}, [], multiset{});
  }

  /** Every step keeps the ledger balanced. */
  lemma StepBalances(t: Table, op: Op)
    requires t.Valid() && Allowed(t, op) && Balanced(t)
    ensures Balanced(Apply(t, op))
  {
    hide IsForest, IsTidy, Union, Table.Held, Table.HeldMap, Balanced;
    match op
    case Create => CreateIsNew(t); CreateHeld(t); BalanceMoves(t, t.Create(), multiset{}, [], multiset{});
    case Dispose(q) => DisposeBalances(t, q);
    case DisposeTasks(q) => DisposeTasksBalances(t, q);
    case Register(q, closure, time, grade) => RegisterBalances(t, q, closure, time, grade);
    case GetNext(q, now) => GetNextBalances(t, q, now);
    case _ => QuietStepHeld(t, op); BalanceMoves(t, Apply(t, op), multiset{}, [], multiset{});
  }

  // ----- Pending counts

  /** What GetNumPendingTasks reports for each live queue. */
  ghost function Reported(t: Table): map<QueueId, nat>
    requires t.Forest()
  {
    map q | q in t.entries :: |t.VisibleOf(q)|
  }

  /** What each live source counts by itself. */
  ghost function OwnCounts(t: Table): map<QueueId, nat> {
    map q | q in t.entries :: t.entries[q].source.NumPending()
  }

  lemma {:induction false} SumZero(s: set<nat>, f: map<nat, nat>)
    requires s <= f.Keys && forall x :: x in s ==> f[x] == 0
    ensures Sum(s, f) == 0
    decreases |s|
  {
    if s != {} {
      var x :| x in s;
      SumRemove(s, f, x);
      SumZero(s - {x}, f);
    }
  }

  lemma {:induction false} SumDisjoint(a: set<nat>, b: set<nat>, f: map<nat, nat>)
    requires a <= f.Keys && b <= f.Keys && a !! b
    ensures Sum(a + b, f) == Sum(a, f) + Sum(b, f)
    decreases |a|
  {
    if a == {} {
      assert a + b == b;
    } else {
      var x :| x in a;
      SumRemove(a, f, x);
      SumRemove(a + b, f, x);
      SumDisjoint(a - {x}, b, f);
      assert a + b - {x} == (a - {x}) + b;
    }
  }

  /** A queue with a loop of its own reports the sum over its group. */
  lemma ReportIsGroupSum(t: Table, q: QueueId)
    requires t.Forest() && q in t.entries && t.entries[q].subsumedBy.None?
    ensures t.Group(q) <= t.entries.Keys && Reported(t)[q] == Sum(t.Group(q), OwnCounts(t))
  {
    GroupIsLive(t, q);
    hide IsForest, Sum, Union;
    var f, n := t.VisibleMap(), OwnCounts(t);
    forall x | x in t.Group(q) ensures n[x] == |f[x]| { VisibleCount(t.entries[x].source); }
    UnionCount(t.Group(q), f, n);
  }

  /** The live queues served by the loops in `roots`. */
  ghost function Served(t: Table, roots: set<QueueId>): set<QueueId> {
    set p | p in t.entries && (p in roots || (t.entries[p].subsumedBy.Some? && t.entries[p].subsumedBy.value in roots))
  }

  lemma ServedSplits(t: Table, roots: set<QueueId>, x: QueueId)
    requires t.Forest() && x in roots && roots <= t.entries.Keys
    requires forall q :: q in roots ==> t.entries[q].subsumedBy.None?
    ensures t.Group(x) !! Served(t, roots - {x})
    ensures t.Group(x) + Served(t, roots - {x}) == Served(t, roots)
  {
    forall p | p in t.Group(x) ensures p in Served(t, roots) && p !in Served(t, roots - {x}) {
      if p != x { OwnedIsLive(t, x, p); }
    }
    forall p | p in Served(t, roots) && p !in Served(t, roots - {x}) ensures p in t.Group(x) {
      if p != x { assert t.entries[p].subsumedBy == Some(x); }
    }
  }

  lemma {:induction false} ReportsAddUp(t: Table, roots: set<QueueId>)
    requires t.Forest() && roots <= t.entries.Keys
    requires forall q :: q in roots ==> t.entries[q].subsumedBy.None?
    ensures Sum(roots, Reported(t)) == Sum(Served(t, roots), OwnCounts(t))
    decreases |roots|
  {
    if roots == {} {
      assert Served(t, roots) == {};
    } else {
      hide IsForest, Sum;
      var x :| x in roots;
      SumRemove(roots, Reported(t), x);
      ReportsAddUp(t, roots - {x});
      ReportIsGroupSum(t, x);
      ServedSplits(t, roots, x);
      SumDisjoint(t.Group(x), Served(t, roots - {x}), OwnCounts(t));
    }
  }

  ghost function Roots(t: Table): set<QueueId> {
    set q | q in t.entries && t.entries[q].subsumedBy.None?
  }

  lemma RootsServeAll(t: Table)
    requires t.Forest()
    ensures Served(t, Roots(t)) == t.entries.Keys
  {
    forall p | p in t.entries ensures p in Served(t, Roots(t)) {
      if t.entries[p].subsumedBy.Some? { OwnedIsLive(t, t.entries[p].subsumedBy.value, p); }
    }
  }

  lemma SubsumedReportNothing(t: Table)
    requires t.Forest()
    ensures Sum(t.entries.Keys - Roots(t), Reported(t)) == 0
  {
    hide IsForest, Union;
    SumZero(t.entries.Keys - Roots(t), Reported(t));
  }

  /** The pending counts of all live queues add up to the counts of all live sources: each task
      on offer is reported by exactly one queue, the one whose loop will run it. */
  lemma PendingCountsAddUp(t: Table)
    requires t.Valid()
    ensures Sum(t.entries.Keys, Reported(t)) == Sum(t.entries.Keys, OwnCounts(t))
  {
    hide IsForest, IsTidy, Sum, Served, Reported;
    var roots := Roots(t);
    RootsServeAll(t);
    ReportsAddUp(t, roots);
    SubsumedReportNothing(t);
    ReportedKeys(t);
    SumDisjoint(roots, t.entries.Keys - roots, Reported(t));
    assert roots + (t.entries.Keys - roots) == t.entries.Keys;
  }

  lemma ReportedKeys(t: Table)
    requires t.Forest()
    ensures Reported(t).Keys == t.entries.Keys
  {
  }

  ghost predicate SameSources(t: Table, t': Table) {
    t'.entries.Keys == t.entries.Keys && forall q :: q in t.entries ==> t'.entries[q].source == t.entries[q].source
  }

  lemma MergeKeepsSources(t: Table, owner: QueueId, subsumed: QueueId)
    requires t.Valid()
    ensures SameSources(t, t.Merge(owner, subsumed).0)
  {
    hide IsForest, IsTidy, Table.HasPending, Table.Peek;
  }

  lemma WokenEntries(t: Table, q: QueueId)
    requires t.Valid() && q in t.entries
    ensures t.Woken(q).entries == t.entries
  {
    hide IsForest, IsTidy, Table.HasPending, Table.Peek;
  }

  lemma UnmergeKeepsSources(t: Table, owner: QueueId, subsumed: QueueId)
    requires t.Valid()
    ensures SameSources(t, t.Unmerge(owner, subsumed).0)
  {
    hide IsForest, IsTidy, Table.Woken;
    if owner in t.entries && subsumed in t.entries[owner].ownerOf {
      OwnedIsLive(t, owner, subsumed);
      UnlinkedIsValid(t, owner, subsumed);
      var t1 := t.Unlinked(owner, subsumed);
      WokenIsValid(t1, owner);
      WokenEntries(t1, owner);
      WokenEntries(t1.Woken(owner), subsumed);
    }
  }

  lemma SameSourcesSameCounts(t: Table, t': Table)
    requires SameSources(t, t')
    ensures OwnCounts(t) == OwnCounts(t')
  {
  }

  /** Merging and unmerging leave every source, and so the reported total, as they were. */
  lemma MergingKeepsTotals(t: Table, owner: QueueId, subsumed: QueueId)
    requires t.Valid()
    ensures var t1, t2 := t.Merge(owner, subsumed).0, t.Unmerge(owner, subsumed).0;
            && t1.Valid() && SameSources(t, t1) && t2.Valid() && SameSources(t, t2)
            && Sum(t1.entries.Keys, Reported(t1)) == Sum(t.entries.Keys, Reported(t))
            && Sum(t2.entries.Keys, Reported(t2)) == Sum(t.entries.Keys, Reported(t))
  {
    hide IsForest, IsTidy, Table.Merge, Table.Unmerge, Sum, Reported, OwnCounts;
    MergeIsValid(t, owner, subsumed);
    UnmergeIsValid(t, owner, subsumed);
    MergeKeepsSources(t, owner, subsumed);
    UnmergeKeepsSources(t, owner, subsumed);
    TotalsFollowSources(t, t.Merge(owner, subsumed).0);
    TotalsFollowSources(t, t.Unmerge(owner, subsumed).0);
  }

  lemma TotalsFollowSources(t: Table, t': Table)
    requires t.Valid() && t'.Valid() && SameSources(t, t')
    ensures Reported(t).Keys == t.entries.Keys && Reported(t').Keys == t'.entries.Keys
    ensures Sum(t'.entries.Keys, Reported(t')) == Sum(t.entries.Keys, Reported(t))
  {
    hide IsForest, IsTidy, Sum, Reported, OwnCounts;
    ReportedKeys(t);
    ReportedKeys(t');
    PendingCountsAddUp(t);
    PendingCountsAddUp(t');
    SameSourcesSameCounts(t, t');
  }

  /** Over any run of the table: registered = delivered + held + dropped. */
  lemma {:induction false} RunBalances(ops: seq<Op>)
    requires AllowedRun(ops)
    ensures Balanced(Run(ops))
    decreases |ops|
  {
    if ops != [] {
      RunBalances(ops[..|ops| - 1]);
      StepBalances(Run(ops[..|ops| - 1]), ops[|ops| - 1]);
    }
  }
}
