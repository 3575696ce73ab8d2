/** The mutable queue table of src/fml/message_loop_task_queues.cc. Each public method takes the
    one mutex of the source, so it is one atomic step, and is proved to be the step of
    TaskQueueTable that bears its name. */
module MessageLoopTaskQueues {
  import opened Wrappers
  import opened DelayedTasks
  import opened TaskSources
  import opened Unions
  import opened TaskQueueTable
  import opened TaskQueueRuns
  import opened TaskDispatch
  import opened TaskEffects

  class TaskQueueEntry {
    var wakeable: bool
    const taskSource: TaskSource
    var ownerOf: set<QueueId>
    var subsumedBy: Option<QueueId>

    ghost function View(): Entry
      reads this, taskSource
    {
      Entry(taskSource.View(), ownerOf, subsumedBy, wakeable)
    }

    constructor ()
      ensures View() == EmptyEntry && fresh(taskSource)
    {
      wakeable := false;
      ownerOf := {};
      subsumedBy := None;
      taskSource := new TaskSource();
    }
  }

  class MessageLoopTaskQueues {
    var queueEntries: map<QueueId, TaskQueueEntry>
    var taskQueueIdCounter: nat
    var order: nat
    ghost var table: Table  // the value of the fields above, with the log and the ledger

    ghost function Entries(): set<TaskQueueEntry>
      reads this
    {
      set q | q in queueEntries :: queueEntries[q]
    }

    ghost function Sources(): set<TaskSource>
      reads this
    {
      set q | q in queueEntries :: queueEntries[q].taskSource
    }

    /** No two queues share an entry or a task source. */
    ghost predicate Separate()
      reads this
    {
      forall p, q :: p in queueEntries && q in queueEntries && p != q ==>
        queueEntries[p] != queueEntries[q] && queueEntries[p].taskSource != queueEntries[q].taskSource
    }

    /** The fields hold what `table` says. */
    ghost predicate Shows()
      reads this, Entries(), Sources()
    {
      && queueEntries.Keys == table.entries.Keys
      && taskQueueIdCounter == table.nextId && order == table.order
      && forall q :: q in queueEntries ==> queueEntries[q].View() == table.entries[q]
    }

    ghost predicate Valid()
      reads this, Entries(), Sources()
    {
      Separate() && Shows() && table.Valid()
    }

    constructor ()
      ensures Valid() && table == EmptyTable
    {
      queueEntries := map[];
      taskQueueIdCounter, order := 0, 0;
      table := EmptyTable;
    }

    method CreateTaskQueue() returns (id: QueueId)
      requires Valid()
      modifies this
      ensures Valid() && table == old(table).Create() && id == old(table).nextId
      ensures queueEntries.Keys == old(queueEntries).Keys + {id} && id !in old(queueEntries)
      ensures forall q :: q in old(queueEntries) ==> queueEntries[q] == old(queueEntries[q])
      ensures fresh(queueEntries[id]) && fresh(queueEntries[id].taskSource)
    {
      hide Table.Valid, Table.Create;
      CreateIsNew(table);
      CreateIsValid(table);
      KeysShow();
      id := taskQueueIdCounter;
      var entry := new TaskQueueEntry();
      InsertUnlocked(entry);
    }

    method InsertUnlocked(entry: TaskQueueEntry)
      requires Separate() && Shows() && entry.View() == EmptyEntry && table.nextId !in queueEntries
      requires forall q :: q in queueEntries ==> queueEntries[q] != entry && queueEntries[q].taskSource != entry.taskSource
      modifies this
      ensures Separate() && Shows() && table == old(table).Create()
      ensures queueEntries == old(queueEntries)[old(table).nextId := entry]
    {
      hide Table.Create;
      CreatedTable(table);
      queueEntries := queueEntries[taskQueueIdCounter := entry];
      taskQueueIdCounter := taskQueueIdCounter + 1;
      table := table.Create();
    }

    method SetWakeable(q: QueueId) returns (r: Outcome<()>)
      requires Valid() && (q in queueEntries ==> !queueEntries[q].wakeable)
      modifies this`table, Entries()
      ensures Valid() && table == old(table).SetWakeable(q)
      ensures r == if q in queueEntries then Ok(()) else OutOfRange
    {
      hide IsForest, IsTidy;
      SetWakeableIsValid(table, q);
      if q !in queueEntries { return OutOfRange; }
      queueEntries[q].wakeable := true;
      table := table.SetWakeable(q);
      r := Ok(());
    }

    // ----- Queries made under the lock

    lemma EntryShows(q: QueueId)
      requires Valid() && q in queueEntries
      ensures table.Valid() && queueEntries.Keys == table.entries.Keys && queueEntries[q].View() == table.entries[q]
    {
    }

    method SourceIsEmptyUnlocked(q: QueueId) returns (empty: bool)
      requires Valid() && q in queueEntries
      ensures Valid() && (empty <==> table.entries[q].source.IsEmpty())
    {
      hide IsForest, IsTidy;
      empty := queueEntries[q].taskSource.IsEmpty();
    }

    method HasPendingTasksUnlocked(q: QueueId) returns (pending: bool)
      requires Valid() && q in queueEntries
      ensures Valid() && (pending <==> table.HasPending(q))
    {
      hide IsForest, IsTidy, Valid, Source.IsEmpty;
      EntryShows(q);
      GroupIsLive(table, q);
      if queueEntries[q].subsumedBy.Some? { return false; }
      var owned := queueEntries[q].ownerOf;
      var empty := SourceIsEmptyUnlocked(q);
      if !empty { return true; }
      var todo := owned;
      while todo != {}
        invariant Valid() && todo <= owned
        invariant forall s :: s in owned - todo ==> table.entries[s].source.IsEmpty()
        decreases |todo|
      {
        var s :| s in todo;
        empty := SourceIsEmptyUnlocked(s);
        if !empty { return true; }
        todo := todo - {s};
      }
      pending := false;
    }

    /** The least task of `q` and its subsumed queues, found by comparing the tops of their
        sources one after another. The source visits them in id order; any order will do. */
    method PeekNextTaskUnlocked(q: QueueId) returns (holder: QueueId, task: Task)
      requires Valid() && q in queueEntries && table.HasPending(q)
      ensures Valid() && holder in queueEntries && (holder, task) == table.Peek(q)
    {
      hide IsForest, IsTidy, FirstSeen, Valid, Table.HasPending, Table.Peek;
      EntryShows(q);
      GroupIsLive(table, q);
      var owned := queueEntries[q].ownerOf;
      var top := TopUnlocked(q);
      OwnsOthers(table, q);
      var todo := owned;
      assert {q} + (owned - todo) == {q} && {q} + owned == table.Group(q) && owned <= queueEntries.Keys;
      hide Table.Group;
      while todo != {}
        invariant Valid() && todo <= owned
        invariant FirstSeen(table, {q} + (owned - todo), top)
        decreases |todo|
      {
        var s :| s in todo;
        OneFewer(q, owned, todo, s);
        top := CompareUnlocked({q} + (owned - todo), top, s);
        todo := todo - {s};
      }
      assert {q} + (owned - todo) == {q} + owned;
      FirstSeenAll(table, q, top);
      holder, task := top.value.0, top.value.1;
    }

    /** One more source compared. */
    method CompareUnlocked(ghost seen: set<QueueId>, top: Option<(QueueId, Task)>, s: QueueId)
        returns (better: Option<(QueueId, Task)>)
      requires Valid() && s in queueEntries && s !in seen && seen <= table.entries.Keys
      requires FirstSeen(table, seen, top)
      ensures Valid() && FirstSeen(table, seen + {s}, better)
    {
      hide IsForest, IsTidy, FirstSeen, Valid;
      better := top;
      EntryShows(s);
      var other := TopUnlocked(s);
      FirstSeenOne(table, seen, top, s, other);
      if other.Some? && (top.None? || top.value.1.Greater(other.value.1)) {
        better := other;
      }
    }

    /** The top of one source, if it offers anything. */
    method TopUnlocked(q: QueueId) returns (top: Option<(QueueId, Task)>)
      requires Valid() && q in queueEntries
      ensures Valid() && FirstSeen(table, {q}, top)
    {
      var source := queueEntries[q].taskSource;
      var empty := source.IsEmpty();
      if empty { return None; }
      SourceOrders(q, table.entries[q].source, table.homes);
      var task := source.Top();
      top := Some((q, task));
    }

    /** Wakes the loop of `q`, if it has one. */
    method WakeUpUnlocked(q: QueueId, time: int)
      requires Valid() && q in queueEntries && table.HasPending(q) && time == table.Peek(q).1.time
      modifies this`table
      ensures Valid() && table == old(table).Woken(q)
    {
      hide IsForest, IsTidy, Table.HasPending, Table.Peek;
      WokenIsValid(table, q);
      if queueEntries[q].wakeable {
        table := table.(wakes := table.wakes + [Wake(q, time)]);
      }
    }

    method WakeIfPendingUnlocked(q: QueueId)
      requires Valid() && q in queueEntries
      modifies this`table
      ensures Valid() && table == old(table).Woken(q)
    {
      hide IsForest, IsTidy, Valid, Table.HasPending, Table.Peek;
      EntryShows(q);
      var pending := HasPendingTasksUnlocked(q);
      if pending {
        var holder, next := PeekNextTaskUnlocked(q);
        WakeUpUnlocked(q, next.time);
      }
    }

    // ----- Tasks

    method SubmitUnlocked(q: QueueId, task: Task)
      requires Valid() && q in queueEntries && task.order == order
      modifies this`table, this`order, Sources()
      ensures Valid() && table == old(table).Submitted(q, task)
    {
      hide IsForest, IsTidy, Source.Register;
      SubmittedIsValid(table, q, task);
      order := order + 1;
      queueEntries[q].taskSource.RegisterTask(task);
      table := table.Submitted(q, task);
    }

    method RegisterTask(q: QueueId, closure: nat, time: int, grade: Grade) returns (r: Outcome<()>)
      requires Valid()
      modifies this`table, this`order, Sources()
      ensures Valid() && table == old(table).Register(q, closure, time, grade)
      ensures q in queueEntries ==> q in old(table).entries && TaskAdded(old(table), table, q, Task(old(order), closure, time, grade))
      ensures r == if q in queueEntries then Ok(()) else OutOfRange
    {
      hide IsForest, IsTidy, Table.Submitted, Table.Woken, TaskAdded;
      RegisterAddsTask(table, q, closure, time, grade);
      var task := Task(order, closure, time, grade);
      if q !in queueEntries {
        SkipOrder(q, task);
        return OutOfRange;
      }
      EntryShows(q);
      SubmittedIsValid(table, q, task);
      LoopIsKnown(q);
      var loopToWake := q;
      if queueEntries[q].subsumedBy.Some? { loopToWake := queueEntries[q].subsumedBy.value; }
      SubmitUnlocked(q, task);
      WakeIfPendingUnlocked(loopToWake);
      r := Ok(());
    }

    lemma LoopIsKnown(q: QueueId)
      requires Valid() && q in queueEntries
      ensures table.LoopOf(q) in queueEntries
    {
      hide IsTidy;
    }

    /** The order number is spent before the look-up throws. */
    method SkipOrder(q: QueueId, ghost task: Task)
      requires Valid() && q !in queueEntries && task.order == order
      modifies this`table, this`order
      ensures Valid() && table == old(table).Submitted(q, task)
    {
      hide IsForest, IsTidy;
      SubmittedIsValid(table, q, task);
      order := order + 1;
      table := table.Submitted(q, task);
    }

    method HasPendingTasks(q: QueueId) returns (r: Outcome<bool>)
      requires Valid()
      ensures r == if q in table.entries then Ok(table.VisibleOf(q) != multiset{}) else OutOfRange
    {
      hide IsForest, IsTidy, Table.VisibleOf;
      if q !in queueEntries { return OutOfRange; }
      var pending := HasPendingTasksUnlocked(q);
      PendingIsVisible(table, q);
      r := Ok(pending);
    }

    method PopUnlocked(ghost q: QueueId, holder: QueueId, task: Task)
      requires Valid() && q in queueEntries && table.HasPending(q) && holder in queueEntries && table.Peek(q) == (holder, task)
      modifies this`table, Sources()
      ensures Valid()
      ensures if task.grade == DartEventLoop then old(table).entries[holder].source.secondary != []
              else old(table).entries[holder].source.primary != []
      ensures table == old(table).Popped(holder, task)
    {
      hide IsForest, IsTidy, Table.HasPending, Table.Peek, Source.Visible, Source.Held;
      PoppedIsValid(table, q);
      queueEntries[holder].taskSource.PopTask(task.grade);
      table := table.Popped(holder, task);
    }

    /** The next task of `q`, taken off its queue, if it is due by `now`. The source asks a second
        time whether tasks are pending before it wakes the loop; under the lock they still are. */
    method GetNextTaskToRun(q: QueueId, now: int) returns (r: Outcome<Option<Task>>)
      requires Valid()
      modifies this`table, Sources()
      ensures Valid() && (table, r) == old(table).GetNext(q, now)
      ensures r.Ok? && r.value.Some? ==> q in old(table).entries && forall u :: u in old(table).VisibleOf(q) ==>
        r.value.value.time < u.time || (r.value.value.time == u.time && r.value.value.order <= u.order)
    {
      hide IsForest, IsTidy, Table.HasPending, Table.Peek, Table.Woken, Table.Popped, Table.VisibleOf;
      HandsOutOldestOfEarliest(table, q, now);
      if q !in queueEntries { return OutOfRange; }
      GetNextIsPeekable(table, q);
      var pending := HasPendingTasksUnlocked(q);
      if !pending { return Ok(None); }
      var holder, top := PeekNextTaskUnlocked(q);
      WakeUpUnlocked(q, top.time);
      if top.time > now { return Ok(None); }
      PopUnlocked(q, holder, top);
      r := Ok(Some(top));
    }

    method GetNumPendingTasks(q: QueueId) returns (r: Outcome<nat>)
      requires Valid()
      ensures r == if q in table.entries then Ok(|table.VisibleOf(q)|) else OutOfRange
    {
      hide IsForest, IsTidy, Valid, Union, Sum, Source.NumPending, Source.Visible;
      if q !in queueEntries {
        KeysShow();
        return OutOfRange;
      }
      EntryShows(q);
      GroupIsLive(table, q);
      if queueEntries[q].subsumedBy.Some? { return Ok(0); }
      VisibleOfCount(table, q);
      var total := CountGroupUnlocked(q);
      r := Ok(total);
    }

    /** The visible tasks of a queue and of the queues it owns, counted one source after another. */
    method CountGroupUnlocked(q: QueueId) returns (total: nat)
      requires Valid() && q in queueEntries
      ensures Valid() && Counted(table, table.Group(q), total)
    {
      hide IsForest, IsTidy, Valid, Counted;
      EntryShows(q);
      GroupIsLive(table, q);
      OwnsOthers(table, q);
      NoneCounted(table);
      var owned := queueEntries[q].ownerOf;
      total := AddCountUnlocked({}, 0, q);
      var todo := owned;
      assert {} + {q} == {q} + (owned - todo) && {q} + owned == table.Group(q) && owned <= queueEntries.Keys;
      hide Table.Group;
      while todo != {}
        invariant Valid() && todo <= owned
        invariant Counted(table, {q} + (owned - todo), total)
        decreases |todo|
      {
        var s :| s in todo;
        OneFewer(q, owned, todo, s);
        total := AddCountUnlocked({q} + (owned - todo), total, s);
        todo := todo - {s};
      }
      assert {q} + (owned - todo) == {q} + owned;
    }

    method AddCountUnlocked(ghost seen: set<QueueId>, total: nat, s: QueueId) returns (more: nat)
      requires Valid() && s in queueEntries && s !in seen && Counted(table, seen, total)
      ensures Valid() && Counted(table, seen + {s}, more)
    {
      hide IsForest, IsTidy, Counted;
      var n := queueEntries[s].taskSource.GetNumPendingTasks();
      CountOneMore(table, seen, total, s);
      more := total + n;
    }

    lemma KeysShow()
      requires Valid()
      ensures queueEntries.Keys == table.entries.Keys && table.Valid()
    {
    }

    // ----- Merging

    /** Rewrites the links of one entry; the table need not be a forest in between. */
    method SetLinksUnlocked(q: QueueId, ownerOf: set<QueueId>, subsumedBy: Option<QueueId>)
      requires Separate() && Shows() && q in queueEntries
      modifies this`table, queueEntries[q]
      ensures Separate() && Shows()
      ensures table == old(table).With(q, old(table).entries[q].(ownerOf := ownerOf, subsumedBy := subsumedBy))
    {
      queueEntries[q].ownerOf := ownerOf;
      queueEntries[q].subsumedBy := subsumedBy;
      table := table.With(q, table.entries[q].(ownerOf := ownerOf, subsumedBy := subsumedBy));
    }

    method LinkUnlocked(owner: QueueId, subsumed: QueueId)
      requires Valid() && table.CanMerge(owner, subsumed)
      modifies this`table, Entries()
      ensures Valid() && table == old(table).Linked(owner, subsumed)
    {
      hide IsForest, IsTidy, Shows, Separate;
      KeysShow();
      EntryShows(owner);
      EntryShows(subsumed);
      LinkedIsValid(table, owner, subsumed);
      SetLinksUnlocked(owner, queueEntries[owner].ownerOf + {subsumed}, queueEntries[owner].subsumedBy);
      SetLinksUnlocked(subsumed, {}, Some(owner));
    }

    method Merge(owner: QueueId, subsumed: QueueId) returns (r: Outcome<bool>)
      requires Valid()
      modifies this`table, Entries()
      ensures Valid() && (table, r) == old(table).Merge(owner, subsumed)
    {
      hide IsForest, IsTidy, Valid, Table.Woken, Table.Linked;
      KeysShow();
      if owner == subsumed { return Ok(true); }
      if owner !in queueEntries || subsumed !in queueEntries { return OutOfRange; }
      EntryShows(owner);
      EntryShows(subsumed);
      if subsumed in queueEntries[owner].ownerOf { return Ok(true); }
      if queueEntries[owner].subsumedBy.Some? { return Ok(false); }
      if queueEntries[subsumed].ownerOf != {} { return Ok(false); }
      if queueEntries[subsumed].subsumedBy.Some? { return Ok(false); }
      LinkUnlocked(owner, subsumed);
      WakeIfPendingUnlocked(owner);
      r := Ok(true);
    }

    method UnlinkUnlocked(owner: QueueId, subsumed: QueueId)
      requires Valid() && owner in queueEntries && subsumed in table.entries[owner].ownerOf
      modifies this`table, Entries()
      ensures Valid() && subsumed in queueEntries && subsumed != owner && table == old(table).Unlinked(owner, subsumed)
    {
      hide IsForest, IsTidy, Shows, Separate;
      EntryShows(owner);
      OwnedIsLive(table, owner, subsumed);
      EntryShows(subsumed);
      UnlinkedIsValid(table, owner, subsumed);
      var owned := queueEntries[owner].ownerOf;
      SetLinksUnlocked(subsumed, queueEntries[subsumed].ownerOf, None);
      SetLinksUnlocked(owner, owned - {subsumed}, None);
    }

    method Unmerge(owner: QueueId, subsumed: QueueId) returns (r: Outcome<bool>)
      requires Valid()
      modifies this`table, Entries()
      ensures Valid() && (table, r) == old(table).Unmerge(owner, subsumed)
    {
      hide IsForest, IsTidy, Valid, Table.Woken, Table.Unlinked;
      KeysShow();
      if owner !in queueEntries { return OutOfRange; }
      EntryShows(owner);
      if queueEntries[owner].ownerOf == {} { return Ok(false); }
      if queueEntries[owner].subsumedBy.Some? { return Ok(false); }
      if subsumed !in queueEntries { return OutOfRange; }
      EntryShows(subsumed);
      if queueEntries[subsumed].subsumedBy.None? {
        if subsumed in queueEntries[owner].ownerOf { OwnedIsLive(table, owner, subsumed); }
        return Ok(false);
      }
      if subsumed !in queueEntries[owner].ownerOf { return Ok(false); }
      UnlinkUnlocked(owner, subsumed);
      WakeIfPendingUnlocked(owner);
      WakeIfPendingUnlocked(subsumed);
      r := Ok(true);
    }

    method Owns(owner: QueueId, subsumed: QueueId) returns (r: Outcome<bool>)
      requires Valid()
      ensures r == if owner in table.entries then Ok(subsumed in table.entries[owner].ownerOf) else OutOfRange
    {
      hide IsForest, IsTidy;
      if owner !in queueEntries { return OutOfRange; }
      r := Ok(subsumed in queueEntries[owner].ownerOf);
    }

    method GetSubsumedTaskQueueId(owner: QueueId) returns (r: Outcome<set<QueueId>>)
      requires Valid()
      ensures r == if owner in table.entries then Ok(table.entries[owner].ownerOf) else OutOfRange
    {
      hide IsForest, IsTidy;
      if owner !in queueEntries { return OutOfRange; }
      r := Ok(queueEntries[owner].ownerOf);
    }

    // ----- Pausing

    method PauseSecondarySource(q: QueueId) returns (r: Outcome<()>)
      requires Valid()
      modifies this`table, Sources()
      ensures Valid() && table == old(table).Pause(q)
      ensures r == if q in queueEntries then Ok(()) else OutOfRange
    {
      hide IsForest, IsTidy;
      PauseIsValid(table, q);
      if q !in queueEntries { return OutOfRange; }
      queueEntries[q].taskSource.PauseSecondary();
      table := table.Pause(q);
      r := Ok(());
    }

    method UnpauseUnlocked(q: QueueId)
      requires Valid() && q in queueEntries && table.entries[q].source.pause > 0
      modifies this`table, Sources()
      ensures Valid() && table == old(table).Resumed(q)
    {
      hide IsForest, IsTidy;
      ResumedIsValid(table, q);
      queueEntries[q].taskSource.ResumeSecondary();
      table := table.Resumed(q);
    }

    method ResumeSecondarySource(q: QueueId) returns (r: Outcome<()>)
      requires Valid() && (q in table.entries ==> table.entries[q].source.pause > 0)
      modifies this`table, Sources()
      ensures Valid() && table == old(table).Resume(q)
      ensures r == if q in queueEntries then Ok(()) else OutOfRange
    {
      hide IsForest, IsTidy, Valid, Table.Woken, Table.Resumed;
      KeysShow();
      if q !in queueEntries { return OutOfRange; }
      UnpauseUnlocked(q);
      WakeIfPendingUnlocked(q);
      r := Ok(());
    }

    // ----- Disposal

    method EraseUnlocked(q: QueueId)
      requires Separate() && Shows()
      modifies this`queueEntries, this`table
      ensures Separate() && Shows()
      ensures queueEntries == old(queueEntries) - {q}
      ensures table == old(table).(entries := old(table).entries - {q})
    {
      queueEntries := queueEntries - {q};
      table := table.(entries := table.entries - {q});
    }

    method EraseAllUnlocked(owned: set<QueueId>)
      requires Separate() && Shows()
      modifies this`queueEntries, this`table
      ensures Separate() && Shows()
      ensures queueEntries == old(queueEntries) - owned
      ensures table == old(table).(entries := old(table).entries - owned)
    {
      hide Shows, Separate;
      var todo := owned;
      while todo != {}
        invariant todo <= owned && Separate() && Shows()
        invariant queueEntries == old(queueEntries) - (owned - todo)
        invariant table == old(table).(entries := old(table).entries - (owned - todo))
        decreases |todo|
      {
        var s :| s in todo;
        EraseUnlocked(s);
        todo := todo - {s};
      }
    }

    /** Erases the subsumed queues first and the owner last. */
    method Dispose(q: QueueId) returns (r: Outcome<()>)
      requires Valid() && (q in table.entries ==> table.entries[q].subsumedBy.None?)
      modifies this`queueEntries, this`table
      ensures Valid() && table == old(table).Dispose(q)
      ensures r == if q in old(queueEntries) then Ok(()) else OutOfRange
      ensures queueEntries == old(queueEntries) - if q in old(queueEntries) then old(table).Group(q) else {}
    {
      hide IsForest, IsTidy, Union, Shows, Separate;
      KeysShow();
      DisposeIsValid(table, q);
      if q !in queueEntries { return OutOfRange; }
      EntryShows(q);
      GroupIsLive(table, q);
      var owned := queueEntries[q].ownerOf;
      EraseAllUnlocked(owned);
      EraseUnlocked(q);
      DropUnlocked(old(table).Dispose(q).dropped);
      assert old(table).entries - owned - {q} == old(table).entries - ({q} + owned);
      assert queueEntries == old(queueEntries) - ({q} + owned);
      r := Ok(());
    }

    ghost method DropUnlocked(dropped: multiset<Task>)
      requires Separate() && Shows()
      modifies this`table
      ensures Separate() && Shows() && table == old(table).(dropped := dropped)
    {
      table := table.(dropped := dropped);
    }

    method ShutDownUnlocked(q: QueueId)
      requires Separate() && Shows() && q in queueEntries
      modifies this`table, Sources()
      ensures Separate() && Shows()
      ensures table == old(table).WithSource(q, old(table).entries[q].source.ShutDown())
    {
      queueEntries[q].taskSource.ShutDown();
      table := table.WithSource(q, table.entries[q].source.ShutDown());
    }

    method ShutDownOneMore(s: QueueId, ghost before: Table, ghost gone: set<QueueId>)
      requires Separate() && Shows() && s in before.entries && s !in gone && table == Emptied(before, gone)
      modifies this`table, Sources()
      ensures Separate() && Shows() && table == Emptied(before, gone + {s})
    {
      ShownKeys();
      hide Shows, Separate, Emptied;
      EmptyOneMore(before, gone, s);
      ShutDownUnlocked(s);
    }

    method ShutDownAllUnlocked(owned: set<QueueId>)
      requires Separate() && Shows() && owned <= table.entries.Keys
      modifies this`table, Sources()
      ensures Separate() && Shows()
      ensures table == Emptied(old(table), owned)
    {
      hide Shows, Separate, Emptied;
      var todo := owned;
      ghost var gone := {};
      EmptyNone(table);
      while todo != {}
        invariant gone + todo == owned && gone !! todo && Separate() && Shows()
        invariant table == Emptied(old(table), gone)
        decreases |todo|
      {
        var s :| s in todo;
        ShutDownOneMore(s, old(table), gone);
        gone, todo := gone + {s}, todo - {s};
      }
      assert gone == owned;
    }

    lemma ShownKeys()
      requires Shows()
      ensures queueEntries.Keys == table.entries.Keys
    {
    }

    /** Drops the tasks of `q` and of every queue it owns. */
    method DisposeTasks(q: QueueId) returns (r: Outcome<()>)
      requires Valid() && (q in table.entries ==> table.entries[q].subsumedBy.None?)
      modifies this`table, Sources()
      ensures Valid() && table == old(table).DisposeTasks(q)
      ensures r == if q in queueEntries then Ok(()) else OutOfRange
    {
      hide IsForest, IsTidy, Union, Shows, Separate, Emptied;
      KeysShow();
      DisposeTasksIsValid(table, q);
      if q !in queueEntries { return OutOfRange; }
      EntryShows(q);
      GroupIsLive(table, q);
      var owned := queueEntries[q].ownerOf;
      EmptiedTwice(table, {q}, owned);
      EmptiedIsDisposed(table, q);
      ShutDownAllUnlocked({q});
      ShutDownAllUnlocked(owned);
      DropUnlocked(old(table).DisposeTasks(q).dropped);
      r := Ok(());
    }
  }

  /** The table with the sources of `gone` emptied. */
  ghost function Emptied(t: Table, gone: set<QueueId>): Table {
    t.(entries := map p | p in t.entries :: if p in gone then t.entries[p].(source := t.entries[p].source.ShutDown()) else t.entries[p])
  }

  lemma EmptyNone(t: Table)
    ensures Emptied(t, {}) == t
  {
    assert Emptied(t, {}).entries == t.entries;
  }

  lemma EmptyOneMore(t: Table, gone: set<QueueId>, s: QueueId)
    requires s in t.entries && s !in gone
    ensures var t1 := Emptied(t, gone);
            && t1.entries.Keys == t.entries.Keys
            && t1.WithSource(s, t1.entries[s].source.ShutDown()) == Emptied(t, gone + {s})
  {
    var t1, t2 := Emptied(t, gone), Emptied(t, gone + {s});
    assert t1.WithSource(s, t1.entries[s].source.ShutDown()).entries == t2.entries;
  }

  lemma EmptiedTwice(t: Table, a: set<QueueId>, b: set<QueueId>)
    ensures Emptied(Emptied(t, a), b) == Emptied(t, a + b) && Emptied(t, a).entries.Keys == t.entries.Keys
  {
    assert Emptied(Emptied(t, a), b).entries == Emptied(t, a + b).entries;
  }

  lemma EmptiedIsDisposed(t: Table, q: QueueId)
    requires t.Forest() && q in t.entries
    ensures t.DisposeTasks(q) == Emptied(t, t.Group(q)).(dropped := t.DisposeTasks(q).dropped)
  {
    hide IsForest, Union;
  }

  ghost function PendingCounts(t: Table): map<QueueId, nat> {
    map q | q in t.entries :: t.entries[q].source.NumPending()
  }

  lemma CreatedTable(t: Table)
    ensures var r := t.Create();
      r.entries == t.entries[t.nextId := EmptyEntry] && r.nextId == t.nextId + 1 && r.order == t.order
  {
  }

  /** The sources of `seen` offer `total` tasks. */
  ghost predicate Counted(t: Table, seen: set<QueueId>, total: nat) {
    seen <= t.entries.Keys && total == Sum(seen, PendingCounts(t))
  }

  lemma NoneCounted(t: Table)
    ensures Counted(t, {}, 0)
  {
  }

  lemma CountOneMore(t: Table, seen: set<QueueId>, total: nat, s: QueueId)
    requires Counted(t, seen, total) && s !in seen && s in t.entries
    ensures Counted(t, seen + {s}, total + t.entries[s].source.NumPending())
  {
    SumRemove(seen + {s}, PendingCounts(t), s);
    assert seen + {s} - {s} == seen;
  }

  /** One queue of the owned ones done. */
  lemma OneFewer(q: QueueId, owned: set<QueueId>, todo: set<QueueId>, s: QueueId)
    requires todo <= owned && s in todo && q !in owned
    ensures s !in {q} + (owned - todo)
    ensures {q} + (owned - todo) + {s} == {q} + (owned - (todo - {s}))
  {
  }

  /** The length of a queue's flat list is the sum of the counts of its group. */
  lemma VisibleOfCount(t: Table, q: QueueId)
    requires t.Forest() && q in t.entries && t.entries[q].subsumedBy.None?
    ensures t.Group(q) <= t.entries.Keys
    ensures |t.VisibleOf(q)| == Sum(t.Group(q), PendingCounts(t))
  {
    GroupIsLive(t, q);
    hide IsForest, Union, Sum;
    forall x | x in t.Group(q) ensures PendingCounts(t)[x] == |t.VisibleMap()[x]| { VisibleCount(t.entries[x].source); }
    UnionCount(t.Group(q), t.VisibleMap(), PendingCounts(t));
  }

  /** Waking the loop does not change which task is next. */
  lemma GetNextIsPeekable(t: Table, q: QueueId)
    requires t.Valid() && q in t.entries
    ensures t.Woken(q).Valid() && t.Woken(q).entries == t.entries
    ensures t.HasPending(q) ==> t.Woken(q).HasPending(q) && t.Woken(q).Peek(q) == t.Peek(q)
  {
    hide IsForest, IsTidy, IsFirst;
    WokenIsValid(t, q);
    GroupIsLive(t, q);
    if t.HasPending(q) {
      var p := t.Peek(q);
      SameFirst(t, t.Woken(q), t.Group(q), p.0, p.1);
      NextIsUnique(t.Woken(q), q, p.0, p.1);
    }
  }

  lemma SameFirst(t: Table, t': Table, s: set<QueueId>, h: QueueId, task: Task)
    requires t.entries == t'.entries && s <= t.entries.Keys && IsFirst(t, s, h, task)
    ensures IsFirst(t', s, h, task)
  {
  }

  /** `top` is the first task among the queues seen so far, or they offer nothing. */
  ghost predicate FirstSeen(t: Table, seen: set<QueueId>, top: Option<(QueueId, Task)>) {
    && seen <= t.entries.Keys
    && match top
       case Some((h, task)) => IsFirst(t, seen, h, task)
       case None => forall g :: g in seen ==> t.entries[g].source.IsEmpty()
  }

  lemma FirstSeenOne(t: Table, seen: set<QueueId>, top: Option<(QueueId, Task)>, s: QueueId, other: Option<(QueueId, Task)>)
    requires t.Tidy() && FirstSeen(t, seen, top) && FirstSeen(t, {s}, other) && s !in seen
    ensures FirstSeen(t, seen + {s}, if other.Some? && (top.None? || top.value.1.Greater(other.value.1)) then other else top)
  {
    hide IsTidy, IsFirst, Source.IsEmpty;
    if top.Some? && other.Some? {
      FirstOfBoth(t, seen, top.value.0, top.value.1, {s}, other.value.0, other.value.1);
    } else if top.Some? {
      FirstWithEmpty(t, seen, top.value.0, top.value.1, {s});
    } else if other.Some? {
      FirstWithEmpty(t, {s}, other.value.0, other.value.1, seen);
      assert {s} + seen == seen + {s};
    }
  }

  lemma OwnsOthers(t: Table, q: QueueId)
    requires t.Forest() && q in t.entries
    ensures q !in t.entries[q].ownerOf
  {
  }

  lemma FirstSeenAll(t: Table, q: QueueId, top: Option<(QueueId, Task)>)
    requires t.Valid() && q in t.entries && t.HasPending(q) && FirstSeen(t, t.Group(q), top)
    ensures top.Some? && top.value == t.Peek(q) && t.Peek(q).0 in t.entries
  {
    if top.Some? { NextIsUnique(t, q, top.value.0, top.value.1); }
  }
}
