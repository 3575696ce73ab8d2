/** The drain loop of src/fml/message_loop_impl.cc, for tasks that register no further tasks. */
module MessageLoop {
  import opened Wrappers
  import opened DelayedTasks
  import opened TaskQueueTable
  import opened TaskDispatch
  import opened MessageLoopTaskQueues

  datatype FlushType = Single | All

  /** `ran`, in that order, and `after` are what the flat list `before` splits into at `now`. */
  ghost predicate Flushed(before: multiset<Task>, ran: seq<Task>, after: multiset<Task>, now: int) {
    && Ascending(ran) && multiset(ran) + after == before
    && (forall u :: u in ran ==> u.time <= now)
    && (forall u :: u in after ==> u.time > now)
  }

  /** Everything run so far goes before everything left. */
  ghost predicate RanFirst(before: multiset<Task>, ran: seq<Task>, after: multiset<Task>, now: int) {
    && Ascending(ran) && multiset(ran) + after == before
    && (forall u :: u in ran ==> u.time <= now)
    && (forall u, w :: u in ran && w in after ==> w.Greater(u))
  }

  lemma RanOneMore(before: multiset<Task>, ran: seq<Task>, left: multiset<Task>, now: int, task: Task)
    requires RanFirst(before, ran, left, now) && IsLeast(task, left) && task.time <= now
    requires left[task] <= 1
    ensures RanFirst(before, ran + [task], left - multiset{task}, now)
  {
    var more := ran + [task];
    assert multiset(more) + (left - multiset{task}) == before;
    forall u, w | u in more && w in left - multiset{task} ensures w.Greater(u) {
      assert w in left && w != task;
    }
  }

  /** The split is unique: what a full flush runs is determined by the list and the time. */
  lemma FlushIsDetermined(before: multiset<Task>, a: seq<Task>, after: multiset<Task>, b: seq<Task>, after': multiset<Task>, now: int)
    requires Flushed(before, a, after, now) && Flushed(before, b, after', now)
    ensures a == b && after == after'
  {
    forall u ensures multiset(a)[u] == multiset(b)[u] {
      assert before[u] == multiset(a)[u] + after[u] == multiset(b)[u] + after'[u];
      if u.time <= now { assert u !in after && u !in after'; } else { assert u !in a && u !in b; }
    }
    assert multiset(a) == multiset(b);
    AscendingIsCanonical(a, b);
    assert after == before - multiset(a) && after' == before - multiset(b);
  }

  /** One round of the drain loop moves the least task over, or finds that nothing is due. */
  lemma RoundRunsLeast(before: multiset<Task>, ran: seq<Task>, t: Table, q: QueueId, now: int, t': Table, x: Option<Task>)
    requires t.Valid() && t'.Valid() && q in t.entries && q in t'.entries
    requires RanFirst(before, ran, t.VisibleOf(q), now) && FlatDispatch(t, q, now, t', Ok(x))
    ensures match x
            case None => t'.VisibleOf(q) == t.VisibleOf(q) && Flushed(before, ran, t'.VisibleOf(q), now)
            case Some(task) =>
              && IsLeast(task, t.VisibleOf(q)) && task.time <= now
              && RanFirst(before, ran + [task], t'.VisibleOf(q), now) && |t'.VisibleOf(q)| < |t.VisibleOf(q)|
  {
    hide IsForest, IsTidy, Table.VisibleOf, TookOnly;
    match x
    case None => SameEntriesSameList(t, t', q);
    case Some(task) =>
      ListedOnce(t, q, task);
      RanOneMore(before, ran, t.VisibleOf(q), now, task);
      assert t.VisibleOf(q) == t'.VisibleOf(q) + multiset{task};
  }

  class MessageLoopImpl {
    const taskQueue: MessageLoopTaskQueues
    const queueId: QueueId

    constructor (taskQueue: MessageLoopTaskQueues, queueId: QueueId)
      ensures this.taskQueue == taskQueue && this.queueId == queueId
    {
      this.taskQueue, this.queueId := taskQueue, queueId;
    }

    /** One round of the drain loop: the least task of the flat list, if it is due. */
    method RunNext(now: int) returns (invocation: Option<Task>)
      requires taskQueue.Valid() && queueId in taskQueue.queueEntries
      modifies taskQueue`table, taskQueue.Sources()
      ensures taskQueue.Valid() && taskQueue.table.Valid() && queueId in taskQueue.table.entries
      ensures FlatDispatch(old(taskQueue.table), queueId, now, taskQueue.table, Ok(invocation))
    {
      hide IsForest, IsTidy, FlatDispatch, MessageLoopTaskQueues.Valid;
      taskQueue.KeysShow();
      DispatchIsFlat(taskQueue.table, queueId, now);
      var r := taskQueue.GetNextTaskToRun(queueId, now);
      taskQueue.KeysShow();
      invocation := if r.Ok? then r.value else None;
    }

    /** Runs the tasks of the queue and of those it owns: all that are due, in order, or only the
        first. The loop ends because every round takes a task off the list. */
    method FlushTasks(flush: FlushType, now: int) returns (ran: seq<Task>)
      requires taskQueue.Valid() && queueId in taskQueue.queueEntries
      modifies taskQueue`table, taskQueue.Sources()
      ensures taskQueue.Valid() && queueId in taskQueue.table.entries
      ensures multiset(ran) + taskQueue.table.VisibleOf(queueId) == old(taskQueue.table.VisibleOf(queueId))
      ensures forall i, j :: 0 <= i < j < |ran| ==>
        ran[i].time < ran[j].time || (ran[i].time == ran[j].time && ran[i].order < ran[j].order)
      ensures flush == All ==> Flushed(old(taskQueue.table.VisibleOf(queueId)), ran, taskQueue.table.VisibleOf(queueId), now)
      ensures flush == Single ==>
        if NothingDue(old(taskQueue.table.VisibleOf(queueId)), now) then ran == []
        else |ran| == 1 && IsLeast(ran[0], old(taskQueue.table.VisibleOf(queueId))) && ran[0].time <= now
    {
      hide IsForest, IsTidy, FlatDispatch, Flushed, RanFirst, MessageLoopTaskQueues.Valid, Table.VisibleOf;
      taskQueue.KeysShow();
      ran := [];
      ghost var before := taskQueue.table.VisibleOf(queueId);
      NothingRanYet(before, now);
      while true
        invariant taskQueue.Valid() && taskQueue.table.Valid() && queueId in taskQueue.table.entries
        invariant RanFirst(before, ran, taskQueue.table.VisibleOf(queueId), now)
        invariant flush == Single ==> ran == [] && taskQueue.table.VisibleOf(queueId) == before
        decreases |taskQueue.table.VisibleOf(queueId)|
      {
        ghost var t := taskQueue.table;
        var invocation := RunNext(now);
        RoundRunsLeast(before, ran, t, queueId, now, taskQueue.table, invocation);
        if invocation.None? {
          assert flush == Single ==> NothingDue(before, now) by { FlushedNone(before, ran, taskQueue.table.VisibleOf(queueId), now); }
          break;
        }
        ran := ran + [invocation.value];
        if flush == Single { break; }
      }
      RanSplits(before, ran, taskQueue.table.VisibleOf(queueId), now);
    }
  }

  ghost predicate NothingDue(m: multiset<Task>, now: int) { forall u :: u in m ==> u.time > now }

  lemma NothingRanYet(before: multiset<Task>, now: int)
    ensures RanFirst(before, [], before, now)
  {
  }

  lemma RanSplits(before: multiset<Task>, ran: seq<Task>, after: multiset<Task>, now: int)
    requires RanFirst(before, ran, after, now) || Flushed(before, ran, after, now)
    ensures multiset(ran) + after == before
    ensures forall i, j :: 0 <= i < j < |ran| ==>
      ran[i].time < ran[j].time || (ran[i].time == ran[j].time && ran[i].order < ran[j].order)
  {
    AscendingByFields(ran);
  }

  lemma FlushedNone(before: multiset<Task>, ran: seq<Task>, after: multiset<Task>, now: int)
    requires Flushed(before, ran, after, now)
    ensures ran == [] ==> NothingDue(before, now)
  {
  }
}
