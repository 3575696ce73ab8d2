/** Dispatch refines one flat priority list per loop. */
module TaskDispatch {
  import opened Wrappers
  import opened DelayedTasks
  import opened TaskSources
  import opened Unions
  import opened TaskQueueTable
  import opened TaskQueueRuns

  /** What is next among the queues of a group is least in their flat list. */
  lemma NextIsLeast(t: Table, q: QueueId)
    requires t.Valid() && q in t.entries && t.HasPending(q)
    ensures IsLeast(t.Peek(q).1, t.VisibleOf(q))
  {
    hide IsTidy, Union, Source.Visible, SourceTidy;
    var h, task := t.Peek(q).0, t.Peek(q).1;
    var f, g := t.VisibleMap(), t.Group(q);
    assert IsFirst(t, g, h, task);
    UnionMember(g, f, task);
    assert task in f[h];
    forall u | u in Union(g, f) && u != task ensures u.Greater(task) {
      UnionMember(g, f, u);
      var x :| x in g && u in f[x];
      assert AllAfter(task, t.entries[x].source);
    }
  }

  /** A wake-up is for the time of the least task of the flat list, and nobody is woken for an
      empty list. */
  lemma WakesForLeast(t: Table, q: QueueId)
    requires t.Valid() && q in t.entries
    ensures var t' := t.Woken(q);
      && t' == t.(wakes := t'.wakes)
      && if t.VisibleOf(q) == multiset{} || !t.entries[q].wakeable then t' == t
         else exists u :: IsLeast(u, t.VisibleOf(q)) && t'.wakes == t.wakes + [Wake(q, u.time)]
  {
    hide IsForest, IsTidy, Table.HasPending, Table.VisibleOf, Table.Peek;
    PendingIsVisible(t, q);
    if t.HasPending(q) { NextIsLeast(t, q); }
  }

  lemma RemoveOne(all: multiset<Task>, all': multiset<Task>, part: multiset<Task>, part': multiset<Task>,
                  rest: multiset<Task>, task: Task)
    requires all == part + rest && all' == part' + rest && task in part && part' == part - multiset{task}
    ensures all' == all - multiset{task}
  {
  }

  /** Popping the next task takes it, and only it, off the flat list. */
  lemma PopTakesOne(t: Table, q: QueueId, h: QueueId, task: Task, t': Table)
    requires t.Forest() && q in t.entries && t.entries[q].subsumedBy.None? && h in t.Group(q) && h in t.entries
    requires h in t'.entries && t'.entries == t.entries[h := t.entries[h].(source := t'.entries[h].source)]
    requires task in t.entries[h].source.Visible()
    requires t'.entries[h].source.Visible() == t.entries[h].source.Visible() - multiset{task}
    ensures t'.Forest() && t'.VisibleOf(q) == t.VisibleOf(q) - multiset{task}
  {
    WithSourceKeepsForest(t, h, t'.entries[h].source);
    assert t.Group(q) <= t.entries.Keys;
    hide IsForest, Union, Source.Visible;
    var f, f', g := t.VisibleMap(), t'.VisibleMap(), t.Group(q);
    UnionUpdate(g, f, f', h);
    RemoveOne(Union(g, f), Union(g, f'), f[h], f'[h], Union(g - {h}, f), task);
  }

  /** `t'` is `t` without `task`, which one queue of `q`'s group held; nothing else moved. */
  ghost predicate TookOnly(t: Table, t': Table, q: QueueId, task: Task)
    requires q in t.entries
  {
    exists h :: h in t.Group(q) && h in t.entries && h in t'.entries
      && task in t.entries[h].source.Visible()
      && t'.entries == t.entries[h := t.entries[h].(source := t'.entries[h].source)]
      && t'.entries[h].source.Held() == t.entries[h].source.Held() - multiset{task}
      && t'.entries[h].source.pause == t.entries[h].source.pause
  }

  lemma PoppedTakes(t: Table, q: QueueId)
    requires t.Valid() && q in t.entries && t.HasPending(q)
    ensures var h, task := t.Peek(q).0, t.Peek(q).1;
            && h in t.entries
            && (if task.grade == DartEventLoop then t.entries[h].source.secondary != [] else t.entries[h].source.primary != [])
            && var t' := t.Popped(h, task);
               t'.Valid() && TookOnly(t, t', q, task) && t'.VisibleOf(q) == t.VisibleOf(q) - multiset{task}
  {
    PendingHasLoop(t, q);
    hide IsForest, IsTidy, IsFirst, Source.Held, Source.Visible, Table.VisibleOf, Table.HasPending, Table.Peek, Source.Pop;
    PoppedIsValid(t, q);
    var h, task := t.Peek(q).0, t.Peek(q).1;
    var t' := t.Popped(h, task);
    PopTakesOne(t, q, h, task, t');
    assert TookOnly(t, t', q, task);
  }

  lemma PendingHasLoop(t: Table, q: QueueId)
    requires t.Forest() && q in t.entries && t.HasPending(q)
    ensures t.entries[q].subsumedBy.None?
  {
  }

  /** The pop commutes with the wake-up: only the log differs. */
  lemma GetNextDue(t: Table, q: QueueId, now: int)
    requires t.Valid() && q in t.entries && t.HasPending(q) && t.Peek(q).1.time <= now
    ensures var (t', r), h, task := t.GetNext(q, now), t.Peek(q).0, t.Peek(q).1;
            && r == Ok(Some(task)) && h in t.entries
            && (if task.grade == DartEventLoop then t.entries[h].source.secondary != [] else t.entries[h].source.primary != [])
            && t' == t.Popped(h, task).(wakes := t.Woken(q).wakes)
  {
    hide IsForest, IsTidy, IsFirst, Table.HasPending, Table.Peek;
    PoppedIsValid(t, q);
  }

  lemma GetNextNotDue(t: Table, q: QueueId, now: int)
    requires t.Valid() && q in t.entries && t.HasPending(q) && t.Peek(q).1.time > now
    ensures t.GetNext(q, now) == (t.Woken(q), Ok(None)) && t.Woken(q).entries == t.entries
  {
    hide IsForest, IsTidy, IsFirst, Table.HasPending, Table.Peek;
  }

  /** The answer of GetNextTaskToRun, read off the flat list of `q`. */
  ghost predicate FlatDispatch(t: Table, q: QueueId, now: int, t': Table, r: Outcome<Option<Task>>)
    requires t.Forest() && t'.Forest() && q in t.entries && q in t'.entries
  {
    match r
    case OutOfRange => false
    case Ok(Some(x)) =>
      && IsLeast(x, t.VisibleOf(q)) && x.time <= now
      && t'.VisibleOf(q) == t.VisibleOf(q) - multiset{x}
      && TookOnly(t, t', q, x)
    case Ok(None) =>
      && t'.entries == t.entries
      && forall u :: u in t.VisibleOf(q) ==> u.time > now
  }

  lemma SameEntriesSameList(t: Table, t': Table, q: QueueId)
    requires t.Forest() && t'.entries == t.entries && q in t.entries
    ensures t'.Forest() && t'.VisibleOf(q) == t.VisibleOf(q)
  {
    hide IsForest, Union;
    assert t.VisibleMap() == t'.VisibleMap();
  }

  lemma TookOnlyIgnoresLog(t: Table, t1: Table, t2: Table, q: QueueId, task: Task)
    requires q in t.entries && t1.entries == t2.entries && TookOnly(t, t1, q, task)
    ensures TookOnly(t, t2, q, task) && q in t2.entries
  {
    hide Source.Held, Source.Visible;
  }

  /** GetNextTaskToRun on a live queue hands out exactly the least task of its flat list when
      that task is due, taking it and nothing else; otherwise it takes nothing. */
  lemma DispatchIsFlat(t: Table, q: QueueId, now: int)
    requires t.Valid() && q in t.entries
    ensures var (t', r) := t.GetNext(q, now);
            t'.Valid() && q in t'.entries && FlatDispatch(t, q, now, t', r)
  {
    hide IsForest, IsTidy, IsFirst, Table.HasPending, Table.VisibleOf, Table.Peek, Source.Visible, Source.Held, TookOnly, Table.Popped, Table.Woken;
    PendingIsVisible(t, q);
    GetNextIsValid(t, q, now);
    if t.HasPending(q) {
      NextIsLeast(t, q);
      if t.Peek(q).1.time <= now {
        GetNextDue(t, q, now);
        PoppedTakes(t, q);
        var popped, t' := t.Popped(t.Peek(q).0, t.Peek(q).1), t.GetNext(q, now).0;
        TookOnlyIgnoresLog(t, popped, t', q, t.Peek(q).1);
        SameEntriesSameList(popped, t', q);
      } else {
        GetNextNotDue(t, q, now);
      }
    }
  }

  /** The task handed out has the earliest time on offer, and of the tasks of that time it is the one
      registered first. */
  lemma HandsOutOldestOfEarliest(t: Table, q: QueueId, now: int)
    requires t.Valid()
    ensures var r := t.GetNext(q, now).1;
      q in t.entries && r.Ok? && r.value.Some? ==>
        forall u :: u in t.VisibleOf(q) ==>
          r.value.value.time < u.time || (r.value.value.time == u.time && r.value.value.order <= u.order)
  {
    hide IsForest, IsTidy, Table.GetNext, Table.VisibleOf, TookOnly;
    if q in t.entries { DispatchIsFlat(t, q, now); }
  }

  /** A subsumed queue never yields a task, whatever it holds. */
  lemma SubsumedYieldsNothing(t: Table, q: QueueId, now: int)
    requires t.Valid() && q in t.entries && t.entries[q].subsumedBy.Some?
    ensures t.GetNext(q, now) == (t, Ok(None)) && t.VisibleOf(q) == multiset{}
  {
    hide IsForest, IsTidy;
  }

  // ----- A flat list names each task once

  lemma {:induction false} AscendingOnce(s: seq<Task>, u: Task)
    requires Ascending(s)
    ensures multiset(s)[u] <= 1
  {
    if s != [] {
      HeadIsLeast(s);
      AscendingOnce(s[1..], u);
      assert u in s[1..] ==> u.Greater(s[0]);
      assert u in multiset(s[1..]) ==> u in s[1..];
    }
  }

  lemma VisibleOnce(q: QueueId, s: Source, homes: map<nat, Home>, u: Task)
    requires SourceTidy(q, s, homes)
    ensures s.Visible()[u] <= 1
    ensures u in s.Visible() ==> u.order in homes && homes[u.order] == Home(q, u)
  {
    AscendingOnce(s.primary, u);
    AscendingOnce(s.secondary, u);
    assert u in s.Visible() ==> u in s.Held();
    assert !(u in s.primary && u in s.secondary);
  }

  lemma {:induction false} UnionOnce(s: set<QueueId>, f: map<QueueId, multiset<Task>>, u: Task)
    requires s <= f.Keys
    requires forall x :: x in s ==> f[x][u] <= 1
    requires forall x, y :: x in s && y in s && u in f[x] && u in f[y] ==> x == y
    ensures Union(s, f)[u] <= 1
    decreases |s|
  {
    if s != {} {
      var x :| x in s;
      UnionRemove(s, f, x);
      UnionOnce(s - {x}, f, u);
      if u in f[x] { UnionMember(s - {x}, f, u); }
    }
  }

  lemma ListedOnce(t: Table, q: QueueId, u: Task)
    requires t.Valid() && q in t.entries
    ensures t.VisibleOf(q)[u] <= 1
  {
    hide IsForest, SourceTidy, Union, Source.Visible;
    GroupIsLive(t, q);
    var f := t.VisibleMap();
    forall x | x in t.Group(q) ensures f[x][u] <= 1 && (u in f[x] ==> u.order in t.homes && t.homes[u.order] == Home(x, u)) {
      VisibleOnce(x, t.entries[x].source, t.homes, u);
    }
    UnionOnce(t.Group(q), f, u);
  }
}
