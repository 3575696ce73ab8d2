/** The value of the queue table and what each locked method of
    src/fml/message_loop_task_queues.cc does to it. */
module TaskQueueTable {
  import opened Wrappers
  import opened DelayedTasks
  import opened TaskSources
  import opened Unions

  type QueueId = nat

  /** One TaskQueueEntry. `wakeable` says whether a loop has been attached. */
  datatype Entry = Entry(source: Source, ownerOf: set<QueueId>, subsumedBy: Option<QueueId>, wakeable: bool)

  const EmptyEntry := Entry(Source([], [], 0), {}, None, false)

  /** A call of Wakeable::WakeUp. */
  datatype Wake = Wake(queue: QueueId, time: int)

  /** The argument of the last WakeUp a queue's loop received. */
  function LastWake(wakes: seq<Wake>, q: QueueId): Option<int> {
    if wakes == [] then None
    else
      var last := wakes[|wakes| - 1];
      if last.queue == q then Some(last.time) else LastWake(wakes[..|wakes| - 1], q)
  }

  /** Where a task was submitted. */
  datatype Home = Home(queue: QueueId, task: Task)

  /** The source's heaps are in order and hold only tasks submitted to queue `q`. */
  ghost predicate SourceTidy(q: QueueId, s: Source, homes: map<nat, Home>) {
    s.Valid() && forall a :: a in s.Held() ==> a.order in homes && homes[a.order] == Home(q, a)
  }

  /** Ownership is a forest of depth one over live queues. */
  ghost predicate IsForest(entries: map<QueueId, Entry>) {
    && (forall q, s :: q in entries && s in entries[q].ownerOf ==>
          s in entries && s != q && entries[s].subsumedBy == Some(q))
    && (forall s :: s in entries && entries[s].subsumedBy.Some? ==>
          entries[s].subsumedBy.value in entries && s in entries[entries[s].subsumedBy.value].ownerOf)
    && (forall s :: s in entries && entries[s].subsumedBy.Some? ==> entries[s].ownerOf == {})
  }

  /** Heaps are in order and every order number names one task in one queue. */
  ghost predicate IsTidy(entries: map<QueueId, Entry>, nextId: nat, order: nat, homes: map<nat, Home>) {
    && (forall q :: q in entries ==> q < nextId)
    && (forall o :: o in homes ==> o < order)
    && (forall q :: q in entries ==> SourceTidy(q, entries[q].source, homes))
  }

  /** The table and, in ghost state, the log of wake-ups, the order numbers in use, and the
      ledger of what became of every registered task. */
  datatype Table = Table(
    entries: map<QueueId, Entry>, nextId: nat, order: nat, wakes: seq<Wake>, homes: map<nat, Home>,
    registered: multiset<Task>, delivered: seq<Task>, dropped: multiset<Task>)
  {
    // ----- What a queue offers

    /** A queue together with the queues it owns. */
    function Group(q: QueueId): set<QueueId>
      requires q in entries
    {
      {q} + entries[q].ownerOf
    }

    ghost function VisibleMap(): map<QueueId, multiset<Task>> {
      map q | q in entries :: entries[q].source.Visible()
    }

    ghost function HeldMap(): map<QueueId, multiset<Task>> {
      map q | q in entries :: entries[q].source.Held()
    }

    /** The flat priority list of a queue: all it and its subsumed queues offer, or nothing
        at all when it is subsumed itself. */
    ghost function VisibleOf(q: QueueId): multiset<Task>
      requires Forest() && q in entries
    {
      if entries[q].subsumedBy.Some? then multiset{} else Union(Group(q), VisibleMap())
    }

    ghost function Held(): multiset<Task> { Union(entries.Keys, HeldMap()) }

    /** HasPendingTasksUnlocked. */
    predicate HasPending(q: QueueId)
      requires Forest() && q in entries
    {
      && entries[q].subsumedBy.None?
      && (!entries[q].source.IsEmpty() || exists s :: s in entries[q].ownerOf && !entries[s].source.IsEmpty())
    }

    /** `task`, held by queue `h`, goes before everything else `q` offers. */
    ghost predicate IsNext(q: QueueId, h: QueueId, task: Task)
      requires Forest() && q in entries
    {
      IsFirst(this, Group(q), h, task)
    }

    // ----- Invariants

    ghost predicate Forest() { IsForest(entries) }

    ghost predicate Tidy() { IsTidy(entries, nextId, order, homes) }

    ghost predicate Valid() { Forest() && Tidy() }

    // ----- Steps

    /** The task that PeekNextTaskUnlocked finds, with the queue holding it. */
    ghost function Peek(q: QueueId): (r: (QueueId, Task))
      requires Valid() && q in entries && HasPending(q)
      ensures IsNext(q, r.0, r.1)
    {
      NextExists(this, q);
      var h, task :| IsNext(q, h, task);
      (h, task)
    }

    /** Wake the loop of `q` for its next task, if it has one. */
    ghost function Woken(q: QueueId): Table
      requires Valid() && q in entries
    {
      if HasPending(q) && entries[q].wakeable
      then this.(wakes := wakes + [Wake(q, Peek(q).1.time)])
      else this
    }

    function With(q: QueueId, e: Entry): Table { this.(entries := entries[q := e]) }

    function WithSource(q: QueueId, s: Source): Table
      requires q in entries
    {
      With(q, entries[q].(source := s))
    }

    function Create(): Table {
      this.(entries := entries[nextId := EmptyEntry], nextId := nextId + 1)
    }

    function SetWakeable(q: QueueId): Table {
      if q in entries then With(q, entries[q].(wakeable := true)) else this
    }

    ghost function Dispose(q: QueueId): Table
      requires Forest()
    {
      if q !in entries then this
      else this.(entries := entries - Group(q), dropped := dropped + Union(Group(q), HeldMap()))
    }

    ghost function DisposeTasks(q: QueueId): Table
      requires Forest()
    {
      if q !in entries then this
      else this.(entries := map p | p in entries :: if p in Group(q)
                              then entries[p].(source := entries[p].source.ShutDown()) else entries[p],
                 dropped := dropped + Union(Group(q), HeldMap()))
    }

    /** The queue whose loop serves `q`. */
    function LoopOf(q: QueueId): QueueId
      requires q in entries
    {
      if entries[q].subsumedBy.Some? then entries[q].subsumedBy.value else q
    }

    /** RegisterTask before its wake-up. The order number is spent even on a dead queue. */
    function Submitted(q: QueueId, task: Task): Table {
      if q !in entries then this.(order := order + 1)
      else WithSource(q, entries[q].source.Register(task)).(
             order := order + 1, homes := homes[task.order := Home(q, task)], registered := registered + multiset{task})
    }

    ghost function Register(q: QueueId, closure: nat, time: int, grade: Grade): Table
      requires Valid()
    {
      var task := Task(order, closure, time, grade);
      SubmittedIsValid(this, q, task);
      var t := Submitted(q, task);
      if q in entries then t.Woken(LoopOf(q)) else t
    }

    /** GetNextTaskToRun: the loop is woken for the task found, which is handed out if due. */
    ghost function GetNext(q: QueueId, now: int): (Table, Outcome<Option<Task>>)
      requires Valid()
    {
      if q !in entries then (this, OutOfRange)
      else if !HasPending(q) then (this, Ok(None))
      else
        var (h, task) := Peek(q);
        if task.time > now then (Woken(q), Ok(None))
        else (Woken(q).Popped(h, task), Ok(Some(task)))
    }

    ghost function Popped(h: QueueId, task: Task): Table
      requires h in entries
      requires if task.grade == DartEventLoop then entries[h].source.secondary != [] else entries[h].source.primary != []
    {
      WithSource(h, entries[h].source.Pop(task.grade)).(delivered := delivered + [task])
    }

    function Linked(owner: QueueId, subsumed: QueueId): Table
      requires owner in entries && subsumed in entries && owner != subsumed
    {
      this.(entries := entries[owner := entries[owner].(ownerOf := entries[owner].ownerOf + {subsumed})]
                              [subsumed := entries[subsumed].(subsumedBy := Some(owner))])
    }

    function Unlinked(owner: QueueId, subsumed: QueueId): Table
      requires owner in entries && subsumed in entries && owner != subsumed
    {
      this.(entries := entries[subsumed := entries[subsumed].(subsumedBy := None)]
                              [owner := entries[owner].(ownerOf := entries[owner].ownerOf - {subsumed})])
    }

    /** Neither queue stands in the way of `owner` taking over `subsumed`. */
    predicate CanMerge(owner: QueueId, subsumed: QueueId) {
      && owner in entries && subsumed in entries && owner != subsumed
      && entries[owner].subsumedBy.None?
      && entries[subsumed].ownerOf == {} && entries[subsumed].subsumedBy.None?
    }

    ghost function Merge(owner: QueueId, subsumed: QueueId): (Table, Outcome<bool>)
      requires Valid()
    {
      if owner == subsumed then (this, Ok(true))
      else if owner !in entries || subsumed !in entries then (this, OutOfRange)
      else if subsumed in entries[owner].ownerOf then (this, Ok(true))
      else if !CanMerge(owner, subsumed) then (this, Ok(false))
      else
        LinkedIsValid(this, owner, subsumed);
        (Linked(owner, subsumed).Woken(owner), Ok(true))
    }

    /** The member tests come before the look-up of `subsumed`, which may throw. */
    ghost function Unmerge(owner: QueueId, subsumed: QueueId): (Table, Outcome<bool>)
      requires Valid()
    {
      if owner !in entries then (this, OutOfRange)
      else if entries[owner].ownerOf == {} || entries[owner].subsumedBy.Some? then (this, Ok(false))
      else if subsumed !in entries then (this, OutOfRange)
      else if subsumed !in entries[owner].ownerOf then (this, Ok(false))
      else
        UnlinkedIsValid(this, owner, subsumed);
        var t := Unlinked(owner, subsumed);
        WokenIsValid(t, owner);
        (t.Woken(owner).Woken(subsumed), Ok(true))
    }

    function Owns(owner: QueueId, subsumed: QueueId): bool
      requires owner in entries
    {
      subsumed in entries[owner].ownerOf
    }

    function Pause(q: QueueId): Table {
      if q !in entries then this
      else var s := entries[q].source; WithSource(q, s.(pause := s.pause + 1))
    }

    function Resumed(q: QueueId): Table
      requires q in entries && entries[q].source.pause > 0
    {
      var s := entries[q].source;
      WithSource(q, s.(pause := s.pause - 1))
    }

    ghost function Resume(q: QueueId): Table
      requires Valid() && (q in entries ==> entries[q].source.pause > 0)
    {
      if q !in entries then this
      else
        ResumedIsValid(this, q);
        Resumed(q).Woken(q)
    }
  }

  const EmptyTable := Table(map[], 0, 0, [], map[], multiset{}, [], multiset{})

  // ----- The next task

  lemma PendingIsVisible(t: Table, q: QueueId)
    requires t.Forest() && q in t.entries
    ensures t.HasPending(q) <==> t.VisibleOf(q) != multiset{}
  {
    var f := t.VisibleMap();
    if t.entries[q].subsumedBy.None? {
      if g :| g in t.Group(q) && !t.entries[g].source.IsEmpty() {
        VisibleCount(t.entries[g].source);
        UnionRemove(t.Group(q), f, g);
        assert |f[g]| > 0;
      } else {
        forall u ensures u !in Union(t.Group(q), f) {
          UnionMember(t.Group(q), f, u);
          forall g | g in t.Group(q) ensures f[g] == multiset{} { VisibleCount(t.entries[g].source); }
        }
      }
    }
  }

  lemma SourceOrders(q: QueueId, s: Source, homes: map<nat, Home>)
    requires SourceTidy(q, s, homes)
    ensures UniqueOrders(s.Held())
  {
  }

  lemma VisibleHome(t: Table, q: QueueId, u: Task)
    requires t.Tidy() && q in t.entries && u in t.entries[q].source.Visible()
    ensures u.order in t.homes && t.homes[u.order] == Home(q, u)
  {
    assert SourceTidy(q, t.entries[q].source, t.homes);
    assert u in t.entries[q].source.Held();
  }

  /** `task` of queue `h` precedes everything the queues of `s` offer. */
  ghost predicate IsFirst(t: Table, s: set<QueueId>, h: QueueId, task: Task)
    requires s <= t.entries.Keys
  {
    && h in s && task in t.entries[h].source.Visible()
    && forall g :: g in s ==> AllAfter(task, t.entries[g].source)
  }

  ghost predicate AllAfter(task: Task, s: Source) {
    forall u :: u in s.Visible() && u != task ==> u.Greater(task)
  }

  lemma AllAfterTransitive(a: Task, b: Task, s: Source)
    requires AllAfter(a, s) && a.Greater(b)
    ensures AllAfter(b, s)
  {
  }

  lemma FirstOfOne(t: Table, g: QueueId) returns (task: Task)
    requires t.Tidy() && g in t.entries && !t.entries[g].source.IsEmpty()
    ensures IsFirst(t, {g}, g, task)
  {
    assert SourceTidy(g, t.entries[g].source, t.homes);
    SourceOrders(g, t.entries[g].source, t.homes);
    TopIsLeast(t.entries[g].source);
    task := t.entries[g].source.Top();
  }

  /** The earlier of two first tasks is first among both sets of queues. */
  lemma FirstOfBoth(t: Table, s: set<QueueId>, h: QueueId, a: Task, r: set<QueueId>, g: QueueId, b: Task)
    requires t.Tidy() && s <= t.entries.Keys && r <= t.entries.Keys && s !! r
    requires IsFirst(t, s, h, a) && IsFirst(t, r, g, b)
    ensures if a.Greater(b) then IsFirst(t, s + r, g, b) else IsFirst(t, s + r, h, a)
  {
    VisibleHome(t, h, a);
    VisibleHome(t, g, b);
    forall x | x in s + r ensures AllAfter(if a.Greater(b) then b else a, t.entries[x].source) {
      if a.Greater(b) && x in s { AllAfterTransitive(a, b, t.entries[x].source); }
      if !a.Greater(b) && x in r { AllAfterTransitive(b, a, t.entries[x].source); }
    }
  }

  lemma FirstWithEmpty(t: Table, s: set<QueueId>, h: QueueId, a: Task, r: set<QueueId>)
    requires s <= t.entries.Keys && r <= t.entries.Keys && IsFirst(t, s, h, a)
    requires forall g :: g in r ==> t.entries[g].source.IsEmpty()
    ensures IsFirst(t, s + r, h, a)
  {
    forall x | x in r ensures AllAfter(a, t.entries[x].source) { VisibleCount(t.entries[x].source); }
  }

  /** Among any queues with something to offer, some task is first. */
  lemma {:induction false} FirstExists(t: Table, s: set<QueueId>) returns (h: QueueId, task: Task)
    requires t.Tidy() && s <= t.entries.Keys
    requires exists g :: g in s && !t.entries[g].source.IsEmpty()
    ensures IsFirst(t, s, h, task)
    decreases |s|
  {
    hide IsTidy, IsFirst, Source.IsEmpty;
    var g :| g in s && !t.entries[g].source.IsEmpty();
    h := g;
    task := FirstOfOne(t, g);
    var rest := s - {g};
    assert {g} + rest == s;
    if exists p :: p in rest && !t.entries[p].source.IsEmpty() {
      var h', task' := FirstExists(t, rest);
      FirstOfBoth(t, {g}, h, task, rest, h', task');
      if task.Greater(task') { h, task := h', task'; }
    } else {
      FirstWithEmpty(t, {g}, h, task, rest);
    }
  }

  lemma NextExists(t: Table, q: QueueId)
    requires t.Valid() && q in t.entries && t.HasPending(q)
    ensures exists h, task :: t.IsNext(q, h, task)
  {
    var h, task := FirstExists(t, t.Group(q));
    assert t.IsNext(q, h, task);
  }

  lemma FirstIsUnique(t: Table, s: set<QueueId>, h: QueueId, a: Task, g: QueueId, b: Task)
    requires t.Tidy() && s <= t.entries.Keys && IsFirst(t, s, h, a) && IsFirst(t, s, g, b)
    ensures h == g && a == b
  {
    VisibleHome(t, h, a);
    VisibleHome(t, g, b);
    assert AllAfter(a, t.entries[g].source) && AllAfter(b, t.entries[h].source);
  }

  lemma NextIsUnique(t: Table, q: QueueId, h: QueueId, task: Task)
    requires t.Valid() && q in t.entries && t.HasPending(q) && t.IsNext(q, h, task)
    ensures t.Peek(q) == (h, task)
  {
    hide Table.HasPending, IsFirst, IsTidy;
    var p := t.Peek(q);
    FirstIsUnique(t, t.Group(q), h, task, p.0, p.1);
  }

  // ----- Steps keep the table valid

  lemma SourceAfterRegister(q: QueueId, s: Source, task: Task, homes: map<nat, Home>)
    requires SourceTidy(q, s, homes) && task.order !in homes
    ensures SourceTidy(q, s.Register(task), homes[task.order := Home(q, task)])
    ensures s.Register(task).Held() == s.Held() + multiset{task}
  {
    RegisterAdds(s, task);
  }

  lemma SourceKeepsTidy(q: QueueId, s: Source, homes: map<nat, Home>, more: map<nat, Home>)
    requires SourceTidy(q, s, homes) && forall o :: o in homes ==> o in more && more[o] == homes[o]
    ensures SourceTidy(q, s, more)
  {
  }

  /** A changed source leaves the ownership links alone. */
  lemma WithSourceKeepsForest(t: Table, q: QueueId, s: Source)
    requires t.Forest() && q in t.entries
    ensures t.WithSource(q, s).Forest()
  {
  }

  lemma SubmittedIsTidy(t: Table, q: QueueId, task: Task)
    requires t.Tidy() && task.order == t.order
    ensures t.Submitted(q, task).Tidy()
  {
    hide SourceTidy, Source.Register;
    var t' := t.Submitted(q, task);
    assert t.order !in t.homes;
    if q in t.entries {
      SourceAfterRegister(q, t.entries[q].source, task, t.homes);
      forall p | p in t.entries && p != q ensures SourceTidy(p, t.entries[p].source, t'.homes) {
        SourceKeepsTidy(p, t.entries[p].source, t.homes, t'.homes);
      }
    }
  }

  lemma SubmittedIsValid(t: Table, q: QueueId, task: Task)
    requires t.Valid() && task.order == t.order
    ensures t.Submitted(q, task).Valid()
  {
    hide IsTidy, IsForest, Source.Register;
    SubmittedIsTidy(t, q, task);
    if q in t.entries { WithSourceKeepsForest(t, q, t.entries[q].source.Register(task)); }
  }

  lemma LinkedIsValid(t: Table, owner: QueueId, subsumed: QueueId)
    requires t.Valid() && t.CanMerge(owner, subsumed)
    ensures t.Linked(owner, subsumed).Valid()
  {
    hide SourceTidy;
    var t' := t.Linked(owner, subsumed);
    assert t'.Tidy() by { hide IsForest; }
    assert t'.Forest() by { hide IsTidy; }
  }

  lemma GroupIsLive(t: Table, q: QueueId)
    requires t.Forest() && q in t.entries
    ensures t.Group(q) <= t.entries.Keys
  {
  }

  lemma OwnedIsLive(t: Table, owner: QueueId, subsumed: QueueId)
    requires t.Forest() && owner in t.entries && subsumed in t.entries[owner].ownerOf
    ensures subsumed in t.entries && subsumed != owner
    ensures t.entries[subsumed].subsumedBy == Some(owner) && t.entries[owner].subsumedBy.None?
  {
  }

  lemma UnlinkedIsValid(t: Table, owner: QueueId, subsumed: QueueId)
    requires t.Valid() && owner in t.entries && subsumed in t.entries[owner].ownerOf
    ensures t.Unlinked(owner, subsumed).Valid()
  {
    hide SourceTidy;
    var t' := t.Unlinked(owner, subsumed);
    assert t'.Tidy() by { hide IsForest; }
    assert t'.Forest() by { hide IsTidy; }
  }

  lemma WithSourceIsValid(t: Table, q: QueueId, s: Source)
    requires t.Valid() && q in t.entries && s.Valid()
    requires forall a :: a in s.Held() ==> a in t.entries[q].source.Held()
    ensures t.WithSource(q, s).Valid()
  {
    WithSourceKeepsForest(t, q, s);
    hide IsForest;
    assert SourceTidy(q, t.entries[q].source, t.homes);
    assert SourceTidy(q, s, t.homes);
    hide SourceTidy;
  }

  lemma ResumedIsValid(t: Table, q: QueueId)
    requires t.Valid() && q in t.entries && t.entries[q].source.pause > 0
    ensures t.Resumed(q).Valid()
  {
    assert SourceTidy(q, t.entries[q].source, t.homes);
    WithSourceIsValid(t, q, t.Resumed(q).entries[q].source);
  }

  lemma WokenIsValid(t: Table, q: QueueId)
    requires t.Valid() && q in t.entries
    ensures t.Woken(q).Valid()
  {
    hide IsForest, IsTidy, Table.HasPending;
  }
}
