/** No lost wake-up: a loop whose queue has something to run was last woken for a time no later
    than its earliest task, after any run of the table's operations. */
module NoLostWakeup {
  import opened Wrappers
  import opened DelayedTasks
  import opened TaskSources
  import opened Unions
  import opened TaskQueueTable
  import opened TaskQueueRuns

  /** The wake-up `w` comes no later than any task `s` offers. */
  ghost predicate Covers(w: Option<int>, s: Source) {
    forall u :: u in s.Visible() ==> w.Some? && w.value <= u.time
  }

  /** `q` has a loop of its own that can be woken. */
  predicate Listening(t: Table, q: QueueId)
    requires q in t.entries
  {
    t.entries[q].subsumedBy.None? && t.entries[q].wakeable
  }

  /** The last wake-up of `q` covers everything its group offers. */
  ghost predicate Armed(t: Table, q: QueueId)
    requires t.Forest() && q in t.entries
  {
    forall g :: g in t.Group(q) ==> Covers(LastWake(t.wakes, q), t.entries[g].source)
  }

  /** No listening queue has a task its loop will sleep past. */
  ghost predicate AllArmed(t: Table)
    requires t.Forest()
  {
    forall q :: q in t.entries && Listening(t, q) ==> Armed(t, q)
  }

  /** A queue without a loop has never been woken. */
  ghost predicate QuietAt(t: Table, q: QueueId) {
    q >= t.nextId || (q in t.entries && !t.entries[q].wakeable) ==> LastWake(t.wakes, q) == None
  }

  ghost predicate Quiet(t: Table) { forall q :: QuietAt(t, q) }

  lemma LastWakeOf(wakes: seq<Wake>, w: Wake, q: QueueId)
    ensures LastWake(wakes + [w], q) == if w.queue == q then Some(w.time) else LastWake(wakes, q)
  {
    assert (wakes + [w])[..|wakes|] == wakes;
  }

  // ----- Waking a loop arms its queue and disturbs no other

  lemma WokenLog(t: Table, q: QueueId, p: QueueId)
    requires t.Valid() && q in t.entries
    ensures t.Woken(q).entries == t.entries && t.Woken(q).nextId == t.nextId
    ensures LastWake(t.Woken(q).wakes, p) ==
            if p == q && t.HasPending(q) && t.entries[q].wakeable then Some(t.Peek(q).1.time) else LastWake(t.wakes, p)
  {
    hide IsForest, IsTidy, Table.HasPending, LastWake;
    if t.HasPending(q) && t.entries[q].wakeable { LastWakeOf(t.wakes, Wake(q, t.Peek(q).1.time), p); }
  }

  lemma NothingPendingNothingVisible(t: Table, q: QueueId, g: QueueId)
    requires t.Forest() && q in t.entries && t.entries[q].subsumedBy.None? && !t.HasPending(q) && g in t.Group(q)
    ensures g in t.entries && t.entries[g].source.Visible() == multiset{}
  {
    assert g in t.entries;
    VisibleCount(t.entries[g].source);
  }

  lemma NextCovers(task: Task, s: Source)
    requires AllAfter(task, s)
    ensures Covers(Some(task.time), s)
  {
  }

  lemma WokenArms(t: Table, q: QueueId)
    requires t.Valid() && q in t.entries && Listening(t, q)
    ensures t.Woken(q).Valid() && Armed(t.Woken(q), q)
  {
    hide IsForest, IsTidy, Table.HasPending, LastWake, AllAfter, Covers, Table.Woken;
    WokenIsValid(t, q);
    WokenLog(t, q, q);
    GroupIsLive(t, q);
    forall g | g in t.Group(q) ensures Covers(LastWake(t.Woken(q).wakes, q), t.entries[g].source) {
      if t.HasPending(q) {
        assert IsFirst(t, t.Group(q), t.Peek(q).0, t.Peek(q).1);
        NextCovers(t.Peek(q).1, t.entries[g].source);
      } else {
        NothingPendingNothingVisible(t, q, g);
        CoversNothing(LastWake(t.Woken(q).wakes, q), t.entries[g].source);
      }
    }
  }

  lemma CoversNothing(w: Option<int>, s: Source)
    requires s.Visible() == multiset{}
    ensures Covers(w, s)
  {
  }

  /** Waking `q` leaves every other queue as armed as it was. */
  lemma WokenKeepsOthers(t: Table, q: QueueId, p: QueueId)
    requires t.Valid() && q in t.entries && p in t.entries && p != q && Armed(t, p)
    ensures t.Woken(q).Valid() && Armed(t.Woken(q), p)
  {
    hide IsForest, IsTidy, Table.HasPending, LastWake, Covers, Table.Woken;
    WokenIsValid(t, q);
    WokenLog(t, q, p);
  }

  /** A queue stays armed when its group offers no more than before and its log is the same. */
  lemma StaysArmed(t: Table, t': Table, q: QueueId)
    requires t.Forest() && t'.Forest() && q in t.entries && q in t'.entries && Armed(t, q)
    requires LastWake(t'.wakes, q) == LastWake(t.wakes, q)
    requires t'.Group(q) <= t.Group(q) <= t.entries.Keys
    requires forall g :: g in t'.Group(q) ==> g in t'.entries && t'.entries[g].source.Visible() <= t.entries[g].source.Visible()
    ensures Armed(t', q)
  {
    hide IsForest, LastWake, Covers;
    forall g | g in t'.Group(q) ensures Covers(LastWake(t'.wakes, q), t'.entries[g].source) {
      CoversLess(LastWake(t.wakes, q), t.entries[g].source, t'.entries[g].source);
    }
  }

  lemma CoversLess(w: Option<int>, s: Source, s': Source)
    requires Covers(w, s) && s'.Visible() <= s.Visible()
    ensures Covers(w, s')
  {
    hide Source.Visible;
  }

  // ----- Each step keeps every queue armed

  /** A queue outside `p`'s group changed its source; `p` is as armed as before. */
  lemma OtherSourceChanged(t: Table, t': Table, q: QueueId, p: QueueId)
    requires t.Forest() && t'.Forest() && q in t.entries && p in t.entries && t.entries[p].subsumedBy.None? && p != t.LoopOf(q)
    requires q in t'.entries && t'.entries == t.entries[q := t.entries[q].(source := t'.entries[q].source)]
    requires t'.wakes == t.wakes && Armed(t, p)
    ensures Armed(t', p)
  {
    assert q !in t.Group(p) by { if q in t.entries[p].ownerOf { OwnedIsLive(t, p, q); } }
    GroupIsLive(t, p);
    hide IsForest, LastWake, Covers, Source.Visible;
    StaysArmed(t, t', p);
  }

  lemma RegisterArms(t: Table, q: QueueId, closure: nat, time: int, grade: Grade, p: QueueId)
    requires t.Valid() && q in t.entries
    requires var t' := t.Register(q, closure, time, grade); p in t'.entries && Listening(t', p)
    requires p in t.entries && Listening(t, p) ==> Armed(t, p)
    ensures var t' := t.Register(q, closure, time, grade); t'.Valid() && p in t'.entries && Armed(t', p)
  {
    var task := Task(t.order, closure, time, grade);
    var t1, loop := t.Submitted(q, task), t.LoopOf(q);
    SubmittedIsValid(t, q, task);
    LoopIsLive(t, q);
    hide IsForest, IsTidy, Source.Register, LastWake, Covers, Table.Woken;
    WokenLog(t1, loop, p);
    assert t.Register(q, closure, time, grade) == t1.Woken(loop);
    if p == loop {
      WokenArms(t1, loop);
    } else {
      OtherSourceChanged(t, t1, q, p);
      WokenKeepsOthers(t1, loop, p);
    }
  }

  lemma LoopIsLive(t: Table, q: QueueId)
    requires t.Forest() && q in t.entries
    ensures t.LoopOf(q) in t.entries && t.entries[t.LoopOf(q)].subsumedBy.None?
  {
  }

  lemma WokenKeepsAll(t: Table, q: QueueId, p: QueueId)
    requires t.Valid() && q in t.entries && p in t.entries && Listening(t, p) && Armed(t, p)
    ensures t.Woken(q).Valid() && t.Woken(q).entries == t.entries && Armed(t.Woken(q), p)
  {
    hide IsForest, IsTidy, LastWake, Covers, Table.Woken, Armed;
    WokenLog(t, q, p);
    if p == q { WokenArms(t, q); } else { WokenKeepsOthers(t, q, p); }
  }

  lemma PoppedKeepsArmed(t: Table, t1: Table, q: QueueId, p: QueueId)
    requires t.Valid() && q in t.entries && t.HasPending(q)
    requires t1.Valid() && t1.entries == t.entries && p in t.entries && Armed(t1, p)
    ensures var h, task := t.Peek(q).0, t.Peek(q).1;
            && h in t1.entries
            && (if task.grade == DartEventLoop then t1.entries[h].source.secondary != [] else t1.entries[h].source.primary != [])
            && t1.Popped(h, task).Forest() && Armed(t1.Popped(h, task), p)
  {
    hide IsForest, IsTidy, LastWake, Covers, Table.HasPending, Table.Peek, Source.Visible, Source.Held, Source.Pop;
    PoppedIsValid(t, q);
    var h, task := t.Peek(q).0, t.Peek(q).1;
    var t2 := t1.Popped(h, task);
    WithSourceKeepsForest(t1, h, t2.entries[h].source);
    GroupIsLive(t1, p);
    StaysArmed(t1, t2, p);
  }

  lemma GetNextArms(t: Table, q: QueueId, now: int, p: QueueId)
    requires t.Valid() && p in t.entries && Listening(t, p) && Armed(t, p)
    ensures var t' := t.GetNext(q, now).0; t'.Valid() && p in t'.entries && Armed(t', p)
  {
    hide IsForest, IsTidy, LastWake, Covers, Table.HasPending, Table.Peek, Table.Woken, Armed;
    GetNextIsValid(t, q, now);
    if q in t.entries && t.HasPending(q) {
      WokenKeepsAll(t, q, p);
      PoppedKeepsArmed(t, t.Woken(q), q, p);
    }
  }

  lemma LinkedKeepsArmed(t: Table, owner: QueueId, subsumed: QueueId, p: QueueId)
    requires t.Valid() && t.CanMerge(owner, subsumed) && p in t.entries && p != owner && p != subsumed && Armed(t, p)
    ensures t.Linked(owner, subsumed).Valid() && Armed(t.Linked(owner, subsumed), p)
  {
    LinkedIsValid(t, owner, subsumed);
    GroupIsLive(t, p);
    hide IsForest, IsTidy, LastWake, Covers, Source.Visible;
    StaysArmed(t, t.Linked(owner, subsumed), p);
  }

  lemma MergeArms(t: Table, owner: QueueId, subsumed: QueueId, p: QueueId)
    requires t.Valid() && t.CanMerge(owner, subsumed)
    requires p in t.entries && Listening(t.Linked(owner, subsumed), p)
    requires Listening(t, p) ==> Armed(t, p)
    ensures var t1 := t.Linked(owner, subsumed);
            t1.Valid() && t1.Woken(owner).Valid() && p in t1.Woken(owner).entries && Armed(t1.Woken(owner), p)
  {
    hide IsForest, IsTidy, LastWake, Covers, Table.Woken, Armed;
    LinkedIsValid(t, owner, subsumed);
    var t1 := t.Linked(owner, subsumed);
    WokenLog(t1, owner, p);
    if p == owner {
      WokenArms(t1, owner);
    } else {
      LinkedKeepsArmed(t, owner, subsumed, p);
      WokenKeepsOthers(t1, owner, p);
    }
  }

  lemma UnlinkedKeepsArmed(t: Table, owner: QueueId, subsumed: QueueId, p: QueueId)
    requires t.Valid() && owner in t.entries && subsumed in t.entries[owner].ownerOf && p in t.entries && p != subsumed && Armed(t, p)
    ensures subsumed in t.entries && subsumed != owner
    ensures t.Unlinked(owner, subsumed).Valid() && Armed(t.Unlinked(owner, subsumed), p)
  {
    hide IsForest, IsTidy, LastWake, Covers, Source.Visible;
    OwnedIsLive(t, owner, subsumed);
    UnlinkedIsValid(t, owner, subsumed);
    GroupIsLive(t, p);
    StaysArmed(t, t.Unlinked(owner, subsumed), p);
  }

  /** Both loops are woken when a queue is unmerged. */
  lemma UnmergeArms(t: Table, owner: QueueId, subsumed: QueueId, p: QueueId)
    requires t.Valid() && owner in t.entries && subsumed in t.entries[owner].ownerOf && subsumed in t.entries && subsumed != owner
    requires p in t.entries && Listening(t.Unlinked(owner, subsumed), p)
    requires Listening(t, p) ==> Armed(t, p)
    ensures var t1 := t.Unlinked(owner, subsumed);
            && t1.Valid() && t1.Woken(owner).Valid() && subsumed in t1.Woken(owner).entries
            && var t3 := t1.Woken(owner).Woken(subsumed);
               t3.Valid() && p in t3.entries && Armed(t3, p)
  {
    hide IsForest, IsTidy, LastWake, Covers, Table.Woken, Armed;
    UnlinkedIsValid(t, owner, subsumed);
    var t1 := t.Unlinked(owner, subsumed);
    WokenIsValid(t1, owner);
    WokenLog(t1, owner, p);
    var t2 := t1.Woken(owner);
    WokenIsValid(t2, subsumed);
    WokenLog(t2, subsumed, p);
    if p == subsumed {
      WokenArms(t2, subsumed);
    } else {
      assert Listening(t, p);
      UnlinkedKeepsArmed(t, owner, subsumed, p);
      WokenKeepsAll(t1, owner, p);
      WokenKeepsOthers(t2, subsumed, p);
    }
  }

  lemma DisposeArms(t: Table, q: QueueId, p: QueueId)
    requires t.Valid() && q in t.entries && t.entries[q].subsumedBy.None?
    requires p in t.Dispose(q).entries && Armed(t, p)
    ensures t.Dispose(q).Forest() && Armed(t.Dispose(q), p)
  {
    hide IsForest, IsTidy, LastWake, Covers, Source.Visible;
    DisposeIsForest(t, q);
    GroupIsLive(t, p);
    GroupIsLive(t.Dispose(q), p);
    StaysArmed(t, t.Dispose(q), p);
  }

  lemma DisposeTasksArms(t: Table, q: QueueId, p: QueueId)
    requires t.Valid() && q in t.entries && p in t.entries && Armed(t, p)
    ensures t.DisposeTasks(q).Forest() && p in t.DisposeTasks(q).entries && Armed(t.DisposeTasks(q), p)
  {
    hide IsForest, IsTidy, LastWake, Covers;
    DisposeTasksIsForest(t, q);
    GroupIsLive(t, p);
    StaysArmed(t, t.DisposeTasks(q), p);
  }

  lemma CreateArms(t: Table, p: QueueId)
    requires t.Valid() && p in t.entries && Armed(t, p)
    ensures t.Create().Forest() && p in t.Create().entries && Armed(t.Create(), p)
  {
    CreateIsValid(t);
    assert p != t.nextId && t.nextId !in t.entries;
    GroupIsLive(t, p);
    hide IsForest, IsTidy, LastWake, Covers, Source.Visible;
    StaysArmed(t, t.Create(), p);
  }

  lemma PauseArms(t: Table, q: QueueId, p: QueueId)
    requires t.Valid() && p in t.entries && Armed(t, p)
    ensures t.Pause(q).Valid() && p in t.Pause(q).entries && Armed(t.Pause(q), p)
  {
    hide IsForest, IsTidy, LastWake, Covers;
    PauseIsValid(t, q);
    GroupIsLive(t, p);
    StaysArmed(t, t.Pause(q), p);
  }

  lemma SetWakeableArms(t: Table, q: QueueId, p: QueueId)
    requires t.Valid() && p in t.entries && Armed(t, p)
    ensures t.SetWakeable(q).Valid() && p in t.SetWakeable(q).entries && Armed(t.SetWakeable(q), p)
  {
    hide IsForest, IsTidy, LastWake, Covers, Source.Visible;
    SetWakeableIsValid(t, q);
    GroupIsLive(t, p);
    StaysArmed(t, t.SetWakeable(q), p);
  }

  // ----- The two operations that can leave a task behind

  /** Attaching a loop wakes nobody: what the queue already offers goes unseen. */
  lemma SetWakeableExactly(t: Table, q: QueueId)
    requires t.Valid() && q in t.entries && t.entries[q].subsumedBy.None? && LastWake(t.wakes, q) == None
    ensures t.SetWakeable(q).Valid()
    ensures Armed(t.SetWakeable(q), q) <==> !t.HasPending(q)
  {
    hide IsForest, IsTidy, LastWake, Source.Visible, Covers, Source.IsEmpty;
    SetWakeableIsValid(t, q);
    GroupIsLive(t, q);
    forall g | g in t.Group(q) ensures Covers(None, t.SetWakeable(q).entries[g].source) <==> t.entries[g].source.IsEmpty() {
      NoneCoversEmpty(t.entries[g].source);
    }
  }

  lemma NoneCoversEmpty(s: Source)
    ensures Covers(None, s) <==> s.IsEmpty()
  {
    VisibleCount(s);
    if !s.IsEmpty() { var u :| u in s.Visible(); }
  }

  /** The secondary tasks a resume brings back are due no earlier than the wake-up `w`. */
  predicate ResumeCovered(w: Option<int>, s: Source) {
    s.pause == 1 && s.secondary != [] ==> w.Some? && w.value <= s.secondary[0].time
  }

  lemma ResumeCovers(w: Option<int>, s: Source)
    requires s.Valid() && s.pause > 0 && Covers(w, s)
    ensures Covers(w, s.(pause := s.pause - 1)) <==> ResumeCovered(w, s)
  {
    var s' := s.(pause := s.pause - 1);
    if s.pause == 1 && s.secondary != [] {
      assert s.secondary[0] in s'.Visible();
      if ResumeCovered(w, s) {
        forall u | u in s'.Visible() ensures w.value <= u.time {
          if u in s.secondary {
            var i :| 0 <= i < |s.secondary| && s.secondary[i] == u;
            assert i == 0 || u.Greater(s.secondary[0]);
          } else {
            assert u in s.Visible();
          }
        }
      }
    } else {
      assert s'.Visible() == s.Visible();
    }
  }

  /** Resuming a subsumed queue wakes nobody: its owner stays armed exactly when the tasks
      brought back come no earlier than the owner's last wake-up. */
  lemma ResumeExactly(t: Table, q: QueueId, owner: QueueId)
    requires t.Valid() && q in t.entries && t.entries[q].source.pause > 0
    requires owner in t.entries && t.entries[q].subsumedBy == Some(owner) && Armed(t, owner)
    ensures t.Resume(q) == t.Resumed(q) && t.Resumed(q).Valid()
    ensures Armed(t.Resumed(q), owner) <==> ResumeCovered(LastWake(t.wakes, owner), t.entries[q].source)
  {
    ResumedIsValid(t, q);
    SubsumedIsInGroup(t, q, owner);
    assert SourceTidy(q, t.entries[q].source, t.homes);
    hide IsForest, IsTidy, LastWake, Covers;
    ResumeCovers(LastWake(t.wakes, owner), t.entries[q].source);
    assert forall g :: g in t.Group(owner) && g != q ==> t.Resumed(q).entries[g].source == t.entries[g].source;
  }

  lemma SubsumedIsInGroup(t: Table, q: QueueId, owner: QueueId)
    requires t.Forest() && q in t.entries && t.entries[q].subsumedBy == Some(owner)
    ensures owner in t.entries && q in t.Group(owner) && t.Group(owner) <= t.entries.Keys && t.LoopOf(q) == owner
  {
  }

  lemma ResumeArms(t: Table, q: QueueId, p: QueueId)
    requires t.Valid() && q in t.entries && t.entries[q].source.pause > 0
    requires p in t.entries && Listening(t, p) && Armed(t, p)
    requires t.entries[q].subsumedBy != Some(p)
    ensures t.Resume(q).Valid() && p in t.Resume(q).entries && Armed(t.Resume(q), p)
  {
    hide IsForest, IsTidy, LastWake, Covers, Table.Woken;
    ResumedIsValid(t, q);
    var t1 := t.Resumed(q);
    WokenIsValid(t1, q);
    WokenLog(t1, q, p);
    if p == q {
      WokenArms(t1, q);
    } else {
      OtherSourceChanged(t, t1, q, p);
      WokenKeepsOthers(t1, q, p);
    }
  }

  /** The steps that lose no wake-up: a loop is attached before its queue has work, and the
      secondary source of a subsumed queue is resumed only when its owner will be awake. */
  ghost predicate Safe(t: Table, op: Op)
    requires t.Valid()
  {
    match op
    case SetWakeable(q) => q in t.entries && t.entries[q].subsumedBy.None? ==> !t.HasPending(q)
    case Resume(q) =>
      q in t.entries && t.entries[q].subsumedBy.Some? && t.LoopOf(q) in t.entries && t.entries[t.LoopOf(q)].wakeable ==>
        ResumeCovered(LastWake(t.wakes, t.LoopOf(q)), t.entries[q].source)
    case _ => true
  }

  lemma MergeStepArms(t: Table, owner: QueueId, subsumed: QueueId, p: QueueId)
    requires t.Valid() && AllArmed(t)
    requires p in t.Merge(owner, subsumed).0.entries && Listening(t.Merge(owner, subsumed).0, p)
    ensures t.Merge(owner, subsumed).0.Valid() && Armed(t.Merge(owner, subsumed).0, p)
  {
    hide IsForest, IsTidy, LastWake, Covers, Table.Woken, Armed;
    MergeIsValid(t, owner, subsumed);
    if t.CanMerge(owner, subsumed) && subsumed !in t.entries[owner].ownerOf {
      LinkedIsValid(t, owner, subsumed);
      WokenLog(t.Linked(owner, subsumed), owner, p);
      MergeArms(t, owner, subsumed, p);
    }
  }

  lemma UnmergeStepArms(t: Table, owner: QueueId, subsumed: QueueId, p: QueueId)
    requires t.Valid() && AllArmed(t)
    requires p in t.Unmerge(owner, subsumed).0.entries && Listening(t.Unmerge(owner, subsumed).0, p)
    ensures t.Unmerge(owner, subsumed).0.Valid() && Armed(t.Unmerge(owner, subsumed).0, p)
  {
    hide IsForest, IsTidy, LastWake, Covers, Table.Woken, Armed;
    UnmergeIsValid(t, owner, subsumed);
    if owner in t.entries && subsumed in t.entries[owner].ownerOf {
      OwnedIsLive(t, owner, subsumed);
      UnlinkedIsValid(t, owner, subsumed);
      var t1 := t.Unlinked(owner, subsumed);
      WokenIsValid(t1, owner);
      WokenLog(t1, owner, p);
      WokenLog(t1.Woken(owner), subsumed, p);
      UnmergeArms(t, owner, subsumed, p);
    }
  }

  lemma ResumeStepArms(t: Table, q: QueueId, p: QueueId)
    requires t.Valid() && AllArmed(t) && Allowed(t, Resume(q)) && Safe(t, Resume(q))
    requires p in t.Resume(q).entries && Listening(t.Resume(q), p)
    ensures t.Resume(q).Valid() && Armed(t.Resume(q), p)
  {
    hide IsForest, IsTidy, LastWake, Covers, Table.Woken, Armed, ResumeCovered;
    if q in t.entries {
      ResumedIsValid(t, q);
      WokenLog(t.Resumed(q), q, p);
      if t.entries[q].subsumedBy == Some(p) {
        ResumeExactly(t, q, p);
      } else {
        ResumeArms(t, q, p);
      }
    }
  }

  lemma RegisterStepArms(t: Table, q: QueueId, closure: nat, time: int, grade: Grade, p: QueueId)
    requires t.Valid() && AllArmed(t)
    requires p in t.Register(q, closure, time, grade).entries && Listening(t.Register(q, closure, time, grade), p)
    ensures t.Register(q, closure, time, grade).Valid() && Armed(t.Register(q, closure, time, grade), p)
  {
    hide IsForest, IsTidy, LastWake, Covers, Table.Woken, Source.Register;
    RegisterIsValid(t, q, closure, time, grade);
    if q in t.entries {
      RegisterKeepsLinks(t, q, closure, time, grade, p);
      RegisterArms(t, q, closure, time, grade, p);
    }
  }

  lemma RegisterKeepsLinks(t: Table, q: QueueId, closure: nat, time: int, grade: Grade, p: QueueId)
    requires t.Valid() && q in t.entries && p in t.Register(q, closure, time, grade).entries
    ensures p in t.entries && Listening(t.Register(q, closure, time, grade), p) == Listening(t, p)
  {
    hide IsForest, IsTidy, Table.HasPending, Table.Peek, Source.Register;
  }

  lemma GetNextKeepsLinks(t: Table, q: QueueId, now: int, p: QueueId)
    requires t.Valid() && p in t.GetNext(q, now).0.entries
    ensures p in t.entries && Listening(t.GetNext(q, now).0, p) == Listening(t, p)
  {
    hide IsForest, IsTidy, Table.HasPending, Table.Peek;
    if q in t.entries && t.HasPending(q) { PoppedIsValid(t, q); }
  }

  /** After a safe step every listening queue is armed. */
  lemma StepArms(t: Table, op: Op, p: QueueId)
    requires t.Valid() && Allowed(t, op) && AllArmed(t) && Quiet(t) && Safe(t, op)
    requires p in Apply(t, op).entries && Listening(Apply(t, op), p)
    ensures Apply(t, op).Valid() && Armed(Apply(t, op), p)
  {
    hide IsForest, IsTidy, LastWake, Covers, Armed, Table.HasPending, Table.Register, Table.GetNext, Table.Merge, Table.Unmerge, Table.Resume;
    StepIsValid(t, op);
    match op
    case Create => if p == t.nextId { NewQueueIsArmed(t); } else { CreateArms(t, p); }
    case SetWakeable(q) => assert QuietAt(t, q); if p == q { SetWakeableExactly(t, q); } else { SetWakeableArms(t, q, p); }
    case Dispose(q) => if q in t.entries { DisposeArms(t, q, p); }
    case DisposeTasks(q) => if q in t.entries { DisposeTasksArms(t, q, p); }
    case Register(q, closure, time, grade) => RegisterStepArms(t, q, closure, time, grade, p);
    case GetNext(q, now) => GetNextKeepsLinks(t, q, now, p); GetNextArms(t, q, now, p);
    case Merge(owner, subsumed) => MergeStepArms(t, owner, subsumed, p);
    case Unmerge(owner, subsumed) => UnmergeStepArms(t, owner, subsumed, p);
    case Pause(q) => PauseArms(t, q, p);
    case Resume(q) => ResumeStepArms(t, q, p);
  }

  lemma NewQueueIsArmed(t: Table)
    requires t.Valid()
    ensures t.Create().Forest() && Armed(t.Create(), t.nextId)
  {
    CreateIsValid(t);
    hide IsForest, IsTidy, LastWake;
  }

  lemma WokenStaysQuiet(t: Table, q: QueueId, p: QueueId)
    requires t.Valid() && q in t.entries && QuietAt(t, p)
    ensures QuietAt(t.Woken(q), p)
  {
    assert q < t.nextId;
    hide IsForest, IsTidy, LastWake, Table.HasPending, Table.Woken;
    WokenLog(t, q, p);
  }

  lemma RegisterStaysQuiet(t: Table, q: QueueId, closure: nat, time: int, grade: Grade, p: QueueId)
    requires t.Valid() && QuietAt(t, p)
    ensures QuietAt(t.Register(q, closure, time, grade), p)
  {
    hide IsForest, IsTidy, LastWake, Table.Woken, Source.Register;
    var task := Task(t.order, closure, time, grade);
    SubmittedIsValid(t, q, task);
    if q in t.entries {
      LoopIsLive(t, q);
      WokenStaysQuiet(t.Submitted(q, task), t.LoopOf(q), p);
    }
  }

  lemma GetNextStaysQuiet(t: Table, q: QueueId, now: int, p: QueueId)
    requires t.Valid() && QuietAt(t, p)
    ensures QuietAt(t.GetNext(q, now).0, p)
  {
    hide IsForest, IsTidy, LastWake, Table.Woken, Table.HasPending, Table.Peek;
    if q in t.entries && t.HasPending(q) {
      WokenStaysQuiet(t, q, p);
      WokenLog(t, q, p);
      PoppedIsValid(t, q);
    }
  }

  lemma MergingStaysQuiet(t: Table, owner: QueueId, subsumed: QueueId, p: QueueId)
    requires t.Valid() && QuietAt(t, p)
    ensures QuietAt(t.Merge(owner, subsumed).0, p) && QuietAt(t.Unmerge(owner, subsumed).0, p)
  {
    hide IsForest, IsTidy, LastWake, Table.Woken;
    if t.CanMerge(owner, subsumed) {
      LinkedIsValid(t, owner, subsumed);
      WokenStaysQuiet(t.Linked(owner, subsumed), owner, p);
    }
    if owner in t.entries && subsumed in t.entries[owner].ownerOf {
      OwnedIsLive(t, owner, subsumed);
      UnlinkedIsValid(t, owner, subsumed);
      var t1 := t.Unlinked(owner, subsumed);
      WokenIsValid(t1, owner);
      WokenLog(t1, owner, p);
      WokenStaysQuiet(t1, owner, p);
      WokenStaysQuiet(t1.Woken(owner), subsumed, p);
    }
  }

  lemma ResumeStaysQuiet(t: Table, q: QueueId, p: QueueId)
    requires t.Valid() && Allowed(t, Resume(q)) && QuietAt(t, p)
    ensures QuietAt(t.Resume(q), p)
  {
    hide IsForest, IsTidy, LastWake, Table.Woken;
    if q in t.entries {
      ResumedIsValid(t, q);
      WokenStaysQuiet(t.Resumed(q), q, p);
    }
  }

  lemma DisposalStaysQuiet(t: Table, q: QueueId, p: QueueId)
    requires t.Valid() && QuietAt(t, p)
    ensures QuietAt(t.Dispose(q), p) && QuietAt(t.DisposeTasks(q), p)
  {
    hide IsForest, IsTidy, LastWake;
  }

  lemma StepStaysQuiet(t: Table, op: Op, p: QueueId)
    requires t.Valid() && Allowed(t, op) && QuietAt(t, p)
    ensures QuietAt(Apply(t, op), p)
  {
    hide IsForest, IsTidy, LastWake, Table.HasPending, Table.Register, Table.GetNext, Table.Merge, Table.Unmerge, Table.Resume, Table.Dispose, Table.DisposeTasks;
    match op
    case Register(q, closure, time, grade) => RegisterStaysQuiet(t, q, closure, time, grade, p);
    case GetNext(q, now) => GetNextStaysQuiet(t, q, now, p);
    case Merge(owner, subsumed) => MergingStaysQuiet(t, owner, subsumed, p);
    case Unmerge(owner, subsumed) => MergingStaysQuiet(t, owner, subsumed, p);
    case Resume(q) => ResumeStaysQuiet(t, q, p);
    case Dispose(q) => DisposalStaysQuiet(t, q, p);
    case DisposeTasks(q) => DisposalStaysQuiet(t, q, p);
    case _ =>
  }

  // ----- Whole runs

  lemma UnsafeStepDisarms(t: Table, op: Op)
    requires t.Valid() && Allowed(t, op) && AllArmed(t) && Quiet(t) && !Safe(t, op)
    ensures Apply(t, op).Valid() && !AllArmed(Apply(t, op))
  {
    hide IsForest, IsTidy, LastWake, Covers, Armed, Table.HasPending, ResumeCovered, Table.Resume;
    StepIsValid(t, op);
    match op
    case SetWakeable(q) =>
      assert QuietAt(t, q);
      SetWakeableExactly(t, q);
    case Resume(q) =>
      var owner := t.LoopOf(q);
      LoopIsLive(t, q);
      ResumeExactly(t, q, owner);
      assert Listening(t.Resumed(q), owner) by { OwnerIsOther(t, q, owner); }
    case _ =>
  }

  lemma OwnerIsOther(t: Table, q: QueueId, owner: QueueId)
    requires t.Forest() && q in t.entries && t.entries[q].subsumedBy == Some(owner)
    ensures owner in t.entries && owner != q && t.entries[owner].subsumedBy.None?
  {
  }

  /** One step loses no wake-up exactly when it is safe. */
  lemma StepKeepsArmed(t: Table, op: Op)
    requires t.Valid() && Allowed(t, op) && AllArmed(t) && Quiet(t)
    ensures Apply(t, op).Valid() && Quiet(Apply(t, op))
    ensures AllArmed(Apply(t, op)) <==> Safe(t, op)
  {
    hide IsForest, IsTidy, LastWake, Armed, Safe, Apply, QuietAt;
    StepIsValid(t, op);
    forall p ensures QuietAt(Apply(t, op), p) { assert QuietAt(t, p); StepStaysQuiet(t, op, p); }
    if Safe(t, op) {
      forall p | p in Apply(t, op).entries && Listening(Apply(t, op), p) ensures Armed(Apply(t, op), p) {
        StepArms(t, op, p);
      }
    } else {
      UnsafeStepDisarms(t, op);
    }
  }

  /** Every step of the run is safe. */
  ghost predicate SafeRun(ops: seq<Op>)
    requires AllowedRun(ops)
  {
    ops == [] || (SafeRun(ops[..|ops| - 1]) && Safe(Run(ops[..|ops| - 1]), ops[|ops| - 1]))
  }

  lemma {:induction false} SafeRunStaysArmed(ops: seq<Op>)
    requires AllowedRun(ops) && SafeRun(ops)
    ensures AllArmed(Run(ops)) && Quiet(Run(ops))
    decreases |ops|
  {
    if ops != [] {
      SafeRunStaysArmed(ops[..|ops| - 1]);
      StepKeepsArmed(Run(ops[..|ops| - 1]), ops[|ops| - 1]);
    }
  }

  /** No lost wake-up: after any safe run, a queue with a loop of its own that offers a task was
      last woken for a time no later than that of any task it offers. */
  lemma NoWakeupIsLost(ops: seq<Op>, q: QueueId, task: Task)
    requires AllowedRun(ops) && SafeRun(ops)
    requires q in Run(ops).entries && Run(ops).entries[q].wakeable && task in Run(ops).VisibleOf(q)
    ensures var last := LastWake(Run(ops).wakes, q); last.Some? && last.value <= task.time
  {
    hide IsForest, IsTidy, LastWake, Union, Run, AllowedRun;
    SafeRunStaysArmed(ops);
    var t := Run(ops);
    GroupIsLive(t, q);
    UnionMember(t.Group(q), t.VisibleMap(), task);
    var g :| g in t.Group(q) && task in t.VisibleMap()[g];
    assert Covers(LastWake(t.wakes, q), t.entries[g].source);
  }

  // ----- The safety conditions are needed

  lemma Extend(ops: seq<Op>, op: Op)
    requires AllowedRun(ops) && Allowed(Run(ops), op)
    ensures AllowedRun(ops + [op]) && Run(ops + [op]) == Apply(Run(ops), op)
    ensures SafeRun(ops) && Safe(Run(ops), op) ==> SafeRun(ops + [op])
  {
    hide IsForest, IsTidy, Safe, Apply, Allowed;
    var more := ops + [op];
    assert more[..|more| - 1] == ops && more[|more| - 1] == op;
  }

  /** A safe run that ends with these entries and has woken nobody. */
  ghost predicate Reaches(ops: seq<Op>, entries: map<QueueId, Entry>, order: nat, nextId: nat) {
    && AllowedRun(ops) && SafeRun(ops)
    && var t := Run(ops);
       t.entries == entries && t.order == order && t.nextId == nextId && t.wakes == []
  }

  lemma ThenCreate(ops: seq<Op>, e: map<QueueId, Entry>, order: nat, nextId: nat)
    requires Reaches(ops, e, order, nextId)
    ensures Reaches(ops + [Create], e[nextId := EmptyEntry], order, nextId + 1)
  {
    hide IsForest, IsTidy, Run, AllowedRun, SafeRun;
    Extend(ops, Create);
  }

  lemma ThenSetWakeable(ops: seq<Op>, e: map<QueueId, Entry>, order: nat, nextId: nat, q: QueueId)
    requires Reaches(ops, e, order, nextId) && q in e && e[q] == EmptyEntry
    ensures Reaches(ops + [SetWakeable(q)], e[q := e[q].(wakeable := true)], order, nextId)
  {
    hide IsForest, IsTidy, Run, AllowedRun, SafeRun;
    Extend(ops, SetWakeable(q));
  }

  lemma ThenRegister(ops: seq<Op>, e: map<QueueId, Entry>, order: nat, nextId: nat, q: QueueId, time: int)
    requires Reaches(ops, e, order, nextId) && q in e && e[q] == EmptyEntry
    ensures Reaches(ops + [Register(q, 0, time, DartEventLoop)], e[q := Lonely(order, time)], order + 1, nextId)
  {
    hide IsForest, IsTidy, Run, AllowedRun, SafeRun, Table.HasPending, Table.Peek;
    Extend(ops, Register(q, 0, time, DartEventLoop));
    var task := Task(order, 0, time, DartEventLoop);
    SubmittedIsValid(Run(ops), q, task);
    assert Push([], task) == [task];
  }

  lemma ThenPause(ops: seq<Op>, e: map<QueueId, Entry>, order: nat, nextId: nat, q: QueueId)
    requires Reaches(ops, e, order, nextId) && q in e
    ensures Reaches(ops + [Pause(q)], e[q := e[q].(source := e[q].source.(pause := e[q].source.pause + 1))], order, nextId)
  {
    hide IsForest, IsTidy, Run, AllowedRun, SafeRun;
    Extend(ops, Pause(q));
  }

  /** A queue that holds one secondary task and has no loop. */
  function Lonely(order: nat, time: int): Entry {
    EmptyEntry.(source := Source([], [Task(order, 0, time, DartEventLoop)], 0))
  }

  /** The step is allowed after the run, which lost no wake-up, and loses one. */
  ghost predicate LosesWakeup(ops: seq<Op>, op: Op) {
    && AllowedRun(ops) && SafeRun(ops) && Allowed(Run(ops), op)
    && Apply(Run(ops), op).Valid() && !AllArmed(Apply(Run(ops), op))
  }

  lemma UnsafeAfterRun(ops: seq<Op>, op: Op)
    requires AllowedRun(ops) && SafeRun(ops) && Allowed(Run(ops), op) && !Safe(Run(ops), op)
    ensures LosesWakeup(ops, op)
  {
    hide IsForest, IsTidy, Run, AllowedRun, SafeRun, Safe, Apply, AllArmed, Quiet;
    SafeRunStaysArmed(ops);
    StepKeepsArmed(Run(ops), op);
  }

  /** Attaching a loop to a queue that already has work loses the wake-up. */
  lemma LateLoopLosesWakeup()
    ensures LosesWakeup([Create, Register(0, 0, 5, DartEventLoop)], SetWakeable(0))
  {
    hide IsForest, IsTidy, Run, AllowedRun, SafeRun, LosesWakeup;
    EmptyRun();
    ThenCreate([], map[], 0, 0);
    ThenRegister([] + [Create], map[0 := EmptyEntry], 0, 1, 0, 5);
    var ops := [] + [Create] + [Register(0, 0, 5, DartEventLoop)];
    assert ops == [Create, Register(0, 0, 5, DartEventLoop)];
    UnsafeAfterRun(ops, SetWakeable(0));
  }

  lemma EmptyRun()
    ensures Reaches([], map[], 0, 0)
  {
  }

  /** Resuming a queue that was merged while its task was paused wakes nobody. */
  lemma SubsumedResumeLosesWakeup()
    ensures LosesWakeup([Create, Create, SetWakeable(0), Register(1, 0, 5, DartEventLoop), Pause(1), Merge(0, 1)], Resume(1))
  {
    hide IsForest, IsTidy, Run, AllowedRun, SafeRun, LosesWakeup;
    HiddenTask();
    var ops := [Create, Create, SetWakeable(0), Register(1, 0, 5, DartEventLoop), Pause(1)];
    MergedHidden(ops);
    assert ops + [Merge(0, 1)] == [Create, Create, SetWakeable(0), Register(1, 0, 5, DartEventLoop), Pause(1), Merge(0, 1)];
    UnsafeAfterRun(ops + [Merge(0, 1)], Resume(1));
  }

  const Hidden := map[0 := EmptyEntry.(wakeable := true), 1 := Lonely(0, 5).(source := Lonely(0, 5).source.(pause := 1))]

  lemma HiddenTask()
    ensures Reaches([Create, Create, SetWakeable(0), Register(1, 0, 5, DartEventLoop), Pause(1)], Hidden, 1, 2)
  {
    hide Reaches;
    EmptyRun();
    ThenCreate([], map[], 0, 0);
    var e1 := map[0 := EmptyEntry];
    ThenCreate([] + [Create], e1, 0, 1);
    var ops2, e2 := [] + [Create] + [Create], e1[1 := EmptyEntry];
    ThenSetWakeable(ops2, e2, 0, 2, 0);
    var ops3, e3 := ops2 + [SetWakeable(0)], e2[0 := e2[0].(wakeable := true)];
    ThenRegister(ops3, e3, 0, 2, 1, 5);
    var ops4, e4 := ops3 + [Register(1, 0, 5, DartEventLoop)], e3[1 := Lonely(0, 5)];
    ThenPause(ops4, e4, 1, 2, 1);
    assert ops4 + [Pause(1)] == [Create, Create, SetWakeable(0), Register(1, 0, 5, DartEventLoop), Pause(1)];
    assert e4[1 := e4[1].(source := e4[1].source.(pause := 1))] == Hidden;
  }

  lemma MergedHidden(ops: seq<Op>)
    requires Reaches(ops, Hidden, 1, 2)
    ensures AllowedRun(ops + [Merge(0, 1)]) && SafeRun(ops + [Merge(0, 1)])
    ensures var t := Run(ops + [Merge(0, 1)]);
            && t.entries == Hidden[0 := Hidden[0].(ownerOf := {1})][1 := Hidden[1].(subsumedBy := Some(0))]
            && t.wakes == []
  {
    hide IsForest, IsTidy, Run, AllowedRun, SafeRun, Table.Peek;
    Extend(ops, Merge(0, 1));
    var t := Run(ops);
    LinkedIsValid(t, 0, 1);
    var t1 := t.Linked(0, 1);
    assert t1.entries[0].ownerOf == {1};
    assert t1.entries[1].source.IsEmpty() && !t1.HasPending(0);
  }
}
