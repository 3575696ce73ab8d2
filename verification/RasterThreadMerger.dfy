/** The two merger classes, proved against the steps of ThreadMergers. The callbacks they fire
    and the condition variable that announces a merge are left out. */
module RasterThreadMergers {
  import opened Wrappers
  import opened TaskQueueTable
  import opened MessageLoopTaskQueues
  import ThreadMergers

  class SharedThreadMerger {
    const owner: QueueId
    const subsumed: QueueId
    const taskQueues: MessageLoopTaskQueues
    var enabled: bool
    var leaseTermByCaller: map<ThreadMergers.RasterId, nat>

    ghost function View(): ThreadMergers.Shared
      reads this
    {
      ThreadMergers.Shared(owner, subsumed, enabled, leaseTermByCaller)
    }

    constructor (owner: QueueId, subsumed: QueueId, taskQueues: MessageLoopTaskQueues)
      ensures View() == ThreadMergers.Shared(owner, subsumed, true, map[]) && this.taskQueues == taskQueues
    {
      this.owner, this.subsumed, this.taskQueues := owner, subsumed, taskQueues;
      enabled, leaseTermByCaller := true, map[];
    }

    method IsAllLeaseTermsZeroUnSafe() returns (zero: bool)
      ensures zero <==> View().AllLeasesZero()
    {
      zero := forall c :: c in leaseTermByCaller ==> leaseTermByCaller[c] == 0;
    }

    method IsMergedUnSafe() returns (merged: bool)
      ensures merged <==> View().IsMerged()
    {
      var zero := IsAllLeaseTermsZeroUnSafe();
      merged := !zero;
    }

    method MergeWithLease(caller: ThreadMergers.RasterId, leaseTerm: nat) returns (success: bool)
      requires leaseTerm > 0 && taskQueues.Valid()
      requires View().IsMerged() || ThreadMergers.MergeSucceeds(taskQueues.table, View())
      modifies this, taskQueues`table, taskQueues.Entries()
      ensures taskQueues.Valid() && success
      ensures (taskQueues.table, View()) == ThreadMergers.MergeWithLease(old(taskQueues.table), old(View()), caller, leaseTerm)
      ensures leaseTermByCaller ==
        if old(View()).IsMerged() then old(leaseTermByCaller) else old(leaseTermByCaller)[caller := leaseTerm]
    {
      hide IsForest, IsTidy, Table.Merge;
      var merged := IsMergedUnSafe();
      if merged { return true; }
      var r := taskQueues.Merge(owner, subsumed);
      leaseTermByCaller := leaseTermByCaller[caller := leaseTerm];
      success := r == Ok(true);
    }

    method UnMergeNowUnSafe() returns (success: bool)
      requires View().AllLeasesZero() && taskQueues.Valid() && ThreadMergers.UnmergeSucceeds(taskQueues.table, View())
      modifies taskQueues`table, taskQueues.Entries()
      ensures taskQueues.Valid() && success
      ensures taskQueues.table == ThreadMergers.Settled(old(taskQueues.table), View())
    {
      hide IsForest, IsTidy, Table.Unmerge;
      var r := taskQueues.Unmerge(owner, subsumed);
      success := r == Ok(true);
    }

    method UnMergeNowIfLastOne(caller: ThreadMergers.RasterId) returns (success: bool)
      requires taskQueues.Valid()
      requires View().Without(caller).IsMerged() || ThreadMergers.UnmergeSucceeds(taskQueues.table, View())
      modifies this, taskQueues`table, taskQueues.Entries()
      ensures taskQueues.Valid() && success
      ensures (taskQueues.table, View()) == ThreadMergers.UnMergeNowIfLastOne(old(taskQueues.table), old(View()), caller)
    {
      hide IsForest, IsTidy, Table.Unmerge;
      leaseTermByCaller := leaseTermByCaller - {caller};
      var zero := IsAllLeaseTermsZeroUnSafe();
      if leaseTermByCaller == map[] || zero {
        success := UnMergeNowUnSafe();
        return;
      }
      success := true;
    }

    method DecrementLease(caller: ThreadMergers.RasterId) returns (unmerged: bool)
      requires taskQueues.Valid() && ThreadMergers.DecrementPasses(taskQueues.table, View(), caller)
      modifies this, taskQueues`table, taskQueues.Entries()
      ensures taskQueues.Valid()
      ensures (taskQueues.table, View(), unmerged) == ThreadMergers.DecrementLease(old(taskQueues.table), old(View()), caller)
    {
      hide IsForest, IsTidy, Table.Unmerge;
      if caller in leaseTermByCaller {
        leaseTermByCaller := leaseTermByCaller[caller := leaseTermByCaller[caller] - 1];
      }
      var zero := IsAllLeaseTermsZeroUnSafe();
      if zero {
        var _ := UnMergeNowUnSafe();
        return true;
      }
      unmerged := false;
    }

    method ExtendLeaseTo(caller: ThreadMergers.RasterId, leaseTerm: nat)
      requires leaseTerm > 0 && View().IsMerged()
      modifies this
      ensures View() == old(View()).WithLease(caller, leaseTerm)
    {
      leaseTermByCaller := leaseTermByCaller[caller := leaseTerm];
    }

    method SetEnabledUnSafe(enabled: bool)
      modifies this
      ensures View() == old(View()).(enabled := enabled)
    {
      this.enabled := enabled;
    }
  }

  class RasterThreadMerger {
    const id: ThreadMergers.RasterId
    const platformQueueId: QueueId
    const gpuQueueId: QueueId
    const sharedMerger: SharedThreadMerger

    constructor (id: ThreadMergers.RasterId, sharedMerger: SharedThreadMerger, platformQueueId: QueueId, gpuQueueId: QueueId)
      ensures this.id == id && this.sharedMerger == sharedMerger
      ensures this.platformQueueId == platformQueueId && this.gpuQueueId == gpuQueueId
    {
      this.id, this.sharedMerger := id, sharedMerger;
      this.platformQueueId, this.gpuQueueId := platformQueueId, gpuQueueId;
    }

    /** A merger for the same two queues shares its parent's shared merger; any other gets its own. */
    static method CreateOrShareThreadMerger(id: ThreadMergers.RasterId, parent: RasterThreadMerger?, taskQueues: MessageLoopTaskQueues,
                                            platformId: QueueId, rasterId: QueueId) returns (merger: RasterThreadMerger)
      ensures merger.id == id && merger.platformQueueId == platformId && merger.gpuQueueId == rasterId
      ensures if parent != null && parent.platformQueueId == platformId && parent.gpuQueueId == rasterId
              then merger.sharedMerger == parent.sharedMerger
              else (fresh(merger.sharedMerger) && merger.sharedMerger.taskQueues == taskQueues
                    && merger.sharedMerger.View() == ThreadMergers.Shared(platformId, rasterId, true, map[]))
    {
      if parent != null && parent.platformQueueId == platformId && parent.gpuQueueId == rasterId {
        merger := new RasterThreadMerger(id, parent.sharedMerger, platformId, rasterId);
      } else {
        var shared := new SharedThreadMerger(platformId, rasterId, taskQueues);
        merger := new RasterThreadMerger(id, shared, platformId, rasterId);
      }
    }

    ghost function Shared(): ThreadMergers.Shared
      reads sharedMerger
    {
      sharedMerger.View()
    }

    ghost function Queues(): Table
      reads sharedMerger, sharedMerger.taskQueues
    {
      sharedMerger.taskQueues.table
    }

    /** Calls get through to the shared merger. */
    ghost predicate Active()
      reads sharedMerger
    {
      platformQueueId != gpuQueueId && Shared().enabled
    }

    method TaskQueuesAreSame() returns (same: bool)
      ensures same <==> platformQueueId == gpuQueueId
    {
      same := platformQueueId == gpuQueueId;
    }

    method IsMergedUnSafe() returns (merged: bool)
      ensures merged <==> platformQueueId == gpuQueueId || Shared().IsMerged()
    {
      if platformQueueId == gpuQueueId { return true; }
      merged := sharedMerger.IsMergedUnSafe();
    }

    method MergeWithLease(leaseTerm: nat)
      requires sharedMerger.taskQueues.Valid()
      requires Active() ==> leaseTerm > 0 && (Shared().IsMerged() || ThreadMergers.MergeSucceeds(Queues(), Shared()))
      modifies sharedMerger, sharedMerger.taskQueues`table, sharedMerger.taskQueues.Entries()
      ensures sharedMerger.taskQueues.Valid()
      ensures (Queues(), Shared()) == if old(Active()) && !old(Shared()).IsMerged()
              then ThreadMergers.MergeWithLease(old(Queues()), old(Shared()), id, leaseTerm) else (old(Queues()), old(Shared()))
    {
      hide IsForest, IsTidy, ThreadMergers.MergeSucceeds;
      if platformQueueId == gpuQueueId { return; }
      if !sharedMerger.enabled { return; }
      var merged := IsMergedUnSafe();
      if merged { return; }
      var _ := sharedMerger.MergeWithLease(id, leaseTerm);
    }

    method UnMergeNowIfLastOne()
      requires sharedMerger.taskQueues.Valid()
      requires Active() ==> Shared().Without(id).IsMerged() || ThreadMergers.UnmergeSucceeds(Queues(), Shared())
      modifies sharedMerger, sharedMerger.taskQueues`table, sharedMerger.taskQueues.Entries()
      ensures sharedMerger.taskQueues.Valid()
      ensures (Queues(), Shared()) == if old(Active())
              then ThreadMergers.UnMergeNowIfLastOne(old(Queues()), old(Shared()), id) else (old(Queues()), old(Shared()))
    {
      hide IsForest, IsTidy, ThreadMergers.UnmergeSucceeds;
      if platformQueueId == gpuQueueId { return; }
      if !sharedMerger.enabled { return; }
      var _ := sharedMerger.UnMergeNowIfLastOne(id);
    }

    method ExtendLeaseTo(leaseTerm: nat)
      requires leaseTerm > 0 && (Active() ==> Shared().IsMerged())
      modifies sharedMerger
      ensures Shared() == if old(Active()) then old(Shared()).WithLease(id, leaseTerm) else old(Shared())
    {
      if platformQueueId == gpuQueueId { return; }
      if !sharedMerger.enabled { return; }
      sharedMerger.ExtendLeaseTo(id, leaseTerm);
    }

    method DecrementLease() returns (status: ThreadMergers.Status)
      requires sharedMerger.taskQueues.Valid()
      requires Active() && Shared().IsMerged() ==> ThreadMergers.DecrementPasses(Queues(), Shared(), id)
      modifies sharedMerger, sharedMerger.taskQueues`table, sharedMerger.taskQueues.Entries()
      ensures sharedMerger.taskQueues.Valid()
      ensures if old(Active()) && old(Shared()).IsMerged() then
                var d := ThreadMergers.DecrementLease(old(Queues()), old(Shared()), id);
                (Queues(), Shared()) == (d.0, d.1) && status == if d.2 then ThreadMergers.UnmergedNow else ThreadMergers.RemainsMerged
              else
                && (Queues(), Shared()) == (old(Queues()), old(Shared()))
                && status == if platformQueueId == gpuQueueId || Shared().IsMerged() then ThreadMergers.RemainsMerged
                             else ThreadMergers.RemainsUnmerged
    {
      hide IsForest, IsTidy, ThreadMergers.DecrementPasses;
      if platformQueueId == gpuQueueId { return ThreadMergers.RemainsMerged; }
      var merged := IsMergedUnSafe();
      if !merged { return ThreadMergers.RemainsUnmerged; }
      if !sharedMerger.enabled { return ThreadMergers.RemainsMerged; }
      var unmerged := sharedMerger.DecrementLease(id);
      if unmerged { return ThreadMergers.UnmergedNow; }
      status := ThreadMergers.RemainsMerged;
    }
  }
}
