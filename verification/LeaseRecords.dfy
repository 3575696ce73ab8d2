/** What each step of the lease protocol does to the lease records, caller by caller, and how long a
    merge lasts. */
module LeaseRecords {
  import opened Wrappers
  import opened TaskQueueTable
  import opened ThreadMergers

  /** The records of everyone but `r` are what they were. */
  ghost predicate OthersKept(a: map<RasterId, nat>, b: map<RasterId, nat>, r: RasterId) {
    forall c :: c != r ==> (c in b <==> c in a) && (c in a && c in b ==> b[c] == a[c])
  }

  /** Apart from the records of `r` in its own shared merger and from the queues, nothing changed. */
  ghost predicate OnlyRecordOf(w: World, w': World, r: RasterId)
    requires Known(w, r)
  {
    && w'.rasters == w.rasters && w'.shared.Keys == w.shared.Keys
    && (forall o :: o in w.shared && o != w.rasters[r].shared ==> w'.shared[o] == w.shared[o])
    && var m, m' := w.shared[w.rasters[r].shared], w'.shared[w.rasters[r].shared];
       m'.owner == m.owner && m'.subsumed == m.subsumed && m'.enabled == m.enabled && OthersKept(m.leases, m'.leases, r)
  }

  /** The lease recorded for `r`. */
  function LeaseOf(w: World, r: RasterId): Option<nat>
    requires Known(w, r)
  {
    var leases := w.shared[w.rasters[r].shared].leases;
    if r in leases then Some(leases[r]) else None
  }

  /** A merge records exactly the term asked for, and leaves a lone lease of it. */
  lemma MergeRecordsTerm(w: World, platform: QueueId, r: RasterId, term: nat)
    requires Inv(w, platform) && Known(w, r) && Active(w, r) && !IsMerged(w, r) && term > 0
    ensures CallerOk(w, platform, Merge(r, term)) && w.table.Valid() && ChecksPass(w, Merge(r, term))
    ensures var w' := Next(w, Merge(r, term));
      Inv(w', platform) && OnlyRecordOf(w, w', r) && LeaseOf(w', r) == Some(term) && LoneLease(w', r, term)
  {
    hide Inv, IsForest, IsTidy, MergeSucceeds, Table.Merge;
    InvIsValid(w, platform);
    ChecksPassExactly(w, platform, Merge(r, term));
    StepKeepsInv(w, platform, Merge(r, term));
  }

  /** A merge of what is merged changes nothing, so no lease grows by it. */
  lemma MergedMergeChangesNothing(w: World, platform: QueueId, r: RasterId, term: nat)
    requires Inv(w, platform) && Known(w, r) && IsMerged(w, r) && term > 0
    ensures w.table.Valid() && ChecksPass(w, Merge(r, term)) && Next(w, Merge(r, term)) == w
  {
    hide Inv, IsForest, IsTidy;
    InvIsValid(w, platform);
  }

  lemma UnMergeDropsOwnRecord(w: World, platform: QueueId, r: RasterId)
    requires Inv(w, platform) && Known(w, r) && Active(w, r) && IsMerged(w, r)
    ensures w.table.Valid() && ChecksPass(w, UnMergeIfLast(r))
    ensures var w' := Next(w, UnMergeIfLast(r)); OnlyRecordOf(w, w', r) && LeaseOf(w', r) == None
  {
    hide Inv, IsForest, IsTidy, UnmergeSucceeds, Settled;
    InvIsValid(w, platform);
    ChecksPassExactly(w, platform, UnMergeIfLast(r));
  }

  lemma ExtendOverwritesOwnRecord(w: World, platform: QueueId, r: RasterId, term: nat)
    requires Inv(w, platform) && Known(w, r) && Active(w, r) && IsMerged(w, r) && term > 0
    ensures w.table.Valid() && ChecksPass(w, Extend(r, term))
    ensures var w' := Next(w, Extend(r, term));
      OnlyRecordOf(w, w', r) && LeaseOf(w', r) == Some(term) && w'.table == w.table
  {
    hide Inv, IsForest, IsTidy;
    InvIsValid(w, platform);
  }

  /** A decrement takes one off the caller's own record; a caller without one is ignored. */
  lemma DecrementLowersOwnRecord(w: World, platform: QueueId, r: RasterId)
    requires Inv(w, platform) && Known(w, r) && Active(w, r) && IsMerged(w, r) && CallerOk(w, platform, Decrement(r))
    ensures w.table.Valid() && ChecksPass(w, Decrement(r))
    ensures var w' := Next(w, Decrement(r));
      && OnlyRecordOf(w, w', r)
      && match LeaseOf(w, r)
         case None => LeaseOf(w', r) == None
         case Some(n) => n > 0 && LeaseOf(w', r) == Some(n - 1)
  {
    hide Inv, IsForest, IsTidy, UnmergeSucceeds, Settled;
    InvIsValid(w, platform);
    ChecksPassExactly(w, platform, Decrement(r));
  }

  /** With the queues the same, or the shared merger disabled, no lease call has any effect. */
  lemma GuardedCallsDoNothing(w: World, platform: QueueId, s: Step)
    requires Inv(w, platform) && (s.Merge? || s.UnMergeIfLast? || s.Extend? || s.Decrement?) && Known(w, s.r)
    requires w.rasters[s.r].platform == w.rasters[s.r].gpu || !w.shared[w.rasters[s.r].shared].enabled
    requires s.Extend? ==> s.term > 0
    ensures w.table.Valid() && ChecksPass(w, s) && Next(w, s) == w
  {
    hide Inv, IsForest, IsTidy, Shared.IsMerged;
    InvIsValid(w, platform);
  }

  lemma EnableChangesFlagOnly(w: World, platform: QueueId, r: RasterId, enabled: bool)
    requires Inv(w, platform) && Known(w, r)
    ensures w.table.Valid() && ChecksPass(w, SetEnabled(r, enabled))
    ensures var w' := Next(w, SetEnabled(r, enabled)); var id := w.rasters[r].shared;
      && w'.table == w.table && w'.rasters == w.rasters && w'.shared.Keys == w.shared.Keys
      && (forall o :: o in w.shared && o != id ==> w'.shared[o] == w.shared[o])
      && w'.shared[id] == w.shared[id].(enabled := enabled)
  {
    hide Inv, IsForest, IsTidy;
    InvIsValid(w, platform);
  }

  /** A raster merger made for the same two queues as its parent uses the parent's shared merger; any
      other gets an enabled one of its own with no leases. */
  lemma NewRasterShares(w: World, platform: QueueId, id: RasterId, parent: Option<RasterId>, p: QueueId, gpu: QueueId)
    requires Inv(w, platform) && id !in w.rasters && (parent.Some? ==> Known(w, parent.value))
    ensures w.table.Valid() && ChecksPass(w, NewRaster(id, parent, p, gpu))
    ensures var w' := Next(w, NewRaster(id, parent, p, gpu));
      && w'.table == w.table && w'.rasters.Keys == w.rasters.Keys + {id}
      && w'.rasters[id].platform == p && w'.rasters[id].gpu == gpu
      && (forall r :: r in w.rasters ==> w'.rasters[r] == w.rasters[r])
      && (forall o :: o in w.shared ==> o in w'.shared && w'.shared[o] == w.shared[o])
      && var own := w'.rasters[id].shared;
         if parent.Some? && w.rasters[parent.value].platform == p && w.rasters[parent.value].gpu == gpu
         then own == w.rasters[parent.value].shared && w'.shared == w.shared
         else own !in w.shared && own in w'.shared && w'.shared[own] == Shared(p, gpu, true, map[])
  {
    hide Inv, IsForest, IsTidy, FreshMerger;
    InvIsValid(w, platform);
    FreshIsFresh(w, platform);
  }

  lemma FreshIsFresh(w: World, platform: QueueId)
    requires Inv(w, platform)
    ensures FreshMerger(w) !in w.shared
  {
    hide IsForest, IsTidy, InStep;
  }

  // ----- How long a merge lasts

  ghost function Decrements(k: nat, r: RasterId): seq<Step> { seq(k, _ => Decrement(r)) }

  /** A merge with a lease of n that nobody else disturbs: after k decrements the queues are still
      merged exactly while k < n, and the n-th decrement is the one that answers kUnmergedNow. */
  lemma MergeLastsItsTerm(w: World, platform: QueueId, r: RasterId, n: nat, k: nat)
    requires Inv(w, platform) && Known(w, r) && Active(w, r) && !IsMerged(w, r) && n > 0 && k <= n
    ensures w.table.Valid() && ChecksPass(w, Merge(r, n))
    ensures var w1 := Next(w, Merge(r, n));
      && Inv(w1, platform) && GoodRun(w1, platform, Decrements(k, r))
      && var wk := After(w1, platform, Decrements(k, r));
         && Known(wk, r) && (IsMerged(wk, r) <==> k < n)
         && (k < n ==> wk.table.Valid() && ChecksPass(wk, Decrement(r))
                       && Answer(wk, r) == if k == n - 1 then UnmergedNow else RemainsMerged)
  {
    hide Inv, LoneLease, Next, CallerOk, ChecksPass, Answer, IsMerged, Active, LeaseOf, OnlyRecordOf, GoodRun, After;
    MergeRecordsTerm(w, platform, r, n);
    var w1 := Next(w, Merge(r, n));
    LeaseLasts(w1, platform, r, n, k);
    assert Decrements(k, r) == seq(k, _ => Decrement(r));
    var wk := After(w1, platform, Decrements(k, r));
    LoneIsKnown(wk, r, n - k);
    LoneKnown(wk, r, n - k);
    LoneLeaseIsMerged(wk, r, n - k);
    InvIsValid(wk, platform);
    if k < n { LoneLeaseStep(wk, platform, r, n - k); }
  }

  lemma LoneKnown(w: World, r: RasterId, n: nat)
    requires LoneLease(w, r, n)
    ensures Known(w, r)
  {
  }
}
