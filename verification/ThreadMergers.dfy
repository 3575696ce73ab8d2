/** The lease protocol of src/fml/shared_thread_merger.cc and src/fml/raster_thread_merger.cc.
    Each method of a raster merger is one atomic step. */
module ThreadMergers {
  import opened Wrappers
  import opened DelayedTasks
  import opened TaskSources
  import opened TaskQueueTable
  import opened TaskQueueRuns
  import opened TaskDispatch
  import opened TaskOwnership

  type RasterId = nat
  type MergerId = nat

  // ----- SharedThreadMerger

  datatype Shared = Shared(owner: QueueId, subsumed: QueueId, enabled: bool, leases: map<RasterId, nat>) {

    predicate AllLeasesZero() { forall c :: c in leases ==> leases[c] == 0 }

    predicate IsMerged() { !AllLeasesZero() }

    function WithLease(caller: RasterId, term: nat): Shared { this.(leases := leases[caller := term]) }

    function Without(caller: RasterId): Shared { this.(leases := leases - {caller}) }

    /** One lease less; a caller that was never recorded is ignored. */
    function Decremented(caller: RasterId): Shared
      requires caller in leases ==> leases[caller] > 0
    {
      if caller in leases then WithLease(caller, leases[caller] - 1) else this
    }
  }

  /** The CHECKs on the outcome of Merge and of Unmerge. */
  ghost predicate MergeSucceeds(t: Table, m: Shared)
    requires t.Valid()
  {
    t.Merge(m.owner, m.subsumed).1 == Ok(true)
  }

  ghost predicate UnmergeSucceeds(t: Table, m: Shared)
    requires t.Valid()
  {
    t.Unmerge(m.owner, m.subsumed).1 == Ok(true)
  }

  ghost function MergeWithLease(t: Table, m: Shared, caller: RasterId, term: nat): (Table, Shared)
    requires t.Valid() && (m.IsMerged() || MergeSucceeds(t, m))
  {
    if m.IsMerged() then (t, m) else (t.Merge(m.owner, m.subsumed).0, m.WithLease(caller, term))
  }

  /** Unmerges once no lease is left. */
  ghost function Settled(t: Table, m: Shared): Table
    requires t.Valid() && (m.IsMerged() || UnmergeSucceeds(t, m))
  {
    if m.IsMerged() then t else t.Unmerge(m.owner, m.subsumed).0
  }

  ghost function UnMergeNowIfLastOne(t: Table, m: Shared, caller: RasterId): (Table, Shared)
    requires t.Valid() && (m.Without(caller).IsMerged() || UnmergeSucceeds(t, m))
  {
    (Settled(t, m.Without(caller)), m.Without(caller))
  }

  ghost predicate DecrementPasses(t: Table, m: Shared, caller: RasterId)
    requires t.Valid()
  {
    && (caller in m.leases ==> m.leases[caller] > 0)
    && (m.Decremented(caller).IsMerged() || UnmergeSucceeds(t, m))
  }

  ghost function DecrementLease(t: Table, m: Shared, caller: RasterId): (Table, Shared, bool)
    requires t.Valid() && DecrementPasses(t, m, caller)
  {
    var m' := m.Decremented(caller);
    (Settled(t, m'), m', !m'.IsMerged())
  }

  // ----- RasterThreadMerger

  datatype Status = RemainsMerged | RemainsUnmerged | UnmergedNow

  datatype Raster = Raster(platform: QueueId, gpu: QueueId, shared: MergerId)

  /** All raster mergers in use, their shared mergers and the queue table below them. */
  datatype World = World(table: Table, shared: map<MergerId, Shared>, rasters: map<RasterId, Raster>)

  datatype Step =
    | NewRaster(id: RasterId, parent: Option<RasterId>, platform: QueueId, gpu: QueueId)
    | Merge(r: RasterId, term: nat)
    | UnMergeIfLast(r: RasterId)
    | Extend(r: RasterId, term: nat)
    | Decrement(r: RasterId)
    | SetEnabled(r: RasterId, enabled: bool)
    | TaskStep(op: Op)

  /** Queue operations that do not merge, unmerge or dispose of queues. */
  predicate IsTaskOp(op: Op) { !op.Merge? && !op.Unmerge? && !op.Dispose? }

  ghost predicate Known(w: World, r: RasterId) {
    r in w.rasters && w.rasters[r].shared in w.shared
  }

  function SharedOf(w: World, r: RasterId): Shared
    requires Known(w, r)
  {
    w.shared[w.rasters[r].shared]
  }

  predicate SameQueues(w: World, r: RasterId)
    requires r in w.rasters
  {
    w.rasters[r].platform == w.rasters[r].gpu
  }

  /** RasterThreadMerger::IsMerged: queues that are the same are always merged. */
  predicate IsMerged(w: World, r: RasterId)
    requires Known(w, r)
  {
    SameQueues(w, r) || SharedOf(w, r).IsMerged()
  }

  /** Calls on `r` get through to the shared merger. */
  predicate Active(w: World, r: RasterId)
    requires Known(w, r)
  {
    !SameQueues(w, r) && SharedOf(w, r).enabled
  }

  function With(w: World, r: RasterId, t: Table, m: Shared): World
    requires Known(w, r)
  {
    w.(table := t, shared := w.shared[w.rasters[r].shared := m])
  }

  /** CreateOrShareThreadMerger shares the parent's merger when both queues are the same. */
  predicate Shares(w: World, parent: Option<RasterId>, platform: QueueId, gpu: QueueId) {
    parent.Some? && parent.value in w.rasters && w.rasters[parent.value].platform == platform && w.rasters[parent.value].gpu == gpu
  }

  function FreshMerger(w: World): MergerId { |w.shared| }

  /** Every CHECK and DCHECK that the step meets on its way through both classes holds. */
  ghost predicate ChecksPass(w: World, s: Step)
    requires w.table.Valid() && WellNamed(w, s)
  {
    match s
    case Merge(r, term) => Active(w, r) ==> term > 0 && (IsMerged(w, r) || MergeSucceeds(w.table, SharedOf(w, r)))
    case UnMergeIfLast(r) => Active(w, r) ==> SharedOf(w, r).Without(r).IsMerged() || UnmergeSucceeds(w.table, SharedOf(w, r))
    case Extend(r, term) => term > 0 && (Active(w, r) ==> IsMerged(w, r))
    case Decrement(r) => IsMerged(w, r) && Active(w, r) ==> DecrementPasses(w.table, SharedOf(w, r), r)
    case TaskStep(op) => Allowed(w.table, op)
    case _ => true
  }

  /** The step names raster mergers that exist, or a new one for a new merger. */
  ghost predicate WellNamed(w: World, s: Step) {
    match s
    case NewRaster(id, parent, _, _) => id !in w.rasters && (parent.Some? ==> Known(w, parent.value))
    case TaskStep(op) => IsTaskOp(op)
    case _ => Known(w, s.r)
  }

  ghost function Next(w: World, s: Step): World
    requires w.table.Valid() && WellNamed(w, s) && ChecksPass(w, s)
  {
    match s
    case NewRaster(id, parent, platform, gpu) =>
      if Shares(w, parent, platform, gpu) then
        w.(rasters := w.rasters[id := Raster(platform, gpu, w.rasters[parent.value].shared)])
      else
        w.(rasters := w.rasters[id := Raster(platform, gpu, FreshMerger(w))],
           shared := w.shared[FreshMerger(w) := Shared(platform, gpu, true, map[])])
    case Merge(r, term) =>
      if !Active(w, r) || IsMerged(w, r) then w
      else
        var (t, m) := MergeWithLease(w.table, SharedOf(w, r), r, term);
        With(w, r, t, m)
    case UnMergeIfLast(r) =>
      if !Active(w, r) then w
      else
        var (t, m) := UnMergeNowIfLastOne(w.table, SharedOf(w, r), r);
        With(w, r, t, m)
    case Extend(r, term) =>
      if !Active(w, r) then w else With(w, r, w.table, SharedOf(w, r).WithLease(r, term))
    case Decrement(r) =>
      if !IsMerged(w, r) || !Active(w, r) then w
      else
        var (t, m, _) := DecrementLease(w.table, SharedOf(w, r), r);
        With(w, r, t, m)
    case SetEnabled(r, enabled) => With(w, r, w.table, SharedOf(w, r).(enabled := enabled))
    case TaskStep(op) => w.(table := Apply(w.table, op))
  }

  /** What DecrementLease answers. */
  ghost function Answer(w: World, r: RasterId): Status
    requires w.table.Valid() && Known(w, r) && ChecksPass(w, Decrement(r))
  {
    if SameQueues(w, r) then RemainsMerged
    else if !IsMerged(w, r) then RemainsUnmerged
    else if !SharedOf(w, r).enabled then RemainsMerged
    else if DecrementLease(w.table, SharedOf(w, r), r).2 then UnmergedNow else RemainsMerged
  }

  // ----- What holds in every reachable world

  /** The queues of merger `m` agree with its leases: the platform queue owns the raster queue
      exactly while some lease is left. */
  ghost predicate InStep(t: Table, platform: QueueId, m: Shared) {
    && m.owner == platform && platform in t.entries && t.entries[platform].subsumedBy.None?
    && if m.subsumed == platform then m.leases == map[]
       else
         && m.subsumed in t.entries && t.entries[m.subsumed].ownerOf == {}
         && t.entries[m.subsumed].subsumedBy == if m.IsMerged() then Some(platform) else None
  }

  ghost predicate MergersInStep(w: World, platform: QueueId) {
    forall m :: m in w.shared ==> m < |w.shared| && InStep(w.table, platform, w.shared[m])
  }

  /** One shared merger per raster queue. */
  ghost predicate OnePerQueue(w: World, platform: QueueId) {
    forall m, n :: m in w.shared && n in w.shared && m != n && w.shared[m].subsumed != platform ==>
      w.shared[m].subsumed != w.shared[n].subsumed
  }

  ghost predicate RastersMatch(w: World, platform: QueueId) {
    forall r :: r in w.rasters ==>
      w.rasters[r].shared in w.shared && w.rasters[r].platform == platform
      && w.shared[w.rasters[r].shared].subsumed == w.rasters[r].gpu
  }

  ghost predicate PlatformLive(t: Table, platform: QueueId) {
    platform in t.entries && t.entries[platform].subsumedBy.None?
  }

  ghost predicate Inv(w: World, platform: QueueId) {
    w.table.Valid() && PlatformLive(w.table, platform) && MergersInStep(w, platform) && OnePerQueue(w, platform) && RastersMatch(w, platform)
  }

  /** What is asked of the callers: positive terms, lease calls on mergers that are merged where
      the source expects it, no decrement of a lease already used up, and one shared merger per
      raster queue, a queue that nothing else has merged. */
  ghost predicate CallerOk(w: World, platform: QueueId, s: Step)
    requires WellNamed(w, s)
  {
    match s
    case NewRaster(_, parent, p, gpu) =>
      p == platform
      && (Shares(w, parent, p, gpu) || gpu == platform
          || (&& gpu in w.table.entries && w.table.entries[gpu].ownerOf == {} && w.table.entries[gpu].subsumedBy.None?
              && forall m :: m in w.shared ==> w.shared[m].subsumed != gpu))
    case Merge(r, term) => Active(w, r) ==> term > 0
    case UnMergeIfLast(r) => Active(w, r) ==> IsMerged(w, r)
    case Extend(r, term) => term > 0 && (Active(w, r) ==> IsMerged(w, r))
    case Decrement(r) => IsMerged(w, r) && Active(w, r) && r in SharedOf(w, r).leases ==> SharedOf(w, r).leases[r] > 0
    case SetEnabled(_, _) => true
    case TaskStep(op) => Allowed(w.table, op)
  }

  // ----- Leases agree with ownership

  /** Some lease is positive exactly while the owner owns the subsumed queue. */
  lemma MergedIffOwned(t: Table, platform: QueueId, m: Shared)
    requires t.Valid() && InStep(t, platform, m)
    ensures m.IsMerged() <==> t.Owns(m.owner, m.subsumed)
  {
    hide IsTidy;
    if m.subsumed in t.entries[platform].ownerOf { OwnedIsLive(t, platform, m.subsumed); }
  }

  lemma UnmergeChecks(t: Table, platform: QueueId, m: Shared)
    requires t.Valid() && InStep(t, platform, m)
    ensures UnmergeSucceeds(t, m) <==> m.IsMerged()
    ensures !m.IsMerged() && m.subsumed != platform ==> t.CanMerge(m.owner, m.subsumed) && MergeSucceeds(t, m)
  {
    hide IsForest, IsTidy, Table.Unmerge, Table.Merge, Shared.IsMerged;
    MergedIffOwned(t, platform, m);
    if !t.Owns(m.owner, m.subsumed) { RefusedWhenNotOwned(t, m.owner, m.subsumed); }
    if t.Owns(m.owner, m.subsumed) { UnmergeShape(t, m.owner, m.subsumed); }
    if !m.IsMerged() && m.subsumed != platform { MergeShape(t, m.owner, m.subsumed); }
  }

  lemma RefusedWhenNotOwned(t: Table, owner: QueueId, subsumed: QueueId)
    requires t.Valid() && owner in t.entries && !t.Owns(owner, subsumed)
    ensures t.Unmerge(owner, subsumed).1 != Ok(true)
  {
    hide IsForest, IsTidy;
  }

  lemma WithoutIsMerged(m: Shared, caller: RasterId)
    ensures m.Without(caller).IsMerged() ==> m.IsMerged()
  {
  }

  lemma KnownInStep(w: World, platform: QueueId, r: RasterId)
    requires Inv(w, platform) && Known(w, r)
    ensures InStep(w.table, platform, SharedOf(w, r))
    ensures Active(w, r) ==> SharedOf(w, r).subsumed != platform
  {
  }

  lemma ChecksOf(w: World, platform: QueueId, r: RasterId)
    requires Inv(w, platform) && Known(w, r)
    ensures var t, m := w.table, SharedOf(w, r);
            && (UnmergeSucceeds(t, m) <==> m.IsMerged())
            && (Active(w, r) && !m.IsMerged() ==> MergeSucceeds(t, m))
            && (m.Without(r).IsMerged() ==> m.IsMerged())
            && (m.IsMerged() ==> (DecrementPasses(t, m, r) <==> (r in m.leases ==> m.leases[r] > 0)))
  {
    KnownInStep(w, platform, r);
    hide Inv, InStep, MergeSucceeds, UnmergeSucceeds, Shared.IsMerged;
    var m := SharedOf(w, r);
    UnmergeChecks(w.table, platform, m);
    WithoutIsMerged(m, r);
  }

  /** The checks of the source pass exactly when its callers keep to the protocol. */
  lemma ChecksPassExactly(w: World, platform: QueueId, s: Step)
    requires Inv(w, platform) && WellNamed(w, s)
    ensures CallerOk(w, platform, s) ==> ChecksPass(w, s)
    ensures !s.NewRaster? && ChecksPass(w, s) ==> CallerOk(w, platform, s)
  {
    hide IsForest, IsTidy, MergersInStep, OnePerQueue, RastersMatch, InStep, MergeSucceeds, UnmergeSucceeds, DecrementPasses, Shared.IsMerged;
    if !s.NewRaster? && !s.TaskStep? { ChecksOf(w, platform, s.r); }
  }

  // ----- Each step keeps leases and ownership in step

  /** Only the links between the two queues of `m` changed. */
  ghost predicate LinksMoved(t: Table, t': Table, platform: QueueId, subsumed: QueueId) {
    && t'.Valid() && t'.entries.Keys == t.entries.Keys
    && (forall q :: q in t.entries && q != platform && q != subsumed ==>
          t'.entries[q].ownerOf == t.entries[q].ownerOf && t'.entries[q].subsumedBy == t.entries[q].subsumedBy)
    && (platform in t.entries ==> t'.entries[platform].subsumedBy == t.entries[platform].subsumedBy)
  }

  lemma MergeMoves(t: Table, platform: QueueId, m: Shared)
    requires t.Valid() && InStep(t, platform, m) && !m.IsMerged() && m.subsumed != platform
    ensures var t' := t.Merge(m.owner, m.subsumed).0;
            && LinksMoved(t, t', platform, m.subsumed)
            && t'.entries[m.subsumed].ownerOf == {} && t'.entries[m.subsumed].subsumedBy == Some(platform)
  {
    hide IsForest, IsTidy, Table.Merge;
    MergeShape(t, m.owner, m.subsumed);
    MergeIsValid(t, m.owner, m.subsumed);
  }

  lemma UnmergeMoves(t: Table, platform: QueueId, m: Shared)
    requires t.Valid() && InStep(t, platform, m) && m.IsMerged()
    ensures m.subsumed != platform
    ensures var t' := t.Unmerge(m.owner, m.subsumed).0;
            && LinksMoved(t, t', platform, m.subsumed)
            && t'.entries[m.subsumed].ownerOf == {} && t'.entries[m.subsumed].subsumedBy == None
  {
    MergedIffOwned(t, platform, m);
    hide IsForest, IsTidy, Table.Unmerge;
    UnmergeShape(t, m.owner, m.subsumed);
    UnmergeIsValid(t, m.owner, m.subsumed);
  }

  lemma OthersStayInStep(t: Table, t': Table, platform: QueueId, subsumed: QueueId, m: Shared)
    requires LinksMoved(t, t', platform, subsumed) && InStep(t, platform, m)
    requires m.subsumed == platform || m.subsumed != subsumed
    ensures InStep(t', platform, m)
  {
  }

  /** Replacing one shared merger and moving its links keeps the invariant. */
  lemma WithKeepsInv(w: World, platform: QueueId, r: RasterId, t: Table, m: Shared)
    requires Inv(w, platform) && Known(w, r)
    requires m.owner == SharedOf(w, r).owner && m.subsumed == SharedOf(w, r).subsumed
    requires LinksMoved(w.table, t, platform, m.subsumed) && InStep(t, platform, m)
    ensures Inv(With(w, r, t, m), platform)
  {
    hide IsForest, IsTidy, InStep, MergersInStep, OnePerQueue, RastersMatch;
    WithKeepsMergers(w, platform, r, t, m);
    WithKeepsRasters(w, platform, r, t, m);
    assert t.Valid();
  }

  lemma WithKeepsMergers(w: World, platform: QueueId, r: RasterId, t: Table, m: Shared)
    requires MergersInStep(w, platform) && OnePerQueue(w, platform) && Known(w, r)
    requires m.subsumed == SharedOf(w, r).subsumed
    requires LinksMoved(w.table, t, platform, m.subsumed) && InStep(t, platform, m)
    ensures MergersInStep(With(w, r, t, m), platform)
  {
    hide InStep, LinksMoved;
    var id, w' := w.rasters[r].shared, With(w, r, t, m);
    assert w'.shared.Keys == w.shared.Keys;
    assert |w'.shared| == |w'.shared.Keys| == |w.shared.Keys|;
    forall n | n in w'.shared ensures n < |w'.shared| && InStep(t, platform, w'.shared[n]) {
      if n != id { OthersStayInStep(w.table, t, platform, m.subsumed, w.shared[n]); }
    }
  }

  lemma WithKeepsRasters(w: World, platform: QueueId, r: RasterId, t: Table, m: Shared)
    requires OnePerQueue(w, platform) && RastersMatch(w, platform) && Known(w, r) && m.subsumed == SharedOf(w, r).subsumed
    ensures OnePerQueue(With(w, r, t, m), platform) && RastersMatch(With(w, r, t, m), platform)
  {
  }

  lemma MergeKeepsInv(w: World, platform: QueueId, r: RasterId, term: nat)
    requires Inv(w, platform) && Known(w, r) && Active(w, r) && !IsMerged(w, r) && term > 0
    ensures MergeSucceeds(w.table, SharedOf(w, r))
    ensures var (t, m) := MergeWithLease(w.table, SharedOf(w, r), r, term); Inv(With(w, r, t, m), platform)
  {
    hide IsForest, IsTidy, MergersInStep, OnePerQueue, RastersMatch, Table.Merge, LinksMoved;
    KnownInStep(w, platform, r);
    var m := SharedOf(w, r);
    UnmergeChecks(w.table, platform, m);
    MergeMoves(w.table, platform, m);
    var m' := m.WithLease(r, term);
    assert m'.leases[r] == term;
    assert m'.IsMerged();
    LinksKept(w.table, w.table.Merge(m.owner, m.subsumed).0, platform, m.subsumed);
    WithKeepsInv(w, platform, r, w.table.Merge(m.owner, m.subsumed).0, m');
  }

  lemma LinksKept(t: Table, t': Table, platform: QueueId, subsumed: QueueId)
    requires LinksMoved(t, t', platform, subsumed) && platform in t.entries
    ensures t'.entries.Keys == t.entries.Keys && t'.entries[platform].subsumedBy == t.entries[platform].subsumedBy
  {
  }

  lemma LinksSame(t: Table, platform: QueueId, subsumed: QueueId)
    requires t.Valid()
    ensures LinksMoved(t, t, platform, subsumed)
  {
    hide IsForest, IsTidy;
  }

  /** Dropping or lowering leases, then unmerging if none is left. */
  lemma SettledKeepsInv(w: World, platform: QueueId, r: RasterId, m': Shared)
    requires Inv(w, platform) && Known(w, r) && SharedOf(w, r).IsMerged()
    requires m' == SharedOf(w, r).(leases := m'.leases)
    ensures UnmergeSucceeds(w.table, m') && Inv(With(w, r, Settled(w.table, m'), m'), platform)
    ensures Settled(w.table, m').Valid()
  {
    hide IsForest, IsTidy, MergersInStep, OnePerQueue, RastersMatch, Table.Unmerge, LinksMoved, Shared.AllLeasesZero;
    KnownInStep(w, platform, r);
    var m := SharedOf(w, r);
    UnmergeChecks(w.table, platform, m);
    UnmergeMoves(w.table, platform, m);
    if m'.IsMerged() {
      LinksSame(w.table, platform, m.subsumed);
      WithKeepsInv(w, platform, r, w.table, m');
    } else {
      var t' := w.table.Unmerge(m.owner, m.subsumed).0;
      LinksKept(w.table, t', platform, m.subsumed);
      WithKeepsInv(w, platform, r, t', m');
    }
  }

  lemma ExtendKeepsInv(w: World, platform: QueueId, r: RasterId, term: nat)
    requires Inv(w, platform) && Known(w, r) && Active(w, r) && IsMerged(w, r) && term > 0
    ensures Inv(With(w, r, w.table, SharedOf(w, r).WithLease(r, term)), platform)
  {
    hide IsForest, IsTidy, MergersInStep, OnePerQueue, RastersMatch, LinksMoved;
    KnownInStep(w, platform, r);
    var m' := SharedOf(w, r).WithLease(r, term);
    assert m'.leases[r] == term;
    assert m'.IsMerged();
    LinksSame(w.table, platform, m'.subsumed);
    WithKeepsInv(w, platform, r, w.table, m');
  }

  lemma SetEnabledKeepsInv(w: World, platform: QueueId, r: RasterId, enabled: bool)
    requires Inv(w, platform) && Known(w, r)
    ensures Inv(With(w, r, w.table, SharedOf(w, r).(enabled := enabled)), platform)
  {
    hide IsForest, IsTidy, MergersInStep, OnePerQueue, RastersMatch, LinksMoved;
    KnownInStep(w, platform, r);
    var m' := SharedOf(w, r).(enabled := enabled);
    LinksSame(w.table, platform, m'.subsumed);
    assert m'.IsMerged() == SharedOf(w, r).IsMerged();
    WithKeepsInv(w, platform, r, w.table, m');
  }

  lemma SharingKeepsInv(w: World, platform: QueueId, id: RasterId, parent: RasterId)
    requires Inv(w, platform) && id !in w.rasters && parent in w.rasters
    ensures Inv(w.(rasters := w.rasters[id := w.rasters[parent]]), platform)
  {
    hide IsForest, IsTidy, InStep;
    var w' := w.(rasters := w.rasters[id := w.rasters[parent]]);
    assert MergersInStep(w', platform) && OnePerQueue(w', platform);
  }

  /** `w` with a merger of its own for a raster queue nobody has merged. */
  function WithMerger(w: World, id: RasterId, platform: QueueId, gpu: QueueId): World {
    w.(rasters := w.rasters[id := Raster(platform, gpu, FreshMerger(w))],
       shared := w.shared[FreshMerger(w) := Shared(platform, gpu, true, map[])])
  }

  lemma NewMergerInStep(w: World, platform: QueueId, id: RasterId, gpu: QueueId)
    requires MergersInStep(w, platform) && InStep(w.table, platform, Shared(platform, gpu, true, map[]))
    requires gpu == platform || forall m :: m in w.shared ==> w.shared[m].subsumed != gpu
    requires OnePerQueue(w, platform)
    ensures FreshMerger(w) !in w.shared
    ensures MergersInStep(WithMerger(w, id, platform, gpu), platform) && OnePerQueue(WithMerger(w, id, platform, gpu), platform)
  {
    hide InStep;
    OneMoreMerger(w, id, platform, gpu);
    hide MergersInStep;
    var newId, w' := FreshMerger(w), WithMerger(w, id, platform, gpu);
    forall m, n | m in w'.shared && n in w'.shared && m != n && w'.shared[m].subsumed != platform
      ensures w'.shared[m].subsumed != w'.shared[n].subsumed
    {
      assert m == newId || m in w.shared;
      assert n == newId || n in w.shared;
    }
  }

  lemma OneMoreMerger(w: World, id: RasterId, platform: QueueId, gpu: QueueId)
    requires MergersInStep(w, platform) && InStep(w.table, platform, Shared(platform, gpu, true, map[]))
    ensures FreshMerger(w) !in w.shared && MergersInStep(WithMerger(w, id, platform, gpu), platform)
  {
    hide InStep;
    var added := Shared(platform, gpu, true, map[]);
    OneMore(w.shared, FreshMerger(w), added);
    var w' := WithMerger(w, id, platform, gpu);
    forall m | m in w'.shared ensures m < |w'.shared| && InStep(w'.table, platform, w'.shared[m]) {
      if m in w.shared { assert m < |w.shared|; }
    }
  }

  lemma OneMore(shared: map<MergerId, Shared>, id: MergerId, added: Shared)
    requires id !in shared
    ensures |shared[id := added]| == |shared| + 1
  {
    assert shared[id := added].Keys == shared.Keys + {id};
    assert |shared[id := added]| == |shared[id := added].Keys| && |shared| == |shared.Keys|;
  }

  lemma NewMergerKeepsInv(w: World, platform: QueueId, id: RasterId, gpu: QueueId)
    requires Inv(w, platform) && id !in w.rasters && InStep(w.table, platform, Shared(platform, gpu, true, map[]))
    requires gpu == platform || forall m :: m in w.shared ==> w.shared[m].subsumed != gpu
    ensures Inv(WithMerger(w, id, platform, gpu), platform)
  {
    hide IsForest, IsTidy, InStep, MergersInStep, OnePerQueue;
    NewMergerInStep(w, platform, id, gpu);
  }

  lemma NewRasterKeepsInv(w: World, platform: QueueId, s: Step)
    requires s.NewRaster? && Inv(w, platform) && WellNamed(w, s) && CallerOk(w, platform, s)
    ensures Inv(Next(w, s), platform)
  {
    hide IsForest, IsTidy, MergersInStep, OnePerQueue, RastersMatch;
    if Shares(w, s.parent, s.platform, s.gpu) {
      SharingKeepsInv(w, platform, s.id, s.parent.value);
    } else {
      assert !Shared(platform, s.gpu, true, map[]).IsMerged();
      NewMergerKeepsInv(w, platform, s.id, s.gpu);
    }
  }

  lemma RegisterKeepsLinks(t: Table, q: QueueId, closure: nat, time: int, grade: Grade, p: QueueId)
    requires t.Valid() && p in t.entries
    ensures SameLinks(t, t.Register(q, closure, time, grade), p)
  {
    hide IsForest, IsTidy, Table.HasPending, Table.Peek, Source.Register;
  }

  lemma GetNextKeepsLinks(t: Table, q: QueueId, now: int, p: QueueId)
    requires t.Valid() && p in t.entries
    ensures SameLinks(t, t.GetNext(q, now).0, p)
  {
    hide IsForest, IsTidy, IsFirst, Table.HasPending, Table.VisibleOf, Source.Visible, Source.Held, TookOnly;
    if q in t.entries {
      DispatchIsFlat(t, q, now);
      FlatKeepsLinks(t, q, now, t.GetNext(q, now).0, t.GetNext(q, now).1, p);
    }
  }

  lemma FlatKeepsLinks(t: Table, q: QueueId, now: int, t': Table, r: Outcome<Option<Task>>, p: QueueId)
    requires t.Forest() && t'.Forest() && q in t.entries && q in t'.entries && FlatDispatch(t, q, now, t', r) && p in t.entries
    ensures SameLinks(t, t', p)
  {
    hide IsForest, Table.VisibleOf, Source.Visible, Source.Held;
  }

  ghost predicate SameLinks(t: Table, t': Table, q: QueueId)
    requires q in t.entries
  {
    q in t'.entries && t'.entries[q].ownerOf == t.entries[q].ownerOf && t'.entries[q].subsumedBy == t.entries[q].subsumedBy
  }

  /** Task operations leave the links of every live queue alone. */
  lemma TaskOpKeepsLinks(t: Table, op: Op, q: QueueId)
    requires t.Valid() && Allowed(t, op) && IsTaskOp(op) && q in t.entries
    ensures SameLinks(t, Apply(t, op), q)
  {
    hide IsForest, IsTidy, Table.HasPending, Table.Peek, Table.GetNext, Table.Register;
    match op
    case Register(p, closure, time, grade) => RegisterKeepsLinks(t, p, closure, time, grade, q);
    case GetNext(p, now) => GetNextKeepsLinks(t, p, now, q);
    case Create => CreateIsNew(t);
    case _ =>
  }

  lemma TaskOpKeepsInv(w: World, platform: QueueId, op: Op)
    requires Inv(w, platform) && IsTaskOp(op) && Allowed(w.table, op)
    ensures Inv(w.(table := Apply(w.table, op)), platform)
  {
    hide IsForest, IsTidy, Apply, Allowed;
    var t' := Apply(w.table, op);
    StepIsValid(w.table, op);
    TaskOpKeepsLinks(w.table, op, platform);
    forall m | m in w.shared ensures InStep(t', platform, w.shared[m]) {
      if w.shared[m].subsumed != platform { TaskOpKeepsLinks(w.table, op, w.shared[m].subsumed); }
    }
  }

  /** Every step by callers that keep to the protocol passes the checks and keeps leases and
      ownership in step. */
  lemma StepKeepsInv(w: World, platform: QueueId, s: Step)
    requires Inv(w, platform) && WellNamed(w, s) && CallerOk(w, platform, s)
    ensures ChecksPass(w, s) && Inv(Next(w, s), platform)
  {
    ChecksPassExactly(w, platform, s);
    hide IsForest, IsTidy, Inv, InStep, MergeSucceeds, UnmergeSucceeds, DecrementPasses, Settled, MergeWithLease, Shared.IsMerged, Allowed, Apply;
    match s
    case NewRaster(_, _, _, _) => NewRasterKeepsInv(w, platform, s);
    case Merge(r, term) => if Active(w, r) && !IsMerged(w, r) { MergeKeepsInv(w, platform, r, term); }
    case UnMergeIfLast(r) => if Active(w, r) { SettledKeepsInv(w, platform, r, SharedOf(w, r).Without(r)); }
    case Extend(r, term) => if Active(w, r) { ExtendKeepsInv(w, platform, r, term); }
    case Decrement(r) =>
      if Active(w, r) && IsMerged(w, r) {
        DecrementKeepsInv(w, platform, r);
      }
    case SetEnabled(r, enabled) => SetEnabledKeepsInv(w, platform, r, enabled);
    case TaskStep(op) => TaskOpKeepsInv(w, platform, op);
  }

  lemma DecrementKeepsInv(w: World, platform: QueueId, r: RasterId)
    requires Inv(w, platform) && Known(w, r) && SharedOf(w, r).IsMerged() && DecrementPasses(w.table, SharedOf(w, r), r)
    ensures var (t, m, _) := DecrementLease(w.table, SharedOf(w, r), r); Inv(With(w, r, t, m), platform)
  {
    hide IsForest, IsTidy, Inv, InStep, UnmergeSucceeds, Settled, Shared.IsMerged;
    SettledKeepsInv(w, platform, r, SharedOf(w, r).Decremented(r));
  }

  // ----- Whole runs

  ghost function GoodNext(w: World, platform: QueueId, s: Step): (w': World)
    requires Inv(w, platform) && WellNamed(w, s) && CallerOk(w, platform, s)
    ensures Inv(w', platform) && w.table.Valid() && ChecksPass(w, s) && w' == Next(w, s)
  {
    hide *;
    StepKeepsInv(w, platform, s);
    InvIsValid(w, platform);
    Next(w, s)
  }

  lemma InvIsValid(w: World, platform: QueueId)
    requires Inv(w, platform)
    ensures w.table.Valid()
  {
    hide IsForest, IsTidy;
  }

  /** Callers keep to the protocol throughout the run. */
  ghost predicate GoodRun(w: World, platform: QueueId, steps: seq<Step>)
    requires Inv(w, platform)
    decreases |steps|
  {
    hide Inv, WellNamed, CallerOk, GoodNext;
    steps == []
    || (WellNamed(w, steps[0]) && CallerOk(w, platform, steps[0]) && GoodRun(GoodNext(w, platform, steps[0]), platform, steps[1..]))
  }

  ghost function After(w: World, platform: QueueId, steps: seq<Step>): (w': World)
    requires Inv(w, platform) && GoodRun(w, platform, steps)
    ensures Inv(w', platform)
    decreases |steps|
  {
    hide Inv, WellNamed, CallerOk, GoodNext;
    if steps == [] then w else After(GoodNext(w, platform, steps[0]), platform, steps[1..])
  }

  /** The world before any raster merger is made, over any queue table. */
  ghost function Start(t: Table): World { World(t, map[], map[]) }

  lemma StartInv(t: Table, platform: QueueId)
    requires t.Valid() && PlatformLive(t, platform)
    ensures Inv(Start(t), platform)
  {
    hide IsForest, IsTidy;
  }

  /** Over any run, for any raster merger: some lease of its shared merger is positive exactly
      when the platform queue owns the raster queue. */
  lemma LeasesAgreeWithOwnership(t: Table, platform: QueueId, steps: seq<Step>, r: RasterId)
    requires t.Valid() && PlatformLive(t, platform) && Inv(Start(t), platform) && GoodRun(Start(t), platform, steps)
    requires r in After(Start(t), platform, steps).rasters
    ensures var w := After(Start(t), platform, steps);
            && Known(w, r)
            && ((exists c :: c in SharedOf(w, r).leases && SharedOf(w, r).leases[c] > 0)
                <==> w.rasters[r].platform in w.table.entries && w.table.Owns(w.rasters[r].platform, w.rasters[r].gpu))
  {
    hide IsForest, IsTidy, After, GoodRun, InStep, MergersInStep, OnePerQueue;
    var w := After(Start(t), platform, steps);
    KnownInStep(w, platform, r);
    MergedIffOwned(w.table, platform, SharedOf(w, r));
    assert platform in w.table.entries;
  }

  lemma AnswerOf(w: World, platform: QueueId, r: RasterId)
    requires Inv(w, platform) && Known(w, r) && CallerOk(w, platform, Decrement(r))
    ensures ChecksPass(w, Decrement(r)) && Known(Next(w, Decrement(r)), r)
    ensures SameQueues(Next(w, Decrement(r)), r) == SameQueues(w, r)
    ensures SharedOf(Next(w, Decrement(r)), r) ==
            if IsMerged(w, r) && Active(w, r) then SharedOf(w, r).Decremented(r) else SharedOf(w, r)
  {
    hide IsForest, IsTidy, InStep, MergersInStep, OnePerQueue, RastersMatch, Shared.IsMerged, DecrementPasses, UnmergeSucceeds;
    ChecksPassExactly(w, platform, Decrement(r));
    hide Settled;
  }

  /** DecrementLease answers kUnmergedNow exactly on the step from merged to unmerged. */
  lemma AnswerIsExact(w: World, platform: QueueId, r: RasterId)
    requires Inv(w, platform) && Known(w, r) && CallerOk(w, platform, Decrement(r))
    ensures ChecksPass(w, Decrement(r)) && Known(Next(w, Decrement(r)), r)
    ensures var w' := Next(w, Decrement(r));
            match Answer(w, r)
            case UnmergedNow => IsMerged(w, r) && !IsMerged(w', r)
            case RemainsMerged => IsMerged(w, r) && IsMerged(w', r)
            case RemainsUnmerged => !IsMerged(w, r) && w' == w
  {
    hide IsForest, IsTidy, InStep, MergersInStep, OnePerQueue, RastersMatch, Shared.AllLeasesZero, DecrementPasses, UnmergeSucceeds, Settled;
    AnswerOf(w, platform, r);
  }

  /** `r` alone holds a lease, of `n`. */
  ghost predicate LoneLease(w: World, r: RasterId, n: nat) {
    && Known(w, r) && Active(w, r) && r in SharedOf(w, r).leases && SharedOf(w, r).leases[r] == n
    && forall c :: c in SharedOf(w, r).leases && c != r ==> SharedOf(w, r).leases[c] == 0
  }

  lemma LoneLeaseStep(w: World, platform: QueueId, r: RasterId, n: nat)
    requires Inv(w, platform) && LoneLease(w, r, n) && n > 0
    ensures CallerOk(w, platform, Decrement(r)) && ChecksPass(w, Decrement(r)) && IsMerged(w, r)
    ensures Answer(w, r) == if n == 1 then UnmergedNow else RemainsMerged
    ensures var w' := Next(w, Decrement(r)); Inv(w', platform) && LoneLease(w', r, n - 1) && IsMerged(w', r) == (n > 1)
  {
    hide IsForest, IsTidy, InStep, MergersInStep, OnePerQueue, RastersMatch, DecrementPasses, UnmergeSucceeds, Settled;
    var m := SharedOf(w, r);
    assert m.IsMerged();
    LoneDecrement(m, r, n);
    AnswerOf(w, platform, r);
    StepKeepsInv(w, platform, Decrement(r));
  }

  lemma LoneDecrement(m: Shared, r: RasterId, n: nat)
    requires r in m.leases && m.leases[r] == n > 0 && forall c :: c in m.leases && c != r ==> m.leases[c] == 0
    ensures var m' := m.Decremented(r);
            && m'.IsMerged() == (n > 1) && r in m'.leases && m'.leases[r] == n - 1
            && forall c :: c in m'.leases && c != r ==> m'.leases[c] == 0
  {
    var m' := m.Decremented(r);
    if n > 1 { assert m'.leases[r] != 0; }
  }

  /** A merge with a lease of n, on its own, lasts exactly n enabled decrements. */
  lemma {:induction false} LeaseLasts(w: World, platform: QueueId, r: RasterId, n: nat, k: nat)
    requires Inv(w, platform) && LoneLease(w, r, n) && k <= n
    ensures var steps := seq(k, _ => Decrement(r));
            && GoodRun(w, platform, steps)
            && LoneLease(After(w, platform, steps), r, n - k)
    decreases k
  {
    hide Inv, LoneLease, Next, CallerOk, ChecksPass, WellNamed;
    var steps := seq(k, _ => Decrement(r));
    if k > 0 {
      LoneLeaseStep(w, platform, r, n);
      LoneIsKnown(w, r, n);
      LeaseLasts(GoodNext(w, platform, Decrement(r)), platform, r, n - 1, k - 1);
      assert steps[0] == Decrement(r) && steps[1..] == seq(k - 1, _ => Decrement(r));
    }
  }

  /** A lone lease keeps the queues merged exactly while it is positive. */
  lemma LoneLeaseIsMerged(w: World, r: RasterId, n: nat)
    requires LoneLease(w, r, n)
    ensures IsMerged(w, r) <==> n > 0
  {
  }

  lemma LoneIsKnown(w: World, r: RasterId, n: nat)
    requires LoneLease(w, r, n)
    ensures WellNamed(w, Decrement(r))
  {
  }
}
