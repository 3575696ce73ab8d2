/** What every interleaving of the worker pool keeps. */
module PoolRuns {
  import opened Wrappers
  import opened WorkerPool

  ghost predicate GoodRun(p: Pool, steps: seq<Step>)
    decreases |steps|
  {
    steps == [] || (Enabled(p, steps[0]) && GoodRun(Next(p, steps[0]), steps[1..]))
  }

  function After(p: Pool, steps: seq<Step>): Pool
    requires GoodRun(p, steps)
    decreases |steps|
  {
    if steps == [] then p else After(Next(p, steps[0]), steps[1..])
  }

  lemma {:induction false} RunKeepsInv(p: Pool, steps: seq<Step>)
    requires Inv(p) && GoodRun(p, steps)
    ensures Inv(After(p, steps)) && |After(p, steps).workers| == |p.workers|
    decreases |steps|
  {
    hide Inv, Next;
    if steps != [] {
      StepKeepsInv(p, steps[0]);
      StepKeepsCount(p, steps[0]);
      RunKeepsInv(Next(p, steps[0]), steps[1..]);
    }
  }

  lemma StepKeepsCount(p: Pool, s: Step)
    requires Inv(p) && Enabled(p, s)
    ensures |Next(p, s).workers| == |p.workers|
  {
    hide Busy, WorkersOk, Ledger;
    StepKeepsShape(p, s);
  }

  /** In no interleaving is there a queued task, every worker blocked and no poster about to
      notify; and a worker with tasks of its own is never blocked. */
  lemma NoStuckPool(workerCount: nat, steps: seq<Step>)
    requires GoodRun(Start(workerCount), steps)
    ensures var p := After(Start(workerCount), steps);
      && |p.workers| == (if workerCount < 1 then 1 else workerCount)
      && (!p.shutdown && p.tasks != [] && p.notifying == 0 ==>
            exists w :: 0 <= w < |p.workers| && (p.workers[w].Ready? || p.workers[w].Executing?))
      && (forall w :: 0 <= w < |p.workers| && w in p.threadTasks ==> !p.workers[w].Blocked?)
  {
    StartInv(workerCount);
    RunKeepsInv(Start(workerCount), steps);
    var p := After(Start(workerCount), steps);
    forall w | 0 <= w < |p.workers| && w in p.threadTasks ensures !p.workers[w].Blocked? {
      assert WorkerOk(p, w);
    }
  }

  /** Once Terminate has run, whatever happens next: no worker is ever blocked, and each passes
      the wait at most once. */
  lemma TerminatedPoolLeaves(workerCount: nat, before: seq<Step>, after: seq<Step>)
    requires GoodRun(Start(workerCount), before)
    requires GoodRun(Next(After(Start(workerCount), before), Terminate), after)
    ensures var p := Next(After(Start(workerCount), before), Terminate);
      && Inv(p)
      && var q := After(p, after);
      && q.shutdown && |q.passes| == |q.workers| == |p.workers|
      && (forall w :: 0 <= w < |q.workers| ==> !q.workers[w].Blocked? && q.passes[w] <= 1 && Waits(after, w) <= 1)
  {
    StartInv(workerCount);
    RunKeepsInv(Start(workerCount), before);
    var p := After(Start(workerCount), before);
    StepKeepsInv(p, Terminate);
    var q := Next(p, Terminate);
    RunKeepsInv(q, after);
    ShutdownLasts(q, after);
    var r := After(q, after);
    forall w | 0 <= w < |r.workers| ensures !r.workers[w].Blocked? && r.passes[w] <= 1 && Waits(after, w) <= 1 {
      assert WorkerOk(r, w);
      PassesCountWaits(q, after, w);
    }
  }

  /** How often worker w goes through the locked section in a run. */
  function Waits(steps: seq<Step>, w: WorkerId): nat {
    if steps == [] then 0 else (if steps[0] == Wait(w) then 1 else 0) + Waits(steps[1..], w)
  }

  /** After shutdown no test of the wait condition blocks, so each counts as a pass. */
  lemma {:induction false} PassesCountWaits(p: Pool, steps: seq<Step>, w: WorkerId)
    requires Inv(p) && p.shutdown && GoodRun(p, steps) && w < |p.workers|
    ensures var q := After(p, steps);
      w < |p.passes| && w < |q.passes| && q.passes[w] == p.passes[w] + Waits(steps, w)
    decreases |steps|
  {
    if steps != [] {
      StepKeepsInv(p, steps[0]);
      StepKeepsCount(p, steps[0]);
      StepKeepsShutdown(p, steps[0]);
      StepPasses(p, steps[0], w);
      hide Inv, Next;
      PassesCountWaits(Next(p, steps[0]), steps[1..], w);
    }
  }

  lemma StepPasses(p: Pool, s: Step, w: WorkerId)
    requires Shape(p) && p.shutdown && Enabled(p, s) && w < |p.workers|
    ensures |Next(p, s).passes| == |p.passes| > w
    ensures Next(p, s).passes[w] == p.passes[w] + if s == Wait(w) then 1 else 0
  {
  }

  lemma {:induction false} ShutdownLasts(p: Pool, steps: seq<Step>)
    requires p.shutdown && GoodRun(p, steps)
    ensures After(p, steps).shutdown
    decreases |steps|
  {
    if steps != [] {
      StepKeepsShutdown(p, steps[0]);
      hide Next;
      ShutdownLasts(Next(p, steps[0]), steps[1..]);
    }
  }

  lemma StepKeepsShutdown(p: Pool, s: Step)
    requires Enabled(p, s)
    ensures p.shutdown ==> Next(p, s).shutdown
  {
  }

  // ----- A queued task can always be taken

  predicate ByWorkers(steps: seq<Step>) {
    forall i :: 0 <= i < |steps| ==> steps[i].Notify? || steps[i].Wait? || steps[i].Run? || steps[i].Finish?
  }

  lemma {:induction false} RunsJoin(p: Pool, a: seq<Step>, b: seq<Step>)
    requires GoodRun(p, a) && GoodRun(After(p, a), b)
    ensures GoodRun(p, a + b) && After(p, a + b) == After(After(p, a), b)
    decreases |a|
  {
    hide Next, Enabled;
    if a == [] {
      assert a + b == b;
    } else {
      RunsJoin(Next(p, a[0]), a[1..], b);
      assert (a + b)[1..] == a[1..] + b;
    }
  }

  /** A worker that is awake empties its hands and comes back for the head of the queue. */
  lemma {:induction false} AwakeTakesHead(p: Pool, w: WorkerId) returns (steps: seq<Step>)
    requires Inv(p) && !p.shutdown && p.tasks != []
    requires w < |p.workers| && (p.workers[w].Ready? || p.workers[w].Executing?)
    ensures ByWorkers(steps) && GoodRun(p, steps)
    ensures var q := After(p, steps); q.tasks == p.tasks[1..] && q.taken == p.taken + [Taken(w, p.tasks[0])] && !q.shutdown
    decreases if p.workers[w].Ready? then 0 else 1 + |p.workers[w].hand|
  {
    hide Busy, Ledger, TakenBy, Shareds, OwnCopies, Broadcasts;
    assert WorkerOk(p, w);
    var s := if p.workers[w].Ready? then Wait(w) else if p.workers[w].hand == [] then Finish(w) else Run(w);
    if p.workers[w].Ready? {
      steps := [s];
      assert GoodRun(Next(p, s), []);
    } else {
      StepKeepsInv(p, s);
      var rest := AwakeTakesHead(Next(p, s), w);
      steps := [s] + rest;
      assert steps[1..] == rest;
    }
  }

  /** Before shutdown the head of the queue can always be taken by steps of the workers and of
      posters that have already pushed: nobody has to post again to get it moving. */
  lemma HeadCanBeTaken(p: Pool) returns (steps: seq<Step>, w: WorkerId)
    requires Inv(p) && !p.shutdown && p.tasks != []
    ensures ByWorkers(steps) && GoodRun(p, steps)
    ensures var q := After(p, steps); q.tasks == p.tasks[1..] && q.taken == p.taken + [Taken(w, p.tasks[0])] && !q.shutdown
  {
    hide Ledger, WorkersOk, After, GoodRun, ByWorkers;
    if Awake(p) {
      w :| 0 <= w < |p.workers| && (p.workers[w].Ready? || p.workers[w].Executing?);
      steps := AwakeTakesHead(p, w);
    } else {
      steps, w := NotifiedTakesHead(p);
    }
  }

  lemma NotifiedTakesHead(p: Pool) returns (steps: seq<Step>, w: WorkerId)
    requires Inv(p) && !p.shutdown && p.tasks != [] && !Awake(p)
    ensures ByWorkers(steps) && GoodRun(p, steps)
    ensures var q := After(p, steps); q.tasks == p.tasks[1..] && q.taken == p.taken + [Taken(w, p.tasks[0])] && !q.shutdown
  {
    hide Ledger, TakenBy, Shareds, OwnCopies, Broadcasts;
    w := 0;
    assert WorkerOk(p, w);
    assert !(p.workers[w].Ready? || p.workers[w].Executing?);
    var s := Notify(Some(w));
    StepKeepsInv(p, s);
    var rest := AwakeTakesHead(Next(p, s), w);
    steps := [s] + rest;
    assert steps[1..] == rest;
  }

  /** So, left alone, the pool can run its queue dry, in the order the tasks were posted. */
  lemma {:induction false} QueueCanDrain(p: Pool) returns (steps: seq<Step>)
    requires Inv(p) && !p.shutdown
    ensures ByWorkers(steps) && GoodRun(p, steps)
    ensures After(p, steps).tasks == [] && Tickets(After(p, steps).taken) == p.posted
    decreases |p.tasks|
  {
    if p.tasks == [] {
      steps := [];
      assert Tickets(p.taken) + [] == Tickets(p.taken);
    } else {
      hide Inv, Next, Enabled;
      var first, w := HeadCanBeTaken(p);
      RunKeepsInv(p, first);
      var rest := QueueCanDrain(After(p, first));
      RunsJoin(p, first, rest);
      steps := first + rest;
      SamePosted(p, After(p, first), w);
    }
  }

  lemma SamePosted(p: Pool, q: Pool, w: WorkerId)
    requires Inv(p) && Inv(q) && p.tasks != []
    requires q.tasks == p.tasks[1..] && q.taken == p.taken + [Taken(w, p.tasks[0])]
    ensures q.posted == p.posted
  {
    hide Shape, Busy, WorkersOk;
    assert Tickets(q.taken) == Tickets(p.taken) + [p.tasks[0]];
    assert Tickets(q.taken) + q.tasks == Tickets(p.taken) + ([p.tasks[0]] + q.tasks);
    assert [p.tasks[0]] + q.tasks == p.tasks;
  }

  // ----- Every closure runs at most once

  lemma {:induction false} InShareds(jobs: seq<Job>, t: Ticket)
    ensures t in Shareds(jobs) <==> Shared(t) in jobs
  {
    if jobs != [] {
      InShareds(jobs[1..], t);
      assert jobs == [jobs[0]] + jobs[1..];
    }
  }

  lemma {:induction false} InOwnCopies(jobs: seq<Job>, t: Ticket)
    ensures t in OwnCopies(jobs) <==> Broadcast(t) in jobs
  {
    if jobs != [] {
      InOwnCopies(jobs[1..], t);
      assert jobs == [jobs[0]] + jobs[1..];
    }
  }

  lemma {:induction false} InTakenBy(taken: seq<Taken>, w: WorkerId, t: Ticket)
    ensures t in TakenBy(taken, w) <==> Taken(w, t) in taken
  {
    if taken != [] {
      InTakenBy(taken[1..], w, t);
      assert taken == [taken[0]] + taken[1..];
    }
  }

  lemma IncreasingTail(x: nat, s: seq<nat>)
    requires Increasing([x] + s)
    ensures Increasing(s) && x !in s
  {
    forall i, j | 0 <= i < j < |s| ensures s[i] < s[j] {
      assert ([x] + s)[i + 1] < ([x] + s)[j + 1];
    }
    forall j | 0 <= j < |s| ensures x < s[j] {
      assert ([x] + s)[0] < ([x] + s)[j + 1];
    }
  }

  lemma {:induction false} SharedsUnique(jobs: seq<Job>, i: nat, j: nat)
    requires Increasing(Shareds(jobs)) && i < j < |jobs| && jobs[i].Shared?
    ensures jobs[i] != jobs[j]
  {
    if jobs[0].Shared? {
      IncreasingTail(jobs[0].ticket, Shareds(jobs[1..]));
    } else {
      assert Shareds(jobs) == Shareds(jobs[1..]);
    }
    if i == 0 {
      InShareds(jobs[1..], jobs[0].ticket);
      assert jobs[j] in jobs[1..];
    } else {
      SharedsUnique(jobs[1..], i - 1, j - 1);
    }
  }

  lemma {:induction false} OwnCopiesUnique(jobs: seq<Job>, i: nat, j: nat)
    requires Increasing(OwnCopies(jobs)) && i < j < |jobs| && jobs[i].Broadcast?
    ensures jobs[i] != jobs[j]
  {
    if jobs[0].Broadcast? {
      IncreasingTail(jobs[0].ticket, OwnCopies(jobs[1..]));
    } else {
      assert OwnCopies(jobs) == OwnCopies(jobs[1..]);
    }
    if i == 0 {
      InOwnCopies(jobs[1..], jobs[0].ticket);
      assert jobs[j] in jobs[1..];
    } else {
      OwnCopiesUnique(jobs[1..], i - 1, j - 1);
    }
  }

  lemma IncreasingParts(a: seq<nat>, b: seq<nat>)
    requires Increasing(a + b)
    ensures Increasing(a) && Increasing(b) && forall x :: x in a ==> x !in b
  {
    forall i, j | 0 <= i < j < |b| ensures b[i] < b[j] {
      assert (a + b)[|a| + i] < (a + b)[|a| + j];
    }
    forall i, j | 0 <= i < j < |a| ensures a[i] < a[j] {
      assert (a + b)[i] < (a + b)[j];
    }
    forall i, j | 0 <= i < |a| && 0 <= j < |b| ensures a[i] < b[j] {
      assert (a + b)[i] < (a + b)[|a| + j];
    }
  }

  lemma {:induction false} TakenByIncreasing(taken: seq<Taken>, w: WorkerId)
    requires Increasing(Tickets(taken))
    ensures Increasing(TakenBy(taken, w))
    ensures forall x :: x in TakenBy(taken, w) ==> x in Tickets(taken)
  {
    if taken != [] {
      assert Tickets(taken) == [taken[0].ticket] + Tickets(taken[1..]);
      IncreasingTail(taken[0].ticket, Tickets(taken[1..]));
      TakenByIncreasing(taken[1..], w);
      if taken[0].worker == w {
        TicketsBelow(taken[0].ticket, Tickets(taken[1..]));
        IncreasingCons(taken[0].ticket, TakenBy(taken[1..], w));
      }
    }
  }

  lemma TicketsBelow(x: nat, s: seq<nat>)
    requires Increasing([x] + s)
    ensures forall y :: y in s ==> x < y
  {
    forall j | 0 <= j < |s| ensures x < s[j] {
      assert ([x] + s)[0] < ([x] + s)[j + 1];
    }
  }

  lemma IncreasingCons(x: nat, s: seq<nat>)
    requires Increasing(s) && forall y :: y in s ==> x < y
    ensures Increasing([x] + s)
  {
    forall i, j | 0 <= i < j < |[x] + s| ensures ([x] + s)[i] < ([x] + s)[j] {
      assert s[j - 1] in s;
    }
  }

  lemma TakenOnce(taken: seq<Taken>, w: WorkerId, v: WorkerId, t: Ticket)
    requires Increasing(Tickets(taken)) && Taken(w, t) in taken && Taken(v, t) in taken
    ensures w == v
  {
    var i :| 0 <= i < |taken| && taken[i] == Taken(w, t);
    var j :| 0 <= j < |taken| && taken[j] == Taken(v, t);
    assert Tickets(taken)[i] == Tickets(taken)[j];
  }

  /** All that worker w ever took from the shared queue or got by broadcast. */
  function Got(p: Pool, w: WorkerId): seq<Job>
    requires w < |p.workers| && w < |p.ran|
  {
    p.ran[w] + p.workers[w].Hand()
  }

  lemma SharedsOfWorker(p: Pool, w: WorkerId)
    requires Inv(p) && w < |p.workers|
    ensures Shareds(Got(p, w)) == TakenBy(p.taken, w) && Increasing(Shareds(Got(p, w)))
  {
    hide Busy, TakenBy, Shareds, OwnCopies, Increasing;
    assert WorkerOk(p, w);
    IncreasingParts(Tickets(p.taken), p.tasks);
    TakenByIncreasing(p.taken, w);
  }

  /** A shared closure that two workers, or one worker twice, would run: there is none. */
  lemma SharedRunsOnce(p: Pool, w: WorkerId, i: nat, v: WorkerId, j: nat)
    requires Inv(p) && w < |p.workers| && v < |p.workers|
    requires i < |Got(p, w)| && j < |Got(p, v)| && Got(p, w)[i].Shared? && Got(p, w)[i] == Got(p, v)[j]
    ensures w == v && i == j
  {
    hide Busy, WorkersOk, TakenBy, Shareds, OwnCopies, Increasing, Got;
    var t := Got(p, w)[i].ticket;
    SharedsOfWorker(p, w);
    SharedsOfWorker(p, v);
    InShareds(Got(p, w), t);
    InShareds(Got(p, v), t);
    InTakenBy(p.taken, w, t);
    InTakenBy(p.taken, v, t);
    IncreasingParts(Tickets(p.taken), p.tasks);
    TakenOnce(p.taken, w, v, t);
    if i < j {
      SharedsUnique(Got(p, w), i, j);
    } else if j < i {
      SharedsUnique(Got(p, w), j, i);
    }
  }

  /** A broadcast reaches every worker once, in posting order: what it has run, holds and has
      pending is exactly the list of broadcasts, each at one place. */
  lemma BroadcastsReachEveryWorker(p: Pool, w: WorkerId)
    requires Inv(p) && w < |p.workers|
    ensures OwnCopies(Got(p, w)) + PendingOf(p, w) == p.broadcasts
    ensures forall i, j :: 0 <= i < j < |Got(p, w)| && Got(p, w)[i].Broadcast? ==> Got(p, w)[i] != Got(p, w)[j]
  {
    hide Busy, TakenBy, Shareds, OwnCopies, Increasing;
    assert WorkerOk(p, w);
    IncreasingParts(OwnCopies(Got(p, w)), PendingOf(p, w));
    forall i, j | 0 <= i < j < |Got(p, w)| && Got(p, w)[i].Broadcast? ensures Got(p, w)[i] != Got(p, w)[j] {
      OwnCopiesUnique(Got(p, w), i, j);
    }
  }

  ghost predicate InHand(p: Pool, t: Ticket) {
    exists w :: 0 <= w < |p.workers| && Shared(t) in p.workers[w].Hand()
  }

  ghost predicate Executed(p: Pool, t: Ticket) {
    exists w :: 0 <= w < |p.ran| && Shared(t) in p.ran[w]
  }

  lemma HandAndRan(p: Pool, t: Ticket)
    requires Inv(p)
    ensures InHand(p, t) || Executed(p, t) <==> t in Tickets(p.taken)
  {
    hide Busy, Ledger, WorkersOk, TakenBy, Shareds, OwnCopies, Increasing;
    if InHand(p, t) || Executed(p, t) {
      var w :| 0 <= w < |p.workers| && (Shared(t) in p.workers[w].Hand() || Shared(t) in p.ran[w]);
      GotIsTaken(p, w, t);
      var k :| 0 <= k < |p.taken| && p.taken[k] == Taken(w, t);
      assert Tickets(p.taken)[k] == t;
    }
    if t in Tickets(p.taken) {
      var k :| 0 <= k < |p.taken| && Tickets(p.taken)[k] == t;
      assert p.taken[k] in p.taken;
      assert p.taken[k].worker < |p.workers|;
      GotIsTaken(p, p.taken[k].worker, t);
    }
  }

  lemma GotIsTaken(p: Pool, w: WorkerId, t: Ticket)
    requires Inv(p) && w < |p.workers|
    ensures Shared(t) in p.workers[w].Hand() || Shared(t) in p.ran[w] <==> Taken(w, t) in p.taken
  {
    hide Busy, Ledger, WorkersOk, TakenBy, Shareds, OwnCopies, Increasing;
    SharedsOfWorker(p, w);
    InShareds(Got(p, w), t);
    InTakenBy(p.taken, w, t);
  }

  lemma NeverInHandAndExecuted(p: Pool, t: Ticket)
    requires Inv(p)
    ensures !(InHand(p, t) && Executed(p, t))
  {
    hide Busy, Ledger, WorkersOk, TakenBy, Shareds, OwnCopies, Increasing;
    if InHand(p, t) && Executed(p, t) {
      var w :| 0 <= w < |p.workers| && Shared(t) in p.workers[w].Hand();
      var v :| 0 <= v < |p.ran| && Shared(t) in p.ran[v];
      var i :| 0 <= i < |p.workers[w].Hand()| && p.workers[w].Hand()[i] == Shared(t);
      var j :| 0 <= j < |p.ran[v]| && p.ran[v][j] == Shared(t);
      SharedRunsOnce(p, w, |p.ran[w]| + i, v, j);
    }
  }

  /** Every closure ever posted went exactly one way: run by its poster (only after shutdown), or
      broadcast, or through the queue, where it is waiting, or in one worker's hands, or executed. */
  lemma EveryPostAccounted(p: Pool, t: Ticket)
    requires Inv(p)
    ensures t < p.nextTicket <==> t in p.inline || t in p.broadcasts || t in p.tasks || InHand(p, t) || Executed(p, t)
    ensures t in p.inline ==> p.shutdown && t !in p.broadcasts
    ensures t in p.tasks || InHand(p, t) || Executed(p, t) ==> t !in p.inline && t !in p.broadcasts
    ensures t in p.tasks ==> !InHand(p, t) && !Executed(p, t)
    ensures !(InHand(p, t) && Executed(p, t))
    ensures Tickets(p.taken) <= p.posted
  {
    hide Busy, Shape, WorkersOk, InHand, Executed, Increasing, Tickets;
    HandAndRan(p, t);
    NeverInHandAndExecuted(p, t);
    IncreasingParts(Tickets(p.taken), p.tasks);
    assert t in p.posted <==> t in Tickets(p.taken) || t in p.tasks;
  }

  // ----- After shutdown every worker can leave

  /** The phases a worker has to go through before it is gone. */
  function Phase(s: Worker): nat {
    match s
    case Exited => 0
    case Executing(_, last) => if last then 1 else 3
    case _ => 2
  }

  /** By its own steps alone a worker leaves; the others stay where they are. */
  lemma {:induction false} WorkerCanLeave(p: Pool, w: WorkerId) returns (steps: seq<Step>)
    requires Inv(p) && p.shutdown && w < |p.workers|
    ensures ByWorkers(steps) && GoodRun(p, steps)
    ensures var q := After(p, steps); q.shutdown && q.workers == p.workers[w := Exited]
    decreases Phase(p.workers[w]), |p.workers[w].Hand()|
  {
    hide Busy, Ledger, TakenBy, Shareds, OwnCopies, Broadcasts;
    assert WorkerOk(p, w);
    if p.workers[w].Exited? {
      steps := [];
    } else {
      var s := if p.workers[w].Ready? then Wait(w) else if p.workers[w].hand == [] then Finish(w) else Run(w);
      StepKeepsInv(p, s);
      var rest := WorkerCanLeave(Next(p, s), w);
      steps := [s] + rest;
      assert steps[1..] == rest;
    }
  }

  /** So once Terminate has run the pool can always come to an end, every worker gone. */
  lemma {:induction false} WorkersCanLeave(p: Pool, k: nat) returns (steps: seq<Step>)
    requires Inv(p) && p.shutdown && k <= |p.workers|
    ensures ByWorkers(steps) && GoodRun(p, steps)
    ensures var q := After(p, steps);
      && Inv(q) && q.shutdown && |q.workers| == |p.workers|
      && forall w :: 0 <= w < k ==> q.workers[w].Exited?
    decreases k
  {
    if k == 0 {
      steps := [];
    } else {
      hide Inv, Next, Enabled;
      var first := WorkersCanLeave(p, k - 1);
      var q := After(p, first);
      var last := WorkerCanLeave(q, k - 1);
      RunKeepsInv(q, last);
      RunsJoin(p, first, last);
      steps := first + last;
    }
  }

  /** And before it nobody leaves. */
  lemma NobodyLeavesEarly(workerCount: nat, steps: seq<Step>)
    requires GoodRun(Start(workerCount), steps)
    ensures var p := After(Start(workerCount), steps);
      !p.shutdown ==> forall w :: 0 <= w < |p.workers| ==> !p.workers[w].Exited?
  {
    StartInv(workerCount);
    RunKeepsInv(Start(workerCount), steps);
    var p := After(Start(workerCount), steps);
    forall w | !p.shutdown && 0 <= w < |p.workers| ensures !p.workers[w].Exited? {
      assert WorkerOk(p, w);
    }
  }
}
