/** The worker pool of src/fml/concurrent_message_loop.cc as interleaved atomic steps: what runs
    under the mutex is one step, and so is each notification, each task, each wake-up. */
module WorkerPool {
  import opened Wrappers

  type WorkerId = nat
  type Ticket = nat  // names one post of a closure

  /** A closure in a worker's hands: from the shared queue, or its copy of a broadcast. */
  datatype Job = Shared(ticket: Ticket) | Broadcast(ticket: Ticket)

  /** Where a worker is: about to test the wait condition, blocked in the wait, running what it
      took (`last` is the shutdown flag it read under the mutex), or gone. */
  datatype Worker = Ready | Blocked | Executing(hand: seq<Job>, last: bool) | Exited {
    function Hand(): seq<Job> { if Executing? then hand else [] }
  }

  datatype Taken = Taken(worker: WorkerId, ticket: Ticket)

  /** The loop's fields, the workers, the posters between push and notify, and a ledger. */
  datatype Pool = Pool(
    tasks: seq<Ticket>, threadTasks: map<WorkerId, seq<Ticket>>, shutdown: bool,
    workers: seq<Worker>, notifying: nat,
    nextTicket: Ticket, posted: seq<Ticket>, broadcasts: seq<Ticket>, inline: seq<Ticket>,
    taken: seq<Taken>, ran: seq<seq<Job>>, passes: seq<nat>)
  {
    predicate Wakes(w: WorkerId) { tasks != [] || shutdown || w in threadTasks }

    function WithWorker(w: WorkerId, s: Worker): Pool
      requires w < |workers|
    {
      this.(workers := workers[w := s])
    }
  }

  function Start(workerCount: nat): Pool {
    var n := if workerCount < 1 then 1 else workerCount;
    Pool([], map[], false, seq(n, _ => Ready), 0, 0, [], [], [], [], seq(n, _ => []), seq(n, _ => 0))
  }

  /** Every blocked worker becomes ready. */
  function Notified(workers: seq<Worker>): seq<Worker> {
    seq(|workers|, i requires 0 <= i < |workers| => if workers[i].Blocked? then Ready else workers[i])
  }

  datatype Step =
    | Post                            // PostTask up to the unlock
    | Notify(target: Option<WorkerId>) // its notify_one
    | Spurious(w: WorkerId)
    | Wait(w: WorkerId)               // the locked section of WorkerMain
    | Run(w: WorkerId)
    | Finish(w: WorkerId)
    | PostAll
    | Terminate

  predicate Enabled(p: Pool, s: Step) {
    match s
    case Notify(target) =>
      && p.notifying > 0
      && (match target
          case Some(w) => w < |p.workers| && p.workers[w].Blocked?
          case None => forall w :: 0 <= w < |p.workers| ==> !p.workers[w].Blocked?)
    case Spurious(w) => w < |p.workers| && p.workers[w].Blocked?
    case Wait(w) => w < |p.workers| && p.workers[w].Ready? && w < |p.passes|
    case Run(w) => w < |p.workers| && p.workers[w].Executing? && p.workers[w].hand != [] && w < |p.ran|
    case Finish(w) => w < |p.workers| && p.workers[w].Executing? && p.workers[w].hand == []
    case _ => true
  }

  function Broadcasts(tickets: seq<Ticket>): seq<Job> { seq(|tickets|, i requires 0 <= i < |tickets| => Broadcast(tickets[i])) }

  function PendingOf(p: Pool, w: WorkerId): seq<Ticket> { if w in p.threadTasks then p.threadTasks[w] else [] }

  /** The worker takes one shared task, if there is one, and all its own tasks. */
  function Take(p: Pool, w: WorkerId): Pool
    requires w < |p.workers| && w < |p.passes|
  {
    var front := if p.tasks == [] then [] else [Shared(p.tasks[0])];
    p.(tasks := if p.tasks == [] then [] else p.tasks[1..],
       threadTasks := p.threadTasks - {w},
       workers := p.workers[w := Executing(front + Broadcasts(PendingOf(p, w)), p.shutdown)],
       taken := p.taken + if p.tasks == [] then [] else [Taken(w, p.tasks[0])],
       passes := if p.shutdown then p.passes[w := p.passes[w] + 1] else p.passes)
  }

  function Next(p: Pool, s: Step): Pool
    requires Enabled(p, s)
  {
    match s
    case Post =>
      if p.shutdown then p.(nextTicket := p.nextTicket + 1, inline := p.inline + [p.nextTicket])
      else p.(nextTicket := p.nextTicket + 1, tasks := p.tasks + [p.nextTicket], posted := p.posted + [p.nextTicket],
              notifying := p.notifying + 1)
    case Notify(target) =>
      var q := p.(notifying := p.notifying - 1);
      if target.Some? then q.WithWorker(target.value, Ready) else q
    case Spurious(w) => p.WithWorker(w, Ready)
    case Wait(w) => if p.Wakes(w) then Take(p, w) else p.WithWorker(w, Blocked)
    case Run(w) =>
      var hand := p.workers[w].hand;
      p.WithWorker(w, Executing(hand[1..], p.workers[w].last)).(ran := p.ran[w := p.ran[w] + [hand[0]]])
    case Finish(w) => p.WithWorker(w, if p.workers[w].last then Exited else Ready)
    case PostAll =>
      p.(nextTicket := p.nextTicket + 1, broadcasts := p.broadcasts + [p.nextTicket],
         threadTasks := map w: nat | 0 <= w < |p.workers| :: PendingOf(p, w) + [p.nextTicket],
         workers := Notified(p.workers))
    case Terminate => p.(shutdown := true, workers := Notified(p.workers))
  }

  // ----- Invariants

  /** The shared jobs among `jobs`, in order. */
  function Shareds(jobs: seq<Job>): seq<Ticket> {
    if jobs == [] then [] else (if jobs[0].Shared? then [jobs[0].ticket] else []) + Shareds(jobs[1..])
  }

  function OwnCopies(jobs: seq<Job>): seq<Ticket> {
    if jobs == [] then [] else (if jobs[0].Broadcast? then [jobs[0].ticket] else []) + OwnCopies(jobs[1..])
  }

  function TakenBy(taken: seq<Taken>, w: WorkerId): seq<Ticket> {
    if taken == [] then [] else (if taken[0].worker == w then [taken[0].ticket] else []) + TakenBy(taken[1..], w)
  }

  function Tickets(taken: seq<Taken>): seq<Ticket> { seq(|taken|, i requires 0 <= i < |taken| => taken[i].ticket) }

  ghost predicate Increasing(s: seq<nat>) { forall i, j :: 0 <= i < j < |s| ==> s[i] < s[j] }

  ghost predicate Awake(p: Pool) {
    exists w :: 0 <= w < |p.workers| && (p.workers[w].Ready? || p.workers[w].Executing?)
  }

  /** What is known of one worker. */
  ghost predicate WorkerOk(p: Pool, w: WorkerId)
    requires w < |p.workers| && w < |p.passes| && w < |p.ran|
  {
    && (p.workers[w].Blocked? ==> w !in p.threadTasks && !p.shutdown)
    && (p.workers[w].Exited? || (p.workers[w].Executing? && p.workers[w].last) ==> p.shutdown)
    && p.passes[w] == (if p.workers[w].Exited? || (p.workers[w].Executing? && p.workers[w].last) then 1 else 0)
    && Shareds(p.ran[w] + p.workers[w].Hand()) == TakenBy(p.taken, w)
    && OwnCopies(p.ran[w] + p.workers[w].Hand()) + PendingOf(p, w) == p.broadcasts
  }

  /** The fields fit together. */
  ghost predicate Shape(p: Pool) {
    && |p.workers| == |p.ran| == |p.passes| >= 1
    && (forall w :: w in p.threadTasks ==> 0 <= w < |p.workers| && p.threadTasks[w] != [])
    && (forall x :: x in p.taken ==> x.worker < |p.workers|)
  }

  /** A queued task is somebody's business. */
  ghost predicate Busy(p: Pool) { !p.shutdown && p.tasks != [] ==> p.notifying > 0 || Awake(p) }

  ghost predicate WorkersOk(p: Pool)
    requires Shape(p)
  {
    forall w :: 0 <= w < |p.workers| ==> WorkerOk(p, w)
  }

  /** Every ticket handed out went exactly one way, and shared tasks leave the queue in the order they came. */
  ghost predicate Ledger(p: Pool) {
    && Tickets(p.taken) + p.tasks == p.posted
    && Increasing(p.posted) && Increasing(p.broadcasts) && Increasing(p.inline)
    && (forall t :: t in p.posted || t in p.broadcasts || t in p.inline <==> 0 <= t < p.nextTicket)
    && (forall t :: t in p.posted ==> t !in p.broadcasts && t !in p.inline)
    && (forall t :: t in p.broadcasts ==> t !in p.inline)
    && (p.inline != [] ==> p.shutdown)
  }

  ghost predicate Inv(p: Pool) {
    Shape(p) && Busy(p) && WorkersOk(p) && Ledger(p)
  }

  /** A worker blocks exactly when the queue is empty, the pool runs and it has no tasks of its own; otherwise
      it leaves with the head of the queue before its own tasks, all of them. */
  lemma WaitBlocksExactly(p: Pool, w: WorkerId)
    requires Enabled(p, Wait(w))
    ensures var q := Next(p, Wait(w));
      if p.tasks == [] && !p.shutdown && w !in p.threadTasks then q == p.(workers := p.workers[w := Blocked])
      else
        && q.workers[w].Executing? && q.workers[w].last == p.shutdown
        && Shareds(q.workers[w].hand) == p.tasks[..if p.tasks == [] then 0 else 1]
        && OwnCopies(q.workers[w].hand) == (if w in p.threadTasks then p.threadTasks[w] else [])
        && (p.tasks != [] ==> q.workers[w].hand[0] == Shared(p.tasks[0]))
        && q.tasks == p.tasks[if p.tasks == [] then 0 else 1..] && q.threadTasks == p.threadTasks - {w}
  {
    if p.Wakes(w) {
      var own := Broadcasts(PendingOf(p, w));
      var front := if p.tasks == [] then [] else [Shared(p.tasks[0])];
      assert Next(p, Wait(w)).workers[w].hand == front + own;
      OneShared(p);
      BroadcastsAreOwn(PendingOf(p, w));
      SharedsConcat(front, own);
      OwnCopiesConcat(front, own);
      hide Shareds, OwnCopies, Broadcasts;
    }
  }

  /** A notification makes at most one blocked worker ready, and changes nothing else. */
  lemma NotifyWakesOne(p: Pool, target: Option<WorkerId>)
    requires Enabled(p, Notify(target))
    ensures var q := Next(p, Notify(target));
      && q.notifying == p.notifying - 1 && q.tasks == p.tasks && q.threadTasks == p.threadTasks && q.taken == p.taken
      && q.ran == p.ran && |q.workers| == |p.workers|
      && forall w :: 0 <= w < |p.workers| ==>
           if target == Some(w) then p.workers[w].Blocked? && q.workers[w].Ready? else q.workers[w] == p.workers[w]
  {
  }

  // ----- Lists of jobs

  lemma Associates(a: seq<Ticket>, b: seq<Ticket>, c: seq<Ticket>)
    ensures a + (b + c) == a + b + c
  {
  }

  lemma {:induction false} SharedsConcat(a: seq<Job>, b: seq<Job>)
    ensures Shareds(a + b) == Shareds(a) + Shareds(b)
  {
    if a == [] {
      assert a + b == b;
    } else {
      SharedsConcat(a[1..], b);
      assert (a + b)[1..] == a[1..] + b;
      var first := if a[0].Shared? then [a[0].ticket] else [];
      assert Shareds(a + b) == first + Shareds(a[1..] + b);
      assert Shareds(a) == first + Shareds(a[1..]);
      Associates(first, Shareds(a[1..]), Shareds(b));
    }
  }

  lemma {:induction false} OwnCopiesConcat(a: seq<Job>, b: seq<Job>)
    ensures OwnCopies(a + b) == OwnCopies(a) + OwnCopies(b)
  {
    if a == [] {
      assert a + b == b;
    } else {
      OwnCopiesConcat(a[1..], b);
      assert (a + b)[1..] == a[1..] + b;
      var first := if a[0].Broadcast? then [a[0].ticket] else [];
      assert OwnCopies(a + b) == first + OwnCopies(a[1..] + b);
      assert OwnCopies(a) == first + OwnCopies(a[1..]);
      Associates(first, OwnCopies(a[1..]), OwnCopies(b));
    }
  }

  lemma {:induction false} BroadcastsAreOwn(tickets: seq<Ticket>)
    ensures Shareds(Broadcasts(tickets)) == [] && OwnCopies(Broadcasts(tickets)) == tickets
  {
    if tickets != [] {
      BroadcastsAreOwn(tickets[1..]);
      assert Broadcasts(tickets)[1..] == Broadcasts(tickets[1..]);
    }
  }

  lemma {:induction false} TakenByGrows(taken: seq<Taken>, x: Taken, w: WorkerId)
    ensures TakenBy(taken + [x], w) == TakenBy(taken, w) + if x.worker == w then [x.ticket] else []
  {
    if taken == [] {
      assert taken + [x] == [x];
    } else {
      TakenByGrows(taken[1..], x, w);
      assert (taken + [x])[1..] == taken[1..] + [x];
    }
  }

  // ----- Every step keeps the invariant

  lemma StartInv(workerCount: nat)
    ensures Inv(Start(workerCount))
  {
    var p := Start(workerCount);
    forall w | 0 <= w < |p.workers| ensures WorkerOk(p, w) {
      assert p.ran[w] + p.workers[w].Hand() == [];
    }
    assert Tickets(p.taken) + p.tasks == p.posted;
  }

  lemma StepKeepsShape(p: Pool, s: Step)
    requires Shape(p) && Enabled(p, s)
    ensures Shape(Next(p, s)) && |Next(p, s).workers| == |p.workers|
  {
    if s.PostAll? {
      var q := Next(p, s);
      assert forall w :: w in q.threadTasks ==> |q.threadTasks[w]| > 0;
    }
  }

  /** Before shutdown a worker that is not blocked is awake. */
  lemma NotifyFindsAwake(p: Pool)
    requires Shape(p) && WorkersOk(p) && !p.shutdown
    requires forall w :: 0 <= w < |p.workers| ==> !p.workers[w].Blocked?
    ensures Awake(p)
  {
    assert WorkerOk(p, 0);
    assert p.workers[0].Ready? || p.workers[0].Executing?;
  }

  lemma StepKeepsBusy(p: Pool, s: Step)
    requires Inv(p) && Enabled(p, s)
    ensures Busy(Next(p, s))
  {
    hide Ledger, Tickets, TakenBy, Shareds, OwnCopies, Broadcasts, PendingOf, Increasing;
    var q := Next(p, s);
    match s
    case Post =>
    case Notify(target) =>
      if target.Some? {
        assert q.workers[target.value].Ready?;
      } else if !p.shutdown {
        NotifyFindsAwake(p);
        assert q.workers == p.workers;
        var w :| 0 <= w < |p.workers| && (p.workers[w].Ready? || p.workers[w].Executing?);
        assert q.workers[w].Ready? || q.workers[w].Executing?;
      }
    case Spurious(w) => assert q.workers[w].Ready?;
    case Wait(w) => if p.Wakes(w) { assert q.workers[w].Executing?; }
    case Run(w) => assert q.workers[w].Executing?;
    case Finish(w) =>
      assert WorkerOk(p, w);
      if !p.workers[w].last { assert q.workers[w].Ready?; }
    case PostAll => assert q.workers[0].Ready? || q.workers[0].Executing? || q.workers[0].Exited? by { assert q.workers == Notified(p.workers); }
      assert WorkerOk(p, 0);
    case Terminate =>
  }

  /** What the worker holds after it took its work. */
  lemma TakeAccounts(p: Pool, w: WorkerId)
    requires Shape(p) && WorkersOk(p) && w < |p.workers| && p.workers[w].Ready?
    ensures var q := Take(p, w);
      && Shareds(q.ran[w] + q.workers[w].Hand()) == TakenBy(q.taken, w)
      && OwnCopies(q.ran[w] + q.workers[w].Hand()) + PendingOf(q, w) == q.broadcasts
  {
    hide *;
    var own := Broadcasts(PendingOf(p, w));
    var front := if p.tasks == [] then [] else [Shared(p.tasks[0])];
    TakeHand(p, w);
    OneShared(p);
    ReadyAccounts(p, w);
    BroadcastsAreOwn(PendingOf(p, w));
    SharedsConcat(p.ran[w], front + own);
    SharedsConcat(front, own);
    OwnCopiesConcat(p.ran[w], front + own);
    OwnCopiesConcat(front, own);
    if p.tasks != [] {
      TakenByGrows(p.taken, Taken(w, p.tasks[0]), w);
    } else {
      assert p.taken + [] == p.taken;
    }
  }

  lemma TakeHand(p: Pool, w: WorkerId)
    requires Shape(p) && w < |p.workers|
    ensures var q := Take(p, w);
      && q.ran == p.ran && q.broadcasts == p.broadcasts && PendingOf(q, w) == []
      && |q.workers| == |q.ran| == |p.workers|
      && q.workers[w].Hand() == (if p.tasks == [] then [] else [Shared(p.tasks[0])]) + Broadcasts(PendingOf(p, w))
      && q.taken == p.taken + (if p.tasks == [] then [] else [Taken(w, p.tasks[0])])
  {
  }

  lemma OneShared(p: Pool)
    ensures p.tasks != [] ==> Shareds([Shared(p.tasks[0])]) == [p.tasks[0]] && OwnCopies([Shared(p.tasks[0])]) == []
    ensures Shareds([]) == [] && OwnCopies([]) == []
  {
  }

  lemma ReadyAccounts(p: Pool, w: WorkerId)
    requires Shape(p) && WorkersOk(p) && w < |p.workers| && p.workers[w].Ready?
    ensures Shareds(p.ran[w]) == TakenBy(p.taken, w)
    ensures OwnCopies(p.ran[w]) + PendingOf(p, w) == p.broadcasts
  {
    assert WorkerOk(p, w);
    assert p.ran[w] + p.workers[w].Hand() == p.ran[w];
  }

  /** A worker no step touched. */
  lemma OtherTakes(p: Pool, w: WorkerId, v: WorkerId)
    requires Shape(p) && w < |p.workers| && v < |p.workers| && v != w && WorkerOk(p, v)
    ensures Shape(Take(p, w)) && WorkerOk(Take(p, w), v)
  {
    hide Shareds, OwnCopies, TakenBy, Broadcasts;
    if p.tasks != [] {
      TakenByGrows(p.taken, Taken(w, p.tasks[0]), v);
    } else {
      assert p.taken + [] == p.taken;
    }
  }

  lemma TakeKeepsWorkers(p: Pool, w: WorkerId)
    requires Shape(p) && WorkersOk(p) && w < |p.workers| && p.workers[w].Ready?
    ensures Shape(Take(p, w)) && WorkersOk(Take(p, w))
  {
    hide Shareds, OwnCopies, TakenBy, Broadcasts;
    assert WorkerOk(p, w);
    TakeAccounts(p, w);
    forall v | 0 <= v < |p.workers| && v != w ensures WorkerOk(Take(p, w), v) {
      OtherTakes(p, w, v);
    }
  }

  lemma RunKeepsWorkers(p: Pool, w: WorkerId)
    requires Shape(p) && WorkersOk(p) && Enabled(p, Run(w))
    ensures Shape(Next(p, Run(w))) && WorkersOk(Next(p, Run(w)))
  {
    hide Shareds, OwnCopies, TakenBy, Broadcasts;
    var q := Next(p, Run(w));
    var hand := p.workers[w].hand;
    assert p.ran[w] + hand == (p.ran[w] + [hand[0]]) + hand[1..];
    forall v | 0 <= v < |p.workers| ensures WorkerOk(q, v) {
      assert WorkerOk(p, v);
    }
  }

  lemma PostAllKeepsWorkers(p: Pool)
    requires Shape(p) && WorkersOk(p)
    ensures Shape(Next(p, PostAll)) && WorkersOk(Next(p, PostAll))
  {
    StepKeepsShape(p, PostAll);
    hide Shareds, OwnCopies, TakenBy, Broadcasts;
    var q := Next(p, PostAll);
    forall v | 0 <= v < |p.workers| ensures WorkerOk(q, v) {
      assert WorkerOk(p, v);
      assert PendingOf(q, v) == PendingOf(p, v) + [p.nextTicket];
      assert q.workers[v].Hand() == p.workers[v].Hand();
      assert OwnCopies(p.ran[v] + p.workers[v].Hand()) + (PendingOf(p, v) + [p.nextTicket])
          == (OwnCopies(p.ran[v] + p.workers[v].Hand()) + PendingOf(p, v)) + [p.nextTicket];
    }
  }

  lemma SwitchKeepsWorkers(p: Pool, s: Step)
    requires Shape(p) && WorkersOk(p) && Enabled(p, s)
    requires s.Post? || s.Notify? || s.Spurious? || s.Finish? || s.Terminate? || (s.Wait? && !p.Wakes(s.w))
    ensures Shape(Next(p, s)) && WorkersOk(Next(p, s))
  {
    hide Shareds, OwnCopies, TakenBy, Broadcasts;
    var q := Next(p, s);
    forall v | 0 <= v < |p.workers| ensures WorkerOk(q, v) {
      assert WorkerOk(p, v);
      assert q.workers[v].Hand() == p.workers[v].Hand();
    }
  }

  lemma StepKeepsWorkers(p: Pool, s: Step)
    requires Shape(p) && WorkersOk(p) && Enabled(p, s)
    ensures Shape(Next(p, s)) && WorkersOk(Next(p, s))
  {
    hide WorkersOk, Take;
    match s
    case Wait(w) => if p.Wakes(w) { TakeKeepsWorkers(p, w); } else { SwitchKeepsWorkers(p, s); }
    case Run(w) => RunKeepsWorkers(p, w);
    case PostAll => PostAllKeepsWorkers(p);
    case _ => SwitchKeepsWorkers(p, s);
  }

  lemma PostKeepsLedger(p: Pool)
    requires Ledger(p)
    ensures Ledger(Next(p, Post)) && Ledger(Next(p, PostAll))
  {
    assert p.nextTicket !in p.posted + p.broadcasts + p.inline;
    assert Tickets(p.taken) + (p.tasks + [p.nextTicket]) == (Tickets(p.taken) + p.tasks) + [p.nextTicket];
    IncreasingGrows(p.posted, p.nextTicket);
    IncreasingGrows(p.broadcasts, p.nextTicket);
    IncreasingGrows(p.inline, p.nextTicket);
    hide Increasing, Tickets;
  }

  lemma IncreasingGrows(s: seq<nat>, t: nat)
    requires Increasing(s) && forall x :: x in s ==> x < t
    ensures Increasing(s + [t])
  {
    forall i, j | 0 <= i < j < |s + [t]| ensures (s + [t])[i] < (s + [t])[j] {
      assert s[i] in s;
    }
  }

  lemma TakeKeepsLedger(p: Pool, w: WorkerId)
    requires Ledger(p) && w < |p.workers| && w < |p.passes|
    ensures Ledger(Take(p, w))
  {
    var q := Take(p, w);
    assert Tickets(q.taken) + q.tasks == Tickets(p.taken) + p.tasks;
    assert q.posted == p.posted && q.broadcasts == p.broadcasts && q.inline == p.inline;
    hide Increasing, Tickets, Broadcasts, PendingOf;
  }

  lemma StepKeepsLedger(p: Pool, s: Step)
    requires Ledger(p) && Enabled(p, s)
    ensures Ledger(Next(p, s))
  {
    hide Increasing, Tickets, Take;
    match s
    case Post => PostKeepsLedger(p);
    case PostAll => PostKeepsLedger(p);
    case Wait(w) => TakeKeepsLedger(p, w);
    case _ =>
  }

  lemma StepKeepsInv(p: Pool, s: Step)
    requires Inv(p) && Enabled(p, s)
    ensures Inv(Next(p, s))
  {
    hide Next, Busy, WorkersOk, Ledger, Shape;
    StepKeepsBusy(p, s);
    StepKeepsWorkers(p, s);
    StepKeepsLedger(p, s);
  }
}
