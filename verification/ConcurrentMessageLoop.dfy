/** src/fml/concurrent_message_loop.cc: the object whose locked sections are the pool's steps. */
module ConcurrentMessageLoops {
  import opened Wrappers
  import opened WorkerPool

  class ConcurrentMessageLoop {
    const workerCount: nat
    var tasks: seq<Ticket>
    var threadTasks: map<WorkerId, seq<Ticket>>
    var shutdown: bool
    var nextTicket: Ticket  // names the closures; the original holds the closures themselves
    ghost var pool: Pool

    ghost predicate Valid()
      reads this
    {
      && Inv(pool) && |pool.workers| == workerCount
      && pool.tasks == tasks && pool.threadTasks == threadTasks && pool.shutdown == shutdown
      && pool.nextTicket == nextTicket
    }

    constructor (count: nat)
      ensures Valid() && pool == Start(count) && workerCount >= 1
    {
      workerCount := if count < 1 then 1 else count;
      tasks, threadTasks, shutdown, nextTicket := [], map[], false, 0;
      pool := Start(count);
      StartInv(count);
    }

    /** PostTask up to the unlock: the closure goes into the queue, and the poster still has to
        notify; or, after shutdown, to the caller. */
    method PostTask() returns (ticket: Ticket, queued: bool)
      requires Valid()
      modifies this
      ensures Valid() && pool == Next(old(pool), Post)
      ensures ticket == old(pool).nextTicket && queued == !old(shutdown)
      ensures tasks == old(tasks) + if queued then [ticket] else []
      ensures queued ==> pool.notifying == old(pool).notifying + 1
    {
      hide Inv;
      StepKeepsInv(pool, Post);
      ticket, queued := nextTicket, !shutdown;
      nextTicket := nextTicket + 1;
      pool := Next(pool, Post);
      if shutdown {
        return;
      }
      tasks := tasks + [ticket];
    }

    function HasThreadTasksLocked(w: WorkerId): (has: bool)
      requires Valid()
      reads this
      ensures has <==> PendingOf(pool, w) != []
    {
      w in threadTasks
    }

    method GetThreadTasksLocked(w: WorkerId) returns (pending: seq<Ticket>)
      requires w in threadTasks
      modifies this`threadTasks
      ensures pending == old(threadTasks)[w] && threadTasks == old(threadTasks) - {w}
    {
      pending := threadTasks[w];
      threadTasks := threadTasks - {w};
    }

    /** The locked section of WorkerMain: worker w tests the wait condition and either blocks or
        leaves with its work and the shutdown flag. */
    method WaitForWork(w: WorkerId) returns (task: Option<Ticket>, own: seq<Ticket>, last: bool)
      requires Valid() && Enabled(pool, Wait(w))
      modifies this
      ensures Valid() && pool == Next(old(pool), Wait(w))
      ensures last == old(shutdown)
      ensures old(pool).Wakes(w) ==>
        pool.workers[w] == Executing((if task.Some? then [Shared(task.value)] else []) + Broadcasts(own), last)
      ensures !old(pool).Wakes(w) ==> pool.workers[w] == Blocked && task == None && own == [] && !last
    {
      ghost var was := pool;
      StepKeepsInv(was, Wait(w));
      hide Inv;
      last, task, own := shutdown, None, [];
      if tasks != [] || shutdown || w in threadTasks {
        ghost var oldThreads := threadTasks;
        if tasks != [] {
          task, tasks := Some(tasks[0]), tasks[1..];
        }
        if w in threadTasks {
          own := GetThreadTasksLocked(w);
        } else {
          assert threadTasks - {w} == threadTasks;
        }
        assert own == PendingOf(was, w);
      }
      pool := Next(was, Wait(w));
    }

    /** The rest of one turn of WorkerMain, off the lock: first the shared task, then the worker's
        own tasks in order, and then round again or away. No other thread steps in between here;
        PoolRuns covers the interleavings. */
    method ExecuteTaken(w: WorkerId, task: Option<Ticket>, own: seq<Ticket>, last: bool)
        returns (executed: seq<Job>, leaves: bool)
      requires Valid() && w < |pool.workers| && w < |pool.ran|
      requires pool.workers[w] == Executing((if task.Some? then [Shared(task.value)] else []) + Broadcasts(own), last)
      modifies this`pool
      ensures Valid() && leaves == last
      ensures executed == old(pool.workers[w].hand)
      ensures pool == old(pool).(ran := old(pool).ran[w := old(pool).ran[w] + executed],
                                 workers := old(pool).workers[w := if leaves then Exited else Ready])
    {
      hide Inv, Broadcasts, Midway, Next;
      BroadcastsOf([]);
      BroadcastsOf(own);
      ghost var was := pool;
      ghost var hand := pool.workers[w].hand;
      executed, leaves := [], last;
      NothingRunYet(was, w);
      if task.Some? {
        RunNext(w, was, executed, hand);
        executed := executed + [Shared(task.value)];
        assert hand[1..] == Broadcasts(own);
      } else {
        assert hand == Broadcasts(own);
      }
      ghost var front := executed;
      assert own[0..] == own && own[..0] == [];
      for i := 0 to |own|
        invariant executed == front + Broadcasts(own[..i])
        invariant Valid() && pool == Midway(was, w, executed, Broadcasts(own[i..]))
        invariant w < |was.workers| && w < |was.ran| && was.workers[w].Executing?
      {
        NextBroadcast(own, i);
        RunNext(w, was, executed, Broadcasts(own[i..]));
        executed := executed + [Broadcast(own[i])];
      }
      assert own[..|own|] == own && own[|own|..] == [];
      FinishTurn(w, was, executed);
    }

    ghost method FinishTurn(w: WorkerId, was: Pool, done: seq<Job>)
      requires Valid() && w < |was.workers| && w < |was.ran| && was.workers[w].Executing?
      requires pool == Midway(was, w, done, [])
      modifies this`pool
      ensures Valid()
      ensures pool == was.(ran := was.ran[w := was.ran[w] + done],
                           workers := was.workers[w := if was.workers[w].last then Exited else Ready])
    {
      hide Inv;
      StepKeepsInv(pool, Finish(w));
      pool := Next(pool, Finish(w));
    }

    ghost method RunNext(w: WorkerId, was: Pool, done: seq<Job>, hand: seq<Job>)
      requires Valid() && w < |was.workers| && w < |was.ran| && was.workers[w].Executing?
      requires hand != [] && pool == Midway(was, w, done, hand)
      modifies this`pool
      ensures Valid() && pool == Midway(was, w, done + [hand[0]], hand[1..])
    {
      hide Inv;
      StepKeepsInv(pool, Run(w));
      pool := Next(pool, Run(w));
      assert was.ran[w] + done + [hand[0]] == was.ran[w] + (done + [hand[0]]);
    }

    method PostTaskToAllWorkers() returns (ticket: Ticket)
      requires Valid()
      modifies this
      ensures Valid() && pool == Next(old(pool), PostAll) && ticket == old(pool).nextTicket
      ensures forall w :: 0 <= w < workerCount ==> PendingOf(pool, w) == PendingOf(old(pool), w) + [ticket]
    {
      ghost var was := pool;
      AddedToAll(was, was.nextTicket);
      StepKeepsInv(was, PostAll);
      hide Inv, AddedUpTo, PendingOf, Next;
      ticket := nextTicket;
      nextTicket := nextTicket + 1;
      AddToThreadTasks(ticket, was);
      pool := Next(was, PostAll);
    }

    /** The loop over the workers. */
    method AddToThreadTasks(ticket: Ticket, ghost was: Pool)
      requires threadTasks == AddedUpTo(was, 0, ticket)
      modifies this`threadTasks
      ensures threadTasks == AddedUpTo(was, workerCount, ticket)
    {
      hide AddedUpTo, PendingOf;
      for i := 0 to workerCount
        invariant threadTasks == AddedUpTo(was, i, ticket)
      {
        AddOne(was, i, ticket);
        var pending := if i in threadTasks then threadTasks[i] else [];
        threadTasks := threadTasks[i := pending + [ticket]];
      }
    }

    method Terminate()
      requires Valid()
      modifies this
      ensures Valid() && pool == Next(old(pool), Step.Terminate) && shutdown
      ensures forall w :: 0 <= w < workerCount ==> !pool.workers[w].Blocked?
    {
      StepKeepsInv(pool, Step.Terminate);
      assert |pool.workers| == workerCount;
      hide Inv;
      shutdown := true;
      pool := Next(pool, Step.Terminate);
    }
  }

  /** Worker w has run `done` of what it took and still holds `hand`. */
  function Midway(p: Pool, w: WorkerId, done: seq<Job>, hand: seq<Job>): Pool
    requires w < |p.workers| && w < |p.ran| && p.workers[w].Executing?
  {
    p.(ran := p.ran[w := p.ran[w] + done], workers := p.workers[w := Executing(hand, p.workers[w].last)])
  }

  lemma NothingRunYet(p: Pool, w: WorkerId)
    requires w < |p.workers| && w < |p.ran| && p.workers[w].Executing?
    ensures p == Midway(p, w, [], p.workers[w].hand)
  {
    assert p.ran[w] + [] == p.ran[w];
  }

  lemma BroadcastsOf(tickets: seq<Ticket>)
    ensures |Broadcasts(tickets)| == |tickets|
  {
  }

  lemma NextBroadcast(own: seq<Ticket>, i: nat)
    requires i < |own|
    ensures Broadcasts(own[i..]) == [Broadcast(own[i])] + Broadcasts(own[i + 1..])
    ensures Broadcasts(own[..i + 1]) == Broadcasts(own[..i]) + [Broadcast(own[i])]
  {
  }

  /** The table of worker tasks after the loop served the workers below i. */
  function AddedUpTo(p: Pool, i: nat, t: Ticket): map<WorkerId, seq<Ticket>> {
    p.threadTasks + map w: nat | 0 <= w < i :: PendingOf(p, w) + [t]
  }

  lemma AddOne(p: Pool, i: nat, t: Ticket)
    ensures PendingOf(p, i) == if i in AddedUpTo(p, i, t) then AddedUpTo(p, i, t)[i] else []
    ensures AddedUpTo(p, i, t)[i := PendingOf(p, i) + [t]] == AddedUpTo(p, i + 1, t)
  {
    hide PendingOf;
    assert i in AddedUpTo(p, i, t) <==> i in p.threadTasks;
    assert AddedUpTo(p, i, t)[i := PendingOf(p, i) + [t]] == AddedUpTo(p, i + 1, t);
    PendingIs(p, i);
  }

  lemma PendingIs(p: Pool, i: nat)
    ensures PendingOf(p, i) == if i in p.threadTasks then p.threadTasks[i] else []
  {
  }

  lemma AddedToAll(p: Pool, t: Ticket)
    requires Shape(p) && t == p.nextTicket
    ensures AddedUpTo(p, 0, t) == p.threadTasks
    ensures var q := Next(p, PostAll);
      && AddedUpTo(p, |p.workers|, t) == q.threadTasks
      && q.tasks == p.tasks && q.shutdown == p.shutdown && q.nextTicket == t + 1 && |q.workers| == |p.workers|
    ensures forall w :: 0 <= w < |p.workers| ==> PendingOf(Next(p, PostAll), w) == PendingOf(p, w) + [t]
  {
    assert AddedUpTo(p, |p.workers|, t).Keys == Next(p, PostAll).threadTasks.Keys;
  }
}
