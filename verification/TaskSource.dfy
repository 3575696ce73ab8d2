/** A primary and a pausable secondary heap of tasks (src/fml/task_source.cc). */
module TaskSources {
  import opened DelayedTasks

  /** The value of a task source. Heaps are kept in the order they are popped. */
  datatype Source = Source(primary: seq<Task>, secondary: seq<Task>, pause: nat) {

    /** Each heap is in order and holds only its own grades. */
    ghost predicate Valid() {
      && Ascending(primary) && Ascending(secondary)
      && (forall t :: t in primary ==> t.grade != DartEventLoop)
      && (forall t :: t in secondary ==> t.grade == DartEventLoop)
    }

    /** Every task the source holds. */
    ghost function Held(): multiset<Task> { multiset(primary) + multiset(secondary) }

    /** The tasks it offers: a paused secondary heap is hidden. */
    ghost function Visible(): multiset<Task> {
      multiset(primary) + if pause == 0 then multiset(secondary) else multiset{}
    }

    function NumPending(): nat { |primary| + if pause == 0 then |secondary| else 0 }

    predicate IsEmpty() { NumPending() == 0 }

    function Top(): Task
      requires !IsEmpty()
    {
      if pause > 0 || secondary == [] then primary[0]
      else if primary == [] then secondary[0]
      else if primary[0].Greater(secondary[0]) then secondary[0]
      else primary[0]
    }

    function Register(t: Task): Source {
      match t.grade
      case DartEventLoop => this.(secondary := Push(secondary, t))
      case _ => this.(primary := Push(primary, t))
    }

    /** Pops the heap that serves `grade`; popping an empty heap is undefined in the source. */
    function Pop(grade: Grade): Source
      requires if grade == DartEventLoop then secondary != [] else primary != []
    {
      match grade
      case DartEventLoop => this.(secondary := secondary[1..])
      case _ => this.(primary := primary[1..])
    }

    function ShutDown(): Source { Source([], [], pause) }
  }

  lemma VisibleCount(s: Source)
    ensures |s.Visible()| == s.NumPending()
    ensures s.IsEmpty() <==> s.Visible() == multiset{}
    ensures s.Visible() <= s.Held()
  {
  }

  /** The grade of the task on top says which heap it heads. */
  lemma TopIsHead(s: Source)
    requires s.Valid() && !s.IsEmpty()
    ensures if s.Top().grade == DartEventLoop then s.pause == 0 && s.secondary != [] && s.Top() == s.secondary[0]
            else s.primary != [] && s.Top() == s.primary[0]
    ensures s.primary != [] && s.primary[0] != s.Top() ==> s.primary[0].Greater(s.Top()) || s.primary[0].order == s.Top().order
    ensures s.pause == 0 && s.secondary != [] && s.secondary[0] != s.Top() ==> s.secondary[0].Greater(s.Top()) || s.secondary[0].order == s.Top().order
  {
    if s.primary != [] { assert s.primary[0] in s.primary; }
    if s.secondary != [] { assert s.secondary[0] in s.secondary; }
  }

  lemma RemoveFromSum(a: multiset<Task>, b: multiset<Task>, t: Task)
    requires t in a
    ensures (a + b) - multiset{t} == (a - multiset{t}) + b
    ensures (b + a) - multiset{t} == b + (a - multiset{t})
  {
  }

  lemma PopRemovesHead(s: Source, head: Task)
    requires s.Valid()
    requires if head.grade == DartEventLoop then s.pause == 0 && s.secondary != [] && head == s.secondary[0]
             else s.primary != [] && head == s.primary[0]
    ensures s.Pop(head.grade).Valid()
    ensures s.Pop(head.grade).Held() == s.Held() - multiset{head}
    ensures s.Pop(head.grade).Visible() == s.Visible() - multiset{head}
  {
    var p, q := multiset(s.primary), multiset(s.secondary);
    if head.grade == DartEventLoop {
      HeadIsLeast(s.secondary);
      RemoveFromSum(q, p, head);
    } else {
      HeadIsLeast(s.primary);
      RemoveFromSum(p, q, head);
      RemoveFromSum(p, if s.pause == 0 then q else multiset{}, head);
    }
  }

  /** The task on top is the least visible one, and popping its grade removes exactly it. */
  lemma TopIsLeast(s: Source)
    requires s.Valid() && !s.IsEmpty() && UniqueOrders(s.Held())
    ensures if s.Top().grade == DartEventLoop then s.secondary != [] else s.primary != []
    ensures IsLeast(s.Top(), s.Visible())
    ensures s.Pop(s.Top().grade).Valid()
    ensures s.Pop(s.Top().grade).Held() == s.Held() - multiset{s.Top()}
    ensures s.Pop(s.Top().grade).Visible() == s.Visible() - multiset{s.Top()}
  {
    TopIsHead(s);
    PopRemovesHead(s, s.Top());
    forall u | u in s.Visible() && u != s.Top() ensures u.Greater(s.Top()) {
      TopPrecedes(s, u);
    }
  }

  lemma TopPrecedes(s: Source, u: Task)
    requires s.Valid() && !s.IsEmpty() && UniqueOrders(s.Held())
    requires u in s.Visible() && u != s.Top()
    ensures u.Greater(s.Top())
  {
    TopIsHead(s);
    var heap := if u in s.primary then s.primary else s.secondary;
    assert u in heap;
    var i :| 0 <= i < |heap| && heap[i] == u;
    assert heap[0] in s.Held() && s.Top() in s.Held();
    assert i == 0 || u.Greater(heap[0]);
  }

  lemma RegisterAdds(s: Source, t: Task)
    requires s.Valid() && forall u :: u in s.Held() ==> u.order != t.order
    ensures s.Register(t).Valid()
    ensures s.Register(t).Held() == s.Held() + multiset{t}
    ensures s.Visible() <= s.Register(t).Visible()
  {
    var heap := if t.grade == DartEventLoop then s.secondary else s.primary;
    PushKeepsTasks(heap, t);
    assert forall u :: u in heap ==> u in s.Held();
    PushIsAscending(heap, t);
    forall u | u in Push(heap, t) ensures u in heap || u == t {
      assert u in multiset(Push(heap, t));
    }
  }

  /** The mutable task source; `View` is its value. */
  class TaskSource {
    var primary: seq<Task>
    var secondary: seq<Task>
    var pauseRequests: nat

    ghost function View(): Source
      reads this
    {
      Source(primary, secondary, pauseRequests)
    }

    constructor ()
      ensures View() == Source([], [], 0)
    {
      primary, secondary, pauseRequests := [], [], 0;
    }

    method ShutDown()
      modifies this
      ensures View() == old(View()).ShutDown()
    {
      primary := [];
      secondary := [];
    }

    method RegisterTask(task: Task)
      modifies this
      ensures View() == old(View()).Register(task)
    {
      match task.grade
      case UserInteraction => primary := Push(primary, task);
      case Unspecified => primary := Push(primary, task);
      case DartEventLoop => secondary := Push(secondary, task);
    }

    method PopTask(grade: Grade)
      requires if grade == DartEventLoop then secondary != [] else primary != []
      modifies this
      ensures View() == old(View()).Pop(grade)
    {
      match grade
      case UserInteraction => primary := primary[1..];
      case Unspecified => primary := primary[1..];
      case DartEventLoop => secondary := secondary[1..];
    }

    method GetNumPendingTasks() returns (size: nat)
      ensures size == View().NumPending() == |View().Visible()|
    {
      size := |primary|;
      if pauseRequests == 0 {
        size := size + |secondary|;
      }
    }

    method IsEmpty() returns (empty: bool)
      ensures empty <==> View().Visible() == multiset{}
      ensures empty <==> View().IsEmpty()
    {
      var pending := GetNumPendingTasks();
      VisibleCount(View());
      empty := pending == 0;
    }

    method Top() returns (task: Task)
      requires !View().IsEmpty()
      ensures task == View().Top()
      ensures View().Valid() && UniqueOrders(View().Held()) ==> IsLeast(task, View().Visible())
    {
      if pauseRequests > 0 || secondary == [] {
        task := primary[0];
      } else if primary == [] {
        task := secondary[0];
      } else if primary[0].Greater(secondary[0]) {
        task := secondary[0];
      } else {
        task := primary[0];
      }
      if View().Valid() && UniqueOrders(View().Held()) { TopIsLeast(View()); }
    }

    method PauseSecondary()
      modifies this
      ensures View() == old(View()).(pause := old(View()).pause + 1)
    {
      pauseRequests := pauseRequests + 1;
    }

    /** The source demands that every resume answers a pause. */
    method ResumeSecondary()
      requires View().pause > 0
      modifies this
      ensures View() == old(View()).(pause := old(View()).pause - 1)
    {
      pauseRequests := pauseRequests - 1;
    }
  }
}
