/** A registered task and its place in the dispatch order (src/fml/delayed_task.cc). */
module DelayedTasks {

  datatype Grade = UserInteraction | DartEventLoop | Unspecified

  /** `closure` names the callback; time points are integers. */
  datatype Task = Task(order: nat, closure: nat, time: int, grade: Grade) {

    predicate Greater(other: Task) {
      if time == other.time then order > other.order else time > other.time
    }
  }

  /** Strictly increasing in dispatch order: how a heap of tasks hands them out. */
  ghost predicate Ascending(s: seq<Task>) {
    forall i, j :: 0 <= i < j < |s| ==> s[j].Greater(s[i])
  }

  /** `t` precedes every other task of `m`. */
  ghost predicate IsLeast(t: Task, m: multiset<Task>) {
    t in m && forall u :: u in m && u != t ==> u.Greater(t)
  }

  /** Tasks are identified by their order number. */
  ghost predicate UniqueOrders(m: multiset<Task>) {
    forall a, b :: a in m && b in m && a.order == b.order ==> a == b
  }

  /** Pushing on a priority queue, kept as the sequence it will be popped in. */
  function Push(s: seq<Task>, t: Task): seq<Task> {
    if s == [] || s[0].Greater(t) then [t] + s else [s[0]] + Push(s[1..], t)
  }

  lemma {:induction false} PushKeepsTasks(s: seq<Task>, t: Task)
    ensures multiset(Push(s, t)) == multiset(s) + multiset{t}
  {
    if s == [] || s[0].Greater(t) {
    } else {
      PushKeepsTasks(s[1..], t);
      assert s == [s[0]] + s[1..];
    }
  }

  /** Earlier times come first, and among tasks of one time the one registered first. */
  lemma AscendingByFields(s: seq<Task>)
    requires Ascending(s)
    ensures forall i, j :: 0 <= i < j < |s| ==>
      s[i].time < s[j].time || (s[i].time == s[j].time && s[i].order < s[j].order)
  {
    forall i, j | 0 <= i < j < |s|
      ensures s[i].time < s[j].time || (s[i].time == s[j].time && s[i].order < s[j].order)
    {
      assert s[j].Greater(s[i]);
    }
  }

  lemma {:induction false} PushKeepsOrder(s: seq<Task>, t: Task)
    requires Ascending(s)
    requires forall u :: u in s ==> u.order != t.order
    ensures Ascending(Push(s, t))
    ensures forall i, j :: 0 <= i < j < |Push(s, t)| ==>
      var a, b := Push(s, t)[i], Push(s, t)[j]; a.time < b.time || (a.time == b.time && a.order < b.order)
  {
    PushIsAscending(s, t);
    AscendingByFields(Push(s, t));
  }

  lemma {:induction false} PushIsAscending(s: seq<Task>, t: Task)
    requires Ascending(s)
    requires forall u :: u in s ==> u.order != t.order
    ensures Ascending(Push(s, t))
  {
    if s == [] || s[0].Greater(t) {
    } else {
      PushIsAscending(s[1..], t);
      PushKeepsTasks(s[1..], t);
      var rest := Push(s[1..], t);
      forall j | 0 <= j < |rest| ensures rest[j].Greater(s[0]) {
        assert rest[j] in multiset(rest);
        assert rest[j] in multiset(s[1..]) || rest[j] == t;
      }
    }
  }

  lemma HeadIsLeast(s: seq<Task>)
    requires Ascending(s) && s != []
    ensures IsLeast(s[0], multiset(s))
    ensures multiset(s[1..]) == multiset(s) - multiset{s[0]}
    ensures Ascending(s[1..])
  {
    assert s == [s[0]] + s[1..];
  }

  /** An ascending sequence is determined by its tasks. */
  lemma {:induction false} AscendingIsCanonical(a: seq<Task>, b: seq<Task>)
    requires Ascending(a) && Ascending(b) && multiset(a) == multiset(b)
    ensures a == b
  {
    if a == [] {
      assert |multiset(b)| == 0;
    } else {
      assert a[0] in multiset(b) && |multiset(a)| == |multiset(b)|;
      HeadIsLeast(a);
      HeadIsLeast(b);
      assert b[0] in multiset(a);
      AscendingIsCanonical(a[1..], b[1..]);
    }
  }
}
