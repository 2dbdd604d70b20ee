/** The deduplicating priority queue, at the granularity of its two locks. */
module DedupQueue {
  import opened Outcomes

  datatype TaskType = DetectLanguage | Asr | Other

  datatype Task = Task(path: string, kind: TaskType)

  /** What the heap orders: priority, then the time of the put. */
  datatype Entry = Entry(priority: nat, time: nat, task: Task)

  type Thread = nat

  /** Where a thread is. Only a thread inside put keeps the lock between two steps. */
  datatype Position =
    | Idle
    | Pushing(task: Task)
    | Committing(task: Task)
    | InTransit(entry: Entry)
    | Working(entry: Entry)

  /** Where a task is. */
  datatype Place = InHeap | Carried(thread: Thread) | Processed(thread: Thread)

  datatype Live = Live(entry: Entry, place: Place)

  /** What the outside sees of the queue. */
  datatype Event = Accepted(task: Task) | Finished(task: Task)

  datatype Action =
    | Enter(task: Task)
    | Push(time: nat)
    | Commit
    | Pop
    | Mark
    | Finish

  function PriorityOf(kind: TaskType): nat {
    if kind == DetectLanguage then 0 else if kind == Asr then 1 else 2
  }

  predicate Before(a: Entry, b: Entry) {
    a.priority < b.priority || (a.priority == b.priority && a.time <= b.time)
  }

  /** The three kinds of tasks have the ranks 0, 1 and 2. */
  predicate Ranked(e: Entry) {
    match e.task.kind
    case DetectLanguage => e.priority == 0
    case Asr => e.priority == 1
    case Other => e.priority == 2
  }

  /** Language detection goes before recognition, recognition before everything else; within a kind, the earlier one. */
  predicate GoesFirst(a: Entry, b: Entry) {
    match a.task.kind
    case DetectLanguage => b.task.kind == DetectLanguage ==> a.time <= b.time
    case Asr => b.task.kind != DetectLanguage && (b.task.kind == Asr ==> a.time <= b.time)
    case Other => b.task.kind == Other && a.time <= b.time
  }

  /** No entry has the same priority and time: a tie would make the heap compare the tasks, which have no order. */
  predicate Untied(heap: seq<Entry>, task: Task, time: nat) {
    forall i :: 0 <= i < |heap| ==> heap[i].priority != PriorityOf(task.kind) || heap[i].time != time
  }

  /** The position of a least entry. */
  function Least(heap: seq<Entry>): (k: nat)
    requires heap != []
    ensures k < |heap| && forall i :: 0 <= i < |heap| ==> Before(heap[k], heap[i])
  {
    if |heap| == 1 then 0
    else
      var k := Least(heap[..|heap| - 1]);
      if Before(heap[k], heap[|heap| - 1]) then k else |heap| - 1
  }

  predicate SameAccepted(a: Event, b: Event) {
    a.Accepted? && b.Accepted? && a.task.path == b.task.path
  }

  /** Between any two acceptances of one id it was finished. */
  ghost predicate NeverTwice(log: seq<Event>) {
    forall i, j :: 0 <= i < j < |log| && SameAccepted(log[i], log[j]) ==>
      FinishedBetween(log, log[i].task.path, i, j)
  }

  ghost predicate FinishedBetween(log: seq<Event>, id: string, i: nat, j: nat) {
    exists k :: i < k < j && k < |log| && log[k].Finished? && log[k].task.path == id
  }

  /** An accepted id that was not finished since is live. */
  ghost predicate LiveUntilFinished(log: seq<Event>, ids: set<string>) {
    forall i :: 0 <= i < |log| && log[i].Accepted? && log[i].task.path !in ids ==>
      FinishedBetween(log, log[i].task.path, i, |log|)
  }

  lemma {:induction false} LogAccepts(log: seq<Event>, ids: set<string>, task: Task)
    requires NeverTwice(log) && LiveUntilFinished(log, ids) && task.path !in ids
    ensures NeverTwice(log + [Accepted(task)]) && LiveUntilFinished(log + [Accepted(task)], ids + {task.path})
  {
    var after := log + [Accepted(task)];
    forall i, j | 0 <= i < j < |after| && SameAccepted(after[i], after[j])
      ensures FinishedBetween(after, after[i].task.path, i, j)
    {
      assert FinishedBetween(log, log[i].task.path, i, j);
      var k :| i < k < j && k < |log| && log[k].Finished? && log[k].task.path == log[i].task.path;
      assert after[k] == log[k];
    }
    forall i | 0 <= i < |after| && after[i].Accepted? && after[i].task.path !in ids + {task.path}
      ensures FinishedBetween(after, after[i].task.path, i, |after|)
    {
      var k :| i < k < |log| && log[k].Finished? && log[k].task.path == log[i].task.path;
      assert after[k] == log[k];
    }
  }

  lemma LogFinishes(log: seq<Event>, ids: set<string>, task: Task)
    requires NeverTwice(log) && LiveUntilFinished(log, ids)
    ensures NeverTwice(log + [Finished(task)]) && LiveUntilFinished(log + [Finished(task)], ids - {task.path})
  {
    var after := log + [Finished(task)];
    forall i, j | 0 <= i < j < |after| && SameAccepted(after[i], after[j])
      ensures FinishedBetween(after, after[i].task.path, i, j)
    {
      assert FinishedBetween(log, log[i].task.path, i, j);
      var k :| i < k < j && k < |log| && log[k].Finished? && log[k].task.path == log[i].task.path;
      assert after[k] == log[k];
    }
    forall i | 0 <= i < |after| && after[i].Accepted? && after[i].task.path !in ids - {task.path}
      ensures FinishedBetween(after, after[i].task.path, i, |after|)
    {
      if after[i].task.path == task.path {
        assert after[|log|].Finished?;
      } else {
        var k :| i < k < |log| && log[k].Finished? && log[k].task.path == log[i].task.path;
        assert after[k] == log[k];
      }
    }
  }

  /** The heap holds exactly the live tasks placed there, each once, */
  ghost predicate HeapPlaces(heap: seq<Entry>, live: map<string, Live>) {
    && (forall i :: 0 <= i < |heap| ==>
          heap[i].task.path in live && live[heap[i].task.path] == Live(heap[i], InHeap))
    && (forall i, j :: 0 <= i < j < |heap| ==> heap[i].task.path != heap[j].task.path)
    && (forall id :: id in live ==> live[id].entry.task.path == id)
    && (forall id :: id in live && live[id].place == InHeap ==> live[id].entry in heap)
  }

  /** and the threads exactly the others. */
  ghost predicate ThreadPlaces(position: map<Thread, Position>, live: map<string, Live>) {
    && (forall t :: t in position && position[t].InTransit? ==>
          var e := position[t].entry; e.task.path in live && live[e.task.path] == Live(e, Carried(t)))
    && (forall t :: t in position && position[t].Working? ==>
          var e := position[t].entry; e.task.path in live && live[e.task.path] == Live(e, Processed(t)))
    && (forall id :: id in live && live[id].place.Carried? ==>
          live[id].place.thread in position && position[live[id].place.thread] == InTransit(live[id].entry))
    && (forall id :: id in live && live[id].place.Processed? ==>
          live[id].place.thread in position && position[live[id].place.thread] == Working(live[id].entry))
  }

  /** The lock is held by at most one thread, and kept between steps only inside put. */
  ghost predicate Locked(position: map<Thread, Position>, lock: Option<Thread>, live: map<string, Live>) {
    && (forall t :: t in position && (position[t].Pushing? || position[t].Committing?) ==> lock == Some(t))
    && (lock.Some? ==> lock.value in position && (position[lock.value].Pushing? || position[lock.value].Committing?))
    && (forall t :: t in position && position[t].Pushing? ==> position[t].task.path !in live)
    && (forall t :: t in position && position[t].Committing? ==>
          position[t].task.path in live && !live[position[t].task.path].place.Processed?)
  }

  /** The id a putter has pushed but not yet entered into the queued set. */
  function Uncommitted(position: map<Thread, Position>, lock: Option<Thread>): Option<string> {
    if lock.Some? && lock.value in position && position[lock.value].Committing?
    then Some(position[lock.value].task.path) else None
  }

  ghost predicate Sets(
    position: map<Thread, Position>, lock: Option<Thread>, live: map<string, Live>,
    queued: set<string>, processing: set<string>)
  {
    && (forall id :: id in queued <==>
          id in live && !live[id].place.Processed? && Uncommitted(position, lock) != Some(id))
    && (forall id :: id in processing <==> id in live && live[id].place.Processed?)
  }

  /** The thread has this task in its hands, on the way or at work. */
  predicate Carries(p: Position, id: string) {
    (p.InTransit? || p.Working?) && p.entry.task.path == id
  }

  predicate IsIdle(position: map<Thread, Position>, t: Thread) {
    t in position ==> position[t] == Idle
  }

  // One lemma a step: a thread moves on, and at most one task changes its place.

  lemma PushKeeps(heap: seq<Entry>, position: map<Thread, Position>, lock: Option<Thread>, live: map<string, Live>,
    t: Thread, e: Entry)
    requires HeapPlaces(heap, live) && ThreadPlaces(position, live) && Locked(position, lock, live)
    requires t in position && position[t] == Pushing(e.task)
    ensures var after, moved := live[e.task.path := Live(e, InHeap)], position[t := Committing(e.task)];
            && e.task.path !in live
            && HeapPlaces(heap + [e], after)
            && ThreadPlaces(moved, after)
            && Locked(moved, lock, after)
            && Uncommitted(moved, lock) == Some(e.task.path) && Uncommitted(position, lock) == None
  {
  }

  lemma CommitKeeps(position: map<Thread, Position>, lock: Option<Thread>, live: map<string, Live>,
    queued: set<string>, processing: set<string>, t: Thread)
    requires ThreadPlaces(position, live) && Locked(position, lock, live)
    requires Sets(position, lock, live, queued, processing) && t in position && position[t].Committing?
    ensures var moved, id := position[t := Idle], position[t].task.path;
            && ThreadPlaces(moved, live)
            && Locked(moved, None, live)
            && Sets(moved, None, live, queued + {id}, processing)
  {
    var moved, id := position[t := Idle], position[t].task.path;
    assert lock == Some(t) && Uncommitted(position, lock) == Some(id) && Uncommitted(moved, None) == None;
    assert ThreadPlaces(moved, live);
    assert Locked(moved, None, live);
    hide ThreadPlaces, Locked;
  }

  lemma PopKeepsHeap(heap: seq<Entry>, live: map<string, Live>, t: Thread, k: nat)
    requires HeapPlaces(heap, live) && k < |heap|
    ensures var e := heap[k];
            && e.task.path in live && live[e.task.path] == Live(e, InHeap)
            && HeapPlaces(heap[..k] + heap[k + 1..], live[e.task.path := Live(e, Carried(t))])
  {
    var e, rest := heap[k], heap[..k] + heap[k + 1..];
    forall id | id in live && id != e.task.path && live[id].place == InHeap ensures live[id].entry in rest {
      var i :| 0 <= i < |heap| && heap[i] == live[id].entry;
      assert rest[if i < k then i else i - 1] == heap[i];
    }
  }

  lemma PopKeeps(position: map<Thread, Position>, lock: Option<Thread>, live: map<string, Live>, t: Thread, e: Entry)
    requires ThreadPlaces(position, live) && Locked(position, lock, live) && IsIdle(position, t)
    requires e.task.path in live && live[e.task.path] == Live(e, InHeap)
    ensures var after, moved := live[e.task.path := Live(e, Carried(t))], position[t := InTransit(e)];
            && ThreadPlaces(moved, after)
            && Locked(moved, lock, after)
            && Uncommitted(moved, lock) == Uncommitted(position, lock)
  {
  }

  lemma MarkKeeps(heap: seq<Entry>, position: map<Thread, Position>, live: map<string, Live>, t: Thread)
    requires HeapPlaces(heap, live) && ThreadPlaces(position, live) && Locked(position, None, live)
    requires t in position && position[t].InTransit?
    ensures var e := position[t].entry;
            var after, moved := live[e.task.path := Live(e, Processed(t))], position[t := Working(e)];
            && e.task.path in live && live[e.task.path] == Live(e, Carried(t))
            && HeapPlaces(heap, after)
            && ThreadPlaces(moved, after)
            && Locked(moved, None, after)
  {
  }

  lemma FinishKeeps(heap: seq<Entry>, position: map<Thread, Position>, live: map<string, Live>, t: Thread)
    requires HeapPlaces(heap, live) && ThreadPlaces(position, live) && Locked(position, None, live)
    requires t in position && position[t].Working?
    ensures var e := position[t].entry;
            var after, moved := live - {e.task.path}, position[t := Idle];
            && HeapPlaces(heap, after)
            && ThreadPlaces(moved, after)
            && Locked(moved, None, after)
            && e.task.path in live && live[e.task.path].place == Processed(t)
  {
  }

  class DeduplicatedQueue {
    var heap: seq<Entry>
    var queued: set<string>
    var processing: set<string>
    var lock: Option<Thread>
    var position: map<Thread, Position>
    /** Every accepted task that is not done, with its one place. */
    ghost var live: map<string, Live>
    ghost var log: seq<Event>

    function At(t: Thread): Position
      reads this
    {
      if t in position then position[t] else Idle
    }

    ghost predicate Valid()
      reads this
    {
      && HeapPlaces(heap, live)
      && (forall i :: 0 <= i < |heap| ==> Ranked(heap[i]))
      && ThreadPlaces(position, live)
      && Locked(position, lock, live)
      && Sets(position, lock, live, queued, processing)
      && NeverTwice(log)
      && LiveUntilFinished(log, live.Keys)
    }

    constructor ()
      ensures Valid() && heap == [] && live == map[] && log == [] && lock == None && position == map[]
    {
      heap, queued, processing, lock, position, live, log := [], {}, {}, None, map[], map[], [];
    }

    // ------------------------------------------------------------ put

    /** put takes the lock and looks the id up; a known id is turned away. */
    method PutEnter(t: Thread, task: Task) returns (isNew: bool)
      requires Valid() && lock == None && At(t) == Idle
      modifies this`lock, this`position
      ensures Valid()
      ensures isNew <==> task.path !in live
      ensures if isNew then lock == Some(t) && position == old(position)[t := Pushing(task)]
              else lock == None && position == old(position)
    {
      isNew := task.path !in queued && task.path !in processing;
      if isNew {
        lock, position := Some(t), position[t := Pushing(task)];
      }
    }

    /** The push itself: from here on a worker may pop the task. */
    method PutPush(t: Thread, time: nat)
      requires Valid() && At(t).Pushing? && Untied(heap, At(t).task, time)
      modifies this`heap, this`position, this`live, this`log
      ensures Valid()
      ensures position == old(position)[t := Committing(old(At(t)).task)]
      ensures var e := Entry(PriorityOf(old(At(t)).task.kind), time, old(At(t)).task);
              && heap == old(heap) + [e]
              && live == old(live)[e.task.path := Live(e, InHeap)]
      ensures log == old(log) + [Accepted(old(At(t)).task)]
    {
      hide HeapPlaces, ThreadPlaces, Locked, NeverTwice, LiveUntilFinished;
      var task := At(t).task;
      var e := Entry(PriorityOf(task.kind), time, task);
      PushKeeps(heap, position, lock, live, t, e);
      LogAccepts(log, live.Keys, task);
      assert (live[task.path := Live(e, InHeap)]).Keys == live.Keys + {task.path};
      heap, position := heap + [e], position[t := Committing(task)];
      live, log := live[task.path := Live(e, InHeap)], log + [Accepted(task)];
    }

    /** put enters the id into the queued set and gives the lock back. */
    method PutCommit(t: Thread)
      requires Valid() && At(t).Committing?
      modifies this`queued, this`lock, this`position
      ensures Valid() && lock == None && position == old(position)[t := Idle]
    {
      hide HeapPlaces, ThreadPlaces, Locked, Sets, NeverTwice, LiveUntilFinished;
      CommitKeeps(position, lock, live, queued, processing, t);
      queued, lock, position := queued + {At(t).task.path}, None, position[t := Idle];
    }

    // ------------------------------------------------------------ get

    /** get pops the least entry, without the lock. */
    method GetPop(t: Thread)
      requires Valid() && At(t) == Idle && heap != []
      modifies this`heap, this`position, this`live
      ensures Valid()
      ensures At(t).InTransit? && At(t).entry in old(heap) && forall e :: e in old(heap) ==> GoesFirst(At(t).entry, e)
      ensures multiset(old(heap)) == multiset(heap) + multiset{At(t).entry}
      ensures live.Keys == old(live).Keys && position == old(position)[t := At(t)]
    {
      hide HeapPlaces, ThreadPlaces, Locked, NeverTwice, LiveUntilFinished;
      var k := Least(heap);
      var e := heap[k];
      forall i | 0 <= i < |heap| ensures GoesFirst(e, heap[i]) { assert Before(e, heap[i]); }
      assert heap == heap[..k] + [e] + heap[k + 1..];
      PopKeepsHeap(heap, live, t, k);
      PopKeeps(position, lock, live, t, e);
      assert live.Keys == (live[e.task.path := Live(e, Carried(t))]).Keys;
      heap, position := heap[..k] + heap[k + 1..], position[t := InTransit(e)];
      live := live[e.task.path := Live(e, Carried(t))];
    }

    /** get then takes the lock and moves the id from queued to processing. */
    method GetMark(t: Thread) returns (task: Task)
      requires Valid() && lock == None && At(t).InTransit?
      modifies this`queued, this`processing, this`position, this`live
      ensures Valid() && task == old(At(t)).entry.task
      ensures position == old(position)[t := Working(old(At(t)).entry)] && live.Keys == old(live).Keys
    {
      hide HeapPlaces, ThreadPlaces, Locked, NeverTwice, LiveUntilFinished;
      var e := At(t).entry;
      task := e.task;
      MarkKeeps(heap, position, live, t);
      assert live.Keys == (live[task.path := Live(e, Processed(t))]).Keys;
      queued, processing := queued - {task.path}, processing + {task.path};
      position := position[t := Working(e)];
      live := live[task.path := Live(e, Processed(t))];
    }

    /** mark_done: the worker gives the id free. */
    method MarkDone(t: Thread)
      requires Valid() && lock == None && At(t).Working?
      modifies this`processing, this`position, this`live, this`log
      ensures Valid()
      ensures live == old(live) - {old(At(t)).entry.task.path} && position == old(position)[t := Idle]
      ensures log == old(log) + [Finished(old(At(t)).entry.task)]
    {
      hide HeapPlaces, ThreadPlaces, Locked, NeverTwice, LiveUntilFinished;
      var task := At(t).entry.task;
      FinishKeeps(heap, position, live, t);
      LogFinishes(log, live.Keys, task);
      processing, position := processing - {task.path}, position[t := Idle];
      live, log := live - {task.path}, log + [Finished(task)];
    }

    /** Outside a critical section the answer is exact. */
    method IsActive(id: string) returns (active: bool)
      requires Valid() && lock == None
      ensures active <==> id in live
      ensures active <==>
                || (exists i :: 0 <= i < |heap| && heap[i].task.path == id)
                || (exists t :: t in position && Carries(position[t], id))
    {
      active := id in queued || id in processing;
      if id in live {
        ghost var e := live[id].entry;
        assert live[id].place == InHeap ==> e in heap;
        assert !live[id].place.InHeap? ==> Carries(position[live[id].place.thread], id);
      }
    }

    /** is_idle does not see tasks in transit: it is true exactly when every live task is there. */
    method IsIdleNow() returns (idle: bool)
      requires Valid() && lock == None
      ensures idle <==> forall id :: id in live ==> live[id].place.Carried?
    {
      idle := heap == [] && processing == {};
      if heap != [] { assert heap[0].task.path in live; }
      if processing != {} {
        var id :| id in processing;
        assert live[id].place.Processed?;
      }
    }

    /** No id is in two places, and no two workers hold the same id. */
    lemma {:induction false} OnePlace(t: Thread, u: Thread, i: nat)
      requires Valid() && (At(t).InTransit? || At(t).Working?)
      ensures (At(u).InTransit? || At(u).Working?) && At(t).entry.task.path == At(u).entry.task.path ==> t == u
      ensures i < |heap| ==> heap[i].task.path != At(t).entry.task.path
    {
    }

    // ------------------------------------------------------------ runs

    /** Whether a thread can take a step now; the others wait. */
    predicate Enabled(t: Thread, a: Action)
      reads this
    {
      match a
      case Enter(_) => lock == None && At(t) == Idle
      case Push(time) => At(t).Pushing? && Untied(heap, At(t).task, time)
      case Commit => At(t).Committing?
      case Pop => At(t) == Idle && heap != []
      case Mark => lock == None && At(t).InTransit?
      case Finish => lock == None && At(t).Working?
    }

    method Step(t: Thread, a: Action)
      requires Valid() && Enabled(t, a)
      modifies this
      ensures Valid() && old(log) <= log
    {
      hide Valid;
      match a {
        case Enter(task) => var _ := PutEnter(t, task);
        case Push(time) => PutPush(t, time);
        case Commit => PutCommit(t);
        case Pop => GetPop(t);
        case Mark => var _ := GetMark(t);
        case Finish => MarkDone(t);
      }
    }

    /** Every interleaving of putters and workers keeps the queue valid. */
    method Run(schedule: seq<(Thread, Action)>)
      requires Valid()
      modifies this
      ensures Valid() && old(log) <= log
    {
      hide Valid;
      for k := 0 to |schedule|
        invariant Valid() && old(log) <= log
      {
        if Enabled(schedule[k].0, schedule[k].1) { Step(schedule[k].0, schedule[k].1); }
      }
    }
  }
}
