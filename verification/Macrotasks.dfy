/** The macrotask queue of the event loop: timers, signals and user tasks, and callbacks that use it. */
module Macrotasks {
  import opened Wrappers

  /** Times are in milliseconds of a monotonic clock. */
  datatype Task =
    | Signal(due: nat)
    | Timer(repeat: bool, scheduled: nat, duration: nat, nesting: nat)
    | User(scheduled: nat)
  {
    function Deadline(): nat {
      match this
      case Signal(due) => due
      case Timer(_, scheduled, duration, _) => scheduled + duration
      case User(scheduled) => scheduled
    }

    /** Subtracting instants saturates at zero, so nothing is ever overdue. */
    function Remaining(now: nat): nat {
      if now <= Deadline() then Deadline() - now else 0
    }

    predicate Repeats() { Timer? && repeat }
  }

  datatype Note =
    | Enqueued(id: nat, task: Task, at: nat)
    | Cleared(id: nat)
    | Terminated(id: nat)
    | Started(id: nat, at: nat)
    | Finished(id: nat, at: nat)

  /** `terminated` holds the shared flags of signals; `log` is history. */
  datatype Queue = Queue(
    tasks: map<nat, Task>,
    nesting: nat,
    next: Option<nat>,
    latest: Option<nat>,
    terminated: set<nat>,
    now: nat,
    running: Option<nat>,
    log: seq<Note>)

  const Empty := Queue(map[], 0, None, None, {}, 0, None, [])

  function FreshId(q: Queue): nat {
    if q.latest.Some? then q.latest.value + 1 else 0
  }

  function SetNext(q: Queue, id: nat, task: Task): Queue {
    if task.Remaining(q.now) == 0 then q.(next := Some(id)) else q
  }

  /** MacrotaskQueue::enqueue with a generated id. */
  function Enqueue(q: Queue, task: Task): Queue {
    var id := FreshId(q);
    var q := if q.next.Some? && q.next.value in q.tasks then
               if task.Remaining(q.now) < q.tasks[q.next.value].Remaining(q.now) then SetNext(q, id, task) else q
             else SetNext(q, id, task);
    var q := if task.Timer? then q.(nesting := q.nesting + 1) else q;
    var task := if task.Timer? then task.(nesting := q.nesting) else task;
    q.(latest := Some(id), tasks := q.tasks[id := task], log := q.log + [Enqueued(id, task, q.now)])
  }

  const MINIMUM_DELAY := 1
  const MINIMUM_DELAY_NESTED := 4

  function MinimumDelay(q: Queue): nat {
    if q.nesting > 5 then MINIMUM_DELAY_NESTED else MINIMUM_DELAY
  }

  /** The delay asked for is clamped from below. */
  function SetTimer(q: Queue, delay: Option<int>, repeat: bool): Queue {
    var minimum := MinimumDelay(q);
    var duration := if delay.Some? && delay.value > minimum then delay.value else minimum;
    Enqueue(q, Timer(repeat, q.now, duration, 0))
  }

  function Clear(q: Queue, id: nat): Queue {
    if id in q.tasks then
      q.(tasks := q.tasks - {id}, next := if q.next == Some(id) then None else q.next, log := q.log + [Cleared(id)])
    else q
  }

  function Terminate(q: Queue, id: nat): Queue {
    if id in q.tasks && q.tasks[id].Signal? then
      q.(terminated := q.terminated + {id}, log := q.log + [Terminated(id)])
    else q
  }

  // ---- Callbacks and jobs -----------------------------------------------------------------------

  /** What a callback, or anything that runs between jobs, may do to the queue. */
  datatype Command =
    | SetTimeout(delay: Option<int>)
    | SetInterval(delay: Option<int>)
    | QueueTask
    | AddSignal(duration: nat)
    | ClearTask(id: nat)
    | AbortSignal(id: nat)
    | Wait(time: nat)

  function Perform(q: Queue, c: Command): Queue {
    match c
    case SetTimeout(delay) => SetTimer(q, delay, false)
    case SetInterval(delay) => SetTimer(q, delay, true)
    case QueueTask => Enqueue(q, User(q.now))
    case AddSignal(duration) => Enqueue(q, Signal(q.now + duration))
    case ClearTask(id) => Clear(q, id)
    case AbortSignal(id) => Terminate(q, id)
    case Wait(time) => q.(now := q.now + time)
  }

  function PerformAll(q: Queue, commands: seq<Command>): Queue
    decreases |commands|
  {
    if commands == [] then q else PerformAll(Perform(q, commands[0]), commands[1..])
  }

  predicate Ready(q: Queue, id: nat) {
    id in q.tasks && id !in q.terminated && q.tasks[id].Remaining(q.now) == 0
  }

  /** find_next drops terminated signals; it may pick any task that is due, and picks one if it can. */
  function Purge(q: Queue): Queue {
    q.(tasks := map id | id in q.tasks && id !in q.terminated :: q.tasks[id])
  }

  function Begin(q: Queue, id: nat): Queue {
    Purge(q).(next := Some(id), running := Some(id), log := q.log + [Started(id, q.now)])
  }

  /** After the callback: a repeating timer is scheduled anew, any other task is removed. */
  function End(q: Queue, id: nat): Queue {
    var q := q.(running := None, log := q.log + [Finished(id, q.now)]);
    if id !in q.tasks then q
    else if q.tasks[id].Repeats() then q.(tasks := q.tasks[id := q.tasks[id].(scheduled := q.now)])
    else q.(tasks := q.tasks - {id})
  }

  datatype Event = Outside(command: Command) | Job(id: nat, callback: seq<Command>) | IdleJob

  /** One run_job runs the chosen task's callback, whose commands may use the queue. */
  predicate Possible(q: Queue, e: Event) {
    match e
    case Outside(_) => true
    case Job(id, _) => Ready(q, id)
    case IdleJob => forall id :: id in q.tasks ==> !Ready(q, id)
  }

  function Happen(q: Queue, e: Event): Queue {
    match e
    case Outside(command) => Perform(q, command)
    case Job(id, callback) => End(PerformAll(Begin(q, id), callback), id)
    case IdleJob => Purge(q).(next := None)
  }

  function Run(q: Queue, events: seq<Event>): Queue
    decreases |events|
  {
    if events == [] then q
    else if !Possible(q, events[0]) then Run(q, events[1..])
    else Run(Happen(q, events[0]), events[1..])
  }

  // ---- What a log may contain -------------------------------------------------------------------

  /** The earliest time at which a task enqueued at `at` may start for the first time. */
  function EarliestStart(task: Task, at: nat): nat {
    match task
    case Signal(due) => due
    case Timer(_, _, duration, _) => at + duration
    case User(_) => at
  }

  /** The task with this id was enqueued as an interval with at most this duration. */
  ghost predicate IntervalWithin(before: seq<Note>, id: nat, duration: int) {
    forall h :: 0 <= h < |before| && before[h].Enqueued? && before[h].id == id ==>
      before[h].task.Repeats() && before[h].task.duration <= duration
  }

  ghost predicate EverEnqueued(before: seq<Note>, id: nat) {
    exists h :: 0 <= h < |before| && before[h].Enqueued? && before[h].id == id
  }

  /** A task may start at `at` in spite of the earlier note `n` about it. */
  ghost predicate StartAllowed(before: seq<Note>, n: Note, at: nat) {
    match n
    case Enqueued(_, task, since) => EarliestStart(task, since) <= at
    case Cleared(_) => false
    case Terminated(_) => false
    case Started(id, since) => IntervalWithin(before, id, at - since)
    case Finished(id, since) => IntervalWithin(before, id, at - since)
  }

  /**
   What must precede a note. Ids grow, so none is used twice. A start is of an enqueued task, not
   cleared and not terminated, at or after its deadline; it is its first start unless the task is
   an interval, and then a full duration has gone by since it last finished.
   */
  ghost predicate Follows(before: seq<Note>, n: Note) {
    match n
    case Enqueued(id, _, _) => forall i :: 0 <= i < |before| && before[i].Enqueued? ==> before[i].id < id
    case Started(id, at) =>
      && EverEnqueued(before, id)
      && forall i :: 0 <= i < |before| && before[i].id == id ==> StartAllowed(before, before[i], at)
    case _ => true
  }

  ghost predicate Orderly(log: seq<Note>) {
    forall j :: 0 <= j < |log| ==> Follows(log[..j], log[j])
  }

  // ---- Invariant --------------------------------------------------------------------------------

  ghost predicate SameTask(a: Task, b: Task) {
    match a
    case Signal(due) => b == Signal(due)
    case Timer(repeat, _, duration, _) => b.Timer? && b.repeat == repeat && b.duration == duration
    case User(_) => b.User?
  }

  /** What the log says about a task that is still in the queue. */
  ghost predicate Consistent(q: Queue, id: nat, n: Note)
    requires id in q.tasks
  {
    var task := q.tasks[id];
    match n
    case Enqueued(_, asEnqueued, at) => SameTask(task, asEnqueued) && EarliestStart(asEnqueued, at) <= task.Deadline()
    case Cleared(_) => false
    case Terminated(_) => id in q.terminated
    case Started(_, at) => q.running == Some(id) || (task.Repeats() && at + task.duration <= task.Deadline())
    case Finished(_, at) => task.Repeats() && at + task.duration <= task.Deadline()
  }

  function TimeOf(n: Note): nat {
    if n.Cleared? || n.Terminated? then 0 else n.at
  }

  ghost predicate Sound(q: Queue) {
    && Orderly(q.log)
    && (forall i :: 0 <= i < |q.log| ==> q.log[i].id < FreshId(q))
    && (forall i :: 0 <= i < |q.log| ==> TimeOf(q.log[i]) <= q.now)
    && (forall id :: id in q.tasks ==> id < FreshId(q) && EverEnqueued(q.log, id))
    && (forall id, i :: id in q.tasks && 0 <= i < |q.log| && q.log[i].id == id ==> Consistent(q, id, q.log[i]))
    && (q.running.Some? ==> q.running.value < FreshId(q))
  }

  lemma OrderlyPush(log: seq<Note>, n: Note)
    requires Orderly(log) && Follows(log, n)
    ensures Orderly(log + [n])
  {
    var longer := log + [n];
    forall j | 0 <= j < |longer| ensures Follows(longer[..j], longer[j]) {
      if j < |log| {
        assert longer[..j] == log[..j];
      } else {
        assert longer[..j] == log;
      }
    }
  }

  lemma EverEnqueuedPush(log: seq<Note>, n: Note, id: nat)
    requires EverEnqueued(log, id) || (n.Enqueued? && n.id == id)
    ensures EverEnqueued(log + [n], id)
  {
    var longer := log + [n];
    if EverEnqueued(log, id) {
      var h :| 0 <= h < |log| && log[h].Enqueued? && log[h].id == id;
      assert longer[h] == log[h];
    } else {
      assert longer[|log|] == n;
    }
  }

  lemma EnqueueKeeps(q: Queue, task: Task)
    requires Sound(q)
    requires match task case Timer(_, scheduled, _, _) => scheduled == q.now case User(s) => s == q.now case _ => true
    ensures Sound(Enqueue(q, task)) && Enqueue(q, task).running == q.running && Enqueue(q, task).now == q.now
    ensures exists e :: Enqueue(q, task).log == q.log + [e] && e.Enqueued?
  {
    var q' := Enqueue(q, task);
    var id := FreshId(q);
    var e := q'.log[|q.log|];
    assert q'.log == q.log + [e] && e.id == id && q'.tasks == q.tasks[id := e.task];
    OrderlyPush(q.log, e);
    EnqueuedIsSound(q, q', e);
  }

  lemma EnqueuedIsSound(q: Queue, q': Queue, e: Note)
    requires Sound(q) && e.Enqueued? && e.id == FreshId(q) && e.at == q.now
    requires EarliestStart(e.task, e.at) <= e.task.Deadline()
    requires q'.log == q.log + [e] && q'.tasks == q.tasks[e.id := e.task] && Orderly(q'.log)
    requires q'.latest == Some(e.id) && q'.now == q.now && q'.running == q.running && q'.terminated == q.terminated
    ensures Sound(q')
  {
    hide Orderly, EverEnqueued;
    forall k | k in q'.tasks ensures EverEnqueued(q'.log, k) {
      EverEnqueuedPush(q.log, e, k);
    }
    forall k, i | k in q'.tasks && 0 <= i < |q'.log| && q'.log[i].id == k
      ensures Consistent(q', k, q'.log[i])
    {
      if k != e.id {
        assert q'.log[i] == q.log[i] && Consistent(q, k, q.log[i]);
      } else {
        assert i == |q.log|;
      }
    }
  }

  lemma ClearKeeps(q: Queue, id: nat)
    requires Sound(q)
    ensures Sound(Clear(q, id)) && Clear(q, id).running == q.running && Clear(q, id).now == q.now
  {
    var q' := Clear(q, id);
    if id in q.tasks {
      NoteKeeps(q, q', Cleared(id));
    }
  }

  lemma TerminateKeeps(q: Queue, id: nat)
    requires Sound(q)
    ensures Sound(Terminate(q, id)) && Terminate(q, id).running == q.running && Terminate(q, id).now == q.now
  {
    var q' := Terminate(q, id);
    if q' != q {
      NoteKeeps(q, q', Terminated(id));
    }
  }

  /** A note about an old task, with the remaining tasks consistent with it. */
  lemma NoteKeeps(q: Queue, q': Queue, n: Note)
    requires Sound(q)
    requires q'.log == q.log + [n] && n.id < FreshId(q) && Follows(q.log, n)
    requires q'.latest == q.latest && q'.now == q.now && q.terminated <= q'.terminated
    requires TimeOf(n) <= q.now
    requires q'.running.Some? ==> q'.running.value < FreshId(q)
    requires forall k :: k in q'.tasks ==> k in q.tasks && q'.tasks[k] == q.tasks[k]
    requires forall k :: k in q'.tasks && k == n.id ==> Consistent(q', k, n)
    requires forall k, i :: k in q'.tasks && 0 <= i < |q.log| && q.log[i].id == k && q.log[i].Started? ==>
               Consistent(q', k, q.log[i])
    ensures Sound(q')
  {
    OrderlyPush(q.log, n);
    forall k | k in q'.tasks ensures EverEnqueued(q'.log, k) {
      EverEnqueuedPush(q.log, n, k);
    }
    forall k, i | k in q'.tasks && 0 <= i < |q'.log| && q'.log[i].id == k
      ensures Consistent(q', k, q'.log[i])
    {
      if i < |q.log| {
        assert q'.log[i] == q.log[i] && Consistent(q, k, q.log[i]);
      }
    }
  }

  lemma PerformKeeps(q: Queue, c: Command)
    requires Sound(q)
    ensures Sound(Perform(q, c)) && Perform(q, c).running == q.running && q.now <= Perform(q, c).now
  {
    hide Sound;
    match c
    case SetTimeout(delay) => TimerKeeps(q, delay, false);
    case SetInterval(delay) => TimerKeeps(q, delay, true);
    case QueueTask => EnqueueKeeps(q, User(q.now));
    case AddSignal(duration) => EnqueueKeeps(q, Signal(q.now + duration));
    case ClearTask(id) => ClearKeeps(q, id);
    case AbortSignal(id) => TerminateKeeps(q, id);
    case Wait(time) => LaterKeeps(q, q.now + time);
  }

  lemma LaterKeeps(q: Queue, now: nat)
    requires Sound(q) && q.now <= now
    ensures Sound(q.(now := now))
  {
    var q' := q.(now := now);
    forall k, i | k in q'.tasks && 0 <= i < |q'.log| && q'.log[i].id == k
      ensures Consistent(q', k, q'.log[i])
    {
      assert Consistent(q, k, q.log[i]);
    }
  }

  lemma TimerKeeps(q: Queue, delay: Option<int>, repeat: bool)
    requires Sound(q)
    ensures var q' := SetTimer(q, delay, repeat); Sound(q') && q'.running == q.running && q'.now == q.now
  {
    var minimum := MinimumDelay(q);
    var duration := if delay.Some? && delay.value > minimum then delay.value else minimum;
    EnqueueKeeps(q, Timer(repeat, q.now, duration, 0));
  }

  lemma {:induction false} PerformAllKeeps(q: Queue, commands: seq<Command>)
    requires Sound(q)
    ensures Sound(PerformAll(q, commands)) && PerformAll(q, commands).running == q.running
    ensures q.now <= PerformAll(q, commands).now
    decreases |commands|
  {
    hide Sound;
    if commands != [] {
      PerformKeeps(q, commands[0]);
      PerformAllKeeps(Perform(q, commands[0]), commands[1..]);
    }
  }

  lemma BeginKeeps(q: Queue, id: nat)
    requires Sound(q) && Ready(q, id) && q.running == None
    ensures Sound(Begin(q, id))
  {
    var n := Started(id, q.now);
    forall i | 0 <= i < |q.log| && q.log[i].id == id ensures StartAllowed(q.log, q.log[i], q.now) {
      assert Consistent(q, id, q.log[i]);
      IntervalFacts(q, id);
    }
    NoteKeeps(q, Begin(q, id), n);
  }

  /** A repeating task in the queue was enqueued as an interval of the same duration. */
  lemma IntervalFacts(q: Queue, id: nat)
    requires Sound(q) && id in q.tasks
    ensures q.tasks[id].Repeats() ==>
              forall d: int :: q.tasks[id].duration <= d ==> IntervalWithin(q.log, id, d)
  {
    if q.tasks[id].Repeats() {
      forall d: int | q.tasks[id].duration <= d ensures IntervalWithin(q.log, id, d) {
        forall h | 0 <= h < |q.log| && q.log[h].Enqueued? && q.log[h].id == id
          ensures q.log[h].task.Repeats() && q.log[h].task.duration <= d
        {
          assert Consistent(q, id, q.log[h]);
        }
      }
    }
  }

  lemma EndKeeps(q: Queue, id: nat)
    requires Sound(q) && q.running == Some(id)
    ensures Sound(End(q, id)) && End(q, id).running == None
  {
    var q' := End(q, id);
    var n := Finished(id, q.now);
    assert q'.log == q.log + [n];
    OrderlyPush(q.log, n);
    FinishedIsSound(q, q', id);
  }

  lemma FinishedIsSound(q: Queue, q': Queue, id: nat)
    requires Sound(q) && q.running == Some(id)
    requires q'.log == q.log + [Finished(id, q.now)] && Orderly(q'.log)
    requires q'.latest == q.latest && q'.now == q.now && q'.running == None && q'.terminated == q.terminated
    requires forall k :: k in q'.tasks ==> k in q.tasks && (k != id ==> q'.tasks[k] == q.tasks[k])
    requires id in q'.tasks ==> q.tasks[id].Repeats() && q'.tasks[id] == q.tasks[id].(scheduled := q.now)
    ensures Sound(q')
  {
    hide Orderly, EverEnqueued;
    forall k | k in q'.tasks ensures EverEnqueued(q'.log, k) {
      EverEnqueuedPush(q.log, Finished(id, q.now), k);
    }
    forall k, i | k in q'.tasks && 0 <= i < |q'.log| && q'.log[i].id == k
      ensures Consistent(q', k, q'.log[i])
    {
      if i < |q.log| {
        assert q'.log[i] == q.log[i] && Consistent(q, k, q.log[i]) && TimeOf(q.log[i]) <= q.now;
      }
    }
  }

  /** Each job appends one start and one finish; the callback itself starts nothing. */
  function Starts(log: seq<Note>): nat {
    if log == [] then 0 else Starts(log[..|log| - 1]) + (if log[|log| - 1].Started? then 1 else 0)
  }

  lemma StartsPush(log: seq<Note>, n: Note)
    ensures Starts(log + [n]) == Starts(log) + (if n.Started? then 1 else 0)
  {
    assert (log + [n])[..|log|] == log;
  }

  lemma CommandStartsNothing(q: Queue, c: Command)
    ensures Starts(Perform(q, c).log) == Starts(q.log)
  {
    var q' := Perform(q, c);
    if q'.log != q.log {
      var n := q'.log[|q.log|];
      assert q'.log == q.log + [n] && !n.Started?;
      StartsPush(q.log, n);
    }
  }

  lemma {:induction false} CallbackStartsNothing(q: Queue, commands: seq<Command>)
    ensures Starts(PerformAll(q, commands).log) == Starts(q.log)
    decreases |commands|
  {
    if commands != [] {
      CommandStartsNothing(q, commands[0]);
      CallbackStartsNothing(Perform(q, commands[0]), commands[1..]);
    }
  }

  lemma HappenKeeps(q: Queue, e: Event)
    requires Sound(q) && q.running == None && Possible(q, e)
    ensures Sound(Happen(q, e)) && Happen(q, e).running == None
    ensures Starts(Happen(q, e).log) == Starts(q.log) + (if e.Job? then 1 else 0)
  {
    hide Sound, Begin, End, PerformAll, Perform, Purge;
    match e
    case Outside(command) => PerformKeeps(q, command); CommandStartsNothing(q, command);
    case Job(id, callback) => JobKeeps(q, id, callback);
    case IdleJob => PurgeKeeps(q);
  }

  lemma JobKeeps(q: Queue, id: nat, callback: seq<Command>)
    requires Sound(q) && q.running == None && Ready(q, id)
    ensures var q' := End(PerformAll(Begin(q, id), callback), id);
            Sound(q') && q'.running == None && Starts(q'.log) == Starts(q.log) + 1
  {
    hide Sound, PerformAll, Starts;
    var begun := Begin(q, id);
    BeginKeeps(q, id);
    StartsPush(q.log, Started(id, q.now));
    PerformAllKeeps(begun, callback);
    CallbackStartsNothing(begun, callback);
    var done := PerformAll(begun, callback);
    EndKeeps(done, id);
    StartsPush(done.log, Finished(id, done.now));
  }

  lemma PurgeKeeps(q: Queue)
    requires Sound(q)
    ensures var q' := Purge(q).(next := None);
            Sound(q') && q'.running == q.running && Starts(q'.log) == Starts(q.log)
  {
    var q' := Purge(q).(next := None);
    forall k, i | k in q'.tasks && 0 <= i < |q'.log| && q'.log[i].id == k
      ensures Consistent(q', k, q'.log[i])
    {
      assert Consistent(q, k, q.log[i]);
    }
  }

  lemma {:induction false} RunKeeps(q: Queue, events: seq<Event>)
    requires Sound(q) && q.running == None
    ensures Sound(Run(q, events))
    decreases |events|
  {
    hide Sound, Possible, Happen;
    if events != [] {
      if !Possible(q, events[0]) {
        RunKeeps(q, events[1..]);
      } else {
        HappenKeeps(q, events[0]);
        RunKeeps(Happen(q, events[0]), events[1..]);
      }
    }
  }

  /** Every start on every run, whatever the callbacks enqueue and clear, is in order. */
  lemma EveryStartIsInOrder(events: seq<Event>)
    ensures Orderly(Run(Empty, events).log)
  {
    RunKeeps(Empty, events);
  }

  // ---- Clamped delays ---------------------------------------------------------------------------

  function Timers(log: seq<Note>): nat {
    if log == [] then 0
    else
      var last := log[|log| - 1];
      Timers(log[..|log| - 1]) + (if last.Enqueued? && last.task.Timer? then 1 else 0)
  }

  /** Every timer waits at least a millisecond, and four once more than five timers came before it. */
  ghost predicate Clamped(q: Queue) {
    && q.nesting == Timers(q.log)
    && forall j :: 0 <= j < |q.log| && q.log[j].Enqueued? && q.log[j].task.Timer? ==>
         q.log[j].task.duration >= (if Timers(q.log[..j]) > 5 then 4 else 1)
  }

  lemma NoteClamped(q: Queue, q': Queue, n: Note)
    requires Clamped(q) && q'.log == q.log + [n]
    requires q'.nesting == q.nesting + (if n.Enqueued? && n.task.Timer? then 1 else 0)
    requires n.Enqueued? && n.task.Timer? ==> n.task.duration >= MinimumDelay(q)
    ensures Clamped(q')
  {
    assert q'.log[..|q.log|] == q.log;
    forall j | 0 <= j < |q'.log| && q'.log[j].Enqueued? && q'.log[j].task.Timer?
      ensures q'.log[j].task.duration >= (if Timers(q'.log[..j]) > 5 then 4 else 1)
    {
      if j < |q.log| {
        assert q'.log[..j] == q.log[..j] && q'.log[j] == q.log[j];
      }
    }
  }

  lemma CommandClamped(q: Queue, c: Command)
    requires Clamped(q)
    ensures Clamped(Perform(q, c))
  {
    hide Clamped, Timers;
    var q' := Perform(q, c);
    if q'.log != q.log {
      var n := q'.log[|q.log|];
      assert q'.log == q.log + [n];
      NoteClamped(q, q', n);
    } else {
      SameLogClamped(q, q');
    }
  }

  lemma SameLogClamped(q: Queue, q': Queue)
    requires Clamped(q) && q'.log == q.log && q'.nesting == q.nesting
    ensures Clamped(q')
  {
  }

  lemma {:induction false} CallbackClamped(q: Queue, commands: seq<Command>)
    requires Clamped(q)
    ensures Clamped(PerformAll(q, commands))
    decreases |commands|
  {
    hide Clamped;
    if commands != [] {
      CommandClamped(q, commands[0]);
      CallbackClamped(Perform(q, commands[0]), commands[1..]);
    }
  }

  lemma {:induction false} DelaysAreClamped(q: Queue, events: seq<Event>)
    requires Clamped(q)
    ensures Clamped(Run(q, events))
    decreases |events|
  {
    hide Clamped, Perform, PerformAll, Possible;
    if events != [] {
      if !Possible(q, events[0]) {
        DelaysAreClamped(q, events[1..]);
      } else {
        match events[0] {
          case Outside(command) => CommandClamped(q, command);
          case Job(id, callback) =>
            NoteClamped(q, Begin(q, id), Started(id, q.now));
            CallbackClamped(Begin(q, id), callback);
            var done := PerformAll(Begin(q, id), callback);
            NoteClamped(done, End(done, id), Finished(id, done.now));
          case IdleJob => SameLogClamped(q, Happen(q, events[0]));
        }
        DelaysAreClamped(Happen(q, events[0]), events[1..]);
      }
    }
  }

  /** So on every run from the empty queue: a timer waits at least its minimum, by its place in the log. */
  lemma EveryDelayIsClamped(events: seq<Event>)
    ensures var log := Run(Empty, events).log;
            forall j :: 0 <= j < |log| && log[j].Enqueued? && log[j].task.Timer? ==>
              log[j].task.duration >= (if Timers(log[..j]) > 5 then 4 else 1)
  {
    DelaysAreClamped(Empty, events);
  }

  // ---- The remembered next task -------------------------------------------------------------------

  /** The same but for the task remembered as the next one. */
  predicate Alike(q: Queue, r: Queue) {
    q.(next := None) == r.(next := None)
  }

  lemma EnqueueAlike(q: Queue, r: Queue, task: Task)
    requires Alike(q, r)
    ensures Alike(Enqueue(q, task), Enqueue(r, task))
  {
    assert FreshId(q) == FreshId(r);
    hide FreshId, Task.Remaining;
  }

  lemma ClearAlike(q: Queue, r: Queue, id: nat)
    requires Alike(q, r)
    ensures Alike(Clear(q, id), Clear(r, id))
  {
  }

  lemma SetTimerAlike(q: Queue, r: Queue, delay: Option<int>, repeat: bool)
    requires Alike(q, r)
    ensures Alike(SetTimer(q, delay, repeat), SetTimer(r, delay, repeat))
  {
    hide Enqueue;
    var minimum := MinimumDelay(q);
    var duration := if delay.Some? && delay.value > minimum then delay.value else minimum;
    EnqueueAlike(q, r, Timer(repeat, q.now, duration, 0));
  }

  lemma PerformAlike(q: Queue, r: Queue, c: Command)
    requires Alike(q, r)
    ensures Alike(Perform(q, c), Perform(r, c))
  {
    hide Enqueue, SetTimer, Clear;
    match c
    case SetTimeout(delay) => SetTimerAlike(q, r, delay, false);
    case SetInterval(delay) => SetTimerAlike(q, r, delay, true);
    case QueueTask => EnqueueAlike(q, r, User(q.now));
    case AddSignal(duration) => EnqueueAlike(q, r, Signal(q.now + duration));
    case ClearTask(id) => ClearAlike(q, r, id);
    case AbortSignal(_) =>
    case Wait(_) =>
  }

  lemma {:induction false} PerformAllAlike(q: Queue, r: Queue, commands: seq<Command>)
    requires Alike(q, r)
    ensures Alike(PerformAll(q, commands), PerformAll(r, commands))
    decreases |commands|
  {
    hide Alike, Perform;
    if commands != [] {
      PerformAlike(q, r, commands[0]);
      PerformAllAlike(Perform(q, commands[0]), Perform(r, commands[0]), commands[1..]);
    }
  }

  lemma HappenAlike(q: Queue, r: Queue, e: Event)
    requires Alike(q, r)
    ensures Possible(q, e) <==> Possible(r, e)
    ensures Possible(q, e) ==> Alike(Happen(q, e), Happen(r, e))
  {
    hide Perform, PerformAll;
    match e
    case Outside(command) => PerformAlike(q, r, command);
    case Job(id, callback) => PerformAllAlike(Begin(q, id), Begin(r, id), callback);
    case IdleJob =>
  }

  /**
   What `enqueue` and `set_next` remember as the next task decides nothing: two queues that differ
   only in it have the same runs, since every `run_job` searches for the next task anew.
   */
  lemma {:induction false} NextIsAdvisory(q: Queue, r: Queue, events: seq<Event>)
    requires Alike(q, r)
    ensures Alike(Run(q, events), Run(r, events))
    decreases |events|
  {
    hide Alike, Possible, Happen;
    if events != [] {
      HappenAlike(q, r, events[0]);
      if Possible(q, events[0]) {
        NextIsAdvisory(Happen(q, events[0]), Happen(r, events[0]), events[1..]);
      } else {
        NextIsAdvisory(q, r, events[1..]);
      }
    }
  }
}
