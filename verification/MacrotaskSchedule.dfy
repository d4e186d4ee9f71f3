/** The schedule that a log of the macrotask queue describes, and that the queue follows exactly. */
module MacrotaskSchedule {
  import opened Wrappers
  import opened Macrotasks

  // ---- The schedule ------------------------------------------------------------------------------

  /** What is planned for a task: nothing, a start at the earliest at `due`, its end, or its removal. */
  datatype Plan = Absent | Waiting(task: Task, due: nat) | Running(task: Task) | Aborted

  /** A task's plan, as the notes about it say, the last one first. */
  function PlanOf(log: seq<Note>, id: nat): Plan {
    if log == [] then Absent
    else
      var n, before := log[|log| - 1], PlanOf(log[..|log| - 1], id);
      if n.id != id then before
      else
        match n
        case Enqueued(_, task, at) => Waiting(task, EarliestStart(task, at))
        case Cleared(_) => Absent
        case Terminated(_) => Aborted
        case Started(_, _) => if before.Waiting? then Running(before.task) else before
        case Finished(_, at) =>
          if before.Running? && before.task.Repeats() then Waiting(before.task, at + before.task.duration) else Absent
  }

  /** The queue holds the task as its plan says. */
  ghost predicate FollowsPlan(q: Queue, id: nat) {
    match PlanOf(q.log, id)
    case Absent => id !in q.tasks
    case Aborted => id in q.terminated && (id in q.tasks ==> q.tasks[id].Signal?)
    case Waiting(task, due) =>
      id in q.tasks && id !in q.terminated && SameTask(q.tasks[id], task) && q.tasks[id].Deadline() == due
    case Running(task) =>
      id in q.tasks && id !in q.terminated && SameTask(q.tasks[id], task) && q.running == Some(id)
  }

  /** It does for every task, and only the running one has a start without an end. */
  ghost predicate Scheduled(q: Queue) {
    && (forall id :: FollowsPlan(q, id))
    && (forall id :: id in q.tasks || id in q.terminated ==> id < FreshId(q))
    && (q.running.Some? ==> q.running.value < FreshId(q) && !PlanOf(q.log, q.running.value).Waiting?)
  }

  lemma PlanPush(log: seq<Note>, n: Note, id: nat)
    ensures PlanOf(log + [n], id) ==
            if n.id != id then PlanOf(log, id)
            else
              match n
              case Enqueued(_, task, at) => Waiting(task, EarliestStart(task, at))
              case Cleared(_) => Absent
              case Terminated(_) => Aborted
              case Started(_, _) =>
                if PlanOf(log, id).Waiting? then Running(PlanOf(log, id).task) else PlanOf(log, id)
              case Finished(_, at) =>
                if PlanOf(log, id).Running? && PlanOf(log, id).task.Repeats()
                then Waiting(PlanOf(log, id).task, at + PlanOf(log, id).task.duration) else Absent
  {
    assert (log + [n])[..|log|] == log;
  }

  /** A note about one task, with everything else left as it was. */
  lemma NoteKeepsSchedule(q: Queue, q': Queue, n: Note)
    requires Scheduled(q) && q'.log == q.log + [n]
    requires forall id :: id != n.id ==>
               (id in q'.tasks <==> id in q.tasks) && (id in q'.terminated <==> id in q.terminated)
               && (id in q.tasks ==> q'.tasks[id] == q.tasks[id])
    requires q'.running == q.running || (q.running in {None, Some(n.id)} && q'.running in {None, Some(n.id)})
    requires FreshId(q) <= FreshId(q') && n.id < FreshId(q')
    requires FollowsPlan(q', n.id) && (q'.running.Some? ==> !PlanOf(q'.log, q'.running.value).Waiting?)
    ensures Scheduled(q')
  {
    forall id ensures FollowsPlan(q', id) {
      if id != n.id {
        assert FollowsPlan(q, id);
        PlanPush(q.log, n, id);
      }
    }
  }

  // ---- The commands ------------------------------------------------------------------------------

  lemma EnqueueKeepsSchedule(q: Queue, task: Task)
    requires Scheduled(q)
    requires match task case Timer(_, scheduled, _, _) => scheduled == q.now case User(s) => s == q.now case _ => true
    ensures Scheduled(Enqueue(q, task))
  {
    var q' := Enqueue(q, task);
    var n := q'.log[|q.log|];
    assert q'.log == q.log + [n] && n.Enqueued? && n.id == FreshId(q) && q'.tasks == q.tasks[n.id := n.task];
    PlanPush(q.log, n, n.id);
    hide PlanOf;
    if q.running.Some? { PlanPush(q.log, n, q.running.value); }
    NoteKeepsSchedule(q, q', n);
  }

  lemma ClearKeepsSchedule(q: Queue, id: nat)
    requires Scheduled(q)
    ensures Scheduled(Clear(q, id))
  {
    if id in q.tasks {
      var n := Cleared(id);
      PlanPush(q.log, n, id);
      hide PlanOf;
      if q.running.Some? { PlanPush(q.log, n, q.running.value); }
      NoteKeepsSchedule(q, Clear(q, id), n);
    }
  }

  lemma TerminateKeepsSchedule(q: Queue, id: nat)
    requires Scheduled(q)
    ensures Scheduled(Terminate(q, id))
  {
    if id in q.tasks && q.tasks[id].Signal? {
      var n := Terminated(id);
      PlanPush(q.log, n, id);
      hide PlanOf;
      if q.running.Some? { PlanPush(q.log, n, q.running.value); }
      NoteKeepsSchedule(q, Terminate(q, id), n);
    }
  }

  lemma PerformKeepsSchedule(q: Queue, c: Command)
    requires Scheduled(q)
    ensures Scheduled(Perform(q, c)) && Perform(q, c).running == q.running
  {
    hide Scheduled, FreshId;
    match c
    case SetTimeout(delay) => TimerKeepsSchedule(q, delay, false);
    case SetInterval(delay) => TimerKeepsSchedule(q, delay, true);
    case QueueTask => EnqueueKeepsSchedule(q, User(q.now));
    case AddSignal(duration) => EnqueueKeepsSchedule(q, Signal(q.now + duration));
    case ClearTask(id) => ClearKeepsSchedule(q, id);
    case AbortSignal(id) => TerminateKeepsSchedule(q, id);
    case Wait(time) => LaterKeepsSchedule(q, q.now + time);
  }

  lemma LaterKeepsSchedule(q: Queue, now: nat)
    requires Scheduled(q)
    ensures Scheduled(q.(now := now))
  {
    forall id ensures FollowsPlan(q.(now := now), id) { assert FollowsPlan(q, id); }
  }

  lemma TimerKeepsSchedule(q: Queue, delay: Option<int>, repeat: bool)
    requires Scheduled(q)
    ensures Scheduled(SetTimer(q, delay, repeat)) && SetTimer(q, delay, repeat).running == q.running
  {
    hide Scheduled;
    var minimum := MinimumDelay(q);
    var duration := if delay.Some? && delay.value > minimum then delay.value else minimum;
    EnqueueKeepsSchedule(q, Timer(repeat, q.now, duration, 0));
  }

  lemma {:induction false} CallbackKeepsSchedule(q: Queue, commands: seq<Command>)
    requires Scheduled(q)
    ensures Scheduled(PerformAll(q, commands)) && PerformAll(q, commands).running == q.running
    decreases |commands|
  {
    hide Scheduled, Perform;
    if commands != [] {
      PerformKeepsSchedule(q, commands[0]);
      CallbackKeepsSchedule(Perform(q, commands[0]), commands[1..]);
    }
  }

  // ---- The jobs ----------------------------------------------------------------------------------

  lemma PurgeKeepsSchedule(q: Queue)
    requires Scheduled(q)
    ensures Scheduled(Purge(q)) && Scheduled(Purge(q).(next := None))
  {
    forall id ensures FollowsPlan(Purge(q), id) && FollowsPlan(Purge(q).(next := None), id) {
      assert FollowsPlan(q, id);
    }
  }

  lemma BeginKeepsSchedule(q: Queue, id: nat)
    requires Scheduled(q) && q.running == None && Ready(q, id)
    ensures Scheduled(Begin(q, id))
  {
    PurgeKeepsSchedule(q);
    var n := Started(id, q.now);
    assert FollowsPlan(q, id);
    PlanPush(q.log, n, id);
    NoteKeepsSchedule(Purge(q), Begin(q, id), n);
  }

  lemma EndKeepsSchedule(q: Queue, id: nat)
    requires Scheduled(q) && q.running == Some(id)
    ensures Scheduled(End(q, id))
  {
    var n := Finished(id, q.now);
    assert FollowsPlan(q, id);
    PlanPush(q.log, n, id);
    NoteKeepsSchedule(q, End(q, id), n);
  }

  lemma HappenKeepsSchedule(q: Queue, e: Event)
    requires Scheduled(q) && q.running == None && Possible(q, e)
    ensures Scheduled(Happen(q, e)) && Happen(q, e).running == None
  {
    hide Scheduled, Perform, PerformAll, Purge;
    match e
    case Outside(command) => PerformKeepsSchedule(q, command);
    case Job(id, callback) =>
      BeginKeepsSchedule(q, id);
      CallbackKeepsSchedule(Begin(q, id), callback);
      EndKeepsSchedule(PerformAll(Begin(q, id), callback), id);
    case IdleJob => PurgeKeepsSchedule(q); PurgeLeavesRunning(q);
  }

  lemma PurgeLeavesRunning(q: Queue)
    ensures Purge(q).running == q.running
  {
  }

  lemma {:induction false} RunKeepsSchedule(q: Queue, events: seq<Event>)
    requires Scheduled(q) && q.running == None
    ensures Scheduled(Run(q, events)) && Run(q, events).running == None
    decreases |events|
  {
    hide Scheduled, Possible, Happen;
    if events != [] {
      if !Possible(q, events[0]) {
        RunKeepsSchedule(q, events[1..]);
      } else {
        HappenKeepsSchedule(q, events[0]);
        RunKeepsSchedule(Happen(q, events[0]), events[1..]);
      }
    }
  }

  /**
   On every run, between jobs: a task may start now if and only if the log plans a start for it that is due.
   So a job is idle only if none is: no due task is forgotten, and none starts that was cleared or aborted.
   */
  lemma ReadyIff(events: seq<Event>)
    ensures var q := Run(Empty, events);
            forall id :: Ready(q, id) <==> PlanOf(q.log, id).Waiting? && PlanOf(q.log, id).due <= q.now
  {
    EmptyIsScheduled();
    RunKeepsSchedule(Empty, events);
    var q := Run(Empty, events);
    forall id ensures Ready(q, id) <==> PlanOf(q.log, id).Waiting? && PlanOf(q.log, id).due <= q.now {
      assert FollowsPlan(q, id);
    }
  }

  lemma EmptyIsScheduled()
    ensures Scheduled(Empty)
  {
  }

  // ---- What the log says of a command ------------------------------------------------------------

  /** The larger of the delay asked for and the minimum; four milliseconds once more than five timers came before. */
  function Duration(log: seq<Note>, delay: Option<int>): nat {
    var minimum := if Timers(log) > 5 then 4 else 1;
    match delay
    case None => minimum
    case Some(d) => if d < minimum then minimum else d
  }

  /** The note that a command writes, if it does anything that a note tells. */
  function NoteOf(q: Queue, c: Command): Option<Note> {
    match c
    case SetTimeout(delay) =>
      Some(Enqueued(FreshId(q), Timer(false, q.now, Duration(q.log, delay), Timers(q.log) + 1), q.now))
    case SetInterval(delay) =>
      Some(Enqueued(FreshId(q), Timer(true, q.now, Duration(q.log, delay), Timers(q.log) + 1), q.now))
    case QueueTask => Some(Enqueued(FreshId(q), User(q.now), q.now))
    case AddSignal(duration) => Some(Enqueued(FreshId(q), Signal(q.now + duration), q.now))
    case ClearTask(id) => if id in q.tasks then Some(Cleared(id)) else None
    case AbortSignal(id) => if id in q.tasks && q.tasks[id].Signal? then Some(Terminated(id)) else None
    case Wait(_) => None
  }

  /** A command writes its note, under a fresh id if it enqueues; only waiting lets time pass. */
  lemma CommandIsTold(q: Queue, c: Command)
    requires Clamped(q)
    ensures var q' := Perform(q, c);
            && q'.log == q.log + (if NoteOf(q, c).Some? then [NoteOf(q, c).value] else [])
            && q'.now == q.now + (if c.Wait? then c.time else 0)
    ensures !c.Wait? && !c.ClearTask? && !c.AbortSignal? ==> FreshId(Perform(q, c)) == FreshId(q) + 1
  {
    assert q.nesting == Timers(q.log);
    hide Clamped, Timers;
    assert q.log + [] == q.log;
  }

  /** Clearing a planned task is noted, and leaves every other task as it was. */
  lemma ClearIsTold(q: Queue, id: nat)
    requires Scheduled(q)
    ensures var q' := Perform(q, ClearTask(id));
            && id !in q'.tasks && (forall k :: k != id ==> (k in q'.tasks <==> k in q.tasks))
            && (forall k :: k != id && k in q.tasks ==> q'.tasks[k] == q.tasks[k])
            && q' == q.(tasks := q'.tasks, log := q'.log, next := q'.next)
            && (PlanOf(q.log, id).Waiting? || PlanOf(q.log, id).Running? ==> q'.log == q.log + [Cleared(id)])
            && PlanOf(q'.log, id) in {Absent, Aborted}
  {
    assert FollowsPlan(q, id);
    PlanPush(q.log, Cleared(id), id);
  }

  /** Aborting a planned signal is noted, and leaves every task where it is. */
  lemma AbortIsTold(q: Queue, id: nat)
    requires Scheduled(q) && PlanOf(q.log, id).Waiting? && PlanOf(q.log, id).task.Signal?
    ensures var q' := Perform(q, AbortSignal(id));
            && q'.log == q.log + [Terminated(id)] && PlanOf(q'.log, id) == Aborted
            && q' == q.(terminated := q'.terminated, log := q'.log)
            && forall k :: k != id ==> (k in q'.terminated <==> k in q.terminated)
  {
    assert FollowsPlan(q, id);
    PlanPush(q.log, Terminated(id), id);
  }

  /** A job notes its start, then what its callback commands, then its end. */
  lemma JobIsTold(q: Queue, id: nat, callback: seq<Command>)
    requires Ready(q, id)
    ensures var begun, q' := Begin(q, id), Happen(q, Job(id, callback));
            && begun.log == q.log + [Started(id, q.now)] && begun.now == q.now
            && q'.log == PerformAll(begun, callback).log + [Finished(id, q'.now)]
            && q'.now == PerformAll(begun, callback).now
  {
    hide PerformAll;
  }

  // ---- Cleared and aborted tasks -----------------------------------------------------------------

  /** The task can start no more: it is out of the queue, or aborted. */
  predicate Barred(q: Queue, id: nat) {
    id < FreshId(q) && (id !in q.tasks || id in q.terminated)
  }

  /** From `n` on the log tells of no start of this task. */
  ghost predicate NoStart(log: seq<Note>, n: nat, id: nat) {
    n <= |log| && forall i :: n <= i < |log| ==> !(log[i].Started? && log[i].id == id)
  }

  lemma CommandKeepsBarred(q: Queue, c: Command, id: nat)
    requires Barred(q, id)
    ensures Barred(Perform(q, c), id) && q.log <= Perform(q, c).log && NoStart(Perform(q, c).log, |q.log|, id)
  {
  }

  lemma {:induction false} CallbackKeepsBarred(q: Queue, commands: seq<Command>, id: nat)
    requires Barred(q, id)
    ensures var q' := PerformAll(q, commands);
            Barred(q', id) && q.log <= q'.log && NoStart(q'.log, |q.log|, id)
    decreases |commands|
  {
    hide Barred, Perform;
    if commands != [] {
      CommandKeepsBarred(q, commands[0], id);
      CallbackKeepsBarred(Perform(q, commands[0]), commands[1..], id);
    }
  }

  lemma EndKeepsBarred(q: Queue, running: nat, id: nat)
    requires Barred(q, id)
    ensures var q' := End(q, running); Barred(q', id) && q.log <= q'.log && NoStart(q'.log, |q.log|, id)
  {
  }

  lemma BeginKeepsBarred(q: Queue, started: nat, id: nat)
    requires Barred(q, id) && Ready(q, started)
    ensures var q' := Begin(q, started); Barred(q', id) && q.log <= q'.log && NoStart(q'.log, |q.log|, id)
  {
  }

  lemma HappenKeepsBarred(q: Queue, e: Event, id: nat)
    requires Barred(q, id) && Possible(q, e)
    ensures var q' := Happen(q, e); Barred(q', id) && q.log <= q'.log && NoStart(q'.log, |q.log|, id)
  {
    hide Barred, Perform, PerformAll, Begin, End, Purge;
    match e
    case Outside(command) => CommandKeepsBarred(q, command, id);
    case Job(started, callback) =>
      BeginKeepsBarred(q, started, id);
      CallbackKeepsBarred(Begin(q, started), callback, id);
      EndKeepsBarred(PerformAll(Begin(q, started), callback), started, id);
    case IdleJob => IdleKeepsBarred(q, id);
  }

  lemma IdleKeepsBarred(q: Queue, id: nat)
    requires Barred(q, id)
    ensures Barred(Purge(q).(next := None), id) && Purge(q).log == q.log
  {
  }

  lemma {:induction false} BarredNeverStarts(q: Queue, events: seq<Event>, id: nat)
    requires Barred(q, id)
    ensures var q' := Run(q, events); q.log <= q'.log && NoStart(q'.log, |q.log|, id)
    decreases |events|
  {
    hide Barred, Possible, Happen;
    if events != [] {
      if !Possible(q, events[0]) {
        BarredNeverStarts(q, events[1..], id);
      } else {
        HappenKeepsBarred(q, events[0], id);
        BarredNeverStarts(Happen(q, events[0]), events[1..], id);
      }
    }
  }

  /** The command takes a task out of the plan: it clears it, or aborts a signal that is in the queue. */
  predicate Bars(q: Queue, c: Command, id: nat) {
    || (c == ClearTask(id) && id < FreshId(q))
    || (c == AbortSignal(id) && id in q.tasks && q.tasks[id].Signal?)
  }

  lemma CommandBars(q: Queue, c: Command, id: nat)
    requires Scheduled(q) && Bars(q, c, id)
    ensures Barred(Perform(q, c), id) && q.log <= Perform(q, c).log && NoStart(Perform(q, c).log, |q.log|, id)
  {
  }

  /** Whatever happens after the command that clears or aborts a task, the task never starts again. */
  lemma ClearedNeverStarts(q: Queue, c: Command, id: nat, events: seq<Event>)
    requires Scheduled(q) && Bars(q, c, id)
    ensures NoStart(Run(Perform(q, c), events).log, |q.log|, id)
  {
    hide Scheduled, Barred, Bars, Run, Perform;
    CommandBars(q, c, id);
    BarredNeverStarts(Perform(q, c), events, id);
  }

  lemma {:induction false} PerformAllConcat(q: Queue, a: seq<Command>, b: seq<Command>)
    ensures PerformAll(q, a + b) == PerformAll(PerformAll(q, a), b)
    decreases |a|
  {
    hide Perform;
    if a == [] {
      assert a + b == b;
    } else {
      assert (a + b)[0] == a[0] && (a + b)[1..] == a[1..] + b;
      PerformAllConcat(Perform(q, a[0]), a[1..], b);
    }
  }

  /** Nor does it if the command is one that a callback gives, its own included. */
  lemma ClearedByCallback(q: Queue, job: nat, callback: seq<Command>, k: nat, id: nat, events: seq<Event>)
    requires Scheduled(q) && q.running == None && Ready(q, job) && k < |callback|
    requires Bars(PerformAll(Begin(q, job), callback[..k]), callback[k], id)
    ensures var before := PerformAll(Begin(q, job), callback[..k]);
            NoStart(Run(Happen(q, Job(job, callback)), events).log, |before.log|, id)
  {
    hide Scheduled, Barred, Bars, Run, Perform, PerformAll, Begin, End;
    var before := PerformAll(Begin(q, job), callback[..k]);
    BeginKeepsSchedule(q, job);
    CallbackKeepsSchedule(Begin(q, job), callback[..k]);
    CommandBars(before, callback[k], id);
    var after := Perform(before, callback[k]);
    assert callback == callback[..k] + callback[k..];
    PerformAllConcat(Begin(q, job), callback[..k], callback[k..]);
    FirstThenRest(before, callback[k..]);
    CallbackKeepsBarred(after, callback[k + 1..], id);
    var done := PerformAll(after, callback[k + 1..]);
    EndKeepsBarred(done, job, id);
    BarredNeverStarts(End(done, job), events, id);
  }

  lemma FirstThenRest(q: Queue, commands: seq<Command>)
    requires commands != []
    ensures PerformAll(q, commands) == PerformAll(Perform(q, commands[0]), commands[1..])
  {
  }

  // ---- Intervals ---------------------------------------------------------------------------------

  lemma CommandKeepsTask(q: Queue, c: Command, id: nat)
    requires id in q.tasks && id < FreshId(q)
    ensures c != ClearTask(id) ==> id in Perform(q, c).tasks && Perform(q, c).tasks[id] == q.tasks[id]
    ensures c == ClearTask(id) ==> id !in Perform(q, c).tasks
    ensures id < FreshId(Perform(q, c))
  {
  }

  lemma {:induction false} ClearedStaysOut(q: Queue, commands: seq<Command>, id: nat)
    requires id !in q.tasks && id < FreshId(q)
    ensures id !in PerformAll(q, commands).tasks
    decreases |commands|
  {
    if commands != [] { ClearedStaysOut(Perform(q, commands[0]), commands[1..], id); }
  }

  /** Only a command that clears a task takes it out of the queue; nothing else that a callback does changes it. */
  lemma {:induction false} CallbackKeepsTask(q: Queue, commands: seq<Command>, id: nat)
    requires id in q.tasks && id < FreshId(q)
    ensures var q' := PerformAll(q, commands);
            && (ClearTask(id) !in commands <==> id in q'.tasks) && (id in q'.tasks ==> q'.tasks[id] == q.tasks[id])
    decreases |commands|
  {
    hide Perform;
    if commands != [] {
      CommandKeepsTask(q, commands[0], id);
      if commands[0] == ClearTask(id) {
        CommandKeepsFresh(q, commands[0]);
        ClearedStaysOut(Perform(q, commands[0]), commands[1..], id);
      } else {
        CallbackKeepsTask(Perform(q, commands[0]), commands[1..], id);
      }
      assert commands == [commands[0]] + commands[1..];
    }
  }

  lemma CommandKeepsFresh(q: Queue, c: Command)
    ensures FreshId(q) <= FreshId(Perform(q, c))
  {
  }

  /**
   After its run an interval that its callback has not cleared waits again, for a full duration from the end;
   any other task, or a cleared one, is gone.
   */
  lemma IntervalWaitsAgain(q: Queue, id: nat, callback: seq<Command>)
    requires Scheduled(q) && q.running == None && Ready(q, id)
    ensures var q', task := Happen(q, Job(id, callback)), q.tasks[id];
            if task.Repeats() && ClearTask(id) !in callback then
              id in q'.tasks && q'.tasks[id].Repeats() && q'.tasks[id].Deadline() == q'.now + task.duration
            else id !in q'.tasks
  {
    hide Scheduled, PerformAll, Perform;
    ScheduledIsBelow(q, id);
    CallbackKeepsTask(Begin(q, id), callback, id);
  }

  lemma ScheduledIsBelow(q: Queue, id: nat)
    requires Scheduled(q) && id in q.tasks
    ensures id < FreshId(q)
  {
  }
}
