/** MacrotaskQueue as an object; its loops are proved against the queue machine. */
module MacrotaskQueues {
  import opened Wrappers
  import opened Macrotasks

  class MacrotaskQueue {
    var tasks: map<nat, Task>
    var nesting: nat
    var next: Option<nat>
    var latest: Option<nat>
    /** The signals' shared flags, and the clock. */
    var terminated: set<nat>
    var now: nat
    ghost var running: Option<nat>
    ghost var log: seq<Note>

    constructor ()
      ensures View() == Empty
    {
      tasks, nesting, next, latest, terminated, now := map[], 0, None, None, {}, 0;
      running, log := None, [];
    }

    ghost function View(): Queue
      reads this
    {
      Queue(tasks, nesting, next, latest, terminated, now, running, log)
    }

    method SetNext(id: nat, task: Task)
      modifies this`next
      ensures View() == Macrotasks.SetNext(old(View()), id, task)
    {
      if task.Remaining(now) <= 0 {
        next := Some(id);
      }
    }

    method Enqueue(task: Task) returns (id: nat)
      modifies this
      ensures View() == Macrotasks.Enqueue(old(View()), task) && id == FreshId(old(View()))
      ensures id in tasks && (forall other :: other in old(tasks) && other != id ==> other in tasks)
    {
      var macrotask := task;
      id := if latest.Some? then latest.value + 1 else 0;
      if next.Some? && next.value in tasks {
        if macrotask.Remaining(now) < tasks[next.value].Remaining(now) {
          SetNext(id, macrotask);
        }
      } else {
        SetNext(id, macrotask);
      }
      if macrotask.Timer? {
        nesting := nesting + 1;
        macrotask := macrotask.(nesting := nesting);
      }
      latest := Some(id);
      tasks := tasks[id := macrotask];
      log := log + [Enqueued(id, macrotask, now)];
    }

    method SetTimer(delay: Option<int>, repeat: bool) returns (id: nat)
      modifies this
      ensures View() == Macrotasks.SetTimer(old(View()), delay, repeat) && id == FreshId(old(View()))
    {
      var minimum := if nesting > 5 then MINIMUM_DELAY_NESTED else MINIMUM_DELAY;
      var duration := if delay.Some? && delay.value > minimum then delay.value else minimum;
      id := Enqueue(Timer(repeat, now, duration, 0));
    }

    method Remove(id: nat)
      modifies this
      ensures View() == Clear(old(View()), id)
      ensures id !in tasks && (forall other :: other != id ==> (other in tasks <==> other in old(tasks)))
      ensures forall other :: other in tasks ==> tasks[other] == old(tasks)[other]
      ensures id in old(tasks) ==> log == old(log) + [Cleared(id)]
    {
      if id in tasks {
        tasks := tasks - {id};
        log := log + [Cleared(id)];
        if next == Some(id) {
          next := None;
        }
      }
    }

    method Abort(id: nat)
      modifies this
      ensures View() == Terminate(old(View()), id)
    {
      if id in tasks && tasks[id].Signal? {
        terminated := terminated + {id};
        log := log + [Terminated(id)];
      }
    }

    /** The map is walked in no particular order; the first task found due is chosen. */
    method FindNext()
      modifies this`tasks, this`next
      ensures tasks == Purge(old(View())).tasks
      ensures next.Some? ==> Ready(old(View()), next.value)
      ensures next == None ==> forall id :: id in old(tasks) ==> !Ready(old(View()), id)
    {
      var chosen: Option<(nat, nat)> := None;
      var todo := tasks.Keys;
      while todo != {}
        invariant todo <= old(tasks).Keys
        invariant tasks == map id | id in old(tasks) && (id in todo || id !in terminated) :: old(tasks)[id]
        invariant chosen.Some? ==> Ready(old(View()), chosen.value.0) && chosen.value.1 == 0
        invariant chosen == None ==> forall id :: id in old(tasks) && id !in todo ==> !Ready(old(View()), id)
        modifies this`tasks
        decreases |todo|
      {
        var id :| id in todo;
        todo := todo - {id};
        if id in terminated {
          tasks := tasks - {id};
        } else {
          var remaining := tasks[id].Remaining(now);
          if chosen.Some? {
            // Remaining times saturate at zero, so a later task never displaces the first one due.
            if remaining < chosen.value.1 {
              assert false;
            }
          } else if remaining <= 0 {
            chosen := Some((id, remaining));
          }
        }
      }
      next := if chosen.Some? then Some(chosen.value.0) else None;
    }

    method PerformCommand(c: Command)
      modifies this
      ensures View() == Perform(old(View()), c)
    {
      match c {
        case SetTimeout(delay) => var _ := SetTimer(delay, false);
        case SetInterval(delay) => var _ := SetTimer(delay, true);
        case QueueTask => var _ := Enqueue(User(now));
        case AddSignal(duration) => var _ := Enqueue(Signal(now + duration));
        case ClearTask(id) => Remove(id);
        case AbortSignal(id) => Abort(id);
        case Wait(time) => now := now + time;
      }
    }

    /** The callback of a task, as the commands it gives. */
    method Call(callback: seq<Command>)
      modifies this
      ensures View() == PerformAll(old(View()), callback)
    {
      var left := callback;
      while left != []
        invariant PerformAll(View(), left) == PerformAll(old(View()), callback)
        modifies this
        decreases |left|
      {
        PerformCommand(left[0]);
        left := left[1..];
      }
    }

    /** Runs at most one task that is due, if there is one. */
    method RunJob(callback: seq<Command>) returns (ran: Option<nat>)
      requires running == None
      modifies this
      ensures ran.Some? ==> Ready(old(View()), ran.value) && View() == Happen(old(View()), Job(ran.value, callback))
      ensures ran == None ==> Macrotasks.Possible(old(View()), IdleJob) && View() == Happen(old(View()), IdleJob)
    {
      hide PerformAll;
      FindNext();
      ran := next;
      if ran.Some? {
        var id := ran.value;
        running := ran;
        log := log + [Started(id, now)];
        Call(callback);
        running := None;
        log := log + [Finished(id, now)];
        if id in tasks {
          if tasks[id].Repeats() {
            tasks := tasks[id := tasks[id].(scheduled := now)];
          } else {
            tasks := tasks - {id};
          }
        }
      }
    }
  }
}
