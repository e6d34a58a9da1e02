/**
 * The command scheduler of `dockerCli.ts`: a global limit on the number of
 * Docker processes running at once, with a FIFO list of waiters, and per
 * context three FIFO lanes (urgent, high, normal) drained one task at a time.
 *
 * The promises and the event loop become explicit steps:
 *  - `ScheduleInContext` enqueues a task and posts an immediate for its context;
 *  - `RunImmediate` runs the oldest posted immediate, i.e. `runNextInContext`,
 *    which takes the next task and either gets a global slot or waits for one;
 *  - `Finish` is the end of the task's process, with its outcome: it settles
 *    the task's promise, releases the slot (granting it to the oldest waiter)
 *    and posts a continuation when the high or normal lane is not empty.
 */
module CliScheduler {
  import opened Wrappers
  import opened OrderedMaps
  import opened DockerCli
  import opened Text

  /** `process.env.NAME || fallback`: an unset or empty variable gives the fallback. */
  function EnvOr(env: Option<string>, fallback: string): (r: string)
    ensures env.Some? && env.value != "" ==> r == env.value
    ensures env.None? || env.value == "" ==> r == fallback
  {
    if env.Some? && env.value != "" then env.value else fallback
  }

  /**
   * The effective `MAX_GLOBAL_CONCURRENCY`: `globalRunning < limit` is false
   * for every count when the variable parses to NaN or to a number below one,
   * which is the behaviour of a limit of zero.
   */
  function MaxGlobalConcurrency(env: Option<string>): (n: nat)
    ensures ParseInt(EnvOr(env, "5")).Some? && ParseInt(EnvOr(env, "5")).value >= 0 ==> n == ParseInt(EnvOr(env, "5")).value
    ensures ParseInt(EnvOr(env, "5")).None? ==> n == 0
  {
    match ParseInt(EnvOr(env, "5"))
    case None => 0
    case Some(k) => if k >= 0 then k else 0
  }

  /** `PING_TTL_MS`; `None` is NaN, against which every comparison is false. */
  function PingTtl(env: Option<string>): (ttl: Option<int>)
    ensures env.Some? && env.value != "" ==> ttl == ParseInt(env.value)
  {
    ParseInt(EnvOr(env, "5000"))
  }

  /** Unset, the limit is five processes. */
  lemma DefaultConcurrency()
    ensures MaxGlobalConcurrency(None) == 5
  {
    ParseIntOfNatToString(5);
    assert NatToString(5) == "5";
  }

  /** Unset, the ping TTL is five seconds. */
  lemma DefaultPingTtl()
    ensures PingTtl(None) == Some(5000)
  {
    assert NatToString(50) == "50";
    assert NatToString(500) == "500";
    assert NatToString(5000) == "5000";
    ParseIntOfNatToString(5000);
  }

  /** A queued unit of work: `id` names the promise it settles, `args` the `docker` arguments it runs. */
  datatype Task = Task(id: nat, args: seq<string>)

  /** How a task's process ended: its standard output, or a failure (the promise is rejected). */
  datatype Outcome = Ok(stdout: string) | Err

  /** The state of one context: whether a task is taken, and the three lanes. */
  datatype Lanes = Lanes(running: bool, qUrg: seq<Task>, qHigh: seq<Task>, qNorm: seq<Task>)

  function Idle(): Lanes {
    Lanes(false, [], [], [])
  }

  /** The queued tasks of a context in the order the lanes are drained. */
  function Queued(q: Lanes): seq<Task> {
    q.qUrg + q.qHigh + q.qNorm
  }

  /** The lane of a priority. */
  function Lane(q: Lanes, p: Priority): seq<Task> {
    match p
    case Urgent => q.qUrg
    case High => q.qHigh
    case Normal => q.qNorm
  }

  /**
   * `qUrg.push`, `qHigh.push` or `qNorm.push` according to the priority: the
   * task joins the end of its own lane and the other lanes keep their tasks.
   */
  function Push(q: Lanes, t: Task, p: Priority): (r: Lanes)
    ensures r.running == q.running
    ensures Lane(r, p) == Lane(q, p) + [t]
    ensures forall o: Priority :: o != p ==> Lane(r, o) == Lane(q, o)
  {
    match p
    case Urgent => q.(qUrg := q.qUrg + [t])
    case High => q.(qHigh := q.qHigh + [t])
    case Normal => q.(qNorm := q.qNorm + [t])
  }

  /**
   * The task `runNextInContext` takes: the head of the urgent lane, else of the
   * high lane, else of the normal lane; it is the first task in drain order.
   */
  function Shift(q: Lanes): (r: (Option<Task>, Lanes))
    ensures Queued(q) == [] ==> r == (None, q)
    ensures Queued(q) != [] ==> r.0.Some? && |Queued(r.1)| == |Queued(q)| - 1 && r.1.running == q.running
  {
    if |q.qUrg| > 0 then
      (Some(q.qUrg[0]), q.(qUrg := q.qUrg[1..]))
    else if |q.qHigh| > 0 then
      (Some(q.qHigh[0]), q.(qHigh := q.qHigh[1..]))
    else
      (if |q.qNorm| > 0 then Some(q.qNorm[0]) else None, q.(qNorm := if |q.qNorm| > 0 then q.qNorm[1..] else []))
  }

  /** The task taken is the first in drain order, and exactly that task leaves the lanes. */
  lemma ShiftTakesFirst(q: Lanes)
    requires Queued(q) != []
    ensures Shift(q).0 == Some(Queued(q)[0]) && Queued(Shift(q).1) == Queued(q)[1..]
  {
    if |q.qUrg| > 0 {
      TailOfConcat(q.qUrg, q.qHigh + q.qNorm);
      assert Queued(q) == q.qUrg + (q.qHigh + q.qNorm);
      assert Queued(Shift(q).1) == q.qUrg[1..] + (q.qHigh + q.qNorm);
    } else if |q.qHigh| > 0 {
      TailOfConcat(q.qHigh, q.qNorm);
      assert Queued(q) == q.qHigh + q.qNorm;
    } else {
      assert Queued(q) == q.qNorm;
    }
  }

  lemma TailOfConcat<T>(a: seq<T>, b: seq<T>)
    requires a != []
    ensures (a + b)[0] == a[0] && (a + b)[1..] == a[1..] + b
  {
  }

  /** The tasks taken one after another from a context to which nothing more is added. */
  function Drain(q: Lanes): seq<Task>
    decreases |Queued(q)|
  {
    var (next, rest) := Shift(q);
    if next.None? then [] else [next.value] + Drain(rest)
  }

  /** Urgent tasks run first, then high, then normal ones, and within a lane in arrival order. */
  lemma {:induction false} DrainIsLaneOrder(q: Lanes)
    ensures Drain(q) == q.qUrg + q.qHigh + q.qNorm
    decreases |Queued(q)|
  {
    var (next, rest) := Shift(q);
    if next.Some? {
      ShiftTakesFirst(q);
      DrainIsLaneOrder(rest);
    }
  }

  /**
   * A normal, a high and an urgent task enqueued in that order in an idle
   * context run urgent first, then high, then normal.
   */
  lemma ArrivalOrderDoesNotDecide(n: Task, h: Task, u: Task)
    ensures Drain(Push(Push(Push(Idle(), n, Normal), h, High), u, Urgent)) == [u, h, n]
  {
    DrainIsLaneOrder(Push(Push(Push(Idle(), n, Normal), h, High), u, Urgent));
  }

  /** The continuation check after a task ends: only the high and normal lanes are looked at. */
  predicate ContinuesAfterFinish(q: Lanes) {
    |q.qHigh| > 0 || |q.qNorm| > 0
  }

  /** Urgent tasks left behind alone get no continuation, although they are queued. */
  lemma UrgentAloneIsNotContinued(q: Lanes)
    requires q.qUrg != [] && q.qHigh == [] && q.qNorm == []
    ensures Queued(q) != [] && !ContinuesAfterFinish(q)
  {
  }

  class Scheduler {
    /** `MAX_GLOBAL_CONCURRENCY` */
    const maxGlobal: nat
    /** `globalRunning`: the global slots held. */
    var globalRunning: nat
    /** `globalWaiters`: the contexts whose taken task waits for a slot, oldest first. */
    var globalWaiters: seq<string>
    /** `ctxQueues` */
    var ctxQueues: map<string, Lanes>
    /** The task each running context's `runNextInContext` has taken (its local `next`). */
    var taken: map<string, Task>
    /** The `setImmediate(() => runNextInContext(key))` callbacks posted and not yet run, oldest first. */
    var immediates: seq<string>
    /** The promises settled so far, in order: the task's id and how its process ended. */
    var settled: seq<(nat, Outcome)>
    /** The id the next scheduled task gets. */
    var nextId: nat

    /** The contexts whose taken task holds a global slot, i.e. whose process runs. */
    function Executing(): set<string>
      reads this`taken, this`globalWaiters
    {
      set k | k in taken && k !in globalWaiters
    }

    /** Everything but the slot count. */
    ghost predicate Frame()
      reads this`globalWaiters, this`taken, this`ctxQueues
    {
      && Distinct(globalWaiters)
      && (forall i :: 0 <= i < |globalWaiters| ==> globalWaiters[i] in taken)
      && (forall k :: k in taken ==> k in ctxQueues)
      && (forall k :: k in ctxQueues ==> (ctxQueues[k].running <==> k in taken))
    }

    /**
     * The slot counter counts the running processes and never exceeds the
     * limit, and a task waits for a slot only while all slots are held.
     */
    ghost predicate Valid()
      reads this`globalWaiters, this`taken, this`ctxQueues, this`globalRunning
    {
      && Frame()
      && globalRunning == |Executing()|
      && globalRunning <= maxGlobal
      && (globalWaiters != [] ==> globalRunning == maxGlobal)
    }

    constructor (maxGlobal: nat)
      ensures Valid()
      ensures this.maxGlobal == maxGlobal && globalRunning == 0 && globalWaiters == []
      ensures ctxQueues == map[] && taken == map[] && immediates == [] && settled == [] && nextId == 0
    {
      this.maxGlobal := maxGlobal;
      globalRunning := 0;
      globalWaiters := [];
      ctxQueues := map[];
      taken := map[];
      immediates := [];
      settled := [];
      nextId := 0;
      new;
      assert Executing() == {};
    }

    /** `scheduleInContext`: the new task joins the end of its lane and an immediate is posted. */
    method ScheduleInContext(key: string, args: seq<string>, p: Priority) returns (id: nat)
      requires Valid()
      modifies this
      ensures Valid()
      ensures id == old(nextId) && nextId == id + 1
      ensures ctxQueues == old(ctxQueues)[key :=
        Push(if key in old(ctxQueues) then old(ctxQueues)[key] else Idle(), Task(id, args), p)]
      ensures immediates == old(immediates) + [key]
      ensures globalRunning == old(globalRunning) && globalWaiters == old(globalWaiters)
      ensures taken == old(taken) && settled == old(settled)
    {
      var state := if key in ctxQueues then ctxQueues[key] else Idle();
      id := nextId;
      nextId := nextId + 1;
      ctxQueues := ctxQueues[key := Push(state, Task(id, args), p)];
      immediates := immediates + [key];
    }

    /**
     * `runDocker`: the command's arguments behind the context flag, queued
     * under the context's key, at the given priority or else normal.
     */
    method RunDocker(args: seq<string>, context: Context, priority: Option<Priority>) returns (id: nat)
      requires Valid()
      modifies this
      ensures Valid()
      ensures id == old(nextId) && nextId == id + 1
      ensures var key := QueueKey(context);
        ctxQueues == old(ctxQueues)[key := Push(if key in old(ctxQueues) then old(ctxQueues)[key] else Idle(),
                                               Task(id, FinalArgs(args, context)), priority.GetOr(Normal))]
        && immediates == old(immediates) + [key]
      ensures globalRunning == old(globalRunning) && globalWaiters == old(globalWaiters)
      ensures taken == old(taken) && settled == old(settled)
    {
      id := ScheduleInContext(QueueKey(context), FinalArgs(args, context), priority.GetOr(Normal));
    }

    /** `acquireGlobal` for the task `key` has just taken: a slot if one is free, else a place at the end of the waiters. */
    method AcquireGlobal(key: string)
      requires Frame() && key in taken && key !in globalWaiters
      requires globalRunning + 1 == |Executing()| && globalRunning <= maxGlobal
      requires globalWaiters != [] ==> globalRunning == maxGlobal
      modifies this`globalRunning, this`globalWaiters
      ensures Valid()
      ensures old(globalRunning) < maxGlobal ==>
        globalRunning == old(globalRunning) + 1 && globalWaiters == old(globalWaiters) && Executing() == old(Executing())
      ensures old(globalRunning) >= maxGlobal ==>
        globalRunning == old(globalRunning) && globalWaiters == old(globalWaiters) + [key]
        && Executing() == old(Executing()) - {key}
    {
      if globalRunning < maxGlobal {
        globalRunning := globalRunning + 1;
      } else {
        ghost var before := Executing();
        globalWaiters := globalWaiters + [key];
        assert Executing() == before - {key};
      }
    }

    /** What one `runNextInContext(key)` does to the contexts and the slots. */
    twostate predicate RanNext(key: string)
      reads this
    {
      if key !in old(ctxQueues) || old(ctxQueues)[key].running || Queued(old(ctxQueues)[key]) == [] then
        && ctxQueues == old(ctxQueues) && taken == old(taken)
        && globalRunning == old(globalRunning) && globalWaiters == old(globalWaiters)
      else
        var (next, rest) := Shift(old(ctxQueues)[key]);
        && taken == old(taken)[key := next.value]
        && ctxQueues == old(ctxQueues)[key := rest.(running := true)]
        && (old(globalRunning) < maxGlobal ==>
              globalRunning == old(globalRunning) + 1 && globalWaiters == old(globalWaiters)
              && Executing() == old(Executing()) + {key})
        && (old(globalRunning) >= maxGlobal ==>
              globalRunning == old(globalRunning) && globalWaiters == old(globalWaiters) + [key]
              && Executing() == old(Executing()))
    }

    /**
     * `runNextInContext`: nothing when the context is unknown, already running
     * or empty; else the next task in drain order is taken and either gets a
     * global slot or waits for one.
     */
    method RunNextInContext(key: string)
      requires Valid()
      modifies this
      ensures Valid()
      ensures RanNext(key)
      ensures immediates == old(immediates) && settled == old(settled) && nextId == old(nextId)
    {
      if key !in ctxQueues {
        return;
      }
      var state := ctxQueues[key];
      if state.running {
        return;
      }
      var (next, rest) := Shift(state);
      if next.None? {
        return;
      }
      MarkRunning(key, next.value, rest);
      AcquireGlobal(key);
    }

    /** `state.running = true` with `task` taken from the lanes, which leaves `rest` queued. */
    method MarkRunning(key: string, task: Task, rest: Lanes)
      requires Frame() && key in ctxQueues && !ctxQueues[key].running
      modifies this`ctxQueues, this`taken
      ensures Frame() && key !in globalWaiters
      ensures ctxQueues == old(ctxQueues)[key := rest.(running := true)]
      ensures taken == old(taken)[key := task]
      ensures Executing() == old(Executing()) + {key}
    {
      ctxQueues := ctxQueues[key := rest.(running := true)];
      taken := taken[key := task];
      assert key !in old(taken);
      assert Executing() == old(Executing()) + {key};
    }

    /** The event loop runs the oldest posted immediate. */
    method RunImmediate()
      requires Valid() && immediates != []
      modifies this
      ensures Valid()
      ensures immediates == old(immediates)[1..]
      ensures RanNext(old(immediates)[0])
      ensures settled == old(settled) && nextId == old(nextId)
    {
      var key := immediates[0];
      immediates := immediates[1..];
      RunNextInContext(key);
    }

    /**
     * `releaseGlobal`: one slot fewer (never below zero), then the oldest
     * waiter, if any, is granted a slot.
     */
    method ReleaseGlobal()
      requires Frame() && globalRunning <= maxGlobal
      requires globalWaiters != [] ==> globalRunning == maxGlobal && globalRunning >= 1
      modifies this`globalRunning, this`globalWaiters
      ensures Frame()
      ensures old(globalWaiters) == [] ==>
        globalWaiters == [] && globalRunning == (if old(globalRunning) >= 1 then old(globalRunning) - 1 else 0)
        && Executing() == old(Executing())
      ensures old(globalWaiters) != [] ==>
        && globalWaiters == old(globalWaiters)[1..]
        && globalRunning == old(globalRunning)
        && Executing() == old(Executing()) + {old(globalWaiters)[0]}
        && old(globalWaiters)[0] !in old(Executing())
      ensures |Executing()| == |old(Executing())| + (if old(globalWaiters) != [] then 1 else 0)
    {
      globalRunning := if globalRunning >= 1 then globalRunning - 1 else 0;
      if globalWaiters != [] {
        var granted := globalWaiters[0];
        globalWaiters := globalWaiters[1..];
        globalRunning := globalRunning + 1;
        assert forall k :: k in old(globalWaiters) && k != granted ==> k in globalWaiters;
        assert Executing() == old(Executing()) + {granted};
      }
    }

    /**
     * The process of the task running in context `key` has ended: its promise
     * alone is settled with the outcome; the slot is released, the context is
     * idle again, and a continuation is posted only if its high or normal lane
     * holds a task.
     */
    method Finish(key: string, outcome: Outcome)
      requires Valid() && key in Executing()
      modifies this
      ensures Valid()
      ensures settled == old(settled) + [(old(taken)[key].id, outcome)]
      ensures taken == old(taken) - {key}
      ensures ctxQueues == old(ctxQueues)[key := old(ctxQueues)[key].(running := false)]
      ensures old(globalWaiters) == [] ==> globalWaiters == [] && globalRunning == old(globalRunning) - 1
      ensures old(globalWaiters) != [] ==>
        globalWaiters == old(globalWaiters)[1..] && globalRunning == old(globalRunning)
      ensures immediates == old(immediates) + (if ContinuesAfterFinish(old(ctxQueues)[key]) then [key] else [])
      ensures nextId == old(nextId)
    {
      var task := taken[key];
      settled := settled + [(task.id, outcome)];
      ReleaseGlobal();
      assert key in Executing();
      var state := ctxQueues[key];
      MarkIdle(key);
      immediates := immediates + (if ContinuesAfterFinish(state) then [key] else []);
    }

    /** The `finally` block's `state.running = false`: the context no longer holds a task. */
    method MarkIdle(key: string)
      requires Frame() && key in taken && key !in globalWaiters
      modifies this`ctxQueues, this`taken
      ensures Frame()
      ensures ctxQueues == old(ctxQueues)[key := old(ctxQueues)[key].(running := false)]
      ensures taken == old(taken) - {key}
      ensures Executing() == old(Executing()) - {key}
      ensures |Executing()| == |old(Executing())| - 1
    {
      ctxQueues := ctxQueues[key := ctxQueues[key].(running := false)];
      taken := taken - {key};
      assert Executing() == old(Executing()) - {key};
    }

    /** At most `maxGlobal` processes run at once, across all contexts. */
    lemma GlobalCap()
      requires Valid()
      ensures |Executing()| <= maxGlobal
    {
    }
  }

  /**
   * One round of a context served alone: the posted immediate takes the task
   * first in drain order, its process ends with `outcome`, and a continuation
   * is posted if the high or normal lane still holds a task.
   */
  method ServeAlone(s: Scheduler, key: string, outcome: Outcome)
    requires s.Valid() && s.maxGlobal >= 1 && s.immediates == [key] && s.globalRunning == 0 && s.globalWaiters == []
    requires key in s.ctxQueues && !s.ctxQueues[key].running && Queued(s.ctxQueues[key]) != []
    modifies s
    ensures s.Valid() && s.globalRunning == 0 && s.globalWaiters == [] && s.nextId == old(s.nextId)
    ensures var (next, rest) := Shift(old(s.ctxQueues[key]));
      && s.settled == old(s.settled) + [(next.value.id, outcome)]
      && s.ctxQueues == old(s.ctxQueues)[key := rest]
      && s.immediates == (if ContinuesAfterFinish(rest) then [key] else [])
  {
    s.RunImmediate();
    s.Finish(key, outcome);
  }

  /** A normal, a high and an urgent task enqueued, in that order, in an idle context. */
  method EnqueueThree() returns (s: Scheduler)
    ensures fresh(s) && s.Valid() && s.maxGlobal == 1
    ensures s.ctxQueues == map["ctx" := Lanes(false, [Task(2, ["start", "web"])], [Task(1, ["ps"])], [Task(0, ["ps"])])]
    ensures s.immediates == ["ctx", "ctx", "ctx"] && s.taken == map[] && s.settled == []
    ensures s.globalRunning == 0 && s.globalWaiters == []
  {
    s := new Scheduler(1);
    var n := s.ScheduleInContext("ctx", ["ps"], Normal);
    var h := s.ScheduleInContext("ctx", ["ps"], High);
    var u := s.ScheduleInContext("ctx", ["start", "web"], Urgent);
    assert s.ctxQueues["ctx"] == Lanes(false, [Task(2, ["start", "web"])], [Task(1, ["ps"])], [Task(0, ["ps"])]);
    assert s.ctxQueues.Keys == {"ctx"};
  }

  /** The three posted immediates run: the first takes the urgent task, the other two find the context running. */
  method RunPosted(s: Scheduler)
    requires s.Valid() && s.maxGlobal == 1
    requires s.ctxQueues == map["ctx" := Lanes(false, [Task(2, ["start", "web"])], [Task(1, ["ps"])], [Task(0, ["ps"])])]
    requires s.immediates == ["ctx", "ctx", "ctx"] && s.taken == map[] && s.globalRunning == 0 && s.globalWaiters == []
    modifies s
    ensures s.Valid() && s.immediates == [] && s.settled == old(s.settled)
    ensures s.taken == map["ctx" := Task(2, ["start", "web"])] && "ctx" in s.Executing()
    ensures s.ctxQueues == map["ctx" := Lanes(true, [], [Task(1, ["ps"])], [Task(0, ["ps"])])]
    ensures s.globalRunning == 1 && s.globalWaiters == []
  {
    s.RunImmediate();
    assert s.ctxQueues["ctx"].running;
    s.RunImmediate();
    s.RunImmediate();
  }

  /**
   * The three enqueued tasks end in the order urgent, high, normal: the first
   * immediate takes the urgent task, the other two find the context running.
   */
  method PriorityOrderScenario() returns (order: seq<nat>)
    ensures order == [2, 1, 0]
  {
    var s := EnqueueThree();
    RunPosted(s);
    s.Finish("ctx", Ok(""));
    ServeAlone(s, "ctx", Err);
    ServeAlone(s, "ctx", Ok(""));
    order := [s.settled[0].0, s.settled[1].0, s.settled[2].0];
  }

  /**
   * An urgent task enqueued while a high one runs is taken by no continuation:
   * once the high task ends it stays queued with nothing posted to run it.
   */
  method StrandedUrgentScenario() returns (queued: seq<Task>, posted: seq<string>, running: bool)
    ensures |queued| == 1 && queued[0].id == 1 && posted == [] && !running
  {
    var s := UrgentBehindHigh();
    s.Finish("ctx", Ok(""));
    queued := Queued(s.ctxQueues["ctx"]);
    posted := s.immediates;
    running := s.ctxQueues["ctx"].running;
  }

  /** A high task runs in `ctx` while an urgent one, scheduled after it started, is queued behind it. */
  method UrgentBehindHigh() returns (s: Scheduler)
    ensures fresh(s) && s.Valid() && s.immediates == []
    ensures "ctx" in s.Executing() && "ctx" in s.ctxQueues
    ensures s.ctxQueues["ctx"].qUrg == [Task(1, ["stop", "web"])]
    ensures s.ctxQueues["ctx"].qHigh == [] && s.ctxQueues["ctx"].qNorm == []
  {
    s := HighRunning();
    var u := s.ScheduleInContext("ctx", ["stop", "web"], Urgent);
    s.RunImmediate();
  }

  /** Five slots, and the first task of `ctx`, a high one, taken and running. */
  method HighRunning() returns (s: Scheduler)
    ensures fresh(s) && s.Valid() && s.immediates == [] && s.nextId == 1
    ensures "ctx" in s.Executing() && "ctx" in s.ctxQueues && s.ctxQueues["ctx"] == Lanes(true, [], [], [])
  {
    s := new Scheduler(5);
    var h := s.ScheduleInContext("ctx", ["ps"], High);
    s.RunImmediate();
  }

  /** With one slot, a task of a second context waits and is granted the slot when the first ends. */
  method GlobalWaiterScenario() returns (waitingBefore: seq<string>, executingAfter: set<string>)
    ensures waitingBefore == ["b"] && executingAfter == {"b"}
  {
    var s := OneSlotTwoContexts();
    waitingBefore := s.globalWaiters;
    s.Finish("a", Ok(""));
    executingAfter := s.Executing();
  }

  /** One slot, and a task each of contexts `a` then `b` taken: `a` runs, `b` waits. */
  method OneSlotTwoContexts() returns (s: Scheduler)
    ensures fresh(s) && s.Valid()
    ensures s.taken.Keys == {"a", "b"} && s.globalWaiters == ["b"] && "a" in s.Executing()
  {
    s := TwoContextsQueued();
    s.RunImmediate();
    s.RunImmediate();
  }

  /** One slot, and a task each queued in the idle contexts `a` then `b`. */
  method TwoContextsQueued() returns (s: Scheduler)
    ensures fresh(s) && s.Valid() && s.maxGlobal == 1 && s.globalRunning == 0 && s.globalWaiters == []
    ensures s.taken == map[] && s.immediates == ["a", "b"]
    ensures s.ctxQueues.Keys == {"a", "b"}
    ensures !s.ctxQueues["a"].running && Queued(s.ctxQueues["a"]) != []
    ensures !s.ctxQueues["b"].running && Queued(s.ctxQueues["b"]) != []
  {
    s := new Scheduler(1);
    var x := s.ScheduleInContext("a", ["ps"], Normal);
    var y := s.ScheduleInContext("b", ["ps"], Normal);
  }

  /** A `pingCache` entry: the probe's verdict and when the probe was started. */
  datatype PingEntry = PingEntry(ok: bool, ts: int)

  /** An entry answers a ping at `now` while younger than the TTL. */
  predicate Fresh(e: PingEntry, now: int, ttl: Option<int>) {
    ttl.Some? && now - e.ts < ttl.value
  }

  /** How the task `id` settled: the outcome of its first entry in `settled`, if any. */
  function SettledOutcome(settled: seq<(nat, Outcome)>, id: nat): (r: Option<Outcome>)
    ensures r.Some? <==> exists k :: 0 <= k < |settled| && settled[k].0 == id
    ensures r.Some? ==> exists k :: 0 <= k < |settled| && settled[k] == (id, r.value)
  {
    if settled == [] then None
    else if settled[0].0 == id then Some(settled[0].1)
    else
      var r := SettledOutcome(settled[1..], id);
      assert forall k :: 1 <= k < |settled| ==> settled[k] == settled[1..][k - 1];
      r
  }

  /**
   * `pingCache`, keyed like the scheduler's queues, and the pings awaiting
   * their probe: for each probe's task id, the key and the `now` of the
   * `ping` call that scheduled it, which that call's continuation uses.
   */
  class PingCache {
    const ttl: Option<int>
    var entries: map<string, PingEntry>
    var inFlight: map<nat, (string, int)>

    constructor (ttl: Option<int>)
      ensures this.ttl == ttl && entries == map[] && inFlight == map[]
    {
      this.ttl := ttl;
      entries := map[];
      inFlight := map[];
    }

    /**
     * The start of `ping(context)` at time `now`: a fresh entry answers at
     * once; otherwise `docker version` is scheduled at normal priority, like
     * any `runDocker`, and its task id returned and remembered with the key
     * and `now`.
     */
    method Ping(s: Scheduler, context: Context, now: int) returns (answer: Option<bool>, probe: Option<nat>)
      requires s.Valid()
      modifies s, this`inFlight
      ensures s.Valid() && entries == old(entries)
      ensures var key := QueueKey(context);
        (answer.Some? <==> key in entries && Fresh(entries[key], now, ttl))
        && (answer.Some? ==> answer.value == entries[key].ok)
      ensures answer.Some? <==> probe.None?
      ensures answer.Some? ==> unchanged(s) && inFlight == old(inFlight)
      ensures probe.Some? ==>
        && probe.value == old(s.nextId) && s.nextId == old(s.nextId) + 1
        && inFlight == old(inFlight)[probe.value := (QueueKey(context), now)]
        && var key := QueueKey(context);
           && s.ctxQueues == old(s.ctxQueues)[key := Push(if key in old(s.ctxQueues) then old(s.ctxQueues)[key] else Idle(),
                                                         Task(probe.value, FinalArgs(["version"], context)), Normal)]
           && s.immediates == old(s.immediates) + [key]
      ensures probe.Some? ==>
        && s.globalRunning == old(s.globalRunning) && s.globalWaiters == old(s.globalWaiters)
        && s.taken == old(s.taken) && s.settled == old(s.settled)
    {
      var key := if Named(context) then context.value else DEFAULT_KEY;
      if key in entries && Fresh(entries[key], now, ttl) {
        return Some(entries[key].ok), None;
      }
      var id := s.RunDocker(["version"], context, Some(Normal));
      inFlight := inFlight[id := (key, now)];
      return None, Some(id);
    }

    /**
     * The continuation of the `ping` that scheduled `probe`, once its task has
     * settled: the verdict is whether the process succeeded, and it is cached
     * under that ping's key with that ping's `now`.
     */
    method PingSettled(s: Scheduler, probe: nat) returns (ok: bool)
      requires probe in inFlight && SettledOutcome(s.settled, probe).Some?
      modifies this`entries, this`inFlight
      ensures ok == SettledOutcome(s.settled, probe).value.Ok?
      ensures entries == old(entries)[old(inFlight)[probe].0 := PingEntry(ok, old(inFlight)[probe].1)]
      ensures inFlight == old(inFlight) - {probe}
    {
      var (key, startedAt) := inFlight[probe];
      ok := SettledOutcome(s.settled, probe).value.Ok?;
      entries := entries[key := PingEntry(ok, startedAt)];
      inFlight := inFlight - {probe};
    }
  }

  /**
   * A second ping of the same endpoint within the TTL reuses the verdict of
   * the first one's probe, which ran through the scheduler, and schedules nothing.
   */
  method PingTwiceScenario(context: Context, t0: int, t1: int, outcome: Outcome) returns (second: Option<bool>, probes: nat)
    requires t0 <= t1 < t0 + 5000
    ensures second == Some(outcome.Ok?) && probes == 1
  {
    var s := new Scheduler(5);
    var cache := new PingCache(Some(5000));
    var first, probe := cache.Ping(s, context, t0);
    ProbeAlone(s, QueueKey(context), Task(0, FinalArgs(["version"], context)));
    ServeAlone(s, QueueKey(context), outcome);
    assert s.settled == [(0, outcome)];
    var ok := cache.PingSettled(s, probe.value);
    assert cache.entries[QueueKey(context)] == PingEntry(outcome.Ok?, t0);
    var again;
    second, again := cache.Ping(s, context, t1);
    probes := s.nextId;
  }

  /** A task pushed into a fresh context is the one its first run takes. */
  lemma ProbeAlone(s: Scheduler, key: string, t: Task)
    requires key in s.ctxQueues && s.ctxQueues[key] == Push(Idle(), t, Normal)
    ensures !s.ctxQueues[key].running && Queued(s.ctxQueues[key]) != []
    ensures Shift(s.ctxQueues[key]).0 == Some(t)
  {
  }

}
