/** The per-request task queues of core/request_process_manager.js. The event loop
    is the environment: wakeUps are setImmediate calls not yet run, active are task
    executions whose completion has not been seen; either may come next. */
module TaskQueue {
  import opened Wrappers
  import Sums

  type RequestId = string

  datatype Task = Task(nodeId: string, callbackFnName: string, callbackArgs: seq<string>)

  datatype Drain = NotCalled | Waiting | Resolved  // the promise of stop()

  datatype Queues = Queues(
    queue: map<RequestId, seq<Task>>,   // requestQueue
    running: set<RequestId>,            // requestQueueRunning
    pendingCount: int,
    processingCount: int,
    requestsCount: int,
    stopping: bool,
    drain: Drain,
    wakeUps: multiset<RequestId>,
    active: multiset<RequestId>,
    // history
    pushed: map<RequestId, seq<Task>>,
    started: map<RequestId, seq<Task>>,
    typeErrors: nat)                    // wake-ups that found no queue

  const EMPTY := Queues(map[], {}, 0, 0, 0, false, NotCalled, multiset{}, multiset{}, map[], map[], 0)

  datatype Event = Push(r: RequestId, task: Task) | Wake(r: RequestId) | Finish(r: RequestId) | Stop

  predicate Enabled(s: Queues, e: Event) {
    match e
    case Wake(r) => r in s.wakeUps
    case Finish(r) => r in s.active
    case _ => true
  }

  function At(m: map<RequestId, seq<Task>>, r: RequestId): seq<Task> {
    if r in m then m[r] else []
  }

  function CleanUp(s: Queues, r: RequestId): Queues {
    s.(queue := s.queue - {r}, requestsCount := s.requestsCount - 1,
       drain := if s.requestsCount - 1 == 0 && s.drain.Waiting? then Resolved else s.drain)
  }

  function WithQueue(s: Queues, r: RequestId): Queues {
    if r in s.queue then s else s.(queue := s.queue[r := []], requestsCount := s.requestsCount + 1)
  }

  function Enqueue(s: Queues, r: RequestId, task: Task): Queues
    requires r in s.queue
  {
    s.(queue := s.queue[r := s.queue[r] + [task]],
       pendingCount := s.pendingCount + 1,
       wakeUps := s.wakeUps + multiset{r},
       pushed := s.pushed[r := At(s.pushed, r) + [task]])
  }

  /** addTaskToQueue after the persistent write. */
  function OnPush(s: Queues, r: RequestId, task: Task): Queues {
    if s.stopping then s else Enqueue(WithQueue(s, r), r, task)
  }

  function Start(s: Queues, r: RequestId): Queues
    requires r in s.queue && s.queue[r] != []
  {
    s.(queue := s.queue[r := s.queue[r][1..]],
       running := s.running + {r},
       pendingCount := s.pendingCount - 1,
       processingCount := s.processingCount + 1,
       active := s.active + multiset{r},
       started := s.started[r := At(s.started, r) + [s.queue[r][0]]])
  }

  /** executeTaskInQueue. Calling shift on a deleted queue throws a TypeError. */
  function OnWake(s0: Queues, r: RequestId): Queues {
    var s := s0.(wakeUps := s0.wakeUps - multiset{r});
    if r in s.running then s
    else if r !in s.queue then s.(typeErrors := s.typeErrors + 1)
    else if s.queue[r] == [] then CleanUp(s, r)
    else Start(s, r)
  }

  function End(s: Queues, r: RequestId): Queues {
    s.(active := s.active - multiset{r}, processingCount := s.processingCount - 1, running := s.running - {r})
  }

  /** onTaskExecutionFinished. */
  function OnFinish(s0: Queues, r: RequestId): Queues {
    var s := End(s0, r);
    if r !in s.queue then s.(typeErrors := s.typeErrors + 1)
    else if s.queue[r] == [] then CleanUp(s, r)
    else s.(wakeUps := s.wakeUps + multiset{r})
  }

  function OnStop(s: Queues): Queues {
    s.(stopping := true, drain := if s.requestsCount > 0 then Waiting else Resolved)
  }

  function Step(s: Queues, e: Event): Queues {
    match e
    case Push(r, task) => OnPush(s, r, task)
    case Wake(r) => OnWake(s, r)
    case Finish(r) => OnFinish(s, r)
    case Stop => OnStop(s)
  }

  // ------------------------------------------------------------- invariant

  ghost function Lengths(q: map<RequestId, seq<Task>>): map<RequestId, nat> {
    map r | r in q :: |q[r]|
  }

  /** One request: at most one task runs, a waiting queue is running or will be
      woken, and what has started, followed by what waits, is what was pushed. */
  ghost predicate RequestInv(s: Queues, r: RequestId) {
    && s.active[r] == (if r in s.running then 1 else 0)
    && (r in s.running ==> r in s.queue)
    && (r in s.queue && r !in s.running ==> s.queue[r] != [] && r in s.wakeUps)
    && At(s.started, r) + At(s.queue, r) == At(s.pushed, r)
  }

  ghost predicate CountersInv(s: Queues) {
    && s.requestsCount == |s.queue|
    && s.pendingCount == Sums.Sum(Lengths(s.queue))
    && s.processingCount == |s.running|
  }

  ghost predicate DrainInv(s: Queues) {
    && (s.drain.NotCalled? <==> !s.stopping)
    && (s.drain.Waiting? ==> s.requestsCount > 0)
    && (s.drain.Resolved? ==> s.requestsCount == 0)
  }

  ghost predicate Inv(s: Queues) {
    (forall r :: RequestInv(s, r)) && CountersInv(s) && DrainInv(s)
  }

  lemma QueueGrows(q: map<RequestId, seq<Task>>, r: RequestId, tasks: seq<Task>)
    ensures Sums.Sum(Lengths(q[r := tasks])) == Sums.Sum(Lengths(q)) - |At(q, r)| + |tasks|
    ensures |q[r := tasks]| == |q| + if r in q then 0 else 1
  {
    Sums.SumUpdate(Lengths(q), r, |tasks|);
    assert Lengths(q[r := tasks]) == Lengths(q)[r := |tasks|];
    assert r in q ==> Lengths(q)[r] == |At(q, r)|;
  }

  lemma QueueDeleted(q: map<RequestId, seq<Task>>, r: RequestId)
    requires r in q && q[r] == []
    ensures Sums.Sum(Lengths(q - {r})) == Sums.Sum(Lengths(q)) && |q - {r}| == |q| - 1
  {
    Sums.SumPick(Lengths(q), r);
    assert Lengths(q - {r}) == Lengths(q) - {r};
    assert (q - {r}).Keys == q.Keys - {r};
  }

  lemma PushKeepsRequest(s: Queues, r: RequestId, task: Task, x: RequestId)
    requires RequestInv(s, x)
    ensures RequestInv(OnPush(s, r, task), x)
  {
    assert At(s.started, x) + (At(s.queue, x) + [task]) == (At(s.started, x) + At(s.queue, x)) + [task];
  }

  lemma PushKeepsCounters(s: Queues, r: RequestId, task: Task)
    requires CountersInv(s)
    ensures CountersInv(OnPush(s, r, task))
  {
    QueueGrows(s.queue, r, []);
    var queue := WithQueue(s, r).queue;
    QueueGrows(queue, r, queue[r] + [task]);
  }

  lemma PushInv(s: Queues, r: RequestId, task: Task)
    requires Inv(s)
    ensures Inv(OnPush(s, r, task))
  {
    PushKeepsCounters(s, r, task);
    forall x ensures RequestInv(OnPush(s, r, task), x) { PushKeepsRequest(s, r, task, x); }
  }

  lemma WakeKeepsRequest(s: Queues, r: RequestId, x: RequestId)
    requires RequestInv(s, r) && RequestInv(s, x) && r in s.wakeUps
    ensures RequestInv(OnWake(s, r), x)
  {
    if r in s.queue && r !in s.running {
      assert s.queue[r] == [s.queue[r][0]] + s.queue[r][1..];
    }
  }

  lemma WakeKeepsCounters(s: Queues, r: RequestId)
    requires RequestInv(s, r) && CountersInv(s) && r in s.wakeUps
    ensures CountersInv(OnWake(s, r))
  {
    if r in s.queue && r !in s.running {
      QueueGrows(s.queue, r, s.queue[r][1..]);
    }
  }

  lemma WakeInv(s: Queues, r: RequestId)
    requires Inv(s) && r in s.wakeUps
    ensures Inv(OnWake(s, r))
    ensures r in s.queue && r !in s.running ==> s.queue[r] != []
  {
    assert RequestInv(s, r);
    WakeKeepsCounters(s, r);
    forall x ensures RequestInv(OnWake(s, r), x) { WakeKeepsRequest(s, r, x); }
  }

  lemma FinishKeepsRequest(s: Queues, r: RequestId, x: RequestId)
    requires RequestInv(s, r) && RequestInv(s, x) && r in s.active
    ensures RequestInv(OnFinish(s, r), x)
  {
  }

  lemma FinishInv(s: Queues, r: RequestId)
    requires Inv(s) && r in s.active
    ensures Inv(OnFinish(s, r))
    ensures r in s.running && r in s.queue
  {
    assert RequestInv(s, r);
    if s.queue[r] == [] {
      QueueDeleted(s.queue, r);
    }
    forall x ensures RequestInv(OnFinish(s, r), x) { FinishKeepsRequest(s, r, x); }
  }

  lemma StepInv(s: Queues, e: Event)
    requires Inv(s) && Enabled(s, e)
    ensures Inv(Step(s, e))
  {
    match e {
      case Push(r, task) => PushInv(s, r, task);
      case Wake(r) => WakeInv(s, r);
      case Finish(r) => FinishInv(s, r);
      case Stop => forall x ensures RequestInv(OnStop(s), x) { assert RequestInv(s, x); }
    }
  }

  // ------------------------------------------------------------------ runs

  ghost predicate Next(s: Queues, s': Queues) {
    exists e :: Enabled(s, e) && s' == Step(s, e)
  }

  ghost predicate IsRun(run: seq<Queues>) {
    && run != [] && run[0] == EMPTY
    && forall i | 0 < i < |run| :: Next(run[i-1], run[i])
  }

  lemma {:induction false} RunInv(run: seq<Queues>, n: nat)
    requires IsRun(run) && n < |run|
    ensures Inv(run[n])
  {
    if n == 0 {
      assert Lengths(run[0].queue) == map[];
    } else {
      RunInv(run, n - 1);
      assert Next(run[n-1], run[n]);
      var e :| Enabled(run[n-1], e) && run[n] == Step(run[n-1], e);
      StepInv(run[n-1], e);
    }
  }

  /** Mutual exclusion and FIFO, in every reachable state: at most one task of a
      request executes, and the tasks started are the first ones pushed. */
  lemma OneAtATimeInOrder(run: seq<Queues>, n: nat, r: RequestId)
    requires IsRun(run) && n < |run|
    ensures run[n].active[r] <= 1
    ensures At(run[n].started, r) <= At(run[n].pushed, r)
    ensures At(run[n].pushed, r) == At(run[n].started, r) + At(run[n].queue, r)
  {
    RunInv(run, n);
    assert RequestInv(run[n], r);
  }

  /** The three counters say what they are meant to count, in every reachable state. */
  lemma CountersAreExact(run: seq<Queues>, n: nat)
    requires IsRun(run) && n < |run|
    ensures run[n].requestsCount == |run[n].queue|
    ensures run[n].pendingCount == Sums.Sum(Lengths(run[n].queue))
    ensures run[n].processingCount == |run[n].running| == |run[n].active|
  {
    RunInv(run, n);
    forall r ensures run[n].active[r] == if r in run[n].running then 1 else 0 { assert RequestInv(run[n], r); }
    assert run[n].active == multiset(run[n].running);
  }

  /** No lost wake-up: with no wake-up and no execution outstanding, nothing waits
      and everything pushed has been started. */
  lemma NothingPendingNothingWaiting(run: seq<Queues>, n: nat, r: RequestId)
    requires IsRun(run) && n < |run| && run[n].wakeUps == multiset{} && run[n].active == multiset{}
    ensures run[n].queue == map[] && At(run[n].started, r) == At(run[n].pushed, r)
    ensures run[n].requestsCount == run[n].pendingCount == run[n].processingCount == 0
  {
    RunInv(run, n);
    var s := run[n];
    assert RequestInv(s, r);
    forall x ensures x !in s.queue && x !in s.running { assert RequestInv(s, x); }
    assert s.queue == map[] && s.running == {};
    assert Lengths(s.queue) == map[];
  }

  /** The clean-up branch of executeTaskInQueue is never taken. */
  lemma WokenQueueHasTask(run: seq<Queues>, n: nat, r: RequestId)
    requires IsRun(run) && n < |run| && r in run[n].wakeUps
    requires r !in run[n].running && r in run[n].queue
    ensures run[n].queue[r] != []
    ensures OnWake(run[n], r).started == run[n].started[r := At(run[n].started, r) + [run[n].queue[r][0]]]
  {
    RunInv(run, n);
    WakeInv(run[n], r);
  }

  ghost predicate Untouched(s: Queues, s': Queues, r: RequestId) {
    && At(s'.queue, r) == At(s.queue, r) && (r in s'.queue <==> r in s.queue)
    && (r in s'.running <==> r in s.running)
    && s'.active[r] == s.active[r] && s'.wakeUps[r] == s.wakeUps[r]
    && At(s'.pushed, r) == At(s.pushed, r) && At(s'.started, r) == At(s.started, r)
  }

  lemma CleanUpLeavesOthers(s: Queues, x: RequestId, r: RequestId)
    requires x != r
    ensures Untouched(s, CleanUp(s, x), r)
  {
  }

  lemma WakeLeavesOthers(s: Queues, x: RequestId, r: RequestId)
    requires x != r
    ensures Untouched(s, OnWake(s, x), r)
  {
    hide CleanUp, Start;
    var s' := s.(wakeUps := s.wakeUps - multiset{x});
    CleanUpLeavesOthers(s', x, r);
    if x in s'.queue && s'.queue[x] != [] {
      StartLeavesOthers(s', x, r);
    }
  }

  lemma StartLeavesOthers(s: Queues, x: RequestId, r: RequestId)
    requires x != r && x in s.queue && s.queue[x] != []
    ensures Untouched(s, Start(s, x), r)
  {
  }

  lemma PushLeavesOthers(s: Queues, x: RequestId, task: Task, r: RequestId)
    requires x != r
    ensures Untouched(s, OnPush(s, x, task), r)
  {
  }

  lemma FinishLeavesOthers(s: Queues, x: RequestId, r: RequestId)
    requires x != r
    ensures Untouched(s, OnFinish(s, x), r)
  {
  }

  /** A step for one request leaves every other request as it was. */
  lemma OtherRequestsUntouched(s: Queues, e: Event, r: RequestId)
    requires !e.Stop? && e.r != r
    ensures Untouched(s, Step(s, e), r)
  {
    match e {
      case Push(x, task) => PushLeavesOthers(s, x, task, r);
      case Wake(x) => WakeLeavesOthers(s, x, r);
      case Finish(x) => FinishLeavesOthers(s, x, r);
    }
  }

  // ------------------------------------------------------------ safe drain

  /** after is a state with nothing left, and nothing pushed or started since before. */
  ghost predicate Silent(before: Queues, after: Queues) {
    && after.drain.Resolved? && after.queue == map[] && after.running == {} && after.active == multiset{}
    && after.pendingCount == after.processingCount == 0
    && after.started == before.started && after.pushed == before.pushed
  }

  lemma ResolvedIsSilent(s: Queues)
    requires Inv(s) && s.drain.Resolved?
    ensures Silent(s, s)
  {
    forall x ensures x !in s.running && x !in s.active { assert RequestInv(s, x); }
    assert s.running == {} && s.active == multiset{};
    assert Lengths(s.queue) == map[];
  }

  lemma SilentStays(before: Queues, s: Queues, s': Queues)
    requires Silent(before, s) && s.stopping && Next(s, s') && s.requestsCount == 0
    ensures Silent(before, s')
  {
  }

  lemma SilentFromStart(run: seq<Queues>, i: nat)
    requires IsRun(run) && i < |run| && run[i].drain.Resolved?
    ensures Silent(run[i], run[i])
  {
    RunInv(run, i);
    ResolvedIsSilent(run[i]);
  }

  lemma SilentOnwards(run: seq<Queues>, before: Queues, n: nat)
    requires IsRun(run) && n + 1 < |run| && Silent(before, run[n])
    ensures Silent(before, run[n+1])
  {
    RunInv(run, n);
    SilentStays(before, run[n], run[n+1]);
  }

  /** Once stop() has resolved, nothing is queued or running, and that never
      changes: nothing is pushed and nothing starts later in the run. */
  lemma {:induction false} StopIsFinal(run: seq<Queues>, i: nat, j: nat)
    requires IsRun(run) && i <= j < |run| && run[i].drain.Resolved?
    ensures Silent(run[i], run[j])
    decreases j
  {
    if i < j {
      StopIsFinal(run, i, j - 1);
      SilentOnwards(run, run[i], j - 1);
    } else {
      SilentFromStart(run, i);
    }
  }

  function Work(s: Queues): int {
    3 * s.pendingCount + 2 * s.processingCount + |s.wakeUps|
  }

  predicate Draining(e: Event) {
    e.Wake? || e.Finish?
  }

  ghost predicate DrainNext(s: Queues, s': Queues) {
    exists e :: Draining(e) && Enabled(s, e) && s' == Step(s, e)
  }

  lemma DrainStepDecreases(s: Queues, s': Queues)
    requires Inv(s) && DrainNext(s, s')
    ensures Inv(s') && Work(s') < Work(s)
  {
    var e :| Draining(e) && Enabled(s, e) && s' == Step(s, e);
    StepInv(s, e);
    assert RequestInv(s, e.r);
    assert |s.wakeUps - multiset{e.r}| >= |s.wakeUps| - 1;
  }

  lemma WorkIsNatural(s: Queues)
    requires Inv(s)
    ensures 0 <= Work(s)
  {
  }

  /** Without new pushes the queues drain in at most Work steps, in whatever order
      wake-ups and completions come. */
  lemma {:induction false} DrainIsBounded(run: seq<Queues>, n: nat)
    requires n < |run| && Inv(run[0])
    requires forall i | 0 < i < |run| :: DrainNext(run[i-1], run[i])
    ensures Inv(run[n]) && 0 <= Work(run[n]) <= Work(run[0]) - n
  {
    if n > 0 {
      DrainIsBounded(run, n - 1);
      DrainStepDecreases(run[n-1], run[n]);
    }
    WorkIsNatural(run[n]);
  }

  // -------------------------------------------------------- stale wake-ups

  /** Every wake-up still finds its queue. */
  ghost predicate NoneStale(s: Queues) {
    forall r :: r in s.wakeUps ==> r in s.queue
  }

  /** The completion deletes the queue while a wake-up for it is outstanding. */
  predicate Strands(s: Queues, e: Event) {
    e.Finish? && e.r in s.queue && s.queue[e.r] == [] && e.r in s.wakeUps
  }

  /** Exactly the stranding completions make a wake-up stale, and while none is
      stale no step throws. */
  lemma StaleIff(s: Queues, e: Event)
    requires Inv(s) && NoneStale(s) && Enabled(s, e)
    ensures Step(s, e).typeErrors == s.typeErrors
    ensures NoneStale(Step(s, e)) <==> !Strands(s, e)
  {
    if !e.Stop? {
      assert RequestInv(s, e.r);
    }
    var s' := Step(s, e);
    if Strands(s, e) {
      assert e.r in s'.wakeUps && e.r !in s'.queue;
    }
  }

  /** In a reachable state a step throws exactly when it is a wake-up whose queue is
      gone and has not been pushed to again. */
  lemma StepThrowsIff(s: Queues, e: Event)
    requires Inv(s) && Enabled(s, e)
    ensures Step(s, e).typeErrors == s.typeErrors + if e.Wake? && e.r !in s.queue then 1 else 0
  {
    if !e.Stop? {
      assert RequestInv(s, e.r);
    }
  }

  ghost predicate TidyNext(s: Queues, s': Queues) {
    exists e :: Enabled(s, e) && !Strands(s, e) && s' == Step(s, e)
  }

  /** No run without a stranding completion ever throws. */
  lemma {:induction false} TidyRunsNeverThrow(run: seq<Queues>, n: nat)
    requires IsRun(run) && n < |run|
    requires forall i | 0 < i < |run| :: TidyNext(run[i-1], run[i])
    ensures NoneStale(run[n]) && run[n].typeErrors == 0
  {
    if n > 0 {
      TidyRunsNeverThrow(run, n - 1);
      RunInv(run, n - 1);
      assert TidyNext(run[n-1], run[n]);
      var e :| Enabled(run[n-1], e) && !Strands(run[n-1], e) && run[n] == Step(run[n-1], e);
      StaleIff(run[n-1], e);
    }
  }

  ghost predicate ImmediatesFirstNext(s: Queues, s': Queues) {
    exists e :: Enabled(s, e) && (e.Finish? ==> s.wakeUps == multiset{}) && s' == Step(s, e)
  }

  lemma ImmediatesFirstIsTidy(s: Queues, s': Queues)
    requires ImmediatesFirstNext(s, s')
    ensures TidyNext(s, s')
  {
    var e :| Enabled(s, e) && (e.Finish? ==> s.wakeUps == multiset{}) && s' == Step(s, e);
    assert !Strands(s, e);
  }

  /** An event loop that runs all outstanding setImmediate calls before it lets
      another task complete never throws. */
  lemma ImmediatesFirstNeverThrow(run: seq<Queues>, n: nat)
    requires IsRun(run) && n < |run|
    requires forall i | 0 < i < |run| :: ImmediatesFirstNext(run[i-1], run[i])
    ensures run[n].typeErrors == 0
  {
    forall i | 0 < i < |run|
      ensures TidyNext(run[i-1], run[i])
    {
      assert ImmediatesFirstNext(run[i-1], run[i]);
      ImmediatesFirstIsTidy(run[i-1], run[i]);
    }
    TidyRunsNeverThrow(run, n);
  }

  lemma Extend(run: seq<Queues>, e: Event) returns (run': seq<Queues>)
    requires IsRun(run) && Enabled(run[|run|-1], e)
    ensures IsRun(run') && run'[|run'|-1] == Step(run[|run|-1], e)
  {
    run' := run + [Step(run[|run|-1], e)];
    assert Next(run[|run|-1], Step(run[|run|-1], e));
  }

  /** b is pushed while a runs; a completes, so b has two wake-ups. */
  lemma TwiceWoken(r: RequestId, a: Task, b: Task) returns (run: seq<Queues>)
    ensures IsRun(run) && var s := run[|run|-1];
            r in s.queue && s.queue[r] == [b] && s.running == {} && s.wakeUps == multiset{r, r}
            && s.active == multiset{} && s.typeErrors == 0
  {
    run := Extend([EMPTY], Push(r, a));
    assert run[|run|-1].queue[r] == [a];
    run := Extend(run, Wake(r));
    run := Extend(run, Push(r, b));
    assert run[|run|-1].queue[r] == [b];
    run := Extend(run, Finish(r));
  }

  /** The run that throws: b completes before its second wake-up, which then finds
      no queue. */
  lemma StaleWakeUpIsReachable(r: RequestId, a: Task, b: Task) returns (run: seq<Queues>)
    ensures IsRun(run) && run[|run|-1].typeErrors == 1
  {
    run := TwiceWoken(r, a, b);
    run := Extend(run, Wake(r));
    assert run[|run|-1].queue[r] == [] && run[|run|-1].active == multiset{r};
    run := Extend(run, Finish(r));
    assert r !in run[|run|-1].queue && run[|run|-1].wakeUps == multiset{r};
    run := Extend(run, Wake(r));
  }

  // ------------------------------------------------ the code as it is run

  class RequestQueues {
    var requestQueue: map<RequestId, seq<Task>>
    var requestQueueRunning: set<RequestId>
    var pendingTasksInQueueCount: int
    var processingTasksCount: int
    var requestsInQueueCount: int
    var stopping: bool
    var drain: Drain
    var wakeUps: multiset<RequestId>
    ghost var active: multiset<RequestId>
    ghost var pushed: map<RequestId, seq<Task>>
    ghost var started: map<RequestId, seq<Task>>
    ghost var typeErrors: nat

    ghost function View(): Queues
      reads this
    {
      Queues(requestQueue, requestQueueRunning, pendingTasksInQueueCount, processingTasksCount, requestsInQueueCount,
        stopping, drain, wakeUps, active, pushed, started, typeErrors)
    }

    constructor ()
      ensures View() == EMPTY
    {
      requestQueue, requestQueueRunning := map[], {};
      pendingTasksInQueueCount, processingTasksCount, requestsInQueueCount := 0, 0, 0;
      stopping, drain, wakeUps := false, NotCalled, multiset{};
      active, pushed, started, typeErrors := multiset{}, map[], map[], 0;
    }

    method AddTaskToQueue(requestId: RequestId, task: Task)
      modifies this
      ensures View() == OnPush(old(View()), requestId, task)
    {
      if stopping {
        return;
      }
      EnsureQueue(requestId);
      Append(requestId, task);
    }

    method EnsureQueue(requestId: RequestId)
      modifies this
      ensures View() == WithQueue(old(View()), requestId)
    {
      if requestId !in requestQueue {
        requestQueue := requestQueue[requestId := []];
        requestsInQueueCount := requestsInQueueCount + 1;
      }
    }

    method Append(requestId: RequestId, task: Task)
      requires requestId in requestQueue
      modifies this
      ensures View() == Enqueue(old(View()), requestId, task)
    {
      requestQueue := requestQueue[requestId := requestQueue[requestId] + [task]];
      pendingTasksInQueueCount := pendingTasksInQueueCount + 1;
      wakeUps := wakeUps + multiset{requestId};
      pushed := pushed[requestId := At(pushed, requestId) + [task]];
    }

    /** run is the task handed to the worker, if one was; threw reports the
        TypeError. */
    method ExecuteTaskInQueue(requestId: RequestId) returns (run: Option<Task>, threw: bool)
      modifies this
      ensures View() == OnWake(old(View()), requestId)
      ensures threw <==> requestId !in old(requestQueueRunning) && requestId !in old(requestQueue)
      ensures run.Some? <==> started != old(started)
      ensures run.Some? ==> At(old(requestQueue), requestId) != [] && run.value == old(requestQueue)[requestId][0]
    {
      wakeUps := wakeUps - multiset{requestId};
      run, threw := None, false;
      if requestId !in requestQueueRunning {
        if requestId !in requestQueue {
          typeErrors, threw := typeErrors + 1, true;
        } else if requestQueue[requestId] == [] {
          CleanUpQueue(requestId);
        } else {
          run := Some(requestQueue[requestId][0]);
          StartTask(requestId);
          assert |started[requestId]| > |At(old(started), requestId)|;
        }
      }
    }

    method StartTask(requestId: RequestId)
      requires requestId in requestQueue && requestQueue[requestId] != []
      modifies this
      ensures View() == Start(old(View()), requestId)
    {
      var task := requestQueue[requestId][0];
      requestQueue, requestQueueRunning :=
        requestQueue[requestId := requestQueue[requestId][1..]], requestQueueRunning + {requestId};
      pendingTasksInQueueCount, processingTasksCount := pendingTasksInQueueCount - 1, processingTasksCount + 1;
      active, started := active + multiset{requestId}, started[requestId := At(started, requestId) + [task]];
    }

    /** The completion of an execution finds its queue in every reachable state
        (FinishInv); threw would be the TypeError otherwise. */
    method OnTaskExecutionFinished(requestId: RequestId) returns (threw: bool)
      modifies this
      ensures View() == OnFinish(old(View()), requestId)
      ensures threw <==> requestId !in old(requestQueue)
    {
      threw := false;
      EndTask(requestId);
      if requestId !in requestQueue {
        typeErrors, threw := typeErrors + 1, true;
      } else if |requestQueue[requestId]| == 0 {
        CleanUpQueue(requestId);
      } else {
        wakeUps := wakeUps + multiset{requestId};
      }
    }

    method EndTask(requestId: RequestId)
      modifies this
      ensures View() == End(old(View()), requestId)
    {
      var running, processing := requestQueueRunning - {requestId}, processingTasksCount - 1;
      active := active - multiset{requestId};
      requestQueueRunning := running;
      processingTasksCount := processing;
    }

    method CleanUpQueue(requestId: RequestId)
      modifies this
      ensures View() == CleanUp(old(View()), requestId)
    {
      requestQueue := requestQueue - {requestId};
      requestsInQueueCount := requestsInQueueCount - 1;
      if requestsInQueueCount == 0 && drain == Waiting {
        drain := Resolved;
      }
    }

    method StopQueues()
      modifies this
      ensures View() == OnStop(old(View()))
    {
      stopping := true;
      drain := if requestsInQueueCount > 0 then Waiting else Resolved;
    }
  }
}
