/** The gate and the task queues of core/request_process_manager.js together: what
    the gate accepts is pushed to the queue of its request, and the completion of a
    task there is what releases the message in the gate. Other parts of the server
    push tasks of their own. */
module Dispatch {
  import opened Wrappers
  import opened Decimals
  import BT = BlockTracker
  import BG = BlockGate
  import DL = Delivery
  import TQ = TaskQueue

  datatype Item = FromGate(task: BG.Task) | Other(own: TQ.Task)

  function TaskOf(item: Item): TQ.Task {
    match item
    case FromGate(t) =>
      TQ.Task("", "processMessage", [t.id, Decimal(t.message.height), t.message.requestId, t.message.body])
    case Other(own) => own
  }

  /** The queued task says which message it processes. */
  lemma TaskNamesMessage(t: BG.Task, t': BG.Task)
    requires TaskOf(FromGate(t)) == TaskOf(FromGate(t'))
    ensures t.id == t'.id && t.message == t'.message
  {
    var args, args' := TaskOf(FromGate(t)).callbackArgs, TaskOf(FromGate(t')).callbackArgs;
    assert args[0] == args'[0] && args[1] == args'[1] && args[2] == args'[2] && args[3] == args'[3];
    DecimalInjective(t.message.height, t'.message.height);
  }

  datatype Server = Server(
    gate: BG.Gate,
    queues: TQ.Queues,
    items: map<TQ.RequestId, seq<Item>>)  // history: all that was pushed for each request

  datatype Event =
    | GateStep(event: BG.Event)
    | PushOther(r: TQ.RequestId, own: TQ.Task)
    | Wake(r: TQ.RequestId)
    | Complete(r: TQ.RequestId)
    | Stop

  function At(items: map<TQ.RequestId, seq<Item>>, r: TQ.RequestId): seq<Item> {
    if r in items then items[r] else []
  }

  /** The task that a step of the gate brings to the queue, if any. */
  function Brings(g: BG.Gate, e: BG.Event): Option<BG.Task>
    requires BG.Enabled(g, e)
  {
    match e
    case Push(id) => Some(BG.Task(id, g.handlers[id].message, false))
    case PushScanned(h, id) => Some(BG.Task(id, g.scans[h].toPush[id], true))
    case _ => None
  }

  /** How many tasks of a request have completed. */
  function Completed(q: TQ.Queues, r: TQ.RequestId): int {
    |TQ.At(q.started, r)| - if r in q.running then 1 else 0
  }

  /** The item that is executing when a task of the request is. */
  function Current(s: Server, r: TQ.RequestId): Option<Item> {
    var k := Completed(s.queues, r);
    if 0 <= k < |At(s.items, r)| then Some(At(s.items, r)[k]) else None
  }

  function Enqueue(s: Server, r: TQ.RequestId, item: Item): Server {
    s.(queues := TQ.OnPush(s.queues, r, TaskOf(item)),
       items := if s.queues.stopping then s.items else s.items[r := At(s.items, r) + [item]])
  }

  predicate Enabled(s: Server, e: Event) {
    match e
    case GateStep(g) => BG.Enabled(s.gate, g) && !g.Stop? && !g.Finished?
    case Wake(r) => r in s.queues.wakeUps
    case Complete(r) => r in s.queues.active
    case _ => true
  }

  function OnGate(s: Server, c: BT.Chain, e: BG.Event): Server
    requires BG.Enabled(s.gate, e)
  {
    var s' := s.(gate := BG.Step(s.gate, c, e));
    match Brings(s.gate, e)
    case None => s'
    case Some(t) => Enqueue(s', t.message.requestId, FromGate(t))
  }

  function OnComplete(s: Server, r: TQ.RequestId): Server {
    s.(queues := TQ.OnFinish(s.queues, r),
       gate := match Current(s, r)
               case Some(FromGate(t)) => if t in s.gate.unfinished then BG.OnFinished(s.gate, t) else s.gate
               case _ => s.gate)
  }

  function Step(s: Server, c: BT.Chain, e: Event): Server
    requires Enabled(s, e)
  {
    match e
    case GateStep(g) => OnGate(s, c, g)
    case PushOther(r, own) => Enqueue(s, r, Other(own))
    case Wake(r) => s.(queues := TQ.OnWake(s.queues, r))
    case Complete(r) => OnComplete(s, r)
    case Stop => s.(gate := s.gate.(stopping := true), queues := TQ.OnStop(s.queues))
  }

  // ------------------------------------------------------------- invariant

  ghost function Tasks(items: seq<Item>): seq<TQ.Task> {
    seq(|items|, i requires 0 <= i < |items| => TaskOf(items[i]))
  }

  /** Pushed for a request and not completed. */
  ghost function Open(s: Server, r: TQ.RequestId): seq<Item> {
    var k, list := Completed(s.queues, r), At(s.items, r);
    if 0 <= k <= |list| then list[k..] else []
  }

  /** The queue of a request holds what was pushed for it, and a running request has
      started something. */
  ghost predicate RequestInv(s: Server, r: TQ.RequestId) {
    && TQ.At(s.queues.pushed, r) == Tasks(At(s.items, r))
    && 0 <= Completed(s.queues, r) <= |At(s.items, r)|
    && forall item :: item in At(s.items, r) && item.FromGate? ==> item.task.message.requestId == r
  }

  /** The gate's account of a task and the queue's are the same. */
  ghost predicate TaskInv(s: Server, t: BG.Task) {
    && multiset(s.gate.log)[BG.Attempt(t, true)] == multiset(At(s.items, t.message.requestId))[FromGate(t)]
    && s.gate.unfinished[t] == multiset(Open(s, t.message.requestId))[FromGate(t)]
  }

  ghost predicate Inv(s: Server, c: BT.Chain) {
    && BG.Inv(s.gate, c) && TQ.Inv(s.queues)
    && s.gate.stopping == s.queues.stopping
    && (forall r :: RequestInv(s, r))
    && (forall t :: TaskInv(s, t))
  }

  // ------------------------------------------------- steps of the queues

  lemma PushProgress(q: TQ.Queues, r: TQ.RequestId, task: TQ.Task, x: TQ.RequestId)
    requires !q.stopping
    ensures var q' := TQ.OnPush(q, r, task);
            && TQ.At(q'.pushed, x) == TQ.At(q.pushed, x) + (if x == r then [task] else [])
            && Completed(q', x) == Completed(q, x)
  {
  }

  lemma CleanUpProgress(q: TQ.Queues, r: TQ.RequestId, x: TQ.RequestId)
    ensures var q' := TQ.CleanUp(q, r);
            TQ.At(q'.pushed, x) == TQ.At(q.pushed, x) && Completed(q', x) == Completed(q, x)
  {
  }

  lemma WakeProgress(q: TQ.Queues, r: TQ.RequestId, x: TQ.RequestId)
    ensures var q' := TQ.OnWake(q, r);
            TQ.At(q'.pushed, x) == TQ.At(q.pushed, x) && Completed(q', x) == Completed(q, x)
  {
    hide TQ.CleanUp;
    CleanUpProgress(q.(wakeUps := q.wakeUps - multiset{r}), r, x);
  }

  lemma FinishProgress(q: TQ.Queues, r: TQ.RequestId, x: TQ.RequestId)
    requires r in q.running
    ensures var q' := TQ.OnFinish(q, r);
            && TQ.At(q'.pushed, x) == TQ.At(q.pushed, x)
            && Completed(q', x) == Completed(q, x) + if x == r then 1 else 0
  {
    hide TQ.CleanUp;
    CleanUpProgress(TQ.End(q, r), r, x);
  }

  lemma OneMoreTask(items: seq<Item>, item: Item)
    ensures Tasks(items + [item]) == Tasks(items) + [TaskOf(item)]
  {
  }

  /** Item is added at the end of what is open for its request. */
  lemma EnqueueRequest(s: Server, r: TQ.RequestId, item: Item, x: TQ.RequestId)
    requires RequestInv(s, x) && !s.queues.stopping && (item.FromGate? ==> item.task.message.requestId == r)
    ensures var s' := Enqueue(s, r, item); var more := if x == r then [item] else [];
            && RequestInv(s', x)
            && At(s'.items, x) == At(s.items, x) + more
            && Open(s', x) == Open(s, x) + more
  {
    PushProgress(s.queues, r, TaskOf(item), x);
    hide TQ.OnPush;
    OneMoreTask(At(s.items, x), item);
  }

  lemma OneMore<T>(list: seq<T>, item: T, x: T)
    ensures multiset(list + [item])[x] == multiset(list)[x] + if item == x then 1 else 0
  {
  }

  lemma EnqueueCounts(s: Server, r: TQ.RequestId, item: Item, t: BG.Task)
    requires RequestInv(s, t.message.requestId) && !s.queues.stopping
    requires item.FromGate? ==> item.task.message.requestId == r
    ensures var s' := Enqueue(s, r, item); var x, more := t.message.requestId, if item == FromGate(t) then 1 else 0;
            && multiset(At(s'.items, x))[FromGate(t)] == multiset(At(s.items, x))[FromGate(t)] + more
            && multiset(Open(s', x))[FromGate(t)] == multiset(Open(s, x))[FromGate(t)] + more
  {
    hide Enqueue, Open, RequestInv, At;
    var x := t.message.requestId;
    EnqueueRequest(s, r, item, x);
    OneMore(At(s.items, x), item, FromGate(t));
    OneMore(Open(s, x), item, FromGate(t));
    assert At(s.items, x) + [] == At(s.items, x) && Open(s, x) + [] == Open(s, x);
  }

  // ---------------------------------------------------- steps of the gate

  /** What a step of the gate does to its account of tasks. */
  ghost predicate Accounts(g: BG.Gate, g': BG.Gate, brings: Option<BG.Task>) {
    && g'.stopping == g.stopping
    && g'.log == g.log + (if brings.Some? then [BG.Attempt(brings.value, !g.stopping)] else [])
    && g'.unfinished == g.unfinished + (if brings.Some? && !g.stopping then multiset{brings.value} else multiset{})
  }

  lemma SavesAccounts(g: BG.Gate, c: BT.Chain, e: BG.Event)
    requires BG.Enabled(g, e) && BG.Saves(e)
    ensures Accounts(g, BG.Step(g, c, e), Brings(g, e))
  {
  }

  lemma LeavesAccounts(g: BG.Gate, c: BT.Chain, e: BG.Event)
    requires BG.Enabled(g, e) && BG.Leaves(e)
    ensures Accounts(g, BG.Step(g, c, e), Brings(g, e))
  {
  }

  lemma DeliversAccounts(g: BG.Gate, c: BT.Chain, e: BG.Event)
    requires BG.Enabled(g, e) && BG.Delivers(e)
    ensures Accounts(g, BG.Step(g, c, e), Brings(g, e))
  {
  }

  lemma GateAccounts(g: BG.Gate, c: BT.Chain, e: BG.Event)
    requires BG.Enabled(g, e) && !e.Stop? && !e.Finished?
    ensures Accounts(g, BG.Step(g, c, e), Brings(g, e))
  {
    if BG.Saves(e) {
      SavesAccounts(g, c, e);
    } else if BG.Leaves(e) {
      LeavesAccounts(g, c, e);
    } else if BG.Delivers(e) {
      DeliversAccounts(g, c, e);
    }
  }

  lemma AccountsCount(g: BG.Gate, g': BG.Gate, brings: Option<BG.Task>, t: BG.Task)
    requires Accounts(g, g', brings)
    ensures var more := if brings == Some(t) && !g.stopping then 1 else 0;
            && multiset(g'.log)[BG.Attempt(t, true)] == multiset(g.log)[BG.Attempt(t, true)] + more
            && g'.unfinished[t] == g.unfinished[t] + more
  {
    if brings.Some? {
      OneMore(g.log, BG.Attempt(brings.value, !g.stopping), BG.Attempt(t, true));
    } else {
      assert g.log + [] == g.log;
    }
  }

  lemma GateKeepsTask(s: Server, c: BT.Chain, e: BG.Event, t: BG.Task)
    requires TaskInv(s, t) && RequestInv(s, t.message.requestId) && s.gate.stopping == s.queues.stopping
    requires BG.Enabled(s.gate, e) && !e.Stop? && !e.Finished?
    ensures TaskInv(OnGate(s, c, e), t)
  {
    hide BG.Step, Enqueue, Open, RequestInv, At, Accounts;
    var brings, g' := Brings(s.gate, e), BG.Step(s.gate, c, e);
    GateAccounts(s.gate, c, e);
    AccountsCount(s.gate, g', brings, t);
    var s' := s.(gate := g');
    SameQueues(s, g', t.message.requestId);
    if brings.Some? {
      KeepsGate(s', brings.value.message.requestId, FromGate(brings.value));
      if s.queues.stopping {
        Refused(s', brings.value.message.requestId, FromGate(brings.value));
      } else {
        EnqueueCounts(s', brings.value.message.requestId, FromGate(brings.value), t);
      }
    }
  }

  lemma GateKeepsRequest(s: Server, c: BT.Chain, e: BG.Event, r: TQ.RequestId)
    requires RequestInv(s, r) && BG.Enabled(s.gate, e)
    ensures RequestInv(OnGate(s, c, e), r)
  {
    hide BG.Step, Enqueue, Open, RequestInv, At;
    var brings, g' := Brings(s.gate, e), BG.Step(s.gate, c, e);
    SameQueues(s, g', r);
    if brings.Some? {
      EnqueueKeepsRequest(s.(gate := g'), brings.value.message.requestId, FromGate(brings.value), r);
    }
  }

  lemma EnqueueKeepsRequest(s: Server, r: TQ.RequestId, item: Item, x: TQ.RequestId)
    requires RequestInv(s, x) && (item.FromGate? ==> item.task.message.requestId == r)
    ensures RequestInv(Enqueue(s, r, item), x)
  {
    if s.queues.stopping {
      Refused(s, r, item);
    } else {
      EnqueueRequest(s, r, item, x);
    }
  }

  ghost predicate TasksAlike(s: Server, s': Server, r: TQ.RequestId) {
    s'.items == s.items && s'.queues == s.queues && Open(s', r) == Open(s, r) && (RequestInv(s', r) <==> RequestInv(s, r))
  }

  lemma SameQueues(s: Server, g: BG.Gate, r: TQ.RequestId)
    ensures TasksAlike(s, s.(gate := g), r)
  {
  }

  lemma Refused(s: Server, r: TQ.RequestId, item: Item)
    requires s.queues.stopping
    ensures Enqueue(s, r, item) == s
  {
  }

  lemma KeepsGate(s: Server, r: TQ.RequestId, item: Item)
    ensures Enqueue(s, r, item).gate == s.gate
  {
  }

  lemma OtherKeepsTask(s: Server, r: TQ.RequestId, own: TQ.Task, t: BG.Task)
    requires TaskInv(s, t) && RequestInv(s, t.message.requestId)
    ensures TaskInv(Enqueue(s, r, Other(own)), t)
  {
    hide Enqueue, Open, RequestInv, At;
    KeepsGate(s, r, Other(own));
    if s.queues.stopping {
      Refused(s, r, Other(own));
    } else {
      EnqueueCounts(s, r, Other(own), t);
    }
  }

  // ----------------------------------------------------------- completion

  /** The executing task is the first one open, and the gate holds it open too. */
  lemma CurrentIsOpen(s: Server, r: TQ.RequestId)
    requires TQ.Inv(s.queues) && RequestInv(s, r) && r in s.queues.active
    requires forall t :: TaskInv(s, t)
    ensures r in s.queues.running && Current(s, r).Some?
    ensures Open(s, r) != [] && Open(s, r)[0] == Current(s, r).value
    ensures TaskOf(Current(s, r).value) == TQ.At(s.queues.started, r)[|TQ.At(s.queues.started, r)| - 1]
    ensures Current(s, r).value.FromGate? ==> Current(s, r).value.task in s.gate.unfinished
  {
    assert TQ.RequestInv(s.queues, r);
    var k, items := Completed(s.queues, r), At(s.items, r);
    assert TQ.At(s.queues.pushed, r)[k] == TaskOf(items[k]);
    if items[k].FromGate? {
      var t := items[k].task;
      assert items[k] in items && TaskInv(s, t);
      assert FromGate(t) in Open(s, r);
    }
  }

  lemma CompleteRequest(s: Server, r: TQ.RequestId, x: TQ.RequestId)
    requires RequestInv(s, x) && r in s.queues.running && Open(s, r) != []
    ensures var s' := OnComplete(s, r);
            && At(s'.items, x) == At(s.items, x) && RequestInv(s', x)
            && Open(s', x) == if x == r then Open(s, x)[1..] else Open(s, x)
  {
    FinishProgress(s.queues, r, x);
    hide TQ.OnFinish;
  }

  lemma OneLess<T>(list: seq<T>, x: T)
    requires list != []
    ensures multiset(list[1..])[x] == multiset(list)[x] - if list[0] == x then 1 else 0
  {
    assert list == [list[0]] + list[1..];
  }

  lemma CompleteGate(s: Server, r: TQ.RequestId, t: BG.Task)
    requires Current(s, r).Some?
    requires Current(s, r).value.FromGate? ==> Current(s, r).value.task in s.gate.unfinished
    ensures OnComplete(s, r).gate.log == s.gate.log
    ensures OnComplete(s, r).gate.unfinished[t] == s.gate.unfinished[t] - if Current(s, r).value == FromGate(t) then 1 else 0
  {
    hide Current, TQ.OnFinish;
  }

  lemma CompleteKeepsTask(s: Server, r: TQ.RequestId, t: BG.Task)
    requires TQ.Inv(s.queues) && (forall x :: RequestInv(s, x)) && r in s.queues.active
    requires forall x :: TaskInv(s, x)
    ensures TaskInv(OnComplete(s, r), t)
  {
    hide TQ.Inv, Open, RequestInv, OnComplete, Current, At;
    var x := t.message.requestId;
    assert RequestInv(s, r) && RequestInv(s, x) && TaskInv(s, t);
    CurrentIsOpen(s, r);
    CurrentRequest(s, r);
    CompleteGate(s, r, t);
    CompleteRequest(s, r, x);
    OneLess(Open(s, r), FromGate(t));
  }

  lemma CurrentRequest(s: Server, r: TQ.RequestId)
    requires RequestInv(s, r) && Current(s, r).Some?
    ensures Current(s, r).value.FromGate? ==> Current(s, r).value.task.message.requestId == r
  {
    assert Current(s, r).value in At(s.items, r);
  }

  /** The completion of a task in its queue is exactly the step that finishes it in the
      gate, which is enabled. */
  lemma CompleteFinishes(s: Server, c: BT.Chain, r: TQ.RequestId)
    requires Inv(s, c) && r in s.queues.active
    ensures Current(s, r).Some?
    ensures match Current(s, r).value
            case FromGate(t) =>
              BG.Enabled(s.gate, BG.Finished(t)) && OnComplete(s, r).gate == BG.Step(s.gate, c, BG.Finished(t))
            case Other(_) => OnComplete(s, r).gate == s.gate
  {
    hide BG.Inv, TQ.Inv;
    assert RequestInv(s, r);
    CurrentIsOpen(s, r);
  }

  // ------------------------------------------------------------------ runs

  lemma CompleteInv(s: Server, c: BT.Chain, r: TQ.RequestId)
    requires BT.Sound(c) && Inv(s, c) && r in s.queues.active
    ensures Inv(OnComplete(s, r), c)
  {
    hide BG.Inv, TQ.Inv, BT.Sound, OnComplete, Current, RequestInv, TaskInv;
    assert RequestInv(s, r);
    CurrentIsOpen(s, r);
    CompleteFinishes(s, c, r);
    TQ.FinishInv(s.queues, r);
    CompleteQueues(s, r);
    if Current(s, r).value.FromGate? {
      BG.StepInv(s.gate, c, BG.Finished(Current(s, r).value.task));
    }
    forall x ensures RequestInv(OnComplete(s, r), x) { CompleteRequest(s, r, x); }
    forall t ensures TaskInv(OnComplete(s, r), t) { CompleteKeepsTask(s, r, t); }
  }

  lemma CompleteQueues(s: Server, r: TQ.RequestId)
    ensures OnComplete(s, r).queues == TQ.OnFinish(s.queues, r)
    ensures OnComplete(s, r).gate.stopping == s.gate.stopping
    ensures TQ.OnFinish(s.queues, r).stopping == s.queues.stopping
  {
  }

  lemma EnqueueQueues(s: Server, r: TQ.RequestId, item: Item)
    requires TQ.Inv(s.queues)
    ensures TQ.Inv(Enqueue(s, r, item).queues) && Enqueue(s, r, item).queues.stopping == s.queues.stopping
  {
    TQ.PushInv(s.queues, r, TaskOf(item));
    hide TQ.Inv;
  }

  lemma GateInv(s: Server, c: BT.Chain, e: BG.Event)
    requires BT.Sound(c) && Inv(s, c) && BG.Enabled(s.gate, e) && !e.Stop? && !e.Finished?
    ensures Inv(OnGate(s, c, e), c)
  {
    hide BG.Inv, TQ.Inv, BT.Sound, RequestInv, TaskInv;
    GateParts(s, c, e);
    forall x ensures RequestInv(OnGate(s, c, e), x) { GateKeepsRequest(s, c, e, x); }
    forall t ensures TaskInv(OnGate(s, c, e), t) { assert RequestInv(s, t.message.requestId); GateKeepsTask(s, c, e, t); }
  }

  lemma GateParts(s: Server, c: BT.Chain, e: BG.Event)
    requires BT.Sound(c) && BG.Inv(s.gate, c) && TQ.Inv(s.queues) && s.gate.stopping == s.queues.stopping
    requires BG.Enabled(s.gate, e) && !e.Stop? && !e.Finished?
    ensures var s' := OnGate(s, c, e);
            BG.Inv(s'.gate, c) && TQ.Inv(s'.queues) && s'.gate.stopping == s'.queues.stopping
  {
    hide BG.Inv, TQ.Inv, BT.Sound, Enqueue, BG.Step;
    BG.StepInv(s.gate, c, e);
    GateAccounts(s.gate, c, e);
    var s', brings := s.(gate := BG.Step(s.gate, c, e)), Brings(s.gate, e);
    if brings.Some? {
      var r, item := brings.value.message.requestId, FromGate(brings.value);
      EnqueueQueues(s', r, item);
      KeepsGate(s', r, item);
    }
  }

  lemma OtherInv(s: Server, c: BT.Chain, r: TQ.RequestId, own: TQ.Task)
    requires Inv(s, c)
    ensures Inv(Enqueue(s, r, Other(own)), c)
  {
    hide BG.Inv, TQ.Inv, RequestInv, TaskInv, Enqueue;
    EnqueueQueues(s, r, Other(own));
    KeepsGate(s, r, Other(own));
    forall x ensures RequestInv(Enqueue(s, r, Other(own)), x) { EnqueueKeepsRequest(s, r, Other(own), x); }
    forall t ensures TaskInv(Enqueue(s, r, Other(own)), t) {
      assert RequestInv(s, t.message.requestId);
      OtherKeepsTask(s, r, own, t);
    }
  }

  lemma WakeInv(s: Server, c: BT.Chain, r: TQ.RequestId)
    requires Inv(s, c) && r in s.queues.wakeUps
    ensures Inv(s.(queues := TQ.OnWake(s.queues, r)), c)
  {
    hide BG.Inv, TQ.Inv;
    var s' := s.(queues := TQ.OnWake(s.queues, r));
    TQ.WakeInv(s.queues, r);
    assert s'.queues.stopping == s.queues.stopping;
    hide TQ.OnWake;
    forall x ensures RequestInv(s', x) && Open(s', x) == Open(s, x) {
      assert RequestInv(s, x);
      WakeProgress(s.queues, r, x);
    }
    forall t ensures TaskInv(s', t) { assert TaskInv(s, t); }
  }

  lemma StopInv(s: Server, c: BT.Chain)
    requires BT.Sound(c) && Inv(s, c)
    ensures Inv(s.(gate := s.gate.(stopping := true), queues := TQ.OnStop(s.queues)), c)
  {
    hide BG.Inv, TQ.Inv, BT.Sound;
    var s' := s.(gate := s.gate.(stopping := true), queues := TQ.OnStop(s.queues));
    BG.StepInv(s.gate, c, BG.Event.Stop);
    TQ.StepInv(s.queues, TQ.Event.Stop);
    forall x ensures RequestInv(s', x) && Open(s', x) == Open(s, x) { assert RequestInv(s, x); }
    forall t ensures TaskInv(s', t) { assert TaskInv(s, t); }
  }

  lemma StepInv(s: Server, c: BT.Chain, e: Event)
    requires BT.Sound(c) && Inv(s, c) && Enabled(s, e)
    ensures Inv(Step(s, c, e), c)
  {
    hide Inv, OnGate, OnComplete, Enqueue, BT.Sound;
    match e {
      case GateStep(g) => GateInv(s, c, g);
      case PushOther(r, own) => OtherInv(s, c, r, own);
      case Wake(r) => WakeInv(s, c, r);
      case Complete(r) => CompleteInv(s, c, r);
      case Stop => StopInv(s, c);
    }
  }

  ghost predicate IsStart(s: Server) {
    BG.IsStart(s.gate) && s.queues == TQ.EMPTY && s.items == map[]
  }

  ghost predicate Next(s: Server, c: BT.Chain, s': Server) {
    exists e :: Enabled(s, e) && s' == Step(s, c, e)
  }

  ghost predicate IsRun(c: BT.Chain, run: seq<Server>) {
    run != [] && IsStart(run[0]) && forall i | 0 < i < |run| :: Next(run[i-1], c, run[i])
  }

  lemma StartInv(s: Server, c: BT.Chain)
    requires IsStart(s)
    ensures Inv(s, c)
  {
    hide BG.Inv;
    BG.StartInv(s.gate, c);
    TQ.RunInv([TQ.EMPTY], 0);
  }

  lemma {:induction false} RunInv(c: BT.Chain, run: seq<Server>, n: nat)
    requires BT.Sound(c) && IsRun(c, run) && n < |run|
    ensures Inv(run[n], c)
  {
    hide Inv, IsStart, BT.Sound;
    if n == 0 {
      StartInv(run[0], c);
    } else {
      RunInv(c, run, n - 1);
      assert Next(run[n-1], c, run[n]);
      var e :| Enabled(run[n-1], e) && run[n] == Step(run[n-1], c, e);
      StepInv(run[n-1], c, e);
    }
  }

  /** In every reachable state the tasks started for a request are the first ones pushed
      for it, in the order of pushing, whether they come from the gate or not; at most
      one has not completed; and the gate still counts exactly the ones not completed. */
  lemma StartedInOrder(c: BT.Chain, run: seq<Server>, n: nat, r: TQ.RequestId)
    requires BT.Sound(c) && IsRun(c, run) && n < |run|
    ensures var s := run[n]; var items := At(s.items, r);
            && TQ.At(s.queues.started, r) <= Tasks(items)
            && 0 <= Completed(s.queues, r) <= |TQ.At(s.queues.started, r)| <= Completed(s.queues, r) + 1
            && forall t: BG.Task :: t.message.requestId == r ==>
                 s.gate.unfinished[t] == multiset(items[Completed(s.queues, r)..])[FromGate(t)]
  {
    RunInv(c, run, n);
    var s := run[n];
    assert RequestInv(s, r) && TQ.RequestInv(s.queues, r);
    forall t: BG.Task | t.message.requestId == r
      ensures s.gate.unfinished[t] == multiset(At(s.items, r)[Completed(s.queues, r)..])[FromGate(t)]
    {
      assert TaskInv(s, t);
    }
  }

  // -------------------------------------------- the gate's run inside a run

  lemma GateNext(s: Server, c: BT.Chain, e: Event)
    requires Inv(s, c) && Enabled(s, e)
    ensures Step(s, c, e).gate == s.gate || BG.Next(s.gate, c, Step(s, c, e).gate)
  {
    hide Inv, TQ.OnFinish, TQ.OnWake, TQ.OnStop, BG.Step;
    match e {
      case GateStep(g) =>
        ToNext(s.gate, c, g);
        if Brings(s.gate, g).Some? {
          var t := Brings(s.gate, g).value;
          KeepsGate(s.(gate := BG.Step(s.gate, c, g)), t.message.requestId, FromGate(t));
        }
      case PushOther(r, own) => KeepsGate(s, r, Other(own));
      case Wake(_) =>
      case Complete(r) =>
        CompletedNext(s, c, r);
      case Stop => StopNext(s, c);
    }
  }

  lemma ToNext(g: BG.Gate, c: BT.Chain, e: BG.Event)
    requires BG.Enabled(g, e)
    ensures BG.Next(g, c, BG.Step(g, c, e))
  {
  }

  lemma CompletedNext(s: Server, c: BT.Chain, r: TQ.RequestId)
    requires Inv(s, c) && r in s.queues.active
    ensures OnComplete(s, r).gate == s.gate || BG.Next(s.gate, c, OnComplete(s, r).gate)
  {
    hide Inv, OnComplete;
    CompleteFinishes(s, c, r);
    if Current(s, r).value.FromGate? {
      ToNext(s.gate, c, BG.Finished(Current(s, r).value.task));
    }
  }

  lemma StopNext(s: Server, c: BT.Chain)
    ensures BG.Next(s.gate, c, s.gate.(stopping := true))
  {
    ToNext(s.gate, c, BG.Event.Stop);
  }

  /** The gate's states, with the steps that leave it alone cut out. */
  lemma {:induction false} GateRun(c: BT.Chain, run: seq<Server>, n: nat) returns (gates: seq<BG.Gate>)
    requires BT.Sound(c) && IsRun(c, run) && n < |run|
    ensures BG.IsRun(c, gates) && gates[0] == run[0].gate && gates[|gates|-1] == run[n].gate
  {
    if n == 0 {
      gates := [run[0].gate];
    } else {
      gates := GateRun(c, run, n - 1);
      RunInv(c, run, n - 1);
      hide Inv, IsStart, BG.IsStart, BT.Sound;
      assert Next(run[n-1], c, run[n]);
      var e :| Enabled(run[n-1], e) && run[n] == Step(run[n-1], c, e);
      GateNext(run[n-1], c, e);
      if run[n].gate != run[n-1].gate {
        gates := gates + [run[n].gate];
      }
    }
  }

  // ------------------------------------------------------------ main result

  /** Nothing is under way in the gate, and no task waits, runs or is to be woken. */
  predicate Drained(s: Server) {
    BG.Quiet(s.gate) && s.queues.wakeUps == multiset{} && s.queues.active == multiset{}
  }

  lemma {:induction false} OnlyOne<T>(list: seq<T>, x: T) returns (p: nat)
    requires multiset(list)[x] == 1
    ensures p < |list| && list[p] == x && forall i | 0 <= i < |list| :: list[i] == x ==> i == p
  {
    var n := |list| - 1;
    assert list == list[..n] + [list[n]];
    OneMore(list[..n], list[n], x);
    if list[n] == x {
      p := n;
      forall i | 0 <= i < n ensures list[i] != x { assert list[..n][i] in list[..n]; }
    } else {
      p := OnlyOne(list[..n], x);
      forall i | 0 <= i < |list| && list[i] == x ensures i == p { assert list[..n][i] == x; }
    }
  }

  /** With one accepted attempt in the log, its task is there once and no other task of
      the message. */
  lemma {:induction false} LoggedOnce(log: seq<BG.Attempt>, id: BG.Id, a: BG.Attempt)
    requires BG.Attempts(log, id) == [a]
    ensures forall b: BG.Attempt :: b.task.id == id ==> multiset(log)[b] == if b == a then 1 else 0
  {
    assert forall b: BG.Attempt :: b.task.id == id ==> multiset(BG.Attempts(log, id))[b] == multiset(log)[b] by {
      forall b: BG.Attempt | b.task.id == id
        ensures multiset(BG.Attempts(log, id))[b] == multiset(log)[b]
      {
        AttemptsCount(log, id, b);
      }
    }
  }

  lemma {:induction false} AttemptsCount(log: seq<BG.Attempt>, id: BG.Id, b: BG.Attempt)
    requires b.task.id == id
    ensures multiset(BG.Attempts(log, id))[b] == multiset(log)[b]
  {
    if log != [] {
      var n := |log| - 1;
      AttemptsCount(log[..n], id, b);
      assert log == log[..n] + [log[n]];
      OneMore(log[..n], log[n], b);
      OneMore(BG.Attempts(log[..n], id), log[n], b);
      assert BG.Attempts(log[..n], id) + [] == BG.Attempts(log[..n], id);
    }
  }

  /** Exactly once, to the end: in every run from a known height, once the gate and the
      queues have drained and the server is not stopping, a message that names a block
      with a transaction below the chain head has been executed exactly once, in its
      place among the tasks of its request. */
  lemma ExecutedOnce(c: BT.Chain, run: seq<Server>, n: nat, id: BG.Id) returns (p: nat)
    requires BT.Sound(c) && IsRun(c, run) && run[0].gate.blocks.latest.Some?
    requires id in run[0].gate.store ==> run[0].gate.blocks.latest.value <= run[0].gate.store[id].height
    requires n < |run| && Drained(run[n]) && !run[n].gate.stopping && id in run[n].gate.handlers
    requires var m := run[n].gate.handlers[id].message; c.hasTx(m.height) && BG.Above(run[n].gate.blocks, m.height)
    ensures var s := run[n]; var m := s.gate.handlers[id].message; var items := At(s.items, m.requestId);
            && TQ.At(s.queues.started, m.requestId) == Tasks(items) && Completed(s.queues, m.requestId) == |items|
            && p < |items| && items[p].FromGate? && items[p].task.id == id && items[p].task.message == m
            && forall i | 0 <= i < |items| :: items[i].FromGate? && items[i].task.id == id ==> i == p
  {
    var s, r := run[n], run[n].gate.handlers[id].message.requestId;
    var gates := GateRun(c, run, n);
    DL.ExactlyOnce(c, gates, |gates| - 1, id);
    RunInv(c, run, n);
    AllStarted(s, c, r);
    var a := BG.Attempts(s.gate.log, id)[0];
    assert BG.Attempts(s.gate.log, id) == [a];
    assert a.task.id == id by { assert BG.MessageInv(s.gate, id); }
    LoggedOnce(s.gate.log, id, a);
    p := PlaceOf(s, c, id, a);
  }

  lemma AllStarted(s: Server, c: BT.Chain, r: TQ.RequestId)
    requires Inv(s, c) && s.queues.wakeUps == multiset{} && s.queues.active == multiset{}
    ensures TQ.At(s.queues.started, r) == Tasks(At(s.items, r)) && Completed(s.queues, r) == |At(s.items, r)|
  {
    hide BG.Inv;
    assert TQ.RequestInv(s.queues, r) && RequestInv(s, r);
  }

  lemma PlaceOf(s: Server, c: BT.Chain, id: BG.Id, a: BG.Attempt) returns (p: nat)
    requires Inv(s, c) && a.accepted && a.task.id == id
    requires forall b: BG.Attempt :: b.task.id == id ==> multiset(s.gate.log)[b] == if b == a then 1 else 0
    ensures var items := At(s.items, a.task.message.requestId);
            && p < |items| && items[p] == FromGate(a.task)
            && forall i | 0 <= i < |items| :: items[i].FromGate? && items[i].task.id == id ==> i == p
  {
    hide BG.Inv, TQ.Inv;
    var items := At(s.items, a.task.message.requestId);
    assert a == BG.Attempt(a.task, true);
    assert TaskInv(s, a.task) && RequestInv(s, a.task.message.requestId);
    p := OnlyOne(items, FromGate(a.task));
    forall i | 0 <= i < |items| && items[i].FromGate? && items[i].task.id == id
      ensures i == p
    {
      var t := items[i].task;
      assert items[i] in items && TaskInv(s, t);
      assert multiset(items)[FromGate(t)] > 0;
      assert multiset(s.gate.log)[BG.Attempt(t, true)] > 0;
    }
  }
}
