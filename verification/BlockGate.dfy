/** Inbound messages that wait for a block: handleMessageFromMqWithBlockWait and
    processMessageInBlocks of core/request_process_manager.js, run against the
    block tracker. Every cache read or write is a step of its own, so every
    interleaving of handlers, block scans and task completions is a run. */
module BlockGate {
  import opened Wrappers
  import BT = BlockTracker
  import Sums
  import Lists

  type Id = string

  datatype Message = Message(height: nat, requestId: string, body: string)

  /** Where a message handler stands. Saving and Removing hold the two cache
      operations of a Promise.all: true means "still in the cache" for Removing
      and "already written" for Saving. */
  datatype Pc =
    | Saving(stored: bool, indexed: bool)
    | Removing(stored: bool, indexed: bool)
    | Enqueueing  // told to queue, awaiting the persistent write in addTaskToQueue
    | HandedOver  // reached the in-memory queue
    | Parked      // returned false: left to a block scan

  datatype Handler = Handler(message: Message, pc: Pc)

  /** Where the scan of one block range stands. */
  datatype Scan =
    | Fetching                                                // before the index read
    | IndexRead(ids: set<Id>)                                 // index reply in transit
    | Delivering(toRead: set<Id>, toPush: map<Id, Message>)   // locks checked

  datatype Task = Task(id: Id, message: Message, viaScan: bool)

  /** One arrival at the push of addTaskToQueue; stopping refuses it. */
  datatype Attempt = Attempt(task: Task, accepted: bool)

  datatype Gate = Gate(
    blocks: BT.Tracker,
    lock: set<Id>,               // messageProcessLock
    store: map<Id, Message>,     // messageFromMQ
    index: map<Id, nat>,         // messageIdToProcessAtBlock, scored by height
    handlers: map<Id, Handler>,
    scans: map<nat, Scan>,       // one per block handler in flight
    unfinished: multiset<Task>,  // queued or running
    staleStore: set<Id>,         // removals started by cleanUpMessage
    staleIndex: set<Id>,
    stopping: bool,
    log: seq<Attempt>)           // history

  function Start(height: Option<nat>): Gate {
    Gate(BT.Start(height), {}, map[], map[], map[], map[], multiset{}, {}, {}, false, [])
  }

  /** A start from a saved height; an earlier run may have left messages parked in the
      cache. */
  predicate IsStart(s: Gate) {
    && (s.blocks == BT.Start(s.blocks.latest) && s.lock == {} && s.scans == map[])
    && (s.unfinished == multiset{} && s.staleStore == {} && s.staleIndex == {} && !s.stopping && s.log == [])
    && (s.index.Keys == s.store.Keys && s.handlers.Keys == s.store.Keys)
    && forall id :: id in s.store ==> LeftParked(s, id)
  }

  predicate LeftParked(s: Gate, id: Id) {
    && id in s.store && id in s.index && id in s.handlers
    && s.index[id] == s.store[id].height && s.handlers[id] == Handler(s.store[id], Parked)
  }

  datatype Event =
    // from outside
    | Arrive(id: Id, message: Message)
    | Block(height: nat)
    | Stop
    // the message handler
    | Stored(id: Id)
    | Indexed(id: Id)
    | Recheck(id: Id)
    | Unstored(id: Id)
    | Unindexed(id: Id)
    | Released(id: Id)
    | Push(id: Id)
    // the block scan
    | ReadIndex(height: nat)
    | CheckLocks(height: nat)
    | ReadMessage(height: nat, id: Id)
    | PushScanned(height: nat, id: Id)
    | EndScan(height: nat)
    // after the task has run
    | Finished(task: Task)
    | CleanStore(id: Id)
    | CleanIndex(id: Id)

  predicate PcIs(s: Gate, id: Id, pc: Pc) {
    id in s.handlers && s.handlers[id].pc == pc
  }

  predicate Enabled(s: Gate, e: Event) {
    match e
    case Arrive(id, _) => id !in s.handlers
    case Block(_) => true
    case Stop => true
    case Stored(id) => id in s.handlers && s.handlers[id].pc.Saving? && !s.handlers[id].pc.stored
    case Indexed(id) => id in s.handlers && s.handlers[id].pc.Saving? && !s.handlers[id].pc.indexed
    case Recheck(id) => PcIs(s, id, Saving(true, true))
    case Unstored(id) => id in s.handlers && s.handlers[id].pc.Removing? && s.handlers[id].pc.stored
    case Unindexed(id) => id in s.handlers && s.handlers[id].pc.Removing? && s.handlers[id].pc.indexed
    case Released(id) => PcIs(s, id, Removing(false, false))
    case Push(id) => PcIs(s, id, Enqueueing)
    case ReadIndex(h) => h in s.scans && s.scans[h].Fetching? && h in s.blocks.inFlight
    case CheckLocks(h) => h in s.scans && s.scans[h].IndexRead?
    case ReadMessage(h, id) => h in s.scans && s.scans[h].Delivering? && id in s.scans[h].toRead
    case PushScanned(h, id) => h in s.scans && s.scans[h].Delivering? && id in s.scans[h].toPush
    case EndScan(h) => h in s.scans && s.scans[h] == Delivering({}, map[]) && h in s.blocks.inFlight
    case Finished(task) => task in s.unfinished
    case CleanStore(id) => id in s.staleStore
    case CleanIndex(id) => id in s.staleIndex
  }

  function SetPc(s: Gate, id: Id, pc: Pc): Gate
    requires id in s.handlers
  {
    s.(handlers := s.handlers[id := s.handlers[id].(pc := pc)])
  }

  function SetScan(s: Gate, h: nat, scan: Scan): Gate {
    s.(scans := s.scans[h := scan])
  }

  /** The end of addTaskToQueue. */
  function PushTask(s: Gate, task: Task): Gate {
    s.(log := s.log + [Attempt(task, !s.stopping)],
       unfinished := if s.stopping then s.unfinished else s.unfinished + multiset{task})
  }

  function OnArrive(s: Gate, id: Id, m: Message): Gate {
    if BT.AtOrBelow(s.blocks.latest, m.height)
    then s.(lock := s.lock + {id}, handlers := s.handlers[id := Handler(m, Saving(false, false))])
    else s.(handlers := s.handlers[id := Handler(m, Enqueueing)])
  }

  function OnBlock(s: Gate, h: nat, hash: string): Gate {
    var s' := s.(blocks := BT.NewBlock(s.blocks, h, hash));
    if BT.Launches(s.blocks, h, hash) then SetScan(s', h, Fetching) else s'
  }

  function OnStored(s: Gate, id: Id): Gate
    requires Enabled(s, Stored(id))
  {
    SetPc(s, id, Saving(true, s.handlers[id].pc.indexed)).(store := s.store[id := s.handlers[id].message])
  }

  function OnIndexed(s: Gate, id: Id): Gate
    requires Enabled(s, Indexed(id))
  {
    SetPc(s, id, Saving(s.handlers[id].pc.stored, true))
      .(index := if id in s.index then s.index else s.index[id := s.handlers[id].message.height])
  }

  /** The second look at the height, once both writes are done. */
  function OnRecheck(s: Gate, id: Id): Gate
    requires Enabled(s, Recheck(id))
  {
    if BT.AtOrBelow(s.blocks.latest, s.handlers[id].message.height)
    then SetPc(s, id, Parked).(lock := s.lock - {id})
    else SetPc(s, id, Removing(true, true))
  }

  function OnUnstored(s: Gate, id: Id): Gate
    requires Enabled(s, Unstored(id))
  {
    SetPc(s, id, Removing(false, s.handlers[id].pc.indexed)).(store := s.store - {id})
  }

  function OnUnindexed(s: Gate, id: Id): Gate
    requires Enabled(s, Unindexed(id))
  {
    SetPc(s, id, Removing(s.handlers[id].pc.stored, false)).(index := s.index - {id})
  }

  function OnReleased(s: Gate, id: Id): Gate
    requires Enabled(s, Released(id))
  {
    SetPc(s, id, Enqueueing)
  }

  function OnPush(s: Gate, id: Id): Gate
    requires Enabled(s, Push(id))
  {
    PushTask(SetPc(s, id, HandedOver), Task(id, s.handlers[id].message, false))
  }

  function InRange(s: Gate, h: nat): set<Id>
    requires h in s.blocks.inFlight
  {
    set id | id in s.index && s.blocks.inFlight[h].from <= s.index[id] <= h - 1
  }

  function OnReadIndex(s: Gate, h: nat): Gate
    requires Enabled(s, ReadIndex(h))
  {
    SetScan(s, h, IndexRead(InRange(s, h)))
  }

  /** All locks are looked at in one turn, when the index reply arrives. */
  function OnCheckLocks(s: Gate, h: nat): Gate
    requires Enabled(s, CheckLocks(h))
  {
    SetScan(s, h, Delivering(s.scans[h].ids - s.lock, map[]))
  }

  function OnReadMessage(s: Gate, h: nat, id: Id): Gate
    requires Enabled(s, ReadMessage(h, id))
  {
    var d := s.scans[h];
    SetScan(s, h, Delivering(d.toRead - {id}, if id in s.store then d.toPush[id := s.store[id]] else d.toPush))
  }

  function OnPushScanned(s: Gate, h: nat, id: Id): Gate
    requires Enabled(s, PushScanned(h, id))
  {
    var d := s.scans[h];
    PushTask(SetScan(s, h, Delivering(d.toRead, d.toPush - {id})), Task(id, d.toPush[id], true))
  }

  function OnEndScan(s: Gate, h: nat): Gate
    requires Enabled(s, EndScan(h))
  {
    s.(scans := s.scans - {h}, blocks := BT.Finish(s.blocks, h))
  }

  /** onCallbackFinished: releaseLock, and for a scanned message its clean-up. */
  function OnFinished(s: Gate, task: Task): Gate
    requires Enabled(s, Finished(task))
  {
    var s' := s.(unfinished := s.unfinished - multiset{task}, lock := s.lock - {task.id});
    if task.viaScan
    then s'.(staleStore := s.staleStore + {task.id}, staleIndex := s.staleIndex + {task.id})
    else s'
  }

  function OnCleanStore(s: Gate, id: Id): Gate {
    s.(store := s.store - {id}, staleStore := s.staleStore - {id})
  }

  function OnCleanIndex(s: Gate, id: Id): Gate {
    s.(index := s.index - {id}, staleIndex := s.staleIndex - {id})
  }

  function Step(s: Gate, c: BT.Chain, e: Event): Gate
    requires Enabled(s, e)
  {
    match e
    case Arrive(id, m) => OnArrive(s, id, m)
    case Block(h) => OnBlock(s, h, c.appHash(h))
    case Stop => s.(stopping := true)
    case Stored(id) => OnStored(s, id)
    case Indexed(id) => OnIndexed(s, id)
    case Recheck(id) => OnRecheck(s, id)
    case Unstored(id) => OnUnstored(s, id)
    case Unindexed(id) => OnUnindexed(s, id)
    case Released(id) => OnReleased(s, id)
    case Push(id) => OnPush(s, id)
    case ReadIndex(h) => OnReadIndex(s, h)
    case CheckLocks(h) => OnCheckLocks(s, h)
    case ReadMessage(h, id) => OnReadMessage(s, h, id)
    case PushScanned(h, id) => OnPushScanned(s, h, id)
    case EndScan(h) => OnEndScan(s, h)
    case Finished(task) => OnFinished(s, task)
    case CleanStore(id) => OnCleanStore(s, id)
    case CleanIndex(id) => OnCleanIndex(s, id)
  }

  // ------------------------------------------------------------- invariant

  /** The times message id has reached the queue, in order. */
  ghost function Attempts(log: seq<Attempt>, id: Id): seq<Attempt> {
    if log == [] then []
    else Attempts(log[..|log|-1], id) + if log[|log|-1].task.id == id then [log[|log|-1]] else []
  }

  lemma AttemptsPush(log: seq<Attempt>, a: Attempt, id: Id)
    ensures Attempts(log + [a], id) == Attempts(log, id) + if a.task.id == id then [a] else []
  {
    assert (log + [a])[..|log|] == log;
  }

  lemma {:induction false} AttemptsMember(log: seq<Attempt>, a: Attempt)
    ensures a in log <==> a in Attempts(log, a.task.id)
  {
    var n := |log|;
    if n != 0 {
      AttemptsMember(log[..n-1], a);
      assert log == log[..n-1] + [log[n-1]];
    }
  }

  ghost function Owner(b: BT.Tracker, height: nat): Option<nat> {
    BT.OwnerOf(b.tiles, height)
  }

  ghost predicate Above(b: BT.Tracker, height: nat) {
    !BT.AtOrBelow(b.latest, height)
  }

  ghost predicate Mentions(scan: Scan, id: Id) {
    match scan
    case Fetching => false
    case IndexRead(ids) => id in ids
    case Delivering(toRead, toPush) => id in toRead || id in toPush
  }

  /** What the scan that owns a message's height is doing with it. */
  datatype Role =
    | Unowned                                            // no scan covers the height
    | Awaiting                                           // index not read yet
    | Listing(listed: bool)
    | Carrying(reading: bool, carried: Option<Message>)
    | Over                                               // the scan has ended

  /** All a state says about one message. */
  datatype Trace = Trace(
    handler: Option<Handler>, locked: bool, stored: Option<Message>, indexed: Option<nat>,
    staleStore: bool, staleIndex: bool, tries: seq<Attempt>, open: set<Task>, role: Role, strays: bool, above: bool, stopping: bool)

  ghost function RoleOf(scans: map<nat, Scan>, owner: Option<nat>, id: Id): Role {
    match owner
    case None => Unowned
    case Some(h) =>
      if h !in scans then Over
      else match scans[h]
        case Fetching => Awaiting
        case IndexRead(ids) => Listing(id in ids)
        case Delivering(toRead, toPush) => Carrying(id in toRead, Get(toPush, id))
  }

  function Get<V>(m: map<Id, V>, id: Id): Option<V> {
    if id in m then Some(m[id]) else None
  }

  /** A scan other than the owner holds the message. */
  ghost predicate Strays(scans: map<nat, Scan>, owner: Option<nat>, id: Id) {
    exists h :: h in scans && Mentions(scans[h], id) && owner != Some(h)
  }

  ghost function OpenTasks(unfinished: multiset<Task>, id: Id): set<Task> {
    set t | t in unfinished && t.id == id
  }

  ghost function TraceOf(s: Gate, id: Id): Trace {
    var handler := Get(s.handlers, id);
    var owner := if handler.Some? then Owner(s.blocks, handler.value.message.height) else None;
    Trace(handler, id in s.lock, Get(s.store, id), Get(s.index, id),
      id in s.staleStore, id in s.staleIndex, Attempts(s.log, id), OpenTasks(s.unfinished, id),
      RoleOf(s.scans, owner, id), Strays(s.scans, owner, id),
      handler.Some? && Above(s.blocks, handler.value.message.height), s.stopping)
  }

  /** A parked message waits in the cache until the scan that owns its height has
      carried it to the queue, which that scan does once. */
  ghost predicate ParkedOk(t: Trace, m: Message) {
    match t.role
    case Unowned => t.tries == [] && t.stored.Some? && t.indexed.Some?
    case Awaiting => t.tries == [] && t.stored.Some? && t.indexed.Some?
    case Listing(listed) => t.tries == [] && t.stored.Some? && listed
    case Carrying(reading, carried) =>
      if reading then t.tries == [] && t.stored.Some? && carried == None
      else if carried.Some? then t.tries == [] && carried == Some(m)
      else |t.tries| == 1
    case Over => |t.tries| == 1
  }

  /** When the task of a parked message has completed, what is left in the cache is on
      its way out. */
  ghost predicate CleaningOk(t: Trace) {
    t.tries != [] && t.tries[0].accepted && t.open == {} ==>
      (t.stored.Some? ==> t.staleStore) && (t.indexed.Some? ==> t.staleIndex)
  }

  ghost predicate PcOk(t: Trace, m: Message, pc: Pc) {
    match pc
    case Saving(a, b) =>
      && t.locked && t.stored.Some? == a && t.indexed.Some? == b && t.tries == []
      && (t.role.Carrying? ==> t.role == Carrying(false, None))
    case Removing(a, b) =>
      && t.locked && t.stored.Some? == a && t.indexed.Some? == b && t.tries == [] && t.above
      && (t.role.Carrying? ==> t.role == Carrying(false, None))
    case Enqueueing =>
      t.stored == None && t.indexed == None && t.tries == [] && t.above && (t.role.Carrying? ==> t.role.carried == None)
    case HandedOver =>
      && t.stored == None && t.indexed == None && |t.tries| == 1 && (t.role.Carrying? ==> t.role.carried == None)
      && (t.locked ==> t.open != {} || t.stopping)
    case Parked => !t.locked && ParkedOk(t, m) && CleaningOk(t)
  }

  ghost predicate TraceOk(id: Id, t: Trace) {
    && !t.strays
    && match t.handler
       case None =>
         && !t.locked && t.stored == None && t.indexed == None && !t.staleStore && !t.staleIndex
         && t.tries == [] && t.open == {}
       case Some(Handler(m, pc)) =>
         && PcOk(t, m, pc)
         && (t.stored.Some? ==> t.stored == Some(m))
         && (t.indexed.Some? ==> t.indexed == Some(m.height))
         && (t.tries != [] ==> t.tries[0].task == Task(id, m, pc == Parked) && (t.tries[0].accepted || t.stopping) && t.above)
         && (forall task :: task in t.open ==> t.tries == [Attempt(task, true)])
         && (t.staleStore || t.staleIndex ==> pc == Parked && t.tries != [])
  }

  ghost predicate MessageInv(s: Gate, id: Id) {
    TraceOk(id, TraceOf(s, id))
  }

  ghost predicate Inv(s: Gate, c: BT.Chain) {
    && BT.Inv(s.blocks, c)
    && s.scans.Keys == s.blocks.inFlight.Keys
    && forall id :: MessageInv(s, id)
  }

  lemma OwnerBelow(s: Gate, c: BT.Chain, height: nat)
    requires BT.Inv(s.blocks, c)
    ensures Owner(s.blocks, height).Some? ==> Above(s.blocks, height)
  {
    BT.OwnerBounds(s.blocks, c, height);
  }

  /** A step that leaves everything about x alone leaves its trace alone. */
  lemma SameTrace(s: Gate, s': Gate, x: Id)
    requires s'.blocks == s.blocks && s'.stopping == s.stopping
    requires Get(s'.handlers, x) == Get(s.handlers, x)
    requires Get(s'.store, x) == Get(s.store, x) && Get(s'.index, x) == Get(s.index, x)
    requires x in s'.lock <==> x in s.lock
    requires x in s'.staleStore <==> x in s.staleStore
    requires x in s'.staleIndex <==> x in s.staleIndex
    requires Attempts(s'.log, x) == Attempts(s.log, x)
    requires forall t: Task :: t.id == x ==> (t in s'.unfinished <==> t in s.unfinished)
    requires s'.scans.Keys == s.scans.Keys
    requires forall h :: h in s.scans ==> SameScan(s.scans[h], s'.scans[h], x)
    ensures TraceOf(s', x) == TraceOf(s, x)
  {
    assert OpenTasks(s'.unfinished, x) == OpenTasks(s.unfinished, x);
    assert forall h :: h in s.scans ==> (Mentions(s'.scans[h], x) <==> Mentions(s.scans[h], x));
  }

  ghost predicate SameScan(a: Scan, b: Scan, x: Id) {
    || a == b
    || (a.Delivering? && b.Delivering? && (x in a.toRead <==> x in b.toRead) && Get(a.toPush, x) == Get(b.toPush, x))
  }

  // ------------------------------------- each step keeps each message right

  lemma ArriveOther(s: Gate, id: Id, m: Message, x: Id)
    requires id !in s.handlers && x != id
    ensures TraceOf(OnArrive(s, id, m), x) == TraceOf(s, x)
  {
    if Above(s.blocks, m.height) {
      SameTrace(s, OnArrive(s, id, m), x);
    } else {
      SameTrace(s, OnArrive(s, id, m), x);
    }
  }

  lemma ArriveWaits(s: Gate, id: Id, m: Message)
    requires MessageInv(s, id) && id !in s.handlers && !Above(s.blocks, m.height)
    ensures MessageInv(OnArrive(s, id, m), id)
  {
  }

  lemma ArrivePasses(s: Gate, id: Id, m: Message)
    requires MessageInv(s, id) && id !in s.handlers && Above(s.blocks, m.height)
    ensures MessageInv(OnArrive(s, id, m), id)
  {
  }

  lemma ArriveKeeps(s: Gate, id: Id, m: Message, x: Id)
    requires MessageInv(s, x) && id !in s.handlers
    ensures MessageInv(OnArrive(s, id, m), x)
  {
    if x != id {
      ArriveOther(s, id, m, x);
    } else if Above(s.blocks, m.height) {
      ArrivePasses(s, id, m);
    } else {
      ArriveWaits(s, id, m);
    }
  }

  lemma StoredKeeps(s: Gate, id: Id, x: Id)
    requires MessageInv(s, x) && Enabled(s, Stored(id))
    ensures MessageInv(OnStored(s, id), x)
  {
    if x != id {
      SameTrace(s, OnStored(s, id), x);
    }
  }

  lemma IndexedKeeps(s: Gate, id: Id, x: Id)
    requires MessageInv(s, x) && Enabled(s, Indexed(id))
    ensures MessageInv(OnIndexed(s, id), x)
  {
    if x != id {
      SameTrace(s, OnIndexed(s, id), x);
    }
  }

  lemma RecheckOther(s: Gate, id: Id, x: Id)
    requires Enabled(s, Recheck(id)) && x != id
    ensures TraceOf(OnRecheck(s, id), x) == TraceOf(s, x)
  {
    SameTrace(s, OnRecheck(s, id), x);
  }

  lemma RecheckParks(s: Gate, c: BT.Chain, id: Id)
    requires BT.Inv(s.blocks, c) && MessageInv(s, id) && Enabled(s, Recheck(id))
    requires !Above(s.blocks, s.handlers[id].message.height)
    ensures MessageInv(OnRecheck(s, id), id)
  {
    OwnerBelow(s, c, s.handlers[id].message.height);
  }

  lemma RecheckPasses(s: Gate, id: Id)
    requires MessageInv(s, id) && Enabled(s, Recheck(id)) && Above(s.blocks, s.handlers[id].message.height)
    ensures MessageInv(OnRecheck(s, id), id)
  {
  }

  lemma RecheckKeeps(s: Gate, c: BT.Chain, id: Id, x: Id)
    requires BT.Inv(s.blocks, c) && MessageInv(s, x) && Enabled(s, Recheck(id))
    ensures MessageInv(OnRecheck(s, id), x)
  {
    if x != id {
      RecheckOther(s, id, x);
    } else if Above(s.blocks, s.handlers[id].message.height) {
      RecheckPasses(s, id);
    } else {
      RecheckParks(s, c, id);
    }
  }

  lemma UnstoredKeeps(s: Gate, id: Id, x: Id)
    requires MessageInv(s, x) && Enabled(s, Unstored(id))
    ensures MessageInv(OnUnstored(s, id), x)
  {
    if x != id {
      SameTrace(s, OnUnstored(s, id), x);
    }
  }

  lemma UnindexedKeeps(s: Gate, id: Id, x: Id)
    requires MessageInv(s, x) && Enabled(s, Unindexed(id))
    ensures MessageInv(OnUnindexed(s, id), x)
  {
    if x != id {
      SameTrace(s, OnUnindexed(s, id), x);
    }
  }

  lemma ReleasedKeeps(s: Gate, id: Id, x: Id)
    requires MessageInv(s, x) && Enabled(s, Released(id))
    ensures MessageInv(OnReleased(s, id), x)
  {
    if x != id {
      SameTrace(s, OnReleased(s, id), x);
    }
  }

  lemma PushTaskTrace(s: Gate, task: Task)
    ensures var a := Attempt(task, !s.stopping); var t, t' := TraceOf(s, task.id), TraceOf(PushTask(s, task), task.id);
            t' == t.(tries := t.tries + [a], open := if s.stopping then t.open else t.open + {task})
  {
    hide Attempts, OpenTasks, RoleOf, Strays, Owner;
    AttemptsPush(s.log, Attempt(task, !s.stopping), task.id);
    MoreOpen(s.unfinished, task);
  }

  lemma MoreOpen(unfinished: multiset<Task>, task: Task)
    ensures OpenTasks(unfinished + multiset{task}, task.id) == OpenTasks(unfinished, task.id) + {task}
  {
  }

  lemma PushOther(s: Gate, id: Id, x: Id)
    requires Enabled(s, Push(id)) && x != id
    ensures TraceOf(OnPush(s, id), x) == TraceOf(s, x)
  {
    AttemptsPush(s.log, Attempt(Task(id, s.handlers[id].message, false), !s.stopping), x);
    SameTrace(s, OnPush(s, id), x);
  }

  lemma PushOwn(s: Gate, id: Id)
    requires MessageInv(s, id) && Enabled(s, Push(id))
    ensures MessageInv(OnPush(s, id), id)
  {
    PushTaskTrace(SetPc(s, id, HandedOver), Task(id, s.handlers[id].message, false));
    assert TraceOf(s, id).open == {};
  }

  lemma PushKeeps(s: Gate, id: Id, x: Id)
    requires MessageInv(s, x) && Enabled(s, Push(id))
    ensures MessageInv(OnPush(s, id), x)
  {
    if x != id {
      PushOther(s, id, x);
    } else {
      PushOwn(s, id);
    }
  }

  lemma ReadIndexUnknown(s: Gate, h: nat, x: Id)
    requires MessageInv(s, x) && Enabled(s, ReadIndex(h)) && x !in s.handlers
    ensures MessageInv(OnReadIndex(s, h), x)
  {
  }

  lemma ReadIndexKeeps(s: Gate, c: BT.Chain, h: nat, x: Id)
    requires BT.Inv(s.blocks, c) && MessageInv(s, x) && Enabled(s, ReadIndex(h))
    ensures MessageInv(OnReadIndex(s, h), x)
  {
    if x in s.handlers {
      BT.OwnerBounds(s.blocks, c, s.handlers[x].message.height);
      hide BT.Inv;
    } else {
      ReadIndexUnknown(s, h, x);
    }
  }

  lemma CheckLocksKeeps(s: Gate, h: nat, x: Id)
    requires MessageInv(s, x) && Enabled(s, CheckLocks(h))
    ensures MessageInv(OnCheckLocks(s, h), x)
  {
  }

  lemma ReadMessageOwn(s: Gate, h: nat, id: Id)
    requires MessageInv(s, id) && Enabled(s, ReadMessage(h, id))
    ensures MessageInv(OnReadMessage(s, h, id), id)
  {
    assert Mentions(s.scans[h], id);
  }

  lemma ReadMessageKeeps(s: Gate, h: nat, id: Id, x: Id)
    requires MessageInv(s, x) && Enabled(s, ReadMessage(h, id))
    ensures MessageInv(OnReadMessage(s, h, id), x)
  {
    if x != id {
      SameTrace(s, OnReadMessage(s, h, id), x);
    } else {
      ReadMessageOwn(s, h, id);
    }
  }

  lemma PushScannedOther(s: Gate, h: nat, id: Id, x: Id)
    requires Enabled(s, PushScanned(h, id)) && x != id
    ensures TraceOf(OnPushScanned(s, h, id), x) == TraceOf(s, x)
  {
    AttemptsPush(s.log, Attempt(Task(id, s.scans[h].toPush[id], true), !s.stopping), x);
    SameTrace(s, OnPushScanned(s, h, id), x);
  }

  lemma CarriedIsParked(s: Gate, h: nat, id: Id)
    requires MessageInv(s, id) && Enabled(s, PushScanned(h, id))
    ensures id in s.handlers && s.handlers[id].pc == Parked
    ensures TraceOf(s, id).role == Carrying(false, Some(s.handlers[id].message))
    ensures s.scans[h].toPush[id] == s.handlers[id].message
    ensures Owner(s.blocks, s.handlers[id].message.height) == Some(h)
  {
    assert Mentions(s.scans[h], id);
  }

  lemma DroppedFromScan(s: Gate, h: nat, id: Id)
    requires MessageInv(s, id) && Enabled(s, PushScanned(h, id))
    ensures var s' := SetScan(s, h, Delivering(s.scans[h].toRead, s.scans[h].toPush - {id}));
            TraceOf(s', id) == TraceOf(s, id).(role := Carrying(false, None))
  {
    CarriedIsParked(s, h, id);
  }

  lemma PushScannedOwn(s: Gate, c: BT.Chain, h: nat, id: Id)
    requires BT.Inv(s.blocks, c) && MessageInv(s, id) && Enabled(s, PushScanned(h, id))
    ensures MessageInv(OnPushScanned(s, h, id), id)
  {
    CarriedIsParked(s, h, id);
    var d := s.scans[h];
    DroppedFromScan(s, h, id);
    PushTaskTrace(SetScan(s, h, Delivering(d.toRead, d.toPush - {id})), Task(id, d.toPush[id], true));
    OwnerBelow(s, c, s.handlers[id].message.height);
    assert TraceOf(s, id).open == {};
  }

  lemma PushScannedKeeps(s: Gate, c: BT.Chain, h: nat, id: Id, x: Id)
    requires BT.Inv(s.blocks, c) && MessageInv(s, x) && Enabled(s, PushScanned(h, id))
    ensures MessageInv(OnPushScanned(s, h, id), x)
  {
    if x != id {
      PushScannedOther(s, h, id, x);
    } else {
      PushScannedOwn(s, c, h, id);
    }
  }

  lemma EndScanKeeps(s: Gate, h: nat, x: Id)
    requires MessageInv(s, x) && Enabled(s, EndScan(h))
    ensures MessageInv(OnEndScan(s, h), x)
  {
  }

  lemma FinishedOther(s: Gate, task: Task, x: Id)
    requires Enabled(s, Finished(task)) && x != task.id
    ensures TraceOf(OnFinished(s, task), x) == TraceOf(s, x)
  {
    SameTrace(s, OnFinished(s, task), x);
  }

  lemma FinishedOwn(s: Gate, task: Task)
    requires MessageInv(s, task.id) && Enabled(s, Finished(task))
    ensures MessageInv(OnFinished(s, task), task.id)
  {
    var t := TraceOf(s, task.id);
    assert task in t.open;
    assert t.tries == [Attempt(task, true)];
    assert TraceOf(OnFinished(s, task), task.id).open <= t.open;
  }

  lemma FinishedKeeps(s: Gate, task: Task, x: Id)
    requires MessageInv(s, x) && Enabled(s, Finished(task))
    ensures MessageInv(OnFinished(s, task), x)
  {
    if x != task.id {
      FinishedOther(s, task, x);
    } else {
      FinishedOwn(s, task);
    }
  }

  lemma CleanStoreKeeps(s: Gate, id: Id, x: Id)
    requires MessageInv(s, x) && id in s.staleStore
    ensures MessageInv(OnCleanStore(s, id), x)
  {
    if x != id {
      SameTrace(s, OnCleanStore(s, id), x);
    }
  }

  lemma CleanIndexKeeps(s: Gate, id: Id, x: Id)
    requires MessageInv(s, x) && id in s.staleIndex
    ensures MessageInv(OnCleanIndex(s, id), x)
  {
    if x != id {
      SameTrace(s, OnCleanIndex(s, id), x);
    }
  }

  /** Launching a scan gives a role to messages no scan owned, and only to them. */
  lemma LaunchedRole(scans: map<nat, Scan>, h: nat, o: Option<nat>, o': Option<nat>, x: Id)
    requires h !in scans && o != Some(h) && (o' == o || (o == None && o' == Some(h)))
    requires !Strays(scans, o, x)
    ensures var scans' := scans[h := Fetching];
            && !Strays(scans', o', x)
            && RoleOf(scans', o', x) == if o' == o then RoleOf(scans, o, x) else Awaiting
  {
    var scans' := scans[h := Fetching];
    assert forall g :: g in scans' && Mentions(scans'[g], x) ==> g in scans && Mentions(scans[g], x);
  }

  lemma SameButRole(s: Gate, blocks: BT.Tracker, scans: map<nat, Scan>, x: Id)
    requires x in s.handlers
    ensures var s' := s.(blocks := blocks, scans := scans); var height := s.handlers[x].message.height;
            TraceOf(s', x) == TraceOf(s, x).(role := RoleOf(scans, Owner(blocks, height), x),
              strays := Strays(scans, Owner(blocks, height), x), above := Above(blocks, height))
  {
    hide Attempts, OpenTasks, RoleOf, Strays, Owner;
  }

  lemma BlockParts(s: Gate, h: nat, hash: string)
    ensures var s' := OnBlock(s, h, hash);
            && s' == s.(blocks := BT.NewBlock(s.blocks, h, hash), scans := s'.scans)
            && s'.scans == if BT.Launches(s.blocks, h, hash) then s.scans[h := Fetching] else s.scans
  {
    hide BT.NewBlock, BT.Launches;
  }

  /** A new block can only make a message's height known to have passed, or give
      an unowned height to the scan it launches. */
  lemma BlockTrace(s: Gate, c: BT.Chain, h: nat, x: Id)
    requires BT.Inv(s.blocks, c) && s.scans.Keys == s.blocks.inFlight.Keys && MessageInv(s, x) && x in s.handlers
    ensures var t, t' := TraceOf(s, x), TraceOf(OnBlock(s, h, c.appHash(h)), x);
            && (t'.role == t.role || (t.role == Unowned && t'.role == Awaiting))
            && (t.above ==> t'.above)
            && t' == t.(role := t'.role, above := t'.above)
  {
    var height, hash := s.handlers[x].message.height, c.appHash(h);
    var s' := OnBlock(s, h, hash);
    assert !Strays(s.scans, Owner(s.blocks, height), x);
    BlockParts(s, h, hash);
    SameButRole(s, s'.blocks, s'.scans, x);
    BT.NewBlockOwner(s.blocks, c, h, height);
    if BT.Launches(s.blocks, h, hash) {
      LaunchedIsNew(s.blocks, c, h);
      LaunchedRole(s.scans, h, Owner(s.blocks, height), Owner(s'.blocks, height), x);
    }
    hide TraceOf, OnBlock, Strays, BT.Inv, BT.OwnerOf, Attempts, OpenTasks;
  }

  lemma LaunchedIsNew(t: BT.Tracker, c: BT.Chain, h: nat)
    requires BT.Inv(t, c) && BT.Launches(t, h, c.appHash(h))
    ensures h !in t.inFlight
  {
  }

  lemma TraceMayGain(id: Id, t: Trace, t': Trace)
    requires TraceOk(id, t) && t.handler.Some?
    requires t'.role == t.role || (t.role == Unowned && t'.role == Awaiting)
    requires t.above ==> t'.above
    requires t' == t.(role := t'.role, above := t'.above)
    ensures TraceOk(id, t')
  {
  }

  lemma BlockKeeps(s: Gate, c: BT.Chain, h: nat, x: Id)
    requires BT.Inv(s.blocks, c) && s.scans.Keys == s.blocks.inFlight.Keys && MessageInv(s, x)
    ensures MessageInv(OnBlock(s, h, c.appHash(h)), x)
  {
    var s' := OnBlock(s, h, c.appHash(h));
    if x in s.handlers {
      BlockTrace(s, c, h, x);
      TraceMayGain(x, TraceOf(s, x), TraceOf(s', x));
    } else {
      NoMentionsKept(s, c, h, x);
    }
  }

  lemma NoMentionsKept(s: Gate, c: BT.Chain, h: nat, x: Id)
    requires s.scans.Keys == s.blocks.inFlight.Keys && MessageInv(s, x) && x !in s.handlers
    ensures TraceOf(OnBlock(s, h, c.appHash(h)), x) == TraceOf(s, x)
  {
    var s' := OnBlock(s, h, c.appHash(h));
    assert forall g :: g in s'.scans && Mentions(s'.scans[g], x) ==> g in s.scans && Mentions(s.scans[g], x);
  }

  // ------------------------------------------------------------------ runs

  lemma StartKeepsMessage(s: Gate, id: Id)
    requires IsStart(s)
    ensures MessageInv(s, id)
  {
    assert OpenTasks(s.unfinished, id) == {};
    assert id in s.store ==> LeftParked(s, id);
  }

  lemma StartInv(s: Gate, c: BT.Chain)
    requires IsStart(s)
    ensures Inv(s, c)
  {
    BT.StartInv(s.blocks.latest, c);
    forall id ensures MessageInv(s, id) { StartKeepsMessage(s, id); }
  }

  lemma StepKeepsMessage(s: Gate, c: BT.Chain, e: Event, x: Id)
    requires Inv(s, c) && Enabled(s, e)
    ensures MessageInv(Step(s, c, e), x)
  {
    assert MessageInv(s, x);
    match e {
      case Arrive(id, m) => ArriveKeeps(s, id, m, x);
      case Block(h) => BlockKeeps(s, c, h, x);
      case Stop => StopKeeps(s, x);
      case Stored(id) => StoredKeeps(s, id, x);
      case Indexed(id) => IndexedKeeps(s, id, x);
      case Recheck(id) => RecheckKeeps(s, c, id, x);
      case Unstored(id) => UnstoredKeeps(s, id, x);
      case Unindexed(id) => UnindexedKeeps(s, id, x);
      case Released(id) => ReleasedKeeps(s, id, x);
      case Push(id) => PushKeeps(s, id, x);
      case ReadIndex(h) => ReadIndexKeeps(s, c, h, x);
      case CheckLocks(h) => CheckLocksKeeps(s, h, x);
      case ReadMessage(h, id) => ReadMessageKeeps(s, h, id, x);
      case PushScanned(h, id) => PushScannedKeeps(s, c, h, id, x);
      case EndScan(h) => EndScanKeeps(s, h, x);
      case Finished(task) => FinishedKeeps(s, task, x);
      case CleanStore(id) => CleanStoreKeeps(s, id, x);
      case CleanIndex(id) => CleanIndexKeeps(s, id, x);
    }
  }

  lemma StopKeeps(s: Gate, x: Id)
    requires MessageInv(s, x)
    ensures MessageInv(s.(stopping := true), x)
  {
    assert TraceOf(s.(stopping := true), x) == TraceOf(s, x).(stopping := true);
  }

  predicate Saves(e: Event) {
    e.Arrive? || e.Stored? || e.Indexed? || e.Recheck?
  }

  predicate Leaves(e: Event) {
    e.Unstored? || e.Unindexed? || e.Released? || e.Push?
  }

  predicate Delivers(e: Event) {
    e.ReadIndex? || e.CheckLocks? || e.ReadMessage? || e.PushScanned?
  }

  ghost predicate SameBlocks(s: Gate, s': Gate) {
    s'.blocks == s.blocks && s'.scans.Keys == s.scans.Keys
  }

  lemma SavesKeepsBlocks(s: Gate, c: BT.Chain, e: Event)
    requires Enabled(s, e) && Saves(e)
    ensures SameBlocks(s, Step(s, c, e))
  {
  }

  lemma LeavesKeepsBlocks(s: Gate, c: BT.Chain, e: Event)
    requires Enabled(s, e) && Leaves(e)
    ensures SameBlocks(s, Step(s, c, e))
  {
  }

  lemma DeliversKeepsBlocks(s: Gate, c: BT.Chain, e: Event)
    requires Enabled(s, e) && Delivers(e)
    ensures SameBlocks(s, Step(s, c, e)) && Step(s, c, e).handlers == s.handlers
  {
  }

  lemma OtherStepsKeepBlocks(s: Gate, c: BT.Chain, e: Event)
    requires Enabled(s, e) && !e.Block? && !e.EndScan?
    ensures SameBlocks(s, Step(s, c, e))
  {
    if Saves(e) {
      SavesKeepsBlocks(s, c, e);
    } else if Leaves(e) {
      LeavesKeepsBlocks(s, c, e);
    } else if Delivers(e) {
      DeliversKeepsBlocks(s, c, e);
    }
  }

  lemma StepKeepsBlocks(s: Gate, c: BT.Chain, e: Event)
    requires BT.Sound(c) && BT.Inv(s.blocks, c) && Enabled(s, e) && (e.EndScan? ==> e.height in s.blocks.inFlight)
    ensures BT.Inv(Step(s, c, e).blocks, c)
  {
    hide BT.Inv, BT.Sound;
    if e.Block? {
      BT.NewBlockInv(s.blocks, c, e.height);
      assert Step(s, c, e).blocks == BT.NewBlock(s.blocks, e.height, c.appHash(e.height));
    } else if e.EndScan? {
      BT.FinishInv(s.blocks, c, e.height);
      assert Step(s, c, e).blocks == BT.Finish(s.blocks, e.height);
    } else {
      OtherStepsKeepBlocks(s, c, e);
    }
  }

  lemma BlockKeepsScans(s: Gate, h: nat, hash: string)
    requires s.scans.Keys == s.blocks.inFlight.Keys
    ensures OnBlock(s, h, hash).scans.Keys == OnBlock(s, h, hash).blocks.inFlight.Keys
  {
    BlockParts(s, h, hash);
    hide OnBlock;
  }

  lemma StepKeepsScans(s: Gate, c: BT.Chain, e: Event)
    requires s.scans.Keys == s.blocks.inFlight.Keys && Enabled(s, e)
    ensures Step(s, c, e).scans.Keys == Step(s, c, e).blocks.inFlight.Keys
  {
    if e.Block? {
      BlockKeepsScans(s, e.height, c.appHash(e.height));
    } else if !e.EndScan? {
      OtherStepsKeepBlocks(s, c, e);
    }
  }

  lemma StepInv(s: Gate, c: BT.Chain, e: Event)
    requires BT.Sound(c) && Inv(s, c) && Enabled(s, e)
    ensures Inv(Step(s, c, e), c)
  {
    StepKeepsBlocks(s, c, e);
    StepKeepsScans(s, c, e);
    forall x
      ensures MessageInv(Step(s, c, e), x)
    {
      StepKeepsMessage(s, c, e, x);
    }
  }

  ghost predicate Next(s: Gate, c: BT.Chain, s': Gate) {
    exists e :: Enabled(s, e) && s' == Step(s, c, e)
  }

  ghost predicate IsRun(c: BT.Chain, run: seq<Gate>) {
    && run != [] && IsStart(run[0])
    && forall i | 0 < i < |run| :: Next(run[i-1], c, run[i])
  }

  lemma {:induction false} RunInv(c: BT.Chain, run: seq<Gate>, n: nat)
    requires BT.Sound(c) && IsRun(c, run) && n < |run|
    ensures Inv(run[n], c)
  {
    if n == 0 {
      StartInv(run[0], c);
    } else {
      RunInv(c, run, n - 1);
      assert Next(run[n-1], c, run[n]);
      var e :| Enabled(run[n-1], e) && run[n] == Step(run[n-1], c, e);
      StepInv(run[n-1], c, e);
    }
  }

  // ---------------------------------------------------------- main results

  /** In no reachable state has a message reached the queue twice, before the
      chain was past its height, or with anything but its own contents. */
  lemma AtMostOnceNeverEarly(c: BT.Chain, run: seq<Gate>, n: nat, id: Id)
    requires BT.Sound(c) && IsRun(c, run) && n < |run|
    ensures var s, tries := run[n], Attempts(run[n].log, id);
            && |tries| <= 1
            && (tries != [] ==>
              && id in s.handlers
              && tries[0].task.message == s.handlers[id].message
              && Above(s.blocks, s.handlers[id].message.height)
              && (tries[0].accepted || s.stopping))
  {
    RunInv(c, run, n);
    assert MessageInv(run[n], id);
  }

  /** Nothing of the gate is under way: no handler between its steps, no scan open. */
  predicate Quiet(s: Gate) {
    && s.scans == map[]
    && forall id :: id in s.handlers ==> s.handlers[id].pc.Parked? || s.handlers[id].pc.HandedOver?
  }

  /** Once everything drains, a message whose height has passed has reached the
      queue exactly once, unless it was parked and no scan covers its height. */
  lemma ExactlyOnceIff(s: Gate, c: BT.Chain, id: Id)
    requires Inv(s, c) && Quiet(s) && id in s.handlers
    ensures |Attempts(s.log, id)| == 1 <==>
            s.handlers[id].pc.HandedOver? || Owner(s.blocks, s.handlers[id].message.height).Some?
    ensures |Attempts(s.log, id)| != 1 ==> Attempts(s.log, id) == [] && id in s.store
  {
    assert MessageInv(s, id);
    if !s.handlers[id].pc.HandedOver? {
      assert TraceOf(s, id).role == if Owner(s.blocks, s.handlers[id].message.height).Some? then Over else Unowned;
    }
  }

  // ------------------------------------------------------- draining ends

  /** Steps the gate takes by itself, towards the queue. */
  predicate Internal(e: Event) {
    !e.Arrive? && !e.Block? && !e.Stop? && !e.Finished? && !e.CleanStore? && !e.CleanIndex?
  }

  function PcRank(pc: Pc): nat {
    match pc
    case Saving(a, b) => 6 + (if a then 0 else 1) + (if b then 0 else 1)
    case Removing(a, b) => 3 + (if a then 1 else 0) + (if b then 1 else 0)
    case Enqueueing => 2
    case HandedOver => 1
    case Parked => 1
  }

  function ScanRank(scan: Scan, messages: nat): nat {
    match scan
    case Fetching => 3 * messages + 3
    case IndexRead(ids) => 3 * |ids| + 2
    case Delivering(toRead, toPush) => 2 * |toRead| + |toPush| + 1
  }

  ghost function HandlerRanks(s: Gate): map<Id, nat> {
    map id | id in s.handlers :: PcRank(s.handlers[id].pc)
  }

  ghost function ScanRanks(s: Gate): map<nat, nat> {
    map h | h in s.scans :: ScanRank(s.scans[h], |s.handlers|)
  }

  /** An upper bound on the internal steps still to come. */
  ghost function Work(s: Gate): nat {
    Sums.Sum(HandlerRanks(s)) + Sums.Sum(ScanRanks(s))
  }

  lemma PcWork(s: Gate, s': Gate, id: Id)
    requires id in s.handlers && id in s'.handlers && s'.handlers == s.handlers[id := s'.handlers[id]] && s'.scans == s.scans
    requires PcRank(s'.handlers[id].pc) < PcRank(s.handlers[id].pc)
    ensures Work(s') < Work(s)
  {
    Sums.SumUpdate(HandlerRanks(s), id, PcRank(s'.handlers[id].pc));
    assert HandlerRanks(s') == HandlerRanks(s)[id := PcRank(s'.handlers[id].pc)];
    assert s'.handlers.Keys == s.handlers.Keys;
    assert |s'.handlers| == |s'.handlers.Keys| && |s.handlers| == |s.handlers.Keys|;
    assert ScanRanks(s') == ScanRanks(s);
  }

  lemma ScanWork(s: Gate, s': Gate, h: nat)
    requires h in s.scans && h in s'.scans && s'.handlers == s.handlers && s'.scans == s.scans[h := s'.scans[h]]
    requires ScanRank(s'.scans[h], |s.handlers|) < ScanRank(s.scans[h], |s.handlers|)
    ensures Work(s') < Work(s)
  {
    Sums.SumUpdate(ScanRanks(s), h, ScanRank(s'.scans[h], |s.handlers|));
    assert ScanRanks(s') == ScanRanks(s)[h := ScanRank(s'.scans[h], |s.handlers|)];
    assert HandlerRanks(s') == HandlerRanks(s);
  }

  lemma EndScanWork(s: Gate, s': Gate, h: nat)
    requires h in s.scans && s'.handlers == s.handlers && s'.scans == s.scans - {h}
    requires ScanRank(s.scans[h], |s.handlers|) > 0
    ensures Work(s') < Work(s)
  {
    Sums.SumPick(ScanRanks(s), h);
    assert ScanRanks(s') == ScanRanks(s) - {h};
    assert HandlerRanks(s') == HandlerRanks(s);
  }

  lemma ReadIndexWork(s: Gate, c: BT.Chain, h: nat)
    requires Inv(s, c) && Enabled(s, ReadIndex(h))
    ensures Work(OnReadIndex(s, h)) < Work(s)
  {
    var ids := InRange(s, h);
    forall id | id in ids ensures id in s.handlers.Keys { assert MessageInv(s, id); }
    Lists.SubsetSize(ids, s.handlers.Keys);
    assert |s.handlers| == |s.handlers.Keys|;
    ScanWork(s, OnReadIndex(s, h), h);
  }

  lemma CheckLocksWork(s: Gate, h: nat)
    requires Enabled(s, CheckLocks(h))
    ensures Work(OnCheckLocks(s, h)) < Work(s)
  {
    Lists.SubsetSize(s.scans[h].ids - s.lock, s.scans[h].ids);
    ScanWork(s, OnCheckLocks(s, h), h);
  }

  lemma ReadMessageWork(s: Gate, h: nat, id: Id)
    requires Enabled(s, ReadMessage(h, id))
    ensures Work(OnReadMessage(s, h, id)) < Work(s)
  {
    var d := s.scans[h];
    assert |d.toRead - {id}| == |d.toRead| - 1;
    if id in s.store {
      assert d.toPush[id := s.store[id]].Keys == d.toPush.Keys + {id};
    }
    ScanWork(s, OnReadMessage(s, h, id), h);
  }

  lemma PushScannedWork(s: Gate, h: nat, id: Id)
    requires Enabled(s, PushScanned(h, id))
    ensures Work(OnPushScanned(s, h, id)) < Work(s)
  {
    var d := s.scans[h];
    assert d.toPush == (d.toPush - {id})[id := d.toPush[id]];
    ScanWork(s, OnPushScanned(s, h, id), h);
  }

  lemma StoredWork(s: Gate, id: Id)
    requires Enabled(s, Stored(id))
    ensures Work(OnStored(s, id)) < Work(s)
  {
    PcWork(s, OnStored(s, id), id);
  }

  lemma IndexedWork(s: Gate, id: Id)
    requires Enabled(s, Indexed(id))
    ensures Work(OnIndexed(s, id)) < Work(s)
  {
    PcWork(s, OnIndexed(s, id), id);
  }

  lemma RecheckWork(s: Gate, id: Id)
    requires Enabled(s, Recheck(id))
    ensures Work(OnRecheck(s, id)) < Work(s)
  {
    PcWork(s, OnRecheck(s, id), id);
  }

  lemma UnstoredWork(s: Gate, id: Id)
    requires Enabled(s, Unstored(id))
    ensures Work(OnUnstored(s, id)) < Work(s)
  {
    PcWork(s, OnUnstored(s, id), id);
  }

  lemma UnindexedWork(s: Gate, id: Id)
    requires Enabled(s, Unindexed(id))
    ensures Work(OnUnindexed(s, id)) < Work(s)
  {
    PcWork(s, OnUnindexed(s, id), id);
  }

  lemma ReleasedWork(s: Gate, id: Id)
    requires Enabled(s, Released(id))
    ensures Work(OnReleased(s, id)) < Work(s)
  {
    PcWork(s, OnReleased(s, id), id);
  }

  lemma PushWork(s: Gate, id: Id)
    requires Enabled(s, Push(id))
    ensures Work(OnPush(s, id)) < Work(s)
  {
    PcWork(s, OnPush(s, id), id);
  }

  lemma InternalStepDecreases(s: Gate, c: BT.Chain, e: Event)
    requires Inv(s, c) && Enabled(s, e) && Internal(e)
    ensures Work(Step(s, c, e)) < Work(s)
  {
    match e {
      case ReadIndex(h) => ReadIndexWork(s, c, h);
      case CheckLocks(h) => CheckLocksWork(s, h);
      case ReadMessage(h, id) => ReadMessageWork(s, h, id);
      case PushScanned(h, id) => PushScannedWork(s, h, id);
      case EndScan(h) => EndScanWork(s, Step(s, c, e), h);
      case Stored(id) => StoredWork(s, id);
      case Indexed(id) => IndexedWork(s, id);
      case Recheck(id) => RecheckWork(s, id);
      case Unstored(id) => UnstoredWork(s, id);
      case Unindexed(id) => UnindexedWork(s, id);
      case Released(id) => ReleasedWork(s, id);
      case Push(id) => PushWork(s, id);
    }
  }

  function NextOfScan(h: nat, scan: Scan): Event {
    match scan
    case Fetching => ReadIndex(h)
    case IndexRead(_) => CheckLocks(h)
    case Delivering(_, _) => EndScan(h)
  }

  lemma ScanCanStep(s: Gate, h: nat)
    requires h in s.scans && h in s.blocks.inFlight
    ensures exists e :: Internal(e) && Enabled(s, e)
  {
    var scan := s.scans[h];
    if scan.Delivering? && scan.toRead != {} {
      var id :| id in scan.toRead;
      assert Enabled(s, ReadMessage(h, id));
    } else if scan.Delivering? && scan.toPush != map[] {
      var id :| id in scan.toPush;
      assert Enabled(s, PushScanned(h, id));
    } else {
      assert Enabled(s, NextOfScan(h, scan));
    }
  }

  function NextOfHandler(id: Id, pc: Pc): Event {
    match pc
    case Saving(a, b) => if !a then Stored(id) else if !b then Indexed(id) else Recheck(id)
    case Removing(a, b) => if a then Unstored(id) else if b then Unindexed(id) else Released(id)
    case _ => Push(id)
  }

  /** A gate that is not quiet can take a step by itself. */
  lemma NotQuietCanStep(s: Gate, c: BT.Chain)
    requires Inv(s, c) && !Quiet(s)
    ensures exists e :: Internal(e) && Enabled(s, e)
  {
    if s.scans != map[] {
      var h :| h in s.scans;
      ScanCanStep(s, h);
    } else {
      var id :| id in s.handlers && !s.handlers[id].pc.Parked? && !s.handlers[id].pc.HandedOver?;
      assert Enabled(s, NextOfHandler(id, s.handlers[id].pc));
    }
  }

  ghost predicate InternalNext(s: Gate, c: BT.Chain, s': Gate) {
    exists e :: Internal(e) && Enabled(s, e) && s' == Step(s, c, e)
  }

  lemma InternalStep(s: Gate, c: BT.Chain, s': Gate)
    requires BT.Sound(c) && Inv(s, c) && InternalNext(s, c, s')
    ensures Inv(s', c) && Work(s') < Work(s)
  {
    hide Inv, Work;
    var e :| Internal(e) && Enabled(s, e) && s' == Step(s, c, e);
    StepInv(s, c, e);
    InternalStepDecreases(s, c, e);
  }

  lemma StuckIsQuiet(s: Gate, c: BT.Chain)
    requires Inv(s, c) && forall s' :: !InternalNext(s, c, s')
    ensures Quiet(s)
  {
    if !Quiet(s) {
      NotQuietCanStep(s, c);
      var e :| Internal(e) && Enabled(s, e);
      assert InternalNext(s, c, Step(s, c, e));
    }
  }

  /** Draining ends: left to itself the gate takes at most Work more steps, and
      where no further step is possible it is quiet. */
  lemma {:induction false} DrainIsBounded(c: BT.Chain, run: seq<Gate>)
    requires BT.Sound(c) && run != [] && Inv(run[0], c)
    requires forall i | 0 < i < |run| :: InternalNext(run[i-1], c, run[i])
    ensures var last := run[|run|-1];
            && Inv(last, c) && |run| - 1 + Work(last) <= Work(run[0])
            && ((forall s' :: !InternalNext(last, c, s')) ==> Quiet(last))
  {
    hide Inv, Work, InternalNext, Quiet;
    var n := |run| - 1;
    if n > 0 {
      DrainIsBounded(c, run[..n]);
      InternalStep(run[n-1], c, run[n]);
    }
    if forall s' :: !InternalNext(run[n], c, s') {
      StuckIsQuiet(run[n], c);
    }
  }

  // ------------------------------------------------ the code as it is run

  /** The stretches of request_process_manager.js between two awaits. Each one
      moves the whole state exactly as the step of the same name. */
  class RequestProcessManager {
    const tendermint: BT.TendermintBlocks
    var messageProcessLock: set<Id>
    var messageFromMQ: map<Id, Message>
    var messageIdToProcessAtBlock: map<Id, nat>
    var handlers: map<Id, Handler>
    var scans: map<nat, Scan>
    var stopping: bool
    ghost var unfinished: multiset<Task>
    ghost var staleStore: set<Id>
    ghost var staleIndex: set<Id>
    ghost var log: seq<Attempt>

    ghost function View(): Gate
      reads this, tendermint
    {
      Gate(tendermint.View(), messageProcessLock, messageFromMQ, messageIdToProcessAtBlock, handlers, scans,
        unfinished, staleStore, staleIndex, stopping, log)
    }

    constructor (tendermint: BT.TendermintBlocks)
      ensures this.tendermint == tendermint
      ensures View() == Start(None).(blocks := tendermint.View())
    {
      this.tendermint := tendermint;
      messageProcessLock, messageFromMQ, messageIdToProcessAtBlock := {}, map[], map[];
      handlers, scans, stopping := map[], map[], false;
      unfinished, staleStore, staleIndex, log := multiset{}, {}, {}, [];
    }

    /** handleMessageFromMqWithBlockWait up to its first await. */
    method HandleMessage(messageId: Id, message: Message)
      requires messageId !in handlers
      modifies this
      ensures View() == OnArrive(old(View()), messageId, message)
    {
      var latestBlockHeight := tendermint.latestBlockHeight;
      if latestBlockHeight.None? || latestBlockHeight.value <= message.height {
        messageProcessLock := messageProcessLock + {messageId};
        handlers := handlers[messageId := Handler(message, Saving(false, false))];
      } else {
        handlers := handlers[messageId := Handler(message, Enqueueing)];
      }
    }

    /** After both cache writes; wait tells that false is returned. */
    method HandleMessageSaved(messageId: Id) returns (wait: bool)
      requires PcIs(View(), messageId, Saving(true, true))
      modifies this
      ensures View() == OnRecheck(old(View()), messageId)
      ensures wait <==> handlers[messageId].pc == Parked
    {
      var message := handlers[messageId].message;
      var latestBlockHeight := tendermint.latestBlockHeight;
      if latestBlockHeight.None? || latestBlockHeight.value <= message.height {
        messageProcessLock := messageProcessLock - {messageId};
        handlers := handlers[messageId := Handler(message, Parked)];
        wait := true;
      } else {
        handlers := handlers[messageId := Handler(message, Removing(true, true))];
        wait := false;
      }
    }

    /** The end of addTaskToQueue, for a message passed on by its handler. */
    method AddMqMessageTaskToQueue(messageId: Id)
      requires PcIs(View(), messageId, Enqueueing)
      modifies this
      ensures View() == OnPush(old(View()), messageId)
    {
      var message := handlers[messageId].message;
      ghost var task := Task(messageId, message, false);
      handlers := handlers[messageId := Handler(message, HandedOver)];
      log := log + [Attempt(task, !stopping)];
      if stopping {
        return;
      }
      unfinished := unfinished + multiset{task};
    }

    /** The index reply has arrived: every lock is checked before any message is read. */
    method ProcessMessageInBlocks(height: nat)
      requires height in scans && scans[height].IndexRead?
      modifies this
      ensures View() == OnCheckLocks(old(View()), height)
    {
      var messageIds, toRead := scans[height].ids, {};
      while messageIds != {}
        invariant unchanged(this)
        invariant toRead == (scans[height].ids - messageIds) - messageProcessLock
        invariant messageIds <= scans[height].ids
        decreases |messageIds|
      {
        var messageId :| messageId in messageIds;
        if messageId !in messageProcessLock {
          toRead := toRead + {messageId};
        }
        messageIds := messageIds - {messageId};
      }
      assert toRead == scans[height].ids - messageProcessLock;
      scans := scans[height := Delivering(toRead, map[])];
    }

    /** onCallbackFinished of a task: releaseLock or releaseLockAndCleanUp. */
    method TaskFinished(ghost task: Task, messageId: Id, viaScan: bool)
      requires task in unfinished && task.id == messageId && task.viaScan == viaScan
      modifies this
      ensures View() == OnFinished(old(View()), task)
    {
      messageProcessLock := messageProcessLock - {messageId};
      unfinished := unfinished - multiset{task};
      if viaScan {
        staleStore := staleStore + {messageId};
        staleIndex := staleIndex + {messageId};
      }
    }
  }
}
