/** What whole runs of the gate deliver, from any start: exactly when a message is
    queued, and what a restart makes of the messages left parked. */
module Delivery {
  import opened Wrappers
  import BT = BlockTracker
  import opened BlockGate

  // ------------------------------------------------------ the deciding look

  /** The handler of id stops waiting for its own writes: it passes the message on or
      parks it. */
  predicate Decided(s: Gate, id: Id) {
    id in s.handlers && !s.handlers[id].pc.Saving?
  }

  predicate IsParked(s: Gate, id: Id) {
    PcIs(s, id, Parked)
  }

  /** The step on which the handler looks at the chain head for the last time. */
  predicate Decides(s: Gate, s': Gate, id: Id) {
    Decided(s', id) && !Decided(s, id)
  }

  /** The head of the chain was known when the handler of id took its last look. */
  ghost predicate KnewHead(run: seq<Gate>, n: nat, id: Id)
    requires n < |run|
  {
    exists i :: 0 <= i < n && Decides(run[i], run[i+1], id) && run[i].blocks.latest.Some?
  }

  /** What one step may do to the handler of id. */
  ghost predicate Looks(s: Gate, s': Gate, id: Id) {
    && (id in s.handlers ==> id in s'.handlers && s'.handlers[id].message == s.handlers[id].message)
    && (Decided(s, id) ==> Decided(s', id) && (IsParked(s', id) <==> IsParked(s, id)))
    && (Decides(s, s', id) ==>
         (IsParked(s', id) <==> BT.AtOrBelow(s.blocks.latest, s'.handlers[id].message.height)))
  }

  lemma WritesLooks(s: Gate, c: BT.Chain, e: Event, id: Id)
    requires Enabled(s, e) && Saves(e) && !e.Recheck?
    ensures Looks(s, Step(s, c, e), id)
  {
  }

  lemma RecheckLooks(s: Gate, x: Id, id: Id)
    requires Enabled(s, Recheck(x))
    ensures Looks(s, OnRecheck(s, x), id)
  {
  }

  lemma LeavesLooks(s: Gate, c: BT.Chain, e: Event, id: Id)
    requires Enabled(s, e) && Leaves(e)
    ensures Looks(s, Step(s, c, e), id)
  {
  }

  lemma StepLooks(s: Gate, c: BT.Chain, e: Event, id: Id)
    requires Enabled(s, e)
    ensures Looks(s, Step(s, c, e), id)
  {
    if e.Recheck? {
      RecheckLooks(s, e.id, id);
    } else if Saves(e) {
      WritesLooks(s, c, e, id);
    } else if Leaves(e) {
      LeavesLooks(s, c, e, id);
    } else if Delivers(e) {
      DeliversKeepsBlocks(s, c, e);
    }
  }

  ghost predicate KeepsOrigin(b: BT.Tracker, b': BT.Tracker) {
    && (b.origin.Some? ==> b'.origin == b.origin)
    && (b.latest.Some? ==> b'.latest.Some?)
  }

  lemma StepKeepsOrigin(s: Gate, c: BT.Chain, e: Event)
    requires Enabled(s, e) && BT.Inv(s.blocks, c)
    ensures KeepsOrigin(s.blocks, Step(s, c, e).blocks)
  {
    if !e.Block? && !e.EndScan? {
      OtherStepsKeepBlocks(s, c, e);
    }
  }

  lemma OriginBelowHead(b: BT.Tracker, c: BT.Chain)
    requires BT.Inv(b, c) && b.latest.Some?
    ensures b.origin.Some? && b.origin.value <= b.latest.value
  {
    BT.TilesPartition(b.tiles, b.origin.value, b.latest.value, 0);
  }

  /** A handler that knew the head parks only what lies at or above the first height
      known; a handler that did not, parks whatever it has. */
  ghost predicate LookInv(run: seq<Gate>, n: nat, id: Id)
    requires n < |run|
  {
    var s := run[n];
    if KnewHead(run, n, id) then
      && Decided(s, id) && s.blocks.origin.Some?
      && (IsParked(s, id) ==> s.blocks.origin.value <= s.handlers[id].message.height)
    else Decided(s, id) ==> IsParked(s, id)
  }

  lemma KnewEarlier(run: seq<Gate>, n: nat, id: Id)
    requires 0 < n < |run|
    ensures KnewHead(run, n, id) <==>
              KnewHead(run, n - 1, id) || (Decides(run[n-1], run[n], id) && run[n-1].blocks.latest.Some?)
  {
    if Decides(run[n-1], run[n], id) && run[n-1].blocks.latest.Some? {
      assert 0 <= n - 1 < n && Decides(run[n-1], run[n-1+1], id);
    }
  }

  lemma {:induction false} RunLooks(c: BT.Chain, run: seq<Gate>, n: nat, id: Id)
    requires BT.Sound(c) && IsRun(c, run) && n < |run|
    ensures LookInv(run, n, id)
  {
    if n > 0 {
      RunLooks(c, run, n - 1, id);
      RunInv(c, run, n - 1);
      assert Next(run[n-1], c, run[n]);
      var e :| Enabled(run[n-1], e) && run[n] == Step(run[n-1], c, e);
      StepLooks(run[n-1], c, e, id);
      StepKeepsOrigin(run[n-1], c, e);
      KnewEarlier(run, n, id);
      if run[n-1].blocks.latest.Some? {
        OriginBelowHead(run[n-1].blocks, c);
      }
    }
  }

  // ---------------------------------------------------------- exactly once

  lemma OwnedIff(b: BT.Tracker, c: BT.Chain, height: nat)
    requires BT.Inv(b, c) && c.hasTx(height) && Above(b, height)
    ensures b.origin.Some? && (Owner(b, height).Some? <==> b.origin.value <= height)
  {
    if b.origin.value <= height {
      BT.TxHeightHasOwner(b, c, height);
    } else {
      BT.OwnerOfOutside(b.tiles, b.origin.value, b.latest.value, height);
    }
  }

  /** In every run from any start, when all pending steps have drained, a message whose
      height has passed has been queued exactly once if and only if it lies at or above
      the first height known, or the head was known at its handler's last look.
      Otherwise it has not been queued and stays in the cache. */
  lemma ExactlyOnceIffSeen(c: BT.Chain, run: seq<Gate>, n: nat, id: Id)
    requires BT.Sound(c) && IsRun(c, run) && n < |run| && Quiet(run[n]) && id in run[n].handlers
    requires c.hasTx(run[n].handlers[id].message.height) && Above(run[n].blocks, run[n].handlers[id].message.height)
    ensures run[n].blocks.origin.Some?
    ensures |Attempts(run[n].log, id)| == 1 <==>
              run[n].blocks.origin.value <= run[n].handlers[id].message.height || KnewHead(run, n, id)
    ensures |Attempts(run[n].log, id)| != 1 ==> Attempts(run[n].log, id) == [] && id in run[n].store
  {
    RunInv(c, run, n);
    RunLooks(c, run, n, id);
    OwnedIff(run[n].blocks, c, run[n].handlers[id].message.height);
    hide Inv;
    ExactlyOnceIff(run[n], c, id);
  }

  lemma {:induction false} KnownOrigin(c: BT.Chain, run: seq<Gate>, n: nat)
    requires BT.Sound(c) && IsRun(c, run) && n < |run| && run[0].blocks.latest.Some? && run[0].blocks.origin.Some?
    ensures run[n].blocks.latest.Some? && run[n].blocks.origin == run[0].blocks.origin
  {
    if n > 0 {
      KnownOrigin(c, run, n - 1);
      RunInv(c, run, n - 1);
      assert Next(run[n-1], c, run[n]);
      var e :| Enabled(run[n-1], e) && run[n] == Step(run[n-1], c, e);
      StepKeepsOrigin(run[n-1], c, e);
    }
  }

  /** From a known height the head is always known, and so at every look. */
  lemma {:induction false} KnownHead(c: BT.Chain, run: seq<Gate>, n: nat, id: Id)
    requires BT.Sound(c) && IsRun(c, run) && n < |run| && run[0].blocks.latest.Some? && run[0].blocks.origin.Some?
    ensures Decided(run[0], id) ==>
              Decided(run[n], id) && !KnewHead(run, n, id) && run[n].handlers[id].message == run[0].handlers[id].message
    ensures !Decided(run[0], id) && Decided(run[n], id) ==> KnewHead(run, n, id)
  {
    if n > 0 {
      KnownHead(c, run, n - 1, id);
      KnownOrigin(c, run, n - 1);
      KnewEarlier(run, n, id);
      hide KnewHead;
      assert Next(run[n-1], c, run[n]);
      var e :| Enabled(run[n-1], e) && run[n] == Step(run[n-1], c, e);
      StepLooks(run[n-1], c, e, id);
    }
  }

  /** Exactly-once delivery: in every run from a known height, when all pending steps
      have drained, a message that names a block with a transaction below the chain head
      has been queued exactly once, however old the block is. Of the messages an earlier
      run left parked this is said of those at or above the starting height. */
  lemma ExactlyOnce(c: BT.Chain, run: seq<Gate>, n: nat, id: Id)
    requires BT.Sound(c) && IsRun(c, run) && run[0].blocks.latest.Some?
    requires id in run[0].store ==> run[0].blocks.latest.value <= run[0].store[id].height
    requires n < |run| && Quiet(run[n]) && id in run[n].handlers
    requires c.hasTx(run[n].handlers[id].message.height) && Above(run[n].blocks, run[n].handlers[id].message.height)
    ensures |Attempts(run[n].log, id)| == 1
    ensures Attempts(run[n].log, id)[0].task.message == run[n].handlers[id].message
    ensures !run[n].stopping ==> Attempts(run[n].log, id)[0].accepted
  {
    assert id in run[0].store ==> LeftParked(run[0], id);
    KnownOrigin(c, run, n);
    KnownHead(c, run, n, id);
    ExactlyOnceIffSeen(c, run, n, id);
    AtMostOnceNeverEarly(c, run, n, id);
  }

  /** The first block known launches no scan: a message parked before it stays. */
  lemma FirstBlockScansNothing(s: Gate, c: BT.Chain, id: Id, h: nat)
    requires IsStart(s) && s.blocks.latest.None? && id in s.store && s.store[id].height < h
    ensures var s' := OnBlock(s, h, c.appHash(h));
            Quiet(s') && id in s'.handlers && s'.handlers[id].message == s.store[id] && Above(s'.blocks, s.store[id].height)
            && s'.log == []
  {
    forall x | x in s.handlers ensures s.handlers[x].pc == Parked { assert LeftParked(s, x); }
    assert LeftParked(s, id);
  }

  /** A handler that runs through before any block is known parks its message. */
  lemma ParkedBeforeBlocks(id: Id, m: Message)
    ensures var s1 := OnArrive(Start(None), id, m);
            && Enabled(s1, Stored(id)) && Enabled(OnStored(s1, id), Indexed(id))
            && Enabled(OnIndexed(OnStored(s1, id), id), Recheck(id))
            && var s4 := OnRecheck(OnIndexed(OnStored(s1, id), id), id);
               IsStart(s4) && s4.blocks.latest.None? && id in s4.store && s4.store[id] == m
  {
  }

  lemma GrowingChain() returns (c: BT.Chain)
    ensures BT.Sound(c) && forall k :: c.hasTx(k)
  {
    c := BT.Chain((k: nat) => seq(k, _ => 'a'), (k: nat) => true);
    assert forall a: nat :: |c.appHash(a)| == a;
  }

  lemma HandledBeforeBlocks(c: BT.Chain, id: Id, m: Message) returns (run: seq<Gate>)
    ensures IsRun(c, run) && run[0] == Start(None)
    ensures var s := run[|run|-1]; IsStart(s) && s.blocks.latest.None? && id in s.store && s.store[id] == m
  {
    ParkedBeforeBlocks(id, m);
    hide OnArrive, OnStored, OnIndexed, OnRecheck;
    run := Extend(c, [Start(None)], Arrive(id, m));
    run := Extend(c, run, Stored(id));
    run := Extend(c, run, Indexed(id));
    run := Extend(c, run, Recheck(id));
  }

  /** Without a known height the other case occurs: a message is parked before the
      first block, and no scan will cover it. */
  lemma NullStartCanStrand() returns (c: BT.Chain, run: seq<Gate>)
    ensures BT.Sound(c) && IsRun(c, run) && run[0] == Start(None)
    ensures var s := run[|run|-1];
            && Quiet(s) && "m" in s.handlers && c.hasTx(s.handlers["m"].message.height)
            && Above(s.blocks, s.handlers["m"].message.height) && Attempts(s.log, "m") == []
  {
    c := GrowingChain();
    run := HandledBeforeBlocks(c, "m", Message(3, "", ""));
    FirstBlockScansNothing(run[|run|-1], c, "m", 10);
    run := Extend(c, run, Block(10));
  }

  lemma Extend(c: BT.Chain, run: seq<Gate>, e: Event) returns (run': seq<Gate>)
    requires IsRun(c, run) && Enabled(run[|run|-1], e)
    ensures IsRun(c, run') && run'[0] == run[0] && run'[|run'|-1] == Step(run[|run|-1], c, e)
  {
    run' := run + [Step(run[|run|-1], c, e)];
    assert Next(run[|run|-1], c, Step(run[|run|-1], c, e));
  }

  // ---------------------------------------------------------------- restart

  /** Blocks are handled one at a time. */
  ghost predicate SerialNext(s: Gate, c: BT.Chain, s': Gate) {
    exists e :: Enabled(s, e) && s' == Step(s, c, e) && (e.Block? ==> BT.OneAtATime(s.blocks, BT.Event.Block(e.height)))
  }

  ghost predicate IsSerial(c: BT.Chain, run: seq<Gate>) {
    forall i | 0 < i < |run| :: SerialNext(run[i-1], c, run[i])
  }

  lemma SerialStep(s: Gate, c: BT.Chain, e: Event)
    requires BT.Inv(s.blocks, c) && BT.SerialInv(s.blocks) && Enabled(s, e)
    requires e.Block? ==> BT.OneAtATime(s.blocks, BT.Event.Block(e.height))
    ensures BT.SerialInv(Step(s, c, e).blocks)
  {
    hide BT.Inv, BT.SerialInv, BT.OneAtATime;
    if e.Block? {
      BT.SerialStepInv(s.blocks, c, BT.Event.Block(e.height));
      assert Step(s, c, e).blocks == BT.NewBlock(s.blocks, e.height, c.appHash(e.height));
    } else if e.EndScan? {
      BT.SerialStepInv(s.blocks, c, BT.Event.Done(e.height));
      assert Step(s, c, e).blocks == BT.Finish(s.blocks, e.height);
    } else {
      OtherStepsKeepBlocks(s, c, e);
    }
  }

  lemma {:induction false} SerialRun(c: BT.Chain, run: seq<Gate>, n: nat)
    requires BT.Sound(c) && IsRun(c, run) && IsSerial(c, run) && n < |run|
    ensures BT.SerialInv(run[n].blocks)
  {
    if n > 0 {
      SerialRun(c, run, n - 1);
      RunInv(c, run, n - 1);
      assert SerialNext(run[n-1], c, run[n]);
      var e :| Enabled(run[n-1], e) && run[n] == Step(run[n-1], c, e)
               && (e.Block? ==> BT.OneAtATime(run[n-1].blocks, BT.Event.Block(e.height)));
      SerialStep(run[n-1], c, e);
    }
  }

  /** The scan that owned a parked message's height has ended when the saved height is
      above it. */
  lemma BelowSavedIsQueued(s: Gate, c: BT.Chain, id: Id)
    requires Inv(s, c) && BT.SerialInv(s.blocks) && IsParked(s, id) && c.hasTx(s.handlers[id].message.height)
    requires s.blocks.origin.Some? && s.blocks.saved.Some?
    requires s.blocks.origin.value <= s.handlers[id].message.height < s.blocks.saved.value
    ensures |Attempts(s.log, id)| == 1
  {
    var b, height := s.blocks, s.handlers[id].message.height;
    assert MessageInv(s, id);
    BT.RestartGapFreeIff(b, c);
    assert BT.Processed(b, height);
    var tile :| tile in b.tiles && BT.Holds(tile, height) && (tile.launched ==> tile.to + 1 !in b.inFlight);
    BT.OwnerOfTile(b.tiles, b.origin.value, b.latest.value, height, tile);
    assert TraceOf(s, id).role == Over;
  }

  lemma UnqueuedIsAboveSaved(s: Gate, c: BT.Chain, id: Id)
    requires Inv(s, c) && BT.SerialInv(s.blocks) && IsParked(s, id) && Attempts(s.log, id) == []
    requires c.hasTx(s.handlers[id].message.height)
    requires s.blocks.origin.Some? && s.blocks.origin.value <= s.handlers[id].message.height
    ensures s.blocks.saved.Some? && s.blocks.saved.value <= s.handlers[id].message.height
  {
    if s.blocks.saved.Some? && s.handlers[id].message.height < s.blocks.saved.value {
      BelowSavedIsQueued(s, c, id);
    }
  }

  /** No pair of cache operations is half done: what is cached is parked. */
  predicate Settled(s: Gate) {
    s.store.Keys == s.index.Keys && forall id :: id in s.store ==> IsParked(s, id)
  }

  /** s' starts where s was cut off: from the saved height, with the cache as it was. */
  predicate Restarts(s: Gate, s': Gate) {
    IsStart(s') && s'.blocks.latest == s.blocks.saved && s'.store == s.store
  }

  /** A message found parked at the start is queued exactly when it is not below the
      starting height. */
  lemma FoundParked(c: BT.Chain, run: seq<Gate>, n: nat, id: Id)
    requires BT.Sound(c) && IsRun(c, run) && run[0].blocks.latest.Some? && id in run[0].store
    requires n < |run| && Quiet(run[n])
    requires c.hasTx(run[0].store[id].height) && Above(run[n].blocks, run[0].store[id].height)
    ensures id in run[n].handlers && run[n].handlers[id].message == run[0].store[id]
    ensures |Attempts(run[n].log, id)| == if run[0].blocks.latest.value <= run[0].store[id].height then 1 else 0
  {
    assert LeftParked(run[0], id);
    KnownOrigin(c, run, n);
    KnownHead(c, run, n, id);
    ExactlyOnceIffSeen(c, run, n, id);
  }

  /** A restart in the middle of a run that handles blocks one at a time: of the parked
      messages the second run queues exactly those at or above the saved height, once
      each, and every one that the first run had not queued is among them. */
  lemma AcrossRestart(c: BT.Chain, run: seq<Gate>, n: nat, run': seq<Gate>, k: nat, id: Id)
    requires BT.Sound(c) && IsRun(c, run) && IsSerial(c, run) && n < |run| && Settled(run[n]) && id in run[n].store
    requires KnewHead(run, n, id) ||
             (run[n].blocks.origin.Some? && run[n].blocks.origin.value <= run[n].handlers[id].message.height)
    requires IsRun(c, run') && Restarts(run[n], run'[0]) && k < |run'| && Quiet(run'[k])
    requires c.hasTx(run[n].handlers[id].message.height) && Above(run'[k].blocks, run[n].handlers[id].message.height)
    ensures run[n].blocks.saved.Some? && id in run'[k].handlers && run'[k].handlers[id].message == run[n].handlers[id].message
    ensures |Attempts(run'[k].log, id)| == if run[n].blocks.saved.value <= run[n].handlers[id].message.height then 1 else 0
    ensures Attempts(run[n].log, id) == [] ==> |Attempts(run'[k].log, id)| == 1
  {
    RunInv(c, run, n);
    RunLooks(c, run, n, id);
    SerialRun(c, run, n);
    CachedIsOwn(run[n], c, id);
    hide Inv, IsRun, IsStart;
    if Attempts(run[n].log, id) == [] {
      UnqueuedIsAboveSaved(run[n], c, id);
    }
    FoundParked(c, run', k, id);
  }

  lemma CachedIsOwn(s: Gate, c: BT.Chain, id: Id)
    requires Inv(s, c) && id in s.store
    ensures id in s.handlers && s.store[id] == s.handlers[id].message
    ensures s.blocks.origin.Some? ==> s.blocks.saved.Some?
  {
    assert MessageInv(s, id);
  }

  // -------------------------------------------------- locks and left-overs

  /** A locked message is busy: its handler is at work, or the task it was handed over
      as has not completed or was refused by a server that is stopping. */
  lemma LockedIsBusy(c: BT.Chain, run: seq<Gate>, n: nat, id: Id)
    requires BT.Sound(c) && IsRun(c, run) && n < |run| && id in run[n].lock
    ensures id in run[n].handlers
    ensures match run[n].handlers[id].pc
            case Parked => false
            case HandedOver => run[n].stopping || exists task :: task in run[n].unfinished && task.id == id
            case _ => true
  {
    RunInv(c, run, n);
    assert MessageInv(run[n], id);
    if run[n].handlers[id].pc.HandedOver? && !run[n].stopping {
      var open := OpenTasks(run[n].unfinished, id);
      assert TraceOf(run[n], id).open == open != {};
      var task :| task in open;
    }
  }

  /** A message that has reached the queue and whose task has completed is in the cache
      only while its removal is under way. */
  lemma QueuedIsRemoved(c: BT.Chain, run: seq<Gate>, n: nat, id: Id)
    requires BT.Sound(c) && IsRun(c, run) && n < |run|
    requires Attempts(run[n].log, id) != [] && Attempts(run[n].log, id)[0].accepted
    requires forall task :: task in run[n].unfinished ==> task.id != id
    ensures id in run[n].store ==> id in run[n].staleStore
    ensures id in run[n].index ==> id in run[n].staleIndex
  {
    RunInv(c, run, n);
    assert MessageInv(run[n], id);
    assert OpenTasks(run[n].unfinished, id) == {};
  }

  /** Nothing is left behind: once a server that is not stopping has completed its tasks
      and their removals, a message that was queued is neither locked nor in the cache. */
  lemma NothingLeftBehind(c: BT.Chain, run: seq<Gate>, n: nat, id: Id)
    requires BT.Sound(c) && IsRun(c, run) && n < |run| && Quiet(run[n]) && !run[n].stopping
    requires run[n].unfinished == multiset{} && run[n].staleStore == {} && run[n].staleIndex == {}
    requires Attempts(run[n].log, id) != []
    ensures id !in run[n].lock && id !in run[n].store && id !in run[n].index
  {
    AtMostOnceNeverEarly(c, run, n, id);
    QueuedIsRemoved(c, run, n, id);
    if id in run[n].lock {
      LockedIsBusy(c, run, n, id);
    }
  }

  /** Completions and removals come to an end. */
  function Leftovers(s: Gate): nat {
    3 * |s.unfinished| + |s.staleStore| + |s.staleIndex|
  }

  lemma CleaningShrinks(s: Gate, c: BT.Chain, e: Event)
    requires Enabled(s, e) && (e.Finished? || e.CleanStore? || e.CleanIndex?)
    ensures Leftovers(Step(s, c, e)) < Leftovers(s)
  {
    match e {
      case Finished(task) =>
        assert |s.unfinished - multiset{task}| == |s.unfinished| - 1;
        assert |s.staleStore + {task.id}| <= |s.staleStore| + 1 && |s.staleIndex + {task.id}| <= |s.staleIndex| + 1;
      case CleanStore(id) => assert |s.staleStore - {id}| == |s.staleStore| - 1;
      case CleanIndex(id) => assert |s.staleIndex - {id}| == |s.staleIndex| - 1;
    }
  }

  /** On its way to the queue without ever having waited. */
  ghost predicate PassesAtOnce(s: Gate, id: Id) {
    id in s.handlers && (s.handlers[id].pc.Enqueueing? || s.handlers[id].pc.HandedOver?) && id !in s.lock
  }

  lemma SavesPassesAtOnce(s: Gate, c: BT.Chain, e: Event, id: Id)
    requires Enabled(s, e) && Saves(e) && PassesAtOnce(s, id)
    ensures PassesAtOnce(Step(s, c, e), id)
  {
  }

  lemma LeavesPassesAtOnce(s: Gate, c: BT.Chain, e: Event, id: Id)
    requires Enabled(s, e) && Leaves(e) && PassesAtOnce(s, id)
    ensures PassesAtOnce(Step(s, c, e), id)
  {
  }

  lemma DeliversPassesAtOnce(s: Gate, c: BT.Chain, e: Event, id: Id)
    requires Enabled(s, e) && Delivers(e) && PassesAtOnce(s, id)
    ensures PassesAtOnce(Step(s, c, e), id)
  {
  }

  lemma StepPassesAtOnce(s: Gate, c: BT.Chain, e: Event, id: Id)
    requires Enabled(s, e) && PassesAtOnce(s, id)
    ensures PassesAtOnce(Step(s, c, e), id)
  {
    if Saves(e) {
      SavesPassesAtOnce(s, c, e, id);
    } else if Leaves(e) {
      LeavesPassesAtOnce(s, c, e, id);
    } else if Delivers(e) {
      DeliversPassesAtOnce(s, c, e, id);
    }
  }

  /** The step on which a message arrives whose height has passed. */
  ghost predicate ArrivesLate(s: Gate, c: BT.Chain, s': Gate, id: Id) {
    exists m :: Enabled(s, Arrive(id, m)) && s' == Step(s, c, Arrive(id, m)) && Above(s.blocks, m.height)
  }

  lemma ArrivesPassing(s: Gate, c: BT.Chain, s': Gate, id: Id)
    requires Inv(s, c) && ArrivesLate(s, c, s', id)
    ensures PassesAtOnce(s', id)
  {
    assert MessageInv(s, id);
  }

  lemma NextPassesAtOnce(s: Gate, c: BT.Chain, s': Gate, id: Id)
    requires Next(s, c, s') && PassesAtOnce(s, id)
    ensures PassesAtOnce(s', id)
  {
    hide PassesAtOnce;
    var e :| Enabled(s, e) && s' == Step(s, c, e);
    StepPassesAtOnce(s, c, e, id);
  }

  lemma PassingIsNotCached(s: Gate, c: BT.Chain, id: Id)
    requires Inv(s, c) && PassesAtOnce(s, id)
    ensures id !in s.lock && id !in s.store && id !in s.index
  {
    assert MessageInv(s, id);
  }

  /** A message whose height has passed when it arrives is never locked and never
      written to the cache. */
  lemma {:induction false} LateIsNeverCached(c: BT.Chain, run: seq<Gate>, i: nat, n: nat, id: Id)
    requires BT.Sound(c) && IsRun(c, run) && i < n < |run| && ArrivesLate(run[i], c, run[i+1], id)
    ensures PassesAtOnce(run[n], id)
    ensures id !in run[n].lock && id !in run[n].store && id !in run[n].index
  {
    hide Inv, PassesAtOnce, IsStart, BT.Sound, ArrivesLate, Next;
    if n == i + 1 {
      RunInv(c, run, i);
      ArrivesPassing(run[i], c, run[n], id);
    } else {
      LateIsNeverCached(c, run, i, n - 1, id);
      NextPassesAtOnce(run[n-1], c, run[n], id);
    }
    RunInv(c, run, n);
    PassingIsNotCached(run[n], c, id);
  }

  /** A message that was taken back from the cache, locked until its task completes. */
  ghost predicate TakenBack(s: Gate, id: Id) {
    && id in s.lock && id in s.handlers
    && (s.handlers[id].pc.Removing? || s.handlers[id].pc.Enqueueing? || s.handlers[id].pc.HandedOver?)
  }

  ghost predicate NextUnfinished(s: Gate, c: BT.Chain, s': Gate, id: Id) {
    exists e :: Enabled(s, e) && s' == Step(s, c, e) && !(e.Finished? && e.task.id == id)
  }

  lemma SavesTakenBack(s: Gate, c: BT.Chain, e: Event, id: Id)
    requires Enabled(s, e) && Saves(e) && TakenBack(s, id)
    ensures TakenBack(Step(s, c, e), id)
  {
  }

  lemma LeavesTakenBack(s: Gate, c: BT.Chain, e: Event, id: Id)
    requires Enabled(s, e) && Leaves(e) && TakenBack(s, id)
    ensures TakenBack(Step(s, c, e), id)
  {
  }

  lemma DeliversTakenBack(s: Gate, c: BT.Chain, e: Event, id: Id)
    requires Enabled(s, e) && Delivers(e) && TakenBack(s, id)
    ensures TakenBack(Step(s, c, e), id)
  {
  }

  lemma NextTakenBack(s: Gate, c: BT.Chain, s': Gate, id: Id)
    requires TakenBack(s, id) && NextUnfinished(s, c, s', id)
    ensures TakenBack(s', id)
  {
    var e :| Enabled(s, e) && s' == Step(s, c, e) && !(e.Finished? && e.task.id == id);
    if Saves(e) {
      SavesTakenBack(s, c, e, id);
    } else if Leaves(e) {
      LeavesTakenBack(s, c, e, id);
    } else if Delivers(e) {
      DeliversTakenBack(s, c, e, id);
    }
  }

  /** The lock of a message taken back is held until its own task completes. */
  lemma {:induction false} LockedUntilFinished(c: BT.Chain, run: seq<Gate>, i: nat, n: nat, id: Id)
    requires i <= n < |run| && TakenBack(run[i], id)
    requires forall j | i < j <= n :: NextUnfinished(run[j-1], c, run[j], id)
    ensures id in run[n].lock && TakenBack(run[n], id)
    decreases n
  {
    hide NextUnfinished;
    if i < n {
      LockedUntilFinished(c, run, i, n - 1, id);
      NextTakenBack(run[n-1], c, run[n], id);
    }
  }

  /** The second look that passes a message on begins this. */
  lemma RecheckTakesBack(c: BT.Chain, run: seq<Gate>, n: nat, id: Id)
    requires BT.Sound(c) && IsRun(c, run) && n < |run| && Enabled(run[n], Recheck(id))
    requires Above(run[n].blocks, run[n].handlers[id].message.height)
    ensures TakenBack(Step(run[n], c, Recheck(id)), id)
  {
    RunInv(c, run, n);
    assert MessageInv(run[n], id);
  }
}
