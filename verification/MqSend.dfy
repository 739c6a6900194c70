/** The send controller, mq_module/mq_send_controller.js: synchronous events tie the
    retry logic to the socket pool. */
module MqSend {
  import opened Wrappers
  import ML = MqLogic
  import PS = MqSendSocket

  datatype Sender = Sender(
    logic: ML.Logic,
    pool: PS.Pool,
    callbacks: set<ML.MsgId>,    // callbacksAfterAck
    // history
    called: seq<ML.MsgId>,       // callbacks run
    asked: map<ML.MsgId, set<ML.Packet>>)  // what each message was handed to send with

  /** newId is the id a socket opened by the step would get. */
  datatype Event =
    | SendMessage(now: int, dest: PS.Dest, payload: ML.Payload, msgId: ML.MsgId, withCallback: bool, newId: PS.SocketId)
    | TimerFires(now: int, seqId: ML.SeqId, newId: PS.SocketId)
    | Ack(msgId: ML.MsgId)
    | Cancel(msgId: ML.MsgId)

  predicate Enabled(s: Sender, e: Event) {
    match e
    case SendMessage(_, _, _, _, _, newId) => newId !in s.pool.usedBy
    case TimerFires(_, q, newId) => s.logic.timeout > 0 && q in s.logic.timers && newId !in s.pool.usedBy
    case _ => true
  }

  ghost predicate Inv(s: Sender) {
    ML.Inv(s.logic) && PS.Inv(s.pool) && s.logic.entries == s.pool.msgOf
  }

  function AskedFor(asked: map<ML.MsgId, set<ML.Packet>>, m: ML.MsgId): set<ML.Packet> {
    if m in asked then asked[m] else {}
  }

  /** send: the first copy, with the next sequence id. */
  ghost function OnSend(s: Sender, now: int, dest: PS.Dest, payload: ML.Payload, m: ML.MsgId, withCallback: bool,
                        newId: PS.SocketId): Sender
  {
    Sender(
      ML.PerformSend(s.logic, now, dest, payload, m, 0),
      PS.Send(s.pool, dest, payload, m, s.logic.maxSeqId + 1, newId),
      if withCallback then s.callbacks + {m} else s.callbacks,
      s.called,
      s.asked[m := AskedFor(s.asked, m) + {ML.Packet(dest, payload)}])
  }

  /** cleanUp of the logic: PerformCleanUp reaches the pool once for each copy. */
  ghost function CleanUp(s: Sender, msgId: ML.MsgId): Sender {
    Sender(ML.CleanUp(s.logic, msgId), PS.CleanUp(s.pool, msgId), s.callbacks, s.called, s.asked)
  }

  ghost function OnTimer(s: Sender, now: int, q: ML.SeqId, newId: PS.SocketId): Sender
    requires s.logic.timeout > 0 && q in s.logic.timers
  {
    var t := s.logic.timers[q];
    Sender(
      ML.Fire(s.logic, now, q),
      if ML.Expires(s.logic, q) then PS.CleanUp(s.pool, t.msgId)
      else PS.Send(s.pool, t.dest, t.payload, t.msgId, s.logic.maxSeqId + 1, newId),
      s.callbacks,
      s.called,
      s.asked)
  }

  ghost function Step(s: Sender, e: Event): Sender
    requires Enabled(s, e)
  {
    match e
    case SendMessage(now, dest, payload, m, withCallback, newId) =>
      OnSend(s, now, dest, payload, m, withCallback, newId)
    case TimerFires(now, q, newId) => OnTimer(s, now, q, newId)
    case Ack(m) =>
      CleanUp(s, m).(callbacks := s.callbacks - {m}, called := if m in s.callbacks then s.called + [m] else s.called)
    case Cancel(m) => CleanUp(s, m)
  }

  ghost function Start(timeout: nat, totalTimeout: int, max: nat): Sender {
    Sender(ML.Logic(timeout, totalTimeout, 0, map[], map[], map[], map[], map[]), PS.Fresh(max), {}, [], map[])
  }

  lemma StartInv(timeout: nat, totalTimeout: int, max: nat)
    requires timeout > 0 && max > 0
    ensures Inv(Start(timeout, totalTimeout, max))
  {
    PS.FreshInv(max);
  }

  lemma CopyInv(logic: ML.Logic, pool: PS.Pool, dest: PS.Dest, payload: PS.Payload, m: ML.MsgId, newId: PS.SocketId)
    requires ML.Inv(logic) && PS.Inv(pool) && logic.entries == pool.msgOf && newId !in pool.usedBy
    ensures var q := logic.maxSeqId + 1; q !in pool.socketMap && PS.Inv(PS.Send(pool, dest, payload, m, q, newId))
    ensures PS.Send(pool, dest, payload, m, logic.maxSeqId + 1, newId).msgOf == logic.entries[logic.maxSeqId + 1 := m]
  {
    assert logic.maxSeqId + 1 !in logic.entries;
    PS.SendInv(pool, dest, payload, m, logic.maxSeqId + 1, newId);
  }

  lemma CleanUpInv(s: Sender, m: ML.MsgId)
    requires Inv(s)
    ensures Inv(CleanUp(s, m))
  {
    hide PS.CleanUp, PS.Inv;
    ML.CleanUpInv(s.logic, m);
    PS.CleanUpInv(s.pool, m);
    PS.CleanUpRemoves(s.pool, m);
  }

  lemma ExpiryInv(s: Sender, now: int, q: ML.SeqId, newId: PS.SocketId)
    requires Inv(s) && q in s.logic.timers && ML.Expires(s.logic, q)
    ensures Inv(OnTimer(s, now, q, newId))
  {
    hide PS.CleanUp, PS.Inv;
    var m := s.logic.timers[q].msgId;
    ML.FireInv(s.logic, now, q);
    PS.CleanUpInv(s.pool, m);
    PS.CleanUpRemoves(s.pool, m);
  }

  lemma ResendInv(s: Sender, now: int, q: ML.SeqId, newId: PS.SocketId)
    requires Inv(s) && q in s.logic.timers && newId !in s.pool.usedBy && !ML.Expires(s.logic, q)
    ensures Inv(OnTimer(s, now, q, newId))
  {
    hide PS.Send, PS.Inv;
    ML.FireInv(s.logic, now, q);
    CopyInv(s.logic, s.pool, s.logic.timers[q].dest, s.logic.timers[q].payload, s.logic.timers[q].msgId, newId);
  }

  lemma SendMessageInv(s: Sender, now: int, dest: PS.Dest, payload: ML.Payload, m: ML.MsgId, withCallback: bool,
                       newId: PS.SocketId)
    requires Inv(s) && newId !in s.pool.usedBy
    ensures Inv(OnSend(s, now, dest, payload, m, withCallback, newId))
  {
    hide PS.Send, PS.Inv;
    ML.PerformSendInv(s.logic, now, dest, payload, m, 0);
    CopyInv(s.logic, s.pool, dest, payload, m, newId);
  }

  lemma StepInv(s: Sender, e: Event)
    requires Inv(s) && Enabled(s, e)
    ensures Inv(Step(s, e))
  {
    if e.SendMessage? {
      SendMessageInv(s, e.now, e.dest, e.payload, e.msgId, e.withCallback, e.newId);
    } else if e.TimerFires? {
      if ML.Expires(s.logic, e.seqId) {
        ExpiryInv(s, e.now, e.seqId, e.newId);
      } else {
        ResendInv(s, e.now, e.seqId, e.newId);
      }
    } else {
      CleanUpInv(s, e.msgId);
    }
  }

  // ------------------------------------------------------------------ runs

  ghost predicate Next(s: Sender, s': Sender) {
    exists e :: Enabled(s, e) && s' == Step(s, e)
  }

  ghost predicate IsRun(run: seq<Sender>) {
    && run != []
    && (exists timeout: nat, total: int, max: nat :: timeout > 0 && max > 0 && run[0] == Start(timeout, total, max))
    && forall i | 0 < i < |run| :: Next(run[i-1], run[i])
  }

  lemma {:induction false} RunInv(run: seq<Sender>, n: nat)
    requires IsRun(run) && n < |run|
    ensures Inv(run[n])
  {
    if n == 0 {
      var timeout: nat, total: int, max: nat :| timeout > 0 && max > 0 && run[0] == Start(timeout, total, max);
      StartInv(timeout, total, max);
    } else {
      RunInv(run, n - 1);
      assert Next(run[n-1], run[n]);
      var e :| Enabled(run[n-1], e) && run[n] == Step(run[n-1], e);
      StepInv(run[n-1], e);
    }
  }

  /** After any sequence of sends, timers, ACKs and cancels, the retry table and the
      socket tables know the same copies, grouped by message in the same way. */
  lemma TablesAgree(run: seq<Sender>, n: nat)
    requires IsRun(run) && n < |run|
    ensures run[n].logic.entries.Keys == run[n].pool.socketMap.Keys
    ensures forall m, q :: q in PS.At(run[n].pool.seqIdList, m) <==>
              q in run[n].logic.entries && run[n].logic.entries[q] == m
    ensures PS.TablesInv(run[n].pool)
  {
    RunInv(run, n);
  }

  /** Nothing of message m is left to send. */
  ghost predicate Silent(l: ML.Logic, m: ML.MsgId) {
    && (forall q :: q in l.entries ==> l.entries[q] != m)
    && (forall q :: q in l.timers ==> l.timers[q].msgId != m)
  }

  lemma EndsSilent(s: Sender, e: Event)
    requires ML.Inv(s.logic) && (e.Ack? || e.Cancel?)
    ensures Silent(Step(s, e).logic, e.msgId)
  {
    ML.CleanUpInv(s.logic, e.msgId);
  }

  ghost predicate NextWithout(s: Sender, s': Sender, m: ML.MsgId) {
    exists e :: Enabled(s, e) && !(e.SendMessage? && e.msgId == m) && s' == Step(s, e)
  }

  lemma TimerStaysQuiet(l: ML.Logic, now: int, q: ML.SeqId, m: ML.MsgId)
    requires l.timeout > 0 && Silent(l, m) && q in l.timers
    ensures Silent(ML.Fire(l, now, q), m) && ML.At(ML.Fire(l, now, q).sends, m) == ML.At(l.sends, m)
  {
    assert l.timers[q].msgId != m;
  }

  lemma StaysSilent(s: Sender, s': Sender, m: ML.MsgId)
    requires Silent(s.logic, m) && NextWithout(s, s', m)
    ensures Silent(s'.logic, m) && ML.At(s'.logic.sends, m) == ML.At(s.logic.sends, m)
  {
    var e :| Enabled(s, e) && !(e.SendMessage? && e.msgId == m) && s' == Step(s, e);
    if e.TimerFires? {
      TimerStaysQuiet(s.logic, e.now, e.seqId, m);
    }
  }

  /** After an ACK or a cancel no timer sends that message again: whatever happens,
      no copy of it goes out until it is handed to send anew. */
  lemma {:induction false} NoSendAfterAck(run: seq<Sender>, m: ML.MsgId, e: Event, n: nat)
    requires 0 < n < |run| && (e == Ack(m) || e == Cancel(m)) && ML.Inv(run[0].logic) && run[1] == Step(run[0], e)
    requires forall i | 1 < i < |run| :: NextWithout(run[i-1], run[i], m)
    ensures Silent(run[n].logic, m) && ML.At(run[n].logic.sends, m) == ML.At(run[0].logic.sends, m)
  {
    if n == 1 {
      EndsSilent(run[0], e);
    } else {
      NoSendAfterAck(run, m, e, n - 1);
      StaysSilent(run[n-1], run[n], m);
    }
  }

  // ------------------------------------------------------- peak of the pool

  lemma CopyPeak(p: PS.Pool, to: PS.Dest, payload: PS.Payload, m: ML.MsgId, q: ML.SeqId, newId: PS.SocketId, d: PS.Dest)
    ensures var p' := PS.Send(p, to, payload, m, q, newId);
            p'.max == p.max && (PS.PeakAt(p', d) == PS.PeakAt(p, d) || PS.PeakAt(p', d) == PS.InFlight(p', d))
  {
  }

  lemma PeakStep(s: Sender, s': Sender, d: PS.Dest)
    requires Next(s, s')
    ensures PS.PeakAt(s'.pool, d) == PS.PeakAt(s.pool, d) || PS.PeakAt(s'.pool, d) == PS.InFlight(s'.pool, d)
    ensures s'.pool.max == s.pool.max
  {
    hide PS.Send, PS.CleanUp;
    var e :| Enabled(s, e) && s' == Step(s, e);
    var q := s.logic.maxSeqId + 1;
    if e.SendMessage? {
      CopyPeak(s.pool, e.dest, e.payload, e.msgId, q, e.newId, d);
    } else if e.TimerFires? {
      var t := s.logic.timers[e.seqId];
      CopyPeak(s.pool, t.dest, t.payload, t.msgId, q, e.newId, d);
      PS.CleanUpKeepsPeak(s.pool, t.msgId);
    } else {
      PS.CleanUpKeepsPeak(s.pool, e.msgId);
    }
  }

  lemma {:induction false} PeakWasReached(run: seq<Sender>, n: nat, d: PS.Dest) returns (k: nat)
    requires IsRun(run) && n < |run|
    ensures k <= n && run[n].pool.max == run[0].pool.max
    ensures PS.PeakAt(run[n].pool, d) <= PS.InFlight(run[k].pool, d)
  {
    k := n;
    if n > 0 {
      assert Next(run[n-1], run[n]);
      PeakStep(run[n-1], run[n], d);
      var before := PeakWasReached(run, n - 1, d);
      if PS.PeakAt(run[n].pool, d) != PS.InFlight(run[n].pool, d) {
        k := before;
      }
    }
  }

  /** First fit opens no socket it could do without: for every state of every run
      and every destination, some earlier moment had more copies in flight to that
      destination than one socket fewer could have carried. */
  lemma SocketsWereNeeded(run: seq<Sender>, n: nat, d: PS.Dest) returns (k: nat)
    requires IsRun(run) && n < |run| && d in run[n].pool.byDest
    ensures k <= n
    ensures (|run[n].pool.byDest[d]| - 1) * run[n].pool.max < |PS.CopiesTo(run[k].pool, d)|
  {
    RunInv(run, n);
    k := PeakWasReached(run, n, d);
    RunInv(run, k);
    PS.InFlightIsCopies(run[k].pool, d);
  }

  // ------------------------------------------- what is sent, and where to

  /** Every timer would resend what its message was handed to send with. */
  ghost predicate TimersCarry(l: ML.Logic, asked: map<ML.MsgId, set<ML.Packet>>) {
    forall q :: q in l.timers ==>
      ML.Packet(l.timers[q].dest, l.timers[q].payload) in AskedFor(asked, l.timers[q].msgId)
  }

  /** So did every send up to now; there is one packet for each time in sends. */
  ghost predicate PacketsCarry(l: ML.Logic, asked: map<ML.MsgId, set<ML.Packet>>) {
    && (forall m :: |ML.At(l.packets, m)| == |ML.At(l.sends, m)|)
    && (forall m, packet :: packet in ML.At(l.packets, m) ==> packet in AskedFor(asked, m))
  }

  /** Every copy under way was written with that payload to a socket that leads there. */
  ghost predicate CopiesCarry(p: PS.Pool, asked: map<ML.MsgId, set<ML.Packet>>) {
    forall q :: q in p.socketMap ==> CopyCarries(p, q, asked)
  }

  ghost predicate CopyCarries(p: PS.Pool, q: ML.SeqId, asked: map<ML.MsgId, set<ML.Packet>>) {
    && q in p.socketMap && p.socketMap[q] in p.destOf && q in p.wire && q in p.msgOf
    && ML.Packet(p.destOf[p.socketMap[q]], p.wire[q]) in AskedFor(asked, p.msgOf[q])
  }

  ghost predicate Carries(s: Sender) {
    TimersCarry(s.logic, s.asked) && PacketsCarry(s.logic, s.asked) && CopiesCarry(s.pool, s.asked)
  }

  lemma PerformSendCarries(l: ML.Logic, now: int, dest: PS.Dest, payload: ML.Payload, m: ML.MsgId, retryCount: nat,
                           asked: map<ML.MsgId, set<ML.Packet>>)
    requires TimersCarry(l, asked) && PacketsCarry(l, asked) && ML.Packet(dest, payload) in AskedFor(asked, m)
    ensures var l' := ML.PerformSend(l, now, dest, payload, m, retryCount); TimersCarry(l', asked) && PacketsCarry(l', asked)
  {
    var l' := ML.PerformSend(l, now, dest, payload, m, retryCount);
    forall x
      ensures |ML.At(l'.packets, x)| == |ML.At(l'.sends, x)|
    {
      assert |ML.At(l.packets, x)| == |ML.At(l.sends, x)|;
    }
  }

  lemma CopyIsCarried(p: PS.Pool, dest: PS.Dest, payload: ML.Payload, m: ML.MsgId, q: ML.SeqId, newId: PS.SocketId,
                      asked: map<ML.MsgId, set<ML.Packet>>)
    requires PS.Inv(p) && CopiesCarry(p, asked) && q !in p.socketMap && newId !in p.usedBy
    requires ML.Packet(dest, payload) in AskedFor(asked, m)
    ensures CopiesCarry(PS.Send(p, dest, payload, m, q, newId), asked)
  {
    var p' := PS.Send(p, dest, payload, m, q, newId);
    assert p'.msgOf == p.msgOf[q := m];
    PS.SendReaches(p, dest, payload, m, q, newId);
    forall x | x in p'.socketMap
      ensures CopyCarries(p', x, asked)
    {
      if x != q {
        assert CopyCarries(p, x, asked);
        PS.SendKeepsOthers(p, dest, payload, m, q, newId, x);
      }
    }
  }

  lemma CleanUpIsCarried(p: PS.Pool, m: ML.MsgId, asked: map<ML.MsgId, set<ML.Packet>>)
    requires PS.Inv(p) && CopiesCarry(p, asked)
    ensures CopiesCarry(PS.CleanUp(p, m), asked)
  {
    var p' := PS.CleanUp(p, m);
    PS.CleanUpInv(p, m);
    PS.CleanUpRemoves(p, m);
    PS.CleanUpKeepsDests(p, m);
    PS.CleanUpKeepsCopies(p, m);
    forall x | x in p'.socketMap
      ensures CopyCarries(p', x, asked)
    {
      PS.ReleaseFindsEverything(p', x);
      assert CopyCarries(p, x, asked);
    }
  }

  lemma MoreAsked(s: Sender, m: ML.MsgId, packet: ML.Packet)
    requires Carries(s)
    ensures Carries(s.(asked := s.asked[m := AskedFor(s.asked, m) + {packet}]))
  {
    forall q | q in s.pool.socketMap
      ensures CopyCarries(s.pool, q, s.asked[m := AskedFor(s.asked, m) + {packet}])
    {
      assert CopyCarries(s.pool, q, s.asked);
    }
  }

  lemma SendMessageCarries(s: Sender, now: int, dest: PS.Dest, payload: ML.Payload, m: ML.MsgId, withCallback: bool,
                           newId: PS.SocketId)
    requires Inv(s) && Carries(s) && newId !in s.pool.usedBy
    ensures Carries(OnSend(s, now, dest, payload, m, withCallback, newId))
  {
    MoreAsked(s, m, ML.Packet(dest, payload));
    hide TimersCarry, PacketsCarry, CopiesCarry, PS.Send, PS.Inv, ML.PerformSend, ML.Inv;
    var asked := s.asked[m := AskedFor(s.asked, m) + {ML.Packet(dest, payload)}];
    CopyInv(s.logic, s.pool, dest, payload, m, newId);
    PerformSendCarries(s.logic, now, dest, payload, m, 0, asked);
    CopyIsCarried(s.pool, dest, payload, m, s.logic.maxSeqId + 1, newId, asked);
    OnSendParts(s, now, dest, payload, m, withCallback, newId);
    hide OnSend;
  }

  lemma OnSendParts(s: Sender, now: int, dest: PS.Dest, payload: ML.Payload, m: ML.MsgId, withCallback: bool,
                    newId: PS.SocketId)
    ensures var s' := OnSend(s, now, dest, payload, m, withCallback, newId);
            && s'.logic == ML.PerformSend(s.logic, now, dest, payload, m, 0)
            && s'.pool == PS.Send(s.pool, dest, payload, m, s.logic.maxSeqId + 1, newId)
            && s'.asked == s.asked[m := AskedFor(s.asked, m) + {ML.Packet(dest, payload)}]
  {
  }

  lemma FireCarries(l: ML.Logic, now: int, q: ML.SeqId, asked: map<ML.MsgId, set<ML.Packet>>)
    requires ML.Inv(l) && q in l.timers && TimersCarry(l, asked) && PacketsCarry(l, asked)
    ensures TimersCarry(ML.Fire(l, now, q), asked) && PacketsCarry(ML.Fire(l, now, q), asked)
  {
    var t, l1 := l.timers[q], l.(timers := l.timers - {q});
    assert TimersCarry(l1, asked) && PacketsCarry(l1, asked);
    if ML.Resends(l, q) {
      PerformSendCarries(l1, now, t.dest, t.payload, t.msgId, t.retryCount, asked);
    }
  }

  lemma ExpiryCarries(s: Sender, now: int, q: ML.SeqId, newId: PS.SocketId)
    requires Inv(s) && Carries(s) && q in s.logic.timers && ML.Expires(s.logic, q)
    ensures Carries(OnTimer(s, now, q, newId))
  {
    hide TimersCarry, PacketsCarry, CopiesCarry, PS.CleanUp, PS.Inv, ML.Fire, ML.Inv;
    FireCarries(s.logic, now, q, s.asked);
    CleanUpIsCarried(s.pool, s.logic.timers[q].msgId, s.asked);
  }

  lemma ResendCarries(s: Sender, now: int, q: ML.SeqId, newId: PS.SocketId)
    requires Inv(s) && Carries(s) && q in s.logic.timers && newId !in s.pool.usedBy && !ML.Expires(s.logic, q)
    ensures Carries(OnTimer(s, now, q, newId))
  {
    var t := s.logic.timers[q];
    assert ML.Packet(t.dest, t.payload) in AskedFor(s.asked, t.msgId);
    hide TimersCarry, PacketsCarry, CopiesCarry, PS.Send, PS.Inv, ML.Fire, ML.Inv;
    FireCarries(s.logic, now, q, s.asked);
    CopyInv(s.logic, s.pool, t.dest, t.payload, t.msgId, newId);
    CopyIsCarried(s.pool, t.dest, t.payload, t.msgId, s.logic.maxSeqId + 1, newId, s.asked);
    ResendParts(s, now, q, newId);
    hide OnTimer;
  }

  lemma ResendParts(s: Sender, now: int, q: ML.SeqId, newId: PS.SocketId)
    requires s.logic.timeout > 0 && q in s.logic.timers && !ML.Expires(s.logic, q)
    ensures var s', t := OnTimer(s, now, q, newId), s.logic.timers[q];
            && s'.logic == ML.Fire(s.logic, now, q) && s'.asked == s.asked
            && s'.pool == PS.Send(s.pool, t.dest, t.payload, t.msgId, s.logic.maxSeqId + 1, newId)
  {
    hide ML.Fire, PS.Send;
  }

  lemma TimerCarries(s: Sender, now: int, q: ML.SeqId, newId: PS.SocketId)
    requires Inv(s) && Carries(s) && s.logic.timeout > 0 && q in s.logic.timers && newId !in s.pool.usedBy
    ensures Carries(OnTimer(s, now, q, newId))
  {
    if ML.Expires(s.logic, q) {
      ExpiryCarries(s, now, q, newId);
    } else {
      ResendCarries(s, now, q, newId);
    }
  }

  lemma CleanUpCarries(s: Sender, m: ML.MsgId)
    requires Inv(s) && Carries(s)
    ensures Carries(CleanUp(s, m))
  {
    CleanUpIsCarried(s.pool, m, s.asked);
    hide PS.Inv, CopiesCarry, PS.CleanUp;
  }

  lemma StepCarries(s: Sender, e: Event)
    requires Inv(s) && Carries(s) && Enabled(s, e)
    ensures Carries(Step(s, e))
  {
    hide Inv, Carries, OnSend, OnTimer, CleanUp;
    match e {
      case SendMessage(now, dest, payload, m, withCallback, newId) =>
        SendMessageCarries(s, now, dest, payload, m, withCallback, newId);
      case TimerFires(now, q, newId) => TimerCarries(s, now, q, newId);
      case Ack(m) =>
        CleanUpCarries(s, m);
        CallbacksAside(CleanUp(s, m), s.callbacks - {m}, if m in s.callbacks then s.called + [m] else s.called);
      case Cancel(m) => CleanUpCarries(s, m);
    }
  }

  lemma CallbacksAside(s: Sender, callbacks: set<ML.MsgId>, called: seq<ML.MsgId>)
    ensures Carries(s.(callbacks := callbacks, called := called)) <==> Carries(s)
  {
  }

  lemma {:induction false} RunCarries(run: seq<Sender>, n: nat)
    requires IsRun(run) && n < |run|
    ensures Carries(run[n])
  {
    hide Inv, Carries;
    if n == 0 {
      StartCarries(run[0]);
    } else {
      RunCarries(run, n - 1);
      RunInv(run, n - 1);
      assert Next(run[n-1], run[n]);
      var e :| Enabled(run[n-1], e) && run[n] == Step(run[n-1], e);
      StepCarries(run[n-1], e);
    }
  }

  lemma StartCarries(s: Sender)
    requires exists timeout: nat, total: int, max: nat :: s == Start(timeout, total, max)
    ensures Carries(s)
  {
  }

  /** In every run a message that was handed to send with one destination and payload
      only has just that in all its sends, its copies under way and its timers. */
  lemma AlwaysTheSame(run: seq<Sender>, n: nat, m: ML.MsgId, packet: ML.Packet)
    requires IsRun(run) && n < |run| && AskedFor(run[n].asked, m) == {packet}
    ensures var l, p := run[n].logic, run[n].pool;
            && |ML.At(l.packets, m)| == |ML.At(l.sends, m)|
            && (forall i | 0 <= i < |ML.At(l.packets, m)| :: ML.At(l.packets, m)[i] == packet)
            && (forall q :: q in l.timers && l.timers[q].msgId == m ==>
                  l.timers[q].dest == packet.dest && l.timers[q].payload == packet.payload)
            && (forall q :: q in p.socketMap && q in p.msgOf && p.msgOf[q] == m ==>
                  q in p.wire && p.wire[q] == packet.payload
                  && p.socketMap[q] in p.destOf && p.destOf[p.socketMap[q]] == packet.dest)
  {
    RunCarries(run, n);
    var l, p := run[n].logic, run[n].pool;
    forall i | 0 <= i < |ML.At(l.packets, m)|
      ensures ML.At(l.packets, m)[i] == packet
    {
      assert ML.At(l.packets, m)[i] in ML.At(l.packets, m);
    }
    forall q | q in l.timers && l.timers[q].msgId == m
      ensures l.timers[q].dest == packet.dest && l.timers[q].payload == packet.payload
    {
      assert ML.Packet(l.timers[q].dest, l.timers[q].payload) == packet;
    }
    forall q | q in p.socketMap && q in p.msgOf && p.msgOf[q] == m
      ensures q in p.wire && p.wire[q] == packet.payload && p.socketMap[q] in p.destOf && p.destOf[p.socketMap[q]] == packet.dest
    {
      assert CopyCarries(p, q, run[n].asked);
      assert ML.Packet(p.destOf[p.socketMap[q]], p.wire[q]) == packet;
    }
  }

  // ------------------------------------------------------------- callbacks

  ghost predicate NextUnacked(s: Sender, s': Sender, m: ML.MsgId) {
    exists e :: Enabled(s, e) && e != Ack(m) && s' == Step(s, e)
  }

  /** A message handed to send with a callback keeps it through retries, cancels and
      total timeouts; its first ACK runs it once. */
  lemma {:induction false} CallbackIsKept(run: seq<Sender>, m: ML.MsgId, e: Event, n: nat)
    requires 0 < n < |run| && Enabled(run[0], e) && run[1] == Step(run[0], e)
    requires e.SendMessage? && e.msgId == m && e.withCallback
    requires forall i | 1 < i < |run| :: NextUnacked(run[i-1], run[i], m)
    ensures m in run[n].callbacks
    ensures Step(run[n], Ack(m)).called == run[n].called + [m]
  {
    if n > 1 {
      CallbackIsKept(run, m, e, n - 1);
      assert NextUnacked(run[n-1], run[n], m);
    }
  }

  /** After an ACK further ACKs of the message run no callback. */
  lemma {:induction false} CallbackRunsOnce(run: seq<Sender>, m: ML.MsgId, n: nat)
    requires 0 < n < |run| && run[1] == Step(run[0], Ack(m))
    requires forall i | 1 < i < |run| :: NextWithout(run[i-1], run[i], m)
    ensures m !in run[n].callbacks
    ensures multiset(run[n].called)[m] == multiset(run[0].called)[m] + if m in run[0].callbacks then 1 else 0
  {
    if n > 1 {
      CallbackRunsOnce(run, m, n - 1);
      assert NextWithout(run[n-1], run[n], m);
    }
  }

  // ------------------------------------------------ the code as it is run

  lemma NothingToRelease(s: Sender, m: ML.MsgId)
    requires Inv(s) && forall q :: q in s.logic.entries ==> s.logic.entries[q] != m
    ensures PS.CleanUp(s.pool, m) == s.pool
  {
    hide PS.TablesInv, PS.ListsInv, PS.PeakInv;
    if m in s.pool.seqIdList {
      PS.ListedHasCopy(s.pool.seqIdList, s.pool.msgOf, m);
    }
  }

  lemma InvParts(s: Sender)
    requires Inv(s)
    ensures s.logic.timeout > 0 && PS.Inv(s.pool)
  {
  }

  lemma ReleasedOnce(p: PS.Pool, m: ML.MsgId)
    ensures PS.CleanUp(PS.CleanUp(p, m), m) == PS.CleanUp(p, m)
  {
  }

  lemma CallbackFirst(s: Sender, now: int, dest: PS.Dest, payload: ML.Payload, m: ML.MsgId, newId: PS.SocketId)
    ensures OnSend(s.(callbacks := s.callbacks + {m}), now, dest, payload, m, false, newId)
         == OnSend(s, now, dest, payload, m, true, newId)
  {
    hide PS.Send, ML.PerformSend;
  }

  class MQSender {
    const logic: ML.Retrier
    const socket: PS.SendSocket
    var callbacksAfterAck: set<ML.MsgId>
    ghost var called: seq<ML.MsgId>
    ghost var asked: map<ML.MsgId, set<ML.Packet>>

    ghost function View(): Sender
      reads this, logic, socket
    {
      Sender(logic.View(), socket.View(), callbacksAfterAck, called, asked)
    }

    ghost predicate Valid()
      reads this, logic, socket
    {
      logic.Valid() && Inv(View())
    }

    constructor (configTotalTimeout: int, configTimeout: nat, max: nat)
      requires 1 <= max
      ensures Valid() && fresh(logic) && fresh(socket)
      ensures View() == Start(logic.timeout, logic.totalTimeout, max)
    {
      logic := new ML.Retrier(configTotalTimeout, configTimeout);
      socket := new PS.SendSocket(max);
      callbacksAfterAck, called, asked := {}, [], map[];
      new;
      StartInv(logic.timeout, logic.totalTimeout, max);
    }

    /** send; false when the message id is missing. */
    method SendMessage(now: int, dest: PS.Dest, payload: ML.Payload, msgId: ML.MsgId, withCallback: bool,
                       newId: PS.SocketId) returns (ok: bool)
      requires Valid() && newId !in socket.socketUsedBy
      modifies this, logic, socket
      ensures Valid() && ok == (msgId != "")
      ensures View() == if ok then OnSend(old(View()), now, dest, payload, msgId, withCallback, newId) else old(View())
    {
      if msgId == "" {
        return false;
      }
      ghost var before := View();
      SendMessageInv(before, now, dest, payload, msgId, withCallback, newId);
      CallbackFirst(before, now, dest, payload, msgId, newId);
      hide PS.Inv, ML.Inv, Inv, OnSend;
      if withCallback {
        RegisterCallback(msgId);
      }
      FirstCopy(now, dest, payload, msgId, newId);
      ok := true;
    }

    method RegisterCallback(msgId: ML.MsgId)
      modifies this`callbacksAfterAck
      ensures View() == old(View()).(callbacks := old(callbacksAfterAck) + {msgId})
    {
      callbacksAfterAck := callbacksAfterAck + {msgId};
    }

    /** The logic's send, with PerformSend passed on to the sockets. */
    method FirstCopy(now: int, dest: PS.Dest, payload: ML.Payload, msgId: ML.MsgId, newId: PS.SocketId)
      requires logic.Valid() && newId !in socket.socketUsedBy
      modifies logic, socket, this`asked
      ensures logic.Valid() && View() == OnSend(old(View()), now, dest, payload, msgId, false, newId)
    {
      hide PS.Send, ML.PerformSend, ML.Inv;
      var seqId := logic.PerformSendNow(now, dest, payload, msgId, 0);
      socket.SendCopy(dest, payload, msgId, seqId, newId);
      asked := asked[msgId := AskedFor(asked, msgId) + {ML.Packet(dest, payload)}];
    }

    /** PerformCleanUp, emitted for each released copy; all but the first find the
        message gone. */
    method ReleaseCopies(msgId: ML.MsgId, released: set<ML.SeqId>)
      requires PS.Inv(socket.View())
      modifies socket
      ensures PS.Inv(socket.View())
      ensures socket.View() == if released == {} then old(socket.View()) else PS.CleanUp(old(socket.View()), msgId)
    {
      ghost var before := socket.View();
      PS.CleanUpInv(before, msgId);
      ReleasedOnce(before, msgId);
      hide PS.CleanUp, PS.Inv;
      var rest := released;
      while rest != {}
        invariant rest <= released && PS.Inv(socket.View())
        invariant socket.View() == if rest == released then before else PS.CleanUp(before, msgId)
        decreases |rest|
      {
        var q :| q in rest;
        var _ := socket.CleanUpMessage(msgId);
        rest := rest - {q};
      }
    }

    /** stopSend. */
    method StopSend(msgId: ML.MsgId)
      requires Valid()
      modifies logic, socket
      ensures Valid() && View() == CleanUp(old(View()), msgId)
    {
      ghost var before := View();
      CleanUpInv(before, msgId);
      hide PS.CleanUp, PS.Inv, ML.CleanUp, ML.Inv, Inv;
      var released := logic.CleanUpMessage(msgId);
      ReleaseCopies(msgId, released);
      if released == {} {
        NothingToRelease(before, msgId);
      }
      assert View() == CleanUp(before, msgId);
    }

    /** The ACK handler; called tells whether the callback ran. */
    method OnAck(msgId: ML.MsgId) returns (calledBack: bool)
      requires Valid()
      modifies this, logic, socket
      ensures Valid() && View() == Step(old(View()), Ack(msgId))
      ensures calledBack == (msgId in old(callbacksAfterAck))
    {
      StopSend(msgId);
      calledBack := msgId in callbacksAfterAck;
      if calledBack {
        called, callbacksAfterAck := called + [msgId], callbacksAfterAck - {msgId};
      }
    }

    /** A timer of the logic goes off. */
    method OnRetryTimer(now: int, seqId: ML.SeqId, newId: PS.SocketId) returns (gaveUp: bool)
      requires Valid() && seqId in logic.timers && newId !in socket.socketUsedBy
      modifies this, logic, socket
      ensures Valid() && View() == OnTimer(old(View()), now, seqId, newId)
      ensures gaveUp == ML.Expires(old(logic.View()), seqId)
    {
      hide PS.Send, PS.CleanUp, PS.Inv, ML.Fire, ML.Inv, Inv;
      ghost var before := View();
      InvParts(before);
      StepInv(before, TimerFires(now, seqId, newId));
      var t := logic.timers[seqId];
      var sent;
      gaveUp, sent := logic.Retry(now, seqId);
      if gaveUp {
        ReleaseCopies(t.msgId, {seqId});
      } else {
        socket.SendCopy(t.dest, t.payload, t.msgId, sent[0], newId);
      }
      assert View() == OnTimer(before, now, seqId, newId);
    }
  }
}
