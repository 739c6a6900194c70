/** The receiver's side of the retries: onMessage of main-server/src/mq/index.js
    drops every copy of a message that arrives while a timer started by an earlier
    copy is pending. */
module DuplicateWindow {
  import ML = MqLogic
  import RS = RetrySchedule
  import Sums

  type Id = string  // senderId:msgId

  const MQ_SEND_TOTAL_TIMEOUT: nat := 600000

  datatype Receiver = Receiver(
    now: int,
    timer: map<Id, int>,          // when the pending timers are due
    arrived: map<Id, seq<int>>,   // history: when copies came
    accepted: map<Id, seq<int>>)  // history: when one was processed

  function At(m: map<Id, seq<int>>, id: Id): seq<int> {
    if id in m then m[id] else []
  }

  /** A timer may go off late, and a copy that comes in between is still dropped. */
  datatype Event = Tick(to: int) | Expire(id: Id) | Arrive(id: Id)

  predicate Enabled(r: Receiver, e: Event) {
    match e
    case Tick(to) => r.now <= to
    case Expire(id) => id in r.timer && r.timer[id] <= r.now
    case Arrive(_) => true
  }

  function OnMessage(r: Receiver, window: nat, id: Id): Receiver {
    var r' := r.(arrived := r.arrived[id := At(r.arrived, id) + [r.now]]);
    if id in r.timer then r'
    else r'.(timer := r.timer[id := r.now + window], accepted := r.accepted[id := At(r.accepted, id) + [r.now]])
  }

  function Step(r: Receiver, window: nat, e: Event): Receiver {
    match e
    case Tick(to) => r.(now := to)
    case Expire(id) => r.(timer := r.timer - {id})
    case Arrive(id) => OnMessage(r, window, id)
  }

  ghost predicate Next(r: Receiver, r': Receiver, window: nat) {
    exists e :: Enabled(r, e) && r' == Step(r, window, e)
  }

  ghost predicate IsRun(run: seq<Receiver>, window: nat) {
    && run != [] && run[0].timer == map[] && run[0].arrived == map[] && run[0].accepted == map[]
    && forall i | 0 < i < |run| :: Next(run[i-1], run[i], window)
  }

  /** Acceptances of one message lie at least a window apart. */
  ghost predicate Apart(accepted: seq<int>, window: nat) {
    forall i, j | 0 <= i < j < |accepted| :: accepted[j] >= accepted[i] + window
  }

  ghost predicate IdInv(r: Receiver, window: nat, id: Id) {
    var accepted, arrived := At(r.accepted, id), At(r.arrived, id);
    && Apart(accepted, window)
    && (accepted == [] <==> arrived == [])
    && (forall a :: a in accepted ==> a in arrived && a <= r.now)
    && (id in r.timer ==> accepted != [] && r.timer[id] == accepted[|accepted|-1] + window)
    && (id !in r.timer && accepted != [] ==> accepted[|accepted|-1] + window <= r.now)
  }

  lemma ArriveKeepsId(r: Receiver, window: nat, id: Id, x: Id)
    requires IdInv(r, window, x)
    ensures IdInv(OnMessage(r, window, id), window, x)
  {
    if x == id && id !in r.timer {
      var accepted := At(r.accepted, id);
      forall i | 0 <= i < |accepted| ensures accepted[i] + window <= r.now {
        assert i < |accepted| - 1 ==> accepted[i] + window <= accepted[|accepted|-1];
      }
    }
  }

  lemma StepKeepsId(r: Receiver, window: nat, e: Event, id: Id)
    requires IdInv(r, window, id) && Enabled(r, e)
    ensures IdInv(Step(r, window, e), window, id)
  {
    if e.Arrive? {
      ArriveKeepsId(r, window, e.id, id);
    }
  }

  lemma {:induction false} RunKeepsId(run: seq<Receiver>, window: nat, id: Id, n: nat)
    requires IsRun(run, window) && n < |run|
    ensures IdInv(run[n], window, id)
  {
    if n > 0 {
      RunKeepsId(run, window, id, n - 1);
      assert Next(run[n-1], run[n], window);
      var e :| Enabled(run[n-1], e) && run[n] == Step(run[n-1], window, e);
      StepKeepsId(run[n-1], window, e, id);
    }
  }

  /** For every run: acceptances are at least a window apart, something is accepted
      if anything arrived, and nothing is accepted that did not arrive. */
  lemma AcceptedApart(run: seq<Receiver>, window: nat, id: Id, n: nat)
    requires IsRun(run, window) && n < |run|
    ensures var accepted, arrived := At(run[n].accepted, id), At(run[n].arrived, id);
            && Apart(accepted, window)
            && (accepted == [] <==> arrived == [])
            && forall a :: a in accepted ==> a in arrived
  {
    RunKeepsId(run, window, id, n);
  }

  lemma TwoNeedTwoWindows(accepted: seq<int>, window: nat, t0: int)
    requires Apart(accepted, window) && |accepted| > 1
    ensures exists i :: 0 <= i < |accepted| && !(t0 <= accepted[i] < t0 + window)
  {
    assert accepted[1] >= accepted[0] + window;
  }

  /** Copies that all arrive within one window are accepted exactly once. */
  lemma OneWindow(run: seq<Receiver>, window: nat, id: Id, n: nat, t0: int)
    requires IsRun(run, window) && n < |run| && At(run[n].arrived, id) != []
    requires forall a :: a in At(run[n].arrived, id) ==> t0 <= a < t0 + window
    ensures |At(run[n].accepted, id)| == 1
  {
    AcceptedApart(run, window, id, n);
    var accepted := At(run[n].accepted, id);
    forall i | 0 <= i < |accepted|
      ensures t0 <= accepted[i] < t0 + window
    {
      assert accepted[i] in accepted;
    }
    if |accepted| > 1 {
      TwoNeedTwoWindows(accepted, window, t0);
    }
  }

  // ------------------------------------------------------ sender and receiver

  /** Every copy that arrives is one that was sent, less than delay before. */
  ghost predicate Delivered(sends: seq<int>, arrived: seq<int>, delay: nat) {
    forall a | a in arrived :: exists i :: 0 <= i < |sends| && sends[i] <= a < sends[i] + delay
  }

  /** Whatever the sender's and the receiver's runs: if something arrived, exactly
      one copy is accepted. */
  ghost predicate Suppresses(timeout: nat, totalTimeout: int, window: nat, lag: nat, delay: nat) {
    forall sender: seq<RS.Timed>, m, t0, receiver: seq<Receiver>, id ::
      && RS.IsRun(sender, m, t0, lag) && IsRun(receiver, window)
      && sender[0].logic.timeout == timeout && sender[0].logic.totalTimeout == totalTimeout
      && At(Last(receiver).arrived, id) != []
      && Delivered(ML.At(LastSender(sender).logic.sends, m), At(Last(receiver).arrived, id), delay)
      ==> |At(Last(receiver).accepted, id)| == 1
  }

  ghost function Last(run: seq<Receiver>): Receiver
    requires run != []
  {
    run[|run|-1]
  }

  ghost function LastSender(run: seq<RS.Timed>): RS.Timed
    requires run != []
  {
    run[|run|-1]
  }

  /** How long after the first send a copy may still arrive. */
  function Reach(timeout: nat, totalTimeout: int, lag: nat, delay: nat): int
    requires timeout > 0
  {
    (RS.Copies(timeout, totalTimeout) - 1) * (timeout + lag) + delay
  }

  lemma InOneWindow(sender: seq<RS.Timed>, m: ML.MsgId, t0: int, receiver: seq<Receiver>, window: nat, id: Id,
                    lag: nat, delay: nat)
    requires RS.IsRun(sender, m, t0, lag) && IsRun(receiver, window) && At(Last(receiver).arrived, id) != []
    requires Delivered(ML.At(LastSender(sender).logic.sends, m), At(Last(receiver).arrived, id), delay)
    requires sender[0].logic.timeout > 0
    requires Reach(sender[0].logic.timeout, sender[0].logic.totalTimeout, lag, delay) <= window
    ensures |At(Last(receiver).accepted, id)| == 1
  {
    var l, n := LastSender(sender).logic, |sender| - 1;
    RS.NeverTooMany(sender, m, t0, lag, n);
    RS.RunOnSchedule(sender, m, t0, lag, n);
    var sends := ML.At(l.sends, m);
    var copies := RS.Copies(l.timeout, l.totalTimeout);
    forall a | a in At(Last(receiver).arrived, id)
      ensures t0 <= a < t0 + window
    {
      var i :| 0 <= i < |sends| && sends[i] <= a < sends[i] + delay;
      Sums.Monotone(i, copies - 1, l.timeout + lag);
      Sums.Monotone(0, i, l.timeout);
    }
    OneWindow(receiver, window, id, |receiver| - 1, t0);
  }

  // ------------------------------------------------------- the slowest runs

  function Late(timeout: nat, lag: nat, k: nat): seq<int> {
    seq(k, i => i * (timeout + lag))
  }

  /** k copies have gone out as late as lag allows, and nothing else is going on. */
  ghost predicate Slowed(t: RS.Timed, m: ML.MsgId, lag: nat, k: nat) {
    var l := t.logic;
    && ML.At(l.sends, m) == Late(l.timeout, lag, k)
    && t.now == (k - 1) * (l.timeout + lag)
    && exists q :: l.timers.Keys == {q}
  }

  ghost predicate Slow(run: seq<RS.Timed>, m: ML.MsgId, timeout: nat, totalTimeout: int, lag: nat, k: nat) {
    && RS.IsRun(run, m, 0, lag)
    && run[0].logic.timeout == timeout && run[0].logic.totalTimeout == totalTimeout
    && Slowed(LastSender(run), m, lag, k)
  }

  lemma Append(run: seq<RS.Timed>, m: ML.MsgId, lag: nat, e: RS.Event) returns (run': seq<RS.Timed>)
    requires RS.IsRun(run, m, 0, lag) && RS.Enabled(LastSender(run), lag, e) && (e.Tick? || e.Fire?)
    ensures RS.IsRun(run', m, 0, lag) && run'[0] == run[0] && LastSender(run') == RS.Step(LastSender(run), lag, e)
  {
    run' := run + [RS.Step(LastSender(run), lag, e)];
    assert RS.Next(LastSender(run), RS.Step(LastSender(run), lag, e), lag, m);
  }

  lemma ResendSlowly(t: RS.Timed, m: ML.MsgId, lag: nat, q: ML.SeqId, k: nat) returns (t1: RS.Timed, t2: RS.Timed)
    requires t.logic.timeout > 0 && 1 <= k < RS.Copies(t.logic.timeout, t.logic.totalTimeout)
    requires RS.Live(t, m, lag, q) && ML.Inv(t.logic) && Slowed(t, m, lag, k)
    ensures RS.Enabled(t, lag, RS.Tick(t.now + t.logic.timeout + lag))
    ensures t1 == RS.Step(t, lag, RS.Tick(t.now + t.logic.timeout + lag))
    ensures RS.Enabled(t1, lag, RS.Fire(q)) && t2 == RS.Step(t1, lag, RS.Fire(q)) && Slowed(t2, m, lag, k + 1)
  {
    var l := t.logic;
    assert l.timers.Keys == {q};
    assert (k - 1) * (l.timeout + lag) + (l.timeout + lag) == k * (l.timeout + lag);
    t1 := RS.Step(t, lag, RS.Tick(t.now + l.timeout + lag));
    RS.RetryTest(l, k);
    t2 := RS.Step(t1, lag, RS.Fire(q));
    assert Late(l.timeout, lag, k + 1) == Late(l.timeout, lag, k) + [k * (l.timeout + lag)];
    assert t2.logic.timers.Keys == {l.maxSeqId + 1};
  }

  lemma Resend(run: seq<RS.Timed>, m: ML.MsgId, timeout: nat, totalTimeout: int, lag: nat, k: nat)
    returns (run': seq<RS.Timed>)
    requires timeout > 0 && 1 <= k < RS.Copies(timeout, totalTimeout)
    requires Slow(run, m, timeout, totalTimeout, lag, k)
    ensures Slow(run', m, timeout, totalTimeout, lag, k + 1)
  {
    var t := LastSender(run);
    RS.RunOnSchedule(run, m, 0, lag, |run| - 1);
    assert |Late(timeout, lag, k)| == k;
    var q :| RS.Live(t, m, lag, q);
    var t1, t2 := ResendSlowly(t, m, lag, q, k);
    hide Slowed, RS.Live;
    run' := Append(run, m, lag, RS.Tick(t.now + timeout + lag));
    run' := Append(run', m, lag, RS.Fire(q));
  }

  lemma {:induction false} SlowSender(m: ML.MsgId, timeout: nat, totalTimeout: int, lag: nat, k: nat)
    returns (run: seq<RS.Timed>)
    requires timeout > 0 && 1 <= k <= RS.Copies(timeout, totalTimeout)
    ensures Slow(run, m, timeout, totalTimeout, lag, k)
  {
    if k == 1 {
      var l := ML.Logic(timeout, totalTimeout, 0, map[], map[], map[], map[], map[]);
      var t := RS.Timed(ML.PerformSend(l, 0, "", "", m, 0), 0);
      assert RS.Begins(t, m, 0);
      run := [t];
      assert t.logic.timers.Keys == {1};
    } else {
      run := SlowSender(m, timeout, totalTimeout, lag, k - 1);
      run := Resend(run, m, timeout, totalTimeout, lag, k - 1);
    }
  }

  /** The first copy arrives at once; the window passes; another one arrives. */
  lemma TwiceAccepted(id: Id, window: nat, late: int) returns (run: seq<Receiver>)
    requires window <= late
    ensures IsRun(run, window) && At(Last(run).arrived, id) == [0, late] && |At(Last(run).accepted, id)| == 2
  {
    var r0 := Receiver(0, map[], map[], map[]);
    var r1 := Step(r0, window, Arrive(id));
    var r2 := Step(r1, window, Tick(late));
    var r3 := Step(r2, window, Expire(id));
    var r4 := Step(r3, window, Arrive(id));
    assert Enabled(r0, Arrive(id)) && Enabled(r1, Tick(late)) && Enabled(r2, Expire(id)) && Enabled(r3, Arrive(id));
    assert Next(r0, r1, window) && Next(r1, r2, window) && Next(r2, r3, window) && Next(r3, r4, window);
    run := [r0, r1, r2, r3, r4];
  }

  /** Duplicates are suppressed in all runs exactly when the last copy cannot arrive
      after the window of a first copy that was as fast as possible. */
  lemma SuppressesIff(timeout: nat, totalTimeout: int, window: nat, lag: nat, delay: nat)
    requires timeout > 0 && delay > 0
    ensures Suppresses(timeout, totalTimeout, window, lag, delay) <==> Reach(timeout, totalTimeout, lag, delay) <= window
  {
    if Reach(timeout, totalTimeout, lag, delay) <= window {
      forall sender: seq<RS.Timed>, m, t0, receiver: seq<Receiver>, id |
        && RS.IsRun(sender, m, t0, lag) && IsRun(receiver, window)
        && sender[0].logic.timeout == timeout && sender[0].logic.totalTimeout == totalTimeout
        && At(Last(receiver).arrived, id) != []
        && Delivered(ML.At(LastSender(sender).logic.sends, m), At(Last(receiver).arrived, id), delay)
        ensures |At(Last(receiver).accepted, id)| == 1
      {
        InOneWindow(sender, m, t0, receiver, window, id, lag, delay);
      }
    } else {
      NotSuppressed(timeout, totalTimeout, window, lag, delay);
    }
  }

  lemma NotSuppressed(timeout: nat, totalTimeout: int, window: nat, lag: nat, delay: nat)
    requires timeout > 0 && delay > 0 && Reach(timeout, totalTimeout, lag, delay) > window
    ensures !Suppresses(timeout, totalTimeout, window, lag, delay)
  {
    var m, id, n := "m", "s:m", RS.Copies(timeout, totalTimeout);
    var sender := SlowSender(m, timeout, totalTimeout, lag, n);
    RS.RunOnSchedule(sender, m, 0, lag, |sender| - 1);
    var late := Reach(timeout, totalTimeout, lag, delay) - 1;
    var receiver := TwiceAccepted(id, window, late);
    var sends, arrived := ML.At(LastSender(sender).logic.sends, m), At(Last(receiver).arrived, id);
    forall a | a in arrived
      ensures exists i :: 0 <= i < |sends| && sends[i] <= a < sends[i] + delay
    {
      var i := if a == late then n - 1 else 0;
      assert sends[i] == i * (timeout + lag);
    }
    assert Delivered(sends, arrived, delay);
  }

  /** With punctual timers and copies faster than one timeout, a receiver window
      equal to the total timeout suppresses all duplicates exactly when the total
      timeout is a positive multiple of the timeout. */
  lemma EqualWindow(timeout: nat, totalTimeout: nat)
    requires timeout > 0
    ensures Suppresses(timeout, totalTimeout, totalTimeout, 0, timeout) <==> totalTimeout > 0 && totalTimeout % timeout == 0
  {
    hide Suppresses;
    var n := RS.Copies(timeout, totalTimeout);
    SuppressesIff(timeout, totalTimeout, totalTimeout, 0, timeout);
    assert (n - 1) * (timeout + 0) + timeout == n * timeout;
    WholeCopies(timeout, totalTimeout);
  }

  /** The copies take no longer than the total timeout exactly for positive multiples. */
  lemma WholeCopies(timeout: nat, totalTimeout: nat)
    requires timeout > 0
    ensures RS.Copies(timeout, totalTimeout) * timeout <= totalTimeout <==> totalTimeout > 0 && totalTimeout % timeout == 0
  {
    var n := RS.Copies(timeout, totalTimeout);
    RS.CopiesCovers(timeout, totalTimeout);
    if totalTimeout > 0 && totalTimeout % timeout == 0 {
      var k := totalTimeout / timeout;
      assert k * timeout == totalTimeout;
      RS.MoreCopies(timeout, totalTimeout, k);
      Sums.Monotone(n, k, timeout);
    } else if n * timeout == totalTimeout {
      Multiple(n, timeout);
    } else {
      Sums.Monotone(1, n, timeout);
    }
  }

  lemma Multiple(n: nat, timeout: nat)
    requires timeout > 0
    ensures (n * timeout) % timeout == 0
  {
    var q, r := (n * timeout) / timeout, (n * timeout) % timeout;
    assert r == (n - q) * timeout;
    if n > q {
      Sums.Monotone(1, n - q, timeout);
    } else {
      Sums.Monotone(n - q, 0, timeout);
    }
  }

  /** The deployed settings: every minute for ten minutes. */
  lemma DeployedSettings()
    ensures RS.Copies(60000, MQ_SEND_TOTAL_TIMEOUT) == 10
    ensures Suppresses(60000, MQ_SEND_TOTAL_TIMEOUT, MQ_SEND_TOTAL_TIMEOUT, 0, 60000)
  {
    EqualWindow(60000, MQ_SEND_TOTAL_TIMEOUT);
  }

  // ------------------------------------------------ the code as it is run

  class Inbound {
    const window: nat
    var timer: map<Id, int>
    ghost var now: int
    ghost var arrived: map<Id, seq<int>>
    ghost var accepted: map<Id, seq<int>>

    ghost function View(): Receiver
      reads this
    {
      Receiver(now, timer, arrived, accepted)
    }

    constructor (now: int)
      ensures window == MQ_SEND_TOTAL_TIMEOUT && View() == Receiver(now, map[], map[], map[])
    {
      window, timer := MQ_SEND_TOTAL_TIMEOUT, map[];
      this.now, arrived, accepted := now, map[], map[];
    }

    /** The start of onMessage at time timestamp; accept tells whether the message
        is handed on. */
    method Receive(senderId: string, msgId: string, timestamp: int) returns (accept: bool)
      requires timestamp == now
      modifies this
      ensures View() == OnMessage(old(View()), window, senderId + ":" + msgId)
      ensures accept <==> senderId + ":" + msgId !in old(timer)
    {
      var id := senderId + ":" + msgId;
      accept := id !in timer;
      arrived := arrived[id := At(arrived, id) + [timestamp]];
      if accept {
        timer := timer[id := timestamp + window];
        accepted := accepted[id := At(accepted, id) + [timestamp]];
      }
    }

    method TimeoutFires(id: Id)
      requires Enabled(View(), Expire(id))
      modifies this`timer
      ensures View() == Step(old(View()), window, Expire(id))
    {
      timer := timer - {id};
    }
  }

  /** Node ids without ':' keep the messages of different senders apart. */
  lemma IdsAreDistinct(s1: string, m1: string, s2: string, m2: string)
    requires ':' !in s1 && ':' !in s2 && s1 + ":" + m1 == s2 + ":" + m2
    ensures s1 == s2 && m1 == m2
  {
    FirstColon(s1, m1);
    FirstColon(s2, m2);
    var id := s1 + ":" + m1;
    assert |s1| == |s2|;
    assert s1 == id[..|s1|] && s2 == id[..|s1|];
    assert m1 == id[|s1|+1..] && m2 == id[|s1|+1..];
  }

  lemma FirstColon(s: string, m: string)
    requires ':' !in s
    ensures var id := s + ":" + m; id[|s|] == ':' && forall i | 0 <= i < |s| :: id[i] != ':'
  {
  }
}
