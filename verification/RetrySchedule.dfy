/** How often and when mq_module/mq_logic.js sends one message that nobody
    acknowledges, while other messages come and go. Timers never fire early and at
    most lag late. */
module RetrySchedule {
  import ML = MqLogic
  import Lists
  import Sums

  datatype Timed = Timed(logic: ML.Logic, now: int)

  datatype Event =
    | Tick(to: int)
    | Fire(seqId: ML.SeqId)
    | Send(dest: ML.Dest, payload: ML.Payload, msgId: ML.MsgId)
    | Cancel(msgId: ML.MsgId)

  predicate Enabled(t: Timed, lag: nat, e: Event) {
    match e
    case Tick(to) => t.now <= to && forall q :: q in t.logic.timers ==> to <= t.logic.timers[q].due + lag
    case Fire(q) => t.logic.timeout > 0 && q in t.logic.timers && t.logic.timers[q].due <= t.now
    case _ => true
  }

  function Step(t: Timed, lag: nat, e: Event): Timed
    requires Enabled(t, lag, e)
  {
    match e
    case Tick(to) => t.(now := to)
    case Fire(q) => t.(logic := ML.Fire(t.logic, t.now, q))
    case Send(dest, payload, m) => t.(logic := ML.PerformSend(t.logic, t.now, dest, payload, m, 0))
    case Cancel(m) => t.(logic := ML.CleanUp(t.logic, m))
  }

  /** Time is never blocked: a timer is due, or the clock may advance. */
  lemma NeverBlocked(t: Timed, lag: nat)
    requires t.logic.timeout > 0
    ensures Enabled(t, lag, Tick(t.now + 1)) || exists q :: Enabled(t, lag, Fire(q))
  {
    if !Enabled(t, lag, Tick(t.now + 1)) {
      var q :| q in t.logic.timers && t.now + 1 > t.logic.timers[q].due + lag;
      assert Enabled(t, lag, Fire(q));
    }
  }

  /** The timers that are due now. */
  function Due(t: Timed): set<ML.SeqId> {
    set q | q in t.logic.timers && t.logic.timers[q].due <= t.now
  }

  /** Timers cannot fire for ever at one instant: each one that fires leaves fewer due,
      as a resent copy's timer is due a timeout later. */
  lemma FiringShrinksDue(t: Timed, lag: nat, q: ML.SeqId)
    requires ML.Inv(t.logic) && Enabled(t, lag, Fire(q))
    ensures |Due(Step(t, lag, Fire(q)))| < |Due(t)|
  {
    ML.FireInv(t.logic, t.now, q);
    var t' := Step(t, lag, Fire(q));
    assert Due(t') <= Due(t) - {q};
    Lists.SubsetSize(Due(t'), Due(t) - {q});
  }

  /** The number of copies: totalTimeout / timeout rounded up, and never less than one. */
  function Copies(timeout: nat, totalTimeout: int): (n: nat)
    requires timeout > 0
    ensures n >= 1
  {
    if totalTimeout <= timeout then 1 else (totalTimeout + timeout - 1) / timeout
  }

  /** Copies is the least positive number of timeouts that covers totalTimeout. */
  lemma CopiesCovers(timeout: nat, totalTimeout: int)
    requires timeout > 0
    ensures var n := Copies(timeout, totalTimeout); n * timeout >= totalTimeout && (n == 1 || (n - 1) * timeout < totalTimeout)
  {
    if totalTimeout > timeout {
      var x := totalTimeout + timeout - 1;
      var n := x / timeout;
      assert x == n * timeout + x % timeout;
      assert (n - 1) * timeout == n * timeout - timeout;
    }
  }

  lemma MoreCopies(timeout: nat, totalTimeout: int, k: nat)
    requires timeout > 0 && k >= 1
    ensures k < Copies(timeout, totalTimeout) <==> k * timeout < totalTimeout
  {
    var n := Copies(timeout, totalTimeout);
    CopiesCovers(timeout, totalTimeout);
    if k < n {
      Sums.Monotone(k, n - 1, timeout);
    } else {
      Sums.Monotone(n, k, timeout);
    }
  }

  /** retryCount >= maxRetries, the test of _retry, compares with the fraction. */
  lemma RetryTest(l: ML.Logic, k: nat)
    requires l.timeout > 0 && k >= 1
    ensures k as real >= ML.MaxRetries(l) <==> k >= Copies(l.timeout, l.totalTimeout)
  {
    MoreCopies(l.timeout, l.totalTimeout, k);
    Ratio(l.totalTimeout as real, l.timeout as real, k as real);
    assert k as real * l.timeout as real == (k * l.timeout) as real;
  }

  lemma Ratio(x: real, y: real, k: real)
    requires y > 0.0
    ensures k >= x / y <==> k * y >= x
  {
    var z := x / y;
    assert z * y == x;
    if k >= z {
      assert (k - z) * y >= 0.0;
    } else {
      assert (z - k) * y > 0.0;
    }
  }

  // ------------------------------------------- one message among the others

  /** The copies went out a timeout apart, each up to lag late. */
  ghost predicate Spaced(sends: seq<int>, t0: int, timeout: nat, lag: nat) {
    forall i | 0 <= i < |sends| :: t0 + i * timeout <= sends[i] <= t0 + i * (timeout + lag)
  }

  /** Copies are out, q is the last one and its timer is armed. */
  ghost predicate Live(t: Timed, m: ML.MsgId, lag: nat, q: ML.SeqId) {
    var l := t.logic;
    var sends := ML.At(l.sends, m);
    && sends != [] && ML.At(l.expired, m) == []
    && q in l.entries && q in l.timers && l.entries[q] == m
    && (forall x :: x in l.timers && l.timers[x].msgId == m ==> x == q)
    && l.timers[q].retryCount == |sends|
    && l.timers[q].due == sends[|sends|-1] + l.timeout
    && t.now <= l.timers[q].due + lag
  }

  ghost predicate Silent(l: ML.Logic, m: ML.MsgId) {
    && (forall q :: q in l.entries ==> l.entries[q] != m)
    && (forall q :: q in l.timers ==> l.timers[q].msgId != m)
  }

  ghost predicate Done(l: ML.Logic, m: ML.MsgId, lag: nat) {
    l.timeout > 0 &&
    var sends, expired := ML.At(l.sends, m), ML.At(l.expired, m);
    Silent(l, m)
    && |sends| == Copies(l.timeout, l.totalTimeout)
    && |expired| == 1
    && sends[|sends|-1] + l.timeout <= expired[0] <= sends[|sends|-1] + l.timeout + lag
  }

  ghost predicate OnSchedule(t: Timed, m: ML.MsgId, t0: int, lag: nat) {
    && ML.Inv(t.logic)
    && Spaced(ML.At(t.logic.sends, m), t0, t.logic.timeout, lag)
    && |ML.At(t.logic.sends, m)| <= Copies(t.logic.timeout, t.logic.totalTimeout)
    && (Done(t.logic, m, lag) || exists q :: Live(t, m, lag, q))
  }

  /** Every step but a send or a cancel of m. */
  ghost predicate Next(t: Timed, t': Timed, lag: nat, m: ML.MsgId) {
    exists e :: Enabled(t, lag, e) && !(e.Send? && e.msgId == m) && !(e.Cancel? && e.msgId == m) && t' == Step(t, lag, e)
  }

  /** t' begins a run in which the new message m is handed to send at time t0. */
  ghost predicate Begins(t: Timed, m: ML.MsgId, t0: int) {
    t.logic.timeout > 0 && exists l: ML.Logic, dest, payload ::
      && ML.Inv(l) && Silent(l, m) && ML.At(l.sends, m) == [] && ML.At(l.expired, m) == []
      && t == Timed(ML.PerformSend(l, t0, dest, payload, m, 0), t0)
  }

  lemma BeginsOnSchedule(t: Timed, m: ML.MsgId, t0: int, lag: nat)
    requires Begins(t, m, t0)
    ensures OnSchedule(t, m, t0, lag)
  {
    var l: ML.Logic, dest, payload :|
      && ML.Inv(l) && Silent(l, m) && ML.At(l.sends, m) == [] && ML.At(l.expired, m) == []
      && t == Timed(ML.PerformSend(l, t0, dest, payload, m, 0), t0);
    ML.PerformSendInv(l, t0, dest, payload, m, 0);
    assert ML.At(t.logic.sends, m) == [t0];
    assert Live(t, m, lag, l.maxSeqId + 1);
  }

  /** The timers of other messages leave m alone. */
  lemma FireOther(t: Timed, lag: nat, m: ML.MsgId, q: ML.SeqId, x: ML.SeqId)
    requires ML.Inv(t.logic) && Enabled(t, lag, Fire(x)) && Live(t, m, lag, q) && x != q
    ensures Live(t.(logic := ML.Fire(t.logic, t.now, x)), m, lag, q)
  {
    assert t.logic.timers[x].msgId != m;
  }

  lemma SpacedGrows(sends: seq<int>, t0: int, timeout: nat, lag: nat, now: int)
    requires Spaced(sends, t0, timeout, lag) && sends != []
    requires sends[|sends|-1] + timeout <= now <= sends[|sends|-1] + timeout + lag
    ensures Spaced(sends + [now], t0, timeout, lag)
  {
    var k := |sends|;
    assert (k - 1) * timeout + timeout == k * timeout;
    assert (k - 1) * (timeout + lag) + (timeout + lag) == k * (timeout + lag);
  }

  lemma FireOwn(t: Timed, lag: nat, m: ML.MsgId, t0: int, q: ML.SeqId)
    requires OnSchedule(t, m, t0, lag) && Enabled(t, lag, Fire(q)) && Live(t, m, lag, q)
    ensures OnSchedule(t.(logic := ML.Fire(t.logic, t.now, q)), m, t0, lag)
  {
    var l, t' := t.logic, t.(logic := ML.Fire(t.logic, t.now, q));
    var sends := ML.At(l.sends, m);
    ML.FireInv(l, t.now, q);
    RetryTest(l, |sends|);
    if ML.Expires(l, q) {
      assert ML.At(t'.logic.expired, m) == [t.now];
      assert Done(t'.logic, m, lag);
    } else {
      SpacedGrows(sends, t0, l.timeout, lag, t.now);
      assert ML.At(t'.logic.sends, m) == sends + [t.now];
      assert Live(t', m, lag, l.maxSeqId + 1);
    }
  }

  lemma FireDone(t: Timed, lag: nat, m: ML.MsgId, x: ML.SeqId)
    requires ML.Inv(t.logic) && Enabled(t, lag, Fire(x)) && Done(t.logic, m, lag)
    ensures Done(ML.Fire(t.logic, t.now, x), m, lag)
  {
    assert t.logic.timers[x].msgId != m;
  }

  lemma FireUnchanged(t: Timed, lag: nat, m: ML.MsgId, x: ML.SeqId)
    requires Enabled(t, lag, Fire(x)) && t.logic.timers[x].msgId != m
    ensures ML.At(ML.Fire(t.logic, t.now, x).sends, m) == ML.At(t.logic.sends, m)
    ensures ML.Fire(t.logic, t.now, x).timeout == t.logic.timeout
    ensures ML.Fire(t.logic, t.now, x).totalTimeout == t.logic.totalTimeout
  {
  }

  lemma FireOnSchedule(t: Timed, lag: nat, m: ML.MsgId, t0: int, x: ML.SeqId)
    requires OnSchedule(t, m, t0, lag) && Enabled(t, lag, Fire(x))
    ensures OnSchedule(t.(logic := ML.Fire(t.logic, t.now, x)), m, t0, lag)
  {
    if Done(t.logic, m, lag) {
      ML.FireInv(t.logic, t.now, x);
      FireDone(t, lag, m, x);
      FireUnchanged(t, lag, m, x);
    } else {
      var q :| Live(t, m, lag, q);
      if x == q {
        FireOwn(t, lag, m, t0, q);
      } else {
        ML.FireInv(t.logic, t.now, x);
        FireOther(t, lag, m, q, x);
        FireUnchanged(t, lag, m, x);
      }
    }
  }

  /** Sends and cancels of other messages. */
  lemma OthersOnSchedule(t: Timed, lag: nat, m: ML.MsgId, t0: int, e: Event)
    requires OnSchedule(t, m, t0, lag) && (e.Send? || e.Cancel?) && e.msgId != m
    ensures OnSchedule(Step(t, lag, e), m, t0, lag)
  {
    var t' := Step(t, lag, e);
    assert ML.At(t'.logic.sends, m) == ML.At(t.logic.sends, m);
    if !Done(t.logic, m, lag) {
      var q :| Live(t, m, lag, q);
      assert Live(t', m, lag, q);
    }
  }

  lemma NextOnSchedule(t: Timed, t': Timed, lag: nat, m: ML.MsgId, t0: int)
    requires OnSchedule(t, m, t0, lag) && Next(t, t', lag, m)
    ensures OnSchedule(t', m, t0, lag)
    ensures t'.logic.timeout == t.logic.timeout && t'.logic.totalTimeout == t.logic.totalTimeout
  {
    var e :| Enabled(t, lag, e) && !(e.Send? && e.msgId == m) && !(e.Cancel? && e.msgId == m) && t' == Step(t, lag, e);
    match e {
      case Tick(to) =>
        if !Done(t.logic, m, lag) {
          var q :| Live(t, m, lag, q);
          assert Live(t', m, lag, q);
        }
      case Fire(x) => FireOnSchedule(t, lag, m, t0, x);
      case _ => OthersOnSchedule(t, lag, m, t0, e);
    }
  }

  ghost predicate IsRun(run: seq<Timed>, m: ML.MsgId, t0: int, lag: nat) {
    && run != [] && Begins(run[0], m, t0)
    && forall i | 0 < i < |run| :: Next(run[i-1], run[i], lag, m)
  }

  lemma {:induction false} RunOnSchedule(run: seq<Timed>, m: ML.MsgId, t0: int, lag: nat, n: nat)
    requires IsRun(run, m, t0, lag) && n < |run|
    ensures OnSchedule(run[n], m, t0, lag)
    ensures run[n].logic.timeout == run[0].logic.timeout && run[n].logic.totalTimeout == run[0].logic.totalTimeout
  {
    if n == 0 {
      BeginsOnSchedule(run[0], m, t0, lag);
    } else {
      RunOnSchedule(run, m, t0, lag, n - 1);
      NextOnSchedule(run[n-1], run[n], lag, m, t0);
    }
  }

  /** At any moment of any run at most Copies copies are out, copy i at t0 plus i
      timeouts and at most i lags; the message is given up at most once, and then
      all copies are out and no entry or timer of it is left. */
  lemma NeverTooMany(run: seq<Timed>, m: ML.MsgId, t0: int, lag: nat, n: nat)
    requires IsRun(run, m, t0, lag) && n < |run|
    ensures var l := run[n].logic; var copies := Copies(run[0].logic.timeout, run[0].logic.totalTimeout);
            && Spaced(ML.At(l.sends, m), t0, l.timeout, lag)
            && 1 <= |ML.At(l.sends, m)| <= copies
            && |ML.At(l.expired, m)| <= 1
            && (|ML.At(l.expired, m)| == 1 ==> Silent(l, m) && |ML.At(l.sends, m)| == copies)
  {
    RunOnSchedule(run, m, t0, lag, n);
  }

  /** Once the clock has passed the latest time allowed, all copies have gone out
      and the total timeout has been reported. */
  lemma GivesUpInTime(run: seq<Timed>, m: ML.MsgId, t0: int, lag: nat, n: nat)
    requires IsRun(run, m, t0, lag) && n < |run|
    requires var l := run[0].logic; run[n].now > t0 + Copies(l.timeout, l.totalTimeout) * (l.timeout + lag)
    ensures Done(run[n].logic, m, lag)
  {
    RunOnSchedule(run, m, t0, lag, n);
    var l := run[n].logic;
    if !Done(l, m, lag) {
      var q :| Live(run[n], m, lag, q);
      var k := |ML.At(l.sends, m)|;
      assert run[n].now <= t0 + (k - 1) * (l.timeout + lag) + (l.timeout + lag);
      assert (k - 1) * (l.timeout + lag) + (l.timeout + lag) == k * (l.timeout + lag);
      Sums.Monotone(k, Copies(l.timeout, l.totalTimeout), l.timeout + lag);
      assert false;
    }
  }

  /** With punctual timers: sends at t0 and every timeout after, then one report. */
  lemma PunctualSchedule(run: seq<Timed>, m: ML.MsgId, t0: int, n: nat)
    requires IsRun(run, m, t0, 0) && n < |run| && ML.At(run[n].logic.expired, m) != []
    ensures var timeout := run[0].logic.timeout; var copies := Copies(timeout, run[0].logic.totalTimeout);
            && ML.At(run[n].logic.sends, m) == seq(copies, i => t0 + i * timeout)
            && ML.At(run[n].logic.expired, m) == [t0 + copies * timeout]
  {
    RunOnSchedule(run, m, t0, 0, n);
    var timeout := run[0].logic.timeout; var copies := Copies(timeout, run[0].logic.totalTimeout);
    assert (copies - 1) * timeout + timeout == copies * timeout;
  }

  // ------------------------------------------------------- time goes on

  lemma Extend(run: seq<Timed>, m: ML.MsgId, t0: int, lag: nat, e: Event) returns (run': seq<Timed>)
    requires IsRun(run, m, t0, lag) && Enabled(run[|run|-1], lag, e) && (e.Tick? || e.Fire?)
    ensures IsRun(run', m, t0, lag) && run <= run' && run'[|run'|-1] == Step(run[|run|-1], lag, e)
  {
    run' := run + [Step(run[|run|-1], lag, e)];
    assert Next(run[|run|-1], Step(run[|run|-1], lag, e), lag, m);
  }

  /** Every run can go on until any given time. */
  lemma {:induction false} ReachesTime(run: seq<Timed>, m: ML.MsgId, t0: int, lag: nat, time: int)
    returns (run': seq<Timed>)
    requires IsRun(run, m, t0, lag)
    ensures IsRun(run', m, t0, lag) && run <= run' && run'[|run'|-1].now >= time
    decreases time - run[|run|-1].now, |Due(run[|run|-1])|
  {
    var t := run[|run|-1];
    RunOnSchedule(run, m, t0, lag, |run| - 1);
    if t.now >= time {
      run' := run;
    } else if Enabled(t, lag, Tick(t.now + 1)) {
      run' := Extend(run, m, t0, lag, Tick(t.now + 1));
      run' := ReachesTime(run', m, t0, lag, time);
    } else {
      NeverBlocked(t, lag);
      var q :| Enabled(t, lag, Fire(q));
      FiringShrinksDue(t, lag, q);
      run' := Extend(run, m, t0, lag, Fire(q));
      run' := ReachesTime(run', m, t0, lag, time);
    }
  }

  /** Every run can go on until its message is given up. */
  lemma GivesUp(run: seq<Timed>, m: ML.MsgId, t0: int, lag: nat) returns (run': seq<Timed>)
    requires IsRun(run, m, t0, lag)
    ensures IsRun(run', m, t0, lag) && run <= run' && Done(run'[|run'|-1].logic, m, lag)
  {
    var l := run[0].logic;
    run' := ReachesTime(run, m, t0, lag, t0 + Copies(l.timeout, l.totalTimeout) * (l.timeout + lag) + 1);
    GivesUpInTime(run', m, t0, lag, |run'| - 1);
  }
}
