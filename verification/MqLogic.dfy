/** Timers and retries of mq_module/mq_logic.js. A timer carries the time it is
    due; the clock of the caller decides when it fires. */
module MqLogic {
  type SeqId = nat
  type MsgId = string
  type Dest = string
  type Payload = string

  datatype Packet = Packet(dest: Dest, payload: Payload)

  datatype Timer = Timer(dest: Dest, payload: Payload, msgId: MsgId, retryCount: nat, due: int)

  datatype Logic = Logic(
    timeout: nat,
    totalTimeout: int,
    maxSeqId: nat,
    entries: map<SeqId, MsgId>,    // seqMap
    timers: map<SeqId, Timer>,     // setTimeout calls pending, by the copy that set them
    // history
    sends: map<MsgId, seq<int>>,   // when each message was sent
    packets: map<MsgId, seq<Packet>>,  // and where to, and what
    expired: map<MsgId, seq<int>>) // when PerformTotalTimeout was emitted

  function At<V>(m: map<MsgId, seq<V>>, k: MsgId): seq<V> {
    if k in m then m[k] else []
  }

  /** maxRetries = totalTimeout / timeout, a fraction. */
  function MaxRetries(l: Logic): real
    requires l.timeout > 0
  {
    l.totalTimeout as real / l.timeout as real
  }

  function PerformSend(l: Logic, now: int, dest: Dest, payload: Payload, msgId: MsgId, retryCount: nat): Logic {
    var q := l.maxSeqId + 1;
    l.(maxSeqId := q,
       timers := l.timers[q := Timer(dest, payload, msgId, retryCount + 1, now + l.timeout)],
       entries := l.entries[q := msgId],
       sends := l.sends[msgId := At(l.sends, msgId) + [now]],
       packets := l.packets[msgId := At(l.packets, msgId) + [Packet(dest, payload)]])
  }

  function CleanUp(l: Logic, msgId: MsgId): Logic {
    l.(entries := map q | q in l.entries && l.entries[q] != msgId :: l.entries[q],
       timers := map q | q in l.timers && !(q in l.entries && l.entries[q] == msgId) :: l.timers[q])
  }

  /** _retry, run when the timer of copy q goes off. */
  function Fire(l0: Logic, now: int, q: SeqId): Logic
    requires l0.timeout > 0 && q in l0.timers
  {
    var t := l0.timers[q];
    var l := l0.(timers := l0.timers - {q});
    if q !in l.entries then l
    else if t.retryCount as real >= MaxRetries(l) then
      CleanUp(l, t.msgId).(expired := l.expired[t.msgId := At(l.expired, t.msgId) + [now]])
    else PerformSend(l, now, t.dest, t.payload, t.msgId, t.retryCount)
  }

  predicate Expires(l: Logic, q: SeqId)
    requires l.timeout > 0 && q in l.timers
  {
    q in l.entries && l.timers[q].retryCount as real >= MaxRetries(l)
  }

  predicate Resends(l: Logic, q: SeqId)
    requires l.timeout > 0 && q in l.timers
  {
    q in l.entries && !(l.timers[q].retryCount as real >= MaxRetries(l))
  }

  // ------------------------------------------------------------- invariant

  ghost predicate Inv(l: Logic) {
    && l.timeout > 0
    && (forall q :: q in l.entries ==> q <= l.maxSeqId)
    && (forall q :: q in l.timers ==> q in l.entries && l.timers[q].msgId == l.entries[q])
  }

  lemma PerformSendInv(l: Logic, now: int, dest: Dest, payload: Payload, msgId: MsgId, retryCount: nat)
    requires Inv(l)
    ensures Inv(PerformSend(l, now, dest, payload, msgId, retryCount))
    ensures l.maxSeqId + 1 !in l.entries
  {
  }

  lemma CleanUpInv(l: Logic, msgId: MsgId)
    requires Inv(l)
    ensures Inv(CleanUp(l, msgId))
    ensures forall q :: q in CleanUp(l, msgId).timers ==> CleanUp(l, msgId).timers[q].msgId != msgId
  {
  }

  lemma FireInv(l: Logic, now: int, q: SeqId)
    requires Inv(l) && q in l.timers
    ensures Inv(Fire(l, now, q))
    ensures Expires(l, q) || Resends(l, q)
  {
    var l' := l.(timers := l.timers - {q});
    assert Inv(l');
  }

  // ------------------------------------------------ the code as it is run

  class Retrier {
    const timeout: nat
    const totalTimeout: int
    const maxRetries: real
    var maxSeqId: nat
    var seqMap: map<SeqId, MsgId>
    var timers: map<SeqId, Timer>
    ghost var sends: map<MsgId, seq<int>>
    ghost var packets: map<MsgId, seq<Packet>>
    ghost var expired: map<MsgId, seq<int>>

    ghost function View(): Logic
      reads this
    {
      Logic(timeout, totalTimeout, maxSeqId, seqMap, timers, sends, packets, expired)
    }

    ghost predicate Valid()
      reads this
    {
      Inv(View()) && maxRetries == MaxRetries(View())
    }

    /** Zero stands for a missing setting; the defaults then apply. */
    constructor (configTotalTimeout: int, configTimeout: nat)
      ensures Valid() && View() == Logic(timeout, totalTimeout, 0, map[], map[], map[], map[], map[])
      ensures timeout == (if configTimeout == 0 then 30000 else configTimeout)
      ensures totalTimeout == if configTotalTimeout == 0 then 120000 else configTotalTimeout
    {
      var total := if configTotalTimeout == 0 then 120000 else configTotalTimeout;
      var each: nat := if configTimeout == 0 then 30000 else configTimeout;
      totalTimeout, timeout := total, each;
      maxRetries := total as real / each as real;
      maxSeqId, seqMap, timers := 0, map[], map[];
      sends, packets, expired := map[], map[], map[];
    }

    method PerformSendNow(now: int, dest: Dest, payload: Payload, msgId: MsgId, retryCount: nat) returns (seqId: SeqId)
      requires Valid()
      modifies this`maxSeqId, this`timers, this`seqMap, this`sends, this`packets
      ensures Valid() && View() == PerformSend(old(View()), now, dest, payload, msgId, retryCount)
      ensures seqId == maxSeqId == old(maxSeqId) + 1 && seqId !in old(seqMap)
    {
      hide Inv;
      PerformSendInv(View(), now, dest, payload, msgId, retryCount);
      maxSeqId := maxSeqId + 1;
      seqId := maxSeqId;
      timers := timers[seqId := Timer(dest, payload, msgId, retryCount + 1, now + timeout)];
      seqMap := seqMap[seqId := msgId];
      sends := sends[msgId := At(sends, msgId) + [now]];
      packets := packets[msgId := At(packets, msgId) + [Packet(dest, payload)]];
    }

    /** The first loop of _cleanUp: disarm the timers of the message's copies and
        collect them; PerformCleanUp is emitted for each. */
    method Disarm(msgId: MsgId) returns (released: set<SeqId>)
      modifies this`timers
      ensures forall q :: q in released <==> q in seqMap && seqMap[q] == msgId
      ensures timers == old(timers) - released
    {
      var rest := seqMap.Keys;
      released := {};
      while rest != {}
        invariant rest <= seqMap.Keys
        invariant forall q :: q in released <==> q in seqMap && q !in rest && seqMap[q] == msgId
        invariant timers == old(timers) - released
        decreases |rest|
      {
        var key :| key in rest;
        if seqMap[key] == msgId {
          timers := timers - {key};
          released := released + {key};
        }
        rest := rest - {key};
      }
    }

    /** _cleanUp. */
    method CleanUpMessage(msgId: MsgId) returns (released: set<SeqId>)
      modifies this`timers, this`seqMap
      ensures View() == CleanUp(old(View()), msgId)
      ensures forall q :: q in released <==> q in old(seqMap) && old(seqMap)[q] == msgId
    {
      ghost var after := CleanUp(View(), msgId);
      released := Disarm(msgId);
      seqMap := seqMap - released;
      assert seqMap == after.entries;
      assert timers == after.timers;
    }

    /** _retry, when the timer of copy seqId goes off: gaveUp tells that the message
        is given up, sent names the copy that is sent again. */
    method Retry(now: int, seqId: SeqId) returns (gaveUp: bool, sent: seq<SeqId>)
      requires Valid() && seqId in timers
      modifies this
      ensures Valid() && View() == Fire(old(View()), now, seqId)
      ensures gaveUp <==> Expires(old(View()), seqId)
      ensures sent == if gaveUp then [] else [old(maxSeqId) + 1]
    {
      FireInv(View(), now, seqId);
      var t := timers[seqId];
      timers := timers - {seqId};
      gaveUp, sent := false, [];
      if seqId in seqMap {
        if t.retryCount as real >= maxRetries {
          var _ := CleanUpMessage(t.msgId);
          expired := expired[t.msgId := At(expired, t.msgId) + [now]];
          gaveUp := true;
        } else {
          var next := PerformSendNow(now, t.dest, t.payload, t.msgId, t.retryCount);
          sent := [next];
        }
      }
    }
  }
}
