/** The socket pool of mq_module/mq_send_socket.js: outgoing copies of messages
    share sockets, at most Max per socket, tracked by five tables. */
module MqSendSocket {
  import opened Wrappers
  import opened Lists

  type SeqId = nat
  type MsgId = string
  type SocketId = string
  type Dest = string  // ip:port
  type Payload = string

  datatype Pool = Pool(
    max: nat,                                   // maxConcurrentMessagesPerMqSocket
    socketMap: map<SeqId, SocketId>,
    usedBy: map<SocketId, seq<SeqId>>,          // socketUsedBy
    destOf: map<SocketId, Dest>,                // socketDestMap
    byDest: map<Dest, seq<SocketId>>,           // socketListByDest
    seqIdList: map<MsgId, seq<SeqId>>,
    count: int,
    // history
    msgOf: map<SeqId, MsgId>,                   // the message of each copy in flight
    wire: map<SeqId, Payload>,                  // what was written for each copy ever sent
    peak: map<Dest, nat>)                       // most copies ever in flight at once

  function At<K, V>(m: map<K, seq<V>>, k: K): seq<V> {
    if k in m then m[k] else []
  }

  /** The first socket of the list with room for one more copy. */
  function FirstFit(max: nat, usedBy: map<SocketId, seq<SeqId>>, list: seq<SocketId>): (r: Option<SocketId>)
    ensures r.Some? ==> r.value in list && r.value in usedBy && |usedBy[r.value]| < max
    ensures r.None? ==> forall s :: s in list && s in usedBy ==> |usedBy[s]| >= max
  {
    if list == [] then None
    else if list[0] in usedBy && |usedBy[list[0]]| < max then Some(list[0])
    else FirstFit(max, usedBy, list[1..])
  }

  /** The sockets before the one taken have no room. */
  lemma {:induction false} FirstFitIsFirst(max: nat, usedBy: map<SocketId, seq<SeqId>>, list: seq<SocketId>) returns (i: nat)
    requires FirstFit(max, usedBy, list).Some?
    ensures i < |list| && list[i] == FirstFit(max, usedBy, list).value
    ensures forall j | 0 <= j < i :: list[j] in usedBy ==> |usedBy[list[j]]| >= max
  {
    i := 0;
    if !(list[0] in usedBy && |usedBy[list[0]]| < max) {
      var k := FirstFitIsFirst(max, usedBy, list[1..]);
      i := k + 1;
      forall j | 0 <= j < i ensures list[j] in usedBy ==> |usedBy[list[j]]| >= max {
        assert j > 0 ==> list[j] == list[1..][j-1];
      }
    }
  }

  /** Copies in flight to one destination. */
  ghost function Users(list: seq<SocketId>, usedBy: map<SocketId, seq<SeqId>>): nat {
    if list == [] then 0
    else Users(list[..|list|-1], usedBy) + |At(usedBy, list[|list|-1])|
  }

  ghost function InFlight(p: Pool, d: Dest): nat {
    Users(At(p.byDest, d), p.usedBy)
  }

  ghost function PeakAt(p: Pool, d: Dest): nat {
    if d in p.peak then p.peak[d] else 0
  }

  function Assign(p: Pool, s: SocketId, q: SeqId): Pool {
    p.(usedBy := p.usedBy[s := At(p.usedBy, s) + [q]], socketMap := p.socketMap[q := s])
  }

  function Open(p: Pool, d: Dest, s: SocketId): Pool {
    p.(destOf := p.destOf[s := d], count := p.count + 1, byDest := p.byDest[d := At(p.byDest, d) + [s]])
  }

  /** What send does to the tables; newId is the id a new socket would get. */
  function Place(p: Pool, d: Dest, q: SeqId, newId: SocketId): Pool {
    match FirstFit(p.max, p.usedBy, At(p.byDest, d))
    case Some(s) => Assign(p, s, q)
    case None => Assign(Open(p, d, newId), newId, q)
  }

  ghost function Send(p: Pool, d: Dest, payload: Payload, m: MsgId, q: SeqId, newId: SocketId): Pool {
    var p' := Place(p, d, q, newId).(seqIdList := p.seqIdList[m := At(p.seqIdList, m) + [q]], msgOf := p.msgOf[q := m],
                                         wire := p.wire[q := payload]);
    p'.(peak := p.peak[d := if PeakAt(p, d) < InFlight(p', d) then InFlight(p', d) else PeakAt(p, d)])
  }

  function Close(p: Pool, s: SocketId): Pool
    requires s in p.destOf
  {
    var d := p.destOf[s];
    var list := Without(At(p.byDest, d), s);
    p.(count := p.count - 1, usedBy := p.usedBy - {s}, destOf := p.destOf - {s},
       byDest := if list == [] then p.byDest - {d} else p.byDest[d := list])
  }

  /** _cleanUp of one copy. A copy the tables do not know would be a TypeError; it
      never comes to that (ReleaseFindsEverything). */
  function Release(p: Pool, q: SeqId): Pool {
    if q !in p.socketMap || p.socketMap[q] !in p.destOf then p
    else
      var s := p.socketMap[q];
      var users := Without(At(p.usedBy, s), q);
      var p' := if users == [] then Close(p, s) else p.(usedBy := p.usedBy[s := users]);
      p'.(socketMap := p.socketMap - {q})
  }

  // ------------------------------------------------------------- invariant

  ghost predicate UserOk(max: nat, socketMap: map<SeqId, SocketId>, s: SocketId, users: seq<SeqId>) {
    1 <= |users| <= max && NoDup(users) && forall q :: q in users ==> q in socketMap && socketMap[q] == s
  }

  /** socketMap and socketUsedBy are inverse relations, and every open socket has
      between one and max users. */
  ghost predicate UsersInv(max: nat, socketMap: map<SeqId, SocketId>, usedBy: map<SocketId, seq<SeqId>>) {
    && (forall q :: q in socketMap ==> socketMap[q] in usedBy && q in usedBy[socketMap[q]])
    && (forall s :: s in usedBy ==> UserOk(max, socketMap, s, usedBy[s]))
  }

  ghost predicate DestOk(destOf: map<SocketId, Dest>, d: Dest, list: seq<SocketId>) {
    list != [] && NoDup(list) && forall s :: s in list ==> s in destOf && destOf[s] == d
  }

  /** socketDestMap and socketListByDest describe one partition of the open sockets. */
  ghost predicate DestsInv(destOf: map<SocketId, Dest>, byDest: map<Dest, seq<SocketId>>) {
    && (forall s :: s in destOf ==> destOf[s] in byDest && s in byDest[destOf[s]])
    && (forall d :: d in byDest ==> DestOk(destOf, d, byDest[d]))
  }

  ghost predicate TablesInv(p: Pool) {
    && 1 <= p.max
    && UsersInv(p.max, p.socketMap, p.usedBy)
    && DestsInv(p.destOf, p.byDest)
    && p.destOf.Keys == p.usedBy.Keys
    && p.count == |p.usedBy|
  }

  /** seqIdList groups the copies in flight by message, each copy once. */
  ghost predicate ListsInv(lists: map<MsgId, seq<SeqId>>, msgOf: map<SeqId, MsgId>) {
    && (forall m :: m in lists ==> lists[m] != [] && NoDup(lists[m]))
    && (forall m, q :: q in At(lists, m) <==> q in msgOf && msgOf[q] == m)
  }

  /** First fit never opens more sockets than the peak load needed. */
  ghost predicate PeakInv(p: Pool) {
    forall d :: d in p.byDest ==> Needed(p.max, |p.byDest[d]|, PeakAt(p, d))
  }

  /** A load of peak copies, max to a socket, needs n sockets. */
  ghost predicate Needed(max: nat, n: nat, peak: nat) {
    (n - 1) * max < peak
  }

  ghost predicate Inv(p: Pool) {
    TablesInv(p) && PeakInv(p) && ListsInv(p.seqIdList, p.msgOf) && p.msgOf.Keys == p.socketMap.Keys
  }

  // ------------------------------------------------------------- placing

  lemma MoreUsers(max: nat, socketMap: map<SeqId, SocketId>, usedBy: map<SocketId, seq<SeqId>>, s: SocketId, q: SeqId)
    requires UsersInv(max, socketMap, usedBy) && q !in socketMap && |At(usedBy, s)| < max
    ensures UsersInv(max, socketMap[q := s], usedBy[s := At(usedBy, s) + [q]])
  {
    var socketMap', usedBy' := socketMap[q := s], usedBy[s := At(usedBy, s) + [q]];
    forall x | x in usedBy'
      ensures UserOk(max, socketMap', x, usedBy'[x])
    {
      assert x in usedBy ==> UserOk(max, socketMap, x, usedBy[x]);
    }
  }

  lemma MoreSockets(destOf: map<SocketId, Dest>, byDest: map<Dest, seq<SocketId>>, d: Dest, s: SocketId)
    requires DestsInv(destOf, byDest) && s !in destOf
    ensures DestsInv(destOf[s := d], byDest[d := At(byDest, d) + [s]])
  {
    var destOf', byDest' := destOf[s := d], byDest[d := At(byDest, d) + [s]];
    forall x | x in byDest'
      ensures DestOk(destOf', x, byDest'[x])
    {
      assert x in byDest ==> DestOk(destOf, x, byDest[x]);
    }
  }

  lemma AssignKeepsTables(p: Pool, s: SocketId, q: SeqId)
    requires TablesInv(p) && s in p.usedBy && |p.usedBy[s]| < p.max && q !in p.socketMap
    ensures TablesInv(Assign(p, s, q))
  {
    MoreUsers(p.max, p.socketMap, p.usedBy, s, q);
    assert p.usedBy[s := At(p.usedBy, s) + [q]].Keys == p.usedBy.Keys;
  }

  lemma OpenKeepsCount(p: Pool, d: Dest, s: SocketId, q: SeqId)
    requires p.destOf.Keys == p.usedBy.Keys && p.count == |p.usedBy| && s !in p.usedBy
    ensures var p' := Assign(Open(p, d, s), s, q); p'.destOf.Keys == p'.usedBy.Keys && p'.count == |p'.usedBy|
  {
    OneMoreKey(p.usedBy, s, At(p.usedBy, s) + [q]);
  }

  lemma OneMoreKey<K, V>(m: map<K, V>, k: K, v: V)
    requires k !in m
    ensures m[k := v].Keys == m.Keys + {k} && |m[k := v]| == |m| + 1
  {
  }

  lemma OpenKeepsTables(p: Pool, d: Dest, s: SocketId, q: SeqId)
    requires TablesInv(p) && s !in p.usedBy && q !in p.socketMap
    ensures TablesInv(Assign(Open(p, d, s), s, q))
  {
    MoreUsers(p.max, p.socketMap, p.usedBy, s, q);
    MoreSockets(p.destOf, p.byDest, d, s);
    OpenKeepsCount(p, d, s, q);
  }

  lemma PlaceKeepsTables(p: Pool, d: Dest, q: SeqId, newId: SocketId)
    requires TablesInv(p) && q !in p.socketMap && newId !in p.usedBy
    ensures TablesInv(Place(p, d, q, newId))
  {
    hide TablesInv, Assign, Open;
    match FirstFit(p.max, p.usedBy, At(p.byDest, d)) {
      case Some(s) => AssignKeepsTables(p, s, q);
      case None => OpenKeepsTables(p, d, newId, q);
    }
  }

  ghost predicate Reaches(p: Pool, q: SeqId, d: Dest) {
    q in p.socketMap && p.socketMap[q] in p.destOf && p.destOf[p.socketMap[q]] == d
  }

  /** The new copy goes to a socket connected to its destination. */
  lemma PlaceReachesDest(p: Pool, d: Dest, q: SeqId, newId: SocketId)
    requires TablesInv(p) && q !in p.socketMap && newId !in p.usedBy
    ensures Reaches(Place(p, d, q, newId), q, d)
  {
    if d in p.byDest {
      assert DestOk(p.destOf, d, p.byDest[d]);
    }
  }

  // ----------------------------------------------------------- releasing

  /** Neither 'Something is wrong' can be thrown, and nothing is looked up that is
      not there. */
  lemma ReleaseFindsEverything(p: Pool, q: SeqId)
    requires TablesInv(p) && q in p.socketMap
    ensures var s := p.socketMap[q];
            && s in p.usedBy && IndexOf(p.usedBy[s], q) != -1
            && s in p.destOf && p.destOf[s] in p.byDest && IndexOf(p.byDest[p.destOf[s]], s) != -1
  {
  }

  lemma FewerUsers(max: nat, socketMap: map<SeqId, SocketId>, usedBy: map<SocketId, seq<SeqId>>, q: SeqId)
    requires UsersInv(max, socketMap, usedBy) && q in socketMap
    ensures var s := socketMap[q]; var users := Without(At(usedBy, s), q);
            UsersInv(max, socketMap - {q}, if users == [] then usedBy - {s} else usedBy[s := users])
  {
    var s := socketMap[q];
    assert UserOk(max, socketMap, s, usedBy[s]);
    WithoutNoDup(usedBy[s], q);
    var users := Without(usedBy[s], q);
    var usedBy' := if users == [] then usedBy - {s} else usedBy[s := users];
    forall x | x in usedBy'
      ensures UserOk(max, socketMap - {q}, x, usedBy'[x])
    {
      assert UserOk(max, socketMap, x, usedBy[x]);
    }
    forall x | x in socketMap && x != q
      ensures socketMap[x] in usedBy' && x in usedBy'[socketMap[x]]
    {
      assert x in usedBy[socketMap[x]];
    }
  }

  lemma FewerSockets(destOf: map<SocketId, Dest>, byDest: map<Dest, seq<SocketId>>, s: SocketId)
    requires DestsInv(destOf, byDest) && s in destOf
    ensures var d := destOf[s]; var list := Without(At(byDest, d), s);
            DestsInv(destOf - {s}, if list == [] then byDest - {d} else byDest[d := list])
  {
    var d := destOf[s];
    assert DestOk(destOf, d, byDest[d]);
    WithoutNoDup(byDest[d], s);
    var list := Without(byDest[d], s);
    var byDest' := if list == [] then byDest - {d} else byDest[d := list];
    forall x | x in byDest'
      ensures DestOk(destOf - {s}, x, byDest'[x])
    {
      assert DestOk(destOf, x, byDest[x]);
    }
    forall x | x in destOf && x != s
      ensures destOf[x] in byDest' && x in byDest'[destOf[x]]
    {
      assert x in byDest[destOf[x]];
    }
  }

  lemma ReleaseKeepsTables(p: Pool, q: SeqId)
    requires TablesInv(p) && q in p.socketMap
    ensures TablesInv(Release(p, q))
  {
    var s := p.socketMap[q];
    FewerUsers(p.max, p.socketMap, p.usedBy, q);
    if Without(At(p.usedBy, s), q) == [] {
      FewerSockets(p.destOf, p.byDest, s);
      CloseCount(p, s);
    } else {
      assert p.usedBy[s := Without(At(p.usedBy, s), q)].Keys == p.usedBy.Keys;
    }
  }

  lemma CloseCount(p: Pool, s: SocketId)
    requires s in p.usedBy && s in p.destOf && p.destOf.Keys == p.usedBy.Keys
    ensures Close(p, s).destOf.Keys == Close(p, s).usedBy.Keys
    ensures |Close(p, s).usedBy| == |p.usedBy| - 1
  {
    assert (p.usedBy - {s}).Keys == p.usedBy.Keys - {s};
  }

  // ------------------------------------------------------ peak and in flight

  lemma {:induction false} FullSockets(max: nat, usedBy: map<SocketId, seq<SeqId>>, list: seq<SocketId>)
    requires forall s :: s in list ==> |At(usedBy, s)| == max
    ensures Users(list, usedBy) == |list| * max
  {
    if list != [] {
      FullSockets(max, usedBy, list[..|list|-1]);
    }
  }

  lemma {:induction false} UsersFrame(list: seq<SocketId>, a: map<SocketId, seq<SeqId>>, b: map<SocketId, seq<SeqId>>)
    requires forall s :: s in list ==> At(a, s) == At(b, s)
    ensures Users(list, a) == Users(list, b)
  {
    if list != [] {
      UsersFrame(list[..|list|-1], a, b);
    }
  }

  /** A socket is opened only when every socket to the destination is full. */
  lemma OpenedAtFullLoad(p: Pool, d: Dest, q: SeqId, newId: SocketId)
    requires TablesInv(p) && newId !in p.usedBy && FirstFit(p.max, p.usedBy, At(p.byDest, d)).None?
    ensures InFlight(Place(p, d, q, newId), d) == |At(p.byDest, d)| * p.max + 1
  {
    var list, p' := At(p.byDest, d), Place(p, d, q, newId);
    forall s | s in list
      ensures |At(p.usedBy, s)| == p.max && s != newId
    {
      assert DestOk(p.destOf, d, p.byDest[d]);
      assert UserOk(p.max, p.socketMap, s, p.usedBy[s]);
    }
    FullSockets(p.max, p.usedBy, list);
    UsersFrame(list, p.usedBy, p'.usedBy);
    assert At(p'.byDest, d) == list + [newId];
    assert (list + [newId])[..|list|] == list;
    assert At(p'.usedBy, newId) == [q];
  }

  /** The list of one destination and its peak, when a socket is opened for it. */
  lemma OpenedWasNeeded(p: Pool, d: Dest, payload: Payload, m: MsgId, q: SeqId, newId: SocketId)
    requires TablesInv(p) && newId !in p.usedBy && FirstFit(p.max, p.usedBy, At(p.byDest, d)).None?
    ensures var p' := Send(p, d, payload, m, q, newId); d in p'.byDest && Needed(p.max, |p'.byDest[d]|, PeakAt(p', d))
  {
    OpenedAtFullLoad(p, d, q, newId);
    var p' := Send(p, d, payload, m, q, newId);
    assert InFlight(p', d) == InFlight(Place(p, d, q, newId), d);
    assert |p'.byDest[d]| - 1 == |At(p.byDest, d)|;
  }

  /** Nothing else about the lists of sockets changes, and peaks only rise. */
  lemma OtherPeaks(p: Pool, d: Dest, payload: Payload, m: MsgId, q: SeqId, newId: SocketId, x: Dest)
    requires x in Send(p, d, payload, m, q, newId).byDest && (x != d || FirstFit(p.max, p.usedBy, At(p.byDest, d)).Some?)
    ensures var p' := Send(p, d, payload, m, q, newId); x in p.byDest && p'.byDest[x] == p.byDest[x] && PeakAt(p, x) <= PeakAt(p', x)
  {
  }

  lemma SendKeepsPeak(p: Pool, d: Dest, payload: Payload, m: MsgId, q: SeqId, newId: SocketId)
    requires Inv(p) && newId !in p.usedBy
    ensures PeakInv(Send(p, d, payload, m, q, newId))
  {
    hide TablesInv, ListsInv, Send, FirstFit;
    var p' := Send(p, d, payload, m, q, newId);
    assert p'.max == p.max by { CopyKeepsMax(p, d, payload, m, q, newId); }
    forall x | x in p'.byDest
      ensures Needed(p'.max, |p'.byDest[x]|, PeakAt(p', x))
    {
      if x == d && FirstFit(p.max, p.usedBy, At(p.byDest, d)).None? {
        OpenedWasNeeded(p, d, payload, m, q, newId);
      } else {
        OtherPeaks(p, d, payload, m, q, newId, x);
      }
    }
  }

  lemma CopyKeepsMax(p: Pool, d: Dest, payload: Payload, m: MsgId, q: SeqId, newId: SocketId)
    ensures Send(p, d, payload, m, q, newId).max == p.max
  {
  }

  lemma FewerNeeded(max: nat, a: nat, b: nat, peak: nat)
    requires a <= b && Needed(max, b, peak)
    ensures Needed(max, a, peak)
  {
    assert (a - 1) * max <= (b - 1) * max;
  }

  lemma CloseLists(p: Pool, s: SocketId, x: Dest)
    requires DestsInv(p.destOf, p.byDest) && s in p.destOf && x in Close(p, s).byDest
    ensures x in p.byDest && |Close(p, s).byDest[x]| <= |p.byDest[x]|
  {
    var d := p.destOf[s];
    assert DestOk(p.destOf, d, p.byDest[d]);
    WithoutNoDup(p.byDest[d], s);
  }

  lemma ReleaseLists(p: Pool, q: SeqId, x: Dest)
    requires TablesInv(p) && q in p.socketMap && x in Release(p, q).byDest
    ensures x in p.byDest && |Release(p, q).byDest[x]| <= |p.byDest[x]|
    ensures Release(p, q).max == p.max && Release(p, q).peak == p.peak
  {
    hide TablesInv, Without;
    assert DestsInv(p.destOf, p.byDest) && p.socketMap[q] in p.destOf by {
      ReleaseFindsEverything(p, q);
      TablesParts(p);
    }
    var s := p.socketMap[q];
    if Without(At(p.usedBy, s), q) == [] {
      CloseLists(p, s, x);
    }
  }

  lemma TablesParts(p: Pool)
    requires TablesInv(p)
    ensures DestsInv(p.destOf, p.byDest) && p.destOf.Keys == p.usedBy.Keys
  {
  }

  lemma ReleaseKeepsPeak(p: Pool, q: SeqId)
    requires TablesInv(p) && PeakInv(p) && q in p.socketMap
    ensures PeakInv(Release(p, q))
  {
    var p' := Release(p, q);
    forall x | x in p'.byDest
      ensures Needed(p'.max, |p'.byDest[x]|, PeakAt(p', x))
    {
      ReleaseLists(p, q, x);
      FewerNeeded(p.max, |p'.byDest[x]|, |p.byDest[x]|, PeakAt(p, x));
    }
  }

  ghost function CopiesTo(p: Pool, d: Dest): set<SeqId> {
    set q | q in p.socketMap && p.socketMap[q] in p.destOf && p.destOf[p.socketMap[q]] == d
  }

  ghost function CopiesOn(p: Pool, list: seq<SocketId>): set<SeqId> {
    set q | q in p.socketMap && p.socketMap[q] in list
  }

  lemma CopiesOfOne(p: Pool, s: SocketId)
    requires TablesInv(p) && s in p.usedBy
    ensures CopiesOn(p, [s]) == Elements(p.usedBy[s]) && |CopiesOn(p, [s])| == |p.usedBy[s]|
  {
    assert UserOk(p.max, p.socketMap, s, p.usedBy[s]);
    ElementsSize(p.usedBy[s]);
    assert CopiesOn(p, [s]) == Elements(p.usedBy[s]);
  }

  lemma {:induction false} UsersAreCopies(p: Pool, list: seq<SocketId>)
    requires TablesInv(p) && NoDup(list) && forall s :: s in list ==> s in p.usedBy
    ensures |CopiesOn(p, list)| == Users(list, p.usedBy)
  {
    if list == [] {
      assert CopiesOn(p, list) == {};
    } else {
      var rest, last := list[..|list|-1], list[|list|-1];
      UsersAreCopies(p, rest);
      CopiesOfOne(p, last);
      assert list == rest + [last];
      assert CopiesOn(p, list) == CopiesOn(p, rest) + CopiesOn(p, [last]);
      assert CopiesOn(p, rest) !! CopiesOn(p, [last]);
    }
  }

  /** InFlight counts exactly the copies whose socket leads to the destination. */
  lemma InFlightIsCopies(p: Pool, d: Dest)
    requires TablesInv(p)
    ensures InFlight(p, d) == |CopiesTo(p, d)|
  {
    var list := At(p.byDest, d);
    if d in p.byDest {
      assert DestOk(p.destOf, d, list);
    }
    UsersAreCopies(p, list);
    assert CopiesOn(p, list) == CopiesTo(p, d);
  }

  // -------------------------------------------------- whole sends, clean-ups

  ghost predicate Releasable(p: Pool, qs: seq<SeqId>) {
    TablesInv(p) && PeakInv(p) && NoDup(qs) && forall q :: q in qs ==> q in p.socketMap
  }

  lemma ReleasableRest(p: Pool, qs: seq<SeqId>)
    requires Releasable(p, qs) && qs != []
    ensures TablesInv(p) && qs[0] in p.socketMap && Releasable(Release(p, qs[0]), qs[1..])
  {
    ReleaseKeepsTables(p, qs[0]);
    ReleaseKeepsPeak(p, qs[0]);
  }

  /** _cleanUp for each copy of the list in turn. */
  function ReleaseAll(p: Pool, qs: seq<SeqId>): Pool
    decreases |qs|
  {
    if qs == [] then p else ReleaseAll(Release(p, qs[0]), qs[1..])
  }

  lemma {:induction false} ReleaseAllKeeps(p: Pool, qs: seq<SeqId>)
    requires Releasable(p, qs)
    ensures Releasable(ReleaseAll(p, qs), [])
    decreases |qs|
  {
    if qs != [] {
      ReleasableRest(p, qs);
      ReleaseAllKeeps(Release(p, qs[0]), qs[1..]);
    }
  }

  lemma ReleaseRemoves(p: Pool, q: SeqId)
    requires q in p.socketMap && p.socketMap[q] in p.destOf
    ensures Release(p, q).socketMap == p.socketMap - {q}
    ensures Release(p, q).seqIdList == p.seqIdList && Release(p, q).msgOf == p.msgOf
  {
    hide Without, Close;
    CloseKeepsCopies(p, p.socketMap[q]);
  }

  lemma CloseKeepsCopies(p: Pool, s: SocketId)
    requires s in p.destOf
    ensures var p' := Close(p, s); p'.socketMap == p.socketMap && p'.seqIdList == p.seqIdList && p'.msgOf == p.msgOf
  {
    hide Without;
  }

  lemma {:induction false} ReleaseAllRemoves(p: Pool, qs: seq<SeqId>)
    requires Releasable(p, qs)
    ensures ReleaseAll(p, qs).socketMap == p.socketMap - Elements(qs)
    ensures ReleaseAll(p, qs).seqIdList == p.seqIdList && ReleaseAll(p, qs).msgOf == p.msgOf
    decreases |qs|
  {
    RemoveOneByOne(p.socketMap, qs);
    if qs != [] {
      ReleasableRest(p, qs);
      ReleaseRemoves(p, qs[0]);
      ReleaseAllRemoves(Release(p, qs[0]), qs[1..]);
    }
  }

  lemma RemoveOneByOne(m: map<SeqId, SocketId>, qs: seq<SeqId>)
    ensures m - Elements(qs) == if qs == [] then m else (m - {qs[0]}) - Elements(qs[1..])
  {
    if qs != [] {
      assert Elements(qs) == {qs[0]} + Elements(qs[1..]);
    }
  }

  lemma ListedIsReleasable(p: Pool, m: MsgId)
    requires Inv(p) && m in p.seqIdList
    ensures Releasable(p, p.seqIdList[m])
  {
    forall q | q in p.seqIdList[m] ensures q in p.socketMap { assert q in At(p.seqIdList, m); }
  }

  /** cleanUp of a message. */
  ghost function CleanUp(p: Pool, m: MsgId): Pool {
    if m !in p.seqIdList then p
    else ReleaseAll(p, p.seqIdList[m]).(seqIdList := p.seqIdList - {m}, msgOf := p.msgOf - Elements(p.seqIdList[m]))
  }

  function Fresh(max: nat): Pool {
    Pool(max, map[], map[], map[], map[], map[], 0, map[], map[], map[])
  }

  lemma FreshInv(max: nat)
    requires 1 <= max
    ensures Inv(Fresh(max))
  {
  }

  lemma ListedHasCopy(lists: map<MsgId, seq<SeqId>>, msgOf: map<SeqId, MsgId>, m: MsgId)
    requires ListsInv(lists, msgOf) && m in lists
    ensures exists q :: q in msgOf && msgOf[q] == m
  {
    var q := lists[m][0];
    assert q in At(lists, m);
    assert q in msgOf && msgOf[q] == m;
  }

  lemma MoreListed(lists: map<MsgId, seq<SeqId>>, msgOf: map<SeqId, MsgId>, m: MsgId, q: SeqId)
    requires ListsInv(lists, msgOf) && q !in msgOf
    ensures ListsInv(lists[m := At(lists, m) + [q]], msgOf[q := m])
  {
    assert q !in At(lists, m);
    var lists', msgOf' := lists[m := At(lists, m) + [q]], msgOf[q := m];
    forall n, x ensures x in At(lists', n) <==> x in msgOf' && msgOf'[x] == n {
      assert x in At(lists, n) <==> x in msgOf && msgOf[x] == n;
    }
  }

  lemma FewerListed(lists: map<MsgId, seq<SeqId>>, msgOf: map<SeqId, MsgId>, m: MsgId)
    requires ListsInv(lists, msgOf) && m in lists
    ensures ListsInv(lists - {m}, msgOf - Elements(lists[m]))
    ensures msgOf - Elements(lists[m]) == map q | q in msgOf && msgOf[q] != m :: msgOf[q]
  {
    forall q ensures q in Elements(lists[m]) <==> q in msgOf && msgOf[q] == m {
      assert q in At(lists, m) <==> q in msgOf && msgOf[q] == m;
    }
    var lists', msgOf' := lists - {m}, msgOf - Elements(lists[m]);
    forall n, x ensures x in At(lists', n) <==> x in msgOf' && msgOf'[x] == n {
      assert x in At(lists, n) <==> x in msgOf && msgOf[x] == n;
    }
  }

  lemma SendKeepsTables(p: Pool, d: Dest, payload: Payload, m: MsgId, q: SeqId, newId: SocketId)
    requires Inv(p) && q !in p.socketMap && newId !in p.usedBy
    ensures TablesInv(Send(p, d, payload, m, q, newId))
  {
    PlaceKeepsTables(p, d, q, newId);
  }

  lemma SendKeepsLists(p: Pool, d: Dest, payload: Payload, m: MsgId, q: SeqId, newId: SocketId)
    requires Inv(p) && q !in p.socketMap && newId !in p.usedBy
    ensures ListsInv(Send(p, d, payload, m, q, newId).seqIdList, Send(p, d, payload, m, q, newId).msgOf)
    ensures Send(p, d, payload, m, q, newId).msgOf.Keys == Send(p, d, payload, m, q, newId).socketMap.Keys
  {
    hide TablesInv, PeakInv, ListsInv, Place;
    MoreListed(p.seqIdList, p.msgOf, m, q);
    PlaceAddsCopy(p, d, q, newId);
  }

  lemma SendInv(p: Pool, d: Dest, payload: Payload, m: MsgId, q: SeqId, newId: SocketId)
    requires Inv(p) && q !in p.socketMap && newId !in p.usedBy
    ensures Inv(Send(p, d, payload, m, q, newId))
  {
    SendKeepsTables(p, d, payload, m, q, newId);
    SendKeepsLists(p, d, payload, m, q, newId);
    SendKeepsPeak(p, d, payload, m, q, newId);
  }

  /** After a clean-up the copies of the message are gone and no others. */
  lemma CleanUpRemoves(p: Pool, m: MsgId)
    requires Inv(p)
    ensures CleanUp(p, m).msgOf == map q | q in p.msgOf && p.msgOf[q] != m :: p.msgOf[q]
    ensures CleanUp(p, m).socketMap.Keys == CleanUp(p, m).msgOf.Keys
    ensures ListsInv(CleanUp(p, m).seqIdList, CleanUp(p, m).msgOf)
  {
    if m in p.seqIdList {
      ListedIsReleasable(p, m);
      ReleaseAllRemoves(p, p.seqIdList[m]);
      FewerListed(p.seqIdList, p.msgOf, m);
    } else {
      forall q | q in p.msgOf ensures p.msgOf[q] != m { assert q !in At(p.seqIdList, m); }
    }
  }

  lemma CleanUpInv(p: Pool, m: MsgId)
    requires Inv(p)
    ensures Inv(CleanUp(p, m))
  {
    CleanUpRemoves(p, m);
    if m in p.seqIdList {
      ListedIsReleasable(p, m);
      ReleaseAllKeeps(p, p.seqIdList[m]);
    }
  }

  lemma {:induction false} ReleaseAllKeepsPeak(p: Pool, qs: seq<SeqId>)
    ensures ReleaseAll(p, qs).peak == p.peak && ReleaseAll(p, qs).max == p.max
    decreases |qs|
  {
    if qs != [] {
      ReleaseAllKeepsPeak(Release(p, qs[0]), qs[1..]);
    }
  }

  lemma CleanUpKeepsPeak(p: Pool, m: MsgId)
    ensures CleanUp(p, m).peak == p.peak && CleanUp(p, m).max == p.max
  {
    if m in p.seqIdList {
      ReleaseAllKeepsPeak(p, p.seqIdList[m]);
    }
  }

  /** A send leaves the copies already under way where they are. */
  lemma SendKeepsOthers(p: Pool, d: Dest, payload: Payload, m: MsgId, q: SeqId, newId: SocketId, x: SeqId)
    requires TablesInv(p) && q !in p.socketMap && newId !in p.usedBy && x in p.socketMap
    ensures var p' := Send(p, d, payload, m, q, newId);
            && x in p'.socketMap && p'.socketMap[x] == p.socketMap[x]
            && p.socketMap[x] in p.destOf && p.socketMap[x] in p'.destOf && p'.destOf[p.socketMap[x]] == p.destOf[p.socketMap[x]]
  {
  }

  /** The new copy is written to a socket that leads to its destination. */
  lemma SendReaches(p: Pool, d: Dest, payload: Payload, m: MsgId, q: SeqId, newId: SocketId)
    requires TablesInv(p) && q !in p.socketMap && newId !in p.usedBy
    ensures var p' := Send(p, d, payload, m, q, newId);
            && p'.socketMap.Keys == p.socketMap.Keys + {q}
            && p'.wire == p.wire[q := payload]
            && Reaches(p', q, d)
  {
    PlaceReachesDest(p, d, q, newId);
    PlaceAddsCopy(p, d, q, newId);
    hide Place, TablesInv;
  }

  lemma PlaceAddsCopy(p: Pool, d: Dest, q: SeqId, newId: SocketId)
    ensures Place(p, d, q, newId).socketMap.Keys == p.socketMap.Keys + {q} && Place(p, d, q, newId).wire == p.wire
    ensures Place(p, d, q, newId).seqIdList == p.seqIdList && Place(p, d, q, newId).msgOf == p.msgOf
  {
    hide FirstFit;
  }

  ghost predicate FewerDests(p: Pool, p': Pool) {
    p'.wire == p.wire && forall s :: s in p'.destOf ==> s in p.destOf && p'.destOf[s] == p.destOf[s]
  }

  lemma {:induction false} ReleaseAllKeepsDests(p: Pool, qs: seq<SeqId>)
    ensures FewerDests(p, ReleaseAll(p, qs))
    decreases |qs|
  {
    if qs != [] {
      ReleaseKeepsDests(p, qs[0]);
      ReleaseAllKeepsDests(Release(p, qs[0]), qs[1..]);
    }
  }

  lemma ReleaseKeepsDests(p: Pool, q: SeqId)
    ensures FewerDests(p, Release(p, q))
  {
    hide Without;
  }

  /** A clean-up leads no socket elsewhere. */
  lemma CleanUpKeepsDests(p: Pool, m: MsgId)
    ensures FewerDests(p, CleanUp(p, m))
  {
    if m in p.seqIdList {
      ReleaseAllKeepsDests(p, p.seqIdList[m]);
    }
  }

  /** The copies left stay on their sockets. */
  lemma CleanUpKeepsCopies(p: Pool, m: MsgId)
    requires Inv(p)
    ensures forall q :: q in CleanUp(p, m).socketMap ==> q in p.socketMap && CleanUp(p, m).socketMap[q] == p.socketMap[q]
  {
    if m in p.seqIdList {
      ListedIsReleasable(p, m);
      ReleaseAllRemoves(p, p.seqIdList[m]);
    }
  }

  // ------------------------------------------------ the code as it is run

  class SendSocket {
    const max: nat
    var socketMap: map<SeqId, SocketId>
    var socketUsedBy: map<SocketId, seq<SeqId>>
    var socketDestMap: map<SocketId, Dest>
    var socketListByDest: map<Dest, seq<SocketId>>
    var seqIdList: map<MsgId, seq<SeqId>>
    var count: int
    ghost var msgOf: map<SeqId, MsgId>
    ghost var wire: map<SeqId, Payload>
    ghost var peak: map<Dest, nat>

    ghost function View(): Pool
      reads this
    {
      Pool(max, socketMap, socketUsedBy, socketDestMap, socketListByDest, seqIdList, count, msgOf, wire, peak)
    }

    constructor (max: nat)
      requires 1 <= max
      ensures View() == Fresh(max) && Inv(View())
    {
      this.max := max;
      socketMap, socketUsedBy, socketDestMap, socketListByDest, seqIdList := map[], map[], map[], map[], map[];
      count, msgOf, wire, peak := 0, map[], map[], map[];
    }

    /** The loop of send over the destination's sockets. */
    method FindSocket(list: seq<SocketId>) returns (socket: Option<SocketId>)
      ensures socket == FirstFit(max, socketUsedBy, list)
    {
      socket := None;
      var i := 0;
      while i < |list|
        invariant 0 <= i <= |list|
        invariant FirstFit(max, socketUsedBy, list) == FirstFit(max, socketUsedBy, list[i..])
      {
        if list[i] in socketUsedBy && |socketUsedBy[list[i]]| < max {
          return Some(list[i]);
        }
        assert list[i..][1..] == list[i+1..];
        i := i + 1;
      }
    }

    method OpenSocket(dest: Dest, socketId: SocketId)
      modifies this
      ensures View() == Open(old(View()), dest, socketId)
    {
      socketDestMap := socketDestMap[socketId := dest];
      count := count + 1;
      socketListByDest := socketListByDest[dest := At(socketListByDest, dest) + [socketId]];
    }

    method SendCopy(dest: Dest, payload: Payload, msgId: MsgId, seqId: SeqId, newSocketId: SocketId)
      modifies this
      ensures View() == Send(old(View()), dest, payload, msgId, seqId, newSocketId)
    {
      ghost var after := Send(View(), dest, payload, msgId, seqId, newSocketId);
      var socket := FindSocket(At(socketListByDest, dest));
      if socket == None {
        OpenSocket(dest, newSocketId);
        socket := Some(newSocketId);
      }
      seqIdList := seqIdList[msgId := At(seqIdList, msgId) + [seqId]];
      socketUsedBy := socketUsedBy[socket.value := At(socketUsedBy, socket.value) + [seqId]];
      socketMap := socketMap[seqId := socket.value];
      msgOf, wire, peak := msgOf[seqId := msgId], wire[seqId := payload], after.peak;
    }

    /** false would be one of the two throws; it is never returned. */
    method ReleaseCopy(seqId: SeqId) returns (ok: bool)
      requires TablesInv(View()) && seqId in socketMap
      modifies this
      ensures ok && View() == Release(old(View()), seqId)
    {
      ReleaseFindsEverything(View(), seqId);
      var socketId := socketMap[seqId];
      var users := socketUsedBy[socketId];
      var index := IndexOf(users, seqId);
      if index == -1 {
        return false;
      }
      users := users[..index] + users[index+1..];
      if |users| == 0 {
        ok := CloseSocket(socketId);
      } else {
        socketUsedBy, ok := socketUsedBy[socketId := users], true;
      }
      socketMap := socketMap - {seqId};
    }

    method CloseSocket(socketId: SocketId) returns (ok: bool)
      requires socketId in socketDestMap && socketDestMap[socketId] in socketListByDest
      requires socketId in socketListByDest[socketDestMap[socketId]]
      modifies this
      ensures ok && View() == Close(old(View()), socketId)
    {
      count := count - 1;
      socketUsedBy := socketUsedBy - {socketId};
      var destKey := socketDestMap[socketId];
      var list := socketListByDest[destKey];
      var index := IndexOf(list, socketId);
      if index == -1 {
        return false;
      }
      list := list[..index] + list[index+1..];
      socketListByDest := if |list| == 0 then socketListByDest - {destKey} else socketListByDest[destKey := list];
      socketDestMap := socketDestMap - {socketId};
      ok := true;
    }

    /** The loop of cleanUp over the copies of a message. */
    method ReleaseEach(seqIds: seq<SeqId>) returns (ok: bool)
      requires Releasable(View(), seqIds)
      modifies this
      ensures ok && View() == ReleaseAll(old(View()), seqIds)
    {
      hide Releasable, TablesInv;
      ghost var before := View();
      ok := true;
      var i := 0;
      assert seqIds[0..] == seqIds;
      while i < |seqIds|
        invariant 0 <= i <= |seqIds| && ok && Releasable(View(), seqIds[i..])
        invariant ReleaseAll(View(), seqIds[i..]) == ReleaseAll(before, seqIds)
      {
        ReleasableRest(View(), seqIds[i..]);
        assert seqIds[i..][1..] == seqIds[i+1..];
        ok := ReleaseCopy(seqIds[i]);
        i := i + 1;
      }
    }

    method CleanUpMessage(msgId: MsgId) returns (ok: bool)
      requires Inv(View())
      modifies this
      ensures ok && View() == CleanUp(old(View()), msgId)
    {
      hide Inv, Releasable, ReleaseAll;
      ok := true;
      if msgId !in seqIdList {
        return;
      }
      ghost var before := View();
      ListedIsReleasable(before, msgId);
      var seqIds := seqIdList[msgId];
      ReleaseAllRemoves(before, seqIds);
      ok := ReleaseEach(seqIds);
      seqIdList := seqIdList - {msgId};
      msgOf := msgOf - Elements(seqIds);
    }
  }
}
