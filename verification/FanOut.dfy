/** sendRequestToAS of core/rp/index.js groups data requests twice: by AS node, then
    nodes with the same services into one message. */
module FanOut {
  import opened Lists
  import opened Decimals

  type NodeId = string

  datatype ServiceData = ServiceData(serviceId: string, requestParams: string, salt: string)

  datatype Receiver = Receiver(nodeId: NodeId, publicKey: string, address: string)

  datatype Group = Group(receiver: Receiver, data: seq<ServiceData>, key: string)

  datatype Message = Message(receivers: seq<Receiver>, data: seq<ServiceData>)

  // ------------------------------------------------------------ index keys

  /** concat_service_id_index of a node that serves these indices, in this order. */
  ghost function Join(indices: seq<nat>): string {
    if indices == [] then ""
    else if |indices| == 1 then Decimal(indices[0])
    else Join(indices[..|indices|-1]) + "|" + Decimal(indices[|indices|-1])
  }

  lemma LastBar(s: string, t: string, s': string, t': string)
    requires '|' !in t && '|' !in t' && s + "|" + t == s' + "|" + t'
    ensures s == s' && t == t'
  {
    var u, u' := s + "|" + t, s' + "|" + t';
    BarAt(s, t);
    BarAt(s', t');
    assert |s| == |s'|;
    assert s == u[..|s|] && s' == u[..|s|];
    assert t == u[|s|+1..] && t' == u[|s|+1..];
  }

  lemma BarAt(s: string, t: string)
    requires '|' !in t
    ensures var u := s + "|" + t; u[|s|] == '|' && forall i | |s| < i < |u| :: u[i] != '|'
  {
    var u := s + "|" + t;
    forall i | |s| < i < |u| ensures u[i] != '|' { assert u[i] == t[i - |s| - 1]; }
  }

  /** Two nodes have the same key only if they serve the same indices in the same order. */
  lemma {:induction false} JoinInjective(a: seq<nat>, b: seq<nat>)
    requires a != [] && b != [] && Join(a) == Join(b)
    ensures a == b
  {
    var x, y := a[|a|-1], b[|b|-1];
    DecimalIsDigits(x);
    DecimalIsDigits(y);
    assert '|' !in Decimal(x) && '|' !in Decimal(y);
    if |a| > 1 && |b| > 1 {
      LastBar(Join(a[..|a|-1]), Decimal(x), Join(b[..|b|-1]), Decimal(y));
      DecimalInjective(x, y);
      JoinInjective(a[..|a|-1], b[..|b|-1]);
      assert a == a[..|a|-1] + [x] && b == b[..|b|-1] + [y];
    } else if |a| == 1 && |b| == 1 {
      DecimalInjective(x, y);
    } else if |a| > 1 {
      BarAt(Join(a[..|a|-1]), Decimal(x));
    } else {
      BarAt(Join(b[..|b|-1]), Decimal(y));
    }
  }

  // ------------------------------------------------------------ by AS node

  /** One receiver of the service with the given index. */
  function AddReceiver(groups: map<NodeId, Group>, r: Receiver, data: ServiceData, index: nat): map<NodeId, Group> {
    if r.nodeId in groups then
      var g := groups[r.nodeId];
      groups[r.nodeId := g.(data := g.data + [data], key := g.key + "|" + Decimal(index))]
    else groups[r.nodeId := Group(r, [data], Decimal(index))]
  }

  ghost function AddService(groups: map<NodeId, Group>, rs: seq<Receiver>, data: ServiceData, index: nat): map<NodeId, Group> {
    if rs == [] then groups
    else AddReceiver(AddService(groups, rs[..|rs|-1], data, index), rs[|rs|-1], data, index)
  }

  ghost predicate Within(indices: seq<nat>, n: nat) {
    forall k | 0 <= k < |indices| :: indices[k] < n
  }

  /** The lookups complete in the given order. */
  ghost function ByNode(services: seq<ServiceData>, receivers: seq<seq<Receiver>>, order: seq<nat>): map<NodeId, Group>
    requires |receivers| == |services| && Within(order, |services|)
  {
    if order == [] then map[]
    else
      var rest, last := order[..|order|-1], order[|order|-1];
      AddService(ByNode(services, receivers, rest), receivers[last], services[last], last)
  }

  ghost predicate Listed(rs: seq<Receiver>, d: NodeId) {
    exists j :: 0 <= j < |rs| && rs[j].nodeId == d
  }

  ghost predicate DistinctNodes(rs: seq<Receiver>) {
    forall i, j | 0 <= i < j < |rs| :: rs[i].nodeId != rs[j].nodeId
  }

  /** The services for which a node was found, in order of completion. */
  ghost function Served(receivers: seq<seq<Receiver>>, order: seq<nat>, d: NodeId): seq<nat>
    requires Within(order, |receivers|)
  {
    if order == [] then []
    else
      var rest, last := order[..|order|-1], order[|order|-1];
      if Listed(receivers[last], d) then Served(receivers, rest, d) + [last] else Served(receivers, rest, d)
  }

  lemma {:induction false} ServedIs(receivers: seq<seq<Receiver>>, order: seq<nat>, d: NodeId)
    requires NoDup(order) && Within(order, |receivers|)
    ensures NoDup(Served(receivers, order, d))
    ensures forall i :: i in Served(receivers, order, d) <==> i in order && i < |receivers| && Listed(receivers[i], d)
  {
    if order != [] {
      var rest, last := order[..|order|-1], order[|order|-1];
      assert order == rest + [last];
      ServedIs(receivers, rest, d);
      if Listed(receivers[last], d) {
        AppendNoDup(Served(receivers, rest, d), last);
      }
    }
  }

  ghost function Select(services: seq<ServiceData>, indices: seq<nat>): seq<ServiceData>
    requires Within(indices, |services|)
  {
    seq(|indices|, k requires 0 <= k < |indices| => services[indices[k]])
  }

  /** r is what the lookup gave for node d; there is one such entry. */
  ghost predicate IsEntry(rs: seq<Receiver>, d: NodeId, r: Receiver) {
    r in rs && r.nodeId == d
  }

  /** What is known of node d's group when it serves these indices: the receiver is the
      entry of the first lookup that listed it. */
  ghost predicate GroupIs(groups: map<NodeId, Group>, services: seq<ServiceData>, receivers: seq<seq<Receiver>>, d: NodeId,
                          indices: seq<nat>)
    requires |receivers| == |services| && Within(indices, |services|)
  {
    && (d in groups <==> indices != [])
    && (d in groups ==> IsEntry(receivers[indices[0]], d, groups[d].receiver) && groups[d].key == Join(indices)
                        && groups[d].data == Select(services, indices))
  }

  lemma {:induction false} AddServiceIs(groups: map<NodeId, Group>, services: seq<ServiceData>,
                                        receivers: seq<seq<Receiver>>, rs: seq<Receiver>,
                                        index: nat, d: NodeId, indices: seq<nat>)
    requires |receivers| == |services| && Within(indices, |services|)
    requires index < |services| && DistinctNodes(rs) && rs <= receivers[index]
    requires GroupIs(groups, services, receivers, d, indices)
    ensures var indices' := if Listed(rs, d) then indices + [index] else indices;
            GroupIs(AddService(groups, rs, services[index], index), services, receivers, d, indices')
  {
    hide Join;
    if rs != [] {
      var rest, last := rs[..|rs|-1], rs[|rs|-1];
      AddServiceIs(groups, services, receivers, rest, index, d, indices);
      if last.nodeId == d {
        assert !Listed(rest, d);
        assert rs[|rs|-1].nodeId == d && last == receivers[index][|rs|-1];
        OneMoreIndex(indices, index);
        assert Select(services, indices + [index]) == Select(services, indices) + [services[index]];
      } else {
        forall j | 0 <= j < |rs| && rs[j].nodeId == d ensures Listed(rest, d) { assert rest[j].nodeId == d; }
        forall j | 0 <= j < |rest| && rest[j].nodeId == d ensures Listed(rs, d) { assert rs[j].nodeId == d; }
      }
    }
  }

  lemma OneMoreIndex(indices: seq<nat>, index: nat)
    ensures Join(indices + [index]) == if indices == [] then Decimal(index) else Join(indices) + "|" + Decimal(index)
  {
    assert (indices + [index])[..|indices|] == indices;
  }

  /** However the lookups interleave, every node's group holds the services found for
      it, once each, and its key spells out exactly those. */
  lemma EntryIsUnique(rs: seq<Receiver>, d: NodeId, r: Receiver, r': Receiver)
    requires DistinctNodes(rs) && IsEntry(rs, d, r) && IsEntry(rs, d, r')
    ensures r == r'
  {
  }

  lemma {:induction false} ByNodeIs(services: seq<ServiceData>, receivers: seq<seq<Receiver>>, order: seq<nat>, d: NodeId)
    requires |receivers| == |services| && Within(order, |services|)
    requires forall i | 0 <= i < |receivers| :: DistinctNodes(receivers[i])
    ensures Within(Served(receivers, order, d), |services|)
    ensures GroupIs(ByNode(services, receivers, order), services, receivers, d, Served(receivers, order, d))
  {
    if order != [] {
      var rest, last := order[..|order|-1], order[|order|-1];
      ByNodeIs(services, receivers, rest, d);
      AddServiceIs(ByNode(services, receivers, rest), services, receivers, receivers[last], last, d,
        Served(receivers, rest, d));
    }
  }

  // ------------------------------------------------- by list of services

  function AddGroup(messages: map<string, Message>, g: Group): map<string, Message> {
    if g.key in messages then
      messages[g.key := messages[g.key].(receivers := messages[g.key].receivers + [g.receiver])]
    else messages[g.key := Message([g.receiver], g.data)]
  }

  /** The groups are visited in the given order of nodes. */
  ghost function Regroup(groups: map<NodeId, Group>, nodes: seq<NodeId>): map<string, Message>
    requires forall k | 0 <= k < |nodes| :: nodes[k] in groups
  {
    if nodes == [] then map[]
    else AddGroup(Regroup(groups, nodes[..|nodes|-1]), groups[nodes[|nodes|-1]])
  }

  /** Equal keys mean equal data, and a group's receiver is its node. */
  ghost predicate Keyed(groups: map<NodeId, Group>) {
    && (forall d, e :: d in groups && e in groups && groups[d].key == groups[e].key ==> groups[d].data == groups[e].data)
    && (forall d :: d in groups ==> groups[d].receiver.nodeId == d)
  }

  /** Message k carries node d at position p. */
  ghost predicate Sent(messages: map<string, Message>, d: NodeId, k: string, p: nat) {
    k in messages && p < |messages[k].receivers| && messages[k].receivers[p].nodeId == d
  }

  ghost predicate Delivers(messages: map<string, Message>, groups: map<NodeId, Group>, nodes: seq<NodeId>) {
    && (forall d, k, p: nat :: Sent(messages, d, k, p) ==>
          d in nodes && d in groups && k == groups[d].key && messages[k].receivers[p] == groups[d].receiver)
    && (forall k :: k in messages ==> messages[k].receivers != [] && DistinctNodes(messages[k].receivers))
    && (forall k, d :: k in messages && d in groups && groups[d].key == k ==> messages[k].data == groups[d].data)
    && (forall d :: d in nodes && d in groups ==> exists p :: Sent(messages, d, groups[d].key, p))
  }

  lemma AddGroupDelivers(messages: map<string, Message>, groups: map<NodeId, Group>, nodes: seq<NodeId>, d: NodeId)
    requires Keyed(groups) && d in groups && d !in nodes && Delivers(messages, groups, nodes)
    ensures Delivers(AddGroup(messages, groups[d]), groups, nodes + [d])
  {
    var g, messages' := groups[d], AddGroup(messages, groups[d]);
    var receivers := messages'[g.key].receivers;
    assert Sent(messages', d, g.key, |receivers| - 1);
    forall e, k, p: nat | Sent(messages', e, k, p)
      ensures e in nodes + [d] && e in groups && k == groups[e].key && messages'[k].receivers[p] == groups[e].receiver
    {
      if k != g.key || p < |receivers| - 1 {
        assert Sent(messages, e, k, p);
      }
    }
    forall e | e in nodes && e in groups
      ensures exists p :: Sent(messages', e, groups[e].key, p)
    {
      var p :| Sent(messages, e, groups[e].key, p);
      assert Sent(messages', e, groups[e].key, p);
    }
    forall i, j | 0 <= i < j < |receivers|
      ensures receivers[i].nodeId != receivers[j].nodeId
    {
      assert Sent(messages, receivers[i].nodeId, g.key, i);
    }
  }

  lemma {:induction false} RegroupDelivers(groups: map<NodeId, Group>, nodes: seq<NodeId>)
    requires Keyed(groups) && NoDup(nodes) && forall k | 0 <= k < |nodes| :: nodes[k] in groups
    ensures Delivers(Regroup(groups, nodes), groups, nodes)
  {
    if nodes != [] {
      var rest, last := nodes[..|nodes|-1], nodes[|nodes|-1];
      assert nodes == rest + [last];
      RegroupDelivers(groups, rest);
      AddGroupDelivers(Regroup(groups, rest), groups, rest, last);
    }
  }

  // ------------------------------------------------------------ main result

  /** What leaves the node for AS node d: nothing when no service lists it, and
      otherwise one message, once, with exactly the services that list it, addressed
      as the first lookup that listed it says. */
  ghost predicate ServedOnce(messages: map<string, Message>, services: seq<ServiceData>, receivers: seq<seq<Receiver>>,
                             d: NodeId, indices: seq<nat>)
    requires |receivers| == |services| && Within(indices, |services|)
  {
    && (forall k, p: nat :: Sent(messages, d, k, p) ==>
          && indices != [] && messages[k].data == Select(services, indices)
          && IsEntry(receivers[indices[0]], d, messages[k].receivers[p]))
    && (indices != [] ==> exists k, p :: Sent(messages, d, k, p))
    && (forall k, p, k', p' :: Sent(messages, d, k, p) && Sent(messages, d, k', p') ==> k == k' && p == p')
  }

  lemma ByNodeIsKeyed(services: seq<ServiceData>, receivers: seq<seq<Receiver>>, order: seq<nat>)
    requires |receivers| == |services| && Within(order, |services|)
    requires forall i | 0 <= i < |receivers| :: DistinctNodes(receivers[i])
    ensures Keyed(ByNode(services, receivers, order))
  {
    var groups := ByNode(services, receivers, order);
    forall d | d in groups ensures groups[d].receiver.nodeId == d { ByNodeIs(services, receivers, order, d); }
    forall d, e | d in groups && e in groups && groups[d].key == groups[e].key
      ensures groups[d].data == groups[e].data
    {
      ByNodeIs(services, receivers, order, d);
      ByNodeIs(services, receivers, order, e);
      JoinInjective(Served(receivers, order, d), Served(receivers, order, e));
    }
  }

  lemma DeliveredIsServedOnce(messages: map<string, Message>, groups: map<NodeId, Group>, nodes: seq<NodeId>,
                              services: seq<ServiceData>, receivers: seq<seq<Receiver>>, d: NodeId, indices: seq<nat>)
    requires |receivers| == |services| && Within(indices, |services|)
    requires Delivers(messages, groups, nodes) && (d in nodes <==> d in groups)
    requires GroupIs(groups, services, receivers, d, indices)
    ensures ServedOnce(messages, services, receivers, d, indices)
  {
    hide Select, Join;
    forall k, p, k', p' | Sent(messages, d, k, p) && Sent(messages, d, k', p')
      ensures k == k' && p == p'
    {
      assert DistinctNodes(messages[k].receivers);
    }
  }

  /** For every completion order of the lookups and every order of visiting the
      groups, each node is served once with exactly its services. */
  lemma EachServedOnce(services: seq<ServiceData>, receivers: seq<seq<Receiver>>, order: seq<nat>, nodes: seq<NodeId>, d: NodeId)
    requires |receivers| == |services| && Within(order, |services|)
    requires forall i | 0 <= i < |receivers| :: DistinctNodes(receivers[i])
    requires NoDup(nodes) && forall n :: n in nodes <==> n in ByNode(services, receivers, order)
    ensures Within(Served(receivers, order, d), |services|)
    ensures ServedOnce(Regroup(ByNode(services, receivers, order), nodes), services, receivers, d, Served(receivers, order, d))
  {
    hide Delivers, GroupIs, ServedOnce, Keyed;
    var groups := ByNode(services, receivers, order);
    ByNodeIsKeyed(services, receivers, order);
    RegroupDelivers(groups, nodes);
    ByNodeIs(services, receivers, order, d);
    DeliveredIsServedOnce(Regroup(groups, nodes), groups, nodes, services, receivers, d, Served(receivers, order, d));
  }

  // ------------------------------------------------ the code as it is run

  /** The callback of one lookup that found receivers. */
  method AddServiceTo(groups: map<NodeId, Group>, rs: seq<Receiver>, data: ServiceData, index: nat)
    returns (result: map<NodeId, Group>)
    ensures result == AddService(groups, rs, data, index)
  {
    result := groups;
    for j := 0 to |rs|
      invariant result == AddService(groups, rs[..j], data, index)
    {
      assert rs[..j+1][..j] == rs[..j];
      result := AddReceiver(result, rs[j], data, index);
    }
    assert rs[..|rs|] == rs;
  }

  method GroupByNode(services: seq<ServiceData>, receivers: seq<seq<Receiver>>, order: seq<nat>)
    returns (groups: map<NodeId, Group>)
    requires |receivers| == |services| && Within(order, |services|)
    ensures groups == ByNode(services, receivers, order)
  {
    groups := map[];
    for k := 0 to |order|
      invariant groups == ByNode(services, receivers, order[..k])
    {
      assert order[..k+1][..k] == order[..k];
      var index := order[k];
      if |receivers[index]| > 0 {
        groups := AddServiceTo(groups, receivers[index], services[index], index);
      }
    }
    assert order[..|order|] == order;
  }

  /** sendRequestToAS: order is the order in which the lookups complete, and every
      one does. */
  method SendRequestToAS(services: seq<ServiceData>, receivers: seq<seq<Receiver>>, order: seq<nat>)
    returns (messages: map<string, Message>)
    requires |receivers| == |services|
    requires NoDup(order) && forall i :: i in order <==> 0 <= i < |services|
    requires forall i | 0 <= i < |receivers| :: DistinctNodes(receivers[i])
    ensures Within(order, |services|)
    ensures forall d :: Within(Served(receivers, order, d), |services|)
              && ServedOnce(messages, services, receivers, d, Served(receivers, order, d))
    ensures forall d, i :: i in Served(receivers, order, d) <==> 0 <= i < |services| && Listed(receivers[i], d)
    ensures forall d :: NoDup(Served(receivers, order, d))
  {
    forall k | 0 <= k < |order| ensures order[k] < |services| { assert order[k] in order; }
    var groups := GroupByNode(services, receivers, order);
    messages := map[];
    var rest, nodes := groups.Keys, [];
    while rest != {}
      invariant NoDup(nodes) && rest <= groups.Keys
      invariant forall n :: n in nodes <==> n in groups && n !in rest
      invariant messages == Regroup(groups, nodes)
      decreases |rest|
    {
      var n :| n in rest;
      AppendNoDup(nodes, n);
      assert (nodes + [n])[..|nodes|] == nodes;
      messages := AddGroup(messages, groups[n]);
      nodes, rest := nodes + [n], rest - {n};
    }
    forall d
      ensures Within(Served(receivers, order, d), |services|)
      ensures ServedOnce(messages, services, receivers, d, Served(receivers, order, d)) && NoDup(Served(receivers, order, d))
      ensures forall i :: i in Served(receivers, order, d) <==> 0 <= i < |services| && Listed(receivers[i], d)
    {
      EachServedOnce(services, receivers, order, nodes, d);
      ServedIs(receivers, order, d);
    }
  }
}
