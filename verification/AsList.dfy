/** checkAsListCondition of core/common/create_request.js: which AS nodes may serve
    each data request. The lookups of providers are answers of the chain, taken as
    given; they name each node once. */
module AsList {
  import opened Wrappers
  import opened Lists

  type NodeId = string

  datatype AsNode = AsNode(nodeId: NodeId, namespaces: seq<string>, minIal: real, minAal: real)

  datatype Terms = Terms(namespace: string, minIal: real, minAal: real)

  datatype Error =
    | DuplicateServiceId | AsListLessThanMinAs | NotEnoughAs | SomeAsDoNotProvideService | ConditionTooLow | UnqualifiedAs

  function Filter<T>(keep: T -> bool, s: seq<T>): seq<T> {
    if s == [] then [] else (if keep(s[0]) then [s[0]] else []) + Filter(keep, s[1..])
  }

  function Ids(nodes: seq<AsNode>): seq<NodeId> {
    seq(|nodes|, i requires 0 <= i < |nodes| => nodes[i].nodeId)
  }

  predicate Meets(node: AsNode, terms: Terms) {
    terms.namespace in node.namespaces && node.minIal <= terms.minIal && node.minAal <= terms.minAal
  }

  function Offered(list: Option<seq<NodeId>>, lookup: seq<AsNode>): seq<AsNode> {
    if list.None? then lookup else Filter((n: AsNode) => n.nodeId in list.value, lookup)
  }

  function Qualified(offered: seq<AsNode>, terms: Terms): seq<AsNode> {
    Filter((n: AsNode) => n.minIal <= terms.minIal && n.minAal <= terms.minAal,
      Filter((n: AsNode) => terms.namespace in n.namespaces, offered))
  }

  /** The check of one data request, and the list it is left with. */
  function CheckOne(supplied: Option<seq<NodeId>>, minAs: int, lookup: seq<AsNode>, terms: Terms): Result<seq<NodeId>, Error> {
    var list := if supplied == Some([]) then None else supplied;
    if list.Some? && |list.value| < minAs then Err(AsListLessThanMinAs)
    else if list.Some? && |lookup| < minAs then Err(NotEnoughAs)
    else
      var offered := Offered(list, lookup);
      if list.Some? && |offered| != |list.value| then Err(SomeAsDoNotProvideService)
      else
        var qualified := Qualified(offered, terms);
        if |qualified| < minAs then Err(ConditionTooLow)
        else if list.Some? && |qualified| != |list.value| then Err(UnqualifiedAs)
        else Ok(if list.Some? then list.value else Ids(qualified))
  }

  // ---------------------------------------------------------- what it means

  /** The nodes of the lookup that meet the terms. */
  ghost function QualifiedIds(lookup: seq<AsNode>, terms: Terms): set<NodeId> {
    set n | n in lookup && Meets(n, terms) :: n.nodeId
  }

  lemma {:induction false} FilterIs<T>(keep: T -> bool, s: seq<T>)
    ensures forall x :: x in Filter(keep, s) <==> x in s && keep(x)
    ensures NoDup(s) ==> NoDup(Filter(keep, s))
    ensures |Filter(keep, s)| <= |s|
  {
    if s != [] {
      assert s == [s[0]] + s[1..];
      FilterIs(keep, s[1..]);
    }
  }

  /** Node ids are distinct, so nodes and their ids are equally many. */
  ghost predicate DistinctIds(nodes: seq<AsNode>) {
    NoDup(nodes) && forall m, n :: m in nodes && n in nodes && m.nodeId == n.nodeId ==> m == n
  }

  lemma IdsSize(nodes: seq<AsNode>)
    requires DistinctIds(nodes)
    ensures NoDup(Ids(nodes)) && |Ids(nodes)| == |Elements(Ids(nodes))|
  {
    var ids := Ids(nodes);
    forall i, j | 0 <= i < j < |ids| ensures ids[i] != ids[j] { assert nodes[i] in nodes && nodes[j] in nodes; }
    ElementsSize(ids);
  }

  lemma IdsAre(nodes: seq<AsNode>, id: NodeId)
    ensures id in Ids(nodes) <==> exists n :: n in nodes && n.nodeId == id
  {
    if n :| n in nodes && n.nodeId == id {
      var i :| 0 <= i < |nodes| && nodes[i] == n;
      assert Ids(nodes)[i] == id;
    }
    if id in Ids(nodes) {
      var i :| 0 <= i < |Ids(nodes)| && Ids(nodes)[i] == id;
      assert nodes[i] in nodes;
    }
  }

  /** What the three filters leave. */
  lemma Survivors(list: Option<seq<NodeId>>, lookup: seq<AsNode>, terms: Terms) returns (offered: seq<AsNode>, qualified: seq<AsNode>)
    requires DistinctIds(lookup)
    ensures offered == Offered(list, lookup) && qualified == Qualified(offered, terms)
    ensures DistinctIds(offered) && DistinctIds(qualified) && |qualified| <= |offered| <= |lookup|
    ensures forall n :: n in offered <==> n in lookup && (list.Some? ==> n.nodeId in list.value)
    ensures forall n :: n in qualified <==> n in offered && Meets(n, terms)
  {
    offered, qualified := Offered(list, lookup), Qualified(Offered(list, lookup), terms);
    if list.Some? {
      FilterIs((n: AsNode) => n.nodeId in list.value, lookup);
    }
    FilterIs((n: AsNode) => terms.namespace in n.namespaces, offered);
    var inNamespace := Filter((n: AsNode) => terms.namespace in n.namespaces, offered);
    FilterIs((n: AsNode) => n.minIal <= terms.minIal && n.minAal <= terms.minAal, inNamespace);
  }

  /** Without a list: success exactly when enough providers meet the terms, and the
      final list is all of them. */
  lemma OpenListIff(supplied: Option<seq<NodeId>>, minAs: int, lookup: seq<AsNode>, terms: Terms)
    requires DistinctIds(lookup) && (supplied == None || supplied == Some([]))
    ensures var r := CheckOne(supplied, minAs, lookup, terms);
            && (r.Ok? <==> |QualifiedIds(lookup, terms)| >= minAs)
            && (r.Ok? ==> NoDup(r.value) && Elements(r.value) == QualifiedIds(lookup, terms))
            && (r.Err? ==> r.error == ConditionTooLow)
  {
    var offered, qualified := Survivors(None, lookup, terms);
    IdsSize(qualified);
    forall id ensures id in Elements(Ids(qualified)) <==> id in QualifiedIds(lookup, terms) { IdsAre(qualified, id); }
    assert Elements(Ids(qualified)) == QualifiedIds(lookup, terms);
  }

  /** The code only compares lengths; that they agree is a pigeonhole argument. */
  lemma SameLengthIff(list: seq<NodeId>, lookup: seq<AsNode>, terms: Terms, offered: seq<AsNode>, qualified: seq<AsNode>)
    requires DistinctIds(offered) && DistinctIds(qualified)
    requires forall n :: n in offered <==> n in lookup && n.nodeId in list
    requires forall n :: n in qualified <==> n in offered && Meets(n, terms)
    ensures |offered| <= |list|
    ensures |qualified| == |list| <==> NoDup(list) && forall id :: id in list ==> id in QualifiedIds(lookup, terms)
  {
    IdsSize(offered);
    IdsSize(qualified);
    ElementsSize(list);
    forall id ensures id in Elements(Ids(qualified)) <==> id in list && id in QualifiedIds(lookup, terms) {
      IdsAre(qualified, id);
    }
    forall id | id in Elements(Ids(offered)) ensures id in list { IdsAre(offered, id); }
    SubsetSize(Elements(Ids(qualified)), Elements(list));
    SubsetSize(Elements(Ids(offered)), Elements(list));
    if forall id :: id in list ==> id in QualifiedIds(lookup, terms) {
      assert Elements(Ids(qualified)) == Elements(list);
    } else {
      var id :| id in list && id !in QualifiedIds(lookup, terms);
      assert id in Elements(list) && id !in Elements(Ids(qualified));
    }
  }

  /** With a list: success exactly when it is long enough, names no node twice and
      names only providers that meet the terms; it is kept as it is. */
  lemma SuppliedListIff(list: seq<NodeId>, minAs: int, lookup: seq<AsNode>, terms: Terms)
    requires DistinctIds(lookup) && list != []
    ensures var r := CheckOne(Some(list), minAs, lookup, terms);
            && (r.Ok? <==> |list| >= minAs && NoDup(list) && forall id :: id in list ==> id in QualifiedIds(lookup, terms))
            && (r.Ok? ==> r.value == list)
  {
    var offered, qualified := Survivors(Some(list), lookup, terms);
    SameLengthIff(list, lookup, terms, offered, qualified);
    hide DistinctIds, Meets, QualifiedIds, Offered, Qualified;
  }

  // ------------------------------------------------ the code as it is run

  class DataRequest {
    const serviceId: string
    const minAs: int
    var asIdList: Option<seq<NodeId>>

    constructor (serviceId: string, minAs: int, asIdList: Option<seq<NodeId>>)
      ensures this.serviceId == serviceId && this.minAs == minAs && this.asIdList == asIdList
    {
      this.serviceId, this.minAs, this.asIdList := serviceId, minAs, asIdList;
    }

    /** The callback of the lookup; a list that was missing or empty is filled in. */
    method Check(lookup: seq<AsNode>, terms: Terms) returns (error: Option<Error>)
      modifies this`asIdList
      ensures var r := CheckOne(old(asIdList), minAs, lookup, terms);
              && (error == match r case Ok(_) => None case Err(e) => Some(e))
              && asIdList == match r case Ok(list) => Some(list) case Err(_) => old(asIdList)
    {
      var list := if asIdList == Some([]) then None else asIdList;
      var potential := lookup;
      if list.Some? {
        if |list.value| < minAs {
          return Some(AsListLessThanMinAs);
        }
        if |potential| < minAs {
          return Some(NotEnoughAs);
        }
        potential := Offered(list, potential);
        if |potential| != |list.value| {
          return Some(SomeAsDoNotProvideService);
        }
      }
      potential := Qualified(potential, terms);
      if |potential| < minAs {
        return Some(ConditionTooLow);
      }
      if list.Some? && |potential| != |list.value| {
        return Some(UnqualifiedAs);
      }
      if list.None? {
        asIdList := Some(Ids(potential));
      }
      return None;
    }
  }

  ghost function OfferedIds(lookup: seq<AsNode>): set<NodeId> {
    set n | n in lookup :: n.nodeId
  }

  /** How many nodes are left of a list: offered and distinct, then qualified. */
  lemma CountsOfList(list: seq<NodeId>, lookup: seq<AsNode>, terms: Terms, offered: seq<AsNode>, qualified: seq<AsNode>)
    requires DistinctIds(offered) && DistinctIds(qualified)
    requires forall n :: n in offered <==> n in lookup && n.nodeId in list
    requires forall n :: n in qualified <==> n in offered && Meets(n, terms)
    ensures |offered| == |list| <==> NoDup(list) && forall id :: id in list ==> id in OfferedIds(lookup)
    ensures |qualified| == |Elements(list) * QualifiedIds(lookup, terms)|
  {
    IdsSize(offered);
    IdsSize(qualified);
    ElementsSize(list);
    forall id ensures id in Elements(Ids(offered)) <==> id in list && id in OfferedIds(lookup) { IdsAre(offered, id); }
    forall id ensures id in Elements(Ids(qualified)) <==> id in Elements(list) * QualifiedIds(lookup, terms) {
      IdsAre(qualified, id);
    }
    assert Elements(Ids(qualified)) == Elements(list) * QualifiedIds(lookup, terms);
    SubsetSize(Elements(Ids(offered)), Elements(list));
    if forall id :: id in list ==> id in OfferedIds(lookup) {
      assert Elements(Ids(offered)) == Elements(list);
    } else {
      var id :| id in list && id !in OfferedIds(lookup);
      assert id in Elements(list) && id !in Elements(Ids(offered));
    }
  }

  /** Which error a supplied list gets. */
  lemma SuppliedListErrors(list: seq<NodeId>, minAs: int, lookup: seq<AsNode>, terms: Terms)
    requires DistinctIds(lookup) && list != []
    ensures CheckOne(Some(list), minAs, lookup, terms) ==
            if |list| < minAs then Err(AsListLessThanMinAs)
            else if |lookup| < minAs then Err(NotEnoughAs)
            else if !NoDup(list) || exists id :: id in list && id !in OfferedIds(lookup) then Err(SomeAsDoNotProvideService)
            else if |Elements(list) * QualifiedIds(lookup, terms)| < minAs then Err(ConditionTooLow)
            else if exists id :: id in list && id !in QualifiedIds(lookup, terms) then Err(UnqualifiedAs)
            else Ok(list)
  {
    var offered, qualified := Survivors(Some(list), lookup, terms);
    CountsOfList(list, lookup, terms, offered, qualified);
    SameLengthIff(list, lookup, terms, offered, qualified);
    hide DistinctIds, Meets, QualifiedIds, OfferedIds, Offered, Qualified, Elements;
  }

  /** The final list of a data request that passed. */
  ghost predicate GoodList(list: Option<seq<NodeId>>, minAs: int, lookup: seq<AsNode>, terms: Terms) {
    list.Some? && NoDup(list.value) && |list.value| >= minAs && forall id :: id in list.value ==> id in QualifiedIds(lookup, terms)
  }

  lemma OkIsGood(supplied: Option<seq<NodeId>>, minAs: int, lookup: seq<AsNode>, terms: Terms)
    requires DistinctIds(lookup)
    ensures var r := CheckOne(supplied, minAs, lookup, terms); r.Ok? ==> GoodList(Some(r.value), minAs, lookup, terms)
  {
    if supplied == None || supplied == Some([]) {
      OpenListIff(supplied, minAs, lookup, terms);
      var r := CheckOne(supplied, minAs, lookup, terms);
      if r.Ok? {
        ElementsSize(r.value);
        forall id | id in r.value ensures id in QualifiedIds(lookup, terms) { assert id in Elements(r.value); }
      }
    } else {
      SuppliedListIff(supplied.value, minAs, lookup, terms);
    }
  }

  ghost function ServiceIds(requests: seq<DataRequest>): seq<string> {
    seq(|requests|, i requires 0 <= i < |requests| => requests[i].serviceId)
  }

  type Outcome = Result<seq<NodeId>, Error>

  ghost function Outcomes(requests: seq<DataRequest>, lookups: seq<seq<AsNode>>, terms: Terms): (r: seq<Outcome>)
    requires |lookups| == |requests|
    reads requests
    ensures |r| == |requests|
    ensures forall i | 0 <= i < |r| :: r[i] == CheckOne(requests[i].asIdList, requests[i].minAs, lookups[i], terms)
  {
    seq(|requests|, i requires 0 <= i < |requests| reads requests =>
      CheckOne(requests[i].asIdList, requests[i].minAs, lookups[i], terms))
  }

  /** The failure that comes first when the checks are made in the given order. */
  ghost function FirstError(outcomes: seq<Outcome>, order: seq<nat>): (r: Option<Error>)
    requires forall k | 0 <= k < |order| :: order[k] < |outcomes|
    ensures r.None? <==> forall k | 0 <= k < |order| :: outcomes[order[k]].Ok?
  {
    if order == [] then None
    else
      var rest, last := order[..|order|-1], order[|order|-1];
      var earlier := FirstError(outcomes, rest);
      assert order == rest + [last];
      if earlier.Some? then earlier else if outcomes[last].Ok? then None else Some(outcomes[last].error)
  }

  /** The error reported is that of the earliest check that failed. */
  lemma {:induction false} FirstErrorIsFirst(outcomes: seq<Outcome>, order: seq<nat>) returns (k: nat)
    requires forall k | 0 <= k < |order| :: order[k] < |outcomes|
    requires FirstError(outcomes, order).Some?
    ensures k < |order| && outcomes[order[k]] == Err(FirstError(outcomes, order).value)
    ensures forall j | 0 <= j < k :: outcomes[order[j]].Ok?
  {
    var rest := order[..|order|-1];
    if FirstError(outcomes, rest).Some? {
      k := FirstErrorIsFirst(outcomes, rest);
      forall j | 0 <= j < k ensures outcomes[order[j]].Ok? { assert rest[j] == order[j]; }
    } else {
      k := |order| - 1;
      forall j | 0 <= j < k ensures outcomes[order[j]].Ok? { assert rest[j] == order[j]; }
    }
  }

  /** The list request i is left with. */
  ghost function Final(before: Option<seq<NodeId>>, outcome: Outcome): Option<seq<NodeId>> {
    if outcome.Ok? then Some(outcome.value) else before
  }

  /** checkAsListCondition. The lookups complete in the given order, and every one is
      followed by its check even when an earlier one failed; the first failure is the
      one reported. */
  method CheckAsListCondition(requests: seq<DataRequest>, lookups: seq<seq<AsNode>>, terms: Terms, order: seq<nat>)
    returns (error: Option<Error>)
    requires |lookups| == |requests|
    requires NoDup(order) && forall i :: i in order <==> 0 <= i < |requests|
    modifies requests
    ensures forall k | 0 <= k < |order| :: order[k] < |requests|
    ensures !NoDup(ServiceIds(requests)) ==>
              error == Some(DuplicateServiceId) && forall i | 0 <= i < |requests| :: requests[i].asIdList == old(requests[i].asIdList)
    ensures NoDup(ServiceIds(requests)) ==>
              && error == FirstError(old(Outcomes(requests, lookups, terms)), order)
              && forall i | 0 <= i < |requests| ::
                   requests[i].asIdList == Final(old(requests[i].asIdList), old(Outcomes(requests, lookups, terms))[i])
    ensures error.None? && (forall i | 0 <= i < |lookups| :: DistinctIds(lookups[i])) ==>
              NoDup(ServiceIds(requests)) &&
              forall i | 0 <= i < |requests| :: GoodList(requests[i].asIdList, requests[i].minAs, lookups[i], terms)
  {
    ghost var outcomes := Outcomes(requests, lookups, terms);
    forall k | 0 <= k < |order| ensures order[k] < |requests| { assert order[k] in order; }
    var serviceIds := seq(|requests|, i requires 0 <= i < |requests| => requests[i].serviceId);
    var distinct := set x | x in serviceIds;
    ElementsSize(serviceIds);
    assert distinct == Elements(serviceIds) && serviceIds == ServiceIds(requests);
    if |serviceIds| != |distinct| {
      return Some(DuplicateServiceId);
    }
    forall i, j | 0 <= i < j < |requests| ensures requests[i] != requests[j] { assert serviceIds[i] != serviceIds[j]; }
    error := CheckEach(requests, lookups, terms, order);
    forall i | error.None? && 0 <= i < |requests| && DistinctIds(lookups[i])
      ensures GoodList(requests[i].asIdList, requests[i].minAs, lookups[i], terms)
    {
      assert i in order && outcomes[i].Ok?;
      OkIsGood(old(requests[i].asIdList), requests[i].minAs, lookups[i], terms);
    }
  }

  /** The callbacks, in the order in which they run. */
  method CheckEach(requests: seq<DataRequest>, lookups: seq<seq<AsNode>>, terms: Terms, order: seq<nat>)
    returns (error: Option<Error>)
    requires |lookups| == |requests| && NoDup(requests)
    requires NoDup(order) && forall k | 0 <= k < |order| :: order[k] < |requests|
    modifies requests
    ensures error == FirstError(old(Outcomes(requests, lookups, terms)), order)
    ensures forall i | 0 <= i < |requests| :: requests[i].asIdList ==
              if i in order then Final(old(requests[i].asIdList), old(Outcomes(requests, lookups, terms))[i])
              else old(requests[i].asIdList)
  {
    ghost var outcomes := Outcomes(requests, lookups, terms);
    error := None;
    for k := 0 to |order|
      invariant error == FirstError(outcomes, order[..k])
      invariant forall i | 0 <= i < |requests| :: requests[i].asIdList ==
                  if i in order[..k] then Final(old(requests[i].asIdList), outcomes[i]) else old(requests[i].asIdList)
    {
      assert order[..k+1][..k] == order[..k];
      var i := order[k];
      assert i !in order[..k];
      var failure := requests[i].Check(lookups[i], terms);
      if error.None? {
        error := failure;
      }
    }
    assert order[..|order|] == order;
  }
}
