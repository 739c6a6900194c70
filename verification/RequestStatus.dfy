/** getDetailedRequestStatus of utils/index.js: the status of a request from its
    responses and the totals over its data services. */
module RequestStatus {
  import opened Wrappers

  datatype Response = Accept | Reject | Other

  datatype Service = Service(
    serviceId: string,
    minAs: nat,
    answeredAsIds: Option<seq<string>>,     // signed answers
    receivedDataFrom: Option<seq<string>>)

  datatype Detail = Detail(minIdp: nat, purpose: string, services: Option<seq<Service>>, responses: Option<seq<Response>>)

  datatype Status = Pending | Confirmed | Rejected | Complicated | Completed

  function Length<T>(list: Option<seq<T>>): nat {
    if list.Some? then |list.value| else 0
  }

  function List<T>(list: Option<seq<T>>): seq<T> {
    if list.Some? then list.value else []
  }

  function Signed(s: Service): nat { Length(s.answeredAsIds) }

  function Received(s: Service): nat { Length(s.receivedDataFrom) }

  datatype Totals = Totals(count: nat, signed: nat, received: nat)

  /** The reduce over service_list. */
  function Total(services: seq<Service>): Totals {
    if services == [] then Totals(0, 0, 0)
    else
      var t, s := Total(services[..|services|-1]), services[|services|-1];
      Totals(t.count + s.minAs, t.signed + Signed(s), t.received + Received(s))
  }

  function Count(responses: seq<Response>, what: Response): nat {
    if responses == [] then 0
    else Count(responses[..|responses|-1], what) + if responses[|responses|-1] == what then 1 else 0
  }

  const IDENTITY_PURPOSES := ["RegisterIdentity", "AddAccessor", "RevokeAccessor"]

  /** The status; None stands for undefined, left when all responses are of neither kind. */
  method GetDetailedRequestStatus(detail: Detail) returns (status: Option<Status>)
    ensures status == Some(Completed) <==> IsCompleted(detail)
    ensures !IsCompleted(detail) ==> status == ByResponses(List(detail.responses))
  {
    var responses, services := List(detail.responses), List(detail.services);
    status := None;
    if |responses| == 0 {
      status := Some(Pending);
    }
    var accept, reject := Count(responses, Accept), Count(responses, Reject);
    CountIs(responses, Accept);
    CountIs(responses, Reject);
    if accept > 0 && reject == 0 {
      status := Some(Confirmed);
    } else if accept == 0 && reject > 0 {
      status := Some(Rejected);
    } else if accept > 0 && reject > 0 {
      status := Some(Complicated);
    }
    if |services| == 0 {
      if |responses| == detail.minIdp {
        if reject == 0 && (accept > 0 || (accept == 0 && detail.purpose in IDENTITY_PURPOSES)) {
          status := Some(Completed);
        }
      }
    } else {
      var totals := Total(services);
      if totals.count == totals.signed && totals.signed == totals.received {
        status := Some(Completed);
      }
    }
  }

  /** What the responses alone say. */
  ghost function ByResponses(responses: seq<Response>): Option<Status> {
    if responses == [] then Some(Pending)
    else if Accept in responses then Some(if Reject in responses then Complicated else Confirmed)
    else if Reject in responses then Some(Rejected)
    else None
  }

  /** What 'completed' says: with data services only the totals count, responses do not. */
  ghost predicate IsCompleted(detail: Detail) {
    var responses, services := List(detail.responses), List(detail.services);
    if services == [] then
      |responses| == detail.minIdp && Reject !in responses && (Accept in responses || detail.purpose in IDENTITY_PURPOSES)
    else Total(services).count == Total(services).signed == Total(services).received
  }

  lemma {:induction false} CountIs(responses: seq<Response>, what: Response)
    ensures Count(responses, what) > 0 <==> what in responses
  {
    if responses != [] {
      var rest, last := responses[..|responses|-1], responses[|responses|-1];
      assert responses == rest + [last];
      CountIs(rest, what);
    }
  }

  // ------------------------------------------------------ totals, pointwise

  /** No more signatures than asked for, no data before its signature. */
  ghost predicate WithinBounds(services: seq<Service>) {
    forall s | s in services :: Received(s) <= Signed(s) <= s.minAs
  }

  ghost predicate EachComplete(services: seq<Service>) {
    forall s | s in services :: Received(s) == Signed(s) == s.minAs
  }

  lemma {:induction false} TotalsBounded(services: seq<Service>)
    requires WithinBounds(services)
    ensures var t := Total(services); t.received <= t.signed <= t.count
    ensures var t := Total(services); t.count == t.signed == t.received <==> EachComplete(services)
  {
    if services != [] {
      var rest, last := services[..|services|-1], services[|services|-1];
      assert services == rest + [last];
      TotalsBounded(rest);
    }
  }

  /** Within the bounds a request with data services is 'completed' exactly when every
      single service is. */
  lemma CompletedIsPointwise(detail: Detail)
    requires List(detail.services) != [] && WithinBounds(List(detail.services))
    ensures IsCompleted(detail) <==> EachComplete(List(detail.services))
  {
    TotalsBounded(List(detail.services));
  }

  /** A 'completed' request has every single service complete exactly when it is within
      the bounds. */
  lemma CompletedIsPointwiseIff(detail: Detail)
    requires List(detail.services) != [] && IsCompleted(detail)
    ensures EachComplete(List(detail.services)) <==> WithinBounds(List(detail.services))
  {
    if WithinBounds(List(detail.services)) {
      TotalsBounded(List(detail.services));
    }
  }

  /** Outside them it may not: one service's surplus pays for another's lack. */
  lemma TotalsCanMislead() returns (detail: Detail)
    ensures IsCompleted(detail) && !EachComplete(List(detail.services))
  {
    var a := Service("a", 1, Some(["x", "y"]), Some(["x"]));
    var b := Service("b", 1, None, Some(["z"]));
    detail := Detail(1, "", Some([a, b]), Some([Accept]));
    var services := List(detail.services);
    assert services[..1] == [a] && [a][..0] == [];
    assert Total([a]) == Totals(1, 2, 1);
    assert Total(services) == Totals(2, 2, 2);
    assert b in services && Signed(b) == 0;
  }

  /** Whatever the bounds, each single service complete is enough. */
  lemma {:induction false} EachCompleteSuffices(services: seq<Service>)
    requires EachComplete(services)
    ensures Total(services).count == Total(services).signed == Total(services).received
  {
    if services != [] {
      assert services == services[..|services|-1] + [services[|services|-1]];
      EachCompleteSuffices(services[..|services|-1]);
    }
  }

  // ----------------------------------------------------------- later states

  ghost predicate Prefix<T>(a: seq<T>, b: seq<T>) {
    |a| <= |b| && a == b[..|a|]
  }

  /** later is detail after more answers, data and responses have come in. */
  ghost predicate Grows(detail: Detail, later: Detail) {
    var a, b := List(detail.services), List(later.services);
    && later.minIdp == detail.minIdp && later.purpose == detail.purpose
    && Prefix(List(detail.responses), List(later.responses))
    && |a| == |b| && forall i | 0 <= i < |a| ::
         && b[i].minAs == a[i].minAs
         && Prefix(List(a[i].answeredAsIds), List(b[i].answeredAsIds))
         && Prefix(List(a[i].receivedDataFrom), List(b[i].receivedDataFrom))
  }

  ghost predicate Allowed(detail: Detail) {
    WithinBounds(List(detail.services)) && Length(detail.responses) <= detail.minIdp
  }

  /** As long as the bounds hold, 'completed' is never left. */
  lemma CompletedIsFinal(detail: Detail, later: Detail)
    requires Grows(detail, later) && Allowed(detail) && Allowed(later) && IsCompleted(detail)
    ensures IsCompleted(later)
  {
    var a, b := List(detail.services), List(later.services);
    if a == [] {
      assert List(later.responses) == List(detail.responses);
    } else {
      CompletedIsPointwise(detail);
      forall s | s in b
        ensures Received(s) == Signed(s) == s.minAs
      {
        var i :| 0 <= i < |b| && b[i] == s;
        assert a[i] in a;
      }
      CompletedIsPointwise(later);
    }
  }

  /** The service lists of two details of which one grows from the other. */
  ghost predicate Grown(a: seq<Service>, b: seq<Service>) {
    |a| == |b| && forall i | 0 <= i < |a| ::
      b[i].minAs == a[i].minAs && Signed(a[i]) <= Signed(b[i]) && Received(a[i]) <= Received(b[i])
  }

  ghost predicate SameCounts(a: seq<Service>, b: seq<Service>) {
    |a| == |b| && forall i | 0 <= i < |a| :: Signed(b[i]) == Signed(a[i]) && Received(b[i]) == Received(a[i])
  }

  lemma {:induction false} TotalsGrow(a: seq<Service>, b: seq<Service>)
    requires Grown(a, b)
    ensures var t, t' := Total(a), Total(b);
            && t'.count == t.count && t.signed <= t'.signed && t.received <= t'.received
            && (t'.signed == t.signed && t'.received == t.received <==> SameCounts(a, b))
  {
    if a != [] {
      var n := |a| - 1;
      TotalsGrow(a[..n], b[..n]);
      assert a == a[..n] + [a[n]] && b == b[..n] + [b[n]];
      assert SameCounts(a, b) <==> SameCounts(a[..n], b[..n]) && Signed(b[n]) == Signed(a[n]) && Received(b[n]) == Received(a[n]);
    }
  }

  /** Whether 'completed' outlives later data, without any bounds: with services exactly
      when no answer and no data have been added, without them exactly when no response
      has. */
  lemma StaysCompletedIff(detail: Detail, later: Detail)
    requires Grows(detail, later) && IsCompleted(detail)
    ensures IsCompleted(later) <==>
              if List(detail.services) == [] then Length(later.responses) == Length(detail.responses)
              else SameCounts(List(detail.services), List(later.services))
  {
    var a, b := List(detail.services), List(later.services);
    if a == [] {
      if Length(later.responses) == Length(detail.responses) {
        assert List(later.responses) == List(detail.responses);
      }
    } else {
      assert Grown(a, b);
      TotalsGrow(a, b);
    }
  }
}
