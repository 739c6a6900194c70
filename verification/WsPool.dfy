/** The round-robin choice among connected clients of tendermint/ws_pool.js. */
module WsPool {
  import opened Wrappers
  import opened Lists

  datatype Pool = Pool(connected: seq<bool>, index: nat)  // wsClients[i].connected, wsClientIndex

  /** The connected clients, in order. */
  ghost function Connected(connected: seq<bool>): seq<nat> {
    if connected == [] then []
    else
      var n := |connected| - 1;
      if connected[n] then Connected(connected[..n]) + [n] else Connected(connected[..n])
  }

  /** How many connected clients come before position i. */
  ghost function Rank(connected: seq<bool>, i: nat): nat
    requires i <= |connected|
  {
    |Connected(connected[..i])|
  }

  /** The first connected client from a position up to an end. */
  function FirstFrom(connected: seq<bool>, from: nat, end: nat): (r: Option<nat>)
    requires from <= end <= |connected|
    ensures r.Some? ==> from <= r.value < end && connected[r.value] && (forall j | from <= j < r.value :: !connected[j])
    ensures r.None? ==> (forall j | from <= j < end :: !connected[j])
    decreases end - from
  {
    if from == end then None else if connected[from] then Some(from) else FirstFrom(connected, from + 1, end)
  }

  /** getNextConnectedConnectionClientIndex: from the current position to the end,
      then from the start. */
  function NextConnected(connected: seq<bool>, current: nat): Option<nat>
    requires current <= |connected|
  {
    var ahead := FirstFrom(connected, current, |connected|);
    if ahead.Some? then ahead else FirstFrom(connected, 0, current)
  }

  datatype Error = TypeError | NoConnectedWs

  /** getConnection. Without any client the index becomes NaN and the lookup throws. */
  function Get(p: Pool): (Pool, Result<nat, Error>) {
    if |p.connected| == 0 then (p, Err(TypeError))
    else
      var current := p.index % |p.connected|;
      match NextConnected(p.connected, current)
      case None => (p.(index := current), Err(NoConnectedWs))
      case Some(i) => (p.(index := i + 1), Ok(i))
  }

  // ------------------------------------------------------- rank arithmetic

  lemma {:induction false} ConnectedAre(connected: seq<bool>)
    ensures forall i :: i in Connected(connected) <==> 0 <= i < |connected| && connected[i]
    ensures NoDup(Connected(connected))
  {
    if connected != [] {
      var n := |connected| - 1;
      ConnectedAre(connected[..n]);
      if connected[n] {
        AppendNoDup(Connected(connected[..n]), n);
      }
    }
  }

  /** The next connected position has the same rank, and that is its place in the list. */
  lemma {:induction false} PlaceIsRank(connected: seq<bool>, i: nat)
    requires i < |connected| && connected[i]
    ensures var list, r := Connected(connected), Rank(connected, i);
            r < |list| && list[r] == i && Rank(connected, i + 1) == r + 1
  {
    var n := |connected| - 1;
    assert connected[..i+1][..i] == connected[..i];
    if i == n {
      assert connected[..i+1] == connected;
    } else {
      PlaceIsRank(connected[..n], i);
      assert connected[..n][..i] == connected[..i] && connected[..n][..i+1] == connected[..i+1];
    }
  }

  lemma {:induction false} RankFlat(connected: seq<bool>, from: nat, end: nat)
    requires from <= end <= |connected| && forall j | from <= j < end :: !connected[j]
    ensures Rank(connected, from) == Rank(connected, end)
  {
    if from < end {
      RankFlat(connected, from, end - 1);
      assert connected[..end][..end-1] == connected[..end-1];
    }
  }

  lemma RankEnds(connected: seq<bool>)
    ensures Rank(connected, 0) == 0 && Rank(connected, |connected|) == |Connected(connected)|
  {
    assert connected[..|connected|] == connected;
  }

  /** x taken round a circle of k places. */
  function Round(x: nat, k: nat): (r: nat)
    requires k > 0
    ensures r < k
  {
    if x < k then x else Round(x - k, k)
  }

  lemma {:induction false} RoundAgain(x: nat, j: nat, k: nat)
    requires k > 0
    ensures Round(Round(x, k) + j, k) == Round(x + j, k)
  {
    if x >= k {
      RoundAgain(x - k, j, k);
    }
  }

  /** The client chosen from a position is number Rank of the connected ones,
      counting round. */
  lemma NextHasRank(connected: seq<bool>, from: nat)
    requires from < |connected| && Connected(connected) != []
    ensures var list, r, next := Connected(connected), Rank(connected, from), NextConnected(connected, from);
            && next.Some? && next.value < |connected|
            && list[Round(r, |list|)] == next.value && Rank(connected, next.value + 1) == Round(r, |list|) + 1
  {
    ConnectedAre(connected);
    RankEnds(connected);
    assert Connected(connected)[0] in Connected(connected);
    var next := NextConnected(connected, from);
    hide Connected;
    PlaceIsRank(connected, next.value);
    if next.value >= from {
      RankFlat(connected, from, next.value);
    } else {
      RankFlat(connected, from, |connected|);
      RankFlat(connected, 0, next.value);
    }
  }

  // ----------------------------------------------------------- many calls

  /** The outcomes of k calls in a row. */
  ghost function Calls(p: Pool, k: nat): seq<Result<nat, Error>>
    decreases k
  {
    if k == 0 then [] else [Get(p).1] + Calls(Get(p).0, k - 1)
  }

  /** Where in the list of connected clients the pool stands. */
  ghost function Standing(p: Pool): nat
    requires p.connected != []
  {
    Rank(p.connected, p.index % |p.connected|)
  }

  lemma OneCall(p: Pool)
    requires Connected(p.connected) != []
    ensures p.connected != []
    ensures var list := Connected(p.connected);
            && Get(p).1 == Ok(list[Round(Standing(p), |list|)])
            && Get(p).0.connected == p.connected
            && Round(Standing(Get(p).0), |list|) == Round(Standing(p) + 1, |list|)
  {
    assert p.connected != [] by { ConnectedAre(p.connected); }
    hide Connected, NextConnected;
    var n, list := |p.connected|, Connected(p.connected);
    NextHasRank(p.connected, p.index % n);
    RankEnds(p.connected);
    WrapIndex(Get(p).0.index, n);
    RoundAgain(Standing(p), 1, |list|);
  }

  lemma WrapIndex(i: nat, n: nat)
    requires 0 < i <= n
    ensures i % n == if i == n then 0 else i
  {
  }

  /** Call number j returns the connected client j places after the standing one,
      counting round. */
  lemma {:induction false} CallsGoRound(p: Pool, k: nat, j: nat)
    requires Connected(p.connected) != [] && j < k
    ensures p.connected != [] && |Calls(p, k)| == k
    ensures var list := Connected(p.connected); Calls(p, k)[j] == Ok(list[Round(Standing(p) + j, |list|)])
    decreases k
  {
    hide Get, Connected;
    OneCall(p);
    hide Standing;
    var list := Connected(p.connected);
    CallsLength(Get(p).0, k - 1);
    if j > 0 {
      CallsGoRound(Get(p).0, k - 1, j - 1);
      RoundAgain(Standing(Get(p).0), j - 1, |list|);
      RoundAgain(Standing(p) + 1, j - 1, |list|);
    }
  }

  lemma {:induction false} CallsLength(p: Pool, k: nat)
    ensures |Calls(p, k)| == k
    decreases k
  {
    if k > 0 {
      CallsLength(Get(p).0, k - 1);
    }
  }

  /** With k connected clients, any k calls in a row return each of them exactly
      once, wherever the index stands. */
  lemma RoundRobinIsFair(p: Pool, i: nat) returns (j: nat)
    requires i < |p.connected| && p.connected[i]
    ensures var k := |Connected(p.connected)|;
            && j < k && |Calls(p, k)| == k && Calls(p, k)[j] == Ok(i)
            && forall x | 0 <= x < k :: Calls(p, k)[x] == Ok(i) ==> x == j
  {
    ConnectedAre(p.connected);
    var list := Connected(p.connected);
    var k, r := |list|, Standing(p);
    PlaceIsRank(p.connected, i);
    var place := Rank(p.connected, i);
    assert r <= k by { RankAtMost(p.connected, p.index % |p.connected|); }
    j := Round(place + k - r, k);
    RoundTo(r, place, k);
    CallsLength(p, k);
    CallsGoRound(p, k, j);
    forall x | 0 <= x < k && Calls(p, k)[x] == Ok(i)
      ensures x == j
    {
      CallsGoRound(p, k, x);
      assert list[Round(r + x, k)] == list[place];
      RoundUnique(r, x, place, k);
    }
  }

  lemma {:induction false} RankAtMost(connected: seq<bool>, i: nat)
    requires i <= |connected|
    ensures Rank(connected, i) <= |Connected(connected)|
  {
    if i == |connected| {
      RankEnds(connected);
    } else {
      RankAtMost(connected[..|connected|-1], i);
      assert connected[..|connected|-1][..i] == connected[..i];
    }
  }

  lemma RoundTo(r: nat, place: nat, k: nat)
    requires r <= k && place < k
    ensures Round(r + Round(place + k - r, k), k) == place
  {
    RoundAgain(place + k - r, r, k);
  }

  lemma RoundUnique(r: nat, x: nat, place: nat, k: nat)
    requires r <= k && x < k && place < k && Round(r + x, k) == place
    ensures x == Round(place + k - r, k)
  {
    RoundAgain(r + x, k - r, k);
  }

  /** getConnection throws exactly when no client is connected. */
  lemma ThrowsIff(p: Pool)
    ensures Get(p).1.Err? <==> forall i | 0 <= i < |p.connected| :: !p.connected[i]
  {
  }

  // ------------------------------------------------ the code as it is run

  class Clients {
    var connected: seq<bool>
    var wsClientIndex: nat

    ghost function View(): Pool
      reads this
    {
      Pool(connected, wsClientIndex)
    }

    constructor (clients: nat)
      ensures View() == Pool(seq(clients, _ => false), 0)
    {
      connected, wsClientIndex := seq(clients, _ => false), 0;
    }

    method GetNextConnectedIndex(currentIndex: nat) returns (r: Option<nat>)
      requires currentIndex <= |connected|
      ensures r == NextConnected(connected, currentIndex)
    {
      for i := currentIndex to |connected|
        invariant FirstFrom(connected, currentIndex, |connected|) == FirstFrom(connected, i, |connected|)
      {
        if connected[i] {
          return Some(i);
        }
      }
      if currentIndex != 0 {
        for i := 0 to currentIndex
          invariant FirstFrom(connected, 0, currentIndex) == FirstFrom(connected, i, currentIndex)
        {
          if connected[i] {
            return Some(i);
          }
        }
      }
      return None;
    }

    method GetConnection() returns (client: Result<nat, Error>)
      modifies this`wsClientIndex
      ensures (View(), client) == Get(old(View()))
    {
      if |connected| == 0 {
        return Err(TypeError);
      }
      wsClientIndex := wsClientIndex % |connected|;
      if !connected[wsClientIndex] {
        var next := GetNextConnectedIndex(wsClientIndex);
        if next == None {
          return Err(NoConnectedWs);
        }
        wsClientIndex := next.value;
      }
      client := Ok(wsClientIndex);
      wsClientIndex := wsClientIndex + 1;
    }
  }
}
