/** The master's bookkeeping of workers and outstanding calls,
    master-worker-interface/server.js. W is the identity of a worker object: a
    worker that leaves and subscribes again is a new object, while calls made to the
    old one still point to the old one. */
module Scheduler {
  import opened Wrappers
  import opened Lists
  import Sums

  type WorkerId = string
  type RefId = nat  // grpcCallRefIdCounter; the random prefix is the same for all

  datatype Master<W> = Master(
    list: seq<W>,               // workerList
    ids: map<W, WorkerId>,      // of every worker there ever was
    jobs: map<W, int>,          // jobCount
    stopping: set<W>,
    calls: map<RefId, W>,       // grpcCall
    stoppingCount: int,
    counter: RefId)

  ghost function ById<W>(list: seq<W>, ids: map<W, WorkerId>, id: WorkerId): (r: Option<W>)
    ensures r.Some? ==> r.value in list && r.value in ids && ids[r.value] == id
    ensures r.None? ==> forall w :: w in list && w in ids ==> ids[w] != id
  {
    if list == [] then None
    else if list[0] in ids && ids[list[0]] == id then Some(list[0])
    else ById(list[1..], ids, id)
  }

  /** The minimum loop of getWorker: the first of the least loaded workers that are
      not stopping. */
  ghost function LeastLoaded<W>(list: seq<W>, jobs: map<W, int>, stopping: set<W>): (r: Option<W>)
    requires forall w :: w in list ==> w in jobs
    ensures r.None? <==> forall w :: w in list ==> w in stopping
    ensures r.Some? ==> r.value in list && r.value !in stopping
    ensures r.Some? ==> forall w :: w in list && w !in stopping ==> jobs[r.value] <= jobs[w]
  {
    if list == [] then None
    else
      var rest, last := list[..|list|-1], list[|list|-1];
      var best := LeastLoaded(rest, jobs, stopping);
      assert list == rest + [last];
      if last !in stopping && (best.None? || jobs[last] < jobs[best.value]) then Some(last) else best
  }

  datatype Error = NoWorkerAvailable | WorkerNotFound

  /** specific = None also stands for the empty id. */
  ghost function GetWorker<W>(s: Master<W>, specific: Option<WorkerId>): Result<W, Error>
    requires Known(s)
  {
    if |s.list| == 0 || |s.list| == s.stoppingCount then Err(NoWorkerAvailable)
    else match specific
      case None =>
        var best := LeastLoaded(s.list, s.jobs, s.stopping);
        if best.None? then Err(NoWorkerAvailable) else Ok(best.value)
      case Some(id) =>
        var found := ById(s.list, s.ids, id);
        if found.None? then Err(WorkerNotFound) else Ok(found.value)
  }

  ghost predicate Known<W>(s: Master<W>) {
    s.ids.Keys == s.jobs.Keys && (forall w :: w in s.list ==> w in s.jobs) && (forall w :: w in s.stopping ==> w in s.jobs)
  }

  ghost function CallsTo<W>(calls: map<RefId, W>, w: W): set<RefId> {
    set r | r in calls && calls[r] == w
  }

  ghost function StoppingMembers<W>(list: seq<W>, stopping: set<W>): set<W> {
    set w | w in list && w in stopping
  }

  ghost predicate UniqueIds<W>(list: seq<W>, ids: map<W, WorkerId>) {
    forall i, j | 0 <= i < j < |list| :: list[i] in ids && list[j] in ids ==> ids[list[i]] != ids[list[j]]
  }

  ghost predicate JobsInv<W>(jobs: map<W, int>, calls: map<RefId, W>, counter: RefId) {
    && (forall w :: w in jobs ==> jobs[w] == |CallsTo(calls, w)|)
    && (forall r :: r in calls ==> r < counter && calls[r] in jobs)
  }

  /** jobCount counts the outstanding calls of each worker, present or gone;
      stoppingWorkerCount counts the stopping members; ids are unique. */
  ghost predicate Inv<W>(s: Master<W>) {
    && Known(s)
    && UniqueIds(s.list, s.ids)
    && s.stoppingCount == |StoppingMembers(s.list, s.stopping)|
    && JobsInv(s.jobs, s.calls, s.counter)
  }

  // ----------------------------------------------------------------- steps

  /** A worker with the id of a member is turned away. */
  ghost function Subscribe<W>(s: Master<W>, id: WorkerId, w: W): Master<W> {
    if ById(s.list, s.ids, id).Some? then s
    else s.(list := s.list + [w], ids := s.ids[w := id], jobs := s.jobs[w := 0])
  }

  ghost function Cancelled<W>(s: Master<W>, id: WorkerId): Master<W> {
    match ById(s.list, s.ids, id)
    case None => s
    case Some(w) =>
      s.(list := Without(s.list, w), stoppingCount := s.stoppingCount - if w in s.stopping then 1 else 0)
  }

  ghost function Stopping<W>(s: Master<W>, id: WorkerId): Master<W> {
    match ById(s.list, s.ids, id)
    case None => s
    case Some(w) =>
      if w in s.stopping then s else s.(stopping := s.stopping + {w}, stoppingCount := s.stoppingCount + 1)
  }

  ghost function Call<W>(s: Master<W>, w: W): Master<W>
    requires w in s.jobs
  {
    s.(calls := s.calls[s.counter := w], jobs := s.jobs[w := s.jobs[w] + 1], counter := s.counter + 1)
  }

  /** delegateToWorker takes a reference id even when there is no worker to take it. */
  ghost function Delegate<W>(s: Master<W>, specific: Option<WorkerId>): Master<W>
    requires Known(s)
  {
    match GetWorker(s, specific)
    case Ok(w) => Call(s, w)
    case Err(_) => s.(counter := s.counter + 1)
  }

  /** remoteFnCallToWorkers. */
  ghost function CallAll<W>(s: Master<W>, list: seq<W>, excluded: seq<WorkerId>): Master<W>
    decreases |list|
  {
    if list == [] then s
    else CallAll(if Called(s, list[0], excluded) then Call(s, list[0]) else s, list[1..], excluded)
  }

  ghost predicate Called<W>(s: Master<W>, w: W, excluded: seq<WorkerId>) {
    w in s.jobs && w in s.ids && w !in s.stopping && s.ids[w] !in excluded
  }

  ghost function Return<W>(s: Master<W>, ref: RefId): Master<W> {
    if ref !in s.calls || s.calls[ref] !in s.jobs then s
    else s.(jobs := s.jobs[s.calls[ref] := s.jobs[s.calls[ref]] - 1], calls := s.calls - {ref})
  }

  datatype Event<W> =
    | Joins(id: WorkerId, worker: W)
    | Leaves(id: WorkerId)
    | Stops(id: WorkerId)
    | Delegated(specific: Option<WorkerId>)
    | Broadcast(excluded: seq<WorkerId>)
    | Returned(ref: RefId)

  ghost predicate Enabled<W>(s: Master<W>, e: Event<W>) {
    Known(s) && (e.Joins? ==> e.worker !in s.jobs)
  }

  ghost function Step<W>(s: Master<W>, e: Event<W>): Master<W>
    requires Enabled(s, e)
  {
    match e
    case Joins(id, w) => Subscribe(s, id, w)
    case Leaves(id) => Cancelled(s, id)
    case Stops(id) => Stopping(s, id)
    case Delegated(specific) => Delegate(s, specific)
    case Broadcast(excluded) => CallAll(s, s.list, excluded)
    case Returned(ref) => Return(s, ref)
  }

  // ------------------------------------------------------------- invariant

  lemma OneMoreCall<W>(calls: map<RefId, W>, r: RefId, w: W, x: W)
    requires r !in calls
    ensures |CallsTo(calls[r := w], x)| == |CallsTo(calls, x)| + if x == w then 1 else 0
  {
    assert CallsTo(calls[r := w], x) == CallsTo(calls, x) + if x == w then {r} else {};
  }

  lemma CallKeepsJobs<W>(jobs: map<W, int>, calls: map<RefId, W>, counter: RefId, w: W)
    requires JobsInv(jobs, calls, counter) && w in jobs
    ensures JobsInv(jobs[w := jobs[w] + 1], calls[counter := w], counter + 1)
  {
    hide CallsTo;
    forall x | x in jobs
      ensures jobs[w := jobs[w] + 1][x] == |CallsTo(calls[counter := w], x)|
    {
      OneMoreCall(calls, counter, w, x);
    }
  }

  lemma ReturnKeepsJobs<W>(jobs: map<W, int>, calls: map<RefId, W>, counter: RefId, ref: RefId)
    requires JobsInv(jobs, calls, counter) && ref in calls
    ensures var w := calls[ref]; JobsInv(jobs[w := jobs[w] - 1], calls - {ref}, counter)
  {
    var w := calls[ref];
    forall x | x in jobs
      ensures |CallsTo(calls - {ref}, x)| == |CallsTo(calls, x)| - if x == w then 1 else 0
    {
      assert CallsTo(calls - {ref}, x) == CallsTo(calls, x) - {ref};
    }
  }

  lemma CallInv<W>(s: Master<W>, w: W)
    requires Inv(s) && w in s.jobs
    ensures Inv(Call(s, w))
  {
    CallKeepsJobs(s.jobs, s.calls, s.counter, w);
    assert Call(s, w).jobs.Keys == s.jobs.Keys;
  }

  lemma {:induction false} CallAllInv<W>(s: Master<W>, list: seq<W>, excluded: seq<WorkerId>)
    requires Inv(s)
    ensures Inv(CallAll(s, list, excluded))
    decreases |list|
  {
    if list != [] {
      if Called(s, list[0], excluded) {
        CallInv(s, list[0]);
        CallAllInv(Call(s, list[0]), list[1..], excluded);
      } else {
        CallAllInv(s, list[1..], excluded);
      }
    }
  }

  lemma ReturnInv<W>(s: Master<W>, ref: RefId)
    requires Inv(s)
    ensures Inv(Return(s, ref))
  {
    if ref in s.calls {
      ReturnKeepsJobs(s.jobs, s.calls, s.counter, ref);
      assert Return(s, ref).jobs.Keys == s.jobs.Keys;
    }
  }

  lemma UniqueIff<W>(list: seq<W>, ids: map<W, WorkerId>)
    requires forall w :: w in list ==> w in ids
    ensures UniqueIds(list, ids) <==> NoDup(list) && forall x, y :: x in list && y in list && x != y ==> ids[x] != ids[y]
  {
  }

  lemma CancelledInv<W>(s: Master<W>, id: WorkerId)
    requires Inv(s)
    ensures Inv(Cancelled(s, id))
  {
    var found := ById(s.list, s.ids, id);
    if found.Some? {
      var w, s' := found.value, Cancelled(s, id);
      UniqueIff(s.list, s.ids);
      WithoutNoDup(s.list, w);
      UniqueIff(s'.list, s.ids);
      assert StoppingMembers(s'.list, s.stopping) == StoppingMembers(s.list, s.stopping) - {w};
    }
  }

  lemma WithoutAt<W>(list: seq<W>, i: nat)
    requires NoDup(list) && i < |list|
    ensures Without(list, list[i]) == list[..i] + list[i+1..]
  {
    var k := IndexOf(list, list[i]);
    assert k == i;
  }

  lemma CancelledAt<W>(s: Master<W>, id: WorkerId, i: nat)
    requires Inv(s) && i < |s.list| && s.ids[s.list[i]] == id
    ensures var w := s.list[i];
            Cancelled(s, id) == s.(list := s.list[..i] + s.list[i+1..],
              stoppingCount := s.stoppingCount - if w in s.stopping then 1 else 0)
    ensures forall w :: w in s.list[..i] + s.list[i+1..] ==> s.ids[w] != id
  {
    UniqueIff(s.list, s.ids);
    WithoutAt(s.list, i);
    WithoutNoDup(s.list, s.list[i]);
  }

  lemma NoneHasId<W>(s: Master<W>, id: WorkerId)
    requires Known(s) && forall w :: w in s.list ==> s.ids[w] != id
    ensures Cancelled(s, id) == s
  {
  }

  lemma SubscribeInv<W>(s: Master<W>, id: WorkerId, w: W)
    requires Inv(s) && w !in s.jobs
    ensures Inv(Subscribe(s, id, w))
  {
    if ById(s.list, s.ids, id).None? {
      var s' := Subscribe(s, id, w);
      UniqueIff(s.list, s.ids);
      UniqueIff(s'.list, s'.ids);
      assert StoppingMembers(s'.list, s.stopping) == StoppingMembers(s.list, s.stopping);
      assert CallsTo(s.calls, w) == {};
    }
  }

  lemma StoppingInv<W>(s: Master<W>, id: WorkerId)
    requires Inv(s)
    ensures Inv(Stopping(s, id))
  {
    var found := ById(s.list, s.ids, id);
    if found.Some? && found.value !in s.stopping {
      assert StoppingMembers(s.list, s.stopping + {found.value}) == StoppingMembers(s.list, s.stopping) + {found.value};
    }
  }

  lemma DelegateInv<W>(s: Master<W>, specific: Option<WorkerId>)
    requires Inv(s)
    ensures Inv(Delegate(s, specific))
  {
    if GetWorker(s, specific).Ok? {
      CallInv(s, GetWorker(s, specific).value);
    }
  }

  lemma StepInv<W>(s: Master<W>, e: Event<W>)
    requires Inv(s) && Enabled(s, e)
    ensures Inv(Step(s, e))
  {
    match e {
      case Joins(id, w) => SubscribeInv(s, id, w);
      case Leaves(id) => CancelledInv(s, id);
      case Stops(id) => StoppingInv(s, id);
      case Delegated(specific) => DelegateInv(s, specific);
      case Broadcast(excluded) => CallAllInv(s, s.list, excluded);
      case Returned(ref) => ReturnInv(s, ref);
    }
  }

  ghost predicate Next<W(!new)>(s: Master<W>, s': Master<W>) {
    exists e :: Enabled(s, e) && s' == Step(s, e)
  }

  ghost predicate IsRun<W(!new)>(run: seq<Master<W>>) {
    && run != [] && run[0] == Master([], map[], map[], {}, map[], 0, 0)
    && forall i | 0 < i < |run| :: Next(run[i-1], run[i])
  }

  lemma {:induction false} RunInv<W(!new)>(run: seq<Master<W>>, n: nat)
    requires IsRun(run) && n < |run|
    ensures Inv(run[n])
  {
    if n == 0 {
      assert StoppingMembers(run[0].list, run[0].stopping) == {};
    } else {
      RunInv(run, n - 1);
      assert Next(run[n-1], run[n]);
      var e :| Enabled(run[n-1], e) && run[n] == Step(run[n-1], e);
      StepInv(run[n-1], e);
    }
  }

  // ------------------------------------------------------ what getWorker gives

  /** The count test of getWorker is exact: it throws when every member is stopping. */
  lemma AllStoppingIff<W>(s: Master<W>)
    requires Inv(s)
    ensures |s.list| == s.stoppingCount <==> forall w :: w in s.list ==> w in s.stopping
  {
    UniqueIff(s.list, s.ids);
    ElementsSize(s.list);
    var members := StoppingMembers(s.list, s.stopping);
    assert members <= Elements(s.list);
    if |members| == |Elements(s.list)| {
      SubsetSize(members, Elements(s.list));
      forall w | w in s.list ensures w in s.stopping { assert w in Elements(s.list); }
    } else {
      assert members != Elements(s.list);
    }
  }

  /** Without a specific id, 'No worker available' is thrown exactly when every
      member is stopping, and otherwise the first least loaded one is taken. */
  lemma GetWorkerIs<W>(s: Master<W>)
    requires Inv(s)
    ensures var r := GetWorker(s, None);
            && (r.Err? <==> forall w :: w in s.list ==> w in s.stopping)
            && (r.Ok? ==> Eligible(s, r.value) && forall w :: Eligible(s, w) ==> s.jobs[r.value] <= s.jobs[w])
  {
    AllStoppingIff(s);
  }

  ghost predicate Eligible<W>(s: Master<W>, w: W) {
    w in s.list && w in s.jobs && w !in s.stopping
  }

  /** With a specific id, a member with that id is taken even when it is stopping,
      unless all are; who is taken is the only member with the id. */
  lemma GetSpecificIs<W>(s: Master<W>, id: WorkerId)
    requires Inv(s)
    ensures var r := GetWorker(s, Some(id));
            && (r == Err(NoWorkerAvailable) <==> forall w :: w in s.list ==> w in s.stopping)
            && (r == Err(WorkerNotFound) <==>
                  (exists w :: w in s.list && w !in s.stopping) && forall w :: w in s.list ==> s.ids[w] != id)
            && (r.Ok? ==> forall w :: w in s.list ==> (s.ids[w] == id <==> w == r.value))
  {
    AllStoppingIff(s);
    UniqueIff(s.list, s.ids);
  }

  lemma TakesAMember<W>(s: Master<W>, specific: Option<WorkerId>)
    requires Known(s)
    ensures GetWorker(s, specific).Ok? ==> GetWorker(s, specific).value in s.list
  {
  }

  lemma InvParts<W>(s: Master<W>)
    requires Inv(s)
    ensures Known(s) && forall r :: r in s.calls ==> s.calls[r] in s.jobs
  {
  }

  lemma FreshRef<W>(s: Master<W>)
    requires Inv(s)
    ensures s.counter !in s.calls
  {
  }

  /** A result undoes its call; only the reference id stays used up. */
  lemma ReturnUndoesCall<W>(s: Master<W>, specific: Option<WorkerId>)
    requires Inv(s)
    ensures Return(Delegate(s, specific), s.counter) == s.(counter := s.counter + 1)
  {
    hide GetWorker, UniqueIds, StoppingMembers, CallsTo;
    if GetWorker(s, specific).Ok? {
      var w := GetWorker(s, specific).value;
      assert w in s.jobs by { TakesAMember(s, specific); }
      assert s.jobs[w := s.jobs[w] + 1][w := s.jobs[w]] == s.jobs;
      assert s.calls[s.counter := w] - {s.counter} == s.calls;
    }
  }

  /** Among the least loaded, the one that joined first. */
  lemma {:induction false} LeastLoadedIsFirst<W>(list: seq<W>, jobs: map<W, int>, stopping: set<W>) returns (i: nat)
    requires forall w :: w in list ==> w in jobs
    requires LeastLoaded(list, jobs, stopping).Some?
    ensures i < |list| && list[i] == LeastLoaded(list, jobs, stopping).value
    ensures forall j | 0 <= j < i :: list[j] in stopping || jobs[list[j]] > jobs[list[i]]
  {
    var rest, last := list[..|list|-1], list[|list|-1];
    var best := LeastLoaded(rest, jobs, stopping);
    assert forall j | 0 <= j < |rest| :: list[j] == rest[j] && rest[j] in rest;
    if last !in stopping && (best.None? || jobs[last] < jobs[best.value]) {
      i := |rest|;
    } else {
      i := LeastLoadedIsFirst(rest, jobs, stopping);
    }
  }

  /** A broadcast makes one call to every member that is neither stopping nor
      excluded, and none to any other worker. */
  lemma {:induction false} BroadcastReachesEach<W>(s: Master<W>, list: seq<W>, excluded: seq<WorkerId>, x: W)
    requires Inv(s) && NoDup(list) && x in s.jobs
    ensures var s' := CallAll(s, list, excluded);
            x in s'.jobs && s'.jobs[x] == s.jobs[x] + if x in list && Called(s, x, excluded) then 1 else 0
    decreases |list|
  {
    if list != [] {
      assert list == [list[0]] + list[1..];
      if Called(s, list[0], excluded) {
        CallInv(s, list[0]);
        BroadcastReachesEach(Call(s, list[0]), list[1..], excluded, x);
      } else {
        BroadcastReachesEach(s, list[1..], excluded, x);
      }
    }
  }

  // ----------------------------------------------- joining, stopping, leaving

  /** A new id joins at the end, idle and not stopping; a taken id changes nothing. */
  lemma JoinsIff<W>(s: Master<W>, id: WorkerId, w: W)
    requires Inv(s) && w !in s.jobs
    ensures var s' := Step(s, Joins(id, w)); var taken := exists x :: x in s.list && s.ids[x] == id;
            && (taken ==> s' == s)
            && (!taken ==> s'.list == s.list + [w] && s'.ids[w] == id && s'.jobs[w] == 0 && w !in s'.stopping)
            && s'.stopping == s.stopping && s'.calls == s.calls
            && forall x :: x in s.jobs ==> s'.jobs[x] == s.jobs[x] && s'.ids[x] == s.ids[x]
  {
    var found := ById(s.list, s.ids, id);
    if found.Some? {
      assert found.value in s.list && s.ids[found.value] == id;
    }
  }

  /** Who announces that it is stopping is marked, nobody else, and nothing else changes
      but the count. */
  lemma StopsMarks<W>(s: Master<W>, id: WorkerId)
    requires Inv(s)
    ensures var s' := Step(s, Stops(id));
            && s'.list == s.list && s'.ids == s.ids && s'.jobs == s.jobs && s'.calls == s.calls && s'.counter == s.counter
            && (forall w :: w in s'.stopping <==> w in s.stopping || (w in s.list && s.ids[w] == id))
            && s'.stoppingCount == |StoppingMembers(s.list, s'.stopping)|
  {
    StoppingInv(s, id);
    UniqueIff(s.list, s.ids);
  }

  /** Whose connection is cancelled is removed, nobody else, and its calls stay. */
  lemma LeavesRemoves<W>(s: Master<W>, id: WorkerId)
    requires Inv(s)
    ensures var s' := Step(s, Leaves(id));
            && (forall w :: w in s'.list <==> w in s.list && s.ids[w] != id)
            && s'.jobs == s.jobs && s'.calls == s.calls && s'.stopping == s.stopping && s'.ids == s.ids
  {
    UniqueIff(s.list, s.ids);
    var found := ById(s.list, s.ids, id);
    if found.Some? {
      WithoutNoDup(s.list, found.value);
    }
  }

  /** A delegation makes one call, under a fresh reference, to the worker getWorker
      names, or none. */
  lemma DelegatedCalls<W>(s: Master<W>, specific: Option<WorkerId>)
    requires Inv(s)
    ensures var s', chosen := Step(s, Delegated(specific)), GetWorker(s, specific);
            && s.counter !in s.calls
            && s'.calls == (if chosen.Ok? then s.calls[s.counter := chosen.value] else s.calls)
            && forall w :: w in s.jobs ==> s'.jobs[w] == s.jobs[w] + if chosen == Ok(w) then 1 else 0
  {
    TakesAMember(s, specific);
  }

  /** A step that does not delegate to the worker by name. */
  ghost predicate NextUnnamed<W(!new)>(s: Master<W>, s': Master<W>, w: W) {
    exists e :: Enabled(s, e) && s' == Step(s, e) && (w in s.ids ==> e != Delegated(Some(s.ids[w])))
  }

  lemma {:induction false} BroadcastSparesStopping<W>(s: Master<W>, list: seq<W>, excluded: seq<WorkerId>, w: W)
    requires Known(s) && w in s.stopping && w in s.jobs
    ensures var s' := CallAll(s, list, excluded); s'.stopping == s.stopping && s'.ids == s.ids && w in s'.jobs && s'.jobs[w] == s.jobs[w]
    decreases |list|
  {
    if list != [] {
      var s1 := if Called(s, list[0], excluded) then Call(s, list[0]) else s;
      assert s1.jobs.Keys == s.jobs.Keys;
      BroadcastSparesStopping(s1, list[1..], excluded, w);
    }
  }

  lemma DelegateSparesStopping<W>(s: Master<W>, specific: Option<WorkerId>, w: W)
    requires Inv(s) && w in s.stopping && specific != Some(s.ids[w])
    ensures var s' := Delegate(s, specific); w in s'.stopping && s'.ids == s.ids && w in s'.jobs && s'.jobs[w] == s.jobs[w]
  {
    GetWorkerIs(s);
    if specific.Some? {
      GetSpecificIs(s, specific.value);
      TakesAMember(s, specific);
    }
  }

  lemma StepSparesStopping<W>(s: Master<W>, e: Event<W>, w: W)
    requires Inv(s) && Enabled(s, e) && w in s.stopping && e != Delegated(Some(s.ids[w]))
    ensures var s' := Step(s, e); w in s'.stopping && w in s'.ids && s'.ids[w] == s.ids[w] && w in s'.jobs && s'.jobs[w] <= s.jobs[w]
  {
    match e {
      case Joins(id, x) => JoinsIff(s, id, x);
      case Leaves(id) => LeavesRemoves(s, id);
      case Stops(id) => StopsMarks(s, id);
      case Delegated(specific) => DelegateSparesStopping(s, specific, w);
      case Broadcast(excluded) => BroadcastSparesStopping(s, s.list, excluded, w);
      case Returned(ref) =>
    }
  }

  /** The step on which a member announces that it is stopping. */
  ghost predicate Announces<W>(s: Master<W>, s': Master<W>, w: W) {
    w in s.list && w in s.ids && Known(s) && s' == Step(s, Stops(s.ids[w]))
  }

  /** w is marked, and has at most as many jobs as before. */
  ghost predicate Spared<W>(s: Master<W>, s': Master<W>, w: W) {
    && w in s'.stopping && w in s.ids && w in s'.ids && s'.ids[w] == s.ids[w]
    && w in s.jobs && w in s'.jobs && s'.jobs[w] <= s.jobs[w]
  }

  lemma AnnouncedIsSpared<W>(s: Master<W>, s': Master<W>, w: W)
    requires Inv(s) && Announces(s, s', w)
    ensures Spared(s, s', w)
  {
    StopsMarks(s, s.ids[w]);
  }

  lemma NextIsSpared<W(!new)>(s: Master<W>, s': Master<W>, w: W)
    requires Inv(s) && w in s.stopping && NextUnnamed(s, s', w)
    ensures Spared(s, s', w)
  {
    var e :| Enabled(s, e) && s' == Step(s, e) && (w in s.ids ==> e != Delegated(Some(s.ids[w])));
    StepSparesStopping(s, e, w);
  }

  /** Once a worker has announced that it is stopping it stays marked, and it gets no
      more jobs but those delegated to it by name. */
  lemma {:induction false} StoppingGetsNothing<W(!new)>(run: seq<Master<W>>, i: nat, n: nat, w: W)
    requires IsRun(run) && i < n < |run| && Announces(run[i], run[i+1], w)
    requires forall j | i < j < n :: NextUnnamed(run[j], run[j+1], w)
    ensures Spared(run[i], run[n], w)
  {
    hide Inv, Announces, NextUnnamed, Next;
    if n == i + 1 {
      RunInv(run, i);
      AnnouncedIsSpared(run[i], run[n], w);
    } else {
      StoppingGetsNothing(run, i, n - 1, w);
      RunInv(run, n - 1);
      assert NextUnnamed(run[n-1], run[n-1+1], w);
      NextIsSpared(run[n-1], run[n], w);
    }
  }

  // ------------------------------------------------------------- balance

  ghost function EligibleJobs<W>(s: Master<W>): map<W, int> {
    map w | w in s.jobs && Eligible(s, w) :: s.jobs[w]
  }

  ghost predicate Balanced<W>(s: Master<W>, spread: nat) {
    forall v, w | v in s.list && w in s.list :: Eligible(s, v) && Eligible(s, w) ==> s.jobs[v] - s.jobs[w] <= spread
  }

  /** How many more calls would bring every worker up to top. */
  ghost function Lack(jobs: int, top: int): nat {
    if jobs < top then top - jobs else 0
  }

  ghost function Deficit<W>(s: Master<W>, top: int): nat {
    Sums.Sum(map w | w in EligibleJobs(s) :: Lack(s.jobs[w], top))
  }

  ghost predicate Below<W>(s: Master<W>, top: int) {
    forall w | w in s.list :: Eligible(s, w) ==> s.jobs[w] <= top
  }

  lemma LackDropsBy<W>(s: Master<W>, s': Master<W>, top: int, w: W)
    requires Eligible(s, w) && s.jobs[w] < top
    requires s'.list == s.list && s'.stopping == s.stopping && s'.jobs == s.jobs[w := s.jobs[w] + 1]
    ensures Deficit(s', top) == Deficit(s, top) - 1
  {
    var lacks := map x | x in EligibleJobs(s) :: Lack(s.jobs[x], top);
    assert (map x | x in EligibleJobs(s') :: Lack(s'.jobs[x], top)) == lacks[w := lacks[w] - 1];
    Sums.SumUpdate(lacks, w, lacks[w] - 1);
  }

  lemma LeastIsBelow<W>(s: Master<W>, top: int)
    requires Inv(s) && Below(s, top) && Deficit(s, top) > 0
    ensures var r := GetWorker(s, None); r.Ok? && Eligible(s, r.value) && s.jobs[r.value] < top
  {
    GetWorkerIs(s);
    var lacks := map w | w in EligibleJobs(s) :: Lack(s.jobs[w], top);
    var v := SomeoneLacks(lacks);
    assert Eligible(s, v);
  }

  /** One delegation takes the deficit down by one and keeps all loads below top. */
  lemma DelegateFills<W>(s: Master<W>, top: int)
    requires Inv(s) && Below(s, top) && Deficit(s, top) > 0
    ensures Below(Delegate(s, None), top) && Deficit(Delegate(s, None), top) == Deficit(s, top) - 1
  {
    LeastIsBelow(s, top);
    var w := GetWorker(s, None).value;
    hide Inv, GetWorker, Deficit;
    LackDropsBy(s, Call(s, w), top, w);
  }

  lemma {:induction false} SomeoneLacks<W>(lacks: map<W, nat>) returns (w: W)
    requires Sums.Sum(lacks) > 0
    ensures w in lacks && lacks[w] > 0
    decreases |lacks|
  {
    w :| w in lacks;
    if lacks[w] == 0 {
      Sums.SumPick(lacks, w);
      w := SomeoneLacks(lacks - {w});
    }
  }

  lemma NoDeficit<W>(s: Master<W>, top: int)
    requires Inv(s) && Below(s, top) && Deficit(s, top) == 0
    ensures Balanced(s, 1)
  {
    var lacks := map w | w in EligibleJobs(s) :: Lack(s.jobs[w], top);
    forall w | Eligible(s, w)
      ensures s.jobs[w] == top
    {
      Sums.SumPick(lacks, w);
    }
  }

  lemma DelegateKeepsBalance<W>(s: Master<W>, spread: nat)
    requires Inv(s) && Balanced(s, spread) && spread >= 1
    ensures Balanced(Delegate(s, None), spread)
  {
    GetWorkerIs(s);
  }

  ghost function DelegateMany<W>(s: Master<W>, n: nat): Master<W>
    requires Inv(s)
    decreases n
  {
    if n == 0 then s
    else
      DelegateInv(s, None);
      DelegateMany(Delegate(s, None), n - 1)
  }

  /** Whatever loads it starts from, pure delegation evens them out: with top the
      highest load, after Deficit(top) calls the loads differ by at most one, and
      from then on always. */
  lemma {:induction false} DelegationEvensOut<W>(s: Master<W>, top: int, n: nat)
    requires Inv(s) && Below(s, top) && n >= Deficit(s, top)
    ensures Balanced(DelegateMany(s, n), 1)
    decreases n
  {
    hide JobsInv, UniqueIds, StoppingMembers, Delegate, Below, Deficit, Balanced;
    if Deficit(s, top) == 0 {
      NoDeficit(s, top);
      DelegationStaysEven(s, n);
    } else {
      DelegateFills(s, top);
      DelegateInv(s, None);
      DelegationEvensOut(Delegate(s, None), top, n - 1);
    }
  }

  lemma {:induction false} DelegationStaysEven<W>(s: Master<W>, n: nat)
    requires Inv(s) && Balanced(s, 1)
    ensures Balanced(DelegateMany(s, n), 1)
    decreases n
  {
    if n > 0 {
      DelegateKeepsBalance(s, 1);
      DelegateInv(s, None);
      DelegationStaysEven(Delegate(s, None), n - 1);
    }
  }

  // ------------------------------------------------ the code as it is run

  class Worker {
    const workerId: WorkerId
    var jobCount: int
    var stopping: bool

    constructor (workerId: WorkerId)
      ensures this.workerId == workerId && jobCount == 0 && !stopping
    {
      this.workerId, jobCount, stopping := workerId, 0, false;
    }
  }

  class WorkerServer {
    var workerList: seq<Worker>
    var grpcCall: map<RefId, Worker>
    var stoppingWorkerCount: int
    var grpcCallRefIdCounter: RefId
    ghost var all: set<Worker>

    ghost function View(): Master<Worker>
      reads this, all
    {
      Master(
        workerList,
        map w | w in all :: w.workerId,
        map w | w in all :: w.jobCount,
        (set w | w in all && w.stopping),
        grpcCall, stoppingWorkerCount, grpcCallRefIdCounter)
    }

    constructor ()
      ensures View() == Master([], map[], map[], {}, map[], 0, 0) && Inv(View())
    {
      workerList, grpcCall, stoppingWorkerCount, grpcCallRefIdCounter, all := [], map[], 0, 0, {};
      new;
      assert StoppingMembers(View().list, View().stopping) == {};
    }

    method FindWorker(workerId: WorkerId) returns (found: Option<Worker>)
      requires forall w :: w in workerList ==> w in all
      ensures found == ById(workerList, View().ids, workerId)
    {
      ghost var ids := View().ids;
      assert forall w :: w in workerList ==> w in ids && ids[w] == w.workerId;
      var i := 0;
      while i < |workerList|
        invariant 0 <= i <= |workerList|
        invariant ById(workerList, ids, workerId) == ById(workerList[i..], ids, workerId)
      {
        if workerList[i].workerId == workerId {
          return Some(workerList[i]);
        }
        assert workerList[i..][1..] == workerList[i+1..];
        i := i + 1;
      }
      return None;
    }

    /** subscribe; null when the id is taken. */
    method AddWorker(workerId: WorkerId) returns (worker: Option<Worker>)
      requires Inv(View())
      modifies this
      ensures Inv(View())
      ensures worker.None? <==> ById(old(workerList), old(View().ids), workerId).Some?
      ensures worker.None? ==> View() == old(View())
      ensures worker.Some? ==> fresh(worker.value) && View() == Subscribe(old(View()), workerId, worker.value)
    {
      hide Inv;
      ghost var before := View();
      InvParts(before);
      var found := FindWorker(workerId);
      if found.Some? {
        return None;
      }
      var w := new Worker(workerId);
      SubscribeInv(before, workerId, w);
      Enlist(w);
      worker := Some(w);
    }

    method Enlist(worker: Worker)
      requires worker !in all && worker.jobCount == 0 && !worker.stopping
      requires forall w :: w in workerList ==> w in all
      modifies this`workerList, this`all
      ensures var before := old(View());
              View() == before.(list := before.list + [worker], ids := before.ids[worker := worker.workerId],
                jobs := before.jobs[worker := 0])
    {
      workerList, all := workerList + [worker], all + {worker};
      assert View().jobs == old(View()).jobs[worker := 0];
      assert View().stopping == old(View()).stopping;
    }

    /** workerStoppingCall. */
    method WorkerStopping(workerId: WorkerId)
      requires Inv(View())
      modifies this`stoppingWorkerCount, all`stopping
      ensures Inv(View()) && View() == Stopping(old(View()), workerId)
    {
      hide Inv, ById;
      ghost var before := View();
      InvParts(before);
      StoppingInv(before, workerId);
      var worker := FindWorker(workerId);
      if worker.Some? {
        if !worker.value.stopping {
          stoppingWorkerCount := stoppingWorkerCount + 1;
        }
        MarkStopping(worker.value);
        assert worker.value in before.stopping ==> before.stopping + {worker.value} == before.stopping;
      }
      assert View() == Stopping(before, workerId);
    }

    method MarkStopping(worker: Worker)
      requires worker in all
      modifies worker`stopping
      ensures View() == old(View()).(stopping := old(View()).stopping + {worker})
    {
      worker.stopping := true;
      assert View().jobs == old(View()).jobs;
      assert View().stopping == old(View()).stopping + {worker};
    }

    /** The 'cancelled' handler of a subscription. */
    method ConnectionCancelled(workerId: WorkerId)
      requires Inv(View())
      modifies this`workerList, this`stoppingWorkerCount
      ensures Inv(View()) && View() == Cancelled(old(View()), workerId)
    {
      hide Inv, ById, Without;
      ghost var before := View();
      InvParts(before);
      CancelledInv(before, workerId);
      var i, removed := 0, false;
      while i < |workerList|
        invariant 0 <= i
        invariant !removed ==> View() == before && forall j | 0 <= j < i && j < |workerList| :: workerList[j].workerId != workerId
        invariant removed ==> View() == Cancelled(before, workerId) && forall w :: w in workerList ==> w.workerId != workerId
        decreases |workerList| - i
      {
        if workerList[i].workerId == workerId {
          CancelledAt(before, workerId, i);
          RemoveAt(i);
          assert forall w :: w in workerList ==> w in before.list && before.ids[w] == w.workerId;
          removed := true;
        }
        i := i + 1;
      }
      if !removed {
        NoneHasId(before, workerId);
      }
    }

    method RemoveAt(i: nat)
      requires i < |workerList| && workerList[i] in all
      modifies this`workerList, this`stoppingWorkerCount
      ensures var before := old(View());
              View() == before.(list := before.list[..i] + before.list[i+1..],
                stoppingCount := before.stoppingCount - if before.list[i] in before.stopping then 1 else 0)
    {
      if workerList[i].stopping {
        stoppingWorkerCount := stoppingWorkerCount - 1;
      }
      workerList := workerList[..i] + workerList[i+1..];
    }

    /** remoteFnCallToWorkers. */
    method RemoteFnCallToWorkers(excludedWorkerIds: seq<WorkerId>)
      requires Inv(View())
      modifies this`grpcCall, this`grpcCallRefIdCounter, all`jobCount
      ensures Inv(View()) && View() == CallAll(old(View()), workerList, excludedWorkerIds)
    {
      hide Inv;
      ghost var before := View();
      InvParts(before);
      CallAllInv(before, workerList, excludedWorkerIds);
      for i := 0 to |workerList|
        invariant forall w :: w in workerList ==> w in all
        invariant CallAll(View(), workerList[i..], excludedWorkerIds) == CallAll(before, workerList, excludedWorkerIds)
      {
        assert workerList[i..][1..] == workerList[i+1..];
        var worker := workerList[i];
        if !worker.stopping && worker.workerId !in excludedWorkerIds {
          Assign(worker);
        }
      }
    }

    /** getWorker. */
    method PickWorker(specificWorkerId: WorkerId) returns (worker: Result<Worker, Error>)
      requires Inv(View())
      ensures worker == GetWorker(View(), if specificWorkerId == "" then None else Some(specificWorkerId))
    {
      AllStoppingIff(View());
      if |workerList| == 0 || |workerList| == stoppingWorkerCount {
        return Err(NoWorkerAvailable);
      }
      if specificWorkerId == "" {
        var best := FindLeastLoaded();
        return Ok(best.value);
      } else {
        var found := FindWorker(specificWorkerId);
        return if found.Some? then Ok(found.value) else Err(WorkerNotFound);
      }
    }

    method FindLeastLoaded() returns (best: Option<Worker>)
      requires Known(View())
      ensures best == LeastLoaded(workerList, View().jobs, View().stopping)
    {
      best := None;
      for i := 0 to |workerList|
        invariant best == LeastLoaded(workerList[..i], View().jobs, View().stopping)
      {
        assert workerList[..i+1][..i] == workerList[..i];
        var w := workerList[i];
        if (best.None? || w.jobCount < best.value.jobCount) && !w.stopping {
          best := Some(w);
        }
      }
      assert workerList[..|workerList|] == workerList;
    }

    method Assign(worker: Worker)
      requires worker in all
      modifies this`grpcCall, this`grpcCallRefIdCounter, worker`jobCount
      ensures View() == Call(old(View()), worker)
    {
      grpcCall := grpcCall[grpcCallRefIdCounter := worker];
      grpcCallRefIdCounter := grpcCallRefIdCounter + 1;
      worker.jobCount := worker.jobCount + 1;
      assert View().jobs == Call(old(View()), worker).jobs;
      assert View().stopping == old(View()).stopping;
    }

    /** delegateToWorker; the number of the call, or the error it throws. */
    method DelegateToWorker(specificWorkerId: WorkerId) returns (r: Result<RefId, Error>)
      requires Inv(View())
      modifies this`grpcCall, this`grpcCallRefIdCounter, all`jobCount
      ensures Inv(View())
      ensures View() == Delegate(old(View()), if specificWorkerId == "" then None else Some(specificWorkerId))
      ensures r.Ok? ==> r.value in grpcCall && r.value !in old(grpcCall)
    {
      hide Inv, GetWorker;
      ghost var specific := if specificWorkerId == "" then None else Some(specificWorkerId);
      ghost var before := View();
      InvParts(before);
      DelegateInv(before, specific);
      TakesAMember(before, specific);
      FreshRef(before);
      var worker := PickWorker(specificWorkerId);
      match worker {
        case Ok(w) =>
          r := Ok(grpcCallRefIdCounter);
          Assign(w);
        case Err(e) =>
          r := Err(e);
          grpcCallRefIdCounter := grpcCallRefIdCounter + 1;
      }
      assert View() == Delegate(before, specific);
    }

    method DropCall(ref: RefId)
      requires ref in grpcCall && grpcCall[ref] in all
      modifies this`grpcCall, all`jobCount
      ensures View() == Return(old(View()), ref)
    {
      var worker := grpcCall[ref];
      worker.jobCount := worker.jobCount - 1;
      grpcCall := grpcCall - {ref};
      assert View().jobs == Return(old(View()), ref).jobs;
      assert View().stopping == old(View()).stopping;
    }

    /** returnResultCall; false for an unknown reference. */
    method ReturnResult(ref: RefId) returns (known: bool)
      requires Inv(View())
      modifies this`grpcCall, all`jobCount
      ensures Inv(View()) && View() == Return(old(View()), ref)
      ensures known <==> ref in old(grpcCall)
    {
      hide Inv;
      ghost var before := View();
      InvParts(before);
      ReturnInv(before, ref);
      known := ref in grpcCall;
      if known {
        DropCall(ref);
      }
    }
  }
}
