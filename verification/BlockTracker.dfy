/** Block bookkeeping of tendermint/index.js: processNewBlock splits at its
    await into a synchronous head (NewBlock) and a tail (Finish), so several
    block handlers may be in flight at once. */
module BlockTracker {
  import opened Wrappers

  /** The ledger: the app hash in the header of each block (the state after the
      block before it), and whether a block carries a transaction. */
  datatype Chain = Chain(appHash: nat -> string, hasTx: nat -> bool)

  /** Equal app hashes at two heights mean no transaction in between. */
  ghost predicate Sound(c: Chain) {
    forall a: nat, b: nat :: a <= b && c.appHash(a) == c.appHash(b + 1) ==> NoTx(c, a, b)
  }

  ghost predicate NoTx(c: Chain, from: nat, to: nat) {
    forall k: nat :: from <= k <= to ==> !c.hasTx(k)
  }

  datatype Handler = Handler(from: nat, appHash: string)

  /** One range cut off by a new block; launched is false when the range was
      skipped because the app hash had not changed. */
  datatype Tile = Tile(from: nat, to: nat, launched: bool)

  datatype Tracker = Tracker(
    latest: Option<nat>,          // latestBlockHeight
    lastHash: Option<string>,     // lastKnownAppHash
    saved: Option<nat>,           // latestProcessedBlockHeight, also on disk
    inFlight: map<nat, Handler>,  // processingBlocks, keyed by block height
    // history
    origin: Option<nat>,          // first height this run knew
    hashAt: nat,                  // the height lastHash belongs to
    tiles: seq<Tile>)

  /** State after loadSavedData. */
  function Start(height: Option<nat>): Tracker {
    Tracker(height, None, height, map[], height, 0, [])
  }

  /** null <= height is 0 <= height in JavaScript, so an unknown chain head is
      at or below every height. */
  predicate AtOrBelow(latest: Option<nat>, height: nat) {
    latest.None? || latest.value <= height
  }

  /** saveLatestBlockHeight. null < height is 0 < height, which holds of every block. */
  function Save(saved: Option<nat>, height: nat): Option<nat> {
    if saved.None? || saved.value < height then Some(height) else saved
  }

  predicate Launches(t: Tracker, height: nat, hash: string) {
    t.latest.Some? && t.latest.value < height && t.lastHash != Some(hash)
  }

  function NewBlock(t: Tracker, height: nat, hash: string): Tracker {
    if t.latest.None? then
      t.(latest := Some(height), lastHash := Some(hash), saved := Save(t.saved, height),
         origin := Some(height), hashAt := height)
    else if height <= t.latest.value then t
    else
      var from := t.latest.value;
      var launched := Launches(t, height, hash);
      var t' := t.(latest := Some(height), tiles := t.tiles + [Tile(from, height - 1, launched)]);
      if launched then t'.(inFlight := t.inFlight[height := Handler(from, hash)])
      else t'.(lastHash := Some(hash), saved := Save(t.saved, height), hashAt := height)
  }

  function Finish(t: Tracker, height: nat): Tracker
    requires height in t.inFlight
  {
    t.(lastHash := Some(t.inFlight[height].appHash), saved := Save(t.saved, height),
       inFlight := t.inFlight - {height}, hashAt := height)
  }

  // ---------------------------------------------------------------- tiling

  /** tiles[0..] start at origin, follow each other without gap or overlap, and
      end just below latest. */
  ghost predicate Tiled(tiles: seq<Tile>, origin: nat, latest: nat) {
    && (forall i | 0 <= i < |tiles| :: tiles[i].from <= tiles[i].to)
    && (forall i | 0 < i < |tiles| :: tiles[i].from == tiles[i-1].to + 1)
    && (if tiles == [] then latest == origin
        else tiles[0].from == origin && tiles[|tiles|-1].to + 1 == latest)
  }

  /** The block whose arrival launched the handler that scans height k. */
  ghost function OwnerOf(tiles: seq<Tile>, k: nat): Option<nat> {
    if tiles == [] then None
    else
      var t := tiles[|tiles|-1];
      if t.from <= k <= t.to then (if t.launched then Some(t.to + 1) else None)
      else OwnerOf(tiles[..|tiles|-1], k)
  }

  ghost predicate Inv(t: Tracker, c: Chain) {
    && (t.latest.None? ==> t.tiles == [] && t.inFlight == map[] && t.lastHash.None? && t.origin.None? && t.saved.None?)
    && (t.latest.Some? ==>
      && t.origin.Some? && t.saved.Some?
      && t.saved.value <= t.latest.value
      && Tiled(t.tiles, t.origin.value, t.latest.value)
      && (t.lastHash.Some? ==> t.hashAt <= t.latest.value && t.lastHash.value == c.appHash(t.hashAt))
      && (forall tile | tile in t.tiles :: tile.launched || NoTx(c, tile.from, tile.to))
      && (forall h | h in t.inFlight ::
            && h <= t.latest.value && t.inFlight[h].from < h
            && t.inFlight[h].appHash == c.appHash(h)
            && Tile(t.inFlight[h].from, h - 1, true) in t.tiles))
  }

  lemma StartInv(height: Option<nat>, c: Chain)
    ensures Inv(Start(height), c)
  {
  }

  lemma TiledGrows(tiles: seq<Tile>, origin: nat, latest: nat, height: nat, launched: bool)
    requires Tiled(tiles, origin, latest) && latest < height
    ensures Tiled(tiles + [Tile(latest, height - 1, launched)], origin, height)
  {
  }

  lemma MoreTiles(tiles: seq<Tile>, tile: Tile)
    ensures forall x :: x in tiles + [tile] <==> x in tiles || x == tile
  {
  }

  lemma NextBlockInv(t: Tracker, c: Chain, height: nat)
    requires Sound(c) && Inv(t, c) && t.latest.Some? && t.latest.value < height
    ensures Inv(NewBlock(t, height, c.appHash(height)), c)
  {
    var launched := Launches(t, height, c.appHash(height));
    TiledGrows(t.tiles, t.origin.value, t.latest.value, height, launched);
    MoreTiles(t.tiles, Tile(t.latest.value, height - 1, launched));
    if !launched {
      assert NoTx(c, t.hashAt, height - 1);
    }
    hide Tiled, Sound;
  }

  /** The only step that needs the chain to be sound: a skipped range lies above
      the height its remembered hash came from, even when handlers overlap. */
  lemma NewBlockInv(t: Tracker, c: Chain, height: nat)
    requires Sound(c) && Inv(t, c)
    ensures Inv(NewBlock(t, height, c.appHash(height)), c)
  {
    if t.latest.Some? && t.latest.value < height {
      NextBlockInv(t, c, height);
    }
  }

  lemma FinishInv(t: Tracker, c: Chain, height: nat)
    requires Inv(t, c) && height in t.inFlight
    ensures Inv(Finish(t, height), c)
  {
  }

  // ------------------------------------------------------------------ runs

  datatype Event = Block(height: nat) | Done(height: nat)

  predicate Enabled(t: Tracker, e: Event) {
    e.Done? ==> e.height in t.inFlight
  }

  function Step(t: Tracker, c: Chain, e: Event): Tracker
    requires Enabled(t, e)
  {
    match e
    case Block(h) => NewBlock(t, h, c.appHash(h))
    case Done(h) => Finish(t, h)
  }

  ghost predicate Next(t: Tracker, c: Chain, t': Tracker) {
    exists e :: Enabled(t, e) && t' == Step(t, c, e)
  }

  ghost predicate IsRun(c: Chain, run: seq<Tracker>) {
    && run != []
    && (exists height :: run[0] == Start(height))
    && forall i | 0 < i < |run| :: Next(run[i-1], c, run[i])
  }

  lemma {:induction false} RunInv(c: Chain, run: seq<Tracker>, n: nat)
    requires Sound(c) && IsRun(c, run) && n < |run|
    ensures Inv(run[n], c)
  {
    if n == 0 {
      var height :| run[0] == Start(height);
      StartInv(height, c);
    } else {
      RunInv(c, run, n - 1);
      assert Next(run[n-1], c, run[n]);
      var e :| Enabled(run[n-1], e) && run[n] == Step(run[n-1], c, e);
      match e {
        case Block(h) => NewBlockInv(run[n-1], c, h);
        case Done(h) => FinishInv(run[n-1], c, h);
      }
    }
  }

  // ------------------------------------------------- what the tiling gives

  ghost predicate Holds(tile: Tile, k: nat) {
    tile.from <= k <= tile.to
  }

  /** Every height from the first known one up to latest - 1 lies in exactly one
      range, and every other height in none. */
  lemma {:induction false} TilesPartition(tiles: seq<Tile>, origin: nat, latest: nat, k: nat)
    requires Tiled(tiles, origin, latest)
    ensures origin <= latest
    ensures origin <= k < latest <==> exists i :: 0 <= i < |tiles| && Holds(tiles[i], k)
    ensures forall i, j :: 0 <= i < |tiles| && 0 <= j < |tiles| && Holds(tiles[i], k) && Holds(tiles[j], k) ==> i == j
  {
    var n := |tiles|;
    if n != 0 {
      var rest := tiles[..n-1];
      TilesPartition(rest, origin, tiles[n-1].from, k);
      if origin <= k < tiles[n-1].from {
        var i :| 0 <= i < |rest| && Holds(rest[i], k);
        assert Holds(tiles[i], k);
      }
      if tiles[n-1].from <= k < latest {
        assert Holds(tiles[n-1], k);
      }
      forall i | 0 <= i < |rest| && Holds(tiles[i], k)
        ensures k < tiles[n-1].from && origin <= k
      {
        assert Holds(rest[i], k);
      }
      forall i, j | 0 <= i < n && 0 <= j < n && Holds(tiles[i], k) && Holds(tiles[j], k)
        ensures i == j
      {
        if i < n - 1 && j < n - 1 {
          assert Holds(rest[i], k) && Holds(rest[j], k);
        }
      }
    }
  }

  lemma SameTile(tiles: seq<Tile>, origin: nat, latest: nat, k: nat, x: Tile, y: Tile)
    requires Tiled(tiles, origin, latest)
    requires x in tiles && y in tiles && Holds(x, k) && Holds(y, k)
    ensures x == y && origin <= k < latest
  {
    var i :| 0 <= i < |tiles| && tiles[i] == x;
    var j :| 0 <= j < |tiles| && tiles[j] == y;
    TilesPartition(tiles, origin, latest, k);
    assert Holds(tiles[i], k) && Holds(tiles[j], k);
  }

  lemma TileAt(tiles: seq<Tile>, origin: nat, latest: nat, k: nat) returns (tile: Tile)
    requires Tiled(tiles, origin, latest) && origin <= k < latest
    ensures tile in tiles && Holds(tile, k)
  {
    TilesPartition(tiles, origin, latest, k);
    var i :| 0 <= i < |tiles| && Holds(tiles[i], k);
    tile := tiles[i];
  }

  /** OwnerOf, read off the tile that holds k. */
  lemma {:induction false} OwnerOfTile(tiles: seq<Tile>, origin: nat, latest: nat, k: nat, tile: Tile)
    requires Tiled(tiles, origin, latest) && tile in tiles && Holds(tile, k)
    ensures OwnerOf(tiles, k) == if tile.launched then Some(tile.to + 1) else None
    ensures origin <= k <= tile.to < latest
  {
    var n := |tiles|;
    var rest, last := tiles[..n-1], tiles[n-1];
    assert tiles == rest + [last];
    if Holds(last, k) {
      SameTile(tiles, origin, latest, k, tile, last);
    } else {
      OwnerOfTile(rest, origin, last.from, k, tile);
    }
  }

  lemma OwnerOfOutside(tiles: seq<Tile>, origin: nat, latest: nat, k: nat)
    requires Tiled(tiles, origin, latest) && !(origin <= k < latest)
    ensures OwnerOf(tiles, k).None?
  {
    if OwnerOf(tiles, k).Some? {
      OwnerSomeHasTile(tiles, k);
      var tile :| tile in tiles && Holds(tile, k);
      SameTile(tiles, origin, latest, k, tile, tile);
    }
  }

  lemma {:induction false} OwnerSomeHasTile(tiles: seq<Tile>, k: nat)
    requires OwnerOf(tiles, k).Some?
    ensures exists tile :: tile in tiles && Holds(tile, k)
  {
    var last := tiles[|tiles|-1];
    if Holds(last, k) {
      assert last in tiles;
    } else {
      OwnerSomeHasTile(tiles[..|tiles|-1], k);
    }
  }

  /** A height that carried a transaction is always scanned by some handler. */
  lemma TxHeightHasOwner(t: Tracker, c: Chain, k: nat)
    requires Inv(t, c) && t.latest.Some? && c.hasTx(k)
    requires t.origin.value <= k < t.latest.value
    ensures OwnerOf(t.tiles, k).Some?
  {
    var tile := TileAt(t.tiles, t.origin.value, t.latest.value, k);
    OwnerOfTile(t.tiles, t.origin.value, t.latest.value, k, tile);
  }

  /** OwnerOf agrees with the handlers in flight. */
  lemma OwnerBounds(t: Tracker, c: Chain, height: nat)
    requires Inv(t, c)
    ensures OwnerOf(t.tiles, height).Some? ==>
              !AtOrBelow(t.latest, height) && height < OwnerOf(t.tiles, height).value <= t.latest.value
    ensures forall h :: h in t.inFlight ==>
              (t.inFlight[h].from <= height < h <==> OwnerOf(t.tiles, height) == Some(h))
  {
    if t.latest.Some? {
      var origin, latest := t.origin.value, t.latest.value;
      if origin <= height < latest {
        var tile := TileAt(t.tiles, origin, latest, height);
        OwnerOfTile(t.tiles, origin, latest, height, tile);
        forall h | h in t.inFlight
          ensures t.inFlight[h].from <= height < h <==> OwnerOf(t.tiles, height) == Some(h)
        {
          var mine := Tile(t.inFlight[h].from, h - 1, true);
          if Holds(mine, height) {
            SameTile(t.tiles, origin, latest, height, tile, mine);
          }
          if OwnerOf(t.tiles, height) == Some(h) {
            SameTile(t.tiles, origin, latest, h - 1, tile, mine);
          }
        }
      } else {
        OwnerOfOutside(t.tiles, origin, latest, height);
        forall h | h in t.inFlight
          ensures !(t.inFlight[h].from <= height < h)
        {
          var mine := Tile(t.inFlight[h].from, h - 1, true);
          if Holds(mine, height) {
            SameTile(t.tiles, origin, latest, height, mine, mine);
          }
        }
      }
    }
  }

  /** The owner of a height after a new block: as before, or the new scan for a
      height that had none. */
  lemma NewBlockOwner(t: Tracker, c: Chain, h: nat, height: nat)
    requires Inv(t, c)
    ensures var o, o' := OwnerOf(t.tiles, height), OwnerOf(NewBlock(t, h, c.appHash(h)).tiles, height);
            || o' == o
            || (o == None && o' == Some(h) && Launches(t, h, c.appHash(h)))
    ensures Launches(t, h, c.appHash(h)) ==> OwnerOf(t.tiles, height) != Some(h)
  {
    if t.latest.Some? && t.latest.value < h {
      var tile := Tile(t.latest.value, h - 1, Launches(t, h, c.appHash(h)));
      OwnerBounds(t, c, height);
      OwnerOfPushed(t.tiles, tile, height);
      if Holds(tile, height) {
        OwnerOfOutside(t.tiles, t.origin.value, t.latest.value, height);
      }
    }
  }

  lemma OwnerOfPushed(tiles: seq<Tile>, tile: Tile, k: nat)
    ensures OwnerOf(tiles + [tile], k) ==
            if Holds(tile, k) then (if tile.launched then Some(tile.to + 1) else None) else OwnerOf(tiles, k)
  {
    assert (tiles + [tile])[..|tiles|] == tiles;
  }

  // --------------------------------------------------------------- restart

  /** k needs no more work: skipped, or its handler has finished. */
  ghost predicate Processed(t: Tracker, k: nat) {
    exists tile :: tile in t.tiles && Holds(tile, k) && (tile.launched ==> tile.to + 1 !in t.inFlight)
  }

  /** Restarting from the saved height loses no block. */
  ghost predicate NoGap(t: Tracker) {
    t.latest.Some? && t.saved.Some? && t.origin.Some? ==>
      forall k: nat :: t.origin.value <= k < t.saved.value ==> Processed(t, k)
  }

  /** What processingBlocks shows: no range still being worked on starts below
      the saved height. */
  predicate NoneBelowSaved(t: Tracker) {
    t.saved.Some? ==> forall h :: h in t.inFlight ==> t.saved.value <= t.inFlight[h].from
  }

  lemma NoneBelowSavedIsSafe(t: Tracker, c: Chain, k: nat)
    requires Inv(t, c) && NoneBelowSaved(t) && t.latest.Some?
    requires t.origin.value <= k < t.saved.value
    ensures Processed(t, k)
  {
    var tile := TileAt(t.tiles, t.origin.value, t.latest.value, k);
    if tile.launched && tile.to + 1 in t.inFlight {
      var h := tile.to + 1;
      SameTile(t.tiles, t.origin.value, t.latest.value, tile.to, tile, Tile(t.inFlight[h].from, h - 1, true));
      assert false;
    }
  }

  lemma InFlightNotProcessed(t: Tracker, c: Chain, h: nat)
    requires Inv(t, c) && h in t.inFlight
    ensures !Processed(t, t.inFlight[h].from) && t.origin.value <= t.inFlight[h].from
  {
    var k := t.inFlight[h].from;
    var mine := Tile(k, h - 1, true);
    SameTile(t.tiles, t.origin.value, t.latest.value, k, mine, mine);
    if Processed(t, k) {
      var tile :| tile in t.tiles && Holds(tile, k) && (tile.launched ==> tile.to + 1 !in t.inFlight);
      SameTile(t.tiles, t.origin.value, t.latest.value, k, tile, mine);
      assert false;
    }
  }

  /** A restart from the saved height is safe exactly when processingBlocks shows no
      range that starts below it. */
  lemma RestartGapFreeIff(t: Tracker, c: Chain)
    requires Inv(t, c)
    ensures NoGap(t) <==> NoneBelowSaved(t)
  {
    if t.latest.Some? {
      if NoneBelowSaved(t) {
        forall k: nat | t.origin.value <= k < t.saved.value
          ensures Processed(t, k)
        {
          NoneBelowSavedIsSafe(t, c, k);
        }
      } else {
        var h :| h in t.inFlight && t.inFlight[h].from < t.saved.value;
        InFlightNotProcessed(t, c, h);
      }
    }
  }

  /** The run that overlaps: blocks 6 and 7 arrive, the handler of 7 ends first.
      The saved height is 7 while block 5 has not been processed. */
  lemma OverlapCanLeaveGap(c: Chain)
    ensures var t := NewBlock(NewBlock(Start(Some(5)), 6, c.appHash(6)), 7, c.appHash(7));
            7 in t.inFlight && !NoneBelowSaved(Finish(t, 7)) && !NoGap(Finish(t, 7))
  {
    var t := NewBlock(NewBlock(Start(Some(5)), 6, c.appHash(6)), 7, c.appHash(7));
    var t' := Finish(t, 7);
    assert t'.saved == Some(7);
    assert 6 in t'.inFlight && t'.inFlight[6].from == 5;
    assert t'.tiles == [Tile(5, 5, true), Tile(6, 6, true)];
    assert !Processed(t', 5);
  }

  /** Blocks handled one at a time: no later block is taken while a handler is open. */
  ghost predicate OneAtATime(t: Tracker, e: Event) {
    e.Block? ==> t.inFlight == map[] || (t.latest.Some? && e.height <= t.latest.value)
  }

  ghost predicate SerialInv(t: Tracker) {
    && (t.inFlight == map[] ==> t.saved == t.latest)
    && (forall h :: h in t.inFlight ==> t.latest == Some(h) && t.saved.Some? && t.saved.value <= t.inFlight[h].from)
  }

  ghost predicate SerialNext(t: Tracker, c: Chain, t': Tracker) {
    exists e :: Enabled(t, e) && OneAtATime(t, e) && t' == Step(t, c, e)
  }

  lemma SerialStepInv(t: Tracker, c: Chain, e: Event)
    requires Inv(t, c) && SerialInv(t) && Enabled(t, e) && OneAtATime(t, e)
    ensures SerialInv(Step(t, c, e))
  {
    var t' := Step(t, c, e);
    match e {
      case Block(h) =>
        if Launches(t, h, c.appHash(h)) {
          assert h in t'.inFlight;
        }
      case Done(h) =>
        assert t.latest == Some(h);
        assert forall x :: x in t.inFlight ==> x == h;
        assert t'.inFlight == map[];
    }
  }

  /** One block at a time, at every moment of every run a restart from the saved
      height continues exactly where processing stopped. */
  lemma {:induction false} SerialRunsRestartCleanly(c: Chain, run: seq<Tracker>, n: nat)
    requires Sound(c) && IsRun(c, run) && n < |run|
    requires forall i | 0 < i < |run| :: SerialNext(run[i-1], c, run[i])
    ensures Inv(run[n], c) && SerialInv(run[n]) && NoGap(run[n])
  {
    RunInv(c, run, n);
    if n > 0 {
      SerialRunsRestartCleanly(c, run, n - 1);
      assert SerialNext(run[n-1], c, run[n]);
      var e :| Enabled(run[n-1], e) && OneAtATime(run[n-1], e) && run[n] == Step(run[n-1], c, e);
      SerialStepInv(run[n-1], c, e);
    }
    RestartGapFreeIff(run[n], c);
  }

  // ------------------------------------------------------ which ranges are skipped

  /** With start the head at the beginning of the run: no block taken means no hash
      remembered, and with no handler open the hash is that of the head. */
  ghost predicate SeenInv(start: Option<nat>, t: Tracker, c: Chain) {
    && (start.Some? ==> t.latest.Some? && start.value <= t.latest.value)
    && (t.latest == start ==> t.lastHash.None? && t.inFlight == map[])
    && (t.latest != start && t.inFlight == map[] ==> t.latest.Some? && t.lastHash == Some(c.appHash(t.latest.value)))
  }

  lemma SeenStep(start: Option<nat>, t: Tracker, c: Chain, e: Event)
    requires Inv(t, c) && SerialInv(t) && SeenInv(start, t, c) && Enabled(t, e) && OneAtATime(t, e)
    ensures SeenInv(start, Step(t, c, e), c)
  {
    var t' := Step(t, c, e);
    match e {
      case Block(h) =>
        if Launches(t, h, c.appHash(h)) {
          assert h in t'.inFlight;
        }
      case Done(h) =>
        assert h in t.inFlight && t.latest == Some(h) && t.inFlight[h].appHash == c.appHash(h);
    }
  }

  lemma {:induction false} SerialRunsSee(c: Chain, run: seq<Tracker>, n: nat)
    requires Sound(c) && IsRun(c, run) && n < |run|
    requires forall i | 0 < i < |run| :: SerialNext(run[i-1], c, run[i])
    ensures SeenInv(run[0].latest, run[n], c)
  {
    if n > 0 {
      SerialRunsSee(c, run, n - 1);
      SerialRunsRestartCleanly(c, run, n - 1);
      assert SerialNext(run[n-1], c, run[n]);
      var e :| Enabled(run[n-1], e) && OneAtATime(run[n-1], e) && run[n] == Step(run[n-1], c, e);
      SeenStep(run[0].latest, run[n-1], c, e);
    }
  }

  /** One block at a time, the range between the head and a new block is handed out
      exactly when no block has been taken in this run yet or the app hash differs from
      the head's; a range not handed out is saved as processed at once. */
  lemma LaunchedIff(c: Chain, run: seq<Tracker>, n: nat, h: nat)
    requires Sound(c) && IsRun(c, run) && n < |run|
    requires forall i | 0 < i < |run| :: SerialNext(run[i-1], c, run[i])
    requires OneAtATime(run[n], Block(h)) && run[n].latest.Some? && run[n].latest.value < h
    ensures var t, t' := run[n], Step(run[n], c, Block(h));
            var launched := t.latest == run[0].latest || c.appHash(h) != c.appHash(t.latest.value);
            && t'.tiles == t.tiles + [Tile(t.latest.value, h - 1, launched)]
            && t'.inFlight.Keys == (if launched then {h} else {})
            && (!launched ==> t'.saved == Some(h))
  {
    SerialRunsSee(c, run, n);
    RunInv(c, run, n);
  }

  lemma StepKeepsSaved(t: Tracker, c: Chain, e: Event)
    requires Enabled(t, e)
    ensures t.saved.Some? ==> Step(t, c, e).saved.Some? && t.saved.value <= Step(t, c, e).saved.value
    ensures e.Done? ==> Step(t, c, e).saved.Some? && e.height <= Step(t, c, e).saved.value
  {
  }

  /** The saved height never falls, in whatever order handlers end. */
  lemma {:induction false} SavedNeverFalls(c: Chain, run: seq<Tracker>, i: nat, j: nat)
    requires IsRun(c, run) && i <= j < |run| && run[i].saved.Some?
    ensures run[j].saved.Some? && run[i].saved.value <= run[j].saved.value
    decreases j
  {
    if i < j {
      SavedNeverFalls(c, run, i, j - 1);
      assert Next(run[j-1], c, run[j]);
      var e :| Enabled(run[j-1], e) && run[j] == Step(run[j-1], c, e);
      StepKeepsSaved(run[j-1], c, e);
    }
  }

  // ------------------------------------------------ the code as it is run

  class TendermintBlocks {
    var latestBlockHeight: Option<nat>
    var latestProcessedBlockHeight: Option<nat>
    var lastKnownAppHash: Option<string>
    var processingBlocks: map<nat, Handler>
    ghost var origin: Option<nat>
    ghost var hashAt: nat
    ghost var tiles: seq<Tile>

    ghost function View(): Tracker
      reads this
    {
      Tracker(latestBlockHeight, lastKnownAppHash, latestProcessedBlockHeight, processingBlocks, origin, hashAt, tiles)
    }

    constructor (savedHeight: Option<nat>)
      ensures View() == Start(savedHeight)
    {
      latestBlockHeight, latestProcessedBlockHeight := savedHeight, savedHeight;
      lastKnownAppHash := None;
      processingBlocks := map[];
      origin, hashAt, tiles := savedHeight, 0, [];
    }

    method SaveLatestBlockHeight(height: nat)
      modifies this`latestProcessedBlockHeight
      ensures latestProcessedBlockHeight == Save(old(latestProcessedBlockHeight), height)
    {
      if latestProcessedBlockHeight.None? || latestProcessedBlockHeight.value < height {
        latestProcessedBlockHeight := Some(height);
      }
    }

    /** Up to the first await; a range to scan is returned when one is launched. */
    method ProcessNewBlock(blockHeight: nat, appHash: string) returns (range: Option<(int, int)>)
      modifies this
      ensures View() == NewBlock(old(View()), blockHeight, appHash)
      ensures range == if Launches(old(View()), blockHeight, appHash)
                       then Some((old(latestBlockHeight).value, blockHeight - 1)) else None
    {
      range := None;
      if latestBlockHeight.None? || latestBlockHeight.value < blockHeight {
        var lastKnownBlockHeight := latestBlockHeight;
        latestBlockHeight := Some(blockHeight);
        if lastKnownBlockHeight.Some? {
          var missingBlockCount := blockHeight - lastKnownBlockHeight.value - 1;
          var fromHeight := blockHeight - 1 - missingBlockCount;
          var toHeight := blockHeight - 1;
          tiles := tiles + [Tile(fromHeight, toHeight, lastKnownAppHash != Some(appHash))];
          if lastKnownAppHash != Some(appHash) {
            processingBlocks := processingBlocks[blockHeight := Handler(fromHeight, appHash)];
            return Some((fromHeight, toHeight));
          }
        } else {
          origin := Some(blockHeight);
        }
        lastKnownAppHash, hashAt := Some(appHash), blockHeight;
        SaveLatestBlockHeight(blockHeight);
      }
    }

    /** After the block handler has been awaited. */
    method ProcessNewBlockEnd(blockHeight: nat)
      requires blockHeight in processingBlocks
      modifies this
      ensures View() == Finish(old(View()), blockHeight)
    {
      lastKnownAppHash, hashAt := Some(processingBlocks[blockHeight].appHash), blockHeight;
      processingBlocks := processingBlocks - {blockHeight};
      SaveLatestBlockHeight(blockHeight);
    }
  }
}
