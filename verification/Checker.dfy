/** The checker object: each method is one locked section, and its contract is the matching function
    of `ScanCore` on the object's state. */
module Checker {
  import opened Types
  import opened CanonicalIndex
  import opened ConsistencyDB
  import opened ScanCore

  const FORK_SCAN_BATCH_SIZE: nat := 128
  const FORK_SCAN_BATCH_BUDGET: int := 10_000

  /** A batch in flight; main-flow writes lower its fence in place. */
  class ForkScanBatch {
    const start: u64
    const upper: u64
    const generation: u64
    var rewind: Option<u64>

    constructor (start: u64, upper: u64, generation: u64)
      ensures this.start == start && this.upper == upper && this.generation == generation && rewind == None
    {
      this.start, this.upper, this.generation, rewind := start, upper, generation, None;
    }

    function View(): Batch
      reads this
    {
      Batch(start, upper, generation, rewind)
    }
  }

  predicate AllReadable(blocks: seq<Block>, faults: Faults) {
    forall i :: 0 <= i < |blocks| ==> blocks[i].num !in faults.unreadable
  }

  /** The checked heights before the first one whose mapping cannot be read. */
  function ReadablePrefix(checked: seq<Anchor>, faults: Faults): (r: seq<Anchor>)
    ensures r <= checked
  {
    if |checked| == 0 || checked[0].height in faults.unreadable then []
    else [checked[0]] + ReadablePrefix(checked[1..], faults)
  }

  /** When a startup succeeds: the cursor is valid, the outer tail is of this chain, and the published
      head can be looked up if that decides the alignment. */
  predicate LoadAccepts(cursor: Option<ForkScanState>, tail: Option<Outer>, ownTail: bool, faults: Faults) {
    && (cursor.Some? ==> ValidState(cursor.value))
    && (tail.Some? ==> ownTail)
    && (cursor.Some? && cursor.value.pending.None? && tail.Some? && !tail.value.isFork && HeadOf(tail.value) == cursor.value.published ==>
          cursor.value.published.height !in faults.unreadable)
  }

  /** The notice replays a transition away from the saved head that the cursor missed. */
  predicate IsMissedReplay(c: Core, n: Notice) {
    && c.state.Some? && c.anchor.Some? && c.state.value.published != c.anchor.value
    && AlreadyProcessed(c, n) && NoticeExtends(n, c.state.value.published)
  }

  class Checker {
    const db: ConsistencyDB
    const chainID: int
    const tailChainID: int
    var forkState: Option<ForkScanState>
    var forkRecoveryAnchor: Option<Anchor>
    var forkRecoveryDrop: bool
    var forkAligned: bool
    var forkSchedule: Schedule
    var forkBatch: ForkScanBatch?
    var latest: Option<Outer>

    /** `tail` is the last outer message found, which belongs to the chain `tailChainID`. */
    constructor (db: ConsistencyDB, chainID: int, tail: Option<Outer>, tailChainID: int)
      ensures this.db == db && this.chainID == chainID && this.tailChainID == tailChainID && latest == tail && forkBatch == null
    {
      this.db, this.chainID, this.tailChainID := db, chainID, tailChainID;
      forkState, forkRecoveryAnchor, forkRecoveryDrop, forkAligned := None, None, false, false;
      forkSchedule, forkBatch, latest := FreshSchedule(0), null, tail;
    }

    ghost function Frame(): set<object>
      reads this
    {
      {this, db} + if forkBatch == null then {} else {forkBatch}
    }

    ghost function View(): Core
      reads Frame()
    {
      Core(db.store.nums, db.store.cursor, forkState, forkAligned, forkRecoveryAnchor, forkRecoveryDrop, forkSchedule,
           if forkBatch == null then None else Some(forkBatch.View()), latest)
    }

    /** Startup: an unreadable or invalid cursor stops the process; otherwise the saved state is
        taken over, aligned only when it already matches both the outer tail and the index. */
    method LoadForkScan(faults: Faults) returns (ok: bool)
      requires forkBatch == null
      modifies this
      ensures forkBatch == null && latest == old(latest) && db.store == old(db.store)
      ensures ok <==> LoadAccepts(db.store.cursor, latest, tailChainID == chainID, faults)
      ensures ok ==> View() == Reloaded(db.store.nums, db.store.cursor, latest)
    {
      var state := db.LoadForkScan();
      if state.Err? { return false; }
      forkState, forkAligned, forkRecoveryAnchor, forkRecoveryDrop := state.value, false, None, false;
      forkSchedule := FreshSchedule(0);
      if latest.Some? {
        if tailChainID != chainID { return false; }
        if latest.value.isFork {
          forkRecoveryDrop := true;
        } else {
          forkRecoveryAnchor := Some(HeadOf(latest.value));
        }
      }
      if forkState.Some? && forkState.value.pending.None? && forkRecoveryAnchor == Some(forkState.value.published) {
        var hash := db.GetCanonicalHashByNum(forkState.value.published.height, faults);
        if hash.Err? { return false; }
        forkAligned := hash.value == Some(forkState.value.published.hash);
      }
      return true;
    }

    method SaveForkScan(state: ForkScanState, faults: Faults) returns (ok: bool)
      modifies this`forkState, db`store
      ensures (View(), ok) == Saved(old(View()), state, !faults.commitFails)
    {
      var r := db.SaveForkScan(state, faults);
      if r.Err? { return false; }
      forkState := Some(state);
      return true;
    }

    method RewindForkScan(height: u64, generation: u64)
      modifies this`forkSchedule, if forkBatch == null then {} else {forkBatch}
      ensures View() == Rewound(old(View()), height, generation)
    {
      forkSchedule := RewoundSchedule(forkSchedule, height, generation);
      if forkBatch != null {
        if forkBatch.rewind.None? || height < forkBatch.rewind.value { forkBatch.rewind := Some(height); }
      }
    }

    method InitializeForkScan(anchor: Anchor, position: Option<Position>, faults: Faults) returns (ok: bool)
      modifies Frame()
      ensures forkBatch == old(forkBatch)
      ensures (View(), ok) == Initialized(old(View()), anchor, position, !faults.commitFails)
    {
      if anchor.height == MAX_U64 { return false; }
      var generation: u64 := 1;
      if forkState.Some? {
        if forkState.value.generation == MAX_U64 { return false; }
        generation := forkState.value.generation + 1;
      }
      var saved := SaveForkScan(ForkScanState(1, anchor, anchor.height + 1, generation, anchor, position, None), faults);
      if !saved { return false; }
      RewindForkScan(0, generation);
      return true;
    }

    /** Walks a replay: contiguous, and every block of it indexed and readable. */
    method ReplayMatches(news: seq<Block>, faults: Faults) returns (ok: bool)
      ensures ok <==> AllReadable(news, faults) && ReplayIndexed(db.store.nums, news)
    {
      var i := 0;
      while i < |news|
        invariant 0 <= i <= |news|
        invariant AllReadable(news[..i], faults) && ReplayIndexed(db.store.nums, news[..i])
      {
        if i > 0 && (news[i].num != news[i - 1].num + 1 || news[i].parent != news[i - 1].hash) {
          assert !Linked(news) by { assert news[i - 1 + 1] == news[i]; }
          return false;
        }
        var hash := db.GetCanonicalHashByNum(news[i].num, faults);
        if hash.Err? || hash.value != Some(news[i].hash) { return false; }
        LinkedSnoc(news, i);
        i := i + 1;
      }
      assert news[..i] == news;
      return true;
    }

    /** A replay is trusted only if it is contiguous, every one of its blocks is indexed, and it ends
        at the recovery anchor. */
    method ReconcileForkScanReplay(notice: Notice, anchor: Anchor, faults: Faults) returns (ok: bool)
      requires |notice.news| > 0 && forkState.Some?
      modifies Frame()
      ensures forkBatch == old(forkBatch)
      ensures (View(), ok) == Reconciled(old(View()), notice, anchor, !faults.commitFails && AllReadable(notice.news, faults))
    {
      hide ValidState, ReplayIndexed, AllReadable;
      var s, news := forkState.value, notice.news;
      if s.pending.Some? && s.pending.value != anchor { return false; }
      var matches := ReplayMatches(news, faults);
      if !matches || AnchorOf(Tail(news)) != anchor { return false; }
      if |notice.drops| > 0 {
        if s.generation == MAX_U64 { return false; }
        var next := s.(generation := s.generation + 1, nextHeight := Min(s.nextHeight, news[0].num), published := anchor, pending := None);
        var saved := SaveForkScan(next, faults);
        if !saved { return false; }
        RewindForkScan(news[0].num, next.generation);
        return true;
      }
      ok := SaveForkScan(s.(published := anchor, pending := None), faults);
    }

    method PrepareForkScan(notice: Notice, position: Option<Position>, faults: Faults) returns (ok: bool)
      requires |notice.news| > 0
      modifies Frame()
      ensures forkBatch == old(forkBatch)
      ensures (View(), ok) == Prepared(old(View()), notice, position,
                                       !faults.commitFails && (IsMissedReplay(old(View()), notice) ==> AllReadable(notice.news, faults)))
    {
      if forkAligned || forkRecoveryAnchor.None? { return true; }
      var anchor := forkRecoveryAnchor.value;
      if forkState.Some? && forkState.value.published != anchor
         && (latest.Some? && Tail(notice.news).hash == latest.value.hash) && NoticeExtends(notice, forkState.value.published)
      {
        ok := ReconcileForkScanReplay(notice, anchor, faults);
        return;
      }
      if forkState.None? || OffsetGap(forkState.value, anchor, position) {
        ok := InitializeForkScan(anchor, None, faults);
        return;
      }
      return true;
    }

    method FinishForkScan(position: Option<Position>, faults: Faults) returns (ok: bool)
      modifies Frame()
      ensures forkBatch == old(forkBatch)
      ensures (View(), ok) == Finished(old(View()), position, !faults.commitFails)
    {
      if latest.None? { return false; }
      if latest.value.isFork { return forkRecoveryDrop; }
      var anchor := HeadOf(latest.value);
      if forkState.None? {
        var done := InitializeForkScan(anchor, position, faults);
        if !done { return false; }
      } else {
        var next := forkState.value.(published := anchor);
        if next.pending == Some(anchor) { next := next.(pending := None); }
        if position.Some? { next := next.(position := position); }
        var saved := SaveForkScan(next, faults);
        if !saved { return false; }
      }
      forkAligned, forkRecoveryDrop := true, false;
      return true;
    }

    /** The main flow's write: index and cursor move in one commit, and a rewind reaches the schedule
        and the running batch before the lock is released. */
    method WriteBlockInfoToDB(newBlocks: seq<Block>, validations: seq<int>, faults: Faults) returns (ok: bool)
      requires |newBlocks| > 0 && |newBlocks| == |validations|
      modifies Frame()
      ensures forkBatch == old(forkBatch)
      ensures (View(), ok) == Written(old(View()), newBlocks,
                                      !faults.commitFails && forall h :: h in faults.unreadable ==>
                                          !Probed(old(db.store).nums, newBlocks, h))
    {
      hide Rewritten, Advanced, Rewinds, ValidState, Probed, Recorded;
      var r := db.WriteBlockInfosWithForkScan(newBlocks, validations, forkState, faults);
      if r.Err? { return false; }
      if forkState.Some? {
        if r.value.value.generation != forkState.value.generation {
          RewindForkScan(newBlocks[0].num, r.value.value.generation);
        }
        forkState := r.value;
      }
      return true;
    }

    // -------------------------------------------------------------- scan worker

    method ObserveForkScan(now: int, interval: nat) returns (upper: u64, generation: u64, ready: bool)
      modifies `forkSchedule
      ensures var r := Observed(old(View()), now, interval);
              && View() == r.0 && ready == r.1.Some?
              && (ready ==> r.1.value == (upper, generation))
    {
      if !forkAligned || forkState.None? || forkState.value.pending.Some? { return 0, 0, false; }
      var s := forkState.value;
      if forkSchedule.generation != s.generation { forkSchedule := FreshSchedule(s.generation); }
      if forkSchedule.observedAt.None? {
        forkSchedule := forkSchedule.(observedAt := Some(now), observedHeight := s.published.height);
      } else if now - forkSchedule.observedAt.value >= interval {
        forkSchedule := forkSchedule.(matureHeight := forkSchedule.observedHeight, mature := true);
        forkSchedule := forkSchedule.(observedAt := Some(now), observedHeight := s.published.height);
      }
      upper, generation := forkSchedule.matureHeight, s.generation;
      ready := forkSchedule.mature && s.nextHeight <= upper;
    }

    method BeginForkScanBatch(upper: u64, generation: u64) returns (b: ForkScanBatch?, err: Option<ScanError>)
      modifies `forkBatch
      ensures (View(), err) == Begun(old(View()), upper, generation)
      ensures err.None? ==> b != null && fresh(b) && forkBatch == b
      ensures err.Some? ==> forkBatch == old(forkBatch)
    {
      if !forkAligned || forkState.None? || forkState.value.pending.Some? { return null, Some(NoCanonical); }
      if forkBatch != null { return null, Some(AlreadyActive); }
      var s, top := forkState.value, upper;
      if generation != s.generation {
        if forkSchedule.generation != s.generation || !forkSchedule.mature { return null, Some(Stale); }
        top := Min(top, forkSchedule.matureHeight);
      }
      b := new ForkScanBatch(s.nextHeight, Min(top, s.published.height), s.generation);
      forkBatch := b;
      err := None;
    }

    /** Nothing but an unreadable mapping can fail where the specification accepts. */
    method VerifyForkScanBatchHeight(b: ForkScanBatch, height: u64, hash: Hash, faults: Faults) returns (ok: bool)
      ensures ok <==> forkBatch == b && VerifyHeight(View(), height, hash).None? && height !in faults.unreadable
    {
      if forkBatch != b || !forkAligned || forkState.None? || forkState.value.nextHeight != b.start || StaleAt(b.View(), height) {
        return false;
      }
      if forkState.value.generation != b.generation && b.rewind.None? { return false; }
      if height > forkState.value.published.height { return false; }
      var current := db.GetCanonicalHashByNum(height, faults);
      if current.Err? || current.value.None? { return false; }
      return current.value.value == hash;
    }

    /** Only the verified, readable, contiguous prefix is checkpointed; the batch ends either way. */
    method FinishForkScanBatch(b: ForkScanBatch, checked: seq<Anchor>, live: bool, faults: Faults) returns (more: bool, clean: bool)
      requires forkBatch == b
      requires forall i :: 0 <= i < |checked| ==> checked[i].height == b.start + i && checked[i].height < MAX_U64
      modifies this`forkState, this`forkBatch, db`store
      ensures forkBatch == null
      ensures View() == BatchFinished(old(View()), ReadablePrefix(checked, faults), live, !faults.commitFails)
      ensures more == LeavesWork(old(View()), checked, live, faults) && clean == EndsClean(old(View()), checked, live, faults)
    {
      hide ReadablePrefix, VerifiedPrefix, ValidState;
      ghost var c0 := View();
      if !live {
        forkBatch := null;
        return true, false;
      }
      var n := 0;
      clean := true;
      while n < |checked| && clean
        invariant 0 <= n <= |checked| && View() == c0 && forkBatch == b
        invariant forall i :: 0 <= i < n ==>
              VerifyHeight(c0, checked[i].height, checked[i].hash).None? && checked[i].height !in faults.unreadable
        invariant !clean ==>
              n < |checked| && (VerifyHeight(c0, checked[n].height, checked[n].hash).Some? || checked[n].height in faults.unreadable)
        decreases |checked| - n, clean
      {
        clean := VerifyForkScanBatchHeight(b, checked[n].height, checked[n].hash, faults);
        if clean { n := n + 1; }
      }
      PrefixIs(c0, checked, faults, n);
      if n > 0 {
        assert VerifyHeight(c0, checked[0].height, checked[0].hash).None?;
        var next := forkState.value.(nextHeight := checked[n - 1].height + 1);
        var saved := SaveForkScan(next, faults);
        forkBatch := null;
        if !saved { return true, false; }
        more := b.start + n <= b.upper;
        return;
      }
      forkBatch := null;
      more := b.start <= b.upper;
    }

    /** The loop of a batch: heights from its start up, at most 128 and, after the first, only while
        the time budget lasts. `planned` says which heights the object scan gets through. */
    method ScanBatchHeights(b: ForkScanBatch, clock: nat -> int, planned: u64 -> bool, faults: Faults)
      returns (checked: seq<Anchor>, stop: Stop)
      ensures IsScanRun(db.store.nums, b.View(), planned, checked)
      ensures StopsFor(db.store.nums, b.View(), clock, planned, faults, checked, stop)
    {
      hide IsScanRun;
      ghost var batch := b.View();
      var deadline := clock(0) + FORK_SCAN_BATCH_BUDGET;
      var ticks := 1;
      stop := Done;
      checked := [];
      EmptyRun(db.store.nums, batch, planned);
      var height: int := b.start;
      while height <= b.upper
        invariant stop == Done && height == b.start + |checked| && |checked| <= FORK_SCAN_BATCH_SIZE
        invariant deadline == clock(0) + FORK_SCAN_BATCH_BUDGET && ticks == (if |checked| == 0 then 1 else |checked|) && InTime(clock, |checked|)
        invariant IsScanRun(db.store.nums, batch, planned, checked)
        decreases b.upper + 1 - height
      {
        if |checked| >= FORK_SCAN_BATCH_SIZE { stop := Full; break; }
        if StaleAt(b.View(), height) { stop := Failed; break; }
        if |checked| > 0 {
          var now := clock(ticks);
          ticks := ticks + 1;
          if now >= deadline { stop := OutOfTime; break; }
        }
        if height == MAX_U64 { stop := Failed; break; }
        var hash := db.GetCanonicalHashByNum(height, faults);
        if hash.Err? || hash.value.None? || !planned(height) { stop := Failed; break; }
        LongerRun(db.store.nums, batch, planned, checked, Anchor(height, hash.value.value));
        checked := checked + [Anchor(height, hash.value.value)];
        height := height + 1;
      }
    }

    /** One batch: begun, scanned, and its verified prefix checkpointed. No other flow interferes here;
        interference is the subject of the state machine. */
    method ScanContinuousBatchWithClock(upper: u64, generation: u64, clock: nat -> int, planned: u64 -> bool, faults: Faults)
      returns (more: bool, clean: bool, checked: seq<Anchor>, stop: Stop)
      modifies Frame()
      ensures forkBatch == old(forkBatch)
      ensures var begun := Begun(old(View()), upper, generation);
              if begun.1.Some? then !clean && more && stop == NotBegun && checked == [] && View() == old(View())
              else
                var b := begun.0.batch.value;
                && IsScanRun(old(db.store).nums, b, planned, checked)
                && StopsFor(old(db.store).nums, b, clock, planned, faults, checked, stop)
                && View() == BatchFinished(begun.0, ReadablePrefix(checked, faults), true, !faults.commitFails)
                && more == LeavesWork(begun.0, checked, true, faults)
                && clean == (EndsClean(begun.0, checked, true, faults) && !stop.Failed?)
    {
      hide Begun, BatchFinished, ReadablePrefix, LeavesWork, EndsClean, IsScanRun, StopsFor;
      BegunBatch(View(), upper, generation);
      var b, err := BeginForkScanBatch(upper, generation);
      if err.Some? { return true, false, [], NotBegun; }
      ghost var batch := b.View();
      checked, stop := ScanBatchHeights(b, clock, planned, faults);
      RunHeights(db.store.nums, batch, planned, checked);
      more, clean := FinishForkScanBatch(b, checked, true, faults);
      clean := clean && stop != Failed;
    }

    /** One batch without faults or reorganisations: whatever the clock, it moves the cursor by at
        least one and at most 128 heights, all of them scanned, and changes nothing else. */
    method QuietScan(upper: u64, clock: nat -> int, planned: u64 -> bool) returns (checked: seq<Anchor>, more: bool, clean: bool)
      requires Quiet(View(), upper, planned) && forkBatch == null
      modifies Frame()
      ensures forkBatch == null
      ensures 1 <= |checked| <= FORK_SCAN_BATCH_SIZE && old(View()).state.value.nextHeight + |checked| <= upper + 1
      ensures forall i :: 0 <= i < |checked| ==> checked[i].height == old(View()).state.value.nextHeight + i
      ensures View() == Moved(old(View()), old(View()).state.value.nextHeight + |checked|)
      ensures clean && (more <==> old(View()).state.value.nextHeight + |checked| <= upper)
    {
      hide Begun, BatchFinished, IsScanRun, StopsFor, Moved, ReadablePrefix, LeavesWork, EndsClean;
      ghost var c := View();
      var stop;
      more, clean, checked, stop := ScanContinuousBatchWithClock(upper, forkState.value.generation, clock, planned, Faults({}, false));
      QuietBatch(c, upper, clock, planned, checked, stop);
    }

    /** With every height up to `upper` indexed and scannable, batches repeated under any clocks bring
        the cursor to exactly one past `upper`: every height is scanned once, in order, and nothing
        else of the state changes. */
    method CatchUp(upper: u64, clocks: nat -> nat -> int, planned: u64 -> bool) returns (scanned: seq<u64>, batches: nat)
      requires Quiet(View(), upper, planned) && forkBatch == null
      modifies Frame()
      ensures forkBatch == null
      ensures View() == Moved(old(View()), upper + 1)
      ensures |scanned| == upper + 1 - old(View()).state.value.nextHeight
      ensures forall i :: 0 <= i < |scanned| ==> scanned[i] == old(View()).state.value.nextHeight + i
      ensures batches <= |scanned| <= batches * FORK_SCAN_BATCH_SIZE
    {
      ghost var c0 := View();
      ghost var start := forkState.value.nextHeight;
      scanned, batches := [], 0;
      while forkState.value.nextHeight <= upper
        invariant forkBatch == null && forkState.Some? && start <= forkState.value.nextHeight <= upper + 1
        invariant View() == Moved(c0, forkState.value.nextHeight)
        invariant |scanned| == forkState.value.nextHeight - start
        invariant forall i :: 0 <= i < |scanned| ==> scanned[i] == start + i
        invariant batches <= |scanned| <= batches * FORK_SCAN_BATCH_SIZE
        decreases upper + 1 - forkState.value.nextHeight
      {
        StillQuiet(c0, upper, planned, forkState.value.nextHeight);
        var checked, _, _ := QuietScan(upper, clocks(batches), planned);
        scanned := scanned + seq(|checked|, i requires 0 <= i < |checked| => checked[i].height);
        batches := batches + 1;
      }
    }
  }

  /** A checker that may scan, with work up to `upper` and every height of it indexed and scannable. */
  ghost predicate Quiet(c: Core, upper: u64, planned: u64 -> bool) {
    && CanScan(c) && c.batch.None? && ValidState(c.state.value) && c.state == c.cursor
    && c.state.value.nextHeight <= upper <= c.state.value.published.height && upper < MAX_U64
    && forall h: u64 :: c.state.value.nextHeight <= h <= upper ==> h in c.nums && planned(h)
  }

  /** The same state with the cursor at `next`. */
  function Moved(c: Core, next: u64): Core
    requires c.state.Some?
  {
    var s := Some(c.state.value.(nextHeight := next));
    c.(state := s, cursor := s)
  }

  lemma MovedIsValid(s: ForkScanState, next: u64)
    requires ValidState(s) && next <= s.published.height + 1
    ensures ValidState(s.(nextHeight := next))
  {
  }

  lemma StillQuiet(c: Core, upper: u64, planned: u64 -> bool, next: u64)
    requires Quiet(c, upper, planned) && c.state.value.nextHeight <= next <= upper
    ensures Quiet(Moved(c, next), upper, planned)
  {
    MovedIsValid(c.state.value, next);
  }

  predicate CanCheckpoint(c: Core, next: int) {
    c.state.Some? && 0 <= next <= MAX_U64 && ValidState(c.state.value.(nextHeight := next))
  }

  /** The checkpoint of a batch happens as far as anything was verified. */
  predicate Checkpoints(c: Core, checked: seq<Anchor>, live: bool, faults: Faults)
    requires c.batch.Some?
  {
    var n := VerifiedPrefix(c, ReadablePrefix(checked, faults));
    live && (n > 0 ==> !faults.commitFails && CanCheckpoint(c, c.batch.value.start + n))
  }

  /** What a batch reports of itself when it ends: whether work remains, and whether all went well. */
  predicate LeavesWork(c: Core, checked: seq<Anchor>, live: bool, faults: Faults)
    requires c.batch.Some?
  {
    !Checkpoints(c, checked, live, faults)
    || c.batch.value.start + VerifiedPrefix(c, ReadablePrefix(checked, faults)) <= c.batch.value.upper
  }

  predicate EndsClean(c: Core, checked: seq<Anchor>, live: bool, faults: Faults)
    requires c.batch.Some?
  {
    Checkpoints(c, checked, live, faults) && VerifiedPrefix(c, ReadablePrefix(checked, faults)) == |checked|
  }

  /** Why the scan loop ended. */
  datatype Stop = NotBegun | Done | Full | OutOfTime | Failed

  /** The checked heights are a run from the batch's start, each indexed with the hash it was scanned
      against and got through. */
  predicate IsScanRun(nums: Index, b: Batch, planned: u64 -> bool, checked: seq<Anchor>) {
    && |checked| <= FORK_SCAN_BATCH_SIZE
    && forall i :: 0 <= i < |checked| ==>
         && checked[i].height == b.start + i && checked[i].height <= b.upper && checked[i].height < MAX_U64
         && !StaleAt(b, checked[i].height)
         && planned(checked[i].height) && Get(nums, checked[i].height) == Some(checked[i].hash)
  }

  /** The clock is read once for the deadline and then before each height but the first. */
  predicate InTime(clock: nat -> int, count: int) {
    forall i: nat :: 0 < i < count ==> clock(i) < clock(0) + FORK_SCAN_BATCH_BUDGET
  }

  predicate StopsFor(nums: Index, b: Batch, clock: nat -> int, planned: u64 -> bool, faults: Faults, checked: seq<Anchor>, stop: Stop) {
    var h := b.start + |checked|;
    && InTime(clock, |checked|)
    && match stop
       case NotBegun => false
       case Done => h > b.upper
       case Full => |checked| == FORK_SCAN_BATCH_SIZE && h <= b.upper
       case OutOfTime => |checked| > 0 && h <= b.upper && !StaleAt(b, h) && clock(|checked|) >= clock(0) + FORK_SCAN_BATCH_BUDGET
       case Failed =>
         && h <= b.upper
         && (StaleAt(b, h)
             || (InTime(clock, |checked| + 1) && (h == MAX_U64 || h in faults.unreadable || h !in nums || !planned(h))))
  }

  lemma BegunBatch(c: Core, upper: u64, generation: u64)
    ensures var r := Begun(c, upper, generation);
            if r.1.Some? then r.0 == c
            else r.0.batch.Some? && r.0.batch.value.rewind.None? && r.0 == c.(batch := r.0.batch) && c.batch.None?
  {
  }

  lemma EmptyRun(nums: Index, b: Batch, planned: u64 -> bool)
    ensures IsScanRun(nums, b, planned, [])
  {
  }

  lemma LongerRun(nums: Index, b: Batch, planned: u64 -> bool, checked: seq<Anchor>, next: Anchor)
    requires IsScanRun(nums, b, planned, checked) && |checked| < FORK_SCAN_BATCH_SIZE
    requires next.height == b.start + |checked| && next.height <= b.upper && next.height < MAX_U64
    requires !StaleAt(b, next.height) && planned(next.height) && Get(nums, next.height) == Some(next.hash)
    ensures IsScanRun(nums, b, planned, checked + [next])
  {
  }

  lemma RunHeights(nums: Index, b: Batch, planned: u64 -> bool, checked: seq<Anchor>)
    requires IsScanRun(nums, b, planned, checked)
    ensures |checked| <= FORK_SCAN_BATCH_SIZE
    ensures forall i :: 0 <= i < |checked| ==> checked[i].height == b.start + i && checked[i].height < MAX_U64
  {
  }

  /** The readable prefix ends exactly before the first unreadable height. */
  lemma {:induction false} ReadableUpTo(checked: seq<Anchor>, faults: Faults, n: nat)
    requires n <= |checked| && forall i :: 0 <= i < n ==> checked[i].height !in faults.unreadable
    requires n < |checked| ==> checked[n].height in faults.unreadable
    ensures ReadablePrefix(checked, faults) == checked[..n]
    decreases |checked|
  {
    if n > 0 { ReadableUpTo(checked[1..], faults, n - 1); }
  }

  lemma NoFaults(checked: seq<Anchor>)
    ensures ReadablePrefix(checked, Faults({}, false)) == checked
  {
  }

  /** A batch nothing interferes with verifies all it checked. */
  lemma RunVerifies(c: Core, planned: u64 -> bool, checked: seq<Anchor>)
    requires CanScan(c) && c.batch.Some? && c.batch.value.rewind.None? && c.state.value.nextHeight == c.batch.value.start
    requires c.batch.value.generation == c.state.value.generation && c.batch.value.upper <= c.state.value.published.height
    requires IsScanRun(c.nums, c.batch.value, planned, checked)
    ensures VerifiedPrefix(c, checked) == |checked|
  {
    forall i | 0 <= i < |checked| ensures VerifyHeight(c, checked[i].height, checked[i].hash).None? {
    }
  }

  lemma QuietBegins(c: Core, upper: u64, planned: u64 -> bool)
    requires Quiet(c, upper, planned)
    ensures Begun(c, upper, c.state.value.generation) ==
              (c.(batch := Some(Batch(c.state.value.nextHeight, upper, c.state.value.generation, None))), None)
  {
  }

  /** And without faults it checks at least one height and checkpoints all it checked. */
  lemma QuietBatch(c: Core, upper: u64, clock: nat -> int, planned: u64 -> bool, checked: seq<Anchor>, stop: Stop)
    requires Quiet(c, upper, planned)
    requires var r := Begun(c, upper, c.state.value.generation);
             r.1.None? ==> IsScanRun(c.nums, r.0.batch.value, planned, checked)
                           && StopsFor(c.nums, r.0.batch.value, clock, planned, Faults({}, false), checked, stop)
    ensures Begun(c, upper, c.state.value.generation).1.None?
    ensures 1 <= |checked| <= FORK_SCAN_BATCH_SIZE && c.state.value.nextHeight + |checked| <= upper + 1
    ensures forall i :: 0 <= i < |checked| ==> checked[i].height == c.state.value.nextHeight + i && checked[i].height < MAX_U64
    ensures BatchFinished(Begun(c, upper, c.state.value.generation).0, checked, true, true) == Moved(c,
         c.state.value.nextHeight + |checked|)
    ensures ReadablePrefix(checked, Faults({}, false)) == checked
    ensures var c1 := Begun(c, upper, c.state.value.generation).0;
            && c1.batch.Some? && EndsClean(c1, checked, true, Faults({}, false)) && !stop.Failed?
            && (LeavesWork(c1, checked, true, Faults({}, false)) <==> c.state.value.nextHeight + |checked| <= upper)
  {
    hide VerifyHeight, VerifiedPrefix, ReadablePrefix, ValidState, Begun, BatchFinished, IsScanRun, StopsFor;
    var c1 := Begun(c, upper, c.state.value.generation).0;
    QuietBegins(c, upper, planned);
    NoFaults(checked);
    RunVerifies(c1, planned, checked);
    QuietProgress(c, upper, clock, planned, checked, stop);
    RunHeights(c.nums, c1.batch.value, planned, checked);
    MovedIsValid(c.state.value, c.state.value.nextHeight + |checked|);
    WholeCheckpoint(c, c1, checked);
  }

  /** A loop over quiet heights ends only past the range, full, or out of time after some height. */
  lemma QuietProgress(c: Core, upper: u64, clock: nat -> int, planned: u64 -> bool, checked: seq<Anchor>, stop: Stop)
    requires Quiet(c, upper, planned)
    requires var b := Batch(c.state.value.nextHeight, upper, c.state.value.generation, None);
             IsScanRun(c.nums, b, planned, checked) && StopsFor(c.nums, b, clock, planned, Faults({}, false), checked, stop)
    ensures 1 <= |checked| <= FORK_SCAN_BATCH_SIZE && c.state.value.nextHeight + |checked| <= upper + 1 && !stop.Failed?
  {
    if |checked| > 0 { assert checked[|checked| - 1].height <= upper; }
  }

  lemma WholeCheckpoint(c: Core, c1: Core, checked: seq<Anchor>)
    requires c.state.Some? && c.batch.None? && c1 == c.(batch := c1.batch) && |checked| > 0
    requires forall i :: 0 <= i < |checked| ==> checked[i].height == c.state.value.nextHeight + i && checked[i].height < MAX_U64
    requires VerifiedPrefix(c1, checked) == |checked|
    requires c.state.value.nextHeight + |checked| <= MAX_U64
    requires ValidState(c.state.value.(nextHeight := c.state.value.nextHeight + |checked|))
    ensures BatchFinished(c1, checked, true, true) == Moved(c, c.state.value.nextHeight + |checked|)
  {
    hide VerifiedPrefix, ValidState;
  }

  /** The readable verified prefix is what the specification's verified prefix of the readable part is. */
  lemma PrefixIs(c: Core, checked: seq<Anchor>, faults: Faults, n: nat)
    requires n <= |checked|
    requires forall i :: 0 <= i < n ==> VerifyHeight(c, checked[i].height, checked[i].hash).None? && checked[i].height !in faults.unreadable
    requires n < |checked| ==> VerifyHeight(c, checked[n].height, checked[n].hash).Some? || checked[n].height in faults.unreadable
    ensures VerifiedPrefix(c, ReadablePrefix(checked, faults)) == n <= |ReadablePrefix(checked, faults)|
    decreases |checked|
  {
    hide VerifyHeight;
    if n > 0 {
      PrefixIs(c, checked[1..], faults, n - 1);
      assert ReadablePrefix(checked, faults)[1..] == ReadablePrefix(checked[1..], faults);
    }
  }

  lemma LinkedSnoc(news: seq<Block>, i: nat)
    requires i < |news| && Linked(news[..i])
    requires i > 0 ==> news[i].num == news[i - 1].num + 1 && news[i].parent == news[i - 1].hash
    ensures Linked(news[..i + 1])
  {
    var front, all := news[..i], news[..i + 1];
    forall k | 0 <= k < |all| - 1
      ensures all[k + 1].num == all[k].num + 1 && all[k + 1].parent == all[k].hash
    {
      if k + 1 < i { assert front[k + 1] == all[k + 1] && front[k] == all[k]; }
    }
  }
}
