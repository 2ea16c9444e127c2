/** What the scan may count on: an observation matures, a batch gets all that is mature, and of a batch
    overtaken by a write everything below that write is kept. */
module ScanProgress {
  import opened Types
  import opened CanonicalIndex
  import opened ScanCore
  import opened ScanMachine
  import opened ScanInvariants
  import opened ScanHeads
  import opened ScanHistory
  import opened ScanTheorems

  // ---------------------------------------------------------------- what a write cuts off

  predicate IsObserved(c: Core, h: u64) {
    c.schedule.observedAt.Some? && h <= c.schedule.observedHeight
  }

  predicate IsMature(c: Core, h: u64) {
    c.schedule.mature && h <= c.schedule.matureHeight
  }

  predicate InBatch(c: Core, h: u64) {
    c.batch.Some? && c.batch.value.start <= h <= c.batch.value.upper && !StaleAt(c.batch.value, h)
  }

  /** Of what was observed, mature or in the batch, exactly the heights below `cut` are left, if there is a cut. */
  ghost predicate CutAt(c: Core, c': Core, cut: Option<u64>) {
    forall h: u64 ::
      && (IsObserved(c', h) <==> IsObserved(c, h) && (cut.Some? ==> h < cut.value))
      && (IsMature(c', h) <==> IsMature(c, h) && (cut.Some? ==> h < cut.value))
      && (InBatch(c', h) <==> InBatch(c, h) && (cut.Some? ==> h < cut.value))
  }

  /** A canonical write takes away exactly what lies at or above its first new block, and that only if the
      generation rises; what is left keeps its age. */
  lemma WriteCutsExactly(c: Core, blocks: seq<Block>)
    requires |blocks| > 0 && c.state.Some? && Written(c, blocks, true).1
    ensures var c' := Written(c, blocks, true).0;
            && c'.state.Some?
            && CutAt(c, c', if c'.state.value.generation == c.state.value.generation then None else Some(blocks[0].num))
            && (blocks[0].num > 0 ==> c'.schedule.observedAt == c.schedule.observedAt)
            && c'.schedule.generation ==
                 if c'.state.value.generation == c.state.value.generation then c.schedule.generation else c'.state.value.generation
  {
    hide Rewritten, ValidState, Rewinds, Advanced;
  }

  // ---------------------------------------------------------------- an aligned checker

  /** The scan sees no difference, whatever else of the state changed. */
  predicate SameScan(c: Core, c': Core) {
    && c'.aligned == c.aligned && c'.schedule == c.schedule && c'.batch == c.batch && c'.nums == c.nums
    && (c.state.Some? ==>
          c'.state.Some? && c'.state.value.generation == c.state.value.generation && c'.state.value.nextHeight == c.state.value.nextHeight)
  }

  lemma FinishedSameScan(c: Core, position: Option<Position>, ok: bool)
    requires c.aligned && c.state.Some?
    ensures SameScan(c, Finished(c, position, ok).0)
  {
    hide ValidState;
  }

  lemma AlignedPrepared(c: Core, n: Notice, position: Option<Position>, ok: bool)
    requires c.aligned && |n.news| > 0
    ensures Prepared(c, n, position, ok) == (c, true)
  {
  }

  lemma AlignedStart(w: World, n: Notice, position: Option<Position>, saved: bool, aligned: bool, finished: bool)
    requires w.core.aligned && w.core.state.Some?
    ensures SameScan(w.core, Started(w, n, position, saved, aligned, finished).core)
  {
    hide Prepared, Finished, MsgCheck, AlreadyProcessed;
    if |n.news| > 0 {
      AlignedPrepared(w.core, n, position, saved);
      FinishedSameScan(w.core, position, finished);
    }
  }

  /** On an aligned checker the main flow touches what the scan works with only in a canonical write. */
  lemma AlignedMain(w: World, step: Step)
    requires w.core.aligned && w.core.state.Some? && Enabled(w, step) && MainStep(step) && !step.StoreBlocks?
    ensures SameScan(w.core, Acted(w, step).core)
  {
    hide Messages, Started, Finished, ProducerContract;
    match step
    case Start(n, position, saved, aligned, finished) => AlignedStart(w, n, position, saved, aligned, finished);
    case Publish(_, _) =>
    case GiveUp =>
    case Complete(finished) => FinishedSameScan(w.core, w.main.position, finished);
  }

  /** Everywhere else it is touched by the worker alone. */
  lemma OtherSteps(w: World, step: Step)
    requires Enabled(w, step) && QuietStep(step)
    ensures Acted(w, step).core == w.core
  {
    hide QuietStep, Acted, Enabled;
    QuietChanges(w, step);
  }

  // ---------------------------------------------------------------- observations mature

  /** The observation made at time `at` is still waiting, and covers the heights up to `low`. */
  predicate Holding(c: Core, at: int, low: u64, top: u64) {
    && c.aligned && c.state.Some? && c.schedule.generation == c.state.value.generation
    && c.schedule.observedAt == Some(at) && low <= c.schedule.observedHeight <= top
  }

  /** A canonical write whose first new block is at or below `h` has raised the generation. */
  predicate CutsBelow(w: World, w': World, h: int) {
    && w.main.Busy? && |w.main.notice.news| > 0 && w.main.notice.news[0].num <= h
    && w.core.state.Some? && w'.core.state.Some? && w'.core.state.value.generation != w.core.state.value.generation
  }

  /** A step that leaves an observation made at `at`, with an interval still to run, and its heights up to `low` alone. */
  predicate Disregards(w: World, step: Step, at: int, low: u64) {
    && !step.Crash?
    && (step.Observe? && Enabled(w, step) && CanScan(w.core) ==> w.clock < at + w.interval)
    && (step.StoreBlocks? ==> !CutsBelow(w, Next(w, step), low))
  }

  lemma StoreHolds(w: World, committed: bool, at: int, low: u64, top: u64)
    requires Holding(w.core, at, low, top) && Enabled(w, StoreBlocks(committed))
    requires !CutsBelow(w, Next(w, StoreBlocks(committed)), low)
    ensures Holding(Next(w, StoreBlocks(committed)).core, at, low, top)
  {
    hide Rewritten, ValidState, Rewinds, Advanced, Messages, ProducerContract;
  }

  lemma HoldsOn(w: World, step: Step, at: int, low: u64, top: u64)
    requires Holding(w.core, at, low, top) && Disregards(w, step, at, low)
    ensures Holding(Next(w, step).core, at, low, top)
  {
    hide MainStep, Started, Stored, Published, Finished, BatchFinished, Reloaded, VerifyHeight, Covered, Messages, CutsBelow, ProducerContract;
    if Enabled(w, step) {
      if step.StoreBlocks? {
        StoreHolds(w, step.committed, at, low, top);
      } else if MainStep(step) {
        AlignedMain(w, step);
      } else if QuietStep(step) {
        OtherSteps(w, step);
      } else if step.FinishBatch? {
        FinishSame(w.core, Checked(w.core.batch.value.start, w.worker.done), step.live, step.committed);
      } else {
        assert step.Observe? || step.BeginBatch? by { KindOf(step); }
      }
    }
  }

  lemma KindOf(step: Step)
    ensures MainStep(step) || QuietStep(step) || step.FinishBatch? || step.Observe? || step.BeginBatch? || step.Crash?
  {
  }

  lemma FinishSame(c: Core, checked: seq<Anchor>, live: bool, ok: bool)
    requires forall i :: 0 <= i < |checked| ==> checked[i].height < MAX_U64
    ensures var c' := BatchFinished(c, checked, live, ok);
            && c'.aligned == c.aligned && c'.schedule == c.schedule && c'.nums == c.nums && c'.batch.None?
            && (c.state.Some? ==> c'.state.Some? && c'.state.value.generation == c.state.value.generation)
  {
    hide ValidState, VerifyHeight;
  }

  lemma {:induction false} HoldsUntil(states: seq<World>, steps: seq<Step>, i: nat, k: nat, at: int, low: u64, top: u64)
    requires IsRun(states, steps) && i < k <= |steps| && Holding(states[i + 1].core, at, low, top)
    requires forall t :: i < t < k ==> Disregards(states[t], steps[t], at, low)
    ensures Holding(states[k].core, at, low, top)
  {
    hide Holding, Disregards, Next;
    if k > i + 1 {
      HoldsUntil(states, steps, i, k - 1, at, low, top);
      HoldsOn(states[k - 1], steps[k - 1], at, low, top);
      assert states[k - 1 + 1] == Next(states[k - 1], steps[k - 1]);
    }
  }

  /** Whether it takes an observation now: none is waiting that counts, or the one waiting is old enough. */
  predicate Due(w: World) {
    && CanScan(w.core)
    && (|| w.core.schedule.observedAt.None? || w.core.schedule.generation != w.core.state.value.generation
        || w.clock >= w.core.schedule.observedAt.value + w.interval)
  }

  lemma DueIsTaken(w: World)
    requires Enabled(w, Observe) && Due(w)
    ensures var head := w.core.state.value.published.height; Holding(Next(w, Observe).core, w.clock, head, head)
  {
  }

  lemma HeldMatures(w: World, at: int, low: u64, top: u64)
    requires Enabled(w, Observe) && CanScan(w.core) && Holding(w.core, at, low, top) && w.clock >= at + w.interval
    ensures var w' := Next(w, Observe);
            && w'.core.schedule.mature && low <= w'.core.schedule.matureHeight <= top
            && w'.worker == if w.core.state.value.nextHeight <= w'.core.schedule.matureHeight
                            then Ready(w'.core.schedule.matureHeight, w.core.state.value.generation) else Sleeping
  {
  }

  /** Observations mature. If one is taken at step `i`, then the first one due a full interval later makes
      everything mature that was published at `i`, less only what writes in between cut off, and hands the
      worker all of it that is not yet scanned. This holds in every run and whatever was scheduled before;
      with no write below the head the mature height is exactly the head at `i`. */
  lemma ObservationMatures(states: seq<World>, steps: seq<Step>, i: nat, j: nat, low: u64)
    requires IsRun(states, steps) && i < j < |steps| && steps[i] == Observe == steps[j]
    requires Enabled(states[i], Observe) && Due(states[i]) && low <= states[i].core.state.value.published.height
    requires Enabled(states[j], Observe) && CanScan(states[j].core) && states[j].clock >= states[i].clock + states[j].interval
    requires forall t :: i < t < j ==> Disregards(states[t], steps[t], states[i].clock, low)
    ensures var s, next := states[j + 1].core.schedule, states[j].core.state.value.nextHeight;
            && s.mature && low <= s.matureHeight <= states[i].core.state.value.published.height
            && states[j + 1].worker == if next <= s.matureHeight then Ready(s.matureHeight, states[j].core.state.value.generation) else Sleeping
  {
    var head := states[i].core.state.value.published.height;
    hide Holding, Disregards, Next, Due, Enabled;
    DueIsTaken(states[i]);
    assert states[i + 1] == Next(states[i], steps[i]) && states[j + 1] == Next(states[j], steps[j]);
    Relaxed(states[i + 1].core, states[i].clock, head, low);
    HoldsUntil(states, steps, i, j, states[i].clock, low, head);
    HeldMatures(states[j], states[i].clock, low, head);
  }

  lemma Relaxed(c: Core, at: int, head: u64, low: u64)
    requires Holding(c, at, head, head) && low <= head
    ensures Holding(c, at, low, head)
  {
  }

  // ---------------------------------------------------------------- the batch in flight

  /** The hash the worker holds for the height in hand. */
  function Held(now: Progress): Option<Hash> {
    match now
    case AtRead => None
    case AtList(hash) => Some(hash)
    case Working(hash, _, _, _, _, _) => Some(hash)
  }

  /** What was scanned below the fence is what the index still says. */
  predicate ScannedStands(w: World) {
    w.worker.Scanning? && w.core.batch.Some? ==>
      var b, done := w.core.batch.value, w.worker.done;
      && (forall i :: 0 <= i < |done| && 0 <= b.start + i <= MAX_U64 && !StaleAt(b, b.start + i) ==>
            Get(w.core.nums, b.start + i) == Some(done[i].hash))
      && (Held(w.worker.now).Some? && b.start + |done| <= MAX_U64 && !StaleAt(b, b.start + |done|) ==>
            Get(w.core.nums, b.start + |done|) == Held(w.worker.now))
  }

  /** A batch runs only on an aligned checker; without a fence its generation is current, and while its
      first height is below the fence the cursor is still where it began. */
  predicate BatchCurrent(c: Core) {
    c.batch.Some? ==>
      && c.aligned && c.state.Some?
      && (c.batch.value.rewind.None? ==> c.state.value.generation == c.batch.value.generation)
      && (!StaleAt(c.batch.value, c.batch.value.start) ==> c.state.value.nextHeight == c.batch.value.start)
  }

  /** What waits to mature belongs to the current generation. */
  predicate ScheduleCurrent(c: Core) {
    c.schedule.observedAt.Some? ==> c.state.Some? && c.schedule.generation == c.state.value.generation
  }

  ghost predicate Current(w: World) {
    ScannedStands(w) && BatchCurrent(w.core) && ScheduleCurrent(w.core)
  }

  lemma StoreKeepsCurrent(c: Core, blocks: seq<Block>, ok: bool)
    requires |blocks| > 0 && Linked(blocks)
    requires BatchCurrent(c) && ScheduleCurrent(c)
    ensures var c' := Written(c, blocks, ok).0; BatchCurrent(c') && ScheduleCurrent(c')
  {
    hide Rewritten, ValidState, Rewinds, Advanced, Affected;
    if c.state.Some? && Written(c, blocks, ok).1 {
      WrittenFacts(c, blocks);
      AtomicRewind(c.state.value, c.nums, blocks);
      var s, s' := c.state.value, Advanced(c.state.value, c.nums, blocks);
      if s'.nextHeight != s.nextHeight { assert Affected(s, c.nums, blocks, s'.nextHeight); }
    }
  }

  lemma PreparedKeepsCurrent(c: Core, n: Notice, position: Option<Position>, ok: bool)
    requires |n.news| > 0 && BatchCurrent(c) && ScheduleCurrent(c)
    ensures var c' := Prepared(c, n, position, ok).0; BatchCurrent(c') && ScheduleCurrent(c')
  {
    hide ValidState, OffsetGap, NoticeExtends, ReplayIndexed, AlreadyProcessed;
  }

  lemma FinishedKeepsCurrent(c: Core, position: Option<Position>, ok: bool)
    requires BatchCurrent(c) && ScheduleCurrent(c)
    ensures var c' := Finished(c, position, ok).0; BatchCurrent(c') && ScheduleCurrent(c')
  {
    hide ValidState;
  }

  lemma MainKeepsCurrent(w: World, step: Step)
    requires HeadsInv(w) && BatchCurrent(w.core) && ScheduleCurrent(w.core) && Enabled(w, step) && MainStep(step)
    ensures var c' := Acted(w, step).core; BatchCurrent(c') && ScheduleCurrent(c')
  {
    hide Messages, Prepared, Finished, Written, ProducerContract, MsgCheck, AlreadyProcessed, BatchCurrent, ScheduleCurrent, HeadsInv,
         ValidPosition;
    match step
    case Start(n, position, saved, aligned, finished) =>
      if |n.news| > 0 {
        PreparedKeepsCurrent(w.core, n, position, saved);
        FinishedKeepsCurrent(Prepared(w.core, n, position, saved).0, position, finished);
      }
    case StoreBlocks(committed) =>
      BusyContract(w);
      ContractNews(w.main.notice);
      StoreKeepsCurrent(w.core, w.main.notice.news, committed);
    case Publish(_, _) => SameKeepsCurrent(w.core, Acted(w, step).core);
    case GiveUp =>
    case Complete(finished) => FinishedKeepsCurrent(w.core, w.main.position, finished);
  }

  lemma BusyContract(w: World)
    requires HeadsInv(w) && w.main.Busy?
    ensures ProducerContract(w.main.notice) && |w.main.notice.news| > 0
  {
  }

  lemma SameKeepsCurrent(c: Core, c': Core)
    requires SameScan(c, c') && BatchCurrent(c) && ScheduleCurrent(c)
    ensures BatchCurrent(c') && ScheduleCurrent(c')
  {
  }

  /** A write moves none of the heights a batch has scanned below its fence. */
  lemma MainKeepsScanned(w: World, step: Step)
    requires HeadsInv(w) && WorkerInv(w) && ScannedStands(w) && Enabled(w, step) && MainStep(step)
    ensures ScannedStands(Next(w, step))
  {
    hide HeadsInv, Acted, Enabled, MainStep, Shrunk, ScanOk, ProgressOk;
    MainShrinks(w, step);
    var w' := Next(w, step);
    if w'.worker.Scanning? && w'.core.batch.Some? {
      assert BatchShrunk(w.core.batch, w'.core.batch) by { ShrunkParts(w.core, Acted(w, step).core); }
      var b, b' := w.core.batch.value, w'.core.batch.value;
      forall h: u64 | b.start <= h <= b.upper && !StaleAt(b', h) ensures !StaleAt(b, h) && Get(w'.core.nums, h) == Get(w.core.nums, h) {
        assert Live(w'.core, h);
        TrustedUnmoved(w, step, h);
      }
    }
  }

  lemma QuietKeepsScanned(w: World, step: Step)
    requires ScannedStands(w) && Enabled(w, step) && QuietStep(step)
    ensures ScannedStands(Next(w, step))
  {
    hide VerifyHeight, Started, Stored, Published, Finished, Observing, Beginning, Finishing, Reloaded, ProducerContract, Messages;
    hide Reading, Listing, Getting, Putting, DoneHeight, WindowPutting, ScanHeight;
    match step
    case ReadHeight => ReadingStands(w);
    case ListHeight => ListingStands(w);
    case GetObject(key) => GettingStands(w, key);
    case PutObject(key, written) => PuttingStands(w, key, written);
    case HeightDone => DoneStands(w);
    case WindowPut(height, hash, key) => WindowStands(w, height, hash, key);
    case _ =>
  }

  lemma ReadingStands(w: World)
    requires ScannedStands(w) && w.worker.Scanning? && w.core.batch.Some? && w.worker.now.AtRead?
    ensures ScannedStands(Logging(Reading(w)))
  {
  }

  lemma ListingStands(w: World)
    requires ScannedStands(w) && w.worker.Scanning? && w.core.batch.Some? && w.worker.now.AtList?
    ensures ScannedStands(Logging(Listing(w)))
  {
  }

  lemma DoneStands(w: World)
    requires ScannedStands(w) && w.worker.Scanning? && w.worker.now.Working?
    ensures ScannedStands(Logging(DoneHeight(w)))
  {
  }

  lemma GettingStands(w: World, key: Hash)
    requires ScannedStands(w) && w.worker.Scanning? && w.core.batch.Some? && w.worker.now.Working?
    ensures ScannedStands(Logging(Getting(w, key)))
  {
  }

  lemma PuttingStands(w: World, key: Hash, written: bool)
    requires ScannedStands(w) && w.worker.Scanning? && w.core.batch.Some? && w.worker.now.Working?
    ensures ScannedStands(Logging(Putting(w, key, written)))
  {
    hide VerifyHeight;
  }

  lemma WindowStands(w: World, height: u64, hash: Hash, key: Hash)
    requires ScannedStands(w)
    ensures ScannedStands(Logging(WindowPutting(w, height, hash, key)))
  {
  }

  lemma CurrentStep(w: World, step: Step)
    requires Inv(w) && Current(w)
    ensures Current(Next(w, step))
  {
    hide HeadsInv, ScheduleInv, WorkerInv, CoverInv, PutsInv, RipeSince, MainStep, QuietStep;
    hide Started, Stored, Published, Finished, Reading, Listing, Getting, Putting, DoneHeight, WindowPutting, ProducerContract, Messages;
    hide BatchFinished, Covered;
    if Enabled(w, step) {
      if MainStep(step) {
        hide Acted, Enabled;
        MainKeepsCurrent(w, step);
        MainKeepsScanned(w, step);
      } else if QuietStep(step) {
        hide Acted, Enabled;
        OtherSteps(w, step);
        QuietKeepsScanned(w, step);
      } else if step.FinishBatch? {
        FinishSame(w.core, Checked(w.core.batch.value.start, w.worker.done), step.live, step.committed);
      } else {
        KindOf(step);
      }
    }
  }

  lemma {:induction false} RunKeepsCurrent(states: seq<World>, steps: seq<Step>, i: nat)
    requires IsRun(states, steps) && i <= |steps|
    ensures Inv(states[i]) && Current(states[i])
  {
    hide Inv, Current, Next, Initial;
    if i == 0 {
      InitialInv(states[0]);
      StartsCurrent(states[0]);
    } else {
      RunKeeps(states, steps, i);
      RunKeepsCurrent(states, steps, i - 1);
      CurrentStep(states[i - 1], steps[i - 1]);
      assert states[i - 1 + 1] == Next(states[i - 1], steps[i - 1]);
    }
  }

  lemma StartsCurrent(w: World)
    requires Initial(w)
    ensures Current(w)
  {
  }

  lemma ReachableCurrent(w: World)
    requires Reachable(w)
    ensures Inv(w) && Current(w)
  {
    hide Inv, Current, Next, Initial;
    var states, steps :| IsRun(states, steps) && states[|steps|] == w;
    RunKeepsCurrent(states, steps, |steps|);
  }

  // ---------------------------------------------------------------- batches

  /** If the worker may scan and something is mature, a batch has begun at the cursor, with the heights told and
      mature; if not, nothing has changed. */
  ghost predicate BeganWithMature(w: World, w': World)
    requires w.worker.Ready?
  {
    if CanScan(w.core) && w.core.schedule.mature then
      && w'.core == w.core.(batch := w'.core.batch) && w'.worker == Scanning([], AtRead) && w'.core.batch.Some?
      && w'.core.batch.value.start == w.core.state.value.nextHeight
      && forall h: u64 :: InBatch(w'.core, h) <==> w.core.state.value.nextHeight <= h <= w.worker.upper && IsMature(w.core, h)
    else w'.core == w.core && w'.worker == Sleeping
  }

  /** A batch begins exactly when something current is mature, and takes exactly the heights from the cursor
      on that the worker was told of and that are mature now, also after the generation has changed. */
  lemma BatchTakesTheMature(w: World)
    requires Reachable(w) && Enabled(w, BeginBatch)
    ensures BeganWithMature(w, Next(w, BeginBatch))
  {
    hide Inv, Current;
    ReachableCurrent(w);
    MatureBelowPublished(w);
    BeginFacts(w);
  }

  lemma BeginFacts(w: World)
    requires Inv(w) && Current(w) && Enabled(w, BeginBatch)
    requires w.core.schedule.mature ==>
          w.core.schedule.observedAt.Some? && w.core.state.Some? && w.core.schedule.matureHeight <= w.core.state.value.published.height
    ensures BeganWithMature(w, Next(w, BeginBatch))
  {
    hide HeadsInv, ScheduleInv, WorkerInv, CoverInv, PutsInv, RipeSince, ScannedStands, ProducerContract, Messages;
    hide Started, Stored, Published, Finished, Reading, Listing, Getting, Putting, DoneHeight, WindowPutting, Observing, Finishing, Reloaded;
  }

  /** How many of `n` scanned heights lie below the fence. */
  function BelowFence(b: Batch, n: nat): nat {
    if b.rewind.None? || b.start + n <= b.rewind.value then n else if b.rewind.value <= b.start then 0 else b.rewind.value - b.start
  }

  /** Below the fence a scanned height verifies, and above it none does. */
  lemma ScannedVerifies(w: World, i: nat)
    requires HeadsInv(w) && WorkerInv(w) && Current(w) && w.worker.Scanning? && w.core.batch.Some? && i < |w.worker.done|
    requires w.core.batch.value.start + |w.worker.done| <= MAX_U64
    ensures var b := w.core.batch.value;
            VerifyHeight(w.core, b.start + i, w.worker.done[i].hash).None? <==> i < BelowFence(b, |w.worker.done|)
  {
    hide ScanOk, ProgressOk;
    hide NonZeroHeads, AlignedHeads, CursorBelowHeads, LogFollows, FirstNotice, SentPrefix, StoredNotice, UnalignedHeads;
    var h: u64 := w.core.batch.value.start + i;
    if !StaleAt(w.core.batch.value, h) { assert Live(w.core, h); }
  }

  /** So the verified prefix is what was scanned below the fence. */
  lemma FencedPrefixVerifies(w: World, live: bool, committed: bool)
    requires Inv(w) && Current(w) && Enabled(w, FinishBatch(live, committed))
    ensures var b := w.core.batch.value;
            VerifiedPrefix(w.core, Checked(b.start, w.worker.done)) == BelowFence(b, |w.worker.done|)
  {
    hide HeadsInv, ScheduleInv, BatchInv, WorkerInv, CoverInv, PutsInv, Current, VerifiedPrefix, VerifyHeight;
    var b, done := w.core.batch.value, w.worker.done;
    var checked := Checked(b.start, done);
    var n, k := VerifiedPrefix(w.core, checked), BelowFence(b, |done|);
    if n < k {
      ScannedVerifies(w, n);
    } else if k < n {
      assert VerifyHeight(w.core, checked[k].height, checked[k].hash).None?;
      ScannedVerifies(w, k);
    }
  }

  /** The batch is over, and a saved checkpoint has moved the cursor from its start past exactly the scanned
      heights below the fence. */
  predicate KeptBelowFence(w: World, c: Core, saved: bool)
    requires w.worker.Scanning? && w.core.batch.Some?
  {
    var b := w.core.batch.value;
    var k := BelowFence(b, |w.worker.done|);
    && w.core.cursor.Some? && c.batch.None?
    && (if saved && k > 0 then
          && w.core.cursor.value.nextHeight == b.start && b.start + k <= MAX_U64
          && c.cursor == Some(w.core.cursor.value.(nextHeight := b.start + k))
        else c.cursor == w.core.cursor)
  }

  /** What was scanned below the fence survives: whatever overtook the batch, its checkpoint moves the cursor
      past exactly the scanned heights that no write since its beginning has reached. */
  lemma FencedPrefixSurvives(w: World, live: bool, committed: bool)
    requires Reachable(w) && Enabled(w, FinishBatch(live, committed))
    ensures KeptBelowFence(w, Next(w, FinishBatch(live, committed)).core, live && committed)
  {
    hide Inv, Current;
    ReachableCurrent(w);
    SurvivesFacts(w, live, committed);
  }

  lemma SurvivesFacts(w: World, live: bool, committed: bool)
    requires Inv(w) && Current(w) && Enabled(w, FinishBatch(live, committed))
    ensures KeptBelowFence(w, Next(w, FinishBatch(live, committed)).core, live && committed)
  {
    hide HeadsInv, ScheduleInv, BatchInv, CoverInv, PutsInv, WorkerInv, ScannedStands, ScheduleCurrent, VerifiedPrefix, ValidState,
         VerifyHeight, Covered;
    hide Started, Stored, Published, Finished, Reading, Listing, Getting, Putting, DoneHeight, WindowPutting, Observing, Beginning, Reloaded;
    StateIsCursor(w);
    FencedPrefixVerifies(w, live, committed);
    if live && committed { BatchAccepted(w); }
  }

  /** The batch in flight began at `start` and is not fenced below `top`. */
  predicate OpenBelow(c: Core, start: u64, top: int) {
    c.batch.Some? && c.batch.value.start == start && (c.batch.value.rewind.Some? ==> c.batch.value.rewind.value >= top)
  }

  lemma StoreStaysOpen(w: World, committed: bool, start: u64, top: int)
    requires OpenBelow(w.core, start, top) && w.core.state.Some? && Enabled(w, StoreBlocks(committed))
    requires !CutsBelow(w, Next(w, StoreBlocks(committed)), top - 1)
    ensures OpenBelow(Next(w, StoreBlocks(committed)).core, start, top)
  {
    hide Rewritten, ValidState, Rewinds, Advanced, Messages, ProducerContract;
  }

  lemma StaysOpen(w: World, step: Step, start: u64, top: int)
    requires Inv(w) && BatchCurrent(w.core) && OpenBelow(w.core, start, top) && Next(w, step).core.batch.Some?
    requires step.StoreBlocks? ==> !CutsBelow(w, Next(w, step), top - 1)
    ensures OpenBelow(Next(w, step).core, start, top)
  {
    hide HeadsInv, ScheduleInv, WorkerInv, CoverInv, PutsInv, RipeSince, CutsBelow, MainStep;
    hide Started, Stored, Published, Finished, BatchFinished, VerifyHeight, Covered, Messages, ProducerContract;
    if Enabled(w, step) {
      if step.StoreBlocks? {
        StoreStaysOpen(w, step.committed, start, top);
      } else if MainStep(step) {
        AlignedMain(w, step);
      } else if QuietStep(step) {
        OtherSteps(w, step);
      } else if step.FinishBatch? {
        FinishSame(w.core, Checked(w.core.batch.value.start, w.worker.done), step.live, step.committed);
      } else {
        KindOf(step);
      }
    }
  }

  lemma BegunOpen(w: World, step: Step, top: int)
    requires Inv(w) && w.core.batch.None? && Next(w, step).core.batch.Some? && w.core.state.Some?
    ensures OpenBelow(Next(w, step).core, w.core.state.value.nextHeight, top)
  {
    hide HeadsInv, ScheduleInv, WorkerInv, CoverInv, PutsInv, RipeSince, MainStep;
    hide Started, Stored, Published, Finished, BatchFinished, VerifyHeight, Covered, Messages, ProducerContract;
    if Enabled(w, step) {
      if MainStep(step) {
        MainShrinks(w, step);
      } else {
        KindOf(step);
        if QuietStep(step) { OtherSteps(w, step); }
      }
    }
  }

  lemma {:induction false} OpenSince(states: seq<World>, steps: seq<Step>, j: nat, i: nat, top: int)
    requires IsRun(states, steps) && j < i <= |steps| && states[j].core.batch.None? && states[j].core.state.Some?
    requires forall t :: j < t <= i ==> states[t].core.batch.Some?
    requires forall t :: j < t < i && steps[t].StoreBlocks? ==> !CutsBelow(states[t], states[t + 1], top - 1)
    ensures OpenBelow(states[i].core, states[j].core.state.value.nextHeight, top)
  {
    hide Inv, Next, OpenBelow, CutsBelow, ScannedStands, BatchCurrent, ScheduleCurrent;
    var w, step := states[i - 1], steps[i - 1];
    RunKeepsCurrent(states, steps, i - 1);
    assert states[i - 1 + 1] == Next(w, step);
    if i - 1 == j {
      BegunOpen(w, step, top);
    } else {
      OpenSince(states, steps, j, i - 1, top);
      StaysOpen(w, step, states[j].core.state.value.nextHeight, top);
    }
  }

  /** Over a run: if a batch began after state `j`, and no write since has raised the generation with a first
      new block among the first `m` heights it scanned, then its checkpoint passes all these heights. */
  lemma SurvivingPrefixIsCheckpointed(states: seq<World>, steps: seq<Step>, j: nat, i: nat, m: nat)
    requires IsRun(states, steps) && j < i < |steps| && states[j].core.batch.None? && states[j].core.state.Some?
    requires forall t :: j < t <= i ==> states[t].core.batch.Some?
    requires steps[i] == FinishBatch(true, true) && Enabled(states[i], steps[i]) && 0 < m <= |states[i].worker.done|
    requires forall t :: j < t < i && steps[t].StoreBlocks? ==>
          !CutsBelow(states[t], states[t + 1], states[j].core.state.value.nextHeight + m - 1)
    ensures states[i + 1].core.cursor.Some?
    ensures states[i + 1].core.cursor.value.nextHeight >= states[j].core.state.value.nextHeight + m
  {
    var start := states[j].core.state.value.nextHeight;
    hide Inv, Current, Next, CutsBelow, Enabled;
    RunKeepsCurrent(states, steps, i);
    OpenSince(states, steps, j, i, start + m);
    SurvivesFacts(states[i], true, true);
    assert states[i + 1] == Next(states[i], steps[i]);
  }
}
