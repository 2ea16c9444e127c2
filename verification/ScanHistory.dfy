/** Every step keeps the invariants that speak of earlier states: what was observed, what the batch
    in flight has read, which heights are covered, and what scanners wrote. */
module ScanHistory {
  import opened Types
  import opened CanonicalIndex
  import opened ScanCore
  import opened ScanMachine
  import opened ScanInvariants
  import opened ScanHeads

  // ---------------------------------------------------------------- a longer log says the same

  lemma RipeGrows(log: seq<Snap>, s: Snap, from: nat, h: u64)
    requires RipeSince(log, from, h) && Get(s.nums, h) == Get(log[|log| - 1].nums, h)
    ensures RipeSince(log + [s], from, h)
  {
    var log' := log + [s];
    forall t | from <= t < |log'| ensures Get(log'[t].nums, h) == Get(log'[from].nums, h) {
      if t == |log| { assert log'[t] == s; } else { assert log'[t] == log[t]; }
    }
  }

  /** What a step does to a log: one more entry, with the index `nums`. */
  ghost predicate GrownBy(w: World, w': World) {
    Logged(w) && w'.log == w.log + [SnapOf(w')]
  }

  lemma RipeKept(w: World, w': World, from: nat, h: u64)
    requires GrownBy(w, w') && RipeSince(w.log, from, h) && Get(w'.core.nums, h) == Get(w.core.nums, h)
    ensures RipeSince(w'.log, from, h)
  {
    RipeGrows(w.log, SnapOf(w'), from, h);
  }

  lemma ScanKept(w: World, w': World, begun: nat, height: u64, scan: HeightScan)
    requires GrownBy(w, w') && ScanOk(w.log, begun, height, scan)
    ensures ScanOk(w'.log, begun, height, scan)
  {
    assert w'.log[scan.listedAt] == w.log[scan.listedAt];
    forall k | k in scan.listed ensures SettledOk(w'.log, scan.listedAt, height, scan.hash, k, scan.settled[k]) {
      assert SettledOk(w.log, scan.listedAt, height, scan.hash, k, scan.settled[k]);
      assert w'.log[scan.settled[k]] == w.log[scan.settled[k]];
    }
  }

  // ---------------------------------------------------------------- trust only shrinks

  predicate ScheduleShrunk(s: Schedule, s': Schedule) {
    || (s'.observedAt.None? && !s'.mature)
    || (&& s'.observedAt == s.observedAt && s'.mature == s.mature
        && s'.observedHeight <= s.observedHeight && s'.matureHeight <= s.matureHeight
        && (s.matureHeight <= s.observedHeight ==> s'.matureHeight <= s'.observedHeight))
  }

  predicate BatchShrunk(b: Option<Batch>, b': Option<Batch>) {
    || b'.None?
    || (&& b.Some? && b'.value.start == b.value.start && b'.value.upper == b.value.upper
        && (b.value.rewind.Some? ==> b'.value.rewind.Some? && b'.value.rewind.value <= b.value.rewind.value))
  }

  /** Between two states of one process: observations and batch lose heights but gain none, the
      generation never falls, and while it stands still the schedule does too. */
  predicate Shrunk(c: Core, c': Core) {
    && ScheduleShrunk(c.schedule, c'.schedule) && BatchShrunk(c.batch, c'.batch)
    && (c.state.Some? ==>
          && c'.state.Some? && c.state.value.generation <= c'.state.value.generation
          && (c.state.value.generation == c'.state.value.generation ==> c'.schedule == c.schedule))
    && (c'.batch.None? <==> c.batch.None?)
  }

  lemma ShrunkTrans(c: Core, c': Core, c'': Core)
    requires Shrunk(c, c') && Shrunk(c', c'')
    ensures Shrunk(c, c'')
  {
  }

  lemma ShrunkSame(c: Core, c': Core)
    requires c'.schedule == c.schedule && c'.batch == c.batch && c'.state == c.state
    ensures Shrunk(c, c')
  {
  }

  lemma WrittenShrinks(c: Core, blocks: seq<Block>, ok: bool)
    requires |blocks| > 0
    ensures Shrunk(c, Written(c, blocks, ok).0)
  {
    hide Rewritten, ValidState, Rewinds, Lowered, RunTop;
  }

  lemma PreparedShrinks(c: Core, n: Notice, position: Option<Position>, ok: bool)
    requires |n.news| > 0
    ensures Shrunk(c, Prepared(c, n, position, ok).0)
  {
    hide OffsetGap, ReplayIndexed, ValidState, NoticeExtends;
  }

  lemma FinishedShrinks(c: Core, position: Option<Position>, ok: bool)
    ensures Shrunk(c, Finished(c, position, ok).0)
    ensures var c' := Finished(c, position, ok).0; c'.nums == c.nums && c'.latest == c.latest
  {
    hide ValidState;
  }

  predicate MainStep(step: Step) {
    step.Start? || step.StoreBlocks? || step.Publish? || step.GiveUp? || step.Complete?
  }

  /** The fields a main-flow step leaves alone. */
  predicate WorkerSideSame(w: World, w': World) {
    && w'.worker == w.worker && w'.objects == w.objects && w'.clock == w.clock && w'.interval == w.interval && w'.log == w.log
    && w'.obsStep == w.obsStep && w'.matureStep == w.matureStep && w'.ripe == w.ripe && w'.begun == w.begun
    && w'.cover == w.cover && w'.puts == w.puts
  }

  lemma StartShrinks(w: World, n: Notice, position: Option<Position>, saved: bool, aligned: bool, finished: bool)
    ensures var w1 := Started(w, n, position, saved, aligned, finished);
            Shrunk(w.core, w1.core) && WorkerSideSame(w, w1) && w1.core.nums == w.core.nums
  {
    hide Messages, Prepared, Finished, MsgCheck, AlreadyProcessed, Shrunk;
    ShrunkSame(w.core, w.core);
    if |n.news| > 0 {
      var p := Prepared(w.core, n, position, saved);
      PreparedShrinks(w.core, n, position, saved);
      PreparedKeeps(w.core, n, position, saved);
      FinishedShrinks(p.0, position, finished);
      ShrunkTrans(w.core, p.0, Finished(p.0, position, finished).0);
    }
  }

  lemma MainShrinks(w: World, step: Step)
    requires Enabled(w, step) && MainStep(step)
    ensures Shrunk(w.core, Acted(w, step).core) && WorkerSideSame(w, Acted(w, step))
    ensures !step.StoreBlocks? ==> Acted(w, step).core.nums == w.core.nums
  {
    hide Messages, Started, Finished, Written, ProducerContract, ValidPosition, Shrunk;
    match step
    case Start(n, position, saved, aligned, finished) => StartShrinks(w, n, position, saved, aligned, finished);
    case StoreBlocks(committed) => WrittenShrinks(w.core, w.main.notice.news, committed);
    case Publish(written, elsewhere) => ShrunkSame(w.core, Published(w, written, elsewhere).core);
    case GiveUp => ShrunkSame(w.core, w.core);
    case Complete(finished) => FinishedShrinks(w.core, w.main.position, finished);
  }

  /** The main flow moves no mapping that is still trusted afterwards. */
  lemma TrustedUnmoved(w: World, step: Step, h: u64)
    requires HeadsInv(w) && Enabled(w, step) && MainStep(step) && Live(Acted(w, step).core, h)
    ensures Get(Acted(w, step).core.nums, h) == Get(w.core.nums, h)
  {
    hide Messages, ValidState, Affected, ValidPosition, OffsetGap;
    MainShrinks(w, step);
    if step.StoreBlocks? && Written(w.core, w.main.notice.news, step.committed).1 {
      ContractNews(w.main.notice);
      LiveNeedsState(w, step.committed, h);
      HeadsStoreLive(w, h);
      RewrittenAt(w.core.nums, w.main.notice.news, h);
    }
  }

  lemma LiveNeedsState(w: World, committed: bool, h: u64)
    requires HeadsInv(w) && Enabled(w, StoreBlocks(committed)) && Live(Stored(w, committed).core, h)
    ensures w.core.state.Some?
  {
    WrittenShrinks(w.core, w.main.notice.news, committed);
    assert Live(w.core, h);
  }

  // ---------------------------------------------------------------- main flow

  lemma MainKeepsSchedule(w: World, step: Step)
    requires Logged(w) && HeadsInv(w) && ScheduleInv(w) && Enabled(w, step) && MainStep(step)
    ensures ScheduleInv(Next(w, step))
  {
    hide HeadsInv, Acted, Enabled, MainStep, RipeSince, Shrunk;
    MainShrinks(w, step);
    var w1, w' := Acted(w, step), Next(w, step);
    assert ScheduleShrunk(w.core.schedule, w1.core.schedule) by { ShrunkParts(w.core, w1.core); }
    var s' := w1.core.schedule;
    forall h: u64 | s'.observedAt.Some? && h <= s'.observedHeight
      ensures RipeSince(w'.log, w.obsStep, h)
      ensures s'.mature && h <= s'.matureHeight ==> RipeSince(w'.log, w.matureStep, h)
    {
      assert Live(w1.core, h);
      TrustedUnmoved(w, step, h);
      RipeKept(w, w', w.obsStep, h);
      if s'.mature && h <= s'.matureHeight { RipeKept(w, w', w.matureStep, h); }
    }
  }

  lemma ShrunkParts(c: Core, c': Core)
    requires Shrunk(c, c')
    ensures ScheduleShrunk(c.schedule, c'.schedule) && BatchShrunk(c.batch, c'.batch)
  {
  }

  lemma MainKeepsBatch(w: World, step: Step)
    requires Logged(w) && HeadsInv(w) && BatchInv(w) && Enabled(w, step) && MainStep(step)
    ensures BatchInv(Next(w, step))
  {
    hide HeadsInv, Acted, Enabled, MainStep, RipeSince;
    MainShrinks(w, step);
    var w1, w' := Acted(w, step), Next(w, step);
    if w1.core.batch.Some? {
      var b := w1.core.batch.value;
      forall h: u64 | b.start <= h <= b.upper && !StaleAt(b, h)
        ensures RipeSince(w'.log, w.ripe, h)
      {
        assert Live(w1.core, h);
        TrustedUnmoved(w, step, h);
        RipeKept(w, w', w.ripe, h);
      }
    }
  }

  lemma MainKeepsWorker(w: World, step: Step)
    requires Logged(w) && WorkerInv(w) && Enabled(w, step) && MainStep(step)
    ensures WorkerInv(Next(w, step))
  {
    hide Acted, Enabled, MainStep, ScanOk, ProgressOk;
    MainShrinks(w, step);
    WorkerGrows(w, Next(w, step));
  }

  /** The worker's records stay true as the log grows. */
  lemma WorkerGrows(w: World, w': World)
    requires Logged(w) && WorkerInv(w) && GrownBy(w, w')
    requires w'.worker == w.worker && w'.begun == w.begun
    requires w'.core.batch.Some? ==>
          w.core.batch.Some? && w'.core.batch.value.start == w.core.batch.value.start && w'.core.batch.value.upper == w.core.batch.value.upper
    ensures WorkerInv(w')
  {
    hide ScanOk, ProgressOk;
    if w'.worker.Scanning? && w'.core.batch.Some? {
      var start := w.core.batch.value.start;
      forall i | 0 <= i < |w.worker.done|
        ensures ScanOk(w'.log, w.begun, start + i, w.worker.done[i])
      {
        ScanKept(w, w', w.begun, start + i, w.worker.done[i]);
      }
      if !w.worker.now.AtRead? { ProgressKept(w, w', start + |w.worker.done|, w.worker.now); }
    }
  }

  lemma ProgressKept(w: World, w': World, height: u64, p: Progress)
    requires GrownBy(w, w') && ProgressOk(w.log, w.begun, height, p)
    ensures ProgressOk(w'.log, w.begun, height, p)
  {
    if p.Working? {
      assert w'.log[p.listedAt] == w.log[p.listedAt];
      forall k | k in p.listed && k !in p.todo && k !in p.plan
        ensures k in p.settled && SettledOk(w'.log, p.listedAt, height, p.hash, k, p.settled[k])
      {
        assert SettledOk(w.log, p.listedAt, height, p.hash, k, p.settled[k]);
        assert w'.log[p.settled[k]] == w.log[p.settled[k]];
      }
    }
  }

  // ---------------------------------------------------------------- covered heights

  /** The range a cursor claims: none, or part of the range an earlier cursor claimed. */
  predicate ClaimsLess(s: Option<ForkScanState>, s': Option<ForkScanState>) {
    s'.Some? ==>
      || s'.value.nextHeight == s'.value.baseline.height + 1
      || (s.Some? && s'.value.baseline == s.value.baseline && s'.value.nextHeight <= s.value.nextHeight)
  }

  lemma ReconciledClaims(c: Core, n: Notice, a: Anchor, ok: bool)
    requires c.state.Some? && c.state == c.cursor && |n.news| > 0
    ensures ClaimsLess(c.cursor, Reconciled(c, n, a, ok).0.cursor)
    ensures var c' := Reconciled(c, n, a, ok).0; c'.state == c'.cursor
  {
    hide ReplayIndexed, ValidState;
  }

  lemma PreparedClaims(c: Core, n: Notice, position: Option<Position>, ok: bool)
    requires |n.news| > 0 && c.state == c.cursor
    ensures ClaimsLess(c.cursor, Prepared(c, n, position, ok).0.cursor)
    ensures var c' := Prepared(c, n, position, ok).0; c'.state == c'.cursor
  {
    hide OffsetGap, ValidState, NoticeExtends, Reconciled;
    if c.state.Some? && c.anchor.Some? { ReconciledClaims(c, n, c.anchor.value, ok); }
  }

  lemma FinishedClaims(c: Core, position: Option<Position>, ok: bool)
    requires c.state == c.cursor
    ensures ClaimsLess(c.cursor, Finished(c, position, ok).0.cursor)
  {
    hide ValidState;
  }

  lemma ClaimsTrans(s: Option<ForkScanState>, s': Option<ForkScanState>, s'': Option<ForkScanState>)
    requires ClaimsLess(s, s') && ClaimsLess(s', s'')
    ensures s''.Some? ==>
              || s''.value.nextHeight <= s''.value.baseline.height + 1
              || (s.Some? && s''.value.baseline == s.value.baseline && s''.value.nextHeight <= s.value.nextHeight)
  {
  }

  lemma StartClaims(w: World, n: Notice, position: Option<Position>, saved: bool, aligned: bool, finished: bool)
    requires w.core.state == w.core.cursor
    ensures var s, s' := w.core.cursor, Started(w, n, position, saved, aligned, finished).core.cursor;
            s'.Some? ==>
              || s'.value.nextHeight <= s'.value.baseline.height + 1
              || (s.Some? && s'.value.baseline == s.value.baseline && s'.value.nextHeight <= s.value.nextHeight)
  {
    hide Messages, Prepared, Finished, MsgCheck, AlreadyProcessed;
    if |n.news| > 0 {
      var p := Prepared(w.core, n, position, saved);
      PreparedClaims(w.core, n, position, saved);
      FinishedClaims(p.0, position, finished);
      ClaimsTrans(w.core.cursor, p.0.cursor, Finished(p.0, position, finished).0.cursor);
    }
  }

  /** A main-flow step claims no height the cursor did not claim, and moves no claimed mapping. */
  lemma MainClaims(w: World, step: Step, x: u64)
    requires HeadsInv(w) && Enabled(w, step) && MainStep(step)
    requires var s' := Acted(w, step).core.cursor; s'.Some? && s'.value.baseline.height < x < s'.value.nextHeight
    ensures w.core.cursor.Some? && w.core.cursor.value.baseline.height < x < w.core.cursor.value.nextHeight
    ensures x in w.core.nums ==> Get(Acted(w, step).core.nums, x) == Get(w.core.nums, x)
  {
    hide Messages, Started, Stored, Finished, ProducerContract, ValidPosition, ValidState, OffsetGap, Live, LogFollows,
         SentPrefix, FirstNotice, UnalignedHeads, StoredNotice, LiveBelowHeads;
    MainShrinks(w, step);
    match step
    case Start(n, position, saved, aligned, finished) => StartClaims(w, n, position, saved, aligned, finished);
    case StoreBlocks(committed) => StoreClaims(w, committed, x);
    case Publish(_, _) =>
    case GiveUp =>
    case Complete(finished) => FinishedClaims(w.core, w.main.position, finished);
  }

  lemma StoreClaims(w: World, committed: bool, x: u64)
    requires HeadsInv(w) && Enabled(w, StoreBlocks(committed))
    requires var s' := Stored(w, committed).core.cursor; s'.Some? && s'.value.baseline.height < x < s'.value.nextHeight
    ensures w.core.cursor.Some? && w.core.cursor.value.baseline.height < x < w.core.cursor.value.nextHeight
    ensures x in w.core.nums ==> Get(Stored(w, committed).core.nums, x) == Get(w.core.nums, x)
  {
    hide Messages, ValidPosition, OffsetGap, Live, Advanced, Rewritten, Rewinds;
    var news := w.main.notice.news;
    ContractNews(w.main.notice);
    if Written(w.core, news, committed).1 && w.core.state.Some? {
      var s := w.core.state.value;
      WrittenFacts(w.core, news);
      WrittenBelow(w.core, news);
      AtomicRewind(s, w.core.nums, news);
      assert !Affected(s, w.core.nums, news, x);
    }
  }

  lemma CoverKept(w: World, w': World, x: u64, c: Cover)
    requires GrownBy(w, w') && CoveredBy(w, x, c) && w'.interval == w.interval
    requires Get(w'.core.nums, x) == Get(w.core.nums, x)
    ensures CoveredBy(w', x, c)
  {
    hide ScanOk, Steady;
    RipeKept(w, w', c.ripe, x);
    ScanKept(w, w', c.begun, x, c.scan);
    assert w'.log[c.ripe] == w.log[c.ripe] && w'.log[c.begun] == w.log[c.begun];
  }

  lemma MainKeepsCover(w: World, step: Step)
    requires Logged(w) && HeadsInv(w) && CoverInv(w) && Enabled(w, step) && MainStep(step)
    ensures CoverInv(Next(w, step))
  {
    hide HeadsInv, Acted, Enabled, MainStep, CoveredBy;
    MainShrinks(w, step);
    var w' := Next(w, step);
    if w'.core.cursor.Some? {
      forall x: u64 | w'.core.cursor.value.baseline.height < x < w'.core.cursor.value.nextHeight
        ensures x in w'.cover && CoveredBy(w', x, w'.cover[x])
      {
        MainClaims(w, step, x);
        assert x in w.core.nums by { CoveredIndexed(w, x, w.cover[x]); }
        CoverKept(w, w', x, w.cover[x]);
      }
    }
  }

  lemma CoveredIndexed(w: World, x: u64, c: Cover)
    requires CoveredBy(w, x, c)
    ensures x in w.core.nums
  {
  }

  // ---------------------------------------------------------------- object writes

  lemma PutsGrow(w: World, w': World)
    requires PutsInv(w) && GrownBy(w, w') && w'.puts == w.puts
    ensures PutsInv(w')
  {
    forall i | 0 <= i < |w'.puts| ensures PutOk(w', w'.puts[i]) {
      assert PutOk(w, w.puts[i]);
      assert w'.log[w.puts[i].step] == w.log[w.puts[i].step];
    }
  }

  lemma MainKeeps(w: World, step: Step)
    requires Inv(w) && Enabled(w, step) && MainStep(step)
    ensures Inv(Next(w, step))
  {
    hide HeadsInv, ScheduleInv, BatchInv, WorkerInv, CoverInv, PutsInv, Acted, Enabled, MainStep;
    MainShrinks(w, step);
    HeadsStep(w, step);
    HeadsDepends(Acted(w, step), Next(w, step));
    MainKeepsSchedule(w, step);
    MainKeepsBatch(w, step);
    MainKeepsWorker(w, step);
    MainKeepsCover(w, step);
    PutsGrow(w, Next(w, step));
  }

  // ---------------------------------------------------------------- steps outside the main flow

  /** A step that leaves index and cursor alone keeps every covered height. */
  lemma CoverStays(w: World, w': World)
    requires Logged(w) && CoverInv(w) && GrownBy(w, w') && w'.interval == w.interval
    requires w'.core.nums == w.core.nums && w'.core.cursor == w.core.cursor && w'.cover == w.cover
    ensures CoverInv(w')
  {
    hide CoveredBy;
    if w.core.cursor.Some? {
      forall x: u64 | w.core.cursor.value.baseline.height < x < w.core.cursor.value.nextHeight
        ensures CoveredBy(w', x, w'.cover[x])
      {
        CoverKept(w, w', x, w.cover[x]);
      }
    }
  }

  /** Index and schedule alone, time only forward: observations keep. */
  lemma ScheduleStays(w: World, w': World)
    requires Logged(w) && ScheduleInv(w) && GrownBy(w, w') && w'.interval == w.interval && w'.clock >= w.clock
    requires w'.core.nums == w.core.nums && w'.obsStep == w.obsStep && w'.matureStep == w.matureStep
    requires w'.core.schedule == w.core.schedule
    ensures ScheduleInv(w')
  {
    hide RipeSince;
    var s := w.core.schedule;
    forall h: u64 | s.observedAt.Some? && h <= s.observedHeight
      ensures RipeSince(w'.log, w.obsStep, h)
      ensures s.mature && h <= s.matureHeight ==> RipeSince(w'.log, w.matureStep, h)
    {
      RipeKept(w, w', w.obsStep, h);
      if s.mature && h <= s.matureHeight { RipeKept(w, w', w.matureStep, h); }
    }
  }

  lemma BatchStays(w: World, w': World)
    requires Logged(w) && BatchInv(w) && GrownBy(w, w') && w'.interval == w.interval
    requires w'.core == w.core && w'.ripe == w.ripe && w'.begun == w.begun
    requires w'.worker == w.worker || (w.worker.Scanning? && w'.worker.Scanning?)
    ensures BatchInv(w')
  {
    hide RipeSince;
    if w.core.batch.Some? {
      var b := w.core.batch.value;
      forall h: u64 | b.start <= h <= b.upper && !StaleAt(b, h) ensures RipeSince(w'.log, w.ripe, h) {
        RipeKept(w, w', w.ripe, h);
      }
    }
  }

  predicate QuietStep(step: Step) {
    step.OtherPut? || step.Tick? || step.ReadHeight? || step.ListHeight? || step.GetObject? || step.PutObject?
    || step.HeightDone? || step.WindowPut?
  }

  lemma QuietChanges(w: World, step: Step)
    requires Enabled(w, step) && QuietStep(step)
    ensures var w1 := Acted(w, step);
            && w1.core == w.core && w1.log == w.log && w1.interval == w.interval && w1.clock >= w.clock
            && w1.obsStep == w.obsStep && w1.matureStep == w.matureStep && w1.ripe == w.ripe && w1.begun == w.begun && w1.cover == w.cover
            && (w1.worker == w.worker || (w.worker.Scanning? && w1.worker.Scanning?))
            && (step.OtherPut? || step.Tick? || step.WindowPut? ==> w1.worker == w.worker)
            && (!step.PutObject? && !step.WindowPut? ==> w1.puts == w.puts)
  {
    hide VerifyHeight, Started, Stored, Published, Finished, Observing, Beginning, Finishing, Reloaded, ProducerContract, ScanHeight;
  }

  /** New progress at the height in hand, or that height finished. */
  lemma WorkerMoves(w: World, w': World)
    requires Logged(w) && WorkerInv(w) && GrownBy(w, w') && w.worker.Scanning? && w.core.batch.Some?
    requires w'.worker.Scanning? && w'.begun == w.begun && w'.core.batch == w.core.batch
    requires var h, b := ScanHeight(w), w.core.batch.value;
             || (w'.worker.done == w.worker.done && h <= b.upper && h < MAX_U64 && ProgressOk(w'.log, w.begun, h, w'.worker.now))
             || (&& w'.worker.now.AtRead? && |w'.worker.done| == |w.worker.done| + 1 && w'.worker.done[..|w.worker.done|] == w.worker.done
                 && h <= b.upper && h < MAX_U64 && ScanOk(w'.log, w.begun, h, w'.worker.done[|w.worker.done|]))
    ensures WorkerInv(w')
  {
    hide ScanOk, ProgressOk;
    var start, done, done' := w.core.batch.value.start, w.worker.done, w'.worker.done;
    forall i | 0 <= i < |done'| ensures ScanOk(w'.log, w.begun, start + i, done'[i]) {
      if i < |done| {
        assert done'[i] == done'[..|done|][i];
        ScanKept(w, w', w.begun, start + i, done[i]);
      }
    }
  }

  lemma WorkerReads(w: World)
    requires Logged(w) && WorkerInv(w) && w.worker.Scanning? && w.core.batch.Some? && w.worker.now.AtRead?
    ensures WorkerInv(Logging(Reading(w)))
  {
    hide ScanOk;
    var w' := Logging(Reading(w));
    if w'.worker == w.worker { WorkerGrows(w, w'); } else { WorkerMoves(w, w'); }
  }

  lemma WorkerLists(w: World)
    requires Logged(w) && WorkerInv(w) && w.begun < |w.log| && w.worker.Scanning? && w.core.batch.Some? && w.worker.now.AtList?
    ensures WorkerInv(Logging(Listing(w)))
  {
    hide ScanOk;
    var w' := Logging(Listing(w));
    if w'.worker == w.worker {
      WorkerGrows(w, w');
    } else {
      assert w'.log[|w.log|] == SnapOf(w') && SnapOf(w').objects == w.objects;
      WorkerMoves(w, w');
    }
  }

  /** A right mark settles its object at this very step. */
  lemma WorkerGets(w: World, key: Hash)
    requires Logged(w) && WorkerInv(w) && w.begun < |w.log| && w.worker.Scanning? && w.core.batch.Some? && w.worker.now.Working?
    ensures WorkerInv(Logging(Getting(w, key)))
  {
    hide ScanOk;
    var w', p := Logging(Getting(w, key)), w.worker.now;
    if w'.worker == w.worker {
      WorkerGrows(w, w');
    } else {
      var h := ScanHeight(w);
      ProgressKept(w, w', h, p);
      assert w'.log[|w.log|] == SnapOf(w') && SnapOf(w').objects == w.objects;
      WorkerMoves(w, w');
    }
  }

  lemma WorkerEndsHeight(w: World)
    requires Logged(w) && WorkerInv(w) && w.worker.Scanning? && w.core.batch.Some? && w.worker.now.Working?
    ensures WorkerInv(Logging(DoneHeight(w)))
  {
    var w', p := Logging(DoneHeight(w)), w.worker.now;
    if w'.worker == w.worker {
      WorkerGrows(w, w');
    } else {
      ProgressKept(w, w', ScanHeight(w), p);
      WorkerMoves(w, w');
    }
  }

  /** A verified write settles its object, with the mark the index asks for at that instant. */
  lemma WorkerPuts(w: World, key: Hash, written: bool)
    requires Logged(w) && WorkerInv(w) && PutsInv(w) && w.begun < |w.log| && w.worker.Scanning? && w.core.batch.Some? &&
        w.worker.now.Working?
    ensures WorkerInv(Logging(Putting(w, key, written))) && PutsInv(Logging(Putting(w, key, written)))
  {
    hide ScanOk;
    var w', p := Logging(Putting(w, key, written)), w.worker.now;
    if w'.worker == w.worker {
      WorkerGrows(w, w');
      PutsGrow(w, w');
    } else {
      var h := ScanHeight(w);
      ProgressKept(w, w', h, p);
      assert w'.log[|w.log|] == SnapOf(w');
      WorkerMoves(w, w');
      NewPut(w, w');
    }
  }

  lemma NewPut(w: World, w': World)
    requires Logged(w) && PutsInv(w) && GrownBy(w, w')
    requires |w'.puts| == |w.puts| + 1 && w'.puts[..|w.puts|] == w.puts && PutOk(w', w'.puts[|w.puts|])
    ensures PutsInv(w')
  {
    PutsGrow(w, w'.(puts := w.puts));
    forall i | 0 <= i < |w'.puts| ensures PutOk(w', w'.puts[i]) {
      if i < |w.puts| {
        assert w'.puts[i] == w'.puts[..|w.puts|][i];
        assert PutOk(w'.(puts := w.puts), w.puts[i]);
      }
    }
  }

  lemma WindowPuts(w: World, height: u64, hash: Hash, key: Hash)
    requires Logged(w) && PutsInv(w)
    ensures PutsInv(Logging(WindowPutting(w, height, hash, key)))
  {
    var w' := Logging(WindowPutting(w, height, hash, key));
    if w'.puts == w.puts {
      PutsGrow(w, w');
    } else {
      assert w'.log[|w.log|] == SnapOf(w');
      NewPut(w, w');
    }
  }

  lemma QuietKeeps(w: World, step: Step)
    requires Inv(w) && Enabled(w, step) && QuietStep(step)
    ensures Inv(Next(w, step))
  {
    hide HeadsInv, ScheduleInv, BatchInv, WorkerInv, CoverInv, PutsInv, Acted, Enabled, QuietStep;
    var w' := Next(w, step);
    QuietChanges(w, step);
    HeadsStep(w, step);
    HeadsDepends(Acted(w, step), w');
    ScheduleStays(w, w');
    BatchStays(w, w');
    CoverStays(w, w');
    QuietWorker(w, step);
  }

  lemma QuietWorker(w: World, step: Step)
    requires Logged(w) && WorkerInv(w) && BatchInv(w) && PutsInv(w) && Enabled(w, step) && QuietStep(step)
    ensures WorkerInv(Next(w, step)) && PutsInv(Next(w, step))
  {
    hide WorkerInv, PutsInv, Reading, Listing, Getting, Putting, DoneHeight, WindowPutting, RipeSince, Started, Stored, Published, Finished,
         Observing, Beginning, Finishing, Reloaded, ProducerContract, Messages;
    var w' := Next(w, step);
    QuietChanges(w, step);
    match step
    case ReadHeight => WorkerReads(w); PutsGrow(w, w');
    case ListHeight => WorkerLists(w); PutsGrow(w, w');
    case GetObject(key) => WorkerGets(w, key); PutsGrow(w, w');
    case HeightDone => WorkerEndsHeight(w); PutsGrow(w, w');
    case PutObject(key, written) => WorkerPuts(w, key, written);
    case WindowPut(height, hash, key) => WindowPuts(w, height, hash, key); WorkerGrows(w, w');
    case OtherPut(_, _, _) => PutsGrow(w, w'); WorkerGrows(w, w');
    case Tick(_) => PutsGrow(w, w'); WorkerGrows(w, w');
  }

  // ---------------------------------------------------------------- observing, beginning and finishing a batch

  /** A new observation records the published head of this very step; a matured one is at least an
      interval old. */
  lemma ObserveKeepsSchedule(w: World)
    requires Logged(w) && HeadsInv(w) && ScheduleInv(w) && Enabled(w, Observe)
    ensures ScheduleInv(Next(w, Observe))
  {
    hide HeadsInv, Steady;
    var w' := Next(w, Observe);
    if CanScan(w.core) {
      var s, s', here := w.core.schedule, w'.core.schedule, |w.log|;
      var generation, head := w.core.state.value.generation, w.core.state.value.published.height;
      forall h: u64 | h <= head ensures RipeSince(w'.log, here, h) { RipeNow(w, w', h); }
      if !TakesObservation(s, w.clock, w.interval, generation) || Matures(s, w.clock, w.interval, generation) {
        forall h: u64 | s.observedAt.Some? && h <= s.observedHeight
          ensures RipeSince(w'.log, w.obsStep, h)
          ensures s.mature && h <= s.matureHeight ==> RipeSince(w'.log, w.matureStep, h)
        {
          RipeKept(w, w', w.obsStep, h);
          if s.mature && h <= s.matureHeight { RipeKept(w, w', w.matureStep, h); }
        }
      }
      if Matures(s, w.clock, w.interval, generation) { ObservedBelowHead(w); }
    } else {
      ScheduleStays(w, w');
    }
  }

  lemma ObservedBelowHead(w: World)
    requires HeadsInv(w) && CanScan(w.core) && w.core.schedule.observedAt.Some?
    ensures w.core.schedule.observedHeight <= w.core.state.value.published.height
  {
    assert Live(w.core, w.core.schedule.observedHeight);
  }

  /** The state being recorded counts as its own past. */
  lemma RipeNow(w: World, w': World, h: u64)
    requires GrownBy(w, w') && w'.core.state.Some? && h <= w'.core.state.value.published.height
    ensures RipeSince(w'.log, |w.log|, h)
  {
    assert w'.log[|w.log|] == SnapOf(w');
  }

  lemma ObserveKeeps(w: World)
    requires Inv(w) && Enabled(w, Observe)
    ensures Inv(Next(w, Observe))
  {
    hide HeadsInv, ScheduleInv, WorkerInv, CoverInv, PutsInv, RipeSince;
    hide Started, Stored, Published, Reading, Listing, Getting, Putting, DoneHeight, Finishing, WindowPutting, Reloaded,
         Finished, ProducerContract;
    var w' := Next(w, Observe);
    HeadsStep(w, Observe);
    HeadsDepends(Acted(w, Observe), w');
    ObserveKeepsSchedule(w);
    assert BatchInv(w');
    assert WorkerInv(w') by { NoWorker(w'); }
    CoverStays(w, w');
    PutsGrow(w, w');
  }

  lemma NoWorker(w: World)
    requires !w.worker.Scanning?
    ensures WorkerInv(w)
  {
  }

  /** Whatever the generation did since the observation, a batch reaches no further than the heights
      that are mature now. */
  lemma BeginWithinMature(w: World)
    requires BatchInv(w) && Enabled(w, BeginBatch) && Begun(w.core, w.worker.upper, w.worker.generation).1.None?
    ensures w.core.schedule.mature
    ensures Beginning(w).core.batch.value.upper <= w.core.schedule.matureHeight
  {
  }

  lemma BeginKeeps(w: World)
    requires Inv(w) && Enabled(w, BeginBatch)
    ensures Inv(Next(w, BeginBatch))
  {
    hide HeadsInv, WorkerInv, CoverInv, PutsInv, Steady;
    hide Started, Stored, Published, Reading, Listing, Getting, Putting, DoneHeight, Finishing, WindowPutting, Reloaded,
         Finished, ProducerContract;
    var w' := Next(w, BeginBatch);
    HeadsStep(w, BeginBatch);
    HeadsDepends(Acted(w, BeginBatch), w');
    ScheduleStays(w, w');
    if w'.worker.Scanning? {
      BeginWithinMature(w);
      var b := w'.core.batch.value;
      forall h: u64 | b.start <= h <= b.upper ensures RipeSince(w'.log, w'.ripe, h) {
        RipeKept(w, w', w.matureStep, h);
      }
      assert w'.log[w'.begun] == SnapOf(w');
      assert WorkerInv(w') by { EmptyWorker(w'); }
    } else {
      NoWorker(w');
    }
    CoverStays(w, w');
    PutsGrow(w, w');
  }

  lemma EmptyWorker(w: World)
    requires w.worker.Scanning? && w.core.batch.Some? && w.worker.now.AtRead? && w.worker.done == []
    ensures WorkerInv(w)
  {
  }
}
