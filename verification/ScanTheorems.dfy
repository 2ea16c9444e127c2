/** The theorems of the scan protocol, over every run. */
module ScanTheorems {
  import opened Types
  import opened CanonicalIndex
  import opened ScanCore
  import opened ScanMachine
  import opened ScanInvariants
  import opened ScanHeads
  import opened ScanHistory

  lemma CoveredAt(cover: map<u64, Cover>, start: u64, done: seq<HeightScan>, ripe: nat, begun: nat, x: u64)
    requires start + |done| <= MAX_U64
    ensures var r := Covered(cover, start, done, ripe, begun);
            if start <= x < start + |done| then x in r && r[x] == Cover(done[x - start], ripe, begun)
            else (x in r <==> x in cover) && (x in cover ==> r[x] == cover[x])
  {
  }

  /** The checkpoint covers exactly the verified prefix. */
  lemma FinishKeepsCover(w: World, live: bool, committed: bool)
    requires Inv(w) && Enabled(w, FinishBatch(live, committed))
    ensures CoverInv(Logging(Finishing(w, live, committed)))
  {
    hide HeadsInv, ScheduleInv, BatchInv, WorkerInv, PutsInv, BatchFinished, VerifiedPrefix, ScanOk, RipeSince, CoveredBy, Covered;
    StateIsCursor(w);
    BatchFinishedFacts(w.core, Checked(w.core.batch.value.start, w.worker.done), live, committed);
    if Finishing(w, live, committed).core.state == w.core.state {
      CoverStays(w, Logging(Finishing(w, live, committed)));
    } else {
      CheckpointKeepsCover(w, live, committed);
    }
  }

  lemma CheckpointKeepsCover(w: World, live: bool, committed: bool)
    requires Inv(w) && Enabled(w, FinishBatch(live, committed))
    requires Finishing(w, live, committed).core.state != w.core.state
    ensures CoverInv(Logging(Finishing(w, live, committed)))
  {
    hide HeadsInv, ScheduleInv, PutsInv, BatchFinished, VerifiedPrefix, ScanOk, RipeSince, CoveredBy, Covered;
    var w' := Logging(Finishing(w, live, committed));
    var b, done := w.core.batch.value, w.worker.done;
    var checked := Checked(b.start, done);
    StateIsCursor(w);
    BatchFinishedFacts(w.core, checked, live, committed);
    var n := VerifiedPrefix(w.core, checked);
    forall x: u64 | w'.core.cursor.value.baseline.height < x < b.start + n
      ensures x in w'.cover && CoveredBy(w', x, w'.cover[x])
    {
      CoveredAt(w.cover, b.start, done[..n], w.ripe, w.begun, x);
      if x < b.start {
        CoverKept(w, w', x, w.cover[x]);
      } else {
        assert checked[x - b.start] == Anchor(x, done[x - b.start].hash);
        NewCover(w, x - b.start);
        CoverKept(w, w', x, w'.cover[x]);
      }
    }
  }

  lemma StateIsCursor(w: World)
    requires HeadsInv(w)
    ensures w.core.state == w.core.cursor
  {
  }

  lemma NewCover(w: World, i: nat)
    requires BatchInv(w) && WorkerInv(w) && w.worker.Scanning? && w.core.batch.Some? && i < |w.worker.done|
    requires !StaleAt(w.core.batch.value, w.core.batch.value.start + i)
    requires Get(w.core.nums, w.core.batch.value.start + i) == Some(w.worker.done[i].hash)
    ensures CoveredBy(w, w.core.batch.value.start + i, Cover(w.worker.done[i], w.ripe, w.begun))
  {
    hide ScanOk, RipeSince;
  }

  lemma FinishKeeps(w: World, live: bool, committed: bool)
    requires Inv(w) && Enabled(w, FinishBatch(live, committed))
    ensures Inv(Next(w, FinishBatch(live, committed)))
  {
    hide HeadsInv, ScheduleInv, WorkerInv, CoverInv, PutsInv, BatchFinished, VerifiedPrefix, Covered, RipeSince;
    var step := FinishBatch(live, committed);
    var w' := Next(w, step);
    StateIsCursor(w);
    BatchFinishedFacts(w.core, Checked(w.core.batch.value.start, w.worker.done), live, committed);
    HeadsStep(w, step);
    HeadsDepends(Acted(w, step), w');
    ScheduleStays(w, w');
    NoWorker(w');
    FinishKeepsCover(w, live, committed);
    PutsGrow(w, w');
  }

  /** A crash loses the schedule and the batch, and no covered height. */
  lemma CrashKeeps(w: World)
    requires Inv(w)
    ensures Inv(Next(w, Crash))
  {
    hide HeadsInv, WorkerInv, CoverInv, PutsInv, RipeSince;
    var w' := Next(w, Crash);
    HeadsStep(w, Crash);
    HeadsDepends(Acted(w, Crash), w');
    NoWorker(w');
    CoverStays(w, w');
    PutsGrow(w, w');
  }

  lemma StepKeeps(w: World, step: Step)
    requires Inv(w)
    ensures Inv(Next(w, step))
  {
    hide Inv, Acted, Enabled;
    if Enabled(w, step) {
      match step
      case Observe => ObserveKeeps(w);
      case BeginBatch => BeginKeeps(w);
      case FinishBatch(live, committed) => FinishKeeps(w, live, committed);
      case Crash => CrashKeeps(w);
      case _ => if MainStep(step) { MainKeeps(w, step); } else { QuietKeeps(w, step); }
    }
  }

  lemma InitialInv(w: World)
    requires Initial(w)
    ensures Inv(w)
  {
  }

  lemma {:induction false} RunKeeps(states: seq<World>, steps: seq<Step>, i: nat)
    requires IsRun(states, steps) && i <= |steps|
    ensures Inv(states[i])
  {
    hide Inv, Next, Initial;
    if i == 0 {
      InitialInv(states[0]);
    } else {
      RunKeeps(states, steps, i - 1);
      StepKeeps(states[i - 1], steps[i - 1]);
      assert states[i - 1 + 1] == Next(states[i - 1], steps[i - 1]);
    }
  }

  /** Every reachable state of every run satisfies all the invariants. */
  lemma ReachableInv(w: World)
    requires Reachable(w)
    ensures Inv(w)
  {
    hide Inv, Next, Initial;
    var states, steps :| IsRun(states, steps) && states[|steps|] == w;
    RunKeeps(states, steps, |steps|);
  }

  // ---------------------------------------------------------------- the promises

  /** The height was scanned completely. It was at or below a head published a full interval before its
      batch began; in every state since then it has mapped to the one hash it was scanned against; all
      objects stored at it in some state after the batch began were listed, the canonical one among
      them; and each of these was seen or put right, against that hash, after the listing. */
  ghost predicate FullyScanned(w: World, x: u64, c: Cover) {
    && c.ripe <= c.begun < |w.log|
    && w.log[c.ripe].published.Some? && x <= w.log[c.ripe].published.value.height
    && w.log[c.ripe].clock + w.interval <= w.log[c.begun].clock
    && (forall t :: c.ripe <= t < |w.log| ==> Get(w.log[t].nums, x) == Some(c.scan.hash))
    && c.begun <= c.scan.listedAt < |w.log|
    && (forall k :: k in c.scan.listed <==> (x, k) in w.log[c.scan.listedAt].objects)
    && c.scan.hash in c.scan.listed
    && (forall k :: k in c.scan.listed ==>
          && k in c.scan.settled && c.scan.listedAt <= c.scan.settled[k] < |w.log|
          && (x, k) in w.log[c.scan.settled[k]].objects
          && w.log[c.scan.settled[k]].objects[(x, k)] == (k != c.scan.hash))
  }

  /** No height is skipped: in every reachable state each height between the baseline and the saved
      cursor was scanned completely. */
  lemma DurableCoverage(w: World, x: u64)
    requires Reachable(w)
    requires w.core.cursor.Some? && w.core.cursor.value.baseline.height < x < w.core.cursor.value.nextHeight
    ensures x in w.cover && FullyScanned(w, x, w.cover[x])
  {
    ReachableInv(w);
    CoverageFacts(w, x);
  }

  lemma CoverageFacts(w: World, x: u64)
    requires Inv(w) && w.core.cursor.Some? && w.core.cursor.value.baseline.height < x < w.core.cursor.value.nextHeight
    ensures x in w.cover && FullyScanned(w, x, w.cover[x])
  {
    hide HeadsInv, ScheduleInv, BatchInv, WorkerInv, PutsInv;
    var c := w.cover[x];
    assert CoveredBy(w, x, c);
    assert w.log[|w.log| - 1].nums == w.core.nums;
    forall k | k in c.scan.listed
      ensures k in c.scan.settled && SettledOk(w.log, c.scan.listedAt, x, c.scan.hash, k, c.scan.settled[k])
    {
    }
  }

  /** Only the cursor moved, forward from the start of the batch, over heights whose mapping no write
      has touched since the batch began, not even away and back. */
  ghost predicate PrefixCheckpointed(w: World, w': World) {
    && w.core.cursor.Some? && w'.core.cursor.Some?
    && w'.core.cursor.value == w.core.cursor.value.(nextHeight := w'.core.cursor.value.nextHeight)
    && w'.core.nums == w.core.nums
    && w.core.cursor.value.nextHeight <= w'.core.cursor.value.nextHeight
    && (w'.core.cursor != w.core.cursor ==> w.core.batch.Some? && w.core.cursor.value.nextHeight == w.core.batch.value.start)
    && forall x: u64, t :: w.core.cursor.value.nextHeight <= x < w'.core.cursor.value.nextHeight && w.begun <= t < |w.log| ==>
         Get(w.log[t].nums, x) == Get(w.core.nums, x)
  }

  /** A batch checkpoints only what stood still, and changes nothing else that is saved. */
  lemma CheckpointSeesNoReorg(w: World, live: bool, committed: bool)
    requires Reachable(w) && Enabled(w, FinishBatch(live, committed)) && w.core.cursor.Some?
    ensures PrefixCheckpointed(w, Next(w, FinishBatch(live, committed)))
  {
    hide Inv;
    ReachableInv(w);
    CheckpointFacts(w, live, committed);
  }

  lemma CheckpointFacts(w: World, live: bool, committed: bool)
    requires Inv(w) && Enabled(w, FinishBatch(live, committed)) && w.core.cursor.Some?
    ensures PrefixCheckpointed(w, Next(w, FinishBatch(live, committed)))
  {
    hide HeadsInv, ScheduleInv, PutsInv, CoverInv, BatchFinished, VerifiedPrefix, ScanOk, ProgressOk, Covered;
    hide Started, Stored, Published, Finished, Observing, Beginning, Reading, Listing, Getting, Putting, DoneHeight, WindowPutting, Reloaded;
    var b := w.core.batch.value;
    var checked := Checked(b.start, w.worker.done);
    StateIsCursor(w);
    BatchFinishedFacts(w.core, checked, live, committed);
    var w' := Next(w, FinishBatch(live, committed));
    forall x: u64, t | w.core.cursor.value.nextHeight <= x < w'.core.cursor.value.nextHeight && w.begun <= t < |w.log|
      ensures Get(w.log[t].nums, x) == Get(w.core.nums, x)
    {
      assert checked[x - b.start].height == x;
      assert RipeSince(w.log, w.ripe, x);
      assert Get(w.log[|w.log| - 1].nums, x) == Get(w.log[w.ripe].nums, x);
    }
  }

  /** An entry of the log is what was visible in the state whose log it ends. */
  predicate MadeBy(states: seq<World>, j: nat, log: seq<Snap>, t: nat) {
    j < |states| && t < |log| && |states[j].log| == t + 1 && log[t] == SnapOf(states[j])
  }

  ghost predicate HasMaker(states: seq<World>, i: nat, log: seq<Snap>, t: nat) {
    exists j: nat :: j <= i && MadeBy(states, j, log, t)
  }

  /** The log is the run: earlier states' logs are prefixes of later ones, the last entry of each is what
      is visible in that state, and every entry was made by some state of the run. */
  lemma {:induction false} LogIsTheRun(states: seq<World>, steps: seq<Step>, i: nat)
    requires IsRun(states, steps) && i <= |steps|
    ensures |states[i].log| > 0 && MadeBy(states, i, states[i].log, |states[i].log| - 1)
    ensures forall j :: 0 <= j <= i ==> states[j].log <= states[i].log
    ensures forall t: nat :: t < |states[i].log| ==> HasMaker(states, i, states[i].log, t)
  {
    hide Next, SnapOf;
    if i > 0 {
      LogIsTheRun(states, steps, i - 1);
      assert states[i - 1 + 1] == Next(states[i - 1], steps[i - 1]);
      NextLogs(states[i - 1], steps[i - 1]);
      forall t: nat | t < |states[i].log|
        ensures HasMaker(states, i, states[i].log, t)
      {
        EntryKept(states, i - 1, i, t);
      }
    } else {
      FirstEntry(states, steps);
    }
  }

  lemma FirstEntry(states: seq<World>, steps: seq<Step>)
    requires IsRun(states, steps)
    ensures |states[0].log| == 1 && MadeBy(states, 0, states[0].log, 0)
  {
    hide Next;
  }

  lemma EntryKept(states: seq<World>, i: nat, i': nat, t: nat)
    requires i' == i + 1 < |states| && t < |states[i'].log|
    requires states[i'] == states[i] || states[i'].log == states[i].log + [SnapOf(states[i'])]
    requires forall t: nat :: t < |states[i].log| ==> HasMaker(states, i, states[i].log, t)
    ensures HasMaker(states, i', states[i'].log, t)
  {
    hide SnapOf;
    if t < |states[i].log| {
      assert HasMaker(states, i, states[i].log, t);
      var j: nat :| j <= i && MadeBy(states, j, states[i].log, t);
      assert MadeBy(states, j, states[i'].log, t);
    } else {
      assert MadeBy(states, i', states[i'].log, t);
    }
  }

  /** Every step that happens logs the state it leads to. */
  lemma NextLogs(w: World, step: Step)
    ensures var w' := Next(w, step); w' == w || w'.log == w.log + [SnapOf(w')]
  {
    hide Started, Stored, Published, Finished, Observing, Beginning, Reading, Listing, Getting, Putting, DoneHeight, Finishing, WindowPutting,
         Reloaded, Enabled;
    if Enabled(w, step) { ActedKeepsLog(w, step); }
  }

  lemma ActedKeepsLog(w: World, step: Step)
    requires Enabled(w, step)
    ensures Acted(w, step).log == w.log
  {
    hide Started, Stored, Published, Finished, Messages, Reloaded, BatchFinished, Observed, Begun, VerifyHeight, Covered, ProducerContract;
    if MainStep(step) { MainShrinks(w, step); }
  }

  lemma BeginIsMarked(w: World, step: Step)
    requires Inv(w) && Next(w, step).core.batch.Some?
    ensures w.core.batch.None? ==> Next(w, step).begun == |w.log| && |Next(w, step).log| == |w.log| + 1
    ensures w.core.batch.Some? ==> Next(w, step).begun == w.begun
  {
    hide HeadsInv, ScheduleInv, WorkerInv, CoverInv, PutsInv, RipeSince, ProducerContract;
    hide Started, Stored, Published, Finished, Messages;
    if Enabled(w, step) {
      if MainStep(step) {
        MainShrinks(w, step);
      } else {
        BatchComesFromBegin(w, step);
      }
    }
  }

  lemma BatchComesFromBegin(w: World, step: Step)
    requires BatchInv(w) && Enabled(w, step) && !MainStep(step) && Acted(w, step).core.batch.Some?
    ensures w.core.batch.None? ==> Acted(w, step).begun == |w.log|
    ensures w.core.batch.Some? ==> Acted(w, step).begun == w.begun
  {
    hide RipeSince, ProducerContract, Messages, VerifyHeight, VerifiedPrefix, Covered, Saved, ObservedSchedule;
  }

  lemma {:induction false} BatchSince(states: seq<World>, steps: seq<Step>, j: nat, i: nat)
    requires IsRun(states, steps) && j < i <= |steps| && states[j].core.batch.None?
    requires forall t :: j < t <= i ==> states[t].core.batch.Some?
    ensures states[i].begun == |states[j].log|
    ensures forall t :: j < t <= i ==> |states[t].log| > |states[j].log|
  {
    hide Inv, Next;
    RunKeeps(states, steps, i - 1);
    assert states[i - 1 + 1] == Next(states[i - 1], steps[i - 1]);
    BeginIsMarked(states[i - 1], steps[i - 1]);
    if i - 1 > j {
      BatchSince(states, steps, j, i - 1);
      LogIsTheRun(states, steps, i);
      assert states[i - 1].log <= states[i].log;
    }
  }

  /** The same seen from the run alone: if a batch began after state `j` and ends after state `i`, a
      height its checkpoint passes has one and the same hash in all states from one to the other. */
  lemma CheckpointSpansRun(states: seq<World>, steps: seq<Step>, j: nat, i: nat, x: u64)
    requires IsRun(states, steps) && j < i < |steps|
    requires states[j].core.batch.None? && (forall t :: j < t <= i ==> states[t].core.batch.Some?)
    requires steps[i].FinishBatch? && states[i].core.cursor.Some? && states[i + 1].core.cursor.Some?
    requires states[i].core.cursor.value.nextHeight <= x < states[i + 1].core.cursor.value.nextHeight
    ensures x in states[i].core.nums && forall t :: j < t <= i ==> Get(states[t].core.nums, x) == Get(states[i].core.nums, x)
  {
    hide Inv, Next, PrefixCheckpointed;
    var w, step := states[i], steps[i];
    RunKeeps(states, steps, i);
    assert states[i + 1] == Next(w, step);
    LogIsTheRun(states, steps, i);
    BatchSince(states, steps, j, i);
    MovedWasEnabled(w, step);
    CheckpointFacts(w, step.live, step.committed);
    PassedIsIndexed(w, step.live, step.committed, x);
    forall t | j < t <= i
      ensures Get(states[t].core.nums, x) == Get(w.core.nums, x)
    {
      LogIsTheRun(states, steps, t);
      var at := |states[t].log| - 1;
      assert w.log[at] == SnapOf(states[t]) && w.begun <= at;
      StoodStill(w, Next(w, step), x, at);
    }
  }

  lemma MovedWasEnabled(w: World, step: Step)
    requires Next(w, step).core.cursor != w.core.cursor
    ensures Enabled(w, step)
  {
    hide Acted, Enabled;
  }

  lemma StoodStill(w: World, w': World, x: u64, t: nat)
    requires PrefixCheckpointed(w, w') && w.core.cursor.value.nextHeight <= x < w'.core.cursor.value.nextHeight && w.begun <= t < |w.log|
    ensures Get(w.log[t].nums, x) == Get(w.core.nums, x)
  {
  }

  lemma PassedIsIndexed(w: World, live: bool, committed: bool, x: u64)
    requires Inv(w) && Enabled(w, FinishBatch(live, committed)) && w.core.cursor.Some?
    requires var w' := Next(w, FinishBatch(live, committed));
             w'.core.cursor.Some? && w.core.cursor.value.nextHeight <= x < w'.core.cursor.value.nextHeight
    ensures x in w.core.nums
  {
    hide ScheduleInv, PutsInv, CoverInv, BatchFinished, VerifiedPrefix, ScanOk, ProgressOk, Covered, HeadsInv;
    var b := w.core.batch.value;
    var checked := Checked(b.start, w.worker.done);
    StateIsCursor(w);
    BatchFinishedFacts(w.core, checked, live, committed);
    assert checked[x - b.start].height == x;
  }

  /** The delay: every height a running batch may still use was at or below a head published at least
      one interval before the batch began, and has not been remapped since that head was observed. */
  lemma ObservationDelay(w: World, h: u64)
    requires Reachable(w)
    requires w.core.batch.Some? && w.core.batch.value.start <= h <= w.core.batch.value.upper && !StaleAt(w.core.batch.value, h)
    ensures && w.ripe <= w.begun < |w.log|
            && w.log[w.ripe].clock + w.interval <= w.log[w.begun].clock
            && w.log[w.ripe].published.Some? && h <= w.log[w.ripe].published.value.height
            && (forall t :: w.ripe <= t < |w.log| ==> Get(w.log[t].nums, h) == Get(w.core.nums, h))
            && w.core.state.Some? && h <= w.core.state.value.published.height
  {
    ReachableInv(w);
    hide ScheduleInv, WorkerInv, PutsInv, CoverInv, AlignedHeads, CursorBelowHeads, LogFollows, FirstNotice, SentPrefix,
         StoredNotice, UnalignedHeads;
    assert Live(w.core, h);
    assert Get(w.log[|w.log| - 1].nums, h) == Get(w.log[w.ripe].nums, h);
  }

  /** Mature heights are observed heights, and observed heights are published ones. */
  lemma MatureBelowPublished(w: World)
    requires Reachable(w)
    ensures var s := w.core.schedule;
            && (s.mature ==> s.observedAt.Some? && s.matureHeight <= s.observedHeight)
            && (s.observedAt.Some? ==> w.core.state.Some? && s.observedHeight <= w.core.state.value.published.height)
  {
    ReachableInv(w);
    hide BatchInv, WorkerInv, PutsInv, CoverInv, RipeSince;
    if w.core.schedule.observedAt.Some? { assert Live(w.core, w.core.schedule.observedHeight); }
  }

  /** One object was written, with the mark the index of that very state asks for, and nothing else
      but the record of it. */
  predicate WrittenRight(w: World, w': World, h: u64, k: Hash) {
    && h in w.core.nums && w'.objects == w.objects[(h, k) := k != w.core.nums[h]]
    && w'.core == w.core && w'.puts == w.puts + [ScanPut(|w.log|, h, k, k != w.core.nums[h])]
  }

  /** Whatever a step other than another writer's changes among the objects is a write of one of the
      scanners, and that write marks its object a fork exactly when the object's hash is not the one
      canonical at that height in that state. */
  lemma ScanWritesMatchIndex(w: World, step: Step)
    requires !step.OtherPut? && Next(w, step).objects != w.objects
    ensures step.PutObject? || step.WindowPut?
    ensures exists h: u64, k: Hash :: WrittenRight(w, Next(w, step), h, k)
  {
    hide Started, Stored, Published, Finished, Observing, Beginning, Reading, Listing, Getting, DoneHeight, Finishing, Reloaded, ProducerContract;
    if step.PutObject? {
      assert WrittenRight(w, Next(w, step), ScanHeight(w), step.key);
    } else if step.WindowPut? {
      assert WrittenRight(w, Next(w, step), step.height, step.key);
    } else {
      MainLeavesObjects(w, step);
    }
  }

  lemma MainLeavesObjects(w: World, step: Step)
    requires !step.OtherPut? && !step.PutObject? && !step.WindowPut?
    ensures Next(w, step).objects == w.objects
  {
    hide Started, Stored, Published, Finished, Messages, Reloaded, BatchFinished, Observed, Begun, VerifyHeight, Covered, ProducerContract;
    if Enabled(w, step) && MainStep(step) { MainShrinks(w, step); }
  }

  /** Every object write a scanner has recorded in a run was right in the state that made it. */
  lemma RecordedWritesMatchIndex(w: World, i: nat)
    requires Reachable(w) && i < |w.puts|
    ensures var p := w.puts[i];
            && p.step < |w.log|
            && p.height in w.log[p.step].nums
            && p.isFork == (p.key != w.log[p.step].nums[p.height])
            && (p.height, p.key) in w.log[p.step].objects && w.log[p.step].objects[(p.height, p.key)] == p.isFork
  {
    ReachableInv(w);
    assert PutOk(w, w.puts[i]);
  }

  lemma ValidMeans(s: ForkScanState)
    requires ValidState(s)
    ensures s.format == 1 && s.generation > 0 && s.baseline.hash != ZeroHash() && s.published.hash != ZeroHash()
    ensures s.baseline.height < MAX_U64 && s.nextHeight <= s.published.height + 1
    ensures s.pending.Some? ==> s.pending.value.hash != ZeroHash()
    ensures s.position.Some? ==> s.position.value.topic != "" && s.position.value.partition >= 0 && s.position.value.offset >= 0
  {
  }

  /** The saved cursor is always one that loads again: its heads are blocks, it is at most one past the
      published head, and its position is one of a message. The copy in memory never differs from it, and
      an aligned checker with nothing pending has saved exactly its latest published block. */
  lemma CheckpointsStayValid(w: World)
    requires Reachable(w)
    ensures var c := w.core;
            && c.state == c.cursor
            && (c.cursor.Some? ==>
                  var s := c.cursor.value;
                  && ValidState(s)
                  && s.format == 1 && s.generation > 0 && s.baseline.hash != ZeroHash() && s.published.hash != ZeroHash()
                  && s.baseline.height < MAX_U64 && s.nextHeight <= s.published.height + 1
                  && (s.pending.Some? ==> s.pending.value.hash != ZeroHash())
                  && (s.position.Some? ==> s.position.value.topic != "" && s.position.value.partition >= 0 && s.position.value.offset >= 0))
            && (c.aligned ==> c.state.Some? && c.latest.Some? && !c.latest.value.isFork)
            && (c.aligned && c.state.value.pending.None? ==> c.state.value.published == HeadOf(c.latest.value))
  {
    ReachableInv(w);
    hide ScheduleInv, BatchInv, WorkerInv, PutsInv, CoverInv, LiveBelowHeads, CursorBelowHeads, LogFollows, FirstNotice,
         SentPrefix, StoredNotice, UnalignedHeads, ValidState;
    if w.core.cursor.Some? { ValidMeans(w.core.cursor.value); }
  }

  /** An aligned checker gives up a pending update only for the tail of a newer write, or when that
      very tail is the latest published block and the last message of the outer log. */
  lemma PendingEndsAtItsTail(w: World, step: Step, p: Anchor)
    requires Reachable(w) && !step.Crash?
    requires w.core.aligned && w.core.cursor.Some? && w.core.cursor.value.pending == Some(p)
    ensures var w' := Next(w, step);
            && w'.core.cursor.Some?
            && (|| w'.core.cursor.value.pending == Some(p)
                || (step.StoreBlocks? && TailPending(w'.core.cursor, w.main.notice))
                || EndedAtTail(w', p))
  {
    ReachableInv(w);
    hide Inv;
    if Enabled(w, step) {
      if MainStep(step) { PendingMainStep(w, step, p); } else { PendingOtherStep(w, step); }
    }
  }

  lemma PendingOtherStep(w: World, step: Step)
    requires Inv(w) && Enabled(w, step) && !MainStep(step) && !step.Crash? && w.core.cursor.Some?
    ensures var c := Acted(w, step).core.cursor;
            c.Some? && c.value.pending == w.core.cursor.value.pending
  {
    hide ScheduleInv, BatchInv, WorkerInv, PutsInv, CoverInv, HeadsInv, BatchFinished, VerifiedPrefix, VerifyHeight, Covered;
    StateIsCursor(w);
    if step.FinishBatch? {
      BatchFinishedFacts(w.core, Checked(w.core.batch.value.start, w.worker.done), step.live, step.committed);
    }
  }

  /** The update to `p` is no longer pending, because `p` is the published head in every sense. */
  predicate EndedAtTail(w: World, p: Anchor)
    requires w.core.cursor.Some?
  {
    && w.core.cursor.value.pending.None? && w.core.cursor.value.published == p
    && w.core.latest == Some(Outer(p.height, p.hash, false))
    && w.outerTail == w.core.latest
  }

  /** A latest block that is the pending tail is also the last message sent. */
  lemma TailIsOut(w: World)
    requires HeadsInv(w) && w.core.state.Some? && w.core.latest.Some? && w.core.state.value.pending == Some(HeadOf(w.core.latest.value))
    ensures w.outerTail == w.core.latest
  {
    hide Messages, Live, ValidState, ProducerContract, OffsetGap, LiveBelowHeads, UnalignedHeads, FirstNotice, StoredNotice;
  }

  /** Finishing ends a pending update only at its own tail. */
  lemma FinishEndsAtTail(w: World, position: Option<Position>, ok: bool, p: Anchor)
    requires HeadsInv(w) && w.core.aligned && w.core.cursor.Some? && w.core.cursor.value.pending == Some(p)
    ensures var w' := w.(core := Finished(w.core, position, ok).0);
            w'.core.cursor.Some? && (w'.core.cursor.value.pending == Some(p) || EndedAtTail(w', p))
  {
    hide Messages, Live, ValidState, ProducerContract, OffsetGap, LiveBelowHeads, UnalignedHeads, FirstNotice, StoredNotice,
         LogFollows, SentPrefix, CursorBelowHeads;
    if p == HeadOf(w.core.latest.value) { TailIsOut(w); }
  }

  lemma PendingMainStep(w: World, step: Step, p: Anchor)
    requires Inv(w) && Enabled(w, step) && MainStep(step) && w.core.aligned && w.core.cursor.Some? && w.core.cursor.value.pending == Some(p)
    ensures var w' := Acted(w, step);
            && w'.core.cursor.Some?
            && (|| w'.core.cursor.value.pending == Some(p)
                || (step.StoreBlocks? && TailPending(w'.core.cursor, w.main.notice))
                || EndedAtTail(w', p))
  {
    hide ScheduleInv, BatchInv, WorkerInv, PutsInv, CoverInv, HeadsInv, Messages, ProducerContract, ValidState, Finished,
         AlreadyProcessed, MsgCheck, Written;
    hide Observing, Beginning, Reading, Listing, Getting, Putting, DoneHeight, Finishing, WindowPutting, Reloaded, Initialized, Reconciled;
    StateIsCursor(w);
    match step
    case StoreBlocks(committed) => PendingStored(w, committed);
    case Complete(finished) => FinishEndsAtTail(w, w.main.position, finished, p);
    case Start(_, position, _, _, finished) => FinishEndsAtTail(w, position, finished, p);
    case Publish(_, _) =>
    case GiveUp =>
  }

  lemma PendingStored(w: World, committed: bool)
    requires Inv(w) && Enabled(w, StoreBlocks(committed)) && w.core.cursor.Some?
    ensures var c := Stored(w, committed).core.cursor; c == w.core.cursor || TailPending(c, w.main.notice)
  {
    hide ScheduleInv, BatchInv, WorkerInv, PutsInv, CoverInv, HeadsInv, Messages, ProducerContract, ValidState, Rewritten, Rewinds;
    StateIsCursor(w);
    if Written(w.core, w.main.notice.news, committed).1 { WrittenFacts(w.core, w.main.notice.news); }
  }

  /** Validation never stands in the way of a canonical write: in every reachable state it succeeds
      when the store accepts the commit, short of a generation overflow. */
  lemma WriteIsAccepted(w: World)
    requires Reachable(w) && Enabled(w, StoreBlocks(true))
    requires var c := w.core; c.state.Some? ==> c.state.value.generation < MAX_U64
    ensures Written(w.core, w.main.notice.news, true).1
  {
    hide Inv;
    ReachableInv(w);
    StoreAccepted(w);
  }

  /** The same for the checkpoint after a publication, short of a first baseline at the last height. */
  lemma PublicationIsAccepted(w: World)
    requires Reachable(w) && Enabled(w, Complete(true))
    ensures && w.core.latest.Some?
            && ((w.core.state.None? ==> w.core.latest.value.height < MAX_U64) ==> Finished(w.core, w.main.position, true).1)
  {
    hide Inv;
    ReachableInv(w);
    CompleteAccepted(w);
  }

  /** The ways in which recovery refuses a notice already published; none of them is the cursor's
      validity. */
  predicate RecoveryRefuses(c: Core, n: Notice, position: Option<Position>)
    requires |n.news| > 0
  {
    && !c.aligned && c.anchor.Some?
    && if c.state.Some? && c.state.value.published != c.anchor.value && AlreadyProcessed(c, n) && NoticeExtends(n, c.state.value.published) then
         || (c.state.value.pending.Some? && c.state.value.pending.value != c.anchor.value)
         || !ReplayIndexed(c.nums, n.news) || AnchorOf(Tail(n.news)) != c.anchor.value
         || (|n.drops| > 0 && c.state.value.generation == MAX_U64)
       else
         && (c.state.None? || OffsetGap(c.state.value, c.anchor.value, position))
         && (c.anchor.value.height == MAX_U64 || (c.state.Some? && c.state.value.generation == MAX_U64))
  }

  /** In every reachable state a recovery the store accepts goes through exactly unless refused for one
      of these reasons, and on the already-published path the checkpoint that follows is accepted too,
      short of a first baseline at the last height. */
  lemma RecoveryIsAccepted(w: World, n: Notice, position: Option<Position>)
    requires Reachable(w) && Enabled(w, Start(n, position, true, true, true)) && |n.news| > 0
    ensures Prepared(w.core, n, position, true).1 <==> !RecoveryRefuses(w.core, n, position)
    ensures var p := Prepared(w.core, n, position, true);
            p.1 && AlreadyProcessed(w.core, n) && !w.core.latest.value.isFork && (p.0.state.None? ==> w.core.latest.value.height < MAX_U64) ==>
              Finished(p.0, position, true).1
  {
    hide Inv, Prepared, Finished, RecoveryRefuses;
    ReachableInv(w);
    PrepareAccepted(w, n, position);
    if Prepared(w.core, n, position, true).1 && AlreadyProcessed(w.core, n) && !w.core.latest.value.isFork { RepeatAccepted(w, n, position); }
  }

  lemma PrepareAccepted(w: World, n: Notice, position: Option<Position>)
    requires Inv(w) && |n.news| > 0
    ensures Prepared(w.core, n, position, true).1 <==> !RecoveryRefuses(w.core, n, position)
  {
    hide ScheduleInv, BatchInv, WorkerInv, PutsInv, CoverInv, Messages, Live, LiveBelowHeads, UnalignedHeads, FirstNotice, SentPrefix, LogFollows,
         StoredNotice, CursorBelowHeads, AlignedHeads, OffsetGap, Reconciled, Initialized, ReplayIndexed, NoticeExtends, ValidState;
    if w.core.anchor.Some? {
      ResetAccepted(w.core, w.core.anchor.value);
      if w.core.state.Some? && NoticeExtends(n, w.core.state.value.published) { ReplayAccepted(w.core, n, w.core.anchor.value); }
    }
  }

  lemma ReplayAccepted(c: Core, n: Notice, anchor: Anchor)
    requires c.state.Some? && ValidState(c.state.value) && |n.news| > 0 && anchor.hash != ZeroHash() && NoticeExtends(n, c.state.value.published)
    ensures var s := c.state.value;
            Reconciled(c, n, anchor, true).1 <==>
              && (s.pending.Some? ==> s.pending.value == anchor) && ReplayIndexed(c.nums, n.news) && AnchorOf(Tail(n.news)) == anchor
              && (|n.drops| > 0 ==> s.generation < MAX_U64)
  {
    if ReplayIndexed(c.nums, n.news) { LinkedAt(n.news, 0, |n.news| - 1); }
  }

  lemma ResetAccepted(c: Core, anchor: Anchor)
    requires (c.state.Some? ==> ValidState(c.state.value)) && anchor.hash != ZeroHash()
    ensures Initialized(c, anchor, None, true).1 <==> anchor.height < MAX_U64 && (c.state.Some? ==> c.state.value.generation < MAX_U64)
  {
  }

  lemma RepeatAccepted(w: World, n: Notice, position: Option<Position>)
    requires Inv(w) && Enabled(w, Start(n, position, true, true, true)) && |n.news| > 0
    requires Prepared(w.core, n, position, true).1 && AlreadyProcessed(w.core, n) && !w.core.latest.value.isFork
    ensures var p := Prepared(w.core, n, position, true).0;
            (p.state.None? ==> w.core.latest.value.height < MAX_U64) ==> Finished(p, position, true).1
  {
    hide ScheduleInv, BatchInv, WorkerInv, PutsInv, CoverInv, HeadsInv, Prepared, Finished;
    HeadsPrepared(w, n, position, true);
    PreparedKeeps(w.core, n, position, true);
    FinishAccepted(w.(core := Prepared(w.core, n, position, true).0), position);
  }

  lemma FinishAccepted(w: World, position: Option<Position>)
    requires HeadsInv(w) && w.core.latest.Some? && !w.core.latest.value.isFork && (position.Some? ==> ValidPosition(position.value))
    ensures (w.core.state.None? ==> w.core.latest.value.height < MAX_U64) ==> Finished(w.core, position, true).1
  {
    hide Messages, Live, LiveBelowHeads, UnalignedHeads, FirstNotice, SentPrefix, LogFollows, StoredNotice, AlignedHeads, OffsetGap, ProducerContract;
  }

  /** A non-empty verified prefix is saved, with the cursor one past its last height. */
  predicate PrefixSaved(w: World)
    requires w.worker.Scanning? && w.core.batch.Some? && ScanHeight(w) <= MAX_U64
  {
    var checked := Checked(w.core.batch.value.start, w.worker.done);
    var n := VerifiedPrefix(w.core, checked);
    n > 0 ==>
      && w.core.cursor.Some?
      && BatchFinished(w.core, checked, true, true).cursor == Some(w.core.cursor.value.(nextHeight := checked[n - 1].height + 1))
  }

  /** And for the checkpoint of a batch. */
  lemma BatchIsAccepted(w: World)
    requires Reachable(w) && Enabled(w, FinishBatch(true, true))
    ensures PrefixSaved(w)
  {
    hide Inv, PrefixSaved;
    ReachableInv(w);
    BatchAccepted(w);
  }

  lemma StoreAccepted(w: World)
    requires Inv(w) && Enabled(w, StoreBlocks(true)) && (w.core.state.Some? ==> w.core.state.value.generation < MAX_U64)
    ensures Written(w.core, w.main.notice.news, true).1
  {
    hide ScheduleInv, BatchInv, WorkerInv, PutsInv, CoverInv, Messages, ValidPosition, ValidState, Live, Rewritten, Rewinds,
         Advanced, ProducerContract;
    ContractNews(w.main.notice);
    if w.core.state.Some? { WrittenBelow(w.core, w.main.notice.news); }
  }

  lemma CompleteAccepted(w: World)
    requires Inv(w) && Enabled(w, Complete(true))
    ensures w.core.latest.Some?
    ensures (w.core.state.None? ==> w.core.latest.value.height < MAX_U64) ==> Finished(w.core, w.main.position, true).1
  {
    hide ScheduleInv, BatchInv, WorkerInv, PutsInv, CoverInv, Messages, Live, Rewritten, Rewinds, ProducerContract,
         LiveBelowHeads, UnalignedHeads, FirstNotice;
    CompleteAtTail(w);
    MessageAt(w.main.notice, w.main.cursor - 1);
  }

  lemma BatchAccepted(w: World)
    requires Inv(w) && Enabled(w, FinishBatch(true, true))
    ensures PrefixSaved(w)
  {
    hide ScheduleInv, BatchInv, PutsInv, CoverInv, Messages, Live, ScanOk, ProgressOk, LiveBelowHeads, UnalignedHeads, FirstNotice,
         SentPrefix, LogFollows, StoredNotice;
    var checked := Checked(w.core.batch.value.start, w.worker.done);
    var n := VerifiedPrefix(w.core, checked);
    if n > 0 {
      assert VerifyHeight(w.core, checked[n - 1].height, checked[n - 1].hash).None?;
    }
  }

  // ---------------------------------------------------------------- progress

  /** The state after some steps. */
  function After(w: World, steps: seq<Step>): World
    decreases |steps|
  {
    if |steps| == 0 then w else After(Next(w, steps[0]), steps[1..])
  }

  lemma {:induction false} AfterJoined(w: World, a: seq<Step>, b: seq<Step>)
    ensures After(w, a + b) == After(After(w, a), b)
    decreases |a|
  {
    hide Next;
    if |a| == 0 {
      assert a + b == b;
    } else {
      assert (a + b)[0] == a[0] && (a + b)[1..] == a[1..] + b;
      AfterJoined(Next(w, a[0]), a[1..], b);
    }
  }

  lemma {:induction false} AfterKeeps(w: World, steps: seq<Step>)
    requires Inv(w)
    ensures Inv(After(w, steps))
    decreases |steps|
  {
    hide Inv, Next;
    if |steps| > 0 {
      StepKeeps(w, steps[0]);
      AfterKeeps(Next(w, steps[0]), steps[1..]);
    }
  }

  /** A run can go on from where it got to. */
  lemma ReachesNext(w: World, step: Step)
    requires Reachable(w)
    ensures Reachable(Next(w, step))
  {
    hide Next, Initial;
    var states, steps :| IsRun(states, steps) && states[|steps|] == w;
    var states', steps' := states + [Next(w, step)], steps + [step];
    forall i | 0 <= i < |steps'| ensures states'[i + 1] == Next(states'[i], steps'[i]) {
      if i < |steps| { assert states[i + 1] == Next(states[i], steps[i]); }
    }
    assert IsRun(states', steps') && states'[|steps'|] == Next(w, step);
  }

  lemma {:induction false} AfterReaches(w: World, steps: seq<Step>)
    requires Reachable(w)
    ensures Reachable(After(w, steps)) && After(w, steps).interval == w.interval
    decreases |steps|
  {
    hide Next, Reachable;
    if |steps| > 0 {
      ReachesNext(w, steps[0]);
      IntervalStays(w, steps[0]);
      AfterReaches(Next(w, steps[0]), steps[1..]);
    }
  }

  lemma IntervalStays(w: World, step: Step)
    ensures Next(w, step).interval == w.interval
  {
    hide Prepared, Written, Reloaded, BatchFinished, Observed, Begun, VerifyHeight, Covered, ProducerContract, Finished;
  }

  predicate WorkerStep(step: Step) {
    step.BeginBatch? || step.ReadHeight? || step.ListHeight? || step.GetObject? || step.PutObject? || step.HeightDone? || step.FinishBatch?
  }

  /** The worker may scan, and the next height is indexed with its canonical object present. */
  predicate QuietHeight(w: World, h: u64, hash: Hash) {
    && LockFree(w) && w.worker.Ready? && CanScan(w.core) && w.core.batch.None? && w.worker.generation == w.core.state.value.generation
    && h == w.core.state.value.nextHeight <= Min(w.worker.upper, w.core.state.value.published.height) && h < MAX_U64
    && Get(w.core.nums, h) == Some(hash) && (h, hash) in w.objects
  }

  /** The objects stored at a height. */
  function ObjectsAt(w: World, h: u64): set<Hash> {
    set k | k in w.objects.Keys && k.0 == h :: k.1
  }

  /** Those of some objects at a height whose mark is wrong. */
  function Wrong(objects: Objects, h: u64, keys: set<Hash>, hash: Hash): set<Hash> {
    set k | k in keys && (h, k) in objects && objects[(h, k)] != (k != hash)
  }

  /** The marks once all objects of a height are right. */
  function Righted(objects: Objects, h: u64, keys: set<Hash>, hash: Hash): Objects {
    map k | k in objects :: if k.0 == h && k.1 in keys then k.1 != hash else objects[k]
  }

  /** A scan of height `h` under way: nothing has interfered with the batch, and what is still to be
      read and to be written is known. */
  predicate Midscan(w: World, h: u64, hash: Hash, listed: set<Hash>, todo: set<Hash>, plan: set<Hash>) {
    && LockFree(w) && w.worker.Scanning? && w.worker.done == [] && w.worker.now.Working?
    && w.worker.now.hash == hash && w.worker.now.listed == listed && w.worker.now.todo == todo && w.worker.now.plan == plan
    && CanScan(w.core) && w.core.batch.Some?
    && w.core.batch == Some(Batch(h, w.core.batch.value.upper, w.core.state.value.generation, None))
    && w.core.state.value.nextHeight == h <= w.core.state.value.published.height && h < MAX_U64
    && Get(w.core.nums, h) == Some(hash)
    && todo <= listed && plan <= listed && (forall k :: k in listed ==> (h, k) in w.objects)
  }

  lemma QuietBegins(w: World, h: u64, hash: Hash)
    requires QuietHeight(w, h, hash)
    ensures var w' := Next(w, BeginBatch);
            && w'.worker == Scanning([], AtRead) && w'.main == w.main && w'.objects == w.objects && w'.core.batch.Some?
            && h <= w'.core.batch.value.upper
            && w'.core == w.core.(batch := Some(Batch(h, w'.core.batch.value.upper, w.core.state.value.generation, None)))
  {
    hide Started, Stored, Published, Finished, Observing, Finishing, Reloaded, Putting, WindowPutting, Getting, DoneHeight, Reading, Listing,
         ProducerContract;
  }

  lemma QuietReads(w: World, h: u64, hash: Hash)
    requires w.worker == Scanning([], AtRead) && w.core.batch.Some? && w.core.batch.value.start == h <= w.core.batch.value.upper
    requires h < MAX_U64 && Get(w.core.nums, h) == Some(hash) && (h, hash) in w.objects
    ensures var w' := Next(Next(w, ReadHeight), ListHeight);
            && w'.core == w.core && w'.main == w.main && w'.objects == w.objects
            && w'.worker == Scanning([], Working(hash, |w.log| + 1, ObjectsAt(w, h), ObjectsAt(w, h), {}, map[]))
  {
    hide Started, Stored, Published, Finished, Observing, Finishing, Reloaded, Putting, WindowPutting, Getting, DoneHeight, Beginning,
         ProducerContract;
    var w1 := Next(w, ReadHeight);
    assert w1.worker == Scanning([], AtList(hash)) && |w1.log| == |w.log| + 1;
    assert hash in ObjectsAt(w, h) by { assert (h, hash) in w.objects.Keys; }
  }

  lemma QuietHeightIsListed(w: World, h: u64, hash: Hash)
    requires QuietHeight(w, h, hash)
    ensures var w' := After(w, [BeginBatch, ReadHeight, ListHeight]);
            && Midscan(w', h, hash, ObjectsAt(w, h), ObjectsAt(w, h), {})
            && w'.core == w.core.(batch := w'.core.batch) && w'.objects == w.objects
  {
    hide Next;
    QuietBegins(w, h, hash);
    QuietReads(Next(w, BeginBatch), h, hash);
    var steps := [BeginBatch, ReadHeight, ListHeight];
    assert steps[1..] == [ReadHeight, ListHeight] && steps[1..][1..] == [ListHeight] && steps[1..][1..][1..] == [];
  }

  lemma GetOne(w: World, h: u64, hash: Hash, listed: set<Hash>, todo: set<Hash>, plan: set<Hash>, key: Hash)
    requires Midscan(w, h, hash, listed, todo, plan) && key in todo
    ensures var w' := Next(w, GetObject(key));
            && Midscan(w', h, hash, listed, todo - {key}, if w.objects[(h, key)] == (key != hash) then plan else plan + {key})
            && w'.core == w.core && w'.objects == w.objects
  {
    hide Started, Stored, Published, Finished, Observing, Finishing, Reloaded, Putting, WindowPutting, Beginning, Reading, Listing, DoneHeight,
         ProducerContract;
  }

  /** Reading every listed object leaves those with a wrong mark to be written. */
  lemma {:induction false} GetAll(w: World, h: u64, hash: Hash, listed: set<Hash>, todo: set<Hash>, plan: set<Hash>) returns (steps: seq<Step>)
    requires Midscan(w, h, hash, listed, todo, plan)
    ensures |steps| == |todo| && forall i :: 0 <= i < |steps| ==> WorkerStep(steps[i])
    ensures var w' := After(w, steps);
            && Midscan(w', h, hash, listed, {}, plan + Wrong(w.objects, h, todo, hash))
            && w'.core == w.core && w'.objects == w.objects
    decreases |todo|
  {
    hide Next, Midscan;
    steps := [];
    if todo == {} {
      assert plan + Wrong(w.objects, h, todo, hash) == plan;
    } else {
      var key :| key in todo;
      ListedIsStored(w, h, hash, listed, todo, plan, key);
      GetOne(w, h, hash, listed, todo, plan, key);
      var plan' := if w.objects[(h, key)] == (key != hash) then plan else plan + {key};
      var rest := GetAll(Next(w, GetObject(key)), h, hash, listed, todo - {key}, plan');
      steps := [GetObject(key)] + rest;
      assert steps[1..] == rest;
      assert plan' + Wrong(w.objects, h, todo - {key}, hash) == plan + Wrong(w.objects, h, todo, hash);
    }
  }

  lemma PutOne(w: World, h: u64, hash: Hash, listed: set<Hash>, plan: set<Hash>, key: Hash)
    requires Midscan(w, h, hash, listed, {}, plan) && key in plan
    ensures var w' := Next(w, PutObject(key, true));
            && Midscan(w', h, hash, listed, {}, plan - {key})
            && w'.core == w.core && w'.objects == w.objects[(h, key) := key != hash]
  {
    hide Started, Stored, Published, Finished, Observing, Finishing, Reloaded, Getting, WindowPutting, Beginning, Reading, Listing, DoneHeight,
         ProducerContract;
  }

  /** Every planned write passes its verification and puts its object right. */
  lemma {:induction false} PutAll(w: World, h: u64, hash: Hash, listed: set<Hash>, plan: set<Hash>) returns (steps: seq<Step>)
    requires Midscan(w, h, hash, listed, {}, plan)
    ensures |steps| == |plan| && forall i :: 0 <= i < |steps| ==> WorkerStep(steps[i])
    ensures var w' := After(w, steps);
            Midscan(w', h, hash, listed, {}, {}) && w'.core == w.core && w'.objects == Righted(w.objects, h, plan, hash)
    decreases |plan|
  {
    hide Next, Midscan;
    steps := [];
    if plan == {} {
      assert Righted(w.objects, h, plan, hash) == w.objects;
    } else {
      var key :| key in plan;
      ListedIsStored(w, h, hash, listed, {}, plan, key);
      PutOne(w, h, hash, listed, plan, key);
      var w1 := Next(w, PutObject(key, true));
      var rest := PutAll(w1, h, hash, listed, plan - {key});
      steps := [PutObject(key, true)] + rest;
      assert steps[1..] == rest;
      assert Righted(w1.objects, h, plan - {key}, hash) == Righted(w.objects, h, plan, hash);
    }
  }

  lemma ListedIsStored(w: World, h: u64, hash: Hash, listed: set<Hash>, todo: set<Hash>, plan: set<Hash>, key: Hash)
    requires Midscan(w, h, hash, listed, todo, plan) && key in todo + plan
    ensures (h, key) in w.objects
  {
  }

  lemma DoneIsReady(w: World, h: u64, hash: Hash, listed: set<Hash>)
    requires Midscan(w, h, hash, listed, {}, {})
    ensures var w' := Next(w, HeightDone);
            && w'.core == w.core && w'.main == w.main && w'.objects == w.objects
            && w'.worker.Scanning? && |w'.worker.done| == 1 && w'.worker.done[0].hash == hash && w'.worker.done[0].listed == listed
  {
    hide Started, Stored, Published, Finished, Observing, Finishing, Reloaded, Putting, WindowPutting, Beginning, Reading, Listing, Getting,
         ProducerContract;
  }

  /** The machine makes progress: from any reachable state whose next height is quiet the worker alone
      covers that height, reading each of its objects once, writing each that carries a wrong mark,
      and touching nothing else. */
  lemma QuietHeightIsCovered(w: World, h: u64, hash: Hash) returns (steps: seq<Step>)
    requires Reachable(w) && QuietHeight(w, h, hash)
    ensures |steps| == 5 + |ObjectsAt(w, h)| + |Wrong(w.objects, h, ObjectsAt(w, h), hash)|
    ensures forall i :: 0 <= i < |steps| ==> WorkerStep(steps[i])
    ensures var w' := After(w, steps);
            && w.core.cursor.Some? && w'.core.cursor == Some(w.core.cursor.value.(nextHeight := h + 1))
            && h in w'.cover && w'.cover[h].scan.hash == hash && w'.cover[h].scan.listed == ObjectsAt(w, h)
            && w'.objects == Righted(w.objects, h, ObjectsAt(w, h), hash)
  {
    hide Inv, Next, QuietHeight, Midscan, After;
    ReachableInv(w);
    StateAlways(w);
    var keys := ObjectsAt(w, h);
    var wrong := Wrong(w.objects, h, keys, hash);
    var opening := [BeginBatch, ReadHeight, ListHeight];
    QuietHeightIsListed(w, h, hash);
    var w1 := After(w, opening);
    var gets := GetAll(w1, h, hash, keys, keys, {});
    var w2 := After(w1, gets);
    assert {} + wrong == wrong;
    var puts := PutAll(w2, h, hash, keys, wrong);
    var w3 := After(w2, puts);
    assert Righted(w.objects, h, wrong, hash) == Righted(w.objects, h, keys, hash);
    var closing := [HeightDone, FinishBatch(true, true)];
    steps := opening + gets + puts + closing;
    AfterJoined(w, opening, gets);
    AfterJoined(w, opening + gets, puts);
    AfterJoined(w, opening + gets + puts, closing);
    AfterKeeps(w, opening + gets + puts);
    ScanCloses(w3, h, hash, keys);
  }

  lemma ScanCloses(w: World, h: u64, hash: Hash, listed: set<Hash>)
    requires Inv(w) && Midscan(w, h, hash, listed, {}, {})
    ensures var w' := After(w, [HeightDone, FinishBatch(true, true)]);
            && w.core.cursor.Some? && w'.core.cursor == Some(w.core.cursor.value.(nextHeight := h + 1)) && w'.objects == w.objects
            && h in w'.cover && w'.cover[h].scan.hash == hash && w'.cover[h].scan.listed == listed
  {
    hide Inv, Next;
    var w1 := Next(w, HeightDone);
    DoneIsReady(w, h, hash, listed);
    StepKeeps(w, HeightDone);
    StateAlways(w);
    OneHeightCheckpoint(w1, h);
    var steps := [HeightDone, FinishBatch(true, true)];
    assert steps[1..] == [FinishBatch(true, true)] && steps[1..][1..] == [];
  }

  lemma StateAlways(w: World)
    requires Inv(w)
    ensures w.core.state == w.core.cursor
  {
  }

  lemma OneHeightCheckpoint(w: World, h: u64)
    requires Inv(w) && LockFree(w) && CanScan(w.core) && w.worker.Scanning? && |w.worker.done| == 1
    requires w.core.batch == Some(Batch(h, w.core.batch.value.upper, w.core.state.value.generation, None))
    requires w.core.state.value.nextHeight == h <= w.core.state.value.published.height && h < MAX_U64
    requires Get(w.core.nums, h) == Some(w.worker.done[0].hash)
    ensures var w' := Next(w, FinishBatch(true, true));
            && w'.core.cursor == Some(w.core.cursor.value.(nextHeight := h + 1)) && w'.objects == w.objects
            && h in w'.cover && w'.cover[h].scan == w.worker.done[0]
  {
    hide ScheduleInv, BatchInv, PutsInv, CoverInv, Live, ScanOk, ProgressOk, Covered;
    var checked := Checked(h, w.worker.done);
    assert checked == [Anchor(h, w.worker.done[0].hash)];
    assert VerifiedPrefix(w.core, checked) == 1;
    BatchAccepted(w);
    CoveredAt(w.cover, h, w.worker.done[..1], w.ripe, w.begun, h);
  }
}
