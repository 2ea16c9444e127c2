/** Recovery after messages the cursor was not told of, and restarts: when the cursor starts anew, when a
    replay repairs it, and when it simply goes on. */
module Recovery {
  import opened Types
  import opened CanonicalIndex
  import opened ScanCore
  import opened ScanMachine
  import opened ScanInvariants
  import opened ScanHeads
  import opened ScanHistory
  import opened ScanTheorems
  import opened Publication
  import opened PublishedWalk
  import opened NoticeRuns

  // ---------------------------------------------------------------- skipped offsets

  predicate Between(low: int, m: int, high: int) {
    low < m < high
  }

  /** Some message of the same partition lies between the saved position and the incoming one: it was handled
      without the cursor being told. */
  ghost predicate Skipped(saved: Option<Position>, incoming: Option<Position>) {
    && saved.Some? && incoming.Some?
    && saved.value.topic == incoming.value.topic && saved.value.partition == incoming.value.partition
    && exists m :: Between(saved.value.offset, m, incoming.value.offset)
  }

  /** The notice itself is the transition from the saved head to the one found at startup. */
  predicate Replays(c: Core, n: Notice)
    requires c.anchor.Some?
  {
    c.state.Some? && c.state.value.published != c.anchor.value && AlreadyProcessed(c, n) && NoticeExtends(n, c.state.value.published)
  }

  /** The cursor starts anew at a head: nothing at or below it is claimed, nothing is pending, observed,
      mature or usable in a batch, and scans begun under the old cursor are out of date. */
  ghost predicate StartedAnew(c: Core, c': Core, head: Anchor) {
    && c'.state == c'.cursor && c'.state.Some?
    && c'.state.value.baseline == head && c'.state.value.published == head && c'.state.value.nextHeight == head.height + 1
    && c'.state.value.pending.None? && c'.state.value.position.None?
    && (c.state.Some? ==> c'.state.value.generation > c.state.value.generation)
    && c'.schedule.observedAt.None? && !c'.schedule.mature && c'.schedule.generation == c'.state.value.generation
    && (c'.batch.Some? ==> forall h: u64 :: StaleAt(c'.batch.value, h))
    && c'.nums == c.nums && c'.latest == c.latest
  }

  /** What an accepted preparation does, in offsets: an unaligned cursor starts anew exactly when there is
      none, or when messages were skipped and the head found at startup is another one. With consecutive
      offsets, another topic or partition, a missing position or the same head it is left as it is. */
  lemma PreparationStartsAnewIff(c: Core, n: Notice, position: Option<Position>, ok: bool)
    requires |n.news| > 0 && Prepared(c, n, position, ok).1
    requires !c.aligned && c.anchor.Some? && !Replays(c, n)
    ensures var c' := Prepared(c, n, position, ok).0;
            if c.state.None? || (c.state.value.published != c.anchor.value && Skipped(c.state.value.position, position))
            then StartedAnew(c, c', c.anchor.value) else c' == c
  {
    hide ValidState, NoticeExtends, AlreadyProcessed, Reconciled;
    if c.state.Some? && c.state.value.position.Some? && position.Some? {
      var low, high := c.state.value.position.value.offset, position.value.offset;
      if high > low + 1 { assert Between(low, low + 1, high); }
    }
  }

  lemma AlignedIsPrepared(c: Core, n: Notice, position: Option<Position>, ok: bool)
    requires |n.news| > 0 && (c.aligned || c.anchor.None?)
    ensures Prepared(c, n, position, ok) == (c, true)
  {
  }

  /** The heights claimed as scanned begin above `base` and end between `low` and `high`. */
  predicate Claims(c: Core, base: Anchor, low: int, high: int) {
    c.cursor.Some? && c.cursor.value.baseline == base && low <= c.cursor.value.nextHeight <= high
  }

  function Lower(a: int, b: int): int {
    if a < b then a else b
  }

  lemma WriteClaims(c: Core, blocks: seq<Block>, ok: bool, base: Anchor, low: int, high: int)
    requires |blocks| > 0 && Linked(blocks) && c.state == c.cursor && Claims(c, base, low, high)
    ensures var c' := Written(c, blocks, ok).0; c'.state == c'.cursor && Claims(c', base, Lower(low, blocks[0].num), high)
  {
    hide Rewritten, ValidState, Rewinds, Advanced, Affected;
    if Written(c, blocks, ok).1 {
      var s, s' := c.state.value, Advanced(c.state.value, c.nums, blocks);
      WrittenFacts(c, blocks);
      AtomicRewind(s, c.nums, blocks);
      AdvancedKeepsBaseline(s, c.nums, blocks);
      if s'.nextHeight != s.nextHeight { assert Affected(s, c.nums, blocks, s'.nextHeight); }
    }
  }

  lemma AdvancedKeepsBaseline(s: ForkScanState, nums: Index, blocks: seq<Block>)
    requires |blocks| > 0 && (Rewinds(s, nums, blocks) ==> s.generation < MAX_U64)
    ensures Advanced(s, nums, blocks).baseline == s.baseline
  {
  }

  lemma FinishClaims(c: Core, position: Option<Position>, ok: bool, base: Anchor, low: int, high: int)
    requires c.state == c.cursor && Claims(c, base, low, high)
    ensures Claims(Finished(c, position, ok).0, base, low, high)
  {
    hide ValidState;
  }

  lemma DeliveryClaims(s: Site, targets: set<Destination>, n: Notice, position: Option<Position>, o: Outcome, faults: set<Mark>,
       base: Anchor, low: int, high: int)
    requires |n.news| > 0 && Linked(n.news) && s.core.state == s.core.cursor && Claims(s.core, base, low, high)
    ensures Claims(Delivered(s, targets, n, position, o, faults).0.core, base, Lower(low, n.news[0].num), high)
  {
    hide Written, Sent, Finished, Messages, Lower;
    WriteClaims(s.core, n.news, o.committed, base, low, high);
    var s1 := s.(core := Written(s.core, n.news, o.committed).0);
    SentChangesLatest(s1, targets, Messages(n), faults);
    FinishClaims(Sent(s1, targets, Messages(n), faults).0.core, position, o.finished, base, Lower(low, n.news[0].num), high);
  }

  lemma {:induction false} SentChangesLatest(s: Site, targets: set<Destination>, msgs: seq<Outer>, faults: set<Mark>)
    ensures var c := Sent(s, targets, msgs, faults).0.core; c == s.core.(latest := c.latest)
    decreases |msgs|
  {
    if |msgs| > 0 {
      hide SentOne;
      OneMoreLatest(s, targets, msgs[0], faults);
      var r := SentOne(s, targets, msgs[0], faults);
      if r.1 { SentChangesLatest(r.0, targets, msgs[1..], faults); }
    }
  }

  /** What an attempt does to the claimed heights, once its preparation is accepted: it keeps their beginning,
      never adds to them, and takes away none below its first new block. */
  lemma AttemptClaims(s: Site, targets: set<Destination>, n: Notice, position: Option<Position>, o: Outcome, faults: set<Mark>,
       base: Anchor, low: int, high: int)
    requires |n.news| > 0 && Linked(n.news)
    requires var p := Prepared(s.core, n, position, o.saved).0; p.state == p.cursor && Claims(p, base, low, high)
    requires Prepared(s.core, n, position, o.saved).1 && (AlreadyProcessed(s.core, n) || MsgCheck(s.core, n))
    ensures Claims(Processed(s, targets, n, position, o, faults).0.core, base, Lower(low, n.news[0].num), high)
  {
    hide Prepared, Delivered, Finished, MsgCheck, AlreadyProcessed, Linked;
    var p := Prepared(s.core, n, position, o.saved).0;
    FinishClaims(p, position, o.finished, base, low, high);
    DeliveryClaims(Entered(s, n, position, o).0, targets, n, position, o, faults, base, low, high);
  }

  /** After skipped messages and another head at startup, an attempt that gets past its preparation claims
      nothing as scanned, however it ends: every height has to be scanned again. */
  lemma SkippedMessagesAreRescanned(s: Site, targets: set<Destination>, n: Notice, position: Option<Position>, o: Outcome, faults: set<Mark>)
    requires |n.news| > 0 && Linked(n.news) && (AlreadyProcessed(s.core, n) || MsgCheck(s.core, n))
    requires !s.core.aligned && s.core.anchor.Some? && s.core.state.Some? && !Replays(s.core, n)
    requires s.core.state.value.published != s.core.anchor.value && Skipped(s.core.state.value.position, position)
    requires Prepared(s.core, n, position, o.saved).1
    ensures var c := Processed(s, targets, n, position, o, faults).0.core;
            c.cursor.Some? && c.cursor.value.baseline == s.core.anchor.value && c.cursor.value.nextHeight <= s.core.anchor.value.height + 1
  {
    hide Prepared, Processed, MsgCheck, AlreadyProcessed, Linked, Skipped;
    PreparationStartsAnewIff(s.core, n, position, o.saved);
    var head := s.core.anchor.value;
    AttemptClaims(s, targets, n, position, o, faults, head, head.height + 1, head.height + 1);
  }

  /** Without skipped messages, or with the saved head at startup, no scan work is thrown away: the claims
      stay as they are up to the first new block. */
  lemma TrackedMessagesKeepTheCursor(s: Site, targets: set<Destination>, n: Notice, position: Option<Position>, o: Outcome, faults: set<Mark>)
    requires |n.news| > 0 && Linked(n.news) && s.core.state == s.core.cursor && s.core.state.Some?
    requires s.core.anchor.Some? ==>
          !Replays(s.core, n) && (s.core.state.value.published == s.core.anchor.value || !Skipped(s.core.state.value.position, position))
    ensures var c, before := Processed(s, targets, n, position, o, faults).0.core, s.core.state.value;
            && c.cursor.Some? && c.cursor.value.baseline == before.baseline
            && Lower(before.nextHeight, n.news[0].num) <= c.cursor.value.nextHeight <= before.nextHeight
  {
    hide Prepared, MsgCheck, AlreadyProcessed, Linked, Skipped, Entered, Repeated, Delivered;
    var next := s.core.state.value.nextHeight;
    if s.core.aligned || s.core.anchor.None? {
      AlignedIsPrepared(s.core, n, position, o.saved);
    } else if Prepared(s.core, n, position, o.saved).1 {
      PreparationStartsAnewIff(s.core, n, position, o.saved);
    } else {
      RefusedIsSame(s.core, n, position, o.saved);
      RefusedAttempt(s, n, position, o);
    }
    if Prepared(s.core, n, position, o.saved).1 && (AlreadyProcessed(s.core, n) || MsgCheck(s.core, n)) {
      AttemptClaims(s, targets, n, position, o, faults, s.core.state.value.baseline, next, next);
    }
  }

  lemma RefusedIsSame(c: Core, n: Notice, position: Option<Position>, ok: bool)
    requires |n.news| > 0 && !Prepared(c, n, position, ok).1
    ensures Prepared(c, n, position, ok).0 == c
  {
    hide ValidState, NoticeExtends, AlreadyProcessed, OffsetGap, ReplayIndexed;
  }

  lemma RefusedAttempt(s: Site, n: Notice, position: Option<Position>, o: Outcome)
    requires |n.news| > 0 && Prepared(s.core, n, position, o.saved) == (s.core, false)
    ensures Entered(s, n, position, o) == (s, false) && Repeated(s, n, position, o) == (s, false)
  {
    hide Prepared;
  }

  // ---------------------------------------------------------------- true replays

  /** The notice is what happened to the saved chain, and the index and the startup head are where it led. */
  ghost predicate HappenedTo(chain: seq<Block>, c: Core, n: Notice) {
    && Linked(chain) && |chain| > 0 && ProducerContract(n) && Fits(chain, n) && Linked(Followed(chain, n))
    && c.state.Some? && c.state.value.published == AnchorOf(Tail(chain)) && AnchorOf(Tail(chain)) != AnchorOf(Tail(n.news))
    && c.nums == IndexOf(Followed(chain, n))
    && c.anchor == Some(AnchorOf(Tail(n.news))) && c.latest == LatestOf(Followed(chain, n))
  }

  lemma FittingExtends(chain: seq<Block>, n: Notice)
    requires Linked(chain) && |chain| > 0 && ProducerContract(n) && Fits(chain, n)
    ensures NoticeExtends(n, AnchorOf(Tail(chain)))
  {
    hide DistinctHashes, NonZero;
    LinkedAt(chain, 0, |chain| - 1);
    var base := |chain| - |n.drops|;
    LengthOfSplice(chain, n);
    if |n.drops| == 0 {
      assert n.news[0].num == chain[0].num + |chain|;
    } else {
      assert Tail(n.drops) == Tail(chain) && n.drops[0] == chain[base];
      LinkedAt(chain, 0, base);
    }
  }

  lemma LengthOfSplice(chain: seq<Block>, n: Notice)
    requires |chain| > 0 && Fits(chain, n)
    ensures n.news[0].num == chain[0].num + |chain| - |n.drops|
  {
    assert |Spliced(chain, n.news)| == n.news[0].num - chain[0].num + |n.news|;
    assert |Followed(chain, n)| == |chain| - |n.drops| + |n.news|;
  }

  lemma FollowedIsIndexed(chain: seq<Block>, n: Notice)
    requires Fits(chain, n) && Linked(Followed(chain, n)) && Linked(n.news)
    ensures ReplayIndexed(IndexOf(Followed(chain, n)), n.news)
  {
    hide IndexOf, Extends, Spliced;
    var f, base := Followed(chain, n), |chain| - |n.drops|;
    forall i | 0 <= i < |n.news| ensures Get(IndexOf(f), n.news[i].num) == Some(n.news[i].hash) {
      assert f[base + i] == n.news[i];
      LinkedAt(f, 0, base + i);
      IndexOfAt(f, n.news[i].num);
    }
  }

  predicate Claimed(s: ForkScanState, h: u64) {
    s.baseline.height < h < s.nextHeight
  }

  /** A true replay is accepted: a notice that is what happened to the saved chain repairs the cursor, and
      takes from the claimed heights exactly those from its first new block on, if it dropped any block. */
  lemma TrueReplayIsAccepted(chain: seq<Block>, c: Core, n: Notice, position: Option<Position>)
    requires HappenedTo(chain, c, n) && !c.aligned && ValidState(c.state.value)
    requires c.state.value.nextHeight <= c.state.value.published.height + 1
    requires c.state.value.pending.Some? ==> c.state.value.pending == Some(AnchorOf(Tail(n.news)))
    requires |n.drops| > 0 ==> c.state.value.generation < MAX_U64
    ensures var r, s := Prepared(c, n, position, true), c.state.value;
            && r.1 && r.0.cursor == r.0.state && r.0.state.Some?
            && r.0.state.value.published == AnchorOf(Tail(n.news)) && r.0.state.value.pending.None?
            && r.0.state.value.baseline == s.baseline && r.0.state.value.position == s.position && r.0.nums == c.nums
            && (if |n.drops| == 0 then r.0.state.value.nextHeight == s.nextHeight && r.0.state.value.generation == s.generation
                else
                  && r.0.state.value.generation == s.generation + 1 && r.0.schedule.generation == s.generation + 1
                  && forall h: u64 :: Claimed(r.0.state.value, h) <==> Claimed(s, h) && h < n.news[0].num)
  {
    hide ReplayIndexed, NoticeExtends, Fits, Extends, Spliced, IndexOf, ValidState, ProducerContract, Linked;
    FittingExtends(chain, n);
    ContractNews(n);
    FollowedIsIndexed(chain, n);
    FitsHas(chain, n);
    RepairIsValid(chain, c, n);
    LatestIsTail(chain, n);
  }

  lemma LatestIsTail(chain: seq<Block>, n: Notice)
    requires Fits(chain, n)
    ensures LatestOf(Followed(chain, n)) == Some(Outer(Tail(n.news).num, Tail(n.news).hash, false))
  {
  }

  lemma RepairIsValid(chain: seq<Block>, c: Core, n: Notice)
    requires HappenedTo(chain, c, n) && ValidState(c.state.value) && c.state.value.nextHeight <= c.state.value.published.height + 1
    requires |n.drops| > 0 ==> c.state.value.generation < MAX_U64
    ensures var s, head := c.state.value, AnchorOf(Tail(n.news));
            ValidState(if |n.drops| == 0 then s.(published := head, pending := None)
                       else s.(generation := s.generation + 1, nextHeight := Min(s.nextHeight, n.news[0].num), published := head, pending := None))
  {
    ContractNews(n);
    LinkedAt(n.news, 0, |n.news| - 1);
    LengthOfSplice(chain, n);
    LinkedAt(chain, 0, |chain| - 1);
  }

  // ---------------------------------------------------------------- restarts

  /** What a restart finds: the saved cursor, and the head of the outer log if that ends with a new block. It is
      aligned exactly if the cursor has nothing pending, its published head is that head, and the index maps it. */
  lemma RestartFinds(w: World)
    ensures var c := Next(w, Crash).core;
            && c.state == c.cursor == w.core.cursor && c.latest == w.outerTail && c.nums == w.core.nums
            && (c.anchor.Some? <==> w.outerTail.Some? && !w.outerTail.value.isFork)
            && (c.anchor.Some? ==> c.anchor == Some(HeadOf(w.outerTail.value)))
            && (c.recoveryDrop <==> w.outerTail.Some? && w.outerTail.value.isFork)
            && (c.aligned <==>
                  && c.cursor.Some? && c.cursor.value.pending.None? && c.anchor == Some(c.cursor.value.published)
                  && Get(c.nums, c.cursor.value.published.height) == Some(c.cursor.value.published.hash))
  {
    hide Started, Stored, Published, Observing, Beginning, Reading, Listing, Getting, Putting, DoneHeight, Finishing, WindowPutting, Finished,
         ProducerContract, Messages;
  }

  /** A restart resumes: an aligned checker with nothing pending comes back with the same cursor and the same
      published head, and aligned again exactly if the index maps that head to its hash. Only what was
      observed and the batch in flight are gone. */
  lemma RestartResumes(w: World)
    requires Reachable(w) && w.core.aligned && w.core.state.Some? && w.core.state.value.pending.None?
    ensures var c, head := Next(w, Crash).core, w.core.state.value.published;
            && c.state == c.cursor == w.core.state && c.nums == w.core.nums
            && c.anchor == Some(head) && c.latest == Some(Outer(head.height, head.hash, false)) && !c.recoveryDrop
            && (c.aligned <==> Get(w.core.nums, head.height) == Some(head.hash))
            && c.batch.None? && c.schedule.observedAt.None? && !c.schedule.mature
  {
    hide Inv, Reachable;
    ReachableInv(w);
    OutAtHead(w);
    hide Started, Stored, Published, Observing, Beginning, Reading, Listing, Getting, Putting, DoneHeight, Finishing, WindowPutting, Finished,
         ProducerContract, Messages;
  }

  /** An aligned checker with nothing pending has its published head as the last message out. */
  lemma OutAtHead(w: World)
    requires Inv(w) && w.core.aligned && w.core.state.Some? && w.core.state.value.pending.None?
    ensures var head := w.core.state.value.published; w.outerTail == Some(Outer(head.height, head.hash, false))
    ensures w.core.cursor == w.core.state
  {
    hide ScheduleInv, BatchInv, WorkerInv, PutsInv, CoverInv, LiveBelowHeads, CursorBelowHeads, FirstNotice, SentPrefix, StoredNotice,
         UnalignedHeads, ValidState, Messages;
  }

  /** Once a notice's blocks are stored, its tail is indexed until the notice is over. */
  predicate TailIndexed(w: World) {
    w.main.Busy? && w.main.stored && |w.main.notice.news| > 0 ==>
      Get(w.core.nums, Tail(w.main.notice.news).num) == Some(Tail(w.main.notice.news).hash)
  }

  lemma TailStaysIndexed(w: World, step: Step)
    requires HeadsInv(w) && TailIndexed(w)
    ensures TailIndexed(Next(w, step))
  {
    hide HeadsInv, Messages, ValidState, MsgCheck, AlreadyProcessed, ProducerContract, Prepared, Written, Finished, BatchFinished, Covered,
         VerifyHeight, Reloaded, ValidPosition;
    if Enabled(w, step) {
      if step.StoreBlocks? {
        StoredTailIndexed(w, step.committed);
      } else if MainStep(step) {
        MainShrinks(w, step);
      }
    }
  }

  lemma StoredTailIndexed(w: World, committed: bool)
    requires HeadsInv(w) && Enabled(w, StoreBlocks(committed))
    ensures TailIndexed(Next(w, StoreBlocks(committed)))
  {
    hide Messages, ValidState, ProducerContract, Rewritten, Rewinds, Advanced, Started, Published, Finished, Observing, Beginning, Reading,
         Listing, Getting, Putting, DoneHeight, Finishing, WindowPutting, Reloaded, Linked, NonZero, DistinctHashes;
    var news := w.main.notice.news;
    ContractOfBusy(w);
    ContractNews(w.main.notice);
    WrittenFrame(w.core, news, committed);
    RewrittenAt(w.core.nums, news, Tail(news).num);
  }

  lemma ContractOfBusy(w: World)
    requires HeadsInv(w) && w.main.Busy?
    ensures ProducerContract(w.main.notice) && |w.main.notice.news| > 0
  {
  }

  lemma {:induction false} RunKeepsTail(states: seq<World>, steps: seq<Step>, i: nat)
    requires IsRun(states, steps) && i <= |steps|
    ensures TailIndexed(states[i])
  {
    hide Inv, Next, TailIndexed;
    if i == 0 {
      NoTailYet(states[0]);
    } else {
      RunKeepsTail(states, steps, i - 1);
      RunKeeps(states, steps, i - 1);
      InvHeads(states[i - 1]);
      TailStaysIndexed(states[i - 1], steps[i - 1]);
      assert states[i - 1 + 1] == Next(states[i - 1], steps[i - 1]);
    }
  }

  lemma NoTailYet(w: World)
    requires w.main.Idle?
    ensures TailIndexed(w)
  {
  }

  lemma InvHeads(w: World)
    requires Inv(w)
    ensures HeadsInv(w)
  {
  }

  /** A crash right after a publication costs nothing but the schedule: the checker comes back aligned. */
  lemma RestartAfterPublication(w: World, finished: bool)
    requires Reachable(w) && Enabled(w, Step.Complete(finished)) && Next(w, Step.Complete(finished)).main.Idle?
    ensures var c, c' := Next(w, Step.Complete(finished)).core, Next(Next(w, Step.Complete(finished)), Crash).core;
            c'.aligned && c'.state == c'.cursor == c.cursor && c'.nums == c.nums
  {
    hide Inv, Next, Initial;
    var states, steps :| IsRun(states, steps) && states[|steps|] == w;
    RunKeepsTail(states, steps, |steps|);
    var w1 := Next(w, Step.Complete(finished));
    EndingSaves(w, Step.Complete(finished));
    CompleteIsStep(w, finished);
    ReachesNext(w, Step.Complete(finished));
    RestartResumes(w1);
  }

  lemma CompleteIsStep(w: World, finished: bool)
    requires Enabled(w, Step.Complete(finished))
    ensures Next(w, Step.Complete(finished)).core.nums == w.core.nums && w.main.Busy? && w.main.stored
  {
    hide Messages, Started, Stored, Published, Observing, Beginning, Reading, Listing, Getting, Putting, DoneHeight, Finishing, WindowPutting,
         Reloaded, Finished, ProducerContract;
    FinishedFrame(w.core, w.main.position, finished);
  }
}
