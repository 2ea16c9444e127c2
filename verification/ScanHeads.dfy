/** Every step keeps the invariants about published heads, pending updates and the saved cursor. */
module ScanHeads {
  import opened Types
  import opened CanonicalIndex
  import opened ScanCore
  import opened ScanMachine
  import opened ScanInvariants

  lemma MessageAt(n: Notice, i: nat)
    requires i < |Messages(n)|
    ensures |Messages(n)| == |n.drops| + |n.news|
    ensures i < |n.drops| ==> Messages(n)[i].isFork && Messages(n)[i].hash == n.drops[|n.drops| - 1 - i].hash
    ensures i >= |n.drops| ==>
              var b := n.news[i - |n.drops|];
              Messages(n)[i] == Outer(b.num, b.hash, false)
  {
  }

  /** Messages of new blocks climb. */
  lemma NewsClimb(n: Notice, i: nat, j: nat)
    requires ProducerContract(n) && |n.drops| <= i <= j < |Messages(n)|
    ensures n.news[0].num <= Messages(n)[i].height <= Messages(n)[j].height
  {
    hide Messages, DistinctHashes, NonZero, Linked;
    MessageAt(n, i);
    MessageAt(n, j);
    LinkedAt(n.news, 0, i - |n.drops|);
    LinkedAt(n.news, i - |n.drops|, j - |n.drops|);
  }

  /** The write keeps the cursor valid and pulls it, and everything still trusted, below the first
      new block. */
  lemma WrittenBelow(c: Core, blocks: seq<Block>)
    requires |blocks| > 0 && Linked(blocks) && NonZero(blocks)
    requires c.state.Some? && ValidState(c.state.value)
    requires Rewinds(c.state.value, c.nums, blocks) ==> c.state.value.generation < MAX_U64
    ensures var s' := Advanced(c.state.value, c.nums, blocks);
            && ValidState(s') && s'.nextHeight <= blocks[0].num && s'.nextHeight <= c.state.value.nextHeight
            && s'.published == c.state.value.published && s'.baseline == c.state.value.baseline && s'.position == c.state.value.position
            && s'.pending == Some(AnchorOf(Tail(blocks))) && s'.generation >= c.state.value.generation
  {
    AtomicRewind(c.state.value, c.nums, blocks);
    var s, s' := c.state.value, Advanced(c.state.value, c.nums, blocks);
    if blocks[0].num <= s.published.height {
      assert Affected(s, c.nums, blocks, blocks[0].num);
    }
  }

  lemma HeadsStoreLive(w: World, h: u64)
    requires HeadsInv(w) && w.main.Busy? && ProducerContract(w.main.notice) && |w.main.notice.news| > 0
    requires w.core.state.Some? && Written(w.core, w.main.notice.news, true).1
    requires Live(Written(w.core, w.main.notice.news, true).0, h)
    ensures Live(w.core, h) && h < w.main.notice.news[0].num
  {
    hide Messages, ProducerContract, ValidState, ValidPosition, OffsetGap, AlignedHeads, CursorBelowHeads, LogFollows,
         FirstNotice, SentPrefix,
         StoredNotice, UnalignedHeads, NonZeroHeads, Rewritten, RunTop, Lowered;
    var c, news := w.core, w.main.notice.news;
    assert Live(c, h);
    var s' := Advanced(c.state.value, c.nums, news);
    if s'.generation == c.state.value.generation {
      assert !Rewinds(c.state.value, c.nums, news);
    }
  }

  lemma LiveDepends(c: Core, c': Core)
    requires c'.schedule == c.schedule && c'.batch == c.batch
    ensures forall h: u64 :: Live(c', h) <==> Live(c, h)
  {
  }

  lemma ContractNews(n: Notice)
    requires ProducerContract(n)
    ensures Linked(n.news) && NonZero(n.news) && DistinctHashes(n.news)
  {
  }

  lemma WrittenFacts(c: Core, blocks: seq<Block>)
    requires |blocks| > 0 && c.state.Some? && Written(c, blocks, true).1
    ensures Rewinds(c.state.value, c.nums, blocks) ==> c.state.value.generation < MAX_U64
    ensures var c' := Written(c, blocks, true).0;
            && c'.state == c'.cursor == Some(Advanced(c.state.value, c.nums, blocks))
            && c'.nums == Rewritten(c.nums, blocks)
            && c'.aligned == c.aligned && c'.anchor == c.anchor && c'.recoveryDrop == c.recoveryDrop && c'.latest == c.latest
  {
    hide Advanced, Rewritten, Rewinds, ValidState;
  }

  lemma OffsetGapDepends(s: ForkScanState, s': ForkScanState, a: Option<Anchor>, position: Option<Position>)
    requires s'.position == s.position && s'.published == s.published
    ensures a.Some? ==> OffsetGap(s', a.value, position) == OffsetGap(s, a.value, position)
  {
  }

  lemma HeadsStoredCursor(w: World, committed: bool)
    requires HeadsInv(w) && Enabled(w, StoreBlocks(committed)) && committed
    requires Written(w.core, w.main.notice.news, committed).1 && w.core.state.Some?
    ensures HeadsInv(Stored(w, committed))
  {
    hide Messages, ValidPosition, ProducerContract, Advanced, Rewritten, Rewinds, Written, ValidState, Live, Affected, OffsetGap;
    var w', news := Stored(w, committed), w.main.notice.news;
    ContractNews(w.main.notice);
    WrittenFacts(w.core, news);
    WrittenBelow(w.core, news);
    var s' := w'.core.state.value;
    OffsetGapDepends(w.core.state.value, s', w.core.anchor, w.main.position);
    forall h: u64 | Live(w'.core, h)
      ensures Live(w.core, h) && h < news[0].num
    {
      HeadsStoreLive(w, h);
    }
  }

  lemma HeadsStore(w: World, committed: bool)
    requires HeadsInv(w) && Enabled(w, StoreBlocks(committed))
    ensures HeadsInv(Stored(w, committed))
  {
    hide Messages, ValidPosition, ProducerContract, Advanced, Rewritten, OffsetGap, ValidState;
    var r := Written(w.core, w.main.notice.news, committed);
    if r.1 && w.core.state.Some? {
      HeadsStoredCursor(w, committed);
    } else if r.1 {
      LiveDepends(w.core, r.0);
    } else {
      HeadsGivenUp(w);
    }
  }

  /** The outer log grows by the next message. */
  lemma HeadsDelivered(w: World)
    requires HeadsInv(w) && w.main.Busy? && w.main.stored && w.main.cursor == w.sent < |Messages(w.main.notice)|
    ensures HeadsInv(w.(outerTail := Some(Messages(w.main.notice)[w.sent]), sent := w.sent + 1))
  {
    var n, i := w.main.notice, w.main.cursor;
    MessageAt(n, i);
    MessagesNonZero(n, i);
    if i >= |n.drops| { NewsClimb(n, i, i); }
  }

  /** A delivered message is passed, and a new block becomes the latest. */
  lemma HeadsPassed(w: World)
    requires HeadsInv(w) && w.main.Busy? && w.main.stored && w.main.cursor < w.sent && w.main.cursor < |Messages(w.main.notice)|
    ensures var m := Messages(w.main.notice)[w.main.cursor];
            HeadsInv(w.(main := w.main.(cursor := w.main.cursor + 1), core := if m.isFork then w.core else w.core.(latest := Some(m))))
  {
    hide HeadsInv, Messages;
    if Messages(w.main.notice)[w.main.cursor].isFork { HeadsPassedDrop(w); } else { HeadsPassedNew(w); }
  }

  lemma HeadsPassedDrop(w: World)
    requires HeadsInv(w) && w.main.Busy? && w.main.stored && w.main.cursor < w.sent && w.main.cursor < |Messages(w.main.notice)|
    requires Messages(w.main.notice)[w.main.cursor].isFork
    ensures HeadsInv(w.(main := w.main.(cursor := w.main.cursor + 1)))
  {
    hide Messages, ValidState, ValidPosition, OffsetGap, ProducerContract, Live;
    MessageAt(w.main.notice, w.main.cursor);
  }

  lemma HeadsPassedNew(w: World)
    requires HeadsInv(w) && w.main.Busy? && w.main.stored && w.main.cursor < w.sent && w.main.cursor < |Messages(w.main.notice)|
    requires !Messages(w.main.notice)[w.main.cursor].isFork
    ensures HeadsInv(w.(main := w.main.(cursor := w.main.cursor + 1),
         core := w.core.(latest := Some(Messages(w.main.notice)[w.main.cursor]))))
  {
    hide Messages, ValidState, ValidPosition, OffsetGap, ProducerContract, Live;
    var n, i := w.main.notice, w.main.cursor;
    var m := Messages(n)[i];
    MessageAt(n, i);
    MessagesNonZero(n, i);
    MessageAt(n, w.sent - 1);
    if m.hash == Tail(n.news).hash { PassedTail(n, i); }
    NewsClimb(n, i, i);
    NewsClimb(n, i, w.sent - 1);
    LiveDepends(w.core, w.core.(latest := Some(m)));
  }

  lemma SentAhead(w: World)
    requires HeadsInv(w) && w.main.Busy?
    ensures w.main.cursor <= w.sent && |w.main.notice.news| > 0
  {
  }

  /** Only the last message carries the tail's hash among the new blocks. */
  lemma PassedTail(n: Notice, i: nat)
    requires ProducerContract(n) && |n.news| > 0 && i < |Messages(n)|
    requires !Messages(n)[i].isFork && Messages(n)[i].hash == Tail(n.news).hash
    ensures i == |Messages(n)| - 1
  {
    MessageAt(n, i);
  }

  lemma HeadsGivenUp(w: World)
    requires HeadsInv(w) && w.main.Busy?
    ensures HeadsInv(w.(main := Retry(w.main.notice, w.main.position)))
  {
    hide Messages, ValidPosition, ProducerContract, OffsetGap, ValidState;
  }

  lemma HeadsPublish(w: World, written: bool, elsewhere: bool)
    requires HeadsInv(w) && Enabled(w, Publish(written, elsewhere))
    ensures HeadsInv(Published(w, written, elsewhere))
  {
    hide Messages, HeadsInv;
    var unsent := w.main.cursor >= w.sent;
    SentAhead(w);
    var w1 := w;
    if unsent && written {
      HeadsDelivered(w);
      w1 := w.(outerTail := Some(Messages(w.main.notice)[w.sent]), sent := w.sent + 1);
    }
    if (unsent && !written) || !elsewhere { HeadsGivenUp(w1); } else { HeadsPassed(w1); }
  }

  lemma MessagesNonZero(n: Notice, i: nat)
    requires ProducerContract(n) && i < |Messages(n)|
    ensures Messages(n)[i].hash != ZeroHash()
  {
    MessageAt(n, i);
  }

  /** A save of the published head passes validation and leaves an aligned checker. */
  lemma HeadsFinished(w: World, c: Core, position: Option<Position>, ok: bool)
    requires HeadsInv(w.(core := c)) && (position.Some? ==> ValidPosition(position.value))
    requires !w.main.Idle? ==> |w.main.notice.news| > 0 && AtTail(c.latest, w.main.notice)
    requires Finished(c, position, ok).1
    ensures HeadsInv(w.(core := Finished(c, position, ok).0, main := Idle))
  {
    hide HeadsInv;
    if c.state.Some? || c.latest.value.isFork { HeadsResaved(w, c, position, ok); } else { HeadsBaseline(w, c, position, ok); }
  }

  lemma HeadsResaved(w: World, c: Core, position: Option<Position>, ok: bool)
    requires HeadsInv(w.(core := c)) && (position.Some? ==> ValidPosition(position.value))
    requires !w.main.Idle? ==> |w.main.notice.news| > 0 && AtTail(c.latest, w.main.notice)
    requires Finished(c, position, ok).1 && (c.state.Some? || c.latest.value.isFork)
    ensures HeadsInv(w.(core := Finished(c, position, ok).0, main := Idle))
  {
    hide Messages, ProducerContract, OffsetGap, Live;
    var c' := Finished(c, position, ok).0;
    if !c.latest.value.isFork { LiveDepends(c, c'); }
  }

  lemma HeadsBaseline(w: World, c: Core, position: Option<Position>, ok: bool)
    requires HeadsInv(w.(core := c)) && (position.Some? ==> ValidPosition(position.value))
    requires !w.main.Idle? ==> |w.main.notice.news| > 0 && AtTail(c.latest, w.main.notice)
    requires Finished(c, position, ok).1 && c.state.None? && !c.latest.value.isFork
    ensures HeadsInv(w.(core := Finished(c, position, ok).0, main := Idle))
  {
    hide Messages, ProducerContract, OffsetGap;
  }

  lemma CompleteAtTail(w: World)
    requires HeadsInv(w) && w.main.Busy? && w.main.cursor == |Messages(w.main.notice)|
    ensures |w.main.notice.news| > 0 && AtTail(w.core.latest, w.main.notice)
    ensures w.main.position.Some? ==> ValidPosition(w.main.position.value)
  {
    hide Messages, OffsetGap, ValidState, ProducerContract, ValidPosition;
    MessageAt(w.main.notice, w.main.cursor - 1);
  }

  lemma HeadsComplete(w: World, finished: bool)
    requires HeadsInv(w) && Enabled(w, Complete(finished))
    ensures HeadsInv(Acted(w, Complete(finished)))
  {
    hide Messages, HeadsInv;
    CompleteAtTail(w);
    if Finished(w.core, w.main.position, finished).1 {
      assert w.(core := w.core) == w;
      HeadsFinished(w, w.core, w.main.position, finished);
    } else {
      HeadsGivenUp(w);
    }
  }

  // ---------------------------------------------------------------- taking the lock

  predicate MayStart(w: World, n: Notice, position: Option<Position>) {
    && |n.news| > 0 && ProducerContract(n) && (position.Some? ==> ValidPosition(position.value))
    && (w.main.Idle? || (w.main.Retry? && w.main.notice == n && w.main.position == position))
  }

  /** Unaligned, nothing has been observed and no batch runs. */
  lemma NothingLive(w: World)
    requires HeadsInv(w) && !w.core.aligned
    ensures forall h: u64 :: !Live(w.core, h)
  {
  }

  lemma RewoundLive(c: Core, height: u64, generation: u64)
    ensures forall h: u64 :: Live(Rewound(c, height, generation), h) ==> Live(c, h)
  {
  }

  /** A reset to the startup head happens only while that head is still the latest block. */
  lemma HeadsReset(w: World, n: Notice, position: Option<Position>, ok: bool)
    requires HeadsInv(w) && MayStart(w, n, position) && !w.core.aligned && w.core.anchor.Some?
    requires w.core.state.None? || OffsetGap(w.core.state.value, w.core.anchor.value, position)
    requires Initialized(w.core, w.core.anchor.value, None, ok).1
    ensures HeadsInv(w.(core := Initialized(w.core, w.core.anchor.value, None, ok).0))
  {
    hide Messages, ProducerContract, ValidPosition;
    NothingLive(w);
  }

  /** A replay that proves the missed transition leaves a cursor the published head allows. */
  lemma HeadsReconciled(w: World, n: Notice, position: Option<Position>, ok: bool)
    requires HeadsInv(w) && MayStart(w, n, position) && !w.core.aligned && w.core.anchor.Some? && w.core.state.Some?
    requires AlreadyProcessed(w.core, n) && NoticeExtends(n, w.core.state.value.published)
    requires Reconciled(w.core, n, w.core.anchor.value, ok).1
    ensures HeadsInv(w.(core := Reconciled(w.core, n, w.core.anchor.value, ok).0))
  {
    hide Messages, ProducerContract, ValidPosition, ReplayIndexed, OffsetGap, Live;
    NothingLive(w);
    ReplayTailAbove(w.core.nums, n.news);
    var r := Reconciled(w.core, n, w.core.anchor.value, ok).0;
    RewoundLive(w.core, n.news[0].num, r.schedule.generation);
    LiveDepends(r, if |n.drops| > 0 then Rewound(w.core, n.news[0].num, r.schedule.generation) else w.core);
  }

  lemma ReplayTailAbove(nums: Index, news: seq<Block>)
    requires |news| > 0 && ReplayIndexed(nums, news)
    ensures news[0].num <= Tail(news).num
  {
    LinkedAt(news, 0, |news| - 1);
  }

  lemma HeadsPrepared(w: World, n: Notice, position: Option<Position>, ok: bool)
    requires HeadsInv(w) && MayStart(w, n, position)
    ensures var r := Prepared(w.core, n, position, ok);
            && HeadsInv(w.(core := r.0))
            && (r.1 && !w.core.aligned && w.core.anchor.Some? ==>
                  r.0.state.Some? && !OffsetGap(r.0.state.value, w.core.anchor.value, position))
  {
    hide HeadsInv, Reconciled, Initialized, OffsetGap;
    var r := Prepared(w.core, n, position, ok);
    if r.0 == w.core {
      assert w.(core := r.0) == w;
    }
    if !w.core.aligned && w.core.anchor.Some? {
      ResetFacts(w.core, w.core.anchor.value, n, position, ok);
      if w.core.state.Some? && w.core.state.value.published != w.core.anchor.value && AlreadyProcessed(w.core, n)
         && NoticeExtends(n, w.core.state.value.published) {
        if r.1 { HeadsReconciled(w, n, position, ok); }
      } else if w.core.state.None? || OffsetGap(w.core.state.value, w.core.anchor.value, position) {
        if r.1 { HeadsReset(w, n, position, ok); }
      }
    }
  }

  /** After a reset or a reconciliation the saved head is the startup head, so no gap remains; a
      refused one changes nothing. */
  lemma ResetFacts(c: Core, a: Anchor, n: Notice, position: Option<Position>, ok: bool)
    requires |n.news| > 0
    ensures var r := Initialized(c, a, None, ok);
            if r.1 then r.0.state.Some? && !OffsetGap(r.0.state.value, a, position) else r.0 == c
    ensures c.state.Some? ==>
              var r := Reconciled(c, n, a, ok);
              if r.1 then r.0.state.Some? && !OffsetGap(r.0.state.value, a, position) else r.0 == c
  {
    hide ReplayIndexed, ValidState;
  }

  lemma HeadsRefused(w: World, n: Notice, position: Option<Position>)
    requires HeadsInv(w) && (position.Some? ==> ValidPosition(position.value))
    requires w.main.Idle? || (w.main.Retry? && w.main.notice == n && w.main.position == position)
    ensures HeadsInv(w.(main := Retry(n, position)))
  {
    hide Messages, ProducerContract, ValidPosition, OffsetGap, ValidState, Live;
  }

  lemma HeadsEntered(w: World, n: Notice, position: Option<Position>)
    requires HeadsInv(w) && MayStart(w, n, position)
    requires !AlreadyProcessed(w.core, n)
    requires !w.core.aligned && w.core.anchor.Some? ==>
               w.core.state.Some? && !OffsetGap(w.core.state.value, w.core.anchor.value, position)
    ensures HeadsInv(w.(main := Busy(n, position, false, 0), sentFor := Some(n), sent := if w.sentFor == Some(n) then w.sent else 0))
  {
    hide ProducerContract, ValidPosition, OffsetGap, ValidState, Live;
    assert |Messages(n)| > 0;
    hide Messages;
  }

  lemma HeadsStart(w: World, n: Notice, position: Option<Position>, saved: bool, aligned: bool, finished: bool)
    requires HeadsInv(w) && Enabled(w, Start(n, position, saved, aligned, finished))
    ensures HeadsInv(Started(w, n, position, saved, aligned, finished))
  {
    hide HeadsInv, Prepared, Finished, OffsetGap, ProducerContract, ValidPosition, Messages;
    if |n.news| == 0 {
      HeadsRefused(w, n, position);
    } else {
      var p := Prepared(w.core, n, position, saved);
      HeadsPrepared(w, n, position, saved);
      PreparedKeeps(w.core, n, position, saved);
      var w1 := w.(core := p.0);
      if AlreadyProcessed(w.core, n) {
        if p.1 && aligned && Finished(p.0, position, finished).1 {
          assert w1.(core := p.0) == w1;
          assert w1.main.Retry? ==> AtTail(p.0.latest, n);
          HeadsFinished(w1, p.0, position, finished);
        } else {
          FinishRefused(p.0, position, finished);
          HeadsRefused(w1, n, position);
        }
      } else if !MsgCheck(w.core, n) {
        HeadsRefused(w, n, position);
      } else if p.1 {
        HeadsEntered(w1, n, position);
      } else {
        HeadsRefused(w1, n, position);
      }
    }
  }

  lemma PreparedKeeps(c: Core, n: Notice, position: Option<Position>, ok: bool)
    requires |n.news| > 0
    ensures var c' := Prepared(c, n, position, ok).0;
            && c'.nums == c.nums && c'.latest == c.latest && c'.anchor == c.anchor && c'.aligned == c.aligned
            && c'.recoveryDrop == c.recoveryDrop
  {
    hide OffsetGap, ReplayIndexed, ValidState, NoticeExtends;
  }

  lemma FinishRefused(c: Core, position: Option<Position>, ok: bool)
    ensures !Finished(c, position, ok).1 ==> Finished(c, position, ok).0 == c
  {
  }

  // ---------------------------------------------------------------- the scan worker

  lemma HeadsObserve(w: World)
    requires HeadsInv(w) && Enabled(w, Observe)
    ensures HeadsInv(Observing(w))
  {
    hide Messages, ProducerContract, ValidPosition, OffsetGap, ValidState;
    var w' := Observing(w);
    if CanScan(w.core) {
      forall h: u64 | Live(w'.core, h)
        ensures Live(w.core, h) || h <= w.core.state.value.published.height
      {
      }
      assert w.outerTail == w.core.latest;
    }
  }

  lemma HeadsBegin(w: World)
    requires HeadsInv(w) && Enabled(w, BeginBatch)
    ensures HeadsInv(Beginning(w))
  {
    hide Messages, ProducerContract, ValidPosition, OffsetGap, ValidState;
    var w' := Beginning(w);
    if w'.worker.Scanning? {
      forall h: u64 | Live(w'.core, h)
        ensures Live(w.core, h) || h <= w.core.state.value.published.height
      {
      }
      assert w.outerTail == w.core.latest;
    }
  }

  lemma VerifiedMeans(c: Core, height: u64, hash: Hash)
    requires VerifyHeight(c, height, hash).None?
    ensures c.state.Some? && c.aligned && c.batch.Some? && c.state.value.nextHeight == c.batch.value.start
    ensures Get(c.nums, height) == Some(hash) && height <= c.state.value.published.height && !StaleAt(c.batch.value, height)
  {
  }

  /** The checkpoint of a batch moves only the cursor, to one past its last verified height. */
  lemma BatchFinishedFacts(c: Core, checked: seq<Anchor>, live: bool, ok: bool)
    requires forall i :: 0 <= i < |checked| ==> checked[i].height < MAX_U64
    requires c.state == c.cursor
    ensures var c' := BatchFinished(c, checked, live, ok);
            var n := VerifiedPrefix(c, checked);
            && c' == c.(batch := None, state := c'.state, cursor := c'.state)
            && (c'.state != c.state ==>
                  && n > 0 && c.state.Some? && c.aligned && c.batch.Some?
                  && c'.state == Some(c.state.value.(nextHeight := checked[n - 1].height + 1))
                  && ValidState(c'.state.value)
                  && c.state.value.nextHeight == c.batch.value.start
                  && (forall i :: 0 <= i < n ==>
                        && Get(c.nums, checked[i].height) == Some(checked[i].hash)
                        && checked[i].height <= c.state.value.published.height
                        && !StaleAt(c.batch.value, checked[i].height)))
  {
    hide ValidState, VerifyHeight;
    var n := VerifiedPrefix(c, checked);
    forall i | 0 <= i < n
      ensures c.state.Some? && c.aligned && c.batch.Some? && c.state.value.nextHeight == c.batch.value.start
      ensures Get(c.nums, checked[i].height) == Some(checked[i].hash) && checked[i].height <= c.state.value.published.height
      ensures !StaleAt(c.batch.value, checked[i].height)
    {
      VerifiedMeans(c, checked[i].height, checked[i].hash);
    }
    if n > 0 { VerifiedMeans(c, checked[0].height, checked[0].hash); }
  }

  lemma HeadsFinish(w: World, live: bool, committed: bool)
    requires HeadsInv(w) && WorkerInv(w) && Enabled(w, FinishBatch(live, committed))
    ensures HeadsInv(Finishing(w, live, committed))
  {
    hide Messages, ProducerContract, ValidPosition, ValidState, BatchFinished, VerifiedPrefix, Covered, OffsetGap, ScanOk,
         ProgressOk, VerifyHeight;
    var w' := Finishing(w, live, committed);
    var b := w.core.batch.value;
    var checked := Checked(b.start, w.worker.done);
    BatchFinishedFacts(w.core, checked, live, committed);
    if w'.core.state != w.core.state {
      var n := VerifiedPrefix(w.core, checked);
      assert checked[n - 1].height == b.start + n - 1 <= b.upper;
      assert Live(w.core, checked[n - 1].height);
    }
    forall h: u64 | Live(w'.core, h) ensures Live(w.core, h) {
    }
  }

  lemma HeadsCrash(w: World)
    requires HeadsInv(w)
    ensures HeadsInv(Acted(w, Crash))
  {
    hide Messages, ProducerContract, ValidPosition, ValidState;
  }

  lemma HeadsDepends(w: World, w': World)
    requires HeadsInv(w)
    requires w'.core == w.core && w'.main == w.main && w'.outerTail == w.outerTail && w'.sentFor == w.sentFor && w'.sent == w.sent
    ensures HeadsInv(w')
  {
    hide Messages, ProducerContract, ValidPosition, ValidState, OffsetGap, Live, TailPending;
  }

  /** Steps of other writers, the clock and the worker's reads touch nothing of this. */
  lemma HeadsElsewhere(w: World, step: Step)
    requires HeadsInv(w) && Enabled(w, step)
    requires step.OtherPut? || step.Tick? || step.ReadHeight? || step.ListHeight? || step.GetObject?
             || step.PutObject? || step.HeightDone? || step.WindowPut?
    ensures HeadsInv(Acted(w, step)) && Acted(w, step).core == w.core && Acted(w, step).main == w.main
  {
    hide HeadsInv, VerifyHeight;
    HeadsDepends(w, Acted(w, step));
  }

  /** Every step keeps them. */
  lemma HeadsStep(w: World, step: Step)
    requires HeadsInv(w) && WorkerInv(w) && Enabled(w, step)
    ensures HeadsInv(Acted(w, step))
  {
    hide HeadsInv, WorkerInv;
    match step
    case Start(n, position, saved, aligned, finished) => HeadsStart(w, n, position, saved, aligned, finished);
    case StoreBlocks(committed) => HeadsStore(w, committed);
    case Publish(written, elsewhere) => HeadsPublish(w, written, elsewhere);
    case GiveUp => HeadsGivenUp(w);
    case Complete(finished) => HeadsComplete(w, finished);
    case Observe => HeadsObserve(w);
    case BeginBatch => HeadsBegin(w);
    case FinishBatch(live, committed) => HeadsFinish(w, live, committed);
    case Crash => HeadsCrash(w);
    case _ => HeadsElsewhere(w, step);
  }
}
