/** The invariants of the protocol, in four groups: heads and checkpoints, observations and the
    batch in flight, covered heights, and object writes. */
module ScanInvariants {
  import opened Types
  import opened CanonicalIndex
  import opened ScanCore
  import opened ScanMachine

  // ---------------------------------------------------------------- history

  predicate Logged(w: World) {
    |w.log| > 0 && w.log[|w.log| - 1] == SnapOf(w)
  }

  /** The mapping at a height has been the same in every state since step `from`. */
  ghost predicate Steady(log: seq<Snap>, from: nat, h: u64) {
    from < |log| && forall t :: from <= t < |log| ==> Get(log[t].nums, h) == Get(log[from].nums, h)
  }

  /** A head at or above the height was published at step `from`, and the mapping has not moved since. */
  ghost predicate RipeSince(log: seq<Snap>, from: nat, h: u64) {
    Steady(log, from, h) && log[from].published.Some? && h <= log[from].published.value.height
  }

  // ---------------------------------------------------------------- heads

  /** Heights whose observation or scan is still trusted. */
  predicate Live(c: Core, h: u64) {
    || (c.schedule.observedAt.Some? && h <= c.schedule.observedHeight)
    || (c.batch.Some? && c.batch.value.start <= h <= c.batch.value.upper && !StaleAt(c.batch.value, h))
  }

  predicate TailPending(s: Option<ForkScanState>, n: Notice) {
    s.Some? && |n.news| > 0 && s.value.pending == Some(AnchorOf(Tail(n.news)))
  }

  predicate NonZeroHeads(w: World) {
    && (w.core.anchor.Some? ==> w.core.anchor.value.hash != ZeroHash())
    && (w.core.latest.Some? ==> w.core.latest.value.hash != ZeroHash())
    && (w.outerTail.Some? ==> w.outerTail.value.hash != ZeroHash())
  }

  /** An aligned checker knows its published head: while nothing is pending it is the latest block. */
  predicate AlignedHeads(c: Core) {
    && (c.aligned ==>
          && c.state.Some? && c.latest.Some? && !c.latest.value.isFork
          && (c.state.value.pending.None? ==> c.state.value.published == HeadOf(c.latest.value)))
    && (c.recoveryDrop ==> c.anchor.None?)
  }

  ghost predicate LiveBelowHeads(w: World) {
    forall h: u64 :: Live(w.core, h) ==>
      && w.core.aligned && w.core.state.Some? && h <= w.core.state.value.published.height
      && w.core.latest.Some? && h <= w.core.latest.value.height
      && (w.outerTail.Some? && !w.outerTail.value.isFork ==> h <= w.outerTail.value.height)
  }

  /** The cursor is at most one past the latest block, and past whatever a restart would find. */
  predicate CursorBelowHeads(w: World) {
    w.core.state.Some? ==>
      && (w.core.latest.Some? && !w.core.latest.value.isFork ==> w.core.state.value.nextHeight <= w.core.latest.value.height + 1)
      && (w.outerTail.Some? && !w.outerTail.value.isFork ==> w.core.state.value.nextHeight <= w.outerTail.value.height + 1)
  }

  predicate AtTail(o: Option<Outer>, n: Notice)
    requires |n.news| > 0
  {
    o.Some? && o.value.hash == Tail(n.news).hash
  }

  /** The latest block is what the outer log ends with, except while a notice is part of the way out;
      its tail is pending until it is all out. */
  predicate LogFollows(w: World) {
    || w.outerTail == w.core.latest
    || (&& !w.main.Idle? && w.sentFor == Some(w.main.notice) && w.sent > 0 && |w.main.notice.news| > 0
        && (w.core.state.Some? ==> TailPending(w.core.state, w.main.notice))
        && (AtTail(w.core.latest, w.main.notice) ==>
              w.sent == |Messages(w.main.notice)| && w.core.latest == Some(Messages(w.main.notice)[w.sent - 1])))
  }

  /** Without a cursor and without a head at startup, a latest block comes from the notice in hand. */
  predicate FirstNotice(w: World) {
    w.core.state.None? && w.core.anchor.None? && w.core.latest.Some? && !w.core.latest.value.isFork ==>
      && !w.main.Idle? && w.sentFor == Some(w.main.notice)
      && exists j :: |w.main.notice.drops| <= j < w.sent && j < |Messages(w.main.notice)| &&
          w.core.latest.value == Messages(w.main.notice)[j]
  }

  predicate SentPrefix(w: World) {
    && (w.sentFor.Some? ==> ProducerContract(w.sentFor.value) && w.sent <= |Messages(w.sentFor.value)|)
    && (w.sentFor.Some? && w.sent > 0 ==> w.outerTail == Some(Messages(w.sentFor.value)[w.sent - 1]))
    && (w.main.Retry? && w.main.position.Some? ==> ValidPosition(w.main.position.value))
    && (w.main.Busy? ==>
          && w.sentFor == Some(w.main.notice) && |w.main.notice.news| > 0
          && w.main.cursor <= w.sent && (!w.main.stored ==> w.main.cursor == 0)
          && (if w.main.cursor < |Messages(w.main.notice)| then !AtTail(w.core.latest, w.main.notice)
              else w.sent == |Messages(w.main.notice)| > 0 && w.core.latest == Some(Messages(w.main.notice)[w.sent - 1]))
          && (w.main.position.Some? ==> ValidPosition(w.main.position.value)))
  }

  /** Once stored, a notice's tail is pending and nothing trusted reaches its first new block. */
  ghost predicate StoredNotice(w: World) {
    w.main.Busy? && w.main.stored && w.core.state.Some? ==>
      && TailPending(w.core.state, w.main.notice)
      && w.core.state.value.nextHeight <= w.main.notice.news[0].num
      && forall h: u64 :: Live(w.core, h) ==> h < w.main.notice.news[0].num
  }

  /** Before alignment the latest block and the outer log are still as found at startup, unless the
      notice in hand has been published in part; then nothing can replace the cursor. */
  predicate UnalignedHeads(w: World) {
    !w.core.aligned && w.core.anchor.Some? ==>
      var a := w.core.anchor.value;
      || (&& w.core.latest == Some(Outer(a.height, a.hash, false)) && w.outerTail == w.core.latest
          && (w.main.Busy? ==> CannotReset(w, a)))
      || (!w.main.Idle? && CannotReset(w, a) && TailPending(w.core.state, w.main.notice))
  }

  predicate CannotReset(w: World, a: Anchor)
    requires !w.main.Idle?
  {
    && w.core.state.Some? && !OffsetGap(w.core.state.value, a, w.main.position)
    && |w.main.notice.news| > 0 && Tail(w.main.notice.news).hash != a.hash
  }

  ghost predicate HeadsInv(w: World) {
    && w.core.state == w.core.cursor
    && (w.core.state.Some? ==> ValidState(w.core.state.value))
    && NonZeroHeads(w) && AlignedHeads(w.core) && LiveBelowHeads(w)
    && CursorBelowHeads(w) && LogFollows(w) && FirstNotice(w) && SentPrefix(w) && StoredNotice(w) && UnalignedHeads(w)
  }

  // ---------------------------------------------------------------- observations and the batch in flight

  ghost predicate ScheduleInv(w: World) {
    var s := w.core.schedule;
    && (s.observedAt.Some? ==>
          && w.obsStep < |w.log| && w.log[w.obsStep].clock == s.observedAt.value
          && forall h: u64 :: h <= s.observedHeight ==> RipeSince(w.log, w.obsStep, h))
    && (s.mature ==>
          && s.observedAt.Some? && s.matureHeight <= s.observedHeight
          && w.matureStep < |w.log| && w.log[w.matureStep].clock + w.interval <= w.clock
          && forall h: u64 :: h <= s.matureHeight ==> RipeSince(w.log, w.matureStep, h))
  }

  ghost predicate BatchInv(w: World) {
    && (w.core.batch.Some? <==> w.worker.Scanning?)
    && (w.worker.Ready? ==>
          && w.core.state.Some? && w.worker.generation <= w.core.state.value.generation
          && (w.worker.generation == w.core.state.value.generation ==>
                w.core.schedule.mature && w.worker.upper <= w.core.schedule.matureHeight))
    && (w.core.batch.Some? ==>
          var b := w.core.batch.value;
          && w.ripe <= w.begun < |w.log| && w.log[w.ripe].clock + w.interval <= w.log[w.begun].clock
          && forall h: u64 :: b.start <= h <= b.upper && !StaleAt(b, h) ==> RipeSince(w.log, w.ripe, h))
  }

  /** A mark was right, against `hash`, at some step after the listing. */
  ghost predicate SettledOk(log: seq<Snap>, listedAt: nat, height: u64, hash: Hash, key: Hash, at: nat) {
    && listedAt <= at < |log|
    && (height, key) in log[at].objects && log[at].objects[(height, key)] == (key != hash)
  }

  /** A listing gave all objects stored at the height in one state after the batch began. */
  ghost predicate ListedOk(log: seq<Snap>, begun: nat, height: u64, listed: set<Hash>, at: nat) {
    begun <= at < |log| && forall k :: k in listed <==> (height, k) in log[at].objects
  }

  ghost predicate ScanOk(log: seq<Snap>, begun: nat, height: u64, scan: HeightScan) {
    && scan.hash in scan.listed && ListedOk(log, begun, height, scan.listed, scan.listedAt)
    && forall k :: k in scan.listed ==> k in scan.settled && SettledOk(log, scan.listedAt, height, scan.hash, k, scan.settled[k])
  }

  ghost predicate ProgressOk(log: seq<Snap>, begun: nat, height: u64, p: Progress) {
    p.Working? ==>
      && p.hash in p.listed && p.todo <= p.listed && p.plan <= p.listed
      && ListedOk(log, begun, height, p.listed, p.listedAt)
      && forall k :: k in p.listed && k !in p.todo && k !in p.plan ==>
           k in p.settled && SettledOk(log, p.listedAt, height, p.hash, k, p.settled[k])
  }

  ghost predicate WorkerInv(w: World) {
    w.worker.Scanning? && w.core.batch.Some? ==>
      var b := w.core.batch.value;
      && (|w.worker.done| > 0 ==> b.start + |w.worker.done| <= b.upper + 1) && b.start + |w.worker.done| <= MAX_U64
      && (!w.worker.now.AtRead? ==> b.start + |w.worker.done| <= b.upper && b.start + |w.worker.done| < MAX_U64)
      && (forall i :: 0 <= i < |w.worker.done| ==> ScanOk(w.log, w.begun, b.start + i, w.worker.done[i]))
      && (!w.worker.now.AtRead? ==> ProgressOk(w.log, w.begun, b.start + |w.worker.done|, w.worker.now))
  }

  // ---------------------------------------------------------------- covered heights and object writes

  /** The height was published a full interval before the scan that covered it began; in every state
      since that observation it has mapped to the hash it was scanned against; and every object listed
      was seen or put right, against that hash, after the batch began. */
  ghost predicate CoveredBy(w: World, x: u64, c: Cover) {
    && c.ripe <= c.begun < |w.log| && w.log[c.ripe].clock + w.interval <= w.log[c.begun].clock
    && RipeSince(w.log, c.ripe, x)
    && Get(w.core.nums, x) == Some(c.scan.hash)
    && ScanOk(w.log, c.begun, x, c.scan)
  }

  ghost predicate CoverInv(w: World) {
    w.core.cursor.Some? ==>
      forall x: u64 :: w.core.cursor.value.baseline.height < x < w.core.cursor.value.nextHeight ==>
        x in w.cover && CoveredBy(w, x, w.cover[x])
  }

  ghost predicate PutOk(w: World, p: ScanPut) {
    && p.step < |w.log|
    && Get(w.log[p.step].nums, p.height).Some?
    && p.isFork == (p.key != w.log[p.step].nums[p.height])
    && (p.height, p.key) in w.log[p.step].objects && w.log[p.step].objects[(p.height, p.key)] == p.isFork
  }

  ghost predicate PutsInv(w: World) {
    forall i :: 0 <= i < |w.puts| ==> PutOk(w, w.puts[i])
  }

  ghost predicate Inv(w: World) {
    Logged(w) && HeadsInv(w) && ScheduleInv(w) && BatchInv(w) && WorkerInv(w) && CoverInv(w) && PutsInv(w)
  }
}
