/** The checker's scan state and every section that changes it under the processing lock, as
    functions from state to state. `ok` arguments say whether the store accepts the commit. */
module ScanCore {
  import opened Types
  import opened CanonicalIndex

  datatype ScanError = NoCanonical | Stale | AlreadyActive

  /** One scan in flight. `rewind` is the lowest height a write has touched since it began. */
  datatype Batch = Batch(start: u64, upper: u64, generation: u64, rewind: Option<u64>)

  /** One observation of the published head waits a full interval before it matures. */
  datatype Schedule = Schedule(generation: u64, observedAt: Option<int>, observedHeight: u64, matureHeight: u64, mature: bool)

  /** `nums` and `cursor` survive a crash; the rest does not. `state` is the copy of the cursor in
      memory, `anchor` and `recoveryDrop` describe the outer tail found at startup. */
  datatype Core = Core(
    nums: Index,
    cursor: Option<ForkScanState>,
    state: Option<ForkScanState>,
    aligned: bool,
    anchor: Option<Anchor>,
    recoveryDrop: bool,
    schedule: Schedule,
    batch: Option<Batch>,
    latest: Option<Outer>)

  function FreshSchedule(generation: u64): Schedule {
    Schedule(generation, None, 0, 0, false)
  }

  function HeadOf(o: Outer): Anchor {
    Anchor(o.height, o.hash)
  }

  predicate StaleAt(b: Batch, h: u64) {
    b.rewind.Some? && h >= b.rewind.value
  }

  // ---------------------------------------------------------------- startup and saving

  /** The state after a start on a retained store whose outer topic ends with `tail`. */
  function Reloaded(nums: Index, cursor: Option<ForkScanState>, tail: Option<Outer>): Core {
    var anchor := if tail.Some? && !tail.value.isFork then Some(HeadOf(tail.value)) else None;
    var aligned :=
      && cursor.Some? && cursor.value.pending.None? && anchor == Some(cursor.value.published)
      && Get(nums, cursor.value.published.height) == Some(cursor.value.published.hash);
    Core(nums, cursor, cursor, aligned, anchor, tail.Some? && tail.value.isFork, FreshSchedule(0), None, tail)
  }

  function Saved(c: Core, s: ForkScanState, ok: bool): (Core, bool) {
    if ok && ValidState(s) then (c.(cursor := Some(s), state := Some(s)), true) else (c, false)
  }

  // ---------------------------------------------------------------- rewinds

  function RewoundSchedule(s: Schedule, height: u64, generation: u64): Schedule {
    if height == 0 then FreshSchedule(generation)
    else s.(generation := generation, observedHeight := Min(s.observedHeight, height - 1), matureHeight := Min(s.matureHeight, height - 1))
  }

  function Fenced(b: Batch, height: u64): Batch {
    if b.rewind.None? || height < b.rewind.value then b.(rewind := Some(height)) else b
  }

  function Rewound(c: Core, height: u64, generation: u64): Core {
    c.(schedule := RewoundSchedule(c.schedule, height, generation),
       batch := if c.batch.Some? then Some(Fenced(c.batch.value, height)) else None)
  }

  /** The canonical write of a notice's new blocks. */
  function Written(c: Core, blocks: seq<Block>, ok: bool): (Core, bool)
    requires |blocks| > 0
  {
    if !ok then (c, false)
    else if c.state.None? then (c.(nums := Rewritten(c.nums, blocks)), true)
    else
      var s := c.state.value;
      if Rewinds(s, c.nums, blocks) && s.generation == MAX_U64 then (c, false)
      else
        var next := Advanced(s, c.nums, blocks);
        if !ValidState(next) then (c, false)
        else
          var rewound := if next.generation != s.generation then Rewound(c, blocks[0].num, next.generation) else c;
          (rewound.(nums := Rewritten(c.nums, blocks), cursor := Some(next), state := Some(next)), true)
  }

  // ---------------------------------------------------------------- recovery and publication checkpoints

  function Initialized(c: Core, anchor: Anchor, position: Option<Position>, ok: bool): (Core, bool) {
    if anchor.height == MAX_U64 then (c, false)
    else if c.state.Some? && c.state.value.generation == MAX_U64 then (c, false)
    else
      var generation: u64 := if c.state.Some? then c.state.value.generation + 1 else 1;
      var saved := Saved(c, ForkScanState(1, anchor, anchor.height + 1, generation, anchor, position, None), ok);
      if saved.1 then (Rewound(saved.0, 0, generation), true) else (c, false)
  }

  predicate AlreadyProcessed(c: Core, n: Notice) {
    c.latest.Some? && |n.news| > 0 && Tail(n.news).hash == c.latest.value.hash
  }

  predicate MsgCheck(c: Core, n: Notice)
    requires |n.news| > 0
  {
    c.latest.Some? ==>
      if |n.drops| > 0 then Tail(n.drops).hash == c.latest.value.hash
      else n.news[0].parent == c.latest.value.hash
  }

  /** The notice is the transition from a saved head. */
  predicate NoticeExtends(n: Notice, head: Anchor) {
    && |n.news| > 0
    && if |n.drops| == 0 then head.height < MAX_U64 && n.news[0].num == head.height + 1 && n.news[0].parent == head.hash
       else AnchorOf(Tail(n.drops)) == head
            && n.drops[0].num == n.news[0].num && n.drops[0].parent == n.news[0].parent
  }

  predicate ReplayIndexed(nums: Index, news: seq<Block>) {
    && Linked(news)
    && forall i :: 0 <= i < |news| ==> Get(nums, news[i].num) == Some(news[i].hash)
  }

  /** A published transition the cursor missed is proved from its replay, and the cursor pulled
      back to its first new block when it dropped any. */
  function Reconciled(c: Core, n: Notice, anchor: Anchor, ok: bool): (Core, bool)
    requires c.state.Some? && |n.news| > 0
  {
    var s := c.state.value;
    if s.pending.Some? && s.pending.value != anchor then (c, false)
    else if !ReplayIndexed(c.nums, n.news) || AnchorOf(Tail(n.news)) != anchor then (c, false)
    else if |n.drops| > 0 then
      if s.generation == MAX_U64 then (c, false)
      else
        var next := s.(generation := s.generation + 1, nextHeight := Min(s.nextHeight, n.news[0].num), published := anchor,
             pending := None);
        var saved := Saved(c, next, ok);
        if saved.1 then (Rewound(saved.0, n.news[0].num, next.generation), true) else (c, false)
    else Saved(c, s.(published := anchor, pending := None), ok)
  }

  /** Offsets in one partition that skipped messages, with a startup head other than the saved one. */
  predicate OffsetGap(s: ForkScanState, anchor: Anchor, position: Option<Position>) {
    && s.position.Some? && position.Some?
    && s.position.value.topic == position.value.topic && s.position.value.partition == position.value.partition
    && position.value.offset > s.position.value.offset + 1
    && s.published != anchor
  }

  function Prepared(c: Core, n: Notice, position: Option<Position>, ok: bool): (Core, bool)
    requires |n.news| > 0
  {
    if c.aligned || c.anchor.None? then (c, true)
    else if c.state.Some? && c.state.value.published != c.anchor.value && AlreadyProcessed(c, n)
         && NoticeExtends(n, c.state.value.published) then
      Reconciled(c, n, c.anchor.value, ok)
    else if c.state.None? || OffsetGap(c.state.value, c.anchor.value, position) then
      Initialized(c, c.anchor.value, None, ok)
    else (c, true)
  }

  /** The published head becomes the saved one; a pending update ends only at its own tail. */
  function Finished(c: Core, position: Option<Position>, ok: bool): (Core, bool) {
    if c.latest.None? then (c, false)
    else if c.latest.value.isFork then (c, c.recoveryDrop)
    else
      var anchor := HeadOf(c.latest.value);
      var r :=
        if c.state.None? then Initialized(c, anchor, position, ok)
        else
          var s := c.state.value;
          Saved(c, s.(published := anchor,
                      pending := if s.pending == Some(anchor) then None else s.pending,
                      position := if position.Some? then position else s.position), ok);
      if r.1 then (r.0.(aligned := true, recoveryDrop := false), true) else (c, false)
  }

  // ---------------------------------------------------------------- the scan worker's locked sections

  function ObservedSchedule(s: Schedule, now: int, interval: nat, height: u64, generation: u64): Schedule {
    var s := if s.generation != generation then FreshSchedule(generation) else s;
    if s.observedAt.None? then s.(observedAt := Some(now), observedHeight := height)
    else if now - s.observedAt.value >= interval then
      s.(matureHeight := s.observedHeight, mature := true, observedAt := Some(now), observedHeight := height)
    else s
  }

  predicate CanScan(c: Core) {
    c.aligned && c.state.Some? && c.state.value.pending.None?
  }

  /** The schedule after an observation, and the range it allows, if any. */
  function Observed(c: Core, now: int, interval: nat): (Core, Option<(u64, u64)>) {
    if !CanScan(c) then (c, None)
    else
      var s := c.state.value;
      var schedule := ObservedSchedule(c.schedule, now, interval, s.published.height, s.generation);
      (c.(schedule := schedule),
       if schedule.mature && s.nextHeight <= schedule.matureHeight then Some((schedule.matureHeight, s.generation)) else None)
  }

  function Begun(c: Core, upper: u64, generation: u64): (Core, Option<ScanError>) {
    if !CanScan(c) then (c, Some(NoCanonical))
    else if c.batch.Some? then (c, Some(AlreadyActive))
    else
      var s := c.state.value;
      if generation != s.generation && (c.schedule.generation != s.generation || !c.schedule.mature) then (c, Some(Stale))
      else
        var top := if generation != s.generation then Min(upper, c.schedule.matureHeight) else upper;
        (c.(batch := Some(Batch(s.nextHeight, Min(top, s.published.height), s.generation, None))), None)
  }

  /** What makes one scanned height unusable. */
  function VerifyHeight(c: Core, height: u64, hash: Hash): Option<ScanError> {
    if c.batch.None? || !c.aligned || c.state.None? || c.state.value.nextHeight != c.batch.value.start
       || StaleAt(c.batch.value, height) then Some(Stale)
    else if c.state.value.generation != c.batch.value.generation && c.batch.value.rewind.None? then Some(Stale)
    else if height > c.state.value.published.height then Some(NoCanonical)
    else if Get(c.nums, height).None? then Some(NoCanonical)
    else if Get(c.nums, height) != Some(hash) then Some(Stale)
    else None
  }

  /** How many of the checked heights, from the first on, still hold. */
  function VerifiedPrefix(c: Core, checked: seq<Anchor>): (n: nat)
    ensures n <= |checked|
    ensures forall i :: 0 <= i < n ==> VerifyHeight(c, checked[i].height, checked[i].hash).None?
    ensures n < |checked| ==> VerifyHeight(c, checked[n].height, checked[n].hash).Some?
  {
    if |checked| == 0 || VerifyHeight(c, checked[0].height, checked[0].hash).Some? then 0
    else 1 + VerifiedPrefix(c, checked[1..])
  }

  /** Ends a batch: the verified prefix is checkpointed, everything else repeated later. `live`
      says the request context has not been cancelled. */
  function BatchFinished(c: Core, checked: seq<Anchor>, live: bool, ok: bool): Core
    requires forall i :: 0 <= i < |checked| ==> checked[i].height < MAX_U64
  {
    var n := VerifiedPrefix(c, checked);
    if !live || n == 0 then c.(batch := None)
    else Saved(c, c.state.value.(nextHeight := checked[n - 1].height + 1), ok).0.(batch := None)
  }
}
