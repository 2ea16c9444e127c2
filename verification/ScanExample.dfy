/** A run that gets somewhere: two notices, two observations and one batch, after which a height is
    covered. The promises over reachable states are therefore not empty. */
module ScanExample {
  import opened Types
  import opened CanonicalIndex
  import opened ScanCore
  import opened ScanMachine
  import opened ScanInvariants
  import opened ScanTheorems

  lemma ReachesInitial(w: World)
    requires Initial(w)
    ensures Reachable(w)
  {
    var none: seq<Step> := [];
    assert IsRun([w], none) && [w][|none|] == w;
  }

  /** One new block on top of the latest one, which nothing in the index contradicts. */
  predicate Simple(c: Core, b: Block) {
    && b.hash != ZeroHash() && b.num < MAX_U64 && c.anchor.None? && c.batch.None?
    && (c.latest.Some? ==> b.parent == c.latest.value.hash && b.hash != c.latest.value.hash)
    && b.num !in c.nums && b.num + 1 !in c.nums
    && (c.state.Some? ==> c.aligned && ValidState(c.state.value) && c.state.value.pending.None? && c.state.value.published.height < b.num
                          && c.state == c.cursor)
  }

  function OneBlock(b: Block): Notice {
    Notice([], [b])
  }

  function Round(w: World, b: Block): World {
    Next(Next(Next(Next(w, Start(OneBlock(b), None, true, true, true)), StoreBlocks(true)), Publish(true, true)), Complete(true))
  }

  lemma RoundReaches(w: World, b: Block)
    requires Reachable(w)
    ensures Reachable(Round(w, b))
  {
    hide Next, Reachable;
    var w1 := Next(w, Start(OneBlock(b), None, true, true, true));
    var w2 := Next(w1, StoreBlocks(true));
    var w3 := Next(w2, Publish(true, true));
    ReachesNext(w, Start(OneBlock(b), None, true, true, true));
    ReachesNext(w1, StoreBlocks(true));
    ReachesNext(w2, Publish(true, true));
    ReachesNext(w3, Complete(true));
  }

  lemma SimpleWrite(c: Core, b: Block)
    requires Simple(c, b)
    ensures Rewritten(c.nums, [b]) == c.nums[b.num := b.hash]
    ensures c.state.Some? ==>
          !Rewinds(c.state.value, c.nums, [b]) && Lowered(c.state.value.nextHeight, c.nums, [b]) == c.state.value.nextHeight
    ensures RunTop(c.nums, b.num) == b.num
  {
    var top := RunTop(c.nums, b.num);
    assert top == b.num by { if top > b.num { assert false; } }
    assert [b][..0] == [];
    assert SetAll(c.nums, [b]) == c.nums[b.num := b.hash] by { assert SetAll(c.nums, []) == c.nums; }
    if c.state.Some? {
      assert Lowered(c.state.value.nextHeight, c.nums, []) == c.state.value.nextHeight;
    }
  }

  /** Everything outside the state and the main flow. */
  predicate Apart(w: World, w': World) {
    w'.worker == w.worker && w'.objects == w.objects && w'.clock == w.clock && w'.interval == w.interval
  }

  lemma RoundStarts(w: World, b: Block)
    requires w.main.Idle? && Simple(w.core, b) && w.sentFor != Some(OneBlock(b))
    ensures var w' := Next(w, Start(OneBlock(b), None, true, true, true));
            Apart(w, w') && w'.main == Busy(OneBlock(b), None, false, 0) && w'.core == w.core &&
                w'.sentFor == Some(OneBlock(b)) && w'.sent == 0
  {
    hide Stored, Published, Finished, Observing, Beginning, Reading, Listing, Getting, Putting, DoneHeight, Finishing,
         WindowPutting, Reloaded, Initialized, Reconciled;
    assert Started(w, OneBlock(b), None, true, true, true).core == w.core;
  }

  /** The state after the write. */
  function WithBlock(c: Core, b: Block): Core {
    var s := if c.state.Some? then Some(c.state.value.(pending := Some(AnchorOf(b)))) else None;
    c.(nums := c.nums[b.num := b.hash], state := s, cursor := if c.state.Some? then s else c.cursor)
  }

  lemma WriteSimple(c: Core, b: Block)
    requires Simple(c, b)
    ensures Written(c, [b], true) == (WithBlock(c, b), true)
  {
    SimpleWrite(c, b);
    hide Rewritten, Rewinds, RunTop, Lowered;
    if c.state.Some? { assert ValidState(c.state.value.(pending := Some(AnchorOf(b)))); }
  }

  lemma RoundStores(w: World, b: Block)
    requires w.main == Busy(OneBlock(b), None, false, 0) && Simple(w.core, b)
    ensures var w' := Next(w, StoreBlocks(true));
            && Apart(w, w') && w'.main == Busy(OneBlock(b), None, true, 0) && w'.core == WithBlock(w.core, b)
            && w'.sentFor == w.sentFor && w'.sent == w.sent
  {
    hide Written, Started, Published, Finished, Observing, Beginning, Reading, Listing, Getting, Putting, DoneHeight,
         Finishing, WindowPutting, Reloaded;
    WriteSimple(w.core, b);
    assert Stored(w, true).core == WithBlock(w.core, b);
  }

  lemma RoundPublishes(w: World, b: Block)
    requires w.main == Busy(OneBlock(b), None, true, 0) && w.sent == 0
    ensures var w' := Next(w, Publish(true, true));
            && Apart(w, w') && w'.main == Busy(OneBlock(b), None, true, 1) &&
                w'.core == w.core.(latest := Some(Outer(b.num, b.hash, false)))
            && w'.sentFor == w.sentFor
  {
    hide Written, Started, Stored, Finished, Observing, Beginning, Reading, Listing, Getting, Putting, DoneHeight, Finishing,
         WindowPutting, Reloaded;
    assert Messages(OneBlock(b)) == [Outer(b.num, b.hash, false)];
    assert Published(w, true, true).core == w.core.(latest := Some(Outer(b.num, b.hash, false)));
  }

  /** The state after the checkpoint. */
  function Checkpointed(c: Core, b: Block): Core {
    var s := if c.state.Some? then c.state.value.(published := AnchorOf(b), pending := None)
             else ForkScanState(1, AnchorOf(b), if b.num < MAX_U64 then b.num + 1 else 0, 1, AnchorOf(b), None, None);
    c.(state := Some(s), cursor := Some(s), aligned := true, recoveryDrop := false,
       schedule := if c.state.Some? then c.schedule else FreshSchedule(1))
  }

  lemma RoundCompletes(w: World, b: Block)
    requires w.main == Busy(OneBlock(b), None, true, 1) && w.core.latest == Some(Outer(b.num, b.hash, false)) && w.core.batch.None?
    requires b.num < MAX_U64 && b.hash != ZeroHash()
    requires w.core.state.Some? ==>
          ValidState(w.core.state.value) && w.core.state.value.pending == Some(AnchorOf(b)) && w.core.state.value.nextHeight <= b.num + 1
    ensures var w' := Next(w, Complete(true));
            Apart(w, w') && w'.main == Idle && w'.core == Checkpointed(w.core, b) && w'.sentFor == w.sentFor
  {
    hide Written, Started, Stored, Published, Observing, Beginning, Reading, Listing, Getting, Putting, DoneHeight, Finishing,
         WindowPutting, Reloaded;
    assert |Messages(OneBlock(b))| == 1;
    FinishSimple(w.core, b);
  }

  lemma FinishSimple(c: Core, b: Block)
    requires c.latest == Some(Outer(b.num, b.hash, false)) && c.batch.None? && b.num < MAX_U64 && b.hash != ZeroHash()
    requires c.state.Some? ==>
          ValidState(c.state.value) && c.state.value.pending == Some(AnchorOf(b)) && c.state.value.nextHeight <= b.num + 1
    ensures Finished(c, None, true) == (Checkpointed(c, b), true)
  {
  }

  /** What such a notice does. */
  lemma RoundFacts(w: World, b: Block)
    requires w.main.Idle? && Simple(w.core, b) && w.sentFor != Some(OneBlock(b))
    ensures var w' := Round(w, b);
            && Apart(w, w') && w'.main.Idle? && w'.sentFor == Some(OneBlock(b))
            && w'.core == Checkpointed(WithBlock(w.core, b).(latest := Some(Outer(b.num, b.hash, false))), b)
  {
    hide Next;
    RoundStarts(w, b);
    var w1 := Next(w, Start(OneBlock(b), None, true, true, true));
    RoundStores(w1, b);
    var w2 := Next(w1, StoreBlocks(true));
    RoundPublishes(w2, b);
    RoundCompletes(Next(w2, Publish(true, true)), b);
  }

  /** A full interval between two observations makes a new head mature. */
  lemma ObserveTwice(w: World)
    requires LockFree(w) && w.worker.Sleeping? && CanScan(w.core) && w.core.schedule == FreshSchedule(w.core.state.value.generation)
    requires w.core.state.value.nextHeight <= w.core.state.value.published.height
    ensures var w' := ObservedTwice(w);
            && w'.main == w.main && w'.objects == w.objects && w'.core == w.core.(schedule := w'.core.schedule)
            && w'.worker == Ready(w.core.state.value.published.height, w.core.state.value.generation)
  {
    hide Written, Started, Stored, Published, Finished, Beginning, Reading, Listing, Getting, Putting, DoneHeight, Finishing,
         WindowPutting, Reloaded;
    var w1 := Next(w, Observe);
    assert w1.worker.Sleeping? && w1.core.schedule.observedAt == Some(w.clock) && w1.interval == w.interval;
    var w2 := Next(w1, Tick(w.interval));
    assert w2.core == w1.core && w2.worker == w1.worker && w2.clock == w.clock + w.interval && w2.interval == w.interval;
  }

  function ObservedTwice(w: World): World {
    Next(Next(Next(w, Observe), Tick(w.interval)), Observe)
  }

  lemma ObservingReaches(w: World)
    requires Reachable(w)
    ensures Reachable(ObservedTwice(w))
  {
    hide Next, Reachable;
    ReachesNext(w, Observe);
    ReachesNext(Next(w, Observe), Tick(w.interval));
    ReachesNext(Next(Next(w, Observe), Tick(w.interval)), Observe);
  }

  /** Nothing indexed and nothing published, but any objects in the bucket. */
  function FromNothing(interval: nat, objects: Objects): World {
    var core := Reloaded(map[], None, None);
    Logging(World(core, Idle, Sleeping, None, None, 0, objects, 0, interval, [], 0, 0, 0, 0, map[], []))
  }

  lemma NothingReaches(interval: nat, objects: Objects)
    ensures Reachable(FromNothing(interval, objects))
  {
    assert Initial(FromNothing(interval, objects));
    hide Initial;
    ReachesInitial(FromNothing(interval, objects));
  }

  /** For any interval and any objects, from an empty store and topic, two one-block notices later: the
      second height gets covered if its canonical object is there, and then all its marks are right. */
  lemma SomeHeightIsCovered(interval: nat, objects: Objects, b0: Block, b1: Block)
    requires b0.hash != ZeroHash() && b1.hash != ZeroHash() && b0.hash != b1.hash && b1.parent == b0.hash
    requires b0.num + 1 == b1.num && b1.num < MAX_U64 && (b1.num, b1.hash) in objects
    ensures exists w :: && Reachable(w) && w.interval == interval
                        && w.core.cursor.Some? && w.core.cursor.value.baseline.height < b1.num < w.core.cursor.value.nextHeight
                        && b1.num in w.cover && w.cover[b1.num].scan.hash == b1.hash
                        && w.objects == Righted(objects, b1.num, ObjectsAt(FromNothing(interval, objects), b1.num), b1.hash)
  {
    hide Next, Reachable, Initial, Round, ObservedTwice;
    var w0 := FromNothing(interval, objects);
    var w1, w2 := Round(w0, b0), Round(Round(w0, b0), b1);
    NothingReaches(interval, objects);
    RoundReaches(w0, b0);
    RoundReaches(w1, b1);
    RoundFacts(w0, b0);
    assert Simple(w1.core, b1);
    RoundFacts(w1, b1);
    ObservingReaches(w2);
    ObserveTwice(w2);
    var w3 := ObservedTwice(w2);
    assert QuietHeight(w3, b1.num, b1.hash);
    var steps := QuietHeightIsCovered(w3, b1.num, b1.hash);
    AfterReaches(w3, steps);
    ObservedInterval(w2);
  }

  lemma ObservedInterval(w: World)
    ensures ObservedTwice(w).interval == w.interval
  {
    hide Next;
    IntervalStays(w, Observe);
    IntervalStays(Next(w, Observe), Tick(w.interval));
    IntervalStays(Next(Next(w, Observe), Tick(w.interval)), Observe);
  }
}
