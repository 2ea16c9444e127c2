/** The store: the two-way index, the durable scan cursor, and the one batch that changes both. */
module ConsistencyDB {
  import opened Types
  import opened CanonicalIndex

  datatype StoreError = BadCounts | ReadFailed | GenerationOverflow | InvalidCursor | CommitFailed | NotFound

  datatype Result<+T> = Ok(value: T) | Err(error: StoreError)

  datatype BlockInfo = BlockInfo(id: Hash, height: u64, validation: int, isFork: bool)

  datatype Store = Store(nums: Index, infos: Infos, cursor: Option<ForkScanState>)

  /** What the medium does during one call: heights whose mapping cannot be read, and whether the
      commit fails. A failed commit has no effect. */
  datatype Faults = Faults(unreadable: set<u64>, commitFails: bool)

  datatype Op = SetInfo(hash: Hash, info: Info) | SetNum(num: u64, owner: Hash) | DeleteNum(gone: u64) | SetCursor(state: ForkScanState)

  function ApplyOne(s: Store, op: Op): Store {
    match op
    case SetInfo(h, info) => s.(infos := s.infos[h := info])
    case SetNum(n, h) => s.(nums := s.nums[n := h])
    case DeleteNum(n) => s.(nums := s.nums - {n})
    case SetCursor(c) => s.(cursor := Some(c))
  }

  /** The effect of committing a batch. */
  function Apply(s: Store, batch: seq<Op>): Store {
    if |batch| == 0 then s else ApplyOne(Apply(s, batch[..|batch| - 1]), batch[|batch| - 1])
  }

  lemma ApplySnoc(s: Store, batch: seq<Op>, op: Op)
    ensures Apply(s, batch + [op]) == ApplyOne(Apply(s, batch), op)
  {
    assert (batch + [op])[..|batch|] == batch;
  }

  /** The heights one write reads: those of its blocks, and upwards from the tip to the first hole. */
  predicate Probed(nums: Index, blocks: seq<Block>, h: u64)
    requires |blocks| > 0
  {
    || (exists i :: 0 <= i < |blocks| && blocks[i].num == h)
    || Tail(blocks).num < h <= RunTop(nums, Tail(blocks).num) + 1
  }

  /** When a write takes effect. */
  predicate WriteAccepted(nums: Index, blocks: seq<Block>, validations: seq<int>, state: Option<ForkScanState>, faults: Faults) {
    && |blocks| > 0 && |blocks| == |validations|
    && (forall h :: h in faults.unreadable ==> !Probed(nums, blocks, h))
    && (state.Some? ==>
          && (Rewinds(state.value, nums, blocks) ==> state.value.generation < MAX_U64)
          && ValidState(Advanced(state.value, nums, blocks)))
    && !faults.commitFails
  }

  class ConsistencyDB {
    var store: Store
    var latest: Option<BlockInfo>

    constructor ()
      ensures store == Store(map[], map[], None) && latest == None
    {
      store := Store(map[], map[], None);
      latest := None;
    }

    method GetCanonicalHashByNum(num: u64, faults: Faults) returns (r: Result<Option<Hash>>)
      ensures r == if num in faults.unreadable then Err(ReadFailed) else Ok(Get(store.nums, num))
    {
      if num in faults.unreadable { return Err(ReadFailed); }
      if num !in store.nums { return Ok(None); }
      return Ok(Some(store.nums[num]));
    }

    method GetBlockInfoByHash(hash: Hash, faults: Faults) returns (r: Result<BlockInfo>)
      ensures hash !in store.infos ==> r == Err(NotFound)
      ensures hash in store.infos && store.infos[hash].num in faults.unreadable ==> r == Err(ReadFailed)
      ensures hash in store.infos && store.infos[hash].num !in faults.unreadable ==>
                && r.Ok? && r.value.id == hash && r.value.height == store.infos[hash].num
                && r.value.validation == store.infos[hash].validation
                && Some(r.value.isFork) == IsFork(store.nums, store.infos, hash)
    {
      if hash !in store.infos { return Err(NotFound); }
      var info := store.infos[hash];
      var canonical := GetCanonicalHashByNum(info.num, faults);
      if canonical.Err? { return Err(canonical.error); }
      if canonical.value.None? {
        return Ok(BlockInfo(hash, info.num, info.validation, true));
      }
      return Ok(BlockInfo(hash, info.num, info.validation, canonical.value.value != hash));
    }

    method LoadForkScan() returns (r: Result<Option<ForkScanState>>)
      ensures r == if store.cursor.Some? && !ValidState(store.cursor.value) then Err(InvalidCursor) else Ok(store.cursor)
    {
      if store.cursor.Some? && !ValidState(store.cursor.value) { return Err(InvalidCursor); }
      return Ok(store.cursor);
    }

    method SaveForkScan(state: ForkScanState, faults: Faults) returns (r: Result<()>)
      modifies `store
      ensures r.Ok? <==> ValidState(state) && !faults.commitFails
      ensures store == if r.Ok? then old(store).(cursor := Some(state)) else old(store)
    {
      if !ValidState(state) { return Err(InvalidCursor); }
      var batch := [SetCursor(state)];
      if faults.commitFails { return Err(CommitFailed); }
      ApplySnoc(store, [], SetCursor(state));
      assert [] + [SetCursor(state)] == batch;
      store := Apply(store, batch);
      return Ok(());
    }

    /** First half of a write: the new mappings go into the batch, and the cursor is lowered to
        every height another hash held. */
    method StageMappings(newBlocks: seq<Block>, validations: seq<int>, next: Option<ForkScanState>, changed: bool, faults: Faults)
      returns (r: Result<Staged>)
      requires |newBlocks| == |validations|
      ensures r.Ok? <==> forall k :: 0 <= k < |newBlocks| ==> newBlocks[k].num !in faults.unreadable
      ensures r.Ok? ==> Mapped(store, newBlocks, validations, next, changed, r.value)
    {
      ghost var s := store;
      var out := Staged([], next, changed);
      var i := 0;
      while i < |newBlocks|
        invariant 0 <= i <= |newBlocks| && s == store
        invariant forall k :: 0 <= k < i ==> newBlocks[k].num !in faults.unreadable
        invariant Mapped(s, newBlocks[..i], validations[..i], next, changed, out)
      {
        var block := newBlocks[i];
        var owner := GetCanonicalHashByNum(block.num, faults);
        if owner.Err? { return Err(owner.error); }
        MappedStep(s, newBlocks, validations, i, next, changed, out);
        if owner.value.Some? && owner.value.value != block.hash {
          out := out.(changed := true, next := Lower(out.next, block.num));
        }
        out := out.(batch := out.batch + [SetInfo(block.hash, Info(block.num, validations[i]))] + [SetNum(block.num, block.hash)]);
        i := i + 1;
      }
      assert newBlocks[..i] == newBlocks && validations[..i] == validations;
      return Ok(out);
    }

    /** Second half: the run of mappings left above the new tip is deleted, up to the first hole. */
    method StageDeletions(tip: u64, staged: Staged, faults: Faults) returns (r: Result<Staged>)
      ensures r.Ok? <==> Readable(tip, RunTop(store.nums, tip) + 1, faults)
      ensures r.Ok? ==> Unmapped(store, tip, RunTop(store.nums, tip), staged, r.value)
    {
      hide Apply, ApplyOne, Cleared;
      ghost var s := store;
      var out := staged;
      UnmappedStart(s, tip, staged);
      var h := tip;
      while h < MAX_U64
        invariant tip <= h <= MAX_U64 && s == store
        invariant Readable(tip, h, faults)
        invariant RunTop(s.nums, tip) == RunTop(s.nums, h)
        invariant Unmapped(s, tip, h, staged, out)
        decreases MAX_U64 - h
      {
        var above := h + 1;
        RunTopStep(s.nums, h);
        var stale := GetCanonicalHashByNum(above, faults);
        if stale.Err? { return Err(stale.error); }
        if stale.value.None? { break; }
        UnmappedStep(s, tip, h, staged, out);
        out := Staged(out.batch + [DeleteNum(above)], Lower(out.next, above), true);
        h := above;
      }
      return Ok(out);
    }

    /** Sets the new mappings, clears the run left above the new tip and moves the cursor, all in
        one commit or not at all. */
    method WriteBlockInfosWithForkScan(newBlocks: seq<Block>, validations: seq<int>, state: Option<ForkScanState>, faults: Faults)
      returns (r: Result<Option<ForkScanState>>)
      modifies this
      ensures r.Ok? <==> WriteAccepted(old(store).nums, newBlocks, validations, state, faults)
      ensures r.Err? ==> store == old(store) && latest == old(latest)
      ensures r.Ok? ==>
                && store.nums == Rewritten(old(store).nums, newBlocks)
                && store.infos == Recorded(old(store).infos, newBlocks, validations)
                && r.value == (if state.Some? then Some(Advanced(state.value, old(store).nums, newBlocks)) else None)
                && store.cursor == (if state.Some? then r.value else old(store).cursor)
                && latest == Some(BlockInfo(Tail(newBlocks).hash, Tail(newBlocks).num, validations[|validations| - 1], false))
    {
      hide Apply, Advanced, Lowered, Recorded, Rewritten, RunTop, ValidState, Readable, Probed;
      if |newBlocks| == 0 || |newBlocks| != |validations| { return Err(BadCounts); }
      var tail := newBlocks[|newBlocks| - 1];
      ProbesSplit(store.nums, newBlocks, faults);
      var next, changed := Opened(state, newBlocks), Reopens(state, newBlocks);
      var mapped := StageMappings(newBlocks, validations, next, changed, faults);
      if mapped.Err? { return Err(mapped.error); }
      var staged := StageDeletions(tail.num, mapped.value, faults);
      if staged.Err? { return Err(staged.error); }
      StagedIndex(store, newBlocks, validations, Opened(state, newBlocks), Reopens(state, newBlocks), mapped.value, staged.value);
      if state.Some? { StagedCursor(state.value, store.nums, newBlocks); }
      next := staged.value.next;
      var batch := staged.value.batch;
      if next.Some? {
        if staged.value.changed {
          if next.value.generation == MAX_U64 { return Err(GenerationOverflow); }
          next := Some(next.value.(generation := next.value.generation + 1));
        }
        if !ValidState(next.value) { return Err(InvalidCursor); }
        ApplySnoc(store, batch, SetCursor(next.value));
        batch := batch + [SetCursor(next.value)];
      }
      if faults.commitFails { return Err(CommitFailed); }
      store := Apply(store, batch);
      latest := Some(BlockInfo(tail.hash, tail.num, validations[|validations| - 1], false));
      return Ok(next);
    }
  }

  /** Every height above `low` up to `top` can be read. */
  predicate Readable(low: u64, top: int, faults: Faults) {
    forall x :: x in faults.unreadable ==> !(low < x <= top)
  }

  lemma RunTopStep(nums: Index, h: u64)
    requires h < MAX_U64
    ensures RunTop(nums, h) == if h + 1 in nums then RunTop(nums, h + 1) else h
  {
  }

  /** A batch under construction, with the cursor it will carry. */
  datatype Staged = Staged(batch: seq<Op>, next: Option<ForkScanState>, changed: bool)

  /** `out` stages the mappings of `blocks` and nothing else. */
  ghost predicate Mapped(s: Store, blocks: seq<Block>, validations: seq<int>, next: Option<ForkScanState>, changed: bool, out: Staged)
    requires |blocks| == |validations|
  {
    && Apply(s, out.batch) == Store(SetAll(s.nums, blocks), Recorded(s.infos, blocks, validations), s.cursor)
    && out.next == LoweredState(next, s.nums, blocks)
    && (out.changed <==> changed || AnyReplaced(s.nums, blocks))
  }

  lemma MappedStep(s: Store, blocks: seq<Block>, validations: seq<int>, i: nat, next: Option<ForkScanState>, changed: bool, out: Staged)
    requires |blocks| == |validations| && i < |blocks|
    requires Mapped(s, blocks[..i], validations[..i], next, changed, out)
    ensures var b := blocks[i];
            var hit := Replaces(s.nums, b);
            Mapped(s, blocks[..i + 1], validations[..i + 1], next, changed,
                   Staged(out.batch + [SetInfo(b.hash, Info(b.num, validations[i]))] + [SetNum(b.num, b.hash)],
                          if hit then Lower(out.next, b.num) else out.next, out.changed || hit))
  {
    hide Recorded, SetAll, LoweredState, AnyReplaced, Apply;
    var b := blocks[i];
    var info := SetInfo(b.hash, Info(b.num, validations[i]));
    ApplySnoc(s, out.batch, info);
    ApplySnoc(s, out.batch + [info], SetNum(b.num, b.hash));
    AnyReplacedSnoc(s.nums, blocks, i);
    MappingsSnoc(s, blocks, validations, i, next);
  }

  lemma MappingsSnoc(s: Store, blocks: seq<Block>, validations: seq<int>, i: nat, next: Option<ForkScanState>)
    requires |blocks| == |validations| && i < |blocks|
    ensures var b := blocks[i];
            && SetAll(s.nums, blocks[..i + 1]) == SetAll(s.nums, blocks[..i])[b.num := b.hash]
            && Recorded(s.infos, blocks[..i + 1], validations[..i + 1]) == Recorded(s.infos, blocks[..i],
                 validations[..i])[b.hash := Info(b.num, validations[i])]
            && LoweredState(next, s.nums, blocks[..i + 1]) ==
                 (if Replaces(s.nums, b) then Lower(LoweredState(next, s.nums, blocks[..i]), b.num) else LoweredState(next,
                      s.nums, blocks[..i]))
  {
    hide ValidState;
    assert blocks[..i + 1][..i] == blocks[..i] && validations[..i + 1][..i] == validations[..i];
  }

  /** `out` adds to `staged` the deletion of every mapping above `tip` up to `top`. */
  ghost predicate Unmapped(s: Store, tip: u64, top: u64, staged: Staged, out: Staged) {
    var before := Apply(s, staged.batch);
    && Apply(s, out.batch) == Store(Cleared(before.nums, tip, top), before.infos, before.cursor)
    && out.next == (if top > tip then Lower(staged.next, tip + 1) else staged.next)
    && (out.changed <==> staged.changed || top > tip)
  }

  lemma UnmappedStart(s: Store, tip: u64, staged: Staged)
    ensures Unmapped(s, tip, tip, staged, staged)
  {
    var before := Apply(s, staged.batch);
    assert Cleared(before.nums, tip, tip) == before.nums;
  }

  lemma UnmappedStep(s: Store, tip: u64, h: u64, staged: Staged, out: Staged)
    requires tip <= h < MAX_U64 && Unmapped(s, tip, h, staged, out)
    ensures Unmapped(s, tip, h + 1, staged, Staged(out.batch + [DeleteNum(h + 1)], Lower(out.next, h + 1), true))
  {
    var nums := Apply(s, staged.batch).nums;
    ApplySnoc(s, out.batch, DeleteNum(h + 1));
    assert Cleared(nums, tip, h) - {h + 1} == Cleared(nums, tip, h + 1);
  }

  /** The two halves together stage exactly the index the write stands for. */
  lemma StagedIndex(s: Store, blocks: seq<Block>, validations: seq<int>, next: Option<ForkScanState>, changed: bool,
       mapped: Staged, out: Staged)
    requires |blocks| == |validations| && |blocks| > 0
    requires Mapped(s, blocks, validations, next, changed, mapped)
    requires Unmapped(s, Tail(blocks).num, RunTop(s.nums, Tail(blocks).num), mapped, out)
    ensures Apply(s, out.batch) == Store(Rewritten(s.nums, blocks), Recorded(s.infos, blocks, validations), s.cursor)
  {
  }

  /** And the cursor they leave is the advanced one, up to its generation. */
  lemma StagedCursor(state: ForkScanState, nums: Index, blocks: seq<Block>)
    requires |blocks| > 0
    ensures var tip := Tail(blocks).num;
            var low := LoweredState(Opened(Some(state), blocks), nums, blocks);
            var next := if RunTop(nums, tip) > tip then Lower(low, tip + 1) else low;
            && next.Some? && next.value.generation == state.generation
            && (Rewinds(state, nums, blocks) && state.generation < MAX_U64 ==>
                  Advanced(state, nums, blocks) == next.value.(generation := state.generation + 1))
            && (!Rewinds(state, nums, blocks) ==> Advanced(state, nums, blocks) == next.value)
  {
  }

  predicate Reopens(state: Option<ForkScanState>, blocks: seq<Block>)
    requires |blocks| > 0
  {
    state.Some? && blocks[0].num <= state.value.published.height
  }

  /** The cursor at the start of a write: the new tail is pending, and a replacement at or below
      the published head already pulls it down. */
  function Opened(state: Option<ForkScanState>, blocks: seq<Block>): Option<ForkScanState>
    requires |blocks| > 0
  {
    if state.None? then None
    else
      var s := Some(state.value.(pending := Some(AnchorOf(Tail(blocks)))));
      if Reopens(state, blocks) then Lower(s, blocks[0].num) else s
  }

  lemma ProbesSplit(nums: Index, blocks: seq<Block>, faults: Faults)
    requires |blocks| > 0
    ensures (forall h :: h in faults.unreadable ==> !Probed(nums, blocks, h)) <==>
              && (forall k :: 0 <= k < |blocks| ==> blocks[k].num !in faults.unreadable)
              && Readable(Tail(blocks).num, RunTop(nums, Tail(blocks).num) + 1, faults)
  {
    if forall h :: h in faults.unreadable ==> !Probed(nums, blocks, h) {
      forall k | 0 <= k < |blocks| ensures blocks[k].num !in faults.unreadable {
        assert Probed(nums, blocks, blocks[k].num);
      }
    }
  }

  /** The cursor pulled down to a height. */
  function Lower(s: Option<ForkScanState>, h: u64): Option<ForkScanState> {
    if s.Some? && h < s.value.nextHeight then Some(s.value.(nextHeight := h)) else s
  }

  function LoweredState(s: Option<ForkScanState>, nums: Index, blocks: seq<Block>): Option<ForkScanState> {
    if s.Some? then Some(s.value.(nextHeight := Lowered(s.value.nextHeight, nums, blocks))) else None
  }

  lemma AnyReplacedSnoc(nums: Index, blocks: seq<Block>, i: nat)
    requires i < |blocks|
    ensures AnyReplaced(nums, blocks[..i + 1]) <==> AnyReplaced(nums, blocks[..i]) || Replaces(nums, blocks[i])
  {
    if AnyReplaced(nums, blocks[..i]) {
      var k :| 0 <= k < i && Replaces(nums, blocks[..i][k]);
      assert Replaces(nums, blocks[..i + 1][k]);
    }
    if Replaces(nums, blocks[i]) { assert Replaces(nums, blocks[..i + 1][i]); }
    if AnyReplaced(nums, blocks[..i + 1]) {
      var k :| 0 <= k < i + 1 && Replaces(nums, blocks[..i + 1][k]);
      if k < i { assert Replaces(nums, blocks[..i][k]); }
    }
  }
}
