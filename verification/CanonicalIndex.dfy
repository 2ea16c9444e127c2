/** The canonical index as a map from heights to hashes, what one write does to it and to the
    scan cursor, and the chain of blocks it stands for. */
module CanonicalIndex {
  import opened Types

  type Index = map<u64, Hash>

  /** The index after the new blocks' mappings are set, in order. */
  function SetAll(nums: Index, blocks: seq<Block>): Index {
    if |blocks| == 0 then nums
    else SetAll(nums, blocks[..|blocks| - 1])[Tail(blocks).num := Tail(blocks).hash]
  }

  /** The top of the unbroken run of mappings that starts just above `h`; `h` itself if there is none. */
  function RunTop(nums: Index, h: u64): (top: u64)
    ensures h <= top
    ensures forall x: u64 :: h < x <= top ==> x in nums
    ensures top < MAX_U64 ==> top + 1 !in nums
    decreases MAX_U64 - h
  {
    if h < MAX_U64 && h + 1 in nums then RunTop(nums, h + 1) else h
  }

  /** The index after a write: the new mappings, without the run left over above the new tip. */
  function Rewritten(nums: Index, blocks: seq<Block>): Index
    requires |blocks| > 0
  {
    Cleared(SetAll(nums, blocks), Tail(blocks).num, RunTop(nums, Tail(blocks).num))
  }

  /** The index without its mappings above `low` up to and including `top`. */
  function Cleared(nums: Index, low: u64, top: u64): Index {
    map h | h in nums && !(low < h <= top) :: nums[h]
  }

  /** A block takes over a height that another hash holds. */
  predicate Replaces(nums: Index, b: Block) {
    b.num in nums && nums[b.num] != b.hash
  }

  /** The cursor lowered past every replaced height. */
  function Lowered(next: u64, nums: Index, blocks: seq<Block>): u64 {
    if |blocks| == 0 then next
    else
      var rest := Lowered(next, nums, blocks[..|blocks| - 1]);
      if Replaces(nums, Tail(blocks)) then Min(rest, Tail(blocks).num) else rest
  }

  predicate AnyReplaced(nums: Index, blocks: seq<Block>) {
    exists i :: 0 <= i < |blocks| && Replaces(nums, blocks[i])
  }

  /** Whether a write invalidates earlier scan work. */
  predicate Rewinds(s: ForkScanState, nums: Index, blocks: seq<Block>)
    requires |blocks| > 0
  {
    || blocks[0].num <= s.published.height
    || AnyReplaced(nums, blocks)
    || RunTop(nums, Tail(blocks).num) > Tail(blocks).num
  }

  /** The cursor that is committed together with the write. */
  function Advanced(s: ForkScanState, nums: Index, blocks: seq<Block>): ForkScanState
    requires |blocks| > 0
    requires Rewinds(s, nums, blocks) ==> s.generation < MAX_U64
  {
    var tip := Tail(blocks).num;
    var n0 := if blocks[0].num <= s.published.height then Min(s.nextHeight, blocks[0].num) else s.nextHeight;
    var n1 := Lowered(n0, nums, blocks);
    var n2 := if RunTop(nums, tip) > tip then Min(n1, tip + 1) else n1;
    s.(pending := Some(AnchorOf(Tail(blocks))), nextHeight := n2,
       generation := if Rewinds(s, nums, blocks) then s.generation + 1 else s.generation)
  }

  // ---------------------------------------------------------------- what a write does, height by height

  lemma SetAllAt(nums: Index, blocks: seq<Block>, h: u64)
    requires Linked(blocks) && |blocks| > 0
    ensures blocks[0].num <= h <= Tail(blocks).num ==>
              0 <= h - blocks[0].num < |blocks|
              && Get(SetAll(nums, blocks), h) == Some(blocks[h - blocks[0].num].hash)
    ensures !(blocks[0].num <= h <= Tail(blocks).num) ==> Get(SetAll(nums, blocks), h) == Get(nums, h)
    decreases |blocks|
  {
    LinkedAt(blocks, 0, |blocks| - 1);
    var front := blocks[..|blocks| - 1];
    if |front| > 0 {
      SetAllAt(nums, front, h);
      assert Tail(front) == blocks[|blocks| - 2] && Tail(blocks).num == Tail(front).num + 1;
    } else {
      assert SetAll(nums, front) == nums;
    }
  }

  /** Point-wise meaning of a write: new blocks in their range, nothing in the cleared run, the
      old mapping everywhere else. */
  lemma RewrittenAt(nums: Index, blocks: seq<Block>, h: u64)
    requires Linked(blocks) && |blocks| > 0
    ensures Tail(blocks).num == blocks[0].num + |blocks| - 1
    ensures var tip := Tail(blocks).num;
            Get(Rewritten(nums, blocks), h) ==
              if h < blocks[0].num then Get(nums, h)
              else if h - blocks[0].num < |blocks| then Some(blocks[h - blocks[0].num].hash)
              else if h <= RunTop(nums, tip) then None
              else Get(nums, h)
  {
    SetAllAt(nums, blocks, h);
    LinkedAt(blocks, 0, |blocks| - 1);
  }

  lemma LoweredIsLowest(next: u64, nums: Index, blocks: seq<Block>)
    ensures Lowered(next, nums, blocks) <= next
    ensures forall i :: 0 <= i < |blocks| && Replaces(nums, blocks[i]) ==> Lowered(next, nums, blocks) <= blocks[i].num
    ensures Lowered(next, nums, blocks) == next
            || exists i :: 0 <= i < |blocks| && Replaces(nums, blocks[i]) && Lowered(next, nums, blocks) == blocks[i].num
  {
    if |blocks| > 0 {
      var front := blocks[..|blocks| - 1];
      LoweredIsLowest(next, nums, front);
      var low := Lowered(next, nums, front);
      forall i | 0 <= i < |blocks| && Replaces(nums, blocks[i])
        ensures Lowered(next, nums, blocks) <= blocks[i].num
      {
        if i < |front| { assert front[i] == blocks[i]; }
      }
      if low != next {
        var i :| 0 <= i < |front| && Replaces(nums, front[i]) && low == front[i].num;
        assert blocks[i] == front[i];
      }
      if Lowered(next, nums, blocks) != low {
        assert Replaces(nums, blocks[|blocks| - 1]);
      }
    }
  }

  /** The heights whose scan results a write invalidates: every mapping it changes or removes, and
      the first new block when that is not above the published head. */
  ghost predicate Affected(s: ForkScanState, nums: Index, blocks: seq<Block>, h: u64)
    requires |blocks| > 0
  {
    || (h in nums && Get(Rewritten(nums, blocks), h) != Some(nums[h]))
    || (h == blocks[0].num && h <= s.published.height)
  }

  lemma AffectedCauses(s: ForkScanState, nums: Index, blocks: seq<Block>, h: u64)
    requires Linked(blocks) && |blocks| > 0
    requires Affected(s, nums, blocks, h)
    ensures blocks[0].num <= h
    ensures Rewinds(s, nums, blocks)
    ensures s.generation < MAX_U64 ==> Advanced(s, nums, blocks).nextHeight <= h
  {
    var tip := Tail(blocks).num;
    var top := RunTop(nums, tip);
    RewrittenAt(nums, blocks, h);
    LinkedAt(blocks, 0, |blocks| - 1);
    var n0 := if blocks[0].num <= s.published.height then Min(s.nextHeight, blocks[0].num) else s.nextHeight;
    LoweredIsLowest(n0, nums, blocks);
    if h in nums && Get(Rewritten(nums, blocks), h) != Some(nums[h]) && h <= tip {
      var i := h - blocks[0].num;
      LinkedAt(blocks, 0, i);
      assert Replaces(nums, blocks[i]);
    }
  }

  lemma RewindHasCause(s: ForkScanState, nums: Index, blocks: seq<Block>)
    requires Linked(blocks) && |blocks| > 0 && s.generation < MAX_U64
    requires Rewinds(s, nums, blocks)
    ensures exists h: u64 :: Affected(s, nums, blocks, h)
    ensures var n := Advanced(s, nums, blocks).nextHeight;
            n == s.nextHeight || Affected(s, nums, blocks, n)
  {
    var tip := Tail(blocks).num;
    var n := Advanced(s, nums, blocks).nextHeight;
    LinkedAt(blocks, 0, |blocks| - 1);
    var n0 := if blocks[0].num <= s.published.height then Min(s.nextHeight, blocks[0].num) else s.nextHeight;
    LoweredIsLowest(n0, nums, blocks);
    if blocks[0].num <= s.published.height {
      assert Affected(s, nums, blocks, blocks[0].num);
    }
    forall i | 0 <= i < |blocks| && Replaces(nums, blocks[i])
      ensures Affected(s, nums, blocks, blocks[i].num)
    {
      LinkedAt(blocks, 0, i);
      LinkedAt(blocks, i, |blocks| - 1);
      RewrittenAt(nums, blocks, blocks[i].num);
    }
    if RunTop(nums, tip) > tip {
      RewrittenAt(nums, blocks, tip + 1);
      assert Affected(s, nums, blocks, tip + 1);
    }
  }

  /** The cursor moves to the lowest affected height if that is lower, the generation rises exactly
      when some height is affected, and an unchanged generation means nothing indexed was lost. */
  lemma AtomicRewind(s: ForkScanState, nums: Index, blocks: seq<Block>)
    requires Linked(blocks) && |blocks| > 0
    requires Rewinds(s, nums, blocks) ==> s.generation < MAX_U64
    ensures var s' := Advanced(s, nums, blocks);
            && s'.nextHeight <= s.nextHeight
            && (forall h: u64 :: Affected(s, nums, blocks, h) ==> s'.nextHeight <= h && blocks[0].num <= h)
            && (s'.nextHeight == s.nextHeight || Affected(s, nums, blocks, s'.nextHeight))
            && (s'.generation == s.generation + 1 <==> exists h: u64 :: Affected(s, nums, blocks, h))
            && (s'.generation == s.generation ==>
                  forall h :: h in nums ==> Get(Rewritten(nums, blocks), h) == Some(nums[h]))
  {
    var s' := Advanced(s, nums, blocks);
    forall h: u64 | Affected(s, nums, blocks, h)
      ensures s'.nextHeight <= h && blocks[0].num <= h && s'.generation == s.generation + 1
    {
      AffectedCauses(s, nums, blocks, h);
    }
    forall h | h in nums && s'.generation == s.generation
      ensures Get(Rewritten(nums, blocks), h) == Some(nums[h])
    {
      if Affected(s, nums, blocks, h) { AffectedCauses(s, nums, blocks, h); }
    }
    var n0 := if blocks[0].num <= s.published.height then Min(s.nextHeight, blocks[0].num) else s.nextHeight;
    LoweredIsLowest(n0, nums, blocks);
    if Rewinds(s, nums, blocks) {
      RewindHasCause(s, nums, blocks);
    }
  }

  /** Writing the same blocks again changes no mapping, and of the cursor at most the generation:
      it rises again exactly when the first new block is not above the published head. */
  lemma RetryChangesOnlyGeneration(s: ForkScanState, nums: Index, blocks: seq<Block>)
    requires Linked(blocks) && |blocks| > 0 && s.generation < MAX_U64 - 1
    ensures var s1 := Advanced(s, nums, blocks);
            var nums1 := Rewritten(nums, blocks);
            && Rewritten(nums1, blocks) == nums1
            && Advanced(s1, nums1, blocks) ==
                 s1.(generation := if blocks[0].num <= s.published.height then s1.generation + 1 else s1.generation)
  {
    var s1 := Advanced(s, nums, blocks);
    var nums1 := Rewritten(nums, blocks);
    var tip := Tail(blocks).num;
    LinkedAt(blocks, 0, |blocks| - 1);
    if tip < MAX_U64 {
      RewrittenAt(nums, blocks, tip + 1);
    }
    assert RunTop(nums1, tip) == tip;
    forall h: u64
      ensures Get(Rewritten(nums1, blocks), h) == Get(nums1, h)
    {
      RewrittenAt(nums, blocks, h);
      RewrittenAt(nums1, blocks, h);
    }
    SameGets(Rewritten(nums1, blocks), nums1);
    forall i | 0 <= i < |blocks|
      ensures !Replaces(nums1, blocks[i])
    {
      LinkedAt(blocks, 0, i);
      LinkedAt(blocks, i, |blocks| - 1);
      RewrittenAt(nums, blocks, blocks[i].num);
    }
    var n0 := if blocks[0].num <= s.published.height then Min(s.nextHeight, blocks[0].num) else s.nextHeight;
    LoweredIsLowest(n0, nums, blocks);
    var m0 := if blocks[0].num <= s1.published.height then Min(s1.nextHeight, blocks[0].num) else s1.nextHeight;
    LoweredIsLowest(m0, nums1, blocks);
  }

  lemma SameGets(a: Index, b: Index)
    requires forall h: u64 :: Get(a, h) == Get(b, h)
    ensures a == b
  {
    forall h | h in a ensures h in b && b[h] == a[h] { assert Get(a, h) == Get(b, h); }
    forall h | h in b ensures h in a { assert Get(a, h) == Get(b, h); }
  }

  // ---------------------------------------------------------------- the chain the index stands for

  /** The index of a chain: one mapping per block and nothing else. */
  function IndexOf(chain: seq<Block>): Index
  {
    SetAll(map[], chain)
  }

  /** The chain after a reorganisation: the part below the first new block, then the new blocks. */
  function Spliced(chain: seq<Block>, news: seq<Block>): seq<Block>
    requires |news| > 0
    requires |chain| > 0 ==> chain[0].num <= news[0].num <= chain[0].num + |chain|
  {
    if |chain| == 0 then news else chain[..news[0].num - chain[0].num] + news
  }

  /** New blocks that continue a chain from one of its blocks, or from its base. */
  predicate Extends(chain: seq<Block>, news: seq<Block>) {
    && Linked(chain) && Linked(news) && |news| > 0
    && (|chain| > 0 ==>
          && chain[0].num <= news[0].num <= chain[0].num + |chain|
          && (news[0].num > chain[0].num ==> news[0].parent == chain[news[0].num - chain[0].num - 1].hash))
  }

  lemma SplicedIsLinked(chain: seq<Block>, news: seq<Block>)
    requires Extends(chain, news)
    ensures Linked(Spliced(chain, news))
    ensures Tail(Spliced(chain, news)) == Tail(news)
  {
    if |chain| > 0 {
      var k := news[0].num - chain[0].num;
      var r := Spliced(chain, news);
      if k > 0 { LinkedAt(chain, 0, k - 1); }
      forall i | 0 <= i < |r| - 1
        ensures r[i + 1].num == r[i].num + 1 && r[i + 1].parent == r[i].hash
      {
        if i + 1 < k {
          assert r[i] == chain[i] && r[i + 1] == chain[i + 1];
        } else if i + 1 == k {
        } else {
          assert r[i] == news[i - k] && r[i + 1] == news[i - k + 1];
        }
      }
    }
  }

  lemma IndexOfAt(chain: seq<Block>, h: u64)
    requires Linked(chain)
    ensures Get(IndexOf(chain), h) ==
            if |chain| > 0 && chain[0].num <= h < chain[0].num + |chain| then Some(chain[h - chain[0].num].hash) else None
  {
    if |chain| > 0 {
      SetAllAt(map[], chain, h);
      LinkedAt(chain, 0, |chain| - 1);
    }
  }

  lemma RunTopOfChain(chain: seq<Block>, h: u64)
    requires Linked(chain) && |chain| > 0
    requires chain[0].num <= h
    ensures chain[0].num + |chain| - 1 <= MAX_U64
    ensures RunTop(IndexOf(chain), h) == if h < chain[0].num + |chain| then chain[0].num + |chain| - 1 else h
  {
    LinkedAt(chain, 0, |chain| - 1);
    var top := RunTop(IndexOf(chain), h);
    var last: u64 := chain[0].num + |chain| - 1;
    if h <= last && top < last { IndexOfAt(chain, top + 1); }
    if top > last && top > h { IndexOfAt(chain, top); }
  }

  /** On a contiguous linked index a write replaces the chain from the first new block on: nothing
      below it moves, and nothing is left above the new tip. */
  lemma WriteIsSplice(chain: seq<Block>, news: seq<Block>)
    requires Extends(chain, news)
    ensures Linked(Spliced(chain, news))
    ensures Rewritten(IndexOf(chain), news) == IndexOf(Spliced(chain, news))
  {
    SplicedIsLinked(chain, news);
    var nums := IndexOf(chain);
    var r := Spliced(chain, news);
    LinkedAt(news, 0, |news| - 1);
    forall h: u64
      ensures Get(Rewritten(nums, news), h) == Get(IndexOf(r), h)
    {
      RewrittenAt(nums, news, h);
      IndexOfAt(chain, h);
      IndexOfAt(r, h);
      if |chain| > 0 {
        RunTopOfChain(chain, Tail(news).num);
        var k := news[0].num - chain[0].num;
        assert r[0].num == chain[0].num by { if k == 0 { assert r[0] == news[0]; } else { assert r[0] == chain[0]; } }
      } else {
        RunTopEmpty(Tail(news).num);
      }
    }
    SameGets(Rewritten(nums, news), IndexOf(r));
  }

  lemma RunTopEmpty(h: u64)
    ensures RunTop(map[], h) == h
  {
    var none: Index := map[];
    var top := RunTop(none, h);
    if top > h { assert false; }
  }

  // ---------------------------------------------------------------- lookups by hash

  datatype Info = Info(num: u64, validation: int)

  type Infos = map<Hash, Info>

  /** The answer to a lookup by hash: unknown, or whether the block is off the canonical chain. */
  function IsFork(nums: Index, infos: Infos, h: Hash): Option<bool> {
    if h !in infos then None else Some(Get(nums, infos[h].num) != Some(h))
  }

  function Recorded(infos: Infos, blocks: seq<Block>, validations: seq<int>): Infos
    requires |blocks| == |validations|
  {
    if |blocks| == 0 then infos
    else Recorded(infos, blocks[..|blocks| - 1], validations[..|blocks| - 1])
           [Tail(blocks).hash := Info(Tail(blocks).num, validations[|blocks| - 1])]
  }

  /** A hash names one block: `tree` gives it. */
  ghost predicate Genuine(tree: Hash -> Block, blocks: seq<Block>) {
    forall i :: 0 <= i < |blocks| ==> tree(blocks[i].hash) == blocks[i]
  }

  predicate OnChain(chain: seq<Block>, h: Hash) {
    exists i :: 0 <= i < |chain| && chain[i].hash == h
  }

  /** What holds of the two-way index in every state reached by writes. */
  ghost predicate IndexInv(tree: Hash -> Block, nums: Index, infos: Infos, chain: seq<Block>) {
    && Linked(chain) && nums == IndexOf(chain) && Genuine(tree, chain)
    && (forall h :: h in infos ==> infos[h].num == tree(h).num)
    && (forall i :: 0 <= i < |chain| ==> chain[i].hash in infos)
  }

  lemma RecordedHas(tree: Hash -> Block, infos: Infos, blocks: seq<Block>, validations: seq<int>)
    requires |blocks| == |validations| && Genuine(tree, blocks)
    requires forall h :: h in infos ==> infos[h].num == tree(h).num
    ensures var r := Recorded(infos, blocks, validations);
            && (forall h :: h in infos ==> h in r)
            && (forall i :: 0 <= i < |blocks| ==> blocks[i].hash in r)
            && (forall h :: h in r ==> r[h].num == tree(h).num)
    decreases |blocks|
  {
    if |blocks| > 0 {
      var front := blocks[..|blocks| - 1];
      RecordedHas(tree, infos, front, validations[..|blocks| - 1]);
      forall i | 0 <= i < |blocks|
        ensures blocks[i].hash in Recorded(infos, blocks, validations)
      {
        if i < |front| { assert front[i] == blocks[i]; }
      }
    }
  }

  lemma WriteKeepsIndexInv(tree: Hash -> Block, nums: Index, infos: Infos, chain: seq<Block>, news: seq<Block>, validations: seq<int>)
    requires IndexInv(tree, nums, infos, chain)
    requires Extends(chain, news) && Genuine(tree, news) && |news| == |validations|
    ensures IndexInv(tree, Rewritten(nums, news), Recorded(infos, news, validations), Spliced(chain, news))
  {
    hide Rewritten, IndexOf, Recorded;
    WriteIsSplice(chain, news);
    RecordedHas(tree, infos, news, validations);
    var r := Spliced(chain, news);
    forall i | 0 <= i < |r|
      ensures tree(r[i].hash) == r[i] && r[i].hash in Recorded(infos, news, validations)
    {
      var k := |r| - |news|;
      if i < k { assert r[i] == chain[i]; } else { assert r[i] == news[i - k]; }
    }
  }

  /** A block ever written is reported as a fork exactly when it is not on the chain. */
  lemma ForkIffOffChain(tree: Hash -> Block, nums: Index, infos: Infos, chain: seq<Block>, h: Hash)
    requires IndexInv(tree, nums, infos, chain) && h in infos
    ensures IsFork(nums, infos, h) == Some(!OnChain(chain, h))
  {
    var n := infos[h].num;
    IndexOfAt(chain, n);
    if OnChain(chain, h) {
      var i :| 0 <= i < |chain| && chain[i].hash == h;
      LinkedAt(chain, 0, i);
      assert chain[i].num == n;
    } else if |chain| > 0 && chain[0].num <= n < chain[0].num + |chain| {
      assert chain[n - chain[0].num].hash != h;
    }
  }

  datatype Write = Write(blocks: seq<Block>, validations: seq<int>)

  /** A run of writes, each continuing the chain left by the one before. */
  ghost predicate LegalRun(tree: Hash -> Block, chain: seq<Block>, run: seq<Write>)
    decreases |run|
  {
    |run| > 0 ==>
      && |run[0].blocks| == |run[0].validations|
      && Extends(chain, run[0].blocks) && Genuine(tree, run[0].blocks)
      && LegalRun(tree, Spliced(chain, run[0].blocks), run[1..])
  }

  ghost function ChainAfter(tree: Hash -> Block, chain: seq<Block>, run: seq<Write>): seq<Block>
    requires LegalRun(tree, chain, run)
    decreases |run|
  {
    if |run| == 0 then chain else ChainAfter(tree, Spliced(chain, run[0].blocks), run[1..])
  }

  ghost function IndexAfter(tree: Hash -> Block, chain: seq<Block>, nums: Index, infos: Infos, run: seq<Write>): (Index, Infos)
    requires LegalRun(tree, chain, run)
    decreases |run|
  {
    if |run| == 0 then (nums, infos)
    else
      var w := run[0];
      IndexAfter(tree, Spliced(chain, w.blocks), Rewritten(nums, w.blocks), Recorded(infos, w.blocks, w.validations), run[1..])
  }

  /** Over any run of writes the index is the index of the spliced chain, every hash written before
      or during the run is still known, and each is a fork exactly when it is not on that chain. */
  lemma {:induction false} RunRefinesChain(tree: Hash -> Block, nums: Index, infos: Infos, chain: seq<Block>, run: seq<Write>)
    requires IndexInv(tree, nums, infos, chain)
    requires LegalRun(tree, chain, run)
    ensures var (nums', infos') := IndexAfter(tree, chain, nums, infos, run);
            var chain' := ChainAfter(tree, chain, run);
            && IndexInv(tree, nums', infos', chain')
            && (forall h :: h in infos ==> h in infos')
            && (forall i, j :: 0 <= i < |run| && 0 <= j < |run[i].blocks| ==> run[i].blocks[j].hash in infos')
            && (forall h :: h in infos' ==> IsFork(nums', infos', h) == Some(!OnChain(chain', h)))
    decreases |run|
  {
    if |run| == 0 {
      forall h | h in infos { ForkIffOffChain(tree, nums, infos, chain, h); }
    } else {
      var w := run[0];
      WriteKeepsIndexInv(tree, nums, infos, chain, w.blocks, w.validations);
      RecordedHas(tree, infos, w.blocks, w.validations);
      var nums1, infos1, chain1 := Rewritten(nums, w.blocks), Recorded(infos, w.blocks, w.validations), Spliced(chain, w.blocks);
      RunRefinesChain(tree, nums1, infos1, chain1, run[1..]);
      var (nums', infos') := IndexAfter(tree, chain1, nums1, infos1, run[1..]);
      forall i, j | 0 <= i < |run| && 0 <= j < |run[i].blocks|
        ensures run[i].blocks[j].hash in infos'
      {
        if i > 0 { assert run[1..][i - 1] == run[i]; }
      }
    }
  }
}
