/** Bringing the singleton topic up to the version head when this instance becomes leader. */
module Alignment {
  import opened Types
  import opened CanonicalIndex
  import opened CommonAncestor
  import opened PublishedWalk
  import opened ScanCore

  const HALF: int := 0x8000_0000_0000_0000

  /** The height an index lookup by number really reads: the argument is converted to a signed
      integer first, and the key holds its magnitude. */
  function SignedKey(h: u64): u64 {
    if h < HALF then h else 0x1_0000_0000_0000_0000 - h
  }

  /** Lookups by number are exact up to half the range and never beyond it. */
  lemma SignedKeyExact(h: u64)
    ensures SignedKey(h) == h <==> h <= HALF
  {
  }

  /** The outer messages of one alignment: drops, then new blocks, each lowest first. */
  function Announce(drops: seq<Block>, news: seq<Block>): (r: seq<Outer>)
    ensures |r| == |drops| + |news|
  {
    seq(|drops| + |news|, i requires 0 <= i < |drops| + |news| =>
      if i < |drops| then Outer(drops[i].num, drops[i].hash, true)
      else Outer(news[i - |drops|].num, news[i - |drops|].hash, false))
  }

  /** The index is that of a stored chain ending at the version head, and what is known of a block
      by hash is its height. */
  ghost predicate Consistent(tree: Tree, nums: Index, infos: Infos, chain: seq<Block>, version: Outer) {
    && WellStored(tree) && Linked(chain) && |chain| > 0 && nums == IndexOf(chain)
    && (forall i :: 0 <= i < |chain| ==> Stored(tree, chain[i]))
    && version.hash == Tail(chain).hash && version.height == chain[0].num + |chain| - 1 <= HALF
    && (forall h :: h in infos && h in tree ==> infos[h].num == tree[h].num)
  }

  predicate Known(infos: Infos, chain: seq<Block>) {
    forall i :: 0 <= i < |chain| ==> chain[i].hash in infos
  }

  /** When an alignment from `s` can succeed. */
  ghost predicate Alignable(tree: Tree, chain: seq<Block>, s: Block)
    requires WellStored(tree) && |chain| > 0 && Stored(tree, s) && Stored(tree, Tail(chain))
  {
    chain[0].num <= s.num <= Tail(chain).num && HaveCommon(tree, s, Tail(chain))
  }

  /** What an alignment does to the topic: `n` messages of the announcement of the join. */
  ghost predicate Announced(tree: Tree, s: Block, v: Block, j: Join, before: seq<Outer>, after: seq<Outer>, n: nat)
    requires WellStored(tree) && Stored(tree, s) && Stored(tree, v)
  {
    && IsJoin(tree, s, v, j.ancestor, j.locals, j.remotes)
    && n <= |j.locals| + |j.remotes|
    && after == before + Announce(j.locals, j.remotes)[..n]
  }

  /** The index maps a height of the chain to the block there. */
  lemma Mapping(tree: Tree, nums: Index, infos: Infos, chain: seq<Block>, version: Outer, h: u64)
    requires Consistent(tree, nums, infos, chain, version)
    ensures Tail(chain).num == version.height
    ensures h in nums <==> chain[0].num <= h <= version.height
    ensures h in nums ==> nums[h] == chain[h - chain[0].num].hash && chain[h - chain[0].num].num == h
    ensures h in nums && nums[h] in infos ==> IsFork(nums, infos, nums[h]) == Some(false) && infos[nums[h]].num == h
  {
    IndexOfAt(chain, h);
    LinkedAt(chain, 0, |chain| - 1);
    if chain[0].num <= h <= version.height {
      LinkedAt(chain, 0, h - chain[0].num);
      assert Stored(tree, chain[h - chain[0].num]);
    }
  }

  /** A singleton head on the chain joins the version head there, and the rest of the chain is new. */
  lemma FastForwardJoin(tree: Tree, chain: seq<Block>, k: nat)
    requires WellStored(tree) && Linked(chain) && k < |chain|
    requires forall i :: 0 <= i < |chain| ==> Stored(tree, chain[i])
    ensures IsJoin(tree, chain[k], Tail(chain), chain[k], [], chain[k + 1..])
  {
    var rest := chain[k + 1..];
    assert Path(tree, chain[k], rest, Tail(chain)) by {
      forall i | 0 <= i < |rest| - 1
        ensures rest[i + 1].num == rest[i].num + 1 && rest[i + 1].parent == rest[i].hash
      {
        assert rest[i] == chain[k + 1 + i] && rest[i + 1] == chain[k + 1 + i + 1];
      }
      if |rest| > 0 { assert rest[0] == chain[k + 1]; }
    }
    forall c | IsAncestor(tree, c, chain[k]) ensures c.num <= chain[k].num { AncestorBelow(tree, c, chain[k]); }
  }

  lemma PrefixSnoc(before: seq<Outer>, drops: seq<Block>, news: seq<Block>, n: nat)
    requires n < |drops| + |news|
    ensures before + Announce(drops, news)[..n] + [Announce(drops, news)[n]] == before + Announce(drops, news)[..n + 1]
  {
  }

  class Aligner {
    var topic: seq<Outer>

    constructor (topic: seq<Outer>)
      ensures this.topic == topic
    {
      this.topic := topic;
    }

    /** Sends what the index holds above a height, up to the version height. */
    method FastForward(tree: Tree, nums: Index, infos: Infos, low: u64, high: u64, accepts: nat) returns (ok: bool, ghost sent: nat)
      requires high < MAX_U64
      modifies this
      ensures FastForwarded(tree, nums, infos, low, high, accepts, old(topic), topic, ok, sent)
    {
      hide Lookup;
      sent := 0;
      var written: nat := 0;
      ghost var start := Successor(low);
      var i: u64 := Successor(low);
      while i <= high
        invariant sent == written <= accepts && i == start + sent && sent <= Span(start, high)
        invariant old(topic) <= topic && |topic| == |old(topic)| + sent
        invariant forall t: nat :: t < sent ==> LookedUp(tree, nums, infos, start, old(topic), topic, t)
        decreases high + 1 - i
      {
        var m := Lookup(nums, infos, i);
        if m.None? || m.value.hash !in tree || written == accepts { return false, sent; }
        ghost var was := topic;
        topic := topic + [m.value];
        forall t: nat | t <= sent
          ensures LookedUp(tree, nums, infos, start, old(topic), topic, t)
        {
          if t < sent { assert LookedUp(tree, nums, infos, start, old(topic), was, t); }
        }
        written, sent, i := written + 1, sent + 1, i + 1;
      }
      return true, sent;
    }

    /** Sends drops, then new blocks. */
    method Reorganise(locals: seq<Block>, remotes: seq<Block>, accepts: nat) returns (ok: bool, ghost sent: nat)
      modifies this
      ensures sent <= |locals| + |remotes| && topic == old(topic) + Announce(locals, remotes)[..sent]
      ensures ok <==> sent == |locals| + |remotes|
      ensures ok <==> accepts >= |locals| + |remotes|
    {
      sent := 0;
      var i := 0;
      while i < |locals|
        invariant i <= |locals| && sent == i <= accepts
        invariant topic == old(topic) + Announce(locals, remotes)[..sent]
      {
        if i == accepts { return false, sent; }
        PrefixSnoc(old(topic), locals, remotes, sent);
        topic := topic + [Outer(locals[i].num, locals[i].hash, true)];
        i, sent := i + 1, sent + 1;
      }
      i := 0;
      while i < |remotes|
        invariant i <= |remotes| && sent == |locals| + i <= accepts
        invariant topic == old(topic) + Announce(locals, remotes)[..sent]
      {
        if |locals| + i == accepts { return false, sent; }
        PrefixSnoc(old(topic), locals, remotes, sent);
        topic := topic + [Outer(remotes[i].num, remotes[i].hash, false)];
        i, sent := i + 1, sent + 1;
      }
      return true, sent;
    }

    /** Sends the blocks of the index above the singleton head when that head is canonical, and
        otherwise the drops and new blocks of the common-ancestor walk. `accepts` writes succeed. */
    method Align(tree: Tree, nums: Index, infos: Infos, version: Outer, single: Outer, accepts: nat) returns (ok: bool, ghost sent: nat)
      requires WellStored(tree) && version.height < MAX_U64
      modifies this
      ensures AlignResult(tree, nums, infos, version, single, accepts, old(topic), topic, ok, sent)
    {
      hide IsAncestor, Path, Announce, FastForwarded, Lookup, IsJoin;
      if version.hash == single.hash { return true, 0; }
      var entry := Lookup(nums, infos, single.height);
      if entry.None? { return false, 0; }
      if entry.value.hash == single.hash {
        ok, sent := FastForward(tree, nums, infos, single.height, version.height, accepts);
        return;
      }
      if version.hash !in tree || single.hash !in tree { return false, 0; }
      var r := GetCommonAncestor(tree, tree[single.hash], tree[version.hash]);
      if r.None? { return false, 0; }
      ghost var before := topic;
      ok, sent := Reorganise(r.value.locals, r.value.remotes, accepts);
      assert Announced(tree, tree[single.hash], tree[version.hash], r.value, before, topic, sent);
    }
  }

  /** The next `uint64`, which after the last one is zero. */
  function Successor(h: u64): u64 {
    if h == MAX_U64 then 0 else h + 1
  }

  function Span(start: u64, high: u64): nat {
    if start <= high then high - start + 1 else 0
  }

  /** What the index knows of a height: the message for its canonical block. */
  function Lookup(nums: Index, infos: Infos, h: u64): Option<Outer> {
    var key := SignedKey(h);
    if key !in nums || nums[key] !in infos then None
    else Some(Outer(infos[nums[key]].num, nums[key], IsFork(nums, infos, nums[key]).value))
  }

  /** The `t`-th message added to a topic is the one for the `t`-th height. */
  predicate LookedUp(tree: Tree, nums: Index, infos: Infos, start: u64, before: seq<Outer>, after: seq<Outer>, t: nat) {
    && start + t <= MAX_U64 && |before| + t < |after|
    && Lookup(nums, infos, start + t) == Some(after[|before| + t]) && after[|before| + t].hash in tree
  }

  /** The messages for the heights above `low`, in order, up to `high` or the first that cannot be
      looked up, read or written. */
  ghost predicate FastForwarded(tree: Tree, nums: Index, infos: Infos, low: u64, high: u64, accepts: nat,
                                before: seq<Outer>, after: seq<Outer>, ok: bool, sent: nat)
    requires high < MAX_U64
  {
    var start := Successor(low);
    && before <= after && |after| == |before| + sent && sent <= Span(start, high) && sent <= accepts
    && (forall t: nat :: t < sent ==> LookedUp(tree, nums, infos, start, before, after, t))
    && (ok <==> sent == Span(start, high))
    && (!ok ==> var m := Lookup(nums, infos, start + sent); sent == accepts || m.None? || m.value.hash !in tree)
  }

  /** The result of an alignment, on any index and any stored blocks. */
  ghost predicate AlignResult(tree: Tree, nums: Index, infos: Infos, version: Outer, single: Outer, accepts: nat,
                              before: seq<Outer>, after: seq<Outer>, ok: bool, sent: nat)
    requires WellStored(tree) && version.height < MAX_U64
  {
    var entry := Lookup(nums, infos, single.height);
    if version.hash == single.hash then ok && sent == 0 && after == before
    else if entry.None? then !ok && sent == 0 && after == before
    else if entry.value.hash == single.hash then
      FastForwarded(tree, nums, infos, single.height, version.height, accepts, before, after, ok, sent)
    else if version.hash in tree && single.hash in tree && tree[single.hash].num <= tree[version.hash].num
            && HaveCommon(tree, tree[single.hash], tree[version.hash]) then
      exists j :: && Announced(tree, tree[single.hash], tree[version.hash], j, before, after, sent)
                  && (ok <==> sent == |j.locals| + |j.remotes|) && (ok <==> accepts >= |j.locals| + |j.remotes|)
    else !ok && sent == 0 && after == before
  }

  /** On an index that is consistent, both ways of aligning come to the announcement of the one join, cut
      short only where a write or lookup fails; without a join nothing is sent. */
  lemma AlignmentIsJoin(tree: Tree, nums: Index, infos: Infos, chain: seq<Block>, version: Outer, single: Outer, accepts: nat,
                        before: seq<Outer>, after: seq<Outer>, ok: bool, sent: nat)
    requires Consistent(tree, nums, infos, chain, version)
    requires single.hash in tree ==> tree[single.hash].num == single.height
    requires AlignResult(tree, nums, infos, version, single, accepts, before, after, ok, sent)
    ensures single.hash !in tree ==> !ok && after == before
    ensures single.hash in tree && Stored(tree, Tail(chain)) && !Alignable(tree, chain, tree[single.hash]) ==> !ok && after == before
    ensures Stored(tree, Tail(chain))
    ensures single.hash in tree && Alignable(tree, chain, tree[single.hash]) ==>
              exists j :: && Announced(tree, tree[single.hash], Tail(chain), j, before, after, sent)
                          && (ok <==> sent == |j.locals| + |j.remotes|)
                          && (Known(infos, chain) && accepts >= |j.locals| + |j.remotes| ==> ok)
  {
    hide IsAncestor, Path, Announce, FastForwarded, IsJoin;
    var v := Tail(chain);
    assert Stored(tree, v) by { assert Stored(tree, chain[|chain| - 1]); }
    var key := SignedKey(single.height);
    Mapping(tree, nums, infos, chain, version, key);
    if version.hash == single.hash {
      FastForwardJoin(tree, chain, |chain| - 1);
      CommonWithItself(tree, chain, |chain| - 1);
      AnnouncesNothing(tree, v, before);
    } else if Lookup(nums, infos, single.height).None? {
      if single.hash in tree && Alignable(tree, chain, tree[single.hash]) {
        assert chain[key - chain[0].num].hash !in infos;
        NothingSent(tree, tree[single.hash], chain, before);
      }
    } else if nums[key] == single.hash {
      CanonicalHead(tree, nums, infos, chain, version, single, accepts, before, after, ok, sent);
    }
  }

  lemma AnnouncesNothing(tree: Tree, v: Block, topic: seq<Outer>)
    requires WellStored(tree) && Stored(tree, v) && IsJoin(tree, v, v, v, [], [])
    ensures Announced(tree, v, v, Join(v, [], []), topic, topic, 0)
  {
  }

  lemma CanonicalHead(tree: Tree, nums: Index, infos: Infos, chain: seq<Block>, version: Outer, single: Outer, accepts: nat,
                      before: seq<Outer>, after: seq<Outer>, ok: bool, sent: nat)
    requires Consistent(tree, nums, infos, chain, version)
    requires single.hash in tree ==> tree[single.hash].num == single.height
    requires SignedKey(single.height) in nums && nums[SignedKey(single.height)] == single.hash
    requires FastForwarded(tree, nums, infos, single.height, version.height, accepts, before, after, ok, sent)
    ensures Stored(tree, Tail(chain)) && single.hash in tree && Alignable(tree, chain, tree[single.hash])
    ensures exists j :: && Announced(tree, tree[single.hash], Tail(chain), j, before, after, sent)
                        && (ok <==> sent == |j.locals| + |j.remotes|)
                        && (Known(infos, chain) && accepts >= |j.locals| + |j.remotes| ==> ok)
  {
    hide IsAncestor, Path, Announce, IsJoin, FastForwarded;
    var key := SignedKey(single.height);
    Mapping(tree, nums, infos, chain, version, key);
    var k: nat := key - chain[0].num;
    assert Stored(tree, chain[k]);
    FastForwardJoin(tree, chain, k);
    CommonWithItself(tree, chain, k);
    ForwardIsAnnounced(tree, nums, infos, chain, version, single.height, accepts, before, after, ok, sent);
    assert Announced(tree, chain[k], Tail(chain), Join(chain[k], [], chain[k + 1..]), before, after, sent);
  }

  /** On a consistent index the messages looked up are those of the rest of the chain. */
  lemma ForwardIsAnnounced(tree: Tree, nums: Index, infos: Infos, chain: seq<Block>, version: Outer, low: u64, accepts: nat,
                           before: seq<Outer>, after: seq<Outer>, ok: bool, sent: nat)
    requires Consistent(tree, nums, infos, chain, version) && chain[0].num <= low <= version.height
    requires FastForwarded(tree, nums, infos, low, version.height, accepts, before, after, ok, sent)
    ensures var rest := chain[low - chain[0].num + 1..];
            && sent <= |rest| && after == before + Announce([], rest)[..sent]
            && (ok <==> sent == |rest|)
            && (Known(infos, chain) && accepts >= |rest| ==> ok)
  {
    hide Consistent, IsFork;
    ConsistentHeights(tree, nums, infos, chain, version);
    var rest := chain[low - chain[0].num + 1..];
    forall t: nat | t < sent ensures t < |rest| && after[|before| + t] == Announce([], rest)[t] {
      assert LookedUp(tree, nums, infos, low + 1, before, after, t);
      LookupOnChain(tree, nums, infos, chain, version, low + 1 + t);
      assert rest[t] == chain[low + 1 + t - chain[0].num];
    }
    assert after == before + Announce([], rest)[..sent];
    if sent < |rest| && Known(infos, chain) {
      LookupOnChain(tree, nums, infos, chain, version, low + 1 + sent);
    }
  }

  lemma ConsistentHeights(tree: Tree, nums: Index, infos: Infos, chain: seq<Block>, version: Outer)
    requires Consistent(tree, nums, infos, chain, version)
    ensures |chain| > 0 && version.height == chain[0].num + |chain| - 1 <= HALF
  {
  }

  lemma LookupOnChain(tree: Tree, nums: Index, infos: Infos, chain: seq<Block>, version: Outer, h: u64)
    requires Consistent(tree, nums, infos, chain, version) && chain[0].num <= h <= version.height
    ensures var b := chain[h - chain[0].num];
            && b.hash in tree
            && Lookup(nums, infos, h) == if b.hash in infos then Some(Outer(b.num, b.hash, false)) else None
  {
    Mapping(tree, nums, infos, chain, version, h);
    assert Stored(tree, chain[h - chain[0].num]);
  }

  lemma NothingSent(tree: Tree, s: Block, chain: seq<Block>, topic: seq<Outer>)
    requires WellStored(tree) && |chain| > 0 && Stored(tree, s) && Stored(tree, Tail(chain)) && Alignable(tree, chain, s)
    requires s != Tail(chain)
    ensures exists j :: Announced(tree, s, Tail(chain), j, topic, topic, 0) && |j.locals| + |j.remotes| > 0
  {
    var j := JoinExists(tree, s, Tail(chain));
    assert Announced(tree, s, Tail(chain), j, topic, topic, 0);
  }

  lemma CommonWithItself(tree: Tree, chain: seq<Block>, k: nat)
    requires WellStored(tree) && Linked(chain) && k < |chain|
    requires forall i :: 0 <= i < |chain| ==> Stored(tree, chain[i])
    ensures HaveCommon(tree, chain[k], Tail(chain))
    ensures Stored(tree, Tail(chain))
  {
    FastForwardJoin(tree, chain, k);
    PathIsAncestor(tree, chain[k], chain[k + 1..], Tail(chain));
    assert IsAncestor(tree, chain[k], chain[k]);
  }

  // ---------------------------------------------------------------- what a reader of the topic sees

  /** The blocks a reader holds live: each message for a block adds or removes it. */
  function Live(start: set<Hash>, log: seq<Outer>): set<Hash> {
    if |log| == 0 then start
    else
      var m, before := log[|log| - 1], Live(start, log[..|log| - 1]);
      if m.isFork then before - {m.hash} else before + {m.hash}
  }

  /** The hashes of a block and its ancestors, down to a height where the topic starts. */
  ghost function Chain(tree: Tree, b: Block, floor: u64): set<Hash>
    requires WellStored(tree) && Stored(tree, b)
    decreases b.num
  {
    if b.num < floor then {}
    else {b.hash} + (if b.parent in tree then Chain(tree, tree[b.parent], floor) else {})
  }

  ghost function Hashes(blocks: seq<Block>): set<Hash> {
    set i | 0 <= i < |blocks| :: blocks[i].hash
  }

  lemma ChainBelow(tree: Tree, b: Block, floor: u64, h: Hash)
    requires WellStored(tree) && Stored(tree, b) && h in Chain(tree, b, floor)
    ensures h in tree && floor <= tree[h].num <= b.num
    decreases b.num
  {
    if h != b.hash { ChainBelow(tree, tree[b.parent], floor, h); }
  }

  lemma PathFront(tree: Tree, anc: Block, list: seq<Block>, head: Block) returns (below: Block)
    requires WellStored(tree) && Stored(tree, anc) && Path(tree, anc, list, head) && |list| > 0
    ensures Stored(tree, below) && head.parent in tree && tree[head.parent] == below && below.num >= anc.num && head.num == below.num + 1
    ensures Path(tree, anc, list[..|list| - 1], below) && list == list[..|list| - 1] + [head]
  {
    var n := |list| - 1;
    below := if n == 0 then anc else list[n - 1];
    if n > 0 { assert list[n - 1 + 1].parent == list[n - 1].hash; }
    PathLength(tree, anc, list[..n], below);
  }

  /** The chain of a head is that of an ancestor and the path between them. */
  lemma {:induction false} ChainSplits(tree: Tree, anc: Block, list: seq<Block>, head: Block, floor: u64)
    requires WellStored(tree) && Stored(tree, anc) && Stored(tree, head) && Path(tree, anc, list, head) && floor <= anc.num + 1
    ensures Chain(tree, head, floor) == Chain(tree, anc, floor) + Hashes(list)
    ensures Chain(tree, head, floor) - Hashes(list) == Chain(tree, anc, floor)
    decreases |list|
  {
    if |list| > 0 {
      var below := PathFront(tree, anc, list, head);
      hide Path, Linked;
      ChainSplits(tree, anc, list[..|list| - 1], below, floor);
      assert Hashes(list) == Hashes(list[..|list| - 1]) + {head.hash};
      if head.hash in Chain(tree, below, floor) { ChainBelow(tree, below, floor, head.hash); }
    }
  }

  lemma LiveJoined(start: set<Hash>, first: seq<Outer>, second: seq<Outer>)
    ensures Live(start, first + second) == Live(Live(start, first), second)
    decreases |second|
  {
    if |second| == 0 {
      assert first + second == first;
    } else {
      var front := second[..|second| - 1];
      assert (first + second)[..|first| + |front|] == first + front;
      LiveJoined(start, first, front);
    }
  }

  lemma LiveAnnounced(start: set<Hash>, drops: seq<Block>, news: seq<Block>, n: nat)
    requires n <= |drops| + |news|
    ensures Live(start, Announce(drops, news)[..n]) ==
            if n <= |drops| then start - Hashes(drops[..n]) else start - Hashes(drops) + Hashes(news[..n - |drops|])
  {
    if n > 0 {
      var log := Announce(drops, news);
      assert log[..n][..n - 1] == log[..n - 1];
      LiveAnnounced(start, drops, news, n - 1);
      if n <= |drops| {
        assert drops[..n] == drops[..n - 1] + [drops[n - 1]];
        assert drops[..|drops|] == drops;
      } else {
        var k := n - |drops|;
        assert news[..k] == news[..k - 1] + [news[k - 1]];
        assert drops[..|drops|] == drops;
        assert Hashes(news[..k]) == Hashes(news[..k - 1]) + {news[k - 1].hash};
      }
    } else {
      assert Hashes(drops[..0]) == {};
    }
  }

  /** A finished alignment, on either branch, turns a topic whose live blocks are the chain of the
      singleton head into one whose live blocks are the chain of the version head. */
  lemma AlignedTopicIsVersionChain(tree: Tree, s: Block, v: Block, j: Join, before: seq<Outer>, after: seq<Outer>, n: nat, floor: u64)
    requires WellStored(tree) && Stored(tree, s) && Stored(tree, v)
    requires Announced(tree, s, v, j, before, after, n) && n == |j.locals| + |j.remotes| && floor <= j.ancestor.num + 1
    requires Live({}, before) == Chain(tree, s, floor)
    ensures Live({}, after) == Chain(tree, v, floor)
  {
    hide Path, Live, Chain, IsAncestor;
    var log := Announce(j.locals, j.remotes);
    assert log[..n] == log;
    LiveJoined({}, before, log);
    LiveAnnounced(Chain(tree, s, floor), j.locals, j.remotes, n);
    ChainSplits(tree, j.ancestor, j.locals, s, floor);
    ChainSplits(tree, j.ancestor, j.remotes, v, floor);
    assert j.locals[..|j.locals|] == j.locals && j.remotes[..|j.remotes|] == j.remotes;
  }

  // ---------------------------------------------------------------- a reader that keeps a stack

  /** One new block more. */
  lemma NewsSnoc(below: seq<Anchor>, news: seq<Block>, n: nat)
    requires Linked(news) && 0 < n <= |news| && (|below| > 0 ==> below[|below| - 1].height + 1 == news[0].num)
    ensures var m, r := Outer(news[n - 1].num, news[n - 1].hash, false), below + Anchors(news[..n - 1]);
            && Announce([], news)[..n] == Announce([], news)[..n - 1] + [m]
            && below + Anchors(news[..n]) == r + [HeadOf(m)]
            && (|r| == 0 || r[|r| - 1].height + 1 == m.height)
  {
    var r := below + Anchors(news[..n - 1]);
    if n > 1 { assert r[|r| - 1] == AnchorOf(news[n - 2]) && news[n - 2 + 1].num == news[n - 2].num + 1; }
  }

  lemma {:induction false} NewsReplay(below: seq<Anchor>, news: seq<Block>, n: nat)
    requires Linked(news) && n <= |news| && (|below| > 0 && |news| > 0 ==> below[|below| - 1].height + 1 == news[0].num)
    ensures ReplayFrom(below, Announce([], news)[..n]) == Some(below + Anchors(news[..n]))
  {
    hide Announce, Anchors, Linked;
    if n == 0 {
      assert below + Anchors(news[..0]) == below;
    } else {
      hide ReplayFrom;
      NewsReplay(below, news, n - 1);
      NewsSnoc(below, news, n);
      ReplaySnoc(below, Announce([], news)[..n - 1], Outer(news[n - 1].num, news[n - 1].hash, false));
    }
  }

  lemma {:induction false} StackReads(below: seq<Anchor>, locals: seq<Block>, remotes: seq<Block>)
    requires Linked(locals) && Linked(remotes) && (|below| > 0 && |remotes| > 0 ==> below[|below| - 1].height + 1 == remotes[0].num)
    ensures ReplayFrom(below + Anchors(locals), Announce(locals, remotes)) == if |locals| <= 1 then Some(below + Anchors(remotes)) else None
  {
    hide ReplayFrom;
    var log, stack := Announce(locals, remotes), below + Anchors(locals);
    var news := Announce([], remotes);
    assert news[..|remotes|] == news && remotes[..|remotes|] == remotes;
    NewsReplay(below, remotes, |remotes|);
    if |locals| == 0 {
      assert log == news && stack == below;
    } else {
      FirstDrop(below, locals, remotes);
      ReplayJoined(stack, log[..1], log[1..]);
      assert log == log[..1] + log[1..];
      if |locals| == 1 { assert log[1..] == news; }
    }
  }

  /** An alignment sends its drops lowest first, so a reader that pops its top block on a drop can
      follow it exactly when there is at most one; the set of live blocks does not depend on that. */
  lemma {:induction false} StackReadsAlignmentIff(tree: Tree, s: Block, v: Block, j: Join, below: seq<Anchor>)
    requires WellStored(tree) && Stored(tree, s) && Stored(tree, v) && IsJoin(tree, s, v, j.ancestor, j.locals, j.remotes)
    requires |below| > 0 ==> below[|below| - 1] == AnchorOf(j.ancestor)
    ensures var r := ReplayFrom(below + Anchors(j.locals), Announce(j.locals, j.remotes));
            && (r.Some? <==> |j.locals| <= 1)
            && (r.Some? ==> r.value == below + Anchors(j.remotes))
  {
    hide ReplayFrom, Announce, Anchors, IsAncestor;
    StackReads(below, j.locals, j.remotes);
  }

  lemma {:induction false} FirstDrop(below: seq<Anchor>, locals: seq<Block>, remotes: seq<Block>)
    requires Linked(locals) && |locals| > 0
    ensures ReplayFrom(below + Anchors(locals), Announce(locals, remotes)[..1]) == if |locals| == 1 then Some(below) else None
  {
    var log, stack := Announce(locals, remotes)[..1], below + Anchors(locals);
    assert log[..0] == [] && log[0] == Outer(locals[0].num, locals[0].hash, true);
    assert stack[|stack| - 1] == AnchorOf(Tail(locals));
    LinkedAt(locals, 0, |locals| - 1);
    if |locals| == 1 { assert stack[..|stack| - 1] == below; }
  }
}
