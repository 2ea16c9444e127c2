/** Why a replayed notice may repair the cursor after transitions it was not told of: hashes fix the
    chains below them, so index and saved head can differ only from the first new block on. */
module Replay {
  import opened Types
  import opened CanonicalIndex
  import opened ScanCore

  /** Two chains that share a block share everything below it. */
  lemma {:induction false} ChainsAgreeBelow(tree: Hash -> Block, a: seq<Block>, b: seq<Block>, i: nat, j: nat, k: nat)
    requires Linked(a) && Genuine(tree, a) && Linked(b) && Genuine(tree, b)
    requires i < |a| && j < |b| && a[i].hash == b[j].hash && k <= i && k <= j
    ensures a[i - k] == b[j - k]
  {
    assert tree(a[i].hash) == a[i] && tree(b[j].hash) == b[j];
    if k > 0 {
      assert a[i - 1 + 1].parent == a[i - 1].hash && b[j - 1 + 1].parent == b[j - 1].hash;
      ChainsAgreeBelow(tree, a, b, i - 1, j - 1, k - 1);
    }
  }

  /** The same by heights. */
  lemma SameBelow(tree: Hash -> Block, a: seq<Block>, b: seq<Block>, i: nat, j: nat, h: u64)
    requires Linked(a) && Genuine(tree, a) && Linked(b) && Genuine(tree, b)
    requires i < |a| && j < |b| && a[i].hash == b[j].hash
    requires a[0].num <= h && b[0].num <= h && h <= a[i].num
    ensures Get(IndexOf(a), h) == Get(IndexOf(b), h) != None
  {
    assert tree(a[i].hash) == a[i] && tree(b[j].hash) == b[j];
    LinkedAt(a, 0, i);
    LinkedAt(b, 0, j);
    ChainsAgreeBelow(tree, a, b, i, j, a[i].num - h);
    IndexOfAt(a, h);
    IndexOfAt(b, h);
  }

  /** The transition the cursor missed: `saved` is the chain of the saved head, `now` the indexed one. */
  ghost predicate MissedTransition(tree: Hash -> Block, saved: seq<Block>, now: seq<Block>, c: Core, n: Notice) {
    && Linked(saved) && |saved| > 0 && Genuine(tree, saved) && Linked(now) && |now| > 0 && Genuine(tree, now)
    && c.nums == IndexOf(now) && c.state.Some? && c.state.value.published == AnchorOf(Tail(saved))
    && Linked(n.drops) && Genuine(tree, n.drops) && Genuine(tree, n.news)
    && NoticeExtends(n, c.state.value.published) && ReplayIndexed(c.nums, n.news)
  }

  /** The indexed chain has the notice's first new block, and below it what that block's parent fixes. */
  lemma FirstNewIndexed(tree: Hash -> Block, saved: seq<Block>, now: seq<Block>, c: Core, n: Notice) returns (j: nat)
    requires MissedTransition(tree, saved, now, c, n)
    ensures j < |now| && now[j] == n.news[0] && n.news[0].num == now[0].num + j
    ensures j > 0 ==> now[j - 1].hash == n.news[0].parent
  {
    var first := n.news[0];
    IndexOfAt(now, first.num);
    j := first.num - now[0].num;
    assert tree(now[j].hash) == now[j] && tree(first.hash) == first;
    if j > 0 { assert now[j - 1 + 1].parent == now[j - 1].hash; }
  }

  /** Likewise the old chain holds, one below the first new block, the block that is its parent. */
  lemma ParentInOld(tree: Hash -> Block, saved: seq<Block>, now: seq<Block>, c: Core, n: Notice) returns (i: int)
    requires MissedTransition(tree, saved, now, c, n)
    ensures i == n.news[0].num - 1 - saved[0].num && i < |saved|
    ensures i >= 0 ==> saved[i].hash == n.news[0].parent && saved[i].num == n.news[0].num - 1
    ensures |n.drops| > 0 && i >= -1 ==> i + 1 < |saved| && saved[i + 1] == n.drops[0]
  {
    LinkedAt(saved, 0, |saved| - 1);
    i := n.news[0].num - 1 - saved[0].num;
    if |n.drops| > 0 {
      LinkedAt(n.drops, 0, |n.drops| - 1);
      if i >= -1 {
        ChainsAgreeBelow(tree, n.drops, saved, |n.drops| - 1, |saved| - 1, |n.drops| - 1);
        if i >= 0 { assert saved[i + 1].parent == saved[i].hash; }
      }
    }
    if i >= 0 { LinkedAt(saved, 0, i); }
  }

  /** No height below the first new block changed. */
  lemma UnchangedBelow(tree: Hash -> Block, saved: seq<Block>, now: seq<Block>, c: Core, n: Notice, h: u64)
    requires MissedTransition(tree, saved, now, c, n)
    requires saved[0].num <= h < n.news[0].num && now[0].num <= h
    ensures Get(c.nums, h) == Get(IndexOf(saved), h) != None
  {
    var j := FirstNewIndexed(tree, saved, now, c, n);
    var i := ParentInOld(tree, saved, now, c, n);
    SameBelow(tree, saved, now, i, j - 1, h);
  }

  /** When the notice dropped blocks, the first new block's height did. */
  lemma ChangedAtFirst(tree: Hash -> Block, saved: seq<Block>, now: seq<Block>, c: Core, n: Notice)
    requires MissedTransition(tree, saved, now, c, n) && |n.drops| > 0 && n.drops[0].hash != n.news[0].hash
    requires saved[0].num <= n.news[0].num
    ensures Get(c.nums, n.news[0].num) != Get(IndexOf(saved), n.news[0].num)
  {
    var i := ParentInOld(tree, saved, now, c, n);
    LinkedAt(saved, 0, i + 1);
    IndexOfAt(saved, n.news[0].num);
  }

  /** Reconciliation restores coverage: if the heights below the old cursor were scanned against the
      chain of the saved head, then the heights below the new cursor were scanned against the hashes
      that are canonical now. With drops the new cursor is the first height that changed, if that is lower, and nothing less. */
  lemma ReplayRestoresCoverage(tree: Hash -> Block, saved: seq<Block>, now: seq<Block>, c: Core, n: Notice, anchor: Anchor,
       scanned: map<u64, Hash>)
    requires MissedTransition(tree, saved, now, c, n) && Reconciled(c, n, anchor, true).1
    requires saved[0].num <= c.state.value.baseline.height + 1 && now[0].num <= c.state.value.baseline.height + 1
    requires c.state.value.nextHeight <= c.state.value.published.height + 1
    requires forall x :: c.state.value.baseline.height < x < c.state.value.nextHeight ==>
          x in scanned && Get(IndexOf(saved), x) == Some(scanned[x])
    ensures var r := Reconciled(c, n, anchor, true).0;
            && r.cursor == r.state && r.state.Some? && r.nums == c.nums && r.state.value.published == anchor && r.state.value.pending.None?
            && (forall x :: r.state.value.baseline.height < x < r.state.value.nextHeight ==>
                  x in scanned && Get(r.nums, x) == Some(scanned[x]))
            && (|n.drops| > 0 ==>
                  r.state.value.nextHeight == (if c.state.value.nextHeight < n.news[0].num then c.state.value.nextHeight else n.news[0].num)
                  && r.state.value.generation > c.state.value.generation)
            && (|n.drops| == 0 ==>
                  r.state.value.nextHeight == c.state.value.nextHeight && r.state.value.generation == c.state.value.generation)
  {
    hide Linked, Genuine, IndexOf, ReplayIndexed, ValidState;
    var r := Reconciled(c, n, anchor, true).0;
    NextBelowFirst(tree, saved, now, c, n, anchor);
    forall x | r.state.value.baseline.height < x < r.state.value.nextHeight
      ensures x in scanned && Get(c.nums, x) == Some(scanned[x])
    {
      UnchangedBelow(tree, saved, now, c, n, x);
    }
  }

  lemma NextBelowFirst(tree: Hash -> Block, saved: seq<Block>, now: seq<Block>, c: Core, n: Notice, anchor: Anchor)
    requires MissedTransition(tree, saved, now, c, n) && Reconciled(c, n, anchor, true).1
    requires c.state.value.nextHeight <= c.state.value.published.height + 1
    ensures Reconciled(c, n, anchor, true).0.state.value.nextHeight <= n.news[0].num
  {
    hide ValidState;
  }
}
