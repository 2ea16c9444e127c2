/** Two branches of two blocks each: the smallest tree on which an alignment's order of drops, and a
    failure among them, matter. */
module AlignmentExample {
  import opened Types
  import opened CommonAncestor
  import opened Alignment
  import opened AlignmentRetries
  import opened PublishedWalk

  /** `l1`, `l2` and `r1`, `r2` are two branches above `a`. */
  predicate Branches(a: Block, l1: Block, l2: Block, r1: Block, r2: Block) {
    && l1.parent == a.hash && l2.parent == l1.hash && r1.parent == a.hash && r2.parent == r1.hash
    && l1.num == r1.num == a.num + 1 && l2.num == r2.num == a.num + 2
    && DistinctHashes([a, l1, l2, r1, r2]) && a.parent !in {a.hash, l1.hash, l2.hash, r1.hash, r2.hash}
  }

  function TreeOf(a: Block, l1: Block, l2: Block, r1: Block, r2: Block): Tree {
    map[a.hash := a, l1.hash := l1, l2.hash := l2, r1.hash := r1, r2.hash := r2]
  }

  lemma Distinct5(a: Block, l1: Block, l2: Block, r1: Block, r2: Block)
    requires Branches(a, l1, l2, r1, r2)
    ensures a.hash != l1.hash && a.hash != l2.hash && a.hash != r1.hash && a.hash != r2.hash
    ensures l1.hash != l2.hash && l1.hash != r1.hash && l1.hash != r2.hash && l2.hash != r1.hash && l2.hash != r2.hash && r1.hash != r2.hash
  {
    var s := [a, l1, l2, r1, r2];
    assert s[0].hash != s[1].hash && s[0].hash != s[2].hash && s[0].hash != s[3].hash && s[0].hash != s[4].hash;
    assert s[1].hash != s[2].hash && s[1].hash != s[3].hash && s[1].hash != s[4].hash;
    assert s[2].hash != s[3].hash && s[2].hash != s[4].hash && s[3].hash != s[4].hash;
  }

  lemma TreeStores(a: Block, l1: Block, l2: Block, r1: Block, r2: Block)
    requires Branches(a, l1, l2, r1, r2)
    ensures var tree := TreeOf(a, l1, l2, r1, r2);
            WellStored(tree) && Stored(tree, a) && Stored(tree, l1) && Stored(tree, l2) && Stored(tree, r1) && Stored(tree, r2)
            && a.parent !in tree
  {
    Distinct5(a, l1, l2, r1, r2);
  }

  /** The heads of the branches join at the block below both. */
  lemma BranchesJoin(a: Block, l1: Block, l2: Block, r1: Block, r2: Block)
    requires Branches(a, l1, l2, r1, r2)
    ensures var tree := TreeOf(a, l1, l2, r1, r2);
            WellStored(tree) && Stored(tree, l2) && Stored(tree, r2) && IsJoin(tree, l2, r2, a, [l1, l2], [r1, r2])
  {
    var tree := TreeOf(a, l1, l2, r1, r2);
    TreeStores(a, l1, l2, r1, r2);
    Distinct5(a, l1, l2, r1, r2);
    hide Branches, TreeOf;
    assert IsAncestor(tree, l1, l2) && IsAncestor(tree, r1, r2) by { assert tree[l2.parent] == l1 && tree[r2.parent] == r1; }
    forall c | IsAncestor(tree, c, l2) && IsAncestor(tree, c, r2) ensures c.num <= a.num {
      AncestorBelow(tree, c, l2);
      if c.num == l2.num { AncestorBelow(tree, c, r2); }
      if c.num == l1.num {
        AncestorUnique(tree, c, l1, l2);
        AncestorUnique(tree, c, r1, r2);
      }
    }
  }

  /** A stored tree on which a reader that pops its top block on a drop cannot follow an alignment. */
  lemma TwoDropsMisread(a: Block, l1: Block, l2: Block, r1: Block, r2: Block)
    requires Branches(a, l1, l2, r1, r2)
    ensures var tree := TreeOf(a, l1, l2, r1, r2);
            WellStored(tree) && Stored(tree, l2) && Stored(tree, r2) && IsJoin(tree, l2, r2, a, [l1, l2], [r1, r2])
    ensures ReplayFrom(Anchors([a, l1, l2]), Announce([l1, l2], [r1, r2])) == None
  {
    BranchesJoin(a, l1, l2, r1, r2);
    StackReadsAlignmentIff(TreeOf(a, l1, l2, r1, r2), l2, r2, Join(a, [l1, l2], [r1, r2]), Anchors([a]));
    assert Anchors([a]) + Anchors([l1, l2]) == Anchors([a, l1, l2]);
  }

  function Start(a: Block, l1: Block, l2: Block): seq<Outer> {
    [Outer(a.num, a.hash, false), Outer(l1.num, l1.hash, false), Outer(l2.num, l2.hash, false)]
  }

  /** The topic after an attempt that failed on its second write, and after one that finished. */
  function AfterFailure(a: Block, l1: Block, l2: Block): seq<Outer> {
    Start(a, l1, l2) + [Outer(l1.num, l1.hash, true)]
  }

  function AfterRetry(a: Block, l1: Block, l2: Block, r1: Block, r2: Block): seq<Outer> {
    AfterFailure(a, l1, l2) + [Outer(l1.num, l1.hash, true), Outer(r1.num, r1.hash, false), Outer(r2.num, r2.hash, false)]
  }

  lemma LiveSnoc(start: set<Hash>, log: seq<Outer>, m: Outer)
    ensures Live(start, log + [m]) == if m.isFork then Live(start, log) - {m.hash} else Live(start, log) + {m.hash}
  {
    assert (log + [m])[..|log|] == log;
  }

  lemma StartLive(a: Block, l1: Block, l2: Block)
    ensures Live({}, Start(a, l1, l2)) == {a.hash, l1.hash, l2.hash}
  {
    var m0, m1, m2 := Outer(a.num, a.hash, false), Outer(l1.num, l1.hash, false), Outer(l2.num, l2.hash, false);
    LiveSnoc({}, [], m0);
    LiveSnoc({}, [m0], m1);
    LiveSnoc({}, [m0] + [m1], m2);
    assert [] + [m0] == [m0] && [m0] + [m1] + [m2] == Start(a, l1, l2);
  }

  /** After the retry the upper dropped block is still live. */
  lemma RetryLive(a: Block, l1: Block, l2: Block, r1: Block, r2: Block)
    requires Branches(a, l1, l2, r1, r2)
    ensures l2.hash in Live({}, AfterRetry(a, l1, l2, r1, r2))
  {
    Distinct5(a, l1, l2, r1, r2);
    StartLive(a, l1, l2);
    var t, d, n1, n2 := Start(a, l1, l2), Outer(l1.num, l1.hash, true), Outer(r1.num, r1.hash, false), Outer(r2.num, r2.hash, false);
    LiveSnoc({}, t, d);
    LiveSnoc({}, t + [d], d);
    LiveSnoc({}, t + [d] + [d], n1);
    LiveSnoc({}, t + [d] + [d] + [n1], n2);
    assert t + [d] + [d] + [n1] + [n2] == AfterRetry(a, l1, l2, r1, r2);
  }

  /** An alignment that fails on its second write and is repeated to the end: a legal run of attempts,
      after which a block off the version chain is live. */
  lemma FailedDropsStray(a: Block, l1: Block, l2: Block, r1: Block, r2: Block)
    requires Branches(a, l1, l2, r1, r2)
    ensures var tree := TreeOf(a, l1, l2, r1, r2);
            var topics := [Start(a, l1, l2), AfterFailure(a, l1, l2), AfterRetry(a, l1, l2, r1, r2)];
            var stops := [Stop(Join(a, [l1, l2], [r1, r2]), 1), Stop(Join(a, [l1], [r1, r2]), 3)];
            && WellStored(tree) && Stored(tree, r2) && IsRetrying(tree, r2, topics, stops) && Finished(stops[1])
            && l2.hash in Live({}, topics[2]) && !IsAncestor(tree, l2, r2)
  {
    var tree := TreeOf(a, l1, l2, r1, r2);
    var j := Join(a, [l1, l2], [r1, r2]);
    BranchesJoin(a, l1, l2, r1, r2);
    TreeStores(a, l1, l2, r1, r2);
    Distinct5(a, l1, l2, r1, r2);
    JoinOfDrop(tree, l2, r2, j, 1);
    assert j.locals[..1] == [l1];
    RetryLive(a, l1, l2, r1, r2);
    hide IsJoin, TreeOf, Branches, Live;
    var t0, t1, t2 := Start(a, l1, l2), AfterFailure(a, l1, l2), AfterRetry(a, l1, l2, r1, r2);
    FirstAnnounced(tree, l1, l2, r2, j, t0, t1);
    SecondAnnounced(tree, l1, r1, r2, Join(a, [l1], [r1, r2]), t1, t2);
    if IsAncestor(tree, l2, r2) { AncestorBelow(tree, l2, r2); }
  }

  lemma FirstAnnounced(tree: Tree, l1: Block, l2: Block, v: Block, j: Join, before: seq<Outer>, after: seq<Outer>)
    requires WellStored(tree) && Stored(tree, l2) && Stored(tree, v) && IsJoin(tree, l2, v, j.ancestor, j.locals, j.remotes)
    requires |j.locals| == 2 && j.locals[0] == l1 && after == before + [Outer(l1.num, l1.hash, true)]
    ensures Announced(tree, l2, v, j, before, after, 1)
  {
    hide IsJoin;
    assert Announce(j.locals, j.remotes)[..1] == [Outer(l1.num, l1.hash, true)];
  }

  lemma SecondAnnounced(tree: Tree, l1: Block, r1: Block, r2: Block, j: Join, before: seq<Outer>, after: seq<Outer>)
    requires WellStored(tree) && Stored(tree, l1) && Stored(tree, r2) && IsJoin(tree, l1, r2, j.ancestor, j.locals, j.remotes)
    requires j.locals == [l1] && j.remotes == [r1, r2]
    requires after == before + [Outer(l1.num, l1.hash, true), Outer(r1.num, r1.hash, false), Outer(r2.num, r2.hash, false)]
    ensures Announced(tree, l1, r2, j, before, after, 3)
  {
    hide IsJoin;
    assert Announce(j.locals, j.remotes)[..3] == [Outer(l1.num, l1.hash, true), Outer(r1.num, r1.hash, false), Outer(r2.num, r2.hash, false)];
  }
}
