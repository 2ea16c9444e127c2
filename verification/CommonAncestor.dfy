/** The common-ancestor walk over stored blocks. */
module CommonAncestor {
  import opened Types

  /** The stored block files, by hash. */
  type Tree = map<Hash, Block>

  /** Each stored block is found under its own hash, and a stored parent is one lower. */
  ghost predicate WellStored(tree: Tree) {
    forall h :: h in tree ==>
      && tree[h].hash == h
      && (tree[h].parent in tree ==> tree[tree[h].parent].num + 1 == tree[h].num)
  }

  predicate Stored(tree: Tree, b: Block) {
    b.hash in tree && tree[b.hash] == b
  }

  /** `c` is `b` or an ancestor of it. */
  ghost predicate IsAncestor(tree: Tree, c: Block, b: Block)
    requires WellStored(tree) && Stored(tree, b)
    decreases b.num
  {
    c == b || (b.parent in tree && IsAncestor(tree, c, tree[b.parent]))
  }

  /** The parent-linked blocks strictly above `anc` up to and including `head`, lowest first. */
  ghost predicate Path(tree: Tree, anc: Block, list: seq<Block>, head: Block) {
    && (forall i :: 0 <= i < |list| ==> Stored(tree, list[i]))
    && Linked(list)
    && if |list| == 0 then anc == head
       else list[0].parent == anc.hash && list[0].num == anc.num + 1 && Tail(list) == head
  }

  /** The highest common ancestor with the two paths that lead up from it. */
  ghost predicate IsJoin(tree: Tree, local: Block, remote: Block, anc: Block, locals: seq<Block>, remotes: seq<Block>)
    requires WellStored(tree) && Stored(tree, local) && Stored(tree, remote)
  {
    && Stored(tree, anc) && Path(tree, anc, locals, local) && Path(tree, anc, remotes, remote)
    && forall c :: IsAncestor(tree, c, local) && IsAncestor(tree, c, remote) ==> c.num <= anc.num
  }

  ghost predicate HaveCommon(tree: Tree, a: Block, b: Block)
    requires WellStored(tree) && Stored(tree, a) && Stored(tree, b)
  {
    exists c :: IsAncestor(tree, c, a) && IsAncestor(tree, c, b)
  }

  // ---------------------------------------------------------------- ancestors and paths

  lemma AncestorBelow(tree: Tree, c: Block, b: Block)
    requires WellStored(tree) && Stored(tree, b) && IsAncestor(tree, c, b)
    ensures c.num <= b.num && Stored(tree, c)
    ensures c.num == b.num ==> c == b
    decreases b.num
  {
    if c != b { AncestorBelow(tree, c, tree[b.parent]); }
  }

  /** Two ancestors of one block at one height are the same block. */
  lemma AncestorUnique(tree: Tree, a: Block, b: Block, head: Block)
    requires WellStored(tree) && Stored(tree, head) && IsAncestor(tree, a, head) && IsAncestor(tree, b, head) && a.num == b.num
    ensures a == b
    decreases head.num
  {
    AncestorBelow(tree, a, head);
    AncestorBelow(tree, b, head);
    if a != head && b != head { AncestorUnique(tree, a, b, tree[head.parent]); }
  }

  lemma PathIsAncestor(tree: Tree, anc: Block, list: seq<Block>, head: Block)
    requires WellStored(tree) && Stored(tree, anc) && Stored(tree, head) && Path(tree, anc, list, head)
    ensures IsAncestor(tree, anc, head)
    decreases |list|
  {
    if |list| > 1 {
      var front := list[..|list| - 1];
      assert Stored(tree, list[|list| - 2]);
      assert list[|list| - 2 + 1] == head && head.parent == list[|list| - 2].hash;
      assert tree[head.parent] == list[|list| - 2];
      PathIsAncestor(tree, anc, front, list[|list| - 2]);
    }
  }

  /** The list is determined by its ends. */
  lemma PathUnique(tree: Tree, anc: Block, list: seq<Block>, list': seq<Block>, head: Block)
    requires WellStored(tree) && Stored(tree, anc) && Path(tree, anc, list, head) && Path(tree, anc, list', head)
    ensures list == list'
    decreases |list|
  {
    PathLength(tree, anc, list, head);
    PathLength(tree, anc, list', head);
    if |list| > 0 {
      var n := |list| - 1;
      if n > 0 {
        assert list[n - 1 + 1] == head == list'[n - 1 + 1];
        assert Stored(tree, list[n - 1]) && Stored(tree, list'[n - 1]);
        PathUnique(tree, anc, list[..n], list'[..n], list[n - 1]);
      }
      assert list == list[..n] + [head] && list' == list'[..n] + [head];
    }
  }

  lemma PathLength(tree: Tree, anc: Block, list: seq<Block>, head: Block)
    requires Path(tree, anc, list, head)
    ensures head.num == anc.num + |list|
  {
    if |list| > 0 { LinkedAt(list, 0, |list| - 1); }
  }

  /** The contract of the walk leaves no choice, so every way of computing a join agrees. */
  lemma JoinUnique(tree: Tree, local: Block, remote: Block, anc: Block, locals: seq<Block>, remotes: seq<Block>,
                   anc': Block, locals': seq<Block>, remotes': seq<Block>)
    requires WellStored(tree) && Stored(tree, local) && Stored(tree, remote)
    requires IsJoin(tree, local, remote, anc, locals, remotes) && IsJoin(tree, local, remote, anc', locals', remotes')
    ensures anc == anc' && locals == locals' && remotes == remotes'
  {
    PathIsAncestor(tree, anc, locals, local);
    PathIsAncestor(tree, anc, remotes, remote);
    PathIsAncestor(tree, anc', locals', local);
    PathIsAncestor(tree, anc', remotes', remote);
    AncestorUnique(tree, anc, anc', local);
    PathUnique(tree, anc, locals, locals', local);
    PathUnique(tree, anc, remotes, remotes', remote);
  }

  // ---------------------------------------------------------------- the walk

  /** One step down prepends a block to the path. */
  lemma StepDown(tree: Tree, cur: Block, acc: seq<Block>, head: Block)
    requires WellStored(tree) && Stored(tree, cur) && cur.parent in tree && Path(tree, cur, Reversed(acc), head)
    ensures Path(tree, tree[cur.parent], Reversed(acc + [cur]), head)
  {
    var shorter, list := Reversed(acc), Reversed(acc + [cur]);
    assert list == [cur] + shorter;
    forall i | 0 <= i < |list| - 1
      ensures list[i + 1].num == list[i].num + 1 && list[i + 1].parent == list[i].hash
    {
      if i > 0 { assert list[i] == shorter[i - 1] && list[i + 1] == shorter[i - 1 + 1]; }
    }
  }

  /** Common ancestors below a height are also below the block one step down. */
  ghost predicate CommonKept(tree: Tree, local: Block, remote: Block, curLocal: Block, curRemote: Block)
    requires WellStored(tree) && Stored(tree, local) && Stored(tree, remote) && Stored(tree, curLocal) && Stored(tree, curRemote)
  {
    forall c :: IsAncestor(tree, c, local) && IsAncestor(tree, c, remote) ==>
      IsAncestor(tree, c, curLocal) && IsAncestor(tree, c, curRemote)
  }

  lemma LowerRemote(tree: Tree, local: Block, remote: Block, curRemote: Block)
    requires WellStored(tree) && Stored(tree, local) && Stored(tree, remote) && Stored(tree, curRemote)
    requires curRemote.num > local.num && CommonKept(tree, local, remote, local, curRemote)
    ensures curRemote.parent !in tree ==> !HaveCommon(tree, local, remote)
    ensures curRemote.parent in tree ==> CommonKept(tree, local, remote, local, tree[curRemote.parent])
  {
    forall c | IsAncestor(tree, c, local) && IsAncestor(tree, c, remote)
      ensures curRemote.parent in tree && IsAncestor(tree, c, tree[curRemote.parent])
    {
      AncestorBelow(tree, c, local);
    }
  }

  lemma LowerBoth(tree: Tree, local: Block, remote: Block, curLocal: Block, curRemote: Block)
    requires WellStored(tree) && Stored(tree, local) && Stored(tree, remote) && Stored(tree, curLocal) && Stored(tree, curRemote)
    requires curLocal.num == curRemote.num && curLocal.hash != curRemote.hash && CommonKept(tree, local, remote, curLocal, curRemote)
    ensures curLocal.parent !in tree || curRemote.parent !in tree ==> !HaveCommon(tree, local, remote)
    ensures curLocal.parent in tree && curRemote.parent in tree ==>
        CommonKept(tree, local, remote, tree[curLocal.parent], tree[curRemote.parent])
  {
    forall c | IsAncestor(tree, c, local) && IsAncestor(tree, c, remote)
      ensures curLocal.parent in tree && IsAncestor(tree, c, tree[curLocal.parent])
      ensures curRemote.parent in tree && IsAncestor(tree, c, tree[curRemote.parent])
    {
      if c == curLocal { AncestorBelow(tree, c, curRemote); }
      if c == curRemote { AncestorBelow(tree, c, curLocal); }
    }
  }

  datatype Join = Join(ancestor: Block, locals: seq<Block>, remotes: seq<Block>)

  /** Lowers the remote side to the local height, then both in step until they meet. It finds the
      join exactly when the local block is not higher and the blocks have a common ancestor. */
  method GetCommonAncestor(tree: Tree, local: Block, remote: Block) returns (r: Option<Join>)
    requires WellStored(tree) && Stored(tree, local) && Stored(tree, remote)
    ensures r.Some? <==> local.num <= remote.num && HaveCommon(tree, local, remote)
    ensures r.Some? ==> IsJoin(tree, local, remote, r.value.ancestor, r.value.locals, r.value.remotes)
  {
    if local.hash == remote.parent {
      DirectChild(tree, local, remote);
      return Some(Join(local, [], [remote]));
    }
    var locals: seq<Block>, remotes: seq<Block> := [], [];
    var curLocal, curRemote := local, remote;
    while curRemote.num > curLocal.num
      invariant curLocal == local && Stored(tree, curRemote) && Path(tree, curRemote, Reversed(remotes), remote)
      invariant CommonKept(tree, local, remote, local, curRemote)
      invariant local.num <= remote.num ==> local.num <= curRemote.num
      invariant local.num > remote.num ==> curRemote == remote
      decreases curRemote.num
    {
      LowerRemote(tree, local, remote, curRemote);
      if curRemote.parent !in tree { return None; }
      StepDown(tree, curRemote, remotes, remote);
      remotes := remotes + [curRemote];
      curRemote := tree[curRemote.parent];
    }
    while curLocal.hash != curRemote.hash
      invariant Stored(tree, curLocal) && Stored(tree, curRemote)
      invariant Path(tree, curLocal, Reversed(locals), local) && Path(tree, curRemote, Reversed(remotes), remote)
      invariant local.num <= remote.num ==> curLocal.num == curRemote.num && CommonKept(tree, local, remote, curLocal, curRemote)
      invariant local.num > remote.num ==> curLocal.num - curRemote.num == local.num - remote.num
      decreases curRemote.num
    {
      if local.num <= remote.num { LowerBoth(tree, local, remote, curLocal, curRemote); }
      if curLocal.parent !in tree { return None; }
      StepDown(tree, curLocal, locals, local);
      locals := locals + [curLocal];
      curLocal := tree[curLocal.parent];
      if curRemote.parent !in tree { return None; }
      StepDown(tree, curRemote, remotes, remote);
      remotes := remotes + [curRemote];
      curRemote := tree[curRemote.parent];
    }
    Met(tree, local, remote, curLocal, Reversed(locals), Reversed(remotes));
    return Some(Join(curLocal, Reversed(locals), Reversed(remotes)));
  }

  lemma DirectChild(tree: Tree, local: Block, remote: Block)
    requires WellStored(tree) && Stored(tree, local) && Stored(tree, remote) && local.hash == remote.parent
    ensures IsJoin(tree, local, remote, local, [], [remote]) && HaveCommon(tree, local, remote) && local.num <= remote.num
  {
    assert IsAncestor(tree, local, local) && IsAncestor(tree, local, remote);
    forall c | IsAncestor(tree, c, local) ensures c.num <= local.num { AncestorBelow(tree, c, local); }
  }

  lemma Met(tree: Tree, local: Block, remote: Block, anc: Block, locals: seq<Block>, remotes: seq<Block>)
    requires WellStored(tree) && Stored(tree, local) && Stored(tree, remote) && Stored(tree, anc)
    requires Path(tree, anc, locals, local) && Path(tree, anc, remotes, remote) && CommonKept(tree, local, remote, anc, anc)
    ensures IsJoin(tree, local, remote, anc, locals, remotes) && HaveCommon(tree, local, remote)
  {
    PathIsAncestor(tree, anc, locals, local);
    PathIsAncestor(tree, anc, remotes, remote);
    forall c | IsAncestor(tree, c, local) && IsAncestor(tree, c, remote) ensures c.num <= anc.num { AncestorBelow(tree, c, anc); }
  }

  // ---------------------------------------------------------------- existence

  lemma StepUp(tree: Tree, anc: Block, list: seq<Block>, head: Block)
    requires WellStored(tree) && Stored(tree, anc) && Stored(tree, head) && head.parent in tree && Path(tree, anc, list, tree[head.parent])
    ensures Path(tree, anc, list + [head], head)
  {
    var r := list + [head];
    forall i | 0 <= i < |r| - 1
      ensures r[i + 1].num == r[i].num + 1 && r[i + 1].parent == r[i].hash
    {
      if i + 1 < |list| { assert r[i] == list[i] && r[i + 1] == list[i + 1]; }
    }
  }

  /** Blocks with a common ancestor have a highest one, whichever of them is the higher. */
  lemma {:induction false} JoinExists(tree: Tree, local: Block, remote: Block) returns (j: Join)
    requires WellStored(tree) && Stored(tree, local) && Stored(tree, remote) && HaveCommon(tree, local, remote)
    ensures IsJoin(tree, local, remote, j.ancestor, j.locals, j.remotes)
    decreases local.num + remote.num
  {
    var c :| IsAncestor(tree, c, local) && IsAncestor(tree, c, remote);
    AncestorBelow(tree, c, local);
    AncestorBelow(tree, c, remote);
    if local == remote {
      forall c | IsAncestor(tree, c, local) ensures c.num <= local.num { AncestorBelow(tree, c, local); }
      return Join(local, [], []);
    }
    var local', remote' := local, remote;
    if local.num >= remote.num { local' := tree[local.parent]; }
    if remote.num >= local.num { remote' := tree[remote.parent]; }
    forall c | IsAncestor(tree, c, local) && IsAncestor(tree, c, remote)
      ensures IsAncestor(tree, c, local') && IsAncestor(tree, c, remote')
    {
      AncestorBelow(tree, c, local);
      AncestorBelow(tree, c, remote);
    }
    j := JoinExists(tree, local', remote');
    if local' != local { StepUp(tree, j.ancestor, j.locals, local); j := j.(locals := j.locals + [local]); }
    if remote' != remote { StepUp(tree, j.ancestor, j.remotes, remote); j := j.(remotes := j.remotes + [remote]); }
  }
}
