/** Alignments that fail and are repeated: each starts again from whatever message the topic ends with. */
module AlignmentRetries {
  import opened Types
  import opened CommonAncestor
  import opened Alignment
  import opened PublishedWalk

  /** One attempt: the join it works from and how many of its messages it sent. */
  datatype Stop = Stop(join: Join, sent: nat)

  function Last(topic: seq<Outer>): Outer
    requires |topic| > 0
  {
    topic[|topic| - 1]
  }

  /** The block an attempt takes for the singleton head: that of the topic's last message, drop or not. */
  predicate HasHead(tree: Tree, topic: seq<Outer>) {
    |topic| > 0 && Last(topic).hash in tree
  }

  function Head(tree: Tree, topic: seq<Outer>): Block
    requires HasHead(tree, topic)
  {
    tree[Last(topic).hash]
  }

  /** Attempts at aligning a topic with `v`, one after the other. */
  ghost predicate IsRetrying(tree: Tree, v: Block, topics: seq<seq<Outer>>, stops: seq<Stop>)
    requires WellStored(tree) && Stored(tree, v)
  {
    && |topics| == |stops| + 1
    && (forall i :: 0 <= i < |topics| ==> HasHead(tree, topics[i]))
    && forall i :: 0 <= i < |stops| ==> Announced(tree, Head(tree, topics[i]), v, stops[i].join, topics[i], topics[i + 1], stops[i].sent)
  }

  /** The attempt did not stop strictly inside its drops, or the topic ended with a drop already. */
  predicate Harmless(topic: seq<Outer>, stop: Stop)
    requires |topic| > 0
  {
    Last(topic).isFork || stop.sent == 0 || stop.sent >= |stop.join.locals|
  }

  predicate Finished(stop: Stop) {
    stop.sent == |stop.join.locals| + |stop.join.remotes|
  }

  // ---------------------------------------------------------------- the join of the next attempt

  lemma PathTake(tree: Tree, anc: Block, list: seq<Block>, head: Block, n: nat)
    requires Path(tree, anc, list, head) && 0 < n <= |list|
    ensures Path(tree, anc, list[..n], list[n - 1]) && Stored(tree, list[n - 1])
  {
  }

  lemma PathDrop(tree: Tree, anc: Block, list: seq<Block>, head: Block, n: nat)
    requires Path(tree, anc, list, head) && 0 < n <= |list|
    ensures Path(tree, list[n - 1], list[n..], head)
  {
    var rest := list[n..];
    forall i | 0 <= i < |rest| - 1
      ensures rest[i + 1].num == rest[i].num + 1 && rest[i + 1].parent == rest[i].hash
    {
      assert rest[i] == list[n + i] && rest[i + 1] == list[n + i + 1];
    }
    if |rest| > 0 { assert rest[0] == list[n - 1 + 1]; }
  }

  /** A dropped block joins where the head it was dropped from does. */
  lemma JoinOfDrop(tree: Tree, s: Block, v: Block, j: Join, n: nat)
    requires WellStored(tree) && Stored(tree, s) && Stored(tree, v) && IsJoin(tree, s, v, j.ancestor, j.locals, j.remotes)
    requires 0 < n <= |j.locals|
    ensures Stored(tree, j.locals[n - 1]) && IsJoin(tree, j.locals[n - 1], v, j.ancestor, j.locals[..n], j.remotes)
  {
    var l := j.locals[n - 1];
    PathTake(tree, j.ancestor, j.locals, s, n);
    PathDrop(tree, j.ancestor, j.locals, s, n);
    PathIsAncestor(tree, l, j.locals[n..], s);
    forall c | IsAncestor(tree, c, l) && IsAncestor(tree, c, v) ensures c.num <= j.ancestor.num {
      AncestorTrans(tree, c, l, s);
    }
  }

  /** A new block already sent is an ancestor of the version head. */
  lemma JoinOfNew(tree: Tree, s: Block, v: Block, j: Join, k: nat)
    requires WellStored(tree) && Stored(tree, s) && Stored(tree, v) && IsJoin(tree, s, v, j.ancestor, j.locals, j.remotes)
    requires 0 < k <= |j.remotes|
    ensures Stored(tree, j.remotes[k - 1]) && IsJoin(tree, j.remotes[k - 1], v, j.remotes[k - 1], [], j.remotes[k..])
  {
    var r := j.remotes[k - 1];
    PathTake(tree, j.ancestor, j.remotes, v, k);
    PathDrop(tree, j.ancestor, j.remotes, v, k);
    forall c | IsAncestor(tree, c, r) ensures c.num <= r.num { AncestorBelow(tree, c, r); }
  }

  lemma AncestorTrans(tree: Tree, a: Block, b: Block, c: Block)
    requires WellStored(tree) && Stored(tree, b) && Stored(tree, c) && IsAncestor(tree, a, b) && IsAncestor(tree, b, c)
    ensures IsAncestor(tree, a, c)
    decreases c.num
  {
    if b != c { AncestorTrans(tree, a, b, tree[c.parent]); }
  }

  /** What follows an attempt that sent something: the last message, and the join the next one works from. */
  lemma NextJoin(tree: Tree, s: Block, v: Block, stop: Stop, before: seq<Outer>, after: seq<Outer>)
    requires WellStored(tree) && Stored(tree, s) && Stored(tree, v) && stop.sent > 0
    requires Announced(tree, s, v, stop.join, before, after, stop.sent)
    ensures HasHead(tree, after)
    ensures var j, n := stop.join, stop.sent;
            if n <= |j.locals| then
              && Last(after).isFork && Head(tree, after) == j.locals[n - 1]
              && IsJoin(tree, j.locals[n - 1], v, j.ancestor, j.locals[..n], j.remotes)
            else
              var k := n - |j.locals|;
              && !Last(after).isFork && Head(tree, after) == j.remotes[k - 1]
              && IsJoin(tree, j.remotes[k - 1], v, j.remotes[k - 1], [], j.remotes[k..])
  {
    hide IsJoin;
    var j, n := stop.join, stop.sent;
    assert Last(after) == Announce(j.locals, j.remotes)[n - 1];
    if n <= |j.locals| { JoinOfDrop(tree, s, v, j, n); } else { JoinOfNew(tree, s, v, j, n - |j.locals|); }
  }

  // ---------------------------------------------------------------- what stays live

  /** The topic can still be aligned: it ends with a live head whose chain it holds, or with a drop of a
      block all of whose branch is gone. */
  ghost predicate Sound(tree: Tree, v: Block, topic: seq<Outer>, j: Join, floor: u64)
    requires WellStored(tree) && Stored(tree, v) && HasHead(tree, topic)
  {
    && Stored(tree, j.ancestor) && floor <= j.ancestor.num + 1
    && Live({}, topic) == Chain(tree, if Last(topic).isFork then j.ancestor else Head(tree, topic), floor)
  }

  /** A block off the version chain is live, and no later drop will name it. */
  ghost predicate Stray(tree: Tree, v: Block, topic: seq<Outer>, j: Join, floor: u64)
    requires WellStored(tree) && Stored(tree, v)
  {
    exists h :: h in Live({}, topic) && h !in Chain(tree, v, floor) && h !in Hashes(j.locals)
  }

  lemma AfterStop(tree: Tree, s: Block, v: Block, stop: Stop, before: seq<Outer>, after: seq<Outer>)
    requires WellStored(tree) && Stored(tree, s) && Stored(tree, v)
    requires Announced(tree, s, v, stop.join, before, after, stop.sent)
    ensures var j, n := stop.join, stop.sent;
            Live({}, after) == if n <= |j.locals| then Live({}, before) - Hashes(j.locals[..n])
                               else Live({}, before) - Hashes(j.locals) + Hashes(j.remotes[..n - |j.locals|])
  {
    hide IsJoin;
    var j, n := stop.join, stop.sent;
    LiveJoined({}, before, Announce(j.locals, j.remotes)[..n]);
    LiveAnnounced(Live({}, before), j.locals, j.remotes, n);
  }

  lemma HashesTake(blocks: seq<Block>, n: nat)
    requires n <= |blocks|
    ensures Hashes(blocks[..n]) <= Hashes(blocks)
  {
    forall h | h in Hashes(blocks[..n]) ensures h in Hashes(blocks) {
      var i :| 0 <= i < n && blocks[..n][i].hash == h;
      assert blocks[i].hash == h;
    }
  }

  /** A stray block stays. */
  lemma StrayStays(tree: Tree, s: Block, v: Block, stop: Stop, before: seq<Outer>, after: seq<Outer>, j': Join, floor: u64)
    requires WellStored(tree) && Stored(tree, s) && Stored(tree, v)
    requires Announced(tree, s, v, stop.join, before, after, stop.sent) && Stray(tree, v, before, stop.join, floor)
    requires Hashes(j'.locals) <= Hashes(stop.join.locals)
    ensures Stray(tree, v, after, j', floor)
  {
    hide IsJoin, Chain, Live, Hashes;
    var h :| h in Live({}, before) && h !in Chain(tree, v, floor) && h !in Hashes(stop.join.locals);
    AfterStop(tree, s, v, stop, before, after);
    if stop.sent <= |stop.join.locals| { HashesTake(stop.join.locals, stop.sent); }
    assert h in Live({}, after) && h !in Hashes(j'.locals);
  }

  /** A head with drops ahead of it is not on the version chain. */
  lemma HeadIsOff(tree: Tree, s: Block, v: Block, j: Join, floor: u64)
    requires WellStored(tree) && Stored(tree, s) && Stored(tree, v) && IsJoin(tree, s, v, j.ancestor, j.locals, j.remotes)
    requires |j.locals| > 0 && floor <= j.ancestor.num + 1
    ensures s.hash !in Chain(tree, v, floor) && s.hash in Chain(tree, s, floor)
    ensures forall n :: 0 <= n < |j.locals| ==> s.hash !in Hashes(j.locals[..n])
  {
    PathLength(tree, j.ancestor, j.locals, s);
    if s.hash in Chain(tree, v, floor) {
      ChainIsAncestors(tree, v, floor, s.hash);
      assert IsAncestor(tree, s, s);
      assert false;
    }
    forall n | 0 <= n < |j.locals|
      ensures s.hash !in Hashes(j.locals[..n])
    {
      forall i | 0 <= i < n ensures j.locals[..n][i].hash != s.hash {
        assert Stored(tree, j.locals[i]);
        LinkedAt(j.locals, i, |j.locals| - 1);
      }
    }
  }

  lemma ChainIsAncestors(tree: Tree, b: Block, floor: u64, h: Hash)
    requires WellStored(tree) && Stored(tree, b) && h in Chain(tree, b, floor)
    ensures h in tree && IsAncestor(tree, tree[h], b)
    decreases b.num
  {
    if h != b.hash { ChainIsAncestors(tree, tree[b.parent], floor, h); }
  }

  /** The chain of an ancestor names no block of the path above it. */
  lemma AncestorApart(tree: Tree, anc: Block, list: seq<Block>, head: Block, floor: u64)
    requires WellStored(tree) && Stored(tree, anc) && Stored(tree, head) && Path(tree, anc, list, head) && floor <= anc.num + 1
    ensures forall n :: 0 <= n <= |list| ==> Chain(tree, anc, floor) - Hashes(list[..n]) == Chain(tree, anc, floor)
  {
    hide Path, Chain;
    ChainSplits(tree, anc, list, head, floor);
    forall n | 0 <= n <= |list| ensures Chain(tree, anc, floor) - Hashes(list[..n]) == Chain(tree, anc, floor) { HashesTake(list, n); }
  }

  /** A harmless attempt leaves a sound topic sound. */
  lemma SoundStays(tree: Tree, v: Block, stop: Stop, before: seq<Outer>, after: seq<Outer>, floor: u64)
    requires WellStored(tree) && Stored(tree, v) && HasHead(tree, before) && stop.sent > 0
    requires Announced(tree, Head(tree, before), v, stop.join, before, after, stop.sent)
    requires Sound(tree, v, before, stop.join, floor) && Harmless(before, stop)
    ensures HasHead(tree, after)
    ensures var j, n := stop.join, stop.sent;
            if n <= |j.locals| then Sound(tree, v, after, Join(j.ancestor, j.locals[..n], j.remotes), floor)
            else Sound(tree, v, after, Join(j.remotes[n - |j.locals| - 1], [], j.remotes[n - |j.locals|..]), floor)
  {
    hide Chain, Live, Hashes, IsAncestor;
    var s, j, n := Head(tree, before), stop.join, stop.sent;
    NextJoin(tree, s, v, stop, before, after);
    AfterStop(tree, s, v, stop, before, after);
    AncestorApart(tree, j.ancestor, j.locals, s, floor);
    ChainSplits(tree, j.ancestor, j.locals, s, floor);
    assert j.locals[..|j.locals|] == j.locals;
    if n > |j.locals| {
      var k := n - |j.locals|;
      PathTake(tree, j.ancestor, j.remotes, v, k);
      PathLength(tree, j.ancestor, j.remotes[..k], j.remotes[k - 1]);
      ChainSplits(tree, j.ancestor, j.remotes[..k], j.remotes[k - 1], floor);
    }
  }

  /** An attempt that stops inside its drops on a live head leaves that head stray. */
  lemma StrayAppears(tree: Tree, v: Block, stop: Stop, before: seq<Outer>, after: seq<Outer>, floor: u64)
    requires WellStored(tree) && Stored(tree, v) && HasHead(tree, before)
    requires Announced(tree, Head(tree, before), v, stop.join, before, after, stop.sent)
    requires Sound(tree, v, before, stop.join, floor) && !Harmless(before, stop)
    ensures Stray(tree, v, after, Join(stop.join.ancestor, stop.join.locals[..stop.sent], stop.join.remotes), floor)
  {
    hide Chain, Live, Hashes, IsAncestor;
    var s := Head(tree, before);
    HeadIsOff(tree, s, v, stop.join, floor);
    AfterStop(tree, s, v, stop, before, after);
    assert s.hash in Live({}, after);
  }

  predicate AllHarmless(topics: seq<seq<Outer>>, stops: seq<Stop>, i: nat)
    requires i <= |stops| <= |topics| && forall t :: 0 <= t < |topics| ==> |topics[t]| > 0
  {
    forall t :: 0 <= t < i ==> Harmless(topics[t], stops[t])
  }

  /** Up to any attempt: sound if all so far were harmless, with a stray block if not. */
  lemma {:induction false} RetriesKeep(tree: Tree, v: Block, topics: seq<seq<Outer>>, stops: seq<Stop>, floor: u64, i: nat)
    requires WellStored(tree) && Stored(tree, v) && IsRetrying(tree, v, topics, stops) && i < |stops|
    requires Sound(tree, v, topics[0], stops[0].join, floor)
    ensures if AllHarmless(topics, stops, i) then Sound(tree, v, topics[i], stops[i].join, floor) else Stray(tree, v, topics[i], stops[i].join, floor)
  {
    hide Sound, Stray, Harmless, IsJoin;
    if i > 0 {
      RetriesKeep(tree, v, topics, stops, floor, i - 1);
      assert Announced(tree, Head(tree, topics[i]), v, stops[i].join, topics[i], topics[i + 1], stops[i].sent);
      RetryOnce(tree, v, topics[i - 1], stops[i - 1], topics[i - 1 + 1], stops[i].join, floor, AllHarmless(topics, stops, i - 1));
    }
  }

  lemma RetryOnce(tree: Tree, v: Block, before: seq<Outer>, stop: Stop, after: seq<Outer>, j': Join, floor: u64, sound: bool)
    requires WellStored(tree) && Stored(tree, v) && HasHead(tree, before) && HasHead(tree, after)
    requires Announced(tree, Head(tree, before), v, stop.join, before, after, stop.sent)
    requires IsJoin(tree, Head(tree, after), v, j'.ancestor, j'.locals, j'.remotes)
    requires if sound then Sound(tree, v, before, stop.join, floor) else Stray(tree, v, before, stop.join, floor)
    ensures if sound && Harmless(before, stop) then Sound(tree, v, after, j', floor) else Stray(tree, v, after, j', floor)
  {
    hide Sound, Stray, IsJoin;
    var s, j, n := Head(tree, before), stop.join, stop.sent;
    NextIs(tree, s, v, stop, before, after, j');
    if n == 0 {
      assert before + Announce(j.locals, j.remotes)[..0] == before;
    } else if !sound {
      StrayStays(tree, s, v, stop, before, after, j', floor);
    } else if Harmless(before, stop) {
      SoundStays(tree, v, stop, before, after, floor);
    } else {
      StrayAppears(tree, v, stop, before, after, floor);
    }
  }

  /** The join of the next attempt is what the last message makes it. */
  lemma NextIs(tree: Tree, s: Block, v: Block, stop: Stop, before: seq<Outer>, after: seq<Outer>, j': Join)
    requires WellStored(tree) && Stored(tree, s) && Stored(tree, v) && HasHead(tree, before) && HasHead(tree, after) && s == Head(tree, before)
    requires Announced(tree, s, v, stop.join, before, after, stop.sent)
    requires IsJoin(tree, Head(tree, after), v, j'.ancestor, j'.locals, j'.remotes)
    ensures var j, n := stop.join, stop.sent;
            j' == if n == 0 then j
                  else if n <= |j.locals| then Join(j.ancestor, j.locals[..n], j.remotes)
                  else Join(j.remotes[n - |j.locals| - 1], [], j.remotes[n - |j.locals|..])
    ensures Hashes(j'.locals) <= Hashes(stop.join.locals)
  {
    hide IsJoin;
    var j, n := stop.join, stop.sent;
    if n == 0 {
      assert after == before;
      JoinUnique(tree, s, v, j.ancestor, j.locals, j.remotes, j'.ancestor, j'.locals, j'.remotes);
    } else {
      NextJoin(tree, s, v, stop, before, after);
      if n <= |j.locals| {
        JoinUnique(tree, j.locals[n - 1], v, j.ancestor, j.locals[..n], j.remotes, j'.ancestor, j'.locals, j'.remotes);
        HashesTake(j.locals, n);
      } else {
        var k := n - |j.locals|;
        JoinUnique(tree, j.remotes[k - 1], v, j.remotes[k - 1], [], j.remotes[k..], j'.ancestor, j'.locals, j'.remotes);
      }
    }
  }

  /** A finished attempt ends with the version chain if the topic was sound, and not if it has a stray. */
  lemma FinishedTopic(tree: Tree, v: Block, before: seq<Outer>, stop: Stop, after: seq<Outer>, floor: u64, sound: bool)
    requires WellStored(tree) && Stored(tree, v) && HasHead(tree, before) && Finished(stop)
    requires Announced(tree, Head(tree, before), v, stop.join, before, after, stop.sent)
    requires if sound then Sound(tree, v, before, stop.join, floor) else Stray(tree, v, before, stop.join, floor)
    ensures Live({}, after) == Chain(tree, v, floor) <==> sound
  {
    hide Live, Chain, Hashes, IsAncestor;
    var s, j := Head(tree, before), stop.join;
    AfterStop(tree, s, v, stop, before, after);
    FinishedEnd(j);
    if sound {
      AncestorApart(tree, j.ancestor, j.locals, s, floor);
      ChainSplits(tree, j.ancestor, j.locals, s, floor);
      ChainSplits(tree, j.ancestor, j.remotes, v, floor);
      if |j.remotes| == 0 { assert j.remotes == []; }
    } else {
      var h :| h in Live({}, before) && h !in Chain(tree, v, floor) && h !in Hashes(j.locals);
      assert h in Live({}, after);
    }
  }

  /** Over any number of failed attempts and a last one that finishes, the live blocks of the topic are
      the version chain exactly when no attempt that started from a live head stopped strictly inside its
      drops: the next attempt starts from the last drop, and nothing tells it of the blocks above. */
  lemma RetriedAlignmentIff(tree: Tree, v: Block, topics: seq<seq<Outer>>, stops: seq<Stop>, floor: u64)
    requires WellStored(tree) && Stored(tree, v) && IsRetrying(tree, v, topics, stops) && |stops| > 0
    requires !Last(topics[0]).isFork && Live({}, topics[0]) == Chain(tree, Head(tree, topics[0]), floor)
    requires floor <= stops[0].join.ancestor.num + 1 && Finished(stops[|stops| - 1])
    ensures Live({}, topics[|stops|]) == Chain(tree, v, floor) <==> AllHarmless(topics, stops, |stops|)
  {
    hide Live, Chain, Stray, IsAncestor, Path, Announce;
    var m := |stops| - 1;
    assert Announced(tree, Head(tree, topics[0]), v, stops[0].join, topics[0], topics[0 + 1], stops[0].sent);
    RetriesKeep(tree, v, topics, stops, floor, m);
    FinishedTopic(tree, v, topics[m], stops[m], topics[m + 1], floor, AllHarmless(topics, stops, m));
    assert Harmless(topics[m], stops[m]);
  }

  lemma FinishedEnd(j: Join)
    ensures j.locals[..|j.locals|] == j.locals && j.remotes[..|j.remotes|] == j.remotes && Hashes([]) == {}
  {
  }
}
