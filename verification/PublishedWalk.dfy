/** Whole notices: continuity check, canonical write and publication, and what a reader of a topic
    reconstructs over any crash-free run of them. */
module PublishedWalk {
  import opened Types
  import opened CanonicalIndex
  import opened ScanCore
  import opened ScanMachine
  import opened Publication

  /** What else happens during one attempt at a notice. */
  datatype Outcome = Outcome(saved: bool, ready: bool, committed: bool, marked: bool, aligned: bool, finished: bool)

  /** One attempt at a notice, under the lock from beginning to end. */
  function Processed(s: Site, targets: set<Destination>, n: Notice, position: Option<Position>, o: Outcome,
       faults: set<Mark>): (Site, bool) {
    if |n.news| == 0 then (s, false)
    else if AlreadyProcessed(s.core, n) then Repeated(s, n, position, o)
    else if !MsgCheck(s.core, n) then (s, false)
    else
      var e := Entered(s, n, position, o);
      if e.1 then Delivered(e.0, targets, n, position, o, faults) else e
  }

  /** The first half of a new notice: recovery checkpoint, bookkeeping, replica check. */
  function Entered(s: Site, n: Notice, position: Option<Position>, o: Outcome): (Site, bool)
    requires |n.news| > 0
  {
    var p := Prepared(s.core, n, position, o.saved);
    if !p.1 then (s.(core := p.0), false) else (NoticeBegun(s.(core := p.0), n), o.ready)
  }

  /** A notice whose tail is already out only finishes what its publication left open. */
  function Repeated(s: Site, n: Notice, position: Option<Position>, o: Outcome): (Site, bool)
    requires |n.news| > 0
  {
    var p := Prepared(s.core, n, position, o.saved);
    if !p.1 || !o.aligned then (s.(core := p.0), false)
    else
      var f := Finished(p.0, position, o.finished);
      (s.(core := f.0), f.1)
  }

  /** The second half: the canonical write, then the messages, then the checkpoint. */
  function Delivered(s: Site, targets: set<Destination>, n: Notice, position: Option<Position>, o: Outcome, faults: set<Mark>): (Site, bool)
    requires |n.news| > 0
  {
    var w := Written(s.core, n.news, o.committed);
    var s1 := s.(core := w.0);
    if !w.1 || !o.marked then (s1, false)
    else
      var r := Sent(s1, targets, Messages(n), faults);
      if !r.1 || !o.aligned then (r.0, false)
      else
        var f := Finished(r.0.core, position, o.finished);
        (r.0.(core := f.0), f.1)
  }

  // ---------------------------------------------------------------- a reader of a topic

  /** A reader pops on a drop, which must be its top block, and pushes a new block, which must be one
      higher than its top; `None` when the message does not fit. */
  function Read(r: seq<Anchor>, m: Outer): Option<seq<Anchor>> {
    if m.isFork then if |r| > 0 && r[|r| - 1] == HeadOf(m) then Some(r[..|r| - 1]) else None
    else if |r| == 0 || r[|r| - 1].height + 1 == m.height then Some(r + [HeadOf(m)])
    else None
  }

  function ReplayFrom(start: seq<Anchor>, log: seq<Outer>): Option<seq<Anchor>> {
    if |log| == 0 then Some(start)
    else
      var before := ReplayFrom(start, log[..|log| - 1]);
      if before.None? then None else Read(before.value, log[|log| - 1])
  }

  lemma ReplaySnoc(start: seq<Anchor>, log: seq<Outer>, m: Outer)
    ensures var before := ReplayFrom(start, log);
            ReplayFrom(start, log + [m]) == if before.None? then None else Read(before.value, m)
  {
    assert (log + [m])[..|log|] == log;
  }

  function Anchors(chain: seq<Block>): (r: seq<Anchor>)
    ensures |r| == |chain|
  {
    seq(|chain|, i requires 0 <= i < |chain| => AnchorOf(chain[i]))
  }

  lemma ReplayJoined(start: seq<Anchor>, a: seq<Outer>, b: seq<Outer>)
    ensures var r := ReplayFrom(start, a);
            ReplayFrom(start, a + b) == if r.Some? then ReplayFrom(r.value, b) else None
    decreases |b|
  {
    if |b| == 0 {
      assert a + b == a;
    } else {
      var front := b[..|b| - 1];
      assert (a + b)[..|a| + |front|] == a + front;
      ReplayJoined(start, a, front);
    }
  }

  /** The outer message of a chain's tip. */
  function LatestOf(chain: seq<Block>): Option<Outer> {
    if |chain| == 0 then None else Some(Outer(Tail(chain).num, Tail(chain).hash, false))
  }

  /** A parent that is itself a block is one lower. */
  ghost predicate ParentsBelow(tree: Hash -> Block, blocks: seq<Block>) {
    forall i :: 0 <= i < |blocks| && tree(blocks[i].parent).hash == blocks[i].parent ==> tree(blocks[i].parent).num + 1 == blocks[i].num
  }

  /** What is promised of a notice that arrives while the published chain is `chain`. */
  ghost predicate Contract(tree: Hash -> Block, chain: seq<Block>, n: Notice) {
    && ProducerContract(n) && |n.drops| <= |chain|
    && Genuine(tree, n.drops) && Genuine(tree, n.news) && ParentsBelow(tree, n.news)
  }

  /** The chain once a notice is published. */
  function Followed(chain: seq<Block>, n: Notice): seq<Block>
    requires |n.drops| <= |chain|
  {
    chain[..|chain| - |n.drops|] + n.news
  }

  /** A notice that passed the continuity check: it drops the top of the chain and continues below it. */
  ghost predicate Fits(chain: seq<Block>, n: Notice) {
    && |n.news| > 0 && |n.drops| <= |chain| && n.drops == chain[|chain| - |n.drops|..]
    && Extends(chain, n.news) && Spliced(chain, n.news) == Followed(chain, n)
  }

  lemma DropsAreTop(tree: Hash -> Block, chain: seq<Block>, n: Notice, k: nat)
    requires Linked(chain) && Genuine(tree, chain) && Contract(tree, chain, n)
    requires |n.drops| > 0 && Tail(n.drops).hash == Tail(chain).hash && k < |n.drops|
    ensures n.drops[|n.drops| - 1 - k] == chain[|chain| - 1 - k]
  {
    var i, j := |n.drops| - 1 - k, |chain| - 1 - k;
    if k > 0 {
      DropsAreTop(tree, chain, n, k - 1);
      assert n.drops[i + 1].parent == n.drops[i].hash && chain[j + 1].parent == chain[j].hash;
    }
    assert tree(n.drops[i].hash) == n.drops[i] && tree(chain[j].hash) == chain[j];
  }

  lemma DropsFit(tree: Hash -> Block, chain: seq<Block>, n: Notice)
    requires Linked(chain) && Genuine(tree, chain) && Contract(tree, chain, n)
    requires |n.drops| > 0 && Tail(n.drops).hash == Tail(chain).hash
    ensures n.drops == chain[|chain| - |n.drops|..]
  {
    hide Linked, Genuine, ProducerContract;
    forall i | 0 <= i < |n.drops| ensures n.drops[i] == chain[|chain| - |n.drops| + i] { DropsAreTop(tree, chain, n, |n.drops| - 1 - i); }
  }

  /** Where the new blocks of a checked notice attach. */
  lemma NewsAttach(tree: Hash -> Block, core: Core, chain: seq<Block>, n: Notice)
    requires Linked(chain) && |chain| > 0 && Genuine(tree, chain) && Contract(tree, chain, n) && |n.news| > 0
    requires core.latest == LatestOf(chain) && MsgCheck(core, n)
    ensures var base := |chain| - |n.drops|;
            && n.drops == chain[base..] && n.news[0].num == chain[0].num + base
            && (base > 0 ==> n.news[0].parent == chain[base - 1].hash)
  {
    var base := |chain| - |n.drops|;
    LinkedAt(chain, 0, |chain| - 1);
    if |n.drops| > 0 {
      DropsFit(tree, chain, n);
      assert n.drops[0] == chain[base];
      LinkedAt(chain, 0, base);
      if base > 0 { assert chain[base - 1 + 1].parent == chain[base - 1].hash; }
    } else {
      assert tree(n.news[0].parent) == Tail(chain);
    }
  }

  /** The continuity check is sufficient: it looks at one hash, and hashes fix the rest. */
  lemma CheckedFits(tree: Hash -> Block, core: Core, chain: seq<Block>, n: Notice)
    requires Linked(chain) && Genuine(tree, chain) && Contract(tree, chain, n) && |n.news| > 0
    requires core.latest == LatestOf(chain) && MsgCheck(core, n)
    ensures Fits(chain, n) && Genuine(tree, Followed(chain, n)) && Linked(Followed(chain, n))
  {
    hide Linked, Genuine, ParentsBelow, ProducerContract, MsgCheck, Fits, Spliced, Extends, Followed;
    ContractNewsLinked(tree, chain, n);
    if |chain| > 0 { NewsAttach(tree, core, chain, n); }
    AttachedFits(chain, n);
    FitsSplices(chain, n);
    SplicedIsLinked(chain, n.news);
    FollowedIsGenuine(tree, chain, n);
  }

  lemma ContractNewsLinked(tree: Hash -> Block, chain: seq<Block>, n: Notice)
    requires Contract(tree, chain, n)
    ensures Linked(n.news)
  {
  }

  /** Drops at the top and new blocks that continue below them make a notice fit. */
  lemma AttachedFits(chain: seq<Block>, n: Notice)
    requires Linked(chain) && Linked(n.news) && |n.news| > 0 && |n.drops| <= |chain|
    requires |chain| > 0 ==>
          var base := |chain| - |n.drops|;
          && n.drops == chain[base..] && n.news[0].num == chain[0].num + base
          && (base > 0 ==> n.news[0].parent == chain[base - 1].hash)
    ensures Fits(chain, n)
  {
    hide Linked;
  }

  lemma FitsSplices(chain: seq<Block>, n: Notice)
    requires Fits(chain, n)
    ensures Extends(chain, n.news) && Spliced(chain, n.news) == Followed(chain, n)
  {
  }

  lemma FollowedIsGenuine(tree: Hash -> Block, chain: seq<Block>, n: Notice)
    requires |n.drops| <= |chain| && Genuine(tree, chain) && Genuine(tree, n.news)
    ensures Genuine(tree, Followed(chain, n))
  {
    var f, base := Followed(chain, n), |chain| - |n.drops|;
    forall i | 0 <= i < |f| ensures tree(f[i].hash) == f[i] {
      if i < base { assert f[i] == chain[i]; } else { assert f[i] == n.news[i - base]; }
    }
  }

  /** What a reader holds after the first `k` messages of a notice that fits. */
  function Halfway(chain: seq<Block>, n: Notice, k: nat): seq<Block>
    requires |n.drops| <= |chain| && k <= |n.drops| + |n.news|
  {
    if k <= |n.drops| then chain[..|chain| - k] else chain[..|chain| - |n.drops|] + n.news[..k - |n.drops|]
  }

  lemma {:induction false} MessagesReplay(chain: seq<Block>, n: Notice, k: nat)
    requires Linked(chain) && Fits(chain, n) && k <= |n.drops| + |n.news|
    ensures ReplayFrom(Anchors(chain), Messages(n)[..k]) == Some(Anchors(Halfway(chain, n, k)))
  {
    hide Linked, Extends, Spliced, Messages, Anchors, Halfway;
    if k == 0 {
      HalfwayStart(chain, n);
    } else {
      MessagesReplay(chain, n, k - 1);
      MessageFits(chain, n, k);
      var log := Messages(n)[..k];
      assert log[..k - 1] == Messages(n)[..k - 1] && log[k - 1] == Messages(n)[k - 1];
    }
  }

  lemma HalfwayStart(chain: seq<Block>, n: Notice)
    requires |n.drops| <= |chain|
    ensures Halfway(chain, n, 0) == chain && Messages(n)[..0] == []
  {
  }

  /** Each message is a legal step of the reader. */
  lemma MessageFits(chain: seq<Block>, n: Notice, k: nat)
    requires Linked(chain) && Fits(chain, n) && 0 < k <= |n.drops| + |n.news|
    ensures |Messages(n)| == |n.drops| + |n.news|
    ensures var r, r', m := Anchors(Halfway(chain, n, k - 1)), Anchors(Halfway(chain, n, k)), Messages(n)[k - 1];
            if m.isFork then |r| > 0 && r[|r| - 1] == HeadOf(m) && r[..|r| - 1] == r'
            else (|r| == 0 || r[|r| - 1].height + 1 == m.height) && r + [HeadOf(m)] == r'
  {
    hide Linked, Extends, Spliced;
    var before, after := Halfway(chain, n, k - 1), Halfway(chain, n, k);
    if k <= |n.drops| {
      assert n.drops[|n.drops| - k] == chain[|chain| - k];
    } else {
      assert after == before + [n.news[k - 1 - |n.drops|]];
      TopBelow(chain, n, k);
    }
  }

  lemma TopBelow(chain: seq<Block>, n: Notice, k: nat)
    requires Linked(chain) && Fits(chain, n) && |n.drops| < k <= |n.drops| + |n.news|
    ensures var before := Halfway(chain, n, k - 1);
            |before| > 0 ==> Tail(before).num + 1 == n.news[k - 1 - |n.drops|].num
  {
    var before, j := Halfway(chain, n, k - 1), k - 1 - |n.drops|;
    if j > 0 {
      assert n.news[j - 1 + 1].num == n.news[j - 1].num + 1;
      assert Tail(before) == n.news[j - 1];
    } else if |before| > 0 {
      LinkedAt(chain, 0, |before| - 1);
      LinkedAt(chain, 0, |chain| - 1);
      SplicedIsLinked(chain, n.news);
      var f := Spliced(chain, n.news);
      assert f[|before| - 1] == Tail(before) && f[|before| - 1 + 1] == n.news[0];
    }
  }

  // ---------------------------------------------------------------- runs of attempts

  /** One attempt at a notice, with the destinations it goes to. */
  datatype Attempt = Attempt(notice: Notice, position: Option<Position>, targets: set<Destination>, outcome: Outcome, faults: set<Mark>)

  /** `chain` and `base` are the published chain and the topics after the last success; a failed
      notice is tried again before any other, and `targets` are the destinations it goes to. */
  datatype Flow = Flow(site: Site, chain: seq<Block>, base: Topics, retrying: Option<Notice>, targets: set<Destination>)

  function ChainWith(chain: seq<Block>, n: Notice): seq<Block> {
    if |n.news| == 0 || |n.drops| > |chain| || (|chain| > 0 && Tail(chain).hash == Tail(n.news).hash) then chain
    else Followed(chain, n)
  }

  function Stepped(f: Flow, a: Attempt): Flow {
    Ended(f.(targets := if AlreadyProcessed(f.site.core, a.notice) then f.targets else a.targets), a.notice,
          Processed(f.site, a.targets, a.notice, a.position, a.outcome, a.faults))
  }

  /** The outcome of an attempt, seen from its site and result. */
  function Ended(f: Flow, n: Notice, r: (Site, bool)): Flow {
    if r.1 then f.(site := r.0, chain := ChainWith(f.chain, n), base := r.0.topics, retrying := None)
    else f.(site := r.0, retrying := Some(n))
  }

  /** The start of a run, between two notices: index and latest message are those of one chain, marks
      are of no later notice, and the topics count from here. */
  ghost predicate FlowStart(tree: Hash -> Block, f: Flow) {
    Linked(f.chain) && Genuine(tree, f.chain) && Settled(f) && f.site.topics == Topics([], []) && f.retrying.None?
  }

  /** A run: its flows, and the attempts between them. Every attempt is at a notice that keeps the
      contract, and at the failed one if there is one. Destinations may come and go from notice to
      notice, but not while one is being sent. */
  ghost predicate IsFlow(tree: Hash -> Block, flows: seq<Flow>, run: seq<Attempt>) {
    && |flows| == |run| + 1 && FlowStart(tree, flows[0])
    && forall i :: 0 <= i < |run| ==>
         && flows[i + 1] == Stepped(flows[i], run[i])
         && Contract(tree, flows[i].chain, run[i].notice)
         && (flows[i].retrying.Some? ==>
               && flows[i].retrying.value == run[i].notice
               && (run[i].targets == flows[i].targets || AlreadyProcessed(flows[i].site.core, run[i].notice)))
  }

  /** A destination of every attempt of a run. */
  predicate Always(run: seq<Attempt>, d: Destination) {
    forall i :: 0 <= i < |run| ==> d in run[i].targets
  }

  /** The notice in hand has been sent in part. */
  predicate PartSent(f: Flow) {
    f.site.topics != f.base || f.site.core.latest != LatestOf(f.chain)
  }

  /** What a reader of a destination holds is the chain. */
  ghost predicate Grounded(tree: Hash -> Block, d: Destination, start: seq<Anchor>, f: Flow) {
    Linked(f.chain) && Genuine(tree, f.chain) && ReplayFrom(start, f.base.At(d)) == Some(Anchors(f.chain))
  }

  /** Between notices: index, latest message and topics all stand for the chain. */
  predicate Settled(f: Flow) {
    && f.site.core.nums == IndexOf(f.chain) && f.site.core.latest == LatestOf(f.chain) && f.site.topics == f.base
    && (f.site.delivered == {} || (f.site.core.latest.Some? && f.site.current.tail == f.site.core.latest.value.hash))
  }

  /** Inside a notice: destinations hold prefixes of its messages, none of them before the index is
      written, and `latest` has moved only to blocks every destination has. */
  ghost predicate Midway(tree: Hash -> Block, targets: set<Destination>, f: Flow, n: Notice) {
    && Contract(tree, f.chain, n) && Fits(f.chain, n) && Linked(Followed(f.chain, n)) && Genuine(tree, Followed(f.chain, n))
    && (|f.chain| > 0 ==> Tail(f.chain).hash != Tail(n.news).hash)
    && f.site.current == IdOf(n) && Spread(f.site, f.base, targets, Messages(n))
    && LatestBetween(f.site, f.base, targets, LatestOf(f.chain), n)
    && ((f.site.core.nums == IndexOf(f.chain) && f.site.topics == f.base && f.site.core.latest == LatestOf(f.chain))
        || f.site.core.nums == IndexOf(Followed(f.chain, n)))
  }

  ghost predicate LatestBetween(s: Site, base: Topics, targets: set<Destination>, before: Option<Outer>, n: Notice) {
    || s.core.latest == before
    || exists j :: |n.drops| <= j < |n.drops| + |n.news| && s.core.latest == Some(Messages(n)[j]) && AtLeast(s, base, targets, j + 1)
  }

  lemma PreparedFrame(c: Core, n: Notice, position: Option<Position>, ok: bool)
    requires |n.news| > 0
    ensures var r := Prepared(c, n, position, ok).0; r.nums == c.nums && r.latest == c.latest
  {
    hide ValidState, NoticeExtends, ReplayIndexed, OffsetGap;
  }

  lemma WrittenFrame(c: Core, blocks: seq<Block>, ok: bool)
    requires |blocks| > 0
    ensures var r := Written(c, blocks, ok);
            r.0.latest == c.latest && r.0.nums == if r.1 then Rewritten(c.nums, blocks) else c.nums
  {
    hide ValidState, Rewritten, Rewinds, Advanced;
  }

  lemma FinishedFrame(c: Core, position: Option<Position>, ok: bool)
    ensures var r := Finished(c, position, ok).0; r.nums == c.nums && r.latest == c.latest
  {
    hide ValidState;
  }

  /** Writing a notice's blocks leaves the index of the followed chain. */
  lemma WriteFollows(chain: seq<Block>, n: Notice)
    requires Fits(chain, n)
    ensures Rewritten(IndexOf(chain), n.news) == IndexOf(Followed(chain, n))
  {
    hide Linked, Rewritten, IndexOf, Spliced, Followed;
    WriteIsSplice(chain, n.news);
  }

  /** The new blocks continue the chain they already belong to. */
  lemma FollowedExtends(chain: seq<Block>, n: Notice)
    requires Fits(chain, n) && Linked(Followed(chain, n))
    ensures Extends(Followed(chain, n), n.news) && Spliced(Followed(chain, n), n.news) == Followed(chain, n)
  {
    var f, base := Followed(chain, n), |chain| - |n.drops|;
    assert f[base] == n.news[0] && f[..base] + n.news == f;
    LinkedAt(f, 0, base);
    if base > 0 { assert f[base - 1 + 1].parent == f[base - 1].hash; }
  }

  /** And writing them again changes nothing. */
  lemma RewriteFollows(chain: seq<Block>, n: Notice)
    requires Fits(chain, n) && Linked(Followed(chain, n))
    ensures Rewritten(IndexOf(Followed(chain, n)), n.news) == IndexOf(Followed(chain, n))
  {
    hide Linked, Rewritten, IndexOf, Spliced, Followed;
    FollowedExtends(chain, n);
    WriteIsSplice(Followed(chain, n), n.news);
  }

  /** A destination with all messages of a notice mirrors the followed chain; one with some of them
      can still be replayed. */
  lemma PrefixReplays(start: seq<Anchor>, s: Site, base: Topics, chain: seq<Block>, n: Notice, d: Destination)
    requires Linked(chain) && Fits(chain, n) && Placed(s, base, Messages(n), d)
    requires ReplayFrom(start, base.At(d)) == Some(Anchors(chain))
    ensures ReplayFrom(start, s.topics.At(d)) == Some(Anchors(Halfway(chain, n, Count(s, base, d))))
  {
    hide Linked, Extends, Spliced, Anchors, ReplayFrom, Halfway, Messages;
    MessageCount(n);
    var k := Count(s, base, d);
    ReplayJoined(start, base.At(d), Messages(n)[..k]);
    MessagesReplay(chain, n, k);
  }

  lemma MessageCount(n: Notice)
    ensures |Messages(n)| == |n.drops| + |n.news|
  {
  }

  lemma HalfwayEnd(chain: seq<Block>, n: Notice)
    requires |n.drops| <= |chain| && |n.news| > 0
    ensures Halfway(chain, n, |n.drops| + |n.news|) == Followed(chain, n)
  {
    assert n.news[..|n.news|] == n.news;
  }

  lemma CompleteMirrors(start: seq<Anchor>, s: Site, base: Topics, chain: seq<Block>, n: Notice, d: Destination)
    requires Linked(chain) && Fits(chain, n) && ReplayFrom(start, base.At(d)) == Some(Anchors(chain))
    requires Placed(s, base, Messages(n), d) && Count(s, base, d) == |Messages(n)|
    ensures ReplayFrom(start, s.topics.At(d)) == Some(Anchors(Followed(chain, n)))
  {
    hide Linked, Extends, Spliced, Anchors, ReplayFrom, Halfway, Messages, Followed, Placed;
    MessageCount(n);
    PrefixReplays(start, s, base, chain, n, d);
    HalfwayEnd(chain, n);
  }

  /** A notice all of whose messages have reached every destination. */
  ghost predicate Complete(tree: Hash -> Block, targets: set<Destination>, f: Flow, n: Notice) {
    && Midway(tree, targets, f, n) && f.site.core.nums == IndexOf(Followed(f.chain, n))
    && f.site.core.latest == LatestOf(Followed(f.chain, n)) && AtLeast(f.site, f.base, targets, |Messages(n)|)
  }

  lemma LastMessage(chain: seq<Block>, n: Notice)
    requires |n.news| > 0 && |n.drops| <= |chain|
    ensures |Messages(n)| == |n.drops| + |n.news|
    ensures Some(Messages(n)[|Messages(n)| - 1]) == LatestOf(Followed(chain, n)) && !Messages(n)[|Messages(n)| - 1].isFork
    ensures forall j :: |n.drops| <= j < |Messages(n)| ==> !Messages(n)[j].isFork && Messages(n)[j].hash == n.news[j - |n.drops|].hash
    ensures forall j :: 0 <= j < |n.drops| ==> Messages(n)[j].isFork
  {
  }

  /** The canonical write inside a notice. */
  lemma WriteStep(tree: Hash -> Block, targets: set<Destination>, f: Flow, n: Notice, ok: bool)
    requires Midway(tree, targets, f, n)
    ensures var w := Written(f.site.core, n.news, ok);
            var f1 := f.(site := f.site.(core := w.0));
            Midway(tree, targets, f1, n) && (w.1 ==> f1.site.core.nums == IndexOf(Followed(f.chain, n)))
  {
    hide Written, Contract, Spread, Followed, Linked, Genuine, Fits, Messages, AtLeast;
    FitsHas(f.chain, n);
    WrittenFrame(f.site.core, n.news, ok);
    WriteFollows(f.chain, n);
    RewriteFollows(f.chain, n);
    var f1 := f.(site := f.site.(core := Written(f.site.core, n.news, ok).0));
    SameCounts(f.site, f1.site, f.base, targets, Messages(n));
  }

  lemma FitsHas(chain: seq<Block>, n: Notice)
    requires Fits(chain, n)
    ensures |n.news| > 0 && |n.drops| <= |chain|
  {
  }

  lemma SameCounts(s: Site, t: Site, base: Topics, targets: set<Destination>, msgs: seq<Outer>)
    requires s.topics == t.topics && s.delivered == t.delivered
    ensures Spread(s, base, targets, msgs) ==> Spread(t, base, targets, msgs)
    ensures forall i :: AtLeast(s, base, targets, i) ==> AtLeast(t, base, targets, i)
  {
    if Spread(s, base, targets, msgs) {
      forall d | d in targets ensures Placed(t, base, msgs, d) { assert Placed(s, base, msgs, d); }
      forall d, e | d in targets && e in targets
        ensures Count(t, base, d) <= Count(t, base, e) + 1
      {
        assert Count(s, base, d) <= Count(s, base, e) + 1;
      }
    }
    forall i | AtLeast(s, base, targets, i) ensures AtLeast(t, base, targets, i) {
      forall d | d in targets ensures Count(t, base, d) >= i { assert Count(s, base, d) >= i; }
    }
  }

  /** Sending inside a notice whose blocks are indexed. */
  lemma SendStep(tree: Hash -> Block, targets: set<Destination>, f: Flow, n: Notice, faults: set<Mark>)
    requires Midway(tree, targets, f, n) && f.site.core.nums == IndexOf(Followed(f.chain, n))
    ensures var r := Sent(f.site, targets, Messages(n), faults);
            var f1 := f.(site := r.0);
            Midway(tree, targets, f1, n) && (r.1 ==> Complete(tree, targets, f1, n))
  {
    hide Sent, Contract, Linked, Genuine, Fits, Messages, Placed, ProducerContract;
    FitsHas(f.chain, n);
    ContractHas(tree, f.chain, n);
    MessagesDistinct(n);
    LastMessage(f.chain, n);
    var msgs := Messages(n);
    assert msgs[0..] == msgs;
    assert AtLeast(f.site, f.base, targets, 0) by { NoNegative(f.site, f.base, targets, msgs); }
    SentKeeps(f.site, f.base, targets, msgs, 0, faults);
    var r := Sent(f.site, targets, msgs, faults);
    if r.0.core.latest == f.site.core.latest {
      StillBetween(f.site, r.0, f.base, targets, LatestOf(f.chain), n, faults);
    }
  }

  lemma ContractHas(tree: Hash -> Block, chain: seq<Block>, n: Notice)
    requires Contract(tree, chain, n)
    ensures ProducerContract(n)
  {
  }

  lemma NoNegative(s: Site, base: Topics, targets: set<Destination>, msgs: seq<Outer>)
    requires Spread(s, base, targets, msgs)
    ensures AtLeast(s, base, targets, 0)
  {
  }

  lemma StillBetween(s: Site, t: Site, base: Topics, targets: set<Destination>, before: Option<Outer>, n: Notice, faults: set<Mark>)
    requires LatestBetween(s, base, targets, before, n) && t == Sent(s, targets, Messages(n), faults).0 && t.core.latest == s.core.latest
    ensures LatestBetween(t, base, targets, before, n)
  {
    hide Sent;
    SentGrows(s, targets, Messages(n), faults);
    if s.core.latest != before {
      var j :| |n.drops| <= j < |n.drops| + |n.news| && s.core.latest == Some(Messages(n)[j]) && AtLeast(s, base, targets, j + 1);
      assert AtLeast(t, base, targets, j + 1) by {
        forall d | d in targets ensures Count(t, base, d) >= j + 1 { assert Count(s, base, d) >= j + 1; }
      }
    }
  }

  /** A state of a notice survives a change of nothing but the cursor. */
  lemma CursorStep(tree: Hash -> Block, targets: set<Destination>, f: Flow, n: Notice, c: Core)
    requires Midway(tree, targets, f, n) && c.nums == f.site.core.nums && c.latest == f.site.core.latest
    ensures var f1 := f.(site := f.site.(core := c)); Midway(tree, targets, f1, n) && (Complete(tree, targets, f, n) ==>
        Complete(tree, targets, f1, n))
  {
    hide Contract, Spread, Linked, Genuine, Fits, Messages, AtLeast;
    FitsHas(f.chain, n);
    SameCounts(f.site, f.site.(core := c), f.base, targets, Messages(n));
  }

  lemma DeliverStep(tree: Hash -> Block, targets: set<Destination>, f: Flow, n: Notice, position: Option<Position>, o: Outcome,
       faults: set<Mark>)
    requires Midway(tree, targets, f, n) && |n.news| > 0
    ensures var r := Delivered(f.site, targets, n, position, o, faults);
            var f1 := f.(site := r.0);
            Midway(tree, targets, f1, n) && (r.1 ==> Complete(tree, targets, f1, n))
  {
    hide Midway, Complete, Written, Sent, Finished, Messages, Fits;
    var f1 := f.(site := f.site.(core := Written(f.site.core, n.news, o.committed).0));
    WriteStep(tree, targets, f, n, o.committed);
    if Written(f.site.core, n.news, o.committed).1 && o.marked {
      MidwayHas(tree, targets, f, n);
      SendStep(tree, targets, f1, n, faults);
      var r := Sent(f1.site, targets, Messages(n), faults);
      FinishedFrame(r.0.core, position, o.finished);
      if r.1 { CursorStep(tree, targets, f1.(site := r.0), n, Finished(r.0.core, position, o.finished).0); }
    }
  }

  lemma MidwayHas(tree: Hash -> Block, targets: set<Destination>, f: Flow, n: Notice)
    requires Midway(tree, targets, f, n)
    ensures |n.news| > 0 && |n.drops| <= |f.chain|
  {
  }

  /** A complete notice settles. */
  lemma Settles(tree: Hash -> Block, d: Destination, start: seq<Anchor>, f: Flow, n: Notice)
    requires Grounded(tree, d, start, f) && Complete(tree, f.targets, f, n) && d in f.targets
    ensures var f1 := f.(chain := ChainWith(f.chain, n), base := f.site.topics, retrying := None); Grounded(tree, d, start, f1) && Settled(f1)
  {
    hide Linked, Genuine, Extends, Spliced, Messages, Contract, Anchors, ReplayFrom, Placed, IndexOf, LatestBetween;
    CompleteAt(f.site, f.base, f.targets, Messages(n), d);
    CompleteMirrors(start, f.site, f.base, f.chain, n, d);
  }

  lemma CompleteAt(s: Site, base: Topics, targets: set<Destination>, msgs: seq<Outer>, d: Destination)
    requires Spread(s, base, targets, msgs) && AtLeast(s, base, targets, |msgs|) && d in targets
    ensures Placed(s, base, msgs, d) && Count(s, base, d) == |msgs|
  {
  }

  /** A notice that passes the continuity check begins with clean marks: the marks kept so far belong
      to a notice whose tail is the latest block, and this one has another tail. */
  lemma BeginStep(tree: Hash -> Block, targets: set<Destination>, f: Flow, n: Notice, c: Core)
    requires Linked(f.chain) && Genuine(tree, f.chain) && Settled(f) && Contract(tree, f.chain, n) && |n.news| > 0
    requires c.nums == f.site.core.nums && c.latest == f.site.core.latest
    requires !AlreadyProcessed(f.site.core, n) && MsgCheck(f.site.core, n)
    ensures Midway(tree, targets, f.(site := NoticeBegun(f.site.(core := c), n)), n)
  {
    hide Linked, Genuine, Messages, Contract, Anchors, ReplayFrom, IndexOf, MsgCheck, Fits;
    CheckedFits(tree, f.site.core, f.chain, n);
    var s := NoticeBegun(f.site.(core := c), n);
    assert s.delivered == {};
    FreshSpread(s, f.base, targets, Messages(n));
  }

  lemma FreshSpread(s: Site, base: Topics, targets: set<Destination>, msgs: seq<Outer>)
    requires s.topics == base && s.delivered == {}
    ensures Spread(s, base, targets, msgs)
  {
    forall d | d in targets ensures Placed(s, base, msgs, d) { assert msgs[..0] == []; }
  }

  /** What every attempt keeps, at any point of a run. */
  ghost predicate FlowInv(tree: Hash -> Block, d: Destination, start: seq<Anchor>, f: Flow) {
    && Grounded(tree, d, start, f)
    && (Settled(f) || (f.retrying.Some? && d in f.targets && Midway(tree, f.targets, f, f.retrying.value)))
  }

  /** An attempt from the point where its notice has begun. */
  lemma BegunStep(tree: Hash -> Block, d: Destination, start: seq<Anchor>, f: Flow, a: Attempt)
    requires Grounded(tree, d, start, f) && Midway(tree, f.targets, f, a.notice) && |a.notice.news| > 0 && d in f.targets
    ensures var r := if a.outcome.ready then Delivered(f.site, f.targets, a.notice, a.position, a.outcome, a.faults) else (f.site, false);
            var f1 := Ended(f, a.notice, r);
            FlowInv(tree, d, start, f1) && (r.1 ==> Settled(f1))
  {
    hide Delivered, Linked, Genuine, ReplayFrom, Settled, Contract, Spread, Messages, Fits, IndexOf, Followed, LatestBetween, AtLeast, ChainWith;
    if a.outcome.ready {
      DeliverStep(tree, f.targets, f, a.notice, a.position, a.outcome, a.faults);
      var r := Delivered(f.site, f.targets, a.notice, a.position, a.outcome, a.faults);
      if r.1 { Settles(tree, d, start, f.(site := r.0), a.notice); }
    }
  }

  lemma SettledStep(tree: Hash -> Block, d: Destination, start: seq<Anchor>, f: Flow, a: Attempt)
    requires Grounded(tree, d, start, f) && Settled(f) && Contract(tree, f.chain, a.notice) && d in a.targets
    ensures var f1 := Stepped(f, a); FlowInv(tree, d, start, f1) && (f1.retrying.None? ==> Settled(f1))
  {
    hide Linked, Genuine, ReplayFrom, Midway, Contract, Prepared, Finished, MsgCheck, Delivered, IndexOf, Followed;
    var n, s := a.notice, f.site;
    if |n.news| > 0 {
      var p := Prepared(s.core, n, a.position, a.outcome.saved);
      PreparedFrame(s.core, n, a.position, a.outcome.saved);
      if AlreadyProcessed(s.core, n) {
        FinishedFrame(p.0, a.position, a.outcome.finished);
      } else if MsgCheck(s.core, n) && p.1 {
        var g := f.(targets := a.targets);
        BeginStep(tree, a.targets, g, n, p.0);
        BegunStep(tree, d, start, g.(site := NoticeBegun(s.(core := p.0), n)), a);
      }
    }
  }

  /** In the middle of a notice, the latest block is its tail only when it is complete. */
  lemma TailMeansComplete(tree: Hash -> Block, targets: set<Destination>, f: Flow, n: Notice)
    requires Midway(tree, targets, f, n) && AlreadyProcessed(f.site.core, n)
    ensures Complete(tree, targets, f, n)
  {
    hide Linked, Genuine, Spread, Fits, IndexOf, Messages, Followed, AtLeast, Contract, LatestBetween;
    MidwayHas(tree, targets, f, n);
    LastMessage(f.chain, n);
    TouchedMeansWritten(tree, f, n);
    ContractHas(tree, f.chain, n);
    TailIsLast(targets, f, n);
  }

  /** A latest block that is the notice's tail is its last message, which every destination has. */
  lemma TailIsLast(targets: set<Destination>, f: Flow, n: Notice)
    requires |n.news| > 0 && ProducerContract(n) && LatestBetween(f.site, f.base, targets, LatestOf(f.chain), n)
    requires f.site.core.latest != LatestOf(f.chain) && AlreadyProcessed(f.site.core, n) && |Messages(n)| == |n.drops| + |n.news|
    requires forall j :: |n.drops| <= j < |Messages(n)| ==> !Messages(n)[j].isFork && Messages(n)[j].hash == n.news[j - |n.drops|].hash
    ensures f.site.core.latest == Some(Messages(n)[|Messages(n)| - 1]) && AtLeast(f.site, f.base, targets, |Messages(n)|)
  {
    hide Messages, AtLeast, Linked, NonZero;
    var j :| |n.drops| <= j < |n.drops| + |n.news| && f.site.core.latest == Some(Messages(n)[j]) && AtLeast(f.site, f.base, targets, j + 1);
    assert n.news[j - |n.drops|].hash == n.news[|n.news| - 1].hash;
    assert j == |n.drops| + |n.news| - 1;
  }

  lemma TouchedMeansWritten(tree: Hash -> Block, f: Flow, n: Notice)
    requires |n.news| > 0 && f.site.core.latest.Some? && f.site.core.latest.value.hash == Tail(n.news).hash
    requires |f.chain| > 0 ==> Tail(f.chain).hash != Tail(n.news).hash
    ensures f.site.core.latest != LatestOf(f.chain)
  {
  }

  lemma MidwayStep(tree: Hash -> Block, d: Destination, start: seq<Anchor>, f: Flow, a: Attempt)
    requires Grounded(tree, d, start, f) && Midway(tree, f.targets, f, a.notice) && f.retrying == Some(a.notice) && d in f.targets
    requires a.targets == f.targets || AlreadyProcessed(f.site.core, a.notice)
    ensures var f1 := Stepped(f, a); FlowInv(tree, d, start, f1) && (f1.retrying.None? ==> Settled(f1))
  {
    hide Linked, Genuine, ReplayFrom, Midway, Complete, Settled, Prepared, Finished, MsgCheck, Delivered, AlreadyProcessed, ChainWith;
    var n, s := a.notice, f.site;
    MidwayHas(tree, f.targets, f, n);
    CurrentIs(tree, f.targets, f, n);
    var p := Prepared(s.core, n, a.position, a.outcome.saved);
    PreparedFrame(s.core, n, a.position, a.outcome.saved);
    CursorStep(tree, f.targets, f, n, p.0);
    if AlreadyProcessed(s.core, n) {
      TailMeansComplete(tree, f.targets, f, n);
      FinishedFrame(p.0, a.position, a.outcome.finished);
      var c := Finished(p.0, a.position, a.outcome.finished).0;
      CursorStep(tree, f.targets, f, n, c);
      Settles(tree, d, start, f.(site := s.(core := c)), n);
    } else if MsgCheck(s.core, n) && p.1 {
      BegunStep(tree, d, start, f.(site := s.(core := p.0)), a);
    }
  }

  lemma CurrentIs(tree: Hash -> Block, targets: set<Destination>, f: Flow, n: Notice)
    requires Midway(tree, targets, f, n)
    ensures f.site.current == IdOf(n)
  {
  }

  lemma {:induction false} FlowKeeps(tree: Hash -> Block, d: Destination, flows: seq<Flow>, run: seq<Attempt>, i: nat)
    requires IsFlow(tree, flows, run) && Always(run, d) && i < |flows|
    ensures FlowInv(tree, d, Anchors(flows[0].chain), flows[i])
    ensures flows[i].retrying.None? ==> Settled(flows[i])
  {
    hide Midway, Grounded, Settled, Stepped, Contract, Anchors, FlowStart, AlreadyProcessed;
    if i == 0 {
      StartSettled(tree, d, flows[0]);
    } else {
      var start, f, a := Anchors(flows[0].chain), flows[i - 1], run[i - 1];
      FlowKeeps(tree, d, flows, run, i - 1);
      assert flows[i - 1 + 1] == Stepped(f, a);
      if Settled(f) { SettledStep(tree, d, start, f, a); } else { MidwayStep(tree, d, start, f, a); }
    }
  }

  lemma StartSettled(tree: Hash -> Block, d: Destination, f: Flow)
    requires FlowStart(tree, f)
    ensures Grounded(tree, d, Anchors(f.chain), f) && Settled(f)
  {
  }

  /** The published walk. Over any run of contract-abiding notices, with any faults and retries, the
      topic of a destination of all of them can be replayed, whatever has been sent so far. After a
      success what a reader holds is one contiguous chain: exactly the canonical index, with `latest` at
      its tip. A destination that joins between two notices starts a run of its own there. */
  lemma PublishedWalk(tree: Hash -> Block, flows: seq<Flow>, run: seq<Attempt>, d: Destination)
    requires IsFlow(tree, flows, run) && Always(run, d)
    ensures var g := flows[|run|];
            var r := ReplayFrom(Anchors(flows[0].chain), g.site.topics.At(d));
            && r.Some?
            && (g.retrying.None? ==> IsIndexed(g.site.core.nums, r.value) && TipIs(g.site.core.latest, r.value))
  {
    hide Contract, Anchors, Fits, Linked, IsFlow, Always, ReplayFrom, Messages, Placed, IndexOf;
    FlowsNonEmpty(tree, flows, run);
    FlowKeeps(tree, d, flows, run, |run|);
    var g := flows[|run|];
    if Settled(g) {
      ChainIsIndexed(g.chain);
    } else {
      FitsHas(g.chain, g.retrying.value);
      PrefixReplays(Anchors(flows[0].chain), g.site, g.base, g.chain, g.retrying.value, d);
    }
  }

  lemma FlowsNonEmpty(tree: Hash -> Block, flows: seq<Flow>, run: seq<Attempt>)
    requires IsFlow(tree, flows, run)
    ensures |flows| == |run| + 1
  {
  }

  /** The anchors have consecutive heights, and the index maps exactly these heights to their hashes. */
  ghost predicate IsIndexed(nums: Index, r: seq<Anchor>) {
    && (forall i :: 0 <= i < |r| ==> r[i].height == r[0].height + i)
    && (forall h: u64 :: Get(nums, h) == if |r| > 0 && r[0].height <= h < r[0].height + |r| then Some(r[h - r[0].height].hash) else None)
  }

  predicate TipIs(latest: Option<Outer>, r: seq<Anchor>) {
    latest == if |r| == 0 then None else Some(Outer(r[|r| - 1].height, r[|r| - 1].hash, false))
  }

  lemma ChainIsIndexed(chain: seq<Block>)
    requires Linked(chain)
    ensures IsIndexed(IndexOf(chain), Anchors(chain)) && TipIs(LatestOf(chain), Anchors(chain))
  {
    var r := Anchors(chain);
    forall i | 0 <= i < |r| ensures r[i].height == r[0].height + i { LinkedAt(chain, 0, i); }
    forall h: u64
      ensures Get(IndexOf(chain), h) == if |r| > 0 && r[0].height <= h < r[0].height + |r| then Some(r[h - r[0].height].hash) else None
    {
      IndexOfAt(chain, h);
    }
  }

  /** In any run, a retry of a notice sent in part gets past the continuity check exactly when no new
      block has gone out everywhere yet, or all have: `latest` advances block by block, and the check
      compares with the block before the notice. */
  lemma RetryAcceptedIff(tree: Hash -> Block, flows: seq<Flow>, run: seq<Attempt>, d: Destination)
    requires IsFlow(tree, flows, run) && Always(run, d) && PartSent(flows[|run|])
    ensures var g := flows[|run|];
            && g.retrying.Some? && |g.retrying.value.news| > 0 && |g.retrying.value.drops| <= |g.chain|
            && (MsgCheck(g.site.core, g.retrying.value) || AlreadyProcessed(g.site.core, g.retrying.value) <==>
                  g.site.core.latest == LatestOf(g.chain) || g.site.core.latest == LatestOf(Followed(g.chain, g.retrying.value)))
  {
    hide Midway, Contract, Linked, Genuine, MsgCheck, AlreadyProcessed, IsFlow;
    FlowsNonEmpty(tree, flows, run);
    FlowKeeps(tree, d, flows, run, |run|);
    var g := flows[|run|];
    MidwayHas(tree, g.targets, g, g.retrying.value);
    AcceptedMidwayIff(tree, g.targets, g, g.retrying.value);
  }

  lemma AcceptedMidwayIff(tree: Hash -> Block, targets: set<Destination>, f: Flow, n: Notice)
    requires Midway(tree, targets, f, n) && Genuine(tree, f.chain) && Linked(f.chain) && |n.news| > 0 && |n.drops| <= |f.chain|
    ensures MsgCheck(f.site.core, n) || AlreadyProcessed(f.site.core, n) <==>
            f.site.core.latest == LatestOf(f.chain) || f.site.core.latest == LatestOf(Followed(f.chain, n))
  {
    hide Spread, Fits, IndexOf, AtLeast, Contract, Linked, Genuine, MsgCheck;
    LastMessage(f.chain, n);
    if f.site.core.latest == LatestOf(f.chain) {
      FitsPasses(f.chain, n, f.site.core);
    } else {
      var j :| |n.drops| <= j < |n.drops| + |n.news| && f.site.core.latest == Some(Messages(n)[j]);
      var k := j - |n.drops|;
      if k < |n.news| - 1 { RejectedMidway(tree, f.chain, f.site.core, n, k); }
    }
  }

  /** The continuity check is necessary as well. */
  lemma FitsPasses(chain: seq<Block>, n: Notice, core: Core)
    requires Fits(chain, n) && core.latest == LatestOf(chain)
    ensures MsgCheck(core, n)
  {
    if |chain| > 0 {
      if |n.drops| > 0 {
        assert Tail(n.drops) == Tail(chain);
      } else {
        var k := n.news[0].num - chain[0].num;
        assert |Spliced(chain, n.news)| == k + |n.news|;
      }
    }
  }

  lemma RejectedMidway(tree: Hash -> Block, chain: seq<Block>, core: Core, n: Notice, k: nat)
    requires Contract(tree, chain, n) && k < |n.news| - 1 && core.latest.Some? && core.latest.value.hash == n.news[k].hash
    ensures !AlreadyProcessed(core, n) && !MsgCheck(core, n)
  {
    hide Linked, Genuine, ParentsBelow, NonZero, MsgCheck;
    ExpectsOther(tree, n, core, k);
  }

  lemma ExpectsOther(tree: Hash -> Block, n: Notice, core: Core, k: nat)
    requires ProducerContract(n) && Genuine(tree, n.drops) && Genuine(tree, n.news) && ParentsBelow(tree, n.news)
    requires k < |n.news| && core.latest.Some? && core.latest.value.hash == n.news[k].hash
    ensures !MsgCheck(core, n)
  {
    hide DistinctHashes, NonZero;
    LinkedAt(n.news, 0, k);
    assert tree(n.news[k].hash) == n.news[k];
    if |n.drops| > 0 && Tail(n.drops).hash == n.news[k].hash {
      LinkedAt(n.drops, 0, |n.drops| - 1);
      SharedBranch(tree, n, k);
    }
  }

  /** A notice of which all destinations have some but not all new blocks is refused for good: no later
      attempt, whatever happens in it, sends or changes anything. */
  lemma PartlyPublishedSticks(tree: Hash -> Block, flows: seq<Flow>, run: seq<Attempt>, a: Attempt, k: nat, d: Destination)
    requires IsFlow(tree, flows, run) && Always(run, d) && PartSent(flows[|run|])
    requires flows[|run|].retrying == Some(a.notice) && k < |a.notice.news| - 1
    requires flows[|run|].site.core.latest == Some(Outer(a.notice.news[k].num, a.notice.news[k].hash, false))
    ensures Stepped(flows[|run|], a) == flows[|run|].(targets := a.targets)
  {
    hide Contract, Prepared, Finished, Delivered, Entered, Repeated, MsgCheck, AlreadyProcessed, IsFlow;
    FlowsNonEmpty(tree, flows, run);
    FlowKeeps(tree, d, flows, run, |run|);
    RejectedMidway(tree, flows[|run|].chain, flows[|run|].site.core, a.notice, k);
  }

  lemma SecondWriteFails(s: Site, b1: Block, b2: Block)
    requires ProducerContract(Notice([], [b1, b2])) && s.delivered == {} && s.topics == Topics([], [])
    ensures var fault := {Mark(Version, OuterKey(b2.hash, false))};
            var r := Sent(s, {Version}, Messages(Notice([], [b1, b2])), fault);
            && !r.1 && r.0.topics.version == [Outer(b1.num, b1.hash, false)]
            && r.0.core == s.core.(latest := Some(Outer(b1.num, b1.hash, false)))
  {
    var n := Notice([], [b1, b2]);
    assert n.news[0].hash != n.news[1].hash;
    var msgs := Messages(n);
    var fault := {Mark(Version, OuterKey(b2.hash, false))};
    assert msgs[0] == Outer(b1.num, b1.hash, false) && msgs[1] == Outer(b2.num, b2.hash, false) && msgs[1..] == [msgs[1]];
    var r := SentOne(s, {Version}, msgs[0], fault);
    var q := SentOne(r.0, {Version}, msgs[1], fault);
    assert !q.1 by { assert Due(r.0, Version, msgs[1]); }
  }

  lemma NothingToPrepare(c: Core, n: Notice)
    requires c.anchor.None? && |n.news| > 0
    ensures Prepared(c, n, None, true) == (c, true)
  {
  }

  /** Such a state is one failed write away: from an empty topic, two blocks in one notice and the
      write of the second failing. */
  lemma TwoBlocksCanStick(b1: Block, b2: Block, later: Attempt)
    requires ProducerContract(Notice([], [b1, b2])) && b1.parent != b1.hash && later.notice == Notice([], [b1, b2])
    ensures var s := Site(Reloaded(map[], None, None), NoticeId(ZeroHash(), 0, 0), {}, Topics([], []));
            var fault := {Mark(Version, OuterKey(b2.hash, false))};
            var s1 := Processed(s, {Version}, later.notice, None, Outcome(true, true, true, true, true, true), fault).0;
            && s1.topics.version == [Outer(b1.num, b1.hash, false)]
            && Processed(s1, {Version}, later.notice, later.position, later.outcome, later.faults) == (s1, false)
  {
    hide Rewritten, ValidState, Sent, Messages, Prepared, Finished;
    var n := later.notice;
    var c := Reloaded(map[], None, None);
    var s := Site(c, IdOf(n), {}, Topics([], [])).(core := Written(c, n.news, true).0);
    SecondWriteFails(s, b1, b2);
    NothingToPrepare(c, n);
    assert n.news[1].parent == n.news[0].hash && n.news[1].num == n.news[0].num + 1;
  }

  /** A drop and a new block that are one block would make their lists share their first block. */
  lemma SharedBranch(tree: Hash -> Block, n: Notice, k: nat)
    requires Genuine(tree, n.drops) && Genuine(tree, n.news) && Linked(n.drops) && Linked(n.news)
    requires k < |n.news| && k < |n.drops| && n.drops[k].hash == n.news[k].hash
    ensures n.drops[0].hash == n.news[0].hash
    decreases k
  {
    if k > 0 {
      assert n.drops[k] == n.news[k];
      assert n.drops[k - 1 + 1].parent == n.drops[k - 1].hash && n.news[k - 1 + 1].parent == n.news[k - 1].hash;
      SharedBranch(tree, n, k - 1);
    }
  }
}
