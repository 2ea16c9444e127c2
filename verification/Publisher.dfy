/** The publishing half of the checker object: delivery bookkeeping, topics and whole notices. */
module Publisher {
  import opened Types
  import opened CanonicalIndex
  import opened ConsistencyDB
  import opened ScanCore
  import opened ScanMachine
  import opened Checker
  import opened Publication
  import opened PublishedWalk

  /** How the alignment inside a notice ends: it fails, leaves things as they are, or finds the singleton
      topic level with the version topic, which makes it a destination from the next notice on. */
  datatype Aligning = AlignFailed | AlignLeft | AlignJoined

  /** The singleton topic becomes a destination only by such an alignment, and by every successful one. */
  predicate JoinsOnlyBy(before: bool, after: bool, aligning: Aligning, ok: bool) {
    && (before ==> after) && (after && !before ==> aligning.AlignJoined?) && (ok && aligning.AlignJoined? ==> after)
  }

  function Only(ds: seq<Destination>): set<Destination> {
    set i | 0 <= i < |ds| :: ds[i]
  }

  class Publisher {
    const checker: Checker
    const versionMode: bool
    var leader: bool
    var singletonAligned: bool
    var current: NoticeId
    var delivered: set<Mark>
    var topics: Topics

    constructor (checker: Checker, versionMode: bool)
      ensures this.checker == checker && this.versionMode == versionMode
      ensures delivered == {} && topics == Topics([], []) && !leader && !singletonAligned
    {
      this.checker, this.versionMode := checker, versionMode;
      leader, singletonAligned := false, false;
      current, delivered, topics := NoticeId(ZeroHash(), 0, 0), {}, Topics([], []);
    }

    ghost function Frame(): set<object>
      reads this, checker
    {
      {this} + checker.Frame()
    }

    ghost function View(): Site
      reads Frame()
    {
      Site(checker.View(), current, delivered, topics)
    }

    /** Without versions there is one topic; with them the version topic, and the singleton topic
        while this instance leads and has aligned it. */
    function Targets(): (ds: seq<Destination>)
      reads this
      ensures |ds| > 0 && (|ds| == 2 ==> ds[0] != ds[1]) && |ds| <= 2
    {
      if !versionMode then [Singleton]
      else if leader && singletonAligned then [Version, Singleton]
      else [Version]
    }

    method BeginNotice(n: Notice)
      requires |n.news| > 0
      modifies `current, `delivered
      ensures View() == NoticeBegun(old(View()), n)
    {
      var id := NoticeId(n.news[|n.news| - 1].hash, |n.news|, |n.drops|);
      if id != current {
        current := id;
        delivered := {};
      }
    }

    method WriteOuter(to: Destination, m: Outer)
      modifies `topics
      ensures topics == if to.Version? then old(topics).(version := old(topics).version + [m]) else old(topics).(singleton := old(topics).singleton + [m])
    {
      if to.Version? {
        topics := topics.(version := topics.version + [m]);
      } else {
        topics := topics.(singleton := topics.singleton + [m]);
      }
    }

    /** The writes of one message; a destination that has it already is left alone. */
    method WriteDue(targets: seq<Destination>, m: Outer, faults: set<Mark>) returns (errs: set<Destination>)
      requires |targets| == 2 ==> targets[0] != targets[1]
      requires |targets| <= 2
      modifies `topics
      ensures forall d :: d in errs <==> d in targets && Mark(d, KeyOf(m)) !in delivered && Mark(d, KeyOf(m)) in faults
      ensures topics == Extended(old(topics), m, Version in targets && Takes(delivered, faults, Mark(Version, KeyOf(m))),
                                 Singleton in targets && Takes(delivered, faults, Mark(Singleton, KeyOf(m))))
    {
      errs := {};
      var i := 0;
      while i < |targets|
        invariant 0 <= i <= |targets|
        invariant forall d :: d in errs <==> d in targets[..i] && Mark(d, KeyOf(m)) !in delivered && Mark(d, KeyOf(m)) in faults
        invariant topics == Extended(old(topics), m, Version in targets[..i] && Takes(delivered, faults, Mark(Version, KeyOf(m))),
                                     Singleton in targets[..i] && Takes(delivered, faults, Mark(Singleton, KeyOf(m))))
      {
        var t := targets[i];
        assert targets[..i + 1] == targets[..i] + [t];
        if Mark(t, KeyOf(m)) !in delivered {
          if Mark(t, KeyOf(m)) in faults {
            errs := errs + {t};
          } else {
            WriteOuter(t, m);
          }
        }
        i := i + 1;
      }
      assert targets[..i] == targets;
    }

    /** Afterwards every destination that took the message is marked. */
    method MarkDelivered(targets: seq<Destination>, key: OuterKey, errs: set<Destination>) returns (ok: bool)
      modifies `delivered
      ensures forall k :: k in delivered <==> k in old(delivered) || (k.key == key && k.to in targets && k.to !in errs)
      ensures ok <==> forall d :: d in targets && Mark(d, key) !in old(delivered) ==> d !in errs
    {
      ok := true;
      var i := 0;
      while i < |targets|
        invariant 0 <= i <= |targets|
        invariant forall k :: k in delivered <==> k in old(delivered) || (k.key == key && k.to in targets[..i] && k.to !in errs)
        invariant ok <==> forall d :: d in targets[..i] && Mark(d, key) !in old(delivered) ==> d !in errs
      {
        var t := targets[i];
        assert targets[..i + 1] == targets[..i] + [t];
        if Mark(t, key) !in delivered {
          if t in errs {
            ok := false;
          } else {
            delivered := delivered + {Mark(t, key)};
          }
        }
        i := i + 1;
      }
      assert targets[..i] == targets;
    }

    /** One message to every destination that lacks it. Success means that now all have it. */
    method PublishOuter(m: Outer, faults: set<Mark>) returns (ok: bool)
      modifies `topics, `delivered
      ensures var r := SentOne(old(View()), Only(Targets()), m, faults);
              topics == r.0.topics && delivered == r.0.delivered && ok == r.1
    {
      hide SentOne;
      var targets := Targets();
      var errs := WriteDue(targets, m, faults);
      ok := MarkDelivered(targets, KeyOf(m), errs);
      MarkedIsSent(old(View()), targets, m, faults, errs, topics, delivered, ok);
    }

    method WriteDropBlockNotice(dropBlocks: seq<Block>, faults: set<Mark>) returns (ok: bool)
      modifies `topics, `delivered
      ensures (View(), ok) == Sent(old(View()), Only(Targets()), Outers(dropBlocks, true), faults)
    {
      hide SentOne, Sent;
      var i := 0;
      ghost var s0, targets, msgs := View(), Only(Targets()), Outers(dropBlocks, true);
      assert msgs[0..] == msgs;
      while i < |dropBlocks|
        invariant 0 <= i <= |dropBlocks| && View() == s0.(topics := topics, delivered := delivered)
        invariant Sent(s0, targets, msgs, faults) == Sent(View(), targets, msgs[i..], faults)
      {
        var block := dropBlocks[i];
        SentAt(View(), targets, msgs, i, faults);
        var sent := PublishOuter(Outer(block.num, block.hash, true), faults);
        if !sent { return false; }
        i := i + 1;
      }
      SentNone(View(), targets, msgs[i..], faults);
      return true;
    }

    /** The latest block advances only once every destination has the new one. */
    method WriteNewBlockNotice(newBlocks: seq<Block>, faults: set<Mark>) returns (ok: bool)
      modifies `topics, `delivered, checker`latest
      ensures (View(), ok) == Sent(old(View()), Only(Targets()), Outers(newBlocks, false), faults)
    {
      hide SentOne, Sent;
      var i := 0;
      ghost var s0, targets, msgs := View(), Only(Targets()), Outers(newBlocks, false);
      assert msgs[0..] == msgs;
      while i < |newBlocks|
        invariant 0 <= i <= |newBlocks|
        invariant View() == s0.(topics := topics, delivered := delivered, core := s0.core.(latest := checker.latest))
        invariant Sent(s0, targets, msgs, faults) == Sent(View(), targets, msgs[i..], faults)
      {
        var block := newBlocks[i];
        var m := Outer(block.num, block.hash, false);
        SentAt(View(), targets, msgs, i, faults);
        var sent := PublishOuter(m, faults);
        if !sent { return false; }
        checker.latest := Some(m);
        i := i + 1;
      }
      SentNone(View(), targets, msgs[i..], faults);
      return true;
    }

    /** Drops from the head down, then new blocks upwards, until a destination refuses one. */
    method WriteNotices(n: Notice, faults: set<Mark>) returns (ok: bool)
      modifies `topics, `delivered, checker`latest
      ensures (View(), ok) == Sent(old(View()), Only(Targets()), Messages(n), faults)
    {
      hide Sent, Messages;
      var dropBlocks := Reversed(n.drops);
      MessagesAre(n);
      SentJoined(View(), Only(Targets()), Outers(dropBlocks, true), Outers(n.news, false), faults);
      ok := WriteDropBlockNotice(dropBlocks, faults);
      if !ok { return; }
      ok := WriteNewBlockNotice(n.news, faults);
    }

    /** Records what the alignment came to. */
    method AlignOuterSingleton(aligning: Aligning) returns (ok: bool)
      modifies `singletonAligned
      ensures View() == old(View()) && ok == !aligning.AlignFailed? && singletonAligned == (old(singletonAligned) || aligning.AlignJoined?)
    {
      singletonAligned := singletonAligned || aligning.AlignJoined?;
      return !aligning.AlignFailed?;
    }

    /** The part of an attempt that follows the replica check: write, send, align, checkpoint. */
    method Deliver(n: Notice, validations: seq<int>, position: Option<Position>, marked: bool, aligning: Aligning,
                   store: Faults, finish: Faults, faults: set<Mark>, ghost o: Outcome) returns (ok: bool)
      requires |n.news| > 0 && |validations| == |n.news|
      requires o.committed == Commits(View().core.nums, n, store) && o.marked == marked && o.aligned == !aligning.AlignFailed? &&
          o.finished == !finish.commitFails
      modifies Frame()
      ensures checker.forkBatch == old(checker.forkBatch)
      ensures JoinsOnlyBy(old(singletonAligned), singletonAligned, aligning, ok) && leader == old(leader)
      ensures (View(), ok) == Delivered(old(View()), Only(old(Targets())), n, position, o, faults)
    {
      hide Written, Finished, Sent, Messages, Probed;
      var stored := checker.WriteBlockInfoToDB(n.news, validations, store);
      if !stored || !marked { return false; }
      var sent := WriteNotices(n, faults);
      if !sent { return false; }
      var aligned := AlignOuterSingleton(aligning);
      if !aligned { return false; }
      ok := checker.FinishForkScan(position, finish);
    }

    /** The short way for a notice already published: prepare, align, checkpoint. */
    method Repeat(n: Notice, position: Option<Position>, aligning: Aligning, prepare: Faults, finish: Faults,
         ghost o: Outcome) returns (ok: bool)
      requires |n.news| > 0
      requires o.saved == PrepareSaves(View().core, n, prepare) && o.aligned == !aligning.AlignFailed? && o.finished == !finish.commitFails
      modifies checker.Frame(), `singletonAligned
      ensures checker.forkBatch == old(checker.forkBatch)
      ensures JoinsOnlyBy(old(singletonAligned), singletonAligned, aligning, ok) && leader == old(leader)
      ensures (View(), ok) == Repeated(old(View()), n, position, o)
    {
      hide Prepared, Finished, AllReadable, IsMissedReplay;
      var prepared := checker.PrepareForkScan(n, position, prepare);
      if !prepared { return false; }
      var aligned := AlignOuterSingleton(aligning);
      if !aligned { return false; }
      ok := checker.FinishForkScan(position, finish);
    }

    method Enter(n: Notice, position: Option<Position>, ready: bool, prepare: Faults, ghost o: Outcome) returns (ok: bool)
      requires |n.news| > 0 && o.saved == PrepareSaves(View().core, n, prepare) && o.ready == ready
      modifies checker.Frame(), `current, `delivered
      ensures checker.forkBatch == old(checker.forkBatch)
      ensures (View(), ok) == Entered(old(View()), n, position, o)
    {
      hide Prepared, AllReadable, IsMissedReplay;
      var prepared := checker.PrepareForkScan(n, position, prepare);
      if !prepared { return false; }
      BeginNotice(n);
      return ready;
    }

    /** The notice's tail is the latest outer message already. */
    method IsAlreadyProcessed(n: Notice) returns (yes: bool)
      ensures yes == AlreadyProcessed(View().core, n)
    {
      if checker.latest.None? || |n.news| == 0 { return false; }
      return n.news[|n.news| - 1].hash == checker.latest.value.hash;
    }

    /** The continuity check on the latest outer message. */
    method MsgCheck(n: Notice) returns (ok: bool)
      requires |n.news| > 0
      ensures ok == ScanCore.MsgCheck(View().core, n)
    {
      if checker.latest.Some? {
        if |n.drops| > 0 {
          return n.drops[|n.drops| - 1].hash == checker.latest.value.hash;
        }
        return n.news[0].parent == checker.latest.value.hash;
      }
      return true;
    }

    /** One attempt at a notice, start to finish under the lock. The arguments say which store
        operations and topic writes fail in it; the replicas and the marking of objects only report
        whether they succeeded, and the alignment whether the singleton topic joins the destinations. */
    method ProcessNotice(n: Notice, validations: seq<int>, position: Option<Position>, ready: bool, marked: bool, aligning: Aligning,
                         prepare: Faults, store: Faults, finish: Faults, faults: set<Mark>) returns (ok: bool)
      requires |validations| == |n.news|
      modifies Frame()
      ensures JoinsOnlyBy(old(singletonAligned), singletonAligned, aligning, ok) && leader == old(leader)
      ensures (View(), ok) == Processed(old(View()), Only(old(Targets())), n, position,
                                        OutcomeOf(old(View()).core, n, ready, marked, !aligning.AlignFailed?, prepare, store, finish), faults)
    {
      hide Delivered, ScanCore.MsgCheck, AlreadyProcessed, PrepareSaves, Commits, Repeated, Entered, View, Checker.View;
      ghost var c := View().core;
      ghost var o := OutcomeOf(c, n, ready, marked, !aligning.AlignFailed?, prepare, store, finish);
      if |n.news| == 0 { return false; }
      var processed := IsAlreadyProcessed(n);
      if processed {
        ok := Repeat(n, position, aligning, prepare, finish, o);
        return;
      }
      var continuous := MsgCheck(n);
      if !continuous { return false; }
      EnteredFrame(View(), n, position, o);
      var entered := Enter(n, position, ready, prepare, o);
      if !entered { return false; }
      ok := Deliver(n, validations, position, marked, aligning, store, finish, faults, o);
    }
  }

  /** Whether the store goes along with the canonical write, as far as the medium is concerned. */
  predicate Commits(nums: Index, n: Notice, store: Faults) {
    |n.news| > 0 && !store.commitFails && forall h :: h in store.unreadable ==> !Probed(nums, n.news, h)
  }

  /** Whether the store goes along with a recovery checkpoint. */
  predicate PrepareSaves(c: Core, n: Notice, prepare: Faults) {
    !prepare.commitFails && (IsMissedReplay(c, n) ==> AllReadable(n.news, prepare))
  }

  function OutcomeOf(c: Core, n: Notice, ready: bool, marked: bool, aligned: bool, prepare: Faults, store: Faults,
       finish: Faults): Outcome {
    Outcome(PrepareSaves(c, n, prepare), ready, Commits(c.nums, n, store), marked, aligned, !finish.commitFails)
  }

  lemma EnteredFrame(s: Site, n: Notice, position: Option<Position>, o: Outcome)
    requires |n.news| > 0
    ensures Entered(s, n, position, o).0.core.nums == s.core.nums
  {
    hide Prepared;
    PreparedFrame(s.core, n, position, o.saved);
  }

  function Outers(blocks: seq<Block>, isFork: bool): (r: seq<Outer>)
    ensures |r| == |blocks|
  {
    seq(|blocks|, i requires 0 <= i < |blocks| => Outer(blocks[i].num, blocks[i].hash, isFork))
  }

  lemma MessagesAre(n: Notice)
    ensures Messages(n) == Outers(Reversed(n.drops), true) + Outers(n.news, false)
  {
  }

  /** A mark that is missing and whose write does not fail. */
  predicate Takes(delivered: set<Mark>, faults: set<Mark>, mark: Mark) {
    mark !in delivered && mark !in faults
  }

  /** The topics after a message was appended to some of them. */
  function Extended(t: Topics, m: Outer, toVersion: bool, toSingleton: bool): Topics {
    Topics(if toVersion then t.version + [m] else t.version, if toSingleton then t.singleton + [m] else t.singleton)
  }

  /** Writing where due and marking what took it is one step of sending. */
  lemma MarkedIsSent(s: Site, targets: seq<Destination>, m: Outer, faults: set<Mark>, errs: set<Destination>, topics: Topics,
       delivered: set<Mark>, ok: bool)
    requires forall d :: d in errs <==> d in targets && Mark(d, KeyOf(m)) !in s.delivered && Mark(d, KeyOf(m)) in faults
    requires topics == Extended(s.topics, m, Version in targets && Takes(s.delivered, faults, Mark(Version, KeyOf(m))),
                                Singleton in targets && Takes(s.delivered, faults, Mark(Singleton, KeyOf(m))))
    requires forall k :: k in delivered <==> k in s.delivered || (k.key == KeyOf(m) && k.to in targets && k.to !in errs)
    requires ok <==> forall d :: d in targets && Mark(d, KeyOf(m)) !in s.delivered ==> d !in errs
    ensures var r := SentOne(s, Only(targets), m, faults); topics == r.0.topics && delivered == r.0.delivered && ok == r.1
  {
    var r := SentOne(s, Only(targets), m, faults);
    assert topics.At(Version) == r.0.topics.At(Version) && topics.At(Singleton) == r.0.topics.At(Singleton);
    assert delivered == r.0.delivered;
  }

  /** The next message decides how sending goes on. */
  lemma SentAt(s: Site, targets: set<Destination>, msgs: seq<Outer>, i: nat, faults: set<Mark>)
    requires i < |msgs|
    ensures var r := SentOne(s, targets, msgs[i], faults);
            && Sent(s, targets, msgs[i..], faults) == (if r.1 then Sent(r.0, targets, msgs[i + 1..], faults) else r)
            && r.0 == s.(topics := r.0.topics, delivered := r.0.delivered,
                         core := if r.1 && !msgs[i].isFork then s.core.(latest := Some(msgs[i])) else s.core)
  {
    assert msgs[i..][1..] == msgs[i + 1..];
  }

  lemma SentNone(s: Site, targets: set<Destination>, msgs: seq<Outer>, faults: set<Mark>)
    requires |msgs| == 0
    ensures Sent(s, targets, msgs, faults) == (s, true)
  {
  }
}
