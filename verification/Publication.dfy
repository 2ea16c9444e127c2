/** Sending the outer messages of a notice to its destinations: what is remembered between attempts,
    what one attempt does, and what each destination receives over all attempts. */
module Publication {
  import opened Types
  import opened CanonicalIndex
  import opened ScanCore
  import opened ScanMachine

  datatype Destination = Version | Singleton

  /** A hash may travel both as a drop and as a new block, so the two are kept apart. */
  datatype OuterKey = OuterKey(hash: Hash, isFork: bool)

  datatype Mark = Mark(to: Destination, key: OuterKey)

  datatype NoticeId = NoticeId(tail: Hash, newCount: nat, dropCount: nat)

  datatype Topics = Topics(version: seq<Outer>, singleton: seq<Outer>) {
    function At(d: Destination): seq<Outer> {
      if d.Version? then version else singleton
    }
  }

  /** The checker's state together with its delivery bookkeeping and the topics. */
  datatype Site = Site(core: Core, current: NoticeId, delivered: set<Mark>, topics: Topics)

  function KeyOf(m: Outer): OuterKey {
    OuterKey(m.hash, m.isFork)
  }

  function IdOf(n: Notice): NoticeId
    requires |n.news| > 0
  {
    NoticeId(Tail(n.news).hash, |n.news|, |n.drops|)
  }

  /** Another notice than the current one clears what was delivered. */
  function NoticeBegun(s: Site, n: Notice): Site
    requires |n.news| > 0
  {
    if IdOf(n) == s.current then s else s.(current := IdOf(n), delivered := {})
  }

  predicate Due(s: Site, d: Destination, m: Outer) {
    Mark(d, KeyOf(m)) !in s.delivered
  }

  /** One message goes to every destination that does not have it yet; `faults` are the writes that
      fail. A new block that reached all of them is the latest one. */
  function SentOne(s: Site, targets: set<Destination>, m: Outer, faults: set<Mark>): (Site, bool) {
    var done := set d | d in targets && Due(s, d, m) && Mark(d, KeyOf(m)) !in faults;
    var ok := forall d :: d in targets && Due(s, d, m) ==> d in done;
    (s.(topics := Topics(if Version in done then s.topics.version + [m] else s.topics.version,
                         if Singleton in done then s.topics.singleton + [m] else s.topics.singleton),
        delivered := s.delivered + (set d | d in done :: Mark(d, KeyOf(m))),
        core := if ok && !m.isFork then s.core.(latest := Some(m)) else s.core),
     ok)
  }

  /** Messages in order, up to the first that some destination refuses. */
  function Sent(s: Site, targets: set<Destination>, msgs: seq<Outer>, faults: set<Mark>): (Site, bool)
    decreases |msgs|
  {
    if |msgs| == 0 then (s, true)
    else
      var r := SentOne(s, targets, msgs[0], faults);
      if r.1 then Sent(r.0, targets, msgs[1..], faults) else r
  }

  lemma SentJoined(s: Site, targets: set<Destination>, a: seq<Outer>, b: seq<Outer>, faults: set<Mark>)
    ensures var r := Sent(s, targets, a, faults);
            Sent(s, targets, a + b, faults) == if r.1 then Sent(r.0, targets, b, faults) else r
    decreases |a|
  {
    if |a| == 0 {
      assert a + b == b;
    } else {
      assert (a + b)[1..] == a[1..] + b;
      SentJoined(SentOne(s, targets, a[0], faults).0, targets, a[1..], b, faults);
    }
  }

  // ---------------------------------------------------------------- each destination holds a prefix

  predicate DistinctKeys(msgs: seq<Outer>) {
    forall i, j :: 0 <= i < j < |msgs| ==> KeyOf(msgs[i]) != KeyOf(msgs[j])
  }

  /** How many messages a destination received on top of `base`. */
  function Count(s: Site, base: Topics, d: Destination): int {
    |s.topics.At(d)| - |base.At(d)|
  }

  /** A destination received the first `Count` messages after `base`, once each, and exactly those
      are remembered as delivered to it. */
  ghost predicate Placed(s: Site, base: Topics, msgs: seq<Outer>, d: Destination) {
    var k := Count(s, base, d);
    && 0 <= k <= |msgs| && s.topics.At(d) == base.At(d) + msgs[..k]
    && forall j :: 0 <= j < |msgs| ==> (Mark(d, KeyOf(msgs[j])) in s.delivered <==> j < k)
  }

  /** All destinations hold prefixes, and no two differ by more than one message. */
  ghost predicate Spread(s: Site, base: Topics, targets: set<Destination>, msgs: seq<Outer>) {
    && (forall d :: d in targets ==> Placed(s, base, msgs, d))
    && (forall d, e :: d in targets && e in targets ==> Count(s, base, d) <= Count(s, base, e) + 1)
    && (forall d :: d !in targets ==> s.topics.At(d) == base.At(d))
  }

  ghost predicate AtLeast(s: Site, base: Topics, targets: set<Destination>, i: int) {
    forall d :: d in targets ==> Count(s, base, d) >= i
  }

  /** One message keeps the prefixes; if all destinations accept it, none is behind it any more. */
  lemma SentOneKeeps(s: Site, base: Topics, targets: set<Destination>, msgs: seq<Outer>, i: nat, faults: set<Mark>)
    requires DistinctKeys(msgs) && i < |msgs| && Spread(s, base, targets, msgs) && AtLeast(s, base, targets, i)
    ensures var r := SentOne(s, targets, msgs[i], faults);
            && Spread(r.0, base, targets, msgs) && AtLeast(r.0, base, targets, if r.1 then i + 1 else i)
  {
    var r := SentOne(s, targets, msgs[i], faults);
    forall d | d in targets
      ensures Placed(r.0, base, msgs, d)
      ensures Count(r.0, base, d) == if Due(s, d, msgs[i]) && Mark(d, KeyOf(msgs[i])) !in faults then i + 1 else Count(s, base, d)
      ensures Due(s, d, msgs[i]) <==> Count(s, base, d) == i
    {
      SentOneAt(s, base, targets, msgs, i, faults, d);
    }
  }

  lemma SentOneAt(s: Site, base: Topics, targets: set<Destination>, msgs: seq<Outer>, i: nat, faults: set<Mark>, d: Destination)
    requires DistinctKeys(msgs) && i < |msgs| && Placed(s, base, msgs, d) && Count(s, base, d) >= i && d in targets
    ensures var r := SentOne(s, targets, msgs[i], faults);
            && Placed(r.0, base, msgs, d)
            && Count(r.0, base, d) == (if Due(s, d, msgs[i]) && Mark(d, KeyOf(msgs[i])) !in faults then i + 1 else Count(s, base, d))
            && (Due(s, d, msgs[i]) <==> Count(s, base, d) == i)
  {
    var r := SentOne(s, targets, msgs[i], faults);
    if Due(s, d, msgs[i]) && Mark(d, KeyOf(msgs[i])) !in faults {
      assert r.0.topics.At(d) == s.topics.At(d) + [msgs[i]];
      assert msgs[..i + 1] == msgs[..i] + [msgs[i]];
    } else {
      assert r.0.topics.At(d) == s.topics.At(d);
    }
  }

  /** An attempt keeps the prefixes wherever it stops; it succeeds only with every destination
      complete, and `latest` only ever becomes a new block all destinations already have. */
  lemma {:induction false} SentKeeps(s: Site, base: Topics, targets: set<Destination>, msgs: seq<Outer>, i: nat, faults: set<Mark>)
    requires DistinctKeys(msgs) && i <= |msgs| && Spread(s, base, targets, msgs) && AtLeast(s, base, targets, i)
    ensures var r := Sent(s, targets, msgs[i..], faults);
            && Spread(r.0, base, targets, msgs) && (r.1 ==> AtLeast(r.0, base, targets, |msgs|))
            && r.0 == s.(topics := r.0.topics, delivered := r.0.delivered, core := s.core.(latest := r.0.core.latest))
            && LatestPassed(s, r.0, base, targets, msgs, i)
            && (r.1 && i < |msgs| && !msgs[|msgs| - 1].isFork ==> r.0.core.latest == Some(msgs[|msgs| - 1]))
    decreases |msgs| - i
  {
    hide Spread, AtLeast, DistinctKeys;
    if i < |msgs| {
      assert msgs[i..][0] == msgs[i] && msgs[i..][1..] == msgs[i + 1..];
      SentOneKeeps(s, base, targets, msgs, i, faults);
      var r := SentOne(s, targets, msgs[i], faults);
      if r.1 {
        SentKeeps(r.0, base, targets, msgs, i + 1, faults);
        var t := Sent(r.0, targets, msgs[i + 1..], faults);
        StillAtLeast(r.0, t.0, base, targets, msgs, i + 1, faults);
      }
    } else {
      assert AtLeast(s, base, targets, |msgs|);
    }
  }

  ghost predicate LatestPassed(s: Site, t: Site, base: Topics, targets: set<Destination>, msgs: seq<Outer>, i: nat) {
    || t.core.latest == s.core.latest
    || exists j :: i <= j < |msgs| && t.core.latest == Some(msgs[j]) && !msgs[j].isFork && AtLeast(t, base, targets, j + 1)
  }

  /** Nothing a destination received is ever taken back. */
  lemma StillAtLeast(s: Site, t: Site, base: Topics, targets: set<Destination>, msgs: seq<Outer>, i: nat, faults: set<Mark>)
    requires i <= |msgs| && t == Sent(s, targets, msgs[i..], faults).0 && AtLeast(s, base, targets, i)
    ensures AtLeast(t, base, targets, i)
  {
    SentGrows(s, targets, msgs[i..], faults);
  }

  lemma SentGrows(s: Site, targets: set<Destination>, msgs: seq<Outer>, faults: set<Mark>)
    ensures forall d :: s.topics.At(d) <= Sent(s, targets, msgs, faults).0.topics.At(d)
    decreases |msgs|
  {
    if |msgs| > 0 {
      var r := SentOne(s, targets, msgs[0], faults);
      if r.1 { SentGrows(r.0, targets, msgs[1..], faults); }
    }
  }

  lemma MessagesDistinct(n: Notice)
    requires ProducerContract(n)
    ensures DistinctKeys(Messages(n))
  {
  }

  /** A notice tried again and again, with any writes failing in each attempt: the results, the first
      being the state in which it begins. */
  ghost predicate Retries(s: Site, targets: set<Destination>, n: Notice, attempts: seq<set<Mark>>, results: seq<(Site, bool)>)
    requires |n.news| > 0
  {
    && |results| == |attempts| + 1 && results[0] == (NoticeBegun(s, n), false)
    && forall i :: 0 <= i < |attempts| ==>
         results[i + 1] == Sent(NoticeBegun(results[i].0, n), targets, Messages(n), attempts[i])
  }

  /** Exactly once: over any attempts each destination's topic grows by a prefix of the notice's
      messages, in order and without repetition, no two destinations are more than one message apart,
      and a successful attempt leaves all of them complete. */
  lemma {:induction false} ExactlyOnce(s: Site, targets: set<Destination>, n: Notice, attempts: seq<set<Mark>>,
       results: seq<(Site, bool)>, i: nat)
    requires ProducerContract(n) && |n.news| > 0 && (s.current != IdOf(n) || s.delivered == {})
    requires Retries(s, targets, n, attempts, results) && i < |results|
    ensures var r := results[i];
            && r.0.current == IdOf(n) && DistinctKeys(Messages(n)) && Spread(r.0, s.topics, targets, Messages(n))
            && (r.1 ==> forall d :: d in targets ==> r.0.topics.At(d) == s.topics.At(d) + Messages(n))
  {
    hide Sent, SentOne, Messages, ProducerContract;
    MessagesDistinct(n);
    if i > 0 {
      ExactlyOnce(s, targets, n, attempts, results, i - 1);
      var t := results[i - 1].0;
      assert results[i - 1 + 1] == Sent(NoticeBegun(t, n), targets, Messages(n), attempts[i - 1]);
      assert Messages(n)[0..] == Messages(n);
      SentKeeps(t, s.topics, targets, Messages(n), 0, attempts[i - 1]);
    }
  }
}
