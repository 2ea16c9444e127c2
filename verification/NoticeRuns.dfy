/** Whole notices as runs of the state machine, and what a finished one has saved. */
module NoticeRuns {
  import opened Types
  import opened CanonicalIndex
  import opened ScanCore
  import opened ScanMachine
  import opened ScanInvariants
  import opened ScanHeads
  import opened ScanHistory
  import opened ScanTheorems
  import opened Publication
  import opened PublishedWalk

  // ---------------------------------------------------------------- an attempt is a run of steps

  /** The main flow may begin an attempt at this notice. */
  predicate MayBegin(w: World, n: Notice, position: Option<Position>) {
    && ProducerContract(n) && (position.Some? ==> ValidPosition(position.value))
    && (w.main.Idle? || (w.main.Retry? && w.main.notice == n && w.main.position == position))
  }

  lemma OneStep(w: World, step: Step)
    ensures After(w, [step]) == Next(w, step)
  {
    hide Next;
    assert [step][1..] == [];
  }

  /** Sending, message by message: a refusal by any destination ends the attempt. */
  lemma {:induction false} SendingIsSteps(w: World, s: Site, targets: set<Destination>, n: Notice, i: nat, faults: set<Mark>)
    returns (steps: seq<Step>)
    requires w.main.Busy? && w.main.notice == n && w.main.stored && w.main.cursor == i <= |Messages(n)| && w.core == s.core
    ensures forall k :: 0 <= k < |steps| ==> MainStep(steps[k])
    ensures var r := Sent(s, targets, Messages(n)[i..], faults);
            var w' := After(w, steps);
            && w'.core == r.0.core
            && w'.main == if r.1 then w.main.(cursor := |Messages(n)|) else Retry(n, w.main.position)
    decreases |Messages(n)| - i
  {
    hide Next, SentOne;
    var msgs := Messages(n);
    if i == |msgs| {
      steps := [];
    } else {
      assert msgs[i..][0] == msgs[i] && msgs[i..][1..] == msgs[i + 1..];
      var r := SentOne(s, targets, msgs[i], faults);
      var step := Publish(r.1, r.1);
      OneSent(w, s, targets, n, i, faults);
      steps := [step];
      if r.1 {
        var rest := SendingIsSteps(Next(w, step), r.0, targets, n, i + 1, faults);
        steps := [step] + rest;
        assert steps[1..] == rest;
      } else {
        OneStep(w, step);
      }
    }
  }

  lemma OneSent(w: World, s: Site, targets: set<Destination>, n: Notice, i: nat, faults: set<Mark>)
    requires w.main.Busy? && w.main.notice == n && w.main.stored && w.main.cursor == i < |Messages(n)| && w.core == s.core
    ensures var r := SentOne(s, targets, Messages(n)[i], faults);
            var w' := Next(w, Publish(r.1, r.1));
            && w'.core == r.0.core
            && w'.main == if r.1 then w.main.(cursor := i + 1) else Retry(n, w.main.position)
  {
    hide Started, Stored, Finished, Observing, Beginning, Reading, Listing, Getting, Putting, DoneHeight, Finishing, WindowPutting, Reloaded,
         Messages, ProducerContract;
  }

  /** The half of an attempt that follows the replica check. */
  lemma DeliveringIsSteps(w: World, s: Site, targets: set<Destination>, n: Notice, position: Option<Position>, o: Outcome, faults: set<Mark>)
    returns (steps: seq<Step>)
    requires w.main == Busy(n, position, false, 0) && |n.news| > 0 && w.core == s.core
    ensures forall k :: 0 <= k < |steps| ==> MainStep(steps[k])
    ensures var r := Delivered(s, targets, n, position, o, faults);
            var w' := After(w, steps);
            w'.core == r.0.core && w'.main == if r.1 then Idle else Retry(n, position)
  {
    hide Next, Written, Sent, Finished, Messages;
    var w1 := Next(w, StoreBlocks(o.committed));
    StoreStep(w, n, position, o.committed);
    OneStep(w, StoreBlocks(o.committed));
    steps := [StoreBlocks(o.committed)];
    if Written(s.core, n.news, o.committed).1 {
      if !o.marked {
        steps := Closed(w, steps, GiveUp);
        GiveUpStep(w1);
      } else {
        var s1 := s.(core := w1.core);
        assert Messages(n)[0..] == Messages(n);
        var sending := SendingIsSteps(w1, s1, targets, n, 0, faults);
        AfterJoined(w, steps, sending);
        steps := steps + sending;
        var r := Sent(s1, targets, Messages(n), faults);
        var w2 := After(w, steps);
        if r.1 {
          var last := if o.aligned then Step.Complete(o.finished) else GiveUp;
          steps := Closed(w, steps, last);
          if o.aligned { CompleteStep(w2, o.finished); } else { GiveUpStep(w2); }
        }
      }
    }
  }

  lemma Closed(w: World, steps: seq<Step>, last: Step) returns (all: seq<Step>)
    ensures all == steps + [last] && After(w, all) == Next(After(w, steps), last)
  {
    hide Next;
    all := steps + [last];
    AfterJoined(w, steps, [last]);
    OneStep(After(w, steps), last);
  }

  lemma StoreStep(w: World, n: Notice, position: Option<Position>, committed: bool)
    requires w.main == Busy(n, position, false, 0) && |n.news| > 0
    ensures var w' := Next(w, StoreBlocks(committed));
            var r := Written(w.core, n.news, committed);
            w'.core == r.0 && w'.main == if r.1 then Busy(n, position, true, 0) else Retry(n, position)
  {
    hide Written, Started, Published, Finished, Observing, Beginning, Reading, Listing, Getting, Putting, DoneHeight, Finishing, WindowPutting,
         Reloaded, Messages, ProducerContract;
  }

  lemma GiveUpStep(w: World)
    requires w.main.Busy?
    ensures var w' := Next(w, GiveUp); w'.core == w.core && w'.main == Retry(w.main.notice, w.main.position)
  {
    hide Written, Started, Stored, Published, Finished, Observing, Beginning, Reading, Listing, Getting, Putting, DoneHeight, Finishing,
         WindowPutting, Reloaded, Messages, ProducerContract;
  }

  lemma CompleteStep(w: World, finished: bool)
    requires w.main.Busy? && w.main.stored && w.main.cursor == |Messages(w.main.notice)|
    ensures var w' := Next(w, Step.Complete(finished));
            var f := Finished(w.core, w.main.position, finished);
            w'.core == f.0 && w'.main == if f.1 then Idle else Retry(w.main.notice, w.main.position)
  {
    hide Written, Started, Stored, Published, Finished, Observing, Beginning, Reading, Listing, Getting, Putting, DoneHeight, Finishing,
         WindowPutting, Reloaded, Messages, ProducerContract;
  }

  /** The notice goes on after the first step, with the state prepared. */
  predicate GoesOn(c: Core, n: Notice, position: Option<Position>, o: Outcome) {
    |n.news| > 0 && !AlreadyProcessed(c, n) && MsgCheck(c, n) && Prepared(c, n, position, o.saved).1
  }

  lemma StartIsStarted(w: World, n: Notice, position: Option<Position>, o: Outcome)
    requires MayBegin(w, n, position)
    ensures var w', w1 := Next(w, Start(n, position, o.saved, o.aligned, o.finished)), Started(w, n, position, o.saved, o.aligned, o.finished);
            w'.core == w1.core && w'.main == w1.main
  {
    hide Written, Started, Stored, Published, Finished, Observing, Beginning, Reading, Listing, Getting, Putting, DoneHeight, Finishing,
         WindowPutting, Reloaded, Messages, ProducerContract;
  }

  lemma StartStep(w: World, s: Site, targets: set<Destination>, n: Notice, position: Option<Position>, o: Outcome, faults: set<Mark>)
    requires MayBegin(w, n, position) && w.core == s.core
    ensures var w' := Next(w, Start(n, position, o.saved, o.aligned, o.finished));
            var r := Processed(s, targets, n, position, o, faults);
            if GoesOn(s.core, n, position, o) then
              w'.core == Entered(s, n, position, o).0.core && w'.main == Busy(n, position, false, 0) && Entered(s, n, position, o).1 == o.ready
              && r == if o.ready then Delivered(Entered(s, n, position, o).0, targets, n, position, o, faults) else Entered(s, n, position, o)
            else w'.core == r.0.core && w'.main == if r.1 then Idle else Retry(n, position)
  {
    hide Next, MayBegin, Prepared, Delivered, Finished, MsgCheck, AlreadyProcessed;
    StartIsStarted(w, n, position, o);
  }

  /** One attempt at a notice, whatever fails in it, is a run of main-flow steps: it ends with the same state,
      idle if it succeeded and ready to try again if not. */
  lemma AttemptIsSteps(w: World, s: Site, targets: set<Destination>, n: Notice, position: Option<Position>, o: Outcome, faults: set<Mark>)
    returns (steps: seq<Step>)
    requires MayBegin(w, n, position) && w.core == s.core
    ensures forall k :: 0 <= k < |steps| ==> MainStep(steps[k])
    ensures var r := Processed(s, targets, n, position, o, faults);
            var w' := After(w, steps);
            w'.core == r.0.core && w'.main == if r.1 then Idle else Retry(n, position)
  {
    hide Next, Processed, Entered, Delivered, GoesOn, After, Messages, ProducerContract;
    var start := Start(n, position, o.saved, o.aligned, o.finished);
    StartStep(w, s, targets, n, position, o, faults);
    OneStep(w, start);
    steps := [start];
    if GoesOn(s.core, n, position, o) {
      var w1 := Next(w, start);
      NewsOf(s.core, n, position, o);
      if o.ready {
        var rest := DeliveringIsSteps(w1, Entered(s, n, position, o).0, targets, n, position, o, faults);
        AfterJoined(w, steps, rest);
        steps := steps + rest;
      } else {
        steps := Closed(w, steps, GiveUp);
        GiveUpStep(w1);
      }
    }
  }

  lemma NewsOf(c: Core, n: Notice, position: Option<Position>, o: Outcome)
    requires GoesOn(c, n, position, o)
    ensures |n.news| > 0
  {
  }

  // ---------------------------------------------------------------- what a finished notice has saved

  /** The head is saved as published and nothing is pending that ends at it; cursor and memory agree. */
  predicate HeadSaved(c: Core, head: Anchor) {
    && c.state == c.cursor && c.state.Some? && c.aligned && !c.recoveryDrop
    && c.state.value.published == head && c.state.value.pending != Some(head)
  }

  /** The position kept with the cursor: the one supplied, or else the one from before. */
  predicate PositionSaved(before: Option<ForkScanState>, c: Core, position: Option<Position>) {
    c.state.Some? ==>
      && (position.Some? ==> c.state.value.position == position)
      && (position.None? && before.Some? ==> c.state.value.position == before.value.position)
  }

  /** The claimed heights are the ones from before; a first cursor claims none and begins at the saved head. */
  predicate ClaimsKept(before: Option<ForkScanState>, c: Core)
    requires c.state.Some?
  {
    var s := c.state.value;
    if before.Some? then
      s.baseline == before.value.baseline && s.nextHeight == before.value.nextHeight && s.generation == before.value.generation
    else s.baseline == s.published && s.nextHeight == s.published.height + 1
  }

  lemma FinishSaves(c: Core, position: Option<Position>, ok: bool)
    requires Finished(c, position, ok).1
    ensures c.latest.Some?
    ensures var c' := Finished(c, position, ok).0;
            if c.latest.value.isFork then c' == c && c.recoveryDrop
            else
              && HeadSaved(c', HeadOf(c.latest.value)) && PositionSaved(c.state, c', position)
              && ClaimsKept(c.state, c')
              && c'.state.value.pending ==
                   if c.state.None? || c.state.value.pending == Some(HeadOf(c.latest.value)) then None else c.state.value.pending
  {
    hide ValidState;
  }

  /** Without a supplied position nothing is reset, so a kept position stays. */
  lemma PreparedPosition(c: Core, n: Notice, ok: bool)
    requires |n.news| > 0 && c.state.Some?
    ensures var c' := Prepared(c, n, None, ok).0; c'.state.Some? && c'.state.value.position == c.state.value.position
  {
    hide ValidState, ReplayIndexed, NoticeExtends, AlreadyProcessed;
  }

  lemma PreparedState(c: Core, n: Notice, position: Option<Position>, ok: bool)
    requires |n.news| > 0
    ensures var r := Prepared(c, n, position, ok);
            && (c.state.Some? ==> r.0.state.Some?) && (c.anchor.None? ==> r == (c, true))
            && r.0.latest == c.latest && r.0.recoveryDrop == c.recoveryDrop
  {
    hide ValidState, ReplayIndexed, NoticeExtends, AlreadyProcessed, OffsetGap;
  }

  /** After sending all messages of a notice its tail is the latest block, whoever had them before. */
  lemma {:induction false} SentAllIsLatest(s: Site, targets: set<Destination>, msgs: seq<Outer>, faults: set<Mark>)
    requires Sent(s, targets, msgs, faults).1
    ensures var c := Sent(s, targets, msgs, faults).0.core;
            && c == s.core.(latest := c.latest)
            && (|msgs| > 0 && !msgs[|msgs| - 1].isFork ==> c.latest == Some(msgs[|msgs| - 1]))
    decreases |msgs|
  {
    if |msgs| > 0 {
      hide SentOne;
      var r := SentOne(s, targets, msgs[0], faults);
      OneMoreLatest(s, targets, msgs[0], faults);
      SentAllIsLatest(r.0, targets, msgs[1..], faults);
      assert |msgs| > 1 ==> msgs[1..][|msgs| - 2] == msgs[|msgs| - 1];
    }
  }

  lemma OneMoreLatest(s: Site, targets: set<Destination>, m: Outer, faults: set<Mark>)
    ensures var r := SentOne(s, targets, m, faults);
            r.0.core == if r.1 && !m.isFork then s.core.(latest := Some(m)) else s.core
  {
  }

  lemma LastIsTail(n: Notice)
    requires |n.news| > 0
    ensures |Messages(n)| > 0 && Messages(n)[|Messages(n)| - 1] == Outer(Tail(n.news).num, Tail(n.news).hash, false)
  {
  }

  /** The write leaves the new tail pending, if there is a cursor. */
  lemma WriteIsPending(c: Core, blocks: seq<Block>, ok: bool)
    requires |blocks| > 0 && Written(c, blocks, ok).1
    ensures var c' := Written(c, blocks, ok).0;
            && (c.state.None? <==> c'.state.None?) && c'.latest == c.latest
            && (c.state.Some? ==> c'.state.value.pending == Some(AnchorOf(Tail(blocks))) && c'.state.value.position == c.state.value.position)
  {
    hide Rewritten, ValidState, Rewinds, Lowered;
  }

  /** The notice's tail is the latest block and the saved head, nothing is pending any more, the checker is
      aligned, and the position is the notice's. */
  predicate PublicationSaved(before: Option<ForkScanState>, c: Core, n: Notice, position: Option<Position>) {
    && |n.news| > 0 && c.latest == Some(Outer(Tail(n.news).num, Tail(n.news).hash, false))
    && HeadSaved(c, AnchorOf(Tail(n.news))) && c.state.value.pending.None? && PositionSaved(before, c, position)
  }

  lemma DeliverySaves(s: Site, targets: set<Destination>, n: Notice, position: Option<Position>, o: Outcome, faults: set<Mark>)
    requires |n.news| > 0 && Delivered(s, targets, n, position, o, faults).1
    ensures PublicationSaved(s.core.state, Delivered(s, targets, n, position, o, faults).0.core, n, position)
  {
    hide Written, Sent, Finished, Messages;
    WriteIsPending(s.core, n.news, o.committed);
    LastIsTail(n);
    var s1 := s.(core := Written(s.core, n.news, o.committed).0);
    SentAllIsLatest(s1, targets, Messages(n), faults);
    var c := Sent(s1, targets, Messages(n), faults).0.core;
    FinishedFrame(c, position, o.finished);
    FinishSaves(c, position, o.finished);
  }

  /** A notice that has just been published is saved as published. */
  lemma PublishedIsSaved(s: Site, targets: set<Destination>, n: Notice, position: Option<Position>, o: Outcome, faults: set<Mark>)
    requires !AlreadyProcessed(s.core, n) && Processed(s, targets, n, position, o, faults).1
    ensures PublicationSaved(s.core.state, Processed(s, targets, n, position, o, faults).0.core, n, position)
  {
    hide Prepared, Delivered, MsgCheck, AlreadyProcessed;
    PreparedState(s.core, n, position, o.saved);
    if s.core.state.Some? && position.None? { PreparedPosition(s.core, n, o.saved); }
    DeliverySaves(Entered(s, n, position, o).0, targets, n, position, o, faults);
  }

  /** A notice already out sends nothing and indexes nothing. If its tail is a new block, it saves that head
      and the position as the publication would have; an update to another tail stays pending. If its tail is
      a drop it succeeds only in recovery from one, and changes nothing. */
  lemma RepeatIsSaved(s: Site, targets: set<Destination>, n: Notice, position: Option<Position>, o: Outcome, faults: set<Mark>)
    requires AlreadyProcessed(s.core, n)
    ensures var r := Processed(s, targets, n, position, o, faults);
            && r.0 == s.(core := r.0.core) && r.0.core.latest == s.core.latest && r.0.core.nums == s.core.nums
            && (r.1 && !s.core.latest.value.isFork ==>
                  HeadSaved(r.0.core, HeadOf(s.core.latest.value)) && PositionSaved(s.core.state, r.0.core, position))
            && (r.1 && s.core.latest.value.isFork ==> s.core.recoveryDrop)
            && (s.core.latest.value.isFork && s.core.anchor.None? ==> r == (s, s.core.recoveryDrop && o.aligned))
  {
    hide Prepared, Finished;
    PreparedFrame(s.core, n, position, o.saved);
    PreparedState(s.core, n, position, o.saved);
    var p := Prepared(s.core, n, position, o.saved);
    if s.core.state.Some? && position.None? { PreparedPosition(s.core, n, o.saved); }
    FinishedFrame(p.0, position, o.finished);
    if p.1 && o.aligned && Finished(p.0, position, o.finished).1 { FinishSaves(p.0, position, o.finished); }
    if s.core.latest.value.isFork { DropFinish(p.0, position, o.finished); }
  }

  lemma DropFinish(c: Core, position: Option<Position>, ok: bool)
    requires c.latest.Some? && c.latest.value.isFork
    ensures Finished(c, position, ok) == (c, c.recoveryDrop)
  {
  }

  /** In every run, a step that ends a notice has saved its head and position; one that ends a publication
      also ends the pending update, and leaves the claimed heights as they are. */
  lemma EndingSaves(w: World, step: Step)
    requires Reachable(w) && Enabled(w, step) && (step.Start? || step.Complete?) && Next(w, step).main.Idle?
    ensures var c := Next(w, step).core;
            && c.latest.Some?
            && (step.Complete? ==> PublicationSaved(w.core.state, c, w.main.notice, w.main.position) && ClaimsKept(w.core.state, c))
            && (step.Start? && !c.latest.value.isFork ==> HeadSaved(c, HeadOf(c.latest.value)) && PositionSaved(w.core.state, c, step.position))
  {
    hide Inv;
    ReachableInv(w);
    if step.Complete? { CompleteSaves(w, step.finished); } else { StartSaves(w, step); }
  }

  lemma CompleteSaves(w: World, finished: bool)
    requires Inv(w) && Enabled(w, Step.Complete(finished)) && Next(w, Step.Complete(finished)).main.Idle?
    ensures var c := Next(w, Step.Complete(finished)).core;
            PublicationSaved(w.core.state, c, w.main.notice, w.main.position) && ClaimsKept(w.core.state, c)
  {
    hide ScheduleInv, BatchInv, WorkerInv, PutsInv, CoverInv, Messages, Live, ProducerContract, LiveBelowHeads, UnalignedHeads, FirstNotice,
         LogFollows, CursorBelowHeads, NonZeroHeads, AlignedHeads, ValidState, ValidPosition, Finished;
    hide Written, Started, Stored, Published, Observing, Beginning, Reading, Listing, Getting, Putting, DoneHeight, Finishing, WindowPutting,
         Reloaded;
    LastIsTail(w.main.notice);
    FinishedFrame(w.core, w.main.position, finished);
    FinishSaves(w.core, w.main.position, finished);
  }

  lemma StartSaves(w: World, step: Step)
    requires Enabled(w, step) && step.Start? && Next(w, step).main.Idle?
    ensures var c := Next(w, step).core;
            c.latest.Some? && (!c.latest.value.isFork ==> HeadSaved(c, HeadOf(c.latest.value)) && PositionSaved(w.core.state, c, step.position))
  {
    hide Written, Stored, Published, Observing, Beginning, Reading, Listing, Getting, Putting, DoneHeight, Finishing, WindowPutting, Reloaded,
         Messages, ProducerContract, Prepared, Finished, MsgCheck, AlreadyProcessed;
    var n, position := step.notice, step.position;
    PreparedState(w.core, n, position, step.saved);
    if w.core.state.Some? && position.None? { PreparedPosition(w.core, n, step.saved); }
    var p := Prepared(w.core, n, position, step.saved);
    FinishedFrame(p.0, position, step.finished);
    FinishSaves(p.0, position, step.finished);
  }

  // ---------------------------------------------------------------- nothing but a failure stops a notice

  const ALL_WELL: Outcome := Outcome(true, true, true, true, true, true)

  /** No counter is at its end. */
  predicate RoomLeft(c: Core, n: Notice)
    requires |n.news| > 0
  {
    && (c.anchor.Some? ==> c.anchor.value.height < MAX_U64) && Tail(n.news).num < MAX_U64
    && (c.state.Some? ==> c.state.value.generation < MAX_U64 - 1)
  }

  lemma PreparedGeneration(c: Core, n: Notice, position: Option<Position>, ok: bool)
    requires |n.news| > 0
    ensures var c' := Prepared(c, n, position, ok).0;
            c'.state.Some? ==> c'.state.value.generation <= (if c.state.Some? then c.state.value.generation else 0) + 1
  {
    hide ValidState, ReplayIndexed, NoticeExtends, AlreadyProcessed, OffsetGap;
  }

  lemma {:induction false} SentWithoutFaults(s: Site, targets: set<Destination>, msgs: seq<Outer>)
    ensures Sent(s, targets, msgs, {}).1
    decreases |msgs|
  {
    if |msgs| > 0 { SentWithoutFaults(SentOne(s, targets, msgs[0], {}).0, targets, msgs[1..]); }
  }

  lemma PrepareGoesOn(w: World, n: Notice, position: Option<Position>)
    requires Inv(w) && |n.news| > 0 && !AlreadyProcessed(w.core, n) && MsgCheck(w.core, n) && RoomLeft(w.core, n)
    ensures GoesOn(w.core, n, position, ALL_WELL)
  {
    hide Inv, AlreadyProcessed, MsgCheck, Prepared, NoticeExtends, ReplayIndexed, OffsetGap;
    PrepareAccepted(w, n, position);
  }

  lemma BeginsToDeliver(w: World, n: Notice, position: Option<Position>)
    requires Inv(w) && MayBegin(w, n, position) && |n.news| > 0 && GoesOn(w.core, n, position, ALL_WELL) && RoomLeft(w.core, n)
    ensures var w1 := Next(w, Start(n, position, true, true, true));
            && Inv(w1) && w1.main == Busy(n, position, false, 0) && w1.core == Prepared(w.core, n, position, true).0
            && Written(w1.core, n.news, true).1
  {
    hide Inv, Next, GoesOn, Processed, Prepared, Written, MsgCheck, AlreadyProcessed, ProducerContract, NoticeBegun, Delivered;
    var s := Site(w.core, NoticeId(ZeroHash(), 0, 0), {}, Topics([], []));
    StartStep(w, s, {}, n, position, ALL_WELL, {});
    var w1 := Next(w, Start(n, position, true, true, true));
    StepKeeps(w, Start(n, position, true, true, true));
    BegunCore(s, n, position, ALL_WELL);
    PreparedGeneration(w.core, n, position, true);
    StoreAccepted(w1);
  }

  lemma BegunCore(s: Site, n: Notice, position: Option<Position>, o: Outcome)
    requires |n.news| > 0
    ensures Entered(s, n, position, o).0.core == Prepared(s.core, n, position, o.saved).0
  {
    hide Prepared;
  }

  /** From a state of the main flow with the notice's blocks stored, sending and saving go through. */
  lemma StoredGoesThrough(w: World, s: Site, targets: set<Destination>, n: Notice, position: Option<Position>)
    requires Inv(w) && w.main == Busy(n, position, true, 0) && w.core == s.core && |n.news| > 0 && Tail(n.news).num < MAX_U64
    ensures var r := Sent(s, targets, Messages(n), {}); r.1 && Finished(r.0.core, position, true).1
  {
    hide Inv, Next, Sent, Finished, Messages, ProducerContract;
    SentWithoutFaults(s, targets, Messages(n));
    assert Messages(n)[0..] == Messages(n);
    var steps := SendingIsSteps(w, s, targets, n, 0, {});
    AfterKeeps(w, steps);
    var w2 := After(w, steps);
    LastIsTail(n);
    SentAllIsLatest(s, targets, Messages(n), {});
    CompleteAccepted(w2);
  }

  lemma StoredWorld(w: World, n: Notice, position: Option<Position>)
    requires Inv(w) && w.main == Busy(n, position, false, 0) && |n.news| > 0 && Written(w.core, n.news, true).1
    ensures var w1 := Next(w, StoreBlocks(true));
            Inv(w1) && w1.main == Busy(n, position, true, 0) && w1.core == Written(w.core, n.news, true).0
  {
    hide Inv, Next, Written;
    StoreStep(w, n, position, true);
    StepKeeps(w, StoreBlocks(true));
  }

  /** Nothing but a failure stops a notice: in every reachable state, one that is not out yet and passes the
      continuity check succeeds if no operation fails, short of the end of a counter. */
  lemma HealthyNoticeSucceeds(w: World, s: Site, targets: set<Destination>, n: Notice, position: Option<Position>)
    requires Reachable(w) && w.core == s.core && MayBegin(w, n, position) && |n.news| > 0
    requires !AlreadyProcessed(s.core, n) && MsgCheck(s.core, n) && RoomLeft(s.core, n)
    ensures Processed(s, targets, n, position, ALL_WELL, {}).1
  {
    hide Inv, Next, Prepared, Written, Sent, Finished, Messages, MsgCheck, AlreadyProcessed, ProducerContract, Reachable, RoomLeft;
    ReachableInv(w);
    PrepareGoesOn(w, n, position);
    BeginsToDeliver(w, n, position);
    RoomAtTail(w.core, n);
    var w1 := Next(w, Start(n, position, true, true, true));
    StoredWorld(w1, n, position);
    var w2 := Next(w1, StoreBlocks(true));
    var e := Entered(s, n, position, ALL_WELL).0;
    StoredGoesThrough(w2, e.(core := w2.core), targets, n, position);
  }

  lemma RoomAtTail(c: Core, n: Notice)
    requires |n.news| > 0 && RoomLeft(c, n)
    ensures Tail(n.news).num < MAX_U64
  {
  }

  /** And a success means that every destination got all of it, after what it had, if none of it was marked
      as delivered before. */
  lemma PublishedIsSent(s: Site, targets: set<Destination>, n: Notice, position: Option<Position>, o: Outcome, faults: set<Mark>, d: Destination)
    requires ProducerContract(n) && !AlreadyProcessed(s.core, n) && Processed(s, targets, n, position, o, faults).1
    requires d in targets && |n.news| > 0 && (s.current != IdOf(n) || s.delivered == {})
    ensures Processed(s, targets, n, position, o, faults).0.topics.At(d) == s.topics.At(d) + Messages(n)
  {
    hide Prepared, Written, Sent, Finished, Messages, MsgCheck, AlreadyProcessed, ProducerContract;
    var c := Written(Prepared(s.core, n, position, o.saved).0, n.news, o.committed).0;
    var s1 := s.(core := c);
    var begun := NoticeBegun(s1, n);
    var results := [(begun, false), Sent(NoticeBegun(begun, n), targets, Messages(n), faults)];
    assert results[0 + 1] == results[1];
    ExactlyOnce(s1, targets, n, [faults], results, 1);
  }
}
