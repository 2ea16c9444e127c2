/** The whole protocol as a state machine: the main flow, which holds the processing lock for a
    whole notice, the scan worker, whose reads run outside it, other writers of objects, and
    crashes. The history fields record what the theorems speak about and steer nothing. */
module ScanMachine {
  import opened Types
  import opened CanonicalIndex
  import opened ScanCore

  type Objects = map<(u64, Hash), bool>

  /** What is visible after one step: index, fork marks of stored objects, clock, published head. */
  datatype Snap = Snap(nums: Index, objects: Objects, clock: int, published: Option<Anchor>)

  /** The main flow is idle, must retry the notice it failed on, or holds the lock. `cursor` counts
      the outer messages of the notice passed so far. */
  datatype Main =
    | Idle
    | Retry(notice: Notice, position: Option<Position>)
    | Busy(notice: Notice, position: Option<Position>, stored: bool, cursor: nat)

  /** The scan of one height: the objects listed and the step of the listing, and for each object the
      step at which its mark was seen or put right. */
  datatype HeightScan = HeightScan(hash: Hash, listedAt: nat, listed: set<Hash>, settled: map<Hash, nat>)

  datatype Progress =
    | AtRead
    | AtList(hash: Hash)
    | Working(hash: Hash, listedAt: nat, listed: set<Hash>, todo: set<Hash>, plan: set<Hash>, settled: map<Hash, nat>)

  datatype Worker = Sleeping | Ready(upper: u64, generation: u64) | Scanning(done: seq<HeightScan>, now: Progress)

  /** How a height was covered: `ripe` is the step of the observation that allowed the scan, `begun`
      the step at which the batch began. */
  datatype Cover = Cover(scan: HeightScan, ripe: nat, begun: nat)

  /** An object write issued by a scanner, and the step that made it. */
  datatype ScanPut = ScanPut(step: nat, height: u64, key: Hash, isFork: bool)

  datatype World = World(
    core: Core,
    main: Main,
    worker: Worker,
    outerTail: Option<Outer>,
    sentFor: Option<Notice>,
    sent: nat,
    objects: Objects,
    clock: int,
    interval: nat,
    log: seq<Snap>,
    obsStep: nat,
    matureStep: nat,
    ripe: nat,
    begun: nat,
    cover: map<u64, Cover>,
    puts: seq<ScanPut>)

  datatype Step =
    | Start(notice: Notice, position: Option<Position>, saved: bool, aligned: bool, finished: bool)
    | StoreBlocks(committed: bool)
    | Publish(written: bool, elsewhere: bool)
    | GiveUp
    | Complete(finished: bool)
    | OtherPut(height: u64, key: Hash, isFork: bool)
    | Tick(elapsed: nat)
    | Observe
    | BeginBatch
    | ReadHeight
    | ListHeight
    | GetObject(key: Hash)
    | PutObject(key: Hash, written: bool)
    | HeightDone
    | FinishBatch(live: bool, committed: bool)
    | WindowPut(height: u64, hash: Hash, key: Hash)
    | Crash

  /** The outer messages of a notice in the order the main flow sends them: drops from the head
      down, then new blocks upwards. */
  function Messages(n: Notice): seq<Outer> {
    seq(|n.drops| + |n.news|, i requires 0 <= i < |n.drops| + |n.news| =>
      if i < |n.drops| then var b := n.drops[|n.drops| - 1 - i]; Outer(b.num, b.hash, true)
      else var b := n.news[i - |n.drops|]; Outer(b.num, b.hash, false))
  }

  function SnapOf(w: World): Snap {
    Snap(w.core.nums, w.objects, w.clock, if w.core.state.Some? then Some(w.core.state.value.published) else None)
  }

  /** The state with itself added to the log. */
  function Logging(w: World): World {
    w.(log := w.log + [SnapOf(w)])
  }

  predicate LockFree(w: World) {
    !w.main.Busy?
  }

  /** The height the worker is scanning. */
  function ScanHeight(w: World): int
    requires w.worker.Scanning? && w.core.batch.Some?
  {
    w.core.batch.value.start + |w.worker.done|
  }

  // ---------------------------------------------------------------- main flow

  /** The main flow takes the lock for a notice. A notice already published only finishes recovery;
      any other must pass the continuity check. After a failure the same notice is tried again. */
  function Started(w: World, n: Notice, position: Option<Position>, saved: bool, aligned: bool, finished: bool): World {
    var failed := Retry(n, position);
    if |n.news| == 0 then w.(main := failed)
    else if AlreadyProcessed(w.core, n) then
      var p := Prepared(w.core, n, position, saved);
      if !p.1 || !aligned then w.(core := p.0, main := failed)
      else
        var f := Finished(p.0, position, finished);
        w.(core := f.0, main := if f.1 then Idle else failed)
    else if !MsgCheck(w.core, n) then w.(main := failed)
    else
      var p := Prepared(w.core, n, position, saved);
      if !p.1 then w.(core := p.0, main := failed)
      else w.(core := p.0, main := Busy(n, position, false, 0), sentFor := Some(n), sent := if w.sentFor == Some(n) then w.sent else 0)
  }

  function Stored(w: World, committed: bool): World
    requires w.main.Busy? && |w.main.notice.news| > 0
  {
    var r := Written(w.core, w.main.notice.news, committed);
    w.(core := r.0, main := if r.1 then w.main.(stored := true) else Retry(w.main.notice, w.main.position))
  }

  /** One outer message, unless an earlier attempt already delivered it. `elsewhere` says whether
      every other destination accepted it too; if not the attempt ends. */
  function Published(w: World, written: bool, elsewhere: bool): World
    requires w.main.Busy? && w.main.cursor < |Messages(w.main.notice)|
  {
    var m := Messages(w.main.notice)[w.main.cursor];
    var unsent := w.main.cursor >= w.sent;
    var w1 := if unsent && written then w.(outerTail := Some(m), sent := w.main.cursor + 1) else w;
    if (unsent && !written) || !elsewhere then w1.(main := Retry(w.main.notice, w.main.position))
    else
      w1.(main := w.main.(cursor := w.main.cursor + 1),
          core := if m.isFork then w.core else w.core.(latest := Some(m)))
  }

  // ---------------------------------------------------------------- scan worker

  predicate TakesObservation(s: Schedule, now: int, interval: nat, generation: u64) {
    s.generation != generation || s.observedAt.None? || now - s.observedAt.value >= interval
  }

  predicate Matures(s: Schedule, now: int, interval: nat, generation: u64) {
    s.generation == generation && s.observedAt.Some? && now - s.observedAt.value >= interval
  }

  function Observing(w: World): World {
    var r := Observed(w.core, w.clock, w.interval);
    var w1 := w.(core := r.0, worker := if r.1.Some? then Ready(r.1.value.0, r.1.value.1) else Sleeping);
    if !CanScan(w.core) then w1
    else
      var generation := w.core.state.value.generation;
      w1.(matureStep := if Matures(w.core.schedule, w.clock, w.interval, generation) then w.obsStep else w.matureStep,
          obsStep := if TakesObservation(w.core.schedule, w.clock, w.interval, generation) then |w.log| else w.obsStep)
  }

  function Beginning(w: World): World
    requires w.worker.Ready?
  {
    var r := Begun(w.core, w.worker.upper, w.worker.generation);
    if r.1.Some? then w.(worker := Sleeping)
    else w.(core := r.0, worker := Scanning([], AtRead), ripe := w.matureStep, begun := |w.log|)
  }

  /** The unlocked read of the canonical hash. A missing one ends the loop, which is `FinishBatch`. */
  function Reading(w: World): World
    requires w.worker.Scanning? && w.core.batch.Some?
  {
    var h := ScanHeight(w);
    if h <= w.core.batch.value.upper && h < MAX_U64 && h in w.core.nums then
      w.(worker := w.worker.(now := AtList(w.core.nums[h])))
    else w
  }

  /** The unlocked LIST; a canonical object that is not listed ends the loop. */
  function Listing(w: World): World
    requires w.worker.Scanning? && w.core.batch.Some? && w.worker.now.AtList?
  {
    var hash := w.worker.now.hash;
    var listed := set k | k in w.objects.Keys && k.0 == ScanHeight(w) :: k.1;
    if hash in listed then w.(worker := w.worker.(now := Working(hash, |w.log|, listed, listed, {}, map[]))) else w
  }

  /** The unlocked GET of one listed object: a right mark settles it, a wrong one is planned. */
  function Getting(w: World, key: Hash): World
    requires w.worker.Scanning? && w.core.batch.Some? && w.worker.now.Working?
  {
    var h, p := ScanHeight(w), w.worker.now;
    if key !in p.todo || (h, key) !in w.objects then w
    else
      var right := w.objects[(h, key)] == (key != p.hash);
      var p' := if right then p.(todo := p.todo - {key}, settled := p.settled[key := |w.log|])
                else p.(todo := p.todo - {key}, plan := p.plan + {key});
      w.(worker := w.worker.(now := p'))
  }

  /** A planned write, verified under the lock just before it is issued. */
  function Putting(w: World, key: Hash, written: bool): World
    requires w.worker.Scanning? && w.core.batch.Some? && w.worker.now.Working?
  {
    var h, p := ScanHeight(w), w.worker.now;
    if p.todo != {} || key !in p.plan || !(0 <= h <= MAX_U64) || VerifyHeight(w.core, h, p.hash).Some? || !written then w
    else
      w.(objects := w.objects[(h, key) := key != p.hash],
         puts := w.puts + [ScanPut(|w.log|, h, key, key != p.hash)],
         worker := w.worker.(now := p.(plan := p.plan - {key}, settled := p.settled[key := |w.log|])))
  }

  function DoneHeight(w: World): World
    requires w.worker.Scanning? && w.worker.now.Working?
  {
    var p := w.worker.now;
    if p.todo != {} || p.plan != {} then w
    else w.(worker := Scanning(w.worker.done + [HeightScan(p.hash, p.listedAt, p.listed, p.settled)], AtRead))
  }

  /** The heights checked so far, as handed to the final checkpoint. */
  function Checked(start: u64, done: seq<HeightScan>): seq<Anchor>
    requires start + |done| <= MAX_U64
  {
    seq(|done|, i requires 0 <= i < |done| => Anchor(start + i, done[i].hash))
  }

  function Finishing(w: World, live: bool, committed: bool): World
    requires w.worker.Scanning? && w.core.batch.Some?
    requires ScanHeight(w) <= MAX_U64
  {
    var checked := Checked(w.core.batch.value.start, w.worker.done);
    var core := BatchFinished(w.core, checked, live, committed);
    w.(core := core, worker := Sleeping,
       cover := if core.state == w.core.state then w.cover
                else Covered(w.cover, w.core.batch.value.start, w.worker.done[..VerifiedPrefix(w.core, checked)], w.ripe, w.begun))
  }

  function Covered(cover: map<u64, Cover>, start: u64, done: seq<HeightScan>, ripe: nat, begun: nat): map<u64, Cover>
    requires start + |done| <= MAX_U64
  {
    if |done| == 0 then cover
    else Covered(cover, start, done[..|done| - 1], ripe, begun)[start + |done| - 1 := Cover(done[|done| - 1], ripe, begun)]
  }

  /** A write of the recent-window scanner: same verification, against the index and the latest
      published block. */
  function WindowPutting(w: World, height: u64, hash: Hash, key: Hash): World {
    if w.core.latest.None? || height > w.core.latest.value.height || Get(w.core.nums, height) != Some(hash) then w
    else
      w.(objects := w.objects[(height, key) := key != hash],
         puts := w.puts + [ScanPut(|w.log|, height, key, key != hash)])
  }

  // ---------------------------------------------------------------- all steps

  predicate Enabled(w: World, step: Step) {
    match step
    case Start(n, position, _, _, _) =>
      && ProducerContract(n) && (position.Some? ==> ValidPosition(position.value))
      && (w.main.Idle? || (w.main.Retry? && w.main.notice == n && w.main.position == position))
    case StoreBlocks(_) => w.main.Busy? && !w.main.stored && |w.main.notice.news| > 0
    case Publish(_, _) => w.main.Busy? && w.main.stored && w.main.cursor < |Messages(w.main.notice)|
    case GiveUp => w.main.Busy?
    case Complete(_) => w.main.Busy? && w.main.stored && w.main.cursor == |Messages(w.main.notice)|
    case OtherPut(_, _, _) => true
    case Tick(_) => true
    case Observe => LockFree(w) && w.worker.Sleeping?
    case BeginBatch => LockFree(w) && w.worker.Ready?
    case ReadHeight => w.worker.Scanning? && w.core.batch.Some? && w.worker.now.AtRead?
    case ListHeight => w.worker.Scanning? && w.core.batch.Some? && w.worker.now.AtList?
    case GetObject(_) => w.worker.Scanning? && w.core.batch.Some? && w.worker.now.Working?
    case PutObject(_, _) => LockFree(w) && w.worker.Scanning? && w.core.batch.Some? && w.worker.now.Working?
    case HeightDone => w.worker.Scanning? && w.worker.now.Working?
    case FinishBatch(_, _) => LockFree(w) && w.worker.Scanning? && w.core.batch.Some? && ScanHeight(w) <= MAX_U64
    case WindowPut(_, _, _) => LockFree(w)
    case Crash => true
  }

  function Acted(w: World, step: Step): World
    requires Enabled(w, step)
  {
    match step
    case Start(n, position, saved, aligned, finished) => Started(w, n, position, saved, aligned, finished)
    case StoreBlocks(committed) => Stored(w, committed)
    case Publish(written, elsewhere) => Published(w, written, elsewhere)
    case GiveUp => w.(main := Retry(w.main.notice, w.main.position))
    case Complete(finished) =>
      var f := Finished(w.core, w.main.position, finished);
      w.(core := f.0, main := if f.1 then Idle else Retry(w.main.notice, w.main.position))
    case OtherPut(height, key, isFork) => w.(objects := w.objects[(height, key) := isFork])
    case Tick(elapsed) => w.(clock := w.clock + elapsed)
    case Observe => Observing(w)
    case BeginBatch => Beginning(w)
    case ReadHeight => Reading(w)
    case ListHeight => Listing(w)
    case GetObject(key) => Getting(w, key)
    case PutObject(key, written) => Putting(w, key, written)
    case HeightDone => DoneHeight(w)
    case FinishBatch(live, committed) => Finishing(w, live, committed)
    case WindowPut(height, hash, key) => WindowPutting(w, height, hash, key)
    case Crash =>
      w.(core := Reloaded(w.core.nums, w.core.cursor, w.outerTail), main := Idle, worker := Sleeping, sentFor := None, sent := 0)
  }

  function Next(w: World, step: Step): World {
    if Enabled(w, step) then Logging(Acted(w, step)) else w
  }

  /** A first start in continuous mode: no cursor yet, any index, objects and outer topic. */
  predicate Initial(w: World) {
    && w.core == Reloaded(w.core.nums, None, w.outerTail)
    && (w.outerTail.Some? ==> w.outerTail.value.hash != ZeroHash())
    && w.main.Idle? && w.worker.Sleeping? && w.sentFor.None? && w.sent == 0
    && w.log == [SnapOf(w)] && w.cover == map[] && w.puts == []
  }

  /** A run: its states, and the steps between them. */
  ghost predicate IsRun(states: seq<World>, steps: seq<Step>) {
    && |states| == |steps| + 1 && Initial(states[0])
    && forall i :: 0 <= i < |steps| ==> states[i + 1] == Next(states[i], steps[i])
  }

  /** A state some run ends in. */
  ghost predicate Reachable(w: World) {
    exists states, steps :: IsRun(states, steps) && states[|steps|] == w
  }
}
