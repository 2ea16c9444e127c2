/** Putting right the fork marks of all validation objects at one height: plan without writing, apply,
    and look again. */
module ForkRewrites {
  import opened Types
  import opened Text
  import opened ObjectKeys

  /** A validation object: its fork mark and the rest, of which the hash stands for all. */
  datatype Validation = Validation(isFork: bool, hash: int)

  type Bucket = map<string, Validation>

  datatype Rewrite = Rewrite(key: string, validation: Validation)

  /** What was fetched ahead: the keys at the height, and the canonical object. No keys means that they
      must be listed. */
  datatype Hint = Hint(keys: seq<string>, validation: Option<Validation>)

  datatype RewriteError = ListFailed | GetFailed | PutFailed | CanonicalMissing | NotConverged

  datatype Result<+T> = Ok(value: T) | Err(error: RewriteError)

  /** Operations on the bucket that fail for good in one call. */
  datatype Faults = Faults(list: bool, gets: set<string>, puts: set<string>)

  function Lower(c: char): char {
    if 'A' <= c <= 'Z' then ((c as int) + 32) as char else c
  }

  function Folded(s: string): string {
    seq(|s|, i requires 0 <= i < |s| => Lower(s[i]))
  }

  /** Hash texts are compared without regard to case. */
  predicate EqualFold(a: string, b: string) {
    Folded(a) == Folded(b)
  }

  /** The mark an object must carry, by its name alone; names of another shape are left alone. */
  function Wanted(c: Config, hash: Hash, key: string): Option<bool> {
    var h := HashFromKey(c, key);
    if h.None? then None else Some(!EqualFold(h.value, HashText(hash)))
  }

  predicate Canonical(c: Config, hash: Hash, key: string) {
    Wanted(c, hash, key) == Some(false)
  }

  predicate HasCanonical(c: Config, hash: Hash, keys: seq<string>) {
    exists k :: k in keys && Canonical(c, hash, k)
  }

  predicate Right(c: Config, hash: Hash, b: Bucket, key: string) {
    key in b && (Wanted(c, hash, key).Some? ==> b[key].isFork == Wanted(c, hash, key).value)
  }

  predicate Distinct(keys: seq<string>) {
    forall i, j :: 0 <= i < j < |keys| ==> keys[i] != keys[j]
  }

  /** A complete answer to a listing, in some order. */
  ghost predicate IsListing(b: Bucket, prefix: string, keys: seq<string>) {
    Distinct(keys) && forall k :: k in keys <==> k in b && prefix <= k
  }

  /** What planning sees of an object. */
  function Seen(b: Bucket, gets: set<string>, c: Config, hash: Hash, known: Option<Validation>, key: string): Option<Validation> {
    if known.Some? && Canonical(c, hash, key) then known
    else if key in b && key !in gets then Some(b[key])
    else None
  }

  /** The rewrites of the objects whose mark is wrong, in listing order; none if some cannot be read. */
  function Planned(b: Bucket, gets: set<string>, c: Config, hash: Hash, known: Option<Validation>,
       keys: seq<string>): Option<seq<Rewrite>> {
    if |keys| == 0 then Some([])
    else
      var front, key := Planned(b, gets, c, hash, known, keys[..|keys| - 1]), keys[|keys| - 1];
      if front.None? || Wanted(c, hash, key).None? then front
      else
        var v := Seen(b, gets, c, hash, known, key);
        if v.None? then None
        else if v.value.isFork == Wanted(c, hash, key).value then front
        else Some(front.value + [Rewrite(key, v.value.(isFork := Wanted(c, hash, key).value))])
  }

  /** The bucket after the first rewrites of a plan. */
  function Written(b: Bucket, plan: seq<Rewrite>): Bucket {
    if |plan| == 0 then b else Written(b, plan[..|plan| - 1])[plan[|plan| - 1].key := plan[|plan| - 1].validation]
  }

  // ---------------------------------------------------------------- plans and their effect

  /** Planning looks at nothing but the listed objects. */
  lemma PlanFrame(b: Bucket, b': Bucket, c: Config, hash: Hash, keys: seq<string>)
    requires forall k :: k in keys ==> k in b && k in b' && b[k] == b'[k]
    ensures Planned(b, {}, c, hash, None, keys) == Planned(b', {}, c, hash, None, keys)
  {
  }

  lemma PlannedKeys(b: Bucket, gets: set<string>, c: Config, hash: Hash, known: Option<Validation>, keys: seq<string>)
    requires Planned(b, gets, c, hash, known, keys).Some?
    ensures var plan := Planned(b, gets, c, hash, known, keys).value;
            forall i :: 0 <= i < |plan| ==> plan[i].key in keys && Wanted(c, hash, plan[i].key) == Some(plan[i].validation.isFork)
  {
  }

  lemma WrittenFrame(b: Bucket, plan: seq<Rewrite>, key: string)
    requires forall i :: 0 <= i < |plan| ==> plan[i].key != key
    ensures key in Written(b, plan) <==> key in b
    ensures key in b ==> Written(b, plan)[key] == b[key]
  {
  }

  /** The rewrite of an object with a wrong mark. */
  function Fixed(c: Config, hash: Hash, b: Bucket, key: string): Rewrite
    requires key in b && !Right(c, hash, b, key)
  {
    Rewrite(key, b[key].(isFork := Wanted(c, hash, key).value))
  }

  lemma PlanSnoc(b: Bucket, c: Config, hash: Hash, keys: seq<string>, front: seq<string>, key: string)
    requires keys == front + [key] && key in b
    ensures var f := Planned(b, {}, c, hash, None, front);
            Planned(b, {}, c, hash, None, keys) ==
              if f.None? || Right(c, hash, b, key) then f else Some(f.value + [Fixed(c, hash, b, key)])
  {
    hide Wanted;
    assert keys[..|keys| - 1] == front;
  }

  /** An apply that stops anywhere leaves exactly the rest of its plan to be planned again. */
  lemma {:induction false} StoppedApplyLeavesRest(b: Bucket, c: Config, hash: Hash, keys: seq<string>, m: nat)
    requires Distinct(keys) && (forall k :: k in keys ==> k in b)
    requires Planned(b, {}, c, hash, None, keys).Some? && m <= |Planned(b, {}, c, hash, None, keys).value|
    ensures var plan := Planned(b, {}, c, hash, None, keys).value;
            Planned(Written(b, plan[..m]), {}, c, hash, None, keys) == Some(plan[m..])
    decreases |keys|
  {
    hide Wanted, Right;
    if |keys| > 0 {
      hide Planned, Written;
      var front, key := keys[..|keys| - 1], keys[|keys| - 1];
      PlanSnoc(b, c, hash, keys, front, key);
      var plan, early := Planned(b, {}, c, hash, None, keys).value, Planned(b, {}, c, hash, None, front).value;
      PlannedKeys(b, {}, c, hash, None, front);
      LastIsNew(keys, front, key);
      if m <= |early| {
        StoppedApplyLeavesRest(b, c, hash, front, m);
        assert plan[..m] == early[..m];
        WrittenFrame(b, early[..m], key);
        StillWrong(b, Written(b, early[..m]), c, hash, key);
        WrittenHas(b, early[..m], keys);
        PlanSnoc(Written(b, early[..m]), c, hash, keys, front, key);
        if !Right(c, hash, b, key) { assert plan[m..] == early[m..] + [Fixed(c, hash, b, key)]; }
      } else {
        StoppedApplyLeavesRest(b, c, hash, front, |early|);
        assert early[..|early|] == early && early[|early|..] == [];
        LastFixed(b, c, hash, keys, front, key, early);
        assert plan[..m] == plan && plan[m..] == [];
      }
    }
  }

  lemma LastIsNew(keys: seq<string>, front: seq<string>, key: string)
    requires Distinct(keys) && keys == front + [key]
    ensures Distinct(front) && key !in front
  {
    assert keys[|keys| - 1] == key;
    assert forall i :: 0 <= i < |front| ==> front[i] == keys[i];
  }

  lemma StillWrong(b: Bucket, b': Bucket, c: Config, hash: Hash, key: string)
    requires key in b && key in b' && b[key] == b'[key]
    ensures Right(c, hash, b, key) == Right(c, hash, b', key)
    ensures !Right(c, hash, b, key) ==> Fixed(c, hash, b, key) == Fixed(c, hash, b', key)
  {
  }

  /** Once the earlier objects are right, fixing the last one leaves nothing to plan. */
  lemma LastFixed(b: Bucket, c: Config, hash: Hash, keys: seq<string>, front: seq<string>, key: string, early: seq<Rewrite>)
    requires Distinct(keys) && keys == front + [key] && (forall k :: k in keys ==> k in b) && !Right(c, hash, b, key)
    requires Planned(b, {}, c, hash, None, front) == Some(early)
    requires Planned(Written(b, early), {}, c, hash, None, front) == Some([])
    ensures Planned(Written(b, early + [Fixed(c, hash, b, key)]), {}, c, hash, None, keys) == Some([])
  {
    hide Wanted, Planned;
    var all := early + [Fixed(c, hash, b, key)];
    assert all[..|all| - 1] == early;
    LastIsNew(keys, front, key);
    WrittenHas(b, early, front);
    PlanFrame(Written(b, early), Written(b, all), c, hash, front);
    PlanSnoc(Written(b, all), c, hash, keys, front, key);
  }

  lemma WrittenHas(b: Bucket, plan: seq<Rewrite>, keys: seq<string>)
    requires forall k :: k in keys ==> k in b
    ensures forall k :: k in keys ==> k in Written(b, plan)
  {
  }

  /** The plan is empty exactly when no listed object carries a wrong mark. */
  lemma {:induction false} EmptyIffRight(b: Bucket, c: Config, hash: Hash, keys: seq<string>)
    requires forall k :: k in keys ==> k in b
    ensures Planned(b, {}, c, hash, None, keys).Some?
    ensures Planned(b, {}, c, hash, None, keys) == Some([]) <==> forall k :: k in keys ==> Right(c, hash, b, k)
    decreases |keys|
  {
    hide Wanted;
    if |keys| > 0 {
      hide Planned, Right;
      var front, key := keys[..|keys| - 1], keys[|keys| - 1];
      EmptyIffRight(b, c, hash, front);
      PlanSnoc(b, c, hash, keys, front, key);
    }
  }

  /** Applying a whole plan puts every listed object right, changes only marks, and touches nothing else;
      planning again then finds nothing. */
  lemma {:induction false} ApplyConverges(b: Bucket, c: Config, hash: Hash, keys: seq<string>)
    requires Distinct(keys) && forall k :: k in keys ==> k in b
    ensures Planned(b, {}, c, hash, None, keys).Some?
    ensures var plan := Planned(b, {}, c, hash, None, keys).value;
            var b' := Written(b, plan);
            && Planned(b', {}, c, hash, None, keys) == Some([])
            && b'.Keys == b.Keys
            && (forall k :: k in keys ==> Right(c, hash, b', k) && b'[k].hash == b[k].hash)
            && (forall k :: k in b && (k !in keys || Wanted(c, hash, k).None?) ==> b'[k] == b[k])
  {
    hide Wanted, Planned, Written;
    EmptyIffRight(b, c, hash, keys);
    var plan := Planned(b, {}, c, hash, None, keys).value;
    StoppedApplyLeavesRest(b, c, hash, keys, |plan|);
    assert plan[..|plan|] == plan && plan[|plan|..] == [];
    var b' := Written(b, plan);
    PlanKeepsRest(b, c, hash, keys);
    EmptyIffRight(b', c, hash, keys);
  }

  lemma {:induction false} PlanKeepsRest(b: Bucket, c: Config, hash: Hash, keys: seq<string>)
    requires Distinct(keys) && (forall k :: k in keys ==> k in b) && Planned(b, {}, c, hash, None, keys).Some?
    ensures var b' := Written(b, Planned(b, {}, c, hash, None, keys).value);
            && b'.Keys == b.Keys && (forall k :: k in b ==> b'[k].hash == b[k].hash)
            && (forall k :: k in b && (k !in keys || Wanted(c, hash, k).None?) ==> b'[k] == b[k])
    decreases |keys|
  {
    hide Wanted;
    if |keys| > 0 {
      var front, key := keys[..|keys| - 1], keys[|keys| - 1];
      PlanKeepsRest(b, c, hash, front);
      PlannedKeys(b, {}, c, hash, None, front);
      var early, plan := Planned(b, {}, c, hash, None, front).value, Planned(b, {}, c, hash, None, keys).value;
      if plan != early { assert plan[..|plan| - 1] == early; }
    }
  }

  /** A plan made with what was known of the canonical object is the plan made by reading it, as long as
      that knowledge is accurate. */
  lemma {:induction false} KnownIsRead(b: Bucket, gets: set<string>, c: Config, hash: Hash, known: Option<Validation>, keys: seq<string>)
    requires forall k :: k in keys ==> k in b
    requires known.Some? ==> forall k :: k in keys && Canonical(c, hash, k) ==> b[k] == known.value
    requires Planned(b, gets, c, hash, known, keys).Some?
    ensures Planned(b, gets, c, hash, known, keys) == Planned(b, {}, c, hash, None, keys)
    decreases |keys|
  {
    hide Wanted;
    if |keys| > 0 { KnownIsRead(b, gets, c, hash, known, keys[..|keys| - 1]); }
  }

  // ---------------------------------------------------------------- one height

  function KnownOf(hint: Option<Hint>): Option<Validation> {
    if hint.Some? then hint.value.validation else None
  }

  function HintKeys(hint: Option<Hint>): seq<string> {
    if hint.Some? then hint.value.keys else []
  }

  /** Whether the keys fetched ahead are used: not when there are none or the canonical one is missing. */
  predicate Usable(c: Config, hash: Hash, hint: Option<Hint>) {
    hint.Some? && |hint.value.keys| > 0 && HasCanonical(c, hash, hint.value.keys)
  }

  /** The hint still tells the truth about the bucket. */
  ghost predicate Fresh(b: Bucket, c: Config, height: u64, hash: Hash, hint: Option<Hint>) {
    hint.Some? ==>
      && (|hint.value.keys| > 0 ==> IsListing(b, Prefix(c, height), hint.value.keys))
      && (hint.value.validation.Some? ==>
            forall k :: k in b && Prefix(c, height) <= k && Canonical(c, hash, k) ==> b[k] == hint.value.validation.value)
  }

  /** Every object of a height carries the mark its name demands, and the canonical one is there. */
  ghost predicate AllRight(b: Bucket, c: Config, height: u64, hash: Hash) {
    && (forall k :: k in b && Prefix(c, height) <= k ==> Right(c, hash, b, k))
    && exists k :: k in b && Prefix(c, height) <= k && Canonical(c, hash, k)
  }

  /** Only marks of objects at one height differ. */
  ghost predicate OnlyMarks(b: Bucket, b': Bucket, prefix: string) {
    b'.Keys == b.Keys && forall k :: k in b ==> b'[k].hash == b[k].hash && (!(prefix <= k) ==> b'[k] == b[k])
  }

  /** The keys a plan was made from. */
  ghost predicate PlannedFrom(b: Bucket, c: Config, height: u64, hash: Hash, hint: Option<Hint>, keys: seq<string>) {
    if Usable(c, hash, hint) then keys == hint.value.keys else IsListing(b, Prefix(c, height), keys)
  }

  /** The outcome of planning from some keys. */
  function PlanResult(b: Bucket, gets: set<string>, c: Config, hash: Hash, known: Option<Validation>,
       keys: seq<string>): Result<seq<Rewrite>> {
    var plan := Planned(b, gets, c, hash, known, keys);
    if plan.None? then Err(GetFailed) else if !HasCanonical(c, hash, keys) then Err(CanonicalMissing) else Ok(plan.value)
  }

  // ---------------------------------------------------------------- names and blocks

  /** Names can be read back: the version is not part of them, or has no slash. */
  predicate Readable(c: Config) {
    c.versionMode ==> SlashFree(c.version)
  }

  /** The object of the canonical block is stored, under a name that can be read. */
  predicate Found(b: Bucket, c: Config, height: u64, hash: Hash) {
    Readable(c) && Key(c, height, hash) in b
  }

  /** In terms of blocks: at this height exactly the objects of other blocks are marked as forks. */
  ghost predicate MarksFollow(b: Bucket, c: Config, height: u64, hash: Hash) {
    forall k: Hash :: Key(c, height, k) in b ==> b[Key(c, height, k)].isFork == (k != hash)
  }

  /** In terms of names: an object whose name ends in one text carries a mark exactly when that text is not
      the canonical one, and the canonical one is there. */
  ghost predicate NamesFollow(b: Bucket, c: Config, height: u64, hash: Hash) {
    && (forall k :: k in b && EndsIn(c, height, k) ==> b[k].isFork == (Folded(k[|Prefix(c, height)|..]) != HashText(hash)))
    && exists k :: k in b && EndsIn(c, height, k) && Folded(k[|Prefix(c, height)|..]) == HashText(hash)
  }

  /** A name under the prefix of a height with no further slash. */
  predicate EndsIn(c: Config, height: u64, key: string) {
    Prefix(c, height) <= key && SlashFree(key[|Prefix(c, height)|..])
  }

  lemma HashTextIsLower(h: Hash)
    ensures Folded(HashText(h)) == HashText(h)
  {
  }

  lemma PartsOf(a: string, b: string)
    requires SlashFree(a)
    ensures Split(a + "/" + b) == [a] + Split(b)
    ensures |Split(b)| == 1 <==> SlashFree(b)
    ensures SlashFree(b) ==> Split(b) == [b]
  {
    SplitFirst(a, b);
    SplitGrows(b, "");
    if SlashFree(b) { SplitFirst(b, ""); }
  }

  /** What is read of a name under a prefix. */
  lemma NameIsRead(c: Config, height: u64, key: string)
    requires Prefix(c, height) <= key
    ensures HashFromKey(c, key) == if Readable(c) && EndsIn(c, height, key) then Some(key[|Prefix(c, height)|..]) else None
  {
    hide Split, Decimal, SlashFree;
    var rest := key[|Prefix(c, height)|..];
    var tail := Decimal(height) + "/" + rest;
    assert key == Prefix(c, height) + rest;
    DecimalIsPlain(c.chainID);
    DecimalIsPlain(height);
    PartsOf(Decimal(height), rest);
    if c.versionMode {
      var named := c.version + "/" + tail;
      assert key == Decimal(c.chainID) + "/" + named;
      PartsOf(Decimal(c.chainID), named);
      SplitGrows(c.version, tail);
      if SlashFree(c.version) { PartsOf(c.version, tail); }
    } else {
      assert key == Decimal(c.chainID) + "/" + tail;
      PartsOf(Decimal(c.chainID), tail);
    }
  }

  lemma DecimalIsPlain(i: int)
    ensures SlashFree(Decimal(i))
  {
  }

  /** The mark a name demands, seen from the text it ends in. */
  lemma WantedOfName(c: Config, hash: Hash, height: u64, key: string)
    requires Prefix(c, height) <= key
    ensures Wanted(c, hash, key) ==
              if Readable(c) && EndsIn(c, height, key) then Some(Folded(key[|Prefix(c, height)|..]) != HashText(hash)) else None
  {
    hide HashFromKey, Prefix, HashText, Folded;
    NameIsRead(c, height, key);
    HashTextIsLower(hash);
  }

  lemma KeyEndsInHash(c: Config, height: u64, hash: Hash)
    ensures EndsIn(c, height, Key(c, height, hash)) && Key(c, height, hash)[|Prefix(c, height)|..] == HashText(hash)
  {
    assert Key(c, height, hash) == Prefix(c, height) + HashText(hash);
  }

  /** Right in the sense of plans is right in the sense of names, as long as names can be read. */
  lemma AllRightIffNamesFollow(b: Bucket, c: Config, height: u64, hash: Hash)
    requires Readable(c)
    ensures AllRight(b, c, height, hash) <==> NamesFollow(b, c, height, hash)
  {
    hide Wanted, EndsIn, Prefix, HashText, Folded, Readable;
    forall k | k in b && Prefix(c, height) <= k
      ensures Right(c, hash, b, k) <==> (EndsIn(c, height, k) ==> b[k].isFork == (Folded(k[|Prefix(c, height)|..]) != HashText(hash)))
      ensures Canonical(c, hash, k) <==> EndsIn(c, height, k) && Folded(k[|Prefix(c, height)|..]) == HashText(hash)
    {
      WantedOfName(c, hash, height, k);
    }
    forall k | EndsIn(c, height, k) ensures Prefix(c, height) <= k { EndsUnderPrefix(c, height, k); }
  }

  lemma EndsUnderPrefix(c: Config, height: u64, key: string)
    requires EndsIn(c, height, key)
    ensures Prefix(c, height) <= key
  {
  }

  /** And it means that the marks follow the blocks. */
  lemma NamesGiveBlocks(b: Bucket, c: Config, height: u64, hash: Hash)
    requires NamesFollow(b, c, height, hash)
    ensures MarksFollow(b, c, height, hash)
  {
    hide EndsIn, Prefix, Key, HashText, Folded;
    forall k: Hash | Key(c, height, k) in b
      ensures b[Key(c, height, k)].isFork == (k != hash)
    {
      KeyEndsInHash(c, height, k);
      HashTextIsLower(k);
      if HashText(k) == HashText(hash) { HashTextInjective(k, hash); }
    }
  }

  /** The object of the canonical block is found under its name, and no name is once the version has a slash. */
  lemma CanonicalIsFound(b: Bucket, c: Config, height: u64, hash: Hash, keys: seq<string>)
    requires IsListing(b, Prefix(c, height), keys)
    ensures Found(b, c, height, hash) ==> HasCanonical(c, hash, keys)
    ensures !Readable(c) ==> !HasCanonical(c, hash, keys)
  {
    hide EndsIn, Prefix, Key, HashText, Folded, Wanted, Readable;
    if Found(b, c, height, hash) { KeyIsCanonical(c, height, hash); }
    if !Readable(c) {
      forall k | k in keys ensures !Canonical(c, hash, k) { WantedOfName(c, hash, height, k); }
    }
  }

  /** Everything right is possible only with names that can be read, and then the marks follow the blocks. */
  lemma RightMeans(b: Bucket, c: Config, height: u64, hash: Hash)
    requires AllRight(b, c, height, hash)
    ensures Readable(c) && NamesFollow(b, c, height, hash) && MarksFollow(b, c, height, hash)
  {
    hide EndsIn, Prefix, Key, HashText, Folded, Wanted, Readable, NamesFollow, MarksFollow;
    var k :| k in b && Prefix(c, height) <= k && Canonical(c, hash, k);
    WantedOfName(c, hash, height, k);
    AllRightIffNamesFollow(b, c, height, hash);
    NamesGiveBlocks(b, c, height, hash);
  }

  /** No operation that has to be done at a height fails: what was fetched ahead need not be listed or read. */
  ghost predicate Unharmed(b: Bucket, c: Config, height: u64, hash: Hash, hint: Option<Hint>, faults: Faults) {
    && (faults.list ==> hint.Some? && |hint.value.keys| > 0)
    && forall k :: k in b && Prefix(c, height) <= k ==>
         k !in faults.puts && (k in faults.gets ==> KnownOf(hint).Some? && k == Key(c, height, hash))
  }

  ghost predicate NeverHarmed(b: Bucket, c: Config, height: u64, hash: Hash, faults: nat -> Faults) {
    forall i :: 0 <= i < 3 ==> Unharmed(b, c, height, hash, None, faults(i))
  }

  /** Only an object that has to be read and cannot be loses a plan. */
  lemma {:induction false} ReadablePlan(b: Bucket, gets: set<string>, c: Config, hash: Hash, known: Option<Validation>, keys: seq<string>)
    requires forall k :: k in keys ==> k in b && (k in gets ==> known.Some? && Canonical(c, hash, k))
    ensures Planned(b, gets, c, hash, known, keys).Some?
    decreases |keys|
  {
    hide Wanted;
    if |keys| > 0 { ReadablePlan(b, gets, c, hash, known, keys[..|keys| - 1]); }
  }

  lemma KeyIsCanonical(c: Config, height: u64, hash: Hash)
    requires Readable(c)
    ensures Prefix(c, height) <= Key(c, height, hash) && Canonical(c, hash, Key(c, height, hash))
  {
    hide EndsIn, Prefix, Key, HashText, Folded, Wanted, Readable;
    KeyEndsInHash(c, height, hash);
    EndsUnderPrefix(c, height, Key(c, height, hash));
    WantedOfName(c, hash, height, Key(c, height, hash));
    HashTextIsLower(hash);
  }

  /** With nothing in the way, planning goes through. */
  lemma UnharmedPlans(b: Bucket, c: Config, height: u64, hash: Hash, hint: Option<Hint>, faults: Faults, keys: seq<string>)
    requires Fresh(b, c, height, hash, hint) && Found(b, c, height, hash) && Unharmed(b, c, height, hash, hint, faults)
    requires PlannedFrom(b, c, height, hash, hint, keys)
    ensures PlanResult(b, faults.gets, c, hash, KnownOf(hint), keys).Ok?
  {
    hide Planned, Canonical, Prefix, Key, Readable, HasCanonical;
    CanonicalIsFound(b, c, height, hash, keys);
    KeyIsCanonical(c, height, hash);
    ReadablePlan(b, faults.gets, c, hash, KnownOf(hint), keys);
  }

  class Marker {
    const config: Config
    var bucket: Bucket

    constructor (config: Config, bucket: Bucket)
      ensures this.config == config && this.bucket == bucket
    {
      this.config, this.bucket := config, bucket;
    }

    method ListBlockValidationKeys(height: u64, faults: Faults) returns (r: Result<seq<string>>)
      ensures if faults.list then r == Err(ListFailed) else r.Ok? && IsListing(bucket, Prefix(config, height), r.value)
    {
      if faults.list { return Err(ListFailed); }
      var prefix := Prefix(config, height);
      var left, keys := bucket.Keys, [];
      while left != {}
        invariant left <= bucket.Keys && Distinct(keys)
        invariant forall k :: k in keys <==> k in bucket && k !in left && prefix <= k
        decreases |left|
      {
        var k :| k in left;
        left := left - {k};
        if prefix <= k { keys := keys + [k]; }
      }
      return Ok(keys);
    }

    method HasCanonicalKey(hash: Hash, keys: seq<string>) returns (found: bool)
      ensures found == HasCanonical(config, hash, keys)
    {
      var i := 0;
      while i < |keys|
        invariant 0 <= i <= |keys| && forall j :: 0 <= j < i ==> !Canonical(config, hash, keys[j])
      {
        if Canonical(config, hash, keys[i]) { return true; }
        i := i + 1;
      }
      return false;
    }

    /** Reads only. Keys fetched ahead are used if the canonical object is among them; otherwise, and
        without them, the height is listed. */
    method PlanForkRewrites(height: u64, hash: Hash, hint: Option<Hint>, faults: Faults) returns (r: Result<seq<Rewrite>>,
         ghost keys: seq<string>)
      ensures !Usable(config, hash, hint) && faults.list ==> r == Err(ListFailed)
      ensures Usable(config, hash, hint) || !faults.list ==>
                && PlannedFrom(bucket, config, height, hash, hint, keys)
                && r == PlanResult(bucket, faults.gets, config, hash, KnownOf(hint), keys)
    {
      hide HasCanonical, PlanResult;
      var ks := HintKeys(hint);
      var present := HasCanonicalKey(hash, ks);
      if |ks| == 0 || !present {
        var listing := ListBlockValidationKeys(height, faults);
        if listing.Err? { return Err(listing.error), []; }
        ks := listing.value;
      }
      keys := ks;
      r := PlanKeys(hash, ks, KnownOf(hint), faults);
    }

    method PlanKeys(hash: Hash, keys: seq<string>, known: Option<Validation>, faults: Faults) returns (r: Result<seq<Rewrite>>)
      ensures r == PlanResult(bucket, faults.gets, config, hash, known, keys)
    {
      hide Canonical, Wanted, HasCanonical, Seen;
      var plan: seq<Rewrite> := [];
      var canonicalFound := false;
      var i := 0;
      NoCanonicalYet(config, hash);
      while i < |keys|
        invariant 0 <= i <= |keys|
        invariant Planned(bucket, faults.gets, config, hash, known, keys[..i]) == Some(plan)
        invariant canonicalFound == HasCanonical(config, hash, keys[..i])
      {
        var key := keys[i];
        assert keys[..i + 1][..i] == keys[..i];
        CanonicalSnoc(config, hash, keys, i);
        var wanted := Wanted(config, hash, key);
        if wanted.Some? {
          canonicalFound := canonicalFound || Canonical(config, hash, key);
          var v := Seen(bucket, faults.gets, config, hash, known, key);
          if v.None? {
            PlanLost(bucket, faults.gets, config, hash, known, keys, i);
            return Err(GetFailed);
          }
          if v.value.isFork != wanted.value { plan := plan + [Rewrite(key, v.value.(isFork := wanted.value))]; }
        }
        i := i + 1;
      }
      assert keys[..i] == keys;
      if !canonicalFound { return Err(CanonicalMissing); }
      return Ok(plan);
    }

    /** Writes one by one, and stops at the first write that fails. */
    method ApplyForkRewrites(plan: seq<Rewrite>, faults: Faults) returns (r: Result<()>, ghost done: nat)
      modifies this
      ensures done <= |plan| && bucket == Written(old(bucket), plan[..done])
      ensures r == if done == |plan| then Ok(()) else Err(PutFailed)
      ensures (forall i :: 0 <= i < done ==> plan[i].key !in faults.puts) && (done < |plan| ==> plan[done].key in faults.puts)
    {
      done := 0;
      var i := 0;
      while i < |plan|
        invariant 0 <= i <= |plan| && done == i && bucket == Written(old(bucket), plan[..i])
        invariant forall j :: 0 <= j < i ==> plan[j].key !in faults.puts
      {
        if plan[i].key in faults.puts { return Err(PutFailed), i; }
        assert plan[..i + 1][..i] == plan[..i];
        bucket := bucket[plan[i].key := plan[i].validation];
        i, done := i + 1, done + 1;
      }
      return Ok(()), |plan|;
    }

    /** Plans and applies once; `true` means that there was nothing to do. */
    method RewriteForkBlocksAtHeight(height: u64, hash: Hash, hint: Option<Hint>, faults: Faults) returns (r: Result<bool>)
      modifies this
      ensures r != Err(NotConverged)
      ensures r == Ok(true) ==> bucket == old(bucket)
      ensures Fresh(old(bucket), config, height, hash, hint) ==>
                && OnlyMarks(old(bucket), bucket, Prefix(config, height))
                && (r.Ok? ==> AllRight(bucket, config, height, hash))
                && (r == Ok(true) <== AllRight(old(bucket), config, height, hash) && r.Ok?)
                && (r.Ok? ==> NamesFollow(bucket, config, height, hash) && MarksFollow(bucket, config, height, hash))
                && (Found(old(bucket), config, height, hash) ==> r != Err(CanonicalMissing))
                && (Found(old(bucket), config, height, hash) && Unharmed(old(bucket), config, height, hash, hint, faults) ==> r.Ok?)
                && (!Readable(config) ==> r.Err? && bucket == old(bucket))
    {
      hide Planned, Wanted, Canonical, HasCanonical, Right, NamesFollow, MarksFollow, Readable, Key;
      var plan, keys := PlanForkRewrites(height, hash, hint, faults);
      ghost var b := bucket;
      if Usable(config, hash, hint) || !faults.list {
        if Fresh(b, config, height, hash, hint) {
          CanonicalIsFound(b, config, height, hash, keys);
          if Found(b, config, height, hash) && Unharmed(b, config, height, hash, hint, faults) {
            UnharmedPlans(b, config, height, hash, hint, faults, keys);
          }
        }
      } else if Fresh(b, config, height, hash, hint) && |HintKeys(hint)| > 0 {
        CanonicalIsFound(b, config, height, hash, HintKeys(hint));
      }
      if plan.Err? { return Err(plan.error); }
      if Fresh(b, config, height, hash, hint) { FreshPlan(b, config, height, hash, hint, faults, keys, plan.value); }
      if |plan.value| == 0 {
        if Fresh(b, config, height, hash, hint) { RightMeans(bucket, config, height, hash); }
        return Ok(true);
      }
      var applied, done := ApplyForkRewrites(plan.value, faults);
      if done < |plan.value| && Fresh(b, config, height, hash, hint) { PlanContents(b, config, hash, keys, plan.value, done); }
      if Fresh(b, config, height, hash, hint) { PartOfPlan(b, config, height, hash, keys, plan.value, done); }
      if applied.Err? { return Err(applied.error); }
      assert plan.value[..done] == plan.value;
      if Fresh(b, config, height, hash, hint) { RightMeans(bucket, config, height, hash); }
      return Ok(false);
    }

    /** At most three rounds per height. With no other writer that is always enough, whatever was
        fetched ahead: a round without a hint puts everything right, and the next finds nothing. */
    method ConvergeAtHeight(height: u64, hash: Hash, hint: Option<Hint>, faults: nat -> Faults) returns (r: Result<()>)
      modifies this
      ensures r != Err(NotConverged)
      ensures Fresh(old(bucket), config, height, hash, hint) ==>
                && OnlyMarks(old(bucket), bucket, Prefix(config, height))
                && (r.Ok? ==> AllRight(bucket, config, height, hash))
                && (r.Ok? ==> NamesFollow(bucket, config, height, hash) && MarksFollow(bucket, config, height, hash))
                && (!Readable(config) ==> r.Err? && bucket == old(bucket))
                && (Found(old(bucket), config, height, hash) && NeverHarmed(old(bucket), config, height, hash, faults) ==> r.Ok?)
    {
      hide AllRight, NamesFollow, MarksFollow, Readable, Key;
      var h, attempt := hint, 0;
      ghost var b := bucket;
      while attempt < 3
        invariant 0 <= attempt <= 2
        invariant attempt == 0 ==> h == hint && bucket == b
        invariant attempt > 0 ==> h == None
        invariant attempt == 2 ==> AllRight(bucket, config, height, hash)
        invariant attempt > 0 && Fresh(b, config, height, hash, hint) ==> Readable(config)
        invariant Fresh(b, config, height, hash, hint) ==> OnlyMarks(b, bucket, Prefix(config, height))
      {
        ghost var before := bucket;
        if Unharmed(b, config, height, hash, None, faults(attempt)) && OnlyMarks(b, before, Prefix(config, height)) {
          assert Unharmed(before, config, height, hash, h, faults(attempt));
        }
        var done := RewriteForkBlocksAtHeight(height, hash, h, faults(attempt));
        if done.Err? { return Err(done.error); }
        if done.value { return Ok(()); }
        if attempt == 2 { return Err(NotConverged); }
        h, attempt := None, attempt + 1;
      }
      return Ok(());
    }

    /** All new blocks of a notice, one height after the other, each with what was fetched for it. */
    method RewriteForkBlocksAtSameHeight(blocks: seq<Block>, hints: seq<Hint>, faults: (nat, nat) -> Faults) returns (r: Result<()>)
      modifies this
      ensures r != Err(NotConverged)
      ensures AllFresh(old(bucket), config, blocks, hints) && Linked(blocks) && r.Ok? ==>
                forall i :: 0 <= i < |blocks| ==>
                  && AllRight(bucket, config, blocks[i].num, blocks[i].hash)
                  && MarksFollow(bucket, config, blocks[i].num, blocks[i].hash)
    {
      hide AllRight, Fresh, OnlyMarks, Linked, MarksFollow, NamesFollow;
      ghost var b := bucket;
      ghost var truthful := AllFresh(b, config, blocks, hints) && Linked(blocks);
      var i := 0;
      while i < |blocks|
        invariant 0 <= i <= |blocks|
        invariant truthful ==> forall j :: 0 <= j < i ==> AllRight(bucket, config, blocks[j].num, blocks[j].hash)
        invariant truthful ==> forall j :: i <= j < |blocks| ==> Fresh(bucket, config, blocks[j].num, blocks[j].hash, HintFor(hints, j))
      {
        ghost var before := bucket;
        r := ConvergeAtHeight(blocks[i].num, blocks[i].hash, HintFor(hints, i), (attempt: nat) => faults(i, attempt));
        if r.Err? { return; }
        if truthful {
          forall j | 0 <= j < |blocks| && j != i
            ensures AllRight(before, config, blocks[j].num, blocks[j].hash) ==> AllRight(bucket, config, blocks[j].num, blocks[j].hash)
            ensures Fresh(before, config, blocks[j].num, blocks[j].hash, HintFor(hints, j)) ==>
                Fresh(bucket, config, blocks[j].num, blocks[j].hash, HintFor(hints, j))
          {
            HeightsDiffer(blocks, i, j);
            OtherHeight(before, bucket, config, blocks[i].num, blocks[j].num, blocks[j].hash, HintFor(hints, j));
          }
        }
        i := i + 1;
      }
      if truthful {
        forall j | 0 <= j < |blocks| ensures MarksFollow(bucket, config, blocks[j].num, blocks[j].hash) {
          RightMeans(bucket, config, blocks[j].num, blocks[j].hash);
        }
      }
      return Ok(());
    }
  }

  function HintFor(hints: seq<Hint>, i: nat): Option<Hint> {
    if i < |hints| then Some(hints[i]) else None
  }

  ghost predicate AllFresh(b: Bucket, c: Config, blocks: seq<Block>, hints: seq<Hint>) {
    forall i :: 0 <= i < |blocks| ==> Fresh(b, c, blocks[i].num, blocks[i].hash, HintFor(hints, i))
  }

  lemma HeightsDiffer(blocks: seq<Block>, i: nat, j: nat)
    requires Linked(blocks) && i < |blocks| && j < |blocks| && i != j
    ensures blocks[i].num != blocks[j].num
  {
    LinkedAt(blocks, if i < j then i else j, if i < j then j else i);
  }

  /** Work at one height is not seen at another. */
  lemma OtherHeight(b: Bucket, b': Bucket, c: Config, touched: u64, height: u64, hash: Hash, hint: Option<Hint>)
    requires OnlyMarks(b, b', Prefix(c, touched)) && touched != height
    ensures AllRight(b, c, height, hash) ==> AllRight(b', c, height, hash)
    ensures Fresh(b, c, height, hash, hint) ==> Fresh(b', c, height, hash, hint)
  {
    hide Wanted, Canonical, Prefix;
    forall k | k in b && Prefix(c, height) <= k ensures b'[k] == b[k] {
      if Prefix(c, touched) <= k { PrefixesDisjoint(c, touched, height, k); }
    }
  }

  lemma NoCanonicalYet(c: Config, hash: Hash)
    ensures !HasCanonical(c, hash, [])
  {
  }

  lemma CanonicalSnoc(c: Config, hash: Hash, keys: seq<string>, i: nat)
    requires i < |keys|
    ensures HasCanonical(c, hash, keys[..i + 1]) == (HasCanonical(c, hash, keys[..i]) || Canonical(c, hash, keys[i]))
    ensures Canonical(c, hash, keys[i]) ==> Wanted(c, hash, keys[i]).Some?
  {
    assert keys[..i + 1] == keys[..i] + [keys[i]];
  }

  /** One unreadable object is enough to lose the plan. */
  lemma {:induction false} PlanLost(b: Bucket, gets: set<string>, c: Config, hash: Hash, known: Option<Validation>,
       keys: seq<string>, i: nat)
    requires i < |keys| && Wanted(c, hash, keys[i]).Some? && Seen(b, gets, c, hash, known, keys[i]).None?
    ensures Planned(b, gets, c, hash, known, keys).None?
    decreases |keys|
  {
    hide Wanted, Seen;
    if i < |keys| - 1 { PlanLost(b, gets, c, hash, known, keys[..|keys| - 1], i); }
  }

  /** A plan made from a truthful hint or from a listing is the plan for all objects of the height. */
  lemma FreshPlan(b: Bucket, c: Config, height: u64, hash: Hash, hint: Option<Hint>, faults: Faults, keys: seq<string>, plan: seq<Rewrite>)
    requires Fresh(b, c, height, hash, hint) && PlannedFrom(b, c, height, hash, hint, keys)
    requires PlanResult(b, faults.gets, c, hash, KnownOf(hint), keys) == Ok(plan)
    ensures IsListing(b, Prefix(c, height), keys) && Planned(b, {}, c, hash, None, keys) == Some(plan)
    ensures exists k :: k in b && Prefix(c, height) <= k && Canonical(c, hash, k)
    ensures plan == [] <==> AllRight(b, c, height, hash)
  {
    hide Planned, Canonical, Right;
    KnownIsRead(b, faults.gets, c, hash, KnownOf(hint), keys);
    EmptyIffRight(b, c, hash, keys);
    var k :| k in keys && Canonical(c, hash, k);
    assert k in b;
  }

  /** However far an apply gets, it changes only marks; the whole of it leaves everything right. */
  lemma PartOfPlan(b: Bucket, c: Config, height: u64, hash: Hash, keys: seq<string>, plan: seq<Rewrite>, done: nat)
    requires IsListing(b, Prefix(c, height), keys) && Planned(b, {}, c, hash, None, keys) == Some(plan) && done <= |plan|
    requires exists k :: k in b && Prefix(c, height) <= k && Canonical(c, hash, k)
    ensures OnlyMarks(b, Written(b, plan[..done]), Prefix(c, height))
    ensures done == |plan| ==> AllRight(Written(b, plan[..done]), c, height, hash)
  {
    hide Planned, Canonical, Right, Wanted;
    PrefixOnlyMarks(b, c, hash, Prefix(c, height), keys, plan, done);
    if done == |plan| {
      assert plan[..done] == plan;
      ApplyConverges(b, c, hash, keys);
    }
  }

  lemma {:induction false} PrefixOnlyMarks(b: Bucket, c: Config, hash: Hash, prefix: string, keys: seq<string>,
       plan: seq<Rewrite>, done: nat)
    requires IsListing(b, prefix, keys) && Planned(b, {}, c, hash, None, keys) == Some(plan) && done <= |plan|
    ensures OnlyMarks(b, Written(b, plan[..done]), prefix)
  {
    hide Planned, Wanted;
    if done > 0 {
      PrefixOnlyMarks(b, c, hash, prefix, keys, plan, done - 1);
      PlanContents(b, c, hash, keys, plan, done - 1);
      assert plan[..done][..done - 1] == plan[..done - 1];
    }
  }

  /** A planned object is a listed one with nothing but its mark changed. */
  lemma {:induction false} PlanContents(b: Bucket, c: Config, hash: Hash, keys: seq<string>, plan: seq<Rewrite>, i: nat)
    requires (forall k :: k in keys ==> k in b) && Planned(b, {}, c, hash, None, keys) == Some(plan) && i < |plan|
    ensures plan[i].key in keys && plan[i].validation.hash == b[plan[i].key].hash
    decreases |keys|
  {
    hide Wanted, Right;
    if |keys| > 0 {
      var front, key := keys[..|keys| - 1], keys[|keys| - 1];
      PlanSnoc(b, c, hash, keys, front, key);
      var early := Planned(b, {}, c, hash, None, front).value;
      if i < |early| { PlanContents(b, c, hash, front, early, i); }
    }
  }
}
