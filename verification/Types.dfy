/** Values shared by every component: heights, hashes, blocks, notices and the durable scan cursor. */
module Types {

  const MAX_U64: int := 0xFFFF_FFFF_FFFF_FFFF

  /** A Go `uint64`. Arithmetic on it is unbounded, so every result stored back is proved not to wrap. */
  type u64 = x: int | 0 <= x <= MAX_U64 witness 0

  newtype byte = x: int | 0 <= x < 256

  type Bytes32 = s: seq<byte> | |s| == 32 witness seq(32, _ => 0)

  datatype Hash = Hash(bytes: Bytes32)

  /** The hash of 32 zero bytes, which no block has. */
  function ZeroHash(): Hash {
    Hash([0, 0, 0, 0, 0, 0, 0, 0, 0, 0, 0, 0, 0, 0, 0, 0, 0, 0, 0, 0, 0, 0, 0, 0, 0, 0, 0, 0, 0, 0, 0, 0])
  }

  datatype Option<+T> = None | Some(value: T)

  function Min(a: u64, b: u64): u64 {
    if a < b then a else b
  }

  /** A block header as it travels in notices; `parent` is the hash of the block one lower. */
  datatype Block = Block(num: u64, hash: Hash, parent: Hash)

  /** One inner message: `drops` leave the chain, `news` join it, both lowest block first. */
  datatype Notice = Notice(drops: seq<Block>, news: seq<Block>)

  /** One outer message. */
  datatype Outer = Outer(height: u64, hash: Hash, isFork: bool)

  datatype Anchor = Anchor(height: u64, hash: Hash)

  datatype Position = Position(topic: string, partition: int, offset: int)

  /** The durable cursor: heights above `baseline` and below `nextHeight` have been scanned. */
  datatype ForkScanState = ForkScanState(
    format: int,
    baseline: Anchor,
    nextHeight: u64,
    generation: u64,
    published: Anchor,
    position: Option<Position>,
    pending: Option<Anchor>)

  /** What a stored cursor must satisfy; saving or loading any other record is an error. */
  predicate ValidState(s: ForkScanState) {
    && s.format == 1 && s.generation != 0
    && s.baseline.hash != ZeroHash() && s.published.hash != ZeroHash()
    && s.baseline.height != MAX_U64
    && (s.published.height != MAX_U64 ==> s.nextHeight <= s.published.height + 1)
    && (s.pending.Some? ==> s.pending.value.hash != ZeroHash())
    && (s.position.Some? ==> ValidPosition(s.position.value))
  }

  predicate ValidPosition(p: Position) {
    p.topic != "" && p.partition >= 0 && p.offset >= 0
  }

  /** Each block is the child of the one before it. */
  predicate Linked(blocks: seq<Block>) {
    forall i :: 0 <= i < |blocks| - 1 ==>
      blocks[i + 1].num == blocks[i].num + 1 && blocks[i + 1].parent == blocks[i].hash
  }

  predicate DistinctHashes(blocks: seq<Block>) {
    forall i, j :: 0 <= i < j < |blocks| ==> blocks[i].hash != blocks[j].hash
  }

  predicate NonZero(blocks: seq<Block>) {
    forall i :: 0 <= i < |blocks| ==> blocks[i].hash != ZeroHash()
  }

  /** What the producer of inner messages promises about each of them. */
  predicate ProducerContract(n: Notice) {
    && Linked(n.news) && DistinctHashes(n.news) && NonZero(n.news)
    && Linked(n.drops) && DistinctHashes(n.drops) && NonZero(n.drops)
    && (|n.drops| > 0 && |n.news| > 0 ==>
          n.drops[0].num == n.news[0].num && n.drops[0].parent == n.news[0].parent
          && n.drops[0].hash != n.news[0].hash)
  }

  function Tail(blocks: seq<Block>): Block
    requires |blocks| > 0
  {
    blocks[|blocks| - 1]
  }

  function Reversed(s: seq<Block>): (r: seq<Block>)
    ensures |r| == |s| && forall i :: 0 <= i < |r| ==> r[i] == s[|s| - 1 - i]
  {
    seq(|s|, i requires 0 <= i < |s| => s[|s| - 1 - i])
  }

  function AnchorOf(b: Block): Anchor {
    Anchor(b.num, b.hash)
  }

  function Get(m: map<u64, Hash>, h: u64): Option<Hash> {
    if h in m then Some(m[h]) else None
  }

  lemma LinkedAt(blocks: seq<Block>, i: nat, j: nat)
    requires Linked(blocks) && i <= j < |blocks|
    ensures blocks[j].num == blocks[i].num + (j - i)
    decreases j
  {
    if i < j {
      LinkedAt(blocks, i, j - 1);
      assert blocks[j - 1 + 1].num == blocks[j - 1].num + 1;
    }
  }
}
