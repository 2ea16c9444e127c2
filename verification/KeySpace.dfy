/** The flat byte-keyed store underneath: how hashes, heights and cursors become keys, and why one
    store can hold all three. */
module KeySpace {
  import opened Types
  import opened CanonicalIndex
  import opened ConsistencyDB
  import opened Text

  type Key = seq<byte>

  datatype Value = InfoValue(info: Info) | HashValue(hash: Hash) | CursorValue(state: ForkScanState)

  type Flat = map<Key, Value>

  /** The bytes of plain text. */
  function Ascii(s: string): (r: Key)
    requires forall i :: 0 <= i < |s| ==> s[i] < 128 as char
    ensures |r| == |s| && forall i :: 0 <= i < |s| ==> r[i] == s[i] as int as byte
  {
    seq(|s|, i requires 0 <= i < |s| => s[i] as int as byte)
  }

  /** The shortest big-endian form; zero has no bytes at all. */
  function BigEndian(n: nat): Key {
    if n == 0 then [] else BigEndian(n / 256) + [(n % 256) as byte]
  }

  function HashKey(h: Hash): Key {
    [0x68] + h.bytes
  }

  function NumKey(n: u64): Key {
    [0x6e] + BigEndian(n)
  }

  function CursorText(chainID: int, version: seq<byte>): (r: string)
    ensures forall i :: 0 <= i < |r| ==> r[i] < 128 as char
    ensures |r| > 0 && r[0] == 'm'
  {
    "meta/fork-recheck/v1/" + (Decimal(chainID) + "/" + Hex(version))
  }

  function CursorKey(chainID: int, version: seq<byte>): Key {
    Ascii(CursorText(chainID, version))
  }

  // ---------------------------------------------------------------- keys are faithful

  lemma {:induction false} BigEndianInjective(m: nat, n: nat)
    requires BigEndian(m) == BigEndian(n)
    ensures m == n
    decreases m
  {
    var a, b := BigEndian(m), BigEndian(n);
    if m > 0 && n > 0 {
      assert a[..|a| - 1] == BigEndian(m / 256) && b[..|b| - 1] == BigEndian(n / 256);
      BigEndianInjective(m / 256, n / 256);
      assert (m % 256) as byte == a[|a| - 1] == b[|b| - 1] == (n % 256) as byte;
    }
  }

  lemma AsciiInjective(s: string, t: string)
    requires forall i :: 0 <= i < |s| ==> s[i] < 128 as char
    requires forall i :: 0 <= i < |t| ==> t[i] < 128 as char
    requires Ascii(s) == Ascii(t)
    ensures s == t
  {
    forall i | 0 <= i < |s| ensures s[i] == t[i] {
      assert Ascii(s)[i] == Ascii(t)[i];
    }
  }

  lemma CursorTextInjective(a: int, v: seq<byte>, b: int, w: seq<byte>)
    requires CursorText(a, v) == CursorText(b, w)
    ensures a == b && v == w
  {
    var s, t := Decimal(a) + "/" + Hex(v), Decimal(b) + "/" + Hex(w);
    CutPrefix("meta/fork-recheck/v1/", s, t);
    CutAtSlash(Decimal(a), Decimal(b), Hex(v), Hex(w));
    CutPrefix(Decimal(a) + "/", Hex(v), Hex(w));
    DecimalInjective(a, b);
    HexInjective(v, w);
  }

  /** Equal keys come from equal things of one kind: hashes, heights and cursors never collide,
      whatever bytes a version is made of. */
  lemma KeysAreFaithful(h: Hash, h': Hash, n: u64, n': u64, a: int, v: seq<byte>, b: int, w: seq<byte>)
    ensures HashKey(h) == HashKey(h') <==> h == h'
    ensures NumKey(n) == NumKey(n') <==> n == n'
    ensures CursorKey(a, v) == CursorKey(b, w) <==> a == b && v == w
    ensures HashKey(h) != NumKey(n) && HashKey(h) != CursorKey(a, v) && NumKey(n) != CursorKey(a, v)
  {
    assert HashKey(h)[1..] == h.bytes && HashKey(h')[1..] == h'.bytes;
    assert NumKey(n)[1..] == BigEndian(n) && NumKey(n')[1..] == BigEndian(n');
    if NumKey(n) == NumKey(n') { BigEndianInjective(n, n'); }
    if CursorKey(a, v) == CursorKey(b, w) {
      AsciiInjective(CursorText(a, v), CursorText(b, w));
      CursorTextInjective(a, v, b, w);
    }
    assert HashKey(h)[0] == 0x68 && NumKey(n)[0] == 0x6e && CursorKey(a, v)[0] == 0x6d;
  }

  // ---------------------------------------------------------------- one flat store, three typed maps

  /** Reading any typed entry of the store is reading its key. */
  ghost predicate Represents(flat: Flat, s: Store, chainID: int, version: seq<byte>) {
    && (forall h: Hash :: HashKey(h) in flat <==> h in s.infos)
    && (forall h: Hash :: h in s.infos ==> flat[HashKey(h)] == InfoValue(s.infos[h]))
    && (forall n: u64 :: NumKey(n) in flat <==> n in s.nums)
    && (forall n: u64 :: n in s.nums ==> flat[NumKey(n)] == HashValue(s.nums[n]))
    && (CursorKey(chainID, version) in flat <==> s.cursor.Some?)
    && (s.cursor.Some? ==> flat[CursorKey(chainID, version)] == CursorValue(s.cursor.value))
  }

  /** What a batch entry does to the flat store. */
  function FlatOne(flat: Flat, op: Op, chainID: int, version: seq<byte>): Flat {
    match op
    case SetInfo(h, info) => flat[HashKey(h) := InfoValue(info)]
    case SetNum(n, h) => flat[NumKey(n) := HashValue(h)]
    case DeleteNum(n) => flat - {NumKey(n)}
    case SetCursor(c) => flat[CursorKey(chainID, version) := CursorValue(c)]
  }

  function FlatApply(flat: Flat, batch: seq<Op>, chainID: int, version: seq<byte>): Flat {
    if |batch| == 0 then flat else FlatOne(FlatApply(flat, batch[..|batch| - 1], chainID, version), batch[|batch| - 1], chainID, version)
  }

  lemma AllFaithful(k: Key, chainID: int, version: seq<byte>)
    requires k == CursorKey(chainID, version)
    ensures forall h: Hash, h': Hash :: HashKey(h) == HashKey(h') <==> h == h'
    ensures forall n: u64, n': u64 :: NumKey(n) == NumKey(n') <==> n == n'
    ensures forall h: Hash, n: u64 :: HashKey(h) != NumKey(n)
    ensures forall h: Hash :: HashKey(h) != k
    ensures forall n: u64 :: NumKey(n) != k
  {
    hide HashKey, NumKey, CursorKey;
    forall h: Hash, h': Hash ensures HashKey(h) == HashKey(h') <==> h == h' {
      KeysAreFaithful(h, h', 0, 0, chainID, version, chainID, version);
    }
    forall n: u64, n': u64 ensures NumKey(n) == NumKey(n') <==> n == n' {
      KeysAreFaithful(ZeroHash(), ZeroHash(), n, n', chainID, version, chainID, version);
    }
    forall h: Hash, n: u64 ensures HashKey(h) != NumKey(n) {
      KeysAreFaithful(h, h, n, n, chainID, version, chainID, version);
    }
    forall h: Hash ensures HashKey(h) != k {
      KeysAreFaithful(h, h, 0, 0, chainID, version, chainID, version);
    }
    forall n: u64 ensures NumKey(n) != k {
      KeysAreFaithful(ZeroHash(), ZeroHash(), n, n, chainID, version, chainID, version);
    }
  }

  lemma FlatSetInfo(flat: Flat, s: Store, h: Hash, info: Info, chainID: int, version: seq<byte>)
    requires Represents(flat, s, chainID, version)
    ensures Represents(flat[HashKey(h) := InfoValue(info)], s.(infos := s.infos[h := info]), chainID, version)
  {
    hide HashKey, NumKey, CursorKey;
    AllFaithful(CursorKey(chainID, version), chainID, version);
  }

  lemma FlatSetNum(flat: Flat, s: Store, n: u64, h: Hash, chainID: int, version: seq<byte>)
    requires Represents(flat, s, chainID, version)
    ensures Represents(flat[NumKey(n) := HashValue(h)], s.(nums := s.nums[n := h]), chainID, version)
  {
    hide HashKey, NumKey, CursorKey;
    AllFaithful(CursorKey(chainID, version), chainID, version);
  }

  lemma FlatDeleteNum(flat: Flat, s: Store, n: u64, chainID: int, version: seq<byte>)
    requires Represents(flat, s, chainID, version)
    ensures Represents(flat - {NumKey(n)}, s.(nums := s.nums - {n}), chainID, version)
  {
    hide HashKey, NumKey, CursorKey;
    AllFaithful(CursorKey(chainID, version), chainID, version);
  }

  lemma FlatStep(flat: Flat, s: Store, op: Op, chainID: int, version: seq<byte>)
    requires Represents(flat, s, chainID, version)
    ensures Represents(FlatOne(flat, op, chainID, version), ApplyOne(s, op), chainID, version)
  {
    hide HashKey, NumKey, CursorKey;
    match op
    case SetInfo(h, info) => hide Represents; FlatSetInfo(flat, s, h, info, chainID, version);
    case SetNum(n, h) => hide Represents; FlatSetNum(flat, s, n, h, chainID, version);
    case DeleteNum(n) => hide Represents; FlatDeleteNum(flat, s, n, chainID, version);
    case SetCursor(_) => AllFaithful(CursorKey(chainID, version), chainID, version);
  }

  /** A committed batch has on the flat store the effect it has on the typed one. */
  lemma {:induction false} FlatRefinesTyped(flat: Flat, s: Store, batch: seq<Op>, chainID: int, version: seq<byte>)
    requires Represents(flat, s, chainID, version)
    ensures Represents(FlatApply(flat, batch, chainID, version), Apply(s, batch), chainID, version)
  {
    hide Represents, FlatOne, ApplyOne;
    if |batch| > 0 {
      var front := batch[..|batch| - 1];
      FlatRefinesTyped(flat, s, front, chainID, version);
      FlatStep(FlatApply(flat, front, chainID, version), Apply(s, front), batch[|batch| - 1], chainID, version);
    }
  }

  /** And it leaves the cursors of all other chains and versions in the same store alone. */
  lemma {:induction false} OtherCursorsUntouched(flat: Flat, batch: seq<Op>, chainID: int, version: seq<byte>, other: int,
       otherVersion: seq<byte>)
    requires other != chainID || otherVersion != version
    ensures var k, r := CursorKey(other, otherVersion), FlatApply(flat, batch, chainID, version);
            (k in r <==> k in flat) && (k in flat ==> r[k] == flat[k])
  {
    if |batch| > 0 {
      OtherCursorsUntouched(flat, batch[..|batch| - 1], chainID, version, other, otherVersion);
      match batch[|batch| - 1]
      case SetInfo(h, info) => KeysAreFaithful(h, h, 0, 0, other, otherVersion, chainID, version);
      case SetNum(n, h) => KeysAreFaithful(h, h, n, n, other, otherVersion, chainID, version);
      case DeleteNum(n) => KeysAreFaithful(ZeroHash(), ZeroHash(), n, n, other, otherVersion, chainID, version);
      case SetCursor(c) => KeysAreFaithful(ZeroHash(), ZeroHash(), 0, 0, other, otherVersion, chainID, version);
    }
  }
}
