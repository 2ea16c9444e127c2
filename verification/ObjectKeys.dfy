/** Names of the validation objects in the bucket. */
module ObjectKeys {
  import opened Types
  import opened Text

  /** With a version the name carries it. */
  datatype Config = Config(chainID: int, version: string, versionMode: bool)

  function HashText(h: Hash): (r: string)
    ensures SlashFree(r)
  {
    "0x" + Hex(h.bytes)
  }

  function Prefix(c: Config, height: u64): string {
    if c.versionMode then Decimal(c.chainID) + "/" + (c.version + "/" + (Decimal(height) + "/"))
    else Decimal(c.chainID) + "/" + (Decimal(height) + "/")
  }

  function Key(c: Config, height: u64, hash: Hash): string {
    if c.versionMode then Decimal(c.chainID) + "/" + (c.version + "/" + (Decimal(height) + "/" + HashText(hash)))
    else Decimal(c.chainID) + "/" + (Decimal(height) + "/" + HashText(hash))
  }

  function HashFromKey(c: Config, key: string): Option<string> {
    var parts := Split(key);
    if c.versionMode then if |parts| != 4 then None else Some(parts[3])
    else if |parts| != 3 then None else Some(parts[2])
  }

  lemma HashTextInjective(a: Hash, b: Hash)
    requires HashText(a) == HashText(b)
    ensures a == b
  {
    assert HashText(a)[2..] == Hex(a.bytes) && HashText(b)[2..] == Hex(b.bytes);
    HexInjective(a.bytes, b.bytes);
  }

  /** Reading a name back gives its hash exactly when the version, if it is part of the name, has no
      slash; otherwise no hash is read at all. */
  lemma KeyRoundTrip(c: Config, height: u64, hash: Hash)
    ensures HashFromKey(c, Key(c, height, hash)) ==
            if c.versionMode && !SlashFree(c.version) then None else Some(HashText(hash))
  {
    var tail := Decimal(height) + "/" + HashText(hash);
    SplitFirst(HashText(hash), "");
    SplitFirst(Decimal(height), HashText(hash));
    if c.versionMode {
      SplitFirst(Decimal(c.chainID), c.version + "/" + tail);
      SplitGrows(c.version, tail);
      if SlashFree(c.version) { SplitFirst(c.version, tail); }
    } else {
      SplitFirst(Decimal(c.chainID), tail);
    }
  }

  /** A listing by prefix finds exactly the objects of its height, whatever the version holds. */
  lemma PrefixIffHeight(c: Config, listed: u64, height: u64, hash: Hash)
    ensures Prefix(c, listed) <= Key(c, height, hash) <==> listed == height
  {
    var p := Decimal(c.chainID) + "/" + if c.versionMode then c.version + "/" else "";
    var s, t := Decimal(listed) + "/", Decimal(height) + "/" + HashText(hash);
    assert Prefix(c, listed) == p + s && Key(c, height, hash) == p + t;
    CutPrefix(p, s, t);
    if s <= t {
      assert s == Decimal(listed) + "/" + "";
      CutAtSlash(Decimal(listed), Decimal(height), "", HashText(hash));
      DecimalInjective(listed, height);
    }
    if listed == height { assert t[..|s|] == s; }
  }

  /** Different blocks have different names. */
  lemma KeyInjective(c: Config, height: u64, hash: Hash, height': u64, hash': Hash)
    requires Key(c, height, hash) == Key(c, height', hash')
    ensures height == height' && hash == hash'
  {
    PrefixIffHeight(c, height, height, hash);
    PrefixIffHeight(c, height, height', hash');
    var p := Prefix(c, height);
    assert Key(c, height, hash) == p + HashText(hash) && Key(c, height, hash') == p + HashText(hash');
    CutPrefix(p, HashText(hash), HashText(hash'));
    HashTextInjective(hash, hash');
  }

  /** No name belongs to two heights. */
  lemma PrefixesDisjoint(c: Config, a: u64, b: u64, key: string)
    requires Prefix(c, a) <= key && Prefix(c, b) <= key
    ensures a == b
  {
    if |Prefix(c, a)| <= |Prefix(c, b)| { PrefixInPrefix(c, a, b, key); } else { PrefixInPrefix(c, b, a, key); }
  }

  lemma PrefixInPrefix(c: Config, a: u64, b: u64, key: string)
    requires Prefix(c, a) <= key && Prefix(c, b) <= key && |Prefix(c, a)| <= |Prefix(c, b)|
    ensures a == b
  {
    var p := Decimal(c.chainID) + "/" + if c.versionMode then c.version + "/" else "";
    var s, t := Decimal(a) + "/" + "", Decimal(b) + "/" + "";
    assert Prefix(c, a) == p + s && Prefix(c, b) == p + t;
    assert p + s <= p + t by { assert key[..|p + t|][..|p + s|] == key[..|p + s|]; }
    CutPrefix(p, s, t);
    CutAtSlash(Decimal(a), Decimal(b), "", "");
    DecimalInjective(a, b);
  }
}
