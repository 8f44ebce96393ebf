/** The Borsh layout of a bonding-curve account (src/crypto/onchain.py): after an eight-byte
    discriminator come five little-endian u64 fields, a flag, a 32-byte creator key and a flag. */
module BondingCurve {
  import opened Base58
  import opened Models
  import opened Positional

  type Bytes = seq<Byte>

  const U64_LIMIT: int := 0x1_0000_0000_0000_0000

  datatype Curve = Curve(
    virtualToken: int, virtualQuote: int, realToken: int, realQuote: int, supply: int,
    complete: bool, creator: Option<Bytes>, mayhem: bool)

  // -- little-endian integers -------------------------------------------------------------

  function LittleEndian(value: nat, width: nat): (s: Bytes)
    ensures |s| == width
  {
    if width == 0 then [] else [value % 256] + LittleEndian(value / 256, width - 1)
  }

  function FromLittleEndian(s: Bytes): nat {
    if s == [] then 0 else s[0] + 256 * FromLittleEndian(s[1..])
  }

  function Pow256(n: nat): nat {
    if n == 0 then 1 else 256 * Pow256(n - 1)
  }

  lemma {:induction false} DecodeLittleEndian(value: nat, width: nat)
    requires value < Pow256(width)
    ensures FromLittleEndian(LittleEndian(value, width)) == value
  {
    if width > 0 {
      DecodeLittleEndian(value / 256, width - 1);
      assert LittleEndian(value, width)[1..] == LittleEndian(value / 256, width - 1);
    }
  }

  lemma {:induction false} EncodeLittleEndian(s: Bytes)
    ensures FromLittleEndian(s) < Pow256(|s|)
    ensures LittleEndian(FromLittleEndian(s), |s|) == s
  {
    if s != [] {
      EncodeLittleEndian(s[1..]);
      DivModUnique(FromLittleEndian(s[1..]), s[0], 256);
      assert s == [s[0]] + s[1..];
    }
  }

  lemma U64LimitIsPow()
    ensures Pow256(8) == U64_LIMIT
  {
    assert Pow256(4) == 0x1_0000_0000;
  }

  function U64Le(value: int): Result<Bytes> {
    if value < 0 then Error("u64 cannot be negative")
    else if value >= U64_LIMIT then Error("int too big to convert")
    else Ok(LittleEndian(value, 8))
  }

  /** Byte k of the layout weighs 256 to the k: the encoding is the little-endian one, byte by byte. */
  lemma {:induction false} LittleEndianByte(value: nat, width: nat, k: nat)
    requires k < width
    ensures Pow256(k) > 0
    ensures LittleEndian(value, width)[k] == (value / Pow256(k)) % 256
  {
    Pow256Positive(k);
    if k > 0 {
      LittleEndianByte(value / 256, width - 1, k - 1);
      DivDiv(value, Pow256(k - 1));
    }
  }

  lemma {:induction false} Pow256Positive(n: nat)
    ensures Pow256(n) > 0
  {
    if n > 0 {
      Pow256Positive(n - 1);
    }
  }

  lemma DivDiv(v: nat, p: nat)
    requires p > 0
    ensures v / 256 / p == v / (256 * p)
  {
    var q := v / 256;
    var r := q / p;
    assert q == r * p + q % p && v == 256 * q + v % 256;
    var rest := 256 * (q % p) + v % 256;
    assert v == r * (256 * p) + rest && 0 <= rest < 256 * p;
    DivModUnique(r, rest, 256 * p);
  }

  /** Exactly the values from 0 to 2^64 - 1 have eight bytes, byte `i` holds the value's digit for 256^i,
      and reading the bytes back gives the value. */
  lemma U64LeBytes(value: int, i: nat)
    requires i < 8
    ensures U64Le(value).Ok? <==> IsU64(value)
    ensures U64Le(value).Ok? ==>
              var s := U64Le(value).value;
              && |s| == 8 && FromLittleEndian(s) == value
              && Pow256(i) > 0 && s[i] == value / Pow256(i) % 256
  {
    if IsU64(value) {
      U64LimitIsPow();
      DecodeLittleEndian(value, 8);
      LittleEndianByte(value, 8, i);
    }
  }

  // -- the account ---------------------------------------------------------------------------

  predicate IsU64(v: int) {
    0 <= v < U64_LIMIT
  }

  predicate FieldsInRange(c: Curve) {
    IsU64(c.virtualToken) && IsU64(c.virtualQuote) && IsU64(c.realToken) && IsU64(c.realQuote) && IsU64(c.supply)
  }

  function Words(c: Curve): (ws: seq<nat>)
    requires FieldsInRange(c)
    ensures |ws| == 5
  {
    [c.virtualToken, c.virtualQuote, c.realToken, c.realQuote, c.supply]
  }

  function Flag(b: bool): Bytes {
    [if b then 1 else 0]
  }

  /** Consecutive u64 words, little-endian each. */
  function PackWords(ws: seq<nat>): (s: Bytes)
    ensures |s| == 8 * |ws|
  {
    if ws == [] then [] else LittleEndian(ws[0], 8) + PackWords(ws[1..])
  }

  function UnpackWords(s: Bytes): (ws: seq<nat>)
    ensures |ws| == |s| / 8
  {
    if |s| < 8 then [] else [FromLittleEndian(s[..8])] + UnpackWords(s[8..])
  }

  lemma {:induction false} UnpackPacked(ws: seq<nat>)
    requires forall i :: 0 <= i < |ws| ==> IsU64(ws[i])
    ensures UnpackWords(PackWords(ws)) == ws
  {
    if ws != [] {
      U64LimitIsPow();
      DecodeLittleEndian(ws[0], 8);
      UnpackPacked(ws[1..]);
      assert PackWords(ws)[..8] == LittleEndian(ws[0], 8) && PackWords(ws)[8..] == PackWords(ws[1..]);
    }
  }

  lemma {:induction false} PackUnpacked(s: Bytes)
    requires |s| % 8 == 0
    ensures forall w :: w in UnpackWords(s) ==> IsU64(w)
    ensures PackWords(UnpackWords(s)) == s
  {
    if s != [] {
      U64LimitIsPow();
      EncodeLittleEndian(s[..8]);
      PackUnpacked(s[8..]);
      assert UnpackWords(s)[1..] == UnpackWords(s[8..]);
      assert s == s[..8] + s[8..];
    }
  }

  function Pack(c: Curve): Result<Bytes> {
    if !FieldsInRange(c) then Error("argument out of range")
    else
      Ok(Zeros(8) + PackWords(Words(c)) + Flag(c.complete)
         + (if c.creator.Some? then c.creator.value else Zeros(32)) + Flag(c.mayhem))
  }

  predicate AllZero(s: Bytes) {
    forall i :: 0 <= i < |s| ==> s[i] == 0
  }

  function Parse(data: Bytes): Result<Curve> {
    if |data| < 49 then Error("bonding curve account too short")
    else
      var creator := if |data| >= 81 && !AllZero(data[49..81]) then Some(data[49..81]) else None;
      var mayhem := |data| >= 82 && data[81] != 0;
      var ws := UnpackWords(data[8..48]);
      Ok(Curve(ws[0], ws[1], ws[2], ws[3], ws[4], data[48] != 0, creator, mayhem))
  }

  /** What a creator key becomes once packed: the all-zero key is the same as none. */
  function Seen(creator: Option<Bytes>): Option<Bytes> {
    if creator.Some? && !AllZero(creator.value) then creator else None
  }

  /** Parsing what was packed returns the same fields, flags and creator. */
  lemma ParsePack(c: Curve)
    requires FieldsInRange(c) && (c.creator.Some? ==> |c.creator.value| == 32)
    ensures Pack(c).Ok? && |Pack(c).value| == 82
    ensures Parse(Pack(c).value) == Ok(c.(creator := Seen(c.creator)))
  {
    var tail := Flag(c.complete) + (if c.creator.Some? then c.creator.value else Zeros(32)) + Flag(c.mayhem);
    var data := Pack(c).value;
    var words := PackWords(Words(c));
    assert data == Zeros(8) + words + tail;
    assert data[8..48] == words;
    UnpackPacked(Words(c));
    hide PackWords, UnpackWords;
    assert data[48..] == tail;
    assert data[48] == tail[0] && data[81] == tail[33] && data[49..81] == tail[1..33];
  }

  /** A full-length account written in canonical form is reproduced byte for byte. */
  lemma PackParse(data: Bytes)
    requires |data| == 82 && AllZero(data[..8]) && data[48] <= 1 && data[81] <= 1
    ensures Parse(data).Ok? && Pack(Parse(data).value) == Ok(data)
  {
    var c := Parse(data).value;
    PackUnpacked(data[8..48]);
    assert UnpackWords(data[8..48]) == Words(c);
    assert data[..8] == Zeros(8);
    assert (if c.creator.Some? then c.creator.value else Zeros(32)) == data[49..81];
    Pieces(data);
  }

  lemma Pieces(data: Bytes)
    requires |data| == 82
    ensures data == data[..8] + data[8..48] + [data[48]] + data[49..81] + [data[81]]
  {
  }
}
