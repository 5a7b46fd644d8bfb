/** The parts of the Borsh binary format the `PackCard` layout uses:
    little-endian unsigned integers, 32-byte public keys, one-byte enum tags
    and `Option` values (a presence byte followed by the value). Readers take
    a byte sequence and return the value read and the bytes that remain. */
module Borsh {
  import opened Errors
  import opened SafeMath

  type Pubkey = s: seq<u8> | |s| == 32 witness seq(32, _ => 0)

  datatype Parsed<+T> = Parsed(value: T, rest: seq<u8>)

  /** 256 to the power `n`. */
  function Pow256(n: nat): (p: nat)
    ensures p > 0
  {
    if n == 0 then 1 else 256 * Pow256(n - 1)
  }

  lemma Pow256Widths()
    ensures Pow256(4) == U32_MAX + 1 && Pow256(8) == U64_MAX + 1
  {
    assert Pow256(1) == 256;
    assert Pow256(2) == 0x1_0000;
    assert Pow256(3) == 0x100_0000;
    assert Pow256(4) == 0x1_0000_0000;
    assert Pow256(5) == 0x100_0000_0000;
    assert Pow256(6) == 0x1_0000_0000_0000;
    assert Pow256(7) == 0x100_0000_0000_0000;
  }

  /** The `n`-byte little-endian encoding of `x`. */
  function LittleEndian(x: nat, n: nat): (s: seq<u8>)
    requires x < Pow256(n)
    ensures |s| == n
  {
    if n == 0 then [] else [x % 256] + LittleEndian(x / 256, n - 1)
  }

  /** The value of a little-endian byte string. */
  function FromLittleEndian(s: seq<u8>): (x: nat)
    ensures x < Pow256(|s|)
  {
    if s == [] then 0 else s[0] + 256 * FromLittleEndian(s[1..])
  }

  lemma {:induction false} LittleEndianRoundTrip(x: nat, n: nat)
    requires x < Pow256(n)
    ensures FromLittleEndian(LittleEndian(x, n)) == x
  {
    if n > 0 {
      LittleEndianRoundTrip(x / 256, n - 1);
      assert LittleEndian(x, n)[1..] == LittleEndian(x / 256, n - 1);
    }
  }

  /** Reads an `n`-byte little-endian unsigned integer. */
  function ReadUint(s: seq<u8>, n: nat): (r: Option<Parsed<nat>>)
    ensures r.Some? <==> |s| >= n
    ensures r.Some? ==> r.value.value < Pow256(n) && r.value.rest == s[n..]
  {
    if |s| >= n then Some(Parsed(FromLittleEndian(s[..n]), s[n..])) else None
  }

  lemma ReadUintWritten(x: nat, n: nat, rest: seq<u8>)
    requires x < Pow256(n)
    ensures ReadUint(LittleEndian(x, n) + rest, n) == Some(Parsed(x, rest))
  {
    var s := LittleEndian(x, n) + rest;
    assert s[..n] == LittleEndian(x, n);
    assert s[n..] == rest;
    LittleEndianRoundTrip(x, n);
  }

  /** Reads a 32-byte public key. */
  function ReadPubkey(s: seq<u8>): (r: Option<Parsed<Pubkey>>)
    ensures r.Some? <==> |s| >= 32
    ensures r.Some? ==> r.value.value == s[..32] && r.value.rest == s[32..]
  {
    if |s| >= 32 then Some(Parsed(s[..32], s[32..])) else None
  }

  lemma ReadPubkeyWritten(k: Pubkey, rest: seq<u8>)
    ensures ReadPubkey(k + rest) == Some(Parsed(k, rest))
  {
    assert (k + rest)[..32] == k;
    assert (k + rest)[32..] == rest;
  }

  /** Reads a one-byte enum tag, which must name one of `count` variants. */
  function ReadTag(s: seq<u8>, count: nat): (r: Option<Parsed<nat>>)
    ensures r.Some? <==> |s| >= 1 && s[0] < count
    ensures r.Some? ==> r.value.value == s[0] && r.value.rest == s[1..]
  {
    if |s| >= 1 && s[0] < count then Some(Parsed(s[0] as nat, s[1..])) else None
  }

  lemma ReadTagWritten(tag: u8, count: nat, rest: seq<u8>)
    requires tag < count
    ensures ReadTag([tag] + rest, count) == Some(Parsed(tag as nat, rest))
  {
    assert ([tag] + rest)[1..] == rest;
  }

  /** Encodes an `Option<u32>`: tag 0, or tag 1 followed by four bytes. */
  function WriteOptionU32(o: Option<u32>): (s: seq<u8>)
    ensures |s| == if o.Some? then 5 else 1
  {
    Pow256Widths();
    match o
    case None => [0]
    case Some(v) => [1] + LittleEndian(v, 4)
  }

  /** Reads an `Option<u32>`; any tag other than 0 and 1 is rejected. */
  function ReadOptionU32(s: seq<u8>): (r: Option<Parsed<Option<u32>>>)
  {
    var tag :- ReadTag(s, 2);
    if tag.value == 0 then
      Some(Parsed(None, tag.rest))
    else
      var v :- ReadUint(tag.rest, 4);
      Pow256Widths();
      Some(Parsed(Some(v.value as u32), v.rest))
  }

  lemma {:induction false} ReadOptionU32Written(o: Option<u32>, rest: seq<u8>)
    ensures ReadOptionU32(WriteOptionU32(o) + rest) == Some(Parsed(o, rest))
  {
    Pow256Widths();
    match o
    case None =>
      ReadTagWritten(0, 2, rest);
    case Some(v) =>
      var enc := LittleEndian(v, 4);
      assert WriteOptionU32(o) + rest == [1] + (enc + rest);
      ReadTagWritten(1, 2, enc + rest);
      ReadUintWritten(v, 4, rest);
  }
}
