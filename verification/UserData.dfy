/** The player's name in the connection token: an 8-byte little-endian length, the name, and
    zeros (`build_transport` in client/src/main.rs, `name_from_user_data` in
    server/src/main.rs). The buffer size, a constant of the network library, is a parameter. */
module UserData {
  import opened Types

  newtype byte = b: int | 0 <= b < 256

  function LittleEndian(n: nat, width: nat): (r: seq<byte>)
    ensures |r| == width
  {
    if width == 0 then [] else [(n % 256) as byte] + LittleEndian(n / 256, width - 1)
  }

  function FromLittleEndian(bytes: seq<byte>): nat {
    if bytes == [] then 0 else bytes[0] as nat + 256 * FromLittleEndian(bytes[1..])
  }

  function Power256(width: nat): nat {
    if width == 0 then 1 else 256 * Power256(width - 1)
  }

  lemma {:induction false} LittleEndianRoundTrip(n: nat, width: nat)
    requires n < Power256(width)
    ensures FromLittleEndian(LittleEndian(n, width)) == n
  {
    if width > 0 {
      LittleEndianRoundTrip(n / 256, width - 1);
      assert LittleEndian(n, width)[1..] == LittleEndian(n / 256, width - 1);
    }
  }

  lemma {:induction false} EightBytesHoldU64(n: U64)
    ensures FromLittleEndian(LittleEndian(n, 8)) == n
  {
    assert Power256(4) == 0x1_0000_0000;
    assert Power256(8) == 0x1_0000_0000_0000_0000;
    LittleEndianRoundTrip(n, 8);
  }

  /** The byte at position `i` counts the 256 to the power `i`: least significant first. */
  lemma {:induction false} LittleEndianDigit(n: nat, width: nat, i: nat)
    requires i < width
    ensures Power256(i) > 0 && LittleEndian(n, width)[i] as nat == n / Power256(i) % 256
    decreases i
  {
    if i > 0 {
      LittleEndianDigit(n / 256, width - 1, i - 1);
      DivideTwice(n, Power256(i - 1));
    }
  }

  lemma {:induction false} DivideTwice(n: nat, d: nat)
    requires d > 0
    ensures n / 256 / d == n / (256 * d)
  {
    var q := n / 256;
    var u := q / d;
    QuotientBounds(q, d);
    assert (256 * d) * u == 256 * (d * u);
    QuotientIs(n, 256 * d, u);
  }

  lemma {:induction false} TimesMonotone(d: nat, a: nat, b: nat)
    requires a <= b
    ensures d * a <= d * b
  {
    assert d * b == d * a + d * (b - a);
  }

  lemma {:induction false} QuotientBounds(n: nat, d: nat)
    requires d > 0
    ensures d * (n / d) <= n < d * (n / d) + d
  {
  }

  lemma {:induction false} QuotientIs(n: nat, d: nat, q: nat)
    requires d > 0 && d * q <= n < d * q + d
    ensures n / d == q
  {
    var p := n / d;
    QuotientBounds(n, d);
    if p < q {
      TimesMonotone(d, p + 1, q);
    } else if q < p {
      TimesMonotone(d, q + 1, p);
    }
  }

  /** The other way round: every sequence of bytes is the coding of the number it decodes to. */
  lemma {:induction false} BytesRoundTrip(bytes: seq<byte>)
    ensures FromLittleEndian(bytes) < Power256(|bytes|)
    ensures LittleEndian(FromLittleEndian(bytes), |bytes|) == bytes
  {
    if bytes != [] {
      BytesRoundTrip(bytes[1..]);
      var n := FromLittleEndian(bytes);
      QuotientIs(n, 256, FromLittleEndian(bytes[1..]));
      assert bytes == [bytes[0]] + bytes[1..];
    }
  }

  /** The contents of a buffer of `size` bytes for `name`, of which it holds as much as it can. */
  function Encoded(name: seq<byte>, size: U64): (r: seq<byte>)
    requires 8 <= size
    ensures |r| == size
  {
    var len := if |name| < size - 8 then |name| else size - 8;
    LittleEndian(len, 8) + name[..len] + seq(size - 8 - len, _ => 0)
  }

  /** Fills the buffer as the client does: zeros, then the length, then the name. */
  method BuildUserData(name: seq<byte>, size: U64) returns (ud: array<byte>)
    requires 8 <= size
    ensures fresh(ud) && ud.Length == size
    ensures |name| <= size - 8 ==>
              && FromLittleEndian(ud[..8]) == |name| && ud[8..8 + |name|] == name
              && forall i :: 8 + |name| <= i < size ==> ud[i] == 0
    ensures |name| > size - 8 ==>
              FromLittleEndian(ud[..8]) == size - 8 && ud[8..] == name[..size - 8]
    ensures ud[..] == Encoded(name, size)
  {
    ud := new byte[size](_ => 0);
    var len := if |name| < size - 8 then |name| else size - 8;
    var prefix := LittleEndian(len, 8);
    for i := 0 to 8
      invariant ud[..i] == prefix[..i]
      invariant forall j :: i <= j < size ==> ud[j] == 0
    {
      ud[i] := prefix[i];
    }
    for i := 0 to len
      invariant ud[..8] == prefix
      invariant ud[8..8 + i] == name[..i]
      invariant forall j :: 8 + i <= j < size ==> ud[j] == 0
    {
      ud[8 + i] := name[i];
    }
    EightBytesHoldU64(len);
    assert ud[..] == ud[..8] + ud[8..8 + len] + ud[8 + len..];
  }

  /** The server's decoder, on any buffer at all: it clamps the length that it reads, and
      never reads past the buffer. */
  function NameFromUserData(ud: seq<byte>): (name: seq<byte>)
    requires 8 <= |ud|
    ensures FromLittleEndian(ud[..8]) <= |ud| - 8 ==> name == ud[8..8 + FromLittleEndian(ud[..8])]
    ensures FromLittleEndian(ud[..8]) > |ud| - 8 ==> name == ud[8..]
  {
    var coded := FromLittleEndian(ud[..8]);
    var len := if coded < |ud| - 8 then coded else |ud| - 8;
    ud[8..8 + len]
  }

  /** Decoding what a client encoded gives the name, cut to the room in the buffer. */
  lemma {:induction false} NameRoundTrip(name: seq<byte>, size: U64)
    requires 8 <= size
    ensures |name| <= size - 8 ==> NameFromUserData(Encoded(name, size)) == name
    ensures |name| > size - 8 ==> NameFromUserData(Encoded(name, size)) == name[..size - 8]
  {
    var len := if |name| < size - 8 then |name| else size - 8;
    EightBytesHoldU64(len);
    assert Encoded(name, size)[..8] == LittleEndian(len, 8);
    assert Encoded(name, size)[8..8 + len] == name[..len];
  }
}
