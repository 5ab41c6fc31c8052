/** Bytes, and unsigned numbers in network byte order. */
module Bytes {
  type Byte = b: int | 0 <= b < 256

  /** The number of values that `width` bytes can hold. */
  function Capacity(width: nat): nat {
    if width == 0 then 1 else 256 * Capacity(width - 1)
  }

  function FromBigEndian(s: seq<Byte>): nat {
    if s == [] then 0 else 256 * FromBigEndian(s[..|s| - 1]) + s[|s| - 1]
  }

  function BigEndian(n: nat, width: nat): (s: seq<Byte>)
    ensures |s| == width
  {
    if width == 0 then [] else BigEndian(n / 256, width - 1) + [n % 256]
  }

  /** Earlier bytes count for more: what one byte adds is its value for each number the later ones can hold. */
  lemma {:induction false} PlaceValue(s: seq<Byte>, t: seq<Byte>)
    ensures FromBigEndian(s + t) == FromBigEndian(s) * Capacity(|t|) + FromBigEndian(t)
    ensures |s| == 1 ==> FromBigEndian(s) == s[0]
  {
    if t == [] {
      assert s + t == s;
    } else {
      var last := |t| - 1;
      PlaceValue(s, t[..last]);
      assert (s + t)[..|s + t| - 1] == s + t[..last];
      Distribute(FromBigEndian(s), Capacity(last), FromBigEndian(t[..last]));
    }
    if |s| == 1 {
      assert FromBigEndian(s[..0]) == 0;
    }
  }

  lemma {:induction false} Distribute(x: nat, y: nat, z: nat)
    ensures 256 * (x * y + z) == x * (256 * y) + 256 * z
  {}

  /** What two bytes stand for, the first of which is the high one. */
  function Short(hi: nat, lo: nat): nat {
    256 * hi + lo
  }

  /** What four bytes stand for. */
  function Long(a: nat, b: nat, c: nat, d: nat): nat {
    ((a * 256 + b) * 256 + c) * 256 + d
  }

  lemma {:induction false} TwoBytes(s: seq<Byte>)
    requires |s| == 2
    ensures FromBigEndian(s) == Short(s[0], s[1])
  {
    PlaceValue([s[0]], [s[1]]);
    PlaceValue([s[1]], []);
    assert s == [s[0]] + [s[1]] && Capacity(0) == 1 && Capacity(1) == 256;
  }

  lemma {:induction false} FourBytes(s: seq<Byte>)
    requires |s| == 4
    ensures FromBigEndian(s) == Long(s[0], s[1], s[2], s[3])
  {
    TwoBytes(s[..2]);
    TwoBytes(s[2..]);
    PlaceValue(s[..2], s[2..]);
    assert s == s[..2] + s[2..] && Capacity(0) == 1 && Capacity(1) == 256 && Capacity(2) == 65536;
  }

  lemma {:induction false} NumberRoundTrip(n: nat, width: nat)
    requires n < Capacity(width)
    ensures FromBigEndian(BigEndian(n, width)) == n
  {
    if width > 0 {
      NumberRoundTrip(n / 256, width - 1);
      assert BigEndian(n, width)[..width - 1] == BigEndian(n / 256, width - 1);
    }
  }

  lemma {:induction false} BytesRoundTrip(s: seq<Byte>)
    ensures FromBigEndian(s) < Capacity(|s|)
    ensures BigEndian(FromBigEndian(s), |s|) == s
  {
    if s != [] {
      var init, last := s[..|s| - 1], s[|s| - 1];
      BytesRoundTrip(init);
      assert FromBigEndian(s) / 256 == FromBigEndian(init) && FromBigEndian(s) % 256 == last;
      assert s == init + [last];
    }
  }
}
