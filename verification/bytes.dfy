/** Bytes as Python's `bytes` holds them, and the big-endian integers packed into them. */
module Bytes {
  type Byte = b: int | 0 <= b < 256

  function Zeros(n: nat): (z: seq<Byte>)
    ensures |z| == n && forall i :: 0 <= i < n ==> z[i] == 0
  {
    seq(n, _ => 0)
  }

  // ----- big-endian integers -----------------------------------------------------------

  function Pow256(n: nat): (p: nat)
    ensures p >= 1
  {
    if n == 0 then 1 else 256 * Pow256(n - 1)
  }

  /** The number that bytes spell, most significant first. */
  function FromBig(s: seq<Byte>): nat {
    if s == [] then 0 else 256 * FromBig(s[..|s| - 1]) + s[|s| - 1]
  }

  /** The last `width` bytes of a number, most significant first: all of it, if it fits. */
  function ToBig(v: nat, width: nat): (s: seq<Byte>)
    ensures |s| == width
  {
    if width == 0 then [] else ToBig(v / 256, width - 1) + [v % 256]
  }

  lemma {:induction false} FromToBig(v: nat, width: nat)
    requires v < Pow256(width)
    ensures FromBig(ToBig(v, width)) == v
  {
    if width > 0 {
      FromToBig(v / 256, width - 1);
      assert ToBig(v, width)[..width - 1] == ToBig(v / 256, width - 1);
    }
  }

  lemma {:induction false} ToFromBig(s: seq<Byte>)
    ensures FromBig(s) < Pow256(|s|) && ToBig(FromBig(s), |s|) == s
  {
    if s != [] {
      ToFromBig(s[..|s| - 1]);
      assert s == s[..|s| - 1] + [s[|s| - 1]];
    }
  }

  /** Two, three and four bytes, most significant first. */
  lemma BigIs(a: Byte, b: Byte, c: Byte, d: Byte)
    ensures FromBig([a, b]) == 256 * a + b && FromBig([a, b, c]) == 65536 * a + 256 * b + c
    ensures FromBig([a, b, c, d]) == 16777216 * a + 65536 * b + 256 * c + d
  {
    assert [a, b, c, d][..3] == [a, b, c] && [a, b, c][..2] == [a, b] && [a, b][..1] == [a] && [a][..0] == [];
    assert FromBig([a]) == a;
  }
}
