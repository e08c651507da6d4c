/** Octets and the big-endian integers that every file and frame of the broker is made of. */
module Bytes {

  type byte = b: int | 0 <= b < 256

  datatype Option<+T> = None | Some(value: T)

  const U16: nat := 0x1_0000
  const U32: nat := 0x1_0000_0000
  const U64: nat := 0x1_0000_0000_0000_0000

  function Pow256(n: nat): (p: nat)
    ensures p > 0
  {
    if n == 0 then 1 else 256 * Pow256(n - 1)
  }

  /** The low `n` octets of `v`, most significant first; higher octets are cut off. */
  function ToBE(n: nat, v: nat): (s: seq<byte>)
    ensures |s| == n
  {
    if n == 0 then [] else ToBE(n - 1, v / 256) + [v % 256]
  }

  function FromBE(s: seq<byte>): (v: nat)
    ensures v < Pow256(|s|)
  {
    if s == [] then 0 else FromBE(s[..|s| - 1]) * 256 + s[|s| - 1]
  }

  lemma Widths()
    ensures Pow256(1) == 256 && Pow256(2) == U16 && Pow256(4) == U32 && Pow256(8) == U64
  {
    assert Pow256(3) == 256 * Pow256(2);
    assert Pow256(5) == 256 * Pow256(4);
    assert Pow256(6) == 256 * Pow256(5);
    assert Pow256(7) == 256 * Pow256(6);
  }

  lemma {:induction false} FromToBE(n: nat, v: nat)
    requires v < Pow256(n)
    ensures FromBE(ToBE(n, v)) == v
  {
    if n > 0 {
      FromToBE(n - 1, v / 256);
      assert ToBE(n, v)[..n - 1] == ToBE(n - 1, v / 256);
    }
  }

  lemma {:induction false} ToFromBE(s: seq<byte>)
    ensures ToBE(|s|, FromBE(s)) == s
  {
    if s != [] {
      var init := s[..|s| - 1];
      ToFromBE(init);
      assert FromBE(s) / 256 == FromBE(init);
      assert s == init + [s[|s| - 1]];
    }
  }

  /** The octet of `v` with this many octets below it. */
  function Octet(v: nat, below: nat): byte {
    if below == 0 then v % 256 else Octet(v / 256, below - 1)
  }

  /** Most significant first: the octet at an index is the one with as many below it as follow it. */
  lemma {:induction false} OctetAt(n: nat, v: nat, i: nat)
    requires i < n
    ensures ToBE(n, v)[i] == Octet(v, n - 1 - i)
  {
    if i < n - 1 { OctetAt(n - 1, v / 256, i); }
  }

  lemma Assoc<T>(a: seq<T>, b: seq<T>, c: seq<T>)
    ensures (a + b) + c == a + (b + c)
  {
  }

  lemma Nothing<T>(s: seq<T>)
    ensures s + [] == s && [] + s == s
  {
  }

  /** Slices of what follows a position, as slices of the whole. */
  lemma Slices(buf: seq<byte>, cursor: nat, i: nat, j: nat)
    requires i <= j <= |buf| - cursor
    ensures buf[cursor..][i..j] == buf[cursor + i..cursor + j] && buf[cursor..][j..] == buf[cursor + j..]
    ensures buf[cursor..][..j] == buf[cursor..cursor + j]
  {
  }

  /** What a positioned read past the end of a file can still see. */
  function Drop(s: seq<byte>, pos: nat): (t: seq<byte>)
    ensures pos <= |s| ==> |t| == |s| - pos
    ensures pos > |s| ==> t == []
  {
    if pos <= |s| then s[pos..] else []
  }
}
