/** Byte strings and little-endian integers. */
module Bytes {
  type Byte = n: nat | n < 256
  type U32 = n: nat | n < 0x1_0000_0000

  /** The unsigned little-endian value of a byte string. */
  function LittleEndian(s: seq<Byte>): nat {
    if s == [] then 0 else s[0] + 256 * LittleEndian(s[1..])
  }

  function Field(s: seq<Byte>, offset: nat, width: nat): nat
    requires offset + width <= |s|
  {
    LittleEndian(s[offset..offset + width])
  }

  function Pack(width: nat, x: nat): (s: seq<Byte>)
    ensures |s| == width
  {
    if width == 0 then [] else [x % 256] + Pack(width - 1, x / 256)
  }

  function Range(width: nat): nat {
    if width == 0 then 1 else 256 * Range(width - 1)
  }

  lemma {:induction false} PackRoundTrip(width: nat, x: nat)
    requires x < Range(width)
    ensures LittleEndian(Pack(width, x)) == x
  {
    if width > 0 {
      PackRoundTrip(width - 1, x / 256);
      assert Pack(width, x)[1..] == Pack(width - 1, x / 256);
    }
  }

  function Zeros(n: nat): (s: seq<Byte>)
    ensures |s| == n && forall i :: 0 <= i < n ==> s[i] == 0
  {
    seq(n, i => 0)
  }

  lemma {:induction false} ZerosAreZero(s: seq<Byte>)
    requires forall i :: 0 <= i < |s| ==> s[i] == 0
    ensures LittleEndian(s) == 0
  {
    if s != [] {
      ZerosAreZero(s[1..]);
    }
  }

  /** Assignment to a slice: the buffer grows when the new bytes reach past its end. */
  function Splice(s: seq<Byte>, at: nat, bytes: seq<Byte>): (r: seq<Byte>)
    requires at <= |s|
    ensures |r| == if at + |bytes| <= |s| then |s| else at + |bytes|
    ensures forall i :: 0 <= i < at ==> r[i] == s[i]
    ensures forall i :: at <= i < at + |bytes| ==> r[i] == bytes[i - at]
    ensures forall i :: at + |bytes| <= i < |s| ==> r[i] == s[i]
  {
    s[..at] + bytes + (if at + |bytes| <= |s| then s[at + |bytes|..] else [])
  }

  lemma SpliceWritten(s: seq<Byte>, at: nat, bytes: seq<Byte>)
    requires at <= |s|
    ensures Splice(s, at, bytes)[at..at + |bytes|] == bytes
  {
  }

  lemma SpliceElsewhere(s: seq<Byte>, at: nat, bytes: seq<Byte>, lo: nat, hi: nat)
    requires at + |bytes| <= |s| && lo <= hi <= |s| && (hi <= at || at + |bytes| <= lo)
    ensures Splice(s, at, bytes)[lo..hi] == s[lo..hi]
  {
  }

  // ---------------------------------------------------------------- slices

  lemma SliceOfSlice(s: seq<Byte>, lo: nat, hi: nat, a: nat, b: nat)
    requires lo <= hi <= |s| && a <= b <= hi - lo
    ensures s[lo..hi][a..b] == s[lo + a..lo + b]
  {
    var x, y := s[lo..hi][a..b], s[lo + a..lo + b];
    forall i | 0 <= i < b - a ensures x[i] == y[i] {
      assert s[lo..hi][a + i] == s[lo + a + i];
    }
  }

  lemma SliceLeft(s: seq<Byte>, t: seq<Byte>, lo: nat, hi: nat)
    requires lo <= hi <= |s|
    ensures (s + t)[lo..hi] == s[lo..hi]
  {
  }

  lemma SliceRight(s: seq<Byte>, t: seq<Byte>, lo: nat, hi: nat)
    requires |s| <= lo <= hi <= |s| + |t|
    ensures (s + t)[lo..hi] == t[lo - |s|..hi - |s|]
  {
  }

  function Four(a: seq<Byte>, b: seq<Byte>, c: seq<Byte>, d: seq<Byte>): seq<Byte> {
    a + b + c + d
  }

  lemma FourParts(a: seq<Byte>, b: seq<Byte>, c: seq<Byte>, d: seq<Byte>)
    ensures
      var s := Four(a, b, c, d);
      && |s| == |a| + |b| + |c| + |d|
      && s[0..|a|] == a
      && s[|a|..|a| + |b|] == b
      && s[|a| + |b|..|a| + |b| + |c|] == c
      && s[|a| + |b| + |c|..|a| + |b| + |c| + |d|] == d
  {
  }
}
