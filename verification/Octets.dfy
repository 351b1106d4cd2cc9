/** Raw bytes, and the numbers that runs of them spell in either byte order. */
module Octets {
  import opened Decimal

  newtype Octet = x: int | 0 <= x < 256

  function Power(n: nat): (p: nat)
    ensures p > 0
  {
    if n == 0 then 1 else 256 * Power(n - 1)
  }

  function LittleEndian(bytes: seq<Octet>): nat {
    if bytes == [] then 0 else bytes[0] as nat + 256 * LittleEndian(bytes[1..])
  }

  function BigEndian(bytes: seq<Octet>): nat {
    if bytes == [] then 0 else 256 * BigEndian(bytes[..|bytes| - 1]) + bytes[|bytes| - 1] as nat
  }

  function ToLittleEndian(n: nat, width: nat): (bytes: seq<Octet>)
    ensures |bytes| == width
    decreases width
  {
    if width == 0 then [] else [(n % 256) as Octet] + ToLittleEndian(n / 256, width - 1)
  }

  function ToBigEndian(n: nat, width: nat): (bytes: seq<Octet>)
    ensures |bytes| == width
    decreases width
  {
    if width == 0 then [] else ToBigEndian(n / 256, width - 1) + [(n % 256) as Octet]
  }

  lemma {:induction false} LittleEndianRoundTrip(n: nat, width: nat)
    requires n < Power(width)
    ensures LittleEndian(ToLittleEndian(n, width)) == n
    decreases width
  {
    if width > 0 {
      LittleEndianRoundTrip(n / 256, width - 1);
    }
  }

  lemma {:induction false} BigEndianRoundTrip(n: nat, width: nat)
    requires n < Power(width)
    ensures BigEndian(ToBigEndian(n, width)) == n
    decreases width
  {
    if width > 0 {
      BigEndianRoundTrip(n / 256, width - 1);
      assert ToBigEndian(n, width)[..width - 1] == ToBigEndian(n / 256, width - 1);
    }
  }

  lemma {:induction false} LittleEndianSpells(bytes: seq<Octet>)
    ensures LittleEndian(bytes) < Power(|bytes|)
    ensures ToLittleEndian(LittleEndian(bytes), |bytes|) == bytes
    decreases |bytes|
  {
    if bytes != [] {
      LittleEndianSpells(bytes[1..]);
      var rest := LittleEndian(bytes[1..]);
      assert LittleEndian(bytes) / 256 == rest && LittleEndian(bytes) % 256 == bytes[0] as nat;
    }
  }

  lemma {:induction false} BigEndianSpells(bytes: seq<Octet>)
    ensures BigEndian(bytes) < Power(|bytes|)
    ensures ToBigEndian(BigEndian(bytes), |bytes|) == bytes
    decreases |bytes|
  {
    if bytes != [] {
      var front := bytes[..|bytes| - 1];
      BigEndianSpells(front);
      assert BigEndian(bytes) / 256 == BigEndian(front) && BigEndian(bytes) % 256 == bytes[|bytes| - 1] as nat;
    }
  }

  /** One more byte of a little-endian number counts for the next power. */
  lemma {:induction false} LittleEndianNext(bytes: seq<Octet>, i: nat)
    requires i < |bytes|
    ensures LittleEndian(bytes[..i + 1]) == LittleEndian(bytes[..i]) + bytes[i] as nat * Power(i)
    decreases |bytes|
  {
    if i == 0 {
      assert bytes[..1][1..] == [];
    } else {
      LittleEndianNext(bytes[1..], i - 1);
      assert bytes[..i + 1][1..] == bytes[1..][..i];
      assert bytes[..i][1..] == bytes[1..][..i - 1];
      PlaceShifts(bytes[i] as nat, Power(i - 1));
    }
  }

  lemma PlaceShifts(x: nat, p: nat)
    ensures 256 * (x * p) == x * (256 * p)
  {
  }

  /** A little-endian number, as the loop that shifts each byte into place finds it. */
  method SumLittleEndian(bytes: seq<Octet>) returns (result: nat)
    ensures result == LittleEndian(bytes)
  {
    result := 0;
    var unit := 1;
    for i := 0 to |bytes|
      invariant result == LittleEndian(bytes[..i])
      invariant unit == Power(i)
    {
      LittleEndianNext(bytes, i);
      result := result + bytes[i] as nat * unit;
      unit := unit * 256;
    }
    assert bytes[..|bytes|] == bytes;
  }

  /** A big-endian number, as the loop that shifts the sum and adds each byte finds it. */
  method SumBigEndian(bytes: seq<Octet>) returns (result: nat)
    ensures result == BigEndian(bytes)
  {
    result := 0;
    for i := 0 to |bytes|
      invariant result == BigEndian(bytes[..i])
    {
      assert bytes[..i + 1][..i] == bytes[..i];
      result := 256 * result + bytes[i] as nat;
    }
    assert bytes[..|bytes|] == bytes;
  }

  /* ---------- Two's complement ---------- */

  /** The signed number with the given unsigned pattern. */
  function Signed(pattern: nat, width: nat): (n: int)
    requires pattern < Power(width)
  {
    if 2 * pattern < Power(width) then pattern else pattern - Power(width)
  }

  function Pattern(n: int, width: nat): (pattern: nat)
    requires -(Power(width) as int) <= 2 * n < Power(width)
    ensures pattern < Power(width)
  {
    if n >= 0 then n else n + Power(width)
  }

  lemma SignedRoundTrip(n: int, pattern: nat, width: nat)
    requires width > 0
    requires -(Power(width) as int) <= 2 * n < Power(width) && pattern < Power(width)
    ensures Signed(Pattern(n, width), width) == n
    ensures -(Power(width) as int) <= 2 * Signed(pattern, width) < Power(width)
    ensures Pattern(Signed(pattern, width), width) == pattern
  {
  }

  /* ---------- Text ---------- */

  function Text(bytes: seq<Octet>): (text: Bytes)
    ensures |text| == |bytes|
  {
    seq(|bytes|, i requires 0 <= i < |bytes| => bytes[i] as int as char)
  }
}
