/**
 * The identifiers `Diagram.generateUniqueId` draws: a random integer below 36^9 written in base 36
 * with upper-case letters and padded on the left with '0' to nine characters.
 */
module Ids {

  /** Number of characters of a generated id. */
  const IdLength: nat := 9

  /** Base of the encoding. */
  const Radix: nat := 36

  /** Number of distinct ids: 36^9. */
  const IdSpace: nat := 101559956668416

  function Pow(base: nat, exponent: nat): nat {
    if exponent == 0 then 1 else base * Pow(base, exponent - 1)
  }

  lemma IdSpaceIsPow()
    ensures IdSpace == Pow(Radix, IdLength)
  {
    assert Pow(Radix, 3) == 46656;
    assert Pow(Radix, 6) == 2176782336 by { assert Pow(Radix, 6) == Radix * Radix * Radix * Pow(Radix, 3); }
    assert Pow(Radix, 9) == Radix * Radix * Radix * Pow(Radix, 6);
  }

  /** A character `toString(36).toUpperCase()` can produce. */
  predicate IsBase36Digit(c: char) {
    '0' <= c <= '9' || 'A' <= c <= 'Z'
  }

  /** The shape of every generated id: nine base-36 digits. */
  predicate IsGeneratedId(s: string) {
    |s| == IdLength && forall i :: 0 <= i < |s| ==> IsBase36Digit(s[i])
  }

  /** The upper-case digit for `d < 36`. */
  function DigitChar(d: nat): (c: char)
    requires d < Radix
    ensures IsBase36Digit(c)
  {
    if d < 10 then ('0' as int + d) as char else ('A' as int + d - 10) as char
  }

  /** The value of a base-36 digit. */
  function DigitValue(c: char): (d: nat)
    requires IsBase36Digit(c)
    ensures d < Radix
  {
    if c <= '9' then c as int - '0' as int else c as int - 'A' as int + 10
  }

  lemma DigitRoundTrip(d: nat)
    requires d < Radix
    ensures DigitValue(DigitChar(d)) == d
  {
  }

  /** `n.toString(36).toUpperCase().padStart(width, '0')`, for `n` below 36^width. */
  function Encode(n: nat, width: nat): (s: string)
    ensures |s| == width
    ensures forall i :: 0 <= i < |s| ==> IsBase36Digit(s[i])
  {
    if width == 0 then "" else Encode(n / Radix, width - 1) + [DigitChar(n % Radix)]
  }

  /** The number a string of base-36 digits denotes. */
  function Decode(s: string): nat
    requires forall i :: 0 <= i < |s| ==> IsBase36Digit(s[i])
  {
    if s == [] then 0 else Decode(s[..|s| - 1]) * Radix + DigitValue(s[|s| - 1])
  }

  /** Decoding an encoded number gives it back when it fits in `width` digits. */
  lemma {:induction false} DecodeEncode(n: nat, width: nat)
    requires n < Pow(Radix, width)
    ensures Decode(Encode(n, width)) == n
  {
    if width > 0 {
      var s := Encode(n, width);
      assert s[..|s| - 1] == Encode(n / Radix, width - 1);
      assert n / Radix < Pow(Radix, width - 1);
      DecodeEncode(n / Radix, width - 1);
      DigitRoundTrip(n % Radix);
    }
  }

  /** Two distinct numbers below 36^9 never give the same id. */
  lemma EncodeDistinct(a: nat, b: nat)
    requires a < IdSpace && b < IdSpace && a != b
    ensures Encode(a, IdLength) != Encode(b, IdLength)
  {
    IdSpaceIsPow();
    DecodeEncode(a, IdLength);
    DecodeEncode(b, IdLength);
  }

  /**
   * Pigeonhole: a set of fewer than `m` strings misses the id of some number below `m`, so the
   * retry loop of `generateUniqueId` has a draw that succeeds whenever fewer than 36^9 ids are taken.
   */
  lemma {:induction false} FreeIdBelow(used: set<string>, m: nat)
    requires m <= IdSpace
    requires |used| < m
    ensures exists n: nat :: n < m && Encode(n, IdLength) !in used
  {
    var top := Encode(m - 1, IdLength);
    if top in used {
      FreeIdBelow(used - {top}, m - 1);
      var n: nat :| n < m - 1 && Encode(n, IdLength) !in used - {top};
      EncodeDistinct(n, m - 1);
      assert Encode(n, IdLength) !in used;
    } else {
      assert Encode(m - 1, IdLength) !in used;
    }
  }
}
