/** The local hash embedding used by scripts/newsFetcher.js and services/ragService.js
    (both define the same `generateEmbedding`): a rolling hash over the text's UTF-16
    code units, spread over 50 slots by `Math.sin(hash + i) * 0.1`.

    The hash is computed with JavaScript Number arithmetic around a 32-bit shift.
    The shift applies ToInt32 (section 7.1.5 of ECMAScript 2015, ECMA-262 6th edition)
    to its operand and to its result; the addition and subtraction around it are
    not truncated. The sine is floating point and is a parameter here
    (`sinTenth(x)` stands for `Math.sin(x) * 0.1`). */
module LocalEmbedding {
  import opened Documents

  const Dimension: nat := 50
  const TwoTo31: int := 0x8000_0000
  const TwoTo32: int := 0x1_0000_0000

  /** A UTF-16 code unit, what `charCodeAt` returns. */
  type CodeUnit = x: int | 0 <= x < 0x1_0000

  /** ToInt32 on an integral Number: the unique value in [-2^31, 2^31) congruent to n modulo 2^32. */
  function ToInt32(n: int): (r: int)
    ensures -TwoTo31 <= r < TwoTo31
    ensures (r - n) % TwoTo32 == 0
  {
    var m := n % TwoTo32;
    if m >= TwoTo31 then m - TwoTo32 else m
  }

  lemma ToInt32OfInt32(n: int)
    requires -TwoTo31 <= n < TwoTo31
    ensures ToInt32(n) == n
  {
    if n < 0 {
      assert (n + TwoTo32) % TwoTo32 == n + TwoTo32;
    }
  }

  /** `x << 5`: ToInt32 of the operand, shifted, and the product brought back into 32 bits. */
  function ShiftLeft5(x: int): int {
    ToInt32(ToInt32(x) * 32)
  }

  /** Numbers congruent modulo 2^32 have the same ToInt32. */
  lemma CongruentSameInt32(a: int, b: int, k: int)
    requires a == b + k * TwoTo32
    ensures ToInt32(a) == ToInt32(b)
  {
    var ra, rb := ToInt32(a), ToInt32(b);
    var qa, qb := (ra - a) / TwoTo32, (rb - b) / TwoTo32;
    assert ra - a == qa * TwoTo32;
    assert rb - b == qb * TwoTo32;
    assert ra - rb == (qa - qb + k) * TwoTo32;
  }

  /** Shifting the truncated operand is the same as truncating the product. */
  lemma ShiftLeft5IsTruncatedProduct(x: int)
    ensures ShiftLeft5(x) == ToInt32(x * 32)
  {
    var t := ToInt32(x);
    var k := (t - x) / TwoTo32;
    assert t - x == k * TwoTo32;
    CongruentSameInt32(t * 32, x * 32, k * 32);
  }

  /** One fold step: `hash = c + ((hash << 5) - hash)`. */
  function HashStep(hash: int, c: CodeUnit): int {
    c + (ShiftLeft5(hash) - hash)
  }

  /** The hash after folding every code unit, left to right, from 0. */
  function HashOf(units: seq<CodeUnit>): int {
    if units == [] then 0 else HashStep(HashOf(units[..|units| - 1]), units[|units| - 1])
  }

  /** The code units of one character: itself, or its surrogate pair. */
  function CodeUnitsOf(c: char): (r: seq<CodeUnit>)
    ensures 1 <= |r| <= 2
    ensures c as int < 0x1_0000 ==> r == [c as int]
    ensures c as int >= 0x1_0000 ==>
              && |r| == 2
              && 0xD800 <= r[0] < 0xDC00 <= r[1] < 0xE000
              && (r[0] as int - 0xD800) * 0x400 + (r[1] as int - 0xDC00) + 0x1_0000 == c as int
  {
    var v := c as int;
    if v < 0x1_0000 then [v]
    else [0xD800 + (v - 0x1_0000) / 0x400, 0xDC00 + (v - 0x1_0000) % 0x400]
  }

  /** The UTF-16 encoding of a string: what `length` and `charCodeAt` see. */
  function Utf16(s: string): (r: seq<CodeUnit>)
    ensures |s| <= |r| <= 2 * |s|
    ensures (forall k :: 0 <= k < |s| ==> s[k] as int < 0x1_0000) ==>
              |r| == |s| && forall k :: 0 <= k < |s| ==> r[k] == s[k] as int
  {
    if s == [] then [] else CodeUnitsOf(s[0]) + Utf16(s[1..])
  }

  function TextHash(text: string): int {
    HashOf(Utf16(text))
  }

  /** Each step moves the hash by at most 2^31 + 2^16, so the Number arithmetic
      of the source stays exact (below 2^53) for texts of up to 2^20 code units,
      and the unbounded integers here compute exactly what the source computes. */
  lemma {:induction false} HashMagnitude(units: seq<CodeUnit>)
    ensures -|units| * (TwoTo31 + 0x1_0000) <= HashOf(units) <= |units| * (TwoTo31 + 0x1_0000)
  {
    if units != [] {
      var prefix := units[..|units| - 1];
      HashMagnitude(prefix);
      var h := HashOf(prefix);
      assert -TwoTo31 <= ShiftLeft5(h) < TwoTo31;
    }
  }

  lemma HashIsExact(units: seq<CodeUnit>)
    requires |units| <= 0x10_0000
    ensures -0x20_0000_0000_0000 < HashOf(units) < 0x20_0000_0000_0000
  {
    HashMagnitude(units);
  }

  /** The embedding of a text: 50 slots, slot i holding `Math.sin(hash + i) * 0.1`. */
  function EmbeddingOf(text: string, sinTenth: int -> real): (e: Vector)
    ensures |e| == Dimension
  {
    seq(Dimension, i => sinTenth(TextHash(text) + i))
  }

  /** The hash is weak: "Aa" and "BB" fold to the same value and so get the same embedding. */
  lemma DistinctTextsCanCollide(sinTenth: int -> real)
    ensures "Aa" != "BB"
    ensures EmbeddingOf("Aa", sinTenth) == EmbeddingOf("BB", sinTenth)
  {
    var aa: seq<CodeUnit> := [65, 97];
    var bb: seq<CodeUnit> := [66, 66];
    assert Utf16("Aa") == aa;
    assert Utf16("BB") == bb;
    ToInt32OfInt32(65 * 32);
    ToInt32OfInt32(66 * 32);
    ToInt32OfInt32(65);
    ToInt32OfInt32(66);
    assert HashOf(aa[..1]) == 65;
    assert HashOf(bb[..1]) == 66;
    assert ShiftLeft5(65) == 2080 && ShiftLeft5(66) == 2112;
    assert HashOf(aa) == HashStep(65, 97) == 2112;
    assert HashOf(bb) == HashStep(66, 66) == 2112;
    assert TextHash("Aa") == TextHash("BB");
  }

  /** `generateEmbedding(text)`: fold the hash, then fill the 50 slots. */
  method GenerateEmbedding(text: string, sinTenth: int -> real) returns (embedding: Vector)
    ensures embedding == EmbeddingOf(text, sinTenth)
    ensures |embedding| == Dimension
  {
    var units := Utf16(text);
    var hash := 0;
    var i := 0;
    while i < |units|
      invariant 0 <= i <= |units|
      invariant hash == HashOf(units[..i])
    {
      assert units[..i + 1][..i] == units[..i];
      hash := HashStep(hash, units[i]);
      i := i + 1;
    }
    assert units[..i] == units;
    var slots := new real[Dimension](_ => 0.0);
    var j := 0;
    while j < Dimension
      invariant 0 <= j <= Dimension
      invariant forall p :: 0 <= p < j ==> slots[p] == sinTenth(hash + p)
    {
      slots[j] := sinTenth(hash + j);
      j := j + 1;
    }
    embedding := slots[..];
    assert hash == TextHash(text);
    assert forall p :: 0 <= p < Dimension ==> embedding[p] == EmbeddingOf(text, sinTenth)[p];
  }
}
