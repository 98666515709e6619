/** frontend/src/utils/hash.js: the 31-multiplier string hash that seeds every piece of
    mock data, and the two helpers that turn it into an array element or a bounded number. */
module Hash {
  import opened JsString
  import opened Wrappers

  const TWO_31: int := 0x8000_0000
  const TWO_32: int := 0x1_0000_0000

  predicate IsInt32(x: int) {
    -TWO_31 <= x < TWO_31
  }

  /** ECMAScript ToInt32 on an integral number: its representative modulo 2^32 in
      [-2^31, 2^31). The bitwise operators `<<` and `&` apply it to their operands and result. */
  function ToInt32(x: int): (r: int)
    ensures IsInt32(r)
    ensures (x - r) % TWO_32 == 0
    ensures IsInt32(x) ==> r == x
  {
    var m := x % TWO_32;
    if m >= TWO_31 then m - TWO_32 else m
  }

  /** Numbers that agree modulo 2^32 have the same int32 value. */
  lemma ToInt32Congruent(a: int, b: int)
    requires (a - b) % TWO_32 == 0
    ensures ToInt32(a) == ToInt32(b)
  {
    var k := (a - b) / TWO_32;
    assert a == b + k * TWO_32;
    assert a % TWO_32 == b % TWO_32;
  }

  /** One pass of the loop body, operator by operator: `hash << 5` wraps to int32,
      `- hash + char` is exact (every magnitude stays far below 2^53), and `hash & hash`
      wraps the sum to int32 again. */
  function Step(hash: int, unit: int): int {
    ToInt32(ToInt32(hash * 32) - hash + unit)
  }

  /** The loop state after folding `units` from 0 (the loop invariant of `HashCode`). */
  function Fold(units: seq<int>): (h: int)
    ensures IsInt32(h)
  {
    if |units| == 0 then 0 else Step(Fold(units[..|units| - 1]), units[|units| - 1])
  }

  /** The textbook description of the hash: `h := toInt32(31 * h + c)` per code unit. */
  function Fold31(units: seq<int>): (h: int)
    ensures IsInt32(h)
  {
    if |units| == 0 then 0 else ToInt32(31 * Fold31(units[..|units| - 1]) + units[|units| - 1])
  }

  /** The shift-and-subtract step is multiplication by 31 modulo 2^32. */
  lemma StepIsTimes31(hash: int, unit: int)
    requires IsInt32(hash)
    ensures Step(hash, unit) == ToInt32(31 * hash + unit)
  {
    var shifted := ToInt32(hash * 32);
    assert (hash * 32 - shifted) % TWO_32 == 0;
    ToInt32Congruent(shifted - hash + unit, 31 * hash + unit);
  }

  /** The operator-level fold and the textbook fold agree on every input. */
  lemma {:induction false} FoldIsFold31(units: seq<int>)
    ensures Fold(units) == Fold31(units)
  {
    if |units| > 0 {
      var init := units[..|units| - 1];
      FoldIsFold31(init);
      StepIsTimes31(Fold(init), units[|units| - 1]);
    }
  }

  function Abs(x: int): nat {
    if x < 0 then -x else x
  }

  /** The value `hashCode(str)` returns: 0 for a missing or empty string, otherwise
      `Math.abs` of the int32 fold over the UTF-16 code units. */
  function HashOf(s: string): (h: nat)
    ensures h <= TWO_31
    ensures h == TWO_31 <==> s != "" && Fold(Utf16(s)) == -TWO_31
  {
    if s == "" then 0 else Abs(Fold(Utf16(s)))
  }

  /** hashCode: the loop over the code units, exactly as written. */
  method HashCode(s: string) returns (hash: nat)
    ensures hash == HashOf(s)
    ensures hash <= TWO_31
  {
    if s == "" {
      return 0;
    }
    var units := Utf16(s);
    var h := 0;
    var i := 0;
    while i < |units|
      invariant 0 <= i <= |units|
      invariant h == Fold(units[..i])
    {
      var ch := units[i];
      h := ToInt32(h * 32) - h + ch;
      h := ToInt32(h);
      assert units[..i + 1][..i] == units[..i];
      i := i + 1;
    }
    assert units[..i] == units;
    hash := Abs(h);
  }

  /** The hash is the absolute value of the textbook 31-multiplier fold. */
  lemma HashIsAbsFold31(s: string)
    requires s != ""
    ensures HashOf(s) == Abs(Fold31(Utf16(s)))
  {
    FoldIsFold31(Utf16(s));
  }

  /** The hash depends on nothing but the code units: strings JavaScript cannot tell apart
      hash alike. */
  lemma HashDependsOnCodeUnits(s: string, t: string)
    requires Utf16(s) == Utf16(t)
    ensures HashOf(s) == HashOf(t)
  {
  }

  /** The code units of "Gycxe~" fold to -2^31. */
  lemma FoldReachesMin(u: seq<int>)
    requires u == [71, 121, 99, 120, 101, 126]
    ensures Fold(u) == -TWO_31
  {
    assert u[..1][..0] == [];
    assert Fold(u[..1]) == 71;
    assert u[..2][..1] == u[..1];
    assert Fold(u[..2]) == 2322;
    assert u[..3][..2] == u[..2];
    assert Fold(u[..3]) == 72081;
    assert u[..4][..3] == u[..3];
    assert Fold(u[..4]) == 2234631;
    assert u[..5][..4] == u[..4];
    assert Fold(u[..5]) == 69273662;
    assert u[..6][..5] == u[..5];
    assert u[..6] == u;
  }

  /** The upper end 2^31 is reached: "Gycxe~" folds to -2^31, whose absolute value escapes
      the int32 range. */
  lemma HashReachesTwoTo31()
    ensures HashOf("Gycxe~") == TWO_31
  {
    assert Utf16("Gycxe~") == [71, 121, 99, 120, 101, 126];
    FoldReachesMin(Utf16("Gycxe~"));
  }

  /** JavaScript's `a % n` for a non-zero divisor: the remainder takes the sign of `a` and
      its magnitude is `|a| mod |n|`. */
  function JsRem(a: int, n: int): (r: int)
    requires n != 0
    ensures Abs(r) < Abs(n)
    ensures a >= 0 ==> r >= 0
    ensures a < 0 ==> r <= 0
    ensures a >= 0 && n > 0 ==> r == a % n
  {
    if a >= 0 then a % Abs(n) else -((-a) % Abs(n))
  }

  /** pickFromArray: the element at `(hash + offset) % array.length`, or undefined when the
      array is empty (the remainder is NaN) or the remainder is negative. */
  function PickFromArray<T>(seed: string, items: seq<T>, offset: int): (r: Option<T>)
    ensures r.Some? ==> r.value in items
    ensures |items| > 0 && offset >= 0 ==> r == Some(items[(HashOf(seed) + offset) % |items|])
    ensures |items| == 0 ==> r == None
  {
    if |items| == 0 then None
    else
      var index := JsRem(HashOf(seed) + offset, |items|);
      if index >= 0 then Some(items[index]) else None
  }

  /** hashInRange: `min + (hash + offset) % (max - min + 1)`, NaN (None) when the divisor is
      zero. A non-negative offset keeps a non-empty range's result inside it. */
  function HashInRange(seed: string, min: int, max: int, offset: int): (r: Option<int>)
    ensures r.None? <==> max - min + 1 == 0
    ensures min <= max && offset >= 0 ==> r.Some? && min <= r.value <= max
    ensures min <= max && offset >= 0 ==> r.value == min + (HashOf(seed) + offset) % (max - min + 1)
  {
    var width := max - min + 1;
    if width == 0 then None else Some(min + JsRem(HashOf(seed) + offset, width))
  }
}
