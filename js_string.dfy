/** The JavaScript String and Number built-ins the app relies on, over Dafny strings
    (sequences of Unicode scalar values). JavaScript strings are sequences of UTF-16 code
    units; `Utf16` gives that view where the app looks at it (`length`, `charCodeAt`). */
module JsString {

  // ---------------------------------------------------------------------------
  // UTF-16 view
  // ---------------------------------------------------------------------------

  /** The UTF-16 code units of one character: one unit below U+10000, a surrogate pair above. */
  function CodeUnits(c: char): (u: seq<int>)
    ensures 1 <= |u| <= 2
    ensures forall i :: 0 <= i < |u| ==> 0 <= u[i] < 0x1_0000
    ensures |u| == 1 <==> c as int < 0x1_0000
  {
    var v := c as int;
    if v < 0x1_0000 then [v]
    else [0xD800 + (v - 0x1_0000) / 0x400, 0xDC00 + (v - 0x1_0000) % 0x400]
  }

  /** The code units JavaScript sees for `s`. */
  function Utf16(s: string): (u: seq<int>)
    ensures |s| <= |u| <= 2 * |s|
    ensures forall i :: 0 <= i < |u| ==> 0 <= u[i] < 0x1_0000
  {
    if |s| == 0 then [] else CodeUnits(s[0]) + Utf16(s[1..])
  }

  /** JavaScript's `s.length`. */
  function Length(s: string): nat {
    |Utf16(s)|
  }

  // ---------------------------------------------------------------------------
  // Whitespace and trimming
  // ---------------------------------------------------------------------------

  /** ECMAScript WhiteSpace and LineTerminator code points: what `\s` matches and `trim` removes. */
  predicate IsJsSpace(c: char) {
    c == '\t' || c == '\n' || c == '\U{000B}' || c == '\U{000C}' || c == '\r' || c == ' '
    || c == '\U{00A0}' || c == '\U{1680}' || ('\U{2000}' <= c <= '\U{200A}')
    || c == '\U{2028}' || c == '\U{2029}' || c == '\U{202F}' || c == '\U{205F}'
    || c == '\U{3000}' || c == '\U{FEFF}'
  }

  /** `s` without its leading whitespace. */
  function TrimStart(s: string): (r: string)
    ensures |r| <= |s| && r == s[|s| - |r|..]
    ensures |r| > 0 ==> !IsJsSpace(r[0])
    ensures forall i :: 0 <= i < |s| - |r| ==> IsJsSpace(s[i])
  {
    if |s| > 0 && IsJsSpace(s[0]) then TrimStart(s[1..]) else s
  }

  /** `s` without its trailing whitespace. */
  function TrimEnd(s: string): (r: string)
    ensures |r| <= |s| && r == s[..|r|]
    ensures |r| > 0 ==> !IsJsSpace(r[|r| - 1])
    ensures forall i :: |r| <= i < |s| ==> IsJsSpace(s[i])
  {
    if |s| > 0 && IsJsSpace(s[|s| - 1]) then TrimEnd(s[..|s| - 1]) else s
  }

  /** JavaScript's `s.trim()`. */
  function Trim(s: string): (r: string)
    ensures |r| > 0 ==> !IsJsSpace(r[0]) && !IsJsSpace(r[|r| - 1])
  {
    TrimEnd(TrimStart(s))
  }

  // ---------------------------------------------------------------------------
  // split and join
  // ---------------------------------------------------------------------------

  /** JavaScript's `s.split(sep)` for a one-character separator: the maximal runs
      between separators, including empty ones. */
  function Split(s: string, sep: char): (parts: seq<string>)
    ensures |parts| >= 1
    ensures forall i :: 0 <= i < |parts| ==> sep !in parts[i]
  {
    if |s| == 0 then [""]
    else
      var rest := Split(s[1..], sep);
      if s[0] == sep then [""] + rest
      else [[s[0]] + rest[0]] + rest[1..]
  }

  /** JavaScript's `parts.join(sep)`. */
  function Join(parts: seq<string>, sep: string): (r: string)
    ensures |parts| == 0 ==> r == ""
    ensures |parts| > 0 ==> |r| >= |parts[0]| && r[..|parts[0]|] == parts[0]
  {
    if |parts| == 0 then ""
    else if |parts| == 1 then parts[0]
    else parts[0] + sep + Join(parts[1..], sep)
  }

  /** Joining one part gives that part. */
  lemma JoinSingle(x: string, sep: string)
    ensures Join([x], sep) == x
  {
  }

  /** Joining two non-empty lists of parts puts one separator between their joins: with
      JoinSingle this fixes every part of a join and every separator between them. */
  lemma {:induction false} JoinAppend(a: seq<string>, b: seq<string>, sep: string)
    requires |a| > 0 && |b| > 0
    ensures Join(a + b, sep) == Join(a, sep) + sep + Join(b, sep)
  {
    assert (a + b)[0] == a[0];
    assert (a + b)[1..] == a[1..] + b;
    if |a| > 1 {
      JoinAppend(a[1..], b, sep);
    }
  }

  /** Joining three parts puts the separator between each neighbouring pair. */
  lemma JoinThree(a: string, b: string, c: string, sep: string)
    ensures Join([a, b, c], sep) == a + sep + b + sep + c
  {
    assert [a, b, c][1..] == [b, c];
    assert [b, c][1..] == [c];
    assert Join([b, c], sep) == b + sep + c;
    assert Join([a, b, c], sep) == a + sep + (b + sep + c);
    assert a + sep + (b + sep + c) == a + sep + b + sep + c;
  }

  /** Splitting on a character and joining with that character gives back the string. */
  lemma {:induction false} SplitJoin(s: string, sep: char)
    ensures Join(Split(s, sep), [sep]) == s
  {
    if |s| > 0 {
      var rest := Split(s[1..], sep);
      SplitJoin(s[1..], sep);
      if s[0] == sep {
        assert Split(s, sep) == [""] + rest;
        assert ([""] + rest)[1..] == rest;
      } else {
        var parts := [[s[0]] + rest[0]] + rest[1..];
        assert Split(s, sep) == parts;
        if |rest| > 1 {
          assert parts[1..] == rest[1..];
          assert Join(rest, [sep]) == rest[0] + [sep] + Join(rest[1..], [sep]);
        }
      }
    }
  }

  /** Without a separator the whole string is the one part. */
  lemma {:induction false} SplitNoSep(s: string, sep: char)
    requires sep !in s
    ensures Split(s, sep) == [s]
  {
    if |s| > 0 {
      SplitNoSep(s[1..], sep);
      assert [s[0]] + s[1..] == s;
    }
  }

  /** Splitting text joined by one separator splits each side. */
  lemma {:induction false} SplitAppend(a: string, b: string, sep: char)
    ensures Split(a + [sep] + b, sep) == Split(a, sep) + Split(b, sep)
  {
    if |a| == 0 {
      assert a + [sep] + b == [sep] + b;
      SplitCons(sep, b, sep);
    } else {
      assert a + [sep] + b == [a[0]] + (a[1..] + [sep] + b);
      assert a == [a[0]] + a[1..];
      SplitCons(a[0], a[1..] + [sep] + b, sep);
      SplitCons(a[0], a[1..], sep);
      SplitAppend(a[1..], b, sep);
      ConsPartAppend(a[0], sep, Split(a[1..], sep), Split(b, sep));
    }
  }

  /** How one more leading character changes the parts of a split. */
  function ConsPart(c: char, sep: char, rest: seq<string>): seq<string>
    requires |rest| >= 1
  {
    if c == sep then [""] + rest else [[c] + rest[0]] + rest[1..]
  }

  lemma SplitCons(c: char, t: string, sep: char)
    ensures Split([c] + t, sep) == ConsPart(c, sep, Split(t, sep))
  {
    assert ([c] + t)[0] == c;
    assert ([c] + t)[1..] == t;
  }

  lemma ConsPartAppend(c: char, sep: char, x: seq<string>, y: seq<string>)
    requires |x| >= 1
    ensures ConsPart(c, sep, x + y) == ConsPart(c, sep, x) + y
  {
    if c == sep {
      assert [""] + (x + y) == ([""] + x) + y;
    } else {
      var head := [c] + x[0];
      assert (x + y)[0] == x[0];
      assert (x + y)[1..] == x[1..] + y;
      assert [head] + (x[1..] + y) == ([head] + x[1..]) + y;
    }
  }

  /** The first part of a split is the text before the first separator (all of `s` if
      there is none). */
  lemma {:induction false} SplitHead(s: string, sep: char)
    ensures var p := Split(s, sep)[0];
      |p| <= |s| && p == s[..|p|] && sep !in p && (|p| == |s| || s[|p|] == sep)
  {
    if |s| > 0 {
      SplitHead(s[1..], sep);
    }
  }

  /** When the first separator sits at index `k`, the first part is the `k` characters
      before it. */
  lemma SplitHeadAt(s: string, sep: char, k: nat)
    requires k < |s| && s[k] == sep && sep !in s[..k]
    ensures Split(s, sep)[0] == s[..k]
  {
    SplitHead(s, sep);
  }

  // ---------------------------------------------------------------------------
  // Decimal numbers
  // ---------------------------------------------------------------------------

  /** The ASCII digits: what the regular expression class `\d` matches. */
  predicate IsDigit(c: char) {
    '0' <= c <= '9'
  }

  predicate AllDigits(s: string) {
    forall i :: 0 <= i < |s| ==> IsDigit(s[i])
  }

  function DigitChar(d: nat): (c: char)
    requires d < 10
    ensures IsDigit(c) && c as int - '0' as int == d
  {
    ('0' as int + d) as char
  }

  /** The decimal text of a non-negative integer, as template literals and `String(n)`
      print it. */
  function NatToString(n: nat): (s: string)
    ensures |s| >= 1 && AllDigits(s)
  {
    if n < 10 then [DigitChar(n)] else NatToString(n / 10) + [DigitChar(n % 10)]
  }

  /** The value of a string of decimal digits (`parseInt(s, 10)` on such a string). */
  function DecimalValue(s: string): nat
    requires AllDigits(s)
  {
    if |s| == 0 then 0
    else 10 * DecimalValue(s[..|s| - 1]) + (s[|s| - 1] as int - '0' as int)
  }

  /** Reading back the printed form of `n` gives `n`. */
  lemma {:induction false} DecimalValueOfNatToString(n: nat)
    ensures DecimalValue(NatToString(n)) == n
  {
    if n >= 10 {
      var s := NatToString(n);
      assert s[..|s| - 1] == NatToString(n / 10);
      DecimalValueOfNatToString(n / 10);
    }
  }

  function Pow10(k: nat): (p: nat)
    ensures p >= 1
  {
    if k == 0 then 1 else 10 * Pow10(k - 1)
  }

  /** A number with exactly `k` digits prints as `k` characters. */
  lemma {:induction false} NatToStringLength(n: nat, k: nat)
    requires 1 <= k && Pow10(k - 1) <= n < Pow10(k)
    ensures |NatToString(n)| == k
  {
    if n >= 10 {
      assert k >= 2;
      assert Pow10(k) == 10 * Pow10(k - 1);
      assert Pow10(k - 1) == 10 * Pow10(k - 2);
      NatToStringLength(n / 10, k - 1);
    }
  }

  /** A word, a space and a printed number: the word, the space and digits that read back
      as the number. */
  lemma WordThenNumber(w: string, n: nat)
    ensures var s := w + " " + NatToString(n);
      |s| > |w| + 1 && s[..|w|] == w && s[|w|] == ' ' &&
      AllDigits(s[|w| + 1..]) && DecimalValue(s[|w| + 1..]) == n
  {
    var s := w + " " + NatToString(n);
    assert s[|w| + 1..] == NatToString(n);
    DecimalValueOfNatToString(n);
  }

  /** `s.padStart(2, '0')` for the short digit strings the app pads. */
  function PadStart2(s: string): (r: string)
    ensures |r| == if |s| >= 2 then |s| else 2
    ensures r[|r| - |s|..] == s
    ensures forall i :: 0 <= i < |r| - |s| ==> r[i] == '0'
  {
    if |s| >= 2 then s else seq(2 - |s|, _ => '0') + s
  }

  // ---------------------------------------------------------------------------
  // Case mapping
  // ---------------------------------------------------------------------------

  /** `toLowerCase` of one character, exact on Latin-1 and the identity elsewhere. */
  function LowerChar(c: char): char {
    if ('A' <= c <= 'Z') || ('\U{00C0}' <= c <= '\U{00DE}' && c != '\U{00D7}')
    then (c as int + 32) as char
    else c
  }

  /** `toUpperCase` of one character, exact on Latin-1 (where 'ß' becomes "SS") and the
      identity elsewhere. */
  function UpperChar(c: char): string {
    if ('a' <= c <= 'z') || ('\U{00E0}' <= c <= '\U{00FE}' && c != '\U{00F7}')
    then [(c as int - 32) as char]
    else if c == '\U{00DF}' then "SS"
    else if c == '\U{00FF}' then "\U{0178}"
    else if c == '\U{00B5}' then "\U{039C}"
    else [c]
  }

  /** JavaScript's `s.toLowerCase()`. */
  function ToLower(s: string): (r: string)
    ensures |r| == |s|
    ensures forall i :: 0 <= i < |s| && 'A' <= s[i] <= 'Z' ==> r[i] as int == s[i] as int + 32
    ensures forall i :: 0 <= i < |s| && !('A' <= s[i] <= 'Z') && s[i] < '\U{00C0}' ==> r[i] == s[i]
    ensures forall i :: 0 <= i < |r| ==> !('A' <= r[i] <= 'Z')
  {
    seq(|s|, i requires 0 <= i < |s| => LowerChar(s[i]))
  }

  /** Lower-casing twice is lower-casing once. */
  lemma ToLowerIdempotent(s: string)
    ensures ToLower(ToLower(s)) == ToLower(s)
  {
    var t := ToLower(s);
    forall i | 0 <= i < |t|
      ensures ToLower(t)[i] == t[i]
    {
      assert LowerChar(LowerChar(s[i])) == LowerChar(s[i]);
    }
  }

  /** `s.charAt(0).toUpperCase() + s.slice(1)`. */
  function CapitalizeFirst(s: string): (r: string)
    ensures |s| == 0 ==> r == ""
    ensures |s| > 0 ==> r == UpperChar(s[0]) + s[1..]
  {
    if |s| == 0 then "" else UpperChar(s[0]) + s[1..]
  }

  // ---------------------------------------------------------------------------
  // slice
  // ---------------------------------------------------------------------------

  function Min(a: nat, b: nat): nat {
    if a <= b then a else b
  }

  /** JavaScript's `s.slice(from, to)` for non-negative bounds, which clamp to the length. */
  function Slice(s: string, from: nat, to: nat): (r: string)
    ensures |r| <= |s|
    ensures from <= to <= |s| ==> r == s[from..to]
    ensures from <= |s| <= to ==> r == s[from..]
    ensures to <= from || |s| <= from ==> r == ""
  {
    var a := Min(from, |s|);
    var b := Min(to, |s|);
    if a <= b then s[a..b] else ""
  }

  /** JavaScript's `s.slice(from)`. */
  function SliceFrom(s: string, from: nat): (r: string)
    ensures from <= |s| ==> r == s[from..]
    ensures |s| <= from ==> r == ""
  {
    s[Min(from, |s|)..]
  }
}
