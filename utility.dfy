/**
 * The pure helpers of pkg/utility/utils.go: the string normalisers, the zero-width
 * filter, the user-list membership test, the zone risk score, and the byte length
 * of a Go string.
 */
module Utility {
  import opened Wrappers
  import opened Constants
  import opened Dto

  // ---------------------------------------------------------------------------
  // Character classes

  predicate IsAsciiDigit(c: char) { '0' <= c <= '9' }
  predicate IsAsciiAlnum(c: char) { IsAsciiDigit(c) || 'a' <= c <= 'z' || 'A' <= c <= 'Z' }
  predicate IsAsciiUpperOrDigit(c: char) { IsAsciiDigit(c) || 'A' <= c <= 'Z' }

  /** `unicode.ToUpper` restricted to what it meets here: ASCII letters and digits. */
  function AsciiUpper(c: char): (u: char)
    ensures IsAsciiAlnum(c) ==> IsAsciiUpperOrDigit(u)
    ensures IsAsciiUpperOrDigit(c) ==> u == c
  {
    if 'a' <= c <= 'z' then (c as int - 32) as char else c
  }

  // ---------------------------------------------------------------------------
  // NormalizeContent / NormalizePlace / NormalizeDate

  /** `regexp [^0-9a-zA-Z]` replaced by "": the ASCII letters and digits of s, in order. */
  function NormalizeContent(s: string): (r: string)
    ensures |r| <= |s|
    ensures forall i :: 0 <= i < |r| ==> IsAsciiAlnum(r[i])
    ensures (forall i :: 0 <= i < |s| ==> IsAsciiAlnum(s[i])) ==> r == s
  {
    if s == [] then []
    else if IsAsciiAlnum(s[0]) then [s[0]] + NormalizeContent(s[1..])
    else NormalizeContent(s[1..])
  }

  /** Every ASCII letter or digit keeps its number of occurrences; every other character is deleted. */
  lemma {:induction false} NormalizeContentCounts(s: string)
    ensures forall c :: multiset(NormalizeContent(s))[c] == if IsAsciiAlnum(c) then multiset(s)[c] else 0
  {
    if s != [] {
      assert s == [s[0]] + s[1..];
      NormalizeContentCounts(s[1..]);
    }
  }

  /** One character: kept when it is an ASCII letter or digit, deleted otherwise. */
  lemma NormalizeContentSingle(c: char)
    ensures NormalizeContent([c]) == if IsAsciiAlnum(c) then [c] else []
  {
    assert [c][1..] == [];
  }

  /** The filter keeps the original order: it distributes over concatenation. */
  lemma {:induction false} NormalizeContentAppend(a: string, b: string)
    ensures NormalizeContent(a + b) == NormalizeContent(a) + NormalizeContent(b)
  {
    if a == [] {
      assert a + b == b;
    } else {
      assert (a + b)[1..] == a[1..] + b;
      NormalizeContentAppend(a[1..], b);
    }
  }

  /** Upper-casing character by character. */
  function UpperAll(s: string): (r: string)
    ensures |r| == |s|
    ensures forall i :: 0 <= i < |s| ==> r[i] == AsciiUpper(s[i])
  {
    if s == [] then [] else [AsciiUpper(s[0])] + UpperAll(s[1..])
  }

  /** NormalizeContent, then `strings.ToUpper`. */
  function NormalizePlace(s: string): (r: string)
    ensures |r| <= |s|
    ensures forall i :: 0 <= i < |r| ==> IsAsciiUpperOrDigit(r[i])
    ensures |r| == |NormalizeContent(s)| && forall i :: 0 <= i < |r| ==> r[i] == AsciiUpper(NormalizeContent(s)[i])
  {
    UpperAll(NormalizeContent(s))
  }

  /** Two names match under NormalizePlace regardless of case. */
  lemma {:induction false} NormalizePlaceIgnoresCase(s: string)
    ensures NormalizePlace(UpperAll(s)) == NormalizePlace(s)
  {
    if s != [] {
      NormalizePlaceIgnoresCase(s[1..]);
      assert UpperAll(s)[1..] == UpperAll(s[1..]);
    }
  }

  /** A string of ASCII upper-case letters and digits is its own normal form. */
  lemma NormalizePlaceFixes(s: string)
    requires forall i :: 0 <= i < |s| ==> IsAsciiUpperOrDigit(s[i])
    ensures NormalizePlace(s) == s
  {
    assert forall i :: 0 <= i < |s| ==> IsAsciiAlnum(s[i]);
    assert NormalizeContent(s) == s;
  }

  /** NormalizePlace is idempotent. */
  lemma NormalizePlaceIdempotent(s: string)
    ensures NormalizePlace(NormalizePlace(s)) == NormalizePlace(s)
  {
    NormalizePlaceFixes(NormalizePlace(s));
  }

  /** The ASCII digits of s, in order. */
  function Digits(s: string): (r: string)
    ensures |r| <= |s|
    ensures forall i :: 0 <= i < |r| ==> IsAsciiDigit(r[i])
  {
    if s == [] then []
    else if IsAsciiDigit(s[0]) then [s[0]] + Digits(s[1..])
    else Digits(s[1..])
  }

  /** Every ASCII digit keeps its number of occurrences; every other character is deleted. */
  lemma {:induction false} DigitsCounts(s: string)
    ensures forall c :: multiset(Digits(s))[c] == if IsAsciiDigit(c) then multiset(s)[c] else 0
  {
    if s != [] {
      assert s == [s[0]] + s[1..];
      DigitsCounts(s[1..]);
    }
  }

  /** One character: kept when it is an ASCII digit, deleted otherwise. */
  lemma DigitsSingle(c: char)
    ensures Digits([c]) == if IsAsciiDigit(c) then [c] else []
  {
    assert [c][1..] == [];
  }

  /** The digits keep their order: the filter distributes over concatenation. */
  lemma {:induction false} DigitsAppend(a: string, b: string)
    ensures Digits(a + b) == Digits(a) + Digits(b)
  {
    if a == [] {
      assert a + b == b;
    } else {
      assert (a + b)[1..] == a[1..] + b;
      DigitsAppend(a[1..], b);
    }
  }

  /** `regexp [^0-9]` replaced by "", upper-cased; fewer than 8 digits is InvalidDateError. */
  function NormalizeDate(date: string): (r: Result<string, Error>)
    ensures r.Ok? <==> |Digits(date)| >= 8
    ensures r.Ok? ==> r.value == Digits(date)
    ensures r.Err? ==> r.error == InvalidDateError
  {
    var d := UpperAll(Digits(date));
    assert d == Digits(date);
    if ByteLength(d) < 8 then Err(InvalidDateError) else Ok(d)
  }

  // ---------------------------------------------------------------------------
  // Go string length

  /** The UTF-8 width of one code point. */
  function Utf8Width(c: char): (w: nat)
    ensures 1 <= w <= 4
    ensures w == 1 <==> c as int < 0x80
  {
    if c as int < 0x80 then 1 else if c as int < 0x800 then 2 else if c as int < 0x10000 then 3 else 4
  }

  /** `len(s)` in Go: the number of bytes of the UTF-8 encoding. */
  function ByteLength(s: string): (n: nat)
    ensures n >= |s|
    ensures (forall i :: 0 <= i < |s| ==> s[i] as int < 0x80) ==> n == |s|
  {
    if s == [] then 0 else Utf8Width(s[0]) + ByteLength(s[1..])
  }

  // ---------------------------------------------------------------------------
  // RemoveZeroWidth

  /** U+2000..U+200A, U+202F, U+205F, U+2800 and U+3000: graphic runes that render as blank space. */
  predicate IsBlankRune(c: char)
  {
    (' ' <= c <= ' ') || c == ' ' || c == ' ' || c == '⠀' || c == '　'
  }

  /** The rune predicate of RemoveZeroWidth; `isGraphic` is `unicode.IsGraphic`. */
  predicate Kept(c: char, isGraphic: char -> bool)
  {
    c == '↵' || c == '\n' || (isGraphic(c) && !IsBlankRune(c))
  }

  /** `strings.Map` with a mapping that drops (returns -1 for) every rune that is not Kept. */
  function KeepRunes(s: string, isGraphic: char -> bool): (r: string)
    ensures |r| <= |s|
    ensures forall i :: 0 <= i < |r| ==> Kept(r[i], isGraphic)
    ensures (forall i :: 0 <= i < |s| ==> Kept(s[i], isGraphic)) ==> r == s
  {
    if s == [] then []
    else if Kept(s[0], isGraphic) then [s[0]] + KeepRunes(s[1..], isGraphic)
    else KeepRunes(s[1..], isGraphic)
  }

  /** Every Kept rune keeps its number of occurrences; every other rune is deleted. */
  lemma {:induction false} KeepRunesCounts(s: string, isGraphic: char -> bool)
    ensures forall c :: multiset(KeepRunes(s, isGraphic))[c] == if Kept(c, isGraphic) then multiset(s)[c] else 0
  {
    if s != [] {
      assert s == [s[0]] + s[1..];
      KeepRunesCounts(s[1..], isGraphic);
    }
  }

  /** One rune: kept when Kept, deleted (not replaced) otherwise. */
  lemma KeepRunesSingle(c: char, isGraphic: char -> bool)
    ensures KeepRunes([c], isGraphic) == if Kept(c, isGraphic) then [c] else []
  {
    assert [c][1..] == [];
  }

  /** The kept runes keep their order: the filter distributes over concatenation. */
  lemma {:induction false} KeepRunesAppend(a: string, b: string, isGraphic: char -> bool)
    ensures KeepRunes(a + b, isGraphic) == KeepRunes(a, isGraphic) + KeepRunes(b, isGraphic)
  {
    if a == [] {
      assert a + b == b;
    } else {
      assert (a + b)[1..] == a[1..] + b;
      KeepRunesAppend(a[1..], b, isGraphic);
    }
  }

  /** `strings.TrimLeft(s, " ")`: drops exactly the leading ASCII spaces. */
  function TrimLeading(s: string): (r: string)
    ensures |r| <= |s| && r == s[|s| - |r|..]
    ensures forall k :: 0 <= k < |s| - |r| ==> s[k] == ' '
    ensures r == [] || r[0] != ' '
  {
    if s != [] && s[0] == ' ' then TrimLeading(s[1..]) else s
  }

  /** `strings.TrimRight(s, " ")`: drops exactly the trailing ASCII spaces. */
  function TrimTrailing(s: string): (r: string)
    ensures |r| <= |s| && r == s[..|r|]
    ensures forall k :: |r| <= k < |s| ==> s[k] == ' '
    ensures r == [] || r[|r| - 1] != ' '
  {
    if s != [] && s[|s| - 1] == ' ' then TrimTrailing(s[..|s| - 1]) else s
  }

  /** `strings.Trim(s, " ")`. */
  function Trim(s: string): (r: string)
    ensures |r| <= |s|
    ensures |r| <= |TrimLeading(s)|
    ensures forall i :: 0 <= i < |r| ==> r[i] == s[|s| - |TrimLeading(s)| + i]
    ensures forall k :: 0 <= k < |s| - |TrimLeading(s)| ==> s[k] == ' '
    ensures forall k :: |s| - |TrimLeading(s)| + |r| <= k < |s| ==> s[k] == ' '
    ensures r == [] || (r[0] != ' ' && r[|r| - 1] != ' ')
    ensures (s == [] || (s[0] != ' ' && s[|s| - 1] != ' ')) ==> r == s
  {
    var l := TrimLeading(s);
    assert l == [] || l[0] != ' ';
    var r := TrimTrailing(l);
    assert r != [] ==> r[0] == l[0];
    r
  }

  /**
   * RemoveZeroWidth: keep the Kept runes; more than 500 of them gives "", otherwise
   * the kept text trimmed of ASCII spaces at both ends.
   */
  function RemoveZeroWidth(t: string, isGraphic: char -> bool): (r: string)
    ensures |r| <= 500 && |r| <= |t|
    ensures forall i :: 0 <= i < |r| ==> Kept(r[i], isGraphic)
    ensures r == [] || (r[0] != ' ' && r[|r| - 1] != ' ')
    ensures |KeepRunes(t, isGraphic)| > 500 ==> r == []
    ensures |KeepRunes(t, isGraphic)| <= 500 ==> r == Trim(KeepRunes(t, isGraphic))
  {
    var kept := KeepRunes(t, isGraphic);
    if |kept| > 500 then ""
    else
      var r := Trim(kept);
      var off := |kept| - |TrimLeading(kept)|;
      assert forall i :: 0 <= i < |r| ==> Kept(r[i], isGraphic) by {
        forall i | 0 <= i < |r| ensures Kept(r[i], isGraphic) { assert r[i] == kept[off + i]; }
      }
      r
  }

  /** Text made only of kept runes, with no space at either end and at most 500 runes, is unchanged. */
  lemma RemoveZeroWidthKeepsCleanText(t: string, isGraphic: char -> bool)
    requires |t| <= 500
    requires forall i :: 0 <= i < |t| ==> Kept(t[i], isGraphic)
    requires t == [] || (t[0] != ' ' && t[|t| - 1] != ' ')
    ensures RemoveZeroWidth(t, isGraphic) == t
  {
  }

  /** One ASCII space at each end is trimmed away (space is a graphic rune). */
  lemma RemoveZeroWidthTrims(t: string, isGraphic: char -> bool)
    requires isGraphic(' ')
    requires |t| <= 498
    requires forall i :: 0 <= i < |t| ==> Kept(t[i], isGraphic)
    requires t == [] || (t[0] != ' ' && t[|t| - 1] != ' ')
    ensures RemoveZeroWidth(" " + t + " ", isGraphic) == t
  {
    var s := " " + t + " ";
    assert forall i :: 0 <= i < |s| ==> Kept(s[i], isGraphic);
    assert KeepRunes(s, isGraphic) == s;
    assert s[1..] == t + " ";
    if t == [] {
      assert TrimLeading(s) == [];
    } else {
      assert (t + " ")[0] == t[0];
      assert TrimLeading(s) == t + " ";
      assert (t + " ")[..|t + " "| - 1] == t;
      assert TrimTrailing(t + " ") == t;
    }
  }

  /** The zero-width characters U+200B, U+200C, U+200D and U+FEFF are removed (utils_test.go). */
  lemma RemoveZeroWidthExampleZeroWidth(isGraphic: char -> bool)
    requires isGraphic('a') && isGraphic('b')
    requires !isGraphic('​') && !isGraphic('‌') && !isGraphic('‍') && !isGraphic('﻿')
    ensures RemoveZeroWidth("a​‌‍﻿b", isGraphic) == "ab"
  {
    var s0, s1, s2, s3, s4, s5 := "a​‌‍﻿b", "​‌‍﻿b", "‌‍﻿b", "‍﻿b", "﻿b", "b";
    assert s5[1..] == [] && KeepRunes(s5, isGraphic) == "b";
    assert s4[1..] == s5 && KeepRunes(s4, isGraphic) == "b";
    assert s3[1..] == s4 && KeepRunes(s3, isGraphic) == "b";
    assert s2[1..] == s3 && KeepRunes(s2, isGraphic) == "b";
    assert s1[1..] == s2 && KeepRunes(s1, isGraphic) == "b";
    assert s0[1..] == s1 && KeepRunes(s0, isGraphic) == "ab";
  }

  /** A blank rune such as U+2000 is removed whether or not it counts as graphic (utils_test.go). */
  lemma RemoveZeroWidthExampleBlank(isGraphic: char -> bool)
    requires isGraphic('<') && isGraphic('>')
    ensures RemoveZeroWidth("< >", isGraphic) == "<>"
  {
    var s := "< >";
    assert s[1..] == " >" && s[1..][1..] == ">";
    assert KeepRunes(s, isGraphic) == "<>";
  }

  /** A newline and the carriage-return arrow U+21B5 are kept (utils_test.go). */
  lemma RemoveZeroWidthExampleNewlines(isGraphic: char -> bool)
    requires isGraphic('<') && isGraphic('>')
    ensures RemoveZeroWidth("<\n>", isGraphic) == "<\n>"
    ensures RemoveZeroWidth("<↵>", isGraphic) == "<↵>"
  {
    var s1, s2 := "<\n>", "<↵>";
    assert s1[1..] == "\n>" && s1[1..][1..] == ">";
    assert s2[1..] == "↵>" && s2[1..][1..] == ">";
    assert KeepRunes(s1, isGraphic) == s1;
    assert KeepRunes(s2, isGraphic) == s2;
  }

  // ---------------------------------------------------------------------------
  // UserInUsers

  /** `UserInUsers`: some element has the same ID; every other field is ignored. */
  function UserInUsers(users: seq<User>, user: User): (b: bool)
    ensures b <==> exists i :: 0 <= i < |users| && users[i].id == user.id
  {
    if users == [] then false
    else if users[0].id == user.id then true
    else
      assert forall i :: 1 <= i < |users| ==> users[i] == users[1..][i - 1];
      UserInUsers(users[1..], user)
  }

  // ---------------------------------------------------------------------------
  // GetZoneRisk

  /**
   * A float64 value as far as the risk score needs it: a finite real, an infinity, or NaN.
   * Dividing by a zero radius or capacity follows IEEE 754 for a positive zero.
   */
  datatype Float = Finite(v: real) | PosInf | NegInf | NaN

  function Div(a: Float, b: real): (q: Float)
    ensures b != 0.0 && a.Finite? ==> q == Finite(a.v / b)
    ensures b == 0.0 && a.Finite? ==> q == if a.v > 0.0 then PosInf else if a.v < 0.0 then NegInf else NaN
    ensures a.NaN? ==> q.NaN?
    ensures a.PosInf? || a.NegInf? ==> (q.PosInf? || q.NegInf?) && (q.PosInf? <==> (a.PosInf? <==> b >= 0.0))
  {
    match a
    case Finite(x) =>
      if b != 0.0 then Finite(x / b) else if x > 0.0 then PosInf else if x < 0.0 then NegInf else NaN
    case PosInf => if b >= 0.0 then PosInf else NegInf
    case NegInf => if b >= 0.0 then NegInf else PosInf
    case NaN => NaN
  }

  function Times100(a: Float): Float
  {
    if a.Finite? then Finite(a.v * 100.0) else a
  }

  /** `f > t` on float64: an infinity compares by sign, NaN compares false. */
  predicate Above(f: Float, t: real)
  {
    match f
    case Finite(x) => x > t
    case PosInf => true
    case NegInf => false
    case NaN => false
  }

  /** `float64(usersWithin) / radius / float64(capacity) * 100`. */
  function RiskScore(radius: real, capacity: int, usersWithin: int): Float
  {
    Times100(Div(Div(Finite(usersWithin as real), radius), capacity as real))
  }

  /** The real-valued score when radius and capacity are non-zero. */
  function Score(radius: real, capacity: int, usersWithin: int): real
    requires radius != 0.0 && capacity != 0
  {
    usersWithin as real / radius / capacity as real * 100.0
  }

  /** `GetZoneRisk`: thresholds 100, 80, 60, 40 on the score, strictly above; 1 is the highest risk. */
  function GetZoneRisk(radius: real, capacity: int, usersWithin: int): (risk: int)
    ensures MaximumRisk <= risk <= MinimumRisk
    ensures radius != 0.0 && capacity != 0 ==> RiskScore(radius, capacity, usersWithin) == Finite(Score(radius, capacity, usersWithin))
  {
    var score := RiskScore(radius, capacity, usersWithin);
    if Above(score, 100.0) then MaximumRisk
    else if Above(score, 80.0) then HighRisk
    else if Above(score, 60.0) then MediumRisk
    else if Above(score, 40.0) then LowRisk
    else MinimumRisk
  }

  /** For non-zero radius and capacity each level is exactly one band of the score. */
  lemma RiskBands(radius: real, capacity: int, usersWithin: int)
    requires radius != 0.0 && capacity != 0
    ensures var s, risk := Score(radius, capacity, usersWithin), GetZoneRisk(radius, capacity, usersWithin);
      (risk == MaximumRisk <==> s > 100.0) &&
      (risk == HighRisk <==> 80.0 < s <= 100.0) &&
      (risk == MediumRisk <==> 60.0 < s <= 80.0) &&
      (risk == LowRisk <==> 40.0 < s <= 60.0) &&
      (risk == MinimumRisk <==> s <= 40.0)
  {
  }

  /** The comparisons are strict: a score of exactly 100 is High, exactly 40 is Minimum. */
  lemma RiskBoundaries()
    ensures GetZoneRisk(1.0, 1, 1) == HighRisk
    ensures GetZoneRisk(5.0, 5, 10) == MinimumRisk
  {
    assert Score(1.0, 1, 1) == 100.0;
    assert Score(5.0, 5, 10) == 40.0;
  }

  /** Radius 2 and capacity 10: 25, 17, 13, 9 and 4 users give levels 1 to 5. */
  lemma RiskExamples()
    ensures GetZoneRisk(2.0, 10, 25) == MaximumRisk
    ensures GetZoneRisk(2.0, 10, 17) == HighRisk
    ensures GetZoneRisk(2.0, 10, 13) == MediumRisk
    ensures GetZoneRisk(2.0, 10, 9) == LowRisk
    ensures GetZoneRisk(2.0, 10, 4) == MinimumRisk
  {
    assert Score(2.0, 10, 25) == 125.0;
    assert Score(2.0, 10, 17) == 85.0;
    assert Score(2.0, 10, 13) == 65.0;
    assert Score(2.0, 10, 9) == 45.0;
    assert Score(2.0, 10, 4) == 20.0;
  }

  /** More occupants never give a lower risk (a larger level code) for a positive radius and capacity. */
  lemma RiskMonotone(radius: real, capacity: int, fewer: int, more: int)
    requires radius > 0.0 && capacity > 0
    requires fewer <= more
    ensures GetZoneRisk(radius, capacity, more) <= GetZoneRisk(radius, capacity, fewer)
  {
    ScoreMonotone(radius, capacity, fewer, more);
    RiskBands(radius, capacity, fewer);
    RiskBands(radius, capacity, more);
  }

  /** The score grows with the number of occupants for a positive radius and capacity. */
  lemma ScoreMonotone(radius: real, capacity: int, fewer: int, more: int)
    requires radius > 0.0 && capacity > 0
    requires fewer <= more
    ensures Score(radius, capacity, fewer) <= Score(radius, capacity, more)
  {
    var c := capacity as real;
    assert fewer as real / radius <= more as real / radius;
    assert fewer as real / radius / c <= more as real / radius / c;
  }

  /** An empty zone is always at the minimum level, whatever its radius and capacity (0/0 is NaN). */
  lemma RiskOfEmptyZone(radius: real, capacity: int)
    ensures GetZoneRisk(radius, capacity, 0) == MinimumRisk
  {
  }

  /** A zero radius with occupants divides to +Inf and gives the maximum level unless the capacity is negative. */
  lemma RiskOfZeroRadius(capacity: int, usersWithin: int)
    requires usersWithin > 0 && capacity >= 0
    ensures GetZoneRisk(0.0, capacity, usersWithin) == MaximumRisk
  {
  }
}
