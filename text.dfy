/**
 * String helpers shared by the Swift-side modules: Foundation's character
 * sets, `trimmingCharacters(in:)`, `components(separatedBy:)`,
 * `joined(separator:)`, `hasPrefix`, `contains`, `String(Int)` and
 * `Int(String)`. Strings are sequences of Unicode scalar values.
 */
module Text {
  import opened Wrappers

  /** `CharacterSet.newlines`: U+000A through U+000D, U+0085, U+2028, U+2029. */
  predicate IsNewline(c: char)
  {
    ('\n' <= c <= '\r') || c == '\U{0085}' || c == '\U{2028}' || c == '\U{2029}'
  }

  /** `CharacterSet.whitespaces`: the space separators (category Zs) and tab. */
  predicate IsSpace(c: char)
  {
    c == ' ' || c == '\t' || c == '\U{00A0}' || c == '\U{1680}' || ('\U{2000}' <= c <= '\U{200A}')
    || c == '\U{202F}' || c == '\U{205F}' || c == '\U{3000}'
  }

  /**
   * `CharacterSet.alphanumerics`, restricted to the ASCII letters and
   * digits; the Unicode letters and digits beyond ASCII are not modelled.
   */
  predicate IsAlphanumeric(c: char)
  {
    ('0' <= c <= '9') || ('a' <= c <= 'z') || ('A' <= c <= 'Z')
  }

  /** The character sets text is trimmed of. */
  datatype CharSet = Whitespaces | WhitespacesAndNewlines | NonAlphanumerics

  predicate InSet(c: char, cs: CharSet)
  {
    match cs
    case Whitespaces => IsSpace(c)
    case WhitespacesAndNewlines => IsSpace(c) || IsNewline(c)
    case NonAlphanumerics => !IsAlphanumeric(c)
  }

  predicate IsDigit(c: char)
  {
    '0' <= c <= '9'
  }

  predicate AllDigits(s: string)
  {
    forall i :: 0 <= i < |s| ==> IsDigit(s[i])
  }

  /** The number of leading characters of `s` in the set. */
  function LeadingCount(s: string, cs: CharSet): (n: nat)
    ensures n <= |s|
    decreases |s|
  {
    if s != [] && InSet(s[0], cs) then 1 + LeadingCount(s[1..], cs) else 0
  }

  /** Exactly the counted leading characters are in the set. */
  lemma {:induction false} LeadingCountSpec(s: string, cs: CharSet)
    ensures var n := LeadingCount(s, cs);
            (forall i :: 0 <= i < n ==> InSet(s[i], cs)) && (n < |s| ==> !InSet(s[n], cs))
    decreases |s|
  {
    if s != [] && InSet(s[0], cs) {
      LeadingCountSpec(s[1..], cs);
      var n := LeadingCount(s, cs);
      forall i | 0 <= i < n ensures InSet(s[i], cs) {
        if i > 0 { assert s[i] == s[1..][i - 1]; }
      }
    }
  }

  /** The number of trailing characters of `s` in the set. */
  function TrailingCount(s: string, cs: CharSet): (n: nat)
    ensures n <= |s|
    decreases |s|
  {
    if s != [] && InSet(s[|s| - 1], cs) then 1 + TrailingCount(s[..|s| - 1], cs) else 0
  }

  /** Exactly the counted trailing characters are in the set. */
  lemma {:induction false} TrailingCountSpec(s: string, cs: CharSet)
    ensures var n := TrailingCount(s, cs);
            (forall i :: |s| - n <= i < |s| ==> InSet(s[i], cs)) && (n < |s| ==> !InSet(s[|s| - n - 1], cs))
    decreases |s|
  {
    if s != [] && InSet(s[|s| - 1], cs) {
      var t := s[..|s| - 1];
      TrailingCountSpec(t, cs);
      var n := TrailingCount(s, cs);
      forall i | |s| - n <= i < |s| ensures InSet(s[i], cs) {
        if i < |s| - 1 { assert s[i] == t[i]; }
      }
      if n < |s| {
        assert s[|s| - n - 1] == t[|t| - (n - 1) - 1];
      }
    }
  }

  /**
   * `trimmingCharacters(in:)`: removes the characters of the set at both
   * ends only; characters of the set inside the string stay.
   */
  function TrimBy(s: string, cs: CharSet): (r: string)
    ensures |r| <= |s|
  {
    var t := s[LeadingCount(s, cs)..];
    t[..|t| - TrailingCount(t, cs)]
  }

  /**
   * What is trimmed away is in the set and what remains neither starts nor
   * ends with a character of the set; nothing remains exactly when every
   * character is in the set.
   */
  lemma TrimBySpec(s: string, cs: CharSet)
    ensures var r := TrimBy(s, cs);
            (r != [] ==> !InSet(r[0], cs) && !InSet(r[|r| - 1], cs)) &&
            (r == [] <==> forall i :: 0 <= i < |s| ==> InSet(s[i], cs))
  {
    var n := LeadingCount(s, cs);
    var t := s[n..];
    LeadingCountSpec(s, cs);
    TrailingCountSpec(t, cs);
    var r := TrimBy(s, cs);
    if r != [] {
      assert r[0] == t[0] && t[0] == s[n];
      assert r[|r| - 1] == t[|t| - TrailingCount(t, cs) - 1];
    } else {
      assert n == |s|;
    }
  }

  /** `trimmingCharacters(in: .whitespacesAndNewlines)`. */
  function Trim(s: string): string
  {
    TrimBy(s, WhitespacesAndNewlines)
  }

  /** `trimmingCharacters(in: .whitespaces)`. */
  function TrimSpaces(s: string): string
  {
    TrimBy(s, Whitespaces)
  }

  /** Text that starts and ends with characters outside the set is not trimmed. */
  lemma TrimByKeeps(s: string, cs: CharSet)
    requires s != [] && !InSet(s[0], cs) && !InSet(s[|s| - 1], cs)
    ensures TrimBy(s, cs) == s
  {
    assert LeadingCount(s, cs) == 0;
    assert TrailingCount(s, cs) == 0;
  }

  /** Trimming a second time changes nothing. */
  lemma TrimIdempotent(s: string, cs: CharSet)
    ensures TrimBy(TrimBy(s, cs), cs) == TrimBy(s, cs)
  {
    var r := TrimBy(s, cs);
    TrimBySpec(s, cs);
    if r != [] {
      TrimByKeeps(r, cs);
    }
  }

  predicate HasPrefix(s: string, prefix: string)
  {
    |prefix| <= |s| && s[..|prefix|] == prefix
  }

  /** Text whose first character differs from the prefix's does not start with it. */
  lemma FirstCharNotPrefix(s: string, prefix: string)
    requires s != [] && prefix != [] && s[0] != prefix[0]
    ensures !HasPrefix(s, prefix)
  {
    if |prefix| <= |s| {
      assert s[..|prefix|][0] == s[0];
    }
  }

  predicate HasSuffix(s: string, suffix: string)
  {
    |suffix| <= |s| && s[|s| - |suffix|..] == suffix
  }

  /** The first position at which `t` occurs in `s`. */
  function IndexOf(s: string, t: string): (r: Option<nat>)
    ensures r.Some? ==> r.value + |t| <= |s| && s[r.value..r.value + |t|] == t
    ensures r.Some? ==> forall j :: 0 <= j < r.value ==> !HasPrefix(s[j..], t)
    ensures r.None? ==> forall j :: 0 <= j <= |s| ==> !HasPrefix(s[j..], t)
    decreases |s|
  {
    if HasPrefix(s, t) then Some(0)
    else if s == [] then None
    else match IndexOf(s[1..], t)
      case None =>
        assert forall j :: 1 <= j <= |s| ==> !HasPrefix(s[j..], t) by {
          forall j | 1 <= j <= |s| ensures !HasPrefix(s[j..], t) {
            assert s[j..] == s[1..][j - 1..];
          }
        }
        None
      case Some(i) =>
        assert forall j :: 1 <= j <= i ==> !HasPrefix(s[j..], t) by {
          forall j | 1 <= j <= i ensures !HasPrefix(s[j..], t) {
            assert s[j..] == s[1..][j - 1..];
          }
        }
        assert s[i + 1..i + 1 + |t|] == s[1..][i..i + |t|];
        Some(i + 1)
  }

  /** `s.contains(t)` for a string argument. */
  predicate Contains(s: string, t: string)
  {
    IndexOf(s, t).Some?
  }

  /** `joined(separator:)`. */
  function Join(parts: seq<string>, sep: string): string
  {
    if |parts| == 0 then ""
    else if |parts| == 1 then parts[0]
    else parts[0] + sep + Join(parts[1..], sep)
  }

  /**
   * `components(separatedBy:)` with a character set: cuts at every
   * character satisfying `p`, keeping empty pieces.
   */
  function SplitWhere(s: string, p: char -> bool): (r: seq<string>)
    ensures |r| >= 1
    ensures forall k, i :: 0 <= k < |r| && 0 <= i < |r[k]| ==> !p(r[k][i])
    decreases |s|
  {
    if s == [] then [""]
    else
      var rest := SplitWhere(s[1..], p);
      if p(s[0]) then [""] + rest
      else
        assert forall k, i :: 1 <= k < |rest| && 0 <= i < |rest[k]| ==> !p(rest[k][i]);
        [[s[0]] + rest[0]] + rest[1..]
  }

  /** `components(separatedBy:)` with a one-character string separator. */
  function SplitOn(s: string, c: char): (r: seq<string>)
    ensures |r| >= 1
    ensures forall k :: 0 <= k < |r| ==> c !in r[k]
  {
    var r := SplitWhere(s, x => x == c);
    assert forall k :: 0 <= k < |r| ==> c !in r[k] by {
      forall k | 0 <= k < |r| ensures c !in r[k] {
        assert forall i :: 0 <= i < |r[k]| ==> r[k][i] != c;
      }
    }
    r
  }

  /** Splitting on a character and joining with it gives the text back. */
  lemma {:induction false} JoinSplitWhere(s: string, p: char -> bool, c: char)
    requires forall i :: 0 <= i < |s| ==> (p(s[i]) <==> s[i] == c)
    ensures Join(SplitWhere(s, p), [c]) == s
    decreases |s|
  {
    if s != [] {
      var rest := SplitWhere(s[1..], p);
      JoinSplitWhere(s[1..], p, c);
      if p(s[0]) {
        assert SplitWhere(s, p) == [""] + rest;
        if |rest| == 1 {
          assert Join([""] + rest, [c]) == "" + [c] + rest[0];
        } else {
          assert Join([""] + rest, [c]) == "" + [c] + Join(rest, [c]);
        }
      } else {
        var r := [[s[0]] + rest[0]] + rest[1..];
        if |rest| == 1 {
          assert Join(r, [c]) == [s[0]] + rest[0];
        } else {
          assert Join(rest, [c]) == rest[0] + [c] + Join(rest[1..], [c]);
          assert Join(r, [c]) == [s[0]] + rest[0] + [c] + Join(rest[1..], [c]);
        }
      }
    }
  }

  lemma JoinSplitOn(s: string, c: char)
    ensures Join(SplitOn(s, c), [c]) == s
  {
    JoinSplitWhere(s, x => x == c, c);
  }

  /** A piece free of separators is glued onto the first piece of what follows it. */
  lemma {:induction false} SplitWhereAppend(a: string, rest: string, p: char -> bool)
    requires forall i :: 0 <= i < |a| ==> !p(a[i])
    ensures SplitWhere(a + rest, p) == [a + SplitWhere(rest, p)[0]] + SplitWhere(rest, p)[1..]
    decreases |a|
  {
    if a == [] {
      var r := SplitWhere(rest, p);
      assert a + rest == rest;
      assert a + r[0] == r[0];
      assert [r[0]] + r[1..] == r;
    } else {
      assert (a + rest)[0] == a[0] && (a + rest)[1..] == a[1..] + rest;
      SplitWhereAppend(a[1..], rest, p);
      assert [a[0]] + (a[1..] + SplitWhere(rest, p)[0]) == a + SplitWhere(rest, p)[0];
    }
  }

  /** Joining pieces free of separators with the separator `c` and splitting again gives the pieces back. */
  lemma {:induction false} SplitWhereJoin(parts: seq<string>, c: char, p: char -> bool)
    requires p(c)
    requires |parts| >= 1 && forall k, i :: 0 <= k < |parts| && 0 <= i < |parts[k]| ==> !p(parts[k][i])
    ensures SplitWhere(Join(parts, [c]), p) == parts
    decreases |parts|
  {
    var a := parts[0];
    assert forall i :: 0 <= i < |a| ==> !p(a[i]);
    if |parts| == 1 {
      SplitWhereAppend(a, "", p);
      assert a + "" == a;
      assert SplitWhere("", p) == [""];
    } else {
      var b := Join(parts[1..], [c]);
      assert Join(parts, [c]) == a + ([c] + b);
      SplitWhereAppend(a, [c] + b, p);
      assert ([c] + b)[1..] == b;
      assert SplitWhere([c] + b, p) == [""] + SplitWhere(b, p);
      SplitWhereJoin(parts[1..], c, p);
      assert a + "" == a;
      assert [a] + parts[1..] == parts;
    }
  }

  /** Joining pieces free of `c` with `c` and splitting again gives the pieces back. */
  lemma SplitJoin(parts: seq<string>, c: char)
    requires |parts| >= 1 && forall k :: 0 <= k < |parts| ==> c !in parts[k]
    ensures SplitOn(Join(parts, [c]), c) == parts
  {
    var p := (x: char) => x == c;
    forall k, i | 0 <= k < |parts| && 0 <= i < |parts[k]| ensures !p(parts[k][i]) {
      assert parts[k][i] in parts[k];
    }
    SplitWhereJoin(parts, c, p);
  }

  /** `components(separatedBy:)` with a separator string of any length. */
  function SplitOnString(s: string, sep: string): (r: seq<string>)
    requires sep != []
    ensures |r| >= 1
    decreases |s|
  {
    match IndexOf(s, sep)
    case None => [s]
    case Some(i) => [s[..i]] + SplitOnString(s[i + |sep|..], sep)
  }

  /** Splitting on a separator string and joining with it gives the text back. */
  lemma {:induction false} JoinSplitOnString(s: string, sep: string)
    requires sep != []
    ensures Join(SplitOnString(s, sep), sep) == s
    decreases |s|
  {
    match IndexOf(s, sep)
    case None =>
    case Some(i) =>
      var rest := SplitOnString(s[i + |sep|..], sep);
      JoinSplitOnString(s[i + |sep|..], sep);
      assert Join([s[..i]] + rest, sep) == s[..i] + sep + Join(rest, sep);
      assert s == s[..i] + s[i..i + |sep|] + s[i + |sep|..];
  }

  /** `Character.lowercased()` restricted to ASCII letters. */
  function LowerAscii(s: string): (r: string)
    ensures |r| == |s|
    ensures forall i :: 0 <= i < |s| ==> r[i] == (if 'A' <= s[i] <= 'Z' then (s[i] as int + 32) as char else s[i])
  {
    seq(|s|, i requires 0 <= i < |s| => if 'A' <= s[i] <= 'Z' then (s[i] as int + 32) as char else s[i])
  }

  // ---- Decimal integers: `String(Int)` and `Int(String)` ----

  const Int64Min: int := -0x8000_0000_0000_0000
  const Int64Max: int := 0x7FFF_FFFF_FFFF_FFFF

  function DigitChar(d: nat): (c: char)
    requires d < 10
    ensures IsDigit(c) && (c as int) - ('0' as int) == d
  {
    ('0' as int + d) as char
  }

  /** The value of a string of decimal digits. */
  function DigitsValue(s: string): nat
    requires AllDigits(s)
  {
    if s == [] then 0 else DigitsValue(s[..|s| - 1]) * 10 + ((s[|s| - 1] as int) - ('0' as int))
  }

  /** `String(n)` for a non-negative `n`. */
  function NatToDecimal(n: nat): (r: string)
    ensures r != [] && AllDigits(r)
    ensures DigitsValue(r) == n
    decreases n
  {
    if n < 10 then [DigitChar(n)]
    else
      var r := NatToDecimal(n / 10) + [DigitChar(n % 10)];
      assert r[..|r| - 1] == NatToDecimal(n / 10);
      r
  }

  /** `String(i)`: a minus sign for negative values, then the digits. */
  function IntToDecimal(i: int): (r: string)
    ensures r != []
    ensures forall k :: 0 <= k < |r| ==> IsDigit(r[k]) || r[k] == '-'
  {
    if i < 0 then "-" + NatToDecimal(-i) else NatToDecimal(i)
  }

  /**
   * `Int(String)` on a 64-bit platform: an optional `+` or `-`, then one or
   * more ASCII digits and nothing else; a value outside the 64-bit range
   * gives nil.
   */
  function ParseInt(s: string): (r: Option<int>)
    ensures r.Some? ==> Int64Min <= r.value <= Int64Max
    ensures r.Some? ==> s != [] && AllDigits(if s[0] == '+' || s[0] == '-' then s[1..] else s)
  {
    var neg := s != [] && s[0] == '-';
    var digits := if s != [] && (s[0] == '+' || s[0] == '-') then s[1..] else s;
    if digits == [] || !AllDigits(digits) then None
    else
      var v: int := if neg then -(DigitsValue(digits) as int) else DigitsValue(digits);
      if Int64Min <= v <= Int64Max then Some(v) else None
  }

  /** Printing an integer in range and parsing it back returns the integer. */
  lemma ParseIntToDecimal(i: int)
    requires Int64Min <= i <= Int64Max
    ensures ParseInt(IntToDecimal(i)) == Some(i)
  {
    if i < 0 {
      assert IntToDecimal(i)[1..] == NatToDecimal(-i);
    } else {
      assert NatToDecimal(i)[0] != '+' && NatToDecimal(i)[0] != '-';
    }
  }
}
