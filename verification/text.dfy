/** Strings as sequences of Unicode scalar values, with the few library
    operations the Go server and the TypeScript dashboard rely on.

    Character classes follow Go's `unicode` package exactly for white space;
    letters, digits, punctuation and symbols are given by their ASCII and
    Latin-1 members plus the three CJK ideograph blocks, which stands in for the
    full Unicode tables. */
module Text {
  import opened Wrappers

  // ---------------------------------------------------------------------
  // Character classes

  /** Go `unicode.IsSpace`. */
  predicate IsSpace(c: char) {
    var n := c as int;
    (9 <= n <= 13) || n == 32 || n == 0x85 || n == 0xA0 || n == 0x1680
    || (0x2000 <= n <= 0x200A) || n == 0x2028 || n == 0x2029 || n == 0x202F
    || n == 0x205F || n == 0x3000
  }

  /** The JavaScript `\s` class, which is also what `String.prototype.trim` removes. */
  predicate IsJsSpace(c: char) {
    var n := c as int;
    (9 <= n <= 13) || n == 32 || n == 0xA0 || n == 0x1680
    || (0x2000 <= n <= 0x200A) || n == 0x2028 || n == 0x2029 || n == 0x202F
    || n == 0x205F || n == 0x3000 || n == 0xFEFF
  }

  /** The CJK Unified Ideographs blocks U+4E00..U+9FFF, extension A
      U+3400..U+4DBF and extension B U+20000..U+2A6DF. */
  predicate IsCJK(c: char) {
    var n := c as int;
    (0x4E00 <= n <= 0x9FFF) || (0x3400 <= n <= 0x4DBF) || (0x20000 <= n <= 0x2A6DF)
  }

  predicate IsAsciiDigit(c: char) { '0' <= c <= '9' }

  predicate IsAsciiLetter(c: char) { ('a' <= c <= 'z') || ('A' <= c <= 'Z') }

  /** `unicode.IsLetter`: ASCII and Latin-1 letters and CJK ideographs. */
  predicate IsLetter(c: char) {
    var n := c as int;
    IsAsciiLetter(c) || n == 0xAA || n == 0xB5 || n == 0xBA
    || (0xC0 <= n <= 0xFF && n != 0xD7 && n != 0xF7) || IsCJK(c)
  }

  /** `unicode.IsDigit`: decimal digits. */
  predicate IsDigit(c: char) { IsAsciiDigit(c) }

  /** `unicode.IsNumber`: digits plus the Latin-1 superscripts and fractions. */
  predicate IsNumber(c: char) {
    var n := c as int;
    IsDigit(c) || n == 0xB2 || n == 0xB3 || n == 0xB9 || (0xBC <= n <= 0xBE)
  }

  /** `unicode.IsPunct` on ASCII. */
  predicate IsPunct(c: char) {
    c in "!\"#%&'()*,-./:;?@[\\]_{}"
  }

  /** `unicode.IsSymbol` on ASCII. */
  predicate IsSymbol(c: char) {
    c in "$+<=>^`|~"
  }

  predicate IsWordChar(c: char) { IsLetter(c) || IsNumber(c) }

  /** Lower-casing of ASCII and Latin-1 capitals. */
  function LowerChar(c: char): (r: char)
    ensures !('A' <= r <= 'Z')
  {
    var n := c as int;
    if 'A' <= c <= 'Z' || (0xC0 <= n <= 0xDE && n != 0xD7) then (n + 32) as char else c
  }

  lemma LowerCharIdempotent(c: char)
    ensures LowerChar(LowerChar(c)) == LowerChar(c)
  {
  }

  function Lower(s: string): (r: string)
    ensures |r| == |s|
    ensures forall i :: 0 <= i < |s| ==> r[i] == LowerChar(s[i])
  {
    seq(|s|, i requires 0 <= i < |s| => LowerChar(s[i]))
  }

  lemma LowerIdempotent(s: string)
    ensures Lower(Lower(s)) == Lower(s)
  {
    forall i | 0 <= i < |s| ensures Lower(Lower(s))[i] == Lower(s)[i] {
      LowerCharIdempotent(s[i]);
    }
  }

  // ---------------------------------------------------------------------
  // Prefixes, suffixes, containment

  predicate HasPrefix(s: string, p: string) { |p| <= |s| && s[..|p|] == p }

  predicate HasSuffix(s: string, p: string) { |p| <= |s| && s[|s| - |p|..] == p }

  /** `sub` occurs in `s` starting at index `i`. */
  predicate OccursAt(s: string, sub: string, i: int) {
    0 <= i && i + |sub| <= |s| && s[i..i + |sub|] == sub
  }

  predicate Contains(s: string, sub: string) {
    exists i :: 0 <= i <= |s| && OccursAt(s, sub, i)
  }

  function TrimPrefix(s: string, p: string): (r: string)
    ensures HasPrefix(s, p) ==> p + r == s
    ensures !HasPrefix(s, p) ==> r == s
  {
    if HasPrefix(s, p) then s[|p|..] else s
  }

  // ---------------------------------------------------------------------
  // Trimming

  function TrimLeftBy(s: string, sp: char -> bool): (r: string)
    ensures |r| <= |s| && r == s[|s| - |r|..]
    ensures r == [] || !sp(r[0])
    ensures forall i :: 0 <= i < |s| - |r| ==> sp(s[i])
  {
    if |s| > 0 && sp(s[0]) then
      var r := TrimLeftBy(s[1..], sp);
      assert s[1..][|s| - 1 - |r|..] == s[|s| - |r|..];
      r
    else s
  }

  function TrimRightBy(s: string, sp: char -> bool): (r: string)
    ensures |r| <= |s| && r == s[..|r|]
    ensures r == [] || !sp(r[|r| - 1])
    ensures forall i :: |r| <= i < |s| ==> sp(s[i])
  {
    if |s| > 0 && sp(s[|s| - 1]) then
      var r := TrimRightBy(s[..|s| - 1], sp);
      assert s[..|s| - 1][..|r|] == s[..|r|];
      r
    else s
  }

  function TrimBy(s: string, sp: char -> bool): (r: string)
    ensures r == [] || (!sp(r[0]) && !sp(r[|r| - 1]))
  {
    var l := TrimLeftBy(s, sp);
    var r := TrimRightBy(l, sp);
    assert r != [] ==> r[0] == l[0];
    r
  }

  /** Trimming a string whose ends are not spaces changes nothing. */
  lemma TrimByUntouched(s: string, sp: char -> bool)
    requires s == [] || (!sp(s[0]) && !sp(s[|s| - 1]))
    ensures TrimBy(s, sp) == s
  {
  }

  lemma TrimByIdempotent(s: string, sp: char -> bool)
    ensures TrimBy(TrimBy(s, sp), sp) == TrimBy(s, sp)
  {
    TrimByUntouched(TrimBy(s, sp), sp);
  }

  /** Go `strings.TrimSpace`: white space is dropped from the front, then
      from the back. */
  function TrimSpace(s: string): (r: string)
    ensures |r| <= |s|
    decreases |s|
  {
    if |s| > 0 && IsSpace(s[0]) then TrimSpace(s[1..])
    else if |s| > 0 && IsSpace(s[|s| - 1]) then TrimSpace(s[..|s| - 1])
    else s
  }

  /** The result of TrimSpace starts and ends with a non-space. */
  lemma {:induction false} TrimSpaceEnds(s: string)
    ensures TrimSpace(s) == [] || (!IsSpace(TrimSpace(s)[0]) && !IsSpace(TrimSpace(s)[|TrimSpace(s)| - 1]))
    decreases |s|
  {
    if |s| > 0 && IsSpace(s[0]) {
      TrimSpaceEnds(s[1..]);
    } else if |s| > 0 && IsSpace(s[|s| - 1]) {
      TrimSpaceEnds(s[..|s| - 1]);
    }
  }

  /** Trimming a string whose ends are not spaces changes nothing. */
  lemma TrimSpaceUntouched(s: string)
    requires s == [] || (!IsSpace(s[0]) && !IsSpace(s[|s| - 1]))
    ensures TrimSpace(s) == s
  {
  }

  lemma TrimSpaceIdempotent(s: string)
    ensures TrimSpace(TrimSpace(s)) == TrimSpace(s)
  {
    TrimSpaceEnds(s);
    TrimSpaceUntouched(TrimSpace(s));
  }

  /** TrimSpace yields "" exactly when every character is white space. */
  lemma {:induction false} TrimSpaceEmpty(s: string)
    ensures TrimSpace(s) == [] <==> forall i :: 0 <= i < |s| ==> IsSpace(s[i])
    decreases |s|
  {
    if |s| > 0 && IsSpace(s[0]) {
      TrimSpaceEmpty(s[1..]);
      if forall i :: 0 <= i < |s[1..]| ==> IsSpace(s[1..][i]) {
        forall i | 0 <= i < |s| ensures IsSpace(s[i]) {
          if i > 0 {
            assert s[i] == s[1..][i - 1];
          }
        }
      }
    } else if |s| > 0 && IsSpace(s[|s| - 1]) {
      TrimSpaceEmpty(s[..|s| - 1]);
      assert !IsSpace(s[0]);
    } else if |s| > 0 {
      assert !IsSpace(s[0]);
    }
  }

  /** TrimSpace keeps a slice of `s` with only white space cut off
      around it. */
  lemma {:induction false} TrimSpaceSlice(s: string) returns (i: nat, j: nat)
    ensures i <= j <= |s| && TrimSpace(s) == s[i..j]
    ensures forall k :: 0 <= k < i ==> IsSpace(s[k])
    ensures forall k :: j <= k < |s| ==> IsSpace(s[k])
    decreases |s|
  {
    if |s| > 0 && IsSpace(s[0]) {
      var i', j' := TrimSpaceSlice(s[1..]);
      i, j := i' + 1, j' + 1;
      assert s[1..][i'..j'] == s[i..j];
      forall k | 0 <= k < i ensures IsSpace(s[k]) {
        if k > 0 {
          assert s[k] == s[1..][k - 1];
        }
      }
      forall k | j <= k < |s| ensures IsSpace(s[k]) {
        assert s[k] == s[1..][k - 1];
      }
    } else if |s| > 0 && IsSpace(s[|s| - 1]) {
      i, j := TrimSpaceSlice(s[..|s| - 1]);
      assert s[..|s| - 1][i..j] == s[i..j];
      forall k | j <= k < |s| ensures IsSpace(s[k]) {
        if k < |s| - 1 {
          assert s[k] == s[..|s| - 1][k];
        }
      }
    } else {
      i, j := 0, |s|;
    }
  }

  /** Lower-casing never makes or removes white space. */
  lemma LowerCharSpace(c: char)
    ensures IsSpace(LowerChar(c)) <==> IsSpace(c)
  {
  }

  /** Trimming and lower-casing commute. */
  lemma {:induction false} LowerTrimSpace(s: string)
    ensures Lower(TrimSpace(s)) == TrimSpace(Lower(s))
    decreases |s|
  {
    var l := Lower(s);
    if |s| > 0 && IsSpace(s[0]) {
      LowerCharSpace(s[0]);
      assert l[1..] == Lower(s[1..]);
      LowerTrimSpace(s[1..]);
    } else if |s| > 0 && IsSpace(s[|s| - 1]) {
      LowerCharSpace(s[0]);
      LowerCharSpace(s[|s| - 1]);
      assert l[..|l| - 1] == Lower(s[..|s| - 1]);
      LowerTrimSpace(s[..|s| - 1]);
    } else if |s| > 0 {
      LowerCharSpace(s[0]);
      LowerCharSpace(s[|s| - 1]);
    }
  }

  /** A word that neither starts nor ends with white space occurs in the
      trimmed text exactly when it occurs in the text. */
  lemma ContainsTrimSpace(s: string, w: string)
    requires w != [] && !IsSpace(w[0]) && !IsSpace(w[|w| - 1])
    ensures Contains(TrimSpace(s), w) <==> Contains(s, w)
  {
    var i, j := TrimSpaceSlice(s);
    var t := TrimSpace(s);
    if Contains(t, w) {
      var k :| 0 <= k <= |t| && OccursAt(t, w, k);
      forall m | 0 <= m < |w| ensures s[i + k + m] == w[m] {
        assert t[k + m] == s[i + k + m];
        assert t[k..k + |w|][m] == t[k + m];
      }
      assert s[i + k..i + k + |w|] == w;
      assert OccursAt(s, w, i + k);
    }
    if Contains(s, w) {
      var k :| 0 <= k <= |s| && OccursAt(s, w, k);
      assert s[k] == w[0] && s[k + |w| - 1] == w[|w| - 1];
      assert i <= k && k + |w| <= j;
      forall m | 0 <= m < |w| ensures t[k - i + m] == w[m] {
        assert t[k - i + m] == s[k + m];
        assert s[k..k + |w|][m] == s[k + m];
      }
      assert t[k - i..k - i + |w|] == w;
      assert OccursAt(t, w, k - i);
    }
  }

  /** JavaScript `String.prototype.trim`. */
  function JsTrim(s: string): (r: string)
    ensures r == [] || (!IsJsSpace(r[0]) && !IsJsSpace(r[|r| - 1]))
  {
    TrimBy(s, IsJsSpace)
  }

  // ---------------------------------------------------------------------
  // Splitting and joining

  /** Go `strings.Split(s, string(sep))`: always at least one part. */
  function Split(s: string, sep: char): (parts: seq<string>)
    ensures |parts| >= 1
    ensures forall i :: 0 <= i < |parts| ==> sep !in parts[i]
  {
    if s == [] then [[]]
    else
      var rest := Split(s[1..], sep);
      if s[0] == sep then [[]] + rest else [[s[0]] + rest[0]] + rest[1..]
  }

  /** Go `strings.Join`. */
  function Join(parts: seq<string>, sep: string): string {
    if |parts| == 0 then []
    else if |parts| == 1 then parts[0]
    else parts[0] + sep + Join(parts[1..], sep)
  }

  lemma {:induction false} JoinCons(p: string, parts: seq<string>, sep: string)
    requires |parts| >= 1
    ensures Join([p] + parts, sep) == p + sep + Join(parts, sep)
  {
    assert ([p] + parts)[1..] == parts;
  }

  /** Joining the parts of a split with the separator gives back the string. */
  lemma {:induction false} JoinSplit(s: string, sep: char)
    ensures Join(Split(s, sep), [sep]) == s
  {
    if s != [] {
      var rest := Split(s[1..], sep);
      JoinSplit(s[1..], sep);
      if s[0] == sep {
        JoinCons([], rest, [sep]);
      } else if |rest| == 1 {
      } else {
        JoinCons(rest[0], rest[1..], [sep]);
        JoinCons([s[0]] + rest[0], rest[1..], [sep]);
        assert [rest[0]] + rest[1..] == rest;
      }
    }
  }

  /** Splitting a join of separator-free parts gives back the parts. */
  lemma {:induction false} SplitJoin(parts: seq<string>, sep: char)
    requires |parts| >= 1
    requires forall i :: 0 <= i < |parts| ==> sep !in parts[i]
    ensures Split(Join(parts, [sep]), sep) == parts
  {
    if |parts| == 1 {
      SplitFree(parts[0], sep);
    } else {
      SplitJoin(parts[1..], sep);
      SplitPrefix(parts[0], Join(parts[1..], [sep]), sep);
      assert [parts[0]] + parts[1..] == parts;
    }
  }

  lemma {:induction false} SplitFree(s: string, sep: char)
    requires sep !in s
    ensures Split(s, sep) == [s]
  {
    if s != [] {
      assert sep !in s[1..];
      SplitFree(s[1..], sep);
      assert [s[0]] + s[1..] == s;
    }
  }

  lemma {:induction false} SplitPrefix(p: string, t: string, sep: char)
    requires sep !in p
    ensures Split(p + [sep] + t, sep) == [p] + Split(t, sep)
  {
    if p == [] {
      assert p + [sep] + t == [sep] + t;
      assert ([sep] + t)[1..] == t;
    } else {
      assert (p + [sep] + t)[1..] == p[1..] + [sep] + t;
      assert sep !in p[1..];
      SplitPrefix(p[1..], t, sep);
      assert [p[0]] + p[1..] == p;
    }
  }

  /** The non-empty pieces between runs of separator characters
      (Go `strings.FieldsFunc`). */
  function FieldsBy(s: string, sep: char -> bool): (fields: seq<string>)
    ensures forall i :: 0 <= i < |fields| ==> |fields[i]| > 0
    ensures forall i, j :: 0 <= i < |fields| && 0 <= j < |fields[i]| ==> !sep(fields[i][j])
  {
    FieldsFrom(s, sep, [])
  }

  /** FieldsBy with the characters of a field that is still open in `cur`. */
  function FieldsFrom(s: string, sep: char -> bool, cur: string): (fields: seq<string>)
    requires forall j :: 0 <= j < |cur| ==> !sep(cur[j])
    ensures forall i :: 0 <= i < |fields| ==> |fields[i]| > 0
    ensures forall i, j :: 0 <= i < |fields| && 0 <= j < |fields[i]| ==> !sep(fields[i][j])
    decreases |s|
  {
    if s == [] then (if cur == [] then [] else [cur])
    else if sep(s[0]) then (if cur == [] then [] else [cur]) + FieldsFrom(s[1..], sep, [])
    else FieldsFrom(s[1..], sep, cur + [s[0]])
  }

  /** Go `strings.Fields`. */
  function Fields(s: string): seq<string> { FieldsBy(s, IsSpace) }

  /** Go `strings.ReplaceAll` for a non-empty pattern: left to right,
      non-overlapping. */
  function ReplaceAll(s: string, pat: string, repl: string): string
    requires |pat| > 0
    decreases |s|
  {
    if |s| < |pat| then s
    else if s[..|pat|] == pat then repl + ReplaceAll(s[|pat|..], pat, repl)
    else [s[0]] + ReplaceAll(s[1..], pat, repl)
  }

  lemma {:induction false} ReplaceAllAbsent(s: string, pat: string, repl: string)
    requires |pat| > 0
    requires !Contains(s, pat)
    ensures ReplaceAll(s, pat, repl) == s
    decreases |s|
  {
    if |s| >= |pat| {
      assert !OccursAt(s, pat, 0);
      assert !Contains(s[1..], pat) by {
        forall i | OccursAt(s[1..], pat, i) ensures false {
          assert s[1..][i..i + |pat|] == s[i + 1..i + 1 + |pat|];
          assert OccursAt(s, pat, i + 1);
        }
      }
      ReplaceAllAbsent(s[1..], pat, repl);
      assert [s[0]] + s[1..] == s;
    }
  }

  /** Replacing every occurrence of a one-character pattern by text without
      that character leaves none of it. */
  lemma {:induction false} ReplaceAllRemoves(s: string, c: char, repl: string)
    requires c !in repl
    ensures c !in ReplaceAll(s, [c], repl)
    decreases |s|
  {
    if |s| >= 1 {
      ReplaceAllRemoves(s[1..], c, repl);
    }
  }

  /** ReplaceAll introduces no character that neither the input nor the
      replacement has. */
  lemma {:induction false} ReplaceAllKeepsOut(s: string, pat: string, repl: string, c: char)
    requires |pat| > 0 && c !in s && c !in repl
    ensures c !in ReplaceAll(s, pat, repl)
    decreases |s|
  {
    if |s| >= |pat| {
      if s[..|pat|] == pat {
        ReplaceAllKeepsOut(s[|pat|..], pat, repl, c);
      } else {
        ReplaceAllKeepsOut(s[1..], pat, repl, c);
      }
    }
  }

  /** TrimSpace introduces no character. */
  lemma {:induction false} TrimSpaceKeepsOut(s: string, c: char)
    requires c !in s
    ensures c !in TrimSpace(s)
    decreases |s|
  {
    if |s| > 0 && IsSpace(s[0]) {
      TrimSpaceKeepsOut(s[1..], c);
    } else if |s| > 0 && IsSpace(s[|s| - 1]) {
      TrimSpaceKeepsOut(s[..|s| - 1], c);
    }
  }

  /** Joining introduces no character that neither the parts nor the
      separator has. */
  lemma {:induction false} JoinKeepsOut(parts: seq<string>, sep: string, c: char)
    requires c !in sep && forall i :: 0 <= i < |parts| ==> c !in parts[i]
    ensures c !in Join(parts, sep)
    decreases |parts|
  {
    if |parts| > 1 {
      JoinKeepsOut(parts[1..], sep, c);
    }
  }

  /** A single character removed everywhere: the result is the input with
      that character filtered out. */
  function Without(s: string, c: char): (r: string)
    ensures c !in r
    ensures |r| <= |s|
  {
    if s == [] then [] else (if s[0] == c then [] else [s[0]]) + Without(s[1..], c)
  }

  /** The number of bytes a character takes in UTF-8. */
  function Utf8Width(c: char): (w: nat)
    ensures 1 <= w <= 4
  {
    var n := c as int;
    if n < 0x80 then 1 else if n < 0x800 then 2 else if n < 0x10000 then 3 else 4
  }

  /** Go `len` of a string: its length in UTF-8 bytes. */
  function ByteLen(s: string): (n: nat)
    ensures |s| <= n <= 4 * |s|
  {
    if s == [] then 0 else Utf8Width(s[0]) + ByteLen(s[1..])
  }

  // ---------------------------------------------------------------------
  // Decimal rendering (`strconv.Itoa`, `%d`, template literals)

  function DigitChar(d: nat): char
    requires d < 10
  {
    "0123456789"[d]
  }

  function NatToString(n: nat): (r: string)
    ensures |r| >= 1
    ensures forall i :: 0 <= i < |r| ==> IsAsciiDigit(r[i])
  {
    if n < 10 then [DigitChar(n)] else NatToString(n / 10) + [DigitChar(n % 10)]
  }

  function IntToString(n: int): string {
    if n < 0 then "-" + NatToString(-n) else NatToString(n)
  }

  const MinInt64: int := -0x8000_0000_0000_0000
  const MaxInt64: int := 0x7FFF_FFFF_FFFF_FFFF

  /** Go `strconv.Atoi` (64-bit `int`): ASCII digits with an optional sign;
      a value outside the 64-bit range is a range error. */
  function ParseInt(s: string): (r: Option<int>)
    ensures r.Some? ==> MinInt64 <= r.value <= MaxInt64
    ensures r.Some? ==> |s| >= 1 && (AllDigits(s) || ((s[0] == '-' || s[0] == '+') && |s| > 1 && AllDigits(s[1..])))
  {
    var v: Option<int> :=
      if |s| == 0 then None
      else if s[0] == '-' || s[0] == '+' then
        (if |s| > 1 && AllDigits(s[1..]) then
           var d: int := DigitsValue(s[1..]);
           Some(if s[0] == '-' then -d else d)
         else None)
      else if AllDigits(s) then Some(DigitsValue(s))
      else None;
    if v.Some? && MinInt64 <= v.value <= MaxInt64 then v else None
  }

  /** Rendering a 64-bit integer in decimal and parsing it back gives it
      back. */
  lemma ParseIntToString(n: int)
    requires MinInt64 <= n <= MaxInt64
    ensures ParseInt(IntToString(n)) == Some(n)
  {
    if n < 0 {
      var s := "-" + NatToString(-n);
      assert s[1..] == NatToString(-n);
      DigitsValueOfNat(-n);
    } else {
      DigitsValueOfNat(n);
    }
  }

  lemma {:induction false} DigitsValueOfNat(n: nat)
    ensures AllDigits(NatToString(n)) && DigitsValue(NatToString(n)) == n
  {
    var s := NatToString(n);
    if n >= 10 {
      DigitsValueOfNat(n / 10);
      assert s[..|s| - 1] == NatToString(n / 10);
    }
  }

  predicate AllDigits(s: string) { forall i :: 0 <= i < |s| ==> IsAsciiDigit(s[i]) }

  function DigitsValue(s: string): nat
    requires AllDigits(s)
  {
    if s == [] then 0 else DigitsValue(s[..|s| - 1]) * 10 + (s[|s| - 1] as int - '0' as int)
  }

}
