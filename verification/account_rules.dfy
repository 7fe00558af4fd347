/** Account-field helpers of the dashboard's login and registration pages
    (apps/dashboard/src/pages/auth/utils.ts). Regular expressions are stated
    by what they match. */
module AccountRules {
  import opened Text
  import opened Collections

  /** `normalizeAccount`: JavaScript `trim`. */
  function NormalizeAccount(raw: string): (r: string)
    ensures r == [] || (!IsJsSpace(r[0]) && !IsJsSpace(r[|r| - 1]))
    ensures |r| <= |raw|
  {
    JsTrim(raw)
  }

  /** The characters `/[\s-]/g` removes. */
  predicate PhoneFiller(c: char) { IsJsSpace(c) || c == '-' }

  predicate KeptInPhone(c: char) { !PhoneFiller(c) }

  /** `normalizePhone`: every white-space character and every `-` deleted,
      every other character kept in order. */
  function NormalizePhone(raw: string): (r: string)
    ensures forall i :: 0 <= i < |r| ==> !PhoneFiller(r[i])
    ensures forall c :: c in r <==> c in raw && !PhoneFiller(c)
    ensures IsSubsequence(r, raw)
  {
    FilterIsSubsequence(raw, KeptInPhone);
    var r := Filter(raw, KeptInPhone);
    assert forall i :: 0 <= i < |r| ==> r[i] in r;
    r
  }

  lemma NormalizePhoneIdempotent(raw: string)
    ensures NormalizePhone(NormalizePhone(raw)) == NormalizePhone(raw)
  {
    FilterIdempotent(raw, KeptInPhone);
  }

  /** A string with no white space and no `-` is already normalized. */
  lemma NormalizePhoneClean(raw: string)
    requires forall i :: 0 <= i < |raw| ==> !PhoneFiller(raw[i])
    ensures NormalizePhone(raw) == raw
  {
    FilterAllPass(raw, KeptInPhone);
  }

  /** `^\+?\d{6,20}$` */
  predicate PhonePattern(n: string) {
    if |n| > 0 && n[0] == '+' then AllDigits(n[1..]) && 6 <= |n| - 1 <= 20
    else AllDigits(n) && 6 <= |n| <= 20
  }

  /** The pattern holds iff the string is 6 to 20 ASCII digits, with or
      without one leading `+`. */
  lemma PhonePatternMeaning(n: string)
    ensures PhonePattern(n) <==>
      (exists d :: (n == d || n == "+" + d) && AllDigits(d) && 6 <= |d| <= 20)
  {
    if PhonePattern(n) {
      if |n| > 0 && n[0] == '+' {
        assert n == "+" + n[1..];
      }
    }
    if exists d :: (n == d || n == "+" + d) && AllDigits(d) && 6 <= |d| <= 20 {
      var d :| (n == d || n == "+" + d) && AllDigits(d) && 6 <= |d| <= 20;
      if n == "+" + d {
        assert n[1..] == d;
      } else {
        assert !IsAsciiDigit('+');
      }
    }
  }

  /** `looksLikePhone` */
  predicate LooksLikePhone(value: string) {
    PhonePattern(NormalizePhone(value))
  }

  /** Separators do not matter: `+86 138-0013-8000` looks like a phone. */
  lemma PhoneIgnoresSeparators(value: string)
    ensures LooksLikePhone(value) == LooksLikePhone(NormalizePhone(value))
  {
    NormalizePhoneIdempotent(value);
  }

  predicate NonSpaceRun(s: string, from: int, to: int)
    requires 0 <= from <= to <= |s|
  {
    from < to && forall i :: from <= i < to ==> !IsJsSpace(s[i])
  }

  /** `/\S+@\S+\.\S+/` (unanchored): some `@` has a non-space character
      before it, and is followed by a non-space run that ends in a `.`
      followed by a non-space character. */
  predicate LooksLikeEmail(value: string) {
    exists at, dot :: 1 <= at && at + 1 < dot && dot + 1 < |value| &&
      value[at] == '@' && value[dot] == '.' &&
      NonSpaceRun(value, at - 1, at) && NonSpaceRun(value, at + 1, dot) && NonSpaceRun(value, dot + 1, dot + 2)
  }

  /** Anything of the shape `x@y.z` with non-empty, space-free parts looks
      like an e-mail address. */
  lemma EmailShape(x: string, y: string, z: string)
    requires |x| > 0 && |y| > 0 && |z| > 0
    requires forall i :: 0 <= i < |x| ==> !IsJsSpace(x[i])
    requires forall i :: 0 <= i < |y| ==> !IsJsSpace(y[i])
    requires forall i :: 0 <= i < |z| ==> !IsJsSpace(z[i])
    ensures LooksLikeEmail(x + "@" + y + "." + z)
  {
    var v := x + "@" + y + "." + z;
    var at := |x|;
    var dot := |x| + 1 + |y|;
    assert v[at] == '@' && v[dot] == '.';
    assert v[at - 1] == x[|x| - 1];
    assert v[dot + 1] == z[0];
    assert forall i :: at + 1 <= i < dot ==> v[i] == y[i - at - 1];
    assert NonSpaceRun(v, at - 1, at) && NonSpaceRun(v, at + 1, dot) && NonSpaceRun(v, dot + 1, dot + 2);
  }

  /** Without an `@` there is no match. */
  lemma EmailNeedsAt(value: string)
    requires '@' !in value
    ensures !LooksLikeEmail(value)
  {
  }

  /** `validateAccount`: the trimmed value looks like an e-mail address or a
      phone number. */
  predicate ValidateAccount(value: string) {
    var normalized := NormalizeAccount(value);
    LooksLikeEmail(normalized) || LooksLikePhone(normalized)
  }

  /** Surrounding white space never changes the verdict. */
  lemma ValidateIgnoresPadding(value: string)
    ensures ValidateAccount(value) == ValidateAccount(NormalizeAccount(value))
  {
    TrimByIdempotent(value, IsJsSpace);
  }
}
