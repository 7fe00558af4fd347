/** Query normalisation for retrieval
    (apps/server/internal/rag/biz/normalize.go): the question is
    lower-cased, letters and numbers are kept, every run of white space,
    punctuation and symbols becomes one space, anything else is dropped,
    and the ends are trimmed. */
module QueryNormalize {
  import opened Text

  predicate IsBreak(c: char) { IsSpace(c) || IsPunct(c) || IsSymbol(c) }

  /** What one rune adds to the builder, and whether the last thing
      written is then the collapsing space. */
  function Step(c: char, space: bool): (string, bool) {
    if IsWordChar(c) then ([c], false)
    else if IsBreak(c) then (if space then [] else [' '], true)
    else ([], space)
  }

  /** What the builder receives from the rest of the (lower-cased) text,
      given whether the last thing written was the collapsing space. */
  function Collapse(s: string, space: bool): string
    decreases |s|
  {
    if s == [] then []
    else
      var (w, next) := Step(s[0], space);
      w + Collapse(s[1..], next)
  }

  /** normalizeQuery. */
  function NormalizeQuery(text: string): (r: string)
    ensures TrimSpace(text) == "" ==> r == ""
  {
    if TrimSpace(text) == "" then "" else TrimSpace(Collapse(Lower(text), false))
  }

  /** The builder loop of normalizeQuery, one rune at a time. */
  method BuildNormalized(text: string) returns (r: string)
    ensures r == NormalizeQuery(text)
  {
    if TrimSpace(text) == "" {
      return "";
    }
    var low := Lower(text);
    var b := "";
    var space := false;
    var i := 0;
    while i < |low|
      invariant 0 <= i <= |low|
      invariant b + Collapse(low[i..], space) == Collapse(low, false)
    {
      assert low[i..][1..] == low[i + 1..];
      var (w, next) := Step(low[i], space);
      assert b + Collapse(low[i..], space) == (b + w) + Collapse(low[i + 1..], next);
      b := b + w;
      space := next;
      i := i + 1;
    }
    assert low[i..] == [];
    assert b + [] == b;
    assert b == Collapse(low, false);
    r := TrimSpace(b);
  }

  /** The characters a normalised query may hold: single spaces and
      letters or numbers that lower-casing leaves alone. */
  predicate Clean(s: string) {
    forall i :: 0 <= i < |s| ==> s[i] == ' ' || (IsWordChar(s[i]) && LowerChar(s[i]) == s[i])
  }

  /** No two spaces are adjacent. */
  predicate SingleSpaced(s: string) {
    forall i :: 0 <= i < |s| - 1 ==> !(s[i] == ' ' && s[i + 1] == ' ')
  }

  /** Collapse over lower-cased text writes clean, single-spaced output,
      and none at the front when a space was just written. */
  lemma {:induction false} CollapseShape(s: string, space: bool)
    requires forall i :: 0 <= i < |s| ==> LowerChar(s[i]) == s[i]
    ensures Clean(Collapse(s, space)) && SingleSpaced(Collapse(s, space))
    ensures space ==> Collapse(s, space) == [] || Collapse(s, space)[0] != ' '
    decreases |s|
  {
    if s != [] {
      var (w, next) := Step(s[0], space);
      assert forall i :: 0 <= i < |s[1..]| ==> LowerChar(s[1..][i]) == s[1..][i];
      CollapseShape(s[1..], next);
      var rest := Collapse(s[1..], next);
      var r := w + rest;
      assert Collapse(s, space) == r;
      assert w == [] || w == [' '] || (w == [s[0]] && IsWordChar(s[0]) && LowerChar(s[0]) == s[0]);
      assert w == [' '] ==> next;
      forall i | 0 <= i < |r| ensures r[i] == ' ' || (IsWordChar(r[i]) && LowerChar(r[i]) == r[i]) {
        if i >= |w| {
          assert r[i] == rest[i - |w|];
        }
      }
      forall i | 0 <= i < |r| - 1 ensures !(r[i] == ' ' && r[i + 1] == ' ') {
        if i >= |w| {
          assert r[i] == rest[i - |w|] && r[i + 1] == rest[i + 1 - |w|];
        } else {
          assert r[i + 1] == rest[0];
        }
      }
    }
  }

  /** TrimSpace keeps both shapes: it only removes characters from the
      ends. */
  lemma {:induction false} TrimKeepsShape(s: string)
    requires Clean(s) && SingleSpaced(s)
    ensures Clean(TrimSpace(s)) && SingleSpaced(TrimSpace(s))
    decreases |s|
  {
    if |s| > 0 && IsSpace(s[0]) {
      TrimKeepsShape(s[1..]);
    } else if |s| > 0 && IsSpace(s[|s| - 1]) {
      TrimKeepsShape(s[..|s| - 1]);
    }
  }

  /** A normalised query holds only lower-case letters, numbers and single
      inner spaces: no space at either end and no two in a row. */
  lemma NormalizeShape(text: string)
    ensures var r := NormalizeQuery(text);
      && Clean(r) && SingleSpaced(r)
      && (r == [] || (r[0] != ' ' && r[|r| - 1] != ' '))
  {
    if TrimSpace(text) != "" {
      var low := Lower(text);
      forall i | 0 <= i < |low| ensures LowerChar(low[i]) == low[i] {
        LowerCharIdempotent(text[i]);
      }
      CollapseShape(low, false);
      TrimKeepsShape(Collapse(low, false));
      TrimSpaceEnds(Collapse(low, false));
    }
  }

  /** Collapse leaves clean text that does not start with a space alone. */
  lemma {:induction false} CollapseClean(s: string, space: bool)
    requires Clean(s) && SingleSpaced(s)
    requires s != [] && space ==> s[0] != ' '
    ensures Collapse(s, space) == s
    decreases |s|
  {
    if s != [] {
      var c := s[0];
      assert Clean(s[1..]) && SingleSpaced(s[1..]);
      if c == ' ' {
        assert !IsWordChar(c) && IsBreak(c);
        assert s[1..] != [] ==> s[1..][0] != ' ';
        CollapseClean(s[1..], true);
      } else {
        CollapseClean(s[1..], false);
      }
    }
  }

  /** Normalising twice is normalising once. */
  lemma NormalizeIdempotent(text: string)
    ensures NormalizeQuery(NormalizeQuery(text)) == NormalizeQuery(text)
  {
    var r := NormalizeQuery(text);
    NormalizeShape(text);
    if r != [] {
      assert !IsSpace(r[0]);
      TrimSpaceEmpty(r);
      assert Lower(r) == r;
      CollapseClean(r, false);
      TrimSpaceUntouched(r);
    }
  }
}
