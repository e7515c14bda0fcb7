/** ASCII text helpers and `slugify` (app/utils/helpers.py). */
module Helpers {

  /** What Python strips and what `\s` matches, among the ASCII characters. */
  predicate IsSpace(c: char) {
    c == ' ' || '\t' <= c <= '\r' || '\U{1C}' <= c <= '\U{1F}'
  }

  predicate IsWord(c: char) {
    'a' <= c <= 'z' || 'A' <= c <= 'Z' || '0' <= c <= '9' || c == '_'
  }

  function LowerChar(c: char): char {
    if 'A' <= c <= 'Z' then (c as int + 32) as char else c
  }

  function StripLeft(s: string): string {
    if s != "" && IsSpace(s[0]) then StripLeft(s[1..]) else s
  }

  function StripRight(s: string): string {
    if s != "" && IsSpace(s[|s| - 1]) then StripRight(s[..|s| - 1]) else s
  }

  function Strip(s: string): string {
    StripRight(StripLeft(s))
  }

  /** `re.sub(r"[^\w\s-]", "", text)`. */
  function Keep(s: string): string {
    if s == "" then ""
    else (if IsWord(s[0]) || IsSpace(s[0]) || s[0] == '-' then [s[0]] else []) + Keep(s[1..])
  }

  function Lower(s: string): string {
    if s == "" then "" else [LowerChar(s[0])] + Lower(s[1..])
  }

  predicate IsGap(c: char) {
    c == '-' || IsSpace(c)
  }

  /** `re.sub(r"[-\s]+", "-", text)`: each maximal run of gaps becomes one hyphen. */
  function Collapse(s: string): string {
    if s == "" then ""
    else if IsGap(s[0]) then
      if |s| > 1 && IsGap(s[1]) then Collapse(s[1..]) else "-" + Collapse(s[1..])
    else [s[0]] + Collapse(s[1..])
  }

  /** `slugify` of ASCII text. */
  function Slugify(text: string): string {
    var slug := Collapse(Strip(Lower(Keep(text))));
    if slug == "" then "org" else slug
  }

  // ---------------------------------------------------------------- properties

  predicate SlugChar(c: char) {
    'a' <= c <= 'z' || '0' <= c <= '9' || c == '_' || c == '-'
  }

  /** Lower-case word characters and hyphens, no two hyphens in a row. */
  predicate IsSlug(s: string) {
    && s != ""
    && (forall i :: 0 <= i < |s| ==> SlugChar(s[i]))
    && (forall i :: 0 <= i < |s| - 1 ==> s[i] != '-' || s[i + 1] != '-')
  }

  /** The characters that survive filtering and lower-casing. */
  predicate Clean(s: string) {
    forall i :: 0 <= i < |s| ==> SlugChar(s[i]) || IsSpace(s[i])
  }

  lemma {:induction false} FilteredIsClean(s: string)
    ensures Clean(Lower(Keep(s)))
  {
    if s != "" {
      FilteredIsClean(s[1..]);
      var rest := Keep(s[1..]);
      if IsWord(s[0]) || IsSpace(s[0]) || s[0] == '-' {
        assert Keep(s) == [s[0]] + rest;
        assert ([s[0]] + rest)[1..] == rest;
        assert Lower(Keep(s)) == [LowerChar(s[0])] + Lower(rest);
      } else {
        assert Keep(s) == rest;
      }
    }
  }

  lemma {:induction false} StripLeftIsSuffix(s: string)
    ensures |StripLeft(s)| <= |s| && StripLeft(s) == s[|s| - |StripLeft(s)|..]
  {
    if s != "" && IsSpace(s[0]) {
      StripLeftIsSuffix(s[1..]);
    }
  }

  lemma {:induction false} StripRightIsPrefix(s: string)
    ensures StripRight(s) <= s
  {
    if s != "" && IsSpace(s[|s| - 1]) {
      StripRightIsPrefix(s[..|s| - 1]);
    }
  }

  lemma StripKeepsClean(s: string)
    requires Clean(s)
    ensures Clean(Strip(s))
  {
    StripLeftIsSuffix(s);
    StripRightIsPrefix(StripLeft(s));
  }

  lemma {:induction false} CollapseIsSlug(s: string)
    requires Clean(s)
    ensures Collapse(s) != "" ==> IsSlug(Collapse(s))
    ensures Collapse(s) == "" <==> s == ""
    ensures s != "" && !IsGap(s[0]) ==> Collapse(s)[0] != '-'
  {
    if s != "" {
      var rest := s[1..];
      assert forall i :: 0 <= i < |rest| ==> rest[i] == s[i + 1];
      CollapseIsSlug(rest);
      var out := Collapse(s);
      if IsGap(s[0]) && |s| > 1 && IsGap(s[1]) {
      } else {
        var head := if IsGap(s[0]) then '-' else s[0];
        assert out == [head] + Collapse(rest);
        forall i | 0 <= i < |out| - 1 ensures out[i] != '-' || out[i + 1] != '-' {
          if i > 0 {
            assert out[i] == Collapse(rest)[i - 1] && out[i + 1] == Collapse(rest)[i];
          }
        }
      }
    }
  }

  /** Every slug is of that form, and never empty. */
  lemma SlugifyIsSlug(text: string)
    ensures IsSlug(Slugify(text))
  {
    FilteredIsClean(text);
    StripKeepsClean(Lower(Keep(text)));
    CollapseIsSlug(Strip(Lower(Keep(text))));
  }

  lemma {:induction false} SlugIsFixed(s: string)
    requires forall i :: 0 <= i < |s| ==> SlugChar(s[i])
    requires forall i :: 0 <= i < |s| - 1 ==> s[i] != '-' || s[i + 1] != '-'
    ensures Keep(s) == s && Lower(s) == s && Collapse(s) == s
  {
    if s != "" {
      var rest := s[1..];
      assert forall i :: 0 <= i < |rest| ==> rest[i] == s[i + 1];
      SlugIsFixed(rest);
      assert s == [s[0]] + rest;
    }
  }

  /**
   What becomes of each character, by its ASCII code: letters lose their case, digits, underscores, hyphens and
   blanks stay, and everything else goes.
   */
  lemma CharByChar(c: char)
    ensures var code := c as int;
            Lower(Keep([c])) ==
              if 65 <= code <= 90 then [(code + 32) as char]
              else if 97 <= code <= 122 || 48 <= code <= 57 || code == 95 || code == 45
                   || 9 <= code <= 13 || 28 <= code <= 32 then [c]
              else ""
  {
    assert [c][1..] == "";
    assert Keep([c]) == "" || Keep([c]) == [c];
  }

  /** And each on its own, wherever it stands. */
  lemma {:induction false} FilterDistributes(s: string, t: string)
    ensures Lower(Keep(s + t)) == Lower(Keep(s)) + Lower(Keep(t))
  {
    if s == "" {
      assert s + t == t && Lower("") + Lower(Keep(t)) == Lower(Keep(t));
    } else {
      FilterDistributes(s[1..], t);
      assert (s + t)[0] == s[0] && (s + t)[1..] == s[1..] + t;
      var kept := if IsWord(s[0]) || IsSpace(s[0]) || s[0] == '-' then [s[0]] else [];
      LowerDistributes(kept, Keep(s[1..]));
      LowerDistributes(kept, Keep(s[1..] + t));
    }
  }

  lemma LowerDistributes(head: string, rest: string)
    requires |head| <= 1
    ensures Lower(head + rest) == Lower(head) + Lower(rest)
  {
    if head != "" {
      assert (head + rest)[0] == head[0] && (head + rest)[1..] == rest && head[1..] == "";
    } else {
      assert head + rest == rest;
    }
  }

  /** Blanks: tab to carriage return, the four separators, and the space. */
  lemma BlanksAre(c: char)
    ensures IsSpace(c) <==> c as int in {9, 10, 11, 12, 13, 28, 29, 30, 31, 32}
  {
  }

  /** Stripping takes the longest runs of blanks off both ends and nothing else. */
  lemma StripsBothEnds(s: string) returns (i: nat, k: nat)
    ensures i <= k <= |s| && Strip(s) == s[i..k]
    ensures forall m :: 0 <= m < i || k <= m < |s| ==> IsSpace(s[m])
    ensures i < k ==> !IsSpace(s[i]) && !IsSpace(s[k - 1])
  {
    i := StripsLeftEnd(s);
    var rest := StripLeft(s);
    var n := StripsRightEnd(rest);
    k := i + n;
    forall m | k <= m < |s| ensures IsSpace(s[m]) {
      assert rest[m - i] == s[m];
    }
    if i < k {
      assert s[i] == rest[0] && s[k - 1] == rest[n - 1];
    }
  }

  lemma {:induction false} StripsLeftEnd(s: string) returns (i: nat)
    ensures i <= |s| && StripLeft(s) == s[i..]
    ensures forall m :: 0 <= m < i ==> IsSpace(s[m])
    ensures i < |s| ==> !IsSpace(s[i])
  {
    if s != "" && IsSpace(s[0]) {
      var n := StripsLeftEnd(s[1..]);
      i := n + 1;
      forall m | 0 <= m < i ensures IsSpace(s[m]) {
        assert m > 0 ==> s[1..][m - 1] == s[m];
      }
    } else {
      i := 0;
    }
  }

  lemma {:induction false} StripsRightEnd(s: string) returns (n: nat)
    ensures n <= |s| && StripRight(s) == s[..n]
    ensures forall m :: n <= m < |s| ==> IsSpace(s[m])
    ensures n > 0 ==> !IsSpace(s[n - 1])
  {
    if s != "" && IsSpace(s[|s| - 1]) {
      n := StripsRightEnd(s[..|s| - 1]);
      forall m | n <= m < |s| ensures IsSpace(s[m]) {
        assert m < |s| - 1 ==> s[..|s| - 1][m] == s[m];
      }
    } else {
      n := |s|;
    }
  }

  /** A text without a word becomes `org`. */
  lemma NothingLeftIsOrg(text: string)
    requires Strip(Lower(Keep(text))) == ""
    ensures Slugify(text) == "org"
  {
  }

  /** The words of a text: its maximal runs without spaces and hyphens. */
  function Words(s: string): (words: seq<string>)
    ensures s != "" && !IsGap(s[0]) ==> words != []
  {
    if s == "" then []
    else if IsGap(s[0]) then Words(s[1..])
    else if |s| == 1 || IsGap(s[1]) then [[s[0]]] + Words(s[1..])
    else
      var rest := Words(s[1..]);
      [[s[0]] + rest[0]] + rest[1..]
  }

  lemma {:induction false} CollapseKeepsWords(s: string)
    ensures Words(Collapse(s)) == Words(s)
    ensures s != "" <==> Collapse(s) != ""
    ensures s != "" ==> (IsGap(Collapse(s)[0]) <==> IsGap(s[0]))
  {
    if s != "" {
      var rest := s[1..];
      CollapseKeepsWords(rest);
      if !(IsGap(s[0]) && |s| > 1 && IsGap(s[1])) {
        var head := if IsGap(s[0]) then '-' else s[0];
        assert Collapse(s) == [head] + Collapse(rest);
        assert ([head] + Collapse(rest))[1..] == Collapse(rest);
      }
    }
  }

  lemma {:induction false} StripLeftKeepsWords(s: string)
    ensures Words(StripLeft(s)) == Words(s)
  {
    if s != "" && IsSpace(s[0]) {
      StripLeftKeepsWords(s[1..]);
    }
  }

  lemma {:induction false} LastGapIsNoWord(s: string)
    requires s != "" && IsGap(s[|s| - 1])
    ensures Words(s[..|s| - 1]) == Words(s)
  {
    if |s| > 1 {
      LastGapIsNoWord(s[1..]);
      assert s[1..][..|s| - 2] == s[..|s| - 1][1..];
    }
  }

  lemma {:induction false} StripRightKeepsWords(s: string)
    ensures Words(StripRight(s)) == Words(s)
  {
    if s != "" && IsSpace(s[|s| - 1]) {
      LastGapIsNoWord(s);
      StripRightKeepsWords(s[..|s| - 1]);
    }
  }

  /** A slug has the words of the filtered, lower-cased text, in their order, and no others. */
  lemma SlugKeepsWords(text: string)
    ensures var words := Words(Lower(Keep(text))); words != [] ==> Words(Slugify(text)) == words
    ensures Slugify(text) == "org" || Words(Slugify(text)) == Words(Lower(Keep(text)))
  {
    var s := Lower(Keep(text));
    StripLeftKeepsWords(s);
    StripRightKeepsWords(StripLeft(s));
    CollapseKeepsWords(Strip(s));
  }

  /** Slugifying a slug changes nothing. */
  lemma SlugifyIsIdempotent(text: string)
    ensures Slugify(Slugify(text)) == Slugify(text)
  {
    var s := Slugify(text);
    SlugifyIsSlug(text);
    SlugIsFixed(s);
    assert SlugChar(s[0]) && SlugChar(s[|s| - 1]);
    assert Strip(s) == s;
  }
}
