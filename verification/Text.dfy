/** The string operations the pipeline relies on, for ASCII letters and blanks. */
module Text {
  predicate IsSpace(c: char) {
    c == ' ' || c == '\t' || c == '\n' || c == '\r'
  }

  function StripLeft(s: string): string {
    if s != [] && IsSpace(s[0]) then StripLeft(s[1..]) else s
  }

  function StripRight(s: string): string {
    if s != [] && IsSpace(s[|s| - 1]) then StripRight(s[..|s| - 1]) else s
  }

  function Lower(s: string): string {
    seq(|s|, i requires 0 <= i < |s| => if 'A' <= s[i] <= 'Z' then s[i] - 'A' + 'a' else s[i])
  }

  function Strip(s: string): string {
    StripRight(StripLeft(s))
  }

  predicate StartsWith(s: string, prefix: string) {
    |prefix| <= |s| && s[..|prefix|] == prefix
  }

  predicate EndsWith(s: string, suffix: string) {
    |suffix| <= |s| && s[|s| - |suffix|..] == suffix
  }

  predicate OccursAt(s: string, part: string, k: nat) {
    k + |part| <= |s| && s[k..k + |part|] == part
  }

  /** `part in s`. */
  predicate Contains(s: string, part: string) {
    exists k: nat | k <= |s| :: OccursAt(s, part, k)
  }

  /** A blank at either end is all that stripping removes. */
  lemma StripIsIdle(s: string)
    requires forall i | 0 <= i < |s| :: !IsSpace(s[i])
    ensures Strip(s) == s
  {
  }

  lemma EndsWithIff(s: string, suffix: string)
    ensures EndsWith(s, suffix) <==> exists sub: string :: s == sub + suffix
  {
    if EndsWith(s, suffix) {
      assert s == s[..|s| - |suffix|] + suffix;
    }
  }

  ghost predicate Blank(s: string) {
    forall i | 0 <= i < |s| :: IsSpace(s[i])
  }

  ghost predicate OneWord(s: string) {
    forall i | 0 <= i < |s| :: !IsSpace(s[i])
  }

  lemma {:induction false} LeftBlanksGo(blanks: string, s: string)
    requires Blank(blanks) && (s == "" || !IsSpace(s[0]))
    ensures StripLeft(blanks + s) == s
  {
    if blanks == "" {
      assert blanks + s == s;
    } else {
      assert (blanks + s)[0] == blanks[0] && (blanks + s)[1..] == blanks[1..] + s;
      LeftBlanksGo(blanks[1..], s);
    }
  }

  lemma {:induction false} RightBlanksGo(s: string, blanks: string)
    requires Blank(blanks) && (s == "" || !IsSpace(s[|s| - 1]))
    ensures StripRight(s + blanks) == s
  {
    if blanks == "" {
      assert s + blanks == s;
    } else {
      var n := |blanks| - 1;
      assert (s + blanks)[|s + blanks| - 1] == blanks[n] && (s + blanks)[..|s + blanks| - 1] == s + blanks[..n];
      RightBlanksGo(s, blanks[..n]);
    }
  }

  /** Stripping takes the blanks around a word and nothing else. */
  lemma StripFindsTheWord(before: string, word: string, after: string)
    requires Blank(before) && OneWord(word) && Blank(after)
    ensures Strip(before + word + after) == word
  {
    if word == "" {
      LeftBlanksGo(before + after, "");
      assert before + word + after == before + after + "";
    } else {
      LeftBlanksGo(before, word + after);
      assert before + word + after == before + (word + after);
      RightBlanksGo(word, after);
    }
  }

  lemma PartBringsItsFirst(s: string, part: string)
    requires Contains(s, part) && part != ""
    ensures part[0] in s
  {
    var k: nat :| k <= |s| && OccursAt(s, part, k);
    assert s[k] == s[k..k + |part|][0];
  }

  /** A quoted part can only occur where the text has quotes. */
  lemma QuotedPartIsInside(before: string, inner: string, after: string, part: string)
    requires |part| > 0 && part[0] == '"' && part[|part| - 1] == '"'
    requires '"' !in before && '"' !in after
    ensures Contains(before + inner + after, part) <==> Contains(inner, part)
  {
    var s := before + inner + after;
    if Contains(inner, part) {
      var k: nat :| k <= |inner| && OccursAt(inner, part, k);
      assert s[|before| + k..|before| + k + |part|] == inner[k..k + |part|];
      assert OccursAt(s, part, |before| + k);
    }
    if Contains(s, part) {
      var k: nat :| k <= |s| && OccursAt(s, part, k);
      assert s[k] == s[k..k + |part|][0] == '"';
      assert s[k + |part| - 1] == s[k..k + |part|][|part| - 1] == '"';
      QuoteIsInside(before, inner, after, k);
      QuoteIsInside(before, inner, after, k + |part| - 1);
      assert inner[k - |before|..k - |before| + |part|] == s[k..k + |part|];
      assert OccursAt(inner, part, k - |before|);
    }
  }

  lemma QuoteIsInside(before: string, inner: string, after: string, k: nat)
    requires '"' !in before && '"' !in after
    requires k < |before + inner + after| && (before + inner + after)[k] == '"'
    ensures |before| <= k < |before| + |inner|
  {
    assert forall i | 0 <= i < |before| :: before[i] in before;
    assert forall i | 0 <= i < |after| :: after[i] in after;
  }
}
