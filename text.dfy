/** String handling of the screener: Python's whitespace split and join, the
    résumé normaliser of main.py, str.strip as used by the blank-text checks,
    page concatenation and the filename suffix test. */
module Text {

  /** The résumé budget of main.py's normaliser, in characters. */
  const MaxNormalizedChars: nat := 4000

  /** Python's str.isspace, the separator set of str.split() and str.strip():
      U+0009..U+000D, U+001C..U+001F, space, U+0085, U+00A0, U+1680,
      U+2000..U+200A, U+2028, U+2029, U+202F, U+205F and U+3000. */
  predicate IsWhitespace(c: char): (b: bool)
    ensures c == ' ' || c == '\t' || c == '\n' || c == '\r' ==> b
    // no printable ASCII character other than the space separates words
    ensures ' ' < c <= '~' ==> !b
  {
    ('\t' <= c <= '\r') || ('\U{1C}' <= c <= '\U{1F}') || c == ' ' ||
    c == '\U{85}' || c == '\U{A0}' || c == '\U{1680}' ||
    ('\U{2000}' <= c <= '\U{200A}') || c == '\U{2028}' || c == '\U{2029}' ||
    c == '\U{202F}' || c == '\U{205F}' || c == '\U{3000}'
  }

  predicate AllWhitespace(s: string)
  {
    forall i :: 0 <= i < |s| ==> IsWhitespace(s[i])
  }

  /** A word as str.split() yields it: a non-empty run without whitespace. */
  predicate IsWord(w: string)
  {
    |w| > 0 && forall i :: 0 <= i < |w| ==> !IsWhitespace(w[i])
  }

  predicate AllWords(words: seq<string>)
  {
    forall k :: 0 <= k < |words| ==> IsWord(words[k])
  }

  /** Text in collapsed form: the only whitespace character is ' ', no two
      spaces are adjacent and there is no leading space. */
  predicate Collapsed(t: string)
  {
    (forall i :: 0 <= i < |t| && IsWhitespace(t[i]) ==> t[i] == ' ') &&
    (forall i :: 0 <= i < |t| - 1 && t[i] == ' ' ==> t[i + 1] != ' ') &&
    (|t| > 0 ==> t[0] != ' ')
  }

  predicate NoTrailingSpace(t: string)
  {
    |t| > 0 ==> t[|t| - 1] != ' '
  }

  predicate IsPrefix(p: string, s: string)
  {
    |p| <= |s| && p == s[..|p|]
  }

  /** Length of the run of non-whitespace characters that starts `s`. */
  function WordLength(s: string): (n: nat)
    ensures n <= |s|
    ensures forall i :: 0 <= i < n ==> !IsWhitespace(s[i])
    ensures n < |s| ==> IsWhitespace(s[n])
  {
    if s == [] || IsWhitespace(s[0]) then 0 else 1 + WordLength(s[1..])
  }

  /** str.split() with no argument: the maximal whitespace-free runs of `s`,
      in order. */
  function Split(s: string): (words: seq<string>)
    ensures AllWords(words)
    decreases |s|
  {
    if s == [] then []
    else if IsWhitespace(s[0]) then Split(s[1..])
    else
      var n := WordLength(s);
      [s[..n]] + Split(s[n..])
  }

  /** Total length of a list of strings. */
  function TotalLength(strings: seq<string>): nat
  {
    if strings == [] then 0 else |strings[0]| + TotalLength(strings[1..])
  }

  /** " ".join(words): the words in order with one space between
      neighbours. */
  function JoinSpaced(words: seq<string>): (r: string)
    ensures words != [] ==> |r| == TotalLength(words) + |words| - 1
    ensures words != [] ==> IsPrefix(words[0], r)
  {
    if |words| == 0 then ""
    else if |words| == 1 then words[0]
    else words[0] + " " + JoinSpaced(words[1..])
  }

  /** " ".join(s.split()): every whitespace run becomes one space, and
      leading and trailing whitespace disappears. */
  function Collapse(s: string): (r: string)
    ensures Collapsed(r) && NoTrailingSpace(r)
    ensures r == "" <==> AllWhitespace(s)
  {
    JoinShape(Split(s));
    SplitEmptyIff(s);
    JoinSpaced(Split(s))
  }

  /** Python's slice s[:n] for n >= 0: a hard cut at a character boundary. */
  function Take(s: string, n: nat): (r: string)
    ensures |r| <= n && IsPrefix(r, s)
    ensures |s| <= n ==> r == s
    ensures |s| > n ==> |r| == n
  {
    if |s| <= n then s else s[..n]
  }

  /** normalize_text: collapse the whitespace, then cut to the budget. */
  function Normalize(text: string): (r: string)
    ensures |r| <= MaxNormalizedChars
    ensures Collapsed(r)
    ensures IsPrefix(r, Collapse(text))
    ensures r == "" <==> AllWhitespace(text)
    ensures |Collapse(text)| <= MaxNormalizedChars ==> r == Collapse(text) && NoTrailingSpace(r)
    ensures |Collapse(text)| > MaxNormalizedChars ==> |r| == MaxNormalizedChars
  {
    CollapsedPrefix(Collapse(text), MaxNormalizedChars);
    Take(Collapse(text), MaxNormalizedChars)
  }

  /** str.lstrip() with no argument. */
  function TrimStart(s: string): (r: string)
    ensures |r| <= |s| && r == s[|s| - |r|..]
    // only whitespace is removed
    ensures AllWhitespace(s[..|s| - |r|])
    ensures r == [] <==> AllWhitespace(s)
    ensures |r| > 0 ==> !IsWhitespace(r[0])
  {
    if s == [] || !IsWhitespace(s[0]) then s else TrimStart(s[1..])
  }

  /** str.rstrip() with no argument. */
  function TrimEnd(s: string): (r: string)
    ensures |r| <= |s| && r == s[..|r|]
    // only whitespace is removed
    ensures AllWhitespace(s[|r|..])
    ensures r == [] <==> AllWhitespace(s)
    ensures |r| > 0 ==> !IsWhitespace(r[|r| - 1])
  {
    if s == [] || !IsWhitespace(s[|s| - 1]) then s
    else
      var r := TrimEnd(s[..|s| - 1]);
      assert AllWhitespace(s[..|s| - 1]) ==> AllWhitespace(s);
      assert s[|r|..] == s[..|s| - 1][|r|..] + [s[|s| - 1]];
      r
  }

  /** str.strip() with no argument. */
  function Strip(s: string): (r: string)
    ensures r == "" <==> AllWhitespace(s)
    ensures |r| > 0 ==> !IsWhitespace(r[0]) && !IsWhitespace(r[|r| - 1])
    // the result is the text with whitespace removed from both ends
    ensures exists i, j :: 0 <= i <= j <= |s| && r == s[i..j] && AllWhitespace(s[..i]) && AllWhitespace(s[j..])
  {
    var t := TrimStart(s);
    var r := TrimEnd(t);
    TrimmedSlice(s, t, r);
    r
  }

  /** Cutting whitespace off the front of `s`, giving `t`, and then off the
      back of `t`, giving `r`, leaves a slice of `s` between two whitespace
      runs. */
  lemma TrimmedSlice(s: string, t: string, r: string)
    requires |t| <= |s| && t == s[|s| - |t|..] && AllWhitespace(s[..|s| - |t|])
    requires |r| <= |t| && r == t[..|r|] && AllWhitespace(t[|r|..])
    ensures exists i, j :: 0 <= i <= j <= |s| && r == s[i..j] && AllWhitespace(s[..i]) && AllWhitespace(s[j..])
  {
    var i, j := |s| - |t|, |s| - |t| + |r|;
    assert r == s[i..j];
    assert s[j..] == t[|r|..];
  }

  /** "".join(pages), and equally the result of `text += page` over the pages
      starting from "". */
  function Concat(pages: seq<string>): (r: string)
    ensures |r| == TotalLength(pages)
    ensures pages != [] ==> IsPrefix(pages[0], r)
  {
    if pages == [] then "" else pages[0] + Concat(pages[1..])
  }

  /** str.endswith(suffix). */
  predicate EndsWith(s: string, suffix: string): (b: bool)
    ensures b <==> exists head :: s == head + suffix
  {
    assert |suffix| <= |s| ==> s == s[..|s| - |suffix|] + s[|s| - |suffix|..];

    |suffix| <= |s| && s[|s| - |suffix|..] == suffix
  }

  // ---------------------------------------------------------------------
  // Lemmas
  // ---------------------------------------------------------------------

  /** The text has no words exactly when it is all whitespace. */
  lemma {:induction false} SplitEmptyIff(s: string)
    ensures Split(s) == [] <==> AllWhitespace(s)
    decreases |s|
  {
    if s != [] {
      if IsWhitespace(s[0]) {
        SplitEmptyIff(s[1..]);
        assert AllWhitespace(s) <==> AllWhitespace(s[1..]);
      } else {
        assert !AllWhitespace(s);
      }
    }
  }

  /** Joining words with single spaces yields collapsed text without a
      trailing space, and it is empty only when there are no words. */
  lemma {:induction false} JoinShape(words: seq<string>)
    requires AllWords(words)
    ensures Collapsed(JoinSpaced(words)) && NoTrailingSpace(JoinSpaced(words))
    ensures JoinSpaced(words) == "" <==> words == []
  {
    if |words| == 1 {
      assert IsWord(words[0]);
    } else if |words| > 1 {
      var w, rest := words[0], JoinSpaced(words[1..]);
      AllWordsTail(words);
      JoinShape(words[1..]);
      var t := w + " " + rest;
      assert JoinSpaced(words) == t;
      assert |rest| > 0 && rest[0] != ' ';
      forall i | 0 <= i < |t| && IsWhitespace(t[i]) ensures t[i] == ' ' {
        if i > |w| {
          assert t[i] == rest[i - |w| - 1];
        }
      }
      forall i | 0 <= i < |t| - 1 && t[i] == ' ' ensures t[i + 1] != ' ' {
        if i == |w| {
          assert t[i + 1] == rest[0];
        } else if i > |w| {
          assert t[i] == rest[i - |w| - 1] && t[i + 1] == rest[i - |w|];
        }
      }
      assert t[|t| - 1] == rest[|rest| - 1];
    }
  }

  /** Cutting collapsed text keeps it collapsed (a trailing space may appear). */
  lemma CollapsedPrefix(t: string, n: nat)
    requires Collapsed(t)
    ensures Collapsed(Take(t, n))
    ensures t != "" && n > 0 ==> Take(t, n) != ""
  {
  }

  /** A word followed by nothing or by whitespace is read back as that word. */
  lemma {:induction false} WordLengthOfWord(w: string, rest: string)
    requires IsWord(w)
    requires rest == [] || IsWhitespace(rest[0])
    ensures WordLength(w + rest) == |w|
  {
    var s := w + rest;
    assert forall i :: 0 <= i < |w| ==> s[i] == w[i];
    assert |rest| > 0 ==> s[|w|] == rest[0];
  }

  /** Splitting a word followed by whitespace-led text peels off that word. */
  lemma SplitWordThen(w: string, rest: string)
    requires IsWord(w)
    requires rest == [] || IsWhitespace(rest[0])
    ensures Split(w + rest) == [w] + Split(rest)
  {
    WordLengthOfWord(w, rest);
    var s := w + rest;
    assert s[0] == w[0] && !IsWhitespace(s[0]);
    assert s[..|w|] == w && s[|w|..] == rest;
    assert Split(s) == [s[..WordLength(s)]] + Split(s[WordLength(s)..]);
  }

  /** Every suffix of a list of words is a list of words. */
  lemma AllWordsTail(words: seq<string>)
    requires AllWords(words) && |words| > 0
    ensures IsWord(words[0]) && AllWords(words[1..])
  {
    forall k | 0 <= k < |words[1..]| ensures IsWord(words[1..][k]) {
      assert words[1..][k] == words[k + 1];
    }
  }

  /** Round trip: splitting the space-joined words gives the words back. */
  lemma {:induction false} SplitJoin(words: seq<string>)
    requires AllWords(words)
    ensures Split(JoinSpaced(words)) == words
  {
    if |words| == 1 {
      AllWordsTail(words);
      SplitWord(words[0]);
    } else if |words| > 1 {
      AllWordsTail(words);
      var w, rest := words[0], JoinSpaced(words[1..]);
      assert JoinSpaced(words) == w + ([' '] + rest);
      SplitJoin(words[1..]);
      SplitSpaceThenAny(' ', rest);
      SplitWordThen(w, [' '] + rest);
    }
  }

  /** A single word splits into itself. */
  lemma SplitWord(w: string)
    requires IsWord(w)
    ensures Split(w) == [w]
  {
    SplitWordThen(w, "");
    assert w + "" == w;
  }

  /** Extending a text after its first whitespace character does not change
      the length of its leading word. */
  lemma WordLengthExtend(a: string, t: string)
    requires WordLength(a) < |a|
    ensures WordLength(a + t) == WordLength(a)
  {
    var s := a + t;
    assert forall i :: 0 <= i < |a| ==> s[i] == a[i];
  }

  /** Every whitespace character separates: splitting at it splits the text
      into the words before it and the words after it. Together with
      SplitWord and Split("") == [] this determines Split on every input:
      the words are the maximal whitespace-free runs, in order. */
  lemma {:induction false} SplitAtWhitespace(a: string, c: char, b: string)
    requires IsWhitespace(c)
    ensures Split(a + [c] + b) == Split(a) + Split(b)
    decreases |a|
  {
    if a == [] {
      assert a + [c] + b == [c] + b;
      SplitSpaceThenAny(c, b);
    } else if IsWhitespace(a[0]) {
      SplitAtWhitespace(a[1..], c, b);
      SplitAtLeadingSpace(a, c, b);
    } else if WordLength(a) < |a| {
      SplitAtWhitespace(a[WordLength(a)..], c, b);
      SplitAtAfterWord(a, c, b);
    } else {
      SplitWordThen(a, [c] + b);
      SplitSpaceThenAny(c, b);
      SplitWord(a);
      assert a + [c] + b == a + ([c] + b);
    }
  }

  /** The step of SplitAtWhitespace past a leading whitespace character. */
  lemma SplitAtLeadingSpace(a: string, c: char, b: string)
    requires a != [] && IsWhitespace(a[0])
    requires Split(a[1..] + [c] + b) == Split(a[1..]) + Split(b)
    ensures Split(a + [c] + b) == Split(a) + Split(b)
  {
    var tail := a[1..];
    calc {
      Split(a + [c] + b);
      { ConsAssoc(a, c, b); HeadThen(a, [c] + b); }
      Split([a[0]] + (tail + ([c] + b)));
      { SplitSpaceThenAny(a[0], tail + ([c] + b)); }
      Split(tail + ([c] + b));
      { ConsAssoc(tail, c, b); }
      Split(tail + [c] + b);
      Split(tail) + Split(b);
      { HeadThen(a, []); assert tail + [] == tail && a + [] == a; SplitSpaceThenAny(a[0], tail); }
      Split(a) + Split(b);
    }
  }

  /** A non-empty text followed by `t` is its first character followed by
      the rest and `t`. */
  lemma HeadThen(a: string, t: string)
    requires a != []
    ensures a + t == [a[0]] + (a[1..] + t)
  {
  }

  /** The step of SplitAtWhitespace past a leading word that ends inside
      `a`. */
  lemma SplitAtAfterWord(a: string, c: char, b: string)
    requires a != [] && !IsWhitespace(a[0]) && WordLength(a) < |a|
    requires Split(a[WordLength(a)..] + [c] + b) == Split(a[WordLength(a)..]) + Split(b)
    ensures Split(a + [c] + b) == Split(a) + Split(b)
  {
    var n := WordLength(a);
    var w, tail := a[..n], a[n..];
    SplitWordExtend(a, [c] + b);
    calc {
      Split(a + [c] + b);
      { ConsAssoc(a, c, b); }
      Split(a + ([c] + b));
      [w] + Split(tail + ([c] + b));
      { ConsAssoc(tail, c, b); }
      [w] + Split(tail + [c] + b);
      [w] + (Split(tail) + Split(b));
      { WordsAssoc([w], Split(tail), Split(b)); }
      [w] + Split(tail) + Split(b);
      Split(a) + Split(b);
    }
  }

  /** Appending a character and then a text is appending both at once. */
  lemma ConsAssoc(x: string, c: char, y: string)
    ensures x + [c] + y == x + ([c] + y)
  {
  }

  /** Text after the first whitespace character does not change the leading
      word, so splitting `a + t` takes that word off and goes on with the
      rest of `a` followed by `t`. */
  lemma SplitWordExtend(a: string, t: string)
    requires a != [] && !IsWhitespace(a[0]) && WordLength(a) < |a|
    ensures Split(a + t) == [a[..WordLength(a)]] + Split(a[WordLength(a)..] + t)
    ensures Split(a) == [a[..WordLength(a)]] + Split(a[WordLength(a)..])
  {
    var n := WordLength(a);
    var s := a + t;
    WordLengthExtend(a, t);
    assert s[0] == a[0];
    assert s[..n] == a[..n] && s[n..] == a[n..] + t;
  }

  /** A leading whitespace character contributes no word. */
  lemma SplitSpaceThenAny(c: char, rest: string)
    requires IsWhitespace(c)
    ensures Split([c] + rest) == Split(rest)
  {
    assert ([c] + rest)[1..] == rest;
  }

  /** Collapsing is idempotent. */
  lemma CollapseIdempotent(s: string)
    ensures Collapse(Collapse(s)) == Collapse(s)
  {
    SplitJoin(Split(s));
  }

  /** When the collapsed text fits the budget, normalising twice is the same
      as normalising once. (A cut at the budget can leave a trailing space,
      which a second pass removes, so this does not hold in general.) */
  lemma NormalizeIdempotentWhenShort(text: string)
    requires |Collapse(text)| <= MaxNormalizedChars
    ensures Normalize(Normalize(text)) == Normalize(text)
  {
    CollapseIdempotent(text);
    CollapseIdempotent(Collapse(text));
  }

  /** The blank check `not text.strip()` is the same as the normaliser
      producing the empty string: text that passes it is never normalised
      to "". */
  lemma StripBlankIffNormalizedEmpty(text: string)
    ensures Strip(text) == "" <==> Normalize(text) == ""
  {
  }

  /** Page concatenation is in document order: concatenating two runs of
      pages is concatenating their texts. */
  lemma {:induction false} ConcatAppend(a: seq<string>, b: seq<string>)
    ensures Concat(a + b) == Concat(a) + Concat(b)
  {
    if a != [] {
      var ab := a + b;
      assert ab[0] == a[0] && ab[1..] == a[1..] + b;
      calc {
        Concat(ab);
        a[0] + Concat(a[1..] + b);
        { ConcatAppend(a[1..], b); }
        a[0] + (Concat(a[1..]) + Concat(b));
        { StringAssoc(a[0], Concat(a[1..]), Concat(b)); }
        a[0] + Concat(a[1..]) + Concat(b);
      }
    } else {
      assert a + b == b;
    }
  }

  /** String concatenation is associative. */
  lemma StringAssoc(x: string, y: string, z: string)
    ensures x + (y + z) == x + y + z
  {
  }

  /** Concatenation of word lists is associative. */
  lemma WordsAssoc(x: seq<string>, y: seq<string>, z: seq<string>)
    ensures x + (y + z) == x + y + z
  {
  }
}
