/** The Python string operations the query mixer in app.py relies on:
    `str.split()`, `str.strip()`, `" ".join(...)`, `word[::-1]`, `str.lower()`
    and `str.replace("_", " ")`. Strings are sequences of Unicode scalar values. */
module Text {

  /** Python's `str.isspace()` for a single character: exactly the characters that
      `str.split()` and `str.strip()` (called without arguments) treat as whitespace. */
  predicate IsSpace(c: char) {
    || ('\t' <= c <= '\r')
    || ('\U{1C}' <= c <= '\U{1F}')
    || c == ' ' || c == '\U{85}' || c == '\U{A0}' || c == '\U{1680}'
    || ('\U{2000}' <= c <= '\U{200A}')
    || c == '\U{2028}' || c == '\U{2029}' || c == '\U{202F}' || c == '\U{205F}' || c == '\U{3000}'
  }

  /** Every character of `s` is whitespace (true of the empty string). */
  ghost predicate Blank(s: string) {
    forall i :: 0 <= i < |s| ==> IsSpace(s[i])
  }

  /** A token as `str.split()` produces it: non-empty, no whitespace inside. */
  ghost predicate IsWord(w: string) {
    w != [] && forall i :: 0 <= i < |w| ==> !IsSpace(w[i])
  }

  /** Length of the leading run of non-whitespace characters of `s`. */
  function WordLength(s: string): (n: nat)
    ensures n <= |s|
    ensures forall i :: 0 <= i < n ==> !IsSpace(s[i])
    ensures n < |s| ==> IsSpace(s[n])
  {
    if s == [] || IsSpace(s[0]) then 0 else 1 + WordLength(s[1..])
  }

  /** `s.split()`: the maximal runs of non-whitespace characters of `s`, in order. */
  function Split(s: string): (words: seq<string>)
    ensures forall i :: 0 <= i < |words| ==> IsWord(words[i])
    ensures words == [] <==> Blank(s)
    decreases |s|
  {
    if s == [] then []
    else if IsSpace(s[0]) then
      assert Blank(s) <==> Blank(s[1..]) by {
        if Blank(s[1..]) {
          forall i | 0 <= i < |s| ensures IsSpace(s[i]) {
            if i > 0 { assert s[i] == s[1..][i - 1]; }
          }
        }
      }
      Split(s[1..])
    else
      var n := WordLength(s);
      [s[..n]] + Split(s[n..])
  }

  /** `" ".join(parts)`: the parts in order with one space between each two, so the
      result is as long as the parts together plus one space fewer than there are parts. */
  function Join(parts: seq<string>): (r: string)
    ensures parts == [] ==> r == []
    ensures parts != [] ==> |r| == TotalLength(parts) + |parts| - 1
  {
    if parts == [] then []
    else if |parts| == 1 then parts[0]
    else parts[0] + " " + Join(parts[1..])
  }

  /** The number of characters of all of `parts` together. */
  function TotalLength(parts: seq<string>): nat
  {
    if parts == [] then 0 else |parts[0]| + TotalLength(parts[1..])
  }

  /** Joining two non-empty lists of parts is joining their joins with one space. */
  lemma {:induction false} JoinAppend(a: seq<string>, b: seq<string>)
    requires a != [] && b != []
    ensures Join(a + b) == Join(a) + " " + Join(b)
    decreases |a|
  {
    assert (a + b)[0] == a[0];
    assert (a + b)[1..] == a[1..] + b;
    if |a| > 1 {
      JoinAppend(a[1..], b);
      assert Join(a + b) == a[0] + " " + (Join(a[1..]) + " " + Join(b));
    }
  }

  /** The f-string `f"{a} {b}"`. */
  function Spaced(a: string, b: string): string
  {
    a + " " + b
  }

  /** Joining two parts puts one space between them. */
  lemma JoinPair(a: string, b: string)
    ensures Join([a, b]) == Spaced(a, b)
  {
    assert [a, b][1..] == [b];
  }

  /** Splitting a word followed by whitespace (or nothing) peels that word off. */
  lemma {:induction false} SplitAfterWord(w: string, t: string)
    requires IsWord(w)
    requires t == [] || IsSpace(t[0])
    ensures Split(w + t) == [w] + Split(t)
  {
    var s := w + t;
    WordLengthOfWord(w, t);
    assert s[..|w|] == w;
    assert s[|w|..] == t;
  }

  lemma {:induction false} WordLengthOfWord(w: string, t: string)
    requires forall i :: 0 <= i < |w| ==> !IsSpace(w[i])
    requires t == [] || IsSpace(t[0])
    ensures WordLength(w + t) == |w|
    decreases |w|
  {
    if w == [] {
      assert w + t == t;
    } else {
      assert (w + t)[1..] == w[1..] + t;
      WordLengthOfWord(w[1..], t);
    }
  }

  /** A single token splits into itself. */
  lemma SplitWord(w: string)
    requires IsWord(w)
    ensures Split(w) == [w]
  {
    SplitAfterWord(w, []);
    assert w + [] == w;
  }

  /** A whitespace character separates: splitting around it is splitting each side.
      With `Split([]) == []` and SplitWord this determines `Split` on every string. */
  lemma {:induction false} SplitAtSpace(a: string, c: char, b: string)
    requires IsSpace(c)
    ensures Split(a + [c] + b) == Split(a) + Split(b)
    decreases |a|, 1
  {
    var s := a + [c] + b;
    if a == [] {
      assert s == [c] + b;
      assert s[1..] == b;
    } else if IsSpace(a[0]) {
      assert s[0] == a[0];
      assert s[1..] == a[1..] + [c] + b;
      SplitAtSpace(a[1..], c, b);
    } else {
      SplitAtSpaceAfterWord(a, c, b);
    }
  }

  /** SplitAtSpace when `a` starts with a word: that word is split off on both sides. */
  lemma {:induction false} SplitAtSpaceAfterWord(a: string, c: char, b: string)
    requires IsSpace(c) && a != [] && !IsSpace(a[0])
    ensures Split(a + [c] + b) == Split(a) + Split(b)
    decreases |a|, 0
  {
    var m := WordLength(a);
    var w, rest := a[..m], a[m..];
    var t := rest + [c] + b;
    assert IsWord(w) by {
      assert w[0] == a[0];
    }
    assert IsSpace(t[0]) by {
      if m < |a| { assert rest[0] == a[m]; }
    }
    calc {
      Split(a + [c] + b);
      { assert a + [c] + b == w + t; }
      Split(w + t);
      { SplitAfterWord(w, t); }
      [w] + Split(t);
      { SplitAtSpace(rest, c, b); }
      [w] + (Split(rest) + Split(b));
      ([w] + Split(rest)) + Split(b);
      { SplitAfterWord(w, rest); assert w + rest == a; }
      Split(a) + Split(b);
    }
  }

  /** Round trip: splitting the space-joined tokens gives the tokens back. */
  lemma {:induction false} SplitJoin(words: seq<string>)
    requires forall i :: 0 <= i < |words| ==> IsWord(words[i])
    ensures Split(Join(words)) == words
  {
    if |words| == 1 {
      SplitWord(words[0]);
    } else if |words| > 1 {
      var w, rest := words[0], Join(words[1..]);
      calc {
        Split(Join(words));
        { assert Join(words) == w + [' '] + rest; }
        Split(w + [' '] + rest);
        { SplitAtSpace(w, ' ', rest); }
        Split(w) + Split(rest);
        { SplitWord(w); SplitJoin(words[1..]); }
        [w] + words[1..];
        { assert [words[0]] + words[1..] == words; }
        words;
      }
    }
  }

  /** Number of leading whitespace characters of `s`. */
  function LeadingSpaces(s: string): (n: nat)
    ensures n <= |s|
    ensures Blank(s[..n])
    ensures n < |s| ==> !IsSpace(s[n])
  {
    if s == [] || !IsSpace(s[0]) then 0
    else
      var n := 1 + LeadingSpaces(s[1..]);
      assert forall i :: 1 <= i < n ==> s[..n][i] == s[1..][..n - 1][i - 1];
      n
  }

  /** Number of trailing whitespace characters of `s`. */
  function TrailingSpaces(s: string): (n: nat)
    ensures n <= |s|
    ensures Blank(s[|s| - n..])
    ensures n < |s| ==> !IsSpace(s[|s| - n - 1])
    decreases |s|
  {
    if s == [] || !IsSpace(s[|s| - 1]) then 0
    else
      var init := s[..|s| - 1];
      var n := 1 + TrailingSpaces(init);
      assert s[|s| - n..] == init[|init| - (n - 1)..] + [s[|s| - 1]];
      n
  }

  /** `s.strip()`: `s` without its leading and trailing whitespace. The result is the
      slice of `s` that starts after the leading whitespace and is followed only by
      whitespace; it is empty or starts and ends with non-whitespace characters. */
  function Strip(s: string): (r: string)
    ensures LeadingSpaces(s) + |r| <= |s|
    ensures r == s[LeadingSpaces(s)..LeadingSpaces(s) + |r|]
    ensures Blank(s[LeadingSpaces(s) + |r|..])
    ensures r != [] ==> !IsSpace(r[0]) && !IsSpace(r[|r| - 1])
    ensures r == [] <==> Blank(s)
  {
    var i := LeadingSpaces(s);
    var t := s[i..];
    var j := |t| - TrailingSpaces(t);
    StripSlice(s, i, t, j);
    StripEmpty(s, i, t, j);
    t[..j]
  }

  lemma StripSlice(s: string, i: nat, t: string, j: nat)
    requires i == LeadingSpaces(s) && t == s[i..] && j == |t| - TrailingSpaces(t)
    ensures i + j <= |s|
    ensures t[..j] == s[i..i + j]
    ensures Blank(s[i + j..])
    ensures t[..j] != [] ==> !IsSpace(t[..j][0]) && !IsSpace(t[..j][j - 1])
  {
    assert s[i + j..] == t[j..];
    if j > 0 {
      assert t[..j][0] == s[i];
      assert t[..j][j - 1] == t[|t| - TrailingSpaces(t) - 1];
    }
  }

  lemma StripEmpty(s: string, i: nat, t: string, j: nat)
    requires i == LeadingSpaces(s) && t == s[i..] && j == |t| - TrailingSpaces(t)
    ensures t[..j] == [] <==> Blank(s)
  {
    if t[..j] == [] {
      assert s == s[..i] + t;
    } else {
      assert t[0] == s[i];
    }
  }

  /** `word[::-1]`. */
  function Reverse(s: string): (r: string)
    ensures |r| == |s|
    ensures forall i :: 0 <= i < |s| ==> r[i] == s[|s| - 1 - i]
  {
    if s == [] then [] else Reverse(s[1..]) + [s[0]]
  }

  /** Reversal undoes itself. */
  lemma ReverseReverse(s: string)
    ensures Reverse(Reverse(s)) == s
  {
  }

  /** ASCII case folding of one character. */
  function LowerChar(c: char): char
  {
    if 'A' <= c <= 'Z' then (c as int + 32) as char else c
  }

  /** `s.lower()`, restricted to ASCII letters: no capital is left, each capital
      becomes the same letter in lower case and every other character is kept. */
  function Lower(s: string): (r: string)
    ensures |r| == |s|
    ensures forall i :: 0 <= i < |r| ==> !('A' <= r[i] <= 'Z')
    ensures forall i :: 0 <= i < |s| && 'A' <= s[i] <= 'Z' ==> r[i] as int - 'a' as int == s[i] as int - 'A' as int
    ensures forall i :: 0 <= i < |s| && !('A' <= s[i] <= 'Z') ==> r[i] == s[i]
  {
    seq(|s|, i requires 0 <= i < |s| => LowerChar(s[i]))
  }

  /** `s.replace("_", " ")`: no underscore is left, and the only characters that
      change are underscores, which become spaces. */
  function UnderscoresToSpaces(s: string): (r: string)
    ensures |r| == |s|
    ensures '_' !in r
    ensures forall i :: 0 <= i < |s| && r[i] != s[i] ==> s[i] == '_' && r[i] == ' '
    ensures '_' !in s ==> r == s
  {
    seq(|s|, i requires 0 <= i < |s| => if s[i] == '_' then ' ' else s[i])
  }

  /** Case folding is idempotent. */
  lemma LowerLower(s: string)
    ensures Lower(Lower(s)) == Lower(s)
  {
  }

  /** Replacing the underscores is idempotent. */
  lemma UnderscoresToSpacesTwice(s: string)
    ensures UnderscoresToSpaces(UnderscoresToSpaces(s)) == UnderscoresToSpaces(s)
  {
  }
}
