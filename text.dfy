// Python string primitives the core relies on: str.isspace, str.strip(), str.split()
// with no separator, str.startswith and str.lower() (ASCII letters only).

module Text {

  /** Python's str.isspace() for one character: the characters that str.split() and
      str.strip() treat as whitespace. */
  predicate IsSpace(c: char) {
    || ('\U{9}' <= c <= '\U{D}')
    || ('\U{1C}' <= c <= '\U{20}')
    || c == '\U{85}' || c == '\U{A0}' || c == '\U{1680}'
    || ('\U{2000}' <= c <= '\U{200A}')
    || c == '\U{2028}' || c == '\U{2029}' || c == '\U{202F}' || c == '\U{205F}' || c == '\U{3000}'
  }

  predicate AllSpace(s: string) {
    forall i :: 0 <= i < |s| ==> IsSpace(s[i])
  }

  lemma AllSpaceConcat(a: string, b: string)
    requires AllSpace(a) && AllSpace(b)
    ensures AllSpace(a + b)
  {
    forall i | 0 <= i < |a + b| ensures IsSpace((a + b)[i]) {
      if i < |a| { assert (a + b)[i] == a[i]; } else { assert (a + b)[i] == b[i - |a|]; }
    }
  }

  lemma AllSpaceSplit(a: string, b: string)
    requires AllSpace(a + b)
    ensures AllSpace(a) && AllSpace(b)
  {
    forall i | 0 <= i < |a| ensures IsSpace(a[i]) { assert (a + b)[i] == a[i]; }
    forall i | 0 <= i < |b| ensures IsSpace(b[i]) { assert (a + b)[|a| + i] == b[i]; }
  }

  /** A token of str.split(): non-empty and free of whitespace. */
  predicate IsWord(w: string) {
    |w| > 0 && forall i :: 0 <= i < |w| ==> !IsSpace(w[i])
  }

  /** Number of leading whitespace characters. */
  function LeadingSpaces(s: string): (n: nat)
    ensures n <= |s| && AllSpace(s[..n])
    ensures n < |s| ==> !IsSpace(s[n])
  {
    if s == [] || !IsSpace(s[0]) then 0 else 1 + LeadingSpaces(s[1..])
  }

  /** Number of trailing whitespace characters. */
  function TrailingSpaces(s: string): (n: nat)
    ensures n <= |s| && AllSpace(s[|s| - n..])
    ensures n < |s| ==> !IsSpace(s[|s| - n - 1])
  {
    if s == [] || !IsSpace(s[|s| - 1]) then 0
    else
      var t := s[..|s| - 1];
      var n := TrailingSpaces(t);
      assert s[|s| - (n + 1)..] == t[|t| - n..] + [s[|s| - 1]];
      AllSpaceConcat(t[|t| - n..], [s[|s| - 1]]);
      assert n + 1 < |s| ==> s[|s| - (n + 1) - 1] == t[|t| - n - 1];
      n + 1
  }

  /** str.strip(): the text between the leading and the trailing whitespace. */
  function Strip(s: string): (r: string)
    ensures r == [] <==> AllSpace(s)
    ensures r != [] ==> !IsSpace(r[0]) && !IsSpace(r[|r| - 1])
    ensures r != [] ==> r == s[LeadingSpaces(s)..|s| - TrailingSpaces(s)]
    ensures r != [] ==> AllSpace(s[..LeadingSpaces(s)]) && AllSpace(s[|s| - TrailingSpaces(s)..])
  {
    var a := LeadingSpaces(s);
    if a == |s| then []
    else
      var b := |s| - TrailingSpaces(s);
      assert forall i :: b <= i < |s| ==> IsSpace(s[i]) by {
        forall i | b <= i < |s| ensures IsSpace(s[i]) {
          assert s[b..][i - b] == s[i];
        }
      }
      s[a..b]
  }

  /** Length of the run of non-whitespace characters at the start of s. */
  function WordLength(s: string): (n: nat)
    ensures n <= |s|
    ensures forall i :: 0 <= i < n ==> !IsSpace(s[i])
    ensures n < |s| ==> IsSpace(s[n])
  {
    if s == [] || IsSpace(s[0]) then 0 else 1 + WordLength(s[1..])
  }

  /** str.split() with no separator: the maximal runs of non-whitespace, in order. */
  function Split(s: string): (r: seq<string>)
    ensures forall k :: 0 <= k < |r| ==> IsWord(r[k])
    decreases |s|
  {
    if s == [] then []
    else if IsSpace(s[0]) then Split(s[1..])
    else
      var n := WordLength(s);
      [s[..n]] + Split(s[n..])
  }

  /** The list comprehension `[t for t in ts if t]`. */
  function DropEmpty(ts: seq<string>): (r: seq<string>)
    ensures forall k :: 0 <= k < |r| ==> |r[k]| > 0
    ensures |r| <= |ts|
  {
    if ts == [] then []
    else
      assert ts == [ts[0]] + ts[1..];
      if ts[0] == [] then DropEmpty(ts[1..])
      else [ts[0]] + DropEmpty(ts[1..])
  }

  /** Split finds no word exactly when the text is all whitespace. */
  lemma {:induction false} SplitEmptyIffBlank(s: string)
    ensures Split(s) == [] <==> AllSpace(s)
    decreases |s|
  {
    if s != [] && IsSpace(s[0]) {
      SplitEmptyIffBlank(s[1..]);
      assert AllSpace(s) <==> AllSpace(s[1..]) by {
        if AllSpace(s[1..]) {
          forall i | 0 <= i < |s| ensures IsSpace(s[i]) {
            if i > 0 { assert s[i] == s[1..][i - 1]; }
          }
        }
      }
    }
  }

  /** Leading whitespace does not change the split. */
  lemma {:induction false} SplitDropsLeadingSpaces(s: string, n: nat)
    requires n <= |s| && AllSpace(s[..n])
    ensures Split(s[n..]) == Split(s)
    decreases n
  {
    if n > 0 {
      assert IsSpace(s[..n][0]);
      assert s[1..][n - 1..] == s[n..];
      assert s[1..][..n - 1] == s[1..n];
      assert s[..n] == [s[0]] + s[1..][..n - 1];
      AllSpaceSplit([s[0]], s[1..][..n - 1]);
      SplitDropsLeadingSpaces(s[1..], n - 1);
    }
  }

  /** Trailing whitespace does not change the split. */
  lemma {:induction false} SplitDropsTrailingSpaces(t: string, u: string)
    requires AllSpace(u)
    ensures Split(t + u) == Split(t)
    decreases |t|
  {
    if t == [] {
      assert t + u == u;
      SplitEmptyIffBlank(u);
    } else if IsSpace(t[0]) {
      assert (t + u)[1..] == t[1..] + u;
      SplitDropsTrailingSpaces(t[1..], u);
    } else {
      var n := WordLength(t);
      assert forall i :: 0 <= i < n ==> !IsSpace((t + u)[i]) by {
        forall i | 0 <= i < n ensures !IsSpace((t + u)[i]) {
          assert (t + u)[i] == t[i];
        }
      }
      assert n < |t + u| ==> IsSpace((t + u)[n]) by {
        if n < |t| {
          assert (t + u)[n] == t[n];
        } else if n < |t + u| {
          assert (t + u)[n] == u[0];
        }
      }
      WordLengthUnique(t + u, n);
      assert (t + u)[..n] == t[..n];
      assert (t + u)[n..] == t[n..] + u;
      SplitDropsTrailingSpaces(t[n..], u);
    }
  }

  /** WordLength is the only length whose prefix is whitespace-free and is followed by whitespace. */
  lemma WordLengthUnique(s: string, n: nat)
    requires n <= |s|
    requires forall i :: 0 <= i < n ==> !IsSpace(s[i])
    requires n < |s| ==> IsSpace(s[n])
    ensures WordLength(s) == n
  {
  }

  /** Splitting the stripped text gives the same words as splitting the raw text. */
  lemma {:induction false} SplitIgnoresStrip(s: string)
    ensures Split(Strip(s)) == Split(s)
  {
    var r := Strip(s);
    if r == [] {
      SplitEmptyIffBlank(s);
      assert Split(r) == [];
    } else {
      SplitDropsSurroundingSpaces(s, LeadingSpaces(s), |s| - TrailingSpaces(s));
    }
  }

  /** Whitespace around a slice does not change the split. */
  lemma SplitDropsSurroundingSpaces(s: string, a: nat, b: nat)
    requires a <= b <= |s| && AllSpace(s[..a]) && AllSpace(s[b..])
    ensures Split(s[a..b]) == Split(s)
  {
    assert Split(s[a..]) == Split(s) by { SplitDropsLeadingSpaces(s, a); }
    assert s[a..] == s[a..b] + s[b..];
    SplitDropsTrailingSpaces(s[a..b], s[b..]);
  }

  /** The `if t` filter never removes a token of Split. */
  lemma {:induction false} DropEmptyKeepsWords(ts: seq<string>)
    requires forall k :: 0 <= k < |ts| ==> IsWord(ts[k])
    ensures DropEmpty(ts) == ts
  {
    if ts != [] {
      DropEmptyKeepsWords(ts[1..]);
    }
  }

  /** `[t for t in ts if t]` keeps exactly the non-empty tokens of ts: none is added. */
  lemma {:induction false} DropEmptyFilters(ts: seq<string>)
    ensures forall t :: t in DropEmpty(ts) <==> t in ts && |t| > 0
  {
    if ts != [] {
      DropEmptyFilters(ts[1..]);
      assert ts == [ts[0]] + ts[1..];
    }
  }

  lemma SplitTakesWord(s: string, n: nat)
    requires n <= |s| && (forall i :: 0 <= i < n ==> !IsSpace(s[i])) && (n < |s| ==> IsSpace(s[n]))
    requires n > 0
    ensures Split(s) == [s[..n]] + Split(s[n..])
  {
    WordLengthUnique(s, n);
  }

  /** Whitespace, a word, then whitespace or nothing: the word is the first token. */
  lemma SplitSpaceThenWord(sp: string, w: string, rest: string)
    requires AllSpace(sp) && IsWord(w) && (rest == [] || IsSpace(rest[0]))
    ensures Split(sp + w + rest) == [w] + Split(rest)
  {
    var s := sp + w + rest;
    assert s[..|sp|] == sp && s[|sp|..] == w + rest;
    SplitDropsLeadingSpaces(s, |sp|);
    var t := w + rest;
    assert forall i :: 0 <= i < |w| ==> t[i] == w[i];
    assert |w| < |t| ==> t[|w|] == rest[0];
    SplitTakesWord(t, |w|);
    assert t[..|w|] == w && t[|w|..] == rest;
  }

  /** Three words between runs of whitespace (the outer runs may be empty) split into exactly
      those three words. */
  lemma SplitThreeWords(sp1: string, w1: string, sp2: string, w2: string, sp3: string, w3: string, sp4: string)
    requires AllSpace(sp1) && AllSpace(sp2) && AllSpace(sp3) && AllSpace(sp4) && |sp2| > 0 && |sp3| > 0
    requires IsWord(w1) && IsWord(w2) && IsWord(w3)
    ensures Split(sp1 + w1 + sp2 + w2 + sp3 + w3 + sp4) == [w1, w2, w3]
  {
    assert Split(sp4) == [] by { SplitEmptyIffBlank(sp4); }
    var r3 := sp3 + w3 + sp4;
    assert Split(r3) == [w3] by { SplitSpaceThenWord(sp3, w3, sp4); }
    var r2 := sp2 + w2 + r3;
    assert Split(r2) == [w2, w3] by {
      assert r3[0] == sp3[0];
      SplitSpaceThenWord(sp2, w2, r3);
    }
    assert r2[0] == sp2[0];
    SplitSpaceThenWord(sp1, w1, r2);
    var a, b, c := sp1 + w1, sp2 + w2, sp3 + w3;
    assert a + sp2 + w2 == a + b by { ConcatAssoc(a, sp2, w2); }
    assert a + b + sp3 + w3 == a + b + c by { ConcatAssoc(a + b, sp3, w3); }
    assert a + b + c + sp4 == a + b + r3 by { ConcatAssoc(a + b, c, sp4); }
    assert a + b + r3 == a + r2 by { ConcatAssoc(a, b, r3); }
  }

  lemma ConcatAssoc(a: string, b: string, c: string)
    ensures a + b + c == a + (b + c)
  {
  }

  /** str.split() of a text with leading, doubled and trailing blanks. */
  lemma SplitExample(s: string)
    requires s == "  casa pane  gatto "
    ensures Split(s) == ["casa", "pane", "gatto"]
  {
    assert s == "  " + "casa" + " " + "pane" + "  " + "gatto" + " ";
    SplitThreeWords("  ", "casa", " ", "pane", "  ", "gatto", " ");
  }

  function LowerChar(c: char): char {
    if 'A' <= c <= 'Z' then (c as int + 32) as char else c
  }

  predicate HasNoUpper(s: string) {
    forall i :: 0 <= i < |s| ==> !('A' <= s[i] <= 'Z')
  }

  /** str.lower() on ASCII letters; other characters are kept. */
  function Lower(s: string): (r: string)
    ensures |r| == |s| && HasNoUpper(r)
    ensures forall i :: 0 <= i < |s| && !('A' <= s[i] <= 'Z') ==> r[i] == s[i]
    ensures forall i :: 0 <= i < |s| && 'A' <= s[i] <= 'Z' ==> r[i] as int == s[i] as int + 32
    ensures HasNoUpper(s) ==> r == s
  {
    seq(|s|, i requires 0 <= i < |s| => LowerChar(s[i]))
  }

  predicate StartsWith(s: string, prefix: string) {
    |prefix| <= |s| && s[..|prefix|] == prefix
  }
}
