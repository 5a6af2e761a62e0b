// The two pathlib properties the turn pipeline reads from an upload's file name: the last
// path component (PurePosixPath.name) and its extension (PurePath.suffix).

module PathNames {

  /** The number of characters after the last '/' of s (all of s when it has none). */
  function TailLength(s: string): (n: nat)
    ensures n <= |s|
    ensures forall i :: |s| - n <= i < |s| ==> s[i] != '/'
    ensures n < |s| ==> s[|s| - n - 1] == '/'
  {
    if s == [] || s[|s| - 1] == '/' then 0 else 1 + TailLength(s[..|s| - 1])
  }

  /** Every component of s (the pieces between '/') is empty or "."; such components are the
      ones pathlib drops. */
  predicate OnlyEmptyComponents(s: string) {
    forall i :: 0 <= i < |s| ==> DroppedAt(s, i)
  }

  /** The character at i is a '/' or a "." component on its own. */
  predicate DroppedAt(s: string, i: int)
    requires 0 <= i < |s|
  {
    s[i] == '/' || (s[i] == '.' && (i == 0 || s[i - 1] == '/') && (i + 1 == |s| || s[i + 1] == '/'))
  }

  /** Path(s).name: the last component, skipping the empty and "." components that pathlib
      drops ("a/b/" and "a/b/." both name "b"); "" when there is no component. */
  function Name(s: string): (r: string)
    ensures '/' !in r
    ensures r != "."
    ensures r == "" <==> OnlyEmptyComponents(s)
    ensures r != "" ==> exists j :: LastKeptComponent(s, r, j)
    decreases |s|
  {
    if s == [] then ""
    else
      var n := TailLength(s);
      var tail := s[|s| - n..];
      assert forall i :: 0 <= i < |tail| ==> tail[i] != '/';
      TrivialTail(s, n);
      if tail != "" && tail != "." then
        assert LastKeptComponent(s, tail, |s|);
        tail
      else if n == |s| then ""
      else
        var rest := s[..|s| - n - 1];
        var r := Name(rest);
        assert s == rest + s[|s| - n - 1..];
        DroppedComponents(rest, s[|s| - n - 1..]);
        ComponentAfterDrop(rest, s[|s| - n - 1..], r);
        r
  }

  /** r is the last component of s that is kept: it ends at j, starts at s's start or after a
      '/', and only dropped components follow it. */
  predicate LastKeptComponent(s: string, r: string, j: int) {
    |r| <= j <= |s| && s[j - |r|..j] == r
      && (j == |r| || s[j - |r| - 1] == '/') && (j == |s| || s[j] == '/') && OnlyEmptyComponents(s[j..])
  }

  /** Appending a dropped component keeps the last kept component. */
  lemma ComponentAfterDrop(a: string, b: string, r: string)
    requires b == "/" || b == "/."
    requires r != "" ==> exists j :: LastKeptComponent(a, r, j)
    ensures r != "" ==> exists j :: LastKeptComponent(a + b, r, j)
  {
    if r != "" {
      var j :| LastKeptComponent(a, r, j);
      var s := a + b;
      assert s[j - |r|..j] == r;
      assert s[j..] == a[j..] + b;
      DroppedComponents(a[j..], b);
      if j - |r| > 0 { assert s[j - |r| - 1] == a[j - |r| - 1]; }
      if j < |a| { assert s[j] == a[j]; }
      assert LastKeptComponent(s, r, j);
    }
  }

  /** The last component of a path made only of dropped components is itself dropped. */
  lemma TrivialTail(s: string, n: nat)
    requires n == TailLength(s)
    ensures OnlyEmptyComponents(s) ==> s[|s| - n..] == "" || s[|s| - n..] == "."
  {
    if OnlyEmptyComponents(s) && n > 0 {
      var k := |s| - n;
      assert DroppedAt(s, k);
      assert n == 1 ==> s[k..] == [s[k]];
    }
  }

  /** Appending "/" or "/." drops nothing, and a prefix ending where a component ends keeps the
      property. */
  lemma DroppedComponents(a: string, b: string)
    requires b == "/" || b == "/."
    ensures OnlyEmptyComponents(a + b) <==> OnlyEmptyComponents(a)
  {
    var s := a + b;
    if OnlyEmptyComponents(s) {
      forall i | 0 <= i < |a| ensures DroppedAt(a, i) {
        assert DroppedAt(s, i);
        assert s[i] == a[i];
        if i + 1 < |a| { assert s[i + 1] == a[i + 1]; }
        if i > 0 { assert s[i - 1] == a[i - 1]; }
      }
    }
    if OnlyEmptyComponents(a) {
      forall i | 0 <= i < |s| ensures DroppedAt(s, i) {
        if i < |a| {
          assert DroppedAt(a, i);
          assert s[i] == a[i];
          if i > 0 { assert s[i - 1] == a[i - 1]; }
          if i + 1 < |a| { assert s[i + 1] == a[i + 1]; } else { assert s[i + 1] == '/'; }
        } else if i == |a| + 1 {
          assert s[i - 1] == '/';
        }
      }
    }
  }

  /** The position of the last '.' in s, if any. */
  function LastDot(s: string): (r: int)
    ensures -1 <= r < |s|
    ensures r >= 0 ==> s[r] == '.'
    ensures forall i :: r < i < |s| ==> s[i] != '.'
    ensures r == -1 ==> forall i :: 0 <= i < |s| ==> s[i] != '.'
  {
    if s == [] then -1
    else if s[|s| - 1] == '.' then |s| - 1
    else LastDot(s[..|s| - 1])
  }

  /** Path.suffix of a name: from its last '.' on, when that dot is neither the first nor the
      last character; otherwise "" ("archive", ".hidden" and "name." have none). */
  function Suffix(name: string): (r: string)
    ensures r != [] ==> 2 <= |r| < |name| && r[0] == '.' && r == name[|name| - |r|..]
    ensures r != [] ==> forall i :: 1 <= i < |r| ==> r[i] != '.'
    ensures r == [] <==> (var d := LastDot(name); d <= 0 || d == |name| - 1)
  {
    var i := LastDot(name);
    if 0 < i < |name| - 1 then name[i..] else ""
  }

  lemma SuffixExamples(a: string, b: string)
    requires a == "risposta.WAV" && b == ".hidden"
    ensures Suffix(a) == ".WAV" && Suffix(b) == ""
  {
    assert a[8] == '.' && forall i :: 8 < i < |a| ==> a[i] != '.';
    assert LastDot(a) == 8;
    assert b[0] == '.' && forall i :: 0 < i < |b| ==> b[i] != '.';
    assert LastDot(b) == 0;
  }

  lemma NameExamples(a: string, b: string)
    requires a == "dir/voice.webm" && b == "a/b/."
    ensures Name(a) == "voice.webm" && Name(b) == "b"
  {
    NameOfPlainTail(a, 4);
    assert b[3] == '/' && b[4] == '.';
    assert TailLength(b) == 1;
    assert b[..3] == "a/b";
    NameOfPlainTail(b[..3], 2);
  }

  /** A path whose part after position k has no '/' and is neither empty nor "." is named by
      that part. */
  lemma NameOfPlainTail(s: string, k: nat)
    requires 0 < k < |s| && s[k - 1] == '/' && forall i :: k <= i < |s| ==> s[i] != '/'
    requires s[k..] != "."
    ensures Name(s) == s[k..]
  {
    TailLengthAt(s, k);
  }

  lemma {:induction false} TailLengthAt(s: string, k: nat)
    requires 0 < k <= |s| && s[k - 1] == '/' && forall i :: k <= i < |s| ==> s[i] != '/'
    ensures TailLength(s) == |s| - k
    decreases |s|
  {
    if k < |s| {
      TailLengthAt(s[..|s| - 1], k);
    }
  }
}
