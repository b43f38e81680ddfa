/** The Python string operations the routers rely on, with Python's meaning:
    the whitespace set of str.isspace(), str.split() with no separator,
    str.strip() with no argument, str.lower() and the slice s[:n]. */
module Text {

  /** The characters for which Python's str.isspace() holds. str.split() and
      str.strip() both use exactly this set. */
  predicate IsSpace(c: char) {
    || c == ' '
    || ('\t' <= c <= '\r')
    || ('\U{1c}' <= c <= '\U{1f}')
    || c == '\U{85}' || c == '\U{a0}' || c == '\U{1680}'
    || ('\U{2000}' <= c <= '\U{200a}')
    || c == '\U{2028}' || c == '\U{2029}' || c == '\U{202f}' || c == '\U{205f}'
    || c == '\U{3000}'
  }

  predicate AllSpace(s: string) {
    forall i :: 0 <= i < |s| ==> IsSpace(s[i])
  }

  predicate NoSpace(s: string) {
    forall i :: 0 <= i < |s| ==> !IsSpace(s[i])
  }

  /** s[:n]: the first n characters of s, or all of s when it is shorter. */
  function Prefix(s: string, n: nat): (r: string)
    ensures |r| == if |s| < n then |s| else n
    ensures r <= s
  {
    if |s| <= n then s else s[..n]
  }

  // ---------------------------------------------------------------- strip

  /** Number of whitespace characters at the start of s. */
  function LeadingSpace(s: string): (n: nat)
    ensures n <= |s|
    ensures forall i :: 0 <= i < n ==> IsSpace(s[i])
    ensures n < |s| ==> !IsSpace(s[n])
  {
    if s == [] || !IsSpace(s[0]) then 0 else 1 + LeadingSpace(s[1..])
  }

  /** Number of whitespace characters at the end of s. */
  function TrailingSpace(s: string): (n: nat)
    ensures n <= |s|
    ensures forall i :: |s| - n <= i < |s| ==> IsSpace(s[i])
    ensures n < |s| ==> !IsSpace(s[|s| - 1 - n])
  {
    if s == [] || !IsSpace(s[|s| - 1]) then 0 else 1 + TrailingSpace(s[..|s| - 1])
  }

  /** A string whose first and last characters are not whitespace. */
  predicate Trimmed(r: string) {
    r == [] || (!IsSpace(r[0]) && !IsSpace(r[|r| - 1]))
  }

  /** s holds r at position k and nothing but whitespace around it. */
  predicate Surrounds(s: string, k: int, r: string) {
    && 0 <= k <= k + |r| <= |s|
    && s[k..k + |r|] == r
    && (forall i :: 0 <= i < k ==> IsSpace(s[i]))
    && (forall i :: k + |r| <= i < |s| ==> IsSpace(s[i]))
  }

  /** Python's s.strip(): s is the result surrounded by whitespace only, and
      the result neither starts nor ends with whitespace. */
  function Strip(s: string): (r: string)
    ensures Trimmed(r)
    ensures exists k :: Surrounds(s, k, r)
    ensures r == [] <==> AllSpace(s)
  {
    var i := LeadingSpace(s);
    if i == |s| then
      assert Surrounds(s, 0, []);
      []
    else
      var j := |s| - TrailingSpace(s);
      assert Surrounds(s, i, s[i..j]);
      s[i..j]
  }

  /** The first non-whitespace position of s is where LeadingSpace stops. */
  lemma LeadingSpaceAt(s: string, k: nat)
    requires k < |s| && !IsSpace(s[k])
    requires forall i :: 0 <= i < k ==> IsSpace(s[i])
    ensures LeadingSpace(s) == k
  {
    var n := LeadingSpace(s);
  }

  /** The last non-whitespace position of s is where TrailingSpace stops. */
  lemma TrailingSpaceAt(s: string, k: nat)
    requires k < |s| && !IsSpace(s[k])
    requires forall i :: k < i < |s| ==> IsSpace(s[i])
    ensures TrailingSpace(s) == |s| - 1 - k
  {
    var n := TrailingSpace(s);
  }

  /** strip() is determined by its contract: any trimmed string that s holds
      with only whitespace around it is Strip(s). */
  lemma StripUnique(s: string, k: int, r: string)
    requires Surrounds(s, k, r) && Trimmed(r)
    ensures Strip(s) == r
  {
    if r != [] {
      assert s[k] == r[0] && s[k + |r| - 1] == r[|r| - 1];
      LeadingSpaceAt(s, k);
      TrailingSpaceAt(s, k + |r| - 1);
    }
  }

  /** Stripping twice is stripping once. */
  lemma StripIdempotent(s: string)
    ensures Strip(Strip(s)) == Strip(s)
  {
    var r := Strip(s);
    assert Surrounds(r, 0, r);
    StripUnique(r, 0, r);
  }

  // ---------------------------------------------------------------- lower

  predicate IsUpper(c: char) {
    'A' <= c <= 'Z'
  }

  function LowerChar(c: char): char {
    if IsUpper(c) then (c as int + 32) as char else c
  }

  /** Python's s.lower() on ASCII letters: every capital becomes its small
      letter and every other character is kept. */
  function Lower(s: string): (r: string)
    ensures |r| == |s|
    ensures forall i :: 0 <= i < |r| ==> !IsUpper(r[i])
    ensures forall i :: 0 <= i < |s| && !IsUpper(s[i]) ==> r[i] == s[i]
    ensures forall i :: 0 <= i < |s| && IsUpper(s[i]) ==> r[i] as int == s[i] as int + 32
  {
    seq(|s|, i requires 0 <= i < |s| => LowerChar(s[i]))
  }

  // ---------------------------------------------------------------- split

  /** Length of the run of non-whitespace characters that starts s. */
  function WordLength(s: string): (n: nat)
    ensures n <= |s|
    ensures forall i :: 0 <= i < n ==> !IsSpace(s[i])
    ensures n < |s| ==> IsSpace(s[n])
  {
    if s == [] || IsSpace(s[0]) then 0 else 1 + WordLength(s[1..])
  }

  /** Python's s.split(): the maximal runs of non-whitespace characters of s,
      in order; each is non-empty and holds no whitespace. */
  function Words(s: string): (ws: seq<string>)
    ensures forall k :: 0 <= k < |ws| ==> ws[k] != [] && NoSpace(ws[k])
    decreases |s|
  {
    if s == [] then []
    else if IsSpace(s[0]) then Words(s[1..])
    else
      var n := WordLength(s);
      [s[..n]] + Words(s[n..])
  }

  /** The first whitespace position of s is where WordLength stops. */
  lemma WordLengthAt(s: string, k: nat)
    requires k < |s| && IsSpace(s[k])
    requires forall i :: 0 <= i < k ==> !IsSpace(s[i])
    ensures WordLength(s) == k
  {
    var n := WordLength(s);
  }

  lemma {:induction false} WordLengthAppend(a: string, b: string)
    requires WordLength(a) < |a|
    ensures WordLength(a + b) == WordLength(a)
  {
    if !IsSpace(a[0]) {
      assert (a + b)[1..] == a[1..] + b;
      WordLengthAppend(a[1..], b);
    }
  }

  /** Splitting at a whitespace character: the words of a + b are those of a
      followed by those of b when a is empty or ends in whitespace. */
  lemma {:induction false} WordsAppend(a: string, b: string)
    requires a == [] || IsSpace(a[|a| - 1])
    ensures Words(a + b) == Words(a) + Words(b)
    decreases |a|
  {
    if a == [] {
      assert a + b == b;
    } else if IsSpace(a[0]) {
      SpaceStep(a, b);
      assert a[1..] == [] || a[1..][|a[1..]| - 1] == a[|a| - 1];
      WordsAppend(a[1..], b);
    } else {
      var n := WordLength(a);
      WordLengthAppend(a, b);
      WordCut(a, b);
      assert a[n..][|a[n..]| - 1] == a[|a| - 1];
      WordsAppend(a[n..], b);
    }
  }

  /** A leading whitespace character contributes no word. */
  lemma SpaceStep(a: string, b: string)
    requires a != [] && IsSpace(a[0])
    ensures Words(a + b) == Words(a[1..] + b)
  {
    assert (a + b)[1..] == a[1..] + b;
  }

  /** When the first word of a + b is that of a, it is split off first. */
  lemma WordCut(a: string, b: string)
    requires a != [] && !IsSpace(a[0]) && WordLength(a + b) == WordLength(a)
    ensures 0 < WordLength(a)
    ensures Words(a + b) == [a[..WordLength(a)]] + Words(a[WordLength(a)..] + b)
  {
    var n := WordLength(a);
    assert (a + b)[..n] == a[..n];
    assert (a + b)[n..] == a[n..] + b;
  }

  /** An all-whitespace string has no words. */
  lemma {:induction false} WordsOfSpace(s: string)
    requires AllSpace(s)
    ensures Words(s) == []
    decreases |s|
  {
    if s != [] {
      WordsOfSpace(s[1..]);
    }
  }

  /** A non-empty string without whitespace is its only word. */
  lemma WordsOfWord(s: string)
    requires s != [] && NoSpace(s)
    ensures Words(s) == [s]
  {
    var n := WordLength(s);
    assert n == |s|;
    assert s[..n] == s;
  }

  /** The first word of a + b is the first word of a when b is empty or
      starts with whitespace. */
  lemma WordLengthBefore(a: string, b: string)
    requires b == [] || IsSpace(b[0])
    ensures WordLength(a + b) == WordLength(a)
  {
    var n := WordLength(a);
    if n < |a| {
      WordLengthAppend(a, b);
    } else if b == [] {
      assert a + b == a;
    } else {
      assert (a + b)[..n] == a;
      WordLengthAt(a + b, n);
    }
  }

  /** Splitting before a whitespace character: the words of a + b are those
      of a followed by those of b when b is empty or starts with whitespace. */
  lemma {:induction false} WordsAppendSpace(a: string, b: string)
    requires b == [] || IsSpace(b[0])
    ensures Words(a + b) == Words(a) + Words(b)
    decreases |a|
  {
    if a == [] {
      assert a + b == b;
    } else if IsSpace(a[0]) {
      SpaceStep(a, b);
      WordsAppendSpace(a[1..], b);
    } else {
      var n := WordLength(a);
      assert 0 < n by {
        WordLengthBefore(a, b);
        WordCut(a, b);
      }
      WordsAppendSpace(a[n..], b);
      WordThenRest(a, b);
    }
  }

  /** The inductive step of WordsAppendSpace for a that starts with a word. */
  lemma WordThenRest(a: string, b: string)
    requires a != [] && !IsSpace(a[0]) && (b == [] || IsSpace(b[0]))
    requires Words(a[WordLength(a)..] + b) == Words(a[WordLength(a)..]) + Words(b)
    ensures Words(a + b) == Words(a) + Words(b)
  {
    WordLengthBefore(a, b);
    WordCut(a, b);
  }

  /** split() distributes over every cut next to whitespace. With WordsOfSpace
      and WordsOfWord this fixes the words of every string: cut it into its
      runs of whitespace and of other characters. */
  lemma WordsAtSpace(a: string, b: string)
    requires a == [] || b == [] || IsSpace(a[|a| - 1]) || IsSpace(b[0])
    ensures Words(a + b) == Words(a) + Words(b)
  {
    if a == [] || IsSpace(a[|a| - 1]) {
      WordsAppend(a, b);
    } else {
      WordsAppendSpace(a, b);
    }
  }

  /** A word followed by a space contributes exactly itself. */
  lemma WordThenSpace(w: string, x: string)
    requires w != [] && NoSpace(w)
    ensures Words(w + " " + x) == [w] + Words(x)
  {
    var a := w + " ";
    assert a[..|w|] == w;
    WordLengthAt(a, |w|);
    var n := WordLength(a);
    assert a[n..] == " ";
    assert Words(" ") == Words([]);
    assert Words(a) == [w];
    assert w + " " + x == a + x;
    WordsAppend(a, x);
  }

  /** A space and then two words, each followed by a space, contribute
      exactly those two words. */
  lemma SpacedWords(v: string, w: string, x: string)
    requires v != [] && NoSpace(v) && w != [] && NoSpace(w)
    ensures Words(" " + (v + " " + (w + " " + x))) == [v, w] + Words(x)
  {
    var t1 := w + " " + x;
    WordThenSpace(w, x);
    var t2 := v + " " + t1;
    WordThenSpace(v, t1);
    assert (" " + t2)[1..] == t2;
  }
}
