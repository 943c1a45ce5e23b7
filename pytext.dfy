/** Python's whitespace splitting, `s.split()` with no separator: the maximal
    runs of non-whitespace characters of `s`, in order. */
module PyText {

  /** Python's `str.isspace` for one character: the ASCII separators
      (tab, line feed, vertical tab, form feed, carriage return, the
      file/group/record/unit separators and space) and the Unicode
      spaces and line/paragraph separators. */
  predicate IsSpace(c: char) {
    var n := c as int;
    (9 <= n <= 13) || (28 <= n <= 32) || n == 0x85 || n == 0xA0 || n == 0x1680
    || (0x2000 <= n <= 0x200A) || n == 0x2028 || n == 0x2029 || n == 0x202F
    || n == 0x205F || n == 0x3000
  }

  /** A token `split()` can return: non-empty, without whitespace. */
  predicate IsWord(w: string) {
    |w| > 0 && forall i :: 0 <= i < |w| ==> !IsSpace(w[i])
  }

  /** Length of the leading run of non-whitespace characters of `s`. */
  function TokenLength(s: string): (n: nat)
    ensures n <= |s|
    ensures forall i :: 0 <= i < n ==> !IsSpace(s[i])
    ensures n < |s| ==> IsSpace(s[n])
  {
    if s == [] || IsSpace(s[0]) then 0 else 1 + TokenLength(s[1..])
  }

  /** `s.split()`. */
  function Split(s: string): (words: seq<string>)
    ensures forall k :: 0 <= k < |words| ==> IsWord(words[k])
    decreases |s|
  {
    if s == [] then []
    else if IsSpace(s[0]) then Split(s[1..])
    else
      var n := TokenLength(s);
      [s[..n]] + Split(s[n..])
  }

  /** `len(s.split())`. */
  function WordCount(s: string): nat {
    |Split(s)|
  }

  /** `" ".join(words)`: the inverse of `Split` on lists of words. */
  function Join(words: seq<string>): string {
    if words == [] then ""
    else if |words| == 1 then words[0]
    else words[0] + " " + Join(words[1..])
  }

  /** The characters of `s` that are not whitespace, in order. */
  function NonSpace(s: string): string {
    if s == [] then ""
    else (if IsSpace(s[0]) then "" else [s[0]]) + NonSpace(s[1..])
  }

  /** The concatenation of a list of strings. */
  function Concat(words: seq<string>): string {
    if words == [] then "" else words[0] + Concat(words[1..])
  }

  /** A word followed by any one whitespace character splits into that word
      followed by the split of what comes after the separator. */
  lemma {:induction false} SplitWordThen(w: string, c: char, rest: string)
    requires IsWord(w) && IsSpace(c)
    ensures Split(w + [c] + rest) == [w] + Split(rest)
  {
    var s := w + [c] + rest;
    var n := TokenLength(s);
    assert s[|w|] == c;
    assert n == |w|;
    assert s[..n] == w;
    assert s[n..] == [c] + rest;
    assert ([c] + rest)[1..] == rest;
  }

  /** Leading whitespace, however long, is skipped: it yields no token. */
  lemma {:induction false} SplitSkipsSpace(ws: string, rest: string)
    requires forall i :: 0 <= i < |ws| ==> IsSpace(ws[i])
    ensures Split(ws + rest) == Split(rest)
    decreases |ws|
  {
    if ws == [] {
      assert ws + rest == rest;
    } else {
      assert (ws + rest)[0] == ws[0];
      assert (ws + rest)[1..] == ws[1..] + rest;
      SplitSkipsSpace(ws[1..], rest);
    }
  }

  /** A single word splits into itself. */
  lemma {:induction false} SplitWord(w: string)
    requires IsWord(w)
    ensures Split(w) == [w]
  {
    var n := TokenLength(w);
    assert n == |w|;
    assert w[..n] == w;
    assert w[n..] == [];
  }

  /** Round trip: splitting words joined by single spaces gives the words back. */
  lemma {:induction false} SplitJoin(words: seq<string>)
    requires forall k :: 0 <= k < |words| ==> IsWord(words[k])
    ensures Split(Join(words)) == words
    decreases |words|
  {
    if words == [] {
    } else if |words| == 1 {
      SplitWord(words[0]);
    } else {
      SplitWordThen(words[0], ' ', Join(words[1..]));
      assert words[0] + " " + Join(words[1..]) == words[0] + [' '] + Join(words[1..]);
      SplitJoin(words[1..]);
      assert words == [words[0]] + words[1..];
    }
  }

  /** A prefix without whitespace survives `NonSpace` unchanged. */
  lemma {:induction false} NonSpacePrefix(s: string, n: nat)
    requires n <= |s|
    requires forall i :: 0 <= i < n ==> !IsSpace(s[i])
    ensures NonSpace(s) == s[..n] + NonSpace(s[n..])
    decreases n
  {
    if n > 0 {
      NonSpacePrefix(s[1..], n - 1);
      assert s[1..][..n - 1] == s[1..n];
      assert s[1..][n - 1..] == s[n..];
      assert s[..n] == [s[0]] + s[1..n];
    }
  }

  /** Splitting loses exactly the whitespace: the words, concatenated,
      are the non-whitespace characters of `s` in order. */
  lemma {:induction false} SplitKeepsNonSpace(s: string)
    ensures Concat(Split(s)) == NonSpace(s)
    decreases |s|
  {
    if s == [] {
    } else if IsSpace(s[0]) {
      SplitKeepsNonSpace(s[1..]);
    } else {
      var n := TokenLength(s);
      var tail := Split(s[n..]);
      assert ([s[..n]] + tail)[1..] == tail;
      SplitKeepsNonSpace(s[n..]);
      NonSpacePrefix(s, n);
    }
  }

  /** `s.split()` is empty exactly when `s` is empty or all whitespace. */
  lemma {:induction false} SplitEmptyIff(s: string)
    ensures Split(s) == [] <==> forall i :: 0 <= i < |s| ==> IsSpace(s[i])
    decreases |s|
  {
    if s != [] {
      SplitEmptyIff(s[1..]);
      if IsSpace(s[0]) {
        assert forall i :: 1 <= i < |s| ==> s[i] == s[1..][i - 1];
      }
    }
  }
}
