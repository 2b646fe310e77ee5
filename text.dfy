/** Python's argument-less `str.split()`, and the "second token" the builder takes
    from a directory entry's string form. */
module Text {
  import opened Wrappers

  /** The characters Python's `str.isspace` accepts, which are exactly those
      `str.split()` with no argument splits on. */
  predicate IsSpace(c: char) {
    c == ' ' || ('\t' <= c <= '\r') || ('\U{1C}' <= c <= '\U{1F}')
    || c == '\U{85}' || c == '\U{A0}' || c == '\U{1680}'
    || ('\U{2000}' <= c <= '\U{200A}') || c == '\U{2028}' || c == '\U{2029}'
    || c == '\U{202F}' || c == '\U{205F}' || c == '\U{3000}'
  }

  /** A token `split()` can return: non-empty and free of whitespace. */
  predicate IsWord(w: string) {
    |w| > 0 && forall i :: 0 <= i < |w| ==> !IsSpace(w[i])
  }

  /** Length of the run of non-space characters that starts `s`. */
  function WordLength(s: string): (n: nat)
    ensures n <= |s|
    ensures forall i :: 0 <= i < n ==> !IsSpace(s[i])
    ensures n == |s| || IsSpace(s[n])
  {
    if s == [] || IsSpace(s[0]) then 0 else 1 + WordLength(s[1..])
  }

  /** `s.split()`: the maximal runs of non-space characters, in order. */
  function Split(s: string): (r: seq<string>)
    ensures forall k :: 0 <= k < |r| ==> IsWord(r[k])
    decreases |s|
  {
    if s == [] then []
    else if IsSpace(s[0]) then Split(s[1..])
    else
      var n := WordLength(s);
      [s[..n]] + Split(s[n..])
  }

  /** `" ".join(ws)`. */
  function Join(ws: seq<string>): string {
    if ws == [] then ""
    else if |ws| == 1 then ws[0]
    else ws[0] + " " + Join(ws[1..])
  }

  /** `s.split()[1]`; `None` where Python raises `IndexError`. */
  function SecondToken(s: string): (r: Option<string>)
    ensures r.Some? <==> |Split(s)| >= 2
    ensures r.Some? ==> IsWord(r.value) && r.value == Split(s)[1]
  {
    var tokens := Split(s);
    if |tokens| >= 2 then Some(tokens[1]) else None
  }

  lemma {:induction false} WordLengthOfWord(w: string, rest: string)
    requires IsWord(w)
    requires rest == [] || IsSpace(rest[0])
    ensures WordLength(w + rest) == |w|
    decreases |w|
  {
    if |w| > 1 {
      assert (w + rest)[1..] == w[1..] + rest;
      WordLengthOfWord(w[1..], rest);
    } else {
      assert (w + rest)[1..] == rest;
    }
  }

  /** A word followed by whitespace (or nothing) is split off as one token. */
  lemma {:induction false} SplitWord(w: string, rest: string)
    requires IsWord(w)
    requires rest == [] || IsSpace(rest[0])
    ensures Split(w + rest) == [w] + Split(rest)
  {
    WordLengthOfWord(w, rest);
    var s := w + rest;
    assert s[..|w|] == w;
    assert s[|w|..] == rest;
  }

  /** Leading whitespace does not change the tokens. */
  lemma {:induction false} SplitSkipsSpace(c: char, rest: string)
    requires IsSpace(c)
    ensures Split([c] + rest) == Split(rest)
  {
    assert ([c] + rest)[1..] == rest;
  }

  /** `split()` undoes `" ".join(...)` on a list of words. */
  lemma {:induction false} SplitJoin(ws: seq<string>)
    requires forall k :: 0 <= k < |ws| ==> IsWord(ws[k])
    ensures Split(Join(ws)) == ws
  {
    if ws == [] {
    } else if |ws| == 1 {
      SplitWord(ws[0], []);
      assert ws[0] + [] == ws[0];
    } else {
      var tail := " " + Join(ws[1..]);
      assert Join(ws) == ws[0] + tail;
      SplitWord(ws[0], tail);
      SplitSkipsSpace(' ', Join(ws[1..]));
      SplitJoin(ws[1..]);
      assert ws == [ws[0]] + ws[1..];
    }
  }

  /** The second token of `tag dn rest...` is `dn` whenever `dn` holds no
      whitespace: the entry's DN is found. */
  lemma {:induction false} SecondTokenOf(tag: string, dn: string, rest: string)
    requires IsWord(tag) && IsWord(dn)
    requires rest == [] || IsSpace(rest[0])
    ensures SecondToken(tag + " " + dn + rest) == Some(dn)
  {
    var after := " " + dn + rest;
    assert tag + " " + dn + rest == tag + after;
    SplitWord(tag, after);
    assert after == [' '] + (dn + rest);
    SplitSkipsSpace(' ', dn + rest);
    SplitWord(dn, rest);
  }

  /** A DN that itself contains a space is cut at that space: only its first word is
      read as the DN. */
  lemma DnWithSpaceIsCut(tag: string, a: string, b: string, rest: string)
    requires IsWord(tag) && IsWord(a) && IsWord(b)
    requires rest == [] || IsSpace(rest[0])
    ensures SecondToken(tag + " " + (a + " " + b) + rest) == Some(a)
  {
    assert tag + " " + (a + " " + b) + rest == tag + " " + a + (" " + b + rest);
    SecondTokenOf(tag, a, " " + b + rest);
  }

  /** A string that is fewer than two words apart from whitespace has no second token. */
  lemma NoSecondTokenOfFewWords(ws: seq<string>)
    requires |ws| < 2 && forall k :: 0 <= k < |ws| ==> IsWord(ws[k])
    ensures SecondToken(Join(ws)) == None
  {
    SplitJoin(ws);
  }

  /** A string of whitespace only has no tokens at all. */
  lemma {:induction false} AllSpaceHasNoTokens(s: string)
    requires forall i :: 0 <= i < |s| ==> IsSpace(s[i])
    ensures Split(s) == [] && SecondToken(s) == None
    decreases |s|
  {
    if s != [] {
      AllSpaceHasNoTokens(s[1..]);
    }
  }
}
