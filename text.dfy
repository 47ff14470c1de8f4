/** Text primitives the bot relies on: Python 2's whitespace splitting, prefix
    tests and character search, over strings as sequences of characters. */
module Text {

  datatype Option<+T> = None | Some(value: T)

  /** Python 2's `str.isspace` on one character. */
  predicate IsSpace(c: char)
  {
    c == ' ' || c == '\t' || c == '\n' || c == '\r' || c == '\U{B}' || c == '\U{C}'
  }

  /** A token as `str.split()` produces it: non-empty and free of whitespace. */
  predicate IsWord(w: string)
  {
    |w| > 0 && forall i :: 0 <= i < |w| ==> !IsSpace(w[i])
  }

  /** Python's `s.startswith(p)`. */
  predicate StartsWith(s: string, p: string)
  {
    |p| <= |s| && s[..|p|] == p
  }

  /** Index of the first occurrence of `c` in `s`, or `|s|` when there is none. */
  function IndexOf(s: string, c: char): (i: nat)
    ensures i <= |s|
    ensures i < |s| ==> s[i] == c
    ensures forall j :: 0 <= j < i ==> s[j] != c
  {
    if s == [] then 0 else if s[0] == c then 0 else 1 + IndexOf(s[1..], c)
  }

  /** `s` without its leading whitespace. */
  function DropSpaces(s: string): (r: string)
    ensures |r| <= |s|
    ensures r != [] ==> !IsSpace(r[0])
  {
    if s != [] && IsSpace(s[0]) then DropSpaces(s[1..]) else s
  }

  /** `s` without its trailing whitespace. */
  function DropTrailingSpaces(s: string): (r: string)
    ensures |r| <= |s|
    ensures r != [] ==> !IsSpace(r[|r| - 1])
  {
    if s != [] && IsSpace(s[|s| - 1]) then DropTrailingSpaces(s[..|s| - 1]) else s
  }

  /** Python's `s.strip()`. */
  function Strip(s: string): string
  {
    DropTrailingSpaces(DropSpaces(s))
  }

  /** Stripping only removes characters. */
  lemma {:induction false} StripKeepsChars(s: string)
    ensures forall c :: c in Strip(s) ==> c in s
  {
    DropSpacesKeepsChars(s);
    DropTrailingSpacesKeepsChars(DropSpaces(s));
  }

  lemma {:induction false} DropSpacesKeepsChars(s: string)
    ensures forall c :: c in DropSpaces(s) ==> c in s
  {
    if s != [] && IsSpace(s[0]) {
      DropSpacesKeepsChars(s[1..]);
    }
  }

  lemma {:induction false} DropTrailingSpacesKeepsChars(s: string)
    ensures forall c :: c in DropTrailingSpaces(s) ==> c in s
  {
    if s != [] && IsSpace(s[|s| - 1]) {
      DropTrailingSpacesKeepsChars(s[..|s| - 1]);
    }
  }

  /** Length of the run of non-whitespace characters that `s` starts with. */
  function WordLength(s: string): (n: nat)
    ensures n <= |s|
  {
    if s == [] || IsSpace(s[0]) then 0 else 1 + WordLength(s[1..])
  }

  /** Python's `s.split()` with no argument: the maximal runs of
      non-whitespace characters, in order. */
  function Split(s: string): (r: seq<string>)
    decreases |s|
  {
    var t := DropSpaces(s);
    if t == [] then []
    else
      var n := WordLength(t);
      [t[..n]] + Split(t[n..])
  }

  /** A run of non-whitespace is a word. */
  lemma {:induction false} WordLengthGivesWord(t: string)
    requires t != [] && !IsSpace(t[0])
    ensures IsWord(t[..WordLength(t)])
  {
    var n := WordLength(t);
    if n > 1 {
      WordLengthGivesWord(t[1..]);
      assert t[..n] == [t[0]] + t[1..][..n - 1];
    }
  }

  /** Every token of a split is a word. */
  lemma {:induction false} SplitGivesWords(s: string)
    ensures forall w :: w in Split(s) ==> IsWord(w)
    decreases |s|
  {
    var t := DropSpaces(s);
    if t != [] {
      var n := WordLength(t);
      WordLengthGivesWord(t);
      SplitGivesWords(t[n..]);
      assert Split(s) == [t[..n]] + Split(t[n..]);
    }
  }

  /** The words joined by single spaces (Python's `' '.join(ws)`). */
  function Unwords(ws: seq<string>): string
  {
    if |ws| == 0 then ""
    else if |ws| == 1 then ws[0]
    else ws[0] + " " + Unwords(ws[1..])
  }

  lemma WordLengthOfWord(w: string, tail: string)
    requires IsWord(w)
    requires tail == [] || IsSpace(tail[0])
    ensures WordLength(w + tail) == |w|
  {
    if |w| > 1 {
      assert (w + tail)[1..] == w[1..] + tail;
      WordLengthOfWord(w[1..], tail);
    } else {
      assert (w + tail)[1..] == tail;
    }
  }

  /** A word followed by whitespace or nothing is split off whole. */
  lemma SplitWordThen(w: string, tail: string)
    requires IsWord(w)
    requires tail == [] || IsSpace(tail[0])
    ensures Split(w + tail) == [w] + Split(tail)
  {
    var s := w + tail;
    assert DropSpaces(s) == s;
    WordLengthOfWord(w, tail);
    assert s[..|w|] == w;
    assert s[|w|..] == tail;
  }

  /** A leading whitespace character does not change the split. Together
      with `SplitWordThen` and `Split("") == []` this fixes the split of
      every string. */
  lemma SplitSpace(c: char, x: string)
    requires IsSpace(c)
    ensures Split([c] + x) == Split(x)
  {
    assert ([c] + x)[1..] == x;
    assert DropSpaces([c] + x) == DropSpaces(x);
  }

  /** A run of whitespace characters, possibly empty. */
  predicate IsSpaces(sp: string)
  {
    forall i :: 0 <= i < |sp| ==> IsSpace(sp[i])
  }

  /** Leading whitespace of any kind and length does not change the split. */
  lemma {:induction false} SplitSpaces(sp: string, x: string)
    requires IsSpaces(sp)
    ensures Split(sp + x) == Split(x)
    decreases |sp|
  {
    if sp != [] {
      assert sp + x == [sp[0]] + (sp[1..] + x);
      assert IsSpace(sp[0]) && IsSpaces(sp[1..]);
      SplitSpaces(sp[1..], x);
      SplitSpace(sp[0], sp[1..] + x);
    } else {
      assert sp + x == x;
    }
  }

  /** A word, then at least one whitespace character: the word is split off
      and the whitespace is skipped, whatever it is. */
  lemma SplitWordSpaced(w: string, sp: string, x: string)
    requires IsWord(w) && IsSpaces(sp) && sp != []
    ensures Split(w + sp + x) == [w] + Split(x)
  {
    assert w + sp + x == w + (sp + x);
    SplitWordThen(w, sp + x);
    SplitSpaces(sp, x);
  }

  /** Dropping the leading whitespace run `sp` in front of a non-space. */
  lemma {:induction false} DropSpacesOfSpaces(sp: string, x: string)
    requires IsSpaces(sp) && (x == [] || !IsSpace(x[0]))
    ensures DropSpaces(sp + x) == x
    decreases |sp|
  {
    if sp != [] {
      assert (sp + x)[1..] == sp[1..] + x;
      DropSpacesOfSpaces(sp[1..], x);
    }
  }

  /** Dropping the trailing whitespace run `sp` after a non-space. */
  lemma {:induction false} DropTrailingSpacesOfSpaces(x: string, sp: string)
    requires IsSpaces(sp) && (x == [] || !IsSpace(x[|x| - 1]))
    ensures DropTrailingSpaces(x + sp) == x
    decreases |sp|
  {
    if sp != [] {
      assert (x + sp)[..|x + sp| - 1] == x + sp[..|sp| - 1];
      DropTrailingSpacesOfSpaces(x, sp[..|sp| - 1]);
    } else {
      assert x + sp == x;
    }
  }

  /** `strip()` removes exactly the surrounding whitespace runs. */
  lemma StripSpaces(lead: string, x: string, trail: string)
    requires IsSpaces(lead) && IsSpaces(trail)
    requires x != [] && !IsSpace(x[0]) && !IsSpace(x[|x| - 1])
    ensures Strip(lead + x + trail) == x
  {
    assert lead + x + trail == lead + (x + trail);
    DropSpacesOfSpaces(lead, x + trail);
    DropTrailingSpacesOfSpaces(x, trail);
  }

  /** The split of several joined words starts with the first of them. */
  lemma SplitUnwordsCons(ws: seq<string>)
    requires |ws| > 1 && IsWord(ws[0])
    ensures Split(Unwords(ws)) == [ws[0]] + Split(Unwords(ws[1..]))
  {
    var rest := Unwords(ws[1..]);
    assert Unwords(ws) == ws[0] + (" " + rest);
    SplitWordThen(ws[0], " " + rest);
    SplitSpace(' ', rest);
  }

  /** Splitting words joined by single spaces gives the words back. */
  lemma {:induction false} SplitUnwords(ws: seq<string>)
    requires forall w :: w in ws ==> IsWord(w)
    ensures Split(Unwords(ws)) == ws
  {
    if |ws| == 1 {
      SplitWordThen(ws[0], "");
      assert ws[0] + "" == ws[0];
    } else if |ws| > 1 {
      SplitUnwordsCons(ws);
      SplitUnwords(ws[1..]);
      assert ws == [ws[0]] + ws[1..];
    }
  }

  /** A command written as words starts with its first word. */
  lemma UnwordsStartsWith(ws: seq<string>)
    requires |ws| > 0
    ensures StartsWith(Unwords(ws), ws[0])
  {
    if |ws| > 1 {
      assert Unwords(ws)[..|ws[0]|] == ws[0];
    }
  }

  /** The first occurrence of `c` in `a + [c] + b` is just after `a` when `a` has none. */
  lemma IndexOfAfter(a: string, c: char, b: string)
    requires c !in a
    ensures IndexOf(a + [c] + b, c) == |a|
  {
    var s := a + [c] + b;
    assert s[|a|] == c;
  }
}
