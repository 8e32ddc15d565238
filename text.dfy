/**
 * The Python string built-ins the calculator relies on: `str.isspace`,
 * `str.lower`, `str.capitalize`, `str.startswith`, `str.endswith`,
 * `str.strip` and `str.split` (with and without `maxsplit=1`).
 */
module Text {

  /** `str.isspace` for one character: the characters CPython treats as whitespace. */
  predicate IsSpace(c: char) {
    var n := c as int;
    (9 <= n <= 13) || (28 <= n <= 32) || n == 0x85 || n == 0xA0 || n == 0x1680
    || (0x2000 <= n <= 0x200A) || n == 0x2028 || n == 0x2029 || n == 0x202F
    || n == 0x205F || n == 0x3000
  }

  function LowerChar(c: char): char {
    if 'A' <= c <= 'Z' then (c as int + 32) as char else c
  }

  function UpperChar(c: char): char {
    if 'a' <= c <= 'z' then (c as int - 32) as char else c
  }

  /** `str.lower`, on the ASCII letters. */
  function Lower(s: string): (r: string)
    ensures |r| == |s|
  {
    seq(|s|, i requires 0 <= i < |s| => LowerChar(s[i]))
  }

  /** `str.capitalize`: the first character in upper case, every other one in lower case. */
  function Capitalize(s: string): (r: string)
    ensures |r| == |s|
    ensures s != [] ==> r[0] == UpperChar(s[0])
    ensures forall i :: 1 <= i < |s| ==> r[i] == LowerChar(s[i])
  {
    if s == [] then [] else [UpperChar(s[0])] + Lower(s[1..])
  }

  /** A string with no upper-case letter is its own lower case. */
  lemma LowerOfNoUpper(s: string)
    requires forall i :: 0 <= i < |s| ==> !('A' <= s[i] <= 'Z')
    ensures Lower(s) == s
  {
  }

  lemma LowerIdempotent(s: string)
    ensures Lower(Lower(s)) == Lower(s)
  {
  }

  /** Capitalizing twice is capitalizing once. */
  lemma CapitalizeIdempotent(s: string)
    ensures Capitalize(Capitalize(s)) == Capitalize(s)
  {
    if s != [] {
      var c := Capitalize(s);
      assert c[1..] == Lower(s[1..]);
      LowerIdempotent(s[1..]);
    }
  }

  predicate StartsWith(s: string, prefix: string) {
    |prefix| <= |s| && s[..|prefix|] == prefix
  }

  predicate EndsWith(s: string, suffix: string) {
    |suffix| <= |s| && s[|s| - |suffix|..] == suffix
  }

  /** A string ends with `suffix` exactly when it is some stem followed by `suffix`. */
  lemma EndsWithIffConcat(s: string, suffix: string)
    ensures EndsWith(s, suffix) <==> exists stem :: s == stem + suffix
  {
    if EndsWith(s, suffix) {
      assert s == s[..|s| - |suffix|] + suffix;
    }
    if exists stem :: s == stem + suffix {
      var stem :| s == stem + suffix;
      assert s[|s| - |suffix|..] == suffix;
    }
  }

  /** The string without its leading whitespace. */
  function DropSpaces(s: string): (r: string)
    ensures |r| <= |s|
  {
    if s != [] && IsSpace(s[0]) then DropSpaces(s[1..]) else s
  }

  /** What `DropSpaces` leaves starts with no whitespace. */
  lemma {:induction false} DropSpacesHead(s: string)
    ensures DropSpaces(s) == [] || !IsSpace(DropSpaces(s)[0])
  {
    if s != [] && IsSpace(s[0]) {
      DropSpacesHead(s[1..]);
    }
  }

  /** What `DropSpaces` leaves is a suffix of its input, and all it drops is whitespace. */
  lemma {:induction false} DropSpacesIsSuffix(s: string)
    ensures DropSpaces(s) == s[|s| - |DropSpaces(s)|..]
    ensures forall i :: 0 <= i < |s| - |DropSpaces(s)| ==> IsSpace(s[i])
  {
    if s != [] && IsSpace(s[0]) {
      DropSpacesIsSuffix(s[1..]);
      assert s[1..][|s[1..]| - |DropSpaces(s[1..])|..] == s[|s| - |DropSpaces(s)|..];
      assert forall i :: 1 <= i < |s| - |DropSpaces(s)| ==> s[i] == s[1..][i - 1];
    }
  }

  /** The string without its trailing whitespace. */
  function DropTrailingSpaces(s: string): (r: string)
    ensures |r| <= |s|
    ensures r == [] || !IsSpace(r[|r| - 1])
    ensures forall i :: |r| <= i < |s| ==> IsSpace(s[i])
  {
    if s != [] && IsSpace(s[|s| - 1]) then DropTrailingSpaces(s[..|s| - 1]) else s
  }

  /** What `DropTrailingSpaces` leaves is a prefix of its input. */
  lemma {:induction false} DropTrailingSpacesIsPrefix(s: string)
    ensures DropTrailingSpaces(s) == s[..|DropTrailingSpaces(s)|]
  {
    if s != [] && IsSpace(s[|s| - 1]) {
      DropTrailingSpacesIsPrefix(s[..|s| - 1]);
    }
  }

  /** `str.strip()`: whitespace removed from both ends. */
  function Strip(s: string): (r: string)
    ensures r == [] || (!IsSpace(r[0]) && !IsSpace(r[|r| - 1]))
  {
    DropSpacesHead(s);
    DropTrailingSpacesIsPrefix(DropSpaces(s));
    DropTrailingSpaces(DropSpaces(s))
  }

  /**
   * What `strip()` leaves is a slice of its input, and everything it cuts off
   * on either side is whitespace; with `Strip`'s own ensures, that is all of
   * `strip()`'s meaning.
   */
  lemma StripIsSlice(s: string)
    ensures exists i, j :: 0 <= i <= j <= |s| && Strip(s) == s[i..j]
              && (forall k :: 0 <= k < i ==> IsSpace(s[k]))
              && (forall k :: j <= k < |s| ==> IsSpace(s[k]))
  {
    var d := DropSpaces(s);
    DropSpacesIsSuffix(s);
    DropTrailingSpacesIsPrefix(d);
    var r := DropTrailingSpaces(d);
    var i := |s| - |d|;
    var j := i + |r|;
    assert d == s[i..];
    assert r == d[..|r|];
    assert r == s[i..j];
    assert forall k :: j <= k < |s| ==> s[k] == d[k - i];
  }

  /** The longest prefix of `s` that holds no whitespace. */
  function TakeWord(s: string): (w: string)
    ensures |w| <= |s|
  {
    if s == [] || IsSpace(s[0]) then [] else [s[0]] + TakeWord(s[1..])
  }

  /** The word `TakeWord` returns is a prefix of its input. */
  lemma {:induction false} TakeWordIsPrefix(s: string)
    ensures TakeWord(s) == s[..|TakeWord(s)|]
  {
    if s != [] && !IsSpace(s[0]) {
      TakeWordIsPrefix(s[1..]);
    }
  }

  /** The word `TakeWord` returns holds no whitespace, and whitespace or the end follows it. */
  lemma {:induction false} TakeWordStops(s: string)
    ensures forall i :: 0 <= i < |TakeWord(s)| ==> !IsSpace(TakeWord(s)[i])
    ensures |TakeWord(s)| < |s| ==> IsSpace(s[|TakeWord(s)|])
  {
    if s != [] && !IsSpace(s[0]) {
      TakeWordStops(s[1..]);
      assert forall i :: 1 <= i < |TakeWord(s)| ==> TakeWord(s)[i] == TakeWord(s[1..])[i - 1];
    }
  }

  /** `str.split()` with no separator: the maximal runs of non-whitespace, in order. */
  function Split(s: string): seq<string>
    decreases |s|
  {
    var t := DropSpaces(s);
    if t == [] then []
    else
      var w := TakeWord(t);
      [w] + Split(t[|w|..])
  }

  /**
   * `str.split(maxsplit=1)`: the first word, and, when anything but whitespace
   * follows it, the rest of the string after the whitespace that follows the word.
   */
  function SplitOnce(s: string): (parts: seq<string>)
    ensures |parts| <= 2
  {
    var t := DropSpaces(s);
    if t == [] then []
    else
      var w := TakeWord(t);
      var rest := DropSpaces(t[|w|..]);
      if rest == [] then [w] else [w, rest]
  }

  predicate IsWord(w: string) {
    w != [] && forall i :: 0 <= i < |w| ==> !IsSpace(w[i])
  }

  /** Every token `Split` produces is non-empty and holds no whitespace. */
  lemma {:induction false} SplitYieldsWords(s: string)
    ensures forall k :: 0 <= k < |Split(s)| ==> IsWord(Split(s)[k])
    decreases |s|
  {
    var t := DropSpaces(s);
    if t != [] {
      var w := TakeWord(t);
      var rest := Split(t[|w|..]);
      SplitYieldsWords(t[|w|..]);
      DropSpacesHead(s);
      TakeWordStops(t);
      assert w != [] by { assert !IsSpace(t[0]); }
      assert IsWord(w);
      assert Split(s) == [w] + rest;
      forall k | 0 <= k < |Split(s)| ensures IsWord(Split(s)[k]) {
        if k > 0 { assert Split(s)[k] == rest[k - 1]; }
      }
    }
  }

  /** Words joined by single spaces. */
  function JoinSpace(ws: seq<string>): string {
    if ws == [] then []
    else if |ws| == 1 then ws[0]
    else ws[0] + " " + JoinSpace(ws[1..])
  }

  lemma TakeWordOfWord(w: string, rest: string)
    requires IsWord(w)
    requires rest == [] || IsSpace(rest[0])
    ensures TakeWord(w + rest) == w
    decreases |w|
  {
    if |w| > 1 {
      assert (w + rest)[1..] == w[1..] + rest;
      TakeWordOfWord(w[1..], rest);
    } else {
      assert (w + rest)[1..] == rest;
    }
  }

  /** Splitting words joined by spaces gives back the words. */
  lemma {:induction false} SplitJoinSpace(ws: seq<string>)
    requires forall k :: 0 <= k < |ws| ==> IsWord(ws[k])
    ensures Split(JoinSpace(ws)) == ws
  {
    if ws == [] {
    } else if |ws| == 1 {
      var s := ws[0];
      TakeWordOfWord(s, []);
      assert s + [] == s;
      assert DropSpaces(s) == s;
      assert s[|s|..] == [];
    } else {
      var w := ws[0];
      var tail := " " + JoinSpace(ws[1..]);
      var s := JoinSpace(ws);
      assert s == w + tail;
      assert DropSpaces(s) == s;
      TakeWordOfWord(w, tail);
      assert s[|w|..] == tail;
      assert IsSpace(tail[0]);
      assert tail[1..] == JoinSpace(ws[1..]);
      if JoinSpace(ws[1..]) != [] {
        JoinNonEmptyStart(ws[1..]);
      }
      assert DropSpaces(tail) == DropSpaces(JoinSpace(ws[1..]));
      SplitJoinSpace(ws[1..]);
      SplitOfSpaceThen(tail);
    }
  }

  lemma JoinNonEmptyStart(ws: seq<string>)
    requires ws != []
    requires forall k :: 0 <= k < |ws| ==> IsWord(ws[k])
    ensures JoinSpace(ws) != [] && !IsSpace(JoinSpace(ws)[0])
  {
    if |ws| > 1 {
      assert JoinSpace(ws)[0] == ws[0][0];
    }
  }

  /** Words joined by spaces end with the last word's last character. */
  lemma {:induction false} JoinNonEmptyEnd(ws: seq<string>)
    requires ws != []
    requires forall k :: 0 <= k < |ws| ==> IsWord(ws[k])
    ensures JoinSpace(ws) != [] && !IsSpace(JoinSpace(ws)[|JoinSpace(ws)| - 1])
  {
    if |ws| > 1 {
      JoinNonEmptyEnd(ws[1..]);
      var tail := JoinSpace(ws[1..]);
      assert JoinSpace(ws) == ws[0] + " " + tail;
      assert JoinSpace(ws)[|JoinSpace(ws)| - 1] == tail[|tail| - 1];
    }
  }

  /** Two or more words joined by spaces have a space right after the first word. */
  lemma JoinSpaceAfterFirst(ws: seq<string>)
    requires |ws| >= 2
    ensures JoinSpace(ws) == ws[0] + " " + JoinSpace(ws[1..])
    ensures |ws[0]| < |JoinSpace(ws)| && JoinSpace(ws)[|ws[0]|] == ' '
  {
  }

  /** Stripping a string that neither starts nor ends with whitespace changes nothing. */
  lemma StripOfTrimmed(s: string)
    requires s == [] || (!IsSpace(s[0]) && !IsSpace(s[|s| - 1]))
    ensures Strip(s) == s
  {
    assert DropSpaces(s) == s;
  }

  /** Stripping twice is stripping once. */
  lemma StripIdempotent(s: string)
    ensures Strip(Strip(s)) == Strip(s)
  {
    StripOfTrimmed(Strip(s));
  }

  /** Leading whitespace is all `DropSpaces` removes. */
  lemma DropSpacesOfNonSpace(s: string)
    requires s == [] || !IsSpace(s[0])
    ensures DropSpaces(s) == s
  {
  }

  /** A word, a space and a trimmed rest split once into the word and the rest. */
  lemma SplitOnceOfWordThen(w: string, rest: string)
    requires IsWord(w) && rest != [] && !IsSpace(rest[0])
    ensures SplitOnce(w + " " + rest) == [w, rest]
  {
    var s := w + " " + rest;
    var tail := " " + rest;
    assert s == w + tail;
    DropSpacesOfNonSpace(s);
    TakeWordOfWord(w, tail);
    assert s[|w|..] == tail;
    assert tail[1..] == rest;
    DropSpacesOfNonSpace(rest);
  }

  lemma SplitOfSpaceThen(s: string)
    requires s != [] && IsSpace(s[0])
    ensures Split(s) == Split(s[1..])
  {
  }
}
