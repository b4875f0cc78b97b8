/**
 * The small pieces of Kotlin string handling the main screen relies on: integers in decimal,
 * `appendLine` and the line structure it produces, and a file name's extension and base name
 * (`File.extension`, `File.nameWithoutExtension`).
 */
module Text {

  // ---------------------------------------------------------------------------------------
  // Decimal text

  /** The decimal digits of `n`, most significant first, without leading zeros. */
  function NatText(n: nat): (s: string)
    ensures |s| >= 1
    ensures forall i :: 0 <= i < |s| ==> '0' <= s[i] <= '9'
  {
    if n < 10 then [Digit(n)] else NatText(n / 10) + [Digit(n % 10)]
  }

  function Digit(d: nat): char
    requires d < 10
  {
    "0123456789"[d]
  }

  lemma DigitValue(d: nat)
    requires d < 10
    ensures Digit(d) as int - '0' as int == d
  {
  }

  /** The value of a string of decimal digits. */
  function DigitsValue(s: string): nat
    requires forall i :: 0 <= i < |s| ==> '0' <= s[i] <= '9'
  {
    if s == [] then 0 else 10 * DigitsValue(s[..|s| - 1]) + (s[|s| - 1] as int - '0' as int)
  }

  /** Reading the digits back gives the number. */
  lemma {:induction false} NatTextValue(n: nat)
    ensures DigitsValue(NatText(n)) == n
  {
    if n >= 10 {
      NatTextValue(n / 10);
      var s := NatText(n);
      assert s[..|s| - 1] == NatText(n / 10);
      assert s[|s| - 1] as int - '0' as int == n % 10 by {
        DigitValue(n % 10);
      }
      assert n == 10 * (n / 10) + n % 10;
    }
  }

  /** Kotlin's `Int.toString()`: a minus sign for negative values. */
  function IntText(i: int): (s: string)
    ensures i >= 0 ==> s == NatText(i)
    ensures i < 0 ==> s == "-" + NatText(-i)
  {
    if i < 0 then "-" + NatText(-i) else NatText(i)
  }

  // ---------------------------------------------------------------------------------------
  // Lines

  /** What successive `appendLine` calls produce: every line followed by a line feed. */
  function Joined(ls: seq<string>): string {
    if ls == [] then "" else ls[0] + "\n" + Joined(ls[1..])
  }

  /** One more `appendLine`. */
  lemma {:induction false} JoinedSnoc(ls: seq<string>, l: string)
    ensures Joined(ls + [l]) == Joined(ls) + l + "\n"
    decreases |ls|
  {
    if ls != [] {
      assert (ls + [l])[1..] == ls[1..] + [l];
      JoinedSnoc(ls[1..], l);
    }
  }

  /** `map`: one string per element. */
  function Mapped<T>(xs: seq<T>, f: T -> string): (ys: seq<string>)
    ensures |ys| == |xs| && forall i :: 0 <= i < |xs| ==> ys[i] == f(xs[i])
  {
    seq(|xs|, i requires 0 <= i < |xs| => f(xs[i]))
  }

  /** Mapping one more element. */
  lemma MappedSnoc<T>(xs: seq<T>, i: nat, f: T -> string)
    requires i < |xs|
    ensures Mapped(xs[..i + 1], f) == Mapped(xs[..i], f) + [f(xs[i])]
  {
  }

  /** The index of the first `c` in `s`, or `|s|` when there is none. */
  function FirstIndex(s: string, c: char): (k: nat)
    ensures k <= |s|
    ensures forall i :: 0 <= i < k ==> s[i] != c
    ensures k < |s| ==> s[k] == c
  {
    if s == [] then 0 else if s[0] == c then 0 else 1 + FirstIndex(s[1..], c)
  }

  /** The first `c` of `p + [c] + q` is the one after `p` when `p` has none. */
  lemma FirstIndexAfter(p: string, c: char, q: string)
    requires forall i :: 0 <= i < |p| ==> p[i] != c
    ensures FirstIndex(p + [c] + q, c) == |p|
  {
    var s := p + [c] + q;
    assert s[|p|] == c;
    assert forall i :: 0 <= i < |p| ==> s[i] == p[i];
  }

  /** The text split at line feeds, each line without its line feed (a final line feed ends the last line). */
  function Lines(t: string): seq<string>
    decreases |t|
  {
    if t == [] then []
    else
      var j := FirstIndex(t, '\n');
      if j == |t| then [t] else [t[..j]] + Lines(t[j + 1..])
  }

  predicate NoLineFeed(l: string) {
    forall i :: 0 <= i < |l| ==> l[i] != '\n'
  }

  /** Splitting the appended text at line feeds gives back the lines, when none holds a line feed. */
  lemma {:induction false} LinesOfJoined(ls: seq<string>)
    requires forall k :: 0 <= k < |ls| ==> NoLineFeed(ls[k])
    ensures Lines(Joined(ls)) == ls
    decreases |ls|
  {
    if ls != [] {
      var t := Joined(ls);
      var rest := Joined(ls[1..]);
      assert t == ls[0] + ['\n'] + rest;
      FirstIndexAfter(ls[0], '\n', rest);
      assert t[..|ls[0]|] == ls[0];
      assert t[|ls[0]| + 1..] == rest;
      LinesOfJoined(ls[1..]);
    }
  }

  // ---------------------------------------------------------------------------------------
  // File names

  /** The index of the last '.', or -1 when there is none. */
  function LastDot(s: string): (k: int)
    ensures -1 <= k < |s|
    ensures k >= 0 ==> s[k] == '.'
    ensures forall i :: k < i < |s| ==> s[i] != '.'
  {
    if s == [] then -1 else if s[|s| - 1] == '.' then |s| - 1 else LastDot(s[..|s| - 1])
  }

  /** `File.extension`: the text after the last '.', or "" without one. */
  function Extension(s: string): string {
    var k := LastDot(s);
    if k < 0 then "" else s[k + 1..]
  }

  /** `File.nameWithoutExtension`: the text before the last '.', or the whole name without one. */
  function BaseName(s: string): string {
    var k := LastDot(s);
    if k < 0 then s else s[..k]
  }

  predicate NoDot(s: string) {
    forall i :: 0 <= i < |s| ==> s[i] != '.'
  }

  /** Splitting a name at its last dot and joining again gives the name back. */
  lemma SplitAtLastDot(s: string)
    requires LastDot(s) >= 0
    ensures s == BaseName(s) + "." + Extension(s)
  {
    var k := LastDot(s);
    assert s == s[..k] + [s[k]] + s[k + 1..];
  }

  /** A name without dots followed by an extension without dots: base name and extension come apart again. */
  lemma WithExtension(n: string, ext: string)
    requires NoDot(n) && NoDot(ext)
    ensures BaseName(n + "." + ext) == n && Extension(n + "." + ext) == ext
  {
    var s := n + "." + ext;
    assert s[|n|] == '.';
    assert forall i :: |n| < i < |s| ==> s[i] == ext[i - |n| - 1];
  }
}
