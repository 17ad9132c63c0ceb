/**
 * The handful of Go `strings` functions the agent relies on, over strings
 * seen as sequences of runes: `TrimSpace`, `Split`, `Join`, `ToLower` and
 * `Contains`. Each is stated once here and characterised by lemmas, so the
 * modules that model the agent can reason about them without unfolding.
 */
module GoStrings {

  /** Go's `unicode.IsSpace`: the Latin-1 spaces and Unicode's White_Space set. */
  predicate IsSpace(c: char) {
    c == '\t' || c == '\n' || c == '\U{000B}' || c == '\U{000C}' || c == '\r' || c == ' '
    || c == '\U{0085}' || c == '\U{00A0}' || c == '\U{1680}'
    || ('\U{2000}' <= c <= '\U{200A}')
    || c == '\U{2028}' || c == '\U{2029}' || c == '\U{202F}' || c == '\U{205F}' || c == '\U{3000}'
  }

  /** The first position at or after `i` that is not white space, or `|s|`. */
  function SolidFrom(s: string, i: nat): (k: nat)
    requires i <= |s|
    ensures i <= k <= |s| && (k == |s| || !IsSpace(s[k]))
    ensures forall j :: i <= j < k ==> IsSpace(s[j])
    decreases |s| - i
  {
    if i < |s| && IsSpace(s[i]) then SolidFrom(s, i + 1) else i
  }

  /** The end of the part of `s[..k]` that does not end in white space. */
  function SolidUntil(s: string, k: nat): (e: nat)
    requires k <= |s|
    ensures e <= k && (e == 0 || !IsSpace(s[e - 1]))
    ensures forall j :: e <= j < k ==> IsSpace(s[j])
  {
    if k > 0 && IsSpace(s[k - 1]) then SolidUntil(s, k - 1) else k
  }

  /** Go's `strings.TrimSpace`: `s` without its leading and trailing white space. */
  function TrimSpace(s: string): (r: string)
    ensures r == [] || (!IsSpace(r[0]) && !IsSpace(r[|r| - 1]))
  {
    var a := SolidFrom(s, 0);
    var b := SolidUntil(s, |s|);
    if a < b then s[a..b] else []
  }

  /** `TrimSpace` removes white space only: its result sits in `s` between two runs of white space. */
  lemma TrimSpaceIsInfix(s: string)
    ensures exists a: nat :: (OccursAt(s, TrimSpace(s), a)
      && (forall j :: 0 <= j < a ==> IsSpace(s[j]))
      && (forall j :: a + |TrimSpace(s)| <= j < |s| ==> IsSpace(s[j])))
  {
    var a := SolidFrom(s, 0);
    var b := SolidUntil(s, |s|);
    if a < b {
      assert OccursAt(s, TrimSpace(s), a);
    } else {
      assert forall j :: 0 <= j < |s| ==> IsSpace(s[j]) by {
        forall j | 0 <= j < |s|
          ensures IsSpace(s[j])
        {
          assert j < a;
        }
      }
      assert OccursAt(s, TrimSpace(s), 0);
    }
  }

  /** `TrimSpace` leaves nothing exactly when `s` is all white space. */
  lemma TrimSpaceEmpty(s: string)
    ensures TrimSpace(s) == [] <==> forall j :: 0 <= j < |s| ==> IsSpace(s[j])
  {
    var a := SolidFrom(s, 0);
    var b := SolidUntil(s, |s|);
    if a >= b {
      forall j | 0 <= j < |s|
        ensures IsSpace(s[j])
      {
        if j >= a {
          assert b <= j;
        }
      }
    }
  }

  /** A first character that is not white space survives `TrimSpace` unchanged. */
  lemma TrimSpaceFirst(s: string)
    requires s != [] && !IsSpace(s[0])
    ensures TrimSpace(s) != [] && TrimSpace(s)[0] == s[0]
  {
  }

  /** A last character that is not white space survives `TrimSpace` unchanged. */
  lemma TrimSpaceLast(s: string)
    requires s != [] && !IsSpace(s[|s| - 1])
    ensures TrimSpace(s) != [] && TrimSpace(s)[|TrimSpace(s)| - 1] == s[|s| - 1]
  {
  }

  /** Trimming white space put in front of a word with solid ends gives back the word. */
  lemma TrimSpaceDropsPadding(x: string, w: string)
    requires forall j :: 0 <= j < |x| ==> IsSpace(x[j])
    requires w != [] && !IsSpace(w[0]) && !IsSpace(w[|w| - 1])
    ensures TrimSpace(x + w) == w
  {
    var s := x + w;
    assert s[|x|] == w[0] && s[|s| - 1] == w[|w| - 1];
    assert forall j :: 0 <= j < |x| ==> IsSpace(s[j]);
    assert s[|x|..|s|] == w;
  }

  /** The position of the first `sep` at or after `i`, or `|s|`. */
  function NextSep(s: string, sep: char, i: nat): (k: nat)
    requires i <= |s|
    ensures i <= k <= |s| && (k == |s| || s[k] == sep)
    ensures forall j :: i <= j < k ==> s[j] != sep
    decreases |s| - i
  {
    if i == |s| || s[i] == sep then i else NextSep(s, sep, i + 1)
  }

  /** The pieces of `s[i..]` between the occurrences of `sep`. */
  function SplitFrom(s: string, sep: char, i: nat): (r: seq<string>)
    requires i <= |s|
    ensures |r| >= 1
    decreases |s| - i
  {
    var k := NextSep(s, sep, i);
    if k == |s| then [s[i..]] else [s[i..k]] + SplitFrom(s, sep, k + 1)
  }

  /** Go's `strings.Split(s, sep)` for a one-character separator: empty pieces are kept. */
  function Split(s: string, sep: char): (r: seq<string>)
    ensures |r| >= 1
  {
    SplitFrom(s, sep, 0)
  }

  /** A string with exactly one separator splits into the parts before and after it. */
  lemma SplitAtOnlySeparator(w: string, sep: char, k: nat)
    requires k < |w| && w[k] == sep
    requires forall j :: 0 <= j < |w| && j != k ==> w[j] != sep
    ensures Split(w, sep) == [w[..k], w[k + 1..]]
  {
    assert NextSep(w, sep, 0) == k;
    assert NextSep(w, sep, k + 1) == |w|;
    assert SplitFrom(w, sep, k + 1) == [w[k + 1..]];
  }

  /** Go's `strings.Join(xs, sep)`. */
  function Join(xs: seq<string>, sep: string): string
  {
    if |xs| == 0 then ""
    else if |xs| == 1 then xs[0]
    else xs[0] + sep + Join(xs[1..], sep)
  }

  /** No piece of a split contains the separator. */
  lemma {:induction false} SplitFromPiecesLackSeparator(s: string, sep: char, i: nat)
    requires i <= |s|
    ensures forall p :: p in SplitFrom(s, sep, i) ==> sep !in p
    decreases |s| - i
  {
    var k := NextSep(s, sep, i);
    assert sep !in s[i..k] by {
      forall j | 0 <= j < k - i
        ensures s[i..k][j] != sep
      {
        assert s[i + j] != sep;
      }
    }
    if k < |s| {
      SplitFromPiecesLackSeparator(s, sep, k + 1);
    }
  }

  /** Joining a list of at least two pieces puts the separator after the first. */
  lemma JoinCons(x: string, rest: seq<string>, sep: string)
    requires |rest| >= 1
    ensures Join([x] + rest, sep) == x + sep + Join(rest, sep)
  {
    assert ([x] + rest)[1..] == rest;
  }

  /** A string cut around position `k`. */
  lemma CutAt(s: string, i: nat, k: nat)
    requires i <= k < |s|
    ensures s[i..] == s[i..k] + [s[k]] + s[k + 1..]
  {
  }

  /** Joining the pieces of `s[i..]` with the separator gives `s[i..]` back. */
  lemma {:induction false} JoinSplitFrom(s: string, sep: char, i: nat)
    requires i <= |s|
    ensures Join(SplitFrom(s, sep, i), [sep]) == s[i..]
    decreases |s| - i
  {
    var k := NextSep(s, sep, i);
    if k < |s| {
      var rest := SplitFrom(s, sep, k + 1);
      assert SplitFrom(s, sep, i) == [s[i..k]] + rest;
      JoinSplitFrom(s, sep, k + 1);
      JoinCons(s[i..k], rest, [sep]);
      CutAt(s, i, k);
    } else {
      assert SplitFrom(s, sep, i) == [s[i..]];
    }
  }

  /** Splitting and joining back with the same separator gives the string back. */
  lemma JoinSplit(s: string, sep: char)
    ensures Join(Split(s, sep), [sep]) == s
  {
    JoinSplitFrom(s, sep, 0);
  }

  /** The parts of a suffix that is laid out as `x`, one character `c`, then `y`. */
  lemma SuffixParts(s: string, i: nat, x: string, c: char, y: string)
    requires i <= |s| && s[i..] == x + [c] + y
    ensures i + |x| < |s| && s[i..i + |x|] == x && s[i + |x|] == c && s[i + |x| + 1..] == y
  {
    assert (x + [c] + y)[|x|] == c;
    assert (x + [c] + y)[..|x|] == x;
    assert (x + [c] + y)[|x| + 1..] == y;
  }

  /** A separator-free piece at `i` that ends the string or is followed by the separator is exactly the next piece. */
  lemma NextSepAfterPiece(s: string, sep: char, i: nat, x: string)
    requires i + |x| <= |s| && s[i..i + |x|] == x && sep !in x
    requires i + |x| == |s| || s[i + |x|] == sep
    ensures NextSep(s, sep, i) == i + |x|
  {
    assert forall j :: i <= j < i + |x| ==> s[j] == x[j - i];
  }

  /** Where `s[i..]` is the pieces `xs` joined by the separator, splitting from `i` gives `xs` back. */
  lemma {:induction false} SplitFromJoin(s: string, sep: char, i: nat, xs: seq<string>)
    requires i <= |s| && |xs| >= 1
    requires forall k :: 0 <= k < |xs| ==> sep !in xs[k]
    requires s[i..] == Join(xs, [sep])
    ensures SplitFrom(s, sep, i) == xs
    decreases |xs|
  {
    if |xs| > 1 {
      var rest := Join(xs[1..], [sep]);
      assert xs == [xs[0]] + xs[1..];
      JoinCons(xs[0], xs[1..], [sep]);
      SuffixParts(s, i, xs[0], sep, rest);
      NextSepAfterPiece(s, sep, i, xs[0]);
      var k := i + |xs[0]|;
      SplitFromJoin(s, sep, k + 1, xs[1..]);
      assert SplitFrom(s, sep, i) == [s[i..k]] + SplitFrom(s, sep, k + 1);
    } else {
      assert s[i..|s|] == xs[0];
      NextSepAfterPiece(s, sep, i, xs[0]);
    }
  }

  /** Joining pieces that do not contain the separator and splitting again gives the pieces back. */
  lemma SplitJoin(xs: seq<string>, sep: char)
    requires |xs| >= 1
    requires forall k :: 0 <= k < |xs| ==> sep !in xs[k]
    ensures Split(Join(xs, [sep]), sep) == xs
  {
    SplitFromJoin(Join(xs, [sep]), sep, 0, xs);
  }

  /** ASCII case folding of one character. */
  function LowerChar(c: char): char
  {
    if 'A' <= c <= 'Z' then (c as int + 32) as char else c
  }

  /** Go's `strings.ToLower`, for the ASCII letters. */
  function ToLower(s: string): (r: string)
    ensures |r| == |s|
    ensures forall i :: 0 <= i < |s| ==> r[i] == LowerChar(s[i])
  {
    seq(|s|, i requires 0 <= i < |s| => LowerChar(s[i]))
  }

  /** Lower-casing twice is lower-casing once. */
  lemma ToLowerIdempotent(s: string)
    ensures ToLower(ToLower(s)) == ToLower(s)
  {
  }

  /** `sub` occurs in `s` starting at position `i`. */
  predicate OccursAt(s: string, sub: string, i: nat)
  {
    i + |sub| <= |s| && s[i..i + |sub|] == sub
  }

  /** Go's `strings.Contains`: true for the empty `sub`, else when some window of `s` equals `sub`. */
  function Contains(s: string, sub: string): (b: bool)
    ensures b <==> exists i :: 0 <= i <= |s| && OccursAt(s, sub, i)
  {
    if |sub| > |s| then
      assert forall i :: 0 <= i <= |s| ==> !OccursAt(s, sub, i);
      false
    else if s[..|sub|] == sub then
      assert OccursAt(s, sub, 0);
      true
    else
      var b := Contains(s[1..], sub);
      if b then
        var i :| 0 <= i <= |s[1..]| && OccursAt(s[1..], sub, i);
        assert OccursAt(s, sub, i + 1);
        true
      else
        forall i | 0 < i <= |s| && OccursAt(s, sub, i)
          ensures false
        {
          assert OccursAt(s[1..], sub, i - 1);
        }
        false
  }
}
