/**
 * The pieces of Python's `str` API that the prior repr reader uses:
 * `split` on one character, `join`, `strip()`, `strip(c)` and
 * `replace(' ', '')`, with the facts about them that the reader's
 * proofs need.
 */
module PyStrings {

  /** Python's `str.isspace()`: the characters that `str.strip()` removes. */
  predicate IsSpace(c: char) {
    || c == ' ' || c == '\t' || c == '\n' || c == '\r' || c == '\U{b}' || c == '\U{c}'
    || ('\U{1c}' <= c <= '\U{1f}') || c == '\U{85}' || c == '\U{a0}' || c == '\U{1680}'
    || ('\U{2000}' <= c <= '\U{200a}') || c == '\U{2028}' || c == '\U{2029}'
    || c == '\U{202f}' || c == '\U{205f}' || c == '\U{3000}'
  }

  predicate NoWhitespace(s: string) {
    forall k :: 0 <= k < |s| ==> !IsSpace(s[k])
  }

  /** `s.lstrip()` */
  function LStrip(s: string): string {
    if |s| > 0 && IsSpace(s[0]) then LStrip(s[1..]) else s
  }

  /** `s.rstrip()` */
  function RStrip(s: string): string {
    if |s| > 0 && IsSpace(s[|s| - 1]) then RStrip(s[..|s| - 1]) else s
  }

  /** `s.strip()` */
  function Strip(s: string): string {
    RStrip(LStrip(s))
  }

  /** `strip()` leaves a string without whitespace unchanged. */
  lemma StripNoWhitespace(s: string)
    requires NoWhitespace(s)
    ensures Strip(s) == s
  {
    assert |s| > 0 ==> !IsSpace(s[0]) && !IsSpace(s[|s| - 1]);
  }

  /** `s.lstrip(c)` */
  function LStripChar(s: string, c: char): string {
    if |s| > 0 && s[0] == c then LStripChar(s[1..], c) else s
  }

  /** `s.rstrip(c)` */
  function RStripChar(s: string, c: char): string {
    if |s| > 0 && s[|s| - 1] == c then RStripChar(s[..|s| - 1], c) else s
  }

  /** `s.strip(c)`: drops every leading and trailing `c`. */
  function StripChar(s: string, c: char): string {
    RStripChar(LStripChar(s, c), c)
  }

  /** `lstrip()` keeps the longest suffix that does not start with whitespace. */
  lemma {:induction false} LStripFacts(s: string)
    ensures |LStrip(s)| <= |s| && LStrip(s) == s[|s| - |LStrip(s)|..]
    ensures LStrip(s) == [] || !IsSpace(LStrip(s)[0])
    ensures forall k :: 0 <= k < |s| - |LStrip(s)| ==> IsSpace(s[k])
    decreases |s|
  {
    if |s| > 0 && IsSpace(s[0]) {
      LStripFacts(s[1..]);
      forall k | 0 < k < |s| - |LStrip(s)| ensures IsSpace(s[k]) {
        assert s[k] == s[1..][k - 1];
      }
    }
  }

  /** `rstrip()` keeps the longest prefix that does not end with whitespace. */
  lemma {:induction false} RStripFacts(s: string)
    ensures |RStrip(s)| <= |s| && RStrip(s) == s[..|RStrip(s)|]
    ensures RStrip(s) == [] || !IsSpace(RStrip(s)[|RStrip(s)| - 1])
    ensures forall k :: |RStrip(s)| <= k < |s| ==> IsSpace(s[k])
    decreases |s|
  {
    if |s| > 0 && IsSpace(s[|s| - 1]) {
      RStripFacts(s[..|s| - 1]);
      forall k | |RStrip(s)| <= k < |s| - 1 ensures IsSpace(s[k]) {
        assert s[k] == s[..|s| - 1][k];
      }
    }
  }

  /** `strip()` leaves no whitespace at either end of what it keeps. */
  lemma StripEnds(s: string)
    ensures Strip(s) == [] || (!IsSpace(Strip(s)[0]) && !IsSpace(Strip(s)[|Strip(s)| - 1]))
  {
    LStripFacts(s);
    RStripFacts(LStrip(s));
  }

  /** `lstrip(c)` drops exactly the leading run of `c`. */
  lemma {:induction false} LStripCharFacts(s: string, c: char)
    ensures |LStripChar(s, c)| <= |s| && LStripChar(s, c) == s[|s| - |LStripChar(s, c)|..]
    ensures LStripChar(s, c) == [] || LStripChar(s, c)[0] != c
    ensures forall k :: 0 <= k < |s| - |LStripChar(s, c)| ==> s[k] == c
    decreases |s|
  {
    if |s| > 0 && s[0] == c {
      LStripCharFacts(s[1..], c);
      forall k | 0 < k < |s| - |LStripChar(s, c)| ensures s[k] == c {
        assert s[k] == s[1..][k - 1];
      }
    }
  }

  /** `rstrip(c)` drops exactly the trailing run of `c`. */
  lemma {:induction false} RStripCharFacts(s: string, c: char)
    ensures |RStripChar(s, c)| <= |s| && RStripChar(s, c) == s[..|RStripChar(s, c)|]
    ensures RStripChar(s, c) == [] || RStripChar(s, c)[|RStripChar(s, c)| - 1] != c
    ensures forall k :: |RStripChar(s, c)| <= k < |s| ==> s[k] == c
    decreases |s|
  {
    if |s| > 0 && s[|s| - 1] == c {
      RStripCharFacts(s[..|s| - 1], c);
      forall k | |RStripChar(s, c)| <= k < |s| - 1 ensures s[k] == c {
        assert s[k] == s[..|s| - 1][k];
      }
    }
  }

  /** `("'" + x + "'").strip("'")` is `x` when `x` holds no quote. */
  lemma {:induction false} StripCharQuoted(x: string, c: char)
    requires c !in x
    ensures StripChar([c] + x + [c], c) == x
  {
    var s := [c] + x + [c];
    if x == [] {
      assert s[1..] == [c] && [c][1..] == [];
      assert LStripChar(s, c) == LStripChar([c], c) == LStripChar([], c) == [];
    } else {
      assert s[1..] == x + [c];
      assert LStripChar(s, c) == LStripChar(x + [c], c);
      assert (x + [c])[0] == x[0];
      assert LStripChar(x + [c], c) == x + [c];
      assert (x + [c])[..|x|] == x;
      assert RStripChar(x + [c], c) == RStripChar(x, c) == x;
    }
  }

  /** `s.replace(' ', '')`: only U+0020 is removed, other whitespace stays. */
  function RemoveSpaces(s: string): (r: string)
    ensures |r| <= |s|
    ensures ' ' !in r
  {
    if s == [] then [] else (if s[0] == ' ' then [] else [s[0]]) + RemoveSpaces(s[1..])
  }

  /** `s.split(sep)` for a one-character separator: never empty, no piece contains `sep`. */
  function Split(s: string, sep: char): (r: seq<string>)
    ensures |r| >= 1
    ensures forall i :: 0 <= i < |r| ==> sep !in r[i]
  {
    if s == [] then [""]
    else
      var rest := Split(s[1..], sep);
      if s[0] == sep then [""] + rest
      else [[s[0]] + rest[0]] + rest[1..]
  }

  /** `sep.join(xs)` */
  function Join(xs: seq<string>, sep: string): string
  {
    if |xs| == 0 then "" else if |xs| == 1 then xs[0] else xs[0] + sep + Join(xs[1..], sep)
  }

  /** Joining the pieces of a split with the separator gives back the string. */
  lemma {:induction false} JoinOfSplit(s: string, sep: char)
    ensures Join(Split(s, sep), [sep]) == s
    decreases |s|
  {
    if s != [] {
      var rest := Split(s[1..], sep);
      JoinOfSplit(s[1..], sep);
      assert s == [s[0]] + s[1..];
      if s[0] == sep {
        assert Split(s, sep) == [""] + rest;
        assert ([""] + rest)[1..] == rest;
      } else {
        var r := Split(s, sep);
        assert r == [[s[0]] + rest[0]] + rest[1..];
        if |rest| > 1 {
          assert r[1..] == rest[1..];
        }
      }
    }
  }

  /** A string without the separator splits into itself. */
  lemma {:induction false} SplitWithoutSep(s: string, sep: char)
    requires sep !in s
    ensures Split(s, sep) == [s]
    decreases |s|
  {
    if s != [] {
      SplitWithoutSep(s[1..], sep);
      assert s == [s[0]] + s[1..];
    }
  }

  /** Splitting at the first separator peels off the piece before it. */
  lemma {:induction false} SplitAtFirst(a: string, b: string, sep: char)
    requires sep !in a
    ensures Split(a + [sep] + b, sep) == [a] + Split(b, sep)
    decreases |a|
  {
    var s := a + [sep] + b;
    if a == [] {
      assert s[1..] == b;
    } else {
      assert s[1..] == a[1..] + [sep] + b;
      SplitAtFirst(a[1..], b, sep);
      assert [a[0]] + a[1..] == a;
    }
  }

  /** Splitting a join of separator-free pieces gives back the pieces. */
  lemma {:induction false} SplitOfJoin(xs: seq<string>, sep: char)
    requires |xs| >= 1
    requires forall i :: 0 <= i < |xs| ==> sep !in xs[i]
    ensures Split(Join(xs, [sep]), sep) == xs
    decreases |xs|
  {
    if |xs| == 1 {
      SplitWithoutSep(xs[0], sep);
    } else {
      SplitOfJoin(xs[1..], sep);
      SplitAtFirst(xs[0], Join(xs[1..], [sep]), sep);
      assert [xs[0]] + xs[1..] == xs;
    }
  }

  lemma {:induction false} JoinAppend(xs: seq<string>, y: string, sep: string)
    requires |xs| >= 1
    ensures Join(xs + [y], sep) == Join(xs, sep) + sep + y
    decreases |xs|
  {
    if |xs| > 1 {
      JoinAppend(xs[1..], y, sep);
      assert (xs + [y])[1..] == xs[1..] + [y];
    }
  }

  lemma {:induction false} JoinConcat(xs: seq<string>, ys: seq<string>, sep: string)
    requires |xs| >= 1 && |ys| >= 1
    ensures Join(xs + ys, sep) == Join(xs, sep) + sep + Join(ys, sep)
    decreases |xs|
  {
    if |xs| > 1 {
      JoinConcat(xs[1..], ys, sep);
      assert (xs + ys)[1..] == xs[1..] + ys;
    }
  }

  /** Removing spaces distributes over concatenation. */
  lemma {:induction false} RemoveSpacesConcat(a: string, b: string)
    ensures RemoveSpaces(a + b) == RemoveSpaces(a) + RemoveSpaces(b)
    decreases |a|
  {
    if a == [] {
      assert a + b == b;
    } else {
      var head := if a[0] == ' ' then [] else [a[0]];
      assert (a + b)[0] == a[0] && (a + b)[1..] == a[1..] + b;
      assert RemoveSpaces(a + b) == head + RemoveSpaces(a[1..] + b);
      RemoveSpacesConcat(a[1..], b);
      assert RemoveSpaces(a) == head + RemoveSpaces(a[1..]);
    }
  }

  lemma {:induction false} RemoveSpacesNone(s: string)
    requires ' ' !in s
    ensures RemoveSpaces(s) == s
    decreases |s|
  {
    if s != [] {
      RemoveSpacesNone(s[1..]);
      assert s == [s[0]] + s[1..];
    }
  }

  /** The pieces of a split consist of characters of the string. */
  lemma {:induction false} SplitPiecesWithin(s: string, sep: char, i: nat, k: nat)
    requires i < |Split(s, sep)| && k < |Split(s, sep)[i]|
    ensures Split(s, sep)[i][k] in s
    decreases |s|
  {
    if s != [] {
      var rest := Split(s[1..], sep);
      if s[0] == sep {
        if i > 0 {
          SplitPiecesWithin(s[1..], sep, i - 1, k);
        }
      } else if i == 0 {
        if k > 0 {
          SplitPiecesWithin(s[1..], sep, 0, k - 1);
        }
      } else {
        SplitPiecesWithin(s[1..], sep, i, k);
      }
    }
  }

  lemma SplitNoWhitespace(s: string, sep: char)
    requires NoWhitespace(s)
    ensures forall i :: 0 <= i < |Split(s, sep)| ==> NoWhitespace(Split(s, sep)[i])
  {
    forall i, k | 0 <= i < |Split(s, sep)| && 0 <= k < |Split(s, sep)[i]|
      ensures !IsSpace(Split(s, sep)[i][k])
    {
      SplitPiecesWithin(s, sep, i, k);
    }
  }

  lemma {:induction false} JoinNoWhitespace(xs: seq<string>, sep: string)
    requires NoWhitespace(sep)
    requires forall i :: 0 <= i < |xs| ==> NoWhitespace(xs[i])
    ensures NoWhitespace(Join(xs, sep))
    decreases |xs|
  {
    if |xs| > 1 {
      JoinNoWhitespace(xs[1..], sep);
    }
  }
}
