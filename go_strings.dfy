/**
 * The parts of Go's `strings` and `strconv` packages that the controllers rely on:
 * TrimSpace, TrimPrefix, TrimSuffix, HasPrefix, Split, Join and FormatBool.
 * Strings are sequences of Unicode scalar values.
 */
module GoStrings {

  /**
   * unicode.IsSpace: the characters strings.TrimSpace removes. In the Latin-1 range these
   * are exactly '\t', '\n', '\v', '\f', '\r', ' ', U+0085 (NEL) and U+00A0 (NBSP); above it,
   * the characters with the Unicode White_Space property.
   */
  predicate IsSpace(c: char) {
    var n := c as int;
    n == 0x20 || (0x09 <= n <= 0x0D) || n == 0x85 || n == 0xA0 || n == 0x1680
    || (0x2000 <= n <= 0x200A) || n == 0x2028 || n == 0x2029 || n == 0x202F
    || n == 0x205F || n == 0x3000
  }

  /** In the Latin-1 range, IsSpace holds on exactly the eight characters unicode.IsSpace names. */
  lemma IsSpaceLatin1(c: char)
    requires c as int < 0x100
    ensures IsSpace(c) <==> c in {'\t', '\n', '\U{000B}', '\U{000C}', '\r', ' ', '\U{0085}', '\U{00A0}'}
  {
  }

  /** Drops leading white space: the result is a suffix of `s` and only spaces were dropped. */
  function TrimLeftSpace(s: string): (r: string)
    ensures |r| <= |s| && r == s[|s| - |r|..]
    ensures forall i :: 0 <= i < |s| - |r| ==> IsSpace(s[i])
    ensures r == [] || !IsSpace(r[0])
    decreases |s|
  {
    if |s| > 0 && IsSpace(s[0]) then TrimLeftSpace(s[1..]) else s
  }

  /** Drops trailing white space: the result is a prefix of `s` and only spaces were dropped. */
  function TrimRightSpace(s: string): (r: string)
    ensures |r| <= |s| && r == s[..|r|]
    ensures forall i :: |r| <= i < |s| ==> IsSpace(s[i])
    ensures r == [] || !IsSpace(r[|r| - 1])
    decreases |s|
  {
    if |s| > 0 && IsSpace(s[|s| - 1]) then TrimRightSpace(s[..|s| - 1]) else s
  }

  /** strings.TrimSpace: neither end of the result is white space. */
  function TrimSpace(s: string): (r: string)
    ensures |r| <= |s|
    ensures r == [] || (!IsSpace(r[0]) && !IsSpace(r[|r| - 1]))
  {
    var t := TrimLeftSpace(s);
    var r := TrimRightSpace(t);
    assert r != [] ==> r[0] == t[0];
    r
  }

  /** A string that neither starts nor ends with white space is left alone by TrimSpace. */
  lemma TrimSpaceKeeps(s: string)
    requires s == [] || (!IsSpace(s[0]) && !IsSpace(s[|s| - 1]))
    ensures TrimSpace(s) == s
  {
  }

  /** Leading spaces in front of a string that starts with a non-space are all dropped. */
  lemma {:induction false} TrimLeftPadded(pre: string, x: string)
    requires forall i :: 0 <= i < |pre| ==> IsSpace(pre[i])
    requires x != [] && !IsSpace(x[0])
    ensures TrimLeftSpace(pre + x) == x
    decreases |pre|
  {
    if pre == [] {
      assert pre + x == x;
    } else {
      assert (pre + x)[1..] == pre[1..] + x;
      TrimLeftPadded(pre[1..], x);
    }
  }

  /** Trailing spaces behind a string that ends with a non-space are all dropped. */
  lemma {:induction false} TrimRightPadded(x: string, post: string)
    requires forall i :: 0 <= i < |post| ==> IsSpace(post[i])
    requires x != [] && !IsSpace(x[|x| - 1])
    ensures TrimRightSpace(x + post) == x
    decreases |post|
  {
    if post == [] {
      assert x + post == x;
    } else {
      var s := x + post;
      assert s[|s| - 1] == post[|post| - 1];
      assert s[..|s| - 1] == x + post[..|post| - 1];
      TrimRightPadded(x, post[..|post| - 1]);
    }
  }

  /** TrimSpace removes exactly the white space padding around a string with non-space ends. */
  lemma TrimSpacePadded(pre: string, x: string, post: string)
    requires forall i :: 0 <= i < |pre| ==> IsSpace(pre[i])
    requires forall i :: 0 <= i < |post| ==> IsSpace(post[i])
    requires x != [] && !IsSpace(x[0]) && !IsSpace(x[|x| - 1])
    ensures TrimSpace(pre + x + post) == x
  {
    assert pre + x + post == pre + (x + post);
    TrimLeftPadded(pre, x + post);
    TrimRightPadded(x, post);
  }

  /**
   * `s` splits at `lo` and `hi` into white space, then a part that is empty or has
   * non-space ends, then white space.
   */
  predicate SpaceSplit(s: string, lo: nat, hi: nat) {
    lo <= hi <= |s|
    && (forall i :: 0 <= i < lo ==> IsSpace(s[i]))
    && (forall i :: hi <= i < |s| ==> IsSpace(s[i]))
    && (lo < hi ==> !IsSpace(s[lo]) && !IsSpace(s[hi - 1]))
  }

  /**
   * TrimSpace keeps exactly the part of `s` between its leading and its trailing white
   * space: whenever `s` splits at `lo` and `hi`, the result is `s[lo..hi]`. Every string
   * splits in this way, an all-blank one with `lo == hi` (TrimSpaceSplitExists), so this
   * fixes the result for every input.
   */
  lemma TrimSpaceExact(s: string, lo: nat, hi: nat)
    requires SpaceSplit(s, lo, hi)
    ensures TrimSpace(s) == s[lo..hi]
  {
    if lo < hi {
      assert s == s[..lo] + s[lo..hi] + s[hi..];
      TrimSpacePadded(s[..lo], s[lo..hi], s[hi..]);
    } else {
      assert forall i :: 0 <= i < |s| ==> IsSpace(s[i]);
      assert TrimLeftSpace(s) == [];
    }
  }

  /** Every string splits at some `lo` and `hi`, and TrimSpace keeps the part between them. */
  lemma TrimSpaceSplitExists(s: string)
    ensures exists lo: nat, hi: nat :: SpaceSplit(s, lo, hi) && TrimSpace(s) == s[lo..hi]
  {
    var lo: nat := |s| - |TrimLeftSpace(s)|;
    var hi: nat := lo + |TrimSpace(s)|;
    TrimmedBoundsSplit(s);
    TrimSpaceExact(s, lo, hi);
  }

  /** The white space TrimLeftSpace and TrimRightSpace drop marks a split of `s`. */
  lemma TrimmedBoundsSplit(s: string)
    ensures SpaceSplit(s, |s| - |TrimLeftSpace(s)|, |s| - |TrimLeftSpace(s)| + |TrimSpace(s)|)
  {
    var t := TrimLeftSpace(s);
    var r := TrimRightSpace(t);
    assert r == TrimSpace(s);
    SplitOfParts(s, t, r);
  }

  /**
   * A split from its parts: `t` is `s` after leading white space, and `r` is `t` before
   * trailing white space, with no white space at either end of `r`.
   */
  lemma SplitOfParts(s: string, t: string, r: string)
    requires |t| <= |s| && t == s[|s| - |t|..]
    requires forall i :: 0 <= i < |s| - |t| ==> IsSpace(s[i])
    requires t == [] || !IsSpace(t[0])
    requires |r| <= |t| && r == t[..|r|]
    requires forall i :: |r| <= i < |t| ==> IsSpace(t[i])
    requires r == [] || !IsSpace(r[|r| - 1])
    ensures SpaceSplit(s, |s| - |t|, |s| - |t| + |r|)
  {
    var lo := |s| - |t|;
    var hi := lo + |r|;
    forall i | hi <= i < |s|
      ensures IsSpace(s[i])
    {
      assert s[i] == t[i - lo];
    }
    if lo < hi {
      assert s[lo] == t[0] == r[0];
      assert s[hi - 1] == t[|r| - 1] == r[|r| - 1];
    }
  }

  /** strings.HasPrefix. */
  predicate HasPrefix(s: string, prefix: string) {
    |prefix| <= |s| && s[..|prefix|] == prefix
  }

  /** strings.HasSuffix. */
  predicate HasSuffix(s: string, suffix: string) {
    |suffix| <= |s| && s[|s| - |suffix|..] == suffix
  }

  /** strings.TrimPrefix: removes one occurrence of `prefix` at the start, if there is one. */
  function TrimPrefix(s: string, prefix: string): string {
    if HasPrefix(s, prefix) then s[|prefix|..] else s
  }

  /** strings.TrimSuffix: removes one occurrence of `suffix` at the end, if there is one. */
  function TrimSuffix(s: string, suffix: string): string {
    if HasSuffix(s, suffix) then s[..|s| - |suffix|] else s
  }

  /** strconv.FormatBool. */
  function FormatBool(b: bool): string {
    if b then "true" else "false"
  }

  /** FormatBool writes one of two strings, and comparing with "true" reads the flag back. */
  lemma FormatBoolReadsBack(b: bool)
    ensures FormatBool(b) == "true" || FormatBool(b) == "false"
    ensures FormatBool(b) == "true" <==> b
  {
  }

  /** strings.Join: the items with `sep` between each pair; nil and empty lists both give "". */
  function Join(xs: seq<string>, sep: string): string {
    if |xs| == 0 then "" else if |xs| == 1 then xs[0] else xs[0] + sep + Join(xs[1..], sep)
  }

  /** Join adds exactly one separator between each pair of items and nothing else. */
  lemma {:induction false} JoinLength(xs: seq<string>, sep: string)
    ensures xs == [] ==> Join(xs, sep) == ""
    ensures xs != [] ==> |Join(xs, sep)| == TotalLength(xs) + (|xs| - 1) * |sep|
  {
    if |xs| > 1 {
      JoinLength(xs[1..], sep);
    }
  }

  /** The number of characters in all the items together. */
  function TotalLength(xs: seq<string>): nat {
    if xs == [] then 0 else |xs[0]| + TotalLength(xs[1..])
  }

  /** HasPrefix holds exactly when `s` is `prefix` followed by the rest of `s`. */
  lemma HasPrefixMeans(s: string, prefix: string)
    ensures HasPrefix(s, prefix) <==> |prefix| <= |s| && s == prefix + s[|prefix|..]
  {
    if |prefix| <= |s| && s == prefix + s[|prefix|..] {
      HasPrefixConcat(prefix, s[|prefix|..]);
    }
  }

  /** HasSuffix holds exactly when `s` is the rest of `s` followed by `suffix`. */
  lemma HasSuffixMeans(s: string, suffix: string)
    ensures HasSuffix(s, suffix) <==> |suffix| <= |s| && s == s[..|s| - |suffix|] + suffix
  {
    if |suffix| <= |s| && s == s[..|s| - |suffix|] + suffix {
      HasSuffixConcat(s[..|s| - |suffix|], suffix);
    }
  }

  /** Every string starts with itself followed by anything. */
  lemma HasPrefixConcat(prefix: string, t: string)
    ensures HasPrefix(prefix + t, prefix)
  {
    assert (prefix + t)[..|prefix|] == prefix;
  }

  /** Every string ends with itself preceded by anything. */
  lemma HasSuffixConcat(t: string, suffix: string)
    ensures HasSuffix(t + suffix, suffix)
  {
    assert (t + suffix)[|t|..] == suffix;
  }

  /** TrimPrefix takes off the prefix when `s` has it, and otherwise leaves `s` alone. */
  lemma TrimPrefixMeans(s: string, prefix: string)
    ensures HasPrefix(s, prefix) ==> prefix + TrimPrefix(s, prefix) == s
    ensures !HasPrefix(s, prefix) ==> TrimPrefix(s, prefix) == s
  {
    HasPrefixMeans(s, prefix);
  }

  /** TrimSuffix takes off the suffix when `s` has it, and otherwise leaves `s` alone. */
  lemma TrimSuffixMeans(s: string, suffix: string)
    ensures HasSuffix(s, suffix) ==> TrimSuffix(s, suffix) + suffix == s
    ensures !HasSuffix(s, suffix) ==> TrimSuffix(s, suffix) == s
  {
    HasSuffixMeans(s, suffix);
  }

  /** TrimPrefix takes off a prefix that is there, and only that. */
  lemma TrimPrefixConcat(prefix: string, t: string)
    ensures TrimPrefix(prefix + t, prefix) == t
  {
    HasPrefixConcat(prefix, t);
  }

  /** TrimSuffix takes off a suffix that is there, and only that. */
  lemma TrimSuffixConcat(t: string, suffix: string)
    ensures TrimSuffix(t + suffix, suffix) == t
  {
    HasSuffixConcat(t, suffix);
  }

  /**
   * strings.Split with a one-character separator: the pieces between the separators.
   * There is always at least one piece (Split("", ",") is [""]) and no piece holds the
   * separator; JoinSplit shows that joining the pieces gives back the input.
   */
  function Split(s: string, sep: char): (r: seq<string>)
    ensures |r| >= 1
    ensures forall i :: 0 <= i < |r| ==> sep !in r[i]
    decreases |s|
  {
    if |s| == 0 then [""]
    else
      var t := Split(s[1..], sep);
      if s[0] == sep then [""] + t
      else
        var r := [[s[0]] + t[0]] + t[1..];
        assert r[1..] == t[1..];
        r
  }

  /** Join undoes Split: joining the pieces with the separator gives back the string. */
  lemma {:induction false} JoinSplit(s: string, sep: char)
    ensures Join(Split(s, sep), [sep]) == s
    decreases |s|
  {
    if |s| > 0 {
      JoinSplit(s[1..], sep);
      var t := Split(s[1..], sep);
      if s[0] == sep {
        assert Split(s, sep) == [""] + t;
        assert ([""] + t)[1..] == t;
        assert s == [sep] + s[1..];
      } else {
        var r := [[s[0]] + t[0]] + t[1..];
        assert Split(s, sep) == r;
        assert r[1..] == t[1..];
        assert s == [s[0]] + s[1..];
      }
    }
  }

  /** A piece without the separator followed by the separator splits off as the first piece. */
  lemma {:induction false} SplitFirst(w: string, rest: string, sep: char)
    requires sep !in w
    ensures Split(w + [sep] + rest, sep) == [w] + Split(rest, sep)
    decreases |w|
  {
    var s := w + [sep] + rest;
    if w == [] {
      assert s[1..] == rest;
    } else {
      assert s[1..] == w[1..] + [sep] + rest;
      SplitFirst(w[1..], rest, sep);
      assert [w[0]] + w[1..] == w;
    }
  }

  /** A string without the separator splits into itself. */
  lemma {:induction false} SplitWhole(w: string, sep: char)
    requires sep !in w
    ensures Split(w, sep) == [w]
    decreases |w|
  {
    if w != [] {
      SplitWhole(w[1..], sep);
      assert [w[0]] + w[1..] == w;
    }
  }

  /** Split undoes Join when no item holds the separator and there is at least one item. */
  lemma {:induction false} SplitJoin(xs: seq<string>, sep: char)
    requires |xs| >= 1
    requires forall i :: 0 <= i < |xs| ==> sep !in xs[i]
    ensures Split(Join(xs, [sep]), sep) == xs
    decreases |xs|
  {
    if |xs| == 1 {
      SplitWhole(xs[0], sep);
    } else {
      SplitJoin(xs[1..], sep);
      SplitFirst(xs[0], Join(xs[1..], [sep]), sep);
      assert [xs[0]] + xs[1..] == xs;
    }
  }

  /** Two non-empty lists of separator-free items that join to the same string are the same list. */
  lemma JoinInjective(xs: seq<string>, ys: seq<string>, sep: char)
    requires |xs| >= 1 && |ys| >= 1
    requires forall i :: 0 <= i < |xs| ==> sep !in xs[i]
    requires forall i :: 0 <= i < |ys| ==> sep !in ys[i]
    requires Join(xs, [sep]) == Join(ys, [sep])
    ensures xs == ys
  {
    SplitJoin(xs, sep);
    SplitJoin(ys, sep);
  }
}
