/**
 * The JavaScript string primitives the core relies on:
 * `startsWith`, `indexOf`, and `replace` with a string pattern.
 */
module Strings {
  import opened Wrappers

  /** `s.startsWith(p)`: `p` is a prefix of `s`, character by character. */
  predicate StartsWith(s: string, p: string) {
    |p| <= |s| && s[..|p|] == p
  }

  /** `pat` occurs in `s` starting at index `i`. */
  predicate OccursAt(s: string, pat: string, i: nat) {
    i + |pat| <= |s| && s[i..i + |pat|] == pat
  }

  /** The first index at or after `from` where `pat` occurs in `s`. */
  function FindFrom(s: string, pat: string, from: nat): (r: Option<nat>)
    ensures r.Some? ==> from <= r.value && OccursAt(s, pat, r.value)
    ensures r.Some? ==> forall j: nat :: from <= j < r.value ==> !OccursAt(s, pat, j)
    ensures r.None? ==> forall j: nat :: from <= j ==> !OccursAt(s, pat, j)
    decreases |s| - from
  {
    if from + |pat| > |s| then None
    else if s[from..from + |pat|] == pat then Some(from)
    else FindFrom(s, pat, from + 1)
  }

  /** `s.indexOf(pat)`, with `None` for -1. An empty pattern is found at 0. */
  function IndexOf(s: string, pat: string): (r: Option<nat>)
    ensures r.None? <==> forall j: nat :: !OccursAt(s, pat, j)
    ensures r.Some? ==> OccursAt(s, pat, r.value)
    ensures r.Some? ==> forall j: nat :: j < r.value ==> !OccursAt(s, pat, j)
  {
    FindFrom(s, pat, 0)
  }

  /**
   * The text `replace` inserts for a string pattern (no capture groups):
   * `$$` gives `$`, `$&` the matched text, `` $` `` the text before the
   * match and `$'` the text after it; every other character, a `$` not
   * followed by one of those included, is copied as it is.
   */
  function Expand(rep: string, before: string, matched: string, after: string): (r: string)
    ensures '$' !in rep ==> r == rep
  {
    if |rep| == 0 then ""
    else if rep[0] == '$' && |rep| >= 2 && rep[1] == '$' then "$" + Expand(rep[2..], before, matched, after)
    else if rep[0] == '$' && |rep| >= 2 && rep[1] == '&' then matched + Expand(rep[2..], before, matched, after)
    else if rep[0] == '$' && |rep| >= 2 && rep[1] == '`' then before + Expand(rep[2..], before, matched, after)
    else if rep[0] == '$' && |rep| >= 2 && rep[1] == '\'' then after + Expand(rep[2..], before, matched, after)
    else [rep[0]] + Expand(rep[1..], before, matched, after)
  }

  /**
   * `s.replace(pat, rep)`: only the first occurrence of `pat` is replaced;
   * when there is none, `s` comes back unchanged.
   */
  function ReplaceFirst(s: string, pat: string, rep: string): (r: string)
    ensures (forall j: nat :: !OccursAt(s, pat, j)) ==> r == s
  {
    match IndexOf(s, pat)
    case None => s
    case Some(i) => s[..i] + Expand(rep, s[..i], pat, s[i + |pat|..]) + s[i + |pat|..]
  }

  /** The first occurrence is the only index with no occurrence before it. */
  lemma IndexOfIs(s: string, pat: string, k: nat)
    requires OccursAt(s, pat, k)
    requires forall j: nat :: j < k ==> !OccursAt(s, pat, j)
    ensures IndexOf(s, pat) == Some(k)
  {
  }

  /**
   * `replace` rewrites exactly the first occurrence: the text before it and
   * after it is kept, and the occurrence gives way to the expanded replacement.
   */
  lemma ReplaceFirstOccurrence(s: string, pat: string, rep: string, i: nat)
    requires OccursAt(s, pat, i)
    requires forall j: nat :: j < i ==> !OccursAt(s, pat, j)
    ensures ReplaceFirst(s, pat, rep) == s[..i] + Expand(rep, s[..i], pat, s[i + |pat|..]) + s[i + |pat|..]
  {
  }

  /** A string of the pattern's length other than the pattern holds no occurrence of it. */
  lemma ReplaceSameLength(s: string, pat: string, rep: string)
    requires |s| == |pat| && s != pat
    ensures IndexOf(s, pat).None?
    ensures ReplaceFirst(s, pat, rep) == s
  {
  }

  /** A string that starts with the pattern has that first copy replaced. */
  lemma ReplaceAtStart(pat: string, rest: string, rep: string)
    ensures ReplaceFirst(pat + rest, pat, rep) == Expand(rep, "", pat, rest) + rest
  {
    var s := pat + rest;
    assert OccursAt(s, pat, 0) by { assert s[0..|pat|] == pat; }
    IndexOfIs(s, pat, 0);
    assert s[..0] == "";
    assert s[|pat|..] == rest;
  }

  /** Occurrences in `b` are occurrences in `a + b`, shifted by `|a|`. */
  lemma ShiftOccurrence(a: string, b: string, pat: string, j: nat)
    ensures OccursAt(a + b, pat, |a| + j) <==> OccursAt(b, pat, j)
  {
  }

  /** No occurrence starts inside a prefix lacking the pattern's first character. */
  lemma NoOccurrenceInPrefix(a: string, b: string, pat: string, j: nat)
    requires |pat| > 0 && pat[0] !in a && j < |a|
    ensures !OccursAt(a + b, pat, j)
  {
  }

  /** The remainder holds no occurrence: neither does the whole string. */
  lemma PastPrefixNone(a: string, b: string, pat: string)
    requires |pat| > 0 && pat[0] !in a && IndexOf(b, pat).None?
    ensures IndexOf(a + b, pat).None?
  {
    forall j: nat
      ensures !OccursAt(a + b, pat, j)
    {
      if j < |a| {
        NoOccurrenceInPrefix(a, b, pat, j);
      } else {
        ShiftOccurrence(a, b, pat, j - |a|);
      }
    }
  }

  /** The remainder's first occurrence, shifted by `|a|`, is the whole string's. */
  lemma PastPrefixSome(a: string, b: string, pat: string, i: nat)
    requires |pat| > 0 && pat[0] !in a && IndexOf(b, pat) == Some(i)
    ensures IndexOf(a + b, pat) == Some(|a| + i)
  {
    ShiftOccurrence(a, b, pat, i);
    forall j: nat | j < |a| + i
      ensures !OccursAt(a + b, pat, j)
    {
      if j < |a| {
        NoOccurrenceInPrefix(a, b, pat, j);
      } else {
        ShiftOccurrence(a, b, pat, j - |a|);
      }
    }
    IndexOfIs(a + b, pat, |a| + i);
  }

  /** With a `$`-free replacement, the first occurrence is swapped for `rep` verbatim. */
  lemma ReplaceLiteralAt(s: string, pat: string, rep: string, i: nat)
    requires '$' !in rep && IndexOf(s, pat) == Some(i)
    ensures ReplaceFirst(s, pat, rep) == s[..i] + rep + s[i + |pat|..]
  {
  }

  lemma SpliceAfterPrefix(a: string, b: string, i: nat, n: nat, rep: string)
    requires i + n <= |b|
    ensures (a + b)[..|a| + i] + rep + (a + b)[|a| + i + n..] == a + (b[..i] + rep + b[i + n..])
  {
  }

  /** Past a prefix, when the remainder holds no occurrence. */
  lemma ReplacePastPrefixNone(a: string, b: string, pat: string, rep: string)
    requires |pat| > 0 && pat[0] !in a && IndexOf(b, pat).None?
    ensures ReplaceFirst(a + b, pat, rep) == a + ReplaceFirst(b, pat, rep)
  {
    PastPrefixNone(a, b, pat);
  }

  /** Past a prefix, when the remainder's first occurrence is at `i`. */
  lemma ReplacePastPrefixSome(a: string, b: string, pat: string, rep: string, i: nat)
    requires |pat| > 0 && pat[0] !in a && '$' !in rep && IndexOf(b, pat) == Some(i)
    ensures ReplaceFirst(a + b, pat, rep) == a + ReplaceFirst(b, pat, rep)
  {
    PastPrefixSome(a, b, pat, i);
    ReplaceLiteralAt(b, pat, rep, i);
    ReplaceLiteralAt(a + b, pat, rep, |a| + i);
    SpliceAfterPrefix(a, b, i, |pat|, rep);
  }

  /**
   * A prefix that lacks the pattern's first character is passed over: the
   * replacement happens in the remainder (for a replacement free of `$`
   * patterns, which would otherwise see the whole string before the match).
   */
  lemma ReplacePastPrefix(a: string, b: string, pat: string, rep: string)
    requires |pat| > 0 && pat[0] !in a && '$' !in rep
    ensures ReplaceFirst(a + b, pat, rep) == a + ReplaceFirst(b, pat, rep)
  {
    var r := IndexOf(b, pat);
    if r.None? {
      ReplacePastPrefixNone(a, b, pat, rep);
    } else {
      ReplacePastPrefixSome(a, b, pat, rep, r.value);
    }
  }
}
