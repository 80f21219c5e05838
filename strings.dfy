/**
 * PHP's `implode` over strings, and its inverse: splitting a string at every
 * occurrence of a separator. The round trip `Split(Join(parts, sep), sep) == parts`
 * holds when no part contains a character of the separator that cannot straddle
 * a boundary (see SplitJoin).
 */
module Strings {
  import opened Wrappers

  /** `implode(sep, parts)`: the parts in order, with `sep` between neighbours. */
  function Join(parts: seq<string>, sep: string): string
  {
    if |parts| == 0 then ""
    else if |parts| == 1 then parts[0]
    else parts[0] + sep + Join(parts[1..], sep)
  }

  /** `pat` occurs in `s` starting at position `j`. */
  predicate OccursAt(s: string, pat: string, j: nat)
  {
    j + |pat| <= |s| && s[j..j + |pat|] == pat
  }

  /** The first position at or after `from` where `pat` occurs in `s`. */
  function IndexOf(s: string, pat: string, from: nat): (r: Option<nat>)
    decreases |s| - from
    ensures r.Some? ==> from <= r.value && OccursAt(s, pat, r.value)
    ensures r.Some? ==> forall j :: from <= j < r.value ==> !OccursAt(s, pat, j)
    ensures r.None? ==> forall j :: from <= j ==> !OccursAt(s, pat, j)
  {
    if from + |pat| > |s| then None
    else if OccursAt(s, pat, from) then Some(from)
    else IndexOf(s, pat, from + 1)
  }

  /** The pieces of `s` between the occurrences of `sep`, left to right. */
  function Split(s: string, sep: string): (r: seq<string>)
    requires |sep| > 0
    decreases |s|
    ensures |r| > 0
  {
    match IndexOf(s, sep, 0)
    case None => [s]
    case Some(i) => [s[..i]] + Split(s[i + |sep|..], sep)
  }

  /**
   * `sep[m]` is the first occurrence of its character in `sep`: a separator whose
   * anchor character is absent from a part cannot start inside that part.
   */
  predicate Anchor(sep: string, m: nat)
  {
    m < |sep| && forall k :: 0 <= k < m ==> sep[k] != sep[m]
  }

  /** A part free of the anchor character holds no occurrence of the separator. */
  lemma {:induction false} NoOccurrence(p: string, sep: string, m: nat, from: nat)
    requires Anchor(sep, m) && sep[m] !in p
    ensures IndexOf(p, sep, from) == None
  {
    forall j | from <= j && j + |sep| <= |p|
      ensures !OccursAt(p, sep, j)
    {
      assert p[j..j + |sep|][m] == p[j + m];
      assert p[j + m] in p;
    }
  }

  /** In `p + sep + rest` the first occurrence of `sep` is the one right after `p`. */
  lemma {:induction false} FirstOccurrenceAfter(p: string, sep: string, rest: string, m: nat, from: nat)
    requires Anchor(sep, m) && sep[m] !in p
    requires from <= |p|
    ensures IndexOf(p + sep + rest, sep, from) == Some(|p|)
    decreases |p| - from
  {
    var s := p + sep + rest;
    if from < |p| {
      assert s[from..from + |sep|][m] == s[from + m];
      if from + m < |p| {
        assert s[from + m] == p[from + m];
        assert p[from + m] in p;
      } else {
        assert s[from + m] == sep[from + m - |p|];
      }
      assert !OccursAt(s, sep, from);
      FirstOccurrenceAfter(p, sep, rest, m, from + 1);
    } else {
      assert s[|p|..|p| + |sep|] == sep;
    }
  }

  /** Splitting a join gives back the parts, when no part holds the anchor character. */
  lemma {:induction false} SplitJoin(parts: seq<string>, sep: string, m: nat)
    requires |parts| > 0 && Anchor(sep, m)
    requires forall i :: 0 <= i < |parts| ==> sep[m] !in parts[i]
    ensures Split(Join(parts, sep), sep) == parts
    decreases |parts|
  {
    if |parts| == 1 {
      NoOccurrence(parts[0], sep, m, 0);
    } else {
      var rest := Join(parts[1..], sep);
      var s := parts[0] + sep + rest;
      FirstOccurrenceAfter(parts[0], sep, rest, m, 0);
      assert s[..|parts[0]|] == parts[0];
      assert s[|parts[0]| + |sep|..] == rest;
      SplitJoin(parts[1..], sep, m);
      assert parts == [parts[0]] + parts[1..];
    }
  }
}
