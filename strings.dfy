/**
 * The few string operations the manager relies on: searching for a character
 * or a substring, and Python's `str.split` on a one-character separator,
 * together with its inverse `Join`.
 */
module Strings {
  import opened Wrappers

  /** Index of the first occurrence of `c` in `s`, or `|s|` when there is none. */
  function IndexOf(s: string, c: char): (k: nat)
    ensures k <= |s|
    ensures c !in s[..k]
    ensures k < |s| ==> s[k] == c
  {
    if s == [] then 0
    else if s[0] == c then 0
    else
      var k' := IndexOf(s[1..], c);
      assert s[..k' + 1] == [s[0]] + s[1..][..k'];
      k' + 1
  }

  /** `IndexOf` is determined by its contract: the first position holding `c`, else the length. */
  lemma IndexOfIs(s: string, c: char, k: nat)
    requires k <= |s|
    requires c !in s[..k]
    requires k < |s| ==> s[k] == c
    ensures IndexOf(s, c) == k
  {
    var r := IndexOf(s, c);
    forall j | 0 <= j < k ensures s[j] != c {
      assert s[..k][j] == s[j];
    }
    forall j | 0 <= j < r ensures s[j] != c {
      assert s[..r][j] == s[j];
    }
  }

  /** Number of occurrences of `c` in `s`. */
  function Count(s: string, c: char): nat
  {
    if s == [] then 0 else (if s[0] == c then 1 else 0) + Count(s[1..], c)
  }

  lemma {:induction false} CountAppend(a: string, b: string, c: char)
    ensures Count(a + b, c) == Count(a, c) + Count(b, c)
  {
    if a == [] {
      assert a + b == b;
    } else {
      assert (a + b)[1..] == a[1..] + b;
      CountAppend(a[1..], b, c);
    }
  }

  lemma {:induction false} CountAbsent(s: string, c: char)
    requires c !in s
    ensures Count(s, c) == 0
  {
    if s != [] {
      assert c !in s[1..];
      CountAbsent(s[1..], c);
    }
  }

  /** Concatenation of `fields` with `sep` between neighbours. */
  function Join(fields: seq<string>, sep: char): string
  {
    if fields == [] then ""
    else if |fields| == 1 then fields[0]
    else fields[0] + [sep] + Join(fields[1..], sep)
  }

  /** The join is its first field, or starts with that field and a separator. */
  lemma JoinStartsWithFirst(fields: seq<string>, sep: char)
    requires fields != []
    ensures fields[0] <= Join(fields, sep)
    ensures fields[0] == Join(fields, sep) || fields[0] + [sep] <= Join(fields, sep)
  {
    if |fields| > 1 {
      assert Join(fields, sep) == (fields[0] + [sep]) + Join(fields[1..], sep);
    }
  }

  /**
   * The first three fields, joined, are the whole join or are followed in
   * it by a separator.
   */
  lemma JoinStartsWithThree(fields: seq<string>, sep: char)
    requires |fields| >= 3
    ensures var j := fields[0] + [sep] + fields[1] + [sep] + fields[2];
      j == Join(fields, sep) || j + [sep] <= Join(fields, sep)
  {
    var rest := Join(fields[2..], sep);
    assert Join(fields, sep) == fields[0] + [sep] + Join(fields[1..], sep);
    assert Join(fields[1..], sep) == fields[1] + [sep] + rest;
    JoinStartsWithFirst(fields[2..], sep);
    var p := fields[0] + [sep] + fields[1] + [sep];
    assert Join(fields, sep) == p + rest;
    assert fields[0] + [sep] + fields[1] + [sep] + fields[2] == p + fields[2];
    if fields[2] != rest {
      assert fields[2] + [sep] <= rest;
      assert (p + fields[2]) + [sep] == p + (fields[2] + [sep]);
    }
  }

  /**
   * Python's `s.split(sep)`: the maximal `sep`-free pieces between separators,
   * one more piece than there are separators (so `""` splits into `[""]`).
   */
  function Split(s: string, sep: char): (fields: seq<string>)
    ensures |fields| == Count(s, sep) + 1
    ensures forall i :: 0 <= i < |fields| ==> sep !in fields[i]
    ensures Join(fields, sep) == s
    decreases |s|
  {
    var k := IndexOf(s, sep);
    if k == |s| then
      assert s[..k] == s;
      CountAbsent(s, sep);
      [s]
    else
      var rest := Split(s[k + 1..], sep);
      assert s == s[..k] + ([sep] + s[k + 1..]);
      CountAbsent(s[..k], sep);
      CountAppend(s[..k], [sep] + s[k + 1..], sep);
      CountAppend([sep], s[k + 1..], sep);
      assert Count([sep], sep) == 1 by { assert [sep][1..] == []; }
      assert ([s[..k]] + rest)[1..] == rest;
      [s[..k]] + rest
  }

  /** Splitting a `sep`-free string yields it as the only field. */
  lemma SplitNone(s: string, sep: char)
    requires sep !in s
    ensures Split(s, sep) == [s]
  {
    assert s[..|s|] == s;
    IndexOfIs(s, sep, |s|);
  }

  /** A `sep`-free head goes out whole as the first field. */
  lemma SplitCons(head: string, sep: char, tail: string)
    requires sep !in head
    ensures Split(head + [sep] + tail, sep) == [head] + Split(tail, sep)
  {
    var s := head + [sep] + tail;
    assert s[..|head|] == head;
    IndexOfIs(s, sep, |head|);
    assert s[|head| + 1..] == tail;
  }

  /** True when `pat` occurs in `s` starting at position `j`. */
  predicate OccursAt(s: string, pat: string, j: nat)
  {
    j + |pat| <= |s| && s[j..j + |pat|] == pat
  }

  /** The first position at or after `i` where `pat` occurs in `s`, if any. */
  function FindFrom(s: string, pat: string, i: nat): (r: Option<nat>)
    requires i <= |s|
    ensures r.Some? ==> i <= r.value && OccursAt(s, pat, r.value)
    ensures r.Some? ==> forall j: nat :: i <= j < r.value ==> !OccursAt(s, pat, j)
    ensures r.None? ==> forall j: nat :: i <= j ==> !OccursAt(s, pat, j)
    decreases |s| - i
  {
    if i + |pat| > |s| then None
    else if s[i..i + |pat|] == pat then Some(i)
    else FindFrom(s, pat, i + 1)
  }

  /** The search from `i` finds `j` when `pat` occurs at `j` and nowhere from `i` before it. */
  lemma FindFromFirst(s: string, pat: string, i: nat, j: nat)
    requires i <= j && OccursAt(s, pat, j)
    requires forall k: nat :: i <= k < j ==> !OccursAt(s, pat, k)
    ensures FindFrom(s, pat, i) == Some(j)
  {
  }

  /** The middle part of a concatenation sits right after the first part. */
  lemma Infix(a: string, b: string, c: string)
    ensures (a + b + c)[|a|..|a| + |b|] == b
    ensures (a + b + c)[|a| + |b|..] == c
  {
  }
}
