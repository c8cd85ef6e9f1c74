/**
 The two Python string operations the chat service relies on: the prefix
 slice `s[:n]` and `sep.join(xs)`. Python strings are sequences of code
 points; here they are `seq<char>`.
 */
module PyText {

  /** Python's `s[:n]` for a non-negative `n`: the longest prefix of `s` that
      has at most `n` characters. */
  function Slice(s: string, n: nat): (r: string)
    ensures r <= s
    ensures |r| == if |s| <= n then |s| else n
  {
    if |s| <= n then s else s[..n]
  }

  /** `t` is a suffix of `s` (Python's `s.endswith(t)`). */
  predicate EndsWith(s: string, t: string) {
    |t| <= |s| && s[|s| - |t|..] == t
  }

  /** Python's `sep.join(xs)`: the strings of `xs` in order, with `sep` between
      each neighbouring pair. */
  function Join(sep: string, xs: seq<string>): (r: string)
    ensures |xs| > 0 ==> xs[0] <= r
    ensures |xs| > 0 ==> EndsWith(r, xs[|xs| - 1])
    decreases |xs|
  {
    if |xs| == 0 then ""
    else if |xs| == 1 then xs[0]
    else xs[0] + sep + Join(sep, xs[1..])
  }

  /** Total number of characters in `xs`. */
  function SumLengths(xs: seq<string>): nat
    decreases |xs|
  {
    if |xs| == 0 then 0 else |xs[0]| + SumLengths(xs[1..])
  }

  /** Where `xs[i]` starts inside `Join(sep, xs)`: the length of every
      earlier string, each followed by one separator. */
  function Offset(sep: string, xs: seq<string>, i: nat): nat
    requires i <= |xs|
    decreases i
  {
    if i == 0 then 0 else |xs[0]| + |sep| + Offset(sep, xs[1..], i - 1)
  }

  /** The joined string holds every character of `xs` and one separator per gap. */
  lemma {:induction false} JoinLength(sep: string, xs: seq<string>)
    requires |xs| > 0
    ensures |Join(sep, xs)| == SumLengths(xs) + (|xs| - 1) * |sep|
    decreases |xs|
  {
    if |xs| > 1 {
      JoinLength(sep, xs[1..]);
      assert (|xs| - 1) * |sep| == (|xs[1..]| - 1) * |sep| + |sep|;
    }
  }

  /** Joining a concatenation is joining the two halves with one separator. */
  lemma {:induction false} JoinAppend(sep: string, xs: seq<string>, ys: seq<string>)
    requires |xs| > 0 && |ys| > 0
    ensures Join(sep, xs + ys) == Join(sep, xs) + sep + Join(sep, ys)
    decreases |xs|
  {
    assert (xs + ys)[0] == xs[0];
    assert (xs + ys)[1..] == xs[1..] + ys;
    if |xs| > 1 {
      JoinAppend(sep, xs[1..], ys);
    }
  }

  /** Order is kept: `xs[i]` stands in `Join(sep, xs)` right at `Offset(sep, xs, i)`. */
  lemma {:induction false} JoinPlacesEach(sep: string, xs: seq<string>, i: nat)
    requires i < |xs|
    ensures Offset(sep, xs, i) + |xs[i]| <= |Join(sep, xs)|
    ensures Join(sep, xs)[Offset(sep, xs, i)..Offset(sep, xs, i) + |xs[i]|] == xs[i]
    decreases i
  {
    if i == 0 {
      assert xs[0] <= Join(sep, xs);
    } else {
      JoinPlacesEach(sep, xs[1..], i - 1);
      JoinPlacesStep(sep, xs, i);
    }
  }

  /** The step of `JoinPlacesEach`: what holds of `xs[1..]` at `i - 1` holds of
      `xs` at `i`, shifted by the first string and one separator. */
  lemma JoinPlacesStep(sep: string, xs: seq<string>, i: nat)
    requires 0 < i < |xs|
    requires Offset(sep, xs[1..], i - 1) + |xs[i]| <= |Join(sep, xs[1..])|
    requires Join(sep, xs[1..])[Offset(sep, xs[1..], i - 1)..Offset(sep, xs[1..], i - 1) + |xs[i]|] == xs[i]
    ensures Offset(sep, xs, i) + |xs[i]| <= |Join(sep, xs)|
    ensures Join(sep, xs)[Offset(sep, xs, i)..Offset(sep, xs, i) + |xs[i]|] == xs[i]
  {
    var head := xs[0] + sep;
    var rest := Join(sep, xs[1..]);
    var k := Offset(sep, xs[1..], i - 1);
    assert Offset(sep, xs, i) == |head| + k;
    assert Join(sep, xs) == head + rest;
    SliceOfAppend(head, rest, k, k + |xs[i]|);
  }

  /** A slice of `a + b` that lies past `a` is the same slice of `b`. */
  lemma SliceOfAppend(a: string, b: string, lo: nat, hi: nat)
    requires lo <= hi <= |b|
    ensures (a + b)[|a| + lo..|a| + hi] == b[lo..hi]
  {
  }

  /** With a non-empty separator, the join is empty exactly when there is
      nothing to join or only one empty string. */
  lemma JoinEmptyIff(sep: string, xs: seq<string>)
    requires sep != ""
    ensures Join(sep, xs) == "" <==> (xs == [] || xs == [""])
  {
  }

  /** Two or more strings joined always contain the separator, right after the
      first one. */
  lemma SeparatorAfterFirst(sep: string, xs: seq<string>)
    requires |xs| >= 2
    ensures |xs[0]| + |sep| <= |Join(sep, xs)|
    ensures Join(sep, xs)[|xs[0]|..|xs[0]| + |sep|] == sep
  {
    assert Join(sep, xs) == xs[0] + sep + Join(sep, xs[1..]);
  }
}
