/** String helpers shared by the configuration modules: ASCII upper-casing, the
    dash-to-underscore rewrite, prefixes, runs of '*', joining, and the
    subsequence order used to state in which order error messages appear. */
module Text {

  predicate IsLowerAscii(c: char) {
    'a' <= c <= 'z'
  }

  /** `toUpperCase` restricted to ASCII: a-z become A-Z, every other character is kept. */
  function UpperChar(c: char): (u: char)
    ensures !IsLowerAscii(u)
    ensures !IsLowerAscii(c) ==> u == c
  {
    if IsLowerAscii(c) then (c as int - 32) as char else c
  }

  /** The result has no lower-case ASCII letter and keeps every other character where
      it was. */
  function ToUpper(s: string): (r: string)
    ensures |r| == |s|
    ensures forall i :: 0 <= i < |r| ==> !IsLowerAscii(r[i])
    ensures forall i :: 0 <= i < |s| && !IsLowerAscii(s[i]) ==> r[i] == s[i]
  {
    seq(|s|, i requires 0 <= i < |s| => UpperChar(s[i]))
  }

  /** Upper-casing twice is upper-casing once. */
  lemma ToUpperIdempotent(s: string)
    ensures ToUpper(ToUpper(s)) == ToUpper(s)
  {
  }

  /** The per-character form of the global replacement `replace(/-/g, '_')`. */
  function ReplaceDashes(s: string): (r: string)
    ensures |r| == |s|
    ensures '-' !in r
    ensures forall i :: 0 <= i < |s| && s[i] != '-' ==> r[i] == s[i]
  {
    seq(|s|, i requires 0 <= i < |s| => if s[i] == '-' then '_' else s[i])
  }

  predicate StartsWith(s: string, prefix: string) {
    |prefix| <= |s| && s[..|prefix|] == prefix
  }

  /** `'*'.repeat(n)`. */
  function Stars(n: nat): (r: string)
    ensures |r| == n
    ensures forall i :: 0 <= i < n ==> r[i] == '*'
  {
    if n == 0 then "" else Stars(n - 1) + "*"
  }

  /** `Array.prototype.join(separator)`. */
  function Join(parts: seq<string>, separator: string): string {
    if |parts| == 0 then ""
    else if |parts| == 1 then parts[0]
    else parts[0] + separator + Join(parts[1..], separator)
  }

  /** The one-element list `[x]` when `cond` holds, and `[]` otherwise: the effect of
      `if (cond) list.push(x)`. */
  function When<T>(cond: bool, x: T): seq<T> {
    if cond then [x] else []
  }

  /** Appending `When(cond, x)` is the conditional push itself. */
  lemma AppendWhen<T>(xs: seq<T>, cond: bool, x: T)
    ensures xs + When(cond, x) == if cond then xs + [x] else xs
  {
    if !cond {
      assert xs + [] == xs;
    }
  }

  /** `xs` is obtained from `ys` by deleting elements, so it keeps their relative order. */
  predicate Subseq<T(==)>(xs: seq<T>, ys: seq<T>)
    decreases |ys|
  {
    if xs == [] then true
    else if ys == [] then false
    else (xs[0] == ys[0] && Subseq(xs[1..], ys[1..])) || Subseq(xs, ys[1..])
  }

  /** Prepending an optional `y` to a subsequence of `ys` gives a subsequence of `[y] + ys`. */
  lemma SubseqWhen<T>(cond: bool, y: T, xs: seq<T>, ys: seq<T>)
    requires Subseq(xs, ys)
    ensures Subseq(When(cond, y) + xs, [y] + ys)
  {
    assert ([y] + ys)[1..] == ys;
    if cond {
      assert (When(cond, y) + xs)[1..] == xs;
    } else {
      assert When(cond, y) + xs == xs;
    }
  }

  lemma {:induction false} SubseqExtend<T>(xs: seq<T>, prefix: seq<T>, ys: seq<T>)
    requires Subseq(xs, ys)
    ensures Subseq(xs, prefix + ys)
    decreases |prefix|
  {
    if prefix != [] {
      assert (prefix + ys)[1..] == prefix[1..] + ys;
      SubseqExtend(xs, prefix[1..], ys);
    } else {
      assert prefix + ys == ys;
    }
  }

  /** Subsequences concatenate: the pieces of `a + c` can be found in `b + d`. */
  lemma {:induction false} SubseqConcat<T>(a: seq<T>, b: seq<T>, c: seq<T>, d: seq<T>)
    requires Subseq(a, b) && Subseq(c, d)
    ensures Subseq(a + c, b + d)
    decreases |b|
  {
    if a == [] {
      assert a + c == c;
      SubseqExtend(c, b, d);
    } else {
      assert (a + c)[0] == a[0] && (b + d)[0] == b[0];
      assert (a + c)[1..] == a[1..] + c && (b + d)[1..] == b[1..] + d;
      if a[0] == b[0] && Subseq(a[1..], b[1..]) {
        SubseqConcat(a[1..], b[1..], c, d);
      } else {
        SubseqConcat(a, b[1..], c, d);
      }
    }
  }

  lemma SubseqOfWhen<T>(cond: bool, x: T)
    ensures Subseq(When(cond, x), [x])
  {
  }

}
