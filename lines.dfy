/** Strings as sequences of lines: what `collect::<String>()` produces from a
    sequence of fragments, and how the generated text splits at `'\n'`. */
module Lines {

  /** Concatenation of string fragments, in order (`Iterator::collect` into a
      `String`). */
  function Concat(ss: seq<string>): string
  {
    if ss == [] then "" else ss[0] + Concat(ss[1..])
  }

  /** Applies `f` to every element, keeping the order (`Iterator::map`). */
  function Map<A, B>(f: A -> B, xs: seq<A>): seq<B>
  {
    seq(|xs|, i requires 0 <= i < |xs| => f(xs[i]))
  }

  predicate NoNewline(s: string)
  {
    forall i :: 0 <= i < |s| ==> s[i] != '\n'
  }

  /** Each line followed by a line feed. */
  function JoinLines(ls: seq<string>): string
  {
    if ls == [] then "" else ls[0] + "\n" + JoinLines(ls[1..])
  }

  /** Splits at every line feed, as `str::split('\n')` does: the result has one
      more element than there are line feeds in `s`. */
  function SplitLines(s: string): (ls: seq<string>)
    ensures |ls| >= 1
  {
    if s == [] then [""]
    else
      var rest := SplitLines(s[1..]);
      if s[0] == '\n' then [""] + rest else [[s[0]] + rest[0]] + rest[1..]
  }

  lemma {:induction false} ConcatAppend(a: seq<string>, b: seq<string>)
    ensures Concat(a + b) == Concat(a) + Concat(b)
  {
    if a == [] {
      assert a + b == b;
    } else {
      assert (a + b)[1..] == a[1..] + b;
      ConcatAppend(a[1..], b);
    }
  }

  /** Fragments that are each one line plus its line feed concatenate to the
      joined lines. */
  lemma {:induction false} ConcatOfLines(ss: seq<string>, ls: seq<string>)
    requires |ss| == |ls|
    requires forall i :: 0 <= i < |ss| ==> ss[i] == ls[i] + "\n"
    ensures Concat(ss) == JoinLines(ls)
  {
    if ss != [] {
      ConcatOfLines(ss[1..], ls[1..]);
    }
  }

  /** A line without a line feed, followed by one, splits off as the first
      line. */
  lemma {:induction false} SplitAfterLine(l: string, rest: string)
    requires NoNewline(l)
    ensures SplitLines(l + "\n" + rest) == [l] + SplitLines(rest)
  {
    var s := l + "\n" + rest;
    if l == [] {
      assert s[0] == '\n' && s[1..] == rest;
    } else {
      assert s[0] == l[0] && s[1..] == l[1..] + "\n" + rest;
      SplitAfterLine(l[1..], rest);
      assert [l[0]] + l[1..] == l;
    }
  }

  /** Joining lines and splitting the result gives the lines back, followed by
      the empty text after the last line feed. */
  lemma {:induction false} SplitJoin(ls: seq<string>)
    requires forall i :: 0 <= i < |ls| ==> NoNewline(ls[i])
    ensures SplitLines(JoinLines(ls)) == ls + [""]
  {
    if ls != [] {
      SplitAfterLine(ls[0], JoinLines(ls[1..]));
      SplitJoin(ls[1..]);
      assert ls == [ls[0]] + ls[1..];
    }
  }
}
