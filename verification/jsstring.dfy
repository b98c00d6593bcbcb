/** The two JavaScript string builtins the destination normaliser is built
    from: `String.prototype.split` with a one-character separator and
    `Array.prototype.join` with a string glue. */
module JsString {

  /** Number of occurrences of `c` in `s`. */
  function Occurrences(s: string, c: char): nat
  {
    if |s| == 0 then 0
    else (if s[0] == c then 1 else 0) + Occurrences(s[1..], c)
  }

  /** `s.split(sep)`: the maximal separator-free pieces between separators.
      Empty pieces are kept (two adjacent separators give an empty piece),
      and the empty string splits into one empty piece. */
  function Split(s: string, sep: char): (parts: seq<string>)
    ensures |parts| == Occurrences(s, sep) + 1
    ensures forall i :: 0 <= i < |parts| ==> sep !in parts[i]
    decreases |s|
  {
    if |s| == 0 then [""]
    else
      var rest := Split(s[1..], sep);
      if s[0] == sep then [""] + rest
      else [[s[0]] + rest[0]] + rest[1..]
  }

  /** `parts.join(glue)`: the pieces in order with `glue` between each two
      neighbours; the empty array joins to the empty string. */
  function Join(parts: seq<string>, glue: string): string
  {
    if |parts| == 0 then ""
    else if |parts| == 1 then parts[0]
    else parts[0] + glue + Join(parts[1..], glue)
  }

  /** Joining two non-empty lists of pieces joins each and puts one glue
      between the two results. */
  lemma {:induction false} JoinAppend(a: seq<string>, b: seq<string>, glue: string)
    requires |a| >= 1 && |b| >= 1
    ensures Join(a + b, glue) == Join(a, glue) + glue + Join(b, glue)
    decreases |a|
  {
    assert (a + b)[0] == a[0];
    if |a| == 1 {
      assert (a + b)[1..] == b;
    } else {
      assert (a + b)[1..] == a[1..] + b;
      JoinAppend(a[1..], b, glue);
    }
  }

  /** Reference meaning of split-then-join: every occurrence of `sep` is
      replaced by `glue`, every other character is kept, in order. */
  function ReplaceAll(s: string, sep: char, glue: string): string
  {
    if |s| == 0 then ""
    else (if s[0] == sep then glue else [s[0]]) + ReplaceAll(s[1..], sep, glue)
  }

  /** Prefixing a character to the first piece prefixes it to the join. */
  lemma JoinConsHead(c: char, parts: seq<string>, glue: string)
    requires |parts| >= 1
    ensures Join([[c] + parts[0]] + parts[1..], glue) == [c] + Join(parts, glue)
  {
  }

  /** Splitting on `sep` and joining with `glue` replaces each `sep` by `glue`. */
  lemma {:induction false} JoinSplitIsReplaceAll(s: string, sep: char, glue: string)
    ensures Join(Split(s, sep), glue) == ReplaceAll(s, sep, glue)
    decreases |s|
  {
    if |s| > 0 {
      var rest := Split(s[1..], sep);
      JoinSplitIsReplaceAll(s[1..], sep, glue);
      if s[0] == sep {
        assert ([""] + rest)[1..] == rest;
      } else {
        JoinConsHead(s[0], rest, glue);
      }
    }
  }

  /** Replacing by a single character keeps the length and acts pointwise. */
  lemma {:induction false} ReplaceAllByCharPointwise(s: string, sep: char, glue: char)
    ensures |ReplaceAll(s, sep, [glue])| == |s|
    ensures forall i :: 0 <= i < |s| ==>
      ReplaceAll(s, sep, [glue])[i] == (if s[i] == sep then glue else s[i])
    decreases |s|
  {
    if |s| > 0 {
      ReplaceAllByCharPointwise(s[1..], sep, glue);
      var r := ReplaceAll(s, sep, [glue]);
      forall i | 0 <= i < |s|
        ensures r[i] == (if s[i] == sep then glue else s[i])
      {
        if i > 0 {
          assert r[i] == ReplaceAll(s[1..], sep, [glue])[i - 1];
        }
      }
    }
  }

  /** Joining the pieces of a split with the separator itself gives back the
      original string: split and join are inverse. */
  lemma SplitJoinRoundTrip(s: string, sep: char)
    ensures Join(Split(s, sep), [sep]) == s
  {
  }
}
