/** The handful of Python `str` operations the modelled code uses:
    `lstrip`/`rstrip`/`strip` of one character, `split` on one character,
    `join`, `lower` and `startswith`. */
module Strings {

  /** `s.lstrip(c)`: drop every leading `c`. */
  function LStrip(s: string, c: char): (r: string)
    ensures |r| <= |s| && r == s[|s| - |r|..]
    ensures forall i :: 0 <= i < |s| - |r| ==> s[i] == c
    ensures r != [] ==> r[0] != c
    decreases |s|
  {
    if |s| > 0 && s[0] == c then LStrip(s[1..], c) else s
  }

  /** `s.rstrip(c)`: drop every trailing `c`. */
  function RStrip(s: string, c: char): (r: string)
    ensures |r| <= |s| && r == s[..|r|]
    ensures forall i :: |r| <= i < |s| ==> s[i] == c
    ensures r != [] ==> r[|r| - 1] != c
    decreases |s|
  {
    if |s| > 0 && s[|s| - 1] == c then RStrip(s[..|s| - 1], c) else s
  }

  /** `s.strip(c)`: drop `c` at both ends. */
  function Strip(s: string, c: char): (r: string)
    ensures r != [] ==> r[0] != c && r[|r| - 1] != c
    ensures r <= LStrip(s, c)
  {
    var l := LStrip(s, c);
    var r := RStrip(l, c);
    assert r != [] ==> r[0] == l[0];
    r
  }

  /** Stripping leaves a string alone when neither end is `c`, and removes
      one `c` on either side of it. */
  lemma StripAround(x: string, c: char)
    requires x != [] && x[0] != c && x[|x| - 1] != c
    ensures Strip(x, c) == x
    ensures Strip([c] + x, c) == x
    ensures Strip([c] + x + [c], c) == x
  {
    assert ([c] + x)[1..] == x;
    assert ([c] + x + [c])[1..] == x + [c];
    assert (x + [c])[..|x|] == x;
  }

  /** `s.split(c)`: the pieces between occurrences of `c`, empty pieces kept. */
  function Split(s: string, c: char): (r: seq<string>)
    ensures |r| >= 1
    ensures forall i :: 0 <= i < |r| ==> c !in r[i]
    decreases |s|
  {
    if |s| == 0 then [""]
    else
      var rest := Split(s[1..], c);
      if s[0] == c then [""] + rest
      else [[s[0]] + rest[0]] + rest[1..]
  }

  /** `sep.join(xs)`. */
  function Join(xs: seq<string>, sep: string): string
  {
    if |xs| == 0 then ""
    else if |xs| == 1 then xs[0]
    else xs[0] + sep + Join(xs[1..], sep)
  }

  /** Joining the pieces of a split gives back the string. */
  lemma {:induction false} JoinSplit(s: string, c: char)
    ensures Join(Split(s, c), [c]) == s
    decreases |s|
  {
    if |s| > 0 {
      JoinSplit(s[1..], c);
      var rest := Split(s[1..], c);
      if s[0] == c {
        assert s == [c] + s[1..];
      } else if |rest| == 1 {
        assert s == [s[0]] + s[1..];
      } else {
        assert s == [s[0]] + s[1..];
        assert Join(rest, [c]) == rest[0] + [c] + Join(rest[1..], [c]);
      }
    }
  }

  /** Splitting `a + [c] + b` where `a` holds no `c` puts `a` first. */
  lemma {:induction false} SplitAfterPiece(a: string, c: char, b: string)
    requires c !in a
    ensures Split(a + [c] + b, c) == [a] + Split(b, c)
    decreases |a|
  {
    if |a| == 0 {
      assert a + [c] + b == [c] + b;
      assert ([c] + b)[1..] == b;
    } else {
      SplitAfterPiece(a[1..], c, b);
      assert (a + [c] + b)[1..] == a[1..] + [c] + b;
      assert [a[0]] + a[1..] == a;
    }
  }

  /** A string without `c` splits into itself alone. */
  lemma {:induction false} SplitWithout(a: string, c: char)
    requires c !in a
    ensures Split(a, c) == [a]
    decreases |a|
  {
    if |a| > 0 {
      SplitWithout(a[1..], c);
      assert [a[0]] + a[1..] == a;
    }
  }

  /** Splitting a join gives back the pieces when no piece holds the separator. */
  lemma {:induction false} SplitJoin(xs: seq<string>, c: char)
    requires |xs| >= 1
    requires forall i :: 0 <= i < |xs| ==> c !in xs[i]
    ensures Split(Join(xs, [c]), c) == xs
    decreases |xs|
  {
    if |xs| == 1 {
      SplitWithout(xs[0], c);
    } else {
      SplitJoin(xs[1..], c);
      SplitAfterPiece(xs[0], c, Join(xs[1..], [c]));
      assert xs == [xs[0]] + xs[1..];
    }
  }

  /** The first piece of a split is what comes before the first separator. */
  lemma FirstPiece(a: string, c: char, b: string)
    requires c !in a
    ensures Split(a + [c] + b, c)[0] == a
    ensures Split(a, c)[0] == a
  {
    SplitAfterPiece(a, c, b);
    SplitWithout(a, c);
  }

  /** ASCII lower-casing of one character. */
  function LowerChar(ch: char): char
  {
    if 'A' <= ch <= 'Z' then (ch as int - 'A' as int + 'a' as int) as char else ch
  }

  /** `s.lower()`, on ASCII letters. */
  function Lower(s: string): (r: string)
    ensures |r| == |s|
    ensures forall i :: 0 <= i < |s| ==> r[i] == LowerChar(s[i])
  {
    seq(|s|, i requires 0 <= i < |s| => LowerChar(s[i]))
  }

  /** Lower-casing twice changes nothing more. */
  lemma LowerIdempotent(s: string)
    ensures Lower(Lower(s)) == Lower(s)
  {
  }

  /** Lower-casing distributes over concatenation. */
  lemma LowerConcat(a: string, b: string)
    ensures Lower(a + b) == Lower(a) + Lower(b)
  {
  }

  /** `repr` of a string, single-quoted (no escaping is modelled). */
  function StrRepr(s: string): string
  {
    "'" + s + "'"
  }

  /** The quoted items of a list or tuple display, separated by ", ". */
  function QuotedList(items: seq<string>): string
  {
    if |items| == 0 then ""
    else if |items| == 1 then StrRepr(items[0])
    else StrRepr(items[0]) + ", " + QuotedList(items[1..])
  }

  /** `repr` of a list of strings: `[]`, `['a']`, `['a', 'b']`. */
  function ListRepr(items: seq<string>): string
  {
    "[" + QuotedList(items) + "]"
  }

  /** `repr` of a tuple of strings: `()`, `('a',)`, `('a', 'b')`. */
  function TupleRepr(items: seq<string>): string
  {
    if |items| == 1 then "(" + StrRepr(items[0]) + ",)" else "(" + QuotedList(items) + ")"
  }
}

/** First-match search: the `for … : if … : break / else:` shape of the
    modelled code. */
module Search {
  import opened Wrappers

  /** The index of the first element satisfying `p`, if any. */
  function FirstIndex<T>(xs: seq<T>, p: T -> bool): (r: Option<nat>)
    ensures r.Some? ==> r.value < |xs| && p(xs[r.value])
    ensures r.Some? ==> forall j :: 0 <= j < r.value ==> !p(xs[j])
    ensures r.None? <==> forall j :: 0 <= j < |xs| ==> !p(xs[j])
  {
    if |xs| == 0 then None
    else if p(xs[0]) then Some(0)
    else
      match FirstIndex(xs[1..], p)
      case None => None
      case Some(k) => Some(k + 1)
  }

  /** Which index is first depends only on the values of `p` on the elements. */
  lemma FirstIndexUnique<T>(xs: seq<T>, p: T -> bool, k: nat)
    requires k < |xs| && p(xs[k])
    requires forall j :: 0 <= j < k ==> !p(xs[j])
    ensures FirstIndex(xs, p) == Some(k)
  {
  }
}
