/** The parts of Go's `net/url.Values` and `strings.Join` that the filter
    code uses, plus `Split`, the inverse of `Join` on non-empty lists whose
    elements hold no separator, which is here to state what a joined value
    holds. */
module UrlValues {

  /** A query: each parameter name maps to its list of values. */
  type Values = map<string, seq<string>>

  /** `q[key]` in Go: the values of `key`, or the empty (nil) list when the
      key is absent. */
  function Get(q: Values, key: string): (r: seq<string>)
    ensures key in q ==> r == q[key]
    ensures key !in q ==> r == []
  {
    if key in q then q[key] else []
  }

  /** `q.Set(key, value)`: `key` now has exactly the one value `value`,
      every other parameter is left as it was. */
  function SetValue(q: Values, key: string, value: string): (r: Values)
    ensures r.Keys == q.Keys + {key}
    ensures Get(r, key) == [value]
    ensures forall k :: k in q && k != key ==> r[k] == q[k]
  {
    q[key := [value]]
  }

  /** `strings.Join(elems, sep)`: the elements with `sep` between each
      neighbouring pair; the empty list joins to the empty string. */
  function Join(elems: seq<string>, sep: string): (r: string)
    ensures elems == [] ==> r == ""
    ensures |elems| == 1 ==> r == elems[0]
    decreases |elems|
  {
    if |elems| == 0 then ""
    else if |elems| == 1 then elems[0]
    else elems[0] + sep + Join(elems[1..], sep)
  }

  /** Splits `s` at every occurrence of `sep`, as `strings.Split` does for
      a one-character separator: the pieces never contain `sep`, and there
      is always at least one piece (the empty string splits to `[""]`). */
  function Split(s: string, sep: char): (r: seq<string>)
    ensures |r| >= 1
    ensures Unseparated(r, sep)
    decreases |s|
  {
    if |s| == 0 then [""]
    else
      var rest := Split(s[1..], sep);
      if s[0] == sep then [""] + rest
      else [[s[0]] + rest[0]] + rest[1..]
  }

  /** No element contains the separator `sep`. */
  predicate Unseparated(elems: seq<string>, sep: char)
  {
    forall i :: 0 <= i < |elems| ==> sep !in elems[i]
  }

  lemma JoinCons(x: string, xs: seq<string>, sep: string)
    requires |xs| >= 1
    ensures Join([x] + xs, sep) == x + sep + Join(xs, sep)
  {
    assert ([x] + xs)[1..] == xs;
  }

  /** A piece with no separator in front of a separator is split off whole. */
  lemma {:induction false} SplitPiece(x: string, sep: char, t: string)
    requires sep !in x
    ensures Split(x + [sep] + t, sep) == [x] + Split(t, sep)
    decreases |x|
  {
    if |x| == 0 {
      assert x + [sep] + t == [sep] + t;
      assert ([sep] + t)[1..] == t;
    } else {
      var s := x + [sep] + t;
      assert s[0] == x[0];
      assert s[1..] == x[1..] + [sep] + t;
      SplitPiece(x[1..], sep, t);
      assert [x[0]] + x[1..] == x;
    }
  }

  /** A string with no separator splits into itself. */
  lemma {:induction false} SplitWhole(x: string, sep: char)
    requires sep !in x
    ensures Split(x, sep) == [x]
    decreases |x|
  {
    if |x| > 0 {
      SplitWhole(x[1..], sep);
      assert [x[0]] + x[1..] == x;
    }
  }

  /** Joining a non-empty list of separator-free pieces and splitting the
      result gives the list back. */
  lemma {:induction false} SplitJoin(elems: seq<string>, sep: char)
    requires |elems| >= 1
    requires Unseparated(elems, sep)
    ensures Split(Join(elems, [sep]), sep) == elems
    decreases |elems|
  {
    if |elems| == 1 {
      SplitWhole(elems[0], sep);
    } else {
      var xs := elems[1..];
      JoinCons(elems[0], xs, [sep]);
      assert [elems[0]] + xs == elems;
      SplitJoin(xs, sep);
      SplitPiece(elems[0], sep, Join(xs, [sep]));
    }
  }

  /** Splitting any string and joining the pieces gives the string back. */
  lemma {:induction false} JoinSplit(s: string, sep: char)
    ensures Join(Split(s, sep), [sep]) == s
    decreases |s|
  {
    if |s| > 0 {
      var rest := Split(s[1..], sep);
      JoinSplit(s[1..], sep);
      if s[0] == sep {
        JoinCons("", rest, [sep]);
      } else if |rest| == 1 {
        assert Split(s, sep) == [[s[0]] + rest[0]];
      } else {
        assert Split(s, sep) == [[s[0]] + rest[0]] + rest[1..];
        JoinCons([s[0]] + rest[0], rest[1..], [sep]);
        JoinCons(rest[0], rest[1..], [sep]);
        assert [rest[0]] + rest[1..] == rest;
      }
    }
  }
}
