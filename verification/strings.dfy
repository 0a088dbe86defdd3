/** The two Kotlin standard-library string operations the SDK relies on:
    `String.split(delimiter)` with a one-character delimiter, and
    `Iterable.joinToString(separator, transform)`. */
module Strings {

  /** Number of occurrences of `c` in `s`. */
  function Occurrences(s: string, c: char): nat
  {
    if |s| == 0 then 0 else (if s[0] == c then 1 else 0) + Occurrences(s[1..], c)
  }

  /** Kotlin's `s.split(sep)`: every occurrence of `sep` ends a piece and empty
      pieces are kept, so `""` splits into `[""]` and `"a  b"` into `["a", "", "b"]`. */
  function Split(s: string, sep: char): (parts: seq<string>)
    ensures |parts| == Occurrences(s, sep) + 1
    ensures forall i :: 0 <= i < |parts| ==> sep !in parts[i]
    decreases |s|
  {
    if |s| == 0 then [""]
    else
      var rest := Split(s[1..], sep);
      if s[0] == sep then [""] + rest
      else [[s[0]] + rest[0]] + rest[1..]
  }

  /** The pieces of `parts` glued back together with `sep` between neighbours. */
  function Join(parts: seq<string>, sep: char): string
  {
    if |parts| == 0 then ""
    else if |parts| == 1 then parts[0]
    else parts[0] + [sep] + Join(parts[1..], sep)
  }

  /** Splitting loses nothing: the pieces joined with the delimiter give back the input. */
  lemma {:induction false} JoinSplit(s: string, sep: char)
    ensures Join(Split(s, sep), sep) == s
    decreases |s|
  {
    if |s| > 0 {
      var rest := Split(s[1..], sep);
      JoinSplit(s[1..], sep);
      assert s == [s[0]] + s[1..];
      if s[0] == sep {
        assert Split(s, sep) == [""] + rest;
        assert ([""] + rest)[1..] == rest;
      } else {
        var parts := Split(s, sep);
        assert parts == [[s[0]] + rest[0]] + rest[1..];
        if |rest| == 1 {
          assert parts == [[s[0]] + rest[0]];
        } else {
          assert parts[1..] == rest[1..];
          assert Join(parts, sep) == ([s[0]] + rest[0]) + [sep] + Join(rest[1..], sep);
          assert Join(rest, sep) == rest[0] + [sep] + Join(rest[1..], sep);
        }
      }
    }
  }

  /** A piece free of the delimiter splits into itself. */
  lemma {:induction false} SplitPiece(w: string, sep: char)
    requires sep !in w
    ensures Split(w, sep) == [w]
    decreases |w|
  {
    if |w| > 0 {
      SplitPiece(w[1..], sep);
      assert [w[0]] + w[1..] == w;
    }
  }

  /** A delimiter-free piece followed by the delimiter splits off as the first piece. */
  lemma {:induction false} SplitAfterPiece(w: string, t: string, sep: char)
    requires sep !in w
    ensures Split(w + [sep] + t, sep) == [w] + Split(t, sep)
    decreases |w|
  {
    var s := w + [sep] + t;
    if |w| == 0 {
      assert s == [sep] + t;
      assert s[1..] == t;
    } else {
      assert s[1..] == w[1..] + [sep] + t;
      SplitAfterPiece(w[1..], t, sep);
      var rest := Split(s[1..], sep);
      assert rest[0] == w[1..];
      assert rest[1..] == Split(t, sep);
      assert [s[0]] + rest[0] == w;
    }
  }

  /** Joining delimiter-free pieces and splitting again gives back the pieces. */
  lemma {:induction false} SplitJoin(parts: seq<string>, sep: char)
    requires |parts| >= 1
    requires forall i :: 0 <= i < |parts| ==> sep !in parts[i]
    ensures Split(Join(parts, sep), sep) == parts
    decreases |parts|
  {
    if |parts| == 1 {
      SplitPiece(parts[0], sep);
    } else {
      SplitJoin(parts[1..], sep);
      SplitAfterPiece(parts[0], Join(parts[1..], sep), sep);
      assert [parts[0]] + parts[1..] == parts;
    }
  }

  /** `s.split(sep).toSet()`. */
  function Tokens(s: string, sep: char): (ts: set<string>)
    ensures forall w :: w in ts ==> sep !in w
  {
    set p | p in Split(s, sep)
  }

  /** Kotlin's `xs.joinToString(separator) { transform(it) }` with no prefix, postfix or limit. */
  function JoinToString(xs: seq<string>, separator: string, transform: string -> string): string
  {
    if |xs| == 0 then ""
    else if |xs| == 1 then transform(xs[0])
    else transform(xs[0]) + separator + JoinToString(xs[1..], separator, transform)
  }

  /** With the default separator `", "` and every entry transformed to `" "`, the
      result for `n >= 1` entries is `" ,  ,  , ... "`: length `3n - 2`, a comma at
      every position congruent to 1 modulo 3 and a space everywhere else. */
  lemma {:induction false} JoinToSpaces(xs: seq<string>)
    requires |xs| >= 1
    ensures var r := JoinToString(xs, ", ", _ => " ");
      && |r| == 3 * |xs| - 2
      && forall i :: 0 <= i < |r| ==> r[i] == (if i % 3 == 1 then ',' else ' ')
    decreases |xs|
  {
    if |xs| > 1 {
      JoinToSpaces(xs[1..]);
      var tail := JoinToString(xs[1..], ", ", _ => " ");
      var r := JoinToString(xs, ", ", _ => " ");
      assert r == " " + ", " + tail;
      forall i | 3 <= i < |r|
        ensures r[i] == (if i % 3 == 1 then ',' else ' ')
      {
        assert r[i] == tail[i - 3];
      }
    }
  }

  /** With every entry transformed to `" "`, the entries themselves do not
      matter: only how many there are. */
  lemma {:induction false} JoinIgnoresEntries(xs: seq<string>, ys: seq<string>)
    requires |xs| == |ys|
    ensures JoinToString(xs, ", ", _ => " ") == JoinToString(ys, ", ", _ => " ")
    decreases |xs|
  {
    if |xs| > 1 {
      JoinIgnoresEntries(xs[1..], ys[1..]);
    }
  }
}
