/** Scope lists and their single-string form. The password grant sends the
    configured scopes as one `scope` parameter, joined with a separator the
    way `String.join` does; splitting that string at the separator gives the
    list back whenever no scope contains the separator itself. */
module Scopes {

  /** The separator between scopes: the space of section 3.3 of RFC 6749. */
  const Separator: char := ' '

  /** `String.join(sep, xs)`: the elements in order, one separator between neighbours. */
  function Join(xs: seq<string>, sep: char): (s: string)
    ensures |xs| > 0 ==> xs[0] <= s
    ensures sep in s <==> |xs| > 1 || !Separable(xs, sep)
    decreases |xs|
  {
    if |xs| == 0 then ""
    else if |xs| == 1 then xs[0]
    else
      var s := xs[0] + [sep] + Join(xs[1..], sep);
      assert s[|xs[0]|] == sep;
      s
  }

  /** Cuts a string at every occurrence of the separator; always yields at least one piece. */
  function Split(s: string, sep: char): (pieces: seq<string>)
    ensures |pieces| >= 1
    ensures forall i :: 0 <= i < |pieces| ==> sep !in pieces[i]
    decreases |s|
  {
    if |s| == 0 then [""]
    else if s[0] == sep then [""] + Split(s[1..], sep)
    else
      var rest := Split(s[1..], sep);
      [[s[0]] + rest[0]] + rest[1..]
  }

  /** No scope contains the separator, so the joined string can be cut back apart. */
  predicate Separable(xs: seq<string>, sep: char) {
    forall i :: 0 <= i < |xs| ==> sep !in xs[i]
  }

  /** A word without the separator is a single piece. */
  lemma {:induction false} SplitWord(w: string, sep: char)
    requires sep !in w
    ensures Split(w, sep) == [w]
    decreases |w|
  {
    if |w| > 0 {
      assert w[0] != sep;
      SplitWord(w[1..], sep);
      assert [w[0]] + w[1..] == w;
    }
  }

  /** Splitting a word followed by the separator and a tail yields the word, then the tail's pieces. */
  lemma {:induction false} SplitWordThenTail(w: string, t: string, sep: char)
    requires sep !in w
    ensures Split(w + [sep] + t, sep) == [w] + Split(t, sep)
    decreases |w|
  {
    var s := w + [sep] + t;
    if |w| == 0 {
      assert s[0] == sep && s[1..] == t;
    } else {
      assert s[0] == w[0] && w[0] != sep;
      assert s[1..] == w[1..] + [sep] + t;
      SplitWordThenTail(w[1..], t, sep);
      assert [w[0]] + w[1..] == w;
    }
  }

  /** Round trip: the joined scope string splits back into exactly the configured scopes. */
  lemma {:induction false} SplitJoin(xs: seq<string>, sep: char)
    requires |xs| > 0
    requires Separable(xs, sep)
    ensures Split(Join(xs, sep), sep) == xs
    decreases |xs|
  {
    if |xs| == 1 {
      SplitWord(xs[0], sep);
    } else {
      assert Separable(xs[1..], sep) by {
        forall i | 0 <= i < |xs[1..]|
          ensures sep !in xs[1..][i]
        {
          assert xs[1..][i] == xs[i + 1];
        }
      }
      SplitJoin(xs[1..], sep);
      assert sep !in xs[0];
      SplitWordThenTail(xs[0], Join(xs[1..], sep), sep);
      assert [xs[0]] + xs[1..] == xs;
    }
  }
}
