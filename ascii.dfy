/** String operations of the JavaScript runtime that the action relies on
    (toUpperCase, trim, split, join), restricted to ASCII letters and ASCII
    whitespace. */
module Ascii {

  predicate IsLower(c: char) { 'a' <= c <= 'z' }

  /** ASCII whitespace as String.prototype.trim sees it: space, tab, line
      feed, vertical tab, form feed, carriage return. */
  predicate IsSpace(c: char) { c == ' ' || '\t' <= c <= '\r' }

  function UpperChar(c: char): (u: char)
    ensures !IsLower(u)
    ensures IsLower(c) ==> u as int == c as int - 32
    ensures !IsLower(c) ==> u == c
  {
    if IsLower(c) then (c as int - 32) as char else c
  }

  /** String.prototype.toUpperCase on ASCII. */
  function Upper(s: string): string
  {
    seq(|s|, i requires 0 <= i < |s| => UpperChar(s[i]))
  }

  predicate HasNoLower(s: string)
  {
    forall i | 0 <= i < |s| :: !IsLower(s[i])
  }

  lemma UpperFixesUpperCase(s: string)
    requires HasNoLower(s)
    ensures Upper(s) == s
  {
  }

  lemma UpperIdempotent(s: string)
    ensures Upper(Upper(s)) == Upper(s)
  {
    UpperFixesUpperCase(Upper(s));
  }

  /** How many whitespace characters s starts with. */
  function LeadingSpaces(s: string): (n: nat)
    ensures n <= |s|
    ensures forall k | 0 <= k < n :: IsSpace(s[k])
    ensures n < |s| ==> !IsSpace(s[n])
  {
    if |s| > 0 && IsSpace(s[0]) then 1 + LeadingSpaces(s[1..]) else 0
  }

  /** How many whitespace characters s ends with. */
  function TrailingSpaces(s: string): (n: nat)
    ensures n <= |s|
    ensures forall k | |s| - n <= k < |s| :: IsSpace(s[k])
    ensures n < |s| ==> !IsSpace(s[|s| - n - 1])
  {
    if |s| > 0 && IsSpace(s[|s| - 1]) then 1 + TrailingSpaces(s[..|s| - 1]) else 0
  }

  /** String.prototype.trim: the part of s between its leading and its
      trailing whitespace. */
  function Trim(s: string): (r: string)
    ensures var i := LeadingSpaces(s);
      && i + |r| <= |s| && r == s[i..i + |r|]
      && (forall k | i + |r| <= k < |s| :: IsSpace(s[k]))
    ensures r != [] ==> !IsSpace(r[0]) && !IsSpace(r[|r| - 1])
    ensures (forall k | 0 <= k < |s| :: IsSpace(s[k])) <==> r == []
  {
    var i := LeadingSpaces(s);
    if i == |s| then ""
    else
      var n := TrailingSpaces(s);
      s[i..|s| - n]
  }

  lemma TrimIdempotent(s: string)
    ensures Trim(Trim(s)) == Trim(s)
  {
    var r := Trim(s);
    assert r != [] ==> LeadingSpaces(r) == 0 && TrailingSpaces(r) == 0;
  }

  /** String.prototype.split with a one-character separator: the pieces
      between consecutive separators, in order. An empty string yields one
      empty piece. */
  function Split(s: string, sep: char): (r: seq<string>)
    ensures |r| > 0
  {
    if s == [] then [""]
    else if s[0] == sep then [""] + Split(s[1..], sep)
    else
      var rest := Split(s[1..], sep);
      [[s[0]] + rest[0]] + rest[1..]
  }

  /** No piece of a split holds the separator. */
  lemma {:induction false} SplitPieces(s: string, sep: char)
    ensures forall k | 0 <= k < |Split(s, sep)| :: sep !in Split(s, sep)[k]
  {
    if s != [] {
      SplitPieces(s[1..], sep);
      var rest := Split(s[1..], sep);
      if s[0] != sep {
        assert sep !in [s[0]] + rest[0];
      }
    }
  }

  /** Array.prototype.join: the pieces with the separator between each two. */
  function Join(ts: seq<string>, sep: string): string
  {
    if |ts| == 0 then ""
    else if |ts| == 1 then ts[0]
    else ts[0] + sep + Join(ts[1..], sep)
  }

  lemma {:induction false} JoinSplit(s: string, sep: char)
    ensures Join(Split(s, sep), [sep]) == s
  {
    if s == [] {
    } else if s[0] == sep {
      JoinSplit(s[1..], sep);
      var rest := Split(s[1..], sep);
      assert Split(s, sep) == [""] + rest;
      assert Join([""] + rest, [sep]) == "" + [sep] + Join(rest, [sep]);
      assert s == [s[0]] + s[1..];
    } else {
      JoinSplit(s[1..], sep);
      var rest := Split(s[1..], sep);
      assert Split(s, sep) == [[s[0]] + rest[0]] + rest[1..];
      JoinExtendsFirstPiece(s[0], rest, [sep]);
      assert s == [s[0]] + s[1..];
    }
  }

  /** Prefixing the first piece prefixes the join. */
  lemma JoinExtendsFirstPiece(c: char, rest: seq<string>, sep: string)
    requires |rest| > 0
    ensures Join([[c] + rest[0]] + rest[1..], sep) == [c] + Join(rest, sep)
  {
    var r := [[c] + rest[0]] + rest[1..];
    if |rest| > 1 {
      assert r[1..] == rest[1..];
    }
  }

  /** Splitting at the first separator: a piece without the separator, the
      separator, then anything. */
  lemma {:induction false} SplitAt(a: string, sep: char, b: string)
    requires sep !in a
    ensures Split(a + [sep] + b, sep) == [a] + Split(b, sep)
  {
    if a == [] {
      assert a + [sep] + b == [sep] + b;
      assert ([sep] + b)[1..] == b;
    } else {
      var s := a + [sep] + b;
      assert s[0] == a[0] && s[1..] == a[1..] + [sep] + b;
      SplitAt(a[1..], sep, b);
      assert [a[0]] + a[1..] == a;
    }
  }

  lemma {:induction false} SplitWithoutSeparator(s: string, sep: char)
    requires sep !in s
    ensures Split(s, sep) == [s]
  {
    if s != [] {
      SplitWithoutSeparator(s[1..], sep);
      assert [s[0]] + s[1..] == s;
    }
  }

  lemma {:induction false} SplitJoin(ts: seq<string>, sep: char)
    requires |ts| > 0
    requires forall k | 0 <= k < |ts| :: sep !in ts[k]
    ensures Split(Join(ts, [sep]), sep) == ts
  {
    if |ts| == 1 {
      SplitWithoutSeparator(ts[0], sep);
    } else {
      SplitJoin(ts[1..], sep);
      SplitAt(ts[0], sep, Join(ts[1..], [sep]));
      assert [ts[0]] + ts[1..] == ts;
    }
  }

  /** The pieces of each text, one text after another. */
  function SplitEach(ts: seq<string>, sep: char): seq<string>
  {
    if ts == [] then [] else Split(ts[0], sep) + SplitEach(ts[1..], sep)
  }

  /** Splitting a join gives the pieces of each joined text, in order,
      whether or not the texts hold the separator themselves. */
  lemma {:induction false} SplitJoinEach(ts: seq<string>, sep: char)
    requires |ts| > 0
    ensures Split(Join(ts, [sep]), sep) == SplitEach(ts, sep)
  {
    if |ts| == 1 {
      assert ts[1..] == [];
      assert SplitEach(ts, sep) == Split(ts[0], sep) + [];
    } else {
      SplitJoinEach(ts[1..], sep);
      SplitConcat(ts[0], sep, Join(ts[1..], [sep]));
    }
  }

  /** Splitting the concatenation of two texts around a separator gives the
      pieces of the first followed by the pieces of the second. */
  lemma {:induction false} SplitConcat(a: string, sep: char, b: string)
    ensures Split(a + [sep] + b, sep) == Split(a, sep) + Split(b, sep)
  {
    if a == [] {
      assert a + [sep] + b == [sep] + b;
      assert ([sep] + b)[1..] == b;
    } else {
      SplitConcat(a[1..], sep, b);
      var s := a + [sep] + b;
      assert s[0] == a[0] && s[1..] == a[1..] + [sep] + b;
      SplitConcatStep(s, a, sep, Split(b, sep));
    }
  }

  /** Two texts that start with the same character, and whose remainders
      split alike up to a suffix of pieces, split alike up to that suffix. */
  lemma SplitConcatStep(s: string, a: string, sep: char, tail: seq<string>)
    requires s != [] && a != [] && s[0] == a[0]
    requires Split(s[1..], sep) == Split(a[1..], sep) + tail
    ensures Split(s, sep) == Split(a, sep) + tail
  {
    if s[0] != sep {
      SplitExtendsFirstPiece([s[0]], Split(a[1..], sep), tail);
    }
  }

  /** Growing the first piece commutes with appending more pieces. */
  lemma SplitExtendsFirstPiece(prefix: string, rest: seq<string>, tail: seq<string>)
    requires |rest| > 0
    ensures [prefix + (rest + tail)[0]] + (rest + tail)[1..] == ([prefix + rest[0]] + rest[1..]) + tail
  {
    assert (rest + tail)[1..] == rest[1..] + tail;
  }
}
