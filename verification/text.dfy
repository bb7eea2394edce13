/**
 The two JavaScript string operations the guard relies on:
 `String.prototype.split` with a one-character separator, and
 `Array.prototype.join('')` over strings (here `Concat`).
 */
module Text {

  /** `s.split(sep)`: the maximal separator-free pieces of `s`, in order.
      An empty string splits into one empty piece, as in JavaScript. */
  function Split(s: string, sep: char): (parts: seq<string>)
    ensures |parts| >= 1
    ensures forall i :: 0 <= i < |parts| ==> sep !in parts[i]
    decreases |s|
  {
    if |s| == 0 then [""]
    else
      var rest := Split(s[1..], sep);
      if s[0] == sep then [""] + rest
      else [[s[0]] + rest[0]] + rest[1..]
  }

  /** `parts.join(sep)` for a non-empty list of pieces. */
  function Join(parts: seq<string>, sep: char): string
    requires |parts| >= 1
    decreases |parts|
  {
    if |parts| == 1 then parts[0] else parts[0] + [sep] + Join(parts[1..], sep)
  }

  /** `ss.join('')`: the pieces one after another, no separator. Its length is
      the sum of the lengths of the pieces. */
  function Concat(ss: seq<string>): (r: string)
    ensures |r| == TotalLength(ss)
    decreases |ss|
  {
    if |ss| == 0 then "" else ss[0] + Concat(ss[1..])
  }

  /** The sum of the lengths of the pieces. */
  function TotalLength(ss: seq<string>): nat
    decreases |ss|
  {
    if |ss| == 0 then 0 else |ss[0]| + TotalLength(ss[1..])
  }

  /** Joining the pieces of a split gives back the original string. */
  lemma {:induction false} JoinSplit(s: string, sep: char)
    ensures Join(Split(s, sep), sep) == s
    decreases |s|
  {
    if |s| > 0 {
      var rest := Split(s[1..], sep);
      JoinSplit(s[1..], sep);
      assert Join(rest, sep) == s[1..];
      if s[0] == sep {
        var parts := [""] + rest;
        assert parts[1..] == rest;
        assert s == [s[0]] + s[1..];
      } else {
        var parts := [[s[0]] + rest[0]] + rest[1..];
        assert parts[1..] == rest[1..];
        if |rest| == 1 {
          assert s == [s[0]] + s[1..];
        } else {
          assert Join(rest, sep) == rest[0] + [sep] + Join(rest[1..], sep);
          assert s == [s[0]] + s[1..];
        }
      }
    }
  }

  /** A separator-free string is a single piece. */
  lemma {:induction false} SplitWithoutSeparator(a: string, sep: char)
    requires sep !in a
    ensures Split(a, sep) == [a]
    decreases |a|
  {
    if |a| > 0 {
      SplitWithoutSeparator(a[1..], sep);
      assert [a[0]] + a[1..] == a;
    }
  }

  /** A separator-free prefix followed by the separator is split off as the first piece. */
  lemma {:induction false} SplitAfterPiece(a: string, sep: char, rest: string)
    requires sep !in a
    ensures Split(a + [sep] + rest, sep) == [a] + Split(rest, sep)
    decreases |a|
  {
    var s := a + [sep] + rest;
    if |a| == 0 {
      assert s == [sep] + rest;
      assert s[1..] == rest;
    } else {
      assert s[1..] == a[1..] + [sep] + rest;
      SplitAfterPiece(a[1..], sep, rest);
      assert [a[0]] + a[1..] == a;
    }
  }

  /** A join of at least two pieces starts with the first two pieces around a
      separator; what follows is empty or starts with another separator. */
  lemma JoinFirstTwo(parts: seq<string>, sep: char)
    requires |parts| >= 2
    ensures Join(parts, sep) == parts[0] + [sep] + parts[1]
              + (if |parts| == 2 then "" else [sep] + Join(parts[2..], sep))
  {
    assert parts[1..][1..] == parts[2..];
  }

  /** The first two pieces: a separator-free string is one piece; otherwise the
      first piece, the separator and the second piece start the string and are
      followed by its end or by another separator. */
  lemma FirstTwoPieces(s: string, sep: char)
    ensures sep !in s ==> Split(s, sep) == [s]
    ensures sep in s ==> var parts := Split(s, sep);
              && |parts| >= 2
              && parts[0] + [sep] + parts[1] <= s
              && (|parts[0] + [sep] + parts[1]| == |s| || s[|parts[0] + [sep] + parts[1]|] == sep)
  {
    var parts := Split(s, sep);
    JoinSplit(s, sep);
    if sep !in s {
      SplitWithoutSeparator(s, sep);
    } else {
      var head := parts[0] + [sep] + parts[1];
      JoinFirstTwo(parts, sep);
      if |parts| > 2 {
        var tail := [sep] + Join(parts[2..], sep);
        assert s == head + tail;
        assert s[|head|] == tail[0];
      }
    }
  }

  /** Splitting a join of separator-free pieces gives back the pieces:
      the other half of the round trip. */
  lemma {:induction false} SplitJoin(parts: seq<string>, sep: char)
    requires |parts| >= 1
    requires forall i :: 0 <= i < |parts| ==> sep !in parts[i]
    ensures Split(Join(parts, sep), sep) == parts
    decreases |parts|
  {
    if |parts| == 1 {
      SplitWithoutSeparator(parts[0], sep);
    } else {
      SplitJoin(parts[1..], sep);
      SplitAfterPiece(parts[0], sep, Join(parts[1..], sep));
      assert [parts[0]] + parts[1..] == parts;
    }
  }

  /** Concatenation distributes over sequence append. */
  lemma {:induction false} ConcatAppend(ss: seq<string>, tt: seq<string>)
    ensures Concat(ss + tt) == Concat(ss) + Concat(tt)
    decreases |ss|
  {
    if |ss| == 0 {
      assert ss + tt == tt;
    } else {
      assert (ss + tt)[1..] == ss[1..] + tt;
      ConcatAppend(ss[1..], tt);
    }
  }

  /** Piece `i` sits, unchanged, between the pieces before it and the pieces after it. */
  lemma {:induction false} ConcatAt(ss: seq<string>, i: nat)
    requires i < |ss|
    ensures Concat(ss) == Concat(ss[..i]) + ss[i] + Concat(ss[i + 1..])
  {
    var tail := [ss[i]] + ss[i + 1..];
    assert ss == ss[..i] + tail;
    ConcatAppend(ss[..i], tail);
    assert tail[1..] == ss[i + 1..];
    assert Concat(tail) == ss[i] + Concat(ss[i + 1..]);
  }
}
