/**
 * The two pieces of java.lang.String the core relies on: String.split with a
 * one-character literal separator and limit 0 (the form used on CSV header
 * lines and on dotted field paths), and its partner String.join.
 */
module JavaText {

  /** String.indexOf(char): the first index of c in s, or -1. */
  function IndexOf(s: string, c: char): (r: int)
    ensures -1 <= r < |s|
    ensures r == -1 <==> c !in s
    ensures 0 <= r ==> s[r] == c && c !in s[..r]
  {
    if s == [] then -1
    else if s[0] == c then 0
    else
      var k := IndexOf(s[1..], c);
      if k == -1 then -1
      else
        assert s[..k + 1] == [s[0]] + s[1..][..k];
        k + 1
  }

  /**
   * Every piece between two occurrences of sep, trailing empty pieces
   * included (what String.split returns for a negative limit).
   */
  function Pieces(s: string, sep: char): (r: seq<string>)
    ensures |r| >= 1
    decreases |s|
  {
    var i := IndexOf(s, sep);
    if i < 0 then [s] else [s[..i]] + Pieces(s[i + 1..], sep)
  }

  /** No piece contains the separator, and there is more than one piece exactly when it occurs. */
  lemma {:induction false} PiecesAreSeparatorFree(s: string, sep: char)
    ensures forall k :: 0 <= k < |Pieces(s, sep)| ==> sep !in Pieces(s, sep)[k]
    ensures |Pieces(s, sep)| == 1 <==> sep !in s
    decreases |s|
  {
    var i := IndexOf(s, sep);
    if i >= 0 {
      var rest := s[i + 1..];
      PiecesAreSeparatorFree(rest, sep);
      assert Pieces(s, sep) == [s[..i]] + Pieces(rest, sep);
    }
  }

  /** String.join with a one-character delimiter. */
  function Join(parts: seq<string>, sep: char): string
  {
    if |parts| == 0 then ""
    else if |parts| == 1 then parts[0]
    else parts[0] + [sep] + Join(parts[1..], sep)
  }

  /** What limit 0 adds to the pieces: every trailing empty string is removed. */
  function StripTrailingEmpty(parts: seq<string>): (r: seq<string>)
    ensures r <= parts
    ensures r == [] || r[|r| - 1] != ""
    ensures forall i :: |r| <= i < |parts| ==> parts[i] == ""
  {
    if |parts| == 0 || parts[|parts| - 1] != "" then parts
    else StripTrailingEmpty(parts[..|parts| - 1])
  }

  /**
   * String.split(Pattern.quote(sep)) with limit 0. When sep does not occur
   * the input comes back whole, even when it is empty; otherwise the pieces
   * come back with the trailing empty ones dropped. Nothing is trimmed or
   * unquoted.
   */
  function Split(s: string, sep: char): seq<string>
  {
    if IndexOf(s, sep) < 0 then [s] else StripTrailingEmpty(Pieces(s, sep))
  }

  /** Join of a first part followed by at least one more. */
  lemma JoinCons(first: string, rest: seq<string>, sep: char)
    requires |rest| >= 1
    ensures Join([first] + rest, sep) == first + [sep] + Join(rest, sep)
  {
    assert ([first] + rest)[1..] == rest;
  }

  /** A string is its prefix, the character at i and its suffix. */
  lemma Reassemble(s: string, i: nat)
    requires i < |s|
    ensures s[..i] + [s[i]] + s[i + 1..] == s
  {
  }

  /** Joining the pieces gives back the string they were cut from. */
  lemma {:induction false} JoinPieces(s: string, sep: char)
    ensures Join(Pieces(s, sep), sep) == s
    decreases |s|
  {
    var i := IndexOf(s, sep);
    if i >= 0 {
      var rest := s[i + 1..];
      var tail := Pieces(rest, sep);
      assert Pieces(s, sep) == [s[..i]] + tail;
      JoinPieces(rest, sep);
      assert Join(tail, sep) == rest;
      JoinCons(s[..i], tail, sep);
      assert Join(Pieces(s, sep), sep) == s[..i] + [sep] + rest;
      Reassemble(s, i);
    }
  }

  /** Cutting a join of separator-free parts gives the parts back. */
  lemma {:induction false} PiecesJoin(parts: seq<string>, sep: char)
    requires |parts| >= 1
    requires forall k :: 0 <= k < |parts| ==> sep !in parts[k]
    ensures Pieces(Join(parts, sep), sep) == parts
  {
    if |parts| > 1 {
      var head, tail := parts[0], Join(parts[1..], sep);
      var s := Join(parts, sep);
      assert s == head + [sep] + tail;
      assert s[..|head|] == head;
      assert s[|head|] == sep;
      assert IndexOf(s, sep) == |head|;
      assert s[|head| + 1..] == tail;
      PiecesJoin(parts[1..], sep);
      assert parts == [head] + parts[1..];
    }
  }

  /**
   * A header written out with the separator is read back by Split as the
   * same sequence, provided no name contains the separator and the last name
   * is not empty (limit 0 would drop it).
   */
  lemma SplitJoin(parts: seq<string>, sep: char)
    requires |parts| >= 1
    requires forall k :: 0 <= k < |parts| ==> sep !in parts[k]
    requires |parts| == 1 || parts[|parts| - 1] != ""
    ensures Split(Join(parts, sep), sep) == parts
  {
    PiecesJoin(parts, sep);
    var s := Join(parts, sep);
    PiecesAreSeparatorFree(s, sep);
    if |parts| == 1 {
      assert sep !in s;
    } else {
      assert sep in s;
    }
  }

  /** Split never yields more pieces than there are pieces between separators. */
  lemma SplitIsPrefixOfPieces(s: string, sep: char)
    ensures Split(s, sep) <= Pieces(s, sep)
    ensures forall k :: 0 <= k < |Split(s, sep)| ==> sep !in Split(s, sep)[k]
  {
    PiecesAreSeparatorFree(s, sep);
    if IndexOf(s, sep) < 0 {
      assert Pieces(s, sep) == [s];
    }
  }
}
