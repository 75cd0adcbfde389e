/** Splitting a string at a separator and joining the pieces again. */
module Splitting {

  /** `s.split(sep)` for a separator of one character. */
  function SplitOn(s: string, sep: char): (r: seq<string>)
    ensures |r| >= 1
    decreases |s|
  {
    if s == [] then [""]
    else
      var rest := SplitOn(s[1..], sep);
      if s[0] == sep then [""] + rest else [[s[0]] + rest[0]] + rest[1..]
  }

  /** `p.join(sep)`. */
  function JoinOn(p: seq<string>, sep: char): string {
    if p == [] then "" else if |p| == 1 then p[0] else p[0] + [sep] + JoinOn(p[1..], sep)
  }

  lemma JoinOfLonger(p: seq<string>, sep: char, c: char)
    requires p != []
    ensures JoinOn([[c] + p[0]] + p[1..], sep) == [c] + JoinOn(p, sep)
  {
    assert ([[c] + p[0]] + p[1..])[1..] == p[1..];
  }

  lemma {:induction false} JoinOfSplit(s: string, sep: char)
    ensures JoinOn(SplitOn(s, sep), sep) == s
    ensures forall piece | piece in SplitOn(s, sep) :: sep !in piece
    decreases |s|
  {
    hide JoinOn;
    if s == [] {
      JoinOfSingle("", sep);
    } else {
      JoinOfSplit(s[1..], sep);
      var rest := SplitOn(s[1..], sep);
      assert s == [s[0]] + s[1..];
      if s[0] == sep { JoinAfterEmpty(rest, sep); } else { JoinOfLonger(rest, sep, s[0]); }
    }
  }

  lemma JoinOfSingle(piece: string, sep: char)
    ensures JoinOn([piece], sep) == piece
  {
  }

  lemma JoinAfterEmpty(p: seq<string>, sep: char)
    requires p != []
    ensures JoinOn([""] + p, sep) == [sep] + JoinOn(p, sep)
  {
    assert ([""] + p)[1..] == p;
  }

  lemma {:induction false} SplitOfOne(piece: string, sep: char)
    requires sep !in piece
    ensures SplitOn(piece, sep) == [piece]
  {
    if piece == [] {
    } else {
      SplitOfOne(piece[1..], sep);
      assert piece == [piece[0]] + piece[1..];
    }
  }

  lemma {:induction false} SplitOfPrefixed(piece: string, rest: string, sep: char)
    requires sep !in piece
    ensures SplitOn(piece + [sep] + rest, sep) == [piece] + SplitOn(rest, sep)
  {
    var s := piece + [sep] + rest;
    if piece == [] {
      assert s[1..] == rest && s[0] == sep;
      assert piece == "";
    } else {
      SplitOfPrefixed(piece[1..], rest, sep);
      assert s[1..] == piece[1..] + [sep] + rest;
      assert [s[0]] + piece[1..] == piece;
      assert ([piece[1..]] + SplitOn(rest, sep))[1..] == SplitOn(rest, sep);
    }
  }

  lemma {:induction false} SplitOfJoin(p: seq<string>, sep: char)
    requires p != [] && forall i | 0 <= i < |p| :: sep !in p[i]
    ensures SplitOn(JoinOn(p, sep), sep) == p
  {
    if |p| == 1 {
      SplitOfOne(p[0], sep);
    } else {
      SplitOfJoin(p[1..], sep);
      SplitOfPrefixed(p[0], JoinOn(p[1..], sep), sep);
    }
  }

  lemma {:induction false} JoinMembers(p: seq<string>, sep: char, c: char)
    requires c != sep
    ensures c in JoinOn(p, sep) <==> exists i :: 0 <= i < |p| && c in p[i]
  {
    if |p| <= 1 {
    } else {
      JoinMembers(p[1..], sep, c);
      if exists i :: 0 <= i < |p| && c in p[i] {
        var i :| 0 <= i < |p| && c in p[i];
        if i > 0 { assert c in p[1..][i - 1]; }
      }
      if exists i :: 0 <= i < |p| - 1 && c in p[1..][i] {
        var i :| 0 <= i < |p| - 1 && c in p[1..][i];
        assert c in p[i + 1];
      }
    }
  }

  lemma {:induction false} SplitOfConcat(a: string, b: string, sep: char)
    ensures SplitOn(a + [sep] + b, sep) == SplitOn(a, sep) + SplitOn(b, sep)
    decreases |a|
  {
    var s := a + [sep] + b;
    if a == "" {
      assert s[0] == sep && s[1..] == b;
    } else {
      SplitOfConcat(a[1..], b, sep);
      assert s[0] == a[0] && s[1..] == a[1..] + [sep] + b;
      SplitFirst(a, SplitOn(b, sep), sep);
    }
  }

  lemma SplitFirst(a: string, tail: seq<string>, sep: char)
    requires a != ""
    ensures var rest := SplitOn(a[1..], sep);
            SplitOn(a, sep) + tail ==
            if a[0] == sep then [""] + (rest + tail) else [[a[0]] + (rest + tail)[0]] + (rest + tail)[1..]
  {
    var rest := SplitOn(a[1..], sep);
    assert (rest + tail)[0] == rest[0] && (rest + tail)[1..] == rest[1..] + tail;
  }
}
