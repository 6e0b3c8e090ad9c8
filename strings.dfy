/** The java.lang.String and C string queries the parsers use. */
module Strings {
  /** startsWith. */
  predicate StartsWith(s: string, prefix: string)
  {
    |prefix| <= |s| && s[..|prefix|] == prefix
  }

  predicate OccursAt(s: string, pattern: string, i: int)
  {
    0 <= i && i + |pattern| <= |s| && s[i..i + |pattern|] == pattern
  }

  /** contains, and C's strstr(s, pattern) != NULL. */
  predicate Contains(s: string, pattern: string)
  {
    exists i :: 0 <= i <= |s| && OccursAt(s, pattern, i)
  }

  predicate IsDigit(c: char)
  {
    '0' <= c <= '9'
  }

  /** The pieces between single spaces, before trailing empty pieces are removed. */
  function SpacePieces(s: string): (r: seq<string>)
    ensures |r| >= 1
  {
    if |s| == 0 then [""]
    else if s[0] == ' ' then [""] + SpacePieces(s[1..])
    else var rest := SpacePieces(s[1..]); [[s[0]] + rest[0]] + rest[1..]
  }

  function DropTrailingEmpty(pieces: seq<string>): (r: seq<string>)
    ensures |r| <= |pieces| && r == pieces[..|r|]
    ensures |r| > 0 ==> r[|r| - 1] != ""
    ensures forall i :: |r| <= i < |pieces| ==> pieces[i] == ""
  {
    if |pieces| > 0 && pieces[|pieces| - 1] == "" then DropTrailingEmpty(pieces[..|pieces| - 1]) else pieces
  }

  /** String.split(" "): split at every space and drop the trailing empty strings. */
  function SplitOnSpace(s: string): seq<string>
  {
    DropTrailingEmpty(SpacePieces(s))
  }

  /** The pieces contain no space, and joining them with single spaces gives back the string. */
  lemma SpacePiecesJoin(s: string)
    ensures forall k :: 0 <= k < |SpacePieces(s)| ==> ' ' !in SpacePieces(s)[k]
    ensures Join(SpacePieces(s)) == s
  {
    SpacePiecesNoSpace(s);
    SpacePiecesJoinBack(s);
  }

  lemma {:induction false} SpacePiecesNoSpace(s: string)
    ensures forall k :: 0 <= k < |SpacePieces(s)| ==> ' ' !in SpacePieces(s)[k]
  {
    if |s| > 0 {
      SpacePiecesNoSpace(s[1..]);
      var rest := SpacePieces(s[1..]);
      if s[0] != ' ' {
        var r := SpacePieces(s);
        assert r[0] == [s[0]] + rest[0];
        forall k | 1 <= k < |r|
          ensures r[k] == rest[k]
        {
        }
      }
    }
  }

  lemma {:induction false} SpacePiecesJoinBack(s: string)
    ensures Join(SpacePieces(s)) == s
  {
    if |s| > 0 {
      SpacePiecesJoinBack(s[1..]);
      var rest := SpacePieces(s[1..]);
      if s[0] == ' ' {
        JoinCons("", rest);
        assert s == [' '] + s[1..];
      } else {
        assert rest == [rest[0]] + rest[1..];
        JoinCons(rest[0], rest[1..]);
        JoinCons([s[0]] + rest[0], rest[1..]);
        assert s == [s[0]] + s[1..];
      }
    }
  }

  /** The pieces joined with single spaces. */
  function Join(pieces: seq<string>): string
    requires |pieces| >= 1
  {
    if |pieces| == 1 then pieces[0] else Join(pieces[..|pieces| - 1]) + " " + pieces[|pieces| - 1]
  }

  lemma {:induction false} JoinCons(head: string, tail: seq<string>)
    ensures |tail| == 0 ==> Join([head] + tail) == head
    ensures |tail| > 0 ==> Join([head] + tail) == head + " " + Join(tail)
    decreases |tail|
  {
    if |tail| > 1 {
      assert ([head] + tail)[..|tail|] == [head] + tail[..|tail| - 1];
      JoinCons(head, tail[..|tail| - 1]);
    } else if |tail| == 1 {
      assert ([head] + tail)[..1] == [head];
    }
  }
}
