/** Joining and splitting texts. */
module Texts {
  function Join(parts: seq<string>, sep: char): string {
    if parts == [] then ""
    else if |parts| == 1 then parts[0]
    else parts[0] + [sep] + Join(parts[1..], sep)
  }

  /** Cut at every separator; an empty text is one empty piece. */
  function Split(s: string, sep: char): (ps: seq<string>)
    ensures |ps| >= 1
    decreases |s|
  {
    if s == "" then [""]
    else
      var ps := Split(s[1..], sep);
      if s[0] == sep then [""] + ps else [[s[0]] + ps[0]] + ps[1..]
  }

  /** Joining the pieces gives the text back. */
  lemma {:induction false} SplitJoins(s: string, sep: char)
    ensures Join(Split(s, sep), sep) == s
    decreases |s|
  {
    if s != "" {
      SplitJoins(s[1..], sep);
      var ps := Split(s[1..], sep);
      assert s == [s[0]] + s[1..];
      if s[0] == sep {
        assert ([""] + ps)[1..] == ps;
      } else {
        assert ([[s[0]] + ps[0]] + ps[1..])[1..] == ps[1..];
      }
    }
  }

  /** Pieces without a separator are found again. */
  lemma {:induction false} JoinSplits(ps: seq<string>, sep: char)
    requires |ps| >= 1 && forall i | 0 <= i < |ps| :: sep !in ps[i]
    ensures Split(Join(ps, sep), sep) == ps
    decreases |ps|
  {
    if |ps| == 1 {
      SplitPiece(ps[0], "", sep);
      assert ps[0] + "" == ps[0];
    } else {
      JoinSplits(ps[1..], sep);
      var rest := [sep] + Join(ps[1..], sep);
      assert rest[1..] == Join(ps[1..], sep);
      SplitPiece(ps[0], rest, sep);
      assert ps[0] + [sep] + Join(ps[1..], sep) == ps[0] + rest;
      assert ps[0] + "" == ps[0] && ([""] + ps[1..])[1..] == ps[1..];
    }
  }

  /** A text without a separator only lengthens the first piece. */
  lemma {:induction false} SplitPiece(p: string, rest: string, sep: char)
    requires sep !in p
    ensures var ps := Split(rest, sep); Split(p + rest, sep) == [p + ps[0]] + ps[1..]
    decreases |p|
  {
    if p == "" {
      assert p + rest == rest && p + Split(rest, sep)[0] == Split(rest, sep)[0];
    } else {
      SplitPiece(p[1..], rest, sep);
      var ps := Split(rest, sep);
      assert (p + rest)[0] == p[0] && (p + rest)[1..] == p[1..] + rest;
      assert [p[0]] + (p[1..] + ps[0]) == p + ps[0];
    }
  }

  /** One piece more than there are separators: in particular one alone if there is none. */
  lemma {:induction false} OnePiece(s: string, sep: char)
    ensures |Split(s, sep)| == 1 <==> sep !in s
    decreases |s|
  {
    if s != "" {
      OnePiece(s[1..], sep);
      assert s == [s[0]] + s[1..];
    }
  }
}
