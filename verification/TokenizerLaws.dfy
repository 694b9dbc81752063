/** What the tokens of an input are: their number, the runes they keep, when they can be read back, and when they are
    the fields of an ordinary comma-separated list. */
module TokenizerLaws {
  import opened Tokenizer

  // ----- number of tokens -----

  lemma {:induction false} SplitCount(sep: char, s: string, buf: string, b: bool)
    ensures |Split(sep, s, buf, b)| <= |s| + 1
    decreases |s|, 0
  {
    if s != "" {
      var ch := s[0];
      var braces := if ch == '{' then true else if ch == '}' then false else b;
      if ch == NUL {
        SplitCount(sep, s[1..], "", b);
      } else if ch == sep && !braces {
        AfterCount(sep, s[1..], buf, braces);
      } else {
        SplitCount(sep, s[1..], buf + [ch], braces);
      }
    }
  }

  lemma {:induction false} AfterCount(sep: char, s: string, buf: string, b: bool)
    ensures |AfterSeparator(sep, s, buf, b)| <= |s| + 1
    decreases |s|, 1
  {
    if s != "" {
      if s[0] == NUL {
        SplitCount(sep, s[1..], "", b);
      } else if s[0] == ' ' {
        AfterCount(sep, s[1..], buf, b);
      } else {
        SplitCount(sep, s[1..], [s[0]], b);
      }
    }
  }

  lemma TokenCount(sep: char, s: string)
    ensures 1 <= |Tokens(sep, s)| <= |s| + 1
  {
    SplitCount(sep, s, "", false);
  }

  // ----- what is kept -----

  /** What becomes of one rune. */
  datatype Fate = Kept | Nul | Separator | SkippedSpace

  /** The fate of every rune. `after` says that a separator has been met and only spaces since. */
  function Fates(sep: char, s: string, b: bool, after: bool): (f: seq<Fate>)
    ensures |f| == |s|
    decreases |s|
  {
    if s == "" then []
    else
      var ch := s[0];
      if ch == NUL then [Nul] + Fates(sep, s[1..], b, false)
      else if after then
        if ch == ' ' then [SkippedSpace] + Fates(sep, s[1..], b, true) else [Kept] + Fates(sep, s[1..], b, false)
      else
        var braces := if ch == '{' then true else if ch == '}' then false else b;
        if ch == sep && !braces then [Separator] + Fates(sep, s[1..], braces, true)
        else [Kept] + Fates(sep, s[1..], braces, false)
  }

  function KeptRunes(s: string, f: seq<Fate>): string
    requires |f| == |s|
  {
    if s == "" then "" else (if f[0] == Kept then [s[0]] else "") + KeptRunes(s[1..], f[1..])
  }

  function Concat(ts: seq<string>): string {
    if ts == [] then "" else ts[0] + Concat(ts[1..])
  }

  lemma ConcatCons(t: string, ts: seq<string>)
    ensures Concat([t] + ts) == t + Concat(ts)
  {
  }

  lemma KeptCons(x: Fate, s: string, f: seq<Fate>)
    requires s != "" && |f| == |s| - 1
    ensures KeptRunes(s, [x] + f) == (if x == Kept then [s[0]] else "") + KeptRunes(s[1..], f)
  {
  }

  lemma {:induction false} SplitKeeps(sep: char, s: string, buf: string, b: bool)
    ensures Concat(Split(sep, s, buf, b)) == buf + KeptRunes(s, Fates(sep, s, b, false))
    decreases |s|, 0
  {
    if s == "" {
      ConcatCons(buf, []);
    } else {
      var ch := s[0];
      var braces := if ch == '{' then true else if ch == '}' then false else b;
      var f := Fates(sep, s, b, false);
      KeptCons(f[0], s, f[1..]);
      assert f == [f[0]] + f[1..];
      if ch == NUL {
        assert f[1..] == Fates(sep, s[1..], b, false);
        SplitKeeps(sep, s[1..], "", b);
        ConcatCons(buf, Split(sep, s[1..], "", b));
      } else if ch == sep && !braces {
        assert f[1..] == Fates(sep, s[1..], braces, true);
        AfterKeeps(sep, s[1..], buf, braces);
      } else {
        assert f[1..] == Fates(sep, s[1..], braces, false);
        SplitKeeps(sep, s[1..], buf + [ch], braces);
      }
    }
  }

  lemma {:induction false} AfterKeeps(sep: char, s: string, buf: string, b: bool)
    ensures Concat(AfterSeparator(sep, s, buf, b)) == buf + KeptRunes(s, Fates(sep, s, b, true))
    decreases |s|, 1
  {
    if s == "" {
      ConcatCons(buf, []);
    } else {
      var f := Fates(sep, s, b, true);
      KeptCons(f[0], s, f[1..]);
      assert f == [f[0]] + f[1..];
      if s[0] == NUL {
        assert f[1..] == Fates(sep, s[1..], b, false);
        SplitKeeps(sep, s[1..], "", b);
        ConcatCons(buf, Split(sep, s[1..], "", b));
      } else if s[0] == ' ' {
        assert f[1..] == Fates(sep, s[1..], b, true);
        AfterKeeps(sep, s[1..], buf, b);
      } else {
        assert f[1..] == Fates(sep, s[1..], b, false);
        SplitKeeps(sep, s[1..], [s[0]], b);
        ConcatCons(buf, Split(sep, s[1..], [s[0]], b));
      }
    }
  }

  /** Position i opens a token: only skipped spaces lie between it and a separator that ended a token. */
  ghost predicate AfterDropped(f: seq<Fate>, i: nat, after: bool)
    requires i <= |f|
  {
    if i == 0 then after else f[i - 1] == Separator || (f[i - 1] == SkippedSpace && AfterDropped(f, i - 1, after))
  }

  /** Whether the scanner is inside braces when it comes to position i: the last brace before i decides, but one that
      opens a later token does not count. */
  ghost predicate BracesAt(s: string, f: seq<Fate>, i: nat, b: bool, after: bool)
    requires |f| == |s| && i <= |s|
  {
    if i == 0 then b
    else if s[i - 1] == '{' && !AfterDropped(f, i - 1, after) then true
    else if s[i - 1] == '}' && !AfterDropped(f, i - 1, after) then false
    else BracesAt(s, f, i - 1, b, after)
  }

  /** Exactly which runes are dropped, and why: all NUL runes; the spaces that would have opened a later token; the
      separators outside braces, unless they open a later token themselves. */
  lemma {:induction false} FatesMean(sep: char, s: string, b: bool, after: bool, i: nat)
    requires i < |s|
    ensures var f := Fates(sep, s, b, after);
      && (f[i] == Nul <==> s[i] == NUL)
      && (f[i] == SkippedSpace <==> s[i] == ' ' && AfterDropped(f, i, after))
      && (f[i] == Separator <==>
            s[i] == sep && s[i] != NUL && !AfterDropped(f, i, after) && !BracesAt(s, f, i + 1, b, after))
    decreases |s|
  {
    var f := Fates(sep, s, b, after);
    if i > 0 {
      var ch := s[0];
      var braces := if after || ch == NUL then b else if ch == '{' then true else if ch == '}' then false else b;
      var next := f[0] == Separator || f[0] == SkippedSpace;
      assert f[1..] == Fates(sep, s[1..], braces, next);
      FatesMean(sep, s[1..], braces, next, i - 1);
      Shifted(f, i, after, next);
      ShiftedBraces(s, f, i + 1, b, after, next, braces);
    }
  }

  lemma {:induction false} ShiftedBraces(s: string, f: seq<Fate>, i: nat,
                                         b: bool, after: bool, next: bool, braces: bool)
    requires |f| == |s| && 0 < i <= |f|
    requires f[0] == SkippedSpace ==> after
    requires next == (f[0] == Separator || f[0] == SkippedSpace)
    requires braces == if after then b else if s[0] == '{' then true else if s[0] == '}' then false else b
    ensures BracesAt(s, f, i, b, after) == BracesAt(s[1..], f[1..], i - 1, braces, next)
    decreases i
  {
    if i > 1 {
      Shifted(f, i - 1, after, next);
      ShiftedBraces(s, f, i - 1, b, after, next, braces);
    }
  }

  /** A token never opens inside braces, unless it is the first one. */
  lemma {:induction false} OpensOutside(sep: char, s: string, j: nat)
    requires j <= |s|
    ensures var f := Fates(sep, s, false, false); AfterDropped(f, j, false) ==> !BracesAt(s, f, j, false, false)
    decreases j
  {
    if j > 0 {
      FatesMean(sep, s, false, false, j - 1);
      OpensOutside(sep, s, j - 1);
    }
  }

  lemma {:induction false} NoBraceBetween(s: string, f: seq<Fate>, j: nat, i: nat)
    requires |f| == |s| && j <= i <= |s|
    requires forall m | j <= m < i :: s[m] != '{' && s[m] != '}'
    ensures BracesAt(s, f, i, false, false) == BracesAt(s, f, j, false, false)
    decreases i
  {
    if j < i {
      NoBraceBetween(s, f, j, i - 1);
    }
  }

  /** When a brace protects: a separator behind an opening brace, with no brace between them, still ends a token exactly
      if that brace opened a later token (and the separator does not itself open one). */
  lemma BraceProtects(sep: char, s: string, j: nat, i: nat)
    requires sep != '{' && sep != '}' && sep != NUL
    requires j < i < |s| && s[j] == '{' && s[i] == sep
    requires forall m | j < m < i :: s[m] != '{' && s[m] != '}'
    ensures var f := Fates(sep, s, false, false);
      f[i] == Separator <==> AfterDropped(f, j, false) && !AfterDropped(f, i, false)
  {
    var f := Fates(sep, s, false, false);
    FatesMean(sep, s, false, false, i);
    NoBraceBetween(s, f, j + 1, i);
    OpensOutside(sep, s, j);
  }

  lemma {:induction false} Shifted(f: seq<Fate>, i: nat, after: bool, next: bool)
    requires 0 < i <= |f|
    requires f[0] == SkippedSpace ==> after
    requires next == (f[0] == Separator || f[0] == SkippedSpace)
    ensures AfterDropped(f, i, after) == AfterDropped(f[1..], i - 1, next)
    decreases i
  {
    if i > 1 {
      Shifted(f, i - 1, after, next);
    }
  }

  /** The tokens, one after the other, are the input without its NUL runes, the separators that ended a token and the
      spaces skipped after those. */
  lemma TokensKeep(sep: char, s: string)
    ensures Concat(Tokens(sep, s)) == KeptRunes(s, Fates(sep, s, false, false))
  {
    SplitKeeps(sep, s, "", false);
  }

  // ----- reading back a rendered list -----

  predicate Plain(t: string, sep: char) {
    forall i | 0 <= i < |t| :: t[i] != sep && t[i] != '{' && t[i] != '}' && t[i] != NUL
  }

  function Spaces(n: nat): (r: string)
    ensures |r| == n && forall i | 0 <= i < n :: r[i] == ' '
  {
    seq(n, i => ' ')
  }

  /** Tokens after the first, each behind a separator and some spaces. */
  function RenderTail(sep: char, ts: seq<string>, gaps: seq<nat>): string
    requires |ts| == |gaps|
  {
    if ts == [] then "" else [sep] + Spaces(gaps[0]) + ts[0] + RenderTail(sep, ts[1..], gaps[1..])
  }

  /** Plain runes are collected. */
  lemma {:induction false} Collect(sep: char, t: string, rest: string, buf: string)
    requires Plain(t, sep)
    ensures Split(sep, t + rest, buf, false) == Split(sep, rest, buf + t, false)
    decreases |t|
  {
    if t == "" {
      assert t + rest == rest && buf + t == buf;
    } else {
      assert (t + rest)[1..] == t[1..] + rest;
      assert (buf + [t[0]]) + t[1..] == buf + t;
      Collect(sep, t[1..], rest, buf + [t[0]]);
    }
  }

  lemma {:induction false} SkipSpaces(sep: char, n: nat, rest: string, buf: string)
    ensures AfterSeparator(sep, Spaces(n) + rest, buf, false) == AfterSeparator(sep, rest, buf, false)
    decreases n
  {
    if n == 0 {
      assert Spaces(n) + rest == rest;
    } else {
      assert (Spaces(n) + rest)[1..] == Spaces(n - 1) + rest;
      SkipSpaces(sep, n - 1, rest, buf);
    }
  }

  /** A later token must be nonempty and must not start with a space. */
  predicate Later(t: string, sep: char) {
    t != "" && t[0] != ' ' && Plain(t, sep)
  }

  /** A separator, some spaces and a token: the token before is complete, and this one is collected. */
  lemma GapThenToken(sep: char, gap: nat, t: string, more: string, buf: string)
    requires sep != '{' && sep != '}' && sep != NUL && Later(t, sep)
    ensures Split(sep, [sep] + Spaces(gap) + t + more, buf, false) == [buf] + Split(sep, more, t, false)
  {
    var all := [sep] + Spaces(gap) + t + more;
    assert all[1..] == Spaces(gap) + (t + more);
    SkipSpaces(sep, gap, t + more, buf);
    assert (t + more)[1..] == t[1..] + more;
    Collect(sep, t[1..], more, [t[0]]);
    assert [t[0]] + t[1..] == t;
  }

  lemma TrailingEnds(sep: char, buf: string, trailing: string)
    requires sep != '{' && sep != '}' && sep != NUL
    requires trailing == "" || exists n: nat :: trailing == [sep] + Spaces(n)
    ensures Split(sep, trailing, buf, false) == [buf]
  {
    if trailing != "" {
      var n: nat :| trailing == [sep] + Spaces(n);
      assert trailing[1..] == Spaces(n) + "";
      SkipSpaces(sep, n, "", buf);
    }
  }

  lemma {:induction false} TailReadsBack(sep: char, ts: seq<string>, gaps: seq<nat>, buf: string, trailing: string)
    requires sep != '{' && sep != '}' && sep != NUL
    requires |ts| == |gaps| && forall i | 0 <= i < |ts| :: Later(ts[i], sep)
    requires trailing == "" || exists n: nat :: trailing == [sep] + Spaces(n)
    ensures Split(sep, RenderTail(sep, ts, gaps) + trailing, buf, false) == [buf] + ts
    decreases |ts|
  {
    if ts == [] {
      assert RenderTail(sep, ts, gaps) + trailing == trailing;
      TrailingEnds(sep, buf, trailing);
    } else {
      var more := RenderTail(sep, ts[1..], gaps[1..]) + trailing;
      assert RenderTail(sep, ts, gaps) + trailing == [sep] + Spaces(gaps[0]) + ts[0] + more;
      GapThenToken(sep, gaps[0], ts[0], more, buf);
      TailReadsBack(sep, ts[1..], gaps[1..], ts[0], trailing);
      assert [ts[0]] + ts[1..] == ts;
    }
  }

  /** A nonempty list of nonempty plain tokens, the later ones not starting with a space, rendered with separators and
      any spaces after them, with or without a trailing separator, is read back as it was. */
  lemma RoundTrip(sep: char, first: string, ts: seq<string>, gaps: seq<nat>, trailing: string)
    requires sep != '{' && sep != '}' && sep != NUL
    requires first != "" && Plain(first, sep)
    requires |ts| == |gaps| && forall i | 0 <= i < |ts| :: Later(ts[i], sep)
    requires trailing == "" || exists n: nat :: trailing == [sep] + Spaces(n)
    ensures Tokens(sep, first + RenderTail(sep, ts, gaps) + trailing) == [first] + ts
  {
    var tail := RenderTail(sep, ts, gaps) + trailing;
    assert first + RenderTail(sep, ts, gaps) + trailing == first + tail;
    Collect(sep, first, tail, "");
    assert "" + first == first;
    TailReadsBack(sep, ts, gaps, first, trailing);
  }

  // ----- comparison with an ordinary comma-separated list -----

  function InBraces(ch: char, b: bool): bool {
    if ch == '{' then true else if ch == '}' then false else b
  }

  /** The fields between separators that are outside braces, whatever they open. */
  function Fields(sep: char, s: string, b: bool): (fs: seq<string>)
    ensures |fs| >= 1
    decreases |s|
  {
    if s == "" then [""]
    else
      var braces := InBraces(s[0], b);
      var fs := Fields(sep, s[1..], braces);
      if s[0] == sep && !braces then [""] + fs else [[s[0]] + fs[0]] + fs[1..]
  }

  function TrimLeft(t: string): string
    decreases |t|
  {
    if t != "" && t[0] == ' ' then TrimLeft(t[1..]) else t
  }

  /** The later fields, trimmed on the left; a blank last one does not count. */
  function TrimmedTail(fs: seq<string>): seq<string>
    decreases |fs|
  {
    if fs == [] then []
    else if |fs| == 1 && TrimLeft(fs[0]) == "" then []
    else [TrimLeft(fs[0])] + TrimmedTail(fs[1..])
  }

  function CommaList(sep: char, s: string): seq<string> {
    [Fields(sep, s, false)[0]] + TrimmedTail(Fields(sep, s, false)[1..])
  }

  /** A separator comes before the next brace, if there is one. */
  predicate SeparatorFirst(sep: char, s: string) {
    s != "" && (s[0] == sep || (s[0] != '{' && s[0] != '}' && SeparatorFirst(sep, s[1..])))
  }

  /** The input holds a NUL rune, or a separator that ends a field is followed, after spaces only, by another one, or by
      an opening brace that has a separator behind it before any further brace. */
  predicate Misread(sep: char, s: string, b: bool)
    decreases |s|
  {
    s != "" &&
    if s[0] == NUL then true
    else if s[0] == sep && !InBraces(s[0], b) then
      TrimShorter(s[1..]);
      var t := TrimLeft(s[1..]);
      t != "" &&
      (t[0] == sep || t[0] == NUL || (t[0] == '{' && SeparatorFirst(sep, t[1..])) || Misread(sep, t[1..], t[0] == '{'))
    else Misread(sep, s[1..], InBraces(s[0], b))
  }

  lemma {:induction false} TrimShorter(t: string)
    ensures |TrimLeft(t)| <= |t| && (TrimLeft(t) != "" ==> TrimLeft(t)[0] != ' ')
    decreases |t|
  {
    if t != "" && t[0] == ' ' {
      TrimShorter(t[1..]);
    }
  }

  /** Leading spaces only lengthen the first field. */
  lemma {:induction false} FieldsTrim(sep: char, s: string, b: bool)
    requires sep != ' '
    ensures var t := TrimLeft(s);
      && |Fields(sep, s, b)| == |Fields(sep, t, b)| && Fields(sep, s, b)[1..] == Fields(sep, t, b)[1..]
      && TrimLeft(Fields(sep, s, b)[0]) == TrimLeft(Fields(sep, t, b)[0])
    decreases |s|
  {
    if s != "" && s[0] == ' ' {
      FieldsTrim(sep, s[1..], b);
      var fs := Fields(sep, s[1..], b);
      assert Fields(sep, s, b) == [[' '] + fs[0]] + fs[1..];
      assert ([' '] + fs[0])[1..] == fs[0];
    }
  }

  lemma {:induction false} AfterTrim(sep: char, s: string, buf: string)
    ensures AfterSeparator(sep, s, buf, false) == AfterSeparator(sep, TrimLeft(s), buf, false)
    decreases |s|
  {
    if s != "" && s[0] == ' ' {
      AfterTrim(sep, s[1..], buf);
    }
  }

  lemma {:induction false} AfterFirst(sep: char, s: string, buf: string, b: bool)
    ensures AfterSeparator(sep, s, buf, b)[0] == buf
    decreases |s|
  {
    if s != "" && s[0] == ' ' {
      AfterFirst(sep, s[1..], buf, b);
    }
  }

  /** The current token only grows, and never by a NUL rune. */
  lemma {:induction false} FirstToken(sep: char, s: string, buf: string, b: bool)
    ensures var t := Split(sep, s, buf, b)[0]; |t| >= |buf| && (NUL !in buf ==> NUL !in t)
    decreases |s|
  {
    if s != "" && s[0] != NUL {
      if s[0] == sep && !InBraces(s[0], b) {
        AfterFirst(sep, s[1..], buf, InBraces(s[0], b));
      } else {
        FirstToken(sep, s[1..], buf + [s[0]], InBraces(s[0], b));
      }
    }
  }

  /** A brace that is not seen lets the next separator end the token. */
  lemma {:induction false} EndsEarly(sep: char, s: string, buf: string)
    requires sep != '{' && sep != '}' && sep != NUL && SeparatorFirst(sep, s)
    ensures |Split(sep, s, buf, false)[0]| < |buf + Fields(sep, s, true)[0]|
    decreases |s|
  {
    if s[0] == sep {
      AfterFirst(sep, s[1..], buf, false);
    } else if s[0] != NUL {
      EndsEarly(sep, s[1..], buf + [s[0]]);
      assert Fields(sep, s, true)[0] == [s[0]] + Fields(sep, s[1..], true)[0];
    }
  }

  /** Without such a separator it makes no difference. */
  lemma {:induction false} NoDifference(sep: char, s: string, buf: string)
    requires sep != '{' && sep != '}' && !SeparatorFirst(sep, s)
    ensures Split(sep, s, buf, false) == Split(sep, s, buf, true)
    decreases |s|
  {
    if s != "" && s[0] != '{' && s[0] != '}' {
      NoDifference(sep, s[1..], if s[0] == NUL then "" else buf + [s[0]]);
    }
  }

  /** The tokens still to come are the fields still to come, the first of them behind what is collected. */
  predicate ReadAsFields(sep: char, s: string, buf: string, b: bool) {
    var fs := Fields(sep, s, b);
    Split(sep, s, buf, b) == [buf + fs[0]] + TrimmedTail(fs[1..])
  }

  lemma {:induction false} SplitIsCommaList(sep: char, s: string, buf: string, b: bool)
    requires sep != ' ' && sep != '{' && sep != '}' && sep != NUL
    ensures ReadAsFields(sep, s, buf, b) <==> !Misread(sep, s, b)
    decreases |s|
  {
    var fs := Fields(sep, s, b);
    if s == "" {
      assert buf + fs[0] == buf;
    } else if s[0] == NUL {
      assert Split(sep, s, buf, b)[0] == buf != buf + fs[0];
    } else if s[0] != sep || InBraces(s[0], b) {
      var gs := Fields(sep, s[1..], InBraces(s[0], b));
      SplitIsCommaList(sep, s[1..], buf + [s[0]], InBraces(s[0], b));
      assert (buf + [s[0]]) + gs[0] == buf + fs[0];
      assert fs[1..] == gs[1..];
    } else {
      var t := TrimLeft(s[1..]);
      TrimShorter(s[1..]);
      AfterTrim(sep, s[1..], buf);
      assert fs[1..] == Fields(sep, s[1..], false) && buf + fs[0] == buf;
      FieldsTrim(sep, s[1..], false);
      if t != "" {
        if t[0] != sep && t[0] != NUL && !(t[0] == '{' && SeparatorFirst(sep, t[1..])) {
          SplitIsCommaList(sep, t[1..], [t[0]], t[0] == '{');
        }
        LaterField(sep, s[1..], t, buf);
      }
    }
  }

  /** What follows a separator, given the same for what follows the rune that is not looked at. */
  lemma LaterField(sep: char, r: string, t: string, buf: string)
    requires sep != ' ' && sep != '{' && sep != '}' && sep != NUL
    requires t == TrimLeft(r) != "" && t[0] != ' '
    requires t[0] != sep && t[0] != NUL && !(t[0] == '{' && SeparatorFirst(sep, t[1..])) ==>
      (ReadAsFields(sep, t[1..], [t[0]], t[0] == '{') <==> !Misread(sep, t[1..], t[0] == '{'))
    ensures AfterSeparator(sep, t, buf, false) == [buf] + TrimmedTail(Fields(sep, r, false)) <==>
            !(t[0] == sep || t[0] == NUL || (t[0] == '{' && SeparatorFirst(sep, t[1..]))
              || Misread(sep, t[1..], t[0] == '{'))
  {
    FieldsTrim(sep, r, false);
    var gs, hs := Fields(sep, r, false), Fields(sep, t, false);
    if t[0] == sep {
      var tail := Split(sep, t[1..], [t[0]], false);
      FirstToken(sep, t[1..], [t[0]], false);
      assert |gs| >= 2 && TrimmedTail(gs)[0] == "" != tail[0];
      SameTail(buf, tail, TrimmedTail(gs));
    } else {
      var us := Fields(sep, t[1..], t[0] == '{');
      assert hs == [[t[0]] + us[0]] + us[1..];
      assert TrimLeft(gs[0]) == hs[0] != "";
      assert TrimmedTail(gs) == [hs[0]] + TrimmedTail(us[1..]);
      var tail := if t[0] == NUL then Split(sep, t[1..], "", false) else Split(sep, t[1..], [t[0]], false);
      SameTail(buf, tail, TrimmedTail(gs));
      if t[0] == NUL {
        FirstToken(sep, t[1..], "", false);
        assert hs[0][0] == NUL;
        assert tail[0] != TrimmedTail(gs)[0];
      } else if t[0] == '{' {
        if SeparatorFirst(sep, t[1..]) {
          EndsEarly(sep, t[1..], "{");
          assert tail[0] != TrimmedTail(gs)[0];
        } else {
          NoDifference(sep, t[1..], "{");
        }
      }
    }
  }

  lemma SameTail(x: string, a: seq<string>, b: seq<string>)
    ensures [x] + a == [x] + b <==> a == b
  {
    assert ([x] + a)[1..] == a && ([x] + b)[1..] == b;
  }

  /** For every input: the tokens are the comma-separated fields, with commas in braces protected, trimmed on the left
      behind a comma and without a blank last one, exactly when nothing is misread. */
  lemma TokensAreFieldsUnlessMisread(s: string)
    ensures Tokens(',', s) == CommaList(',', s) <==> !Misread(',', s, false)
  {
    SplitIsCommaList(',', s, "", false);
    assert "" + Fields(',', s, false)[0] == Fields(',', s, false)[0];
  }

  /** An empty field between commas is not delivered. */
  lemma DoubledExample()
    ensures Tokens(',', "a,,b") == ["a", ",b"]
  {
    assert "a,,b"[1..] == ",,b" && ",,b"[1..] == ",b" && ",b"[1..] == "b" && "b"[1..] == "";
    assert "," + ['b'] == ",b" && "" + ['a'] == "a";
    assert Split(',', "b", ",", false) == [",b"];
    assert Split(',', ",,b", "a", false) == ["a"] + Split(',', "b", ",", false);
  }

  /** An instance of `BraceProtects`: a brace that opens a later token does not protect its separators. */
  lemma LaterBraceExample()
    ensures Tokens(',', "x,{a,b}") == ["x", "{a", "b}"]
  {
    assert "x,{a,b}"[1..] == ",{a,b}" && ",{a,b}"[1..] == "{a,b}" && "{a,b}"[1..] == "a,b}" && "a,b}"[1..] == ",b}";
    assert ",b}"[1..] == "b}" && "b}"[1..] == "}" && "}"[1..] == "";
    assert "" + ['x'] == "x" && "{" + ['a'] == "{a" && "b" + ['}'] == "b}";
    assert Split(',', "}", "b", false) == ["b}"];
    assert Split(',', ",b}", "{a", false) == ["{a"] + Split(',', "}", "b", false);
    assert Split(',', "a,b}", "{", false) == Split(',', ",b}", "{a", false);
    assert Split(',', ",{a,b}", "x", false) == ["x"] + Split(',', "a,b}", "{", false);
  }
}
