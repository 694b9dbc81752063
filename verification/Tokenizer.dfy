/** The tokenizer that cuts an override value into slice elements. The object scans with one rune of look-ahead that it
    carries from one call to the next; `Split` is what its loop computes, as a function of the whole input. */
module Tokenizer {
  const NUL := '\0'

  // ----- the tokens of an input -----

  /** The tokens still to come when `buf` has been collected so far and no separator has just been met. A NUL rune reads
      like the end of input, but more input follows it. */
  function Split(sep: char, s: string, buf: string, inBraces: bool): (ts: seq<string>)
    ensures |ts| >= 1
    decreases |s|, 0
  {
    if s == "" then [buf]
    else
      var ch := s[0];
      if ch == NUL then [buf] + Split(sep, s[1..], "", inBraces)
      else
        var braces := if ch == '{' then true else if ch == '}' then false else inBraces;
        if ch == sep && !braces then AfterSeparator(sep, s[1..], buf, braces)
        else Split(sep, s[1..], buf + [ch], braces)
  }

  /** The tokens still to come after a separator: spaces are skipped, and the next rune starts the next token without
      being looked at, so neither a brace nor a separator counts there. */
  function AfterSeparator(sep: char, s: string, buf: string, inBraces: bool): (ts: seq<string>)
    ensures |ts| >= 1
    decreases |s|, 1
  {
    if s == "" then [buf]
    else if s[0] == NUL then [buf] + Split(sep, s[1..], "", inBraces)
    else if s[0] == ' ' then AfterSeparator(sep, s[1..], buf, inBraces)
    else [buf] + Split(sep, s[1..], [s[0]], inBraces)
  }

  function Tokens(sep: char, s: string): seq<string> {
    Split(sep, s, "", false)
  }

  // ----- the scanner -----

  class SliceTokenizer {
    const separator: char
    var rest: string          // what the reader has not delivered yet
    var atEof: bool
    var buf: string
    var inBraces: bool
    var unparsedRune: char    // NUL when there is none

    predicate Valid()
      reads this
    {
      atEof ==> rest == "" && unparsedRune == NUL
    }

    /** The tokens that the scanner will still deliver. */
    function Yet(): seq<string>
      reads this
    {
      if unparsedRune != NUL then Split(separator, rest, buf + [unparsedRune], inBraces)
      else if atEof && buf == "" then []
      else Split(separator, rest, buf, inBraces)
    }

    /** The same, once the text of the current token has been taken. */
    function YetAfterText(): seq<string>
      reads this
    {
      if unparsedRune != NUL then Split(separator, rest, [unparsedRune], inBraces)
      else if atEof then []
      else Split(separator, rest, "", inBraces)
    }

    constructor (str: string, separator: char)
      ensures Valid() && this.separator == separator && Yet() == Tokens(separator, str)
    {
      this.separator := separator;
      rest, atEof, buf, inBraces, unparsedRune := str, false, "", false, NUL;
    }

    method ReadRune() returns (ch: char)
      requires Valid() && unparsedRune == NUL
      modifies this
      ensures Valid() && buf == old(buf) && inBraces == old(inBraces) && unparsedRune == NUL
      ensures old(rest) == "" ==> ch == NUL && atEof && rest == ""
      ensures old(rest) != "" ==> ch == old(rest[0]) && rest == old(rest[1..]) && !atEof
    {
      if rest == "" {
        atEof := true;
        return NUL;
      }
      ch := rest[0];
      rest := rest[1..];
    }

    /** One more token, if there is one: it is the first of those still to come, and the others stay to come. */
    method Scan() returns (more: bool)
      requires Valid()
      modifies this
      ensures Valid()
      ensures more <==> old(Yet()) != []
      ensures more ==> [buf] + YetAfterText() == old(Yet())
      ensures !more ==> buf == "" && Yet() == []
    {
      ghost var tokens := Yet();
      var sepFound := false;
      if unparsedRune != NUL {
        buf := buf + [unparsedRune];
        unparsedRune := NUL;
      }
      while true
        invariant Valid() && unparsedRune == NUL
        invariant sepFound ==> !atEof && AfterSeparator(separator, rest, buf, inBraces) == tokens
        invariant !sepFound ==>
          if atEof && buf == "" then tokens == [] else Split(separator, rest, buf, inBraces) == tokens
        decreases |rest|
      {
        if atEof && buf == "" {
          return false;
        }
        var ch := ReadRune();
        if ch == NUL {
          return true;
        }
        if sepFound {
          if ch == ' ' {
            continue;
          }
          unparsedRune := ch;
          return true;
        }
        if ch == '{' {
          inBraces := true;
        }
        if ch == '}' {
          inBraces := false;
        }
        if ch == separator && !inBraces {
          sepFound := true;
          continue;
        }
        buf := buf + [ch];
      }
    }

    method Text() returns (str: string)
      requires Valid()
      modifies this
      ensures Valid() && str == old(buf) && buf == "" && Yet() == old(YetAfterText())
    {
      str := buf;
      buf := "";
      assert unparsedRune != NUL ==> "" + [unparsedRune] == [unparsedRune];
    }
  }

  /** Scanning to the end delivers exactly `Tokens`, for every input. */
  method ScanAll(str: string, separator: char) returns (tokens: seq<string>)
    ensures tokens == Tokens(separator, str)
  {
    var t := new SliceTokenizer(str, separator);
    tokens := [];
    var more := t.Scan();
    while more
      invariant t.Valid()
      invariant more ==> tokens + [t.buf] + t.YetAfterText() == Tokens(separator, str)
      invariant !more ==> tokens == Tokens(separator, str)
      decreases |Tokens(separator, str)| - |tokens|, more
    {
      var token := t.Text();
      tokens := tokens + [token];
      ghost var left := t.Yet();
      assert tokens + left == Tokens(separator, str);
      more := t.Scan();
    }
  }
}
