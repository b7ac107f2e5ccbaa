/**
 shellJoin (internal/controller/squall/engine.go) against the quoting and token rules of the Shell Command
 Language of IEEE Std 1003.1: sections 2.2.1 (escape character), 2.2.2 (single-quotes) and 2.3 (tokens).
 */
module ShellJoin {
  import opened Base

  /** strings.ReplaceAll(a, "'", `'\''`) */
  function Escaped(a: string): string {
    if a == "" then ""
    else (if a[0] == '\'' then "'\\''" else [a[0]]) + Escaped(a[1..])
  }

  function Quoted(a: string): string {
    "'" + Escaped(a) + "'"
  }

  /** The words, each quoted, separated by single spaces. */
  function Joined(argv: seq<string>): string {
    if argv == [] then ""
    else if |argv| == 1 then Quoted(argv[0])
    else Joined(argv[..|argv| - 1]) + " " + Quoted(argv[|argv| - 1])
  }

  method Join(argv: seq<string>) returns (s: string)
    ensures s == Joined(argv)
  {
    s := "";
    for i := 0 to |argv|
      invariant s == Joined(argv[..i])
    {
      assert argv[..i + 1][..i] == argv[..i];
      if i > 0 {
        s := s + " ";
      }
      s := s + "'";
      s := s + Escaped(argv[i]);
      s := s + "'";
    }
    assert argv[..|argv|] == argv;
  }

  // ---------------------------------------------------------------- the shell's reading

  datatype Mode = Plain | InQuotes | AfterBackslash

  /** How the shell takes one character of the input. */
  datatype Piece = Bare(c: char) | Literal(c: char) | Escape(c: char) | Mark

  /** The mode after a character. */
  function NextMode(mode: Mode, c: char): Mode {
    match mode
    case Plain => if c == '\'' then InQuotes else if c == '\\' then AfterBackslash else Plain
    case InQuotes => if c == '\'' then Plain else InQuotes
    case AfterBackslash => Plain
  }

  function PieceOf(mode: Mode, c: char): Piece {
    match mode
    case Plain => if c == '\'' || c == '\\' then Mark else Bare(c)
    case InQuotes => if c == '\'' then Mark else Literal(c)
    case AfterBackslash => Escape(c)
  }

  /** Characters that, unquoted, make the shell do more than collect words (section 2.2). */
  predicate Special(c: char) {
    c in "|&;<>()$`\"\n*?[#~=%"
  }

  predicate Blank(c: char) {
    c == ' ' || c == '\t'
  }

  /**
   Collects words from `s`: `word` is the token being built, `words` the finished ones. None when the input
   ends inside a quote, or when an unquoted character asks for anything but token collection.
   */
  function Collect(s: string, mode: Mode, word: Option<string>, words: seq<string>): Option<seq<string>> {
    if s == "" then
      if mode != Plain then None
      else if word.Some? then Some(words + [word.value]) else Some(words)
    else
      var c := s[0];
      var w := if word.Some? then word.value else "";
      match PieceOf(mode, c)
      case Mark => Collect(s[1..], NextMode(mode, c), Some(w), words)
      case Literal(_) => Collect(s[1..], mode, Some(w + [c]), words)
      case Escape(_) => Collect(s[1..], Plain, if c == '\n' then word else Some(w + [c]), words)
      case Bare(_) =>
        if Special(c) then None
        else if Blank(c) then Collect(s[1..], Plain, None, if word.Some? then words + [w] else words)
        else Collect(s[1..], Plain, Some(w + [c]), words)
  }

  function Split(s: string): Option<seq<string>> {
    Collect(s, Plain, None, [])
  }

  /** One step of the shell over the characters a joined list is made of. */
  lemma OneStep(c: char, tail: string, mode: Mode, word: Option<string>, words: seq<string>)
    ensures
      var w := if word.Some? then word.value else "";
      var r := Collect([c] + tail, mode, word, words);
      && (mode == InQuotes ==>
            r == if c == '\'' then Collect(tail, Plain, Some(w), words)
                 else Collect(tail, InQuotes, Some(w + [c]), words))
      && (mode == Plain && c == '\'' ==> r == Collect(tail, InQuotes, Some(w), words))
      && (mode == Plain && c == '\\' ==> r == Collect(tail, AfterBackslash, Some(w), words))
      && (mode == Plain && c == ' ' ==> r == Collect(tail, Plain, None, if word.Some? then words + [w] else words))
      && (mode == AfterBackslash && c == '\'' ==> r == Collect(tail, Plain, Some(w + [c]), words))
  {
    assert ([c] + tail)[1..] == tail;
  }

  lemma {:induction false} InsideQuotes(a: string, rest: string, w: string, words: seq<string>)
    ensures Collect(Escaped(a) + "'" + rest, InQuotes, Some(w), words) == Collect(rest, Plain, Some(w + a), words)
    decreases |a|
  {
    hide Collect;
    var s := Escaped(a) + "'" + rest;
    if a == "" {
      assert s == ['\''] + rest && w + a == w;
      OneStep('\'', rest, InQuotes, Some(w), words);
    } else {
      var tail := Escaped(a[1..]) + "'" + rest;
      InsideQuotes(a[1..], rest, w + [a[0]], words);
      assert w + [a[0]] + a[1..] == w + a;
      if a[0] == '\'' {
        EscapedQuote(tail, w, words);
        assert s == "'\\''" + tail;
      } else {
        assert s == [a[0]] + tail;
        OneStep(a[0], tail, InQuotes, Some(w), words);
      }
    }
  }

  /** The four characters '\'' inside quotes leave one quote in the word and the quotes open. */
  lemma EscapedQuote(tail: string, w: string, words: seq<string>)
    ensures Collect("'\\''" + tail, InQuotes, Some(w), words) == Collect(tail, InQuotes, Some(w + ['\'']), words)
  {
    hide Collect;
    var s1 := ['\''] + tail;
    var s2 := ['\''] + s1;
    var s3 := ['\\'] + s2;
    assert "'\\''" + tail == ['\''] + s3;
    OneStep('\'', s3, InQuotes, Some(w), words);
    OneStep('\\', s2, Plain, Some(w), words);
    OneStep('\'', s1, AfterBackslash, Some(w), words);
    OneStep('\'', tail, Plain, Some(w + ['\'']), words);
  }

  lemma QuotedWord(a: string, rest: string, words: seq<string>)
    ensures Collect(Quoted(a) + rest, Plain, None, words) == Collect(rest, Plain, Some(a), words)
  {
    hide Collect;
    var tail := Escaped(a) + "'" + rest;
    assert Quoted(a) + rest == ['\''] + tail && "" + a == a;
    OneStep('\'', tail, Plain, None, words);
    InsideQuotes(a, rest, "", words);
  }

  /** Reading a joined list and then `rest` is reading `rest` with every word but the last finished. */
  lemma {:induction false} JoinedThen(argv: seq<string>, rest: string)
    requires argv != []
    ensures Collect(Joined(argv) + rest, Plain, None, []) ==
      Collect(rest, Plain, Some(argv[|argv| - 1]), argv[..|argv| - 1])
  {
    hide Collect;
    var last, init := argv[|argv| - 1], argv[..|argv| - 1];
    if |argv| == 1 {
      QuotedWord(last, rest, []);
    } else {
      var tail := Quoted(last) + rest;
      assert Joined(argv) + rest == Joined(init) + ([' '] + tail);
      JoinedThen(init, [' '] + tail);
      var words := init[..|init| - 1];
      OneStep(' ', tail, Plain, Some(init[|init| - 1]), words);
      assert words + [init[|init| - 1]] == init;
      QuotedWord(last, rest, init);
    }
  }

  /** Round trip: the shell reads back exactly the argument list, for every list of strings. */
  lemma SplitJoined(argv: seq<string>)
    ensures Split(Joined(argv)) == Some(argv)
  {
    if argv != [] {
      JoinedThen(argv, "");
      assert Joined(argv) + "" == Joined(argv);
      assert argv[..|argv| - 1] + [argv[|argv| - 1]] == argv;
    }
  }

  /** Two different argument lists never print the same command. */
  lemma JoinedInjective(a: seq<string>, b: seq<string>)
    requires Joined(a) == Joined(b)
    ensures a == b
  {
    SplitJoined(a);
    SplitJoined(b);
  }

  // ---------------------------------------------------------------- nothing unquoted

  function EndMode(s: string, mode: Mode): Mode {
    if s == "" then mode else EndMode(s[1..], NextMode(mode, s[0]))
  }

  /** From `mode` on, the only unquoted characters are spaces and the only escaped ones are quotes. */
  predicate OnlySpacesBare(s: string, mode: Mode) {
    s == "" ||
    (&& (PieceOf(mode, s[0]).Bare? ==> s[0] == ' ')
     && (PieceOf(mode, s[0]).Escape? ==> s[0] == '\'')
     && OnlySpacesBare(s[1..], NextMode(mode, s[0])))
  }

  lemma {:induction false} BareConcat(s: string, t: string, mode: Mode)
    requires OnlySpacesBare(s, mode) && OnlySpacesBare(t, EndMode(s, mode))
    ensures OnlySpacesBare(s + t, mode) && EndMode(s + t, mode) == EndMode(t, EndMode(s, mode))
    decreases |s|
  {
    if s == "" {
      assert s + t == t;
    } else {
      assert (s + t)[1..] == s[1..] + t;
      BareConcat(s[1..], t, NextMode(mode, s[0]));
    }
  }

  lemma {:induction false} BareEscaped(a: string)
    ensures OnlySpacesBare(Escaped(a), InQuotes) && EndMode(Escaped(a), InQuotes) == InQuotes
  {
    if a != "" {
      BareEscaped(a[1..]);
      var head := if a[0] == '\'' then "'\\''" else [a[0]];
      if a[0] == '\'' {
        assert head[1..] == "\\''" && head[1..][1..] == "''";
        assert head[1..][1..][1..] == "'" && head[1..][1..][1..][1..] == "";
        assert EndMode("'", Plain) == InQuotes && EndMode("''", AfterBackslash) == InQuotes;
        assert OnlySpacesBare("'", Plain) && OnlySpacesBare("''", AfterBackslash);
        assert OnlySpacesBare("\\''", Plain) && EndMode("\\''", Plain) == InQuotes;
      } else {
        assert head[1..] == "";
      }
      BareConcat(head, Escaped(a[1..]), InQuotes);
    }
  }

  lemma BareQuoted(a: string)
    ensures OnlySpacesBare(Quoted(a), Plain) && EndMode(Quoted(a), Plain) == Plain
  {
    BareEscaped(a);
    assert "'"[1..] == "";
    assert OnlySpacesBare("'", Plain) && EndMode("'", Plain) == InQuotes;
    assert OnlySpacesBare("'", InQuotes) && EndMode("'", InQuotes) == Plain;
    BareConcat(Escaped(a), "'", InQuotes);
    BareConcat("'", Escaped(a) + "'", Plain);
    assert "'" + (Escaped(a) + "'") == Quoted(a);
  }

  /** Nothing in a joined command is left to interpret: bare characters are the separators, escapes are quotes. */
  lemma {:induction false} NothingUnquoted(argv: seq<string>)
    ensures OnlySpacesBare(Joined(argv), Plain) && EndMode(Joined(argv), Plain) == Plain
  {
    if |argv| == 1 {
      BareQuoted(argv[0]);
    } else if |argv| > 1 {
      var init, last := argv[..|argv| - 1], argv[|argv| - 1];
      NothingUnquoted(init);
      BareQuoted(last);
      assert " "[1..] == "";
      assert OnlySpacesBare(" ", Plain) && EndMode(" ", Plain) == Plain;
      BareConcat(" ", Quoted(last), Plain);
      BareConcat(Joined(init), " " + Quoted(last), Plain);
      assert Joined(init) + (" " + Quoted(last)) == Joined(argv);
    }
  }

  // ---------------------------------------------------------------- nothing to spare

  function Quotes(a: string): nat {
    if a == "" then 0 else (if a[0] == '\'' then 1 else 0) + Quotes(a[1..])
  }

  /** Two quotes and the word, three characters more for each quote in it. */
  function Width(a: string): nat {
    |a| + 2 + 3 * Quotes(a)
  }

  /** The words' widths and one space between each two. */
  function JoinedWidth(argv: seq<string>): nat {
    if argv == [] then 0
    else if |argv| == 1 then Width(argv[0])
    else JoinedWidth(argv[..|argv| - 1]) + 1 + Width(argv[|argv| - 1])
  }

  lemma {:induction false} EscapedWidth(a: string)
    ensures |Escaped(a)| == |a| + 3 * Quotes(a)
  {
    if a != "" {
      EscapedWidth(a[1..]);
    }
  }

  /** The command text is as short as this quoting allows: no padding, and one space between words. */
  lemma {:induction false} JoinedIsTight(argv: seq<string>)
    ensures |Joined(argv)| == JoinedWidth(argv)
  {
    if argv != [] {
      EscapedWidth(argv[|argv| - 1]);
      JoinedIsTight(argv[..|argv| - 1]);
    }
  }
}
