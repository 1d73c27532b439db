/** Quoting command arguments for a POSIX shell, and the shell's own reading of the result
    (sections 2.2.1 to 2.2.3 and 2.3 of the POSIX.1-2017 Shell Command Language). */
module ShellQuoting {
  import opened Basics

  // ---------- Quoting ----------

  /** How a single quote inside single quotes is written: both close and reopen the quotes. */
  datatype Style = DoubleQuoted | Backslashed

  const DOUBLE_QUOTED := ['\'', '\"', '\'', '\"', '\'']
  const BACKSLASHED := ['\'', '\\', '\'', '\'']

  function QuoteText(style: Style): string {
    match style
    case DoubleQuoted => DOUBLE_QUOTED
    case Backslashed => BACKSLASHED
  }

  function ReplaceQuotes(value: string, style: Style): string {
    if value == "" then ""
    else (if value[0] == '\'' then QuoteText(style) else [value[0]]) + ReplaceQuotes(value[1..], style)
  }

  function Quote(value: string, style: Style): string {
    if value == "" then ['\'', '\''] else ['\''] + ReplaceQuotes(value, style) + ['\'']
  }

  function Command(args: seq<string>, style: Style): string {
    if args == [] then ""
    else if |args| == 1 then Quote(args[0], style)
    else Quote(args[0], style) + " " + Command(args[1..], style)
  }

  /** The loop that collects the quoted arguments, joined by spaces. */
  method BuildCommand(args: seq<string>, style: Style) returns (text: string)
    ensures text == Command(args, style)
  {
    var quoted: seq<string> := [];
    for i := 0 to |args|
      invariant |quoted| == i && forall k :: 0 <= k < i ==> quoted[k] == Quote(args[k], style)
    {
      quoted := quoted + [Quote(args[i], style)];
    }
    text := "";
    var i := |quoted|;
    while i > 0
      invariant 0 <= i <= |quoted| && text == Command(args[i..], style)
    {
      i := i - 1;
      assert args[i..][1..] == args[i + 1..];
      text := if i == |quoted| - 1 then quoted[i] else quoted[i] + " " + text;
    }
  }

  // ---------- The shell's reading ----------

  datatype Mode = Plain | Single | Double

  /** Characters that mean more than themselves outside quotes. */
  predicate IsSpecial(c: char) {
    c in "|&;<>()$`*?[]#~=%{}!\n"
  }

  function Word(word: Option<string>): string {
    if word.Some? then word.value else ""
  }

  function Ended(words: seq<string>, word: Option<string>): seq<string> {
    if word.Some? then words + [word.value] else words
  }

  /** The words of a command that uses nothing but blanks and quoting; none if it uses more or
      a quotation does not end. `word` is the word being read, if one has begun. */
  function Read(s: string, mode: Mode, word: Option<string>, words: seq<string>): Option<seq<string>>
    decreases |s|
  {
    if s == "" then if mode == Plain then Some(Ended(words, word)) else None
    else
      var c := s[0];
      match mode
      case Plain =>
        if c == ' ' || c == '\t' then Read(s[1..], Plain, None, Ended(words, word))
        else if c == '\'' then Read(s[1..], Single, Some(Word(word)), words)
        else if c == '\"' then Read(s[1..], Double, Some(Word(word)), words)
        else if c == '\\' then
          if |s| == 1 then None
          else if s[1] == '\n' then Read(s[2..], Plain, word, words)
          else Read(s[2..], Plain, Some(Word(word) + [s[1]]), words)
        else if IsSpecial(c) then None
        else Read(s[1..], Plain, Some(Word(word) + [c]), words)
      case Single =>
        if c == '\'' then Read(s[1..], Plain, word, words)
        else Read(s[1..], Single, Some(Word(word) + [c]), words)
      case Double =>
        if c == '\"' then Read(s[1..], Plain, word, words)
        else if c == '$' || c == '`' then None
        else if c == '\\' && |s| > 1 && s[1] == '\n' then Read(s[2..], Double, word, words)
        else if c == '\\' && |s| > 1 && s[1] in "$`\"\\" then Read(s[2..], Double, Some(Word(word) + [s[1]]), words)
        else Read(s[1..], Double, Some(Word(word) + [c]), words)
  }

  function Words(s: string): Option<seq<string>> {
    Read(s, Plain, None, [])
  }

  // ---------- The round trip ----------

  lemma Opens(rest: string, word: Option<string>, words: seq<string>)
    ensures Read(['\''] + rest, Plain, word, words) == Read(rest, Single, Some(Word(word)), words)
    ensures Read(['\"'] + rest, Plain, word, words) == Read(rest, Double, Some(Word(word)), words)
    ensures Read(['\\', '\''] + rest, Plain, word, words) == Read(rest, Plain, Some(Word(word) + ['\'']), words)
    ensures Read([' '] + rest, Plain, word, words) == Read(rest, Plain, None, Ended(words, word))
  {
    var s := ['\\', '\''] + rest;
    assert s[2..] == rest && s[0] == '\\' && s[1] == '\'';
    assert (['\''] + rest)[1..] == rest && (['\"'] + rest)[1..] == rest && ([' '] + rest)[1..] == rest;
  }

  lemma Closes(rest: string, word: string, words: seq<string>)
    ensures Read(['\''] + rest, Single, Some(word), words) == Read(rest, Plain, Some(word), words)
    ensures Read(['\'', '\"'] + rest, Double, Some(word), words) == Read(rest, Plain, Some(word + ['\'']), words)
  {
    assert (['\''] + rest)[1..] == rest;
    assert (['\'', '\"'] + rest)[1..] == ['\"'] + rest;
    assert (['\"'] + rest)[1..] == rest;
  }

  lemma Reads(c: char, rest: string, word: string, words: seq<string>)
    requires c != '\''
    ensures Read([c] + rest, Single, Some(word), words) == Read(rest, Single, Some(word + [c]), words)
  {
    assert ([c] + rest)[1..] == rest;
  }

  /** An escaped single quote takes the reader from single quotes back into them. */
  lemma ReadsQuote(style: Style, rest: string, word: string, words: seq<string>)
    ensures Read(QuoteText(style) + rest, Single, Some(word), words) == Read(rest, Single, Some(word + ['\'']), words)
  {
    hide Read;
    var open := ['\''] + rest;
    Opens(rest, Some(word + ['\'']), words);
    match style
    case DoubleQuoted =>
      var doubled := ['\'', '\"'] + open;
      assert QuoteText(style) + rest == ['\''] + (['\"'] + doubled);
      Closes(['\"'] + doubled, word, words);
      Opens(doubled, Some(word), words);
      Closes(open, word, words);
    case Backslashed =>
      assert QuoteText(style) + rest == ['\''] + (['\\', '\''] + open);
      Closes(['\\', '\''] + open, word, words);
      Opens(open, Some(word), words);
  }

  lemma {:induction false} ReadsReplaced(value: string, style: Style, rest: string, word: string, words: seq<string>)
    ensures Read(ReplaceQuotes(value, style) + ['\''] + rest, Single, Some(word), words) == Read(rest, Plain, Some(word + value), words)
  {
    hide Read;
    var s := ReplaceQuotes(value, style) + ['\''] + rest;
    if value == "" {
      assert s == ['\''] + rest && word + value == word;
      Closes(rest, word, words);
    } else {
      var more := ReplaceQuotes(value[1..], style) + ['\''] + rest;
      ReadsReplaced(value[1..], style, rest, word + [value[0]], words);
      assert word + [value[0]] + value[1..] == word + value;
      if value[0] == '\'' {
        assert s == QuoteText(style) + more;
        ReadsQuote(style, more, word, words);
      } else {
        assert s == [value[0]] + more;
        Reads(value[0], more, word, words);
      }
    }
  }

  lemma ReadsQuoted(value: string, style: Style, rest: string, words: seq<string>)
    ensures Read(Quote(value, style) + rest, Plain, None, words) == Read(rest, Plain, Some(value), words)
  {
    hide Read;
    var inner := ReplaceQuotes(value, style) + ['\''] + rest;
    assert Quote(value, style) + rest == ['\''] + inner;
    Opens(inner, None, words);
    ReadsReplaced(value, style, rest, "", words);
    assert "" + value == value;
  }

  lemma ReadsNothing(word: Option<string>, words: seq<string>)
    ensures Read("", Plain, word, words) == Some(Ended(words, word))
  {
  }

  lemma {:induction false} ReadsCommand(args: seq<string>, style: Style, words: seq<string>)
    ensures Read(Command(args, style), Plain, None, words) == Some(words + args)
    decreases |args|
  {
    hide Read, Quote;
    if args == [] {
      ReadsNothing(None, words);
      assert words + args == words;
    } else if |args| == 1 {
      assert Command(args, style) == Quote(args[0], style) + "";
      ReadsQuoted(args[0], style, "", words);
      ReadsNothing(Some(args[0]), words);
      assert words + [args[0]] == words + args;
    } else {
      var rest := " " + Command(args[1..], style);
      assert Command(args, style) == Quote(args[0], style) + rest;
      ReadsQuoted(args[0], style, rest, words);
      assert rest == [' '] + Command(args[1..], style);
      Opens(Command(args[1..], style), Some(args[0]), words);
      ReadsCommand(args[1..], style, words + [args[0]]);
      assert words + [args[0]] + args[1..] == words + args;
    }
  }

  /** Whatever characters the arguments have, the shell gets back exactly them, in both styles. */
  lemma CommandRoundTrip(args: seq<string>, style: Style)
    ensures Words(Command(args, style)) == Some(args)
  {
    ReadsCommand(args, style, []);
    assert [] + args == args;
  }

  /** So two argument lists never share a command text. */
  lemma CommandInjective(a: seq<string>, b: seq<string>, style: Style)
    requires Command(a, style) == Command(b, style)
    ensures a == b
  {
    CommandRoundTrip(a, style);
    CommandRoundTrip(b, style);
  }
}
