/** What a screen's escape sequences mean for its cells: which command is in force, which text
    stands where, and when it is muted. */
module PromptStyleMeaning {
  import opened Basics
  import opened PromptStyle

  datatype Trait = Dim | Italic | Gray | Inverse

  predicate Has(s: Style, t: Trait) {
    match t
    case Dim => s.dim
    case Italic => s.italic
    case Gray => s.gray
    case Inverse => s.inverse
  }

  /** The command turns the trait on. */
  predicate TurnsOn(c: Command, t: Trait) {
    match t
    case Dim => c == Code(2)
    case Italic => c == Code(3)
    case Inverse => c == Code(7)
    case Gray => c == Code(90) || c == Color(true, true)
  }

  /** The command turns the trait off; a text color other than gray does that to gray, and so
      does one that is cut off. */
  predicate TurnsOff(c: Command, t: Trait) {
    || c == Reset || c == Code(0)
    || (match t
        case Dim => c == Code(22)
        case Italic => c == Code(23)
        case Inverse => c == Code(27)
        case Gray =>
          || c == Color(true, false) || c == CutColor(true)
          || (c.Code? && (30 <= c.code <= 37 || c.code == 39 || 91 <= c.code <= 97)))
  }

  /** The trait is on after the commands, by one of them that none behind it undoes. */
  ghost predicate InForce(cs: seq<Command>, t: Trait) {
    exists k :: 0 <= k < |cs| && TurnsOn(cs[k], t) && Untouched(cs, t, k + 1)
  }

  predicate Untouched(cs: seq<Command>, t: Trait, from: nat) {
    forall j :: from <= j < |cs| ==> !TurnsOff(cs[j], t)
  }

  lemma ApplyTrait(s: Style, c: Command, t: Trait)
    ensures Has(Apply(s, c), t) == (TurnsOn(c, t) || (Has(s, t) && !TurnsOff(c, t)))
  {
  }

  /** Of all commands that touch a trait the last one wins. */
  lemma {:induction false} LastWins(s: Style, cs: seq<Command>, t: Trait)
    ensures Has(ApplyAll(s, cs), t) <==> InForce(cs, t) || (Has(s, t) && Untouched(cs, t, 0))
    decreases |cs|
  {
    hide TurnsOn, TurnsOff, Apply, Has;
    if cs != [] {
      var rest := cs[1..];
      ApplyTrait(s, cs[0], t);
      LastWins(Apply(s, cs[0]), rest, t);
      assert forall j :: 0 <= j < |rest| ==> rest[j] == cs[j + 1];
      assert forall k :: 0 <= k <= |rest| ==> (Untouched(rest, t, k) <==> Untouched(cs, t, k + 1));
      if InForce(rest, t) {
        var k :| 0 <= k < |rest| && TurnsOn(rest[k], t) && Untouched(rest, t, k + 1);
        assert TurnsOn(cs[k + 1], t) && Untouched(cs, t, k + 1 + 1);
      }
      if InForce(cs, t) {
        var k :| 0 <= k < |cs| && TurnsOn(cs[k], t) && Untouched(cs, t, k + 1);
        if k > 0 {
          assert TurnsOn(rest[k - 1], t) && Untouched(rest, t, k - 1 + 1);
        }
      }
    }
  }

  // ---------- Parameters ----------

  lemma {:induction false} ValueOfDecimal(n: nat)
    ensures IsDigits(Decimal(n)) && Value(Decimal(n)) == n
  {
    if n >= 10 {
      ValueOfDecimal(n / 10);
      var text := Decimal(n);
      assert text[..|text| - 1] == Decimal(n / 10);
    } else {
      var text := Decimal(n);
      assert text[..0] == "";
    }
  }

  /** The decimal text of a number is that number, and the empty text is zero. */
  lemma CodeOfDecimal(n: nat)
    requires n <= 0x7fff_ffff_ffff_ffff
    ensures CodeOf(Decimal(n)) == Some(n as int) && Lenient(Decimal(n)) == n && CodeOf("") == Some(0)
  {
    ValueOfDecimal(n);
    DecimalNotEmpty(n);
    var text := Decimal(n);
    assert '0' <= text[0] <= '9';
  }

  /** A number that is no color is a command of its own; a text that is no number resets the
      style and ends the list. */
  lemma PlainParameter(part: string, rest: seq<string>)
    ensures CodeOf(part).None? ==> Commands([part] + rest, 0) == [Reset]
    ensures CodeOf(part).Some? && CodeOf(part).value !in {38, 48, 58} ==>
      Commands([part] + rest, 0) == [Code(CodeOf(part).value)] + Commands(rest, 0)
  {
    CommandsShift([part], rest, 0);
    hide CodeOf;
  }

  /** What a color parameter takes with it: an index, three values with or without a color
      space, or the rest of the list where it is cut off or of an unknown form. Gray are index
      8 and the indexes from 240 to 250, and equal values from 80 to 190. */
  lemma ColorParameter(part: string, rest: seq<string>)
    requires CodeOf(part).Some? && CodeOf(part).value in {38, 48, 58}
    ensures var text, commands := CodeOf(part).value == 38, Commands([part] + rest, 0);
      if |rest| < 2 then commands == [CutColor(text)]
      else if rest[0] == "5" then
        var index := Lenient(rest[1]);
        commands == [Color(text, index == 8 || 240 <= index <= 250)] + Commands(rest[2..], 0)
      else if rest[0] == "2" then
        var values := if rest[1] == "" then rest[2..] else rest[1..];
        if |values| < 3 then commands == [CutColor(text)]
        else
          var r, g, b := Lenient(values[0]), Lenient(values[1]), Lenient(values[2]);
          commands == [Color(text, r == g && g == b && 80 <= r <= 190)] + Commands(values[3..], 0)
      else commands == [Reset]
  {
    hide CodeOf, Lenient;
    var parts := [part] + rest;
    if |rest| >= 2 && rest[0] == "5" {
      assert parts == [part, "5", rest[1]] + rest[2..];
      CommandsShift([part, "5", rest[1]], rest[2..], 0);
    } else if |rest| >= 2 && rest[0] == "2" {
      var space := if rest[1] == "" then [""] else [];
      var values := if rest[1] == "" then rest[2..] else rest[1..];
      assert parts == [part, "2"] + space + values;
      if |values| >= 3 {
        var front := [part, "2"] + space + values[..3];
        assert parts == front + values[3..];
        CommandsShift(front, values[3..], 0);
      }
    }
  }

  // ---------- Cells ----------

  /** All commands of the tokens, in order. */
  function CommandsOf(tokens: seq<Token>): seq<Command> {
    if tokens == [] then []
    else
      var last := tokens[|tokens| - 1];
      CommandsOf(tokens[..|tokens| - 1]) + if last.Sgr? then Commands(last.parts, 0) else []
  }

  lemma {:induction false} ApplyAllConcat(s: Style, a: seq<Command>, b: seq<Command>)
    ensures ApplyAll(s, a + b) == ApplyAll(ApplyAll(s, a), b)
    decreases |a|
  {
    hide Apply;
    if a == [] {
      assert a + b == b;
    } else {
      assert (a + b)[1..] == a[1..] + b;
      ApplyAllConcat(Apply(s, a[0]), a[1..], b);
    }
  }

  lemma {:induction false} StyleIs(tokens: seq<Token>)
    ensures StyleAfter(tokens) == ApplyAll(PLAIN, CommandsOf(tokens))
  {
    if tokens != [] {
      var front, last := tokens[..|tokens| - 1], tokens[|tokens| - 1];
      StyleIs(front);
      if last.Sgr? {
        ApplyAllConcat(PLAIN, CommandsOf(front), Commands(last.parts, 0));
      } else {
        assert CommandsOf(front) + [] == CommandsOf(front);
      }
    }
  }

  /** Text is muted if it is dimmed, italic or gray, and not inverse. */
  lemma MutedIff(tokens: seq<Token>)
    ensures var cs := CommandsOf(tokens);
      IsMuted(StyleAfter(tokens)) <==> !InForce(cs, Inverse) && (InForce(cs, Dim) || InForce(cs, Italic) || InForce(cs, Gray))
  {
    StyleIs(tokens);
    LastWins(PLAIN, CommandsOf(tokens), Inverse);
    LastWins(PLAIN, CommandsOf(tokens), Dim);
    LastWins(PLAIN, CommandsOf(tokens), Italic);
    LastWins(PLAIN, CommandsOf(tokens), Gray);
    hide InForce, Untouched, ApplyAll, CommandsOf, StyleAfter;
  }

  function NewlinesIn(tokens: seq<Token>): nat {
    if tokens == [] then 0
    else NewlinesIn(tokens[..|tokens| - 1]) + if tokens[|tokens| - 1].Newline? then 1 else 0
  }

  /** How many characters follow the last newline. */
  function Column(tokens: seq<Token>): nat {
    if tokens == [] || tokens[|tokens| - 1].Newline? then 0
    else Column(tokens[..|tokens| - 1]) + if tokens[|tokens| - 1].Text? then 1 else 0
  }

  lemma {:induction false} LinesShape(tokens: seq<Token>)
    ensures |LinesOf(tokens)| == NewlinesIn(tokens) + 1 && |LinesOf(tokens)[NewlinesIn(tokens)]| == Column(tokens)
  {
    if tokens != [] {
      LinesShape(tokens[..|tokens| - 1]);
    }
  }

  /** Every character of the screen stands in its line and column, muted exactly if the style in
      force before it says so. */
  lemma {:induction false} CharacterLands(tokens: seq<Token>, i: nat)
    requires i < |tokens| && tokens[i].Text?
    ensures var line, column := NewlinesIn(tokens[..i]), Column(tokens[..i]);
      && line < |LinesOf(tokens)| && column < |LinesOf(tokens)[line]|
      && LinesOf(tokens)[line][column] == Cell(tokens[i].c, IsMuted(StyleAfter(tokens[..i])))
    decreases |tokens|
  {
    hide IsMuted, StyleAfter;
    var front := tokens[..|tokens| - 1];
    LinesShape(front);
    if i < |tokens| - 1 {
      CharacterLands(front, i);
      assert front[..i] == tokens[..i];
    }
  }

  function Characters(tokens: seq<Token>): nat {
    if tokens == [] then 0
    else Characters(tokens[..|tokens| - 1]) + if tokens[|tokens| - 1].Text? then 1 else 0
  }

  function CellsIn(lines: seq<Line>): nat {
    if lines == [] then 0 else CellsIn(lines[..|lines| - 1]) + |lines[|lines| - 1]|
  }

  /** There are no other cells. */
  lemma {:induction false} NoOtherCells(tokens: seq<Token>)
    ensures CellsIn(LinesOf(tokens)) == Characters(tokens)
  {
    hide IsMuted, StyleAfter;
    if tokens != [] {
      var front, last := tokens[..|tokens| - 1], tokens[|tokens| - 1];
      NoOtherCells(front);
      var lines := LinesOf(front);
      if last.Newline? {
        assert (lines + [[]])[..|lines|] == lines;
      } else if last.Text? {
        assert LinesOf(tokens)[..|lines| - 1] == lines[..|lines| - 1];
      }
    }
  }
}
