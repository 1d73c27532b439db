/** The styles of a rendered screen: what SGR parameter strings do (section 8.3.117 of ECMA-48,
    as far as dimmed, italic, gray and inverse text goes) and which cells come out muted. */
module PromptStyle {
  import opened Basics

  datatype Style = Style(dim: bool, italic: bool, gray: bool, inverse: bool)

  const PLAIN := Style(false, false, false, false)

  predicate IsMuted(s: Style) {
    !s.inverse && (s.dim || s.italic || s.gray)
  }

  // ---------- Numbers ----------

  const MAX_INT := 0x7fff_ffff_ffff_ffff

  predicate IsDigits(s: string) {
    s != "" && forall i :: 0 <= i < |s| ==> '0' <= s[i] <= '9'
  }

  function Value(s: string): nat
    requires forall i :: 0 <= i < |s| ==> '0' <= s[i] <= '9'
  {
    if s == "" then 0 else 10 * Value(s[..|s| - 1]) + (s[|s| - 1] as int - '0' as int)
  }

  predicate HasSign(s: string) {
    s != "" && (s[0] == '+' || s[0] == '-')
  }

  function Unsigned(s: string): string {
    if HasSign(s) then s[1..] else s
  }

  function Signed(s: string): int
    requires IsDigits(Unsigned(s))
  {
    if HasSign(s) && s[0] == '-' then 0 - Value(Unsigned(s)) else Value(Unsigned(s))
  }

  /** A decimal number that fits 64 bits. */
  function Number(s: string): Option<int> {
    if IsDigits(Unsigned(s)) && -MAX_INT - 1 <= Signed(s) <= MAX_INT then Some(Signed(s)) else None
  }

  /** The value that is left of a text when its errors are ignored. */
  function Lenient(s: string): int {
    if !IsDigits(Unsigned(s)) then 0
    else if Signed(s) > MAX_INT then MAX_INT
    else if Signed(s) < -MAX_INT - 1 then -MAX_INT - 1
    else Signed(s)
  }

  // ---------- Parameters as commands ----------

  /** A color command carries whether it is the text color, and whether that becomes gray. */
  datatype Command = Code(code: int) | Color(text: bool, gray: bool) | CutColor(text: bool) | Reset

  predicate IsColor(code: int) {
    code == 38 || code == 48 || code == 58
  }

  predicate IsGrayIndex(n: int) {
    n == 8 || 240 <= n <= 250
  }

  predicate IsGrayRgb(r: int, g: int, b: int) {
    r == g == b && 80 <= r <= 190
  }

  function CodeOf(part: string): Option<int> {
    if part == "" then Some(0) else Number(part)
  }

  /** The command at position `i`, and where the next one begins. Colors take their arguments
      with them; an unknown form or a text that is no number resets the style and ends the
      list, as a color without all its arguments does. */
  function First(parts: seq<string>, i: nat): (r: (Command, Option<nat>))
    requires i < |parts|
    ensures r.1.Some? ==> i < r.1.value <= |parts|
  {
    match CodeOf(parts[i])
    case None => (Reset, None)
    case Some(code) =>
      if !IsColor(code) then (Code(code), Some(i + 1))
      else if i + 2 >= |parts| then (CutColor(code == 38), None)
      else if parts[i + 1] == "5" then
        (Color(code == 38, IsGrayIndex(Lenient(parts[i + 2]))), Some(i + 3))
      else if parts[i + 1] == "2" then
        var start := if parts[i + 2] == "" then i + 3 else i + 2;
        if start + 2 >= |parts| then (CutColor(code == 38), None)
        else
          (Color(code == 38, IsGrayRgb(Lenient(parts[start]), Lenient(parts[start + 1]), Lenient(parts[start + 2]))), Some(start + 3))
      else (Reset, None)
  }

  /** The parameters from position `i` on. */
  function Commands(parts: seq<string>, i: nat): seq<Command>
    decreases |parts| - i
  {
    if i >= |parts| then []
    else
      var (command, next) := First(parts, i);
      [command] + if next.Some? then Commands(parts, next.value) else []
  }

  predicate IsPlainColor(code: int) {
    30 <= code <= 37 || code == 39 || 91 <= code <= 97
  }

  function Apply(s: Style, c: Command): Style {
    match c
    case Reset => PLAIN
    case CutColor(text) => if text then s.(gray := false) else s
    case Color(text, gray) => if text then s.(gray := gray) else s
    case Code(code) =>
      if code == 0 then PLAIN
      else if code == 2 then s.(dim := true)
      else if code == 3 then s.(italic := true)
      else if code == 7 then s.(inverse := true)
      else if code == 22 then s.(dim := false)
      else if code == 23 then s.(italic := false)
      else if code == 27 then s.(inverse := false)
      else if IsPlainColor(code) then s.(gray := false)
      else if code == 90 then s.(gray := true)
      else s
  }

  function ApplyAll(s: Style, cs: seq<Command>): Style
    decreases |cs|
  {
    if cs == [] then s else ApplyAll(Apply(s, cs[0]), cs[1..])
  }

  class StyleState {
    var style: Style

    constructor ()
      ensures style == PLAIN
    {
      style := PLAIN;
    }

    /** One round of the loop: `next` is where its index goes, if the loop goes on. */
    method ApplyOne(parts: seq<string>, i: nat) returns (next: Option<nat>)
      requires i < |parts|
      modifies this
      ensures style == Apply(old(style), First(parts, i).0) && next == First(parts, i).1
    {
      hide CodeOf, Lenient, IsGrayRgb, IsGrayIndex, IsColor;
      var code := CodeOf(parts[i]);
      if code.None? {
        style := PLAIN;
        return None;
      }
      if !IsColor(code.value) {
        style := Apply(style, Code(code.value));
        return Some(i + 1);
      }
      var foreground := code.value == 38;
      if foreground {
        style := style.(gray := false);
      }
      if i + 2 >= |parts| {
        return None;
      }
      if parts[i + 1] == "5" {
        var color := Lenient(parts[i + 2]);
        if foreground {
          style := style.(gray := IsGrayIndex(color));
        }
        return Some(i + 3);
      }
      if parts[i + 1] == "2" {
        var start := i + 2;
        if parts[start] == "" {
          start := start + 1;
        }
        if start + 2 >= |parts| {
          return None;
        }
        var r, g, b := Lenient(parts[start]), Lenient(parts[start + 1]), Lenient(parts[start + 2]);
        if foreground {
          style := style.(gray := IsGrayRgb(r, g, b));
        }
        return Some(start + 3);
      }
      style := PLAIN;
      return None;
    }

    /** The loop over the parameters: its index jumps over the arguments of colors. */
    method ApplySgr(parts: seq<string>)
      modifies this
      ensures style == ApplyAll(old(style), Commands(parts, 0))
    {
      hide First, Apply;
      var i := 0;
      while i < |parts|
        invariant 0 <= i <= |parts|
        invariant ApplyAll(style, Commands(parts, i)) == ApplyAll(old(style), Commands(parts, 0))
        decreases |parts| - i
      {
        ghost var rest := if First(parts, i).1.Some? then Commands(parts, First(parts, i).1.value) else [];
        assert Commands(parts, i)[1..] == rest;
        var next := ApplyOne(parts, i);
        if next.None? {
          return;
        }
        i := next.value;
      }
    }
  }

  // ---------- Colors never switch dim or italic on ----------

  /** Text becomes dim or italic only by a command of its own. */
  lemma {:induction false} OnlyOwnCodes(s: Style, cs: seq<Command>)
    ensures ApplyAll(s, cs).dim ==> s.dim || Code(2) in cs
    ensures ApplyAll(s, cs).italic ==> s.italic || Code(3) in cs
    decreases |cs|
  {
    if cs != [] {
      OnlyOwnCodes(Apply(s, cs[0]), cs[1..]);
      assert forall c :: c in cs[1..] ==> c in cs;
      assert cs[0] in cs;
    }
  }

  lemma FirstShift(front: seq<string>, rest: seq<string>, i: nat)
    requires i < |rest|
    ensures var (command, next), (command', next') := First(rest, i), First(front + rest, |front| + i);
      command' == command && next' == if next.Some? then Some(|front| + next.value) else None
  {
    hide CodeOf, Lenient, IsGrayRgb, IsGrayIndex, IsColor;
    var parts := front + rest;
    assert forall k: nat :: k < |rest| ==> parts[|front| + k] == rest[k];
  }

  lemma {:induction false} CommandsShift(front: seq<string>, rest: seq<string>, i: nat)
    ensures Commands(front + rest, |front| + i) == Commands(rest, i)
    decreases |rest| - i
  {
    hide First;
    if i < |rest| {
      FirstShift(front, rest, i);
      var next := First(rest, i).1;
      if next.Some? {
        CommandsShift(front, rest, next.value);
      }
    }
  }

  /** The arguments of an indexed color are no commands, whatever they are. */
  lemma IndexedColorIsOneCommand(target: string, index: string, rest: seq<string>)
    requires CodeOf(target).Some? && IsColor(CodeOf(target).value)
    ensures Commands([target, "5", index] + rest, 0) ==
      [Color(CodeOf(target).value == 38, IsGrayIndex(Lenient(index)))] + Commands(rest, 0)
  {
    CommandsShift([target, "5", index], rest, 0);
  }

  /** Nor are those of a direct color, with or without the empty color space. */
  lemma DirectColorIsOneCommand(target: string, space: seq<string>, r: string, g: string, b: string, rest: seq<string>)
    requires CodeOf(target).Some? && IsColor(CodeOf(target).value)
    requires space == [""] || (space == [] && r != "")
    ensures Commands([target, "2"] + space + [r, g, b] + rest, 0) ==
      [Color(CodeOf(target).value == 38, IsGrayRgb(Lenient(r), Lenient(g), Lenient(b)))] + Commands(rest, 0)
  {
    var front := [target, "2"] + space + [r, g, b];
    CommandsShift(front, rest, 0);
  }

  // ---------- Cells ----------

  /** A rendered screen, already split into tokens. */
  datatype Token = Text(c: char) | Newline | Return | Sgr(parts: seq<string>)

  datatype Cell = Cell(c: char, muted: bool)

  type Line = seq<Cell>

  /** The style in force after the tokens. */
  function StyleAfter(tokens: seq<Token>): Style {
    if tokens == [] then PLAIN
    else
      var before := StyleAfter(tokens[..|tokens| - 1]);
      match tokens[|tokens| - 1]
      case Sgr(parts) => ApplyAll(before, Commands(parts, 0))
      case _ => before
  }

  function LinesOf(tokens: seq<Token>): (lines: seq<Line>)
    ensures |lines| > 0
  {
    if tokens == [] then [[]]
    else
      var front := tokens[..|tokens| - 1];
      var lines := LinesOf(front);
      match tokens[|tokens| - 1]
      case Newline => lines + [[]]
      case Text(c) => lines[|lines| - 1 := lines[|lines| - 1] + [Cell(c, IsMuted(StyleAfter(front)))]]
      case _ => lines
  }

  method StyledLines(tokens: seq<Token>) returns (lines: seq<Line>)
    ensures lines == LinesOf(tokens)
  {
    var state := new StyleState();
    lines := [[]];
    for i := 0 to |tokens|
      invariant |lines| > 0 && lines == LinesOf(tokens[..i]) && state.style == StyleAfter(tokens[..i])
      invariant fresh(state)
    {
      assert tokens[..i + 1][..i] == tokens[..i];
      match tokens[i]
      case Sgr(parts) => state.ApplySgr(parts);
      case Newline => lines := lines + [[]];
      case Return =>
      case Text(c) => lines := lines[|lines| - 1 := lines[|lines| - 1] + [Cell(c, IsMuted(state.style))]];
    }
    assert tokens[..|tokens|] == tokens;
  }
}
